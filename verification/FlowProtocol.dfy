/** The worker pool as a protocol: how many steps are in flight, that no state is
    stuck, and that every schedule comes to an end. */
module FlowProtocol {
  import opened Common
  import opened FlowBundle
  import opened FlowMeaning
  import opened FlowMachine

  /* ---- never more than the workers ---- */

  lemma {:induction false} InFlightAppend(slots: seq<Slot>, k: Slot)
    ensures InFlight(slots + [k]) == InFlight(slots) + (if k.Free? then 0 else 1)
  {
    if slots == [] {
      assert slots + [k] == [k];
    } else {
      assert (slots + [k])[1..] == slots[1..] + [k];
      InFlightAppend(slots[1..], k);
    }
  }

  lemma {:induction false} InFlightUpdate(slots: seq<Slot>, i: nat, k: Slot)
    requires i < |slots|
    ensures InFlight(slots[i := k]) + (if slots[i].Free? then 0 else 1) == InFlight(slots) + (if k.Free? then 0 else 1)
  {
    if i == 0 {
      assert slots[0 := k][1..] == slots[1..];
    } else {
      assert slots[i := k][1..] == slots[1..][i - 1 := k];
      InFlightUpdate(slots[1..], i - 1, k);
    }
  }

  /** In every pool of the process, the steps in flight fit the workers. */
  ghost predicate Bounded(p: Proc)
    decreases p
  {
    match p
    case InPipe(_, _, _, kid, _) => kid.Some? ==> Bounded(kid.value)
    case InPool(s, env, _, _, slots, _) =>
      && s.Parallel? && |slots| <= |s.steps| && InFlight(slots) <= Width(s, env)
      && (forall k | k in slots && k.Busy? :: Bounded(k.proc))
    case _ => true
  }

  lemma {:induction false} StepKeepsBounded(p: Proc, c: Choice, db: bool, spent: real)
    requires Bounded(p) && Next(p, c, db, spent).Some?
    ensures Bounded(Next(p, c, db, spent).value.proc)
    decreases c
  {
    if p.InPool? {
      var slots := p.slots;
      match c
      case Go => if Dispatch(p, db, spent).value.proc.InPool? { DispatchBounded(p, db, spent); }
      case Kid(i, c') =>
        StepKeepsBounded(slots[i].proc, c', db, spent);
        InFlightUpdate(slots, i, Busy(Next(slots[i].proc, c', db, spent).value.proc));
      case Commit(i) => InFlightUpdate(slots, i, Committed);
      case Release(i) => InFlightUpdate(slots, i, Free);
    } else if p.InPipe? && c.Kid? {
      StepKeepsBounded(p.kid.value, c.choice, db, spent);
    }
  }

  lemma DispatchBounded(p: Proc, db: bool, spent: real)
    requires p.InPool? && Bounded(p) && Dispatch(p, db, spent).Some? && Dispatch(p, db, spent).value.proc.InPool?
    ensures Bounded(Dispatch(p, db, spent).value.proc)
  {
    var n := |p.slots|;
    InFlightAppend(p.slots, Free);
    if n < |p.step.steps| { InFlightAppend(p.slots, Busy(Start(p.step.steps[n], p.env, db))); }
  }

  /** On every run, in every pool: at most `workers` steps in flight. */
  lemma {:induction false} RunBounded(p: Proc, cs: seq<Choice>, db: bool, spent: real)
    requires Bounded(p)
    ensures Bounded(RunOf(p, cs, db, spent).proc)
    decreases cs
  {
    hide Bounded, Next;
    if cs != [] && Next(p, cs[0], db, spent).Some? {
      var m := Next(p, cs[0], db, spent).value;
      StepKeepsBounded(p, cs[0], db, spent);
      RunBounded(m.proc, cs[1..], db, spent + Cost(m.events));
    }
  }

  /* ---- never stuck ---- */

  /** The shape every process of a run has, whatever its gates. */
  predicate Shaped(p: Proc)
    decreases p
  {
    match p
    case Running(_, _) => true
    case NewPipe(s, _) => s.Pipeline?
    case InPipe(s, _, i, kid, g) =>
      s.Pipeline? && i <= |s.steps| && (kid.Some? ==> i < |s.steps| && g.firstError < 0 && Shaped(kid.value))
    case NewPool(s, _) => s.Parallel?
    case InPool(s, _, ticket, refused, slots, _) =>
      && s.Parallel? && |slots| <= |s.steps|
      && (ticket ==> |slots| < |s.steps| && !refused && Passes(s.gate, |slots|))
      && (forall k | k in slots && k.Busy? :: Shaped(k.proc))
    case Over(_) => true
  }

  lemma {:induction false} SomeInFlight(slots: seq<Slot>) returns (i: nat)
    requires InFlight(slots) > 0
    ensures i < |slots| && !slots[i].Free?
  {
    if !slots[0].Free? {
      i := 0;
    } else {
      i := SomeInFlight(slots[1..]);
      i := i + 1;
    }
  }

  /** Unless it has finished, some step of the process is possible. */
  lemma {:induction false} NeverStuck(p: Proc, db: bool, spent: real) returns (c: Choice)
    requires Shaped(p) && !Finished(p)
    ensures Next(p, c, db, spent).Some?
    decreases p
  {
    c := Go;
    if p.InPipe? && p.kid.Some? && !Finished(p.kid.value) && p.i <= |p.step.steps| {
      var c' := NeverStuck(p.kid.value, db, spent);
      c := Kid(p.i, c');
      assert NextInPipe(p, c, db, spent).Some?;
    } else if p.InPool? && Dispatch(p, db, spent).None? {
      var i := SomeInFlight(p.slots);
      if p.slots[i].Committed? {
        c := Release(i);
      } else if Finished(p.slots[i].proc) {
        c := Commit(i);
      } else {
        var c' := NeverStuck(p.slots[i].proc, db, spent);
        c := Kid(i, c');
      }
    }
  }

  lemma {:induction false} StepKeepsShaped(p: Proc, c: Choice, db: bool, spent: real)
    requires Shaped(p) && Next(p, c, db, spent).Some?
    ensures Shaped(Next(p, c, db, spent).value.proc)
    decreases c
  {
    if p.InPool? {
      match c
      case Go => DispatchShaped(p, db, spent);
      case Kid(i, c') =>
        StepKeepsShaped(p.slots[i].proc, c', db, spent);
        UpdateShaped(p, i, Busy(Next(p.slots[i].proc, c', db, spent).value.proc), p.results);
      case Commit(i) => UpdateShaped(p, i, Committed, p.results + Results(p.slots[i].proc));
      case Release(i) => UpdateShaped(p, i, Free, p.results);
    } else if p.InPipe? {
      if c.Kid? { StepKeepsShaped(p.kid.value, c.choice, db, spent); }
      if c.Go? && p.i < |p.step.steps| { StartShaped(p.step.steps[p.i], p.env, db); }
    }
  }

  lemma UpdateShaped(p: Proc, i: nat, k: Slot, rs: seq<Result>)
    requires p.InPool? && Shaped(p) && i < |p.slots| && (k.Busy? ==> Shaped(k.proc))
    ensures Shaped(p.(slots := p.slots[i := k], results := rs))
  {
    forall x | x in p.slots[i := k] && x.Busy? ensures Shaped(x.proc) {
      var a :| 0 <= a < |p.slots| && p.slots[i := k][a] == x;
      assert a != i ==> x == p.slots[a];
    }
  }

  lemma StartShaped(s: Step, env: Env, db: bool)
    ensures Shaped(Start(s, env, db))
  {
  }

  lemma DispatchShaped(p: Proc, db: bool, spent: real)
    requires p.InPool? && Shaped(p) && Dispatch(p, db, spent).Some?
    ensures Shaped(Dispatch(p, db, spent).value.proc)
  {
    if |p.slots| < |p.step.steps| { StartShaped(p.step.steps[|p.slots|], p.env, db); }
  }

  /* ---- always ending ---- */

  /** How many steps a process can still make. */
  function Work(p: Proc, db: bool): nat
    requires Shaped(p)
    decreases p, 0
  {
    match p
    case Running(todo, _) => |todo|
    case NewPipe(s, env) => StepsWork(s, 0, env, db) + 1
    case InPipe(s, env, i, kid, _) =>
      if kid.None? then StepsWork(s, i, env, db) else Work(kid.value, db) + 1 + StepsWork(s, i + 1, env, db)
    case NewPool(s, env) => StepsWork(s, 0, env, db) + 3
    case InPool(s, env, ticket, refused, slots, _) =>
      SlotsWork(slots, db) + StepsWork(s, |slots|, env, db) + (if ticket then 0 else 1) + (if refused then 0 else 1)
    case Over(_) => 0
  }

  function SlotsWork(slots: seq<Slot>, db: bool): nat
    requires forall k | k in slots && k.Busy? :: Shaped(k.proc)
    decreases slots, |slots|
  {
    if slots == [] then 0
    else SlotWork(slots[|slots| - 1], db) + SlotsWork(slots[..|slots| - 1], db)
  }

  function SlotWork(k: Slot, db: bool): nat
    requires k.Busy? ==> Shaped(k.proc)
    decreases k, 1
  {
    match k
    case Busy(p) => Work(p, db) + 2
    case Committed => 1
    case Free => 0
  }

  /** The work of the steps from the i-th on, and the stage's end. */
  function StepsWork(s: Step, i: nat, env: Env, db: bool): nat
    requires !s.Leaf? && i <= |s.steps|
    decreases s, |s.steps| - i
  {
    if i == |s.steps| then 1 else StepWork(s.steps[i], env, db) + 4 + StepsWork(s, i + 1, env, db)
  }

  function StepWork(s: Step, env: Env, db: bool): nat
    decreases s, if s.Leaf? then 0 else |s.steps| + 1
  {
    match s
    case Leaf(b) => |BundleTrace(b, env, db)|
    case Pipeline(_, _, own) => StepsWork(s, 0, Bind(own, env), db) + 1
    case Parallel(_, _, own, _, _) => StepsWork(s, 0, Bind(own, env), db) + 3
  }

  lemma StartWork(s: Step, env: Env, db: bool)
    ensures Shaped(Start(s, env, db)) && Work(Start(s, env, db), db) == StepWork(s, env, db)
  {
  }

  lemma {:induction false} SlotsWorkAppend(slots: seq<Slot>, k: Slot, db: bool)
    requires (forall x | x in slots && x.Busy? :: Shaped(x.proc)) && (k.Busy? ==> Shaped(k.proc))
    ensures SlotsWork(slots + [k], db) == SlotsWork(slots, db) + SlotWork(k, db)
  {
    assert (slots + [k])[..|slots|] == slots;
  }

  lemma {:induction false} SlotsWorkUpdate(slots: seq<Slot>, i: nat, k: Slot, db: bool)
    requires i < |slots| && (forall x | x in slots && x.Busy? :: Shaped(x.proc)) && (k.Busy? ==> Shaped(k.proc))
    ensures SlotsWork(slots[i := k], db) + SlotWork(slots[i], db) == SlotsWork(slots, db) + SlotWork(k, db)
  {
    var n := |slots| - 1;
    if i == n {
      assert slots[i := k][..n] == slots[..n];
    } else {
      assert slots[i := k][..n] == slots[..n][i := k];
      SlotsWorkUpdate(slots[..n], i, k, db);
    }
  }

  lemma {:induction false} FinishedWork(p: Proc, db: bool)
    requires Shaped(p) && Finished(p)
    ensures Work(p, db) == 0
  {
  }

  lemma PoolWork(p: Proc, db: bool)
    requires p.InPool? && Shaped(p)
    ensures Work(p, db) == SlotsWork(p.slots, db) + StepsWork(p.step, |p.slots|, p.env, db)
                           + (if p.ticket then 0 else 1) + (if p.refused then 0 else 1)
    ensures |p.slots| < |p.step.steps| ==>
              StepsWork(p.step, |p.slots|, p.env, db)
              == StepWork(p.step.steps[|p.slots|], p.env, db) + 4 + StepsWork(p.step, |p.slots| + 1, p.env, db)
    ensures StepsWork(p.step, |p.slots|, p.env, db) > 0
  {
  }

  lemma DispatchWorks(p: Proc, db: bool, spent: real)
    requires p.InPool? && Shaped(p) && Dispatch(p, db, spent).Some?
    ensures Shaped(Dispatch(p, db, spent).value.proc) && Work(Dispatch(p, db, spent).value.proc, db) < Work(p, db)
  {
    hide Shaped, Work, SlotsWork, StepsWork, StepWork, Start, LetsThrough, Tally;
    var n, p' := |p.slots|, Dispatch(p, db, spent).value.proc;
    DispatchShaped(p, db, spent);
    ShapedKids(p);
    SlotsWorkAppend(p.slots, Free, db);
    PoolWork(p, db);
    if n < |p.step.steps| {
      var kid := Start(p.step.steps[n], p.env, db);
      StartWork(p.step.steps[n], p.env, db);
      SlotsWorkAppend(p.slots, Busy(kid), db);
      PoolWork(p', db);
      assert SlotWork(Busy(kid), db) == StepWork(p.step.steps[n], p.env, db) + 2 && SlotWork(Free, db) == 0;
      hide Work, SlotsWork, SlotWork, StepsWork, StepWork, Shaped, Start;
    } else {
      FinishedWork(p', db);
    }
  }

  lemma SlotWorks(p: Proc, i: nat, k: Slot, rs: seq<Result>, db: bool)
    requires p.InPool? && Shaped(p) && i < |p.slots| && (k.Busy? ==> Shaped(k.proc))
    requires (p.slots[i].Busy? ==> Shaped(p.slots[i].proc)) && SlotWork(k, db) < SlotWork(p.slots[i], db)
    ensures var p' := p.(slots := p.slots[i := k], results := rs); Shaped(p') && Work(p', db) < Work(p, db)
  {
    var p' := p.(slots := p.slots[i := k], results := rs);
    UpdateShaped(p, i, k, rs);
    SlotsWorkUpdate(p.slots, i, k, db);
    PoolWork(p, db);
    PoolWork(p', db);
  }

  lemma PipeWorks(p: Proc, db: bool, spent: real)
    requires p.InPipe? && Shaped(p) && NextInPipe(p, Go, db, spent).Some?
    ensures var p' := NextInPipe(p, Go, db, spent).value.proc; Shaped(p') && Work(p', db) < Work(p, db)
  {
    if p.kid.Some? { FinishedWork(p.kid.value, db); }
    else if p.i < |p.step.steps| { StartWork(p.step.steps[p.i], p.env, db); }
  }

  lemma PipeKidWorks(p: Proc, k: Proc, db: bool)
    requires p.InPipe? && Shaped(p) && p.kid.Some? && Shaped(k) && Work(k, db) < Work(p.kid.value, db)
    ensures var p' := p.(kid := Some(k)); Shaped(p') && Work(p', db) < Work(p, db)
  {
  }

  lemma ShapedKids(p: Proc)
    requires Shaped(p)
    ensures p.InPipe? && p.kid.Some? ==> Shaped(p.kid.value)
    ensures p.InPool? ==> forall k | k in p.slots && k.Busy? :: Shaped(k.proc)
  {
  }

  lemma SlotWorkIs(k: Slot, db: bool)
    requires k.Busy? ==> Shaped(k.proc)
    ensures SlotWork(k, db) == match k case Busy(p) => Work(p, db) + 2 case Committed => 1 case Free => 0
  {
  }

  lemma KidWorks(p: Proc, i: nat, k: Proc, db: bool)
    requires p.InPool? && Shaped(p) && i < |p.slots| && p.slots[i].Busy? && Shaped(p.slots[i].proc)
    requires Shaped(k) && Work(k, db) < Work(p.slots[i].proc, db)
    ensures var p' := p.(slots := p.slots[i := Busy(k)]); Shaped(p') && Work(p', db) < Work(p, db)
  {
    SlotWorkIs(p.slots[i], db);
    SlotWorkIs(Busy(k), db);
    hide *;
    SlotWorks(p, i, Busy(k), p.results, db);
  }

  lemma HandsBack(p: Proc, i: nat, k: Slot, rs: seq<Result>, db: bool)
    requires p.InPool? && Shaped(p) && i < |p.slots|
    requires (p.slots[i].Busy? && k == Committed) || (p.slots[i].Committed? && k == Free)
    ensures var p' := p.(slots := p.slots[i := k], results := rs); Shaped(p') && Work(p', db) < Work(p, db)
  {
    ShapedKids(p);
    SlotWorkIs(p.slots[i], db);
    SlotWorkIs(k, db);
    hide *;
    SlotWorks(p, i, k, rs, db);
  }

  /** Every step leaves less to do. */
  lemma {:induction false} StepWorks(p: Proc, c: Choice, db: bool, spent: real)
    requires Shaped(p) && Next(p, c, db, spent).Some?
    ensures Shaped(Next(p, c, db, spent).value.proc) && Work(Next(p, c, db, spent).value.proc, db) < Work(p, db)
    decreases c
  {
    ShapedKids(p);
    if p.InPool? {
      hide Work, Shaped, Dispatch;
      match c
      case Go => DispatchWorks(p, db, spent);
      case Kid(i, c') =>
        StepWorks(p.slots[i].proc, c', db, spent);
        KidWorks(p, i, Next(p.slots[i].proc, c', db, spent).value.proc, db);
      case Commit(i) => HandsBack(p, i, Committed, p.results + Results(p.slots[i].proc), db);
      case Release(i) => HandsBack(p, i, Free, p.results, db);
    } else if p.InPipe? {
      hide Work, Shaped;
      if c.Kid? {
        StepWorks(p.kid.value, c.choice, db, spent);
        PipeKidWorks(p, Next(p.kid.value, c.choice, db, spent).value.proc, db);
      } else {
        PipeWorks(p, db, spent);
      }
    }
  }

  /** Every pick of the schedule was possible when its turn came. */
  predicate Possible(p: Proc, cs: seq<Choice>, db: bool, spent: real)
    decreases cs
  {
    cs == [] ||
      (Next(p, cs[0], db, spent).Some?
       && var m := Next(p, cs[0], db, spent).value; Possible(m.proc, cs[1..], db, spent + Cost(m.events)))
  }

  /** No schedule goes on for ever: its length is bounded by the work at its start. */
  lemma {:induction false} RunsEnd(p: Proc, cs: seq<Choice>, db: bool, spent: real)
    requires Shaped(p) && Possible(p, cs, db, spent)
    ensures Shaped(RunOf(p, cs, db, spent).proc) && |cs| + Work(RunOf(p, cs, db, spent).proc, db) <= Work(p, db)
    decreases cs
  {
    hide Work, Next, Shaped;
    if cs != [] {
      var m := Next(p, cs[0], db, spent).value;
      StepWorks(p, cs[0], db, spent);
      RunsEnd(m.proc, cs[1..], db, spent + Cost(m.events));
    }
  }

  /** Whatever was scheduled so far can be scheduled on until the run has finished. */
  lemma {:induction false} CanFinish(p: Proc, db: bool, spent: real) returns (cs: seq<Choice>)
    requires Shaped(p)
    ensures Possible(p, cs, db, spent) && Finished(RunOf(p, cs, db, spent).proc)
    decreases Work(p, db)
  {
    hide Work, Next, Shaped;
    if Finished(p) {
      cs := [];
    } else {
      var c := NeverStuck(p, db, spent);
      var m := Next(p, c, db, spent).value;
      StepWorks(p, c, db, spent);
      var rest := CanFinish(m.proc, db, spent + Cost(m.events));
      cs := [c] + rest;
      assert cs[1..] == rest;
    }
  }
}
