/** Stage events bracket everything that happens below them, on every schedule. */
module FlowBrackets {
  import opened Common
  import opened FlowBundle
  import opened FlowMeaning
  import opened FlowMachine

  /** The stage at address a has started and not ended. */
  predicate Open(p: Proc, a: Addr)
    decreases p
  {
    if a == [] then p.InPipe? || p.InPool?
    else if p.InPipe? then p.kid.Some? && a[0] == p.i && Open(p.kid.value, a[1..])
    else p.InPool? && a[0] < |p.slots| && p.slots[a[0]].Busy? && Open(p.slots[a[0]].proc, a[1..])
  }

  /** Every stage above an address is open. */
  ghost predicate Inside(p: Proc, a: Addr) {
    forall k: nat | k < |a| :: Open(p, a[..k])
  }

  /** How one event changes which stages are open. */
  predicate OpenAfter(e: Event, a: Addr, was: bool) {
    if e.at != a then was else if e.what.StageStart? then true else if e.what.StageEnd? then false else was
  }

  /** A step reports at most one event, inside open stages; it opens or closes
      the stage of that event and no other. */
  ghost predicate StepNests(p: Proc, m: Move) {
    && |m.events| <= 1
    && (m.events == [] ==> forall a :: Open(m.proc, a) == Open(p, a))
    && (m.events != [] ==>
          && Inside(p, m.events[0].at)
          && (forall a :: Open(m.proc, a) == OpenAfter(m.events[0], a, Open(p, a)))
          && (m.events[0].what.StageStart? ==> !Open(p, m.events[0].at))
          && (m.events[0].what.StageEnd? ==> Open(p, m.events[0].at)))
  }

  lemma FinishedIsClosed(p: Proc, a: Addr)
    requires Finished(p)
    ensures !Open(p, a)
  {
  }

  lemma IdleIsClosed(slots: seq<Slot>, i: nat)
    requires InFlight(slots) == 0 && i < |slots|
    ensures slots[i].Free?
  {
    if i > 0 { IdleIsClosed(slots[1..], i - 1); }
  }

  lemma KidNests(p: Proc, i: nat, k: Proc, m: Move, p': Proc)
    requires StepNests(k, m)
    requires p.InPipe? || p.InPool?
    requires forall a :: Open(p, [i] + a) == Open(k, a)
    requires forall a :: Open(p', [i] + a) == Open(m.proc, a)
    requires forall a | a == [] || a[0] != i :: Open(p', a) == Open(p, a)
    ensures StepNests(p, Move(Lift(i, m.events), p'))
  {
    forall a ensures a != [] && a[0] == i ==> a == [i] + a[1..] { }
    if m.events != [] {
      var e, e' := m.events[0], Lift(i, m.events)[0];
      forall j: nat | j < |e'.at| ensures Open(p, e'.at[..j]) {
        if j > 0 { assert e'.at[..j] == [i] + e.at[..j - 1]; }
      }
      assert [i] + e.at == e'.at;
    }
  }

  /** Leaves report no stage events. */
  ghost predicate Tame(p: Proc)
    decreases p
  {
    match p
    case Running(todo, _) => forall w | w in todo :: !w.StageStart? && !w.StageEnd?
    case InPipe(_, _, _, kid, _) => kid.Some? ==> Tame(kid.value)
    case InPool(_, _, _, _, slots, _) => forall k | k in slots && k.Busy? :: Tame(k.proc)
    case _ => true
  }

  lemma StartIsTame(s: Step, env: Env, db: bool)
    ensures Tame(Start(s, env, db)) && forall a :: !Open(Start(s, env, db), a)
  {
    if s.Leaf? {
      var t := BundleTrace(s.bundle, env, db);
      forall w | w in t ensures !w.StageStart? && !w.StageEnd? {
        var n :| 0 <= n < |t| && t[n] == w;
        BundleBrackets(s.bundle, env, db, n);
      }
    }
  }

  lemma DispatchNests(p: Proc, db: bool, spent: real)
    requires p.InPool? && Tame(p) && Dispatch(p, db, spent).Some?
    ensures StepNests(p, Dispatch(p, db, spent).value) && Tame(Dispatch(p, db, spent).value.proc)
  {
    if |p.slots| < |p.step.steps| {
      StartIsTame(p.step.steps[|p.slots|], p.env, db);
    } else {
      forall i: nat | i < |p.slots| ensures p.slots[i].Free? { IdleIsClosed(p.slots, i); }
    }
  }

  lemma UpdateTame(p: Proc, i: nat, k: Slot, rs: seq<Result>)
    requires p.InPool? && Tame(p) && i < |p.slots| && (k.Busy? ==> Tame(k.proc))
    ensures Tame(p.(slots := p.slots[i := k], results := rs))
  {
    forall x | x in p.slots[i := k] && x.Busy? ensures Tame(x.proc) {
      var a :| 0 <= a < |p.slots| && p.slots[i := k][a] == x;
      assert a != i ==> x == p.slots[a];
    }
  }

  lemma PipeNests(p: Proc, db: bool, spent: real)
    requires p.InPipe? && Tame(p) && NextInPipe(p, Go, db, spent).Some?
    ensures StepNests(p, NextInPipe(p, Go, db, spent).value) && Tame(NextInPipe(p, Go, db, spent).value.proc)
  {
    if p.kid.Some? {
      forall a { FinishedIsClosed(p.kid.value, a); }
    } else if p.i < |p.step.steps| {
      StartIsTame(p.step.steps[p.i], p.env, db);
    }
  }

  /** Whatever the scheduler picks. */
  lemma {:induction false} EveryStepNests(p: Proc, c: Choice, db: bool, spent: real)
    requires Tame(p) && Next(p, c, db, spent).Some?
    ensures StepNests(p, Next(p, c, db, spent).value) && Tame(Next(p, c, db, spent).value.proc)
    decreases c
  {
    var m := Next(p, c, db, spent).value;
    if p.InPool? {
      match c
      case Go => DispatchNests(p, db, spent);
      case Kid(i, c') =>
        EveryStepNests(p.slots[i].proc, c', db, spent);
        KidNests(p, i, p.slots[i].proc, Next(p.slots[i].proc, c', db, spent).value, m.proc);
        UpdateTame(p, i, m.proc.slots[i], p.results);
      case Commit(i) =>
        forall a { FinishedIsClosed(p.slots[i].proc, a); }
        UpdateTame(p, i, Committed, m.proc.results);
      case Release(i) => UpdateTame(p, i, Free, p.results);
    } else if p.InPipe? {
      if c.Kid? {
        EveryStepNests(p.kid.value, c.choice, db, spent);
        KidNests(p, p.i, p.kid.value, Next(p.kid.value, c.choice, db, spent).value, m.proc);
      } else {
        PipeNests(p, db, spent);
      }
    }
  }

  /* ---- whole runs ---- */

  /** Whether the stage at a is open after a trace. */
  function OpenAt(tr: seq<Event>, a: Addr, was: bool): bool {
    if tr == [] then was else OpenAfter(tr[|tr| - 1], a, OpenAt(tr[..|tr| - 1], a, was))
  }

  lemma {:induction false} OpenAtConcat(x: seq<Event>, y: seq<Event>, a: Addr, was: bool)
    ensures OpenAt(x + y, a, was) == OpenAt(y, a, OpenAt(x, a, was))
  {
    if y == [] {
      assert x + y == x;
    } else {
      assert (x + y)[..|x + y| - 1] == x + y[..|y| - 1];
      OpenAtConcat(x, y[..|y| - 1], a, was);
    }
  }

  /** Every event comes while all stages above it are open. */
  ghost predicate Nested(tr: seq<Event>, p: Proc) {
    forall n: nat, k: nat | n < |tr| && k < |tr[n].at| :: OpenAt(tr[..n], tr[n].at[..k], Open(p, tr[n].at[..k]))
  }

  lemma {:induction false} RunNests(p: Proc, cs: seq<Choice>, db: bool, spent: real)
    requires Tame(p)
    ensures Nested(RunOf(p, cs, db, spent).trace, p)
    decreases cs
  {
    hide Next, Tame, Open, OpenAt, StepNests;
    if cs != [] && Next(p, cs[0], db, spent).Some? {
      hide Nested;
      var m := Next(p, cs[0], db, spent).value;
      EveryStepNests(p, cs[0], db, spent);
      RunNests(m.proc, cs[1..], db, spent + Cost(m.events));
      NestedCons(p, m, RunOf(m.proc, cs[1..], db, spent + Cost(m.events)).trace);
    }
  }

  lemma NestedCons(p: Proc, m: Move, rest: seq<Event>)
    requires StepNests(p, m) && Nested(rest, m.proc)
    ensures Nested(m.events + rest, p)
  {
    var tr := m.events + rest;
    forall n: nat, k: nat | n < |tr| && k < |tr[n].at|
      ensures OpenAt(tr[..n], tr[n].at[..k], Open(p, tr[n].at[..k]))
    {
      var a := tr[n].at[..k];
      if n >= |m.events| {
        var j := n - |m.events|;
        assert tr[n] == rest[j] && tr[..n] == m.events + rest[..j];
        OpenAtConcat(m.events, rest[..j], a, Open(p, a));
        assert OpenAt(m.events, a, Open(p, a)) == Open(m.proc, a) by {
          if m.events != [] { assert m.events == [m.events[0]] && m.events[..0] == []; }
        }
      } else {
        assert tr[..n] == [];
      }
    }
  }

  /** An open stage was started and has not ended since. */
  ghost predicate StartedBefore(tr: seq<Event>, n: nat, a: Addr)
    requires n <= |tr|
  {
    exists m: nat :: m < n && tr[m].at == a && tr[m].what.StageStart?
      && forall j: nat | m < j < n :: !(tr[j].at == a && tr[j].what.StageEnd?)
  }

  lemma {:induction false} OpenWasStarted(tr: seq<Event>, n: nat, a: Addr)
    requires n <= |tr| && OpenAt(tr[..n], a, false)
    ensures StartedBefore(tr, n, a)
  {
    if n > 0 {
      assert tr[..n][..n - 1] == tr[..n - 1];
      if tr[n - 1].at == a && tr[n - 1].what.StageStart? {
        assert tr[n - 1].at == a;
      } else {
        OpenWasStarted(tr, n - 1, a);
        var m: nat :| m < n - 1 && tr[m].at == a && tr[m].what.StageStart?
          && forall j: nat | m < j < n - 1 :: !(tr[j].at == a && tr[j].what.StageEnd?);
        assert forall j: nat | m < j < n :: !(tr[j].at == a && tr[j].what.StageEnd?);
      }
    }
  }

  /** On every schedule, whatever is reported at an address comes after the start
      and before the end of every stage above it. */
  lemma StagesBracket(s: Step, env: Env, db: bool, cs: seq<Choice>, spent: real, n: nat, k: nat)
    requires var tr := RunOf(Start(s, env, db), cs, db, spent).trace; n < |tr| && k < |tr[n].at|
    ensures var tr := RunOf(Start(s, env, db), cs, db, spent).trace; StartedBefore(tr, n, tr[n].at[..k])
  {
    StartIsTame(s, env, db);
    RunNests(Start(s, env, db), cs, db, spent);
    var tr := RunOf(Start(s, env, db), cs, db, spent).trace;
    OpenWasStarted(tr, n, tr[n].at[..k]);
  }
}
