/** Gates that look at what was spent: on every schedule they answer as some gates
    fixed before the run would, so every run is one of a tree without them. */
module FlowSettling {
  import opened Common
  import opened FlowBundle
  import opened FlowMeaning
  import opened FlowMachine
  import opened FlowRefinement
  import opened FlowProtocol

  /** The same tree with every budget gate answered beforehand. */
  predicate Settles(s: Step, s': Step)
    decreases s
  {
    match s
    case Leaf(_) => s' == s
    case Pipeline(name, steps, env) =>
      && s'.Pipeline? && s'.name == name && s'.env == env && |s'.steps| == |steps|
      && forall i | 0 <= i < |steps| :: Settles(steps[i], s'.steps[i])
    case Parallel(name, steps, env, workers, gate) =>
      && s'.Parallel? && s'.name == name && s'.env == env && s'.workers == workers && |s'.steps| == |steps|
      && (if gate.Budget? then !s'.gate.Budget? else s'.gate == gate)
      && forall i | 0 <= i < |steps| :: Settles(steps[i], s'.steps[i])
  }

  lemma {:induction false} SettledIsPositional(s: Step, s': Step)
    requires Settles(s, s')
    ensures Positional(s')
    decreases s
  {
    if !s.Leaf? {
      forall k | k in s'.steps ensures Positional(k) {
        var i :| 0 <= i < |s'.steps| && s'.steps[i] == k;
        SettledIsPositional(s.steps[i], k);
      }
    }
  }

  lemma SettledKids(s: Step, s': Step)
    requires Settles(s, s') && !s.Leaf?
    ensures KidsPositional(s')
  {
    SettledIsPositional(s, s');
  }

  /** One way to answer them: no gate ever refuses. */
  lemma {:induction false} Opened(s: Step) returns (s': Step)
    ensures Settles(s, s') && (s.Parallel? && s.gate.Budget? ==> s'.gate.Open?)
    decreases s
  {
    match s
    case Leaf(_) => s' := s;
    case Pipeline(name, steps, env) =>
      var kids := OpenedAll(s, 0);
      s' := Pipeline(name, kids, env);
    case Parallel(name, steps, env, workers, gate) =>
      var kids := OpenedAll(s, 0);
      s' := Parallel(name, kids, env, workers, if gate.Budget? then Gate.Open else gate);
  }

  lemma {:induction false} OpenedAll(s: Step, i: nat) returns (kids: seq<Step>)
    requires !s.Leaf? && i <= |s.steps|
    ensures |kids| == |s.steps| - i && forall k | 0 <= k < |kids| :: Settles(s.steps[i + k], kids[k])
    decreases s, |s.steps| - i
  {
    if i == |s.steps| {
      kids := [];
    } else {
      var kid := Opened(s.steps[i]);
      var rest := OpenedAll(s, i + 1);
      kids := [kid] + rest;
      forall k | 0 <= k < |kids| ensures Settles(s.steps[i + k], kids[k]) {
        assert k > 0 ==> kids[k] == rest[k - 1] && s.steps[i + k] == s.steps[i + 1 + (k - 1)];
      }
    }
  }

  /** A process of the tree as a process of the settled one: they differ in the gates
      of the tree alone, and a pool's gate will not refuse what was let through. */
  ghost predicate Like(p: Proc, p': Proc)
    decreases p
  {
    match p
    case Running(_, _) => p' == p
    case Over(_) => p' == p
    case NewPipe(s, env) => p'.NewPipe? && p'.env == env && Settles(s, p'.step)
    case NewPool(s, env) => p'.NewPool? && p'.env == env && Settles(s, p'.step)
    case InPipe(s, env, i, kid, g) =>
      && p'.InPipe? && p'.env == env && p'.i == i && p'.gathered == g && Settles(s, p'.step)
      && (kid.Some? <==> p'.kid.Some?) && (kid.Some? ==> Like(kid.value, p'.kid.value))
    case InPool(s, env, ticket, refused, slots, results) =>
      && p'.InPool? && p'.env == env && p'.ticket == ticket && p'.refused == refused && p'.results == results
      && Settles(s, p'.step) && |p'.slots| == |slots|
      && (forall k | 0 <= k < |slots| ::
            if slots[k].Busy? then p'.slots[k].Busy? && Like(slots[k].proc, p'.slots[k].proc) else p'.slots[k] == slots[k])
      && (s.Parallel? && s.gate.Budget? && !refused && p'.step.gate.RefusesAt? ==>
            p'.step.gate.step >= |slots| + (if ticket then 1 else 0))
  }

  lemma FinishedLike(p: Proc, p': Proc)
    requires Finished(p)
    ensures Like(p, p') <==> p' == p
    ensures Valid(p) && GateFree(p)
  {
  }

  lemma LikeStart(s: Step, env: Env, db: bool, q: Proc) returns (t: Step)
    requires Like(Start(s, env, db), q)
    ensures Settles(s, t) && q == Start(t, env, db)
  {
    t := if s.Leaf? then s else q.step;
  }

  /* ---- only the steps still to come matter ---- */

  lemma {:induction false} PipelineAhead(s: Step, s': Step, i: nat, env: Env, db: bool, g: Gathered)
    requires s.Pipeline? && s'.Pipeline? && i <= |s.steps| == |s'.steps| && s.steps[i..] == s'.steps[i..]
    ensures PipelineFrom(s, i, env, db, g) == PipelineFrom(s', i, env, db, g)
    decreases |s.steps| - i
  {
    if i < |s.steps| {
      assert s.steps[i] == s.steps[i..][0] == s'.steps[i..][0] == s'.steps[i];
      assert s.steps[i + 1..] == s.steps[i..][1..] == s'.steps[i + 1..];
      PipelineAhead(s, s', i + 1, env, db, g.(skipped := g.skipped + 1));
      PipelineAhead(s, s', i + 1, env, db, Gather(g, i, Meaning(s.steps[i], env, db).results));
    }
  }

  lemma {:induction false} ParallelAhead(s: Step, s': Step, i: nat, env: Env, db: bool, refused: bool)
    requires s.Parallel? && s'.Parallel? && i <= |s.steps| == |s'.steps| && s.steps[i..] == s'.steps[i..]
    requires refused || s.gate == s'.gate
    ensures ParallelFrom(s, i, env, db, refused) == ParallelFrom(s', i, env, db, refused)
    decreases |s.steps| - i
  {
    if i < |s.steps| {
      assert s.steps[i] == s.steps[i..][0] == s'.steps[i..][0] == s'.steps[i];
      assert s.steps[i + 1..] == s.steps[i..][1..] == s'.steps[i + 1..];
      ParallelAhead(s, s', i + 1, env, db, refused || !Passes(s.gate, i));
    }
  }

  lemma {:induction false} SlotsAlike(slots: seq<Slot>, i: nat, j: nat, k: Proc, db: bool)
    requires ValidSlots(slots) && i <= |slots| && j < |slots| && slots[j].Busy?
    requires Valid(k) && Rest(k, db) == Rest(slots[j].proc, db)
    ensures ValidSlots(slots[j := Busy(k)]) && SlotsRest(slots[j := Busy(k)], i, db) == SlotsRest(slots, i, db)
    decreases |slots| - i
  {
    hide Valid, Rest;
    if i < |slots| { SlotsAlike(slots, i + 1, j, k, db); }
  }

  lemma LikeInFlight(p: Proc, p': Proc)
    requires p.InPool? && Like(p, p')
    ensures InFlight(p'.slots) == InFlight(p.slots)
  {
    SameFlight(p.slots, p'.slots);
  }

  lemma {:induction false} SameFlight(x: seq<Slot>, y: seq<Slot>)
    requires |x| == |y| && forall k | 0 <= k < |x| :: x[k].Free? <==> y[k].Free?
    ensures InFlight(x) == InFlight(y)
  {
    if x != [] { SameFlight(x[1..], y[1..]); }
  }

  lemma {:induction false} AllFree(slots: seq<Slot>)
    requires InFlight(slots) == 0
    ensures forall k | 0 <= k < |slots| :: slots[k].Free?
  {
    if slots != [] {
      AllFree(slots[1..]);
      assert forall k | 0 < k < |slots| :: slots[k] == slots[1..][k - 1];
    }
  }

  /* ---- one step back ---- */

  predicate Asking(p: Proc) {
    (p.NewPool? || (p.InPool? && !p.refused)) && p.step.Parallel? && p.step.gate.Budget?
  }

  predicate Capped(p: Proc, spent: real)
    requires Asking(p)
  {
    p.step.gate.cap.Some? && spent >= p.step.gate.cap.value
  }

  predicate WillRefuse(p': Proc) {
    (p'.NewPool? || p'.InPool?) && p'.step.Parallel? && p'.step.gate.RefusesAt?
  }

  /** An answer to refuse is either passed on to what comes later or given now that the cap is reached. */
  predicate Answers(p: Proc, spent: real, q: Proc, p': Proc, q': Proc) {
    Asking(p) && WillRefuse(p') ==>
      Capped(p, spent) || (Asking(q) && q.step.gate == p.step.gate && WillRefuse(q'))
  }

  /** p' is p settled, and its step leads where q' is. */
  ghost predicate LeadsTo(p: Proc, c: Choice, db: bool, spent: real, p': Proc, q': Proc)
    requires Next(p, c, db, spent).Some? && Valid(q')
  {
    && Like(p, p') && Valid(p') && GateFree(p') && Next(p', c, db, spent).Some?
    && Answers(p, spent, Next(p, c, db, spent).value.proc, p', q')
    && var m, m' := Next(p, c, db, spent).value, Next(p', c, db, spent).value;
       m'.events == m.events && Valid(m'.proc) && Rest(m'.proc, db) == Rest(q', db)
  }

  lemma BackPipe(p: Proc, db: bool, spent: real, q': Proc) returns (p': Proc)
    requires Shaped(p) && p.InPipe? && NextInPipe(p, Go, db, spent).Some?
    requires Like(NextInPipe(p, Go, db, spent).value.proc, q') && Valid(q') && GateFree(q')
    ensures LeadsTo(p, Go, db, spent, p', q')
  {
    var s, i, g := p.step, p.i, p.gathered;
    if p.kid.Some? {
      FinishedLike(p.kid.value, p.kid.value);
      p' := InPipe(q'.step, p.env, i, p.kid, g);
      SettledKids(s, q'.step);
      assert NextInPipe(p', Go, db, spent).value.proc == q';
    } else if i == |s.steps| {
      var s' := Opened(s);
      p' := InPipe(s', p.env, i, None, g);
      SettledKids(s, s');
    } else if g.firstError >= 0 {
      p' := InPipe(q'.step, p.env, i, None, g);
      SettledName(s.steps[i], q'.step.steps[i]);
      SettledKids(s, q'.step);
      assert NextInPipe(p', Go, db, spent).value.proc == q';
    } else {
      p' := BackStart(p, db, spent, q');
    }
  }

  lemma BackStart(p: Proc, db: bool, spent: real, q': Proc) returns (p': Proc)
    requires Shaped(p) && p.InPipe? && p.kid.None? && p.i < |p.step.steps| && p.gathered.firstError < 0
    requires Like(p.(kid := Some(Start(p.step.steps[p.i], p.env, db))), q') && Valid(q') && GateFree(q')
    ensures LeadsTo(p, Go, db, spent, p', q')
  {
    var s, i := p.step, p.i;
    var t := LikeStart(s.steps[i], p.env, db, q'.kid.value);
    var s' := Pipeline(q'.step.name, q'.step.steps[i := t], q'.step.env);
    p' := InPipe(s', p.env, i, None, p.gathered);
    assert Settles(s, s');
    SettledKids(s, s');
    SettledIsPositional(s.steps[i], t);
    StartMeans(t, p.env, db);
    assert s'.steps[i] == t && s'.steps[i + 1..] == q'.step.steps[i + 1..];
    var m := Rest(q'.kid.value, db);
    PipelineAhead(s', q'.step, i + 1, p.env, db, Gather(p.gathered, i, m.results));
  }

  lemma SettledName(s: Step, s': Step)
    requires Settles(s, s')
    ensures StepName(s') == StepName(s)
  {
  }

  lemma BackEnd(p: Proc, db: bool, spent: real, q': Proc) returns (p': Proc)
    requires Shaped(p) && p.InPool? && |p.slots| == |p.step.steps| && Dispatch(p, db, spent).Some?
    requires Like(Dispatch(p, db, spent).value.proc, q') && Valid(q')
    ensures LeadsTo(p, Go, db, spent, p', q')
  {
    var s' := Opened(p.step);
    AllFree(p.slots);
    SettledKids(p.step, s');
    p' := InPool(s', p.env, p.ticket, p.refused, p.slots, p.results);
  }

  lemma BackRefused(p: Proc, db: bool, spent: real, q': Proc) returns (p': Proc)
    requires Shaped(p) && p.InPool? && |p.slots| < |p.step.steps| && p.refused && Dispatch(p, db, spent).Some?
    requires Like(Dispatch(p, db, spent).value.proc, q') && Valid(q') && GateFree(q')
    ensures LeadsTo(p, Go, db, spent, p', q')
  {
    var n := |p.slots|;
    SettledName(p.step.steps[n], q'.step.steps[n]);
    p' := q'.(slots := q'.slots[..n], results := p.results);
    assert q'.slots == q'.slots[..n] + [Free];
    assert Dispatch(p', db, spent).value.proc == q';
  }

  // Of a pool's tree only the steps still to come and, before a refusal, the gate matter.
  lemma PoolAlike(q: Proc, s: Step, db: bool)
    requires q.InPool? && Valid(q) && s.Parallel? && |s.steps| == |q.step.steps|
    requires s.steps[|q.slots|..] == q.step.steps[|q.slots|..] && (q.refused || s.gate == q.step.gate)
    requires KidsPositional(s)
    ensures var r := InPool(s, q.env, q.ticket, q.refused, q.slots, q.results);
      Valid(r) && Rest(r, db) == Rest(q, db)
  {
    ParallelAhead(s, q.step, |q.slots|, q.env, db, q.refused);
  }

  function WithStep(s: Step, n: nat, t: Step): Step
    requires s.Parallel? && n < |s.steps|
  {
    Parallel(s.name, s.steps[n := t], s.env, s.workers, s.gate)
  }

  lemma SpawnLike(p: Proc, q: Proc, q': Proc, t: Step) returns (p': Proc)
    requires Shaped(p) && p.InPool? && |p.slots| < |p.step.steps| && p.ticket
    requires q.InPool? && q.step == p.step && q.env == p.env && !q.ticket && !q.refused && q.results == p.results
    requires |q.slots| == |p.slots| + 1 && q.slots[..|p.slots|] == p.slots && q.slots[|p.slots|].Busy?
    requires Like(q, q') && Valid(q') && GateFree(q') && Settles(p.step.steps[|p.slots|], t)
    ensures q'.InPool? && q'.step.Parallel? && |q'.step.steps| == |p.step.steps| && |q'.slots| == |q.slots|
    ensures p' == InPool(WithStep(q'.step, |p.slots|, t), p.env, true, false, q'.slots[..|p.slots|], p.results)
    ensures Like(p, p') && Valid(p') && GateFree(p')
  {
    var n, s' := |p.slots|, WithStep(q'.step, |p.slots|, t);
    p' := InPool(s', p.env, true, false, q'.slots[..n], p.results);
    assert Settles(p.step, s');
    SettledKids(p.step, s');
    assert forall k | 0 <= k < n :: q.slots[..n][k] == q.slots[k] == p.slots[k];
    assert forall k | k in p'.slots :: k in q'.slots;
  }

  lemma SpawnNext(s: Step, env: Env, slots: seq<Slot>, results: seq<Result>, db: bool, spent: real)
    requires s.Parallel? && |slots| < |s.steps| && InFlight(slots) < Width(s, env)
    ensures Next(InPool(s, env, true, false, slots, results), Go, db, spent)
         == Some(Move([], InPool(s, env, false, false, slots + [Busy(Start(s.steps[|slots|], env, db))], results)))
  {
  }

  lemma SpawnRoom(p: Proc, p': Proc, db: bool, spent: real)
    requires p.InPool? && Like(p, p') && p.step.Parallel? && |p.slots| < |p.step.steps| && p.ticket && !p.refused
    requires Dispatch(p, db, spent).Some?
    ensures InFlight(p'.slots) < Width(p'.step, p'.env)
  {
    LikeInFlight(p, p');
  }

  // What spawning comes to.
  lemma SpawnIs(p: Proc, db: bool, spent: real)
    requires Shaped(p) && p.InPool? && |p.slots| < |p.step.steps| && p.ticket && Dispatch(p, db, spent).Some?
    ensures !p.refused && p.step.Parallel?
    ensures var kid := Start(p.step.steps[|p.slots|], p.env, db);
      Next(p, Go, db, spent) == Dispatch(p, db, spent)
        == Some(Move([], InPool(p.step, p.env, false, false, p.slots + [Busy(kid)], p.results)))
  {
  }

  lemma AnswersOn(p: Proc, spent: real, q: Proc, p': Proc, q': Proc)
    requires p.InPool? && q.InPool? && q.step == p.step && !q.refused
    requires p'.InPool? && q'.InPool? && q'.step.Parallel? && p'.step.Parallel? && p'.step.gate == q'.step.gate
    ensures Answers(p, spent, q, p', q')
  {
  }

  lemma LikeFields(q: Proc, q': Proc)
    requires q.InPool? && Like(q, q')
    ensures q'.InPool? && q'.env == q.env && q'.ticket == q.ticket && q'.refused == q.refused && q'.results == q.results
    ensures |q'.slots| == |q.slots|
    ensures forall k | 0 <= k < |q.slots| && q.slots[k].Busy? :: q'.slots[k].Busy? && Like(q.slots[k].proc, q'.slots[k].proc)
  {
  }

  lemma BackSpawn(p: Proc, db: bool, spent: real, q': Proc) returns (p': Proc)
    requires Shaped(p) && p.InPool? && |p.slots| < |p.step.steps| && p.ticket && Dispatch(p, db, spent).Some?
    requires Like(Dispatch(p, db, spent).value.proc, q') && Valid(q') && GateFree(q')
    ensures LeadsTo(p, Go, db, spent, p', q')
  {
    hide *;
    var n, s := |p.slots|, p.step;
    SpawnIs(p, db, spent);
    var kid := Start(s.steps[n], p.env, db);
    var q := InPool(s, p.env, false, false, p.slots + [Busy(kid)], p.results);
    assert q.slots[n] == Busy(kid) && q.slots[..n] == p.slots;
    LikeFields(q, q');
    var t := LikeStart(s.steps[n], p.env, db, q'.slots[n].proc);
    p' := SpawnLike(p, q, q', t);
    SpawnRoom(p, p', db, spent);
    SpawnNext(p'.step, p.env, p'.slots, p.results, db, spent);
    SettledKidsOf(p');
    WithStepIs(q'.step, n, t);
    AnswersOn(p, spent, q, p', q');
    PoolAlike(q', p'.step, db);
    assert q'.slots == q'.slots[..n] + [Busy(Start(t, p.env, db))];
    Leads(p, Go, db, spent, p', q', InPool(p'.step, q'.env, q'.ticket, q'.refused, q'.slots, q'.results));
  }

  lemma WithStepIs(s: Step, n: nat, t: Step)
    requires s.Parallel? && n < |s.steps|
    ensures var s' := WithStep(s, n, t);
      && s'.Parallel? && |s'.steps| == |s.steps| && s'.steps[n] == t && s'.gate == s.gate
      && s'.steps[n + 1..] == s.steps[n + 1..]
  {
  }

  lemma Leads(p: Proc, c: Choice, db: bool, spent: real, p': Proc, q': Proc, r: Proc)
    requires Next(p, c, db, spent).Some? && Like(p, p') && Valid(p') && GateFree(p') && Valid(q')
    requires Next(p', c, db, spent) == Some(Move(Next(p, c, db, spent).value.events, r))
    requires Valid(r) && Rest(r, db) == Rest(q', db) && Answers(p, spent, Next(p, c, db, spent).value.proc, p', q')
    ensures LeadsTo(p, c, db, spent, p', q')
  {
  }

  lemma SettledKidsOf(p: Proc)
    requires p.InPool? && Valid(p)
    ensures KidsPositional(p.step)
  {
  }

  lemma BackAsk(p: Proc, db: bool, spent: real, q': Proc) returns (p': Proc)
    requires Shaped(p) && p.InPool? && |p.slots| < |p.step.steps| && !p.refused && !p.ticket && Dispatch(p, db, spent).Some?
    requires Like(Dispatch(p, db, spent).value.proc, q') && Valid(q') && GateFree(q')
    ensures LeadsTo(p, Go, db, spent, p', q')
  {
    var n := |p.slots|;
    SameFlight(p.slots, q'.slots);
    if LetsThrough(p.step.gate, n, spent) {
      p' := q'.(ticket := false);
      assert Dispatch(p', db, spent).value.proc == q';
    } else {
      var g := if p.step.gate.Budget? then RefusesAt(n) else p.step.gate;
      var u := q'.step;
      var s' := Parallel(u.name, u.steps, u.env, u.workers, g);
      assert Settles(p.step, s');
      SettledKids(p.step, s');
      p' := InPool(s', q'.env, q'.ticket, false, q'.slots, q'.results);
      assert Dispatch(p', db, spent).value.proc == InPool(s', q'.env, q'.ticket, true, q'.slots, q'.results);
      PoolAlike(q', s', db);
    }
  }

  lemma KidLike(p: Proc, i: nat, was: Proc, q': Proc, k: Proc)
    requires p.InPool? && i < |p.slots| && p.slots[i].Busy? && Like(p.(slots := p.slots[i := Busy(was)]), q')
    requires Valid(q') && GateFree(q') && Like(p.slots[i].proc, k) && Valid(k) && GateFree(k)
    ensures q'.InPool? && i < |q'.slots| && q'.slots[i].Busy?
    ensures var p' := q'.(slots := q'.slots[i := Busy(k)]); Like(p, p') && Valid(p') && GateFree(p')
  {
    assert forall j | 0 <= j < |p.slots| && j != i :: p.slots[i := Busy(was)][j] == p.slots[j];
  }

  lemma KidAlike(q: Proc, i: nat, k: Proc, db: bool)
    requires q.InPool? && Valid(q) && i < |q.slots| && q.slots[i].Busy? && Valid(q.slots[i].proc)
    requires Valid(k) && GateFree(k) && Rest(k, db) == Rest(q.slots[i].proc, db)
    ensures var r := q.(slots := q.slots[i := Busy(k)]); Valid(r) && Rest(r, db) == Rest(q, db)
  {
    SlotsAlike(q.slots, 0, i, k, db);
  }

  lemma KidPossible(p: Proc, i: nat, c: Choice, db: bool, spent: real)
    requires p.InPool? && i < |p.slots| && p.slots[i].Busy? && Next(p.slots[i].proc, c, db, spent).Some?
    ensures var m := Next(p.slots[i].proc, c, db, spent).value;
      Next(p, Kid(i, c), db, spent) == Some(Move(Lift(i, m.events), p.(slots := p.slots[i := Busy(m.proc)])))
  {
  }

  lemma Led(p: Proc, c: Choice, db: bool, spent: real, p': Proc, q': Proc)
    requires Next(p, c, db, spent).Some? && Valid(q') && LeadsTo(p, c, db, spent, p', q')
    ensures Like(p, p') && Valid(p') && GateFree(p') && Next(p', c, db, spent).Some?
    ensures Next(p', c, db, spent).value.events == Next(p, c, db, spent).value.events
    ensures var r := Next(p', c, db, spent).value.proc; Valid(r) && GateFree(r) && Rest(r, db) == Rest(q', db)
  {
    StepKeepsValid(p', c, db, spent);
  }

  lemma BackKid(p: Proc, i: nat, c: Choice, db: bool, spent: real, q': Proc, k: Proc) returns (p': Proc)
    requires Shaped(p) && p.InPool? && Next(p, Kid(i, c), db, spent).Some?
    requires Like(Next(p, Kid(i, c), db, spent).value.proc, q') && Valid(q') && GateFree(q')
    requires q'.InPool? && i < |q'.slots| && q'.slots[i].Busy? && Valid(q'.slots[i].proc)
    requires i < |p.slots| && p.slots[i].Busy? && Next(p.slots[i].proc, c, db, spent).Some?
    requires LeadsTo(p.slots[i].proc, c, db, spent, k, q'.slots[i].proc)
    ensures LeadsTo(p, Kid(i, c), db, spent, p', q')
  {
    hide *;
    KidPossible(p, i, c, db, spent);
    Led(p.slots[i].proc, c, db, spent, k, q'.slots[i].proc);
    var was, k' := Next(p.slots[i].proc, c, db, spent).value, Next(k, c, db, spent).value;
    KidLike(p, i, was.proc, q', k);
    p' := q'.(slots := q'.slots[i := Busy(k)]);
    KidAlike(q', i, k'.proc, db);
    KidPossible(p', i, c, db, spent);
    var r := q'.(slots := q'.slots[i := Busy(k'.proc)]);
    assert p'.slots[i := Busy(k'.proc)] == r.slots;
    SamePoolAnswers(p, spent, p.(slots := p.slots[i := Busy(was.proc)]), p', q');
    Leads(p, Kid(i, c), db, spent, p', q', r);
  }

  lemma SamePoolAnswers(p: Proc, spent: real, q: Proc, p': Proc, q': Proc)
    requires p.InPool? && q.InPool? && q.step == p.step && (q.refused ==> p.refused)
    requires p'.InPool? && q'.InPool? && q'.step == p'.step
    ensures Answers(p, spent, q, p', q')
  {
  }

  lemma BackCommit(p: Proc, i: nat, db: bool, spent: real, q': Proc) returns (p': Proc)
    requires Shaped(p) && p.InPool? && Next(p, Commit(i), db, spent).Some?
    requires Like(Next(p, Commit(i), db, spent).value.proc, q') && Valid(q') && GateFree(q')
    ensures LeadsTo(p, Commit(i), db, spent, p', q')
  {
    FinishedLike(p.slots[i].proc, p.slots[i].proc);
    p' := q'.(slots := q'.slots[i := p.slots[i]], results := p.results);
    assert p'.slots[i := Committed] == q'.slots;
    assert Next(p', Commit(i), db, spent).value.proc == q';
  }

  lemma BackRelease(p: Proc, i: nat, db: bool, spent: real, q': Proc) returns (p': Proc)
    requires Shaped(p) && p.InPool? && Next(p, Release(i), db, spent).Some?
    requires Like(Next(p, Release(i), db, spent).value.proc, q') && Valid(q') && GateFree(q')
    ensures LeadsTo(p, Release(i), db, spent, p', q')
  {
    p' := q'.(slots := q'.slots[i := Committed]);
    assert p'.slots[i := Free] == q'.slots;
    assert Next(p', Release(i), db, spent).value.proc == q';
  }

  lemma BackPipeKid(p: Proc, c: Choice, db: bool, spent: real, q': Proc, k: Proc) returns (p': Proc)
    requires Shaped(p) && p.InPipe? && c.Kid? && NextInPipe(p, c, db, spent).Some? && p.kid.Some?
    requires Like(NextInPipe(p, c, db, spent).value.proc, q') && Valid(q') && GateFree(q')
    requires q'.InPipe? && q'.kid.Some? && Valid(q'.kid.value) && Next(p.kid.value, c.choice, db, spent).Some?
    requires LeadsTo(p.kid.value, c.choice, db, spent, k, q'.kid.value)
    ensures LeadsTo(p, c, db, spent, p', q')
  {
    Led(p.kid.value, c.choice, db, spent, k, q'.kid.value);
    hide LeadsTo;
    p' := q'.(kid := Some(k));
    var r := q'.(kid := Some(Next(k, c.choice, db, spent).value.proc));
    assert Valid(r) && Rest(r, db) == Rest(q', db);
    assert Like(p, p') && Valid(p');
    hide Like, Shaped, Rest, Valid;
    Leads(p, c, db, spent, p', q', r);
  }

  lemma BackFirst(p: Proc, db: bool, spent: real, q': Proc) returns (p': Proc)
    requires Shaped(p) && (p.Running? || p.NewPipe? || p.NewPool?) && Next(p, Go, db, spent).Some?
    requires Like(Next(p, Go, db, spent).value.proc, q') && Valid(q') && GateFree(q')
    ensures LeadsTo(p, Go, db, spent, p', q')
  {
    match p
    case Running(_, _) => p' := p;
    case NewPipe(s, env) => p' := NewPipe(q'.step, env);
    case NewPool(s, env) => p' := NewPool(q'.step, env);
  }

  lemma {:induction false} StepBack(p: Proc, c: Choice, db: bool, spent: real, q': Proc) returns (p': Proc)
    requires Shaped(p) && Next(p, c, db, spent).Some?
    requires Like(Next(p, c, db, spent).value.proc, q') && Valid(q') && GateFree(q')
    ensures LeadsTo(p, c, db, spent, p', q')
    decreases c
  {
    if p.InPool? {
      match c
      case Go =>
        if |p.slots| == |p.step.steps| { p' := BackEnd(p, db, spent, q'); }
        else if p.refused { p' := BackRefused(p, db, spent, q'); }
        else if p.ticket { p' := BackSpawn(p, db, spent, q'); }
        else { p' := BackAsk(p, db, spent, q'); }
      case Kid(i, c') =>
        assert q'.slots[i].Busy? && Valid(q'.slots[i].proc);
        var k := StepBack(p.slots[i].proc, c', db, spent, q'.slots[i].proc);
        p' := BackKid(p, i, c', db, spent, q', k);
      case Commit(i) => p' := BackCommit(p, i, db, spent, q');
      case Release(i) => p' := BackRelease(p, i, db, spent, q');
    } else if p.InPipe? {
      if c.Kid? {
        var k := StepBack(p.kid.value, c.choice, db, spent, q'.kid.value);
        p' := BackPipeKid(p, c, db, spent, q', k);
      } else {
        p' := BackPipe(p, db, spent, q');
      }
    } else {
      p' := BackFirst(p, db, spent, q');
    }
  }

  /* ---- whole runs ---- */

  lemma {:induction false} RunBack(p: Proc, cs: seq<Choice>, db: bool, spent: real) returns (p': Proc)
    requires Shaped(p) && Finished(RunOf(p, cs, db, spent).proc)
    ensures Like(p, p') && Valid(p') && GateFree(p')
    ensures var r := RunOf(p, cs, db, spent); Valid(r.proc) && Splits(Rest(p', db), r.trace, Rest(r.proc, db))
    ensures Asking(p) && WillRefuse(p') ==> Capped(p, spent + Cost(RunOf(p, cs, db, spent).trace))
    decreases cs
  {
    hide Next, Like, Shaped, Valid, Rest, Splits, Cost;
    if cs == [] || Next(p, cs[0], db, spent).None? {
      FinishedLike(p, p);
      p' := p;
      SplitsNothing(Rest(p, db), Rest(p, db));
    } else {
      var m := Next(p, cs[0], db, spent).value;
      StepKeepsShaped(p, cs[0], db, spent);
      var q' := RunBack(m.proc, cs[1..], db, spent + Cost(m.events));
      p' := StepBack(p, cs[0], db, spent, q');
      EveryStepSplits(p', cs[0], db, spent);
      var r := RunOf(m.proc, cs[1..], db, spent + Cost(m.events));
      SplitsTrans(Rest(p', db), m.events, Rest(q', db), r.trace, Rest(r.proc, db));
      CostConcat(m.events, r.trace);
    }
  }

  /** Whatever the gates ask, every finished run on every schedule is the run of the
      tree whose budget gates were answered beforehand in some way; if a pool's gate is
      answered with a refusal, the cap was reached by the end. */
  lemma EveryRunSettles(s: Step, env: Env, db: bool, cs: seq<Choice>, spent: real) returns (s': Step)
    requires Finished(RunOf(Start(s, env, db), cs, db, spent).proc)
    ensures Settles(s, s') && Positional(s')
    ensures var r := RunOf(Start(s, env, db), cs, db, spent);
      && Agree(Meaning(s', env, db), Outcome(r.trace, Results(r.proc)))
      && (s.Parallel? && s.gate.Budget? && s'.Parallel? && s'.gate.RefusesAt? ==>
            s.gate.cap.Some? && spent + Cost(r.trace) >= s.gate.cap.value)
  {
    hide *;
    StartShaped(s, env, db);
    var r := RunOf(Start(s, env, db), cs, db, spent);
    var p' := RunBack(Start(s, env, db), cs, db, spent);
    s' := LikeStart(s, env, db, p');
    SettledIsPositional(s, s');
    StartMeans(s', env, db);
    StartAsks(s, s', env, db, spent + Cost(r.trace));
    FinishedAgrees(Meaning(s', env, db), r, db);
  }

  lemma StartAsks(s: Step, s': Step, env: Env, db: bool, total: real)
    requires Asking(Start(s, env, db)) && WillRefuse(Start(s', env, db)) ==> Capped(Start(s, env, db), total)
    ensures s.Parallel? && s.gate.Budget? && s'.Parallel? && s'.gate.RefusesAt? ==>
              s.gate.cap.Some? && total >= s.gate.cap.value
  {
  }

  lemma FinishedAgrees(whole: Outcome, r: Run, db: bool)
    requires Finished(r.proc) && Valid(r.proc) && Splits(whole, r.trace, Rest(r.proc, db))
    ensures Agree(whole, Outcome(r.trace, Results(r.proc)))
  {
    FinishedRest(r.proc, db);
    assert r.trace + [] == r.trace;
  }
}
