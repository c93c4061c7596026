/** The comment at cmd/table.go:942-945 has a batch overshoot its cap by `workers`
    runs at most. Exactly when that is so. */
module FlowCap {
  import opened Common
  import opened FlowBundle
  import opened FlowMeaning
  import opened FlowMachine
  import opened FlowRefinement
  import opened FlowProtocol
  import opened FlowSettling
  import opened FlowLaws
  import opened FlowBudget

  /* ---- no run costs more than all its steps ---- */

  /** What the steps from the i-th on come to. */
  function StepsCost(s: Step, i: nat, env: Env, db: bool): Usd
    requires !s.Leaf? && i <= |s.steps|
    decreases |s.steps| - i
  {
    if i == |s.steps| then 0.0 else Cost(Meaning(s.steps[i], env, db).trace) + StepsCost(s, i + 1, env, db)
  }

  lemma CostOfOne(w: What)
    ensures Cost([Event([], w)]) == if w.RowCommitted? then w.cost else 0.0
    ensures Cost([]) == 0.0
  {
    assert [Event([], w)][1..] == [];
  }

  lemma {:induction false} ParallelCost(s: Step, i: nat, env: Env, db: bool, refused: bool)
    requires s.Parallel? && i <= |s.steps|
    ensures Cost(ParallelFrom(s, i, env, db, refused).trace) <= StepsCost(s, i, env, db)
    decreases |s.steps| - i
  {
    hide Meaning, Cost;
    CostOfOne(AgentExecStart);
    if i < |s.steps| {
      ParallelCost(s, i + 1, env, db, true);
      ParallelCost(s, i + 1, env, db, false);
      var m := Meaning(s.steps[i], env, db);
      CostLift(i, m.trace);
      CostConcat(Lift(i, m.trace), ParallelFrom(s, i + 1, env, db, false).trace);
    }
  }

  lemma MeaningCost(s: Step, env: Env, db: bool)
    requires s.Parallel?
    ensures Cost(Meaning(s, env, db).trace) <= StepsCost(s, 0, Bind(s.env, env), db)
  {
    hide Meaning, Cost, ParallelFrom, StepsCost;
    var e := Bind(s.env, env);
    var rest := ParallelFrom(s, 0, e, db, false);
    var start, end := StageStart(StageParallel, s.name, |s.steps|), StageEnd(Tally(rest.results, 0, -1));
    ParallelMeaning(s, env, db);
    ParallelCost(s, 0, e, db, false);
    CostOfOne(start);
    CostOfOne(end);
    CostConcat(rest.trace, [Event([], end)]);
    CostConcat([Event([], start)], rest.trace + [Event([], end)]);
  }

  lemma {:induction false} PositionalSettles(s: Step, s': Step)
    requires Positional(s) && Settles(s, s')
    ensures s' == s
    decreases s
  {
    if !s.Leaf? {
      forall i | 0 <= i < |s.steps| ensures s'.steps[i] == s.steps[i] {
        assert s.steps[i] in s.steps;
        PositionalSettles(s.steps[i], s'.steps[i]);
      }
      assert s'.steps == s.steps;
    }
  }

  lemma SettledCost(s: Step, s': Step, env: Env, db: bool)
    requires s.Parallel? && KidsPositional(s) && Settles(s, s')
    ensures s'.Parallel? && s'.steps == s.steps && s'.env == s.env
    ensures StepsCost(s', 0, env, db) == StepsCost(s, 0, env, db)
  {
    forall i | 0 <= i < |s.steps| ensures s'.steps[i] == s.steps[i] {
      assert s.steps[i] in s.steps;
      PositionalSettles(s.steps[i], s'.steps[i]);
    }
    SameCost(s, s', 0, env, db);
  }

  lemma {:induction false} SameCost(s: Step, s': Step, i: nat, env: Env, db: bool)
    requires !s.Leaf? && !s'.Leaf? && s'.steps == s.steps && i <= |s.steps|
    ensures StepsCost(s', i, env, db) == StepsCost(s, i, env, db)
    decreases |s.steps| - i
  {
    if i < |s.steps| { SameCost(s, s', i + 1, env, db); }
  }

  /** The picks of a schedule up to the first impossible one. */
  lemma {:induction false} PossiblePart(p: Proc, cs: seq<Choice>, db: bool, spent: real) returns (ds: seq<Choice>)
    ensures Possible(p, ds, db, spent) && RunOf(p, ds, db, spent) == RunOf(p, cs, db, spent)
    decreases cs
  {
    hide Next, Cost;
    if cs == [] || Next(p, cs[0], db, spent).None? {
      ds := [];
    } else {
      var m := Next(p, cs[0], db, spent).value;
      var rest := PossiblePart(m.proc, cs[1..], db, spent + Cost(m.events));
      ds := [cs[0]] + rest;
      assert ds[0] == cs[0] && ds[1..] == rest;
      hide RunOf, Possible;
      RunUnfolds(p, cs, m, db, spent);
      RunUnfolds(p, ds, m, db, spent);
    }
  }

  lemma RunUnfolds(p: Proc, cs: seq<Choice>, m: Move, db: bool, spent: real)
    requires cs != [] && Next(p, cs[0], db, spent) == Some(m)
    ensures var r := RunOf(m.proc, cs[1..], db, spent + Cost(m.events));
      RunOf(p, cs, db, spent) == Run(m.events + r.trace, r.proc)
    ensures Possible(p, cs, db, spent) <==> Possible(m.proc, cs[1..], db, spent + Cost(m.events))
  {
    hide Next, Cost;
  }

  lemma Regroup(x: seq<Event>, y: seq<Event>, z: seq<Event>)
    ensures x + (y + z) == (x + y) + z && Cost(x + y) == Cost(x) + Cost(y)
  {
    CostConcat(x, y);
  }

  lemma RunFromNothing(p: Proc, b: seq<Choice>, db: bool, spent: real)
    ensures var x := RunOf(p, [], db, spent); var y := RunOf(x.proc, b, db, spent + Cost(x.trace));
      RunOf(p, [] + b, db, spent) == Run(x.trace + y.trace, y.proc)
  {
    assert RunOf(p, [], db, spent) == Run([], p);
    CostOfOne(AgentExecStart);
    hide *;
    var y := RunOf(p, b, db, spent);
    assert [] + b == b;
    assert [] + y.trace == y.trace;
  }

  lemma FirstPossible(p: Proc, cs: seq<Choice>, db: bool, spent: real)
    requires Possible(p, cs, db, spent) && cs != []
    ensures Next(p, cs[0], db, spent).Some?
  {
    hide Next;
  }

  lemma {:induction false} RunConcat(p: Proc, a: seq<Choice>, b: seq<Choice>, db: bool, spent: real)
    requires Possible(p, a, db, spent)
    ensures var x := RunOf(p, a, db, spent); var y := RunOf(x.proc, b, db, spent + Cost(x.trace));
      RunOf(p, a + b, db, spent) == Run(x.trace + y.trace, y.proc)
    decreases a
  {
    hide *;
    if a == [] {
      RunFromNothing(p, b, db, spent);
    } else {
      assert (a + b)[0] == a[0] && (a + b)[1..] == a[1..] + b;
      FirstPossible(p, a, db, spent);
      var m := Next(p, a[0], db, spent).value;
      RunUnfolds(p, a, m, db, spent);
      RunUnfolds(p, a + b, m, db, spent);
      var spent' := spent + Cost(m.events);
      RunConcat(m.proc, a[1..], b, db, spent');
      var x := RunOf(m.proc, a[1..], db, spent');
      var y := RunOf(x.proc, b, db, spent' + Cost(x.trace));
      Regroup(m.events, x.trace, y.trace);
      assert spent' + Cost(x.trace) == spent + Cost(m.events + x.trace);
    }
  }

  lemma {:induction false} PossibleConcat(p: Proc, a: seq<Choice>, b: seq<Choice>, db: bool, spent: real)
    requires Possible(p, a, db, spent)
    requires var x := RunOf(p, a, db, spent); Possible(x.proc, b, db, spent + Cost(x.trace))
    ensures Possible(p, a + b, db, spent)
    decreases a
  {
    hide *;
    if a == [] {
      RunNothing(p, db, spent);
      assert a + b == b;
    } else {
      assert (a + b)[0] == a[0] && (a + b)[1..] == a[1..] + b;
      FirstPossible(p, a, db, spent);
      var m := Next(p, a[0], db, spent).value;
      RunUnfolds(p, a, m, db, spent);
      RunUnfolds(p, a + b, m, db, spent);
      var spent' := spent + Cost(m.events);
      var x := RunOf(m.proc, a[1..], db, spent');
      CostConcat(m.events, x.trace);
      assert spent' + Cost(x.trace) == spent + Cost(m.events + x.trace);
      PossibleConcat(m.proc, a[1..], b, db, spent');
    }
  }

  lemma RunNothing(p: Proc, db: bool, spent: real)
    ensures RunOf(p, [], db, spent) == Run([], p) && Cost([]) == 0.0
  {
  }

  /** At any point of any run of a pool, no more is committed than its steps come to. */
  lemma RunCostsAtMost(s: Step, env: Env, db: bool, cs: seq<Choice>, spent: real)
    requires s.Parallel? && KidsPositional(s)
    ensures Cost(RunOf(Start(s, env, db), cs, db, spent).trace) <= StepsCost(s, 0, Bind(s.env, env), db)
  {
    hide *;
    var p := Start(s, env, db);
    StartShaped(s, env, db);
    var ds := PossiblePart(p, cs, db, spent);
    RunsEnd(p, ds, db, spent);
    var r := RunOf(p, ds, db, spent);
    var more := CanFinish(r.proc, db, spent + Cost(r.trace));
    var tail := RunOf(r.proc, more, db, spent + Cost(r.trace));
    RunConcat(p, ds, more, db, spent);
    CostConcat(r.trace, tail.trace);
    var s' := EveryRunSettles(s, env, db, ds + more, spent);
    SettledCost(s, s', Bind(s.env, env), db);
    MeaningCost(s', env, db);
    AgreeCosts(Meaning(s', env, db), Outcome(r.trace + tail.trace, Results(tail.proc)));
  }

  lemma AgreeCosts(x: Outcome, y: Outcome)
    requires Agree(x, y)
    ensures Cost(x.trace) == Cost(y.trace)
  {
  }

  /** The bound of `workers` runs holds whenever all the steps together stay below it. */
  lemma WorkersBoundHolds(s: Step, env: Env, db: bool, cs: seq<Choice>, before: real, cap: real, c: real)
    requires s.Parallel? && KidsPositional(s)
    requires before + StepsCost(s, 0, Bind(s.env, env), db) < cap + Dues(Width(s, Bind(s.env, env)), c)
    ensures before + Cost(RunOf(Start(s, env, db), cs, db, before).trace) < cap + Dues(Width(s, Bind(s.env, env)), c)
  {
    RunCostsAtMost(s, env, db, cs, before);
  }

  /** A pool that runs its steps one at a time always keeps it, if it starts below the cap. */
  lemma SequentialKeepsBound(s: Step, env: Env, db: bool, cs: seq<Choice>, before: real, cap: real, c: real)
    requires s.Parallel? && Gated(s, Bind(s.env, env), db, cap, c) && c > 0.0 && before < cap
    requires Sequential(s, Bind(s.env, env))
    ensures before + Cost(RunOf(Start(s, env, db), cs, db, before).trace) < cap + Dues(Width(s, Bind(s.env, env)), c)
  {
    hide RunOf, Start, Cost, Meaning, Gated, Dues;
    SpendsBelowBound(s, env, db, cs, before, cap, c);
    NoDues(c);
    OneMore(0, c);
    assert Slack(s, Bind(s.env, env)) == 1 == Width(s, Bind(s.env, env)) && Dues(1, c) == c;
    assert Bound(s, Bind(s.env, env), cap, c) == cap + 1 as real * c;
  }

  /* ---- a schedule that spends as much as it can ---- */

  ghost predicate Reaches(p: Proc, cs: seq<Choice>, db: bool, spent: real, q: Proc, paid: real) {
    Possible(p, cs, db, spent) && RunOf(p, cs, db, spent).proc == q && Cost(RunOf(p, cs, db, spent).trace) == paid
  }

  lemma Stays(p: Proc, db: bool, spent: real)
    ensures Reaches(p, [], db, spent, p, 0.0)
  {
  }

  lemma OneStep(p: Proc, c: Choice, db: bool, spent: real)
    requires Next(p, c, db, spent).Some?
    ensures var m := Next(p, c, db, spent).value; Reaches(p, [c], db, spent, m.proc, Cost(m.events))
  {
    hide Next, Cost;
    var m := Next(p, c, db, spent).value;
    assert [c][1..] == [] && m.events + [] == m.events;
    assert RunOf(m.proc, [], db, spent + Cost(m.events)) == Run([], m.proc);
    RunUnfolds(p, [c], m, db, spent);
  }

  lemma ThenReaches(p: Proc, a: seq<Choice>, q: Proc, x: real, b: seq<Choice>, r: Proc, y: real, db: bool, spent: real)
    requires Reaches(p, a, db, spent, q, x) && Reaches(q, b, db, spent + x, r, y)
    ensures Reaches(p, a + b, db, spent, r, x + y)
  {
    hide RunOf, Possible, Cost;
    RunConcat(p, a, b, db, spent);
    PossibleConcat(p, a, b, db, spent);
    CostConcat(RunOf(p, a, db, spent).trace, RunOf(q, b, db, spent + x).trace);
  }

  /** A dispatched step can run to its end before anything else happens. */
  lemma {:induction false} KidFinishes(p: Proc, i: nat, db: bool, spent: real) returns (cs: seq<Choice>, k: Proc)
    requires p.InPool? && i < |p.slots| && p.slots[i].Busy?
    requires Valid(p.slots[i].proc) && GateFree(p.slots[i].proc) && Shaped(p.slots[i].proc)
    ensures Finished(k)
    ensures Reaches(p, cs, db, spent, p.(slots := p.slots[i := Busy(k)]), SlotLeft(p.slots[i], db))
    decreases Work(p.slots[i].proc, db)
  {
    hide Next, Reaches, Work, Valid, Shaped, SlotLeft, GateFree;
    var was := p.slots[i].proc;
    if Finished(was) {
      cs, k := [], was;
      assert p.slots[i := Busy(k)] == p.slots;
      FinishedPays(was, db);
      Stays(p, db, spent);
    } else {
      var c := NeverStuck(was, db, spent);
      var m := Next(was, c, db, spent).value;
      StepWorks(was, c, db, spent);
      StepKeepsValid(was, c, db, spent);
      KidPays(was, c, db, spent);
      KidPossible(p, i, c, db, spent);
      OneStep(p, Kid(i, c), db, spent);
      CostLift(i, m.events);
      var p' := p.(slots := p.slots[i := Busy(m.proc)]);
      var rest, k' := KidFinishes(p', i, db, spent + Cost(m.events));
      cs, k := [Kid(i, c)] + rest, k';
      assert p'.slots[i := Busy(k)] == p.slots[i := Busy(k)];
      ThenReaches(p, [Kid(i, c)], p', Cost(m.events), rest, p.(slots := p.slots[i := Busy(k)]), SlotLeft(Busy(m.proc), db),
                  db, spent);
    }
  }

  lemma FinishedPays(k: Proc, db: bool)
    requires Finished(k)
    ensures Valid(k) && SlotLeft(Busy(k), db) == 0.0
  {
    FinishedRest(k, db);
  }

  /** A pool whose next gate is a cap, with steps that cost c each. */
  ghost predicate Priced(s: Step, env: Env, db: bool, cap: real, c: real) {
    && s.Parallel? && s.gate == Budget(Some(cap)) && KidsPositional(s) && c > 0.0
    && forall k | k in s.steps :: Cost(Meaning(k, env, db).trace) == c
  }

  lemma PricedStart(s: Step, env: Env, db: bool, cap: real, c: real, j: nat)
    requires Priced(s, env, db, cap, c) && j < |s.steps|
    ensures var k := Start(s.steps[j], env, db);
      Valid(k) && GateFree(k) && Shaped(k) && SlotLeft(Busy(k), db) == c
  {
    assert s.steps[j] in s.steps;
    StartMeans(s.steps[j], env, db);
    StartShaped(s.steps[j], env, db);
  }

  /** j steps were dispatched; the last `workers` of them have not done anything yet, the earlier ones are done. */
  ghost predicate Staged(p: Proc, s: Step, env: Env, db: bool, j: nat)
    requires s.Parallel?
  {
    && j <= |s.steps| && p.InPool? && p.step == s && p.env == env && !p.ticket && !p.refused && |p.slots| == j
    && forall k | 0 <= k < j :: p.slots[k] == if k + Width(s, env) < j then Free else Busy(Start(s.steps[k], env, db))
  }

  lemma {:induction false} FlightFrom(slots: seq<Slot>, a: nat)
    requires a <= |slots| && forall k | 0 <= k < |slots| :: slots[k].Free? <==> k < a
    ensures InFlight(slots) == |slots| - a
  {
    if slots != [] {
      FlightFrom(slots[1..], if a == 0 then 0 else a - 1);
    }
  }

  lemma StagedFlight(p: Proc, s: Step, env: Env, db: bool, j: nat)
    requires s.Parallel? && Staged(p, s, env, db, j)
    ensures InFlight(p.slots) == if j < Width(s, env) then j else Width(s, env)
  {
    FlightFrom(p.slots, if j < Width(s, env) then 0 else j - Width(s, env));
  }

  lemma AskNext(p: Proc, s: Step, env: Env, cap: real, db: bool, spent: real)
    requires p.InPool? && p.step == s && p.env == env && !p.ticket && !p.refused
    requires s.Parallel? && |p.slots| < |s.steps| && s.gate == Budget(Some(cap)) && spent < cap && !Sequential(s, env)
    ensures Next(p, Go, db, spent) == Some(Move([], InPool(s, env, true, false, p.slots, p.results)))
  {
  }

  lemma HandNext(p: Proc, i: nat, db: bool, spent: real)
    requires p.InPool? && i < |p.slots|
    ensures p.slots[i].Busy? && Finished(p.slots[i].proc) ==> Next(p, Commit(i), db, spent) == Some(Move([], InPool(p.step,
              p.env, p.ticket, p.refused, p.slots[i := Committed], p.results + Results(p.slots[i].proc))))
    ensures p.slots[i].Committed? ==> Next(p, Release(i), db, spent) == Some(Move([], InPool(p.step, p.env, p.ticket,
              p.refused, p.slots[i := Free], p.results)))
  {
  }

  lemma {:induction false} FreedOne(slots: seq<Slot>, i: nat)
    requires i < |slots| && !slots[i].Free?
    ensures InFlight(slots[i := Free]) + 1 == InFlight(slots)
  {
    InFlightUpdate(slots, i, Free);
  }

  /** The oldest step in flight finishes, is committed, and frees its slot. */
  lemma OldestEnds(p: Proc, i: nat, db: bool, spent: real) returns (cs: seq<Choice>, q: Proc)
    requires p.InPool? && i < |p.slots| && p.slots[i].Busy?
    requires Valid(p.slots[i].proc) && GateFree(p.slots[i].proc) && Shaped(p.slots[i].proc)
    ensures q.InPool? && q == InPool(p.step, p.env, p.ticket, p.refused, p.slots[i := Free], q.results)
    ensures Reaches(p, cs, db, spent, q, SlotLeft(p.slots[i], db))
  {
    hide *;
    var a, k := KidFinishes(p, i, db, spent);
    var paid := SlotLeft(p.slots[i], db);
    var p1 := p.(slots := p.slots[i := Busy(k)]);
    HandNext(p1, i, db, spent + paid);
    OneStep(p1, Commit(i), db, spent + paid);
    var p2 := InPool(p.step, p.env, p.ticket, p.refused, p1.slots[i := Committed], p.results + Results(k));
    HandNext(p2, i, db, spent + paid);
    OneStep(p2, Release(i), db, spent + paid);
    q := InPool(p.step, p.env, p.ticket, p.refused, p2.slots[i := Free], p2.results);
    CostOfOne(AgentExecStart);
    ThenReaches(p1, [Commit(i)], p2, 0.0, [Release(i)], q, 0.0, db, spent + paid);
    ThenReaches(p, a, p1, paid, [Commit(i)] + [Release(i)], q, 0.0, db, spent);
    cs := a + ([Commit(i)] + [Release(i)]);
    assert q.slots == p.slots[i := Free];
  }

  lemma StagedMore(slots: seq<Slot>, s: Step, env: Env, db: bool, j: nat, results: seq<Result>)
    requires s.Parallel? && j < |s.steps| && |slots| == j
    requires forall k | 0 <= k < j ::
               slots[k] == if k + Width(s, env) < j + 1 then Free else Busy(Start(s.steps[k], env, db))
    requires Width(s, env) > 0
    ensures Staged(InPool(s, env, false, false, slots + [Busy(Start(s.steps[j], env, db))], results), s, env, db, j + 1)
  {
    hide Start, Width;
  }

  // The gate lets the next step through and there is room.
  lemma EarlyStage(p: Proc, s: Step, env: Env, db: bool, j: nat, spent: real, cap: real)
    returns (cs: seq<Choice>, q: Proc)
    requires s.Parallel? && s.gate == Budget(Some(cap)) && Staged(p, s, env, db, j) && j < |s.steps| && spent < cap
    requires !Sequential(s, env) && j < Width(s, env)
    ensures Staged(q, s, env, db, j + 1) && Reaches(p, cs, db, spent, q, 0.0)
  {
    hide Start, Reaches, Next, Cost, Width, Sequential;
    StagedFlight(p, s, env, db, j);
    AskNext(p, s, env, cap, db, spent);
    var p1 := InPool(s, env, true, false, p.slots, p.results);
    OneStep(p, Go, db, spent);
    SpawnNext(s, env, p1.slots, p1.results, db, spent);
    q := InPool(s, env, false, false, p1.slots + [Busy(Start(s.steps[j], env, db))], p1.results);
    OneStep(p1, Go, db, spent);
    CostOfOne(AgentExecStart);
    ThenReaches(p, [Go], p1, 0.0, [Go], q, 0.0, db, spent);
    cs := [Go] + [Go];
    StagedMore(p.slots, s, env, db, j, p.results);
  }

  // The gate lets the next step through; then the oldest in flight makes room for it.
  lemma LateStage(p: Proc, s: Step, env: Env, db: bool, j: nat, spent: real, cap: real, c: real)
    returns (cs: seq<Choice>, q: Proc)
    requires Priced(s, env, db, cap, c) && Staged(p, s, env, db, j) && j < |s.steps| && spent < cap
    requires !Sequential(s, env) && 0 < Width(s, env) <= j
    ensures Staged(q, s, env, db, j + 1) && Reaches(p, cs, db, spent, q, c)
  {
    hide Start, Reaches, Next, Cost, Width, Sequential, Valid, Shaped, GateFree, SlotLeft, Meaning, KidsPositional;
    var i := j - Width(s, env);
    StagedFlight(p, s, env, db, j);
    AskNext(p, s, env, cap, db, spent);
    var p1 := InPool(s, env, true, false, p.slots, p.results);
    OneStep(p, Go, db, spent);
    PricedStart(s, env, db, cap, c, i);
    assert p1.slots[i] == Busy(Start(s.steps[i], env, db));
    hide Priced;
    var a, p2 := OldestEnds(p1, i, db, spent);
    FreedOne(p.slots, i);
    SpawnNext(s, env, p2.slots, p2.results, db, spent + c);
    q := InPool(s, env, false, false, p2.slots + [Busy(Start(s.steps[j], env, db))], p2.results);
    OneStep(p2, Go, db, spent + c);
    CostOfOne(AgentExecStart);
    ThenReaches(p1, a, p2, c, [Go], q, 0.0, db, spent);
    ThenReaches(p, [Go], p1, 0.0, a + [Go], q, c, db, spent);
    cs := [Go] + (a + [Go]);
    StagedMore(p2.slots, s, env, db, j, p2.results);
  }

  /** Before room is made for the next step, the gate has let it through. */
  lemma NextStage(p: Proc, s: Step, env: Env, db: bool, j: nat, spent: real, cap: real, c: real)
    returns (cs: seq<Choice>, q: Proc)
    requires Priced(s, env, db, cap, c) && Staged(p, s, env, db, j) && j < |s.steps| && spent < cap && !Sequential(s, env)
    requires Width(s, env) > 0
    ensures Staged(q, s, env, db, j + 1)
    ensures Reaches(p, cs, db, spent, q, if j < Width(s, env) then 0.0 else c)
  {
    hide Staged, Reaches, Meaning, Cost;
    if j < Width(s, env) {
      cs, q := EarlyStage(p, s, env, db, j, spent, cap);
    } else {
      cs, q := LateStage(p, s, env, db, j, spent, cap, c);
    }
  }

  /** How many of j dispatched steps have been paid for. */
  function Paid(j: nat, w: nat): nat { if j > w then j - w else 0 }

  /** As many steps as the gate will let through. */
  lemma {:induction false} Fill(s: Step, env: Env, db: bool, j: nat, before: real, cap: real, c: real)
    returns (cs: seq<Choice>, q: Proc)
    requires s.Parallel? && Priced(s, env, db, cap, c) && !Sequential(s, env) && Width(s, env) > 0 && j <= |s.steps|
    requires j > 0 ==> before + Dues(Paid(j - 1, Width(s, env)), c) < cap
    ensures Staged(q, s, env, db, j)
    ensures Reaches(InPool(s, env, false, false, [], []), cs, db, before, q, Dues(Paid(j, Width(s, env)), c))
  {
    hide Priced, Reaches, Dues, Staged, Width, Sequential, RunOf, Start, Cost, Meaning, Possible, Next;
    var p0, w := InPool(s, env, false, false, [], []), Width(s, env);
    if j == 0 {
      cs, q := [], p0;
      StartStaged(s, env, db);
      NoDues(c);
      Stays(p0, db, before);
    } else {
      PricedPositive(s, env, db, cap, c);
      DuesGrow(if j > 1 then Paid(j - 2, w) else 0, Paid(j - 1, w), c);
      var a, p := Fill(s, env, db, j - 1, before, cap, c);
      var b, q' := NextStage(p, s, env, db, j - 1, before + Dues(Paid(j - 1, w), c), cap, c);
      cs, q := a + b, q';
      OneMore(Paid(j - 1, w), c);
      ThenReaches(p0, a, p, Dues(Paid(j - 1, w), c), b, q, if j - 1 < w then 0.0 else c, db, before);
    }
  }

  lemma StartStaged(s: Step, env: Env, db: bool)
    requires s.Parallel?
    ensures Staged(InPool(s, env, false, false, [], []), s, env, db, 0)
  {
  }

  lemma PricedPositive(s: Step, env: Env, db: bool, cap: real, c: real)
    requires Priced(s, env, db, cap, c)
    ensures c > 0.0
  {
  }

  /** Every step in flight runs to its end. */
  lemma {:induction false} Drain(p: Proc, s: Step, env: Env, db: bool, i: nat, spent: real, cap: real, c: real)
    returns (cs: seq<Choice>, q: Proc)
    requires Priced(s, env, db, cap, c) && p.InPool? && i <= |p.slots| <= |s.steps|
    requires forall k | i <= k < |p.slots| :: p.slots[k] == Busy(Start(s.steps[k], env, db))
    ensures Reaches(p, cs, db, spent, q, Dues(|p.slots| - i, c))
    decreases |p.slots| - i
  {
    hide Priced, Reaches, Dues, Start, SlotLeft;
    if i == |p.slots| {
      cs, q := [], p;
      NoDues(c);
      Stays(p, db, spent);
    } else {
      PricedStart(s, env, db, cap, c, i);
      var a, k := KidFinishes(p, i, db, spent);
      var p' := p.(slots := p.slots[i := Busy(k)]);
      var b, q' := Drain(p', s, env, db, i + 1, spent + c, cap, c);
      cs, q := a + b, q';
      OneMore(|p.slots| - i - 1, c);
      ThenReaches(p, a, p', c, b, q, Dues(|p.slots| - i - 1, c), db, spent);
    }
  }

  lemma DuesAdd(m: nat, n: nat, c: real)
    ensures Dues(m + n, c) == Dues(m, c) + Dues(n, c)
  {
  }

  /** The first number of runs that reaches a sum. */
  lemma {:induction false} FirstReaching(n: nat, before: real, sum: real, c: real) returns (m: nat)
    requires before + Dues(n, c) >= sum
    ensures m <= n && before + Dues(m, c) >= sum && (m > 0 ==> before + Dues(m - 1, c) < sum)
  {
    hide Dues;
    m := n;
    if n > 0 && before + Dues(n - 1, c) >= sum { m := FirstReaching(n - 1, before, sum, c); }
  }

  /** How many steps it takes: more than there are workers, and the last is asked for below the cap. */
  lemma {:induction false} HowMany(n: nat, w: nat, before: real, cap: real, c: real) returns (m: nat)
    requires c > 0.0 && before < cap && before + Dues(n, c) >= cap + Dues(w, c)
    ensures w < m <= n && before + Dues(m, c) >= cap + Dues(w, c) && before + Dues(m - 1 - w, c) < cap
  {
    hide Dues;
    m := FirstReaching(n, before, cap + Dues(w, c), c);
    if m <= w { DuesGrow(m, w, c); }
    DuesAdd(m - 1 - w, w, c);
  }

  lemma DuesGrow(m: nat, n: nat, c: real)
    requires m <= n && c > 0.0
    ensures Dues(m, c) <= Dues(n, c)
  {
    AtMost(m, n, c);
  }

  lemma PoolWidth(s: Step, env: Env)
    requires s.Parallel? && !Sequential(s, env)
    ensures Width(s, env) > 0
  {
  }

  /** All the steps the cap lets through, each gate asked while `workers` runs are unpaid. */
  lemma Overspends(s: Step, env: Env, db: bool, before: real, cap: real, c: real) returns (cs: seq<Choice>)
    requires s.Parallel? && var e := Bind(s.env, env); Priced(s, e, db, cap, c) && !Sequential(s, e) && before < cap
    requires c > 0.0 && before + Dues(|s.steps|, c) >= cap + Dues(Width(s, Bind(s.env, env)), c)
    ensures before + Cost(RunOf(Start(s, env, db), cs, db, before).trace) >= cap + Dues(Width(s, Bind(s.env, env)), c)
  {
    hide Priced, Reaches, Dues, Staged, Start, Sequential, Width, RunOf, Cost;
    var e := Bind(s.env, env);
    var w := Width(s, e);
    PoolWidth(s, e);
    var m := HowMany(|s.steps|, w, before, cap, c);
    var a, q := Fill(s, e, db, m, before, cap, c);
    StagedBusy(q, s, e, db, m);
    var b, r := Drain(q, s, e, db, m - w, before + Dues(m - w, c), cap, c);
    DuesAdd(m - w, w, c);
    var p0, p1 := Start(s, env, db), InPool(s, e, false, false, [], []);
    PoolStarts(s, env, db, before);
    ThenReaches(p1, a, q, Dues(m - w, c), b, r, Dues(w, c), db, before);
    ThenReaches(p0, [Go], p1, 0.0, a + b, r, Dues(m, c), db, before);
    cs := [Go] + (a + b);
    Reached(p0, cs, db, before, r, Dues(m, c));
  }

  lemma Reached(p: Proc, cs: seq<Choice>, db: bool, spent: real, q: Proc, paid: real)
    requires Reaches(p, cs, db, spent, q, paid)
    ensures Cost(RunOf(p, cs, db, spent).trace) == paid
  {
  }

  lemma StagedBusy(p: Proc, s: Step, env: Env, db: bool, j: nat)
    requires s.Parallel? && Staged(p, s, env, db, j)
    ensures p.InPool? && |p.slots| == j <= |s.steps|
    ensures forall k | Paid(j, Width(s, env)) <= k < j :: p.slots[k] == Busy(Start(s.steps[k], env, db))
  {
  }

  lemma PoolStarts(s: Step, env: Env, db: bool, spent: real)
    requires s.Parallel?
    ensures Reaches(Start(s, env, db), [Go], db, spent, InPool(s, Bind(s.env, env), false, false, [], []), 0.0)
  {
    CostOfOne(StageStart(StageParallel, s.name, |s.steps|));
    OneStep(Start(s, env, db), Go, db, spent);
  }

  /** The workers, spelled out. */
  function Workers(s: Step, env: Env): (w: nat)
    requires s.Parallel?
    ensures env.dryRun || |s.steps| <= 1 ==> w == 1
    ensures !env.dryRun && |s.steps| > 1 && s.workers > 0 ==> w == s.workers
    ensures !env.dryRun && |s.steps| > 1 && s.workers <= 0 ==> w == if |s.steps| < 5 then |s.steps| else 5
  {
    Width(s, env)
  }

  /**
    When the cap plus `workers` runs is a bound on every schedule, for a pool of n steps of c each that starts below
    the cap: exactly when it runs one step at a time, or all n together stay below that sum.
  */
  lemma WorkersBoundIff(s: Step, env: Env, db: bool, before: real, cap: real, c: real)
    requires s.Parallel? && Priced(s, Bind(s.env, env), db, cap, c) && before < cap
    ensures var e := Bind(s.env, env); var bound := cap + Dues(Workers(s, e), c);
      (forall cs :: before + Cost(RunOf(Start(s, env, db), cs, db, before).trace) < bound)
      <==> e.dryRun || |s.steps| <= 1 || before + Dues(|s.steps|, c) < bound
  {
    var e := Bind(s.env, env);
    var bound := cap + Dues(Width(s, e), c);
    PricedIsGated(s, e, db, cap, c);
    hide RunOf, Start, Cost, Meaning, Dues, Width, Gated, Priced, StepsCost;
    if Sequential(s, e) || before + Dues(|s.steps|, c) < bound {
      forall cs ensures before + Cost(RunOf(Start(s, env, db), cs, db, before).trace) < bound {
        if Sequential(s, e) {
          SequentialKeepsBound(s, env, db, cs, before, cap, c);
        } else {
          WorkersBoundHolds(s, env, db, cs, before, cap, c);
        }
      }
    } else {
      var cs := Overspends(s, env, db, before, cap, c);
    }
  }

  lemma PricedIsGated(s: Step, env: Env, db: bool, cap: real, c: real)
    requires Priced(s, env, db, cap, c)
    ensures s.Parallel? && c > 0.0 && KidsPositional(s) && Gated(s, env, db, cap, c)
    ensures StepsCost(s, 0, env, db) == Dues(|s.steps|, c)
  {
    PricedCost(s, 0, env, db, cap, c);
  }

  lemma {:induction false} PricedCost(s: Step, i: nat, env: Env, db: bool, cap: real, c: real)
    requires Priced(s, env, db, cap, c) && i <= |s.steps|
    ensures StepsCost(s, i, env, db) == Dues(|s.steps| - i, c)
    decreases |s.steps| - i
  {
    hide Dues, Cost, Meaning;
    if i == |s.steps| {
      NoDues(c);
    } else {
      PricedCost(s, i + 1, env, db, cap, c);
      OneMore(|s.steps| - i - 1, c);
      assert s.steps[i] in s.steps;
    }
  }
}
