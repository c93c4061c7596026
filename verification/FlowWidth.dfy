/** How many steps of a parallel are in flight, counted on its slots: never more
    than its workers on any schedule, and on some schedule that many. */
module FlowWidth {
  import opened Common
  import opened FlowBundle
  import opened FlowMeaning
  import opened FlowMachine
  import opened FlowProtocol

  /** The steps that hold a worker slot. */
  function Flying(slots: seq<Slot>): set<nat> { set i: nat | i < |slots| && !slots[i].Free? }

  lemma {:induction false} FlyingCount(slots: seq<Slot>)
    ensures |Flying(slots)| == InFlight(slots)
    decreases |slots|
  {
    if slots == [] {
      assert Flying(slots) == {};
    } else {
      var n := |slots| - 1;
      FlyingCount(slots[..n]);
      assert slots == slots[..n] + [slots[n]];
      InFlightAppend(slots[..n], slots[n]);
      assert Flying(slots) == Flying(slots[..n]) + if slots[n].Free? then {} else {n};
    }
  }

  /** The number of workers; five, and no more than there are steps, when none is given; one in a dry run or for one step. */
  ghost predicate Fits(n: nat, s: Step, env: Env)
    requires s.Parallel?
  {
    && (s.workers > 0 ==> n <= s.workers)
    && (s.workers <= 0 ==> n <= 5 && n <= |s.steps|)
    && (env.dryRun || |s.steps| <= 1 ==> n <= 1)
  }

  /** In every pool of the process, however deep. */
  ghost predicate AllFit(p: Proc)
    decreases p
  {
    match p
    case InPipe(_, _, _, kid, _) => kid.Some? ==> AllFit(kid.value)
    case InPool(s, env, _, _, slots, _) =>
      s.Parallel? && Fits(|Flying(slots)|, s, env) && forall k | k in slots && k.Busy? :: AllFit(k.proc)
    case _ => true
  }

  lemma {:induction false} BoundedFits(p: Proc)
    requires Bounded(p)
    ensures AllFit(p)
    decreases p
  {
    match p
    case InPipe(_, _, _, kid, _) => if kid.Some? { BoundedFits(kid.value); }
    case InPool(s, env, _, _, slots, _) =>
      FlyingCount(slots);
      forall k | k in slots && k.Busy? ensures AllFit(k.proc) { BoundedFits(k.proc); }
    case _ =>
  }

  /** On every schedule of every tree of steps. */
  lemma EveryPoolFits(s: Step, env: Env, db: bool, cs: seq<Choice>, spent: real)
    ensures AllFit(RunOf(Start(s, env, db), cs, db, spent).proc)
  {
    RunBounded(Start(s, env, db), cs, db, spent);
    BoundedFits(RunOf(Start(s, env, db), cs, db, spent).proc);
  }

  /* ---- and the workers are put to use ---- */

  /** The first j steps are started and nothing has happened in them. */
  function Launched(s: Step, env: Env, db: bool, j: nat): seq<Slot>
    requires s.Parallel? && j <= |s.steps|
  {
    seq(j, i requires 0 <= i < j => Busy(Start(s.steps[i], env, db)))
  }

  function Launching(s: Step, env: Env, db: bool, j: nat): Proc
    requires s.Parallel? && j <= |s.steps|
  {
    InPool(s, env, false, false, Launched(s, env, db, j), [])
  }

  lemma LaunchOne(s: Step, env: Env, db: bool, j: nat, spent: real)
    requires s.Parallel? && !env.dryRun && 2 <= |s.steps| && j < |s.steps| && LetsThrough(s.gate, j, spent)
    requires (s.workers > 0 ==> j < s.workers) && (s.workers <= 0 ==> j < 5)
    ensures var asked := InPool(s, env, true, false, Launched(s, env, db, j), []);
      && Next(Launching(s, env, db, j), Go, db, spent) == Some(Move([], asked))
      && Next(asked, Go, db, spent) == Some(Move([], Launching(s, env, db, j + 1)))
  {
    var slots := Launched(s, env, db, j);
    FlyingCount(slots);
    AllFlying(slots);
    assert Launched(s, env, db, j + 1) == slots + [Busy(Start(s.steps[j], env, db))];
    hide Start, LetsThrough;
  }

  lemma {:induction false} AllFlying(slots: seq<Slot>)
    requires forall k | k in slots :: k.Busy?
    ensures InFlight(slots) == |slots|
  {
    if slots != [] {
      assert slots[0].Busy?;
      AllFlying(slots[1..]);
    }
  }

  lemma {:induction false} Launch(s: Step, env: Env, db: bool, j: nat, m: nat, spent: real) returns (cs: seq<Choice>)
    requires s.Parallel? && !env.dryRun && 2 <= |s.steps| && j <= m <= |s.steps|
    requires (s.workers > 0 ==> m <= s.workers) && (s.workers <= 0 ==> m <= 5)
    requires forall i: nat | i < m :: LetsThrough(s.gate, i, spent)
    ensures Possible(Launching(s, env, db, j), cs, db, spent)
    ensures RunOf(Launching(s, env, db, j), cs, db, spent).proc == Launching(s, env, db, m)
    decreases m - j
  {
    hide Next, Launching, LetsThrough;
    if j == m {
      cs := [];
    } else {
      LaunchOne(s, env, db, j, spent);
      var rest := Launch(s, env, db, j + 1, m, spent);
      cs := [Go] + ([Go] + rest);
      assert cs[1..] == [Go] + rest && ([Go] + rest)[1..] == rest;
    }
  }

  lemma PoolOpens(s: Step, env: Env, db: bool, spent: real) returns (es: seq<Event>)
    requires s.Parallel?
    ensures Cost(es) == 0.0
    ensures Next(Start(s, env, db), Go, db, spent) == Some(Move(es, InPool(s, Bind(s.env, env), false, false, [], [])))
  {
    es := [Event([], StageStart(StageParallel, s.name, |s.steps|))];
    assert es[1..] == [];
  }

  /** What one possible pick does to a run. */
  lemma RunsOn(p: Proc, c: Choice, rest: seq<Choice>, m: Move, db: bool, spent: real)
    requires Next(p, c, db, spent) == Some(m) && Cost(m.events) == 0.0
    ensures Possible(p, [c] + rest, db, spent) <==> Possible(m.proc, rest, db, spent)
    ensures RunOf(p, [c] + rest, db, spent).proc == RunOf(m.proc, rest, db, spent).proc
  {
    hide Next, Cost;
    assert ([c] + rest)[1..] == rest;
  }

  /**
    A concurrent pool can have as many steps in flight as it has workers - five when none are given - and steps, as far
    as its gate lets them through: a schedule that starts them before anything happens in them.
  */
  lemma WorkersFill(s: Step, env: Env, db: bool, m: nat, spent: real) returns (cs: seq<Choice>)
    requires s.Parallel? && !Bind(s.env, env).dryRun && 2 <= |s.steps| && m <= |s.steps|
    requires (s.workers > 0 ==> m <= s.workers) && (s.workers <= 0 ==> m <= 5)
    requires forall i: nat | i < m :: LetsThrough(s.gate, i, spent)
    ensures Possible(Start(s, env, db), cs, db, spent)
    ensures var p := RunOf(Start(s, env, db), cs, db, spent).proc; p.InPool? && p.step == s && |Flying(p.slots)| == m
  {
    hide Next, LetsThrough, Start, Cost, RunOf, Possible;
    var e := Bind(s.env, env);
    var es := PoolOpens(s, env, db, spent);
    var rest := Launch(s, e, db, 0, m, spent);
    assert Launched(s, e, db, 0) == [];
    RunsOn(Start(s, env, db), Go, rest, Move(es, Launching(s, e, db, 0)), db, spent);
    cs := [Go] + rest;
    FlyingCount(Launched(s, e, db, m));
    AllFlying(Launched(s, e, db, m));
  }

  /** A dry run and a parallel of one step do run a step. */
  lemma OneAtATime(s: Step, env: Env, db: bool, spent: real) returns (cs: seq<Choice>)
    requires s.Parallel? && 1 <= |s.steps| && LetsThrough(s.gate, 0, spent)
    ensures Possible(Start(s, env, db), cs, db, spent)
    ensures var p := RunOf(Start(s, env, db), cs, db, spent).proc; p.InPool? && p.step == s && |Flying(p.slots)| == 1
  {
    hide LetsThrough, Start, Cost;
    var e := Bind(s.env, env);
    var es := PoolOpens(s, env, db, spent);
    var kid := Busy(Start(s.steps[0], e, db));
    var p1, p2, p3 := InPool(s, e, false, false, [], []), InPool(s, e, true, false, [], []), InPool(s, e, false, false, [kid], []);
    FirstStarts(s, e, db, spent);
    hide Next, RunOf, Possible;
    NothingCosts();
    EndsThere(p3, db, spent);
    RunsOn(p2, Go, [], Move([], p3), db, spent);
    RunsOn(p1, Go, [Go] + [], Move([], p2), db, spent);
    RunsOn(Start(s, env, db), Go, [Go] + ([Go] + []), Move(es, p1), db, spent);
    cs := [Go] + ([Go] + ([Go] + []));
    FlyingCount([kid]);
    AllFlying([kid]);
  }

  lemma FirstStarts(s: Step, env: Env, db: bool, spent: real)
    requires s.Parallel? && 1 <= |s.steps| && LetsThrough(s.gate, 0, spent)
    ensures Next(InPool(s, env, false, false, [], []), Go, db, spent) == Some(Move([], InPool(s, env, true, false, [], [])))
    ensures Next(InPool(s, env, true, false, [], []), Go, db, spent)
         == Some(Move([], InPool(s, env, false, false, [Busy(Start(s.steps[0], env, db))], [])))
  {
    hide Start, LetsThrough;
    assert [] + [Busy(Start(s.steps[0], env, db))] == [Busy(Start(s.steps[0], env, db))];
  }

  lemma NothingCosts()
    ensures Cost([]) == 0.0
  {
  }

  lemma EndsThere(p: Proc, db: bool, spent: real)
    ensures Possible(p, [], db, spent) && RunOf(p, [], db, spent).proc == p
  {
  }
}
