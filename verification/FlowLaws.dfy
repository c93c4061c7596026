/** What the composites promise, said without running them: which steps of a
    pipeline and of a parallel take part, and what every address reports. */
module FlowLaws {
  import opened Common
  import opened FlowBundle
  import opened FlowMeaning
  import opened FlowMachine
  import opened FlowProtocol
  import opened FlowRefinement
  import opened FlowSettling

  /* ---- pipelines ---- */

  /** The first step from i on whose results hold an error; the number of steps if none does. */
  function FirstError(s: Step, i: nat, env: Env, db: bool): (f: nat)
    requires s.Pipeline? && i <= |s.steps|
    ensures i <= f <= |s.steps|
    ensures f < |s.steps| ==> HasError(Meaning(s.steps[f], env, db).results)
    ensures forall k | i <= k < f :: !HasError(Meaning(s.steps[k], env, db).results)
    decreases |s.steps| - i
  {
    if i == |s.steps| || HasError(Meaning(s.steps[i], env, db).results) then i else FirstError(s, i + 1, env, db)
  }

  /** The results of the steps i to j - 1, in order. */
  function ResultsOf(s: Step, i: nat, j: nat, env: Env, db: bool): seq<Result>
    requires !s.Leaf? && i <= j <= |s.steps|
    decreases j - i
  {
    if i == j then [] else Meaning(s.steps[i], env, db).results + ResultsOf(s, i + 1, j, env, db)
  }

  function Skips(s: Step, i: nat): seq<What>
    requires !s.Leaf? && i <= |s.steps|
    decreases |s.steps| - i
  {
    if i == |s.steps| then [] else [StepSkipped(StepName(s.steps[i]))] + Skips(s, i + 1)
  }

  function Min(a: nat, b: nat): nat { if a < b then a else b }

  lemma HeadAt(i: nat, head: seq<Event>, rest: seq<Event>, k: nat, a: Addr)
    ensures At(Lift(i, head) + rest, []) == At(rest, [])
    ensures At(Lift(i, head) + rest, [k] + a) == (if k == i then At(head, a) else []) + At(rest, [k] + a)
  {
    AtConcat(Lift(i, head), rest, []);
    AtLift(i, head, []);
    AtConcat(Lift(i, head), rest, [k] + a);
    AtLift(i, head, [k] + a);
    assert ([k] + a)[1..] == a && ([k] + a)[0] == k;
    assert [] + At(rest, []) == At(rest, []);
  }

  lemma OwnAt(w: What, rest: seq<Event>, k: nat, a: Addr)
    ensures At([Event([], w)] + rest, []) == [w] + At(rest, [])
    ensures At([Event([], w)] + rest, [k] + a) == At(rest, [k] + a)
  {
    assert ([Event([], w)] + rest)[1..] == rest;
    assert [] + At(rest, [k] + a) == At(rest, [k] + a);
  }

  lemma {:induction false} StoppedPipeline(s: Step, i: nat, env: Env, db: bool, g: Gathered, k: nat, a: Addr)
    requires s.Pipeline? && i <= |s.steps| && g.firstError >= 0
    ensures var o := PipelineFrom(s, i, env, db, g);
      && o.results == g.results
      && At(o.trace, []) == Skips(s, i) + [StageEnd(Tally(g.results, g.skipped + |s.steps| - i, g.firstError))]
      && At(o.trace, [k] + a) == []
    decreases |s.steps| - i
  {
    hide At, CountState;
    if i < |s.steps| {
      StoppedPipeline(s, i + 1, env, db, g.(skipped := g.skipped + 1), k, a);
      OwnAt(StepSkipped(StepName(s.steps[i])), PipelineFrom(s, i + 1, env, db, g.(skipped := g.skipped + 1)).trace, k, a);
    } else {
      OwnAt(StageEnd(Tally(g.results, g.skipped, g.firstError)), [], k, a);
      NoEvents(k, a);
    }
  }

  lemma NoEvents(k: nat, a: Addr)
    ensures At([], []) == [] && At([], [k] + a) == []
    ensures forall e: Event :: [e] + [] == [e]
  {
  }

  lemma {:induction false} PipelineResults(s: Step, i: nat, env: Env, db: bool, g: Gathered)
    requires s.Pipeline? && i <= |s.steps| && g.firstError == -1
    ensures PipelineFrom(s, i, env, db, g).results == g.results + ResultsOf(s, i, Min(FirstError(s, i, env, db) + 1, |s.steps|), env, db)
    decreases |s.steps| - i
  {
    hide HasError, Meaning, CountState;
    var n, f := |s.steps|, FirstError(s, i, env, db);
    if i < n {
      var rs := Meaning(s.steps[i], env, db).results;
      if f == i {
        StoppedPipeline(s, i + 1, env, db, Gather(g, i, rs), 0, []);
        assert ResultsOf(s, i, i + 1, env, db) == rs + [];
      } else {
        PipelineResults(s, i + 1, env, db, Gather(g, i, rs));
        assert (g.results + rs) + ResultsOf(s, i + 1, Min(f + 1, n), env, db)
            == g.results + (rs + ResultsOf(s, i + 1, Min(f + 1, n), env, db));
      }
    }
  }

  lemma {:induction false} PipelineKids(s: Step, i: nat, env: Env, db: bool, g: Gathered, k: nat, a: Addr)
    requires s.Pipeline? && i <= |s.steps| && g.firstError == -1
    ensures At(PipelineFrom(s, i, env, db, g).trace, [k] + a)
         == if i <= k < |s.steps| && k <= FirstError(s, i, env, db) then At(Meaning(s.steps[k], env, db).trace, a) else []
    decreases |s.steps| - i
  {
    hide At, CountState, HasError, Meaning;
    if i == |s.steps| {
      OwnAt(StageEnd(Tally(g.results, g.skipped, -1)), [], k, a);
      NoEvents(k, a);
    } else {
      var m := Meaning(s.steps[i], env, db);
      var g' := Gather(g, i, m.results);
      if HasError(m.results) { StoppedPipeline(s, i + 1, env, db, g', k, a); } else { PipelineKids(s, i + 1, env, db, g', k, a); }
      HeadAt(i, m.trace, PipelineFrom(s, i + 1, env, db, g').trace, k, a);
    }
  }

  lemma {:induction false} PipelineOwn(s: Step, i: nat, env: Env, db: bool, g: Gathered)
    requires s.Pipeline? && i <= |s.steps| && g.firstError == -1
    ensures var o, n, f := PipelineFrom(s, i, env, db, g), |s.steps|, FirstError(s, i, env, db);
      At(o.trace, []) == Skips(s, Min(f + 1, n))
           + [StageEnd(Tally(o.results, g.skipped + n - Min(f + 1, n), if f < n then f else -1))]
    decreases |s.steps| - i
  {
    hide At, Tally, HasError, Meaning;
    if i == |s.steps| {
      OwnAt(StageEnd(Tally(g.results, g.skipped, -1)), [], 0, []);
      NoEvents(0, []);
    } else {
      var m := Meaning(s.steps[i], env, db);
      var g' := Gather(g, i, m.results);
      if HasError(m.results) { StoppedPipeline(s, i + 1, env, db, g', 0, []); } else { PipelineOwn(s, i + 1, env, db, g'); }
      HeadAt(i, m.trace, PipelineFrom(s, i + 1, env, db, g').trace, 0, []);
    }
  }

  // What a pipeline reports itself, between its start and its end.
  lemma PipelineEvents(s: Step, env: Env, db: bool)
    requires s.Pipeline?
    ensures var e, n, m := Bind(s.env, env), |s.steps|, Meaning(s, env, db); var f := FirstError(s, 0, e, db);
      && m.results == ResultsOf(s, 0, Min(f + 1, n), e, db)
      && At(m.trace, []) == [StageStart(StagePipeline, s.name, n)] + (Skips(s, Min(f + 1, n))
           + [StageEnd(Tally(m.results, n - Min(f + 1, n), if f < n then f else -1))])
  {
    hide At, Tally, ResultsOf, Skips, FirstError, HasError, CountState, PipelineFrom;
    var e, g := Bind(s.env, env), Gathered([], 0, -1);
    PipelineResults(s, 0, e, db, g);
    PipelineOwn(s, 0, e, db, g);
    OwnAt(StageStart(StagePipeline, s.name, |s.steps|), PipelineFrom(s, 0, e, db, g).trace, 0, []);
  }

  /** A pipeline returns what the steps up to and including the first errored one
      return; that step's index is what it reports; only those steps report
      anything; the later ones are each skipped. */
  lemma PipelineLaw(s: Step, env: Env, db: bool, k: nat, a: Addr)
    requires s.Pipeline?
    ensures var e, n, m := Bind(s.env, env), |s.steps|, Meaning(s, env, db); var f := FirstError(s, 0, e, db);
      && m.results == ResultsOf(s, 0, Min(f + 1, n), e, db)
      && At(m.trace, []) == [StageStart(StagePipeline, s.name, n)] + (Skips(s, Min(f + 1, n))
           + [StageEnd(Tally(m.results, n - Min(f + 1, n), if f < n then f else -1))])
      && At(m.trace, [k] + a) == if k < n && k <= f then At(Meaning(s.steps[k], e, db).trace, a) else []
  {
    PipelineEvents(s, env, db);
    hide At, Tally, ResultsOf, Skips, FirstError, HasError, CountState, PipelineFrom;
    var e, g := Bind(s.env, env), Gathered([], 0, -1);
    PipelineKids(s, 0, e, db, g, k, a);
    OwnAt(StageStart(StagePipeline, s.name, |s.steps|), PipelineFrom(s, 0, e, db, g).trace, k, a);
  }

  /* ---- parallels ---- */

  /** How many steps the gate lets in. */
  function Admitted(s: Step): nat
    requires s.Parallel?
  {
    if s.gate.RefusesAt? then Min(s.gate.step, |s.steps|) else |s.steps|
  }

  /** One skip per refused step. */
  function Refusals(s: Step, i: nat, env: Env): seq<Result>
    requires !s.Leaf? && i <= |s.steps|
    decreases |s.steps| - i
  {
    if i == |s.steps| then [] else [Refused(s.steps[i], env)] + Refusals(s, i + 1, env)
  }

  lemma {:induction false} RefusedParallel(s: Step, i: nat, env: Env, db: bool)
    requires s.Parallel? && i <= |s.steps|
    ensures ParallelFrom(s, i, env, db, true) == Outcome([], Refusals(s, i, env))
    decreases |s.steps| - i
  {
    if i < |s.steps| { RefusedParallel(s, i + 1, env, db); }
  }

  lemma {:induction false} ParallelFromLaw(s: Step, i: nat, env: Env, db: bool, k: nat, a: Addr)
    requires s.Parallel? && i <= Admitted(s)
    ensures var o := ParallelFrom(s, i, env, db, false);
      && o.results == ResultsOf(s, i, Admitted(s), env, db) + Refusals(s, Admitted(s), env)
      && At(o.trace, []) == []
      && At(o.trace, [k] + a) == if i <= k < Admitted(s) then At(Meaning(s.steps[k], env, db).trace, a) else []
    decreases |s.steps| - i
  {
    hide At, Meaning;
    var n := Admitted(s);
    NoEvents(k, a);
    if i < n {
      var m, rest := Meaning(s.steps[i], env, db), ParallelFrom(s, i + 1, env, db, false);
      ParallelFromLaw(s, i + 1, env, db, k, a);
      HeadAt(i, m.trace, rest.trace, k, a);
      assert m.results + (ResultsOf(s, i + 1, n, env, db) + Refusals(s, n, env))
          == (m.results + ResultsOf(s, i + 1, n, env, db)) + Refusals(s, n, env);
    } else if i < |s.steps| {
      RefusedParallel(s, i, env, db);
      RefusedParallel(s, i + 1, env, db);
      assert [] + Refusals(s, i, env) == Refusals(s, i, env);
    } else {
      assert [] + Refusals(s, i, env) == [];
    }
  }

  lemma FramedAt(start: What, body: seq<Event>, end: What, k: nat, a: Addr)
    ensures var t := [Event([], start)] + (body + [Event([], end)]);
      At(t, []) == [start] + At(body, []) + [end] && At(t, [k] + a) == At(body, [k] + a)
  {
    hide At;
    OwnAt(start, body + [Event([], end)], k, a);
    AtConcat(body, [Event([], end)], []);
    AtConcat(body, [Event([], end)], [k] + a);
    OwnAt(end, [], k, a);
    NoEvents(k, a);
    assert [start] + (At(body, []) + [end]) == [start] + At(body, []) + [end];
  }

  lemma ParallelMeaning(s: Step, env: Env, db: bool)
    requires s.Parallel?
    ensures var rest, m := ParallelFrom(s, 0, Bind(s.env, env), db, false), Meaning(s, env, db);
      && m.results == rest.results
      && m.trace == [Event([], StageStart(StageParallel, s.name, |s.steps|))]
                  + (rest.trace + [Event([], StageEnd(Tally(rest.results, 0, -1)))])
  {
    hide ParallelFrom, Tally;
  }

  /** In a parallel the admitted steps are a prefix, each of the others is one
      skip and reports nothing, and nothing stops at an error. */
  lemma ParallelLaw(s: Step, env: Env, db: bool, k: nat, a: Addr)
    requires s.Parallel?
    ensures var e, n, m := Bind(s.env, env), Admitted(s), Meaning(s, env, db);
      && m.results == ResultsOf(s, 0, n, e, db) + Refusals(s, n, e)
      && At(m.trace, []) == [StageStart(StageParallel, s.name, |s.steps|), StageEnd(Tally(m.results, 0, -1))]
      && At(m.trace, [k] + a) == if k < n then At(Meaning(s.steps[k], e, db).trace, a) else []
  {
    hide ParallelFrom, At, Tally, ResultsOf, Refusals, Meaning;
    var e := Bind(s.env, env);
    var rest := ParallelFrom(s, 0, e, db, false);
    ParallelMeaning(s, env, db);
    ParallelFromLaw(s, 0, e, db, k, a);
    var start, end := StageStart(StageParallel, s.name, |s.steps|), StageEnd(Tally(rest.results, 0, -1));
    FramedAt(start, rest.trace, end, k, a);
    assert [start] + [] + [end] == [start, end];
  }

  lemma {:induction false} LeafResults(s: Step, i: nat, j: nat, env: Env, db: bool)
    requires !s.Leaf? && i <= j <= |s.steps| && forall k | k in s.steps :: k.Leaf?
    ensures |ResultsOf(s, i, j, env, db)| == j - i
    decreases j - i
  {
    if i < j { LeafResults(s, i + 1, j, env, db); }
  }

  lemma {:induction false} RefusalCount(s: Step, i: nat, env: Env)
    requires !s.Leaf? && i <= |s.steps|
    ensures |Refusals(s, i, env)| == |s.steps| - i
    decreases |s.steps| - i
  {
    if i < |s.steps| { RefusalCount(s, i + 1, env); }
  }

  lemma {:induction false} TallyAddsUp(rs: seq<Result>)
    ensures CountState(rs, Continue) + CountState(rs, Failed) + CountState(rs, Skip) == |rs|
  {
    if rs != [] { TallyAddsUp(rs[1..]); }
  }

  /** A parallel of bundles returns one result per step, and its counts add up to
      the number of steps. */
  lemma BundlesAddUp(s: Step, env: Env, db: bool)
    requires s.Parallel? && forall k | k in s.steps :: k.Leaf?
    ensures var rs := Meaning(s, env, db).results; var t := Tally(rs, 0, -1);
      |rs| == |s.steps| && t.succeeded + t.failed + t.skipped == |s.steps|
  {
    var e := Bind(s.env, env);
    ParallelLaw(s, env, db, 0, []);
    LeafResults(s, 0, Admitted(s), e, db);
    RefusalCount(s, Admitted(s), e);
    TallyAddsUp(Meaning(s, env, db).results);
  }

  /* ---- every address of the tree ---- */

  function StepAt(s: Step, a: Addr): Option<Step>
    decreases a
  {
    if a == [] then Some(s)
    else if !s.Leaf? && a[0] < |s.steps| then StepAt(s.steps[a[0]], a[1..])
    else None
  }

  /** A stage reports its start, then the steps it skips, then its end. */
  ghost predicate StageTrace(ws: seq<What>) {
    && |ws| >= 2 && ws[0].StageStart? && ws[|ws| - 1].StageEnd?
    && forall k | 1 <= k < |ws| - 1 :: ws[k].StepSkipped?
  }

  /** What may be reported at an address: nothing, one whole bundle run, or one whole stage. */
  ghost predicate Legal(s: Step, a: Addr, ws: seq<What>, db: bool) {
    || ws == []
    || (StepAt(s, a).Some? && StepAt(s, a).value.Leaf? && exists e :: ws == BundleTrace(StepAt(s, a).value.bundle, e, db))
    || (StepAt(s, a).Some? && !StepAt(s, a).value.Leaf? && StageTrace(ws))
  }

  lemma {:induction false} SkipsOnly(s: Step, i: nat)
    requires !s.Leaf? && i <= |s.steps|
    ensures forall w | w in Skips(s, i) :: w.StepSkipped?
    decreases |s.steps| - i
  {
    if i < |s.steps| { SkipsOnly(s, i + 1); }
  }

  lemma StageLegal(start: What, skips: seq<What>, end: What)
    requires start.StageStart? && end.StageEnd? && forall w | w in skips :: w.StepSkipped?
    ensures StageTrace([start] + (skips + [end]))
  {
  }

  lemma PipelineLegal(s: Step, env: Env, db: bool, a: Addr)
    requires s.Pipeline?
    requires a != [] && a[0] < |s.steps| ==> Legal(s.steps[a[0]], a[1..], At(Meaning(s.steps[a[0]], Bind(s.env, env), db).trace, a[1..]), db)
    ensures Legal(s, a, At(Meaning(s, env, db).trace, a), db)
  {
    hide At, Meaning, Tally, Skips, ResultsOf, FirstError, StageTrace;
    if a == [] {
      PipelineLaw(s, env, db, 0, []);
      var e, n, m := Bind(s.env, env), |s.steps|, Meaning(s, env, db);
      var f := FirstError(s, 0, e, db);
      SkipsOnly(s, Min(f + 1, n));
      StageLegal(StageStart(StagePipeline, s.name, n), Skips(s, Min(f + 1, n)),
                 StageEnd(Tally(m.results, n - Min(f + 1, n), if f < n then f else -1)));
    } else {
      PipelineLaw(s, env, db, a[0], a[1..]);
      assert a == [a[0]] + a[1..];
    }
  }

  lemma ParallelLegal(s: Step, env: Env, db: bool, a: Addr)
    requires s.Parallel?
    requires a != [] && a[0] < |s.steps| ==> Legal(s.steps[a[0]], a[1..], At(Meaning(s.steps[a[0]], Bind(s.env, env), db).trace, a[1..]), db)
    ensures Legal(s, a, At(Meaning(s, env, db).trace, a), db)
  {
    hide At, Meaning, Tally, ResultsOf, Refusals;
    if a == [] {
      ParallelLaw(s, env, db, 0, []);
    } else {
      ParallelLaw(s, env, db, a[0], a[1..]);
      assert a == [a[0]] + a[1..];
    }
  }

  /** Whatever the address: nothing, or one whole bundle run, or one whole stage. */
  lemma {:induction false} MeaningLegal(s: Step, env: Env, db: bool, a: Addr)
    ensures Legal(s, a, At(Meaning(s, env, db).trace, a), db)
    decreases s
  {
    if s.Leaf? {
      AtTag(BundleTrace(s.bundle, env, db), a);
    } else {
      if a != [] && a[0] < |s.steps| { MeaningLegal(s.steps[a[0]], Bind(s.env, env), db, a[1..]); }
      if s.Pipeline? { PipelineLegal(s, env, db, a); } else { ParallelLegal(s, env, db, a); }
    }
  }

  /* ---- every finished run, whatever its gates ask ---- */

  lemma {:induction false} SettledStepAt(s: Step, s': Step, a: Addr)
    requires Settles(s, s')
    ensures StepAt(s', a).Some? <==> StepAt(s, a).Some?
    ensures StepAt(s, a).Some? ==> Settles(StepAt(s, a).value, StepAt(s', a).value)
    decreases a
  {
    if a != [] && !s.Leaf? && a[0] < |s.steps| { SettledStepAt(s.steps[a[0]], s'.steps[a[0]], a[1..]); }
  }

  lemma SettledLegal(s: Step, s': Step, a: Addr, ws: seq<What>, db: bool)
    requires Settles(s, s') && Legal(s', a, ws, db)
    ensures Legal(s, a, ws, db)
  {
    SettledStepAt(s, s', a);
    hide StageTrace, BundleTrace;
  }

  /** On every schedule an address reports nothing, or one whole bundle run - one
      BundleStart first, one BundleEnd last - or one whole stage. */
  lemma RunLegal(s: Step, env: Env, db: bool, cs: seq<Choice>, spent: real, a: Addr)
    requires Finished(RunOf(Start(s, env, db), cs, db, spent).proc)
    ensures Legal(s, a, At(RunOf(Start(s, env, db), cs, db, spent).trace, a), db)
  {
    var s' := EveryRunSettles(s, env, db, cs, spent);
    MeaningLegal(s', env, db, a);
    SettledLegal(s, s', a, At(Meaning(s', env, db).trace, a), db);
  }

  /** Walk: the bundles of the tree. */
  function Walk(s: Step): seq<Bundle>
    decreases s, if s.Leaf? then 0 else |s.steps| + 1
  {
    if s.Leaf? then [s.bundle] else WalkFrom(s, 0)
  }

  function WalkFrom(s: Step, i: nat): seq<Bundle>
    requires !s.Leaf? && i <= |s.steps|
    decreases s, |s.steps| - i
  {
    if i == |s.steps| then [] else Walk(s.steps[i]) + WalkFrom(s, i + 1)
  }

  lemma {:induction false} WalkFromHas(s: Step, i: nat, k: nat)
    requires !s.Leaf? && i <= k < |s.steps|
    ensures forall b | b in Walk(s.steps[k]) :: b in WalkFrom(s, i)
    decreases k - i
  {
    if i < k { WalkFromHas(s, i + 1, k); }
  }

  /** Every bundle of the tree is visited. */
  lemma {:induction false} WalkVisits(s: Step, a: Addr)
    requires StepAt(s, a).Some? && StepAt(s, a).value.Leaf?
    ensures StepAt(s, a).value.bundle in Walk(s)
    decreases a
  {
    if a != [] {
      WalkVisits(s.steps[a[0]], a[1..]);
      WalkFromHas(s, 0, a[0]);
    }
  }

  /** Exec-row closure on every schedule: at each bundle at most one row is
      allocated, and it is handed to the executor once or marked failed once. */
  lemma RunRowsClosed(s: Step, env: Env, db: bool, cs: seq<Choice>, spent: real, a: Addr)
    requires Finished(RunOf(Start(s, env, db), cs, db, spent).proc)
    ensures var ws := At(RunOf(Start(s, env, db), cs, db, spent).trace, a);
      && RowsAllocated(ws) <= 1
      && RowsExecuted(ws) + RowsMarked(ws) <= RowsAllocated(ws)
      && (db && (forall b | b in Walk(s) :: NoPanic(b)) ==> RowsExecuted(ws) + RowsMarked(ws) == RowsAllocated(ws))
  {
    RunLegal(s, env, db, cs, spent, a);
    var ws := At(RunOf(Start(s, env, db), cs, db, spent).trace, a);
    hide At, RunOf, Start, Finished;
    if StepAt(s, a).Some? && StepAt(s, a).value.Leaf? && ws != [] {
      var b := StepAt(s, a).value.bundle;
      WalkVisits(s, a);
      var e :| ws == BundleTrace(b, e, db);
      RowsClosed(b, e, db);
    } else {
      forall w | w in ws ensures !IsRow(w) && !IsExecuted(w) && !IsMarked(w) { }
      NoRows(ws);
    }
  }

  lemma {:induction false} SettledRefusals(s: Step, s': Step, i: nat, env: Env)
    requires Settles(s, s') && !s.Leaf? && i <= |s.steps|
    ensures Refusals(s', i, env) == Refusals(s, i, env)
    decreases |s.steps| - i
  {
    if i < |s.steps| {
      SettledName(s.steps[i], s'.steps[i]);
      SettledRefusals(s, s', i + 1, env);
    }
  }

  // The first n steps ran and returned something, the others are one skip each and reported nothing.
  ghost predicate RanPrefix(s: Step, s': Step, n: nat, env: Env, db: bool, tr: seq<Event>, rs: seq<Result>)
    requires s.Parallel? && s'.Parallel? && |s'.steps| == |s.steps| && n <= |s.steps|
  {
    && multiset(rs) == multiset(ResultsOf(s', 0, n, env, db) + Refusals(s, n, env))
    && At(tr, []) == [StageStart(StageParallel, s.name, |s.steps|), StageEnd(Tally(rs, 0, -1))]
    && (forall a: Addr | a != [] ::
          At(tr, a) == if a[0] < n then At(Meaning(s'.steps[a[0]], env, db).trace, a[1..]) else [])
  }

  lemma PrefixAt(s: Step, env: Env, db: bool, a: Addr)
    requires s.Parallel? && a != []
    ensures At(Meaning(s, env, db).trace, a)
         == if a[0] < Admitted(s) then At(Meaning(s.steps[a[0]], Bind(s.env, env), db).trace, a[1..]) else []
  {
    hide Meaning, At, Admitted;
    ParallelLaw(s, env, db, a[0], a[1..]);
    assert a == [a[0]] + a[1..];
  }

  lemma AgreesWithPrefix(s: Step, s': Step, env: Env, db: bool, tr: seq<Event>, rs: seq<Result>)
    requires s.Parallel? && Settles(s, s') && Agree(Meaning(s', env, db), Outcome(tr, rs))
    ensures s'.Parallel? && |s'.steps| == |s.steps| && Admitted(s') <= |s.steps|
    ensures RanPrefix(s, s', Admitted(s'), Bind(s.env, env), db, tr, rs)
  {
    hide *;
    SettledShape(s, s');
    var n, e, m := Admitted(s'), Bind(s.env, env), Meaning(s', env, db);
    SettledRefusals(s, s', n, e);
    ParallelLaw(s', env, db, 0, []);
    Agrees(m, Outcome(tr, rs));
    TallyBag(m.results, rs, 0, -1);
    forall a: Addr | a != []
      ensures At(tr, a) == if a[0] < n then At(Meaning(s'.steps[a[0]], e, db).trace, a[1..]) else []
    {
      PrefixAt(s', env, db, a);
    }
    Ran(s, s', n, e, db, tr, rs);
  }

  lemma Ran(s: Step, s': Step, n: nat, env: Env, db: bool, tr: seq<Event>, rs: seq<Result>)
    requires s.Parallel? && s'.Parallel? && |s'.steps| == |s.steps| && n <= |s.steps|
    requires multiset(rs) == multiset(ResultsOf(s', 0, n, env, db) + Refusals(s, n, env))
    requires At(tr, []) == [StageStart(StageParallel, s.name, |s.steps|), StageEnd(Tally(rs, 0, -1))]
    requires forall a: Addr | a != [] :: At(tr, a) == if a[0] < n then At(Meaning(s'.steps[a[0]], env, db).trace, a[1..]) else []
    ensures RanPrefix(s, s', n, env, db, tr, rs)
  {
    hide At, Meaning, Tally, ResultsOf, Refusals;
  }

  lemma SettledShape(s: Step, s': Step)
    requires s.Parallel? && Settles(s, s')
    ensures s'.Parallel? && s'.name == s.name && s'.env == s.env && |s'.steps| == |s.steps| && Admitted(s') <= |s.steps|
  {
  }

  // Why the pool's gate refused its n-th step, if it did.
  predicate RefusedRightly(s: Step, n: nat, total: real)
    requires s.Parallel?
  {
    n < |s.steps| ==>
      match s.gate
      case Open => false
      case RefusesAt(k) => n == k
      case Budget(cap) => cap.Some? && total >= cap.value
  }

  lemma RightlyRefused(s: Step, s': Step, total: real)
    requires s.Parallel? && Settles(s, s')
    requires s.gate.Budget? && s'.Parallel? && s'.gate.RefusesAt? ==> s.gate.cap.Some? && total >= s.gate.cap.value
    ensures s'.Parallel? && RefusedRightly(s, Admitted(s'), total)
  {
  }

  /** A pool on every schedule, whatever its gate and its steps: the first n steps run, each in some settled form;
      every later one returns one skip and reports nothing; and a budget gate refuses only once the cap is reached. */
  lemma RunIsPrefix(s: Step, env: Env, db: bool, cs: seq<Choice>, spent: real) returns (s': Step, n: nat)
    requires s.Parallel? && Finished(RunOf(Start(s, env, db), cs, db, spent).proc)
    ensures Settles(s, s') && s'.Parallel? && |s'.steps| == |s.steps| && n <= |s.steps|
    ensures var r := RunOf(Start(s, env, db), cs, db, spent);
      && RanPrefix(s, s', n, Bind(s.env, env), db, r.trace, Results(r.proc))
      && RefusedRightly(s, n, spent + Cost(r.trace))
  {
    hide *;
    s' := EveryRunSettles(s, env, db, cs, spent);
    SettledShape(s, s');
    n := Admitted(s');
    var r := RunOf(Start(s, env, db), cs, db, spent);
    AgreesWithPrefix(s, s', env, db, r.trace, Results(r.proc));
    RightlyRefused(s, s', spent + Cost(r.trace));
  }

  /** The pool's counts on every schedule of a parallel of bundles. */
  lemma RunAddsUp(s: Step, env: Env, db: bool, cs: seq<Choice>, spent: real)
    requires s.Parallel? && (forall k | k in s.steps :: k.Leaf?)
    requires Finished(RunOf(Start(s, env, db), cs, db, spent).proc)
    ensures var rs := Results(RunOf(Start(s, env, db), cs, db, spent).proc); var t := Tally(rs, 0, -1);
      |rs| == |s.steps| && t.succeeded + t.failed + t.skipped == |s.steps|
  {
    var s' := EveryRunSettles(s, env, db, cs, spent);
    forall k | k in s'.steps ensures k.Leaf? {
      var i :| 0 <= i < |s'.steps| && s'.steps[i] == k;
      assert s.steps[i] in s.steps;
    }
    BundlesAddUp(s', env, db);
    var rs := Results(RunOf(Start(s, env, db), cs, db, spent).proc);
    assert |multiset(rs)| == |rs|;
    TallyAddsUp(rs);
  }
}
