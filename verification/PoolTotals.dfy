/** The table's totals agree with the engine's own, on every schedule. */
module PoolTotals {
  import opened Common
  import opened FlowBundle
  import opened FlowMeaning
  import opened FlowMachine
  import opened FlowRefinement
  import opened FlowBrackets
  import opened FlowLaws
  import opened FlowSettling
  import opened PoolTable

  datatype Table = Table(rows: seq<PoolTable.Row>, counts: Counts)

  function Labels(s: Step): seq<string>
    requires !s.Leaf?
  {
    seq(|s.steps|, i requires 0 <= i < |s.steps| => StepName(s.steps[i]))
  }

  /** What the table of a pool does with one reported event: a bundle's event goes
      to the row of its label, a stage's end to all rows. */
  function Tell(live: bool, t: Table, e: Event): Table {
    if e.what.StageEnd? then
      Table(SkipAll(t.rows), t.counts.(skipped := t.counts.skipped + CountQueued(t.rows)))
    else if |e.at| == 1 && e.at[0] < |t.rows| then
      Table(t.rows[e.at[0] := TellRow(live, t.rows[e.at[0]], e.what)], TellCounts(t.counts, e.what))
    else t
  }

  function TellAll(live: bool, labels: seq<string>, es: seq<Event>): Table {
    if es == [] then Table(FreshRows(labels), Counts(0, 0, 0))
    else Tell(live, TellAll(live, labels, es[..|es| - 1]), es[|es| - 1])
  }

  lemma TellNext(live: bool, labels: seq<string>, es: seq<Event>, k: nat)
    requires k < |es|
    ensures TellAll(live, labels, es[..k + 1]) == Tell(live, TellAll(live, labels, es[..k]), es[k])
    ensures TellAll(live, labels, es[..0]) == Table(FreshRows(labels), Counts(0, 0, 0))
  {
    assert es[..k + 1][..k] == es[..k];
  }

  /* ---- rows over a whole run ---- */

  lemma {:induction false} RowCount(live: bool, labels: seq<string>, es: seq<Event>)
    ensures |TellAll(live, labels, es).rows| == |labels|
  {
    if es != [] { RowCount(live, labels, es[..|es| - 1]); }
  }

  // One more event, seen from one row.
  lemma RowNext(live: bool, labels: seq<string>, es: seq<Event>, k: nat, i: nat)
    requires k < |es| && i < |labels|
    ensures |TellAll(live, labels, es[..k]).rows| == |TellAll(live, labels, es[..k + 1]).rows| == |labels|
    ensures var was, now, e := TellAll(live, labels, es[..k]).rows[i], TellAll(live, labels, es[..k + 1]).rows[i], es[k];
      now == if e.what.StageEnd? then SkipQueued(was) else if e.at == [i] then TellRow(live, was, e.what) else was
  {
    RowCount(live, labels, es[..k]);
    RowCount(live, labels, es[..k + 1]);
    TellNext(live, labels, es, k);
    hide TellAll, TellRow, CountQueued;
    assert es[k].at == [i] <==> |es[k].at| == 1 && es[k].at[0] == i;
  }

  /** Whatever is reported, in whatever order: no row's counters ever go down. */
  lemma {:induction false} CountersGrow(live: bool, labels: seq<string>, es: seq<Event>, k: nat, i: nat)
    requires k <= |es| && i < |labels|
    ensures |TellAll(live, labels, es[..k]).rows| == |TellAll(live, labels, es).rows| == |labels|
    ensures var was, now := TellAll(live, labels, es[..k]).rows[i], TellAll(live, labels, es).rows[i];
      was.tokens <= now.tokens && was.turns <= now.turns && was.name == now.name
    decreases |es| - k
  {
    RowCount(live, labels, es);
    RowCount(live, labels, es[..k]);
    if k == |es| {
      assert es[..k] == es;
    } else {
      RowNext(live, labels, es, k, i);
      RowGrows(live, TellAll(live, labels, es[..k]).rows[i], es[k].what);
      CountersGrow(live, labels, es, k + 1, i);
    }
  }

  // What may move a finished row: its bundle ends, or starts its agent while there is no live region.
  predicate Moves(live: bool, w: What) { w.BundleEnd? || (w.AgentExecStart? && !live) }

  /** A finished row stays exactly as it is, whatever progress comes late, until its bundle ends or - where there is no
      live region - starts its agent. */
  lemma {:induction false} FinishedRowStays(live: bool, labels: seq<string>, es: seq<Event>, k: nat, i: nat)
    requires k <= |es| && i < |labels|
    requires |TellAll(live, labels, es[..k]).rows| == |labels| && Terminal(TellAll(live, labels, es[..k]).rows[i].status)
    requires forall n | k <= n < |es| && es[n].at == [i] :: !Moves(live, es[n].what)
    ensures |TellAll(live, labels, es).rows| == |labels|
    ensures TellAll(live, labels, es).rows[i] == TellAll(live, labels, es[..k]).rows[i]
    decreases |es| - k
  {
    if k == |es| {
      assert es[..k] == es;
    } else {
      RowNext(live, labels, es, k, i);
      FinishedRowStays(live, labels, es, k + 1, i);
    }
  }

  function RowAfter(live: bool, row: PoolTable.Row, ws: seq<What>): PoolTable.Row {
    if ws == [] then row else TellRow(live, RowAfter(live, row, ws[..|ws| - 1]), ws[|ws| - 1])
  }

  function CountsAfter(c: Counts, ws: seq<What>): Counts {
    if ws == [] then c else TellCounts(CountsAfter(c, ws[..|ws| - 1]), ws[|ws| - 1])
  }

  function Add(x: Counts, y: Counts): Counts {
    Counts(x.succeeded + y.succeeded, x.failed + y.failed, x.skipped + y.skipped)
  }

  const ZERO := Counts(0, 0, 0)

  /** The bundle ends reported at the addresses [i], [i + 1], ... [n - 1]. */
  function EndsFrom(es: seq<Event>, i: nat, n: nat): Counts
    requires i <= n
    decreases n - i
  {
    if i == n then ZERO else Add(CountsAfter(ZERO, At(es, [i])), EndsFrom(es, i + 1, n))
  }

  lemma AtSnoc(es: seq<Event>, e: Event, a: Addr)
    ensures At(es + [e], a) == At(es, a) + (if e.at == a then [e.what] else [])
  {
    AtConcat(es, [e], a);
    assert [e][1..] == [];
  }

  lemma CountsSnoc(ws: seq<What>, w: What)
    ensures CountsAfter(ZERO, ws + [w]) == TellCounts(CountsAfter(ZERO, ws), w)
  {
    assert (ws + [w])[..|ws|] == ws;
  }

  lemma TellAdds(x: Counts, y: Counts, w: What)
    ensures Add(TellCounts(x, w), y) == Add(x, TellCounts(y, w)) == TellCounts(Add(x, y), w)
  {
  }

  lemma {:induction false} EndsSnoc(es: seq<Event>, e: Event, i: nat, n: nat)
    requires i <= n
    ensures EndsFrom(es + [e], i, n) ==
      if |e.at| == 1 && i <= e.at[0] < n then TellCounts(EndsFrom(es, i, n), e.what) else EndsFrom(es, i, n)
    decreases n - i
  {
    hide At, CountsAfter, TellCounts, Add;
    if i < n {
      EndsSnoc(es, e, i + 1, n);
      AtSnoc(es, e, [i]);
      CountsSnoc(At(es, [i]), e.what);
      TellAdds(CountsAfter(ZERO, At(es, [i])), EndsFrom(es, i + 1, n), e.what);
      assert At(es, [i]) + [] == At(es, [i]);
      assert e.at == [i] <==> |e.at| == 1 && e.at[0] == i;
    }
  }

  lemma RowSnoc(live: bool, row: PoolTable.Row, ws: seq<What>, w: What)
    ensures RowAfter(live, row, ws + [w]) == TellRow(live, RowAfter(live, row, ws), w)
  {
    assert (ws + [w])[..|ws|] == ws;
  }

  /** Before the stage ends, each row knows its own bundle's events and the counts
      are the bundle ends so far. */
  lemma {:induction false} BeforeTheEnd(live: bool, labels: seq<string>, es: seq<Event>)
    requires forall e | e in es :: !e.what.StageEnd? && (|e.at| == 1 ==> e.at[0] < |labels|)
    ensures var t := TellAll(live, labels, es);
      && |t.rows| == |labels|
      && (forall i | 0 <= i < |labels| :: t.rows[i] == RowAfter(live, FreshRows(labels)[i], At(es, [i])))
      && t.counts == EndsFrom(es, 0, |labels|)
  {
    if es == [] {
      NoEnds(0, |labels|);
    } else {
      var n := |es| - 1;
      var e := es[n];
      assert es == es[..n] + [e];
      BeforeTheEnd(live, labels, es[..n]);
      EndsSnoc(es[..n], e, 0, |labels|);
      forall i | 0 <= i < |labels|
        ensures TellAll(live, labels, es).rows[i] == RowAfter(live, FreshRows(labels)[i], At(es, [i]))
      {
        AtSnoc(es[..n], e, [i]);
        RowSnoc(live, FreshRows(labels)[i], At(es[..n], [i]), e.what);
        assert At(es[..n], [i]) + [] == At(es[..n], [i]);
      }
    }
  }

  lemma AtNothing(a: Addr)
    ensures At([], a) == [] && CountsAfter(ZERO, []) == ZERO
  {
  }

  lemma {:induction false} NoEnds(i: nat, n: nat)
    requires i <= n
    ensures EndsFrom([], i, n) == ZERO
    decreases n - i
  {
    hide At, CountsAfter;
    AtNothing([i]);
    if i < n { NoEnds(i + 1, n); }
  }

  /* ---- one bundle ---- */

  lemma {:induction false} NoBundleEnds(ws: seq<What>)
    requires forall w | w in ws :: !w.BundleEnd?
    ensures CountsAfter(ZERO, ws) == ZERO
  {
    if ws != [] { NoBundleEnds(ws[..|ws| - 1]); }
  }

  function OneEnd(st: State): Counts {
    match st
    case Continue => Counts(1, 0, 0)
    case Failed => Counts(0, 1, 0)
    case Skip => Counts(0, 0, 1)
  }

  /** A whole bundle run counts once, by its result, and its row is not queued. */
  lemma BundleCounts(live: bool, row: PoolTable.Row, b: Bundle, env: Env, db: bool)
    ensures CountsAfter(ZERO, BundleTrace(b, env, db)) == OneEnd(BundleResult(b, env, db).flow.state)
    ensures RowAfter(live, row, BundleTrace(b, env, db)).status != Queued
  {
    var t := BundleTrace(b, env, db);
    var n := |t| - 1;
    BundleBrackets(b, env, db, n);
    forall w | w in t[..n] ensures !w.BundleEnd? {
      var k :| 0 <= k < n && t[..n][k] == w;
      BundleBrackets(b, env, db, k);
      assert t[k] == w;
    }
    NoBundleEnds(t[..n]);
  }

  /* ---- the whole pool ---- */

  lemma {:induction false} AtHas(es: seq<Event>, e: Event)
    requires e in es
    ensures e.what in At(es, e.at)
  {
    if es[0] != e { AtHas(es[1..], e); }
  }

  lemma AtSplit(es: seq<Event>, m: nat, a: Addr)
    requires m < |es| && es[m].at == a
    ensures At(es, a) == At(es[..m], a) + [es[m].what] + At(es[m + 1..], a)
  {
    assert es == es[..m] + ([es[m]] + es[m + 1..]);
    AtConcat(es[..m], [es[m]] + es[m + 1..], a);
    AtConcat([es[m]], es[m + 1..], a);
    assert [es[m]][1..] == [];
  }

  /** If the stage at the top reports exactly its start and its end, and everything
      else comes inside, then its end is the last event of all. */
  lemma {:induction false} EndIsLast(es: seq<Event>, start: What, end: What)
    requires At(es, []) == [start, end] && start.StageStart? && end.StageEnd?
    requires forall n: nat | n < |es| && es[n].at != [] :: StartedBefore(es, n, [])
    ensures es != [] && es[|es| - 1] == Event([], end) && At(es[..|es| - 1], []) == [start]
  {
    var n := |es| - 1;
    var top: Addr := [];
    assert es == es[..n] + [es[n]];
    AtSnoc(es[..n], es[n], top);
    hide At;
    if es[n].at != top {
      var m: nat :| m < n && es[m].at == top && es[m].what.StageStart?
        && forall j: nat | m < j < n :: !(es[j].at == top && es[j].what.StageEnd?);
      AtSplit(es, m, top);
      TwoOnly(At(es[..m], top), es[m].what, At(es[m + 1..], top), start, end);
      EndAmong(es, m, end);
    } else {
      TwoOnly(At(es[..n], top), es[n].what, [], start, end);
      assert At(es[..n], top) + [es[n].what] == At(es[..n], top) + [es[n].what] + [];
    }
  }

  lemma TwoOnly(x: seq<What>, w: What, y: seq<What>, a: What, b: What)
    requires x + [w] + y == [a, b]
    ensures (x == [] && w == a && y == [b]) || (x == [a] && w == b && y == [])
  {
    var z := x + [w] + y;
    assert |z| == |x| + 1 + |y| && z[|x|] == w;
    if |x| == 0 {
      assert y == z[1..];
    } else {
      assert x == z[..1];
    }
  }

  /** A start not followed by an end at the top leaves no end to report. */
  lemma {:induction false} EndAmong(es: seq<Event>, m: nat, end: What)
    requires m < |es| && At(es[m + 1..], []) == [end] && end.StageEnd?
    ensures exists j: nat :: m < j < |es| && es[j] == Event([], end)
  {
    var tail := es[m + 1..];
    AtOnly(tail, [], end);
    var k :| 0 <= k < |tail| && tail[k] == Event([], end);
    assert es[m + 1 + k] == Event([], end);
  }

  lemma {:induction false} AtOnly(es: seq<Event>, a: Addr, w: What)
    requires w in At(es, a)
    ensures Event(a, w) in es
  {
    if !(es[0].at == a && es[0].what == w) { AtOnly(es[1..], a, w); }
  }

  ghost predicate BundlePool(s: Step) {
    s.Parallel? && forall k | k in s.steps :: k.Leaf?
  }

  lemma PoolStepAt(s: Step, a: Addr)
    requires BundlePool(s) && a != [] && StepAt(s, a).Some?
    ensures |a| == 1 && a[0] < |s.steps| && StepAt(s, a) == Some(s.steps[a[0]]) && s.steps[a[0]].Leaf?
  {
    assert s.steps[a[0]] in s.steps;
    LeafStepAt(s.steps[a[0]], a[1..]);
  }

  lemma LeafStepAt(k: Step, a: Addr)
    requires k.Leaf? && StepAt(k, a).Some?
    ensures a == []
  {
  }

  lemma BundleNoStageEnd(b: Bundle, env: Env, db: bool, w: What)
    requires w in BundleTrace(b, env, db)
    ensures !w.StageEnd?
  {
    var t := BundleTrace(b, env, db);
    var n :| 0 <= n < |t| && t[n] == w;
    BundleBrackets(b, env, db, n);
  }

  /** In a parallel of bundles only the stage and its bundles report, and only the stage ends. */
  lemma PoolAddress(s: Step, env: Env, db: bool, cs: seq<Choice>, spent: real, e: Event)
    requires BundlePool(s) && Finished(RunOf(Start(s, env, db), cs, db, spent).proc)
    requires e in RunOf(Start(s, env, db), cs, db, spent).trace
    ensures e.at == [] || (|e.at| == 1 && e.at[0] < |s.steps| && !e.what.StageEnd?)
  {
    hide At, RunOf, Start, BundlePool, BundleTrace, StepAt, StageTrace, Finished;
    var tr := RunOf(Start(s, env, db), cs, db, spent).trace;
    PoolIsParallel(s);
    RunLegal(s, env, db, cs, spent, e.at);
    AtHas(tr, e);
    if e.at != [] {
      PoolStepAt(s, e.at);
      var b := s.steps[e.at[0]].bundle;
      var env' :| At(tr, e.at) == BundleTrace(b, env', db);
      BundleNoStageEnd(b, env', db, e.what);
    }
  }

  lemma PoolIsParallel(s: Step)
    requires BundlePool(s)
    ensures s.Parallel?
  {
  }

  function CountsOf(rs: seq<Result>): Counts {
    Counts(CountState(rs, Continue), CountState(rs, Failed), CountState(rs, Skip))
  }

  lemma {:induction false} CountsConcat(x: seq<Result>, y: seq<Result>)
    ensures CountsOf(x + y) == Add(CountsOf(x), CountsOf(y))
  {
    hide CountState;
    CountConcatState(x, y, Continue);
    CountConcatState(x, y, Failed);
    CountConcatState(x, y, Skip);
  }

  /** What a bundle pool's trace says at each bundle. */
  ghost predicate Told(s: Step, env: Env, db: bool, es: seq<Event>)
    requires BundlePool(s)
  {
    forall i | 0 <= i < |s.steps| ::
      At(es, [i]) == if i < Admitted(s) then BundleTrace(s.steps[i].bundle, env, db) else []
  }

  lemma ToldAt(s: Step, env: Env, db: bool, es: seq<Event>, i: nat)
    requires BundlePool(s) && Told(s, env, db, es) && i < |s.steps|
    ensures s.steps[i].Leaf? && At(es, [i]) == if i < Admitted(s) then BundleTrace(s.steps[i].bundle, env, db) else []
  {
    assert s.steps[i] in s.steps;
  }

  lemma OneMoreResult(s: Step, env: Env, db: bool, i: nat)
    requires BundlePool(s) && i < Admitted(s)
    ensures var r := BundleResult(s.steps[i].bundle, env, db);
      CountsOf(ResultsOf(s, i, Admitted(s), env, db)) == Add(OneEnd(r.flow.state), CountsOf(ResultsOf(s, i + 1, Admitted(s), env, db)))
  {
    var r := BundleResult(s.steps[i].bundle, env, db);
    assert s.steps[i] in s.steps && s.steps[i] == Leaf(s.steps[i].bundle);
    assert ResultsOf(s, i, Admitted(s), env, db) == [r] + ResultsOf(s, i + 1, Admitted(s), env, db);
    CountsConcat([r], ResultsOf(s, i + 1, Admitted(s), env, db));
    OneResult(r);
  }

  /** The bundle ends from the i-th bundle on are the results of the admitted ones. */
  lemma {:induction false} EndsAreResults(s: Step, env: Env, db: bool, es: seq<Event>, i: nat)
    requires BundlePool(s) && Told(s, env, db, es) && i <= |s.steps|
    ensures EndsFrom(es, i, |s.steps|) == if i <= Admitted(s) then CountsOf(ResultsOf(s, i, Admitted(s), env, db)) else ZERO
    decreases |s.steps| - i
  {
    hide At, CountState, CountsAfter, BundleResult, BundleTrace, CountsOf, BundlePool, Told, RowAfter;
    NoResults();
    AtNothing([i]);
    PoolIsParallel(s);
    if i < |s.steps| {
      ToldAt(s, env, db, es, i);
      EndsAreResults(s, env, db, es, i + 1);
      if i < Admitted(s) {
        BundleCounts(true, Row.Row("", Queued, 0, 0), s.steps[i].bundle, env, db);
        OneMoreResult(s, env, db, i);
      }
    }
  }

  lemma OneResult(r: Result)
    ensures CountsOf([r]) == OneEnd(r.flow.state)
  {
    assert [r][1..] == [] && [r][0] == r;
    assert forall st :: CountState([r][1..], st) == 0;
    assert forall st :: CountState([r], st) == if r.flow.state == st then 1 else 0;
  }

  lemma NoResults()
    ensures CountsOf([]) == ZERO
  {
  }

  lemma {:induction false} RefusalsSkip(s: Step, i: nat, env: Env)
    requires !s.Leaf? && i <= |s.steps|
    ensures CountsOf(Refusals(s, i, env)) == Counts(0, 0, |s.steps| - i)
    decreases |s.steps| - i
  {
    if i < |s.steps| {
      RefusalsSkip(s, i + 1, env);
      CountsConcat([Refused(s.steps[i], env)], Refusals(s, i + 1, env));
      OneResult(Refused(s.steps[i], env));
    }
  }

  lemma {:induction false} QueuedFrom(rows: seq<PoolTable.Row>, k: nat)
    requires k <= |rows| && forall i | 0 <= i < |rows| :: rows[i].status == Queued <==> i >= k
    ensures CountQueued(rows) == |rows| - k
  {
    if rows != [] && |rows| > k {
      QueuedFrom(rows[..|rows| - 1], k);
    } else if rows != [] {
      QueuedFrom(rows[..|rows| - 1], k - 1);
    }
  }

  /** The table before the stage ends: one counted end per admitted bundle, and the
      refused ones still queued. */
  lemma TableBeforeEnd(s: Step, env: Env, db: bool, live: bool, es: seq<Event>)
    requires BundlePool(s) && Told(s, env, db, es)
    requires forall e | e in es :: !e.what.StageEnd? && (|e.at| == 1 ==> e.at[0] < |s.steps|)
    ensures var t := TellAll(live, Labels(s), es);
      && |t.rows| == |s.steps|
      && t.counts == CountsOf(ResultsOf(s, 0, Admitted(s), env, db))
      && CountQueued(t.rows) == |s.steps| - Admitted(s)
  {
    var t, labels := TellAll(live, Labels(s), es), Labels(s);
    BeforeTheEnd(live, labels, es);
    EndsAreResults(s, env, db, es, 0);
    hide At, TellAll, EndsFrom, CountsOf, BundleTrace;
    forall i | 0 <= i < |t.rows| ensures t.rows[i].status == Queued <==> i >= Admitted(s) {
      if i < Admitted(s) { BundleCounts(live, FreshRows(labels)[i], s.steps[i].bundle, env, db); }
    }
    QueuedFrom(t.rows, Admitted(s));
  }

  /** On every schedule of a parallel of bundles, the table ends with exactly the
      counts the engine reports in its StageEnd, they add up to the number of
      rows, and the run ends with that StageEnd. */
  lemma TotalsAgree(s: Step, env: Env, db: bool, cs: seq<Choice>, spent: real, live: bool)
    requires BundlePool(s) && Finished(RunOf(Start(s, env, db), cs, db, spent).proc)
    ensures var tr := RunOf(Start(s, env, db), cs, db, spent).trace;
      var o := Tally(Results(RunOf(Start(s, env, db), cs, db, spent).proc), 0, -1);
      var t := TellAll(live, Labels(s), tr);
      && tr != [] && tr[|tr| - 1] == Event([], StageEnd(o))
      && t.counts == Counts(o.succeeded, o.failed, o.skipped)
      && |t.rows| == |s.steps| == o.succeeded + o.failed + o.skipped
  {
    hide RunOf, Start, At, Meaning, Tally, TellAll, BundleTrace, StartedBefore, Results, Finished, BundlePool, Labels, Settles, Agree;
    PoolIsParallel(s);
    var run := RunOf(Start(s, env, db), cs, db, spent);
    var s' := EveryRunSettles(s, env, db, cs, spent);
    SettledPool(s, s');
    var tr, rs, m := run.trace, Results(run.proc), Meaning(s', env, db);
    Agrees(m, Outcome(tr, rs));
    TallyBag(m.results, rs, 0, -1);
    forall x | x in tr ensures x.at == [] || (|x.at| == 1 && x.at[0] < |s.steps| && !x.what.StageEnd?) {
      PoolAddress(s, env, db, cs, spent, x);
    }
    forall n: nat | n < |tr| && tr[n].at != [] ensures StartedBefore(tr, n, []) {
      StagesBracket(s, env, db, cs, spent, n, 0);
    }
    ParallelLaw(s', env, db, 0, []);
    PoolAddsUp(s, env, db, cs, spent);
    hide ResultsOf, Refusals, CountState, HasError;
    EndIsLast(tr, StageStart(StageParallel, s.name, |s.steps|), StageEnd(Tally(m.results, 0, -1)));
    PoolEnds(s', env, db, live, tr, m);
  }

  /** Settling a pool of bundles changes its gate at most. */
  lemma SettledPool(s: Step, s': Step)
    requires BundlePool(s) && Settles(s, s')
    ensures BundlePool(s') && s'.name == s.name && s'.env == s.env && s'.steps == s.steps && Labels(s') == Labels(s)
  {
    forall i | 0 <= i < |s.steps| ensures s'.steps[i] == s.steps[i] { assert s.steps[i] in s.steps; }
  }

  lemma PoolAddsUp(s: Step, env: Env, db: bool, cs: seq<Choice>, spent: real)
    requires BundlePool(s) && Finished(RunOf(Start(s, env, db), cs, db, spent).proc)
    ensures var o := Tally(Results(RunOf(Start(s, env, db), cs, db, spent).proc), 0, -1);
      o.succeeded + o.failed + o.skipped == |s.steps|
  {
    RunAddsUp(s, env, db, cs, spent);
  }

  lemma PoolEnds(s: Step, env: Env, db: bool, live: bool, tr: seq<Event>, m: Outcome)
    requires BundlePool(s) && m == Meaning(s, env, db) && (forall a :: At(tr, a) == At(m.trace, a))
    requires forall x | x in tr :: x.at == [] || (|x.at| == 1 && x.at[0] < |s.steps| && !x.what.StageEnd?)
    requires tr != [] && tr[|tr| - 1] == Event([], StageEnd(Tally(m.results, 0, -1)))
    requires At(tr[..|tr| - 1], []) == [StageStart(StageParallel, s.name, |s.steps|)]
    ensures var t, o := TellAll(live, Labels(s), tr), Tally(m.results, 0, -1);
      |t.rows| == |s.steps| && t.counts == Counts(o.succeeded, o.failed, o.skipped)
  {
    hide At, Meaning, Tally, TellAll, BundlePool, Told, ResultsOf;
    PoolIsParallel(s);
    PoolTold(s, env, db, tr, m);
    var pre := tr[..|tr| - 1];
    OnlyEndEnds(pre, StageStart(StageParallel, s.name, |s.steps|));
    TableBeforeEnd(s, Bind(s.env, env), db, live, pre);
    EndCounts(s, env, db, live, tr, m);
  }

  lemma {:induction false} PoolTold(s: Step, env: Env, db: bool, tr: seq<Event>, m: Outcome)
    requires BundlePool(s) && m == Meaning(s, env, db) && (forall a :: At(tr, a) == At(m.trace, a))
    requires tr != [] && tr[|tr| - 1].at == []
    ensures Told(s, Bind(s.env, env), db, tr[..|tr| - 1])
  {
    var e, n := Bind(s.env, env), |tr| - 1;
    forall i | 0 <= i < |s.steps|
      ensures At(tr[..n], [i]) == if i < Admitted(s) then BundleTrace(s.steps[i].bundle, e, db) else []
    {
      assert tr == tr[..n] + [tr[n]];
      AtSnoc(tr[..n], tr[n], [i]);
      assert At(tr[..n], [i]) + [] == At(tr[..n], [i]);
      ParallelLaw(s, env, db, i, []);
      assert [i] + [] == [i];
      if i < Admitted(s) {
        assert s.steps[i] in s.steps && s.steps[i] == Leaf(s.steps[i].bundle);
        AtTag(BundleTrace(s.steps[i].bundle, e, db), []);
      }
    }
  }

  lemma {:induction false} OnlyEndEnds(es: seq<Event>, start: What)
    requires start.StageStart? && At(es, []) == [start]
    ensures forall x | x in es && x.at == [] :: !x.what.StageEnd?
  {
    forall x | x in es && x.at == [] ensures !x.what.StageEnd? { AtHas(es, x); }
  }

  lemma EndCounts(s: Step, env: Env, db: bool, live: bool, tr: seq<Event>, m: Outcome)
    requires BundlePool(s) && m == Meaning(s, env, db) && tr != []
    requires tr[|tr| - 1] == Event([], StageEnd(Tally(m.results, 0, -1)))
    requires var t := TellAll(live, Labels(s), tr[..|tr| - 1]);
      && |t.rows| == |s.steps| && t.counts == CountsOf(ResultsOf(s, 0, Admitted(s), Bind(s.env, env), db))
      && CountQueued(t.rows) == |s.steps| - Admitted(s)
    ensures var t, o := TellAll(live, Labels(s), tr), Tally(m.results, 0, -1);
      |t.rows| == |s.steps| && t.counts == Counts(o.succeeded, o.failed, o.skipped)
  {
    var e, k := Bind(s.env, env), Admitted(s);
    ParallelLaw(s, env, db, 0, []);
    CountsConcat(ResultsOf(s, 0, k, e, db), Refusals(s, k, e));
    RefusalsSkip(s, k, e);
    hide Meaning, ResultsOf, Refusals, At, CountState, CountQueued;
    NothingSkipped(TellAll(live, Labels(s), tr[..|tr| - 1]).rows);
  }

  /** One event of a run, under its bundle's name. */
  method FollowOne(t: TableReporter, s: Step, e: Event)
    requires t.Valid() && !s.Leaf? && t.labels == Labels(s) && Unique(Labels(s))
    modifies t
    ensures t.Valid() && Table(t.rows, t.counts) == Tell(t.live, old(Table(t.rows, t.counts)), e)
  {
    hide FreshRows, SkipAll, CountQueued, TellRow, TellCounts, TellAll;
    if e.what.StageEnd? {
      t.StageEnd();
    } else if |e.at| == 1 && e.at[0] < |s.steps| {
      var name := StepName(s.steps[e.at[0]]);
      assert t.labels[e.at[0]] == name && name in t.index && t.index[name] == e.at[0];
      t.BundleEvent(name, e.what);
    }
  }

  /** The reporter's methods, fed a run's events under the bundles' names, do what
      the table's description says. */
  method Follow(t: TableReporter, s: Step, es: seq<Event>)
    requires t.Valid() && !s.Leaf? && t.labels == Labels(s) && Unique(Labels(s))
    requires t.rows == FreshRows(Labels(s)) && t.counts == ZERO
    modifies t
    ensures Table(t.rows, t.counts) == TellAll(t.live, Labels(s), es)
  {
    assert TellAll(t.live, Labels(s), []) == Table(FreshRows(Labels(s)), ZERO) && es[..0] == [];
    hide *;
    for k := 0 to |es|
      invariant t.Valid() && Table(t.rows, t.counts) == TellAll(t.live, Labels(s), es[..k])
    {
      TellNext(t.live, Labels(s), es, k);
      FollowOne(t, s, es[k]);
    }
    assert es[..|es|] == es;
  }
}
