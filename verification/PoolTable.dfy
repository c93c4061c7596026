/** cmd/pool_status.go and cmd/table_reporter.go: the live table of a pool. */
module PoolTable {
  import opened Common
  import opened FlowBundle
  import opened FlowMeaning

  datatype Status = Queued | InProgress | Done | Errored | Skipped | Canceled

  datatype Row = Row(name: string, status: Status, tokens: nat, turns: nat)

  datatype Counts = Counts(succeeded: nat, failed: nat, skipped: nat)

  /** poolStatusTerminal: a skipped row is not terminal. */
  predicate Terminal(s: Status) { s in {Done, Errored, Canceled} }

  function Max(a: nat, b: nat): nat { if a < b then b else a }

  /** nextPoolStatusRow. */
  function NextRow(row: Row, p: Progress): Row {
    if Terminal(row.status) then row
    else
      var status := match p.phase
        case PhaseDone => Done
        case PhaseError => Errored
        case _ => InProgress;
      row.(status := status, tokens := Max(row.tokens, p.tokens), turns := Max(row.turns, p.turns))
  }

  /** finalizedPoolStatusRow; a result without a summary counts as an empty one. */
  function Finalized(row: Row, summary: Option<Usage>, status: Status): Row {
    var u := if summary.Some? then summary.value else Usage(0, 0);
    row.(status := status, tokens := Max(row.tokens, u.tokens), turns := Max(row.turns, u.turns))
  }

  function EndStatus(st: State): Status {
    match st
    case Skip => Skipped
    case Failed => Errored
    case Continue => Done
  }

  /** What one bundle event does to the bundle's row. Without a live region the
      row is also marked running when the agent is about to start. */
  function TellRow(live: bool, row: Row, w: What): Row {
    match w
    case AgentExecStart => if live then row else row.(status := InProgress)
    case AgentEvent(p) => NextRow(row, p)
    case BundleEnd(r) => Finalized(row, r.summary, EndStatus(r.flow.state))
    case _ => row
  }

  function TellCounts(c: Counts, w: What): Counts {
    if !w.BundleEnd? then c
    else
      match w.result.flow.state
      case Skip => c.(skipped := c.skipped + 1)
      case Failed => c.(failed := c.failed + 1)
      case Continue => c.(succeeded := c.succeeded + 1)
  }

  function CountQueued(rows: seq<Row>): nat {
    if rows == [] then 0 else CountQueued(rows[..|rows| - 1]) + if rows[|rows| - 1].status == Queued then 1 else 0
  }

  function SkipQueued(row: Row): Row {
    if row.status == Queued then row.(status := Skipped) else row
  }

  function SkipAll(rows: seq<Row>): seq<Row> {
    seq(|rows|, i requires 0 <= i < |rows| => SkipQueued(rows[i]))
  }

  function FreshRows(labels: seq<string>): seq<Row> {
    seq(|labels|, i requires 0 <= i < |labels| => Row.Row(labels[i], Queued, 0, 0))
  }

  ghost predicate Unique(labels: seq<string>) {
    forall i, j | 0 <= i < j < |labels| :: labels[i] != labels[j]
  }

  /** tableReporter. */
  class TableReporter {
    const live: bool
    const labels: seq<string>
    var rows: seq<Row>
    var index: map<string, nat>
    var counts: Counts

    /** Every row belongs to its label; a label finds its last row. */
    ghost predicate Valid()
      reads this
    {
      && |rows| == |labels|
      && (forall i | 0 <= i < |rows| :: rows[i].name == labels[i] && labels[i] in index)
      && (forall l | l in index :: index[l] < |labels| && labels[index[l]] == l)
      && (forall l, i | l in index && 0 <= i < |labels| && labels[i] == l :: i <= index[l])
    }

    /** newPoolStatusRows. */
    constructor (labels: seq<string>, live: bool)
      ensures Valid() && this.labels == labels && this.live == live
      ensures rows == FreshRows(labels) && counts == Counts(0, 0, 0)
    {
      this.labels, this.live := labels, live;
      counts := Counts(0, 0, 0);
      rows := [];
      index := map[];
      new;
      var i := 0;
      while i < |labels|
        invariant i <= |labels| && this.labels == labels && counts == Counts(0, 0, 0)
        invariant rows == FreshRows(labels[..i])
        invariant forall k | 0 <= k < i :: labels[k] in index
        invariant forall l | l in index :: index[l] < i && labels[index[l]] == l
        invariant forall l, k | l in index && 0 <= k < i && labels[k] == l :: k <= index[l]
      {
        index := index[labels[i] := i];
        rows := rows + [Row.Row(labels[i], Queued, 0, 0)];
        i := i + 1;
      }
      assert labels[..i] == labels;
    }

    /** Any event of a bundle: its row changes, no other; a bundle the table does
        not know changes nothing. */
    method BundleEvent(name: string, w: What)
      requires Valid() && !w.StageEnd?
      modifies this`rows, this`counts
      ensures Valid()
      ensures name !in index ==> rows == old(rows) && counts == old(counts)
      ensures name in index ==>
        rows == old(rows)[index[name] := TellRow(live, old(rows)[index[name]], w)] && counts == TellCounts(old(counts), w)
    {
      if name !in index { return; }
      var i := index[name];
      match w
      case AgentExecStart =>
        if !live { rows := rows[i := rows[i].(status := InProgress)]; }
      case AgentEvent(p) =>
        rows := rows[i := NextRow(rows[i], p)];
      case BundleEnd(r) =>
        match r.flow.state {
          case Skip =>
            rows := rows[i := Finalized(rows[i], r.summary, Skipped)];
            counts := counts.(skipped := counts.skipped + 1);
          case Failed =>
            rows := rows[i := Finalized(rows[i], r.summary, Errored)];
            counts := counts.(failed := counts.failed + 1);
          case Continue =>
            rows := rows[i := Finalized(rows[i], r.summary, Done)];
            counts := counts.(succeeded := counts.succeeded + 1);
        }
      case _ =>
    }

    /** StageEnd: rows still queued are counted as skipped, once. */
    method StageEnd()
      requires Valid()
      modifies this`rows, this`counts
      ensures Valid()
      ensures rows == SkipAll(old(rows)) && counts == old(counts).(skipped := old(counts).skipped + CountQueued(old(rows)))
    {
      var updated, skipped := MarkQueued(rows, counts.skipped);
      NothingSkipped(rows);
      hide SkipAll, CountQueued;
      rows, counts := updated, counts.(skipped := skipped);
    }

    static method MarkQueued(before: seq<Row>, skipped0: nat) returns (rows: seq<Row>, skipped: nat)
      ensures rows == SkipAll(before) && skipped == skipped0 + CountQueued(before)
    {
      hide SkipAll, CountQueued;
      rows, skipped := before, skipped0;
      var i := 0;
      NothingSkipped(before);
      while i < |before|
        invariant i <= |before| && rows == SkipAll(before[..i]) + before[i..] && |rows| == |before|
        invariant skipped == skipped0 + CountQueued(before[..i])
      {
        SkipOneMore(before, i);
        if rows[i].status == Queued {
          rows := rows[i := rows[i].(status := Skipped)];
          skipped := skipped + 1;
        } else {
          assert rows[i := rows[i]] == rows;
        }
        i := i + 1;
      }
      assert before[..i] == before;
    }
  }

  lemma NothingSkipped(rows: seq<Row>)
    ensures SkipAll(rows[..0]) + rows[0..] == rows && CountQueued(rows[..0]) == 0
    ensures SkipAll(rows) + rows[|rows|..] == SkipAll(rows) && |SkipAll(rows)| == |rows|
    ensures forall i | 0 <= i < |rows| :: SkipAll(rows)[i].name == rows[i].name
  {
  }

  lemma SkipOneMore(rows: seq<Row>, i: nat)
    requires i < |rows|
    ensures SkipAll(rows[..i + 1]) == SkipAll(rows[..i]) + [SkipQueued(rows[i])]
    ensures CountQueued(rows[..i + 1]) == CountQueued(rows[..i]) + if rows[i].status == Queued then 1 else 0
    ensures |SkipAll(rows[..i])| == i && |SkipAll(rows[..i + 1])| == i + 1
    ensures (SkipAll(rows[..i]) + rows[i..])[i] == rows[i]
    ensures (SkipAll(rows[..i]) + rows[i..])[i := SkipQueued(rows[i])] == SkipAll(rows[..i + 1]) + rows[i + 1..]
  {
    assert rows[..i + 1][..i] == rows[..i];
    assert SkipAll(rows[..i + 1]) == SkipAll(rows[..i]) + [SkipQueued(rows[i])];
    assert |SkipAll(rows[..i])| == i;
    hide SkipAll, SkipQueued, CountQueued;
    assert rows[i..] == [rows[i]] + rows[i + 1..];
    ReplaceMiddle(SkipAll(rows[..i]), rows[i], SkipQueued(rows[i]), rows[i + 1..]);
  }

  lemma ReplaceMiddle(x: seq<Row>, was: Row, now: Row, y: seq<Row>)
    ensures (x + ([was] + y))[|x|] == was && (x + ([was] + y))[|x| := now] == (x + [now]) + y
  {
  }

  /* ---- what no event does ---- */

  // One event: counters never go down, and a finished row ignores progress.
  lemma RowGrows(live: bool, row: Row, w: What)
    ensures var r := TellRow(live, row, w);
      && row.tokens <= r.tokens && row.turns <= r.turns && r.name == row.name
      && (Terminal(row.status) && w.AgentEvent? ==> r == row)
      && (w.BundleEnd? ==> r.status == EndStatus(w.result.flow.state))
      && (r.status == Queued ==> row.status == Queued)
    ensures SkipQueued(row).tokens == row.tokens && SkipQueued(row).turns == row.turns
  {
  }

  /* ---- what a row shows ---- */

  predicate Runs(p: Progress) { !p.phase.PhaseDone? && !p.phase.PhaseError? }

  function Follow(row: Row, ps: seq<Progress>): Row {
    if ps == [] then row else NextRow(Follow(row, ps[..|ps| - 1]), ps[|ps| - 1])
  }

  function Peak(ps: seq<Progress>, of: Progress -> nat): nat {
    if ps == [] then 0
    else var before, last := Peak(ps[..|ps| - 1], of), of(ps[|ps| - 1]); if before < last then last else before
  }

  function Tokens(p: Progress): nat { p.tokens }
  function Turns(p: Progress): nat { p.turns }

  /** While a bundle runs its row says so, with the most tokens and turns reported; the first report of an end decides
      the row, whatever is reported after it. */
  lemma {:induction false} RowFollows(name: string, ps: seq<Progress>)
    requires forall p | p in ps :: Runs(p)
    ensures Follow(Row.Row(name, Queued, 0, 0), ps)
         == Row.Row(name, if ps == [] then Queued else InProgress, Peak(ps, Tokens), Peak(ps, Turns))
  {
    if ps != [] {
      assert ps[|ps| - 1] in ps && forall p | p in ps[..|ps| - 1] :: p in ps;
      RowFollows(name, ps[..|ps| - 1]);
    }
  }

  lemma {:induction false} FirstEndDecides(row: Row, p: Progress, rest: seq<Progress>)
    requires row.status == Queued || row.status == InProgress
    requires !Runs(p)
    ensures var r := Follow(row, [p] + rest);
      && r.name == row.name && r.status == (if p.phase.PhaseDone? then Done else Errored)
      && r.tokens == (if row.tokens < p.tokens then p.tokens else row.tokens)
      && r.turns == (if row.turns < p.turns then p.turns else row.turns)
  {
    if rest == [] {
      assert ([p] + rest)[..0] == [] && ([p] + rest)[0] == p;
    } else {
      var n := |rest| - 1;
      assert ([p] + rest)[..n + 1] == [p] + rest[..n];
      FirstEndDecides(row, p, rest[..n]);
    }
  }

  /** The bundle's result has the last word on the status, and can only add to the counts. */
  lemma ResultDecides(live: bool, row: Row, r: Result)
    ensures var end := TellRow(live, row, BundleEnd(r));
      && end.name == row.name
      && (end.status == Done <==> r.flow.state == Continue) && (end.status == Errored <==> r.flow.state == Failed)
      && (end.status == Skipped <==> r.flow.state == Skip)
      && (r.summary.None? ==> end.tokens == row.tokens && end.turns == row.turns)
      && (r.summary.Some? ==> end.tokens == (if row.tokens < r.summary.value.tokens then r.summary.value.tokens else row.tokens)
                              && end.turns == (if row.turns < r.summary.value.turns then r.summary.value.turns else row.turns))
  {
  }
}
