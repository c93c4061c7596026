/** internal/codex/sessionlog_tail.go and sessionlog.go: following a rollout log as
    it grows, and reading it in one go. */
module SessionLog {
  import opened Common

  type Byte = b: int | 0 <= b < 256
  type Bytes = seq<Byte>

  const NEWLINE: Byte := 10

  datatype TokenUsage = TokenUsage(input: int, cached: int, output: int, reasoning: int, total: int)

  const NO_USAGE := TokenUsage(0, 0, 0, 0, 0)

  // What a line's JSON says, as far as either reader cares.
  datatype Record =
    | SessionMeta(id: string)
    | TurnContext(model: string)
    | TaskStarted
    | AgentMessage(message: string)
    | TokenCount(usage: TokenUsage)
    | TaskComplete(durationMs: int)
    | Other

  datatype Emitted =
    | ThreadStarted(id: string)
    | TurnStarted
    | Message(text: string)
    | TurnCompleted(model: string, durationMs: int, input: int, output: int, cached: int)

  // tailState.
  datatype TailState = TailState(model: string, thread: string, usage: TokenUsage)

  const FRESH := TailState("", "", NO_USAGE)

  datatype Translated = Translated(state: TailState, out: Option<Emitted>)

  /** A token_count that carries a total. */
  predicate Carries(u: TokenUsage) { u.total > 0 || u.input > 0 }

  /** translateSessionLine on a decoded line; a line that does not decode is dropped. */
  function Translate(r: Option<Record>, st: TailState): Translated {
    match r
    case Some(SessionMeta(id)) => Translated(st.(thread := id), Some(ThreadStarted(id)))
    case Some(TurnContext(model)) => Translated(if model != "" then st.(model := model) else st, None)
    case Some(TaskStarted) => Translated(st, Some(TurnStarted))
    case Some(AgentMessage(m)) => Translated(st, if m == "" then None else Some(Message(m)))
    case Some(TokenCount(u)) => Translated(if Carries(u) then st.(usage := u) else st, None)
    case Some(TaskComplete(d)) =>
      Translated(st, Some(TurnCompleted(st.model, d, st.usage.input, st.usage.output, st.usage.cached)))
    case _ => Translated(st, None)
  }

  /* ---- lines ---- */

  // A byte stream cut after each newline: the complete lines, and what is left.
  datatype Cut = Cut(lines: seq<Bytes>, rest: Bytes)

  function CutLines(bs: Bytes): Cut {
    if bs == [] then Cut([], [])
    else
      var c := CutLines(bs[..|bs| - 1]);
      var last := bs[|bs| - 1];
      if last == NEWLINE then Cut(c.lines + [c.rest + [last]], []) else Cut(c.lines, c.rest + [last])
  }

  function Glue(lines: seq<Bytes>): Bytes {
    if lines == [] then [] else Glue(lines[..|lines| - 1]) + lines[|lines| - 1]
  }

  predicate IsLine(l: Bytes) {
    l != [] && l[|l| - 1] == NEWLINE && forall i | 0 <= i < |l| - 1 :: l[i] != NEWLINE
  }

  /** Cutting loses, repeats and splits nothing: the pieces glued together are the
      stream, every line ends in its only newline, and what is left has none. */
  lemma {:induction false} CutIsExact(bs: Bytes)
    ensures Glue(CutLines(bs).lines) + CutLines(bs).rest == bs
    ensures forall l | l in CutLines(bs).lines :: IsLine(l)
    ensures NEWLINE !in CutLines(bs).rest
  {
    if bs != [] {
      var n := |bs| - 1;
      var c, last := CutLines(bs[..n]), bs[n];
      CutIsExact(bs[..n]);
      assert bs == bs[..n] + [last];
      if last == NEWLINE {
        assert (c.lines + [c.rest + [last]])[..|c.lines|] == c.lines;
        assert Glue(c.lines + [c.rest + [last]]) == Glue(c.lines) + (c.rest + [last]);
      }
    }
  }

  /** A line without its newline, as both readers hand it to the JSON decoder. */
  function Body(l: Bytes): Bytes {
    if l != [] && l[|l| - 1] == NEWLINE then l[..|l| - 1] else l
  }

  // What the decoder makes of each line; the JSON itself is not part of the model.
  type Decoder = Bytes -> Option<Record>

  /** The translator's state after some lines, and what it emitted. */
  datatype Tailed = Tailed(state: TailState, emitted: seq<Emitted>)

  function TailAll(lines: seq<Bytes>, decode: Decoder): Tailed {
    if lines == [] then Tailed(FRESH, [])
    else
      var n := |lines| - 1;
      var before := TailAll(lines[..n], decode);
      var t := Translate(decode(Body(lines[n])), before.state);
      Tailed(t.state, before.emitted + if t.out.Some? then [t.out.value] else [])
  }

  /** What tailing a stream comes to, whatever the polls were. */
  function TailStream(bs: Bytes, decode: Decoder): Tailed {
    TailAll(CutLines(bs).lines, decode)
  }

  /** TailSessionLog once the file is open. */
  class Tailer {
    const decode: Decoder
    var partial: Bytes
    var state: TailState
    var emitted: seq<Emitted>
    ghost var seen: Bytes // everything read from the file so far

    /** The state is what one pass over the bytes seen so far gives; what is not yet
        a complete line is kept. */
    ghost predicate Valid()
      reads this
    {
      && partial == CutLines(seen).rest
      && Tailed(state, emitted) == TailStream(seen, decode)
    }

    constructor (decode: Decoder)
      ensures Valid() && seen == [] && this.decode == decode && emitted == []
    {
      this.decode := decode;
      partial, state, emitted, seen := [], FRESH, [], [];
    }

    /** One tick: read to the end of what the file holds now, line by line. */
    method Poll(arrived: Bytes)
      requires Valid()
      modifies this
      ensures Valid() && seen == old(seen) + arrived
    {
      var from := 0;
      while from < |arrived|
        invariant from <= |arrived| && Valid() && seen == old(seen) + arrived[..from]
        decreases |arrived| - from
      {
        var to := EndOfChunk(arrived, from);
        var chunk := partial + arrived[from..to];
        assert arrived[..to] == arrived[..from] + arrived[from..to];
        TakeChunk(chunk, arrived[from..to]);
        from := to;
      }
      assert arrived[..from] == arrived;
    }

    /** ReadBytes: up to and including the next newline, or to the end. */
    static method EndOfChunk(arrived: Bytes, from: nat) returns (to: nat)
      requires from < |arrived|
      ensures from < to <= |arrived| && (arrived[to - 1] == NEWLINE || to == |arrived|)
      ensures forall i | from <= i < to - 1 :: arrived[i] != NEWLINE
    {
      to := from + 1;
      while to < |arrived| && arrived[to - 1] != NEWLINE
        invariant from < to <= |arrived| && forall i | from <= i < to - 1 :: arrived[i] != NEWLINE
      {
        to := to + 1;
      }
    }

    method TakeChunk(chunk: Bytes, ghost piece: Bytes)
      requires Valid() && chunk == partial + piece && piece != []
      requires forall i | 0 <= i < |piece| - 1 :: piece[i] != NEWLINE
      modifies this
      ensures Valid() && seen == old(seen) + piece
    {
      CutChunk(seen, piece);
      ghost var before := CutLines(seen).lines;
      if chunk[|chunk| - 1] == NEWLINE {
        TailOne(seen, piece, decode);
        var t := Translate(decode(Body(chunk)), state);
        state := t.state;
        if t.out.Some? { emitted := emitted + [t.out.value]; }
        partial := [];
      } else {
        partial := chunk;
      }
      seen := seen + piece;
    }
  }

  /** A piece with no newline before its last byte completes at most one line. */
  lemma {:induction false} CutChunk(bs: Bytes, piece: Bytes)
    requires piece != [] && forall i | 0 <= i < |piece| - 1 :: piece[i] != NEWLINE
    ensures CutLines(bs + piece) ==
      if piece[|piece| - 1] == NEWLINE then Cut(CutLines(bs).lines + [CutLines(bs).rest + piece], [])
      else Cut(CutLines(bs).lines, CutLines(bs).rest + piece)
    decreases |piece|
  {
    var n := |piece| - 1;
    assert (bs + piece)[..|bs + piece| - 1] == bs + piece[..n] && (bs + piece)[|bs + piece| - 1] == piece[n];
    if n == 0 {
      assert bs + piece[..0] == bs && piece == [piece[0]];
    } else {
      CutChunk(bs, piece[..n]);
      assert CutLines(bs).rest + piece == CutLines(bs).rest + piece[..n] + [piece[n]];
    }
  }

  lemma TailOne(bs: Bytes, piece: Bytes, decode: Decoder)
    requires CutLines(bs + piece) == Cut(CutLines(bs).lines + [CutLines(bs).rest + piece], []) && piece != []
    ensures var t := Translate(decode(Body(CutLines(bs).rest + piece)), TailStream(bs, decode).state);
      TailStream(bs + piece, decode) ==
        Tailed(t.state, TailStream(bs, decode).emitted + if t.out.Some? then [t.out.value] else [])
  {
    var lines := CutLines(bs).lines;
    assert (lines + [CutLines(bs).rest + piece])[..|lines|] == lines;
  }

  /* ---- chunk independence ---- */

  function Concat(pieces: seq<Bytes>): Bytes {
    if pieces == [] then [] else Concat(pieces[..|pieces| - 1]) + pieces[|pieces| - 1]
  }

  /** However the file's bytes are split over the polls, what was emitted is what
      one pass over the complete lines gives, and the rest waits. */
  method TailPolls(pieces: seq<Bytes>, decode: Decoder) returns (emitted: seq<Emitted>, partial: Bytes)
    ensures emitted == TailStream(Concat(pieces), decode).emitted
    ensures partial == CutLines(Concat(pieces)).rest
  {
    var t := new Tailer(decode);
    var i := 0;
    while i < |pieces|
      invariant i <= |pieces| && t.Valid() && t.decode == decode && t.seen == Concat(pieces[..i])
    {
      t.Poll(pieces[i]);
      assert pieces[..i + 1][..i] == pieces[..i];
      i := i + 1;
    }
    assert pieces[..i] == pieces;
    emitted, partial := t.emitted, t.partial;
  }

  /** What was emitted is never taken back: more bytes only add to it. */
  lemma {:induction false} EmittedGrows(bs: Bytes, more: Bytes, decode: Decoder)
    ensures TailStream(bs, decode).emitted <= TailStream(bs + more, decode).emitted
  {
    if more == [] {
      assert bs + more == bs;
    } else {
      var n := |more| - 1;
      EmittedGrows(bs, more[..n], decode);
      assert bs + more == (bs + more[..n]) + [more[n]];
      CutChunk(bs + more[..n], [more[n]]);
      if more[n] == NEWLINE { TailOne(bs + more[..n], [more[n]], decode); }
    }
  }

  /* ---- the one-shot reader ---- */

  datatype SessionStats = SessionStats(session: string, model: string, usage: TokenUsage, found: bool,
                                       turns: nat, durationMs: int, complete: bool)

  const NO_STATS := SessionStats("", "", NO_USAGE, false, 0, 0, false)

  /** One record of ReadSessionStats. */
  function Account(st: SessionStats, r: Option<Record>): SessionStats {
    match r
    case Some(SessionMeta(id)) => st.(session := id)
    case Some(TurnContext(model)) => if model != "" && st.model == "" then st.(model := model) else st
    case Some(TokenCount(u)) =>
      var counted := st.(turns := st.turns + 1);
      if Carries(u) then counted.(usage := u, found := true) else counted
    case Some(TaskComplete(d)) => st.(durationMs := d, complete := true)
    case _ => st
  }

  function StatsOf(lines: seq<Bytes>, decode: Decoder): SessionStats {
    if lines == [] then NO_STATS
    else Account(StatsOf(lines[..|lines| - 1], decode), decode(Body(lines[|lines| - 1])))
  }

  /** ReadSessionStats on a log of complete lines. */
  method ReadSessionStats(lines: seq<Bytes>, decode: Decoder) returns (stats: SessionStats)
    ensures stats == StatsOf(lines, decode)
  {
    stats := NO_STATS;
    var i := 0;
    while i < |lines|
      invariant i <= |lines| && stats == StatsOf(lines[..i], decode)
    {
      assert lines[..i + 1][..i] == lines[..i];
      match decode(Body(lines[i])) {
        case Some(SessionMeta(id)) => stats := stats.(session := id);
        case Some(TurnContext(model)) => if model != "" && stats.model == "" { stats := stats.(model := model); }
        case Some(TokenCount(u)) =>
          stats := stats.(turns := stats.turns + 1);
          if Carries(u) { stats := stats.(usage := u, found := true); }
        case Some(TaskComplete(d)) => stats := stats.(durationMs := d, complete := true);
        case _ =>
      }
      i := i + 1;
    }
    assert lines[..i] == lines;
  }

  /** Both readers hold the same totals and the same session after the same lines. */
  lemma {:induction false} SameTotals(lines: seq<Bytes>, decode: Decoder)
    ensures TailAll(lines, decode).state.usage == StatsOf(lines, decode).usage
    ensures TailAll(lines, decode).state.thread == StatsOf(lines, decode).session
  {
    if lines != [] { SameTotals(lines[..|lines| - 1], decode); }
  }

  /** Each turn.completed the tailer emits carries the token totals and the duration
      the one-shot reader finds in the log up to and including that line. */
  lemma TurnsCarryTotals(lines: seq<Bytes>, n: nat, decode: Decoder)
    requires n < |lines|
    requires decode(Body(lines[n])).Some? && decode(Body(lines[n])).value.TaskComplete?
    ensures var e, st := TailAll(lines[..n + 1], decode).emitted, StatsOf(lines[..n + 1], decode);
      && |e| == |TailAll(lines[..n], decode).emitted| + 1
      && e[|e| - 1].TurnCompleted? && st.complete
      && e[|e| - 1].input == st.usage.input && e[|e| - 1].output == st.usage.output && e[|e| - 1].cached == st.usage.cached
      && e[|e| - 1].durationMs == st.durationMs
  {
    assert lines[..n + 1][..n] == lines[..n];
    SameTotals(lines[..n], decode);
  }

  /** The model names a log gives, in order. */
  function Models(lines: seq<Bytes>, decode: Decoder): seq<string> {
    if lines == [] then []
    else Models(lines[..|lines| - 1], decode) + ModelIn(decode(Body(lines[|lines| - 1])))
  }

  function ModelIn(r: Option<Record>): seq<string> {
    if r.Some? && r.value.TurnContext? && r.value.model != "" then [r.value.model] else []
  }

  // The last of the names and the first, if there are any.
  predicate HeldFrom(ms: seq<string>, last: string, first: string) {
    && last == (if ms == [] then "" else ms[|ms| - 1])
    && first == (if ms == [] then "" else ms[0])
    && "" !in ms
  }

  lemma OneMoreModel(ms: seq<string>, st: TailState, stats: SessionStats, r: Option<Record>)
    requires HeldFrom(ms, st.model, stats.model)
    ensures HeldFrom(ms + ModelIn(r), Translate(r, st).state.model, Account(stats, r).model)
  {
    if ModelIn(r) == [] {
      assert ms + [] == ms;
    } else {
      assert ms != [] ==> ms[0] in ms;
    }
  }

  lemma NoModels(decode: Decoder)
    ensures HeldFrom(Models([], decode), TailAll([], decode).state.model, StatsOf([], decode).model)
  {
  }

  /** The tailer keeps the last of them, the one-shot reader the first. */
  lemma {:induction false} ModelsKept(lines: seq<Bytes>, decode: Decoder)
    ensures HeldFrom(Models(lines, decode), TailAll(lines, decode).state.model, StatsOf(lines, decode).model)
  {
    hide HeldFrom, Translate, Account, ModelIn, Body;
    if lines == [] {
      NoModels(decode);
    } else {
      var n := |lines| - 1;
      ModelsKept(lines[..n], decode);
      OneMoreModel(Models(lines[..n], decode), TailAll(lines[..n], decode).state, StatsOf(lines[..n], decode),
                   decode(Body(lines[n])));
    }
  }

  /** So they agree on the model exactly when the log names none or ends with the one it began with. */
  lemma ModelsAgreeIff(lines: seq<Bytes>, decode: Decoder)
    ensures TailAll(lines, decode).state.model == StatsOf(lines, decode).model
       <==> var ms := Models(lines, decode); ms == [] || ms[0] == ms[|ms| - 1]
  {
    ModelsKept(lines, decode);
  }

  /* ---- what is emitted, told from the log alone ---- */

  function Told(es: seq<Emitted>, pick: Emitted -> bool): seq<Emitted> {
    if es == [] then []
    else Told(es[..|es| - 1], pick) + if pick(es[|es| - 1]) then [es[|es| - 1]] else []
  }

  /** What each line of the log says, one after the other. */
  function Spoken<T>(lines: seq<Bytes>, decode: Decoder, say: Option<Record> -> seq<T>): seq<T> {
    if lines == [] then [] else Spoken(lines[..|lines| - 1], decode, say) + say(decode(Body(lines[|lines| - 1])))
  }

  function SaysMessage(r: Option<Record>): seq<Emitted> {
    if r.Some? && r.value.AgentMessage? && r.value.message != "" then [Message(r.value.message)] else []
  }

  function SaysThread(r: Option<Record>): seq<Emitted> {
    if r.Some? && r.value.SessionMeta? then [ThreadStarted(r.value.id)] else []
  }

  function SaysTurn(r: Option<Record>): seq<Emitted> {
    if r.Some? && r.value.TaskStarted? then [TurnStarted] else []
  }

  /** The token counts that say something, in order: a total or an input above zero. */
  function Usages(lines: seq<Bytes>, decode: Decoder): seq<TokenUsage> {
    if lines == [] then [] else Usages(lines[..|lines| - 1], decode) + UsageIn(decode(Body(lines[|lines| - 1])))
  }

  function UsageIn(r: Option<Record>): seq<TokenUsage> {
    if r.Some? && r.value.TokenCount? && (r.value.usage.total > 0 || r.value.usage.input > 0) then [r.value.usage] else []
  }

  function LastOr<T>(s: seq<T>, other: T): T { if s == [] then other else s[|s| - 1] }

  /** One turn for every task_complete, with the last model and the last token count the lines before it name. */
  function Turns(lines: seq<Bytes>, decode: Decoder): seq<Emitted> {
    if lines == [] then []
    else
      var before, r := lines[..|lines| - 1], decode(Body(lines[|lines| - 1]));
      var u := LastOr(Usages(before, decode), NO_USAGE);
      Turns(before, decode)
      + if r.Some? && r.value.TaskComplete?
        then [TurnCompleted(LastOr(Models(before, decode), ""), r.value.durationMs, u.input, u.output, u.cached)] else []
  }

  predicate IsMessage(e: Emitted) { e.Message? }
  predicate IsThread(e: Emitted) { e.ThreadStarted? }
  predicate IsTurn(e: Emitted) { e.TurnStarted? }
  predicate IsCompletion(e: Emitted) { e.TurnCompleted? }

  function Only(e: Option<Emitted>, pick: Emitted -> bool): seq<Emitted> {
    if e.Some? && pick(e.value) then [e.value] else []
  }

  lemma ToldSnoc(es: seq<Emitted>, e: Option<Emitted>, pick: Emitted -> bool)
    ensures Told(es + if e.Some? then [e.value] else [], pick) == Told(es, pick) + Only(e, pick)
  {
    if e.Some? { assert (es + [e.value])[..|es|] == es; } else { assert es + [] == es; }
  }

  /** What one line adds. */
  lemma ToldNext(lines: seq<Bytes>, decode: Decoder, pick: Emitted -> bool)
    requires lines != []
    ensures var before := TailAll(lines[..|lines| - 1], decode);
      Told(TailAll(lines, decode).emitted, pick)
      == Told(before.emitted, pick) + Only(Translate(decode(Body(lines[|lines| - 1])), before.state).out, pick)
  {
    var before := TailAll(lines[..|lines| - 1], decode);
    ToldSnoc(before.emitted, Translate(decode(Body(lines[|lines| - 1])), before.state).out, pick);
  }

  lemma OneLineTells(r: Option<Record>, st: TailState)
    ensures var out := Translate(r, st).out;
      && Only(out, IsMessage) == SaysMessage(r) && Only(out, IsThread) == SaysThread(r) && Only(out, IsTurn) == SaysTurn(r)
      && Only(out, IsCompletion)
         == if r.Some? && r.value.TaskComplete?
            then [TurnCompleted(st.model, r.value.durationMs, st.usage.input, st.usage.output, st.usage.cached)] else []
  {
  }

  /** The tailer's state is the last model and the last token count of the log. */
  lemma {:induction false} StateIsLast(lines: seq<Bytes>, decode: Decoder)
    ensures TailAll(lines, decode).state.model == LastOr(Models(lines, decode), "")
    ensures TailAll(lines, decode).state.usage == LastOr(Usages(lines, decode), NO_USAGE)
  {
    ModelsKept(lines, decode);
    if lines != [] { StateIsLast(lines[..|lines| - 1], decode); }
  }

  /**
    What the tailer emits, kind by kind and each kind in the order of the log: every agent message that is not empty,
    every session with its id, every turn that starts, and every turn that completes. Since more lines only add to what
    was emitted, applying this to each prefix of the log also fixes the order across the kinds.
  */
  lemma {:induction false} EmittedTells(lines: seq<Bytes>, decode: Decoder)
    ensures var es := TailAll(lines, decode).emitted;
      && Told(es, IsMessage) == Spoken(lines, decode, SaysMessage)
      && Told(es, IsThread) == Spoken(lines, decode, SaysThread)
      && Told(es, IsTurn) == Spoken(lines, decode, SaysTurn)
      && Told(es, IsCompletion) == Turns(lines, decode)
  {
    if lines != [] {
      var before := lines[..|lines| - 1];
      EmittedTells(before, decode);
      StateIsLast(before, decode);
      OneLineTells(decode(Body(lines[|lines| - 1])), TailAll(before, decode).state);
      hide Translate, Only, Body, SaysMessage, SaysThread, SaysTurn;
      ToldNext(lines, decode, IsMessage);
      ToldNext(lines, decode, IsThread);
      ToldNext(lines, decode, IsTurn);
      ToldNext(lines, decode, IsCompletion);
      hide Told, TailAll, LastOr;
    }
  }

  /** How many lines of the log are of a kind. */
  function Lines(lines: seq<Bytes>, decode: Decoder, kind: Record -> bool): nat {
    if lines == [] then 0
    else
      var r := decode(Body(lines[|lines| - 1]));
      Lines(lines[..|lines| - 1], decode, kind) + if r.Some? && kind(r.value) then 1 else 0
  }

  function SessionIn(r: Option<Record>): seq<string> { if r.Some? && r.value.SessionMeta? then [r.value.id] else [] }

  function DurationIn(r: Option<Record>): seq<int> {
    if r.Some? && r.value.TaskComplete? then [r.value.durationMs] else []
  }

  lemma LastOfMore<T>(a: seq<T>, b: seq<T>, other: T)
    ensures LastOr(a + b, other) == LastOr(b, LastOr(a, other))
  {
    if b == [] { assert a + b == a; }
  }

  predicate Counts(r: Record) { r.TokenCount? }
  predicate Ends(r: Record) { r.TaskComplete? }

  lemma OneMoreRecord(st: SessionStats, r: Option<Record>, us: seq<TokenUsage>)
    requires st.usage == LastOr(us, NO_USAGE) && (st.found <==> us != [])
    ensures var st', more := Account(st, r), us + UsageIn(r);
      && st'.session == LastOr(SessionIn(r), st.session) && st'.durationMs == LastOr(DurationIn(r), st.durationMs)
      && st'.usage == LastOr(more, NO_USAGE) && (st'.found <==> more != [])
      && st'.turns == st.turns + (if r.Some? && Counts(r.value) then 1 else 0)
      && (st'.complete <==> st.complete || (r.Some? && Ends(r.value)))
  {
  }

  /** What the one-shot reader reports, told from the log alone. */
  lemma {:induction false} StatsTell(lines: seq<Bytes>, decode: Decoder)
    ensures var st, us := StatsOf(lines, decode), Usages(lines, decode);
      && st.usage == LastOr(us, NO_USAGE) && (st.found <==> us != [])
      && st.turns == Lines(lines, decode, Counts)
      && (st.complete <==> Lines(lines, decode, Ends) > 0)
      && st.session == LastOr(Spoken(lines, decode, SessionIn), "")
      && st.durationMs == LastOr(Spoken(lines, decode, DurationIn), 0)
  {
    hide Account, Counts, Ends, LastOr, UsageIn, SessionIn, DurationIn, Body;
    if lines == [] {
      NothingRead(decode);
    } else {
      var before := lines[..|lines| - 1];
      StatsTell(before, decode);
      var r := decode(Body(lines[|lines| - 1]));
      LastOfMore(Spoken(before, decode, SessionIn), SessionIn(r), "");
      LastOfMore(Spoken(before, decode, DurationIn), DurationIn(r), 0);
      OneMoreRecord(StatsOf(before, decode), decode(Body(lines[|lines| - 1])), Usages(before, decode));
    }
  }

  lemma NothingRead(decode: Decoder)
    ensures StatsOf([], decode) == NO_STATS && Usages([], decode) == [] && LastOr(Usages([], decode), NO_USAGE) == NO_USAGE
    ensures LastOr(Spoken([], decode, SessionIn), "") == "" && LastOr(Spoken([], decode, DurationIn), 0) == 0
  {
  }
}
