/** waitIdle of internal/codex/adapter.go against what it is meant to detect. */
module CodexIdle {
  import opened Common
  import opened CodexPane

  // One turn of the loop: what the context and the capture said, what the clock
  // showed when it was read, and whether the sleep was cut short.
  datatype Poll = Poll(canceled: bool, capture: Option<Pane>, onChange: int, onQuiet: int, onDeadline: int, sleepCut: bool)

  datatype Signal = PromptMatch | Quiescence | TimedOut | Aborted | StillWaiting

  datatype Setup = Setup(initial: Pane, start: int, timeout: int, window: int, look: Look)

  /* ---- what one poll saw ---- */

  predicate Seen(ps: seq<Poll>, n: nat) { n < |ps| && !ps[n].canceled && ps[n].capture.Some? }

  ghost predicate AllSeen(ps: seq<Poll>, n: nat) { forall k: nat | k < n :: Seen(ps, k) }

  /** Ready for input and not working. */
  predicate Idle(s: Setup, ps: seq<Poll>, n: nat) {
    Seen(ps, n) && Ready(ps[n].capture.value, s.look) && !Busy(ps[n].capture.value, s.look)
  }

  function PaneBefore(s: Setup, ps: seq<Poll>, n: nat): Pane {
    if n == 0 then s.initial else if Seen(ps, n - 1) then ps[n - 1].capture.value else s.initial
  }

  predicate Changed(s: Setup, ps: seq<Poll>, n: nat) {
    Seen(ps, n) && ps[n].capture.value != PaneBefore(s, ps, n)
  }

  /** When the pane last changed, as of poll n. */
  function LastChange(s: Setup, ps: seq<Poll>, n: nat): int {
    if Changed(s, ps, n) then ps[n].onChange else if n == 0 then s.start else LastChange(s, ps, n - 1)
  }

  predicate Quiet(s: Setup, ps: seq<Poll>, n: nat) {
    && Seen(ps, n) && !Busy(ps[n].capture.value, s.look) && ps[n].capture.value != s.initial
    && ps[n].onQuiet - LastChange(s, ps, n) >= s.window
  }

  /** This poll and the one before are idle, after an earlier one that was not. */
  ghost predicate PromptAt(s: Setup, ps: seq<Poll>, n: nat) {
    n >= 1 && Idle(s, ps, n - 1) && Idle(s, ps, n) && exists m: nat :: m < n - 1 && !Idle(s, ps, m)
  }

  /** This poll and the one before are quiet. */
  predicate QuietAt(s: Setup, ps: seq<Poll>, n: nat) {
    n >= 1 && Quiet(s, ps, n - 1) && Quiet(s, ps, n)
  }

  /** How the n-th poll ends the wait, if no earlier one has. */
  ghost function EndAt(s: Setup, ps: seq<Poll>, n: nat): Signal
    requires n < |ps|
  {
    if ps[n].canceled || ps[n].capture.None? then Aborted
    else if PromptAt(s, ps, n) then PromptMatch
    else if QuietAt(s, ps, n) then Quiescence
    else if ps[n].onDeadline > s.start + s.timeout then TimedOut
    else if ps[n].sleepCut then Aborted
    else StillWaiting
  }

  /** The counters after n polls, none of which ended the wait. */
  ghost predicate Counts(s: Setup, ps: seq<Poll>, n: nat, last: Pane, lastChanged: int, promptWasReady: bool, ready: nat, quiet: nat) {
    && last == PaneBefore(s, ps, n)
    && lastChanged == (if n == 0 then s.start else LastChange(s, ps, n - 1))
    && (promptWasReady <==> forall m: nat | m < n :: Idle(s, ps, m))
    && (ready == if n > 0 && Idle(s, ps, n - 1) && (exists m: nat :: m < n - 1 && !Idle(s, ps, m)) then 1 else 0)
    && (quiet == if n > 0 && Quiet(s, ps, n - 1) then 1 else 0)
  }

  /** waitIdle, over the polls the environment offers. It ends at the first poll
      that ends the wait, and with that poll's signal. */
  method WaitIdle(s: Setup, ps: seq<Poll>) returns (signal: Signal, n: nat)
    ensures n <= |ps| && forall k: nat | k < n :: EndAt(s, ps, k) == StillWaiting
    ensures signal == if n < |ps| then EndAt(s, ps, n) else StillWaiting
    ensures n < |ps| ==> signal != StillWaiting
  {
    hide Busy, Ready;
    var last, lastChanged := s.initial, s.start;
    var promptWasReady, consecutiveReady, consecutiveQuiet := true, 0, 0;
    n := 0;
    while n < |ps|
      invariant n <= |ps| && AllSeen(ps, n)
      invariant forall k: nat | k < n :: EndAt(s, ps, k) == StillWaiting
      invariant Counts(s, ps, n, last, lastChanged, promptWasReady, consecutiveReady, consecutiveQuiet)
    {
      if ps[n].canceled || ps[n].capture.None? { return Aborted, n; }
      var pane := ps[n].capture.value;
      if pane != last {
        last := pane;
        lastChanged := ps[n].onChange;
      }
      var busy, ready := Busy(pane, s.look), Ready(pane, s.look);
      if busy {
        promptWasReady := false;
        consecutiveReady := 0;
        consecutiveQuiet := 0;
      } else if ready && !promptWasReady {
        consecutiveReady := consecutiveReady + 1;
        if consecutiveReady >= 2 { return PromptMatch, n; }
      } else if !ready {
        promptWasReady := false;
        consecutiveReady := 0;
      }
      if !busy && pane != s.initial && ps[n].onQuiet - lastChanged >= s.window {
        consecutiveQuiet := consecutiveQuiet + 1;
        if consecutiveQuiet >= 2 { return Quiescence, n; }
      } else {
        consecutiveQuiet := 0;
      }
      if ps[n].onDeadline > s.start + s.timeout { return TimedOut, n; }
      if ps[n].sleepCut { return Aborted, n; }
      assert (forall m: nat | m < n + 1 :: Idle(s, ps, m)) <==> (forall m: nat | m < n :: Idle(s, ps, m)) && Idle(s, ps, n);
      n := n + 1;
    }
    signal := StillWaiting;
  }

  /* ---- what the signals mean ---- */

  /** The pane changed last at poll k. */
  ghost predicate ChangedLast(s: Setup, ps: seq<Poll>, k: nat, n: nat) {
    k <= n && Changed(s, ps, k) && forall j: nat | k < j <= n :: !Changed(s, ps, j)
  }

  lemma {:induction false} LastChangeIsSome(s: Setup, ps: seq<Poll>, n: nat) returns (k: nat)
    requires n < |ps| && AllSeen(ps, n + 1) && Seen(ps, n) && ps[n].capture.value != s.initial
    ensures ChangedLast(s, ps, k, n) && LastChange(s, ps, n) == ps[k].onChange
  {
    if Changed(s, ps, n) {
      k := n;
    } else {
      assert n > 0 && Seen(ps, n - 1);
      k := LastChangeIsSome(s, ps, n - 1);
    }
  }

  /** The clock does not run a whole window between two readings of one poll. */
  predicate Prompt(s: Setup, p: Poll) {
    p.onQuiet - p.onChange < s.window
  }

  lemma {:induction false} SinceChange(s: Setup, ps: seq<Poll>, k: nat, n: nat)
    requires n < |ps| && AllSeen(ps, n + 1) && ChangedLast(s, ps, k, n)
    ensures forall j: nat | k < j <= n :: ps[j].capture == ps[k].capture
  {
    assert Seen(ps, k) && Seen(ps, n);
    if k < n {
      SinceChange(s, ps, k, n - 1);
      assert Seen(ps, n - 1) && !Changed(s, ps, n);
    }
  }

  /** When the wait ends by quiescence, the last two captures are the same, show no
      work, differ from the first pane, and the pane had not changed for the whole
      window - unless reading the pane itself took a window. */
  lemma QuiescenceMeans(s: Setup, ps: seq<Poll>, n: nat) returns (k: nat)
    requires n < |ps| && AllSeen(ps, n + 1) && EndAt(s, ps, n) == Quiescence && Prompt(s, ps[n])
    ensures k < n && ps[n - 1].capture == ps[n].capture != Some(s.initial)
    ensures ps[n].capture.Some? && !Busy(ps[n].capture.value, s.look)
    ensures ps[n].onQuiet - ps[k].onChange >= s.window && Changed(s, ps, k)
    ensures forall j: nat | k < j <= n :: ps[j].capture == ps[k].capture
  {
    hide Busy, Ready;
    assert Quiet(s, ps, n) && Seen(ps, n) && Seen(ps, n - 1);
    k := LastChangeIsSome(s, ps, n);
    SinceChange(s, ps, k, n);
  }

  /** The clock runs forward, and between the two readings of one poll it runs d at most. */
  ghost predicate Timely(s: Setup, ps: seq<Poll>, d: int) {
    forall k: nat | k < |ps| ::
      && (if k == 0 then s.start else ps[k - 1].onDeadline) <= ps[k].onChange <= ps[k].onQuiet <= ps[k].onDeadline
      && ps[k].onQuiet - ps[k].onChange <= d
  }

  /** The wait ends by quiescence, at poll n. */
  ghost predicate EndsQuiet(s: Setup, ps: seq<Poll>, n: nat) {
    n < |ps| && (forall k: nat | k < n :: EndAt(s, ps, k) == StillWaiting) && EndAt(s, ps, n) == Quiescence
  }

  predicate LastTwoSame(ps: seq<Poll>, n: nat) { 1 <= n < |ps| && ps[n - 1].capture == ps[n].capture }

  /** A history that ends by quiescence on two different panes, if one poll may take a window. */
  lemma SlowReadsFoolQuiescence(initial: Pane, window: int, look: Look, d: int, a: Pane, b: Pane)
    returns (s: Setup, ps: seq<Poll>)
    requires a != b && a != initial && b != initial && !Busy(a, look) && !Busy(b, look) && d >= 0 && d >= window
    ensures s.initial == initial && s.window == window && s.look == look
    ensures Timely(s, ps, d) && EndsQuiet(s, ps, 1) && !LastTwoSame(ps, 1)
  {
    hide Busy, Ready;
    s := Setup(initial, 0, d, window, look);
    ps := [Poll(false, Some(a), 0, d, d, false), Poll(false, Some(b), d, d + d, d + d, false)];
    assert LastChange(s, ps, 0) == 0 && LastChange(s, ps, 1) == d;
    assert Quiet(s, ps, 0) && Quiet(s, ps, 1);
    assert EndAt(s, ps, 0) == StillWaiting && EndAt(s, ps, 1) == Quiescence;
  }

  /**
    Exactly when quiescence means that the last two captures are the same, whatever was captured: when no poll takes a
    whole window between its two readings of the clock. In particular it never does when the window is not positive.
  */
  lemma QuiescenceIff(initial: Pane, window: int, look: Look, d: int, a: Pane, b: Pane)
    requires a != b && a != initial && b != initial && !Busy(a, look) && !Busy(b, look) && d >= 0
    ensures (forall s: Setup, ps: seq<Poll>, n: nat |
               s.initial == initial && s.window == window && s.look == look && Timely(s, ps, d) && EndsQuiet(s, ps, n) ::
               LastTwoSame(ps, n))
       <==> d < window
  {
    if d < window {
      forall s: Setup, ps: seq<Poll>, n: nat | s.window == window && Timely(s, ps, d) && EndsQuiet(s, ps, n)
        ensures LastTwoSame(ps, n)
      {
        WaitedPollsSeen(s, ps, n);
        var k := QuiescenceMeans(s, ps, n);
      }
    } else {
      var s, ps := SlowReadsFoolQuiescence(initial, window, look, d, a, b);
    }
  }

  lemma WaitedPollsSeen(s: Setup, ps: seq<Poll>, n: nat)
    requires EndsQuiet(s, ps, n)
    ensures AllSeen(ps, n + 1)
  {
    forall k: nat | k < n + 1 ensures Seen(ps, k) { assert EndAt(s, ps, k) != Aborted; }
  }

  /** The prompt on screen when the wait starts is never taken for the answer. */
  lemma FirstPromptIsIgnored(s: Setup, ps: seq<Poll>, n: nat)
    requires n < |ps| && forall m: nat | m <= n :: Idle(s, ps, m)
    ensures EndAt(s, ps, n) != PromptMatch
  {
  }

  /* ---- the same, said of the captured lines ---- */

  /** The banner, and within the last ten lines that are not blank an input prompt and no sign of work. */
  ghost predicate Awaits(p: Pane, look: Look) {
    look.banner(p) && Near(p, 10, look, look.promptLine) && !Near(p, 10, look, look.busyLine)
  }

  ghost predicate AwaitsAt(s: Setup, ps: seq<Poll>, n: nat) {
    Seen(ps, n) && Awaits(ps[n].capture.value, s.look)
  }

  lemma IdleAwaits(s: Setup, ps: seq<Poll>, n: nat)
    ensures Idle(s, ps, n) <==> AwaitsAt(s, ps, n)
  {
    if Seen(ps, n) { PaneShows(ps[n].capture.value, s.look); }
    hide Busy, Ready;
  }

  /** Exactly when a poll ends the wait by the prompt: its pane and the one before await input, and an earlier one did not. */
  lemma PromptMatchIff(s: Setup, ps: seq<Poll>, n: nat)
    requires n < |ps| && Seen(ps, n)
    ensures EndAt(s, ps, n) == PromptMatch
       <==> n >= 1 && AwaitsAt(s, ps, n - 1) && AwaitsAt(s, ps, n) && exists m: nat :: m < n - 1 && !AwaitsAt(s, ps, m)
  {
    forall m: nat ensures Idle(s, ps, m) <==> AwaitsAt(s, ps, m) { IdleAwaits(s, ps, m); }
    hide Idle, AwaitsAt;
    if n >= 1 {
      if m: nat :| m < n - 1 && !Idle(s, ps, m) { assert !AwaitsAt(s, ps, m); }
      if m: nat :| m < n - 1 && !AwaitsAt(s, ps, m) { assert !Idle(s, ps, m); }
    }
  }

  lemma {:induction false} LastChangeIs(s: Setup, ps: seq<Poll>, k: nat, n: nat)
    requires ChangedLast(s, ps, k, n)
    ensures LastChange(s, ps, n) == ps[k].onChange
    decreases n
  {
    if k < n {
      assert !Changed(s, ps, n);
      LastChangeIs(s, ps, k, n - 1);
    }
  }

  /** A pane that is not the first one, shows no work and has stood still for the window at two polls ends the wait. */
  lemma StillPaneEnds(s: Setup, ps: seq<Poll>, k: nat, n: nat)
    requires 1 <= n < |ps| && AllSeen(ps, n + 1) && k < n && ChangedLast(s, ps, k, n)
    requires ps[k].capture.value != s.initial && !Near(ps[k].capture.value, 10, s.look, s.look.busyLine)
    requires ps[n - 1].onQuiet - ps[k].onChange >= s.window && ps[n].onQuiet - ps[k].onChange >= s.window
    ensures EndAt(s, ps, n) in {PromptMatch, Quiescence}
  {
    hide Busy, Ready;
    assert Seen(ps, k) && Seen(ps, n - 1) && Seen(ps, n);
    assert ChangedLast(s, ps, k, n - 1);
    LastChangeIs(s, ps, k, n);
    LastChangeIs(s, ps, k, n - 1);
    SinceChange(s, ps, k, n);
    PaneShows(ps[k].capture.value, s.look);
    assert ps[n].capture == ps[k].capture && ps[n - 1].capture == ps[k].capture;
    assert Quiet(s, ps, n) && Quiet(s, ps, n - 1);
  }

  /** The other ways to end: the deadline only once it has passed, an abort only when the context or the capture gave out;
      and as long as the wait goes on nothing of the kind has happened. */
  lemma OtherEnds(s: Setup, ps: seq<Poll>, n: nat)
    requires n < |ps|
    ensures EndAt(s, ps, n) == TimedOut ==> ps[n].onDeadline - s.start > s.timeout
    ensures EndAt(s, ps, n) == Aborted ==> ps[n].canceled || ps[n].capture.None? || ps[n].sleepCut
    ensures EndAt(s, ps, n) == StillWaiting ==>
      !ps[n].canceled && ps[n].capture.Some? && !ps[n].sleepCut && ps[n].onDeadline - s.start <= s.timeout
    ensures ps[n].canceled || ps[n].capture.None? ==> EndAt(s, ps, n) == Aborted
  {
    hide PromptAt, QuietAt;
  }
}
