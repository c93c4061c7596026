/** internal/codex/adapter.go: reading a captured pane. */
module CodexPane {

  type Pane = seq<string>

  // How a rendered line looks; the patterns themselves are not part of the model.
  datatype Look = Look(blank: string -> bool, busyLine: string -> bool, promptLine: string -> bool, banner: Pane -> bool)

  const SCAN: nat := 10

  function NonEmpty(p: Pane, look: Look): seq<string> {
    if p == [] then []
    else NonEmpty(p[..|p| - 1], look) + if look.blank(p[|p| - 1]) then [] else [p[|p| - 1]]
  }

  function Last(s: seq<string>, n: nat): seq<string> {
    if |s| <= n then s else s[|s| - n..]
  }

  function Tail(p: Pane, n: nat, look: Look): seq<string> { Last(NonEmpty(p, look), n) }

  /** nonEmptyTail. */
  method NonEmptyTail(p: Pane, n: nat, look: Look) returns (lines: seq<string>)
    ensures lines == Tail(p, n, look)
  {
    lines := [];
    var i := 0;
    while i < |p|
      invariant i <= |p| && lines == NonEmpty(p[..i], look)
    {
      assert p[..i + 1][..i] == p[..i];
      if !look.blank(p[i]) { lines := lines + [p[i]]; }
      i := i + 1;
    }
    assert p[..i] == p;
    if |lines| > n { lines := lines[|lines| - n..]; }
  }

  /** CodexBusy: a busy marker near the bottom. */
  predicate Busy(p: Pane, look: Look) {
    exists i | 0 <= i < |Tail(p, SCAN, look)| :: look.busyLine(Tail(p, SCAN, look)[i])
  }

  /** PromptReady: the banner anywhere, and the input prompt near the bottom. */
  predicate Ready(p: Pane, look: Look) {
    look.banner(p) && exists i | 0 <= i < |Tail(p, SCAN, look)| :: look.promptLine(Tail(p, SCAN, look)[i])
  }

  lemma {:induction false} NonEmptyConcat(a: Pane, b: Pane, look: Look)
    ensures NonEmpty(a + b, look) == NonEmpty(a, look) + NonEmpty(b, look)
  {
    if b == [] {
      assert a + b == a;
    } else {
      var n := |b| - 1;
      assert (a + b)[..|a + b| - 1] == a + b[..n] && (a + b)[|a + b| - 1] == b[n];
      NonEmptyConcat(a, b[..n], look);
    }
  }

  /** Scrollback does not matter: once the bottom holds ten lines that are not
      blank, nothing above it makes the pane look busy, or stops it from doing so. */
  lemma ScrollbackIsIgnored(above: Pane, below: Pane, look: Look)
    requires |NonEmpty(below, look)| >= SCAN
    ensures Tail(above + below, SCAN, look) == Tail(below, SCAN, look)
    ensures Busy(above + below, look) == Busy(below, look)
  {
    hide NonEmpty;
    NonEmptyConcat(above, below, look);
    var a, b := NonEmpty(above, look), NonEmpty(below, look);
    LastOfConcat(a, b);
    hide Last;
  }

  lemma LastOfConcat(a: seq<string>, b: seq<string>)
    requires |b| >= SCAN
    ensures Last(a + b, SCAN) == Last(b, SCAN)
  {
    assert (a + b)[|a + b| - SCAN..] == b[|b| - SCAN..];
    assert |b| == SCAN ==> b[0..] == b;
    assert |a + b| == SCAN ==> a == [] && a + b == b;
  }

  /* ---- what the two readings see, line by line ---- */

  function Inked(p: Pane, look: Look): nat {
    if p == [] then 0 else (if look.blank(p[0]) then 0 else 1) + Inked(p[1..], look)
  }

  /** How many lines below the i-th are not blank. */
  function Below(p: Pane, i: nat, look: Look): nat
    requires i < |p|
  {
    Inked(p[i + 1..], look)
  }

  /** A line of that kind, not blank, with fewer than n lines below it that are not blank. */
  ghost predicate Near(p: Pane, n: nat, look: Look, kind: string -> bool) {
    exists i | 0 <= i < |p| :: !look.blank(p[i]) && kind(p[i]) && Below(p, i, look) < n
  }

  lemma {:induction false} InkedSnoc(p: Pane, l: string, look: Look)
    ensures Inked(p + [l], look) == Inked(p, look) + if look.blank(l) then 0 else 1
  {
    if p == [] {
      assert [l][1..] == [];
    } else {
      assert (p + [l])[1..] == p[1..] + [l];
      InkedSnoc(p[1..], l, look);
    }
  }

  lemma LastSnoc(s: seq<string>, l: string, n: nat)
    requires n > 0
    ensures Last(s + [l], n) == Last(s, n - 1) + [l]
  {
  }

  lemma BelowSnoc(p: Pane, l: string, i: nat, look: Look)
    requires i < |p|
    ensures (p + [l])[i] == p[i] && Below(p + [l], i, look) == Below(p, i, look) + if look.blank(l) then 0 else 1
  {
    assert (p + [l])[i + 1..] == p[i + 1..] + [l];
    InkedSnoc(p[i + 1..], l, look);
  }

  lemma LastBelow(p: Pane, l: string, look: Look)
    ensures (p + [l])[|p|] == l && Below(p + [l], |p|, look) == 0
  {
    assert (p + [l])[|p| + 1..] == [];
  }

  /** What is near the bottom of a pane is near that of a longer one, allowing for the new line, or is the new line. */
  lemma NearGrows(p: Pane, l: string, n: nat, m: nat, look: Look, kind: string -> bool)
    requires m == n + if look.blank(l) then 0 else 1
    ensures Near(p, n, look, kind) ==> Near(p + [l], m, look, kind)
    ensures !look.blank(l) && kind(l) ==> Near(p + [l], m, look, kind)
  {
    hide Below;
    LastBelow(p, l, look);
    if i :| 0 <= i < |p| && !look.blank(p[i]) && kind(p[i]) && Below(p, i, look) < n { BelowSnoc(p, l, i, look); }
  }

  lemma NearShrinks(p: Pane, l: string, n: nat, m: nat, look: Look, kind: string -> bool)
    requires m == n + if look.blank(l) then 0 else 1
    ensures Near(p + [l], m, look, kind) ==> Near(p, n, look, kind) || (!look.blank(l) && kind(l))
  {
    hide Below;
    var q := p + [l];
    if i :| 0 <= i < |q| && !look.blank(q[i]) && kind(q[i]) && Below(q, i, look) < m {
      if i < |p| { BelowSnoc(p, l, i, look); }
    }
  }

  lemma NothingNear(p: Pane, look: Look, kind: string -> bool)
    ensures !Near(p, 0, look, kind)
  {
  }

  lemma {:induction false} TailShows(p: Pane, n: nat, look: Look, kind: string -> bool)
    ensures (exists i | 0 <= i < |Tail(p, n, look)| :: kind(Tail(p, n, look)[i])) <==> Near(p, n, look, kind)
    decreases |p|
  {
    if p != [] {
      var k := |p| - 1;
      var l := p[k];
      assert p == p[..k] + [l];
      NothingNear(p, look, kind);
      if look.blank(l) {
        NearGrows(p[..k], l, n, n, look, kind);
        NearShrinks(p[..k], l, n, n, look, kind);
        TailShows(p[..k], n, look, kind);
        assert NonEmpty(p, look) == NonEmpty(p[..k], look) + [];
        assert Tail(p, n, look) == Tail(p[..k], n, look);
      } else if n > 0 {
        TailShows(p[..k], n - 1, look, kind);
        NearGrows(p[..k], l, n - 1, n, look, kind);
        NearShrinks(p[..k], l, n - 1, n, look, kind);
        LastSnoc(NonEmpty(p[..k], look), l, n);
        var s, t := Tail(p, n, look), Tail(p[..k], n - 1, look);
        assert s == t + [l];
        if kind(l) { assert kind(s[|t|]); }
        if i :| 0 <= i < |t| && kind(t[i]) { assert kind(s[i]); }
      }
    }
  }

  /** Busy and ready, said of the pane's own lines. */
  lemma PaneShows(p: Pane, look: Look)
    ensures Busy(p, look) <==> Near(p, 10, look, look.busyLine)
    ensures Ready(p, look) <==> look.banner(p) && Near(p, 10, look, look.promptLine)
  {
    TailShows(p, 10, look, look.busyLine);
    TailShows(p, 10, look, look.promptLine);
  }
}
