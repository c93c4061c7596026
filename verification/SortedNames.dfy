/** Directory listings: os.ReadDir returns the names in byte order. */
module SortedNames {

  predicate Less(a: string, b: string) {
    b != "" && (a == "" || a[0] < b[0] || (a[0] == b[0] && Less(a[1..], b[1..])))
  }

  lemma {:induction false} LessTotal(a: string, b: string)
    ensures Less(a, b) || Less(b, a) || a == b
  {
    if a != "" && b != "" && a[0] == b[0] {
      LessTotal(a[1..], b[1..]);
      if a[1..] == b[1..] { assert a == [a[0]] + a[1..] && b == [b[0]] + b[1..]; }
    }
  }

  lemma {:induction false} LessAsymmetric(a: string, b: string)
    requires Less(a, b)
    ensures !Less(b, a) && a != b
  {
    if a != "" && a[0] == b[0] { LessAsymmetric(a[1..], b[1..]); }
  }

  lemma {:induction false} LessTransitive(a: string, b: string, c: string)
    requires Less(a, b) && Less(b, c)
    ensures Less(a, c)
  {
    if a != "" && a[0] == b[0] == c[0] { LessTransitive(a[1..], b[1..], c[1..]); }
  }

  /** A name comes before every longer name it starts. */
  lemma {:induction false} PrefixIsLess(a: string, suffix: string)
    requires suffix != ""
    ensures Less(a, a + suffix)
  {
    if a != "" {
      PrefixIsLess(a[1..], suffix);
      assert (a + suffix)[1..] == a[1..] + suffix;
    }
  }

  ghost predicate Ascending(s: seq<string>) {
    forall i, j | 0 <= i < j < |s| :: Less(s[i], s[j])
  }

  predicate IsLeast(m: string, s: set<string>) {
    m in s && forall x | x in s :: x == m || Less(m, x)
  }

  lemma {:induction false} LeastExists(s: set<string>)
    requires s != {}
    ensures exists m :: IsLeast(m, s)
  {
    var x :| x in s;
    if s == {x} {
      assert IsLeast(x, s);
    } else {
      LeastExists(s - {x});
      var m :| IsLeast(m, s - {x});
      LessTotal(m, x);
      if Less(x, m) {
        forall y | y in s ensures y == x || Less(x, y) {
          if y != x && y != m { LessTransitive(x, m, y); }
        }
        assert IsLeast(x, s);
      } else {
        assert IsLeast(m, s);
      }
    }
  }

  lemma LeastUnique(s: set<string>)
    ensures forall m, n | IsLeast(m, s) && IsLeast(n, s) :: m == n
  {
    forall m, n | IsLeast(m, s) && IsLeast(n, s) ensures m == n {
      if m != n { LessAsymmetric(m, n); }
    }
  }

  /** The names of a set in ascending order, each once. */
  function Sort(s: set<string>): (r: seq<string>)
    ensures Ascending(r)
    ensures forall x :: x in r <==> x in s
  {
    if s == {} then []
    else
      LeastExists(s);
      LeastUnique(s);
      var m :| IsLeast(m, s);
      [m] + Sort(s - {m})
  }

  /** The names among s that are also in keep, in the same order. */
  function Filter(s: seq<string>, keep: set<string>): (r: seq<string>)
    ensures forall x :: x in r <==> x in s && x in keep
  {
    if s == [] then []
    else (if s[0] in keep then [s[0]] else []) + Filter(s[1..], keep)
  }

  /** Keeping some names of a sorted listing is sorting what is kept. */
  lemma {:induction false} FilterSorted(s: seq<string>, keep: set<string>)
    requires Ascending(s)
    ensures Filter(s, keep) == Sort(set x | x in s && x in keep)
  {
    var kept := set x | x in s && x in keep;
    if s == [] {
      assert kept == {};
    } else {
      var rest := set x | x in s[1..] && x in keep;
      FilterSorted(s[1..], keep);
      if s[0] in keep {
        forall x | x in kept ensures x == s[0] || Less(s[0], x) {
          var i :| 0 <= i < |s| && s[i] == x;
        }
        assert IsLeast(s[0], kept);
        LeastUnique(kept);
        forall x | x in s[1..] ensures x != s[0] {
          var i :| 0 <= i < |s[1..]| && s[1..][i] == x;
          LessAsymmetric(s[0], s[i + 1]);
        }
        assert kept - {s[0]} == rest;
      } else {
        assert kept == rest;
      }
    }
  }

  /** Byte order: a proper start comes first, else the first byte that differs decides. */
  lemma {:induction false} LessIsByteOrder(a: string, b: string)
    ensures Less(a, b) <==> a < b || exists i :: DiffersAt(a, b, i) && a[i] < b[i]
  {
    if a != "" && b != "" && a[0] == b[0] {
      LessIsByteOrder(a[1..], b[1..]);
      assert a == [a[0]] + a[1..] && b == [b[0]] + b[1..];
      if i :| DiffersAt(a[1..], b[1..], i) && a[1..][i] < b[1..][i] { assert DiffersAt(a, b, i + 1); }
      if i :| DiffersAt(a, b, i) && a[i] < b[i] {
        assert i > 0;
        assert a[..i][1..] == a[1..][..i - 1] && b[..i][1..] == b[1..][..i - 1];
        assert DiffersAt(a[1..], b[1..], i - 1);
      }
      assert a < b <==> a[1..] < b[1..];
    } else if a != "" && b != "" {
      assert DiffersAt(a, b, 0);
      forall i | DiffersAt(a, b, i) ensures i == 0 { SameStart(a, b, i); }
    }
  }

  lemma SameStart(a: string, b: string, i: int)
    requires DiffersAt(a, b, i)
    ensures i == 0 || a[0] == b[0]
  {
    assert i > 0 ==> a[..i][0] == b[..i][0];
  }

  /** The two have the same start up to i, and then not. */
  predicate DiffersAt(a: string, b: string, i: int) {
    0 <= i < |a| && i < |b| && a[..i] == b[..i] && a[i] != b[i]
  }
}
