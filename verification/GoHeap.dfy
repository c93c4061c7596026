/** Slices and maps as Go has them: values that point into shared memory. */
module GoHeap {
  import opened Common

  // A slice from the start of a backing array; what lies beyond len is spare
  // capacity. A nil slice is one without any.
  datatype Slice = Slice(cells: array<string>, len: nat)

  predicate SliceOk(s: Slice) { s.len <= s.cells.Length }

  function Items(s: Slice): seq<string>
    requires SliceOk(s)
    reads s.cells
  {
    s.cells[..s.len]
  }

  /** append: into the spare capacity if there is enough of it, else into a larger
      array. Which of the two is not visible in the result, but is in the memory. */
  method Append(s: Slice, xs: seq<string>) returns (r: Slice)
    requires SliceOk(s)
    modifies s.cells
    ensures SliceOk(r) && Items(r) == old(Items(s)) + xs
    ensures r.cells == s.cells || fresh(r.cells)
    ensures s.cells[..s.len] == old(s.cells[..s.len])
  {
    if s.len + |xs| <= s.cells.Length {
      forall i | 0 <= i < |xs| { s.cells[s.len + i] := xs[i]; }
      r := Slice(s.cells, s.len + |xs|);
      assert s.cells[..s.len + |xs|] == s.cells[..s.len] + xs;
    } else {
      r := Gathered(s.cells[..s.len] + xs, s.len + |xs|);
    }
  }

  /** A new array with room to spare. */
  method Gathered(all: seq<string>, spare: nat) returns (r: Slice)
    ensures SliceOk(r) && Items(r) == all && fresh(r.cells)
  {
    var cells := new string[|all| + spare];
    forall i | 0 <= i < |all| { cells[i] := all[i]; }
    r := Slice(cells, |all|);
    assert cells[..|all|] == all;
  }

  /** append([]string(nil), s...). */
  method CopyOf(s: Slice) returns (r: Slice)
    requires SliceOk(s)
    ensures SliceOk(r) && Items(r) == Items(s) && fresh(r.cells)
  {
    r := Gathered(s.cells[..s.len], 0);
  }

  /** for i, x := range s { s[i] = f(x) }. */
  method Rewrite(s: Slice, f: string -> string)
    requires SliceOk(s)
    modifies s.cells
    ensures Items(s) == Mapped(old(Items(s)), f)
  {
    var i := 0;
    ghost var before := s.cells[..s.len];
    while i < s.len
      invariant i <= s.len
      invariant forall k | 0 <= k < i :: s.cells[k] == f(before[k])
      invariant forall k | i <= k < s.len :: s.cells[k] == before[k]
    {
      s.cells[i] := f(s.cells[i]);
      i := i + 1;
    }
    assert s.cells[..s.len] == Mapped(before, f);
  }

  function Mapped(xs: seq<string>, f: string -> string): seq<string> {
    seq(|xs|, i requires 0 <= i < |xs| => f(xs[i]))
  }

  type Env = map<string, string>

  function MappedEnv(m: Env, f: string -> string): Env {
    map k | k in m :: f(m[k])
  }

  /** Entries merged in; nothing to merge leaves a nil map nil. */
  function WithEnv(env: Option<Env>, more: Env): Option<Env> {
    if more == map[] then env else Some((if env.Some? then env.value else map[]) + more)
  }

  lemma SetOne(before: Env, env: Env, keys: set<string>, k: string)
    requires k in keys && keys <= env.Keys
    ensures (before + (env - keys))[k := env[k]] == before + (env - (keys - {k}))
  {
  }

  // A Go map variable: nil, or a reference to a table others may share.
  class Table {
    var entries: Env

    constructor (entries: Env)
      ensures this.entries == entries
    {
      this.entries := entries;
    }

    /** for k, v := range env { m[k] = v }, in whatever order. */
    method SetAll(env: Env)
      modifies this
      ensures entries == old(entries) + env
    {
      var keys := env.Keys;
      ghost var before := entries;
      while keys != {}
        invariant keys <= env.Keys
        invariant entries == before + (env - keys)
        decreases |keys|
      {
        var k :| k in keys;
        SetOne(before, env, keys, k);
        entries := entries[k := env[k]];
        keys := keys - {k};
      }
      assert env - {} == env;
    }
  }

  /** A table of its own for a clone; a nil map stays nil. */
  method CopyOfTable(t: Table?) returns (r: Table?)
    ensures fresh(Tables(r)) && Told(r) == Told(t)
  {
    r := null;
    if t != null { r := new Table(t.entries); }
  }

  function Told(t: Table?): Option<Env>
    reads t
  {
    if t == null then None else Some(t.entries)
  }

  function Tables(t: Table?): set<object> {
    if t == null then {} else {t}
  }

  /** Rewriting touches every entry, and nothing but the entries. */
  lemma EveryEntryRewritten(xs: seq<string>, m: Env, f: string -> string)
    ensures |Mapped(xs, f)| == |xs| && forall i | 0 <= i < |xs| :: Mapped(xs, f)[i] == f(xs[i])
    ensures MappedEnv(m, f).Keys == m.Keys && forall k | k in m :: MappedEnv(m, f)[k] == f(m[k])
  {
  }

  /** Settings that are merged in win over those there were. */
  lemma MergedInWins(env: Option<Env>, more: Env, k: string)
    ensures var r := WithEnv(env, more);
      && (k in more ==> r.Some? && k in r.value && r.value[k] == more[k])
      && (k !in more ==> ((r.Some? && k in r.value) <==> (env.Some? && k in env.value))
                         && (r.Some? && k in r.value ==> r.value[k] == env.value[k]))
      && (r.None? <==> env.None? && more == map[])
  {
  }
}
