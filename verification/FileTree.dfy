/** The directory tree below a migration root, what os.Lstat answers on it, and
    the tree operations the migrator is built from. */
module FileTree {

  type Name = string
  // A path relative to the migration root, one component per element; [] is the root itself.
  type Path = seq<Name>
  newtype Byte = b: int | 0 <= b < 256
  type Bytes = seq<Byte>

  datatype Node = File(bytes: Bytes) | Dir
  type Tree = map<Path, Node>

  // os.Lstat: ENOENT and ENOTDIR are told apart, because only the first is "not there".
  datatype Stat = Found(node: Node) | NotExist | NotDir

  function Parent(p: Path): Path {
    if p == [] then [] else p[..|p| - 1]
  }

  /** The root is a directory, and every proper prefix of an entry is one. */
  ghost predicate WellFormed(t: Tree) {
    && IsDir(t, [])
    && forall p, k | p in t && 0 <= k < |p| :: IsDir(t, p[..k])
  }

  predicate IsDir(t: Tree, p: Path) {
    p in t && t[p].Dir?
  }

  predicate IsFile(t: Tree, p: Path) {
    p in t && t[p].File?
  }

  function Lstat(t: Tree, p: Path): Stat {
    if p in t then Found(t[p])
    else if exists k | 0 <= k < |p| :: IsFile(t, p[..k]) then NotDir
    else NotExist
  }

  predicate HasEntries(t: Tree, p: Path) {
    exists q | q in t :: p < q
  }

  function Prefixes(p: Path, k: nat): set<Path>
    requires k <= |p|
  {
    set i | 0 <= i <= k :: p[..i]
  }

  /** os.MkdirAll stopped after the first k components. */
  function MkdirAll(t: Tree, p: Path, k: nat): Tree
    requires k <= |p|
  {
    map q | q in t.Keys + Prefixes(p, k) :: if q in t then t[q] else Dir
  }

  /** Where the entry found at q after a rename was before it. */
  function Origin(from: Path, to: Path, q: Path): Path {
    if to <= q then from + q[|to|..] else q
  }

  /** os.Rename: the whole subtree at `from` reappears at `to`. */
  function Rename(t: Tree, from: Path, to: Path): Tree {
    map q | q in t.Keys + (set p | p in t && from <= p :: to + p[|from|..])
            && !(from <= q) && Origin(from, to, q) in t :: t[Origin(from, to, q)]
  }

  /** os.Remove of a file or an empty directory. */
  function Remove(t: Tree, p: Path): Tree {
    t - {p}
  }

  /** os.RemoveAll. */
  function RemoveAll(t: Tree, p: Path): Tree {
    map q | q in t && !(p <= q) :: t[q]
  }

  /** What os.RemoveAll may leave when it is stopped: it deletes bottom-up, in no
      promised order, and touches nothing outside the subtree. */
  ghost predicate PartlyRemoved(t: Tree, p: Path, t': Tree) {
    && t'.Keys <= t.Keys
    && (forall q | q in t' :: t'[q] == t[q])
    && (forall q | q in t && q !in t' :: p <= q)
    && (forall q, k | q in t' && 0 <= k < |q| :: q[..k] in t')
  }

  lemma MkdirAllEffect(t: Tree, p: Path, k: nat)
    requires WellFormed(t) && k <= |p|
    requires forall i | 0 <= i <= k :: !IsFile(t, p[..i])
    ensures WellFormed(MkdirAll(t, p, k))
    ensures forall q | q in t :: q in MkdirAll(t, p, k) && MkdirAll(t, p, k)[q] == t[q]
    ensures forall q | q in MkdirAll(t, p, k) && q !in t :: q <= p && |q| <= k && MkdirAll(t, p, k)[q] == Dir
    ensures forall i | 0 <= i <= k :: IsDir(MkdirAll(t, p, k), p[..i])
  {
    var t' := MkdirAll(t, p, k);
    forall i | 0 <= i <= k ensures IsDir(t', p[..i]) {
      assert p[..i] in Prefixes(p, k);
    }
    forall q, j | q in t' && 0 <= j < |q| ensures IsDir(t', q[..j]) {
      if q !in t {
        var i :| 0 <= i <= k && q == p[..i];
        assert q[..j] == p[..j];
      } else {
        assert IsDir(t, q[..j]);
      }
    }
  }

  lemma PrefixesCompare(a: Path, b: Path, q: Path)
    requires a <= q && b <= q
    ensures a <= b || b <= a
  {
  }

  /** Whatever lies on the way to an entry is an entry. */
  lemma Ancestor(t: Tree, p: Path, q: Path)
    requires WellFormed(t) && p <= q && q in t
    ensures p in t
    ensures p != q ==> IsDir(t, p)
  {
    if p != q { assert IsDir(t, q[..|p|]); assert q[..|p|] == p; }
  }

  /** The conditions under which the migrator calls os.Rename. */
  ghost predicate CanRename(t: Tree, from: Path, to: Path) {
    && WellFormed(t) && from in t && from != [] && to != []
    && to !in t && IsDir(t, Parent(to)) && !(from <= to)
  }

  /** An entry that moved: it is at its new place, which is not below the old one. */
  lemma RenamedEntry(t: Tree, from: Path, to: Path, q: Path)
    requires CanRename(t, from, to) && q in t && from <= q
    ensures to + q[|from|..] in Rename(t, from, to)
    ensures Rename(t, from, to)[to + q[|from|..]] == t[q]
  {
    var r := to + q[|from|..];
    assert from + r[|to|..] == q;
    if from <= r {
      PrefixesCompare(from, to, r);
      Ancestor(t, to, from);
    }
  }

  lemma RenameEffect(t: Tree, from: Path, to: Path)
    requires CanRename(t, from, to)
    ensures forall q | q in Rename(t, from, to) :: !(from <= q)
    ensures forall q | q in t && !(from <= q) :: q in Rename(t, from, to) && Rename(t, from, to)[q] == t[q]
    ensures forall q | q in t && from <= q ::
              to + q[|from|..] in Rename(t, from, to) && Rename(t, from, to)[to + q[|from|..]] == t[q]
    ensures forall q | q in Rename(t, from, to) && q !in t :: to <= q && from + q[|to|..] in t
    ensures forall q | q in Rename(t, from, to) && q in t :: !(to <= q)
  {
    forall q | q in t ensures !(to <= q) {
      if to <= q { Ancestor(t, to, q); }
    }
    forall q | q in t && from <= q
      ensures to + q[|from|..] in Rename(t, from, to) && Rename(t, from, to)[to + q[|from|..]] == t[q]
    {
      RenamedEntry(t, from, to, q);
    }
  }

  lemma RenameKeepsTree(t: Tree, from: Path, to: Path)
    requires CanRename(t, from, to)
    ensures WellFormed(Rename(t, from, to))
  {
    var t' := Rename(t, from, to);
    RenameEffect(t, from, to);
    forall q, k | q in t' && 0 <= k < |q| ensures IsDir(t', q[..k]) {
      if to <= q {
        RenameKeepsPrefix(t, from, to, q, k);
      } else {
        assert q in t && IsDir(t, q[..k]) && q[..k] < q;
      }
    }
  }

  lemma RenameKeepsPrefix(t: Tree, from: Path, to: Path, q: Path, k: nat)
    requires CanRename(t, from, to) && to <= q && from + q[|to|..] in t && k < |q|
    ensures IsDir(Rename(t, from, to), q[..k])
  {
    RenameEffect(t, from, to);
    if k < |to| {
      Ancestor(t, q[..k], Parent(to));
      assert q[..k] < to;
    } else {
      var o := from + q[|to|..];
      var p := from + q[|to|..k];
      assert p < o;
      Ancestor(t, p, o);
      RenamedEntry(t, from, to, p);
      assert to + p[|from|..] == q[..k];
    }
  }

  lemma RenameDomain(t: Tree, from: Path, to: Path, q: Path)
    ensures q in Rename(t, from, to) <==> !(from <= q) && Origin(from, to, q) in t
  {
    if to <= q {
      var o := from + q[|to|..];
      assert to + o[|from|..] == q && from <= o;
    }
  }

  lemma RemoveEffect(t: Tree, p: Path)
    requires WellFormed(t) && p != [] && !HasEntries(t, p)
    ensures WellFormed(Remove(t, p))
  {
    forall q, k | q in Remove(t, p) && 0 <= k < |q| ensures IsDir(Remove(t, p), q[..k]) {
      assert IsDir(t, q[..k]) && q[..k] < q;
    }
  }

  lemma PartlyRemovedEffect(t: Tree, p: Path, t': Tree)
    requires WellFormed(t) && p != [] && PartlyRemoved(t, p, t')
    ensures WellFormed(t')
  {
    assert [] in t' by { assert !(p <= []); }
    forall q, k | q in t' && 0 <= k < |q| ensures IsDir(t', q[..k]) {
      assert q[..k] in t';
      assert IsDir(t, q[..k]);
    }
  }

  lemma RemoveAllIsPartial(t: Tree, p: Path)
    requires WellFormed(t)
    ensures PartlyRemoved(t, p, RemoveAll(t, p))
  {
    var t' := RemoveAll(t, p);
    forall q, k | q in t' && 0 <= k < |q| ensures q[..k] in t' {
      assert IsDir(t, q[..k]);
      if p <= q[..k] { assert p <= q; }
    }
  }

  /** A file has nothing below it. */
  lemma FilesAreLeaves(t: Tree, p: Path)
    requires WellFormed(t) && IsFile(t, p)
    ensures !HasEntries(t, p)
  {
    if q :| q in t && p < q { Ancestor(t, p, q); }
  }

  /** Renaming a file moves one entry. */
  lemma FileRenames(t: Tree, from: Path, to: Path)
    requires CanRename(t, from, to) && IsFile(t, from)
    ensures Rename(t, from, to) == (t - {from})[to := t[from]]
  {
    RenameEffect(t, from, to);
    FilesAreLeaves(t, from);
    var t' := Rename(t, from, to);
    assert to + from[|from|..] == to;
    forall q | q in t' && q !in t ensures q == to {
      assert !(from < from + q[|to|..]);
    }
    forall q | q in t && q != from ensures q in t' && t'[q] == t[q] {
      assert from <= q ==> from < q;
    }
    assert from !in t' && to in t';
  }

  lemma MkdirNothing(t: Tree, p: Path, k: nat)
    requires WellFormed(t) && k <= |p| && IsDir(t, p[..k])
    ensures MkdirAll(t, p, k) == t
  {
    forall q | q in Prefixes(p, k) ensures q in t {
      var i :| 0 <= i <= k && q == p[..i];
      Ancestor(t, q, p[..k]);
    }
  }
}
