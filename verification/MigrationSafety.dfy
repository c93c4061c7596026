/** What holds at every tree a pass can leave, however and whenever it stops:
    nothing is lost and nothing is overwritten. */
module MigrationSafety {
  import opened Common
  import opened FileTree
  import opened MigrationJobs
  import opened MigrationEffects
  import opened MigrationTables

  /** Some file cleanup does not drop holds these bytes. */
  ghost predicate Kept(t: Tree, bytes: Bytes) {
    exists p :: Holds(t, p, bytes)
  }

  predicate Holds(t: Tree, p: Path, bytes: Bytes) {
    IsFile(t, p) && t[p].bytes == bytes && !IsDropped(p)
  }

  ghost predicate Conserves(t: Tree, t': Tree) {
    forall bytes :: Kept(t, bytes) ==> Kept(t', bytes)
  }

  /** What lands at or below a target, or is parked beside its source, is not
      something cleanup drops. */
  lemma NotDroppedAtTarget(to: Path, q: Path)
    requires IsTarget(to) && to <= q
    ensures !IsDropped(q)
  {
    if IsDropped(q) { DroppedKinds(q); }
    hide KindOf;
    PrefixEntries(to, q);
  }

  lemma NotDroppedWhenParked(s: Path, q: Path)
    requires IsSource(s) && Legacy(s) <= q
    ensures !IsDropped(q)
  {
    ParkedKind(s[|s| - 1]);
    if IsDropped(q) { DroppedKinds(q); }
    hide KindOf;
    PrefixEntries(Legacy(s), q);
  }

  /** The whole subtree at `from` is found again at `to`. */
  lemma MovedIsKept(t: Tree, t': Tree, from: Path, to: Path)
    requires forall q | q in t && !(from <= q) :: q in t' && t'[q] == t[q]
    requires forall q | q in t && from <= q :: to + q[|from|..] in t' && t'[to + q[|from|..]] == t[q]
    requires forall q | to <= q :: !IsDropped(q)
    ensures Conserves(t, t')
  {
    forall p, bytes | Holds(t, p, bytes) ensures Kept(t', bytes) {
      var p' := if from <= p then to + p[|from|..] else p;
      assert Holds(t', p', bytes);
    }
  }

  lemma SameIsKept(t: Tree, t': Tree)
    requires forall q | q in t && IsFile(t, q) && !IsDropped(q) :: q in t' && t'[q] == t[q]
    ensures Conserves(t, t')
  {
    forall p, bytes | Holds(t, p, bytes) ensures Kept(t', bytes) { assert Holds(t', p, bytes); }
  }

  lemma MoveConserves(from: Path, to: Path, t: Tree)
    requires WellFormed(t) && IsSource(from) && IsTarget(to)
    ensures Conserves(t, ExecMove(t, from, to).tree)
  {
    SourceAboveTarget(to, from);
    if from in t {
      if Lstat(t, to) == NotExist {
        RelocateWorks(t, from, to);
        forall q | to <= q ensures !IsDropped(q) { NotDroppedAtTarget(to, q); }
        MovedIsKept(t, Relocate(t, from, to), from, to);
      } else if IsFile(t, to) {
        ResolveConserves(from, to, t);
      }
    }
  }

  lemma ResolveConserves(from: Path, to: Path, t: Tree)
    requires WellFormed(t) && IsSource(from) && IsTarget(to) && from in t && IsFile(t, to)
    ensures Conserves(t, ExecResolve(t, from, to).tree)
  {
    var t' := ExecResolve(t, from, to).tree;
    if IsFile(t, from) && t[from] == t[to] {
      forall p, bytes | Holds(t, p, bytes) ensures Kept(t', bytes) {
        NotDroppedAtTarget(to, to);
        SourceAboveTarget(to, from);
        assert Holds(t', if p == from then to else p, bytes);
      }
    } else if IsFile(t, from) && Legacy(from) !in t {
      ParkWorks(t, from);
      RenameEffect(t, from, Legacy(from));
      forall q | Legacy(from) <= q ensures !IsDropped(q) { NotDroppedWhenParked(from, q); }
      MovedIsKept(t, t', from, Legacy(from));
    }
  }

  lemma PartialMoveConserves(crossDevice: bool, from: Path, to: Path, t: Tree, t': Tree)
    requires WellFormed(t) && IsSource(from) && IsTarget(to) && PartialMove(crossDevice, t, from, to, t')
    ensures Conserves(t, t')
  {
    SourceAboveTarget(to, from);
    if PartialMkdir(t, to, t') {
      var k: nat :| k < |to| && t' == MkdirAll(t, to, k);
      MkdirWorks(t, to, k);
    } else {
      var bytes := if t[from].File? then t[from].bytes else [];
      var n: nat :| n <= |bytes| && t' == MkdirAll(t, to, |to| - 1)[to := File(bytes[..n])];
      CopyWorks(t, from, to, bytes[..n]);
    }
    SameIsKept(t, t');
  }

  lemma MoveDirConserves(j: Job, t: Tree, t': Tree)
    requires WellFormed(t) && InTables(j) && WellShaped(j) && j.MoveDir? && Partial(true, j, t, t')
    ensures Conserves(t, t')
  {
    if Relocates(t, j.from, j.to) {
      CodeDirPaths();
      if t' == Relocate(t, j.from, j.to) {
        RelocateWorks(t, j.from, j.to);
        forall q | j.to <= q ensures !IsDropped(q) { NotDroppedAtTarget(j.to, q); }
        MovedIsKept(t, t', j.from, j.to);
      } else if t' != t && t' != Exec(j, t).tree {
        var k: nat :| k < |j.to| && t' == MkdirAll(t, j.to, k);
        MkdirWorks(t, j.to, k);
        SameIsKept(t, t');
      }
    }
  }

  /** Purging and dropping take only what cleanup may drop; removing an empty
      directory takes no file. */
  lemma RemovalConserves(j: Job, t: Tree, t': Tree)
    requires WellFormed(t) && InTables(j) && WellShaped(j) && (j.Purge? || j.Drop? || j.Rmdir? || j.List?)
    requires Partial(true, j, t, t')
    ensures Conserves(t, t')
  {
    EffectOf(true, j, t, t');
    if j.Purge? {
      forall q | j.path <= q ensures IsDropped(q) { BelowHistory(j.path, q); }
    }
    SameIsKept(t, t');
  }

  lemma BelowHistory(p: Path, q: Path)
    requires IsDropped(p) && IsSource(p) && KindOf(p[|p| - 1]) == History && p <= q
    ensures IsDropped(q)
  {
    assert p[|p| - 1] == "history";
    PrefixEntries(p, q);
    hide KindOf;
  }

  lemma HoistConserves(j: Job, t: Tree, t': Tree)
    requires WellFormed(t) && InTables(j) && WellShaped(j) && j.Hoist? && Partial(true, j, t, t')
    ensures Conserves(t, t')
  {
    HoistPaths(j);
    HoistStates(true, j, t, t');
    var m := ExecMove(t, j.from, j.to).tree;
    MoveConserves(j.from, j.to, t);
    hide Exec, ExecMove, Partial;
    if PartialMove(true, t, j.from, j.to, t') {
      PartialMoveConserves(true, j.from, j.to, t, t');
    } else if t' != t && t' != m {
      SameIsKept(m, t');
    }
  }

  lemma JobConserves(j: Job, t: Tree, t': Tree)
    requires WellFormed(t) && InTables(j) && WellShaped(j) && Partial(true, j, t, t')
    ensures Conserves(t, t')
  {
    match j
    case Move(_, from, to) =>
      MoveConserves(from, to, t);
      if t' != t && t' != Exec(j, t).tree { PartialMoveConserves(true, from, to, t, t'); }
    case MoveDir(_, _) => MoveDirConserves(j, t, t');
    case Hoist(_, _, _) => HoistConserves(j, t, t');
    case _ => RemovalConserves(j, t, t');
  }

  /** A file where the v1 layout has its files stays there, unaltered. */
  ghost predicate TargetsKept(t: Tree, t': Tree) {
    forall p | IsTarget(p) && IsFile(t, p) :: p in t' && t'[p] == t[p]
  }

  lemma JobKeepsTargets(j: Job, t: Tree, t': Tree)
    requires WellFormed(t) && InTables(j) && WellShaped(j) && Partial(true, j, t, t')
    ensures TargetsKept(t, t')
  {
    EffectOf(true, j, t, t');
    forall p | IsTarget(p) && IsFile(t, p) ensures p in t' {
      match j
      case Move(_, from, _) => SourceAboveTarget(p, from);
      case MoveDir(from, _) => CodeDirPaths(); SourceAboveTarget(p, from);
      case Hoist(from, _, _) => HoistPaths(j); SourceAboveTarget(p, from);
      case Purge(_, path) => SourceAboveTarget(p, path);
      case Drop(_, path) => SourceAboveTarget(p, path);
      case _ =>
    }
  }

  /** At every tree a pass can leave, interrupted at any operation, failed or
      complete, with or without the copy fallback: every content still has a
      file (bar what cleanup drops), every file at a v1 path is as it was, and
      the tree is still a tree. */
  lemma {:induction false} NothingLostNothingOverwritten(js: seq<Job>, t: Tree, t': Tree)
    requires WellFormed(t) && AllInTables(js) && AllShaped(js) && Cut(true, js, t, t')
    ensures Conserves(t, t') && TargetsKept(t, t') && WellFormed(t')
  {
    hide Exec, Partial, InTables, IsTarget;
    if t' != t {
      assert js[0] in js;
      if Partial(true, js[0], t, t') {
        JobConserves(js[0], t, t');
        JobKeepsTargets(js[0], t, t');
        EffectOf(true, js[0], t, t');
      } else {
        var m := Exec(js[0], t).tree;
        CompletedIsPartial(true, js[0], t);
        JobConserves(js[0], t, m);
        JobKeepsTargets(js[0], t, m);
        EffectOf(true, js[0], t, m);
        NothingLostNothingOverwritten(js[1..], m, t');
      }
    }
  }

  /** A tree reached when jobs may be left part-done and the pass goes on all the
      same - as it does, with a warning, when an emptied directory cannot be removed. */
  ghost predicate Drifts(js: seq<Job>, t: Tree, t': Tree)
    requires AllShaped(js)
  {
    if js == [] then t' == t
    else exists between :: Partial(true, js[0], t, between) && Drifts(js[1..], between, t')
  }

  /** A refused rmdir, of a job of its own or of a hoist, leaves a part-done job. */
  lemma RefusedRmdirIsPartial(j: Job, t: Tree)
    requires WellShaped(j) && (j.Rmdir? || j.Hoist?)
    ensures Partial(true, j, t, if j.Rmdir? then t else ExecMove(t, j.from, j.to).tree)
  {
  }

  /** Even so nothing is lost and nothing overwritten. */
  lemma {:induction false} DriftingLosesNothing(js: seq<Job>, t: Tree, t': Tree)
    requires WellFormed(t) && AllInTables(js) && AllShaped(js) && Drifts(js, t, t')
    ensures Conserves(t, t') && TargetsKept(t, t') && WellFormed(t')
  {
    hide Exec, Partial, InTables, IsTarget, Kept;
    if js != [] {
      var between :| Partial(true, js[0], t, between) && Drifts(js[1..], between, t');
      assert js[0] in js;
      JobConserves(js[0], t, between);
      JobKeepsTargets(js[0], t, between);
      EffectOf(true, js[0], t, between);
      DriftingLosesNothing(js[1..], between, t');
    }
  }
}
