/** What a job may do to the tree, completed or interrupted. */
module MigrationEffects {
  import opened Common
  import opened FileTree
  import opened MigrationJobs

  /** A tree the job may leave when it is stopped between two filesystem
      operations, or when it fails. With `crossDevice`, a rename between two
      directories may also turn out to need the copy-and-delete fallback. */
  ghost predicate Partial(crossDevice: bool, j: Job, t: Tree, t': Tree)
    requires WellShaped(j)
  {
    || t' == t
    || t' == Exec(j, t).tree
    || match j
       case Move(guard, from, to) => IsDir(t, guard) && PartialMove(crossDevice, t, from, to, t')
       case Hoist(from, to, _) => PartialMove(crossDevice, t, from, to, t') || t' == ExecMove(t, from, to).tree
       case MoveDir(from, to) => IsDir(t, from) && Relocates(t, from, to) && PartialMkdir(t, to, t')
       case Purge(guard, path) => IsDir(t, guard) && path in t && PartlyRemoved(t, path, t')
       case _ => false
  }

  ghost predicate Relocates(t: Tree, from: Path, to: Path) {
    from in t && Lstat(t, to) == NotExist
  }

  ghost predicate PartialMkdir(t: Tree, to: Path, t': Tree) {
    exists k: nat | k < |to| :: t' == MkdirAll(t, to, k)
  }

  ghost predicate PartialMove(crossDevice: bool, t: Tree, from: Path, to: Path, t': Tree)
    requires to != []
  {
    && Relocates(t, from, to)
    && (PartialMkdir(t, to, t') || (crossDevice && PartialCopy(t, from, to, t')))
  }

  /** copyFile writes the target front to back and the source goes last; on a
      directory it creates the target and then fails to read the source. */
  ghost predicate PartialCopy(t: Tree, from: Path, to: Path, t': Tree)
    requires from in t && to != []
  {
    var bytes := if t[from].File? then t[from].bytes else [];
    exists n: nat | n <= |bytes| :: t' == MkdirAll(t, to, |to| - 1)[to := File(bytes[..n])]
  }

  lemma CompletedIsPartial(crossDevice: bool, j: Job, t: Tree)
    requires WellShaped(j)
    ensures Partial(crossDevice, j, t, Exec(j, t).tree)
  {
  }

  /** A tree the whole pass may leave when it is stopped at any point. */
  ghost predicate Cut(crossDevice: bool, js: seq<Job>, t: Tree, t': Tree)
    requires AllShaped(js)
  {
    || t' == t
    || (js != [] && Partial(crossDevice, js[0], t, t'))
    || (js != [] && Exec(js[0], t).error.None? && Cut(crossDevice, js[1..], Exec(js[0], t).tree, t'))
  }

  /* ---- the frame of a job ---- */

  predicate MayCreate(j: Job, q: Path)
    requires WellShaped(j)
  {
    match j
    case Move(_, from, to) => q < to || to <= q || Legacy(from) <= q
    case Hoist(from, to, _) => q < to || to <= q || Legacy(from) <= q
    case MoveDir(_, to) => q < to || to <= q
    case _ => false
  }

  predicate MayRemove(j: Job, q: Path, node: Node) {
    match j
    case Move(_, from, _) => from <= q
    case MoveDir(from, _) => from <= q
    case Purge(_, path) => path <= q
    case Drop(_, path) => q == path
    case Rmdir(_, path) => q == path && node.Dir?
    case Hoist(from, _, dir) => from <= q || (q == dir && node.Dir?)
    case List(_) => false
  }

  /** Entries appear and disappear only where the job may do that, nothing that
      stays changes. */
  ghost predicate Effect(j: Job, t: Tree, t': Tree)
    requires WellShaped(j)
  {
    && WellFormed(t')
    && (forall q | q in t' && q !in t :: MayCreate(j, q))
    && (forall q | q in t && q !in t' :: MayRemove(j, q, t[q]))
    && (forall q | q in t && q in t' :: t'[q] == t[q])
  }

  lemma MkdirWorks(t: Tree, to: Path, k: nat)
    requires WellFormed(t) && Lstat(t, to) == NotExist && to != [] && k < |to|
    ensures WellFormed(MkdirAll(t, to, k))
    ensures to !in MkdirAll(t, to, k)
    ensures forall q | q in t :: q in MkdirAll(t, to, k) && MkdirAll(t, to, k)[q] == t[q]
    ensures forall q | q in MkdirAll(t, to, k) && q !in t :: q < to && MkdirAll(t, to, k)[q] == Dir
    ensures k == |to| - 1 ==> IsDir(MkdirAll(t, to, k), Parent(to))
  {
    MkdirAllEffect(t, to, k);
  }

  lemma RelocateWorks(t: Tree, from: Path, to: Path)
    requires WellFormed(t) && from != [] && to != [] && !(from <= to) && Relocates(t, from, to)
    ensures CanRename(MkdirAll(t, to, |to| - 1), from, to)
    ensures WellFormed(Relocate(t, from, to))
    ensures forall q | q in Relocate(t, from, to) && q !in t :: q < to || (to <= q && from + q[|to|..] in t)
    ensures forall q | q in t && q !in Relocate(t, from, to) :: from <= q
    ensures forall q | q in Relocate(t, from, to) :: !(from <= q)
    ensures forall q | q in t && q in Relocate(t, from, to) :: Relocate(t, from, to)[q] == t[q]
    ensures forall q | q in Relocate(t, from, to) && q !in t && q < to :: Relocate(t, from, to)[q] == Dir
    ensures forall q | q in t && from <= q ::
      to + q[|from|..] in Relocate(t, from, to) && Relocate(t, from, to)[to + q[|from|..]] == t[q]
  {
    var m := MkdirAll(t, to, |to| - 1);
    MkdirWorks(t, to, |to| - 1);
    RenameEffect(m, from, to);
    RenameKeepsTree(m, from, to);
    forall q | q in Relocate(t, from, to) && q !in t
      ensures q < to || (to <= q && from + q[|to|..] in t)
    {
      if to <= q {
        var o := from + q[|to|..];
        assert o in m;
        if o !in t { PrefixesCompare(from, to, to); }
      }
    }
  }

  lemma CopyWorks(t: Tree, from: Path, to: Path, bytes: Bytes)
    requires WellFormed(t) && to != [] && !(from <= to) && Relocates(t, from, to)
    ensures var t' := MkdirAll(t, to, |to| - 1)[to := File(bytes)];
      && WellFormed(t')
      && (forall q | q in t :: q in t' && t'[q] == t[q])
      && (forall q | q in t' && q !in t && q != to :: q < to && t'[q] == Dir)
  {
    var m := MkdirAll(t, to, |to| - 1);
    var t' := m[to := File(bytes)];
    MkdirWorks(t, to, |to| - 1);
    forall q, k | q in t' && 0 <= k < |q| ensures IsDir(t', q[..k]) {
      if q == to {
        Ancestor(m, q[..k], Parent(to));
      } else if q[..k] == to {
        Ancestor(m, to, q);
      }
    }
  }

  lemma ParkWorks(t: Tree, from: Path)
    requires WellFormed(t) && from in t && from != [] && Legacy(from) !in t
    ensures CanRename(t, from, Legacy(from))
  {
    assert IsDir(t, from[..|from| - 1]);
    assert Parent(Legacy(from)) == Parent(from);
    assert |from[|from| - 1] + ".legacy"| > |from[|from| - 1]|;
  }

  lemma ParkEffect(guard: Path, from: Path, to: Path, t: Tree)
    requires WellFormed(t) && WellShaped(Move(guard, from, to)) && from in t && Legacy(from) !in t
    ensures Effect(Move(guard, from, to), t, Rename(t, from, Legacy(from)))
  {
    ParkWorks(t, from);
    RenameEffect(t, from, Legacy(from));
    RenameKeepsTree(t, from, Legacy(from));
  }

  lemma ResolveEffect(guard: Path, from: Path, to: Path, t: Tree)
    requires WellFormed(t) && WellShaped(Move(guard, from, to)) && from in t && IsFile(t, to)
    ensures Effect(Move(guard, from, to), t, ExecResolve(t, from, to).tree)
  {
    if IsFile(t, from) && t[from] == t[to] {
      FilesAreLeaves(t, from);
      RemoveEffect(t, from);
    } else if IsFile(t, from) && Legacy(from) !in t {
      ParkEffect(guard, from, to, t);
    }
  }

  lemma MoveEffect(guard: Path, from: Path, to: Path, t: Tree)
    requires WellFormed(t) && from != [] && to != [] && !(from <= to)
    ensures Effect(Move(guard, from, to), t, ExecMove(t, from, to).tree)
  {
    hide ExecResolve, Relocate;
    if from in t {
      if Lstat(t, to) == NotExist {
        RelocateWorks(t, from, to);
      } else if IsFile(t, to) {
        ResolveEffect(guard, from, to, t);
      }
    }
  }

  lemma PartialMoveEffect(crossDevice: bool, guard: Path, from: Path, to: Path, t: Tree, t': Tree)
    requires WellFormed(t) && from != [] && to != [] && !(from <= to)
    requires PartialMove(crossDevice, t, from, to, t')
    ensures Effect(Move(guard, from, to), t, t')
  {
    if PartialMkdir(t, to, t') {
      var k: nat :| k < |to| && t' == MkdirAll(t, to, k);
      MkdirWorks(t, to, k);
    } else {
      var bytes := if t[from].File? then t[from].bytes else [];
      var n: nat :| n <= |bytes| && t' == MkdirAll(t, to, |to| - 1)[to := File(bytes[..n])];
      CopyWorks(t, from, to, bytes[..n]);
    }
  }

  /** Every tree a job can leave, completed or not, differs from the tree it
      started on only inside the job's frame. */
  lemma EffectOf(crossDevice: bool, j: Job, t: Tree, t': Tree)
    requires WellFormed(t) && WellShaped(j) && Partial(crossDevice, j, t, t')
    ensures Effect(j, t, t')
  {
    match j
    case Move(guard, from, to) =>
      MoveEffect(guard, from, to, t);
      if t' != t && t' != Exec(j, t).tree { PartialMoveEffect(crossDevice, guard, from, to, t, t'); }
    case Hoist(from, to, dir) => HoistEffect(crossDevice, j, t, t');
    case MoveDir(from, to) => MoveDirEffect(crossDevice, j, t, t');
    case Purge(guard, path) => PurgeEffect(crossDevice, j, t, t');
    case Drop(guard, path) => if !HasEntries(t, path) { RemoveEffect(t, path); }
    case Rmdir(guard, path) => if !HasEntries(t, path) { RemoveEffect(t, path); }
    case List(_) =>
  }

  /** The trees a hoist goes through: its move's, then the one without the emptied directory. */
  lemma HoistStates(crossDevice: bool, j: Job, t: Tree, t': Tree)
    requires WellShaped(j) && j.Hoist? && Partial(crossDevice, j, t, t')
    ensures var m := ExecMove(t, j.from, j.to).tree;
      || t' == t || t' == m
      || (t' == Remove(m, j.dir) && t' == Exec(j, t).tree && IsDir(m, j.dir) && !HasEntries(m, j.dir)
          && ExecMove(t, j.from, j.to).report.moved != [] && ExecMove(t, j.from, j.to).error.None?)
      || PartialMove(crossDevice, t, j.from, j.to, t')
    ensures Exec(j, t).error == ExecMove(t, j.from, j.to).error
    ensures var m := ExecMove(t, j.from, j.to).tree;
      || Exec(j, t).tree == m
      || (Exec(j, t).tree == Remove(m, j.dir) && IsDir(m, j.dir) && !HasEntries(m, j.dir)
          && ExecMove(t, j.from, j.to).error.None?)
    ensures ExecMove(t, j.from, j.to).report.moved == [] ==> Exec(j, t) == ExecMove(t, j.from, j.to)
  {
    hide ExecMove, PartialMove;
  }

  lemma HoistEffect(crossDevice: bool, j: Job, t: Tree, t': Tree)
    requires WellFormed(t) && WellShaped(j) && j.Hoist? && Partial(crossDevice, j, t, t')
    ensures Effect(j, t, t')
  {
    var m := ExecMove(t, j.from, j.to).tree;
    MoveEffect([], j.from, j.to, t);
    HoistStates(crossDevice, j, t, t');
    hide Exec, ExecMove, Partial;
    if PartialMove(crossDevice, t, j.from, j.to, t') {
      PartialMoveEffect(crossDevice, [], j.from, j.to, t, t');
    } else if t' != t && t' != m {
      RemoveEffect(m, j.dir);
    }
  }

  lemma MoveDirEffect(crossDevice: bool, j: Job, t: Tree, t': Tree)
    requires WellFormed(t) && WellShaped(j) && j.MoveDir? && Partial(crossDevice, j, t, t')
    ensures Effect(j, t, t')
  {
    hide Relocate, MkdirAll;
    if Relocates(t, j.from, j.to) {
      RelocateWorks(t, j.from, j.to);
      if t' != t && t' != Exec(j, t).tree {
        var k: nat :| k < |j.to| && t' == MkdirAll(t, j.to, k);
        MkdirWorks(t, j.to, k);
      }
    }
  }

  lemma PurgeEffect(crossDevice: bool, j: Job, t: Tree, t': Tree)
    requires WellFormed(t) && WellShaped(j) && j.Purge? && Partial(crossDevice, j, t, t')
    ensures Effect(j, t, t')
  {
    if j.path in t {
      RemoveAllIsPartial(t, j.path);
      PartlyRemovedEffect(t, j.path, RemoveAll(t, j.path));
      if t' != t { PartlyRemovedEffect(t, j.path, t'); }
    }
  }
}
