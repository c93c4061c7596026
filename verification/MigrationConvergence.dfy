/** Stopping a run of jobs anywhere and running all of them again. */
module MigrationConvergence {
  import opened Common
  import opened FileTree
  import opened MigrationJobs
  import opened MigrationEffects
  import opened MigrationTables
  import opened MigrationReplay

  /* ---- resuming the job that was stopped ---- */

  lemma MkdirAllTwice(t: Tree, p: Path, k: nat, m: nat)
    requires k <= m <= |p|
    ensures MkdirAll(MkdirAll(t, p, k), p, m) == MkdirAll(t, p, m)
  {
    forall q | q in Prefixes(p, k) ensures q in Prefixes(p, m) { }
  }

  lemma StillNotThere(t: Tree, to: Path, k: nat)
    requires WellFormed(t) && to != [] && Lstat(t, to) == NotExist && k < |to|
    ensures Lstat(MkdirAll(t, to, k), to) == NotExist
  {
    var t' := MkdirAll(t, to, k);
    MkdirWorks(t, to, k);
    forall i | 0 <= i < |to| ensures !IsFile(t', to[..i]) {
      assert !IsFile(t, to[..i]);
    }
  }

  lemma RelocateResumes(t: Tree, from: Path, to: Path, k: nat)
    requires WellFormed(t) && from != [] && to != [] && !(from <= to) && Relocates(t, from, to) && k < |to|
    ensures Relocates(MkdirAll(t, to, k), from, to)
    ensures MkdirAll(t, to, k)[from] == t[from]
    ensures Relocate(MkdirAll(t, to, k), from, to) == Relocate(t, from, to)
  {
    hide Rename, Lstat, WellFormed, MkdirAll;
    StillNotThere(t, to, k);
    MkdirAllTwice(t, to, k, |to| - 1);
    KeepsEntry(t, to, k, from);
  }

  lemma KeepsEntry(t: Tree, to: Path, k: nat, q: Path)
    requires k <= |to| && q in t
    ensures q in MkdirAll(t, to, k) && MkdirAll(t, to, k)[q] == t[q]
  {
  }

  lemma PurgeResumes(t: Tree, p: Path, t': Tree)
    requires WellFormed(t) && p != [] && p in t && PartlyRemoved(t, p, t')
    ensures ExecPurge(t', p).error.None? && ExecPurge(t', p).tree == RemoveAll(t, p)
  {
    PartlyRemovedEffect(t, p, t');
    if p in t' {
      assert RemoveAll(t', p) == RemoveAll(t, p);
    } else {
      GoneIsAbsent(t, t', p);
      forall q | q in t' ensures !(p <= q) { if p <= q { Ancestor(t', p, q); } }
      assert t' == RemoveAll(t, p);
    }
  }

  lemma FailureKeepsTree(j: Job, t: Tree)
    requires WellShaped(j) && Exec(j, t).error.Some?
    ensures Exec(j, t).tree == t
  {
  }

  /** A hoist stopped between its rename and its rmdir. */
  predicate LeftDir(j: Job, t: Tree, t': Tree)
    requires WellShaped(j)
  {
    j.Hoist? && j.dir !in Exec(j, t).tree && t' == Exec(j, t).tree[j.dir := Dir] && Exec(j, t).error.None?
  }

  lemma MoveResumes(j: Job, t: Tree, t': Tree)
    requires Runs(j, t, t') && j.Move? && IsDir(t, j.guard) && PartialMkdir(t, j.to, t') && Relocates(t, j.from, j.to)
    ensures Exec(j, t') == Exec(j, t)
  {
    hide Partial, InTables, FileSource, MkdirAll;
    var k: nat :| k < |j.to| && t' == MkdirAll(t, j.to, k);
    RelocateResumes(t, j.from, j.to, k);
    MkdirWorks(t, j.to, k);
  }

  lemma HoistResumes(j: Job, t: Tree, t': Tree)
    requires Runs(j, t, t') && j.Hoist? && t' != t && t' != Exec(j, t).tree
    ensures Exec(j, t') == Exec(j, t) || (LeftDir(j, t, t') && Quiet(j, t'))
  {
    hide Exec, ExecMove, Partial, WellFormed, Lstat, MkdirAll;
    var m := ExecMove(t, j.from, j.to).tree;
    HoistStates(false, j, t, t');
    if PartialMove(false, t, j.from, j.to, t') {
      var k: nat :| k < |j.to| && t' == MkdirAll(t, j.to, k);
      HoistRestarts(j, t, k);
    } else {
      assert Remove(m, j.dir)[j.dir := Dir] == m;
      MovedIsQuiet(j.from, j.to, t);
      MoveEffect([], j.from, j.to, t);
      MoveKeepsPlace(j.from, j.to, t);
      if j.from !in m { GoneIsAbsent(t, m, j.from); }
    }
  }

  lemma HoistRestarts(j: Job, t: Tree, k: nat)
    requires WellFormed(t) && WellShaped(j) && j.Hoist? && Relocates(t, j.from, j.to) && k < |j.to|
    ensures Exec(j, MkdirAll(t, j.to, k)) == Exec(j, t)
  {
    RelocateResumes(t, j.from, j.to, k);
    hide MkdirAll, Relocate;
  }

  lemma MoveDirResumes(j: Job, t: Tree, t': Tree)
    requires Runs(j, t, t') && j.MoveDir? && t' != t && t' != Exec(j, t).tree
    ensures Exec(j, t') == Exec(j, t)
  {
    var k: nat :| k < |j.to| && t' == MkdirAll(t, j.to, k);
    RelocateResumes(t, j.from, j.to, k);
  }

  lemma PurgeJobResumes(j: Job, t: Tree, t': Tree)
    requires Runs(j, t, t') && j.Purge? && t' != t && t' != Exec(j, t).tree
    ensures Exec(j, t').tree == Exec(j, t).tree && Exec(j, t').error == Exec(j, t).error
  {
    PurgeResumes(t, j.path, t');
    assert !(j.path <= j.guard);
  }

  /** Running a stopped job again ends where running it once would have ended. */
  lemma JobResumes(j: Job, t: Tree, t': Tree)
    requires Runs(j, t, t')
    ensures || (Exec(j, t').tree == Exec(j, t).tree && Exec(j, t').error == Exec(j, t).error)
            || (LeftDir(j, t, t') && Quiet(j, t'))
  {
    if t' != t {
      if t' == Exec(j, t).tree {
        if Exec(j, t).error.Some? { FailureKeepsTree(j, t); }
        CompletedIsQuiet(j, t);
        QuietIsSettled(j, t');
      } else {
        match j
        case Move(_, _, _) => MoveResumes(j, t, t');
        case Hoist(_, _, _) => HoistResumes(j, t, t');
        case MoveDir(_, _) => MoveDirResumes(j, t, t');
        case Purge(_, _) => PurgeJobResumes(j, t, t');
        case _ =>
      }
    }
  }
}
