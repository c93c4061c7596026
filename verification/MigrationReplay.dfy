/** When a job has nothing left to do, and why later jobs leave it that way. */
module MigrationReplay {
  import opened Common
  import opened FileTree
  import opened MigrationJobs
  import opened MigrationEffects
  import opened MigrationTables

  /** Running the job again changes nothing and reports nothing changed. */
  ghost predicate Settled(j: Job, t: Tree)
    requires WellShaped(j)
  {
    Exec(j, t).tree == t && Exec(j, t).error.None? && !Exec(j, t).report.Changed()
  }

  predicate Absent(t: Tree, p: Path) {
    p !in t && Lstat(t, p) == NotExist
  }

  /** The source stays where it is: its target is a directory, or holds other
      bytes while the .legacy place is taken too. */
  predicate Stuck(t: Tree, from: Path, to: Path)
    requires from != []
  {
    && from in t && to in t
    && (t[to].Dir? || (t[from].File? && t[from] != t[to] && Legacy(from) in t))
  }

  predicate Quiet(j: Job, t: Tree)
    requires WellShaped(j)
  {
    match j
    case Move(guard, from, to) => !IsDir(t, guard) || Absent(t, from) || Stuck(t, from, to)
    case Hoist(from, to, _) => Absent(t, from) || Stuck(t, from, to)
    case MoveDir(from, to) => Absent(t, from) || (IsDir(t, from) && to in t)
    case Purge(guard, path) => !IsDir(t, guard) || Absent(t, path)
    case Drop(guard, path) => !IsDir(t, guard) || Absent(t, path)
    case Rmdir(guard, path) => !IsDir(t, guard) || Absent(t, path) || (IsDir(t, path) && HasEntries(t, path))
    case List(path) => Absent(t, path) || IsDir(t, path)
  }

  lemma QuietIsSettled(j: Job, t: Tree)
    requires WellShaped(j) && Quiet(j, t)
    ensures Settled(j, t)
  {
  }

  /** The source of a file move is a regular file, if it is there at all. */
  predicate FileSource(j: Job, t: Tree) {
    (j.Move? || j.Hoist?) && j.from in t ==> t[j.from].File?
  }

  /** An entry that went away leaves no file on the way to where it was. */
  lemma GoneIsAbsent(t: Tree, t': Tree, p: Path)
    requires WellFormed(t) && WellFormed(t') && p in t && p !in t'
    requires forall q | q in t && q in t' :: t'[q] == t[q]
    ensures Absent(t', p)
  {
    forall k | 0 <= k < |p| ensures IsDir(t, p[..k]) { }
  }

  /** A job that completed is settled. */
  lemma CompletedIsQuiet(j: Job, t: Tree)
    requires WellFormed(t) && WellShaped(j) && FileSource(j, t) && Exec(j, t).error.None?
    ensures Quiet(j, Exec(j, t).tree)
  {
    var t' := Exec(j, t).tree;
    EffectOf(false, j, t, t');
    match j
    case Move(guard, from, to) => 
      if IsDir(t, guard) {
        MovedIsQuiet(from, to, t);
        if t' != t { GoneIsAbsent(t, t', from); }
      }
    case Hoist(from, to, dir) => HoistedIsQuiet(j, t);
    case MoveDir(from, to) =>
      if t' != t { RelocateWorks(t, from, to); GoneIsAbsent(t, t', from); }
    case Purge(guard, path) => if path in t && IsDir(t, guard) { GoneIsAbsent(t, t', path); }
    case Drop(guard, path) => if path in t && IsDir(t, guard) { GoneIsAbsent(t, t', path); }
    case Rmdir(guard, path) => if t' != t { GoneIsAbsent(t, t', path); }
    case List(_) =>
  }

  lemma MovedIsQuiet(from: Path, to: Path, t: Tree)
    requires WellFormed(t) && from != [] && to != [] && !(from <= to) && ExecMove(t, from, to).error.None?
    requires from in t ==> t[from].File?
    ensures var t' := ExecMove(t, from, to).tree;
            (t' == t && (Absent(t, from) || Stuck(t, from, to))) || (from in t && from !in t')
  {
    if from in t && Lstat(t, to) == NotExist { RelocateWorks(t, from, to); }
    else if from in t && IsFile(t, to) && t[from] != t[to] && Legacy(from) !in t {
      ParkWorks(t, from);
      RenameEffect(t, from, Legacy(from));
    }
  }

  lemma HoistedIsQuiet(j: Job, t: Tree)
    requires WellFormed(t) && WellShaped(j) && j.Hoist? && FileSource(j, t) && Exec(j, t).error.None?
    ensures Quiet(j, Exec(j, t).tree)
  {
    var m, t' := ExecMove(t, j.from, j.to).tree, Exec(j, t).tree;
    HoistStates(false, j, t, t');
    MovedIsQuiet(j.from, j.to, t);
    MoveKeepsPlace(j.from, j.to, t);
    EffectOf(false, j, t, t');
    hide Exec, ExecMove, Partial;
    if j.from in t && j.from !in t' { GoneIsAbsent(t, t', j.from); }
  }

  lemma MoveKeepsPlace(from: Path, to: Path, t: Tree)
    requires from != [] && to != []
    ensures ExecMove(t, from, to).report.moved == [] || from in t
  {
  }

  /* ---- stability ---- */

  /** What a job can create: directories above its target, its target, or the
      parked copy of its source. */
  lemma CreatedAt(j: Job, t: Tree, t': Tree, q: Path)
    requires WellFormed(t) && WellShaped(j) && FileSource(j, t) && Partial(false, j, t, t')
    requires q in t' && q !in t
    ensures j.Move? || j.Hoist? || j.MoveDir?
    ensures || (q < j.to && t'[q].Dir?)
            || (j.MoveDir? && j.to <= q)
            || (!j.MoveDir? && t'[q].File? && (q == j.to || q == Legacy(j.from)))
  {
    EffectOf(false, j, t, t');
    match j
    case Move(_, from, to) => CreatedByMove(from, to, t, t', q);
    case Hoist(from, to, dir) => CreatedByHoist(j, t, t', q);
    case MoveDir(from, to) =>
      if t' == Relocate(t, from, to) {
        RelocateWorks(t, from, to);
      } else {
        var k: nat :| k < |to| && t' == MkdirAll(t, to, k);
        MkdirWorks(t, to, k);
      }
    case _ =>
  }

  lemma CreatedByMove(from: Path, to: Path, t: Tree, t': Tree, q: Path)
    requires WellFormed(t) && from != [] && to != [] && !(from <= to)
    requires from in t ==> t[from].File?
    requires t' == ExecMove(t, from, to).tree || PartialMove(false, t, from, to, t')
    requires q in t' && q !in t
    ensures (q < to && t'[q].Dir?) || (t'[q].File? && (q == to || q == Legacy(from)))
  {
    FilesAreLeaves(t, from);
    if PartialMove(false, t, from, to, t') {
      var k: nat :| k < |to| && t' == MkdirAll(t, to, k);
      MkdirWorks(t, to, k);
    } else if Lstat(t, to) == NotExist {
      RelocateWorks(t, from, to);
      assert to <= q ==> from + q[|to|..] == from;
    } else {
      ParkWorks(t, from);
      RenameEffect(t, from, Legacy(from));
      assert from + q[|Legacy(from)|..] == from;
    }
  }

  lemma CreatedByHoist(j: Job, t: Tree, t': Tree, q: Path)
    requires WellFormed(t) && WellShaped(j) && j.Hoist? && FileSource(j, t) && Partial(false, j, t, t')
    requires q in t' && q !in t
    ensures (q < j.to && t'[q].Dir?) || (t'[q].File? && (q == j.to || q == Legacy(j.from)))
  {
    var m := ExecMove(t, j.from, j.to).tree;
    HoistStates(false, j, t, t');
    hide Exec, ExecMove, Partial;
    CreatedByMove(j.from, j.to, t, if PartialMove(false, t, j.from, j.to, t') then t' else m, q);
  }

  /** One job of the tables, whole or in part, on one filesystem. */
  ghost predicate Runs(j: Job, t: Tree, t': Tree) {
    WellFormed(t) && WellShaped(j) && InTables(j) && FileSource(j, t) && Partial(false, j, t, t')
  }

  lemma JobPaths(j: Job)
    requires InTables(j) && (j.Move? || j.Hoist? || j.MoveDir?)
    ensures IsSource(j.from) && IsTarget(j.to)
    ensures j.MoveDir? ==> j.to == ["shared", "code"] && KindOf(j.to[1]) == Code
  {
    if j.Hoist? { HoistPaths(j); }
    if j.MoveDir? { CodeDirPaths(); SubdirectoryKinds(); }
  }

  /** What appears in the tree: a directory of the v1 layout, the moved code
      directory, a file at a target, or a parked copy. */
  lemma CreatedKinds(j: Job, t: Tree, t': Tree, q: Path)
    requires Runs(j, t, t') && q in t' && q !in t
    ensures q != []
    ensures || (t'[q].Dir? && |q| <= 2 && KindOf(q[0]) in {Prompts, Shared} && (|q| == 2 ==> KindOf(q[0]) == Prompts || q == REPORTS))
            || (|q| >= 2 && KindOf(q[0]) == Shared && KindOf(q[1]) == Code)
            || (t'[q].File? && (IsTarget(q) || exists s :: IsSource(s) && q == Legacy(s)))
  {
    assert q != [];
    CreatedAt(j, t, t', q);
    JobPaths(j);
    DirectoryKinds();
    hide *;
    if q < j.to {
      AboveTarget(q, j.to);
    } else if j.MoveDir? {
      PrefixEntries(j.to, q);
    }
  }

  lemma AboveTarget(q: Path, p: Path)
    requires IsTarget(p) && q < p && q != []
    ensures |q| <= 2 && KindOf(q[0]) in {Prompts, Shared} && (|q| == 2 ==> KindOf(q[0]) == Prompts || q == REPORTS)
  {
    PrefixEntries(q, p);
    if |q| == 2 && KindOf(q[0]) == Shared {
      assert q[0] == "shared" && q[1] == "report";
    }
  }

  /** No job brings a source back. */
  lemma SourceNotCreated(j: Job, t: Tree, t': Tree, p: Path)
    requires Runs(j, t, t') && IsSource(p) && p !in t
    ensures p !in t'
  {
    if p in t' {
      CreatedKinds(j, t, t', p);
      if IsTarget(p) { SourceAboveTarget(p, p); }
      forall s | IsSource(s) ensures p != Legacy(s) { ParkedAndSources(s, p); }
      hide Exec, Partial, InTables, KindOf;
    }
  }

  /** Nor does it put a file above one, except where a report directory would be. */
  lemma FileAboveSource(j: Job, t: Tree, t': Tree, q: Path, p: Path)
    requires Runs(j, t, t') && IsSource(p) && q < p && IsFile(t', q) && q !in t
    ensures |p| == 4 && q == Parent(p)
  {
    CreatedKinds(j, t, t', q);
    PrefixEntries(q, p);
    hide Exec, Partial, InTables, KindOf;
    if IsTarget(q) { TargetAboveSource(q, p); }
    forall s | IsSource(s) ensures q != Legacy(s) { ParkedAndSources(s, p); }
  }

  lemma SourceStaysAbsent(j: Job, t: Tree, t': Tree, p: Path)
    requires Runs(j, t, t') && IsSource(p) && Absent(t, p)
    ensures Absent(t', p) || (|p| == 4 && !IsDir(t', Parent(p)))
  {
    SourceNotCreated(j, t, t', p);
    EffectOf(false, j, t, t');
    if Lstat(t', p) != NotExist {
      var k :| 0 <= k < |p| && IsFile(t', p[..k]);
      FileAboveSource(j, t, t', p[..k], p);
    }
  }

  /** A name no listing found is found by no later listing. */
  lemma NotListedStays(j: Job, t: Tree, t': Tree, g: Path)
    requires Runs(j, t, t') && IsListed(g) && !IsDir(t, g)
    ensures !IsDir(t', g)
  {
    EffectOf(false, j, t, t');
    if IsDir(t', g) && g !in t {
      CreatedKinds(j, t, t', g);
      DirectoryKinds();
      SubdirectoryKinds();
      hide Exec, Partial, InTables, KindOf;
    }
  }

  /** The three directories looked at by their own name never become files, and
      roles/ and supervisor/ never come back. */
  lemma NamedDirStays(j: Job, t: Tree, t': Tree, p: Path)
    requires Runs(j, t, t') && p in [ROLES, SUPERVISOR, REPORTS]
    ensures Absent(t, p) ==> Absent(t', p) || (p == REPORTS && IsDir(t', p))
    ensures IsDir(t, p) ==> Absent(t', p) || IsDir(t', p)
  {
    EffectOf(false, j, t, t');
    hide Exec, Partial, InTables, KindOf, WellShaped, FileSource;
    if p in t && p !in t' { GoneIsAbsent(t, t', p); }
    forall q | q in t' && q !in t && q <= p ensures q == p == REPORTS || q == ["shared"]
      ensures t'[q].Dir?
    {
      CreatedKinds(j, t, t', q);
      NamedDirPrefix(q, p);
      hide Exec, Partial, InTables, KindOf;
    }
  }

  lemma NamedDirPrefix(q: Path, p: Path)
    requires p in [ROLES, SUPERVISOR, REPORTS] && q <= p && q != []
    ensures KindOf(q[0]) in {Roles, Supervisor, Shared} && (KindOf(q[0]) == Shared <==> p == REPORTS)
    ensures |q| == 2 ==> q == REPORTS && KindOf(q[1]) == Reports
    ensures |q| == 1 ==> (KindOf(q[0]) == Shared <==> q == ["shared"]) && !IsTarget(q)
    ensures |q| == 2 ==> !IsTarget(q)
    ensures forall s | IsSource(s) :: q != Legacy(s)
  {
    DirectoryKinds();
    SubdirectoryKinds();
    forall s | IsSource(s) ensures q != Legacy(s) { ParkedKind(s[|s| - 1]); }
    hide KindOf;
  }

  /** A target disappears only when it is an emptied report directory. */
  lemma TargetRemoved(j: Job, t: Tree, t': Tree, p: Path)
    requires Runs(j, t, t') && IsTarget(p) && p in t && p !in t'
    ensures j.Rmdir? && j.path == p && IsDir(t, p) && t' == Exec(j, t).tree && !HasEntries(t, p)
  {
    EffectOf(false, j, t, t');
    match j
    case Move(_, from, _) => SourceAboveTarget(p, from);
    case MoveDir(from, _) => CodeDirPaths(); SourceAboveTarget(p, from);
    case Hoist(from, _, _) => HoistPaths(j); SourceAboveTarget(p, from);
    case Purge(_, path) => SourceAboveTarget(p, path);
    case Drop(_, path) => SourceAboveTarget(p, path);
    case Rmdir(_, _) =>
    case List(_) =>
  }

  /** A parked copy never disappears. */
  lemma ParkedStays(j: Job, t: Tree, t': Tree, s: Path)
    requires Runs(j, t, t') && IsSource(s) && Legacy(s) in t
    ensures Legacy(s) in t'
  {
    EffectOf(false, j, t, t');
    ParkedKind(s[|s| - 1]);
    DirectoryKinds();
    hide Exec, Partial, KindOf;
    match j
    case Move(_, from, _) => ParkedAndSources(s, from);
    case MoveDir(from, _) => CodeDirPaths(); ParkedAndSources(s, from);
    case Hoist(from, _, dir) => HoistPaths(j); ParkedAndSources(s, from);
    case Purge(_, path) => ParkedAndSources(s, path);
    case Drop(_, path) => ParkedAndSources(s, path);
    case Rmdir(_, path) => assert |path| == 1 ==> KindOf(path[0]) in {Roles, Supervisor};
    case List(_) =>
  }

  /** j' may remove something strictly below p. */
  predicate RemovesBelow(j': Job, p: Path) {
    match j'
    case Move(_, from, _) => from <= p || p < from
    case MoveDir(from, _) => from <= p || p < from
    case Hoist(from, _, dir) => from <= p || p < from || p < dir
    case Purge(_, path) => path <= p || p < path
    case Drop(_, path) => p < path
    case Rmdir(_, path) => p < path
    case List(_) => false
  }

  /** Fine as an earlier and a later job: a directory found non-empty is not emptied later. */
  predicate InOrder(j: Job, j': Job) {
    j.Rmdir? ==> !RemovesBelow(j', j.path)
  }

  /** j' takes away the empty directory that blocks the pending source of j. */
  predicate Unblocks(j: Job, j': Job, t: Tree) {
    && j.Move? && j'.Rmdir? && j'.path == j.to
    && IsDir(t, j.to) && !HasEntries(t, j.to) && j.from in t
  }

  /** A job with nothing left to do stays so while later jobs run, wholly or in
      part - unless one of them removes the directory blocking it. */
  lemma QuietStays(j: Job, j': Job, t: Tree, t': Tree)
    requires WellShaped(j) && InTables(j) && Quiet(j, t)
    requires Runs(j', t, t') && InOrder(j, j') && !Unblocks(j, j', t)
    ensures Quiet(j, t')
  {
    hide Exec, Partial, Effect, KindOf, FileSource, WellFormed;
    match j
    case Move(guard, from, to) =>
      if IsDir(t, guard) { MoveStaysQuiet(from, to, j', t, t'); }
      else { GuardStays(guard, from, j', t, t'); }
    case Hoist(from, to, _) => HoistPaths(j); MoveStaysQuiet(from, to, j', t, t');
    case MoveDir(from, to) => MoveDirStaysQuiet(j, j', t, t');
    case Purge(guard, path) =>
      if IsDir(t, guard) { SourceStaysAbsent(j', t, t', path); } else { GuardStays(guard, path, j', t, t'); }
    case Drop(guard, path) =>
      if IsDir(t, guard) { SourceStaysAbsent(j', t, t', path); } else { GuardStays(guard, path, j', t, t'); }
    case Rmdir(guard, path) => RmdirStaysQuiet(j, j', t, t');
    case List(path) => NamedDirStays(j', t, t', path);
  }

  lemma MoveDirStaysQuiet(j: Job, j': Job, t: Tree, t': Tree)
    requires WellShaped(j) && InTables(j) && j.MoveDir? && Quiet(j, t) && Runs(j', t, t')
    ensures Quiet(j, t')
  {
    EffectOf(false, j', t, t');
    CodeDirPaths();
    SubdirectoryKinds();
    DirectoryKinds();
    if Absent(t, j.from) { SourceStaysAbsent(j', t, t', j.from); }
    else if j.from !in t' { GoneIsAbsent(t, t', j.from); }
    else if j.to !in t' { TargetRemoved(j', t, t', j.to); }
  }

  lemma GuardStays(guard: Path, p: Path, j': Job, t: Tree, t': Tree)
    requires IsGuard(guard, p) && !IsDir(t, guard) && Runs(j', t, t')
    ensures !IsDir(t', guard)
  {
    if guard != ROOT { NotListedStays(j', t, t', guard); }
  }

  lemma MoveStaysQuiet(from: Path, to: Path, j': Job, t: Tree, t': Tree)
    requires IsSource(from) && IsTarget(to) && Runs(j', t, t')
    requires Absent(t, from) || Stuck(t, from, to)
    requires !(j'.Rmdir? && j'.path == to && IsDir(t, to) && !HasEntries(t, to) && from in t)
    ensures Absent(t', from) || Stuck(t', from, to) || (|from| == 4 && !IsDir(t', Parent(from)))
  {
    EffectOf(false, j', t, t');
    if Absent(t, from) { SourceStaysAbsent(j', t, t', from); }
    else if from !in t' { GoneIsAbsent(t, t', from); }
    else {
      if to !in t' { TargetRemoved(j', t, t', to); }
      if Legacy(from) in t { ParkedStays(j', t, t', from); }
    }
  }

  lemma RmdirStaysQuiet(j: Job, j': Job, t: Tree, t': Tree)
    requires WellShaped(j) && InTables(j) && j.Rmdir? && Quiet(j, t)
    requires Runs(j', t, t') && InOrder(j, j')
    ensures Quiet(j, t')
  {
    EffectOf(false, j', t, t');
    if j.guard != ROOT && !IsDir(t, j.guard) { NotListedStays(j', t, t', j.guard); }
    else if Absent(t, j.path) { if j.guard == ROOT { NamedDirStays(j', t, t', j.path); } }
    else {
      var q :| q in t && j.path < q;
      if q !in t' {
        assert MayRemove(j', q, t[q]);
        StaysBelow(j, j', q, t);
      }
      Ancestor(t', j.path, q);
    }
  }

  lemma StaysBelow(j: Job, j': Job, q: Path, t: Tree)
    requires j.Rmdir? && j.path < q && q in t && !RemovesBelow(j', j.path)
    ensures !MayRemove(j', q, t[q])
  {
  }
}
