/** internal/migrate/v1_layout.go as it runs: methods that change a disk one
    operation at a time, any of which the environment may refuse. */
module MigrationRun {
  import opened Common
  import opened FileTree
  import opened SortedNames
  import opened MigrationJobs
  import opened MigrationEffects
  import opened MigrationTables
  import opened MigrationReplay
  import opened MigrationTheorems
  import opened MigrationOrder
  import opened MigrationPass
  import opened MigrationLaws
  import opened MigrationClash

  /* ---- what a method did, in terms of the jobs ---- */

  /** A job from tree t and report r came to tree t' and report r'. */
  ghost predicate Did(x: bool, j: Job, t: Tree, r: Report, t': Tree, r': Report, err: Option<Error>) {
    && WellShaped(j)
    && (err.None? ==> Exec(j, t).error.None? && t' == Exec(j, t).tree && r' == r.Plus(Exec(j, t).report))
    && (err.Some? ==> Partial(x, j, t, t'))
    && (err.Some? && err.value != Interrupted && !x ==> err == Exec(j, t).error && t' == Exec(j, t).tree)
  }

  ghost predicate DidAll(x: bool, js: seq<Job>, t: Tree, r: Report, t': Tree, r': Report, err: Option<Error>) {
    && AllShaped(js)
    && (err.None? ==> ExecAll(js, t).error.None? && t' == ExecAll(js, t).tree && r' == r.Plus(ExecAll(js, t).report))
    && (err.Some? ==> Cut(x, js, t, t'))
    && (err.Some? && err.value != Interrupted && !x ==> err == ExecAll(js, t).error && t' == ExecAll(js, t).tree)
  }

  lemma DidNothing(x: bool, t: Tree, r: Report)
    ensures DidAll(x, [], t, r, t, r, None)
  {
    assert r.Plus(EMPTY) == r;
  }

  lemma {:induction false} CutExtends(x: bool, a: seq<Job>, b: seq<Job>, t: Tree, t': Tree)
    requires AllShaped(a) && AllShaped(b) && Cut(x, a, t, t')
    ensures AllShaped(a + b) && Cut(x, a + b, t, t')
  {
    hide Exec, Partial;
    if t' != t {
      assert (a + b)[0] == a[0] && (a + b)[1..] == a[1..] + b;
      if !Partial(x, a[0], t, t') { CutExtends(x, a[1..], b, Exec(a[0], t).tree, t'); }
    }
  }

  lemma {:induction false} CutLater(x: bool, a: seq<Job>, b: seq<Job>, t: Tree, t': Tree)
    requires AllShaped(a) && AllShaped(b) && ExecAll(a, t).error.None? && Cut(x, b, ExecAll(a, t).tree, t')
    ensures AllShaped(a + b) && Cut(x, a + b, t, t')
  {
    hide Exec, Partial;
    if a == [] {
      assert a + b == b;
    } else {
      assert (a + b)[0] == a[0] && (a + b)[1..] == a[1..] + b;
      CutLater(x, a[1..], b, Exec(a[0], t).tree, t');
    }
  }

  /** One run of jobs and then another. */
  lemma DidThen(x: bool, a: seq<Job>, b: seq<Job>, t: Tree, r: Report, t1: Tree, r1: Report, t2: Tree, r2: Report, err: Option<Error>)
    requires DidAll(x, a, t, r, t1, r1, None) && DidAll(x, b, t1, r1, t2, r2, err)
    ensures DidAll(x, a + b, t, r, t2, r2, err)
  {
    hide Cut, Exec, ExecAll, Partial, WellShaped;
    ExecAllConcat(a, b, t);
    if err.Some? { CutLater(x, a, b, t, t2); }
    var p, q := ExecAll(a, t).report, ExecAll(b, t1).report;
    assert r.Plus(p).Plus(q) == r.Plus(p.Plus(q));
  }

  /** A run that failed, whatever was to follow. */
  lemma DidStop(x: bool, a: seq<Job>, b: seq<Job>, t: Tree, r: Report, t': Tree, r': Report, err: Option<Error>)
    requires DidAll(x, a, t, r, t', r', err) && err.Some? && AllShaped(b)
    ensures DidAll(x, a + b, t, r, t', r', err)
  {
    hide Cut;
    ExecAllConcat(a, b, t);
    CutExtends(x, a, b, t, t');
  }

  lemma DidOne(x: bool, j: Job, t: Tree, r: Report, t': Tree, r': Report, err: Option<Error>)
    requires Did(x, j, t, r, t', r', err)
    ensures DidAll(x, [j], t, r, t', r', err)
  {
    var o := Exec(j, t);
    assert ExecAll([j][1..], o.tree) == Same(o.tree);
    assert o.report.Plus(EMPTY) == o.report;
  }

  lemma MkdirOneMore(t: Tree, p: Path, k: nat)
    requires k < |p|
    ensures MkdirAll(t, p, k + 1) == if p[..k + 1] in MkdirAll(t, p, k) then MkdirAll(t, p, k) else MkdirAll(t, p, k)[p[..k + 1] := Dir]
  {
    assert Prefixes(p, k + 1) == Prefixes(p, k) + {p[..k + 1]};
  }

  /** The target holds a first part of the source's bytes. */
  ghost predicate Copying(t: Tree, from: Path, to: Path, t': Tree)
    requires from in t
  {
    var bytes := if t[from].File? then t[from].bytes else [];
    exists n: nat | n <= |bytes| :: t' == t[to := File(bytes[..n])]
  }

  lemma CopiedNothing(t: Tree, from: Path, to: Path)
    requires from in t
    ensures Copying(t, from, to, t[to := File([])])
  {
    var bytes: Bytes := if t[from].File? then t[from].bytes else [];
    assert bytes[..0] == [];
  }

  lemma CopiedSome(t: Tree, from: Path, to: Path, n: nat)
    requires from in t && t[from].File? && n <= |t[from].bytes|
    ensures Copying(t, from, to, t[to := File(t[from].bytes[..n])])
  {
  }

  lemma CopyingIsPartial(t: Tree, from: Path, to: Path, t': Tree, m: Tree)
    requires from in t && to != [] && m == MkdirAll(t, to, |to| - 1) && from in m && Copying(m, from, to, t')
    ensures PartialCopy(t, from, to, t')
  {
    assert m[from] == t[from];
    var bytes := if m[from].File? then m[from].bytes else [];
    var n: nat :| n <= |bytes| && t' == m[to := File(bytes[..n])];
  }

  /* ---- what the loops rely on ---- */

  /** One more job of a list. */
  lemma DidNext(x: bool, js: seq<Job>, i: nat, t: Tree, r: Report, t1: Tree, r1: Report, t2: Tree, r2: Report, err: Option<Error>)
    requires i < |js| && AllShaped(js) && DidAll(x, js[..i], t, r, t1, r1, None) && Did(x, js[i], t1, r1, t2, r2, err)
    ensures DidAll(x, if err.None? then js[..i + 1] else js, t, r, t2, r2, err)
  {
    hide Did, DidAll;
    DidOne(x, js[i], t1, r1, t2, r2, err);
    DidThen(x, js[..i], [js[i]], t, r, t1, r1, t2, r2, err);
    assert js[..i] + [js[i]] == js[..i + 1];
    if err.Some? {
      DidStop(x, js[..i + 1], js[i + 1..], t, r, t2, r2, err);
      assert js[..i + 1] + js[i + 1..] == js;
    }
  }

  /** One more name of a listing. */
  lemma DidNextName(x: bool, f: Name -> seq<Job>, names: seq<Name>, i: nat,
                    t: Tree, r: Report, t1: Tree, r1: Report, t2: Tree, r2: Report, err: Option<Error>)
    requires i < |names| && AllShaped(ForEach(f, names))
    requires DidAll(x, ForEach(f, names[..i]), t, r, t1, r1, None) && DidAll(x, f(names[i]), t1, r1, t2, r2, err)
    ensures DidAll(x, if err.None? then ForEach(f, names[..i + 1]) else ForEach(f, names), t, r, t2, r2, err)
  {
    hide DidAll, Exec, ExecAll, Cut, WellShaped;
    var done, rest := ForEach(f, names[..i + 1]), ForEach(f, names[i + 1..]);
    ForEachSplit(f, names, i);
    DidThen(x, ForEach(f, names[..i]), f(names[i]), t, r, t1, r1, t2, r2, err);
    if err.Some? { DidStop(x, done, rest, t, r, t2, r2, err); }
  }

  lemma ForEachOne(f: Name -> seq<Job>, n: Name)
    ensures ForEach(f, [n]) == f(n)
  {
  }

  lemma ForEachSnoc(f: Name -> seq<Job>, a: seq<Name>, n: Name)
    ensures ForEach(f, a + [n]) == ForEach(f, a) + f(n)
  {
    ForEachConcat(f, a, [n]);
    ForEachOne(f, n);
  }

  lemma ForEachSplit(f: Name -> seq<Job>, names: seq<Name>, i: nat)
    requires i < |names|
    ensures ForEach(f, names[..i + 1]) == ForEach(f, names[..i]) + f(names[i])
    ensures ForEach(f, names) == ForEach(f, names[..i + 1]) + ForEach(f, names[i + 1..])
  {
    hide ForEach;
    ForEachSnoc(f, names[..i], names[i]);
    ForEachConcat(f, names[..i + 1], names[i + 1..]);
    assert names[..i + 1] == names[..i] + [names[i]];
    assert names == names[..i + 1] + names[i + 1..];
  }

  lemma DidKeepsTree(x: bool, js: seq<Job>, t: Tree, r: Report, t': Tree, r': Report)
    requires WellFormed(t) && DidAll(x, js, t, r, t', r', None)
    ensures WellFormed(t')
  {
    RunKeepsTree(js, t);
  }

  /** A listed directory goes only in its own rmdir. */
  lemma ListedDirStays(j: Job, t: Tree, g: Path)
    requires WellFormed(t) && InTables(j) && WellShaped(j) && (g == ROOT || IsListed(g)) && IsDir(t, g)
    requires !(j.Rmdir? && j.path == g)
    ensures IsDir(Exec(j, t).tree, g)
  {
    CompletedIsPartial(false, j, t);
    EffectOf(false, j, t, Exec(j, t).tree);
    hide Exec, Partial, WellFormed;
    NotRemovedAbove(j, g, t[g]);
  }

  lemma NotRemovedAbove(j: Job, g: Path, node: Node)
    requires InTables(j) && WellShaped(j) && (g == ROOT || IsListed(g)) && !(j.Rmdir? && j.path == g)
    ensures !MayRemove(j, g, node)
  {
    if j.Hoist? { HoistPaths(j); }
    if j.MoveDir? { CodeDirPaths(); }
    if MayRemove(j, g, node) { RemovedPrefix(j, g, node); }
    hide KindOf;
  }

  lemma {:induction false} RunKeepsListed(js: seq<Job>, t: Tree, g: Path)
    requires WellFormed(t) && AllInTables(js) && AllShaped(js) && (g == ROOT || IsListed(g)) && IsDir(t, g)
    requires forall j | j in js :: !(j.Rmdir? && j.path == g)
    ensures IsDir(ExecAll(js, t).tree, g)
  {
    hide Exec, InTables, KindOf, IsListed;
    if js != [] {
      assert js[0] in js;
      ListedDirStays(js[0], t, g);
      CompletedIsPartial(false, js[0], t);
      EffectOf(false, js[0], t, Exec(js[0], t).tree);
      hide Partial;
      RunKeepsListed(js[1..], Exec(js[0], t).tree, g);
    }
  }

  lemma NoRoleDirCreated(j: Job, n: Name)
    requires InTables(j) && WellShaped(j)
    ensures !MayCreate(j, RoleDir(n))
  {
    if j.Move? || j.Hoist? || j.MoveDir? {
      JobPaths(j);
      DirectoryKinds();
      ParkedKind(j.from[|j.from| - 1]);
      hide KindOf, InTables;
      RoleDirKinds(j.from, j.to, n);
    }
  }

  lemma RoleDirKinds(from: Path, to: Path, n: Name)
    requires IsSource(from) && IsTarget(to)
    ensures !(RoleDir(n) < to) && !(to <= RoleDir(n)) && !(Legacy(from) <= RoleDir(n))
  {
    DirectoryKinds();
    ParkedKind(from[|from| - 1]);
    hide KindOf;
    assert RoleDir(n)[0] == "roles";
  }

  /** Only its own rmdir changes whether a role directory is there. */
  lemma {:induction false} RoleNamesSteady(js: seq<Job>, t: Tree)
    requires WellFormed(t) && AllInTables(js) && AllShaped(js) && forall j | j in js :: !j.Rmdir?
    ensures RoleNames(ExecAll(js, t).tree) == RoleNames(t)
  {
    hide Exec, InTables, KindOf, IsListed, MayCreate;
    if js != [] {
      assert js[0] in js;
      var t1 := Exec(js[0], t).tree;
      CompletedIsPartial(false, js[0], t);
      EffectOf(false, js[0], t, t1);
      hide Partial;
      forall n ensures n in DirsBelow(t, ROLES) <==> n in DirsBelow(t1, ROLES) { RoleDirSteady(js[0], t, n); }
      assert DirsBelow(t, ROLES) == DirsBelow(t1, ROLES);
      hide DirsBelow;
      RoleNamesSteady(js[1..], t1);
    }
  }

  lemma RoleDirSteady(j: Job, t: Tree, n: Name)
    requires WellFormed(t) && InTables(j) && WellShaped(j) && !j.Rmdir?
    ensures n in DirsBelow(t, ROLES) <==> n in DirsBelow(Exec(j, t).tree, ROLES)
  {
    var t1 := Exec(j, t).tree;
    CompletedIsPartial(false, j, t);
    EffectOf(false, j, t, t1);
    NoRoleDirCreated(j, n);
    DirsAreListed(n);
    if IsDir(t, RoleDir(n)) { ListedDirStays(j, t, RoleDir(n)); }
    NamesAreDirs(t, n);
    NamesAreDirs(t1, n);
    assert n in RoleNames(t) <==> n in DirsBelow(t, ROLES);
    assert n in RoleNames(t1) <==> n in DirsBelow(t1, ROLES);
  }

  /** The named directories are still there after a run that does not rmdir them. */
  lemma DidKeepsDirs(x: bool, js: seq<Job>, t: Tree, r: Report, t': Tree, r': Report, dir: Name -> Path, names: seq<Name>)
    requires WellFormed(t) && AllInTables(js) && DidAll(x, js, t, r, t', r', None)
    requires forall n | n in names :: IsListed(dir(n)) && IsDir(t, dir(n))
    requires forall n, j | n in names && j in js :: !(j.Rmdir? && j.path == dir(n))
    ensures WellFormed(t') && forall n | n in names :: IsDir(t', dir(n))
  {
    RunKeepsTree(js, t);
    forall n | n in names ensures IsDir(t', dir(n)) { RunKeepsListed(js, t, dir(n)); }
  }

  /** A copied file, its source removed, is a renamed file. */
  lemma CopyIsRename(t: Tree, from: Path, to: Path)
    requires WellFormed(t) && IsFile(t, from) && from != [] && to != [] && !(from <= to) && Relocates(t, from, to)
    ensures var m := MkdirAll(t, to, |to| - 1); Remove(m[to := t[from]], from) == Relocate(t, from, to)
  {
    hide MkdirAll, Rename, WellFormed, CanRename;
    RelocateWorks(t, from, to);
    MkdirWorks(t, to, |to| - 1);
    FileRenames(MkdirAll(t, to, |to| - 1), from, to);
    hide Relocates, IsFile, IsDir, Lstat;
  }

  /* ---- the methods ---- */

  datatype Renamed = Done | CrossDevice | Refused

  class Migrator {
    var tree: Tree
    var moved: seq<(Path, Path)>
    var removed: seq<Path>
    var warnings: seq<Warning>
    var fuel: nat // operations left before the environment stops the pass
    const crossDevice: bool
    const crosses: (Path, Path) -> bool // which renames leave the filesystem, if any may

    constructor (t: Tree, fuel: nat, crossDevice: bool, crosses: (Path, Path) -> bool)
      ensures tree == t && Rep() == EMPTY && this.fuel == fuel && this.crossDevice == crossDevice
    {
      this.tree, this.fuel, this.crossDevice, this.crosses := t, fuel, crossDevice, crosses;
      moved, removed, warnings := [], [], [];
    }

    function Rep(): Report
      reads this
    {
      Report(moved, removed, warnings)
    }

    /** os.MkdirAll of the first n components of p. */
    method MakeDirs(p: Path, n: nat) returns (ok: bool)
      requires n <= |p| && WellFormed(tree)
      modifies this`tree, this`fuel
      ensures ok ==> tree == MkdirAll(old(tree), p, n)
      ensures !ok ==> exists k: nat | k <= n :: tree == MkdirAll(old(tree), p, k)
    {
      var i := 0;
      MkdirNothing(tree, p, 0);
      while i < n
        invariant i <= n && tree == MkdirAll(old(tree), p, i)
      {
        MkdirOneMore(old(tree), p, i);
        if p[..i + 1] !in tree {
          if fuel == 0 { return false; }
          fuel := fuel - 1;
          tree := tree[p[..i + 1] := Dir];
        }
        i := i + 1;
      }
      ok := true;
    }

    method RenameEntry(from: Path, to: Path) returns (r: Renamed)
      modifies this`tree, this`fuel
      ensures r.Done? ==> tree == Rename(old(tree), from, to)
      ensures !r.Done? ==> tree == old(tree)
      ensures r.CrossDevice? ==> crossDevice
    {
      if fuel == 0 { return Refused; }
      fuel := fuel - 1;
      if crossDevice && crosses(from, to) { return CrossDevice; }
      tree := Rename(tree, from, to);
      r := Done;
    }

    method RemoveEntry(p: Path) returns (ok: bool)
      modifies this`tree, this`fuel
      ensures tree == if ok then Remove(old(tree), p) else old(tree)
    {
      if fuel == 0 { return false; }
      fuel := fuel - 1;
      tree := Remove(tree, p);
      ok := true;
    }

    /** copyFile: the target is created, then grows; a directory has no bytes to read. */
    method CopyFile(from: Path, to: Path) returns (err: Option<Error>)
      requires from in tree && from != to && to !in tree
      modifies this`tree, this`fuel
      ensures err.None? ==> old(tree)[from].File? && tree == old(tree)[to := old(tree)[from]]
      ensures tree == old(tree) || Copying(old(tree), from, to, tree)
    {
      if fuel == 0 { return Some(Interrupted); }
      fuel := fuel - 1;
      ghost var t := tree;
      tree := tree[to := File([])];
      if tree[from].Dir? {
        CopiedNothing(t, from, to);
        return Some(IsADirectory(from));
      }
      var bytes := tree[from].bytes;
      var n := 0;
      CopiedNothing(t, from, to);
      while n < |bytes|
        invariant n <= |bytes| && tree == t[to := File(bytes[..n])]
        invariant Copying(t, from, to, tree)
      {
        if fuel == 0 { return Some(Interrupted); }
        fuel := fuel - 1;
        n := n + 1;
        tree := tree[to := File(bytes[..n])];
        CopiedSome(t, from, to, n);
      }
      assert bytes[..n] == bytes;
      err := None;
    }

    /** move. */
    method MoveEntry(ghost guard: Path, from: Path, to: Path) returns (did: bool, err: Option<Error>)
      requires WellFormed(tree) && WellShaped(Move(guard, from, to)) && IsDir(tree, guard)
      modifies this`tree, this`fuel, this`moved, this`warnings
      ensures Did(crossDevice, Move(guard, from, to), old(tree), old(Rep()), tree, Rep(), err)
      ensures err.None? ==> (did <==> ExecMove(old(tree), from, to).report.moved != [])
    {
      did := false;
      var source := Lstat(tree, from);
      if source.NotExist? { return false, None; }
      if source.NotDir? { return false, Some(NotADirectory(from)); }
      var target := Lstat(tree, to);
      if target.Found? {
        if target.node.Dir? {
          warnings := warnings + [TargetIsDirectory(from, to)];
          return false, None;
        }
        err := ResolveExistingTarget(from, to);
        return false, err;
      }
      if target.NotDir? { return false, Some(NotADirectory(to)); }

      err := RelocateEntry(from, to);
      if err.Some? { return false, err; }
      moved := moved + [(from, to)];
      did := true;
    }

    /** The tail of move: a rename, then the copy if it crosses devices. */
    method RelocateEntry(from: Path, to: Path) returns (err: Option<Error>)
      requires WellFormed(tree) && from != [] && to != [] && !(from <= to) && Relocates(tree, from, to)
      modifies this`tree, this`fuel
      ensures err.None? ==> tree == Relocate(old(tree), from, to)
      ensures err.Some? ==> PartialMove(crossDevice, old(tree), from, to, tree) && (err == Some(Interrupted) || crossDevice)
    {
      ghost var t := tree;
      MkdirWorks(t, to, |to| - 1);
      var r := Place(from, to);
      if r.Done? { return None; }
      if r.Refused? { return Some(Interrupted); }
      ghost var m := tree;
      err := CopyFile(from, to);
      if tree != m { CopyingIsPartial(t, from, to, tree, m); }
      if err.None? {
        CopyIsRename(t, from, to);
        var ok := RemoveEntry(from);
        if !ok { err := Some(Interrupted); }
      }
    }

    /** The parents of the target, then the rename. */
    method Place(from: Path, to: Path) returns (r: Renamed)
      requires WellFormed(tree) && to != [] && Relocates(tree, from, to)
      modifies this`tree, this`fuel
      ensures r.Done? ==> tree == Relocate(old(tree), from, to)
      ensures !r.Done? ==> PartialMkdir(old(tree), to, tree)
      ensures r.CrossDevice? ==> crossDevice && tree == MkdirAll(old(tree), to, |to| - 1)
    {
      var ok := MakeDirs(to, |to| - 1);
      if !ok { return Refused; }
      r := RenameEntry(from, to);
    }

    /** resolveExistingTarget. */
    method ResolveExistingTarget(from: Path, to: Path) returns (err: Option<Error>)
      requires WellFormed(tree) && from in tree && from != [] && IsFile(tree, to)
      modifies this`tree, this`fuel, this`warnings
      ensures var o := ExecResolve(old(tree), from, to);
        && (err.None? ==> o.error.None? && tree == o.tree && warnings == old(warnings) + o.report.warnings)
        && (err.Some? ==> tree == old(tree) && warnings == old(warnings) && (err == Some(Interrupted) || crossDevice || err == o.error))
    {
      err := None;
      if tree[from].Dir? { return Some(IsADirectory(from)); }
      if tree[from] == tree[to] {
        var ok := RemoveEntry(from);
        return if ok then None else Some(Interrupted);
      }
      if Legacy(from) in tree {
        warnings := warnings + [LegacyTaken(from, to)];
        return None;
      }
      var r := RenameEntry(from, Legacy(from));
      if r.CrossDevice? { return Some(CrossesDevice(from)); }
      if r.Refused? { return Some(Interrupted); }
      warnings := warnings + [KeptLegacy(from, to)];
    }

    /** moveDir. */
    method MoveTree(from: Path, to: Path) returns (err: Option<Error>)
      requires WellFormed(tree) && WellShaped(MoveDir(from, to))
      modifies this`tree, this`fuel, this`moved, this`warnings
      ensures Did(crossDevice, MoveDir(from, to), old(tree), old(Rep()), tree, Rep(), err)
    {
      var source := Lstat(tree, from);
      if source.NotExist? { return None; }
      if source.NotDir? || source.node.File? { return Some(NotADirectory(from)); }
      var target := Lstat(tree, to);
      if target.Found? {
        warnings := warnings + [DirTargetExists(from, to)];
        return None;
      }
      if target.NotDir? { return Some(NotADirectory(to)); }
      var r := Place(from, to);
      if r.CrossDevice? { return Some(CrossesDevice(from)); }
      if r.Refused? { return Some(Interrupted); }
      moved := moved + [(from, to)];
      err := None;
    }

    /** os.RemoveAll: leaves first, in whatever order. */
    method RemoveTree(p: Path) returns (ok: bool)
      requires WellFormed(tree) && p in tree && p != []
      modifies this`tree, this`fuel
      ensures if ok then tree == RemoveAll(old(tree), p) else PartlyRemoved(old(tree), p, tree)
    {
      ghost var t := tree;
      while p in tree
        invariant WellFormed(tree) && PartlyRemoved(t, p, tree)
        decreases |tree|
      {
        if fuel == 0 { return false; }
        fuel := fuel - 1;
        LeafExists(tree, p);
        var q :| q in tree && p <= q && !HasEntries(tree, q);
        RemoveEffect(tree, q);
        RemoveLeafIsPartial(t, p, tree, q);
        tree := Remove(tree, q);
      }
      ok := true;
      forall q | q in tree ensures !(p <= q) { if p <= q { Ancestor(tree, p, q); } }
      assert tree == RemoveAll(t, p);
    }

    /** removeIfExists. */
    method RemoveIfExists(ghost guard: Path, path: Path) returns (err: Option<Error>)
      requires WellFormed(tree) && path != [] && IsDir(tree, guard)
      modifies this`tree, this`fuel, this`removed
      ensures Did(crossDevice, Purge(guard, path), old(tree), old(Rep()), tree, Rep(), err)
    {
      var s := Lstat(tree, path);
      if s.NotExist? { return None; }
      if s.NotDir? { return Some(NotADirectory(path)); }
      var ok := RemoveTree(path);
      if !ok { return Some(Interrupted); }
      removed := removed + [path];
      err := None;
    }

    /** removeFileIfExists. */
    method RemoveFileIfExists(ghost guard: Path, path: Path) returns (err: Option<Error>)
      requires WellFormed(tree) && path != [] && IsDir(tree, guard)
      modifies this`tree, this`fuel, this`removed
      ensures Did(crossDevice, Drop(guard, path), old(tree), old(Rep()), tree, Rep(), err)
    {
      var s := Lstat(tree, path);
      if s.NotExist? { return None; }
      if s.NotDir? { return Some(NotADirectory(path)); }
      if HasEntries(tree, path) { return Some(NotEmpty(path)); }
      var ok := RemoveEntry(path);
      if !ok { return Some(Interrupted); }
      removed := removed + [path];
      err := None;
    }

    /** removeIfEmpty, the removal recorded. */
    method RemoveIfEmpty(ghost guard: Path, path: Path) returns (err: Option<Error>)
      requires WellFormed(tree) && path != [] && IsDir(tree, guard)
      modifies this`tree, this`fuel, this`removed
      ensures Did(crossDevice, Rmdir(guard, path), old(tree), old(Rep()), tree, Rep(), err)
      ensures err.None? || err.value == Interrupted || !IsDir(old(tree), path)
    {
      var s := Lstat(tree, path);
      if s.NotExist? { return None; }
      if s.NotDir? || s.node.File? { return Some(NotADirectory(path)); }
      if HasEntries(tree, path) { return None; }
      var ok := RemoveEntry(path);
      if !ok { return Some(Interrupted); }
      removed := removed + [path];
      err := None;
    }

    /** A row of moves below one directory, in order. */
    method MoveRows(rows: seq<Job>, ghost guard: Path) returns (err: Option<Error>)
      requires WellFormed(tree) && AllInTables(rows) && AllShaped(rows)
      requires (forall j | j in rows :: j.Move? && j.guard == guard)
      requires (guard == ROOT || IsListed(guard)) && IsDir(tree, guard)
      modifies this`tree, this`fuel, this`moved, this`warnings
      ensures DidAll(crossDevice, rows, old(tree), old(Rep()), tree, Rep(), err)
    {
      hide Exec, Partial, InTables, IsListed, DidAll;
      var i := 0;
      DidNothing(crossDevice, tree, Rep());
      while i < |rows|
        invariant i <= |rows| && WellFormed(tree) && IsDir(tree, guard)
        invariant DidAll(crossDevice, rows[..i], old(tree), old(Rep()), tree, Rep(), None)
      {
        ghost var t, r, j := tree, Rep(), rows[i];
        var did;
        did, err := MoveEntry(guard, rows[i].from, rows[i].to);
        DidNext(crossDevice, rows, i, old(tree), old(Rep()), t, r, tree, Rep(), err);
        if err.Some? { return; }
        DidStep(crossDevice, j, t, r, tree, Rep(), guard);
        i := i + 1;
      }
      assert rows[..i] == rows;
      err := None;
    }

    /** os.ReadDir, the directories among the entries; a missing directory has none. */
    method ReadDirs(p: Path) returns (names: seq<Name>, err: Option<Error>)
      requires WellFormed(tree)
      ensures names == Sort(DirsBelow(tree, p))
      ensures Did(crossDevice, List(p), tree, Rep(), tree, Rep(), err)
    {
      NothingAdded(Rep());
      var s := Lstat(tree, p);
      names := Sort(DirsBelow(tree, p));
      err := None;
      if s.NotDir? || (s.Found? && s.node.File?) { err := Some(NotADirectory(p)); }
    }

    /** moveStatic and moveStaticDirs. */
    method MoveStatic() returns (err: Option<Error>)
      requires WellFormed(tree)
      modifies this`tree, this`fuel, this`moved, this`warnings
      ensures DidAll(crossDevice, StaticMoves() + StaticDirMoves(), old(tree), old(Rep()), tree, Rep(), err)
    {
      hide Exec, Partial, InTables, DidAll, Did;
      StaticRows();
      err := MoveRows(StaticMoves(), ROOT);
      if err.Some? {
        DidStop(crossDevice, StaticMoves(), StaticDirMoves(), old(tree), old(Rep()), tree, Rep(), err);
        return;
      }
      DidKeepsTree(crossDevice, StaticMoves(), old(tree), old(Rep()), tree, Rep());
      ghost var t, r := tree, Rep();
      err := MoveTree(["supervisor", "code"], ["shared", "code"]);
      DidOne(crossDevice, MoveDir(["supervisor", "code"], ["shared", "code"]), t, r, tree, Rep(), err);
      DidThen(crossDevice, StaticMoves(), StaticDirMoves(), old(tree), old(Rep()), t, r, tree, Rep(), err);
    }

    /** moveRoles. */
    method MoveRoles() returns (err: Option<Error>)
      requires WellFormed(tree)
      modifies this`tree, this`fuel, this`moved, this`warnings
      ensures DidAll(crossDevice, [List(ROLES)] + ForEach(RoleMoves, RoleNames(old(tree))), old(tree), old(Rep()), tree, Rep(), err)
    {
      hide Exec, Partial, InTables, DidAll, Did, IsListed;
      ghost var t0, r0 := tree, Rep();
      var names;
      names, err := ReadDirs(ROLES);
      RoleRowsShaped(names);
      DidOne(crossDevice, List(ROLES), t0, r0, t0, r0, err);
      if err.Some? {
        DidStop(crossDevice, [List(ROLES)], ForEach(RoleMoves, names), t0, r0, tree, Rep(), err);
        return;
      }
      forall n | n in names ensures IsDir(tree, RoleDir(n)) { NamesAreDirs(tree, n); }
      err := MoveRoleRows(names);
      DidThen(crossDevice, [List(ROLES)], ForEach(RoleMoves, names), t0, r0, t0, r0, tree, Rep(), err);
    }

    method MoveRoleRows(names: seq<Name>) returns (err: Option<Error>)
      requires WellFormed(tree) && forall n | n in names :: IsDir(tree, RoleDir(n))
      modifies this`tree, this`fuel, this`moved, this`warnings
      ensures DidAll(crossDevice, ForEach(RoleMoves, names), old(tree), old(Rep()), tree, Rep(), err)
    {
      hide Exec, Partial, InTables, DidAll, Did, IsListed, ForEach, RoleMoves, Rep, AllShaped;
      RoleRowsShaped(names);
      DidNothing(crossDevice, tree, Rep());
      ForEachNone(RoleMoves);
      var i := 0;
      while i < |names|
        invariant i <= |names| && WellFormed(tree)
        invariant DidAll(crossDevice, ForEach(RoleMoves, names[..i]), old(tree), old(Rep()), tree, Rep(), None)
        invariant forall n | n in names :: IsDir(tree, RoleDir(n))
      {
        ghost var t, r := tree, Rep();
        var n := names[i];
        RoleRowShaped(n);
        DirsAreListed(n);
        err := MoveRows(RoleMoves(n), RoleDir(n));
        DidNextName(crossDevice, RoleMoves, names, i, old(tree), old(Rep()), t, r, tree, Rep(), err);
        if err.Some? { return; }
        RowKeepsRoles(crossDevice, RoleMoves(n), t, r, tree, Rep(), names);
        i := i + 1;
      }
      assert names[..i] == names;
      err := None;
    }

    /** Purges and drops below one directory, in order. */
    method DropRows(rows: seq<Job>, ghost guard: Path) returns (err: Option<Error>)
      requires WellFormed(tree) && AllInTables(rows) && AllShaped(rows)
      requires (forall j | j in rows :: (j.Purge? || j.Drop?) && j.guard == guard)
      requires (guard == ROOT || IsListed(guard)) && IsDir(tree, guard)
      modifies this`tree, this`fuel, this`removed
      ensures DidAll(crossDevice, rows, old(tree), old(Rep()), tree, Rep(), err)
    {
      hide Exec, Partial, InTables, IsListed, DidAll;
      var i := 0;
      DidNothing(crossDevice, tree, Rep());
      while i < |rows|
        invariant i <= |rows| && WellFormed(tree) && IsDir(tree, guard)
        invariant DidAll(crossDevice, rows[..i], old(tree), old(Rep()), tree, Rep(), None)
      {
        ghost var t, r := tree, Rep();
        var j := rows[i];
        if j.Purge? { err := RemoveIfExists(guard, j.path); } else { err := RemoveFileIfExists(guard, j.path); }
        DidNext(crossDevice, rows, i, old(tree), old(Rep()), t, r, tree, Rep(), err);
        if err.Some? { return; }
        DidStep(crossDevice, j, t, r, tree, Rep(), guard);
        i := i + 1;
      }
      assert rows[..i] == rows;
      err := None;
    }

    method DropRoleRows(names: seq<Name>) returns (err: Option<Error>)
      requires WellFormed(tree) && forall n | n in names :: IsDir(tree, RoleDir(n))
      modifies this`tree, this`fuel, this`removed
      ensures DidAll(crossDevice, ForEach(RoleJunk, names), old(tree), old(Rep()), tree, Rep(), err)
    {
      hide Exec, Partial, InTables, DidAll, Did, IsListed, ForEach, RoleJunk, Rep, AllShaped;
      RoleRowsShaped(names);
      DidNothing(crossDevice, tree, Rep());
      ForEachNone(RoleJunk);
      var i := 0;
      while i < |names|
        invariant i <= |names| && WellFormed(tree)
        invariant DidAll(crossDevice, ForEach(RoleJunk, names[..i]), old(tree), old(Rep()), tree, Rep(), None)
        invariant forall n | n in names :: IsDir(tree, RoleDir(n))
      {
        ghost var t, r := tree, Rep();
        var n := names[i];
        RoleRowShaped(n);
        DirsAreListed(n);
        err := DropRows(RoleJunk(n), RoleDir(n));
        DidNextName(crossDevice, RoleJunk, names, i, old(tree), old(Rep()), t, r, tree, Rep(), err);
        if err.Some? { return; }
        RowKeepsRoles(crossDevice, RoleJunk(n), t, r, tree, Rep(), names);
        i := i + 1;
      }
      assert names[..i] == names;
      err := None;
    }

    method RmdirRoleRows(names: seq<Name>) returns (err: Option<Error>)
      requires WellFormed(tree) && Ascending(names) && forall n | n in names :: IsDir(tree, RoleDir(n))
      modifies this`tree, this`fuel, this`removed
      ensures DidAll(crossDevice, ForEach(RoleRmdir, names), old(tree), old(Rep()), tree, Rep(), err)
    {
      hide Exec, Partial, InTables, DidAll, Did, IsListed, ForEach, Rep, AllShaped;
      RoleRowsShaped(names);
      DidNothing(crossDevice, tree, Rep());
      ForEachNone(RoleRmdir);
      var i := 0;
      while i < |names|
        invariant i <= |names| && WellFormed(tree)
        invariant DidAll(crossDevice, ForEach(RoleRmdir, names[..i]), old(tree), old(Rep()), tree, Rep(), None)
        invariant forall n | n in names[i..] :: IsDir(tree, RoleDir(n))
      {
        ghost var t, r := tree, Rep();
        var n := names[i];
        RoleRowShaped(n);
        err := RemoveIfEmpty(RoleDir(n), RoleDir(n));
        DidOne(crossDevice, Rmdir(RoleDir(n), RoleDir(n)), t, r, tree, Rep(), err);
        DidNextName(crossDevice, RoleRmdir, names, i, old(tree), old(Rep()), t, r, tree, Rep(), err);
        if err.Some? { return; }
        RoleRmdirKeepsLater(crossDevice, names, i, t, r, tree, Rep());
        i := i + 1;
      }
      assert names[..i] == names;
      err := None;
    }

    /** cleanup. */
    method Cleanup() returns (err: Option<Error>)
      requires WellFormed(tree)
      modifies this`tree, this`fuel, this`removed
      ensures DidAll(crossDevice, CleanupJobs(RoleNames(old(tree))), old(tree), old(Rep()), tree, Rep(), err)
    {
      hide Exec, Partial, InTables, DidAll, Did, IsListed, ForEach, Rep, WellShaped, RoleJunk, SupervisorJunk, RoleRmdir, FinalRmdirs;
      ghost var t0, r0 := tree, Rep();
      var ignored;
      var names;
      names, ignored := ReadDirs(ROLES); // an unreadable roles/ is skipped
      CleanupShaped(names);
      ghost var junk, last := ForEach(RoleJunk, names) + SupervisorJunk(), ForEach(RoleRmdir, names) + FinalRmdirs();
      err := DropJunk(names);
      if err.Some? {
        DidStop(crossDevice, junk, last, t0, r0, tree, Rep(), err);
        return;
      }
      ghost var t1, r1 := tree, Rep();
      JunkKeepsNames(crossDevice, names, t0, r0, t1, r1);
      names, ignored := ReadDirs(ROLES);
      err := RemoveEmptied(names);
      DidThen(crossDevice, junk, last, t0, r0, t1, r1, tree, Rep(), err);
    }

    method DropJunk(names: seq<Name>) returns (err: Option<Error>)
      requires WellFormed(tree) && names == RoleNames(tree)
      modifies this`tree, this`fuel, this`removed
      ensures DidAll(crossDevice, ForEach(RoleJunk, names) + SupervisorJunk(), old(tree), old(Rep()), tree, Rep(), err)
    {
      hide Exec, Partial, InTables, DidAll, Did, IsListed, ForEach, Rep, AllShaped, RoleJunk, SupervisorJunk;
      ghost var t0, r0 := tree, Rep();
      CleanupShaped(names);
      forall n | n in names ensures IsDir(tree, RoleDir(n)) { NamesAreDirs(tree, n); }
      err := DropRoleRows(names);
      if err.Some? {
        DidStop(crossDevice, ForEach(RoleJunk, names), SupervisorJunk(), t0, r0, tree, Rep(), err);
        return;
      }
      DidKeepsTree(crossDevice, ForEach(RoleJunk, names), t0, r0, tree, Rep());
      ghost var t, r := tree, Rep();
      err := DropRows(SupervisorJunk(), ROOT);
      DidThen(crossDevice, ForEach(RoleJunk, names), SupervisorJunk(), t0, r0, t, r, tree, Rep(), err);
    }

    method RemoveEmptied(names: seq<Name>) returns (err: Option<Error>)
      requires WellFormed(tree) && names == RoleNames(tree)
      modifies this`tree, this`fuel, this`removed
      ensures DidAll(crossDevice, ForEach(RoleRmdir, names) + FinalRmdirs(), old(tree), old(Rep()), tree, Rep(), err)
    {
      hide Exec, Partial, InTables, DidAll, Did, IsListed, ForEach, Rep, AllShaped, RoleRmdir;
      ghost var t0, r0, rows := tree, Rep(), ForEach(RoleRmdir, names);
      CleanupShaped(names);
      forall n | n in names ensures IsDir(tree, RoleDir(n)) { NamesAreDirs(tree, n); }
      err := RmdirRoleRows(names);
      if err.Some? {
        DidStop(crossDevice, rows, FinalRmdirs(), t0, r0, tree, Rep(), err);
        return;
      }
      DidKeepsTree(crossDevice, rows, t0, r0, tree, Rep());
      ghost var t1, r1 := tree, Rep();
      err := RemoveEmptiedRoots();
      DidThen(crossDevice, rows, FinalRmdirs(), t0, r0, t1, r1, tree, Rep(), err);
    }

    method RemoveEmptiedRoots() returns (err: Option<Error>)
      requires WellFormed(tree)
      modifies this`tree, this`fuel, this`removed
      ensures DidAll(crossDevice, FinalRmdirs(), old(tree), old(Rep()), tree, Rep(), err)
    {
      hide Exec, Partial, InTables, DidAll, Did, IsListed, Rep;
      ghost var t0, r0, js := tree, Rep(), FinalRmdirs();
      CleanupShaped([]);
      DidNothing(crossDevice, t0, r0);
      err := RemoveIfEmpty(ROOT, ROLES);
      DidNext(crossDevice, js, 0, t0, r0, t0, r0, tree, Rep(), err);
      if err.Some? { return; }
      ghost var t1, r1 := tree, Rep();
      DidStep(crossDevice, js[0], t0, r0, t1, r1, ROOT);
      err := RemoveIfEmpty(ROOT, SUPERVISOR);
      DidNext(crossDevice, js, 1, t0, r0, t1, r1, tree, Rep(), err);
      assert js[..2] == js;
    }

    /** One directory of flattenSharedReports. */
    method FlattenReport(d: Name) returns (err: Option<Error>)
      requires WellFormed(tree) && IsDir(tree, ReportDir(d))
      modifies this`tree, this`fuel, this`moved, this`removed, this`warnings
      ensures DidAll(crossDevice, ReportJobs(d), old(tree), old(Rep()), tree, Rep(), err)
    {
      hide Exec, Partial, InTables, DidAll, Did, IsListed, Rep, WellShaped;
      ghost var t0, r0, js := tree, Rep(), ReportJobs(d);
      ReportRowShaped(d);
      DirsAreListed(d);
      err := MoveRows(ReportJobs(d)[..2], ReportDir(d));
      assert js[..2] + [js[2]] == js;
      if err.Some? {
        DidStop(crossDevice, js[..2], [js[2]], t0, r0, tree, Rep(), err);
        return;
      }
      ghost var t1, r1 := tree, Rep();
      DidKeepsDirs(crossDevice, js[..2], t0, r0, t1, r1, ReportDir, [d]);
      assert IsDir(tree, ReportDir([d][0]));
      err := RemoveIfEmpty(ReportDir(d), ReportDir(d));
      DidNext(crossDevice, js, 2, t0, r0, t1, r1, tree, Rep(), err);
      assert js[..3] == js;
    }

    method FlattenReports(names: seq<Name>) returns (err: Option<Error>)
      requires WellFormed(tree) && Ascending(names) && forall n | n in names :: IsDir(tree, ReportDir(n))
      modifies this`tree, this`fuel, this`moved, this`removed, this`warnings
      ensures DidAll(crossDevice, ForEach(ReportJobs, names), old(tree), old(Rep()), tree, Rep(), err)
    {
      hide Exec, Partial, InTables, DidAll, Did, IsListed, ForEach, Rep, AllShaped, ReportJobs;
      ReportRowsShaped(names);
      DidNothing(crossDevice, tree, Rep());
      ForEachNone(ReportJobs);
      var i := 0;
      while i < |names|
        invariant i <= |names| && WellFormed(tree)
        invariant DidAll(crossDevice, ForEach(ReportJobs, names[..i]), old(tree), old(Rep()), tree, Rep(), None)
        invariant forall n | n in names[i..] :: IsDir(tree, ReportDir(n))
      {
        ghost var t, r := tree, Rep();
        err := FlattenReport(names[i]);
        DidNextName(crossDevice, ReportJobs, names, i, old(tree), old(Rep()), t, r, tree, Rep(), err);
        if err.Some? { return; }
        ReportKeepsLater(crossDevice, names, i, t, r, tree, Rep());
        i := i + 1;
      }
      assert names[..i] == names;
      err := None;
    }

    /** One action of flattenSharedLayout: a move, then the rmdir if it moved. */
    method HoistAction(a: Name) returns (err: Option<Error>)
      requires WellFormed(tree) && a in ACTIONS
      modifies this`tree, this`fuel, this`moved, this`removed, this`warnings
      ensures Did(crossDevice, ActionHoist(a), old(tree), old(Rep()), tree, Rep(), err)
    {
      ghost var j := ActionHoist(a);
      HoistShaped(a);
      var from, to, dir := ["shared", a, a + ".md"], ["shared", a + ".md"], ["shared", a];
      ghost var t0, r0 := tree, Rep();
      var did;
      did, err := MoveEntry(ROOT, from, to);
      MoveIsHoist(crossDevice, j, t0, r0, tree, Rep(), err);
      if err.Some? || !did { return; }
      ghost var t1, r1 := tree, Rep();
      HoistLeavesDir(j, t0);
      hide Exec, Partial, ExecMove, InTables, Did;
      err := RemoveIfEmpty(ROOT, dir);
      HoistDid(crossDevice, j, t0, r0, t1, r1, tree, Rep(), err);
    }

    /** flattenSharedLayout. */
    method FlattenShared() returns (err: Option<Error>)
      requires WellFormed(tree)
      modifies this`tree, this`fuel, this`moved, this`removed, this`warnings
      ensures DidAll(crossDevice, FlattenJobs(ReportNames(old(tree))), old(tree), old(Rep()), tree, Rep(), err)
    {
      hide Exec, Partial, InTables, DidAll, Did, IsListed, Rep, WellShaped, ForEach, ActionHoists;
      ghost var t0, r0 := tree, Rep();
      var names;
      names, err := ReadDirs(REPORTS);
      ghost var rows := ForEach(ReportJobs, names);
      FlattenShaped(names);
      DidOne(crossDevice, List(REPORTS), t0, r0, t0, r0, err);
      if err.Some? {
        DidStop(crossDevice, [List(REPORTS)], rows, t0, r0, tree, Rep(), err);
        DidStop(crossDevice, [List(REPORTS)] + rows, ActionHoists(), t0, r0, tree, Rep(), err);
        return;
      }
      forall n | n in names ensures IsDir(tree, ReportDir(n)) { NamesAreDirs(tree, n); }
      err := FlattenReports(names);
      DidThen(crossDevice, [List(REPORTS)], rows, t0, r0, t0, r0, tree, Rep(), err);
      if err.Some? {
        DidStop(crossDevice, [List(REPORTS)] + rows, ActionHoists(), t0, r0, tree, Rep(), err);
        return;
      }
      ghost var t1, r1 := tree, Rep();
      DidKeepsTree(crossDevice, [List(REPORTS)] + rows, t0, r0, t1, r1);
      err := HoistActions();
      DidThen(crossDevice, [List(REPORTS)] + rows, ActionHoists(), t0, r0, t1, r1, tree, Rep(), err);
    }

    method HoistActions() returns (err: Option<Error>)
      requires WellFormed(tree)
      modifies this`tree, this`fuel, this`moved, this`removed, this`warnings
      ensures DidAll(crossDevice, ActionHoists(), old(tree), old(Rep()), tree, Rep(), err)
    {
      hide Exec, Partial, InTables, DidAll, Did, Rep, ActionHoists, ActionHoist;
      ghost var js := ActionHoists();
      HoistsShaped();
      DidNothing(crossDevice, tree, Rep());
      var i := 0;
      while i < |ACTIONS|
        invariant i <= |ACTIONS| && WellFormed(tree)
        invariant DidAll(crossDevice, js[..i], old(tree), old(Rep()), tree, Rep(), None)
      {
        ghost var t, r := tree, Rep();
        err := HoistAction(ACTIONS[i]);
        DidNext(crossDevice, js, i, old(tree), old(Rep()), t, r, tree, Rep(), err);
        if err.Some? { return; }
        DidOne(crossDevice, js[i], t, r, tree, Rep(), None);
        DidKeepsTree(crossDevice, [js[i]], t, r, tree, Rep());
        i := i + 1;
      }
      assert js[..i] == js;
      err := None;
    }

    /** The four gated phases. */
    method RunGated() returns (err: Option<Error>)
      requires WellFormed(tree)
      modifies this`tree, this`fuel, this`moved, this`removed, this`warnings
      ensures DidAll(crossDevice, GatedJobs(RoleNames(old(tree))), old(tree), old(Rep()), tree, Rep(), err)
    {
      hide Exec, Partial, InTables, DidAll, Did, Rep, WellShaped, ForEach, CleanupJobs, StaticMoves, StaticDirMoves, SupervisorJunk, FinalRmdirs;
      ghost var t0, r0, rs := tree, Rep(), RoleNames(tree);
      ghost var a, b, c := StaticMoves() + StaticDirMoves(), [List(ROLES)] + ForEach(RoleMoves, rs), CleanupJobs(rs);
      PhasesAreGated(rs);
      PhasesShaped(rs);
      err := MoveStatic();
      if err.Some? {
        DidStop(crossDevice, a, b, t0, r0, tree, Rep(), err);
        DidStop(crossDevice, a + b, c, t0, r0, tree, Rep(), err);
        return;
      }
      ghost var t1, r1 := tree, Rep();
      PhaseKeepsNames(crossDevice, a, t0, r0, t1, r1);
      err := MoveRoles();
      DidThen(crossDevice, a, b, t0, r0, t1, r1, tree, Rep(), err);
      if err.Some? {
        DidStop(crossDevice, a + b, c, t0, r0, tree, Rep(), err);
        return;
      }
      ghost var t2, r2 := tree, Rep();
      PhaseKeepsNames(crossDevice, b, t1, r1, t2, r2);
      err := Cleanup();
      DidThen(crossDevice, a + b, c, t0, r0, t2, r2, tree, Rep(), err);
    }

    /** The gate: the first of the indicators that is there. */
    method CheckNeedsMigration() returns (needed: bool)
      ensures needed == NeedsMigration(tree)
    {
      for i := 0 to |INDICATORS|
        invariant forall k | 0 <= k < i :: INDICATORS[k] !in tree
      {
        if Lstat(tree, INDICATORS[i]).Found? { return true; }
      }
      return false;
    }

    /** V1Layout, on a tree whose migration sources are regular files: it does what
        the jobs of one pass do, or stops at a tree where such a pass may stop. */
    method RunV1Layout() returns (err: Option<Error>)
      requires Root(tree)
      modifies this`tree, this`fuel, this`moved, this`removed, this`warnings
      ensures err.None? ==> V1Layout(old(tree)).error.None? && tree == V1Layout(old(tree)).tree
      ensures err.None? ==> Rep() == old(Rep()).Plus(V1Layout(old(tree)).report)
      ensures err.Some? ==> StoppedAt(crossDevice, old(tree), tree)
      ensures err.Some? && err.value != Interrupted && !crossDevice ==>
        V1Layout(old(tree)).error == err && tree == V1Layout(old(tree)).tree
    {
      hide Exec, Partial, InTables, Rep, WellShaped, GatedJobs, FlattenJobs, Cut, ExecAll;
      ghost var t0, r0, rs, ds := tree, Rep(), RoleNames(tree), ReportNames(tree);
      PassInTables(t0);
      var needed := CheckNeedsMigration();
      if needed {
        err := RunGated();
        if err.Some? {
          DidStop(crossDevice, GatedJobs(rs), FlattenJobs(ds), t0, r0, tree, Rep(), err);
          return;
        }
        ghost var t1, r1 := tree, Rep();
        GatedKeepsReports(crossDevice, t0, r0, t1, r1);
        err := FlattenShared();
        DidThen(crossDevice, GatedJobs(rs), FlattenJobs(ds), t0, r0, t1, r1, tree, Rep(), err);
      } else {
        err := FlattenShared();
      }
    }
  }

  lemma PhasesAreGated(rs: seq<Name>)
    ensures GatedJobs(rs) == StaticMoves() + StaticDirMoves() + ([List(ROLES)] + ForEach(RoleMoves, rs)) + CleanupJobs(rs)
  {
    hide StaticMoves, StaticDirMoves, ForEach, SupervisorJunk, FinalRmdirs;
  }

  lemma PhasesShaped(rs: seq<Name>)
    ensures var a, b, c := StaticMoves() + StaticDirMoves(), [List(ROLES)] + ForEach(RoleMoves, rs), CleanupJobs(rs);
      && AllShaped(a) && AllInTables(a) && AllShaped(b) && AllInTables(b) && AllShaped(c)
      && (forall j | j in a :: !j.Rmdir?) && (forall j | j in b :: !j.Rmdir?)
  {
    GatedInTables(rs);
    AllAreShaped(GatedJobs(rs));
    PhasesAreGated(rs);
    OpeningPlain(rs);
    hide StaticMoves, StaticDirMoves, ForEach, SupervisorJunk, InTables, WellShaped, CleanupJobs, GatedJobs;
  }

  lemma PhaseKeepsNames(x: bool, js: seq<Job>, t: Tree, r: Report, t': Tree, r': Report)
    requires WellFormed(t) && AllInTables(js) && DidAll(x, js, t, r, t', r', None) && forall j | j in js :: !j.Rmdir?
    ensures WellFormed(t') && RoleNames(t') == RoleNames(t)
  {
    RunKeepsTree(js, t);
    RoleNamesSteady(js, t);
  }

  /** The gated phases leave the listing of shared/report as it was. */
  lemma GatedKeepsReports(x: bool, t: Tree, r: Report, t': Tree, r': Report)
    requires Root(t) && NeedsMigration(t) && DidAll(x, GatedJobs(RoleNames(t)), t, r, t', r', None)
    ensures WellFormed(t') && ReportNames(t') == ReportNames(t)
  {
    var js := GatedJobs(RoleNames(t));
    GatedInTables(RoleNames(t));
    RunKeepsTree(js, t);
    CompletedIsCut(false, js, t);
    CutNothingReturns(js, js, t, t');
    forall n ensures n in DirsBelow(t', REPORTS) <==> n in DirsBelow(t, REPORTS) {
      DirsAreListed(n);
      NamesAreDirs(t, n);
      NamesAreDirs(t', n);
      if IsDir(t, ReportDir(n)) {
        forall j | j in js ensures !(j.Rmdir? && j.path == ReportDir(n)) { GatedPlaces(RoleNames(t), j, n); }
        RunKeepsListed(js, t, ReportDir(n));
      }
      assert n in DirsBelow(t, REPORTS) <==> n in ReportNames(t);
      assert n in DirsBelow(t', REPORTS) <==> n in ReportNames(t');
    }
    assert DirsBelow(t', REPORTS) == DirsBelow(t, REPORTS);
  }

  lemma HoistShaped(a: Name)
    requires a in ACTIONS
    ensures WellShaped(ActionHoist(a))
  {
    var i :| 0 <= i < |ACTIONS| && ACTIONS[i] == a;
    assert InTables(ActionHoist(a));
    TablesAreShaped(ActionHoist(a));
  }

  lemma HoistsShaped()
    ensures AllShaped(ActionHoists()) && |ActionHoists()| == |ACTIONS|
    ensures forall i | 0 <= i < |ACTIONS| :: ActionHoists()[i] == ActionHoist(ACTIONS[i])
  {
    forall i | 0 <= i < |ACTIONS| ensures ActionHoists()[i] == ActionHoist(ACTIONS[i]) { }
    forall a | a in ACTIONS ensures WellShaped(ActionHoist(a)) { HoistShaped(a); }
  }

  /** A move that failed or did not happen is the whole hoist. */
  lemma MoveIsHoist(x: bool, j: Job, t: Tree, r: Report, t': Tree, r': Report, err: Option<Error>)
    requires WellShaped(j) && j.Hoist? && WellFormed(t) && Did(x, Move(ROOT, j.from, j.to), t, r, t', r', err)
    ensures err.Some? || ExecMove(t, j.from, j.to).report.moved == [] ==> Did(x, j, t, r, t', r', err)
    ensures err.None? ==> ExecMove(t, j.from, j.to).error.None? && t' == ExecMove(t, j.from, j.to).tree && WellFormed(t')
    ensures err.None? ==> r' == r.Plus(ExecMove(t, j.from, j.to).report)
  {
    MoveEffect(ROOT, j.from, j.to, t);
    hide ExecMove, PartialMove;
  }

  /** After the move, the directory it moved out of is still there. */
  lemma HoistLeavesDir(j: Job, t: Tree)
    requires WellFormed(t) && WellShaped(j) && j.Hoist? && j.dir == Parent(j.from) && ExecMove(t, j.from, j.to).report.moved != []
    ensures IsDir(ExecMove(t, j.from, j.to).tree, j.dir)
  {
    Ancestor(t, j.dir, j.from);
    RelocateWorks(t, j.from, j.to);
  }

  lemma HoistDid(x: bool, j: Job, t: Tree, r: Report, t1: Tree, r1: Report, t2: Tree, r2: Report, err: Option<Error>)
    requires WellShaped(j) && j.Hoist? && WellFormed(t1) && IsDir(t1, j.dir)
    requires ExecMove(t, j.from, j.to).error.None? && ExecMove(t, j.from, j.to).report.moved != []
    requires t1 == ExecMove(t, j.from, j.to).tree && r1 == r.Plus(ExecMove(t, j.from, j.to).report)
    requires Did(x, Rmdir(ROOT, j.dir), t1, r1, t2, r2, err) && (err.None? || err == Some(Interrupted))
    ensures Did(x, j, t, r, t2, r2, err)
  {
    var o, p := ExecMove(t, j.from, j.to), ExecRmdir(t1, j.dir);
    assert r.Plus(o.report).Plus(p.report) == r.Plus(o.report.Plus(p.report));
    hide ExecMove;
    assert p.error.None?;
  }

  lemma ReportRowShaped(d: Name)
    ensures AllInTables(ReportJobs(d)) && AllShaped(ReportJobs(d))
    ensures AllInTables(ReportJobs(d)[..2]) && AllShaped(ReportJobs(d)[..2])
    ensures forall j | j in ReportJobs(d)[..2] :: j.Move? && j.guard == ReportDir(d)
  {
    forall j | j in ReportJobs(d) ensures InTables(j) { ReportJobsInTables(d, j); }
    AllAreShaped(ReportJobs(d));
    assert ReportJobs(d)[..2] == [ReportJobs(d)[0], ReportJobs(d)[1]];
    hide InTables, WellShaped;
  }

  lemma ReportRowsShaped(names: seq<Name>)
    ensures AllShaped(ForEach(ReportJobs, names)) && AllInTables(ForEach(ReportJobs, names))
  {
    forall n, j | j in ReportJobs(n) ensures InTables(j) { ReportJobsInTables(n, j); }
    ForEachInTables(ReportJobs, names);
    AllAreShaped(ForEach(ReportJobs, names));
  }

  lemma FlattenShaped(names: seq<Name>)
    ensures AllShaped([List(REPORTS)] + ForEach(ReportJobs, names)) && AllShaped(ForEach(ReportJobs, names)) && AllShaped(ActionHoists())
  {
    ReportRowsShaped(names);
    HoistsShaped();
    hide ForEach, ActionHoists;
  }

  lemma ReportKeepsLater(x: bool, names: seq<Name>, i: nat, t: Tree, r: Report, t': Tree, r': Report)
    requires i < |names| && Ascending(names) && WellFormed(t) && DidAll(x, ReportJobs(names[i]), t, r, t', r', None)
    requires forall n | n in names[i..] :: IsDir(t, ReportDir(n))
    ensures WellFormed(t') && forall n | n in names[i + 1..] :: IsDir(t', ReportDir(n))
  {
    LaterNames(names, i);
    ReportRowShaped(names[i]);
    forall n | n in names[i + 1..] ensures IsListed(ReportDir(n)) && ReportDir(n) != ReportDir(names[i]) {
      assert n != names[i];
      DirsAreListed(n);
      assert ReportDir(n)[2] == n && ReportDir(names[i])[2] == names[i];
    }
    hide IsListed;
    DidKeepsDirs(x, ReportJobs(names[i]), t, r, t', r', ReportDir, names[i + 1..]);
  }

  function CleanupJobs(rs: seq<Name>): seq<Job> {
    (ForEach(RoleJunk, rs) + SupervisorJunk()) + (ForEach(RoleRmdir, rs) + FinalRmdirs())
  }

  lemma CleanupShaped(rs: seq<Name>)
    ensures AllShaped(ForEach(RoleJunk, rs)) && AllShaped(ForEach(RoleRmdir, rs)) && AllShaped(SupervisorJunk()) && AllShaped(FinalRmdirs())
    ensures AllInTables(ForEach(RoleJunk, rs)) && AllInTables(SupervisorJunk()) && AllInTables(FinalRmdirs())
    ensures forall j | j in SupervisorJunk() :: (j.Purge? || j.Drop?) && j.guard == ROOT
  {
    RoleRowsShaped(rs);
    hide ForEach;
    forall j | j in SupervisorJunk() ensures InTables(j) { SupervisorJunkInTables(j); }
    AllAreShaped(SupervisorJunk());
    FinalRmdirsInTables();
    hide *;
    SupervisorJunkGuards();
  }

  lemma FinalRmdirsInTables()
    ensures AllInTables(FinalRmdirs()) && AllShaped(FinalRmdirs())
  {
    GatedInTables([]);
    hide InTables, FinalRmdirs;
    assert forall j | j in FinalRmdirs() :: j in GatedJobs([]);
    AllAreShaped(FinalRmdirs());
  }

  lemma SupervisorJunkGuards()
    ensures forall j | j in SupervisorJunk() :: (j.Purge? || j.Drop?) && j.guard == ROOT
  {
  }

  lemma JunkKeepsNames(x: bool, rs: seq<Name>, t: Tree, r: Report, t': Tree, r': Report)
    requires WellFormed(t) && DidAll(x, ForEach(RoleJunk, rs) + SupervisorJunk(), t, r, t', r', None)
    ensures WellFormed(t') && RoleNames(t') == RoleNames(t)
  {
    var js := ForEach(RoleJunk, rs) + SupervisorJunk();
    CleanupShaped(rs);
    forall j | j in js ensures !j.Rmdir? { InForEach(RoleJunk, rs, j); }
    RunKeepsTree(js, t);
    RoleNamesSteady(js, t);
  }

  lemma LaterNames(names: seq<Name>, i: nat)
    requires i < |names| && Ascending(names)
    ensures names[i] !in names[i + 1..]
    ensures forall n | n in names[i + 1..] :: n in names[i..]
  {
    assert names[i..] == [names[i]] + names[i + 1..];
    if names[i] in names[i + 1..] { LaterIsOther(names, i, names[i]); }
  }

  lemma LaterIsOther(names: seq<Name>, i: nat, n: Name)
    requires i < |names| && Ascending(names) && n in names[i + 1..]
    ensures n != names[i]
  {
    var k :| 0 <= k < |names[i + 1..]| && names[i + 1..][k] == n;
    assert n == names[i + 1 + k];
    LessAsymmetric(names[i], n);
  }

  lemma RoleRmdirKeepsLater(x: bool, names: seq<Name>, i: nat, t: Tree, r: Report, t': Tree, r': Report)
    requires i < |names| && Ascending(names) && WellFormed(t) && DidAll(x, RoleRmdir(names[i]), t, r, t', r', None)
    requires forall n | n in names[i..] :: IsDir(t, RoleDir(n))
    ensures WellFormed(t') && forall n | n in names[i + 1..] :: IsDir(t', RoleDir(n))
  {
    LaterNames(names, i);
    RoleRowShaped(names[i]);
    forall n | n in names[i + 1..] ensures IsListed(RoleDir(n)) && RoleDir(n) != RoleDir(names[i]) {
      DirsAreListed(n);
      assert RoleDir(n)[1] == n && RoleDir(names[i])[1] == names[i];
    }
    DidKeepsDirs(x, RoleRmdir(names[i]), t, r, t', r', RoleDir, names[i + 1..]);
  }

  lemma ForEachNone(f: Name -> seq<Job>)
    ensures ForEach(f, []) == []
  {
  }

  lemma RowKeepsRoles(x: bool, js: seq<Job>, t: Tree, r: Report, t': Tree, r': Report, names: seq<Name>)
    requires WellFormed(t) && AllInTables(js) && DidAll(x, js, t, r, t', r', None) && forall j | j in js :: !j.Rmdir?
    requires forall n | n in names :: IsDir(t, RoleDir(n))
    ensures WellFormed(t') && forall n | n in names :: IsDir(t', RoleDir(n))
  {
    forall n | n in names ensures IsListed(RoleDir(n)) { DirsAreListed(n); }
    DidKeepsDirs(x, js, t, r, t', r', RoleDir, names);
  }

  lemma NothingAdded(r: Report)
    ensures r.Plus(EMPTY) == r
  {
  }

  lemma StaticRows()
    ensures AllInTables(StaticMoves()) && AllShaped(StaticMoves()) && AllShaped(StaticDirMoves())
    ensures forall j | j in StaticMoves() :: j.Move? && j.guard == ROOT
  {
    GatedInTables([]);
    AllAreShaped(GatedJobs([]));
    assert forall j | j in StaticMoves() + StaticDirMoves() :: j in GatedJobs([]);
    forall j | j in StaticMoves() ensures j.Move? && j.guard == ROOT { StaticIsMove(j); }
    hide StaticMoves;
  }

  lemma StaticIsMove(j: Job)
    requires j in StaticMoves()
    ensures j.Move? && j.guard == ROOT
  {
    InForEach(SupervisorPrompts, SUPERVISOR_STEMS, j);
    hide ForEach;
  }

  lemma RoleRowShaped(n: Name)
    ensures AllInTables(RoleMoves(n)) && AllShaped(RoleMoves(n))
    ensures forall j | j in RoleMoves(n) :: j.Move? && j.guard == RoleDir(n)
    ensures forall j | j in RoleJunk(n) :: (j.Purge? || j.Drop?) && j.guard == RoleDir(n)
    ensures AllInTables(RoleJunk(n)) && AllShaped(RoleJunk(n))
    ensures AllInTables(RoleRmdir(n)) && AllShaped(RoleRmdir(n))
  {
    forall j | j in RoleMoves(n) ensures InTables(j) { RoleMovesInTables(n, j); }
    forall j | j in RoleJunk(n) ensures InTables(j) { RoleJunkInTables(n, j); }
    RmdirInTables(n);
    AllAreShaped(RoleMoves(n));
    AllAreShaped(RoleJunk(n));
    AllAreShaped(RoleRmdir(n));
  }

  lemma RoleRowsShaped(names: seq<Name>)
    ensures AllShaped(ForEach(RoleMoves, names)) && AllShaped(ForEach(RoleJunk, names)) && AllShaped(ForEach(RoleRmdir, names))
    ensures AllInTables(ForEach(RoleMoves, names)) && AllInTables(ForEach(RoleJunk, names)) && AllInTables(ForEach(RoleRmdir, names))
  {
    forall n, j | j in RoleMoves(n) ensures InTables(j) { RoleRowShaped(n); }
    forall n, j | j in RoleJunk(n) ensures InTables(j) { RoleRowShaped(n); }
    forall n, j | j in RoleRmdir(n) ensures InTables(j) { RoleRowShaped(n); }
    ForEachInTables(RoleMoves, names);
    ForEachInTables(RoleJunk, names);
    ForEachInTables(RoleRmdir, names);
    AllAreShaped(ForEach(RoleMoves, names));
    AllAreShaped(ForEach(RoleJunk, names));
    AllAreShaped(ForEach(RoleRmdir, names));
  }

  lemma DidStep(x: bool, j: Job, t: Tree, r: Report, t': Tree, r': Report, g: Path)
    requires WellFormed(t) && InTables(j) && Did(x, j, t, r, t', r', None)
    requires (g == ROOT || IsListed(g)) && IsDir(t, g) && !(j.Rmdir? && j.path == g)
    ensures WellFormed(t') && IsDir(t', g)
  {
    ListedDirStays(j, t, g);
    CompletedIsPartial(false, j, t);
    EffectOf(false, j, t, t');
  }

  lemma {:induction false} LeafBelow(t: Tree, q: Path, paths: set<Path>)
    requires q in t && forall r | r in t && q < r :: r in paths
    ensures exists leaf :: leaf in t && q <= leaf && !HasEntries(t, leaf)
    decreases |paths|
  {
    if HasEntries(t, q) {
      var r :| r in t && q < r;
      assert !(r < r);
      LeafBelow(t, r, paths - {r});
      var leaf :| leaf in t && r <= leaf && !HasEntries(t, leaf);
      assert q <= leaf;
    }
  }

  lemma LeafExists(t: Tree, p: Path)
    requires p in t
    ensures exists leaf :: leaf in t && p <= leaf && !HasEntries(t, leaf)
  {
    LeafBelow(t, p, t.Keys);
  }

  lemma RemoveLeafIsPartial(t0: Tree, p: Path, t: Tree, q: Path)
    requires PartlyRemoved(t0, p, t) && q in t && p <= q && !HasEntries(t, q)
    ensures PartlyRemoved(t0, p, Remove(t, q))
  {
    forall r, k | r in Remove(t, q) && 0 <= k < |r| ensures r[..k] in Remove(t, q) {
      assert r[..k] in t && r[..k] < r;
    }
  }
}
