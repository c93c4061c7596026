/** What a pass without errors clears away, and where the code directory goes. */
module MigrationCleared {
  import opened Common
  import opened FileTree
  import opened SortedNames
  import opened MigrationJobs
  import opened MigrationEffects
  import opened MigrationTables
  import opened MigrationReplay
  import opened MigrationTheorems
  import opened MigrationPass
  import opened MigrationLaws
  import opened MigrationRows

  /* ---- a finished job stays finished ---- */

  lemma {:induction false} StaysDone(j: Job, js: seq<Job>, t: Tree)
    requires WellShaped(j) && InTables(j) && !j.Move? && Quiet(j, t) && Sound(js, t) && ExecAll(js, t).error.None?
    requires forall k | k in js :: InOrder(j, k)
    ensures Quiet(j, ExecAll(js, t).tree)
  {
    hide Exec, Quiet, InTables, InOrder, WellShaped;
    if js != [] {
      HeadRuns(js, t);
      RestRuns(js, t);
      assert js[0] in js;
      hide ExecAll, Sound, Runs;
      NeverUnblocked(j, js[0], t);
      QuietStays(j, js[0], t, Exec(js[0], t).tree);
      StaysDone(j, js[1..], Exec(js[0], t).tree);
    }
  }

  lemma NeverUnblocked(j: Job, k: Job, t: Tree)
    requires !j.Move?
    ensures !Unblocks(j, k, t)
  {
  }

  /** After a run every job that is not a move by listing has nothing left to do. */
  lemma {:induction false} EndsDone(js: seq<Job>, n: nat, t: Tree)
    requires Sound(js, t) && ExecAll(js, t).error.None? && Ordered(js) && n < |js| && !js[n].Move?
    ensures WellShaped(js[n]) && Quiet(js[n], ExecAll(js, t).tree)
  {
    hide Exec, Quiet, InTables, InOrder, WellShaped;
    HeadRuns(js, t);
    RestRuns(js, t);
    var t1 := Exec(js[0], t).tree;
    if n == 0 {
      CompletedIsQuiet(js[0], t);
      forall k | k in js[1..] ensures InOrder(js[0], k) {
        var b :| 0 <= b < |js[1..]| && js[1..][b] == k;
        assert js[b + 1] == k;
      }
      hide Sound, ExecAll;
      StaysDone(js[0], js[1..], t1);
    } else {
      assert Ordered(js[1..]) by {
        forall a, b | 0 <= a < b < |js[1..]| ensures InOrder(js[1..][a], js[1..][b]) { assert js[1..][a] == js[a + 1] && js[1..][b] == js[b + 1]; }
      }
      hide Sound, ExecAll;
      EndsDone(js[1..], n - 1, t1);
    }
  }

  lemma PassSound(t: Tree)
    requires Root(t)
    ensures Sound(PassJobs(t), t) && Ordered(PassJobs(t))
  {
    PassShape(t);
  }

  lemma PassEndsDone(t: Tree, j: Job)
    requires Root(t) && V1Layout(t).error.None? && j in PassJobs(t) && !j.Move?
    ensures WellShaped(j) && Quiet(j, V1Layout(t).tree)
  {
    PassSound(t);
    hide PassJobs, Quiet, Root, Sound, Ordered;
    var n :| 0 <= n < |PassJobs(t)| && PassJobs(t)[n] == j;
    EndsDone(PassJobs(t), n, t);
  }

  /** What was not there and no job brings is not there afterwards. */
  lemma {:induction false} SourceNeverComes(js: seq<Job>, t: Tree, p: Path)
    requires Sound(js, t) && ExecAll(js, t).error.None? && IsSource(p) && p !in t
    ensures p !in ExecAll(js, t).tree
  {
    hide Exec, IsSource;
    if js != [] {
      HeadRuns(js, t);
      RestRuns(js, t);
      hide ExecAll, Sound, Runs;
      SourceNotCreated(js[0], t, Exec(js[0], t).tree, p);
      SourceNeverComes(js[1..], Exec(js[0], t).tree, p);
    }
  }

  lemma {:induction false} ListedNeverComes(js: seq<Job>, t: Tree, g: Path)
    requires Sound(js, t) && ExecAll(js, t).error.None? && IsListed(g) && !IsDir(t, g)
    ensures !IsDir(ExecAll(js, t).tree, g)
  {
    hide Exec, IsListed;
    if js != [] {
      HeadRuns(js, t);
      RestRuns(js, t);
      hide ExecAll, Sound, Runs, IsDir;
      NotListedStays(js[0], t, Exec(js[0], t).tree, g);
      ListedNeverComes(js[1..], Exec(js[0], t).tree, g);
    }
  }

  lemma {:induction false} RootDirNeverComes(js: seq<Job>, t: Tree, p: Path)
    requires Sound(js, t) && ExecAll(js, t).error.None? && p in [ROLES, SUPERVISOR] && p !in t
    ensures p !in ExecAll(js, t).tree
  {
    hide Exec;
    if js != [] {
      HeadRuns(js, t);
      RestRuns(js, t);
      hide ExecAll, Sound, Runs;
      RootDirAbsent(t, p, js[0]);
      NamedDirStays(js[0], t, Exec(js[0], t).tree, p);
      RootDirNeverComes(js[1..], Exec(js[0], t).tree, p);
    }
  }

  lemma RootDirAbsent(t: Tree, p: Path, j: Job)
    requires WellShaped(j) && Runs(j, t, Exec(j, t).tree) && p in [ROLES, SUPERVISOR] && p !in t
    ensures Absent(t, p) && p != REPORTS
  {
    assert p[..0] == [] && IsDir(t, []);
  }

  /* ---- what is gone ---- */

  /** The histories and the old run files of roles and supervisor. */
  lemma RoleJunkGone(t: Tree, r: Name, n: Name)
    requires Root(t) && V1Layout(t).error.None? && n in ["history", "last_run_output.md", "last_run_error.md"]
    ensures ["roles", r, n] !in V1Layout(t).tree
  {
    var p := ["roles", r, n];
    RootIsTree(t);
    RoleJunkPath(r, n);
    PassSound(t);
    var t' := V1Layout(t).tree;
    if p in t {
      var j := RoleJunkJob(t, r, n);
      PassEndsDone(t, j);
      hide PassJobs, Root;
      RunKeepsTree(PassJobs(t), t);
      if p in t' { ParentIsDir(t', p, j); }
    } else {
      hide PassJobs, Root, IsSource;
      SourceNeverComes(PassJobs(t), t, p);
    }
  }

  lemma ParentIsDir(t: Tree, p: Path, j: Job)
    requires WellFormed(t) && p in t && p != [] && (j.Purge? || j.Drop?) && j.path == p && (j.guard == Parent(p) || j.guard == ROOT)
    requires WellShaped(j)
    ensures !Quiet(j, t)
  {
    assert IsDir(t, p[..|p| - 1]);
  }

  lemma RoleJunkJob(t: Tree, r: Name, n: Name) returns (j: Job)
    requires WellFormed(t) && ["roles", r, n] in t && n in ["history", "last_run_output.md", "last_run_error.md"]
    ensures j in PassJobs(t) && (j.Purge? || j.Drop?) && j.path == ["roles", r, n] && j.guard == Parent(j.path)
  {
    var p := ["roles", r, n];
    j := RoleJunkRow(r, n);
    assert p[..2] == RoleDir(r);
    Ancestor(t, RoleDir(r), p);
    NamesAreDirs(t, r);
    hide *;
    InForEach(RoleJunk, RoleNames(t), j);
    JunkIsGated(RoleNames(t), j);
    GatedRuns(t, j, p);
  }

  lemma RoleJunkRow(r: Name, n: Name) returns (j: Job)
    requires n in ["history", "last_run_output.md", "last_run_error.md"]
    ensures j in RoleJunk(r) && (j.Purge? || j.Drop?) && j.path == ["roles", r, n] && j.guard == Parent(j.path)
  {
    var js := RoleJunk(r);
    j := if n == "history" then js[0] else if n == "last_run_output.md" then js[1] else js[2];
    assert j in js;
  }

  lemma JunkIsGated(rs: seq<Name>, j: Job)
    requires j in ForEach(RoleJunk, rs)
    ensures j in GatedJobs(rs)
  {
  }

  lemma SupervisorJunkGone(t: Tree, n: Name)
    requires Root(t) && V1Layout(t).error.None? && n in ["history", "code_output.md", "code_verification_report.md"]
    ensures ["supervisor", n] !in V1Layout(t).tree
  {
    var p := ["supervisor", n];
    RootIsTree(t);
    SupervisorJunkPath(n);
    PassSound(t);
    var t' := V1Layout(t).tree;
    if p in t {
      var js := SupervisorJunk();
      var j := if n == "history" then js[0] else if n == "code_output.md" then js[1] else js[2];
      assert j in js && j in GatedJobs(RoleNames(t));
      hide PassJobs, Root, GatedJobs, NeedsMigration, RoleNames;
      GatedRuns(t, j, p);
      PassEndsDone(t, j);
      RunKeepsTree(PassJobs(t), t);
      if p in t' { ParentIsDir(t', p, j); }
    } else {
      hide PassJobs, Root, IsSource;
      SourceNeverComes(PassJobs(t), t, p);
    }
  }

  /** A role's directory, a report's directory, roles/ and supervisor/ are left only if they still hold something. */
  lemma EmptiedDirsGone(t: Tree, r: Name)
    requires Root(t) && V1Layout(t).error.None?
    ensures var t' := V1Layout(t).tree;
      && (IsDir(t', ["roles", r]) ==> HasEntries(t', ["roles", r]))
      && (IsDir(t', ["shared", "report", r]) ==> HasEntries(t', ["shared", "report", r]))
      && (IsDir(t', ["roles"]) ==> HasEntries(t', ["roles"]))
      && (IsDir(t', ["supervisor"]) ==> HasEntries(t', ["supervisor"]))
  {
    hide V1Layout, Root, HasEntries;
    var t' := V1Layout(t).tree;
    if IsDir(t', RoleDir(r)) { RoleDirGone(t, r); }
    if IsDir(t', ReportDir(r)) { ReportDirGone(t, r); }
    if IsDir(t', ROLES) { RootDirGone(t, ROLES); }
    if IsDir(t', SUPERVISOR) { RootDirGone(t, SUPERVISOR); }
  }

  lemma QuietRmdir(t: Tree, g: Path, p: Path)
    requires p != [] && Quiet(Rmdir(g, p), t) && IsDir(t, p) && IsDir(t, g)
    ensures HasEntries(t, p)
  {
  }

  lemma RoleDirGone(t: Tree, r: Name)
    requires Root(t) && V1Layout(t).error.None? && IsDir(V1Layout(t).tree, RoleDir(r))
    ensures HasEntries(V1Layout(t).tree, RoleDir(r))
  {
    RootIsTree(t);
    PassSound(t);
    DirsAreListed(r);
    hide PassJobs, Root, IsListed;
    if !IsDir(t, RoleDir(r)) { ListedNeverComes(PassJobs(t), t, RoleDir(r)); }
    hide V1Layout;
    var j := Rmdir(RoleDir(r), RoleDir(r));
    RoleRmdirJob(t, r);
    PassEndsDone(t, j);
    QuietRmdir(V1Layout(t).tree, RoleDir(r), RoleDir(r));
  }

  lemma RoleRmdirJob(t: Tree, r: Name)
    requires WellFormed(t) && IsDir(t, RoleDir(r))
    ensures Rmdir(RoleDir(r), RoleDir(r)) in PassJobs(t)
  {
    var j := Rmdir(RoleDir(r), RoleDir(r));
    NamesAreDirs(t, r);
    assert j in RoleRmdir(r);
    InForEach(RoleRmdir, RoleNames(t), j);
    hide RoleNames, PassJobs, NeedsMigration, RoleRmdir, ForEach;
    assert j in GatedJobs(RoleNames(t));
    GatedRuns(t, j, RoleDir(r));
  }

  lemma ReportDirGone(t: Tree, d: Name)
    requires Root(t) && V1Layout(t).error.None? && IsDir(V1Layout(t).tree, ReportDir(d))
    ensures HasEntries(V1Layout(t).tree, ReportDir(d))
  {
    PassSound(t);
    DirsAreListed(d);
    hide PassJobs, Root, IsListed;
    if !IsDir(t, ReportDir(d)) { ListedNeverComes(PassJobs(t), t, ReportDir(d)); }
    hide V1Layout;
    var j := Rmdir(ReportDir(d), ReportDir(d));
    ReportRmdirJob(t, d);
    PassEndsDone(t, j);
    QuietRmdir(V1Layout(t).tree, ReportDir(d), ReportDir(d));
  }

  lemma ReportRmdirJob(t: Tree, d: Name)
    requires IsDir(t, ReportDir(d))
    ensures Rmdir(ReportDir(d), ReportDir(d)) in PassJobs(t)
  {
    var j := Rmdir(ReportDir(d), ReportDir(d));
    NamesAreDirs(t, d);
    assert j == ReportJobs(d)[2] && j in ReportJobs(d);
    InForEach(ReportJobs, ReportNames(t), j);
    hide ReportNames, ReportJobs, ForEach;
    assert j in FlattenJobs(ReportNames(t));
  }

  lemma RootDirGone(t: Tree, p: Path)
    requires Root(t) && V1Layout(t).error.None? && p in [ROLES, SUPERVISOR] && IsDir(V1Layout(t).tree, p)
    ensures HasEntries(V1Layout(t).tree, p)
  {
    PassSound(t);
    RootIsTree(t);
    hide PassJobs, Root;
    if p !in t { RootDirNeverComes(PassJobs(t), t, p); }
    RunKeepsTree(PassJobs(t), t);
    assert IsDir(V1Layout(t).tree, ROOT);
    hide V1Layout;
    var j := Rmdir(ROOT, p);
    RootRmdirJob(t, p);
    PassEndsDone(t, j);
    QuietRmdir(V1Layout(t).tree, ROOT, p);
  }

  lemma RootRmdirJob(t: Tree, p: Path)
    requires WellFormed(t) && p in t && p in [ROLES, SUPERVISOR]
    ensures Rmdir(ROOT, p) in PassJobs(t)
  {
    var j := Rmdir(ROOT, p);
    assert FinalRmdirs()[0] in FinalRmdirs() && FinalRmdirs()[1] in FinalRmdirs();
    assert j in FinalRmdirs();
    assert j in GatedJobs(RoleNames(t));
    hide PassJobs, GatedJobs, NeedsMigration, RoleNames;
    GatedRuns(t, j, p);
  }

  /* ---- the code directory ---- */

  predicate BelowOldCode(p: Path) { ["supervisor", "code"] <= p }
  predicate BelowNewCode(p: Path) { ["shared", "code"] <= p }

  lemma CodePath(p: Path)
    requires BelowOldCode(p) || BelowNewCode(p)
    ensures |p| >= 2 && p[1] == "code" && p[0] == if BelowOldCode(p) then "supervisor" else "shared"
  {
    PrefixEntries(if BelowOldCode(p) then ["supervisor", "code"] else ["shared", "code"], p);
  }

  lemma NotFromAbove(from: Path, p: Path)
    requires (BelowOldCode(p) || BelowNewCode(p)) && from != [] && Known(from)
    ensures !(from <= p)
  {
    CodePath(p);
    NoCodeSource(from);
    hide Known, BelowOldCode, BelowNewCode;
    if from <= p { PrefixEntries(from, p); }
  }

  lemma NotDropped(path: Path, p: Path)
    requires (BelowOldCode(p) || BelowNewCode(p)) && IsDropped(path)
    ensures !(path <= p)
  {
    CodePath(p);
    hide BelowOldCode, BelowNewCode;
    if path <= p { PrefixEntries(path, p); }
  }

  lemma NotListedThere(p: Path)
    requires BelowOldCode(p) || BelowNewCode(p)
    ensures !IsListed(p) && p != ROLES && p != SUPERVISOR
  {
    CodePath(p);
    DirectoryKinds();
    SubdirectoryKinds();
    hide KindOf;
  }

  lemma NotGuarded(j: Job, p: Path)
    requires InTables(j) && (BelowOldCode(p) || BelowNewCode(p)) && (Moves(j) ==> j.from != [] && Known(j.from))
    ensures Moves(j) ==> !(j.from <= p)
    ensures j.MoveDir? && BelowNewCode(p) ==> !(j.from <= p)
    ensures j.Purge? || j.Drop? ==> !(j.path <= p)
    ensures j.Rmdir? ==> j.path != p
    ensures j.Hoist? ==> j.dir != p
  {
    CodePath(p);
    NotListedThere(p);
    if Moves(j) { NotFromAbove(j.from, p); }
    if j.Hoist? {
      HoistPaths(j);
      DirectoryKinds();
      SubdirectoryKinds();
    }
    if j.Purge? || j.Drop? { NotDropped(j.path, p); }
    hide KindOf, Known, IsTarget, IsSource, IsDropped;
  }

  lemma NoCodeSource(from: Path)
    requires from != [] && Known(from)
    ensures |from| >= 2 ==> from[1] != "code" || from[0] == "roles" || from[0] == "prompts"
    ensures |from| == 1 ==> from[0] != "supervisor" && from[0] != "shared"
  {
  }

  const OLD_CODE: Path := ["supervisor", "code"]
  const NEW_CODE: Path := ["shared", "code"]

  ghost predicate AllGo(js: seq<Job>) { forall j | j in js && (Moves(j) || j.MoveDir?) :: Goes(j) }

  lemma NewCodeStays(j: Job, t: Tree, q: Path)
    requires WellShaped(j) && Runs(j, t, Exec(j, t).tree) && (Moves(j) || j.MoveDir? ==> Goes(j)) && BelowNewCode(q) && q in t
    ensures var t1 := Exec(j, t).tree; q in t1 && t1[q] == t[q]
  {
    EffectOf(false, j, t, Exec(j, t).tree);
    hide Exec, Partial, InTables, Home, Known, BelowNewCode, BelowOldCode;
    NotGuarded(j, q);
  }

  lemma OldCodeStays(j: Job, t: Tree, p: Path)
    requires WellShaped(j) && Runs(j, t, Exec(j, t).tree) && (Moves(j) ==> Goes(j)) && BelowOldCode(p) && p in t && !j.MoveDir?
    ensures var t1 := Exec(j, t).tree; p in t1 && t1[p] == t[p]
  {
    EffectOf(false, j, t, Exec(j, t).tree);
    hide Exec, Partial, InTables, Home, Known, BelowNewCode, BelowOldCode;
    NotGuarded(j, p);
  }

  lemma NoFileGoesToCode(p: Path)
    requires p != [] && Known(p)
    ensures Home(p) != ["shared", "code"]
  {
    if |p| == 3 && p[0] == "shared" { assert |p[2]| >= 6; }
  }

  lemma NewCodeStaysAbsent(j: Job, t: Tree)
    requires WellShaped(j) && Runs(j, t, Exec(j, t).tree) && (Moves(j) ==> Goes(j)) && !j.MoveDir? && NEW_CODE !in t
    ensures NEW_CODE !in Exec(j, t).tree
  {
    if NEW_CODE in Exec(j, t).tree {
      CreatedAt(j, t, Exec(j, t).tree, NEW_CODE);
      JobPaths(j);
      CodeDirPaths();
      NoFileGoesToCode(j.from);
      hide Exec, Partial, InTables, IsTarget, IsSource, Home, Known;
      TargetsAreLeaves(NEW_CODE, j.to);
      TargetIsNotParked(j.from, NEW_CODE);
    }
  }

  lemma CodeDirMoves(j: Job, t: Tree, x: Path)
    requires WellShaped(j) && Runs(j, t, Exec(j, t).tree) && j.MoveDir? && Exec(j, t).error.None?
    requires OLD_CODE in t && NEW_CODE !in t && OLD_CODE + x in t
    ensures var t1 := Exec(j, t).tree; NEW_CODE + x in t1 && t1[NEW_CODE + x] == t[OLD_CODE + x]
  {
    assert (OLD_CODE + x)[|OLD_CODE|..] == x;
    RelocateWorks(t, OLD_CODE, NEW_CODE);
  }

  lemma {:induction false} NewCodeKept(js: seq<Job>, t: Tree, q: Path)
    requires Sound(js, t) && ExecAll(js, t).error.None? && AllGo(js) && BelowNewCode(q) && q in t
    ensures q in ExecAll(js, t).tree && ExecAll(js, t).tree[q] == t[q]
  {
    hide Exec, Goes, BelowNewCode;
    if js != [] {
      HeadRuns(js, t);
      RestRuns(js, t);
      assert js[0] in js;
      NewCodeStays(js[0], t, q);
      hide ExecAll, Sound, Runs;
      NewCodeKept(js[1..], Exec(js[0], t).tree, q);
    }
  }

  lemma BelowCodes(x: Path)
    ensures BelowOldCode(OLD_CODE + x) && BelowNewCode(NEW_CODE + x) && BelowOldCode(OLD_CODE)
  {
  }

  lemma {:induction false} CodeMoved(js: seq<Job>, n: nat, t: Tree, x: Path)
    requires Sound(js, t) && ExecAll(js, t).error.None? && AllGo(js) && n < |js| && js[n].MoveDir?
    requires OLD_CODE in t && NEW_CODE !in t && OLD_CODE + x in t
    ensures var t' := ExecAll(js, t).tree; NEW_CODE + x in t' && t'[NEW_CODE + x] == t[OLD_CODE + x]
  {
    hide Exec, Goes, BelowNewCode, BelowOldCode;
    HeadRuns(js, t);
    RestRuns(js, t);
    BelowCodes(x);
    assert js[0] in js;
    hide ExecAll, Sound, Runs, WellShaped;
    var t1 := Exec(js[0], t).tree;
    if js[0].MoveDir? {
      CodeDirMoves(js[0], t, x);
      NewCodeKept(js[1..], t1, NEW_CODE + x);
    } else {
      OldCodeStays(js[0], t, OLD_CODE);
      OldCodeStays(js[0], t, OLD_CODE + x);
      NewCodeStaysAbsent(js[0], t);
      assert n > 0;
      CodeMoved(js[1..], n - 1, t1, x);
    }
  }

  /** supervisor/code moves to shared/code with everything below it, unless something is there. */
  lemma CodeDirArrives(t: Tree, x: Path)
    requires Root(t) && V1Layout(t).error.None?
    requires ["supervisor", "code"] in t && ["shared", "code"] !in t && ["supervisor", "code"] + x in t
    ensures var t' := V1Layout(t).tree;
      ["shared", "code"] + x in t' && t'[["shared", "code"] + x] == t[["supervisor", "code"] + x]
  {
    RootIsTree(t);
    PassSound(t);
    var j := StaticDirMoves()[0];
    assert j in StaticDirMoves() && j in GatedJobs(RoleNames(t));
    hide PassJobs, Root, GatedJobs, RoleNames, Sound, Goes;
    GatedRuns(t, j, ["supervisor", "code"]);
    forall k | k in PassJobs(t) && (Moves(k) || k.MoveDir?) ensures Goes(k) { PassGoes(t, k); }
    var n :| 0 <= n < |PassJobs(t)| && PassJobs(t)[n] == j;
    CodeMoved(PassJobs(t), n, t, x);
  }

  /* ---- the directory an action's artifact came from ---- */

  /** A hoist that moves leaves its directory only if something else is in it. */
  lemma HoistClears(j: Job, t: Tree)
    requires WellShaped(j) && Runs(j, t, Exec(j, t).tree) && Exec(j, t).error.None? && j.Hoist? && j.to !in t && j.from in t
    ensures var t1 := Exec(j, t).tree; IsDir(t1, j.dir) ==> HasEntries(t1, j.dir)
  {
    var m := ExecMove(t, j.from, j.to);
    assert m.report.moved != [] && m.error.None?;
    hide ExecMove, InTables;
    assert Exec(j, t).tree == ExecRmdir(m.tree, j.dir).tree;
  }

  predicate Kept(t: Tree, d: Path) { IsDir(t, d) ==> HasEntries(t, d) }

  lemma ActionPaths(j: Job)
    requires InTables(j) && j.Hoist?
    ensures exists a | a in ACTIONS :: j == ActionHoist(a)
    ensures |j.dir| == 2 && |j.from| == 3 && |j.to| == 2 && j.from[..2] == j.dir && j.dir[0] == "shared" && j.from != []
  {
    var i :| 0 <= i < |ACTIONS| && j == ActionHoist(ACTIONS[i]);
    assert ACTIONS[i] in ACTIONS;
  }

  lemma BelowBoth(from: Path, d: Path, e: Path)
    requires |d| == 2 && |from| == 3 && d < e && from <= e
    ensures from[..2] == d
  {
    assert e[..2] == d && e[..2] == from[..2];
  }

  lemma OtherHoistKeeps(j: Job, t: Tree, d: Path)
    requires WellShaped(j) && Runs(j, t, Exec(j, t).tree) && j.Hoist? && |d| == 2 && d != j.dir && Kept(t, d)
    ensures Kept(Exec(j, t).tree, d)
  {
    var t1 := Exec(j, t).tree;
    if IsDir(t1, d) {
      ActionPaths(j);
      EffectOf(false, j, t, t1);
      if d !in t { CreatedAt(j, t, t1, d); }
      hide Exec, Partial, InTables;
      var e :| e in t && d < e;
      if j.from <= e { BelowBoth(j.from, d, e); }
      assert e in t1;
    }
  }

  lemma {:induction false} OtherHoistsKeep(js: seq<Job>, t: Tree, d: Path)
    requires Sound(js, t) && ExecAll(js, t).error.None? && |d| == 2 && Kept(t, d)
    requires forall k | k in js :: k.Hoist? && k.dir != d
    ensures Kept(ExecAll(js, t).tree, d)
  {
    hide Exec, Kept;
    if js != [] {
      HeadRuns(js, t);
      RestRuns(js, t);
      assert js[0] in js;
      hide ExecAll, Sound, Runs;
      OtherHoistKeeps(js[0], t, d);
      OtherHoistsKeep(js[1..], Exec(js[0], t).tree, d);
    }
  }

  /** Only j and jobs whose source is x go to j's target, and only j takes j's source. */
  ghost predicate Alone(js: seq<Job>, j: Job, x: Path) {
    && j.Hoist? && IsSource(x)
    && (forall k | k in js && Moves(k) && k.to == j.to :: k == j || k.from == x)
    && (forall k | k in js && (Moves(k) || k.MoveDir?) && k.from == j.from :: k == j)
  }

  /** Until its turn comes, its source waits and its target stays empty. */
  lemma WaitsForTurn(js: seq<Job>, j: Job, t: Tree, x: Path)
    requires Sound(js, t) && js != [] && Exec(js[0], t).error.None? && Alone(js, j, x) && InTables(j) && js[0] != j
    requires j.to !in t && IsFile(t, j.from) && x !in t
    ensures var t1 := Exec(js[0], t).tree; j.to !in t1 && IsFile(t1, j.from) && x !in t1
  {
    HeadRuns(js, t);
    HoistPaths(j);
    ArtifactTargets(j);
    assert js[0] in js;
    hide Exec, Sound, InTables, IsSource, FileTarget;
    if j.to in Exec(js[0], t).tree {
      OnlyItsJobFills(js[0], t, j.to);
      NothingToMove(js[0], t);
    }
    OtherSourceStays(js[0], t, j.from);
    SourceNotCreated(js[0], t, Exec(js[0], t).tree, x);
  }

  lemma ArtifactTargets(j: Job)
    requires InTables(j) && j.Hoist?
    ensures FileTarget(j.to)
  {
    ActionPaths(j);
    var a :| a in ACTIONS && j == ActionHoist(a);
    ArtifactTarget(a);
  }

  lemma LaterHoists(js: seq<Job>)
    requires js != [] && HoistsLast(js) && js[0].Hoist?
    ensures forall k | k in js[1..] :: k.Hoist? && k.dir != js[0].dir
  {
    forall k | k in js[1..] ensures k.Hoist? && k.dir != js[0].dir {
      var b :| 0 <= b < |js[1..]| && js[1..][b] == k;
      assert js[b + 1] == k;
    }
  }

  lemma {:induction false} HoistTurn(js: seq<Job>, n: nat, t: Tree, x: Path)
    requires Sound(js, t) && ExecAll(js, t).error.None? && HoistsLast(js) && n < |js| && Alone(js, js[n], x) && InTables(js[n])
    requires js[n].to !in t && IsFile(t, js[n].from) && x !in t
    ensures Kept(ExecAll(js, t).tree, js[n].dir)
  {
    hide Exec, InTables, IsSource, Kept;
    HeadRuns(js, t);
    RestRuns(js, t);
    var j, t1 := js[n], Exec(js[0], t).tree;
    if js[0].Hoist? { LaterHoists(js); }
    if n == 0 {
      HoistKept(j, t);
      ActionPaths(j);
      hide ExecAll, Sound, Runs;
      OtherHoistsKeep(js[1..], t1, j.dir);
    } else {
      assert js[1..][n - 1] == j && j in js[1..];
      WaitsForTurn(js, j, t, x);
      LastStays(js);
      hide ExecAll, Sound, Runs, HoistsLast;
      HoistTurn(js[1..], n - 1, t1, x);
    }
  }

  lemma HoistKept(j: Job, t: Tree)
    requires WellShaped(j) && Runs(j, t, Exec(j, t).tree) && Exec(j, t).error.None? && j.Hoist? && j.to !in t && j.from in t
    ensures Kept(Exec(j, t).tree, j.dir)
  {
    HoistClears(j, t);
    hide Exec, Runs;
  }

  lemma LastStays(js: seq<Job>)
    requires js != [] && HoistsLast(js)
    ensures HoistsLast(js[1..])
  {
    forall a, b | 0 <= a < b < |js[1..]| && js[1..][a].Hoist? ensures js[1..][b].Hoist? && js[1..][b].dir != js[1..][a].dir {
      assert js[1..][a] == js[a + 1] && js[1..][b] == js[b + 1];
    }
  }

  lemma ActionAlone(t: Tree, a: Name)
    requires Root(t) && a in ["review", "verify", "auto_setup"]
    ensures Alone(PassJobs(t), ActionHoist(a), FirstArtifact(a)) && ActionHoist(a) in PassJobs(t) && InTables(ActionHoist(a))
  {
    var js, j := PassJobs(t), ActionHoist(a);
    HoistIsThere(t, a);
    PassInTables(t);
    FirstArtifactIsSource(a);
    hide PassJobs, Root, InTables, IsSource, FirstArtifact;
    forall k | k in js && (Moves(k) || k.MoveDir?) && k.from == j.from ensures k == j { SharedThree(t, k, a); }
    forall k | k in js && Moves(k) && k.to == j.to ensures k == j || k.from == FirstArtifact(a) {
      PassGoes(t, k);
      ArtifactSource(k.from, a);
      if k.from == j.from { SharedThree(t, k, a); }
    }
  }

  lemma HoistIsThere(t: Tree, a: Name)
    requires a in ["review", "verify", "auto_setup"]
    ensures ActionHoist(a) in PassJobs(t)
  {
    assert ActionHoist(a) in ActionHoists() && ActionHoist(a) in FlattenJobs(ReportNames(t));
    hide GatedJobs, FlattenJobs;
  }

  lemma FirstArtifactIsSource(a: Name)
    requires a in ["review", "verify", "auto_setup"]
    ensures IsSource(FirstArtifact(a))
  {
    TemplatedKinds(a);
    DirectoryKinds();
    MarkdownName("setup_overview.md");
    hide KindOf;
  }

  /** Nothing else takes shared/<action>/<action>.md. */
  lemma SharedThree(t: Tree, k: Job, a: Name)
    requires k in PassJobs(t) && (Moves(k) || k.MoveDir?)
    requires k.from == ["shared", a, a + ".md"]
    ensures k == ActionHoist(a)
  {
    var ds := ReportNames(t);
    PassInTables(t);
    assert k.MoveDir? ==> InTables(k);
    hide RoleNames, ReportNames, GatedJobs, FlattenJobs, InTables;
    if k in FlattenJobs(ds) {
      FlattenGoes(ds, k);
      ThreeLong(ds, k);
      HoistByName(k, a);
    } else {
      GatedGoes(RoleNames(t), k);
    }
  }

  lemma HoistByName(k: Job, a: Name)
    requires k in ActionHoists() && k.from[1] == a
    ensures k == ActionHoist(a)
  {
  }

  lemma ThreeLong(ds: seq<Name>, k: Job)
    requires k in FlattenJobs(ds) && Moves(k) && |k.from| == 3
    ensures k in ActionHoists()
  {
    InForEach(ReportJobs, ds, k);
  }

  /** When the pass moved shared/<action>/<action>.md up, the directory is left only if it still holds something. */
  lemma ActionDirGone(t: Tree, a: Name)
    requires Root(t) && V1Layout(t).error.None? && a in ["review", "verify", "auto_setup"]
    requires ["shared", a + ".md"] !in t && FirstArtifact(a) !in t && ["shared", a, a + ".md"] in t
    ensures IsDir(V1Layout(t).tree, ["shared", a]) ==> HasEntries(V1Layout(t).tree, ["shared", a])
  {
    ActionAlone(t, a);
    PassShape(t);
    PassSound(t);
    var js, j := PassJobs(t), ActionHoist(a);
    assert FileSource(j, t);
    hide PassJobs, Root, Sound, Alone, InTables, HoistsLast, FirstArtifact;
    var n :| 0 <= n < |js| && js[n] == j;
    HoistTurn(js, n, t, FirstArtifact(a));
  }
}
