/** When a pass is sure to succeed: nothing but a file in the place of a
    directory, or the other way round, can make it fail. */
module MigrationSucceeds {
  import opened Common
  import opened FileTree
  import opened SortedNames
  import opened MigrationJobs
  import opened MigrationEffects
  import opened MigrationTables
  import opened MigrationReplay
  import opened MigrationTheorems
  import opened MigrationPass
  import opened MigrationRows
  import opened MigrationCleared

  /** The directories of either layout. */
  const ROADS: seq<Path> :=
    [ ["roles"], ["supervisor"], ["supervisor", "code"], ["prompts"], ["prompts", "report"], ["prompts", "code"],
      ["shared"], ["shared", "report"], ["shared", "review"], ["shared", "verify"], ["shared", "auto_setup"] ]

  /** Where cleanup expects a single file. */
  predicate IsJunkFile(p: Path) {
    || (|p| == 3 && p[0] == "roles" && (p[2] == "last_run_output.md" || p[2] == "last_run_error.md"))
    || (|p| == 2 && p[0] == "supervisor" && (p[1] == "code_output.md" || p[1] == "code_verification_report.md"))
  }

  /** No file where a directory belongs, and no directory where cleanup expects a file. */
  ghost predicate Open(t: Tree) {
    && (forall p | p in ROADS :: !IsFile(t, p))
    && (forall p | IsJunkFile(p) :: !IsDir(t, p))
  }

  /** The way to an entry is clear if no directory on it is a file. */
  lemma WayIsClear(t: Tree, p: Path)
    requires forall k | 0 <= k < |p| :: !IsFile(t, p[..k])
    ensures Lstat(t, p) != NotDir
  {
  }

  lemma RoadsAre(t: Tree, p: Path)
    requires WellFormed(t) && Open(t) && p != []
    requires |p| == 1 || (|p| == 2 && [p[0]] in ROADS) || (|p| == 3 && [p[0]] in ROADS && !IsFile(t, [p[0], p[1]]))
          || (|p| == 4 && [p[0]] in ROADS && !IsFile(t, [p[0], p[1]]) && !IsFile(t, [p[0], p[1], p[2]]))
    ensures Lstat(t, p) != NotDir
  {
    forall k | 0 <= k < |p| ensures !IsFile(t, p[..k]) {
      if k == 0 { assert p[..k] == []; }
      else if k == 1 { assert p[..k] == [p[0]]; }
      else if k == 2 { assert p[..k] == [p[0], p[1]]; }
      else { assert p[..k] == [p[0], p[1], p[2]]; }
    }
    WayIsClear(t, p);
  }

  lemma RoadNames()
    ensures ["roles"] in ROADS && ["supervisor"] in ROADS && ["supervisor", "code"] in ROADS && ["prompts"] in ROADS
    ensures ["prompts", "report"] in ROADS && ["prompts", "code"] in ROADS && ["shared"] in ROADS && ["shared", "report"] in ROADS
    ensures ["shared", "review"] in ROADS && ["shared", "verify"] in ROADS && ["shared", "auto_setup"] in ROADS
  {
    var r := ROADS;
    assert r[0] in r && r[1] in r && r[2] in r && r[3] in r && r[4] in r && r[5] in r;
    assert r[6] in r && r[7] in r && r[8] in r && r[9] in r && r[10] in r;
  }

  /** A job about a listed directory runs only if it is one. */
  predicate Guarded(j: Job) {
    && (Moves(j) && |j.from| == 3 && j.from[0] == "roles" ==> j.Move? && j.guard == [j.from[0], j.from[1]])
    && (Moves(j) && |j.from| == 4 ==> j.Move? && j.guard == [j.from[0], j.from[1], j.from[2]])
    && ((j.Purge? || j.Drop?) && |j.path| >= 3 ==> j.guard == [j.path[0], j.path[1]] && |j.path| == 3 && j.path[0] == "roles")
    && (j.Drop? ==> IsJunkFile(j.path))
  }

  lemma StaticGuarded(j: Job)
    requires j in StaticMoves()
    ensures Moves(j) && Guarded(j) && j.from != [] && j.from[0] != "roles" && |j.from| <= 3
  {
    InForEach(SupervisorPrompts, SUPERVISOR_STEMS, j);
    hide ForEach, SupervisorPrompts, BasePrompts, SupervisorArtifacts;
    if stem :| j in SupervisorPrompts(stem) { StemGuarded(stem, j); } else { BaseGuarded(j); }
  }

  lemma StemGuarded(stem: Name, j: Job)
    requires j in SupervisorPrompts(stem)
    ensures Moves(j) && Guarded(j) && j.from != [] && j.from[0] != "roles" && |j.from| <= 3
  {
  }

  lemma BaseGuarded(j: Job)
    requires j in BasePrompts() || j in SupervisorArtifacts()
    ensures Moves(j) && Guarded(j) && j.from != [] && j.from[0] != "roles" && |j.from| <= 3
  {
  }

  lemma RoleGuarded(r: Name, j: Job)
    requires j in RoleMoves(r) || j in RoleJunk(r) || j in RoleRmdir(r)
    ensures Guarded(j)
  {
  }

  lemma OtherGuarded(j: Job)
    requires j in StaticDirMoves() || j in SupervisorJunk() || j in FinalRmdirs() || j in ActionHoists() || j.List?
    ensures Guarded(j)
  {
  }

  lemma ReportGuarded(d: Name, j: Job)
    requires j in ReportJobs(d)
    ensures Guarded(j)
  {
  }

  lemma PassGuarded(t: Tree, j: Job)
    requires j in PassJobs(t)
    ensures Guarded(j)
  {
    var rs, ds := RoleNames(t), ReportNames(t);
    InForEach(RoleMoves, rs, j);
    InForEach(RoleJunk, rs, j);
    InForEach(RoleRmdir, rs, j);
    InForEach(ReportJobs, ds, j);
    hide ForEach, StaticMoves, RoleMoves, RoleJunk, RoleRmdir, ReportJobs, StaticDirMoves, SupervisorJunk, FinalRmdirs, ActionHoists;
    hide Guarded, NeedsMigration, RoleNames, ReportNames;
    if j in StaticMoves() { StaticGuarded(j); }
    else if j in StaticDirMoves() || j in SupervisorJunk() || j in FinalRmdirs() || j in ActionHoists() || j.List? { OtherGuarded(j); }
    else if r :| j in RoleMoves(r) || j in RoleJunk(r) || j in RoleRmdir(r) { RoleGuarded(r, j); }
    else if d :| j in ReportJobs(d) { ReportGuarded(d, j); }
    else { assert false; }
  }

  lemma SourceIsReachable(j: Job, t: Tree)
    requires WellFormed(t) && Open(t) && Moves(j) && j.from != [] && Known(j.from) && Guarded(j) && (j.Move? ==> IsDir(t, j.guard))
    ensures Lstat(t, j.from) != NotDir
  {
    KnownRoads(j.from);
    hide Known, ROADS, Moves;
    RoadsAre(t, j.from);
  }

  lemma KnownRoads(p: Path)
    requires p != [] && Known(p)
    ensures |p| <= 4 && (|p| >= 2 ==> [p[0]] in ROADS) && (|p| == 3 && p[0] != "roles" ==> [p[0], p[1]] in ROADS)
    ensures |p| == 4 ==> [p[0], p[1]] in ROADS
  {
    RoadNames();
    hide ROADS;
    assert p == if |p| == 1 then [p[0]] else if |p| == 2 then [p[0], p[1]] else if |p| == 3 then [p[0], p[1], p[2]]
                else if |p| == 4 then [p[0], p[1], p[2], p[3]] else p;
  }

  lemma TargetIsReachable(p: Path, t: Tree)
    requires WellFormed(t) && Open(t) && p != [] && Known(p)
    ensures Lstat(t, Home(p)) != NotDir
  {
    RoadNames();
    HomeShape(p);
    hide ROADS, Home, Known;
    RoadsAre(t, Home(p));
  }

  lemma HomeShape(p: Path)
    requires p != [] && Known(p)
    ensures var q := Home(p);
      (|q| == 2 && q[0] in ["prompts", "shared"])
      || (|q| == 3 && [q[0], q[1]] in [["prompts", "report"], ["prompts", "code"], ["shared", "report"]])
  {
  }

  lemma MoveSucceeds(from: Path, to: Path, t: Tree)
    requires from != [] && to != [] && Lstat(t, from) != NotDir && Lstat(t, to) != NotDir && (from in t ==> t[from].File?)
    ensures ExecMove(t, from, to).error.None?
  {
  }

  lemma DirMoveSucceeds(t: Tree)
    requires WellFormed(t) && Open(t)
    ensures ExecMoveDir(t, ["supervisor", "code"], ["shared", "code"]).error.None?
  {
    RoadNames();
    hide ROADS;
    RoadsAre(t, ["supervisor", "code"]);
    RoadsAre(t, ["shared", "code"]);
  }

  lemma DroppedIsReachable(j: Job, t: Tree)
    requires WellFormed(t) && Open(t) && InTables(j) && Guarded(j) && (j.Purge? || j.Drop?) && IsDir(t, j.guard)
    ensures j.path != [] && Lstat(t, j.path) != NotDir
  {
    DropShape(j);
    RoadNames();
    hide ROADS, InTables, IsJunkFile;
    RoadsAre(t, j.path);
  }

  lemma CleanupSucceeds(j: Job, t: Tree)
    requires WellFormed(t) && Open(t) && InTables(j) && Guarded(j) && (j.Purge? || j.Drop?) && WellShaped(j)
    ensures Exec(j, t).error.None?
  {
    if IsDir(t, j.guard) {
      DroppedIsReachable(j, t);
      hide InTables, Guarded;
      if j.Drop? && j.path in t { JunkIsLeaf(j, t); }
    }
  }

  lemma JunkIsLeaf(j: Job, t: Tree)
    requires WellFormed(t) && Open(t) && j.Drop? && IsJunkFile(j.path) && j.path in t
    ensures !HasEntries(t, j.path)
  {
    FilesAreLeaves(t, j.path);
  }

  lemma DropShape(j: Job)
    requires InTables(j) && (j.Purge? || j.Drop?) && Guarded(j)
    ensures j.path != [] && j.path[0] in ["roles", "supervisor"] && 2 <= |j.path| <= 3 && (|j.path| == 3 ==> j.path[0] == "roles")
    ensures |j.path| == 3 ==> j.guard == [j.path[0], j.path[1]]
  {
    DirectoryKinds();
    SubdirectoryKinds();
  }

  lemma RmdirSucceeds(j: Job, t: Tree)
    requires WellFormed(t) && Open(t) && InTables(j) && WellShaped(j) && (j.Rmdir? || j.List?)
    ensures Exec(j, t).error.None?
  {
    RoadNames();
    hide ROADS;
    if j.Rmdir? && j.guard == j.path {
      if IsDir(t, j.path) { assert j.path in t; }
    } else {
      RoadsAre(t, j.path);
    }
  }

  /** With the roads open every job of the tables succeeds. */
  lemma JobSucceeds(j: Job, t: Tree)
    requires WellFormed(t) && Open(t) && WellShaped(j) && InTables(j) && FileSource(j, t) && Guarded(j)
    requires Moves(j) || j.MoveDir? ==> Goes(j)
    ensures Exec(j, t).error.None?
  {
    match j
    case Move(guard, from, to) =>
      if IsDir(t, guard) {
        SourceIsReachable(j, t);
        TargetIsReachable(from, t);
        MoveSucceeds(from, to, t);
      }
    case Hoist(from, to, dir) =>
      SourceIsReachable(j, t);
      TargetIsReachable(from, t);
      MoveSucceeds(from, to, t);
      HoistStates(false, j, t, Exec(j, t).tree);
    case MoveDir(_, _) => DirMoveSucceeds(t);
    case Purge(_, _) => CleanupSucceeds(j, t);
    case Drop(_, _) => CleanupSucceeds(j, t);
    case Rmdir(_, _) => RmdirSucceeds(j, t);
    case List(_) => RmdirSucceeds(j, t);
  }

  /* ---- the roads stay open ---- */

  lemma RoadKinds(p: Path)
    requires p in ROADS
    ensures 1 <= |p| <= 2
    ensures |p| == 1 ==> KindOf(p[0]) in {Roles, Supervisor, Prompts, Shared}
    ensures |p| == 2 ==> KindOf(p[1]) in {Code, Reports, Action} && (KindOf(p[0]) == Shared ==> KindOf(p[1]) != Code)
  {
    DirectoryKinds();
    SubdirectoryKinds();
    ActionKind("review");
    ActionKind("verify");
    ActionKind("auto_setup");
    hide KindOf;
  }

  lemma RoadIsNoTarget(p: Path)
    requires p in ROADS
    ensures !IsTarget(p) && (|p| >= 2 ==> !(KindOf(p[0]) == Shared && KindOf(p[1]) == Code))
    ensures forall s | IsSource(s) :: p != Legacy(s)
  {
    RoadKinds(p);
    hide KindOf, ROADS;
    forall s | IsSource(s) ensures p != Legacy(s) {
      ParkedKind(s[|s| - 1]);
      assert Legacy(s)[|s| - 1] == s[|s| - 1] + ".legacy" && |Legacy(s)| == |s|;
    }
  }

  lemma JunkIsNoDir(p: Path)
    requires IsJunkFile(p)
    ensures p != [] && KindOf(p[0]) in {Roles, Supervisor}
  {
    DirectoryKinds();
    hide KindOf;
  }

  lemma StaysOpen(j: Job, t: Tree)
    requires WellShaped(j) && Runs(j, t, Exec(j, t).tree) && Open(t)
    ensures Open(Exec(j, t).tree)
  {
    var t1 := Exec(j, t).tree;
    EffectOf(false, j, t, t1);
    hide Exec, Partial, InTables, KindOf, ROADS, IsJunkFile, IsTarget, IsSource;
    forall p | p in ROADS ensures !IsFile(t1, p) {
      RoadIsNoTarget(p);
      if p in t1 && p !in t { CreatedKinds(j, t, t1, p); }
    }
    forall p | IsJunkFile(p) ensures !IsDir(t1, p) {
      JunkIsNoDir(p);
      if p in t1 && p !in t { CreatedKinds(j, t, t1, p); }
    }
  }

  ghost predicate AllGuarded(js: seq<Job>) { AllGo(js) && forall j | j in js :: Guarded(j) }

  lemma {:induction false} RunSucceeds(js: seq<Job>, t: Tree)
    requires Sound(js, t) && Open(t) && AllGuarded(js)
    ensures ExecAll(js, t).error.None?
  {
    hide Exec, Open, Guarded, Goes;
    if js != [] {
      assert js[0] in js;
      HeadRuns(js, t);
      JobSucceeds(js[0], t);
      StaysOpen(js[0], t);
      StepSound(js, t);
      hide Sound, Runs;
      RunSucceeds(js[1..], Exec(js[0], t).tree);
    }
  }

  /** A pass on such a root succeeds, whatever else is there: occupied targets, parked copies and full directories are
      all taken in its stride. */
  lemma PassSucceeds(t: Tree)
    requires Root(t) && Open(t)
    ensures V1Layout(t).error.None?
  {
    PassSound(t);
    hide PassJobs, Root, Sound, Open, Guarded, Goes;
    forall j | j in PassJobs(t) && (Moves(j) || j.MoveDir?) ensures Goes(j) { PassGoes(t, j); }
    forall j | j in PassJobs(t) ensures Guarded(j) { PassGuarded(t, j); }
    RunSucceeds(PassJobs(t), t);
  }
}
