/** The laws of V1Layout: crash and re-run converge, a second pass is a no-op,
    and the gate skips only what would do nothing. */
module MigrationLaws {
  import opened Common
  import opened FileTree
  import opened SortedNames
  import opened MigrationJobs
  import opened MigrationEffects
  import opened MigrationTables
  import opened MigrationSafety
  import opened MigrationReplay
  import opened MigrationConvergence
  import opened MigrationTheorems
  import opened MigrationOrder
  import opened MigrationPass

  /* ---- the gate ---- */

  /** The job looks at something the gate looks for, or at something below supervisor/. */
  predicate Gated(j: Job) {
    && !j.Hoist? && ((j.Move? || j.Purge? || j.Drop? || j.Rmdir?) ==> j.guard == ROOT)
    && (Subject(j) in INDICATORS || SUPERVISOR <= Subject(j))
  }

  lemma BasePromptsGated(j: Job)
    requires j in BasePrompts()
    ensures Gated(j)
  {
    var i :| 0 <= i < |BasePrompts()| && BasePrompts()[i] == j;
    assert j.from == if i < 4 then INDICATORS[i + 2] else INDICATORS[i + 3];
  }

  lemma SupervisorGated(j: Job)
    requires j in SupervisorArtifacts() || (exists stem :: j in SupervisorPrompts(stem)) || j in SupervisorJunk()
    ensures Gated(j)
  {
    assert INDICATORS[6] in INDICATORS;
  }

  lemma FinalJobsGated(j: Job)
    requires j in StaticDirMoves() || j == List(ROLES) || j in FinalRmdirs()
    ensures Gated(j)
  {
    assert INDICATORS[0] in INDICATORS && INDICATORS[1] in INDICATORS;
  }

  /** With no role directory, the gated phases look only where the gate looks. */
  lemma GatedJobsGated(j: Job)
    requires j in GatedJobs([])
    ensures Gated(j)
  {
    InForEach(SupervisorPrompts, SUPERVISOR_STEMS, j);
    hide Gated, BasePrompts, SupervisorPrompts, SupervisorArtifacts, SupervisorJunk, StaticDirMoves, FinalRmdirs;
    if j in BasePrompts() { BasePromptsGated(j); }
    else if j in StaticMoves() || j in SupervisorJunk() { SupervisorGated(j); }
    else { FinalJobsGated(j); }
  }

  /** prompts/ or prompts/code is a regular file: the one thing a gated lookup trips over. */
  predicate BlockedGate(t: Tree) {
    IsFile(t, ["prompts"]) || IsFile(t, ["prompts", "code"])
  }

  lemma GatedIdle(j: Job, t: Tree)
    requires WellFormed(t) && !NeedsMigration(t) && Gated(j) && WellShaped(j)
    ensures Exec(j, t).tree == t && !Exec(j, t).report.Changed()
    ensures Exec(j, t).error.None? <==> Lstat(t, Subject(j)) == NotExist
    ensures Lstat(t, Subject(j)) == NotExist || (BlockedGate(t) && ["prompts", "code"] < Subject(j))
  {
    var p := Subject(j);
    if p in INDICATORS {
      var i :| 0 <= i < |INDICATORS| && INDICATORS[i] == p;
    } else {
      assert INDICATORS[1] !in t;
      if p in t { Ancestor(t, SUPERVISOR, p); }
    }
    GateStat(p, t);
    AbsentSubjectIdle(j, t);
  }

  lemma GateStat(p: Path, t: Tree)
    requires WellFormed(t) && !NeedsMigration(t) && p !in t && (p in INDICATORS || SUPERVISOR <= p)
    ensures Lstat(t, p) == NotExist || (BlockedGate(t) && ["prompts", "code"] < p)
    ensures BlockedGate(t) && ["prompts", "code"] < p ==> Lstat(t, p) == NotDir
  {
    assert INDICATORS[1] == SUPERVISOR && INDICATORS[1] !in t;
    if SUPERVISOR <= p {
      assert p[0] == "supervisor" && ["prompts", "code"][0] == "prompts" && p[..0] == [];
      forall k | 0 <= k < |p| ensures !IsFile(t, p[..k]) {
        if k > 0 && p[..k] in t { assert p[..k][..1] == SUPERVISOR; Ancestor(t, SUPERVISOR, p[..k]); }
      }
    } else if |p| == 1 {
      assert p[..0] == [];
    } else {
      assert p[..0] == [] && p[..1] == ["prompts"] && p[..2] == ["prompts", "code"];
    }
  }

  lemma NoRoleNames(t: Tree)
    requires WellFormed(t) && ROLES !in t
    ensures RoleNames(t) == []
  {
    if RoleNames(t) != [] {
      var n := RoleNames(t)[0];
      NamesAreDirs(t, n);
      Ancestor(t, ROLES, RoleDir(n));
    }
  }

  /** When the gate says no migration is needed, the four phases it skips would
      change nothing; they would succeed exactly when neither prompts nor
      prompts/code is a regular file. */
  lemma SkippedPhasesAreNoOps(t: Tree)
    requires WellFormed(t) && !NeedsMigration(t)
    ensures AllShaped(GatedJobs(RoleNames(t)))
    ensures var o := ExecAll(GatedJobs(RoleNames(t)), t);
      && o.tree == t && !o.report.Changed()
      && (o.error.None? <==> !BlockedGate(t))
  {
    assert INDICATORS[0] == ROLES;
    NoRoleNames(t);
    var js := GatedJobs([]);
    GatedInTables([]);
    AllAreShaped(js);
    forall j | j in js
      ensures Exec(j, t).tree == t && !Exec(j, t).report.Changed() && (!BlockedGate(t) ==> Exec(j, t).error.None?)
    {
      GatedJobsGated(j);
      GatedIdle(j, t);
    }
    var probe := BasePrompts()[4];
    assert probe in BasePrompts() && probe in js by { hide Exec; }
    BasePromptsGated(probe);
    GateStat(probe.from, t);
    GatedIdle(probe, t);
    hide Exec, ExecAll, GatedJobs, NeedsMigration, Lstat;
    IdleRun(js, t);
  }

  /* ---- crash and re-run ---- */

  lemma PassShape(t: Tree)
    ensures AllInTables(PassJobs(t)) && AllShaped(PassJobs(t)) && Ordered(PassJobs(t)) && HoistsLast(PassJobs(t))
  {
    PassInTables(t);
    PassHoistsLast(RoleNames(t), ReportNames(t));
    FlattenOrdered(ReportNames(t));
    PassOrdered(RoleNames(t), ReportNames(t));
  }

  function AsSet(s: seq<Name>): set<Name> { set n | n in s }

  lemma SortedSubset(all: set<Name>, some: set<Name>)
    requires some <= all
    ensures Sort(some) == Filter(Sort(all), AsSet(Sort(some)))
  {
    FilterSorted(Sort(all), AsSet(Sort(some)));
    assert (set x | x in Sort(all) && x in AsSet(Sort(some))) == some;
  }

  /** A later listing is the earlier one without the directories that went away. */
  lemma ListingShrinks(t: Tree, t': Tree)
    requires NothingReturns(t, t')
    ensures RoleNames(t') == Filter(RoleNames(t), AsSet(RoleNames(t')))
    ensures ReportNames(t') == Filter(ReportNames(t), AsSet(ReportNames(t')))
  {
    forall n: Name
      ensures n in RoleNames(t') ==> n in RoleNames(t)
      ensures n in ReportNames(t') ==> n in ReportNames(t)
    {
      NamesAreDirs(t, n);
      NamesAreDirs(t', n);
      DirsAreListed(n);
    }
    hide DirsBelow, Filter, NothingReturns;
    assert forall n: Name :: n in RoleNames(t') <==> n in DirsBelow(t', ROLES);
    assert forall n: Name :: n in ReportNames(t') <==> n in DirsBelow(t', REPORTS);
    SortedSubset(DirsBelow(t, ROLES), DirsBelow(t', ROLES));
    SortedSubset(DirsBelow(t, REPORTS), DirsBelow(t', REPORTS));
  }

  lemma ForEachShrinks(f: Name -> seq<Job>, all: seq<Name>, some: seq<Name>, j: Job)
    requires (forall n | n in some :: n in all) && j in ForEach(f, some)
    ensures j in ForEach(f, all)
  {
    InForEach(f, some, j);
    InForEach(f, all, j);
  }

  /** Every job a pass takes from a later tree, the pass took from the earlier one. */
  lemma JobsShrink(t: Tree, t': Tree, j: Job)
    requires NothingReturns(t, t') && j in PassJobs(t')
    ensures j in PassJobs(t)
  {
    ListingShrinks(t, t');
    var rs, ds, rs', ds' := RoleNames(t), ReportNames(t), RoleNames(t'), ReportNames(t');
    assert NeedsMigration(t') ==> NeedsMigration(t);
    hide NothingReturns, NeedsMigration, RoleNames, ReportNames, GatedJobs, FlattenJobs;
    if j in GatedJobs(rs') { GatedShrinks(rs, rs', j); }
    if j in FlattenJobs(ds') { FlattenShrinks(ds, ds', j); }
  }

  lemma GatedShrinks(all: seq<Name>, some: seq<Name>, j: Job)
    requires (forall n | n in some :: n in all) && j in GatedJobs(some)
    ensures j in GatedJobs(all)
  {
    hide ForEach, StaticMoves, StaticDirMoves, SupervisorJunk, FinalRmdirs;
    if j in ForEach(RoleMoves, some) { ForEachShrinks(RoleMoves, all, some, j); }
    if j in ForEach(RoleJunk, some) { ForEachShrinks(RoleJunk, all, some, j); }
    if j in ForEach(RoleRmdir, some) { ForEachShrinks(RoleRmdir, all, some, j); }
  }

  lemma FlattenShrinks(all: seq<Name>, some: seq<Name>, j: Job)
    requires (forall n | n in some :: n in all) && j in FlattenJobs(some)
    ensures j in FlattenJobs(all)
  {
    hide ForEach, ActionHoists;
    if j in ForEach(ReportJobs, some) { ForEachShrinks(ReportJobs, all, some, j); }
  }

  /** Names that went away since the listing stay away. */
  lemma StableAt(all: seq<Job>, t: Tree, t': Tree)
    requires NothingReturns(t, t') && FileSources(all, t')
    ensures Stable(all, RoleNames(t), AsSet(RoleNames(t')), RoleDir, t')
    ensures Stable(all, ReportNames(t), AsSet(ReportNames(t')), ReportDir, t')
  {
    forall n: Name {:trigger RoleDir(n)} | n in RoleNames(t) ensures IsListed(RoleDir(n)) && (n !in RoleNames(t') ==> !IsDir(t', RoleDir(n))) {
      NamesAreDirs(t', n);
      DirsAreListed(n);
    }
    forall n: Name {:trigger ReportDir(n)} | n in ReportNames(t) ensures IsListed(ReportDir(n)) && (n !in ReportNames(t') ==> !IsDir(t', ReportDir(n))) {
      NamesAreDirs(t', n);
      DirsAreListed(n);
    }
  }

  /** Running the interrupted pass's own jobs again comes to the same as a fresh
      pass, which lists the directories anew and consults the gate again. */
  lemma FreshPassSame(t: Tree, t': Tree)
    requires WellFormed(t) && NothingReturns(t, t') && FileSources(PassJobs(t), t')
    requires AllShaped(PassJobs(t))
    requires ExecAll(PassJobs(t), t').error.None? || (NeedsMigration(t) ==> NeedsMigration(t'))
    ensures ExecAll(PassJobs(t), t').tree == V1Layout(t').tree && ExecAll(PassJobs(t), t').error == V1Layout(t').error
  {
    hide Exec, ExecAll, GatedJobs, FlattenJobs, FileSources, Stable;
    var rs, ds, rs', ds' := RoleNames(t), ReportNames(t), RoleNames(t'), ReportNames(t');
    var all := PassJobs(t);
    PassInTables(t);
    PassInTables(t');
    ListingShrinks(t, t');
    StableAt(all, t, t');
    if NeedsMigration(t) {
      StableSubset(all, GatedJobs(rs), rs, AsSet(rs'), RoleDir, t');
      GatedSame(rs, AsSet(rs'), t');
      RunStable(GatedJobs(rs), all, ds, AsSet(ds'), ReportDir, t');
      var t1 := ExecAll(GatedJobs(rs), t').tree;
      StableSubset(all, FlattenJobs(ds), ds, AsSet(ds'), ReportDir, t1);
      FlattenSame(ds, AsSet(ds'), t1);
      SameRunConcat(GatedJobs(rs), GatedJobs(rs'), FlattenJobs(ds), FlattenJobs(ds'), t');
      if !NeedsMigration(t') {
        SkippedPhasesAreNoOps(t');
        ExecAllConcat(GatedJobs(rs'), FlattenJobs(ds'), t');
      }
    } else {
      FlattenSame(ds, AsSet(ds'), t');
    }
  }

  lemma StableSubset(all: seq<Job>, some: seq<Job>, names: seq<Name>, keep: set<Name>, dir: Name -> Path, t: Tree)
    requires Stable(all, names, keep, dir, t) && forall j | j in some :: j in all
    ensures Stable(some, names, keep, dir, t)
  {
  }

  /** Stop a pass at any tree it goes through and start a fresh one from there:
      it ends with the same error, the same files at the same paths and the
      same directories, empty shared/<action> directories aside. */
  lemma CrashConverges(t: Tree, t': Tree)
    requires Root(t) && StoppedAt(false, t, t')
    requires AllShaped(PassJobs(t)) && NeverUnblocks([], PassJobs(t), t)
    requires V1Layout(t).error.None? || (NeedsMigration(t) ==> NeedsMigration(t'))
    ensures OnlyStrayDirs(V1Layout(t').tree, V1Layout(t).tree)
    ensures V1Layout(t').error == V1Layout(t).error
  {
    hide Exec, ExecAll, PassJobs, NeedsMigration, Cut, NeverUnblocks, NothingReturns, OnlyStrayDirs;
    var js := PassJobs(t);
    PassShape(t);
    assert [] + js == js;
    Converge([], js, t, t');
    CutNothingReturns(js, js, t, t');
    FreshPassSame(t, t');
  }

  /** After a pass without errors, a second pass changes nothing and reports nothing changed. */
  lemma SecondPassIsNoOp(t: Tree)
    requires Root(t) && V1Layout(t).error.None?
    requires AllShaped(PassJobs(t)) && NeverUnblocks([], PassJobs(t), t)
    ensures var t1 := V1Layout(t).tree;
      V1Layout(t1).tree == t1 && V1Layout(t1).error.None? && !V1Layout(t1).report.Changed()
  {
    hide Exec, ExecAll, PassJobs, NeedsMigration, Cut, NeverUnblocks, NothingReturns, Quiet;
    var js, t1 := PassJobs(t), V1Layout(t).tree;
    PassShape(t);
    assert [] + js == js;
    RunEndsQuiet([], js, t);
    CompletedIsCut(false, js, t);
    CutNothingReturns(js, js, t, t1);
    PassInTables(t1);
    forall j | j in PassJobs(t1) ensures Quiet(j, t1) { JobsShrink(t, t1, j); }
    ReplayQuiet(PassJobs(t1), t1);
  }

  lemma {:induction false} CompletedIsCut(crossDevice: bool, js: seq<Job>, t: Tree)
    requires AllShaped(js)
    ensures Cut(crossDevice, js, t, ExecAll(js, t).tree)
  {
    hide Exec, Partial;
    if js != [] {
      CompletedIsPartial(crossDevice, js[0], t);
      if Exec(js[0], t).error.None? { CompletedIsCut(crossDevice, js[1..], Exec(js[0], t).tree); }
    }
  }

  /** A tree a pass stops at is again a migration root. */
  lemma StoppedIsRoot(t: Tree, t': Tree)
    requires Root(t) && StoppedAt(false, t, t')
    ensures Root(t') && NothingReturns(t, t')
  {
    hide Exec, ExecAll, PassJobs, NeedsMigration, Cut, NothingReturns, Partial;
    PassInTables(t);
    CutNothingReturns(PassJobs(t), PassJobs(t), t, t');
    forall j | j in PassJobs(t') ensures FileSource(j, t') { JobsShrink(t, t', j); }
    assert WellFormed(t') by { NothingReturnsKeepsTree(t, t'); }
  }

  lemma NothingReturnsKeepsTree(t: Tree, t': Tree)
    requires NothingReturns(t, t')
    ensures WellFormed(t')
  {
  }

  /** Conservation and no overwrite for a whole pass, stopped anywhere, failed or
      complete, with or without the copy fallback. */
  lemma PassConserves(t: Tree, t': Tree)
    requires WellFormed(t) && StoppedAt(true, t, t')
    ensures Conserves(t, t') && TargetsKept(t, t') && WellFormed(t')
  {
    hide *;
    PassInTables(t);
    StoppedIsCut(true, t, t');
    NothingLostNothingOverwritten(PassJobs(t), t, t');
  }

  /** The same for a pass that goes on past jobs it could only do in part, such as an
      rmdir the system refuses. */
  lemma DriftingPassConserves(t: Tree, t': Tree)
    requires WellFormed(t) && AllShaped(PassJobs(t)) && Drifts(PassJobs(t), t, t')
    ensures Conserves(t, t') && TargetsKept(t, t') && WellFormed(t')
  {
    hide *;
    PassInTables(t);
    DriftingLosesNothing(PassJobs(t), t, t');
  }

  lemma StoppedIsCut(crossDevice: bool, t: Tree, t': Tree)
    requires StoppedAt(crossDevice, t, t')
    ensures AllShaped(PassJobs(t)) && Cut(crossDevice, PassJobs(t), t, t')
  {
    PassInTables(t);
  }
}
