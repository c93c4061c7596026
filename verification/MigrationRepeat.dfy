/** What a second pass does after a clash: it moves the report the first one skipped. */
module MigrationRepeat {
  import opened Common
  import opened FileTree
  import opened SortedNames
  import opened MigrationJobs
  import opened MigrationEffects
  import opened MigrationTables
  import opened MigrationSafety
  import opened MigrationReplay
  import opened MigrationTheorems
  import opened MigrationPass
  import opened MigrationLaws
  import opened MigrationClash

  /** x's report is at p and nothing keeps it from shared/report/<x>.md. */
  predicate Free(x: Name, p: Path, t: Tree) {
    && p in {RoleReport(x), Own(x), Old(x)} && p in t
    && Flat(x) !in t && (Absent(t, REPORTS) || IsDir(t, REPORTS))
  }

  lemma FreeHasNoTarget(x: Name, p: Path, t: Tree)
    requires WellFormed(t) && Free(x, p, t)
    ensures Lstat(t, Flat(x)) == NotExist
  {
    forall k | 0 <= k < 3 ensures !IsFile(t, Flat(x)[..k]) {
      assert Flat(x)[..2] == REPORTS;
      if k < 2 {
        assert Flat(x)[..k] == REPORTS[..k];
        if REPORTS in t { assert IsDir(t, REPORTS[..k]); }
      }
    }
  }

  /** A job about something else leaves it free. */
  lemma ApartStaysFree(k: Job, x: Name, p: Path, t: Tree, t': Tree)
    requires Runs(k, t, t') && Apart(k, x) && Free(x, p, t)
    ensures Free(x, p, t')
  {
    EffectOf(false, k, t, t');
    NamesDiffer(x);
    NotRemovedThere(k, x, p, t[p]);
    if Flat(x) in t' {
      CreatedAt(k, t, t', Flat(x));
      NotCreatedThere(k, x, Flat(x));
    }
    NamedDirStays(k, t, t', REPORTS);
  }

  lemma {:induction false} RunStaysFree(js: seq<Job>, x: Name, p: Path, t: Tree)
    requires AllShaped(js) && AllInTables(js) && FileSources(js, t) && WellFormed(t)
    requires (forall k | k in js :: Apart(k, x)) && Free(x, p, t)
    ensures Free(x, p, ExecAll(js, t).tree)
  {
    hide Exec, Partial, InTables, Apart, Free;
    if js != [] {
      var t' := Exec(js[0], t).tree;
      CompletedIsPartial(false, js[0], t);
      EffectOf(false, js[0], t, t');
      SourcesStayFiles(js, js[0], t, t');
      ApartStaysFree(js[0], x, p, t, t');
      RunStaysFree(js[1..], x, p, t');
    }
  }

  /** The jobs after shared/report/<x>.md/ have nothing to do with x. */
  lemma TailApart(l: Lists, i: nat, x: Name, k: Job)
    requires i < |l.ds| && Ascending(l.ds) && l.ds[i] == x + ".md" && k in Tail(l, i)
    ensures Apart(k, x)
  {
    InForEach(ReportJobs, l.ds[i + 1..], k);
    if k in ForEach(ReportJobs, l.ds[i + 1..]) {
      var e :| e in l.ds[i + 1..] && k in ReportJobs(e);
      var a :| 0 <= a < |l.ds[i + 1..]| && l.ds[i + 1..][a] == e;
      LessAsymmetric(l.ds[i], l.ds[i + 1 + a]);
      PrefixIsLess(x, ".md");
      LessTransitive(x, x + ".md", e);
      LessAsymmetric(x, e);
      ReportRowPlaces(e, k, x);
    }
  }

  lemma AfterSlotApart(l: Lists, i: nat, x: Name, k: Job)
    requires i < |l.ds| && Ascending(l.ds) && l.ds[i] == x + ".md"
    requires Slot(l, i) < |JobsOf(l)| && k in JobsOf(l)[Slot(l, i) + 1..]
    ensures Apart(k, x)
  {
    JobsSplit(l, i);
    hide JobsOf, Head, Tail, Apart;
    assert JobsOf(l)[Slot(l, i) + 1..] == Tail(l, i);
    TailApart(l, i, x, k);
  }

  lemma RemovalFrees(x: Name, p: Path, t: Tree)
    requires WellFormed(t) && p in {RoleReport(x), Own(x), Old(x)} && p in t && IsDir(t, Flat(x))
    ensures Free(x, p, Remove(t, Flat(x)))
  {
    NamesDiffer(x);
    assert Flat(x)[..2] == REPORTS;
    Ancestor(t, REPORTS, Flat(x));
  }

  /** The rmdir that unblocks a skipped move stands at the slot of <x>.md, for a report of x. */
  lemma BlockedReport(l: Lists, n: nat, t: Tree, j: Job) returns (x: Name, i: nat)
    requires Mid(l, n, t) && n < |JobsOf(l)| && j in JobsOf(l)[..n] && Unblocks(j, JobsOf(l)[n], t)
    ensures i < |l.ds| && l.ds[i] == x + ".md" && n == Slot(l, i)
    ensures AboutReport(j, x) && (j.from == RoleReport(x) ==> l.gated)
    ensures IsDir(t, Flat(x)) && j.from in t && Exec(JobsOf(l)[n], t).tree == Remove(t, Flat(x)) && WellFormed(t)
  {
    i := UnblocksAtSlot(l, n, t, j);
    SlotHolds(l, i, n);
    JobPlaces(l, j, "");
    x :| AboutReport(j, x) && (j.from == RoleReport(x) ==> l.gated);
    var k := JobsOf(l)[n];
    assert Flat(x) == ReportDir(l.ds[i]) && Flat(x)[2] == l.ds[i];
    hide *;
    RmdirRemoves(k, j, x, t);
  }

  lemma RmdirRemoves(k: Job, j: Job, x: Name, t: Tree)
    requires k == Rmdir(Flat(x), Flat(x)) && Unblocks(j, k, t)
    ensures IsDir(t, Flat(x)) && j.from in t && Exec(k, t).tree == Remove(t, Flat(x))
  {
  }

  /** It leaves that report free to be moved. */
  lemma UnblockedIsFree(l: Lists, n: nat, t: Tree, j: Job) returns (x: Name)
    requires Mid(l, n, t) && n < |JobsOf(l)| && j in JobsOf(l)[..n] && Unblocks(j, JobsOf(l)[n], t)
    ensures AboutReport(j, x) && (j.from == RoleReport(x) ==> l.gated)
    ensures Free(x, j.from, Exec(JobsOf(l)[n], t).tree)
    ensures forall k | k in JobsOf(l)[n + 1..] :: Apart(k, x)
  {
    hide JobsOf, Apart, Free, Slot, Ready, Exec;
    var i;
    x, i := BlockedReport(l, n, t, j);
    RemovalFrees(x, j.from, t);
    forall k | k in JobsOf(l)[n + 1..] ensures Apart(k, x) { AfterSlotApart(l, i, x, k); }
  }

  /** A pass with a clash ends with a report that was skipped and is now free to be moved. */
  lemma {:induction false} ClashEndsFree(l: Lists, n: nat, t: Tree) returns (x: Name, p: Path)
    requires Mid(l, n, t) && ExecAll(JobsOf(l)[n..], t).error.None? && !NoneLeft(l, n, t)
    ensures Free(x, p, ExecAll(JobsOf(l)[n..], t).tree) && (p == RoleReport(x) ==> l.gated)
    decreases |JobsOf(l)| - n
  {
    hide Exec, Partial, Unblocks, ClashAt, Slot, JobsOf, NoneLeft, Free, Apart, InTables;
    var js := JobsOf(l);
    if n == |js| { NoneLeftAtEnd(l, t); }
    var k, t' := js[n], Exec(js[n], t).tree;
    assert js[n..][0] == k && js[n..][1..] == js[n + 1..];
    if UnblocksNone(js[..n], k, t) {
      MidStep(l, n, t);
      NoneLeftStep(l, n, t);
      x, p := ClashEndsFree(l, n + 1, t');
    } else {
      var j :| j in js[..n] && Unblocks(j, k, t);
      x := UnblockedIsFree(l, n, t, j);
      p := j.from;
      CompletedIsPartial(false, k, t);
      EffectOf(false, k, t, t');
      SourcesStayFiles(js[n..], k, t, t');
      RunStaysFree(js[n + 1..], x, p, t');
    }
  }

  /* ---- the second pass ---- */

  function ReportJob(x: Name, p: Path): Job { Move(Parent(p), p, Flat(x)) }

  lemma FreeJobMoves(x: Name, p: Path, t: Tree)
    requires WellFormed(t) && Free(x, p, t) && t[p].File? && WellShaped(ReportJob(x, p))
    ensures var o := Exec(ReportJob(x, p), t); o.report.Changed() && o.error.None? && IsFile(o.tree, Flat(x))
  {
    FreeHasNoTarget(x, p, t);
    Ancestor(t, Parent(p), p);
    RelocateWorks(t, p, Flat(x));
    assert Flat(x) + p[|p|..] == Flat(x);
  }

  lemma FlatIsOnlyATarget(k: Job, x: Name)
    requires InTables(k) && (k.Move? || k.Hoist? || k.MoveDir?) && WellShaped(k)
    ensures !(Flat(x) < k.to) && Flat(x) != Legacy(k.from)
    ensures k.MoveDir? ==> !(k.to <= Flat(x))
    ensures k.Hoist? ==> Flat(x) != k.to
  {
    PlaceKinds(x);
    JobPaths(k);
    ParkedKind(k.from[|k.from| - 1]);
    if k.Hoist? { HoistPaths(k); TargetBelowShared(k); }
    SubdirectoryKinds();
    hide KindOf;
  }

  lemma TargetBelowShared(k: Job)
    requires InTables(k) && k.Hoist?
    ensures |k.to| == 2
  {
  }

  /** Putting something where nothing was is reported. */
  lemma ArrivalIsReported(k: Job, t: Tree, x: Name)
    requires WellShaped(k) && Runs(k, t, Exec(k, t).tree) && Flat(x) !in t && Flat(x) in Exec(k, t).tree
    ensures IsFile(Exec(k, t).tree, Flat(x)) && Exec(k, t).report.Changed()
  {
    CreatedAt(k, t, Exec(k, t).tree, Flat(x));
    FlatIsOnlyATarget(k, x);
    hide KindOf, InTables, WellFormed;
  }

  /** Until its own move runs, a free report stays free, or its place is taken by another. */
  lemma OtherJobStaysFree(l: Lists, k: Job, x: Name, p: Path, t: Tree)
    requires k in JobsOf(l) && WellShaped(k) && Runs(k, t, Exec(k, t).tree) && Free(x, p, t) && k != ReportJob(x, p)
    ensures Free(x, p, Exec(k, t).tree) || Flat(x) in Exec(k, t).tree
  {
    var t' := Exec(k, t).tree;
    JobPlaces(l, k, x);
    NamesDiffer(x);
    hide JobsOf, KindOf, Partial, InTables, Exec;
    if Apart(k, x) {
      ApartStaysFree(k, x, p, t, t');
    } else {
      EffectOf(false, k, t, t');
      assert !MayRemove(k, p, t[p]) by { OwnPlacesOnly(k, x, p, t[p]); }
      NamedDirStays(k, t, t', REPORTS);
    }
  }

  lemma OwnPlacesOnly(k: Job, x: Name, p: Path, node: Node)
    requires p in {RoleReport(x), Own(x), Old(x)} && k != ReportJob(x, p)
    requires AboutReport(k, x) || (k.Rmdir? && k.path in {ReportDir(x), Flat(x)})
    ensures !MayRemove(k, p, node)
  {
    NamesDiffer(x);
    if k.Move? && k.from <= p { SamePlace(x, k.from, p); }
  }

  lemma SamePlace(x: Name, p: Path, q: Path)
    requires p in {RoleReport(x), Own(x), Old(x)} && q in {RoleReport(x), Own(x), Old(x)} && p <= q
    ensures p == q
  {
    assert p[0] == q[0];
  }

  /** A pass over a tree with a free report either fails or puts a file at its
      place, and reports a change. */
  lemma {:induction false} FreeIsMoved(l: Lists, js: seq<Job>, x: Name, p: Path, t: Tree)
    requires AllShaped(js) && AllInTables(js) && FileSources(js, t) && WellFormed(t) && forall k | k in js :: k in JobsOf(l)
    requires Free(x, p, t) && ReportJob(x, p) in js && ExecAll(js, t).error.None?
    ensures ExecAll(js, t).report.Changed() && Flat(x) in ExecAll(js, t).tree
  {
    hide Exec, Partial, InTables, JobsOf, Free, KindOf;
    var k, t' := js[0], Exec(js[0], t).tree;
    CompletedIsPartial(false, k, t);
    EffectOf(false, k, t, t');
    SourcesStayFiles(js, k, t, t');
    if Flat(x) in t' || k == ReportJob(x, p) {
      assert Flat(x) !in t by { FreeHasNoFlat(x, p, t); }
      if k == ReportJob(x, p) { FreeFile(js, x, p, t); FreeJobMoves(x, p, t); } else { ArrivalIsReported(k, t, x); }
      CompletedIsCut(true, js[1..], t');
      NothingLostNothingOverwritten(js[1..], t', ExecAll(js[1..], t').tree);
      PlaceKinds(x);
    } else {
      OtherJobStaysFree(l, k, x, p, t);
      FreeIsMoved(l, js[1..], x, p, t');
    }
  }

  lemma FreeHasNoFlat(x: Name, p: Path, t: Tree)
    requires Free(x, p, t)
    ensures Flat(x) !in t && p in t
  {
  }

  lemma FreeFile(js: seq<Job>, x: Name, p: Path, t: Tree)
    requires FileSources(js, t) && ReportJob(x, p) in js && Free(x, p, t)
    ensures t[p].File?
  {
  }

  /** The next pass lists the free report's directory and has its job. */
  lemma FreeIsListed(t: Tree, x: Name, p: Path)
    requires WellFormed(t) && Free(x, p, t) && (p == RoleReport(x) ==> NeedsMigration(t))
    ensures ReportJob(x, p) in PassJobs(t)
  {
    hide GatedJobs, ForEach, NeedsMigration, RoleNames, ReportNames, Lstat;
    NamesAreDirs(t, x);
    Ancestor(t, Parent(p), p);
    if p == RoleReport(x) {
      assert Parent(p) == RoleDir(x);
      RoleReportJob(ListsOf(t), x);
    } else {
      assert Parent(p) == ReportDir(x) && ReportJob(x, p) in ReportJobs(x);
      InForEach(ReportJobs, ReportNames(t), ReportJob(x, p));
    }
  }

  lemma FreeGate(t: Tree, x: Name, p: Path)
    requires WellFormed(t) && Free(x, p, t)
    ensures p == RoleReport(x) ==> NeedsMigration(t)
  {
    if p == RoleReport(x) {
      Ancestor(t, ROLES, p);
      assert INDICATORS[0] in t;
    }
  }

  /** A pass with a clash leaves a report free to be moved. */
  lemma ClashLeavesFree(t: Tree) returns (x: Name, p: Path)
    requires Root(t) && V1Layout(t).error.None? && Clash(t)
    ensures Free(x, p, V1Layout(t).tree)
  {
    var l := ListsOf(t);
    PassIsJobs(t);
    PassStarts(t);
    ClashIff(t);
    hide JobsOf, PassJobs, ExecAll, Exec, Drains, Waiting, Ready, Free, InTables, KindOf, NeedsMigration;
    assert JobsOf(l)[..0] == [] && JobsOf(l)[0..] == JobsOf(l);
    NeverUnblocksIff(l, 0, t);
    x, p := ClashEndsFree(l, 0, t);
  }

  /** A pass over a tree with a free report moves it, unless it fails. */
  lemma FreeIsMovedByPass(t: Tree, x: Name, p: Path)
    requires Root(t) && Free(x, p, t) && V1Layout(t).error.None?
    ensures V1Layout(t).report.Changed() && Flat(x) !in t && Flat(x) in V1Layout(t).tree
  {
    FreeGate(t, x, p);
    FreeIsListed(t, x, p);
    PassIsJobs(t);
    PassInTables(t);
    FreeHasNoFlat(x, p, t);
    hide PassJobs, ExecAll, NeedsMigration;
    FreeIsMoved(ListsOf(t), PassJobs(t), x, p, t);
  }

  lemma EndIsRoot(t: Tree)
    requires Root(t)
    ensures StoppedAt(false, t, V1Layout(t).tree) && Root(V1Layout(t).tree)
  {
    PassInTables(t);
    CompletedIsCut(false, PassJobs(t), t);
    hide Root, PassJobs, Cut, ExecAll;
    StoppedIsRoot(t, V1Layout(t).tree);
  }

  /** Idempotence, exactly: after a pass without errors, a second pass changes
      nothing and reports nothing changed if and only if no name clashes. */
  lemma IdempotentIff(t: Tree)
    requires Root(t) && V1Layout(t).error.None?
    ensures var t1 := V1Layout(t).tree;
      !Clash(t) <==> V1Layout(t1).tree == t1 && V1Layout(t1).error.None? && !V1Layout(t1).report.Changed()
  {
    hide V1Layout, Clash, Root;
    ClashIff(t);
    if Clash(t) {
      var x, p := ClashLeavesFree(t);
      EndIsRoot(t);
      if V1Layout(V1Layout(t).tree).error.None? { FreeIsMovedByPass(V1Layout(t).tree, x, p); }
    } else {
      SecondPassIsNoOp(t);
    }
  }

  /** A fresh pass from t' ends where an uninterrupted pass from t ends. */
  ghost predicate Recovers(t: Tree, t': Tree) {
    OnlyStrayDirs(V1Layout(t').tree, V1Layout(t).tree) && V1Layout(t').error == V1Layout(t).error
  }

  /** Crash and re-run, exactly: wherever a pass that would succeed is stopped, a
      fresh pass recovers - if and only if no name clashes. */
  lemma ConvergesIff(t: Tree)
    requires Root(t) && V1Layout(t).error.None?
    ensures !Clash(t) <==> forall t' | StoppedAt(false, t, t') :: Recovers(t, t')
  {
    hide V1Layout, Clash, Root, StoppedAt, PassJobs;
    ClashIff(t);
    if Clash(t) {
      var t1 := V1Layout(t).tree;
      var x, p := ClashLeavesFree(t);
      EndIsRoot(t);
      if V1Layout(t1).error.None? { FreeIsMovedByPass(t1, x, p); }
      assert |Flat(x)| == 3 && StoppedAt(false, t, t1);
    } else {
      forall t' | StoppedAt(false, t, t') ensures Recovers(t, t') { CrashConverges(t, t'); }
    }
  }

  /** Stopping never introduces a clash. */
  lemma StoppingKeepsClashFree(t: Tree, t': Tree)
    requires Root(t) && V1Layout(t).error.None? && !Clash(t) && StoppedAt(false, t, t')
    ensures Root(t') && V1Layout(t').error.None? && !Clash(t') && Recovers(t, t')
  {
    hide V1Layout, Clash, Root, StoppedAt;
    StoppedIsRoot(t, t');
    ConvergesIff(t);
    assert Recovers(t, t');
    if Clash(t') {
      var x, p := ClashLeavesFree(t');
      var t1 := V1Layout(t).tree;
      EndIsRoot(t);
      EndIsRoot(t');
      IdempotentIff(t);
      FreeAmongStrays(x, p, V1Layout(t').tree, t1);
      FreeIsMovedByPass(t1, x, p);
      assert false;
    }
  }

  lemma FreeAmongStrays(x: Name, p: Path, a: Tree, b: Tree)
    requires OnlyStrayDirs(a, b) && Free(x, p, a)
    ensures Free(x, p, b)
  {
    assert !IsActionDir(p) && !IsActionDir(REPORTS);
  }

  /** The passes ts[0], ts[1], ... were each stopped somewhere, and the next one started there. */
  ghost predicate StoppedRepeatedly(ts: seq<Tree>) {
    forall i | 0 <= i < |ts| - 1 :: StoppedAt(false, ts[i], ts[i + 1])
  }

  /** However often a pass is stopped and started afresh, the one that completes
      ends where a single uninterrupted pass would have ended. */
  lemma {:induction false} RepeatedCrashesConverge(ts: seq<Tree>)
    requires ts != [] && StoppedRepeatedly(ts)
    requires Root(ts[0]) && V1Layout(ts[0]).error.None? && !Clash(ts[0])
    ensures Recovers(ts[0], ts[|ts| - 1])
  {
    hide V1Layout, Clash, Root, StoppedAt;
    if |ts| == 1 {
      assert OnlyStrayDirs(V1Layout(ts[0]).tree, V1Layout(ts[0]).tree);
    } else {
      assert StoppedAt(false, ts[0], ts[1]);
      StoppingKeepsClashFree(ts[0], ts[1]);
      assert StoppedRepeatedly(ts[1..]) by {
        forall i | 0 <= i < |ts[1..]| - 1 ensures StoppedAt(false, ts[1..][i], ts[1..][i + 1]) {
          assert ts[1..][i] == ts[i + 1] && ts[1..][i + 1] == ts[i + 2];
          assert StoppedAt(false, ts[i + 1], ts[i + 1 + 1]);
        }
      }
      RepeatedCrashesConverge(ts[1..]);
      StrayDirsCompose(V1Layout(ts[|ts| - 1]).tree, V1Layout(ts[1]).tree, V1Layout(ts[0]).tree);
    }
  }
}
