/** The smallest tree on which V1Layout is not idempotent. */
module MigrationExample {
  import opened Common
  import opened FileTree
  import opened SortedNames
  import opened MigrationJobs
  import opened MigrationReplay
  import opened MigrationTheorems
  import opened MigrationPass
  import opened MigrationClash
  import opened MigrationRepeat

  // A report at shared/report/a/a.md, and an empty directory shared/report/a.md/.
  const CLASHING: Tree :=
    map[[] := Dir, ["shared"] := Dir, REPORTS := Dir, ReportDir("a") := Dir, Own("a") := File([]), ReportDir("a.md") := Dir]

  // The same without the empty directory.
  const UNBLOCKED: Tree :=
    map[[] := Dir, ["shared"] := Dir, REPORTS := Dir, ReportDir("a") := Dir, Own("a") := File([])]

  lemma SortPair(a: Name, b: Name)
    requires Less(a, b)
    ensures Sort({a, b}) == [a, b]
  {
    LessAsymmetric(a, b);
    LeastUnique({a, b});
    LeastUnique({b});
    assert IsLeast(a, {a, b}) && IsLeast(b, {b});
    assert {a, b} - {a} == {b} && {b} - {b} == {};
    assert Sort({b}) == [b] + Sort({});
  }

  lemma ExampleListing()
    ensures ReportNames(CLASHING) == ["a", "a.md"]
  {
    var names := DirsBelow(CLASHING, REPORTS);
    forall n ensures n in names <==> n in {"a", "a.md"} {
      NamesAreDirs(CLASHING, n);
      assert ReportDir(n)[2] == n;
      assert n in names <==> n in ReportNames(CLASHING);
    }
    PrefixIsLess("a", ".md");
    assert "a" + ".md" == "a.md";
    SortPair("a", "a.md");
    assert names == {"a", "a.md"};
  }

  lemma ExampleGate()
    ensures !NeedsMigration(CLASHING)
  {
    assert forall p | p in CLASHING :: p == [] || p[0] == "shared";
  }

  lemma ExampleIsTree()
    ensures WellFormed(CLASHING)
  {
    forall p, k | p in CLASHING && 0 <= k < |p| ensures IsDir(CLASHING, p[..k]) {
      assert k >= 1 ==> p[0] == "shared";
      assert k >= 2 ==> p[1] == "report";
      assert k >= 3 ==> p == Own("a") && p[..3] == ReportDir("a");
      assert k == 0 ==> p[..k] == [];
      assert k == 1 ==> p[..k] == ["shared"];
      assert k == 2 ==> p[..k] == REPORTS;
    }
  }

  /** Nothing but the report is a file, so nothing looked for lies below a file. */
  lemma ExampleStat(t: Tree, p: Path)
    requires t in {CLASHING, UNBLOCKED} && p !in t && |p| in {3, 4} && p != Own("a")
    ensures Lstat(t, p) == NotExist
  {
    forall k | 0 <= k < |p| ensures !IsFile(t, p[..k]) { assert |p[..k]| == k; }
  }

  lemma {:induction false} IdleAll(js: seq<Job>, t: Tree)
    requires AllShaped(js) && forall j | j in js :: Exec(j, t) == Same(t)
    ensures ExecAll(js, t) == Same(t)
  {
    hide Exec;
    if js != [] {
      assert js[0] in js;
      IdleAll(js[1..], t);
    }
  }

  lemma AbsentIdle(j: Job, t: Tree)
    requires WellShaped(j) && (j.Move? || j.Hoist?) && Lstat(t, j.from) == NotExist
    ensures Exec(j, t) == Same(t)
  {
  }

  lemma MissingReport(d: Name, p: Path)
    requires p in {Own(d), Old(d)} && p !in CLASHING
    ensures !(p <= Flat(d)) && Exec(Move(ReportDir(d), p, Flat(d)), CLASHING) == Same(CLASHING)
  {
    ExampleStat(CLASHING, p);
    AbsentIdle(Move(ReportDir(d), p, Flat(d)), CLASHING);
  }

  /** The report is skipped: a directory is in its place. */
  lemma ExampleSkips()
    ensures !(Own("a") <= Flat("a"))
    ensures Exec(Move(ReportDir("a"), Own("a"), Flat("a")), CLASHING) == Warn(CLASHING, TargetIsDirectory(Own("a"), Flat("a")))
  {
    assert "a" + ".md" == "a.md" && Flat("a") == ReportDir("a.md");
  }

  lemma ExampleStays()
    ensures Exec(Rmdir(ReportDir("a"), ReportDir("a")), CLASHING) == Same(CLASHING)
  {
    assert ReportDir("a") < Own("a") && Own("a") in CLASHING;
  }

  /** Then the directory that blocked it goes. */
  lemma ExampleRemoves()
    ensures Exec(Rmdir(ReportDir("a.md"), ReportDir("a.md")), CLASHING)
         == Outcome(UNBLOCKED, Report([], [ReportDir("a.md")], []), None)
  {
    var p := ReportDir("a.md");
    forall q | q in CLASHING ensures !(p < q) { assert |q| == 4 ==> q[2] == "a"; }
    assert CLASHING - {p} == UNBLOCKED;
  }

  lemma ExampleHoists()
    ensures AllShaped(ActionHoists()) && ExecAll(ActionHoists(), UNBLOCKED) == Same(UNBLOCKED)
  {
    forall j | j in ActionHoists() ensures WellShaped(j) && Exec(j, UNBLOCKED) == Same(UNBLOCKED) {
      assert j.from !in UNBLOCKED by { assert j.from[1] in ["review", "verify", "auto_setup"]; }
      ExampleStat(UNBLOCKED, j.from);
      AbsentIdle(j, UNBLOCKED);
    }
    IdleAll(ActionHoists(), UNBLOCKED);
  }

  predicate IdleOn(j: Job, t: Tree) {
    WellShaped(j) && Exec(j, t).tree == t && Exec(j, t).error.None?
  }

  lemma {:induction false} IdlePrefix(idle: seq<Job>, rest: seq<Job>, t: Tree)
    requires AllShaped(rest) && forall j | j in idle :: IdleOn(j, t)
    ensures AllShaped(idle + rest)
    ensures ExecAll(idle + rest, t).tree == ExecAll(rest, t).tree && ExecAll(idle + rest, t).error == ExecAll(rest, t).error
  {
    hide Exec;
    if idle == [] {
      assert idle + rest == rest;
    } else {
      assert idle[0] in idle && (idle + rest)[1..] == idle[1..] + rest;
      IdlePrefix(idle[1..], rest, t);
    }
  }

  lemma ExampleRemovesLast()
    ensures var js := [Rmdir(ReportDir("a.md"), ReportDir("a.md"))] + ActionHoists();
      AllShaped(js) && ExecAll(js, CLASHING).tree == UNBLOCKED && ExecAll(js, CLASHING).error.None?
  {
    ExampleRemoves();
    ExampleHoists();
    hide Exec, ActionHoists, CLASHING, UNBLOCKED;
    var js := [Rmdir(ReportDir("a.md"), ReportDir("a.md"))] + ActionHoists();
    assert js[1..] == ActionHoists();
  }

  // What flattening does about two directories, job by job.
  lemma PairFlattens(m: Name, n: Name)
    ensures FlattenJobs([m, n])
         == [List(REPORTS), Move(ReportDir(m), Own(m), Flat(m)), Move(ReportDir(m), Old(m), Flat(m)),
             Rmdir(ReportDir(m), ReportDir(m)), Move(ReportDir(n), Own(n), Flat(n)),
             Move(ReportDir(n), Old(n), Flat(n))] + ([Rmdir(ReportDir(n), ReportDir(n))] + ActionHoists())
  {
    ReportRows(m);
    ReportRows(n);
    hide ActionHoists, ReportDir, ReportJobs, Own, Old, Flat;
    assert [m, n][1..] == [n] && [n][1..] == [];
    assert ForEach(ReportJobs, [n]) == ReportJobs(n) + [];
    assert ForEach(ReportJobs, [m, n]) == ReportJobs(m) + ForEach(ReportJobs, [n]);
  }

  lemma ReportRows(d: Name)
    ensures ReportJobs(d) == [Move(ReportDir(d), Own(d), Flat(d)), Move(ReportDir(d), Old(d), Flat(d)),
                              Rmdir(ReportDir(d), ReportDir(d))]
  {
  }

  lemma ExampleIdles(j: Job)
    requires j in [List(REPORTS), Move(ReportDir("a"), Own("a"), Flat("a")), Move(ReportDir("a"), Old("a"), Flat("a")),
                   Rmdir(ReportDir("a"), ReportDir("a")), Move(ReportDir("a.md"), Own("a.md"), Flat("a.md")),
                   Move(ReportDir("a.md"), Old("a.md"), Flat("a.md"))]
    ensures IdleOn(j, CLASHING)
  {
    ExampleSkips();
    MissingReport("a", Old("a"));
    ExampleStays();
    MissingReport("a.md", Own("a.md"));
    MissingReport("a.md", Old("a.md"));
    assert IdleOn(List(REPORTS), CLASHING);
    hide ExecMove, ExecRmdir, Lstat, CLASHING;
  }

  lemma ExampleRun()
    ensures AllShaped(FlattenJobs(["a", "a.md"]))
    ensures ExecAll(FlattenJobs(["a", "a.md"]), CLASHING).error.None?
    ensures ExecAll(FlattenJobs(["a", "a.md"]), CLASHING).tree == UNBLOCKED
  {
    hide *;
    PairFlattens("a", "a.md");
    ExampleRemovesLast();
    var idle := [List(REPORTS), Move(ReportDir("a"), Own("a"), Flat("a")), Move(ReportDir("a"), Old("a"), Flat("a")),
      Rmdir(ReportDir("a"), ReportDir("a")), Move(ReportDir("a.md"), Own("a.md"), Flat("a.md")),
      Move(ReportDir("a.md"), Old("a.md"), Flat("a.md"))];
    var rest := [Rmdir(ReportDir("a.md"), ReportDir("a.md"))] + ActionHoists();
    forall j | j in idle ensures IdleOn(j, CLASHING) { ExampleIdles(j); }
    IdlePrefix(idle, rest, CLASHING);
  }

  /** The law fails here: a pass over this tree succeeds, and the next one still
      changes something. */
  lemma SecondPassMoves()
    ensures Root(CLASHING) && V1Layout(CLASHING).error.None? && Clash(CLASHING)
    ensures var t1 := V1Layout(CLASHING).tree;
      !(V1Layout(t1).tree == t1 && V1Layout(t1).error.None? && !V1Layout(t1).report.Changed())
  {
    ExampleIsTree();
    ExampleGate();
    ExampleListing();
    ExampleRun();
    hide Exec, ExecAll, NeedsMigration;
    assert PassJobs(CLASHING) == FlattenJobs(["a", "a.md"]);
    forall j | j in PassJobs(CLASHING) ensures FileSource(j, CLASHING) { }
    assert ClashAt(false, CLASHING, "a") by {
      assert "a" + ".md" == "a.md";
      forall q | q in CLASHING ensures !(ReportDir("a.md") < q) { assert |q| == 4 ==> q[2] == "a"; }
    }
    IdempotentIff(CLASHING);
  }
}
