/** The order the tables put their jobs in. */
module MigrationOrder {
  import opened FileTree
  import opened SortedNames
  import opened MigrationJobs
  import opened MigrationTables
  import opened MigrationReplay
  import opened MigrationTheorems

  predicate AllInOrder(a: seq<Job>, b: seq<Job>) {
    forall j, j' | j in a && j' in b :: InOrder(j, j')
  }

  lemma OrderedConcat(a: seq<Job>, b: seq<Job>)
    requires Ordered(a) && Ordered(b) && AllInOrder(a, b)
    ensures Ordered(a + b)
  {
    var c := a + b;
    forall i, k | 0 <= i < k < |c| ensures InOrder(c[i], c[k]) {
      if k < |a| {
        assert c[i] == a[i] && c[k] == a[k];
      } else if i >= |a| {
        assert c[i] == b[i - |a|] && c[k] == b[k - |a|];
      } else {
        assert c[i] in a && c[k] in b;
      }
    }
  }

  predicate NoRmdirs(js: seq<Job>) {
    forall j | j in js :: !j.Rmdir?
  }

  /** Neither an rmdir nor a hoist. */
  predicate Plain(js: seq<Job>) {
    forall j | j in js :: !j.Rmdir? && !j.Hoist?
  }

  lemma ForEachPlain(f: Name -> seq<Job>, names: seq<Name>)
    requires forall n :: Plain(f(n))
    ensures Plain(ForEach(f, names))
  {
    forall j | j in ForEach(f, names) ensures !j.Rmdir? && !j.Hoist? { InForEach(f, names, j); }
  }

  function RoleRmdirs(rs: seq<Name>): seq<Job> { ForEach(RoleRmdir, rs) + FinalRmdirs() }

  lemma RoleRmdirsOnly(rs: seq<Name>, j: Job)
    requires j in RoleRmdirs(rs)
    ensures j.Rmdir? && j.path != [] && (j.path[0] == "roles" || j.path[0] == "supervisor")
    ensures j in ForEach(RoleRmdir, rs) ==> |j.path| == 2
  {
    InForEach(RoleRmdir, rs, j);
  }

  lemma RoleRmdirsOrdered(rs: seq<Name>)
    ensures Ordered(RoleRmdirs(rs))
  {
    var a, b := ForEach(RoleRmdir, rs), FinalRmdirs();
    forall j | j in RoleRmdirs(rs) ensures j.Rmdir? { RoleRmdirsOnly(rs, j); }
    forall j, j' | j in a && j' in a + b ensures InOrder(j, j') {
      RoleRmdirsOnly(rs, j);
      RoleRmdirsOnly(rs, j');
    }
    OrderedConcat(a, b);
  }

  lemma FlattenBelowShared(ds: seq<Name>, j: Job)
    requires j in FlattenJobs(ds)
    ensures match j
      case Move(_, from, _) => from != [] && from[0] == "shared"
      case Hoist(from, _, dir) => from != [] && from[0] == "shared" && dir != [] && dir[0] == "shared"
      case Rmdir(_, path) => path != [] && path[0] == "shared"
      case List(_) => true
      case _ => false
  {
    InForEach(ReportJobs, ds, j);
  }

  lemma {:induction false} ReportsOrdered(ds: seq<Name>)
    requires Ascending(ds)
    ensures Ordered(ForEach(ReportJobs, ds))
  {
    if ds != [] {
      ReportsOrdered(ds[1..]);
      forall j, j' | j in ReportJobs(ds[0]) && j' in ForEach(ReportJobs, ds[1..]) ensures InOrder(j, j') {
        InForEach(ReportJobs, ds[1..], j');
        var d :| d in ds[1..] && j' in ReportJobs(d);
        var i :| 0 <= i < |ds[1..]| && ds[1..][i] == d;
        LessAsymmetric(ds[0], ds[i + 1]);
        OtherReport(ds[0], d, j, j');
      }
      OrderedConcat(ReportJobs(ds[0]), ForEach(ReportJobs, ds[1..]));
    }
  }

  lemma OtherReport(d: Name, d': Name, j: Job, j': Job)
    requires d != d' && j in ReportJobs(d) && j' in ReportJobs(d')
    ensures InOrder(j, j')
  {
    if j.Rmdir? {
      assert j.path[2] == d;
      if j'.Move? { assert j'.from[2] == d'; }
    }
  }

  lemma ReportsBeforeHoists(ds: seq<Name>)
    ensures AllInOrder(ForEach(ReportJobs, ds), ActionHoists())
  {
    forall j, j' | j in ForEach(ReportJobs, ds) && j' in ActionHoists() ensures InOrder(j, j') {
      InForEach(ReportJobs, ds, j);
      if j.Rmdir? {
        assert j.path[1] == "report" && j'.from[1] != "report";
      }
    }
  }

  lemma FlattenOrdered(ds: seq<Name>)
    requires Ascending(ds)
    ensures Ordered(FlattenJobs(ds))
  {
    ReportsOrdered(ds);
    ReportsBeforeHoists(ds);
    OrderedConcat([List(REPORTS)], ForEach(ReportJobs, ds));
    assert NoRmdirs(ActionHoists());
    OrderedConcat([List(REPORTS)] + ForEach(ReportJobs, ds), ActionHoists());
  }

  /** Everything before the role directories are removed. */
  function Opening(rs: seq<Name>): seq<Job> {
    StaticMoves() + StaticDirMoves() + [List(ROLES)] + ForEach(RoleMoves, rs) + ForEach(RoleJunk, rs) + SupervisorJunk()
  }

  lemma TablesPlain()
    ensures Plain(BasePrompts())
    ensures Plain(SupervisorArtifacts())
  {
  }

  lemma StaticMovesPlain()
    ensures Plain(StaticMoves())
  {
    TablesPlain();
    hide BasePrompts, SupervisorArtifacts;
    ForEachPlain(SupervisorPrompts, SUPERVISOR_STEMS);
  }

  lemma OpeningPlain(rs: seq<Name>)
    ensures Plain(Opening(rs))
  {
    StaticMovesPlain();
    ForEachPlain(RoleMoves, rs);
    ForEachPlain(RoleJunk, rs);
    assert Plain(SupervisorJunk()) && Plain(StaticDirMoves());
    hide StaticMoves, StaticDirMoves, SupervisorJunk, ForEach;
  }

  lemma GatedSplit(rs: seq<Name>)
    ensures GatedJobs(rs) == Opening(rs) + RoleRmdirs(rs)
  {
  }

  lemma PassOrdered(rs: seq<Name>, ds: seq<Name>)
    requires Ascending(ds)
    ensures Ordered(GatedJobs(rs) + FlattenJobs(ds))
  {
    OpeningPlain(rs);
    GatedSplit(rs);
    hide Opening, RoleRmdirs, FlattenJobs, GatedJobs;
    RoleRmdirsOrdered(rs);
    FlattenOrdered(ds);
    OrderedConcat(Opening(rs), RoleRmdirs(rs));
    forall j, j' | j in GatedJobs(rs) && j' in FlattenJobs(ds) ensures InOrder(j, j') {
      if j.Rmdir? {
        RoleRmdirsOnly(rs, j);
        FlattenBelowShared(ds, j');
      }
    }
    OrderedConcat(GatedJobs(rs), FlattenJobs(ds));
  }

  predicate NoHoists(js: seq<Job>) {
    forall j | j in js :: !j.Hoist?
  }

  lemma HoistsComeLast(a: seq<Job>)
    requires NoHoists(a)
    ensures HoistsLast(a + ActionHoists())
  {
    var c := a + ActionHoists();
    assert forall i | 0 <= i < |a| :: c[i] == a[i];
    assert forall i | |a| <= i < |c| :: c[i] == ActionHoists()[i - |a|];
    assert ActionHoists()[0].dir[1] == "review" && ActionHoists()[1].dir[1] == "verify" && ActionHoists()[2].dir[1] == "auto_setup";
  }

  lemma PassHoistsLast(rs: seq<Name>, ds: seq<Name>)
    ensures HoistsLast(FlattenJobs(ds)) && HoistsLast(GatedJobs(rs) + FlattenJobs(ds))
  {
    OpeningPlain(rs);
    GatedSplit(rs);
    forall j | j in RoleRmdirs(rs) ensures j.Rmdir? { RoleRmdirsOnly(rs, j); }
    forall j | j in ForEach(ReportJobs, ds) ensures !j.Hoist? { InForEach(ReportJobs, ds, j); }
    hide Opening, RoleRmdirs, GatedJobs, ForEach;
    var f := [List(REPORTS)] + ForEach(ReportJobs, ds);
    HoistsComeLast(f);
    HoistsComeLast(GatedJobs(rs) + f);
    assert (GatedJobs(rs) + f) + ActionHoists() == GatedJobs(rs) + FlattenJobs(ds);
  }
}
