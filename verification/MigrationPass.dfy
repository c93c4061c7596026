/** V1Layout: what interrupting, repeating and gating a whole pass comes to. */
module MigrationPass {
  import opened Common
  import opened FileTree
  import opened SortedNames
  import opened MigrationJobs
  import opened MigrationEffects
  import opened MigrationTables
  import opened MigrationReplay
  import opened MigrationConvergence
  import opened MigrationTheorems
  import opened MigrationOrder

  lemma PassInTables(t: Tree)
    ensures AllInTables(PassJobs(t)) && AllShaped(PassJobs(t))
  {
    GatedInTables(RoleNames(t));
    FlattenInTables(ReportNames(t));
    AllAreShaped(PassJobs(t));
  }

  /** One uninterrupted pass. */
  function V1Layout(t: Tree): Outcome {
    PassInTables(t);
    ExecAll(PassJobs(t), t)
  }

  /** A tree at which a pass may be stopped. */
  ghost predicate StoppedAt(crossDevice: bool, t: Tree, t': Tree) {
    PassInTables(t);
    Cut(crossDevice, PassJobs(t), t, t')
  }

  /** A migration root: a tree whose migration sources are regular files. */
  ghost predicate Root(t: Tree) {
    WellFormed(t) && FileSources(PassJobs(t), t)
  }

  /* ---- names no listing finds ---- */

  predicate GuardedBy(j: Job, g: Path) {
    (j.Move? || j.Purge? || j.Drop? || j.Rmdir?) && j.guard == g
  }

  /** The two job lists come to the same. */
  ghost predicate SameRun(a: seq<Job>, b: seq<Job>, t: Tree) {
    && AllShaped(a) && AllShaped(b)
    && ExecAll(a, t).tree == ExecAll(b, t).tree && ExecAll(a, t).error == ExecAll(b, t).error
  }

  lemma SameRunConcat(a: seq<Job>, a': seq<Job>, b: seq<Job>, b': seq<Job>, t: Tree)
    requires SameRun(a, a', t)
    requires AllShaped(b) && AllShaped(b')
    requires ExecAll(a, t).error.None? ==> SameRun(b, b', ExecAll(a, t).tree)
    ensures SameRun(a + b, a' + b', t)
  {
    ExecAllConcat(a, b, t);
    ExecAllConcat(a', b', t);
  }

  lemma {:induction false} AbsentJobsIdle(js: seq<Job>, g: Path, t: Tree)
    requires AllShaped(js) && !IsDir(t, g)
    requires forall j | j in js :: GuardedBy(j, g)
    ensures ExecAll(js, t).tree == t && ExecAll(js, t).error.None?
  {
    if js != [] {
      assert js[0] in js;
      AbsentJobsIdle(js[1..], g, t);
    }
  }

  /** What stays true while jobs of a fixed list run. */
  ghost predicate Stable(all: seq<Job>, names: seq<Name>, keep: set<Name>, dir: Name -> Path, t: Tree) {
    && WellFormed(t) && FileSources(all, t)
    && forall n | n in names && n !in keep :: IsListed(dir(n)) && !IsDir(t, dir(n))
  }

  lemma {:induction false} RunStable(js: seq<Job>, all: seq<Job>, names: seq<Name>, keep: set<Name>, dir: Name -> Path, t: Tree)
    requires AllShaped(all) && AllInTables(all) && (forall j | j in js :: j in all)
    requires Stable(all, names, keep, dir, t)
    ensures AllShaped(js)
    ensures Stable(all, names, keep, dir, ExecAll(js, t).tree)
  {
    hide Exec, Partial, InTables, KindOf;
    if js != [] {
      var t1 := Exec(js[0], t).tree;
      CompletedIsPartial(false, js[0], t);
      EffectOf(false, js[0], t, t1);
      SourcesStayFiles(all, js[0], t, t1);
      forall n | n in names && n !in keep ensures !IsDir(t1, dir(n)) { NotListedStays(js[0], t, t1, dir(n)); }
      RunStable(js[1..], all, names, keep, dir, t1);
    }
  }

  /** Running a row of jobs for names that are not there changes nothing. */
  lemma {:induction false} FilterRun(f: Name -> seq<Job>, dir: Name -> Path, names: seq<Name>, keep: set<Name>,
                                     all: seq<Job>, t: Tree)
    requires AllShaped(all) && AllInTables(all)
    requires forall n, j | n in names && j in f(n) :: j in all && GuardedBy(j, dir(n))
    requires Stable(all, names, keep, dir, t)
    ensures SameRun(ForEach(f, names), ForEach(f, Filter(names, keep)), t)
  {
    hide Exec, Partial, InTables, KindOf;
    forall j | j in ForEach(f, names) ensures WellShaped(j) { InForEach(f, names, j); }
    forall j | j in ForEach(f, Filter(names, keep)) ensures WellShaped(j) { InForEach(f, Filter(names, keep), j); }
    if names != [] {
      var n, rest := names[0], names[1..];
      assert n in names && forall m | m in rest :: m in names;
      assert forall j | j in f(n) :: j in all;
      RunStable(f(n), all, names, keep, dir, t);
      var t1 := ExecAll(f(n), t).tree;
      FilterRun(f, dir, rest, keep, all, t1);
      if n in keep {
        assert Filter(names, keep) == [n] + Filter(rest, keep);
        assert Filter(names, keep)[1..] == Filter(rest, keep);
        SameRunConcat(f(n), f(n), ForEach(f, rest), ForEach(f, Filter(rest, keep)), t);
      } else {
        AbsentJobsIdle(f(n), dir(n), t);
        assert Filter(names, keep) == Filter(rest, keep);
        ExecAllConcat(f(n), ForEach(f, rest), t);
      }
    }
  }

  lemma PhaseSame(a: seq<Job>, a': seq<Job>, f: Name -> seq<Job>, dir: Name -> Path, names: seq<Name>, keep: set<Name>,
                  all: seq<Job>, t: Tree)
    requires AllShaped(all) && AllInTables(all) && (forall j | j in a :: j in all)
    requires forall n, j | n in names && j in f(n) :: j in all && GuardedBy(j, dir(n))
    requires Stable(all, names, keep, dir, t) && SameRun(a, a', t)
    ensures SameRun(a + ForEach(f, names), a' + ForEach(f, Filter(names, keep)), t)
  {
    hide Exec, ExecAll, ForEach, Filter, Stable, GuardedBy, AllInTables, InTables, AllShaped, WellShaped, IsListed;
    RunStable(a, all, names, keep, dir, t);
    var t1 := ExecAll(a, t).tree;
    FilterRun(f, dir, names, keep, all, t1);
    SameRunConcat(a, a', ForEach(f, names), ForEach(f, Filter(names, keep)), t);
  }

  lemma PlainSame(a: seq<Job>, a': seq<Job>, b: seq<Job>, t: Tree)
    requires SameRun(a, a', t) && AllShaped(b)
    ensures SameRun(a + b, a' + b, t)
  {
    SameRunConcat(a, a', b, b, t);
  }

  predicate RowsOf(f: Name -> seq<Job>, dir: Name -> Path, names: seq<Name>, all: seq<Job>) {
    forall n, j | n in names && j in f(n) :: j in all && GuardedBy(j, dir(n))
  }

  lemma {:induction false} RoleRows(rs: seq<Name>)
    ensures RowsOf(RoleMoves, RoleDir, rs, GatedJobs(rs))
    ensures RowsOf(RoleJunk, RoleDir, rs, GatedJobs(rs))
    ensures RowsOf(RoleRmdir, RoleDir, rs, GatedJobs(rs))
  {
    hide GatedJobs, ForEach, RoleMoves, RoleJunk, RoleRmdir, RoleDir, GuardedBy;
    RolePhases(rs);
    RowsAmong(RoleMoves, rs, GatedJobs(rs));
    RowsAmong(RoleJunk, rs, GatedJobs(rs));
    RowsAmong(RoleRmdir, rs, GatedJobs(rs));
    forall n: Name { RowGuards(n); }
  }

  lemma {:induction false} RolePhases(rs: seq<Name>)
    ensures forall j | j in ForEach(RoleMoves, rs) :: j in GatedJobs(rs)
    ensures forall j | j in ForEach(RoleJunk, rs) :: j in GatedJobs(rs)
    ensures forall j | j in ForEach(RoleRmdir, rs) :: j in GatedJobs(rs)
  {
    hide ForEach, StaticMoves, StaticDirMoves, SupervisorJunk, FinalRmdirs;
  }

  lemma RowGuards(n: Name)
    ensures forall j | j in RoleMoves(n) :: GuardedBy(j, RoleDir(n))
    ensures forall j | j in RoleJunk(n) :: GuardedBy(j, RoleDir(n))
    ensures forall j | j in RoleRmdir(n) :: GuardedBy(j, RoleDir(n))
  {
  }

  lemma {:induction false} RowsAmong(f: Name -> seq<Job>, rs: seq<Name>, all: seq<Job>)
    requires forall j | j in ForEach(f, rs) :: j in all
    ensures forall n, j | n in rs && j in f(n) :: j in all
  {
    forall n, j | n in rs && j in f(n) ensures j in all { InForEach(f, rs, j); }
  }

  lemma GatedSame(rs: seq<Name>, keep: set<Name>, t: Tree)
    requires Stable(GatedJobs(rs), rs, keep, RoleDir, t)
    ensures SameRun(GatedJobs(rs), GatedJobs(Filter(rs, keep)), t)
  {
    hide Exec, ExecAll, InTables, KindOf, StaticMoves, StaticDirMoves, RoleMoves, RoleJunk, RoleRmdir, SupervisorJunk;
    hide FinalRmdirs, ForEach, WellShaped, Stable, GuardedBy;
    var rs', all := Filter(rs, keep), GatedJobs(rs);
    GatedInTables(rs);
    AllAreShaped(all);
    RoleRows(rs);
    var a := StaticMoves() + StaticDirMoves() + [List(ROLES)];
    var b, b' := a + ForEach(RoleMoves, rs), a + ForEach(RoleMoves, rs');
    PhaseSame(a, a, RoleMoves, RoleDir, rs, keep, all, t);
    var c, c' := b + ForEach(RoleJunk, rs), b' + ForEach(RoleJunk, rs');
    PhaseSame(b, b', RoleJunk, RoleDir, rs, keep, all, t);
    PlainSame(c, c', SupervisorJunk(), t);
    var d, d' := c + SupervisorJunk(), c' + SupervisorJunk();
    PhaseSame(d, d', RoleRmdir, RoleDir, rs, keep, all, t);
    PlainSame(d + ForEach(RoleRmdir, rs), d' + ForEach(RoleRmdir, rs'), FinalRmdirs(), t);
  }

  lemma FlattenSame(ds: seq<Name>, keep: set<Name>, t: Tree)
    requires Stable(FlattenJobs(ds), ds, keep, ReportDir, t)
    ensures SameRun(FlattenJobs(ds), FlattenJobs(Filter(ds, keep)), t)
  {
    var all := FlattenJobs(ds);
    FlattenInTables(ds);
    AllAreShaped(all);
    forall n, j | n in ds ensures j in ReportJobs(n) ==> j in all && GuardedBy(j, ReportDir(n)) { InForEach(ReportJobs, ds, j); }
    hide Exec, InTables, KindOf, ReportJobs, ActionHoists, ForEach, WellShaped;
    PhaseSame([List(REPORTS)], [List(REPORTS)], ReportJobs, ReportDir, ds, keep, all, t);
    PlainSame([List(REPORTS)] + ForEach(ReportJobs, ds), [List(REPORTS)] + ForEach(ReportJobs, Filter(ds, keep)), ActionHoists(), t);
  }

  /* ---- what a pass never brings back ---- */

  lemma NamesAreDirs(t: Tree, n: Name)
    ensures n in RoleNames(t) <==> IsDir(t, RoleDir(n))
    ensures n in ReportNames(t) <==> IsDir(t, ReportDir(n))
  {
    assert RoleDir(n)[|ROLES|] == n && ReportDir(n)[|REPORTS|] == n;
    forall q | q in t && |q| == 2 && ROLES <= q && q[1] == n ensures q == RoleDir(n) { }
    forall q | q in t && |q| == 3 && REPORTS <= q && q[2] == n ensures q == ReportDir(n) { }
  }

  lemma DirsAreListed(n: Name)
    ensures IsListed(RoleDir(n)) && IsListed(ReportDir(n))
  {
    DirectoryKinds();
    SubdirectoryKinds();
  }

  /** No entry the gate looks for, and no listed directory, appears during a pass. */
  ghost predicate NothingReturns(t: Tree, t': Tree) {
    && WellFormed(t')
    && (forall i | 0 <= i < |INDICATORS| :: INDICATORS[i] !in t ==> INDICATORS[i] !in t')
    && (forall g | IsListed(g) && !IsDir(t, g) :: !IsDir(t', g))
  }

  lemma IndicatorNotCreated(i: nat, j: Job, t: Tree, t': Tree)
    requires Runs(j, t, t') && i < |INDICATORS| && INDICATORS[i] !in t
    ensures INDICATORS[i] !in t'
  {
    var p := INDICATORS[i];
    if p in t' {
      CreatedKinds(j, t, t', p);
      if i < 2 { NamedDirPrefix(p, p); } else { IndicatorIsSource(i); SourceNotCreated(j, t, t', p); }
    }
  }

  lemma IndicatorIsSource(i: nat)
    requires 2 <= i < |INDICATORS|
    ensures IsSource(INDICATORS[i])
  {
    var p := INDICATORS[i];
    DirectoryKinds();
    SubdirectoryKinds();
    if |p| == 1 { MarkdownName(p[0]); }
    hide KindOf;
  }

  lemma JobNothingReturns(j: Job, t: Tree, t': Tree)
    requires Runs(j, t, t')
    ensures NothingReturns(t, t')
  {
    EffectOf(false, j, t, t');
    forall i | 0 <= i < |INDICATORS| && INDICATORS[i] !in t ensures INDICATORS[i] !in t' { IndicatorNotCreated(i, j, t, t'); }
    forall g | IsListed(g) && !IsDir(t, g) ensures !IsDir(t', g) { NotListedStays(j, t, t', g); }
  }

  lemma {:induction false} CutNothingReturns(js: seq<Job>, all: seq<Job>, t: Tree, t': Tree)
    requires AllShaped(all) && AllInTables(all) && (forall j | j in js :: j in all) && AllShaped(js)
    requires WellFormed(t) && FileSources(all, t) && Cut(false, js, t, t')
    ensures NothingReturns(t, t') && FileSources(all, t')
  {
    hide Exec, Partial, InTables, KindOf, INDICATORS;
    if t' != t {
      assert js[0] in js;
      if Partial(false, js[0], t, t') {
        JobNothingReturns(js[0], t, t');
        SourcesStayFiles(all, js[0], t, t');
      } else {
        var t1 := Exec(js[0], t).tree;
        CompletedIsPartial(false, js[0], t);
        JobNothingReturns(js[0], t, t1);
        SourcesStayFiles(all, js[0], t, t1);
        CutNothingReturns(js[1..], all, t1, t');
      }
    }
  }

  /* ---- the gate ---- */

  /** The path a job is about. */
  function Subject(j: Job): Path {
    match j
    case Move(_, from, _) => from
    case MoveDir(from, _) => from
    case Hoist(from, _, _) => from
    case Purge(_, path) => path
    case Drop(_, path) => path
    case Rmdir(_, path) => path
    case List(path) => path
  }

  lemma AbsentSubjectIdle(j: Job, t: Tree)
    requires WellShaped(j) && Subject(j) !in t
    ensures Exec(j, t).tree == t && !Exec(j, t).report.Changed()
    ensures Lstat(t, Subject(j)) == NotExist ==> Exec(j, t).error.None?
    ensures (j.Move? && j.guard == ROOT && IsDir(t, ROOT) && Lstat(t, j.from) == NotDir) ==> Exec(j, t).error.Some?
  {
  }

  lemma {:induction false} IdleRun(js: seq<Job>, t: Tree)
    requires AllShaped(js) && forall j | j in js :: Exec(j, t).tree == t && !Exec(j, t).report.Changed()
    ensures ExecAll(js, t).tree == t && !ExecAll(js, t).report.Changed()
    ensures ExecAll(js, t).error.None? <==> forall j | j in js :: Exec(j, t).error.None?
  {
    hide Exec;
    if js != [] {
      assert js[0] in js;
      IdleRun(js[1..], t);
      assert forall j :: j in js <==> j == js[0] || j in js[1..];
    }
  }
}
