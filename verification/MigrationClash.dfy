/** When a pass is not idempotent: a directory sits where a report belongs, and
    the same pass empties and removes it after it has skipped the report. */
module MigrationClash {
  import opened Common
  import opened FileTree
  import opened SortedNames
  import opened MigrationJobs
  import opened MigrationEffects
  import opened MigrationTables
  import opened MigrationReplay
  import opened MigrationTheorems
  import opened MigrationOrder
  import opened MigrationPass

  /* ---- the condition, on the tree before the pass ---- */

  function Flat(d: Name): Path { ["shared", "report", d + ".md"] }

  function RoleReport(d: Name): Path { ["roles", d, "report.md"] }

  function Own(d: Name): Path { ["shared", "report", d, d + ".md"] }

  function Old(d: Name): Path { ["shared", "report", d, "report.md"] }

  /** What ends up at shared/report/<d>.md: the first of four places that is taken. */
  function Winner(gated: bool, t: Tree, d: Name): Option<Node> {
    if Flat(d) in t then Some(t[Flat(d)])
    else if gated && RoleReport(d) in t then Some(t[RoleReport(d)])
    else if Own(d) in t then Some(t[Own(d)])
    else if Old(d) in t then Some(t[Old(d)])
    else None
  }

  /** Flattening shared/report/<d>/ leaves it empty. */
  ghost predicate Drains(gated: bool, t: Tree, d: Name) {
    forall q | q in t && ReportDir(d) < q :: q in {Own(d), Old(d)} && Winner(gated, t, d) == Some(t[q])
  }

  /** A report of x waits to be moved to shared/report/<x>.md. */
  predicate Waiting(gated: bool, t: Tree, x: Name) {
    (gated && RoleReport(x) in t) || Own(x) in t || Old(x) in t
  }

  ghost predicate ClashAt(gated: bool, t: Tree, x: Name) {
    IsDir(t, Flat(x)) && Waiting(gated, t, x) && Drains(gated, t, x + ".md")
  }

  ghost predicate Clash(t: Tree) {
    exists x :: ClashAt(NeedsMigration(t), t, x)
  }

  /* ---- the jobs about one name ---- */

  // What the gate and the two listings answered.
  datatype Lists = Lists(gated: bool, rs: seq<Name>, ds: seq<Name>)

  function ListsOf(t: Tree): Lists { Lists(NeedsMigration(t), RoleNames(t), ReportNames(t)) }

  function JobsOf(l: Lists): seq<Job> {
    (if l.gated then GatedJobs(l.rs) else []) + FlattenJobs(l.ds)
  }

  lemma PassIsJobs(t: Tree)
    ensures PassJobs(t) == JobsOf(ListsOf(t))
  {
    assert [] + FlattenJobs(ReportNames(t)) == FlattenJobs(ReportNames(t));
  }

  /** Everything before the jobs of shared/report/<ds[i]>/. */
  function Head(l: Lists, i: nat): seq<Job>
    requires i <= |l.ds|
  {
    (if l.gated then GatedJobs(l.rs) else []) + [List(REPORTS)] + ForEach(ReportJobs, l.ds[..i])
  }

  function Tail(l: Lists, i: nat): seq<Job>
    requires i < |l.ds|
  {
    ForEach(ReportJobs, l.ds[i + 1..]) + ActionHoists()
  }

  lemma JobsSplit(l: Lists, i: nat)
    requires i < |l.ds|
    ensures JobsOf(l) == Head(l, i) + ReportJobs(l.ds[i]) + Tail(l, i)
  {
    hide GatedJobs, ReportJobs, ActionHoists;
    var rest := [l.ds[i]] + l.ds[i + 1..];
    assert l.ds == l.ds[..i] + rest;
    ForEachConcat(ReportJobs, l.ds[..i], rest);
    assert rest[1..] == l.ds[i + 1..];
    hide ForEach;
  }

  /* ---- jobs that have nothing to do with one name ---- */

  /** The job neither moves to nor from d's places, nor removes a directory there. */
  predicate Apart(k: Job, d: Name) {
    && (k.Move? ==> k.to != Flat(d) && !(ReportDir(d) <= k.from) && k.from != RoleReport(d))
    && (k.Rmdir? ==> k.path != ReportDir(d) && k.path != Flat(d))
  }

  predicate Watched(d: Name, q: Path) {
    q == Flat(d) || q == RoleReport(d) || ReportDir(d) <= q
  }

  ghost predicate SameView(d: Name, t: Tree, t': Tree) {
    forall q | Watched(d, q) :: (q in t <==> q in t') && (q in t && q in t' ==> t[q] == t'[q])
  }

  lemma PlaceKinds(d: Name)
    ensures IsTarget(Flat(d)) && IsSource(RoleReport(d)) && IsSource(Own(d)) && IsSource(Old(d))
    ensures KindOf(d + ".md") != Parked
  {
    TemplatedKinds(d);
    DirectoryKinds();
    SubdirectoryKinds();
    MarkdownName("report.md");
    hide KindOf;
  }

  lemma ParkedBelow(s: Path, d: Name)
    requires s != []
    ensures ReportDir(d) < Legacy(s) ==> ReportDir(d) <= s
  {
    var p := Legacy(s);
    if ReportDir(d) < p { assert p[..3] == ReportDir(d) && s[..|s| - 1] == p[..|s| - 1] && s[..3] == p[..3]; }
  }

  lemma NotCreatedThere(k: Job, d: Name, q: Path)
    requires InTables(k) && (k.Move? || k.Hoist? || k.MoveDir?) && WellShaped(k) && Apart(k, d)
    requires q == Flat(d) || ReportDir(d) < q
    ensures !(q < k.to) && !(k.MoveDir? && k.to <= q) && (k.MoveDir? || (q != k.to && q != Legacy(k.from)))
  {
    PlaceKinds(d);
    JobPaths(k);
    if k.Hoist? { HoistPaths(k); }
    ParkedKind(k.from[|k.from| - 1]);
    DirectoryKinds();
    SubdirectoryKinds();
    hide KindOf, InTables;
    if q == Flat(d) { assert q[2] == d + ".md"; } else { PrefixEntries(ReportDir(d), q); }
    ParkedBelow(k.from, d);
  }

  lemma NothingAppears(k: Job, d: Name, t: Tree, t': Tree, q: Path)
    requires Runs(k, t, t') && Apart(k, d) && Watched(d, q) && q !in t && IsDir(t, ReportDir(d))
    ensures q !in t'
  {
    PlaceKinds(d);
    hide KindOf, Partial, Exec, WellFormed, Apart;
    if q == RoleReport(d) {
      SourceNotCreated(k, t, t', q);
    } else if q in t' {
      CreatedAt(k, t, t', q);
      assert q != ReportDir(d);
      NotCreatedThere(k, d, q);
    }
  }

  /** A source at or above one of the name's places is such a place itself. */
  lemma SourceThere(s: Path, d: Name, q: Path)
    requires IsSource(s) && s <= q && (q == RoleReport(d) || ReportDir(d) <= q)
    ensures s == RoleReport(d) || ReportDir(d) <= s
  {
    DirectoryKinds();
    SubdirectoryKinds();
    hide KindOf;
    if ReportDir(d) <= q { PrefixEntries(ReportDir(d), q); }
  }

  lemma NotThere(p: Path, d: Name)
    requires IsDropped(p) || p == ["supervisor", "code"] || (|p| >= 2 && KindOf(p[0]) == Shared && KindOf(p[1]) == Action)
    ensures p != RoleReport(d) && !(ReportDir(d) <= p)
  {
    DirectoryKinds();
    SubdirectoryKinds();
    hide KindOf;
    if ReportDir(d) <= p { PrefixEntries(ReportDir(d), p); }
  }

  lemma NotRemovedThere(k: Job, d: Name, q: Path, node: Node)
    requires InTables(k) && Apart(k, d) && (q == RoleReport(d) || ReportDir(d) <= q)
    ensures !MayRemove(k, q, node)
  {
    match k
    case Move(_, from, _) => if from <= q { SourceThere(from, d, q); }
    case MoveDir(from, _) => CodeDirPaths(); NotThere(from, d); if from <= q { SourceThere(from, d, q); }
    case Purge(_, path) => NotThere(path, d); if path <= q { SourceThere(path, d, q); }
    case Drop(_, path) => NotThere(path, d);
    case Hoist(from, _, dir) =>
      HoistPaths(k);
      NotThere(from, d);
      NotThere(dir, d);
      if from <= q { SourceThere(from, d, q); }
    case Rmdir(_, path) =>
      if path == q {
        DirectoryKinds();
        hide KindOf;
        if ReportDir(d) <= q { PrefixEntries(ReportDir(d), q); }
      }
    case List(_) =>
  }

  lemma NothingVanishes(k: Job, d: Name, t: Tree, t': Tree, q: Path)
    requires Runs(k, t, t') && Apart(k, d) && Watched(d, q) && q in t
    ensures q in t'
  {
    if q == Flat(d) {
      PlaceKinds(d);
      if q !in t' { TargetRemoved(k, t, t', q); }
    } else {
      EffectOf(false, k, t, t');
      NotRemovedThere(k, d, q, t[q]);
    }
  }

  lemma ApartKeepsView(k: Job, d: Name, t: Tree, t': Tree)
    requires Runs(k, t, t') && Apart(k, d) && IsDir(t, ReportDir(d))
    ensures SameView(d, t, t')
  {
    EffectOf(false, k, t, t');
    forall q | Watched(d, q) ensures q in t <==> q in t' {
      if q in t { NothingVanishes(k, d, t, t', q); } else { NothingAppears(k, d, t, t', q); }
    }
  }

  lemma SameViewDrains(gated: bool, d: Name, t: Tree, t': Tree)
    requires SameView(d, t, t')
    ensures Drains(gated, t, d) <==> Drains(gated, t', d)
  {
    assert Watched(d, Own(d)) && Watched(d, Old(d)) && Watched(d, RoleReport(d)) && Watched(d, Flat(d));
    assert Winner(gated, t, d) == Winner(gated, t', d);
    forall q | ReportDir(d) < q ensures q in t <==> q in t' { assert Watched(d, q); }
  }

  /** What a job removes lies at or below a source, or is a directory it may remove. */
  lemma RemovedPrefix(k: Job, q: Path, node: Node)
    requires InTables(k) && MayRemove(k, q, node)
    ensures q != []
    ensures || (exists s :: IsSource(s) && s <= q && PrefixRemoves(k, s))
            || (k.Rmdir? && q == k.path) || (k.Hoist? && q == k.dir)
  {
    if k.Hoist? { HoistPaths(k); }
    if k.MoveDir? { CodeDirPaths(); }
  }

  predicate PrefixRemoves(k: Job, s: Path) {
    match k
    case Move(_, from, _) => s == from
    case MoveDir(from, _) => s == from
    case Hoist(from, _, _) => s == from
    case Purge(_, path) => s == path
    case Drop(_, path) => s == path
    case _ => false
  }

  /* ---- the jobs about the name ---- */

  /** What a file move may come to when the target's directory is there. */
  ghost predicate MoveStep(t: Tree, from: Path, to: Path, t': Tree)
    requires from != []
  {
    || t' == t
    || (from in t && to !in t && t' == (t - {from})[to := t[from]])
    || (from in t && to in t && t[from] == t[to] && t' == t - {from})
    || (from in t && to in t && t[from] != t[to] && Legacy(from) !in t && t' == (t - {from})[Legacy(from) := t[from]])
  }

  lemma MoveCases(t: Tree, from: Path, to: Path)
    requires WellFormed(t) && from != [] && to != [] && !(from <= to) && IsDir(t, Parent(to))
    requires from in t ==> t[from].File?
    ensures MoveStep(t, from, to, ExecMove(t, from, to).tree)
  {
    if from in t {
      if Lstat(t, to) == NotExist {
        RelocateWorks(t, from, to);
        MkdirNothing(t, to, |to| - 1);
        FileRenames(t, from, to);
      } else if IsFile(t, to) && t[from] != t[to] && Legacy(from) !in t {
        ParkWorks(t, from);
        FileRenames(t, from, Legacy(from));
      }
    }
  }

  predicate AboutReport(k: Job, d: Name) {
    k.Move? && k.from in {RoleReport(d), Own(d), Old(d)} && k.to == Flat(d) && k.guard == Parent(k.from)
  }

  /** The places before this job's source are empty, or the report's place is taken. */
  predicate TurnOf(gated: bool, k: Job, d: Name, t: Tree)
    requires AboutReport(k, d)
  {
    && (k.from == RoleReport(d) ==> gated)
    && (k.from != RoleReport(d) && gated ==> RoleReport(d) !in t || Flat(d) in t)
    && (k.from != RoleReport(d) && k.from != Own(d) ==> Own(d) !in t || Flat(d) in t)
  }

  lemma NamesDiffer(d: Name)
    ensures d + ".md" != d
    ensures Legacy(Own(d)) !in {Own(d), Old(d)} && Legacy(Old(d)) !in {Own(d), Old(d)}
    ensures ReportDir(d) < Legacy(Own(d)) && ReportDir(d) < Legacy(Old(d)) && !(ReportDir(d) < Legacy(RoleReport(d)))
    ensures !(ReportDir(d) < Flat(d)) && !(ReportDir(d) < RoleReport(d)) && ReportDir(d) !in {Flat(d), RoleReport(d)}
    ensures ReportDir(d) < Own(d) && ReportDir(d) < Old(d)
    ensures RoleReport(d) !in {Own(d), Old(d), Flat(d), Legacy(Own(d)), Legacy(Old(d))}
  {
    assert |d + ".md"| == |d| + 3;
    assert ReportDir(d)[2] == d;
    ParkedName(Own(d));
    ParkedName(Old(d));
    assert Own(d)[3][|d| + 2] == 'd' && Old(d)[3][8] == 'd';
    assert Parent(Legacy(Own(d))) == ReportDir(d) && Parent(Legacy(Old(d))) == ReportDir(d);
  }

  lemma ParkedName(p: Path)
    requires p != []
    ensures var n := Legacy(p)[|p| - 1]; |Legacy(p)| == |p| && n != "" && n[|n| - 1] == 'y'
  {
  }

  /** Taking away entries that agree with the winner decides nothing. */
  lemma FewerEntries(gated: bool, d: Name, t: Tree, t': Tree)
    requires Winner(gated, t, d) == Winner(gated, t', d)
    requires forall q | ReportDir(d) < q && q in t' :: q in t && t'[q] == t[q]
    requires forall q | ReportDir(d) < q && q in t && q !in t' :: q in {Own(d), Old(d)} && Winner(gated, t, d) == Some(t[q])
    ensures Drains(gated, t, d) <==> Drains(gated, t', d)
  {
    hide Winner;
  }

  lemma ArrivalKeepsDrains(gated: bool, k: Job, d: Name, t: Tree)
    requires AboutReport(k, d) && TurnOf(gated, k, d, t) && k.from in t && k.to !in t
    ensures Drains(gated, t, d) <==> Drains(gated, (t - {k.from})[k.to := t[k.from]], d)
  {
    NamesDiffer(d);
    FewerEntries(gated, d, t, (t - {k.from})[k.to := t[k.from]]);
  }

  lemma DuplicateKeepsDrains(gated: bool, k: Job, d: Name, t: Tree)
    requires AboutReport(k, d) && k.from in t && k.to in t && t[k.from] == t[k.to]
    ensures Drains(gated, t, d) <==> Drains(gated, t - {k.from}, d)
  {
    NamesDiffer(d);
    FewerEntries(gated, d, t, t - {k.from});
  }

  lemma ParkingKeepsDrains(gated: bool, k: Job, d: Name, t: Tree)
    requires AboutReport(k, d) && k.from in t && k.to in t && t[k.from] != t[k.to] && Legacy(k.from) !in t
    ensures Drains(gated, t, d) <==> Drains(gated, (t - {k.from})[Legacy(k.from) := t[k.from]], d)
  {
    NamesDiffer(d);
    var t' := (t - {k.from})[Legacy(k.from) := t[k.from]];
    assert Legacy(k.from) != Flat(d) by { ParkedName(k.from); assert Flat(d)[2][|d| + 2] == 'd'; }
    if k.from == RoleReport(d) {
      FewerEntries(gated, d, t, t');
    } else {
      assert Legacy(k.from) in t' && k.from in t;
    }
  }

  /** Which file wins, and whether the directory drains, is decided before the moves run. */
  lemma ReportMoveKeepsDrains(gated: bool, k: Job, d: Name, t: Tree)
    requires WellFormed(t) && AboutReport(k, d) && TurnOf(gated, k, d, t) && IsDir(t, ReportDir(d))
    requires FileSource(k, t) && WellShaped(k)
    ensures IsDir(Exec(k, t).tree, ReportDir(d))
    ensures Drains(gated, t, d) <==> Drains(gated, Exec(k, t).tree, d)
  {
    hide ExecMove, WellFormed, Winner, Drains;
    NamesDiffer(d);
    var t' := Exec(k, t).tree;
    assert IsDir(t, Parent(Flat(d))) by { Ancestor(t, Parent(Flat(d)), ReportDir(d)); }
    MoveCases(t, k.from, k.to);
    if t' != t {
      if k.to !in t { ArrivalKeepsDrains(gated, k, d, t); }
      else if t[k.from] == t[k.to] { DuplicateKeepsDrains(gated, k, d, t); }
      else { ParkingKeepsDrains(gated, k, d, t); }
    }
  }

  /** When the directory's own moves have nothing left to do, it is empty exactly
      if it was going to drain. */
  lemma DrainedIsEmpty(gated: bool, d: Name, t: Tree)
    requires WellFormed(t) && IsDir(t, ReportDir(d))
    requires forall p | p in {Own(d), Old(d)} :: (p in t ==> t[p].File?) && (Absent(t, p) || Stuck(t, p, Flat(d)))
    ensures Drains(gated, t, d) <==> !HasEntries(t, ReportDir(d))
  {
    forall q | q in t && q in {Own(d), Old(d)} ensures Winner(gated, t, d) != Some(t[q]) {
      assert Stuck(t, q, Flat(d));
    }
  }

  /* ---- where the jobs about a name stand ---- */

  lemma SuffixCancels(a: string, b: string)
    requires a + ".md" == b + ".md"
    ensures a == b
  {
    assert a == (a + ".md")[..|a|] && b == (b + ".md")[..|b|];
  }

  /** A job has nothing to do with d, moves one of d's reports, or removes one of two directories. */
  predicate Placed(k: Job, d: Name) {
    Apart(k, d) || AboutReport(k, d) || (k.Rmdir? && k.path in {ReportDir(d), Flat(d)})
  }

  /** Neither from roles/ nor from or to shared/report/. */
  predicate Elsewhere(k: Job) {
    && (k.Move? ==> k.from != [] && k.from[0] !in {"roles", "shared"})
    && (k.Move? ==> !(|k.to| == 3 && k.to[0] == "shared"))
    && (k.Rmdir? ==> |k.path| < 3)
  }

  lemma ElsewhereIsApart(k: Job, d: Name)
    requires Elsewhere(k)
    ensures Apart(k, d)
  {
    if k.Move? { NotBelowReports(k.from, d); }
  }

  lemma NotBelowReports(p: Path, d: Name)
    requires p != []
    ensures ReportDir(d) <= p ==> p[0] == "shared" && |p| >= 3 && p[2] == d
  {
    if ReportDir(d) <= p { PrefixEntries(ReportDir(d), p); }
  }

  lemma StaticElsewhere(k: Job)
    requires k in StaticMoves()
    ensures Elsewhere(k)
  {
    InForEach(SupervisorPrompts, SUPERVISOR_STEMS, k);
    hide ForEach;
    if k in BasePrompts() {
      BasePromptElsewhere(k);
    } else {
      hide BasePrompts;
    }
  }

  lemma BasePromptElsewhere(k: Job)
    requires k in BasePrompts()
    ensures Elsewhere(k)
  {
  }

  lemma RoleRowPlaces(r: Name, k: Job, d: Name)
    requires k in RoleMoves(r)
    ensures Apart(k, d) || (AboutReport(k, d) && k.from == RoleReport(d))
    ensures |k.to| == 3 && k.to[..2] == REPORTS ==> AboutReport(k, r) && k.from == RoleReport(r)
  {
    var i :| 0 <= i < 5 && RoleMoves(r)[i] == k;
    NotBelowReports(k.from, d);
    if i < 4 {
      assert k.to[0] == "prompts" && k.from[2] != "report.md";
      assert Flat(d)[0] == "shared" && RoleReport(d)[2] == "report.md" && REPORTS[0] == "shared";
    } else {
      if k.to == Flat(d) { assert k.to[2] == r + ".md"; SuffixCancels(r, d); }
      assert k.from[1] == r && RoleReport(d)[1] == d;
    }
  }

  lemma GatedPlaces(rs: seq<Name>, k: Job, d: Name)
    requires k in GatedJobs(rs)
    ensures Apart(k, d) || (AboutReport(k, d) && k.from == RoleReport(d))
    ensures k.Move? && |k.to| == 3 && k.to[..2] == REPORTS ==> exists x :: AboutReport(k, x) && k.from == RoleReport(x)
    ensures k.Rmdir? ==> |k.path| < 3
  {
    InForEach(RoleMoves, rs, k);
    InForEach(RoleJunk, rs, k);
    InForEach(RoleRmdir, rs, k);
    hide StaticMoves, ForEach;
    if k in StaticMoves() {
      StaticElsewhere(k);
      ElsewhereIsApart(k, d);
    } else if k in ForEach(RoleMoves, rs) {
      var r :| r in rs && k in RoleMoves(r);
      RoleRowPlaces(r, k, d);
    } else {
      assert k.Rmdir? ==> |k.path| < 3;
    }
  }

  /** The jobs of shared/report/<e>/ against the places of d. */
  lemma ReportRowPlaces(e: Name, k: Job, d: Name)
    requires k in ReportJobs(e)
    ensures Placed(k, d)
    ensures e != d ==> Apart(k, d) || (k.Rmdir? && e == d + ".md")
    ensures k.Move? ==> AboutReport(k, e) && k.from in {Own(e), Old(e)}
    ensures k.Rmdir? ==> k.path == ReportDir(e)
  {
    if k.Move? {
      assert k.to[2] == e + ".md" && k.from[2] == e && k.from[0] == "shared";
      if k.to == Flat(d) { SuffixCancels(e, d); }
      NotBelowReports(k.from, d);
    } else {
      assert k.path[2] == e;
    }
  }

  lemma JobPlaces(l: Lists, k: Job, d: Name)
    requires k in JobsOf(l)
    ensures Placed(k, d)
    ensures k.Move? && |k.to| == 3 && k.to[..2] == REPORTS ==> exists x :: AboutReport(k, x) && (k.from == RoleReport(x) ==> l.gated)
    ensures k.Rmdir? && |k.path| == 3 ==> k.path[2] in l.ds && k.path == ReportDir(k.path[2])
  {
    InForEach(ReportJobs, l.ds, k);
    hide GatedJobs, ForEach;
    if l.gated && k in GatedJobs(l.rs) {
      GatedPlaces(l.rs, k, d);
    } else if k in ForEach(ReportJobs, l.ds) {
      var e :| e in l.ds && k in ReportJobs(e);
      ReportRowPlaces(e, k, d);
      NamesDiffer(e);
    }
  }

  /** Before the jobs of the i-th directory: nothing about it but the role's own move. */
  lemma HeadPlaces(l: Lists, i: nat, k: Job)
    requires i < |l.ds| && Ascending(l.ds) && k in Head(l, i)
    ensures var d := l.ds[i]; Apart(k, d) || (AboutReport(k, d) && k.from == RoleReport(d) && l.gated)
  {
    var d := l.ds[i];
    InForEach(ReportJobs, l.ds[..i], k);
    hide GatedJobs, ForEach;
    if l.gated && k in GatedJobs(l.rs) {
      GatedPlaces(l.rs, k, d);
    } else if k in ForEach(ReportJobs, l.ds[..i]) {
      var e :| e in l.ds[..i] && k in ReportJobs(e);
      var a :| 0 <= a < i && l.ds[..i][a] == e;
      LessAsymmetric(l.ds[a], l.ds[i]);
      PrefixIsLess(d, ".md");
      ReportRowPlaces(e, k, d);
    }
  }

  lemma TailPlaces(l: Lists, i: nat, k: Job)
    requires i < |l.ds| && Ascending(l.ds) && k in Tail(l, i)
    ensures k != Rmdir(ReportDir(l.ds[i]), ReportDir(l.ds[i]))
  {
    InForEach(ReportJobs, l.ds[i + 1..], k);
    if k in ForEach(ReportJobs, l.ds[i + 1..]) {
      var e :| e in l.ds[i + 1..] && k in ReportJobs(e);
      var a :| 0 <= a < |l.ds[i + 1..]| && l.ds[i + 1..][a] == e;
      LessAsymmetric(l.ds[i], l.ds[i + 1 + a]);
      ReportRowPlaces(e, k, e);
      assert ReportDir(e)[2] == e && ReportDir(l.ds[i])[2] == l.ds[i];
    }
  }

  /** Where the i-th directory's rmdir stands in the pass. */
  function Slot(l: Lists, i: nat): nat
    requires i < |l.ds|
  {
    |Head(l, i)| + 2
  }

  lemma SlotHolds(l: Lists, i: nat, n: nat)
    requires i < |l.ds| && Ascending(l.ds) && n < |JobsOf(l)|
    ensures Slot(l, i) < |JobsOf(l)|
    ensures var d := l.ds[i]; JobsOf(l)[n] == Rmdir(ReportDir(d), ReportDir(d)) <==> n == Slot(l, i)
    ensures n < |Head(l, i)| ==> JobsOf(l)[n] in Head(l, i)
    ensures JobsOf(l)[..|Head(l, i)|] == Head(l, i)
    ensures JobsOf(l)[|Head(l, i)|] == ReportJobs(l.ds[i])[0] && JobsOf(l)[|Head(l, i)| + 1] == ReportJobs(l.ds[i])[1]
  {
    JobsSplit(l, i);
    hide JobsOf, Head, Tail;
    var h, d, k := Head(l, i), l.ds[i], JobsOf(l)[n];
    if n < |h| {
      assert k == h[n];
      HeadPlaces(l, i, k);
    } else if n < |h| + 3 {
      assert k == ReportJobs(d)[n - |h|];
    } else {
      assert k == Tail(l, i)[n - |h| - 3];
      TailPlaces(l, i, k);
    }
  }

  /* ---- along a run ---- */

  /** The pass has run its first n jobs and nothing it finished has come loose. */
  ghost predicate Mid(l: Lists, n: nat, t: Tree) {
    && n <= |JobsOf(l)| && Ascending(l.ds) && AllInTables(JobsOf(l)) && AllShaped(JobsOf(l))
    && Ready(JobsOf(l)[..n], JobsOf(l)[n..], t)
    && (forall x :: IsDir(t, RoleDir(x)) ==> x in l.rs)
    && (forall x :: IsDir(t, ReportDir(x)) ==> x in l.ds)
  }

  lemma MidAscends(l: Lists, n: nat, t: Tree)
    requires Mid(l, n, t)
    ensures Ascending(l.ds)
  {
  }

  lemma MidStep(l: Lists, n: nat, t: Tree)
    requires Mid(l, n, t) && n < |JobsOf(l)|
    requires UnblocksNone(JobsOf(l)[..n], JobsOf(l)[n], t) && Exec(JobsOf(l)[n], t).error.None?
    ensures Mid(l, n + 1, Exec(JobsOf(l)[n], t).tree)
    ensures Runs(JobsOf(l)[n], t, Exec(JobsOf(l)[n], t).tree)
  {
    hide Exec, Partial, InTables, Quiet, JobsOf;
    var js, k := JobsOf(l), JobsOf(l)[n];
    var t' := Exec(k, t).tree;
    assert js[n..][0] == k && js[n..][1..] == js[n + 1..] && js[..n] + [k] == js[..n + 1];
    CompletedIsPartial(false, k, t);
    RunStep(js[..n], js[n..], t);
    StepKeepsDone(js[..n], js[n..], t, t');
    forall x: Name {:trigger RoleDir(x)} ensures IsDir(t', RoleDir(x)) ==> x in l.rs {
      DirsAreListed(x);
      if !IsDir(t, RoleDir(x)) { NotListedStays(k, t, t', RoleDir(x)); }
    }
    forall x: Name {:trigger ReportDir(x)} ensures IsDir(t', ReportDir(x)) ==> x in l.ds {
      DirsAreListed(x);
      if !IsDir(t, ReportDir(x)) { NotListedStays(k, t, t', ReportDir(x)); }
    }
  }

  lemma DoneIsQuiet(l: Lists, n: nat, t: Tree, k: Job)
    requires Mid(l, n, t) && k in JobsOf(l)[..n]
    ensures WellShaped(k) && Quiet(k, t) && FileSource(k, t)
  {
  }

  /** The role's own report move is among the gated jobs. */
  lemma RoleReportJob(l: Lists, x: Name)
    requires l.gated && x in l.rs
    ensures Move(RoleDir(x), RoleReport(x), Flat(x)) in GatedJobs(l.rs)
  {
    InForEach(RoleMoves, l.rs, RoleMoves(x)[4]);
    assert RoleMoves(x)[4] in RoleMoves(x);
    hide StaticMoves, RoleMoves;
  }

  /** Once the head has run, a role report still there is blocked. */
  lemma RoleReportDone(l: Lists, i: nat, n: nat, t: Tree)
    requires Mid(l, n, t) && i < |l.ds| && |Head(l, i)| <= n
    requires l.gated && RoleReport(l.ds[i]) in t
    ensures Flat(l.ds[i]) in t
  {
    var d := l.ds[i];
    Ancestor(t, RoleDir(d), RoleReport(d));
    RoleReportJob(l, d);
    hide GatedJobs, Ready, JobsOf;
    var k := Move(RoleDir(d), RoleReport(d), Flat(d));
    HeadDone(l, i, n, k);
    DoneIsQuiet(l, n, t, k);
  }

  lemma HeadDone(l: Lists, i: nat, n: nat, k: Job)
    requires i < |l.ds| && |Head(l, i)| <= n <= |JobsOf(l)| && Ascending(l.ds) && k in Head(l, i)
    ensures k in JobsOf(l)[..n]
  {
    JobsSplit(l, i);
    hide JobsOf, Head, Tail;
    var a :| 0 <= a < |Head(l, i)| && Head(l, i)[a] == k;
    assert JobsOf(l)[..n][a] == k;
  }

  /** Once its first move has run, a report in the directory's own name is gone or blocked. */
  lemma OwnReportDone(l: Lists, i: nat, n: nat, t: Tree)
    requires Mid(l, n, t) && i < |l.ds| && n == |Head(l, i)| + 1 && IsDir(t, ReportDir(l.ds[i]))
    requires |Head(l, i)| < |JobsOf(l)| && JobsOf(l)[|Head(l, i)|] == ReportJobs(l.ds[i])[0]
    ensures Own(l.ds[i]) !in t || Flat(l.ds[i]) in t
  {
    hide JobsOf, Head, Ready;
    var own := ReportJobs(l.ds[i])[0];
    assert JobsOf(l)[..n][n - 1] == own;
    DoneIsQuiet(l, n, t, own);
  }

  lemma BeforeSlot(l: Lists, i: nat)
    requires i < |l.ds|
    ensures Slot(l, i) == |Head(l, i)| + 2
  {
    hide Head;
  }

  lemma TurnComes(l: Lists, i: nat, n: nat, t: Tree)
    requires Mid(l, n, t) && i < |l.ds| && n < Slot(l, i) && n < |JobsOf(l)| && IsDir(t, ReportDir(l.ds[i]))
    ensures var k, d := JobsOf(l)[n], l.ds[i]; Apart(k, d) || (AboutReport(k, d) && TurnOf(l.gated, k, d, t))
  {
    var k, d, h := JobsOf(l)[n], l.ds[i], |Head(l, i)|;
    hide JobsOf, Head, Ready, Mid, Slot;
    MidAscends(l, n, t);
    SlotHolds(l, i, n);
    BeforeSlot(l, i);
    NamesDiffer(d);
    if n < h {
      HeadPlaces(l, i, k);
    } else {
      if l.gated && RoleReport(d) in t { RoleReportDone(l, i, n, t); }
      if n == h + 1 { OwnReportDone(l, i, n, t); }
    }
  }

  /** Until its rmdir comes, whether a directory drains does not change. */
  lemma DrainsStays(l: Lists, i: nat, n: nat, t: Tree)
    requires Mid(l, n, t) && i < |l.ds| && n < Slot(l, i) && n < |JobsOf(l)| && IsDir(t, ReportDir(l.ds[i]))
    requires Runs(JobsOf(l)[n], t, Exec(JobsOf(l)[n], t).tree)
    ensures var d, t' := l.ds[i], Exec(JobsOf(l)[n], t).tree;
      IsDir(t', ReportDir(d)) && (Drains(l.gated, t, d) <==> Drains(l.gated, t', d))
  {
    var k, d := JobsOf(l)[n], l.ds[i];
    var t' := Exec(k, t).tree;
    TurnComes(l, i, n, t);
    hide JobsOf, Exec, Partial, Ready, Drains;
    if Apart(k, d) {
      ApartKeepsView(k, d, t, t');
      assert Watched(d, ReportDir(d));
      SameViewDrains(l.gated, d, t, t');
    } else {
      ReportMoveKeepsDrains(l.gated, k, d, t);
    }
  }

  /** A report kept waiting by a directory keeps waiting. */
  lemma WaitingStays(l: Lists, n: nat, x: Name, t: Tree, p: Path)
    requires n < |JobsOf(l)| && WellShaped(JobsOf(l)[n]) && IsDir(t, Flat(x)) && p in {RoleReport(x), Own(x), Old(x)}
    requires Runs(JobsOf(l)[n], t, Exec(JobsOf(l)[n], t).tree)
    requires JobsOf(l)[n].Rmdir? ==> JobsOf(l)[n].path != Flat(x)
    ensures p in t <==> p in Exec(JobsOf(l)[n], t).tree
  {
    hide JobsOf, KindOf, FileSource, InTables;
    var k := JobsOf(l)[n];
    var t' := Exec(k, t).tree;
    JobPlaces(l, k, x);
    PlaceKinds(x);
    NamesDiffer(x);
    EffectOf(false, k, t, t');
    hide Partial, WellFormed;
    if p !in t { SourceNotCreated(k, t, t', p); }
    else if Apart(k, x) { hide Exec; NotRemovedThere(k, x, p, t[p]); }
  }

  /** The directory of a report goes only at its own slot. */
  lemma RemovedLater(l: Lists, i: nat, n: nat)
    requires i < |l.ds| && Ascending(l.ds) && n < Slot(l, i) && n < |JobsOf(l)| && InTables(JobsOf(l)[n])
    ensures JobsOf(l)[n].Rmdir? ==> JobsOf(l)[n].path != ReportDir(l.ds[i])
  {
    hide JobsOf, Slot;
    SlotHolds(l, i, n);
  }

  lemma ClashStays(l: Lists, i: nat, n: nat, t: Tree, x: Name)
    requires Mid(l, n, t) && i < |l.ds| && n < Slot(l, i) && n < |JobsOf(l)| && l.ds[i] == x + ".md"
    requires Runs(JobsOf(l)[n], t, Exec(JobsOf(l)[n], t).tree)
    ensures ClashAt(l.gated, t, x) <==> ClashAt(l.gated, Exec(JobsOf(l)[n], t).tree, x)
  {
    var d, k := l.ds[i], JobsOf(l)[n];
    var t' := Exec(k, t).tree;
    hide JobsOf, Exec, Partial, Drains, KindOf, InTables, Mid, Slot, Runs, WellShaped, IsListed;
    MidAscends(l, n, t);
    DirsAreListed(d);
    if IsDir(t, Flat(x)) {
      DrainsStays(l, i, n, t);
      RemovedLater(l, i, n);
      forall p | p in {RoleReport(x), Own(x), Old(x)} ensures p in t <==> p in t' { WaitingStays(l, n, x, t, p); }
    } else {
      NotListedStays(k, t, t', ReportDir(d));
    }
  }

  /** shared/report/<x>/ is listed before shared/report/<x>.md/. */
  lemma ListedEarlier(l: Lists, i: nat, x: Name)
    requires i < |l.ds| && Ascending(l.ds) && l.ds[i] == x + ".md" && x in l.ds
    ensures x in l.ds[..i]
  {
    var a :| 0 <= a < |l.ds| && l.ds[a] == x;
    PrefixIsLess(x, ".md");
    LessAsymmetric(x, x + ".md");
    assert !(i < a);
    assert l.ds[..i][a] == x;
  }

  /** The finished job that moves x's report from p. */
  lemma WaitingJobDone(l: Lists, i: nat, x: Name, t: Tree, p: Path)
    requires i < |l.ds| && Mid(l, Slot(l, i), t) && l.ds[i] == x + ".md"
    requires p in t && ((p == RoleReport(x) && l.gated) || p in {Own(x), Old(x)})
    ensures Move(Parent(p), p, Flat(x)) in JobsOf(l)[..Slot(l, i)]
  {
    hide GatedJobs, ForEach, JobsOf, AllQuiet, InTables;
    var k := Move(Parent(p), p, Flat(x));
    if p == RoleReport(x) {
      assert Parent(p) == RoleDir(x);
      Ancestor(t, RoleDir(x), p);
      RoleReportJob(l, x);
    } else {
      Ancestor(t, ReportDir(x), p);
      ListedEarlier(l, i, x);
      assert Parent(p) == ReportDir(x) && k in ReportJobs(x);
      InForEach(ReportJobs, l.ds[..i], k);
    }
    HeadDone(l, i, Slot(l, i), k);
  }

  lemma DirectoryMovesDone(l: Lists, i: nat, t: Tree, p: Path)
    requires i < |l.ds| && Mid(l, Slot(l, i), t) && IsDir(t, ReportDir(l.ds[i])) && p in {Own(l.ds[i]), Old(l.ds[i])}
    ensures (p in t ==> t[p].File?) && (Absent(t, p) || Stuck(t, p, Flat(l.ds[i])))
  {
    var d, h, n := l.ds[i], |Head(l, i)|, Slot(l, i);
    JobsSplit(l, i);
    SlotHolds(l, i, h);
    hide JobsOf, Head, Ready;
    var k := if p == Own(d) then ReportJobs(d)[0] else ReportJobs(d)[1];
    assert JobsOf(l)[..n][h] == ReportJobs(d)[0] && JobsOf(l)[..n][h + 1] == ReportJobs(d)[1];
    DoneIsQuiet(l, n, t, k);
  }

  lemma DirectoryDrained(l: Lists, i: nat, t: Tree)
    requires i < |l.ds| && Mid(l, Slot(l, i), t) && IsDir(t, ReportDir(l.ds[i]))
    ensures Drains(l.gated, t, l.ds[i]) <==> !HasEntries(t, ReportDir(l.ds[i]))
  {
    var d := l.ds[i];
    forall p | p in {Own(d), Old(d)} ensures (p in t ==> t[p].File?) && (Absent(t, p) || Stuck(t, p, Flat(d))) {
      DirectoryMovesDone(l, i, t, p);
    }
    DrainedIsEmpty(l.gated, d, t);
  }

  lemma ClashUnblocks(l: Lists, i: nat, t: Tree, x: Name)
    requires i < |l.ds| && Mid(l, Slot(l, i), t) && Slot(l, i) < |JobsOf(l)|
    requires l.ds[i] == x + ".md" && ClashAt(l.gated, t, x)
    ensures !UnblocksNone(JobsOf(l)[..Slot(l, i)], JobsOf(l)[Slot(l, i)], t)
  {
    SlotHolds(l, i, Slot(l, i));
    DirectoryDrained(l, i, t);
    hide JobsOf, Mid, Drains;
    var p := if l.gated && RoleReport(x) in t then RoleReport(x) else if Own(x) in t then Own(x) else Old(x);
    WaitingJobDone(l, i, x, t, p);
    assert Unblocks(Move(Parent(p), p, Flat(x)), JobsOf(l)[Slot(l, i)], t);
  }

  lemma UnblockedClashes(l: Lists, i: nat, t: Tree, j: Job)
    requires i < |l.ds| && Mid(l, Slot(l, i), t) && Slot(l, i) < |JobsOf(l)|
    requires j in JobsOf(l) && Unblocks(j, JobsOf(l)[Slot(l, i)], t)
    ensures exists x :: l.ds[i] == x + ".md" && ClashAt(l.gated, t, x)
  {
    hide JobsOf, Mid, Drains, Slot, Placed, HasEntries;
    var d := l.ds[i];
    MidAscends(l, Slot(l, i), t);
    SlotHolds(l, i, Slot(l, i));
    JobPlaces(l, j, d);
    DirectoryDrained(l, i, t);
    var x :| AboutReport(j, x) && (j.from == RoleReport(x) ==> l.gated);
    assert Flat(x)[2] == d;
    assert d == x + ".md" && ClashAt(l.gated, t, x);
  }

  /** The rmdir of shared/report/<x>.md/ takes away what blocks a finished move
      exactly when x clashes. */
  lemma SlotUnblocks(l: Lists, i: nat, t: Tree)
    requires i < |l.ds| && Mid(l, Slot(l, i), t) && Slot(l, i) < |JobsOf(l)|
    ensures UnblocksNone(JobsOf(l)[..Slot(l, i)], JobsOf(l)[Slot(l, i)], t)
       <==> forall x | l.ds[i] == x + ".md" :: !ClashAt(l.gated, t, x)
  {
    hide JobsOf, Mid, Unblocks, ClashAt, Slot;
    var n := Slot(l, i);
    forall x | l.ds[i] == x + ".md" && ClashAt(l.gated, t, x) ensures !UnblocksNone(JobsOf(l)[..n], JobsOf(l)[n], t) {
      ClashUnblocks(l, i, t, x);
    }
    forall j | j in JobsOf(l)[..n] && Unblocks(j, JobsOf(l)[n], t)
      ensures exists x :: l.ds[i] == x + ".md" && ClashAt(l.gated, t, x)
    {
      UnblockedClashes(l, i, t, j);
    }
  }

  /** Only the rmdir of a listed report directory can unblock a move. */
  lemma UnblocksAtSlot(l: Lists, n: nat, t: Tree, j: Job) returns (i: nat)
    requires n < |JobsOf(l)| && Ascending(l.ds) && j in JobsOf(l)[..n] && Unblocks(j, JobsOf(l)[n], t)
    requires AllInTables(JobsOf(l))
    ensures i < |l.ds| && n == Slot(l, i)
  {
    var k := JobsOf(l)[n];
    JobPaths(j);
    TargetRmdir(k);
    JobPlaces(l, k, "");
    hide JobsOf;
    i :| 0 <= i < |l.ds| && l.ds[i] == k.path[2];
    SlotHolds(l, i, n);
  }

  lemma TargetRmdir(k: Job)
    requires InTables(k) && k.Rmdir? && IsTarget(k.path)
    ensures |k.path| == 3 && k.guard == k.path
  {
    DirectoryKinds();
    hide KindOf;
  }

  /** The names whose clash is still to come after n jobs. */
  ghost predicate NoneLeft(l: Lists, n: nat, t: Tree) {
    forall i, x | 0 <= i < |l.ds| && n <= Slot(l, i) && l.ds[i] == x + ".md" :: !ClashAt(l.gated, t, x)
  }

  lemma NoneLeftStep(l: Lists, n: nat, t: Tree)
    requires Mid(l, n, t) && n < |JobsOf(l)|
    requires UnblocksNone(JobsOf(l)[..n], JobsOf(l)[n], t)
    requires Runs(JobsOf(l)[n], t, Exec(JobsOf(l)[n], t).tree)
    ensures NoneLeft(l, n, t) <==> NoneLeft(l, n + 1, Exec(JobsOf(l)[n], t).tree)
  {
    hide Exec, Mid, UnblocksNone, ClashAt, Slot, JobsOf, WellShaped, WellFormed, Partial, InTables, FileSource;
    var t' := Exec(JobsOf(l)[n], t).tree;
    hide Runs;
    forall i, x | 0 <= i < |l.ds| && n <= Slot(l, i) && l.ds[i] == x + ".md"
      ensures if n == Slot(l, i) then !ClashAt(l.gated, t, x) else ClashAt(l.gated, t, x) <==> ClashAt(l.gated, t', x)
    {
      if n == Slot(l, i) { SlotUnblocks(l, i, t); } else { ClashStays(l, i, n, t, x); }
    }
  }

  lemma UnblockedLeft(l: Lists, n: nat, t: Tree)
    requires Mid(l, n, t) && n < |JobsOf(l)|
    requires !UnblocksNone(JobsOf(l)[..n], JobsOf(l)[n], t)
    ensures !NoneLeft(l, n, t)
  {
    hide Exec, Ready, Unblocks, ClashAt, Slot, JobsOf;
    var j :| j in JobsOf(l)[..n] && Unblocks(j, JobsOf(l)[n], t);
    var i := UnblocksAtSlot(l, n, t, j);
    SlotUnblocks(l, i, t);
  }

  /** No rmdir of the rest of the pass unblocks anything exactly when no name still to come clashes. */
  lemma {:induction false} NeverUnblocksIff(l: Lists, n: nat, t: Tree)
    requires Mid(l, n, t) && ExecAll(JobsOf(l)[n..], t).error.None?
    ensures NeverUnblocks(JobsOf(l)[..n], JobsOf(l)[n..], t) <==> NoneLeft(l, n, t)
    decreases |JobsOf(l)| - n
  {
    hide Exec, Ready, Unblocks, ClashAt, Slot, JobsOf, Runs, NoneLeft;
    var js := JobsOf(l);
    if n == |js| {
      NoneLeftAtEnd(l, t);
    } else {
      var k, t' := js[n], Exec(js[n], t).tree;
      assert js[n..][0] == k && js[n..][1..] == js[n + 1..] && js[..n] + [k] == js[..n + 1];
      if UnblocksNone(js[..n], k, t) {
        MidStep(l, n, t);
        NoneLeftStep(l, n, t);
        NeverUnblocksIff(l, n + 1, t');
      } else {
        UnblockedLeft(l, n, t);
      }
    }
  }

  lemma NoneLeftAtEnd(l: Lists, t: Tree)
    ensures NoneLeft(l, |JobsOf(l)|, t)
  {
    forall i | 0 <= i < |l.ds| ensures Slot(l, i) < |JobsOf(l)| { JobsSplit(l, i); }
  }

  lemma PassStarts(t: Tree)
    requires Root(t)
    ensures Mid(ListsOf(t), 0, t)
  {
    var l := ListsOf(t);
    PassIsJobs(t);
    PassInTables(t);
    PassHoistsLast(RoleNames(t), ReportNames(t));
    FlattenOrdered(ReportNames(t));
    PassOrdered(RoleNames(t), ReportNames(t));
    forall x: Name {:trigger RoleDir(x)} ensures IsDir(t, RoleDir(x)) ==> x in l.rs { NamesAreDirs(t, x); }
    forall x: Name {:trigger ReportDir(x)} ensures IsDir(t, ReportDir(x)) ==> x in l.ds { NamesAreDirs(t, x); }
    hide FlattenJobs, GatedJobs, NeedsMigration, InTables, WellFormed;
    var js := JobsOf(l);
    assert [] + FlattenJobs(l.ds) == FlattenJobs(l.ds);
    hide JobsOf;
    assert js[..0] == [] && js[0..] == js && [] + js == js;
  }

  /** A clash shows on the tree before the pass. */
  lemma ClashIff(t: Tree)
    requires Root(t) && V1Layout(t).error.None?
    ensures AllShaped(PassJobs(t)) && (NeverUnblocks([], PassJobs(t), t) <==> !Clash(t))
  {
    hide JobsOf, PassJobs, ExecAll, Exec, NeedsMigration, Drains, Waiting, Root;
    var l := ListsOf(t);
    PassIsJobs(t);
    PassStarts(t);
    var js := JobsOf(l);
    assert js[..0] == [] && js[0..] == js;
    NeverUnblocksIff(l, 0, t);
    hide Ready;
    forall x | ClashAt(l.gated, t, x) ensures !NoneLeft(l, 0, t) {
      assert IsDir(t, ReportDir(x + ".md"));
      var i :| 0 <= i < |l.ds| && l.ds[i] == x + ".md";
      assert 0 <= Slot(l, i);
    }
  }
}
