/** Where a pass puts things: what lies at each v1 path after a pass without
    errors, for every path the migration knows, spelled out. */
module MigrationRows {
  import opened Common
  import opened FileTree
  import opened SortedNames
  import opened MigrationJobs
  import opened MigrationEffects
  import opened MigrationTables
  import opened MigrationSafety
  import opened MigrationReplay
  import opened MigrationTheorems
  import opened MigrationPass

  predicate Moves(j: Job) { j.Move? || j.Hoist? }

  /** The sources of a target, in the order the jobs come to them. */
  function Feeds(js: seq<Job>, q: Path): seq<Path> {
    if js == [] then [] else (if Moves(js[0]) && js[0].to == q then [js[0].from] else []) + Feeds(js[1..], q)
  }

  /** What lies at the first of some paths that is taken. */
  function First(t: Tree, ps: seq<Path>): Option<Node> {
    if ps == [] then None else if ps[0] in t then Some(t[ps[0]]) else First(t, ps[1..])
  }

  /** A target of a file, not of the code directory. */
  predicate FileTarget(q: Path) { IsTarget(q) && !(["shared", "code"] <= q) }

  /* ---- one job ---- */

  lemma TargetsAreLeaves(q: Path, p: Path)
    requires IsTarget(q) && IsTarget(p)
    ensures !(q < p)
  {
    if q < p {
      AboveTarget(q, p);
      PrefixEntries(q, p);
      hide KindOf;
    }
  }

  lemma TargetIsNotParked(s: Path, q: Path)
    requires IsSource(s) && IsTarget(q)
    ensures q != Legacy(s)
  {
    ParkedKind(s[|s| - 1]);
    hide KindOf;
  }

  lemma GuardHolds(j: Job, t: Tree)
    requires WellFormed(t) && InTables(j) && j.Move? && j.from in t && j.from != []
    ensures IsDir(t, j.guard)
  {
    hide KindOf, IsSource, IsTarget, IsDropped;
    assert IsDir(t, j.from[..|j.from| - 1]);
  }

  lemma MoveFills(from: Path, to: Path, t: Tree)
    requires WellFormed(t) && from != [] && to != [] && !(from <= to) && from in t && to !in t
    requires ExecMove(t, from, to).error.None?
    ensures var t1 := ExecMove(t, from, to).tree; to in t1 && t1[to] == t[from]
  {
    RelocateWorks(t, from, to);
    assert to + from[|from|..] == to;
  }

  /** A job that completes fills its empty target if its source is there. */
  lemma JobFills(j: Job, t: Tree)
    requires WellShaped(j) && Runs(j, t, Exec(j, t).tree) && Exec(j, t).error.None? && Moves(j) && j.to !in t && j.from in t
    ensures var t1 := Exec(j, t).tree; j.to in t1 && t1[j.to] == t[j.from]
  {
    if j.Move? {
      GuardHolds(j, t);
      MoveFills(j.from, j.to, t);
    } else {
      HoistStates(false, j, t, Exec(j, t).tree);
      hide Exec;
      MoveFills(j.from, j.to, t);
    }
  }

  /** Without its source it does nothing. */
  lemma NothingToMove(j: Job, t: Tree)
    requires WellShaped(j) && Moves(j) && j.from !in t
    ensures Exec(j, t).tree == t
  {
  }

  /** Nothing else fills it. */
  lemma OnlyItsJobFills(j: Job, t: Tree, q: Path)
    requires WellShaped(j) && Runs(j, t, Exec(j, t).tree) && FileTarget(q) && q !in t && q in Exec(j, t).tree
    ensures Moves(j) && j.to == q
  {
    CreatedAt(j, t, Exec(j, t).tree, q);
    JobPaths(j);
    hide Exec, Partial, InTables, KindOf, IsTarget, IsSource;
    if q < j.to { TargetsAreLeaves(q, j.to); }
    if Moves(j) && q == Legacy(j.from) { TargetIsNotParked(j.from, q); }
  }

  /** A source that is not the job's own stays, with all it holds. */
  lemma OtherSourceStays(j: Job, t: Tree, p: Path)
    requires WellShaped(j) && Runs(j, t, Exec(j, t).tree) && IsSource(p) && !IsDropped(p) && IsFile(t, p)
    requires Moves(j) || j.MoveDir? ==> j.from != p
    ensures var t1 := Exec(j, t).tree; p in t1 && t1[p] == t[p]
  {
    var t1 := Exec(j, t).tree;
    EffectOf(false, j, t, t1);
    if p !in t1 {
      hide Exec, Partial;
      match j
      case Move(_, from, _) => FileBelow(t, from, p);
      case Hoist(from, _, _) => FileBelow(t, from, p);
      case MoveDir(from, _) => CodeDirBelow(p);
      case Purge(_, path) => BelowHistory(path, p);
      case _ =>
    }
  }

  lemma FileBelow(t: Tree, from: Path, p: Path)
    requires WellFormed(t) && p in t && from < p
    ensures IsDir(t, from)
  {
    Ancestor(t, from, p);
    assert from == p[..|from|];
  }

  lemma CodeDirBelow(p: Path)
    requires IsSource(p) && ["supervisor", "code"] <= p
    ensures p == ["supervisor", "code"]
  {
    PrefixEntries(["supervisor", "code"], p);
    DirectoryKinds();
    hide KindOf;
  }

  /* ---- a list of jobs ---- */

  /** No job takes a source of q anywhere but to q. */
  ghost predicate Loyal(js: seq<Job>, q: Path) {
    forall a, p | a in js && (Moves(a) || a.MoveDir?) && p in Feeds(js, q) && a.from == p :: Moves(a) && a.to == q
  }

  ghost predicate Sound(js: seq<Job>, t: Tree) {
    WellFormed(t) && AllShaped(js) && AllInTables(js) && FileSources(js, t)
  }

  lemma {:induction false} FeedsHas(js: seq<Job>, q: Path, p: Path)
    ensures p in Feeds(js, q) <==> exists j :: j in js && Moves(j) && j.to == q && j.from == p
  {
    if js != [] { FeedsHas(js[1..], q, p); }
  }

  lemma {:induction false} SameFirst(t: Tree, t1: Tree, ps: seq<Path>)
    requires forall p | p in ps :: (p in t <==> p in t1) && (p in t ==> t1[p] == t[p])
    ensures First(t1, ps) == First(t, ps)
  {
    if ps != [] { SameFirst(t, t1, ps[1..]); }
  }

  lemma FirstOf(t: Tree, q: Path, ps: seq<Path>)
    ensures First(t, [q] + ps) == if q in t then Some(t[q]) else First(t, ps)
  {
    assert ([q] + ps)[1..] == ps;
  }

  lemma FeedIsSource(js: seq<Job>, t: Tree, q: Path, p: Path)
    requires Sound(js, t) && p in Feeds(js, q)
    ensures IsSource(p) && !IsDropped(p) && (p in t ==> IsFile(t, p))
  {
    FeedsHas(js, q, p);
    var j :| j in js && Moves(j) && j.to == q && j.from == p;
    JobPaths(j);
    if j.Hoist? { HoistPaths(j); }
    hide KindOf;
  }

  /** While q stays empty, so do or do not its sources. */
  lemma FeedStays(js: seq<Job>, t: Tree, q: Path, p: Path)
    requires Sound(js, t) && js != [] && Exec(js[0], t).error.None? && FileTarget(q) && Loyal(js, q)
    requires q !in t && q !in Exec(js[0], t).tree && p in Feeds(js, q)
    ensures var t1 := Exec(js[0], t).tree; (p in t <==> p in t1) && (p in t ==> t1[p] == t[p])
  {
    var j := js[0];
    var t1 := Exec(j, t).tree;
    CompletedIsPartial(false, j, t);
    FeedIsSource(js, t, q, p);
    if p !in t {
      SourceNotCreated(j, t, t1, p);
    } else {
      if Moves(j) && j.to == q && j.from in t { JobFills(j, t); }
      hide Exec, Partial, InTables, FileTarget;
      OtherSourceStays(j, t, p);
    }
  }

  /** One job later the first of q and its remaining sources is what it was. */
  lemma StepLands(js: seq<Job>, t: Tree, q: Path)
    requires Sound(js, t) && js != [] && Exec(js[0], t).error.None? && FileTarget(q) && !IsDir(t, q) && Loyal(js, q)
    ensures var t1 := Exec(js[0], t).tree;
      !IsDir(t1, q) && First(t1, [q] + Feeds(js[1..], q)) == First(t, [q] + Feeds(js, q))
  {
    var j := js[0];
    var t1 := Exec(j, t).tree;
    HeadRuns(js, t);
    if q in t { StaysFilled(j, t, q); }
    else if q in t1 { JustFilled(js, t, q); }
    else { StillEmpty(js, t, q); }
    hide *;
    FirstOf(t, q, Feeds(js, q));
    FirstOf(t1, q, Feeds(js[1..], q));
    DirsAreThere(t, q);
    DirsAreThere(t1, q);
  }

  lemma DirsAreThere(t: Tree, q: Path)
    ensures IsDir(t, q) <==> q in t && t[q].Dir?
    ensures IsFile(t, q) <==> q in t && t[q].File?
  {
  }

  lemma HeadRuns(js: seq<Job>, t: Tree)
    requires Sound(js, t) && js != []
    ensures WellShaped(js[0]) && Runs(js[0], t, Exec(js[0], t).tree)
  {
    CompletedIsPartial(false, js[0], t);
    hide Partial, Exec;
  }

  lemma JustFilled(js: seq<Job>, t: Tree, q: Path)
    requires Sound(js, t) && js != [] && Exec(js[0], t).error.None? && FileTarget(q)
    requires q !in t && q in Exec(js[0], t).tree
    ensures Exec(js[0], t).tree[q].File? && First(t, Feeds(js, q)) == Some(Exec(js[0], t).tree[q])
  {
    var j := js[0];
    HeadRuns(js, t);
    OnlyItsJobFills(j, t, q);
    assert Feeds(js, q)[0] == j.from && j.from in Feeds(js, q);
    FeedIsSource(js, t, q, j.from);
    if j.from !in t { NothingToMove(j, t); }
    hide Exec, InTables, FileTarget, Sound;
    JobFills(j, t);
  }

  lemma StillEmpty(js: seq<Job>, t: Tree, q: Path)
    requires Sound(js, t) && js != [] && Exec(js[0], t).error.None? && FileTarget(q) && Loyal(js, q)
    requires q !in t && q !in Exec(js[0], t).tree
    ensures First(Exec(js[0], t).tree, Feeds(js[1..], q)) == First(t, Feeds(js, q))
  {
    var t1, later := Exec(js[0], t).tree, Feeds(js[1..], q);
    FedByRest(js, t, q);
    hide *;
    forall p | p in later ensures (p in t <==> p in t1) && (p in t ==> t1[p] == t[p]) {
      AmongFeeds(js, q, p);
      FeedStays(js, t, q, p);
    }
    SameFirst(t, t1, later);
  }

  lemma AmongFeeds(js: seq<Job>, q: Path, p: Path)
    requires js != [] && p in Feeds(js[1..], q)
    ensures p in Feeds(js, q)
  {
  }

  lemma FedByRest(js: seq<Job>, t: Tree, q: Path)
    requires Sound(js, t) && js != [] && Exec(js[0], t).error.None? && q !in t && q !in Exec(js[0], t).tree
    ensures First(t, Feeds(js[1..], q)) == First(t, Feeds(js, q))
  {
    if Moves(js[0]) && js[0].to == q { HeadNotThere(js, t); }
    hide *;
    FirstFeed(js, t, q);
  }

  lemma HeadNotThere(js: seq<Job>, t: Tree)
    requires Sound(js, t) && js != [] && Exec(js[0], t).error.None? && Moves(js[0])
    requires js[0].to !in t && js[0].to !in Exec(js[0], t).tree
    ensures js[0].from !in t
  {
    HeadRuns(js, t);
    if js[0].from in t {
      JobFills(js[0], t);
      hide *;
    }
  }

  lemma FirstFeed(js: seq<Job>, t: Tree, q: Path)
    requires js != []
    ensures Moves(js[0]) && js[0].to == q ==>
      First(t, Feeds(js, q)) == if js[0].from in t then Some(t[js[0].from]) else First(t, Feeds(js[1..], q))
    ensures !(Moves(js[0]) && js[0].to == q) ==> Feeds(js, q) == Feeds(js[1..], q)
  {
    if Moves(js[0]) && js[0].to == q { FirstOf(t, js[0].from, Feeds(js[1..], q)); }
  }

  lemma StaysFilled(j: Job, t: Tree, q: Path)
    requires WellShaped(j) && Runs(j, t, Exec(j, t).tree) && FileTarget(q) && IsFile(t, q)
    ensures var t1 := Exec(j, t).tree; q in t1 && t1[q] == t[q]
  {
    CompletedIsPartial(true, j, t);
    JobKeepsTargets(j, t, Exec(j, t).tree);
  }

  lemma StepSound(js: seq<Job>, t: Tree)
    requires Sound(js, t) && js != []
    ensures Sound(js[1..], Exec(js[0], t).tree)
  {
    hide Exec, Partial, InTables, WellFormed, FileSource;
    HeadRuns(js, t);
    EffectOf(false, js[0], t, Exec(js[0], t).tree);
    SourcesStayFiles(js, js[0], t, Exec(js[0], t).tree);
    hide WellShaped;
  }

  lemma StepLoyal(js: seq<Job>, q: Path)
    requires js != [] && Loyal(js, q)
    ensures Loyal(js[1..], q)
  {
    hide Moves;
    assert forall p | p in Feeds(js[1..], q) :: p in Feeds(js, q);
  }

  lemma RestRuns(js: seq<Job>, t: Tree)
    requires Sound(js, t) && js != [] && ExecAll(js, t).error.None?
    ensures Exec(js[0], t).error.None? && Sound(js[1..], Exec(js[0], t).tree)
    ensures ExecAll(js[1..], Exec(js[0], t).tree).error.None?
    ensures ExecAll(js[1..], Exec(js[0], t).tree).tree == ExecAll(js, t).tree
  {
    hide Exec;
    StepSound(js, t);
  }

  /**
    After jobs that all succeed, a file target holds what it held, or else what was at the first of its sources that was
    taken; if none was, it is empty.
  */
  lemma {:induction false} Lands(js: seq<Job>, t: Tree, q: Path)
    requires Sound(js, t) && FileTarget(q) && !IsDir(t, q) && Loyal(js, q) && ExecAll(js, t).error.None?
    ensures First(ExecAll(js, t).tree, [q]) == First(t, [q] + Feeds(js, q))
  {
    hide Exec, Loyal, FileTarget, First;
    if js == [] {
      assert [q] + Feeds(js, q) == [q];
    } else {
      RestRuns(js, t);
      hide ExecAll, Sound;
      StepLands(js, t, q);
      StepLoyal(js, q);
      Lands(js[1..], Exec(js[0], t).tree, q);
    }
  }

  /* ---- the naming rule ---- */

  function Without(n: Name, suffix: string): Name
    requires EndsWith(n, suffix)
  {
    n[..|n| - |suffix|]
  }

  /** Where a prompt or an artifact below supervisor/ goes. */
  function SupervisorHome(n: Name): Path {
    if EndsWith(n, "_extra_prompt.md") then ["prompts", Without(n, "_extra_prompt.md") + ".post.extra.md"]
    else if EndsWith(n, "_prompt.md") then ["prompts", Without(n, "_prompt.md") + ".prompt.md"]
    else ["shared", n]
  }

  function RootHome(n: Name): Path {
    if n == "report_base_prompt.md" then ["prompts", "report", "_post.format.md"]
    else if n == "code_base_prompt.md" then ["prompts", "code.prompt.md"]
    else if n == "report_extra_prompt.md" then ["prompts", "report", "_post.extra.md"]
    else if n == "code_extra_prompt.md" then ["prompts", "code.post.extra.md"]
    else ["shared", "auto_setup.md"]
  }

  function RoleHome(r: Name, n: Name): Path {
    if n == "report_prompt.md" then ["prompts", "report", r + ".prompt.md"]
    else if n == "code_prompt.md" then ["prompts", "code", r + ".prompt.md"]
    else if n == "report_extra_prompt.md" then ["prompts", "report", r + ".post.extra.md"]
    else if n == "code_extra_prompt.md" then ["prompts", "code", r + ".post.extra.md"]
    else ["shared", "report", r + ".md"]
  }

  /** Where what lies at an old path belongs. */
  function Home(p: Path): Path {
    if |p| == 1 then RootHome(p[0])
    else if |p| == 2 then SupervisorHome(p[1])
    else if |p| == 3 && p[0] == "roles" then RoleHome(p[1], p[2])
    else if |p| == 3 && p[0] == "prompts" then
      if p[2] == "_post.format.md" then ["prompts", "code.prompt.md"] else ["prompts", "code.post.extra.md"]
    else if |p| == 3 then ["shared", p[2]]
    else if |p| == 4 then ["shared", "report", p[2] + ".md"]
    else []
  }

  lemma Suffixes(x: Name)
    ensures SupervisorHome(x + "_prompt.md") == ["prompts", x + ".prompt.md"] || EndsWith(x, "_extra")
    ensures SupervisorHome(x + "_extra_prompt.md") == ["prompts", x + ".post.extra.md"]
  {
    var n, m := x + "_prompt.md", x + "_extra_prompt.md";
    assert n[|x|..] == "_prompt.md" && m[|x|..] == "_extra_prompt.md";
    assert n[..|x|] == x && m[..|x|] == x;
    if EndsWith(n, "_extra_prompt.md") {
      assert x[|x| - 6..] + "_prompt.md" == n[|n| - 16..];
      assert x[|x| - 6..] == "_extra_prompt.md"[..6];
    }
  }

  lemma StemHome(stem: Name, j: Job)
    requires stem in SUPERVISOR_STEMS && j in SupervisorPrompts(stem)
    ensures j.to == Home(j.from)
  {
    Suffixes(stem);
    assert stem[|stem| - 1] != 'a';
    hide SupervisorHome;
  }

  lemma BaseHome(j: Job)
    requires j in BasePrompts()
    ensures j.to == Home(j.from)
  {
  }

  lemma ArtifactHome(j: Job)
    requires j in SupervisorArtifacts()
    ensures j.to == Home(j.from)
  {
    Suffixes("report_auto_roles");
    PlainArtifacts();
    hide SupervisorHome;
  }

  lemma PlainArtifacts()
    ensures SupervisorHome("review.md") == ["shared", "review.md"] && SupervisorHome("verify.md") == ["shared", "verify.md"]
    ensures SupervisorHome("code") == ["shared", "code"]
    ensures "report_auto_roles" + "_prompt.md" == "report_auto_roles_prompt.md" && !EndsWith("report_auto_roles", "_extra")
    ensures "report_auto_roles" + ".prompt.md" == "report_auto_roles.prompt.md"
  {
    assert "report_auto_roles"[16] == 's';
  }

  lemma RoleRowHome(r: Name, j: Job)
    requires j in RoleMoves(r)
    ensures j.to == Home(j.from)
  {
  }

  lemma NestedHome(j: Job)
    requires (exists d :: j in ReportJobs(d)) || j in ActionHoists()
    requires Moves(j)
    ensures j.to == Home(j.from)
  {
  }

  /** The old paths, as far as the naming rule does not tell them by where they go. */
  predicate Known(p: Path) {
    if |p| == 1 then
      p[0] in ["report_base_prompt.md", "code_base_prompt.md", "report_extra_prompt.md", "code_extra_prompt.md", "setup_overview.md"]
    else if |p| == 2 then p[0] == "supervisor" && (EndsWith(p[1], "_prompt.md") || p[1] in ["review.md", "verify.md"])
    else if |p| == 3 && p[0] == "roles" then
      p[2] in ["report_prompt.md", "code_prompt.md", "report_extra_prompt.md", "code_extra_prompt.md", "report.md"]
    else if |p| == 3 && p[0] == "prompts" then
      p in [["prompts", "code", "_post.format.md"], ["prompts", "code", "_post.extra.md"]]
    else if |p| == 3 then p[0] == "shared" && p[1] in ["review", "verify", "auto_setup"] && p[2] == p[1] + ".md"
    else |p| == 4 && p[0] == "shared" && p[1] == "report" && p[3] in [p[2] + ".md", "report.md"]
  }

  lemma BaseKnown(j: Job)
    requires j in BasePrompts()
    ensures Known(j.from) && j.from[0] != "shared"
  {
  }

  lemma ArtifactKnown(j: Job)
    requires j in SupervisorArtifacts()
    ensures Known(j.from) && j.from[0] != "shared"
  {
    assert "report_auto_roles_prompt.md"[17..] == "_prompt.md";
  }

  lemma StemKnown(stem: Name, j: Job)
    requires j in SupervisorPrompts(stem)
    ensures Known(j.from) && j.from[0] != "shared"
  {
    var n, m := stem + "_prompt.md", stem + "_extra_prompt.md";
    assert n[|stem|..] == "_prompt.md" && m[|stem| + 6..] == "_prompt.md";
  }

  lemma RoleKnown(r: Name, j: Job)
    requires j in RoleMoves(r)
    ensures Known(j.from) && j.from[0] != "shared"
  {
  }

  lemma NestedKnown(j: Job)
    requires ((exists d :: j in ReportJobs(d)) && Moves(j)) || j in ActionHoists()
    ensures Moves(j) && Known(j.from) && j.from[0] == "shared"
  {
  }

  predicate Goes(j: Job) { (Moves(j) || j.MoveDir?) && j.to == Home(j.from) && (Moves(j) ==> j.from != [] && Known(j.from)) }

  lemma StaticGoes(j: Job)
    requires j in StaticMoves()
    ensures Goes(j) && Moves(j) && j.from[0] != "shared"
  {
    InForEach(SupervisorPrompts, SUPERVISOR_STEMS, j);
    hide BasePrompts, SupervisorPrompts, SupervisorArtifacts, Home, Known, ForEach;
    if j in BasePrompts() {
      BaseHome(j);
      BaseKnown(j);
      BaseMoves(j);
    } else if j in SupervisorArtifacts() {
      ArtifactHome(j);
      ArtifactKnown(j);
      BaseMoves(j);
    } else {
      var stem :| stem in SUPERVISOR_STEMS && j in SupervisorPrompts(stem);
      StemHome(stem, j);
      StemKnown(stem, j);
      StemMoves(stem, j);
    }
  }

  lemma BaseMoves(j: Job)
    requires j in BasePrompts() || j in SupervisorArtifacts()
    ensures j.Move? && j.from != []
  {
  }

  lemma StemMoves(stem: Name, j: Job)
    requires j in SupervisorPrompts(stem)
    ensures j.Move? && j.from != []
  {
  }

  lemma GatedGoes(rs: seq<Name>, j: Job)
    requires j in GatedJobs(rs) && (Moves(j) || j.MoveDir?)
    ensures Goes(j) && (Moves(j) ==> j.from[0] != "shared")
  {
    InForEach(RoleMoves, rs, j);
    InForEach(RoleJunk, rs, j);
    InForEach(RoleRmdir, rs, j);
    hide StaticMoves, ForEach, Home, Known;
    if j in StaticMoves() {
      StaticGoes(j);
    } else if j.MoveDir? {
      PlainArtifacts();
      CodeHome(j);
    } else {
      var r :| r in rs && j in RoleMoves(r);
      RoleRowHome(r, j);
      RoleKnown(r, j);
    }
  }

  lemma CodeHome(j: Job)
    requires j in StaticDirMoves()
    ensures j.to == Home(j.from)
  {
    PlainArtifacts();
    hide SupervisorHome;
  }

  lemma FlattenGoes(ds: seq<Name>, j: Job)
    requires j in FlattenJobs(ds) && (Moves(j) || j.MoveDir?)
    ensures Goes(j) && Moves(j) && j.from[0] == "shared"
  {
    InForEach(ReportJobs, ds, j);
    hide ForEach, Home, Known;
    NestedHome(j);
    NestedKnown(j);
  }

  lemma PassGoes(t: Tree, j: Job)
    requires j in PassJobs(t) && (Moves(j) || j.MoveDir?)
    ensures Goes(j)
  {
    hide GatedJobs, FlattenJobs, Goes;
    if j in FlattenJobs(ReportNames(t)) { FlattenGoes(ReportNames(t), j); } else { GatedGoes(RoleNames(t), j); }
  }

  lemma PassLoyal(t: Tree, q: Path)
    requires FileTarget(q)
    ensures Loyal(PassJobs(t), q)
  {
    var js := PassJobs(t);
    forall a, p | a in js && (Moves(a) || a.MoveDir?) && p in Feeds(js, q) && a.from == p ensures Moves(a) && a.to == q {
      FeedsHas(js, q, p);
      var j :| j in js && Moves(j) && j.to == q && j.from == p;
      PassGoes(t, a);
      PassGoes(t, j);
      PassInTables(t);
      assert a.MoveDir? ==> InTables(a);
      hide PassJobs, Home, Known, Feeds;
    }
  }

  /** What lies at q afterwards: what was there, or else at the first of those places, in this order. */
  predicate Arrives(t: Tree, t': Tree, q: Path, ps: seq<Path>) {
    IsDir(t, q) || First(t', [q]) == First(t, [q] + ps)
  }

  lemma PassArrives(t: Tree, q: Path, ps: seq<Path>)
    requires Root(t) && V1Layout(t).error.None? && FileTarget(q) && First(t, Feeds(PassJobs(t), q)) == First(t, ps)
    ensures Arrives(t, V1Layout(t).tree, q, ps)
  {
    PassInTables(t);
    PassLoyal(t, q);
    hide PassJobs, FileTarget, Loyal, First, Feeds;
    if !IsDir(t, q) {
      Lands(PassJobs(t), t, q);
      FirstOf(t, q, ps);
      FirstOf(t, q, Feeds(PassJobs(t), q));
    }
  }

  lemma {:induction false} FeedsConcat(a: seq<Job>, b: seq<Job>, q: Path)
    ensures Feeds(a + b, q) == Feeds(a, q) + Feeds(b, q)
  {
    if a == [] {
      assert a + b == b;
    } else {
      assert (a + b)[1..] == a[1..] + b;
      FeedsConcat(a[1..], b, q);
    }
  }

  lemma {:induction false} FirstConcat(t: Tree, a: seq<Path>, b: seq<Path>)
    ensures First(t, a + b) == if First(t, a).Some? then First(t, a) else First(t, b)
  {
    if a == [] {
      assert a + b == b;
    } else {
      assert (a + b)[1..] == a[1..] + b;
      FirstConcat(t, a[1..], b);
    }
  }

  lemma {:induction false} FirstSingle(t: Tree, fs: seq<Path>, p: Path)
    requires (forall x | x in fs :: x == p) && (p in t ==> p in fs)
    ensures First(t, fs) == First(t, [p])
  {
    NothingFirst(t, p);
    if fs != [] {
      assert fs[0] in fs && forall x | x in fs[1..] :: x in fs;
      if p !in t { FirstSingle(t, fs[1..], p); }
    }
  }

  lemma FeedsNone(t: Tree, js: seq<Job>, q: Path)
    requires forall j | j in js :: !(Moves(j) && j.to == q)
    ensures First(t, Feeds(js, q)) == None
  {
    forall x ensures x !in Feeds(js, q) { FeedsHas(js, q, x); }
    if Feeds(js, q) != [] { assert Feeds(js, q)[0] in Feeds(js, q); }
  }

  /** What the gated phases bring to q, and then what the flattening does. */
  lemma TwoParts(t: Tree, q: Path)
    ensures First(t, Feeds(PassJobs(t), q))
         == var f := First(t, Feeds(FlattenJobs(ReportNames(t)), q));
            if NeedsMigration(t) && First(t, Feeds(GatedJobs(RoleNames(t)), q)).Some?
            then First(t, Feeds(GatedJobs(RoleNames(t)), q)) else f
  {
    hide GatedJobs, FlattenJobs, Feeds, First, NeedsMigration;
    var a, b := GatedJobs(RoleNames(t)), FlattenJobs(ReportNames(t));
    FeedsConcat(a, b, q);
    FirstConcat(t, Feeds(a, q), Feeds(b, q));
  }

  /** At most one gated source. */
  lemma GatedSingle(t: Tree, q: Path, p: Path)
    requires forall j | j in GatedJobs(RoleNames(t)) && Moves(j) && j.to == q :: j.from == p
    requires p in t ==> NeedsMigration(t) && exists j :: j in GatedJobs(RoleNames(t)) && Moves(j) && j.to == q && j.from == p
    ensures First(t, if NeedsMigration(t) then Feeds(GatedJobs(RoleNames(t)), q) else []) == First(t, [p])
  {
    hide GatedJobs, Feeds, First, NeedsMigration;
    var js := GatedJobs(RoleNames(t));
    forall x | x in Feeds(js, q) ensures x == p { FeedsHas(js, q, x); }
    FeedsHas(js, q, p);
    NothingFirst(t, p);
    if NeedsMigration(t) { FirstSingle(t, Feeds(js, q), p); }
  }

  lemma NothingFirst(t: Tree, p: Path)
    ensures First(t, []) == None && First(t, [p]) == if p in t then Some(t[p]) else None
  {
    FirstOf(t, p, []);
    assert [p] + [] == [p];
  }

  lemma OneSource(t: Tree, q: Path, p: Path)
    requires forall j | j in PassJobs(t) && Moves(j) && j.to == q :: j.from == p
    requires p in t ==> exists j :: j in PassJobs(t) && Moves(j) && j.to == q && j.from == p
    ensures First(t, Feeds(PassJobs(t), q)) == First(t, [p])
  {
    hide PassJobs, Feeds, First, Moves;
    var js := PassJobs(t);
    forall x | x in Feeds(js, q) ensures x == p { FeedsHas(js, q, x); }
    FeedsHas(js, q, p);
    FirstSingle(t, Feeds(js, q), p);
  }

  /** An old path in the tree opens the gate. */
  lemma OldOpensGate(t: Tree, p: Path)
    requires WellFormed(t) && p in t && p != []
    requires p[0] == "roles" || p[0] == "supervisor" || p in INDICATORS
    ensures NeedsMigration(t)
  {
    assert INDICATORS[0] == ["roles"] && INDICATORS[1] == ["supervisor"];
    assert p[..1] == [p[0]];
    Ancestor(t, p[..1], p);
  }

  lemma GatedRuns(t: Tree, j: Job, p: Path)
    requires WellFormed(t) && p in t && p != [] && (p[0] == "roles" || p[0] == "supervisor" || p in INDICATORS)
    requires j in GatedJobs(RoleNames(t))
    ensures j in PassJobs(t)
  {
    OldOpensGate(t, p);
    hide GatedJobs, FlattenJobs, NeedsMigration;
  }

  lemma RoleJob(t: Tree, r: Name, j: Job)
    requires WellFormed(t) && j in RoleMoves(r) && j.from in t
    ensures j in PassJobs(t)
  {
    RoleRowBelow(r, j);
    Ancestor(t, RoleDir(r), j.from);
    NamesAreDirs(t, r);
    InForEach(RoleMoves, RoleNames(t), j);
    RoleIsGated(RoleNames(t), j);
    hide *;
    GatedRuns(t, j, j.from);
  }

  lemma RoleRowBelow(r: Name, j: Job)
    requires j in RoleMoves(r)
    ensures RoleDir(r) <= j.from && j.from[..2] == RoleDir(r) && j.from[0] == "roles"
  {
  }

  lemma RoleIsGated(rs: seq<Name>, j: Job)
    requires j in ForEach(RoleMoves, rs)
    ensures j in GatedJobs(rs)
  {
    hide ForEach;
  }

  /** Only a role's own file goes to a role's prompt. */
  lemma RolePromptHome(p: Path, r: Name)
    requires p != [] && Known(p)
    ensures Home(p) == ["prompts", "report", r + ".prompt.md"] ==> p == ["roles", r, "report_prompt.md"]
    ensures Home(p) == ["prompts", "code", r + ".prompt.md"] ==> p == ["roles", r, "code_prompt.md"]
    ensures Home(p) == ["prompts", "report", r + ".post.extra.md"] ==> p == ["roles", r, "report_extra_prompt.md"]
    ensures Home(p) == ["prompts", "code", r + ".post.extra.md"] ==> p == ["roles", r, "code_extra_prompt.md"]
  {
    RoleNamesDiffer(r);
    if |p| == 3 && p[0] == "roles" { RoleHomes(p[1], r, p[2]); }
    hide RoleHome, SupervisorHome;
  }

  lemma RoleNamesDiffer(r: Name)
    ensures r + ".prompt.md" != "_post.format.md" && r + ".prompt.md" != "_post.extra.md"
    ensures r + ".post.extra.md" != "_post.format.md" && r + ".post.extra.md" != "_post.extra.md"
  {
    PromptKind(r);
    ExtraKind(r);
    SubdirectoryKinds();
  }

  lemma RoleHomes(s: Name, r: Name, n: Name)
    ensures RoleHome(s, n) == ["prompts", "report", r + ".prompt.md"] ==> s == r && n == "report_prompt.md"
    ensures RoleHome(s, n) == ["prompts", "code", r + ".prompt.md"] ==> s == r && n == "code_prompt.md"
    ensures RoleHome(s, n) == ["prompts", "report", r + ".post.extra.md"] ==> s == r && n == "report_extra_prompt.md"
    ensures RoleHome(s, n) == ["prompts", "code", r + ".post.extra.md"] ==> s == r && n == "code_extra_prompt.md"
  {
    SuffixTells(s, r);
    SuffixTells(r, s);
  }

  lemma SuffixTells(s: Name, r: Name)
    ensures s + ".prompt.md" == r + ".prompt.md" ==> s == r
    ensures s + ".post.extra.md" == r + ".post.extra.md" ==> s == r
    ensures s + ".prompt.md" != r + ".post.extra.md"
    ensures s + ".md" == r + ".md" ==> s == r
  {
    var a, b, c, d := s + ".prompt.md", r + ".prompt.md", s + ".post.extra.md", r + ".post.extra.md";
    assert a[..|a| - 10] == s && b[..|b| - 10] == r && c[..|c| - 14] == s && d[..|d| - 14] == r;
    assert a[|a| - 4] == 't' && d[|d| - 4] == 'a';
    assert (s + ".md")[..|s + ".md"| - 3] == s && (r + ".md")[..|r + ".md"| - 3] == r;
  }

  lemma RoleTargets(r: Name)
    ensures FileTarget(["prompts", "report", r + ".prompt.md"]) && FileTarget(["prompts", "code", r + ".prompt.md"])
    ensures FileTarget(["prompts", "report", r + ".post.extra.md"]) && FileTarget(["prompts", "code", r + ".post.extra.md"])
    ensures FileTarget(["shared", "report", r + ".md"])
  {
    TemplatedKinds(r);
    DirectoryKinds();
    SubdirectoryKinds();
    NotTheCodeDir(["prompts", "report", r + ".prompt.md"]);
    NotTheCodeDir(["prompts", "code", r + ".prompt.md"]);
    NotTheCodeDir(["prompts", "report", r + ".post.extra.md"]);
    NotTheCodeDir(["prompts", "code", r + ".post.extra.md"]);
    NotTheCodeDir(["shared", "report", r + ".md"]);
    hide KindOf;
  }

  lemma NotTheCodeDir(q: Path)
    requires |q| >= 2 && (q[0] == "prompts" || q[1] == "report" || |q[1]| > 4)
    ensures !(["shared", "code"] <= q)
  {
    if ["shared", "code"] <= q { PrefixEntries(["shared", "code"], q); }
  }

  lemma RoleRowArrives(t: Tree, r: Name, j: Job)
    requires Root(t) && V1Layout(t).error.None? && j in RoleMoves(r) && j.from[2] != "report.md"
    ensures Arrives(t, V1Layout(t).tree, j.to, [j.from])
  {
    var p, q := j.from, j.to;
    RoleRowIs(r, j);
    RoleTargets(r);
    RootIsTree(t);
    if p in t { RoleJob(t, r, j); }
    hide *;
    forall k | k in PassJobs(t) && Moves(k) && k.to == q ensures k.from == p { RoleRowAlone(t, r, p, q, k); }
    OneSource(t, q, p);
    PassArrives(t, q, [p]);
  }

  /** The four rows of a role's prompts. */
  predicate RolePromptRow(r: Name, p: Path, q: Path) {
    || (p == ["roles", r, "report_prompt.md"] && q == ["prompts", "report", r + ".prompt.md"])
    || (p == ["roles", r, "code_prompt.md"] && q == ["prompts", "code", r + ".prompt.md"])
    || (p == ["roles", r, "report_extra_prompt.md"] && q == ["prompts", "report", r + ".post.extra.md"])
    || (p == ["roles", r, "code_extra_prompt.md"] && q == ["prompts", "code", r + ".post.extra.md"])
  }

  lemma RoleRowIs(r: Name, j: Job)
    requires j in RoleMoves(r) && j.from[2] != "report.md"
    ensures Moves(j) && RolePromptRow(r, j.from, j.to)
    ensures FileTarget(j.to)
  {
    RoleTargets(r);
    hide FileTarget;
  }

  lemma RoleRowAlone(t: Tree, r: Name, p: Path, q: Path, k: Job)
    requires RolePromptRow(r, p, q) && k in PassJobs(t) && Moves(k) && k.to == q
    ensures k.from == p
  {
    PassGoes(t, k);
    RolePromptHome(k.from, r);
    hide PassJobs, Home, Known;
  }

  /** The four prompts of a role, each under its own name. */
  lemma RolePromptsArrive(t: Tree, r: Name)
    requires Root(t) && V1Layout(t).error.None?
    ensures var t' := V1Layout(t).tree;
      && Arrives(t, t', ["prompts", "report", r + ".prompt.md"], [["roles", r, "report_prompt.md"]])
      && Arrives(t, t', ["prompts", "code", r + ".prompt.md"], [["roles", r, "code_prompt.md"]])
      && Arrives(t, t', ["prompts", "report", r + ".post.extra.md"], [["roles", r, "report_extra_prompt.md"]])
      && Arrives(t, t', ["prompts", "code", r + ".post.extra.md"], [["roles", r, "code_extra_prompt.md"]])
  {
    hide V1Layout, Arrives, Root;
    RoleRowArrives(t, r, RoleMoves(r)[0]);
    RoleRowArrives(t, r, RoleMoves(r)[1]);
    RoleRowArrives(t, r, RoleMoves(r)[2]);
    RoleRowArrives(t, r, RoleMoves(r)[3]);
  }

  /* ---- the supervisor's files ---- */

  lemma SupervisorPromptHome(p: Path, x: Name)
    requires p != [] && Known(p) && x != "code"
    ensures Home(p) == ["prompts", x + ".prompt.md"] ==> p == ["supervisor", x + "_prompt.md"]
    ensures Home(p) == ["prompts", x + ".post.extra.md"] ==> p == ["supervisor", x + "_extra_prompt.md"]
  {
    CodePromptNames(x);
    if |p| == 2 {
      var n := p[1];
      if EndsWith(n, "_extra_prompt.md") {
        SuffixTells(Without(n, "_extra_prompt.md"), x);
        SuffixTells(x, Without(n, "_extra_prompt.md"));
        assert n == Without(n, "_extra_prompt.md") + "_extra_prompt.md";
      } else if EndsWith(n, "_prompt.md") {
        SuffixTells(Without(n, "_prompt.md"), x);
        assert n == Without(n, "_prompt.md") + "_prompt.md";
      }
    }
    hide RoleHome, EndsWith, Without;
  }

  lemma CodePromptNames(x: Name)
    requires x != "code"
    ensures x + ".prompt.md" != "code.prompt.md" && x + ".post.extra.md" != "code.post.extra.md"
    ensures x + ".prompt.md" != "code.post.extra.md" && x + ".post.extra.md" != "code.prompt.md"
  {
    SuffixTells(x, "code");
    SuffixTells("code", x);
    assert "code" + ".prompt.md" == "code.prompt.md" && "code" + ".post.extra.md" == "code.post.extra.md";
  }

  lemma StemJob(t: Tree, x: Name, j: Job)
    requires WellFormed(t) && x in SUPERVISOR_STEMS && j in SupervisorPrompts(x) && j.from in t
    ensures j in PassJobs(t)
  {
    InForEach(SupervisorPrompts, SUPERVISOR_STEMS, j);
    assert j.from[0] == "supervisor" && j in GatedJobs(RoleNames(t));
    hide PassJobs, GatedJobs, NeedsMigration, RoleNames;
    GatedRuns(t, j, j.from);
  }

  lemma ArtifactJob(t: Tree, j: Job)
    requires WellFormed(t) && (j in SupervisorArtifacts() || j in BasePrompts()) && j.from in t
    ensures j in PassJobs(t)
  {
    ArtifactOpens(j);
    assert j in GatedJobs(RoleNames(t));
    hide PassJobs, GatedJobs, NeedsMigration, RoleNames, SupervisorArtifacts, BasePrompts;
    GatedRuns(t, j, j.from);
  }

  lemma ArtifactOpens(j: Job)
    requires j in SupervisorArtifacts() || j in BasePrompts()
    ensures j.from != [] && (j.from[0] == "supervisor" || j.from in INDICATORS)
  {
    assert INDICATORS[2] in INDICATORS && INDICATORS[3] in INDICATORS && INDICATORS[4] in INDICATORS;
    assert INDICATORS[5] in INDICATORS && INDICATORS[6] in INDICATORS && INDICATORS[7] in INDICATORS && INDICATORS[8] in INDICATORS;
  }

  lemma PromptTargets(x: Name)
    ensures FileTarget(["prompts", x + ".prompt.md"]) && FileTarget(["prompts", x + ".post.extra.md"])
  {
    TemplatedKinds(x);
    DirectoryKinds();
    NotTheCodeDir(["prompts", x + ".prompt.md"]);
    NotTheCodeDir(["prompts", x + ".post.extra.md"]);
    hide KindOf;
  }

  lemma StemRowArrives(t: Tree, x: Name, p: Path, q: Path)
    requires Root(t) && V1Layout(t).error.None? && x != "code"
    requires (p == ["supervisor", x + "_prompt.md"] && q == ["prompts", x + ".prompt.md"])
          || (p == ["supervisor", x + "_extra_prompt.md"] && q == ["prompts", x + ".post.extra.md"])
    requires p in t ==> exists j :: j in PassJobs(t) && Moves(j) && j.to == q && j.from == p
    ensures Arrives(t, V1Layout(t).tree, q, [p])
  {
    forall k | k in PassJobs(t) && Moves(k) && k.to == q ensures k.from == p {
      PassGoes(t, k);
      SupervisorPromptHome(k.from, x);
    }
    PromptTargets(x);
    hide PassJobs, FileTarget, Arrives, V1Layout, Root, First, Feeds, Home, Known;
    OneSource(t, q, p);
    PassArrives(t, q, [p]);
  }

  /** supervisor/X_prompt.md becomes prompts/X.prompt.md, and supervisor/X_extra_prompt.md prompts/X.post.extra.md. */
  lemma SupervisorPromptsArrive(t: Tree, x: Name)
    requires Root(t) && V1Layout(t).error.None?
    requires x in ["review", "code_management", "code_verify", "auto_setup", "exec_debug", "report_commissioning"]
    ensures var t' := V1Layout(t).tree;
      && Arrives(t, t', ["prompts", x + ".prompt.md"], [["supervisor", x + "_prompt.md"]])
      && Arrives(t, t', ["prompts", x + ".post.extra.md"], [["supervisor", x + "_extra_prompt.md"]])
  {
    var a, b := SupervisorPrompts(x)[0], SupervisorPrompts(x)[1];
    assert a in SupervisorPrompts(x) && b in SupervisorPrompts(x) && |x| != 4;
    hide V1Layout, Arrives, PassJobs;
    if a.from in t { StemJob(t, x, a); }
    if b.from in t { StemJob(t, x, b); }
    hide Root;
    StemRowArrives(t, x, a.from, a.to);
    StemRowArrives(t, x, b.from, b.to);
  }

  lemma AutoRolesArrives(t: Tree)
    requires Root(t) && V1Layout(t).error.None?
    ensures Arrives(t, V1Layout(t).tree, ["prompts", "report_auto_roles.prompt.md"], [["supervisor", "report_auto_roles_prompt.md"]])
  {
    var j := SupervisorArtifacts()[0];
    assert j in SupervisorArtifacts();
    PlainArtifacts();
    hide V1Layout, Arrives, PassJobs;
    if j.from in t { ArtifactJob(t, j); }
    hide Root;
    StemRowArrives(t, "report_auto_roles", j.from, j.to);
  }

  /* ---- the files at the root and below prompts/code ---- */

  lemma ReportBaseHome(p: Path)
    requires p != [] && Known(p)
    ensures Home(p) == ["prompts", "report", "_post.format.md"] ==> p == ["report_base_prompt.md"]
    ensures Home(p) == ["prompts", "report", "_post.extra.md"] ==> p == ["report_extra_prompt.md"]
  {
    if |p| == 3 && p[0] == "roles" { RoleNamesDiffer(p[1]); }
    hide SupervisorHome;
  }

  lemma ReportBaseTargets()
    ensures FileTarget(["prompts", "report", "_post.format.md"]) && FileTarget(["prompts", "report", "_post.extra.md"])
    ensures FileTarget(["prompts", "code.prompt.md"]) && FileTarget(["prompts", "code.post.extra.md"])
  {
    hide KindOf;
    DirectoryKinds();
    SubdirectoryKinds();
    CodePromptTargets();
    NotTheCodeDir(["prompts", "report", "_post.format.md"]);
    NotTheCodeDir(["prompts", "report", "_post.extra.md"]);
  }

  lemma CodePromptTargets()
    ensures FileTarget(["prompts", "code.prompt.md"]) && FileTarget(["prompts", "code.post.extra.md"])
  {
    assert "code" + ".prompt.md" == "code.prompt.md" && "code" + ".post.extra.md" == "code.post.extra.md";
    PromptTargets("code");
    hide *;
  }

  lemma ReportBaseRowArrives(t: Tree, j: Job)
    requires Root(t) && V1Layout(t).error.None? && (j == BasePrompts()[0] || j == BasePrompts()[2])
    ensures Arrives(t, V1Layout(t).tree, j.to, [j.from])
  {
    forall k | k in PassJobs(t) && Moves(k) && k.to == j.to ensures k.from == j.from {
      PassGoes(t, k);
      ReportBaseHome(k.from);
    }
    assert j in BasePrompts();
    if j.from in t { ArtifactJob(t, j); }
    ReportBaseTargets();
    hide PassJobs, FileTarget, Arrives, V1Layout, Root, First, Feeds, Home, Known;
    OneSource(t, j.to, j.from);
    PassArrives(t, j.to, [j.from]);
  }

  /** The gated jobs after the first six. */
  function LaterGated(rs: seq<Name>): seq<Job> {
    (ForEach(SupervisorPrompts, SUPERVISOR_STEMS) + SupervisorArtifacts()) + StaticDirMoves()
    + [List(ROLES)] + ForEach(RoleMoves, rs)
    + ForEach(RoleJunk, rs) + SupervisorJunk() + ForEach(RoleRmdir, rs) + FinalRmdirs()
  }

  lemma BaseFirst(rs: seq<Name>)
    ensures GatedJobs(rs) == BasePrompts() + LaterGated(rs)
  {
    hide BasePrompts, SupervisorPrompts, SupervisorArtifacts, StaticDirMoves, RoleMoves, RoleJunk, RoleRmdir, SupervisorJunk, ForEach, FinalRmdirs;
  }

  lemma StemsAreNotCode(x: Name, j: Job)
    requires (x in SUPERVISOR_STEMS && j in SupervisorPrompts(x)) || j in SupervisorArtifacts()
    ensures j.to !in [["prompts", "code.prompt.md"], ["prompts", "code.post.extra.md"]]
  {
    if x in SUPERVISOR_STEMS && j in SupervisorPrompts(x) {
      assert |x| != 4;
      CodePromptNames(x);
    }
  }

  lemma LaterIsNotCode(rs: seq<Name>, j: Job)
    requires j in LaterGated(rs) && Moves(j)
    ensures j.to !in [["prompts", "code.prompt.md"], ["prompts", "code.post.extra.md"]]
  {
    InForEach(SupervisorPrompts, SUPERVISOR_STEMS, j);
    InForEach(RoleMoves, rs, j);
    InForEach(RoleJunk, rs, j);
    InForEach(RoleRmdir, rs, j);
    hide ForEach, SupervisorPrompts, SupervisorArtifacts;
    if j in SupervisorArtifacts() {
      StemsAreNotCode("", j);
    } else if x :| x in SUPERVISOR_STEMS && j in SupervisorPrompts(x) {
      StemsAreNotCode(x, j);
    } else {
      assert |j.to| == 3;
    }
  }

  lemma FlattenIsNotCode(ds: seq<Name>, j: Job)
    requires j in FlattenJobs(ds) && Moves(j)
    ensures j.to !in [["prompts", "code.prompt.md"], ["prompts", "code.post.extra.md"]]
  {
    InForEach(ReportJobs, ds, j);
    hide ForEach;
  }

  lemma BaseFeeds()
    ensures Feeds(BasePrompts(), ["prompts", "code.prompt.md"]) == [["code_base_prompt.md"], ["prompts", "code", "_post.format.md"]]
    ensures Feeds(BasePrompts(), ["prompts", "code.post.extra.md"]) == [["code_extra_prompt.md"], ["prompts", "code", "_post.extra.md"]]
  {
    var b := BasePrompts();
    SixFeeds(b, ["prompts", "code.prompt.md"]);
    SixFeeds(b, ["prompts", "code.post.extra.md"]);
    hide Feeds;
  }

  function Fed(j: Job, q: Path): seq<Path> { if Moves(j) && j.to == q then [j.from] else [] }

  lemma FeedsStep(b: seq<Job>, k: nat, q: Path, rest: seq<Path>)
    requires k < |b| && Feeds(b[k + 1..], q) == rest
    ensures Feeds(b[k..], q) == Fed(b[k], q) + rest
  {
    assert b[k..][1..] == b[k + 1..];
  }

  lemma SixFeeds(b: seq<Job>, q: Path)
    requires |b| == 6
    ensures Feeds(b, q) == Fed(b[0], q) + (Fed(b[1], q) + (Fed(b[2], q) + (Fed(b[3], q) + (Fed(b[4], q) + (Fed(b[5], q) + [])))))
  {
    assert b[6..] == [] && b[0..] == b && Feeds([], q) == [];
    hide *;
    var s: seq<Path> := [];
    FeedsStep(b, 5, q, s);
    s := Fed(b[5], q) + s;
    FeedsStep(b, 4, q, s);
    s := Fed(b[4], q) + s;
    FeedsStep(b, 3, q, s);
    s := Fed(b[3], q) + s;
    FeedsStep(b, 2, q, s);
    s := Fed(b[2], q) + s;
    FeedsStep(b, 1, q, s);
    s := Fed(b[1], q) + s;
    FeedsStep(b, 0, q, s);
  }

  lemma OnlyBaseFeeds(t: Tree, q: Path)
    requires q in [["prompts", "code.prompt.md"], ["prompts", "code.post.extra.md"]]
    ensures First(t, Feeds(LaterGated(RoleNames(t)), q)) == None && First(t, Feeds(FlattenJobs(ReportNames(t)), q)) == None
  {
    var rs, ds := RoleNames(t), ReportNames(t);
    hide LaterGated, FlattenJobs, RoleNames, ReportNames, Feeds, First;
    forall j | j in LaterGated(rs) ensures !(Moves(j) && j.to == q) { if Moves(j) { LaterIsNotCode(rs, j); } }
    forall j | j in FlattenJobs(ds) ensures !(Moves(j) && j.to == q) { if Moves(j) { FlattenIsNotCode(ds, j); } }
    FeedsNone(t, LaterGated(rs), q);
    FeedsNone(t, FlattenJobs(ds), q);
  }

  lemma RootIsTree(t: Tree)
    requires Root(t)
    ensures WellFormed(t)
  {
  }

  lemma CodeBaseRowArrives(t: Tree, q: Path, p1: Path, p2: Path)
    requires Root(t) && V1Layout(t).error.None? && Feeds(BasePrompts(), q) == [p1, p2]
    requires q in [["prompts", "code.prompt.md"], ["prompts", "code.post.extra.md"]] && p1 in INDICATORS && p2 in INDICATORS
    requires p1 != [] && p2 != []
    ensures Arrives(t, V1Layout(t).tree, q, [p1, p2])
  {
    hide *;
    var rs := RoleNames(t);
    RootIsTree(t);
    ReportBaseTargets();
    BaseFirst(rs);
    OnlyBaseFeeds(t, q);
    if p1 in t { OldOpensGate(t, p1); }
    if p2 in t { OldOpensGate(t, p2); }
    FeedsConcat(BasePrompts(), LaterGated(rs), q);
    FirstConcat(t, [p1, p2], Feeds(LaterGated(rs), q));
    TwoParts(t, q);
    TwoOf(t, p1, p2);
    PassArrives(t, q, [p1, p2]);
  }

  lemma TwoOf(t: Tree, p1: Path, p2: Path)
    ensures First(t, [p1, p2]) == if p1 in t then Some(t[p1]) else if p2 in t then Some(t[p2]) else None
  {
    FirstOf(t, p1, [p2]);
    FirstOf(t, p2, []);
    assert [p1] + [p2] == [p1, p2] && [p2] + [] == [p2];
  }

  /** The base prompts; code's two have an older and a newer source each, and the older one wins. */
  lemma BasePromptsArrive(t: Tree)
    requires Root(t) && V1Layout(t).error.None?
    ensures var t' := V1Layout(t).tree;
      && Arrives(t, t', ["prompts", "report", "_post.format.md"], [["report_base_prompt.md"]])
      && Arrives(t, t', ["prompts", "report", "_post.extra.md"], [["report_extra_prompt.md"]])
      && Arrives(t, t', ["prompts", "code.prompt.md"], [["code_base_prompt.md"], ["prompts", "code", "_post.format.md"]])
      && Arrives(t, t', ["prompts", "code.post.extra.md"], [["code_extra_prompt.md"], ["prompts", "code", "_post.extra.md"]])
  {
    BaseFeeds();
    var i := INDICATORS;
    assert i[3] in i && i[5] in i && i[7] in i && i[8] in i;
    hide V1Layout, Arrives, Root, Feeds;
    ReportBaseRowArrives(t, BasePrompts()[0]);
    ReportBaseRowArrives(t, BasePrompts()[2]);
    CodeBaseRowArrives(t, ["prompts", "code.prompt.md"], ["code_base_prompt.md"], ["prompts", "code", "_post.format.md"]);
    CodeBaseRowArrives(t, ["prompts", "code.post.extra.md"], ["code_extra_prompt.md"], ["prompts", "code", "_post.extra.md"]);
  }

  /* ---- the shared artifacts and the reports ---- */

  lemma SharedArrives(t: Tree, q: Path, p: Path, ps: seq<Path>)
    requires Root(t) && V1Layout(t).error.None? && FileTarget(q)
    requires First(t, if NeedsMigration(t) then Feeds(GatedJobs(RoleNames(t)), q) else []) == First(t, [p])
    requires First(t, Feeds(FlattenJobs(ReportNames(t)), q)) == First(t, ps)
    ensures Arrives(t, V1Layout(t).tree, q, [p] + ps)
  {
    NothingFirst(t, p);
    hide *;
    TwoParts(t, q);
    FirstConcat(t, [p], ps);
    PassArrives(t, q, [p] + ps);
  }

  /** Where the artifact of an action was kept by the first layout. */
  function FirstArtifact(a: Name): Path {
    if a == "auto_setup" then ["setup_overview.md"] else ["supervisor", a + ".md"]
  }

  lemma ArtifactNames()
    ensures "review" + ".md" == "review.md" && "verify" + ".md" == "verify.md" && "auto_setup" + ".md" == "auto_setup.md"
  {
  }

  lemma ArtifactSource(p: Path, a: Name)
    requires p != [] && Known(p) && a in ["review", "verify", "auto_setup"] && Home(p) == ["shared", a + ".md"]
    ensures p[0] != "shared" ==> p == FirstArtifact(a)
    ensures p[0] == "shared" ==> p == ["shared", a, a + ".md"]
  {
    ArtifactNames();
    if |p| == 3 && p[0] == "shared" { SuffixTells(p[1], a); }
    hide RoleHome, Without;
  }

  lemma ArtifactTarget(a: Name)
    requires a in ["review", "verify", "auto_setup"]
    ensures FileTarget(["shared", a + ".md"])
  {
    TemplatedKinds(a);
    DirectoryKinds();
    NotTheCodeDir(["shared", a + ".md"]);
    hide KindOf;
  }

  lemma ArtifactGated(t: Tree, a: Name)
    requires WellFormed(t) && a in ["review", "verify", "auto_setup"]
    ensures First(t, if NeedsMigration(t) then Feeds(GatedJobs(RoleNames(t)), ["shared", a + ".md"]) else [])
         == First(t, [FirstArtifact(a)])
  {
    var q, p := ["shared", a + ".md"], FirstArtifact(a);
    forall j | j in GatedJobs(RoleNames(t)) && Moves(j) && j.to == q ensures j.from == p {
      GatedGoes(RoleNames(t), j);
      ArtifactSource(j.from, a);
    }
    var j := ArtifactJobOf(a);
    assert j in GatedJobs(RoleNames(t));
    if p in t {
      ArtifactOpens(j);
      OldOpensGate(t, p);
    }
    hide *;
    GatedSingle(t, q, p);
  }

  lemma ArtifactJobOf(a: Name) returns (j: Job)
    requires a in ["review", "verify", "auto_setup"]
    ensures j in SupervisorArtifacts() && Moves(j) && j.to == ["shared", a + ".md"] && j.from == FirstArtifact(a)
  {
    var js := SupervisorArtifacts();
    j := if a == "review" then js[1] else if a == "verify" then js[2] else js[3];
    ArtifactNames();
    assert j in js;
  }

  lemma ArtifactFlat(t: Tree, a: Name)
    requires a in ["review", "verify", "auto_setup"]
    ensures First(t, Feeds(FlattenJobs(ReportNames(t)), ["shared", a + ".md"])) == First(t, [["shared", a, a + ".md"]])
  {
    var q, p, js := ["shared", a + ".md"], ["shared", a, a + ".md"], FlattenJobs(ReportNames(t));
    assert ActionHoist(a) in ActionHoists() && ActionHoist(a) in js;
    forall x | x in Feeds(js, q) ensures x == p {
      FeedsHas(js, q, x);
      var j :| j in js && Moves(j) && j.to == q && j.from == x;
      FlattenGoes(ReportNames(t), j);
      ArtifactSource(x, a);
    }
    FeedsHas(js, q, p);
    hide *;
    FirstSingle(t, Feeds(js, q), p);
  }

  /** review, verify and auto_setup keep their names directly below shared/; the oldest place they were kept wins. */
  lemma ArtifactsArrive(t: Tree)
    requires Root(t) && V1Layout(t).error.None?
    ensures var t' := V1Layout(t).tree;
      && Arrives(t, t', ["shared", "review.md"], [["supervisor", "review.md"], ["shared", "review", "review.md"]])
      && Arrives(t, t', ["shared", "verify.md"], [["supervisor", "verify.md"], ["shared", "verify", "verify.md"]])
      && Arrives(t, t', ["shared", "auto_setup.md"], [["setup_overview.md"], ["shared", "auto_setup", "auto_setup.md"]])
  {
    ArtifactNames();
    ArtifactRowArrives(t, "review");
    ArtifactRowArrives(t, "verify");
    ArtifactRowArrives(t, "auto_setup");
    hide Arrives, V1Layout, Root;
  }

  lemma ArtifactRowArrives(t: Tree, a: Name)
    requires Root(t) && V1Layout(t).error.None? && a in ["review", "verify", "auto_setup"]
    ensures Arrives(t, V1Layout(t).tree, ["shared", a + ".md"], [FirstArtifact(a), ["shared", a, a + ".md"]])
  {
    RootIsTree(t);
    ArtifactTarget(a);
    hide *;
    ArtifactGated(t, a);
    ArtifactFlat(t, a);
    SharedArrives(t, ["shared", a + ".md"], FirstArtifact(a), [["shared", a, a + ".md"]]);
    assert [FirstArtifact(a)] + [["shared", a, a + ".md"]] == [FirstArtifact(a), ["shared", a, a + ".md"]];
  }

  lemma ReportGated(t: Tree, d: Name)
    requires WellFormed(t)
    ensures First(t, if NeedsMigration(t) then Feeds(GatedJobs(RoleNames(t)), ["shared", "report", d + ".md"]) else [])
         == First(t, [["roles", d, "report.md"]])
  {
    var q, p := ["shared", "report", d + ".md"], ["roles", d, "report.md"];
    forall j | j in GatedJobs(RoleNames(t)) && Moves(j) && j.to == q ensures j.from == p {
      GatedGoes(RoleNames(t), j);
      RoleReportSource(j.from, d);
    }
    if p in t {
      RoleReportJob(t, d);
      OldOpensGate(t, p);
    }
    hide *;
    GatedSingle(t, q, p);
  }

  lemma RoleReportSource(p: Path, d: Name)
    requires p != [] && Known(p) && p[0] != "shared" && Home(p) == ["shared", "report", d + ".md"]
    ensures p == ["roles", d, "report.md"]
  {
    if |p| == 3 { SuffixTells(p[1], d); }
    hide SupervisorHome;
  }

  lemma RoleReportJob(t: Tree, d: Name)
    requires WellFormed(t) && ["roles", d, "report.md"] in t
    ensures exists j :: j in GatedJobs(RoleNames(t)) && Moves(j) && j.to == ["shared", "report", d + ".md"] && j.from == ["roles", d, "report.md"]
  {
    var j := RoleMoves(d)[4];
    assert j in RoleMoves(d) && j.from[..2] == RoleDir(d);
    Ancestor(t, RoleDir(d), j.from);
    NamesAreDirs(t, d);
    InForEach(RoleMoves, RoleNames(t), j);
    hide RoleMoves, RoleNames, ForEach;
    assert j in GatedJobs(RoleNames(t));
  }

  /** One directory's two reports, its own name first. */
  lemma NestedFeeds(e: Name, d: Name)
    ensures Feeds(ReportJobs(e), ["shared", "report", d + ".md"])
         == if e == d then [["shared", "report", d, d + ".md"], ["shared", "report", d, "report.md"]] else []
  {
    var q, js := ["shared", "report", d + ".md"], ReportJobs(e);
    SuffixTells(e, d);
    assert q[2] == d + ".md" && js[0].to[2] == e + ".md";
    assert js[1..][1..] == [js[2]] && js[2..][1..] == [];
    assert Feeds([js[2]], q) == [] by { assert [js[2]][1..] == []; }
    assert Feeds(js[1..], q) == Fed(js[1], q) + [];
    assert Feeds(js, q) == Fed(js[0], q) + Feeds(js[1..], q);
  }

  lemma {:induction false} ReportsFirst(t: Tree, ds: seq<Name>, d: Name)
    ensures First(t, Feeds(ForEach(ReportJobs, ds), ["shared", "report", d + ".md"]))
         == if d in ds then First(t, [["shared", "report", d, d + ".md"], ["shared", "report", d, "report.md"]]) else None
  {
    var q := ["shared", "report", d + ".md"];
    if ds != [] {
      hide ReportJobs, First, Feeds;
      ReportsFirst(t, ds[1..], d);
      NestedFeeds(ds[0], d);
      var two := Feeds(ReportJobs(ds[0]), q);
      FeedsConcat(ReportJobs(ds[0]), ForEach(ReportJobs, ds[1..]), q);
      FirstConcat(t, two, Feeds(ForEach(ReportJobs, ds[1..]), q));
      NothingFirst(t, q);
    }
  }

  lemma ReportFlat(t: Tree, d: Name)
    requires WellFormed(t)
    ensures First(t, Feeds(FlattenJobs(ReportNames(t)), ["shared", "report", d + ".md"]))
         == First(t, [["shared", "report", d, d + ".md"], ["shared", "report", d, "report.md"]])
  {
    var q, ds := ["shared", "report", d + ".md"], ReportNames(t);
    var p1, p2 := ["shared", "report", d, d + ".md"], ["shared", "report", d, "report.md"];
    ReportsFirst(t, ds, d);
    TwoOf(t, p1, p2);
    NamesAreDirs(t, d);
    assert p1[..3] == ReportDir(d) && p2[..3] == ReportDir(d);
    if p1 in t { Ancestor(t, ReportDir(d), p1); }
    if p2 in t { Ancestor(t, ReportDir(d), p2); }
    forall j | j in ActionHoists() ensures !(Moves(j) && j.to == q) { assert |j.to| == 2; }
    FeedsNone(t, ActionHoists(), q);
    ListFeedsNothing(q);
    hide *;
    var all := ForEach(ReportJobs, ds);
    FlattenIs(ds);
    FeedsConcat([List(REPORTS)] + all, ActionHoists(), q);
    FeedsConcat([List(REPORTS)], all, q);
    assert [] + Feeds(all, q) == Feeds(all, q);
    FirstConcat(t, Feeds(all, q), Feeds(ActionHoists(), q));
  }

  lemma FlattenIs(ds: seq<Name>)
    ensures FlattenJobs(ds) == [List(REPORTS)] + ForEach(ReportJobs, ds) + ActionHoists()
  {
  }

  lemma ListFeedsNothing(q: Path)
    ensures Feeds([List(REPORTS)], q) == []
  {
    assert [List(REPORTS)][1..] == [];
  }

  /** A role's report: the role's own, then the two names it may have below shared/report/<role>/. */
  lemma ReportArrives(t: Tree, d: Name)
    requires Root(t) && V1Layout(t).error.None?
    ensures Arrives(t, V1Layout(t).tree, ["shared", "report", d + ".md"],
                    [["roles", d, "report.md"], ["shared", "report", d, d + ".md"], ["shared", "report", d, "report.md"]])
  {
    RootIsTree(t);
    RoleTargets(d);
    hide *;
    ReportGated(t, d);
    ReportFlat(t, d);
    var a, b, c := ["roles", d, "report.md"], ["shared", "report", d, d + ".md"], ["shared", "report", d, "report.md"];
    SharedArrives(t, ["shared", "report", d + ".md"], a, [b, c]);
    assert [a] + [b, c] == [a, b, c];
  }
}
