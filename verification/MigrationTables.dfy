/** What the migration tables guarantee about their own paths: sources and
    targets lie in disjoint parts of the tree. */
module MigrationTables {
  import opened Common
  import opened FileTree
  import opened MigrationJobs

  predicate EndsWith(s: string, suffix: string) {
    |suffix| <= |s| && s[|s| - |suffix|..] == suffix
  }

  // The names the tables tell apart.
  datatype Kind = Prompts | Shared | Roles | Supervisor | Reports | Code | Action | History
                | Framing      // _post.format.md, _post.extra.md
                | RolePrompt   // <R>.prompt.md, <R>.post.extra.md
                | Markdown     // any other *.md
                | Parked       // *.legacy
                | Other

  function KindOf(n: Name): Kind {
    if n == "prompts" then Prompts
    else if n == "shared" then Shared
    else if n == "roles" then Roles
    else if n == "supervisor" then Supervisor
    else if n == "report" then Reports
    else if n == "code" then Code
    else if n == "review" || n == "verify" || n == "auto_setup" then Action
    else if n == "history" then History
    else if n == "_post.format.md" || n == "_post.extra.md" then Framing
    else if EndsWith(n, ".legacy") then Parked
    else if EndsWith(n, ".prompt.md") || EndsWith(n, ".post.extra.md") then RolePrompt
    else if EndsWith(n, ".md") then Markdown
    else Other
  }

  predicate IsMarkdown(n: Name) {
    KindOf(n) in {Framing, RolePrompt, Markdown}
  }

  const ACTIONS: seq<Name> := ["review", "verify", "auto_setup"]

  /** The directories whose listings produce jobs: roles/<R> and shared/report/<D>. */
  predicate IsListed(p: Path) {
    (|p| == 2 && KindOf(p[0]) == Roles) || (|p| == 3 && KindOf(p[0]) == Shared && KindOf(p[1]) == Reports)
  }

  /** Where the old layouts keep what is moved or dropped. */
  predicate IsSource(p: Path) {
    && p != []
    && KindOf(p[|p| - 1]) != Parked
    && ( || (|p| == 1 && IsMarkdown(p[0]))
         || (|p| == 2 && KindOf(p[0]) == Supervisor)
         || (|p| == 3 && KindOf(p[0]) == Roles)
         || (|p| == 3 && KindOf(p[0]) == Prompts && KindOf(p[1]) == Code && KindOf(p[2]) == Framing)
         || (|p| == 3 && KindOf(p[0]) == Shared && KindOf(p[1]) == Action)
         || (|p| == 4 && KindOf(p[0]) == Shared && KindOf(p[1]) == Reports))
  }

  /** Where the v1 layout puts it. */
  predicate IsTarget(p: Path) {
    || (|p| == 2 && KindOf(p[0]) == Prompts && IsMarkdown(p[1]))
    || (|p| == 3 && KindOf(p[0]) == Prompts && KindOf(p[1]) == Reports && IsMarkdown(p[2]))
    || (|p| == 3 && KindOf(p[0]) == Prompts && KindOf(p[1]) == Code && KindOf(p[2]) == RolePrompt)
    || (|p| == 2 && KindOf(p[0]) == Shared && (IsMarkdown(p[1]) || KindOf(p[1]) == Code))
    || IsReportTarget(p)
  }

  predicate IsReportTarget(p: Path) {
    |p| == 3 && KindOf(p[0]) == Shared && KindOf(p[1]) == Reports && IsMarkdown(p[2])
  }

  /** What cleanup drops for good: the history directories and the four junk files. */
  predicate IsDropped(p: Path) {
    || (|p| >= 3 && p[0] == "roles" && p[2] == "history")
    || (|p| >= 2 && p[0] == "supervisor" && p[1] == "history")
    || (|p| == 3 && p[0] == "roles" && (p[2] == "last_run_output.md" || p[2] == "last_run_error.md"))
    || (|p| == 2 && p[0] == "supervisor" && (p[1] == "code_output.md" || p[1] == "code_verification_report.md"))
  }

  /** The jobs the tables produce, whatever the listings hold. */
  predicate InTables(j: Job) {
    match j
    case Move(guard, from, to) =>
      IsSource(from) && IsTarget(to) && !IsDropped(from) && IsGuard(guard, from)
    case MoveDir(from, to) => from == ["supervisor", "code"] && to == ["shared", "code"]
    case Purge(guard, path) =>
      IsSource(path) && IsDropped(path) && KindOf(path[|path| - 1]) == History && IsGuard(guard, path)
    case Drop(guard, path) => IsSource(path) && IsDropped(path) && IsGuard(guard, path)
    case Rmdir(guard, path) => (guard == ROOT && (path == ROLES || path == SUPERVISOR)) || (guard == path && IsListed(path))
    case Hoist(from, to, dir) => exists i | 0 <= i < |ACTIONS| :: j == ActionHoist(ACTIONS[i])
    case List(path) => path == ROLES || path == REPORTS
  }

  predicate IsGuard(guard: Path, p: Path) {
    (guard == ROOT && |p| < 4) || (guard == Parent(p) && IsListed(guard))
  }

  lemma ParkedKind(s: Name)
    requires KindOf(s) != Parked
    ensures KindOf(s + ".legacy") == Parked
  {
    var n := s + ".legacy";
    assert n[|n| - 1] == 'y';
    assert n[|n| - 2] == 'c';
    assert EndsWith(n, ".legacy");
  }

  /** The templated names. */
  lemma TemplatedKinds(r: Name)
    ensures KindOf(r + ".prompt.md") == RolePrompt
    ensures KindOf(r + ".post.extra.md") == RolePrompt
    ensures IsMarkdown(r + ".md")
  {
    PromptKind(r);
    ExtraKind(r);
    var n := r + ".md";
    assert n[|n| - 1] == 'd' && n[|n| - 3] == '.';
    assert EndsWith(n, ".md");
  }

  lemma {:induction false} PromptKind(r: Name)
    ensures KindOf(r + ".prompt.md") == RolePrompt
  {
    var n := r + ".prompt.md";
    assert n[|n| - 1] == 'd' && n[|n| - 3] == '.' && n[|n| - 4] == 't' && n[|n| - 10] == '.';
    assert n[|n| - 10..] == ".prompt.md";
    NotByName(n);
  }

  lemma {:induction false} ExtraKind(r: Name)
    ensures KindOf(r + ".post.extra.md") == RolePrompt
  {
    var n := r + ".post.extra.md";
    assert n[|n| - 1] == 'd' && n[|n| - 3] == '.' && n[|n| - 4] == 'a' && n[|n| - 14] == '.';
    assert n[|n| - 14..] == ".post.extra.md";
    NotByName(n);
  }

  // A name that ends so is none of those told apart whole.
  lemma NotByName(n: Name)
    requires |n| >= 10 && n[|n| - 1] == 'd' && n[|n| - 3] == '.'
    requires (EndsWith(n, ".prompt.md") && n[|n| - 4] == 't') || (EndsWith(n, ".post.extra.md") && n[|n| - 14] == '.')
    ensures KindOf(n) == RolePrompt
  {
    assert n != "_post.format.md" && n != "_post.extra.md" && !EndsWith(n, ".legacy");
  }

  lemma TargetAboveSource(q: Path, p: Path)
    requires IsTarget(q) && IsSource(p) && q <= p
    ensures IsReportTarget(q) && |p| == 4 && KindOf(p[0]) == Shared && KindOf(p[1]) == Reports && q == Parent(p)
  {
    hide KindOf;
    assert q[0] == p[0] && q[1] == p[1];
    assert |q| == 3 ==> q[2] == p[2];
  }

  lemma SourceAboveTarget(q: Path, p: Path)
    requires IsTarget(q) && IsSource(p)
    ensures !(p <= q)
  {
    hide KindOf;
    if p <= q { PrefixEntries(p, q); }
  }

  lemma PrefixEntries(p: Path, q: Path)
    requires p <= q
    ensures forall i | 0 <= i < |p| :: p[i] == q[i]
  {
  }

  /** A parked copy is no source, and lies neither above nor below one. */
  lemma ParkedAndSources(s: Path, p: Path)
    requires IsSource(s) && IsSource(p)
    ensures !(Legacy(s) <= p) && !(p <= Legacy(s))
  {
    ParkedKind(s[|s| - 1]);
    hide KindOf;
    if Legacy(s) <= p { PrefixEntries(Legacy(s), p); }
    if p <= Legacy(s) { PrefixEntries(p, Legacy(s)); }
  }

  lemma DroppedKinds(p: Path)
    requires IsDropped(p)
    ensures (KindOf(p[0]) == Roles && KindOf(p[2]) != Parked) || (KindOf(p[0]) == Supervisor && KindOf(p[1]) != Parked)
  {
  }

  lemma MarkdownName(n: Name)
    requires EndsWith(n, ".md")
    ensures IsMarkdown(n)
  {
    assert n[|n| - 1] == 'd' && n[|n| - 3] == '.';
  }

  lemma DirectoryKinds()
    ensures KindOf("prompts") == Prompts && KindOf("shared") == Shared && KindOf("roles") == Roles
    ensures KindOf("supervisor") == Supervisor
  {
  }

  lemma SubdirectoryKinds()
    ensures KindOf("report") == Reports && KindOf("code") == Code && KindOf("history") == History
    ensures KindOf("_post.format.md") == Framing && KindOf("_post.extra.md") == Framing
  {
  }

  /** Root-level prompts and supervisor files go to a prompt or an artifact file. */
  lemma RowInTables(from: Path, to: Path)
    requires from != [] && EndsWith(from[|from| - 1], ".md")
    requires |from| == 1 || (|from| == 2 && from[0] == "supervisor" && !IsDropped(from))
    requires |to| == 2 || (|to| == 3 && to[0] == "prompts" && to[1] == "report")
    requires to[0] == "prompts" || to[0] == "shared"
    requires EndsWith(to[|to| - 1], ".md")
    ensures InTables(Static(from, to))
  {
    assert !IsDropped(from);
    hide IsDropped;
    MarkdownName(from[|from| - 1]);
    MarkdownName(to[|to| - 1]);
    DirectoryKinds();
    SubdirectoryKinds();
    hide KindOf, EndsWith;
  }

  lemma FramingRowInTables(name: Name, to: Name)
    requires name == "_post.format.md" || name == "_post.extra.md"
    requires EndsWith(to, ".md")
    ensures InTables(Static(["prompts", "code", name], ["prompts", to]))
  {
    MarkdownName(to);
    DirectoryKinds();
    SubdirectoryKinds();
    hide KindOf;
  }

  lemma BasePromptsInTables(j: Job)
    requires j in BasePrompts()
    ensures InTables(j)
  {
    hide KindOf, InTables;
    if |j.from| == 1 {
      RowInTables(j.from, j.to);
    } else {
      FramingRowInTables(j.from[2], j.to[1]);
    }
  }

  lemma ArtifactsInTables(j: Job)
    requires j in SupervisorArtifacts()
    ensures InTables(j)
  {
    hide KindOf, InTables;
    RowInTables(j.from, j.to);
  }

  lemma SupervisorPromptsInTables(stem: Name, j: Job)
    requires j in SupervisorPrompts(stem)
    ensures InTables(j)
  {
    var n := j.from[1];
    assert n[|n| - 1] == 'd' && n[|n| - 5] == 'p';
    assert n[|n| - 3..] == ".md" && j.to[1][|j.to[1]| - 3..] == ".md";
    hide KindOf;
    RowInTables(j.from, j.to);
  }

  /** A role's file goes to its own name under prompts/ or shared/report. */
  lemma RoleRowInTables(r: Name, name: Name, to: Path)
    requires EndsWith(name, ".md") && !IsDropped(["roles", r, name])
    requires |to| == 3 && (to[..2] == ["prompts", "report"] || to[..2] == ["prompts", "code"] || to[..2] == REPORTS)
    requires KindOf(to[2]) == RolePrompt || (to[1] == "report" && IsMarkdown(to[2]))
    ensures InTables(Move(RoleDir(r), ["roles", r, name], to))
  {
    MarkdownName(name);
    DirectoryKinds();
    SubdirectoryKinds();
    hide KindOf;
    assert to[0] == to[..2][0] && to[1] == to[..2][1];
  }

  lemma RoleMovesInTables(r: Name, j: Job)
    requires j in RoleMoves(r)
    ensures InTables(j)
  {
    hide KindOf, InTables;
    TemplatedKinds(r);
    RoleRowInTables(r, j.from[2], j.to);
  }

  lemma RoleJunkInTables(r: Name, j: Job)
    requires j in RoleJunk(r)
    ensures InTables(j)
  {
    RoleJunkPath(r, "history");
    RoleJunkPath(r, "last_run_output.md");
    RoleJunkPath(r, "last_run_error.md");
    hide KindOf, IsSource, IsDropped, IsGuard;
  }

  lemma RoleJunkPath(r: Name, name: Name)
    requires name == "history" || name == "last_run_output.md" || name == "last_run_error.md"
    ensures var p := ["roles", r, name];
      IsSource(p) && IsDropped(p) && IsGuard(RoleDir(r), p) && (name == "history" ==> KindOf(name) == History)
  {
    if name != "history" { MarkdownName(name); }
    DirectoryKinds();
    SubdirectoryKinds();
    hide KindOf, EndsWith;
  }

  lemma ReportJobsInTables(d: Name, j: Job)
    requires j in ReportJobs(d)
    ensures InTables(j)
  {
    TemplatedKinds(d);
    if j.Move? { assert EndsWith(j.from[3], ".md"); MarkdownName(j.from[3]); }
    DirectoryKinds();
    SubdirectoryKinds();
    hide KindOf, EndsWith;
  }

  lemma SupervisorJunkInTables(j: Job)
    requires j in SupervisorJunk()
    ensures InTables(j)
  {
    SupervisorJunkPath("history");
    SupervisorJunkPath("code_output.md");
    SupervisorJunkPath("code_verification_report.md");
    hide KindOf, IsSource, IsDropped, IsGuard;
  }

  lemma SupervisorJunkPath(name: Name)
    requires name == "history" || name == "code_output.md" || name == "code_verification_report.md"
    ensures var p := ["supervisor", name];
      IsSource(p) && IsDropped(p) && IsGuard(ROOT, p) && (name == "history" ==> KindOf(name) == History)
  {
    if name != "history" { MarkdownName(name); }
    DirectoryKinds();
    SubdirectoryKinds();
    hide KindOf, EndsWith;
  }

  lemma RmdirInTables(r: Name)
    ensures InTables(Rmdir(RoleDir(r), RoleDir(r)))
  {
    DirectoryKinds();
  }

  lemma {:induction false} InForEach(f: Name -> seq<Job>, names: seq<Name>, j: Job)
    ensures j in ForEach(f, names) <==> exists n :: n in names && j in f(n)
  {
    if names != [] {
      InForEach(f, names[1..], j);
    }
  }

  predicate AllInTables(js: seq<Job>) {
    forall j | j in js :: InTables(j)
  }

  lemma ForEachInTables(f: Name -> seq<Job>, names: seq<Name>)
    requires forall n, j | j in f(n) :: InTables(j)
    ensures AllInTables(ForEach(f, names))
  {
    forall j | j in ForEach(f, names) ensures InTables(j) { InForEach(f, names, j); }
  }

  /** Whatever the listings hold, a pass runs only jobs the tables produce. */
  lemma GatedInTables(rs: seq<Name>)
    ensures AllInTables(GatedJobs(rs))
  {
    forall j | j in BasePrompts() ensures InTables(j) { BasePromptsInTables(j); }
    forall j | j in SupervisorArtifacts() ensures InTables(j) { ArtifactsInTables(j); }
    forall j | j in SupervisorJunk() ensures InTables(j) { SupervisorJunkInTables(j); }
    forall n, j | j in SupervisorPrompts(n) ensures InTables(j) { SupervisorPromptsInTables(n, j); }
    forall n, j | j in RoleMoves(n) ensures InTables(j) { RoleMovesInTables(n, j); }
    forall n, j | j in RoleJunk(n) ensures InTables(j) { RoleJunkInTables(n, j); }
    forall n, j | j in RoleRmdir(n) ensures InTables(j) { RmdirInTables(n); }
    ForEachInTables(SupervisorPrompts, SUPERVISOR_STEMS);
    ForEachInTables(RoleMoves, rs);
    ForEachInTables(RoleJunk, rs);
    ForEachInTables(RoleRmdir, rs);
    assert AllInTables(StaticDirMoves() + [List(ROLES)] + FinalRmdirs());
    hide InTables, BasePrompts, SupervisorArtifacts, SupervisorJunk, StaticDirMoves, FinalRmdirs;
  }

  lemma FlattenInTables(ds: seq<Name>)
    ensures AllInTables(FlattenJobs(ds))
  {
    forall n, j | j in ReportJobs(n) ensures InTables(j) { ReportJobsInTables(n, j); }
    ForEachInTables(ReportJobs, ds);
    forall j | j in ActionHoists() ensures InTables(j) {
      var i :| 0 <= i < |ACTIONS| && j == ActionHoists()[i];
      assert j == ActionHoist(ACTIONS[i]);
    }
    hide InTables, ActionHoists;
  }

  lemma HoistPaths(j: Job)
    requires InTables(j) && j.Hoist?
    ensures IsSource(j.from) && IsTarget(j.to) && !IsDropped(j.from)
    ensures j.dir == Parent(j.from) && |j.dir| == 2 && KindOf(j.dir[0]) == Shared && KindOf(j.dir[1]) == Action
  {
    hide KindOf, EndsWith;
    var i :| 0 <= i < |ACTIONS| && j == ActionHoist(ACTIONS[i]);
    TemplatedKinds(ACTIONS[i]);
    ActionKind(ACTIONS[i]);
    DirectoryKinds();
  }

  lemma ActionKind(a: Name)
    requires a == "review" || a == "verify" || a == "auto_setup"
    ensures KindOf(a) == Action
  {
  }

  /** The directory move goes between directories no other row touches. */
  lemma CodeDirPaths()
    ensures IsSource(["supervisor", "code"]) && IsTarget(["shared", "code"]) && !IsDropped(["supervisor", "code"])
  {
    DirectoryKinds();
    SubdirectoryKinds();
    hide KindOf;
  }

  lemma TablesAreShaped(j: Job)
    requires InTables(j)
    ensures WellShaped(j)
  {
    match j
    case Move(_, from, to) => SourceAboveTarget(to, from);
    case MoveDir(from, to) => CodeDirPaths(); SourceAboveTarget(to, from);
    case Hoist(from, to, _) => HoistPaths(j); SourceAboveTarget(to, from);
    case _ => 
  }

  lemma AllAreShaped(js: seq<Job>)
    requires AllInTables(js)
    ensures AllShaped(js)
  {
    forall j | j in js ensures WellShaped(j) { TablesAreShaped(j); }
  }
}
