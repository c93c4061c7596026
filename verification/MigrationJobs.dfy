/** internal/migrate/v1_layout.go as a list of jobs over a directory tree: the
    migration tables, what one job does, and what a whole pass does. */
module MigrationJobs {
  import opened Common
  import opened FileTree
  import opened SortedNames

  // A job taken from a directory listing names that directory as its guard: it
  // runs only when the guard is a directory. The root guards everything else.
  datatype Job =
    | Move(guard: Path, from: Path, to: Path)   // move()
    | MoveDir(from: Path, to: Path)             // moveDir()
    | Purge(guard: Path, path: Path)            // removeIfExists()
    | Drop(guard: Path, path: Path)             // removeFileIfExists()
    | Rmdir(guard: Path, path: Path)            // removeIfEmpty()
    | Hoist(from: Path, to: Path, dir: Path)    // move(), then rmdir if it moved
    | List(path: Path)                          // os.ReadDir()

  datatype Warning =
    | TargetIsDirectory(from: Path, to: Path)
    | LegacyTaken(from: Path, to: Path)
    | KeptLegacy(from: Path, to: Path)
    | DirTargetExists(from: Path, to: Path)

  datatype Report = Report(moved: seq<(Path, Path)>, removed: seq<Path>, warnings: seq<Warning>) {
    predicate Changed() {
      moved != [] || removed != []
    }

    function Plus(r: Report): Report {
      Report(moved + r.moved, removed + r.removed, warnings + r.warnings)
    }
  }

  datatype Error = NotADirectory(path: Path) | IsADirectory(path: Path) | NotEmpty(path: Path) | CrossesDevice(path: Path)
                 | Interrupted // the environment stopped the pass before an operation

  datatype Outcome = Outcome(tree: Tree, report: Report, error: Option<Error>)

  const EMPTY := Report([], [], [])

  function Same(t: Tree): Outcome { Outcome(t, EMPTY, None) }

  function Fail(t: Tree, e: Error): Outcome { Outcome(t, EMPTY, Some(e)) }

  function Warn(t: Tree, w: Warning): Outcome { Outcome(t, EMPTY.(warnings := [w]), None) }

  function Legacy(p: Path): Path
    requires p != []
  {
    Parent(p) + [p[|p| - 1] + ".legacy"]
  }

  /* ---- one job ---- */

  function Exec(j: Job, t: Tree): Outcome
    requires WellShaped(j)
  {
    match j
    case Move(guard, from, to) => if IsDir(t, guard) then ExecMove(t, from, to) else Same(t)
    case MoveDir(from, to) => ExecMoveDir(t, from, to)
    case Purge(guard, path) => if IsDir(t, guard) then ExecPurge(t, path) else Same(t)
    case Drop(guard, path) => if IsDir(t, guard) then ExecDrop(t, path) else Same(t)
    case Rmdir(guard, path) => if IsDir(t, guard) then ExecRmdir(t, path) else Same(t)
    case Hoist(from, to, dir) => ExecHoist(t, from, to, dir)
    case List(path) =>
      match Lstat(t, path)
      case NotExist => Same(t)
      case NotDir => Fail(t, NotADirectory(path))
      case Found(node) => if node.Dir? then Same(t) else Fail(t, NotADirectory(path))
  }

  predicate WellShaped(j: Job) {
    match j
    case Move(_, from, to) => from != [] && to != [] && !(from <= to)
    case MoveDir(from, to) => from != [] && to != [] && !(from <= to)
    case Hoist(from, to, dir) => from != [] && to != [] && !(from <= to) && dir != []
    case Purge(_, path) => path != []
    case Drop(_, path) => path != []
    case Rmdir(_, path) => path != []
    case List(_) => true
  }

  function Relocate(t: Tree, from: Path, to: Path): Tree
    requires to != []
  {
    Rename(MkdirAll(t, to, |to| - 1), from, to)
  }

  function ExecMove(t: Tree, from: Path, to: Path): Outcome
    requires from != [] && to != []
  {
    match Lstat(t, from)
    case NotExist => Same(t)
    case NotDir => Fail(t, NotADirectory(from))
    case Found(_) =>
      match Lstat(t, to)
      case NotDir => Fail(t, NotADirectory(to))
      case NotExist => Outcome(Relocate(t, from, to), EMPTY.(moved := [(from, to)]), None)
      case Found(node) => if node.Dir? then Warn(t, TargetIsDirectory(from, to)) else ExecResolve(t, from, to)
  }

  /** resolveExistingTarget: a file is already at the target. */
  function ExecResolve(t: Tree, from: Path, to: Path): Outcome
    requires from in t && from != [] && IsFile(t, to)
  {
    if t[from].Dir? then Fail(t, IsADirectory(from))
    else if t[from] == t[to] then Same(Remove(t, from))
    else if Legacy(from) in t then Warn(t, LegacyTaken(from, to))
    else Warn(Rename(t, from, Legacy(from)), KeptLegacy(from, to))
  }

  function ExecMoveDir(t: Tree, from: Path, to: Path): Outcome
    requires to != []
  {
    match Lstat(t, from)
    case NotExist => Same(t)
    case NotDir => Fail(t, NotADirectory(from))
    case Found(node) =>
      if node.File? then Fail(t, NotADirectory(from))
      else
        match Lstat(t, to)
        case NotDir => Fail(t, NotADirectory(to))
        case Found(_) => Warn(t, DirTargetExists(from, to))
        case NotExist => Outcome(Relocate(t, from, to), EMPTY.(moved := [(from, to)]), None)
  }

  function ExecPurge(t: Tree, path: Path): Outcome {
    match Lstat(t, path)
    case NotExist => Same(t)
    case NotDir => Fail(t, NotADirectory(path))
    case Found(_) => Outcome(RemoveAll(t, path), EMPTY.(removed := [path]), None)
  }

  function ExecDrop(t: Tree, path: Path): Outcome {
    match Lstat(t, path)
    case NotExist => Same(t)
    case NotDir => Fail(t, NotADirectory(path))
    case Found(_) =>
      if HasEntries(t, path) then Fail(t, NotEmpty(path))
      else Outcome(Remove(t, path), EMPTY.(removed := [path]), None)
  }

  function ExecRmdir(t: Tree, path: Path): Outcome {
    match Lstat(t, path)
    case NotExist => Same(t)
    case NotDir => Fail(t, NotADirectory(path))
    case Found(node) =>
      if node.File? then Fail(t, NotADirectory(path))
      else if HasEntries(t, path) then Same(t)
      else Outcome(Remove(t, path), EMPTY.(removed := [path]), None)
  }

  function ExecHoist(t: Tree, from: Path, to: Path, dir: Path): Outcome
    requires from != [] && to != []
  {
    var o := ExecMove(t, from, to);
    if o.error.Some? || o.report.moved == [] then o
    else
      // recordRemoveIfEmpty turns a failed rmdir into a warning, never an error
      var p := ExecRmdir(o.tree, dir);
      if p.error.Some? then o else Outcome(p.tree, o.report.Plus(p.report), None)
  }

  /* ---- many jobs ---- */

  ghost predicate AllShaped(js: seq<Job>) {
    forall j | j in js :: WellShaped(j)
  }

  /** The jobs in order, up to and including the first that fails. */
  function ExecAll(js: seq<Job>, t: Tree): Outcome
    requires AllShaped(js)
  {
    if js == [] then Same(t)
    else
      var o := Exec(js[0], t);
      if o.error.Some? then o
      else
        var rest := ExecAll(js[1..], o.tree);
        Outcome(rest.tree, o.report.Plus(rest.report), rest.error)
  }

  lemma {:induction false} ExecAllConcat(a: seq<Job>, b: seq<Job>, t: Tree)
    requires AllShaped(a) && AllShaped(b)
    ensures AllShaped(a + b)
    ensures var o := ExecAll(a, t);
            ExecAll(a + b, t) ==
            if o.error.Some? then o
            else var p := ExecAll(b, o.tree); Outcome(p.tree, o.report.Plus(p.report), p.error)
  {
    hide Exec;
    if a == [] {
      assert a + b == b;
    } else {
      assert (a + b)[0] == a[0] && (a + b)[1..] == a[1..] + b;
      var o := Exec(a[0], t);
      if o.error.None? {
        ExecAllConcat(a[1..], b, o.tree);
        var p, q := ExecAll(a[1..], o.tree), ExecAll(b, ExecAll(a[1..], o.tree).tree);
        if p.error.None? {
          assert o.report.Plus(p.report.Plus(q.report)) == o.report.Plus(p.report).Plus(q.report);
        }
      }
    }
  }

  /* ---- the tables ---- */

  const ROOT: Path := []
  const ROLES: Path := ["roles"]
  const SUPERVISOR: Path := ["supervisor"]
  const REPORTS: Path := ["shared", "report"]

  function Static(from: Path, to: Path): Job { Move(ROOT, from, to) }

  function FromSupervisor(name: Name, to: Path): Job { Static(["supervisor", name], to) }

  function StaticMoves(): seq<Job> {
    BasePrompts() + ForEach(SupervisorPrompts, SUPERVISOR_STEMS) + SupervisorArtifacts()
  }

  function BasePrompts(): seq<Job> {
    [ Static(["report_base_prompt.md"], ["prompts", "report", "_post.format.md"]),
      Static(["code_base_prompt.md"], ["prompts", "code.prompt.md"]),
      Static(["report_extra_prompt.md"], ["prompts", "report", "_post.extra.md"]),
      Static(["code_extra_prompt.md"], ["prompts", "code.post.extra.md"]),
      Static(["prompts", "code", "_post.format.md"], ["prompts", "code.prompt.md"]),
      Static(["prompts", "code", "_post.extra.md"], ["prompts", "code.post.extra.md"]) ]
  }

  const SUPERVISOR_STEMS: seq<Name> :=
    ["review", "code_management", "code_verify", "auto_setup", "exec_debug", "report_commissioning"]

  /** Each supervisor prompt has a body and an extra. */
  function SupervisorPrompts(stem: Name): seq<Job> {
    [ FromSupervisor(stem + "_prompt.md", ["prompts", stem + ".prompt.md"]),
      FromSupervisor(stem + "_extra_prompt.md", ["prompts", stem + ".post.extra.md"]) ]
  }

  function SupervisorArtifacts(): seq<Job> {
    [ FromSupervisor("report_auto_roles_prompt.md", ["prompts", "report_auto_roles.prompt.md"]),
      FromSupervisor("review.md", ["shared", "review.md"]),
      FromSupervisor("verify.md", ["shared", "verify.md"]),
      Static(["setup_overview.md"], ["shared", "auto_setup.md"]) ]
  }

  function RoleDir(r: Name): Path { ["roles", r] }

  /** One role's row of the templated table. */
  function RoleMoves(r: Name): seq<Job> {
    [ Move(RoleDir(r), ["roles", r, "report_prompt.md"], ["prompts", "report", r + ".prompt.md"]),
      Move(RoleDir(r), ["roles", r, "code_prompt.md"], ["prompts", "code", r + ".prompt.md"]),
      Move(RoleDir(r), ["roles", r, "report_extra_prompt.md"], ["prompts", "report", r + ".post.extra.md"]),
      Move(RoleDir(r), ["roles", r, "code_extra_prompt.md"], ["prompts", "code", r + ".post.extra.md"]),
      Move(RoleDir(r), ["roles", r, "report.md"], ["shared", "report", r + ".md"]) ]
  }

  function RoleJunk(r: Name): seq<Job> {
    [ Purge(RoleDir(r), ["roles", r, "history"]),
      Drop(RoleDir(r), ["roles", r, "last_run_output.md"]),
      Drop(RoleDir(r), ["roles", r, "last_run_error.md"]) ]
  }

  function RoleRmdir(r: Name): seq<Job> { [Rmdir(RoleDir(r), RoleDir(r))] }

  function ReportDir(d: Name): Path { ["shared", "report", d] }

  /** flattenSharedReports for one directory under shared/report. */
  function ReportJobs(d: Name): seq<Job> {
    [ Move(ReportDir(d), ["shared", "report", d, d + ".md"], ["shared", "report", d + ".md"]),
      Move(ReportDir(d), ["shared", "report", d, "report.md"], ["shared", "report", d + ".md"]),
      Rmdir(ReportDir(d), ReportDir(d)) ]
  }

  function ActionHoist(a: Name): Job {
    Hoist(["shared", a, a + ".md"], ["shared", a + ".md"], ["shared", a])
  }

  function ForEach(f: Name -> seq<Job>, names: seq<Name>): seq<Job> {
    if names == [] then [] else f(names[0]) + ForEach(f, names[1..])
  }

  lemma {:induction false} ForEachConcat(f: Name -> seq<Job>, a: seq<Name>, b: seq<Name>)
    ensures ForEach(f, a + b) == ForEach(f, a) + ForEach(f, b)
  {
    if a == [] {
      assert a + b == b;
    } else {
      ForEachConcat(f, a[1..], b);
      assert (a + b)[1..] == a[1..] + b;
    }
  }

  function SupervisorJunk(): seq<Job> {
    [ Purge(ROOT, ["supervisor", "history"]),
      Drop(ROOT, ["supervisor", "code_output.md"]),
      Drop(ROOT, ["supervisor", "code_verification_report.md"]) ]
  }

  function FinalRmdirs(): seq<Job> { [Rmdir(ROOT, ROLES), Rmdir(ROOT, SUPERVISOR)] }

  function StaticDirMoves(): seq<Job> { [MoveDir(["supervisor", "code"], ["shared", "code"])] }

  /** moveStatic, moveStaticDirs, moveRoles and cleanup. */
  function GatedJobs(rs: seq<Name>): seq<Job> {
    StaticMoves() + StaticDirMoves()
    + [List(ROLES)] + ForEach(RoleMoves, rs)
    + ForEach(RoleJunk, rs) + SupervisorJunk() + ForEach(RoleRmdir, rs) + FinalRmdirs()
  }

  function ActionHoists(): seq<Job> {
    [ActionHoist("review"), ActionHoist("verify"), ActionHoist("auto_setup")]
  }

  /** flattenSharedLayout. */
  function FlattenJobs(ds: seq<Name>): seq<Job> {
    [List(REPORTS)] + ForEach(ReportJobs, ds) + ActionHoists()
  }

  /** The directories directly below p, in listing order. */
  function DirsBelow(t: Tree, p: Path): set<Name> {
    set q | q in t && |q| == |p| + 1 && p <= q && t[q].Dir? :: q[|p|]
  }

  function RoleNames(t: Tree): seq<Name> { Sort(DirsBelow(t, ROLES)) }

  function ReportNames(t: Tree): seq<Name> { Sort(DirsBelow(t, REPORTS)) }

  const INDICATORS: seq<Path> :=
    [ ["roles"], ["supervisor"], ["report_base_prompt.md"], ["code_base_prompt.md"],
      ["report_extra_prompt.md"], ["code_extra_prompt.md"], ["setup_overview.md"],
      ["prompts", "code", "_post.format.md"], ["prompts", "code", "_post.extra.md"] ]

  predicate NeedsMigration(t: Tree) {
    exists i | 0 <= i < |INDICATORS| :: INDICATORS[i] in t
  }

  function PassJobs(t: Tree): seq<Job> {
    if NeedsMigration(t) then GatedJobs(RoleNames(t)) + FlattenJobs(ReportNames(t)) else FlattenJobs(ReportNames(t))
  }
}
