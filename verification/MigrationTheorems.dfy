/** Stopping a run of jobs anywhere, then running all of them again. */
module MigrationTheorems {
  import opened Common
  import opened FileTree
  import opened MigrationJobs
  import opened MigrationEffects
  import opened MigrationTables
  import opened MigrationReplay
  import opened MigrationConvergence

  ghost predicate AllQuiet(js: seq<Job>, t: Tree)
    requires AllShaped(js)
  {
    forall j | j in js :: Quiet(j, t)
  }

  predicate FileSources(js: seq<Job>, t: Tree) {
    forall j | j in js :: FileSource(j, t)
  }

  /** Rmdirs come after every job that could still empty the directory. */
  predicate Ordered(js: seq<Job>) {
    forall a, b | 0 <= a < b < |js| :: InOrder(js[a], js[b])
  }

  /** Hoists come last, one per directory. */
  predicate HoistsLast(js: seq<Job>) {
    forall a, b | 0 <= a < b < |js| && js[a].Hoist? :: js[b].Hoist? && js[b].dir != js[a].dir
  }

  ghost predicate UnblocksNone(done: seq<Job>, j': Job, t: Tree) {
    forall j | j in done :: !Unblocks(j, j', t)
  }

  /** While todo runs from t, no job removes a directory that blocks a job run before it. */
  ghost predicate NeverUnblocks(done: seq<Job>, todo: seq<Job>, t: Tree)
    requires AllShaped(todo)
    decreases |todo|
  {
    todo != [] ==>
      && UnblocksNone(done, todo[0], t)
      && (Exec(todo[0], t).error.None? ==> NeverUnblocks(done + [todo[0]], todo[1..], Exec(todo[0], t).tree))
  }

  /** The first tree has all the second has, and besides only empty shared/<action> directories. */
  ghost predicate OnlyStrayDirs(a: Tree, b: Tree) {
    && (forall q | q in b :: q in a && a[q] == b[q])
    && (forall q | q in a && q !in b :: IsActionDir(q) && a[q].Dir? && !HasEntries(a, q))
  }

  predicate IsActionDir(q: Path) {
    |q| == 2 && q[0] == "shared" && q[1] in ACTIONS
  }

  lemma StrayDirsCompose(a: Tree, b: Tree, c: Tree)
    requires OnlyStrayDirs(a, b) && OnlyStrayDirs(b, c)
    ensures OnlyStrayDirs(a, c)
  {
    forall q, r | q in a && q !in c && r in a ensures !(q < r) {
      assert r !in b ==> |r| == 2;
    }
  }

  /* ---- replaying finished jobs ---- */

  lemma {:induction false} ReplayQuiet(js: seq<Job>, t: Tree)
    requires AllShaped(js) && AllQuiet(js, t)
    ensures ExecAll(js, t).tree == t && ExecAll(js, t).error.None? && !ExecAll(js, t).report.Changed()
  {
    hide Exec, Quiet;
    if js != [] {
      QuietIsSettled(js[0], t);
      ReplayQuiet(js[1..], t);
    }
  }

  lemma SkipQuiet(done: seq<Job>, todo: seq<Job>, t: Tree)
    requires AllShaped(done) && AllShaped(todo) && AllQuiet(done, t)
    ensures AllShaped(done + todo)
    ensures ExecAll(done + todo, t).tree == ExecAll(todo, t).tree && ExecAll(done + todo, t).error == ExecAll(todo, t).error
  {
    ReplayQuiet(done, t);
    ExecAllConcat(done, todo, t);
  }

  lemma SourcesStayFiles(js: seq<Job>, j': Job, t: Tree, t': Tree)
    requires AllInTables(js) && FileSources(js, t) && Runs(j', t, t')
    ensures FileSources(js, t')
  {
    EffectOf(false, j', t, t');
    hide Exec, Partial, InTables, KindOf;
    forall j | j in js && (j.Move? || j.Hoist?) && j.from in t' ensures t'[j.from].File? {
      JobPaths(j);
      if j.from !in t { SourceNotCreated(j', t, t', j.from); }
    }
  }

  lemma DoneStaysQuiet(done: seq<Job>, j': Job, t: Tree, t': Tree)
    requires AllShaped(done) && AllInTables(done) && AllQuiet(done, t) && Runs(j', t, t')
    requires forall j | j in done :: InOrder(j, j') && !Unblocks(j, j', t)
    ensures AllQuiet(done, t')
  {
    forall j | j in done ensures Quiet(j, t') { QuietStays(j, j', t, t'); }
  }

  /* ---- stray directories ---- */

  /** A directory beside everything a hoist looks at. */
  predicate Beside(d: Path, from: Path, to: Path, dir: Path) {
    && |d| == |to| == |dir| == 2 && |from| == 3
    && d != to && d != dir && d != from[..2] && d[0] == to[0]
  }

  lemma LstatIgnores(t: Tree, d: Path, p: Path)
    requires d !in t && p != d
    ensures Lstat(t[d := Dir], p) == Lstat(t, p)
  {
    forall k | 0 <= k < |p| ensures IsFile(t[d := Dir], p[..k]) == IsFile(t, p[..k]) { }
  }

  lemma RelocateIgnores(t: Tree, d: Path, from: Path, to: Path, dir: Path)
    requires d !in t && Beside(d, from, to, dir)
    ensures d !in Relocate(t, from, to)
    ensures Relocate(t[d := Dir], from, to) == Relocate(t, from, to)[d := Dir]
  {
    var m, m' := MkdirAll(t, to, 1), MkdirAll(t[d := Dir], to, 1);
    assert m' == m[d := Dir];
    assert !(from <= d) && !(to <= d);
    RenameIgnores(m, d, from, to);
  }

  lemma RenameIgnores(m: Tree, d: Path, from: Path, to: Path)
    requires d !in m && !(from <= d) && !(to <= d) && !(d <= from)
    ensures d !in Rename(m, from, to)
    ensures Rename(m[d := Dir], from, to) == Rename(m, from, to)[d := Dir]
  {
    var a, b := Rename(m[d := Dir], from, to), Rename(m, from, to)[d := Dir];
    forall q ensures (q in a <==> q in b) && (q in a ==> a[q] == b[q]) && (q in Rename(m, from, to) ==> q != d) {
      RenameDomain(m, from, to, q);
      RenameDomain(m[d := Dir], from, to, q);
      if to <= q { assert from <= Origin(from, to, q); }
      else { assert Origin(from, to, q) == q; }
    }
  }

  lemma ResolveIgnores(t: Tree, d: Path, from: Path, to: Path, dir: Path)
    requires d !in t && Beside(d, from, to, dir) && from in t && IsFile(t, to)
    ensures d !in ExecResolve(t, from, to).tree
    ensures ExecResolve(t[d := Dir], from, to) ==
            ExecResolve(t, from, to).(tree := ExecResolve(t, from, to).tree[d := Dir])
  {
    assert |Legacy(from)| == 3;
    assert Remove(t[d := Dir], from) == Remove(t, from)[d := Dir];
    assert !(d <= from);
    RenameIgnores(t, d, from, Legacy(from));
  }

  lemma MoveIgnores(t: Tree, d: Path, from: Path, to: Path, dir: Path)
    requires d !in t && Beside(d, from, to, dir)
    ensures d !in ExecMove(t, from, to).tree
    ensures ExecMove(t[d := Dir], from, to) == ExecMove(t, from, to).(tree := ExecMove(t, from, to).tree[d := Dir])
  {
    LstatIgnores(t, d, from);
    LstatIgnores(t, d, to);
    if from in t && Lstat(t, to) == NotExist { RelocateIgnores(t, d, from, to, dir); }
    if from in t && IsFile(t, to) { ResolveIgnores(t, d, from, to, dir); }
    hide Lstat, Relocate, ExecResolve;
  }

  lemma RmdirIgnores(t: Tree, d: Path, dir: Path)
    requires d !in t && d != dir && |d| == |dir|
    ensures d !in ExecRmdir(t, dir).tree
    ensures ExecRmdir(t[d := Dir], dir) == ExecRmdir(t, dir).(tree := ExecRmdir(t, dir).tree[d := Dir])
  {
    LstatIgnores(t, d, dir);
    if HasEntries(t[d := Dir], dir) {
      var q :| q in t[d := Dir] && dir < q;
      assert q in t;
    }
    assert forall q | q in t :: q in t[d := Dir];
    assert Remove(t[d := Dir], dir) == Remove(t, dir)[d := Dir];
  }

  /** A hoist neither sees nor touches the empty directory another hoist left. */
  lemma HoistIgnores(j: Job, t: Tree, d: Path)
    requires WellShaped(j) && j.Hoist? && d !in t && Beside(d, j.from, j.to, j.dir)
    ensures d !in Exec(j, t).tree
    ensures Exec(j, t[d := Dir]).tree == Exec(j, t).tree[d := Dir]
    ensures Exec(j, t[d := Dir]).error == Exec(j, t).error
  {
    MoveIgnores(t, d, j.from, j.to, j.dir);
    RmdirIgnores(ExecMove(t, j.from, j.to).tree, d, j.dir);
    hide ExecMove, ExecRmdir;
  }

  lemma {:induction false} HoistsIgnore(js: seq<Job>, t: Tree, d: Path)
    requires AllShaped(js) && d !in t
    requires forall j | j in js :: j.Hoist? && Beside(d, j.from, j.to, j.dir)
    ensures d !in ExecAll(js, t).tree
    ensures ExecAll(js, t[d := Dir]).tree == ExecAll(js, t).tree[d := Dir]
    ensures ExecAll(js, t[d := Dir]).error == ExecAll(js, t).error
  {
    hide Exec;
    if js != [] {
      HoistIgnores(js[0], t, d);
      if Exec(js[0], t).error.None? { HoistsIgnore(js[1..], Exec(js[0], t).tree, d); }
    }
  }

  lemma OtherHoistsBeside(j: Job, j': Job)
    requires InTables(j) && InTables(j') && j.Hoist? && j'.Hoist? && j.dir != j'.dir
    ensures IsActionDir(j.dir) && Beside(j.dir, j'.from, j'.to, j'.dir)
  {
    var i :| 0 <= i < |ACTIONS| && j == ActionHoist(ACTIONS[i]);
    var k :| 0 <= k < |ACTIONS| && j' == ActionHoist(ACTIONS[k]);
    HoistPaths(j');
    TargetIsNoActionDir(ACTIONS[k], ACTIONS[i]);
  }

  lemma TargetIsNoActionDir(a: Name, b: Name)
    requires b in ACTIONS
    ensures a + ".md" != b
  {
    assert (a + ".md")[|a| + 2] == 'd';
  }

  lemma ActionDirNotBelowItself(j: Job, t: Tree)
    requires WellFormed(t) && InTables(j) && WellShaped(j) && j.Hoist? && j.dir !in t
    ensures IsActionDir(j.dir) && !HasEntries(t[j.dir := Dir], j.dir)
  {
    var i :| 0 <= i < |ACTIONS| && j == ActionHoist(ACTIONS[i]);
    var t' := t[j.dir := Dir];
    if HasEntries(t', j.dir) {
      var q :| q in t' && j.dir < q;
      Ancestor(t, j.dir, q);
    }
  }

  /* ---- the theorem ---- */

  /** What holds before each job of a run: the jobs before it have nothing left to do. */
  ghost predicate Ready(done: seq<Job>, todo: seq<Job>, t: Tree) {
    && WellFormed(t) && AllShaped(done) && AllShaped(todo) && AllInTables(done) && AllInTables(todo)
    && FileSources(done, t) && FileSources(todo, t) && AllQuiet(done, t)
    && Ordered(done + todo) && HoistsLast(todo)
  }

  ghost predicate RunFrom(done: seq<Job>, todo: seq<Job>, t: Tree) {
    Ready(done, todo, t) && NeverUnblocks(done, todo, t)
  }

  lemma StepKeepsDone(done: seq<Job>, todo: seq<Job>, t: Tree, t': Tree)
    requires Ready(done, todo, t) && todo != [] && UnblocksNone(done, todo[0], t) && Partial(false, todo[0], t, t')
    ensures WellFormed(t') && AllQuiet(done, t') && FileSources(done, t') && FileSources(todo, t')
    ensures Runs(todo[0], t, t')
  {
    hide Exec, Partial, InTables, Quiet;
    var j' := todo[0];
    EffectOf(false, j', t, t');
    forall j | j in done ensures InOrder(j, j') {
      var a :| 0 <= a < |done| && done[a] == j;
      assert (done + todo)[a] == j && (done + todo)[|done|] == j';
    }
    DoneStaysQuiet(done, j', t, t');
    SourcesStayFiles(done, j', t, t');
    SourcesStayFiles(todo, j', t, t');
  }

  lemma RunStep(done: seq<Job>, todo: seq<Job>, t: Tree)
    requires Ready(done, todo, t) && todo != [] && UnblocksNone(done, todo[0], t) && Exec(todo[0], t).error.None?
    ensures Ready(done + [todo[0]], todo[1..], Exec(todo[0], t).tree)
  {
    hide Exec, Partial, InTables, Quiet;
    var t1 := Exec(todo[0], t).tree;
    CompletedIsPartial(false, todo[0], t);
    StepKeepsDone(done, todo, t, t1);
    CompletedIsQuiet(todo[0], t);
    assert (done + [todo[0]]) + todo[1..] == done + todo;
  }

  /** Stopped inside the first remaining job: the earlier jobs have nothing left
      to do, and the stopped job ends where it would have ended. */
  lemma ConvergeFromJob(done: seq<Job>, todo: seq<Job>, t: Tree, t': Tree)
    requires RunFrom(done, todo, t) && todo != [] && Partial(false, todo[0], t, t')
    ensures AllShaped(done + todo)
    ensures OnlyStrayDirs(ExecAll(done + todo, t').tree, ExecAll(todo, t).tree)
    ensures ExecAll(done + todo, t').error == ExecAll(todo, t).error
  {
    hide Exec, Partial, InTables, Quiet, KindOf;
    var j := todo[0];
    StepKeepsDone(done, todo, t, t');
    SkipQuiet(done, todo, t');
    JobResumes(j, t, t');
    if Exec(j, t').tree != Exec(j, t).tree || Exec(j, t').error != Exec(j, t).error {
      var t1 := Exec(j, t).tree;
      QuietIsSettled(j, t');
      CompletedIsPartial(false, j, t);
      EffectOf(false, j, t, t1);
      forall j' | j' in todo[1..] ensures j'.Hoist? && Beside(j.dir, j'.from, j'.to, j'.dir) {
        var b :| 1 <= b < |todo| && todo[b] == j';
        OtherHoistsBeside(j, j');
      }
      HoistsIgnore(todo[1..], t1, j.dir);
      StrayEnd(j, todo[1..], t1);
    }
  }

  lemma StrayEnd(j: Job, js: seq<Job>, t: Tree)
    requires WellFormed(t) && AllShaped(js) && AllInTables(js) && InTables(j) && WellShaped(j) && j.Hoist?
    requires j.dir !in ExecAll(js, t).tree
    ensures OnlyStrayDirs(ExecAll(js, t).tree[j.dir := Dir], ExecAll(js, t).tree)
  {
    RunKeepsTree(js, t);
    ActionDirNotBelowItself(j, ExecAll(js, t).tree);
  }

  lemma {:induction false} RunKeepsTree(js: seq<Job>, t: Tree)
    requires WellFormed(t) && AllShaped(js)
    ensures WellFormed(ExecAll(js, t).tree)
  {
    hide Exec, Partial;
    if js != [] {
      CompletedIsPartial(false, js[0], t);
      EffectOf(false, js[0], t, Exec(js[0], t).tree);
      RunKeepsTree(js[1..], Exec(js[0], t).tree);
    }
  }

  /** Stop a run at any tree it goes through and run all the jobs from there:
      the same tree and the same error, empty shared/<action> directories aside. */
  lemma {:induction false} Converge(done: seq<Job>, todo: seq<Job>, t: Tree, t': Tree)
    requires RunFrom(done, todo, t) && Cut(false, todo, t, t')
    ensures AllShaped(done + todo)
    ensures OnlyStrayDirs(ExecAll(done + todo, t').tree, ExecAll(todo, t).tree)
    ensures ExecAll(done + todo, t').error == ExecAll(todo, t).error
    decreases |todo|
  {
    hide Exec, Partial, InTables, Quiet;
    if t' == t {
      SkipQuiet(done, todo, t);
    } else if Partial(false, todo[0], t, t') {
      ConvergeFromJob(done, todo, t, t');
    } else {
      RunStep(done, todo, t);
      Converge(done + [todo[0]], todo[1..], Exec(todo[0], t).tree, t');
      assert (done + [todo[0]]) + todo[1..] == done + todo;
    }
  }

  /** After a run without errors every job is quiet. */
  lemma {:induction false} RunEndsQuiet(done: seq<Job>, todo: seq<Job>, t: Tree)
    requires RunFrom(done, todo, t) && ExecAll(todo, t).error.None?
    ensures AllShaped(done + todo) && AllQuiet(done + todo, ExecAll(todo, t).tree)
    decreases |todo|
  {
    hide Exec, Partial, InTables, Quiet;
    if todo == [] {
      assert done + todo == done;
    } else {
      RunStep(done, todo, t);
      RunEndsQuiet(done + [todo[0]], todo[1..], Exec(todo[0], t).tree);
      assert (done + [todo[0]]) + todo[1..] == done + todo;
    }
  }
}
