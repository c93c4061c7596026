/** internal/flow/flow.go, the leaf: what one PromptBundle does, given what its
    hooks, its prompt and the executor will do. */
module FlowBundle {
  import opened Common

  type Usd = r: real | 0.0 <= r

  datatype State = Continue | Skip | Failed

  datatype Flow = Flow(state: State, reason: string)

  datatype Env = Env(role: string, action: string, workDir: string, batch: string, dryRun: bool)

  datatype RunOpts = RunOpts(role: string, action: string, workDir: string, batch: string)

  // What the environment answers each time it is asked. A panic unwinds the bundle.
  datatype Hook = Returns(flow: Flow) | HookPanics
  datatype Render = Rendered | RenderFails(why: string) | RenderPanics
  datatype Prepare = Row | PrepareFails(why: string) | PreparePanics
  datatype AgentPhase = PhaseInit | PhaseTool | PhaseDone | PhaseError | PhaseStall | PhaseOther
  datatype Progress = Progress(phase: AgentPhase, tokens: nat, turns: nat)
  datatype Usage = Usage(tokens: nat, turns: nat)
  datatype Agent = Finishes(events: seq<Progress>, cost: Usd, isError: bool, cause: string, usage: Usage)
                 | AgentPanics(events: seq<Progress>)

  // A prompt resolves in the verify pass, in a dry run, and live.
  datatype Prompt = Prompt(verify: Render, dry: Render, live: Render)

  datatype Bundle = Bundle(
    name: string, role: string, action: string, env: Option<Env>,
    pre: seq<Hook>, post: seq<Hook>, opts: Option<RunOpts>, optsPanic: bool,
    prompt: Option<Prompt>, prepare: Prepare, agent: Agent)

  datatype Phase = PreExec | PostExec

  datatype Result = Result(bundle: string, env: Env, flow: Flow, summary: Option<Usage>)

  datatype StageKind = StagePipeline | StageParallel

  datatype StageOutcome = StageOutcome(succeeded: nat, failed: nat, skipped: nat, firstError: int)

  // What the reporter, the executor and the call table are told, in order.
  datatype What =
    | StageStart(kind: StageKind, stage: string, children: nat)
    | StageEnd(outcome: StageOutcome)
    | StepSkipped(step: string)
    | BundleStart(bundle: string, env: Env)
    | BundleEnd(result: Result)
    | ActionStart(phase: Phase, index: nat)
    | ActionEnd(phase: Phase, index: nat, flow: Flow)
    | Preparing(opts: RunOpts)     // Executor.Prepare is called
    | RowAllocated                 // and returned a row
    | RowFailed                    // MarkExecFailed
    | AgentExecStart
    | RowExecuting                 // Executor.ExecutePrepared is called
    | AgentEvent(progress: Progress)
    | RowCommitted(cost: Usd)      // its cost is in the call table before it returns
    | AgentExecEnd(isError: bool)

  /** withBundleOverrides, after the bundle's own environment took over. */
  function BundleEnv(b: Bundle, env: Env): Env {
    var e := if b.env.Some? then b.env.value else env;
    e.(role := if b.role != "" then b.role else e.role, action := if b.action != "" then b.action else e.action)
  }

  function OrElse(s: string, other: string): string { if s == "" then other else s }

  /** The options Prepare gets: what the bundle leaves empty comes from the environment. */
  function BundleOpts(b: Bundle, env: Env): RunOpts {
    var o := if b.opts.Some? then b.opts.value else RunOpts("", "", "", "");
    RunOpts(OrElse(o.role, env.role), OrElse(o.action, env.action), OrElse(o.workDir, env.workDir), OrElse(o.batch, env.batch))
  }

  // How a stretch of the bundle ended.
  datatype End = Goes | Ends(flow: Flow, summary: Option<Usage>) | Panics

  datatype Stretch = Stretch(events: seq<What>, end: End)

  /** PreExec hooks from the i-th on: the first that does not continue ends the bundle. */
  function RunPre(b: Bundle, i: nat): Stretch
    requires i <= |b.pre|
    decreases |b.pre| - i
  {
    if i == |b.pre| then Stretch([], Goes)
    else
      match b.pre[i]
      case HookPanics => Stretch([ActionStart(PreExec, i)], Panics)
      case Returns(f) =>
        var here := [ActionStart(PreExec, i), ActionEnd(PreExec, i, f)];
        if f.state != Continue then Stretch(here, Ends(f, None))
        else var rest := RunPre(b, i + 1); Stretch(here + rest.events, rest.end)
  }

  function UsageOf(b: Bundle): Usage { if b.agent.Finishes? then b.agent.usage else Usage(0, 0) }

  /** PostExec hooks from the i-th on: all of them run; the first error is the result's. */
  function RunPost(b: Bundle, i: nat, flow: Flow): Stretch
    requires i <= |b.post|
    decreases |b.post| - i
  {
    if i == |b.post| then Stretch([], Ends(flow, Some(UsageOf(b))))
    else
      match b.post[i]
      case HookPanics => Stretch([ActionStart(PostExec, i)], Panics)
      case Returns(f) =>
        var flow' := if f.state == Failed && flow.state == Continue then f else flow;
        var rest := RunPost(b, i + 1, flow');
        Stretch([ActionStart(PostExec, i), ActionEnd(PostExec, i, f)] + rest.events, rest.end)
  }

  function AgentEvents(ps: seq<Progress>): seq<What> {
    seq(|ps|, i requires 0 <= i < |ps| => AgentEvent(ps[i]))
  }

  function RenderOf(b: Bundle, pick: Prompt -> Render): Render {
    if b.prompt.None? then RenderFails("PromptBundle has no Prompt set") else pick(b.prompt.value)
  }

  const RENDER_FAILED := Ends(Flow(Failed, "render failed"), None)
  const PREPARE_FAILED := Ends(Flow(Failed, "prepare failed"), None)

  function RunAgent(b: Bundle): Stretch {
    var start := [AgentExecStart, RowExecuting] + AgentEvents(b.agent.events);
    match b.agent
    case AgentPanics(_) => Stretch(start, Panics)
    case Finishes(_, cost, isError, cause, usage) =>
      var ran := start + [RowCommitted(cost), AgentExecEnd(isError)];
      if isError then Stretch(ran, Ends(Flow(Failed, cause), Some(usage)))
      else var post := RunPost(b, 0, Flow(Continue, "")); Stretch(ran + post.events, post.end)
  }

  /** Everything between BundleStart and BundleEnd. */
  function Body(b: Bundle, env: Env, db: bool): Stretch {
    var pre := RunPre(b, 0);
    if !pre.end.Goes? then pre
    else if b.optsPanic then Stretch(pre.events, Panics)
    else if env.dryRun then
      match RenderOf(b, (p: Prompt) => p.dry)
      case RenderPanics => Stretch(pre.events, Panics)
      case RenderFails(_) => Stretch(pre.events, RENDER_FAILED)
      case Rendered => Stretch(pre.events, Ends(Flow(Continue, "dry-run"), None))
    else
      var asked := pre.events + [Preparing(BundleOpts(b, env))];
      match b.prepare
      case PreparePanics => Stretch(asked, Panics)
      case PrepareFails(_) => Stretch(asked, PREPARE_FAILED)
      case Row =>
        match RenderOf(b, (p: Prompt) => p.live)
        case RenderPanics => Stretch(asked + [RowAllocated], Panics)
        case RenderFails(_) => Stretch(asked + [RowAllocated] + (if db then [RowFailed] else []), RENDER_FAILED)
        case Rendered => var ran := RunAgent(b); Stretch(asked + [RowAllocated] + ran.events, ran.end)
  }

  /** execute: one result whatever happens, a panic included. */
  function BundleResult(b: Bundle, env: Env, db: bool): Result {
    var e := BundleEnv(b, env);
    match Body(b, e, db).end
    case Ends(flow, summary) => Result(b.name, e, flow, summary)
    case _ => Result(b.name, e, Flow(Failed, "panic"), None)
  }

  function BundleTrace(b: Bundle, env: Env, db: bool): seq<What> {
    var e := BundleEnv(b, env);
    [BundleStart(b.name, e)] + Body(b, e, db).events + [BundleEnd(BundleResult(b, env, db))]
  }

  /* ---- what holds of every bundle ---- */

  predicate IsPost(w: What) { (w.ActionStart? || w.ActionEnd?) && w.phase == PostExec }

  function Count(t: seq<What>, pick: What -> bool): nat {
    if t == [] then 0 else (if pick(t[0]) then 1 else 0) + Count(t[1..], pick)
  }

  lemma {:induction false} CountConcat(a: seq<What>, b: seq<What>, pick: What -> bool)
    ensures Count(a + b, pick) == Count(a, pick) + Count(b, pick)
  {
    if a == [] {
      assert a + b == b;
    } else {
      CountConcat(a[1..], b, pick);
      assert (a + b)[1..] == a[1..] + b;
    }
  }

  lemma {:induction false} CountNone(t: seq<What>, pick: What -> bool)
    requires forall w | w in t :: !pick(w)
    ensures Count(t, pick) == 0
  {
    if t != [] { assert t[0] in t; CountNone(t[1..], pick); }
  }

  lemma {:induction false} PreEvents(b: Bundle, i: nat)
    requires i <= |b.pre|
    ensures forall w | w in RunPre(b, i).events :: (w.ActionStart? || w.ActionEnd?) && w.phase == PreExec
    decreases |b.pre| - i
  {
    if i < |b.pre| { PreEvents(b, i + 1); }
  }

  lemma {:induction false} PostEvents(b: Bundle, i: nat, flow: Flow)
    requires i <= |b.post|
    ensures forall w | w in RunPost(b, i, flow).events :: IsPost(w)
    ensures !RunPost(b, i, flow).end.Goes?
    decreases |b.post| - i
  {
    if i < |b.post| {
      match b.post[i]
      case Returns(f) => PostEvents(b, i + 1, if f.state == Failed && flow.state == Continue then f else flow);
      case HookPanics =>
    }
  }

  predicate IsRow(w: What) { w.RowAllocated? }
  predicate IsExecuted(w: What) { w.RowExecuting? }
  predicate IsMarked(w: What) { w.RowFailed? }

  /** No hook, prompt, option builder or executor call of the bundle panics. */
  predicate NoPanic(b: Bundle) {
    && (forall h | h in b.pre + b.post :: h.Returns?) && !b.optsPanic && !b.prepare.PreparePanics? && b.agent.Finishes?
    && (b.prompt.Some? ==> !b.prompt.value.dry.RenderPanics? && !b.prompt.value.live.RenderPanics?)
  }

  function RowsAllocated(t: seq<What>): nat { Count(t, IsRow) }
  function RowsExecuted(t: seq<What>): nat { Count(t, IsExecuted) }
  function RowsMarked(t: seq<What>): nat { Count(t, IsMarked) }

  lemma NoRows(t: seq<What>)
    requires forall w | w in t :: !IsRow(w) && !IsExecuted(w) && !IsMarked(w)
    ensures RowsAllocated(t) == RowsExecuted(t) == RowsMarked(t) == 0
  {
    CountNone(t, IsRow);
    CountNone(t, IsExecuted);
    CountNone(t, IsMarked);
  }

  lemma RowsConcat(a: seq<What>, b: seq<What>)
    ensures RowsAllocated(a + b) == RowsAllocated(a) + RowsAllocated(b)
    ensures RowsExecuted(a + b) == RowsExecuted(a) + RowsExecuted(b)
    ensures RowsMarked(a + b) == RowsMarked(a) + RowsMarked(b)
  {
    CountConcat(a, b, IsRow);
    CountConcat(a, b, IsExecuted);
    CountConcat(a, b, IsMarked);
  }

  lemma AgentRows(b: Bundle)
    ensures RowsAllocated(RunAgent(b).events) == RowsMarked(RunAgent(b).events) == 0
    ensures RowsExecuted(RunAgent(b).events) == 1
  {
    var start := [AgentExecStart, RowExecuting] + AgentEvents(b.agent.events);
    RowsConcat([AgentExecStart, RowExecuting], AgentEvents(b.agent.events));
    NoRows(AgentEvents(b.agent.events));
    assert [AgentExecStart, RowExecuting][1..] == [RowExecuting] && [RowExecuting][1..] == [];
    if b.agent.Finishes? {
      var tail := [RowCommitted(b.agent.cost), AgentExecEnd(b.agent.isError)];
      NoRows(tail);
      RowsConcat(start, tail);
      if !b.agent.isError {
        PostEvents(b, 0, Flow(Continue, ""));
        NoRows(RunPost(b, 0, Flow(Continue, "")).events);
        RowsConcat(start + tail, RunPost(b, 0, Flow(Continue, "")).events);
      }
    }
  }

  // How far the body got.
  datatype Reached = InPre | Asked | Allocated | Marked | Ran

  function Asks(b: Bundle, e: Env): seq<What> { RunPre(b, 0).events + [Preparing(BundleOpts(b, e))] }

  function EventsOf(b: Bundle, e: Env, r: Reached): seq<What> {
    match r
    case InPre => RunPre(b, 0).events
    case Asked => Asks(b, e)
    case Allocated => Asks(b, e) + [RowAllocated]
    case Marked => Asks(b, e) + [RowAllocated] + [RowFailed]
    case Ran => Asks(b, e) + [RowAllocated] + RunAgent(b).events
  }

  lemma BodyReaches(b: Bundle, e: Env, db: bool) returns (r: Reached)
    ensures Body(b, e, db).events == EventsOf(b, e, r)
    ensures r == Allocated ==> !(NoPanic(b) && db)
  {
    var pre := RunPre(b, 0);
    r := if !pre.end.Goes? || b.optsPanic || e.dryRun then InPre
         else if !b.prepare.Row? then Asked
         else match RenderOf(b, (p: Prompt) => p.live)
              case RenderPanics => Allocated
              case RenderFails(_) => if db then Marked else Allocated
              case Rendered => Ran;
    hide RunPre, RunAgent;
  }

  lemma ReachedRows(b: Bundle, e: Env, r: Reached)
    ensures RowsAllocated(EventsOf(b, e, r)) == if r.InPre? || r.Asked? then 0 else 1
    ensures RowsMarked(EventsOf(b, e, r)) == if r.Marked? then 1 else 0
    ensures RowsExecuted(EventsOf(b, e, r)) == if r.Ran? then 1 else 0
  {
    var pre, ask := RunPre(b, 0).events, [Preparing(BundleOpts(b, e))];
    PreEvents(b, 0);
    NoRows(pre);
    NoRows(ask);
    AgentRows(b);
    assert [RowAllocated][1..] == [] && [RowFailed][1..] == [];
    assert RowsAllocated([RowAllocated]) == 1 && RowsMarked([RowFailed]) == 1;
    assert RowsExecuted([RowAllocated]) == RowsMarked([RowAllocated]) == RowsAllocated([RowFailed]) == RowsExecuted([RowFailed]) == 0;
    hide RunPre, RunAgent, RowsAllocated, RowsExecuted, RowsMarked;
    RowsConcat(pre, ask);
    RowsConcat(pre + ask, [RowAllocated]);
    RowsConcat(pre + ask + [RowAllocated], [RowFailed]);
    RowsConcat(pre + ask + [RowAllocated], RunAgent(b).events);
  }

  /** Exec-row closure of one bundle: at most one row is allocated; it is handed to
      the executor once or, when the prompt does not render, marked failed once -
      unless something panics in between, or there is no call table. */
  lemma RowsClosed(b: Bundle, env: Env, db: bool)
    ensures var t := BundleTrace(b, env, db);
      && RowsAllocated(t) <= 1
      && RowsExecuted(t) + RowsMarked(t) <= RowsAllocated(t)
      && (NoPanic(b) && db ==> RowsExecuted(t) + RowsMarked(t) == RowsAllocated(t))
  {
    var e := BundleEnv(b, env);
    var r := BodyReaches(b, e, db);
    ReachedRows(b, e, r);
    var first, last := [BundleStart(b.name, e)], [BundleEnd(BundleResult(b, env, db))];
    NoRows(first);
    NoRows(last);
    hide Body, EventsOf, RowsAllocated, RowsExecuted, RowsMarked, NoPanic;
    RowsConcat(first, Body(b, e, db).events);
    RowsConcat(first + Body(b, e, db).events, last);
  }

  /** Which agent events precede any PostExec event: one non-error AgentExecEnd. */
  lemma PostAfterAgent(b: Bundle, env: Env, db: bool, n: nat)
    requires n < |BundleTrace(b, env, db)| && IsPost(BundleTrace(b, env, db)[n])
    ensures exists m: nat :: m < n && BundleTrace(b, env, db)[m] == AgentExecEnd(false)
  {
    var e := BundleEnv(b, env);
    var t, body := BundleTrace(b, env, db), Body(b, e, db);
    PreEvents(b, 0);
    assert t[n] == body.events[n - 1];
    hide BundleEnv, BundleResult;
    var head := RunPre(b, 0).events + [Preparing(BundleOpts(b, e))] + [RowAllocated];
    var ran := RunAgent(b).events;
    if body.events == head + ran {
      var k := |b.agent.events| + 3;
      if n - 1 >= |head| {
        assert t[n] == ran[n - 1 - |head|];
        if ran[n - 1 - |head|] == t[n] && b.agent.Finishes? && !b.agent.isError {
          assert ran[k] == AgentExecEnd(false);
          assert t[|head| + 1 + k] == AgentExecEnd(false);
        }
      }
    }
  }

  lemma InnerEvents(b: Bundle, env: Env, db: bool, w: What)
    requires w in Body(b, env, db).events
    ensures !w.BundleStart? && !w.BundleEnd? && !w.StageStart? && !w.StageEnd? && !w.StepSkipped?
  {
    PreEvents(b, 0);
    PostEvents(b, 0, Flow(Continue, ""));
    var r := BodyReaches(b, env, db);
    if w in RunAgent(b).events { AgentInner(b, w); }
    hide RunPre, RunAgent, Body;
  }

  lemma AgentInner(b: Bundle, w: What)
    requires w in RunAgent(b).events
    ensures !w.BundleStart? && !w.BundleEnd? && !w.StageStart? && !w.StageEnd? && !w.StepSkipped?
  {
    PostEvents(b, 0, Flow(Continue, ""));
  }

  /** BundleStart is the first thing a bundle reports, BundleEnd the last, each
      once; BundleEnd carries the one result. */
  lemma BundleBrackets(b: Bundle, env: Env, db: bool, n: nat)
    requires n < |BundleTrace(b, env, db)|
    ensures var t := BundleTrace(b, env, db);
      && (t[n].BundleStart? <==> n == 0)
      && (t[n].BundleEnd? <==> n == |t| - 1)
      && (t[n].BundleEnd? ==> t[n].result == BundleResult(b, env, db))
      && !t[n].StageStart? && !t[n].StageEnd? && !t[n].StepSkipped?
  {
    var e := BundleEnv(b, env);
    var t, body := BundleTrace(b, env, db), Body(b, e, db);
    if 0 < n < |t| - 1 {
      assert t[n] == body.events[n - 1];
      InnerEvents(b, e, db, t[n]);
    }
  }
}
