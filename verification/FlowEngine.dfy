/** internal/flow/flow.go as methods that report as they go. A Parallel's steps are
    run one after the other here; FlowMachine has every other schedule. */
module FlowEngine {
  import opened Common
  import opened FlowBundle
  import opened FlowMeaning
  import opened FlowMachine
  import opened FlowLaws

  /** The same events, below another address. */
  function Below(at: Addr, es: seq<Event>): seq<Event> {
    seq(|es|, k requires 0 <= k < |es| => Event(at + es[k].at, es[k].what))
  }

  datatype StepOutcome = StepOutcome(name: string, results: seq<Result>, skipped: bool)

  datatype PipelineResult = PipelineResult(steps: seq<StepOutcome>, firstError: int)

  function Flatten(steps: seq<StepOutcome>): seq<Result> {
    if steps == [] then [] else Flatten(steps[..|steps| - 1]) + steps[|steps| - 1].results
  }

  /** Which bundles Verify finds failing: their names, in walk order. */
  function VerifyFailures(bs: seq<Bundle>): seq<string> {
    if bs == [] then []
    else (if bs[0].prompt.Some? && !bs[0].prompt.value.verify.Rendered? then [bs[0].name] else []) + VerifyFailures(bs[1..])
  }

  // What one hook adds to what was told before it.
  lemma PreStep(b: Bundle, i: nat, told: seq<What>)
    requires i <= |b.pre|
    ensures var r, start := RunPre(b, i), [ActionStart(PreExec, i)];
      if i == |b.pre| then told + r.events == told && r.end == Goes
      else match b.pre[i]
        case HookPanics => told + r.events == told + start && r.end == Panics
        case Returns(f) =>
          var here := told + start + [ActionEnd(PreExec, i, f)];
          if f.state != Continue then told + r.events == here && r.end == Ends(f, None)
          else told + r.events == here + RunPre(b, i + 1).events && r.end == RunPre(b, i + 1).end
  {
  }

  lemma PostStep(b: Bundle, i: nat, flow: Flow, told: seq<What>)
    requires i <= |b.post|
    ensures var r, start := RunPost(b, i, flow), [ActionStart(PostExec, i)];
      if i == |b.post| then told + r.events == told && r.end == Ends(flow, Some(UsageOf(b)))
      else match b.post[i]
        case HookPanics => told + r.events == told + start && r.end == Panics
        case Returns(f) =>
          var rest := RunPost(b, i + 1, if f.state == Failed && flow.state == Continue then f else flow);
          told + r.events == told + start + [ActionEnd(PostExec, i, f)] + rest.events && r.end == rest.end
  {
  }

  class Engine {
    var trace: seq<Event>
    const db: bool

    constructor (db: bool)
      ensures trace == [] && this.db == db
    {
      this.db := db;
      trace := [];
    }

    method Emit(at: Addr, w: What)
      modifies this
      ensures trace == old(trace) + Below(at, Tag([w]))
    {
      trace := trace + [Event(at, w)];
      assert at + [] == at;
      assert Below(at, Tag([w])) == [Event(at, w)];
    }

    method RunPreHooks(b: Bundle, at: Addr) returns (end: End)
      modifies this
      ensures trace == old(trace) + Below(at, Tag(RunPre(b, 0).events)) && end == RunPre(b, 0).end
    {
      hide Below, Tag, RunPre;
      ghost var all := RunPre(b, 0);
      ghost var told: seq<What> := [];
      NothingBelow(at);
      for i := 0 to |b.pre|
        invariant trace == old(trace) + Below(at, Tag(told))
        invariant all.events == told + RunPre(b, i).events && all.end == RunPre(b, i).end
      {
        PreStep(b, i, told);
        Emit(at, ActionStart(PreExec, i));
        BelowTag(at, told, [ActionStart(PreExec, i)]);
        told := told + [ActionStart(PreExec, i)];
        if b.pre[i].HookPanics? { return Panics; }
        var f := b.pre[i].flow;
        Emit(at, ActionEnd(PreExec, i, f));
        BelowTag(at, told, [ActionEnd(PreExec, i, f)]);
        told := told + [ActionEnd(PreExec, i, f)];
        if f.state != Continue { return Ends(f, None); }
      }
      PreStep(b, |b.pre|, told);
      end := Goes;
    }

    /** Every hook runs; the first error becomes the flow. */
    method RunPostHooks(b: Bundle, at: Addr) returns (end: End)
      modifies this
      ensures trace == old(trace) + Below(at, Tag(RunPost(b, 0, Flow(Continue, "")).events))
      ensures end == RunPost(b, 0, Flow(Continue, "")).end
    {
      hide Below, Tag, RunPost;
      var flow := Flow(Continue, "");
      ghost var all := RunPost(b, 0, flow);
      ghost var told: seq<What> := [];
      NothingBelow(at);
      for i := 0 to |b.post|
        invariant trace == old(trace) + Below(at, Tag(told))
        invariant all.events == told + RunPost(b, i, flow).events && all.end == RunPost(b, i, flow).end
      {
        PostStep(b, i, flow, told);
        Emit(at, ActionStart(PostExec, i));
        BelowTag(at, told, [ActionStart(PostExec, i)]);
        told := told + [ActionStart(PostExec, i)];
        if b.post[i].HookPanics? { return Panics; }
        var f := b.post[i].flow;
        Emit(at, ActionEnd(PostExec, i, f));
        BelowTag(at, told, [ActionEnd(PostExec, i, f)]);
        told := told + [ActionEnd(PostExec, i, f)];
        if f.state == Failed && flow.state == Continue { flow := f; }
      }
      PostStep(b, |b.post|, flow, told);
      end := Ends(flow, Some(UsageOf(b)));
    }

    /** From AgentExecStart to the last PostExec hook. */
    method ExecutePrepared(b: Bundle, at: Addr) returns (end: End)
      modifies this
      ensures trace == old(trace) + Below(at, Tag(RunAgent(b).events)) && end == RunAgent(b).end
    {
      hide Below, Tag, RunPost;
      Emit(at, AgentExecStart);
      Emit(at, RowExecuting);
      BelowTag(at, [AgentExecStart], [RowExecuting]);
      ghost var start := [AgentExecStart, RowExecuting];
      assert [AgentExecStart] + [RowExecuting] == start == start + AgentEvents(b.agent.events[..0]);
      var i := 0;
      while i < |b.agent.events|
        invariant i <= |b.agent.events|
        invariant trace == old(trace) + Below(at, Tag(start + AgentEvents(b.agent.events[..i])))
      {
        Emit(at, AgentEvent(b.agent.events[i]));
        BelowTag(at, start + AgentEvents(b.agent.events[..i]), [AgentEvent(b.agent.events[i])]);
        assert start + AgentEvents(b.agent.events[..i + 1]) == start + AgentEvents(b.agent.events[..i]) + [AgentEvent(b.agent.events[i])];
        i := i + 1;
      }
      assert b.agent.events[..i] == b.agent.events;
      ghost var told := start + AgentEvents(b.agent.events);
      if b.agent.AgentPanics? { return Panics; }
      Emit(at, RowCommitted(b.agent.cost));
      BelowTag(at, told, [RowCommitted(b.agent.cost)]);
      Emit(at, AgentExecEnd(b.agent.isError));
      BelowTag(at, told + [RowCommitted(b.agent.cost)], [AgentExecEnd(b.agent.isError)]);
      told := told + [RowCommitted(b.agent.cost), AgentExecEnd(b.agent.isError)];
      assert told == start + AgentEvents(b.agent.events) + [RowCommitted(b.agent.cost)] + [AgentExecEnd(b.agent.isError)];
      if b.agent.isError { return Ends(Flow(Failed, b.agent.cause), Some(UsageOf(b))); }
      end := RunPostHooks(b, at);
      BelowTag(at, told, RunPost(b, 0, Flow(Continue, "")).events);
    }

    /** Between BundleStart and BundleEnd. */
    method ExecuteBody(b: Bundle, env: Env, at: Addr) returns (end: End)
      modifies this
      ensures trace == old(trace) + Below(at, Tag(Body(b, env, db).events)) && end == Body(b, env, db).end
    {
      hide Below, Tag, RunPre, RunAgent, RenderOf, BundleOpts;
      end := RunPreHooks(b, at);
      if !end.Goes? { return; }
      if b.optsPanic { return Panics; }
      var opts := BundleOpts(b, env);
      if env.dryRun {
        var render := RenderOf(b, (p: Prompt) => p.dry);
        return if render.RenderPanics? then Panics else if render.RenderFails? then RENDER_FAILED
               else Ends(Flow(Continue, "dry-run"), None);
      }
      ghost var told := RunPre(b, 0).events;
      Emit(at, Preparing(opts));
      BelowTag(at, told, [Preparing(opts)]);
      told := told + [Preparing(opts)];
      if b.prepare.PreparePanics? { return Panics; }
      if b.prepare.PrepareFails? { return PREPARE_FAILED; }
      Emit(at, RowAllocated);
      BelowTag(at, told, [RowAllocated]);
      told := told + [RowAllocated];
      var render := RenderOf(b, (p: Prompt) => p.live);
      if render.RenderPanics? { return Panics; }
      if render.RenderFails? {
        if db {
          Emit(at, RowFailed);
          BelowTag(at, told, [RowFailed]);
        } else {
          assert told + [] == told;
        }
        return RENDER_FAILED;
      }
      end := ExecutePrepared(b, at);
      BelowTag(at, told, RunAgent(b).events);
    }

    /** PromptBundle.execute: always one BundleEnd, always one result. */
    method ExecuteBundle(b: Bundle, env: Env, at: Addr) returns (result: Result)
      modifies this
      ensures trace == old(trace) + Below(at, Tag(BundleTrace(b, env, db))) && result == BundleResult(b, env, db)
    {
      hide Body, Below, Tag, BundleEnv;
      var e := BundleEnv(b, env);
      Emit(at, BundleStart(b.name, e));
      var end := ExecuteBody(b, e, at);
      result := match end
        case Ends(flow, summary) => Result(b.name, e, flow, summary)
        case _ => Result(b.name, e, Flow(Failed, "panic"), None);
      Emit(at, BundleEnd(result));
      ghost var first, body, last := [BundleStart(b.name, e)], Body(b, e, db).events, [BundleEnd(result)];
      BelowTag(at, first, body);
      BelowTag(at, first + body, last);
    }

    /** execute of any step. */
    method Execute(s: Step, env: Env, at: Addr) returns (results: seq<Result>)
      requires Positional(s)
      modifies this
      decreases s, 1
      ensures trace == old(trace) + Below(at, Meaning(s, env, db).trace) && results == Meaning(s, env, db).results
    {
      match s
      case Leaf(b) =>
        var r := ExecuteBundle(b, env, at);
        results := [r];
      case Pipeline(_, _, _) =>
        var pr := RunDetailed(s, env, at);
        results := Flatten(pr.steps);
      case Parallel(name, steps, own, _, _) =>
        var e := Bind(own, env);
        Emit(at, StageStart(StageParallel, name, |steps|));
        results := RunSequential(s, e, at);
        Emit(at, StageEnd(Tally(results, 0, -1)));
        ghost var f := ParallelFrom(s, 0, e, db, false);
        BelowConcat(at, Tag([StageStart(StageParallel, name, |steps|)]), f.trace);
        BelowConcat(at, Tag([StageStart(StageParallel, name, |steps|)]) + f.trace, Tag([StageEnd(Tally(results, 0, -1))]));
        assert Tag([StageStart(StageParallel, name, |steps|)]) == [Event([], StageStart(StageParallel, name, |steps|))];
        assert Tag([StageEnd(Tally(results, 0, -1))]) == [Event([], StageEnd(Tally(results, 0, -1)))];
    }

    /** runSequential: the gate is asked before each step. */
    method RunSequential(s: Step, env: Env, at: Addr) returns (results: seq<Result>)
      requires s.Parallel? && Positional(s)
      modifies this
      decreases s, 0
      ensures trace == old(trace) + Below(at, ParallelFrom(s, 0, env, db, false).trace)
      ensures results == ParallelFrom(s, 0, env, db, false).results
    {
      hide Below, Lift, Meaning, ParallelFrom, Passes;
      results := [];
      var i := 0;
      ghost var told: seq<Event> := [];
      BelowNothing(at);
      while i < |s.steps|
        invariant i <= |s.steps| && trace == old(trace) + Below(at, told)
        invariant Resumes(s, i, env, db, told, results)
      {
        if !Passes(s.gate, i) {
          RefusedResumes(s, i, env, db, told, results);
          var rest := RefuseFrom(s, i, env);
          results := results + rest;
          return;
        }
        var rs := Execute(s.steps[i], env, at + [i]);
        ghost var m := Meaning(s.steps[i], env, db);
        BelowLift(at, i, m.trace);
        BelowConcat(at, told, Lift(i, m.trace));
        StepResumes(s, i, env, db, told, results);
        told := told + Lift(i, m.trace);
        results := results + rs;
        i := i + 1;
      }
      AllResumed(s, env, db, told, results);
    }

    method RefuseFrom(s: Step, i: nat, env: Env) returns (results: seq<Result>)
      requires s.Parallel? && i <= |s.steps|
      ensures results == Refusals(s, i, env)
    {
      results := [];
      var k := i;
      while k < |s.steps|
        invariant i <= k <= |s.steps| && results + Refusals(s, k, env) == Refusals(s, i, env)
      {
        assert results + ([Refused(s.steps[k], env)] + Refusals(s, k + 1, env)) == (results + [Refused(s.steps[k], env)]) + Refusals(s, k + 1, env);
        results := results + [Refused(s.steps[k], env)];
        k := k + 1;
      }
      assert results + [] == results;
    }

    /** runDetailed: stop at the first errored step, mark the rest skipped. */
    method RunDetailed(s: Step, env: Env, at: Addr) returns (pr: PipelineResult)
      requires s.Pipeline? && Positional(s)
      modifies this
      decreases s, 0
      ensures trace == old(trace) + Below(at, Meaning(s, env, db).trace)
      ensures Flatten(pr.steps) == Meaning(s, env, db).results
      ensures pr.firstError == FirstErrorIndex(s, Bind(s.env, env), db) && Records(s, pr.steps, |s.steps|, pr.firstError, Bind(s.env, env), db)
    {
      hide Below, Lift, Meaning, HasError, CountState, Tag, Sofar, Flatten, Records;
      var e := Bind(s.env, env);
      Emit(at, StageStart(StagePipeline, s.name, |s.steps|));
      var i, firstError, skipped := 0, -1, 0;
      var steps: seq<StepOutcome> := [];
      ghost var told := Tag([StageStart(StagePipeline, s.name, |s.steps|)]);
      PipelineStarts(s, env, db);
      while i < |s.steps|
        invariant i <= |s.steps| && trace == old(trace) + Below(at, told)
        invariant Sofar(s, i, env, db, told, steps, skipped, firstError)
      {
        if firstError >= 0 {
          Emit(at, StepSkipped(StepName(s.steps[i])));
          BelowConcat(at, told, Tag([StepSkipped(StepName(s.steps[i]))]));
          SkipSofar(s, i, env, db, told, steps, skipped, firstError);
          steps := steps + [StepOutcome(StepName(s.steps[i]), [], true)];
          skipped := skipped + 1;
          told := told + Tag([StepSkipped(StepName(s.steps[i]))]);
        } else {
          var rs := Execute(s.steps[i], e, at + [i]);
          ghost var m := Meaning(s.steps[i], e, db);
          BelowLift(at, i, m.trace);
          BelowConcat(at, told, Lift(i, m.trace));
          StepSofar(s, i, env, db, told, steps, skipped, firstError);
          steps := steps + [StepOutcome(StepName(s.steps[i]), rs, false)];
          if HasError(rs) { firstError := i; }
          told := told + Lift(i, m.trace);
        }
        i := i + 1;
      }
      var outcome := Tally(Flatten(steps), skipped, firstError);
      Emit(at, StageEnd(outcome));
      BelowConcat(at, told, Tag([StageEnd(outcome)]));
      AllSofar(s, env, db, told, steps, skipped, firstError);
      pr := PipelineResult(steps, firstError);
    }

    /** Run: verify the whole tree first; a failing bundle stops everything before
        any row is allocated. */
    method Run(top: Step, env: Env) returns (pr: PipelineResult)
      requires Positional(top)
      modifies this
      ensures var failing := VerifyFailures(Walk(top));
        if failing != [] then
          trace == old(trace) && pr.firstError == 0 && |pr.steps| == 1 && |pr.steps[0].results| == |failing|
          && forall k | 0 <= k < |failing| :: pr.steps[0].results[k].bundle == failing[k] && pr.steps[0].results[k].flow.state == Failed
        else
          trace == old(trace) + Meaning(top, env, db).trace && Flatten(pr.steps) == Meaning(top, env, db).results
          && (pr.firstError >= 0 <==> HasError(Flatten(pr.steps)))
    {
      var failing := VerifyFailures(Walk(top));
      if failing != [] {
        var rs := seq(|failing|, k requires 0 <= k < |failing| => Result(failing[k], env, Flow(Failed, "verify failed"), None));
        return PipelineResult([StepOutcome("verify", rs, false)], 0);
      }
      AtTop(Meaning(top, env, db).trace);
      if top.Pipeline? {
        pr := RunDetailed(top, env, []);
        FirstErrorShows(top, pr.steps, pr.firstError, Bind(top.env, env), db);
      } else {
        var rs := Execute(top, env, []);
        var o := StepOutcome(StepName(top), rs, false);
        FlattenSnoc([], o);
        assert [] + [o] == [o] && Flatten([]) + rs == rs;
        pr := PipelineResult([o], if HasError(rs) then 0 else -1);
      }
    }
  }

  lemma AtTop(es: seq<Event>)
    ensures Below([], es) == es
  {
    forall k | 0 <= k < |es| ensures Below([], es)[k] == es[k] { assert [] + es[k].at == es[k].at; }
  }

  lemma {:induction false} FlattenHas(steps: seq<StepOutcome>, r: Result)
    ensures r in Flatten(steps) <==> exists k :: 0 <= k < |steps| && r in steps[k].results
  {
    if steps != [] {
      var n := |steps| - 1;
      FlattenHas(steps[..n], r);
      assert forall k | 0 <= k < n :: steps[..n][k] == steps[k];
    }
  }

  /** The reported index tells whether any result is an error. */
  lemma FirstErrorShows(s: Step, steps: seq<StepOutcome>, firstError: int, env: Env, db: bool)
    requires s.Pipeline? && Records(s, steps, |s.steps|, firstError, env, db) && firstError == FirstErrorIndex(s, env, db)
    ensures firstError >= 0 <==> HasError(Flatten(steps))
  {
    if firstError >= 0 {
      var r :| r in Meaning(s.steps[firstError], env, db).results && r.flow.state == Failed;
      assert r in steps[firstError].results;
      FlattenHas(steps, r);
    } else {
      forall r | r in Flatten(steps) ensures r.flow.state != Failed { FlattenHas(steps, r); }
    }
  }

  /* ---- what the loops keep ---- */

  lemma FlattenSnoc(steps: seq<StepOutcome>, o: StepOutcome)
    ensures Flatten(steps + [o]) == Flatten(steps) + o.results
  {
    assert (steps + [o])[..|steps|] == steps;
  }

  lemma NothingBelow(at: Addr)
    ensures Below(at, Tag([])) == []
  {
  }

  lemma BelowNothing(at: Addr)
    ensures Below(at, []) == []
  {
  }

  /** What was told and returned so far, and what a parallel still does, are all it does. */
  ghost predicate Resumes(s: Step, i: nat, env: Env, db: bool, told: seq<Event>, results: seq<Result>)
    requires s.Parallel? && i <= |s.steps|
  {
    var rest := ParallelFrom(s, i, env, db, false);
    ParallelFrom(s, 0, env, db, false) == Outcome(told + rest.trace, results + rest.results)
  }

  lemma StepResumes(s: Step, i: nat, env: Env, db: bool, told: seq<Event>, results: seq<Result>)
    requires s.Parallel? && i < |s.steps| && Passes(s.gate, i) && Resumes(s, i, env, db, told, results)
    ensures var m := Meaning(s.steps[i], env, db); Resumes(s, i + 1, env, db, told + Lift(i, m.trace), results + m.results)
  {
    var m, rest := Meaning(s.steps[i], env, db), ParallelFrom(s, i + 1, env, db, false);
    assert told + (Lift(i, m.trace) + rest.trace) == (told + Lift(i, m.trace)) + rest.trace;
    assert results + (m.results + rest.results) == (results + m.results) + rest.results;
  }

  lemma RefusedResumes(s: Step, i: nat, env: Env, db: bool, told: seq<Event>, results: seq<Result>)
    requires s.Parallel? && i < |s.steps| && !Passes(s.gate, i) && Resumes(s, i, env, db, told, results)
    ensures ParallelFrom(s, 0, env, db, false) == Outcome(told, results + Refusals(s, i, env))
  {
    RefusedParallel(s, i, env, db);
    assert ParallelFrom(s, i, env, db, false) == ParallelFrom(s, i, env, db, true);
    assert told + [] == told;
  }

  lemma AllResumed(s: Step, env: Env, db: bool, told: seq<Event>, results: seq<Result>)
    requires s.Parallel? && Resumes(s, |s.steps|, env, db, told, results)
    ensures ParallelFrom(s, 0, env, db, false) == Outcome(told, results)
  {
    assert told + [] == told && results + [] == results;
  }

  /** What was told so far, and what a pipeline still does, are all it does. */
  ghost predicate Continues(s: Step, i: nat, env: Env, db: bool, told: seq<Event>, g: Gathered)
    requires s.Pipeline? && i <= |s.steps|
  {
    var rest := PipelineFrom(s, i, Bind(s.env, env), db, g);
    Meaning(s, env, db) == Outcome(told + rest.trace, rest.results)
  }

  lemma PipelineStarts(s: Step, env: Env, db: bool)
    requires s.Pipeline?
    ensures Sofar(s, 0, env, db, Tag([StageStart(StagePipeline, s.name, |s.steps|)]), [], 0, -1)
  {
    assert Tag([StageStart(StagePipeline, s.name, |s.steps|)]) == [Event([], StageStart(StagePipeline, s.name, |s.steps|))];
  }

  lemma SkipContinues(s: Step, i: nat, env: Env, db: bool, told: seq<Event>, g: Gathered)
    requires s.Pipeline? && i < |s.steps| && g.firstError >= 0 && Continues(s, i, env, db, told, g)
    ensures Continues(s, i + 1, env, db, told + Tag([StepSkipped(StepName(s.steps[i]))]), g.(skipped := g.skipped + 1))
  {
    var w := StepSkipped(StepName(s.steps[i]));
    var rest := PipelineFrom(s, i + 1, Bind(s.env, env), db, g.(skipped := g.skipped + 1));
    assert Tag([w]) == [Event([], w)];
    assert told + ([Event([], w)] + rest.trace) == (told + [Event([], w)]) + rest.trace;
  }

  lemma StepContinues(s: Step, i: nat, env: Env, db: bool, told: seq<Event>, g: Gathered)
    requires s.Pipeline? && i < |s.steps| && g.firstError < 0 && Continues(s, i, env, db, told, g)
    ensures var m := Meaning(s.steps[i], Bind(s.env, env), db);
      Continues(s, i + 1, env, db, told + Lift(i, m.trace), Gather(g, i, m.results))
  {
    var m := Meaning(s.steps[i], Bind(s.env, env), db);
    var rest := PipelineFrom(s, i + 1, Bind(s.env, env), db, Gather(g, i, m.results));
    assert told + (Lift(i, m.trace) + rest.trace) == (told + Lift(i, m.trace)) + rest.trace;
  }

  lemma PipelineEnds(s: Step, env: Env, db: bool, told: seq<Event>, g: Gathered)
    requires s.Pipeline? && Continues(s, |s.steps|, env, db, told, g)
    ensures Meaning(s, env, db) == Outcome(told + Tag([StageEnd(Tally(g.results, g.skipped, g.firstError))]), g.results)
  {
    var w := StageEnd(Tally(g.results, g.skipped, g.firstError));
    assert Tag([w]) == [Event([], w)];
  }

  function FirstErrorIndex(s: Step, env: Env, db: bool): int
    requires s.Pipeline?
  {
    var f := FirstError(s, 0, env, db);
    if f < |s.steps| then f else -1
  }

  /** After i steps: firstError is the first errored step among them, if any. */
  ghost predicate Stopped(s: Step, i: nat, firstError: int, env: Env, db: bool)
    requires s.Pipeline? && i <= |s.steps|
  {
    if firstError < 0 then firstError == -1 && FirstError(s, 0, env, db) == FirstError(s, i, env, db)
    else firstError < i && firstError == FirstError(s, 0, env, db)
  }

  lemma ErrorStops(s: Step, i: nat, firstError: int, env: Env, db: bool)
    requires s.Pipeline? && i < |s.steps| && firstError < 0 && Stopped(s, i, firstError, env, db)
    ensures Stopped(s, i + 1, if HasError(Meaning(s.steps[i], env, db).results) then i else firstError, env, db)
  {
  }

  /** One outcome per step: its own results up to the first errored step, skipped after it. */
  ghost predicate Records(s: Step, steps: seq<StepOutcome>, i: nat, firstError: int, env: Env, db: bool)
    requires s.Pipeline? && i <= |s.steps|
  {
    && |steps| == i
    && forall k | 0 <= k < i :: steps[k] ==
         if 0 <= firstError < k then StepOutcome(StepName(s.steps[k]), [], true)
         else StepOutcome(StepName(s.steps[k]), Meaning(s.steps[k], env, db).results, false)
  }

  /** The loop of runDetailed after i steps. */
  ghost predicate Sofar(s: Step, i: nat, env: Env, db: bool, told: seq<Event>, steps: seq<StepOutcome>, skipped: nat, firstError: int)
    requires s.Pipeline? && i <= |s.steps|
  {
    && Continues(s, i, env, db, told, Gathered(Flatten(steps), skipped, firstError))
    && Stopped(s, i, firstError, Bind(s.env, env), db)
    && Records(s, steps, i, firstError, Bind(s.env, env), db)
  }

  lemma SkipSofar(s: Step, i: nat, env: Env, db: bool, told: seq<Event>, steps: seq<StepOutcome>, skipped: nat, firstError: int)
    requires s.Pipeline? && i < |s.steps| && firstError >= 0 && Sofar(s, i, env, db, told, steps, skipped, firstError)
    ensures Sofar(s, i + 1, env, db, told + Tag([StepSkipped(StepName(s.steps[i]))]),
                  steps + [StepOutcome(StepName(s.steps[i]), [], true)], skipped + 1, firstError)
  {
    hide Continues, FirstError, HasError, Meaning;
    SkipContinues(s, i, env, db, told, Gathered(Flatten(steps), skipped, firstError));
    FlattenSnoc(steps, StepOutcome(StepName(s.steps[i]), [], true));
    assert Flatten(steps) + [] == Flatten(steps);
  }

  lemma StepSofar(s: Step, i: nat, env: Env, db: bool, told: seq<Event>, steps: seq<StepOutcome>, skipped: nat, firstError: int)
    requires s.Pipeline? && i < |s.steps| && firstError < 0 && Sofar(s, i, env, db, told, steps, skipped, firstError)
    ensures var m := Meaning(s.steps[i], Bind(s.env, env), db);
      Sofar(s, i + 1, env, db, told + Lift(i, m.trace), steps + [StepOutcome(StepName(s.steps[i]), m.results, false)], skipped,
            if HasError(m.results) then i else firstError)
  {
    hide Continues, HasError, Meaning, Stopped, Records, Flatten, FirstError, Lift;
    var m := Meaning(s.steps[i], Bind(s.env, env), db);
    StepContinues(s, i, env, db, told, Gathered(Flatten(steps), skipped, firstError));
    ErrorStops(s, i, firstError, Bind(s.env, env), db);
    FlattenSnoc(steps, StepOutcome(StepName(s.steps[i]), m.results, false));
    RecordStep(s, steps, i, firstError, if HasError(m.results) then i else firstError, Bind(s.env, env), db);
  }

  lemma RecordStep(s: Step, steps: seq<StepOutcome>, i: nat, before: int, after: int, env: Env, db: bool)
    requires s.Pipeline? && i < |s.steps| && before < 0 && Records(s, steps, i, before, env, db) && (after == before || after == i)
    ensures Records(s, steps + [StepOutcome(StepName(s.steps[i]), Meaning(s.steps[i], env, db).results, false)], i + 1, after, env, db)
  {
    hide Meaning;
  }

  lemma AllSofar(s: Step, env: Env, db: bool, told: seq<Event>, steps: seq<StepOutcome>, skipped: nat, firstError: int)
    requires s.Pipeline? && Sofar(s, |s.steps|, env, db, told, steps, skipped, firstError)
    ensures Meaning(s, env, db) == Outcome(told + Tag([StageEnd(Tally(Flatten(steps), skipped, firstError))]), Flatten(steps))
    ensures firstError == FirstErrorIndex(s, Bind(s.env, env), db) && Records(s, steps, |s.steps|, firstError, Bind(s.env, env), db)
  {
    PipelineEnds(s, env, db, told, Gathered(Flatten(steps), skipped, firstError));
  }

  lemma BelowConcat(at: Addr, x: seq<Event>, y: seq<Event>)
    ensures Below(at, x) + Below(at, y) == Below(at, x + y)
  {
  }

  lemma BelowLift(at: Addr, i: nat, es: seq<Event>)
    ensures Below(at + [i], es) == Below(at, Lift(i, es))
  {
    forall k | 0 <= k < |es| ensures Below(at + [i], es)[k] == Below(at, Lift(i, es))[k] {
      assert (at + [i]) + es[k].at == at + ([i] + es[k].at);
    }
  }

  lemma BelowTag(at: Addr, x: seq<What>, y: seq<What>)
    ensures Below(at, Tag(x)) + Below(at, Tag(y)) == Below(at, Tag(x + y))
  {
  }

  /* ---- what verification finds ---- */

  /** The bundle has a prompt, and resolving it in the preview fails or panics. */
  predicate Broken(b: Bundle) {
    b.prompt.Some? && (b.prompt.value.verify.RenderFails? || b.prompt.value.verify.RenderPanics?)
  }

  /** The bundle is a leaf of the tree. */
  ghost predicate Under(s: Step, b: Bundle)
    decreases s
  {
    if s.Leaf? then s.bundle == b else exists k | k in s.steps :: Under(k, b)
  }

  lemma {:induction false} WalkFinds(s: Step, b: Bundle)
    ensures b in Walk(s) <==> Under(s, b)
    decreases s, if s.Leaf? then 0 else |s.steps| + 1
  {
    if !s.Leaf? {
      WalkFromFinds(s, 0, b);
      if k :| k in s.steps && Under(k, b) {
        var i :| 0 <= i < |s.steps| && s.steps[i] == k;
      }
    }
  }

  lemma {:induction false} WalkFromFinds(s: Step, i: nat, b: Bundle)
    requires !s.Leaf? && i <= |s.steps|
    ensures b in WalkFrom(s, i) <==> exists k :: i <= k < |s.steps| && Under(s.steps[k], b)
    decreases s, |s.steps| - i
  {
    if i < |s.steps| {
      WalkFinds(s.steps[i], b);
      WalkFromFinds(s, i + 1, b);
    }
  }

  /** Verification reports exactly the broken bundles of the tree, each by its name, and lets a tree run that has none. */
  lemma VerifyTells(s: Step, name: string)
    ensures name in VerifyFailures(Walk(s)) <==> exists b :: Under(s, b) && Broken(b) && b.name == name
    ensures VerifyFailures(Walk(s)) == [] <==> forall b | Under(s, b) :: !Broken(b)
  {
    forall b ensures b in Walk(s) <==> Under(s, b) { WalkFinds(s, b); }
    FailuresAre(Walk(s), name);
    hide Walk, Under, VerifyFailures, Broken;
  }

  lemma FirstFailure(bs: seq<Bundle>, name: string)
    requires bs != []
    ensures name in VerifyFailures(bs) <==> (Broken(bs[0]) && bs[0].name == name) || name in VerifyFailures(bs[1..])
    ensures VerifyFailures(bs) == [] <==> !Broken(bs[0]) && VerifyFailures(bs[1..]) == []
  {
  }

  lemma {:induction false} FailuresAre(bs: seq<Bundle>, name: string)
    ensures name in VerifyFailures(bs) <==> exists b :: b in bs && Broken(b) && b.name == name
    ensures VerifyFailures(bs) == [] <==> forall b | b in bs :: !Broken(b)
  {
    if bs != [] {
      var first, rest := bs[0], bs[1..];
      FailuresAre(rest, name);
      FirstFailure(bs, name);
      assert forall b :: b in bs <==> b == first || b in rest;
      hide Broken, VerifyFailures;
      if b :| b in rest && Broken(b) && b.name == name { assert b in bs; }
    }
  }

  /** In walk order, one failure for each. */
  lemma {:induction false} FailuresInOrder(a: seq<Bundle>, b: seq<Bundle>, x: Bundle)
    ensures VerifyFailures(a + b) == VerifyFailures(a) + VerifyFailures(b)
    ensures VerifyFailures([x]) == if Broken(x) then [x.name] else []
  {
    assert [x][1..] == [];
    if a == [] {
      assert a + b == b;
    } else {
      assert (a + b)[1..] == a[1..] + b;
      FailuresInOrder(a[1..], b, x);
    }
  }
}
