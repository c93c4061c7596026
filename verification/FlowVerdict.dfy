/** What the result of one bundle means, read off the events it reported. */
module FlowVerdict {
  import opened Common
  import opened FlowBundle

  /** A hook that stops the bundle: before the agent anything but going on, after it an error. */
  predicate Stops(w: What) {
    w.ActionEnd? && if w.phase == PreExec then w.flow.state != Continue else w.flow.state == Failed
  }

  predicate Skips(w: What) { w.ActionEnd? && w.phase == PreExec && w.flow.state == Skip }

  predicate Begins(w: What) { w.ActionStart? }
  predicate Returned(w: What) { w.ActionEnd? }

  predicate NoneStops(t: seq<What>) { forall w | w in t :: !Stops(w) }

  predicate SomeSkips(t: seq<What>) { exists w | w in t :: Skips(w) }

  /** Every hook that was started came back. */
  predicate AllReturned(t: seq<What>) { Count(t, Begins) == Count(t, Returned) }

  /** A dry run whose prompt resolves. */
  predicate DryRunRenders(b: Bundle, env: Env) {
    env.dryRun && !b.optsPanic && b.prompt.Some? && b.prompt.value.dry.Rendered?
  }

  lemma CountTwo(w: What, w': What, pick: What -> bool)
    ensures Count([w], pick) == if pick(w) then 1 else 0
    ensures Count([w, w'], pick) == (if pick(w) then 1 else 0) + if pick(w') then 1 else 0
  {
    assert [w, w'][1..] == [w'] && [w'][1..] == [] && [w][1..] == [];
    assert Count([w'], pick) == if pick(w') then 1 else 0;
  }

  lemma CountPair(w: What, w': What)
    ensures Count([w, w'], Begins) == (if w.ActionStart? then 1 else 0) + if w'.ActionStart? then 1 else 0
    ensures Count([w, w'], Returned) == (if w.ActionEnd? then 1 else 0) + if w'.ActionEnd? then 1 else 0
    ensures Count([w], Begins) == (if w.ActionStart? then 1 else 0) && Count([w], Returned) == if w.ActionEnd? then 1 else 0
  {
    CountTwo(w, w', Begins);
    CountTwo(w, w', Returned);
  }

  lemma HooksConcat(x: seq<What>, y: seq<What>)
    ensures Count(x + y, Begins) == Count(x, Begins) + Count(y, Begins)
    ensures Count(x + y, Returned) == Count(x, Returned) + Count(y, Returned)
    ensures NoneStops(x + y) <==> NoneStops(x) && NoneStops(y)
    ensures SomeSkips(x + y) <==> SomeSkips(x) || SomeSkips(y)
  {
    CountConcat(x, y, Begins);
    CountConcat(x, y, Returned);
    assert forall w :: w in x + y <==> w in x || w in y;
    hide Stops, Skips;
  }

  lemma NoHooks(t: seq<What>)
    requires forall w | w in t :: !w.ActionStart? && !w.ActionEnd?
    ensures AllReturned(t) && Count(t, Begins) == 0 && NoneStops(t) && !SomeSkips(t)
  {
    CountNone(t, Begins);
    CountNone(t, Returned);
  }

  lemma {:induction false} PreVerdict(b: Bundle, i: nat)
    requires i <= |b.pre|
    ensures var pre := RunPre(b, i);
      && Count(pre.events, Begins) == Count(pre.events, Returned) + (if pre.end.Panics? then 1 else 0)
      && (pre.end.Goes? ==> NoneStops(pre.events) && !SomeSkips(pre.events))
      && (pre.end.Panics? ==> !SomeSkips(pre.events))
      && (pre.end.Ends? ==> pre.end.flow.state != Continue && pre.end.summary.None? && !NoneStops(pre.events)
                            && (pre.end.flow.state == Skip <==> SomeSkips(pre.events)))
    decreases |b.pre| - i
  {
    if i < |b.pre| {
      var start := ActionStart(PreExec, i);
      match b.pre[i]
      case HookPanics => CountPair(start, start);
      case Returns(f) =>
        var end := ActionEnd(PreExec, i, f);
        CountPair(start, end);
        assert end in [start, end];
        if f.state == Continue {
          PreVerdict(b, i + 1);
          HooksConcat([start, end], RunPre(b, i + 1).events);
        }
    } else {
      NoHooks([]);
    }
  }

  lemma {:induction false} PostVerdict(b: Bundle, i: nat, flow: Flow)
    requires i <= |b.post| && flow.state != Skip
    ensures var post := RunPost(b, i, flow);
      && Count(post.events, Begins) == Count(post.events, Returned) + (if post.end.Panics? then 1 else 0)
      && !SomeSkips(post.events) && !post.end.Goes?
      && (post.end.Ends? ==> post.end.flow.state != Skip
                             && (post.end.flow.state == Continue <==> flow.state == Continue && NoneStops(post.events))
                             && post.end.summary == Some(UsageOf(b)))
    decreases |b.post| - i
  {
    if i < |b.post| {
      var start := ActionStart(PostExec, i);
      match b.post[i]
      case HookPanics => CountPair(start, start);
      case Returns(f) =>
        var end := ActionEnd(PostExec, i, f);
        var flow' := if f.state == Failed && flow.state == Continue then f else flow;
        CountPair(start, end);
        assert end in [start, end];
        PostVerdict(b, i + 1, flow');
        HooksConcat([start, end], RunPost(b, i + 1, flow').events);
    } else {
      NoHooks([]);
    }
  }

  /** What the agent's own part reports before any hook after it. */
  function AgentPart(b: Bundle): seq<What> {
    [AgentExecStart, RowExecuting] + AgentEvents(b.agent.events)
    + if b.agent.Finishes? then [RowCommitted(b.agent.cost), AgentExecEnd(b.agent.isError)] else []
  }

  lemma AgentPartVerdict(b: Bundle)
    ensures NoneStops(AgentPart(b)) && AllReturned(AgentPart(b)) && !SomeSkips(AgentPart(b))
    ensures forall e :: AgentExecEnd(e) in AgentPart(b) <==> b.agent.Finishes? && b.agent.isError == e
  {
    var t := AgentPart(b);
    NoHooks(t);
    if b.agent.Finishes? { assert t[|t| - 1] == AgentExecEnd(b.agent.isError); }
  }

  lemma AgentSplits(b: Bundle)
    ensures var ran, post := RunAgent(b), RunPost(b, 0, Flow(Continue, ""));
      if b.agent.AgentPanics? then ran == Stretch(AgentPart(b), Panics)
      else if b.agent.isError then ran == Stretch(AgentPart(b), Ends(Flow(Failed, b.agent.cause), Some(b.agent.usage)))
      else ran == Stretch(AgentPart(b) + post.events, post.end)
  {
    hide RunPost;
    var start := [AgentExecStart, RowExecuting] + AgentEvents(b.agent.events);
    assert start + [] == start;
  }

  /** The agent's part: how it ended and what the hooks after it did decide. */
  lemma AgentVerdict(b: Bundle)
    ensures var ran := RunAgent(b);
      && !ran.end.Goes? && !SomeSkips(ran.events) && (ran.end.Ends? ==> ran.end.flow.state != Skip)
      && (forall e :: AgentExecEnd(e) in ran.events <==> b.agent.Finishes? && b.agent.isError == e)
      && (AgentExecEnd(true) in ran.events ==> ran.end == Ends(Flow(Failed, b.agent.cause), Some(b.agent.usage)))
      && ((ran.end.Ends? && ran.end.flow.state == Continue)
          <==> AllReturned(ran.events) && NoneStops(ran.events) && AgentExecEnd(false) in ran.events)
  {
    var post := RunPost(b, 0, Flow(Continue, ""));
    AgentSplits(b);
    AgentPartVerdict(b);
    PostVerdict(b, 0, Flow(Continue, ""));
    PostEvents(b, 0, Flow(Continue, ""));
    HooksConcat(AgentPart(b), post.events);
    hide AgentPart, RunPost, RunAgent, Count, Stops, Skips, NoneStops, SomeSkips;
  }

  /* ---- the whole bundle ---- */

  /** What is reported once the hooks before the agent have all let it go on. */
  function Onward(b: Bundle, env: Env, db: bool): seq<What> {
    if b.optsPanic || env.dryRun then []
    else
      [Preparing(BundleOpts(b, env))]
      + if !b.prepare.Row? then []
        else match RenderOf(b, (p: Prompt) => p.live)
             case RenderPanics => [RowAllocated]
             case RenderFails(_) => [RowAllocated] + if db then [RowFailed] else []
             case Rendered => [RowAllocated] + RunAgent(b).events
  }

  predicate Reaches(b: Bundle, env: Env) {
    !b.optsPanic && !env.dryRun && b.prepare.Row? && b.prompt.Some? && b.prompt.value.live.Rendered?
  }

  lemma BodySplits(b: Bundle, env: Env, db: bool)
    ensures var pre, body := RunPre(b, 0), Body(b, env, db);
      if !pre.end.Goes? then body == pre
      else
        && body.events == pre.events + Onward(b, env, db)
        && (Reaches(b, env) ==> body.end == RunAgent(b).end)
        && (!Reaches(b, env) ==> body.end.Panics? || body.end.Ends?)
        && (!Reaches(b, env) && DryRunRenders(b, env) ==> body.end.Ends? && body.end.flow.state == Continue)
        && (!Reaches(b, env) && !DryRunRenders(b, env) && body.end.Ends? ==> body.end.flow.state == Failed)
  {
    hide RunPre, RunAgent;
    var pre := RunPre(b, 0).events;
    assert pre + [] == pre;
    var asked := pre + [Preparing(BundleOpts(b, env))];
    assert asked + [RowAllocated] + [] == asked + [RowAllocated];
    assert asked + [RowAllocated] + [RowFailed] == asked + ([RowAllocated] + [RowFailed]);
    assert asked + [RowAllocated] + RunAgent(b).events == asked + ([RowAllocated] + RunAgent(b).events);
  }

  lemma OnwardVerdict(b: Bundle, env: Env, db: bool)
    ensures var on, ran := Onward(b, env, db), RunAgent(b).events;
      if Reaches(b, env) then
        && (NoneStops(on) <==> NoneStops(ran)) && (AllReturned(on) <==> AllReturned(ran)) && (SomeSkips(on) <==> SomeSkips(ran))
        && forall e :: AgentExecEnd(e) in on <==> AgentExecEnd(e) in ran
      else NoneStops(on) && AllReturned(on) && !SomeSkips(on) && forall e :: AgentExecEnd(e) !in on
  {
    var on, ran := Onward(b, env, db), RunAgent(b).events;
    hide RunAgent;
    if Reaches(b, env) {
      var head := [Preparing(BundleOpts(b, env)), RowAllocated];
      assert on == head + ran;
      NoHooks(head);
      HooksConcat(head, ran);
    } else {
      NoHooks(on);
    }
  }

  lemma BodyVerdict(b: Bundle, env: Env, db: bool)
    ensures var body := Body(b, env, db); var t := body.events;
      && ((body.end.Ends? && body.end.flow.state == Continue)
          <==> NoneStops(t) && AllReturned(t) && (AgentExecEnd(false) in t || DryRunRenders(b, env)))
      && ((body.end.Ends? && body.end.flow.state == Skip) <==> SomeSkips(t))
      && (AgentExecEnd(true) in t ==> b.agent.Finishes? && body.end == Ends(Flow(Failed, b.agent.cause), Some(b.agent.usage)))
      && !body.end.Goes?
  {
    hide RunPre, RunAgent, Body, Onward, Stops, Skips, NoneStops, SomeSkips, Count;
    var pre, on := RunPre(b, 0), Onward(b, env, db);
    BodySplits(b, env, db);
    PreVerdict(b, 0);
    PreEvents(b, 0);
    OnwardVerdict(b, env, db);
    AgentVerdict(b);
    HooksConcat(pre.events, on);
  }

  /**
    What the one result says, by the events alone but for the dry run, which reports none: it goes on exactly when no
    hook stopped the bundle, every hook came back, and the agent ended without an error or a dry run's prompt resolved;
    it is a skip exactly when a hook before the agent skipped; anything else, a panic included, is a failure - and an
    agent that ended in an error is one with the agent's own cause.
  */
  lemma Verdict(b: Bundle, env: Env, db: bool)
    ensures var t, r := BundleTrace(b, env, db), BundleResult(b, env, db);
      && (r.flow.state == Continue
          <==> NoneStops(t) && AllReturned(t) && (AgentExecEnd(false) in t || DryRunRenders(b, BundleEnv(b, env))))
      && (r.flow.state == Skip <==> SomeSkips(t))
      && (AgentExecEnd(true) in t ==> b.agent.Finishes? && r.flow == Flow(Failed, b.agent.cause) && r.summary == Some(b.agent.usage))
  {
    var e := BundleEnv(b, env);
    var body, first, last := Body(b, e, db).events, [BundleStart(b.name, e)], [BundleEnd(BundleResult(b, env, db))];
    BodyVerdict(b, e, db);
    NoHooks(first);
    NoHooks(last);
    HooksConcat(first, body);
    HooksConcat(first + body, last);
    hide Body, BundleEnv, Stops, Skips, NoneStops, SomeSkips, Count;
    assert forall x :: AgentExecEnd(x) in first + body + last <==> AgentExecEnd(x) in body;
  }

  /* ---- what runs, and in which order ---- */

  function FlowOf(h: Hook): Flow { if h.Returns? then h.flow else Flow(Failed, "panic") }

  /** The hooks one after the other, each started and ended. */
  function HookRun(phase: Phase, hooks: seq<Hook>): seq<What> {
    if hooks == [] then []
    else
      var n := |hooks| - 1;
      HookRun(phase, hooks[..n]) + [ActionStart(phase, n), ActionEnd(phase, n, FlowOf(hooks[n]))]
  }

  lemma {:induction false} PreGoesOn(b: Bundle, i: nat)
    requires i <= |b.pre| && forall k | 0 <= k < i :: b.pre[k].Returns? && b.pre[k].flow.state == Continue
    ensures RunPre(b, 0).events == HookRun(PreExec, b.pre[..i]) + RunPre(b, i).events && RunPre(b, 0).end == RunPre(b, i).end
    decreases i
  {
    if i == 0 {
      assert b.pre[..0] == [];
    } else {
      PreGoesOn(b, i - 1);
      assert b.pre[..i][..i - 1] == b.pre[..i - 1];
    }
  }

  lemma {:induction false} PostGoesOn(b: Bundle, i: nat, flow: Flow)
    requires i <= |b.post| && forall k | 0 <= k < i :: b.post[k].Returns?
    requires forall k | 0 <= k < i :: b.post[k].flow.state != Failed
    ensures RunPost(b, 0, flow).events == HookRun(PostExec, b.post[..i]) + RunPost(b, i, flow).events
    ensures RunPost(b, 0, flow).end == RunPost(b, i, flow).end
    decreases i
  {
    if i == 0 {
      assert b.post[..0] == [];
    } else {
      PostGoesOn(b, i - 1, flow);
      assert b.post[..i][..i - 1] == b.post[..i - 1];
    }
  }

  /** Once one has failed, the hooks after it run all the same and change nothing. */
  lemma {:induction false} PostFailedRuns(b: Bundle, i: nat, flow: Flow)
    requires i <= |b.post| && flow.state == Failed && forall k | i <= k < |b.post| :: b.post[k].Returns?
    ensures HookRun(PostExec, b.post[..i]) + RunPost(b, i, flow).events == HookRun(PostExec, b.post)
    ensures RunPost(b, i, flow).end == Ends(flow, Some(UsageOf(b)))
    decreases |b.post| - i
  {
    assert i == |b.post| ==> b.post[..i] == b.post;
    if i < |b.post| {
      PostFailedRuns(b, i + 1, flow);
      assert b.post[..i + 1][..i] == b.post[..i];
    }
  }

  /** The first hook that does not let the bundle go on is the last thing that happens in it, and the result is its own. */
  lemma FirstStopEnds(b: Bundle, env: Env, db: bool, k: nat)
    requires k < |b.pre| && (forall i | 0 <= i < k :: b.pre[i].Returns? && b.pre[i].flow.state == Continue)
    requires b.pre[k].Returns? && b.pre[k].flow.state != Continue
    ensures var t, r := BundleTrace(b, env, db), BundleResult(b, env, db);
      && t == [BundleStart(b.name, BundleEnv(b, env))] + HookRun(PreExec, b.pre[..k + 1]) + [BundleEnd(r)]
      && r.flow == b.pre[k].flow && r.summary == None
  {
    PreGoesOn(b, k);
    assert b.pre[..k + 1][..k] == b.pre[..k];
    hide BundleEnv;
  }

  /** A row, and an agent that ends without an error. */
  function AgentTrace(b: Bundle, env: Env): seq<What>
    requires b.agent.Finishes?
  {
    [Preparing(BundleOpts(b, env)), RowAllocated, AgentExecStart, RowExecuting] + AgentEvents(b.agent.events)
    + [RowCommitted(b.agent.cost), AgentExecEnd(false)]
  }

  /** Nothing in the way of the agent: no dry run, the hooks go on, a row, a prompt. */
  predicate Clear(b: Bundle, env: Env) {
    Reaches(b, env) && forall h | h in b.pre :: h.Returns? && h.flow.state == Continue
  }

  /**
    The whole of a bundle whose agent ends without an error and whose later hooks come back: every hook before it, one
    row, the agent with all it reports and its cost committed, then every hook after it, whatever they return; the first
    of those that fails is the result.
  */
  lemma WholeRun(b: Bundle, env: Env, db: bool, k: nat)
    requires Clear(b, BundleEnv(b, env)) && b.agent.Finishes? && !b.agent.isError && (forall h | h in b.post :: h.Returns?)
    requires k <= |b.post| && (forall i | 0 <= i < k :: b.post[i].flow.state != Failed)
    requires k < |b.post| ==> b.post[k].flow.state == Failed
    ensures var e, t, r := BundleEnv(b, env), BundleTrace(b, env, db), BundleResult(b, env, db);
      && t == [BundleStart(b.name, e)] + (HookRun(PreExec, b.pre) + AgentTrace(b, e) + HookRun(PostExec, b.post)) + [BundleEnd(r)]
      && r.flow == (if k < |b.post| then b.post[k].flow else Flow(Continue, ""))
      && r.summary == Some(b.agent.usage)
  {
    var e := BundleEnv(b, env);
    PostsRun(b, k);
    ClearBody(b, e, db);
    hide *;
    TraceIs(b, env, db);
  }

  lemma TraceIs(b: Bundle, env: Env, db: bool)
    ensures var e, r := BundleEnv(b, env), BundleResult(b, env, db); var body := Body(b, e, db);
      && BundleTrace(b, env, db) == [BundleStart(b.name, e)] + body.events + [BundleEnd(r)]
      && (body.end.Ends? ==> r.flow == body.end.flow && r.summary == body.end.summary)
  {
    hide Body, BundleEnv;
  }

  lemma ClearBody(b: Bundle, e: Env, db: bool)
    requires Clear(b, e) && b.agent.Finishes? && !b.agent.isError
    ensures var body, post := Body(b, e, db), RunPost(b, 0, Flow(Continue, ""));
      && body.events == HookRun(PreExec, b.pre) + AgentTrace(b, e) + post.events
      && body.end == post.end
  {
    PreAll(b);
    ClearOnward(b, e, db);
    ReachesOnward(b, e, db);
    hide *;
    var on, part := RunPost(b, 0, Flow(Continue, "")).events, AgentTrace(b, e);
    assert HookRun(PreExec, b.pre) + (part + on) == HookRun(PreExec, b.pre) + part + on;
  }

  lemma PreAll(b: Bundle)
    requires forall h | h in b.pre :: h.Returns? && h.flow.state == Continue
    ensures RunPre(b, 0) == Stretch(HookRun(PreExec, b.pre), Goes)
  {
    PreGoesOn(b, |b.pre|);
    assert b.pre[..|b.pre|] == b.pre && RunPre(b, |b.pre|) == Stretch([], Goes);
  }

  lemma ReachesOnward(b: Bundle, e: Env, db: bool)
    requires Reaches(b, e) && RunPre(b, 0).end.Goes?
    ensures Body(b, e, db).events == RunPre(b, 0).events + Onward(b, e, db) && Body(b, e, db).end == RunAgent(b).end
  {
    BodySplits(b, e, db);
  }

  lemma ClearOnward(b: Bundle, e: Env, db: bool)
    requires Reaches(b, e) && b.agent.Finishes? && !b.agent.isError
    ensures var post := RunPost(b, 0, Flow(Continue, ""));
      Onward(b, e, db) == AgentTrace(b, e) + post.events && RunAgent(b).end == post.end
  {
    AgentSplits(b);
    var start, part, post := [Preparing(BundleOpts(b, e)), RowAllocated], AgentPart(b), RunPost(b, 0, Flow(Continue, "")).events;
    assert Onward(b, e, db) == start + RunAgent(b).events;
    hide Onward, RunAgent, Reaches, RunPost, BundleOpts, AgentEvents;
    assert start + part == AgentTrace(b, e);
    hide AgentPart;
    assert start + (part + post) == start + part + post;
  }

  lemma PostsRun(b: Bundle, k: nat)
    requires (forall h | h in b.post :: h.Returns?) && k <= |b.post|
    requires (forall i | 0 <= i < k :: b.post[i].flow.state != Failed) && (k < |b.post| ==> b.post[k].flow.state == Failed)
    ensures RunPost(b, 0, Flow(Continue, "")).events == HookRun(PostExec, b.post)
    ensures RunPost(b, 0, Flow(Continue, "")).end
         == Ends(if k < |b.post| then b.post[k].flow else Flow(Continue, ""), Some(UsageOf(b)))
  {
    var go := Flow(Continue, "");
    PostGoesOn(b, k, go);
    if k < |b.post| {
      PostFailedRuns(b, k + 1, b.post[k].flow);
      assert b.post[..k + 1][..k] == b.post[..k];
    } else {
      assert b.post[..k] == b.post;
    }
  }

  /* ---- with which settings ---- */

  /** The first setting that is not empty. */
  function FirstSet(ss: seq<string>): string {
    if ss == [] then "" else if ss[0] != "" then ss[0] else FirstSet(ss[1..])
  }

  /**
    The bundle's own environment replaces the one passed down; its role and action, when set, win over that, and the
    options' own values over both. Everything the bundle reports carries that environment, and the row is prepared with
    those options.
  */
  lemma SettingsReach(b: Bundle, env: Env, db: bool)
    ensures var t, r := BundleTrace(b, env, db), BundleResult(b, env, db);
      var base := if b.env.Some? then b.env.value else env;
      var given := if b.opts.Some? then b.opts.value else RunOpts("", "", "", "");
      && r.bundle == b.name && t[0] == BundleStart(b.name, r.env)
      && r.env == Env(FirstSet([b.role, base.role]), FirstSet([b.action, base.action]), base.workDir, base.batch, base.dryRun)
      && forall o | Preparing(o) in t ::
           o == RunOpts(FirstSet([given.role, b.role, base.role]), FirstSet([given.action, b.action, base.action]),
                        FirstSet([given.workDir, base.workDir]), FirstSet([given.batch, base.batch]))
  {
    var e := BundleEnv(b, env);
    var base := if b.env.Some? then b.env.value else env;
    var given := if b.opts.Some? then b.opts.value else RunOpts("", "", "", "");
    FirstOfTwo(b.role, base.role);
    FirstOfTwo(b.action, base.action);
    FirstOfThree(given.role, b.role, base.role);
    FirstOfThree(given.action, b.action, base.action);
    FirstOfTwo(given.workDir, base.workDir);
    FirstOfTwo(given.batch, base.batch);
    forall o | Preparing(o) in Body(b, e, db).events ensures o == BundleOpts(b, e) { PreparedOnce(b, e, db, o); }
    hide Body, FirstSet;
  }

  lemma FirstOfTwo(a: string, c: string)
    ensures FirstSet([a, c]) == if a != "" then a else c
  {
    assert [a, c][1..] == [c] && [c][1..] == [];
    assert FirstSet([c]) == c;
  }

  lemma FirstOfThree(a: string, c: string, d: string)
    ensures FirstSet([a, c, d]) == if a != "" then a else if c != "" then c else d
  {
    FirstOfTwo(c, d);
    assert [a, c, d][1..] == [c, d];
  }

  lemma PreparedOnce(b: Bundle, e: Env, db: bool, o: RunOpts)
    requires Preparing(o) in Body(b, e, db).events
    ensures o == BundleOpts(b, e)
  {
    PreEvents(b, 0);
    BodySplits(b, e, db);
    hide RunPre, Body, BundleOpts, RunAgent;
    if Preparing(o) in RunAgent(b).events { AgentPreparesNothing(b, o); }
  }

  lemma AgentPreparesNothing(b: Bundle, o: RunOpts)
    ensures Preparing(o) !in RunAgent(b).events
  {
    AgentSplits(b);
    PostEvents(b, 0, Flow(Continue, ""));
    hide RunPost, RunAgent;
  }
}
