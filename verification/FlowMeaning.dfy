/** internal/flow/flow.go, the composites: what a tree of steps means when it runs
    one step at a time. */
module FlowMeaning {
  import opened Common
  import opened FlowBundle

  // PreDispatch: absent, refusing at a given step, or asking the call table what
  // the batch has spent (cmd/table.go, batchBudgetPrecheck; None never refuses).
  datatype Gate = Open | RefusesAt(step: nat) | Budget(cap: Option<real>)

  datatype Step =
    | Leaf(bundle: Bundle)
    | Pipeline(name: string, steps: seq<Step>, env: Option<Env>)
    | Parallel(name: string, steps: seq<Step>, env: Option<Env>, workers: int, gate: Gate)

  function StepName(s: Step): string {
    match s
    case Leaf(b) => b.name
    case Pipeline(n, _, _) => n
    case Parallel(n, _, _, _, _) => n
  }

  /** p.Env, when set, replaces what the parent passed down. */
  function Bind(own: Option<Env>, env: Env): Env { if own.Some? then own.value else env }

  // Where in the tree something happened: the step indices from the top.
  type Addr = seq<nat>
  datatype Event = Event(at: Addr, what: What)

  function Tag(ws: seq<What>): seq<Event> {
    seq(|ws|, i requires 0 <= i < |ws| => Event([], ws[i]))
  }

  function Lift(i: nat, es: seq<Event>): seq<Event> {
    seq(|es|, k requires 0 <= k < |es| => Event([i] + es[k].at, es[k].what))
  }

  // What a step did: its events in some order, and its results.
  datatype Outcome = Outcome(trace: seq<Event>, results: seq<Result>)

  function HasError(rs: seq<Result>): bool { exists r | r in rs :: r.flow.state == Failed }

  function CountState(rs: seq<Result>, st: State): nat {
    if rs == [] then 0 else (if rs[0].flow.state == st then 1 else 0) + CountState(rs[1..], st)
  }

  /** tallyResults. */
  function Tally(rs: seq<Result>, skipped: nat, firstError: int): StageOutcome {
    StageOutcome(CountState(rs, Continue), CountState(rs, Failed), CountState(rs, Skip) + skipped, firstError)
  }

  /** skippedDispatchResult. */
  function Refused(s: Step, env: Env): Result {
    Result(StepName(s), env, Flow(Skip, "not dispatched"), None)
  }

  // What a pipeline has gathered: the results so far, the steps skipped, the first errored step.
  datatype Gathered = Gathered(results: seq<Result>, skipped: nat, firstError: int)

  function Gather(g: Gathered, i: nat, rs: seq<Result>): Gathered {
    Gathered(g.results + rs, g.skipped, if HasError(rs) then i else g.firstError)
  }

  /** The sequential meaning of a step. */
  function Meaning(s: Step, env: Env, db: bool): Outcome
    decreases s, if s.Leaf? then 0 else |s.steps| + 1
  {
    match s
    case Leaf(b) => Outcome(Tag(BundleTrace(b, env, db)), [BundleResult(b, env, db)])
    case Pipeline(name, steps, own) =>
      var rest := PipelineFrom(s, 0, Bind(own, env), db, Gathered([], 0, -1));
      Outcome([Event([], StageStart(StagePipeline, name, |steps|))] + rest.trace, rest.results)
    case Parallel(name, steps, own, _, gate) =>
      var rest := ParallelFrom(s, 0, Bind(own, env), db, false);
      Outcome([Event([], StageStart(StageParallel, name, |steps|))] + rest.trace
              + [Event([], StageEnd(Tally(rest.results, 0, -1)))], rest.results)
  }

  /** A pipeline from its i-th step on: an error stops it, the rest is skipped. */
  function PipelineFrom(s: Step, i: nat, env: Env, db: bool, g: Gathered): Outcome
    requires s.Pipeline? && i <= |s.steps|
    decreases s, |s.steps| - i
  {
    if i == |s.steps| then
      Outcome([Event([], StageEnd(Tally(g.results, g.skipped, g.firstError)))], g.results)
    else if g.firstError >= 0 then
      var rest := PipelineFrom(s, i + 1, env, db, g.(skipped := g.skipped + 1));
      Outcome([Event([], StepSkipped(StepName(s.steps[i])))] + rest.trace, rest.results)
    else
      var m := Meaning(s.steps[i], env, db);
      var rest := PipelineFrom(s, i + 1, env, db, Gather(g, i, m.results));
      Outcome(Lift(i, m.trace) + rest.trace, rest.results)
  }

  /** A gate that answers by position lets the i-th step through. */
  predicate Passes(g: Gate, i: nat) {
    g.RefusesAt? ==> g.step != i
  }

  /** A parallel from its i-th step on: a refused step takes the rest with it. */
  function ParallelFrom(s: Step, i: nat, env: Env, db: bool, refused: bool): Outcome
    requires s.Parallel? && i <= |s.steps|
    decreases s, |s.steps| - i
  {
    if i == |s.steps| then Outcome([], [])
    else if refused || !Passes(s.gate, i) then
      var rest := ParallelFrom(s, i + 1, env, db, true);
      Outcome(rest.trace, [Refused(s.steps[i], env)] + rest.results)
    else
      var m := Meaning(s.steps[i], env, db);
      var rest := ParallelFrom(s, i + 1, env, db, false);
      Outcome(Lift(i, m.trace) + rest.trace, m.results + rest.results)
  }

  /* ---- looking at one address ---- */

  /** What was reported at one address, in order. */
  function At(es: seq<Event>, a: Addr): seq<What> {
    if es == [] then [] else (if es[0].at == a then [es[0].what] else []) + At(es[1..], a)
  }

  lemma {:induction false} AtConcat(x: seq<Event>, y: seq<Event>, a: Addr)
    ensures At(x + y, a) == At(x, a) + At(y, a)
  {
    if x == [] {
      assert x + y == y;
    } else {
      AtConcat(x[1..], y, a);
      assert (x + y)[1..] == x[1..] + y;
    }
  }

  lemma {:induction false} AtLift(i: nat, es: seq<Event>, a: Addr)
    ensures At(Lift(i, es), a) == if a != [] && a[0] == i then At(es, a[1..]) else []
  {
    if es != [] {
      assert Lift(i, es)[1..] == Lift(i, es[1..]);
      AtLift(i, es[1..], a);
      assert a != [] && a[0] == i ==> a == [i] + a[1..];
      assert ([i] + es[0].at)[1..] == es[0].at;
    }
  }

  lemma {:induction false} AtTag(ws: seq<What>, a: Addr)
    ensures At(Tag(ws), a) == if a == [] then ws else []
  {
    if ws != [] {
      assert Tag(ws)[1..] == Tag(ws[1..]);
      AtTag(ws[1..], a);
    }
  }

  /** The total of the costs committed. */
  function Cost(es: seq<Event>): Usd {
    if es == [] then 0.0 else (if es[0].what.RowCommitted? then es[0].what.cost else 0.0) + Cost(es[1..])
  }

  lemma {:induction false} CostConcat(x: seq<Event>, y: seq<Event>)
    ensures Cost(x + y) == Cost(x) + Cost(y)
  {
    if x == [] {
      assert x + y == y;
    } else {
      CostConcat(x[1..], y);
      assert (x + y)[1..] == x[1..] + y;
    }
  }

  lemma {:induction false} CostLift(i: nat, es: seq<Event>)
    ensures Cost(Lift(i, es)) == Cost(es)
  {
    if es != [] {
      assert Lift(i, es)[1..] == Lift(i, es[1..]);
      CostLift(i, es[1..]);
    }
  }

  /* ---- results as a bag ---- */

  lemma {:induction false} CountConcatState(x: seq<Result>, y: seq<Result>, st: State)
    ensures CountState(x + y, st) == CountState(x, st) + CountState(y, st)
  {
    if x == [] {
      assert x + y == y;
    } else {
      CountConcatState(x[1..], y, st);
      assert (x + y)[1..] == x[1..] + y;
    }
  }

  function Without(y: seq<Result>, k: nat): seq<Result>
    requires k < |y|
  {
    y[..k] + y[k + 1..]
  }

  lemma WithoutBag(y: seq<Result>, k: nat)
    requires k < |y|
    ensures multiset(Without(y, k)) == multiset(y) - multiset([y[k]])
  {
    assert y == y[..k] + [y[k]] + y[k + 1..];
    assert multiset(y) == multiset(y[..k]) + multiset([y[k]]) + multiset(y[k + 1..]);
  }

  lemma WithoutCount(y: seq<Result>, k: nat, st: State)
    requires k < |y|
    ensures CountState(y, st) == CountState([y[k]], st) + CountState(Without(y, k), st)
  {
    var tail := [y[k]] + y[k + 1..];
    assert y == y[..k] + tail;
    CountConcatState(y[..k], tail, st);
    CountConcatState([y[k]], y[k + 1..], st);
    CountConcatState(y[..k], y[k + 1..], st);
  }

  /** Counts do not depend on the order. */
  lemma {:induction false} CountBag(x: seq<Result>, y: seq<Result>, st: State)
    requires multiset(x) == multiset(y)
    ensures CountState(x, st) == CountState(y, st)
  {
    if x == [] {
      assert |multiset(y)| == 0;
    } else {
      assert x[0] in multiset(y);
      var k :| 0 <= k < |y| && y[k] == x[0];
      WithoutBag(x, 0);
      WithoutBag(y, k);
      WithoutCount(x, 0, st);
      WithoutCount(y, k, st);
      CountBag(Without(x, 0), Without(y, k), st);
    }
  }

  lemma TallyBag(x: seq<Result>, y: seq<Result>, skipped: nat, firstError: int)
    requires multiset(x) == multiset(y)
    ensures Tally(x, skipped, firstError) == Tally(y, skipped, firstError) && HasError(x) == HasError(y)
  {
    CountBag(x, y, Continue);
    CountBag(x, y, Failed);
    CountBag(x, y, Skip);
    assert forall r :: r in x <==> r in multiset(x);
    assert forall r :: r in y <==> r in multiset(y);
  }

  /* ---- agreement ---- */

  /** The same results in some order, the same events in the same order at every
      address, and the same total cost. */
  ghost predicate Agree(x: Outcome, y: Outcome) {
    && (forall a :: At(x.trace, a) == At(y.trace, a))
    && multiset(x.results) == multiset(y.results)
    && Cost(x.trace) == Cost(y.trace)
  }

  lemma Agrees(x: Outcome, y: Outcome)
    requires Agree(x, y)
    ensures multiset(x.results) == multiset(y.results) && forall a :: At(x.trace, a) == At(y.trace, a)
  {
  }
}
