/** Every interleaving agrees with running one step at a time. */
module FlowRefinement {
  import opened Common
  import opened FlowBundle
  import opened FlowMeaning
  import opened FlowMachine

  /** x is what happened first, y what was left then. */
  ghost predicate Splits(whole: Outcome, first: seq<Event>, left: Outcome) {
    Agree(whole, Outcome(first + left.trace, left.results))
  }

  /* ---- agreement and composition ---- */

  lemma AgreeJoin(x: Outcome, x': Outcome, y: Outcome, y': Outcome)
    requires Agree(x, x') && Agree(y, y')
    ensures Agree(Join(x, y), Join(x', y'))
  {
    forall a ensures At(x.trace + y.trace, a) == At(x'.trace + y'.trace, a) {
      AtConcat(x.trace, y.trace, a);
      AtConcat(x'.trace, y'.trace, a);
    }
    CostConcat(x.trace, y.trace);
    CostConcat(x'.trace, y'.trace);
  }

  lemma AgreeLift(i: nat, x: Outcome, x': Outcome)
    requires Agree(x, x')
    ensures Agree(Outcome(Lift(i, x.trace), x.results), Outcome(Lift(i, x'.trace), x'.results))
  {
    forall a ensures At(Lift(i, x.trace), a) == At(Lift(i, x'.trace), a) {
      AtLift(i, x.trace, a);
      AtLift(i, x'.trace, a);
    }
    CostLift(i, x.trace);
    CostLift(i, x'.trace);
  }

  lemma LiftConcat(i: nat, x: seq<Event>, y: seq<Event>)
    ensures Lift(i, x + y) == Lift(i, x) + Lift(i, y)
  {
  }

  lemma SplitsLift(i: nat, whole: Outcome, first: seq<Event>, left: Outcome)
    requires Splits(whole, first, left)
    ensures Splits(Outcome(Lift(i, whole.trace), whole.results), Lift(i, first), Outcome(Lift(i, left.trace), left.results))
  {
    AgreeLift(i, whole, Outcome(first + left.trace, left.results));
    LiftConcat(i, first, left.trace);
  }

  /** What happens first in the left part happens first in the whole. */
  lemma SplitsLeft(x: Outcome, first: seq<Event>, left: Outcome, y: Outcome)
    requires Splits(x, first, left)
    ensures Splits(Join(x, y), first, Join(left, y))
  {
    AgreeJoin(x, Outcome(first + left.trace, left.results), y, y);
    assert first + (left.trace + y.trace) == first + left.trace + y.trace;
  }

  /** Nothing is reported by both at the same address. */
  ghost predicate Apart(x: seq<Event>, y: seq<Event>) {
    forall a :: At(x, a) == [] || At(y, a) == []
  }

  lemma SwapTraces(x: seq<Event>, first: seq<Event>, left: seq<Event>)
    requires Apart(x, first)
    ensures forall a :: At(x + (first + left), a) == At(first + (x + left), a)
    ensures Cost(x + (first + left)) == Cost(first + (x + left))
  {
    hide At, Cost;
    forall a ensures At(x + (first + left), a) == At(first + (x + left), a) {
      AtConcat(x, first + left, a);
      AtConcat(first, left, a);
      AtConcat(first, x + left, a);
      AtConcat(x, left, a);
    }
    CostConcat(x, first + left);
    CostConcat(first, left);
    CostConcat(first, x + left);
    CostConcat(x, left);
  }

  /** What happens first in the right part may happen first in the whole, if the
      left part has nothing at its addresses. */
  lemma SplitsRight(x: Outcome, y: Outcome, first: seq<Event>, left: Outcome)
    requires Splits(y, first, left) && Apart(x.trace, first)
    ensures Splits(Join(x, y), first, Join(x, left))
  {
    hide At, Cost;
    AgreeJoin(x, x, y, Outcome(first + left.trace, left.results));
    SwapTraces(x.trace, first, left.trace);
  }

  lemma SplitsTrans(x: Outcome, e1: seq<Event>, y: Outcome, e2: seq<Event>, z: Outcome)
    requires Splits(x, e1, y) && Splits(y, e2, z)
    ensures Splits(x, e1 + e2, z)
  {
    forall a ensures At(x.trace, a) == At(e1 + e2 + z.trace, a) {
      AtConcat(e1, y.trace, a);
      AtConcat(e2, z.trace, a);
      AtConcat(e1, e2 + z.trace, a);
      assert e1 + e2 + z.trace == e1 + (e2 + z.trace);
    }
    CostConcat(e1, y.trace);
    CostConcat(e1, e2 + z.trace);
    assert e1 + e2 + z.trace == e1 + (e2 + z.trace);
  }

  lemma SplitsNothing(x: Outcome, y: Outcome)
    requires Agree(x, y)
    ensures Splits(x, [], y)
  {
    assert [] + y.trace == y.trace;
  }

  lemma SplitsExactly(first: seq<Event>, left: Outcome)
    ensures Splits(Outcome(first + left.trace, left.results), first, left)
  {
  }

  /* ---- a pipeline does not mind the order of its results ---- */

  lemma {:induction false} PipelineBag(s: Step, i: nat, env: Env, db: bool, g: Gathered, g': Gathered)
    requires s.Pipeline? && i <= |s.steps|
    requires multiset(g.results) == multiset(g'.results) && g.skipped == g'.skipped && g.firstError == g'.firstError
    ensures var x, y := PipelineFrom(s, i, env, db, g), PipelineFrom(s, i, env, db, g');
      x.trace == y.trace && multiset(x.results) == multiset(y.results)
    decreases |s.steps| - i
  {
    if i == |s.steps| {
      TallyBag(g.results, g'.results, g.skipped, g.firstError);
    } else if g.firstError >= 0 {
      PipelineBag(s, i + 1, env, db, g.(skipped := g.skipped + 1), g'.(skipped := g.skipped + 1));
    } else {
      var rs := Meaning(s.steps[i], env, db).results;
      assert multiset(g.results + rs) == multiset(g.results) + multiset(rs);
      assert multiset(g'.results + rs) == multiset(g'.results) + multiset(rs);
      PipelineBag(s, i + 1, env, db, Gather(g, i, rs), Gather(g', i, rs));
    }
  }

  lemma GatherBag(s: Step, i: nat, env: Env, db: bool, g: Gathered, rs: seq<Result>, rs': seq<Result>)
    requires s.Pipeline? && i < |s.steps| && multiset(rs) == multiset(rs')
    ensures Agree(PipelineFrom(s, i + 1, env, db, Gather(g, i, rs)), PipelineFrom(s, i + 1, env, db, Gather(g, i, rs')))
  {
    TallyBag(rs, rs', 0, 0);
    assert multiset(g.results + rs) == multiset(g.results) + multiset(rs);
    assert multiset(g.results + rs') == multiset(g.results) + multiset(rs');
    PipelineBag(s, i + 1, env, db, Gather(g, i, rs), Gather(g, i, rs'));
  }

  /* ---- the slots of a pool ---- */

  lemma SlotAt(k: Slot, i: nat, db: bool, a: Addr)
    requires k.Busy? ==> Valid(k.proc)
    ensures At(SlotRest(k, i, db).trace, a) != [] ==> a != [] && a[0] == i
  {
    if k.Busy? { AtLift(i, Rest(k.proc, db).trace, a); }
  }

  lemma LiftApart(k: Slot, i: nat, j: nat, es: seq<Event>, db: bool)
    requires (k.Busy? ==> Valid(k.proc)) && i != j
    ensures Apart(SlotRest(k, i, db).trace, Lift(j, es))
  {
    forall a ensures At(SlotRest(k, i, db).trace, a) == [] || At(Lift(j, es), a) == [] {
      SlotAt(k, i, db, a);
      AtLift(j, es, a);
    }
  }

  ghost predicate ValidSlots(slots: seq<Slot>) {
    forall k | k in slots && k.Busy? :: Valid(k.proc)
  }

  lemma {:induction false} SlotsSame(slots: seq<Slot>, slots': seq<Slot>, i: nat, db: bool)
    requires ValidSlots(slots) && ValidSlots(slots') && i <= |slots| == |slots'| && slots[i..] == slots'[i..]
    ensures SlotsRest(slots, i, db) == SlotsRest(slots', i, db)
    decreases |slots| - i
  {
    if i < |slots| {
      assert slots[i] == slots[i..][0] == slots'[i..][0] == slots'[i];
      assert slots[i + 1..] == slots[i..][1..] == slots'[i + 1..];
      SlotsSame(slots, slots', i + 1, db);
    }
  }

  /** One slot's progress is progress of the slots from i on. */
  lemma {:induction false} SlotsSplit(slots: seq<Slot>, i: nat, j: nat, slot: Slot, es: seq<Event>, db: bool)
    requires i <= j < |slots| && ValidSlots(slots) && (slot.Busy? ==> Valid(slot.proc))
    requires Splits(SlotRest(slots[j], j, db), Lift(j, es), SlotRest(slot, j, db))
    ensures ValidSlots(slots[j := slot])
    ensures Splits(SlotsRest(slots, i, db), Lift(j, es), SlotsRest(slots[j := slot], i, db))
    decreases j - i
  {
    hide At, Cost, SlotRest, Splits, Valid;
    var slots' := slots[j := slot];
    if i == j {
      assert slots[j + 1..] == slots'[j + 1..];
      SlotsSame(slots, slots', j + 1, db);
      SplitsLeft(SlotRest(slots[j], j, db), Lift(j, es), SlotRest(slot, j, db), SlotsRest(slots, j + 1, db));
    } else {
      SlotsSplit(slots, i + 1, j, slot, es, db);
      LiftApart(slots[i], i, j, es, db);
      SplitsRight(SlotRest(slots[i], i, db), SlotsRest(slots, i + 1, db), Lift(j, es), SlotsRest(slots', i + 1, db));
    }
  }

  lemma {:induction false} SlotsAppend(slots: seq<Slot>, i: nat, slot: Slot, db: bool)
    requires ValidSlots(slots) && (slot.Busy? ==> Valid(slot.proc)) && i <= |slots|
    ensures ValidSlots(slots + [slot])
    ensures SlotsRest(slots + [slot], i, db) == Join(SlotsRest(slots, i, db), SlotRest(slot, |slots|, db))
    decreases |slots| - i
  {
    if i < |slots| {
      SlotsAppend(slots, i + 1, slot, db);
      assert (slots + [slot])[i] == slots[i];
    } else {
      assert (slots + [slot])[i] == slot;
      assert SlotsRest(slots + [slot], i + 1, db) == Outcome([], []);
    }
  }

  /** Committing a finished slot moves its results from the slots to the pool. */
  lemma NextSlot(slots: seq<Slot>, i: nat, db: bool)
    requires i < |slots| && ValidSlots(slots)
    ensures SlotsRest(slots, i, db) == Join(SlotRest(slots[i], i, db), SlotsRest(slots, i + 1, db))
  {
  }

  // y is x without the results rs.
  ghost predicate Less(x: Outcome, y: Outcome, rs: seq<Result>) {
    x.trace == y.trace && multiset(x.results) == multiset(rs) + multiset(y.results)
  }

  lemma LessBehind(head: Outcome, x: Outcome, y: Outcome, rs: seq<Result>)
    requires Less(x, y, rs)
    ensures Less(Join(head, x), Join(head, y), rs)
  {
    assert multiset(head.results + x.results) == multiset(head.results) + multiset(x.results);
    assert multiset(head.results + y.results) == multiset(head.results) + multiset(y.results);
  }

  lemma LessBefore(tail: Outcome, rs: seq<Result>)
    ensures Less(Join(Outcome([], rs), tail), Join(Outcome([], []), tail), rs)
  {
    assert multiset(rs + tail.results) == multiset(rs) + multiset(tail.results);
    assert [] + tail.results == tail.results && [] + tail.trace == tail.trace;
  }

  lemma {:induction false} SlotsCommit(slots: seq<Slot>, i: nat, j: nat, rs: seq<Result>, db: bool)
    requires i <= j < |slots| && ValidSlots(slots) && slots[j].Busy? && Rest(slots[j].proc, db) == Outcome([], rs)
    ensures ValidSlots(slots[j := Committed])
    ensures Less(SlotsRest(slots, i, db), SlotsRest(slots[j := Committed], i, db), rs)
    decreases j - i
  {
    var slots' := slots[j := Committed];
    assert SlotRest(slots[j], j, db) == Outcome([], rs) && SlotRest(slots'[j], j, db) == Outcome([], []);
    hide SlotsRest, SlotRest, Rest, Valid, Less;
    NextSlot(slots, i, db);
    NextSlot(slots', i, db);
    if i == j {
      assert slots[j + 1..] == slots'[j + 1..];
      SlotsSame(slots, slots', j + 1, db);
      LessBefore(SlotsRest(slots, j + 1, db), rs);
    } else {
      SlotsCommit(slots, i + 1, j, rs, db);
      LessBehind(SlotRest(slots[i], i, db), SlotsRest(slots, i + 1, db), SlotsRest(slots', i + 1, db), rs);
    }
  }

  lemma {:induction false} SlotsIdle(slots: seq<Slot>, i: nat, db: bool)
    requires ValidSlots(slots) && i <= |slots| && InFlight(slots[i..]) == 0
    ensures SlotsRest(slots, i, db) == Outcome([], [])
    decreases |slots| - i
  {
    if i < |slots| {
      assert slots[i..][0] == slots[i] && slots[i..][1..] == slots[i + 1..];
      SlotsIdle(slots, i + 1, db);
    }
  }

  /* ---- one step ---- */

  lemma StartMeans(s: Step, env: Env, db: bool)
    requires Positional(s)
    ensures Valid(Start(s, env, db)) && GateFree(Start(s, env, db))
    ensures Rest(Start(s, env, db), db) == Meaning(s, env, db)
  {
  }

  lemma FinishedRest(p: Proc, db: bool)
    requires Valid(p) && Finished(p)
    ensures Rest(p, db) == Outcome([], Results(p))
  {
  }

  lemma SplitsClose(x: Outcome, first: seq<Event>, left: Outcome)
    requires Splits(x, first, left)
    ensures Splits(Close(x), first, Close(left))
  {
    TallyBag(x.results, left.results, 0, -1);
    var end := Outcome([Event([], StageEnd(Tally(x.results, 0, -1)))], []);
    hide At, Cost;
    SplitsLeft(x, first, left, end);
    assert x.results + [] == x.results && left.results + [] == left.results;
  }

  /** The pool's rest, from its three parts. */
  lemma PoolSplits(results: seq<Result>, slots: Outcome, slots': Outcome, first: seq<Event>, future: Outcome)
    requires Splits(slots, first, slots')
    ensures Splits(Close(Join(Outcome([], results), Join(slots, future))), first, Close(Join(Outcome([], results), Join(slots', future))))
  {
    hide Cost;
    SplitsLeft(slots, first, slots', future);
    SplitsRight(Outcome([], results), Join(slots, future), first, Join(slots', future));
    SplitsClose(Join(Outcome([], results), Join(slots, future)), first, Join(Outcome([], results), Join(slots', future)));
  }

  /** The pool's rest, when results are only moved from one part to another. */
  lemma PoolBag(results: seq<Result>, slots: Outcome, future: Outcome, results': seq<Result>, slots': Outcome, future': Outcome)
    requires slots.trace + future.trace == slots'.trace + future'.trace
    requires multiset(results) + multiset(slots.results) + multiset(future.results)
          == multiset(results') + multiset(slots'.results) + multiset(future'.results)
    ensures Splits(Close(Join(Outcome([], results), Join(slots, future))), [],
                   Close(Join(Outcome([], results'), Join(slots', future'))))
  {
    var x, y := Join(Outcome([], results), Join(slots, future)), Join(Outcome([], results'), Join(slots', future'));
    assert multiset(x.results) == multiset(results) + multiset(slots.results) + multiset(future.results);
    assert multiset(y.results) == multiset(results') + multiset(slots'.results) + multiset(future'.results);
    TallyBag(x.results, y.results, 0, -1);
    assert Close(x).trace == Close(y).trace;
    SplitsNothing(Close(x), Close(y));
  }

  /* ---- one step keeps the process well formed ---- */

  lemma {:induction false} StepKeepsValid(p: Proc, c: Choice, db: bool, spent: real)
    requires Valid(p) && Next(p, c, db, spent).Some?
    ensures Valid(Next(p, c, db, spent).value.proc) && (GateFree(p) ==> GateFree(Next(p, c, db, spent).value.proc))
    decreases c
  {
    match p
    case InPool(_, _, _, _, _, _) =>
      if c.Kid? { StepKeepsValid(p.slots[c.i].proc, c.choice, db, spent); }
      if c.Go? && |p.slots| < |p.step.steps| { StartMeans(p.step.steps[|p.slots|], p.env, db); }
    case InPipe(_, _, _, _, _) =>
      if c.Kid? { StepKeepsValid(p.kid.value, c.choice, db, spent); }
      if c.Go? && p.kid.None? && p.i < |p.step.steps| { StartMeans(p.step.steps[p.i], p.env, db); }
    case _ =>
  }

  /** What was left before the step is what it reported and what is left now. */
  ghost predicate Steps(p: Proc, m: Move, db: bool) {
    Valid(p) && Valid(m.proc) && Splits(Rest(p, db), m.events, Rest(m.proc, db))
  }

  ghost predicate ReadyPool(p: Proc) { p.InPool? && Valid(p) && GateFree(p) }

  function Future(p: Proc, db: bool): Outcome
    requires p.InPool? && Valid(p)
  {
    ParallelFrom(p.step, |p.slots|, p.env, db, p.refused)
  }

  lemma PoolRest(p: Proc, db: bool)
    requires p.InPool? && Valid(p)
    ensures ValidSlots(p.slots)
    ensures Rest(p, db) == Close(Join(Outcome([], p.results), Join(SlotsRest(p.slots, 0, db), Future(p, db))))
  {
  }

  lemma RefusedFuture(p: Proc, db: bool)
    requires ReadyPool(p) && |p.slots| < |p.step.steps| && p.refused
    ensures var rest := ParallelFrom(p.step, |p.slots| + 1, p.env, db, true);
      Future(p, db) == Outcome(rest.trace, [Refused(p.step.steps[|p.slots|], p.env)] + rest.results)
  {
  }

  lemma DispatchRefused(p: Proc, db: bool, spent: real)
    requires ReadyPool(p) && |p.slots| < |p.step.steps| && p.refused && Valid(Dispatch(p, db, spent).value.proc)
    ensures Steps(p, Dispatch(p, db, spent).value, db)
  {
    var p' := Dispatch(p, db, spent).value.proc;
    var r := Refused(p.step.steps[|p.slots|], p.env);
    PoolRest(p, db);
    PoolRest(p', db);
    RefusedFuture(p, db);
    SlotsAppend(p.slots, 0, Free, db);
    var slots, rest := SlotsRest(p.slots, 0, db), Future(p', db);
    assert Future(p', db) == ParallelFrom(p.step, |p.slots| + 1, p.env, db, true);
    assert SlotRest(Free, |p.slots|, db) == Outcome([], []);
    hide SlotsRest, SlotRest, Future, ParallelFrom, Rest, Valid, At, Cost, CountState, HasError;
    assert Join(slots, Outcome([], [])) == slots;
    assert multiset([r] + rest.results) == multiset([r]) + multiset(rest.results);
    assert multiset(p.results + [r]) == multiset(p.results) + multiset([r]);
    PoolBag(p.results, slots, Outcome(rest.trace, [r] + rest.results), p.results + [r], slots, rest);
  }

  lemma SpawnFuture(p: Proc, db: bool)
    requires ReadyPool(p) && |p.slots| < |p.step.steps| && p.ticket
    ensures var m := Meaning(p.step.steps[|p.slots|], p.env, db);
      Future(p, db) == Join(Outcome(Lift(|p.slots|, m.trace), m.results), ParallelFrom(p.step, |p.slots| + 1, p.env, db, false))
  {
  }

  lemma DispatchSpawn(p: Proc, db: bool, spent: real)
    requires ReadyPool(p) && |p.slots| < |p.step.steps| && p.ticket && Dispatch(p, db, spent).Some?
    requires Valid(Dispatch(p, db, spent).value.proc)
    ensures Steps(p, Dispatch(p, db, spent).value, db)
  {
    var n, p' := |p.slots|, Dispatch(p, db, spent).value.proc;
    var kid := Start(p.step.steps[n], p.env, db);
    var m := Meaning(p.step.steps[n], p.env, db);
    assert Positional(p.step.steps[n]);
    StartMeans(p.step.steps[n], p.env, db);
    PoolRest(p, db);
    PoolRest(p', db);
    SpawnFuture(p, db);
    SlotsAppend(p.slots, 0, Busy(kid), db);
    var slots, lifted, rest := SlotsRest(p.slots, 0, db), Outcome(Lift(n, m.trace), m.results), Future(p', db);
    assert SlotRest(Busy(kid), n, db) == lifted;
    assert rest == ParallelFrom(p.step, n + 1, p.env, db, false);
    assert Dispatch(p, db, spent).value.events == [];
    hide *;
    SpawnBag(p.results, slots, lifted, rest);
    SplitIsStep(p, Dispatch(p, db, spent).value, db);
  }

  lemma SplitIsStep(p: Proc, m: Move, db: bool)
    requires Valid(p) && Valid(m.proc) && Splits(Rest(p, db), m.events, Rest(m.proc, db))
    ensures Steps(p, m, db)
  {
  }

  // A step's share of the pool's rest, taken from what is to come to what is in flight.
  lemma SpawnBag(results: seq<Result>, slots: Outcome, lifted: Outcome, rest: Outcome)
    ensures Splits(Close(Join(Outcome([], results), Join(slots, Join(lifted, rest)))), [],
                   Close(Join(Outcome([], results), Join(Join(slots, lifted), rest))))
  {
    assert (slots.trace + lifted.trace) + rest.trace == slots.trace + (lifted.trace + rest.trace);
    assert multiset(slots.results + lifted.results) == multiset(slots.results) + multiset(lifted.results);
    assert multiset(lifted.results + rest.results) == multiset(lifted.results) + multiset(rest.results);
    PoolBag(results, slots, Join(lifted, rest), results, Join(slots, lifted), rest);
  }

  lemma DispatchEnd(p: Proc, db: bool, spent: real)
    requires ReadyPool(p) && |p.slots| == |p.step.steps| && Dispatch(p, db, spent).Some?
    ensures Steps(p, Dispatch(p, db, spent).value, db)
  {
    assert p.slots[0..] == p.slots;
    SlotsIdle(p.slots, 0, db);
    var end := [Event([], StageEnd(Tally(p.results, 0, -1)))];
    assert p.results + ([] + []) == p.results;
    assert Rest(p, db) == Outcome(end + [], p.results);
    SplitsExactly(end, Outcome([], p.results));
  }

  lemma DispatchSteps(p: Proc, db: bool, spent: real)
    requires ReadyPool(p) && Dispatch(p, db, spent).Some? && Valid(Dispatch(p, db, spent).value.proc)
    ensures Steps(p, Dispatch(p, db, spent).value, db)
  {
    if |p.slots| == |p.step.steps| {
      DispatchEnd(p, db, spent);
    } else if p.refused {
      DispatchRefused(p, db, spent);
    } else if p.ticket {
      DispatchSpawn(p, db, spent);
    } else {
      var m := Dispatch(p, db, spent).value;
      assert Rest(m.proc, db) == Rest(p, db);
      SplitsNothing(Rest(p, db), Rest(m.proc, db));
    }
  }

  lemma SlotSplits(k: Proc, k': Proc, i: nat, es: seq<Event>, db: bool)
    requires Valid(k) && Valid(k') && Splits(Rest(k, db), es, Rest(k', db))
    ensures Splits(SlotRest(Busy(k), i, db), Lift(i, es), SlotRest(Busy(k'), i, db))
  {
    SplitsLift(i, Rest(k, db), es, Rest(k', db));
  }

  lemma KidSteps(p: Proc, i: nat, m: Move, db: bool)
    requires ReadyPool(p) && i < |p.slots| && p.slots[i].Busy? && Steps(p.slots[i].proc, m, db)
    requires Valid(p.(slots := p.slots[i := Busy(m.proc)]))
    ensures Steps(p, Move(Lift(i, m.events), p.(slots := p.slots[i := Busy(m.proc)])), db)
  {
    var k, p' := p.slots[i].proc, p.(slots := p.slots[i := Busy(m.proc)]);
    PoolRest(p, db);
    PoolRest(p', db);
    SlotSplits(k, m.proc, i, m.events, db);
    assert p.slots[i] == Busy(k) && Future(p', db) == Future(p, db);
    hide SlotsRest, SlotRest, Future, Rest, At, Cost, Lift, Splits, Valid;
    SlotsSplit(p.slots, 0, i, Busy(m.proc), m.events, db);
    PoolSplits(p.results, SlotsRest(p.slots, 0, db), SlotsRest(p'.slots, 0, db), Lift(i, m.events), Future(p, db));
  }

  lemma CommitSteps(p: Proc, i: nat, db: bool)
    requires ReadyPool(p) && i < |p.slots| && p.slots[i].Busy? && Finished(p.slots[i].proc)
    requires Valid(p.(slots := p.slots[i := Committed], results := p.results + Results(p.slots[i].proc)))
    ensures Steps(p, Move([], p.(slots := p.slots[i := Committed], results := p.results + Results(p.slots[i].proc))), db)
  {
    var rs := Results(p.slots[i].proc);
    var p' := p.(slots := p.slots[i := Committed], results := p.results + rs);
    FinishedRest(p.slots[i].proc, db);
    PoolRest(p, db);
    PoolRest(p', db);
    SlotsCommit(p.slots, 0, i, rs, db);
    assert Future(p', db) == Future(p, db);
    hide SlotsRest, SlotRest, Future, Rest, At, Cost, Valid, Results, CountState, HasError;
    assert multiset(p.results + rs) == multiset(p.results) + multiset(rs);
    PoolBag(p.results, SlotsRest(p.slots, 0, db), Future(p, db), p.results + rs, SlotsRest(p'.slots, 0, db), Future(p, db));
  }

  lemma ReleaseSteps(p: Proc, i: nat, db: bool)
    requires ReadyPool(p) && i < |p.slots| && p.slots[i].Committed? && Valid(p.(slots := p.slots[i := Free]))
    ensures Steps(p, Move([], p.(slots := p.slots[i := Free])), db)
  {
    var p' := p.(slots := p.slots[i := Free]);
    PoolRest(p, db);
    PoolRest(p', db);
    assert SlotRest(p.slots[i], i, db) == Outcome([], []) == SlotRest(Free, i, db) && Lift(i, []) == [];
    assert Future(p', db) == Future(p, db);
    SplitsNothing(Outcome([], []), Outcome([], []));
    hide SlotsRest, SlotRest, Future, Rest, At, Cost, Valid, Splits, Lift;
    SlotsSplit(p.slots, 0, i, Free, [], db);
    PoolSplits(p.results, SlotsRest(p.slots, 0, db), SlotsRest(p'.slots, 0, db), [], Future(p, db));
  }

  function After(p: Proc, rs: seq<Result>, db: bool): Outcome
    requires p.InPipe? && Valid(p) && p.i < |p.step.steps|
  {
    PipelineFrom(p.step, p.i + 1, p.env, db, Gather(p.gathered, p.i, rs))
  }

  lemma PipeRest(p: Proc, db: bool)
    requires p.InPipe? && Valid(p) && p.kid.Some?
    ensures var m := Rest(p.kid.value, db);
      Rest(p, db) == Join(Outcome(Lift(p.i, m.trace), []), Outcome(After(p, m.results, db).trace, After(p, m.results, db).results))
  {
    var m := Rest(p.kid.value, db);
    assert [] + After(p, m.results, db).results == After(p, m.results, db).results;
  }

  lemma PipeKidSteps(p: Proc, m: Move, db: bool)
    requires Valid(p) && p.InPipe? && p.kid.Some? && Steps(p.kid.value, m, db) && GateFree(m.proc)
    ensures Steps(p, Move(Lift(p.i, m.events), p.(kid := Some(m.proc))), db)
  {
    var p' := p.(kid := Some(m.proc));
    var x, y := Rest(p.kid.value, db), Rest(m.proc, db);
    PipeRest(p, db);
    PipeRest(p', db);
    var fx, fy := After(p, x.results, db), After(p, y.results, db);
    assert After(p', y.results, db) == fy;
    GatherBag(p.step, p.i, p.env, db, p.gathered, x.results, y.results);
    SplitsLift(p.i, x, m.events, y);
    var lx, ly := Lift(p.i, x.trace), Lift(p.i, y.trace);
    assert Valid(p') && Agree(Outcome(lx, []), Outcome(Lift(p.i, m.events) + ly, []));
    hide At, Cost, After, Rest, Valid, Lift, Agree, Splits, Gather;
    PipeJoin(Lift(p.i, m.events), lx, ly, fx, fy);
  }

  lemma PipeJoin(first: seq<Event>, x: seq<Event>, y: seq<Event>, fx: Outcome, fy: Outcome)
    requires Agree(Outcome(x, []), Outcome(first + y, [])) && Agree(fx, fy)
    ensures Splits(Join(Outcome(x, []), fx), first, Join(Outcome(y, []), fy))
  {
    hide At, Cost;
    AgreeJoin(Outcome(x, []), Outcome(first + y, []), fx, fy);
    assert first + (y + fy.trace) == first + y + fy.trace;
  }

  lemma PipeAdvances(p: Proc, db: bool)
    requires Valid(p) && p.InPipe? && p.kid.Some? && Finished(p.kid.value)
    ensures var p' := p.(i := p.i + 1, kid := None, gathered := Gather(p.gathered, p.i, Results(p.kid.value)));
      Valid(p') && Rest(p', db) == Rest(p, db)
  {
    FinishedRest(p.kid.value, db);
    PipeRest(p, db);
    var f := After(p, Results(p.kid.value), db);
    assert Lift(p.i, []) == [];
    assert Join(Outcome([], []), f) == f;
  }

  lemma PipeMoves(p: Proc, db: bool, spent: real)
    requires Valid(p) && p.InPipe? && p.kid.None? && NextInPipe(p, Go, db, spent).Some?
    ensures var m := NextInPipe(p, Go, db, spent).value;
      Valid(m.proc) && Rest(p, db) == Outcome(m.events + Rest(m.proc, db).trace, Rest(m.proc, db).results)
  {
    var m := NextInPipe(p, Go, db, spent).value;
    if p.i < |p.step.steps| && p.gathered.firstError < 0 {
      assert Positional(p.step.steps[p.i]);
      StartMeans(p.step.steps[p.i], p.env, db);
      assert [] + Rest(m.proc, db).trace == Rest(m.proc, db).trace;
    }
  }

  lemma PipeOwnSteps(p: Proc, db: bool, spent: real)
    requires Valid(p) && p.InPipe? && NextInPipe(p, Go, db, spent).Some?
    ensures Steps(p, NextInPipe(p, Go, db, spent).value, db)
  {
    hide Rest, Valid, At, Cost;
    var m := NextInPipe(p, Go, db, spent).value;
    if p.kid.Some? {
      PipeAdvances(p, db);
      SplitsNothing(Rest(p, db), Rest(m.proc, db));
    } else {
      PipeMoves(p, db, spent);
      SplitsExactly(m.events, Rest(m.proc, db));
    }
  }

  lemma FirstSteps(p: Proc, db: bool, spent: real)
    requires Valid(p) && GateFree(p) && (p.Running? || p.NewPipe? || p.NewPool?) && Next(p, Go, db, spent).Some?
    ensures Steps(p, Next(p, Go, db, spent).value, db)
  {
    var m := Next(p, Go, db, spent).value;
    if p.Running? {
      assert Tag(p.todo) == m.events + Tag(p.todo[1..]);
    } else if p.NewPool? {
      var f := ParallelFrom(p.step, 0, p.env, db, false);
      assert Join(Outcome([], []), Join(Outcome([], []), f)) == f;
      assert Rest(m.proc, db) == Close(f);
      assert Rest(p, db).trace == m.events + (f.trace + [Event([], StageEnd(Tally(f.results, 0, -1)))]);
    }
    SplitsExactly(m.events, Rest(m.proc, db));
  }

  /** Whatever the scheduler picks. */
  lemma {:induction false} EveryStepSplits(p: Proc, c: Choice, db: bool, spent: real)
    requires Valid(p) && GateFree(p) && Next(p, c, db, spent).Some?
    ensures Steps(p, Next(p, c, db, spent).value, db)
    decreases c
  {
    StepKeepsValid(p, c, db, spent);
    hide Steps;
    if p.InPool? {
      match c
      case Go => DispatchSteps(p, db, spent);
      case Kid(i, c') =>
        EveryStepSplits(p.slots[i].proc, c', db, spent);
        KidSteps(p, i, Next(p.slots[i].proc, c', db, spent).value, db);
      case Commit(i) => CommitSteps(p, i, db);
      case Release(i) => ReleaseSteps(p, i, db);
    } else if p.InPipe? {
      if c.Kid? {
        EveryStepSplits(p.kid.value, c.choice, db, spent);
        StepKeepsValid(p.kid.value, c.choice, db, spent);
        PipeKidSteps(p, Next(p.kid.value, c.choice, db, spent).value, db);
      } else {
        PipeOwnSteps(p, db, spent);
      }
    } else {
      FirstSteps(p, db, spent);
    }
  }

  /** At any point of any run: what was reported and what is left make up what
      the sequential run reports and returns. */
  lemma {:induction false} RunSplits(p: Proc, cs: seq<Choice>, db: bool, spent: real)
    requires Valid(p) && GateFree(p)
    ensures var r := RunOf(p, cs, db, spent); Valid(r.proc) && GateFree(r.proc) && Splits(Rest(p, db), r.trace, Rest(r.proc, db))
    decreases cs
  {
    hide Valid, Rest, Next, Splits, GateFree, Cost;
    if cs == [] || Next(p, cs[0], db, spent).None? {
      SplitsNothing(Rest(p, db), Rest(p, db));
    } else {
      var m := Next(p, cs[0], db, spent).value;
      EveryStepSplits(p, cs[0], db, spent);
      StepKeepsValid(p, cs[0], db, spent);
      RunSplits(m.proc, cs[1..], db, spent + Cost(m.events));
      var r := RunOf(m.proc, cs[1..], db, spent + Cost(m.events));
      SplitsTrans(Rest(p, db), m.events, Rest(m.proc, db), r.trace, Rest(r.proc, db));
    }
  }

  /** Every interleaving of a finished run reports the same events in the same
      order at every address as the sequential run, and returns the same results
      in some order. */
  lemma InterleavingsAgree(s: Step, env: Env, db: bool, cs: seq<Choice>, spent: real)
    requires Positional(s) && Finished(RunOf(Start(s, env, db), cs, db, spent).proc)
    ensures var r := RunOf(Start(s, env, db), cs, db, spent);
      Agree(Meaning(s, env, db), Outcome(r.trace, Results(r.proc)))
  {
    StartMeans(s, env, db);
    RunSplits(Start(s, env, db), cs, db, spent);
    var r := RunOf(Start(s, env, db), cs, db, spent);
    FinishedRest(r.proc, db);
    assert r.trace + [] == r.trace;
  }
}
