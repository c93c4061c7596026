/** internal/flow/flow.go as small steps: every event a leaf reports, every move of
    a dispatcher, every commit and every freed worker slot is one step, and a
    scheduler picks among those that are possible. */
module FlowMachine {
  import opened Common
  import opened FlowBundle
  import opened FlowMeaning

  // A dispatched step: still running, its results appended, its worker slot given back.
  datatype Slot = Busy(proc: Proc) | Committed | Free

  datatype Proc =
    | Running(todo: seq<What>, result: Result)
    | NewPipe(step: Step, env: Env)
    | InPipe(step: Step, env: Env, i: nat, kid: Option<Proc>, gathered: Gathered)
    | NewPool(step: Step, env: Env)
    | InPool(step: Step, env: Env, ticket: bool, refused: bool, slots: seq<Slot>, results: seq<Result>)
    | Over(results: seq<Result>)

  // The scheduler's pick: this process itself, or something about its i-th child.
  datatype Choice = Go | Kid(i: nat, choice: Choice) | Commit(i: nat) | Release(i: nat)

  datatype Move = Move(events: seq<Event>, proc: Proc)

  function Start(s: Step, env: Env, db: bool): Proc {
    match s
    case Leaf(b) => Running(BundleTrace(b, env, db), BundleResult(b, env, db))
    case Pipeline(_, _, own) => NewPipe(s, Bind(own, env))
    case Parallel(_, _, own, _, _) => NewPool(s, Bind(own, env))
  }

  predicate Finished(p: Proc) { p.Over? || (p.Running? && p.todo == []) }

  function Results(p: Proc): seq<Result>
    requires Finished(p)
  {
    if p.Over? then p.results else [p.result]
  }

  /** runSequential: a dry run, or at most one step. */
  predicate Sequential(s: Step, env: Env)
    requires s.Parallel?
  {
    env.dryRun || |s.steps| <= 1
  }

  /** How many steps may be in flight. */
  function Width(s: Step, env: Env): nat
    requires s.Parallel?
  {
    if Sequential(s, env) then 1
    else if s.workers > 0 then s.workers
    else if |s.steps| < 5 then |s.steps| else 5
  }

  function InFlight(slots: seq<Slot>): nat {
    if slots == [] then 0 else (if slots[0].Free? then 0 else 1) + InFlight(slots[1..])
  }

  /** PreDispatch, asked before the i-th step when the batch has spent so much. */
  predicate LetsThrough(g: Gate, i: nat, spent: real) {
    match g
    case Open => true
    case RefusesAt(k) => i != k
    case Budget(cap) => cap.None? || spent < cap.value
  }

  function Next(p: Proc, c: Choice, db: bool, spent: real): Option<Move>
    decreases p
  {
    match p
    case Running(todo, result) =>
      if c.Go? && todo != [] then Some(Move([Event([], todo[0])], Running(todo[1..], result))) else None
    case NewPipe(s, env) =>
      if c.Go? && s.Pipeline? then
        Some(Move([Event([], StageStart(StagePipeline, s.name, |s.steps|))], InPipe(s, env, 0, None, Gathered([], 0, -1))))
      else None
    case InPipe(_, _, _, _, _) => NextInPipe(p, c, db, spent)
    case NewPool(s, env) =>
      if c.Go? && s.Parallel? then
        Some(Move([Event([], StageStart(StageParallel, s.name, |s.steps|))], InPool(s, env, false, false, [], [])))
      else None
    case InPool(_, _, _, _, _, _) =>
      (match c
       case Go => Dispatch(p, db, spent)
       case Kid(i, c') =>
         if i < |p.slots| && p.slots[i].Busy? then
           match Next(p.slots[i].proc, c', db, spent)
           case None => None
           case Some(m) => Some(Move(Lift(i, m.events), p.(slots := p.slots[i := Busy(m.proc)])))
         else None
       case Commit(i) =>
         if i < |p.slots| && p.slots[i].Busy? && Finished(p.slots[i].proc) then
           Some(Move([], p.(slots := p.slots[i := Committed], results := p.results + Results(p.slots[i].proc))))
         else None
       case Release(i) =>
         if i < |p.slots| && p.slots[i].Committed? then Some(Move([], p.(slots := p.slots[i := Free]))) else None)
    case Over(_) => None
  }

  /** runDetailed. */
  function NextInPipe(p: Proc, c: Choice, db: bool, spent: real): Option<Move>
    requires p.InPipe?
    decreases p, 0
  {
    var s, i, g := p.step, p.i, p.gathered;
    if !s.Pipeline? || i > |s.steps| then None
    else
      match p.kid
      case Some(k) =>
        if c.Kid? && c.i == i then
          match Next(k, c.choice, db, spent)
          case None => None
          case Some(m) => Some(Move(Lift(i, m.events), p.(kid := Some(m.proc))))
        else if c.Go? && Finished(k) then
          Some(Move([], p.(i := i + 1, kid := None, gathered := Gather(g, i, Results(k)))))
        else None
      case None =>
        if !c.Go? then None
        else if i == |s.steps| then
          Some(Move([Event([], StageEnd(Tally(g.results, g.skipped, g.firstError)))], Over(g.results)))
        else if g.firstError >= 0 then
          Some(Move([Event([], StepSkipped(StepName(s.steps[i])))], p.(i := i + 1, gathered := g.(skipped := g.skipped + 1))))
        else Some(Move([], p.(kid := Some(Start(s.steps[i], p.env, db)))))
  }

  /** The dispatch loop: ask the gate, then wait for a slot and start the step; once
      refused, skip what is left; at the end wait for everything in flight. */
  function Dispatch(p: Proc, db: bool, spent: real): Option<Move>
    requires p.InPool?
  {
    var s, next := p.step, |p.slots|;
    if !s.Parallel? || next > |s.steps| then None
    else if next == |s.steps| then
      if InFlight(p.slots) == 0 then Some(Move([Event([], StageEnd(Tally(p.results, 0, -1)))], Over(p.results))) else None
    else if p.refused then
      Some(Move([], p.(slots := p.slots + [Free], results := p.results + [Refused(s.steps[next], p.env)])))
    else if p.ticket then
      if InFlight(p.slots) < Width(s, p.env) then
        Some(Move([], p.(ticket := false, slots := p.slots + [Busy(Start(s.steps[next], p.env, db))])))
      else None
    else if Sequential(s, p.env) && InFlight(p.slots) > 0 then None
    else if LetsThrough(s.gate, next, spent) then Some(Move([], p.(ticket := true)))
    else Some(Move([], p.(refused := true)))
  }

  /* ---- runs ---- */

  // What a run so far has reported, and where it stands.
  datatype Run = Run(trace: seq<Event>, proc: Proc)

  /** The schedule's picks, one after the other; a pick that is not possible ends the run.
      The gate sees what was committed before the run started and during it. */
  function RunOf(p: Proc, cs: seq<Choice>, db: bool, spent: real): Run
    decreases cs
  {
    if cs == [] then Run([], p)
    else
      match Next(p, cs[0], db, spent)
      case None => Run([], p)
      case Some(m) =>
        var rest := RunOf(m.proc, cs[1..], db, spent + Cost(m.events));
        Run(m.events + rest.trace, rest.proc)
  }

  /* ---- what is left to do ---- */

  predicate Positional(s: Step)
    decreases s
  {
    match s
    case Leaf(_) => true
    case Pipeline(_, steps, _) => forall k | k in steps :: Positional(k)
    case Parallel(_, steps, _, _, gate) => !gate.Budget? && forall k | k in steps :: Positional(k)
  }

  predicate KidsPositional(s: Step) {
    !s.Leaf? && forall k | k in s.steps :: Positional(k)
  }

  /** No gate here that depends on what was spent. */
  predicate GateFree(p: Proc) {
    p.NewPool? || p.InPool? ==> p.step.Parallel? && !p.step.gate.Budget?
  }

  predicate Valid(p: Proc)
    decreases p
  {
    match p
    case Running(_, _) => true
    case NewPipe(s, _) => s.Pipeline? && KidsPositional(s)
    case InPipe(s, _, i, kid, g) =>
      && s.Pipeline? && KidsPositional(s) && i <= |s.steps|
      && (kid.Some? ==> i < |s.steps| && g.firstError < 0 && Valid(kid.value) && GateFree(kid.value))
    case NewPool(s, _) => s.Parallel? && KidsPositional(s)
    case InPool(s, env, ticket, refused, slots, _) =>
      && s.Parallel? && KidsPositional(s) && |slots| <= |s.steps|
      && (ticket ==> |slots| < |s.steps| && !refused && Passes(s.gate, |slots|))
      && (forall k | k in slots && k.Busy? :: Valid(k.proc) && GateFree(k.proc))
    case Over(_) => true
  }

  function Join(x: Outcome, y: Outcome): Outcome { Outcome(x.trace + y.trace, x.results + y.results) }

  /** A pool reports what all its results add up to. */
  function Close(all: Outcome): Outcome {
    Outcome(all.trace + [Event([], StageEnd(Tally(all.results, 0, -1)))], all.results)
  }

  /** What a process will still report and return if the rest runs one step at a time. */
  function Rest(p: Proc, db: bool): Outcome
    requires Valid(p)
    decreases p, 0
  {
    match p
    case Running(todo, result) => Outcome(Tag(todo), [result])
    case NewPipe(s, env) =>
      var rest := PipelineFrom(s, 0, env, db, Gathered([], 0, -1));
      Outcome([Event([], StageStart(StagePipeline, s.name, |s.steps|))] + rest.trace, rest.results)
    case InPipe(s, env, i, kid, g) =>
      (match kid
       case None => PipelineFrom(s, i, env, db, g)
       case Some(k) =>
         var m := Rest(k, db);
         var rest := PipelineFrom(s, i + 1, env, db, Gather(g, i, m.results));
         Outcome(Lift(i, m.trace) + rest.trace, rest.results))
    case NewPool(s, env) =>
      var rest := ParallelFrom(s, 0, env, db, false);
      Outcome([Event([], StageStart(StageParallel, s.name, |s.steps|))] + rest.trace
              + [Event([], StageEnd(Tally(rest.results, 0, -1)))], rest.results)
    case InPool(s, env, _, refused, slots, results) =>
      Close(Join(Outcome([], results), Join(SlotsRest(slots, 0, db), ParallelFrom(s, |slots|, env, db, refused))))
    case Over(results) => Outcome([], results)
  }

  function SlotRest(k: Slot, i: nat, db: bool): Outcome
    requires k.Busy? ==> Valid(k.proc)
    decreases k, 1
  {
    if k.Busy? then Outcome(Lift(i, Rest(k.proc, db).trace), Rest(k.proc, db).results) else Outcome([], [])
  }

  function SlotsRest(slots: seq<Slot>, i: nat, db: bool): Outcome
    requires i <= |slots| && forall k | k in slots && k.Busy? :: Valid(k.proc)
    decreases slots, |slots| - i
  {
    if i == |slots| then Outcome([], [])
    else Join(SlotRest(slots[i], i, db), SlotsRest(slots, i + 1, db))
  }
}
