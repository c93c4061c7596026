/** The batch budget: cmd/table.go's precheck as the gate of a pool, and how far a
    batch can overshoot its cap. */
module FlowBudget {
  import opened Common
  import opened FlowBundle
  import opened FlowMeaning
  import opened FlowMachine
  import opened FlowRefinement
  import opened FlowProtocol

  // What strconv.ParseFloat makes of a flag value.
  datatype Float = Finite(value: real) | PosInf | NegInf | NaN

  datatype Cap = NotSet | Cap(value: Float) | Rejected

  /** parseBudgetUSD: only a negative amount is refused, and NaN is not negative. */
  function ParseBudget(flag: string, parsed: Option<Float>): Cap {
    if flag == "" then NotSet
    else
      match parsed
      case None => Rejected
      case Some(v) => if v.NegInf? || (v.Finite? && v.value < 0.0) then Rejected else Cap(v)
  }

  /** batchBudgetPrecheck: the gate a parallel gets, unless the flag is refused. */
  function Precheck(cap: Cap, batch: string): Option<Gate> {
    match cap
    case Rejected => None
    case NotSet => Some(Open)
    case Cap(v) => if batch == "" then Some(Open) else Some(Budget(if v.Finite? then Some(v.value) else None))
  }

  /** A cap is enforced exactly when it parses to a finite amount that is not
      negative and the batch has a name; an infinite or not-a-number cap is
      accepted and never refuses anything. */
  lemma CapIsEnforced(flag: string, parsed: Option<Float>, batch: string)
    requires flag != ""
    ensures var g := Precheck(ParseBudget(flag, parsed), batch);
      && (g.None? <==> parsed.None? || parsed.value.NegInf? || (parsed.value.Finite? && parsed.value.value < 0.0))
      && (g.Some? ==> ((exists i, spent :: !LetsThrough(g.value, i, spent)) <==> parsed.value.Finite? && batch != ""))
  {
    var g := Precheck(ParseBudget(flag, parsed), batch);
    if g.Some? && parsed.value.Finite? && batch != "" {
      assert !LetsThrough(g.value, 0, parsed.value.value);
    }
  }

  /* ---- the overshoot ---- */

  /** The cost a dispatched step has not committed yet. */
  function SlotLeft(k: Slot, db: bool): Usd
    requires k.Busy? ==> Valid(k.proc)
  {
    if k.Busy? then Cost(Rest(k.proc, db).trace) else 0.0
  }

  function SlotsLeft(slots: seq<Slot>, db: bool): Usd
    requires ValidSlots(slots)
  {
    if slots == [] then 0.0 else SlotLeft(slots[0], db) + SlotsLeft(slots[1..], db)
  }

  lemma {:induction false} SlotsLeftAppend(slots: seq<Slot>, k: Slot, db: bool)
    requires ValidSlots(slots) && (k.Busy? ==> Valid(k.proc))
    ensures ValidSlots(slots + [k]) && SlotsLeft(slots + [k], db) == SlotsLeft(slots, db) + SlotLeft(k, db)
  {
    if slots == [] {
      assert slots + [k] == [k] && [k][1..] == [];
    } else {
      assert (slots + [k])[1..] == slots[1..] + [k];
      SlotsLeftAppend(slots[1..], k, db);
    }
  }

  lemma {:induction false} SlotsLeftUpdate(slots: seq<Slot>, i: nat, k: Slot, db: bool)
    requires i < |slots| && ValidSlots(slots) && (k.Busy? ==> Valid(k.proc))
    ensures ValidSlots(slots[i := k])
    ensures SlotsLeft(slots[i := k], db) == SlotsLeft(slots, db) - SlotLeft(slots[i], db) + SlotLeft(k, db)
  {
    if i == 0 {
      assert slots[0 := k][1..] == slots[1..];
    } else {
      assert slots[i := k][1..] == slots[1..][i - 1 := k];
      SlotsLeftUpdate(slots[1..], i - 1, k, db);
    }
  }

  /** Each step in flight has at most c left. */
  ghost predicate Within(slots: seq<Slot>, db: bool, c: real)
    requires ValidSlots(slots)
  {
    forall k | k in slots && k.Busy? :: SlotLeft(k, db) <= c
  }

  // What n runs of c each come to.
  function Dues(n: nat, c: real): real { n as real * c }

  lemma {:induction false} LeftBound(slots: seq<Slot>, db: bool, c: real)
    requires ValidSlots(slots) && Within(slots, db, c) && c >= 0.0
    ensures SlotsLeft(slots, db) <= Dues(InFlight(slots), c)
  {
    hide Rest, Cost, Valid, Dues;
    if slots == [] {
      assert Dues(0, c) == 0.0 by { NoDues(c); }
    } else {
      LeftBound(slots[1..], db, c);
      assert slots[0] in slots;
      OneMore(InFlight(slots[1..]), c);
      assert SlotLeft(slots[0], db) <= if slots[0].Free? then 0.0 else c;
    }
  }

  lemma NoDues(c: real)
    ensures Dues(0, c) == 0.0
  {
  }

  lemma OneMore(n: nat, c: real)
    ensures Dues(n + 1, c) == Dues(n, c) + c
  {
  }

  lemma AtMost(n: nat, m: nat, c: real)
    requires n <= m && c >= 0.0
    ensures n as real * c <= m as real * c
  {
  }

  /** A gated pool whose steps cost at most c each. */
  ghost predicate Gated(s: Step, env: Env, db: bool, cap: real, c: real) {
    && s.Parallel? && s.gate == Budget(Some(cap)) && KidsPositional(s) && c >= 0.0
    && forall k | k in s.steps :: Cost(Meaning(k, env, db).trace) <= c
  }

  /** One run more than the workers, because the gate is asked before the slot is
      waited for; a sequential pool has no run in flight then. */
  function Slack(s: Step, env: Env): nat
    requires s.Parallel?
  {
    if Sequential(s, env) then 1 else Width(s, env) + 1
  }

  function Bound(s: Step, env: Env, cap: real, c: real): real
    requires s.Parallel?
  {
    cap + Slack(s, env) as real * c
  }

  /** What the pool may still commit: what is in flight, and the run let through but not started. */
  function Pending(p: Proc, db: bool, c: real): real
    requires p.InPool? && ValidSlots(p.slots)
  {
    SlotsLeft(p.slots, db) + if p.ticket then c else 0.0
  }

  /** Either nothing has been spent and nothing is under way, or spent and pending
      together are below the bound. */
  ghost predicate Safe(p: Proc, db: bool, before: real, spent: real, cap: real, c: real) {
    && p.InPool? && Gated(p.step, p.env, db, cap, c) && Valid(p) && Bounded(p) && ValidSlots(p.slots) && Within(p.slots, db, c)
    && ((!p.ticket && SlotsLeft(p.slots, db) == 0.0 && InFlight(p.slots) == 0 && spent == before)
        || spent + Pending(p, db, c) < Bound(p.step, p.env, cap, c))
  }

  lemma BelowBound(left: real, flight: nat, n: nat, spent: real, cap: real, c: real)
    requires left <= flight as real * c && flight <= n && spent < cap && c >= 0.0
    ensures spent + (left + c) < cap + (n + 1) as real * c
  {
    AtMost(flight, n, c);
    OneMore(n, c);
  }

  /** Asking the gate: what is in flight then is at most the slack but one. */
  lemma GateIsSafe(p: Proc, db: bool, before: real, spent: real, cap: real, c: real)
    requires Safe(p, db, before, spent, cap, c) && !p.ticket && !p.refused && |p.slots| < |p.step.steps|
    requires Dispatch(p, db, spent).Some? && InFlight(p.slots) <= Width(p.step, p.env)
    requires Valid(Dispatch(p, db, spent).value.proc) && Bounded(Dispatch(p, db, spent).value.proc)
    ensures Safe(Dispatch(p, db, spent).value.proc, db, before, spent, cap, c)
  {
    hide Valid, Bounded, SlotsLeft, InFlight, Rest, Cost, Meaning, KidsPositional, Width, ValidSlots, Within, SlotLeft;
    LeftBound(p.slots, db, c);
    if spent < cap { BelowBound(SlotsLeft(p.slots, db), InFlight(p.slots), Slack(p.step, p.env) - 1, spent, cap, c); }
  }

  lemma SpawnIsSafe(p: Proc, db: bool, before: real, spent: real, cap: real, c: real)
    requires Safe(p, db, before, spent, cap, c) && p.ticket && |p.slots| < |p.step.steps| && Dispatch(p, db, spent).Some?
    requires Valid(Dispatch(p, db, spent).value.proc) && Bounded(Dispatch(p, db, spent).value.proc)
    ensures Safe(Dispatch(p, db, spent).value.proc, db, before, spent, cap, c)
  {
    var n, p' := |p.slots|, Dispatch(p, db, spent).value.proc;
    var k := Busy(Start(p.step.steps[n], p.env, db));
    var m := Meaning(p.step.steps[n], p.env, db);
    assert Positional(p.step.steps[n]) && p.step.steps[n] in p.step.steps;
    StartMeans(p.step.steps[n], p.env, db);
    assert SlotLeft(k, db) <= c;
    SlotsLeftAppend(p.slots, k, db);
    hide Valid, Bounded, Rest, Meaning, Start, SlotsLeft, SlotLeft, Cost;
  }

  lemma SkipIsSafe(p: Proc, db: bool, before: real, spent: real, cap: real, c: real)
    requires Safe(p, db, before, spent, cap, c) && p.refused && |p.slots| < |p.step.steps|
    requires Valid(Dispatch(p, db, spent).value.proc) && Bounded(Dispatch(p, db, spent).value.proc)
    ensures Safe(Dispatch(p, db, spent).value.proc, db, before, spent, cap, c)
  {
    SlotsLeftAppend(p.slots, Free, db);
    InFlightAppend(p.slots, Free);
    hide Valid, Bounded, Rest, SlotsLeft, InFlight;
  }

  lemma SlotIsSafe(p: Proc, i: nat, k: Slot, rs: seq<Result>, db: bool, before: real, spent: real, paid: real, cap: real, c: real)
    requires Safe(p, db, before, spent, cap, c) && i < |p.slots| && !p.slots[i].Free? && (k.Busy? ==> Valid(k.proc))
    requires (p.slots[i].Busy? ==> Valid(p.slots[i].proc)) && SlotLeft(p.slots[i], db) == paid + SlotLeft(k, db) && SlotLeft(k, db) <= c
    requires var p' := p.(slots := p.slots[i := k], results := rs); Valid(p') && Bounded(p')
    ensures Safe(p.(slots := p.slots[i := k], results := rs), db, before, spent + paid, cap, c)
  {
    var p' := p.(slots := p.slots[i := k], results := rs);
    SlotsLeftUpdate(p.slots, i, k, db);
    SomeInFlightAt(p.slots, i);
    hide Valid, Bounded, Rest, SlotsLeft, InFlight, SlotLeft;
    forall x | x in p'.slots && x.Busy? ensures SlotLeft(x, db) <= c {
      var a :| 0 <= a < |p.slots| && p'.slots[a] == x;
      assert a != i ==> x == p.slots[a];
    }
  }

  lemma SomeInFlightAt(slots: seq<Slot>, i: nat)
    requires i < |slots| && !slots[i].Free?
    ensures InFlight(slots) > 0
  {
    if i > 0 { SomeInFlightAt(slots[1..], i - 1); }
  }

  lemma KidIsSafe(p: Proc, i: nat, ch: Choice, db: bool, before: real, spent: real, cap: real, c: real)
    requires Safe(p, db, before, spent, cap, c) && Next(p, Kid(i, ch), db, spent).Some?
    ensures Safe(Next(p, Kid(i, ch), db, spent).value.proc, db, before, spent + Cost(Next(p, Kid(i, ch), db, spent).value.events), cap, c)
  {
    StepKeepsValid(p, Kid(i, ch), db, spent);
    StepKeepsBounded(p, Kid(i, ch), db, spent);
    var k := p.slots[i].proc;
    var m := Next(k, ch, db, spent).value;
    assert Valid(k) && GateFree(k) && SlotLeft(p.slots[i], db) <= c;
    assert p.(slots := p.slots[i := Busy(m.proc)], results := p.results) == Next(p, Kid(i, ch), db, spent).value.proc;
    assert Next(p, Kid(i, ch), db, spent).value.events == Lift(i, m.events);
    hide Safe, Valid, Bounded, Rest, SlotLeft, Cost, Next, Lift;
    KidPays(k, ch, db, spent);
    CostLift(i, m.events);
    SlotIsSafe(p, i, Busy(m.proc), p.results, db, before, spent, Cost(m.events), cap, c);
  }

  /** What a step in flight commits is what it no longer has left. */
  lemma KidPays(k: Proc, ch: Choice, db: bool, spent: real)
    requires Valid(k) && GateFree(k) && Next(k, ch, db, spent).Some?
    ensures var m := Next(k, ch, db, spent).value;
      Valid(m.proc) && SlotLeft(Busy(k), db) == Cost(m.events) + SlotLeft(Busy(m.proc), db)
  {
    StepKeepsValid(k, ch, db, spent);
    EveryStepSplits(k, ch, db, spent);
    var m := Next(k, ch, db, spent).value;
    CostConcat(m.events, Rest(m.proc, db).trace);
  }

  lemma GoIsSafe(p: Proc, db: bool, before: real, spent: real, cap: real, c: real)
    requires Safe(p, db, before, spent, cap, c) && Next(p, Go, db, spent).Some? && Next(p, Go, db, spent).value.proc.InPool?
    ensures Safe(Next(p, Go, db, spent).value.proc, db, before, spent + Cost(Next(p, Go, db, spent).value.events), cap, c)
  {
    StepKeepsValid(p, Go, db, spent);
    StepKeepsBounded(p, Go, db, spent);
    if p.refused { SkipIsSafe(p, db, before, spent, cap, c); }
    else if p.ticket { SpawnIsSafe(p, db, before, spent, cap, c); }
    else { GateIsSafe(p, db, before, spent, cap, c); }
  }

  lemma CommitIsSafe(p: Proc, i: nat, db: bool, before: real, spent: real, cap: real, c: real)
    requires Safe(p, db, before, spent, cap, c) && Next(p, Commit(i), db, spent).Some?
    ensures Safe(Next(p, Commit(i), db, spent).value.proc, db, before, spent + Cost(Next(p, Commit(i), db, spent).value.events), cap, c)
  {
    StepKeepsValid(p, Commit(i), db, spent);
    StepKeepsBounded(p, Commit(i), db, spent);
    FinishedRest(p.slots[i].proc, db);
    SlotIsSafe(p, i, Committed, p.results + Results(p.slots[i].proc), db, before, spent, 0.0, cap, c);
  }

  lemma ReleaseIsSafe(p: Proc, i: nat, db: bool, before: real, spent: real, cap: real, c: real)
    requires Safe(p, db, before, spent, cap, c) && Next(p, Release(i), db, spent).Some?
    ensures Safe(Next(p, Release(i), db, spent).value.proc, db, before, spent + Cost(Next(p, Release(i), db, spent).value.events), cap, c)
  {
    StepKeepsValid(p, Release(i), db, spent);
    StepKeepsBounded(p, Release(i), db, spent);
    SlotIsSafe(p, i, Free, p.results, db, before, spent, 0.0, cap, c);
  }

  /** Whatever the scheduler picks, short of the stage's end. */
  lemma StepIsSafe(p: Proc, ch: Choice, db: bool, before: real, spent: real, cap: real, c: real)
    requires Safe(p, db, before, spent, cap, c) && Next(p, ch, db, spent).Some? && Next(p, ch, db, spent).value.proc.InPool?
    ensures Safe(Next(p, ch, db, spent).value.proc, db, before, spent + Cost(Next(p, ch, db, spent).value.events), cap, c)
  {
    hide *;
    match ch
    case Go => GoIsSafe(p, db, before, spent, cap, c);
    case Kid(i, ch') => KidIsSafe(p, i, ch', db, before, spent, cap, c);
    case Commit(i) => CommitIsSafe(p, i, db, before, spent, cap, c);
    case Release(i) => ReleaseIsSafe(p, i, db, before, spent, cap, c);
  }

  lemma SafeNow(p: Proc, db: bool, before: real, spent: real, cap: real, c: real)
    requires Safe(p, db, before, spent, cap, c)
    ensures p.InPool? && p.step.Parallel? && (spent == before || spent < Bound(p.step, p.env, cap, c)) && Cost([]) == 0.0
    ensures forall cs, spent' :: RunOf(Over([]), cs, db, spent').trace == []
  {
    hide Bound;
  }

  lemma {:induction false} RunIsSafe(p: Proc, cs: seq<Choice>, db: bool, before: real, spent: real, cap: real, c: real)
    requires Safe(p, db, before, spent, cap, c)
    ensures var total := spent + Cost(RunOf(p, cs, db, spent).trace); total == before || total < Bound(p.step, p.env, cap, c)
    decreases cs
  {
    hide Next, Bound, Safe, Cost;
    SafeNow(p, db, before, spent, cap, c);
    if cs != [] && Next(p, cs[0], db, spent).Some? {
      var m := Next(p, cs[0], db, spent).value;
      var rest := RunOf(m.proc, cs[1..], db, spent + Cost(m.events));
      CostConcat(m.events, rest.trace);
      NextKeepsStep(p, cs[0], db, spent);
      if m.proc.InPool? {
        StepIsSafe(p, cs[0], db, before, spent, cap, c);
        RunIsSafe(m.proc, cs[1..], db, before, spent + Cost(m.events), cap, c);
      }
    }
  }

  lemma NextKeepsStep(p: Proc, ch: Choice, db: bool, spent: real)
    requires p.InPool? && Next(p, ch, db, spent).Some?
    ensures var m := Next(p, ch, db, spent).value;
      if m.proc.InPool? then m.proc.step == p.step && m.proc.env == p.env
      else Cost(m.events) == 0.0 && forall cs, spent' :: RunOf(m.proc, cs, db, spent').trace == []
  {
    var m := Next(p, ch, db, spent).value;
    if !m.proc.InPool? {
      forall cs, spent' ensures RunOf(m.proc, cs, db, spent').trace == [] { OverIsOver(m.proc.results, cs, db, spent'); }
    }
  }

  lemma OverIsOver(rs: seq<Result>, cs: seq<Choice>, db: bool, spent: real)
    ensures RunOf(Over(rs), cs, db, spent).trace == []
  {
  }

  lemma BoundSpelled(s: Step, env: Env, cap: real, c: real)
    requires s.Parallel?
    ensures var runs := if env.dryRun || |s.steps| <= 1 then 1 else if s.workers > 0 then s.workers + 1
                        else if |s.steps| < 5 then |s.steps| + 1 else 6;
      Bound(s, env, cap, c) == cap + runs as real * c
  {
  }

  lemma SpendsBelowBound(s: Step, env: Env, db: bool, cs: seq<Choice>, before: real, cap: real, c: real)
    requires s.Parallel? && Gated(s, Bind(s.env, env), db, cap, c)
    ensures var total := before + Cost(RunOf(Start(s, env, db), cs, db, before).trace);
      total == before || total < Bound(s, Bind(s.env, env), cap, c)
  {
    var p := Start(s, env, db);
    if cs != [] && Next(p, cs[0], db, before).Some? {
      var m := Next(p, cs[0], db, before).value;
      var rest := RunOf(m.proc, cs[1..], db, before + Cost(m.events));
      CostConcat(m.events, rest.trace);
      assert Cost(m.events) == 0.0;
      RunIsSafe(m.proc, cs[1..], db, before, before, cap, c);
    }
  }

  /** The overshoot bound, on every schedule and at every point of it: what the
      batch had spent before plus what this parallel has committed is below the
      cap plus (workers + 1) runs - or nothing has been spent. A pool that runs
      its steps one at a time stays below the cap plus one run. */
  lemma OvershootBound(s: Step, env: Env, db: bool, cs: seq<Choice>, before: real, cap: real, c: real)
    requires s.Parallel? && Gated(s, Bind(s.env, env), db, cap, c)
    ensures var e, total := Bind(s.env, env), before + Cost(RunOf(Start(s, env, db), cs, db, before).trace);
      var runs := if e.dryRun || |s.steps| <= 1 then 1 else if s.workers > 0 then s.workers + 1
                  else if |s.steps| < 5 then |s.steps| + 1 else 6;
      total == before || total < cap + runs as real * c
  {
    hide *;
    SpendsBelowBound(s, env, db, cs, before, cap, c);
    BoundSpelled(s, Bind(s.env, env), cap, c);
  }
}
