/** internal/container/prepare_guard.go as steps of concurrent callers. */
module PrepareGuard {
  import opened Common

  type Key = string
  type Failure = Option<string> // the error fn returned, if any

  // A sync.Once with the error it keeps; while it runs, it belongs to one caller.
  datatype Once = Fresh | Runs(caller: nat) | Done(err: Failure)

  // Where a caller of KeyedPrepareGuard.Do is.
  datatype Pc =
    | Calling(key: Key)               // about to take the mutex
    | Locked(key: Key)                // holds the mutex, about to look the key up
    | Holds(key: Key, guard: nat)     // has the key's guard, about to call once.Do
    | Inside(key: Key, guard: nat)    // running fn
    | Returned(key: Key, err: Failure)

  datatype State = State(mutex: Option<nat>, table: map<Key, nat>, onces: seq<Once>, callers: seq<Pc>, runs: seq<Key>)

  /** The next step of one caller; err is what fn returns if this step ends it. */
  function Step(s: State, c: nat, err: Failure): Option<State> {
    if c >= |s.callers| then None
    else
      match s.callers[c]
      case Calling(k) =>
        if s.mutex.Some? then None else Some(s.(mutex := Some(c), callers := s.callers[c := Locked(k)]))
      case Locked(k) =>
        if k in s.table then Some(s.(mutex := None, callers := s.callers[c := Holds(k, s.table[k])]))
        else
          Some(s.(mutex := None, table := s.table[k := |s.onces|], onces := s.onces + [Fresh],
                  callers := s.callers[c := Holds(k, |s.onces|)]))
      case Holds(k, g) =>
        if g >= |s.onces| then None
        else
          (match s.onces[g]
           case Fresh => Some(s.(onces := s.onces[g := Runs(c)], callers := s.callers[c := Inside(k, g)], runs := s.runs + [k]))
           case Runs(_) => None
           case Done(e) => Some(s.(callers := s.callers[c := Returned(k, e)])))
      case Inside(k, g) =>
        if g >= |s.onces| then None
        else Some(s.(onces := s.onces[g := Done(err)], callers := s.callers[c := Returned(k, err)]))
      case Returned(_, _) => None
  }

  function Init(keys: seq<Key>): State {
    State(None, map[], [], seq(|keys|, i requires 0 <= i < |keys| => Calling(keys[i])), [])
  }

  datatype Pick = Pick(caller: nat, err: Failure)

  /** A schedule; picks that are not possible are passed over. */
  function Run(s: State, ps: seq<Pick>): State
    decreases ps
  {
    if ps == [] then s
    else
      var n := Step(s, ps[0].caller, ps[0].err);
      Run(if n.Some? then n.value else s, ps[1..])
  }

  /* ---- the invariant ---- */

  ghost predicate TableOk(s: State) {
    && (forall k | k in s.table :: s.table[k] < |s.onces|)
    && (forall k, l | k in s.table && l in s.table && s.table[k] == s.table[l] :: k == l)
  }

  ghost predicate CallerOk(s: State, c: nat)
    requires c < |s.callers|
  {
    match s.callers[c]
    case Calling(_) => s.mutex != Some(c)
    case Locked(_) => s.mutex == Some(c)
    case Holds(k, g) => s.mutex != Some(c) && k in s.table && s.table[k] == g
    case Inside(k, g) => s.mutex != Some(c) && k in s.table && s.table[k] == g && g < |s.onces| && s.onces[g] == Runs(c)
    case Returned(k, e) => s.mutex != Some(c) && k in s.table && s.table[k] < |s.onces| && s.onces[s.table[k]] == Done(e)
  }

  /** fn has started for a key exactly if its once is not fresh; a once that runs has its caller inside. */
  ghost predicate RunsOk(s: State) {
    && (forall k :: k in s.runs <==> k in s.table && s.table[k] < |s.onces| && !s.onces[s.table[k]].Fresh?)
    && (forall i, j | 0 <= i < j < |s.runs| :: s.runs[i] != s.runs[j])
    && (forall g, c: nat | 0 <= g < |s.onces| && s.onces[g] == Runs(c) :: c < |s.callers| && s.callers[c].Inside? && s.callers[c].guard == g)
  }

  ghost predicate Inv(s: State) {
    && TableOk(s) && RunsOk(s) && (forall c: nat | c < |s.callers| :: CallerOk(s, c))
    && (s.mutex.Some? ==> s.mutex.value < |s.callers| && s.callers[s.mutex.value].Locked?)
  }

  lemma InitInv(keys: seq<Key>)
    ensures Inv(Init(keys))
  {
  }

  lemma StepKeepsTable(s: State, c: nat, err: Failure)
    requires Inv(s) && Step(s, c, err).Some?
    ensures TableOk(Step(s, c, err).value)
  {
    hide RunsOk, CallerOk;
  }

  lemma StepKeepsOwn(s: State, c: nat, err: Failure)
    requires Inv(s) && Step(s, c, err).Some?
    ensures CallerOk(Step(s, c, err).value, c)
  {
    assert CallerOk(s, c);
    hide RunsOk;
  }

  /** A step of one caller leaves the others as they are, and what they know true. */
  lemma StepKeepsOthers(s: State, c: nat, err: Failure, d: nat)
    requires c < |s.callers| && d < |s.callers| && d != c && TableOk(s) && CallerOk(s, c) && CallerOk(s, d)
    requires Step(s, c, err).Some?
    ensures CallerOk(Step(s, c, err).value, d)
  {
    assert Step(s, c, err).value.callers[d] == s.callers[d];
  }

  lemma StepKeepsCallers(s: State, c: nat, err: Failure, d: nat)
    requires Inv(s) && Step(s, c, err).Some? && d < |s.callers|
    ensures CallerOk(Step(s, c, err).value, d)
  {
    if d == c {
      StepKeepsOwn(s, c, err);
    } else {
      assert CallerOk(s, c) && CallerOk(s, d);
      hide Step, RunsOk, CallerOk;
      StepKeepsOthers(s, c, err, d);
    }
  }

  lemma StepKeepsRuns(s: State, c: nat, err: Failure)
    requires Inv(s) && Step(s, c, err).Some?
    ensures RunsOk(Step(s, c, err).value)
  {
    assert CallerOk(s, c);
    hide CallerOk;
    var s' := Step(s, c, err).value;
    match s.callers[c]
    case Holds(k, g) => if s.onces[g].Fresh? { assert k !in s.runs && s'.runs == s.runs + [k]; }
    case _ =>
  }

  lemma StepKeepsInv(s: State, c: nat, err: Failure)
    requires Inv(s) && Step(s, c, err).Some?
    ensures Inv(Step(s, c, err).value)
  {
    StepKeepsTable(s, c, err);
    StepKeepsRuns(s, c, err);
    forall d: nat | d < |s.callers| ensures CallerOk(Step(s, c, err).value, d) { StepKeepsCallers(s, c, err, d); }
    assert CallerOk(s, c);
    hide TableOk, RunsOk, CallerOk;
  }

  lemma {:induction false} RunKeepsInv(s: State, ps: seq<Pick>)
    requires Inv(s)
    ensures Inv(Run(s, ps))
    decreases |ps|
  {
    hide Inv, Step;
    if ps != [] {
      var n := Step(s, ps[0].caller, ps[0].err);
      if n.Some? { StepKeepsInv(s, ps[0].caller, ps[0].err); }
      RunKeepsInv(if n.Some? then n.value else s, ps[1..]);
    }
  }

  /* ---- what every schedule keeps ---- */

  /** fn runs at most once per key, whoever calls and however they interleave. */
  lemma AtMostOncePerKey(keys: seq<Key>, ps: seq<Pick>, i: nat, j: nat)
    requires var s := Run(Init(keys), ps); i < |s.runs| && j < |s.runs| && s.runs[i] == s.runs[j]
    ensures i == j
  {
    InitInv(keys);
    RunKeepsInv(Init(keys), ps);
  }

  /** No caller returns before its key's fn has finished, and all callers of a key
      that returned hold the same error. */
  lemma ReturnsAfterFinish(keys: seq<Key>, ps: seq<Pick>, c: nat, d: nat)
    requires var s := Run(Init(keys), ps);
      c < |s.callers| && d < |s.callers| && s.callers[c].Returned? && s.callers[d].Returned? && s.callers[c].key == s.callers[d].key
    ensures var s := Run(Init(keys), ps);
      && s.callers[c].err == s.callers[d].err
      && s.callers[c].key in s.table && s.table[s.callers[c].key] < |s.onces|
      && s.onces[s.table[s.callers[c].key]] == Done(s.callers[c].err)
      && s.callers[c].key in s.runs
  {
    InitInv(keys);
    RunKeepsInv(Init(keys), ps);
    var s := Run(Init(keys), ps);
    assert CallerOk(s, c) && CallerOk(s, d);
  }

  /** No deadlock: as long as a caller has not returned, some caller can step. */
  lemma SomeoneCanStep(s: State, c: nat) returns (d: nat)
    requires Inv(s) && c < |s.callers| && !s.callers[c].Returned?
    ensures Step(s, d, None).Some?
  {
    assert CallerOk(s, c);
    d := c;
    match s.callers[c]
    case Calling(_) => if s.mutex.Some? { d := s.mutex.value; }
    case Holds(_, g) => if s.onces[g].Runs? { d := s.onces[g].caller; }
    case _ =>
  }

  /** How far a caller still has to go. */
  function Left(pc: Pc): nat {
    match pc
    case Calling(_) => 4
    case Locked(_) => 3
    case Holds(_, _) => 2
    case Inside(_, _) => 1
    case Returned(_, _) => 0
  }

  function AllLeft(pcs: seq<Pc>): nat {
    if pcs == [] then 0 else AllLeft(pcs[..|pcs| - 1]) + Left(pcs[|pcs| - 1])
  }

  lemma {:induction false} LeftUpdate(pcs: seq<Pc>, c: nat, pc: Pc)
    requires c < |pcs|
    ensures AllLeft(pcs[c := pc]) + Left(pcs[c]) == AllLeft(pcs) + Left(pc)
  {
    var n := |pcs| - 1;
    if c == n {
      assert pcs[c := pc][..n] == pcs[..n];
    } else {
      assert pcs[c := pc][..n] == pcs[..n][c := pc];
      LeftUpdate(pcs[..n], c, pc);
    }
  }

  /** Every step brings its caller closer to returning, so every schedule ends. */
  lemma StepGoesOn(s: State, c: nat, err: Failure)
    requires Step(s, c, err).Some?
    ensures AllLeft(Step(s, c, err).value.callers) < AllLeft(s.callers)
  {
    LeftUpdate(s.callers, c, Step(s, c, err).value.callers[c]);
  }

  /* ---- whose error it is ---- */

  /** The n-th pick has its caller's fn return e under guard g. */
  predicate EndsFn(s: State, ps: seq<Pick>, n: nat, g: nat, e: Failure) {
    && n < |ps| && ps[n].err == e
    && var t, c := Run(s, ps[..n]), ps[n].caller;
       c < |t.callers| && t.callers[c].Inside? && t.callers[c].guard == g && g < |t.onces|
  }

  /** A once that is done was done before, or some pick had its fn return that error. */
  lemma {:induction false} DoneByFn(s: State, ps: seq<Pick>, g: nat, e: Failure)
    requires g < |Run(s, ps).onces| && Run(s, ps).onces[g] == Done(e)
    ensures (g < |s.onces| && s.onces[g] == Done(e)) || exists n: nat :: EndsFn(s, ps, n, g, e)
    decreases |ps|
  {
    if ps != [] {
      var next := Step(s, ps[0].caller, ps[0].err);
      var s1, rest := if next.Some? then next.value else s, ps[1..];
      DoneByFn(s1, rest, g, e);
      if n: nat :| EndsFn(s1, rest, n, g, e) {
        assert ps[..n + 1][0] == ps[0] && ps[..n + 1][1..] == rest[..n];
        hide Step;
        assert EndsFn(s, ps, n + 1, g, e);
      } else if !(g < |s.onces| && s.onces[g] == Done(e)) {
        assert ps[..0] == [];
        assert EndsFn(s, ps, 0, g, e);
      }
    }
  }

  /** The error a caller returns with is the one fn gave when it ran under the key's guard. */
  lemma ErrorIsFns(keys: seq<Key>, ps: seq<Pick>, c: nat)
    requires var s := Run(Init(keys), ps); c < |s.callers| && s.callers[c].Returned?
    ensures var s := Run(Init(keys), ps);
      && s.callers[c].key in s.table
      && exists n: nat :: EndsFn(Init(keys), ps, n, s.table[s.callers[c].key], s.callers[c].err)
  {
    var s := Run(Init(keys), ps);
    ReturnsAfterFinish(keys, ps, c, c);
    DoneByFn(Init(keys), ps, s.table[s.callers[c].key], s.callers[c].err);
  }
}
