/** The laws of the composites without the helpers they are stated with: which
    results stop a pipeline, what the counts count, and whose environment a step gets. */
module FlowSpelled {
  import opened Common
  import opened FlowBundle
  import opened FlowMeaning
  import opened FlowLaws

  predicate Fails(r: Result) { r.flow.state == Failed }

  predicate NoneFails(rs: seq<Result>) { forall r | r in rs :: !Fails(r) }

  /** A step of a pipeline runs exactly if no result of an earlier step is a failure; a skip stops nothing. It runs in
      the stage's own environment, or in the one passed down when the stage has none. */
  lemma PipelineStops(s: Step, env: Env, db: bool, k: nat, a: Addr)
    requires s.Pipeline? && k < |s.steps|
    ensures var e := if s.env.Some? then s.env.value else env;
      At(Meaning(s, env, db).trace, [k] + a)
      == if forall i | 0 <= i < k :: NoneFails(Meaning(s.steps[i], e, db).results) then At(Meaning(s.steps[k], e, db).trace, a)
         else []
  {
    PipelineLaw(s, env, db, k, a);
    hide At, Meaning;
    var e := Bind(s.env, env);
    var f := FirstError(s, 0, e, db);
    if k > f {
      assert HasError(Meaning(s.steps[f], e, db).results);
      assert !NoneFails(Meaning(s.steps[f], e, db).results);
    } else {
      forall i | 0 <= i < k ensures NoneFails(Meaning(s.steps[i], e, db).results) { assert !HasError(Meaning(s.steps[i], e, db).results); }
    }
  }

  /** A step of a parallel runs whatever the others return. */
  lemma ParallelGoesOn(s: Step, env: Env, db: bool, k: nat, a: Addr)
    requires s.Parallel? && k < |s.steps| && (s.gate.RefusesAt? ==> k < s.gate.step)
    ensures At(Meaning(s, env, db).trace, [k] + a)
         == At(Meaning(s.steps[k], if s.env.Some? then s.env.value else env, db).trace, a)
  {
    ParallelLaw(s, env, db, k, a);
    hide At, Meaning;
  }

  /** Which of the results ended so. */
  function InState(rs: seq<Result>, st: State): set<int> { set i | 0 <= i < |rs| && rs[i].flow.state == st }

  lemma {:induction false} StateCounted(rs: seq<Result>, st: State)
    ensures CountState(rs, st) == |InState(rs, st)|
    decreases |rs|
  {
    if rs == [] {
      assert InState(rs, st) == {};
    } else {
      var n := |rs| - 1;
      StateCounted(rs[..n], st);
      CountLast(rs, st);
      hide CountState;
      SetLast(rs, st);
    }
  }

  lemma CountLast(rs: seq<Result>, st: State)
    requires rs != []
    ensures CountState(rs, st) == CountState(rs[..|rs| - 1], st) + if rs[|rs| - 1].flow.state == st then 1 else 0
  {
    var n := |rs| - 1;
    CountConcatState(rs[..n], [rs[n]], st);
    assert rs == rs[..n] + [rs[n]] && [rs[n]][1..] == [];
    assert CountState([rs[n]], st) == if rs[n].flow.state == st then 1 else 0;
    hide CountState;
  }

  lemma SetLast(rs: seq<Result>, st: State)
    requires rs != []
    ensures var n := |rs| - 1;
      |InState(rs, st)|
      == |InState(rs[..n], st)| + if rs[n].flow.state == st then 1 else 0
  {
    var n := |rs| - 1;
    var all, fewer := InState(rs, st), InState(rs[..n], st);
    assert all == fewer + if rs[n].flow.state == st then {n} else {};
  }

  /** What a stage reports at its end, counted. */
  lemma TallyCounts(rs: seq<Result>, skipped: nat, firstError: int)
    ensures var t := Tally(rs, skipped, firstError);
      && t.succeeded == |InState(rs, Continue)|
      && t.failed == |InState(rs, Failed)|
      && t.skipped == |InState(rs, Skip)| + skipped
      && t.firstError == firstError
  {
    StateCounted(rs, Continue);
    StateCounted(rs, Failed);
    StateCounted(rs, Skip);
  }

  /** A step the gate refused is a skip under the step's own name, with nothing it ran up. */
  lemma RefusedIsSkip(s: Step, env: Env)
    ensures var r := Refused(s, env);
      && r.flow.state == Skip && r.env == env && r.summary.None?
      && r.bundle == match s case Leaf(b) => b.name case Pipeline(n, _, _) => n case Parallel(n, _, _, _, _) => n
  {
  }
}
