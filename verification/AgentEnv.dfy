/**
  The environment an agent process is started with (internal/agent/agent.go, buildProcessEnv, upsertEnv and
  filterEnv): list editing that must come to overriding one map by another. The host's environment is a parameter.
*/
module AgentEnv {
  import opened Common
  import opened GoStrings
  import opened SortedNames
  import opened EnvEntries

  // The keys upsertEnv writes.
  function Written(updates: EnvMap, skipEmpty: bool): (r: set<string>)
    ensures forall k <- r :: k in updates
  {
    set k | k in updates && !(skipEmpty && updates[k] == "")
  }

  // What upsertEnv leaves: the written keys gone from where they were, and at the end in byte order.
  function Upserted(env: seq<string>, updates: EnvMap, skipEmpty: bool): seq<string> {
    var keys := Written(updates, skipEmpty);
    Kept(env, keys) + Entries(Sort(keys), updates)
  }

  function Emptied(agentEnv: EnvMap): set<string> { set k | k in agentEnv && agentEnv[k] == "" }

  function ProcessEnv(host: seq<string>, agentEnv: EnvMap, reqEnv: EnvMap): seq<string> {
    Upserted(Upserted(Kept(host, Emptied(agentEnv)), agentEnv, true), reqEnv, false)
  }

  method FilterEnv(env: seq<string>, exclude: seq<string>) returns (result: seq<string>)
    ensures result == Kept(env, AsSet(exclude))
  {
    var excludeSet := AsSet(exclude);
    result := [];
    for i := 0 to |env|
      invariant result == Kept(env[..i], excludeSet)
    {
      KeptNext(env, i, excludeSet);
      var cut := IndexByte(env[i], '=');
      if cut < |env[i]| && env[i][..cut] in excludeSet {
        continue;
      }
      result := result + [env[i]];
    }
    assert env[..|env|] == env;
  }

  method UpsertEnv(env: seq<string>, updates: EnvMap, skipEmpty: bool) returns (r: seq<string>)
    ensures r == Upserted(env, updates, skipEmpty)
  {
    hide Kept;
    KeptAll(env);
    if |updates| == 0 {
      assert Written(updates, skipEmpty) == {};
      return env;
    }
    var keys: seq<string> := [];
    var left := updates.Keys;
    while left != {}
      invariant left <= updates.Keys
      invariant AsSet(keys) == Written(updates, skipEmpty) - left
    {
      var k :| k in left;
      left := left - {k};
      if skipEmpty && updates[k] == "" {
        continue;
      }
      AsSetAppend(keys, k);
      keys := keys + [k];
    }
    assert AsSet(keys) == Written(updates, skipEmpty);
    if |keys| == 0 {
      return env;
    }
    r := FilterEnv(env, keys);
    keys := Sort(AsSet(keys));
    var kept := r;
    for i := 0 to |keys|
      invariant r == kept + Entries(keys[..i], updates)
    {
      assert keys[..i + 1] == keys[..i] + [keys[i]];
      EntriesNext(keys[..i], keys[i], updates);
      r := r + [keys[i] + "=" + updates[keys[i]]];
    }
    assert keys[..|keys|] == keys;
  }

  method BuildProcessEnv(host: seq<string>, agentEnv: EnvMap, reqEnv: EnvMap) returns (env: seq<string>)
    ensures env == ProcessEnv(host, agentEnv, reqEnv)
    ensures Nameable(agentEnv, true) && Nameable(reqEnv, false) ==>
              forall k :: Values(env, k) == Overlay(host, agentEnv, reqEnv, k)
  {
    var excludeKeys: seq<string> := [];
    var left := agentEnv.Keys;
    while left != {}
      invariant left <= agentEnv.Keys
      invariant AsSet(excludeKeys) == Emptied(agentEnv) - left
    {
      var k :| k in left;
      left := left - {k};
      if agentEnv[k] == "" {
        AsSetAppend(excludeKeys, k);
        excludeKeys := excludeKeys + [k];
      }
    }
    assert AsSet(excludeKeys) == Emptied(agentEnv);
    env := FilterEnv(host, excludeKeys);
    env := UpsertEnv(env, agentEnv, true);
    env := UpsertEnv(env, reqEnv, false);
    OverlayIff(host, agentEnv, reqEnv);
  }

  // What the caller meant: the request, over the agent's settings, over the host; an empty agent setting removes.
  function Overlay(host: seq<string>, agentEnv: EnvMap, reqEnv: EnvMap, key: string): seq<string> {
    if key in reqEnv then [reqEnv[key]]
    else if key in agentEnv then (if agentEnv[key] == "" then [] else [agentEnv[key]])
    else Values(host, key)
  }

  // Every key to be written can be the name of a variable.
  predicate Nameable(updates: EnvMap, skipEmpty: bool) {
    forall k <- Written(updates, skipEmpty) :: '=' !in k
  }

  lemma {:induction false} UpsertedValues(env: seq<string>, updates: EnvMap, skipEmpty: bool, key: string)
    requires Nameable(updates, skipEmpty)
    ensures Values(Upserted(env, updates, skipEmpty), key)
         == if key in Written(updates, skipEmpty) then [updates[key]] else Values(env, key)
  {
    var keys := Written(updates, skipEmpty);
    AscendingDistinct(Sort(keys));
    ValuesConcat(Kept(env, keys), Entries(Sort(keys), updates), key);
    KeptValues(env, keys, key);
    EntriesValues(Sort(keys), updates, key);
  }

  lemma {:induction false} ProcessEnvValues(host: seq<string>, agentEnv: EnvMap, reqEnv: EnvMap, key: string)
    requires Nameable(agentEnv, true) && Nameable(reqEnv, false)
    ensures Values(ProcessEnv(host, agentEnv, reqEnv), key) == Overlay(host, agentEnv, reqEnv, key)
  {
    hide Upserted, Kept, Values, Nameable;
    var env0 := Kept(host, Emptied(agentEnv));
    KeptValues(host, Emptied(agentEnv), key);
    UpsertedValues(env0, agentEnv, true, key);
    UpsertedValues(Upserted(env0, agentEnv, true), reqEnv, false, key);
  }

  /**
    The list edits come to the overlay for every key - every key set by the maps there once, every other as the host
    has it - exactly when no key that is written holds an '='.
  */
  lemma {:induction false} OverlayIff(host: seq<string>, agentEnv: EnvMap, reqEnv: EnvMap)
    ensures (forall k :: Values(ProcessEnv(host, agentEnv, reqEnv), k) == Overlay(host, agentEnv, reqEnv, k))
       <==> Nameable(agentEnv, true) && Nameable(reqEnv, false)
  {
    var env := ProcessEnv(host, agentEnv, reqEnv);
    if Nameable(agentEnv, true) && Nameable(reqEnv, false) {
      forall k ensures Values(env, k) == Overlay(host, agentEnv, reqEnv, k) {
        ProcessEnvValues(host, agentEnv, reqEnv, k);
      }
    } else {
      var k :| '=' in k && (k in Written(agentEnv, true) || k in Written(reqEnv, false));
      OddKeyHasNoValues(env, k);
      assert Values(env, k) != Overlay(host, agentEnv, reqEnv, k);
    }
  }

  /** Entries of other keys, and entries that are not key=value at all, stay as they are and in their order. */
  lemma {:induction false} OthersUntouched(host: seq<string>, agentEnv: EnvMap, reqEnv: EnvMap)
    requires Nameable(agentEnv, true) && Nameable(reqEnv, false)
    ensures Kept(ProcessEnv(host, agentEnv, reqEnv), agentEnv.Keys + reqEnv.Keys)
         == Kept(host, agentEnv.Keys + reqEnv.Keys)
  {
    var drop := agentEnv.Keys + reqEnv.Keys;
    var env0 := Kept(host, Emptied(agentEnv));
    KeptAgain(host, Emptied(agentEnv), drop);
    UpsertedDropped(env0, agentEnv, true, drop);
    UpsertedDropped(Upserted(env0, agentEnv, true), reqEnv, false, drop);
  }

  lemma {:induction false} UpsertedDropped(env: seq<string>, updates: EnvMap, skipEmpty: bool, drop: set<string>)
    requires Nameable(updates, skipEmpty) && updates.Keys <= drop
    ensures Kept(Upserted(env, updates, skipEmpty), drop) == Kept(env, drop)
  {
    var keys := Written(updates, skipEmpty);
    KeptConcat(Kept(env, keys), Entries(Sort(keys), updates), drop);
    KeptAgain(env, keys, drop);
    EntriesDropped(Sort(keys), updates, drop);
  }
}
