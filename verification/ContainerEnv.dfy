/**
  How an environment reaches a container: the staged environment of the docker command line
  (internal/container/container.go, stagedEnv) and the -e flags that name what to take from it
  (internal/container/docker.go, the second half of baseRunArgs and envArgs).
*/
module ContainerEnv {
  import opened Common
  import opened GoStrings
  import opened SortedNames
  import opened EnvEntries
  import AgentEnv

  // What stagedEnv may return: the host's entries but for the keys set here - an entry that starts with '=' stays -
  // and the non-empty settings in the order the map happened to give.
  ghost predicate Staged(host: seq<string>, env: EnvMap, out: seq<string>) {
    exists order :: StagedIn(order, host, env, out)
  }

  ghost predicate StagedIn(order: seq<string>, host: seq<string>, env: EnvMap, out: seq<string>) {
    && Distinct(order)
    && AsSet(order) == AgentEnv.Written(env, true)
    && (forall k <- order :: k in AsSet(order))
    && out == Kept(host, env.Keys - {""}) + Entries(order, env)
  }

  lemma NoEntries(host: seq<string>, env: EnvMap)
    ensures Entries([], env) == [] && Kept(host[..0], env.Keys - {""}) == []
  {
  }

  method StagedEnv(host: seq<string>, env: EnvMap) returns (out: seq<string>)
    ensures Staged(host, env, out)
    ensures AgentEnv.Nameable(env, true) ==>
              forall k :: Lookup(out, k) == Lookup(AgentEnv.ProcessEnv(host, env, map[]), k) <==> !Surfaces(host, env, k)
  {
    hide Lookup, Kept, Entries, AgentEnv.ProcessEnv, AgentEnv.Nameable, Surfaces;
    NoEntries(host, env);
    if |env| == 0 {
      KeptAll(host);
      out := host;
      assert env.Keys - {""} == {};
      assert StagedIn([], host, env, out);
      StagedAgrees(host, env, out);
      return;
    }
    out := [];
    for i := 0 to |host|
      invariant out == Kept(host[..i], env.Keys - {""})
    {
      KeptNext(host, i, env.Keys - {""});
      var kv := host[i];
      var eq := IndexByte(kv, '=');
      if eq == 0 || eq == |kv| {
        out := out + [kv];
        continue;
      }
      if kv[..eq] in env {
        continue;
      }
      out := out + [kv];
    }
    assert host[..|host|] == host;
    ghost var order: seq<string> := [];
    var left := env.Keys;
    while left != {}
      invariant left <= env.Keys && Distinct(order)
      invariant AsSet(order) == AgentEnv.Written(env, true) - left
      invariant forall k <- order :: k in AsSet(order)
      invariant out == Kept(host, env.Keys - {""}) + Entries(order, env)
    {
      var k :| k in left;
      left := left - {k};
      if env[k] == "" {
        continue;
      }
      assert k !in AsSet(order);
      AsSetAppend(order, k);
      EntriesNext(order, k, env);
      order := order + [k];
      out := out + [k + "=" + env[k]];
    }
    assert StagedIn(order, host, env, out);
    StagedAgrees(host, env, out);
  }

  /** What is staged, key by key. */
  lemma {:induction false} StagedValues(host: seq<string>, env: EnvMap, out: seq<string>, key: string)
    requires Staged(host, env, out) && AgentEnv.Nameable(env, true)
    ensures Values(out, key)
         == (if key in env && key != "" then [] else Values(host, key)) +
            (if key in env && env[key] != "" then [env[key]] else [])
  {
    hide Values, Kept, Entries, Distinct;
    var order :| StagedIn(order, host, env, out);
    assert key in order <==> key in AsSet(order);
    assert forall k <- order :: k in AgentEnv.Written(env, true);
    ValuesConcat(Kept(host, env.Keys - {""}), Entries(order, env), key);
    KeptValues(host, env.Keys - {""}, key);
    EntriesValues(order, env, key);
  }

  // The one way the two environments differ: an empty setting for the empty key, and a host entry that starts with '='.
  predicate Surfaces(host: seq<string>, env: EnvMap, key: string) {
    key == "" && key in env && env[key] == "" && Values(host, key) != []
  }

  /** The staged environment and that of an agent on the host agree on a key exactly when it is not that one. */
  lemma {:induction false} StagedAgrees(host: seq<string>, env: EnvMap, out: seq<string>)
    requires Staged(host, env, out)
    ensures AgentEnv.Nameable(env, true) ==>
              forall k :: Lookup(out, k) == Lookup(AgentEnv.ProcessEnv(host, env, map[]), k) <==> !Surfaces(host, env, k)
  {
    if AgentEnv.Nameable(env, true) {
      forall k
        ensures Lookup(out, k) == Lookup(AgentEnv.ProcessEnv(host, env, map[]), k) <==> !Surfaces(host, env, k)
      {
        StagedValues(host, env, out, k);
        AgentEnv.ProcessEnvValues(host, env, map[], k);
      }
    }
  }

  // The names baseRunArgs forwards from the host: those not set here, and when it is to run, only those the host has.
  function Forwarded(host: seq<string>, forwardEnv: seq<string>, env: EnvMap, forExec: bool): (r: seq<string>)
    ensures forall k :: k in r <==> k in forwardEnv && Forwards(host, k, env, forExec)
  {
    if forwardEnv == [] then []
    else
      (if Forwards(host, forwardEnv[0], env, forExec) then [forwardEnv[0]] else []) +
      Forwarded(host, forwardEnv[1..], env, forExec)
  }

  function Flags(names: seq<string>): seq<string> {
    if names == [] then [] else ["-e", names[0]] + Flags(names[1..])
  }

  function EnvNames(host: seq<string>, forwardEnv: seq<string>, env: EnvMap, forExec: bool): seq<string> {
    Forwarded(host, forwardEnv, env, forExec) + Sort(AgentEnv.Written(env, true))
  }

  lemma {:induction false} FlagsConcat(a: seq<string>, b: seq<string>)
    ensures Flags(a + b) == Flags(a) + Flags(b)
  {
    if a == [] {
      assert a + b == b;
    } else {
      assert (a + b)[1..] == a[1..] + b;
      FlagsConcat(a[1..], b);
    }
  }

  lemma FlagsNext(names: seq<string>, name: string)
    ensures Flags(names + [name]) == Flags(names) + ["-e", name]
  {
    FlagsConcat(names, [name]);
    assert [name][1..] == [];
  }

  lemma NoFlags(host: seq<string>, forwardEnv: seq<string>, env: EnvMap, forExec: bool)
    ensures Flags([]) == [] && Forwarded(host, forwardEnv[..0], env, forExec) == []
  {
  }

  predicate Forwards(host: seq<string>, key: string, env: EnvMap, forExec: bool) {
    key !in env && (forExec ==> Lookup(host, key).Some?)
  }

  lemma {:induction false} ForwardedConcat(host: seq<string>, a: seq<string>, b: seq<string>, env: EnvMap, forExec: bool)
    ensures Forwarded(host, a + b, env, forExec) == Forwarded(host, a, env, forExec) + Forwarded(host, b, env, forExec)
  {
    hide Forwards;
    if a == [] {
      assert a + b == b;
    } else {
      assert (a + b)[1..] == a[1..] + b;
      ForwardedConcat(host, a[1..], b, env, forExec);
    }
  }

  lemma ForwardedNext(host: seq<string>, forwardEnv: seq<string>, i: nat, env: EnvMap, forExec: bool)
    requires i < |forwardEnv|
    ensures Forwarded(host, forwardEnv[..i + 1], env, forExec)
         == Forwarded(host, forwardEnv[..i], env, forExec) +
            if Forwards(host, forwardEnv[i], env, forExec) then [forwardEnv[i]] else []
  {
    hide Forwards;
    assert forwardEnv[..i + 1] == forwardEnv[..i] + [forwardEnv[i]];
    ForwardedConcat(host, forwardEnv[..i], [forwardEnv[i]], env, forExec);
    assert [forwardEnv[i]][1..] == [];
  }

  // Sorting before the empty settings are left out, or after.
  method EnvArgs(env: EnvMap) returns (args: seq<string>)
    ensures args == Flags(Sort(AgentEnv.Written(env, true)))
  {
    if |env| == 0 {
      assert AgentEnv.Written(env, true) == {};
      return [];
    }
    var keys := Sort(env.Keys);
    args := [];
    ghost var names: seq<string> := [];
    var kept := AgentEnv.Written(env, true);
    for i := 0 to |keys|
      invariant names == Filter(keys[..i], kept) && args == Flags(names)
    {
      assert keys[..i + 1] == keys[..i] + [keys[i]];
      FilterConcat(keys[..i], [keys[i]], kept);
      assert keys[i] in keys;
      if env[keys[i]] == "" {
        continue;
      }
      FlagsNext(names, keys[i]);
      names := names + [keys[i]];
      args := args + ["-e", keys[i]];
    }
    assert keys[..|keys|] == keys;
    FilterSorted(keys, kept);
    assert (set x | x in keys && x in kept) == kept;
  }

  lemma {:induction false} FilterConcat(a: seq<string>, b: seq<string>, keep: set<string>)
    ensures Filter(a + b, keep) == Filter(a, keep) + Filter(b, keep)
  {
    if a == [] {
      assert a + b == b;
    } else {
      assert (a + b)[1..] == a[1..] + b;
      FilterConcat(a[1..], b, keep);
    }
  }

  /** The environment flags of a docker run: names only, never a value. */
  method EnvFlags(host: seq<string>, forwardEnv: seq<string>, env: EnvMap, forExec: bool) returns (args: seq<string>)
    ensures args == Flags(EnvNames(host, forwardEnv, env, forExec))
  {
    hide Lookup, Sort, Forwarded, Flags, AgentEnv.Written;
    NoFlags(host, forwardEnv, env, forExec);
    args := [];
    ghost var names: seq<string> := [];
    for i := 0 to |forwardEnv|
      invariant names == Forwarded(host, forwardEnv[..i], env, forExec) && args == Flags(names)
    {
      var key := forwardEnv[i];
      ForwardedNext(host, forwardEnv, i, env, forExec);
      if key in env {
        continue;
      }
      if forExec && Lookup(host, key).None? {
        continue;
      }
      FlagsNext(names, key);
      names := names + [key];
      args := args + ["-e", key];
    }
    assert forwardEnv[..|forwardEnv|] == forwardEnv;
    var own := EnvArgs(env);
    FlagsConcat(names, Sort(AgentEnv.Written(env, true)));
    args := args + own;
  }

  // What a process in the container finds: docker passes on what its own environment holds for the named keys.
  function ContainerSees(names: seq<string>, dockerEnv: seq<string>, key: string): Option<string> {
    if key in names then Lookup(dockerEnv, key) else None
  }

  /**
    Flags and staged environment together: a setting reaches the container as given, an empty one hides the key even
    from forwarding, and any other key is the host's, if it is to be forwarded.
  */
  lemma {:induction false} SettingsReachTheContainer(host: seq<string>, forwardEnv: seq<string>, env: EnvMap,
                                                     out: seq<string>, key: string)
    requires Staged(host, env, out) && AgentEnv.Nameable(env, true) && key != ""
    ensures ContainerSees(EnvNames(host, forwardEnv, env, true), out, key)
         == if key in env then (if env[key] == "" then None else Some(env[key]))
            else if key in forwardEnv then Lookup(host, key)
            else None
  {
    StagedValues(host, env, out, key);
  }
}
