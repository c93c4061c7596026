/** A process environment as Go keeps it: a list of key=value strings, and what such a list says of a key. */
module EnvEntries {
  import opened Common
  import opened GoStrings
  import opened SortedNames

  type EnvMap = map<string, string>

  // What stands before the first '=', if there is one.
  function Key(entry: string): Option<string> {
    var i := IndexByte(entry, '=');
    if i == |entry| then None else Some(entry[..i])
  }

  // The values the list gives to a key, in order.
  function Values(env: seq<string>, key: string): seq<string> {
    if env == [] then []
    else (if Key(env[0]) == Some(key) then [env[0][|key| + 1..]] else []) + Values(env[1..], key)
  }

  // What a process started with the list finds: os/exec lets the last entry of a key win.
  function Lookup(env: seq<string>, key: string): Option<string> {
    var values := Values(env, key);
    if values == [] then None else Some(values[|values| - 1])
  }

  // The entries left when those of some keys go; an entry without '=' has no key and stays.
  function Kept(env: seq<string>, drop: set<string>): seq<string> {
    if env == [] then []
    else
      var key := Key(env[0]);
      (if key.Some? && key.value in drop then [] else [env[0]]) + Kept(env[1..], drop)
  }

  function Entries(keys: seq<string>, m: EnvMap): (r: seq<string>)
    requires forall k <- keys :: k in m
  {
    if keys == [] then [] else [keys[0] + "=" + m[keys[0]]] + Entries(keys[1..], m)
  }

  function AsSet(keys: seq<string>): set<string> { set k <- keys }

  lemma {:induction false} AsSetAppend(keys: seq<string>, k: string)
    ensures AsSet(keys + [k]) == AsSet(keys) + {k}
  {
  }

  ghost predicate Distinct(keys: seq<string>) {
    forall i, j | 0 <= i < j < |keys| :: keys[i] != keys[j]
  }

  lemma {:induction false} ValuesConcat(a: seq<string>, b: seq<string>, key: string)
    ensures Values(a + b, key) == Values(a, key) + Values(b, key)
  {
    hide Key;
    if a == [] {
      assert a + b == b;
    } else {
      assert (a + b)[1..] == a[1..] + b;
      ValuesConcat(a[1..], b, key);
    }
  }

  lemma {:induction false} KeptConcat(a: seq<string>, b: seq<string>, drop: set<string>)
    ensures Kept(a + b, drop) == Kept(a, drop) + Kept(b, drop)
  {
    hide Key;
    if a == [] {
      assert a + b == b;
    } else {
      assert (a + b)[1..] == a[1..] + b;
      KeptConcat(a[1..], b, drop);
    }
  }

  // One more entry of a list that is gone through from the left.
  lemma KeptNext(env: seq<string>, i: nat, drop: set<string>)
    requires i < |env|
    ensures Kept(env[..i + 1], drop)
         == Kept(env[..i], drop) + if Key(env[i]).Some? && Key(env[i]).value in drop then [] else [env[i]]
  {
    assert env[..i + 1] == env[..i] + [env[i]];
    KeptConcat(env[..i], [env[i]], drop);
  }

  lemma {:induction false} KeptAll(env: seq<string>)
    ensures Kept(env, {}) == env
  {
    if env != [] {
      KeptAll(env[1..]);
      assert env == [env[0]] + env[1..];
    }
  }

  /** Dropping keys takes their values and no others. */
  lemma {:induction false} KeptValues(env: seq<string>, drop: set<string>, key: string)
    ensures Values(Kept(env, drop), key) == if key in drop then [] else Values(env, key)
  {
    if env != [] {
      KeptValues(env[1..], drop, key);
      var head := if Key(env[0]).Some? && Key(env[0]).value in drop then [] else [env[0]];
      ValuesConcat(head, Kept(env[1..], drop), key);
      if head != [] {
        assert head[1..] == [];
      }
    }
  }

  lemma {:induction false} FirstIndex(s: string, c: char, n: nat)
    requires n < |s| && s[n] == c && c !in s[..n]
    ensures IndexByte(s, c) == n
  {
    if n > 0 {
      assert s[..n][0] == s[0];
      assert s[..n] == [s[0]] + s[1..][..n - 1];
      FirstIndex(s[1..], c, n - 1);
    }
  }

  lemma {:induction false} EntryReads(key: string, value: string)
    requires '=' !in key
    ensures Key(key + "=" + value) == Some(key) && (key + "=" + value)[|key| + 1..] == value
  {
    var e := key + "=" + value;
    assert e[|key|] == '=' && e[..|key|] == key;
    FirstIndex(e, '=', |key|);
  }

  /** A key holds no '=': entries never give a value to one that does. */
  lemma {:induction false} OddKeyHasNoValues(env: seq<string>, key: string)
    requires '=' in key
    ensures Values(env, key) == []
  {
    if env != [] {
      OddKeyHasNoValues(env[1..], key);
      var i := IndexByte(env[0], '=');
      assert '=' !in env[0][..i];
    }
  }

  lemma {:induction false} OneEntryValues(key: string, value: string, rest: seq<string>, other: string)
    requires '=' !in key
    ensures Values([key + "=" + value] + rest, other) == (if other == key then [value] else []) + Values(rest, other)
  {
    var env := [key + "=" + value] + rest;
    EntryReads(key, value);
    assert env[0] == key + "=" + value && env[1..] == rest;
  }

  /** Entries written from a map read back as the map, each key once. */
  lemma {:induction false} EntriesValues(keys: seq<string>, m: EnvMap, key: string)
    requires Distinct(keys)
    requires forall k <- keys :: k in m && '=' !in k
    ensures Values(Entries(keys, m), key) == if key in keys then [m[key]] else []
  {
    if keys != [] {
      hide Values, Key, Distinct;
      assert keys[0] in keys;
      FirstIsDistinct(keys);
      OneEntryValues(keys[0], m[keys[0]], Entries(keys[1..], m), key);
      EntriesValues(keys[1..], m, key);
    }
  }

  lemma FirstIsDistinct(keys: seq<string>)
    requires Distinct(keys) && keys != []
    ensures Distinct(keys[1..]) && keys[0] !in keys[1..]
    ensures forall k :: k in keys <==> k == keys[0] || k in keys[1..]
  {
    assert keys == [keys[0]] + keys[1..];
  }

  lemma {:induction false} AscendingDistinct(keys: seq<string>)
    requires Ascending(keys)
    ensures Distinct(keys)
  {
    forall i, j | 0 <= i < j < |keys| ensures keys[i] != keys[j] {
      LessAsymmetric(keys[i], keys[j]);
    }
  }

  lemma {:induction false} EntriesConcat(a: seq<string>, b: seq<string>, m: EnvMap)
    requires forall k <- a + b :: k in m
    ensures forall k <- a :: k in m
    ensures forall k <- b :: k in m
    ensures Entries(a + b, m) == Entries(a, m) + Entries(b, m)
  {
    assert forall k <- a :: k in a + b;
    assert forall k <- b :: k in a + b;
    if a == [] {
      assert a + b == b;
    } else {
      assert (a + b)[1..] == a[1..] + b;
      EntriesConcat(a[1..], b, m);
    }
  }

  lemma EntriesNext(keys: seq<string>, k: string, m: EnvMap)
    requires k in m && forall x <- keys :: x in m
    ensures Entries(keys + [k], m) == Entries(keys, m) + [k + "=" + m[k]]
  {
    EntriesConcat(keys, [k], m);
  }

  /** Dropping more keys leaves nothing of an earlier dropping to be seen. */
  lemma {:induction false} KeptAgain(env: seq<string>, fewer: set<string>, drop: set<string>)
    requires fewer <= drop
    ensures Kept(Kept(env, fewer), drop) == Kept(env, drop)
  {
    if env != [] {
      KeptAgain(env[1..], fewer, drop);
      var head := if Key(env[0]).Some? && Key(env[0]).value in fewer then [] else [env[0]];
      KeptConcat(head, Kept(env[1..], fewer), drop);
      if head != [] {
        assert head[1..] == [];
      }
    }
  }

  lemma {:induction false} EntriesDropped(keys: seq<string>, m: EnvMap, drop: set<string>)
    requires forall k <- keys :: k in m && k in drop && '=' !in k
    ensures Kept(Entries(keys, m), drop) == []
  {
    if keys != [] {
      assert keys[0] in keys;
      EntryReads(keys[0], m[keys[0]]);
      assert Entries(keys, m)[1..] == Entries(keys[1..], m);
      EntriesDropped(keys[1..], m, drop);
    }
  }

  /** The last entry of a key is the one that counts. */
  lemma LastEntryWins(before: seq<string>, key: string, value: string, after: seq<string>)
    requires '=' !in key && forall e | e in after :: !(key + "=" <= e)
    ensures Lookup(before + [key + "=" + value] + after, key) == Some(value)
  {
    var e := key + "=" + value;
    EntryOf(key, value);
    NoEntry(after, key);
    ValuesConcat(before + [e], after, key);
    ValuesConcat(before, [e], key);
    var one: seq<string> := [e];
    assert |one[1..]| == 0 && e[|key| + 1..] == value;
    assert Values([e], key) == [value];
  }

  lemma EntryOf(key: string, value: string)
    requires '=' !in key
    ensures Key(key + "=" + value) == Some(key)
  {
    var e := key + "=" + value;
    assert e[..|key|] == key;
    FirstAt(e, '=', |key|);
  }

  lemma {:induction false} FirstAt(s: string, c: char, n: nat)
    requires n < |s| && s[n] == c && c !in s[..n]
    ensures IndexByte(s, c) == n
  {
    if n > 0 {
      assert s[..n][0] == s[0] && s[..n][1..] == s[1..][..n - 1];
      FirstAt(s[1..], c, n - 1);
    }
  }

  lemma KeyStarts(e: string, key: string)
    ensures Key(e) == Some(key) ==> key + "=" <= e
  {
    if Key(e) == Some(key) { assert e[..|key| + 1] == key + "="; }
  }

  lemma {:induction false} NoEntry(env: seq<string>, key: string)
    requires forall e | e in env :: !(key + "=" <= e)
    ensures Values(env, key) == []
  {
    if env != [] {
      var e := env[0];
      assert e in env && forall x | x in env[1..] :: x in env;
      KeyStarts(e, key);
      NoEntry(env[1..], key);
    }
  }
}
