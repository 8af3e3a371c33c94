/**
 Precedence: of the list a child is given, the last occurrence of a name counts, and that is the
 inline value, else the last of the env files, else the node_path PATH, else what is inherited -
 provided no inline key smuggles in an assignment to the name.
 */
module EnvPrecedence {
  import opened Options
  import opened EnvFile
  import opened EnvFiles
  import opened EnvRoundTrip

  function Entry(name: string, value: string): string {
    name + "=" + value
  }

  predicate Sets(entry: string, name: string) {
    name + "=" <= entry
  }

  /** The last occurrence of a name. */
  function Lookup(env: seq<string>, name: string): Option<string> {
    if env == [] then None
    else if Sets(env[|env| - 1], name) then Some(env[|env| - 1][|name| + 1..])
    else Lookup(env[..|env| - 1], name)
  }

  function VarEntries(vars: seq<Var>): seq<string> {
    if vars == [] then [] else [Entry(vars[0].name, vars[0].value)] + VarEntries(vars[1..])
  }

  function InlineEntries(keys: seq<string>, inline: map<string, string>): seq<string>
    requires forall k :: k in keys ==> k in inline
  {
    if keys == [] then []
    else InlineEntries(keys[..|keys| - 1], inline) + [Entry(keys[|keys| - 1], inline[keys[|keys| - 1]])]
  }

  /** Bytewise order. */
  predicate Before(a: string, b: string) {
    b != "" && (a == "" || a[0] < b[0] || (a[0] == b[0] && Before(a[1..], b[1..])))
  }

  /** The keys of the inline map, sorted. */
  ghost predicate SortedKeys(keys: seq<string>, inline: map<string, string>) {
    && (forall k :: k in inline <==> k in keys)
    && (forall i, j :: 0 <= i < j < |keys| ==> Before(keys[i], keys[j]))
  }

  /** What the child gets. */
  function Assembled(inherited: seq<string>, path: Option<string>, vars: seq<Var>, keys: seq<string>,
                     inline: map<string, string>): seq<string>
    requires forall k :: k in keys ==> k in inline
  {
    inherited + (if path.Some? then [Entry("PATH", path.value)] else []) + VarEntries(vars) + InlineEntries(keys, inline)
  }

  method ChildEnv(inherited: seq<string>, path: Option<string>, vars: seq<Var>, keys: seq<string>, inline: map<string, string>)
    returns (env: seq<string>)
    requires forall k :: k in keys ==> k in inline
    ensures env == Assembled(inherited, path, vars, keys, inline)
  {
    env := inherited;
    if path.Some? {
      env := env + [Entry("PATH", path.value)];
    }
    ghost var base := env;
    assert vars[0..] == vars;
    for i := 0 to |vars|
      invariant env + VarEntries(vars[i..]) == base + VarEntries(vars)
    {
      assert vars[i..] != [] && vars[i..][0] == vars[i] && vars[i..][1..] == vars[i + 1..];
      var e := Entry(vars[i].name, vars[i].value);
      assert env + ([e] + VarEntries(vars[i + 1..])) == env + [e] + VarEntries(vars[i + 1..]);
      env := env + [e];
    }
    assert vars[|vars|..] == [] && env + [] == env;
    ghost var mid := env;
    for i := 0 to |keys|
      invariant env == mid + InlineEntries(keys[..i], inline)
    {
      assert keys[..i + 1][..i] == keys[..i];
      env := env + [Entry(keys[i], inline[keys[i]])];
    }
    assert keys[..|keys|] == keys;
  }

  /** What the documentation promises for a name, as a right-biased union of maps over what is inherited. */
  function Promised(inherited: seq<string>, path: Option<string>, vars: seq<Var>, inline: map<string, string>,
                    name: string): Option<string>
  {
    var m := (if path.Some? then map["PATH" := path.value] else map[]) + Meant(vars) + inline;
    if name in m then Some(m[name]) else Lookup(inherited, name)
  }

  lemma {:induction false} LookupInBoth(a: seq<string>, b: seq<string>, name: string)
    ensures Lookup(a + b, name) == if Lookup(b, name).Some? then Lookup(b, name) else Lookup(a, name)
    decreases |b|
  {
    if b == [] {
      assert a + b == a;
    } else {
      assert (a + b)[|a + b| - 1] == b[|b| - 1] && (a + b)[..|a + b| - 1] == a + b[..|b| - 1];
      LookupInBoth(a, b[..|b| - 1], name);
    }
  }

  /** An entry for a key without an equals sign sets that key and nothing else. */
  lemma EntrySets(key: string, value: string, name: string)
    requires '=' !in name && '=' !in key
    ensures Sets(Entry(key, value), name) <==> key == name
    ensures Entry(key, value)[|key| + 1..] == value
  {
    var e := Entry(key, value);
    assert e[..|key|] == key && e[|key|] == '=';
    if Sets(e, name) {
      assert e[..|name|] == name && e[|name|] == '=';
      IndexFound(e, '=', |key|);
      IndexFound(e, '=', |name|);
    }
  }

  lemma LookupOne(entry: string, name: string)
    ensures Lookup([entry], name) == if Sets(entry, name) then Some(entry[|name| + 1..]) else None
  {
    assert [entry][..0] == [];
  }

  lemma {:induction false} LookupVars(vars: seq<Var>, name: string)
    requires '=' !in name && forall i :: 0 <= i < |vars| ==> '=' !in vars[i].name
    ensures Lookup(VarEntries(vars), name) == if name in Meant(vars) then Some(Meant(vars)[name]) else None
    decreases |vars|
  {
    if vars != [] {
      var v := vars[0];
      LookupVars(vars[1..], name);
      EntrySets(v.name, v.value, name);
      LookupInBoth([Entry(v.name, v.value)], VarEntries(vars[1..]), name);
      LookupOne(Entry(v.name, v.value), name);
    }
  }

  /** No inline key is the name, an equals sign, and more. */
  predicate NoneSmuggles(keys: seq<string>, name: string) {
    forall i :: 0 <= i < |keys| ==> !(name + "=" <= keys[i])
  }

  lemma PrefixOfKey(e: string, key: string, name: string)
    requires key <= e && Sets(e, name) && |name| < |key|
    ensures name + "=" <= key
  {
    assert e[..|name| + 1] == key[..|name| + 1];
  }

  lemma EqualsInName(e: string, key: string, name: string)
    requires |key| < |name| <= |e| && name <= e && e[|key|] == '='
    ensures '=' in name
  {
    assert name[|key|] == e[|key|];
  }

  lemma KeySets(key: string, value: string, name: string)
    requires '=' !in name && !(name + "=" <= key)
    ensures Sets(Entry(key, value), name) <==> key == name
    ensures Entry(key, value)[|key| + 1..] == value
  {
    var e := Entry(key, value);
    assert e[..|key|] == key && e[|key|] == '=';
    if Sets(e, name) {
      assert e[..|name|] == name && e[|name|] == '=';
      if |name| < |key| {
        PrefixOfKey(e, key, name);
      } else if |key| < |name| {
        EqualsInName(e, key, name);
      }
    }
  }

  lemma {:induction false} LookupInline(keys: seq<string>, inline: map<string, string>, name: string)
    requires '=' !in name && NoneSmuggles(keys, name) && forall k :: k in keys ==> k in inline
    ensures Lookup(InlineEntries(keys, inline), name) == if name in keys then Some(inline[name]) else None
    decreases |keys|
  {
    if keys != [] {
      var front, k := keys[..|keys| - 1], keys[|keys| - 1];
      LookupInline(front, inline, name);
      KeySets(k, inline[k], name);
      LookupInBoth(InlineEntries(front, inline), [Entry(k, inline[k])], name);
      LookupOne(Entry(k, inline[k]), name);
      assert keys == front + [k];
    }
  }

  predicate FileNames(vars: seq<Var>) {
    forall i :: 0 <= i < |vars| ==> '=' !in vars[i].name
  }

  lemma AsPromised(inherited: seq<string>, path: Option<string>, vars: seq<Var>, keys: seq<string>,
                   inline: map<string, string>, name: string)
    requires '=' !in name && NoneSmuggles(keys, name) && SortedKeys(keys, inline) && FileNames(vars)
    ensures Lookup(Assembled(inherited, path, vars, keys, inline), name) == Promised(inherited, path, vars, inline, name)
  {
    var p := if path.Some? then [Entry("PATH", path.value)] else [];
    LookupInBoth(inherited + p + VarEntries(vars), InlineEntries(keys, inline), name);
    LookupInBoth(inherited + p, VarEntries(vars), name);
    LookupInBoth(inherited, p, name);
    LookupInline(keys, inline, name);
    LookupVars(vars, name);
    if path.Some? {
      EntrySets("PATH", path.value, name);
      LookupOne(Entry("PATH", path.value), name);
    }
  }

  /** The promise for a name, whatever the values and whatever is inherited. */
  ghost predicate AlwaysAsPromised(keys: seq<string>, name: string) {
    forall inherited: seq<string>, path: Option<string>, vars: seq<Var>, inline: map<string, string> ::
      SortedKeys(keys, inline) && FileNames(vars) ==>
        Lookup(Assembled(inherited, path, vars, keys, inline), name) == Promised(inherited, path, vars, inline, name)
  }

  lemma {:induction false} PrefixFirst(name: string, key: string)
    requires name <= key
    ensures !Before(key, name)
    decreases |name|
  {
    if name != "" {
      assert name[0] == key[0] && name[1..] <= key[1..];
      PrefixFirst(name[1..], key[1..]);
    }
  }

  /** With every value empty, a smuggled assignment to a name is the last, and is not empty. */
  lemma {:induction false} SmuggledIsLast(keys: seq<string>, inline: map<string, string>, name: string)
    requires forall k :: k in keys ==> k in inline && inline[k] == ""
    requires forall i, j :: 0 <= i < j < |keys| ==> Before(keys[i], keys[j])
    requires '=' !in name && !NoneSmuggles(keys, name)
    ensures Lookup(InlineEntries(keys, inline), name).Some? && Lookup(InlineEntries(keys, inline), name) != Some("")
    decreases |keys|
  {
    var front, k := keys[..|keys| - 1], keys[|keys| - 1];
    var e := Entry(k, inline[k]);
    LookupInBoth(InlineEntries(front, inline), [e], name);
    LookupOne(e, name);
    assert e == k + "=";
    if name + "=" <= k {
      assert e[..|name| + 1] == name + "=";
      assert |e[|name| + 1..]| > 0;
    } else {
      var i :| 0 <= i < |keys| && name + "=" <= keys[i];
      assert front[i] == keys[i];
      assert keys[i][..|name|] == name;
      PrefixFirst(name, keys[i]);
      SmuggledIsLast(front, inline, name);
      if Sets(e, name) {
        KeySets(k, "", name);
      }
    }
  }

  /** For a name: the promise holds for all values exactly when no inline key begins with the name and an equals sign. */
  lemma PrecedenceExactly(keys: seq<string>, name: string)
    requires '=' !in name && forall i, j :: 0 <= i < j < |keys| ==> Before(keys[i], keys[j])
    ensures AlwaysAsPromised(keys, name) <==> NoneSmuggles(keys, name)
  {
    if NoneSmuggles(keys, name) {
      forall inherited: seq<string>, path: Option<string>, vars: seq<Var>, inline: map<string, string>
        | SortedKeys(keys, inline) && FileNames(vars)
        ensures Lookup(Assembled(inherited, path, vars, keys, inline), name) == Promised(inherited, path, vars, inline, name)
      {
        AsPromised(inherited, path, vars, keys, inline, name);
      }
    } else {
      var inline := map k | k in keys :: "";
      assert SortedKeys(keys, inline) && FileNames([]);
      SmuggledIsLast(keys, inline, name);
      assert Assembled([], None, [], keys, inline) == InlineEntries(keys, inline);
      assert Promised([], None, [], inline, name) == if name in inline then Some("") else None;
    }
  }

  /** One inline key that does: env with the single key A=B, looked up under A. */
  lemma SmugglingBreaksThePromise()
    ensures var keys, inline := ["A=B"], map["A=B" := "c"];
      && SortedKeys(keys, inline)
      && Lookup(Assembled([], None, [], keys, inline), "A") == Some("B=c")
      && Promised([], None, [], inline, "A") == None
  {
    var keys, inline := ["A=B"], map["A=B" := "c"];
    assert keys[..0] == [] && InlineEntries([], inline) == [];
    assert InlineEntries(keys, inline) == InlineEntries(keys[..0], inline) + [Entry("A=B", "c")];
    assert Entry("A=B", "c") == "A=B=c";
    assert Assembled([], None, [], keys, inline) == ["A=B=c"];
    LookupOne("A=B=c", "A");
    assert "A=B=c"[..2] == "A" + "=" && "A=B=c"[2..] == "B=c";
  }

  /**
   From the files to the child: with the variables Load gives, the child's value of a name is what the
   right-biased union of all definitions, in the order of the files, and the inline map says.
   */
  lemma ChildGetsWhatIsMeant(inherited: seq<string>, path: Option<string>, refs: seq<Ref>, keys: seq<string>,
                             inline: map<string, string>, name: string)
    requires '=' !in name && NoneSmuggles(keys, name) && SortedKeys(keys, inline) && AllDefinitions(refs, 0).Loaded?
    ensures var defs := AllDefinitions(refs, 0).vars;
      Lookup(Assembled(inherited, path, LastOfEach(defs), keys, inline), name) == Promised(inherited, path, defs, inline, name)
  {
    var defs := AllDefinitions(refs, 0).vars;
    LoadedAreIdentifiers(refs, 0);
    LastsAreIdentifiers(defs);
    LastsMeanTheSame(defs);
    forall i | 0 <= i < |LastOfEach(defs)|
      ensures '=' !in LastOfEach(defs)[i].name
    {
      NameAlone(LastOfEach(defs)[i].name);
    }
    AsPromised(inherited, path, LastOfEach(defs), keys, inline, name);
  }
}
