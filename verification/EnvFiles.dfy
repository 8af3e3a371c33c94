/**
 Env files merged in order: one entry per name, the last definition in the last file winning, where
 it stands.
 */
module EnvFiles {
  import opened Options
  import opened EnvFile
  import opened EnvRoundTrip

  // ---- One entry per name ----

  predicate Defines(defs: seq<Var>, name: string) {
    exists i :: 0 <= i < |defs| && defs[i].name == name
  }

  /** Each name's last definition, where it stands; no reference to how a list gets that way. */
  function LastOfEach(defs: seq<Var>): seq<Var> {
    if defs == [] then []
    else if Defines(defs[1..], defs[0].name) then LastOfEach(defs[1..])
    else [defs[0]] + LastOfEach(defs[1..])
  }

  lemma DefinesCons(v: Var, rest: seq<Var>, name: string)
    ensures Defines([v] + rest, name) <==> v.name == name || Defines(rest, name)
  {
    if i :| 0 <= i < |rest| && rest[i].name == name {
      assert ([v] + rest)[i + 1] == rest[i];
    }
    if v.name == name {
      assert ([v] + rest)[0] == v;
    }
  }

  lemma {:induction false} LastOfEachNames(defs: seq<Var>, name: string)
    ensures Defines(LastOfEach(defs), name) <==> Defines(defs, name)
    decreases |defs|
  {
    if defs != [] {
      var rest := LastOfEach(defs[1..]);
      LastOfEachNames(defs[1..], name);
      LastOfEachNames(defs[1..], defs[0].name);
      DefinesCons(defs[0], defs[1..], name);
      assert [defs[0]] + defs[1..] == defs;
      DefinesCons(defs[0], rest, name);
    }
  }

  lemma {:induction false} LastOfEachDistinct(defs: seq<Var>)
    ensures DistinctNames(LastOfEach(defs))
    decreases |defs|
  {
    if defs != [] {
      var v, rest := defs[0], LastOfEach(defs[1..]);
      LastOfEachDistinct(defs[1..]);
      LastOfEachNames(defs[1..], v.name);
      assert !Defines(defs[1..], v.name) ==> forall i :: 0 <= i < |rest| ==> rest[i].name != v.name;
    }
  }

  lemma {:induction false} NoneToDrop(vars: seq<Var>, name: string)
    requires !Defines(vars, name)
    ensures Without(vars, name) == vars
  {
    WithoutFrom(vars, name, |vars|);
  }

  lemma DefinesSnoc(rest: seq<Var>, v: Var, name: string)
    ensures Defines(rest + [v], name) <==> Defines(rest, name) || v.name == name
  {
    if i :| 0 <= i < |rest| && rest[i].name == name {
      assert (rest + [v])[i] == rest[i];
    }
    if v.name == name {
      assert (rest + [v])[|rest|] == v;
    }
  }

  /** A further definition at the end: it takes the place of the one before. */
  lemma {:induction false} LastOfEachSnoc(defs: seq<Var>, v: Var)
    ensures LastOfEach(defs + [v]) == Without(LastOfEach(defs), v.name) + [v]
    decreases |defs|
  {
    if defs == [] {
      assert [] + [v] == [v] && [v][1..] == [];
      assert !Defines([], v.name);
    } else {
      var d, rest := defs[0], defs[1..];
      assert (defs + [v])[0] == d && (defs + [v])[1..] == rest + [v];
      LastOfEachSnoc(rest, v);
      DefinesSnoc(rest, v, d.name);
      LastOfEachNames(rest, d.name);
      if d.name == v.name {
        if !Defines(rest, d.name) {
          NoneToDrop(LastOfEach(rest), v.name);
          assert ([d] + LastOfEach(rest))[1..] == LastOfEach(rest);
        }
      } else if !Defines(rest, d.name) {
        assert ([d] + LastOfEach(rest))[1..] == LastOfEach(rest);
        assert [d] + (Without(LastOfEach(rest), v.name) + [v]) == [d] + Without(LastOfEach(rest), v.name) + [v];
      }
    }
  }

  /** Overriding one by one keeps each name's last definition, at its last position. */
  lemma {:induction false} OverridingKeepsTheLast(defs: seq<Var>)
    ensures OverriddenBy([], defs) == LastOfEach(defs) && DistinctNames(OverriddenBy([], defs))
    decreases |defs|
  {
    LastOfEachDistinct(defs);
    if defs != [] {
      var front, v := defs[..|defs| - 1], defs[|defs| - 1];
      assert defs == front + [v];
      OverridingKeepsTheLast(front);
      OneMore(OverriddenBy([], front), front, v);
      LastOfEachSnoc(front, v);
    }
  }

  // ---- Several files ----

  datatype File = Missing | Unreadable | Contents(data: string)

  datatype Ref = Ref(optional: bool, file: File)

  datatype Loaded = Loaded(vars: seq<Var>) | NotRead(ref: nat) | BadLine(ref: nat, line: nat, fault: Fault)

  function After(before: seq<Var>, l: Loaded): Loaded {
    if l.Loaded? then Loaded(before + l.vars) else l
  }

  /** All definitions of all files in order, or the first file that cannot be used. */
  function AllDefinitions(refs: seq<Ref>, first: nat): Loaded
    decreases |refs|
  {
    if refs == [] then Loaded([])
    else
      match refs[0].file
      case Missing => if refs[0].optional then AllDefinitions(refs[1..], first + 1) else NotRead(first)
      case Unreadable => NotRead(first)
      case Contents(data) =>
        match Definitions(Lines(WithoutPrefix(data, BOM)), 1)
        case Malformed(n, f) => BadLine(first, n, f)
        case Parsed(defs) => After(defs, AllDefinitions(refs[1..], first + 1))
  }

  lemma {:induction false} DistinctAreLast(vars: seq<Var>)
    requires DistinctNames(vars)
    ensures LastOfEach(vars) == vars
    decreases |vars|
  {
    if vars != [] {
      assert forall i :: 0 <= i < |vars| - 1 ==> vars[1..][i] == vars[i + 1];
      assert !Defines(vars[1..], vars[0].name);
      DistinctAreLast(vars[1..]);
      assert [vars[0]] + vars[1..] == vars;
    }
  }

  lemma {:induction false} LastsOfLasts(a: seq<Var>, defs: seq<Var>)
    ensures LastOfEach(a + LastOfEach(defs)) == LastOfEach(a + defs)
    decreases |a|
  {
    if a == [] {
      assert [] + LastOfEach(defs) == LastOfEach(defs) && [] + defs == defs;
      LastOfEachDistinct(defs);
      DistinctAreLast(LastOfEach(defs));
    } else {
      assert (a + LastOfEach(defs))[1..] == a[1..] + LastOfEach(defs) && (a + defs)[1..] == a[1..] + defs;
      LastsOfLasts(a[1..], defs);
      LastOfEachNames(a[1..] + LastOfEach(defs), a[0].name);
      LastOfEachNames(a[1..] + defs, a[0].name);
    }
  }

  /** Adding a file's variables to those of the files before it. */
  lemma NextFile(vars: seq<Var>, before: seq<Var>, defs: seq<Var>)
    requires vars == OverriddenBy([], before)
    ensures OverriddenBy(vars, OverriddenBy([], defs)) == OverriddenBy([], before + defs)
  {
    OverriddenByMore([], before, OverriddenBy([], defs));
    OverridingKeepsTheLast(before + OverriddenBy([], defs));
    OverridingKeepsTheLast(defs);
    LastsOfLasts(before, defs);
    OverridingKeepsTheLast(before + defs);
  }

  method OverrideAll(vars: seq<Var>, more: seq<Var>) returns (now: seq<Var>)
    ensures now == OverriddenBy(vars, more)
  {
    now := vars;
    assert more[0..] == more;
    for i := 0 to |more|
      invariant OverriddenBy(now, more[i..]) == OverriddenBy(vars, more)
    {
      assert more[i..] != [] && more[i..][0] == more[i] && more[i..][1..] == more[i + 1..];
      now := Override(now, more[i]);
    }
    assert more[|more|..] == [];
  }

  lemma NothingLoaded(refs: seq<Ref>)
    ensures OverriddenBy([], []) == [] && AllDefinitions(refs, 0) == After([], AllDefinitions(refs[0..], 0))
  {
    assert refs[0..] == refs;
    if AllDefinitions(refs, 0).Loaded? {
      assert [] + AllDefinitions(refs, 0).vars == AllDefinitions(refs, 0).vars;
    }
  }

  lemma AllLoaded(refs: seq<Ref>, defs: seq<Var>)
    ensures After(defs, AllDefinitions(refs[|refs|..], |refs|)) == Loaded(defs)
  {
    assert defs + [] == defs;
  }

  lemma AfterAfter(a: seq<Var>, b: seq<Var>, l: Loaded)
    ensures After(a, After(b, l)) == After(a + b, l)
  {
    if l.Loaded? {
      assert a + (b + l.vars) == a + b + l.vars;
    }
  }

  /** A later file beats an earlier one, and a missing file counts only where it is required. */
  method Load(refs: seq<Ref>) returns (r: Loaded)
    ensures var all := AllDefinitions(refs, 0);
      r == if all.Loaded? then Loaded(LastOfEach(all.vars)) else all
  {
    hide Definitions, Lines, OverriddenBy, LastOfEach;
    var vars: seq<Var> := [];
    ghost var defs: seq<Var> := [];
    NothingLoaded(refs);
    for i := 0 to |refs|
      invariant vars == OverriddenBy([], defs)
      invariant AllDefinitions(refs, 0) == After(defs, AllDefinitions(refs[i..], i))
    {
      assert refs[i..] != [] && refs[i..][0] == refs[i] && refs[i..][1..] == refs[i + 1..];
      if refs[i].file == Unreadable || (refs[i].file == Missing && !refs[i].optional) {
        return NotRead(i);
      }
      if refs[i].file == Missing {
        continue;
      }
      var parsed := Parse(refs[i].file.data);
      if parsed.Malformed? {
        return BadLine(i, parsed.line, parsed.fault);
      }
      ghost var more := Definitions(Lines(WithoutPrefix(refs[i].file.data, BOM)), 1).vars;
      NextFile(vars, defs, more);
      AfterAfter(defs, more, AllDefinitions(refs[i + 1..], i + 1));
      vars := OverrideAll(vars, parsed.vars);
      defs := defs + more;
    }
    OverridingKeepsTheLast(defs);
    AllLoaded(refs, defs);
    r := Loaded(vars);
  }

  // ---- What every loaded variable is ----

  predicate Identifiers(vars: seq<Var>) {
    forall i :: 0 <= i < |vars| ==> IsIdentifier(vars[i].name)
  }

  lemma {:induction false} DefinitionsAreIdentifiers(lines: seq<string>, first: nat)
    ensures Definitions(lines, first).Parsed? ==> Identifiers(Definitions(lines, first).vars)
    decreases |lines|
  {
    if lines != [] {
      DefinitionsAreIdentifiers(lines[1..], first + 1);
    }
  }

  lemma {:induction false} LoadedAreIdentifiers(refs: seq<Ref>, first: nat)
    ensures AllDefinitions(refs, first).Loaded? ==> Identifiers(AllDefinitions(refs, first).vars)
    decreases |refs|
  {
    if refs != [] {
      LoadedAreIdentifiers(refs[1..], first + 1);
      if refs[0].file.Contents? {
        DefinitionsAreIdentifiers(Lines(WithoutPrefix(refs[0].file.data, BOM)), 1);
      }
    }
  }

  lemma {:induction false} LastsAreIdentifiers(defs: seq<Var>)
    requires Identifiers(defs)
    ensures Identifiers(LastOfEach(defs))
    decreases |defs|
  {
    if defs != [] {
      LastsAreIdentifiers(defs[1..]);
    }
  }

  /** The definitions as a map, the right-biased union of them all. */
  function Meant(vars: seq<Var>): map<string, string> {
    if vars == [] then map[] else map[vars[0].name := vars[0].value] + Meant(vars[1..])
  }

  lemma {:induction false} MeantNames(vars: seq<Var>, name: string)
    ensures name in Meant(vars) <==> Defines(vars, name)
    decreases |vars|
  {
    if vars != [] {
      MeantNames(vars[1..], name);
      assert [vars[0]] + vars[1..] == vars;
      DefinesCons(vars[0], vars[1..], name);
    }
  }

  /** Keeping only each name's last definition changes nothing about what is meant. */
  lemma {:induction false} LastsMeanTheSame(defs: seq<Var>)
    ensures Meant(LastOfEach(defs)) == Meant(defs)
    decreases |defs|
  {
    if defs != [] {
      LastsMeanTheSame(defs[1..]);
      if Defines(defs[1..], defs[0].name) {
        MeantNames(defs[1..], defs[0].name);
        assert map[defs[0].name := defs[0].value] + Meant(defs[1..]) == Meant(defs[1..]);
      } else {
        assert ([defs[0]] + LastOfEach(defs[1..]))[1..] == LastOfEach(defs[1..]);
      }
    }
  }

  // ---- What is loaded, file by file ----

  /** It can be read and has no malformed line, or need not be there and is not. */
  predicate IsUsable(r: Ref) {
    match r.file
    case Missing => r.optional
    case Unreadable => false
    case Contents(data) => FileVars(data).Parsed?
  }

  /** What is reported of a file that is not usable. */
  predicate Complains(l: Loaded, r: Ref, at: nat) {
    if r.file.Contents? && FileVars(r.file.data).Malformed? then
      l == BadLine(at, FileVars(r.file.data).line, FileVars(r.file.data).fault)
    else l == NotRead(at)
  }

  /** All files are loaded exactly if each is usable; else the first that is not is reported. */
  lemma {:induction false} LoadedExactly(refs: seq<Ref>, first: nat)
    ensures AllDefinitions(refs, first).Loaded? <==> forall i :: 0 <= i < |refs| ==> IsUsable(refs[i])
    ensures forall i :: 0 <= i < |refs| && !IsUsable(refs[i]) && (forall j :: 0 <= j < i ==> IsUsable(refs[j])) ==>
      Complains(AllDefinitions(refs, first), refs[i], first + i)
    decreases |refs|
  {
    hide Definitions, Lines, OverriddenBy;
    if refs != [] {
      var rest := refs[1..];
      LoadedExactly(rest, first + 1);
      assert forall i :: 0 < i < |refs| ==> refs[i] == rest[i - 1];
      if IsUsable(refs[0]) {
        forall i | 0 <= i < |refs| && !IsUsable(refs[i]) && (forall j :: 0 <= j < i ==> IsUsable(refs[j]))
          ensures Complains(AllDefinitions(refs, first), refs[i], first + i)
        {
          assert forall j :: 0 <= j < i - 1 ==> rest[j] == refs[j + 1];
          assert Complains(AllDefinitions(rest, first + 1), rest[i - 1], first + 1 + (i - 1));
        }
      }
    }
  }

  lemma MeantCons(v: Var, rest: seq<Var>)
    ensures Meant([v] + rest) == map[v.name := v.value] + Meant(rest)
  {
    assert ([v] + rest)[1..] == rest;
  }

  lemma UnionsJoin(a: map<string, string>, b: map<string, string>, c: map<string, string>)
    ensures a + (b + c) == a + b + c
  {
  }

  lemma {:induction false} MeantBoth(a: seq<Var>, b: seq<Var>)
    ensures Meant(a + b) == Meant(a) + Meant(b)
    decreases |a|
  {
    if a == [] {
      assert [] + b == b;
      assert Meant(a) == map[];
    } else {
      hide Meant;
      var v, rest := a[0], a[1..];
      MeantBoth(rest, b);
      assert a == [v] + rest && a + b == [v] + (rest + b);
      MeantCons(v, rest);
      MeantCons(v, rest + b);
      UnionsJoin(map[v.name := v.value], Meant(rest), Meant(b));
    }
  }

  /** What a file means is the same before and after its own repetitions are dropped. */
  lemma FileMeans(data: string)
    requires FileVars(data).Parsed?
    ensures Definitions(Lines(WithoutPrefix(data, BOM)), 1).Parsed?
    ensures Meant(Definitions(Lines(WithoutPrefix(data, BOM)), 1).vars) == Meant(FileVars(data).vars)
  {
    var defs := Definitions(Lines(WithoutPrefix(data, BOM)), 1).vars;
    OverridingKeepsTheLast(defs);
    LastsMeanTheSame(defs);
  }

  /** What one of the files says of a name, if it says anything. */
  function SaidIn(r: Ref, name: string): Option<string> {
    if r.file.Contents? && FileVars(r.file.data).Parsed? && name in Meant(FileVars(r.file.data).vars)
    then Some(Meant(FileVars(r.file.data).vars)[name])
    else None
  }

  lemma {:induction false} SaidByNone(refs: seq<Ref>, first: nat, name: string)
    requires AllDefinitions(refs, first).Loaded? && forall j :: 0 <= j < |refs| ==> SaidIn(refs[j], name) == None
    ensures name !in Meant(AllDefinitions(refs, first).vars)
    decreases |refs|
  {
    hide Definitions, Lines, FileVars;
    if refs != [] {
      var rest := refs[1..];
      assert forall j :: 0 <= j < |rest| ==> rest[j] == refs[j + 1];
      LoadedExactly(refs, first);
      assert IsUsable(refs[0]);
      SaidByNone(rest, first + 1, name);
      if refs[0].file.Contents? {
        FileMeans(refs[0].file.data);
        MeantBoth(Definitions(Lines(WithoutPrefix(refs[0].file.data, BOM)), 1).vars, AllDefinitions(rest, first + 1).vars);
      }
    }
  }

  lemma {:induction false} SaidByTheLast(refs: seq<Ref>, first: nat, name: string, i: nat)
    requires AllDefinitions(refs, first).Loaded? && i < |refs| && SaidIn(refs[i], name).Some?
    requires forall j :: i < j < |refs| ==> SaidIn(refs[j], name) == None
    ensures var m := Meant(AllDefinitions(refs, first).vars); name in m && m[name] == SaidIn(refs[i], name).value
    decreases |refs|
  {
    hide Definitions, Lines, FileVars;
    var rest := refs[1..];
    assert forall j :: 0 <= j < |rest| ==> rest[j] == refs[j + 1];
    LoadedExactly(refs, first);
    assert IsUsable(refs[0]);
    if refs[0].file.Contents? {
      FileMeans(refs[0].file.data);
      MeantBoth(Definitions(Lines(WithoutPrefix(refs[0].file.data, BOM)), 1).vars, AllDefinitions(rest, first + 1).vars);
    }
    if i == 0 {
      SaidByNone(rest, first + 1, name);
    } else {
      SaidByTheLast(rest, first + 1, name, i - 1);
    }
  }

  /** The value of a name is what the last of the files that define it says. */
  lemma {:induction false} LastFileWins(refs: seq<Ref>, first: nat, name: string, i: nat)
    requires AllDefinitions(refs, first).Loaded? && i < |refs| && SaidIn(refs[i], name).Some?
    requires forall j :: i < j < |refs| ==> SaidIn(refs[j], name) == None
    ensures var m := Meant(LastOfEach(AllDefinitions(refs, first).vars)); name in m && m[name] == SaidIn(refs[i], name).value
    decreases |refs|
  {
    LastsMeanTheSame(AllDefinitions(refs, first).vars);
    SaidByTheLast(refs, first, name, i);
  }
}
