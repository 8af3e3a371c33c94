/**
 What a file of quoted assignments says is what was written: parsing undoes printing, for every value
 and every list of distinct identifiers.
 */
module EnvRoundTrip {
  import opened Options
  import opened EnvFile

  function EscapedChar(c: char): string {
    match c
    case '\n' => "\\n"
    case '"' => "\\\""
    case '\\' => "\\\\"
    case _ => [c]
  }

  function Escaped(value: string): string {
    if value == "" then "" else EscapedChar(value[0]) + Escaped(value[1..])
  }

  function Quoted(v: Var): string {
    v.name + "=\"" + Escaped(v.value) + "\""
  }

  /** The lines of the variables, one newline between each two. */
  function Printed(vars: seq<Var>): string {
    if vars == [] then ""
    else if |vars| == 1 then Quoted(vars[0])
    else Quoted(vars[0]) + "\n" + Printed(vars[1..])
  }

  predicate DistinctNames(vars: seq<Var>) {
    forall i, j :: 0 <= i < j < |vars| ==> vars[i].name != vars[j].name
  }

  predicate Printable(vars: seq<Var>) {
    DistinctNames(vars) && forall i :: 0 <= i < |vars| ==> IsIdentifier(vars[i].name)
  }

  // ---- Values ----

  lemma {:induction false} Unquotes(value: string)
    ensures DoubleQuoted(Escaped(value) + "\"") == Ok(value)
    decreases |value|
  {
    if value == "" {
      assert Escaped(value) + "\"" == "\"";
      assert TrimSpace("\""[1..]) == "";
    } else {
      var rest, e := Escaped(value[1..]) + "\"", EscapedChar(value[0]);
      Unquotes(value[1..]);
      assert Escaped(value) + "\"" == e + rest;
      assert [value[0]] + value[1..] == value;
      if |e| == 2 {
        assert (e + rest)[2..] == rest && (e + rest)[0] == '\\' && (e + rest)[1] == e[1];
        assert Unescaped(e[1]) == [value[0]];
      } else {
        assert (e + rest)[1..] == rest && (e + rest)[0] == value[0];
      }
    }
  }

  lemma {:induction false} EscapedHasNoNewline(value: string)
    ensures '\n' !in Escaped(value)
  {
    if value != "" {
      EscapedHasNoNewline(value[1..]);
    }
  }

  // ---- Lines ----

  lemma NoSpaceAtStart(s: string)
    requires s != "" && ' ' < s[0] < '\U{7F}'
    ensures SpaceAtStart(s) == 0
  {
  }

  lemma WideSpaceEndsHigh(t: string)
    requires t != ""
    ensures IsWideSpace(t) ==> t[|t| - 1] >= '\U{7F}'
  {
  }

  lemma NoSpaceAtEnd(s: string)
    requires s != "" && ' ' < s[|s| - 1] < '\U{7F}'
    ensures SpaceAtEnd(s) == 0
  {
    if |s| >= 2 {
      WideSpaceEndsHigh(s[|s| - 2..]);
    }
    if |s| >= 3 {
      WideSpaceEndsHigh(s[|s| - 3..]);
    }
    hide IsWideSpace;
  }

  /** Nothing is trimmed off a text that begins and ends with a printable ASCII character. */
  lemma TrimsNothing(s: string)
    requires s != "" && ' ' < s[0] < '\U{7F}' && ' ' < s[|s| - 1] < '\U{7F}'
    ensures TrimSpace(s) == s
  {
    NoSpaceAtStart(s);
    NoSpaceAtEnd(s);
    hide SpaceAtStart, SpaceAtEnd;
  }

  lemma {:induction false} IndexFound(s: string, c: char, i: nat)
    requires i < |s| && s[i] == c && c !in s[..i]
    ensures IndexOf(s, c) == i
    decreases i
  {
    if i > 0 {
      assert s[..i][0] == s[0] && s[1..][..i - 1] == s[..i][1..];
      IndexFound(s[1..], c, i - 1);
    }
  }

  lemma NameAlone(name: string)
    requires IsIdentifier(name)
    ensures TrimSpace(name) == name && '=' !in name && '\n' !in name
    ensures forall i :: 0 <= i < |name| ==> ' ' < name[i] < '\U{7F}'
  {
    assert forall i :: 0 <= i < |name| ==> IsNameChar(name[i]);
    TrimsNothing(name);
  }

  lemma NoExport(v: Var)
    requires IsIdentifier(v.name)
    ensures CutExport(Quoted(v)) == Quoted(v)
  {
    var line := Quoted(v);
    NameAlone(v.name);
    assert line[..|v.name|] == v.name && line[|v.name|] == '=';
    assert '=' !in EXPORT && (EXPORT <= line ==> forall k :: 0 <= k < |EXPORT| ==> line[k] == EXPORT[k]);
    assert |v.name| > |EXPORT| ==> line[|EXPORT|] == v.name[|EXPORT|];
  }

  lemma ValueOfQuoted(value: string)
    ensures ParseValue("\"" + Escaped(value) + "\"") == Ok(value)
  {
    assert ("\"" + Escaped(value) + "\"")[1..] == Escaped(value) + "\"";
    Unquotes(value);
  }

  lemma ParsesQuoted(v: Var)
    requires IsIdentifier(v.name)
    ensures ParseLine(Quoted(v)) == Ok(v)
  {
    var line, value := Quoted(v), "\"" + Escaped(v.value) + "\"";
    hide ParseValue, Escaped, CutExport, TrimSpace;
    NoExport(v);
    NameAlone(v.name);
    assert line == v.name + "=" + value;
    assert line[..|v.name|] == v.name && line[|v.name| + 1..] == value;
    IndexFound(line, '=', |v.name|);
    TrimsNothing(value);
    ValueOfQuoted(v.value);
  }

  lemma LineOfQuoted(v: Var)
    requires IsIdentifier(v.name)
    ensures LineVar(Quoted(v)) == Ok(Some(v))
  {
    var line := Quoted(v);
    NameAlone(v.name);
    assert line[0] == v.name[0] && line[|line| - 1] == '"';
    TrimsNothing(line);
    ParsesQuoted(v);
  }

  // ---- Files ----

  lemma QuotedIsOneLine(v: Var)
    requires IsIdentifier(v.name)
    ensures '\n' !in Quoted(v)
  {
    NameAlone(v.name);
    EscapedHasNoNewline(v.value);
  }

  lemma OneLine(s: string)
    requires '\n' !in s
    ensures Lines(s) == [s]
  {
  }

  lemma FirstLine(s: string, rest: string)
    requires '\n' !in s
    ensures Lines(s + "\n" + rest) == [s] + Lines(rest)
  {
    var t := s + "\n" + rest;
    assert t[..|s|] == s && t[|s|] == '\n' && t[|s| + 1..] == rest;
    IndexFound(t, '\n', |s|);
  }

  lemma DefinesNext(line: string, lines: seq<string>, v: Var, rest: seq<Var>, first: nat)
    requires LineVar(line) == Ok(Some(v)) && Definitions(lines, first + 1) == Parsed(rest)
    ensures Definitions([line] + lines, first) == Parsed([v] + rest)
  {
    hide LineVar;
    assert ([line] + lines)[0] == line && ([line] + lines)[1..] == lines;
  }

  lemma NothingDefined(first: nat)
    ensures Definitions(Lines(""), first) == Parsed([])
  {
    OneLine("");
    assert [""][1..] == [] && LineVar("") == Ok(None);
  }

  lemma NoLines(first: nat)
    ensures Definitions([], first) == Parsed([])
  {
  }

  lemma {:induction false} PrintedDefines(vars: seq<Var>, first: nat)
    requires forall i :: 0 <= i < |vars| ==> IsIdentifier(vars[i].name)
    ensures Definitions(Lines(Printed(vars)), first) == Parsed(vars)
    decreases |vars|
  {
    hide Lines, LineVar, Quoted, Definitions;
    if vars == [] {
      NothingDefined(first);
    } else {
      var line, rest := Quoted(vars[0]), vars[1..];
      LineOfQuoted(vars[0]);
      QuotedIsOneLine(vars[0]);
      assert [vars[0]] + rest == vars;
      if |vars| == 1 {
        OneLine(line);
        assert [line] + [] == [line];
        NoLines(first + 1);
        DefinesNext(line, [], vars[0], [], first);
      } else {
        FirstLine(line, Printed(rest));
        PrintedDefines(rest, first + 1);
        DefinesNext(line, Lines(Printed(rest)), vars[0], rest, first);
      }
    }
  }

  lemma {:induction false} DistinctAreKept(before: seq<Var>, more: seq<Var>)
    requires DistinctNames(before + more)
    ensures OverriddenBy(before, more) == before + more
    decreases |more|
  {
    if more == [] {
      assert before + more == before;
    } else {
      forall k | 0 <= k < |before|
        ensures before[k].name != more[0].name
      {
        assert (before + more)[k] == before[k] && (before + more)[|before|] == more[0];
      }
      WithoutFrom(before, more[0].name, |before|);
      assert Overridden(before, more[0]) == before + [more[0]];
      assert before + [more[0]] + more[1..] == before + more;
      DistinctAreKept(before + [more[0]], more[1..]);
    }
  }

  lemma NoByteOrderMark(vars: seq<Var>)
    requires Printable(vars)
    ensures WithoutPrefix(Printed(vars), BOM) == Printed(vars)
  {
    if vars != [] {
      NameAlone(vars[0].name);
      assert Printed(vars)[0] == vars[0].name[0] != BOM[0];
    }
  }

  /** The round trip. */
  lemma ParsesWhatIsPrinted(vars: seq<Var>)
    requires Printable(vars)
    ensures FileVars(Printed(vars)) == Parsed(vars)
  {
    NoByteOrderMark(vars);
    PrintedDefines(vars, 1);
    assert [] + vars == vars;
    DistinctAreKept([], vars);
  }
}
