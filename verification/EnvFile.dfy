/**
 Env files: the dotenv subset, parsed line by line, with one entry per name. A string stands for the
 bytes of a file, one char a byte.
 */
module EnvFile {
  import opened Options

  datatype Fault = NoEquals | NotAnIdentifier | UnterminatedSingle | UnterminatedDouble | TrailingText

  datatype Result<T> = Ok(value: T) | Err(fault: Fault)

  datatype Var = Var(name: string, value: string)

  // ---- Whitespace, as Unicode has it, in UTF-8 ----

  predicate IsWideSpace(s: string) {
    || (|s| == 2 && s[0] == '\U{C2}' && (s[1] == '\U{85}' || s[1] == '\U{A0}'))
    || (|s| == 3 && s[0] == '\U{E1}' && s[1] == '\U{9A}' && s[2] == '\U{80}')
    || (|s| == 3 && s[0] == '\U{E2}' && s[1] == '\U{80}'
        && ('\U{80}' <= s[2] <= '\U{8A}' || s[2] == '\U{A8}' || s[2] == '\U{A9}' || s[2] == '\U{AF}'))
    || (|s| == 3 && s[0] == '\U{E2}' && s[1] == '\U{81}' && s[2] == '\U{9F}')
    || (|s| == 3 && s[0] == '\U{E3}' && s[1] == '\U{80}' && s[2] == '\U{80}')
  }

  predicate IsSpace(c: char) {
    c == ' ' || '\U{09}' <= c <= '\U{0D}'
  }

  /** The bytes of the space a string begins with, or 0. */
  function SpaceAtStart(s: string): (n: nat)
    ensures n <= |s|
  {
    if |s| >= 1 && IsSpace(s[0]) then 1
    else if |s| >= 2 && IsWideSpace(s[..2]) then 2
    else if |s| >= 3 && IsWideSpace(s[..3]) then 3
    else 0
  }

  function SpaceAtEnd(s: string): (n: nat)
    ensures n <= |s|
  {
    if |s| >= 1 && IsSpace(s[|s| - 1]) then 1
    else if |s| >= 2 && IsWideSpace(s[|s| - 2..]) then 2
    else if |s| >= 3 && IsWideSpace(s[|s| - 3..]) then 3
    else 0
  }

  function TrimStart(s: string): string
    decreases |s|
  {
    if SpaceAtStart(s) == 0 then s else TrimStart(s[SpaceAtStart(s)..])
  }

  function TrimEnd(s: string): string
    decreases |s|
  {
    if SpaceAtEnd(s) == 0 then s else TrimEnd(s[..|s| - SpaceAtEnd(s)])
  }

  function TrimSpace(s: string): string {
    TrimEnd(TrimStart(s))
  }

  function TrimBlanks(s: string): string
    decreases |s|
  {
    if s != "" && (s[0] == ' ' || s[0] == '\t') then TrimBlanks(s[1..]) else s
  }

  // ---- Cutting ----

  function IndexOf(s: string, c: char): (i: nat)
    ensures i <= |s| && c !in s[..i] && (i < |s| ==> s[i] == c)
  {
    if s == "" || s[0] == c then 0
    else
      assert s[..1 + IndexOf(s[1..], c)] == [s[0]] + s[1..][..IndexOf(s[1..], c)];
      1 + IndexOf(s[1..], c)
  }

  /** The lines of a text; a text with n newlines has n + 1. */
  function Lines(text: string): (lines: seq<string>)
    ensures |lines| >= 1
    decreases |text|
  {
    var i := IndexOf(text, '\n');
    if i == |text| then [text] else [text[..i]] + Lines(text[i + 1..])
  }

  function WithoutPrefix(s: string, prefix: string): string {
    if prefix <= s then s[|prefix|..] else s
  }

  // ---- One line ----

  predicate IsNameStart(c: char) {
    'A' <= c <= 'Z' || 'a' <= c <= 'z' || c == '_'
  }

  predicate IsNameChar(c: char) {
    IsNameStart(c) || '0' <= c <= '9'
  }

  predicate IsIdentifier(s: string) {
    s != "" && IsNameStart(s[0]) && forall i :: 0 <= i < |s| ==> IsNameChar(s[i])
  }

  const EXPORT: string := "export"

  /** Without a leading export and the blanks after it. */
  function CutExport(line: string): string {
    if EXPORT <= line && |line| > |EXPORT| && (line[|EXPORT|] == ' ' || line[|EXPORT|] == '\t')
    then TrimBlanks(line[|EXPORT|..])
    else line
  }

  function Prepend(s: string, r: Result<string>): Result<string> {
    if r.Ok? then Ok(s + r.value) else r
  }

  function Unescaped(c: char): string {
    match c
    case 'n' => "\n"
    case '"' => "\""
    case '\\' => "\\"
    case _ => ['\\', c]
  }

  /** The value of a double-quoted body, which begins just after the opening quote. */
  function DoubleQuoted(body: string): Result<string>
    decreases |body|
  {
    if body == "" then Err(UnterminatedDouble)
    else if body[0] == '"' then
      if TrimSpace(body[1..]) != "" then Err(TrailingText) else Ok("")
    else if body[0] == '\\' then
      if |body| == 1 then Err(UnterminatedDouble)
      else
        Prepend(Unescaped(body[1]), DoubleQuoted(body[2..]))
    else Prepend([body[0]], DoubleQuoted(body[1..]))
  }

  lemma Prepends(a: string, b: string, r: Result<string>)
    ensures Prepend("", r) == r && Prepend(a, Prepend(b, r)) == Prepend(a + b, r)
  {
    if r.Ok? {
      assert "" + r.value == r.value && a + (b + r.value) == a + b + r.value;
    }
  }

  /** The loop over the bytes of the body. */
  method ParseDoubleQuoted(body: string) returns (r: Result<string>)
    ensures r == DoubleQuoted(body)
  {
    var b, i := "", 0;
    Prepends("", "", DoubleQuoted(body));
    assert body[0..] == body;
    while i < |body|
      invariant 0 <= i <= |body|
      invariant DoubleQuoted(body) == Prepend(b, DoubleQuoted(body[i..]))
    {
      var c := body[i];
      assert body[i..] != "" && body[i..][0] == c && body[i..][1..] == body[i + 1..];
      if c == '"' {
        if TrimSpace(body[i + 1..]) != "" {
          return Err(TrailingText);
        }
        assert b + "" == b;
        return Ok(b);
      }
      if c == '\\' {
        if i + 1 >= |body| {
          return Err(UnterminatedDouble);
        }
        i := i + 1;
        assert body[i - 1..][2..] == body[i + 1..] && body[i - 1..][1] == body[i];
        Prepends(b, Unescaped(body[i]), DoubleQuoted(body[i + 1..]));
        if body[i] == 'n' {
          b := b + "\n";
        } else if body[i] == '"' {
          b := b + "\"";
        } else if body[i] == '\\' {
          b := b + "\\";
        } else {
          b := b + ['\\', body[i]];
        }
      } else {
        Prepends(b, [c], DoubleQuoted(body[i + 1..]));
        b := b + [c];
      }
      i := i + 1;
    }
    assert body[i..] == "";
    r := Err(UnterminatedDouble);
  }

  function ParseValue(value: string): Result<string> {
    if value != "" && value[0] == '\'' then
      var i := IndexOf(value[1..], '\'');
      if i == |value| - 1 then Err(UnterminatedSingle)
      else if TrimSpace(value[1..][i + 1..]) != "" then Err(TrailingText)
      else Ok(value[1..][..i])
    else if value != "" && value[0] == '"' then DoubleQuoted(value[1..])
    else Ok(value)
  }

  /** A trimmed line that is neither empty nor a comment. */
  function ParseLine(trimmed: string): Result<Var> {
    var line := CutExport(trimmed);
    var i := IndexOf(line, '=');
    if i == |line| then Err(NoEquals)
    else
      var name := TrimSpace(line[..i]);
      if !IsIdentifier(name) then Err(NotAnIdentifier)
      else
        match ParseValue(TrimSpace(line[i + 1..]))
        case Err(f) => Err(f)
        case Ok(v) => Ok(Var(name, v))
  }

  // ---- A file ----

  /** Without the first variable of a name. */
  function Without(vars: seq<Var>, name: string): seq<Var> {
    if vars == [] then []
    else if vars[0].name == name then vars[1..]
    else [vars[0]] + Without(vars[1..], name)
  }

  /** A later definition takes the place of an earlier one, at the end. */
  function Overridden(vars: seq<Var>, v: Var): seq<Var> {
    Without(vars, v.name) + [v]
  }

  lemma {:induction false} WithoutFrom(vars: seq<Var>, name: string, i: nat)
    requires i <= |vars| && forall k :: 0 <= k < i ==> vars[k].name != name
    ensures Without(vars, name) == vars[..i] + Without(vars[i..], name)
    decreases i
  {
    if i == 0 {
      assert vars[0..] == vars;
    } else {
      WithoutFrom(vars[1..], name, i - 1);
      assert vars[1..][i - 1..] == vars[i..] && [vars[0]] + vars[1..][..i - 1] == vars[..i];
    }
  }

  method Override(vars: seq<Var>, v: Var) returns (now: seq<Var>)
    ensures now == Overridden(vars, v)
  {
    for i := 0 to |vars|
      invariant forall k :: 0 <= k < i ==> vars[k].name != v.name
    {
      if vars[i].name == v.name {
        WithoutFrom(vars, v.name, i);
        assert vars[i..][1..] == vars[i + 1..];
        return vars[..i] + vars[i + 1..] + [v];
      }
    }
    WithoutFrom(vars, v.name, |vars|);
    now := vars + [v];
  }

  function OverriddenBy(vars: seq<Var>, more: seq<Var>): seq<Var>
    decreases |more|
  {
    if more == [] then vars else OverriddenBy(Overridden(vars, more[0]), more[1..])
  }

  /** What a line defines: nothing if it is blank or a comment. */
  function LineVar(raw: string): Result<Option<Var>> {
    var line := if raw != "" && raw[|raw| - 1] == '\r' then raw[..|raw| - 1] else raw;
    var trimmed := TrimSpace(line);
    if trimmed == "" || trimmed[0] == '#' then Ok(None)
    else
      var v := ParseLine(trimmed);
      if v.Ok? then Ok(Some(v.value)) else Err(v.fault)
  }

  datatype Parsed = Parsed(vars: seq<Var>) | Malformed(line: nat, fault: Fault)

  function Then(before: seq<Var>, p: Parsed): Parsed {
    if p.Parsed? then Parsed(before + p.vars) else p
  }

  /** The definitions of lines first.., in order, or the first line that is malformed. */
  function Definitions(lines: seq<string>, first: nat): Parsed
    decreases |lines|
  {
    if lines == [] then Parsed([])
    else
      var v := LineVar(lines[0]);
      if v.Err? then Malformed(first, v.fault)
      else if v.value == None then Definitions(lines[1..], first + 1)
      else Then([v.value.value], Definitions(lines[1..], first + 1))
  }

  const BOM: string := "\U{EF}\U{BB}\U{BF}"

  /** What a file defines: the definitions of its lines, each name keeping its last. */
  function FileVars(data: string): Parsed {
    var p := Definitions(Lines(WithoutPrefix(data, BOM)), 1);
    if p.Parsed? then Parsed(OverriddenBy([], p.vars)) else p
  }

  lemma {:induction false} OverriddenByMore(vars: seq<Var>, a: seq<Var>, b: seq<Var>)
    ensures OverriddenBy(vars, a + b) == OverriddenBy(OverriddenBy(vars, a), b)
    decreases |a|
  {
    if a == [] {
      assert a + b == b;
    } else {
      assert (a + b)[1..] == a[1..] + b;
      OverriddenByMore(Overridden(vars, a[0]), a[1..], b);
    }
  }

  lemma OneMore(vars: seq<Var>, defs: seq<Var>, v: Var)
    requires vars == OverriddenBy([], defs)
    ensures Overridden(vars, v) == OverriddenBy([], defs + [v])
  {
    OverriddenByMore([], defs, [v]);
    assert OverriddenBy(vars, [v]) == OverriddenBy(Overridden(vars, v), [v][1..]);
  }

  lemma NextLine(lines: seq<string>, i: nat, defs: seq<Var>)
    requires i < |lines|
    ensures var v := LineVar(lines[i]);
      Then(defs, Definitions(lines[i..], i + 1)) ==
        if v.Err? then Malformed(i + 1, v.fault)
        else Then(defs + (if v.value == None then [] else [v.value.value]), Definitions(lines[i + 1..], i + 2))
  {
    assert lines[i..] != [] && lines[i..][0] == lines[i] && lines[i..][1..] == lines[i + 1..];
    var v, p := LineVar(lines[i]), Definitions(lines[i + 1..], i + 2);
    if v.Ok? && v.value.Some? && p.Parsed? {
      assert defs + ([v.value.value] + p.vars) == defs + [v.value.value] + p.vars;
    } else {
      assert defs + [] == defs;
    }
  }

  lemma StartOfFile(lines: seq<string>)
    ensures OverriddenBy([], []) == [] && Definitions(lines, 1) == Then([], Definitions(lines[0..], 1))
  {
    assert lines[0..] == lines;
    var p := Definitions(lines, 1);
    if p.Parsed? {
      assert [] + p.vars == p.vars;
    }
  }

  lemma EndOfFile(lines: seq<string>, defs: seq<Var>)
    ensures Then(defs, Definitions(lines[|lines|..], |lines| + 1)) == Parsed(defs)
  {
    assert defs + [] == defs;
  }

  method Parse(data: string) returns (r: Parsed)
    ensures r == FileVars(data)
  {
    hide LineVar, Lines, OverriddenBy, Definitions;
    var lines := Lines(WithoutPrefix(data, BOM));
    var vars := [];
    ghost var defs: seq<Var> := [];
    StartOfFile(lines);
    for i := 0 to |lines|
      invariant vars == OverriddenBy([], defs)
      invariant Definitions(lines, 1) == Then(defs, Definitions(lines[i..], i + 1))
    {
      NextLine(lines, i, defs);
      var v := LineVar(lines[i]);
      if v.Err? {
        return Malformed(i + 1, v.fault);
      }
      if v.value.Some? {
        OneMore(vars, defs, v.value.value);
        vars := Override(vars, v.value.value);
        defs := defs + [v.value.value];
      } else {
        assert defs + [] == defs;
      }
    }
    EndOfFile(lines, defs);
    r := Parsed(vars);
  }
}
