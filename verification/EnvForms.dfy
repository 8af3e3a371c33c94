/**
 Every form an assignment may take in an env file, and the lines around it: whatever is written in one
 of them is read back exactly, and whatever is not is reported with its line.
 */
module EnvForms {
  import opened Options
  import opened EnvFile
  import opened EnvRoundTrip

  // ---- What is written ----

  /** What may stand between double quotes: characters, and backslash sequences of which only three mean anything. */
  datatype Piece = Literal(c: char) | NewLine | Quote | Backslash | Sequence(c: char)

  datatype Form = Bare(value: string) | Single(value: string) | Double(pieces: seq<Piece>)

  datatype Line =
    | Nothing(indent: string, comment: Option<string>)
    // exported: the blanks after the keyword.
    | Assigns(indent: string, exported: Option<string>, name: string, before: string, after: string, form: Form, trail: string)

  predicate PieceOk(p: Piece) {
    match p
    case Literal(c) => c != '"' && c != '\\' && c != '\n'
    case Sequence(c) => c != 'n' && c != '"' && c != '\\' && c != '\n'
    case _ => true
  }

  function PieceText(p: Piece): string {
    match p
    case Literal(c) => [c]
    case NewLine => "\\n"
    case Quote => "\\\""
    case Backslash => "\\\\"
    case Sequence(c) => ['\\', c]
  }

  function PieceValue(p: Piece): string {
    match p
    case Literal(c) => [c]
    case NewLine => "\n"
    case Quote => "\""
    case Backslash => "\\"
    case Sequence(c) => ['\\', c]
  }

  function PiecesText(ps: seq<Piece>): string {
    if ps == [] then "" else PieceText(ps[0]) + PiecesText(ps[1..])
  }

  function PiecesValue(ps: seq<Piece>): string {
    if ps == [] then "" else PieceValue(ps[0]) + PiecesValue(ps[1..])
  }

  /** White space of one byte that ends no line. */
  predicate IsGap(s: string) {
    forall c :: c in s ==> IsSpace(c) && c != '\n'
  }

  /** Nothing to trim at either end. */
  predicate IsTight(s: string) {
    s == "" || (SpaceAtStart(s) == 0 && SpaceAtEnd(s) == 0)
  }

  predicate FormOk(f: Form) {
    match f
    case Bare(value) => IsTight(value) && '\n' !in value && (value != "" ==> value[0] != '\'' && value[0] != '"')
    case Single(value) => '\'' !in value && '\n' !in value
    case Double(pieces) => forall i :: 0 <= i < |pieces| ==> PieceOk(pieces[i])
  }

  function FormText(f: Form): string {
    match f
    case Bare(value) => value
    case Single(value) => "'" + value + "'"
    case Double(pieces) => "\"" + PiecesText(pieces) + "\""
  }

  function FormValue(f: Form): string {
    match f
    case Bare(value) => value
    case Single(value) => value
    case Double(pieces) => PiecesValue(pieces)
  }

  predicate IsBlanks(s: string) {
    forall c :: c in s ==> c == ' ' || c == '\t'
  }

  function ExportText(exported: Option<string>): string {
    if exported.Some? then EXPORT + exported.value else ""
  }

  /** A word that is not an export keyword itself: only then may blanks follow a variable called export. */
  predicate ExportOk(exported: Option<string>, word: string) {
    if exported.Some? then exported.value != "" && IsBlanks(exported.value)
    else EXPORT < word ==> word[|EXPORT|] != ' ' && word[|EXPORT|] != '\t'
  }

  predicate LineOk(l: Line) {
    match l
    case Nothing(indent, comment) => IsGap(indent) && (comment.Some? ==> '\n' !in comment.value)
    case Assigns(indent, exported, name, before, after, form, trail) =>
      && IsGap(indent) && IsGap(before) && IsGap(after) && IsGap(trail)
      && IsIdentifier(name) && ExportOk(exported, name + before) && FormOk(form)
  }

  function LineText(l: Line): string {
    match l
    case Nothing(indent, comment) => indent + if comment.Some? then "#" + comment.value else ""
    case Assigns(indent, exported, name, before, after, form, trail) =>
      indent + (ExportText(exported) + name + before + "=") + after + FormText(form) + trail
  }

  function LineVars(l: Line): seq<Var> {
    match l
    case Nothing(_, _) => []
    case Assigns(_, _, name, _, _, form, _) => [Var(name, FormValue(form))]
  }

  function FileText(lines: seq<Line>): string
    requires lines != []
  {
    if |lines| == 1 then LineText(lines[0]) else LineText(lines[0]) + "\n" + FileText(lines[1..])
  }

  function AllVars(lines: seq<Line>): seq<Var> {
    if lines == [] then [] else LineVars(lines[0]) + AllVars(lines[1..])
  }

  predicate AllOk(lines: seq<Line>) {
    forall i :: 0 <= i < |lines| ==> LineOk(lines[i])
  }

  // ---- Between double quotes ----

  /** A text between double quotes is read piece by piece, whatever follows. */
  lemma ReadsPiece(p: Piece, rest: string)
    requires PieceOk(p)
    ensures DoubleQuoted(PieceText(p) + rest) == Prepend(PieceValue(p), DoubleQuoted(rest))
  {
    var t := PieceText(p) + rest;
    if p.Literal? {
      assert t[0] == p.c && t[1..] == rest;
    } else {
      assert t[0] == '\\' && t[1] == PieceText(p)[1] && t[2..] == rest;
    }
  }

  lemma {:induction false} ReadsPieces(ps: seq<Piece>, rest: string)
    requires forall i :: 0 <= i < |ps| ==> PieceOk(ps[i])
    ensures DoubleQuoted(PiecesText(ps) + rest) == Prepend(PiecesValue(ps), DoubleQuoted(rest))
    decreases |ps|
  {
    if ps == [] {
      assert "" + rest == rest;
      Prepends("", "", DoubleQuoted(rest));
    } else {
      ReadsPieces(ps[1..], rest);
      ReadsPiece(ps[0], PiecesText(ps[1..]) + rest);
      assert PiecesText(ps) + rest == PieceText(ps[0]) + (PiecesText(ps[1..]) + rest);
      Prepends(PieceValue(ps[0]), PiecesValue(ps[1..]), DoubleQuoted(rest));
    }
  }

  lemma Unterminated(ps: seq<Piece>)
    requires forall i :: 0 <= i < |ps| ==> PieceOk(ps[i])
    ensures DoubleQuoted(PiecesText(ps)) == Err(UnterminatedDouble)
    ensures DoubleQuoted(PiecesText(ps) + "\\") == Err(UnterminatedDouble)
  {
    ReadsPieces(ps, "");
    ReadsPieces(ps, "\\");
    assert PiecesText(ps) + "" == PiecesText(ps);
    hide PiecesText, PiecesValue;
  }

  lemma Terminated(ps: seq<Piece>, rest: string)
    requires forall i :: 0 <= i < |ps| ==> PieceOk(ps[i])
    ensures DoubleQuoted(PiecesText(ps) + ("\"" + rest)) == if TrimSpace(rest) == "" then Ok(PiecesValue(ps)) else Err(TrailingText)
  {
    ReadsPieces(ps, "\"" + rest);
    assert ("\"" + rest)[0] == '"' && ("\"" + rest)[1..] == rest;
    assert PiecesValue(ps) + "" == PiecesValue(ps);
    hide PiecesText, PiecesValue, TrimSpace;
  }

  lemma QuotedValue(body: string)
    ensures ParseValue("\"" + body) == DoubleQuoted(body)
  {
    assert ("\"" + body)[1..] == body;
  }

  /**
   A double-quoted value is what its pieces stand for; without its closing quote, or with a backslash before the end,
   it is unterminated, and nothing but white space may follow it.
   */
  lemma DoubleQuotedIs(ps: seq<Piece>, rest: string)
    requires forall i :: 0 <= i < |ps| ==> PieceOk(ps[i])
    ensures ParseValue("\"" + PiecesText(ps)) == Err(UnterminatedDouble)
    ensures ParseValue("\"" + PiecesText(ps) + "\\") == Err(UnterminatedDouble)
    ensures ParseValue("\"" + PiecesText(ps) + "\"" + rest) == if TrimSpace(rest) == "" then Ok(PiecesValue(ps)) else Err(TrailingText)
  {
    var t := PiecesText(ps);
    hide TrimSpace, DoubleQuoted, PiecesText, PiecesValue, ParseValue;
    Unterminated(ps);
    Terminated(ps, rest);
    QuotedValue(t);
    QuotedValue(t + "\\");
    QuotedValue(t + ("\"" + rest));
    assert "\"" + t + "\\" == "\"" + (t + "\\") && "\"" + t + "\"" + rest == "\"" + (t + ("\"" + rest));
  }

  lemma IndexMissing(s: string, c: char)
    requires c !in s
    ensures IndexOf(s, c) == |s|
  {
  }

  /** Between single quotes everything stands for itself. */
  lemma SingleQuotedIs(value: string, rest: string)
    requires '\'' !in value
    ensures ParseValue("'" + value) == Err(UnterminatedSingle)
    ensures ParseValue("'" + value + "'" + rest) == if TrimSpace(rest) == "" then Ok(value) else Err(TrailingText)
  {
    hide TrimSpace;
    assert ("'" + value)[1..] == value;
    IndexMissing(value, '\'');
    var t := "'" + value + "'" + rest;
    assert t[1..] == value + "'" + rest && t[1..][..|value|] == value && t[1..][|value| + 1..] == rest;
    IndexFound(t[1..], '\'', |value|);
  }

  lemma FormIsRead(f: Form)
    requires FormOk(f)
    ensures ParseValue(FormText(f)) == Ok(FormValue(f))
  {
    assert TrimSpace("") == "";
    match f
    case Bare(value) =>
    case Single(value) =>
      assert "'" + value + "'" + "" == FormText(f);
      SingleQuotedIs(value, "");
    case Double(pieces) =>
      assert "\"" + PiecesText(pieces) + "\"" + "" == FormText(f);
      DoubleQuotedIs(pieces, "");
  }

  // ---- White space ----

  lemma Regroup(a: string, b: string, c: string, d: string)
    ensures a + b + c == a + (b + c) && a + b + c + d == a + (b + c + d) && a + b + c + d == a + b + (c + d)
    ensures a == "" ==> a + b == b
    ensures b == "" ==> a + b == a
    ensures c == "" ==> b + c == b && b + c + d == b + d
  {
  }

  lemma TightThenGap(s: string, gap: string)
    requires s != "" && SpaceAtStart(s) == 0 && IsGap(gap)
    ensures SpaceAtStart(s + gap) == 0
  {
    assert forall i :: 0 <= i < |gap| ==> gap[i] in gap;
    assert (s + gap)[0] == s[0];
    if |s| >= 2 {
      assert (s + gap)[..2] == s[..2];
    }
    if |s| >= 3 {
      assert (s + gap)[..3] == s[..3];
    }
  }

  lemma TightAfter(head: string, s: string)
    requires s != "" && SpaceAtEnd(s) == 0 && head != "" && head[|head| - 1] < '\U{7F}'
    ensures SpaceAtEnd(head + s) == 0
  {
    var t := head + s;
    assert t[|t| - 1] == s[|s| - 1];
    if |s| >= 2 {
      assert t[|t| - 2..] == s[|s| - 2..];
    } else {
      assert t[|t| - 2] == head[|head| - 1];
    }
    if |s| >= 3 {
      assert t[|t| - 3..] == s[|s| - 3..];
    } else if |t| >= 3 {
      assert t[|t| - 3..][2 - |s|] == head[|head| - 1];
    }
  }

  lemma {:induction false} TrimsGapBefore(gap: string, s: string)
    requires IsGap(gap)
    ensures TrimStart(gap + s) == TrimStart(s)
    decreases |gap|
  {
    if gap == "" {
      assert "" + s == s;
    } else {
      assert gap[0] in gap && (gap + s)[0] == gap[0] && (gap + s)[1..] == gap[1..] + s;
      TrimsGapBefore(gap[1..], s);
    }
  }

  lemma {:induction false} TrimsGapAfter(s: string, gap: string)
    requires IsGap(gap)
    ensures TrimEnd(s + gap) == TrimEnd(s)
    decreases |gap|
  {
    if gap == "" {
      assert s + "" == s;
    } else {
      var last := |gap| - 1;
      assert gap[last] in gap && (s + gap)[|s + gap| - 1] == gap[last] && (s + gap)[..|s + gap| - 1] == s + gap[..last];
      TrimsGapAfter(s, gap[..last]);
    }
  }

  /** What is between gaps is what trimming leaves. */
  lemma TrimsAround(indent: string, s: string, trail: string)
    requires IsGap(indent) && IsGap(trail) && IsTight(s)
    ensures TrimSpace(indent + s + trail) == s
  {
    assert indent + s + trail == indent + (s + trail);
    TrimsGapBefore(indent, s + trail);
    if s == "" {
      assert s + trail == trail + "" == trail == "" + trail;
      TrimsGapBefore(trail, "");
    } else {
      TightThenGap(s, trail);
      TrimsGapAfter(s, trail);
    }
    hide SpaceAtStart, SpaceAtEnd;
  }

  function WithoutReturn(raw: string): string {
    if raw != "" && raw[|raw| - 1] == '\r' then raw[..|raw| - 1] else raw
  }

  lemma TrimsReturn(indent: string, s: string, trail: string)
    requires IsGap(indent) && IsGap(trail) && IsTight(s)
    ensures TrimSpace(WithoutReturn(indent + s + trail)) == s
  {
    hide TrimSpace;
    var raw := indent + s + trail;
    TrimsAround(indent, s, trail);
    if trail != "" {
      assert raw[..|raw| - 1] == indent + s + trail[..|trail| - 1];
      TrimsAround(indent, s, trail[..|trail| - 1]);
    } else if s != "" {
      assert raw[|raw| - 1] == s[|s| - 1];
    } else if indent != "" {
      assert raw[..|raw| - 1] == indent[..|indent| - 1] + s + trail;
      TrimsAround(indent[..|indent| - 1], s, trail);
    }
  }

  lemma LineVarOf(raw: string, s: string)
    requires TrimSpace(WithoutReturn(raw)) == s
    ensures LineVar(raw) ==
      if s == "" || s[0] == '#' then Ok(None)
      else if ParseLine(s).Ok? then Ok(Some(ParseLine(s).value)) else Err(ParseLine(s).fault)
  {
    hide TrimSpace, ParseLine;
  }

  /** A line is trimmed whether or not it ends in a carriage return. */
  lemma LineIsTrimmed(indent: string, s: string, trail: string)
    requires IsGap(indent) && IsGap(trail) && IsTight(s)
    ensures LineVar(indent + s + trail) ==
      if s == "" || s[0] == '#' then Ok(None)
      else if ParseLine(s).Ok? then Ok(Some(ParseLine(s).value)) else Err(ParseLine(s).fault)
  {
    hide TrimSpace, ParseLine, LineVar, WithoutReturn;
    TrimsReturn(indent, s, trail);
    LineVarOf(indent + s + trail, s);
  }

  // ---- One line ----

  lemma {:induction false} TrimsBlanks(blanks: string, s: string)
    requires IsBlanks(blanks) && s != "" && s[0] != ' ' && s[0] != '\t'
    ensures TrimBlanks(blanks + s) == s
    decreases |blanks|
  {
    if blanks == "" {
      assert "" + s == s;
    } else {
      assert blanks[0] in blanks && (blanks + s)[0] == blanks[0] && (blanks + s)[1..] == blanks[1..] + s;
      assert forall c :: c in blanks[1..] ==> c in blanks;
      TrimsBlanks(blanks[1..], s);
    }
  }

  lemma CutsKeyword(blanks: string, from: string)
    requires IsBlanks(blanks) && blanks != "" && from != "" && from[0] != ' ' && from[0] != '\t'
    ensures CutExport(EXPORT + (blanks + from)) == from
  {
    var line := EXPORT + (blanks + from);
    assert blanks[0] in blanks && line[|EXPORT|] == blanks[0] && line[|EXPORT|..] == blanks + from;
    TrimsBlanks(blanks, from);
    hide TrimBlanks;
  }

  lemma CutsNothing(word: string, rest: string)
    requires EXPORT < word ==> word[|EXPORT|] != ' ' && word[|EXPORT|] != '\t'
    requires '=' !in word
    ensures CutExport(word + "=" + rest) == word + "=" + rest
  {
    var line := word + "=" + rest;
    assert line[..|word|] == word && line[|word|] == '=';
    if EXPORT <= line {
      assert forall k :: 0 <= k < |EXPORT| ==> line[k] == EXPORT[k];
      assert |word| >= |EXPORT| && word[..|EXPORT|] == EXPORT;
      assert |word| > |EXPORT| ==> EXPORT < word && line[|EXPORT|] == word[|EXPORT|];
    }
  }

  /** The export keyword is cut off where there is one, and nothing else is. */
  lemma CutsExport(exported: Option<string>, word: string, rest: string)
    requires ExportOk(exported, word) && '=' !in word && (word != "" ==> word[0] != ' ' && word[0] != '\t')
    ensures CutExport(ExportText(exported) + word + "=" + rest) == word + "=" + rest
  {
    hide CutExport;
    if exported.Some? {
      var from := word + "=" + rest;
      assert from[0] == if word == "" then '=' else word[0];
      assert ExportText(exported) + word + "=" + rest == EXPORT + (exported.value + from);
      CutsKeyword(exported.value, from);
    } else {
      assert "" + word + "=" + rest == word + "=" + rest;
      CutsNothing(word, rest);
    }
  }

  lemma ParsesCut(line: string, name: string, before: string, after: string, value: string)
    requires CutExport(line) == name + before + "=" + (after + value)
    requires '=' !in name && '=' !in before && IsTight(name) && IsTight(value) && IsGap(before) && IsGap(after)
    ensures ParseLine(line) ==
      if !IsIdentifier(name) then Err(NotAnIdentifier)
      else if ParseValue(value).Ok? then Ok(Var(name, ParseValue(value).value)) else Err(ParseValue(value).fault)
  {
    var cut, word, rest := CutExport(line), name + before, after + value;
    hide TrimSpace, ParseValue, CutExport, IsTight, IsIdentifier;
    assert cut[..|word|] == word && cut[|word|] == '=' && cut[|word| + 1..] == rest;
    IndexFound(cut, '=', |word|);
    TrimsAround("", name, before);
    TrimsAround(after, value, "");
    assert "" + name + before == word && after + value + "" == rest;
  }

  lemma NoEqualsInGap(gap: string)
    requires IsGap(gap)
    ensures '=' !in gap
  {
  }

  /** A line with an equals sign: the name is what is before it, the value what is after it. */
  lemma ParsesAssignment(exported: Option<string>, name: string, before: string, after: string, value: string)
    requires ExportOk(exported, name + before) && '=' !in name && IsTight(name) && IsTight(value) && IsGap(before) && IsGap(after)
    requires name == "" ==> before == ""
    ensures ParseLine(ExportText(exported) + name + before + "=" + (after + value)) ==
      if !IsIdentifier(name) then Err(NotAnIdentifier)
      else if ParseValue(value).Ok? then Ok(Var(name, ParseValue(value).value)) else Err(ParseValue(value).fault)
  {
    var word, rest := name + before, after + value;
    NoEqualsInGap(before);
    assert name != "" ==> word[0] == name[0] != ' ' && word[0] != '\t';
    hide CutExport, IsTight, ParseLine, ParseValue, ExportText, ExportOk, IsGap, IsIdentifier;
    CutsExport(exported, word, rest);
    Regroup(ExportText(exported), name, before, "=" + rest);
    Regroup(ExportText(exported), name + before, "=", rest);
    Regroup(ExportText(exported) + name, before, "=", rest);
    ParsesCut(ExportText(exported) + word + "=" + rest, name, before, after, value);
  }

  lemma AssignmentIsTight(exported: Option<string>, name: string, before: string, after: string, value: string)
    requires IsTight(value) && name != "" && ' ' < name[0] < '\U{7F}' && IsGap(after) && (value == "" ==> after == "")
    ensures IsTight(ExportText(exported) + name + before + "=" + after + value)
    ensures (ExportText(exported) + name + before + "=" + after + value)[0] == if exported.Some? then 'e' else name[0]
  {
    var head := ExportText(exported) + name + before + "=" + after;
    assert after != "" ==> head[|head| - 1] == after[|after| - 1] && after[|after| - 1] in after;
    assert head[0] == if exported.Some? then 'e' else name[0];
    NoSpaceAtStart(head + value);
    if value == "" {
      assert head + value == head;
      NoSpaceAtEnd(head);
    } else {
      TightAfter(head, value);
    }
    hide SpaceAtStart, SpaceAtEnd;
  }

  lemma EmptyAssignmentIs(indent: string, head: string, after: string, trail: string)
    requires IsGap(indent) && IsGap(after) && IsGap(trail) && IsTight(head)
    ensures LineVar(indent + head + after + "" + trail) == LineVar(head)
  {
    hide LineVar, IsTight, ParseLine;
    Regroup(indent + head, after, "", trail);
    Regroup("", head, "", "");
    LineIsTrimmed(indent, head, after + trail);
    LineIsTrimmed("", head, "");
  }

  lemma FullAssignmentIs(indent: string, head: string, after: string, value: string, trail: string)
    requires IsGap(indent) && IsGap(trail) && IsTight(head + after + value)
    ensures LineVar(indent + head + after + value + trail) == LineVar(head + after + value)
  {
    var s := head + after + value;
    hide LineVar, IsTight, ParseLine;
    Regroup(indent, head, after, value);
    Regroup("", s, "", "");
    LineIsTrimmed(indent, s, trail);
    LineIsTrimmed("", s, "");
  }

  /** A trimmed assignment. */
  lemma BareAssignmentIs(exported: Option<string>, name: string, before: string, after: string, value: string)
    requires IsGap(before) && IsGap(after) && IsTight(name) && IsTight(value) && (value == "" ==> after == "")
    requires ExportOk(exported, name + before) && '=' !in name && name != "" && name[0] != '#' && ' ' < name[0] < '\U{7F}'
    ensures LineVar((ExportText(exported) + name + before + "=") + after + value) ==
      if !IsIdentifier(name) then Err(NotAnIdentifier)
      else if ParseValue(value).Ok? then Ok(Some(Var(name, ParseValue(value).value))) else Err(ParseValue(value).fault)
  {
    var s := (ExportText(exported) + name + before + "=") + after + value;
    hide LineVar, ParseLine, ParseValue, IsIdentifier, IsTight, ExportText;
    AssignmentIsTight(exported, name, before, after, value);
    assert "" + s + "" == s && s == (ExportText(exported) + name + before + "=") + (after + value);
    LineIsTrimmed("", s, "");
    ParsesAssignment(exported, name, before, after, value);
  }

  /** What an assignment defines, with any white space around its parts, or how it is malformed. */
  lemma AssignmentIs(indent: string, exported: Option<string>, name: string, before: string, after: string, value: string, trail: string)
    requires IsGap(indent) && IsGap(before) && IsGap(after) && IsGap(trail) && IsTight(name) && IsTight(value)
    requires ExportOk(exported, name + before) && '=' !in name && name != "" && name[0] != '#' && ' ' < name[0] < '\U{7F}'
    ensures LineVar(indent + (ExportText(exported) + name + before + "=") + after + value + trail) ==
      if !IsIdentifier(name) then Err(NotAnIdentifier)
      else if ParseValue(value).Ok? then Ok(Some(Var(name, ParseValue(value).value))) else Err(ParseValue(value).fault)
  {
    var head := ExportText(exported) + name + before + "=";
    hide LineVar, ParseValue, IsIdentifier;
    if value == "" {
      AssignmentIsTight(exported, name, before, "", "");
      assert head + "" + "" == head;
      BareAssignmentIs(exported, name, before, "", "");
      EmptyAssignmentIs(indent, head, after, trail);
    } else {
      AssignmentIsTight(exported, name, before, after, value);
      BareAssignmentIs(exported, name, before, after, value);
      FullAssignmentIs(indent, head, after, value, trail);
    }
  }

  lemma {:induction false} BlanksTrimmedIn(s: string, c: char)
    requires c !in s
    ensures c !in TrimBlanks(s)
    decreases |s|
  {
    if s != "" {
      BlanksTrimmedIn(s[1..], c);
    }
  }

  /** A line without an equals sign is no assignment. */
  lemma NoEqualsIs(indent: string, s: string, trail: string)
    requires IsGap(indent) && IsGap(trail) && IsTight(s) && s != "" && s[0] != '#' && '=' !in s
    ensures LineVar(indent + s + trail) == Err(NoEquals)
  {
    LineIsTrimmed(indent, s, trail);
    BlanksTrimmedIn(s, '=');
    if EXPORT <= s {
      BlanksTrimmedIn(s[|EXPORT|..], '=');
    }
    IndexMissing(CutExport(s), '=');
  }

  /** Trimming the end of a text that begins with a number sign leaves it. */
  lemma {:induction false} StartStays(s: string)
    requires s != "" && s[0] == '#'
    ensures TrimStart(s) == s && TrimEnd(s) != "" && TrimEnd(s)[0] == '#'
    decreases |s|
  {
    NoSpaceAtStart(s);
    var n := SpaceAtEnd(s);
    if n > 0 {
      assert n == |s| ==> s[0] == '#' && !IsSpace(s[0]) && !IsWideSpace(s);
      StartStays(s[..|s| - n]);
    }
  }

  lemma ReturnCut(indent: string, whole: string)
    requires whole != ""
    ensures WithoutReturn(indent + whole) == indent + WithoutReturn(whole)
  {
    var raw := indent + whole;
    assert raw[|raw| - 1] == whole[|whole| - 1] && raw[..|raw| - 1] == indent + whole[..|whole| - 1];
  }

  lemma CommentStays(comment: string)
    ensures WithoutReturn("#" + comment) != "" && WithoutReturn("#" + comment)[0] == '#'
  {
    var whole := "#" + comment;
    assert whole[0] == '#' && (comment != "" ==> whole[..|whole| - 1][0] == '#');
  }

  /** A comment may end in white space, which is trimmed with it. */
  lemma CommentIs(indent: string, comment: string)
    requires IsGap(indent)
    ensures LineVar(indent + ("#" + comment)) == Ok(None)
  {
    hide LineVar, IsGap, WithoutReturn, TrimStart, TrimEnd;
    var rest := WithoutReturn("#" + comment);
    ReturnCut(indent, "#" + comment);
    CommentStays(comment);
    TrimsGapBefore(indent, rest);
    StartStays(rest);
    LineVarOf(indent + ("#" + comment), TrimEnd(rest));
  }

  lemma NothingIs(indent: string, comment: Option<string>)
    requires IsGap(indent)
    ensures LineVar(LineText(Nothing(indent, comment))) == Ok(None)
  {
    assert IsTight("") && indent + "" + "" == indent + "";
    if comment.Some? {
      CommentIs(indent, comment.value);
    } else {
      LineIsTrimmed(indent, "", "");
    }
  }

  lemma NameIsTight(name: string)
    requires name != "" && ' ' < name[0] < '\U{7F}' && ' ' < name[|name| - 1] < '\U{7F}'
    ensures IsTight(name)
  {
    NoSpaceAtStart(name);
    NoSpaceAtEnd(name);
  }

  lemma FormIsTight(f: Form)
    requires FormOk(f)
    ensures IsTight(FormText(f))
  {
    if !f.Bare? {
      NameIsTight(FormText(f));
    }
  }

  /** Blank lines and comments define nothing; every other line defines what it says. */
  lemma LineIs(l: Line)
    requires LineOk(l)
    ensures LineVar(LineText(l)) == match l
      case Nothing(_, _) => Ok(None)
      case Assigns(_, _, name, _, _, form, _) => Ok(Some(Var(name, FormValue(form))))
  {
    match l
    case Nothing(indent, comment) => NothingIs(indent, comment);
    case Assigns(indent, exported, name, before, after, form, trail) =>
      NameAlone(name);
      NameIsTight(name);
      FormIsTight(form);
      FormIsRead(form);
      hide LineVar, ParseValue, FormText, FormValue, IsIdentifier, ExportText;
      AssignmentIs(indent, exported, name, before, after, FormText(form), trail);
  }

  // ---- A file ----

  lemma {:induction false} PiecesOnOneLine(ps: seq<Piece>)
    requires forall i :: 0 <= i < |ps| ==> PieceOk(ps[i])
    ensures '\n' !in PiecesText(ps)
    decreases |ps|
  {
    if ps != [] {
      PiecesOnOneLine(ps[1..]);
      assert '\n' !in PieceText(ps[0]);
    }
  }

  lemma LineIsOneLine(l: Line)
    requires LineOk(l)
    ensures '\n' !in LineText(l)
  {
    if l.Assigns? {
      NameAlone(l.name);
      if l.form.Double? {
        PiecesOnOneLine(l.form.pieces);
      }
      assert '\n' !in FormText(l.form) && '\n' !in ExportText(l.exported);
    }
  }

  lemma DefinesOne(line: string, lines: seq<string>, l: Line, rest: seq<Var>, first: nat)
    requires LineOk(l) && line == LineText(l) && Definitions(lines, first + 1) == Parsed(rest)
    ensures Definitions([line] + lines, first) == Parsed(LineVars(l) + rest)
  {
    LineIs(l);
    hide LineVar, LineText, LineOk;
    assert ([line] + lines)[0] == line && ([line] + lines)[1..] == lines;
    assert [] + rest == rest;
  }

  lemma {:induction false} FileDefines(lines: seq<Line>, first: nat)
    requires lines != [] && AllOk(lines)
    ensures Definitions(Lines(FileText(lines)), first) == Parsed(AllVars(lines))
    decreases |lines|
  {
    var l, rest := lines[0], lines[1..];
    LineIsOneLine(l);
    hide Lines, LineVar, LineText, Definitions, LineOk, LineVars;
    if |lines| == 1 {
      OneLine(LineText(l));
      NoLines(first + 1);
      DefinesOne(LineText(l), [], l, [], first);
      assert [LineText(l)] + [] == [LineText(l)] && rest == [];
    } else {
      FirstLine(LineText(l), FileText(rest));
      FileDefines(rest, first + 1);
      DefinesOne(LineText(l), Lines(FileText(rest)), l, AllVars(rest), first);
    }
  }

  /** No line begins with a byte order mark. */
  lemma BeginsPlainly(lines: seq<Line>)
    requires lines != [] && AllOk(lines)
    ensures !(BOM <= FileText(lines))
  {
    var t, l := FileText(lines), lines[0];
    assert LineText(l) <= t;
    if LineText(l) == "" {
      assert t != "" ==> t[0] == '\n';
    } else {
      assert t[0] == LineText(l)[0];
      assert l.indent != "" ==> LineText(l)[0] == l.indent[0] && l.indent[0] in l.indent;
      if l.Assigns? {
        NameAlone(l.name);
      }
    }
  }

  /**
   Every file of blank lines, comments and assignments, in any form, is read as it is meant: with white space around
   any part, export keywords and carriage returns making no difference, nor a byte order mark in front.
   */
  lemma FileIsRead(lines: seq<Line>, marked: bool)
    requires lines != [] && AllOk(lines)
    ensures FileVars((if marked then BOM else "") + FileText(lines)) == Parsed(OverriddenBy([], AllVars(lines)))
  {
    var t := FileText(lines);
    BeginsPlainly(lines);
    FileDefines(lines, 1);
    assert BOM + t != "" && (BOM + t)[|BOM|..] == t && "" + t == t;
    hide FileText, Definitions, Lines, OverriddenBy, AllVars;
  }

  lemma OverridesNothing(v: Var)
    ensures OverriddenBy([], [v]) == [v]
  {
    assert Overridden([], v) == [v] && [v][1..] == [];
  }

  lemma FormAlone(name: string, form: Form)
    requires IsIdentifier(name) && FormOk(form)
    ensures FileVars(name + "=" + FormText(form)) == Parsed([Var(name, FormValue(form))])
  {
    var l := Assigns("", None, name, "", "", form, "");
    assert EXPORT < name ==> name[|EXPORT|] in name && IsNameChar(name[|EXPORT|]);
    assert name + "" == name && LineText(l) == name + "=" + FormText(form);
    assert LineOk(l) && LineVars(l) == [Var(name, FormValue(form))];
    hide LineOk, LineText, FormText, FormValue, FormOk, IsIdentifier, LineVars, FileVars, OverriddenBy;
    FileIsRead([l], false);
    assert "" + FileText([l]) == LineText(l) && AllVars([l]) == LineVars(l) + [];
    OverridesNothing(Var(name, FormValue(form)));
  }

  /** An unquoted value is read as it stands. */
  lemma BareIsItself(name: string, value: string)
    requires IsIdentifier(name) && '\n' !in value
    requires value != "" ==> SpaceAtStart(value) == 0 && SpaceAtEnd(value) == 0 && value[0] != '\'' && value[0] != '"'
    ensures FileVars(name + "=" + value) == Parsed([Var(name, value)])
  {
    FormAlone(name, Bare(value));
  }

  /** And so is one in single quotes. */
  lemma SingleIsItself(name: string, value: string)
    requires IsIdentifier(name) && '\n' !in value && '\'' !in value
    ensures FileVars(name + "='" + value + "'") == Parsed([Var(name, value)])
  {
    assert name + "='" + value + "'" == name + "=" + FormText(Single(value));
    FormAlone(name, Single(value));
  }

  // ---- A malformed file ----

  lemma FaultStops(bad: string, lines: seq<string>, first: nat)
    requires LineVar(bad).Err?
    ensures Definitions([bad] + lines, first) == Malformed(first, LineVar(bad).fault)
  {
    hide LineVar;
    assert ([bad] + lines)[0] == bad;
  }

  lemma DefinesOrStops(line: string, lines: seq<string>, first: nat)
    requires LineVar(line).Ok? && Definitions(lines, first + 1).Malformed?
    ensures Definitions([line] + lines, first) == Definitions(lines, first + 1)
  {
    hide LineVar;
    assert ([line] + lines)[0] == line && ([line] + lines)[1..] == lines;
  }

  lemma FaultLater(l: Line, tail: string, first: nat)
    requires LineOk(l) && Definitions(Lines(tail), first + 1).Malformed?
    ensures Definitions(Lines(LineText(l) + "\n" + tail), first) == Definitions(Lines(tail), first + 1)
  {
    hide Lines, LineVar, LineText, Definitions;
    LineIsOneLine(l);
    LineIs(l);
    FirstLine(LineText(l), tail);
    DefinesOrStops(LineText(l), Lines(tail), first);
  }

  lemma {:induction false} FaultInDefinitions(good: seq<Line>, tail: string, bad: string, rest: seq<string>, first: nat)
    requires good != [] && AllOk(good) && LineVar(bad).Err? && Lines(tail) == [bad] + rest
    ensures Definitions(Lines(FileText(good) + "\n" + tail), first) == Malformed(first + |good|, LineVar(bad).fault)
    decreases |good|
  {
    var l, more := good[0], good[1..];
    hide Lines, LineVar, LineText, LineOk, Definitions;
    if |good| == 1 {
      FaultStops(bad, rest, first + 1);
      FaultLater(l, tail, first);
    } else {
      FaultInDefinitions(more, tail, bad, rest, first + 1);
      FaultLater(l, FileText(more) + "\n" + tail, first);
      Regroup(LineText(l) + "\n", FileText(more), "\n", tail);
    }
  }

  /** The lines that are fine, before one that is not. */
  function Before(good: seq<Line>): string {
    if good == [] then "" else FileText(good) + "\n"
  }

  function After(rest: Option<string>): string {
    if rest.Some? then "\n" + rest.value else ""
  }

  lemma FaultyLine(bad: string, rest: Option<string>) returns (lines: seq<string>)
    requires '\n' !in bad
    ensures Lines(bad + After(rest)) == [bad] + lines
  {
    hide Lines;
    if rest.Some? {
      FirstLine(bad, rest.value);
      assert bad + After(rest) == bad + "\n" + rest.value;
      lines := Lines(rest.value);
    } else {
      OneLine(bad);
      assert bad + After(rest) == bad && [bad] + [] == [bad];
      lines := [];
    }
  }

  lemma FaultInFile(good: seq<Line>, bad: string, rest: Option<string>)
    requires AllOk(good) && '\n' !in bad && LineVar(bad).Err?
    ensures Definitions(Lines(Before(good) + (bad + After(rest))), 1) == Malformed(|good| + 1, LineVar(bad).fault)
  {
    hide Definitions, Lines, LineVar, After, FileText, LineOk;
    var lines := FaultyLine(bad, rest);
    if good == [] {
      FaultStops(bad, lines, 1);
      assert "" + (bad + After(rest)) == bad + After(rest);
    } else {
      FaultInDefinitions(good, bad + After(rest), bad, lines, 1);
    }
  }

  lemma Unmarked(t: string, marked: bool)
    requires marked || !(BOM <= t)
    ensures WithoutPrefix((if marked then BOM else "") + t, BOM) == t
  {
    assert BOM <= BOM + t && (BOM + t)[|BOM|..] == t && "" + t == t;
  }

  lemma PlainStart(s: string, rest: string)
    requires !(BOM <= s) && rest != "" && rest[0] == '\n'
    ensures !(BOM <= s + rest)
  {
    assert |s| < |BOM| ==> (s + rest)[|s|] == '\n';
    assert |s| >= |BOM| ==> (s + rest)[..|BOM|] == s[..|BOM|];
  }

  lemma NoMarkBefore(good: seq<Line>, tail: string)
    requires AllOk(good) && (good != [] || !(BOM <= tail))
    ensures !(BOM <= Before(good) + tail)
  {
    hide FileText, AllOk;
    if good == [] {
      assert "" + tail == tail;
    } else {
      BeginsPlainly(good);
      PlainStart(FileText(good), "\n" + tail);
      assert FileText(good) + ("\n" + tail) == Before(good) + tail;
    }
  }

  lemma NoMarkAfter(bad: string, rest: Option<string>)
    requires !(BOM <= bad)
    ensures !(BOM <= bad + After(rest))
  {
    if rest.Some? {
      PlainStart(bad, "\n" + rest.value);
    } else {
      assert bad + "" == bad;
    }
  }

  /**
   A file is refused for its first malformed line, which is counted from one, whatever comes after. (A first line that
   begins with a byte order mark of its own is another line.)
   */
  lemma FirstFaultIsReported(good: seq<Line>, bad: string, rest: Option<string>, marked: bool)
    requires AllOk(good) && '\n' !in bad && LineVar(bad).Err? && (marked || good != [] || !(BOM <= bad))
    ensures FileVars((if marked then BOM else "") + (Before(good) + (bad + After(rest)))) == Malformed(|good| + 1, LineVar(bad).fault)
  {
    hide Definitions, Lines, LineVar, After, Before, WithoutPrefix, LineOk;
    FaultInFile(good, bad, rest);
    if !marked {
      if good == [] {
        NoMarkAfter(bad, rest);
      }
      NoMarkBefore(good, bad + After(rest));
    }
    Unmarked(Before(good) + (bad + After(rest)), marked);
  }
}
