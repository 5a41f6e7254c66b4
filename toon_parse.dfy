/**
 * lib/toon/parse.ts: the tokenizer, scalar coercion, array-header
 * recognition, the indentation-stack parser `parseTOON` and the
 * `looksLikeTOON` sniff.
 *
 * The parser's stack is modelled as a zipper: every frame carries the fields
 * of the object it stands for, and popping a frame stores that object under
 * its key in the frame below. In the source the parent already holds a
 * reference to the child; the two agree because a frame's parent is never the
 * top of the stack while the frame is on it, so nothing else can write there.
 */
module ToonParse {
  import opened Wrappers
  import opened JsText
  import opened JsonValue

  /** One tokenized line: indentation level and the line without trailing whitespace. */
  datatype Line = Line(indent: nat, raw: string)

  // ---------------------------------------------------------------- toLines

  /** Maps one physical line to its token: indent is half the leading-whitespace count. */
  function MakeLine(raw: string): Line {
    Line(LeadingSpaces(raw) / 2, TrimEnd(raw))
  }

  /** The map/filter pipeline of `toLines` over already split lines. */
  function TokenizeLines(rs: seq<string>): (r: seq<Line>)
    ensures |r| <= |rs|
  {
    if rs == [] then []
    else
      (if Blank(rs[0]) then [] else [MakeLine(rs[0])]) + TokenizeLines(rs[1..])
  }

  /** `toLines(s)`. */
  function ToLines(s: string): seq<Line> {
    TokenizeLines(Split(ReplaceCrlf(s), '\n'))
  }

  // ---------------------------------------------------------------- scalars

  /** The number the regex `^-?\d+(\.\d+)?$` accepts in `t`, if it accepts `t`. */
  function NumLiteral(t: string): (r: Option<Decimal>)
    ensures r.Some? ==> Canonical(r.value)
    ensures r.Some? ==> t != [] && (IsDigit(t[0]) || t[0] == '-')
  {
    var neg := |t| > 0 && t[0] == '-';
    var body := if neg then t[1..] else t;
    var sign := if neg then -1 else 1;
    var k := DigitRun(body);
    if k == 0 then None
    else if k == |body| then Some(Normalize(sign * DigitsValue(body), 0))
    else if body[k] == '.' && k + 1 < |body| && AllDigits(body[k + 1..]) then
      var frac := body[k + 1..];
      Some(Normalize(sign * (DigitsValue(body[..k]) * Pow10(|frac|) + DigitsValue(frac)), |frac|))
    else None
  }

  /** `parseScalar(v)`: null, booleans and decimal literals are coerced, anything else stays text. */
  function ParseScalar(v: string): Json {
    var t := Trim(v);
    if t == "null" then Null
    else if t == "true" then Bool(true)
    else if t == "false" then Bool(false)
    else match NumLiteral(t)
      case Some(d) => Num(d)
      case None => Str(t)
  }

  /** What `parseScalar` makes of each kind of text. */
  lemma ParseScalarSpec(v: string)
    ensures var r := ParseScalar(v);
      && (r.Null? <==> Trim(v) == "null")
      && (r.Bool? <==> Trim(v) == "true" || Trim(v) == "false")
      && (r.Bool? ==> r.b == (Trim(v) == "true"))
      && (r.Num? <==> NumLiteral(Trim(v)).Some?)
      && (r.Num? ==> r.n == NumLiteral(Trim(v)).value)
      && (r.Str? ==> r.s == Trim(v))
      && !r.Arr? && !r.Obj? && WellFormed(r)
  {
  }

  // ---------------------------------------------------------- array headers

  /** The characters `[A-Za-z0-9_,\s]` of the column list. */
  predicate IsColumnChar(c: char) { IsWordChar(c) || c == ',' || IsSpace(c) }

  datatype Header = Header(key: string, count: nat, cols: seq<string>)

  function TrimAll(ss: seq<string>): (r: seq<string>)
    ensures |r| == |ss|
    ensures forall i :: 0 <= i < |ss| ==> r[i] == Trim(ss[i])
  {
    if ss == [] then [] else [Trim(ss[0])] + TrimAll(ss[1..])
  }

  /** The part `{cols}:` of a header, matched against `\{([A-Za-z0-9_,\s]+)\}:$`. */
  function ColumnList(tail: string): Option<seq<string>> {
    if |tail| < 4 || tail[0] != '{' || tail[|tail| - 2..] != "}:" then None
    else
      var cols := tail[1..|tail| - 2];
      if forall i :: 0 <= i < |cols| ==> IsColumnChar(cols[i]) then Some(TrimAll(Split(cols, ','))) else None
  }

  /** The part `n]{cols}:` of a header: the declared count and the columns. */
  function CountAndColumns(rest: string): Option<(nat, seq<string>)> {
    var d := DigitRun(rest);
    if d == 0 || d >= |rest| || rest[d] != ']' then None
    else match ColumnList(rest[d + 1..])
      case Some(cols) => Some((DigitsValue(rest[..d]), cols))
      case None => None
  }

  /** The match of `^([A-Za-z0-9_]+)\[(\d+)\]\{([A-Za-z0-9_,\s]+)\}:$` against `t`. */
  function HeaderMatch(t: string): (r: Option<Header>)
    ensures r.Some? ==> r.value.key != [] && StartsWith(t, r.value.key + "[")
    ensures r.Some? ==> forall i :: 0 <= i < |r.value.key| ==> IsWordChar(r.value.key[i])
  {
    var k := WordRun(t);
    if k == 0 || k >= |t| || t[k] != '[' then None
    else match CountAndColumns(t[k + 1..])
      case Some(cc) =>
        assert t[..k + 1] == t[..k] + "[";
        Some(Header(t[..k], cc.0, cc.1))
      case None => None
  }

  /** `parseArrayHeaderKey(s)`: key, advisory count and column names of a header line. */
  function ParseArrayHeaderKey(s: string): Option<Header> {
    HeaderMatch(Trim(s))
  }

  /** `isArrayHeader(s)`. */
  predicate IsArrayHeader(s: string) {
    ParseArrayHeaderKey(s).Some?
  }

  // ------------------------------------------------------ the other line kinds

  /** A trimmed line `t` opens a nested object: it ends in `:` and has no space. */
  predicate IsSection(t: string) {
    EndsWith(t, ":") && NoChar(t, ' ')
  }

  predicate NoLineTerminator(s: string) {
    forall i :: 0 <= i < |s| ==> !IsLineTerminator(s[i])
  }

  /**
   * The match of `^([^:]+):\s*(.*)$`: the trimmed key before the first colon
   * and the value text after the colon and its following whitespace. The
   * value must contain no line terminator, since `.` does not match one.
   */
  function MatchKeyValue(t: string): Option<(string, string)> {
    var idx := IndexOf(t, ':');
    if idx <= 0 then None
    else
      var value := TrimStart(t[idx + 1..]);
      if NoLineTerminator(value) then Some((Trim(t[..idx]), value)) else None
  }

  /** A match splits at the first colon, which is not the first character; a miss means there is no such colon or the value spans lines. */
  lemma MatchKeyValueSpec(t: string)
    ensures var r := MatchKeyValue(t);
      && (r.Some? ==> exists i :: 0 < i < |t| && t[i] == ':' && NoChar(t[..i], ':') && r.value.0 == Trim(t[..i]) && r.value.1 == TrimStart(t[i + 1..]))
      && (r.None? ==> NoChar(t, ':') || t[0] == ':' || !NoLineTerminator(TrimStart(t[IndexOf(t, ':') + 1..])))
  {
  }

  // ------------------------------------------------------------- the stack

  /** A stack entry: the indent of the line that opened it, its key and its fields so far. */
  datatype Frame = Frame(indent: int, key: string, fields: seq<Field>)

  /** The root entry (indent -1) is at the bottom and indents strictly increase upwards. */
  predicate StackOk(stack: seq<Frame>) {
    |stack| >= 1 && stack[0].indent == -1
    && forall a, b :: 0 <= a < b < |stack| ==> stack[a].indent < stack[b].indent
  }

  /** `stack.pop()`: the top object is stored under its key in the frame below. */
  function Plug(stack: seq<Frame>): (r: seq<Frame>)
    requires |stack| >= 2
    ensures |r| == |stack| - 1
    ensures forall a :: 0 <= a < |r| ==> r[a].indent == stack[a].indent
  {
    var top := stack[|stack| - 1];
    var parent := stack[|stack| - 2];
    stack[..|stack| - 1][|stack| - 2 := parent.(fields := Assign(parent.fields, top.key, Obj(top.fields)))]
  }

  /** The inner `while` of `parseTOON`: pop every entry whose indent is at least `ind`. */
  function PopTo(stack: seq<Frame>, ind: int): (r: seq<Frame>)
    requires |stack| >= 1
    ensures 1 <= |r| <= |stack|
    ensures forall a :: 0 <= a < |r| ==> r[a].indent == stack[a].indent
    ensures |r| == 1 || r[|r| - 1].indent < ind
    decreases |stack|
  {
    if |stack| > 1 && ind <= stack[|stack| - 1].indent then PopTo(Plug(stack), ind) else stack
  }

  /** The object the root stands for once every open entry is stored in its parent. */
  function Close(stack: seq<Frame>): seq<Field>
    requires |stack| >= 1
    decreases |stack|
  {
    if |stack| == 1 then stack[0].fields else Close(Plug(stack))
  }

  /** `ctx[k] = v` on the object at the top of the stack. */
  function SetTop(stack: seq<Frame>, k: string, v: Json): (r: seq<Frame>)
    requires |stack| >= 1
    ensures |r| == |stack|
    ensures forall a :: 0 <= a < |r| ==> r[a].indent == stack[a].indent
  {
    var top := stack[|stack| - 1];
    stack[|stack| - 1 := top.(fields := Assign(top.fields, k, v))]
  }

  /** The first index from `j` on whose line is not indented deeper than `ind`. */
  function ScanEnd(lines: seq<Line>, j: nat, ind: int): (r: nat)
    requires j <= |lines|
    ensures j <= r <= |lines|
    ensures forall k :: j <= k < r ==> lines[k].indent > ind
    ensures r < |lines| ==> lines[r].indent <= ind
    decreases |lines| - j
  {
    if j < |lines| && lines[j].indent > ind then ScanEnd(lines, j + 1, ind) else j
  }

  /** The array a header collects: every non-empty trimmed line in `[a, b)`, as text. */
  function Rows(lines: seq<Line>, a: nat, b: nat): seq<Json>
    requires a <= b <= |lines|
    decreases b - a
  {
    if a == b then []
    else
      var row := Trim(lines[b - 1].raw);
      Rows(lines, a, b - 1) + (if |row| > 0 then [Str(row)] else [])
  }

  /** An array header at line `i` stores the rows of the deeper lines after it under its key. */
  function HeaderStep(lines: seq<Line>, i: nat, s: seq<Frame>, key: string): (r: (nat, seq<Frame>))
    requires i < |lines| && |s| >= 1
    ensures i < r.0 <= |lines| && |r.1| >= 1
  {
    var j := ScanEnd(lines, i + 1, lines[i].indent);
    (j, SetTop(s, key, Arr(Rows(lines, i + 1, j))))
  }

  /** A section line `key:` stores a fresh object under `key` and pushes it. */
  function SectionStep(s: seq<Frame>, indent: nat, t: string): (r: seq<Frame>)
    requires |s| >= 1 && |t| >= 1
    ensures |r| == |s| + 1
  {
    var key := t[..|t| - 1];
    SetTop(s, key, Obj([])) + [Frame(indent, key, [])]
  }

  /** A `key: value` line stores the coerced value; any other line changes nothing. */
  function ValueStep(s: seq<Frame>, t: string): (r: seq<Frame>)
    requires |s| >= 1
    ensures |r| == |s|
  {
    match MatchKeyValue(t)
    case Some(kv) => SetTop(s, kv.0, ParseScalar(kv.1))
    case None => s
  }

  /** The line handlers, tried in order on line `i` once the stack `s` is popped. */
  function Dispatch(lines: seq<Line>, i: nat, s: seq<Frame>): (r: (nat, seq<Frame>))
    requires i < |lines| && |s| >= 1
    ensures i < r.0 <= |lines| && |r.1| >= 1
  {
    var t := Trim(lines[i].raw);
    var head := ParseArrayHeaderKey(t);
    if head.Some? then HeaderStep(lines, i, s, head.value.key)
    else if IsSection(t) then (i + 1, SectionStep(s, lines[i].indent, t))
    else (i + 1, ValueStep(s, t))
  }

  /** One iteration of the outer `while` of `parseTOON`, from line `i`. */
  function Step(lines: seq<Line>, i: nat, stack: seq<Frame>): (r: (nat, seq<Frame>))
    requires i < |lines| && |stack| >= 1
    ensures i < r.0 <= |lines| && |r.1| >= 1
  {
    Dispatch(lines, i, PopTo(stack, lines[i].indent))
  }

  /** The parse from line `i` on, with the given stack. */
  function Run(lines: seq<Line>, i: nat, stack: seq<Frame>): seq<Field>
    requires i <= |lines| && |stack| >= 1
    decreases |lines| - i
  {
    if i == |lines| then Close(stack)
    else
      var next := Step(lines, i, stack);
      Run(lines, next.0, next.1)
  }

  const EmptyStack: seq<Frame> := [Frame(-1, "", [])]

  /** What `parseTOON(input)` returns: the fields of the root object. */
  function Parse(input: string): seq<Field> {
    Run(ToLines(input), 0, EmptyStack)
  }

  /** Popping keeps the root at the bottom and the indents increasing. */
  lemma {:induction false} PopToKeepsStack(stack: seq<Frame>, ind: int)
    requires StackOk(stack)
    ensures StackOk(PopTo(stack, ind))
    decreases |stack|
  {
    if |stack| > 1 && ind <= stack[|stack| - 1].indent {
      var p := Plug(stack);
      assert StackOk(p);
      PopToKeepsStack(p, ind);
    }
  }

  /** After popping to a non-negative indent, the top entry is shallower than it. */
  lemma PopToBelow(stack: seq<Frame>, ind: int)
    requires StackOk(stack) && ind >= 0
    ensures var p := PopTo(stack, ind); p[|p| - 1].indent < ind
  {
    var p := PopTo(stack, ind);
    if |p| == 1 {
      assert p[0].indent == stack[0].indent;
    }
  }

  lemma SetTopKeepsStack(s: seq<Frame>, k: string, v: Json)
    requires StackOk(s)
    ensures StackOk(SetTop(s, k, v))
  {
    var r := SetTop(s, k, v);
    assert forall a :: 0 <= a < |r| ==> r[a].indent == s[a].indent;
  }

  lemma SectionKeepsStack(s: seq<Frame>, indent: nat, t: string)
    requires StackOk(s) && |t| >= 1
    requires |s| == 1 || s[|s| - 1].indent < indent
    ensures StackOk(SectionStep(s, indent, t))
  {
    var key := t[..|t| - 1];
    var u := SetTop(s, key, Obj([]));
    SetTopKeepsStack(s, key, Obj([]));
    assert u[|u| - 1].indent == s[|s| - 1].indent < indent;
    PushKeepsStack(u, Frame(indent, key, []));
  }

  /** Pushing a frame deeper than the top keeps the indents increasing. */
  lemma PushKeepsStack(u: seq<Frame>, f: Frame)
    requires StackOk(u) && u[|u| - 1].indent < f.indent
    ensures StackOk(u + [f])
  {
    var r := u + [f];
    forall a, b | 0 <= a < b < |r|
      ensures r[a].indent < r[b].indent
    {
      assert r[a] == u[a];
      if b < |u| {
        assert r[b] == u[b];
      } else if a < |u| - 1 {
        assert u[a].indent < u[|u| - 1].indent;
      }
    }
  }

  /** Every step keeps the root entry (indent -1) at the bottom and the indents strictly increasing. */
  lemma StepKeepsStack(lines: seq<Line>, i: nat, stack: seq<Frame>)
    requires i < |lines| && StackOk(stack)
    ensures StackOk(Step(lines, i, stack).1)
  {
    var indent := lines[i].indent;
    var s := PopTo(stack, indent);
    PopToKeepsStack(stack, indent);
    var t := Trim(lines[i].raw);
    var head := ParseArrayHeaderKey(t);
    if head.Some? {
      var r := HeaderStep(lines, i, s, head.value.key);
      assert Step(lines, i, stack) == r;
      SetTopKeepsStack(s, head.value.key, Arr(Rows(lines, i + 1, r.0)));
    } else if IsSection(t) {
      assert Step(lines, i, stack) == (i + 1, SectionStep(s, indent, t));
      SectionKeepsStack(s, indent, t);
    } else {
      assert Step(lines, i, stack) == (i + 1, ValueStep(s, t));
      var kv := MatchKeyValue(t);
      if kv.Some? {
        SetTopKeepsStack(s, kv.value.0, ParseScalar(kv.value.1));
      }
    }
  }

  /** The inner `while` that pops every entry indented at least as deep as the line. */
  method PopFrames(stack: seq<Frame>, indent: nat) returns (s: seq<Frame>)
    requires StackOk(stack)
    ensures s == PopTo(stack, indent)
  {
    s := stack;
    while |s| > 0 && indent <= s[|s| - 1].indent
      invariant StackOk(s)
      invariant PopTo(s, indent) == PopTo(stack, indent)
      decreases |s|
    {
      s := Plug(s);
    }
  }

  /** The inner `while` of an array block: collects the rows of the lines deeper than `indent`. */
  method CollectRows(lines: seq<Line>, start: nat, indent: nat) returns (i: nat, arr: seq<Json>)
    requires start <= |lines|
    ensures i == ScanEnd(lines, start, indent)
    ensures arr == Rows(lines, start, i)
  {
    i := start;
    arr := [];
    while i < |lines| && lines[i].indent > indent
      invariant start <= i <= |lines|
      invariant ScanEnd(lines, i, indent) == ScanEnd(lines, start, indent)
      invariant arr == Rows(lines, start, i)
      decreases |lines| - i
    {
      var row := Trim(lines[i].raw);
      if |row| > 0 {
        arr := arr + [Str(row)];
      }
      i := i + 1;
    }
  }

  /** `ctx[head.key] = arr` after collecting the deeper lines into `arr`. */
  method StoreArray(lines: seq<Line>, i: nat, s: seq<Frame>, key: string) returns (next: nat, r: seq<Frame>)
    requires i < |lines| && |s| >= 1
    ensures (next, r) == HeaderStep(lines, i, s, key)
  {
    var arr;
    next, arr := CollectRows(lines, i + 1, lines[i].indent);
    var top := s[|s| - 1];
    r := s[|s| - 1 := top.(fields := Assign(top.fields, key, Arr(arr)))];
  }

  /** `ctx[key] = obj; stack.push({ obj, indent })` for a section line `t`. */
  method OpenSection(s: seq<Frame>, indent: nat, t: string) returns (r: seq<Frame>)
    requires |s| >= 1 && |t| >= 1
    ensures r == SectionStep(s, indent, t)
  {
    var key := t[..|t| - 1];
    var top := s[|s| - 1];
    r := s[|s| - 1 := top.(fields := Assign(top.fields, key, Obj([])))];
    r := r + [Frame(indent, key, [])];
  }

  /** `ctx[key] = parseScalar(value)` when `t` is a `key: value` line. */
  method StoreValue(s: seq<Frame>, t: string) returns (r: seq<Frame>)
    requires |s| >= 1
    ensures r == ValueStep(s, t)
  {
    r := s;
    var kv := MatchKeyValue(t);
    if kv.Some? {
      var top := s[|s| - 1];
      r := s[|s| - 1 := top.(fields := Assign(top.fields, kv.value.0, ParseScalar(kv.value.1)))];
    }
  }

  /** The body of the outer `while` of `parseTOON`: handles the line at `i`. */
  method ParseLine(lines: seq<Line>, i: nat, stack: seq<Frame>) returns (next: nat, s: seq<Frame>)
    requires i < |lines| && StackOk(stack)
    ensures (next, s) == Step(lines, i, stack)
  {
    var indent := lines[i].indent;
    s := PopFrames(stack, indent);
    var t := Trim(lines[i].raw);
    var head := ParseArrayHeaderKey(t);
    if head.Some? {
      next, s := StoreArray(lines, i, s, head.value.key);
    } else if EndsWith(t, ":") && NoChar(t, ' ') {
      s := OpenSection(s, indent, t);
      next := i + 1;
    } else {
      s := StoreValue(s, t);
      next := i + 1;
    }
  }

  /** `parseTOON`: the imperative stack parser. */
  method ParseTOON(input: string) returns (root: seq<Field>)
    ensures root == Parse(input)
  {
    var lines := ToLines(input);
    var stack := EmptyStack;
    var i := 0;
    while i < |lines|
      invariant i <= |lines|
      invariant StackOk(stack)
      invariant Run(lines, i, stack) == Parse(input)
      decreases |lines| - i
    {
      StepKeepsStack(lines, i, stack);
      i, stack := ParseLine(lines, i, stack);
    }
    root := Close(stack);
  }

  // ----------------------------------------------------------- looksLikeTOON

  function ColonLines(ls: seq<string>): (n: nat)
    ensures n <= |ls|
  {
    if ls == [] then 0 else (if Contains(ls[0], ":") then 1 else 0) + ColonLines(ls[1..])
  }

  /** `s` starts with a match of `\[[0-9]+\]\{`. */
  predicate HeaderMarkAt(s: string) {
    |s| > 0 && s[0] == '['
    && var k := DigitRun(s[1..]);
       k > 0 && k + 2 < |s| && s[k + 1] == ']' && s[k + 2] == '{'
  }

  /** `/\[[0-9]+\]\{/.test(s)`. */
  predicate HasHeaderMark(s: string)
    decreases |s|
  {
    HeaderMarkAt(s) || (s != [] && HasHeaderMark(s[1..]))
  }

  /** `looksLikeTOON(s)`. */
  function LooksLikeTOON(s: string): (r: bool)
    ensures s == "" ==> !r
    ensures s != "" && HasHeaderMark(s) ==> r
  {
    if s == "" then false
    else
      var ls := Split(s, '\n');
      ColonLines(ls) >= Min(3, (|ls| + 1) / 2) || HasHeaderMark(s)
  }

  function Min(a: int, b: int): int { if a <= b then a else b }
}
