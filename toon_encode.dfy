/**
 * lib/toon/encode.ts: the older TOON codec. `toPrimitive` coerces scalars,
 * `parseToon` is a second indentation-stack parser (tabs count as two
 * spaces, `key:` opens a nested object, `[...]` and `{...}` segments are
 * removed from keys), `stringifyToon` writes objects as `key: value` lines
 * and arrays as `- item` bullets, and `wantsToon` / `isToonContent` test
 * request headers.
 *
 * The stack is the same zipper as in `ToonParse`: each frame holds the
 * fields of its object and popping stores the object under its key below.
 */
module ToonEncode {
  import opened Wrappers
  import opened JsText
  import opened JsonValue
  import opened ToonParse
  import opened ToonParseProps

  // ------------------------------------------------------------ toPrimitive

  /**
   * The finite number `Number(t)` gives for a decimal literal
   * `[+-]?(\d+\.?\d*|\.\d+)`; `None` for any other text.
   */
  function DecimalLiteral(t: string): (r: Option<Decimal>)
    ensures r.Some? ==> Canonical(r.value)
  {
    var signed := |t| > 0 && (t[0] == '-' || t[0] == '+');
    var body := if signed then t[1..] else t;
    var sign := if |t| > 0 && t[0] == '-' then -1 else 1;
    var k := DigitRun(body);
    if k == |body| then
      if k == 0 then None else Some(Normalize(sign * DigitsValue(body), 0))
    else if body[k] == '.' && AllDigits(body[k + 1..]) && (k > 0 || k + 1 < |body|) then
      var frac := body[k + 1..];
      Some(Normalize(sign * (DigitsValue(body[..k]) * Pow10(|frac|) + DigitsValue(frac)), |frac|))
    else None
  }

  /** `toPrimitive(v)`. */
  function ToPrimitive(v: string): Json {
    var t := Trim(v);
    if t == "" then Str("")
    else if t == "null" then Null
    else if t == "true" then Bool(true)
    else if t == "false" then Bool(false)
    else match DecimalLiteral(t)
      case Some(d) => Num(d)
      case None => Str(t)
  }

  /** The precedence of `toPrimitive`: empty, `null`, booleans, numbers, then text. */
  lemma ToPrimitiveSpec(v: string)
    ensures var r := ToPrimitive(v); var t := Trim(v);
      && (t == "" ==> r == Str(""))
      && (r.Null? <==> t == "null")
      && (r.Bool? <==> t == "true" || t == "false")
      && (r.Bool? ==> r.b == (t == "true"))
      && (r.Num? <==> t != "" && DecimalLiteral(t).Some?)
      && (r.Num? ==> r.n == DecimalLiteral(t).value)
      && (r.Str? ==> r.s == t)
      && !r.Arr? && !r.Obj? && WellFormed(r)
  {
  }

  // -------------------------------------------------------------- one line

  /** `raw.replace(/\t/g, '  ')`. */
  function ExpandTabs(s: string): (r: string)
    ensures NoChar(r, '\t')
  {
    if s == [] then []
    else (if s[0] == '\t' then "  " else [s[0]]) + ExpandTabs(s[1..])
  }

  /** The index of the first `c` in `s` that a lazy `.*?` can reach: no line terminator before it. */
  function SegmentEnd(s: string, c: char): (r: Option<nat>)
    ensures r.Some? ==> r.value < |s| && s[r.value] == c
  {
    if s == [] then None
    else if s[0] == c then Some(0)
    else if IsLineTerminator(s[0]) then None
    else match SegmentEnd(s[1..], c)
      case Some(k) => Some(k + 1)
      case None => None
  }

  /** `s.replace(/\[.*?\]|\{.*?\}/g, '')`, scanning from the left. */
  function StripSegments(s: string): (r: string)
    ensures |r| <= |s|
    decreases |s|
  {
    if s == [] then []
    else
      var close := if s[0] == '[' then ']' else '}';
      var e := SegmentEnd(s[1..], close);
      if (s[0] == '[' || s[0] == '{') && e.Some? then StripSegments(s[e.value + 2..])
      else [s[0]] + StripSegments(s[1..])
  }

  /** The key a `keyRaw` names once `[...]` / `{...}` suffixes are removed. */
  function NormalizeKey(keyRaw: string): string {
    Trim(StripSegments(keyRaw))
  }

  /** A line that `parseToon` acts on: its indent level, normalised key and trimmed value. */
  datatype Entry = Entry(indent: nat, key: string, value: string)

  /** The entry on the physical line `raw`; `None` for a blank line or one without `:`. */
  function LineEntry(raw: string): Option<Entry> {
    var line := TrimEnd(ExpandTabs(raw));
    if Trim(line) == "" then None
    else
      var indent := LeadingBlanks(line) / 2;
      ContentEntry(indent, line[indent * 2..])
  }

  /** The entry `content` holds at `indent`: split at its first `:`. */
  function ContentEntry(indent: nat, content: string): Option<Entry> {
    var idx := IndexOf(content, ':');
    if idx == -1 then None else Some(ColonEntry(indent, content, idx))
  }

  /** The entry whose key is `content` before position `idx` and whose value is what follows it. */
  function ColonEntry(indent: nat, content: string, idx: nat): Entry
    requires idx < |content|
  {
    Entry(indent, NormalizeKey(Trim(content[..idx])), Trim(content[idx + 1..]))
  }

  /** `key:` stores and pushes a fresh object; `key: value` stores the coerced value. */
  function Store(s: seq<Frame>, e: Entry): (r: seq<Frame>)
    requires |s| >= 1
    ensures |r| >= 1
  {
    if e.value == "" then SetTop(s, e.key, Obj([])) + [Frame(e.indent, e.key, [])]
    else SetTop(s, e.key, ToPrimitive(e.value))
  }

  /** What one iteration of the `for` loop of `parseToon` makes of the physical line `raw`. */
  function LineStep(stack: seq<Frame>, raw: string): (r: seq<Frame>)
    requires |stack| >= 1
    ensures |r| >= 1
  {
    match LineEntry(raw)
    case None => stack
    case Some(e) => Store(PopTo(stack, e.indent), e)
  }

  /** The loop over the physical lines `ls`, from the stack `stack`. */
  function Feed(stack: seq<Frame>, ls: seq<string>): (r: seq<Frame>)
    requires |stack| >= 1
    ensures |r| >= 1
    decreases |ls|
  {
    if ls == [] then stack else Feed(LineStep(stack, ls[0]), ls[1..])
  }

  /** What `parseToon(input)` returns: the fields of the root object. */
  function Decode(input: string): seq<Field> {
    Close(Feed(EmptyStack, Split(ReplaceCrlf(input), '\n')))
  }

  // ------------------------------------------------------ the root is kept

  /** Storing keeps the root at the bottom of the stack and the indents increasing. */
  lemma StoreKeepsStack(s: seq<Frame>, e: Entry)
    requires StackOk(s) && s[|s| - 1].indent < e.indent
    ensures StackOk(Store(s, e))
  {
    var v := if e.value == "" then Obj([]) else ToPrimitive(e.value);
    SetTopKeepsStack(s, e.key, v);
    if e.value == "" {
      var u := SetTop(s, e.key, Obj([]));
      var r := u + [Frame(e.indent, e.key, [])];
      assert forall a :: 0 <= a < |u| ==> r[a] == u[a];
    }
  }

  /** A line keeps the root at the bottom of the stack and the indents increasing. */
  lemma LineStepKeepsStack(stack: seq<Frame>, raw: string)
    requires StackOk(stack)
    ensures StackOk(LineStep(stack, raw))
  {
    match LineEntry(raw)
    case None =>
    case Some(e) => EntryKeepsStack(stack, e);
  }

  /** Popping to an entry's indent and storing it keeps the stack invariant. */
  lemma EntryKeepsStack(stack: seq<Frame>, e: Entry)
    requires StackOk(stack)
    ensures StackOk(Store(PopTo(stack, e.indent), e))
  {
    PopToKeepsStack(stack, e.indent);
    PopToBelow(stack, e.indent);
    StoreKeepsStack(PopTo(stack, e.indent), e);
  }

  /**
   * The root entry (indent -1) is never popped, so the parent lookup of
   * every line finds an object.
   */
  lemma {:induction false} FeedKeepsStack(stack: seq<Frame>, ls: seq<string>)
    requires StackOk(stack)
    ensures StackOk(Feed(stack, ls))
    decreases |ls|
  {
    if ls != [] {
      LineStepKeepsStack(stack, ls[0]);
      FeedKeepsStack(LineStep(stack, ls[0]), ls[1..]);
    }
  }

  // -------------------------------------------------------------- parseToon

  /** `parent[key] = v` on the object at the top of the stack. */
  method StoreKey(s: seq<Frame>, key: string, v: Json) returns (r: seq<Frame>)
    requires |s| >= 1
    ensures r == SetTop(s, key, v)
  {
    var top := s[|s| - 1];
    r := s[|s| - 1 := top.(fields := Assign(top.fields, key, v))];
  }

  /** Half the leading blanks, doubled, still fits in the line. */
  lemma HalfIndent(n: nat, len: nat)
    requires n <= len
    ensures (n / 2) * 2 <= len
  {
  }

  /** The start of the loop body: the cleaned line, its indent, and the split at the first `:`. */
  method ReadLine(raw: string) returns (entry: Option<Entry>)
    ensures entry == LineEntry(raw)
  {
    var line := TrimEnd(ExpandTabs(raw));
    if Trim(line) == "" {
      return None;
    }
    var indent := LeadingBlanks(line) / 2;
    HalfIndent(LeadingBlanks(line), |line|);
    var content := line[indent * 2..];
    entry := SplitAtColon(indent, content);
  }

  /** The split of the indented content at its first `:` into key and value. */
  method SplitAtColon(indent: nat, content: string) returns (entry: Option<Entry>)
    ensures entry == ContentEntry(indent, content)
  {
    var idx := IndexOf(content, ':');
    if idx == -1 {
      entry := None;
    } else {
      entry := Some(ColonEntry(indent, content, idx));
    }
  }

  /** One iteration of the `parseToon` loop: read the line, pop, then store or open an entry. */
  method ParseLineStep(stack: seq<Frame>, raw: string) returns (s: seq<Frame>)
    requires StackOk(stack)
    ensures StackOk(s) && s == LineStep(stack, raw)
  {
    LineStepKeepsStack(stack, raw);
    var entry := ReadLine(raw);
    s := stack;
    if entry.Some? {
      var e := entry.value;
      s := PopFrames(stack, e.indent);
      if e.value == "" {
        s := StoreKey(s, e.key, Obj([]));
        s := s + [Frame(e.indent, e.key, [])];
      } else {
        s := StoreKey(s, e.key, ToPrimitive(e.value));
      }
    }
  }

  /** Feeding the lines from `i` on is one step, then the lines from `i + 1` on. */
  lemma FeedFrom(stack: seq<Frame>, lines: seq<string>, i: nat)
    requires |stack| >= 1 && i < |lines|
    ensures Feed(stack, lines[i..]) == Feed(LineStep(stack, lines[i]), lines[i + 1..])
  {
    assert lines[i..][1..] == lines[i + 1..];
  }

  /** The `for` loop of `parseToon` over the physical lines, with the explicit stack. */
  method FeedLines(lines: seq<string>) returns (stack: seq<Frame>)
    ensures StackOk(stack) && stack == Feed(EmptyStack, lines)
  {
    stack := EmptyStack;
    var i := 0;
    while i < |lines|
      invariant i <= |lines|
      invariant StackOk(stack)
      invariant Feed(stack, lines[i..]) == Feed(EmptyStack, lines)
      decreases |lines| - i
    {
      FeedFrom(stack, lines, i);
      LineStepKeepsStack(stack, lines[i]);
      stack := ParseLineStep(stack, lines[i]);
      i := i + 1;
    }
  }

  /** `parseToon`: CRLF to LF, the physical lines, the loop, then the root object. */
  method ParseToon(input: string) returns (root: seq<Field>)
    ensures root == Decode(input)
  {
    var text := ReplaceCrlf(input);
    var lines := Split(text, '\n');
    var stack := FeedLines(lines);
    root := Close(stack);
  }

  // ----------------------------------------------------------- stringifyToon

  /** `typeof item === 'object'`: true for `null`, arrays and objects. */
  predicate TypeofObject(v: Json) {
    v.Null? || v.Arr? || v.Obj?
  }

  /** `stringifyToon(value, indent)`. */
  function Stringify(value: Json, indent: nat): string
    decreases value, 3
  {
    match value
    case Null => "null"
    case Bool(_) => JsString(value)
    case Num(_) => JsString(value)
    case Str(s) => s
    case Arr(items) => Join(Bullets(items, indent), "\n")
    case Obj(f) => Join(ObjLines(f, indent), "\n")
  }

  /** The `map` of the array branch: `- ` and the item, a nested item on the lines after. */
  function Bullets(items: seq<Json>, indent: nat): (r: seq<string>)
    ensures |r| == |items|
    decreases items, 2
  {
    seq(|items|, q requires 0 <= q < |items| =>
      Pad(indent) + "- "
      + (if TypeofObject(items[q]) then "\n" + Stringify(items[q], indent + 1) else Stringify(items[q], 0)))
  }

  /** The lines the object branch pushes for the items of an array entry. */
  function ItemBullets(items: seq<Json>, indent: nat): seq<string>
    decreases items, 1
  {
    if items == [] then []
    else
      var item := items[|items| - 1];
      ItemBullets(items[..|items| - 1], indent)
      + (if item.Null? || !TypeofObject(item) then [Pad(indent + 1) + "- " + JsString(item)]
         else [Pad(indent + 1) + "-", Stringify(item, indent + 2)])
  }

  /** The lines the object branch pushes for the entry `k: v`. */
  function EntryLines(k: string, v: Json, indent: nat): (r: seq<string>)
    ensures |r| >= 1
    decreases v, 1
  {
    match v
    case Arr(items) => [Pad(indent) + k + ":"] + ItemBullets(items, indent)
    case Obj(g) => [Pad(indent) + k + ":", Join(ObjLines(g, indent + 1), "\n")]
    case _ => [Pad(indent) + k + ": " + JsString(v)]
  }

  /** The local `lines` array of the object branch after the entries `f`. */
  function ObjLines(f: seq<Field>, indent: nat): seq<string>
    decreases f, 2
  {
    if f == [] then []
    else ObjLines(f[..|f| - 1], indent) + EntryLines(f[|f| - 1].key, f[|f| - 1].value, indent)
  }

  /** The lines pushed for the items of an array entry, by the inner `for` loop. */
  method PushItems(lines: seq<string>, items: seq<Json>, indent: nat) returns (out: seq<string>)
    ensures out == lines + ItemBullets(items, indent)
    decreases items, 0
  {
    out := lines;
    var j := 0;
    while j < |items|
      invariant j <= |items|
      invariant out == lines + ItemBullets(items[..j], indent)
    {
      var item := items[j];
      if item.Null? || !TypeofObject(item) {
        out := out + [Pad(indent + 1) + "- " + JsString(item)];
      } else {
        out := out + [Pad(indent + 1) + "-"];
        var sub := StringifyToon(item, indent + 2);
        out := out + [sub];
      }
      assert items[..j + 1][..j] == items[..j];
      j := j + 1;
    }
    assert items[..j] == items;
  }

  /** `stringifyToon`: the object branch's `for` loop, with recursive calls for nested values. */
  method StringifyToon(value: Json, indent: nat) returns (out: string)
    ensures out == Stringify(value, indent)
    decreases value, 1
  {
    if value.Null? {
      return "null";
    }
    if !TypeofObject(value) {
      if value.Str? {
        return value.s;
      }
      return JsString(value);
    }
    if value.Arr? {
      return Join(Bullets(value.items, indent), "\n");
    }
    var obj := value.fields;
    var lines: seq<string> := [];
    var i := 0;
    while i < |obj|
      invariant i <= |obj|
      invariant lines == ObjLines(obj[..i], indent)
    {
      lines := PushEntry(lines, obj[i].key, obj[i].value, indent);
      assert obj[..i + 1][..i] == obj[..i];
      i := i + 1;
    }
    assert obj[..i] == obj;
    out := Join(lines, "\n");
  }

  /** One iteration of the object branch's loop: the lines for the entry `k: v`. */
  method PushEntry(lines: seq<string>, k: string, v: Json, indent: nat) returns (out: seq<string>)
    ensures out == lines + EntryLines(k, v, indent)
    decreases v, 2
  {
    if v.Null? || !TypeofObject(v) {
      out := lines + [Pad(indent) + k + ": " + JsString(v)];
    } else if v.Arr? {
      out := PushItems(lines + [Pad(indent) + k + ":"], v.items, indent);
    } else {
      var sub := StringifyToon(v, indent + 1);
      out := lines + [Pad(indent) + k + ":", sub];
    }
  }

  // ------------------------------------------------------- line properties

  lemma {:induction false} ExpandTabsKeeps(s: string, c: char)
    requires NoChar(s, c) && c != ' '
    ensures NoChar(ExpandTabs(s), c)
  {
    if s != [] {
      ExpandTabsKeeps(s[1..], c);
    }
  }

  lemma TrimEndKeeps(s: string, c: char)
    requires NoChar(s, c)
    ensures NoChar(TrimEnd(s), c)
  {
    TrimEndSpec(s);
  }

  /** A line containing no `:` is ignored: the stack is unchanged. */
  lemma NoColonIgnored(stack: seq<Frame>, raw: string)
    requires |stack| >= 1 && NoChar(raw, ':')
    ensures LineStep(stack, raw) == stack
  {
    ExpandTabsKeeps(raw, ':');
    var line := TrimEnd(ExpandTabs(raw));
    TrimEndKeeps(ExpandTabs(raw), ':');
    if Trim(line) != "" {
      var indent := LeadingBlanks(line) / 2;
      var content := line[indent * 2..];
      assert NoChar(content, ':');
    }
  }

  lemma {:induction false} ExpandTabsConcat(a: string, b: string)
    ensures ExpandTabs(a + b) == ExpandTabs(a) + ExpandTabs(b)
  {
    if a == [] {
      assert a + b == b;
    } else {
      assert (a + b)[0] == a[0] && (a + b)[1..] == a[1..] + b;
      ExpandTabsConcat(a[1..], b);
    }
  }

  lemma {:induction false} ExpandTabsPlain(s: string)
    requires NoChar(s, '\t')
    ensures ExpandTabs(s) == s
  {
    if s != [] {
      ExpandTabsPlain(s[1..]);
    }
  }

  /** A tab indents, and counts, exactly as two spaces. */
  lemma TabAsTwoSpaces(stack: seq<Frame>, a: string, b: string)
    requires |stack| >= 1
    ensures LineStep(stack, a + "\t" + b) == LineStep(stack, a + "  " + b)
  {
    ExpandTabsConcat(a + "\t", b);
    ExpandTabsConcat(a, "\t");
    ExpandTabsConcat(a + "  ", b);
    ExpandTabsConcat(a, "  ");
    assert ExpandTabs("\t") == "  " == ExpandTabs("  ") by {
      assert "  "[1..] == " ";
      assert " "[1..] == [];
    }
  }

  /** Replacing every tab by two spaces on one line does not change what the line does. */
  lemma LineExpanded(stack: seq<Frame>, raw: string)
    requires |stack| >= 1
    ensures LineStep(stack, ExpandTabs(raw)) == LineStep(stack, raw)
  {
    EntryExpanded(raw);
  }

  lemma EntryExpanded(raw: string)
    ensures LineEntry(ExpandTabs(raw)) == LineEntry(raw)
  {
    ExpandTabsPlain(ExpandTabs(raw));
  }

  function ExpandAll(ls: seq<string>): (r: seq<string>)
    ensures |r| == |ls|
    ensures forall q :: 0 <= q < |ls| ==> r[q] == ExpandTabs(ls[q])
  {
    seq(|ls|, q requires 0 <= q < |ls| => ExpandTabs(ls[q]))
  }

  lemma {:induction false} FeedExpanded(stack: seq<Frame>, ls: seq<string>)
    requires |stack| >= 1
    ensures Feed(stack, ExpandAll(ls)) == Feed(stack, ls)
    decreases |ls|
  {
    if ls != [] {
      var e := ExpandAll(ls);
      assert e[1..] == ExpandAll(ls[1..]);
      LineExpanded(stack, ls[0]);
      FeedExpanded(LineStep(stack, ls[0]), ls[1..]);
    }
  }

  lemma SplitCons(c: char, x: string)
    requires c != '\n'
    ensures Split([c] + x, '\n') == [[c] + Split(x, '\n')[0]] + Split(x, '\n')[1..]
  {
    assert ([c] + x)[1..] == x;
  }

  lemma {:induction false} SplitExpanded(s: string)
    ensures Split(ExpandTabs(s), '\n') == ExpandAll(Split(s, '\n'))
  {
    if s != [] {
      SplitExpanded(s[1..]);
      if s[0] == '\n' {
        SplitExpandedBreak(s);
      } else {
        SplitExpandedChar(s);
      }
    }
  }

  lemma SplitExpandedBreak(s: string)
    requires s != [] && s[0] == '\n'
    requires Split(ExpandTabs(s[1..]), '\n') == ExpandAll(Split(s[1..], '\n'))
    ensures Split(ExpandTabs(s), '\n') == ExpandAll(Split(s, '\n'))
  {
    var x := ExpandTabs(s[1..]);
    var t := Split(s[1..], '\n');
    assert ExpandTabs(s) == "\n" + x;
    assert ("\n" + x)[1..] == x;
    assert Split(s, '\n') == [""] + t;
    assert ExpandAll([""] + t) == [""] + ExpandAll(t);
  }

  /** `ExpandTabs` of a line starting with `c`, as the first character's expansion and the rest's. */
  lemma ExpandHead(s: string)
    requires s != []
    ensures ExpandTabs(s) == ExpandTabs([s[0]]) + ExpandTabs(s[1..])
    ensures ExpandTabs([s[0]]) == if s[0] == '\t' then "  " else [s[0]]
  {
    assert [s[0]][1..] == [];
  }

  lemma ExpandAllCons(a: string, rest: seq<string>)
    ensures ExpandAll([a] + rest) == [ExpandTabs(a)] + ExpandAll(rest)
  {
  }

  /** Splitting an expanded text whose first character (not a break) expands to `head`. */
  lemma SplitHead(c: char, x: string)
    requires c != '\n'
    ensures var head := if c == '\t' then "  " else [c];
      Split(head + x, '\n') == [head + Split(x, '\n')[0]] + Split(x, '\n')[1..]
  {
    if c == '\t' {
      var xs := Split(x, '\n');
      SplitCons(' ', x);
      SplitCons(' ', [' '] + x);
      assert "  " + x == [' '] + ([' '] + x);
      var u := Split([' '] + x, '\n');
      assert u[0] == [' '] + xs[0] && u[1..] == xs[1..];
      assert [' '] + ([' '] + xs[0]) == "  " + xs[0];
    } else {
      SplitCons(c, x);
    }
  }

  lemma SplitExpandedChar(s: string)
    requires s != [] && s[0] != '\n'
    requires Split(ExpandTabs(s[1..]), '\n') == ExpandAll(Split(s[1..], '\n'))
    ensures Split(ExpandTabs(s), '\n') == ExpandAll(Split(s, '\n'))
  {
    var c := s[0];
    var x := ExpandTabs(s[1..]);
    var t := Split(s[1..], '\n');
    var head := ExpandTabs([c]);
    ExpandHead(s);
    SplitCons(c, s[1..]);
    assert [c] + s[1..] == s;
    SplitHead(c, x);
    ExpandTabsConcat([c], t[0]);
    ExpandAllCons(t[0], t[1..]);
    assert [t[0]] + t[1..] == t;
    ExpandAllCons([c] + t[0], t[1..]);
  }

  lemma ExpandTabsHead(s: string)
    requires s != []
    ensures ExpandTabs(s) != [] && ExpandTabs(s)[0] == (if s[0] == '\t' then ' ' else s[0])
  {
  }

  lemma {:induction false} CrlfExpanded(s: string)
    ensures ReplaceCrlf(ExpandTabs(s)) == ExpandTabs(ReplaceCrlf(s))
    decreases |s|
  {
    if |s| >= 2 && s[0] == '\r' && s[1] == '\n' {
      CrlfExpanded(s[2..]);
      CrlfPairStep(s);
    } else if s != [] {
      CrlfExpanded(s[1..]);
      assert s == [s[0]] + s[1..];
      CrlfCharStep(s[0], s[1..]);
    }
  }

  /** A leading CRLF is kept by the tab expansion and then replaced. */
  lemma CrlfPairStep(s: string)
    requires |s| >= 2 && s[0] == '\r' && s[1] == '\n'
    requires ReplaceCrlf(ExpandTabs(s[2..])) == ExpandTabs(ReplaceCrlf(s[2..]))
    ensures ReplaceCrlf(ExpandTabs(s)) == ExpandTabs(ReplaceCrlf(s))
  {
    var rest := s[2..];
    assert s[1..][1..] == rest;
    assert ExpandTabs(s) == "\r\n" + ExpandTabs(rest);
    assert ("\r\n" + ExpandTabs(rest))[2..] == ExpandTabs(rest);
    assert ExpandTabs("\n" + ReplaceCrlf(rest)) == "\n" + ExpandTabs(ReplaceCrlf(rest)) by {
      assert ("\n" + ReplaceCrlf(rest))[1..] == ReplaceCrlf(rest);
    }
  }

  /** A leading character that does not start a CRLF commutes with both rewrites. */
  lemma CrlfCharStep(c: char, t: string)
    requires !(c == '\r' && t != [] && t[0] == '\n')
    requires ReplaceCrlf(ExpandTabs(t)) == ExpandTabs(ReplaceCrlf(t))
    ensures ReplaceCrlf(ExpandTabs([c] + t)) == ExpandTabs(ReplaceCrlf([c] + t))
  {
    var x := ExpandTabs(t);
    if x != [] {
      ExpandTabsHead(t);
    }
    ExpandTabsCons(c, t);
    ReplaceCrlfCons(c, t);
    ExpandTabsCons(c, ReplaceCrlf(t));
    HeadCrlf(c, x);
  }

  /** `ExpandTabs` rewrites the first character and then the rest. */
  lemma ExpandTabsCons(c: char, t: string)
    ensures ExpandTabs([c] + t) == (if c == '\t' then "  " else [c]) + ExpandTabs(t)
  {
    var y := [c] + t;
    assert y[0] == c && y[1..] == t;
  }

  /** The expansion of a character that is not a CR before an LF is copied by `ReplaceCrlf`. */
  lemma HeadCrlf(c: char, x: string)
    requires !(c == '\r' && x != [] && x[0] == '\n')
    ensures var head := if c == '\t' then "  " else [c];
      ReplaceCrlf(head + x) == head + ReplaceCrlf(x)
  {
    if c == '\t' {
      TabCrlf(x);
    } else {
      ReplaceCrlfCons(c, x);
    }
  }

  /** The two spaces of an expanded tab are copied by `ReplaceCrlf`. */
  lemma TabCrlf(x: string)
    ensures ReplaceCrlf("  " + x) == "  " + ReplaceCrlf(x)
  {
    var y := [' '] + x;
    ReplaceCrlfCons(' ', x);
    ReplaceCrlfCons(' ', y);
    assert "  " + x == [' '] + y;
    assert [' '] + ([' '] + ReplaceCrlf(x)) == "  " + ReplaceCrlf(x);
  }

  /** A character other than a CR before an LF is copied by `ReplaceCrlf`. */
  lemma ReplaceCrlfCons(c: char, x: string)
    requires !(c == '\r' && x != [] && x[0] == '\n')
    ensures ReplaceCrlf([c] + x) == [c] + ReplaceCrlf(x)
  {
    var y := [c] + x;
    assert y[0] == c && y[1..] == x;
  }

  /**
   * Replacing every tab by two spaces does not change the parse: visually
   * equivalent inputs give the same tree.
   */
  lemma TabsAsSpaces(input: string)
    ensures Decode(ExpandTabs(input)) == Decode(input)
  {
    CrlfExpanded(input);
    SplitExpanded(ReplaceCrlf(input));
    FeedExpanded(EmptyStack, Split(ReplaceCrlf(input), '\n'));
  }

  /** Lines separated by CRLF parse exactly as the same lines separated by LF. */
  lemma CrlfAsLf(ls: seq<string>)
    requires forall i :: 0 <= i < |ls| ==> NoCrLf(ls[i])
    ensures Decode(Join(ls, "\r\n")) == Decode(Join(ls, "\n"))
  {
    JoinCrlf(ls);
    JoinLfNoCr(ls);
    ReplaceCrlfPlain(Join(ls, "\n"));
  }

  // ------------------------------------------------------------------ keys

  lemma {:induction false} StripPlain(k: string)
    requires NoChar(k, '[') && NoChar(k, '{')
    ensures StripSegments(k) == k
  {
    if k != [] {
      StripPlain(k[1..]);
    }
  }

  lemma {:induction false} SegmentEndOf(a: string, c: char, rest: string)
    requires NoChar(a, c) && (forall q :: 0 <= q < |a| ==> !IsLineTerminator(a[q])) && !IsLineTerminator(c)
    ensures SegmentEnd(a + [c] + rest, c) == Some(|a|)
  {
    if a != [] {
      assert (a + [c] + rest)[1..] == a[1..] + [c] + rest;
      SegmentEndOf(a[1..], c, rest);
    }
  }

  /** A segment `[a]` (or `{a}`) at the start is removed whole. */
  lemma StripOne(o: char, a: string, c: char, rest: string)
    requires (o == '[' && c == ']') || (o == '{' && c == '}')
    requires NoChar(a, c) && forall q :: 0 <= q < |a| ==> !IsLineTerminator(a[q])
    ensures StripSegments([o] + a + [c] + rest) == StripSegments(rest)
  {
    var s := [o] + a + [c] + rest;
    assert s[1..] == a + [c] + rest;
    SegmentEndOf(a, c, rest);
    assert s[|a| + 2..] == rest;
  }

  lemma {:induction false} StripAfter(k: string, rest: string)
    requires NoChar(k, '[') && NoChar(k, '{')
    ensures StripSegments(k + rest) == k + StripSegments(rest)
  {
    if k != [] {
      assert (k + rest)[1..] == k[1..] + rest;
      StripAfter(k[1..], rest);
      assert [k[0]] + (k[1..] + StripSegments(rest)) == k + StripSegments(rest);
    } else {
      assert k + rest == rest;
    }
  }

  /** The segments `[a]{b}` after `k` are removed whole. */
  lemma StripSuffixes(k: string, a: string, b: string)
    requires NoChar(k, '[') && NoChar(k, '{')
    requires NoChar(a, ']') && forall q :: 0 <= q < |a| ==> !IsLineTerminator(a[q])
    requires NoChar(b, '}') && forall q :: 0 <= q < |b| ==> !IsLineTerminator(b[q])
    ensures StripSegments(k + (['['] + a + [']'] + (['{'] + b + ['}'] + []))) == k
  {
    var tail := ['{'] + b + ['}'] + [];
    StripOne('{', b, '}', []);
    StripOne('[', a, ']', tail);
    StripAfter(k, ['['] + a + [']'] + tail);
    assert k + [] == k;
  }

  lemma SuffixText(k: string, a: string, b: string)
    ensures k + "[" + a + "]" + "{" + b + "}" == k + (['['] + a + [']'] + (['{'] + b + ['}'] + []))
  {
  }

  /**
   * Key normalisation removes `[...]` and `{...}` suffixes: `k[a]{b}`
   * names the key `k`, as the encoder's `tags[2]{text}` names `tags`.
   */
  lemma KeySuffixes(k: string, a: string, b: string)
    requires NoChar(k, '[') && NoChar(k, '{') && Trimmed(k)
    requires NoChar(a, ']') && forall q :: 0 <= q < |a| ==> !IsLineTerminator(a[q])
    requires NoChar(b, '}') && forall q :: 0 <= q < |b| ==> !IsLineTerminator(b[q])
    ensures NormalizeKey(k + "[" + a + "]" + "{" + b + "}") == k
  {
    SuffixText(k, a, b);
    StripSuffixes(k, a, b);
    TrimOfTrimmed(k);
  }

  /** A key without `[` or `{` is kept as written, once trimmed. */
  lemma PlainKey(k: string)
    requires NoChar(k, '[') && NoChar(k, '{')
    ensures NormalizeKey(k) == Trim(k)
  {
    StripPlain(k);
  }

  // ------------------------------------------------------------ coercions

  /** Every literal `parseScalar` reads as a number, `toPrimitive` reads as the same number. */
  lemma NumLiteralIsDecimal(t: string)
    requires NumLiteral(t).Some?
    ensures DecimalLiteral(t) == NumLiteral(t)
  {
  }

  /** The two coercions agree except on the numbers only `Number` accepts. */
  lemma CoercionsAgree(v: string)
    requires NumLiteral(Trim(v)).Some? || DecimalLiteral(Trim(v)).None?
    ensures ToPrimitive(v) == ParseScalar(v)
  {
    if NumLiteral(Trim(v)).Some? {
      NumLiteralIsDecimal(Trim(v));
    }
  }

  lemma PlusFive()
    ensures Trim("+5") == "+5"
    ensures DecimalLiteral("+5") == Some(Decimal(5, 0)) && NumLiteral("+5").None?
  {
    TrimOfTrimmed("+5");
    PlusFiveDecimal();
    PlusFiveNotNumber();
  }

  /** `+5` passes the signed decimal pattern of `toPrimitive`. */
  lemma PlusFiveDecimal()
    ensures DecimalLiteral("+5") == Some(Decimal(5, 0))
  {
    assert DigitRun("5") == 1 && DigitsValue("5") == 5 by {
      assert "5"[1..] == [] && "5"[..0] == [];
    }
    assert "+5"[1..] == "5";
  }

  /** `+5` does not pass the number pattern of `parseScalar`, which allows only `-`. */
  lemma PlusFiveNotNumber()
    ensures NumLiteral("+5").None?
  {
    assert DigitRun("+5") == 0;
  }

  /** `+5` is a number to `toPrimitive` and text to `parseScalar`. */
  lemma CoercionsDiffer()
    ensures ToPrimitive("+5") == Num(Decimal(5, 0)) && ParseScalar("+5") == Str("+5")
  {
    PlusFive();
    ToPrimitiveSpec("+5");
    ParseScalarSpec("+5");
  }

  // -------------------------------------------------------- stringifyToon

  /** `typeof null === 'object'`: a `null` item of a top-level array is written on its own line. */
  lemma NullItemQuirk()
    ensures Stringify(Arr([Null]), 0) == "- \nnull"
    ensures EntryLines("a", Arr([Null]), 0) == ["a:", "  - null"]
  {
    var b := Bullets([Null], 0);
    assert Pad(0) == [];
    assert Stringify(Null, 1) == "null";
    assert b[0] == "- " + ("\n" + "null");
    assert b == [b[0]];
    var items := [Null];
    assert items[..0] == [];
    assert Pad(1) == "  " by {
      assert Pad(1) == "  " + Pad(0);
    }
    assert ItemBullets(items, 0) == ["  - null"] by {
      assert ItemBullets(items, 0) == ItemBullets(items[..0], 0) + [Pad(1) + "- " + JsString(Null)];
      assert Pad(1) + "- " + JsString(Null) == "  " + "- " + "null";
      assert "  " + "- " + "null" == "  - null";
    }
    assert Pad(0) + "a" + ":" == "a:";
    assert EntryLines("a", Arr(items), 0) == ["a:"] + ["  - null"];
  }

  /** An object of scalars is written one `key: value` line per key, in key order. */
  lemma {:induction false} ScalarLines(f: seq<Field>, indent: nat)
    requires forall q :: 0 <= q < |f| ==> IsScalar(f[q].value)
    ensures ObjLines(f, indent) == seq(|f|, q requires 0 <= q < |f| => Pad(indent) + f[q].key + ": " + JsString(f[q].value))
  {
    if f != [] {
      var p := f[..|f| - 1];
      assert forall q :: 0 <= q < |p| ==> p[q] == f[q];
      ScalarLines(p, indent);
    }
  }

  // ------------------------------------------------------ request headers

  /** `/text\/toon/i.test(accept)`, with a missing header read as `''`. */
  predicate WantsToon(accept: Option<string>) {
    Contains(Lower(accept.GetOr("")), "text/toon")
  }

  /** `/^text\/toon\b/i.test(contentType)`, with a missing header read as `''`. */
  predicate IsToonContent(contentType: Option<string>) {
    var h := Lower(contentType.GetOr(""));
    StartsWith(h, "text/toon") && (|h| == 9 || !IsWordChar(h[9]))
  }

  /** A TOON content type also asks for TOON when sent as the accept header. */
  lemma ToonContentIsWanted(h: Option<string>)
    requires IsToonContent(h)
    ensures WantsToon(h)
  {
  }

  lemma {:induction false} LowerConcat(a: string, b: string)
    ensures Lower(a + b) == Lower(a) + Lower(b)
  {
    if a == [] {
      assert a + b == b;
    } else {
      assert (a + b)[1..] == a[1..] + b;
      LowerConcat(a[1..], b);
    }
  }

  /**
   * `text/toon`, in any case, followed by the rest of the header: TOON
   * content exactly when the rest does not continue the word.
   */
  lemma ToonContentWith(p: string, rest: string)
    requires |p| == 9 && Lower(p) == "text/toon"
    ensures IsToonContent(Some(p + rest)) <==> rest == [] || !IsWordChar(LowerChar(rest[0]))
    ensures WantsToon(Some(p + rest))
  {
    LowerConcat(p, rest);
    var h := Lower(p + rest);
    assert h[..9] == "text/toon";
  }

  /** A header that does not start with `t` or `T` is not TOON content. */
  lemma ToonContentNotFirst(c: char, rest: string)
    requires LowerChar(c) != 't'
    ensures !IsToonContent(Some([c] + rest))
  {
    assert Lower([c] + rest)[0] == LowerChar(c);
  }
}
