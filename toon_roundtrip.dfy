/**
 * `parseTOON(toonFromObject(obj)) == obj` for every object the encoder
 * writes unambiguously (`FieldsOk`): the parser, run over the token lines of
 * an encoding, rebuilds the object entry by entry.
 */
module ToonRoundTrip {
  import opened Wrappers
  import opened JsText
  import opened JsonValue
  import opened ToonParse
  import opened ToonParseProps
  import opened ToonIo
  import opened ToonTokens

  // ----------------------------------------------------------- objects

  /** Storing a key an object does not have yet appends it. */
  lemma {:induction false} AssignFresh(f: seq<Field>, k: string, v: Json)
    requires k !in Keys(f)
    ensures Assign(f, k, v) == f + [Field(k, v)]
  {
    if f != [] {
      KeysCons(f, k);
      AssignCons(f, k, v);
      AssignFresh(f[1..], k, v);
      AppendCons(f, Field(k, v));
    }
  }

  /** Storing the key that was appended last replaces its value. */
  lemma {:induction false} AssignLast(a: seq<Field>, k: string, x: Json, y: Json)
    requires k !in Keys(a)
    ensures Assign(a + [Field(k, x)], k, y) == a + [Field(k, y)]
  {
    if a == [] {
      assert a + [Field(k, x)] == [Field(k, x)];
    } else {
      KeysCons(a, k);
      AppendCons(a, Field(k, x));
      AppendCons(a, Field(k, y));
      AssignCons(a + [Field(k, x)], k, y);
      AssignLast(a[1..], k, x, y);
    }
  }

  lemma AppendCons(a: seq<Field>, u: Field)
    requires a != []
    ensures (a + [u])[0] == a[0] && (a + [u])[1..] == a[1..] + [u]
    ensures a + [u] == [a[0]] + (a[1..] + [u])
  {
  }

  /** A key missing from an object is not its first key and is missing from the rest. */
  lemma KeysCons(a: seq<Field>, k: string)
    requires a != [] && k !in Keys(a)
    ensures a[0].key != k && k !in Keys(a[1..])
  {
    assert Keys(a) == [a[0].key] + Keys(a[1..]);
  }

  /** Storing a key that is not the first one keeps the first field. */
  lemma AssignCons(b: seq<Field>, k: string, y: Json)
    requires b != [] && b[0].key != k
    ensures Assign(b, k, y) == [b[0]] + Assign(b[1..], k, y)
  {
  }

  lemma KeysConcat(a: seq<Field>, b: seq<Field>)
    ensures Keys(a + b) == Keys(a) + Keys(b)
  {
  }

  // ------------------------------------------------------------- the stack

  /** The stack with `f` appended to the object on top. */
  function AppendTop(s: seq<Frame>, f: seq<Field>): (r: seq<Frame>)
    requires |s| >= 1
    ensures |r| == |s| && r[..|s| - 1] == s[..|s| - 1]
    ensures r[|s| - 1] == s[|s| - 1].(fields := s[|s| - 1].fields + f)
  {
    s[|s| - 1 := s[|s| - 1].(fields := s[|s| - 1].fields + f)]
  }

  lemma AppendTopKeepsStack(s: seq<Frame>, f: seq<Field>)
    requires StackOk(s)
    ensures StackOk(AppendTop(s, f))
  {
    var r := AppendTop(s, f);
    assert forall a :: 0 <= a < |r| ==> r[a].indent == s[a].indent;
  }

  lemma AppendTopTwice(s: seq<Frame>, f: seq<Field>, g: seq<Field>)
    requires |s| >= 1
    ensures AppendTop(AppendTop(s, f), g) == AppendTop(s, f + g)
  {
    var top := s[|s| - 1];
    assert top.fields + f + g == top.fields + (f + g);
  }

  /** Popping to `ind` after popping to `m >= ind` is popping to `ind`. */
  lemma {:induction false} PopToTwice(x: seq<Frame>, m: int, ind: int)
    requires |x| >= 1 && ind <= m
    ensures PopTo(PopTo(x, m), ind) == PopTo(x, ind)
    decreases |x|
  {
    if |x| > 1 && m <= x[|x| - 1].indent {
      PopToTwice(Plug(x), m, ind);
    }
  }

  /**
   * Before a line indented at most `m`, or at the end of the input, frames
   * whose indent is at least `m` may be popped early: the parse pops them there.
   */
  lemma RunPopTo(lines: seq<Line>, j: nat, x: seq<Frame>, m: int, y: seq<Frame>)
    requires j <= |lines| && |x| >= 1
    requires j == |lines| || lines[j].indent <= m
    requires y == PopTo(x, m)
    ensures Run(lines, j, x) == Run(lines, j, y)
  {
    if j == |lines| {
      ClosePopTo(x, m);
    } else {
      PopToTwice(x, m, lines[j].indent);
      assert Step(lines, j, x) == Step(lines, j, PopTo(x, m));
    }
  }

  /** A line one level deeper than the top of the stack pops nothing. */
  lemma PopToDeeper(s: seq<Frame>, level: nat)
    requires StackOk(s) && s[|s| - 1].indent == level - 1
    ensures PopTo(s, level) == s
  {
  }

  // ------------------------------------------------------------- scalars

  lemma DigitRunAll(s: string)
    requires AllDigits(s)
    ensures DigitRun(s) == |s|
  {
  }

  /** A written integer reads back as itself. */
  lemma NumLiteralInt(m: int)
    ensures NumLiteral(IntToString(m)) == Some(Decimal(m, 0))
  {
    var t := IntToString(m);
    var n := NatToString(Abs(m));
    if m < 0 {
      assert t[0] == '-' && t[1..] == n;
    } else {
      assert t == n;
      assert t[0] != '-';
    }
    DigitRunAll(n);
    DigitsValueOfNat(Abs(m));
  }

  /** A written integer is not one of the keywords and reads back as a number. */
  lemma NumRoundTrip(d: Decimal)
    requires d.scale == 0
    ensures ParseScalar(NumberText(d)) == Num(d)
  {
    NumberTextInt(d);
    var t := IntToString(d.mant);
    IntTextOk(d.mant);
    TrimOfTrimmed(t);
    NumLiteralInt(d.mant);
    assert t != "null" && t != "true" && t != "false" by {
      assert t[0] == '-' || IsDigit(t[0]);
    }
  }

  /** A text that is not coerced reads back as itself. */
  lemma StrRoundTrip(s: string)
    requires TextOk(s) && NotCoerced(s)
    ensures ParseScalar(s) == Str(s)
  {
    TrimOfTrimmed(s);
  }

  /** `null`, `true` and `false` read back as themselves. */
  lemma KeywordRoundTrip(v: Json)
    requires v.Null? || v.Bool?
    ensures ParseScalar(JsString(v)) == v
  {
    var t := JsString(v);
    assert Trim(t) == t by {
      assert Trimmed(t);
      TrimOfTrimmed(t);
    }
  }

  /** `parseScalar(String(v)) == v` for a scalar the encoder writes unambiguously. */
  lemma ScalarRoundTrip(v: Json)
    requires ValueOk(v) && IsScalar(v)
    ensures ParseScalar(JsString(v)) == v
  {
    match v
    case Null =>
      KeywordRoundTrip(v);
    case Bool(b) =>
      KeywordRoundTrip(v);
    case Num(d) =>
      NumRoundTrip(d);
    case Str(s) =>
      StrRoundTrip(s);
  }

  // --------------------------------------------------------- the line kinds

  lemma WordTrimmed(k: string)
    requires IsWord(k)
    ensures Trim(k) == k
  {
    TrimOfTrimmed(k);
  }

  lemma FirstColon(k: string, rest: string)
    requires IsWord(k) && rest != [] && rest[0] == ':'
    ensures IndexOf(k + rest, ':') == |k|
  {
    var t := k + rest;
    assert t[|k|] == ':';
  }

  lemma Tail(a: string, b: string)
    ensures (a + b)[|a|..] == b && (a + b)[..|a|] == a
  {
  }

  /** A line whose key is followed by a colon is not an array header. */
  lemma NotHeader(k: string, rest: string)
    requires IsWord(k) && rest != [] && rest[0] == ':' && Trimmed(k + rest)
    ensures ParseArrayHeaderKey(k + rest).None?
  {
    var t := k + rest;
    assert Trim(t) == t by {
      TrimOfTrimmed(t);
    }
    assert HeaderMatch(t).None? by {
      WordRunOfWord(k, rest);
      assert t[|k|] == ':';
    }
  }

  /** The value text after `: ` is the text itself. */
  lemma ValueAfterColon(text: string)
    requires TextOk(text)
    ensures TrimStart((": " + text)[1..]) == text
  {
    var r := ": " + text;
    assert r[1..] == " " + text;
    assert (" " + text)[1..] == text;
    assert LeadingSpaces(" " + text) == 1;
  }

  /** A line `k: text` is a key-value line with exactly that key and value text. */
  lemma KeyValueText(k: string, text: string)
    requires IsWord(k) && TextOk(text) && TextOk(k + (": " + text))
    ensures ParseArrayHeaderKey(k + (": " + text)).None?
    ensures !IsSection(k + (": " + text))
    ensures MatchKeyValue(k + (": " + text)) == Some((k, text))
  {
    var rest := ": " + text;
    var t := k + rest;
    NotHeader(k, rest);
    Tail(k, rest);
    assert t[|k| + 1] == ' ';
    FirstColon(k, rest);
    WordTrimmed(k);
    ValueAfterColon(text);
    assert t[|k| + 1..] == rest[1..];
  }

  /** A line `k:` opens a section named `k`. */
  lemma SectionText(k: string)
    requires IsWord(k)
    ensures ParseArrayHeaderKey(k + ":").None?
    ensures IsSection(k + ":") && (k + ":")[..|k|] == k
  {
    var t := k + ":";
    ColonOk(k);
    NotHeader(k, ":");
    assert NoChar(t, ' ') by {
      forall q | 0 <= q < |t|
        ensures t[q] != ' '
      {
        if q < |k| {
          assert t[q] == k[q];
        }
      }
    }
  }

  /** The trimmed text of a token line is the text after its indentation. */
  lemma TokenText(level: nat, w: string)
    requires TextOk(w)
    ensures Trim(Pad(level) + w) == w
  {
    TrimPadded(level, w);
  }

  /** A scalar entry's line stores the value under the key. */
  lemma ScalarStep(lines: seq<Line>, j: nat, s: seq<Frame>, k: string, v: Json, level: nat)
    requires StackOk(s) && s[|s| - 1].indent == level - 1
    requires IsWord(k) && ValueOk(v) && IsScalar(v)
    requires j < |lines| && lines[j] == Line(level, Pad(level) + (k + (": " + JsString(v))))
    ensures Step(lines, j, s) == (j + 1, SetTop(s, k, v))
  {
    var text := JsString(v);
    var w := k + (": " + text);
    ScalarText(v);
    ScalarLineText(k, v);
    PopToDeeper(s, level);
    TokenText(level, w);
    KeyValueText(k, text);
    ScalarRoundTrip(v);
    assert Dispatch(lines, j, s) == (j + 1, ValueStep(s, w));
  }

  /** A section line pushes a fresh object stored under its key. */
  lemma SectionStepAt(lines: seq<Line>, j: nat, s: seq<Frame>, k: string, level: nat)
    requires StackOk(s) && s[|s| - 1].indent == level - 1
    requires IsWord(k)
    requires j < |lines| && lines[j] == Line(level, Pad(level) + (k + ":"))
    ensures Step(lines, j, s) == (j + 1, SetTop(s, k, Obj([])) + [Frame(level, k, [])])
  {
    var w := k + ":";
    ColonOk(k);
    PopToDeeper(s, level);
    TokenText(level, w);
    SectionText(k);
    assert Dispatch(lines, j, s) == (j + 1, SectionStep(s, level, w));
  }

  /** Every line from `a` up to `b` is deeper than `ind`. */
  predicate Deeper(lines: seq<Line>, a: nat, b: nat, ind: int)
    requires a <= b <= |lines|
  {
    forall q :: a <= q < b ==> lines[q].indent > ind
  }

  /** `ScanEnd` stops right after a block of deeper lines. */
  lemma {:induction false} ScanEndBlock(lines: seq<Line>, a: nat, b: nat, ind: int)
    requires a <= b <= |lines|
    requires Deeper(lines, a, b, ind)
    requires b == |lines| || lines[b].indent <= ind
    ensures ScanEnd(lines, a, ind) == b
    decreases b - a
  {
    if a < b {
      ScanEndBlock(lines, a + 1, b, ind);
    }
  }

  /** The rows under a header are the array's texts. */
  lemma RowsOfItems(lines: seq<Line>, a: nat, items: seq<Json>, level: nat)
    requires forall q :: 0 <= q < |items| ==> items[q].Str? && TextOk(items[q].s)
    requires a + |items| <= |lines| && lines[a..a + |items|] == ItemToks(items, level)
    ensures Rows(lines, a, a + |items|) == items
  {
    var b := a + |items|;
    forall q | a <= q < b
      ensures !Blank(lines[q].raw) && Trim(lines[q].raw) == items[q - a].s
    {
      RowText(lines, a, items, level, q);
    }
    RowsOfTokens(lines, a, b);
  }

  /** One row under a header: a visible line whose trimmed text is the item's. */
  lemma RowText(lines: seq<Line>, a: nat, items: seq<Json>, level: nat, q: nat)
    requires a <= q < a + |items| && items[q - a].Str? && TextOk(items[q - a].s)
    requires a + |items| <= |lines| && lines[a..a + |items|] == ItemToks(items, level)
    ensures !Blank(lines[q].raw) && Trim(lines[q].raw) == items[q - a].s
  {
    var w := items[q - a].s;
    assert lines[q].raw == Pad(level) + w by {
      assert lines[q] == lines[a..a + |items|][q - a];
    }
    TokenText(level, w);
    assert (Pad(level) + w)[2 * level] == w[0] by {
      LeadingPad(level, w);
    }
  }

  /** The item lines after a header are exactly the lines it collects. */
  lemma ItemBlock(lines: seq<Line>, j: nat, items: seq<Json>, level: nat)
    requires forall q :: 0 <= q < |items| ==> items[q].Str? && TextOk(items[q].s)
    requires j + 1 + |items| <= |lines| && lines[j + 1..j + 1 + |items|] == ItemToks(items, level + 1)
    requires j + 1 + |items| == |lines| || lines[j + 1 + |items|].indent <= level
    ensures ScanEnd(lines, j + 1, level) == j + 1 + |items|
    ensures Rows(lines, j + 1, j + 1 + |items|) == items
  {
    var e := j + 1 + |items|;
    assert ScanEnd(lines, j + 1, level) == e by {
      ItemsIndent(lines, j + 1, e, items, level);
      ScanEndBlock(lines, j + 1, e, level);
    }
    assert Rows(lines, j + 1, e) == items by {
      RowsOfItems(lines, j + 1, items, level + 1);
    }
  }

  /** Every item line sits deeper than the header. */
  lemma ItemsIndent(lines: seq<Line>, a: nat, b: nat, items: seq<Json>, level: nat)
    requires b == a + |items| <= |lines| && lines[a..b] == ItemToks(items, level + 1)
    ensures Deeper(lines, a, b, level)
  {
    forall q | a <= q < b
      ensures lines[q].indent > level
    {
      assert lines[q] == lines[a..b][q - a];
    }
  }

  /** The header line of an array entry announces the key and the length. */
  lemma HeaderTextAt(raw: string, k: string, n: nat, level: nat)
    requires IsWord(k) && raw == Pad(level) + ArrayHeaderText(k, n)
    ensures ParseArrayHeaderKey(Trim(raw)) == Some(Header(k, n, ["text"]))
  {
    var w := ArrayHeaderText(k, n);
    ArrayHeaderOk(k, n);
    TokenText(level, w);
    HeaderTextParses(k, n, 0);
    assert Pad(0) + w == w;
  }

  /** A header line whose block ends at `e` stores the rows of that block under its key. */
  lemma HeaderStepTo(lines: seq<Line>, j: nat, s: seq<Frame>, k: string, items: seq<Json>, level: nat, e: nat)
    requires StackOk(s) && s[|s| - 1].indent == level - 1
    requires IsWord(k)
    requires j < e <= |lines| && lines[j] == Line(level, Pad(level) + ArrayHeaderText(k, |items|))
    requires ScanEnd(lines, j + 1, level) == e && Rows(lines, j + 1, e) == items
    ensures Step(lines, j, s) == (e, SetTop(s, k, Arr(items)))
  {
    PopToDeeper(s, level);
    assert Dispatch(lines, j, s) == HeaderStep(lines, j, s, k) by {
      HeaderTextAt(lines[j].raw, k, |items|, level);
    }
  }

  /** An array header stores the rows of the item lines after it. */
  lemma HeaderStepAt(lines: seq<Line>, j: nat, s: seq<Frame>, k: string, items: seq<Json>, level: nat)
    requires StackOk(s) && s[|s| - 1].indent == level - 1
    requires IsWord(k) && ValueOk(Arr(items))
    requires j < |lines| && lines[j] == Line(level, Pad(level) + ArrayHeaderText(k, |items|))
    requires j + 1 + |items| <= |lines| && lines[j + 1..j + 1 + |items|] == ItemToks(items, level + 1)
    requires j + 1 + |items| == |lines| || lines[j + 1 + |items|].indent <= level
    ensures Step(lines, j, s) == (j + 1 + |items|, SetTop(s, k, Arr(items)))
  {
    ItemBlock(lines, j, items, level);
    HeaderStepTo(lines, j, s, k, items, level, j + 1 + |items|);
  }

  // ------------------------------------------------------------- blocks

  /** The lines from `a` on start with the token lines `t`. */
  predicate At(lines: seq<Line>, a: nat, t: seq<Line>) {
    a + |t| <= |lines| && lines[a..a + |t|] == t
  }

  /** The line at `e`, if any, closes every entry deeper than `level`. */
  predicate EndsBefore(lines: seq<Line>, e: nat, level: int) {
    e <= |lines| && (e == |lines| || lines[e].indent <= level)
  }

  lemma AtSplit(lines: seq<Line>, a: nat, t: seq<Line>, u: seq<Line>)
    requires At(lines, a, t + u)
    ensures At(lines, a, t) && At(lines, a + |t|, u)
  {
    assert lines[a..a + |t|] == (t + u)[..|t|];
    assert lines[a + |t|..a + |t| + |u|] == (t + u)[|t|..];
  }

  lemma AtHead(lines: seq<Line>, a: nat, x: Line, u: seq<Line>)
    requires At(lines, a, [x] + u)
    ensures a < |lines| && lines[a] == x && At(lines, a + 1, u)
  {
    AtSplit(lines, a, [x], u);
    assert lines[a] == lines[a..a + 1][0];
  }

  /** Storing a fresh key on top appends it to the top object. */
  lemma SetTopFresh(s: seq<Frame>, k: string, v: Json)
    requires |s| >= 1 && k !in Keys(s[|s| - 1].fields)
    ensures SetTop(s, k, v) == AppendTop(s, [Field(k, v)])
  {
    AssignFresh(s[|s| - 1].fields, k, v);
  }

  /** The entry that opened a section below an entry of indent `level - 1`. */
  function Opened(s: seq<Frame>, k: string, level: nat): seq<Frame>
    requires |s| >= 1
  {
    SetTop(s, k, Obj([])) + [Frame(level, k, [])]
  }

  /** Popping a frame stores its object under its key in the frame below. */
  lemma PlugFrame(u: seq<Frame>, k: string, g: seq<Field>, level: int)
    requires |u| >= 1
    ensures Plug(u + [Frame(level, k, g)])
      == u[|u| - 1 := u[|u| - 1].(fields := Assign(u[|u| - 1].fields, k, Obj(g)))]
  {
    var f := Frame(level, k, g);
    PlugSnoc(u, f);
    UpdateSnoc(u, f, u[|u| - 1].(fields := Assign(u[|u| - 1].fields, k, Obj(g))));
  }

  /** `Plug` right after a push, with every index written in terms of `|u|`. */
  lemma PlugSnoc(u: seq<Frame>, f: Frame)
    requires |u| >= 1
    ensures Plug(u + [f])
      == (u + [f])[..|u|][|u| - 1 := u[|u| - 1].(fields := Assign(u[|u| - 1].fields, f.key, Obj(f.fields)))]
  {
    var x := u + [f];
    var n := |u|;
    assert |x| - 1 == n && |x| - 2 == n - 1;
    assert x[n - 1] == u[n - 1] && x[n] == f;
    var np := u[n - 1].(fields := Assign(u[n - 1].fields, f.key, Obj(f.fields)));
    assert Plug(x) == x[..n][n - 1 := np];
  }

  /** A second update of the same position overrides the first. */
  lemma UpdateTwice<T>(s: seq<T>, i: nat, a: T, b: T)
    requires i < |s|
    ensures s[i := a][i := b] == s[i := b]
  {
  }

  /** Dropping the pushed element and then updating the last one is updating `u`. */
  lemma UpdateSnoc<T>(u: seq<T>, f: T, np: T)
    requires |u| >= 1
    ensures (u + [f])[..|u|][|u| - 1 := np] == u[|u| - 1 := np]
  {
  }

  /** Closing the section of `k` stores its object `g` under `k` in the entry below. */
  lemma PopSection(s: seq<Frame>, k: string, g: seq<Field>, level: nat)
    requires StackOk(s) && s[|s| - 1].indent == level - 1 && k !in Keys(s[|s| - 1].fields)
    ensures PopTo(AppendTop(Opened(s, k, level), g), level) == AppendTop(s, [Field(k, Obj(g))])
  {
    var top := s[|s| - 1];
    var u := SetTop(s, k, Obj([]));
    var x := AppendTop(Opened(s, k, level), g);
    assert x == u + [Frame(level, k, g)] by {
      assert [] + g == g;
    }
    var y := AppendTop(s, [Field(k, Obj(g))]);
    var t0 := top.(fields := top.fields + [Field(k, Obj([]))]);
    var t1 := top.(fields := top.fields + [Field(k, Obj(g))]);
    assert u == s[|s| - 1 := t0] by {
      SetTopFresh(s, k, Obj([]));
    }
    assert Plug(x) == u[|u| - 1 := u[|u| - 1].(fields := Assign(u[|u| - 1].fields, k, Obj(g)))] by {
      PlugFrame(u, k, g, level);
    }
    assert u[|u| - 1].(fields := Assign(u[|u| - 1].fields, k, Obj(g))) == t1 by {
      assert u[|u| - 1] == t0;
      AssignLast(top.fields, k, Obj([]), Obj(g));
    }
    assert Plug(x) == y by {
      UpdateTwice(s, |s| - 1, t0, t1);
    }
    assert PopTo(x, level) == PopTo(Plug(x), level) by {
      assert |x| > 1 && x[|x| - 1].indent == level;
    }
    assert PopTo(y, level) == y by {
      AppendTopKeepsStack(s, [Field(k, Obj(g))]);
      PopToDeeper(y, level);
    }
  }

  /** The entry `k: v` at `level` starts at line `j`, ends at `e`, and stores into `s` giving `x`. */
  predicate EntryOk(lines: seq<Line>, j: nat, s: seq<Frame>, k: string, v: Json, level: nat, e: nat, x: seq<Frame>) {
    && StackOk(s) && s[|s| - 1].indent == level - 1
    && IsWord(k) && ValueOk(v) && k !in Keys(s[|s| - 1].fields)
    && At(lines, j, EntryToks(k, v, level)) && e == j + |EntryToks(k, v, level)| && EndsBefore(lines, e, level)
    && x == AppendTop(s, [Field(k, v)])
  }

  /** No key of `f` is already stored in the top entry of `s`. */
  predicate FreshKeys(s: seq<Frame>, f: seq<Field>)
    requires |s| >= 1
  {
    forall q :: 0 <= q < |f| ==> f[q].key !in Keys(s[|s| - 1].fields)
  }

  /** The block of `f` at `level` starts at line `j`, ends at `e`, and stores into `s` giving `x`. */
  predicate BlockOk(lines: seq<Line>, j: nat, s: seq<Frame>, f: seq<Field>, level: nat, e: nat, x: seq<Frame>) {
    && StackOk(s) && s[|s| - 1].indent == level - 1
    && FieldsOk(f) && FreshKeys(s, f)
    && At(lines, j, Toks(f, level)) && e == j + |Toks(f, level)| && EndsBefore(lines, e, level)
    && x == AppendTop(s, f)
  }

  // ------------------------------------------------- one entry, as one step

  /** The step a scalar entry's line takes. */
  lemma ScalarStepTo(lines: seq<Line>, j: nat, s: seq<Frame>, k: string, v: Json, level: nat, e: nat, x: seq<Frame>)
    requires EntryOk(lines, j, s, k, v, level, e, x) && IsScalar(v)
    ensures j < |lines| && |s| >= 1 && Step(lines, j, s) == (e, x)
  {
    var h := Line(level, Pad(level) + (k + (": " + JsString(v))));
    ScalarEntryLines(k, v, level);
    assert EntryToks(k, v, level) == [h] + [];
    AtHead(lines, j, h, []);
    assert e == j + 1;
    ScalarStep(lines, j, s, k, v, level);
    SetTopFresh(s, k, v);
  }

  /** The step an array entry's header line takes, over all of its item lines. */
  lemma ArrayStepTo(lines: seq<Line>, j: nat, s: seq<Frame>, k: string, v: Json, level: nat, e: nat, x: seq<Frame>)
    requires EntryOk(lines, j, s, k, v, level, e, x) && v.Arr?
    ensures j < |lines| && |s| >= 1 && Step(lines, j, s) == (e, x)
  {
    var items := v.items;
    var t := ItemToks(items, level + 1);
    var h := Line(level, Pad(level) + ArrayHeaderText(k, |items|));
    assert EntryToks(k, v, level) == [h] + t;
    assert v == Arr(items);
    assert e == j + 1 + |items| by {
      assert |[h] + t| == 1 + |t| && |t| == |items|;
    }
    ArrayStepAt(lines, j, s, k, items, level, x);
    StepTo(lines, j, s, j + 1 + |items|, e, x);
  }

  /** `ArrayStepWith` for the token lines of the entry as one block. */
  lemma ArrayStepAt(lines: seq<Line>, j: nat, s: seq<Frame>, k: string, items: seq<Json>, level: nat, x: seq<Frame>)
    requires StackOk(s) && s[|s| - 1].indent == level - 1
    requires IsWord(k) && ValueOk(Arr(items)) && k !in Keys(s[|s| - 1].fields)
    requires At(lines, j, [Line(level, Pad(level) + ArrayHeaderText(k, |items|))] + ItemToks(items, level + 1))
    requires EndsBefore(lines, j + 1 + |items|, level)
    requires x == AppendTop(s, [Field(k, Arr(items))])
    ensures j < |lines| && Step(lines, j, s) == (j + 1 + |items|, x)
  {
    AtHead(lines, j, Line(level, Pad(level) + ArrayHeaderText(k, |items|)), ItemToks(items, level + 1));
    ArrayStepWith(lines, j, s, k, items, level, x);
  }

  /** A step result stated with another name for the same next index. */
  lemma StepTo(lines: seq<Line>, j: nat, s: seq<Frame>, n: nat, e: nat, x: seq<Frame>)
    requires j < |lines| && |s| >= 1 && Step(lines, j, s) == (n, x) && n == e
    ensures Step(lines, j, s) == (e, x)
  {
  }

  /** `ArrayStepTo` once the header line and the item lines are known. */
  lemma ArrayStepWith(lines: seq<Line>, j: nat, s: seq<Frame>, k: string, items: seq<Json>, level: nat, x: seq<Frame>)
    requires StackOk(s) && s[|s| - 1].indent == level - 1
    requires IsWord(k) && ValueOk(Arr(items)) && k !in Keys(s[|s| - 1].fields)
    requires j < |lines| && lines[j] == Line(level, Pad(level) + ArrayHeaderText(k, |items|))
    requires At(lines, j + 1, ItemToks(items, level + 1)) && EndsBefore(lines, j + 1 + |items|, level)
    requires x == AppendTop(s, [Field(k, Arr(items))])
    ensures Step(lines, j, s) == (j + 1 + |items|, x)
  {
    HeaderStepAt(lines, j, s, k, items, level);
    SetTopFresh(s, k, Arr(items));
  }

  /** The section line of an object entry, and what the block of its fields then needs. */
  lemma ObjStepTo(lines: seq<Line>, j: nat, s: seq<Frame>, k: string, v: Json, level: nat, e: nat, x: seq<Frame>)
    requires EntryOk(lines, j, s, k, v, level, e, x) && v.Obj?
    ensures j < |lines| && |s| >= 1 && Step(lines, j, s) == (j + 1, Opened(s, k, level))
    ensures BlockOk(lines, j + 1, Opened(s, k, level), v.fields, level + 1, e, AppendTop(Opened(s, k, level), v.fields))
    ensures |AppendTop(Opened(s, k, level), v.fields)| >= 1
    ensures x == PopTo(AppendTop(Opened(s, k, level), v.fields), level)
  {
    var g := v.fields;
    var h := Line(level, Pad(level) + (k + ":"));
    ObjEntryLines(k, g, level);
    AtHead(lines, j, h, Toks(g, level + 1));
    SectionStepAt(lines, j, s, k, level);
    SectionText(k);
    assert SectionStep(s, level, k + ":") == Opened(s, k, level);
    SectionKeepsStack(s, level, k + ":");
    PopSection(s, k, g, level);
  }

  // ------------------------------------------------------- blocks of entries

  lemma RunStep(lines: seq<Line>, j: nat, s: seq<Frame>, e: nat, x: seq<Frame>)
    requires j < |lines| && |s| >= 1 && Step(lines, j, s) == (e, x)
    ensures Run(lines, j, s) == Run(lines, e, x)
  {
  }

  lemma {:induction false} ObjRun(lines: seq<Line>, j: nat, s: seq<Frame>, k: string, v: Json, level: nat, e: nat, x: seq<Frame>)
    requires EntryOk(lines, j, s, k, v, level, e, x) && v.Obj?
    ensures e <= |lines| && |x| >= 1 && Run(lines, j, s) == Run(lines, e, x)
    decreases v, 1
  {
    var s2 := Opened(s, k, level);
    var x2 := AppendTop(s2, v.fields);
    ObjStepTo(lines, j, s, k, v, level, e, x);
    RunStep(lines, j, s, j + 1, s2);
    BlockRun(lines, j + 1, s2, v.fields, level + 1, e, x2);
    RunPopTo(lines, e, x2, level, x);
  }

  /** One entry's token lines store that entry on top. */
  lemma {:induction false} EntryRun(lines: seq<Line>, j: nat, s: seq<Frame>, k: string, v: Json, level: nat, e: nat, x: seq<Frame>)
    requires EntryOk(lines, j, s, k, v, level, e, x)
    ensures e <= |lines| && |x| >= 1 && Run(lines, j, s) == Run(lines, e, x)
    decreases v, 2
  {
    if IsScalar(v) {
      ScalarStepTo(lines, j, s, k, v, level, e, x);
      RunStep(lines, j, s, e, x);
    } else if v.Arr? {
      ArrayStepTo(lines, j, s, k, v, level, e, x);
      RunStep(lines, j, s, e, x);
    } else {
      ObjRun(lines, j, s, k, v, level, e, x);
    }
  }

  /** An empty block takes no line and stores nothing. */
  lemma BlockEmpty(lines: seq<Line>, j: nat, s: seq<Frame>, f: seq<Field>, level: nat, e: nat, x: seq<Frame>)
    requires BlockOk(lines, j, s, f, level, e, x) && f == []
    ensures e == j && x == s
  {
    assert s[|s| - 1].fields + f == s[|s| - 1].fields;
  }

  /** The block of all but the last entry of `f`, and where the last entry's lines start. */
  lemma BlockPrefix(lines: seq<Line>, j: nat, s: seq<Frame>, f: seq<Field>, level: nat, e: nat, x: seq<Frame>)
      returns (p: seq<Field>, m: nat, s1: seq<Frame>)
    requires BlockOk(lines, j, s, f, level, e, x) && f != []
    ensures p == f[..|f| - 1] && m == j + |Toks(p, level)| && s1 == AppendTop(s, p)
    ensures BlockOk(lines, j, s, p, level, m, s1)
    ensures At(lines, m, EntryToks(f[|f| - 1].key, f[|f| - 1].value, level))
  {
    var n := |f| - 1;
    p := f[..n];
    var y := f[n];
    var t1 := Toks(p, level);
    var t2 := EntryToks(y.key, y.value, level);
    assert Toks(f, level) == t1 + t2;
    AtSplit(lines, j, t1, t2);
    FieldsOkPrefix(f, n);
    assert FreshKeys(s, p) by {
      assert forall q :: 0 <= q < |p| ==> p[q] == f[q];
    }
    assert EndsBefore(lines, j + |t1|, level) by {
      assert lines[j + |t1|] == lines[j + |t1|..j + |t1| + |t2|][0];
    }
    m := j + |t1|;
    s1 := AppendTop(s, p);
  }

  /** The last entry of `f`, stored on top of the entries before it. */
  lemma BlockLast(lines: seq<Line>, j: nat, s: seq<Frame>, f: seq<Field>, level: nat, e: nat, x: seq<Frame>,
                  p: seq<Field>, m: nat, s1: seq<Frame>)
    requires BlockOk(lines, j, s, f, level, e, x) && f != []
    requires p == f[..|f| - 1] && m == j + |Toks(p, level)| && s1 == AppendTop(s, p)
    requires At(lines, m, EntryToks(f[|f| - 1].key, f[|f| - 1].value, level))
    ensures EntryOk(lines, m, s1, f[|f| - 1].key, f[|f| - 1].value, level, e, x)
  {
    var y := f[|f| - 1];
    assert Toks(f, level) == Toks(p, level) + EntryToks(y.key, y.value, level);
    AppendTopKeepsStack(s, p);
    assert y.key !in Keys(s1[|s1| - 1].fields) by {
      KeysConcat(s[|s| - 1].fields, p);
      assert y.key !in Keys(p);
    }
    AppendTopTwice(s, p, [y]);
    assert p + [y] == f;
  }

  /** How the block of `f` splits into the block of all but its last entry and that entry. */
  lemma BlockSplit(lines: seq<Line>, j: nat, s: seq<Frame>, f: seq<Field>, level: nat, e: nat, x: seq<Frame>)
      returns (p: seq<Field>, m: nat, s1: seq<Frame>)
    requires BlockOk(lines, j, s, f, level, e, x) && f != []
    ensures p == f[..|f| - 1]
    ensures BlockOk(lines, j, s, p, level, m, s1)
    ensures EntryOk(lines, m, s1, f[|f| - 1].key, f[|f| - 1].value, level, e, x)
  {
    p, m, s1 := BlockPrefix(lines, j, s, f, level, e, x);
    BlockLast(lines, j, s, f, level, e, x, p, m, s1);
  }

  /**
   * The token lines of `f` at `level`, read with an entry of indent
   * `level - 1` on top, append the entries of `f` to that entry's object.
   */
  lemma {:induction false} BlockRun(lines: seq<Line>, j: nat, s: seq<Frame>, f: seq<Field>, level: nat, e: nat, x: seq<Frame>)
    requires BlockOk(lines, j, s, f, level, e, x)
    ensures e <= |lines| && |x| >= 1 && Run(lines, j, s) == Run(lines, e, x)
    decreases f, 0
  {
    if f == [] {
      BlockEmpty(lines, j, s, f, level, e, x);
    } else {
      var p, m, s1 := BlockSplit(lines, j, s, f, level, e, x);
      EntryRun(lines, m, s1, f[|f| - 1].key, f[|f| - 1].value, level, e, x);
      BlockRun(lines, j, s, p, level, m, s1);
      assert Run(lines, j, s) == Run(lines, m, s1) == Run(lines, e, x);
    }
  }

  lemma RunEnd(lines: seq<Line>, s: seq<Frame>)
    requires |s| >= 1
    ensures Run(lines, |lines|, s) == Close(s)
  {
  }

  /** The root entry reads the whole encoding of `f` as one block. */
  lemma RootBlock(t: seq<Line>, f: seq<Field>)
    requires FieldsOk(f) && t == Toks(f, 0)
    ensures BlockOk(t, 0, EmptyStack, f, 0, |t|, [Frame(-1, "", f)])
    ensures Close([Frame(-1, "", f)]) == f
  {
    assert t[0..|t|] == t;
    assert [Frame(-1, "", f)] == AppendTop(EmptyStack, f) by {
      assert [] + f == f;
    }
  }

  /** `parseTOON(toonFromObject(obj)) == obj` for every object the encoder writes unambiguously. */
  lemma RoundTrip(f: seq<Field>)
    requires FieldsOk(f)
    ensures Parse(Encode(f, 0)) == f
  {
    EncodeLines(f, 0);
    var t := ToLines(Encode(f, 0));
    RootBlock(t, f);
    BlockRun(t, 0, EmptyStack, f, 0, |t|, [Frame(-1, "", f)]);
    RunEnd(t, [Frame(-1, "", f)]);
  }
}
