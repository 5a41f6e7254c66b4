/**
 * `parseToon(stringifyToon(v))` gives `v` back for an object of scalars and
 * nested objects whose keys and texts the line format can carry; and the
 * `- item` bullets `stringifyToon` writes for an array are not read back.
 *
 * The encoding is flattened into its physical lines (a nested object's
 * joined block becomes its own lines), the lines are fed one by one, and
 * `Below(x, s, L)` says that the next line at level `L` continues the object
 * on top of `s`.
 */
module ToonEncodeRoundTrip {
  import opened Wrappers
  import opened JsText
  import opened JsonValue
  import opened ToonParse
  import opened ToonParseProps
  import opened ToonTokens
  import opened ToonRoundTrip
  import opened ToonEncode
  import ToonIo

  // ------------------------------------------------------------ encodable

  /** A key `parseToon` reads back unchanged once written before `:`. */
  predicate EncKey(k: string) {
    && Trimmed(k) && NoLineTerminator(k)
    && NoChar(k, '\t') && NoChar(k, ':') && NoChar(k, '[') && NoChar(k, '{')
    && !(k != [] && AllDigits(k))
  }

  /** Text that survives one line: non-empty, trimmed, single-line, no tabs. */
  predicate EncText(s: string) {
    s != [] && Trimmed(s) && NoLineTerminator(s) && NoChar(s, '\t')
  }

  /** A value `toPrimitive` gives back from its `String(v)` text, or a nested object of such. */
  predicate EncValue(v: Json)
    decreases v, 0
  {
    match v
    case Null => true
    case Bool(_) => true
    case Num(d) => d.scale == 0
    case Str(s) => EncText(s) && s != "null" && s != "true" && s != "false" && DecimalLiteral(s).None?
    case Arr(_) => false
    case Obj(g) => EncFields(g)
  }

  predicate EncFields(f: seq<Field>)
    decreases f, 1
  {
    UniqueKeys(f) && forall q :: 0 <= q < |f| ==> EncKey(f[q].key) && EncValue(f[q].value)
  }

  // --------------------------------------------------------- the lines

  /** The physical lines of the entry `k: v` at `level`. */
  function FlatEntry(k: string, v: Json, level: nat): (r: seq<string>)
    ensures |r| >= 1
    decreases v, 0
  {
    match v
    case Obj(g) => [Pad(level) + k + ":"] + FlatBlock(g, level + 1)
    case _ => [Pad(level) + k + ": " + JsString(v)]
  }

  /** The physical lines of a nested object: one empty line when it has no fields. */
  function FlatBlock(g: seq<Field>, level: nat): (r: seq<string>)
    ensures |r| >= 1
    decreases g, 2
  {
    if g == [] then [""] else FlatFields(g, level)
  }

  function FlatFields(f: seq<Field>, level: nat): (r: seq<string>)
    ensures f != [] ==> |r| >= 1
    decreases f, 1
  {
    if f == [] then []
    else FlatFields(f[..|f| - 1], level) + FlatEntry(f[|f| - 1].key, f[|f| - 1].value, level)
  }

  lemma JoinTwo(h: string, x: string)
    ensures Join([h, x], "\n") == h + "\n" + x
  {
    var two := [h, x];
    assert two[1..] == [x];
  }

  lemma {:induction false} JoinEntry(k: string, v: Json, level: nat)
    requires EncValue(v)
    ensures Join(ToonEncode.EntryLines(k, v, level), "\n") == Join(FlatEntry(k, v, level), "\n")
    decreases v, 0
  {
    match v
    case Obj(g) =>
      var h := Pad(level) + k + ":";
      JoinTwo(h, Join(ObjLines(g, level + 1), "\n"));
      JoinConcat([h], FlatBlock(g, level + 1), "\n");
      JoinBlock(g, level + 1);
    case _ =>
  }

  lemma {:induction false} JoinBlock(g: seq<Field>, level: nat)
    requires EncFields(g)
    ensures Join(FlatBlock(g, level), "\n") == Join(ObjLines(g, level), "\n")
    decreases g, 2
  {
    if g != [] {
      JoinFields(g, level);
    }
  }

  /** Joining the `lines` of the object branch joins its physical lines. */
  lemma {:induction false} JoinFields(f: seq<Field>, level: nat)
    requires EncFields(f)
    ensures Join(ObjLines(f, level), "\n") == Join(FlatFields(f, level), "\n")
    decreases f, 1
  {
    if f != [] {
      var p := f[..|f| - 1];
      var u := f[|f| - 1];
      assert EncFields(p) by {
        assert forall q :: 0 <= q < |p| ==> p[q] == f[q];
      }
      JoinEntry(u.key, u.value, level);
      if p == [] {
        assert ObjLines(f, level) == ObjLines(p, level) + ToonEncode.EntryLines(u.key, u.value, level);
        assert ObjLines(f, level) == ToonEncode.EntryLines(u.key, u.value, level);
        assert FlatFields(f, level) == FlatFields(p, level) + FlatEntry(u.key, u.value, level);
        assert FlatFields(f, level) == FlatEntry(u.key, u.value, level);
      } else {
        JoinFields(p, level);
        assert ObjLines(p, level) != [] by {
          assert ObjLines(p, level) == ObjLines(p[..|p| - 1], level) + ToonEncode.EntryLines(p[|p| - 1].key, p[|p| - 1].value, level);
        }
        JoinConcat(ObjLines(p, level), ToonEncode.EntryLines(u.key, u.value, level), "\n");
        JoinConcat(FlatFields(p, level), FlatEntry(u.key, u.value, level), "\n");
      }
    }
  }

  // ------------------------------------------------------------ one line

  lemma {:induction false} LeadingBlanksPad(level: nat, w: string)
    requires w != [] && w[0] != ' '
    ensures LeadingBlanks(Pad(level) + w) == 2 * level
  {
    if level > 0 {
      var s := Pad(level) + w;
      assert s == "  " + (Pad(level - 1) + w);
      assert s[1..] == " " + (Pad(level - 1) + w);
      assert s[1..][1..] == Pad(level - 1) + w;
      LeadingBlanksPad(level - 1, w);
    } else {
      assert Pad(level) + w == w;
    }
  }

  lemma PadNoTab(level: nat, w: string)
    requires NoChar(w, '\t')
    ensures NoChar(Pad(level) + w, '\t')
  {
    var s := Pad(level) + w;
    forall q | 0 <= q < |s|
      ensures s[q] != '\t'
    {
      if q >= |Pad(level)| {
        assert s[q] == w[q - |Pad(level)|];
      }
    }
  }

  /**
   * The facts `parseToon` uses about an indented line `k` + `tail`: no tab,
   * no trailing whitespace, indentation of exactly `2 * level` blanks.
   */
  lemma IndentedLine(level: nat, k: string, tail: string)
    requires EncKey(k) && tail != [] && tail[0] == ':' && NoChar(tail, '\t') && !IsSpace(tail[|tail| - 1])
    ensures var raw := Pad(level) + k + tail;
      && TrimEnd(ExpandTabs(raw)) == raw && Trim(raw) != ""
      && LeadingBlanks(raw) / 2 == level && raw[level * 2..] == k + tail
  {
    IndentedLineText(level, k, tail);
    IndentedLineLevel(level, k, tail);
  }

  /** An indented written line has no tab and no trailing blank, and is not blank. */
  lemma IndentedLineText(level: nat, k: string, tail: string)
    requires EncKey(k) && tail != [] && tail[0] == ':' && NoChar(tail, '\t') && !IsSpace(tail[|tail| - 1])
    ensures var raw := Pad(level) + k + tail;
      TrimEnd(ExpandTabs(raw)) == raw && Trim(raw) != ""
  {
    var body := k + tail;
    var raw := Pad(level) + k + tail;
    assert raw == Pad(level) + body;
    assert ExpandTabs(raw) == raw by {
      NoTabConcat(k, tail);
      PadNoTab(level, body);
      ExpandTabsPlain(raw);
    }
    assert raw[|raw| - 1] == tail[|tail| - 1];
    assert TrimEnd(raw) == raw;
    TrimNonBlank(raw);
  }

  /** An indented written line is read at its level, and the text after the indent is the body. */
  lemma IndentedLineLevel(level: nat, k: string, tail: string)
    requires EncKey(k) && tail != [] && tail[0] == ':'
    ensures var raw := Pad(level) + k + tail;
      LeadingBlanks(raw) / 2 == level && raw[level * 2..] == k + tail
  {
    var body := k + tail;
    var raw := Pad(level) + k + tail;
    assert raw == Pad(level) + body;
    assert body != [] && body[0] == (if k == [] then ':' else k[0]);
    assert !IsSpace(body[0]) && body[0] != ' ';
    ToonIo.LeadingPad(level, body);
    LeadingBlanksPad(level, body);
    assert level * 2 == 2 * level && (2 * level) / 2 == level;
  }

  lemma NoTabConcat(a: string, b: string)
    requires NoChar(a, '\t') && NoChar(b, '\t')
    ensures NoChar(a + b, '\t')
  {
    var s := a + b;
    forall q | 0 <= q < |s|
      ensures s[q] != '\t'
    {
      if q >= |a| {
        assert s[q] == b[q - |a|];
      }
    }
  }

  lemma {:induction false} IndexOfFirst(a: string, c: char, rest: string)
    requires NoChar(a, c)
    ensures IndexOf(a + [c] + rest, c) == |a|
  {
    if a != [] {
      assert (a + [c] + rest)[1..] == a[1..] + [c] + rest;
      IndexOfFirst(a[1..], c, rest);
    }
  }

  /** The key before the first colon of `k` + `tail` is `k` itself. */
  lemma KeyBeforeColon(k: string, tail: string)
    requires EncKey(k) && tail != [] && tail[0] == ':'
    ensures IndexOf(k + tail, ':') == |k| && (k + tail)[..|k|] == k && (k + tail)[|k| + 1..] == tail[1..]
    ensures NormalizeKey(Trim(k)) == k
  {
    assert tail == [':'] + tail[1..];
    Assoc(k, [':'], tail[1..]);
    IndexOfFirst(k, ':', tail[1..]);
    TrimOfTrimmed(k);
    StripPlain(k);
  }

  /** What `parseToon` reads from a line made of an indentation and `k` + `tail`. */
  lemma LineParts(raw: string, level: nat, k: string, tail: string)
    requires TrimEnd(ExpandTabs(raw)) == raw && Trim(raw) != ""
    requires LeadingBlanks(raw) / 2 == level && raw[level * 2..] == k + tail
    requires IndexOf(k + tail, ':') == |k| && (k + tail)[..|k|] == k && (k + tail)[|k| + 1..] == tail[1..]
    ensures LineEntry(raw) == Some(Entry(level, NormalizeKey(Trim(k)), Trim(tail[1..])))
  {
  }

  lemma TrimAfterBlank(t: string)
    requires t != [] && Trimmed(t)
    ensures Trim(" " + t) == t
  {
    var u := " " + t;
    assert u[|u| - 1] == t[|t| - 1];
    assert TrimEnd(u) == u;
    assert u[1..] == t;
    assert LeadingSpaces(u) == 1 + LeadingSpaces(t);
    TrimOfTrimmed(t);
  }

  lemma ScalarLineAt(level: nat, k: string, t: string, tail: string, raw: string)
    requires EncKey(k) && EncText(t)
    requires tail == [':'] + (" " + t) && raw == Pad(level) + k + tail
    ensures LineEntry(raw) == Some(Entry(level, k, t))
  {
    assert TrimEnd(ExpandTabs(raw)) == raw && Trim(raw) != ""
      && LeadingBlanks(raw) / 2 == level && raw[level * 2..] == k + tail by {
      assert ": " + t == tail;
      assert tail[|tail| - 1] == t[|t| - 1];
      NoTabConcat(": ", t);
      IndentedLine(level, k, tail);
    }
    assert IndexOf(k + tail, ':') == |k| && (k + tail)[..|k|] == k && (k + tail)[|k| + 1..] == tail[1..]
      && NormalizeKey(Trim(k)) == k by {
      KeyBeforeColon(k, tail);
    }
    assert Trim(tail[1..]) == t by {
      assert tail[1..] == " " + t;
      TrimAfterBlank(t);
    }
    LineParts(raw, level, k, tail);
  }

  /** The line `k: t` at `level` is the entry `(level, k, t)`. */
  lemma ScalarLine(level: nat, k: string, t: string)
    requires EncKey(k) && EncText(t)
    ensures LineEntry(Pad(level) + k + ": " + t) == Some(Entry(level, k, t))
  {
    var tail := [':'] + (" " + t);
    assert ": " + t == tail;
    Assoc(Pad(level) + k, ": ", t);
    ScalarLineAt(level, k, t, tail, Pad(level) + k + tail);
  }

  /** The line `k:` at `level` is the entry `(level, k, "")`, which opens an object. */
  lemma SectionLine(level: nat, k: string)
    requires EncKey(k)
    ensures LineEntry(Pad(level) + k + ":") == Some(Entry(level, k, ""))
  {
    IndentedLine(level, k, ":");
    KeyBeforeColon(k, ":");
    assert ":"[1..] == "";
    LineParts(Pad(level) + k + ":", level, k, ":");
  }

  lemma EmptyLine()
    ensures LineEntry("") == None
  {
    assert TrimEnd(ExpandTabs("")) == "";
  }

  // -------------------------------------------------------------- values

  lemma IntText(m: int)
    ensures EncText(IntToString(m))
    ensures IntToString(m)[0] == '-' || IsDigit(IntToString(m)[0])
  {
    IntTextOk(m);
    var t := IntToString(m);
    var n := NatToString(Abs(m));
    assert forall q :: 0 <= q < |t| ==> IsDigit(t[q]) || t[q] == '-' by {
      if m < 0 {
        assert forall q :: 1 <= q < |t| ==> t[q] == n[q - 1];
      }
    }
  }

  /** `toPrimitive` gives a writable scalar back from its `String(v)` text. */
  lemma ValueText(v: Json)
    requires EncValue(v) && IsScalar(v)
    ensures EncText(JsString(v)) && ToPrimitive(JsString(v)) == v
  {
    var t := JsString(v);
    match v
    case Null =>
      TrimOfTrimmed("null");
    case Bool(b) =>
      TrimOfTrimmed(t);
    case Num(d) =>
      NumberTextInt(d);
      IntText(d.mant);
      TrimOfTrimmed(t);
      NumLiteralInt(d.mant);
      NumLiteralIsDecimal(t);
      assert t != "null" && t != "true" && t != "false" by {
        assert t[0] != 'n' && t[0] != 't' && t[0] != 'f';
      }
    case Str(s) =>
      TrimOfTrimmed(s);
  }

  // --------------------------------------------------------- feeding lines

  lemma {:induction false} FeedConcat(s: seq<Frame>, a: seq<string>, b: seq<string>)
    requires |s| >= 1
    ensures Feed(s, a + b) == Feed(Feed(s, a), b)
    decreases |a|
  {
    if a == [] {
      assert a + b == b;
    } else {
      assert (a + b)[0] == a[0];
      assert (a + b)[1..] == a[1..] + b;
      FeedConcat(LineStep(s, a[0]), a[1..], b);
    }
  }

  lemma FeedCons(s: seq<Frame>, h: string, b: seq<string>)
    requires |s| >= 1
    ensures Feed(s, [h] + b) == Feed(LineStep(s, h), b)
  {
    assert ([h] + b)[1..] == b;
  }

  /**
   * The stack `x` continues the object on top of `s`, one level below
   * `level`: the next line at `level` pops `x` down to `s`.
   */
  predicate Below(x: seq<Frame>, s: seq<Frame>, level: nat) {
    StackOk(x) && StackOk(s) && s[|s| - 1].indent == level - 1 && PopTo(x, level) == s
  }

  /** The stack after the line `k:` at `level`: a fresh object stored and opened. */
  lemma OpenedOk(s: seq<Frame>, k: string, level: nat)
    requires StackOk(s) && s[|s| - 1].indent == level - 1
    ensures var o := Opened(s, k, level); StackOk(o) && o[|o| - 1] == Frame(level, k, [])
  {
    var u := SetTop(s, k, Obj([]));
    var o := u + [Frame(level, k, [])];
    assert forall a :: 0 <= a < |u| ==> o[a].indent == s[a].indent;
  }

  lemma FeedOne(x: seq<Frame>, line: string)
    requires |x| >= 1
    ensures Feed(x, [line]) == LineStep(x, line)
  {
    var one := [line];
    assert one[1..] == [];
  }

  /** The line `k: String(v)` stores `v` under the fresh key `k`. */
  lemma ScalarStore(x: seq<Frame>, s: seq<Frame>, k: string, v: Json, level: nat)
    requires Below(x, s, level) && EncKey(k) && EncValue(v) && IsScalar(v) && k !in Keys(s[|s| - 1].fields)
    ensures LineStep(x, Pad(level) + k + ": " + JsString(v)) == AppendTop(s, [Field(k, v)])
  {
    ValueText(v);
    ScalarLine(level, k, JsString(v));
    SetTopFresh(s, k, v);
  }

  /** A scalar entry adds its field to the object on top. */
  lemma ScalarFeed(x: seq<Frame>, s: seq<Frame>, k: string, v: Json, level: nat)
    requires Below(x, s, level) && EncKey(k) && EncValue(v) && IsScalar(v) && k !in Keys(s[|s| - 1].fields)
    ensures Below(Feed(x, FlatEntry(k, v, level)), AppendTop(s, [Field(k, v)]), level)
  {
    var line := Pad(level) + k + ": " + JsString(v);
    assert FlatEntry(k, v, level) == [line];
    FeedOne(x, line);
    ScalarStore(x, s, k, v, level);
    AppendTopKeepsStack(s, [Field(k, v)]);
    PopToDeeper(AppendTop(s, [Field(k, v)]), level);
  }

  /** Once the block of `g` is below the opened `k:`, the next line at `level` stores `k: g`. */
  lemma ObjClose(y: seq<Frame>, s: seq<Frame>, k: string, g: seq<Field>, level: nat)
    requires StackOk(s) && s[|s| - 1].indent == level - 1 && k !in Keys(s[|s| - 1].fields)
    requires Below(y, AppendTop(Opened(s, k, level), g), level + 1)
    ensures Below(y, AppendTop(s, [Field(k, Obj(g))]), level)
  {
    PopToTwice(y, level + 1, level);
    PopSection(s, k, g, level);
    AppendTopKeepsStack(s, [Field(k, Obj(g))]);
  }

  /** The line `k:` opens a fresh object under `k`. */
  lemma ObjHead(x: seq<Frame>, s: seq<Frame>, k: string, g: seq<Field>, level: nat)
    requires Below(x, s, level) && EncKey(k)
    ensures Feed(x, FlatEntry(k, Obj(g), level)) == Feed(Opened(s, k, level), FlatBlock(g, level + 1))
    ensures Below(Opened(s, k, level), Opened(s, k, level), level + 1)
    ensures FreshKeys(Opened(s, k, level), g)
  {
    var h := Pad(level) + k + ":";
    var b := FlatBlock(g, level + 1);
    var o := Opened(s, k, level);
    assert FlatEntry(k, Obj(g), level) == [h] + b;
    FeedCons(x, h, b);
    assert LineStep(x, h) == o by {
      SectionLine(level, k);
    }
    OpenedOk(s, k, level);
    PopToDeeper(o, level + 1);
  }

  /** A nested entry `k:` and the block of `g` below it add the field `k: g`. */
  lemma {:induction false} ObjFeed(x: seq<Frame>, s: seq<Frame>, k: string, g: seq<Field>, level: nat)
    requires Below(x, s, level) && EncKey(k) && EncFields(g) && k !in Keys(s[|s| - 1].fields)
    ensures Below(Feed(x, FlatEntry(k, Obj(g), level)), AppendTop(s, [Field(k, Obj(g))]), level)
    decreases g, 3
  {
    ObjHead(x, s, k, g, level);
    BlockFeed(Opened(s, k, level), Opened(s, k, level), g, level + 1);
    ObjClose(Feed(Opened(s, k, level), FlatBlock(g, level + 1)), s, k, g, level);
  }

  lemma {:induction false} EntryFeed(x: seq<Frame>, s: seq<Frame>, k: string, v: Json, level: nat)
    requires Below(x, s, level) && EncKey(k) && EncValue(v) && k !in Keys(s[|s| - 1].fields)
    ensures Below(Feed(x, FlatEntry(k, v, level)), AppendTop(s, [Field(k, v)]), level)
    decreases v, 0
  {
    if v.Obj? {
      ObjFeed(x, s, k, v.fields, level);
    } else {
      ScalarFeed(x, s, k, v, level);
    }
  }

  lemma {:induction false} BlockFeed(x: seq<Frame>, s: seq<Frame>, g: seq<Field>, level: nat)
    requires Below(x, s, level) && EncFields(g) && FreshKeys(s, g)
    ensures Below(Feed(x, FlatBlock(g, level)), AppendTop(s, g), level)
    decreases g, 2
  {
    if g == [] {
      assert FlatBlock(g, level) == [""];
      FeedOne(x, "");
      EmptyLine();
      AppendNothing(s, g);
    } else {
      FieldsFeed(x, s, g, level);
    }
  }

  lemma AppendNothing(s: seq<Frame>, f: seq<Field>)
    requires |s| >= 1 && f == []
    ensures AppendTop(s, f) == s
  {
    assert s[|s| - 1].fields + f == s[|s| - 1].fields;
  }

  lemma FieldsSplit(x: seq<Frame>, f: seq<Field>, level: nat)
    requires |x| >= 1 && f != []
    ensures Feed(x, FlatFields(f, level))
      == Feed(Feed(x, FlatFields(f[..|f| - 1], level)), FlatEntry(f[|f| - 1].key, f[|f| - 1].value, level))
  {
    FeedConcat(x, FlatFields(f[..|f| - 1], level), FlatEntry(f[|f| - 1].key, f[|f| - 1].value, level));
  }

  /** The fields before the last one keep the conditions, and the last key is still fresh after them. */
  lemma FieldsPrefix(s: seq<Frame>, f: seq<Field>)
    requires |s| >= 1 && f != [] && EncFields(f) && FreshKeys(s, f)
    ensures var p := f[..|f| - 1]; var u := f[|f| - 1];
      && EncFields(p) && FreshKeys(s, p) && EncKey(u.key) && EncValue(u.value)
      && u.key !in Keys(AppendTop(s, p)[|s| - 1].fields)
      && p + [u] == f
  {
    var p := f[..|f| - 1];
    var u := f[|f| - 1];
    assert forall q :: 0 <= q < |p| ==> p[q] == f[q];
    KeysConcat(s[|s| - 1].fields, p);
  }

  /** Feeding the lines of `f` at `level` adds the fields of `f`, in order, to the object on top. */
  lemma {:induction false} FieldsFeed(x: seq<Frame>, s: seq<Frame>, f: seq<Field>, level: nat)
    requires Below(x, s, level) && EncFields(f) && FreshKeys(s, f)
    ensures Below(Feed(x, FlatFields(f, level)), AppendTop(s, f), level)
    decreases f, 1
  {
    if f == [] {
      AppendNothing(s, f);
    } else {
      FieldsPrefix(s, f);
      FieldsFeed(x, s, f[..|f| - 1], level);
      FieldsFeedLast(x, s, f, level);
    }
  }

  /** The last field's lines, fed after those of the fields before it. */
  lemma FieldsFeedLast(x: seq<Frame>, s: seq<Frame>, f: seq<Field>, level: nat)
    requires Below(x, s, level) && EncFields(f) && FreshKeys(s, f) && f != []
    requires Below(Feed(x, FlatFields(f[..|f| - 1], level)), AppendTop(s, f[..|f| - 1]), level)
    ensures Below(Feed(x, FlatFields(f, level)), AppendTop(s, f), level)
    decreases f, 0
  {
    var p := f[..|f| - 1];
    var u := f[|f| - 1];
    FieldsSplit(x, f, level);
    FieldsPrefix(s, f);
    AppendTopKeepsStack(s, p);
    EntryFeed(Feed(x, FlatFields(p, level)), AppendTop(s, p), u.key, u.value, level);
    AppendTopTwice(s, p, [u]);
  }

  // ---------------------------------------------------------- line breaks

  predicate LinesOk(ls: seq<string>) {
    forall i :: 0 <= i < |ls| ==> NoCrLf(ls[i])
  }

  lemma LinesConcat(a: seq<string>, b: seq<string>)
    requires LinesOk(a) && LinesOk(b)
    ensures LinesOk(a + b)
  {
    assert forall i :: |a| <= i < |a + b| ==> (a + b)[i] == b[i - |a|];
  }

  lemma NoBreakConcat(a: string, b: string)
    requires NoLineTerminator(a) && NoLineTerminator(b)
    ensures NoLineTerminator(a + b)
  {
    assert forall i :: |a| <= i < |a + b| ==> (a + b)[i] == b[i - |a|];
  }

  lemma LineNoBreak(level: nat, k: string, tail: string)
    requires NoLineTerminator(k) && NoLineTerminator(tail)
    ensures NoCrLf(Pad(level) + k + tail)
  {
    NoBreakConcat(k, tail);
    Assoc(Pad(level), k, tail);
    PadNoBreak(level, k + tail);
  }

  lemma {:induction false} EntryNoBreak(k: string, v: Json, level: nat)
    requires EncKey(k) && EncValue(v)
    ensures LinesOk(FlatEntry(k, v, level))
    decreases v, 0
  {
    match v
    case Obj(g) =>
      LineNoBreak(level, k, ":");
      BlockNoBreak(g, level + 1);
      LinesConcat([Pad(level) + k + ":"], FlatBlock(g, level + 1));
    case _ =>
      ScalarNoBreak(k, v, level);
  }

  lemma ScalarNoBreak(k: string, v: Json, level: nat)
    requires EncKey(k) && EncValue(v) && IsScalar(v)
    ensures NoCrLf(Pad(level) + k + ": " + JsString(v))
  {
    var t := JsString(v);
    ValueText(v);
    NoBreakConcat(": ", t);
    Assoc(Pad(level) + k, ": ", t);
    LineNoBreak(level, k, ": " + t);
  }

  lemma {:induction false} BlockNoBreak(g: seq<Field>, level: nat)
    requires EncFields(g)
    ensures LinesOk(FlatBlock(g, level))
    decreases g, 2
  {
    if g != [] {
      FieldsNoBreak(g, level);
    }
  }

  /** No physical line of an encoding holds a line break. */
  lemma {:induction false} FieldsNoBreak(f: seq<Field>, level: nat)
    requires EncFields(f)
    ensures LinesOk(FlatFields(f, level))
    decreases f, 1
  {
    if f != [] {
      var p := f[..|f| - 1];
      var u := f[|f| - 1];
      assert EncFields(p) && EncKey(u.key) && EncValue(u.value) by {
        assert forall q :: 0 <= q < |p| ==> p[q] == f[q];
      }
      FieldsNoBreak(p, level);
      EntryNoBreak(u.key, u.value, level);
      LinesConcat(FlatFields(p, level), FlatEntry(u.key, u.value, level));
    }
  }

  // ------------------------------------------------------------ round trip

  /** The text `stringifyToon` writes for an object splits back into its physical lines. */
  lemma TextLines(f: seq<Field>)
    requires EncFields(f) && f != []
    ensures Split(ReplaceCrlf(Stringify(Obj(f), 0)), '\n') == FlatFields(f, 0)
  {
    var ls := FlatFields(f, 0);
    var t := Stringify(Obj(f), 0);
    JoinFields(f, 0);
    assert t == Join(ls, "\n");
    FieldsNoBreak(f, 0);
    JoinLfNoCr(ls);
    ReplaceCrlfPlain(t);
    SplitJoin(ls, '\n');
  }

  lemma RootBelow()
    ensures Below(EmptyStack, EmptyStack, 0)
  {
  }

  lemma CloseRoot(y: seq<Frame>, f: seq<Field>)
    requires Below(y, AppendTop(EmptyStack, f), 0)
    ensures Close(y) == f
  {
    ClosePopTo(y, 0);
  }

  /**
   * `parseToon(stringifyToon(obj)) == obj` for an object of scalars and
   * nested objects whose keys and texts the line format carries.
   */
  lemma StringifyRoundTrip(f: seq<Field>)
    requires EncFields(f)
    ensures Decode(Stringify(Obj(f), 0)) == f
  {
    if f == [] {
      assert Stringify(Obj(f), 0) == "";
      FeedOne(EmptyStack, "");
      EmptyLine();
    } else {
      TextLines(f);
      RootBelow();
      FieldsFeed(EmptyStack, EmptyStack, f, 0);
      CloseRoot(Feed(EmptyStack, FlatFields(f, 0)), f);
    }
  }

  // -------------------------------------------------------- bullet arrays

  /** A word key that is not an integer is a key both parsers read back. */
  lemma WordKey(k: string)
    requires KeyOk(k)
    ensures EncKey(k)
  {
  }

  /** Array items of colon-free single-line text. */
  predicate PlainItems(items: seq<Json>) {
    forall q :: 0 <= q < |items| ==> items[q].Str? && NoCrLf(items[q].s) && NoChar(items[q].s, ':')
  }

  /** Every bullet written for such items is a colon-free single line. */
  lemma {:induction false} PlainBullets(items: seq<Json>, indent: nat)
    requires PlainItems(items)
    ensures forall i :: 0 <= i < |ItemBullets(items, indent)| ==>
      NoCrLf(ItemBullets(items, indent)[i]) && NoChar(ItemBullets(items, indent)[i], ':')
  {
    if items != [] {
      var p := items[..|items| - 1];
      var x := items[|items| - 1];
      assert PlainItems(p) by {
        assert forall q :: 0 <= q < |p| ==> p[q] == items[q];
      }
      PlainBullets(p, indent);
      var line := Pad(indent + 1) + "- " + x.s;
      assert ItemBullets(items, indent) == ItemBullets(p, indent) + [line];
      assert NoCrLf(line) && NoChar(line, ':') by {
        forall q | 0 <= q < |line|
          ensures line[q] != '\r' && line[q] != '\n' && line[q] != ':'
        {
          if q >= |Pad(indent + 1)| + 2 {
            assert line[q] == x.s[q - |Pad(indent + 1)| - 2];
          }
        }
      }
    }
  }

  lemma {:induction false} FeedColonFree(s: seq<Frame>, ls: seq<string>)
    requires |s| >= 1 && forall i :: 0 <= i < |ls| ==> NoChar(ls[i], ':')
    ensures Feed(s, ls) == s
    decreases |ls|
  {
    if ls != [] {
      NoColonIgnored(s, ls[0]);
      FeedColonFree(s, ls[1..]);
    }
  }

  lemma {:induction false} JoinNoColon(a: seq<string>)
    requires forall q :: 0 <= q < |a| ==> NoChar(a[q], ':')
    ensures NoChar(Join(a, "\n"), ':')
  {
    if |a| > 1 {
      JoinNoColon(a[1..]);
    }
  }

  lemma BulletLines(k: string, items: seq<Json>)
    ensures ObjLines([Field(k, Arr(items))], 0) == [k + ":"] + ItemBullets(items, 0)
  {
    var f := [Field(k, Arr(items))];
    assert f[..0] == [];
    assert ObjLines(f, 0) == ObjLines(f[..0], 0) + ToonEncode.EntryLines(k, Arr(items), 0);
    assert ObjLines(f[..0], 0) == [];
    assert Pad(0) + k + ":" == k + ":";
  }

  /** The text of the entry `k:` and its bullets, and its physical lines. */
  lemma BulletText(k: string, items: seq<Json>)
    requires KeyOk(k) && PlainItems(items)
    ensures var ls := [k + ":"] + ItemBullets(items, 0);
      && Stringify(Obj([Field(k, Arr(items))]), 0) == Join(ls, "\n")
      && NoChar(Join(ls, "\n"), '\r')
      && Split(Join(ls, "\n"), '\n') == ls
      && NoChar(Join(ItemBullets(items, 0), "\n"), ':')
  {
    var b := ItemBullets(items, 0);
    var ls := [k + ":"] + b;
    BulletLines(k, items);
    PlainBullets(items, 0);
    WordKey(k);
    LineNoBreak(0, k, ":");
    assert forall i :: 0 <= i < |ls| ==> NoCrLf(ls[i]) by {
      assert forall i :: 1 <= i < |ls| ==> ls[i] == b[i - 1];
    }
    JoinLfNoCr(ls);
    SplitJoin(ls, '\n');
    JoinNoColon(b);
  }

  /** `parseToon` reads the entry `k:` with bullets as an empty object under `k`. */
  lemma DecodeBullets(k: string, items: seq<Json>)
    requires KeyOk(k) && PlainItems(items)
    ensures Decode(Stringify(Obj([Field(k, Arr(items))]), 0)) == [Field(k, Obj([]))]
  {
    var b := ItemBullets(items, 0);
    var h := k + ":";
    BulletText(k, items);
    ReplaceCrlfPlain(Stringify(Obj([Field(k, Arr(items))]), 0));
    FeedCons(EmptyStack, h, b);
    WordKey(k);
    SectionLine(0, k);
    assert Pad(0) + k + ":" == h;
    var o := Opened(EmptyStack, k, 0);
    assert LineStep(EmptyStack, h) == o;
    PlainBullets(items, 0);
    FeedColonFree(o, b);
    assert Close(o) == [Field(k, Obj([]))] by {
      PlugFrame(SetTop(EmptyStack, k, Obj([])), k, [], 0);
    }
  }

  lemma HeaderNeedsColon(t: string)
    requires HeaderMatch(t).Some?
    ensures !NoChar(t, ':')
  {
    var k := WordRun(t);
    var rest := t[k + 1..];
    var d := DigitRun(rest);
    var tail := rest[d + 1..];
    assert tail[|tail| - 2..] == "}:";
    assert tail[|tail| - 1] == ':';
    assert t[|t| - 1] == ':';
  }

  lemma TrimNoChar(s: string, c: char)
    requires NoChar(s, c)
    ensures NoChar(Trim(s), c)
  {
    TrimEndKeeps(s, c);
  }

  /** Text without a colon is no header, no section and no `key: value` pair. */
  lemma ColonFreeKinds(t: string)
    requires NoChar(t, ':')
    ensures ParseArrayHeaderKey(t).None? && !IsSection(t) && MatchKeyValue(t).None?
  {
    TrimNoChar(t, ':');
    if HeaderMatch(Trim(t)).Some? {
      HeaderNeedsColon(Trim(t));
    }
    if t != [] {
      assert t[|t| - 1] != ':';
      assert t[|t| - 1..] == [t[|t| - 1]];
    }
  }

  /** In `parseTOON` a line without a colon is skipped. */
  lemma ColonFreeStep(lines: seq<Line>, i: nat, stack: seq<Frame>)
    requires i < |lines| && StackOk(stack) && NoChar(lines[i].raw, ':')
    ensures Step(lines, i, stack) == (i + 1, PopTo(stack, lines[i].indent))
    ensures Close(PopTo(stack, lines[i].indent)) == Close(stack)
  {
    TrimNoChar(lines[i].raw, ':');
    ColonFreeKinds(Trim(lines[i].raw));
    SkippedLine(lines, i, stack);
  }

  /** In `parseTOON` lines without a colon add nothing: the parse returns the root built so far. */
  lemma {:induction false} RunColonFree(lines: seq<Line>, j: nat, s: seq<Frame>)
    requires j <= |lines| && StackOk(s)
    requires forall i :: j <= i < |lines| ==> NoChar(lines[i].raw, ':')
    ensures Run(lines, j, s) == Close(s)
    decreases |lines| - j
  {
    if j < |lines| {
      var p := PopTo(s, lines[j].indent);
      ColonFreeStep(lines, j, s);
      PopToKeepsStack(s, lines[j].indent);
      RunColonFree(lines, j + 1, p);
    }
  }

  lemma {:induction false} TokensNoColon(rs: seq<string>)
    requires forall i :: 0 <= i < |rs| ==> NoChar(rs[i], ':')
    ensures forall i :: 0 <= i < |TokenizeLines(rs)| ==> NoChar(TokenizeLines(rs)[i].raw, ':')
  {
    if rs != [] {
      TokensNoColon(rs[1..]);
      TrimEndKeeps(rs[0], ':');
    }
  }

  /** The line `k:` is one token line at indent 0. */
  lemma SectionToken(k: string)
    requires KeyOk(k)
    ensures TokenizeLines([k + ":"]) == [Line(0, k + ":")]
  {
    var h := k + ":";
    var one := [h];
    assert one[1..] == [];
    assert h[0] == k[0];
    assert h[|h| - 1] == ':';
    assert !Blank(h);
  }

  /** The token lines of the entry `k:` and its bullets. */
  lemma BulletTokens(k: string, items: seq<Json>)
    requires KeyOk(k) && PlainItems(items)
    ensures var lines := ToLines(Stringify(Obj([Field(k, Arr(items))]), 0));
      && |lines| >= 1 && lines[0] == Line(0, Pad(0) + (k + ":"))
      && forall i :: 1 <= i < |lines| ==> NoChar(lines[i].raw, ':')
  {
    var b := ItemBullets(items, 0);
    var h := k + ":";
    var t := Stringify(Obj([Field(k, Arr(items))]), 0);
    BulletText(k, items);
    ReplaceCrlfPlain(t);
    TokenizeConcat([h], b);
    SectionToken(k);
    PlainBullets(items, 0);
    TokensNoColon(b);
    assert Pad(0) + h == h;
  }

  /** `parseTOON` also reads the entry `k:` with bullets as an empty object under `k`. */
  lemma ParseBullets(k: string, items: seq<Json>)
    requires KeyOk(k) && PlainItems(items)
    ensures Parse(Stringify(Obj([Field(k, Arr(items))]), 0)) == [Field(k, Obj([]))]
  {
    var lines := ToLines(Stringify(Obj([Field(k, Arr(items))]), 0));
    var o := Opened(EmptyStack, k, 0);
    BulletTokens(k, items);
    SectionStepAt(lines, 0, EmptyStack, k, 0);
    OpenedOk(EmptyStack, k, 0);
    RunColonFree(lines, 1, o);
    assert Close(o) == [Field(k, Obj([]))] by {
      PlugFrame(SetTop(EmptyStack, k, Obj([])), k, [], 0);
    }
  }
}
