/**
 * The objects `toonFromObject` writes unambiguously, and the token lines
 * `toLines` makes of their encoding: word keys that are not integers, text
 * that needs no coercion, integer numbers and arrays of text.
 */
module ToonTokens {
  import opened Wrappers
  import opened JsText
  import opened JsonValue
  import opened ToonParse
  import opened ToonParseProps
  import opened ToonIo

  // ------------------------------------------------------------ encodable

  predicate IsWord(k: string) {
    k != [] && forall q :: 0 <= q < |k| ==> IsWordChar(k[q])
  }

  /** A key of `[A-Za-z0-9_]+` that JavaScript does not enumerate ahead of the others. */
  predicate KeyOk(k: string) {
    IsWord(k) && !AllDigits(k)
  }

  /** Text that survives a trip through one line: non-empty, trimmed, single-line. */
  predicate TextOk(s: string) {
    s != [] && Trimmed(s) && NoLineTerminator(s)
  }

  /** Text `parseScalar` leaves as text. */
  predicate NotCoerced(s: string) {
    s != "null" && s != "true" && s != "false" && NumLiteral(s).None?
  }

  predicate ValueOk(v: Json)
    decreases v, 0
  {
    match v
    case Null => true
    case Bool(_) => true
    case Num(d) => d.scale == 0
    case Str(s) => TextOk(s) && NotCoerced(s)
    case Arr(items) => forall q :: 0 <= q < |items| ==> items[q].Str? && TextOk(items[q].s)
    case Obj(g) => FieldsOk(g)
  }

  predicate FieldsOk(f: seq<Field>)
    decreases f, 1
  {
    UniqueKeys(f) && forall q :: 0 <= q < |f| ==> KeyOk(f[q].key) && ValueOk(f[q].value)
  }

  // --------------------------------------------------------------- tokens

  /** The token lines of the array elements, one level deeper than the header. */
  function ItemToks(items: seq<Json>, level: nat): (r: seq<Line>)
    ensures |r| == |items|
  {
    seq(|items|, q requires 0 <= q < |items| => Line(level, Pad(level) + JsString(items[q])))
  }

  /** The token lines one entry of an encoding tokenizes to. */
  function EntryToks(k: string, v: Json, level: nat): (r: seq<Line>)
    ensures |r| >= 1 && r[0].indent == level
    decreases v, 0
  {
    match v
    case Arr(items) => [Line(level, Pad(level) + ArrayHeaderText(k, |items|))] + ItemToks(items, level + 1)
    case Obj(g) => [Line(level, Pad(level) + k + ":")] + Toks(g, level + 1)
    case _ => [Line(level, Pad(level) + k + ": " + JsString(v))]
  }

  /** The token lines of the encoding of `f` at `level`. */
  function Toks(f: seq<Field>, level: nat): seq<Line>
    decreases f, 1
  {
    if f == [] then [] else Toks(f[..|f| - 1], level) + EntryToks(f[|f| - 1].key, f[|f| - 1].value, level)
  }

  /** `toLines` without the CRLF step. */
  function DocToks(s: string): seq<Line> {
    TokenizeLines(Split(s, '\n'))
  }

  // ------------------------------------------------- splitting and joining

  lemma {:induction false} SplitConcat(a: string, b: string)
    ensures Split(a + "\n" + b, '\n') == Split(a, '\n') + Split(b, '\n')
  {
    if a == [] {
      assert a + "\n" + b == "\n" + b;
      assert ("\n" + b)[1..] == b;
    } else {
      var s := a + "\n" + b;
      assert s[0] == a[0];
      assert s[1..] == a[1..] + "\n" + b;
      SplitConcat(a[1..], b);
    }
  }

  lemma {:induction false} TokenizeConcat(x: seq<string>, y: seq<string>)
    ensures TokenizeLines(x + y) == TokenizeLines(x) + TokenizeLines(y)
  {
    if x != [] {
      assert (x + y)[0] == x[0];
      assert (x + y)[1..] == x[1..] + y;
      TokenizeConcat(x[1..], y);
    } else {
      assert x + y == y;
    }
  }

  /** Tokenizing a joined text tokenizes its parts one after the other. */
  lemma DocToksJoin(a: seq<string>, b: seq<string>)
    ensures DocToks(Join(a + b, "\n")) == DocToks(Join(a, "\n")) + DocToks(Join(b, "\n"))
  {
    if a == [] {
      assert a + b == b;
      assert DocToks("") == [] by {
        assert Blank("");
      }
    } else if b == [] {
      assert a + b == a;
      assert DocToks("") == [] by {
        assert Blank("");
      }
    } else {
      JoinConcat(a, b, "\n");
      SplitConcat(Join(a, "\n"), Join(b, "\n"));
      TokenizeConcat(Split(Join(a, "\n"), '\n'), Split(Join(b, "\n"), '\n'));
    }
  }

  lemma {:induction false} JoinNoCr(a: seq<string>)
    requires forall q :: 0 <= q < |a| ==> NoChar(a[q], '\r')
    ensures NoChar(Join(a, "\n"), '\r')
  {
    if |a| > 1 {
      JoinNoCr(a[1..]);
    }
  }

  // ------------------------------------------------------- one text line

  lemma PadNoBreak(level: nat, w: string)
    requires NoLineTerminator(w)
    ensures NoChar(Pad(level) + w, '\n') && NoChar(Pad(level) + w, '\r')
  {
    var s := Pad(level) + w;
    forall q | 0 <= q < |s|
      ensures s[q] != '\n' && s[q] != '\r'
    {
      if q >= |Pad(level)| {
        assert s[q] == w[q - |Pad(level)|];
      }
    }
  }

  /** What an indented line with text `w` tokenizes to. */
  lemma OneLine(level: nat, w: string)
    requires w != [] && Trimmed(w) && NoLineTerminator(w)
    ensures DocToks(Join([Pad(level) + w], "\n")) == [Line(level, Pad(level) + w)]
  {
    var s := Pad(level) + w;
    PadNoBreak(level, w);
    SplitNoSep(s, '\n');
    LeadingPad(level, w);
    assert !Blank(s) by {
      assert !IsSpace(s[2 * level]);
    }
    assert s[|s| - 1] == w[|w| - 1];
    assert TrimEnd(s) == s;
    var one: seq<string> := [s];
    assert one[1..] == [];
    assert TokenizeLines(one) == [MakeLine(s)];
    assert (2 * level) / 2 == level;
    assert MakeLine(s) == Line(level, s);
    assert Join(one, "\n") == s;
  }

  /** The text of a scalar as `String(v)` writes it. */
  lemma ScalarText(v: Json)
    requires ValueOk(v) && IsScalar(v)
    ensures TextOk(JsString(v))
  {
    match v
    case Null =>
    case Bool(b) =>
    case Num(d) =>
      NumberTextInt(d);
      IntTextOk(d.mant);
    case Str(s) =>
  }

  lemma NumberTextInt(d: Decimal)
    requires d.scale == 0
    ensures NumberText(d) == IntToString(d.mant)
  {
    var s := NatToString(Abs(d.mant));
    assert ZeroPad(s, 1) == s;
  }

  lemma IntTextOk(m: int)
    ensures TextOk(IntToString(m))
  {
    var n := NatToString(Abs(m));
    var t := IntToString(m);
    assert forall q :: 0 <= q < |t| ==> IsDigit(t[q]) || t[q] == '-' by {
      if m < 0 {
        assert forall q :: 1 <= q < |t| ==> t[q] == n[q - 1];
      }
    }
    assert t[|t| - 1] == n[|n| - 1];
  }

  /** `k` followed by a single-line tail that ends in a visible character. */
  lemma KeyLineText(k: string, tail: string)
    requires IsWord(k) && tail != [] && !IsSpace(tail[|tail| - 1]) && NoLineTerminator(tail)
    ensures var w := k + tail; w != [] && Trimmed(w) && NoLineTerminator(w)
  {
    var w := k + tail;
    assert w[0] == k[0];
    assert w[|w| - 1] == tail[|tail| - 1];
    forall q | 0 <= q < |w|
      ensures !IsLineTerminator(w[q])
    {
      if q >= |k| {
        assert w[q] == tail[q - |k|];
      } else {
        assert w[q] == k[q];
      }
    }
  }

  /** The line of a scalar entry `k: text`. */
  lemma ScalarLineText(k: string, v: Json)
    requires IsWord(k) && ValueOk(v) && IsScalar(v)
    ensures TextOk(k + (": " + JsString(v)))
  {
    ScalarText(v);
    var t := JsString(v);
    var tail := ": " + t;
    assert tail[|tail| - 1] == t[|t| - 1];
    assert NoLineTerminator(tail) by {
      forall q | 0 <= q < |tail|
        ensures !IsLineTerminator(tail[q])
      {
        if q >= 2 {
          assert tail[q] == t[q - 2];
        }
      }
    }
    KeyLineText(k, tail);
  }

  // ----------------------------------------------------------- the encoding

  lemma Assoc(a: string, b: string, c: string)
    ensures a + b + c == a + (b + c)
  {
  }

  lemma ScalarEntryLines(k: string, v: Json, level: nat)
    requires IsScalar(v)
    ensures EntryLines(k, v, level) == [Pad(level) + (k + (": " + JsString(v)))]
    ensures EntryToks(k, v, level) == [Line(level, Pad(level) + (k + (": " + JsString(v))))]
  {
    Assoc(Pad(level), k, ": " + JsString(v));
    Assoc(Pad(level) + k, ": ", JsString(v));
    Assoc(k, ": ", JsString(v));
    if v.Null? {
      assert ": " + JsString(v) == ": null";
      Assoc(Pad(level), k, ": null");
    }
  }

  lemma ScalarEntryToks(k: string, v: Json, level: nat)
    requires IsWord(k) && ValueOk(v) && IsScalar(v)
    ensures DocToks(Join(EntryLines(k, v, level), "\n")) == EntryToks(k, v, level)
  {
    ScalarEntryLines(k, v, level);
    ScalarLineText(k, v);
    OneLine(level, k + (": " + JsString(v)));
  }

  lemma {:induction false} ItemLinesToks(items: seq<Json>, level: nat)
    requires forall q :: 0 <= q < |items| ==> items[q].Str? && TextOk(items[q].s)
    ensures DocToks(Join(ItemLines(items, level), "\n")) == ItemToks(items, level)
    decreases |items|
  {
    if items == [] {
      assert DocToks("") == [] by {
        assert Blank("");
      }
    } else {
      ItemLinesToks(items[..|items| - 1], level);
      ItemLinesStep(items, level);
    }
  }

  /** The last item adds its one token line. */
  lemma ItemLinesStep(items: seq<Json>, level: nat)
    requires items != [] && items[|items| - 1].Str? && TextOk(items[|items| - 1].s)
    requires DocToks(Join(ItemLines(items[..|items| - 1], level), "\n")) == ItemToks(items[..|items| - 1], level)
    ensures DocToks(Join(ItemLines(items, level), "\n")) == ItemToks(items, level)
  {
    var n := |items| - 1;
    var w := items[n].s;
    assert JsString(items[n]) == w;
    assert ItemLines(items, level) == ItemLines(items[..n], level) + [Pad(level) + w];
    assert ItemToks(items, level) == ItemToks(items[..n], level) + [Line(level, Pad(level) + w)];
    assert DocToks(Join([Pad(level) + w], "\n")) == [Line(level, Pad(level) + w)] by {
      OneLine(level, w);
    }
    DocToksJoin(ItemLines(items[..n], level), [Pad(level) + w]);
  }

  /** The header line `key[n]{text}:` is one visible, single-line text. */
  lemma ArrayHeaderOk(k: string, n: nat)
    requires IsWord(k)
    ensures TextOk(ArrayHeaderText(k, n))
  {
    ArrayHeaderTextShape(k, n);
    var d := NatToString(n);
    var tail := ['['] + (d + [']'] + "{text}:");
    assert NoLineTerminator(tail) by {
      forall q | 0 <= q < |tail|
        ensures !IsLineTerminator(tail[q])
      {
        if 1 <= q <= |d| {
          assert tail[q] == d[q - 1];
        }
      }
    }
    KeyLineText(k, tail);
  }

  /** The section line `key:` is one visible, single-line text. */
  lemma ColonOk(k: string)
    requires IsWord(k)
    ensures TextOk(k + ":")
  {
    KeyLineText(k, ":");
  }

  lemma ArrayEntryToks(k: string, items: seq<Json>, level: nat)
    requires IsWord(k) && ValueOk(Arr(items))
    ensures DocToks(Join(EntryLines(k, Arr(items), level), "\n")) == EntryToks(k, Arr(items), level)
  {
    var h := Pad(level) + ArrayHeaderText(k, |items|);
    ArrayHeaderOk(k, |items|);
    OneLine(level, ArrayHeaderText(k, |items|));
    ItemLinesToks(items, level + 1);
    DocToksJoin([h], ItemLines(items, level + 1));
  }

  lemma ObjEntryLines(k: string, g: seq<Field>, level: nat)
    ensures EntryLines(k, Obj(g), level) == [Pad(level) + (k + ":"), Encode(g, level + 1)]
    ensures EntryToks(k, Obj(g), level) == [Line(level, Pad(level) + (k + ":"))] + Toks(g, level + 1)
    ensures Join(EntryLines(k, Obj(g), level), "\n") == Join([Pad(level) + (k + ":")] + [Encode(g, level + 1)], "\n")
    ensures Join([Encode(g, level + 1)], "\n") == Encode(g, level + 1)
  {
    Assoc(Pad(level), k, ":");
    assert [Pad(level) + (k + ":"), Encode(g, level + 1)] == [Pad(level) + (k + ":")] + [Encode(g, level + 1)];
  }

  lemma {:induction false} ObjEntryToks(k: string, g: seq<Field>, level: nat)
    requires IsWord(k) && FieldsOk(g)
    ensures DocToks(Join(EntryLines(k, Obj(g), level), "\n")) == EntryToks(k, Obj(g), level)
    decreases Obj(g), 0
  {
    var h := Pad(level) + (k + ":");
    var e := Encode(g, level + 1);
    ObjEntryLines(k, g, level);
    ColonOk(k);
    OneLine(level, k + ":");
    FieldsLinesToks(g, level + 1);
    DocToksJoin([h], [e]);
    calc {
      DocToks(Join(EntryLines(k, Obj(g), level), "\n"));
      DocToks(Join([h] + [e], "\n"));
      DocToks(Join([h], "\n")) + DocToks(Join([e], "\n"));
      [Line(level, h)] + DocToks(e);
      [Line(level, h)] + Toks(g, level + 1);
    }
  }

  /** One entry's lines tokenize to its token lines. */
  lemma {:induction false} EntryLinesToks(k: string, v: Json, level: nat)
    requires IsWord(k) && ValueOk(v)
    ensures DocToks(Join(EntryLines(k, v, level), "\n")) == EntryToks(k, v, level)
    decreases v, 1
  {
    if IsScalar(v) {
      ScalarEntryToks(k, v, level);
    } else if v.Arr? {
      ArrayEntryToks(k, v.items, level);
    } else {
      ObjEntryToks(k, v.fields, level);
    }
  }

  lemma FieldsOkPrefix(f: seq<Field>, n: nat)
    requires FieldsOk(f) && n <= |f|
    ensures FieldsOk(f[..n])
  {
    assert forall q :: 0 <= q < n ==> f[..n][q] == f[q];
  }

  /** The encoding of `f` tokenizes to `Toks(f, level)`. */
  lemma {:induction false} FieldsLinesToks(f: seq<Field>, level: nat)
    requires FieldsOk(f)
    ensures DocToks(Encode(f, level)) == Toks(f, level)
    decreases f, 1
  {
    if f == [] {
      assert DocToks("") == [] by {
        assert Blank("");
      }
    } else {
      var n := |f| - 1;
      var e := f[n];
      FieldsOkPrefix(f, n);
      FieldsLinesToks(f[..n], level);
      assert IsWord(e.key) && ValueOk(e.value);
      EntryLinesToks(e.key, e.value, level);
      DocToksJoin(FieldsLines(f[..n], level), EntryLines(e.key, e.value, level));
    }
  }

  // ---------------------------------------------------- no carriage return

  lemma {:induction false} ItemLinesNoCr(items: seq<Json>, level: nat)
    requires forall q :: 0 <= q < |items| ==> items[q].Str? && TextOk(items[q].s)
    ensures forall q :: 0 <= q < |items| ==> NoChar(ItemLines(items, level)[q], '\r')
  {
    forall q | 0 <= q < |items|
      ensures NoChar(ItemLines(items, level)[q], '\r')
    {
      PadNoBreak(level, items[q].s);
    }
  }

  lemma ScalarLinesNoCr(k: string, v: Json, level: nat)
    requires IsWord(k) && ValueOk(v) && IsScalar(v)
    ensures forall q :: 0 <= q < |EntryLines(k, v, level)| ==> NoChar(EntryLines(k, v, level)[q], '\r')
  {
    ScalarEntryLines(k, v, level);
    ScalarLineText(k, v);
    PadNoBreak(level, k + (": " + JsString(v)));
  }

  lemma ArrayLinesNoCr(k: string, items: seq<Json>, level: nat)
    requires IsWord(k) && ValueOk(Arr(items))
    ensures forall q :: 0 <= q < |EntryLines(k, Arr(items), level)| ==> NoChar(EntryLines(k, Arr(items), level)[q], '\r')
  {
    assert EntryLines(k, Arr(items), level) == [Pad(level) + ArrayHeaderText(k, |items|)] + ItemLines(items, level + 1);
    ArrayHeaderOk(k, |items|);
    PadNoBreak(level, ArrayHeaderText(k, |items|));
    ItemLinesNoCr(items, level + 1);
  }

  lemma {:induction false} ObjLinesNoCr(k: string, g: seq<Field>, level: nat)
    requires IsWord(k) && FieldsOk(g)
    ensures forall q :: 0 <= q < |EntryLines(k, Obj(g), level)| ==> NoChar(EntryLines(k, Obj(g), level)[q], '\r')
    decreases Obj(g), 0
  {
    ObjEntryLines(k, g, level);
    ColonOk(k);
    PadNoBreak(level, k + ":");
    EncodeNoCr(g, level + 1);
  }

  lemma {:induction false} EntryLinesNoCr(k: string, v: Json, level: nat)
    requires IsWord(k) && ValueOk(v)
    ensures forall q :: 0 <= q < |EntryLines(k, v, level)| ==> NoChar(EntryLines(k, v, level)[q], '\r')
    decreases v, 1
  {
    if IsScalar(v) {
      ScalarLinesNoCr(k, v, level);
    } else if v.Arr? {
      ArrayLinesNoCr(k, v.items, level);
    } else {
      ObjLinesNoCr(k, v.fields, level);
    }
  }

  lemma {:induction false} FieldsLinesNoCr(f: seq<Field>, level: nat)
    requires FieldsOk(f)
    ensures forall q :: 0 <= q < |FieldsLines(f, level)| ==> NoChar(FieldsLines(f, level)[q], '\r')
    decreases f, 1
  {
    if f != [] {
      var n := |f| - 1;
      FieldsOkPrefix(f, n);
      FieldsLinesNoCr(f[..n], level);
      EntryLinesNoCr(f[n].key, f[n].value, level);
    }
  }

  /** An encoding never contains a carriage return, so `toLines` splits it on `\n` alone. */
  lemma {:induction false} EncodeNoCr(f: seq<Field>, level: nat)
    requires FieldsOk(f)
    ensures NoChar(Encode(f, level), '\r')
    decreases f, 2
  {
    FieldsLinesNoCr(f, level);
    JoinNoCr(FieldsLines(f, level));
  }

  /** `toLines` of an encoding yields exactly its token lines. */
  lemma EncodeLines(f: seq<Field>, level: nat)
    requires FieldsOk(f)
    ensures ToLines(Encode(f, level)) == Toks(f, level)
  {
    EncodeNoCr(f, level);
    ReplaceCrlfPlain(Encode(f, level));
    FieldsLinesToks(f, level);
  }
}
