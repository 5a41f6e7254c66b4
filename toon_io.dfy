/**
 * lib/toon/io.ts: the header-count encoder `toonFromObject` and the decode
 * decision of `readToonOrJson`.
 */
module ToonIo {
  import opened Wrappers
  import opened JsText
  import opened JsonValue
  import opened ToonParse
  import ToonParseProps

  // -------------------------------------------------------- toonFromObject

  /** The header line of an array entry: `key[len]{text}:`. */
  function ArrayHeaderText(k: string, n: nat): string {
    k + "[" + NatToString(n) + "]{text}:"
  }

  /** One line per array element, `String(item)` indented at `level`. */
  function ItemLines(items: seq<Json>, level: nat): (r: seq<string>)
    ensures |r| == |items|
  {
    seq(|items|, q requires 0 <= q < |items| => Pad(level) + JsString(items[q]))
  }

  /**
   * What the loop body pushes onto `lines` for the entry `k: v`. A nested
   * object is pushed as one element: its own encoding, already joined.
   */
  function EntryLines(k: string, v: Json, level: nat): (r: seq<string>)
    ensures |r| >= 1
    decreases v, 0
  {
    match v
    case Null => [Pad(level) + k + ": null"]
    case Bool(_) => [Pad(level) + k + ": " + JsString(v)]
    case Num(_) => [Pad(level) + k + ": " + JsString(v)]
    case Str(s) => [Pad(level) + k + ": " + s]
    case Arr(items) => [Pad(level) + ArrayHeaderText(k, |items|)] + ItemLines(items, level + 1)
    case Obj(g) => [Pad(level) + k + ":", Encode(g, level + 1)]
  }

  /** The local `lines` array after the entries `f`, in order. */
  function FieldsLines(f: seq<Field>, level: nat): seq<string>
    decreases f, 1
  {
    if f == [] then []
    else FieldsLines(f[..|f| - 1], level) + EntryLines(f[|f| - 1].key, f[|f| - 1].value, level)
  }

  /** `toonFromObject(obj, level)`: the lines joined with `\n`. */
  function Encode(f: seq<Field>, level: nat): string
    decreases f, 2
  {
    Join(FieldsLines(f, level), "\n")
  }

  /** `toonFromObject`: the entry loop, with a recursive call for nested objects. */
  method ToonFromObject(obj: seq<Field>, level: nat) returns (out: string)
    ensures out == Encode(obj, level)
    decreases obj
  {
    var p := Pad(level);
    var lines: seq<string> := [];
    var i := 0;
    while i < |obj|
      invariant i <= |obj|
      invariant lines == FieldsLines(obj[..i], level)
    {
      var k := obj[i].key;
      var v := obj[i].value;
      ghost var before := lines;
      if v.Null? {
        lines := lines + [p + k + ": null"];
      } else if v.Bool? || v.Num? {
        lines := lines + [p + k + ": " + JsString(v)];
      } else if v.Str? {
        lines := lines + [p + k + ": " + v.s];
      } else if v.Arr? {
        lines := lines + [p + ArrayHeaderText(k, |v.items|)];
        var j := 0;
        while j < |v.items|
          invariant j <= |v.items|
          invariant lines == before + [p + ArrayHeaderText(k, |v.items|)] + ItemLines(v.items[..j], level + 1)
        {
          lines := lines + [Pad(level + 1) + JsString(v.items[j])];
          j := j + 1;
          assert ItemLines(v.items[..j], level + 1)
            == ItemLines(v.items[..j - 1], level + 1) + [Pad(level + 1) + JsString(v.items[j - 1])];
        }
        assert v.items[..j] == v.items;
      } else {
        lines := lines + [p + k + ":"];
        var sub := ToonFromObject(v.fields, level + 1);
        lines := lines + [sub];
      }
      assert obj[..i + 1][..i] == obj[..i];
      i := i + 1;
    }
    assert obj[..i] == obj;
    out := Join(lines, "\n");
  }

  /** Every array in an encoding is announced with its actual length. */
  lemma HeaderCountIsLength(k: string, items: seq<Json>, level: nat)
    requires k != [] && forall q :: 0 <= q < |k| ==> IsWordChar(k[q])
    ensures EntryLines(k, Arr(items), level)[0] == Pad(level) + ArrayHeaderText(k, |items|)
    ensures ParseArrayHeaderKey(Pad(level) + ArrayHeaderText(k, |items|)) == Some(Header(k, |items|, ["text"]))
  {
    HeaderTextParses(k, |items|, level);
  }

  // ------------------------------------------------------------ header line

  lemma {:induction false} WordRunOfWord(k: string, rest: string)
    requires forall q :: 0 <= q < |k| ==> IsWordChar(k[q])
    requires rest != [] && !IsWordChar(rest[0])
    ensures WordRun(k + rest) == |k|
  {
    if k != [] {
      assert (k + rest)[1..] == k[1..] + rest;
      WordRunOfWord(k[1..], rest);
    } else {
      assert k + rest == rest;
    }
  }

  lemma {:induction false} DigitRunOfDigits(d: string, rest: string)
    requires AllDigits(d)
    requires rest != [] && !IsDigit(rest[0])
    ensures DigitRun(d + rest) == |d|
  {
    if d != [] {
      assert (d + rest)[1..] == d[1..] + rest;
      DigitRunOfDigits(d[1..], rest);
    } else {
      assert d + rest == rest;
    }
  }

  lemma {:induction false} DigitsValueOfNat(n: nat)
    ensures DigitsValue(NatToString(n)) == n
  {
    if n >= 10 {
      DigitsValueOfNat(n / 10);
      var s := NatToString(n);
      assert s[..|s| - 1] == NatToString(n / 10);
    }
  }

  /** `Trim` removes exactly the indentation from an indented text with no outer whitespace. */
  lemma TrimPadded(level: nat, w: string)
    requires w != [] && Trimmed(w)
    ensures Trim(Pad(level) + w) == w
  {
    var s := Pad(level) + w;
    assert TrimEnd(s) == s;
    LeadingPad(level, w);
  }

  /** An indented text has exactly the indentation as leading whitespace. */
  lemma {:induction false} LeadingPad(level: nat, w: string)
    requires w != [] && !IsSpace(w[0])
    ensures LeadingSpaces(Pad(level) + w) == 2 * level
    ensures (Pad(level) + w)[2 * level..] == w
  {
    if level > 0 {
      var s := Pad(level) + w;
      assert s == "  " + (Pad(level - 1) + w);
      assert s[1..] == " " + (Pad(level - 1) + w);
      assert s[1..][1..] == Pad(level - 1) + w;
      LeadingPad(level - 1, w);
    } else {
      assert Pad(level) + w == w;
    }
  }

  lemma SplitAround(x: string, c: char, y: string)
    ensures (x + [c] + y)[..|x|] == x && (x + [c] + y)[|x|] == c && (x + [c] + y)[|x| + 1..] == y
  {
  }

  /** The column part `{text}:` written by the encoder names the one column `text`. */
  lemma TextColumns()
    ensures ColumnList("{text}:") == Some(["text"])
  {
    var tail := "{text}:";
    var cols := tail[1..|tail| - 2];
    assert cols == "text";
    assert tail[0] == '{' && tail[|tail| - 2..] == "}:";
    assert forall q :: 0 <= q < |cols| ==> IsColumnChar(cols[q]);
    assert NoChar(cols, ',');
    SplitNoSep(cols, ',');
    TrimOfTrimmed(cols);
    assert TrimAll([cols]) == [cols];
  }

  lemma HeaderMatchParts(k: string, d: string)
    requires k != [] && forall q :: 0 <= q < |k| ==> IsWordChar(k[q])
    requires d != [] && AllDigits(d)
    ensures HeaderMatch(k + ['['] + (d + [']'] + "{text}:")) == Some(Header(k, DigitsValue(d), ["text"]))
  {
    var tail := "{text}:";
    var rest := d + [']'] + tail;
    var t := k + ['['] + rest;
    SplitAround(k, '[', rest);
    WordRunOfWord(k, ['['] + rest);
    assert t == k + (['['] + rest);
    SplitAround(d, ']', tail);
    DigitRunOfDigits(d, [']'] + tail);
    assert rest == d + ([']'] + tail);
    TextColumns();
    assert CountAndColumns(rest) == Some((DigitsValue(d), ["text"]));
  }

  lemma ArrayHeaderTextShape(k: string, n: nat)
    requires k != [] && forall q :: 0 <= q < |k| ==> IsWordChar(k[q])
    ensures ArrayHeaderText(k, n) == k + ['['] + (NatToString(n) + [']'] + "{text}:")
    ensures Trimmed(ArrayHeaderText(k, n)) && ArrayHeaderText(k, n) != []
  {
    var t := ArrayHeaderText(k, n);
    assert t[0] == k[0];
    assert t[|t| - 1] == ':';
  }

  lemma HeaderTextParses(k: string, n: nat, level: nat)
    requires k != [] && forall q :: 0 <= q < |k| ==> IsWordChar(k[q])
    ensures ParseArrayHeaderKey(Pad(level) + ArrayHeaderText(k, n)) == Some(Header(k, n, ["text"]))
  {
    ArrayHeaderTextShape(k, n);
    HeaderMatchParts(k, NatToString(n));
    DigitsValueOfNat(n);
    TrimPadded(level, ArrayHeaderText(k, n));
  }

  // -------------------------------------------------------- readToonOrJson

  /** The `{ data, isTOON }` pair `readToonOrJson` resolves to. */
  datatype Decoded = Decoded(data: Json, isToon: bool)

  /** The declared content type names a TOON body. */
  predicate DeclaresToon(contentType: Option<string>) {
    var ctype := Lower(contentType.GetOr(""));
    Contains(ctype, "text/toon") || Contains(ctype, "text/plain")
  }

  /**
   * `readToonOrJson(req)`, with the `content-type` header and the body text
   * as parameters and `JSON.parse` as the oracle `jsonParse` (`None` for a
   * parse error).
   */
  function ReadToonOrJson(contentType: Option<string>, body: string, jsonParse: string -> Option<Json>): (r: Decoded)
    ensures r.isToon <==> DeclaresToon(contentType) || LooksLikeTOON(body)
    ensures r.isToon ==> r.data == Obj(Parse(body))
    ensures !r.isToon && body != "" && jsonParse(body).Some? ==> r.data == jsonParse(body).value
    ensures !r.isToon && (body == "" || jsonParse(body).None?) ==> r.data == Obj([])
  {
    if DeclaresToon(contentType) then Decoded(Obj(Parse(body)), true)
    else if LooksLikeTOON(body) then Decoded(Obj(Parse(body)), true)
    else if body == "" then Decoded(Obj([]), false)
    else match jsonParse(body)
      case Some(d) => Decoded(d, false)
      case None => Decoded(Obj([]), false)
  }

  /** A one-line JSON body sent as `application/json` is still decoded as TOON once it holds a colon. */
  lemma OneLineJsonIsToon(body: string, jsonParse: string -> Option<Json>)
    requires NoChar(body, '\n') && Contains(body, ":")
    ensures var r := ReadToonOrJson(Some("application/json"), body, jsonParse);
      r.isToon && r.data == Obj(Parse(body))
  {
    ToonParseProps.OneLineWithColon(body);
  }
}
