/**
 * The text helpers the two SVG routes (`app/api/carousel/route.ts` and
 * `app/api/image/cover/route.ts`) share word for word: XML escaping, the
 * word-wrapping loop, the colour sets and the `Math.max(320, …)` sizes.
 */
module SvgText {
  import opened JsText
  import opened Wrappers
  import opened JsNumber

  // --------------------------------------------------------------- escaping

  /** `s.replaceAll(c, rep)` for a one-character pattern. */
  function ReplaceAll(s: string, c: char, rep: string): (r: string)
  {
    if s == [] then [] else (if s[0] == c then rep else [s[0]]) + ReplaceAll(s[1..], c, rep)
  }

  lemma {:induction false} ReplaceAllConcat(a: string, b: string, c: char, rep: string)
    ensures ReplaceAll(a + b, c, rep) == ReplaceAll(a, c, rep) + ReplaceAll(b, c, rep)
  {
    if a != [] {
      assert (a + b)[1..] == a[1..] + b;
      ReplaceAllConcat(a[1..], b, c, rep);
    } else {
      assert a + b == b;
    }
  }

  lemma {:induction false} ReplaceAllAbsent(s: string, c: char, rep: string)
    requires NoChar(s, c)
    ensures ReplaceAll(s, c, rep) == s
  {
    if s != [] {
      ReplaceAllAbsent(s[1..], c, rep);
    }
  }

  /** `escapeXml(s)`: the five `replaceAll` calls, `&` first. */
  function EscapeXml(s: string): string {
    ReplaceAll(ReplaceAll(ReplaceAll(ReplaceAll(ReplaceAll(s,
      '&', "&amp;"), '<', "&lt;"), '>', "&gt;"), '"', "&quot;"), '\'', "&apos;")
  }

  predicate Special(c: char) {
    c == '&' || c == '<' || c == '>' || c == '"' || c == '\''
  }

  /** The entity of one character, or the character itself. */
  function Entity(c: char): string {
    if c == '&' then "&amp;"
    else if c == '<' then "&lt;"
    else if c == '>' then "&gt;"
    else if c == '"' then "&quot;"
    else if c == '\'' then "&apos;"
    else [c]
  }

  /** Escaping one character at a time. */
  function EscapeEach(s: string): string {
    if s == [] then [] else Entity(s[0]) + EscapeEach(s[1..])
  }

  lemma EscapeConcat(a: string, b: string)
    ensures EscapeXml(a + b) == EscapeXml(a) + EscapeXml(b)
  {
    var a1 := ReplaceAll(a, '&', "&amp;");
    var b1 := ReplaceAll(b, '&', "&amp;");
    ReplaceAllConcat(a, b, '&', "&amp;");
    var a2 := ReplaceAll(a1, '<', "&lt;");
    var b2 := ReplaceAll(b1, '<', "&lt;");
    ReplaceAllConcat(a1, b1, '<', "&lt;");
    var a3 := ReplaceAll(a2, '>', "&gt;");
    var b3 := ReplaceAll(b2, '>', "&gt;");
    ReplaceAllConcat(a2, b2, '>', "&gt;");
    var a4 := ReplaceAll(a3, '"', "&quot;");
    var b4 := ReplaceAll(b3, '"', "&quot;");
    ReplaceAllConcat(a3, b3, '"', "&quot;");
    ReplaceAllConcat(a4, b4, '\'', "&apos;");
  }

  lemma ReplaceOne(c: char, p: char, rep: string)
    ensures ReplaceAll([c], p, rep) == if c == p then rep else [c]
  {
    assert [c][1..] == [];
  }

  /** The last four replacements leave an entity without those characters alone. */
  lemma TailAbsent(e: string, from: nat)
    requires 1 <= from <= 5
    requires from <= 1 ==> NoChar(e, '<')
    requires from <= 2 ==> NoChar(e, '>')
    requires from <= 3 ==> NoChar(e, '"')
    requires from <= 4 ==> NoChar(e, '\'')
    ensures from == 1 ==> ReplaceAll(ReplaceAll(ReplaceAll(ReplaceAll(e, '<', "&lt;"), '>', "&gt;"), '"', "&quot;"), '\'', "&apos;") == e
    ensures from == 2 ==> ReplaceAll(ReplaceAll(ReplaceAll(e, '>', "&gt;"), '"', "&quot;"), '\'', "&apos;") == e
    ensures from == 3 ==> ReplaceAll(ReplaceAll(e, '"', "&quot;"), '\'', "&apos;") == e
    ensures from == 4 ==> ReplaceAll(e, '\'', "&apos;") == e
  {
    if from <= 1 { ReplaceAllAbsent(e, '<', "&lt;"); }
    if from <= 2 { ReplaceAllAbsent(e, '>', "&gt;"); }
    if from <= 3 { ReplaceAllAbsent(e, '"', "&quot;"); }
    if from <= 4 { ReplaceAllAbsent(e, '\'', "&apos;"); }
  }

  /** An ordinary character passes all five replacements unchanged. */
  lemma PlainChar(c: char)
    requires !Special(c)
    ensures EscapeXml([c]) == [c]
  {
    ReplaceOne(c, '&', "&amp;");
    ReplaceOne(c, '<', "&lt;");
    ReplaceOne(c, '>', "&gt;");
    ReplaceOne(c, '"', "&quot;");
    ReplaceOne(c, '\'', "&apos;");
  }

  /** The five replacements on a single character. */
  lemma EscapeChar(c: char)
    ensures EscapeXml([c]) == Entity(c)
  {
    ReplaceOne(c, '&', "&amp;");
    if c == '&' {
      TailAbsent("&amp;", 1);
    } else if c == '<' {
      ReplaceOne(c, '<', "&lt;");
      TailAbsent("&lt;", 2);
    } else if c == '>' {
      ReplaceOne(c, '<', "&lt;");
      ReplaceOne(c, '>', "&gt;");
      TailAbsent("&gt;", 3);
    } else if c == '"' {
      ReplaceOne(c, '<', "&lt;");
      ReplaceOne(c, '>', "&gt;");
      ReplaceOne(c, '"', "&quot;");
      TailAbsent("&quot;", 4);
    } else if c == '\'' {
      ReplaceOne(c, '<', "&lt;");
      ReplaceOne(c, '>', "&gt;");
      ReplaceOne(c, '"', "&quot;");
      ReplaceOne(c, '\'', "&apos;");
    } else {
      PlainChar(c);
    }
  }

  /** Because `&` goes first, the chain of replacements escapes every character on its own. */
  lemma {:induction false} EscapeIsPerChar(s: string)
    ensures EscapeXml(s) == EscapeEach(s)
  {
    if s != [] {
      assert s == [s[0]] + s[1..];
      EscapeConcat([s[0]], s[1..]);
      EscapeChar(s[0]);
      EscapeIsPerChar(s[1..]);
    }
  }

  /** No `<`, `>`, `"` or `'`. */
  predicate NoMarkup(s: string) {
    forall i :: 0 <= i < |s| ==> s[i] != '<' && s[i] != '>' && s[i] != '"' && s[i] != '\''
  }

  lemma {:induction false} EscapeEachNoMarkup(s: string)
    ensures NoMarkup(EscapeEach(s))
  {
    if s != [] {
      EscapeEachNoMarkup(s[1..]);
      assert NoMarkup(Entity(s[0]));
    }
  }

  lemma {:induction false} EscapeEachPlain(s: string)
    requires forall i :: 0 <= i < |s| ==> !Special(s[i])
    ensures EscapeEach(s) == s
  {
    if s != [] {
      EscapeEachPlain(s[1..]);
    }
  }

  /** The output of `escapeXml` holds no raw `<`, `>`, `"` or `'`. */
  lemma EscapeSafe(s: string)
    ensures NoMarkup(EscapeXml(s))
  {
    EscapeIsPerChar(s);
    EscapeEachNoMarkup(s);
  }

  /** Text without any of the five characters is left as it is. */
  lemma EscapePlain(s: string)
    requires forall i :: 0 <= i < |s| ==> !Special(s[i])
    ensures EscapeXml(s) == s
  {
    EscapeIsPerChar(s);
    EscapeEachPlain(s);
  }

  /** Reading the five entities back, as an XML parser does. */
  function Unescape(t: string): string
    decreases |t|
  {
    if t == [] then []
    else if StartsWith(t, "&amp;") then "&" + Unescape(t[5..])
    else if StartsWith(t, "&lt;") then "<" + Unescape(t[4..])
    else if StartsWith(t, "&gt;") then ">" + Unescape(t[4..])
    else if StartsWith(t, "&quot;") then "\"" + Unescape(t[6..])
    else if StartsWith(t, "&apos;") then "'" + Unescape(t[6..])
    else [t[0]] + Unescape(t[1..])
  }

  lemma NotPrefix(t: string, p: string, i: nat)
    requires i < |p| && i < |t| && t[i] != p[i]
    ensures !StartsWith(t, p)
  {
    if |p| <= |t| {
      assert t[..|p|][i] == t[i];
    }
  }

  lemma UnescapeEntity(c: char, rest: string)
    ensures Unescape(Entity(c) + rest) == [c] + Unescape(rest)
  {
    var t := Entity(c) + rest;
    if c == '&' {
      assert t[..5] == "&amp;" && t[5..] == rest;
    } else if c == '<' {
      NotPrefix(t, "&amp;", 1);
      assert t[..4] == "&lt;" && t[4..] == rest;
    } else if c == '>' {
      NotPrefix(t, "&amp;", 1);
      NotPrefix(t, "&lt;", 1);
      assert t[..4] == "&gt;" && t[4..] == rest;
    } else if c == '"' {
      NotPrefix(t, "&amp;", 1);
      NotPrefix(t, "&lt;", 1);
      NotPrefix(t, "&gt;", 1);
      assert t[..6] == "&quot;" && t[6..] == rest;
    } else if c == '\'' {
      NotPrefix(t, "&amp;", 2);
      NotPrefix(t, "&lt;", 1);
      NotPrefix(t, "&gt;", 1);
      NotPrefix(t, "&quot;", 1);
      assert t[..6] == "&apos;" && t[6..] == rest;
    } else {
      assert t[0] == c != '&';
      NotPrefix(t, "&amp;", 0);
      NotPrefix(t, "&lt;", 0);
      NotPrefix(t, "&gt;", 0);
      NotPrefix(t, "&quot;", 0);
      NotPrefix(t, "&apos;", 0);
      assert t[1..] == rest;
    }
  }

  /** Every character comes back from its escape: each special character became exactly one entity. */
  lemma {:induction false} EscapeRoundTrip(s: string)
    ensures Unescape(EscapeXml(s)) == s
  {
    EscapeIsPerChar(s);
    EachRoundTrip(s);
  }

  lemma {:induction false} EachRoundTrip(s: string)
    ensures Unescape(EscapeEach(s)) == s
  {
    if s != [] {
      UnescapeEntity(s[0], EscapeEach(s[1..]));
      EachRoundTrip(s[1..]);
    }
  }

  // --------------------------------------------------------------- wrapping

  /** The words split into runs of `max`, the last run possibly shorter. */
  function Chunks(words: seq<string>, max: nat): (r: seq<seq<string>>)
    requires max >= 1
    decreases |words|
  {
    if words == [] then []
    else if |words| <= max then [words]
    else [words[..max]] + Chunks(words[max..], max)
  }

  /** `line.join(' ')` for each line. */
  function JoinEach(cs: seq<seq<string>>): (r: seq<string>)
    ensures |r| == |cs|
    ensures forall i :: 0 <= i < |cs| ==> r[i] == Join(cs[i], " ")
  {
    if cs == [] then [] else [Join(cs[0], " ")] + JoinEach(cs[1..])
  }

  function Flatten(cs: seq<seq<string>>): seq<string> {
    if cs == [] then [] else cs[0] + Flatten(cs[1..])
  }

  /** Appending `ys` to whole runs adds one run. */
  lemma {:induction false} ChunksAppend(xs: seq<string>, ys: seq<string>, max: nat, q: nat)
    requires max >= 1 && |xs| == q * max && 1 <= |ys| <= max
    ensures Chunks(xs + ys, max) == Chunks(xs, max) + [ys]
    decreases q
  {
    if q == 0 {
      assert xs + ys == ys;
    } else {
      assert |xs| == (q - 1) * max + max;
      var s := xs + ys;
      assert s[..max] == xs[..max];
      assert s[max..] == xs[max..] + ys;
      ChunksAppend(xs[max..], ys, max, q - 1);
      if |xs| == max {
        assert xs[max..] == [];
      }
    }
  }

  /** The runs put back together are the words. */
  lemma {:induction false} ChunksFlatten(words: seq<string>, max: nat)
    requires max >= 1
    ensures Flatten(Chunks(words, max)) == words
    decreases |words|
  {
    if |words| > max {
      ChunksFlatten(words[max..], max);
      assert words[..max] + words[max..] == words;
    }
  }

  /** Every run but the last has exactly `max` words, the last between 1 and `max`, and there are ceil(|words| / max) of them. */
  lemma {:induction false} ChunkSizes(words: seq<string>, max: nat)
    requires max >= 1
    ensures var cs := Chunks(words, max);
      && (forall i :: 0 <= i < |cs| - 1 ==> |cs[i]| == max)
      && (forall i :: 0 <= i < |cs| ==> 1 <= |cs[i]| <= max)
      && (|cs| - 1) * max < |words| <= |cs| * max
      && (words == [] <==> cs == [])
    decreases |words|
  {
    if |words| > max {
      var rest := Chunks(words[max..], max);
      ChunkSizes(words[max..], max);
      var cs := Chunks(words, max);
      assert cs == [words[..max]] + rest;
      assert |cs| * max == |rest| * max + max;
      assert (|cs| - 1) * max == |rest| * max;
      assert forall i :: 1 <= i < |cs| ==> cs[i] == rest[i - 1];
    } else if words != [] {
      assert (1 - 1) * max == 0;
    }
  }

  /** Joining the lines with spaces gives the words joined with spaces. */
  lemma {:induction false} ChunksJoin(words: seq<string>, max: nat)
    requires max >= 1
    ensures Join(JoinEach(Chunks(words, max)), " ") == Join(words, " ")
    decreases |words|
  {
    if |words| > max {
      var rest := Chunks(words[max..], max);
      ChunksJoin(words[max..], max);
      ChunkSizes(words[max..], max);
      assert JoinEach(Chunks(words, max)) == [Join(words[..max], " ")] + JoinEach(rest);
      JoinConcat([Join(words[..max], " ")], JoinEach(rest), " ");
      JoinConcat(words[..max], words[max..], " ");
      assert words[..max] + words[max..] == words;
    }
  }

  /** The lines `WrapWordList` has produced once the first `i` words are in. */
  function WrappedUpTo(words: seq<string>, i: nat, max: nat): seq<string>
    requires i <= |words|
  {
    if max >= 1 then JoinEach(Chunks(words[..i], max)) else [""] + words[..i]
  }

  lemma MulSucc(a: nat, b: nat)
    ensures (a + 1) * b == a * b + b
  {
  }

  /** Flushing the pending words `words[k..i]` as one line. */
  lemma FlushLine(words: seq<string>, k: nat, i: nat, lines: seq<string>, max: nat)
    requires k <= i <= |words|
    requires max >= 1 ==> 1 <= i - k <= max && k == |lines| * max && lines == JoinEach(Chunks(words[..k], max))
    requires max == 0 ==> (i == 0 && lines == []) || (i > 0 && k == i - 1 && lines == [""] + words[..i - 1])
    ensures lines + [Join(words[k..i], " ")] == WrappedUpTo(words, i, max)
  {
    if max >= 1 {
      ChunksAppend(words[..k], words[k..i], max, |lines|);
      assert words[..k] + words[k..i] == words[..i];
    } else if i > 0 {
      assert words[k..i] == [words[i - 1]];
      assert [""] + words[..i - 1] + [words[i - 1]] == [""] + words[..i];
    }
  }

  /**
   * The loop of `wrapWords` / `wrapText` over `words`: a line is flushed when it
   * already has `max` words, and the last partial line is flushed at the end.
   * With `max = 0` every word is flushed on its own after an empty first line.
   */
  method WrapWordList(words: seq<string>, max: nat) returns (lines: seq<string>)
    ensures max >= 1 ==> lines == JoinEach(Chunks(words, max))
    ensures max == 0 ==> lines == if words == [] then [] else [""] + words
  {
    lines := [];
    var buf: seq<string> := [];
    var i := 0;
    ghost var k := 0;
    while i < |words|
      invariant 0 <= k <= i <= |words| && buf == words[k..i]
      invariant max >= 1 ==> i - k <= max && (i > 0 ==> k < i) && k == |lines| * max
      invariant max >= 1 ==> lines == JoinEach(Chunks(words[..k], max))
      invariant max == 0 ==> (i == 0 && lines == [] && k == 0) || (i > 0 && k == i - 1 && lines == [""] + words[..i - 1])
    {
      if |buf| >= max {
        FlushLine(words, k, i, lines, max);
        if max >= 1 {
          MulSucc(|lines|, max);
          assert i == k + max;
        }
        lines := lines + [Join(buf, " ")];
        buf := [];
        k := i;
      }
      buf := buf + [words[i]];
      i := i + 1;
    }
    if |buf| > 0 {
      FlushLine(words, k, i, lines, max);
      lines := lines + [Join(buf, " ")];
      assert words[..i] == words;
    }
  }

  /** Text that starts with whitespace splits into an empty first word. */
  lemma LeadingSpaceEmptyWord(text: string)
    requires text != [] && IsSpace(text[0])
    ensures SplitWs(text)[0] == ""
  {
  }

  /** Text that does not end in whitespace has no empty word after the first, and none at all when it does not start with whitespace. */
  lemma {:induction false} SplitWsWords(s: string)
    requires s == [] || !IsSpace(s[|s| - 1])
    ensures forall i :: 1 <= i < |SplitWs(s)| ==> SplitWs(s)[i] != ""
    ensures s != [] && !IsSpace(s[0]) ==> SplitWs(s)[0] != ""
    decreases |s|
  {
    if s == [] {
    } else if IsSpace(s[0]) {
      var t := TrimStart(s);
      LeadingSpacesSpec(s);
      assert t != [] && t[|t| - 1] == s[|s| - 1];
      SplitWsWords(t);
      assert SplitWs(s) == [""] + SplitWs(t);
    } else {
      var t := SplitWs(s[1..]);
      if s[1..] != [] {
        assert s[1..][|s[1..]| - 1] == s[|s| - 1];
      }
      SplitWsWords(s[1..]);
      assert SplitWs(s) == [[s[0]] + t[0]] + t[1..];
    }
  }

  // --------------------------------------------------------------- colours and sizes

  datatype Colors = Colors(bg1: string, bg2: string, fg: string, subtle: string, accent: string)

  /** `Number.isFinite(v) ? Math.max(320, v) : fallback`, for a width or a height. */
  function Dimension(v: Option<Number>, fallback: real): (r: real)
    ensures IsFinite(v) ==> r >= 320.0 && (v.value.x >= 320.0 ==> r == v.value.x)
    ensures !IsFinite(v) ==> r == fallback
  {
    if IsFinite(v) then MaxReal(320.0, v.value.x) else fallback
  }
}
