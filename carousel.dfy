/**
 * The pure helpers and the request normalisation of `app/api/carousel/route.ts`:
 * font-size steps, words per line, title wrapping, the colour sets, slide
 * padding and the clamping of the POST options. SVG assembly, JSZip and the
 * response are not part of this model.
 */
module Carousel {
  import opened Wrappers
  import opened JsText
  import opened JsNumber
  import opened SvgText

  const DefaultWidth: real := 1080.0
  const DefaultHeight: real := 1350.0
  const DefaultCount: real := 5.0

  // ------------------------------------------------------------- font size

  /** `pickFontSize(text)`: the longer the trimmed text, the smaller the font. */
  function PickFontSize(text: string): (fs: nat)
    ensures fs == 40 || fs == 48 || fs == 56 || fs == 64 || fs == 72
    ensures |Trim(text)| <= 32 ==> fs == 72
    ensures |Trim(text)| > 110 ==> fs == 40
  {
    var len := |Trim(text)|;
    if len > 110 then 40
    else if len > 80 then 48
    else if len > 55 then 56
    else if len > 32 then 64
    else 72
  }

  /** The font never grows as the trimmed text gets longer. */
  lemma FontSizeMonotone(a: string, b: string)
    requires |Trim(a)| <= |Trim(b)|
    ensures PickFontSize(b) <= PickFontSize(a)
  {
  }

  /** The words per title line `buildSlideSVG` derives from the font size. */
  function WordsPerLine(fs: nat): nat {
    if fs >= 72 then 6 else if fs >= 64 then 7 else if fs >= 56 then 8 else if fs >= 48 then 9 else 10
  }

  /** 72 → 6, 64 → 7, 56 → 8, 48 → 9, 40 → 10: one more word per line for every 8 points less. */
  lemma WordsPerLineTable(text: string)
    ensures var fs := PickFontSize(text);
      WordsPerLine(fs) == 15 - fs / 8 && 6 <= WordsPerLine(fs) <= 10
  {
  }

  // ------------------------------------------------------------- wrapping

  /** `wrapWords(text, max)`: the trimmed text split at whitespace runs and cut into lines of `max` words. */
  method WrapWords(text: string, max: nat) returns (lines: seq<string>)
    ensures max >= 1 ==> var words := SplitWs(Trim(text)); var cs := Chunks(words, max);
        && lines == JoinEach(cs)
        && Flatten(cs) == words
        && Join(lines, " ") == Join(words, " ")
        && (forall i :: 0 <= i < |cs| - 1 ==> |cs[i]| == max)
        && (forall i :: 0 <= i < |cs| ==> 1 <= |cs[i]| <= max)
        && (|lines| - 1) * max < |words| <= |lines| * max
    ensures max == 0 ==> lines == [""] + SplitWs(Trim(text))
  {
    var words := SplitWs(Trim(text));
    lines := WrapWordList(words, max);
    if max >= 1 {
      ChunksFlatten(words, max);
      ChunksJoin(words, max);
      ChunkSizes(words, max);
    }
  }

  /** The title lines of `buildSlideSVG`: at least one, none empty unless the text is blank. */
  method TitleLines(text: string) returns (lines: seq<string>)
    ensures var words := SplitWs(Trim(text)); var max := WordsPerLine(PickFontSize(text));
      && lines == JoinEach(Chunks(words, max))
      && |lines| >= 1
      && (Trim(text) != [] ==> forall i :: 0 <= i < |words| ==> words[i] != "")
  {
    var max := WordsPerLine(PickFontSize(text));
    lines := WrapWords(text, max);
    var t := Trim(text);
    TrimSpec(text);
    SplitWsWords(t);
  }

  // ------------------------------------------------------------- colours

  /** `palette(i)`: three colour sets used in turn. */
  function Palette(i: nat): Colors {
    var sets := [
      Colors("#0B0F1A", "#0F172A", "#FFFFFF", "#94A3B8", "#8B5CF6"),
      Colors("#111827", "#0B1220", "#F9FAFB", "#D1D5DB", "#60A5FA"),
      Colors("#0F172A", "#1E293B", "#FFFFFF", "#CBD5E1", "#34D399")
    ];
    sets[i % 3]
  }

  /** The colours repeat every three slides and not sooner. */
  lemma PalettePeriod(i: nat)
    ensures Palette(i + 3) == Palette(i)
    ensures Palette(i) != Palette(i + 1) && Palette(i) != Palette(i + 2)
  {
    assert (i + 3) % 3 == i % 3;
    assert (i + 1) % 3 != i % 3 && (i + 2) % 3 != i % 3;
  }

  // ------------------------------------------------------------- slide count

  /** `s.padStart(width, c)`. */
  function PadStart(s: string, width: nat, c: char): (r: string)
    ensures |r| == if |s| >= width then |s| else width
    ensures r[|r| - |s|..] == s
    decreases width - |s|
  {
    if |s| >= width then s else PadStart([c] + s, width, c)
  }

  /** `Slide ${String(n).padStart(2, '0')}`. */
  function SlideLabel(n: nat): string {
    "Slide " + PadStart(NatToString(n), 2, '0')
  }

  /** Below ten the number gets a leading zero. */
  lemma SlideLabelDigits(n: nat)
    requires n < 10
    ensures SlideLabel(n) == "Slide " + ['0', DigitChar(n)]
  {
    assert NatToString(n) == [DigitChar(n)];
    assert PadStart([DigitChar(n)], 2, '0') == PadStart(['0', DigitChar(n)], 2, '0');
  }

  /**
   * `ensureCount(items, n)`: the first items that `slice(0, n)` keeps, then
   * `Slide NN` labels numbered by their 1-based position until there are `n`
   * entries.
   */
  method EnsureCount(items: seq<string>, n: real) returns (out: seq<string>)
    ensures var k := SliceEnd(|items|, Finite(n)); k <= |out| && out[..k] == items[..k]
    ensures forall j :: SliceEnd(|items|, Finite(n)) <= j < |out| ==> out[j] == SlideLabel(j + 1)
    ensures (|out| as real) >= n
    ensures |out| > SliceEnd(|items|, Finite(n)) ==> (|out| as real) < n + 1.0
    ensures n >= 0.0 && n == n.Floor as real ==> |out| == n.Floor
  {
    var k := SliceEnd(|items|, Finite(n));
    out := PadLabels(items[..k], n);
    WholeCount(|items|, k, |out|, n);
  }

  /** Every entry of `out` from position `from` on is the label of its own 1-based position. */
  predicate Labelled(out: seq<string>, from: nat) {
    forall j :: from <= j < |out| ==> out[j] == SlideLabel(j + 1)
  }

  /** Pushing the next label keeps the labelling. */
  lemma PushLabel(out: seq<string>, from: nat)
    requires Labelled(out, from)
    ensures Labelled(out + [SlideLabel(|out| + 1)], from)
  {
    var next := out + [SlideLabel(|out| + 1)];
    forall j | from <= j < |next|
      ensures next[j] == SlideLabel(j + 1)
    {
      if j < |out| {
        assert next[j] == out[j];
      } else {
        assert j == |out| && next[j] == SlideLabel(|out| + 1);
      }
    }
  }

  /** Pushing keeps every entry before the push. */
  lemma PushKeepsPrefix(out: seq<string>, prefix: seq<string>, tag: string)
    requires |prefix| <= |out| && out[..|prefix|] == prefix
    ensures (out + [tag])[..|prefix|] == prefix
  {
    assert (out + [tag])[..|prefix|] == out[..|prefix|];
  }

  /** The `while (out.length < n) out.push(...)` loop of `ensureCount`. */
  method PadLabels(prefix: seq<string>, n: real) returns (out: seq<string>)
    ensures |prefix| <= |out| && out[..|prefix|] == prefix
    ensures Labelled(out, |prefix|)
    ensures (|out| as real) >= n
    ensures |out| > |prefix| ==> (|out| as real) < n + 1.0
  {
    out := prefix;
    while (|out| as real) < n
      invariant |prefix| <= |out| && out[..|prefix|] == prefix
      invariant Labelled(out, |prefix|)
      invariant |out| > |prefix| ==> (|out| as real) < n + 1.0
      decreases n.Floor + 1 - |out|
    {
      BelowFloor(|out|, n);
      PushLabel(out, |prefix|);
      var tag := SlideLabel(|out| + 1);
      PushKeepsPrefix(out, prefix, tag);
      out := out + [tag];
    }
  }

  /** A whole number below `n` is at most `n` rounded down. */
  lemma BelowFloor(m: int, n: real)
    requires (m as real) < n
    ensures m <= n.Floor
  {
  }

  /** Padding to a whole, non-negative `n` stops at exactly `n` entries. */
  lemma WholeCount(len: nat, k: nat, m: nat, n: real)
    requires k == SliceEnd(len, Finite(n)) && k <= m
    requires (m as real) >= n && (m > k ==> (m as real) < n + 1.0)
    ensures n >= 0.0 && n == n.Floor as real ==> m == n.Floor
  {
    if n >= 0.0 && n == n.Floor as real && m == k {
      assert k <= Trunc(n);
    }
  }

  // ------------------------------------------------------------- the request

  datatype Background = Plain | Horde

  /** The JSON body fields the route reads; `None` for missing or non-number values. */
  datatype Body = Body(
    slides: Option<seq<string>>,
    count: Option<Number>,
    width: Option<Number>,
    height: Option<Number>,
    background: Option<string>)

  datatype Settings = Settings(count: real, width: real, height: real, background: Background, baseSlides: seq<string>)

  /** The option handling at the top of `POST`. */
  function SettingsOf(body: Body): (s: Settings)
    ensures 1.0 <= s.count <= 10.0 && s.width >= 320.0 && s.height >= 320.0 && s.baseSlides != []
    ensures s.background == Horde <==> body.background == Some("horde")
  {
    var count := if IsFinite(body.count) then MaxReal(1.0, MinReal(10.0, body.count.value.x)) else DefaultCount;
    var base := if body.slides.Some? && body.slides.value != [] then body.slides.value else ["Hook 1", "Hook 2", "Hook 3"];
    Settings(
      count,
      Dimension(body.width, DefaultWidth),
      Dimension(body.height, DefaultHeight),
      if body.background == Some("horde") then Horde else Plain,
      base)
  }

  /** The defaults, and a count inside [1, 10] kept as given. */
  lemma SettingsDefaults(body: Body)
    ensures var s := SettingsOf(body);
      && (!IsFinite(body.count) ==> s.count == 5.0)
      && (IsFinite(body.count) && 1.0 <= body.count.value.x <= 10.0 ==> s.count == body.count.value.x)
      && (IsFinite(body.count) && body.count.value.x > 10.0 ==> s.count == 10.0)
      && (IsFinite(body.count) && body.count.value.x < 1.0 ==> s.count == 1.0)
      && (!IsFinite(body.width) ==> s.width == 1080.0)
      && (!IsFinite(body.height) ==> s.height == 1350.0)
      && (body.slides.None? || body.slides == Some([]) ==> s.baseSlides == ["Hook 1", "Hook 2", "Hook 3"])
      && (body.slides.Some? && body.slides.value != [] ==> s.baseSlides == body.slides.value)
  {
  }

  /** The slide texts `POST` renders: between 1 and 10 of them, the given ones first. */
  method Slides(body: Body) returns (slides: seq<string>)
    ensures var s := SettingsOf(body); var k := SliceEnd(|s.baseSlides|, Finite(s.count));
      && 1 <= |slides| <= 10
      && k <= |slides|
      && slides[..k] == s.baseSlides[..k]
      && (forall j :: k <= j < |slides| ==> slides[j] == SlideLabel(j + 1))
  {
    var s := SettingsOf(body);
    slides := EnsureCount(s.baseSlides, s.count);
  }
}
