/**
 * The pure part of `app/api/image/cover/route.ts`: which text becomes the
 * headline, the two colour themes, the option handling of `POST` and the
 * headline wrapping. SVG assembly, PNG rendering and the response are not part
 * of this model.
 */
module Cover {
  import opened Wrappers
  import opened JsText
  import opened JsNumber
  import opened SvgText
  import Carousel

  const DefaultWidth: real := 1080.0
  const DefaultHeight: real := 1350.0
  const DefaultHeadline: string := "Your headline goes here"
  const HeadlineWords: nat := 22

  /** The JSON body fields the route reads; `None` for missing ones. */
  datatype Body = Body(
    text: Option<string>,
    hooks: Option<seq<string>>,
    captions: Option<seq<string>>,
    slides: Option<seq<string>>,
    theme: Option<string>,
    width: Option<Number>,
    height: Option<Number>,
    format: Option<string>)

  // ------------------------------------------------------------- headline text

  /** A list field holding at least one entry (`b.hooks?.length` is truthy). */
  predicate HasFirst(l: Option<seq<string>>) {
    l.Some? && l.value != []
  }

  /** A `text` field that is not blank once trimmed. */
  predicate HasText(b: Body) {
    b.text.Some? && Trim(b.text.value) != []
  }

  /** `pickText(b)`. */
  function PickText(b: Body): string {
    if HasText(b) then Trim(b.text.value)
    else if HasFirst(b.hooks) then b.hooks.value[0]
    else if HasFirst(b.captions) then b.captions.value[0]
    else if HasFirst(b.slides) then b.slides.value[0]
    else DefaultHeadline
  }

  /** Every source that can supply the headline, in order of preference; the default closes the list. */
  function Candidates(b: Body): (r: seq<string>)
    ensures r != [] && r[|r| - 1] == DefaultHeadline
  {
    (if HasText(b) then [Trim(b.text.value)] else [])
    + (if HasFirst(b.hooks) then [b.hooks.value[0]] else [])
    + (if HasFirst(b.captions) then [b.captions.value[0]] else [])
    + (if HasFirst(b.slides) then [b.slides.value[0]] else [])
    + [DefaultHeadline]
  }

  /** The headline is the first available candidate. */
  lemma PickTextFirst(b: Body)
    ensures PickText(b) == Candidates(b)[0]
  {
  }

  /** A non-blank `text` wins over every list, and it arrives trimmed. */
  lemma TextWins(b: Body)
    requires HasText(b)
    ensures PickText(b) == Trim(b.text.value) && PickText(b) != [] && Trimmed(PickText(b))
  {
    TrimSpec(b.text.value);
  }

  /** An all-whitespace text trims to nothing. */
  lemma BlankTrim(s: string)
    requires Blank(s)
    ensures Trim(s) == []
  {
    TrimEndSpec(s);
  }

  /** A blank `text` counts as no text at all. */
  lemma BlankTextIgnored(b: Body)
    requires b.text.Some? && Blank(b.text.value)
    ensures PickText(b) == PickText(b.(text := None))
  {
    BlankTrim(b.text.value);
    assert !HasText(b);
  }

  /** Without text and with no non-empty list the default headline is used. */
  lemma DefaultWhenNothing(b: Body)
    requires !HasText(b) && !HasFirst(b.hooks) && !HasFirst(b.captions) && !HasFirst(b.slides)
    ensures PickText(b) == DefaultHeadline
  {
  }

  // ------------------------------------------------------------- theme and format

  datatype Theme = Dark | Light
  datatype Format = Svg | Png

  /** `colors(theme)`. */
  function ColorsFor(t: Theme): Colors {
    match t
    case Light => Colors("#F8FAFC", "#E2E8F0", "#0B1220", "#334155", "#6366F1")
    case Dark => Colors("#0B0F1A", "#0F172A", "#FFFFFF", "#94A3B8", "#8B5CF6")
  }

  /** The two themes differ in every colour, and the dark one is the first carousel colour set. */
  lemma ThemeColors()
    ensures var l := ColorsFor(Light); var d := ColorsFor(Dark);
      l.bg1 != d.bg1 && l.bg2 != d.bg2 && l.fg != d.fg && l.subtle != d.subtle && l.accent != d.accent
    ensures ColorsFor(Dark) == Carousel.Palette(0)
  {
  }

  datatype Settings = Settings(theme: Theme, width: real, height: real, format: Format, text: string)

  /** The option handling at the top of `POST`. */
  function SettingsOf(b: Body): (s: Settings)
    ensures s.theme == Light <==> b.theme == Some("light")
    ensures s.format == Png <==> b.format == Some("png")
    ensures s.width >= 320.0 && s.height >= 320.0
    ensures !IsFinite(b.width) ==> s.width == DefaultWidth
    ensures !IsFinite(b.height) ==> s.height == DefaultHeight
    ensures IsFinite(b.width) && b.width.value.x >= 320.0 ==> s.width == b.width.value.x
    ensures IsFinite(b.height) && b.height.value.x >= 320.0 ==> s.height == b.height.value.x
  {
    Settings(
      if b.theme == Some("light") then Light else Dark,
      Dimension(b.width, DefaultWidth),
      Dimension(b.height, DefaultHeight),
      if b.format == Some("png") then Png else Svg,
      PickText(b))
  }

  // ------------------------------------------------------------- wrapping

  /** `wrapText(text, max)`: unlike the carousel, the text is split without trimming first. */
  method WrapText(text: string, max: nat) returns (lines: seq<string>)
    ensures max >= 1 ==> var words := SplitWs(text); var cs := Chunks(words, max);
      && lines == JoinEach(cs)
      && Join(lines, " ") == Join(words, " ")
      && (forall i :: 0 <= i < |cs| - 1 ==> |cs[i]| == max)
      && (forall i :: 0 <= i < |cs| ==> 1 <= |cs[i]| <= max)
      && (|lines| - 1) * max < |words| <= |lines| * max
    ensures max == 0 ==> lines == [""] + SplitWs(text)
  {
    var words := SplitWs(text);
    lines := WrapWordList(words, max);
    if max >= 1 {
      ChunksJoin(words, max);
      ChunkSizes(words, max);
    }
  }

  /**
   * The headline lines `buildSVG` draws: the picked text wrapped at 22 words.
   * A text with leading whitespace (a hook or caption, which are not trimmed)
   * starts with an empty word.
   */
  method Headline(b: Body) returns (lines: seq<string>)
    ensures var words := SplitWs(PickText(b));
      && lines == JoinEach(Chunks(words, HeadlineWords))
      && 1 <= |lines|
      && Join(lines, " ") == Join(words, " ")
      && (PickText(b) != [] && IsSpace(PickText(b)[0]) ==> words[0] == "")
      && (HasText(b) ==> words[0] != "")
  {
    var text := PickText(b);
    lines := WrapText(text, HeadlineWords);
    if text != [] && IsSpace(text[0]) {
      LeadingSpaceEmptyWord(text);
    }
    if HasText(b) {
      TrimSpec(b.text.value);
      SplitWsWords(text);
    }
  }
}
