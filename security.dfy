/**
 * `normalizeBrief` of `lib/security.ts`: lower-case the brief, collapse every
 * whitespace run into one space, keep the first 500 characters.
 */
module Security {
  import opened JsText

  const MaxBrief: nat := 500

  /** `s.slice(0, n)`. */
  function Take(s: string, n: nat): (r: string)
    ensures |r| <= n && |r| <= |s| && r == s[..|r|]
    ensures |s| <= n ==> r == s
  {
    if |s| <= n then s else s[..n]
  }

  /** No upper-case ASCII letter. */
  predicate NoUpper(s: string) {
    forall i :: 0 <= i < |s| ==> !IsUpper(s[i])
  }

  /** Whitespace only as single `' '` characters. */
  predicate SingleSpaced(s: string) {
    (forall i :: 0 <= i < |s| ==> IsSpace(s[i]) ==> s[i] == ' ')
    && (forall i :: 0 < i < |s| ==> !(s[i - 1] == ' ' && s[i] == ' '))
  }

  /** `b.toLowerCase().replace(/\s+/g, ' ').slice(0, 500)`. */
  function NormalizeBrief(b: string): (r: string)
    ensures |r| <= MaxBrief && |r| <= |CollapseWs(Lower(b))|
    ensures r == CollapseWs(Lower(b))[..|r|]
    ensures |r| == MaxBrief || r == CollapseWs(Lower(b))
  {
    Take(CollapseWs(Lower(b)), MaxBrief)
  }

  /** Collapsing starts with the first character when it is not whitespace. */
  lemma CollapseHead(s: string)
    requires s != [] && !IsSpace(s[0])
    ensures CollapseWs(s) != [] && CollapseWs(s)[0] == s[0]
  {
  }

  /** Collapsing leaves no whitespace but single spaces. */
  lemma {:induction false} CollapseSingleSpaced(s: string)
    ensures SingleSpaced(CollapseWs(s))
    decreases |s|
  {
    if s == [] {
    } else if IsSpace(s[0]) {
      var t := TrimStart(s);
      LeadingSpacesSpec(s);
      CollapseSingleSpaced(t);
      if t != [] {
        CollapseHead(t);
      }
      var c := CollapseWs(t);
      assert CollapseWs(s) == " " + c;
    } else {
      CollapseSingleSpaced(s[1..]);
      assert CollapseWs(s) == [s[0]] + CollapseWs(s[1..]);
    }
  }

  /** Collapsing keeps a text free of upper-case letters. */
  lemma {:induction false} CollapseNoUpper(s: string)
    requires NoUpper(s)
    ensures NoUpper(CollapseWs(s))
    decreases |s|
  {
    if s == [] {
    } else if IsSpace(s[0]) {
      CollapseNoUpper(TrimStart(s));
      assert CollapseWs(s) == " " + CollapseWs(TrimStart(s));
    } else {
      CollapseNoUpper(s[1..]);
      assert CollapseWs(s) == [s[0]] + CollapseWs(s[1..]);
    }
  }

  /** A single-spaced text collapses to itself. */
  lemma {:induction false} CollapseFixed(s: string)
    requires SingleSpaced(s)
    ensures CollapseWs(s) == s
    decreases |s|
  {
    if s == [] {
    } else if IsSpace(s[0]) {
      assert s[0] == ' ';
      if |s| > 1 {
        assert !IsSpace(s[1]);
        assert s[1..][0] == s[1];
      }
      assert LeadingSpaces(s[1..]) == 0;
      assert TrimStart(s) == s[1..];
      CollapseFixed(s[1..]);
    } else {
      CollapseFixed(s[1..]);
    }
  }

  lemma LowerNoUpper(s: string)
    ensures NoUpper(Lower(s))
  {
  }

  lemma LowerFixed(s: string)
    requires NoUpper(s)
    ensures Lower(s) == s
  {
  }

  /** The brief is single-spaced and has no upper-case letter. */
  lemma NormalizedShape(b: string)
    ensures SingleSpaced(NormalizeBrief(b)) && NoUpper(NormalizeBrief(b))
  {
    LowerNoUpper(b);
    CollapseSingleSpaced(Lower(b));
    CollapseNoUpper(Lower(b));
  }

  /** Normalising a normalised brief changes nothing. */
  lemma NormalizeIdempotent(b: string)
    ensures NormalizeBrief(NormalizeBrief(b)) == NormalizeBrief(b)
  {
    var r := NormalizeBrief(b);
    NormalizedShape(b);
    LowerFixed(r);
    CollapseFixed(r);
  }
}
