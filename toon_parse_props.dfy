/**
 * What one step of `parseTOON` does to the stack for each kind of line, and
 * the behaviour of the tokenizer and of `looksLikeTOON` on notable inputs.
 */
module ToonParseProps {
  import opened Wrappers
  import opened JsText
  import opened JsonValue
  import opened ToonParse

  // ------------------------------------------------------------- tokenizer

  /** A token's indent is half its line's leading whitespace, rounded down, and its text is the line without trailing whitespace. */
  lemma MakeLineShape(raw: string)
    ensures 2 * MakeLine(raw).indent <= LeadingSpaces(raw) < 2 * MakeLine(raw).indent + 2
    ensures StartsWith(raw, MakeLine(raw).raw)
    ensures forall i :: |MakeLine(raw).raw| <= i < |raw| ==> IsSpace(raw[i])
  {
    TrimEndSpec(raw);
  }

  /** Trimming the end of a non-blank line leaves it non-blank. */
  lemma TrimEndNonBlank(s: string)
    requires !Blank(s)
    ensures !Blank(TrimEnd(s))
  {
    TrimEndSpec(s);
  }

  /** Every token `toLines` keeps has some non-whitespace text. */
  lemma {:induction false} TokensNonBlank(rs: seq<string>)
    ensures forall i :: 0 <= i < |TokenizeLines(rs)| ==> !Blank(TokenizeLines(rs)[i].raw)
  {
    if rs != [] {
      TokensNonBlank(rs[1..]);
      if !Blank(rs[0]) {
        TrimEndNonBlank(rs[0]);
      }
    }
  }

  /** The number of non-blank lines among the first `i` of `rs`. */
  function NonBlankBefore(rs: seq<string>, i: nat): (n: nat)
    requires i <= |rs|
    ensures n <= i
  {
    if i == 0 then 0
    else (if Blank(rs[0]) then 0 else 1) + NonBlankBefore(rs[1..], i - 1)
  }

  /**
   * `toLines` drops exactly the blank lines and keeps the others in order:
   * there is one token per non-blank line, and the non-blank line `i` gives
   * the token at the position that counts the non-blank lines before it.
   */
  lemma {:induction false} TokenizeKeepsNonBlank(rs: seq<string>)
    ensures |TokenizeLines(rs)| == NonBlankBefore(rs, |rs|)
    ensures forall i :: 0 <= i < |rs| && !Blank(rs[i]) ==>
      NonBlankBefore(rs, i) < |TokenizeLines(rs)| && TokenizeLines(rs)[NonBlankBefore(rs, i)] == MakeLine(rs[i])
    ensures (forall i :: 0 <= i < |rs| ==> !Blank(rs[i])) ==> TokenizeLines(rs) == seq(|rs|, i requires 0 <= i < |rs| => MakeLine(rs[i]))
    ensures (forall i :: 0 <= i < |rs| ==> Blank(rs[i])) ==> TokenizeLines(rs) == []
  {
    TokenizeKept(rs);
    TokenizeUniform(rs);
  }

  /** Input whose lines are all non-blank keeps all of them, and all-blank input keeps none. */
  lemma {:induction false} TokenizeUniform(rs: seq<string>)
    ensures (forall i :: 0 <= i < |rs| ==> !Blank(rs[i])) ==> TokenizeLines(rs) == seq(|rs|, i requires 0 <= i < |rs| => MakeLine(rs[i]))
    ensures (forall i :: 0 <= i < |rs| ==> Blank(rs[i])) ==> TokenizeLines(rs) == []
  {
    if rs != [] {
      TokenizeUniform(rs[1..]);
    }
  }

  /** `KeptAt` holds of every list of lines. */
  lemma {:induction false} TokenizeKept(rs: seq<string>)
    ensures KeptAt(rs)
  {
    if rs != [] {
      TokenizeKept(rs[1..]);
      TokenizeKeptStep(rs);
    }
  }

  /** The token of each non-blank line sits at the count of non-blank lines before it. */
  predicate KeptAt(rs: seq<string>) {
    && |TokenizeLines(rs)| == NonBlankBefore(rs, |rs|)
    && forall i :: 0 <= i < |rs| && !Blank(rs[i]) ==>
      NonBlankBefore(rs, i) < |TokenizeLines(rs)| && TokenizeLines(rs)[NonBlankBefore(rs, i)] == MakeLine(rs[i])
  }

  /** `KeptAt` of the lines after the first gives `KeptAt` of all of them. */
  lemma TokenizeKeptStep(rs: seq<string>)
    requires rs != [] && KeptAt(rs[1..])
    ensures KeptAt(rs)
  {
    var u := rs[1..];
    var h: seq<Line> := if Blank(rs[0]) then [] else [MakeLine(rs[0])];
    var t := TokenizeLines(rs);
    assert t == h + TokenizeLines(u);
    assert NonBlankBefore(rs, |rs|) == |h| + NonBlankBefore(u, |u|);
    forall i | 0 <= i < |rs| && !Blank(rs[i])
      ensures NonBlankBefore(rs, i) < |t| && t[NonBlankBefore(rs, i)] == MakeLine(rs[i])
    {
      if i > 0 {
        assert rs[i] == u[i - 1];
        assert NonBlankBefore(rs, i) == |h| + NonBlankBefore(u, i - 1);
      }
    }
  }

  // ------------------------------------------------------------- the stack

  /** Closing after popping gives the same root: popping only moves objects into their parents. */
  lemma {:induction false} ClosePopTo(s: seq<Frame>, ind: int)
    requires |s| >= 1
    ensures Close(PopTo(s, ind)) == Close(s)
    decreases |s|
  {
    if |s| > 1 && ind <= s[|s| - 1].indent {
      ClosePopTo(Plug(s), ind);
    }
  }

  // ----------------------------------------------------- one step per line kind

  /** A trimmed text that is not blank has a non-empty trim. */
  lemma TrimNonBlank(s: string)
    requires !Blank(s)
    ensures Trim(s) != []
  {
    var e := TrimEnd(s);
    TrimEndNonBlank(s);
    LeadingSpacesSpec(e);
  }

  /** Over tokenized lines, the rows of a block are the trimmed texts of all of its lines, in order. */
  lemma {:induction false} RowsOfTokens(lines: seq<Line>, a: nat, b: nat)
    requires a <= b <= |lines|
    requires forall k :: a <= k < b ==> !Blank(lines[k].raw)
    ensures Rows(lines, a, b) == seq(b - a, k requires 0 <= k < b - a => Str(Trim(lines[a + k].raw)))
    decreases b - a
  {
    if a < b {
      RowsOfTokens(lines, a, b - 1);
      TrimNonBlank(lines[b - 1].raw);
      var prev := seq(b - 1 - a, k requires 0 <= k < b - 1 - a => Str(Trim(lines[a + k].raw)));
      var all := seq(b - a, k requires 0 <= k < b - a => Str(Trim(lines[a + k].raw)));
      assert all == prev + [Str(Trim(lines[b - 1].raw))] by {
        assert forall k :: 0 <= k < |prev| ==> all[k] == prev[k];
      }
    }
  }

  /** `r` is `s` with `key` set to `v` in the object on top; nothing else changes. */
  ghost predicate StoredOnTop(s: seq<Frame>, r: seq<Frame>, key: string, v: Json)
    requires |s| >= 1
  {
    && |r| == |s| && r[..|s| - 1] == s[..|s| - 1]
    && r[|s| - 1].indent == s[|s| - 1].indent && r[|s| - 1].key == s[|s| - 1].key
    && Get(r[|s| - 1].fields, key) == Some(v)
    && SameExcept(r[|s| - 1].fields, s[|s| - 1].fields, key)
  }

  /** Every key other than `key` reads the same in both objects. */
  ghost predicate SameExcept(f: seq<Field>, g: seq<Field>, key: string) {
    forall k' :: k' != key ==> Get(f, k') == Get(g, k')
  }

  lemma SetTopStores(s: seq<Frame>, key: string, v: Json)
    requires |s| >= 1
    ensures StoredOnTop(s, SetTop(s, key, v), key, v)
  {
    var r := SetTop(s, key, v);
    forall k' {
      AssignGet(s[|s| - 1].fields, key, v, k');
    }
    assert r[..|s| - 1] == s[..|s| - 1];
  }

  lemma HeaderStepStores(lines: seq<Line>, i: nat, s: seq<Frame>, key: string)
    requires i < |lines| && |s| >= 1
    ensures var r := HeaderStep(lines, i, s, key);
      && (forall k :: i < k < r.0 ==> lines[k].indent > lines[i].indent)
      && (r.0 < |lines| ==> lines[r.0].indent <= lines[i].indent)
      && StoredOnTop(s, r.1, key, Arr(Rows(lines, i + 1, r.0)))
  {
    var j := ScanEnd(lines, i + 1, lines[i].indent);
    SetTopStores(s, key, Arr(Rows(lines, i + 1, j)));
  }

  /**
   * An array header stores, under its key, the rows of every following line
   * indented deeper than the header, and resumes at the first line that is not.
   */
  lemma HeaderLine(lines: seq<Line>, i: nat, stack: seq<Frame>)
    requires i < |lines| && StackOk(stack)
    requires ParseArrayHeaderKey(Trim(lines[i].raw)).Some?
    ensures var r := Step(lines, i, stack);
      && (forall k :: i < k < r.0 ==> lines[k].indent > lines[i].indent)
      && (r.0 < |lines| ==> lines[r.0].indent <= lines[i].indent)
      && StoredOnTop(PopTo(stack, lines[i].indent), r.1, ParseArrayHeaderKey(Trim(lines[i].raw)).value.key, Arr(Rows(lines, i + 1, r.0)))
  {
    var s := PopTo(stack, lines[i].indent);
    var key := ParseArrayHeaderKey(Trim(lines[i].raw)).value.key;
    assert Step(lines, i, stack) == HeaderStep(lines, i, s, key);
    HeaderStepStores(lines, i, s, key);
  }

  /** `ScanEnd` does not read the lines before `j`. */
  lemma {:induction false} ScanEndLocal(lines: seq<Line>, i: nat, l: Line, j: nat, ind: int)
    requires i < j <= |lines|
    ensures ScanEnd(lines[i := l], j, ind) == ScanEnd(lines, j, ind)
    decreases |lines| - j
  {
    if j < |lines| && lines[j].indent > ind {
      ScanEndLocal(lines, i, l, j + 1, ind);
    }
  }

  /** `Rows` does not read the lines before its range. */
  lemma {:induction false} RowsLocal(lines: seq<Line>, i: nat, l: Line, a: nat, b: nat)
    requires i < a <= b <= |lines|
    ensures Rows(lines[i := l], a, b) == Rows(lines, a, b)
    decreases b - a
  {
    if a < b {
      RowsLocal(lines, i, l, a, b - 1);
    }
  }

  /** The declared count and the column list of a header have no effect: only its key matters. */
  lemma HeaderIgnoresCountCols(lines: seq<Line>, i: nat, stack: seq<Frame>, raw': string)
    requires i < |lines| && StackOk(stack)
    requires ParseArrayHeaderKey(Trim(lines[i].raw)).Some?
    requires ParseArrayHeaderKey(Trim(raw')).Some?
    requires ParseArrayHeaderKey(Trim(raw')).value.key == ParseArrayHeaderKey(Trim(lines[i].raw)).value.key
    ensures Step(lines[i := Line(lines[i].indent, raw')], i, stack) == Step(lines, i, stack)
  {
    var l := Line(lines[i].indent, raw');
    var lines' := lines[i := l];
    var ind := lines[i].indent;
    var key := ParseArrayHeaderKey(Trim(raw')).value.key;
    var s := PopTo(stack, ind);
    ScanEndLocal(lines, i, l, i + 1, ind);
    var j := ScanEnd(lines, i + 1, ind);
    RowsLocal(lines, i, l, i + 1, j);
    assert Step(lines', i, stack) == HeaderStep(lines', i, s, key);
    assert Step(lines, i, stack) == HeaderStep(lines, i, s, key);
  }

  /**
   * A section line `key:` stores a fresh empty object under `key`, replacing
   * any earlier value, and pushes an entry for it at the line's indent.
   */
  lemma SectionLine(lines: seq<Line>, i: nat, stack: seq<Frame>)
    requires i < |lines| && StackOk(stack)
    requires ParseArrayHeaderKey(Trim(lines[i].raw)).None?
    requires IsSection(Trim(lines[i].raw))
    ensures var t := Trim(lines[i].raw);
      var r := Step(lines, i, stack);
      var s := PopTo(stack, lines[i].indent);
      && r.0 == i + 1 && |r.1| == |s| + 1
      && StoredOnTop(s, r.1[..|s|], t[..|t| - 1], Obj([]))
      && r.1[|s|] == Frame(lines[i].indent, t[..|t| - 1], [])
  {
    var t := Trim(lines[i].raw);
    var key := t[..|t| - 1];
    var s := PopTo(stack, lines[i].indent);
    assert Step(lines, i, stack) == (i + 1, SectionStep(s, lines[i].indent, t));
    SetTopStores(s, key, Obj([]));
    assert SectionStep(s, lines[i].indent, t)[..|s|] == SetTop(s, key, Obj([]));
  }

  /** A `key: value` line stores the coerced value under the trimmed key. */
  lemma ValueLine(lines: seq<Line>, i: nat, stack: seq<Frame>)
    requires i < |lines| && StackOk(stack)
    requires ParseArrayHeaderKey(Trim(lines[i].raw)).None?
    requires !IsSection(Trim(lines[i].raw))
    requires MatchKeyValue(Trim(lines[i].raw)).Some?
    ensures var kv := MatchKeyValue(Trim(lines[i].raw)).value;
      var r := Step(lines, i, stack);
      r.0 == i + 1 && StoredOnTop(PopTo(stack, lines[i].indent), r.1, kv.0, ParseScalar(kv.1))
  {
    var t := Trim(lines[i].raw);
    var kv := MatchKeyValue(t).value;
    var s := PopTo(stack, lines[i].indent);
    assert Step(lines, i, stack) == (i + 1, ValueStep(s, t));
    SetTopStores(s, kv.0, ParseScalar(kv.1));
  }

  /** Any other line is skipped: it only pops entries, which leaves the resulting root unchanged. */
  lemma SkippedLine(lines: seq<Line>, i: nat, stack: seq<Frame>)
    requires i < |lines| && StackOk(stack)
    requires ParseArrayHeaderKey(Trim(lines[i].raw)).None?
    requires !IsSection(Trim(lines[i].raw))
    requires MatchKeyValue(Trim(lines[i].raw)).None?
    ensures Step(lines, i, stack) == (i + 1, PopTo(stack, lines[i].indent))
    ensures Close(Step(lines, i, stack).1) == Close(stack)
  {
    var t := Trim(lines[i].raw);
    var s := PopTo(stack, lines[i].indent);
    assert Step(lines, i, stack) == (i + 1, ValueStep(s, t));
    ClosePopTo(stack, lines[i].indent);
  }

  // ------------------------------------------------------------------- CRLF

  predicate NoCrLf(s: string) {
    NoChar(s, '\r') && NoChar(s, '\n')
  }

  lemma {:induction false} ReplaceCrlfPlain(s: string)
    requires NoChar(s, '\r')
    ensures ReplaceCrlf(s) == s
  {
    if s != [] {
      ReplaceCrlfPlain(s[1..]);
    }
  }

  lemma {:induction false} ReplaceCrlfAppend(a: string, b: string)
    requires NoChar(a, '\r')
    ensures ReplaceCrlf(a + b) == a + ReplaceCrlf(b)
  {
    if a == [] {
      assert a + b == b;
    } else {
      var s := a + b;
      assert s[0] == a[0] != '\r';
      assert s[1..] == a[1..] + b;
      ReplaceCrlfAppend(a[1..], b);
      calc {
        ReplaceCrlf(s);
        [s[0]] + ReplaceCrlf(s[1..]);
        [a[0]] + (a[1..] + ReplaceCrlf(b));
        { assert [a[0]] + a[1..] == a; }
        a + ReplaceCrlf(b);
      }
    }
  }

  lemma {:induction false} JoinCrlf(ls: seq<string>)
    requires forall i :: 0 <= i < |ls| ==> NoCrLf(ls[i])
    ensures ReplaceCrlf(Join(ls, "\r\n")) == Join(ls, "\n")
  {
    if |ls| == 1 {
      ReplaceCrlfPlain(ls[0]);
    } else if |ls| > 1 {
      JoinCrlf(ls[1..]);
      var rest := Join(ls[1..], "\r\n");
      assert Join(ls, "\r\n") == ls[0] + ("\r\n" + rest);
      ReplaceCrlfAppend(ls[0], "\r\n" + rest);
      assert ("\r\n" + rest)[2..] == rest;
    }
  }

  lemma {:induction false} JoinLfNoCr(ls: seq<string>)
    requires forall i :: 0 <= i < |ls| ==> NoCrLf(ls[i])
    ensures NoChar(Join(ls, "\n"), '\r')
  {
    if |ls| > 1 {
      JoinLfNoCr(ls[1..]);
    }
  }

  /** Lines separated by CRLF parse exactly like the same lines separated by LF. */
  lemma CrlfAsLf(ls: seq<string>)
    requires forall i :: 0 <= i < |ls| ==> NoCrLf(ls[i])
    ensures Parse(Join(ls, "\r\n")) == Parse(Join(ls, "\n"))
  {
    JoinCrlf(ls);
    JoinLfNoCr(ls);
    ReplaceCrlfPlain(Join(ls, "\n"));
  }

  // ------------------------------------------------------------ tab indent

  /** A tab counts as one whitespace character: a line indented by one tab is at level 0. */
  lemma TabIsNotAnIndent()
    ensures MakeLine("\tb: 1").indent == 0
    ensures MakeLine("  b: 1").indent == 1
  {
    assert LeadingSpaces("\tb: 1") == 1 by {
      assert "\tb: 1"[1..] == "b: 1";
    }
    assert LeadingSpaces("  b: 1") == 2 by {
      assert "  b: 1"[1..] == " b: 1";
      assert " b: 1"[1..] == "b: 1";
    }
  }

  // --------------------------------------------------------- looksLikeTOON

  /** Any one-line text containing a colon looks like TOON, one-line JSON objects included. */
  lemma OneLineWithColon(s: string)
    requires NoChar(s, '\n') && Contains(s, ":")
    ensures LooksLikeTOON(s)
  {
    SplitNoSep(s, '\n');
    assert ColonLines([s]) == 1 by {
      assert [s][1..] == [];
    }
  }

  lemma {:induction false} ContainsChar(s: string, c: char)
    requires Contains(s, [c])
    ensures !NoChar(s, c)
    decreases |s|
  {
    if StartsWith(s, [c]) {
      assert s[0] == c;
    } else {
      ContainsChar(s[1..], c);
      var k :| 0 <= k < |s[1..]| && s[1..][k] == c;
      assert s[k + 1] == c;
    }
  }

  lemma {:induction false} SplitPiecesNoChar(s: string, c: char, d: char)
    requires NoChar(s, d)
    ensures forall i :: 0 <= i < |Split(s, c)| ==> NoChar(Split(s, c)[i], d)
  {
    if s != [] {
      SplitPiecesNoChar(s[1..], c, d);
    }
  }

  lemma {:induction false} NoColonLines(ls: seq<string>)
    requires forall i :: 0 <= i < |ls| ==> NoChar(ls[i], ':')
    ensures ColonLines(ls) == 0
  {
    if ls != [] {
      if Contains(ls[0], ":") {
        ContainsChar(ls[0], ':');
      }
      NoColonLines(ls[1..]);
    }
  }

  /** Text with no colon and no `[digits]{` mark is never taken for TOON. */
  lemma NoColonNoMark(s: string)
    requires NoChar(s, ':') && !HasHeaderMark(s)
    ensures !LooksLikeTOON(s)
  {
    if s != "" {
      SplitPiecesNoChar(s, '\n', ':');
      NoColonLines(Split(s, '\n'));
    }
  }
}
