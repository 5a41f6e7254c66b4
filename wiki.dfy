/**
 * `searchWikiSnippets` of `lib/retrieval/wiki.ts`: a network-free stub that
 * returns a clamped prefix of five fixed snippets about the query.
 */
module Wiki {
  import opened Wrappers
  import opened JsText
  import opened JsNumber

  const DefaultLang: string := "it"
  const DefaultLimit: Number := Finite(4.0)

  function Snippet(query: string, text: string, lang: string): string {
    query + ": " + text + " (" + lang + ")"
  }

  lemma SnippetShape(query: string, text: string, lang: string)
    ensures StartsWith(Snippet(query, text, lang), query + ":")
    ensures EndsWith(Snippet(query, text, lang), "(" + lang + ")")
  {
    var s := Snippet(query, text, lang);
    assert s == (query + ":") + (" " + text + " ") + ("(" + lang + ")");
  }

  /** The five fixed snippets, in order. */
  function Base(query: string, lang: string): (r: seq<string>)
    ensures |r| == 5
    ensures forall i :: 0 <= i < 5 ==> StartsWith(r[i], query + ":") && EndsWith(r[i], "(" + lang + ")")
  {
    SnippetShape(query, "definizione sintetica", lang);
    SnippetShape(query, "contesto, storia e utilizzi", lang);
    SnippetShape(query, "best practice e riferimenti", lang);
    SnippetShape(query, "note su ingredienti/processi", lang);
    SnippetShape(query, "risultati e aspettative reali", lang);
    [ Snippet(query, "definizione sintetica", lang),
      Snippet(query, "contesto, storia e utilizzi", lang),
      Snippet(query, "best practice e riferimenti", lang),
      Snippet(query, "note su ingredienti/processi", lang),
      Snippet(query, "risultati e aspettative reali", lang) ]
  }

  /** `Math.max(1, Math.min(8, limit))`. */
  function ClampLimit(limit: Number): Number {
    Max(Finite(1.0), Min(Finite(8.0), limit))
  }

  /** `searchWikiSnippets(query, lang, limit)`, where `None` stands for an omitted argument. */
  function SearchWikiSnippets(query: string, lang: Option<string>, limit: Option<Number>): (r: seq<string>)
    ensures |r| <= 5
    ensures r == Base(query, lang.GetOr(DefaultLang))[..|r|]
    ensures forall i :: 0 <= i < |r| ==>
      StartsWith(r[i], query + ":") && EndsWith(r[i], "(" + lang.GetOr(DefaultLang) + ")")
  {
    var base := Base(query, lang.GetOr(DefaultLang));
    base[..SliceEnd(|base|, ClampLimit(limit.GetOr(DefaultLimit)))]
  }

  /** Any limit but NaN gives between one and five snippets: the limit rounded toward zero, clamped to [1, 5]. */
  lemma SnippetCount(query: string, lang: Option<string>, limit: Number)
    requires !limit.NaN?
    ensures var n := |SearchWikiSnippets(query, lang, Some(limit))|;
      && 1 <= n <= 5
      && (limit.NegInf? || (limit.Finite? && limit.x < 2.0) ==> n == 1)
      && (limit.PosInf? || (limit.Finite? && limit.x >= 5.0) ==> n == 5)
      && (limit.Finite? && 1.0 <= limit.x <= 5.0 ==> n == Trunc(limit.x))
  {
  }

  /** Omitting the limit gives four snippets. */
  lemma DefaultCount(query: string, lang: Option<string>)
    ensures |SearchWikiSnippets(query, lang, None)| == 4
  {
  }

  /** A NaN limit survives the clamping and `slice(0, NaN)` keeps nothing. */
  lemma NaNLimitIsEmpty(query: string, lang: Option<string>)
    ensures SearchWikiSnippets(query, lang, Some(NaN)) == []
  {
  }
}
