/** The news relevance layer of the dashboard (`fetch_covid_news` in app.py):
    the search query sent to the news API, the case-insensitive relevance test,
    and the two client-side filtering passes over the API's answer. */
module News {
  import opened Wrappers
  import opened Seqs
  import opened Text

  /** An article of the news API's answer. Every field may be JSON null (`None`). */
  datatype Article = Article(
    title: Option<string>,
    description: Option<string>,
    content: Option<string>,
    url: Option<string>,
    author: Option<string>,
    sourceName: Option<string>,
    urlToImage: Option<string>)

  /** The parameters of one `get_everything` call. */
  datatype NewsRequest = NewsRequest(query: string, fromDate: string, sortBy: string, language: string)

  /** What the API call yields: `Raised` stands for any exception (network failure, bad
      credentials, a payload without the expected keys), otherwise the decoded answer. */
  datatype ApiResponse =
    | Raised
    | Response(status: string, totalResults: int, articles: seq<Article>)

  const SEARCH_KEYWORDS: seq<string> := ["corona", "covid", "pandemic", "coronavirus", "covid19", "covid-19"]

  /** Python's `str(v)`: a null field prints as the text "None". */
  function Str(f: Option<string>): string {
    match f
    case None => "None"
    case Some(s) => s
  }

  /** The lower-cased concatenation of title, description and content, with no separator. */
  function CombinedText(a: Article): string {
    Lower(Str(a.title) + Str(a.description) + Str(a.content))
  }

  /** `keywords_in_news_article`: some search term occurs in the article's combined text. */
  function KeywordsInNewsArticle(a: Article, terms: seq<string>): (b: bool)
    ensures b <==> exists k :: 0 <= k < |terms| && Mentions(CombinedText(a), terms[k])
  {
    ContainsAny(CombinedText(a), terms)
  }

  /** The relevance test as a predicate, for filtering. */
  function MentionsSomeOf(terms: seq<string>): Article -> bool {
    a => KeywordsInNewsArticle(a, terms)
  }

  /** The location terms of one fetch: the country names followed by the continent
      name when it is non-empty, all lower-cased. */
  function SearchTerms(continent: string, countries: seq<string>): (terms: seq<string>)
    ensures |terms| == |countries| + (if |continent| > 0 then 1 else 0)
    ensures forall i :: 0 <= i < |countries| ==> terms[i] == Lower(countries[i])
    ensures |continent| > 0 ==> terms != [] && terms[|terms| - 1] == Lower(continent)
  {
    var withContinent := if |continent| > 0 then countries + [continent] else countries;
    seq(|withContinent|, i requires 0 <= i < |withContinent| => Lower(withContinent[i]))
  }

  function Quote(t: string): string {
    "\"" + t + "\""
  }

  function QuoteAll(ts: seq<string>): seq<string> {
    seq(|ts|, i requires 0 <= i < |ts| => Quote(ts[i]))
  }

  /** `("t1" OR "t2" OR ...)` with every term double-quoted. */
  function OrGroup(ts: seq<string>): string {
    "(" + Join(" OR ", QuoteAll(ts)) + ")"
  }

  /** The query string: the keyword group, ANDed with the location group when there are location terms. */
  function BuildQuery(terms: seq<string>): string {
    if |terms| > 0 then OrGroup(SEARCH_KEYWORDS) + " AND " + OrGroup(terms)
    else OrGroup(SEARCH_KEYWORDS)
  }

  /** The request of one fetch: articles since `startDate`, sorted by relevancy, in English. */
  function Request(continent: string, countries: seq<string>, startDate: string): NewsRequest {
    NewsRequest(BuildQuery(SearchTerms(continent, countries)), startDate, "relevancy", "en")
  }

  /** The answer is used only when its status is "ok" and its result count is non-zero. */
  predicate Usable(resp: ApiResponse) {
    resp.Response? && resp.status == "ok" && resp.totalResults != 0
  }

  /** The articles a fetch keeps: those mentioning a search keyword and, when there are
      location terms, also one of them. */
  ghost predicate Relevant(a: Article, terms: seq<string>) {
    KeywordsInNewsArticle(a, SEARCH_KEYWORDS) && (terms != [] ==> KeywordsInNewsArticle(a, terms))
  }

  /** An article relevant to a search with places mentions, in lower case, the continent
      or one of the countries by name. */
  lemma RelevantMentionsAPlace(a: Article, continent: string, countries: seq<string>)
    requires Relevant(a, SearchTerms(continent, countries))
    requires countries != [] || continent != ""
    ensures exists l :: (l == continent || l in countries) && Mentions(CombinedText(a), Lower(l))
  {
  }

  /** `fetch_covid_news`, with the API as a parameter. */
  function FetchCovidNews(continent: string, countries: seq<string>, startDate: string,
                          api: NewsRequest -> ApiResponse): (news: seq<Article>)
    ensures !Usable(api(Request(continent, countries, startDate))) ==> news == []
    ensures Usable(api(Request(continent, countries, startDate))) ==>
              IsSubsequence(news, api(Request(continent, countries, startDate)).articles)
    ensures forall a :: a in news ==> Relevant(a, SearchTerms(continent, countries))
    ensures Usable(api(Request(continent, countries, startDate))) ==>
              forall a :: a in api(Request(continent, countries, startDate)).articles ==>
                (a in news <==> Relevant(a, SearchTerms(continent, countries)))
  {
    var resp := api(Request(continent, countries, startDate));
    if Usable(resp) then KeepRelevant(resp.articles, SearchTerms(continent, countries)) else []
  }

  /** A usable answer's relevant articles are all kept, each as many times as the API
      gave it: the filters drop nothing relevant, duplicates included. */
  lemma FetchKeepsDuplicates(continent: string, countries: seq<string>, startDate: string,
                             api: NewsRequest -> ApiResponse, a: Article)
    requires Usable(api(Request(continent, countries, startDate)))
    ensures multiset(FetchCovidNews(continent, countries, startDate, api))[a]
         == if Relevant(a, SearchTerms(continent, countries))
            then multiset(api(Request(continent, countries, startDate)).articles)[a] else 0
  {
  }

  /** The two filtering passes of `fetch_covid_news`: first the articles with a COVID
      keyword, then, when there are location terms, those with one of them. */
  function KeepRelevant(articles: seq<Article>, terms: seq<string>): (kept: seq<Article>)
    ensures IsSubsequence(kept, articles)
    ensures forall a :: a in kept <==> a in articles && Relevant(a, terms)
    ensures forall a :: multiset(kept)[a] == if Relevant(a, terms) then multiset(articles)[a] else 0
  {
    var withKeyword := Filter(articles, MentionsSomeOf(SEARCH_KEYWORDS));
    if |terms| > 0 then
      var kept := Filter(withKeyword, MentionsSomeOf(terms));
      SubsequenceTransitive(kept, withKeyword, articles);
      kept
    else
      withKeyword
  }

  lemma {:induction false} SubsequenceTransitive<T>(a: seq<T>, b: seq<T>, c: seq<T>)
    requires IsSubsequence(a, b) && IsSubsequence(b, c)
    ensures IsSubsequence(a, c)
    decreases |c|
  {
    if a != [] && c != [] {
      if IsSubsequence(b, c[1..]) {
        SubsequenceTransitive(a, b, c[1..]);
      } else {
        assert b[0] == c[0] && IsSubsequence(b[1..], c[1..]);
        if a[0] == b[0] && IsSubsequence(a[1..], b[1..]) {
          SubsequenceTransitive(a[1..], b[1..], c[1..]);
        } else {
          SubsequenceTransitive(a, b[1..], c[1..]);
        }
      }
    }
  }

  // Reading a query back. The query is unambiguous as long as no term contains a
  // double quote: the location terms can be recovered from it.

  /** The index of the first `c` in `s`, if any. */
  function Find(s: string, c: char): (r: Option<nat>)
    ensures r.Some? ==> r.value < |s| && s[r.value] == c && c !in s[..r.value]
    ensures r.None? ==> c !in s
    decreases |s|
  {
    if s == [] then None
    else if s[0] == c then Some(0)
    else
      match Find(s[1..], c)
      case None => None
      case Some(j) =>
        assert s[..j + 1] == [s[0]] + s[1..][..j];
        Some(j + 1)
  }

  /** Reads `"t1" OR ... OR "tn")` from the front of `s`: the terms and the text after `)`. */
  function ParseTerms(s: string): Option<(seq<string>, string)>
    decreases |s|
  {
    if |s| == 0 || s[0] != '"' then None
    else
      match Find(s[1..], '"')
      case None => None
      case Some(j) =>
        var t := s[1..j + 1];
        var rest := s[j + 2..];
        if |rest| > 0 && rest[0] == ')' then Some(([t], rest[1..]))
        else if IsPrefix(" OR ", rest) then
          match ParseTerms(rest[4..])
          case None => None
          case Some(parsed) => Some(([t] + parsed.0, parsed.1))
        else None
  }

  /** Reads a parenthesised OR-group from the front of `s`. */
  function ParseGroup(s: string): Option<(seq<string>, string)> {
    if |s| > 0 && s[0] == '(' then ParseTerms(s[1..]) else None
  }

  /** The location terms of a query: `Some([])` for the keyword group alone. */
  function ParseQuery(q: string): Option<seq<string>> {
    match ParseGroup(q)
    case None => None
    case Some(first) =>
      if first.0 != SEARCH_KEYWORDS then None
      else if first.1 == "" then Some([])
      else if IsPrefix(" AND ", first.1) then
        match ParseGroup(first.1[5..])
        case None => None
        case Some(second) => if second.1 == "" then Some(second.0) else None
      else None
  }

  ghost predicate Unquoted(ts: seq<string>) {
    forall i :: 0 <= i < |ts| ==> '"' !in ts[i]
  }

  lemma FindAfterUnquoted(t: string, tail: string)
    requires '"' !in t
    ensures Find(t + ['"'] + tail, '"') == Some(|t|)
  {
    var s := t + ['"'] + tail;
    assert s[|t|] == '"';
    assert s[..|t|] == t;
  }

  /** A quoted term followed by `)` closes the group. */
  lemma ParseLastTerm(t: string, r: string)
    requires '"' !in t
    ensures ParseTerms(Quote(t) + ")" + r) == Some(([t], r))
  {
    var s := Quote(t) + ")" + r;
    var u := s[1..];
    assert u == t + ['"'] + (")" + r);
    FindAfterUnquoted(t, ")" + r);
    assert Find(u, '"') == Some(|t|);
    assert s[1..|t| + 1] == t;
    var rest := s[|t| + 2..];
    assert rest == ")" + r;
    assert rest[1..] == r;
  }

  /** A quoted term followed by ` OR ` continues with the rest of the group. */
  lemma ParseNextTerm(t: string, more: string, ts: seq<string>, r: string)
    requires '"' !in t
    requires ParseTerms(more) == Some((ts, r))
    ensures ParseTerms(Quote(t) + " OR " + more) == Some(([t] + ts, r))
  {
    var s := Quote(t) + " OR " + more;
    var u := s[1..];
    assert u == t + ['"'] + (" OR " + more);
    FindAfterUnquoted(t, " OR " + more);
    assert Find(u, '"') == Some(|t|);
    assert s[1..|t| + 1] == t;
    var rest := s[|t| + 2..];
    assert rest == " OR " + more;
    assert rest[0] == ' ' && IsPrefix(" OR ", rest);
    assert rest[4..] == more;
  }

  /** A joined OR-list starts with its first quoted term. */
  lemma JoinFront(ts: seq<string>, r: string)
    requires ts != []
    ensures Join(" OR ", QuoteAll(ts)) + ")" + r ==
      Quote(ts[0]) + (if |ts| == 1 then ")" + r else " OR " + (Join(" OR ", QuoteAll(ts[1..])) + ")" + r))
  {
    var qs := QuoteAll(ts);
    assert qs[0] == Quote(ts[0]);
    if |ts| > 1 {
      assert qs[1..] == QuoteAll(ts[1..]);
    }
  }

  lemma {:induction false} ParseTermsOfJoin(ts: seq<string>, r: string)
    requires ts != [] && Unquoted(ts)
    ensures ParseTerms(Join(" OR ", QuoteAll(ts)) + ")" + r) == Some((ts, r))
    decreases |ts|
  {
    var t := ts[0];
    if |ts| == 1 {
      assert Join(" OR ", QuoteAll(ts)) + ")" + r == Quote(t) + ")" + r by {
        JoinFront(ts, r);
      }
      ParseLastTerm(t, r);
      assert ts == [t];
    } else {
      var more := Join(" OR ", QuoteAll(ts[1..])) + ")" + r;
      assert Join(" OR ", QuoteAll(ts)) + ")" + r == Quote(t) + " OR " + more by {
        JoinFront(ts, r);
      }
      assert Unquoted(ts[1..]);
      ParseTermsOfJoin(ts[1..], r);
      ParseNextTerm(t, more, ts[1..], r);
      assert ts == [t] + ts[1..];
    }
  }

  lemma ParseGroupOfOrGroup(ts: seq<string>, r: string)
    requires ts != [] && Unquoted(ts)
    ensures ParseGroup(OrGroup(ts) + r) == Some((ts, r))
  {
    var s := OrGroup(ts) + r;
    assert s[1..] == Join(" OR ", QuoteAll(ts)) + ")" + r;
    ParseTermsOfJoin(ts, r);
  }

  /** No search keyword contains a double quote. */
  lemma KeywordsUnquoted()
    ensures Unquoted(SEARCH_KEYWORDS)
  {
  }

  /** The query determines its location terms: reading it back yields exactly the terms
      it was built from (none for the keyword-only query). */
  lemma QueryRoundTrip(terms: seq<string>)
    requires Unquoted(terms)
    ensures ParseQuery(BuildQuery(terms)) == Some(terms)
  {
    var keywordGroup := OrGroup(SEARCH_KEYWORDS);
    if |terms| > 0 {
      var rest := " AND " + OrGroup(terms);
      assert BuildQuery(terms) == keywordGroup + rest;
      assert ParseGroup(keywordGroup + rest) == Some((SEARCH_KEYWORDS, rest)) by {
        KeywordsUnquoted();
        ParseGroupOfOrGroup(SEARCH_KEYWORDS, rest);
      }
      assert ParseGroup(rest[5..]) == Some((terms, "")) by {
        assert rest[5..] == OrGroup(terms) + "";
        ParseGroupOfOrGroup(terms, "");
      }
      assert IsPrefix(" AND ", rest);
    } else {
      assert ParseGroup(keywordGroup + "") == Some((SEARCH_KEYWORDS, "")) by {
        KeywordsUnquoted();
        ParseGroupOfOrGroup(SEARCH_KEYWORDS, "");
      }
      assert keywordGroup + "" == BuildQuery(terms);
    }
  }

  lemma LowerKeepsUnquoted(s: string)
    requires '"' !in s
    ensures '"' !in Lower(s)
  {
  }

  /** The location terms of any fetch can be read back from the query it sends,
      provided no country or continent name contains a double quote. */
  lemma RequestNamesItsTerms(continent: string, countries: seq<string>, startDate: string)
    requires '"' !in continent && Unquoted(countries)
    ensures ParseQuery(Request(continent, countries, startDate).query) == Some(SearchTerms(continent, countries))
  {
    var terms := SearchTerms(continent, countries);
    forall i | 0 <= i < |terms|
      ensures '"' !in terms[i]
    {
      if i < |countries| {
        LowerKeepsUnquoted(countries[i]);
      } else {
        LowerKeepsUnquoted(continent);
      }
    }
    QueryRoundTrip(terms);
  }

  /** An article whose content names the virus and the country passes both filters. */
  lemma CovidInFranceIsRelevant()
    ensures Relevant(Article(None, None, Some("Covid in France"), None, None, None, None),
                     SearchTerms("", ["France"]))
  {
    var text := CombinedText(Article(None, None, Some("Covid in France"), None, None, None, None));
    CovidInFranceText();
    assert text[8..13] == "covid" == SEARCH_KEYWORDS[1];
    assert OccursAt(SEARCH_KEYWORDS[1], text, 8);
    assert text[17..23] == "france";
    assert OccursAt("france", text, 17);
    assert Lower("France") == "france";
    assert SearchTerms("", ["France"]) == ["france"];
  }

  lemma CovidInFranceText()
    ensures CombinedText(Article(None, None, Some("Covid in France"), None, None, None, None))
         == "nonenone" + "covid" + " in " + "france"
  {
  }

  /** A term with a character the text lacks does not occur in it. */
  lemma MissingCharRulesOut(s: string, p: string, c: char)
    requires c in p && c !in s
    ensures !Mentions(s, p)
  {
  }

  /** A null field reads as "None": an article whose text fields are all null has the
      combined text "nonenonenone", which mentions no search keyword. */
  lemma NullArticleIsNotRelevant(url: Option<string>)
    ensures CombinedText(Article(None, None, None, url, None, None, None)) == "nonenonenone"
    ensures !Relevant(Article(None, None, None, url, None, None, None), [])
  {
    var text := CombinedText(Article(None, None, None, url, None, None, None));
    assert text == "nonenonenone";
    assert 'c' !in text && 'p' !in text;
    forall k | 0 <= k < |SEARCH_KEYWORDS|
      ensures !Mentions(text, SEARCH_KEYWORDS[k])
    {
      if k == 2 {
        MissingCharRulesOut(text, SEARCH_KEYWORDS[k], 'p');
      } else {
        assert SEARCH_KEYWORDS[k][0] == 'c';
        MissingCharRulesOut(text, SEARCH_KEYWORDS[k], 'c');
      }
    }
  }
}
