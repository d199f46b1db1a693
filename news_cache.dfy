/** `cache_covid_news`: the news of every continent on the map, and of the whole world. */
module NewsCache {
  import opened Wrappers
  import opened Seqs
  import opened News
  import opened CovidData
  import opened Text

  function ContinentKey(m: MapRow): Option<string> {
    Some(m.continent)
  }

  function LocationKey(m: MapRow): Option<string> {
    Some(m.location)
  }

  /** The continents that occur on the map, each once. */
  function ContinentsOf(mapRows: seq<MapRow>): (cs: seq<string>)
    ensures Distinct(cs)
    ensures forall c :: c in cs <==> exists m :: m in mapRows && m.continent == c
  {
    var cs := Keys(mapRows, ContinentKey);
    assert forall c :: c in cs ==> exists m :: m in mapRows && m.continent == c by {
      forall c | c in cs ensures exists m :: m in mapRows && m.continent == c {
        var i :| 0 <= i < |mapRows| && ContinentKey(mapRows[i]) == Some(c);
        assert mapRows[i] in mapRows;
      }
    }
    assert forall m :: m in mapRows ==> m.continent in cs by {
      forall m | m in mapRows ensures m.continent in cs {
        var i :| 0 <= i < |mapRows| && mapRows[i] == m;
        assert ContinentKey(mapRows[i]) == Some(m.continent);
      }
    }
    cs
  }

  /** The locations of one continent on the map, each once, in order of first appearance
      (`drop_duplicates` followed by a group-by on the continent). */
  function CountriesOf(mapRows: seq<MapRow>, c: string): (locations: seq<string>)
    ensures Distinct(locations)
    ensures forall l :: l in locations <==> exists m :: m in mapRows && m.continent == c && m.location == l
  {
    var inC := Filter(mapRows, MapInContinent(c));
    var locations := Keys(inC, LocationKey);
    assert forall l :: l in locations ==> exists m :: m in mapRows && m.continent == c && m.location == l by {
      forall l | l in locations ensures exists m :: m in mapRows && m.continent == c && m.location == l {
        var i :| 0 <= i < |inC| && LocationKey(inC[i]) == Some(l);
        assert inC[i] in inC;
      }
    }
    assert forall m :: m in mapRows && m.continent == c ==> m.location in locations by {
      forall m | m in mapRows && m.continent == c ensures m.location in locations {
        assert m in inC;
        var i :| 0 <= i < |inC| && inC[i] == m;
        assert LocationKey(inC[i]) == Some(m.location);
      }
    }
    locations
  }

  /** `cache_covid_news`: one entry per continent on the map, searched with that
      continent's countries, then the "World" entry, searched with keywords alone (it
      replaces a continent that would be called "World"). */
  method CacheCovidNews(mapRows: seq<MapRow>, startDate: string, api: NewsRequest -> ApiResponse)
    returns (news: map<string, seq<Article>>)
    ensures forall c :: c in news <==> c == WORLD || exists m :: m in mapRows && m.continent == c
    ensures forall c :: c in news && c != WORLD ==> news[c] == ContinentNews(mapRows, c, startDate, api)
    ensures news[WORLD] == FetchCovidNews("", [], startDate, api)
  {
    var continents := ContinentsOf(mapRows);
    var filled := FillPerContinent(continents, (c: string) => ContinentNews(mapRows, c, startDate, api));
    news := filled[WORLD := FetchCovidNews("", [], startDate, api)];
    forall c ensures c in news <==> c == WORLD || exists m :: m in mapRows && m.continent == c {
      assert c in news <==> c == WORLD || c in continents;
    }
    forall c | c in news && c != WORLD ensures news[c] == ContinentNews(mapRows, c, startDate, api) {
      assert news[c] == filled[c];
    }
  }

  /** The loop of `cache_covid_news`: one entry per continent, holding that continent's fetch. */
  method FillPerContinent<V>(continents: seq<string>, fetch: string -> V) returns (filled: map<string, V>)
    ensures forall c :: c in filled <==> c in continents
    ensures forall c :: c in filled ==> filled[c] == fetch(c)
  {
    filled := map[];
    for i := 0 to |continents|
      invariant forall c :: c in filled <==> c in continents[..i]
      invariant forall c :: c in filled ==> filled[c] == fetch(c)
    {
      assert continents[..i + 1] == continents[..i] + [continents[i]];
      filled := filled[continents[i] := fetch(continents[i])];
    }
    assert continents[..|continents|] == continents;
  }

  /** The fetch for one continent, searched with its countries on the map. */
  function ContinentNews(mapRows: seq<MapRow>, c: string, startDate: string,
                         api: NewsRequest -> ApiResponse): seq<Article>
  {
    FetchCovidNews(c, CountriesOf(mapRows, c), startDate, api)
  }

  /** Whatever the API answers, the news fetched for a continent on the map holds only
      articles with a COVID keyword that name the continent or one of its countries on
      the map; `CacheCovidNews` stores exactly this fetch under the continent's name. */
  lemma ContinentNewsIsRelevant(mapRows: seq<MapRow>, startDate: string, api: NewsRequest -> ApiResponse, c: string)
    requires exists m :: m in mapRows && m.continent == c
    ensures forall a :: a in ContinentNews(mapRows, c, startDate, api) ==>
              && KeywordsInNewsArticle(a, SEARCH_KEYWORDS)
              && exists l :: (l == c || exists m :: m in mapRows && m.continent == c && m.location == l)
                             && Mentions(CombinedText(a), Lower(l))
  {
    var countries := CountriesOf(mapRows, c);
    var m :| m in mapRows && m.continent == c;
    assert m.location in countries;
    forall a | a in FetchCovidNews(c, countries, startDate, api)
      ensures KeywordsInNewsArticle(a, SEARCH_KEYWORDS)
      ensures exists l :: (l == c || exists m :: m in mapRows && m.continent == c && m.location == l)
                          && Mentions(CombinedText(a), Lower(l))
    {
      assert Relevant(a, SearchTerms(c, countries));
      RelevantMentionsAPlace(a, c, countries);
    }
  }
}
