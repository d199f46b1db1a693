# COVID-19 dashboard: the data logic, modelled and verified in Dafny

The dashboard is one Streamlit script, `app.py`. It downloads the Our World in Data
COVID-19 table and draws two views for a chosen region: a time series and a heat map of
countries. It also shows recent news fetched from the News API for each region. This
project models the data logic underneath those views and proves what it guarantees:

- **Aggregation** (`Aggregation`). `calculate_linechart_stats` sums the population and
  the `new_*` counts of a group, and averages the three rates weighted by population.
  `calculate_map_stats` sums the smoothed counts and rates. Sums and averages are exact
  `real` arithmetic. A missing rate (`None`) adds nothing to the weighted numerator, but
  its row's population still counts in the denominator, as pandas' `skipna` sum does. A
  group whose total population is zero has no average (`None`).
- **The data tables** (`CovidData`). `fetch_covid_data` drops the "World" rows. It groups
  the country rows by (iso code, continent, location) for the map, and by
  (continent, date) for the time series. It fills the alpha-3 code table in a loop
  (`BuildAlpha3ToId`) and replaces each known code by its numeric id. The location filter
  keeps a continent's own rows. For "World" it instead regroups the continent series by
  date and keeps the dates reporting at least 7.5e9 inhabitants. The central theorem,
  `WorldSeriesAggregatesCountries`, says rolling the continent rows up again loses and
  double-counts nothing: for tables without negative populations, every World row equals
  the line-chart aggregate of exactly that day's country rows.
- **News** (`News`, `NewsCache`). `fetch_covid_news` builds the search terms, builds a
  quoted `OR`/`AND` query, calls the API and keeps the relevant articles in two filter
  passes. It returns `[]` on an unusable answer or an exception. The API is a function
  parameter: `Raised` stands for any exception. A query parser proves that the query names
  exactly the search terms. `cache_covid_news` fills one entry per continent in a loop,
  then the "World" entry.
- **Headlines** (`Headlines`). Among the first five articles, the de-duplication loop
  shows each one whose title was not shown yet, using a set of shown titles.
- **Region picker** (`Regions`). An option is the region name, a space and an emoji. The
  chosen location is recovered by slicing up to the last space.

`Seqs` holds the generic sequence tools: order-preserving filtering, distinct keys in
first-occurrence order, and subsequences. `Text` holds the Python string operations used:
ASCII `lower`, `in` on strings, `rfind`, slicing with a possibly negative stop, and `join`.

## Model

| member | source | states |
|---|---|---|
| Seqs.Filter | app.py:133-135 | the list comprehension keeps exactly the elements satisfying the test, with their multiplicities and in their original order |
| Seqs.Keys | app.py:66 | the keys of a group-by: each occurring key exactly once, and a row without a key (a missing continent) forms no group |
| Seqs.FilterFilter | app.py:64-66 | filtering twice is filtering once by the conjunction of the two tests |
| Text.Contains | app.py:129 | Python's `term in text` holds exactly when the term occurs at some position of the text |
| Text.ContainsAny | app.py:129 | `any(term in text for term in terms)` holds exactly when some term occurs in the text |
| Text.RFind | app.py:181 | `rfind(' ')` is the position of the last space, and -1 exactly when there is no space |
| Text.Lower | app.py:91 | `str.lower`: the same length, each ASCII capital replaced by its small letter; used for the search terms and the article text |
| Text.SliceTo | app.py:181 | Python's `s[:stop]`: a negative stop counts from the end, and the stop is clamped to the text; `LocationRoundTrip` and `NoSpaceDropsLastChar` state what the region picker gets from it |
| Text.Join | app.py:95-96 | `sep.join(parts)`: the parts with the separator between neighbours; `QueryRoundTrip` parses the joined group back into its parts |
| News.Str | app.py:128 | Python's `str` of an optional field: the text itself, or "None" for a null field |
| News.CombinedText | app.py:128 | the lower-cased title, description and content joined with no separator, null fields reading as "None"; `NullArticleIsNotRelevant` shows the all-null case |
| News.KeywordsInNewsArticle | app.py:127-131 | an article matches exactly when some term occurs in the lower-cased `str(title)+str(description)+str(content)` |
| News.SearchTerms | app.py:88-91 | the location terms are the lower-cased countries, with the lower-cased continent appended last when it is non-empty |
| News.BuildQuery | app.py:94-102 | the quoted keyword group, followed by " AND " and the quoted term group when there are terms; `QueryRoundTrip` states that it names exactly the terms |
| News.Request | app.py:118-121 | the request of one fetch: the query of its search terms, the start date, sorting by relevancy and English; `RequestNamesItsTerms` states what its query names |
| News.Usable | app.py:124 | an answer is used exactly when it is not an exception, its status is "ok" and its result count is non-zero; `FetchCovidNews` gives `[]` otherwise |
| News.FetchCovidNews | app.py:124-144 | an unusable answer (status not "ok", zero results, an exception) gives `[]`; otherwise the result keeps the API's order and holds exactly the articles with a keyword and, when there are location terms, also a location term |
| News.FetchKeepsDuplicates | app.py:133-135 | for a usable answer, each relevant article is kept as many times as the API gave it, and an irrelevant one not at all |
| News.KeepRelevant | app.py:133-135 | the two passes keep, in the API's order and with their multiplicities, exactly the articles with a COVID keyword that, when there are location terms, also mention one of them |
| News.RelevantMentionsAPlace | app.py:133-135 | when the search has a continent or countries, a kept article names, in lower case, the continent or one of the countries |
| News.QueryRoundTrip | app.py:94-102 | the query is the quoted keyword group, followed by `AND` and the quoted term group when there are terms; parsing it gives back exactly the terms |
| News.RequestNamesItsTerms | app.py:88-102 | the query of a fetch names exactly its search terms, in order, when no name contains a double quote |
| News.CovidInFranceIsRelevant | app.py:128-135 | an article whose only text is "Covid in France" is kept by a search for France, although its null title and description read as "None" |
| News.NullArticleIsNotRelevant | app.py:128-133 | an article with null title, description and content reads as "nonenonenone" and matches no keyword |
| Headlines.Window | app.py:319 | `articles[:5]`: the whole list when it has at most five articles, otherwise its first five |
| Headlines.FirstOccurrences | app.py:319-328 | the articles among the first k that are the first with their title, in order; the four lemmas below state what it keeps and `ShowUniqueHeadlines` states that the loop computes it |
| Headlines.ShowUniqueHeadlines | app.py:315-328 | at most five articles are shown, their titles are pairwise distinct, and they are exactly the first article of each title among the first five, with every such title shown |
| Headlines.KeptArticlesAreFirst | app.py:319-328 | every shown article is the first of its title among those examined |
| Headlines.FirstArticlesAreKept | app.py:319-328 | the first article of each title among those examined is shown |
| Headlines.KeptTitlesDistinct | app.py:326-328 | the shown titles are pairwise distinct and no more articles are shown than examined |
| Headlines.KeptTitlesCoverWindow | app.py:326-328 | the set of shown titles equals the set of titles examined |
| Regions.FormatOption | app.py:179 | `"{0} {1}".format(name, emoji)`: the name, one space, the emoji |
| Regions.SelectboxOptionToLocation | app.py:180-181 | the option cut at its last space; `LocationRoundTrip` states that it inverts `FormatOption` |
| Regions.SelectboxOptions | app.py:179 | one option per region |
| Regions.LocationRoundTrip | app.py:179-181 | cutting `name + " " + emoji` at its last space gives back the name whenever the emoji has no space, even for names with spaces |
| Regions.EveryOptionLeadsToItsRegion | app.py:12-13 | every option of the select box leads back to its own region |
| Regions.NoSpaceDropsLastChar | app.py:181 | an option without a space loses its last character, because `rfind` gives -1 |
| Aggregation.WeightedAverage | app.py:38-39 | `sum(rate * population) / sum(population)`, with no value when the total population is zero; `WeightedAverageScales` states its meaning |
| Aggregation.LinechartStats | app.py:37-48 | the summed population and counts of a group and its three population-weighted rates; `AggregateKeepsContribution` and `SameTotalsSameStats` state what it keeps |
| Aggregation.MapStats | app.py:50-54 | the summed smoothed counts and per-million values of a group; `StatsIgnoreOrder` states that row order does not matter |
| Aggregation.WeightedAverageScales | app.py:38-39 | a rate is defined exactly when the total population is non-zero, and then rate times total population is the sum of rate times population |
| Aggregation.TotalAppend | app.py:41-54 | a column sum over two parts is the sum of the two parts' sums |
| Aggregation.TotalPermutation | app.py:41-54 | a column sum does not depend on the order of the rows |
| Aggregation.StatsIgnoreOrder | app.py:37-54 | the line-chart and map aggregates do not depend on the order of the rows of a group |
| Aggregation.PopulationTotalNonNegative | app.py:41 | the summed population of non-negative populations is non-negative |
| Aggregation.NoPopulationNoWeight | app.py:39 | with no population, the weighted numerator of every rate is zero |
| Aggregation.AggregateKeepsContribution | app.py:41-48 | an aggregated row carries the group's summed counts, and its rates carry the group's weighted sums, so aggregating again adds the same amounts |
| Aggregation.SameTotalsSameStats | app.py:37-48 | two groups with the same count sums and weighted sums have the same aggregate |
| Aggregation.WeightOfUniformRate | app.py:39 | when every row has the rate x, the weighted sum is x times the total population |
| Aggregation.UniformRateIsKept | app.py:38-39 | when every row has the same rate x and there is population, the average is x |
| Aggregation.WeightBounds | app.py:39 | rates between 0 and hi give a weighted sum between 0 and hi times the population |
| Aggregation.AverageWithinBounds | app.py:38-39 | rates between 0 and hi average to a value between 0 and hi |
| Aggregation.Project | app.py:41-54 | selecting the measure columns keeps one entry per row, in order |
| Aggregation.MatchSumOnce | app.py:76 | with distinct group keys, a row falls into at most one group |
| Aggregation.GroupSumEmpty | app.py:76 | an empty table contributes nothing to any group |
| Aggregation.GroupSumCons | app.py:76 | adding a row to the table adds its contribution to the groups it matches |
| Aggregation.PartitionSum | app.py:66-76 | summing a column over the groups with accepted keys equals summing it over all rows with an accepted key |
| CovidData.FetchCovidData | app.py:57-78 | drops the "World" rows, then builds the map from the country groups and the series from the (continent, date) groups; `MapSummarisesCountries` and `ContinentSeriesAggregatesCountries` state what each row holds |
| CovidData.ContinentDayRows | app.py:76 | one series row per (continent, date) key, aggregating that key's rows; `ContinentDayRowsKeys` and `ContinentDayRowsMember` state its rows |
| CovidData.WorldRows | app.py:200-201 | one World row per date, aggregating the continent rows of that date; `WorldRowsKeys`, `WorldRowsMember` and `WorldRowsCover` state its rows |
| CovidData.WorldSeries | app.py:200-201 | the World rows over the dates of the continent series; `WorldSeriesAggregatesCountries` states that each equals the aggregate of that day's country rows |
| CovidData.MapIdOf | app.py:71-72 | `replace(alpha3_to_id)` on one code: its numeric id when the code is in the table, the code itself otherwise; `MapIdFollowsTable` ties it to the ISO list |
| CovidData.DecimalValue | app.py:70 | `int` of a text of decimal digits; `NumericCodes` shows two codes |
| CovidData.CountrySnapshots | app.py:66-72 | one map row per country key, in key order, carrying the key, the map aggregate of that country's rows, and the id looked up for its code |
| CovidData.BuildAlpha3ToId | app.py:68-70 | the table maps exactly the listed alpha-3 codes, each to the decimal value of its last listed numeric code |
| CovidData.MapIdFollowsTable | app.py:71-72 | a listed code is replaced by its numeric id, and an unlisted code stays as it is |
| CovidData.NumericCodes | app.py:70 | `int("840")` is 840, and `int("004")` is 4 with the leading zeros dropped |
| CovidData.FilterByLocation | app.py:192-207 | a continent keeps exactly its own series rows and map rows, in order; "World" keeps exactly the date roll-ups with at least 7.5e9 inhabitants (a row exactly at the threshold is kept), as a subsequence of the roll-up, which has one row per date (`WorldDatesAreDistinct`), and the whole map |
| CovidData.ProjectNonNegative | app.py:41 | rows taken from a table with non-negative populations have non-negative populations |
| CovidData.ContinentDayRowsMember | app.py:76 | every continent series row aggregates its (continent, date) group |
| CovidData.WorldRowsMember | app.py:200-201 | every World row has no continent and aggregates the continent rows of its date |
| CovidData.WorldRowsKeys | app.py:200-201 | the World rows are one per date, in the order of the dates |
| CovidData.WorldDatesAreDistinct | app.py:200-201 | no date has two rows in the World series |
| CovidData.WorldRowsCover | app.py:200-201 | every date of the continent series has a World row |
| CovidData.DaySumStep | app.py:76 | adding one continent row to a day's sum adds its aggregated amount when it is of that day |
| CovidData.DaySumOfContinentRows | app.py:200-201 | summing a column over the continent rows of a date equals summing it over the continent groups of that date |
| CovidData.WorldRowAggregatesCountries | app.py:200-201 | for tables without negative populations, every World row equals the line-chart aggregate of exactly the country rows of its date |
| CovidData.WorldDatesAreReportedDates | app.py:200-201 | the World series has a row for a date exactly when some country reported on that date |
| CovidData.WorldDateIsReported | app.py:200-201 | every World date was reported by some country |
| CovidData.ReportedDateIsWorldDate | app.py:200-201 | every date some country reported on has a World row |
| CovidData.KeyedRow | app.py:76 | every group key comes from some row |
| CovidData.KeyedRowIsWorldDay | app.py:64-76 | a keyed row of the filtered table is a country row of its date |
| CovidData.ContinentDayRowsHas | app.py:76 | every (continent, date) key has a series row with that continent and that date |
| CovidData.ContinentDayRowsKeys | app.py:76 | the continent series has one row per key, in key order, each carrying its key's continent and date |
| CovidData.ReportedContinentDayIsCharted | app.py:64-76 | every (continent, date) that a country reported has a row in the continent series |
| CovidData.ContinentDaysAreDistinct | app.py:76 | no (continent, date) has two rows in the continent series |
| CovidData.ContinentRowAggregatesCountries | app.py:62-76 | every continent series row equals the line-chart aggregate of exactly that continent's country rows on that day |
| CovidData.ContinentDayIsBoth | app.py:64-76 | a row is a country row of a continent and a day exactly when it is not "World" and has that (continent, date) key |
| CovidData.WorldDayIsBoth | app.py:64 | a row is a country row of a day exactly when it is not "World" and has a continent and that date |
| CovidData.CountryRowsIsBoth | app.py:64-66 | a row belongs to a country exactly when it is not "World" and has that country's key |
| CovidData.MapRowSummarisesItsCountry | app.py:62-72 | every map row's id is its code looked up in the table, and its snapshot is the map aggregate of exactly that country's rows |
| CovidData.MapRowsAreDistinctCountries | app.py:66 | no country appears twice on the map |
| CovidData.ReportingCountriesAreMapped | app.py:64-66 | every country that reported (not "World", with a continent) is on the map |
| CovidData.WorldSeriesAggregatesCountries | app.py:200-201 | for tables without negative populations, every row of the World series equals the line-chart aggregate of exactly the country rows of its date |
| CovidData.ContinentSeriesAggregatesCountries | app.py:62-76 | every row of the continent series equals the line-chart aggregate of exactly that continent's country rows on that day |
| CovidData.MapSummarisesCountries | app.py:62-72 | every map row's id is its code looked up in the table, and its snapshot is the map aggregate of exactly that country's rows |
| NewsCache.ContinentsOf | app.py:147-149 | the continents on the map, each once |
| NewsCache.CountriesOf | app.py:147 | the locations of a continent on the map, each once |
| NewsCache.CacheCovidNews | app.py:147-154 | there is one entry per continent on the map plus "World"; each continent's entry is the fetch for that continent and its countries, and "World" is the keyword-only fetch, which replaces any continent called "World" |
| NewsCache.FillPerContinent | app.py:148-152 | after the loop, the dictionary has exactly one key per continent in the list, and each key holds the fetch for that continent |
| NewsCache.ContinentNews | app.py:150-151 | the fetch for one continent, searched with its countries on the map; `ContinentNewsIsRelevant` states what it keeps |
| NewsCache.ContinentNewsIsRelevant | app.py:147-152 | every article fetched for a continent on the map mentions a COVID keyword and names the continent or one of its countries on the map |

## Left out

- Streamlit page calls, the Altair charts and map, the map projection settings and the
  rendering in `show_news` are UI only, and are not part of this model.
- The CSV download, `NewsApiClient.get_everything`, `@st.cache` and the world topology
  are network calls or foreign libraries. The API is a pure function parameter. `Raised`
  stands for any exception, including a malformed payload and a missing article key in
  the filters.
- Command-line and environment lookup of the API key, and `os._exit`, are configuration
  plumbing.
- `np.round` of the map totals, the `np.percentile` axis bound and floating-point
  NaN/rounding are left out. The arithmetic is exact over `real`.
- Dates are integer day numbers. `pd.Timestamp` arithmetic, the seven-day start date and
  the chart's date domain are library date handling.
- Aggregation.Measures: a missing count is modelled as 0 (pandas' `skipna` sum). Only
  rates keep a missing value, as `None`.
- Group order: pandas sorts group keys, while the model keeps the first-occurrence order
  of keys. The row order of the shown series (`sort_values` by date) is also left out.
  The lemmas state membership and contents, not order.
- CovidData.DailyRecord: the iso code is always present. Pandas would drop rows with a
  missing iso code from the map group-by; the model drops only rows without a continent.
- CovidData.BuildAlpha3ToId: accepts only non-empty texts of ASCII decimal digits, as the
  ISO 3166 list's three-digit codes are. Python's `int` also accepts surrounding whitespace,
  a sign, underscores and non-ASCII digits, and raises on the empty text; the model covers
  neither.
- Text.Lower: lower-cases ASCII letters only. Python's `lower` also folds other Unicode
  letters.
- News.FetchCovidNews: the query text does not escape double quotes inside names.
  `RequestNamesItsTerms` assumes names without double quotes.
- Headlines.ShowUniqueHeadlines: reading `url`, `author`, the source name and
  `urlToImage` for display is left out. A missing key there would raise in the source.
- Looking up `covid_news_cache[location]` for the chosen location is left out. It is
  UI glue.
- The emoji in `CONTINENTS_EMOJI` are reconstructed as the code points of the world map
  and globe emoji. The proofs only use the fact that they contain no space.
