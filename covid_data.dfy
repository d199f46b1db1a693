/** The data table and the two views derived from it (`fetch_covid_data`), the location
    filter applied to them, and the "World" roll-up. */
module CovidData {
  import opened Wrappers
  import opened Seqs
  import opened Aggregation

  /** One row of the downloaded table: one location on one day. Dates are day numbers.
      Aggregate locations ("World", "Asia", ...) have no continent. */
  datatype DailyRecord = DailyRecord(
    isoCode: string,
    continent: Option<string>,
    location: string,
    date: int,
    measures: Measures)

  /** A row of the time series. Rows of a continent series name their continent; rows of
      the World series, grouped by date alone, have no continent column. */
  datatype SeriesRow = SeriesRow(continent: Option<string>, date: int, stats: Measures)

  /** The map id of a country: its ISO 3166 numeric code, or its alpha-3 code when the
      code table does not know it. */
  datatype MapId = Numeric(code: int) | Alpha(alpha3: string)

  /** A row of the country snapshot that feeds the heat map. */
  datatype MapRow = MapRow(isoCode: string, continent: string, location: string, stats: Snapshot, id: MapId)

  /** What `fetch_covid_data` returns: the "map" and "linechart" tables. */
  datatype CovidTables = CovidTables(mapRows: seq<MapRow>, linechart: seq<SeriesRow>)

  /** An entry of the ISO 3166 country list: alpha-3 code and numeric code as text. */
  datatype Country = Country(alpha3: string, numeric: string)

  const WORLD := "World"

  /** The data-quality threshold of the World series, 7.5e9 inhabitants. */
  const MIN_POPULATION_THRESHOLD: real := 7500000000.0

  function RecordMeasures(r: DailyRecord): Measures {
    r.measures
  }

  function SeriesMeasures(r: SeriesRow): Measures {
    r.stats
  }

  /** The group-by key of the time series; rows without a continent are dropped by pandas. */
  function ContinentDate(r: DailyRecord): Option<(string, int)> {
    match r.continent
    case None => None
    case Some(c) => Some((c, r.date))
  }

  /** The group-by key of the country snapshot. */
  function CountryKey(r: DailyRecord): Option<(string, string, string)> {
    match r.continent
    case None => None
    case Some(c) => Some((r.isoCode, c, r.location))
  }

  function SeriesDate(r: SeriesRow): Option<int> {
    Some(r.date)
  }

  /** `location != 'World'`: the synthetic World rows are dropped so nothing is counted twice. */
  function IsNotWorld(r: DailyRecord): bool {
    r.location != WORLD
  }

  // ---------------------------------------------------------------------------
  // The derived tables

  /** One time-series row per (continent, date) key, aggregated with `LinechartStats`. */
  function ContinentDayRows(rows: seq<DailyRecord>, ks: seq<(string, int)>): seq<SeriesRow>
    decreases |ks|
  {
    if ks == [] then []
    else
      [SeriesRow(Some(ks[0].0), ks[0].1,
                 LinechartStats(Project(Filter(rows, HasKey(ContinentDate, ks[0])), RecordMeasures)))]
      + ContinentDayRows(rows, ks[1..])
  }

  /** One World row per date, aggregating the continent rows of that date with `LinechartStats`. */
  function WorldRows(series: seq<SeriesRow>, ds: seq<int>): seq<SeriesRow>
    decreases |ds|
  {
    if ds == [] then []
    else
      [SeriesRow(None, ds[0],
                 LinechartStats(Project(Filter(series, HasKey(SeriesDate, ds[0])), SeriesMeasures)))]
      + WorldRows(series, ds[1..])
  }

  /** `groupby("date").apply(calculate_linechart_stats)` over the continent series. */
  function WorldSeries(series: seq<SeriesRow>): seq<SeriesRow> {
    WorldRows(series, Keys(series, SeriesDate))
  }

  /** Every character is a decimal digit. */
  predicate DigitsOnly(s: string) {
    forall i :: 0 <= i < |s| ==> '0' <= s[i] <= '9'
  }

  /** `int(numeric)` for a text of decimal digits. `int` rejects the empty text, which
      `BuildAlpha3ToId` does not accept; here it is the base case of the recursion. */
  function DecimalValue(s: string): nat
    requires DigitsOnly(s)
    decreases |s|
  {
    if s == [] then 0
    else DecimalValue(s[..|s| - 1]) * 10 + (s[|s| - 1] as int - '0' as int)
  }

  /** `Series.replace(alpha3_to_id)` on one code. */
  function MapIdOf(isoCode: string, alpha3ToId: map<string, int>): MapId {
    if isoCode in alpha3ToId then Numeric(alpha3ToId[isoCode]) else Alpha(isoCode)
  }

  /** One snapshot row per (iso_code, continent, location) key, aggregated with `MapStats`. */
  function CountrySnapshots(rows: seq<DailyRecord>, ks: seq<(string, string, string)>,
                            alpha3ToId: map<string, int>): (m: seq<MapRow>)
    ensures |m| == |ks|
    ensures forall i :: 0 <= i < |ks| ==>
              && MapKey(m[i]) == ks[i]
              && m[i].id == MapIdOf(ks[i].0, alpha3ToId)
              && m[i].stats == MapStats(Project(Filter(rows, HasKey(CountryKey, ks[i])), RecordMeasures))
    decreases |ks|
  {
    if ks == [] then []
    else
      [MapRow(ks[0].0, ks[0].1, ks[0].2,
              MapStats(Project(Filter(rows, HasKey(CountryKey, ks[0])), RecordMeasures)),
              MapIdOf(ks[0].0, alpha3ToId))]
      + CountrySnapshots(rows, ks[1..], alpha3ToId)
  }

  function MapKey(m: MapRow): (string, string, string) {
    (m.isoCode, m.continent, m.location)
  }

  /** `fetch_covid_data`, given the downloaded table and the alpha-3 table. */
  function FetchCovidData(raw: seq<DailyRecord>, alpha3ToId: map<string, int>): CovidTables {
    var rows := Filter(raw, IsNotWorld);
    CovidTables(CountrySnapshots(rows, Keys(rows, CountryKey), alpha3ToId),
                ContinentDayRows(rows, Keys(rows, ContinentDate)))
  }

  // ---------------------------------------------------------------------------
  // The code table

  /** The table maps every alpha-3 code of the list to its numeric value; when a code is
      listed twice, the later entry wins, as when a Python dict is filled in a loop. */
  ghost predicate IsCodeTable(countries: seq<Country>, table: map<string, int>)
    requires forall i :: 0 <= i < |countries| ==> DigitsOnly(countries[i].numeric)
  {
    Filled(countries, |countries|, table)
  }

  /** The table holds exactly the codes of the first `n` entries, each with the value of
      its last entry among them. */
  ghost predicate Filled(countries: seq<Country>, n: nat, table: map<string, int>)
    requires n <= |countries|
    requires forall i :: 0 <= i < |countries| ==> DigitsOnly(countries[i].numeric)
  {
    && (forall code :: code in table <==> exists i :: 0 <= i < n && countries[i].alpha3 == code)
    && forall i :: 0 <= i < n && LastWithCode(countries, n, i) ==>
         table[countries[i].alpha3] == DecimalValue(countries[i].numeric)
  }

  /** Entry `i` is the last one with its code among the first `n`. */
  ghost predicate LastWithCode(countries: seq<Country>, n: nat, i: nat)
    requires i < n <= |countries|
  {
    forall j :: i < j < n ==> countries[j].alpha3 != countries[i].alpha3
  }

  lemma FillStep(countries: seq<Country>, n: nat, table: map<string, int>)
    requires n < |countries|
    requires forall i :: 0 <= i < |countries| ==> DigitsOnly(countries[i].numeric)
    requires Filled(countries, n, table)
    ensures Filled(countries, n + 1, table[countries[n].alpha3 := DecimalValue(countries[n].numeric)])
  {
    var next := table[countries[n].alpha3 := DecimalValue(countries[n].numeric)];
    FillStepCodes(countries, n, table, next);
    FillStepValues(countries, n, table, next);
  }

  lemma FillStepCodes(countries: seq<Country>, n: nat, table: map<string, int>, next: map<string, int>)
    requires n < |countries|
    requires forall code :: code in table <==> exists i :: 0 <= i < n && countries[i].alpha3 == code
    requires next.Keys == table.Keys + {countries[n].alpha3}
    ensures forall code :: code in next <==> exists i :: 0 <= i < n + 1 && countries[i].alpha3 == code
  {
    forall code ensures code in next <==> exists i :: 0 <= i < n + 1 && countries[i].alpha3 == code {
      if code == countries[n].alpha3 {
        assert countries[n].alpha3 == code;
      }
    }
  }

  lemma FillStepValues(countries: seq<Country>, n: nat, table: map<string, int>, next: map<string, int>)
    requires n < |countries|
    requires forall i :: 0 <= i < |countries| ==> DigitsOnly(countries[i].numeric)
    requires forall i :: 0 <= i < n ==> countries[i].alpha3 in table
    requires forall i :: 0 <= i < n && LastWithCode(countries, n, i) ==>
               table[countries[i].alpha3] == DecimalValue(countries[i].numeric)
    requires next == table[countries[n].alpha3 := DecimalValue(countries[n].numeric)]
    ensures forall i :: 0 <= i < n + 1 && LastWithCode(countries, n + 1, i) ==>
              next[countries[i].alpha3] == DecimalValue(countries[i].numeric)
  {
    forall i | 0 <= i < n + 1 && LastWithCode(countries, n + 1, i)
      ensures next[countries[i].alpha3] == DecimalValue(countries[i].numeric)
    {
      if i < n {
        assert countries[i].alpha3 != countries[n].alpha3;
        assert LastWithCode(countries, n, i);
      }
    }
  }

  /** The loop that fills `alpha3_to_id` from the ISO 3166 list. */
  method BuildAlpha3ToId(countries: seq<Country>) returns (table: map<string, int>)
    requires forall i :: 0 <= i < |countries| ==> |countries[i].numeric| > 0 && DigitsOnly(countries[i].numeric)
    ensures IsCodeTable(countries, table)
  {
    table := map[];
    for n := 0 to |countries|
      invariant Filled(countries, n, table)
    {
      FillStep(countries, n, table);
      table := table[countries[n].alpha3 := DecimalValue(countries[n].numeric)];
    }
  }

  /** A listed code gets the numeric id of its (last) entry; an unlisted code passes
      through unchanged. */
  lemma MapIdFollowsTable(countries: seq<Country>, table: map<string, int>, isoCode: string)
    requires forall i :: 0 <= i < |countries| ==> DigitsOnly(countries[i].numeric)
    requires IsCodeTable(countries, table)
    ensures (forall i :: 0 <= i < |countries| ==> countries[i].alpha3 != isoCode) ==>
              MapIdOf(isoCode, table) == Alpha(isoCode)
    ensures forall i :: 0 <= i < |countries| && countries[i].alpha3 == isoCode && LastWithCode(countries, |countries|, i) ==>
              MapIdOf(isoCode, table) == Numeric(DecimalValue(countries[i].numeric))
  {
  }

  /** "USA" has the numeric code 840; leading zeros are dropped ("004" is 4). */
  lemma NumericCodes()
    ensures DecimalValue("840") == 840
    ensures DecimalValue("004") == 4
  {
    assert "840"[..2] == "84" && "84"[..1] == "8" && "8"[..0] == "";
    assert "004"[..2] == "00" && "00"[..1] == "0" && "0"[..0] == "";
  }

  // ---------------------------------------------------------------------------
  // The location filter

  function InContinent(location: string): SeriesRow -> bool {
    (r: SeriesRow) => r.continent == Some(location)
  }

  function MapInContinent(location: string): MapRow -> bool {
    (m: MapRow) => m.continent == location
  }

  function WellReported(r: SeriesRow): bool {
    r.stats.population >= MIN_POPULATION_THRESHOLD
  }

  /** The time series and map rows shown for the chosen location: a continent keeps
      exactly its own rows; "World" keeps the date roll-up of every continent, restricted
      to dates reporting at least 7.5e9 inhabitants, and the whole map. */
  function FilterByLocation(tables: CovidTables, location: string): (shown: (seq<SeriesRow>, seq<MapRow>))
    ensures location != WORLD ==>
              && (forall r :: r in shown.0 <==> r in tables.linechart && r.continent == Some(location))
              && IsSubsequence(shown.0, tables.linechart)
              && (forall m :: m in shown.1 <==> m in tables.mapRows && m.continent == location)
              && IsSubsequence(shown.1, tables.mapRows)
    ensures location == WORLD ==>
              && (forall r :: r in shown.0 <==>
                    r in WorldSeries(tables.linechart) && r.stats.population >= MIN_POPULATION_THRESHOLD)
              && IsSubsequence(shown.0, WorldSeries(tables.linechart))
              && shown.1 == tables.mapRows
  {
    if location != WORLD then
      (Filter(tables.linechart, InContinent(location)), Filter(tables.mapRows, MapInContinent(location)))
    else
      (Filter(WorldSeries(tables.linechart), WellReported), tables.mapRows)
  }

  // ---------------------------------------------------------------------------
  // What the derived tables contain

  /** Populations are never negative in the downloaded table. */
  ghost predicate NonNegativeRows(raw: seq<DailyRecord>) {
    forall r :: r in raw ==> r.measures.population >= 0.0
  }

  /** The country rows (not "World", with a continent) of one continent on one day. */
  function ContinentDay(c: string, d: int): DailyRecord -> bool {
    (r: DailyRecord) => r.location != WORLD && r.continent == Some(c) && r.date == d
  }

  /** The country rows (not "World", with a continent) of one day. */
  function WorldDay(d: int): DailyRecord -> bool {
    (r: DailyRecord) => r.location != WORLD && r.continent.Some? && r.date == d
  }

  /** The rows of one country, as keyed by (iso_code, continent, location). */
  function CountryRows(k: (string, string, string)): DailyRecord -> bool {
    (r: DailyRecord) => r.location != WORLD && r.isoCode == k.0 && r.continent == Some(k.1) && r.location == k.2
  }

  function DateIs(d: int): ((string, int)) -> bool {
    (k: (string, int)) => k.1 == d
  }

  lemma ProjectNonNegative(raw: seq<DailyRecord>, sub: seq<DailyRecord>)
    requires NonNegativeRows(raw)
    requires forall r :: r in sub ==> r in raw
    ensures NonNegativePopulation(Project(sub, RecordMeasures))
  {
  }

  lemma {:induction false} ContinentDayRowsMember(rows: seq<DailyRecord>, ks: seq<(string, int)>, p: SeriesRow)
    requires p in ContinentDayRows(rows, ks)
    ensures p.continent.Some? && (p.continent.value, p.date) in ks
    ensures p.stats == LinechartStats(Project(Filter(rows, HasKey(ContinentDate, (p.continent.value, p.date))), RecordMeasures))
    decreases |ks|
  {
    var rest := ContinentDayRows(rows, ks[1..]);
    if p in rest {
      ContinentDayRowsMember(rows, ks[1..], p);
    }
  }

  lemma {:induction false} WorldRowsMember(series: seq<SeriesRow>, ds: seq<int>, p: SeriesRow)
    requires p in WorldRows(series, ds)
    ensures p.continent == None && p.date in ds
    ensures p.stats == LinechartStats(Project(Filter(series, HasKey(SeriesDate, p.date)), SeriesMeasures))
    decreases |ds|
  {
    var rest := WorldRows(series, ds[1..]);
    if p in rest {
      WorldRowsMember(series, ds[1..], p);
    }
  }

  lemma {:induction false} WorldRowsCover(series: seq<SeriesRow>, ds: seq<int>, d: int)
    requires d in ds
    ensures exists p :: p in WorldRows(series, ds) && p.date == d
    decreases |ds|
  {
    if ds[0] != d {
      WorldRowsCover(series, ds[1..], d);
    } else {
      assert WorldRows(series, ds)[0].date == d;
    }
  }

  /** The World rows are one per date, in the order of the dates. */
  lemma {:induction false} WorldRowsKeys(series: seq<SeriesRow>, ds: seq<int>)
    ensures |WorldRows(series, ds)| == |ds|
    ensures forall i :: 0 <= i < |ds| ==> WorldRows(series, ds)[i].date == ds[i]
    decreases |ds|
  {
    if ds != [] {
      var row0 := SeriesRow(None, ds[0],
                            LinechartStats(Project(Filter(series, HasKey(SeriesDate, ds[0])), SeriesMeasures)));
      var rest := WorldRows(series, ds[1..]);
      assert WorldRows(series, ds) == [row0] + rest;
      WorldRowsKeys(series, ds[1..]);
      forall i | 1 <= i < |ds|
        ensures ([row0] + rest)[i] == rest[i - 1] && ds[i] == ds[1..][i - 1]
      {
      }
    }
  }

  /** No date has two rows in the World series. */
  lemma WorldDatesAreDistinct(series: seq<SeriesRow>)
    ensures var w := WorldSeries(series);
            forall i, j :: 0 <= i < j < |w| ==> w[i].date != w[j].date
  {
    WorldRowsKeys(series, Keys(series, SeriesDate));
  }

  /** Summing a column over the continent rows of one date is summing it over the
      continent groups of that date (a continent row keeps its group's counts). */
  lemma {:induction false} DaySumOfContinentRows(rows: seq<DailyRecord>, raw: seq<DailyRecord>,
                                                 ks: seq<(string, int)>, d: int, col: Column)
    requires NonNegativeRows(raw)
    requires forall r :: r in rows ==> r in raw
    requires !col.RateValue?
    ensures DaySum(ContinentDayRows(rows, ks), d, col)
         == GroupSum(rows, ContinentDate, RecordMeasures, ks, DateIs(d), col)
    decreases |ks|
  {
    if ks != [] {
      var g0 := Project(Filter(rows, HasKey(ContinentDate, ks[0])), RecordMeasures);
      var restSum := DaySum(ContinentDayRows(rows, ks[1..]), d, col);
      assert restSum == GroupSum(rows, ContinentDate, RecordMeasures, ks[1..], DateIs(d), col) by {
        DaySumOfContinentRows(rows, raw, ks[1..], d, col);
      }
      DaySumStep(rows, ks, d, col);
      if ks[0].1 == d {
        assert Contribution(col, LinechartStats(g0)) == Total(g0, col) by {
          ProjectNonNegative(raw, Filter(rows, HasKey(ContinentDate, ks[0])));
          AggregateKeepsContribution(g0, col);
        }
      }
    }
  }

  /** The sum of a column over the series rows of one date. */
  function DaySum(series: seq<SeriesRow>, d: int, col: Column): real {
    Total(Project(Filter(series, HasKey(SeriesDate, d)), SeriesMeasures), col)
  }

  lemma DaySumStep(rows: seq<DailyRecord>, ks: seq<(string, int)>, d: int, col: Column)
    requires ks != []
    ensures DaySum(ContinentDayRows(rows, ks), d, col)
         == (if ks[0].1 == d
             then Contribution(col, LinechartStats(Project(Filter(rows, HasKey(ContinentDate, ks[0])), RecordMeasures)))
             else 0.0)
            + DaySum(ContinentDayRows(rows, ks[1..]), d, col)
  {
    var g0 := Project(Filter(rows, HasKey(ContinentDate, ks[0])), RecordMeasures);
    var row0 := SeriesRow(Some(ks[0].0), ks[0].1, LinechartStats(g0));
    var rest := ContinentDayRows(rows, ks[1..]);
    var p := HasKey(SeriesDate, d);
    assert ContinentDayRows(rows, ks) == [row0] + rest;
    assert p(row0) == (ks[0].1 == d) by {
      assert p(row0) == (SeriesDate(row0) == Some(d));
    }
    FilterCons(row0, rest, p);
    if p(row0) {
      TotalProjectCons(row0, Filter(rest, p), SeriesMeasures, col);
    }
  }

  /** Every row of the World series aggregates, with the line-chart rules, exactly the
      country rows of its date: rolling up the continent rows loses and doubles nothing. */
  lemma WorldRowAggregatesCountries(raw: seq<DailyRecord>, alpha3ToId: map<string, int>, p: SeriesRow)
    requires NonNegativeRows(raw)
    requires p in WorldSeries(FetchCovidData(raw, alpha3ToId).linechart)
    ensures p.continent == None
    ensures p.stats == LinechartStats(Project(Filter(raw, WorldDay(p.date)), RecordMeasures))
  {
    var rows := Filter(raw, IsNotWorld);
    var series := ContinentDayRows(rows, Keys(rows, ContinentDate));
    var d := p.date;
    WorldRowsMember(series, Keys(series, SeriesDate), p);
    var gWorld := Project(Filter(series, HasKey(SeriesDate, d)), SeriesMeasures);
    var gRaw := Project(Filter(raw, WorldDay(d)), RecordMeasures);
    forall col: Column | !col.RateValue?
      ensures Total(gWorld, col) == Total(gRaw, col)
    {
      DayTotalOfCountries(raw, d, col);
    }
    SameTotalsSameStats(gWorld, gRaw);
  }

  /** Over the continent rows of one date, a count column adds up to its sum over the
      country rows of that date. */
  lemma DayTotalOfCountries(raw: seq<DailyRecord>, d: int, col: Column)
    requires NonNegativeRows(raw)
    requires !col.RateValue?
    ensures DaySum(ContinentDayRows(Filter(raw, IsNotWorld), Keys(Filter(raw, IsNotWorld), ContinentDate)), d, col)
         == Total(Project(Filter(raw, WorldDay(d)), RecordMeasures), col)
  {
    var rows := Filter(raw, IsNotWorld);
    var ks := Keys(rows, ContinentDate);
    var sel := KeyWhere(ContinentDate, DateIs(d));
    assert Filter(rows, sel) == Filter(raw, WorldDay(d)) by {
      WorldDayIsBoth(d);
      FilterFilter(raw, IsNotWorld, sel, WorldDay(d));
    }
    DaySumOfContinentRows(rows, raw, ks, d, col);
    PartitionSum(rows, ContinentDate, RecordMeasures, ks, DateIs(d), col);
  }

  /** The World series has a row for a date exactly when some country reported on it. */
  lemma WorldDatesAreReportedDates(raw: seq<DailyRecord>, alpha3ToId: map<string, int>, d: int)
    ensures (exists p :: p in WorldSeries(FetchCovidData(raw, alpha3ToId).linechart) && p.date == d)
        <==> (exists r :: r in raw && WorldDay(d)(r))
  {
    var rows := Filter(raw, IsNotWorld);
    var series := ContinentDayRows(rows, Keys(rows, ContinentDate));
    assert FetchCovidData(raw, alpha3ToId).linechart == series;
    if exists p :: p in WorldSeries(series) && p.date == d {
      var p :| p in WorldSeries(series) && p.date == d;
      WorldDateIsReported(raw, p);
    }
    if exists r :: r in raw && WorldDay(d)(r) {
      var r :| r in raw && WorldDay(d)(r);
      ReportedDateIsWorldDate(raw, r);
    }
  }

  lemma WorldDateIsReported(raw: seq<DailyRecord>, p: SeriesRow)
    requires p in WorldSeries(ContinentDayRows(Filter(raw, IsNotWorld), Keys(Filter(raw, IsNotWorld), ContinentDate)))
    ensures exists r :: r in raw && WorldDay(p.date)(r)
  {
    var rows := Filter(raw, IsNotWorld);
    var series := ContinentDayRows(rows, Keys(rows, ContinentDate));
    var d := p.date;
    WorldRowsMember(series, Keys(series, SeriesDate), p);
    var i :| 0 <= i < |series| && SeriesDate(series[i]) == Some(d);
    ContinentDayRowsMember(rows, Keys(rows, ContinentDate), series[i]);
    var k := (series[i].continent.value, d);
    KeyedRow(rows, k);
    var x :| x in rows && ContinentDate(x) == Some(k);
    KeyedRowIsWorldDay(raw, x, k);
  }

  lemma KeyedRow(rows: seq<DailyRecord>, k: (string, int))
    requires k in Keys(rows, ContinentDate)
    ensures exists x :: x in rows && ContinentDate(x) == Some(k)
  {
  }

  lemma KeyedRowIsWorldDay(raw: seq<DailyRecord>, x: DailyRecord, k: (string, int))
    requires x in Filter(raw, IsNotWorld) && ContinentDate(x) == Some(k)
    ensures x in raw && WorldDay(k.1)(x)
  {
  }

  lemma ReportedDateIsWorldDate(raw: seq<DailyRecord>, r: DailyRecord)
    requires r in raw && r.location != WORLD && r.continent.Some?
    ensures exists p :: p in WorldSeries(ContinentDayRows(Filter(raw, IsNotWorld), Keys(Filter(raw, IsNotWorld), ContinentDate)))
                     && p.date == r.date
  {
    var rows := Filter(raw, IsNotWorld);
    var ks := Keys(rows, ContinentDate);
    var series := ContinentDayRows(rows, ks);
    var d := r.date;
    var k := (r.continent.value, d);
    assert r in rows;
    var j :| 0 <= j < |rows| && rows[j] == r;
    assert ContinentDate(rows[j]) == Some(k);
    assert k in ks;
    ContinentDayRowsHas(rows, ks, k);
    var i :| 0 <= i < |series| && series[i].date == d;
    assert SeriesDate(series[i]) == Some(d);
    WorldRowsCover(series, Keys(series, SeriesDate), d);
  }

  lemma {:induction false} ContinentDayRowsHas(rows: seq<DailyRecord>, ks: seq<(string, int)>, k: (string, int))
    requires k in ks
    ensures exists i :: 0 <= i < |ContinentDayRows(rows, ks)|
                        && ContinentDayRows(rows, ks)[i].continent == Some(k.0)
                        && ContinentDayRows(rows, ks)[i].date == k.1
  {
    ContinentDayRowsKeys(rows, ks);
    var i :| 0 <= i < |ks| && ks[i] == k;
  }

  /** The continent series has one row per key, in the order of the keys, carrying that
      key's continent and date. */
  lemma {:induction false} ContinentDayRowsKeys(rows: seq<DailyRecord>, ks: seq<(string, int)>)
    ensures |ContinentDayRows(rows, ks)| == |ks|
    ensures forall i :: 0 <= i < |ks| ==>
              ContinentDayRows(rows, ks)[i].continent == Some(ks[i].0) && ContinentDayRows(rows, ks)[i].date == ks[i].1
    decreases |ks|
  {
    if ks != [] {
      var row0 := SeriesRow(Some(ks[0].0), ks[0].1,
                            LinechartStats(Project(Filter(rows, HasKey(ContinentDate, ks[0])), RecordMeasures)));
      var rest := ContinentDayRows(rows, ks[1..]);
      assert ContinentDayRows(rows, ks) == [row0] + rest;
      ContinentDayRowsKeys(rows, ks[1..]);
      forall i | 1 <= i < |ks|
        ensures ([row0] + rest)[i] == rest[i - 1] && ks[i] == ks[1..][i - 1]
      {
      }
    }
  }

  /** Every (continent, date) that a country reported has its row in the continent series. */
  lemma ReportedContinentDayIsCharted(raw: seq<DailyRecord>, alpha3ToId: map<string, int>, r: DailyRecord)
    requires r in raw && r.location != WORLD && r.continent.Some?
    ensures exists p :: p in FetchCovidData(raw, alpha3ToId).linechart
                        && p.continent == r.continent && p.date == r.date
  {
    var rows := Filter(raw, IsNotWorld);
    var ks := Keys(rows, ContinentDate);
    var series := ContinentDayRows(rows, ks);
    var k := (r.continent.value, r.date);
    assert r in rows;
    var j :| 0 <= j < |rows| && rows[j] == r;
    assert ContinentDate(rows[j]) == Some(k);
    ContinentDayRowsHas(rows, ks, k);
    var i :| 0 <= i < |series| && series[i].continent == Some(k.0) && series[i].date == k.1;
    assert series[i] in FetchCovidData(raw, alpha3ToId).linechart;
  }

  /** No (continent, date) has two rows in the continent series. */
  lemma ContinentDaysAreDistinct(raw: seq<DailyRecord>, alpha3ToId: map<string, int>)
    ensures var s := FetchCovidData(raw, alpha3ToId).linechart;
            forall i, j :: 0 <= i < j < |s| ==> (s[i].continent, s[i].date) != (s[j].continent, s[j].date)
  {
    var rows := Filter(raw, IsNotWorld);
    var ks := Keys(rows, ContinentDate);
    ContinentDayRowsKeys(rows, ks);
  }

  /** Every row of a continent's series aggregates, with the line-chart rules, exactly
      the country rows of that continent on that day. */
  lemma ContinentRowAggregatesCountries(raw: seq<DailyRecord>, alpha3ToId: map<string, int>, p: SeriesRow)
    requires p in FetchCovidData(raw, alpha3ToId).linechart
    ensures p.continent.Some?
    ensures p.stats == LinechartStats(Project(Filter(raw, ContinentDay(p.continent.value, p.date)), RecordMeasures))
  {
    var rows := Filter(raw, IsNotWorld);
    ContinentDayRowsMember(rows, Keys(rows, ContinentDate), p);
    var k := (p.continent.value, p.date);
    ContinentDayIsBoth(k);
    FilterFilter(raw, IsNotWorld, HasKey(ContinentDate, k), ContinentDay(k.0, k.1));
  }

  lemma ContinentDayIsBoth(k: (string, int))
    ensures forall r :: ContinentDay(k.0, k.1)(r) == (IsNotWorld(r) && HasKey(ContinentDate, k)(r))
  {
    forall r ensures ContinentDay(k.0, k.1)(r) == (IsNotWorld(r) && HasKey(ContinentDate, k)(r)) {
      assert HasKey(ContinentDate, k)(r) == (ContinentDate(r) == Some(k));
    }
  }

  lemma WorldDayIsBoth(d: int)
    ensures forall r :: WorldDay(d)(r) == (IsNotWorld(r) && KeyWhere(ContinentDate, DateIs(d))(r))
  {
    forall r ensures WorldDay(d)(r) == (IsNotWorld(r) && KeyWhere(ContinentDate, DateIs(d))(r)) {
      var key := ContinentDate(r);
      assert KeyWhere(ContinentDate, DateIs(d))(r) == (key.Some? && DateIs(d)(key.value));
    }
  }

  lemma CountryRowsIsBoth(k: (string, string, string))
    ensures forall r :: CountryRows(k)(r) == (IsNotWorld(r) && HasKey(CountryKey, k)(r))
  {
    forall r ensures CountryRows(k)(r) == (IsNotWorld(r) && HasKey(CountryKey, k)(r)) {
      assert HasKey(CountryKey, k)(r) == (CountryKey(r) == Some(k));
    }
  }

  /** Every map row is one country: its id is its code looked up in the code table, and its
      snapshot aggregates, with the map rules, exactly that country's rows. */
  lemma MapRowSummarisesItsCountry(raw: seq<DailyRecord>, alpha3ToId: map<string, int>, i: int)
    requires 0 <= i < |FetchCovidData(raw, alpha3ToId).mapRows|
    ensures var m := FetchCovidData(raw, alpha3ToId).mapRows[i];
            && m.id == MapIdOf(m.isoCode, alpha3ToId)
            && m.stats == MapStats(Project(Filter(raw, CountryRows(MapKey(m))), RecordMeasures))
  {
    var rows := Filter(raw, IsNotWorld);
    var m := FetchCovidData(raw, alpha3ToId).mapRows[i];
    CountryRowsIsBoth(MapKey(m));
    FilterFilter(raw, IsNotWorld, HasKey(CountryKey, MapKey(m)), CountryRows(MapKey(m)));
  }

  /** No country appears twice on the map. */
  lemma MapRowsAreDistinctCountries(raw: seq<DailyRecord>, alpha3ToId: map<string, int>)
    ensures var m := FetchCovidData(raw, alpha3ToId).mapRows;
            forall i, j :: 0 <= i < j < |m| ==> MapKey(m[i]) != MapKey(m[j])
  {
  }

  /** Every country that reported (not "World", with a continent) is on the map. */
  lemma ReportingCountriesAreMapped(raw: seq<DailyRecord>, alpha3ToId: map<string, int>, r: DailyRecord)
    requires r in raw && r.location != WORLD && r.continent.Some?
    ensures var m := FetchCovidData(raw, alpha3ToId).mapRows;
            exists i :: 0 <= i < |m| && MapKey(m[i]) == (r.isoCode, r.continent.value, r.location)
  {
  }

  /** The whole World series: each of its rows equals the line-chart aggregate of exactly
      the country rows of its date. */
  lemma WorldSeriesAggregatesCountries(raw: seq<DailyRecord>, alpha3ToId: map<string, int>)
    requires NonNegativeRows(raw)
    ensures forall p :: p in WorldSeries(FetchCovidData(raw, alpha3ToId).linechart) ==>
              p.stats == LinechartStats(Project(Filter(raw, WorldDay(p.date)), RecordMeasures))
  {
    forall p | p in WorldSeries(FetchCovidData(raw, alpha3ToId).linechart)
      ensures p.stats == LinechartStats(Project(Filter(raw, WorldDay(p.date)), RecordMeasures))
    {
      WorldRowAggregatesCountries(raw, alpha3ToId, p);
    }
  }

  /** The whole continent series: each of its rows equals the line-chart aggregate of
      exactly that continent's country rows on that day. */
  lemma ContinentSeriesAggregatesCountries(raw: seq<DailyRecord>, alpha3ToId: map<string, int>)
    ensures forall p :: p in FetchCovidData(raw, alpha3ToId).linechart ==>
              p.continent.Some? &&
              p.stats == LinechartStats(Project(Filter(raw, ContinentDay(p.continent.value, p.date)), RecordMeasures))
  {
    forall p | p in FetchCovidData(raw, alpha3ToId).linechart
      ensures p.continent.Some? &&
              p.stats == LinechartStats(Project(Filter(raw, ContinentDay(p.continent.value, p.date)), RecordMeasures))
    {
      ContinentRowAggregatesCountries(raw, alpha3ToId, p);
    }
  }

  /** The whole map: every row's id is its code looked up in the table, and its snapshot
      is the map aggregate of exactly that country's rows. */
  lemma MapSummarisesCountries(raw: seq<DailyRecord>, alpha3ToId: map<string, int>)
    ensures forall m :: m in FetchCovidData(raw, alpha3ToId).mapRows ==>
              m.id == MapIdOf(m.isoCode, alpha3ToId) &&
              m.stats == MapStats(Project(Filter(raw, CountryRows(MapKey(m))), RecordMeasures))
  {
    var rows := FetchCovidData(raw, alpha3ToId).mapRows;
    forall m | m in rows
      ensures m.id == MapIdOf(m.isoCode, alpha3ToId) &&
              m.stats == MapStats(Project(Filter(raw, CountryRows(MapKey(m))), RecordMeasures))
    {
      var i :| 0 <= i < |rows| && rows[i] == m;
      MapRowSummarisesItsCountry(raw, alpha3ToId, i);
    }
  }
}
