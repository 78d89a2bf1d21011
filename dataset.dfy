/**
 * The dataset: the table of tagged records every successful scrape is
 * appended to, and the statistics computed from it on demand.
 */
module Dataset {
  import opened Wrappers
  import opened Models
  import opened Canadian

  /** A moment as `datetime.now()` returns it; the clock itself is an input. */
  type Timestamp = int

  /** One table row: the three record fields, the country's name and the scrape time. */
  datatype DataRow = DataRow(tariffItem: string, hsHeading: string, description: string,
                             country: string, scrapeDate: Timestamp)

  /** The record a row was made from. */
  function Untag(row: DataRow): TariffRecord {
    TariffRecord(row.tariffItem, row.hsHeading, row.description)
  }

  /**
   * The batch as `add_data` frames it: every record kept as it was, in order,
   * and stamped with `country.name` and one shared time.
   */
  function Tag(batch: seq<TariffRecord>, country: Country, now: Timestamp): (r: seq<DataRow>)
    ensures |r| == |batch|
    ensures forall i :: 0 <= i < |batch| ==>
      Untag(r[i]) == batch[i] && r[i].country == country.Name() && r[i].scrapeDate == now
  {
    seq(|batch|, i requires 0 <= i < |batch| =>
      DataRow(batch[i].tariffItem, batch[i].hsHeading, batch[i].description, country.Name(), now))
  }

  /** The `HS Heading` column. */
  function Headings(rows: seq<DataRow>): (r: seq<string>)
    ensures |r| == |rows|
  {
    seq(|rows|, i requires 0 <= i < |rows| => rows[i].hsHeading)
  }

  /** The `Tariff Item` column. */
  function Items(rows: seq<DataRow>): (r: seq<string>)
    ensures |r| == |rows|
  {
    seq(|rows|, i requires 0 <= i < |rows| => rows[i].tariffItem)
  }

  /** The `Country` column. */
  function Countries(rows: seq<DataRow>): (r: seq<string>)
    ensures |r| == |rows|
  {
    seq(|rows|, i requires 0 <= i < |rows| => rows[i].country)
  }

  /** The values of a column. */
  function Elements<T>(s: seq<T>): set<T> {
    set x | x in s
  }

  /** `nunique()`: how many different values a column holds. */
  function NUnique<T(==)>(s: seq<T>): nat {
    |Elements(s)|
  }

  /** No value occurs twice. */
  predicate NoDuplicates<T(==)>(s: seq<T>) {
    forall i, j :: 0 <= i < j < |s| ==> s[i] != s[j]
  }

  /** `unique()`: each value once, in order of first appearance. */
  function Distinct<T(==)>(s: seq<T>): seq<T>
    decreases |s|
  {
    if s == [] then []
    else
      var d := Distinct(s[..|s| - 1]);
      if s[|s| - 1] in d then d else d + [s[|s| - 1]]
  }

  /** `unique()` lists every value of the column once and nothing else. */
  lemma {:induction false} DistinctFacts<T>(s: seq<T>)
    ensures Elements(Distinct(s)) == Elements(s)
    ensures NoDuplicates(Distinct(s))
    ensures |Distinct(s)| == NUnique(s) <= |s|
    decreases |s|
  {
    if s != [] {
      var init, x := s[..|s| - 1], s[|s| - 1];
      DistinctFacts(init);
      assert s == init + [x];
      assert Elements(s) == Elements(init) + {x};
      var d := Distinct(init);
      if x !in d {
        assert Elements(d + [x]) == Elements(d) + {x};
      }
    }
  }

  /**
   * `unique()` keeps the order of first appearance: the distinct values of
   * any leading part of a column come first, in the same order.
   */
  lemma {:induction false} DistinctPrefix<T>(s: seq<T>, n: nat)
    requires n <= |s|
    ensures Distinct(s[..n]) <= Distinct(s)
    decreases |s|
  {
    if n < |s| {
      var init := s[..|s| - 1];
      assert init[..n] == s[..n];
      DistinctPrefix(init, n);
    } else {
      assert s[..n] == s;
    }
  }

  /** A value occurs once in a sequence without duplicates that holds it. */
  lemma {:induction false} OccursOnce<T>(s: seq<T>, x: T)
    requires NoDuplicates(s)
    ensures multiset(s)[x] == if x in s then 1 else 0
    decreases |s|
  {
    if s != [] {
      var init := s[..|s| - 1];
      assert s == init + [s[|s| - 1]];
      OccursOnce(init, x);
    }
  }

  /** The sum, over `keys`, of how often each key occurs in `s`. */
  function SumOccurrences<T(==)>(keys: seq<T>, s: seq<T>): nat
    decreases |keys|
  {
    if keys == [] then 0
    else SumOccurrences(keys[..|keys| - 1], s) + multiset(s)[keys[|keys| - 1]]
  }

  lemma {:induction false} SumOccurrencesSnoc<T>(keys: seq<T>, s: seq<T>, x: T)
    ensures SumOccurrences(keys, s + [x]) == SumOccurrences(keys, s) + multiset(keys)[x]
    decreases |keys|
  {
    if keys != [] {
      var init := keys[..|keys| - 1];
      SumOccurrencesSnoc(init, s, x);
      assert keys == init + [keys[|keys| - 1]];
    }
  }

  /** The groups of a column partition it: the group sizes add up to its length. */
  lemma {:induction false} GroupSizesSum<T>(s: seq<T>)
    ensures SumOccurrences(Distinct(s), s) == |s|
    decreases |s|
  {
    if s != [] {
      var init, x := s[..|s| - 1], s[|s| - 1];
      var d := Distinct(init);
      assert s == init + [x];
      GroupSizesSum(init);
      DistinctFacts(init);
      OccursOnce(d, x);
      SumOccurrencesSnoc(d, init, x);
      if x !in d {
        assert x !in Elements(init);
        assert (d + [x])[..|d|] == d;
      }
    }
  }

  /** An exact fraction: `avg_descriptions_per_heading` without floating point. */
  datatype Ratio = Ratio(numerator: nat, denominator: nat)

  /** `groupby(column).size().mean()`: the sum of the group sizes over the number of groups. */
  function GroupSizeMean<T(==)>(s: seq<T>): Ratio {
    Ratio(SumOccurrences(Distinct(s), s), |Distinct(s)|)
  }

  /** The mean group size is the number of entries over the number of distinct values. */
  lemma MeanIsEntriesPerValue<T>(s: seq<T>)
    ensures GroupSizeMean(s) == Ratio(|s|, NUnique(s))
  {
    GroupSizesSum(s);
    DistinctFacts(s);
  }

  /** The rows of one country, in table order: `df[df['Country'] == country]`. */
  function OfCountry(rows: seq<DataRow>, name: string): (r: seq<DataRow>)
    ensures |r| <= |rows|
    decreases |rows|
  {
    if rows == [] then []
    else
      var last := rows[|rows| - 1];
      OfCountry(rows[..|rows| - 1], name) + (if last.country == name then [last] else [])
  }

  /** A country's rows are as many as its name occurs in the Country column. */
  lemma {:induction false} OfCountrySize(rows: seq<DataRow>, name: string)
    ensures |OfCountry(rows, name)| == multiset(Countries(rows))[name]
    decreases |rows|
  {
    if rows != [] {
      var init := rows[..|rows| - 1];
      OfCountrySize(init, name);
      assert Countries(rows) == Countries(init) + [rows[|rows| - 1].country];
    }
  }

  /** One country's own figures. */
  datatype CountryStatistics = CountryStatistics(totalEntries: nat, uniqueHsHeadings: nat,
                                                 avgDescriptionsPerHeading: Ratio)

  /** The summary `get_statistics` returns; the per-country figures are keyed by country name. */
  datatype Statistics = Statistics(
    totalEntries: nat,
    entriesByCountry: map<string, nat>,
    uniqueHsHeadings: nat,
    uniqueTariffItems: nat,
    countryStatistics: map<string, CountryStatistics>)

  /** The figures of one country's rows. */
  function CountryFigures(rows: seq<DataRow>): CountryStatistics {
    CountryStatistics(|rows|, NUnique(Headings(rows)), GroupSizeMean(Headings(rows)))
  }

  /** `groupby('Country').size()`: how many rows each country present has. */
  function EntriesByCountry(rows: seq<DataRow>): map<string, nat> {
    var countries := Countries(rows);
    map c | c in countries :: multiset(countries)[c]
  }

  /** The per-country figures, keyed by country name, for each country present. */
  function FiguresByCountry(rows: seq<DataRow>): map<string, CountryStatistics> {
    map c | c in Countries(rows) :: CountryFigures(OfCountry(rows, c))
  }

  /** `get_statistics` over a table that exists. */
  function ComputeStatistics(rows: seq<DataRow>): Statistics {
    Statistics(|rows|, EntriesByCountry(rows), NUnique(Headings(rows)), NUnique(Items(rows)),
               FiguresByCountry(rows))
  }

  /** The sum, over `keys`, of a map's values. */
  function SumValues(keys: seq<string>, m: map<string, nat>): nat
    requires forall k :: k in keys ==> k in m
    decreases |keys|
  {
    if keys == [] then 0 else SumValues(keys[..|keys| - 1], m) + m[keys[|keys| - 1]]
  }

  lemma {:induction false} SumValuesOfCounts(keys: seq<string>, s: seq<string>, m: map<string, nat>)
    requires forall k :: k in keys ==> k in m && m[k] == multiset(s)[k]
    ensures SumValues(keys, m) == SumOccurrences(keys, s)
    decreases |keys|
  {
    if keys != [] {
      SumValuesOfCounts(keys[..|keys| - 1], s, m);
    }
  }

  /**
   * The table-wide figures: every country present has an entry and the
   * entries add up to the total; the distinct-value counts never exceed it
   * and are positive on a non-empty table.
   */
  lemma TotalsAgree(rows: seq<DataRow>)
    ensures var st := ComputeStatistics(rows); var names := Distinct(Countries(rows));
      && st.totalEntries == |rows|
      && st.entriesByCountry.Keys == Elements(names) == st.countryStatistics.Keys
      && NoDuplicates(names)
      && SumValues(names, st.entriesByCountry) == st.totalEntries
      && st.uniqueHsHeadings <= st.totalEntries && st.uniqueTariffItems <= st.totalEntries
      && (rows != [] ==> st.uniqueHsHeadings >= 1 && st.uniqueTariffItems >= 1)
  {
    var st := ComputeStatistics(rows);
    var countries := Countries(rows);
    var names := Distinct(countries);
    DistinctFacts(countries);
    DistinctFacts(Headings(rows));
    DistinctFacts(Items(rows));
    assert st.entriesByCountry.Keys == Elements(countries);
    SumValuesOfCounts(names, countries, st.entriesByCountry);
    GroupSizesSum(countries);
    if rows != [] {
      assert Headings(rows)[0] in Elements(Headings(rows));
      assert Items(rows)[0] in Elements(Items(rows));
    }
  }

  /**
   * Each country's own figures: its entry count equals its entry in
   * `entries_by_country`, it has at least one heading and no more headings
   * than entries, and its average is entries over distinct headings.
   */
  lemma CountryFiguresAgree(rows: seq<DataRow>, name: string)
    requires name in Countries(rows)
    ensures var st := ComputeStatistics(rows);
      && name in st.entriesByCountry && name in st.countryStatistics
      && var cs := st.countryStatistics[name];
      && cs.totalEntries == st.entriesByCountry[name] >= 1
      && 1 <= cs.uniqueHsHeadings <= cs.totalEntries
      && cs.avgDescriptionsPerHeading == Ratio(cs.totalEntries, cs.uniqueHsHeadings)
  {
    var own := OfCountry(rows, name);
    OfCountrySize(rows, name);
    MeanIsEntriesPerValue(Headings(own));
    DistinctFacts(Headings(own));
    if own != [] {
      assert Headings(own)[0] in Elements(Headings(own));
    }
  }

  /** A table whose rows all carry one country name: that country is the only group, and it is the whole table. */
  lemma {:induction false} OneCountryRows(rows: seq<DataRow>, name: string)
    requires forall i :: 0 <= i < |rows| ==> rows[i].country == name
    ensures OfCountry(rows, name) == rows
    ensures rows != [] ==> Elements(Countries(rows)) == {name}
    decreases |rows|
  {
    if rows != [] {
      var init := rows[..|rows| - 1];
      OneCountryRows(init, name);
      assert rows == init + [rows[|rows| - 1]];
      assert Countries(rows)[0] == name;
    }
  }

  /**
   * On a table of a single country, `entries_by_country` and the per-country
   * figures each hold one entry: that country, over the whole table.
   */
  lemma OneCountryStatistics(rows: seq<DataRow>, name: string)
    requires rows != []
    requires forall i :: 0 <= i < |rows| ==> rows[i].country == name
    ensures EntriesByCountry(rows) == map[name := |rows|]
    ensures FiguresByCountry(rows) == map[name := CountryFigures(rows)]
  {
    OneCountryRows(rows, name);
    OfCountrySize(rows, name);
    assert EntriesByCountry(rows).Keys == {name};
    assert FiguresByCountry(rows).Keys == {name};
  }

  /** Three Canadian rows, the first two under heading 01 and the third under 02. */
  function ExampleRows(t: Timestamp): seq<DataRow> {
    [DataRow("0101", "01", "a", "CANADA", t),
     DataRow("0102", "01", "b", "CANADA", t),
     DataRow("0201", "02", "c", "CANADA", t)]
  }

  /**
   * The statistics of the three example rows: three entries, all Canadian,
   * two distinct headings, three distinct items, an average of 3/2.
   */
  lemma ThreeRowExample(t: Timestamp)
    ensures var st := ComputeStatistics(ExampleRows(t));
      && st.totalEntries == 3
      && st.entriesByCountry == map["CANADA" := 3]
      && st.uniqueHsHeadings == 2
      && st.uniqueTariffItems == 3
      && st.countryStatistics == map["CANADA" := CountryStatistics(3, 2, Ratio(3, 2))]
  {
    var rows := ExampleRows(t);
    var hs := Headings(rows);
    assert hs == ["01", "01", "02"];
    assert Elements(hs) == {"01", "02"};
    assert Items(rows) == ["0101", "0102", "0201"];
    assert Elements(Items(rows)) == {"0101", "0102", "0201"};
    MeanIsEntriesPerValue(hs);
    OneCountryStatistics(rows, "CANADA");
  }

  /**
   * Why the statistics are refused: no table yet (`ValueError`), or a table
   * built only from empty batches, which has the `Country` and `Scrape_Date`
   * columns but no record columns, so reading `HS Heading` raises `KeyError`.
   */
  datatype DataError = NoDataAvailable | MissingColumn(column: string)

  /** The table: absent until the first batch arrives, then only ever appended to. */
  class TariffData {
    var df: Option<seq<DataRow>>

    /** A new dataset holds no table. */
    constructor ()
      ensures df == None
    {
      df := None;
    }

    /** The rows held, none when there is no table. */
    function Rows(): seq<DataRow>
      reads this
    {
      if df.None? then [] else df.value
    }

    /**
     * `add_data`: the batch, tagged, goes after every row already held, in
     * order; the earlier rows are untouched and the table exists afterwards.
     */
    method AddData(batch: seq<TariffRecord>, country: Country, now: Timestamp)
      modifies this
      ensures df == Some(old(Rows()) + Tag(batch, country, now))
      ensures |Rows()| == |old(Rows())| + |batch|
    {
      var tagged := Tag(batch, country, now);
      match df
      case None =>
        assert [] + tagged == tagged;
        df := Some(tagged);
      case Some(rows) => df := Some(rows + tagged);
    }

    /**
     * `get_statistics`: refused while no data has been added, and on a table
     * that holds no rows (the record columns arrive with the first record);
     * computed from the rows otherwise.
     */
    function GetStatistics(): (r: Result<Statistics, DataError>)
      reads this
      ensures r.Failure? <==> df.None? || df.value == []
      ensures r.Failure? ==> (r.error == NoDataAvailable <==> df.None?)
      ensures r.Success? ==> r.value == ComputeStatistics(df.value)
    {
      match df
      case None => Failure(NoDataAvailable)
      case Some(rows) =>
        if rows == [] then Failure(MissingColumn("HS Heading")) else Success(ComputeStatistics(rows))
    }
  }
}
