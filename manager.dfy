/**
 * The manager: scrape one configured country into the shared dataset, and
 * lay the dataset out for saving.
 */
module Manager {
  import opened Wrappers
  import opened Models
  import opened Html
  import opened Log
  import opened Canadian
  import opened Scrapers
  import opened Dataset

  /** The batch `scrape_country` obtains: what a fresh scraper of the registered kind returns. */
  function CountryBatch(config: ScraperConfig, outcome: HttpOutcome, parseHtml: string -> Document): seq<TariffRecord> {
    match Lookup(config.country)
    case Failure(_) => []
    case Success(v) => ScrapeSpec(v, config.country, outcome, parseHtml, []).result
  }

  /** What `scrape_country` writes to the log: the scraper's messages, or the caught factory error. */
  function CountryLog(config: ScraperConfig, outcome: HttpOutcome, parseHtml: string -> Document): seq<Diagnostic> {
    match Lookup(config.country)
    case Failure(_) => [ScrapeError(config.country)]
    case Success(v) => ScrapeSpec(v, config.country, outcome, parseHtml, []).logged
  }

  /** Only the Canadian scraper ever yields a batch; Mexico and China never add anything. */
  lemma OnlyCanadaAddsData(config: ScraperConfig, outcome: HttpOutcome, parseHtml: string -> Document)
    requires config.country != CANADA
    ensures CountryBatch(config, outcome, parseHtml) == []
  {
    RegistryTotal(config.country);
    StubsScrapeNothing(Lookup(config.country).value, config.country, outcome, parseHtml, []);
  }

  /** A Canadian batch is exactly the records on the fetched page, when there is a non-empty one. */
  lemma CanadianBatch(config: ScraperConfig, outcome: HttpOutcome, parseHtml: string -> Document)
    requires config.country == CANADA
    ensures var page := FetchResult(outcome);
      CountryBatch(config, outcome, parseHtml) ==
        if page.None? || page.value == "" then [] else PageRecords(parseHtml(page.value))
  {
    RegistryTotal(config.country);
    FreshCanadianScrape(config.country, outcome, parseHtml);
  }

  /** Since the registry is total, `scrape_country` never logs a factory error. */
  lemma NoFactoryError(config: ScraperConfig, outcome: HttpOutcome, parseHtml: string -> Document)
    ensures ScrapeError(config.country) !in CountryLog(config, outcome, parseHtml)
  {
    RegistryTotal(config.country);
  }

  /** One worksheet of the saved workbook. */
  datatype Sheet = Sheet(name: string, rows: seq<DataRow>)

  /** The files `save_data` writes, as values: the JSON document and the workbook's sheets. */
  datatype SaveOutput = SaveOutput(lastUpdated: Timestamp, statistics: Statistics,
                                   tariffs: seq<DataRow>, sheets: seq<Sheet>)

  /** One sheet per listed country, named `<COUNTRY>_Data`, holding that country's rows. */
  function CountrySheets(rows: seq<DataRow>, names: seq<string>): (r: seq<Sheet>)
    ensures |r| == |names|
    decreases |names|
  {
    if names == [] then []
    else
      var name := names[|names| - 1];
      CountrySheets(rows, names[..|names| - 1]) + [Sheet(name + "_Data", OfCountry(rows, name))]
  }

  /** The number of rows over all the sheets. */
  function SheetRows(sheets: seq<Sheet>): nat
    decreases |sheets|
  {
    if sheets == [] then 0 else SheetRows(sheets[..|sheets| - 1]) + |sheets[|sheets| - 1].rows|
  }

  lemma {:induction false} CountrySheetsSize(rows: seq<DataRow>, names: seq<string>)
    ensures SheetRows(CountrySheets(rows, names)) == SumOccurrences(names, Countries(rows))
    decreases |names|
  {
    if names != [] {
      var init := names[..|names| - 1];
      var sheets := CountrySheets(rows, names);
      CountrySheetsSize(rows, init);
      OfCountrySize(rows, names[|names| - 1]);
      assert sheets[..|sheets| - 1] == CountrySheets(rows, init);
    }
  }

  /** The workbook: `All_Data`, then one sheet per country in order of first appearance. */
  function Workbook(rows: seq<DataRow>): seq<Sheet> {
    [Sheet("All_Data", rows)] + CountrySheets(rows, Distinct(Countries(rows)))
  }

  /**
   * What `save_data` writes: nothing when there is no table, or when its
   * statistics cannot be computed, since both are found before any file is
   * opened; otherwise the JSON document with the statistics and every row,
   * and the workbook.
   */
  function SaveOutputs(data: TariffData, now: Timestamp): (r: Result<SaveOutput, DataError>)
    reads data
    ensures r.Failure? <==> data.df.None? || data.df.value == []
    ensures r.Failure? ==> (r.error == NoDataAvailable <==> data.df.None?)
    ensures r.Success? ==>
      r.value == SaveOutput(now, ComputeStatistics(data.Rows()), data.Rows(), Workbook(data.Rows()))
  {
    match data.GetStatistics()
    case Failure(e) => Failure(e)
    case Success(st) => Success(SaveOutput(now, st, data.Rows(), Workbook(data.Rows())))
  }

  /**
   * The workbook partitions the table: `All_Data` holds every row, then
   * comes one sheet per country present, each named after it, and together
   * they hold as many rows as `All_Data`.
   */
  lemma CountrySheetsPartition(rows: seq<DataRow>)
    ensures var book := Workbook(rows); var names := Distinct(Countries(rows));
      && book[0] == Sheet("All_Data", rows)
      && |book| == 1 + NUnique(Countries(rows))
      && (forall i :: 1 <= i < |book| ==> book[i].name == names[i - 1] + "_Data")
      && SheetRows(book[1..]) == |rows|
  {
    var names := Distinct(Countries(rows));
    var book := Workbook(rows);
    assert book[1..] == CountrySheets(rows, names);
    CountrySheetsNames(rows, names);
    DistinctFacts(Countries(rows));
    CountrySheetsSize(rows, names);
    GroupSizesSum(Countries(rows));
  }

  lemma {:induction false} CountrySheetsNames(rows: seq<DataRow>, names: seq<string>)
    ensures forall i :: 0 <= i < |names| ==> CountrySheets(rows, names)[i].name == names[i] + "_Data"
    decreases |names|
  {
    if names != [] {
      var init := names[..|names| - 1];
      CountrySheetsNames(rows, init);
      assert forall i :: 0 <= i < |init| ==> names[i] == init[i];
    }
  }

  /** The manager: the dataset all scrapes go into, and the shared log. */
  class TariffManager {
    const tariffData: TariffData
    const logger: Logger

    /** A new manager starts with an empty dataset. */
    constructor (logger: Logger)
      ensures fresh(tariffData) && tariffData.df == None && this.logger == logger
    {
      tariffData := new TariffData();
      this.logger := logger;
    }

    /**
     * `scrape_country`: build the registered scraper and scrape; a non-empty
     * batch is appended to the dataset and reported as success, anything
     * else leaves the dataset as it was and reports failure.
     */
    method ScrapeCountry(config: ScraperConfig, outcome: HttpOutcome, parseHtml: string -> Document,
                         now: Timestamp) returns (ok: bool)
      modifies tariffData, logger
      ensures var batch := CountryBatch(config, outcome, parseHtml);
        && ok == (batch != [])
        && tariffData.df == (if ok then Some(old(tariffData.Rows()) + Tag(batch, config.country, now))
                            else old(tariffData.df))
        && logger.entries == old(logger.entries) + CountryLog(config, outcome, parseHtml)
    {
      var created := CreateScraper(config, logger);
      match created
      case Failure(_) =>
        logger.Write(ScrapeError(config.country));
        ok := false;
      case Success(scraper) =>
        var batch := scraper.Scrape(outcome, parseHtml);
        ok := batch != [];
        if ok {
          tariffData.AddData(batch, config.country, now);
        }
    }

    /**
     * `save_data`: refuse without a table, compute the statistics, write the
     * files; the outcome is logged either way and the answer is whether the
     * files were written.
     */
    method SaveData(now: Timestamp) returns (saved: bool, out: Result<SaveOutput, DataError>)
      modifies logger
      ensures out == SaveOutputs(tariffData, now) && saved == out.Success?
      ensures logger.entries == old(logger.entries) + [if saved then DataSaved else SaveFailed]
    {
      if tariffData.df.None? {
        logger.Write(SaveFailed);
        return false, Failure(NoDataAvailable);
      }
      var stats := tariffData.GetStatistics();
      if stats.Failure? {
        logger.Write(SaveFailed);
        return false, Failure(stats.error);
      }
      var rows := tariffData.Rows();
      out := Success(SaveOutput(now, stats.value, rows, Workbook(rows)));
      logger.Write(DataSaved);
      saved := true;
    }
  }

  /** The records on the two-row page. */
  const TwoRowRecords: seq<TariffRecord> :=
    [TariffRecord("0101.21.00", "01.01", "Horses"), TariffRecord("0102.29.00", "01.02", "Cattle")]

  /** A parser that reads every page as the two-row page. */
  function TwoRowParser(text: string): Document {
    TwoRowPage()
  }

  /** Scraping the two-row page for Canada, fetched with status 200, gives its two records. */
  lemma TwoRowBatch(config: ScraperConfig, text: string)
    requires config.country == CANADA && text != ""
    ensures CountryBatch(config, Received(200, text), TwoRowParser) == TwoRowRecords
  {
    CanadianBatch(config, Received(200, text), TwoRowParser);
    TwoRowExample();
  }

  /** The statistics of the two records tagged as Canadian: two entries, two headings, two items. */
  lemma TwoRowStatistics(now: Timestamp)
    ensures ComputeStatistics(Tag(TwoRowRecords, CANADA, now)) ==
      Statistics(2, map["CANADA" := 2], 2, 2, map["CANADA" := CountryStatistics(2, 2, Ratio(2, 2))])
  {
    var rows := Tag(TwoRowRecords, CANADA, now);
    var hs := Headings(rows);
    assert hs == ["01.01", "01.02"];
    assert Elements(hs) == {"01.01", "01.02"};
    assert Items(rows) == ["0101.21.00", "0102.29.00"];
    assert Elements(Items(rows)) == {"0101.21.00", "0102.29.00"};
    MeanIsEntriesPerValue(hs);
    OneCountryStatistics(rows, "CANADA");
  }

  /** The workbook of the two records tagged as Canadian: `All_Data` and `CANADA_Data`. */
  lemma TwoRowWorkbook(now: Timestamp)
    ensures var book := Workbook(Tag(TwoRowRecords, CANADA, now));
      |book| == 2 && book[0].name == "All_Data" && book[1].name == "CANADA_Data"
  {
    var rows := Tag(TwoRowRecords, CANADA, now);
    var cs := Countries(rows);
    assert cs == ["CANADA", "CANADA"];
    assert cs[..1] == ["CANADA"] && cs[..1][..0] == [];
    assert Distinct(cs[..1]) == ["CANADA"];
    assert Distinct(cs) == ["CANADA"];
    CountrySheetsPartition(rows);
  }

  /** Scrape the two-row page for Canada into a manager whose dataset has no table yet. */
  method ScrapeTwoRowPage(manager: TariffManager, now: Timestamp) returns (ok: bool)
    requires manager.tariffData.df == None
    modifies manager.tariffData, manager.logger
    ensures ok && manager.tariffData.df == Some(Tag(TwoRowRecords, CANADA, now))
  {
    var config := NewConfig("https://www.canada.ca/tariffs.html", CANADA, "en");
    TwoRowBatch(config, "<table>");
    ok := manager.ScrapeCountry(config, Received(200, "<table>"), TwoRowParser, now);
    assert [] + Tag(TwoRowRecords, CANADA, now) == Tag(TwoRowRecords, CANADA, now);
  }

  /**
   * One Canadian page with two well-formed rows, scraped into a new manager's
   * dataset: the scrape succeeds, the statistics count two Canadian entries
   * under two headings, and saving writes `All_Data` and `CANADA_Data`.
   */
  method CanadianScenario(now: Timestamp) returns (ok: bool, stats: Result<Statistics, DataError>,
                                                  saved: bool, sheets: seq<string>)
    ensures ok && saved
    ensures stats == Success(Statistics(2, map["CANADA" := 2], 2, 2,
                                        map["CANADA" := CountryStatistics(2, 2, Ratio(2, 2))]))
    ensures sheets == ["All_Data", "CANADA_Data"]
  {
    var logger := new Logger();
    var manager := new TariffManager(logger);
    ok := ScrapeTwoRowPage(manager, now);
    stats := manager.tariffData.GetStatistics();
    TwoRowStatistics(now);
    var out;
    saved, out := manager.SaveData(now);
    TwoRowWorkbook(now);
    sheets := [out.value.sheets[0].name, out.value.sheets[1].name];
  }
}
