/**
 * The scrapers: fetching a page, parsing it into the scraper's own list of
 * records, and the `scrape` combinator that joins the two; and the factory
 * that picks the scraper class for a country. The three scraper classes are
 * one class here, told apart by its `variant`.
 */
module Scrapers {
  import opened Wrappers
  import opened Models
  import opened Html
  import opened Log
  import opened Canadian
  import opened Text

  /** The scraper classes. */
  datatype Variant = CanadianScraper | MexicanScraper | ChineseScraper

  /** How the HTTP GET ended: a response with its status and text, or a transport error (connection, timeout, ...). */
  datatype HttpOutcome = Received(status: int, text: string) | RequestFailed

  /** The statuses `raise_for_status` turns into an exception: client and server errors. */
  predicate IsHttpError(status: int) {
    400 <= status < 600
  }

  /**
   * `fetch_page`: the response text, or nothing when the request raised,
   * including a 4xx or 5xx status; no exception escapes.
   */
  function FetchResult(outcome: HttpOutcome): (r: Option<string>)
    ensures r.Some? <==> outcome.Received? && !IsHttpError(outcome.status)
    ensures r.Some? ==> r.value == outcome.text
  {
    match outcome
    case RequestFailed => None
    case Received(status, text) => if IsHttpError(status) then None else Some(text)
  }

  /** `parse_data` of each class on a parsed page, given the records the scraper already holds. */
  function ParseSpec(variant: Variant, doc: Document, prior: seq<TariffRecord>): ParseOutcome {
    match variant
    case CanadianScraper => CanadianParse(doc, prior)
    case MexicanScraper => ParseOutcome(false, [], [NotImplemented(MEXICO)])
    case ChineseScraper => ParseOutcome(false, [], [NotImplemented(CHINA)])
  }

  /** What one call of `scrape` returns, the scraper's list afterwards, and what it logs. */
  datatype ScrapeOutcome = ScrapeOutcome(result: seq<TariffRecord>, data: seq<TariffRecord>, logged: seq<Diagnostic>)

  /**
   * `scrape`: fetch, then parse only a non-empty page; return the scraper's
   * whole list when parsing succeeded and an empty list otherwise.
   */
  function ScrapeSpec(variant: Variant, country: Country, outcome: HttpOutcome,
                      parseHtml: string -> Document, prior: seq<TariffRecord>): ScrapeOutcome
  {
    match FetchResult(outcome)
    case None => ScrapeOutcome([], prior, [FetchFailed(country)])
    case Some(text) =>
      if text == "" then ScrapeOutcome([], prior, [])
      else
        var p := ParseSpec(variant, parseHtml(text), prior);
        var data := prior + p.added;
        ScrapeOutcome(if p.ok then data else [], data, p.logged)
  }

  /**
   * `scrape` never fails loudly: without a page, or with an empty one, it
   * returns nothing, leaves the list alone and never parses (only a failed
   * fetch is logged); when the page parses it returns the whole list, old
   * records included; otherwise nothing.
   */
  lemma ScrapeCases(variant: Variant, country: Country, outcome: HttpOutcome,
                    parseHtml: string -> Document, prior: seq<TariffRecord>)
    ensures var s := ScrapeSpec(variant, country, outcome, parseHtml, prior);
      && (FetchResult(outcome).None? ==> s.result == [] && s.data == prior && s.logged == [FetchFailed(country)])
      && (FetchResult(outcome) == Some("") ==> s.result == [] && s.data == prior && s.logged == [])
      && (s.result == [] || s.result == s.data)
      && |prior| <= |s.data|
      && s.data[..|prior|] == prior
  {
  }

  /** A failed parse returns an empty list even when the scraper already holds records. */
  lemma ScrapeParseFailed(variant: Variant, country: Country, outcome: HttpOutcome,
                          parseHtml: string -> Document, prior: seq<TariffRecord>)
    requires FetchResult(outcome).Some? && FetchResult(outcome).value != ""
    requires !ParseSpec(variant, parseHtml(FetchResult(outcome).value), prior).ok
    ensures ScrapeSpec(variant, country, outcome, parseHtml, prior).result == []
  {
  }

  /** The stub scrapers return nothing, whatever the page. */
  lemma StubsScrapeNothing(variant: Variant, country: Country, outcome: HttpOutcome,
                           parseHtml: string -> Document, prior: seq<TariffRecord>)
    requires variant != CanadianScraper
    ensures ScrapeSpec(variant, country, outcome, parseHtml, prior).result == []
    ensures ScrapeSpec(variant, country, outcome, parseHtml, prior).data == prior
  {
  }

  /** The records the Canadian rules find on a page: the first table's body rows, or none. */
  function PageRecords(doc: Document): seq<TariffRecord> {
    if doc == [] || doc[0].body.None? then [] else ExtractRows(doc[0].body.value)
  }

  /**
   * On a fresh Canadian scraper, `scrape` returns exactly the records found on
   * a non-empty fetched page, and nothing otherwise.
   */
  lemma FreshCanadianScrape(country: Country, outcome: HttpOutcome, parseHtml: string -> Document)
    ensures var page := FetchResult(outcome);
      ScrapeSpec(CanadianScraper, country, outcome, parseHtml, []).result ==
        if page.None? || page.value == "" then [] else PageRecords(parseHtml(page.value))
  {
    var page := FetchResult(outcome);
    if page.Some? && page.value != "" {
      var doc := parseHtml(page.value);
      if doc != [] && doc[0].body.Some? {
        assert [] + ExtractRows(doc[0].body.value) == ExtractRows(doc[0].body.value);
      }
    }
  }

  /** One scraper object: its configuration, its class, the records it has parsed and the log it writes to. */
  class Scraper {
    const config: ScraperConfig
    const variant: Variant
    const logger: Logger
    var data: seq<TariffRecord>

    /** `__init__`: the configuration kept, the list empty. */
    constructor (variant: Variant, config: ScraperConfig, logger: Logger)
      ensures this.variant == variant && this.config == config && this.logger == logger
      ensures data == []
    {
      this.variant := variant;
      this.config := config;
      this.logger := logger;
      data := [];
    }

    /** `fetch_page`, given how the request ended: a failure is logged and becomes None. */
    method FetchPage(outcome: HttpOutcome) returns (page: Option<string>)
      modifies logger
      ensures page == FetchResult(outcome)
      ensures logger.entries == old(logger.entries) + (if page.None? then [FetchFailed(config.country)] else [])
    {
      match outcome
      case RequestFailed =>
        logger.Write(FetchFailed(config.country));
        page := None;
      case Received(status, text) =>
        if IsHttpError(status) {
          logger.Write(FetchFailed(config.country));
          page := None;
        } else {
          page := Some(text);
        }
    }

    /**
     * One pass of the row loop: a row without a header cell is logged and
     * skipped, one with fewer than two data cells is skipped silently, and
     * any other row appends its record.
     */
    method ParseRow(row: Row)
      modifies this, logger
      ensures var o := ClassifyRow(row);
        && data == old(data) + (if o.Produced? then [o.record] else [])
        && logger.entries == old(logger.entries) + (if o.MissingHeader? then [RowError] else [])
    {
      match row.header
      case None =>
        logger.Write(RowError);
      case Some(th) =>
        var tariffItem := GetText(th.fragments, "");
        var cells := row.cells;
        if |cells| >= 2 {
          data := data + [TariffRecord(tariffItem, GetText(cells[0].fragments, " "), ParseDescription(cells[1]))];
        }
    }

    /** The row loop of the Canadian `parse_data`: every body row in order, one pass each. */
    method WalkRows(rows: seq<Row>)
      modifies this, logger
      ensures data == old(data) + ExtractRows(rows)
      ensures logger.entries == old(logger.entries) + RowLog(rows)
    {
      for i := 0 to |rows|
        invariant data == old(data) + ExtractRows(rows[..i])
        invariant logger.entries == old(logger.entries) + RowLog(rows[..i])
      {
        assert rows[..i + 1][..i] == rows[..i];
        ParseRow(rows[i]);
      }
      assert rows[..|rows|] == rows;
    }

    /** `parse_data` of the Canadian scraper: find the first table and its body, then walk the rows. */
    method ParseCanadian(doc: Document) returns (ok: bool)
      modifies this, logger
      ensures var p := CanadianParse(doc, old(data));
        ok == p.ok && data == old(data) + p.added && logger.entries == old(logger.entries) + p.logged
    {
      if doc == [] {
        logger.Write(NoTable);
        return false;
      }
      var table := doc[0];
      if table.body.None? {
        logger.Write(NoTableBody);
        return false;
      }
      WalkRows(table.body.value);
      ok := |data| > 0;
    }

    /** `parse_data`, by class: the Canadian row walk, or a stub that logs and fails. */
    method ParseData(html: string, parseHtml: string -> Document) returns (ok: bool)
      modifies this, logger
      ensures var p := ParseSpec(variant, parseHtml(html), old(data));
        ok == p.ok && data == old(data) + p.added && logger.entries == old(logger.entries) + p.logged
    {
      match variant
      case CanadianScraper =>
        ok := ParseCanadian(parseHtml(html));
      case MexicanScraper =>
        logger.Write(NotImplemented(MEXICO));
        ok := false;
      case ChineseScraper =>
        logger.Write(NotImplemented(CHINA));
        ok := false;
    }

    /** `scrape`: the scraper's whole list when a non-empty page parsed, an empty list otherwise. */
    method Scrape(outcome: HttpOutcome, parseHtml: string -> Document) returns (result: seq<TariffRecord>)
      modifies this, logger
      ensures var s := ScrapeSpec(variant, config.country, outcome, parseHtml, old(data));
        result == s.result && data == s.data && logger.entries == old(logger.entries) + s.logged
    {
      var page := FetchPage(outcome);
      result := [];
      if page.Some? && page.value != "" {
        var ok := ParseData(page.value, parseHtml);
        if ok {
          result := data;
        }
      }
    }
  }

  /** The table `create_scraper` looks the country up in. */
  const Registry: map<Country, Variant> :=
    map[CANADA := CanadianScraper, MEXICO := MexicanScraper, CHINA := ChineseScraper]

  /** The `ValueError` raised for a country the registry lacks. */
  datatype FactoryError = NoScraperFor(country: Country)

  /** The lookup `create_scraper` performs before constructing the scraper. */
  function Lookup(country: Country): Result<Variant, FactoryError> {
    if country in Registry then Success(Registry[country]) else Failure(NoScraperFor(country))
  }

  /**
   * The registry covers the whole closed set of countries, each with its own
   * class, so the factory's error is never raised.
   */
  lemma RegistryTotal(country: Country)
    ensures Lookup(country).Success?
    ensures Lookup(country).value == CanadianScraper <==> country == CANADA
    ensures Lookup(country).value == MexicanScraper <==> country == MEXICO
    ensures Lookup(country).value == ChineseScraper <==> country == CHINA
  {
  }

  /** `create_scraper`: a new scraper of the class registered for the configured country, or the lookup error. */
  method CreateScraper(config: ScraperConfig, logger: Logger) returns (r: Result<Scraper, FactoryError>)
    ensures r.Success? <==> Lookup(config.country).Success?
    ensures r.Failure? ==> r.error == NoScraperFor(config.country)
    ensures r.Success? ==>
      && fresh(r.value) && r.value.variant == Lookup(config.country).value
      && r.value.config == config && r.value.logger == logger && r.value.data == []
  {
    match Lookup(config.country)
    case Failure(e) =>
      r := Failure(e);
    case Success(v) =>
      var s := new Scraper(v, config, logger);
      r := Success(s);
  }
}
