/** The messages the scrapers write to the log, as values. */
module Log {
  import opened Models

  datatype Diagnostic =
    | FetchFailed(country: Country)     // fetch_page caught a request exception
    | NoTable                           // the page holds no table
    | NoTableBody                       // the first table has no tbody
    | RowError                          // a body row has no header cell
    | NotImplemented(country: Country)  // the stub parser for this country was called
    | ScrapeError(country: Country)     // scrape_country caught an exception
    | DataSaved                         // save_data wrote its files
    | SaveFailed                        // save_data caught an exception
  {
    /** Every message but the stubs' "not yet implemented" notice and the save report is logged at ERROR level. */
    predicate IsError() {
      !NotImplemented? && !DataSaved?
    }
  }

  /** The log every component writes to, in the order the messages were written. */
  class Logger {
    var entries: seq<Diagnostic>

    constructor ()
      ensures entries == []
    {
      entries := [];
    }

    method Write(d: Diagnostic)
      modifies this
      ensures entries == old(entries) + [d]
    {
      entries := entries + [d];
    }
  }
}
