# TariffScraper, modelled in Dafny

TariffScraper downloads published tariff lists and collects them into one
dataset. A scraper fetches a country's page over HTTP. It parses the page's
table into records of tariff item, HS heading and description. A manager
appends each non-empty batch to a shared table, tagged with the country and
the scrape time. The table can be summarised on demand: entry counts,
distinct headings and items, and per-country averages.

The model covers five parts of that core. Each module is one concern:

- `Text` (text.dfy): the text extraction BeautifulSoup performs. This is
  `str.strip`, `str.join` and `get_text(sep, strip=True)` over a cell's text
  fragments.
- `Models` (models.dfy): the `Country` enumeration and `ScraperConfig`.
- `Html` (html.dfy) and `Canadian` (canadian.dfy): the Canadian row
  extractor. The parsed page is a value with tables, a body, rows, a header
  cell, data cells and list items. `parse_description` and the row walk of
  `parse_data` are pure functions over it.
- `Log` (log.dfy) and `Scrapers` (scrapers.dfy): the scraper object, its
  list of records and the `scrape` combinator. The three scraper classes are
  one class, told apart by a `variant` field. The factory is a lookup in a
  registry. The Canadian `parse_data` is a method with the source's row loop,
  proved against the pure row walk. The stub parsers for Mexico and China
  log and fail. Messages go to a shared `Logger` object as values.
- `Dataset` (dataset.dfy) and `Manager` (manager.dfy): the `TariffData`
  table, `get_statistics`, `TariffManager.scrape_country` and the guard and
  layout of `save_data`.

How the inputs are modelled:

- The network is an input: an `HttpOutcome`, which is either a status and
  text, or a transport failure.
- The HTML parser is an input: a function from page text to a `Document`.
- The clock is an input: `now` in `add_data`, and the `last_updated` time of
  `save_data`.
- Python integers are unbounded, and so are Dafny's. The averages pandas
  returns as floats are exact fractions (`Ratio`).

Behaviour worth noting:

- Text extraction strips each text node and drops the empty ones.
  Whitespace inside a node is kept. For example, a cell holding
  `"  Some   text  "` reads back as `"Some   text"`. Runs of whitespace are
  not collapsed.
- A row whose header cell holds only whitespace is still accepted, with an
  empty tariff item. No check requires the item to be non-empty.
- A table built only from empty batches has the `Country` and `Scrape_Date`
  columns but no record columns. Reading `HS Heading` then raises
  `KeyError`, so `get_statistics` fails on it and `save_data` returns False.
- `scrape.py` defines its own `Country` as a plain `Enum` and tags rows with
  `country.name` (upper case). The package's `StrEnum` has lower-case values.
  Both are modelled, and `ValueIsLowerName` relates them.

## Model

| member | source | states |
|---|---|---|
| Text.Strip | src/tariff_scraper/scrapers/canadian.py:29 | stripping never lengthens the text and leaves no whitespace at either end |
| Text.StripShape | src/tariff_scraper/scrapers/canadian.py:29 | the stripped text is empty exactly when the input is all whitespace; it is a contiguous piece of the input with only whitespace cut from either side |
| Text.StripPadding | src/tariff_scraper/scrapers/canadian.py:29 | whitespace added at either end does not change the stripped text |
| Text.StripIdempotent | src/tariff_scraper/scrapers/canadian.py:29 | stripping twice gives the same as stripping once |
| Text.JoinPart | src/tariff_scraper/scrapers/canadian.py:11 | each part of a join appears, unchanged, at its offset in the joined string |
| Text.JoinSeparator | src/tariff_scraper/scrapers/canadian.py:11 | the separator sits between every two consecutive parts of a join |
| Text.JoinLength | src/tariff_scraper/scrapers/canadian.py:11 | a join is as long as its parts plus one separator between each two |
| Text.PiecesTrimmed | src/tariff_scraper/scrapers/canadian.py:12 | every text node kept by `get_text(strip=True)` is non-empty and has no whitespace at either end |
| Text.GetTextEmpty | src/tariff_scraper/scrapers/canadian.py:12 | a cell's text is empty exactly when all of its text nodes are whitespace |
| Text.GetTextTrimmed | src/tariff_scraper/scrapers/canadian.py:12 | a cell's text never begins or ends with whitespace, whatever the separator |
| Text.GetTextSingle | src/tariff_scraper/scrapers/canadian.py:12 | a cell with a single text node reads back as that node stripped |
| Models.CountriesClosed | src/tariff_scraper/models.py:5-10 | every country is one of exactly three distinct members: CANADA, MEXICO, CHINA |
| Models.NameInjective | scrape.py:24-28 | different countries have different names, so the Country column identifies the country |
| Models.Lower | scrape.py:76 | lower-casing keeps the length and maps each upper-case ASCII letter to its lower-case one, leaving other characters alone |
| Models.ValueIsLowerName | src/tariff_scraper/models.py:5-10 | with `StrEnum` and `auto()` each member's value is its name in lower case |
| Models.StatisticsKey | scrape.py:76 | a per-country statistics key is the lower-cased name followed by `_statistics` |
| Models.StatisticsKeyOfCountry | scrape.py:76 | the key for a country is its `StrEnum` value followed by `_statistics` |
| Models.NewConfig | src/tariff_scraper/models.py:13-21 | a configuration holds exactly the url, country, language, encoding and headers it was given |
| Models.ConfigDefaults | src/tariff_scraper/models.py:20-21 | an omitted encoding is "utf-8" and omitted headers are absent |
| Canadian.DescriptionItem | src/tariff_scraper/scrapers/canadian.py:9-11 | with list items, the description holds each item's text in order, with "; " between every two |
| Canadian.DescriptionLength | src/tariff_scraper/scrapers/canadian.py:11 | with list items, the description is as long as the item texts plus one "; " between each two |
| Canadian.DescriptionWithoutListTrimmed | src/tariff_scraper/scrapers/canadian.py:12 | without list items, the description is the cell's text, with no whitespace at either end |
| Canadian.DescriptionExampleList | src/tariff_scraper/scrapers/canadian.py:8-12 | items "A" and "B" give "A; B" |
| Canadian.DescriptionExampleEmptyItem | src/tariff_scraper/scrapers/canadian.py:8-12 | a blank item stays as an empty entry: " " and "B" give "; B" |
| Canadian.DescriptionExampleFlat | src/tariff_scraper/scrapers/canadian.py:8-12 | a cell without items reads "  Some   text  " as "Some   text", keeping inner whitespace |
| Canadian.ClassifyRow | src/tariff_scraper/scrapers/canadian.py:28-43 | a row without a header cell is an error; a headed row with fewer than two data cells is skipped; every other row gives a record |
| Canadian.ExtraCellsIgnored | src/tariff_scraper/scrapers/canadian.py:30-38 | data cells after the second never change what a row gives |
| Canadian.EmptyTariffItemAccepted | src/tariff_scraper/scrapers/canadian.py:29-39 | a header cell of only whitespace still yields a record, with an empty tariff item |
| Canadian.PlainRow | src/tariff_scraper/scrapers/canadian.py:29-39 | a row of single-node cells without surrounding whitespace yields exactly their texts as item, heading and description |
| Canadian.ExtractRows | src/tariff_scraper/scrapers/canadian.py:27-43 | the row walk yields at most one record per row |
| Canadian.RowLog | src/tariff_scraper/scrapers/canadian.py:41-43 | everything the row walk logs is a row error |
| Canadian.RecordsTrimmed | src/tariff_scraper/scrapers/canadian.py:29-37 | every record's tariff item and heading have no whitespace at either end |
| Canadian.ExtractRowsAppend | src/tariff_scraper/scrapers/canadian.py:27-43 | the walk over two runs of rows is the walk over the first followed by the walk over the second, for records and for messages |
| Canadian.SkippedRowTransparent | src/tariff_scraper/scrapers/canadian.py:32-43 | a skipped or failed row does not stop the loop or change what later rows give |
| Canadian.RowAccounting | src/tariff_scraper/scrapers/canadian.py:27-43 | records plus logged errors never exceed the rows, and equal them exactly when no headed row lacks cells |
| Canadian.ExtractRowsSources | src/tariff_scraper/scrapers/canadian.py:27-39 | the k-th record is the one its row produces, and the rows records come from are in document order |
| Canadian.OnlyFirstTable | src/tariff_scraper/scrapers/canadian.py:16 | tables after the first are never read |
| Canadian.CanadianParseResult | src/tariff_scraper/scrapers/canadian.py:16-45 | parsing succeeds exactly when the first table and its body exist and the list is non-empty afterwards; a missing table or body adds nothing and logs one error |
| Canadian.ParseTwiceDuplicates | src/tariff_scraper/scrapers/canadian.py:35-45 | parsing the same page again on one scraper appends the same records a second time, and success is kept |
| Canadian.PriorRecordsMakeSuccess | src/tariff_scraper/scrapers/canadian.py:45 | a scraper that already holds records reports success even when the page adds none |
| Canadian.TwoRowExample | src/tariff_scraper/scrapers/canadian.py:14-45 | a page with two well-formed rows gives exactly their two records and logs nothing |
| Scrapers.FetchResult | src/tariff_scraper/scrapers/base.py:17-29 | the page text is returned exactly when the request completed with a status outside 400-599; a transport failure or an error status becomes None |
| Scrapers.Scraper.constructor | src/tariff_scraper/scrapers/base.py:13-15 | a new scraper keeps its configuration and starts with an empty list |
| Scrapers.Scraper.FetchPage | src/tariff_scraper/scrapers/base.py:17-29 | the fetch result as `FetchResult` gives it; a failure is logged once and never raised |
| Scrapers.Scraper.ParseRow | src/tariff_scraper/scrapers/canadian.py:28-43 | one loop pass appends the row's record when it gives one and logs a row error when the header cell is missing |
| Scrapers.Scraper.WalkRows | src/tariff_scraper/scrapers/canadian.py:27-43 | the row loop appends exactly the records of the pure row walk, in order, and logs exactly its messages |
| Scrapers.Scraper.ParseCanadian | src/tariff_scraper/scrapers/canadian.py:14-45 | a missing table or body is logged and fails; otherwise the rows are walked; the list, the log and the answer are as `CanadianParse` gives them |
| Scrapers.Scraper.ParseData | scrape.py:159-175 | the Canadian class parses; the Mexican and Chinese classes log "not implemented", add nothing and fail |
| Scrapers.Scraper.Scrape | src/tariff_scraper/scrapers/base.py:36-41 | `scrape` returns, keeps and logs exactly what `ScrapeSpec` says |
| Scrapers.ScrapeCases | src/tariff_scraper/scrapers/base.py:36-41 | no page or an empty page returns nothing without parsing; the result is either empty or the whole list; earlier records are never lost |
| Scrapers.ScrapeParseFailed | src/tariff_scraper/scrapers/base.py:39-41 | a failed parse returns an empty list even when the scraper holds records |
| Scrapers.StubsScrapeNothing | scrape.py:159-175 | the Mexican and Chinese scrapers return nothing and keep their list unchanged |
| Scrapers.FreshCanadianScrape | src/tariff_scraper/scrapers/base.py:36-41 | a fresh Canadian scraper returns exactly the records on a fetched non-empty page, and nothing otherwise |
| Scrapers.RegistryTotal | scrape.py:181-192 | the factory maps CANADA, MEXICO and CHINA each to its own class, and its error is unreachable |
| Scrapers.CreateScraper | scrape.py:181-192 | the factory returns a new scraper of the registered class with the given configuration and an empty list, or the lookup error |
| Dataset.Tag | scrape.py:50-54 | each row of a batch keeps its record's fields and carries the country's name and one shared time |
| Dataset.DistinctFacts | scrape.py:69-70 | `unique()` lists every value of a column once and nothing else, and there are `nunique()` of them, at most the column's length |
| Dataset.DistinctPrefix | scrape.py:74 | `unique()` keeps the order of first appearance: the distinct values of any leading part of a column come first, in the same order |
| Dataset.GroupSizesSum | scrape.py:68 | the group sizes of a column add up to its length |
| Dataset.MeanIsEntriesPerValue | scrape.py:79 | the mean group size is the entry count over the number of distinct values |
| Dataset.OfCountrySize | scrape.py:75 | a country's filtered rows are as many as its name occurs in the Country column |
| Dataset.TotalsAgree | scrape.py:66-71 | `total_entries` is the row count; `entries_by_country` covers each country present and sums to it; the distinct counts are at most the total and positive on a non-empty table |
| Dataset.CountryFiguresAgree | scrape.py:74-80 | a country's total equals its `entries_by_country` entry; it has between one heading and as many headings as entries; its average is entries over distinct headings |
| Dataset.OneCountryStatistics | scrape.py:68-80 | on a table of a single country, both per-country maps hold that country alone, over the whole table |
| Dataset.ThreeRowExample | scrape.py:61-82 | three Canadian rows under headings 01, 01, 02 give 3 entries, 2 headings, 3 items and an average of 3/2 |
| Dataset.TariffData.constructor | scrape.py:47-48 | a new dataset has no table |
| Dataset.TariffData.AddData | scrape.py:50-59 | the tagged batch is appended after all earlier rows, which stay as they were; the table grows by the batch size |
| Dataset.TariffData.GetStatistics | scrape.py:61-82 | statistics are refused exactly when there is no table (`ValueError`) or the table holds no rows (`KeyError` on `HS Heading`), and otherwise are computed from the rows |
| Manager.OnlyCanadaAddsData | scrape.py:202-211 | for Mexico and China the batch `scrape_country` obtains is always empty |
| Manager.CanadianBatch | scrape.py:202-211 | for Canada the batch is the records on the fetched non-empty page, and nothing otherwise |
| Manager.NoFactoryError | scrape.py:181-192 | `scrape_country` never logs a factory error, because the registry covers every country |
| Manager.SaveOutputs | scrape.py:217-245 | saving is refused, before anything is written, exactly when there is no table or its statistics fail; otherwise the JSON holds the statistics and every row, and the workbook is written |
| Manager.CountrySheetsPartition | scrape.py:240-245 | the workbook has `All_Data` with every row, then one `<COUNTRY>_Data` sheet per country present, and the country sheets together hold as many rows as the table |
| Manager.TariffManager.constructor | scrape.py:197-200 | a new manager starts with an empty dataset |
| Manager.TariffManager.ScrapeCountry | scrape.py:202-215 | success exactly when the scraper returned a non-empty batch, which is then appended, tagged; otherwise the dataset is unchanged; a factory error is logged and reported as failure |
| Manager.TariffManager.SaveData | scrape.py:217-252 | the outputs are those of `SaveOutputs`; the answer is whether they were written; "saved" or "save failed" is logged |
| Manager.TwoRowBatch | scrape.py:202-211 | scraping the two-row page for Canada with status 200 gives its two records |
| Manager.TwoRowStatistics | scrape.py:61-82 | those two records, tagged as Canadian, give 2 entries, all Canadian, 2 headings, 2 items and an average of 2/2 |
| Manager.TwoRowWorkbook | scrape.py:240-245 | their workbook has exactly the sheets `All_Data` and `CANADA_Data` |
| Manager.ScrapeTwoRowPage | scrape.py:202-211 | scraping the two-row page into an empty dataset succeeds and leaves exactly the two tagged records |
| Manager.CanadianScenario | scrape.py:197-252 | end to end: a new manager scrapes the two-row Canadian page, and then the statistics and the save both succeed, with sheets `All_Data` and `CANADA_Data` |

## Left out

- HTTP: `requests.get`, its headers and its 30-second timeout are not modelled. The request's outcome is an input, a status and text or a failure.
- HTML parsing: BeautifulSoup's parser is an input function from text to a parsed page. The page keeps only what the row walk reads: the tables, the first table's body, and each row's header cell, data cells and list items.
- Other exceptions raised while parsing: only `AttributeError` from a missing header cell is modelled, because it is the one the code catches per row.
- Logging: messages are values appended to a `Logger`, one value per message the code logs. Their wording, levels and handlers (utils/logging.py and the `basicConfig` in scrape.py) are not modelled.
- Dataset.ComputeStatistics: per-country figures are keyed by the country's name. The source keys them by `<name lower-cased>_statistics`, and `StatisticsKey` with `StatisticsKeyOfCountry` gives that key. The keys cannot collide, because names are distinct and upper-case.
- Dataset.ComputeStatistics: the order of keys in the dictionaries is not modelled. `entries_by_country` is a map, so pandas' sorted group order is not kept.
- Dataset.TariffData.GetStatistics: the two exceptions are failure values. `NoDataAvailable` stands for the `ValueError` and `MissingColumn` for the `KeyError`. Their messages are not modelled.
- Models.Lower: only ASCII letters are lowered. Python's `str.lower()` also lowers other letters, such as "Ä". The function is only applied to country names, which are ASCII.
- Manager.SaveOutputs: file writing, `CustomJSONEncoder`, the ISO-8601 rendering of times and the Excel format are not modelled. Only the refusals and the content of each output are. A failure while writing the files is not modelled.
- `TariffManager.__init__` creating the output directory is not modelled. It is file-system I/O.
- `main` and its example configuration are not modelled.
- The duplicate Canadian scraper in scrape.py (lines 117-157) is not modelled separately. It does the same as src/tariff_scraper/scrapers/canadian.py.
- utils/logging.py is not part of this model.
