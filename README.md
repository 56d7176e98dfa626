# Scraping orchestration of the price tracker, in Dafny

This project models the part of the price tracker that scrapes retailer websites for one product and
records what it finds. The model follows `server/src/scrapers/base.js` (the `BaseScraper` class) and
`server/src/services/scraperService.js` (`loadScrapers`, `runScrapers`, `runScheduledScraping`).

- `scrape_types.dfy`, module `ScrapeTypes`: retailers and products as the scrapers read them, the
  `{url, price}` result, and `Reply`, the three things an awaited foreign call can do: resolve to a
  value, resolve to null/undefined, or reject.
- `extractor_key.dfy`, module `ExtractorKey`: the lookup key
  `nombre.toLowerCase().replace(/[^a-z0-9]/g, '')`. `Lower` and `StripNonKey` model the two calls.
  `Key` computes the same key one character at a time, and `KeyIsLowerThenStrip` proves the two
  equal.
- `price_tables.dfy`, module `PriceTables`: the tables `producto_supermercado` and `preciohistoricos`
  as maps from their unique keys to rows. It holds the two `INSERT ... ON DUPLICATE KEY UPDATE`
  statements as functions, and a `Database` class whose two methods run them.
- `base_scraper.dfy`, module `BaseScraper`: the class `Scraper` with its fields `supermercadoId`,
  `nombre`, `browser` and `page`, and its methods `Initialize`, `Close`, `ScrapProduct`,
  `SaveAssociation` and `SavePriceHistory`. `SearchProduct` and `ExtractPrice` are abstract in the
  source, so the model takes what they resolve to as an input. A ghost field `calls` records, in
  order, the calls to `initialize`, `searchProduct`, `extractPrice`, `saveAssociation`,
  `savePriceHistory` and `close`. The call to `scrapProduct` itself is not recorded; its effect is
  the calls it makes. The ordering properties are stated over that record.
- `scraper_service.dfy`, module `ScraperService`: resolving retailers to scraper modules
  (`LoadScrapers`), the per-scraper loop of `runScrapers` (`RunScraper` for one pass, `ScrapeAll` for
  the loop), `RunScrapers` and `RunScheduledScraping`. Module `WidgetRun` is a worked run with three
  retailers.

Each imperative method is proved against a specification function: `ScrapeResult`, `ScrapeCalls`
and `ScrapeWrites` for `scrapProduct`; `EntryOf`, `CallsOf`, `BrowserAfter` and `TablesAfterAttempt`
for one pass of the loop; `ResultsOf`, `TablesAfterRun` and `ReportOf` for `runScrapers`;
`ScheduledReports` and `ScheduledTables` for `runScheduledScraping`. The lemmas state what the source
promises about those functions.

The inputs from outside are parameters. For every (product id, retailer id) pair, an `Attempt` value
says:
- how far `initialize` gets;
- what `searchProduct` and `extractPrice` resolve to;
- whether each of the two queries is rejected;
- how the first and second `browser.close()` reject, if they do.

The results of `SELECT * FROM supermercados` and `SELECT * FROM productos` are parameters too. A
failed query is `None`. `NOW()` and `CURDATE()` are the parameters `now` and `today`. The modules
that `require` can load form a `Registry`, a map from lookup key to scraper module.

Prices are integers (cents). The rule that a price of 0 is falsy, so that `scrapProduct` returns null
for it, is kept.

Where the code behaves differently from what a reader of its design might expect, the model follows
the code:
- Both writes happen inside `scrapProduct`, so they come before `close()`. `SavesPrecedeClose`
  proves this order.
- A rejection from `searchProduct` or `extractPrice` is caught inside `scrapProduct`, which returns
  null. So a timeout reports `'No se encontró información'`, the same as "not found"; there is no
  separate extraction-failure tag. `WidgetReport` shows this.
- `initialize` and `scrapProduct` catch everything. The only rejection that reaches the `catch` of
  the loop is the first `close()`. When a url and a price were found, its `Error: ...` entry comes
  after both writes have been made (`RunRecordsRetrievedPrice`); otherwise nothing was written.
- When no scraper is loaded, `runScrapers` resolves to
  `{success: false, message: 'No se encontraron scrapers disponibles'}`, not to an empty result map
  (`NothingLoadedNothingWritten`).
- Sometimes `initialize` launches the browser and then fails at `newPage`, `setUserAgent` or
  `setViewport`. It then returns false with `this.browser` set. The loop moves on without calling
  `close`, so that browser is never closed (`FailedInitLeavesBrowserOpen`).
- `results` is keyed by `nombre`. Two retailers with the same name share one entry, and the later
  one wins (`ResultsOf`, `ResultsEntry`).
- Scrapers run one after another, awaited in sequence. There is no concurrency limit, timeout or
  cancellation.
- The history table keeps one row per (product, retailer, date). That relies on a unique key over
  `(producto_id, supermercado_id, fecha)`, and the association table likewise relies on a unique key
  over `(producto_id, supermercado_id)`. Neither key is declared in these files; the model assumes
  both, as the `ON DUPLICATE KEY UPDATE` statements do.

## Model

| member | source | states |
|---|---|---|
| `ExtractorKey.KeyIsLowerThenStrip` | server/src/services/scraperService.js:15 | the key, computed character by character, is the whole name lower-cased and then stripped of every character outside [a-z0-9] |
| `ExtractorKey.KeyIsKeyString` | server/src/services/scraperService.js:15 | every key holds only characters in [a-z0-9] |
| `ExtractorKey.Key` | server/src/services/scraperService.js:15 | the key is never longer than the name; `KeyIsLowerThenStrip` gives its exact value |
| `ExtractorKey.LowerChar` | server/src/services/scraperService.js:15 | `toLowerCase` leaves a lower-case ASCII letter or a digit as it is |
| `ExtractorKey.Lower` | server/src/services/scraperService.js:15 | `toLowerCase` never shortens a string and leaves a string of [a-z0-9] unchanged |
| `ExtractorKey.StripNonKey` | server/src/services/scraperService.js:15 | the regex replace leaves only [a-z0-9] characters, never lengthens the string, and leaves a string of [a-z0-9] unchanged |
| `ExtractorKey.StripKeepsKeyChars` | server/src/services/scraperService.js:15 | the regex replace keeps every [a-z0-9] character of its input, as many times as it occurs |
| `ExtractorKey.KeyFixedPoint` | server/src/services/scraperService.js:15 | a name is its own key if and only if it is made of [a-z0-9] only |
| `ExtractorKey.KeyIdempotent` | server/src/services/scraperService.js:15 | normalising a key again leaves it unchanged |
| `ExtractorKey.KeyIgnoresCase` | server/src/services/scraperService.js:15 | a name and its lower-cased form have the same key |
| `ExtractorKey.KeyConcat` | server/src/services/scraperService.js:15 | the key of a concatenation is the concatenation of the keys (character-wise filtering) |
| `PriceTables.UpsertAssociation` | server/src/scrapers/base.js:86-95 | afterwards there is exactly one row for (product, retailer), holding the new price, url and `updatedAt`; `createdAt` is kept on update and is NOW() on insert; every other row is unchanged |
| `PriceTables.UpsertAssociationCount` | server/src/scrapers/base.js:86-95 | the association upsert adds a row only when the (product, retailer) pair had none |
| `PriceTables.UpsertHistory` | server/src/scrapers/base.js:107-115 | afterwards there is exactly one row for (product, retailer, today), holding the new price; `createdAt` is kept on update; every other row, including other dates', is unchanged |
| `PriceTables.UpsertHistoryCount` | server/src/scrapers/base.js:107-115 | the history upsert adds a row only for a date not yet recorded |
| `PriceTables.Record` | server/src/scrapers/base.js:70-74 | each of the two writes puts the found price (and, for the association, the url) under its key unless its own query fails; a failed write leaves its table unchanged and does not stop the other |
| `PriceTables.RecordSameDayRerun` | server/src/scrapers/base.js:70-74 | recording twice on one date adds no row to either table; the second recording overwrites price, url and `updatedAt` and keeps `createdAt` |
| `PriceTables.RecordNextDay` | server/src/scrapers/base.js:105-123 | recording on another date adds that date's history row and leaves the earlier date's price as it was |
| `PriceTables.RecordWritesAreIndependent` | server/src/scrapers/base.js:84-123 | whether the association write fails has no effect on the history table, and the other way round |
| `PriceTables.Database.UpsertAssociationRow` | server/src/scrapers/base.js:86-95 | a rejected query leaves both tables unchanged; otherwise the association table becomes the upsert and the history table is untouched |
| `PriceTables.Database.UpsertHistoryRow` | server/src/scrapers/base.js:107-115 | a rejected query leaves both tables unchanged; otherwise the history table becomes the upsert and the association table is untouched |
| `BaseScraper.SearchTerm` | server/src/scrapers/base.js:51-52 | the search term is the alternate search name when it is present and non-empty, and the product name otherwise |
| `BaseScraper.ScrapeResult` | server/src/scrapers/base.js:55-81 | `scrapProduct` yields a result if and only if the search resolved to a non-empty url and the extraction to a non-zero price, and the result is exactly that `{url, price}`; a rejection yields null |
| `BaseScraper.ScrapeCalls` | server/src/scrapers/base.js:55-77 | the search comes first with the chosen term; `extractPrice` is called if and only if the url is truthy; both saves are made if and only if there is a result, association before history |
| `BaseScraper.NoResultNoWrites` | server/src/scrapers/base.js:58-68 | when the url or the price is falsy or rejected, no table is written |
| `BaseScraper.FoundPriceIsRecorded` | server/src/scrapers/base.js:70-77 | a found price is written to each table unless that table's own write fails; a failed write leaves its table unchanged without stopping the other |
| `BaseScraper.Scraper.constructor` | server/src/scrapers/base.js:5-10 | a new scraper holds its retailer id and name, and has no browser and no page |
| `BaseScraper.Scraper.Initialize` | server/src/scrapers/base.js:12-30 | returns true exactly when all four steps resolve; `browser` is set as soon as the launch resolves, and `page` as soon as `newPage` resolves, even when a later step fails |
| `BaseScraper.Scraper.Close` | server/src/scrapers/base.js:32-37 | with no browser it does nothing; otherwise it closes the browser or passes on the rejection of `browser.close()` |
| `BaseScraper.Scraper.SearchProduct` | server/src/scrapers/base.js:40-42 | the subclass search is called with the given term and its reply is passed on unchanged |
| `BaseScraper.Scraper.ExtractPrice` | server/src/scrapers/base.js:44-46 | the subclass price reader is called and its reply is passed on unchanged |
| `BaseScraper.Scraper.SaveAssociation` | server/src/scrapers/base.js:84-103 | returns false exactly when the query is rejected, and then leaves the tables unchanged; otherwise it performs the association upsert under this scraper's retailer |
| `BaseScraper.Scraper.SavePriceHistory` | server/src/scrapers/base.js:105-123 | returns false exactly when the query is rejected, and then leaves the tables unchanged; otherwise it performs the history upsert for today under this scraper's retailer |
| `BaseScraper.Scraper.ScrapProduct` | server/src/scrapers/base.js:48-82 | resolves to `ScrapeResult`, makes the calls `ScrapeCalls` and writes `ScrapeWrites`; the saves' return values do not affect the result |
| `ScraperService.Resolve` | server/src/services/scraperService.js:12-26 | the loaded retailers are at most the queried ones, and each has a registered module under its key |
| `ScraperService.Loaded` | server/src/services/scraperService.js:7-31 | a failed retailer query loads nothing; otherwise at most the queried retailers are loaded |
| `ScraperService.LoadedMembership` | server/src/services/scraperService.js:7-31 | a retailer is loaded if and only if the retailer query succeeded, listed it, and its key names a module |
| `ScraperService.ResolveMembership` | server/src/services/scraperService.js:12-26 | a retailer is loaded if and only if it is queried and its key has a module; the others are skipped silently |
| `ScraperService.ResolveConcat` | server/src/services/scraperService.js:12-26 | resolution keeps the query order: resolving a concatenation concatenates the resolutions |
| `ScraperService.ResolveAllBound` | server/src/services/scraperService.js:12-26 | when every retailer has a module, all are loaded, in query order |
| `ScraperService.LoadOne` | server/src/services/scraperService.js:13-25 | one iteration appends a new, unused instance of the module under the retailer's key when there is one, keeps the earlier scrapers, and otherwise adds nothing |
| `ScraperService.LoadScrapers` | server/src/services/scraperService.js:4-33 | one new, distinct, unused scraper per resolved retailer, in query order, made from the module under its key; a failed retailer query gives none |
| `ScraperService.EntryOf` | server/src/services/scraperService.js:56-76 | an init failure gives the 'No se pudo inicializar el navegador' entry; a rejected first close gives `Error: <message>`; otherwise a missing url or price gives 'No se encontró información'; the entry is a success if and only if init succeeded, the first close did not reject and url and price were found, and it then carries that url and price |
| `ScraperService.CloseCount` | server/src/services/scraperService.js:56-83 | `close` is called never after a failed init, once after a successful one, and twice only when the first call rejected |
| `ScraperService.SavesPrecedeClose` | server/src/services/scraperService.js:64-67 | both writes come before every `close`, and they happen if and only if init succeeded and a url and a price were found |
| `ScraperService.FailedInitLeavesBrowserOpen` | server/src/services/scraperService.js:56-61 | a browser launched by an `initialize` that then fails stays open, and `close` is never called for it |
| `ScraperService.ReportOf` | server/src/services/scraperService.js:44-47 | the report is the 'No se encontraron scrapers disponibles' failure exactly when no scraper is loaded; otherwise its results have exactly one key per loaded retailer name |
| `ScraperService.RunScraper` | server/src/services/scraperService.js:54-84 | one pass of the loop gives `EntryOf` of its attempt, leaves the scraper with `CallsOf` and `BrowserAfter`, and writes `TablesAfterAttempt` |
| `ScraperService.ResultsKeys` | server/src/services/scraperService.js:53-85 | every processed scraper leaves an entry under its name, and there is no other entry |
| `ScraperService.ResultsEntry` | server/src/services/scraperService.js:53-85 | a scraper's entry depends on its own attempt alone, whatever the earlier scrapers did, unless a later scraper has the same name |
| `ScraperService.AttemptKeepsOtherRows` | server/src/services/scraperService.js:54-84 | one pass writes no row of another product or another retailer, and no history row of another date |
| `ScraperService.RunKeepsOtherAssociations` | server/src/services/scraperService.js:53-85 | a run for one product leaves every association row of other products and of unloaded retailers unchanged |
| `ScraperService.RunKeepsOtherHistory` | server/src/services/scraperService.js:53-85 | a run leaves every history row of other products, of unloaded retailers and of other dates unchanged |
| `ScraperService.RunRecordsRetrievedPrice` | server/src/services/scraperService.js:53-85 | every retrieved price is in both tables after the run unless its own write failed, even when that scraper's entry reports a close error |
| `ScraperService.NothingLoadedNothingWritten` | server/src/services/scraperService.js:44-47 | with a failed retailer query or no module for any retailer, the report is the 'No se encontraron scrapers disponibles' failure and no table changes |
| `ScraperService.ScrapeAll` | server/src/services/scraperService.js:50-85 | the loop processes every scraper in order; `results` is `ResultsOf`, the tables are `TablesAfterRun`, and every scraper ends in its `Finished` state |
| `ScraperService.RunScrapers` | server/src/services/scraperService.js:36-92 | loads the scrapers and reports `ReportOf` them, writing `TablesAfterRun`; with none loaded it runs nothing |
| `ScraperService.ScheduledKeepsUnlistedProducts` | server/src/services/scraperService.js:100-109 | the scheduled run writes no association row of a product that is not in the product list |
| `ScraperService.ScheduleOne` | server/src/services/scraperService.js:103-105 | one iteration runs `runScrapers` for the product's id, name and search name: its report and writes are those of that product, and every scraper it ran searched with that product's term |
| `ScraperService.RunScheduledScraping` | server/src/services/scraperService.js:95-117 | runs `runScrapers` once per product, in query order; every scraper of a product's run was loaded for that product and searched with `nombre_busqueda || nombre` of that product; resolves to true unless the product query fails, in which case nothing is written |
| `WidgetRun.WidgetLoaded` | server/src/services/scraperService.js:12-26 | of retailers "A", "B", "C" with modules under "a" and "b", exactly A and B are loaded, in order |
| `WidgetRun.WidgetReport` | server/src/services/scraperService.js:53-87 | A reports its url and price; B, whose search rejects, reports 'No se encontró información'; C has no entry |
| `WidgetRun.WidgetTables` | server/src/scrapers/base.js:70-74 | only A gets rows; a same-day rerun at a new price overwrites A's association and its single history row, and keeps `createdAt` |

## Left out

- Browser automation: `puppeteer.launch`, `newPage`, `setUserAgent` and `setViewport` are foreign
  calls. The model keeps only which of these steps fails (`Launch`). The browser and the page are
  values with an open flag and two configuration flags.
- Retailer-specific `searchProduct` and `extractPrice`. Their results are inputs. The base class's
  own versions, which always reject, are not modelled, because every loaded module is assumed to be a
  subclass that overrides them.
- Dynamic `require` by constructed path. A registry map stands in for it. A module that exists but
  throws while loading or constructing looks the same as a missing one: the retailer is skipped.
- SQL, Sequelize and connection pooling. The tables are maps, and a rejected query is a boolean
  input. `NOW()` is one `now` parameter for a whole run rather than a fresh value for each
  statement.
- `CURDATE()` is one `today` parameter for a whole run. The source evaluates it in each history
  statement, so a run that crosses midnight writes some rows under the next date. The "no history
  row of another date" part of `RunKeepsOtherHistory` and `AttemptKeepsOtherRows` relies on the
  single date.
- Logging (`console.log`, `console.error`): no effect on the modelled state.
- JavaScript numbers: prices are integers. `NaN`, which is also falsy, is not modelled.
- ExtractorKey.Lower: `toLowerCase` is exact only for the characters that survive the filter:
  ASCII letters, KELVIN SIGN and LATIN CAPITAL LETTER I WITH DOT ABOVE. Every other character is
  kept as it is and then removed, which gives the same key.
- A retailer whose `nombre` is null. In the source `toLowerCase` throws for it and the retailer is
  skipped. A product whose `nombre` is null and that has no search name passes null on as the search
  term. The model's names are always strings.
- A first `close()` that rejects with null or undefined. Then reading `error.message` for the
  `Error: ...` entry throws a TypeError. That error escapes the loop to the `'Error general: ...'`
  branch of `runScrapers`. The remaining scrapers never run, the second `close` is skipped, and the
  results gathered so far are discarded. The model takes a close rejection to be its message, so
  the loop always completes. Per-scraper failure isolation therefore holds in the model only.
- A close rejection that is not an `Error`, such as a plain string, gives the entry
  `'Error: undefined'`. The model puts the rejection's message after `Error: `.
- The per-product `catch` of `runScheduledScraping`. `runScrapers` catches everything itself, so
  that `catch` is never reached.
- `initialize` and `scrapProduct` catching everything assumes that retailer subclasses override only
  `searchProduct` and `extractPrice`. A subclass that overrides one of the other methods is not
  modelled.
- Result keys that JavaScript objects treat specially, such as `__proto__`. `results` is a plain map.
- The order of the keys in `results`. A JavaScript object keeps the order of first insertion, and
  that order reaches the JSON response. The map model has no order.
- Concurrency, timeouts and cancellation: the code has none. It awaits every call in sequence.
