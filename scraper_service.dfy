/** The scraping service: finds the scraper module of every retailer, runs every loaded scraper for
    one product, and runs that for every product. Everything is awaited in sequence. */
module ScraperService {
  import opened ScrapeTypes
  import opened ExtractorKey
  import opened PriceTables
  import opened BaseScraper

  /** The scraper modules that exist, by lookup key: what `require('../scrapers/<key>Scraper')` can load. */
  type Registry = map<string, Extractor>

  const NoScrapersMessage := "No se encontraron scrapers disponibles"
  const InitFailedMessage := "No se pudo inicializar el navegador"
  const NoInformationMessage := "No se encontró información"

  /** One value of the `results` dictionary: `{success: true, data}` or `{success: false, message}`. */
  datatype Entry = Succeeded(data: ScrapeData) | Unsuccessful(message: string)

  /** What `runScrapers` resolves to: `{success: false, message}` or `{success: true, results}`. */
  datatype RunReport = NoScrapers(message: string) | Ran(results: map<string, Entry>)

  /** What the outside world does while one scraper runs for one product: how far `initialize` gets,
      what the two extractor calls resolve to, whether each write is rejected, and how the first and
      the second `browser.close()` reject, if they do. */
  datatype Attempt = Attempt(launch: Launch, search: Reply<string>, extract: Reply<Price>,
                             associationFails: bool, historyFails: bool,
                             closeFailure: Option<string>, retryCloseFailure: Option<string>)

  /** The behaviour of the outside world for every (product, retailer) pair. */
  type World = (ProductId, RetailerId) -> Attempt

  // ---------------------------------------------------------------------------------------------
  // loadScrapers

  /** The retailers, in query order, whose key names a registered scraper module. */
  function Resolve(retailers: seq<Retailer>, registry: Registry): (bound: seq<Retailer>)
    ensures |bound| <= |retailers|
    ensures forall i :: 0 <= i < |bound| ==> Key(bound[i].nombre) in registry
  {
    if retailers == [] then []
    else
      var last := retailers[|retailers| - 1];
      Resolve(retailers[..|retailers| - 1], registry) + (if Key(last.nombre) in registry then [last] else [])
  }

  /** The retailers `loadScrapers` makes a scraper for; a failed retailer query gives none. */
  function Loaded(retailerQuery: Option<seq<Retailer>>, registry: Registry): (loaded: seq<Retailer>)
    ensures retailerQuery.None? ==> loaded == []
    ensures retailerQuery.Some? ==> |loaded| <= |retailerQuery.value|
  {
    match retailerQuery
    case None => []
    case Some(rows) => Resolve(rows, registry)
  }

  /** A retailer gets a scraper exactly when it is listed and its key is registered. */
  lemma {:induction false} ResolveMembership(retailers: seq<Retailer>, registry: Registry, r: Retailer)
    ensures r in Resolve(retailers, registry) <==> r in retailers && Key(r.nombre) in registry
  {
    if retailers != [] {
      var prefix := retailers[..|retailers| - 1];
      ResolveMembership(prefix, registry, r);
      assert retailers == prefix + [retailers[|retailers| - 1]];
    }
  }

  /** `loadScrapers` loads a retailer exactly when the retailer query succeeded, listed it, and its key
      names a registered module. */
  lemma LoadedMembership(retailerQuery: Option<seq<Retailer>>, registry: Registry, r: Retailer)
    ensures r in Loaded(retailerQuery, registry)
        <==> retailerQuery.Some? && r in retailerQuery.value && Key(r.nombre) in registry
  {
    if retailerQuery.Some? {
      ResolveMembership(retailerQuery.value, registry, r);
    }
  }

  /** Resolution keeps the query order: resolving a concatenation concatenates the resolutions. */
  lemma {:induction false} ResolveConcat(a: seq<Retailer>, b: seq<Retailer>, registry: Registry)
    ensures Resolve(a + b, registry) == Resolve(a, registry) + Resolve(b, registry)
  {
    if b == [] {
      assert a + b == a;
    } else {
      var prefix := b[..|b| - 1];
      assert (a + b)[..|a + b| - 1] == a + prefix;
      ResolveConcat(a, prefix, registry);
    }
  }

  /** When every retailer has a module, every retailer is loaded, in order. */
  lemma {:induction false} ResolveAllBound(retailers: seq<Retailer>, registry: Registry)
    requires forall i :: 0 <= i < |retailers| ==> Key(retailers[i].nombre) in registry
    ensures Resolve(retailers, registry) == retailers
  {
    if retailers != [] {
      var prefix := retailers[..|retailers| - 1];
      ResolveAllBound(prefix, registry);
      assert retailers == prefix + [retailers[|retailers| - 1]];
    }
  }

  /** The retailer each scraper object stands for. */
  function Retailers(scrapers: seq<Scraper>): (rs: seq<Retailer>)
    ensures |rs| == |scrapers|
  {
    seq(|scrapers|, i requires 0 <= i < |scrapers| => Retailer(scrapers[i].supermercadoId, scrapers[i].nombre))
  }

  predicate Distinct(scrapers: seq<Scraper>) {
    forall i, j :: 0 <= i < j < |scrapers| ==> scrapers[i] != scrapers[j]
  }

  /** Every scraper is an instance of the module registered under its retailer's key. */
  predicate FromRegistry(scrapers: seq<Scraper>, registry: Registry) {
    forall i :: 0 <= i < |scrapers| ==>
      Key(scrapers[i].nombre) in registry && scrapers[i].extractor == registry[Key(scrapers[i].nombre)]
  }

  /** A scraper as `new ScraperClass(id, nombre)` leaves it: no browser, no page, no calls. */
  ghost predicate Unused(s: Scraper)
    reads s
  {
    s.browser == None && s.page == None && s.calls == []
  }

  lemma ResolveStep(rows: seq<Retailer>, i: nat, registry: Registry)
    requires i < |rows|
    ensures Resolve(rows[..i + 1], registry)
         == Resolve(rows[..i], registry) + (if Key(rows[i].nombre) in registry then [rows[i]] else [])
  {
    assert rows[..i + 1][..i] == rows[..i];
  }

  lemma RetailersAppend(scrapers: seq<Scraper>, s: Scraper)
    ensures Retailers(scrapers + [s]) == Retailers(scrapers) + [Retailer(s.supermercadoId, s.nombre)]
  {
  }

  /** One iteration of the loading loop: `require` the module under the retailer's key and, when there
      is one, append a new instance of it. */
  method LoadOne(scrapers: seq<Scraper>, row: Retailer, registry: Registry) returns (next: seq<Scraper>)
    requires Distinct(scrapers) && FromRegistry(scrapers, registry)
    ensures Retailers(next) == Retailers(scrapers) + (if Key(row.nombre) in registry then [row] else [])
    ensures Distinct(next) && FromRegistry(next, registry)
    ensures |next| >= |scrapers| && forall j :: 0 <= j < |scrapers| ==> next[j] == scrapers[j]
    ensures forall j :: |scrapers| <= j < |next| ==> fresh(next[j]) && Unused(next[j])
  {
    next := scrapers;
    var scraperName := Key(row.nombre);
    if scraperName in registry {
      var scraper := new Scraper(registry[scraperName], row.id, row.nombre);
      RetailersAppend(scrapers, scraper);
      next := scrapers + [scraper];
    }
  }

  /** Makes one new scraper per retailer whose module is registered, in query order; a retailer without
      one is skipped, and a failed retailer query gives no scrapers. */
  method LoadScrapers(retailerQuery: Option<seq<Retailer>>, registry: Registry) returns (scrapers: seq<Scraper>)
    ensures Retailers(scrapers) == Loaded(retailerQuery, registry)
    ensures Distinct(scrapers)
    ensures forall i :: 0 <= i < |scrapers| ==> fresh(scrapers[i]) && Unused(scrapers[i])
    ensures FromRegistry(scrapers, registry)
  {
    scrapers := [];
    if retailerQuery.None? {
      return;
    }
    var rows := retailerQuery.value;
    for i := 0 to |rows|
      invariant Retailers(scrapers) == Resolve(rows[..i], registry)
      invariant Distinct(scrapers) && FromRegistry(scrapers, registry)
      invariant forall j :: 0 <= j < |scrapers| ==> fresh(scrapers[j]) && Unused(scrapers[j])
    {
      ResolveStep(rows, i, registry);
      var next := LoadOne(scrapers, rows[i], registry);
      scrapers := next;
    }
    assert rows[..|rows|] == rows;
  }

  // ---------------------------------------------------------------------------------------------
  // runScrapers: one scraper

  /** The entry one scraper leaves in `results`. The only rejection that reaches the loop's handler
      is that of the first `close()`, because `initialize` and `scrapProduct` catch their own. */
  function EntryOf(a: Attempt): (e: Entry)
    ensures a.launch != Launched ==> e == Unsuccessful(InitFailedMessage)
    ensures e.Succeeded? <==> a.launch == Launched && a.closeFailure.None? && UrlFound(a.search) && PriceFound(a.extract)
    ensures e.Succeeded? ==> e.data == ScrapeData(a.search.value, a.extract.value)
    ensures a.launch == Launched && a.closeFailure.Some? ==> e == Unsuccessful("Error: " + a.closeFailure.value)
    ensures (a.launch == Launched && a.closeFailure.None? && !(UrlFound(a.search) && PriceFound(a.extract)))
            ==> e == Unsuccessful(NoInformationMessage)
  {
    if a.launch != Launched then Unsuccessful(InitFailedMessage)
    else if a.closeFailure.Some? then Unsuccessful("Error: " + a.closeFailure.value)
    else match ScrapeResult(a.search, a.extract)
      case Some(data) => Succeeded(data)
      case None => Unsuccessful(NoInformationMessage)
  }

  /** The calls the loop makes on one scraper: `initialize`; then, if it succeeded, `scrapProduct`'s
      calls and `close`, and a second `close` in the handler when the first rejected. */
  function CallsOf(a: Attempt, term: string): seq<Call> {
    [InitializeCalled] +
    if a.launch != Launched then []
    else ScrapeCalls(term, a.search, a.extract) + [CloseCalled] + (if a.closeFailure.Some? then [CloseCalled] else [])
  }

  /** The browser field of a scraper after the loop is done with it. */
  function BrowserAfter(a: Attempt): Option<Browser> {
    match a.launch
    case LaunchFails => None
    case Launched =>
      if a.closeFailure.None? || a.retryCloseFailure.None? then Some(Browser(false)) else Some(Browser(true))
    case _ => Some(Browser(true))
  }

  /** The tables after the loop is done with one scraper: only `scrapProduct` writes. */
  function TablesAfterAttempt(t: Tables, productId: ProductId, retailerId: RetailerId, a: Attempt,
                              today: Date, now: Timestamp): Tables
  {
    if a.launch != Launched then t
    else ScrapeWrites(t, productId, retailerId, a.search, a.extract, a.associationFails, a.historyFails, today, now)
  }

  ghost predicate Finished(s: Scraper, a: Attempt, term: string)
    reads s
  {
    s.calls == CallsOf(a, term) && s.browser == BrowserAfter(a) && s.page == PageAfterInit(None, a.launch)
  }

  function CountOf(calls: seq<Call>, c: Call): nat {
    if calls == [] then 0 else CountOf(calls[..|calls| - 1], c) + (if calls[|calls| - 1] == c then 1 else 0)
  }

  lemma {:induction false} CountConcat(a: seq<Call>, b: seq<Call>, c: Call)
    ensures CountOf(a + b, c) == CountOf(a, c) + CountOf(b, c)
  {
    if b == [] {
      assert a + b == a;
    } else {
      assert (a + b)[..|a + b| - 1] == a + b[..|b| - 1];
      CountConcat(a, b[..|b| - 1], c);
    }
  }

  lemma {:induction false} CountAbsent(s: seq<Call>, c: Call)
    requires c !in s
    ensures CountOf(s, c) == 0
  {
    if s != [] {
      CountAbsent(s[..|s| - 1], c);
    }
  }

  /** `close` is never called after a failed `initialize`, once after a successful one, and a second
      time only when the first rejected. */
  lemma CloseCount(a: Attempt, term: string)
    ensures CountOf(CallsOf(a, term), CloseCalled) ==
            if a.launch != Launched then 0 else if a.closeFailure.None? then 1 else 2
  {
    var scrape := ScrapeCalls(term, a.search, a.extract);
    CountAbsent(scrape, CloseCalled);
    CountAbsent([InitializeCalled], CloseCalled);
    if a.launch == Launched {
      var closes := if a.closeFailure.Some? then [CloseCalled, CloseCalled] else [CloseCalled];
      assert CallsOf(a, term) == [InitializeCalled] + scrape + closes;
      CountConcat([InitializeCalled], scrape, CloseCalled);
      CountConcat([InitializeCalled] + scrape, closes, CloseCalled);
      if a.closeFailure.Some? {
        assert closes == [CloseCalled] + [CloseCalled];
        CountConcat([CloseCalled], [CloseCalled], CloseCalled);
      }
    }
  }

  /** Both writes happen inside `scrapProduct`, before the browser is closed, and only after a
      successful `initialize` that found a URL and a price. */
  lemma SavesPrecedeClose(a: Attempt, term: string)
    ensures var c := CallsOf(a, term);
            forall i, j :: 0 <= i < |c| && 0 <= j < |c| && c[j] == CloseCalled &&
                           (c[i] == SaveAssociationCalled || c[i] == SaveHistoryCalled)
                           ==> i < j
    ensures SaveAssociationCalled in CallsOf(a, term) <==> a.launch == Launched && UrlFound(a.search) && PriceFound(a.extract)
    ensures SaveHistoryCalled in CallsOf(a, term) <==> a.launch == Launched && UrlFound(a.search) && PriceFound(a.extract)
  {
    var c := CallsOf(a, term);
    var scrape := ScrapeCalls(term, a.search, a.extract);
    if a.launch == Launched {
      var closes := if a.closeFailure.Some? then [CloseCalled, CloseCalled] else [CloseCalled];
      assert c == [InitializeCalled] + scrape + closes;
      forall k | 0 <= k < |c|
        ensures c[k] == CloseCalled <==> k > |scrape|
      {
        if 1 <= k <= |scrape| {
          assert c[k] == scrape[k - 1] && scrape[k - 1] in scrape;
        }
      }
      assert SaveAssociationCalled in c <==> SaveAssociationCalled in scrape;
      assert SaveHistoryCalled in c <==> SaveHistoryCalled in scrape;
    }
  }

  /** A browser launched by an `initialize` that then fails is never closed: the loop moves on
      without calling `close`, so the browser stays open. */
  lemma FailedInitLeavesBrowserOpen(a: Attempt, term: string)
    requires a.launch != LaunchFails && a.launch != Launched
    ensures BrowserAfter(a) == Some(Browser(true))
    ensures CloseCalled !in CallsOf(a, term)
  {
  }

  // ---------------------------------------------------------------------------------------------
  // runScrapers: the loop

  /** The `results` dictionary after the loop has processed `scraped`, in order; a later scraper with
      the same `nombre` overwrites an earlier one's entry. */
  function ResultsOf(scraped: seq<Retailer>, productId: ProductId, world: World): map<string, Entry> {
    if scraped == [] then map[]
    else
      var last := scraped[|scraped| - 1];
      ResultsOf(scraped[..|scraped| - 1], productId, world)[last.nombre := EntryOf(world(productId, last.id))]
  }

  /** The tables after the loop has processed `scraped`, in order. */
  function TablesAfterRun(t: Tables, scraped: seq<Retailer>, productId: ProductId, world: World,
                          today: Date, now: Timestamp): Tables
  {
    if scraped == [] then t
    else
      var last := scraped[|scraped| - 1];
      TablesAfterAttempt(TablesAfterRun(t, scraped[..|scraped| - 1], productId, world, today, now),
                         productId, last.id, world(productId, last.id), today, now)
  }

  function ReportOf(loaded: seq<Retailer>, productId: ProductId, world: World): (report: RunReport)
    ensures report.NoScrapers? <==> loaded == []
    ensures report.NoScrapers? ==> report.message == NoScrapersMessage
    ensures report.Ran? ==> report.results.Keys == set r | r in loaded :: r.nombre
  {
    ResultsKeys(loaded, productId, world);
    if loaded == [] then NoScrapers(NoScrapersMessage) else Ran(ResultsOf(loaded, productId, world))
  }

  /** Every processed scraper leaves an entry under its retailer's name, and there is no other entry. */
  lemma {:induction false} ResultsKeys(scraped: seq<Retailer>, productId: ProductId, world: World)
    ensures ResultsOf(scraped, productId, world).Keys == set r | r in scraped :: r.nombre
  {
    if scraped != [] {
      var prefix := scraped[..|scraped| - 1];
      ResultsKeys(prefix, productId, world);
      assert scraped == prefix + [scraped[|scraped| - 1]];
    }
  }

  /** A scraper's entry is the outcome of its own attempt alone, whatever the others did, unless a
      later scraper has the same name. */
  lemma {:induction false} ResultsEntry(scraped: seq<Retailer>, productId: ProductId, world: World, i: nat)
    requires i < |scraped|
    requires forall j :: i < j < |scraped| ==> scraped[j].nombre != scraped[i].nombre
    ensures scraped[i].nombre in ResultsOf(scraped, productId, world)
    ensures ResultsOf(scraped, productId, world)[scraped[i].nombre] == EntryOf(world(productId, scraped[i].id))
  {
    if i < |scraped| - 1 {
      ResultsEntry(scraped[..|scraped| - 1], productId, world, i);
    }
  }

  /** One scraper's attempt changes no row of another product or another retailer, and no history row
      of another date. */
  lemma AttemptKeepsOtherRows(t: Tables, productId: ProductId, retailerId: RetailerId, a: Attempt,
                              today: Date, now: Timestamp, ak: AssocKey, hk: HistoryKey)
    requires ak != AssocKey(productId, retailerId)
    requires hk != HistoryKey(productId, retailerId, today)
    ensures SameAt(TablesAfterAttempt(t, productId, retailerId, a, today, now).associations, t.associations, ak)
    ensures SameAt(TablesAfterAttempt(t, productId, retailerId, a, today, now).history, t.history, hk)
  {
  }

  /** A run for one product changes no association row of another product or of a retailer it did not
      scrape. */
  lemma {:induction false} RunKeepsOtherAssociations(t: Tables, scraped: seq<Retailer>, productId: ProductId,
                                                     world: World, today: Date, now: Timestamp, k: AssocKey)
    requires k.productId != productId || forall i :: 0 <= i < |scraped| ==> scraped[i].id != k.retailerId
    ensures SameAt(TablesAfterRun(t, scraped, productId, world, today, now).associations, t.associations, k)
  {
    if scraped != [] {
      var prefix := scraped[..|scraped| - 1];
      var last := scraped[|scraped| - 1];
      RunKeepsOtherAssociations(t, prefix, productId, world, today, now, k);
      AttemptKeepsOtherRows(TablesAfterRun(t, prefix, productId, world, today, now), productId, last.id,
                            world(productId, last.id), today, now, k, HistoryKey(productId, last.id, today + 1));
    }
  }

  /** A run for one product changes no history row of another product, of a retailer it did not
      scrape, or of a date other than today: earlier days' prices are never rewritten. */
  lemma {:induction false} RunKeepsOtherHistory(t: Tables, scraped: seq<Retailer>, productId: ProductId,
                                                world: World, today: Date, now: Timestamp, k: HistoryKey)
    requires k.productId != productId || k.fecha != today ||
             forall i :: 0 <= i < |scraped| ==> scraped[i].id != k.retailerId
    ensures SameAt(TablesAfterRun(t, scraped, productId, world, today, now).history, t.history, k)
  {
    if scraped != [] {
      var prefix := scraped[..|scraped| - 1];
      var last := scraped[|scraped| - 1];
      RunKeepsOtherHistory(t, prefix, productId, world, today, now, k);
      AttemptKeepsOtherRows(TablesAfterRun(t, prefix, productId, world, today, now), productId, last.id,
                            world(productId, last.id), today, now, AssocKey(productId + 1, last.id), k);
    }
  }

  /** A price a scraper retrieved is in both tables after the run, under its retailer, unless that
      write was rejected; this holds even when the entry reports a `close` error, because the writes
      precede `close`. Retailer ids are the `supermercados` primary key, so they are distinct. */
  lemma {:induction false} RunRecordsRetrievedPrice(t: Tables, scraped: seq<Retailer>, productId: ProductId,
                                                    world: World, today: Date, now: Timestamp, i: nat)
    requires i < |scraped|
    requires forall j :: 0 <= j < |scraped| && j != i ==> scraped[j].id != scraped[i].id
    requires world(productId, scraped[i].id).launch == Launched
    requires UrlFound(world(productId, scraped[i].id).search) && PriceFound(world(productId, scraped[i].id).extract)
    ensures var a := world(productId, scraped[i].id);
            var r := TablesAfterRun(t, scraped, productId, world, today, now);
            var ak := AssocKey(productId, scraped[i].id);
            var hk := HistoryKey(productId, scraped[i].id, today);
            && (!a.associationFails ==> ak in r.associations && r.associations[ak].precio == a.extract.value
                                        && r.associations[ak].url == a.search.value)
            && (!a.historyFails ==> hk in r.history && r.history[hk].precio == a.extract.value)
  {
    var prefix := scraped[..|scraped| - 1];
    var last := scraped[|scraped| - 1];
    var a := world(productId, scraped[i].id);
    var before := TablesAfterRun(t, prefix, productId, world, today, now);
    if i == |scraped| - 1 {
      FoundPriceIsRecorded(before, productId, last.id, a.search, a.extract, a.associationFails, a.historyFails, today, now);
    } else {
      RunRecordsRetrievedPrice(t, prefix, productId, world, today, now, i);
      AttemptKeepsOtherRows(before, productId, last.id, world(productId, last.id), today, now,
                            AssocKey(productId, scraped[i].id), HistoryKey(productId, scraped[i].id, today));
    }
  }

  /** A retailer query that fails, or retailers none of which has a module, make `runScrapers` report
      that no scraper is available, and nothing is written. */
  lemma NothingLoadedNothingWritten(t: Tables, retailerQuery: Option<seq<Retailer>>, registry: Registry,
                                    productId: ProductId, world: World, today: Date, now: Timestamp)
    requires retailerQuery.Some? ==> forall r :: r in retailerQuery.value ==> Key(r.nombre) !in registry
    ensures ReportOf(Loaded(retailerQuery, registry), productId, world) == NoScrapers(NoScrapersMessage)
    ensures TablesAfterRun(t, Loaded(retailerQuery, registry), productId, world, today, now) == t
  {
    var loaded := Loaded(retailerQuery, registry);
    if loaded != [] {
      ResolveMembership(retailerQuery.value, registry, loaded[0]);
    }
  }

  /** One pass of the loop body: `initialize`, then `scrapProduct` and `close`, the entry for the
      scraper, and in the handler a second `close` whose rejection is swallowed. */
  method RunScraper(scraper: Scraper, db: Database, productId: ProductId, productName: string,
                    productSearchName: Option<string>, attempt: Attempt, today: Date, now: Timestamp)
    returns (entry: Entry)
    requires Unused(scraper)
    modifies scraper, db
    ensures entry == EntryOf(attempt)
    ensures Finished(scraper, attempt, SearchTerm(productName, productSearchName))
    ensures db.Snapshot() == TablesAfterAttempt(old(db.Snapshot()), productId, scraper.supermercadoId, attempt, today, now)
  {
    var initialized := scraper.Initialize(attempt.launch);
    if !initialized {
      return Unsuccessful(InitFailedMessage);
    }
    var result := scraper.ScrapProduct(db, productId, productName, productSearchName, attempt.search, attempt.extract,
                                       attempt.associationFails, attempt.historyFails, today, now);
    var closeError := scraper.Close(attempt.closeFailure);
    if closeError.Some? {
      entry := Unsuccessful("Error: " + closeError.value);
      var _ := scraper.Close(attempt.retryCloseFailure);
      return;
    }
    if result.Some? {
      entry := Succeeded(result.value);
    } else {
      entry := Unsuccessful(NoInformationMessage);
    }
  }

  /** How one more pass of the loop extends the results and the tables. */
  lemma RunStep(t: Tables, scraped: seq<Retailer>, i: nat, productId: ProductId, world: World,
                today: Date, now: Timestamp)
    requires i < |scraped|
    ensures ResultsOf(scraped[..i + 1], productId, world)
         == ResultsOf(scraped[..i], productId, world)[scraped[i].nombre := EntryOf(world(productId, scraped[i].id))]
    ensures TablesAfterRun(t, scraped[..i + 1], productId, world, today, now)
         == TablesAfterAttempt(TablesAfterRun(t, scraped[..i], productId, world, today, now),
                               productId, scraped[i].id, world(productId, scraped[i].id), today, now)
  {
    assert scraped[..i + 1][..i] == scraped[..i];
  }

  /** The `for (const scraper of scrapers)` loop of `runScrapers`: runs every scraper for one product,
      in order, recording one entry per scraper under its retailer's name. No scraper's failure stops
      the loop. */
  method ScrapeAll(db: Database, scrapers: seq<Scraper>, productId: ProductId, productName: string,
                   productSearchName: Option<string>, world: World, today: Date, now: Timestamp)
    returns (results: map<string, Entry>)
    requires Distinct(scrapers)
    requires forall i :: 0 <= i < |scrapers| ==> Unused(scrapers[i])
    modifies db, set i | 0 <= i < |scrapers| :: scrapers[i]
    ensures results == ResultsOf(Retailers(scrapers), productId, world)
    ensures db.Snapshot() == TablesAfterRun(old(db.Snapshot()), Retailers(scrapers), productId, world, today, now)
    ensures forall i :: 0 <= i < |scrapers| ==>
              Finished(scrapers[i], world(productId, scrapers[i].supermercadoId), SearchTerm(productName, productSearchName))
  {
    ghost var scraped := Retailers(scrapers);
    ghost var term := SearchTerm(productName, productSearchName);
    results := map[];
    for i := 0 to |scrapers|
      invariant results == ResultsOf(scraped[..i], productId, world)
      invariant db.Snapshot() == TablesAfterRun(old(db.Snapshot()), scraped[..i], productId, world, today, now)
      invariant forall j :: 0 <= j < i ==> Finished(scrapers[j], world(productId, scrapers[j].supermercadoId), term)
      invariant forall j :: i <= j < |scrapers| ==> Unused(scrapers[j])
    {
      var scraper := scrapers[i];
      assert scraped[i] == Retailer(scraper.supermercadoId, scraper.nombre);
      RunStep(old(db.Snapshot()), scraped, i, productId, world, today, now);
      var entry := RunScraper(scraper, db, productId, productName, productSearchName,
                              world(productId, scraper.supermercadoId), today, now);
      results := results[scraper.nombre := entry];
    }
    assert scraped[..|scrapers|] == scraped;
  }

  /** Loads the scrapers and runs them all for one product. With no scraper loaded it reports so and
      runs nothing. */
  method RunScrapers(db: Database, retailerQuery: Option<seq<Retailer>>, registry: Registry,
                     productId: ProductId, productName: string, productSearchName: Option<string>,
                     world: World, today: Date, now: Timestamp)
    returns (report: RunReport, ghost scrapers: seq<Scraper>)
    modifies db
    ensures Retailers(scrapers) == Loaded(retailerQuery, registry)
    ensures report == ReportOf(Loaded(retailerQuery, registry), productId, world)
    ensures db.Snapshot() == TablesAfterRun(old(db.Snapshot()), Loaded(retailerQuery, registry), productId, world, today, now)
    ensures forall i :: 0 <= i < |scrapers| ==>
              fresh(scrapers[i]) &&
              Finished(scrapers[i], world(productId, scrapers[i].supermercadoId), SearchTerm(productName, productSearchName))
  {
    var loaded := LoadScrapers(retailerQuery, registry);
    scrapers := loaded;
    if |loaded| == 0 {
      report := NoScrapers(NoScrapersMessage);
      return;
    }
    var results := ScrapeAll(db, loaded, productId, productName, productSearchName, world, today, now);
    report := Ran(results);
  }

  // ---------------------------------------------------------------------------------------------
  // runScheduledScraping

  /** The reports of `runScrapers` for each product, in query order. */
  function ScheduledReports(products: seq<Product>, retailerQuery: ProductId -> Option<seq<Retailer>>,
                            registry: Registry, world: World): (reports: seq<RunReport>)
    ensures |reports| == |products|
  {
    if products == [] then []
    else
      var last := products[|products| - 1];
      ScheduledReports(products[..|products| - 1], retailerQuery, registry, world)
        + [ReportOf(Loaded(retailerQuery(last.id), registry), last.id, world)]
  }

  /** The tables after `runScrapers` has run for each product, in query order. */
  function ScheduledTables(t: Tables, products: seq<Product>, retailerQuery: ProductId -> Option<seq<Retailer>>,
                           registry: Registry, world: World, today: Date, now: Timestamp): Tables
  {
    if products == [] then t
    else
      var last := products[|products| - 1];
      TablesAfterRun(ScheduledTables(t, products[..|products| - 1], retailerQuery, registry, world, today, now),
                     Loaded(retailerQuery(last.id), registry), last.id, world, today, now)
  }

  /** The scheduled run writes no association row of a product that is not in the product list. */
  lemma {:induction false} ScheduledKeepsUnlistedProducts(t: Tables, products: seq<Product>,
                                                          retailerQuery: ProductId -> Option<seq<Retailer>>,
                                                          registry: Registry, world: World, today: Date,
                                                          now: Timestamp, k: AssocKey)
    requires forall i :: 0 <= i < |products| ==> products[i].id != k.productId
    ensures SameAt(ScheduledTables(t, products, retailerQuery, registry, world, today, now).associations, t.associations, k)
  {
    if products != [] {
      var prefix := products[..|products| - 1];
      var last := products[|products| - 1];
      ScheduledKeepsUnlistedProducts(t, prefix, retailerQuery, registry, world, today, now, k);
      RunKeepsOtherAssociations(ScheduledTables(t, prefix, retailerQuery, registry, world, today, now),
                                Loaded(retailerQuery(last.id), registry), last.id, world, today, now, k);
    }
  }

  lemma ScheduledStep(t: Tables, products: seq<Product>, i: nat, retailerQuery: ProductId -> Option<seq<Retailer>>,
                      registry: Registry, world: World, today: Date, now: Timestamp)
    requires i < |products|
    ensures ScheduledReports(products[..i + 1], retailerQuery, registry, world)
         == ScheduledReports(products[..i], retailerQuery, registry, world)
            + [ReportOf(Loaded(retailerQuery(products[i].id), registry), products[i].id, world)]
    ensures ScheduledTables(t, products[..i + 1], retailerQuery, registry, world, today, now)
         == TablesAfterRun(ScheduledTables(t, products[..i], retailerQuery, registry, world, today, now),
                           Loaded(retailerQuery(products[i].id), registry), products[i].id, world, today, now)
  {
    assert products[..i + 1][..i] == products[..i];
  }

  /** Every scraper of the run for `products[k]` was loaded for that product and ended in the state
      its attempt at that product leaves, having searched with that product's term. */
  ghost predicate RanFor(runs: seq<seq<Scraper>>, products: seq<Product>,
                         retailerQuery: ProductId -> Option<seq<Retailer>>, registry: Registry, world: World)
    requires |runs| <= |products|
    reads set k, j | 0 <= k < |runs| && 0 <= j < |runs[k]| :: runs[k][j]
  {
    forall k :: 0 <= k < |runs| ==>
      && Retailers(runs[k]) == Loaded(retailerQuery(products[k].id), registry)
      && forall j :: 0 <= j < |runs[k]| ==>
           Finished(runs[k][j], world(products[k].id, runs[k][j].supermercadoId),
                    SearchTerm(products[k].nombre, products[k].nombreBusqueda))
  }

  lemma RanForAppend(runs: seq<seq<Scraper>>, ran: seq<Scraper>, products: seq<Product>,
                     retailerQuery: ProductId -> Option<seq<Retailer>>, registry: Registry, world: World)
    requires |runs| < |products|
    requires RanFor(runs, products, retailerQuery, registry, world)
    requires Retailers(ran) == Loaded(retailerQuery(products[|runs|].id), registry)
    requires forall j :: 0 <= j < |ran| ==>
               Finished(ran[j], world(products[|runs|].id, ran[j].supermercadoId),
                        SearchTerm(products[|runs|].nombre, products[|runs|].nombreBusqueda))
    ensures RanFor(runs + [ran], products, retailerQuery, registry, world)
  {
    var next := runs + [ran];
    forall k | 0 <= k < |next|
      ensures Retailers(next[k]) == Loaded(retailerQuery(products[k].id), registry)
      ensures forall j :: 0 <= j < |next[k]| ==>
                Finished(next[k][j], world(products[k].id, next[k][j].supermercadoId),
                         SearchTerm(products[k].nombre, products[k].nombreBusqueda))
    {
      if k < |runs| {
        assert next[k] == runs[k];
      }
    }
  }

  /** One iteration of the scheduled loop: `runScrapers` for `products[i]`. */
  method ScheduleOne(db: Database, products: seq<Product>, i: nat, ghost runs: seq<seq<Scraper>>,
                     retailerQuery: ProductId -> Option<seq<Retailer>>, registry: Registry,
                     world: World, today: Date, now: Timestamp)
    returns (report: RunReport, ghost ran: seq<Scraper>)
    requires i == |runs| < |products|
    requires RanFor(runs, products, retailerQuery, registry, world)
    modifies db
    ensures report == ReportOf(Loaded(retailerQuery(products[i].id), registry), products[i].id, world)
    ensures db.Snapshot() == TablesAfterRun(old(db.Snapshot()), Loaded(retailerQuery(products[i].id), registry),
                                            products[i].id, world, today, now)
    ensures RanFor(runs + [ran], products, retailerQuery, registry, world)
  {
    var producto := products[i];
    report, ran := RunScrapers(db, retailerQuery(producto.id), registry, producto.id, producto.nombre,
                               producto.nombreBusqueda, world, today, now);
    assert RanFor(runs, products, retailerQuery, registry, world);
    RanForAppend(runs, ran, products, retailerQuery, registry, world);
  }

  /** Runs `runScrapers` once per product, in query order, with the product's id, name and search
      name, and resolves to `true`; only a failed product query makes it resolve to `false`. */
  method RunScheduledScraping(db: Database, productQuery: Option<seq<Product>>,
                              retailerQuery: ProductId -> Option<seq<Retailer>>, registry: Registry,
                              world: World, today: Date, now: Timestamp)
    returns (ok: bool, ghost reports: seq<RunReport>, ghost runs: seq<seq<Scraper>>)
    modifies db
    ensures ok <==> productQuery.Some?
    ensures productQuery.None? ==> reports == [] && runs == [] && db.Snapshot() == old(db.Snapshot())
    ensures productQuery.Some? ==>
              && reports == ScheduledReports(productQuery.value, retailerQuery, registry, world)
              && db.Snapshot() == ScheduledTables(old(db.Snapshot()), productQuery.value, retailerQuery, registry, world, today, now)
              && |runs| == |productQuery.value|
              && RanFor(runs, productQuery.value, retailerQuery, registry, world)
  {
    reports := [];
    runs := [];
    if productQuery.None? {
      return false, reports, runs;
    }
    var productos := productQuery.value;
    for i := 0 to |productos|
      invariant reports == ScheduledReports(productos[..i], retailerQuery, registry, world)
      invariant db.Snapshot() == ScheduledTables(old(db.Snapshot()), productos[..i], retailerQuery, registry, world, today, now)
      invariant |runs| == i
      invariant RanFor(runs, productos, retailerQuery, registry, world)
    {
      ScheduledStep(old(db.Snapshot()), productos, i, retailerQuery, registry, world, today, now);
      ghost var ran;
      var report;
      report, ran := ScheduleOne(db, productos, i, runs, retailerQuery, registry, world, today, now);
      reports := reports + [report];
      runs := runs + [ran];
    }
    assert productos[..|productos|] == productos;
    ok := true;
  }
}

/** A worked run: retailers "A" (finds price 999 at "X"), "B" (its search rejects, as on a timeout)
    and "C" (no scraper module), for product 7 on day 100; then A rescraped the same day at 899. */
module WidgetRun {
  import opened ScrapeTypes
  import opened PriceTables
  import opened BaseScraper
  import opened ScraperService

  const Retailers3 := [Retailer(1, "A"), Retailer(2, "B"), Retailer(3, "C")]
  const Modules := map["a" := Extractor("aScraper"), "b" := Extractor("bScraper")]

  function WorldAt(price: Price): World {
    (p: ProductId, r: RetailerId) =>
      if r == 1 then Attempt(Launched, Returns("X"), Returns(price), false, false, None, None)
      else Attempt(Launched, Throws("timeout"), ReturnsNothing, false, false, None, None)
  }

  const Bound := [Retailer(1, "A"), Retailer(2, "B")]

  /** "A" and "B" have modules under the keys "a" and "b"; "C" has none and is skipped. */
  lemma WidgetLoaded()
    ensures Loaded(Some(Retailers3), Modules) == Bound
  {
    assert ExtractorKey.Key("A") == "a";
    assert ExtractorKey.Key("B") == "b";
    assert ExtractorKey.Key("C") == "c";
    assert Retailers3[..2] == Bound && Bound[..1] == [Retailer(1, "A")] && [Retailer(1, "A")][..0] == [];
  }

  /** B's rejected search is caught inside `scrapProduct`, so B reports 'No se encontró información'
      and C has no entry. */
  lemma WidgetReport()
    ensures ReportOf(Bound, 7, WorldAt(999))
         == Ran(map["A" := Succeeded(ScrapeData("X", 999)), "B" := Unsuccessful(NoInformationMessage)])
  {
    assert Bound[..1] == [Retailer(1, "A")] && [Retailer(1, "A")][..0] == [];
  }

  /** Only A gets rows; the same-day rerun at 899 overwrites A's price and its one history row and
      keeps their `createdAt`. */
  lemma WidgetTables()
    ensures TablesAfterRun(Tables(map[], map[]), Bound, 7, WorldAt(999), 100, 5000)
         == Tables(map[AssocKey(7, 1) := AssocRow(999, "X", 5000, 5000)],
                   map[HistoryKey(7, 1, 100) := HistoryRow(999, 5000, 5000)])
    ensures TablesAfterRun(TablesAfterRun(Tables(map[], map[]), Bound, 7, WorldAt(999), 100, 5000),
                           Bound, 7, WorldAt(899), 100, 6000)
         == Tables(map[AssocKey(7, 1) := AssocRow(899, "X", 5000, 6000)],
                   map[HistoryKey(7, 1, 100) := HistoryRow(899, 5000, 6000)])
  {
    assert Bound[..1] == [Retailer(1, "A")] && [Retailer(1, "A")][..0] == [];
  }
}
