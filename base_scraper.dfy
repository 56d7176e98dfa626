/** The base scraper class: one object per retailer, holding that retailer's browser and page, with
    the scrape pipeline (search, extract, save) that every retailer-specific scraper inherits. */
module BaseScraper {
  import opened ScrapeTypes
  import opened PriceTables

  /** A browser process launched for one scraper; `open` turns false once `browser.close()` resolves. */
  datatype Browser = Browser(open: bool)

  /** The page opened in that browser, with the two configuration steps that `initialize` awaits. */
  datatype Page = Page(userAgentSet: bool, viewportSet: bool)

  /** How far `initialize` gets: the step that rejects, or all four steps resolved. */
  datatype Launch = LaunchFails | NewPageFails | UserAgentFails | ViewportFails | Launched

  /** The retailer-specific scraper module (`../scrapers/<key>Scraper`) an object was made from. */
  datatype Extractor = Extractor(moduleName: string)

  /** A call made on a scraper object, as a spy on the object would record it. */
  datatype Call =
    | InitializeCalled
    | SearchCalled(term: string)
    | ExtractCalled
    | SaveAssociationCalled
    | SaveHistoryCalled
    | CloseCalled

  /** `productSearchName || productName`: the alternate name unless it is absent or empty. */
  function SearchTerm(productName: string, productSearchName: Option<string>): (term: string)
    ensures productSearchName.Some? && productSearchName.value != "" ==> term == productSearchName.value
    ensures productSearchName.None? || productSearchName.value == "" ==> term == productName
  {
    match productSearchName
    case Some(name) => if name != "" then name else productName
    case None => productName
  }

  /** `searchProduct` resolved to a truthy URL. */
  predicate UrlFound(search: Reply<string>) {
    search.Returns? && search.value != ""
  }

  /** `extractPrice` resolved to a truthy price: present and not zero. */
  predicate PriceFound(extract: Reply<Price>) {
    extract.Returns? && extract.value != 0
  }

  /** The value `scrapProduct` resolves to, given what the two extractor calls do: a rejection is
      caught, a falsy URL or price returns null. */
  function ScrapeResult(search: Reply<string>, extract: Reply<Price>): (r: Option<ScrapeData>)
    ensures r.Some? <==> UrlFound(search) && PriceFound(extract)
    ensures r.Some? ==> r.value.url == search.value && r.value.price == extract.value
  {
    match search
    case Throws(_) => None
    case ReturnsNothing => None
    case Returns(url) =>
      if url == "" then None
      else match extract
        case Throws(_) => None
        case ReturnsNothing => None
        case Returns(price) => if price == 0 then None else Some(ScrapeData(url, price))
  }

  /** The calls `scrapProduct` makes on its own object, in order. */
  function ScrapeCalls(term: string, search: Reply<string>, extract: Reply<Price>): (calls: seq<Call>)
    ensures |calls| > 0 && calls[0] == SearchCalled(term)
    ensures ExtractCalled in calls <==> UrlFound(search)
    ensures SaveAssociationCalled in calls <==> ScrapeResult(search, extract).Some?
    ensures SaveHistoryCalled in calls <==> ScrapeResult(search, extract).Some?
    ensures ScrapeResult(search, extract).Some? ==>
              calls == [SearchCalled(term), ExtractCalled, SaveAssociationCalled, SaveHistoryCalled]
    ensures InitializeCalled !in calls && CloseCalled !in calls
  {
    if !UrlFound(search) then [SearchCalled(term)]
    else if !PriceFound(extract) then [SearchCalled(term), ExtractCalled]
    else [SearchCalled(term), ExtractCalled, SaveAssociationCalled, SaveHistoryCalled]
  }

  /** The tables after `scrapProduct`: both writes when it found a URL and a price, none otherwise. */
  function ScrapeWrites(t: Tables, productId: ProductId, retailerId: RetailerId,
                        search: Reply<string>, extract: Reply<Price>,
                        associationFails: bool, historyFails: bool, today: Date, now: Timestamp): Tables
  {
    match ScrapeResult(search, extract)
    case None => t
    case Some(data) => Record(t, productId, retailerId, data, associationFails, historyFails, today, now)
  }

  /** Nothing is written unless the scrape found both a URL and a price. */
  lemma NoResultNoWrites(t: Tables, productId: ProductId, retailerId: RetailerId,
                         search: Reply<string>, extract: Reply<Price>,
                         associationFails: bool, historyFails: bool, today: Date, now: Timestamp)
    requires !UrlFound(search) || !PriceFound(extract)
    ensures ScrapeWrites(t, productId, retailerId, search, extract, associationFails, historyFails, today, now) == t
  {
  }

  /** A found price is written to both tables, under the scraper's retailer, whatever the other write did. */
  lemma FoundPriceIsRecorded(t: Tables, productId: ProductId, retailerId: RetailerId,
                             search: Reply<string>, extract: Reply<Price>,
                             associationFails: bool, historyFails: bool, today: Date, now: Timestamp)
    requires UrlFound(search) && PriceFound(extract)
    ensures var r := ScrapeWrites(t, productId, retailerId, search, extract, associationFails, historyFails, today, now);
            var ak := AssocKey(productId, retailerId);
            var hk := HistoryKey(productId, retailerId, today);
            && (!associationFails ==> ak in r.associations && r.associations[ak].precio == extract.value
                                      && r.associations[ak].url == search.value)
            && (!historyFails ==> hk in r.history && r.history[hk].precio == extract.value)
            && (associationFails ==> r.associations == t.associations)
            && (historyFails ==> r.history == t.history)
  {
  }

  function PageAfterInit(page: Option<Page>, launch: Launch): Option<Page> {
    match launch
    case LaunchFails => page
    case NewPageFails => page
    case UserAgentFails => Some(Page(false, false))
    case ViewportFails => Some(Page(true, false))
    case Launched => Some(Page(true, true))
  }

  class Scraper {
    const supermercadoId: RetailerId
    const nombre: string
    /** The subclass this object is an instance of. */
    const extractor: Extractor
    var browser: Option<Browser>
    var page: Option<Page>
    /** Every call made on this object so far, in order. */
    ghost var calls: seq<Call>

    constructor (extractor: Extractor, supermercadoId: RetailerId, nombre: string)
      ensures this.extractor == extractor
      ensures this.supermercadoId == supermercadoId && this.nombre == nombre
      ensures browser == None && page == None && calls == []
    {
      this.extractor := extractor;
      this.supermercadoId := supermercadoId;
      this.nombre := nombre;
      browser := None;
      page := None;
      calls := [];
    }

    /** Launches the browser, opens a page, sets user agent and viewport; any rejection is caught and
        reported as `false`, leaving the fields set by the steps that did resolve. */
    method Initialize(launch: Launch) returns (ok: bool)
      modifies this
      ensures ok <==> launch == Launched
      ensures browser == if launch == LaunchFails then old(browser) else Some(Browser(true))
      ensures page == PageAfterInit(old(page), launch)
      ensures calls == old(calls) + [InitializeCalled]
    {
      calls := calls + [InitializeCalled];
      if launch == LaunchFails {
        return false;
      }
      browser := Some(Browser(true));
      if launch == NewPageFails {
        return false;
      }
      page := Some(Page(false, false));
      if launch == UserAgentFails {
        return false;
      }
      page := Some(Page(true, false));
      if launch == ViewportFails {
        return false;
      }
      page := Some(Page(true, true));
      ok := true;
    }

    /** Closes the browser if one was launched. `failure` is the rejection of `browser.close()`, if it
        rejects; that rejection propagates to the caller and the browser stays as it was. */
    method Close(failure: Option<string>) returns (thrown: Option<string>)
      modifies this
      ensures thrown == if old(browser).Some? then failure else None
      ensures browser == if old(browser).Some? && failure.None? then Some(Browser(false)) else old(browser)
      ensures page == old(page)
      ensures calls == old(calls) + [CloseCalled]
    {
      calls := calls + [CloseCalled];
      thrown := None;
      if browser.Some? {
        if failure.Some? {
          thrown := failure;
        } else {
          browser := Some(Browser(false));
        }
      }
    }

    /** The retailer-specific search; what it resolves to is an input of the model. */
    method SearchProduct(term: string, reply: Reply<string>) returns (url: Reply<string>)
      modifies this`calls
      ensures url == reply
      ensures calls == old(calls) + [SearchCalled(term)]
    {
      calls := calls + [SearchCalled(term)];
      url := reply;
    }

    /** The retailer-specific price reader; what it resolves to is an input of the model. */
    method ExtractPrice(reply: Reply<Price>) returns (price: Reply<Price>)
      modifies this`calls
      ensures price == reply
      ensures calls == old(calls) + [ExtractCalled]
    {
      calls := calls + [ExtractCalled];
      price := reply;
    }

    /** Upserts the current price and URL for (product, this retailer); a failed query is caught and
        reported as `false`. */
    method SaveAssociation(db: Database, productId: ProductId, url: string, price: Price,
                           fails: bool, now: Timestamp) returns (saved: bool)
      modifies this`calls, db
      ensures saved == !fails
      ensures db.associations == if fails then old(db.associations)
                                 else UpsertAssociation(old(db.associations), AssocKey(productId, supermercadoId), price, url, now)
      ensures db.history == old(db.history)
      ensures calls == old(calls) + [SaveAssociationCalled]
    {
      calls := calls + [SaveAssociationCalled];
      saved := db.UpsertAssociationRow(AssocKey(productId, supermercadoId), price, url, now, fails);
    }

    /** Upserts today's price for (product, this retailer); a failed query is caught and reported as `false`. */
    method SavePriceHistory(db: Database, productId: ProductId, price: Price,
                            fails: bool, today: Date, now: Timestamp) returns (saved: bool)
      modifies this`calls, db
      ensures saved == !fails
      ensures db.history == if fails then old(db.history)
                            else UpsertHistory(old(db.history), HistoryKey(productId, supermercadoId, today), price, now)
      ensures db.associations == old(db.associations)
      ensures calls == old(calls) + [SaveHistoryCalled]
    {
      calls := calls + [SaveHistoryCalled];
      saved := db.UpsertHistoryRow(HistoryKey(productId, supermercadoId, today), price, now, fails);
    }

    /** Searches, extracts, and on success saves the association and then the history point before
        returning `{url, price}`. A rejection of either extractor call, a falsy URL or a falsy price
        makes it return null; the two saves' results are ignored. */
    method ScrapProduct(db: Database, productId: ProductId, productName: string, productSearchName: Option<string>,
                        search: Reply<string>, extract: Reply<Price>,
                        associationFails: bool, historyFails: bool, today: Date, now: Timestamp)
      returns (result: Option<ScrapeData>)
      modifies this`calls, db
      ensures result == ScrapeResult(search, extract)
      ensures calls == old(calls) + ScrapeCalls(SearchTerm(productName, productSearchName), search, extract)
      ensures db.Snapshot() == ScrapeWrites(old(db.Snapshot()), productId, supermercadoId, search, extract,
                                            associationFails, historyFails, today, now)
    {
      var searchName := SearchTerm(productName, productSearchName);
      var url := SearchProduct(searchName, search);
      if url.Throws? || url.ReturnsNothing? || url.value == "" {
        return None;
      }
      var price := ExtractPrice(extract);
      if price.Throws? || price.ReturnsNothing? || price.value == 0 {
        return None;
      }
      var _ := SaveAssociation(db, productId, url.value, price.value, associationFails, now);
      var _ := SavePriceHistory(db, productId, price.value, historyFails, today, now);
      result := Some(ScrapeData(url.value, price.value));
    }
  }
}
