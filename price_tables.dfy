/** The two tables the scrapers write with `INSERT ... ON DUPLICATE KEY UPDATE`:
    `producto_supermercado` (the current price of a product at a retailer) and
    `preciohistoricos` (one price per product, retailer and calendar date). */
module PriceTables {
  import opened ScrapeTypes

  /** The unique key of `producto_supermercado`. */
  datatype AssocKey = AssocKey(productId: ProductId, retailerId: RetailerId)
  datatype AssocRow = AssocRow(precio: Price, url: string, createdAt: Timestamp, updatedAt: Timestamp)

  /** The unique key of `preciohistoricos`. */
  datatype HistoryKey = HistoryKey(productId: ProductId, retailerId: RetailerId, fecha: Date)
  datatype HistoryRow = HistoryRow(precio: Price, createdAt: Timestamp, updatedAt: Timestamp)

  type AssocTable = map<AssocKey, AssocRow>
  type HistoryTable = map<HistoryKey, HistoryRow>

  datatype Tables = Tables(associations: AssocTable, history: HistoryTable)

  /** Agreement of two tables at one key: both lack it, or both hold the same row. */
  predicate SameAt<K, V(==)>(m: map<K, V>, m': map<K, V>, k: K) {
    (k in m <==> k in m') && (k in m ==> m[k] == m'[k])
  }

  /** The association upsert: insert `(precio, url, NOW(), NOW())`, or on a duplicate key set
      `precio`, `url` and `updatedAt`, keeping `createdAt`. */
  function UpsertAssociation(t: AssocTable, k: AssocKey, precio: Price, url: string, now: Timestamp): (r: AssocTable)
    ensures r.Keys == t.Keys + {k}
    ensures r[k].precio == precio && r[k].url == url && r[k].updatedAt == now
    ensures r[k].createdAt == if k in t then t[k].createdAt else now
    ensures forall k' :: k' != k ==> SameAt(r, t, k')
  {
    if k in t then t[k := t[k].(precio := precio, url := url, updatedAt := now)]
    else t[k := AssocRow(precio, url, now, now)]
  }

  /** The history upsert: insert `(precio, CURDATE(), NOW(), NOW())`, or on a duplicate
      (product, retailer, date) set `precio` and `updatedAt`, keeping `createdAt`. */
  function UpsertHistory(t: HistoryTable, k: HistoryKey, precio: Price, now: Timestamp): (r: HistoryTable)
    ensures r.Keys == t.Keys + {k}
    ensures r[k].precio == precio && r[k].updatedAt == now
    ensures r[k].createdAt == if k in t then t[k].createdAt else now
    ensures forall k' :: k' != k ==> SameAt(r, t, k')
  {
    if k in t then t[k := t[k].(precio := precio, updatedAt := now)]
    else t[k := HistoryRow(precio, now, now)]
  }

  /** A history upsert adds a row only for a date not yet recorded: a same-day rerun keeps the row count. */
  lemma UpsertHistoryCount(t: HistoryTable, k: HistoryKey, precio: Price, now: Timestamp)
    ensures |UpsertHistory(t, k, precio, now)| == if k in t then |t| else |t| + 1
  {
    var r := UpsertHistory(t, k, precio, now);
    if k in t {
      assert r.Keys == t.Keys;
    } else {
      assert r.Keys == t.Keys + {k} && k !in t.Keys;
    }
  }

  /** The same for the association table: at most one row per (product, retailer). */
  lemma UpsertAssociationCount(t: AssocTable, k: AssocKey, precio: Price, url: string, now: Timestamp)
    ensures |UpsertAssociation(t, k, precio, url, now)| == if k in t then |t| else |t| + 1
  {
    var r := UpsertAssociation(t, k, precio, url, now);
    if k in t {
      assert r.Keys == t.Keys;
    } else {
      assert r.Keys == t.Keys + {k} && k !in t.Keys;
    }
  }

  /** The two writes of one successful scrape, association first and history second. A write whose
      query fails leaves its table as it was and does not stop the other. */
  function Record(t: Tables, productId: ProductId, retailerId: RetailerId, data: ScrapeData,
                  associationFails: bool, historyFails: bool, today: Date, now: Timestamp): (r: Tables)
    ensures associationFails ==> r.associations == t.associations
    ensures !associationFails ==>
              var k := AssocKey(productId, retailerId);
              && k in r.associations
              && r.associations[k].precio == data.price && r.associations[k].url == data.url
    ensures historyFails ==> r.history == t.history
    ensures !historyFails ==>
              var k := HistoryKey(productId, retailerId, today);
              k in r.history && r.history[k].precio == data.price
  {
    var associations :=
      if associationFails then t.associations
      else UpsertAssociation(t.associations, AssocKey(productId, retailerId), data.price, data.url, now);
    var history :=
      if historyFails then t.history
      else UpsertHistory(t.history, HistoryKey(productId, retailerId, today), data.price, now);
    Tables(associations, history)
  }

  /** Recording twice on one calendar date adds no row the first recording did not add: the second
      overwrites price, url and `updatedAt`, and keeps the first recording's `createdAt`. */
  lemma RecordSameDayRerun(t: Tables, productId: ProductId, retailerId: RetailerId, first: ScrapeData,
                           second: ScrapeData, today: Date, now1: Timestamp, now2: Timestamp)
    ensures var t1 := Record(t, productId, retailerId, first, false, false, today, now1);
            var t2 := Record(t1, productId, retailerId, second, false, false, today, now2);
            var ak := AssocKey(productId, retailerId);
            var hk := HistoryKey(productId, retailerId, today);
            && t2.associations.Keys == t1.associations.Keys
            && |t2.associations| == |t1.associations|
            && t2.history.Keys == t1.history.Keys
            && |t2.history| == |t1.history|
            && t2.associations[ak] == AssocRow(second.price, second.url, t1.associations[ak].createdAt, now2)
            && t2.history[hk] == HistoryRow(second.price, t1.history[hk].createdAt, now2)
  {
    var t1 := Record(t, productId, retailerId, first, false, false, today, now1);
    UpsertAssociationCount(t1.associations, AssocKey(productId, retailerId), second.price, second.url, now2);
    UpsertHistoryCount(t1.history, HistoryKey(productId, retailerId, today), second.price, now2);
  }

  /** Recording on a later date adds that date's history row and leaves the earlier date's row as it was. */
  lemma RecordNextDay(t: Tables, productId: ProductId, retailerId: RetailerId, first: ScrapeData,
                      second: ScrapeData, day1: Date, day2: Date, now1: Timestamp, now2: Timestamp)
    requires day1 != day2
    ensures var t1 := Record(t, productId, retailerId, first, false, false, day1, now1);
            var t2 := Record(t1, productId, retailerId, second, false, false, day2, now2);
            var k1 := HistoryKey(productId, retailerId, day1);
            var k2 := HistoryKey(productId, retailerId, day2);
            && t2.history.Keys == t1.history.Keys + {k2}
            && t2.history[k1] == t1.history[k1]
            && t1.history[k1].precio == first.price
            && t2.history[k2].precio == second.price
  {
    var t1 := Record(t, productId, retailerId, first, false, false, day1, now1);
    assert SameAt(UpsertHistory(t1.history, HistoryKey(productId, retailerId, day2), second.price, now2),
                  t1.history, HistoryKey(productId, retailerId, day1));
  }

  /** A failed association write neither blocks nor alters the history write, and the other way round. */
  lemma RecordWritesAreIndependent(t: Tables, productId: ProductId, retailerId: RetailerId, data: ScrapeData,
                                   associationFails: bool, historyFails: bool, today: Date, now: Timestamp)
    ensures Record(t, productId, retailerId, data, associationFails, historyFails, today, now).history
         == Record(t, productId, retailerId, data, false, historyFails, today, now).history
    ensures Record(t, productId, retailerId, data, associationFails, historyFails, today, now).associations
         == Record(t, productId, retailerId, data, associationFails, false, today, now).associations
  {
  }

  /** The database connection, holding both tables. */
  class Database {
    var associations: AssocTable
    var history: HistoryTable

    constructor (initial: Tables)
      ensures Snapshot() == initial
    {
      associations := initial.associations;
      history := initial.history;
    }

    function Snapshot(): Tables
      reads this
    {
      Tables(associations, history)
    }

    /** The association query; `fails` says whether the database rejects it. */
    method UpsertAssociationRow(k: AssocKey, precio: Price, url: string, now: Timestamp, fails: bool)
      returns (ok: bool)
      modifies this
      ensures ok == !fails
      ensures associations == if fails then old(associations) else UpsertAssociation(old(associations), k, precio, url, now)
      ensures history == old(history)
    {
      if !fails {
        associations := UpsertAssociation(associations, k, precio, url, now);
      }
      ok := !fails;
    }

    /** The history query; `fails` says whether the database rejects it. */
    method UpsertHistoryRow(k: HistoryKey, precio: Price, now: Timestamp, fails: bool)
      returns (ok: bool)
      modifies this
      ensures ok == !fails
      ensures history == if fails then old(history) else UpsertHistory(old(history), k, precio, now)
      ensures associations == old(associations)
    {
      if !fails {
        history := UpsertHistory(history, k, precio, now);
      }
      ok := !fails;
    }
  }
}
