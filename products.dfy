/** ProductsService: read-only queries over the product table (in scan order) and the
    price-history table. Each query is one find with an `include` of the product's
    history, ordered by `changedAt` descending. */
module ProductsService {
  import opened Wrappers
  import opened Catalog

  datatype ProductWithHistory = ProductWithHistory(product: Product, priceHistory: seq<PriceHistory>)

  /** `take` on the history of `findAll`. */
  const HistoryTake: nat := 10
  /** The default of `findRecentChanges(hours)`. */
  const DefaultHours: int := 24
  const MillisPerHour: int := 60 * 60 * 1000

  // ---------------------------------------------------------------------------
  // History selection and order

  /** `orderBy: { changedAt: 'desc' }`. */
  ghost predicate NewestFirst(h: seq<PriceHistory>) {
    forall i, j :: 0 <= i < j < |h| ==> h[i].changedAt >= h[j].changedAt
  }

  lemma ConsNewestFirst(x: PriceHistory, h: seq<PriceHistory>)
    requires NewestFirst(h) && (|h| == 0 || x.changedAt >= h[0].changedAt)
    ensures NewestFirst([x] + h)
  {
    var r := [x] + h;
    forall i, j | 0 <= i < j < |r| ensures r[i].changedAt >= r[j].changedAt {
      if i == 0 && j > 1 {
        assert h[0].changedAt >= h[j - 1].changedAt;
      }
    }
  }

  /** Places `e` in front of the first entry that is not newer than it. */
  function InsertNewestFirst(e: PriceHistory, h: seq<PriceHistory>): (r: seq<PriceHistory>)
    requires NewestFirst(h)
    ensures NewestFirst(r)
    ensures multiset(r) == multiset(h) + multiset{e}
    ensures |r| > 0 && (r[0] == e || (|h| > 0 && r[0] == h[0]))
  {
    if |h| == 0 || e.changedAt >= h[0].changedAt then
      ConsNewestFirst(e, h);
      [e] + h
    else
      assert h == [h[0]] + h[1..];
      var rest := InsertNewestFirst(e, h[1..]);
      ConsNewestFirst(h[0], rest);
      [h[0]] + rest
  }

  /** The entries of `h`, newest first. */
  function SortNewestFirst(h: seq<PriceHistory>): (r: seq<PriceHistory>)
    ensures NewestFirst(r)
    ensures multiset(r) == multiset(h)
  {
    if |h| == 0 then []
    else
      assert h == [h[0]] + h[1..];
      InsertNewestFirst(h[0], SortNewestFirst(h[1..]))
  }

  /** The history relation of one product: the entries whose `productId` is `id`. */
  function HistoryOf(history: seq<PriceHistory>, id: ProductId): (r: seq<PriceHistory>)
    ensures forall e :: multiset(r)[e] == if e.productId == id then multiset(history)[e] else 0
  {
    if |history| == 0 then []
    else
      assert history == [history[0]] + history[1..];
      var rest := HistoryOf(history[1..], id);
      if history[0].productId == id then [history[0]] + rest else rest
  }

  /** The `changedAt >= since` filter of `findRecentChanges`. */
  function ChangedSince(h: seq<PriceHistory>, since: Timestamp): (r: seq<PriceHistory>)
    ensures forall e :: multiset(r)[e] == if e.changedAt >= since then multiset(h)[e] else 0
  {
    if |h| == 0 then []
    else
      assert h == [h[0]] + h[1..];
      var rest := ChangedSince(h[1..], since);
      if h[0].changedAt >= since then [h[0]] + rest else rest
  }

  lemma KeptIsNewer(h: seq<PriceHistory>, n: nat, x: PriceHistory, y: PriceHistory)
    requires NewestFirst(h) && n <= |h| && x in h[..n] && y in h[n..]
    ensures x.changedAt >= y.changedAt
  {
    var i :| 0 <= i < n && h[..n][i] == x;
    var j :| 0 <= j < |h| - n && h[n..][j] == y;
    assert h[i] == x && h[n + j] == y;
  }

  /** Keeping a prefix of a newest-first list keeps the newest entries: nothing dropped
      is newer than anything kept. */
  lemma PrefixIsNewest(h: seq<PriceHistory>, n: nat)
    requires NewestFirst(h) && n <= |h|
    ensures forall e :: multiset(h[..n])[e] <= multiset(h)[e]
    ensures forall x, y :: x in multiset(h[..n]) && y in multiset(h) - multiset(h[..n]) ==> x.changedAt >= y.changedAt
  {
    assert h == h[..n] + h[n..];
    assert multiset(h) == multiset(h[..n]) + multiset(h[n..]);
    assert multiset(h) - multiset(h[..n]) == multiset(h[n..]);
    forall x, y | x in multiset(h[..n]) && y in multiset(h[n..])
      ensures x.changedAt >= y.changedAt
    {
      KeptIsNewer(h, n, x, y);
    }
  }

  function Min(a: nat, b: nat): nat {
    if a <= b then a else b
  }

  // ---------------------------------------------------------------------------
  // The three queries

  /** The row `findUnique({where: {id}})` finds: the first with that id (ids are unique). */
  function Lookup(catalog: seq<Product>, id: ProductId): (r: Option<Product>)
    ensures r.None? <==> forall k :: 0 <= k < |catalog| ==> catalog[k].id != id
    ensures r.Some? ==> r.value in catalog && r.value.id == id
  {
    if |catalog| == 0 then None
    else if catalog[0].id == id then Some(catalog[0])
    else Lookup(catalog[1..], id)
  }

  /** findOne: the product with that id and all of its history, or nothing. */
  function FindOne(catalog: seq<Product>, history: seq<PriceHistory>, id: ProductId): (r: Option<ProductWithHistory>)
    ensures r.None? <==> forall k :: 0 <= k < |catalog| ==> catalog[k].id != id
    ensures r.Some? ==>
      && r.value.product in catalog && r.value.product.id == id
      && NewestFirst(r.value.priceHistory)
      && forall e :: multiset(r.value.priceHistory)[e] == if e.productId == id then multiset(history)[e] else 0
  {
    match Lookup(catalog, id)
    case None => None
    case Some(p) => Some(ProductWithHistory(p, SortNewestFirst(HistoryOf(history, id))))
  }

  /** The history `findAll` attaches to one product: its 10 newest entries. */
  function LatestHistory(history: seq<PriceHistory>, id: ProductId): (r: seq<PriceHistory>)
    ensures NewestFirst(r)
    ensures |r| == Min(HistoryTake, |HistoryOf(history, id)|)
    ensures forall e :: multiset(r)[e] <= multiset(HistoryOf(history, id))[e]
    ensures forall x, y :: x in multiset(r) && y in multiset(HistoryOf(history, id)) - multiset(r) ==>
      x.changedAt >= y.changedAt
  {
    var all := SortNewestFirst(HistoryOf(history, id));
    var n := Min(HistoryTake, |all|);
    PrefixIsNewest(all, n);
    all[..n]
  }

  /** findAll: every product, in scan order, each with its 10 newest history entries. */
  function FindAll(catalog: seq<Product>, history: seq<PriceHistory>): (r: seq<ProductWithHistory>)
    ensures |r| == |catalog|
    ensures forall k :: 0 <= k < |r| ==>
      r[k].product == catalog[k] && r[k].priceHistory == LatestHistory(history, catalog[k].id)
  {
    seq(|catalog|, k requires 0 <= k < |catalog| => ProductWithHistory(catalog[k], LatestHistory(history, catalog[k].id)))
  }

  /** `since = Date.now() - hours * 60 * 60 * 1000`, `hours` defaulting to 24. */
  function Cutoff(hours: Option<int>, now: Timestamp): Timestamp {
    now - hours.GetOr(DefaultHours) * MillisPerHour
  }

  /** The rows with `lastUpdated >= since`, in scan order. */
  function RecentRows(catalog: seq<Product>, since: Timestamp): (r: seq<Product>)
    ensures forall p :: p in r <==> p in catalog && p.lastUpdated >= since
    ensures forall p :: multiset(r)[p] == if p.lastUpdated >= since then multiset(catalog)[p] else 0
  {
    if |catalog| == 0 then []
    else
      assert catalog == [catalog[0]] + catalog[1..];
      var rest := RecentRows(catalog[1..], since);
      if catalog[0].lastUpdated >= since then [catalog[0]] + rest else rest
  }

  /** The filter keeps scan order: filtering a catalog split in two is filtering each part
      and joining the results in the same order. */
  lemma {:induction false} RecentRowsKeepsOrder(a: seq<Product>, b: seq<Product>, since: Timestamp)
    ensures RecentRows(a + b, since) == RecentRows(a, since) + RecentRows(b, since)
  {
    if |a| == 0 {
      assert a + b == b;
    } else {
      assert (a + b)[1..] == a[1..] + b;
      RecentRowsKeepsOrder(a[1..], b, since);
    }
  }

  /** The history `findRecentChanges` attaches to one product: its entries from `since`
      on, newest first. */
  function RecentHistory(history: seq<PriceHistory>, id: ProductId, since: Timestamp): (r: seq<PriceHistory>)
    ensures NewestFirst(r)
    ensures forall e :: multiset(r)[e] == if e.productId == id && e.changedAt >= since then multiset(history)[e] else 0
  {
    SortNewestFirst(ChangedSince(HistoryOf(history, id), since))
  }

  /** findRecentChanges: the products updated at or after the cutoff, in scan order, each
      with its history entries from that same cutoff on, newest first. */
  function FindRecentChanges(catalog: seq<Product>, history: seq<PriceHistory>, hours: Option<int>, now: Timestamp)
    : (r: seq<ProductWithHistory>)
    ensures |r| == |RecentRows(catalog, Cutoff(hours, now))|
    ensures forall k :: 0 <= k < |r| ==>
      && r[k].product == RecentRows(catalog, Cutoff(hours, now))[k]
      && r[k].priceHistory == RecentHistory(history, r[k].product.id, Cutoff(hours, now))
  {
    var since := Cutoff(hours, now);
    var rows := RecentRows(catalog, since);
    seq(|rows|, k requires 0 <= k < |rows| => ProductWithHistory(rows[k], RecentHistory(history, rows[k].id, since)))
  }

  // ---------------------------------------------------------------------------
  // Properties across queries

  /** A product is listed by findRecentChanges exactly when it is in the catalog and was
      updated at or after the cutoff; with `hours` absent the window is 24 hours. */
  lemma RecentChangesMembership(catalog: seq<Product>, history: seq<PriceHistory>, hours: Option<int>, now: Timestamp, p: Product)
    ensures (exists k :: 0 <= k < |FindRecentChanges(catalog, history, hours, now)| &&
               FindRecentChanges(catalog, history, hours, now)[k].product == p)
            <==> p in catalog && p.lastUpdated >= Cutoff(hours, now)
    ensures Cutoff(None, now) == now - 86400000
  {
    var r := FindRecentChanges(catalog, history, hours, now);
    var rows := RecentRows(catalog, Cutoff(hours, now));
    if p in rows {
      var k :| 0 <= k < |rows| && rows[k] == p;
      assert r[k].product == p;
    }
    if exists k :: 0 <= k < |r| && r[k].product == p {
      var k :| 0 <= k < |r| && r[k].product == p;
      assert rows[k] in rows;
    }
  }

  /** A wider window never lists fewer products. */
  lemma WiderWindowListsMore(catalog: seq<Product>, history: seq<PriceHistory>, hours: int, more: int, now: Timestamp, p: Product)
    requires hours <= more
    requires p in catalog && p.lastUpdated >= Cutoff(Some(hours), now)
    ensures p.lastUpdated >= Cutoff(Some(more), now)
    ensures exists k :: (0 <= k < |FindRecentChanges(catalog, history, Some(more), now)| &&
      FindRecentChanges(catalog, history, Some(more), now)[k].product == p)
  {
    assert hours * MillisPerHour <= more * MillisPerHour;
    RecentChangesMembership(catalog, history, Some(more), now, p);
  }

  /** findAll's history of a product is the newest part of what findOne returns for it. */
  lemma FindAllKeepsNewestOfFindOne(catalog: seq<Product>, history: seq<PriceHistory>, k: nat)
    requires k < |catalog|
    ensures var one := FindOne(catalog, history, catalog[k].id);
      && one.Some?
      && var kept := FindAll(catalog, history)[k].priceHistory;
      && |kept| == Min(HistoryTake, |one.value.priceHistory|)
      && (forall e :: multiset(kept)[e] <= multiset(one.value.priceHistory)[e])
      && forall x, y :: x in multiset(kept) && y in multiset(one.value.priceHistory) - multiset(kept) ==>
           x.changedAt >= y.changedAt
  {
    var id := catalog[k].id;
    var one := FindOne(catalog, history, id);
    assert one.Some?;
    var all := one.value.priceHistory;
    assert multiset(all) == multiset(HistoryOf(history, id));
    assert |all| == |multiset(all)| == |HistoryOf(history, id)|;
  }
}
