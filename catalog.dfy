/** The persisted catalog: product rows keyed by their natural key
    `(externalId, providerId)` and the append-only price history. */
module Catalog {
  import opened Wrappers

  /** Milliseconds since the epoch. */
  type Timestamp = int

  /** The store-assigned row id. */
  type ProductId = nat

  /** The natural key `(externalId, providerId)`. */
  type Key = (string, string)

  datatype ChangeType = PriceChange

  datatype Product = Product(
    id: ProductId,
    externalId: string,
    providerId: string,
    name: string,
    description: Option<string>,
    price: real,
    currency: string,
    availability: bool,
    lastUpdated: Timestamp)

  function KeyOf(p: Product): Key {
    (p.externalId, p.providerId)
  }

  datatype PriceHistory = PriceHistory(
    productId: ProductId,
    oldPrice: real,
    newPrice: real,
    oldAvailability: bool,
    newAvailability: bool,
    currency: string,
    changeType: ChangeType,
    changedAt: Timestamp)

  /** The whole store: rows, history, and the next id the store will assign. */
  datatype Store = Store(rows: map<Key, Product>, history: seq<PriceHistory>, nextId: ProductId) {

    function Ids(): set<ProductId> {
      set k | k in rows :: rows[k].id
    }

    /** Each row sits under its own natural key, ids are below `nextId` and distinct,
        and every history entry belongs to a row. */
    ghost predicate Valid() {
      && (forall k :: k in rows ==> KeyOf(rows[k]) == k && rows[k].id < nextId)
      && (forall k1, k2 :: k1 in rows && k2 in rows && rows[k1].id == rows[k2].id ==> k1 == k2)
      && (forall h :: h in history ==> h.productId in Ids())
    }
  }
}
