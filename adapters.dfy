/** The provider schema normalisers: one adapter per known provider shape, a generic
    fallback for any other provider id, and the dispatcher that catches every TypeError
    an adapter raises and turns it into an empty result. */
module ProviderAdapters {
  import opened Json

  /** The normalised record. Its fields hold whatever the payload held at the source
      field: the adapters cast, they do not check types. */
  datatype NormalizedProduct = NormalizedProduct(
    id: Value,
    name: Value,
    description: Value,
    price: Value,
    currency: Value,
    availability: Value,
    lastUpdated: Value)

  /** The three item layouts the adapters know. */
  datatype Schema = SnakeCase | CamelCase | UpperCase

  /** `x || null`: the description default. */
  function OrNull(v: Value): (r: Value)
    ensures r.Null? || Truthy(r)
    ensures Truthy(v) ==> r == v
  {
    Or(v, Null)
  }

  /** A description the adapters can emit is either `null` or a truthy value, so never `""`. */
  predicate DescriptionDefaulted(p: NormalizedProduct) {
    p.description.Null? || Truthy(p.description)
  }

  /** Provider 1 item: `product_id`, `product_name`, `product_desc`, `pricing.amount`,
      `pricing.currency_code`, `stock.in_stock`, `last_modified`. Reading through a
      missing `pricing` or `stock` throws. */
  function SnakeCaseItem(item: Value): (r: Result<NormalizedProduct>)
    ensures r.Ok? <==> !IsNullish(item) && !IsNullish(Field(item, "pricing")) && !IsNullish(Field(item, "stock"))
    ensures r.Ok? ==> DescriptionDefaulted(r.value)
  {
    var id :- Get(item, "product_id");
    var name :- Get(item, "product_name");
    var description :- Get(item, "product_desc");
    var pricing :- Get(item, "pricing");
    var amount :- Get(pricing, "amount");
    var currency :- Get(pricing, "currency_code");
    var stock :- Get(item, "stock");
    var inStock :- Get(stock, "in_stock");
    var modified :- Get(item, "last_modified");
    Ok(NormalizedProduct(id, name, OrNull(description), amount, currency, inStock, modified))
  }

  /** Provider 2 item: `itemId`, `title`, `details`, `cost`, `currencyType`, `isAvailable`, `updatedAt`. */
  function CamelCaseItem(item: Value): (r: Result<NormalizedProduct>)
    ensures r.Ok? <==> !IsNullish(item)
    ensures r.Ok? ==> DescriptionDefaulted(r.value)
  {
    var id :- Get(item, "itemId");
    var title :- Get(item, "title");
    var details :- Get(item, "details");
    var cost :- Get(item, "cost");
    var currency :- Get(item, "currencyType");
    var available :- Get(item, "isAvailable");
    var updated :- Get(item, "updatedAt");
    Ok(NormalizedProduct(id, title, OrNull(details), cost, currency, available, updated))
  }

  /** Provider 3 item: `ID`, `NAME`, `DESCRIPTION`, `PRICE`, `CURRENCY`, `AVAILABLE`, `LAST_UPDATE`. */
  function UpperCaseItem(item: Value): (r: Result<NormalizedProduct>)
    ensures r.Ok? <==> !IsNullish(item)
    ensures r.Ok? ==> DescriptionDefaulted(r.value)
  {
    var id :- Get(item, "ID");
    var name :- Get(item, "NAME");
    var description :- Get(item, "DESCRIPTION");
    var price :- Get(item, "PRICE");
    var currency :- Get(item, "CURRENCY");
    var available :- Get(item, "AVAILABLE");
    var updated :- Get(item, "LAST_UPDATE");
    Ok(NormalizedProduct(id, name, OrNull(description), price, currency, available, updated))
  }

  function ItemOf(schema: Schema, item: Value): Result<NormalizedProduct> {
    match schema
    case SnakeCase => SnakeCaseItem(item)
    case CamelCase => CamelCaseItem(item)
    case UpperCase => UpperCaseItem(item)
  }

  /** `items.map(...)`: one record per item, in order, or the first failing item's TypeError. */
  function MapItems(schema: Schema, items: seq<Value>): (r: Result<seq<NormalizedProduct>>)
    ensures r.Ok? <==> forall i :: 0 <= i < |items| ==> ItemOf(schema, items[i]).Ok?
    ensures r.Ok? ==> |r.value| == |items|
    ensures r.Ok? ==> forall i :: 0 <= i < |items| ==> r.value[i] == ItemOf(schema, items[i]).value
  {
    if items == [] then Ok([])
    else
      match ItemOf(schema, items[0])
      case TypeError(m) => TypeError(m)
      case Ok(head) =>
        match MapItems(schema, items[1..])
        case TypeError(m) =>
          assert forall i :: 0 <= i < |items| - 1 ==> items[1..][i] == items[i + 1];
          TypeError(m)
        case Ok(tail) =>
          assert forall i :: 1 <= i < |items| ==> items[i] == items[1..][i - 1];
          Ok([head] + tail)
  }

  /** `data.catalog?.items`; only reading `catalog` off a null or undefined payload throws. */
  function CatalogItems(raw: Value): (r: Result<Value>)
    ensures r.TypeError? <==> IsNullish(raw)
    ensures r.Ok? ==> r.value == OptionalGet(OptionalGet(raw, "catalog"), "items")
  {
    var catalog :- Get(raw, "catalog");
    Ok(OptionalGet(catalog, "items"))
  }

  /** `r` is what mapping `items` with `schema` gives: every item's record, in order, when
      each item maps, and a TypeError when one of them throws. */
  ghost predicate MapsAll(r: Result<seq<NormalizedProduct>>, schema: Schema, items: seq<Value>) {
    && ((forall i :: 0 <= i < |items| ==> ItemOf(schema, items[i]).Ok?) ==>
          r.Ok? && |r.value| == |items| && forall i :: 0 <= i < |items| ==> r.value[i] == ItemOf(schema, items[i]).value)
    && ((exists i :: 0 <= i < |items| && ItemOf(schema, items[i]).TypeError?) ==> r.TypeError?)
  }

  // Reference readings of the adapters' guards: the item list an adapter maps, empty
  // whenever a guard rejects the payload.

  function Located1(raw: Value): seq<Value> {
    var items := OptionalGet(OptionalGet(raw, "catalog"), "items");
    if items.Arr? then items.items else []
  }

  function Located2(raw: Value): seq<Value> {
    if raw.Arr? then raw.items else if OptionalGet(raw, "products").Arr? then OptionalGet(raw, "products").items else []
  }

  function Located3(raw: Value): seq<Value> {
    if Truthy(OptionalGet(raw, "success")) && OptionalGet(raw, "data").Arr? then OptionalGet(raw, "data").items else []
  }

  function LocatedGeneric(raw: Value): (Schema, seq<Value>) {
    if OptionalGet(raw, "products").Arr? then (CamelCase, OptionalGet(raw, "products").items)
    else if raw.Arr? then (CamelCase, raw.items)
    else (UpperCase, Located3(raw))
  }

  /** The item list and layout the dispatcher maps for `providerId`. */
  function Located(providerId: string, raw: Value): (Schema, seq<Value>) {
    match providerId
    case "provider1" => (SnakeCase, Located1(raw))
    case "provider2" => (CamelCase, Located2(raw))
    case "provider3" => (UpperCase, Located3(raw))
    case _ => LocatedGeneric(raw)
  }

  /** normalizeProvider1Data: throws on a nullish payload, otherwise maps `catalog.items`
      when it is an array. */
  function NormalizeProvider1(raw: Value): (r: Result<seq<NormalizedProduct>>)
    ensures IsNullish(raw) ==> r.TypeError?
    ensures !IsNullish(raw) ==> MapsAll(r, SnakeCase, Located1(raw))
  {
    var items :- CatalogItems(raw);
    if !Truthy(items) || !IsArray(items) then Ok([])
    else MapItems(SnakeCase, items.items)
  }

  /** The list normalizeProvider2Data maps: the payload if it is an array, else `data.products || []`. */
  function CamelCaseList(raw: Value): (r: Result<Value>)
    ensures r.TypeError? <==> IsNullish(raw)
    ensures r.Ok? && IsArray(r.value) ==> r.value.items == Located2(raw)
    ensures r.Ok? && !IsArray(r.value) ==> Located2(raw) == []
  {
    if IsArray(raw) then Ok(raw)
    else
      var products :- Get(raw, "products");
      Ok(Or(products, Arr([])))
  }

  /** normalizeProvider2Data: throws on a nullish payload, otherwise maps the payload when it
      is an array and `products` when that is. */
  function NormalizeProvider2(raw: Value): (r: Result<seq<NormalizedProduct>>)
    ensures IsNullish(raw) ==> r.TypeError?
    ensures !IsNullish(raw) ==> MapsAll(r, CamelCase, Located2(raw))
  {
    var products :- CamelCaseList(raw);
    if !IsArray(products) then Ok([])
    else MapItems(CamelCase, products.items)
  }

  /** normalizeProvider3Data: `data.success` is read first, so a nullish payload throws;
      otherwise `data` is mapped when `success` is truthy and `data` is an array. */
  function NormalizeProvider3(raw: Value): (r: Result<seq<NormalizedProduct>>)
    ensures IsNullish(raw) ==> r.TypeError?
    ensures !IsNullish(raw) ==> MapsAll(r, UpperCase, Located3(raw))
  {
    var success :- Get(raw, "success");
    if !Truthy(success) then Ok([])
    else
      var data :- Get(raw, "data");
      if !Truthy(data) || !IsArray(data) then Ok([])
      else MapItems(UpperCase, data.items)
  }

  /** attemptGenericNormalization: `{products: [...]}` by provider-2 rules, then a bare array
      by provider-2 rules, then `{data: [...]}` by provider-3 rules. */
  function GenericNormalization(raw: Value): (r: Result<seq<NormalizedProduct>>)
    ensures IsNullish(raw) ==> r.TypeError?
    ensures !IsNullish(raw) ==> MapsAll(r, LocatedGeneric(raw).0, LocatedGeneric(raw).1)
  {
    var products :- Get(raw, "products");
    if Truthy(products) && IsArray(products) then NormalizeProvider2(products)
    else if IsArray(raw) then NormalizeProvider2(raw)
    else
      var data :- Get(raw, "data");
      if Truthy(data) && IsArray(data) then NormalizeProvider3(raw)
      else Ok([])
  }

  /** The `switch` on the provider id. */
  function Dispatch(providerId: string, raw: Value): (r: Result<seq<NormalizedProduct>>)
    ensures IsNullish(raw) ==> r.TypeError?
    ensures !IsNullish(raw) ==> MapsAll(r, Located(providerId, raw).0, Located(providerId, raw).1)
  {
    match providerId
    case "provider1" => NormalizeProvider1(raw)
    case "provider2" => NormalizeProvider2(raw)
    case "provider3" => NormalizeProvider3(raw)
    case _ => GenericNormalization(raw)
  }

  /** normalizeProviderData: the dispatch inside `try`, an empty list from `catch`. It never
      yields a partial list: either every item of the located list maps and the result is
      their records in order, or the result is empty. */
  function NormalizeProviderData(providerId: string, raw: Value): (r: seq<NormalizedProduct>)
    ensures var (schema, items) := Located(providerId, raw);
      && ((forall i :: 0 <= i < |items| ==> ItemOf(schema, items[i]).Ok?) ==>
            |r| == |items| && forall i :: 0 <= i < |items| ==> r[i] == ItemOf(schema, items[i]).value)
      && ((exists i :: 0 <= i < |items| && ItemOf(schema, items[i]).TypeError?) ==> r == [])
    ensures IsNullish(raw) ==> r == []
  {
    match Dispatch(providerId, raw)
    case Ok(products) => products
    case TypeError(_) => []
  }

  // ---------------------------------------------------------------------------
  // Properties

  /** A null or undefined payload yields no records for any provider id: every adapter
      throws on it and the dispatcher catches. */
  lemma NullishPayloadIsEmpty(providerId: string, raw: Value)
    requires IsNullish(raw)
    ensures NormalizeProviderData(providerId, raw) == []
  {
  }

  /** Provider 1: no records unless `catalog.items` is an array. */
  lemma Provider1NeedsItemsArray(raw: Value)
    requires !OptionalGet(OptionalGet(raw, "catalog"), "items").Arr?
    ensures NormalizeProviderData("provider1", raw) == []
  {
  }

  /** Provider 1: one record per item, in order, with id <- product_id, name <- product_name,
      description <- product_desc or null, price <- pricing.amount,
      currency <- pricing.currency_code, availability <- stock.in_stock,
      lastUpdated <- last_modified; and no record at all if any item lacks `pricing` or `stock`. */
  lemma Provider1Mapping(raw: Value, items: seq<Value>)
    requires !IsNullish(raw) && OptionalGet(Field(raw, "catalog"), "items") == Arr(items)
    ensures var r := NormalizeProviderData("provider1", raw);
      && ((forall i :: 0 <= i < |items| ==> SnakeCaseItem(items[i]).Ok?) ==>
            |r| == |items| &&
            forall i :: 0 <= i < |items| ==>
              var item, pricing, stock := items[i], Field(items[i], "pricing"), Field(items[i], "stock");
              r[i] == NormalizedProduct(
                Field(item, "product_id"), Field(item, "product_name"), OrNull(Field(item, "product_desc")),
                Field(pricing, "amount"), Field(pricing, "currency_code"), Field(stock, "in_stock"),
                Field(item, "last_modified")))
      && ((exists i :: 0 <= i < |items| && (IsNullish(Field(items[i], "pricing")) || IsNullish(Field(items[i], "stock")))) ==>
            r == [])
  {
    assert Located("provider1", raw) == (SnakeCase, items);
  }

  /** Provider 2: a bare array and `{products: array}` give the same records, one per item,
      in order, with id <- itemId, name <- title, description <- details or null,
      price <- cost, currency <- currencyType, availability <- isAvailable,
      lastUpdated <- updatedAt. */
  lemma Provider2Mapping(items: seq<Value>, wrapper: map<string, Value>)
    requires "products" in wrapper && wrapper["products"] == Arr(items)
    ensures NormalizeProviderData("provider2", Obj(wrapper)) == NormalizeProviderData("provider2", Arr(items))
    ensures var r := NormalizeProviderData("provider2", Arr(items));
      && ((forall i :: 0 <= i < |items| ==> !IsNullish(items[i])) ==>
            |r| == |items| &&
            forall i :: 0 <= i < |items| ==>
              var item := items[i];
              r[i] == NormalizedProduct(
                Field(item, "itemId"), Field(item, "title"), OrNull(Field(item, "details")), Field(item, "cost"),
                Field(item, "currencyType"), Field(item, "isAvailable"), Field(item, "updatedAt")))
      && ((exists i :: 0 <= i < |items| && IsNullish(items[i])) ==> r == [])
  {
    assert Located("provider2", Obj(wrapper)) == Located("provider2", Arr(items));
  }

  /** Provider 2: any payload that is neither an array nor `{products: array}` yields nothing. */
  lemma Provider2OtherShapesEmpty(raw: Value)
    requires !raw.Arr? && !OptionalGet(raw, "products").Arr?
    ensures NormalizeProviderData("provider2", raw) == []
  {
  }

  /** Provider 3: nothing unless `success` is truthy and `data` is an array, even when
      `data` holds items; otherwise one record per item with id <- ID, name <- NAME,
      description <- DESCRIPTION or null, price <- PRICE, currency <- CURRENCY,
      availability <- AVAILABLE, lastUpdated <- LAST_UPDATE. */
  lemma Provider3Mapping(raw: Value)
    requires !IsNullish(raw)
    ensures !Truthy(Field(raw, "success")) || !Field(raw, "data").Arr? ==>
      NormalizeProviderData("provider3", raw) == []
    ensures Truthy(Field(raw, "success")) && Field(raw, "data").Arr? ==>
      var items := Field(raw, "data").items;
      var r := NormalizeProviderData("provider3", raw);
      (forall i :: 0 <= i < |items| ==> !IsNullish(items[i])) ==>
        |r| == |items| &&
        forall i :: 0 <= i < |items| ==>
          var item := items[i];
          r[i] == NormalizedProduct(
            Field(item, "ID"), Field(item, "NAME"), OrNull(Field(item, "DESCRIPTION")), Field(item, "PRICE"),
            Field(item, "CURRENCY"), Field(item, "AVAILABLE"), Field(item, "LAST_UPDATE"))
  {
  }

  /** In every provider's records an absent or empty description is `null`, never `""`. */
  lemma DescriptionNeverEmpty(providerId: string, raw: Value)
    ensures forall p :: p in NormalizeProviderData(providerId, raw) ==>
      DescriptionDefaulted(p) && p.description != Str("")
  {
    var (schema, items) := Located(providerId, raw);
    var r := NormalizeProviderData(providerId, raw);
    forall p | p in r
      ensures DescriptionDefaulted(p)
    {
      var i :| 0 <= i < |r| && r[i] == p;
      assert |r| == |items| && r[i] == ItemOf(schema, items[i]).value;
    }
  }

  /** The dispatcher: the three known ids go to their own adapter; any other id goes to the
      generic fallback, which tries `{products: array}` (provider 2 rules), then a bare array
      (provider 2 rules), then `{data: array}` (provider 3 rules, so `success` must still be
      truthy), and otherwise yields nothing. */
  lemma DispatchAndFallbackOrder(providerId: string, raw: Value)
    requires !IsNullish(raw)
    ensures providerId !in {"provider1", "provider2", "provider3"} ==>
      var products := Field(raw, "products");
      var r := NormalizeProviderData(providerId, raw);
      && (products.Arr? ==> r == NormalizeProviderData("provider2", products))
      && (!products.Arr? && raw.Arr? ==> r == NormalizeProviderData("provider2", raw))
      && (!products.Arr? && !raw.Arr? && Field(raw, "data").Arr? ==> r == NormalizeProviderData("provider3", raw))
      && (!products.Arr? && !raw.Arr? && !Field(raw, "data").Arr? ==> r == [])
  {
    var products := Field(raw, "products");
    if providerId !in {"provider1", "provider2", "provider3"} {
      assert Dispatch(providerId, raw) == GenericNormalization(raw);
      if products.Arr? {
        assert Dispatch("provider2", products) == NormalizeProvider2(products);
      } else if raw.Arr? {
        assert Dispatch("provider2", raw) == NormalizeProvider2(raw);
      } else if Field(raw, "data").Arr? {
        assert Dispatch("provider3", raw) == NormalizeProvider3(raw);
      }
    }
  }
}
