/** AggregationService: for each configured provider in order, fetch its payload, take it
    as a product list only if it is an array, and upsert every item by natural key,
    appending a price-history entry before overwriting a row whose price changed. The
    service does not call the provider adapters. */
module Aggregation {
  import opened Wrappers
  import opened Json
  import opened Catalog
  import ProviderAdapters

  /** What a failed fetch threw: an `Error` carries a message; anything else reads as
      'Unknown error' in the summary. */
  datatype Thrown = ErrorObject(message: string) | NonError

  function ErrorMessage(t: Thrown): string {
    match t
    case ErrorObject(m) => m
    case NonError => "Unknown error"
  }

  datatype FetchOutcome = Fetched(payload: Value) | FetchFailed(thrown: Thrown)

  /** Which store call for one product throws, if any: the key lookup, the history insert,
      or the row create/update. */
  datatype Fault = NoFault | FailLookup | FailHistory | FailWrite

  /** The collaborators of one run: what fetching each URL yields, which store calls fail
      (by provider position and item position), `new Date(v)` where it gives a valid date,
      and the time the store stamps history entries with. */
  datatype Env = Env(
    fetch: string -> FetchOutcome,
    faults: (nat, nat) -> Fault,
    toDate: Value -> Option<Timestamp>,
    at: Timestamp)

  datatype Summary = Succeeded(providerId: string, count: nat) | Failed(providerId: string, error: string)

  /** A field of `productData` as the store takes it: `undefined` leaves the column as it
      is on update (and is a missing required argument on create). */
  datatype Input<T> = Omitted | Given(value: T)

  /** productData once the store has accepted its field types. The price and the date are
      never omitted: `new Decimal(undefined)` throws, and `new Date(undefined)` is invalid. */
  datatype ProductData = ProductData(
    name: Input<string>,
    description: Input<Option<string>>,
    price: real,
    currency: Input<string>,
    availability: Input<bool>,
    lastUpdated: Timestamp)

  function DecodeString(v: Value): Option<Input<string>> {
    match v
    case Undefined => Some(Omitted)
    case Str(s) => Some(Given(s))
    case _ => None
  }

  function DecodeBool(v: Value): Option<Input<bool>> {
    match v
    case Undefined => Some(Omitted)
    case Bool(b) => Some(Given(b))
    case _ => None
  }

  /** `description` is optional: `null` clears it, `undefined` leaves it. */
  function DecodeDescription(v: Value): Option<Input<Option<string>>> {
    match v
    case Undefined => Some(Omitted)
    case Null => Some(Given(None))
    case Str(s) => Some(Given(Some(s)))
    case _ => None
  }

  /** The row data built from an item read as `{name, description, price, currency,
      availability, lastUpdated}`; `None` when the store would reject a field's type. */
  function DecodeData(item: Value, toDate: Value -> Option<Timestamp>): (r: Option<ProductData>)
    ensures r.Some? <==>
      && Field(item, "price").Num? && toDate(Field(item, "lastUpdated")).Some?
      && (Field(item, "name").Undefined? || Field(item, "name").Str?)
      && (Field(item, "currency").Undefined? || Field(item, "currency").Str?)
      && (Field(item, "availability").Undefined? || Field(item, "availability").Bool?)
      && (Field(item, "description").Undefined? || Field(item, "description").Null? || Field(item, "description").Str?)
    ensures r.Some? ==> Num(r.value.price) == Field(item, "price") && Some(r.value.lastUpdated) == toDate(Field(item, "lastUpdated"))
  {
    var name, currency := DecodeString(Field(item, "name")), DecodeString(Field(item, "currency"));
    var available, description := DecodeBool(Field(item, "availability")), DecodeDescription(Field(item, "description"));
    var price, lastUpdated := Field(item, "price"), toDate(Field(item, "lastUpdated"));
    if name.Some? && description.Some? && price.Num? && currency.Some? && available.Some? && lastUpdated.Some? then
      Some(ProductData(name.value, description.value, price.n, currency.value, available.value, lastUpdated.value))
    else None
  }

  /** Every field a created row needs is present. */
  predicate Complete(d: ProductData) {
    d.name.Given? && d.currency.Given? && d.availability.Given?
  }

  /** `T` under an input: the given value, or the stored one when the input is omitted. */
  function Apply<T>(i: Input<T>, stored: T): T {
    if i.Given? then i.value else stored
  }

  function NewRow(id: ProductId, key: Key, d: ProductData): Product
    requires Complete(d)
  {
    Product(id, key.0, key.1, d.name.value, Apply(d.description, None),
            d.price, d.currency.value, d.availability.value, d.lastUpdated)
  }

  /** `product.update({where: {id}, data})`: the id and natural key stay, every given field is replaced. */
  function Overwrite(p: Product, d: ProductData): (r: Product)
    ensures r.id == p.id && KeyOf(r) == KeyOf(p)
    ensures r.price == d.price && r.lastUpdated == d.lastUpdated
    ensures d.name.Omitted? && d.description.Omitted? && d.currency.Omitted? && d.availability.Omitted? ==>
      r == p.(price := d.price, lastUpdated := d.lastUpdated)
  {
    p.(name := Apply(d.name, p.name), description := Apply(d.description, p.description),
       price := d.price, currency := Apply(d.currency, p.currency),
       availability := Apply(d.availability, p.availability), lastUpdated := d.lastUpdated)
  }

  datatype StepOutcome = Processed | Skipped | Threw(message: string)

  datatype Step = Step(store: Store, outcome: StepOutcome)

  /** One iteration of the product loop. A null or undefined item makes the `catch`
      handler itself throw while it reads `product.id`, which ends the provider. Any
      other failure skips the item; a failed row update after a successful history
      insert leaves that history entry in place. */
  function ProcessItem(s: Store, providerId: string, item: Value, fault: Fault, env: Env): Step {
    if IsNullish(item) then Step(s, Threw(ReadError(item, "id")))
    else
      var externalId := Field(item, "id");
      if !externalId.Str? || fault == FailLookup then Step(s, Skipped)
      else
        var key := (externalId.s, providerId);
        var data := DecodeData(item, env.toDate);
        if key in s.rows then
          var existing := s.rows[key];
          var price := Field(item, "price");
          if !price.Num? then Step(s, Skipped)
          else
            var currency, available := Field(item, "currency"), Field(item, "availability");
            var changed := existing.price != price.n;
            if changed && (!currency.Str? || !available.Bool? || fault == FailHistory) then Step(s, Skipped)
            else
              var history := if changed then
                  s.history + [PriceHistory(existing.id, existing.price, price.n, existing.availability,
                                            available.b, currency.s, PriceChange, env.at)]
                else s.history;
              if data.None? || fault == FailWrite then Step(s.(history := history), Skipped)
              else Step(s.(rows := s.rows[key := Overwrite(existing, data.value)], history := history), Processed)
        else if data.None? || !Complete(data.value) || fault == FailWrite then Step(s, Skipped)
        else Step(Store(s.rows[key := NewRow(s.nextId, key, data.value)], s.history, s.nextId + 1), Processed)
  }

  datatype Progress = Progress(store: Store, processed: seq<Value>, threw: Option<string>)

  /** The product loop's step: stop once something threw, else process `item` and
      record it when it was fully processed. */
  function Advance(p: Progress, providerId: string, item: Value, fault: Fault, env: Env): Progress {
    if p.threw.Some? then p
    else
      var st := ProcessItem(p.store, providerId, item, fault, env);
      match st.outcome
      case Processed => Progress(st.store, p.processed + [item], None)
      case Skipped => Progress(st.store, p.processed, None)
      case Threw(m) => Progress(st.store, p.processed, Some(m))
  }

  /** processProviderProducts over the first `n` items; `index` is the provider's position. */
  function ProcessPrefix(s: Store, providerId: string, items: seq<Value>, n: nat, index: nat, env: Env): Progress
    requires n <= |items|
  {
    if n == 0 then Progress(s, [], None)
    else Advance(ProcessPrefix(s, providerId, items, n - 1, index, env), providerId, items[n - 1], env.faults(index, n - 1), env)
  }

  function ItemsOf(payload: Value): seq<Value> {
    if IsArray(payload) then payload.items else []
  }

  /** The summary the provider at position `i` reports, run on what the earlier ones left. */
  function SummaryAt(s: Store, providers: seq<(string, string)>, i: nat, env: Env): Summary
    requires i < |providers|
  {
    ProviderRun(AggregatePrefix(s, providers, i, env).0, providers[i], i, env).1
  }

  /** One iteration of the provider loop, for the provider at position `index`. */
  function ProviderRun(s: Store, provider: (string, string), index: nat, env: Env): (Store, Summary) {
    var (providerId, url) := provider;
    match env.fetch(url)
    case FetchFailed(t) => (s, Failed(providerId, ErrorMessage(t)))
    case Fetched(payload) =>
      var items := ItemsOf(payload);
      var p := ProcessPrefix(s, providerId, items, |items|, index, env);
      if p.threw.Some? then (p.store, Failed(providerId, p.threw.value))
      else (p.store, Succeeded(providerId, |p.processed|))
  }

  /** aggregateAllProviders over the first `n` providers. */
  function AggregatePrefix(s: Store, providers: seq<(string, string)>, n: nat, env: Env): (Store, seq<Summary>)
    requires n <= |providers|
  {
    if n == 0 then (s, [])
    else Extend(AggregatePrefix(s, providers, n - 1, env), providers[n - 1], n - 1, env)
  }

  /** The provider loop's step: run the provider and append its summary. */
  function Extend(acc: (Store, seq<Summary>), provider: (string, string), index: nat, env: Env): (Store, seq<Summary>) {
    var (s', summary) := ProviderRun(acc.0, provider, index, env);
    (s', acc.1 + [summary])
  }

  // ---------------------------------------------------------------------------
  // One product

  /** How the store may evolve under the aggregator: rows are never removed and keep their
      id and natural key, ids are never reissued, and history is only appended to. */
  ghost predicate GrowsFrom(s: Store, s': Store) {
    && s.rows.Keys <= s'.rows.Keys
    && (forall k :: k in s.rows ==> s'.rows[k].id == s.rows[k].id)
    && s.nextId <= s'.nextId
    && |s.history| <= |s'.history|
    && s'.history[..|s.history|] == s.history
  }

  /** Overwriting a row under its own id and key, and appending history for existing rows, keeps the store valid. */
  lemma UpdateKeepsValid(s: Store, key: Key, p: Product, extra: seq<PriceHistory>)
    requires s.Valid() && key in s.rows
    requires p.id == s.rows[key].id && KeyOf(p) == key
    requires forall h :: h in extra ==> h.productId == p.id
    ensures Store(s.rows[key := p], s.history + extra, s.nextId).Valid()
    ensures GrowsFrom(s, Store(s.rows[key := p], s.history + extra, s.nextId))
  {
    var s' := Store(s.rows[key := p], s.history + extra, s.nextId);
    assert s.Ids() <= s'.Ids() by {
      forall id | id in s.Ids() ensures id in s'.Ids() {
        var k :| k in s.rows && s.rows[k].id == id;
        assert s'.rows[k].id == id;
      }
    }
    assert p.id in s'.Ids();
    assert s'.history[..|s.history|] == s.history;
  }

  /** Inserting a row under a new key with the next id keeps the store valid. */
  lemma InsertKeepsValid(s: Store, key: Key, p: Product)
    requires s.Valid() && key !in s.rows
    requires p.id == s.nextId && KeyOf(p) == key
    ensures Store(s.rows[key := p], s.history, s.nextId + 1).Valid()
    ensures GrowsFrom(s, Store(s.rows[key := p], s.history, s.nextId + 1))
  {
    var s' := Store(s.rows[key := p], s.history, s.nextId + 1);
    assert s.Ids() <= s'.Ids() by {
      forall id | id in s.Ids() ensures id in s'.Ids() {
        var k :| k in s.rows && s.rows[k].id == id;
        assert s'.rows[k].id == id;
      }
    }
    assert s'.history[..|s.history|] == s.history;
  }

  /** `s'` is a valid growth of `s` that differs from it at most under the item's natural key. */
  ghost predicate StepIsLocal(s: Store, s': Store, providerId: string, item: Value) {
    && s'.Valid()
    && GrowsFrom(s, s')
    && (forall k :: k in s'.rows && (!Field(item, "id").Str? || k != (Field(item, "id").s, providerId)) ==>
          k in s.rows && s'.rows[k] == s.rows[k])
  }

  lemma UnchangedIsLocal(s: Store, providerId: string, item: Value)
    requires s.Valid()
    ensures StepIsLocal(s, s, providerId, item)
  {
    assert s.history[..|s.history|] == s.history;
  }

  lemma ExistingKeyStepIsLocal(s: Store, providerId: string, item: Value, fault: Fault, env: Env)
    requires s.Valid() && !IsNullish(item) && Field(item, "id").Str? && fault != FailLookup
    requires (Field(item, "id").s, providerId) in s.rows
    ensures StepIsLocal(s, ProcessItem(s, providerId, item, fault, env).store, providerId, item)
  {
    var st := ProcessItem(s, providerId, item, fault, env);
    var key := (Field(item, "id").s, providerId);
    var existing := s.rows[key];
    var price := Field(item, "price");
    var currency, available := Field(item, "currency"), Field(item, "availability");
    if !price.Num? || (existing.price != price.n && (!currency.Str? || !available.Bool? || fault == FailHistory)) {
      assert st.store == s;
      UnchangedIsLocal(s, providerId, item);
    } else {
      var extra := if existing.price != price.n then
          [PriceHistory(existing.id, existing.price, price.n, existing.availability, available.b, currency.s, PriceChange, env.at)]
        else [];
      assert s.history + [] == s.history;
      var data := DecodeData(item, env.toDate);
      if data.None? || fault == FailWrite {
        assert st.store == Store(s.rows, s.history + extra, s.nextId);
        UpdateKeepsValid(s, key, existing, extra);
        assert s.rows[key := existing] == s.rows;
      } else {
        assert st.store == Store(s.rows[key := Overwrite(existing, data.value)], s.history + extra, s.nextId);
        UpdateKeepsValid(s, key, Overwrite(existing, data.value), extra);
      }
    }
  }

  lemma NewKeyStepIsLocal(s: Store, providerId: string, item: Value, fault: Fault, env: Env)
    requires s.Valid() && !IsNullish(item) && Field(item, "id").Str? && fault != FailLookup
    requires (Field(item, "id").s, providerId) !in s.rows
    ensures StepIsLocal(s, ProcessItem(s, providerId, item, fault, env).store, providerId, item)
  {
    var st := ProcessItem(s, providerId, item, fault, env);
    var key := (Field(item, "id").s, providerId);
    var data := DecodeData(item, env.toDate);
    if data.None? || !Complete(data.value) || fault == FailWrite {
      assert st.store == s;
      UnchangedIsLocal(s, providerId, item);
    } else {
      assert st.store == Store(s.rows[key := NewRow(s.nextId, key, data.value)], s.history, s.nextId + 1);
      InsertKeepsValid(s, key, NewRow(s.nextId, key, data.value));
    }
  }

  /** One product step keeps the store valid, only grows it, and touches no row other than
      the one under the item's own natural key. */
  lemma ProcessItemIsLocal(s: Store, providerId: string, item: Value, fault: Fault, env: Env)
    requires s.Valid()
    ensures var st := ProcessItem(s, providerId, item, fault, env);
      && st.store.Valid()
      && GrowsFrom(s, st.store)
      && (forall k :: k in st.store.rows && (!Field(item, "id").Str? || k != (Field(item, "id").s, providerId)) ==>
            k in s.rows && st.store.rows[k] == s.rows[k])
  {
    if IsNullish(item) || !Field(item, "id").Str? || fault == FailLookup {
      UnchangedIsLocal(s, providerId, item);
    } else if (Field(item, "id").s, providerId) in s.rows {
      ExistingKeyStepIsLocal(s, providerId, item, fault, env);
    } else {
      NewKeyStepIsLocal(s, providerId, item, fault, env);
    }
  }

  /** The row a create writes for `item`: every column is the item's field, a description
      that is not a string is null. */
  ghost predicate CreatedFrom(p: Product, item: Value, env: Env) {
    && Str(p.name) == Field(item, "name") && Num(p.price) == Field(item, "price")
    && Str(p.currency) == Field(item, "currency") && Bool(p.availability) == Field(item, "availability")
    && Some(p.lastUpdated) == env.toDate(Field(item, "lastUpdated"))
    && (Field(item, "description").Str? ==> p.description == Some(Field(item, "description").s))
    && (!Field(item, "description").Str? ==> p.description == None)
  }

  /** The row an update leaves for `item` over the stored row `prev`: the id and natural key
      stay, price and lastUpdated are the item's, and every other column is the item's
      field where the item has one and the stored value where it is undefined. */
  ghost predicate UpdatedFrom(p: Product, prev: Product, item: Value, env: Env) {
    && p.id == prev.id && p.externalId == prev.externalId && p.providerId == prev.providerId
    && Num(p.price) == Field(item, "price")
    && Some(p.lastUpdated) == env.toDate(Field(item, "lastUpdated"))
    && (if Field(item, "name").Undefined? then p.name == prev.name else Str(p.name) == Field(item, "name"))
    && (if Field(item, "currency").Undefined? then p.currency == prev.currency else Str(p.currency) == Field(item, "currency"))
    && (if Field(item, "availability").Undefined? then p.availability == prev.availability
        else Bool(p.availability) == Field(item, "availability"))
    && (Field(item, "description").Undefined? ==> p.description == prev.description)
    && (Field(item, "description").Null? ==> p.description == None)
    && (Field(item, "description").Str? ==> p.description == Some(Field(item, "description").s))
  }

  /** An unseen natural key is created with the incoming fields under a fresh id, and no
      history entry is written. */
  lemma CreatesUnseenProduct(s: Store, providerId: string, item: Value, fault: Fault, env: Env)
    requires s.Valid()
    requires !IsNullish(item) && Field(item, "id").Str?
    requires (Field(item, "id").s, providerId) !in s.rows
    requires DecodeData(item, env.toDate).Some? && Complete(DecodeData(item, env.toDate).value) && fault == NoFault
    ensures var st := ProcessItem(s, providerId, item, fault, env);
      var key := (Field(item, "id").s, providerId);
      && st.outcome == Processed
      && st.store.history == s.history
      && st.store.rows.Keys == s.rows.Keys + {key}
      && var p := st.store.rows[key];
      && p.id !in s.Ids() && p.externalId == Field(item, "id").s && p.providerId == providerId
      && CreatedFrom(p, item, env)
  {
  }

  /** A create needs `name`, `currency` and `availability`: without one of them an unseen
      product is skipped and nothing is stored. */
  lemma CreateNeedsRequiredFields(s: Store, providerId: string, item: Value, fault: Fault, env: Env)
    requires !IsNullish(item) && Field(item, "id").Str?
    requires (Field(item, "id").s, providerId) !in s.rows
    requires Field(item, "name").Undefined? || Field(item, "currency").Undefined? || Field(item, "availability").Undefined?
    ensures ProcessItem(s, providerId, item, fault, env) == Step(s, Skipped)
  {
  }

  /** A stored row whose price is not exactly the incoming price gets exactly one history
      entry (old and new price, old and new availability, the incoming currency,
      `price_change`), appended before the row is overwritten under its existing id. */
  lemma PriceChangeAppendsOneEntry(s: Store, providerId: string, item: Value, fault: Fault, env: Env)
    requires s.Valid()
    requires !IsNullish(item) && Field(item, "id").Str?
    requires (Field(item, "id").s, providerId) in s.rows
    requires DecodeData(item, env.toDate).Some? && fault == NoFault
    requires Field(item, "currency").Str? && Field(item, "availability").Bool?
    requires Num(s.rows[(Field(item, "id").s, providerId)].price) != Field(item, "price")
    ensures var st := ProcessItem(s, providerId, item, fault, env);
      var key := (Field(item, "id").s, providerId);
      var old_ := s.rows[key];
      && st.outcome == Processed
      && st.store.history == s.history + [PriceHistory(old_.id, old_.price, Field(item, "price").n, old_.availability,
                                                       Field(item, "availability").b, Field(item, "currency").s, PriceChange, env.at)]
      && st.store.rows.Keys == s.rows.Keys
      && (forall k :: k in s.rows && k != key ==> st.store.rows[k] == s.rows[k])
      && UpdatedFrom(st.store.rows[key], old_, item, env)
  {
  }

  /** The history insert of a price change needs the incoming `currency` and
      `availability`: without them it throws, and the product is skipped with nothing written. */
  lemma PriceChangeNeedsCurrencyAndAvailability(s: Store, providerId: string, item: Value, fault: Fault, env: Env)
    requires !IsNullish(item) && Field(item, "id").Str? && fault != FailLookup
    requires (Field(item, "id").s, providerId) in s.rows
    requires Field(item, "price").Num? && s.rows[(Field(item, "id").s, providerId)].price != Field(item, "price").n
    requires !Field(item, "currency").Str? || !Field(item, "availability").Bool?
    ensures ProcessItem(s, providerId, item, fault, env) == Step(s, Skipped)
  {
  }

  /** An exactly equal price appends nothing, but the row is still overwritten, and the
      fields the item leaves undefined keep their stored values. */
  lemma EqualPriceOverwritesOnly(s: Store, providerId: string, item: Value, fault: Fault, env: Env)
    requires s.Valid()
    requires !IsNullish(item) && Field(item, "id").Str?
    requires (Field(item, "id").s, providerId) in s.rows
    requires DecodeData(item, env.toDate).Some? && fault == NoFault
    requires Num(s.rows[(Field(item, "id").s, providerId)].price) == Field(item, "price")
    ensures var st := ProcessItem(s, providerId, item, fault, env);
      var key := (Field(item, "id").s, providerId);
      && st.outcome == Processed
      && st.store.history == s.history
      && st.store.rows.Keys == s.rows.Keys
      && (forall k :: k in s.rows && k != key ==> st.store.rows[k] == s.rows[k])
      && UpdatedFrom(st.store.rows[key], s.rows[key], item, env)
  {
  }

  /** A product whose store step fails is skipped: no row and no id changes. A lookup or
      history failure leaves the store exactly as it was; only a failed row write after a
      price change can leave its history entry behind. */
  lemma FailedProductIsSkipped(s: Store, providerId: string, item: Value, fault: Fault, env: Env)
    requires s.Valid()
    requires ProcessItem(s, providerId, item, fault, env).outcome == Skipped
    ensures var st := ProcessItem(s, providerId, item, fault, env);
      && st.store.rows == s.rows && st.store.nextId == s.nextId
      && (fault == FailLookup || fault == FailHistory ==> st.store == s)
      && (st.store.history == s.history ||
          (fault != FailLookup && |st.store.history| == |s.history| + 1 && st.store.history[..|s.history|] == s.history))
  {
    var st := ProcessItem(s, providerId, item, fault, env);
    assert st.store.history[..|s.history|] == s.history;
  }

  // ---------------------------------------------------------------------------
  // One provider, all providers

  lemma GrowsFromTransitive(s0: Store, s1: Store, s2: Store)
    requires GrowsFrom(s0, s1) && GrowsFrom(s1, s2)
    ensures GrowsFrom(s0, s2)
  {
    assert s2.history[..|s0.history|] == s2.history[..|s1.history|][..|s0.history|];
  }

  /** No row under another provider's id changed between `s` and `s'`. */
  ghost predicate OthersUntouched(s: Store, s': Store, providerId: string) {
    forall k :: k in s'.rows && k.1 != providerId ==> k in s.rows && s'.rows[k] == s.rows[k]
  }

  lemma LocalComposes(s0: Store, s1: Store, s2: Store, providerId: string)
    requires GrowsFrom(s0, s1) && OthersUntouched(s0, s1, providerId)
    requires GrowsFrom(s1, s2) && OthersUntouched(s1, s2, providerId)
    ensures GrowsFrom(s0, s2) && OthersUntouched(s0, s2, providerId)
  {
    GrowsFromTransitive(s0, s1, s2);
  }

  lemma ItemStepFacts(s: Store, providerId: string, item: Value, fault: Fault, env: Env)
    requires s.Valid()
    ensures var st := ProcessItem(s, providerId, item, fault, env);
      st.store.Valid() && GrowsFrom(s, st.store) && OthersUntouched(s, st.store, providerId)
  {
    ProcessItemIsLocal(s, providerId, item, fault, env);
  }

  lemma AdvanceStore(p: Progress, q: Progress, providerId: string, item: Value, fault: Fault, env: Env)
    requires p.threw.None? && q == Advance(p, providerId, item, fault, env)
    ensures q.store == ProcessItem(p.store, providerId, item, fault, env).store
    ensures |q.processed| <= |p.processed| + 1
  {
  }

  /** One step of the product loop keeps the store valid, only grows it, touches only this
      provider's rows and counts at most the one item. */
  lemma AdvanceIsLocal(s: Store, p: Progress, q: Progress, providerId: string, item: Value, fault: Fault, env: Env)
    requires p.store.Valid() && GrowsFrom(s, p.store) && OthersUntouched(s, p.store, providerId)
    requires q == Advance(p, providerId, item, fault, env)
    ensures q.store.Valid() && GrowsFrom(s, q.store) && OthersUntouched(s, q.store, providerId)
    ensures |q.processed| <= |p.processed| + 1
  {
    if p.threw.None? {
      AdvanceStore(p, q, providerId, item, fault, env);
      ItemStepFacts(p.store, providerId, item, fault, env);
      LocalComposes(s, p.store, q.store, providerId);
    }
  }

  /** Processing a provider's items keeps the store valid, only grows it, leaves every other
      provider's rows alone, and counts only the items it fully processed. */
  lemma {:induction false} ProcessPrefixIsLocal(s: Store, providerId: string, items: seq<Value>, n: nat, index: nat, env: Env)
    requires s.Valid() && n <= |items|
    ensures var p := ProcessPrefix(s, providerId, items, n, index, env);
      p.store.Valid() && GrowsFrom(s, p.store) && OthersUntouched(s, p.store, providerId) && |p.processed| <= n
  {
    if n == 0 {
      assert s.history[..|s.history|] == s.history;
    } else {
      ProcessPrefixIsLocal(s, providerId, items, n - 1, index, env);
      AdvanceIsLocal(s, ProcessPrefix(s, providerId, items, n - 1, index, env), ProcessPrefix(s, providerId, items, n, index, env),
                     providerId, items[n - 1], env.faults(index, n - 1), env);
    }
  }

  lemma ProviderRunIsLocal(s: Store, provider: (string, string), index: nat, env: Env)
    requires s.Valid()
    ensures var (s', _) := ProviderRun(s, provider, index, env);
      s'.Valid() && GrowsFrom(s, s') && OthersUntouched(s, s', provider.0)
  {
    if env.fetch(provider.1).Fetched? {
      var items := ItemsOf(env.fetch(provider.1).payload);
      ProcessPrefixIsLocal(s, provider.0, items, |items|, index, env);
    } else {
      assert s.history[..|s.history|] == s.history;
    }
  }

  /** One step of the provider loop keeps the store valid and only grows it. */
  lemma ExtendIsLocal(s: Store, acc: (Store, seq<Summary>), r: (Store, seq<Summary>), provider: (string, string), index: nat, env: Env)
    requires acc.0.Valid() && GrowsFrom(s, acc.0)
    requires r == Extend(acc, provider, index, env)
    ensures r.0.Valid() && GrowsFrom(s, r.0)
  {
    ProviderRunIsLocal(acc.0, provider, index, env);
    GrowsFromTransitive(s, acc.0, r.0);
  }

  lemma {:induction false} AggregateIsLocal(s: Store, providers: seq<(string, string)>, n: nat, env: Env)
    requires s.Valid() && n <= |providers|
    ensures var s' := AggregatePrefix(s, providers, n, env).0; s'.Valid() && GrowsFrom(s, s')
  {
    if n == 0 {
      assert s.history[..|s.history|] == s.history;
    } else {
      AggregateIsLocal(s, providers, n - 1, env);
      ExtendIsLocal(s, AggregatePrefix(s, providers, n - 1, env), AggregatePrefix(s, providers, n, env), providers[n - 1], n - 1, env);
    }
  }

  lemma ProviderRunNamesProvider(s: Store, provider: (string, string), index: nat, env: Env)
    ensures ProviderRun(s, provider, index, env).1.providerId == provider.0
  {
  }

  /** `results` are the summaries of the first `n` providers, in order. */
  ghost predicate ListsSummaries(results: seq<Summary>, s: Store, providers: seq<(string, string)>, n: nat, env: Env)
    requires n <= |providers|
  {
    |results| == n && forall i :: 0 <= i < n ==> results[i] == SummaryAt(s, providers, i, env)
  }

  lemma SummariesStep(s: Store, providers: seq<(string, string)>, n: nat, env: Env, prev: seq<Summary>, last: Summary, cur: seq<Summary>)
    requires 0 < n <= |providers|
    requires ListsSummaries(prev, s, providers, n - 1, env)
    requires last == SummaryAt(s, providers, n - 1, env) && cur == prev + [last]
    ensures ListsSummaries(cur, s, providers, n, env)
  {
  }

  /** The summary has exactly one entry per configured provider, in iteration order, each
      being that provider's own run on the store the earlier providers left. */
  lemma {:induction false} SummariesInOrder(s: Store, providers: seq<(string, string)>, n: nat, env: Env)
    requires n <= |providers|
    ensures ListsSummaries(AggregatePrefix(s, providers, n, env).1, s, providers, n, env)
  {
    if n > 0 {
      SummariesInOrder(s, providers, n - 1, env);
      var prev := AggregatePrefix(s, providers, n - 1, env);
      SummariesStep(s, providers, n, env, prev.1, SummaryAt(s, providers, n - 1, env), AggregatePrefix(s, providers, n, env).1);
    }
  }

  /** Together with the store: it stays valid and only grows, and each summary names its provider. */
  lemma OneSummaryPerProvider(s: Store, providers: seq<(string, string)>, n: nat, env: Env)
    requires s.Valid() && n <= |providers|
    ensures var (s', results) := AggregatePrefix(s, providers, n, env);
      && s'.Valid() && GrowsFrom(s, s')
      && |results| == n
      && forall i :: 0 <= i < n ==> results[i] == SummaryAt(s, providers, i, env) && results[i].providerId == providers[i].0
  {
    AggregateIsLocal(s, providers, n, env);
    SummariesInOrder(s, providers, n, env);
    forall i | 0 <= i < n
      ensures SummaryAt(s, providers, i, env).providerId == providers[i].0
    {
      ProviderRunNamesProvider(AggregatePrefix(s, providers, i, env).0, providers[i], i, env);
    }
  }

  /** A failed fetch yields `{providerId, success: false, error}` with the thrown message
      (or 'Unknown error'), leaves the store as it was, and the providers after it still run. */
  lemma FetchFailureIsIsolated(s: Store, providers: seq<(string, string)>, i: nat, env: Env)
    requires s.Valid() && i < |providers|
    requires env.fetch(providers[i].1).FetchFailed?
    ensures var results := AggregatePrefix(s, providers, |providers|, env).1;
      && |results| == |providers|
      && results[i] == Failed(providers[i].0, ErrorMessage(env.fetch(providers[i].1).thrown))
      && AggregatePrefix(s, providers, i + 1, env).0 == AggregatePrefix(s, providers, i, env).0
      && forall j :: i < j < |providers| ==> results[j] == SummaryAt(s, providers, j, env)
  {
    SummariesInOrder(s, providers, |providers|, env);
  }

  /** A payload that is not an array is processed as an empty list: success, count 0, store unchanged. */
  lemma NonArrayPayloadCountsZero(s: Store, provider: (string, string), index: nat, env: Env)
    requires env.fetch(provider.1).Fetched? && !IsArray(env.fetch(provider.1).payload)
    ensures ProviderRun(s, provider, index, env) == (s, Succeeded(provider.0, 0))
  {
  }

  /** An item that is null or undefined inside an array payload fails the whole provider
      with the TypeError the `catch` handler raises while it reads `product.id`; what the
      items before it stored stays committed, and the items after it are never read. */
  lemma NullItemFailsProvider(s: Store, provider: (string, string), items: seq<Value>, i: nat, index: nat, env: Env)
    requires env.fetch(provider.1) == Fetched(Arr(items))
    requires i < |items| && IsNullish(items[i])
    requires ProcessPrefix(s, provider.0, items, i, index, env).threw.None?
    ensures ProviderRun(s, provider, index, env) ==
      (ProcessPrefix(s, provider.0, items, i, index, env).store, Failed(provider.0, ReadError(items[i], "id")))
    ensures items[i].Null? ==> ReadError(items[i], "id") == "Cannot read properties of null (reading 'id')"
  {
    var p := ProcessPrefix(s, provider.0, items, i, index, env);
    NullishItemThrows(p, provider.0, items[i], env.faults(index, i), env);
    assert ProcessPrefix(s, provider.0, items, i + 1, index, env) == Progress(p.store, p.processed, Some(ReadError(items[i], "id")));
    ThrowIsFinal(s, provider.0, items, i + 1, |items|, index, env);
    FetchedArrayRun(s, provider, items, index, env);
    if items[i].Null? {
      NullIdMessage();
    }
  }

  /** V8's message for the `product.id` read on null. */
  lemma NullIdMessage()
    ensures ReadError(Null, "id") == "Cannot read properties of null (reading 'id')"
  {
  }

  /** The provider loop's step on an array payload, the threw check separated out. */
  lemma FetchedArrayRun(s: Store, provider: (string, string), items: seq<Value>, index: nat, env: Env)
    requires env.fetch(provider.1) == Fetched(Arr(items))
    ensures var p := ProcessPrefix(s, provider.0, items, |items|, index, env);
      p.threw.Some? ==> ProviderRun(s, provider, index, env) == (p.store, Failed(provider.0, p.threw.value))
  {
    assert ItemsOf(Arr(items)) == items;
  }

  lemma NullishItemThrows(p: Progress, providerId: string, item: Value, fault: Fault, env: Env)
    requires p.threw.None? && IsNullish(item)
    ensures Advance(p, providerId, item, fault, env) == Progress(p.store, p.processed, Some(ReadError(item, "id")))
  {
  }

  // ---------------------------------------------------------------------------
  // The service never normalises

  /** The provider-1 payload of the service's own unit tests: one nested snake_case item. */
  function NestedTestPayload(): Value {
    Obj(map[
      "metadata" := Obj(map["provider" := Str("Test"), "version" := Str("1.0"), "timestamp" := Str("2025-09-30T10:00:00Z")]),
      "catalog" := Obj(map["items" := Arr([
        Obj(map[
          "product_id" := Str("ext-1"), "product_name" := Str("Test Product 1"),
          "product_desc" := Str("Description 1"),
          "pricing" := Obj(map["amount" := Num(99.99), "currency_code" := Str("USD")]),
          "stock" := Obj(map["in_stock" := Bool(true), "quantity" := Num(10.0)]),
          "last_modified" := Str("2025-09-30T10:00:00Z")])])])])
  }

  /** The provider-2 payload of the same tests: a bare array of one camelCase item. */
  function CamelCaseTestPayload(): Value {
    Arr([Obj(map[
      "itemId" := Str("ext-2"), "title" := Str("Test Product 2"), "details" := Str("Description 2"),
      "cost" := Num(149.99), "currencyType" := Str("USD"), "isAvailable" := Bool(true),
      "updatedAt" := Str("2025-09-30T10:00:00Z")])])
  }

  /** As written, the aggregator stores nothing from the nested provider-1 payload and
      reports count 0, although the adapter would normalise it to exactly one record. */
  lemma NestedPayloadIsNotStored(s: Store, url: string, env: Env)
    requires env.fetch(url) == Fetched(NestedTestPayload())
    ensures ProviderRun(s, ("provider1", url), 0, env) == (s, Succeeded("provider1", 0))
    ensures |ProviderAdapters.NormalizeProviderData("provider1", NestedTestPayload())| == 1
  {
    NestedPayloadNormalizesToOne();
  }

  /** The adapter half of the above: provider 1's adapter maps the nested item to one record. */
  lemma NestedPayloadNormalizesToOne()
    ensures |ProviderAdapters.NormalizeProviderData("provider1", NestedTestPayload())| == 1
  {
    var item := NestedTestPayload().fields["catalog"].fields["items"].items[0];
    assert OptionalGet(Field(NestedTestPayload(), "catalog"), "items") == Arr([item]);
    assert ProviderAdapters.SnakeCaseItem(item).Ok? by {
      assert !IsNullish(item) && !IsNullish(Field(item, "pricing")) && !IsNullish(Field(item, "stock"));
    }
    ProviderAdapters.Provider1Mapping(NestedTestPayload(), [item]);
  }

  /** As written, a bare array of camelCase items is read with `.id`, which is undefined, so
      every item is skipped and the provider reports count 0 with the store unchanged. */
  lemma CamelCasePayloadIsNotStored(s: Store, url: string, index: nat, env: Env)
    requires env.fetch(url) == Fetched(CamelCaseTestPayload())
    ensures ProviderRun(s, ("provider2", url), index, env) == (s, Succeeded("provider2", 0))
    ensures |ProviderAdapters.NormalizeProviderData("provider2", CamelCaseTestPayload())| == 1
  {
    var item := CamelCaseTestPayload().items[0];
    assert Field(item, "id") == Undefined;
    assert ProcessPrefix(s, "provider2", [item], 1, index, env) == Progress(s, [], None);
  }

  // ---------------------------------------------------------------------------
  // Re-running an unchanged payload

  /** An item the store accepts whole: not null, a string `id`, well-typed fields. */
  ghost predicate Storable(item: Value, env: Env) {
    !IsNullish(item) && Field(item, "id").Str? && DecodeData(item, env.toDate).Some? && Complete(DecodeData(item, env.toDate).value)
  }

  function KeyFor(item: Value, providerId: string): Key
    requires Field(item, "id").Str?
  {
    (Field(item, "id").s, providerId)
  }

  /** The store already holds exactly what processing `item` would write. */
  ghost predicate Reflects(s: Store, providerId: string, item: Value, env: Env)
    requires Storable(item, env)
  {
    var key := KeyFor(item, providerId);
    key in s.rows && Overwrite(s.rows[key], DecodeData(item, env.toDate).value) == s.rows[key]
  }

  /** The first `n` items are storable, hit no store failure, and carry distinct ids. */
  ghost predicate CleanRun(items: seq<Value>, n: nat, index: nat, env: Env)
    requires n <= |items|
  {
    && (forall k :: 0 <= k < n ==> Storable(items[k], env) && env.faults(index, k) == NoFault)
    && (forall j, k :: 0 <= j < k < n ==> Field(items[j], "id") != Field(items[k], "id"))
  }

  lemma StorableItemIsProcessed(s: Store, providerId: string, item: Value, env: Env)
    requires s.Valid() && Storable(item, env)
    ensures var st := ProcessItem(s, providerId, item, NoFault, env);
      && st.outcome == Processed
      && Reflects(st.store, providerId, item, env)
      && forall k :: k in s.rows && k != KeyFor(item, providerId) ==> k in st.store.rows && st.store.rows[k] == s.rows[k]
  {
  }

  lemma ReflectedItemIsNoOp(s: Store, providerId: string, item: Value, env: Env)
    requires Storable(item, env) && Reflects(s, providerId, item, env)
    ensures ProcessItem(s, providerId, item, NoFault, env) == Step(s, Processed)
  {
    var key := KeyFor(item, providerId);
    assert s.rows[key := s.rows[key]] == s.rows;
  }

  /** A step under another natural key leaves an item's row reflecting it. */
  lemma ReflectsKept(s: Store, s2: Store, providerId: string, x: Value, item: Value, env: Env)
    requires Storable(x, env) && Storable(item, env) && Reflects(s, providerId, x, env)
    requires Field(x, "id") != Field(item, "id")
    requires forall k :: k in s.rows && k != KeyFor(item, providerId) ==> k in s2.rows && s2.rows[k] == s.rows[k]
    ensures Reflects(s2, providerId, x, env)
  {
    assert KeyFor(x, providerId) != KeyFor(item, providerId);
  }

  /** Every one of the first `n` items is storable and its row reflects it. */
  ghost predicate ReflectsAll(s: Store, providerId: string, items: seq<Value>, n: nat, env: Env)
    requires n <= |items|
  {
    forall k :: 0 <= k < n ==> Storable(items[k], env) && Reflects(s, providerId, items[k], env)
  }

  /** The state after a clean first run over the first `n` items. */
  ghost predicate FirstRunDone(p: Progress, providerId: string, items: seq<Value>, n: nat, env: Env)
    requires n <= |items|
  {
    p.threw.None? && p.processed == items[..n] && p.store.Valid() && ReflectsAll(p.store, providerId, items, n, env)
  }

  lemma ReflectsAllKept(s: Store, s2: Store, providerId: string, items: seq<Value>, m: nat, item: Value, env: Env)
    requires m <= |items| && ReflectsAll(s, providerId, items, m, env) && Storable(item, env)
    requires forall k :: 0 <= k < m ==> Field(items[k], "id") != Field(item, "id")
    requires forall k :: k in s.rows && k != KeyFor(item, providerId) ==> k in s2.rows && s2.rows[k] == s.rows[k]
    ensures ReflectsAll(s2, providerId, items, m, env)
  {
    forall k | 0 <= k < m
      ensures Reflects(s2, providerId, items[k], env)
    {
      ReflectsKept(s, s2, providerId, items[k], item, env);
    }
  }

  /** One clean step of the first run. */
  lemma StepOnCleanItem(p: Progress, providerId: string, item: Value, env: Env) returns (s2: Store)
    requires p.store.Valid() && p.threw.None? && Storable(item, env)
    ensures Advance(p, providerId, item, NoFault, env) == Progress(s2, p.processed + [item], None)
    ensures s2.Valid() && Reflects(s2, providerId, item, env)
    ensures forall k :: k in p.store.rows && k != KeyFor(item, providerId) ==> k in s2.rows && s2.rows[k] == p.store.rows[k]
  {
    StorableItemIsProcessed(p.store, providerId, item, env);
    ItemStepFacts(p.store, providerId, item, NoFault, env);
    s2 := ProcessItem(p.store, providerId, item, NoFault, env).store;
  }

  /** The induction step of the first run, stated on progress records so that the
      induction itself never looks inside the product step. */
  lemma FirstRunStep(p: Progress, q: Progress, providerId: string, items: seq<Value>, n: nat, env: Env)
    requires 0 < n <= |items|
    requires FirstRunDone(p, providerId, items, n - 1, env) && Storable(items[n - 1], env)
    requires forall k :: 0 <= k < n - 1 ==> Field(items[k], "id") != Field(items[n - 1], "id")
    requires q == Advance(p, providerId, items[n - 1], NoFault, env)
    ensures FirstRunDone(q, providerId, items, n, env)
  {
    var item := items[n - 1];
    var s2 := StepOnCleanItem(p, providerId, item, env);
    ReflectsAllKept(p.store, s2, providerId, items, n - 1, item, env);
    assert items[..n] == items[..n - 1] + [item];
  }

  /** A clean first run processes every item, keeps the store valid, and leaves every
      item's row reflecting it. */
  lemma {:induction false} FirstRunReflectsAll(s: Store, providerId: string, items: seq<Value>, n: nat, index: nat, env: Env)
    requires s.Valid() && n <= |items| && CleanRun(items, n, index, env)
    ensures FirstRunDone(ProcessPrefix(s, providerId, items, n, index, env), providerId, items, n, env)
  {
    if n > 0 {
      assert CleanRun(items, n - 1, index, env);
      FirstRunReflectsAll(s, providerId, items, n - 1, index, env);
      assert env.faults(index, n - 1) == NoFault;
      FirstRunStep(ProcessPrefix(s, providerId, items, n - 1, index, env), ProcessPrefix(s, providerId, items, n, index, env),
                   providerId, items, n, env);
    }
  }

  lemma RerunStep(s: Store, p: Progress, q: Progress, providerId: string, items: seq<Value>, n: nat, env: Env)
    requires 0 < n <= |items| && p == Progress(s, items[..n - 1], None)
    requires Storable(items[n - 1], env) && Reflects(s, providerId, items[n - 1], env)
    requires q == Advance(p, providerId, items[n - 1], NoFault, env)
    ensures q == Progress(s, items[..n], None)
  {
    ReflectedItemIsNoOp(s, providerId, items[n - 1], env);
    assert items[..n] == items[..n - 1] + [items[n - 1]];
  }

  /** Re-running items that their rows already reflect changes nothing and counts them all. */
  lemma {:induction false} RerunIsNoOp(s: Store, providerId: string, items: seq<Value>, n: nat, index: nat, env: Env)
    requires n <= |items| && ReflectsAll(s, providerId, items, n, env)
    requires forall k :: 0 <= k < n ==> env.faults(index, k) == NoFault
    ensures ProcessPrefix(s, providerId, items, n, index, env) == Progress(s, items[..n], None)
  {
    if n > 0 {
      RerunIsNoOp(s, providerId, items, n - 1, index, env);
      assert env.faults(index, n - 1) == NoFault;
      RerunStep(s, ProcessPrefix(s, providerId, items, n - 1, index, env), ProcessPrefix(s, providerId, items, n, index, env),
                providerId, items, n, env);
    }
  }

  /** Idempotence: when a provider returns an array whose items are storable, carry distinct
      ids and hit no store failure, a second run on the store the first left behind counts
      the same items, appends no history and changes no row. */
  lemma RerunAppendsNoHistory(s: Store, provider: (string, string), items: seq<Value>, index: nat, env: Env)
    requires s.Valid()
    requires env.fetch(provider.1) == Fetched(Arr(items)) && CleanRun(items, |items|, index, env)
    ensures var (s1, summary) := ProviderRun(s, provider, index, env);
      && summary == Succeeded(provider.0, |items|)
      && ProviderRun(s1, provider, index, env) == (s1, summary)
      && s1.history == ProviderRun(s1, provider, index, env).0.history
  {
    FirstRunReflectsAll(s, provider.0, items, |items|, index, env);
    var s1 := ProcessPrefix(s, provider.0, items, |items|, index, env).store;
    RerunIsNoOp(s1, provider.0, items, |items|, index, env);
    assert items[..|items|] == items;
  }

  // ---------------------------------------------------------------------------
  // Re-running the whole aggregation

  /** The summary a provider with an unchanged, clean payload reports: the fetch error, or
      every item counted. */
  function CleanSummary(provider: (string, string), env: Env): Summary {
    match env.fetch(provider.1)
    case FetchFailed(t) => Failed(provider.0, ErrorMessage(t))
    case Fetched(payload) => Succeeded(provider.0, |ItemsOf(payload)|)
  }

  /** The provider ids are distinct (they are the keys of the configuration object), and
      every payload fetched is a clean run for its provider's position. */
  ghost predicate CleanProviders(providers: seq<(string, string)>, env: Env) {
    && (forall i, j :: 0 <= i < j < |providers| ==> providers[i].0 != providers[j].0)
    && (forall i :: 0 <= i < |providers| && env.fetch(providers[i].1).Fetched? ==>
          var items := ItemsOf(env.fetch(providers[i].1).payload); CleanRun(items, |items|, i, env))
  }

  /** The provider's rows reflect every item of its payload (vacuous when the fetch fails). */
  ghost predicate ProviderReflected(s: Store, provider: (string, string), env: Env) {
    env.fetch(provider.1).Fetched? ==>
      var items := ItemsOf(env.fetch(provider.1).payload); ReflectsAll(s, provider.0, items, |items|, env)
  }

  /** The state after a clean first pass over the first `n` providers. */
  ghost predicate FirstPassDone(st: Store, results: seq<Summary>, providers: seq<(string, string)>, n: nat, env: Env)
    requires n <= |providers|
  {
    && st.Valid() && |results| == n
    && forall i :: 0 <= i < n ==> results[i] == CleanSummary(providers[i], env) && ProviderReflected(st, providers[i], env)
  }

  /** Another provider's run leaves a provider's reflected rows as they were. */
  lemma ProviderReflectedKept(s: Store, s2: Store, provider: (string, string), other: string, env: Env)
    requires ProviderReflected(s, provider, env) && provider.0 != other
    requires GrowsFrom(s, s2) && OthersUntouched(s, s2, other)
    ensures ProviderReflected(s2, provider, env)
  {
    if env.fetch(provider.1).Fetched? {
      var items := ItemsOf(env.fetch(provider.1).payload);
      forall k | 0 <= k < |items|
        ensures Reflects(s2, provider.0, items[k], env)
      {
        var key := KeyFor(items[k], provider.0);
        assert key in s.rows && key in s2.rows;
      }
    }
  }

  /** A clean provider's first run reports its clean summary and leaves its rows reflecting
      its payload, touching no other provider's rows. */
  lemma CleanProviderRun(st: Store, provider: (string, string), index: nat, env: Env)
    requires st.Valid()
    requires env.fetch(provider.1).Fetched? ==>
      var items := ItemsOf(env.fetch(provider.1).payload); CleanRun(items, |items|, index, env)
    ensures var (s2, summary) := ProviderRun(st, provider, index, env);
      && summary == CleanSummary(provider, env) && ProviderReflected(s2, provider, env)
      && s2.Valid() && GrowsFrom(st, s2) && OthersUntouched(st, s2, provider.0)
  {
    ProviderRunIsLocal(st, provider, index, env);
    if env.fetch(provider.1).Fetched? {
      var items := ItemsOf(env.fetch(provider.1).payload);
      FirstRunReflectsAll(st, provider.0, items, |items|, index, env);
      assert items[..|items|] == items;
    }
  }

  lemma FirstPassStep(acc: (Store, seq<Summary>), r: (Store, seq<Summary>), providers: seq<(string, string)>, n: nat, env: Env)
    requires 0 < n <= |providers| && CleanProviders(providers, env)
    requires FirstPassDone(acc.0, acc.1, providers, n - 1, env)
    requires r == Extend(acc, providers[n - 1], n - 1, env)
    ensures FirstPassDone(r.0, r.1, providers, n, env)
  {
    CleanProviderRun(acc.0, providers[n - 1], n - 1, env);
    forall i | 0 <= i < n - 1
      ensures ProviderReflected(r.0, providers[i], env)
    {
      ProviderReflectedKept(acc.0, r.0, providers[i], providers[n - 1].0, env);
    }
  }

  /** A first aggregation over clean providers reports every provider's clean summary and
      leaves every provider's rows reflecting its payload. */
  lemma {:induction false} FirstPass(s: Store, providers: seq<(string, string)>, n: nat, env: Env)
    requires s.Valid() && n <= |providers| && CleanProviders(providers, env)
    ensures var (s1, results) := AggregatePrefix(s, providers, n, env); FirstPassDone(s1, results, providers, n, env)
  {
    if n > 0 {
      FirstPass(s, providers, n - 1, env);
      FirstPassStep(AggregatePrefix(s, providers, n - 1, env), AggregatePrefix(s, providers, n, env), providers, n, env);
    }
  }

  /** A provider whose rows already reflect its clean payload changes nothing on a re-run. */
  lemma RerunProvider(st: Store, provider: (string, string), index: nat, env: Env)
    requires ProviderReflected(st, provider, env)
    requires env.fetch(provider.1).Fetched? ==>
      var items := ItemsOf(env.fetch(provider.1).payload); CleanRun(items, |items|, index, env)
    ensures ProviderRun(st, provider, index, env) == (st, CleanSummary(provider, env))
  {
    if env.fetch(provider.1).Fetched? {
      var items := ItemsOf(env.fetch(provider.1).payload);
      RerunIsNoOp(st, provider.0, items, |items|, index, env);
      assert items[..|items|] == items;
    }
  }

  lemma SecondPassStep(s1: Store, r1: seq<Summary>, acc: (Store, seq<Summary>), r: (Store, seq<Summary>),
                       providers: seq<(string, string)>, n: nat, env: Env)
    requires 0 < n <= |providers| && CleanProviders(providers, env)
    requires FirstPassDone(s1, r1, providers, |providers|, env)
    requires acc == (s1, r1[..n - 1]) && r == Extend(acc, providers[n - 1], n - 1, env)
    ensures r == (s1, r1[..n])
  {
    RerunProvider(s1, providers[n - 1], n - 1, env);
    assert r1[..n] == r1[..n - 1] + [r1[n - 1]];
  }

  lemma {:induction false} SecondPass(s1: Store, r1: seq<Summary>, providers: seq<(string, string)>, n: nat, env: Env)
    requires n <= |providers| && CleanProviders(providers, env)
    requires FirstPassDone(s1, r1, providers, |providers|, env)
    ensures AggregatePrefix(s1, providers, n, env) == (s1, r1[..n])
  {
    if n > 0 {
      SecondPass(s1, r1, providers, n - 1, env);
      SecondPassStep(s1, r1, AggregatePrefix(s1, providers, n - 1, env), AggregatePrefix(s1, providers, n, env), providers, n, env);
    }
  }

  /** Idempotence of the whole run: when the provider ids are distinct and every fetched
      payload is storable, free of store failures and of repeated ids, a second
      aggregation on the store the first one left reports the same summaries, appends no
      history and changes no row. */
  lemma AggregateTwiceIsNoOp(s: Store, providers: seq<(string, string)>, env: Env)
    requires s.Valid() && CleanProviders(providers, env)
    ensures var (s1, r1) := AggregatePrefix(s, providers, |providers|, env);
      && AggregatePrefix(s1, providers, |providers|, env) == (s1, r1)
      && |r1| == |providers|
      && forall i :: 0 <= i < |providers| ==> r1[i] == CleanSummary(providers[i], env)
  {
    FirstPass(s, providers, |providers|, env);
    var (s1, r1) := AggregatePrefix(s, providers, |providers|, env);
    SecondPass(s1, r1, providers, |providers|, env);
    assert r1[..|providers|] == r1;
  }

  // ---------------------------------------------------------------------------
  // The service object

  /** Once a product has thrown out of the loop, later items are never looked at. */
  lemma {:induction false} ThrowIsFinal(s: Store, providerId: string, items: seq<Value>, n: nat, m: nat, index: nat, env: Env)
    requires n <= m <= |items| && ProcessPrefix(s, providerId, items, n, index, env).threw.Some?
    ensures ProcessPrefix(s, providerId, items, m, index, env) == ProcessPrefix(s, providerId, items, n, index, env)
    decreases m - n
  {
    if n < m {
      ThrowIsFinal(s, providerId, items, n, m - 1, index, env);
    }
  }

  /** One more item is one more `Advance`. */
  lemma PrefixStep(s: Store, providerId: string, items: seq<Value>, n: nat, index: nat, env: Env)
    requires n < |items|
    ensures ProcessPrefix(s, providerId, items, n + 1, index, env)
         == Advance(ProcessPrefix(s, providerId, items, n, index, env), providerId, items[n], env.faults(index, n), env)
  {
  }

  /** The body of the product loop performs one `Advance`. */
  lemma LoopStepIsAdvance(p: Progress, q: Progress, providerId: string, item: Value, fault: Fault, env: Env, st: Step)
    requires p.threw.None? && st == ProcessItem(p.store, providerId, item, fault, env)
    requires q.store == st.store
    requires q.processed == (if st.outcome.Processed? then p.processed + [item] else p.processed)
    requires q.threw == (if st.outcome.Threw? then Some(st.outcome.message) else None)
    ensures q == Advance(p, providerId, item, fault, env)
  {
  }

  /** The service over the product and price-history tables it writes to. */
  class AggregationService {
    var rows: map<Key, Product>
    var history: seq<PriceHistory>
    var nextId: ProductId

    function Current(): Store
      reads this
    {
      Store(rows, history, nextId)
    }

    constructor(s: Store)
      ensures Current() == s
    {
      rows, history, nextId := s.rows, s.history, s.nextId;
    }

    /** The body of the product loop for one item: look the natural key up, append a
        history entry on a price change, then update or create the row. */
    method ProcessProduct(providerId: string, item: Value, fault: Fault, env: Env) returns (outcome: StepOutcome)
      modifies this
      ensures Step(Current(), outcome) == ProcessItem(old(Current()), providerId, item, fault, env)
    {
      if IsNullish(item) {
        return Threw(ReadError(item, "id"));
      }
      var externalId := Field(item, "id");
      if !externalId.Str? || fault == FailLookup {
        return Skipped;
      }
      var key := (externalId.s, providerId);
      var data := DecodeData(item, env.toDate);
      if key in rows {
        var existing := rows[key];
        var price := Field(item, "price");
        if !price.Num? {
          return Skipped;
        }
        if existing.price != price.n {
          var currency, available := Field(item, "currency"), Field(item, "availability");
          if !currency.Str? || !available.Bool? || fault == FailHistory {
            return Skipped;
          }
          history := history + [PriceHistory(existing.id, existing.price, price.n, existing.availability,
                                             available.b, currency.s, PriceChange, env.at)];
        }
        if data.None? || fault == FailWrite {
          return Skipped;
        }
        rows := rows[key := Overwrite(existing, data.value)];
      } else {
        if data.None? || !Complete(data.value) || fault == FailWrite {
          return Skipped;
        }
        rows := rows[key := NewRow(nextId, key, data.value)];
        nextId := nextId + 1;
      }
      return Processed;
    }

    /** processProviderProducts: the items fully processed, in order, or what the loop threw. */
    method ProcessProviderProducts(products: seq<Value>, providerId: string, index: nat, env: Env)
      returns (processed: seq<Value>, threw: Option<string>)
      modifies this
      ensures Progress(Current(), processed, threw) == ProcessPrefix(old(Current()), providerId, products, |products|, index, env)
    {
      processed, threw := [], None;
      var i := 0;
      while i < |products| && threw.None?
        invariant 0 <= i <= |products|
        invariant Progress(Current(), processed, threw) == ProcessPrefix(old(Current()), providerId, products, i, index, env)
      {
        ghost var before := Progress(Current(), processed, threw);
        var outcome := ProcessProduct(providerId, products[i], env.faults(index, i), env);
        if outcome.Processed? {
          processed := processed + [products[i]];
        } else if outcome.Threw? {
          threw := Some(outcome.message);
        }
        LoopStepIsAdvance(before, Progress(Current(), processed, threw), providerId, products[i], env.faults(index, i), env,
                          Step(Current(), outcome));
        PrefixStep(old(Current()), providerId, products, i, index, env);
        i := i + 1;
      }
      if i < |products| {
        ThrowIsFinal(old(Current()), providerId, products, i, |products|, index, env);
      }
    }

    /** aggregateAllProviders: one summary per provider, in order; a fetch or product-loop
        failure is reported for that provider and the loop goes on. The store stays valid
        and only grows. */
    method AggregateAllProviders(providers: seq<(string, string)>, env: Env) returns (results: seq<Summary>)
      modifies this
      ensures (Current(), results) == AggregatePrefix(old(Current()), providers, |providers|, env)
      ensures old(Current()).Valid() ==> Current().Valid() && GrowsFrom(old(Current()), Current())
    {
      results := [];
      var i := 0;
      while i < |providers|
        invariant 0 <= i <= |providers|
        invariant (Current(), results) == AggregatePrefix(old(Current()), providers, i, env)
      {
        var (providerId, url) := providers[i];
        match env.fetch(url) {
          case FetchFailed(t) =>
            results := results + [Failed(providerId, ErrorMessage(t))];
          case Fetched(payload) =>
            var processed, threw := ProcessProviderProducts(ItemsOf(payload), providerId, i, env);
            if threw.Some? {
              results := results + [Failed(providerId, threw.value)];
            } else {
              results := results + [Succeeded(providerId, |processed|)];
            }
        }
        i := i + 1;
      }
      if old(Current()).Valid() {
        AggregateIsLocal(old(Current()), providers, |providers|, env);
      }
    }
  }
}
