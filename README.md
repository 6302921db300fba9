# Product aggregator: a verified Dafny model

The system ingests product catalogs from several upstream providers. Each provider uses its own JSON layout. The system keeps one product table keyed by the natural key `(externalId, providerId)` and an append-only price-history table. It serves read queries and paginated listings over both.

This project models four parts of that system and proves properties about them:

- `adapters.dfy` (module `ProviderAdapters`): the provider normalisers from `src/aggregation/provider-adapters.ts`. These are pure functions over a small JSON value type (`json.dfy`, module `Json`). Module `Json` also captures the JavaScript behaviour the code relies on:
  - truthiness and `||`;
  - optional chaining;
  - `Array.isArray`;
  - the `TypeError` a property read on `null`/`undefined` throws.
- `aggregation.dfy` (module `Aggregation`): `AggregationService` from `src/aggregation/aggregation.service.ts`. It is a class over the product map, the history sequence and the next row id, with the service's two nested loops as methods. Each method is proved equal to a specification function:
  - `ProcessItem` for one product;
  - `ProcessPrefix` for the product loop;
  - `ProviderRun` and `AggregatePrefix` for the provider loop.

  The lemmas about those functions carry the service's promises: keyed upsert, the price-history append, failure isolation, the summary shape, and idempotence of a re-run, for one provider and for the whole aggregation.
- `products.dfy` (module `ProductsService`): `findAll`, `findOne` and `findRecentChanges` from `src/products/products.service.ts`, as pure queries over the product rows (in scan order) and the history. The queries are functions of their inputs, so none of them changes the catalog or the history.
- `pagination.dfy` (module `Pagination`): the query objects and metadata of `src/common/dto/pagination.dto.ts`. It covers the query defaults and bounds as validated, the offset metadata (`totalPages`, `hasNextPage`/`hasPreviousPage`, `nextPage`/`previousPage`, the `skip`/`take` window) and the cursor page with its `limit + 1` look-ahead. The paginated service methods `findAll(pagination)` and `findAllWithCursor` are not in `src/products/products.service.ts`. Their behaviour comes only from `src/products/products.service.spec.ts`, so `OffsetMeta`, `PageOf`, `ListPage` and `CursorPage` are modelled from those tests.

`catalog.dfy` (module `Catalog`) holds the persisted entities (`Product`, `PriceHistory`) and the store with its validity invariant:
- every row sits under its own natural key;
- row ids are distinct and below the next id;
- every history entry belongs to an existing row.

### The service as written does not normalise

`aggregateAllProviders` passes the fetched payload to `processProviderProducts` only if it is an array, and passes `[]` otherwise. Each item is then read directly with the normalised field names (`id`, `name`, `price`, ...). The adapters are never called.

The model follows the code, not the intended pipeline (fetch → normalise → reconcile) and not the service's own unit tests. Those tests (`src/aggregation/aggregation.service.spec.ts:116-137` and `:185-203`) expect the nested provider-1 layout, the camelCase provider-2 layout and the wrapped provider-3 layout `{success, count, data}` to be stored, one product each. Three lemmas show the gap:
- `NestedPayloadIsNotStored`: as written, the provider reports count 0 and stores nothing, although the adapter would give exactly one record.
- `CamelCasePayloadIsNotStored`: as written, every item is skipped, because its `.id` is undefined.
- `NonArrayPayloadCountsZero`: the wrapped provider-3 payload is an object, not an array, so as written it is processed as `[]` and reports count 0 where the test expects 1.

The code has no transaction around one product's history insert and row update. A failed update after a successful history insert therefore leaves that history entry behind, and the model keeps this.

A `null` item in an array payload makes the `catch` handler itself throw while it reads `product.id`. That ends the whole provider with a `TypeError` wherever the item sits in the list; the products stored before it stay stored and the items after it are never read (`NullItemFailsProvider`).

## Model

| member | source | states |
|---|---|---|
| Json.Truthy | src/aggregation/provider-adapters.ts:70 | the falsy values are exactly undefined, null, false, 0 and the empty string |
| Json.Get | src/aggregation/provider-adapters.ts:77-85 | a property read, as every adapter performs it: it throws a TypeError with V8's message exactly when the object is null or undefined, and otherwise yields the own field or undefined |
| Json.OptionalGet | src/aggregation/provider-adapters.ts:70 | `?.` yields undefined on null or undefined and otherwise agrees with a plain read, which then cannot throw |
| Json.Or | src/aggregation/provider-adapters.ts:99-101 | `v or fallback` is one of its two operands, the first one whenever that is truthy, and is truthy exactly when one of them is |
| ProviderAdapters.OrNull | src/aggregation/provider-adapters.ts:80 | the `or null` default is null or truthy, and is the value itself whenever the value is truthy |
| ProviderAdapters.SnakeCaseItem | src/aggregation/provider-adapters.ts:77-85 | an item maps exactly when it, its `pricing` and its `stock` are not nullish; the description is defaulted to null |
| ProviderAdapters.CamelCaseItem | src/aggregation/provider-adapters.ts:108-116 | an item maps exactly when it is not nullish; the description is defaulted |
| ProviderAdapters.UpperCaseItem | src/aggregation/provider-adapters.ts:132-140 | an item maps exactly when it is not nullish; the description is defaulted |
| ProviderAdapters.MapItems | src/aggregation/provider-adapters.ts:77-85 | `.map` succeeds exactly when every item maps, and then gives one record per item in order |
| ProviderAdapters.CatalogItems | src/aggregation/provider-adapters.ts:70 | `data.catalog?.items` throws exactly on a null or undefined payload, and `?.` protects the `items` read |
| ProviderAdapters.NormalizeProvider1 | src/aggregation/provider-adapters.ts:67-86 | throws on a nullish payload; otherwise maps `catalog.items` when it is an array (nothing otherwise): every record in order when each item maps, a TypeError when one throws |
| ProviderAdapters.CamelCaseList | src/aggregation/provider-adapters.ts:99-101 | throws exactly on a nullish payload; otherwise the list it yields is the payload itself when that is an array, else `products`, and a non-array means there is nothing to map |
| ProviderAdapters.NormalizeProvider2 | src/aggregation/provider-adapters.ts:93-117 | throws on a nullish payload; otherwise maps a bare array, or `products` when that is an array, with the same all-or-throw rule |
| ProviderAdapters.NormalizeProvider3 | src/aggregation/provider-adapters.ts:124-141 | throws on a nullish payload; otherwise maps `data` only when `success` is truthy and `data` is an array, with the same all-or-throw rule |
| ProviderAdapters.GenericNormalization | src/aggregation/provider-adapters.ts:174-195 | throws on a nullish payload; otherwise maps `products` (provider-2 layout), else a bare array (provider-2 layout), else `data` under the provider-3 guard |
| ProviderAdapters.Dispatch | src/aggregation/provider-adapters.ts:150-163 | the three known ids and every other id map the item list that `Located` reads off the guards, with the matching layout, all or throw |
| ProviderAdapters.NormalizeProviderData | src/aggregation/provider-adapters.ts:146-168 | never a partial list: every located item's record in order when each maps, the empty list when any throws or the payload is nullish |
| ProviderAdapters.NullishPayloadIsEmpty | src/aggregation/provider-adapters.ts:164-167 | a null or undefined payload yields no records for any provider id |
| ProviderAdapters.Provider1NeedsItemsArray | src/aggregation/provider-adapters.ts:70-75 | provider 1 yields nothing unless `catalog.items` is an array |
| ProviderAdapters.Provider1Mapping | src/aggregation/provider-adapters.ts:77-85 | provider 1 gives one record per item with the full field mapping, and nothing if any item lacks `pricing` or `stock` |
| ProviderAdapters.Provider2Mapping | src/aggregation/provider-adapters.ts:99-116 | a bare array and `{products: array}` give the same records, one per item, with the camelCase field mapping |
| ProviderAdapters.Provider2OtherShapesEmpty | src/aggregation/provider-adapters.ts:99-106 | any other provider-2 payload yields nothing |
| ProviderAdapters.Provider3Mapping | src/aggregation/provider-adapters.ts:127-140 | nothing unless `success` is truthy and `data` is an array, even when `data` holds items; otherwise the UPPERCASE field mapping |
| ProviderAdapters.DescriptionNeverEmpty | src/aggregation/provider-adapters.ts:77-140 | in every record an absent or empty description is null, never the empty string |
| ProviderAdapters.DispatchAndFallbackOrder | src/aggregation/provider-adapters.ts:151-194 | unknown ids try `{products: array}` by provider-2 rules, then a bare array, then `{data: array}` by provider-3 rules, then nothing |
| Aggregation.DecodeData | src/aggregation/aggregation.service.ts:70-79 | the store accepts `productData` exactly when price is a number, the date is valid, and name, currency, availability and description each are of their type or undefined (description may also be null) |
| Aggregation.Overwrite | src/aggregation/aggregation.service.ts:97-100 | an update keeps the row's id and natural key and sets price and lastUpdated; with every other field undefined nothing else changes |
| Aggregation.ProcessItem | src/aggregation/aggregation.service.ts:49-113 | definition without a contract: one iteration of the product loop; its promises are stated by the lemmas from ProcessItemIsLocal to FailedProductIsSkipped |
| Aggregation.ProcessPrefix | src/aggregation/aggregation.service.ts:43-117 | definition without a contract: the product loop over the first n items, stopping at a throw; stated by ProcessPrefixIsLocal, ThrowIsFinal and FirstRunReflectsAll |
| Aggregation.ProviderRun | src/aggregation/aggregation.service.ts:19-37 | definition without a contract: one provider's fetch, product loop and summary; stated by ProviderRunIsLocal, NonArrayPayloadCountsZero and NullItemFailsProvider |
| Aggregation.AggregatePrefix | src/aggregation/aggregation.service.ts:15-41 | definition without a contract: the provider loop over the first n providers; stated by AggregateIsLocal, SummariesInOrder and FetchFailureIsIsolated |
| Aggregation.ProcessItemIsLocal | src/aggregation/aggregation.service.ts:61-105 | one product step keeps the store valid, only grows it, and touches no row but the one under the item's natural key |
| Aggregation.CreatesUnseenProduct | src/aggregation/aggregation.service.ts:101-105 | an unseen natural key is created under a fresh id with every incoming field, the description being the string sent or null, and no history entry |
| Aggregation.CreateNeedsRequiredFields | src/aggregation/aggregation.service.ts:101-105 | an unseen product without name, currency or availability is skipped and nothing is stored |
| Aggregation.PriceChangeAppendsOneEntry | src/aggregation/aggregation.service.ts:81-100 | a price that is not exactly equal appends one entry (old/new price, old/new availability, incoming currency, price_change); the row keeps its id and key, takes every field the item gives and keeps every field it leaves undefined; no other row changes |
| Aggregation.PriceChangeNeedsCurrencyAndAvailability | src/aggregation/aggregation.service.ts:83-95 | on a price change without a string currency or a boolean availability the history insert throws, the product is skipped and nothing is written |
| Aggregation.EqualPriceOverwritesOnly | src/aggregation/aggregation.service.ts:83-100 | an equal price appends nothing, but the row is still updated: every field the item gives is taken, every field it leaves undefined is kept; no other row changes |
| Aggregation.FailedProductIsSkipped | src/aggregation/aggregation.service.ts:108-113 | a failed store step changes no row and no id; only a failed update after a history insert leaves that entry |
| Aggregation.ProcessPrefixIsLocal | src/aggregation/aggregation.service.ts:43-117 | the product loop keeps the store valid, only grows it, leaves other providers' rows alone and counts at most the items it saw |
| Aggregation.AdvanceIsLocal | src/aggregation/aggregation.service.ts:49-113 | one pass of the product loop's body keeps the store valid, only grows it, leaves other providers' rows alone and counts at most that item |
| Aggregation.ProviderRunIsLocal | src/aggregation/aggregation.service.ts:19-40 | one provider's run keeps the store valid, only grows it and leaves other providers' rows alone |
| Aggregation.AggregateIsLocal | src/aggregation/aggregation.service.ts:15-41 | the provider loop keeps the store valid and only grows it |
| Aggregation.ThrowIsFinal | src/aggregation/aggregation.service.ts:108-113 | once a product throws out of the loop, the later items are never processed |
| Aggregation.SummariesInOrder | src/aggregation/aggregation.service.ts:15-41 | one summary per configured provider, in order, each being that provider's run on the store the earlier ones left |
| Aggregation.OneSummaryPerProvider | src/aggregation/aggregation.service.ts:19-40 | in addition, each summary names its provider and the store stays valid and only grows |
| Aggregation.FetchFailureIsIsolated | src/aggregation/aggregation.service.ts:30-37 | a failed fetch reports its message or 'Unknown error', changes nothing, and later providers still run |
| Aggregation.NonArrayPayloadCountsZero | src/aggregation/aggregation.service.ts:25-29 | a non-array payload succeeds with count 0 and leaves the store unchanged |
| Aggregation.NullItemFailsProvider | src/aggregation/aggregation.service.ts:108-113 | a null or undefined item at any position fails the provider with the TypeError that the catch handler's own `product.id` read throws; the store is what the items before it left |
| Aggregation.NestedPayloadIsNotStored | src/aggregation/aggregation.service.ts:25-28 | the tests' nested provider-1 payload is stored as nothing (count 0), although the adapter gives one record |
| Aggregation.CamelCasePayloadIsNotStored | src/aggregation/aggregation.service.ts:51-68 | the tests' camelCase payload is skipped item by item (count 0), although the adapter gives one record |
| Aggregation.StorableItemIsProcessed | src/aggregation/aggregation.service.ts:61-107 | a well-typed item with a string id is fully processed, leaves its row reflecting it, and changes no other row |
| Aggregation.ReflectedItemIsNoOp | src/aggregation/aggregation.service.ts:83-100 | an item that its row already reflects changes nothing and appends no history |
| Aggregation.FirstRunReflectsAll | src/aggregation/aggregation.service.ts:49-107 | after one clean run every item is processed, in order, the store stays valid, and every item's row reflects it |
| Aggregation.RerunIsNoOp | src/aggregation/aggregation.service.ts:49-107 | re-running items that their rows reflect leaves the store exactly as it was |
| Aggregation.RerunAppendsNoHistory | src/aggregation/aggregation.service.ts:61-105 | re-running an unchanged payload (distinct ids, no failures) counts the same items, appends no history and changes no row |
| Aggregation.ProviderReflectedKept | src/aggregation/aggregation.service.ts:19-37 | another provider's run leaves a provider's rows reflecting its payload |
| Aggregation.CleanProviderRun | src/aggregation/aggregation.service.ts:19-37 | a clean provider's first run reports the fetch error or every item counted, leaves its rows reflecting its payload and touches no other provider's rows |
| Aggregation.FirstPass | src/aggregation/aggregation.service.ts:15-40 | a first aggregation over clean providers reports each provider's clean summary and leaves every provider's rows reflecting its payload |
| Aggregation.RerunProvider | src/aggregation/aggregation.service.ts:19-37 | a provider whose rows already reflect its clean payload reports the same summary and leaves the store exactly as it was |
| Aggregation.SecondPass | src/aggregation/aggregation.service.ts:15-40 | after a clean first aggregation, re-running the provider loop leaves the store as it was and repeats the first run's summaries |
| Aggregation.AggregateTwiceIsNoOp | src/aggregation/aggregation.service.ts:15-40 | with distinct provider ids and clean payloads, a second aggregateAllProviders on the store the first left reports the same summaries, appends no history and changes no row |
| Aggregation.AggregationService.ProcessProduct | src/aggregation/aggregation.service.ts:50-107 | the product step: lookup, history append on a price change, then update or create, as `ProcessItem` |
| Aggregation.AggregationService.ProcessProviderProducts | src/aggregation/aggregation.service.ts:43-117 | the product loop yields the processed items and the new store of `ProcessPrefix` |
| Aggregation.AggregationService.AggregateAllProviders | src/aggregation/aggregation.service.ts:15-41 | the provider loop yields the summaries and the new store of `AggregatePrefix`; a valid store stays valid and only grows |
| ProductsService.InsertNewestFirst | src/products/products.service.ts:12 | inserting into a newest-first history keeps it newest first and adds exactly that entry |
| ProductsService.SortNewestFirst | src/products/products.service.ts:12 | `orderBy: {changedAt: 'desc'}` yields a newest-first permutation of its input |
| ProductsService.HistoryOf | src/products/products.service.ts:10-14 | a product's history is exactly the entries with its id, with multiplicity |
| ProductsService.PrefixIsNewest | src/products/products.service.ts:12-13 | taking a prefix of a newest-first history keeps only entries at least as new as every dropped one |
| ProductsService.LatestHistory | src/products/products.service.ts:10-14 | at most 10 entries of the product's history, newest first, none older than any entry left out |
| ProductsService.FindAll | src/products/products.service.ts:8-17 | every product in scan order, each with its latest history |
| ProductsService.FindAllKeepsNewestOfFindOne | src/products/products.service.ts:8-28 | the history findAll attaches is the newest min(10, n) entries of findOne's |
| ProductsService.Lookup | src/products/products.service.ts:20-21 | nothing exactly when no row has the id; otherwise a row with that id |
| ProductsService.FindOne | src/products/products.service.ts:19-28 | null when no product has the id; otherwise that product and all of its history, newest first |
| ProductsService.ChangedSince | src/products/products.service.ts:41-45 | exactly the entries with `changedAt >= since`, with multiplicity |
| ProductsService.RecentRows | src/products/products.service.ts:33-38 | exactly the rows with `lastUpdated >= since`, with multiplicity |
| ProductsService.RecentRowsKeepsOrder | src/products/products.service.ts:33-38 | the filter keeps scan order: filtering two joined parts of the catalog is filtering each and joining the results in the same order |
| ProductsService.RecentHistory | src/products/products.service.ts:39-47 | exactly the product's entries from `since` on, newest first |
| ProductsService.FindRecentChanges | src/products/products.service.ts:30-50 | the recent rows in scan order (RecentRows, RecentRowsKeepsOrder), each with its history from the same cutoff |
| ProductsService.RecentChangesMembership | src/products/products.service.ts:30-38 | a product is listed iff it is in the catalog and `lastUpdated >= now - hours*3600000`; without hours the window is 24 hours |
| ProductsService.WiderWindowListsMore | src/products/products.service.ts:30-38 | a wider window never lists fewer products |
| Pagination.AcceptsNumberAsWritten | src/common/dto/pagination.dto.ts:12-30 | the decorators as written accept an absent number and reject NaN; a finite number passes iff it is at least 1 and, when bounded, at most 100; an infinite one passes iff it is positive and the field is unbounded |
| Pagination.AcceptsOffsetQueryAsWritten | src/common/dto/pagination.dto.ts:5-48 | definition without a contract: page and limit under those decorators, sortBy and sortOrder unconstrained; stated by the three Findings lemmas and ValidatedIsAcceptedAsWritten |
| Pagination.AcceptsCursorQueryAsWritten | src/common/dto/pagination.dto.ts:50-88 | definition without a contract: limit under those decorators, the rest unconstrained; stated by UnknownSortIsAccepted and ValidatedIsAcceptedAsWritten |
| Pagination.WholeNumber | src/common/dto/pagination.dto.ts:12-30 | the default when absent; otherwise a whole number within the bounds, accepted exactly when it is one |
| Pagination.ValidateOffsetQuery | src/common/dto/pagination.dto.ts:5-48 | accepted iff page and limit are whole numbers, page >= 1, 1 <= limit <= 100 and sort field and order are documented values; page and limit are the numbers sent or 1 and 20, sort field and order the parsed values or lastUpdated and desc |
| Pagination.ValidateCursorQuery | src/common/dto/pagination.dto.ts:50-88 | the same limit rule; the limit is the number sent or 20, sort field and order the parsed values or lastUpdated and desc, and the optional cursor is passed through |
| Pagination.ValidatedIsAcceptedAsWritten | src/common/dto/pagination.dto.ts:12-30 | every query the documented rules accept, the decorators accept too |
| Pagination.OffsetDefaultsAndBounds | src/common/dto/pagination.dto.ts:12-47 | defaults are page 1, limit 20, lastUpdated, desc; `page=0&limit=200` is rejected |
| Pagination.FractionalPageIsAccepted | src/common/dto/pagination.dto.ts:12-30 | page 1.5 and limit 2.5 pass the decorators |
| Pagination.InfinitePageIsAccepted | src/common/dto/pagination.dto.ts:12-16 | page Infinity passes the decorators |
| Pagination.UnknownSortIsAccepted | src/common/dto/pagination.dto.ts:32-47 | any sort field and sort order string passes the decorators |
| Pagination.TotalPages | src/common/dto/pagination.dto.ts:100-101 | the fewest pages of `limit` rows that hold `total` rows |
| Pagination.OffsetMeta | src/common/dto/pagination.dto.ts:90-113 | hasNextPage iff page < totalPages, hasPreviousPage iff page > 1; nextPage/previousPage present exactly then, as page+1/page-1 |
| Pagination.PageOf | src/products/products.service.spec.ts:88-93 | at most `limit` rows, the ones from `skip = (page-1)*limit` on |
| Pagination.HasNextIffNextPageNonEmpty | src/common/dto/pagination.dto.ts:103-107 | hasNextPage holds exactly when the next page has rows |
| Pagination.PagesPrefix | src/products/products.service.spec.ts:116-122 | the first n pages, in order, are the first n*limit rows |
| Pagination.PagesCoverRows | src/products/products.service.spec.ts:116-122 | pages 1 to totalPages, in order, are exactly all rows |
| Pagination.ListPage | src/products/products.service.spec.ts:96-141 | a validated query's page: exactly min(limit, rows left after skip) rows, the ones from `skip` on, with the offset metadata of that page, whose hasNextPage matches the next page |
| Pagination.OffsetExamples | src/products/products.service.spec.ts:75-141 | 50 rows by 20 give 3 pages; page 2 by 10 skips 10; on the last page nextPage is absent and previousPage is 2 |
| Pagination.CursorPage | src/common/dto/pagination.dto.ts:116-130 | at most `limit` rows; hasNextPage iff more than `limit` were fetched; nextCursor is the last returned id exactly then |
| Pagination.LookAheadFindsMore | src/products/products.service.spec.ts:144-167 | fetching `limit + 1` rows reports a next page exactly when rows remain beyond the page |
| Pagination.CursorExamples | src/products/products.service.spec.ts:144-167 | three rows fetched for limit 2 give two rows and cursor '2'; one row gives no next page and no cursor |

## Left out

- Fetching provider data is HTTP I/O and is not modelled. Each URL's fetch outcome (a payload, or what was thrown) is a parameter `Env.fetch`. The provider list from configuration is an input sequence of `(providerId, url)` pairs.
- Prisma is not modelled; the store is an in-memory map plus a sequence. Which store call fails for which product is an oracle parameter `Env.faults`.
- Prisma's generated ids are not modelled. Row ids come from a counter.
- `createdAt`, `updatedAt` and `isStale` are not modelled.
- Every history entry of one run is stamped with one parameter time `Env.at`, not the store's clock.
- Prices are exact `real` values, so `Decimal.equals` is exact equality. The `Decimal` column's precision and rounding are not modelled.
- A price the store would reject, such as a non-number, makes that product fail. Prisma's coercion of numeric strings into `Decimal` is not modelled.
- `new Date(...)` and its validity are a parameter `Env.toDate`, because date-string parsing is not modelled.
- How the store treats a field of the wrong type is simplified: any ill-typed field fails the create or update. An `undefined` field is left out of an update (the column keeps its value) and is a missing argument on a create; `null` for a required column fails both.
- RerunAppendsNoHistory: holds because prices are exact reals (so does AggregateTwiceIsNoOp). With the `Decimal` column's scale, an incoming price with more decimals than the column keeps would differ from the stored price on every run and append an entry each time.
- Row scan order for the queries is the order of the input sequence, so the database's unspecified order is a parameter.
- The ordering of history entries with equal `changedAt` is left open. The contracts fix only newest-first order and the exact multiset of entries.
- Logging (`console.warn`/`console.error`) is not modelled.
- The HTTP controllers, the `parseInt` of query strings, health probes, the server-sent-events stream, the cron scheduler, configuration reading, module wiring and the fixture generator script are not modelled. None of them holds core logic.
- The v2 controllers' `priceChangePercentage` is floating-point division, which is not modelled.
- Cutoff: `hours` is an integer. The controller's `parseInt` can pass `NaN` (for `?hours=abc`), which makes `since` an invalid date; that case is not modelled.
- The tests of `findRecentChanges` (`src/products/products.service.spec.ts:230-250`, `test/products-pagination.e2e-spec.ts:95-108`) expect a paginated `{data, meta}` result, while the service returns a bare list. The model follows the service.
- The offset listing's `orderBy: {[sortBy]: sortOrder}` is not modelled: `PageOf` and `ListPage` take the rows already in the requested order.
- The cursor filter and sort of `findAllWithCursor` are not modelled, since that method is not in the source. Only the look-ahead page and its metadata, which its tests fix, are modelled.
- Numeric query parameters are modelled after `Number(...)` conversion, as absent, NaN, ±Infinity or a finite real. The string conversion itself is not modelled.

## Findings

| source | as written | input that shows it | evidently intended | confidence | as-written member | corrected member |
|---|---|---|---|---|---|---|
| src/common/dto/pagination.dto.ts:12-30 | `page` and `limit` carry only `@IsPositive`, `@Min(1)` and `@Max(100)`, so fractions pass and `skip = (page-1)*limit` is not a whole number | `page=1.5&limit=2.5` | page and limit are whole numbers | medium, not executed | Pagination.FractionalPageIsAccepted | Pagination.ValidateOffsetQuery |
| src/common/dto/pagination.dto.ts:12-16 | `page` has no upper bound and no integer check, so `Infinity` passes | `page=Infinity` | the page is a whole number | medium, not executed | Pagination.InfinitePageIsAccepted | Pagination.ValidateOffsetQuery |
| src/common/dto/pagination.dto.ts:32-47 | `sortBy` and `sortOrder` carry only `@IsOptional`, so any string passes although four fields and two orders are documented | `sortBy=foo` | only the documented sort fields and orders are accepted | medium, not executed | Pagination.UnknownSortIsAccepted | Pagination.ValidateOffsetQuery |
