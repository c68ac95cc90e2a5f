# Smiley Store backend: a Dafny model of its order and catalogue logic

The Smiley Store backend is a small storefront API: it lists products by
category, creates products and places orders, all against a document store
with a `product` and an `order` collection. This project models the logic of
`main.py`:

- **Order placement** (`create_order`). The cart is priced item by item against
  the product collection. The first item that does not resolve fails the whole
  order and nothing is stored. Otherwise exactly one order document is stored
  under a fresh identifier, read back and serialized.
- **Seed-if-empty** (`ensure_seed_products` with `SEED_PRODUCTS`). The four
  starter products are meant to be inserted only when the product collection
  is empty. As written, the pass never inserts anything (see "## Findings"),
  so the model keeps both: the decision as written, and the corrected pass
  that the listing uses.
- **Listing by category** (`list_products`). The equality query is built from
  the optional category, then the matching products are returned serialized.
- **Product creation** (`create_product`). The request's fields are stored,
  read back and serialized.
- **Response shaping** (`serialize_doc`). `_id` moves to `id` as text, and
  top-level ObjectId values become text.

Files and modules:

- `ids.dfy` (`Ids`): ObjectIds as numbers below 2^96. Their 24-digit
  hexadecimal text (`str(oid)`), and the parse `ObjectId(text)`. The model
  rejects anything that is not 24 hex digits.
- `documents.dfy` (`Documents`): BSON values and documents, the failures a
  handler reports (`NotFound`, `StoreUnavailable`, `PriceNotNumeric`), and
  `serialize_doc` as a specification function `Serialized` plus the loop
  `SerializeDoc` proved against it.
- `store.dfy` (`DocStore`): the document store as a class `Store`.
  - Each collection is a map from identifier to document. The product
    collection also keeps its insertion order.
  - Identifiers are allocated from a counter.
  - The store supports find-one-by-identifier, find-many-by-equality-query,
    count, insert and insert-many.
  - With no database handle, reads see nothing and inserts fail.
- `catalog.dfy` (`Catalog`): the starter catalogue, seeding, listing and
  product creation.
- `orders.dfy` (`Orders`): cart items, line items, the pricing loop, rounding,
  the order document and `create_order`.

Request validation is carried as preconditions:

- `Orders.ValidCart`: every quantity is between 1 and 10 (main.py:46).
- `Catalog.ValidProduct`: the price is not negative (main.py:37).

Behaviour of the code that the model keeps, though one might expect otherwise:

- With no database handle, a non-empty cart fails as not found, not as a
  server error. The lookup raises inside the `try` at main.py:164-167, and
  that is read as "no product".
- An empty cart is accepted (main.py:54 sets no minimum length). It places an
  order with no lines and a total of 0.
- A category query matches a document whose `category` is that string or an
  array holding it. This is the store's equality semantics, not plain string
  equality.

One behaviour of the code is not kept: seeding follows the corrected
`db is not None` test (see "## Findings"). As written at main.py:108 it
never runs, and the first listing of an empty store is empty. Every row
below that speaks of seeding, including `ListProducts` and the
first-listing lemmas, is about the corrected seeding.

## Model

| member | source | states |
|---|---|---|
| Ids.ParseId | main.py:165 | `ObjectId(text)` succeeds only on 24-character text |
| Ids.ParseIdText | main.py:154-155 | the text of a stored identifier parses back to that identifier, so reading back by the returned id finds the document |
| Ids.IdTextOfParse | main.py:165 | any text that parses is the identifier's own text up to letter case |
| Ids.IdTextInjective | main.py:188-190 | distinct identifiers have distinct texts |
| Documents.Serialized | main.py:22-30 | the result has no `_id`; `id` holds `str(_id)` when `_id` was present; every other key keeps its value, with ObjectIds turned into their text; no top-level ObjectId remains; the key set is the input's with `_id` renamed to `id` |
| Documents.SerializeDoc | main.py:22-30 | the copy-pop-rewrite loop returns exactly `Serialized(doc)`; the input is a value and is not changed |
| Documents.SerializedIdRoundTrip | main.py:24-25 | an ObjectId under `_id` comes back as text under `id` that parses to the same identifier |
| Documents.SerializedIdempotent | main.py:22-30 | serializing a serialized document changes nothing |
| DocStore.SerializedStored | main.py:154-156 | a plain document stored and read back serializes to itself plus `id` |
| DocStore.FindIn | main.py:165 | a lookup by identifier text finds a document exactly when the text parses and names a stored document, and the document found carries that identifier under `_id` |
| DocStore.Select | main.py:149 | a query returns no more documents than the collection holds, and only documents from it |
| DocStore.SelectMembership | main.py:149 | a document is found by a query exactly when it is in the collection and matches every queried field |
| DocStore.SelectEmptyQuery | main.py:148-149 | the empty query returns the whole collection in order |
| DocStore.ListingHasIds | main.py:149-150 | every document a read returns carries its ObjectId under `_id` |
| DocStore.ListingStoreAll | main.py:110 | a bulk insert appends the new documents, in order and each with its new identifier, to the collection's listing |
| DocStore.ProductsStoreAll | main.py:110 | a bulk insert keeps the product collection's invariant: the order lists each stored identifier once, ascending |
| DocStore.Store.FindProduct | main.py:164-167 | a product lookup returns the document with its `_id`, or nothing when the text does not parse, the identifier is unknown or there is no handle |
| DocStore.Store.FindOrder | main.py:189 | an order lookup by identifier text returns the stored order with its `_id`, or nothing |
| DocStore.Store.CountProducts | main.py:108 | the count is the listing's length, and it is zero exactly when the collection is empty |
| DocStore.Store.FindProducts | main.py:149 | the products matching the query, in insertion order |
| DocStore.Store.InsertProduct | main.py:154 | one product stored under a fresh identifier whose text is returned; the collection and its order grow by that entry; with no handle or no identifier left, StoreUnavailable and no change |
| DocStore.Store.InsertManyProducts | main.py:110 | all documents stored under consecutive fresh identifiers, or none when there is no handle or not enough identifiers |
| DocStore.Store.InsertOrder | main.py:188 | one order stored under a fresh identifier whose text is returned, or StoreUnavailable and no change |
| Catalog.EnsureSeedProducts | main.py:106-112 | with the corrected seeding test: when a handle exists, the collection is empty and identifiers suffice, the four starter products are inserted in order; otherwise the store is unchanged and nothing is raised |
| Catalog.SeedDecisionAsWritten | main.py:108 | the decision as written never seeds a store that the corrected pass would leave alone |
| Catalog.SeedDecisionsDiffer | main.py:108-110 | the as-written and corrected decisions disagree exactly on reachable stores with an empty product collection |
| Catalog.SeedingNeverRunsAsWritten | main.py:108-112 | as written, the seeding pass never inserts, on any store |
| Catalog.SeedCatalogue | main.py:59-104 | the starter catalogue is four products in this order: Smiley Classic Hoodie 59.0 (hoodies), Smiley Minimal Tee 24.0 (t-shirts), Smiley Oversized Hoodie 72.0 (hoodies), Smiley Retro Tee 29.0 (t-shirts), each in stock in sizes S, M, L, XL |
| Catalog.SeedsClean | main.py:59-104 | the starter documents carry no `_id`, no `id` and no ObjectId |
| Catalog.SeededListing | main.py:59-110 | with the corrected seeding, seeding an empty collection makes its listing the four starter products in order, each with its identifier |
| Catalog.FirstListingIsSeeds | main.py:145-150 | with the corrected seeding, the first listing of an empty store, without a category, is the starter catalogue in order |
| Catalog.FirstListingResponse | main.py:145-150 | with the corrected seeding, that listing's response is each starter product plus its identifier's text under `id`, in order |
| Catalog.Query | main.py:148 | the query is empty exactly when the category is absent or empty |
| Catalog.ListedByCategory | main.py:148-149 | with a non-empty category, exactly the products filed under it are listed; otherwise every product is |
| Catalog.ListedAll | main.py:148-149 | with no category or an empty one, the listing is every product in order |
| Catalog.ListProducts | main.py:145-150 | seeds as the corrected `EnsureSeedProducts` does, then returns the serialized products matching the category query, in order |
| Catalog.SerializedAll | main.py:150 | the response holds one entry per listed document, and entry i is document i serialized |
| Catalog.SerializeAll | main.py:150 | each document serialized, in order |
| Catalog.ProductDoc | main.py:154 | the stored product document carries no `_id`, `id` or ObjectId |
| Catalog.CreateProduct | main.py:152-156 | stores the request's fields under a fresh identifier and returns the stored document serialized, or StoreUnavailable with no change |
| Catalog.CreatedWithDefaults | main.py:34-41 | a creation request giving only title, price and category comes back with no description, no images, sizes S, M, L, XL, in stock, and the new identifier's text under `id` |
| Catalog.CreatedProductEcho | main.py:154-156 | the created product returned is the request's fields plus `id`, whose text parses back to the new identifier |
| Orders.AsFloat | main.py:170 | `float()` succeeds exactly on integers, floats and booleans |
| Orders.PriceOf | main.py:170 | a missing price counts as 0, a stored number is the price, and the price fails exactly when it is present but not something `float()` accepts |
| Orders.TitleOf | main.py:175 | a line's title is the stored title, and it is None exactly when the product has no title or a null one |
| Orders.ResolveItem | main.py:163-180 | one item fails exactly when its product is not found or its price is not numeric, and the failure is not-found or price-not-numeric for that item's id |
| Orders.Resolve | main.py:163-180 | a resolved cart has one line per item, and a failed one fails with a lookup or price failure naming one of the cart's product ids |
| Orders.PriceCart | main.py:161-180 | the pricing loop returns the line items the cart resolves to, or the first item's failure, and its running total is the sum of the line totals |
| Orders.ResolveItemOk | main.py:163-180 | a priced line carries the item's product id, size and quantity, the product's stored title and price (0 if absent), and price times quantity |
| Orders.NotFoundIff | main.py:164-169 | an item fails as not found exactly when its id does not parse or names no visible product, and every failure names the item's id as given |
| Orders.ResolveOk | main.py:163-180 | the cart resolves exactly when every item does, and then line i comes from item i |
| Orders.ResolveFirstFailure | main.py:163-169 | when item k is the first that fails, the cart fails with item k's failure |
| Orders.ResolvePrefixErr | main.py:168-169 | a failure in a prefix of the cart is the failure of the whole cart |
| Orders.OrderDoc | main.py:182-187 | the order document has no `_id`, `id` or ObjectId, so it can be inserted as is |
| Orders.PlannedOrder | main.py:161-187 | an order is placed exactly when every item resolves; its document is plain, received, and holds one line per cart item |
| Orders.PlannedOrderTotal | main.py:161-187 | the order is received, and its total is within half a cent of the sum of line totals, and equal to it when that sum is whole cents |
| Orders.Round2 | main.py:185 | rounding to 2 places moves a value by at most 0.005 |
| Orders.Round2Exact | main.py:185 | a whole number of cents is left unchanged |
| Orders.Round2Cents | main.py:185 | n/100 rounds to itself |
| Orders.Round2Idempotent | main.py:185 | the rounded value is whole cents and rounding it again changes nothing |
| Orders.Round2TiesEven | main.py:185 | a value exactly halfway between two cents rounds to the even one |
| Orders.Round2HalfEven | main.py:185 | two instances of that rule: 0.125 rounds to 0.12 and 0.135 to 0.14 |
| Orders.CreateOrder | main.py:158-190 | on an item failure, returns that failure and stores nothing; otherwise stores exactly the planned order under the next fresh identifier and returns it read back and serialized, or StoreUnavailable with no change; products are outside its frame |
| Orders.UnknownProduct | main.py:165-169 | a cart naming "does-not-exist" fails as not found with that id on any store |
| Orders.HoodieLines | main.py:163-180 | two of a product stored as the Classic Hoodie at 59.0, in size M, give one line at 59.0 totalling 118.0 |
| Orders.HoodieOrder | main.py:182-187 | that order totals 118.0 and is received |
| Orders.SeededHoodieOrder | main.py:158-187 | on the freshly seeded catalogue (corrected seeding), two Classic Hoodies in size M ordered by the first seeded identifier give an order totalling 118.0 |
| Orders.ReadFields | main.py:170-175 | reading a product back leaves its title and price as stored |
| Orders.PlaceTwice | main.py:188-190 | placing the same cart twice, when both succeed, yields orders with different `id`s |

## Left out

- The web layer is not modelled: the FastAPI app, CORS middleware, route decorators, the root route, the `/test` health endpoint and the uvicorn entry point.
- The `database` module is not part of this model. Its `db`, `create_document` and `get_documents` are replaced by the `Store` class. Anything those helpers add to a document, such as timestamps, is not modelled.
- Ids.ParseId: accepts exactly 24 hex digits. bson's `ObjectId(text)` hands any 24-character text to `bytes.fromhex`, which skips ASCII whitespace, so text such as 22 hex digits plus two spaces is accepted there and rejected here. Such an identifier names no stored document, so a lookup still finds nothing.
- ObjectIds are allocated from a counter. Their timestamp, machine and random parts are not modelled. Running out of the 2^96 identifiers counts as a store failure.
- HTTP status codes are not modelled. 404 becomes `NotFound`. A server error becomes `StoreUnavailable`, or `PriceNotNumeric` when `float()` raises on a price.
- Prices are exact `real`s, not floats, and `Round2` rounds the exact sum half-even. Float rounding error in `price * quantity`, in the running sum and in `round` is not modelled. For example, Python's `round(2.675, 2)` gives 2.67 because the float lies just below the tie, while `Round2(2.675)` is 2.68.
- Orders.AsFloat: `float()` of numeric text such as "12.5" is treated as failing, where Python would parse it.
- Documents.Serialized: requires `_id`, when present, to be null, a boolean, an integer, a string or an ObjectId. `str()` of other `_id` values (floats, arrays, documents) is not modelled. Stored documents always carry an ObjectId there.
- Pydantic is modelled only as the two preconditions above. Type coercion and the 422 response are not modelled.
- `async` execution and the check-then-insert race between concurrent first listings are not modelled.
- PyMongo's `insert_many` adds `_id` to the `SEED_PRODUCTS` dicts in place. That mutation of the constant is not modelled.
- Sizes are not checked against the product's `sizes`. The code does not check them either.
- `schemas.py` is not modelled.
- Orders.CreateOrder: "the product collection is untouched" is stated by its frame (it may modify only `orders` and `nextId`), not by an `ensures` clause.

## Findings

| source | as written | input that shows it | evidently intended | confidence | as-written member | corrected member |
|---|---|---|---|---|---|---|
| main.py:108 | `... if db else 0` tests the handle's truth value. A PyMongo 4 `Database` raises `NotImplementedError` on `bool()`, and the bare `except` at main.py:111-112 swallows it. With no handle, `db["product"]` raises on None and is swallowed too. So seeding never runs. | a connected store whose product collection is empty: nothing is inserted, and the first listing is empty | `if db is not None`: seed when the collection is empty | medium; not executed; assumes `db` is a PyMongo 4 `Database` (the `database` module is not part of this model) | Catalog.SeedingNeverRunsAsWritten | Catalog.EnsureSeedProducts |
