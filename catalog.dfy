/** The product side of the storefront: the seed catalogue and seed-if-empty
    (main.py:59-112), product creation (main.py:34-41, 152-156) and listing
    by category (main.py:145-150). */
module Catalog {
  import opened Ids
  import opened Documents
  import opened DocStore

  /** The size labels a product offers unless told otherwise. */
  const DefaultSizes: seq<string> := ["S", "M", "L", "XL"]

  function Strs(xs: seq<string>): (r: seq<Value>)
    ensures |r| == |xs| && forall i | 0 <= i < |xs| :: r[i] == Str(xs[i])
  {
    if xs == [] then [] else Strs(xs[..|xs| - 1]) + [Str(xs[|xs| - 1])]
  }

  /** One starter product: a single image, every default size, in stock. */
  function SeedDoc(title: string, description: string, price: real, category: string, image: string): Document
  {
    map[
      "title" := Str(title),
      "description" := Str(description),
      "price" := Num(price),
      "category" := Str(category),
      "images" := List([Str(image)]),
      "sizes" := List(Strs(DefaultSizes)),
      "in_stock" := Bool(true)
    ]
  }

  /** The fixed starter catalogue, in insertion order. */
  const SeedProducts: seq<Document> := [
    SeedDoc("Smiley Classic Hoodie", "Cozy fleece hoodie with the iconic Smiley front print.", 59.0, "hoodies",
      "https://images.unsplash.com/photo-1548883354-7622d03acae1?q=80&w=1600&auto=format&fit=crop"),
    SeedDoc("Smiley Minimal Tee", "Soft cotton t\U{2011}shirt with a subtle embroidered smile.", 24.0, "t-shirts",
      "https://images.unsplash.com/photo-1512436991641-6745cdb1723f?q=80&w=1600&auto=format&fit=crop"),
    SeedDoc("Smiley Oversized Hoodie", "Premium heavyweight hoodie, oversized fit.", 72.0, "hoodies",
      "https://images.unsplash.com/photo-1544441893-675973e31985?q=80&w=1600&auto=format&fit=crop"),
    SeedDoc("Smiley Retro Tee", "90s inspired graphic tee with retro smile.", 29.0, "t-shirts",
      "https://images.unsplash.com/photo-1503342217505-b0a15cf70489?q=80&w=1600&auto=format&fit=crop")
  ]

  /** A seeding pass inserts: the corrected decision says so and the store
      has room for the identifiers. */
  predicate NeedsSeed(connected: bool, products: map<ObjectId, Document>, nextId: nat)
  {
    SeedDecision(connected, |products|) == InsertSeeds && nextId + |SeedProducts| <= IdSpace
  }

  /** `ensure_seed_products` with a database handle that can be tested against
      None: count the products and insert the starter catalogue when there are
      none. Every failure (no handle, no room for the identifiers) is swallowed
      and leaves the store as it was. */
  method EnsureSeedProducts(store: Store)
    requires store.Valid()
    modifies store`products, store`productIds, store`nextId
    ensures store.Valid()
    ensures old(NeedsSeed(store.connected, store.products, store.nextId)) ==>
      && store.productIds == FreshIds(old(store.nextId), |SeedProducts|)
      && store.products == StoreAll(map[], old(store.nextId), SeedProducts)
      && store.nextId == old(store.nextId) + |SeedProducts|
    ensures !old(NeedsSeed(store.connected, store.products, store.nextId)) ==> unchanged(store)
  {
    if !store.connected {
      return;
    }
    var count := store.CountProducts();
    if count == 0 {
      var ok := store.InsertManyProducts(SeedProducts);
    }
  }

  /** The outcome of one seeding pass. */
  datatype SeedStep = Skip | InsertSeeds

  /** What the corrected seeding pass does: insert the starter catalogue exactly
      when a handle exists and the collection is empty. */
  function SeedDecision(connected: bool, count: nat): (s: SeedStep)
  {
    if connected && count == 0 then InsertSeeds else Skip
  }

  /** `bool(db)`: None is false; a PyMongo 4 database handle refuses truth
      testing and raises (None here). */
  function Truthiness(connected: bool): Option<bool>
  {
    if connected then None else Some(false)
  }

  /** `ensure_seed_products` as main.py:106-112 writes it: `if db` raises for a
      real handle and `db["product"]` raises for None, and the bare `except`
      turns either into doing nothing. It never seeds a store the corrected
      pass would leave alone. */
  function SeedDecisionAsWritten(connected: bool, count: nat): (s: SeedStep)
    ensures s == InsertSeeds ==> SeedDecision(connected, count) == InsertSeeds
  {
    match Truthiness(connected)
    case None => Skip
    case Some(truthy) =>
      var seen := if truthy then count else 0;
      if seen == 0 && connected then InsertSeeds else Skip
  }

  /** As written, no store is ever seeded, while the corrected pass seeds
      every empty one. */
  lemma SeedingNeverRunsAsWritten(connected: bool, count: nat)
    ensures SeedDecisionAsWritten(connected, count) == Skip
    ensures SeedDecision(true, 0) == InsertSeeds
  {
  }

  /** The as-written and the corrected pass disagree exactly on the stores
      that matter: reachable ones with an empty product collection. */
  lemma SeedDecisionsDiffer(connected: bool, count: nat)
    ensures SeedDecisionAsWritten(connected, count) != SeedDecision(connected, count) <==> connected && count == 0
  {
  }

  /** The fields a starter document is built with, read back. */
  lemma SeedDocFields(title: string, description: string, price: real, category: string, image: string)
    ensures var d := SeedDoc(title, description, price, category, image);
      && "title" in d && d["title"] == Str(title)
      && "price" in d && d["price"] == Num(price)
      && "category" in d && d["category"] == Str(category)
      && "in_stock" in d && d["in_stock"] == Bool(true)
      && "sizes" in d && d["sizes"] == List(Strs(DefaultSizes))
  {
  }

  /** The starter catalogue: four products, in this order, with these titles,
      prices and categories, each in stock in every default size. */
  lemma SeedCatalogue()
    ensures |SeedProducts| == 4
    ensures forall i | 0 <= i < 4 :: "title" in SeedProducts[i] && "price" in SeedProducts[i] && "category" in SeedProducts[i]
    ensures SeedProducts[0]["title"] == Str("Smiley Classic Hoodie") && SeedProducts[0]["price"] == Num(59.0) && SeedProducts[0]["category"] == Str("hoodies")
    ensures SeedProducts[1]["title"] == Str("Smiley Minimal Tee") && SeedProducts[1]["price"] == Num(24.0) && SeedProducts[1]["category"] == Str("t-shirts")
    ensures SeedProducts[2]["title"] == Str("Smiley Oversized Hoodie") && SeedProducts[2]["price"] == Num(72.0) && SeedProducts[2]["category"] == Str("hoodies")
    ensures SeedProducts[3]["title"] == Str("Smiley Retro Tee") && SeedProducts[3]["price"] == Num(29.0) && SeedProducts[3]["category"] == Str("t-shirts")
    ensures forall i | 0 <= i < 4 :: "in_stock" in SeedProducts[i] && SeedProducts[i]["in_stock"] == Bool(true)
    ensures forall i | 0 <= i < 4 :: "sizes" in SeedProducts[i] && SeedProducts[i]["sizes"] == List(Strs(DefaultSizes))
  {
    SeedDocFields("Smiley Classic Hoodie", "Cozy fleece hoodie with the iconic Smiley front print.", 59.0, "hoodies",
      "https://images.unsplash.com/photo-1548883354-7622d03acae1?q=80&w=1600&auto=format&fit=crop");
    SeedDocFields("Smiley Minimal Tee", "Soft cotton t\U{2011}shirt with a subtle embroidered smile.", 24.0, "t-shirts",
      "https://images.unsplash.com/photo-1512436991641-6745cdb1723f?q=80&w=1600&auto=format&fit=crop");
    SeedDocFields("Smiley Oversized Hoodie", "Premium heavyweight hoodie, oversized fit.", 72.0, "hoodies",
      "https://images.unsplash.com/photo-1544441893-675973e31985?q=80&w=1600&auto=format&fit=crop");
    SeedDocFields("Smiley Retro Tee", "90s inspired graphic tee with retro smile.", 29.0, "t-shirts",
      "https://images.unsplash.com/photo-1503342217505-b0a15cf70489?q=80&w=1600&auto=format&fit=crop");
  }

  /** Seeding an empty collection from identifier n on makes the listing the
      four starter products in order, each with its identifier. */
  lemma SeededListing(n: nat)
    requires n + |SeedProducts| <= IdSpace
    ensures Listing(FreshIds(n, |SeedProducts|), StoreAll(map[], n, SeedProducts)) == WithIds(n, SeedProducts)
  {
    ListingStoreAll([], map[], n, SeedProducts);
    assert [] + FreshIds(n, |SeedProducts|) == FreshIds(n, |SeedProducts|);
  }

  /** The i-th document of a run of fresh insertions is the i-th input under identifier start + i. */
  lemma {:induction false} WithIdsAt(start: nat, docs: seq<Document>, i: nat)
    requires start + |docs| <= IdSpace && i < |docs|
    ensures WithIds(start, docs)[i] == WithId(start + i, docs[i])
  {
    if i < |docs| - 1 {
      WithIdsAt(start, docs[..|docs| - 1], i);
    }
  }

  /** `{"category": category} if category else {}`. */
  function Query(category: Option<string>): (q: Document)
    ensures q == map[] <==> category.None? || category.value == ""
  {
    if category.Some? && category.value != "" then
      var q := map["category" := Str(category.value)];
      assert "category" in q;
      q
    else map[]
  }

  /** The products a listing returns: with a non-empty category exactly those
      filed under it (or holding it in an array), otherwise all of them. */
  lemma ListedByCategory(docs: seq<Document>, category: Option<string>, d: Document)
    ensures d in Select(docs, Query(category)) <==>
      d in docs && (category.Some? && category.value != "" ==> "category" in d && FieldMatches(d["category"], Str(category.value)))
  {
    SelectMembership(docs, Query(category), d);
  }

  /** With no category, or an empty one, the listing is every product in order. */
  lemma ListedAll(docs: seq<Document>, category: Option<string>)
    requires category.None? || category.value == ""
    ensures Select(docs, Query(category)) == docs
  {
    SelectEmptyQuery(docs);
  }

  /** The response body of a listing: each document serialized, in order. */
  function SerializedAll(docs: seq<Document>): (r: seq<Document>)
    requires forall d | d in docs :: Serializable(d)
    ensures |r| == |docs|
    ensures forall i | 0 <= i < |docs| :: r[i] == Serialized(docs[i])
  {
    if docs == [] then [] else SerializedAll(docs[..|docs| - 1]) + [Serialized(docs[|docs| - 1])]
  }

  /** `list_products`: seed if empty, query by category, serialize each result. */
  method ListProducts(store: Store, category: Option<string>) returns (r: seq<Document>)
    requires store.Valid()
    modifies store`products, store`productIds, store`nextId
    ensures store.Valid()
    ensures old(NeedsSeed(store.connected, store.products, store.nextId)) ==>
      && store.productIds == FreshIds(old(store.nextId), |SeedProducts|)
      && store.products == StoreAll(map[], old(store.nextId), SeedProducts)
      && store.nextId == old(store.nextId) + |SeedProducts|
    ensures !old(NeedsSeed(store.connected, store.products, store.nextId)) ==> unchanged(store)
    ensures forall d | d in Select(store.ProductListing(), Query(category)) :: Serializable(d)
    ensures r == SerializedAll(Select(store.ProductListing(), Query(category)))
  {
    EnsureSeedProducts(store);
    var found := store.FindProducts(Query(category));
    ListedSerializable(store.productIds, store.products, Query(category));
    r := SerializeAll(found);
  }

  /** Every document a query returns can be serialized: it carries an ObjectId under `_id`. */
  lemma ListedSerializable(ids: seq<ObjectId>, m: map<ObjectId, Document>, query: Document)
    ensures forall d | d in Select(Listing(ids, m), query) :: Serializable(d)
  {
    forall d | d in Select(Listing(ids, m), query) ensures Serializable(d) {
      SelectMembership(Listing(ids, m), query, d);
      ListingHasIds(ids, m);
    }
  }

  /** `[serialize_doc(p) for p in products]`. */
  method SerializeAll(docs: seq<Document>) returns (r: seq<Document>)
    requires forall d | d in docs :: Serializable(d)
    ensures r == SerializedAll(docs)
  {
    r := [];
    var i := 0;
    while i < |docs|
      invariant 0 <= i <= |docs|
      invariant r == SerializedAll(docs[..i])
    {
      var d := SerializeDoc(docs[i]);
      assert docs[..i + 1][..i] == docs[..i];
      r := r + [d];
      i := i + 1;
    }
    assert docs[..i] == docs;
  }

  /** The body of a product-creation request. */
  datatype ProductCreate = ProductCreate(
    title: string,
    description: Option<string>,
    price: real,
    category: string,
    images: seq<string>,
    sizes: seq<string>,
    inStock: bool)

  /** The request validation: a price may not be negative. */
  predicate ValidProduct(p: ProductCreate)
  {
    p.price >= 0.0
  }

  /** A request that gives only the required fields: no description, no
      images, every default size, in stock. */
  function WithDefaults(title: string, price: real, category: string): ProductCreate
  {
    ProductCreate(title, None, price, category, [], DefaultSizes, true)
  }

  /** `p.model_dump()`: the document stored for a creation request. */
  function ProductDoc(p: ProductCreate): (d: Document)
    ensures Plain(d)
  {
    map[
      "title" := Str(p.title),
      "description" := (if p.description.Some? then Str(p.description.value) else Null),
      "price" := Num(p.price),
      "category" := Str(p.category),
      "images" := List(Strs(p.images)),
      "sizes" := List(Strs(p.sizes)),
      "in_stock" := Bool(p.inStock)
    ]
  }

  /** `create_product`: store the request's fields under a fresh identifier,
      read the stored product back and serialize it. */
  method CreateProduct(store: Store, p: ProductCreate) returns (r: Result<Document>)
    requires store.Valid() && ValidProduct(p)
    modifies store`products, store`productIds, store`nextId
    ensures store.Valid()
    ensures old(store.CanInsert(1)) ==>
      && r == Ok(Serialized(WithId(old(store.nextId), ProductDoc(p))))
      && store.products == old(store.products)[old(store.nextId) := ProductDoc(p)]
      && store.productIds == old(store.productIds) + [old(store.nextId)]
      && store.nextId == old(store.nextId) + 1
    ensures !old(store.CanInsert(1)) ==> r == Err(StoreUnavailable) && unchanged(store)
  {
    ghost var id := store.nextId;
    var inserted := store.InsertProduct(ProductDoc(p));
    if inserted.Err? {
      return Err(StoreUnavailable);
    }
    ParseIdText(id);
    var found := store.FindProduct(inserted.value);
    var d := SerializeDoc(found.value);
    r := Ok(d);
  }

  /** A creation request that gives only the required fields comes back with
      the defaults filled in: no description, no images, sizes S, M, L and XL,
      in stock, plus the new identifier's text under `id`. */
  lemma CreatedWithDefaults(title: string, price: real, category: string, id: ObjectId)
    ensures Serialized(WithId(id, ProductDoc(WithDefaults(title, price, category)))) == map[
      "title" := Str(title),
      "description" := Null,
      "price" := Num(price),
      "category" := Str(category),
      "images" := List([]),
      "sizes" := List([Str("S"), Str("M"), Str("L"), Str("XL")]),
      "in_stock" := Bool(true),
      "id" := Str(IdText(id))
    ]
  {
    var p := WithDefaults(title, price, category);
    SerializedStored(id, ProductDoc(p));
    assert Strs(p.images) == [];
    assert Strs(p.sizes) == [Str("S"), Str("M"), Str("L"), Str("XL")];
  }

  /** The product a creation returns is the request's fields plus the
      identifier's text under `id`, which parses back to the identifier. */
  lemma CreatedProductEcho(p: ProductCreate, id: ObjectId)
    ensures Serialized(WithId(id, ProductDoc(p))) == ProductDoc(p)["id" := Str(IdText(id))]
    ensures ParseId(Serialized(WithId(id, ProductDoc(p)))["id"].s) == Some(id)
  {
    SerializedStored(id, ProductDoc(p));
    ParseIdText(id);
  }

  /** Every starter document is stored as given: no `_id`, no `id`, no ObjectId. */
  lemma SeedDocClean(title: string, description: string, price: real, category: string, image: string)
    ensures "_id" !in SeedDoc(title, description, price, category, image)
    ensures "id" !in SeedDoc(title, description, price, category, image)
    ensures NoOids(SeedDoc(title, description, price, category, image))
  {
  }

  lemma SeedsClean()
    ensures forall i | 0 <= i < |SeedProducts| :: Plain(SeedProducts[i])
  {
    SeedDocClean("Smiley Classic Hoodie", "Cozy fleece hoodie with the iconic Smiley front print.", 59.0, "hoodies",
      "https://images.unsplash.com/photo-1548883354-7622d03acae1?q=80&w=1600&auto=format&fit=crop");
    SeedDocClean("Smiley Minimal Tee", "Soft cotton t\U{2011}shirt with a subtle embroidered smile.", 24.0, "t-shirts",
      "https://images.unsplash.com/photo-1512436991641-6745cdb1723f?q=80&w=1600&auto=format&fit=crop");
    SeedDocClean("Smiley Oversized Hoodie", "Premium heavyweight hoodie, oversized fit.", 72.0, "hoodies",
      "https://images.unsplash.com/photo-1544441893-675973e31985?q=80&w=1600&auto=format&fit=crop");
    SeedDocClean("Smiley Retro Tee", "90s inspired graphic tee with retro smile.", 29.0, "t-shirts",
      "https://images.unsplash.com/photo-1503342217505-b0a15cf70489?q=80&w=1600&auto=format&fit=crop");
  }

  /** The first listing of an empty store seeded from identifier n on, with no
      category, is the starter catalogue in order. */
  lemma FirstListingIsSeeds(n: nat)
    requires n + |SeedProducts| <= IdSpace
    ensures Select(Listing(FreshIds(n, |SeedProducts|), StoreAll(map[], n, SeedProducts)), Query(None)) == WithIds(n, SeedProducts)
  {
    SeededListing(n);
    ListedAll(WithIds(n, SeedProducts), None);
  }

  /** Reading back and serializing a run of plain documents stored from
      identifier start on gives each document plus its identifier's text. */
  lemma SerializedRun(start: nat, docs: seq<Document>)
    requires start + |docs| <= IdSpace
    requires forall i | 0 <= i < |docs| :: Plain(docs[i])
    ensures forall d | d in WithIds(start, docs) :: Serializable(d)
    ensures |SerializedAll(WithIds(start, docs))| == |docs|
    ensures forall i | 0 <= i < |docs| :: SerializedAll(WithIds(start, docs))[i] == docs[i]["id" := Str(IdText(start + i))]
  {
    var listing := WithIds(start, docs);
    forall d | d in listing ensures Serializable(d) {
      var i :| 0 <= i < |listing| && listing[i] == d;
      WithIdsAt(start, docs, i);
    }
    forall i | 0 <= i < |docs|
      ensures SerializedAll(listing)[i] == docs[i]["id" := Str(IdText(start + i))]
    {
      SerializedRunAt(start, docs, i);
    }
  }

  lemma SerializedRunAt(start: nat, docs: seq<Document>, i: nat)
    requires start + |docs| <= IdSpace && i < |docs|
    requires forall d | d in WithIds(start, docs) :: Serializable(d)
    requires Plain(docs[i])
    ensures SerializedAll(WithIds(start, docs))[i] == docs[i]["id" := Str(IdText(start + i))]
  {
    var id: ObjectId := start + i;
    var doc := docs[i];
    var listing := WithIds(start, docs);
    WithIdsAt(start, docs, i);
    assert listing[i] == WithId(id, doc);
    SerializedStored(id, doc);
  }

  /** The response to that listing: the four starter products in order, each
      with its identifier's text under `id`. */
  lemma FirstListingResponse(n: nat)
    requires n + |SeedProducts| <= IdSpace
    ensures forall d | d in WithIds(n, SeedProducts) :: Serializable(d)
    ensures |SerializedAll(WithIds(n, SeedProducts))| == |SeedProducts|
    ensures forall i | 0 <= i < |SeedProducts| :: SerializedAll(WithIds(n, SeedProducts))[i] == SeedProducts[i]["id" := Str(IdText(n + i))]
  {
    SeedsClean();
    SerializedRun(n, SeedProducts);
  }

}
