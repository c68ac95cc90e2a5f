/** The document store the handlers use: a product collection and an order
    collection keyed by store-assigned identifiers, with the operations the
    handlers call on them (insert, find one by `_id`, find many by an
    equality query, count). */
module DocStore {
  import opened Ids
  import opened Documents

  /** A stored document as a read returns it: with its identifier under `_id`. */
  function WithId(id: ObjectId, doc: Document): Document
  {
    doc["_id" := Oid(id)]
  }

  /** A document stored without `_id` or `id` and without ObjectId values comes
      back from a read and `serialize_doc` as itself plus its identifier's text under `id`. */
  lemma SerializedStored(id: ObjectId, doc: Document)
    requires Plain(doc)
    ensures Serialized(WithId(id, doc)) == doc["id" := Str(IdText(id))]
  {
    assert WithId(id, doc) - {"_id"} == doc;
  }

  /** `find_one({"_id": ObjectId(text)})` on a collection: None when the text
      is not an identifier or no document has that identifier. */
  function FindIn(m: map<ObjectId, Document>, text: string): (r: Option<Document>)
    ensures r.Some? <==> ParseId(text).Some? && ParseId(text).value in m
    ensures r.Some? ==> "_id" in r.value && r.value["_id"] == Oid(ParseId(text).value)
  {
    match ParseId(text)
    case None => None
    case Some(id) => if id in m then Some(WithId(id, m[id])) else None
  }

  /** The equality test of a query field: the value itself, or an array holding it. */
  predicate FieldMatches(v: Value, want: Value)
  {
    v == want || (v.List? && want in v.items)
  }

  /** A document satisfies an equality query when it matches on every queried field. */
  predicate Matches(doc: Document, query: Document)
  {
    forall k | k in query :: k in doc && FieldMatches(doc[k], query[k])
  }

  /** `find(query)`: the documents that satisfy the query, in collection order;
      never more than the collection holds, and only documents from it. */
  function Select(docs: seq<Document>, query: Document): (r: seq<Document>)
    ensures |r| <= |docs|
    ensures forall d | d in r :: d in docs
  {
    if docs == [] then []
    else
      var last := docs[|docs| - 1];
      Select(docs[..|docs| - 1], query) + (if Matches(last, query) then [last] else [])
  }

  lemma {:induction false} SelectMembership(docs: seq<Document>, query: Document, d: Document)
    ensures d in Select(docs, query) <==> d in docs && Matches(d, query)
  {
    if docs != [] {
      var init := docs[..|docs| - 1];
      SelectMembership(init, query, d);
      assert docs == init + [docs[|docs| - 1]];
    }
  }

  /** The empty query matches every document. */
  lemma {:induction false} SelectEmptyQuery(docs: seq<Document>)
    ensures Select(docs, map[]) == docs
  {
    if docs != [] {
      SelectEmptyQuery(docs[..|docs| - 1]);
    }
  }

  /** The documents of a collection in insertion order, as reads return them. */
  function Listing(ids: seq<ObjectId>, m: map<ObjectId, Document>): (r: seq<Document>)
    ensures (forall i | 0 <= i < |ids| :: ids[i] in m) ==> |r| == |ids|
  {
    if ids == [] then []
    else
      var last := ids[|ids| - 1];
      Listing(ids[..|ids| - 1], m) + (if last in m then [WithId(last, m[last])] else [])
  }

  /** Every listed document carries its identifier under `_id`. */
  lemma {:induction false} ListingHasIds(ids: seq<ObjectId>, m: map<ObjectId, Document>)
    ensures forall d: Document | d in Listing(ids, m) :: "_id" in d && d["_id"].Oid?
  {
    if ids != [] {
      ListingHasIds(ids[..|ids| - 1], m);
    }
  }

  /** Documents inserted one after another from identifier `start` on. */
  function WithIds(start: nat, docs: seq<Document>): (r: seq<Document>)
    requires start + |docs| <= IdSpace
    ensures |r| == |docs|
  {
    if docs == [] then []
    else WithIds(start, docs[..|docs| - 1]) + [WithId(start + |docs| - 1, docs[|docs| - 1])]
  }

  /** The identifiers start, start + 1, ..., start + n - 1, in that order. */
  function FreshIds(start: nat, n: nat): (r: seq<ObjectId>)
    requires start + n <= IdSpace
    ensures |r| == n
  {
    if n == 0 then [] else FreshIds(start, n - 1) + [start + n - 1]
  }

  lemma {:induction false} FreshIdsAt(start: nat, n: nat)
    requires start + n <= IdSpace
    ensures forall i | 0 <= i < n :: FreshIds(start, n)[i] == start + i
  {
    if n > 0 {
      FreshIdsAt(start, n - 1);
    }
  }

  /** The collection m after docs are stored one by one from identifier start on. */
  function StoreAll(m: map<ObjectId, Document>, start: nat, docs: seq<Document>): map<ObjectId, Document>
    requires start + |docs| <= IdSpace
  {
    if docs == [] then m
    else StoreAll(m, start, docs[..|docs| - 1])[start + |docs| - 1 := docs[|docs| - 1]]
  }

  /** StoreAll keeps every earlier document and adds docs[i] under start + i. */
  lemma {:induction false} StoreAllFacts(m: map<ObjectId, Document>, start: nat, docs: seq<Document>)
    requires start + |docs| <= IdSpace
    ensures forall k | k in m :: k in StoreAll(m, start, docs)
    ensures forall k | k in m && k < start :: StoreAll(m, start, docs)[k] == m[k]
    ensures forall k | start <= k < start + |docs| :: k in StoreAll(m, start, docs) && StoreAll(m, start, docs)[k] == docs[k - start]
  {
    if docs != [] {
      var n := |docs|;
      var init := docs[..n - 1];
      var prev := StoreAll(m, start, init);
      StoreAllFacts(m, start, init);
      assert StoreAll(m, start, docs) == prev[start + n - 1 := docs[n - 1]];
      forall k | start <= k < start + n
        ensures k in StoreAll(m, start, docs) && StoreAll(m, start, docs)[k] == docs[k - start]
      {
        if k < start + n - 1 {
          assert prev[k] == init[k - start] == docs[k - start];
        }
      }
    }
  }

  lemma {:induction false} ListingFrame(ids: seq<ObjectId>, m: map<ObjectId, Document>, x: ObjectId, doc: Document)
    requires forall i | 0 <= i < |ids| :: ids[i] in m && ids[i] != x
    ensures Listing(ids, m[x := doc]) == Listing(ids, m)
  {
    if ids != [] {
      ListingFrame(ids[..|ids| - 1], m, x, doc);
    }
  }

  /** Appending a freshly stored document to a collection appends it to the listing. */
  lemma ListingAppend(ids: seq<ObjectId>, m: map<ObjectId, Document>, x: ObjectId, doc: Document)
    requires forall i | 0 <= i < |ids| :: ids[i] in m && ids[i] != x
    ensures Listing(ids + [x], m[x := doc]) == Listing(ids, m) + [WithId(x, doc)]
  {
    ListingFrame(ids, m, x, doc);
    assert (ids + [x])[..|ids|] == ids;
  }

  /** After storing docs from start on, the old identifiers followed by the
      fresh ones are all stored, and all below the next identifier. */
  lemma StoredBelow(ids: seq<ObjectId>, m: map<ObjectId, Document>, start: nat, docs: seq<Document>)
    requires forall i | 0 <= i < |ids| :: ids[i] in m && ids[i] < start
    requires start + |docs| <= IdSpace
    ensures forall i | 0 <= i < |ids + FreshIds(start, |docs|)| ::
      (ids + FreshIds(start, |docs|))[i] in StoreAll(m, start, docs) && (ids + FreshIds(start, |docs|))[i] < start + |docs|
  {
    var ids', m' := ids + FreshIds(start, |docs|), StoreAll(m, start, docs);
    StoreAllFacts(m, start, docs);
    FreshIdsAt(start, |docs|);
    forall i | 0 <= i < |ids'| ensures ids'[i] in m' && ids'[i] < start + |docs| {
      if i < |ids| {
        assert ids'[i] == ids[i];
      } else {
        assert ids'[i] == FreshIds(start, |docs|)[i - |ids|];
      }
    }
  }

  /** Storing documents under fresh identifiers appends them, in order, to the listing. */
  lemma {:induction false} ListingStoreAll(ids: seq<ObjectId>, m: map<ObjectId, Document>, start: nat, docs: seq<Document>)
    requires forall i | 0 <= i < |ids| :: ids[i] in m && ids[i] < start
    requires start + |docs| <= IdSpace
    ensures Listing(ids + FreshIds(start, |docs|), StoreAll(m, start, docs)) == Listing(ids, m) + WithIds(start, docs)
  {
    if docs == [] {
      assert ids + FreshIds(start, 0) == ids;
    } else {
      var n := |docs|;
      var init, x := docs[..n - 1], start + n - 1;
      var newIds, m' := FreshIds(start, n - 1), StoreAll(m, start, init);
      var ids' := ids + newIds;
      assert ids + FreshIds(start, n) == ids' + [x] by {
        assert FreshIds(start, n) == newIds + [x];
        AppendAssoc(ids, newIds, [x]);
      }
      assert StoreAll(m, start, docs) == m'[x := docs[n - 1]];
      assert Listing(ids' + [x], m'[x := docs[n - 1]]) == Listing(ids', m') + [WithId(x, docs[n - 1])] by {
        StoredBelow(ids, m, start, init);
        ListingAppend(ids', m', x, docs[n - 1]);
      }
      ListingStoreAll(ids, m, start, init);
      assert WithIds(start, docs) == WithIds(start, init) + [WithId(x, docs[n - 1])];
      AppendAssoc(Listing(ids, m), WithIds(start, init), [WithId(x, docs[n - 1])]);
    }
  }

  lemma AppendAssoc<T>(a: seq<T>, b: seq<T>, c: seq<T>)
    ensures a + (b + c) == (a + b) + c
  {
  }

  /** The set of identifiers in a sequence. */
  function Elems(ids: seq<ObjectId>): (r: set<ObjectId>)
  {
    if ids == [] then {} else Elems(ids[..|ids| - 1]) + {ids[|ids| - 1]}
  }

  /** Strictly ascending, hence without repetition. */
  predicate Increasing(ids: seq<ObjectId>)
  {
    ids == [] || (Increasing(ids[..|ids| - 1]) && (|ids| == 1 || ids[|ids| - 2] < ids[|ids| - 1]))
  }

  lemma {:induction false} ElemsIndex(ids: seq<ObjectId>, i: nat)
    requires i < |ids|
    ensures ids[i] in Elems(ids)
  {
    if i < |ids| - 1 {
      ElemsIndex(ids[..|ids| - 1], i);
    }
  }

  /** The product collection's invariant: the order lists exactly the stored
      identifiers, ascending (insertion order is allocation order, so no
      identifier is listed twice), and all of them are below the next
      identifier to hand out. */
  ghost predicate ProductsOk(ids: seq<ObjectId>, m: map<ObjectId, Document>, next: nat)
  {
    && (forall id | id in m :: id < next)
    && m.Keys == Elems(ids)
    && Increasing(ids)
  }

  /** Under the invariant every listed identifier is stored and below the next one. */
  lemma ProductsListed(ids: seq<ObjectId>, m: map<ObjectId, Document>, next: nat)
    requires ProductsOk(ids, m, next)
    ensures forall i | 0 <= i < |ids| :: ids[i] in m && ids[i] < next
  {
    forall i | 0 <= i < |ids| ensures ids[i] in m && ids[i] < next {
      ElemsIndex(ids, i);
    }
  }

  lemma ProductsAppend(ids: seq<ObjectId>, m: map<ObjectId, Document>, next: nat, doc: Document)
    requires ProductsOk(ids, m, next) && next < IdSpace
    ensures next !in m
    ensures ProductsOk(ids + [next], m[next := doc], next + 1)
  {
    var ids' := ids + [next];
    assert ids'[..|ids'| - 1] == ids;
    if ids != [] {
      ElemsIndex(ids, |ids| - 1);
    }
  }

  /** Storing documents under fresh identifiers keeps the product collection's invariant. */
  lemma {:induction false} ProductsStoreAll(ids: seq<ObjectId>, m: map<ObjectId, Document>, next: nat, docs: seq<Document>)
    requires ProductsOk(ids, m, next) && next + |docs| <= IdSpace
    ensures ProductsOk(ids + FreshIds(next, |docs|), StoreAll(m, next, docs), next + |docs|)
  {
    if docs != [] {
      var n := |docs|;
      var init := docs[..n - 1];
      ProductsStoreAll(ids, m, next, init);
      ProductsAppend(ids + FreshIds(next, n - 1), StoreAll(m, next, init), next + n - 1, docs[n - 1]);
      AppendAssoc(ids, FreshIds(next, n - 1), [next + n - 1]);
      assert FreshIds(next, n) == FreshIds(next, n - 1) + [next + n - 1];
      assert StoreAll(m, next, docs) == StoreAll(m, next, init)[next + n - 1 := docs[n - 1]];
    } else {
      assert ids + FreshIds(next, 0) == ids;
    }
  }

  class Store {
    /** False when no database handle exists (`db is None`). */
    var connected: bool
    var products: map<ObjectId, Document>
    /** Product identifiers in insertion order (the collection's natural order). */
    var productIds: seq<ObjectId>
    var orders: map<ObjectId, Document>
    /** The next identifier the store hands out; every stored identifier is below it. */
    var nextId: nat

    ghost predicate Valid()
      reads this
    {
      && nextId <= IdSpace
      && (forall id | id in orders :: id < nextId)
      && ProductsOk(productIds, products, nextId)
    }

    /** The products a lookup can see: none without a database. */
    function Visible(): map<ObjectId, Document>
      reads this
    {
      if connected then products else map[]
    }

    /** The product collection in insertion order as a query sees it. */
    function ProductListing(): seq<Document>
      reads this
    {
      if connected then Listing(productIds, products) else []
    }

    /** Whether n more documents can be inserted. */
    predicate CanInsert(n: nat)
      reads this
    {
      connected && nextId + n <= IdSpace
    }

    constructor (connected: bool)
      ensures Valid() && this.connected == connected
      ensures products == map[] && productIds == [] && orders == map[] && nextId == 0
    {
      this.connected := connected;
      products := map[];
      productIds := [];
      orders := map[];
      nextId := 0;
    }

    /** `db["product"].find_one({"_id": ObjectId(text)})`, where an unparsable
        text or a missing handle reads as no document. */
    method FindProduct(text: string) returns (r: Option<Document>)
      requires Valid()
      ensures r == FindIn(Visible(), text)
    {
      var parsed := ParseId(text);
      if !connected || parsed.None? || parsed.value !in products {
        return None;
      }
      r := Some(WithId(parsed.value, products[parsed.value]));
    }

    /** `db["order"].find_one({"_id": ObjectId(text)})`. */
    method FindOrder(text: string) returns (r: Option<Document>)
      requires Valid() && connected
      ensures r == FindIn(orders, text)
    {
      var parsed := ParseId(text);
      if parsed.None? || parsed.value !in orders {
        return None;
      }
      r := Some(WithId(parsed.value, orders[parsed.value]));
    }

    /** `db["product"].count_documents({})`. */
    method CountProducts() returns (n: nat)
      requires Valid() && connected
      ensures n == |ProductListing()|
      ensures n == 0 <==> products == map[]
    {
      ProductsListed(productIds, products, nextId);
      if productIds != [] {
        assert productIds[|productIds| - 1] in products;
      }
      n := |productIds|;
    }

    /** `get_documents("product", query)`: the products that satisfy the query,
        in insertion order; none without a database. */
    method FindProducts(query: Document) returns (r: seq<Document>)
      requires Valid()
      ensures r == Select(ProductListing(), query)
    {
      r := Select(ProductListing(), query);
    }

    /** `create_document("product", doc)`: store the document under a fresh
        identifier and return that identifier's text. */
    method InsertProduct(doc: Document) returns (r: Result<string>)
      requires Valid() && "_id" !in doc
      modifies this`products, this`productIds, this`nextId
      ensures Valid()
      ensures old(CanInsert(1)) ==>
        && r == Ok(IdText(old(nextId)))
        && old(nextId) !in old(products)
        && products == old(products)[old(nextId) := doc]
        && productIds == old(productIds) + [old(nextId)]
        && nextId == old(nextId) + 1
      ensures !old(CanInsert(1)) ==> r == Err(StoreUnavailable) && unchanged(this)
    {
      if !CanInsert(1) {
        return Err(StoreUnavailable);
      }
      var id: ObjectId := nextId;
      ProductsAppend(productIds, products, nextId, doc);
      products := products[id := doc];
      productIds := productIds + [id];
      nextId := nextId + 1;
      r := Ok(IdText(id));
    }

    /** `db["product"].insert_many(docs)`: store the documents in order under
        fresh identifiers, or nothing when the store cannot take them all. */
    method InsertManyProducts(docs: seq<Document>) returns (ok: bool)
      requires Valid() && forall i | 0 <= i < |docs| :: "_id" !in docs[i]
      modifies this`products, this`productIds, this`nextId
      ensures Valid()
      ensures ok == old(CanInsert(|docs|))
      ensures ok ==>
        && productIds == old(productIds) + FreshIds(old(nextId), |docs|)
        && products == StoreAll(old(products), old(nextId), docs)
        && nextId == old(nextId) + |docs|
      ensures !ok ==> unchanged(this)
    {
      if !CanInsert(|docs|) {
        return false;
      }
      ok := true;
      ProductsStoreAll(productIds, products, nextId, docs);
      productIds := productIds + FreshIds(nextId, |docs|);
      products := StoreAll(products, nextId, docs);
      nextId := nextId + |docs|;
    }

    /** `create_document("order", doc)`. */
    method InsertOrder(doc: Document) returns (r: Result<string>)
      requires Valid() && "_id" !in doc
      modifies this`orders, this`nextId
      ensures Valid()
      ensures old(CanInsert(1)) ==>
        && r == Ok(IdText(old(nextId)))
        && old(nextId) !in old(orders)
        && orders == old(orders)[old(nextId) := doc]
        && nextId == old(nextId) + 1
      ensures !old(CanInsert(1)) ==> r == Err(StoreUnavailable) && unchanged(this)
    {
      if !CanInsert(1) {
        return Err(StoreUnavailable);
      }
      var id: ObjectId := nextId;
      orders := orders[id := doc];
      nextId := nextId + 1;
      r := Ok(IdText(id));
    }
  }
}
