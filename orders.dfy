/** Order placement, `create_order` (main.py:158-190): price every cart item
    against the product collection, fail on the first item that does not
    resolve, then store one order document and return it as read back. */
module Orders {
  import opened Ids
  import opened Documents
  import opened DocStore
  import opened Catalog

  /** One cart entry of the request body. */
  datatype CartItem = CartItem(productId: string, size: string, quantity: int)

  datatype Customer = Customer(name: string, email: string, address: string)

  /** The request validation: a quantity is between 1 and 10. */
  predicate ValidCart(items: seq<CartItem>)
  {
    forall i | 0 <= i < |items| :: 1 <= items[i].quantity <= 10
  }

  /** One priced entry of an order, copied from the cart item and the product
      as they were when the order was placed. */
  datatype LineItem = LineItem(
    productId: string,
    title: Value,
    size: string,
    quantity: int,
    unitPrice: real,
    lineTotal: real)

  /** `float(v)` on the values it accepts without raising; numeric text is not modelled. */
  function AsFloat(v: Value): (r: Option<real>)
    ensures r.Some? <==> v.Int? || v.Num? || v.Bool?
  {
    match v
    case Int(i) => Some(i as real)
    case Num(x) => Some(x)
    case Bool(b) => Some(if b then 1.0 else 0.0)
    case _ => None
  }

  /** `float(prod.get("price", 0))`: a missing price counts as 0, a stored
      number is taken as it is, and a price `float()` refuses gives None. */
  function PriceOf(prod: Document): (r: Option<real>)
    ensures "price" !in prod ==> r == Some(0.0)
    ensures "price" in prod && prod["price"].Num? ==> r == Some(prod["price"].r)
    ensures r.None? <==> "price" in prod && !(prod["price"].Int? || prod["price"].Num? || prod["price"].Bool?)
  {
    if "price" in prod then AsFloat(prod["price"]) else Some(0.0)
  }

  /** `prod.get("title")`: the stored title, or None when there is none. */
  function TitleOf(prod: Document): (r: Value)
    ensures "title" in prod ==> r == prod["title"]
    ensures r.Null? <==> "title" !in prod || prod["title"].Null?
  {
    if "title" in prod then prod["title"] else Null
  }

  /** `price * item.quantity`. */
  function LineTotal(price: real, quantity: int): real
  {
    price * quantity as real
  }

  /** One iteration of the pricing loop against the products a lookup sees:
      it fails exactly when the product is not found or its price is not a
      number, and a failure names the item's product id. */
  function ResolveItem(products: map<ObjectId, Document>, item: CartItem): (r: Result<LineItem>)
    ensures r.Err? <==> FindIn(products, item.productId).None? || PriceOf(FindIn(products, item.productId).value).None?
    ensures r.Err? ==> r.error == NotFound(item.productId) || r.error == PriceNotNumeric(item.productId)
  {
    match FindIn(products, item.productId)
    case None => Err(NotFound(item.productId))
    case Some(prod) =>
      match PriceOf(prod)
      case None => Err(PriceNotNumeric(item.productId))
      case Some(price) =>
        Ok(LineItem(item.productId, TitleOf(prod), item.size, item.quantity, price, LineTotal(price, item.quantity)))
  }

  /** The pricing loop: the line items in cart order, one per item, or the
      failure of the first item that does not resolve, which names one of the
      cart's product ids. */
  function Resolve(products: map<ObjectId, Document>, items: seq<CartItem>): (r: Result<seq<LineItem>>)
    ensures r.Ok? ==> |r.value| == |items|
    ensures r.Err? ==> !r.error.StoreUnavailable? && exists i | 0 <= i < |items| :: r.error.productId == items[i].productId
  {
    if items == [] then Ok([])
    else
      match Resolve(products, items[..|items| - 1])
      case Err(e) => Err(e)
      case Ok(lines) =>
        match ResolveItem(products, items[|items| - 1])
        case Err(e) => Err(e)
        case Ok(line) => Ok(lines + [line])
  }

  /** The running total: the line totals added up in order. */
  function SumTotals(lines: seq<LineItem>): real
  {
    if lines == [] then 0.0 else SumTotals(lines[..|lines| - 1]) + lines[|lines| - 1].lineTotal
  }

  /** `round(x, 2)` on the exact value: the nearest multiple of 0.01, ties to
      the even multiple; it moves a value by at most half a cent. */
  function Round2(x: real): (r: real)
    ensures -0.005 <= r - x <= 0.005
  {
    var c := x * 100.0;
    var f := c.Floor;
    var frac := c - f as real;
    var n := if frac < 0.5 then f else if frac > 0.5 then f + 1 else if f % 2 == 0 then f else f + 1;
    n as real / 100.0
  }

  /** A whole number of cents is left as it is. */
  lemma Round2Cents(n: int)
    ensures Round2(n as real / 100.0) == n as real / 100.0
  {
    var c := (n as real / 100.0) * 100.0;
    assert c == n as real;
    assert c.Floor == n;
  }

  /** x is a whole number of cents. */
  predicate WholeCents(x: real)
  {
    (x * 100.0).Floor as real == x * 100.0
  }

  /** A value that is a whole number of cents is left as it is. */
  lemma Round2Exact(x: real)
    requires WholeCents(x)
    ensures Round2(x) == x
  {
    var n := (x * 100.0).Floor;
    assert x == n as real / 100.0;
    Round2Cents(n);
  }

  /** The result is a whole number of cents, and rounding again changes nothing. */
  lemma Round2Idempotent(x: real)
    ensures WholeCents(Round2(x))
    ensures Round2(Round2(x)) == Round2(x)
  {
    var c := x * 100.0;
    var f := c.Floor;
    var frac := c - f as real;
    var n := if frac < 0.5 then f else if frac > 0.5 then f + 1 else if f % 2 == 0 then f else f + 1;
    assert Round2(x) == n as real / 100.0;
    assert Round2(x) * 100.0 == n as real;
    Round2Cents(n);
  }

  /** An exact tie between two cents goes to the even one. */
  lemma Round2TiesEven(x: real)
    requires x * 100.0 - (x * 100.0).Floor as real == 0.5
    ensures exists n: int :: n % 2 == 0 && Round2(x) == n as real / 100.0
  {
    var f := (x * 100.0).Floor;
    var n := if f % 2 == 0 then f else f + 1;
    assert n % 2 == 0 && Round2(x) == n as real / 100.0;
  }

  /** Two ties, as examples. Only exact ties are meant: Python's binary
      floats store a literal such as 2.675 slightly below the tie, so its
      `round` gives 2.67 where this exact model gives 2.68. */
  lemma Round2HalfEven()
    ensures Round2(0.125) == 0.12 && Round2(0.135) == 0.14
  {
    assert (0.125 * 100.0).Floor == 12;
    assert (0.135 * 100.0).Floor == 13;
  }

  /** A stored line item. */
  function LineDoc(line: LineItem): Value
  {
    Object(map[
      "product_id" := Str(line.productId),
      "title" := line.title,
      "size" := Str(line.size),
      "quantity" := Int(line.quantity),
      "unit_price" := Num(line.unitPrice),
      "line_total" := Num(line.lineTotal)
    ])
  }

  function LineDocs(lines: seq<LineItem>): (r: seq<Value>)
    ensures |r| == |lines| && forall i | 0 <= i < |lines| :: r[i] == LineDoc(lines[i])
  {
    if lines == [] then [] else LineDocs(lines[..|lines| - 1]) + [LineDoc(lines[|lines| - 1])]
  }

  /** `order.customer.model_dump()`. */
  function CustomerDoc(c: Customer): Value
  {
    Object(map["name" := Str(c.name), "email" := Str(c.email), "address" := Str(c.address)])
  }

  /** The order document stored for the priced lines and the running total. */
  function OrderDoc(lines: seq<LineItem>, customer: Customer, total: real): (d: Document)
    ensures Plain(d)
  {
    map[
      "items" := List(LineDocs(lines)),
      "customer" := CustomerDoc(customer),
      "total" := Num(Round2(total)),
      "status" := Str("received")
    ]
  }

  /** The order a cart places against the products a lookup sees: its
      document, or the failure of the first item that does not resolve. An
      order is placed exactly when every item resolves; it is received and
      stores one line per cart item. */
  function PlannedOrder(products: map<ObjectId, Document>, items: seq<CartItem>, customer: Customer): (r: Result<Document>)
    ensures r.Ok? <==> forall i | 0 <= i < |items| :: ResolveItem(products, items[i]).Ok?
    ensures r.Ok? ==> Plain(r.value) && "status" in r.value && r.value["status"] == Str("received")
    ensures r.Ok? ==> "items" in r.value && r.value["items"].List? && |r.value["items"].items| == |items|
  {
    ResolveOk(products, items);
    match Resolve(products, items)
    case Err(e) => Err(e)
    case Ok(lines) => Ok(OrderDoc(lines, customer, SumTotals(lines)))
  }

  /** The pricing loop of `create_order`: look every item up in cart order,
      stop at the first that does not resolve. The store is only read. */
  method PriceCart(store: Store, items: seq<CartItem>) returns (r: Result<seq<LineItem>>, total: real)
    requires store.Valid()
    ensures r == Resolve(store.Visible(), items)
    ensures r.Ok? ==> total == SumTotals(r.value)
  {
    var lines: seq<LineItem> := [];
    total := 0.0;
    var i := 0;
    while i < |items|
      invariant 0 <= i <= |items|
      invariant Resolve(store.Visible(), items[..i]) == Ok(lines)
      invariant total == SumTotals(lines)
    {
      var item := items[i];
      assert items[..i + 1][..i] == items[..i];
      var prod := store.FindProduct(item.productId);
      if prod.None? {
        ResolvePrefixErr(store.Visible(), items, i + 1);
        return Err(NotFound(item.productId)), total;
      }
      var price := PriceOf(prod.value);
      if price.None? {
        ResolvePrefixErr(store.Visible(), items, i + 1);
        return Err(PriceNotNumeric(item.productId)), total;
      }
      var lineTotal := LineTotal(price.value, item.quantity);
      total := total + lineTotal;
      var line := LineItem(item.productId, TitleOf(prod.value), item.size, item.quantity, price.value, lineTotal);
      ResolveFound(store.Visible(), item, prod.value);
      ResolveStep(store.Visible(), items, i, lines, line);
      lines := lines + [line];
      i := i + 1;
    }
    assert items[..i] == items;
    r := Ok(lines);
  }

  /** An item whose product is found with a numeric price resolves to its line. */
  lemma ResolveFound(products: map<ObjectId, Document>, item: CartItem, prod: Document)
    requires FindIn(products, item.productId) == Some(prod) && PriceOf(prod).Some?
    ensures ResolveItem(products, item) == Ok(LineItem(item.productId, TitleOf(prod), item.size, item.quantity,
      PriceOf(prod).value, LineTotal(PriceOf(prod).value, item.quantity)))
  {
  }

  /** Extending a resolved prefix by one resolved item. */
  lemma ResolveStep(products: map<ObjectId, Document>, items: seq<CartItem>, i: nat, lines: seq<LineItem>, line: LineItem)
    requires i < |items|
    requires Resolve(products, items[..i]) == Ok(lines)
    requires ResolveItem(products, items[i]) == Ok(line)
    ensures Resolve(products, items[..i + 1]) == Ok(lines + [line])
  {
    assert items[..i + 1][..i] == items[..i];
  }

  /** A failure in a prefix of the cart is the failure of the whole cart. */
  lemma {:induction false} ResolvePrefixErr(products: map<ObjectId, Document>, items: seq<CartItem>, k: nat)
    requires k <= |items| && Resolve(products, items[..k]).Err?
    ensures Resolve(products, items) == Resolve(products, items[..k])
  {
    if k < |items| {
      var init := items[..|items| - 1];
      assert init[..k] == items[..k];
      ResolvePrefixErr(products, init, k);
    } else {
      assert items[..k] == items;
    }
  }

  /** `create_order`: price the cart, store the order document under a fresh
      identifier, read it back and serialize it. Nothing is stored when an
      item does not resolve or the store cannot take the order. */
  method CreateOrder(store: Store, items: seq<CartItem>, customer: Customer) returns (r: Result<Document>)
    requires store.Valid() && ValidCart(items)
    modifies store`orders, store`nextId
    ensures store.Valid()
    ensures PlannedOrder(old(store.Visible()), items, customer).Err? ==>
      r == PlannedOrder(old(store.Visible()), items, customer) && unchanged(store)
    ensures PlannedOrder(old(store.Visible()), items, customer).Ok? && old(store.CanInsert(1)) ==>
      && r == Ok(Serialized(WithId(old(store.nextId), PlannedOrder(old(store.Visible()), items, customer).value)))
      && store.orders == old(store.orders)[old(store.nextId) := PlannedOrder(old(store.Visible()), items, customer).value]
      && store.nextId == old(store.nextId) + 1
    ensures PlannedOrder(old(store.Visible()), items, customer).Ok? && !old(store.CanInsert(1)) ==>
      r == Err(StoreUnavailable) && unchanged(store)
  {
    ghost var id := store.nextId;
    var priced, total := PriceCart(store, items);
    if priced.Err? {
      return Err(priced.error);
    }
    var doc := OrderDoc(priced.value, customer, total);
    var inserted := store.InsertOrder(doc);
    if inserted.Err? {
      return Err(StoreUnavailable);
    }
    ParseIdText(id);
    var saved := store.FindOrder(inserted.value);
    var d := SerializeDoc(saved.value);
    r := Ok(d);
  }

  /** A cart naming the product "does-not-exist" fails as not found with that
      id, whatever the store holds: the text is not an identifier. */
  lemma UnknownProduct(products: map<ObjectId, Document>, size: string, quantity: int, customer: Customer)
    ensures PlannedOrder(products, [CartItem("does-not-exist", size, quantity)], customer) == Err(NotFound("does-not-exist"))
  {
    var items := [CartItem("does-not-exist", size, quantity)];
    assert |"does-not-exist"| == 14;
    assert ResolveItem(products, items[0]) == Err(NotFound("does-not-exist"));
    assert items[..0] == [];
    assert Resolve(products, items[..0]) == Ok([]);
    assert Resolve(products, items) == Err(NotFound("does-not-exist"));
  }

  /** A priced line carries its item's product id, size and quantity, the
      title and price stored for that product, and price times quantity. */
  lemma ResolveItemOk(products: map<ObjectId, Document>, item: CartItem)
    requires ResolveItem(products, item).Ok?
    ensures ParseId(item.productId).Some? && ParseId(item.productId).value in products
    ensures var line := ResolveItem(products, item).value;
      var prod := products[ParseId(item.productId).value];
      && line.productId == item.productId && line.size == item.size && line.quantity == item.quantity
      && line.title == TitleOf(prod)
      && PriceOf(prod) == Some(line.unitPrice)
      && line.lineTotal == LineTotal(line.unitPrice, item.quantity)
  {
    var id := ParseId(item.productId).value;
    var prod := products[id];
    assert "title" in WithId(id, prod) <==> "title" in prod;
    assert "price" in WithId(id, prod) <==> "price" in prod;
  }

  /** An item fails as not found exactly when its id does not parse or names
      no visible product; the failure names the id as the cart gave it. */
  lemma NotFoundIff(products: map<ObjectId, Document>, item: CartItem)
    ensures ResolveItem(products, item) == Err(NotFound(item.productId)) <==>
      ParseId(item.productId).None? || ParseId(item.productId).value !in products
    ensures ResolveItem(products, item).Err? ==>
      ResolveItem(products, item).error.productId == item.productId
  {
  }

  /** The cart resolves exactly when every item does, and then the lines
      follow the items one for one, in order. */
  lemma {:induction false} ResolveOk(products: map<ObjectId, Document>, items: seq<CartItem>)
    ensures Resolve(products, items).Ok? <==> forall i | 0 <= i < |items| :: ResolveItem(products, items[i]).Ok?
    ensures Resolve(products, items).Ok? ==>
      && |Resolve(products, items).value| == |items|
      && forall i | 0 <= i < |items| :: ResolveItem(products, items[i]) == Ok(Resolve(products, items).value[i])
  {
    if items != [] {
      var n := |items|;
      var init := items[..n - 1];
      ResolveOk(products, init);
      var last := ResolveItem(products, items[n - 1]);
      match Resolve(products, init)
      case Err(e) =>
        assert Resolve(products, items) == Err(e);
        assert exists i | 0 <= i < n :: !ResolveItem(products, items[i]).Ok? by {
          var j :| 0 <= j < n - 1 && !ResolveItem(products, init[j]).Ok?;
          assert init[j] == items[j];
        }
      case Ok(lines) =>
        assert forall i | 0 <= i < n - 1 :: ResolveItem(products, items[i]) == Ok(lines[i]) by {
          forall i | 0 <= i < n - 1 ensures ResolveItem(products, items[i]) == Ok(lines[i]) {
            assert init[i] == items[i];
          }
        }
        if last.Ok? {
          var r := lines + [last.value];
          assert Resolve(products, items) == Ok(r);
          assert forall i | 0 <= i < n :: ResolveItem(products, items[i]) == Ok(r[i]);
        }
    }
  }

  /** When item k is the first that does not resolve, the cart fails with
      item k's failure. */
  lemma {:induction false} ResolveFirstFailure(products: map<ObjectId, Document>, items: seq<CartItem>, k: nat)
    requires k < |items| && ResolveItem(products, items[k]).Err?
    requires forall j | 0 <= j < k :: ResolveItem(products, items[j]).Ok?
    ensures Resolve(products, items) == Err(ResolveItem(products, items[k]).error)
  {
    var prefix := items[..k];
    ResolveOk(products, prefix);
    assert forall j | 0 <= j < k :: prefix[j] == items[j];
    assert items[..k + 1][..k] == prefix;
    ResolvePrefixErr(products, items, k + 1);
  }

  /** A placed order totals its lines to within half a cent, exactly when the
      lines add up to whole cents, and is received. */
  lemma PlannedOrderTotal(products: map<ObjectId, Document>, items: seq<CartItem>, customer: Customer)
    requires PlannedOrder(products, items, customer).Ok?
    ensures var doc := PlannedOrder(products, items, customer).value;
      var sum := SumTotals(Resolve(products, items).value);
      && doc["status"] == Str("received")
      && doc["total"].Num?
      && -0.005 <= doc["total"].r - sum <= 0.005
      && (WholeCents(sum) ==> doc["total"].r == sum)
  {
    var lines := Resolve(products, items).value;
    var sum := SumTotals(lines);
    var doc := PlannedOrder(products, items, customer).value;
    assert doc == OrderDoc(lines, customer, sum);
    assert doc["total"] == Num(Round2(sum));
    if WholeCents(sum) {
      Round2Exact(sum);
    }
  }

  /** Reading a product back adds only `_id`: its title and price are as stored. */
  lemma ReadFields(id: ObjectId, doc: Document)
    ensures TitleOf(WithId(id, doc)) == TitleOf(doc)
    ensures PriceOf(WithId(id, doc)) == PriceOf(doc)
  {
    var w := WithId(id, doc);
    assert "title" in w <==> "title" in doc;
    assert "price" in w <==> "price" in doc;
  }

  /** Two of a product stored as the Smiley Classic Hoodie at 59.0, in size M,
      resolve to one line at 59.0 totalling 118.0. */
  lemma HoodieLines(products: map<ObjectId, Document>, id: ObjectId)
    requires id in products
    requires "title" in products[id] && products[id]["title"] == Str("Smiley Classic Hoodie")
    requires "price" in products[id] && products[id]["price"] == Num(59.0)
    ensures Resolve(products, [CartItem(IdText(id), "M", 2)])
      == Ok([LineItem(IdText(id), Str("Smiley Classic Hoodie"), "M", 2, 59.0, 118.0)])
  {
    var items := [CartItem(IdText(id), "M", 2)];
    var line := LineItem(IdText(id), Str("Smiley Classic Hoodie"), "M", 2, 59.0, 118.0);
    assert ResolveItem(products, items[0]) == Ok(line) by {
      ParseIdText(id);
      assert FindIn(products, IdText(id)) == Some(WithId(id, products[id]));
      ReadFields(id, products[id]);
      assert LineTotal(59.0, 2) == 118.0;
      ResolveFound(products, items[0], WithId(id, products[id]));
    }
    assert items[..0] == [];
    ResolveStep(products, items, 0, [], line);
    assert items[..1] == items;
    assert [] + [line] == [line];
  }

  /** The order for that cart totals 118.0 and is received. */
  lemma HoodieOrder(products: map<ObjectId, Document>, id: ObjectId, customer: Customer)
    requires id in products
    requires "title" in products[id] && products[id]["title"] == Str("Smiley Classic Hoodie")
    requires "price" in products[id] && products[id]["price"] == Num(59.0)
    ensures PlannedOrder(products, [CartItem(IdText(id), "M", 2)], customer).Ok?
    ensures PlannedOrder(products, [CartItem(IdText(id), "M", 2)], customer).value["total"] == Num(118.0)
    ensures PlannedOrder(products, [CartItem(IdText(id), "M", 2)], customer).value["status"] == Str("received")
  {
    var line := LineItem(IdText(id), Str("Smiley Classic Hoodie"), "M", 2, 59.0, 118.0);
    HoodieLines(products, id);
    assert SumTotals([line]) == 118.0 by {
      assert [line][..0] == [];
    }
    assert Round2(118.0) == 118.0 by {
      Round2Cents(11800);
    }
    var doc := OrderDoc([line], customer, 118.0);
    assert doc["total"] == Num(118.0);
  }

  /** On the freshly seeded catalogue, two Classic Hoodies in size M, ordered
      by the first seeded identifier, make an order totalling 118.0. */
  lemma SeededHoodieOrder(n: nat, customer: Customer)
    requires n + |SeedProducts| <= IdSpace
    ensures PlannedOrder(StoreAll(map[], n, SeedProducts), [CartItem(IdText(n), "M", 2)], customer).Ok?
    ensures PlannedOrder(StoreAll(map[], n, SeedProducts), [CartItem(IdText(n), "M", 2)], customer).value["total"] == Num(118.0)
  {
    var products := StoreAll(map[], n, SeedProducts);
    SeedCatalogue();
    StoreAllFacts(map[], n, SeedProducts);
    assert n in products && products[n] == SeedProducts[0];
    HoodieOrder(products, n, customer);
  }

  /** Placing the same cart twice: when both placements succeed, the two
      orders come back under different identifiers. */
  method PlaceTwice(store: Store, items: seq<CartItem>, customer: Customer) returns (first: Result<Document>, second: Result<Document>)
    requires store.Valid() && ValidCart(items)
    modifies store`orders, store`nextId
    ensures first.Ok? && second.Ok? ==>
      "id" in first.value && "id" in second.value && first.value["id"] != second.value["id"]
  {
    ghost var n := store.nextId;
    first := CreateOrder(store, items, customer);
    ghost var m := store.nextId;
    second := CreateOrder(store, items, customer);
    if first.Ok? && second.Ok? {
      assert m == n + 1;
      IdTextInjective(n, m);
    }
  }
}
