/**
  The handlers of api.cjs that change or query the order and cart collections, over an
  in-memory store. Each handler is one sequential step; the collections `tblproducts`,
  `tblorders` and `tblshoppingcart` are sequences held by a `Store` object.
 */
module Store {
  import opened Optional
  import opened JsValues
  import opened ObjectIds
  import opened Catalog
  import opened Orders
  import opened Cart

  /** Outcomes of `/createorder`: 400 "No items", 404 "Product not found while creating order", or success. */
  datatype CreateOutcome = NoItems | ProductNotFound | OrderCreated(orderId: string)

  /** Outcomes of the status endpoint: 400, 404 or success. */
  datatype StatusOutcome = BadRequest | OrderNotFound | StatusUpdated

  /**
    The loop of `/createorder`: each submitted entry is resolved (by `_id` first when the
    reference is ObjectId-shaped, then by `id`) and a clean line item is pushed; the first
    entry that resolves to nothing stops the loop with no result.
   */
  method BuildCleanItems(catalog: seq<Product>, items: seq<SubmittedItem>) returns (r: Option<seq<LineItem>>)
    ensures r == CleanItems(catalog, items)
  {
    var clean: seq<LineItem> := [];
    for k := 0 to |items|
      invariant |clean| == k
      invariant forall j :: 0 <= j < k ==>
                  Resolve(catalog, ReferenceOf(items[j])).Some? &&
                  clean[j] == LineFor(Resolve(catalog, ReferenceOf(items[j])).value, items[j])
    {
      var ref := ReferenceOf(items[k]);
      var product: Option<Product> := None;
      if IsObjectId(ref) {
        product := FindOne(catalog, ByOid(LowerHex(ref)));
      }
      if product.None? {
        product := FindOne(catalog, ByIdField(ref));
      }
      if product.None? {
        assert Resolve(catalog, ReferenceOf(items[k])).None?;
        return None;
      }
      clean := clean + [LineFor(product.value, items[k])];
    }
    var expected := CleanItems(catalog, items);
    assert expected.Some?;
    assert clean == expected.value;
    r := Some(clean);
  }

  class Store {
    var catalog: seq<Product>
    var orders: seq<Order>
    var cart: seq<CartLine>

    /** Identifiers in both keyed collections are canonical and unique. */
    ghost predicate Valid()
      reads this
    {
      ValidCatalog(catalog) && ValidOrders(orders)
    }

    constructor (catalog: seq<Product>)
      requires ValidCatalog(catalog)
      ensures Valid()
      ensures this.catalog == catalog && orders == [] && cart == []
    {
      this.catalog := catalog;
      orders := [];
      cart := [];
    }

    /**
      `GET /products/:id`; `None` is the 404 "Product not found". A product found for an
      ObjectId-shaped reference carries that identifier; one found for any other reference is
      named by its `id`, `product_id` or `title`.
     */
    method GetProduct(ref: string) returns (r: Option<Product>)
      ensures r == Lookup(catalog, ref)
      ensures r.Some? ==> r.value in catalog
      ensures r.Some? && IsObjectId(ref) ==> r.value.oid == LowerHex(ref)
      ensures r.Some? && !IsObjectId(ref) ==> Matches(r.value, ByAnyField(ref))
      ensures r.None? <==> if IsObjectId(ref) then NoMatch(catalog, ByOid(LowerHex(ref)))
                           else NoMatch(catalog, ByAnyField(ref))
    {
      r := Lookup(catalog, ref);
    }

    /**
      `POST /createorder`. Every submitted entry is resolved in turn and turned into a clean line
      item; the first entry that resolves to nothing ends the request with nothing written.
      Otherwise exactly one order, with id `newId` (the identifier the store generates), is appended.
     */
    method CreateOrder(req: OrderRequest, newId: string, now: Time) returns (outcome: CreateOutcome)
      requires Valid()
      requires IsCanonicalOid(newId) && forall j :: 0 <= j < |orders| ==> orders[j].oid != newId
      modifies this
      ensures Valid()
      ensures catalog == old(catalog) && cart == old(cart)
      ensures ItemsOf(req) == [] ==> outcome == NoItems && orders == old(orders)
      ensures ItemsOf(req) != [] && CleanItems(catalog, ItemsOf(req)).None? ==>
                outcome == ProductNotFound && orders == old(orders)
      ensures ItemsOf(req) != [] && CleanItems(catalog, ItemsOf(req)).Some? ==>
                outcome == OrderCreated(newId) &&
                orders == old(orders) + [AssembleOrder(newId, req, CleanItems(catalog, ItemsOf(req)).value, now)]
    {
      var items := ItemsOf(req);
      if |items| == 0 {
        return NoItems;
      }
      var clean := BuildCleanItems(catalog, items);
      if clean.None? {
        return ProductNotFound;
      }
      var order := AssembleOrder(newId, req, clean.value, now);
      AppendKeepsValid(orders, order);
      orders := orders + [order];
      outcome := OrderCreated(newId);
    }

    /**
      `PATCH /orders/:orderId/status`. A reference that is not ObjectId-shaped is refused before
      the store is touched; otherwise the order with that `_id` gets the sent status (any value)
      and an update time, and nothing else changes.
     */
    method UpdateOrderStatus(ref: string, status: JsValue, now: Time) returns (outcome: StatusOutcome)
      requires Valid()
      modifies this
      ensures Valid()
      ensures catalog == old(catalog) && cart == old(cart)
      ensures !IsObjectId(ref) ==> outcome == BadRequest && orders == old(orders)
      ensures IsObjectId(ref) && (forall j :: 0 <= j < |old(orders)| ==> old(orders)[j].oid != LowerHex(ref)) ==>
                outcome == OrderNotFound && orders == old(orders)
      ensures forall k :: IsObjectId(ref) && 0 <= k < |old(orders)| && old(orders)[k].oid == LowerHex(ref) ==>
                && outcome == StatusUpdated
                && |orders| == |old(orders)|
                && orders[k] == old(orders)[k].(status := Stored(status), updatedAt := Some(now))
                && forall j :: 0 <= j < |orders| && j != k ==> orders[j] == old(orders)[j]
    {
      if !IsObjectId(ref) {
        return BadRequest;
      }
      match FindOrder(orders, LowerHex(ref)) {
        case None =>
          outcome := OrderNotFound;
        case Some(k) =>
          UpdateKeepsValid(orders, k, status, now);
          orders := orders[k := WithStatus(orders[k], status, now)];
          outcome := StatusUpdated;
      }
    }

    /** `POST /addtocart`: always one new line, never a merge with an existing one. */
    method AddToCart(req: CartRequest, now: Time)
      requires Valid()
      modifies this
      ensures Valid()
      ensures cart == old(cart) + [NewCartLine(req, now)]
      ensures catalog == old(catalog) && orders == old(orders)
    {
      cart := cart + [NewCartLine(req, now)];
    }

    /** `GET /getcart/:userId`: the user's lines and nobody else's, in insertion order. */
    method GetCart(user: string) returns (lines: seq<CartLine>)
      ensures lines == UserCart(cart, user)
      ensures forall k :: 0 <= k < |lines| ==> lines[k].userId == Str(user)
      ensures forall l :: l in lines <==> l in cart && l.userId == Str(user)
    {
      lines := UserCart(cart, user);
    }
  }
}
