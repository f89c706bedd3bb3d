/**
  Order assembly for `/createorder` (api.cjs lines 179-250) and the order records that the
  status endpoint (api.cjs lines 267-285) updates. Money is counted in integer cents, so
  line totals, the subtotal and the total are exact.
 */
module Orders {
  import opened Optional
  import opened JsValues
  import opened ObjectIds
  import opened Catalog

  /** A timestamp (`new Date()`), supplied by the caller. */
  type Time = int

  /** One entry of the submitted `items` array. */
  datatype SubmittedItem = SubmittedItem(productId: JsValue, qty: Option<int>)

  /** The fields of the `/createorder` body that the handler reads. `items` is `None` when absent. */
  datatype OrderRequest = OrderRequest(
    userId: JsValue,
    items: Option<seq<SubmittedItem>>,
    shipping: Option<int>,
    tax: Option<int>)

  /** A clean line item, the snapshot written into the order. */
  datatype LineItem = LineItem(productId: string, title: string, qty: int, unitPrice: int, lineTotal: int)

  /** A stored order document of `tblorders`; `oid` is its `_id`. */
  datatype Order = Order(
    oid: string,
    userId: JsValue,
    items: seq<LineItem>,
    subtotal: int,
    shipping: int,
    tax: int,
    total: int,
    status: JsValue,
    createdAt: Time,
    updatedAt: Option<Time>)

  const InitialStatus: JsValue := Str("Created")
  const DefaultTitle: string := "Item"

  /**
    `req.body.items || []`: an array is truthy even when empty, so a sent list is kept as it is.
    The list has no elements, and the request is refused with "No items", exactly when the
    field is absent or the sent list is empty.
   */
  function ItemsOf(req: OrderRequest): (items: seq<SubmittedItem>)
    ensures |items| == 0 <==> req.items.None? || req.items == Some([])
    ensures req.items.None? ==> items == []
    ensures req.items.Some? ==> items == req.items.value
  {
    match req.items
    case None => []
    case Some(items) => items
  }

  /**
    `String(i.productId)`, the reference the handler looks up: a string is used as sent, and a
    number becomes a string whose numeric conversion is that number again.
   */
  function ReferenceOf(item: SubmittedItem): (r: string)
    ensures item.productId.Str? ==> r == item.productId.s
    ensures item.productId.Num? ==> ToNumber(r) == Some(item.productId.n)
    ensures item.productId.Undefined? ==> r == "undefined"
  {
    ToString(item.productId)
  }

  /** The clean line item built from a resolved product and the submitted entry. */
  function LineFor(p: Product, item: SubmittedItem): (l: LineItem)
    ensures l.productId == p.oid
    ensures l.title != ""
    ensures p.title.Some? && p.title.value != "" ==> l.title == p.title.value
    ensures (p.title.None? || p.title.value == "") && p.name.Some? && p.name.value != "" ==> l.title == p.name.value
    ensures (p.title.None? || p.title.value == "") && (p.name.None? || p.name.value == "") ==> l.title == DefaultTitle
    ensures l.qty != 0
    ensures item.qty.None? || item.qty.value == 0 ==> l.qty == 1
    ensures item.qty.Some? && item.qty.value != 0 ==> l.qty == item.qty.value
    ensures p.price.Some? && p.price.value != 0 ==> l.unitPrice == p.price.value
    ensures (p.price.None? || p.price.value == 0) && p.priceAlt.Some? ==> l.unitPrice == p.priceAlt.value
    ensures (p.price.None? || p.price.value == 0) && p.priceAlt.None? ==> l.unitPrice == 0
    ensures l.lineTotal == l.unitPrice * l.qty
  {
    var qty := NumberOr(item.qty, 1);
    var price := NumberOr(p.price, NumberOr(p.priceAlt, 0));
    LineItem(p.oid, StringOr(p.title, StringOr(p.name, DefaultTitle)), qty, price, price * qty)
  }

  /**
    The clean items of a submission, or `None` as soon as one entry resolves to no product
    (the early "Product not found" return): all entries or nothing.
   */
  function CleanItems(catalog: seq<Product>, items: seq<SubmittedItem>): (r: Option<seq<LineItem>>)
    ensures r.None? <==> exists k :: 0 <= k < |items| && Resolve(catalog, ReferenceOf(items[k])).None?
    ensures r.Some? ==> |r.value| == |items|
    ensures r.Some? ==> forall k :: 0 <= k < |items| ==>
              Resolve(catalog, ReferenceOf(items[k])).Some? &&
              r.value[k] == LineFor(Resolve(catalog, ReferenceOf(items[k])).value, items[k])
  {
    if items == [] then Some([])
    else
      match Resolve(catalog, ReferenceOf(items[0]))
      case None => None
      case Some(p) =>
        match CleanItems(catalog, items[1..])
        case None =>
          assert forall k :: 0 <= k < |items[1..]| ==> items[1..][k] == items[k + 1];
          None
        case Some(rest) =>
          assert forall k :: 1 <= k < |items| ==> items[k] == items[1..][k - 1];
          Some([LineFor(p, items[0])] + rest)
  }

  /** Reference definition of the subtotal: the sum of the line totals. */
  function Sum(lines: seq<LineItem>): int
  {
    if lines == [] then 0 else lines[0].lineTotal + Sum(lines[1..])
  }

  /** `cleanItems.reduce((s, i) => s + i.lineTotal, acc)`: a left-to-right accumulation. */
  function Reduce(acc: int, lines: seq<LineItem>): (r: int)
    ensures r == acc + Sum(lines)
    decreases lines
  {
    if lines == [] then acc else Reduce(acc + lines[0].lineTotal, lines[1..])
  }

  /** The order document inserted for a successful submission with clean items `lines`. */
  function AssembleOrder(oid: string, req: OrderRequest, lines: seq<LineItem>, now: Time): (o: Order)
    ensures o.oid == oid && o.items == lines
    ensures o.userId == Stored(req.userId)
    ensures o.subtotal == Sum(lines)
    ensures o.shipping == (if req.shipping.Some? then req.shipping.value else 0)
    ensures o.tax == (if req.tax.Some? then req.tax.value else 0)
    ensures o.total == o.subtotal + o.shipping + o.tax
    ensures o.status == InitialStatus
    ensures o.createdAt == now && o.updatedAt.None?
  {
    var subtotal := Reduce(0, lines);
    var shipping := NumberOr(req.shipping, 0);
    var tax := NumberOr(req.tax, 0);
    Order(oid, Stored(req.userId), lines, subtotal, shipping, tax, subtotal + shipping + tax,
          InitialStatus, now, None)
  }

  /** The order after the `$set` of a status update: the new status and the update time, nothing else. */
  function WithStatus(o: Order, status: JsValue, now: Time): (u: Order)
    ensures u.status == Stored(status) && u.updatedAt == Some(now)
    ensures u.(status := o.status, updatedAt := o.updatedAt) == o
  {
    o.(status := Stored(status), updatedAt := Some(now))
  }

  /** Store invariant of `tblorders`: canonical, pairwise distinct `_id`s. */
  predicate ValidOrders(orders: seq<Order>)
  {
    && (forall i :: 0 <= i < |orders| ==> IsCanonicalOid(orders[i].oid))
    && (forall i, j :: 0 <= i < j < |orders| ==> orders[i].oid != orders[j].oid)
  }

  /** The position of the first order with `_id` equal to `hex` (what `updateOne` matches). */
  function FindOrder(orders: seq<Order>, hex: string): (r: Option<nat>)
    ensures r.Some? ==> r.value < |orders| && orders[r.value].oid == hex &&
                        forall j :: 0 <= j < r.value ==> orders[j].oid != hex
    ensures r.None? <==> forall j :: 0 <= j < |orders| ==> orders[j].oid != hex
  {
    if orders == [] then None
    else if orders[0].oid == hex then Some(0)
    else match FindOrder(orders[1..], hex)
      case None => None
      case Some(i) => Some(i + 1)
  }

  // ---------------------------------------------------------------- lemmas

  /**
    The subtotal of an assembled order is the sum, over the submitted entries in order, of the
    resolved unit price times the effective quantity.
   */
  lemma {:induction false} SubtotalOfSubmission(catalog: seq<Product>, items: seq<SubmittedItem>)
    requires CleanItems(catalog, items).Some?
    ensures Sum(CleanItems(catalog, items).value) == SubmittedTotal(catalog, items)
  {
    if items != [] {
      var lines := CleanItems(catalog, items).value;
      assert CleanItems(catalog, items[1..]).Some?;
      SubtotalOfSubmission(catalog, items[1..]);
      assert lines[1..] == CleanItems(catalog, items[1..]).value;
    }
  }

  /** Reference total of a submission whose entries all resolve: price times quantity, entry by entry. */
  function SubmittedTotal(catalog: seq<Product>, items: seq<SubmittedItem>): int
    requires forall k :: 0 <= k < |items| ==> Resolve(catalog, ReferenceOf(items[k])).Some?
  {
    if items == [] then 0
    else
      var p := Resolve(catalog, ReferenceOf(items[0])).value;
      NumberOr(p.price, NumberOr(p.priceAlt, 0)) * NumberOr(items[0].qty, 1)
      + SubmittedTotal(catalog, items[1..])
  }

  /** In a store whose order `_id`s are distinct, the order an `_id` names is the only one matched. */
  lemma FindOrderInValid(orders: seq<Order>, k: nat)
    requires ValidOrders(orders) && k < |orders|
    ensures FindOrder(orders, orders[k].oid) == Some(k)
  {
  }

  /** Appending an order with a fresh canonical `_id` keeps the order store valid. */
  lemma AppendKeepsValid(orders: seq<Order>, o: Order)
    requires ValidOrders(orders) && IsCanonicalOid(o.oid)
    requires forall j :: 0 <= j < |orders| ==> orders[j].oid != o.oid
    ensures ValidOrders(orders + [o])
  {
  }

  /** A status update keeps the order store valid: `_id`s are untouched. */
  lemma UpdateKeepsValid(orders: seq<Order>, k: nat, status: JsValue, now: Time)
    requires ValidOrders(orders) && k < |orders|
    ensures ValidOrders(orders[k := WithStatus(orders[k], status, now)])
  {
  }
}
