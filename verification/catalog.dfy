/**
  The product catalog (`tblproducts`) as read by the handlers, and the two ways a
  client's product reference is turned into a product record:
  - `Resolve`, the lookup inside `/createorder` (api.cjs lines 193-208), and
  - `Lookup`, the single-product endpoint `/products/:id` (api.cjs lines 42-62).
  A MongoDB `findOne(filter)` is modelled as the first record, in catalog order,
  that the filter matches.
 */
module Catalog {
  import opened Optional
  import opened JsValues
  import opened ObjectIds

  /**
    A catalog record. The schema is heterogeneous: every field except `_id` may be absent.
    `oid` is the store identifier `_id` in its hex form; `productCode` is `product_id`;
    `priceAlt` is the capitalised `Price` some records use instead of `price`.
   */
  datatype Product = Product(
    oid: string,
    id: JsValue,
    productCode: JsValue,
    title: Option<string>,
    name: Option<string>,
    price: Option<int>,
    priceAlt: Option<int>)

  /** The filters the handlers pass to `findOne`. */
  datatype Query =
    | ByOid(hex: string)        // { _id: new ObjectId(hex) }
    | ByIdField(ref: string)    // { $or: [ { id: ref }, { id: Number(ref) } ] }
    | ByAnyField(ref: string)   // { $or: [ { id: ref }, { id: Number(ref) }, { product_id: ref }, { title: ref } ] }

  /**
    `{ id: ref }` or `{ id: Number(ref) }` matches. Equality is strict: a string `id` matches
    only the reference itself, a numeric `id` only the reference's numeric conversion, and a
    record whose `id` is absent, null or a boolean matches nothing.
   */
  predicate IdFieldMatches(p: Product, ref: string)
    ensures IdFieldMatches(p, ref) ==> p.id.Str? || p.id.Num?
    ensures p.id.Str? ==> (IdFieldMatches(p, ref) <==> p.id.s == ref)
    ensures p.id.Num? ==> (IdFieldMatches(p, ref) <==> ToNumber(ref) == Some(p.id.n))
  {
    p.id == Str(ref) || (ToNumber(ref).Some? && p.id == Num(ToNumber(ref).value))
  }

  /**
    A filter matches a record. The `_id` filter compares identifiers exactly; the `$or` filter of
    `/products/:id` accepts every record the `id` filter of `/createorder` accepts, and also
    records named by `product_id` or `title`.
   */
  predicate Matches(p: Product, q: Query)
    ensures q.ByOid? ==> (Matches(p, q) <==> p.oid == q.hex)
    ensures q.ByIdField? && Matches(p, q) ==> p.id.Str? || p.id.Num?
    ensures q.ByAnyField? && IdFieldMatches(p, q.ref) ==> Matches(p, q)
    ensures q.ByAnyField? && (p.productCode == Str(q.ref) || p.title == Some(q.ref)) ==> Matches(p, q)
    ensures q.ByAnyField? && Matches(p, q) ==> IdFieldMatches(p, q.ref) || p.productCode.Str? || p.title.Some?
  {
    match q
    case ByOid(hex) => p.oid == hex
    case ByIdField(ref) => IdFieldMatches(p, ref)
    case ByAnyField(ref) => IdFieldMatches(p, ref) || p.productCode == Str(ref) || p.title == Some(ref)
  }

  /** `i` is the position of the first record that `q` matches. */
  predicate IsFirstMatch(catalog: seq<Product>, i: int, q: Query)
  {
    0 <= i < |catalog| && Matches(catalog[i], q) && forall j :: 0 <= j < i ==> !Matches(catalog[j], q)
  }

  predicate NoMatch(catalog: seq<Product>, q: Query)
  {
    forall j :: 0 <= j < |catalog| ==> !Matches(catalog[j], q)
  }

  /** Store invariant of the catalog: every `_id` is a canonical identifier, and no two are equal. */
  predicate ValidCatalog(catalog: seq<Product>)
  {
    && (forall i :: 0 <= i < |catalog| ==> IsCanonicalOid(catalog[i].oid))
    && (forall i, j :: 0 <= i < j < |catalog| ==> catalog[i].oid != catalog[j].oid)
  }

  /** Position of the first record matching `q`, if any. */
  function FirstMatchIndex(catalog: seq<Product>, q: Query): (r: Option<nat>)
    ensures r.Some? ==> IsFirstMatch(catalog, r.value, q)
    ensures r.None? ==> NoMatch(catalog, q)
  {
    if catalog == [] then None
    else if Matches(catalog[0], q) then Some(0)
    else match FirstMatchIndex(catalog[1..], q)
      case None => None
      case Some(i) => Some(i + 1)
  }

  /** `findOne(q)`: the first matching record in catalog order, or nothing. */
  function FindOne(catalog: seq<Product>, q: Query): (r: Option<Product>)
    ensures forall i :: IsFirstMatch(catalog, i, q) ==> r == Some(catalog[i])
    ensures r.None? <==> NoMatch(catalog, q)
  {
    match FirstMatchIndex(catalog, q)
    case None => None
    case Some(i) => Some(catalog[i])
  }

  /** The reference matches a record through its store `_id` (only tried for ObjectId-shaped references). */
  predicate OidHit(catalog: seq<Product>, ref: string)
  {
    IsObjectId(ref) && !NoMatch(catalog, ByOid(LowerHex(ref)))
  }

  /**
    Product resolution in `/createorder`: an ObjectId-shaped reference is first looked up by
    `_id`; when that misses, or the reference is not ObjectId-shaped, it is looked up by `id`
    as the string itself or as its numeric conversion.
   */
  function Resolve(catalog: seq<Product>, ref: string): (r: Option<Product>)
    ensures forall i :: OidHit(catalog, ref) && IsFirstMatch(catalog, i, ByOid(LowerHex(ref)))
              ==> r == Some(catalog[i])
    ensures forall i :: !OidHit(catalog, ref) && IsFirstMatch(catalog, i, ByIdField(ref))
              ==> r == Some(catalog[i])
    ensures r.None? <==> !OidHit(catalog, ref) && NoMatch(catalog, ByIdField(ref))
  {
    var byOid := if IsObjectId(ref) then FindOne(catalog, ByOid(LowerHex(ref))) else None;
    if byOid.Some? then byOid else FindOne(catalog, ByIdField(ref))
  }

  /**
    The single-product endpoint: an ObjectId-shaped reference is looked up by `_id` only;
    any other reference by `id` (string or number), `product_id` or `title`.
   */
  function Lookup(catalog: seq<Product>, ref: string): (r: Option<Product>)
    ensures IsObjectId(ref) ==>
              (r.None? <==> NoMatch(catalog, ByOid(LowerHex(ref)))) &&
              forall i :: IsFirstMatch(catalog, i, ByOid(LowerHex(ref))) ==> r == Some(catalog[i])
    ensures !IsObjectId(ref) ==>
              (r.None? <==> NoMatch(catalog, ByAnyField(ref))) &&
              forall i :: IsFirstMatch(catalog, i, ByAnyField(ref)) ==> r == Some(catalog[i])
  {
    if IsObjectId(ref) then FindOne(catalog, ByOid(LowerHex(ref)))
    else FindOne(catalog, ByAnyField(ref))
  }

  // ---------------------------------------------------------------- lemmas

  /** Whatever `Resolve` returns is a catalog record that the reference really addresses. */
  lemma ResolveSound(catalog: seq<Product>, ref: string)
    ensures Resolve(catalog, ref).Some? ==>
              Resolve(catalog, ref).value in catalog &&
              ((IsObjectId(ref) && Resolve(catalog, ref).value.oid == LowerHex(ref)) ||
               IdFieldMatches(Resolve(catalog, ref).value, ref))
  {
  }

  /** In a valid catalog an `_id` hit is the one record with that identifier, whatever its position. */
  lemma ResolveByStoreId(catalog: seq<Product>, ref: string, k: nat)
    requires ValidCatalog(catalog)
    requires k < |catalog| && IsObjectId(ref) && catalog[k].oid == LowerHex(ref)
    ensures Resolve(catalog, ref) == Some(catalog[k])
  {
  }

  /**
    A numeric product reference (as the client may send `productId: 7`) reaches a record whose
    `id` is the number, once `String` and `Number` have round-tripped it.
   */
  lemma NumericReferenceMatchesNumericId(p: Product, n: int)
    requires p.id == Num(n)
    ensures IdFieldMatches(p, ToString(Num(n)))
  {
  }

  /**
    The two lookups differ on ObjectId-shaped references: one that names no `_id` is still
    resolved by `/createorder` through the `id` field, while `/products/:id` reports it missing.
   */
  lemma OrderResolutionIsWiderThanLookup(catalog: seq<Product>, ref: string, i: nat)
    requires IsObjectId(ref) && NoMatch(catalog, ByOid(LowerHex(ref)))
    requires IsFirstMatch(catalog, i, ByIdField(ref))
    ensures Resolve(catalog, ref) == Some(catalog[i])
    ensures Lookup(catalog, ref) == None
  {
  }
}
