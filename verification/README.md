# Storefront order pipeline — a Dafny model of `api.cjs`

This project models the part of the storefront backend `api.cjs` that has logic of its own.
The collections `tblproducts`, `tblorders` and `tblshoppingcart` become sequences held by a
`Store` object. The handlers become methods on it, and everything they compute becomes a function.

- `isObjectId`: the anchored regular expression `/^[0-9a-fA-F]{24}$/`. It is written as a
  matcher that consumes one character class per step (`ObjectIds.MatchesHexRun`). A lemma proves
  that it accepts exactly the 24-character all-hex strings. `new ObjectId(s)` lower-cases its hex
  digits, so the store keeps identifiers in canonical lower-case form. `String(_id)` gives that
  form back.
- Product resolution in `/createorder`:
  - An ObjectId-shaped reference is first matched against `_id`, without regard to case.
  - Failing that, or for any other reference, it is matched against `id`, either as the string
    itself or as `Number(reference)`. Equality is strict: the string `"7"` never equals the number `7`.
  - `findOne` returns the first matching record in catalog order.
  - The single-product endpoint `/products/:id` shares the catalog model. For an ObjectId-shaped
    reference it looks at `_id` only. For any other reference it matches `id`, `product_id` or `title`.
- Order assembly: the loop in `/createorder` (`Store.BuildCleanItems`) fails closed. It builds
  one clean line item per submitted entry:
  - `productId` is the product's `_id`;
  - the title is `title || name || "Item"`;
  - the quantity is `qty || 1`;
  - the unit price is `price || Price || 0`;
  - the line total is unit price × quantity.

  The order stores the subtotal computed by `reduce`, shipping and tax defaulting to 0, their
  sum as the total, status `"Created"` and the creation time. Money is counted in integer cents,
  so every sum is exact. A negative quantity or price passes through unchanged, as in the code.
- Status update: a reference that is not ObjectId-shaped is refused (400). An unknown one gives
  404. Otherwise the matching order gets the sent status and an update time, and nothing else
  changes. The status is whatever scalar value was sent (string, number, boolean, null, or
  absent, which is stored as null).
- Cart: `/addtocart` always appends a new line, with `productId` stringified. `/getcart/:userId`
  lists the lines whose `userId` is that string, in insertion order.

JavaScript values are modelled as far as the handlers need them (`JsValues`): truthiness for
`a || b`, `String(v)`, `Number(s)` on strings as a partial parse, and the MongoDB driver's
habit of storing `undefined` as `null`.

Some things `api.cjs` does not do, and the model does not either:
- the status update accepts any status value; there is no check against a list of statuses (api.cjs:275);
- a client-sent `subtotal` or `total` is never read; the totals are always recomputed (api.cjs:229-239);
- adding a product that is already in the cart inserts a second line; quantities are not merged (api.cjs:291);
- order creation does not match `product_id` (api.cjs:205-207).

Identifiers that the store generates (`insertedId`) and timestamps (`new Date()`) are
parameters of the methods.

## Model

| member | source | states |
|---|---|---|
| ObjectIds.IsObjectIdIff | api.cjs:29 | `isObjectId(s)` holds exactly when `s` has 24 characters and each is in `[0-9a-fA-F]` |
| ObjectIds.MatchesHexRunIff | api.cjs:29 | the anchored `[0-9a-fA-F]{n}` matcher accepts exactly the strings of length `n` made of hex digits |
| ObjectIds.CanonicalOids | api.cjs:197-200 | a canonical stored id passes `isObjectId` and is unchanged by `new ObjectId`; an accepted reference becomes a canonical id |
| JsValues.ToNumber | api.cjs:206 | `Number("")` is 0; a string that converts starts with a sign or a digit |
| JsValues.ToNumberOfNumberToString | api.cjs:193 | `Number(String(n)) == n` for every integer `n` |
| JsValues.ToString | api.cjs:193 | `String(v)` keeps a string as it is, writes a number so that `Number` reads it back, and gives `"undefined"`, `"null"`, `"true"`, `"false"` for the other scalars |
| JsValues.NumberOr | api.cjs:217-218 | `Number(v or-else d)` is the field's value when the field is truthy in JavaScript's sense, and the fallback when it is falsy |
| JsValues.StringOr | api.cjs:222 | `v or-else d` is the field's value when the field is truthy in JavaScript's sense, and the fallback when it is falsy |
| JsValues.Stored | api.cjs:234 | the driver writes `undefined` as `null` and keeps every other value |
| ObjectIds.LowerHex | api.cjs:200 | `new ObjectId(ref)` of an accepted reference is a canonical lower-case identifier, and a canonical identifier is left as it is |
| Catalog.IdFieldMatches | api.cjs:205-207 | `{ id: ref }` or `{ id: Number(ref) }` matches with strict types: a string `id` only the reference itself, a numeric `id` only the reference's numeric conversion, any other `id` nothing |
| Catalog.Matches | api.cjs:54-61 | the `_id` filter compares identifiers exactly; the `/products/:id` filter accepts every record the order-creation `id` filter accepts, and also records named by `product_id` or `title` |
| Catalog.FirstMatchIndex | api.cjs:198-207 | `findOne` returns the position of the first record the filter matches, or reports that none matches |
| Catalog.FindOne | api.cjs:198-207 | `findOne` returns the first matching record, and nothing exactly when no record matches |
| Catalog.Resolve | api.cjs:193-208 | the first `_id` match wins for an ObjectId-shaped reference; otherwise the first `id` match (string or numeric); nothing exactly when neither matches |
| Catalog.ResolveSound | api.cjs:197-208 | a resolved product is a catalog record whose `_id` or `id` the reference names |
| Catalog.ResolveByStoreId | api.cjs:197-201 | in a catalog with unique ids, an ObjectId-shaped reference naming some `_id` resolves to that record |
| Catalog.NumericReferenceMatchesNumericId | api.cjs:193-206 | a numeric `productId` reaches a record whose `id` is that number |
| Catalog.Lookup | api.cjs:42-62 | `/products/:id` matches only `_id` for ObjectId-shaped references, otherwise `id`, `Number(id)`, `product_id` or `title`; first match wins |
| Catalog.OrderResolutionIsWiderThanLookup | api.cjs:197-208 | an ObjectId-shaped reference with no `_id` match still resolves through `id` in order creation, while `/products/:id` finds nothing |
| Orders.ItemsOf | api.cjs:182-184 | the list is empty, so the request is refused with "No items", exactly when `items` is absent or empty; a sent list is kept as sent |
| Orders.ReferenceOf | api.cjs:193 | the looked-up reference is a sent string itself, or a string whose numeric conversion is the sent number |
| Orders.LineFor | api.cjs:217-226 | the clean item carries the product's `_id`, a non-empty title (`title`, then `name`, then `"Item"`), a non-zero quantity (missing or 0 becomes 1), price `price`, then `Price`, then 0, and `lineTotal == unitPrice * qty` |
| Orders.CleanItems | api.cjs:190-227 | no result exactly when some submitted entry resolves to no product; otherwise one clean item per entry, in submission order, derived from its resolved product |
| Orders.AssembleOrder | api.cjs:229-242 | the order holds the clean items, `subtotal` equal to the sum of line totals, shipping and tax defaulting to 0, `total == subtotal + shipping + tax`, status `"Created"`, the creation time and no update time |
| Orders.Reduce | api.cjs:229 | the `reduce` accumulation from `acc` equals `acc` plus the sum of the line totals |
| Orders.SubtotalOfSubmission | api.cjs:217-229 | the subtotal is the sum over submitted entries of resolved unit price times effective quantity |
| Orders.FindOrder | api.cjs:273-274 | `updateOne` matches the first order with the given `_id`, or none exactly when no order has it |
| Orders.WithStatus | api.cjs:275 | the `$set` gives the order the stored form of the sent status and the update time, and leaves every other field as it was |
| Orders.FindOrderInValid | api.cjs:273-278 | with unique order ids, the order an id names is the one matched |
| Orders.AppendKeepsValid | api.cjs:244 | inserting an order with a fresh id keeps order ids canonical and unique |
| Orders.UpdateKeepsValid | api.cjs:273-276 | a status update keeps order ids canonical and unique |
| Cart.NewCartLine | api.cjs:291-295 | the new cart line keeps the sent user and quantity, stamps the time, and stores `productId` as a string that converts back to a numeric id |
| Cart.UserCart | api.cjs:305-308 | `getcart(u)` holds exactly the cart lines whose `userId` is the string `u` |
| Cart.UserCartAppend | api.cjs:291-308 | a new cart line extends the user's cart by that line when it is theirs, in order, and leaves other users' carts as they were |
| Cart.TwoAddsGiveTwoLines | api.cjs:291-295 | two adds of the same product by the same user give two more lines for that product, with no merge |
| Store.BuildCleanItems | api.cjs:192-227 | the lookup-and-push loop returns exactly the all-or-nothing clean item list |
| Store.Store.GetProduct | api.cjs:42-67 | a found product is a catalog record; for an ObjectId-shaped reference it carries that identifier, otherwise it is named by `id`, `Number(id)`, `product_id` or `title`; the 404 happens exactly when no record matches the applicable filter |
| Store.Store.CreateOrder | api.cjs:179-250 | no items: "No items" and no write; an unresolvable entry: not found and no write; otherwise exactly one assembled order appended with the new id; catalog and cart untouched; store invariant kept |
| Store.Store.UpdateOrderStatus | api.cjs:267-285 | a non-ObjectId reference gives 400 and an unknown one gives 404, both with the store unchanged; otherwise only the matching order's status and update time change |
| Store.Store.AddToCart | api.cjs:288-300 | exactly one new cart line is appended; orders and catalog untouched |
| Store.Store.GetCart | api.cjs:302-314 | every returned line belongs to the user, and every cart line of the user is returned |

## Left out

- Express setup, middleware, CORS and `app.listen`, plus the status-code and JSON shaping of responses. Outcomes are datatypes instead.
- The MongoDB connection (`getDb`) and every 500 path (thrown exceptions). The collections are in-memory sequences.
- Registration, login and profile endpoints: bcrypt hashing and store CRUD with no logic of their own.
- Product and category listing, and order listing sorted by `createdAt`. These are plain store queries.
- Floating-point money and NaN: numeric fields are integers (cents). String or boolean values in `qty`, `price`, `Price`, `shipping` or `tax` are not modelled.
- Objects and arrays as field values: `JsValue` holds only scalars (absent, null, booleans, integers, strings). So an object or array sent as `status`, `userId` or `productId` is not modelled.
- JsValues.ToNumber: only decimal digits with an optional minus sign, and the empty string. Whitespace, `+`, fractions, exponents, `0x` prefixes and `Infinity` are not parsed.
- JsValues.ToString: integers are written in full. JavaScript switches to exponent notation at 1e21.
- MongoDB matching of array-valued fields and of NaN. Catalog records whose `_id` is not an ObjectId.
- Request bodies: the model keeps only the fields the handlers read. The other fields spread into a cart line are dropped, and so is the cart line's own `_id`.
- A non-array `items` value is not modelled. In the code a number, boolean or plain object has no `length`, so it gets 400 "No items". A string is walked character by character; each reference is then `"undefined"`, which normally ends in 404. Only a non-iterable object with a truthy `length` throws and gives a 500. A `null` entry in `items` also throws.
- Timestamps and generated identifiers are parameters. Concurrency between requests is absent: each handler is one step.
