/**
  The shopping cart (`tblshoppingcart`): `/addtocart` (api.cjs lines 288-300) inserts one
  new line per call, and `/getcart/:userId` (api.cjs lines 302-314) lists the lines of a user.
 */
module Cart {
  import opened Optional
  import opened JsValues
  import opened Orders

  /** The fields of the `/addtocart` body that the model tracks. */
  datatype CartRequest = CartRequest(userId: JsValue, productId: JsValue, qty: Option<int>)

  /** A stored cart line: the request body spread out, `productId` stringified, `addedAt` stamped. */
  datatype CartLine = CartLine(userId: JsValue, productId: string, qty: Option<int>, addedAt: Time)

  /** The document `/addtocart` inserts. */
  function NewCartLine(req: CartRequest, now: Time): (l: CartLine)
    ensures l.userId == req.userId && l.qty == req.qty && l.addedAt == now
    ensures req.productId.Str? ==> l.productId == req.productId.s
    ensures req.productId.Num? ==> ToNumber(l.productId) == Some(req.productId.n)
  {
    CartLine(req.userId, ToString(req.productId), req.qty, now)
  }

  /**
    `find({ userId })` with the path parameter: the lines whose `userId` is that string, in
    insertion order. A line whose `userId` was sent as a number never matches a string.
   */
  function UserCart(cart: seq<CartLine>, user: string): (r: seq<CartLine>)
    ensures |r| <= |cart|
    ensures forall l :: l in r <==> l in cart && l.userId == Str(user)
  {
    if cart == [] then []
    else if cart[0].userId == Str(user) then [cart[0]] + UserCart(cart[1..], user)
    else UserCart(cart[1..], user)
  }

  /** Number of lines in `lines` for product `productId`. */
  function CountProduct(lines: seq<CartLine>, productId: string): nat
  {
    if lines == [] then 0
    else (if lines[0].productId == productId then 1 else 0) + CountProduct(lines[1..], productId)
  }

  // ---------------------------------------------------------------- lemmas

  /** Adding a line extends a user's cart by exactly that line when it is theirs, and by nothing otherwise. */
  lemma {:induction false} UserCartAppend(cart: seq<CartLine>, l: CartLine, user: string)
    ensures UserCart(cart + [l], user) ==
            UserCart(cart, user) + (if l.userId == Str(user) then [l] else [])
  {
    if cart == [] {
      assert cart + [l] == [l];
    } else {
      UserCartAppend(cart[1..], l, user);
      assert (cart + [l])[1..] == cart[1..] + [l];
    }
  }

  lemma {:induction false} CountProductAppend(a: seq<CartLine>, b: seq<CartLine>, productId: string)
    ensures CountProduct(a + b, productId) == CountProduct(a, productId) + CountProduct(b, productId)
  {
    if a == [] {
      assert a + b == b;
    } else {
      CountProductAppend(a[1..], b, productId);
      assert (a + b)[1..] == a[1..] + b;
    }
  }

  /**
    No merge: two adds of the same product for the same user leave two more lines for that
    product in the user's cart.
   */
  lemma TwoAddsGiveTwoLines(cart: seq<CartLine>, req: CartRequest, user: string, t1: Time, t2: Time)
    requires req.userId == Str(user)
    ensures CountProduct(UserCart(cart + [NewCartLine(req, t1), NewCartLine(req, t2)], user), ToString(req.productId))
            == CountProduct(UserCart(cart, user), ToString(req.productId)) + 2
  {
    var l1, l2 := NewCartLine(req, t1), NewCartLine(req, t2);
    var pid := ToString(req.productId);
    var mine := UserCart(cart, user);
    assert cart + [l1, l2] == cart + [l1] + [l2];
    UserCartAppend(cart, l1, user);
    UserCartAppend(cart + [l1], l2, user);
    assert UserCart(cart + [l1, l2], user) == mine + [l1, l2];
    CountProductAppend(mine, [l1, l2], pid);
    assert [l1, l2][1..] == [l2];
    assert CountProduct([l2], pid) == 1 by {
      assert [l2][1..] == [];
    }
  }
}
