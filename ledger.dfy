/** The value-level meaning of the cart store: how each action transforms the
    list of lines, how the subtotal, discount and total are derived, and the
    properties these keep. The store class in module Store is proved against
    these functions. */
module Ledger {
  import opened Api

  // ---------------------------------------------------------------------------
  // Line identity
  // ---------------------------------------------------------------------------

  /** A line is identified by the pair of its id and its kind. */
  predicate Matches(item: CartItem, id: int, kind: ItemType) {
    item.id == id && item.kind == kind
  }

  predicate Contains(items: seq<CartItem>, id: int, kind: ItemType) {
    exists i :: 0 <= i < |items| && Matches(items[i], id, kind)
  }

  /** No two lines share an `(id, kind)` pair. */
  predicate UniqueKeys(items: seq<CartItem>) {
    forall i, j :: 0 <= i < j < |items| ==> !Matches(items[j], items[i].id, items[i].kind)
  }

  predicate PositiveQuantities(items: seq<CartItem>) {
    forall i :: 0 <= i < |items| ==> items[i].quantity >= 1
  }

  /** The position of the first line at or after `from` with the given
      identity, or -1 when there is none: the scan `findIndex` performs. */
  function FirstIndexFrom(items: seq<CartItem>, id: int, kind: ItemType, from: nat): (r: int)
    requires from <= |items|
    ensures r == -1 || from <= r < |items|
    ensures r == -1 ==> forall j :: from <= j < |items| ==> !Matches(items[j], id, kind)
    ensures r != -1 ==> Matches(items[r], id, kind)
    ensures r != -1 ==> forall j :: from <= j < r ==> !Matches(items[j], id, kind)
    decreases |items| - from
  {
    if from == |items| then -1
    else if Matches(items[from], id, kind) then from
    else FirstIndexFrom(items, id, kind, from + 1)
  }

  /** `findIndex` over the lines: the first position holding the identity,
      or -1 exactly when no line does. */
  function FirstIndex(items: seq<CartItem>, id: int, kind: ItemType): (r: int)
    ensures -1 <= r < |items|
    ensures r == -1 <==> !Contains(items, id, kind)
    ensures r != -1 ==> Matches(items[r], id, kind)
    ensures r != -1 ==> forall j :: 0 <= j < r ==> !Matches(items[j], id, kind)
  {
    FirstIndexFrom(items, id, kind, 0)
  }

  // ---------------------------------------------------------------------------
  // The three list actions
  // ---------------------------------------------------------------------------

  /** `addItem`: bump the first line with this identity by one, or append a
      fresh line with quantity 1. */
  function WithItemAdded(items: seq<CartItem>, id: int, kind: ItemType, name: string, price: real): (r: seq<CartItem>)
    ensures Contains(items, id, kind) ==>
      var k := FirstIndex(items, id, kind);
      && |r| == |items|
      && r[k].id == id && r[k].kind == kind
      && r[k].name == items[k].name && r[k].price == items[k].price
      && r[k].quantity == items[k].quantity + 1
      && forall i :: 0 <= i < |items| && i != k ==> r[i] == items[i]
    ensures !Contains(items, id, kind) ==>
      && |r| == |items| + 1
      && r[..|items|] == items
      && r[|items|] == CartItem(id, kind, name, price, 1)
  {
    var k := FirstIndex(items, id, kind);
    if k != -1 then items[k := items[k].(quantity := items[k].quantity + 1)]
    else items + [CartItem(id, kind, name, price, 1)]
  }

  /** `updateItemQuantity`: every line with this identity gets `quantity`
      as given (no clamping); every other line is kept. */
  function WithQuantity(items: seq<CartItem>, id: int, kind: ItemType, quantity: int): (r: seq<CartItem>)
    ensures |r| == |items|
    ensures forall i :: 0 <= i < |items| ==>
      && r[i].id == items[i].id && r[i].kind == items[i].kind
      && r[i].name == items[i].name && r[i].price == items[i].price
      && r[i].quantity == (if Matches(items[i], id, kind) then quantity else items[i].quantity)
  {
    seq(|items|, i requires 0 <= i < |items| =>
      if Matches(items[i], id, kind) then items[i].(quantity := quantity) else items[i])
  }

  /** `removeItem`: keep, in order, exactly the lines whose identity differs. */
  function WithoutItem(items: seq<CartItem>, id: int, kind: ItemType): (r: seq<CartItem>)
    ensures |r| <= |items|
    ensures !Contains(r, id, kind)
    ensures !Contains(items, id, kind) ==> r == items
    decreases |items|
  {
    if items == [] then []
    else
      var rest := WithoutItem(items[1..], id, kind);
      assert forall j :: 1 <= j < |items| ==> items[j] == items[1..][j - 1];
      if Matches(items[0], id, kind) then rest
      else
        assert !Contains(items[1..], id, kind) ==> items == [items[0]] + items[1..];
        [items[0]] + rest
  }

  /** Removal drops the matching lines and nothing else: the lines left are
      exactly the lines of `items` with a different identity. */
  lemma {:induction false} WithoutItemMembers(items: seq<CartItem>, id: int, kind: ItemType)
    ensures forall x :: x in WithoutItem(items, id, kind) <==> x in items && !Matches(x, id, kind)
    decreases |items|
  {
    if items != [] {
      WithoutItemMembers(items[1..], id, kind);
      assert items == [items[0]] + items[1..];
    }
  }

  // ---------------------------------------------------------------------------
  // Pricing queries
  // ---------------------------------------------------------------------------

  /** One line's contribution to the subtotal. */
  function LineTotal(item: CartItem): (r: real) {
    item.price * item.quantity as real
  }

  /** `getSubtotal`: the left fold of price * quantity over the lines, from 0. */
  function Subtotal(items: seq<CartItem>): (r: real)
    ensures items == [] ==> r == 0.0
    ensures |items| == 1 ==> r == LineTotal(items[0])
    decreases |items|
  {
    if items == [] then 0.0
    else Subtotal(items[..|items| - 1]) + LineTotal(items[|items| - 1])
  }

  /** The coupon part of `getDiscount`. */
  function CouponDiscount(coupon: Option<Coupon>, subtotal: real): (r: real)
    ensures coupon == None ==> r == 0.0
    ensures coupon.Some? && coupon.value.discountType == Fixed ==> r == coupon.value.discountValue
    ensures (coupon.Some? && coupon.value.discountType == Percentage && subtotal >= 0.0 &&
             0.0 <= coupon.value.discountValue <= 100.0) ==> 0.0 <= r <= subtotal
  {
    match coupon
    case None => 0.0
    case Some(c) =>
      if c.discountType == Percentage then
        var fraction := c.discountValue / 100.0;
        FractionWithinAmount(subtotal, fraction);
        subtotal * fraction
      else c.discountValue
  }

  /** A fraction between 0 and 1 of a non-negative amount lies between 0 and
      that amount. */
  lemma FractionWithinAmount(amount: real, fraction: real)
    ensures amount >= 0.0 && 0.0 <= fraction <= 1.0 ==> 0.0 <= amount * fraction <= amount
  {
    if amount >= 0.0 && 0.0 <= fraction <= 1.0 {
      assert amount * fraction <= amount * 1.0;
    }
  }

  /** The points part of `getDiscount`: one point is one unit of money, and
      only a positive count is applied. */
  function PointsDiscount(points: int): (r: real)
    ensures r >= 0.0
    ensures points > 0 ==> r == points as real
    ensures points <= 0 ==> r == 0.0
  {
    if points > 0 then points as real else 0.0
  }

  /** `getDiscount`: coupon part plus points part, not capped by the subtotal. */
  function Discount(cart: Cart): (r: real)
    ensures cart.coupon == None && cart.pointsToUse <= 0 ==> r == 0.0
    ensures cart.coupon == None ==> r == PointsDiscount(cart.pointsToUse)
    ensures r >= CouponDiscount(cart.coupon, Subtotal(cart.items))
  {
    CouponDiscount(cart.coupon, Subtotal(cart.items)) + PointsDiscount(cart.pointsToUse)
  }

  /** `getTotal`: subtotal minus discount, floored at zero. */
  function Total(cart: Cart): (r: real)
    ensures r >= 0.0
    ensures r >= Subtotal(cart.items) - Discount(cart)
    ensures r == 0.0 || r == Subtotal(cart.items) - Discount(cart)
  {
    var net := Subtotal(cart.items) - Discount(cart);
    if net > 0.0 then net else 0.0
  }

  /** The state the store starts in and returns to on `clearCart`. */
  function EmptyCart(): (r: Cart)
    ensures r.items == [] && r.customer == None && r.coupon == None
    ensures r.pointsToUse == 0 && r.notes == ""
  {
    Cart([], None, None, 0, "")
  }

  // ---------------------------------------------------------------------------
  // Subtotal arithmetic
  // ---------------------------------------------------------------------------

  lemma SubtotalAppend(items: seq<CartItem>, item: CartItem)
    ensures Subtotal(items + [item]) == Subtotal(items) + LineTotal(item)
  {
    assert (items + [item])[..|items|] == items;
  }

  lemma {:induction false} SubtotalConcat(a: seq<CartItem>, b: seq<CartItem>)
    ensures Subtotal(a + b) == Subtotal(a) + Subtotal(b)
    decreases |b|
  {
    if b == [] {
      assert a + b == a;
    } else {
      var front, last := b[..|b| - 1], b[|b| - 1];
      assert b == front + [last];
      assert a + b == (a + front) + [last];
      SubtotalAppend(a + front, last);
      SubtotalConcat(a, front);
      SubtotalAppend(front, last);
    }
  }

  lemma SplitAt(items: seq<CartItem>, k: int)
    requires 0 <= k < |items|
    ensures items == (items[..k] + [items[k]]) + items[k + 1..]
  {
  }

  /** Replacing one line changes the subtotal by exactly that line's difference. */
  lemma SubtotalReplaceAt(items: seq<CartItem>, k: int, item: CartItem)
    requires 0 <= k < |items|
    ensures Subtotal(items[k := item]) == Subtotal(items) - LineTotal(items[k]) + LineTotal(item)
  {
    var before, after := items[..k], items[k + 1..];
    SplitAt(items, k);
    SplitAt(items[k := item], k);
    assert items[k := item][..k] == before && items[k := item][k + 1..] == after;
    SubtotalConcat(before + [items[k]], after);
    SubtotalConcat(before + [item], after);
    SubtotalAppend(before, items[k]);
    SubtotalAppend(before, item);
  }

  /** Dropping one line lowers the subtotal by exactly that line's amount. */
  lemma SubtotalRemoveAt(items: seq<CartItem>, k: int)
    requires 0 <= k < |items|
    ensures Subtotal(items[..k] + items[k + 1..]) == Subtotal(items) - LineTotal(items[k])
  {
    var before, line, after := items[..k], items[k], items[k + 1..];
    SplitAt(items, k);
    SubtotalConcat(before + [line], after);
    SubtotalAppend(before, line);
    SubtotalConcat(before, after);
  }

  predicate NonNegativeLines(items: seq<CartItem>) {
    forall i :: 0 <= i < |items| ==> items[i].price >= 0.0 && items[i].quantity >= 0
  }

  lemma {:induction false} SubtotalNonNegative(items: seq<CartItem>)
    requires NonNegativeLines(items)
    ensures Subtotal(items) >= 0.0
    decreases |items|
  {
    if items != [] {
      var last := items[|items| - 1];
      assert last.price >= 0.0 && last.quantity as real >= 0.0;
      SubtotalNonNegative(items[..|items| - 1]);
    }
  }

  lemma SubtotalSign(items: seq<CartItem>)
    ensures NonNegativeLines(items) ==> Subtotal(items) >= 0.0
  {
    if NonNegativeLines(items) {
      SubtotalNonNegative(items);
    }
  }

  /** Raising one line's quantity never lowers the subtotal when its price is
      non-negative. */
  lemma SubtotalMonotoneInQuantity(items: seq<CartItem>, k: int, quantity: int)
    requires 0 <= k < |items| && items[k].price >= 0.0 && quantity >= items[k].quantity
    ensures Subtotal(items[k := items[k].(quantity := quantity)]) >= Subtotal(items)
  {
    var line := items[k];
    var bumped := line.(quantity := quantity);
    SubtotalReplaceAt(items, k, bumped);
    assert LineTotal(bumped) - LineTotal(line) == line.price * (quantity - line.quantity) as real;
  }

  // ---------------------------------------------------------------------------
  // The list actions under the uniqueness invariant
  // ---------------------------------------------------------------------------

  /** Under unique keys, updating a present line touches that line only. */
  lemma WithQuantityAt(items: seq<CartItem>, id: int, kind: ItemType, quantity: int)
    requires UniqueKeys(items) && Contains(items, id, kind)
    ensures var k := FirstIndex(items, id, kind);
      WithQuantity(items, id, kind, quantity) == items[k := items[k].(quantity := quantity)]
  {
    var k := FirstIndex(items, id, kind);
    var r := WithQuantity(items, id, kind, quantity);
    forall i | 0 <= i < |items| && i != k
      ensures !Matches(items[i], id, kind)
    {
      if k < i {
        assert !Matches(items[i], items[k].id, items[k].kind);
      }
    }
  }

  /** The tail of a list with unique keys has unique keys and does not hold
      the head's identity. */
  lemma UniqueKeysTail(items: seq<CartItem>)
    requires UniqueKeys(items) && items != []
    ensures UniqueKeys(items[1..])
    ensures !Contains(items[1..], items[0].id, items[0].kind)
  {
    var tail := items[1..];
    forall i, j | 0 <= i < j < |tail| ensures !Matches(tail[j], tail[i].id, tail[i].kind) {
      assert tail[i] == items[i + 1] && tail[j] == items[j + 1];
    }
    forall j | 0 <= j < |tail| ensures !Matches(tail[j], items[0].id, items[0].kind) {
      assert tail[j] == items[j + 1];
    }
  }

  /** Removal works line by line, so it distributes over concatenation. */
  lemma {:induction false} WithoutItemConcat(a: seq<CartItem>, b: seq<CartItem>, id: int, kind: ItemType)
    ensures WithoutItem(a + b, id, kind) == WithoutItem(a, id, kind) + WithoutItem(b, id, kind)
    decreases |a|
  {
    if a == [] {
      assert a + b == b;
    } else {
      assert (a + b)[0] == a[0];
      assert (a + b)[1..] == a[1..] + b;
      WithoutItemConcat(a[1..], b, id, kind);
    }
  }

  /** Under unique keys, removing a present line drops exactly that line and
      keeps the others in their order. */
  lemma WithoutItemAt(items: seq<CartItem>, id: int, kind: ItemType)
    requires UniqueKeys(items) && Contains(items, id, kind)
    ensures var k := FirstIndex(items, id, kind);
      WithoutItem(items, id, kind) == items[..k] + items[k + 1..]
  {
    var k := FirstIndex(items, id, kind);
    var before, after := items[..k], items[k + 1..];
    assert !Contains(before, id, kind) by {
      forall j | 0 <= j < |before| ensures !Matches(before[j], id, kind) {
        assert before[j] == items[j];
      }
    }
    assert !Contains(after, id, kind) by {
      forall j | 0 <= j < |after| ensures !Matches(after[j], id, kind) {
        assert after[j] == items[k + 1 + j];
        assert !Matches(items[k + 1 + j], items[k].id, items[k].kind);
      }
    }
    assert WithoutItem([items[k]], id, kind) == [] by {
      assert [items[k]][1..] == [];
    }
    assert items == before + ([items[k]] + after);
    WithoutItemConcat(before, [items[k]] + after, id, kind);
    WithoutItemConcat([items[k]], after, id, kind);
  }

  lemma AddPreservesUniqueKeys(items: seq<CartItem>, id: int, kind: ItemType, name: string, price: real)
    requires UniqueKeys(items)
    ensures UniqueKeys(WithItemAdded(items, id, kind, name, price))
  {
    var r := WithItemAdded(items, id, kind, name, price);
    if !Contains(items, id, kind) {
      forall i, j | 0 <= i < j < |r| ensures !Matches(r[j], r[i].id, r[i].kind) {
        if j == |items| {
          assert !Matches(items[i], id, kind);
        } else {
          assert r[i] == items[i] && r[j] == items[j];
        }
      }
    }
  }

  lemma QuantityPreservesUniqueKeys(items: seq<CartItem>, id: int, kind: ItemType, quantity: int)
    requires UniqueKeys(items)
    ensures UniqueKeys(WithQuantity(items, id, kind, quantity))
  {
    var r := WithQuantity(items, id, kind, quantity);
    forall i, j | 0 <= i < j < |r| ensures !Matches(r[j], r[i].id, r[i].kind) {
      assert !Matches(items[j], items[i].id, items[i].kind);
    }
  }

  /** Putting a line with a new identity in front keeps the keys unique. */
  lemma UniqueKeysCons(head: CartItem, rest: seq<CartItem>)
    requires UniqueKeys(rest) && !Contains(rest, head.id, head.kind)
    ensures UniqueKeys([head] + rest)
  {
    var r := [head] + rest;
    forall i, j | 0 <= i < j < |r| ensures !Matches(r[j], r[i].id, r[i].kind) {
      assert r[j] == rest[j - 1];
      if i > 0 {
        assert r[i] == rest[i - 1];
      }
    }
  }

  lemma {:induction false} RemovePreservesUniqueKeys(items: seq<CartItem>, id: int, kind: ItemType)
    requires UniqueKeys(items)
    ensures UniqueKeys(WithoutItem(items, id, kind))
    decreases |items|
  {
    if items != [] {
      var head, tail := items[0], items[1..];
      UniqueKeysTail(items);
      RemovePreservesUniqueKeys(tail, id, kind);
      var rest := WithoutItem(tail, id, kind);
      if !Matches(head, id, kind) {
        assert !Contains(rest, head.id, head.kind) by {
          WithoutItemMembers(tail, id, kind);
          forall j | 0 <= j < |rest| ensures !Matches(rest[j], head.id, head.kind) {
            assert rest[j] in tail;
          }
        }
        UniqueKeysCons(head, rest);
      }
    }
  }

  lemma AddPreservesPositiveQuantities(items: seq<CartItem>, id: int, kind: ItemType, name: string, price: real)
    requires PositiveQuantities(items)
    ensures PositiveQuantities(WithItemAdded(items, id, kind, name, price))
  {
    var r := WithItemAdded(items, id, kind, name, price);
    if !Contains(items, id, kind) {
      forall i | 0 <= i < |r| ensures r[i].quantity >= 1 {
        if i < |items| {
          assert r[i] == r[..|items|][i];
        }
      }
    }
  }

  lemma RemovePreservesPositiveQuantities(items: seq<CartItem>, id: int, kind: ItemType)
    requires PositiveQuantities(items)
    ensures PositiveQuantities(WithoutItem(items, id, kind))
  {
    var r := WithoutItem(items, id, kind);
    WithoutItemMembers(items, id, kind);
    forall i | 0 <= i < |r| ensures r[i].quantity >= 1 {
      assert r[i] in items;
      var m :| 0 <= m < |items| && items[m] == r[i];
    }
  }

  // ---------------------------------------------------------------------------
  // How each list action moves the subtotal
  // ---------------------------------------------------------------------------

  /** Adding raises the subtotal by one unit price: the existing line's price
      when the identity is present (first-seen price wins), else the given one. */
  lemma SubtotalAfterAdd(items: seq<CartItem>, id: int, kind: ItemType, name: string, price: real)
    ensures Subtotal(WithItemAdded(items, id, kind, name, price)) ==
      Subtotal(items) + (if Contains(items, id, kind) then items[FirstIndex(items, id, kind)].price else price)
  {
    var k := FirstIndex(items, id, kind);
    if k != -1 {
      var line := items[k];
      var bumped := line.(quantity := line.quantity + 1);
      assert WithItemAdded(items, id, kind, name, price) == items[k := bumped];
      SubtotalReplaceAt(items, k, bumped);
      LineTotalDelta(line, line.quantity + 1);
    } else {
      var added := CartItem(id, kind, name, price, 1);
      assert WithItemAdded(items, id, kind, name, price) == items + [added];
      SubtotalAppend(items, added);
    }
  }

  /** Updating an identity that is not in the cart leaves the lines as they are. */
  lemma WithQuantityAbsent(items: seq<CartItem>, id: int, kind: ItemType, quantity: int)
    requires !Contains(items, id, kind)
    ensures WithQuantity(items, id, kind, quantity) == items
  {
    var r := WithQuantity(items, id, kind, quantity);
    forall i | 0 <= i < |items| ensures r[i] == items[i] {
      assert !Matches(items[i], id, kind);
    }
  }

  lemma LineTotalDelta(line: CartItem, quantity: int)
    ensures LineTotal(line.(quantity := quantity)) == LineTotal(line) + line.price * (quantity - line.quantity) as real
  {
    var p, q0, q1 := line.price, line.quantity as real, quantity as real;
    assert p * q1 == p * q0 + p * (q1 - q0);
  }

  lemma SubtotalAfterQuantity(items: seq<CartItem>, id: int, kind: ItemType, quantity: int)
    requires UniqueKeys(items)
    ensures var k := FirstIndex(items, id, kind);
      Subtotal(WithQuantity(items, id, kind, quantity)) ==
        if k == -1 then Subtotal(items)
        else Subtotal(items) + items[k].price * (quantity - items[k].quantity) as real
  {
    var k := FirstIndex(items, id, kind);
    if k == -1 {
      WithQuantityAbsent(items, id, kind, quantity);
    } else {
      WithQuantityAt(items, id, kind, quantity);
      var line := items[k];
      SubtotalReplaceAt(items, k, line.(quantity := quantity));
      LineTotalDelta(line, quantity);
    }
  }

  lemma SubtotalAfterRemove(items: seq<CartItem>, id: int, kind: ItemType)
    requires UniqueKeys(items)
    ensures var k := FirstIndex(items, id, kind);
      Subtotal(WithoutItem(items, id, kind)) ==
        if k == -1 then Subtotal(items) else Subtotal(items) - LineTotal(items[k])
  {
    var k := FirstIndex(items, id, kind);
    if k != -1 {
      WithoutItemAt(items, id, kind);
      SubtotalRemoveAt(items, k);
    }
  }

  /** Removing twice is the same as removing once. */
  lemma RemoveIdempotent(items: seq<CartItem>, id: int, kind: ItemType)
    ensures WithoutItem(WithoutItem(items, id, kind), id, kind) == WithoutItem(items, id, kind)
  {
  }

  // ---------------------------------------------------------------------------
  // Discount and total
  // ---------------------------------------------------------------------------

  predicate NonNegativeCoupon(coupon: Option<Coupon>) {
    coupon.Some? ==> coupon.value.discountValue >= 0.0
  }

  lemma DiscountNonNegative(cart: Cart)
    requires Subtotal(cart.items) >= 0.0 && NonNegativeCoupon(cart.coupon)
    ensures Discount(cart) >= 0.0
  {
    if cart.coupon.Some? && cart.coupon.value.discountType == Percentage {
      var s, v := Subtotal(cart.items), cart.coupon.value.discountValue;
      assert s * (v / 100.0) >= 0.0;
    }
  }

  lemma TotalAtMostSubtotal(cart: Cart)
    requires Subtotal(cart.items) >= 0.0 && Discount(cart) >= 0.0
    ensures 0.0 <= Total(cart) <= Subtotal(cart.items)
  {
  }

  /** With non-negative prices, quantities and coupon value, the total lies
      between 0 and the subtotal. */
  lemma TotalBetweenZeroAndSubtotal(cart: Cart)
    requires NonNegativeLines(cart.items) && NonNegativeCoupon(cart.coupon)
    ensures 0.0 <= Total(cart) <= Subtotal(cart.items)
  {
    SubtotalNonNegative(cart.items);
    DiscountNonNegative(cart);
  }

  lemma EmptyCartPricing()
    ensures Subtotal(EmptyCart().items) == 0.0
    ensures Discount(EmptyCart()) == 0.0
    ensures Total(EmptyCart()) == 0.0
  {
  }

  /** With a quantity set to a negative value, the total (floored at 0)
      exceeds the subtotal: total <= subtotal is not unconditional. */
  lemma TotalAboveNegativeSubtotal()
    ensures var cart := EmptyCart().(items := [CartItem(1, Product, "tea", 10.0, -1)]);
      Subtotal(cart.items) == -10.0 && Total(cart) == 0.0
  {
    var items := [CartItem(1, Product, "tea", 10.0, -1)];
    assert items[..0] == [];
  }

  /** A fixed coupon larger than the subtotal: the discount is not capped,
      the total is floored at 0. */
  lemma FixedCouponBeyondSubtotal()
    ensures var cart := EmptyCart().(items := [CartItem(1, Product, "box", 10.0, 1)],
                                     coupon := Some(Coupon(7, "BIG", "", Fixed, 1000.0)));
      Subtotal(cart.items) == 10.0 && Discount(cart) == 1000.0 && Total(cart) == 0.0
  {
    var items := [CartItem(1, Product, "box", 10.0, 1)];
    assert items[..0] == [];
  }

  /** A product at 9.99 once and a menu entry at 12.99 twice, under a 10%
      coupon and under 5 points. */
  lemma PricingExamples()
    ensures var items := [CartItem(1, Product, "a", 9.99, 1), CartItem(2, Menu, "b", 12.99, 2)];
      && Subtotal(items) == 35.97
      && Discount(EmptyCart().(items := items, coupon := Some(Coupon(1, "TEN", "", Percentage, 10.0)))) == 3.597
      && Total(EmptyCart().(items := items, coupon := Some(Coupon(1, "TEN", "", Percentage, 10.0)))) == 32.373
      && Discount(EmptyCart().(items := items, pointsToUse := 5)) == 5.0
      && Total(EmptyCart().(items := items, pointsToUse := 5)) == 30.97
  {
    var a, b := CartItem(1, Product, "a", 9.99, 1), CartItem(2, Menu, "b", 12.99, 2);
    assert [a, b][..1] == [a];
    assert [a][..0] == [];
    SubtotalAppend([a], b);
  }

  /** Adding one identity twice gives one line of quantity 2; the same id
      under the other kind gives a separate line. */
  lemma AddTwiceExample()
    ensures var once := WithItemAdded([], 1, Product, "a", 2.0);
      var twice := WithItemAdded(once, 1, Product, "a", 2.0);
      var other := WithItemAdded(twice, 1, Menu, "m", 3.0);
      && twice == [CartItem(1, Product, "a", 2.0, 2)]
      && other == [CartItem(1, Product, "a", 2.0, 2), CartItem(1, Menu, "m", 3.0, 1)]
  {
    var once := WithItemAdded([], 1, Product, "a", 2.0);
    assert Contains(once, 1, Product) by { assert Matches(once[0], 1, Product); }
  }
}
