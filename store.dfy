/** The cart store: a single `cart` field that every action replaces with a
    new cart record, and the three pricing queries over it. */
module Store {
  import opened Api
  import opened Ledger

  class CartStore {
    var cart: Cart

    /** The store is created holding the empty cart. */
    constructor ()
      ensures cart == EmptyCart()
    {
      cart := EmptyCart();
    }

    /** Bump the line with this identity by one, or append a new line with
        quantity 1; the other fields of the cart are kept. */
    method AddItem(id: int, kind: ItemType, name: string, price: real)
      modifies this
      ensures cart == old(cart).(items := WithItemAdded(old(cart.items), id, kind, name, price))
      ensures UniqueKeys(old(cart.items)) ==> UniqueKeys(cart.items)
      ensures PositiveQuantities(old(cart.items)) ==> PositiveQuantities(cart.items)
      ensures Subtotal(cart.items) == Subtotal(old(cart.items)) +
        if Contains(old(cart.items), id, kind) then old(cart.items)[FirstIndex(old(cart.items), id, kind)].price
        else price
    {
      ghost var before := cart.items;
      var existingItemIndex := FirstIndex(cart.items, id, kind);
      if existingItemIndex != -1 {
        var updatedItems := cart.items;
        var line := updatedItems[existingItemIndex];
        updatedItems := updatedItems[existingItemIndex := line.(quantity := line.quantity + 1)];
        assert updatedItems == WithItemAdded(before, id, kind, name, price);
        cart := cart.(items := updatedItems);
      } else {
        var newItems := cart.items + [CartItem(id, kind, name, price, 1)];
        assert newItems == WithItemAdded(before, id, kind, name, price);
        cart := cart.(items := newItems);
      }
      assert UniqueKeys(before) ==> UniqueKeys(cart.items) by {
        if UniqueKeys(before) {
          AddPreservesUniqueKeys(before, id, kind, name, price);
        }
      }
      assert PositiveQuantities(before) ==> PositiveQuantities(cart.items) by {
        if PositiveQuantities(before) {
          AddPreservesPositiveQuantities(before, id, kind, name, price);
        }
      }
      SubtotalAfterAdd(before, id, kind, name, price);
    }

    /** Give every line with this identity the quantity as passed, unclamped. */
    method UpdateItemQuantity(id: int, kind: ItemType, quantity: int)
      modifies this
      ensures cart == old(cart).(items := WithQuantity(old(cart.items), id, kind, quantity))
      ensures !Contains(old(cart.items), id, kind) ==> cart == old(cart)
      ensures UniqueKeys(old(cart.items)) ==> UniqueKeys(cart.items)
      ensures quantity >= 1 && PositiveQuantities(old(cart.items)) ==> PositiveQuantities(cart.items)
    {
      ghost var before := cart.items;
      cart := cart.(items := WithQuantity(cart.items, id, kind, quantity));
      if !Contains(before, id, kind) {
        WithQuantityAbsent(before, id, kind, quantity);
      }
      if UniqueKeys(before) {
        QuantityPreservesUniqueKeys(before, id, kind, quantity);
      }
    }

    /** Drop every line with this identity; a no-op when there is none. */
    method RemoveItem(id: int, kind: ItemType)
      modifies this
      ensures cart == old(cart).(items := WithoutItem(old(cart.items), id, kind))
      ensures !Contains(cart.items, id, kind)
      ensures !Contains(old(cart.items), id, kind) ==> cart == old(cart)
      ensures UniqueKeys(old(cart.items)) ==> UniqueKeys(cart.items)
      ensures PositiveQuantities(old(cart.items)) ==> PositiveQuantities(cart.items)
    {
      ghost var before := cart.items;
      cart := cart.(items := WithoutItem(cart.items, id, kind));
      if UniqueKeys(before) {
        RemovePreservesUniqueKeys(before, id, kind);
      }
      if PositiveQuantities(before) {
        RemovePreservesPositiveQuantities(before, id, kind);
      }
    }

    method SetCustomer(customer: Option<User>)
      modifies this
      ensures cart == old(cart).(customer := customer)
    {
      cart := cart.(customer := customer);
    }

    method SetCoupon(coupon: Option<Coupon>)
      modifies this
      ensures cart == old(cart).(coupon := coupon)
    {
      cart := cart.(coupon := coupon);
    }

    /** Accepts any count, negative included; the discount ignores counts <= 0. */
    method SetPointsToUse(points: int)
      modifies this
      ensures cart == old(cart).(pointsToUse := points)
    {
      cart := cart.(pointsToUse := points);
    }

    method SetNotes(notes: string)
      modifies this
      ensures cart == old(cart).(notes := notes)
    {
      cart := cart.(notes := notes);
    }

    /** Back to the initial cart; subtotal, discount and total are then 0. */
    method ClearCart()
      modifies this
      ensures cart == EmptyCart()
      ensures GetSubtotal() == 0.0 && GetDiscount() == 0.0 && GetTotal() == 0.0
    {
      cart := EmptyCart();
      EmptyCartPricing();
    }

    /** `getSubtotal`, `getDiscount` and `getTotal` read the current cart. */
    function GetSubtotal(): (r: real)
      reads this
      ensures r == Subtotal(cart.items)
      ensures cart.items == [] ==> r == 0.0
      ensures NonNegativeLines(cart.items) ==> r >= 0.0
    {
      SubtotalSign(cart.items);
      Subtotal(cart.items)
    }

    /** The coupon part plus the points, which count only when positive. */
    function GetDiscount(): (r: real)
      reads this
      ensures r == CouponDiscount(cart.coupon, GetSubtotal()) + (if cart.pointsToUse > 0 then cart.pointsToUse as real else 0.0)
      ensures cart.coupon == None && cart.pointsToUse <= 0 ==> r == 0.0
    {
      Discount(cart)
    }

    function GetTotal(): (r: real)
      reads this
      ensures r == Total(cart) && r >= 0.0
    {
      Total(cart)
    }
  }
}
