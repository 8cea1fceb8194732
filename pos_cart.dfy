/** The event handlers of the point-of-sale cart panel. Each one guards a call
    into the cart store; together with `addItem` they keep every line at a
    quantity of at least 1 and the points count non-negative. */
module PosCart {
  import opened Api
  import opened Ledger
  import opened Store

  /** What the checkout button reports: an empty-cart alert, or the order
      alert showing the total. */
  datatype CheckoutOutcome = CartEmpty | OrderProcessed(total: real)

  /** The quantity a +/- press asks for: `Math.max(1, quantity + change)`. */
  function ClampedQuantity(quantity: int, change: int): (r: int)
    ensures r >= 1
    ensures r >= quantity + change
    ensures r == quantity + change || r == 1
  {
    if quantity + change > 1 then quantity + change else 1
  }

  /** The state every handler (and `addItem`) keeps: identities are unique,
      every line has quantity at least 1, and the points count is not negative. */
  predicate PanelInvariant(cart: Cart) {
    UniqueKeys(cart.items) && PositiveQuantities(cart.items) && cart.pointsToUse >= 0
  }

  /** The store starts, and every clear returns it, in a state that satisfies
      the invariant; with the handlers below it holds over the store's life. */
  lemma InitialPanelInvariant()
    ensures PanelInvariant(EmptyCart())
  {
  }

  /** A +/- press on a line: looks the line up and, when it is there, sets its
      quantity to the clamped value; otherwise no store call is made. */
  method HandleQuantityChange(store: CartStore, id: int, kind: ItemType, change: int)
    requires change == -1 || change == 1
    modifies store
    ensures var items := old(store.cart.items);
      var k := FirstIndex(items, id, kind);
      if k == -1 then store.cart == old(store.cart)
      else store.cart == old(store.cart).(items := WithQuantity(items, id, kind, ClampedQuantity(items[k].quantity, change)))
    ensures forall i :: 0 <= i < |store.cart.items| && Matches(store.cart.items[i], id, kind) ==>
      store.cart.items[i].quantity >= 1
    ensures var items := old(store.cart.items);
      (UniqueKeys(items) && Contains(items, id, kind) && items[FirstIndex(items, id, kind)].quantity == 1 && change == -1)
      ==> store.cart == old(store.cart)
    ensures PanelInvariant(old(store.cart)) ==> PanelInvariant(store.cart)
  {
    var k := FirstIndex(store.cart.items, id, kind);
    if k != -1 {
      ghost var before := store.cart.items;
      var item := store.cart.items[k];
      var newQuantity := ClampedQuantity(item.quantity, change);
      store.UpdateItemQuantity(id, kind, newQuantity);
      if UniqueKeys(before) {
        WithQuantityAt(before, id, kind, newQuantity);
        assert newQuantity == item.quantity ==> before[k := item.(quantity := newQuantity)] == before;
      }
    }
  }

  /** The trash button: removes the line. */
  method HandleRemoveItem(store: CartStore, id: int, kind: ItemType)
    modifies store
    ensures store.cart == old(store.cart).(items := WithoutItem(old(store.cart.items), id, kind))
    ensures PanelInvariant(old(store.cart)) ==> PanelInvariant(store.cart)
  {
    store.RemoveItem(id, kind);
  }

  /** Picking a customer from the search list attaches it to the cart. */
  method HandleSelectCustomer(store: CartStore, customer: User)
    modifies store
    ensures store.cart == old(store.cart).(customer := Some(customer))
    ensures PanelInvariant(old(store.cart)) ==> PanelInvariant(store.cart)
  {
    store.SetCustomer(Some(customer));
  }

  /** The points "Apply" button. `parsed` is the result of parsing the text
      field as a base-10 integer, `None` when it is not a number. The count is
      stored only when it parsed and is not negative. */
  method HandleUsePoints(store: CartStore, parsed: Option<int>)
    modifies store
    ensures if parsed.Some? && parsed.value >= 0 then store.cart == old(store.cart).(pointsToUse := parsed.value)
            else store.cart == old(store.cart)
    ensures PanelInvariant(old(store.cart)) ==> PanelInvariant(store.cart)
  {
    if parsed.Some? && parsed.value >= 0 {
      store.SetPointsToUse(parsed.value);
    }
  }

  /** The checkout button: on an empty cart it reports so; otherwise it
      reports the current total. It changes nothing; the cart is cleared when
      the order alert is acknowledged (ConfirmOrder). */
  method HandleCheckout(store: CartStore) returns (outcome: CheckoutOutcome)
    ensures store.cart.items == [] ==> outcome == CartEmpty
    ensures store.cart.items != [] ==> outcome == OrderProcessed(Total(store.cart))
    ensures outcome.OrderProcessed? ==> outcome.total >= 0.0
  {
    if |store.cart.items| == 0 {
      return CartEmpty;
    }
    outcome := OrderProcessed(store.GetTotal());
  }

  /** The "OK" of the order alert clears the cart. */
  method ConfirmOrder(store: CartStore)
    modifies store
    ensures store.cart == EmptyCart()
    ensures PanelInvariant(store.cart)
  {
    store.ClearCart();
  }

  /** The Cancel button clears the cart. */
  method Cancel(store: CartStore)
    modifies store
    ensures store.cart == EmptyCart()
    ensures PanelInvariant(store.cart)
  {
    store.ClearCart();
  }

  /** New lines come in through `addItem`, which keeps the invariant too. */
  lemma AddItemKeepsPanelInvariant(cart: Cart, id: int, kind: ItemType, name: string, price: real)
    requires PanelInvariant(cart)
    ensures PanelInvariant(cart.(items := WithItemAdded(cart.items, id, kind, name, price)))
  {
    AddPreservesUniqueKeys(cart.items, id, kind, name, price);
    AddPreservesPositiveQuantities(cart.items, id, kind, name, price);
  }

  /** Under the panel invariant, with non-negative prices and coupon value,
      the total lies between 0 and the subtotal. */
  lemma PanelTotalBounds(cart: Cart)
    requires PanelInvariant(cart) && NonNegativeCoupon(cart.coupon)
    requires forall i :: 0 <= i < |cart.items| ==> cart.items[i].price >= 0.0
    ensures 0.0 <= Total(cart) <= Subtotal(cart.items)
  {
    assert NonNegativeLines(cart.items);
    TotalBetweenZeroAndSubtotal(cart);
  }
}
