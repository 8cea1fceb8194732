# POS cart ledger

A Dafny model of the shopping cart behind the point-of-sale screen. The cart
store holds an ordered list of lines. Each line is identified by the pair
`(id, type)`, where the type is product or menu. The store also holds an
optional customer, an optional coupon, a count of loyalty points to redeem,
and free-text notes. It offers these actions:

- Add an item: bump the existing line by one, or append a new line with
  quantity 1.
- Set a line's quantity.
- Remove a line.
- Replace each of the customer, coupon, points and notes fields.
- Clear the cart.

It offers three pricing queries:

- Subtotal: the sum of price × quantity.
- Discount: the coupon part (a percentage of the subtotal, or a fixed
  amount) plus the points, when there are more than 0 points. The discount
  is not capped.
- Total: subtotal minus discount, floored at 0.

On top of the store sit the handlers of the cart panel. They guard the store
calls:

- The +/- buttons never ask for a quantity below 1.
- The points field is applied only when it parses to a non-negative integer.
- Checkout reports an empty cart instead of processing it.
- Acknowledging the order, or pressing Cancel, clears the cart.

The model has these files:

- `api.dfy` (module `Api`): the records `CartItem`, `Coupon`, `User` and `Cart`.
- `ledger.dfy` (module `Ledger`): the value-level meaning of the store. It
  defines what each list action does to the lines (`WithItemAdded`,
  `WithQuantity`, `WithoutItem`) and how `Subtotal`, `Discount` and `Total`
  are computed. It holds the lemmas about these: uniqueness of `(id, type)`
  is preserved, and exactly how each action moves the subtotal.
- `store.dfy` (module `Store`): the class `CartStore`. It has one field,
  `cart`, which every action replaces. Each method states the new cart in
  terms of the old one and the `Ledger` functions.
- `pos_cart.dfy` (module `PosCart`): the panel handlers as methods over a
  `CartStore`, and `PanelInvariant`. The invariant says that keys are unique,
  every quantity is at least 1, and points are non-negative. Every handler
  keeps it, and so does `addItem`.

Prices and coupon values are exact `real`s. Quantities and points are
unbounded `int`s.

## Model

| member | source | states |
|---|---|---|
| `Ledger.FirstIndexFrom` | store/cartStore.ts:34-36 | the scan returns the first position at or after `from` whose `(id, type)` matches, or -1 when no later line matches |
| `Ledger.FirstIndex` | store/cartStore.ts:34-36 | `findIndex` returns -1 exactly when no line has the identity; otherwise the position of a matching line with no match before it |
| `Ledger.WithItemAdded` | store/cartStore.ts:32-58 | on a present identity: same length, the first matching line keeps id, type, name and price and gains exactly 1 in quantity, every other line is unchanged; on a new identity: the old lines are kept as a prefix and exactly one line `(id, type, name, price, 1)` is appended |
| `Ledger.WithQuantity` | store/cartStore.ts:62-78 | same length and order; every matching line gets the quantity verbatim (no clamping) and keeps id, type, name and price; non-matching lines keep their quantity |
| `Ledger.WithoutItem` | store/cartStore.ts:81-90 | no line with the identity remains, the list does not grow, and when nothing matched the list is unchanged |
| `Ledger.WithoutItemMembers` | store/cartStore.ts:85-87 | a line survives removal if and only if it was in the cart and has a different identity |
| `Ledger.WithoutItemConcat` | store/cartStore.ts:85-87 | removal filters line by line: removing from `a + b` equals removing from `a` followed by removing from `b` |
| `Ledger.WithoutItemAt` | store/cartStore.ts:81-90 | with unique keys and the identity present at position k, removal yields `items[..k] + items[k+1..]`: exactly that line goes and the rest keep their order |
| `Ledger.RemoveIdempotent` | store/cartStore.ts:81-90 | removing the same identity twice equals removing it once |
| `Ledger.WithQuantityAt` | store/cartStore.ts:62-78 | with unique keys and the identity present at position k, the update changes line k's quantity and nothing else |
| `Ledger.WithQuantityAbsent` | store/cartStore.ts:62-78 | updating an identity that is not in the cart leaves the lines unchanged |
| `Ledger.AddPreservesUniqueKeys` | store/cartStore.ts:34-56 | adding keeps every `(id, type)` at most once |
| `Ledger.QuantityPreservesUniqueKeys` | store/cartStore.ts:64-69 | updating a quantity keeps every `(id, type)` at most once |
| `Ledger.RemovePreservesUniqueKeys` | store/cartStore.ts:85-87 | removing keeps every `(id, type)` at most once |
| `Ledger.AddPreservesPositiveQuantities` | store/cartStore.ts:41-54 | if every quantity was at least 1, it still is after an add (the increment and the new line's 1) |
| `Ledger.RemovePreservesPositiveQuantities` | store/cartStore.ts:85-87 | removal keeps every remaining quantity at least 1 when it was before |
| `Ledger.Subtotal` | store/cartStore.ts:146-149 | the reference definition of the `reduce`: a left fold of price × quantity from 0; 0 for no lines and the line's own amount for one line |
| `Ledger.CouponDiscount` | store/cartStore.ts:157-164 | the reference definition of the coupon part: 0 without a coupon, the value itself for a fixed coupon, and for a percentage of 0 to 100 on a non-negative subtotal an amount between 0 and the subtotal |
| `Ledger.PointsDiscount` | store/cartStore.ts:166-169 | the reference definition of the points part: never negative, the count itself when positive, 0 otherwise |
| `Ledger.Discount` | store/cartStore.ts:152-172 | the reference definition of `getDiscount`: at least the coupon part, only the points part without a coupon, and 0 with neither a coupon nor positive points |
| `Ledger.EmptyCart` | store/cartStore.ts:23-29 | the reference definition of the initial cart, restored by `clearCart`: no lines, no customer, no coupon, 0 points, empty notes |
| `Ledger.SubtotalAppend` | store/cartStore.ts:146-149 | appending a line raises the subtotal by that line's price × quantity |
| `Ledger.SubtotalConcat` | store/cartStore.ts:146-149 | the subtotal of two concatenated lists is the sum of their subtotals |
| `Ledger.SubtotalReplaceAt` | store/cartStore.ts:146-149 | replacing one line changes the subtotal by exactly the difference of the two lines' amounts |
| `Ledger.SubtotalRemoveAt` | store/cartStore.ts:146-149 | dropping one line lowers the subtotal by exactly that line's amount |
| `Ledger.SubtotalNonNegative` | store/cartStore.ts:146-149 | with non-negative prices and quantities, the subtotal is at least 0 |
| `Ledger.SubtotalMonotoneInQuantity` | store/cartStore.ts:146-149 | raising one line's quantity never lowers the subtotal when its price is non-negative |
| `Ledger.SubtotalAfterAdd` | store/cartStore.ts:32-58 | an add raises the subtotal by one unit price: the existing line's price if the identity is present (first-seen price wins), else the given price |
| `Ledger.SubtotalAfterQuantity` | store/cartStore.ts:62-78 | with unique keys, an update changes the subtotal by price × (new − old quantity) of the matching line, and by nothing when absent |
| `Ledger.SubtotalAfterRemove` | store/cartStore.ts:81-90 | with unique keys, a removal lowers the subtotal by the removed line's amount, and by nothing when absent |
| `Ledger.Total` | store/cartStore.ts:175-179 | the total is never negative, is at least subtotal − discount, and is either 0 or exactly subtotal − discount |
| `Ledger.DiscountNonNegative` | store/cartStore.ts:152-172 | with a non-negative subtotal and coupon value, the discount is at least 0 (points count only when positive) |
| `Ledger.TotalAtMostSubtotal` | store/cartStore.ts:175-179 | when subtotal and discount are non-negative, 0 ≤ total ≤ subtotal |
| `Ledger.TotalBetweenZeroAndSubtotal` | store/cartStore.ts:146-179 | with non-negative prices, quantities and coupon value, 0 ≤ total ≤ subtotal |
| `Ledger.TotalAboveNegativeSubtotal` | store/cartStore.ts:146-179 | a line with quantity −1 and price 10 gives subtotal −10 and total 0, so total ≤ subtotal is not unconditional |
| `Ledger.FixedCouponBeyondSubtotal` | store/cartStore.ts:158-178 | a fixed coupon of 1000 on a subtotal of 10 gives discount 1000 (not capped) and total 0 |
| `Ledger.PricingExamples` | store/cartStore.ts:146-179 | 9.99×1 + 12.99×2 gives subtotal 35.97; a 10% coupon gives discount 3.597 and total 32.373; 5 points give discount 5 and total 30.97 |
| `Ledger.AddTwiceExample` | store/cartStore.ts:32-58 | adding one identity twice gives a single line of quantity 2; the same id under the other type is a separate line |
| `Ledger.EmptyCartPricing` | store/cartStore.ts:133-179 | on the initial/cleared cart, subtotal, discount and total are all 0 |
| `Store.CartStore.constructor` | store/cartStore.ts:21-29 | the store starts with no lines, no customer, no coupon, 0 points and empty notes |
| `Store.CartStore.AddItem` | store/cartStore.ts:32-59 | the new cart is the old one with its lines replaced by `WithItemAdded`; unique keys and positive quantities are preserved; the subtotal rises by one unit price |
| `Store.CartStore.UpdateItemQuantity` | store/cartStore.ts:62-78 | only the lines change, as `WithQuantity`; an absent identity leaves the whole cart unchanged; unique keys are preserved, positive quantities too when the new quantity is at least 1 |
| `Store.CartStore.RemoveItem` | store/cartStore.ts:81-90 | only the lines change, as `WithoutItem`; afterwards no line has the identity; an absent identity leaves the cart unchanged; unique keys and positive quantities are preserved |
| `Store.CartStore.SetCustomer` | store/cartStore.ts:93-100 | replaces the customer and nothing else |
| `Store.CartStore.SetCoupon` | store/cartStore.ts:103-110 | replaces the coupon and nothing else |
| `Store.CartStore.SetPointsToUse` | store/cartStore.ts:113-120 | replaces the points count, negative values included, and nothing else |
| `Store.CartStore.SetNotes` | store/cartStore.ts:123-130 | replaces the notes and nothing else |
| `Store.CartStore.ClearCart` | store/cartStore.ts:133-143 | restores the initial cart, after which subtotal, discount and total are 0 |
| `Store.CartStore.GetSubtotal` | store/cartStore.ts:146-149 | the subtotal of the current lines: 0 for an empty cart, never negative when prices and quantities are non-negative |
| `Store.CartStore.GetDiscount` | store/cartStore.ts:152-172 | the coupon part (percentage of the subtotal or fixed value) plus the points only when they are positive; 0 with no coupon and no positive points |
| `Store.CartStore.GetTotal` | store/cartStore.ts:175-179 | reads the total of the current cart, which is never negative |
| `PosCart.ClampedQuantity` | components/pos/Cart.tsx:42 | the requested quantity is at least 1 and at least quantity + change, and is one of the two |
| `PosCart.InitialPanelInvariant` | store/cartStore.ts:23-29 | the initial (and cleared) cart satisfies the panel invariant, the base case of the invariant the handlers keep |
| `PosCart.HandleQuantityChange` | components/pos/Cart.tsx:39-45 | for an absent identity the cart is unchanged (no store call); otherwise the matching line gets `max(1, quantity + change)`; no matching line ends below 1; with unique keys, "−" at quantity 1 leaves the cart unchanged; the panel invariant is kept |
| `PosCart.HandleRemoveItem` | components/pos/Cart.tsx:47-49 | removes the identity's line through the store and keeps the panel invariant |
| `PosCart.HandleSelectCustomer` | components/pos/Cart.tsx:51-54 | attaches the chosen customer and keeps the panel invariant |
| `PosCart.HandleUsePoints` | components/pos/Cart.tsx:56-61 | stores the points only when the text parsed and is ≥ 0; otherwise the cart is unchanged; the panel invariant is kept |
| `PosCart.HandleCheckout` | components/pos/Cart.tsx:63-80 | an empty cart yields the empty-cart alert; otherwise the order alert carries the current total, which is ≥ 0; the cart is not changed |
| `PosCart.ConfirmOrder` | components/pos/Cart.tsx:70-79 | acknowledging the order alert clears the cart |
| `PosCart.Cancel` | components/pos/Cart.tsx:259-265 | the Cancel button clears the cart |
| `PosCart.AddItemKeepsPanelInvariant` | store/cartStore.ts:32-58 | `addItem` keeps the panel invariant, so lines added from the catalogue start and stay at quantity ≥ 1 |
| `PosCart.PanelTotalBounds` | store/cartStore.ts:146-179 | under the panel invariant, with non-negative prices and coupon value, 0 ≤ total ≤ subtotal |

## Total and subtotal

One might expect total ≤ subtotal always. The code does not guarantee this:
`updateItemQuantity` passes any quantity through, so a negative quantity makes the subtotal negative, and the
total, floored at 0, is then above it. The model follows the code.
`Ledger.TotalAboveNegativeSubtotal` exhibits such a cart.
`Ledger.TotalAtMostSubtotal`, `Ledger.TotalBetweenZeroAndSubtotal` and
`PosCart.PanelTotalBounds` state when the bound holds.

## Left out

- Rendering, styling and alert presentation in `components/pos/Cart.tsx`, and the other UI components: these are presentation only.
- Login, token storage and the REST client: these are I/O with no cart logic.
- `toFixed(2)` display formatting and IEEE floating-point rounding: amounts are exact reals.
- The customer search filter and the product/menu filters: they are string matching over mock data.
- The coupon fields the cart never reads (minimum order, validity dates, usage limits): nothing enforces them.
- The zustand `create`/`set` machinery: the store is a plain class whose one field each action replaces.
- `Store.CartStore.AddItem`: the source increments the existing line object in place. The previous cart snapshot therefore sees the new quantity too. The model works on values and does not capture this aliasing.
- `PosCart.HandleUsePoints`: `parseInt` is not modelled. Its result comes in as `Option<int>`, with `None` standing for `NaN`.
- `PosCart.HandleCheckout`: the order alert is asynchronous. Its "OK" callback is modelled as the separate method `PosCart.ConfirmOrder`.
- The handlers read the cart captured at the last render. The model reads the store's current cart, because the actions run one at a time.
- `Store.CartStore.SetPointsToUse`: the points count is an `int`. The source accepts any JS number, but its only caller passes a parsed integer.
- The optional fields of the cart record (`customer?`, `notes?`, `pointsToUse?`) are always present here, because the store always sets them. The truthiness test on `pointsToUse` therefore reduces to `> 0`.
- The "Apply Coupon" button has an empty handler (components/pos/Cart.tsx:238), so no panel method sets a coupon. `Store.CartStore.SetCoupon` is modelled on its own.
