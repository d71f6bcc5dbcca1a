/**
 * Readers of the cart state: the item count on the header badge
 * (`src/components/layout/CartIcon.tsx`, `src/components/layout/MobileMenu.tsx`)
 * and the order total with fixed shipping
 * (`src/components/checkout/OrderSummary.tsx`). Money is integer cents.
 */
module CartSummary {
  import opened CartContext

  /** The fixed shipping cost, 10 dollars. */
  const Shipping: int := 1000

  function LineQuantity(item: CartItem): int
  {
    item.quantity
  }

  /**
   * `state.items.reduce((total, item) => total + item.quantity, 0)`: with
   * positive quantities, at least one per line.
   */
  function ItemCount(items: seq<CartItem>): (count: int)
    ensures (forall j :: 0 <= j < |items| ==> items[j].quantity > 0) ==> count >= |items|
    ensures items == [] ==> count == 0
  {
    PositiveQuantitiesCount(items);
    SumBy(items, LineQuantity)
  }

  lemma {:induction false} PositiveQuantitiesCount(items: seq<CartItem>)
    ensures (forall j :: 0 <= j < |items| ==> items[j].quantity > 0) ==> SumBy(items, LineQuantity) >= |items|
  {
    if items != [] {
      PositiveQuantitiesCount(items[1..]);
    }
  }

  /**
   * `state.total + shipping`, for a state whose total agrees with its lines
   * (every state the reducer produces, see `Reduce`).
   */
  function OrderTotal(state: CartState): (r: int)
    requires state.total == Total(state.items)
    ensures r == Total(state.items) + Shipping
  {
    state.total + Shipping
  }

  /** ADD_ITEM raises the badge count by the payload's quantity, merged or appended. */
  lemma AddLineItemCount(items: seq<CartItem>, payload: CartItem)
    ensures ItemCount(AddLine(items, payload)) == ItemCount(items) + payload.quantity
  {
    var i := FindLine(items, KeyOf(payload));
    if 0 <= i {
      var x := items[i].(quantity := items[i].quantity + payload.quantity);
      assert AddLine(items, payload) == items[i := x];
      SumByUpdate(items, i, x, LineQuantity);
    } else {
      SumByAppend(items, [payload], LineQuantity);
      assert [payload][1..] == [];
    }
  }

  /** Restoring a saved cart keeps the badge count of the saved lines. */
  lemma {:induction false} ReplayItemCount(lines: seq<CartItem>)
    ensures ItemCount(Replay(lines)) == ItemCount(lines)
  {
    if lines != [] {
      var prefix, last := lines[..|lines| - 1], lines[|lines| - 1];
      ReplayItemCount(prefix);
      AddLineItemCount(Replay(prefix), last);
      assert prefix + [last] == lines;
      SumByAppend(prefix, [last], LineQuantity);
      assert [last][1..] == [];
    }
  }

  /** After any reducer action the order total is the sum of the line totals plus shipping. */
  lemma OrderTotalAfterAction(state: CartState, action: CartAction)
    ensures OrderTotal(Reduce(state, action)) == Total(Reduce(state, action).items) + Shipping
  {
  }
}
