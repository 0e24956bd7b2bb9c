/** The cart page (src/pages/CartPage.tsx): its own subtotal, which reads a
    missing quantity as zero, and the +/- handler that clamps at one before
    calling the store's `updateQuantity`. */
module CartPage {
  import opened Common
  import opened CartContext
  import CheckoutPage

  datatype CartScreen = EmptyCartNotice | CartLines(lines: seq<CartItem>)

  /** `items.reduce((sum, item) => sum + (item.price * (item.quantity ?? 0)), 0)`. */
  function PageSubtotal(items: seq<CartItem>): real
  {
    if items == [] then 0.0 else items[0].price * OrZero(items[0].quantity) as real + PageSubtotal(items[1..])
  }

  function PageTotal(items: seq<CartItem>): real
  {
    PageSubtotal(items) + CheckoutPage.Tax(PageSubtotal(items))
  }

  /** The prices of the lines the two readings disagree on: those with no
      quantity or a stored 0, which checkout charges once and this page not
      at all. */
  function DefaultedPrice(items: seq<CartItem>): real
  {
    if items == [] then 0.0
    else (if items[0].quantity.None? || items[0].quantity.value == 0 then items[0].price else 0.0)
         + DefaultedPrice(items[1..])
  }

  /** The checkout subtotal exceeds this page's by exactly the prices of the
      lines whose quantity is missing or 0. */
  lemma {:induction false} SubtotalsDiffer(items: seq<CartItem>)
    ensures CheckoutPage.Subtotal(items) == PageSubtotal(items) + DefaultedPrice(items)
  {
    if items != [] {
      SubtotalsDiffer(items[1..]);
    }
  }

  /** When every line carries a non-zero quantity the two pages agree on the
      subtotal and on the total. */
  lemma {:induction false} SubtotalsAgree(items: seq<CartItem>)
    requires forall k :: 0 <= k < |items| ==> items[k].quantity.Some? && items[k].quantity.value != 0
    ensures PageSubtotal(items) == CheckoutPage.Subtotal(items)
    ensures PageTotal(items) == CheckoutPage.Total(items)
  {
    if items != [] {
      SubtotalsAgree(items[1..]);
    }
  }

  /** Page totals are zero for an empty cart and 110% of the subtotal. */
  lemma PageTotalsShape(items: seq<CartItem>)
    ensures items == [] ==> PageSubtotal(items) == 0.0 && PageTotal(items) == 0.0
    ensures PageTotal(items) == PageSubtotal(items) * 1.1
  {
  }

  function Screen(items: seq<CartItem>): (s: CartScreen)
    ensures s.EmptyCartNotice? <==> items == []
    ensures s.CartLines? ==> s.lines == items
  {
    if |items| == 0 then EmptyCartNotice else CartLines(items)
  }

  /** The cart after `handleQuantityChange(id, change)`: the first line with
      that id supplies the current quantity; when it has one, every line with
      that id is set to `max(1, current + change)`. */
  function AfterQuantityChange(items: seq<CartItem>, id: ItemId, change: int): seq<CartItem>
  {
    match Find(items, id)
    case Some(line) =>
      if line.quantity.Some? then AfterUpdate(items, id, AtLeastOne(line.quantity.value + change))
      else items
    case None => items
  }

  /** No line with that id, or a line without a quantity: nothing changes.
      Otherwise every line with that id ends at `max(1, current + change)`:
      exactly `current + change` when that is at least one, and 1 below
      that; all other lines stay as they were. */
  lemma QuantityChangeClamps(items: seq<CartItem>, id: ItemId, change: int)
    ensures var line := Find(items, id);
      line.None? || line.value.quantity.None? ==> AfterQuantityChange(items, id, change) == items
    ensures var line := Find(items, id); var r := AfterQuantityChange(items, id, change);
      line.Some? && line.value.quantity.Some? ==>
        |r| == |items| &&
        forall k :: 0 <= k < |items| ==>
          if items[k].itemId == id then
            r[k] == items[k].(quantity := Some(AtLeastOne(line.value.quantity.value + change))) &&
            (line.value.quantity.value + change >= 1 ==> r[k].quantity.value == line.value.quantity.value + change) &&
            (line.value.quantity.value + change < 1 ==> r[k].quantity.value == 1)
          else r[k] == items[k]
  {
    var line := Find(items, id);
    if line.Some? && line.value.quantity.Some? {
      ChangeIsUpdate(items, id, change);
    }
  }

  /** Pressing minus on a line at quantity one leaves it at one. */
  lemma DecrementAtOneStays(items: seq<CartItem>, k: nat)
    requires k < |items| && items[k].quantity == Some(1)
    requires DistinctIds(items)
    ensures AfterQuantityChange(items, items[k].itemId, -1) == items
  {
    var id := items[k].itemId;
    var line := Find(items, id);
    assert line.value == items[k];
    var r := AfterUpdate(items, id, 1);
    forall j | 0 <= j < |items| ensures r[j] == items[j] {
      if items[j].itemId == id {
        assert j == k;
      }
    }
  }

  /** Where the first line with the id has a quantity, the change is one
      `updateQuantity` with the clamped value. */
  lemma ChangeIsUpdate(items: seq<CartItem>, id: ItemId, change: int)
    requires Find(items, id).Some? && Find(items, id).value.quantity.Some?
    ensures AfterQuantityChange(items, id, change)
         == AfterUpdate(items, id, AtLeastOne(Find(items, id).value.quantity.value + change))
  {
  }

  /** `handleQuantityChange`, as a command on the cart store. */
  method HandleQuantityChange(cart: CartStore, id: ItemId, change: int)
    modifies cart
    ensures cart.items == AfterQuantityChange(old(cart.items), id, change)
  {
    ghost var before := cart.items;
    var current := Find(cart.items, id);
    if current.Some? && current.value.quantity.Some? {
      var newQuantity := AtLeastOne(current.value.quantity.value + change);
      ghost var after := AfterUpdate(before, id, newQuantity);
      assert after == AfterQuantityChange(before, id, change) by {
        ChangeIsUpdate(before, id, change);
      }
      cart.UpdateQuantity(id, newQuantity);
      assert cart.items == after;
    } else {
      assert AfterQuantityChange(before, id, change) == before;
    }
  }
}
