/** The checkout coordinator (src/pages/CheckoutPage.tsx): the totals, the
    order request built from the cart, and `handleSubmit`, which records the
    server's order and empties the cart on success and leaves both stores
    alone on failure. The network call is an input: its outcome is given. */
module CheckoutPage {
  import opened Common
  import opened CartContext
  import opened OrdersContext

  /** The checkout form's fields. The card fields are collected but never
      sent. */
  datatype FormData = FormData(
    name: string,
    email: string,
    phone: string,
    address: string,
    cardNumber: string,
    expiryDate: string,
    cvv: string)

  /** The body POSTed to the order-creation endpoint. */
  datatype OrderRequest = OrderRequest(
    date: string,
    status: string,
    items: seq<OrderItem>,
    total: real,
    customerInfo: CustomerInfo)

  /** What the order-creation call came back with: the saved order of an ok
      response, a non-ok status with the body's optional `error` field, or an
      exception (a transport failure or an unreadable body) with its message. */
  datatype PlaceOutcome =
    | Saved(order: Order)
    | Rejected(status: nat, bodyError: Option<string>)
    | Thrown(message: string)

  /** The effects `handleSubmit` performs, in the order it performs them. */
  datatype Effect =
    | ErrorCleared
    | OrderAdded(order: Order)
    | CartCleared
    | Navigated(path: string)
    | ErrorSet(message: string)

  datatype CheckoutScreen = EmptyCartNotice | CheckoutForm

  /** `items.reduce((sum, item) => sum + item.price * (item.quantity || 1), 0)`. */
  function Subtotal(items: seq<CartItem>): real
  {
    if items == [] then 0.0 else items[0].price * Eff(items[0].quantity) as real + Subtotal(items[1..])
  }

  /** The flat 10% tax. */
  function Tax(subtotal: real): real
  {
    subtotal * 0.1
  }

  function Total(items: seq<CartItem>): real
  {
    Subtotal(items) + Tax(Subtotal(items))
  }

  /** The subtotal adds up line by line: it is additive over concatenation. */
  lemma {:induction false} SubtotalAppend(a: seq<CartItem>, b: seq<CartItem>)
    ensures Subtotal(a + b) == Subtotal(a) + Subtotal(b)
  {
    if a == [] {
      assert a + b == b;
    } else {
      SubtotalAppend(a[1..], b);
      assert (a + b)[0] == a[0];
      assert (a + b)[1..] == a[1..] + b;
    }
  }

  /** Subtotal, tax and total of an empty cart are all zero, and the total is
      always 110% of the subtotal. */
  lemma TotalsShape(items: seq<CartItem>)
    ensures items == [] ==> Subtotal(items) == 0.0 && Tax(Subtotal(items)) == 0.0 && Total(items) == 0.0
    ensures Total(items) == Subtotal(items) * 1.1
  {
  }

  /** With non-negative prices and no negative stored quantity, nothing is
      owed below zero. */
  lemma {:induction false} SubtotalNonNegative(items: seq<CartItem>)
    requires forall k :: 0 <= k < |items| ==> items[k].price >= 0.0
    requires forall k :: 0 <= k < |items| ==> items[k].quantity.None? || items[k].quantity.value >= 0
    ensures Subtotal(items) >= 0.0
  {
    if items != [] {
      SubtotalNonNegative(items[1..]);
      assert Eff(items[0].quantity) >= 1;
    }
  }

  /** The request's items: `items.map(...)` copying id, name, price and unit,
      with the quantity defaulted by `|| 1`. */
  function Snapshot(items: seq<CartItem>): (r: seq<OrderItem>)
    ensures |r| == |items|
    ensures forall k :: 0 <= k < |items| ==>
      r[k] == OrderItem(items[k].itemId, items[k].name, items[k].price, items[k].unit,
                        Eff(items[k].quantity))
  {
    if items == [] then []
    else
      [OrderItem(items[0].itemId, items[0].name, items[0].price, items[0].unit, Eff(items[0].quantity))]
      + Snapshot(items[1..])
  }

  /** Σ price × quantity over order lines. */
  function LinesSum(lines: seq<OrderItem>): real
  {
    if lines == [] then 0.0 else lines[0].price * lines[0].quantity as real + LinesSum(lines[1..])
  }

  /** The order request built at submission time (`now` is the clock's
      ISO timestamp). */
  function BuildRequest(items: seq<CartItem>, form: FormData, now: string): OrderRequest
  {
    OrderRequest(
      now,
      "pending",
      Snapshot(items),
      Total(items),
      CustomerInfo(form.name, form.email, form.phone, form.address, "", ""))
  }

  /** The snapshot charges exactly what the checkout page shows: its own
      lines sum to the page's subtotal. */
  lemma {:induction false} SnapshotSum(items: seq<CartItem>)
    ensures LinesSum(Snapshot(items)) == Subtotal(items)
  {
    if items != [] {
      SnapshotSum(items[1..]);
      assert Snapshot(items)[1..] == Snapshot(items[1..]);
    }
  }

  /** The request is self-consistent: pending, one line per cart line in cart
      order, a total that is 110% of its own lines, and the contact fields
      mapped name→fullName with empty city and zip code. */
  lemma RequestConsistent(items: seq<CartItem>, form: FormData, now: string)
    ensures var r := BuildRequest(items, form, now);
      r.status == "pending" && r.date == now &&
      |r.items| == |items| &&
      (forall k :: 0 <= k < |items| ==>
        r.items[k].itemId == items[k].itemId && r.items[k].price == items[k].price &&
        ((items[k].quantity.None? || items[k].quantity.value >= 0) ==> r.items[k].quantity >= 1)) &&
      r.total == LinesSum(r.items) * 1.1 &&
      r.customerInfo.fullName == form.name && r.customerInfo.email == form.email &&
      r.customerInfo.phone == form.phone && r.customerInfo.address == form.address &&
      r.customerInfo.city == "" && r.customerInfo.zipCode == ""
  {
    SnapshotSum(items);
  }

  const FailurePrefix := "Failed to place order: "

  /** `'Failed to place order: ' + e.message`, where the message of a non-ok
      response is the body's `error`, or `HTTP error! status: N` when that is
      missing or empty. */
  function FailureMessage(outcome: PlaceOutcome): (m: string)
    requires !outcome.Saved?
    ensures |m| >= |FailurePrefix| && m[..|FailurePrefix|] == FailurePrefix
    ensures outcome.Rejected? && outcome.bodyError.Some? && outcome.bodyError.value != "" ==>
      m[|FailurePrefix|..] == outcome.bodyError.value
    ensures outcome.Rejected? && (outcome.bodyError.None? || outcome.bodyError.value == "") ==>
      m[|FailurePrefix|..] == "HTTP error! status: " + DecimalString(outcome.status)
    ensures outcome.Thrown? ==> m[|FailurePrefix|..] == outcome.message
  {
    FailurePrefix +
      match outcome
      case Rejected(status, bodyError) => OrElse(bodyError, "HTTP error! status: " + DecimalString(status))
      case Thrown(message) => message
  }

  /** An empty cart renders the empty-cart notice instead of the form, so no
      submission can start from it. */
  function Screen(items: seq<CartItem>): (s: CheckoutScreen)
    ensures s == EmptyCartNotice <==> items == []
  {
    if |items| == 0 then EmptyCartNotice else CheckoutForm
  }

  /** `handleSubmit`, reachable only from the rendered form. It returns the
      request it sent, the effects it performed in order, and the error shown. */
  method HandleSubmit(cart: CartStore, store: OrdersStore, form: FormData, now: string, outcome: PlaceOutcome)
    returns (request: OrderRequest, effects: seq<Effect>, error: Option<string>)
    requires Screen(cart.items) == CheckoutForm
    modifies cart, store
    ensures request == BuildRequest(old(cart.items), form, now)
    ensures outcome.Saved? ==>
      store.orders == AfterAddOrder(old(store.orders), outcome.order) &&
      cart.items == [] && error == None &&
      effects == [ErrorCleared, OrderAdded(outcome.order), CartCleared, Navigated("/orders")]
    ensures !outcome.Saved? ==>
      store.orders == old(store.orders) && cart.items == old(cart.items) &&
      error == Some(FailureMessage(outcome)) &&
      effects == [ErrorCleared, ErrorSet(FailureMessage(outcome))]
  {
    error := None;
    effects := [ErrorCleared];
    request := BuildRequest(cart.items, form, now);
    if outcome.Saved? {
      store.AddOrder(outcome.order);
      effects := effects + [OrderAdded(outcome.order)];
      cart.ClearCart();
      effects := effects + [CartCleared];
      effects := effects + [Navigated("/orders")];
    } else {
      var message := FailureMessage(outcome);
      error := Some(message);
      effects := effects + [ErrorSet(message)];
    }
  }

  /** A rejected placement with `{"error": "invalid address"}` surfaces that
      literal text after the fixed prefix. */
  lemma RejectedWithBodyError()
    ensures FailureMessage(Rejected(400, Some("invalid address")))
         == "Failed to place order: invalid address"
  {
  }

  /** One line of jeans at 15 with quantity 1, then two more added: a single
      line of three, a subtotal of 45, tax 4.50 and a total of 49.50. */
  lemma JeansExample()
    ensures var jeans := CartItem(1, "Jeans", 15.0, "item", 1, Some(1));
      var after := AfterAdd([jeans], jeans.(quantity := Some(2)));
      after == [jeans.(quantity := Some(3))] &&
      Subtotal(after) == 45.0 && Tax(Subtotal(after)) == 4.5 && Total(after) == 49.5
  {
    var jeans := CartItem(1, "Jeans", 15.0, "item", 1, Some(1));
    assert HasId([jeans], 1) by { assert [jeans][0].itemId == 1; }
    var after := AfterAdd([jeans], jeans.(quantity := Some(2)));
    assert after[0] == jeans.(quantity := Some(3));
    assert after == [jeans.(quantity := Some(3))];
    assert after[1..] == [];
  }
}
