/** The order history page (src/pages/OrderHistoryPage.tsx): the fetched
    orders sorted newest first in place, the loading and error state set
    around the fetch, the order in which the page picks what to render, and
    the case-insensitive status styles. The fetch itself is an input: its
    outcome is given. */
module OrderHistoryPage {
  import opened Common

  /** An order line as the server sends it. */
  datatype HistoryItem = HistoryItem(id: int, itemId: int, itemName: string, quantity: int, priceAtOrder: real)

  /** An order as the server sends it. `createdAt` is the instant its
      `created_at` timestamp denotes, in milliseconds; the address and slot
      fields are display text and are not kept. */
  datatype HistoryOrder = HistoryOrder(
    id: int,
    userId: int,
    status: string,
    totalPrice: real,
    createdAt: int,
    items: seq<HistoryItem>)

  /** The comparator `(a, b) => b.created_at - a.created_at` puts later
      timestamps first. */
  ghost predicate NewestFirst(s: seq<HistoryOrder>)
  {
    forall i, j :: 0 <= i < j < |s| ==> s[i].createdAt >= s[j].createdAt
  }

  /** `data.sort(...)`, in place: afterwards the array holds the same orders,
      newest first. */
  method SortNewestFirst(a: array<HistoryOrder>)
    modifies a
    ensures NewestFirst(a[..])
    ensures multiset(a[..]) == multiset(old(a[..]))
  {
    var i := 0;
    while i < a.Length
      invariant 0 <= i <= a.Length
      invariant NewestFirstUpTo(a[..], i)
      invariant multiset(a[..]) == multiset(old(a[..]))
    {
      InsertDown(a, i);
      i := i + 1;
    }
  }

  /** The first `n` orders are newest first. */
  ghost predicate NewestFirstUpTo(s: seq<HistoryOrder>, n: nat)
    requires n <= |s|
  {
    forall p, q :: 0 <= p < q < n ==> s[p].createdAt >= s[q].createdAt
  }

  /** During a pass: the first `i + 1` orders are newest first except for the
      moving one at `j`, which is newer than every order after it. */
  ghost predicate Moving(s: seq<HistoryOrder>, i: nat, j: nat)
    requires j <= i < |s|
  {
    (forall p, q :: 0 <= p < q <= i && p != j && q != j ==> s[p].createdAt >= s[q].createdAt) &&
    (forall q :: j < q <= i ==> s[j].createdAt > s[q].createdAt)
  }

  /** One pass of the insertion sort: the order at `i` moves down past the
      older orders before it, so the first `i + 1` orders end newest first. */
  method InsertDown(a: array<HistoryOrder>, i: nat)
    requires i < a.Length && NewestFirstUpTo(a[..], i)
    modifies a
    ensures NewestFirstUpTo(a[..], i + 1)
    ensures multiset(a[..]) == multiset(old(a[..]))
  {
    var j := i;
    while j > 0 && a[j - 1].createdAt < a[j].createdAt
      invariant 0 <= j <= i
      invariant Moving(a[..], i, j)
      invariant multiset(a[..]) == multiset(old(a[..]))
    {
      ghost var before := a[..];
      a[j - 1], a[j] := a[j], a[j - 1];
      assert a[..] == before[j - 1 := before[j]][j := before[j - 1]];
      SwapStep(before, a[..], i, j);
      j := j - 1;
    }
    InsertedInPlace(a[..], i, j);
  }

  /** One exchange of a pass: moving the order at `j` down past an older
      neighbour keeps the pass's arrangement, and keeps the same orders. */
  lemma SwapStep(s: seq<HistoryOrder>, t: seq<HistoryOrder>, i: nat, j: nat)
    requires 0 < j <= i < |s| && s[j - 1].createdAt < s[j].createdAt
    requires t == s[j - 1 := s[j]][j := s[j - 1]]
    requires Moving(s, i, j)
    ensures Moving(t, i, j - 1)
    ensures multiset(t) == multiset(s)
  {
  }

  /** Where the moving order stops, it is no older than what follows it and
      no newer than what precedes it, so the whole prefix is ordered. */
  lemma InsertedInPlace(s: seq<HistoryOrder>, i: nat, j: nat)
    requires j <= i < |s| && Moving(s, i, j)
    requires j > 0 ==> s[j - 1].createdAt >= s[j].createdAt
    ensures NewestFirstUpTo(s, i + 1)
  {
    forall p, q | 0 <= p < q <= i ensures s[p].createdAt >= s[q].createdAt {
      if q == j && p < j - 1 {
        assert s[p].createdAt >= s[j - 1].createdAt;
      }
    }
  }

  /** The timestamps of a list of orders, in list order. */
  function Keys(s: seq<HistoryOrder>): (r: seq<int>)
    ensures |r| == |s| && forall k :: 0 <= k < |s| ==> r[k] == s[k].createdAt
  {
    if s == [] then [] else [s[0].createdAt] + Keys(s[1..])
  }

  /** Two newest-first arrangements of the same orders agree on the timestamp
      at every position: the sort fixes the order of the page up to orders
      placed at the same instant. */
  lemma {:induction false} NewestFirstKeysUnique(s: seq<HistoryOrder>, t: seq<HistoryOrder>)
    requires NewestFirst(s) && NewestFirst(t) && multiset(s) == multiset(t)
    ensures Keys(s) == Keys(t)
    decreases |s|
  {
    if s == [] {
      assert |t| == |multiset(t)| == 0;
    } else {
      var t' := TailsArranged(s, t);
      NewestFirstKeysUnique(s[1..], t');
      assert Keys(s) == [s[0].createdAt] + Keys(s[1..]);
      assert Keys(t) == [t[0].createdAt] + Keys(t[1..]);
    }
  }

  /** One step of the uniqueness proof: the heads carry one timestamp, and
      taking the head of `s` out of `t` leaves two arrangements of the same
      orders, both newest first, with `t`'s tail timestamps. */
  lemma TailsArranged(s: seq<HistoryOrder>, t: seq<HistoryOrder>) returns (t': seq<HistoryOrder>)
    requires NewestFirst(s) && NewestFirst(t) && multiset(s) == multiset(t) && s != []
    ensures t != [] && s[0].createdAt == t[0].createdAt
    ensures NewestFirst(s[1..]) && NewestFirst(t') && multiset(s[1..]) == multiset(t')
    ensures Keys(t[1..]) == Keys(t')
  {
    assert s[0] in multiset(s);
    var j := IndexOf(t, s[0]);
    HeadsAgree(s, t);
    t' := t[..j] + t[j + 1..];
    RemoveAtMultiset(t, j);
    DropHead(s);
    RemovePreservesNewestFirst(t, j);
    DropEqualKey(t, j);
  }

  lemma IndexOf(t: seq<HistoryOrder>, x: HistoryOrder) returns (j: nat)
    requires x in multiset(t)
    ensures j < |t| && t[j] == x
  {
    assert x in t;
    j :| 0 <= j < |t| && t[j] == x;
  }

  /** The newest order of two arrangements of the same orders carries one
      timestamp. */
  lemma HeadsAgree(s: seq<HistoryOrder>, t: seq<HistoryOrder>)
    requires NewestFirst(s) && NewestFirst(t) && multiset(s) == multiset(t) && s != [] && t != []
    ensures s[0].createdAt == t[0].createdAt
  {
    var j := IndexOf(t, s[0]);
    var i := IndexOf(s, t[0]);
  }

  lemma DropHead(s: seq<HistoryOrder>)
    requires NewestFirst(s) && s != []
    ensures NewestFirst(s[1..]) && multiset(s[1..]) == multiset(s) - multiset{s[0]}
  {
    assert s == [s[0]] + s[1..];
  }

  lemma RemoveAtMultiset(t: seq<HistoryOrder>, j: nat)
    requires j < |t|
    ensures multiset(t[..j] + t[j + 1..]) == multiset(t) - multiset{t[j]}
  {
    assert t == t[..j] + [t[j]] + t[j + 1..];
  }

  /** Taking out an order that carries the head's timestamp leaves the same
      timestamps as taking out the head. */
  lemma DropEqualKey(t: seq<HistoryOrder>, j: nat)
    requires NewestFirst(t) && j < |t| && t[j].createdAt == t[0].createdAt
    ensures Keys(t[1..]) == Keys(t[..j] + t[j + 1..])
  {
    var t' := t[..j] + t[j + 1..];
    var a := Keys(t[1..]);
    var b := Keys(t');
    forall k | 0 <= k < |t| - 1 ensures a[k] == b[k] {
      if k < j {
        assert t'[k] == t[k];
        assert t[0].createdAt >= t[k + 1].createdAt >= t[j].createdAt;
        assert t[0].createdAt >= t[k].createdAt >= t[j].createdAt;
      } else {
        assert t'[k] == t[k + 1];
      }
    }
  }

  lemma RemovePreservesNewestFirst(t: seq<HistoryOrder>, j: nat)
    requires NewestFirst(t) && j < |t|
    ensures NewestFirst(t[..j] + t[j + 1..])
  {
    var t' := t[..j] + t[j + 1..];
    forall p, q | 0 <= p < q < |t'| ensures t'[p].createdAt >= t'[q].createdAt {
      var p0 := if p < j then p else p + 1;
      var q0 := if q < j then q else q + 1;
      assert t'[p] == t[p0] && t'[q] == t[q0];
    }
  }

  /** What the orders request came back with: the orders of an ok response,
      a non-ok response with the body's optional `error` field, or an
      exception (a transport failure or an unreadable body) with its message. */
  datatype FetchOutcome =
    | Fetched(data: seq<HistoryOrder>)
    | HttpError(bodyError: Option<string>)
    | Thrown(message: string)

  const FetchFallback := "Failed to fetch orders"

  /** `setError(error.message)`: the body's `error` when it is a non-empty
      string, else the fixed fallback; a thrown message as it is. */
  function FetchErrorMessage(outcome: FetchOutcome): (m: string)
    requires !outcome.Fetched?
    ensures outcome.HttpError? && outcome.bodyError.Some? && outcome.bodyError.value != "" ==>
      m == outcome.bodyError.value
    ensures outcome.HttpError? && (outcome.bodyError.None? || outcome.bodyError.value == "") ==>
      m == FetchFallback
    ensures outcome.HttpError? ==> m != ""
    ensures outcome.Thrown? ==> m == outcome.message
  {
    match outcome
    case HttpError(bodyError) => OrElse(bodyError, FetchFallback)
    case Thrown(message) => message
  }

  /** `getStatusStyles(status)`: a switch on the lower-cased status. */
  function StatusStyle(status: string): string
  {
    match ToLower(status)
    case "delivered" => "bg-green-100 text-green-800"
    case "cancelled" => "bg-red-100 text-red-800"
    case "processing" => "bg-blue-100 text-blue-800"
    case "out for delivery" => "bg-blue-100 text-blue-800"
    case _ => "bg-yellow-100 text-yellow-800"
  }

  const Yellow := "bg-yellow-100 text-yellow-800"

  /** The style ignores letter case: statuses that agree when lower-cased
      are styled alike, and lower-casing first changes nothing. Yellow is
      exactly the fall-through of the four named statuses. */
  lemma StatusStyleIgnoresCase(a: string, b: string)
    ensures ToLower(a) == ToLower(b) ==> StatusStyle(a) == StatusStyle(b)
    ensures StatusStyle(ToLower(a)) == StatusStyle(a)
    ensures StatusStyle(a) == Yellow <==>
      var l := ToLower(a);
      l != "delivered" && l != "cancelled" && l != "processing" && l != "out for delivery"
  {
    ToLowerIdempotent(a);
  }

  /** The server's capitalised 'Delivered' is styled green. */
  lemma DeliveredIsGreen()
    ensures StatusStyle("Delivered") == "bg-green-100 text-green-800"
  {
    DeliveredLowered();
    LowerDeliveredIsGreen("Delivered");
  }

  lemma DeliveredLowered()
    ensures ToLower("Delivered") == "delivered"
  {
    var l := ToLower("Delivered");
    forall k | 0 <= k < 9 ensures l[k] == "delivered"[k] {
    }
  }

  lemma LowerDeliveredIsGreen(status: string)
    requires ToLower(status) == "delivered"
    ensures StatusStyle(status) == "bg-green-100 text-green-800"
  {
  }

  /** A status whose lower-cased first letter begins none of the four named
      statuses is styled yellow. */
  lemma InitialOutsideNamedIsYellow(status: string)
    requires status != [] && LowerChar(status[0]) !in {'d', 'c', 'p', 'o'}
    ensures StatusStyle(status) == Yellow
  {
    assert ToLower(status)[0] == LowerChar(status[0]);
  }

  /** A row of the list: the order and its badge style. */
  datatype Row = Row(order: HistoryOrder, style: string)

  datatype HistoryScreen =
    | LoadingOrders
    | ErrorBanner(message: string)
    | NoOrdersPlaced
    | OrderRows(rows: seq<Row>)

  function Rows(orders: seq<HistoryOrder>): (r: seq<Row>)
    ensures |r| == |orders|
    ensures forall k :: 0 <= k < |orders| ==> r[k] == Row(orders[k], StatusStyle(orders[k].status))
  {
    if orders == [] then [] else [Row(orders[0], StatusStyle(orders[0].status))] + Rows(orders[1..])
  }

  /** The nested conditional of the page: loading first, then a non-empty
      error, then the empty list, then the rows. */
  function Render(loading: bool, error: Option<string>, orders: seq<HistoryOrder>): (s: HistoryScreen)
    ensures s.LoadingOrders? <==> loading
    ensures s.ErrorBanner? <==> !loading && error.Some? && error.value != ""
    ensures s.ErrorBanner? ==> s.message == error.value
    ensures s.NoOrdersPlaced? <==> !loading && (error.None? || error.value == "") && orders == []
    ensures s.OrderRows? ==> s.rows == Rows(orders) && orders != []
  {
    if loading then LoadingOrders
    else if error.Some? && error.value != "" then ErrorBanner(error.value)
    else if |orders| == 0 then NoOrdersPlaced
    else OrderRows(Rows(orders))
  }

  /** A non-ok response always shows the error banner, whatever the list
      holds; an exception with an empty message shows no banner at all, so
      the page falls through to the list it had. */
  lemma FailedFetchScreens(bodyError: Option<string>, orders: seq<HistoryOrder>)
    ensures Render(false, Some(FetchErrorMessage(HttpError(bodyError))), orders).ErrorBanner?
    ensures Render(false, Some(FetchErrorMessage(Thrown(""))), orders)
         == (if orders == [] then NoOrdersPlaced else OrderRows(Rows(orders)))
  {
  }

  /** The page's `orders`, `loading` and `error` state. */
  class HistoryView {
    var orders: seq<HistoryOrder>
    var loading: bool
    var error: Option<string>

    constructor ()
      ensures orders == [] && loading && error == None
    {
      orders := [];
      loading := true;
      error := None;
    }

    /** `fetchOrders()` with the given outcome: loading and error are reset,
      the sorted orders or the error message stored, and loading cleared in
      the `finally`. A failed fetch keeps the previous orders. */
    method FetchOrders(outcome: FetchOutcome)
      modifies this
      ensures !loading
      ensures outcome.Fetched? ==>
        error == None && NewestFirst(orders) && multiset(orders) == multiset(outcome.data)
      ensures !outcome.Fetched? ==>
        orders == old(orders) && error == Some(FetchErrorMessage(outcome))
    {
      loading := true;
      error := None;
      match outcome {
        case Fetched(data) =>
          var a := new HistoryOrder[|data|](k requires 0 <= k < |data| => data[k]);
          assert a[..] == data;
          SortNewestFirst(a);
          orders := a[..];
        case HttpError(_) =>
          error := Some(FetchErrorMessage(outcome));
        case Thrown(_) =>
          error := Some(FetchErrorMessage(outcome));
      }
      loading := false;
    }
  }
}
