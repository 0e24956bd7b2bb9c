/** The order detail page (src/pages/OrderDetailPage.tsx): the guarded
    fetch of one order, the guarded cancel request, their error messages, and
    the order in which the page picks what to render. Both requests are
    inputs: their outcomes are given. The order record is the one of the
    history page. */
module OrderDetailPage {
  import opened Common
  import opened OrderHistoryPage

  /** What the order request came back with: the order of an ok response, a
      non-ok status with the body's optional `error` field (the body is not
      read on a 404), or an exception with its message. */
  datatype DetailOutcome =
    | Loaded(order: HistoryOrder)
    | NotOk(status: nat, bodyError: Option<string>)
    | DetailThrown(message: string)

  /** What the cancel request came back with: the body's `order` field of an
      ok response (absent when the body has none), a non-ok response with the
      body's optional `error`, or an exception with its message. */
  datatype CancelOutcome =
    | CancelAccepted(order: Option<HistoryOrder>)
    | CancelRejected(bodyError: Option<string>)
    | CancelThrown(message: string)

  const NotFoundMessage := "Order not found."
  const DetailFallback := "Failed to fetch order details"
  const CancelFallback := "Failed to cancel order"

  /** The `error` set by a failed fetch: a fixed text for 404, the body's
      non-empty `error` or the fallback for any other non-ok status, and a
      thrown message as it is. */
  function DetailErrorMessage(outcome: DetailOutcome): (m: string)
    requires !outcome.Loaded?
    ensures outcome.NotOk? && outcome.status == 404 ==> m == NotFoundMessage
    ensures outcome.NotOk? && outcome.status != 404 && outcome.bodyError.Some? && outcome.bodyError.value != "" ==>
      m == outcome.bodyError.value
    ensures outcome.NotOk? && outcome.status != 404 && (outcome.bodyError.None? || outcome.bodyError.value == "") ==>
      m == DetailFallback
    ensures outcome.NotOk? ==> m != ""
    ensures outcome.DetailThrown? ==> m == outcome.message
  {
    match outcome
    case NotOk(status, bodyError) => if status == 404 then NotFoundMessage else OrElse(bodyError, DetailFallback)
    case DetailThrown(message) => message
  }

  /** A 404 reports 'Order not found.' whatever its body says. */
  lemma NotFoundIgnoresBody(bodyError: Option<string>)
    ensures DetailErrorMessage(NotOk(404, bodyError)) == "Order not found."
  {
  }

  /** The `cancelError` set by a failed cancel. */
  function CancelErrorMessage(outcome: CancelOutcome): (m: string)
    requires !outcome.CancelAccepted?
    ensures outcome.CancelRejected? && outcome.bodyError.Some? && outcome.bodyError.value != "" ==>
      m == outcome.bodyError.value
    ensures outcome.CancelRejected? && (outcome.bodyError.None? || outcome.bodyError.value == "") ==>
      m == CancelFallback
    ensures outcome.CancelRejected? ==> m != ""
    ensures outcome.CancelThrown? ==> m == outcome.message
  {
    match outcome
    case CancelRejected(bodyError) => OrElse(bodyError, CancelFallback)
    case CancelThrown(message) => message
  }

  /** `order.status === 'Scheduled Pickup'`: exact and case-sensitive. */
  function CanCancel(status: string): bool
  {
    status == "Scheduled Pickup"
  }

  /** The cancel test and the style disagree on case: the lower-case
      spelling is styled like the cancellable status but cannot be
      cancelled, and the one cancellable status is styled yellow. */
  lemma CancelIsCaseSensitive()
    ensures CanCancel("Scheduled Pickup") && !CanCancel("scheduled pickup")
    ensures StatusStyle("scheduled pickup") == StatusStyle("Scheduled Pickup") == Yellow
  {
    InitialOutsideNamedIsYellow("Scheduled Pickup");
    InitialOutsideNamedIsYellow("scheduled pickup");
  }

  lemma CancellableIsYellow(status: string)
    ensures CanCancel(status) ==> StatusStyle(status) == Yellow
  {
    if CanCancel(status) {
      InitialOutsideNamedIsYellow(status);
    }
  }

  /** The cancel block under the order: the cancel error line if there is
      one to show, the button's text and whether it is disabled. */
  datatype CancelBlock = CancelBlock(errorLine: Option<string>, buttonText: string, buttonDisabled: bool)

  /** What the page shows: loading, the error banner, 'not available', or the
      order with its badge style and, for a cancellable status only, the
      cancel block. */
  datatype DetailScreen =
    | LoadingDetails
    | DetailError(message: string)
    | NotAvailable
    | Details(order: HistoryOrder, style: string, cancel: Option<CancelBlock>)

  /** The early returns of the page: loading, then a non-empty error, then
      no order; then the details. The cancel error and the button exist only
      inside the `canCancel` block. */
  function Render(loading: bool, error: Option<string>, order: Option<HistoryOrder>,
                  cancelling: bool, cancelError: Option<string>): (s: DetailScreen)
    ensures s.LoadingDetails? <==> loading
    ensures s.DetailError? <==> !loading && error.Some? && error.value != ""
    ensures s.DetailError? ==> s.message == error.value
    ensures s.NotAvailable? <==> !loading && (error.None? || error.value == "") && order.None?
    ensures s.Details? ==> order == Some(s.order) && s.style == StatusStyle(s.order.status)
    ensures s.Details? ==> (s.cancel.Some? <==> CanCancel(s.order.status))
    ensures s.Details? && s.cancel.Some? ==>
      s.cancel.value.buttonDisabled == cancelling &&
      s.cancel.value.buttonText == (if cancelling then "Cancelling..." else "Cancel Order") &&
      (s.cancel.value.errorLine.Some? <==> cancelError.Some? && cancelError.value != "") &&
      (s.cancel.value.errorLine.Some? ==> s.cancel.value.errorLine == cancelError)
  {
    if loading then LoadingDetails
    else if error.Some? && error.value != "" then DetailError(error.value)
    else if order.None? then NotAvailable
    else
      var o := order.value;
      Details(o, StatusStyle(o.status),
              if CanCancel(o.status) then
                Some(CancelBlock(if cancelError.Some? && cancelError.value != "" then cancelError else None,
                                 if cancelling then "Cancelling..." else "Cancel Order",
                                 cancelling))
              else None)
  }

  /** After a rejected cancel the order is still shown with its cancel block,
      and the rejection's text is on screen. */
  lemma RejectedCancelShown(order: HistoryOrder, bodyError: Option<string>)
    requires CanCancel(order.status)
    ensures var m := CancelErrorMessage(CancelRejected(bodyError));
      var s := Render(false, None, Some(order), false, Some(m));
      s.Details? && s.cancel == Some(CancelBlock(Some(m), "Cancel Order", false))
  {
  }

  /** A cancel error left over from an earlier order is not shown once the
      shown order can no longer be cancelled: a later fetch keeps
      `cancelError`, but the page has no cancel block to show it in. */
  lemma StaleCancelErrorHidden(order: HistoryOrder, cancelError: Option<string>)
    requires !CanCancel(order.status)
    ensures Render(false, None, Some(order), false, cancelError).Details?
    ensures Render(false, None, Some(order), false, cancelError).cancel.None?
  {
  }

  /** The page's `order`, `loading`, `error`, `cancelling` and `cancelError`
      state. */
  class DetailView {
    var order: Option<HistoryOrder>
    var loading: bool
    var error: Option<string>
    var cancelling: bool
    var cancelError: Option<string>

    constructor ()
      ensures order == None && loading && error == None && !cancelling && cancelError == None
    {
      order := None;
      loading := true;
      error := None;
      cancelling := false;
      cancelError := None;
    }

    /** `fetchOrderDetails()`: nothing at all happens without a user or a
      non-empty order id (so a fresh page stays on its loading state);
      otherwise the order or the error is stored and loading cleared. */
    method FetchDetails(hasUser: bool, orderId: Option<string>, outcome: DetailOutcome)
      modifies this
      ensures cancelling == old(cancelling) && cancelError == old(cancelError)
      ensures !hasUser || orderId.None? || orderId.value == "" ==>
        order == old(order) && loading == old(loading) && error == old(error)
      ensures hasUser && orderId.Some? && orderId.value != "" ==>
        !loading &&
        (outcome.Loaded? ==> order == Some(outcome.order) && error == None) &&
        (!outcome.Loaded? ==> order == old(order) && error == Some(DetailErrorMessage(outcome)))
    {
      if !hasUser || orderId.None? || orderId.value == "" {
        return;
      }
      loading := true;
      error := None;
      match outcome {
        case Loaded(o) =>
          order := Some(o);
        case NotOk(_, _) =>
          error := Some(DetailErrorMessage(outcome));
        case DetailThrown(_) =>
          error := Some(DetailErrorMessage(outcome));
      }
      loading := false;
    }

    /** `handleCancelOrder()`: a no-op unless an order with the cancellable
      status is shown; otherwise the response's order replaces it, or the
      error goes to `cancelError` and the order stays, and `cancelling` ends
      false. */
    method CancelOrder(outcome: CancelOutcome)
      modifies this
      ensures loading == old(loading) && error == old(error)
      ensures !(old(order).Some? && CanCancel(old(order).value.status)) ==>
        order == old(order) && cancelling == old(cancelling) && cancelError == old(cancelError)
      ensures old(order).Some? && CanCancel(old(order).value.status) ==>
        !cancelling &&
        (outcome.CancelAccepted? ==> order == outcome.order && cancelError == None) &&
        (!outcome.CancelAccepted? ==> order == old(order) && cancelError == Some(CancelErrorMessage(outcome)))
    {
      if order.None? || !CanCancel(order.value.status) {
        return;
      }
      cancelling := true;
      cancelError := None;
      match outcome {
        case CancelAccepted(updated) =>
          order := updated;
        case CancelRejected(_) =>
          cancelError := Some(CancelErrorMessage(outcome));
        case CancelThrown(_) =>
          cancelError := Some(CancelErrorMessage(outcome));
      }
      cancelling := false;
    }
  }
}
