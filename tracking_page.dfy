/** The tracking page (src/pages/TrackingPage.tsx): the lookup of the order
    to track and `getTrackingSteps`, a fixed four-step progress indicator
    driven by the order's status string. */
module TrackingPage {
  import opened Common
  import opened OrdersContext

  datatype StepState = Completed | Current | Upcoming

  /** A step of the indicator; its title, description and icon are fixed
      display text for each id. */
  datatype Step = Step(id: string, state: StepState)

  const StepIds: seq<string> := ["order-placed", "processing", "in-transit", "delivered"]

  /** `getTrackingSteps(status)`. Each step reads the status on its own. */
  function TrackingSteps(status: string): (r: seq<Step>)
    ensures |r| == 4 && forall k :: 0 <= k < 4 ==> r[k].id == StepIds[k]
    ensures r[0].state == Completed
    ensures forall j, k :: 0 <= j < k < 4 && r[j].state == Current ==> r[k].state != Current
    ensures status == "completed" <==> forall k :: 0 <= k < 4 ==> r[k].state == Completed
    ensures status == "processing" <==> r[1].state == Current
    ensures status == "in-transit" <==> r[2].state == Current
    ensures r[3].state != Current
    ensures status != "completed" ==> r[3].state == Upcoming
    ensures status == "processing" ==> r[2].state == Upcoming
    ensures status == "in-transit" ==> r[1].state == Upcoming
    ensures status != "completed" && status != "processing" && status != "in-transit" ==>
      forall k :: 1 <= k < 4 ==> r[k].state == Upcoming
  {
    var r := [
      Step("order-placed", Completed),
      Step("processing",
           if status == "processing" then Current
           else if status == "completed" then Completed else Upcoming),
      Step("in-transit",
           if status == "in-transit" then Current
           else if status == "completed" then Completed else Upcoming),
      Step("delivered", if status == "completed" then Completed else Upcoming)
    ];
    assert (forall k :: 0 <= k < 4 ==> r[k].state == Completed) ==> r[3].state == Completed;
    r
  }

  /** Status 'in-transit' marks step three current, with step two still
      upcoming: the page never shows processing as done in that case. */
  lemma InTransitSkipsProcessing()
    ensures TrackingSteps("in-transit")[1].state == Upcoming
    ensures TrackingSteps("in-transit")[2].state == Current
    ensures TrackingSteps("in-transit")[3].state == Upcoming
  {
  }

  /** The position of the first order with that id, or `|orders|` if none. */
  function FirstIndex(orders: seq<Order>, id: string): (k: nat)
    ensures k <= |orders|
    ensures forall j :: 0 <= j < k ==> orders[j].id != id
    ensures k < |orders| ==> orders[k].id == id
  {
    if orders == [] then 0
    else if orders[0].id == id then 0
    else 1 + FirstIndex(orders[1..], id)
  }

  /** `orders.find(o => o.id === trackingId)`. */
  function FindOrder(orders: seq<Order>, id: string): (r: Option<Order>)
    ensures r.None? <==> forall k :: 0 <= k < |orders| ==> orders[k].id != id
    ensures r.Some? ==> r.value == orders[FirstIndex(orders, id)] && r.value.id == id
  {
    var k := FirstIndex(orders, id);
    if k < |orders| then Some(orders[k]) else None
  }

  datatype TrackingScreen = SearchForm | Progress(order: Order, steps: seq<Step>)

  /** No match shows the search form; otherwise the first matching order's
      progress is shown. */
  function Screen(orders: seq<Order>, trackingId: string): (s: TrackingScreen)
    ensures s.SearchForm? <==> forall k :: 0 <= k < |orders| ==> orders[k].id != trackingId
    ensures s.Progress? ==> s.order.id == trackingId && s.order in orders &&
                            s.steps == TrackingSteps(s.order.status)
    ensures s.Progress? ==> FirstIndex(orders, trackingId) < |orders| &&
                            s.order == orders[FirstIndex(orders, trackingId)]
  {
    match FindOrder(orders, trackingId)
    case None => SearchForm
    case Some(o) => Progress(o, TrackingSteps(o.status))
  }

  /** A freshly placed order is found first, even if an older order with the
      same id is still in the store. */
  lemma NewestPlacementTracked(orders: seq<Order>, order: Order)
    ensures Screen(AfterAddOrder(orders, order), order.id)
         == Progress(order, TrackingSteps(order.status))
  {
    assert FirstIndex(AfterAddOrder(orders, order), order.id) == 0;
  }
}
