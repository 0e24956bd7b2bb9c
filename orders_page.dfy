/** The orders page (src/pages/OrdersPage.tsx): the status badge (icon,
    colour and label), the Track button rule, the item picture lookup and the
    empty-history state, all read off the orders store. */
module OrdersPage {
  import opened Common
  import opened OrdersContext
  import TrackingPage
  import ServicesPage

  /** The badge icons of `getStatusIcon`. */
  datatype StatusIcon = ClockIcon | CheckCircleIcon | XCircleIcon | TruckIcon | PackageIcon

  /** `getStatusIcon(status)`: four known statuses, then a default. */
  function IconFor(status: string): StatusIcon
  {
    match status
    case "pending" => ClockIcon
    case "completed" => CheckCircleIcon
    case "cancelled" => XCircleIcon
    case "in-transit" => TruckIcon
    case _ => PackageIcon
  }

  /** `getStatusColor(status)`: the same four statuses, then gray. */
  function ColorFor(status: string): string
  {
    match status
    case "pending" => "bg-yellow-100 text-yellow-800"
    case "completed" => "bg-green-100 text-green-800"
    case "cancelled" => "bg-red-100 text-red-800"
    case "in-transit" => "bg-blue-100 text-blue-800"
    case _ => "bg-gray-100 text-gray-800"
  }

  /** The two switches cover the same cases: two statuses get the same icon
      exactly when they get the same colour, the four named statuses each
      get a colour of their own, and every other status falls to the gray
      package badge. */
  lemma IconAndColorInStep(a: string, b: string)
    ensures IconFor(a) == IconFor(b) <==> ColorFor(a) == ColorFor(b)
    ensures IconFor(a) == PackageIcon <==>
      a != "pending" && a != "completed" && a != "cancelled" && a != "in-transit"
    ensures IconFor(a) == PackageIcon <==> ColorFor(a) == "bg-gray-100 text-gray-800"
  {
  }

  /** The `itemImages` table; `default` is an ordinary key of it. */
  const ItemImages: map<string, string> := map[
    "Regular Clothing" := "https://placehold.co/200x200/2563eb/ffffff?text=Regular+Clothing",
    "Delicate Items" := "https://placehold.co/200x200/7c3aed/ffffff?text=Delicate+Items",
    "Suits" := "https://placehold.co/200x200/059669/ffffff?text=Suits",
    "Dresses" := "https://placehold.co/200x200/dc2626/ffffff?text=Dresses",
    "Silk Blouses" := "https://placehold.co/200x200/ea580c/ffffff?text=Silk+Blouses",
    "Wool Sweaters" := "https://placehold.co/200x200/4f46e5/ffffff?text=Wool+Sweaters",
    "Leather Jackets" := "https://placehold.co/200x200/1e293b/ffffff?text=Leather+Jackets",
    "Wedding Dresses" := "https://placehold.co/200x200/be185d/ffffff?text=Wedding+Dresses",
    "Fur Coats" := "https://placehold.co/200x200/831843/ffffff?text=Fur+Coats",
    "Cashmere Items" := "https://placehold.co/200x200/9f1239/ffffff?text=Cashmere",
    "Vintage Clothing" := "https://placehold.co/200x200/854d0e/ffffff?text=Vintage",
    "Handmade Items" := "https://placehold.co/200x200/166534/ffffff?text=Handmade",
    "Embellished Garments" := "https://placehold.co/200x200/be123c/ffffff?text=Embellished",
    "Lace Items" := "https://placehold.co/200x200/be185d/ffffff?text=Lace",
    "default" := "https://placehold.co/200x200/6b7280/ffffff?text=Item"
  ]

  const DefaultImage := "https://placehold.co/200x200/6b7280/ffffff?text=Item"

  /** `itemImages[itemName] || itemImages.default`: a listed name with a
      non-empty URL gets that URL, anything else the default picture. */
  function ItemImage(name: string): (url: string)
    ensures name in ItemImages && ItemImages[name] != "" ==> url == ItemImages[name]
    ensures name !in ItemImages || ItemImages[name] == "" ==> url == DefaultImage
    ensures url != ""
  {
    assert "default" in ItemImages;
    OrElse(if name in ItemImages then Some(ItemImages[name]) else None, ItemImages["default"])
  }

  /** Every item of the services page's catalog has a picture of its own. */
  lemma CatalogItemsHavePictures(s: nat, k: nat)
    requires s < |ServicesPage.SampleServices| && k < |ServicesPage.SampleServices[s].items|
    ensures var name := ServicesPage.SampleServices[s].items[k].name;
      ItemImage(name) == ItemImages[name] && ItemImage(name) != DefaultImage
  {
    if s == 0 {
      WashAndFoldPictured(k);
    } else if s == 1 {
      DryCleaningPictured(k);
    } else {
      SpecialCarePictured(k);
    }
  }

  lemma WashAndFoldPictured(k: nat)
    requires k < |ServicesPage.WashAndFoldItems|
    ensures var name := ServicesPage.WashAndFoldItems[k].name;
      name in ItemImages && ItemImages[name] != "" && ItemImages[name] != DefaultImage
  {
  }

  lemma DryCleaningPictured(k: nat)
    requires k < |ServicesPage.DryCleaningItems|
    ensures var name := ServicesPage.DryCleaningItems[k].name;
      name in ItemImages && ItemImages[name] != "" && ItemImages[name] != DefaultImage
  {
  }

  lemma SpecialCarePictured(k: nat)
    requires k < |ServicesPage.SpecialCareItems|
    ensures var name := ServicesPage.SpecialCareItems[k].name;
      name in ItemImages && ItemImages[name] != "" && ItemImages[name] != DefaultImage
  {
  }

  /** `status.charAt(0).toUpperCase() + status.slice(1)`. */
  function StatusLabel(status: string): (r: string)
    ensures |r| == |status|
    ensures status != [] ==> r[0] == UpperChar(status[0]) && r[1..] == status[1..]
  {
    if status == [] then [] else [UpperChar(status[0])] + status[1..]
  }

  /** Labelling twice is labelling once, a label keeps its own capital, and
      two statuses with one label differ at most in their first letter. */
  lemma StatusLabelProperties(a: string, b: string)
    ensures StatusLabel(StatusLabel(a)) == StatusLabel(a)
    ensures StatusLabel(a) == StatusLabel(b) ==> |a| == |b| && (a != [] ==> a[1..] == b[1..])
  {
    if StatusLabel(a) == StatusLabel(b) && a != [] {
      assert b != [];
      assert StatusLabel(a)[1..] == StatusLabel(b)[1..];
    }
  }

  lemma KnownLabels()
    ensures StatusLabel("pending") == "Pending"
    ensures StatusLabel("in-transit") == "In-transit"
  {
  }

  /** `order.status !== 'completed' && order.status !== 'cancelled'`. */
  function ShowTrack(status: string): bool
  {
    status != "completed" && status != "cancelled"
  }

  /** The Track button is offered exactly for orders whose progress is not
      finished on the tracking page and that are not cancelled; where it is
      offered the last step of the progress is still to come. */
  lemma TrackButtonMatchesProgress(status: string)
    ensures var steps := TrackingPage.TrackingSteps(status);
      ShowTrack(status) <==>
        status != "cancelled" && !(forall k :: 0 <= k < 4 ==> steps[k].state == TrackingPage.Completed)
    ensures ShowTrack(status) ==> TrackingPage.TrackingSteps(status)[3].state == TrackingPage.Upcoming
  {
  }

  /** One order card: the badge and whether the Track button is shown, with
      the picture of each line in the order's own order. */
  datatype OrderCard = OrderCard(
    order: Order,
    icon: StatusIcon,
    color: string,
    badgeText: string,
    track: bool,
    pictures: seq<string>)

  datatype OrdersScreen = NoOrdersYet | OrderCards(cards: seq<OrderCard>)

  function Pictures(items: seq<OrderItem>): (r: seq<string>)
    ensures |r| == |items| && forall k :: 0 <= k < |items| ==> r[k] == ItemImage(items[k].name)
  {
    if items == [] then [] else [ItemImage(items[0].name)] + Pictures(items[1..])
  }

  function Card(order: Order): OrderCard
  {
    OrderCard(order, IconFor(order.status), ColorFor(order.status), StatusLabel(order.status),
              ShowTrack(order.status), Pictures(order.items))
  }

  function Cards(orders: seq<Order>): (r: seq<OrderCard>)
    ensures |r| == |orders| && forall k :: 0 <= k < |orders| ==> r[k] == Card(orders[k])
  {
    if orders == [] then [] else [Card(orders[0])] + Cards(orders[1..])
  }

  /** An empty store shows 'No Orders Yet'; otherwise one card per order, in
      store order, so a just-placed order is the first card. */
  function Screen(orders: seq<Order>): (s: OrdersScreen)
    ensures s.NoOrdersYet? <==> orders == []
    ensures s.OrderCards? ==> |s.cards| == |orders|
    ensures s.OrderCards? ==> forall k :: 0 <= k < |orders| ==>
      s.cards[k].order == orders[k] && s.cards[k].track == ShowTrack(orders[k].status)
  {
    if |orders| == 0 then NoOrdersYet else OrderCards(Cards(orders))
  }

  /** After `addOrder` the page is never empty and the new order is first. */
  lemma PlacedOrderShownFirst(orders: seq<Order>, order: Order)
    ensures var s := Screen(AfterAddOrder(orders, order));
      s.OrderCards? && s.cards[0] == Card(order) && s.cards[1..] == Cards(orders)
  {
    var r := Cards(AfterAddOrder(orders, order));
    assert |r[1..]| == |Cards(orders)|;
    forall k | 0 <= k < |orders| ensures r[1..][k] == Cards(orders)[k] {
      assert AfterAddOrder(orders, order)[k + 1] == orders[k];
    }
  }
}
