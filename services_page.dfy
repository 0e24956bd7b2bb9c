/** The services page (src/pages/ServicesPage.tsx): the sample catalog, the
    per-item quantity picker (`quantities`, a dictionary updated one entry at
    a time) and the add-to-cart handler that feeds the cart store. */
module ServicesPage {
  import opened Common
  import opened CartContext

  /** A catalog item. Its description is display text and is not kept. */
  datatype LaundryItem = LaundryItem(id: int, name: string, price: real, unit: string, serviceId: int)

  /** A service listing. Its description, pricing blurb and icon are display text. */
  datatype Service = Service(id: int, name: string, items: seq<LaundryItem>)

  const SampleServices: seq<Service> := [
    Service(1, "Wash & Fold", WashAndFoldItems),
    Service(2, "Dry Cleaning", DryCleaningItems),
    Service(3, "Special Care", SpecialCareItems)
  ]

  const WashAndFoldItems: seq<LaundryItem> := [
    LaundryItem(101, "Regular Clothing", 2.50, "lb", 1),
    LaundryItem(102, "Delicate Items", 4.00, "lb", 1)
  ]

  const DryCleaningItems: seq<LaundryItem> := [
    LaundryItem(201, "Suits", 15.00, "item", 2),
    LaundryItem(202, "Dresses", 12.00, "item", 2),
    LaundryItem(203, "Silk Blouses", 8.00, "item", 2),
    LaundryItem(204, "Wool Sweaters", 9.00, "item", 2),
    LaundryItem(205, "Leather Jackets", 25.00, "item", 2),
    LaundryItem(206, "Wedding Dresses", 75.00, "item", 2),
    LaundryItem(207, "Fur Coats", 50.00, "item", 2),
    LaundryItem(208, "Cashmere Items", 12.00, "item", 2)
  ]

  const SpecialCareItems: seq<LaundryItem> := [
    LaundryItem(301, "Vintage Clothing", 20.00, "item", 3),
    LaundryItem(302, "Handmade Items", 15.00, "item", 3),
    LaundryItem(303, "Embellished Garments", 18.00, "item", 3),
    LaundryItem(304, "Lace Items", 12.00, "item", 3)
  ]

  /** The ids of all catalog items, service by service. */
  function ItemIds(services: seq<Service>): seq<int>
  {
    if services == [] then [] else IdsOf(services[0].items) + ItemIds(services[1..])
  }

  function IdsOf(items: seq<LaundryItem>): (r: seq<int>)
    ensures |r| == |items| && forall k :: 0 <= k < |items| ==> r[k] == items[k].id
  {
    if items == [] then [] else [items[0].id] + IdsOf(items[1..])
  }

  ghost predicate Ascending(s: seq<int>)
  {
    forall k :: 0 < k < |s| ==> s[k - 1] < s[k]
  }

  /** Adjacent ascent gives strict order between any two positions. */
  lemma {:induction false} AscendingIsStrict(s: seq<int>, i: nat, j: nat)
    requires Ascending(s) && i < j < |s|
    ensures s[i] < s[j]
    decreases j - i
  {
    if i + 1 < j {
      AscendingIsStrict(s, i + 1, j);
    }
  }

  /** Every item of a service names that service as its own. */
  ghost predicate ItemsPointHome(services: seq<Service>)
  {
    forall s, k :: 0 <= s < |services| && 0 <= k < |services[s].items| ==>
      services[s].items[k].serviceId == services[s].id
  }

  /** In the sample catalog item ids are pairwise distinct and each item's
      service id is the id of the service that lists it. */
  lemma SampleCatalogWellFormed()
    ensures var ids := ItemIds(SampleServices);
      forall i, j :: 0 <= i < j < |ids| ==> ids[i] != ids[j]
    ensures ItemsPointHome(SampleServices)
  {
    var ids := ItemIds(SampleServices);
    SampleIdsAscending();
    forall i, j | 0 <= i < j < |ids| ensures ids[i] != ids[j] {
      AscendingIsStrict(ids, i, j);
    }
    WashAndFoldPointsHome();
    DryCleaningPointsHome();
    SpecialCarePointsHome();
    forall s, k | 0 <= s < |SampleServices| && 0 <= k < |SampleServices[s].items|
      ensures SampleServices[s].items[k].serviceId == SampleServices[s].id
    {
      assert s == 0 || s == 1 || s == 2;
    }
  }

  /** The sample ids ascend: within each service, and from one service to the
      next. */
  lemma SampleIdsAscending()
    ensures Ascending(ItemIds(SampleServices))
  {
    ItemIdsOfThree(SampleServices[0], SampleServices[1], SampleServices[2]);
    var a, b, c := IdsOf(WashAndFoldItems), IdsOf(DryCleaningItems), IdsOf(SpecialCareItems);
    WashAndFoldIds();
    DryCleaningIds();
    SpecialCareIds();
    AscendingAppend(a, b);
    AscendingAppend(a + b, c);
  }

  lemma AscendingAppend(x: seq<int>, y: seq<int>)
    requires Ascending(x) && Ascending(y)
    requires x != [] && y != [] ==> x[|x| - 1] < y[0]
    ensures Ascending(x + y)
  {
    forall k | 0 < k < |x + y| ensures (x + y)[k - 1] < (x + y)[k] {
      if k < |x| {
        assert (x + y)[k - 1] == x[k - 1] && (x + y)[k] == x[k];
      } else if k == |x| {
        assert (x + y)[k - 1] == x[|x| - 1] && (x + y)[k] == y[0];
      } else {
        assert (x + y)[k - 1] == y[k - 1 - |x|] && (x + y)[k] == y[k - |x|];
      }
    }
  }

  lemma WashAndFoldPointsHome()
    ensures forall k :: 0 <= k < |WashAndFoldItems| ==> WashAndFoldItems[k].serviceId == 1
  {
  }

  lemma DryCleaningPointsHome()
    ensures forall k :: 0 <= k < |DryCleaningItems| ==> DryCleaningItems[k].serviceId == 2
  {
  }

  lemma SpecialCarePointsHome()
    ensures forall k :: 0 <= k < |SpecialCareItems| ==> SpecialCareItems[k].serviceId == 3
  {
  }

  /** Each service's ids ascend, and the ranges follow one another. */
  lemma WashAndFoldIds()
    ensures var ids := IdsOf(WashAndFoldItems); Ascending(ids) && |ids| == 2 && ids[1] == 102
  {
  }

  lemma DryCleaningIds()
    ensures var ids := IdsOf(DryCleaningItems);
      Ascending(ids) && |ids| == 8 && ids[0] == 201 && ids[7] == 208
  {
    var ids := IdsOf(DryCleaningItems);
    forall k | 0 < k < 8 ensures ids[k - 1] < ids[k] {
      assert ids[k - 1] == DryCleaningItems[k - 1].id && ids[k] == DryCleaningItems[k].id;
    }
  }

  lemma SpecialCareIds()
    ensures var ids := IdsOf(SpecialCareItems); Ascending(ids) && |ids| == 4 && ids[0] == 301
  {
  }

  lemma ItemIdsOfThree(a: Service, b: Service, c: Service)
    ensures ItemIds([a, b, c]) == IdsOf(a.items) + IdsOf(b.items) + IdsOf(c.items)
  {
    assert [a, b, c][1..] == [b, c];
    assert [b, c][1..] == [c];
    assert [c][1..] == [];
    assert ItemIds([c]) == IdsOf(c.items);
    assert ItemIds([b, c]) == IdsOf(b.items) + IdsOf(c.items);
  }

  /** `quantities[id] || 1`: what the picker shows and what add-to-cart uses;
      an id never touched shows one. */
  function Shown(quantities: map<int, int>, id: int): (r: int)
    ensures id !in quantities ==> r == 1
    ensures id in quantities && quantities[id] != 0 ==> r == quantities[id]
    ensures r != 0
  {
    if id in quantities && quantities[id] != 0 then quantities[id] else 1
  }

  /** The dictionary after `handleQuantityChange(id, change)`. */
  function AfterChange(quantities: map<int, int>, id: int, change: int): map<int, int>
  {
    quantities[id := AtLeastOne(Shown(quantities, id) + change)]
  }

  /** The changed entry is stored and shown as `max(1, shown + change)`:
      `shown + change` when that is at least one, and 1 below that; every
      other entry is unchanged. */
  lemma ChangeClampsOneEntry(quantities: map<int, int>, id: int, change: int)
    ensures var q := AfterChange(quantities, id, change);
      id in q && q[id] >= 1 && Shown(q, id) == q[id] &&
      (Shown(quantities, id) + change >= 1 ==> q[id] == Shown(quantities, id) + change) &&
      (Shown(quantities, id) + change < 1 ==> q[id] == 1) &&
      q.Keys == quantities.Keys + {id} &&
      forall other :: other in quantities && other != id ==> q[other] == quantities[other]
  {
  }

  /** Pressing minus on an untouched item stores one; pressing plus stores two. */
  lemma FirstPresses(quantities: map<int, int>, id: int)
    requires id !in quantities
    ensures AfterChange(quantities, id, -1)[id] == 1
    ensures AfterChange(quantities, id, 1)[id] == 2
  {
  }

  /** The line `handleAddToCart` hands to `addItem`. */
  function LineFor(item: LaundryItem, quantity: int): CartItem
  {
    CartItem(item.id, item.name, item.price, item.unit, item.serviceId, Some(quantity))
  }

  /** An item not yet in the cart is appended with the picker's shown
      quantity and its own id, name, price, unit and service id; an item
      already there grows by that quantity. */
  lemma AddToCartEffect(items: seq<CartItem>, quantities: map<int, int>, item: LaundryItem)
    ensures var r := AfterAdd(items, LineFor(item, Shown(quantities, item.id)));
      (!HasId(items, item.id) ==>
        |r| == |items| + 1 && r[..|items|] == items &&
        r[|items|] == CartItem(item.id, item.name, item.price, item.unit, item.serviceId,
                               Some(Shown(quantities, item.id)))) &&
      (HasId(items, item.id) ==>
        |r| == |items| &&
        forall k :: 0 <= k < |items| && items[k].itemId == item.id ==>
          r[k].quantity == Some(Eff(items[k].quantity) + Shown(quantities, item.id)))
  {
    var shown := Shown(quantities, item.id);
    var line := LineFor(item, shown);
    assert line.itemId == item.id && Eff(line.quantity) == shown;
    var r := AfterAdd(items, line);
    if !HasId(items, item.id) {
      assert r == items + [line];
      assert r[..|items|] == items;
    }
  }

  /** The `quantities` state of the page. */
  class QuantityPicker {
    var quantities: map<int, int>

    /** Every stored entry is at least one. */
    ghost predicate Valid()
      reads this
    {
      forall id :: id in quantities ==> quantities[id] >= 1
    }

    constructor ()
      ensures quantities == map[] && Valid()
    {
      quantities := map[];
    }

    method HandleQuantityChange(id: int, change: int)
      modifies this
      ensures quantities == AfterChange(old(quantities), id, change)
      ensures old(Valid()) ==> Valid()
    {
      quantities := quantities[id := AtLeastOne(Shown(quantities, id) + change)];
    }
  }

  /** `handleAddToCart(item)`: one `addItem` call with the shown quantity. */
  method HandleAddToCart(picker: QuantityPicker, cart: CartStore, item: LaundryItem)
    modifies cart
    ensures cart.items == AfterAdd(old(cart.items), LineFor(item, Shown(picker.quantities, item.id)))
  {
    var quantity := Shown(picker.quantities, item.id);
    cart.AddItem(LineFor(item, quantity));
  }
}
