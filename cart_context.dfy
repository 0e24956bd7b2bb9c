/** The cart store (`CartProvider` in src/context/CartContext.tsx): an ordered
    sequence of lines keyed by item id, replaced wholesale by each of
    `addItem`, `removeItem`, `updateQuantity` and `clearCart`. The new
    sequences are the pure functions AfterAdd, AfterRemove and AfterUpdate;
    the class CartStore holds the `items` state and applies them. */
module CartContext {
  import opened Common

  /** Item ids are only ever compared with `===`. */
  type ItemId = int

  /** A cart line. `quantity` is optional and stored exactly as given. */
  datatype CartItem = CartItem(
    itemId: ItemId,
    name: string,
    price: real,
    unit: string,
    serviceId: int,
    quantity: Option<int>)

  /** `quantity || 1`, the reading of the merge, the checkout and the navbar:
      a missing quantity and a stored 0 both count as one. */
  function Eff(q: Option<int>): (r: int)
    ensures r != 0
    ensures q.Some? && q.value != 0 ==> r == q.value
    ensures q.None? || q.value == 0 ==> r == 1
  {
    if q.Some? && q.value != 0 then q.value else 1
  }

  /** `quantity ?? 0`, the reading of the cart page's subtotal: only a missing
      quantity is replaced, and by zero. */
  function OrZero(q: Option<int>): (r: int)
    ensures q.Some? ==> r == q.value
    ensures q.None? ==> r == 0
  {
    if q.Some? then q.value else 0
  }

  ghost predicate HasId(items: seq<CartItem>, id: ItemId)
  {
    exists k :: 0 <= k < |items| && items[k].itemId == id
  }

  /** No two lines share an item id. */
  ghost predicate DistinctIds(items: seq<CartItem>)
  {
    forall j, k :: 0 <= j < k < |items| ==> items[j].itemId != items[k].itemId
  }

  /** The position of the first line with that id, or `|items|` if none. */
  function FirstWithId(items: seq<CartItem>, id: ItemId): (k: nat)
    ensures k <= |items|
    ensures forall j :: 0 <= j < k ==> items[j].itemId != id
    ensures k < |items| ==> items[k].itemId == id
  {
    if items == [] then 0
    else if items[0].itemId == id then 0
    else 1 + FirstWithId(items[1..], id)
  }

  /** `items.find(i => i.itemId === id)`: the first line with that id. */
  function Find(items: seq<CartItem>, id: ItemId): (r: Option<CartItem>)
    ensures r.None? <==> !HasId(items, id)
    ensures r.Some? ==> r.value in items && r.value.itemId == id
  {
    if items == [] then None
    else if items[0].itemId == id then Some(items[0])
    else
      var r := Find(items[1..], id);
      assert HasId(items[1..], id) ==> HasId(items, id) by {
        if HasId(items[1..], id) {
          var k :| 0 <= k < |items[1..]| && items[1..][k].itemId == id;
          assert items[k + 1].itemId == id;
        }
      }
      r
  }

  /** `find` returns the first line with the id: the one at `FirstWithId`. */
  lemma {:induction false} FindIsFirst(items: seq<CartItem>, id: ItemId)
    ensures Find(items, id).Some? <==> FirstWithId(items, id) < |items|
    ensures Find(items, id).Some? ==> Find(items, id).value == items[FirstWithId(items, id)]
  {
    if items != [] && items[0].itemId != id {
      FindIsFirst(items[1..], id);
    }
  }

  /** The line `{ ...i, quantity: (i.quantity || 1) + (item.quantity || 1) }`
      when the ids match, the line itself otherwise. */
  function MergeLine(line: CartItem, item: CartItem): CartItem
  {
    if line.itemId == item.itemId
    then line.(quantity := Some(Eff(line.quantity) + Eff(item.quantity)))
    else line
  }

  /** The `prevItems.map(...)` of a merging `addItem`. */
  function Merge(items: seq<CartItem>, item: CartItem): (r: seq<CartItem>)
    ensures |r| == |items|
    ensures forall k :: 0 <= k < |items| ==> r[k] == MergeLine(items[k], item)
  {
    if items == [] then [] else [MergeLine(items[0], item)] + Merge(items[1..], item)
  }

  /** The cart after `addItem(item)`. A new id is appended exactly as given;
      a repeated id keeps the length and order and only that line's quantity
      changes, to the sum of the two `|| 1` readings; the existing line keeps
      its own name, price, unit and service id. */
  function AfterAdd(items: seq<CartItem>, item: CartItem): (r: seq<CartItem>)
    ensures !HasId(items, item.itemId) ==> r == items + [item]
    ensures HasId(items, item.itemId) ==>
      |r| == |items| &&
      forall k :: 0 <= k < |items| ==>
        r[k].itemId == items[k].itemId && r[k].name == items[k].name &&
        r[k].price == items[k].price && r[k].unit == items[k].unit &&
        r[k].serviceId == items[k].serviceId &&
        r[k].quantity == (if items[k].itemId == item.itemId
                          then Some(Eff(items[k].quantity) + Eff(item.quantity))
                          else items[k].quantity)
  {
    if Find(items, item.itemId).Some? then Merge(items, item) else items + [item]
  }

  /** The cart after `removeItem(id)`: `prevItems.filter(i => i.itemId !== id)`. */
  function AfterRemove(items: seq<CartItem>, id: ItemId): (r: seq<CartItem>)
    ensures |r| <= |items|
    ensures forall k :: 0 <= k < |r| ==> r[k].itemId != id
  {
    if items == [] then []
    else
      var rest := AfterRemove(items[1..], id);
      if items[0].itemId == id then rest else [items[0]] + rest
  }

  /** A removal keeps every line with another id exactly as often as it
      occurred, and no line with the removed id. */
  lemma {:induction false} RemoveKeepsOthers(items: seq<CartItem>, id: ItemId)
    ensures forall x: CartItem :: x.itemId != id ==>
      multiset(AfterRemove(items, id))[x] == multiset(items)[x]
    ensures forall x: CartItem :: x.itemId == id ==> multiset(AfterRemove(items, id))[x] == 0
  {
    if items != [] {
      RemoveKeepsOthers(items[1..], id);
      assert items == [items[0]] + items[1..];
    }
  }

  /** The cart after `updateQuantity(id, q)`: every line with that id gets
      quantity `q` verbatim (no clamping), every other line is unchanged. */
  function AfterUpdate(items: seq<CartItem>, id: ItemId, q: int): (r: seq<CartItem>)
    ensures |r| == |items|
    ensures forall k :: 0 <= k < |items| ==>
      r[k] == if items[k].itemId == id then items[k].(quantity := Some(q)) else items[k]
  {
    if items == [] then []
    else
      [if items[0].itemId == id then items[0].(quantity := Some(q)) else items[0]]
      + AfterUpdate(items[1..], id, q)
  }

  /** Adding, removing and updating keep the ids of the lines pairwise distinct. */
  lemma AddKeepsDistinct(items: seq<CartItem>, item: CartItem)
    requires DistinctIds(items)
    ensures DistinctIds(AfterAdd(items, item))
  {
    var r := AfterAdd(items, item);
    if !HasId(items, item.itemId) {
      forall j, k | 0 <= j < k < |r| ensures r[j].itemId != r[k].itemId {
        if k == |items| {
          assert r[j] == items[j];
        }
      }
    }
  }

  /** Removal keeps ids pairwise distinct, since it only drops lines. */
  lemma {:induction false} RemoveKeepsDistinct(items: seq<CartItem>, id: ItemId)
    requires DistinctIds(items)
    ensures DistinctIds(AfterRemove(items, id))
  {
    if items != [] {
      RemoveKeepsDistinct(items[1..], id);
      RemoveIsSubsequence(items[1..], id);
      var rest := AfterRemove(items[1..], id);
      if items[0].itemId != id {
        var r := [items[0]] + rest;
        forall j, k | 0 <= j < k < |r| ensures r[j].itemId != r[k].itemId {
          if j == 0 {
            assert r[k] in rest;
            assert r[k] in items[1..];
          } else {
            assert r[j] == rest[j - 1] && r[k] == rest[k - 1];
          }
        }
      }
    }
  }

  /** Every line that survives a removal is a line of the original cart,
      whatever the cart holds. */
  lemma {:induction false} RemoveIsSubsequence(items: seq<CartItem>, id: ItemId)
    ensures forall x: CartItem :: x in AfterRemove(items, id) ==> x in items
  {
    if items != [] {
      RemoveIsSubsequence(items[1..], id);
      assert items == [items[0]] + items[1..];
    }
  }

  lemma UpdateKeepsDistinct(items: seq<CartItem>, id: ItemId, q: int)
    requires DistinctIds(items)
    ensures DistinctIds(AfterUpdate(items, id, q))
  {
  }

  /** `filter` works line by line: removing from a concatenation removes from
      each part, so the surviving lines keep their relative order. */
  lemma {:induction false} RemoveDistributes(a: seq<CartItem>, b: seq<CartItem>, id: ItemId)
    ensures AfterRemove(a + b, id) == AfterRemove(a, id) + AfterRemove(b, id)
  {
    if a != [] {
      RemoveDistributes(a[1..], b, id);
      assert (a + b)[0] == a[0];
      assert (a + b)[1..] == a[1..] + b;
    } else {
      assert a + b == b;
    }
  }

  /** Removing an id no line carries is a no-op. */
  lemma {:induction false} RemoveAbsent(items: seq<CartItem>, id: ItemId)
    requires !HasId(items, id)
    ensures AfterRemove(items, id) == items
  {
    if items != [] {
      assert !HasId(items[1..], id) by {
        forall k | 0 <= k < |items[1..]| ensures items[1..][k].itemId != id {
          assert items[1..][k] == items[k + 1];
        }
      }
      RemoveAbsent(items[1..], id);
      assert items == [items[0]] + items[1..];
    }
  }

  /** Removing twice is removing once. */
  lemma RemoveIdempotent(items: seq<CartItem>, id: ItemId)
    ensures AfterRemove(AfterRemove(items, id), id) == AfterRemove(items, id)
  {
    RemoveAbsent(AfterRemove(items, id), id);
  }

  /** Updating an id no line carries is a no-op. */
  lemma UpdateAbsent(items: seq<CartItem>, id: ItemId, q: int)
    requires !HasId(items, id)
    ensures AfterUpdate(items, id, q) == items
  {
  }

  /** `addItem` called `n` times with one item whose id is not yet in the cart. */
  function AddRepeatedly(items: seq<CartItem>, item: CartItem, n: nat): seq<CartItem>
  {
    if n == 0 then items else AfterAdd(AddRepeatedly(items, item, n - 1), item)
  }

  /** Adding an item whose id only the last line carries merges into that line. */
  lemma AddToLast(items: seq<CartItem>, line: CartItem, item: CartItem)
    requires !HasId(items, item.itemId) && line.itemId == item.itemId
    ensures AfterAdd(items + [line], item) == items + [MergeLine(line, item)]
  {
    var p := items + [line];
    assert HasId(p, item.itemId) by { assert p[|items|] == line; }
    var r := AfterAdd(p, item);
    assert r == Merge(p, item);
    forall k | 0 <= k < |p| ensures r[k] == (items + [MergeLine(line, item)])[k] {
      if k < |items| {
        assert p[k] == items[k];
      }
    }
  }

  /** `n` additions of one new id give exactly one new line, at the end, and
      its `|| 1` quantity is `n` times that of the added item (so `n` when the
      item carries no quantity); the earlier lines are untouched. */
  lemma {:induction false} RepeatedAddMerges(items: seq<CartItem>, item: CartItem, n: nat)
    requires n >= 1
    requires !HasId(items, item.itemId)
    ensures var r := AddRepeatedly(items, item, n);
      |r| == |items| + 1 && r[..|items|] == items &&
      r[|items|].itemId == item.itemId && r[|items|].name == item.name &&
      r[|items|].price == item.price &&
      Eff(r[|items|].quantity) == n * Eff(item.quantity)
  {
    if n > 1 {
      RepeatedAddMerges(items, item, n - 1);
      OneMoreAdd(items, AddRepeatedly(items, item, n - 1), item, n - 1);
    } else {
      assert AddRepeatedly(items, item, 1) == items + [item];
    }
  }

  /** One more addition to a cart holding `m` merged additions of `item` in
      its last line makes that line worth `m + 1` of them. */
  lemma OneMoreAdd(items: seq<CartItem>, p: seq<CartItem>, item: CartItem, m: nat)
    requires m >= 1 && !HasId(items, item.itemId)
    requires |p| == |items| + 1 && p[..|items|] == items
    requires p[|items|].itemId == item.itemId && p[|items|].name == item.name && p[|items|].price == item.price
    requires Eff(p[|items|].quantity) == m * Eff(item.quantity)
    ensures var r := AfterAdd(p, item);
      |r| == |items| + 1 && r[..|items|] == items &&
      r[|items|].itemId == item.itemId && r[|items|].name == item.name &&
      r[|items|].price == item.price &&
      Eff(r[|items|].quantity) == (m + 1) * Eff(item.quantity)
  {
    var line := p[|items|];
    var merged := MergeLine(line, item);
    assert merged.itemId == item.itemId && merged.name == item.name && merged.price == item.price &&
           Eff(merged.quantity) == (m + 1) * Eff(item.quantity) by {
      MergeScalesQuantity(line, item, m);
    }
    LastLineFacts(items, merged, item, m + 1);
    assert AfterAdd(p, item) == items + [merged] by {
      assert p == items + [line];
      AddToLast(items, line, item);
    }
  }

  lemma LastLineFacts(items: seq<CartItem>, last: CartItem, item: CartItem, n: nat)
    requires last.itemId == item.itemId && last.name == item.name && last.price == item.price
    requires Eff(last.quantity) == n * Eff(item.quantity)
    ensures var r := items + [last];
      |r| == |items| + 1 && r[..|items|] == items &&
      r[|items|].itemId == item.itemId && r[|items|].name == item.name &&
      r[|items|].price == item.price &&
      Eff(r[|items|].quantity) == n * Eff(item.quantity)
  {
    assert (items + [last])[..|items|] == items;
  }

  /** Merging into a line worth `m` additions gives a line worth `m + 1`. */
  lemma MergeScalesQuantity(line: CartItem, item: CartItem, m: nat)
    requires m >= 1 && line.itemId == item.itemId && Eff(line.quantity) == m * Eff(item.quantity)
    ensures var merged := MergeLine(line, item);
      merged.itemId == line.itemId && merged.name == line.name && merged.price == line.price &&
      Eff(merged.quantity) == (m + 1) * Eff(item.quantity)
  {
    NonzeroMultiple(m + 1, Eff(item.quantity));
  }

  lemma NonzeroMultiple(n: int, e: int)
    requires n >= 1 && e != 0
    ensures (n - 1) * e + e == n * e && n * e != 0
  {
    if e > 0 { assert n * e >= e; } else { assert n * e <= e; }
  }

  /** The store itself: the `items` state of `CartProvider`. */
  class CartStore {
    var items: seq<CartItem>

    /** `useState<CartItem[]>([])`: the cart starts empty. */
    constructor ()
      ensures items == []
    {
      items := [];
    }

    method AddItem(item: CartItem)
      modifies this
      ensures items == AfterAdd(old(items), item)
      ensures DistinctIds(old(items)) ==> DistinctIds(items)
    {
      if DistinctIds(items) {
        AddKeepsDistinct(items, item);
      }
      items := AfterAdd(items, item);
    }

    method RemoveItem(id: ItemId)
      modifies this
      ensures items == AfterRemove(old(items), id)
      ensures DistinctIds(old(items)) ==> DistinctIds(items)
    {
      if DistinctIds(items) {
        RemoveKeepsDistinct(items, id);
      }
      items := AfterRemove(items, id);
    }

    method UpdateQuantity(id: ItemId, q: int)
      modifies this
      ensures items == AfterUpdate(old(items), id, q)
      ensures DistinctIds(old(items)) ==> DistinctIds(items)
    {
      items := AfterUpdate(items, id, q);
    }

    method ClearCart()
      modifies this
      ensures items == []
    {
      items := [];
    }
  }
}
