/** The navigation bar (src/components/Navbar.tsx): the cart badge count,
    the active-link test and the mobile menu flag. */
module Navbar {
  import opened Common
  import opened CartContext

  /** `items.reduce((sum, item) => sum + (item.quantity || 1), 0)`. */
  function CartItemCount(items: seq<CartItem>): int
  {
    if items == [] then 0 else Eff(items[0].quantity) + CartItemCount(items[1..])
  }

  /** `cartItemCount > 0 && <Badge …>`. */
  function ShowBadge(items: seq<CartItem>): bool
  {
    CartItemCount(items) > 0
  }

  /** Every line counts at least one unless a negative quantity was stored,
      so with no negative quantity the count is at least the number of
      lines, and the badge shows exactly when the cart is not empty. */
  lemma {:induction false} CountCoversLines(items: seq<CartItem>)
    requires forall k :: 0 <= k < |items| ==> items[k].quantity.None? || items[k].quantity.value >= 0
    ensures CartItemCount(items) >= |items|
    ensures ShowBadge(items) <==> items != []
  {
    if items != [] {
      CountCoversLines(items[1..]);
    }
  }

  /** An empty cart counts zero and shows no badge. */
  lemma EmptyCartNoBadge()
    ensures CartItemCount([]) == 0 && !ShowBadge([])
  {
  }

  /** Adding an item raises the count by that item's `|| 1` quantity, when
      ids are distinct and no quantity involved is negative (a merge whose
      sum is 0 would be read back as 1). */
  lemma AddRaisesCount(items: seq<CartItem>, item: CartItem)
    requires DistinctIds(items)
    requires forall k :: 0 <= k < |items| ==> items[k].quantity.None? || items[k].quantity.value >= 0
    requires item.quantity.None? || item.quantity.value >= 0
    ensures CartItemCount(AfterAdd(items, item)) == CartItemCount(items) + Eff(item.quantity)
  {
    if !HasId(items, item.itemId) {
      AddNewCounts(items, item);
    } else {
      var k :| 0 <= k < |items| && items[k].itemId == item.itemId;
      AddMergedCounts(items, item, k);
    }
  }

  lemma AddNewCounts(items: seq<CartItem>, item: CartItem)
    requires !HasId(items, item.itemId)
    ensures CartItemCount(AfterAdd(items, item)) == CartItemCount(items) + Eff(item.quantity)
  {
    CountAppend(items, [item]);
    assert CartItemCount([item]) == Eff(item.quantity) by {
      assert [item][1..] == [];
    }
  }

  lemma AddMergedCounts(items: seq<CartItem>, item: CartItem, k: nat)
    requires DistinctIds(items) && k < |items| && items[k].itemId == item.itemId
    requires items[k].quantity.None? || items[k].quantity.value >= 0
    requires item.quantity.None? || item.quantity.value >= 0
    ensures CartItemCount(AfterAdd(items, item)) == CartItemCount(items) + Eff(item.quantity)
  {
    assert HasId(items, item.itemId);
    assert AfterAdd(items, item) == Merge(items, item);
    CountUnchangedElsewhere(items, item, k);
    var sum := Eff(items[k].quantity) + Eff(item.quantity);
    assert sum >= 2;
    assert Eff(MergeLine(items[k], item).quantity) == sum;
  }

  lemma {:induction false} CountAppend(a: seq<CartItem>, b: seq<CartItem>)
    ensures CartItemCount(a + b) == CartItemCount(a) + CartItemCount(b)
  {
    if a == [] {
      assert a + b == b;
    } else {
      CountAppend(a[1..], b);
      assert (a + b)[1..] == a[1..] + b;
    }
  }

  /** The merge of a distinct-id cart changes the count only through the
      one line with the added id. */
  lemma {:induction false} CountUnchangedElsewhere(items: seq<CartItem>, item: CartItem, k: nat)
    requires DistinctIds(items) && k < |items| && items[k].itemId == item.itemId
    ensures CartItemCount(Merge(items, item))
         == CartItemCount(items) - Eff(items[k].quantity) + Eff(MergeLine(items[k], item).quantity)
  {
    if k > 0 {
      assert Merge(items, item)[1..] == Merge(items[1..], item);
      assert items[0].itemId != item.itemId;
      CountUnchangedElsewhere(items[1..], item, k - 1);
    } else {
      NoMatchMergeIsIdentity(items[1..], item);
      assert Merge(items, item)[1..] == Merge(items[1..], item);
    }
  }

  lemma NoMatchMergeIsIdentity(items: seq<CartItem>, item: CartItem)
    requires forall j :: 0 <= j < |items| ==> items[j].itemId != item.itemId
    ensures Merge(items, item) == items
  {
    assert forall j :: 0 <= j < |items| ==> Merge(items, item)[j] == items[j];
  }

  datatype NavItem = NavItem(path: string, caption: string)

  const NavItems: seq<NavItem> := [NavItem("/", "Home"), NavItem("/services", "Services"), NavItem("/orders", "Orders")]

  /** `location.pathname === path`: an exact comparison, no prefix match. */
  function IsActive(pathname: string, path: string): bool
  {
    pathname == path
  }

  /** At most one navigation link is highlighted, and '/services/x' lights
      none of them. */
  lemma AtMostOneActive(pathname: string)
    ensures forall j, k :: 0 <= j < k < |NavItems| ==>
      !(IsActive(pathname, NavItems[j].path) && IsActive(pathname, NavItems[k].path))
    ensures forall k :: 0 <= k < |NavItems| ==> !IsActive("/services/1", NavItems[k].path)
  {
  }

  /** The `isMenuOpen` state of the bar. */
  class Menu {
    var isMenuOpen: bool

    constructor ()
      ensures !isMenuOpen
    {
      isMenuOpen := false;
    }

    /** The menu button: `setIsMenuOpen(!isMenuOpen)`. */
    method Toggle()
      modifies this
      ensures isMenuOpen == !old(isMenuOpen)
    {
      isMenuOpen := !isMenuOpen;
    }

    /** A click on a mobile link: `setIsMenuOpen(false)`. */
    method LinkClicked()
      modifies this
      ensures !isMenuOpen
    {
      isMenuOpen := false;
    }
  }
}
