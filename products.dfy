/** The products page (src/pages/Products.tsx): the category tabs, built by
    deduplicating the products' categories in first-appearance order, and
    the per-tab filter of the product list. */
module Products {
  import opened Common

  /** A catalog product. Its description is display text and is not kept. */
  datatype Product = Product(id: string, name: string, price: real, category: string, subcategory: Option<string>)

  /** `useState("Casuals")`. */
  const InitialSelectedCategory := "Casuals"

  /** `products.map((product) => product.category)`. */
  function CategoryList(products: seq<Product>): (r: seq<string>)
    ensures |r| == |products| && forall k :: 0 <= k < |products| ==> r[k] == products[k].category
  {
    if products == [] then [] else CategoryList(products[..|products| - 1]) + [products[|products| - 1].category]
  }

  /** `Array.from(new Set(list))`: each value kept where it first appears. */
  function Dedupe(list: seq<string>): (r: seq<string>)
    ensures forall x :: x in r <==> x in list
    ensures forall i, j :: 0 <= i < j < |r| ==> r[i] != r[j]
  {
    if list == [] then []
    else
      var d := Dedupe(list[..|list| - 1]);
      var x := list[|list| - 1];
      assert forall y :: y in list <==> y in list[..|list| - 1] || y == x by {
        assert list == list[..|list| - 1] + [x];
      }
      if x in d then d else d + [x]
  }

  function Categories(products: seq<Product>): seq<string>
  {
    Dedupe(CategoryList(products))
  }

  /** The position of the first occurrence of `x` in `list`. */
  function FirstIndex(list: seq<string>, x: string): (k: nat)
    requires x in list
    ensures k < |list| && list[k] == x && forall j :: 0 <= j < k ==> list[j] != x
  {
    if list[0] == x then 0 else 1 + FirstIndex(list[1..], x)
  }

  /** The tabs come in the order in which their categories first appear in
      the product list. */
  lemma {:induction false} DedupeKeepsFirstAppearanceOrder(list: seq<string>)
    ensures InFirstAppearanceOrder(list, Dedupe(list))
  {
    if list != [] {
      var p := list[..|list| - 1];
      var x := list[|list| - 1];
      var d := Dedupe(p);
      assert list == p + [x];
      DedupeKeepsFirstAppearanceOrder(p);
      assert InFirstAppearanceOrder(p, d);
      forall y | y in p ensures FirstIndex(list, y) == FirstIndex(p, y) {
        FirstIndexOfPrefix(list, |list| - 1, y);
      }
      if x !in d {
        assert x !in p;
        FirstIndexOfNew(list, x);
        var r := d + [x];
        forall i, j | 0 <= i < j < |r| ensures FirstIndex(list, r[i]) < FirstIndex(list, r[j]) {
          if j == |d| {
            assert r[i] == d[i] && r[i] in p && r[j] == x;
            assert FirstIndex(list, r[i]) == FirstIndex(p, r[i]) < |p|;
          } else {
            assert r[i] == d[i] && r[j] == d[j];
            assert FirstIndex(list, r[i]) == FirstIndex(p, d[i]);
            assert FirstIndex(list, r[j]) == FirstIndex(p, d[j]);
            assert FirstIndex(p, d[i]) < FirstIndex(p, d[j]);
          }
        }
      }
    }
  }

  /** `r` lists values of `list` in the order of their first occurrences. */
  ghost predicate InFirstAppearanceOrder(list: seq<string>, r: seq<string>)
  {
    (forall y :: y in r ==> y in list) &&
    forall i, j :: 0 <= i < j < |r| ==> FirstIndex(list, r[i]) < FirstIndex(list, r[j])
  }

  lemma FirstIndexOfPrefix(list: seq<string>, n: nat, y: string)
    requires n <= |list| && y in list[..n]
    ensures FirstIndex(list, y) == FirstIndex(list[..n], y)
  {
    var k := FirstIndex(list[..n], y);
    assert list[k] == y;
  }

  lemma FirstIndexOfNew(list: seq<string>, x: string)
    requires list != [] && list[|list| - 1] == x && x !in list[..|list| - 1]
    ensures FirstIndex(list, x) == |list| - 1
  {
    assert list[|list| - 1] == x;
  }

  /** Every tab belongs to some product, every product's category has a tab,
      and no tab appears twice. */
  lemma CategoriesAreTheProductCategories(products: seq<Product>)
    ensures var c := Categories(products);
      (forall i, j :: 0 <= i < j < |c| ==> c[i] != c[j]) &&
      (forall k :: 0 <= k < |products| ==> products[k].category in c) &&
      (forall x :: x in c ==> exists k :: 0 <= k < |products| && products[k].category == x)
  {
    var list := CategoryList(products);
    forall x | x in Categories(products) ensures exists k :: 0 <= k < |products| && products[k].category == x {
      var k := FirstIndex(list, x);
      assert products[k].category == x;
    }
    forall k | 0 <= k < |products| ensures products[k].category in Categories(products) {
      assert list[k] == products[k].category;
    }
  }

  /** `products.filter((product) => product.category === category)`. */
  function Filtered(products: seq<Product>, category: string): (r: seq<Product>)
    ensures |r| <= |products|
    ensures forall k :: 0 <= k < |r| ==> r[k].category == category
  {
    if products == [] then []
    else (if products[0].category == category then [products[0]] else []) + Filtered(products[1..], category)
  }

  /** The filter keeps exactly the products of that category. */
  lemma {:induction false} FilteredMembers(products: seq<Product>, category: string)
    ensures forall p :: p in Filtered(products, category) <==> p in products && p.category == category
  {
    if products != [] {
      FilteredMembers(products[1..], category);
      assert products == [products[0]] + products[1..];
    }
  }

  /** The filter works line by line, so it keeps the original order: it
      distributes over concatenation. */
  lemma {:induction false} FilteredAppend(a: seq<Product>, b: seq<Product>, category: string)
    ensures Filtered(a + b, category) == Filtered(a, category) + Filtered(b, category)
  {
    if a == [] {
      assert a + b == b;
    } else {
      var head := if a[0].category == category then [a[0]] else [];
      assert (a + b)[0] == a[0];
      assert (a + b)[1..] == a[1..] + b;
      calc {
        Filtered(a + b, category);
        head + Filtered(a[1..] + b, category);
        { FilteredAppend(a[1..], b, category); }
        head + (Filtered(a[1..], category) + Filtered(b, category));
        (head + Filtered(a[1..], category)) + Filtered(b, category);
        Filtered(a, category) + Filtered(b, category);
      }
    }
  }

  /** The number of products shown over all the tabs `cats`. */
  function TabTotal(products: seq<Product>, cats: seq<string>): nat
  {
    if cats == [] then 0 else |Filtered(products, cats[0])| + TabTotal(products, cats[1..])
  }

  /** Every product lies under exactly one tab: its own category's tab lists
      it, no other tab does, and the tabs together list as many products as
      there are. */
  lemma EachProductUnderOneTab(products: seq<Product>, k: nat)
    requires k < |products|
    ensures var c := Categories(products); var p := products[k];
      p.category in c &&
      forall x :: x in c ==> (p in Filtered(products, x) <==> x == p.category)
  {
    CategoriesAreTheProductCategories(products);
    var p := products[k];
    forall x | x in Categories(products) ensures p in Filtered(products, x) <==> x == p.category {
      FilteredMembers(products, x);
    }
  }

  lemma TabsCoverProducts(products: seq<Product>)
    ensures TabTotal(products, Categories(products)) == |products|
  {
    CategoriesAreTheProductCategories(products);
    TabsCount(products, Categories(products));
  }

  /** With distinct tabs that cover every category, each product is counted
      once over the tabs. */
  lemma {:induction false} TabsCount(products: seq<Product>, cats: seq<string>)
    requires forall i, j :: 0 <= i < j < |cats| ==> cats[i] != cats[j]
    requires forall k :: 0 <= k < |products| ==> products[k].category in cats
    ensures TabTotal(products, cats) == |products|
  {
    if products == [] {
      NoProductsNoTabs(cats);
    } else {
      var p := products[0];
      TabsCount(products[1..], cats);
      TabTotalSplit(products, cats);
      assert p.category in cats;
      OneTabMatches(cats, p.category);
      assert TabTotal(products[1..], cats) == |products| - 1;
      assert Matches(cats, p.category) == 1;
    }
  }

  lemma {:induction false} NoProductsNoTabs(cats: seq<string>)
    ensures TabTotal([], cats) == 0
  {
    if cats != [] {
      NoProductsNoTabs(cats[1..]);
    }
  }

  /** Adding the first product to each tab's filter adds one per tab that
      matches its category. */
  lemma {:induction false} TabTotalSplit(products: seq<Product>, cats: seq<string>)
    requires products != []
    ensures TabTotal(products, cats) == Matches(cats, products[0].category) + TabTotal(products[1..], cats)
  {
    if cats != [] {
      TabTotalSplit(products, cats[1..]);
    }
  }

  /** How many entries of `cats` equal `c`. */
  function Matches(cats: seq<string>, c: string): nat
  {
    if cats == [] then 0 else (if cats[0] == c then 1 else 0) + Matches(cats[1..], c)
  }

  lemma {:induction false} OneTabMatches(cats: seq<string>, c: string)
    requires forall i, j :: 0 <= i < j < |cats| ==> cats[i] != cats[j]
    requires c in cats
    ensures Matches(cats, c) == 1
  {
    if cats[0] == c {
      NoTabMatches(cats[1..], c);
    } else {
      OneTabMatches(cats[1..], c);
    }
  }

  lemma {:induction false} NoTabMatches(cats: seq<string>, c: string)
    requires c !in cats
    ensures Matches(cats, c) == 0
  {
    if cats != [] {
      NoTabMatches(cats[1..], c);
    }
  }

  /** The tab content on screen while `selected` is the active tab value: the
      products of that category, or nothing when no tab has that value. The
      tabs start on `selectedCategory` (`defaultValue`) and a click on a tab
      both activates it and stores its category, so the active tab value is
      always `selectedCategory`. */
  function ShownTab(products: seq<Product>, selected: string): (r: Option<seq<Product>>)
    ensures r.Some? <==> exists k :: 0 <= k < |products| && products[k].category == selected
    ensures r.Some? ==> r.value != [] && forall p :: p in r.value <==> p in products && p.category == selected
  {
    CategoriesAreTheProductCategories(products);
    FilteredMembers(products, selected);
    if selected in Categories(products) then
      var k :| 0 <= k < |products| && products[k].category == selected;
      assert products[k] in Filtered(products, selected);
      Some(Filtered(products, selected))
    else None
  }

  /** The unused `filteredProducts` lists exactly what the active tab shows,
      whenever a tab is active. */
  lemma FilteredProductsIsShownTab(products: seq<Product>, selected: string)
    requires exists k :: 0 <= k < |products| && products[k].category == selected
    ensures ShownTab(products, selected) == Some(Filtered(products, selected))
  {
    CategoriesAreTheProductCategories(products);
  }

  /** The first tab shown is 'Casuals' when some product has that category;
      with none, no tab content is shown at first, even though tabs exist. */
  lemma FirstShownTab(products: seq<Product>)
    ensures (exists k :: 0 <= k < |products| && products[k].category == InitialSelectedCategory) ==>
      ShownTab(products, InitialSelectedCategory) == Some(Filtered(products, "Casuals"))
    ensures (forall k :: 0 <= k < |products| ==> products[k].category != InitialSelectedCategory) ==>
      ShownTab(products, InitialSelectedCategory) == None
  {
    if exists k :: 0 <= k < |products| && products[k].category == InitialSelectedCategory {
      FilteredProductsIsShownTab(products, InitialSelectedCategory);
    }
  }

  /** The page's `selectedCategory` state. */
  class TabsView {
    var selectedCategory: string

    constructor ()
      ensures selectedCategory == InitialSelectedCategory
    {
      selectedCategory := InitialSelectedCategory;
    }

    /** A tab's `onClick`: `setSelectedCategory(category)`. Clicking any tab
        of the page then shows that tab's products, and only those. */
    method SelectTab(products: seq<Product>, category: string)
      requires category in Categories(products)
      modifies this
      ensures selectedCategory == category
      ensures ShownTab(products, selectedCategory) == Some(Filtered(products, category))
    {
      CategoriesAreTheProductCategories(products);
      selectedCategory := category;
      FilteredProductsIsShownTab(products, category);
    }
  }

  /** `product.subcategory === "per_m2" && " / m²"`. */
  function UnitSuffix(product: Product): string
  {
    if product.subcategory == Some("per_m2") then " / m²" else ""
  }

  /** The unit suffix is shown exactly for products priced per square metre. */
  lemma UnitSuffixOnlyPerSquareMetre(product: Product)
    ensures UnitSuffix(product) != "" <==> product.subcategory == Some("per_m2")
  {
  }
}
