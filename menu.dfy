/**
 * The menu catalog of the restaurant page: categories, dishes, the one
 * selection cell, the filtered list of dishes shown below the category
 * buttons, and the badges each dish carries.
 */
module Menu {
  import opened Wrappers

  /** A dish. The source's optional flags are falsy when absent; here an absent flag is `false`. */
  datatype MenuItem = MenuItem(
    id: string,
    name: string,
    description: string,
    price: string,
    image: Option<string>,
    category: string,
    isSpicy: bool,
    isVegetarian: bool,
    isSignature: bool)

  datatype MenuCategory = MenuCategory(id: string, name: string, description: Option<string>)

  /** The badges a dish can carry, and the two styles of a category button. */
  datatype Badge = Signature | Spicy | Vegetarian
  datatype ButtonStyle = Active | Inactive

  // ---------------------------------------------------------------------------
  // Referential integrity of catalog data

  predicate IsCategoryId(categories: seq<MenuCategory>, id: string)
  {
    exists k :: 0 <= k < |categories| && categories[k].id == id
  }

  predicate DistinctCategoryIds(categories: seq<MenuCategory>)
  {
    forall i, j :: 0 <= i < j < |categories| ==> categories[i].id != categories[j].id
  }

  /** The ids of the dishes, in catalog order. */
  function ItemIds(items: seq<MenuItem>): (r: seq<string>)
    ensures |r| == |items|
    ensures forall k :: 0 <= k < |items| ==> r[k] == items[k].id
  {
    seq(|items|, k requires 0 <= k < |items| => items[k].id)
  }

  predicate DistinctItemIds(items: seq<MenuItem>)
  {
    Distinct(ItemIds(items))
  }

  predicate Distinct<T(==)>(s: seq<T>)
  {
    forall i, j :: 0 <= i < j < |s| ==> s[i] != s[j]
  }

  /** Every dish names a category of the catalog. */
  predicate ItemsReferToCategories(categories: seq<MenuCategory>, items: seq<MenuItem>)
  {
    forall k :: 0 <= k < |items| ==> IsCategoryId(categories, items[k].category)
  }

  // ---------------------------------------------------------------------------
  // Order-preserving sub-sequences

  /** `a` is `b` with some elements left out and the rest in their original order. */
  predicate IsSubsequence<T(==)>(a: seq<T>, b: seq<T>)
    decreases |b|
  {
    a == [] || (b != [] && ((a[0] == b[0] && IsSubsequence(a[1..], b[1..])) || IsSubsequence(a, b[1..])))
  }

  // ---------------------------------------------------------------------------
  // The displayed list: `items.filter(item => item.category === selected)`

  function FilterByCategory(items: seq<MenuItem>, category: string): (r: seq<MenuItem>)
    ensures |r| <= |items|
    ensures forall k :: 0 <= k < |r| ==> r[k].category == category
  {
    if items == [] then []
    else if items[0].category == category then [items[0]] + FilterByCategory(items[1..], category)
    else FilterByCategory(items[1..], category)
  }

  /** The filter keeps each matching dish as often as it occurs and drops every other one. */
  lemma {:induction false} FilterCounts(items: seq<MenuItem>, category: string, x: MenuItem)
    ensures multiset(FilterByCategory(items, category))[x]
            == if x.category == category then multiset(items)[x] else 0
  {
    if items != [] {
      FilterCounts(items[1..], category, x);
      assert items == [items[0]] + items[1..];
    }
  }

  /** The multiplicity clause of `FilterCounts` for every dish at once. */
  lemma FilterAllCounts(items: seq<MenuItem>, category: string)
    ensures forall x :: multiset(FilterByCategory(items, category))[x]
                        == if x.category == category then multiset(items)[x] else 0
  {
    forall x ensures multiset(FilterByCategory(items, category))[x]
                     == if x.category == category then multiset(items)[x] else 0 {
      FilterCounts(items, category, x);
    }
  }

  /** A dish is displayed exactly when it is in the catalog and belongs to the category. */
  lemma FilterMembership(items: seq<MenuItem>, category: string)
    ensures forall x :: x in FilterByCategory(items, category) <==> x in items && x.category == category
  {
    forall x ensures x in FilterByCategory(items, category) <==> x in items && x.category == category {
      FilterCounts(items, category, x);
      assert x in FilterByCategory(items, category) <==> x in multiset(FilterByCategory(items, category));
      assert x in items <==> x in multiset(items);
    }
  }

  /** The displayed dishes keep the relative order they have in the catalog. */
  lemma {:induction false} FilterIsSubsequence(items: seq<MenuItem>, category: string)
    ensures IsSubsequence(FilterByCategory(items, category), items)
  {
    if items != [] {
      FilterIsSubsequence(items[1..], category);
      var r := FilterByCategory(items, category);
      if items[0].category == category {
        assert r[0] == items[0] && r[1..] == FilterByCategory(items[1..], category);
      }
    }
  }

  /** Filtering a second time by the same category changes nothing. */
  lemma {:induction false} FilterIdempotent(items: seq<MenuItem>, category: string)
    ensures FilterByCategory(FilterByCategory(items, category), category) == FilterByCategory(items, category)
  {
    if items != [] {
      FilterIdempotent(items[1..], category);
    }
  }

  // ---------------------------------------------------------------------------
  // Badges and category buttons

  /** The badges of one dish in document order: Signature beside the name, then Spicy, then Vegetarian. */
  function Badges(item: MenuItem): (r: seq<Badge>)
    ensures (Signature in r) == item.isSignature
    ensures (Spicy in r) == item.isSpicy
    ensures (Vegetarian in r) == item.isVegetarian
    ensures IsSubsequence(r, [Signature, Spicy, Vegetarian])
  {
    var r := (if item.isSignature then [Signature] else [])
      + (if item.isSpicy then [Spicy] else [])
      + (if item.isVegetarian then [Vegetarian] else []);
    BadgesInOrder(item.isSignature, item.isSpicy, item.isVegetarian, r);
    r
  }

  lemma BadgesInOrder(signature: bool, spicy: bool, vegetarian: bool, r: seq<Badge>)
    requires r == (if signature then [Signature] else []) + (if spicy then [Spicy] else [])
                  + (if vegetarian then [Vegetarian] else [])
    ensures IsSubsequence(r, [Signature, Spicy, Vegetarian])
  {
    var last := if vegetarian then [Vegetarian] else [];
    var tail := (if spicy then [Spicy] else []) + last;
    assert IsSubsequence(last, [Vegetarian]);
    SubsequenceCons(last, [Vegetarian], Spicy, spicy);
    assert [Spicy] + [Vegetarian] == [Spicy, Vegetarian];
    SubsequenceCons(tail, [Spicy, Vegetarian], Signature, signature);
    assert [Signature] + [Spicy, Vegetarian] == [Signature, Spicy, Vegetarian];
  }

  /** Prepending an element to the longer sequence, and optionally to both, keeps the relation. */
  lemma SubsequenceCons<T>(a: seq<T>, b: seq<T>, x: T, keep: bool)
    requires IsSubsequence(a, b)
    ensures IsSubsequence((if keep then [x] else []) + a, [x] + b)
  {
    var c := [x] + b;
    assert c[1..] == b;
    if keep {
      var d := [x] + a;
      assert d[0] == c[0] && d[1..] == a;
    } else {
      assert [] + a == a;
    }
  }

  /** The style of each category button, in the order of the categories. */
  function CategoryButtons(categories: seq<MenuCategory>, selected: string): (r: seq<ButtonStyle>)
    ensures |r| == |categories|
    ensures forall k :: 0 <= k < |r| ==> (r[k] == Active <==> categories[k].id == selected)
  {
    seq(|categories|, k requires 0 <= k < |categories| =>
      if categories[k].id == selected then Active else Inactive)
  }

  /** With distinct ids and a known selection, exactly one button shows the active style. */
  lemma ExactlyOneActiveButton(categories: seq<MenuCategory>, selected: string)
    requires DistinctCategoryIds(categories)
    requires IsCategoryId(categories, selected)
    ensures exists k :: 0 <= k < |categories| && CategoryButtons(categories, selected)[k] == Active
    ensures forall i, j :: 0 <= i < |categories| && 0 <= j < |categories|
                           && CategoryButtons(categories, selected)[i] == Active
                           && CategoryButtons(categories, selected)[j] == Active
                           ==> i == j
  {
    var k :| 0 <= k < |categories| && categories[k].id == selected;
    assert CategoryButtons(categories, selected)[k] == Active;
  }

  // ---------------------------------------------------------------------------
  // Initial selection

  /** `categories[0].id`; `None` when the list is empty, where the component throws while rendering. */
  function InitialSelection(categories: seq<MenuCategory>): (r: Option<string>)
    ensures r.Some? <==> |categories| > 0
    ensures r.Some? ==> IsCategoryId(categories, r.value) && r.value == categories[0].id
  {
    if |categories| == 0 then None else Some(categories[0].id)
  }

  // ---------------------------------------------------------------------------
  // The component

  class MenuSection {
    const categories: seq<MenuCategory>
    const items: seq<MenuItem>
    var selectedCategory: string

    /** The selection always names one of the categories. */
    predicate Valid()
      reads this
    {
      IsCategoryId(categories, selectedCategory)
    }

    /**
     * Mounting with the catalog props. A prop the caller leaves out is
     * `OrDefault(prop, DefaultCategories)` / `OrDefault(prop, DefaultItems)`:
     * only an absent prop is replaced, an explicitly empty list is kept.
     */
    constructor (categories: seq<MenuCategory>, items: seq<MenuItem>)
      requires |categories| > 0
      ensures this.categories == categories && this.items == items
      ensures Some(selectedCategory) == InitialSelection(categories)
      ensures Valid()
    {
      this.categories := categories;
      this.items := items;
      selectedCategory := InitialSelection(categories).value;
    }

    /** A click on the button of `categories[k]`. */
    method ClickCategory(k: nat)
      requires Valid()
      requires k < |categories|
      modifies this
      ensures Valid()
      ensures selectedCategory == categories[k].id
      ensures old(selectedCategory) == categories[k].id ==> selectedCategory == old(selectedCategory)
    {
      selectedCategory := categories[k].id;
    }

    /** The dishes shown for the current selection. */
    function DisplayedItems(): (r: seq<MenuItem>)
      reads this
      ensures forall k :: 0 <= k < |r| ==> r[k].category == selectedCategory
      ensures forall x :: x in items && x.category == selectedCategory ==> x in r
      ensures IsSubsequence(r, items)
      ensures forall x :: multiset(r)[x] == if x.category == selectedCategory then multiset(items)[x] else 0
    {
      FilterIsSubsequence(items, selectedCategory);
      FilterMembership(items, selectedCategory);
      FilterAllCounts(items, selectedCategory);
      FilterByCategory(items, selectedCategory)
    }

    /** The active/inactive style of each category button. */
    function Buttons(): (r: seq<ButtonStyle>)
      reads this
      requires Valid() && DistinctCategoryIds(categories)
      ensures |r| == |categories|
      ensures forall k :: 0 <= k < |r| ==> (r[k] == Active <==> categories[k].id == selectedCategory)
      ensures exists k :: 0 <= k < |r| && r[k] == Active
      ensures forall i, j :: 0 <= i < |r| && 0 <= j < |r| && r[i] == Active && r[j] == Active ==> i == j
    {
      ExactlyOneActiveButton(categories, selectedCategory);
      CategoryButtons(categories, selectedCategory)
    }
  }

  // ---------------------------------------------------------------------------
  // Scenarios

  /** Two categories and three dishes: the starters first, then only the main course. */
  method CatalogScenario()
  {
    var starters := MenuCategory("starters", "Starters", None);
    var mains := MenuCategory("mains", "Main Course", None);
    var one := MenuItem("1", "Soup", "", "$12", None, "starters", false, true, false);
    var two := MenuItem("2", "Ribeye", "", "$65", None, "mains", false, false, true);
    var three := MenuItem("3", "Calamari", "", "$16", None, "starters", true, false, false);
    ScenarioFilter(one, two, three);
    var menu := new MenuSection([starters, mains], [one, two, three]);
    assert menu.selectedCategory == "starters";
    assert menu.DisplayedItems() == [one, three];
    menu.ClickCategory(1);
    assert menu.DisplayedItems() == [two];
    menu.ClickCategory(1);
    assert menu.selectedCategory == "mains" && menu.DisplayedItems() == [two];
    assert menu.Buttons() == [Inactive, Active];
    assert Badges(two) == [Signature] && Badges(three) == [Spicy];
  }

  lemma ScenarioFilter(one: MenuItem, two: MenuItem, three: MenuItem)
    requires one.category == three.category == "starters" && two.category == "mains"
    ensures FilterByCategory([one, two, three], "starters") == [one, three]
    ensures FilterByCategory([one, two, three], "mains") == [two]
  {
    var items := [one, two, three];
    assert items[1..] == [two, three] && items[1..][1..] == [three] && items[1..][1..][1..] == [];
    assert "starters" != "mains";
    assert FilterByCategory([three], "starters") == [three];
    assert FilterByCategory([three], "mains") == [];
  }

  /** Without props the section shows the default starters. */
  method DefaultCatalogScenario()
  {
    var menu := new MenuSection(OrDefault(None, DefaultCategories), OrDefault(None, DefaultItems));
    DefaultStartersFirst();
    assert menu.DisplayedItems() == DefaultStarters;
  }

  /** The default selection is the first category, and it shows exactly the starters. */
  lemma DefaultStartersFirst()
    ensures |DefaultCategories| > 0 && DefaultCategories[0].id == "starters"
    ensures FilterByCategory(DefaultItems, DefaultCategories[0].id) == DefaultStarters
  {
    DefaultFilter("starters");
  }

  // ---------------------------------------------------------------------------
  // Default catalog data

  const DefaultCategories: seq<MenuCategory> := [
    MenuCategory("starters", "Starters", Some("Begin your culinary journey")),
    MenuCategory("mains", "Main Course", Some("Signature dishes crafted with passion")),
    MenuCategory("desserts", "Desserts", Some("Sweet endings to a perfect meal")),
    MenuCategory("drinks", "Beverages", Some("Perfectly paired drinks"))
  ]

  const DefaultStarters: seq<MenuItem> := [
    MenuItem("1", "Truffle Infused Wild Mushroom Soup",
      "Creamy blend of forest mushrooms with aromatic truffle oil", "$12", None, "starters", false, true, false),
    MenuItem("2", "Pan-Seared Scallops",
      "Fresh scallops with citrus butter sauce and micro greens", "$18", None, "starters", false, false, true),
    MenuItem("s3", "Crispy Calamari",
      "Tender calamari rings with spicy aioli and lemon", "$16", None, "starters", true, false, false),
    MenuItem("s4", "Burrata & Heirloom Tomatoes",
      "Fresh burrata with marinated tomatoes and basil", "$17", None, "starters", false, true, false),
    MenuItem("s5", "Duck Liver Pâté",
      "Smooth pâté with brioche and fig jam", "$19", None, "starters", false, false, true),
    MenuItem("s6", "Vietnamese Spring Rolls",
      "Fresh rice paper rolls with prawns and herbs", "$14", None, "starters", false, false, false)
  ]

  const DefaultMains: seq<MenuItem> := [
    MenuItem("3", "Grilled Wagyu Ribeye",
      "12oz premium wagyu beef with roasted garlic and herbs", "$65", None, "mains", false, false, true),
    MenuItem("4", "Saffron Seafood Risotto",
      "Creamy arborio rice with fresh seafood and saffron", "$38", None, "mains", true, false, false),
    MenuItem("m3", "Chilean Sea Bass",
      "Pan-seared sea bass with miso glaze and baby bok choy", "$45", None, "mains", false, false, true),
    MenuItem("m4", "Wild Mushroom Ravioli",
      "Handmade pasta filled with wild mushrooms and truffle cream", "$32", None, "mains", false, true, false),
    MenuItem("m5", "Rack of Lamb",
      "Herb-crusted lamb with mint pesto and roasted vegetables", "$48", None, "mains", false, false, false),
    MenuItem("m6", "Thai Red Curry Duck",
      "Crispy duck breast in aromatic red curry with lychees", "$42", None, "mains", true, false, false)
  ]

  const DefaultDesserts: seq<MenuItem> := [
    MenuItem("5", "Dark Chocolate Soufflé",
      "Warm chocolate soufflé with vanilla bean ice cream", "$14", None, "desserts", false, false, true),
    MenuItem("6", "Artisanal Cheese Board",
      "Selection of fine cheeses with honey and nuts", "$22", None, "desserts", false, true, false),
    MenuItem("d3", "Crème Brûlée Trio",
      "Classic vanilla, matcha, and lavender crème brûlée", "$16", None, "desserts", false, false, true),
    MenuItem("d4", "Tiramisu",
      "Traditional Italian tiramisu with mascarpone and coffee", "$13", None, "desserts", false, false, false),
    MenuItem("d5", "Mango Passion Fruit Pavlova",
      "Crispy meringue with tropical fruits and cream", "$15", None, "desserts", false, false, false),
    MenuItem("d6", "Green Tea Opera Cake",
      "Layered matcha cake with chocolate ganache", "$14", None, "desserts", false, false, false)
  ]

  const DefaultDrinks: seq<MenuItem> := [
    MenuItem("7", "Signature House Martini",
      "Premium vodka with a twist of citrus and olive", "$16", None, "drinks", false, false, true),
    MenuItem("8", "Aged Wine Selection",
      "Curated selection of fine wines", "$12-45", None, "drinks", false, false, false),
    MenuItem("dr3", "Smoked Old Fashioned",
      "Bourbon with maple and aromatic bitters, smoked tableside", "$18", None, "drinks", false, false, true),
    MenuItem("dr4", "Japanese Whisky Flight",
      "Tasting of three premium Japanese whiskies", "$35", None, "drinks", false, false, false),
    MenuItem("dr5", "Botanical Gin & Tonic",
      "Craft gin with artisanal tonic and fresh herbs", "$14", None, "drinks", false, false, false),
    MenuItem("dr6", "Non-Alcoholic Cocktail Selection",
      "Creative alcohol-free cocktails with fresh ingredients", "$10", None, "drinks", false, false, false)
  ]

  /** The default dishes, grouped by category in the order of the default categories. */
  const DefaultItems: seq<MenuItem> := DefaultStarters + DefaultMains + DefaultDesserts + DefaultDrinks

  lemma DefaultCategoryIdsDistinct()
    ensures |DefaultCategories| == 4
    ensures DistinctCategoryIds(DefaultCategories)
  {
  }

  /** Every default dish names one of the four default categories. */
  lemma DefaultItemsReferToCategories()
    ensures ItemsReferToCategories(DefaultCategories, DefaultItems)
  {
    DefaultGroups();
    forall k | 0 <= k < |DefaultItems| ensures IsCategoryId(DefaultCategories, DefaultItems[k].category) {
      var c := DefaultItems[k].category;
      if k < 6 { assert c == DefaultCategories[0].id; }
      else if k < 12 { assert c == DefaultCategories[1].id; }
      else if k < 18 { assert c == DefaultCategories[2].id; }
      else { assert c == DefaultCategories[3].id; }
    }
  }

  /** The ids of the default dishes are pairwise distinct (they serve as React keys). */
  lemma DefaultItemIdsDistinct()
    ensures |DefaultItems| == 24
    ensures DistinctItemIds(DefaultItems)
  {
    DefaultGroups();
    DefaultIdsDistinct();
    GroupIds(DefaultStarters, DefaultMains, DefaultDesserts, DefaultDrinks);
  }

  /** Four groups carrying the default ids have pairwise distinct ids. */
  lemma GroupIds(s: seq<MenuItem>, m: seq<MenuItem>, d: seq<MenuItem>, k: seq<MenuItem>)
    requires ItemIds(s) == StarterIds && ItemIds(m) == MainIds
    requires ItemIds(d) == DessertIds && ItemIds(k) == DrinkIds
    requires Distinct(StarterIds + MainIds + DessertIds + DrinkIds)
    ensures |s + m + d + k| == 24
    ensures DistinctItemIds(s + m + d + k)
  {
    ItemIdsAppend(s, m);
    ItemIdsAppend(s + m, d);
    ItemIdsAppend(s + m + d, k);
  }

  const StarterIds: seq<string> := ["1", "2", "s3", "s4", "s5", "s6"]
  const MainIds: seq<string> := ["3", "4", "m3", "m4", "m5", "m6"]
  const DessertIds: seq<string> := ["5", "6", "d3", "d4", "d5", "d6"]
  const DrinkIds: seq<string> := ["7", "8", "dr3", "dr4", "dr5", "dr6"]

  lemma DefaultIdsDistinct()
    ensures Distinct(StarterIds + MainIds + DessertIds + DrinkIds)
  {
    assert Distinct(StarterIds) && Distinct(MainIds) && Distinct(DessertIds) && Distinct(DrinkIds);
    assert Disjoint(StarterIds, MainIds);
    DistinctAppend(StarterIds, MainIds);
    assert Disjoint(StarterIds, DessertIds) && Disjoint(MainIds, DessertIds);
    DisjointAppend(StarterIds, MainIds, DessertIds);
    DistinctAppend(StarterIds + MainIds, DessertIds);
    assert Disjoint(StarterIds, DrinkIds) && Disjoint(MainIds, DrinkIds) && Disjoint(DessertIds, DrinkIds);
    DisjointAppend(StarterIds, MainIds, DrinkIds);
    DisjointAppend(StarterIds + MainIds, DessertIds, DrinkIds);
    DistinctAppend(StarterIds + MainIds + DessertIds, DrinkIds);
  }

  predicate Disjoint<T(==)>(a: seq<T>, b: seq<T>)
  {
    forall i, j :: 0 <= i < |a| && 0 <= j < |b| ==> a[i] != b[j]
  }

  lemma DisjointAppend<T>(a: seq<T>, b: seq<T>, c: seq<T>)
    requires Disjoint(a, c) && Disjoint(b, c)
    ensures Disjoint(a + b, c)
  {
    forall i, j | 0 <= i < |a + b| && 0 <= j < |c| ensures (a + b)[i] != c[j] {
      if i < |a| { assert (a + b)[i] == a[i]; } else { assert (a + b)[i] == b[i - |a|]; }
    }
  }

  lemma DistinctAppend<T>(a: seq<T>, b: seq<T>)
    requires Distinct(a) && Distinct(b) && Disjoint(a, b)
    ensures Distinct(a + b)
  {
    forall i, j | 0 <= i < j < |a + b| ensures (a + b)[i] != (a + b)[j] {
      if j < |a| {
        assert (a + b)[i] == a[i] && (a + b)[j] == a[j];
      } else if i < |a| {
        assert (a + b)[i] == a[i] && (a + b)[j] == b[j - |a|];
      } else {
        assert (a + b)[i] == b[i - |a|] && (a + b)[j] == b[j - |a|];
      }
    }
  }

  /** Each default category lists six dishes. */
  lemma DefaultSixPerCategory()
    ensures forall k :: 0 <= k < |DefaultCategories| ==> |FilterByCategory(DefaultItems, DefaultCategories[k].id)| == 6
  {
    DefaultGroups();
    DefaultFilter("starters");
    DefaultFilter("mains");
    DefaultFilter("desserts");
    DefaultFilter("drinks");
  }

  /** Filtering the default catalog by a category picks out that category's group. */
  lemma DefaultFilter(category: string)
    ensures FilterByCategory(DefaultItems, category)
            == (if category == "starters" then DefaultStarters else [])
               + (if category == "mains" then DefaultMains else [])
               + (if category == "desserts" then DefaultDesserts else [])
               + (if category == "drinks" then DefaultDrinks else [])
  {
    DefaultGroups();
    FilterGroups(DefaultStarters, DefaultMains, DefaultDesserts, DefaultDrinks, category);
  }

  /** Four single-category groups, one per default category id, filter group by group. */
  lemma FilterGroups(s: seq<MenuItem>, m: seq<MenuItem>, d: seq<MenuItem>, k: seq<MenuItem>, category: string)
    requires AllOfCategory(s, "starters") && AllOfCategory(m, "mains")
    requires AllOfCategory(d, "desserts") && AllOfCategory(k, "drinks")
    ensures FilterByCategory(s + m + d + k, category)
            == (if category == "starters" then s else []) + (if category == "mains" then m else [])
               + (if category == "desserts" then d else []) + (if category == "drinks" then k else [])
  {
    FilterAppend(s + m + d, k, category);
    FilterAppend(s + m, d, category);
    FilterAppend(s, m, category);
    FilterGroup(s, "starters", category);
    FilterGroup(m, "mains", category);
    FilterGroup(d, "desserts", category);
    FilterGroup(k, "drinks", category);
  }

  lemma FilterGroup(items: seq<MenuItem>, own: string, category: string)
    requires AllOfCategory(items, own)
    ensures FilterByCategory(items, category) == if own == category then items else []
  {
    if own == category { FilterKeepsAll(items, category); } else { FilterDropsAll(items, category); }
  }

  lemma ItemIdsAppend(a: seq<MenuItem>, b: seq<MenuItem>)
    ensures ItemIds(a + b) == ItemIds(a) + ItemIds(b)
  {
  }

  /** Each default group holds six dishes of its own category. */
  lemma DefaultGroups()
    ensures |DefaultStarters| == |DefaultMains| == |DefaultDesserts| == |DefaultDrinks| == 6
    ensures AllOfCategory(DefaultStarters, "starters") && AllOfCategory(DefaultMains, "mains")
    ensures AllOfCategory(DefaultDesserts, "desserts") && AllOfCategory(DefaultDrinks, "drinks")
    ensures ItemIds(DefaultStarters) == StarterIds && ItemIds(DefaultMains) == MainIds
    ensures ItemIds(DefaultDesserts) == DessertIds && ItemIds(DefaultDrinks) == DrinkIds
  {
    StartersGroup();
    MainsGroup();
    DessertsGroup();
    DrinksGroup();
  }

  lemma StartersGroup()
    ensures |DefaultStarters| == 6 && AllOfCategory(DefaultStarters, "starters")
    ensures ItemIds(DefaultStarters) == StarterIds
  {
  }

  lemma MainsGroup()
    ensures |DefaultMains| == 6 && AllOfCategory(DefaultMains, "mains")
    ensures ItemIds(DefaultMains) == MainIds
  {
  }

  lemma DessertsGroup()
    ensures |DefaultDesserts| == 6 && AllOfCategory(DefaultDesserts, "desserts")
    ensures ItemIds(DefaultDesserts) == DessertIds
  {
  }

  lemma DrinksGroup()
    ensures |DefaultDrinks| == 6 && AllOfCategory(DefaultDrinks, "drinks")
    ensures ItemIds(DefaultDrinks) == DrinkIds
  {
  }

  predicate AllOfCategory(items: seq<MenuItem>, category: string)
  {
    forall k :: 0 <= k < |items| ==> items[k].category == category
  }


  /** Filtering distributes over concatenation of catalogs. */
  lemma {:induction false} FilterAppend(a: seq<MenuItem>, b: seq<MenuItem>, category: string)
    ensures FilterByCategory(a + b, category) == FilterByCategory(a, category) + FilterByCategory(b, category)
  {
    if a != [] {
      FilterAppend(a[1..], b, category);
      assert (a + b)[1..] == a[1..] + b;
      if a[0].category == category {
        assert FilterByCategory(a + b, category)
            == [a[0]] + FilterByCategory(a[1..], category) + FilterByCategory(b, category);
      }
    } else {
      assert a + b == b;
    }
  }

  lemma {:induction false} FilterKeepsAll(items: seq<MenuItem>, category: string)
    requires AllOfCategory(items, category)
    ensures FilterByCategory(items, category) == items
  {
    if items != [] {
      FilterKeepsAll(items[1..], category);
    }
  }

  lemma {:induction false} FilterDropsAll(items: seq<MenuItem>, category: string)
    requires forall k :: 0 <= k < |items| ==> items[k].category != category
    ensures FilterByCategory(items, category) == []
  {
    if items != [] {
      FilterDropsAll(items[1..], category);
    }
  }
}
