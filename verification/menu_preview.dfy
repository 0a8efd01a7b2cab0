/**
 * The menu section: a fixed list of categories shown as tabs, one of them
 * active; the active category is looked up by id with Array.prototype.find
 * and its items are rendered as numbered cards in a tab panel.
 */
module Menu {
  import opened Wrappers
  import opened Decimal

  datatype Item = Item(name: string, desc: string, price: string, tag: Option<string>)

  datatype Category = Category(id: string, title: string, color: string, items: seq<Item>)

  const MenuCategories: seq<Category> := [
    Category("cups", "Cups", "#E8143C", [
      Item("Classic Cup",
        "Fresh strawberries, silky chocolate drizzle, premium Chantilly cream",
        "R65", Some("Fan Favourite")),
      Item("Brownie Cup",
        "Fudgy brownie base, fresh strawberries, chocolate drizzle, cream",
        "R75", Some("Best Seller")),
      Item("Dark Chocolate Cup",
        "70% dark chocolate drizzle, fresh strawberries, whipped cream",
        "R70", None),
      Item("White Chocolate Cup",
        "White chocolate drizzle, strawberries, crushed biscuit crumble",
        "R70", None)
    ]),
    Category("strawberries", "Choc Strawberries", "#FF6BAD", [
      Item("Milk Chocolate Dipped",
        "Whole strawberries hand-dipped in premium Belgian milk chocolate",
        "R55", Some("Crowd Pleaser")),
      Item("Dark Chocolate Dipped",
        "70% dark Belgian chocolate dipped whole strawberries",
        "R55", None),
      Item("White Chocolate Dipped",
        "White chocolate coated with freeze-dried strawberry dust",
        "R60", None),
      Item("Dubai Chocolate Strawberries",
        "Our viral special \U{E2}\U{20AC}\U{201D} Dubai pistachio chocolate with kunafa crunch",
        "R95", Some("\U{F0}\U{178}\U{201D}\U{A5} Viral"))
    ]),
    Category("specials", "Specials", "#FF3D5A", [
      Item("Dubai Chocolate Box (6)",
        "Six Dubai chocolate strawberries presented in a luxury gift box",
        "R160", Some("Limited")),
      Item("Mixed Box (12)",
        "Your choice of 12 chocolate-dipped strawberries",
        "R250", Some("Popular")),
      Item("Seasonal Special",
        "Chef's weekly creation \U{E2}\U{20AC}\U{201D} follow @naughtyberrycpt for the drop",
        "TBC", Some("New Weekly"))
    ]),
    Category("toppings", "Add-ons", "#9B59B6", [
      Item("Extra Drizzle",
        "Milk / dark / white chocolate boost",
        "R10", None),
      Item("Crushed Oreo",
        "Crumbled Oreo topping on any cup",
        "R10", None),
      Item("Caramel Sauce",
        "Salted caramel drizzle",
        "R10", None),
      Item("Sprinkles",
        "Festive rainbow or chocolate sprinkles",
        "R5", None)
    ]),
    Category("platters", "Event Platters", "#FF6BAD", [
      Item("Small Platter (20 pax)",
        "20 chocolate strawberries + 20 classic cups, beautifully presented",
        "R1 800", Some("Events")),
      Item("Medium Platter (40 pax)",
        "40 strawberries + 40 cups with mixed flavours, styled display",
        "R3 200", Some("Events")),
      Item("Large Platter (80 pax)",
        "Full event service \U{E2}\U{20AC}\U{201D} 80 pax, custom flavours, styled setup, team on-site",
        "From R5 500", Some("Premium"))
    ])
  ]

  /** The category shown first. */
  const InitialCategory: string := "cups"

  function Ids(cats: seq<Category>): (ids: seq<string>)
    ensures |ids| == |cats| && forall i :: 0 <= i < |cats| ==> ids[i] == cats[i].id
  {
    seq(|cats|, i requires 0 <= i < |cats| => cats[i].id)
  }

  predicate DistinctIds(cats: seq<Category>) {
    forall i, j :: 0 <= i < j < |cats| ==> cats[i].id != cats[j].id
  }

  /** Item names serve as React keys, so they must differ within a category. */
  predicate DistinctNames(c: Category) {
    forall i, j :: 0 <= i < j < |c.items| ==> c.items[i].name != c.items[j].name
  }

  lemma MenuIdsDistinct()
    ensures DistinctIds(MenuCategories)
  {
  }

  lemma MenuNamesDistinct()
    ensures forall k :: 0 <= k < |MenuCategories| ==> DistinctNames(MenuCategories[k])
  {
  }

  lemma InitialCategoryListed()
    ensures InitialCategory in Ids(MenuCategories)
  {
    assert Ids(MenuCategories)[0] == InitialCategory;
  }

  // ----------------------------------------------------------------- lookup

  /** Array.prototype.find by id: the first category with that id, if any. */
  function Find(cats: seq<Category>, id: string): (r: Option<Category>)
    ensures r.Some? <==> id in Ids(cats)
    ensures r.Some? ==> exists k :: 0 <= k < |cats| && cats[k] == r.value && r.value.id == id &&
                          forall j :: 0 <= j < k ==> cats[j].id != id
    decreases |cats|
  {
    if cats == [] then None
    else if cats[0].id == id then Some(cats[0])
    else
      var r := Find(cats[1..], id);
      assert Ids(cats[1..]) == Ids(cats)[1..];
      r
  }

  /** With distinct ids, find returns the one category with the id. */
  lemma FindUnique(cats: seq<Category>, k: nat)
    requires DistinctIds(cats) && k < |cats|
    ensures Find(cats, cats[k].id) == Some(cats[k])
  {
    assert Ids(cats)[k] == cats[k].id;
  }

  // ------------------------------------------------------------------- tabs

  datatype Tab = Tab(id: string, title: string, selected: bool, controls: string)

  function PanelId(id: string): (p: string)
    ensures |p| == |id| + 10 && p[..10] == "tab-panel-" && p[10..] == id
  {
    "tab-panel-" + id
  }

  lemma PanelIdInjective(a: string, b: string)
    requires a != b
    ensures PanelId(a) != PanelId(b)
  {
    assert a == PanelId(a)[10..];
    assert b == PanelId(b)[10..];
  }

  /** The tab list: one tab per category, in order, selected when its id is
      the active one, controlling the panel of its own id. */
  function Tabs(cats: seq<Category>, active: string): (tabs: seq<Tab>)
    ensures |tabs| == |cats|
    ensures forall i :: 0 <= i < |cats| ==>
      && tabs[i].id == cats[i].id && tabs[i].title == cats[i].title
      && (tabs[i].selected <==> cats[i].id == active)
      && tabs[i].controls == PanelId(cats[i].id)
  {
    seq(|cats|, i requires 0 <= i < |cats| =>
      Tab(cats[i].id, cats[i].title, cats[i].id == active, PanelId(cats[i].id)))
  }

  /** Tab k is the only selected tab, and it controls the panel of the
      active id. */
  predicate OnlySelected(tabs: seq<Tab>, k: nat, active: string) {
    && k < |tabs| && tabs[k].selected && tabs[k].controls == PanelId(active)
    && forall j :: 0 <= j < |tabs| && tabs[j].selected ==> j == k
  }

  /** For a listed active id exactly one tab is selected, and it controls
      the panel of the active category. */
  lemma ExactlyOneSelected(active: string)
    requires active in Ids(MenuCategories)
    ensures exists k :: OnlySelected(Tabs(MenuCategories, active), k, active)
  {
    var tabs := Tabs(MenuCategories, active);
    var k: nat :| k < |MenuCategories| && Ids(MenuCategories)[k] == active;
    MenuIdsDistinct();
    assert tabs[k].selected && tabs[k].controls == PanelId(active);
    forall j | 0 <= j < |tabs| && tabs[j].selected
      ensures j == k
    {
      assert MenuCategories[j].id == active == MenuCategories[k].id;
    }
    assert OnlySelected(tabs, k, active);
  }

  // ------------------------------------------------------------------ cards

  /** What MenuItemCard receives: the item, the category colour as accent,
      its position, and the number badge it shows ("0" then index + 1). */
  datatype Card = Card(item: Item, accent: string, index: nat, badge: string)

  function Badge(index: nat): (b: string)
    ensures |b| >= 2 && b[0] == '0' && AllDigits(b[1..]) && DigitsValue(b[1..]) == index + 1
    ensures |b| == 2 <==> index < 9
    ensures b[1] != '0'
  {
    DigitsValueOfNatToString(index + 1);
    "0" + NatToString(index + 1)
  }

  /** The cards of a category: its items in order. */
  function Cards(c: Category): (cards: seq<Card>)
    ensures |cards| == |c.items|
    ensures forall i :: 0 <= i < |cards| ==>
      cards[i].item == c.items[i] && cards[i].accent == c.color && cards[i].index == i && cards[i].badge == Badge(i)
  {
    seq(|c.items|, i requires 0 <= i < |c.items| => Card(c.items[i], c.color, i, Badge(i)))
  }

  /** Cards of a category with distinct names have distinct keys and
      distinct badges. */
  lemma CardsDistinct(c: Category)
    requires DistinctNames(c)
    ensures var cards := Cards(c);
      forall i, j :: 0 <= i < j < |cards| ==> cards[i].item.name != cards[j].item.name && cards[i].badge != cards[j].badge
  {
    var cards := Cards(c);
    forall i, j | 0 <= i < j < |cards|
      ensures cards[i].badge != cards[j].badge
    {
      NatToStringInjective(i + 1, j + 1);
      assert NatToString(i + 1) == Badge(i)[1..];
      assert NatToString(j + 1) == Badge(j)[1..];
    }
  }

  // ------------------------------------------------------------- component

  datatype Panel = Panel(id: string, title: string, cards: seq<Card>)

  /** The menu section's state: the id of the active category. */
  class MenuPreview {
    var activeCategory: string

    /** The active id is always one of the listed ids. */
    predicate Valid()
      reads this
    {
      activeCategory in Ids(MenuCategories)
    }

    constructor ()
      ensures activeCategory == InitialCategory && Valid()
    {
      activeCategory := InitialCategory;
      InitialCategoryListed();
    }

    /** A click on tab k: setActiveCategory with that tab's id. */
    method SelectTab(k: nat)
      requires Valid() && k < |MenuCategories|
      modifies this
      ensures activeCategory == MenuCategories[k].id && Valid()
    {
      activeCategory := MenuCategories[k].id;
      assert Ids(MenuCategories)[k] == activeCategory;
    }

    /** The find(...)! lookup, which cannot fail: the category with the
        active id. */
    function ActiveCategory(): (c: Category)
      reads this
      requires Valid()
      ensures c in MenuCategories && c.id == activeCategory
    {
      Find(MenuCategories, activeCategory).value
    }

    function TabList(): (tabs: seq<Tab>)
      reads this
      requires Valid()
      ensures |tabs| == |MenuCategories|
      ensures exists k :: OnlySelected(tabs, k, activeCategory)
    {
      ExactlyOneSelected(activeCategory);
      Tabs(MenuCategories, activeCategory)
    }

    /** The tab panel: named after the active id, listing the active
        category's cards. */
    function ActivePanel(): (p: Panel)
      reads this
      requires Valid()
      ensures p.id == PanelId(activeCategory)
      ensures p.cards == Cards(ActiveCategory())
      ensures p.title == ActiveCategory().title + " menu items"
      ensures forall i, j :: 0 <= i < j < |p.cards| ==> p.cards[i].item.name != p.cards[j].item.name
    {
      var c := ActiveCategory();
      MenuNamesDistinct();
      CardsDistinct(c);
      Panel(PanelId(activeCategory), c.title + " menu items", Cards(c))
    }
  }
}
