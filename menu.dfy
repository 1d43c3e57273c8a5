/**
 * The menu page's region filter: the filter starts at 'All', each of the
 * four buttons sets it to its own region, the button whose region equals the
 * filter renders active, and the dish grid shows either the whole list or
 * the dishes of the chosen region in list order.
 */
module RegionMenu {

  datatype Region = North | Central | South

  datatype Category = Soup | Rice | Appetizer | Coffee

  /** 0: none, 3: very spicy. */
  type Spiciness = x: int | 0 <= x <= 3

  datatype Dish = Dish(
    id: string,
    name: string,
    englishName: string,
    description: string,
    story: string,
    price: int,
    imageUrl: string,
    category: Category,
    region: Region,
    spicinessLevel: Spiciness,
    ingredients: seq<string>)

  /** 'All' or one region. */
  datatype RegionFilter = All | Only(region: Region)

  const InitialFilter := All

  /** The filter bar, left to right. */
  const Buttons: seq<RegionFilter> := [All, Only(North), Only(Central), Only(South)]

  /** `dishes.filter(dish => dish.region === region)`. */
  function FilterRegion(dishes: seq<Dish>, region: Region): (r: seq<Dish>)
    ensures |r| <= |dishes|
    ensures forall k :: 0 <= k < |r| ==> r[k].region == region
    ensures forall i :: 0 <= i < |dishes| && dishes[i].region == region ==> dishes[i] in r
    decreases |dishes|
  {
    if dishes == [] then []
    else
      var rest := FilterRegion(dishes[1..], region);
      assert forall i :: 1 <= i < |dishes| ==> dishes[i] == dishes[1..][i - 1];
      if dishes[0].region == region then [dishes[0]] + rest else rest
  }

  /** The memoised `filteredDishes`. */
  function FilteredDishes(dishes: seq<Dish>, filter: RegionFilter): (r: seq<Dish>)
    ensures filter == All ==> r == dishes
    ensures filter.Only? ==> r == FilterRegion(dishes, filter.region)
  {
    match filter
    case All => dishes
    case Only(region) => FilterRegion(dishes, region)
  }

  /** The filter keeps list order: filtering a concatenation concatenates the filtered parts. */
  lemma {:induction false} FilterKeepsOrder(a: seq<Dish>, b: seq<Dish>, region: Region)
    ensures FilterRegion(a + b, region) == FilterRegion(a, region) + FilterRegion(b, region)
    decreases |a|
  {
    if a != [] {
      assert (a + b)[0] == a[0];
      assert (a + b)[1..] == a[1..] + b;
      FilterKeepsOrder(a[1..], b, region);
    } else {
      assert a + b == b;
    }
  }

  /** Each dish appears in the result exactly as often as in the list when its region matches, and never otherwise. */
  lemma {:induction false} FilterCounts(dishes: seq<Dish>, region: Region, d: Dish)
    ensures multiset(FilterRegion(dishes, region))[d] == if d.region == region then multiset(dishes)[d] else 0
    decreases |dishes|
  {
    if dishes != [] {
      FilterCounts(dishes[1..], region, d);
      assert dishes == [dishes[0]] + dishes[1..];
      assert multiset(dishes) == multiset([dishes[0]]) + multiset(dishes[1..]);
    }
  }

  /** When every dish is of the region, the filter returns the whole list. */
  lemma {:induction false} FilterAllMatching(dishes: seq<Dish>, region: Region)
    requires forall i :: 0 <= i < |dishes| ==> dishes[i].region == region
    ensures FilterRegion(dishes, region) == dishes
    decreases |dishes|
  {
    if dishes != [] {
      FilterAllMatching(dishes[1..], region);
      assert dishes == [dishes[0]] + dishes[1..];
    }
  }

  /** Choosing the same region twice gives the same dishes as choosing it once. */
  lemma FilterIdempotent(dishes: seq<Dish>, region: Region)
    ensures FilterRegion(FilterRegion(dishes, region), region) == FilterRegion(dishes, region)
  {
    FilterAllMatching(FilterRegion(dishes, region), region);
  }

  /** The three regional views partition the list: every dish is in exactly one of them. */
  lemma {:induction false} RegionsPartition(dishes: seq<Dish>)
    ensures |FilterRegion(dishes, North)| + |FilterRegion(dishes, Central)| + |FilterRegion(dishes, South)| == |dishes|
    decreases |dishes|
  {
    if dishes != [] {
      RegionsPartition(dishes[1..]);
    }
  }

  /** The button for `button` renders active. */
  predicate IsActive(filter: RegionFilter, button: RegionFilter)
  {
    filter == button
  }

  /** The new filter after a click on the button for `button`. */
  function ClickButton(filter: RegionFilter, button: RegionFilter): (r: RegionFilter)
    ensures IsActive(r, button)
  {
    button
  }

  /** After a click on a button of the bar, exactly that button of the bar renders active. */
  lemma ExactlyClickedButtonActive(filter: RegionFilter, clicked: nat, k: nat)
    requires clicked < |Buttons| && k < |Buttons|
    ensures IsActive(ClickButton(filter, Buttons[clicked]), Buttons[k]) <==> k == clicked
  {
  }

  /** On first render the 'All' button is active and the grid shows every dish. */
  lemma InitialView(dishes: seq<Dish>)
    ensures IsActive(InitialFilter, All)
    ensures FilteredDishes(dishes, InitialFilter) == dishes
  {
  }
}
