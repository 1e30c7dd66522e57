/** The menu's category tabs and the cakes each tab shows. */
module Menu {
  import opened Types
  import opened Catalog
  import opened Lists

  /** The selected tab: every cake, or one category. */
  datatype CategoryFilter = All | Only(category: CakeCategory)

  predicate Shows(active: CategoryFilter, cake: Cake) {
    active.All? || cake.category == active.category
  }

  /** A category's position among the tabs: its place in declaration order,
      after "All". */
  function TabPosition(c: CakeCategory): nat {
    match c
    case Graduation => 1
    case Wedding => 2
    case KidsCorner => 3
    case Birthday => 4
    case General => 5
  }

  /** The tabs in display order: "All" first, then one tab per category in
      declaration order, so every category has its tab. */
  function Tabs(): (r: seq<CategoryFilter>)
    ensures |r| == 6 && r[0] == All
    ensures forall k :: 1 <= k < |r| ==> r[k].Only?
    ensures forall c: CakeCategory :: TabPosition(c) < |r| && r[TabPosition(c)] == Only(c)
  {
    [All, Only(Graduation), Only(Wedding), Only(KidsCorner), Only(Birthday), Only(General)]
  }

  /** The cakes a tab shows: all of them, or those of its category, in
      catalog order. */
  function FilteredCakes(cakes: seq<Cake>, active: CategoryFilter): (r: seq<Cake>)
    ensures active.All? ==> r == cakes
    ensures forall i :: 0 <= i < |r| ==> r[i] in cakes && Shows(active, r[i])
    ensures forall i :: 0 <= i < |cakes| && Shows(active, cakes[i]) ==> cakes[i] in r
  {
    if active.All? then cakes else Filter(cakes, (c: Cake) => c.category == active.category)
  }

  /** Filtering keeps catalog order: what a tab shows of a prefix comes
      before what it shows of the rest. */
  lemma FilteredCakesConcat(a: seq<Cake>, b: seq<Cake>, active: CategoryFilter)
    ensures FilteredCakes(a + b, active) == FilteredCakes(a, active) + FilteredCakes(b, active)
  {
    if active.Only? {
      FilterConcat(a, b, (c: Cake) => c.category == active.category);
    }
  }

  /** A tab that shows one cake of the list is not empty. */
  lemma ShowsSome(cakes: seq<Cake>, active: CategoryFilter, i: nat)
    requires i < |cakes| && Shows(active, cakes[i])
    ensures |FilteredCakes(cakes, active)| > 0
  {
    assert cakes[i] in FilteredCakes(cakes, active);
  }

  /** With the shipped catalog every tab shows at least one cake. */
  lemma EveryTabShowsACake()
    ensures forall k :: 0 <= k < |Tabs()| ==> |FilteredCakes(INITIAL_CAKES, Tabs()[k])| > 0
  {
    var samples := [0, 1, 3, 8, 0, 10];
    forall k | 0 <= k < |Tabs()|
      ensures |FilteredCakes(INITIAL_CAKES, Tabs()[k])| > 0
    {
      ShowsSome(INITIAL_CAKES, Tabs()[k], samples[k]);
    }
  }
}
