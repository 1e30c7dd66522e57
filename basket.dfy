/** The basket operations as transformations of the list of lines: adding a
    catalog cake, adding a built cake, "order now", changing a quantity and
    removing lines. */
module Basket {
  import opened Types
  import opened Catalog
  import opened Pricing
  import opened Lists
  import opened Strings

  const CUSTOM_IMAGE_URL: string :=
    "https://images.unsplash.com/photo-1563729784474-d77dbb933a9e?q=80&w=800&auto=format&fit=crop"

  /** A line of a catalog cake (not a built one) with this id. */
  predicate IsStandardLineOf(item: CartItem, id: string) {
    item.id == id && !item.isCustom
  }

  predicate HasStandardLine(cart: seq<CartItem>, id: string) {
    exists i :: 0 <= i < |cart| && IsStandardLineOf(cart[i], id)
  }

  predicate HasLine(cart: seq<CartItem>, id: string) {
    exists i :: 0 <= i < |cart| && cart[i].id == id
  }

  /** No two catalog-cake lines share an id. */
  predicate StandardIdsUnique(cart: seq<CartItem>) {
    forall i, j :: 0 <= i < j < |cart| && !cart[i].isCustom ==> !IsStandardLineOf(cart[j], cart[i].id)
  }

  predicate QuantitiesPositive(cart: seq<CartItem>) {
    forall i :: 0 <= i < |cart| ==> cart[i].quantity >= 1
  }

  /** The basket invariant every operation keeps. */
  predicate WellFormed(cart: seq<CartItem>) {
    StandardIdsUnique(cart) && QuantitiesPositive(cart)
  }

  function Max(a: int, b: int): int {
    if a >= b then a else b
  }

  /** The line a catalog cake becomes: one 1 kg unit at the catalog price. */
  function StandardLine(cake: Cake): (line: CartItem)
    ensures line.id == cake.id && line.price == cake.price
    ensures line.quantity == 1 && line.weight == 1.0 && !line.isCustom
    ensures LineTotal(line) == cake.price
  {
    CartItem(cake.id, cake.name, cake.description, cake.price, cake.category, cake.imageUrl, cake.rating,
      1, 1.0, false, None)
  }

  /** Adding a catalog cake: one more unit on its line if there is one,
      otherwise a new line at the end. */
  function AddToCart(cart: seq<CartItem>, cake: Cake): (r: seq<CartItem>)
    ensures HasStandardLine(r, cake.id)
    ensures |r| == if HasStandardLine(cart, cake.id) then |cart| else |cart| + 1
    ensures !HasStandardLine(cart, cake.id) ==> r == cart + [StandardLine(cake)]
    ensures forall i :: 0 <= i < |cart| && !IsStandardLineOf(cart[i], cake.id) ==> r[i] == cart[i]
  {
    if HasStandardLine(cart, cake.id) then
      var r := seq(|cart|, i requires 0 <= i < |cart| =>
        if IsStandardLineOf(cart[i], cake.id) then cart[i].(quantity := cart[i].quantity + 1) else cart[i]);
      SameIdsAndKinds(cart, r, cake.id);
      r
    else
      assert IsStandardLineOf((cart + [StandardLine(cake)])[|cart|], cake.id);
      cart + [StandardLine(cake)]
  }

  /** Two baskets line up id for id and kind for kind, so one has a
      catalog-cake line with this id when the other does. */
  lemma SameIdsAndKinds(a: seq<CartItem>, b: seq<CartItem>, id: string)
    requires |a| == |b|
    requires forall i :: 0 <= i < |a| ==> a[i].id == b[i].id && a[i].isCustom == b[i].isCustom
    ensures HasStandardLine(a, id) == HasStandardLine(b, id)
    ensures StandardIdsUnique(a) == StandardIdsUnique(b)
  {
    if HasStandardLine(a, id) {
      var k :| 0 <= k < |a| && IsStandardLineOf(a[k], id);
      assert IsStandardLineOf(b[k], id);
    }
    if HasStandardLine(b, id) {
      var k :| 0 <= k < |b| && IsStandardLineOf(b[k], id);
      assert IsStandardLineOf(a[k], id);
    }
  }

  /** Line k is the only catalog-cake line with this id. */
  predicate OnlyStandardLine(cart: seq<CartItem>, id: string, k: nat) {
    k < |cart| && IsStandardLineOf(cart[k], id)
    && forall i :: 0 <= i < |cart| && IsStandardLineOf(cart[i], id) ==> i == k
  }

  lemma UniqueGivesOnly(cart: seq<CartItem>, id: string, k: nat)
    requires StandardIdsUnique(cart)
    requires k < |cart| && IsStandardLineOf(cart[k], id)
    ensures OnlyStandardLine(cart, id, k)
  {
    forall i | 0 <= i < |cart| && IsStandardLineOf(cart[i], id)
      ensures i == k
    {
    }
  }

  /** When only one line matches, only its quantity changes, by exactly
      one; the length and every other line stay. */
  lemma AddToCartMerges(cart: seq<CartItem>, cake: Cake, k: nat)
    requires OnlyStandardLine(cart, cake.id, k)
    ensures AddToCart(cart, cake) == cart[k := cart[k].(quantity := cart[k].quantity + 1)]
  {
  }

  /** One more unit of a catalog-cake line adds its price to its contribution. */
  lemma OneMoreUnit(item: CartItem)
    requires !item.isCustom
    ensures LineTotal(item.(quantity := item.quantity + 1)) == LineTotal(item) + item.price
  {
    assert (item.quantity + 1) as real == item.quantity as real + 1.0;
  }

  /** Adding the same catalog cake twice gives one line of quantity 2. */
  lemma AddToCartTwice(cart: seq<CartItem>, cake: Cake)
    requires !HasStandardLine(cart, cake.id)
    ensures AddToCart(AddToCart(cart, cake), cake) == cart + [StandardLine(cake).(quantity := 2)]
  {
    var once := cart + [StandardLine(cake)];
    assert AddToCart(cart, cake) == once;
    assert OnlyStandardLine(once, cake.id, |cart|) by {
      forall i | 0 <= i < |once| && IsStandardLineOf(once[i], cake.id)
        ensures i == |cart|
      {
      }
    }
    AddToCartMerges(once, cake, |cart|);
  }

  /** When the catalog-cake lines with this id carry the cake's price,
      adding the cake raises the total by exactly that price. */
  lemma AddToCartTotal(cart: seq<CartItem>, cake: Cake)
    requires StandardIdsUnique(cart)
    requires forall i :: 0 <= i < |cart| && IsStandardLineOf(cart[i], cake.id) ==> cart[i].price == cake.price
    ensures CartTotal(AddToCart(cart, cake)) == CartTotal(cart) + cake.price
  {
    if HasStandardLine(cart, cake.id) {
      var k :| 0 <= k < |cart| && IsStandardLineOf(cart[k], cake.id);
      UniqueGivesOnly(cart, cake.id, k);
      MergeTotal(cart, cake, k);
    } else {
      CartTotalAppend(cart, StandardLine(cake));
    }
  }

  lemma MergeTotal(cart: seq<CartItem>, cake: Cake, k: nat)
    requires OnlyStandardLine(cart, cake.id, k) && cart[k].price == cake.price
    ensures CartTotal(AddToCart(cart, cake)) == CartTotal(cart) + cake.price
  {
    var bumped := cart[k].(quantity := cart[k].quantity + 1);
    AddToCartMerges(cart, cake, k);
    CartTotalReplace(cart, k, bumped);
    OneMoreUnit(cart[k]);
  }

  lemma AddToCartWellFormed(cart: seq<CartItem>, cake: Cake)
    requires WellFormed(cart)
    ensures WellFormed(AddToCart(cart, cake))
  {
    var r := AddToCart(cart, cake);
    if HasStandardLine(cart, cake.id) {
      assert forall i :: 0 <= i < |r| ==> r[i].id == cart[i].id && r[i].isCustom == cart[i].isCustom;
      SameIdsAndKinds(cart, r, cake.id);
    } else {
      forall i, j | 0 <= i < j < |r| && !r[i].isCustom
        ensures !IsStandardLineOf(r[j], r[i].id)
      {
        if j == |cart| {
          assert !IsStandardLineOf(cart[i], cake.id);
        }
      }
    }
  }

  /** Built-cake line ids: the prefix and the creation time in milliseconds. */
  function CustomLineId(now: nat): (id: string)
    ensures "custom-" <= id
    ensures |id| > 7 && AllDigits(id[7..])
  {
    "custom-" + NatToString(now)
  }

  /** Built cakes created at different times get different ids. */
  lemma CustomLineIdsDistinct(t1: nat, t2: nat)
    requires t1 != t2
    ensures CustomLineId(t1) != CustomLineId(t2)
  {
    if CustomLineId(t1) == CustomLineId(t2) {
      assert CustomLineId(t1)[7..] == NatToString(t1);
      assert CustomLineId(t2)[7..] == NatToString(t2);
      NatToStringInjective(t1, t2);
    }
  }

  /** No built-cake id is the id of a catalog cake. */
  lemma CustomLineIdNotInCatalog(now: nat)
    ensures forall i :: 0 <= i < |INITIAL_CAKES| ==> INITIAL_CAKES[i].id != CustomLineId(now)
  {
    CatalogIds();
  }

  /** The line a finished configuration becomes.  Its stored price is the
      configured price per kilogram, so price times weight is the configured
      price, and it adds exactly that price to the total. */
  function CustomLine(config: CustomCakeConfig, now: nat): (line: CartItem)
    requires config.weight != 0.0
    ensures line.id == CustomLineId(now)
    ensures line.isCustom && line.quantity == 1 && line.configuration == Some(config)
    ensures line.weight == config.weight && line.category == General && line.rating == 5.0
    ensures line.name == "Custom " + config.flavor.name + " Cake"
    ensures line.description == config.filling.name + ", " + config.frosting.name
    ensures line.price * line.weight == CustomPrice(config)
    ensures LineTotal(line) == CustomPrice(config)
  {
    CartItem(CustomLineId(now), "Custom " + config.flavor.name + " Cake",
      config.filling.name + ", " + config.frosting.name,
      CustomPrice(config) / config.weight, General, CUSTOM_IMAGE_URL, 5.0,
      1, config.weight, true, Some(config))
  }

  /** Appending a built cake keeps the invariant and raises the total by its
      configured price. */
  lemma AddCustomLine(cart: seq<CartItem>, config: CustomCakeConfig, now: nat)
    requires WellFormed(cart) && config.weight != 0.0
    ensures WellFormed(cart + [CustomLine(config, now)])
    ensures CartTotal(cart + [CustomLine(config, now)]) == CartTotal(cart) + CustomPrice(config)
  {
    CartTotalAppend(cart, CustomLine(config, now));
  }

  /** "Order now": any line with the cake's id, built or not, leaves the
      basket as it is; otherwise one unit of the cake is appended. */
  function BuyNow(cart: seq<CartItem>, cake: Cake): (r: seq<CartItem>)
    ensures HasLine(r, cake.id)
    ensures cart <= r && |r| <= |cart| + 1
    ensures HasLine(cart, cake.id) <==> r == cart
    ensures !HasLine(cart, cake.id) ==> r[|cart|] == StandardLine(cake)
  {
    if HasLine(cart, cake.id) then cart
    else
      assert (cart + [StandardLine(cake)])[|cart|].id == cake.id;
      cart + [StandardLine(cake)]
  }

  /** Ordering the same cake again changes nothing. */
  lemma BuyNowIdempotent(cart: seq<CartItem>, cake: Cake)
    ensures BuyNow(BuyNow(cart, cake), cake) == BuyNow(cart, cake)
  {
  }

  lemma BuyNowWellFormed(cart: seq<CartItem>, cake: Cake)
    requires WellFormed(cart)
    ensures WellFormed(BuyNow(cart, cake))
  {
    var r := BuyNow(cart, cake);
    if !HasLine(cart, cake.id) {
      forall i, j | 0 <= i < j < |r| && !r[i].isCustom
        ensures !IsStandardLineOf(r[j], r[i].id)
      {
        if j == |cart| {
          assert cart[i].id != cake.id;
        }
      }
    }
  }

  /** Changing the quantity of every line with this id by delta, never below
      one; nothing else about any line changes. */
  function UpdateQuantity(cart: seq<CartItem>, id: string, delta: int): (r: seq<CartItem>)
    ensures |r| == |cart|
    ensures forall i :: 0 <= i < |cart| ==> r[i] == cart[i].(quantity := r[i].quantity)
    ensures forall i :: 0 <= i < |cart| && cart[i].id != id ==> r[i] == cart[i]
    ensures forall i :: 0 <= i < |cart| && cart[i].id == id ==>
      r[i].quantity >= 1 && r[i].quantity >= cart[i].quantity + delta
      && (r[i].quantity == 1 || r[i].quantity == cart[i].quantity + delta)
  {
    seq(|cart|, i requires 0 <= i < |cart| =>
      if cart[i].id == id then cart[i].(quantity := Max(1, cart[i].quantity + delta)) else cart[i])
  }

  lemma UpdateQuantityWellFormed(cart: seq<CartItem>, id: string, delta: int)
    requires WellFormed(cart)
    ensures WellFormed(UpdateQuantity(cart, id, delta))
  {
    var r := UpdateQuantity(cart, id, delta);
    SameIdsAndKinds(cart, r, id);
  }

  /** On a basket of positive quantities, the plus button followed by the
      minus button restores the basket. */
  lemma UpdateQuantityUndo(cart: seq<CartItem>, id: string)
    requires QuantitiesPositive(cart)
    ensures UpdateQuantity(UpdateQuantity(cart, id, 1), id, -1) == cart
  {
    var r := UpdateQuantity(UpdateQuantity(cart, id, 1), id, -1);
    forall i | 0 <= i < |cart|
      ensures r[i] == cart[i]
    {
    }
  }

  /** A quantity change never alters what a built cake adds to the total. */
  lemma UpdateQuantityKeepsCustomContribution(cart: seq<CartItem>, id: string, delta: int, k: nat)
    requires k < |cart| && cart[k].isCustom && cart[k].configuration.Some?
    ensures LineTotal(UpdateQuantity(cart, id, delta)[k]) == LineTotal(cart[k])
  {
  }

  /** Removing every line with this id; the rest keep their order. */
  function RemoveFromCart(cart: seq<CartItem>, id: string): (r: seq<CartItem>)
    ensures !HasLine(r, id)
    ensures forall i :: 0 <= i < |r| ==> r[i] in cart
    ensures forall i :: 0 <= i < |cart| && cart[i].id != id ==> cart[i] in r
  {
    Filter(cart, (item: CartItem) => item.id != id)
  }

  /** The lines that removal takes out. */
  function LinesWithId(cart: seq<CartItem>, id: string): (r: seq<CartItem>)
    ensures forall i :: 0 <= i < |r| ==> r[i] in cart && r[i].id == id
  {
    Filter(cart, (item: CartItem) => item.id == id)
  }

  /** Removal works line by line in order: what survives of a prefix comes
      before what survives of the rest. */
  lemma RemoveFromCartConcat(a: seq<CartItem>, b: seq<CartItem>, id: string)
    ensures RemoveFromCart(a + b, id) == RemoveFromCart(a, id) + RemoveFromCart(b, id)
  {
    FilterConcat(a, b, (item: CartItem) => item.id != id);
  }

  /** Removing an id that no line has leaves the basket as it is. */
  lemma RemoveAbsentId(cart: seq<CartItem>, id: string)
    requires !HasLine(cart, id)
    ensures RemoveFromCart(cart, id) == cart
  {
    FilterKeepsAll(cart, (item: CartItem) => item.id != id);
  }

  /** The total splits into what removal keeps and what it takes out. */
  lemma {:induction false} RemoveFromCartTotal(cart: seq<CartItem>, id: string)
    ensures CartTotal(cart) == CartTotal(RemoveFromCart(cart, id)) + CartTotal(LinesWithId(cart, id))
  {
    if cart != [] {
      var head, tail := cart[0], cart[1..];
      assert cart == [head] + tail;
      RemoveFromCartTotal(tail, id);
      CartTotalConcat([head], tail);
      CartTotalSingle(head);
      if head.id == id {
        assert RemoveFromCart(cart, id) == RemoveFromCart(tail, id);
        assert LinesWithId(cart, id) == [head] + LinesWithId(tail, id);
        CartTotalConcat([head], LinesWithId(tail, id));
      } else {
        assert RemoveFromCart(cart, id) == [head] + RemoveFromCart(tail, id);
        assert LinesWithId(cart, id) == LinesWithId(tail, id);
        CartTotalConcat([head], RemoveFromCart(tail, id));
      }
    }
  }

  /** Dropping the first line keeps the invariant. */
  lemma WellFormedTail(cart: seq<CartItem>)
    requires WellFormed(cart) && cart != []
    ensures WellFormed(cart[1..])
  {
    var tail := cart[1..];
    forall i, j | 0 <= i < j < |tail| && !tail[i].isCustom
      ensures !IsStandardLineOf(tail[j], tail[i].id)
    {
      assert tail[i] == cart[i + 1] && tail[j] == cart[j + 1];
    }
  }

  /** Putting a line in front of a well-formed basket keeps the invariant
      when its quantity is positive and, for a catalog-cake line, no line
      behind it is a catalog-cake line with its id. */
  lemma WellFormedCons(head: CartItem, rest: seq<CartItem>)
    requires WellFormed(rest) && head.quantity >= 1
    requires !head.isCustom ==> !HasStandardLine(rest, head.id)
    ensures WellFormed([head] + rest)
  {
    var r := [head] + rest;
    forall i, j | 0 <= i < j < |r| && !r[i].isCustom
      ensures !IsStandardLineOf(r[j], r[i].id)
    {
      assert r[j] == rest[j - 1];
      if i > 0 {
        assert r[i] == rest[i - 1];
      }
    }
  }

  /** Removal keeps the invariant. */
  lemma {:induction false} RemoveFromCartWellFormed(cart: seq<CartItem>, id: string)
    requires WellFormed(cart)
    ensures WellFormed(RemoveFromCart(cart, id))
  {
    if cart != [] {
      var head, tail := cart[0], cart[1..];
      WellFormedTail(cart);
      RemoveFromCartWellFormed(tail, id);
      var rest := RemoveFromCart(tail, id);
      if head.id == id {
        assert RemoveFromCart(cart, id) == rest;
      } else {
        assert RemoveFromCart(cart, id) == [head] + rest;
        WellFormedCons(head, rest);
      }
    }
  }
}
