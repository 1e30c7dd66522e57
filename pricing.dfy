/** Prices: the custom-cake price, what one basket line contributes, the
    basket total and the summary total with the delivery fee. */
module Pricing {
  import opened Types
  import opened Catalog

  /** The flat delivery fee the basket summary adds on top of the total. */
  const DELIVERY_FEE: real := 300.0

  /** The weights the builder's slider produces: 1 to 5 kg in steps of 0.5. */
  predicate SliderWeight(w: real) {
    2.0 <= 2.0 * w <= 10.0 && (2.0 * w).Floor as real == 2.0 * w
  }

  /** Options drawn from the three tables. */
  predicate CatalogOptions(c: CustomCakeConfig) {
    IsFlavor(c.flavor) && IsFilling(c.filling) && IsFrosting(c.frosting)
  }

  /** The price of a configured cake: base rate times weight, plus the sum of
      the three modifiers times weight. */
  function CustomPrice(c: CustomCakeConfig): real {
    BASE_PRICE_PER_KG * c.weight
      + (c.flavor.priceModifier + c.filling.priceModifier + c.frosting.priceModifier) * c.weight
  }

  /** The per-kilogram rate of a configuration. */
  function RatePerKg(c: CustomCakeConfig): real {
    BASE_PRICE_PER_KG + c.flavor.priceModifier + c.filling.priceModifier + c.frosting.priceModifier
  }

  /** The price is the per-kilogram rate times the weight. */
  lemma CustomPriceIsRateTimesWeight(c: CustomCakeConfig)
    ensures CustomPrice(c) == RatePerKg(c) * c.weight
  {
  }

  /** The price is linear in weight with the options fixed; in particular
      doubling the weight doubles the price. */
  lemma CustomPriceScalesWithWeight(c: CustomCakeConfig, k: real)
    ensures CustomPrice(c.(weight := k * c.weight)) == k * CustomPrice(c)
    ensures CustomPrice(c.(weight := 2.0 * c.weight)) == 2.0 * CustomPrice(c)
  {
    CustomPriceIsRateTimesWeight(c);
    CustomPriceIsRateTimesWeight(c.(weight := k * c.weight));
    CustomPriceIsRateTimesWeight(c.(weight := 2.0 * c.weight));
  }

  /** With the shipped options the price is at least the base rate times the
      weight, and it does not decrease as the weight grows. */
  lemma CustomPriceAtLeastBaseAndMonotone(c: CustomCakeConfig, heavier: real)
    requires CatalogOptions(c)
    requires 0.0 <= c.weight <= heavier
    ensures CustomPrice(c) >= BASE_PRICE_PER_KG * c.weight
    ensures CustomPrice(c) <= CustomPrice(c.(weight := heavier))
  {
    ModifierNonNegative(c.flavor);
    ModifierNonNegative(c.filling);
    ModifierNonNegative(c.frosting);
    NonNegativeModifiersBound(c, heavier);
  }

  lemma NonNegativeModifiersBound(c: CustomCakeConfig, heavier: real)
    requires c.flavor.priceModifier >= 0.0 && c.filling.priceModifier >= 0.0 && c.frosting.priceModifier >= 0.0
    requires 0.0 <= c.weight <= heavier
    ensures CustomPrice(c) >= BASE_PRICE_PER_KG * c.weight
    ensures CustomPrice(c) <= CustomPrice(c.(weight := heavier))
  {
    var m := c.flavor.priceModifier + c.filling.priceModifier + c.frosting.priceModifier;
    MulNonNegative(m, c.weight);
    CustomPriceIsRateTimesWeight(c);
    CustomPriceIsRateTimesWeight(c.(weight := heavier));
    MulMonotone(RatePerKg(c), c.weight, heavier);
  }

  lemma MulNonNegative(x: real, y: real)
    requires x >= 0.0 && y >= 0.0
    ensures x * y >= 0.0
  {
  }

  lemma MulMonotone(x: real, y: real, z: real)
    requires x >= 0.0 && y <= z
    ensures x * y <= x * z
  {
    MulNonNegative(x, z - y);
  }

  /** A product of whole numbers is whole. */
  lemma WholeProduct(x: real, y: real)
    requires x.Floor as real == x && y.Floor as real == y
    ensures (x * y).Floor as real == x * y
  {
    var i, j := x.Floor, y.Floor;
    assert (i * j) as real == i as real * j as real;
    assert x * y == (i * j) as real;
    assert ((i * j) as real).Floor == i * j;
  }

  /** Half the per-kilogram rate of shipped options is a whole number. */
  lemma HalfRateIsWhole(c: CustomCakeConfig)
    requires CatalogOptions(c)
    ensures (RatePerKg(c) / 2.0).Floor as real == RatePerKg(c) / 2.0
  {
    ModifiersAreWholeFifties(c.flavor);
    ModifiersAreWholeFifties(c.filling);
    ModifiersAreWholeFifties(c.frosting);
    var a := (c.flavor.priceModifier / 50.0).Floor;
    var b := (c.filling.priceModifier / 50.0).Floor;
    var d := (c.frosting.priceModifier / 50.0).Floor;
    assert RatePerKg(c) / 2.0 == (1000 + 25 * a + 25 * b + 25 * d) as real;
  }

  /** A rate whose half is whole, times a weight whose double is whole, is
      whole. */
  lemma WholeRateTimesWeight(rate: real, w: real)
    requires (rate / 2.0).Floor as real == rate / 2.0
    requires (2.0 * w).Floor as real == 2.0 * w
    ensures (rate * w).Floor as real == rate * w
  {
    var half, halves := rate / 2.0, 2.0 * w;
    assert rate * w == half * halves;
    WholeProduct(half, halves);
  }

  /** With the shipped options and a slider weight the price is a whole
      number of KES. */
  lemma CustomPriceIsWhole(c: CustomCakeConfig)
    requires CatalogOptions(c) && SliderWeight(c.weight)
    ensures CustomPrice(c).Floor as real == CustomPrice(c)
  {
    HalfRateIsWhole(c);
    WholeHalfRateGivesWholePrice(c);
  }

  lemma WholeHalfRateGivesWholePrice(c: CustomCakeConfig)
    requires (RatePerKg(c) / 2.0).Floor as real == RatePerKg(c) / 2.0
    requires SliderWeight(c.weight)
    ensures CustomPrice(c).Floor as real == CustomPrice(c)
  {
    WholeRateTimesWeight(RatePerKg(c), c.weight);
    CustomPriceIsRateTimesWeight(c);
  }

  /** Rich Chocolate with Dark Chocolate Ganache and a Semi-Naked finish at
      2 kg costs 5000 KES. */
  lemma ChocolateGanacheExample()
    ensures CustomPrice(CustomCakeConfig(CAKE_FLAVORS[1], CAKE_FILLINGS[1], CAKE_FROSTINGS[0], [], 2.0, "")) == 5000.0
  {
  }

  /** What one line adds to the basket total: a built cake with its
      configuration adds its configured price, whatever its quantity; any
      other line adds price times quantity. */
  function LineTotal(item: CartItem): real {
    if item.isCustom && item.configuration.Some? then CustomPrice(item.configuration.value)
    else item.price * item.quantity as real
  }

  /** The basket total, folded from the left as `reduce` does. */
  function CartTotal(cart: seq<CartItem>): real {
    if cart == [] then 0.0 else CartTotal(cart[..|cart| - 1]) + LineTotal(cart[|cart| - 1])
  }

  /** The summary shows the total plus the delivery fee; the basket itself is
      not involved beyond its total. */
  function SummaryTotal(cart: seq<CartItem>): (r: real)
    ensures r - DELIVERY_FEE == CartTotal(cart)
  {
    CartTotal(cart) + DELIVERY_FEE
  }

  /** Appending a line adds exactly that line's contribution; the empty
      basket totals 0. */
  lemma CartTotalAppend(cart: seq<CartItem>, item: CartItem)
    ensures CartTotal([]) == 0.0
    ensures CartTotal(cart + [item]) == CartTotal(cart) + LineTotal(item)
  {
    assert (cart + [item])[..|cart|] == cart;
  }

  /** The total of a concatenation is the sum of the totals. */
  lemma {:induction false} CartTotalConcat(a: seq<CartItem>, b: seq<CartItem>)
    ensures CartTotal(a + b) == CartTotal(a) + CartTotal(b)
  {
    if b == [] {
      assert a + b == a;
    } else {
      var init, last := b[..|b| - 1], b[|b| - 1];
      assert b == init + [last];
      assert a + b == (a + init) + [last];
      CartTotalConcat(a, init);
      CartTotalAppend(a + init, last);
      CartTotalAppend(init, last);
    }
  }

  /** The total of a one-line basket is that line's contribution. */
  lemma CartTotalSingle(item: CartItem)
    ensures CartTotal([item]) == LineTotal(item)
  {
    CartTotalAppend([], item);
  }

  /** Replacing one line changes the total by the difference of the two
      lines' contributions. */
  lemma CartTotalReplace(cart: seq<CartItem>, k: nat, item: CartItem)
    requires k < |cart|
    ensures CartTotal(cart[k := item]) == CartTotal(cart) - LineTotal(cart[k]) + LineTotal(item)
  {
    var pre, post := cart[..k], cart[k + 1..];
    assert cart == pre + [cart[k]] + post;
    assert cart[k := item] == pre + [item] + post;
    CartTotalConcat(pre + [cart[k]], post);
    CartTotalConcat(pre + [item], post);
    CartTotalAppend(pre, cart[k]);
    CartTotalAppend(pre, item);
  }

  /** A line whose contribution cannot be negative. */
  predicate NonNegativeLine(item: CartItem) {
    if item.isCustom && item.configuration.Some? then
      CatalogOptions(item.configuration.value) && item.configuration.value.weight >= 0.0
    else
      item.price >= 0.0 && item.quantity >= 0
  }

  /** A basket of such lines has a non-negative total. */
  lemma {:induction false} CartTotalNonNegative(cart: seq<CartItem>)
    requires forall i :: 0 <= i < |cart| ==> NonNegativeLine(cart[i])
    ensures CartTotal(cart) >= 0.0
  {
    if cart != [] {
      var last := cart[|cart| - 1];
      CartTotalNonNegative(cart[..|cart| - 1]);
      if last.isCustom && last.configuration.Some? {
        CustomPriceAtLeastBaseAndMonotone(last.configuration.value, last.configuration.value.weight);
      } else {
        assert last.price * last.quantity as real >= 0.0;
      }
    }
  }

  /** The summary figure of a basket of such lines is never below the
      delivery fee, and it is the fee alone exactly when the lines add up to
      nothing. */
  lemma SummaryTotalCoversFee(cart: seq<CartItem>)
    requires forall i :: 0 <= i < |cart| ==> NonNegativeLine(cart[i])
    ensures SummaryTotal(cart) >= DELIVERY_FEE
    ensures SummaryTotal(cart) == DELIVERY_FEE <==> CartTotal(cart) == 0.0
  {
    CartTotalNonNegative(cart);
  }

  /** The contribution of a built cake does not depend on its quantity. */
  lemma CustomLineIgnoresQuantity(item: CartItem, q: int)
    requires item.isCustom && item.configuration.Some?
    ensures LineTotal(item.(quantity := q)) == LineTotal(item) == CustomPrice(item.configuration.value)
  {
  }
}
