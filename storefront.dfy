/** The storefront's session state: the basket, the submitted orders, the
    cake builder's step and configuration, and the last tracking result. */
module Storefront {
  import opened Types
  import opened Catalog
  import opened Pricing
  import opened Strings
  import Basket

  /** The builder's starting configuration: the first option of each
      family, 1 kg, no toppers and no message.  It costs the base rate. */
  function DefaultConfig(): (c: CustomCakeConfig)
    ensures CatalogOptions(c) && SliderWeight(c.weight)
    ensures c.weight == 1.0 && c.message == "" && c.toppers == []
    ensures CustomPrice(c) == BASE_PRICE_PER_KG == 2000.0
  {
    CustomCakeConfig(CAKE_FLAVORS[0], CAKE_FILLINGS[0], CAKE_FROSTINGS[0], [], 1.0, "")
  }

  /** The four-digit order number drawn from a random value in [0, 1). */
  function OrderNumber(random: real): (n: nat)
    requires 0.0 <= random < 1.0
    ensures 1000 <= n <= 9998
  {
    (random * 8999.0).Floor + 1000
  }

  function OrderId(n: nat): (id: string)
    ensures "JL-" <= id
  {
    "JL-" + NatToString(n)
  }

  /** An order id is "JL-" and four digits, and different numbers give
      different ids. */
  lemma OrderIdShape(random: real, other: nat)
    requires 0.0 <= random < 1.0
    requires other != OrderNumber(random)
    ensures |OrderId(OrderNumber(random))| == 7 && AllDigits(OrderId(OrderNumber(random))[3..])
    ensures OrderId(OrderNumber(random)) != OrderId(other)
  {
    var n := OrderNumber(random);
    FourDigits(n);
    assert OrderId(n)[3..] == NatToString(n);
    if OrderId(n) == OrderId(other) {
      assert OrderId(other)[3..] == NatToString(other);
      NatToStringInjective(n, other);
    }
  }

  /** The order a checkout records: a pending order under a "JL-" number
      holding the basket as it stands.  Its total is the basket total, that
      is, the summary figure without the delivery fee. */
  function NewOrder(random: real, cart: seq<CartItem>, customerName: string, date: string): (o: Order)
    requires 0.0 <= random < 1.0
    ensures "JL-" <= o.id && |o.id| == 7
    ensures o.items == cart && o.status == Pending
    ensures o.customerName == customerName && o.date == date
    ensures o.total == SummaryTotal(cart) - DELIVERY_FEE
  {
    FourDigits(OrderNumber(random));
    Order(OrderId(OrderNumber(random)), cart, CartTotal(cart), Pending, customerName, date)
  }

  /** Order lookup: the first order whose id is exactly the one asked for,
      or nothing when no order has it. */
  function FindOrder(orders: seq<Order>, id: string): (r: Option<Order>)
    ensures r.None? <==> forall i :: 0 <= i < |orders| ==> orders[i].id != id
    ensures r.Some? ==>
              exists k :: 0 <= k < |orders| && orders[k] == r.value && r.value.id == id &&
                          forall j :: 0 <= j < k ==> orders[j].id != id
  {
    if orders == [] then None
    else if orders[0].id == id then Some(orders[0])
    else
      var r := FindOrder(orders[1..], id);
      assert r.Some? ==> exists k :: 0 <= k < |orders[1..]| && orders[1..][k] == r.value && orders[k + 1] == r.value;
      r
  }

  /** The component's state and the handlers that change it. */
  class Shop {
    var cart: seq<CartItem>
    var orders: seq<Order>
    var builderStep: int
    var customConfig: CustomCakeConfig
    var trackResult: Option<Order>

    /** The step stays in 1..4, the configuration is built from the tables
        and a slider weight, the basket keeps its invariant, and every
        order is still pending. */
    ghost predicate Valid()
      reads this
    {
      1 <= builderStep <= 4
      && CatalogOptions(customConfig) && SliderWeight(customConfig.weight)
      && Basket.WellFormed(cart)
      && forall i :: 0 <= i < |orders| ==> orders[i].status == Pending
    }

    constructor ()
      ensures Valid()
      ensures cart == [] && orders == [] && trackResult == None
      ensures builderStep == 1 && customConfig == DefaultConfig()
    {
      cart := [];
      orders := [];
      builderStep := 1;
      customConfig := DefaultConfig();
      trackResult := None;
    }

    method AddToCart(cake: Cake)
      requires Valid()
      modifies this`cart
      ensures Valid()
      ensures cart == Basket.AddToCart(old(cart), cake)
    {
      Basket.AddToCartWellFormed(cart, cake);
      cart := Basket.AddToCart(cart, cake);
    }

    /** Commits the configuration as a new basket line and sends the
        builder back to step 1; the configuration itself is kept. */
    method AddCustomToCart(now: nat)
      requires Valid()
      modifies this`cart, this`builderStep
      ensures Valid()
      ensures cart == old(cart) + [Basket.CustomLine(customConfig, now)]
      ensures builderStep == 1
    {
      Basket.AddCustomLine(cart, customConfig, now);
      cart := cart + [Basket.CustomLine(customConfig, now)];
      builderStep := 1;
    }

    method BuyNow(cake: Cake)
      requires Valid()
      modifies this`cart
      ensures Valid()
      ensures cart == Basket.BuyNow(old(cart), cake)
    {
      Basket.BuyNowWellFormed(cart, cake);
      cart := Basket.BuyNow(cart, cake);
    }

    method UpdateQuantity(id: string, delta: int)
      requires Valid()
      modifies this`cart
      ensures Valid()
      ensures cart == Basket.UpdateQuantity(old(cart), id, delta)
    {
      Basket.UpdateQuantityWellFormed(cart, id, delta);
      cart := Basket.UpdateQuantity(cart, id, delta);
    }

    method RemoveFromCart(id: string)
      requires Valid()
      modifies this`cart
      ensures Valid()
      ensures cart == Basket.RemoveFromCart(old(cart), id)
    {
      Basket.RemoveFromCartWellFormed(cart, id);
      cart := Basket.RemoveFromCart(cart, id);
    }

    /** The "Next Step" button, shown only before the last step. */
    method NextStep()
      requires Valid() && builderStep < 4
      modifies this`builderStep
      ensures Valid()
      ensures builderStep == old(builderStep) + 1
    {
      builderStep := builderStep + 1;
    }

    /** The "Back" button, shown only after the first step. */
    method PreviousStep()
      requires Valid() && builderStep > 1
      modifies this`builderStep
      ensures Valid()
      ensures builderStep == old(builderStep) - 1
    {
      builderStep := builderStep - 1;
    }

    method SetFlavor(flavor: BuilderOption)
      requires Valid() && IsFlavor(flavor)
      modifies this`customConfig
      ensures Valid()
      ensures customConfig == old(customConfig).(flavor := flavor)
    {
      customConfig := customConfig.(flavor := flavor);
    }

    method SetFilling(filling: BuilderOption)
      requires Valid() && IsFilling(filling)
      modifies this`customConfig
      ensures Valid()
      ensures customConfig == old(customConfig).(filling := filling)
    {
      customConfig := customConfig.(filling := filling);
    }

    method SetFrosting(frosting: BuilderOption)
      requires Valid() && IsFrosting(frosting)
      modifies this`customConfig
      ensures Valid()
      ensures customConfig == old(customConfig).(frosting := frosting)
    {
      customConfig := customConfig.(frosting := frosting);
    }

    /** The weight slider: 1 to 5 kg in steps of 0.5. */
    method SetWeight(weight: real)
      requires Valid() && SliderWeight(weight)
      modifies this`customConfig
      ensures Valid()
      ensures customConfig == old(customConfig).(weight := weight)
    {
      customConfig := customConfig.(weight := weight);
    }

    method SetMessage(message: string)
      requires Valid()
      modifies this`customConfig
      ensures Valid()
      ensures customConfig == old(customConfig).(message := message)
    {
      customConfig := customConfig.(message := message);
    }

    /** Checkout: a pending order holding a copy of the basket and its
        total is appended under a fresh "JL-" number, and the basket is
        emptied.  The random value, the customer's name and the timestamp
        come from outside. */
    method Checkout(random: real, customerName: string, date: string)
      requires Valid() && 0.0 <= random < 1.0
      modifies this`cart, this`orders
      ensures Valid()
      ensures orders == old(orders) + [NewOrder(random, old(cart), customerName, date)]
      ensures orders[|orders| - 1].total == SummaryTotal(old(cart)) - DELIVERY_FEE
      ensures cart == []
    {
      orders := orders + [NewOrder(random, cart, customerName, date)];
      cart := [];
    }

    method TrackOrder(trackId: string)
      requires Valid()
      modifies this`trackResult
      ensures Valid()
      ensures trackResult == FindOrder(orders, trackId)
    {
      trackResult := FindOrder(orders, trackId);
    }
  }

  /** Back then Next returns the builder to the same step with the same
      configuration and basket. */
  method BackThenNext(shop: Shop)
    requires shop.Valid() && shop.builderStep > 1
    modifies shop
    ensures shop.Valid()
    ensures shop.builderStep == old(shop.builderStep)
    ensures shop.customConfig == old(shop.customConfig) && shop.cart == old(shop.cart)
  {
    shop.PreviousStep();
    shop.NextStep();
  }

  /** Checking out the first order and then tracking its id finds that
      order. */
  method CheckoutAndTrack(shop: Shop, random: real, customerName: string, date: string)
    requires shop.Valid() && shop.orders == [] && 0.0 <= random < 1.0
    modifies shop
    ensures shop.Valid() && shop.cart == []
    ensures shop.orders == [NewOrder(random, old(shop.cart), customerName, date)]
    ensures shop.trackResult == Some(shop.orders[0])
  {
    var basket := shop.cart;
    shop.Checkout(random, customerName, date);
    var order := NewOrder(random, basket, customerName, date);
    shop.TrackOrder(order.id);
  }

  /** A fresh session that adds the first catalog cake twice and commits
      the default built cake holds two lines worth 7000 in total. */
  method SampleBasket(now: nat) returns (shop: Shop)
    ensures fresh(shop) && shop.Valid() && shop.orders == []
    ensures |shop.cart| == 2 && shop.cart[0].quantity == 2 && shop.cart[1].isCustom
    ensures CartTotal(shop.cart) == 7000.0
  {
    shop := new Shop();
    var cake := INITIAL_CAKES[0];
    shop.AddToCart(cake);
    shop.AddToCart(cake);
    Basket.AddToCartTwice([], cake);
    var first := Basket.StandardLine(cake).(quantity := 2);
    assert shop.cart == [first];
    shop.NextStep();
    shop.NextStep();
    shop.NextStep();
    shop.AddCustomToCart(now);
    var line := Basket.CustomLine(DefaultConfig(), now);
    assert shop.cart == [first, line];
    CartTotalAppend([first], line);
    CartTotalSingle(first);
  }

  /** A session: build the sample basket, check out, then find the order by
      its id; the order records the basket total of 7000. */
  method Session(now: nat, random: real)
    requires 0.0 <= random < 1.0
  {
    var shop := SampleBasket(now);
    CheckoutAndTrack(shop, random, "Wanjiku", "2024-01-10");
    assert shop.orders[0].total == 7000.0 && shop.trackResult == Some(shop.orders[0]);
  }
}
