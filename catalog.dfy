/** The bakery's fixed tables: the three builder option families, the base
    price per kilogram and the initial catalog of cakes. */
module Catalog {
  import opened Types

  const BASE_PRICE_PER_KG: real := 2000.0

  const CAKE_FLAVORS: seq<BuilderOption> := [
    BuilderOption("vanilla", "Classic Vanilla", 0.0, Some("Light, fluffy, and timeless.")),
    BuilderOption("chocolate", "Rich Chocolate", 200.0, Some("Decadent dark cocoa sponge.")),
    BuilderOption("redvelvet", "Red Velvet", 300.0, Some("Mild cocoa with a buttermilk tang.")),
    BuilderOption("fruit", "Kenyan Fruit Cake", 500.0, Some("Traditional spiced fruit cake.")),
    BuilderOption("blueberry", "Blueberry Burst", 400.0, Some("Infused with real blueberries."))
  ]

  const CAKE_FILLINGS: seq<BuilderOption> := [
    BuilderOption("buttercream", "Vanilla Buttercream", 0.0, None),
    BuilderOption("choc_ganache", "Dark Chocolate Ganache", 300.0, None),
    BuilderOption("creamcheese", "Cream Cheese", 400.0, None),
    BuilderOption("freshcream", "Fresh Whipped Cream", 200.0, None),
    BuilderOption("lemon", "Lemon Curd", 250.0, None)
  ]

  const CAKE_FROSTINGS: seq<BuilderOption> := [
    BuilderOption("semi_naked", "Semi-Naked (Rustic)", 0.0, None),
    BuilderOption("smooth", "Smooth Buttercream", 200.0, None),
    BuilderOption("fondant", "Fondant Finish", 800.0, None),
    BuilderOption("rosette", "Rosette Texture", 400.0, None)
  ]

  const INITIAL_CAKES: seq<Cake> := [
    Cake("1", "Classic Black Forest",
      "Layers of rich chocolate sponge, whipped cream, and cherries. A Kenyan favorite.",
      2500.0, Birthday,
      "https://images.unsplash.com/photo-1606313564200-e75d5e30476c?q=80&w=800&auto=format&fit=crop", 4.8),
    Cake("2", "Elegant Gold Drip Graduation",
      "Vanilla sponge with buttercream frosting and a gold drip finish. Includes custom topper.",
      4500.0, Graduation,
      "https://images.unsplash.com/photo-1562440499-64c9a111f713?q=80&w=800&auto=format&fit=crop", 4.9),
    Cake("3", "Scholars Chocolate Delight",
      "A rich chocolate fudge cake with gold accents, perfect for celebrating academic success.",
      5500.0, Graduation,
      "https://images.unsplash.com/photo-1578985545062-69928b1d9587?q=80&w=800&auto=format&fit=crop", 5.0),
    Cake("4", "3-Tier Floral Wedding Cake",
      "Elegant white fondant with handcrafted sugar flowers. Flavors: Red Velvet, Vanilla, and Fruit Cake.",
      14500.0, Wedding,
      "https://images.unsplash.com/photo-1535254973040-607b474cb50d?q=80&w=800&auto=format&fit=crop", 4.9),
    Cake("5", "Rustic Semi-Naked Wedding Cake",
      "Lightly frosted with fresh flowers and berries. Lemon and Blueberry flavor.",
      11000.0, Wedding,
      "https://images.unsplash.com/photo-1519340333755-56e9c1d04579?q=80&w=800&auto=format&fit=crop", 4.7),
    Cake("w3", "Royal Gold & White Tier",
      "A majestic 4-tier cake with edible gold leaf and white roses. Perfect for grand weddings.",
      15000.0, Wedding,
      "https://images.unsplash.com/photo-1623428187969-5da2dcea5ebf?q=80&w=800&auto=format&fit=crop", 5.0),
    Cake("w4", "Classic Kenyan Fruit Cake",
      "Traditional rich fruit cake, matured with brandy and covered in hard icing.",
      13500.0, Wedding,
      "https://images.unsplash.com/photo-1614707267537-b85aaf00c4b7?q=80&w=800&auto=format&fit=crop", 4.8),
    Cake("w5", "Modern Minimalist",
      "Smooth buttercream finish with a single statement flower. Simple and chic.",
      9500.0, Wedding,
      "https://images.unsplash.com/photo-1560180474-e8563fd75bab?q=80&w=800&auto=format&fit=crop", 4.6),
    Cake("6", "Colorful Funfetti Surprise",
      "Bright and colorful cake with sprinkles inside and out. Perfect for kids parties!",
      3500.0, KidsCorner,
      "https://images.unsplash.com/photo-1621303837174-89787a7d4729?q=80&w=800&auto=format&fit=crop", 4.8),
    Cake("7", "Unicorn Fantasy",
      "Pastel colors, whimsical decorations, and sweet strawberry swirl flavor.",
      3200.0, KidsCorner,
      "https://images.unsplash.com/photo-1586985289688-ca3cf47d3e6e?q=80&w=800&auto=format&fit=crop", 4.9),
    Cake("8", "Red Velvet Supreme",
      "Rich red velvet sponge with smooth cream cheese frosting.",
      2800.0, General,
      "https://images.unsplash.com/photo-1616541823729-00fe0aacd32c?q=80&w=800&auto=format&fit=crop", 4.6),
    Cake("9", "Blueberry Lemon Zest",
      "Fresh lemon sponge with blueberry compote filling. Light and refreshing.",
      3000.0, General,
      "https://images.unsplash.com/photo-1488477304112-4944851de03d?q=80&w=800&auto=format&fit=crop", 4.7)
  ]

  predicate IsFlavor(o: BuilderOption) { o in CAKE_FLAVORS }
  predicate IsFilling(o: BuilderOption) { o in CAKE_FILLINGS }
  predicate IsFrosting(o: BuilderOption) { o in CAKE_FROSTINGS }

  /** A whole, non-negative amount of KES that is a multiple of 50. */
  predicate WholeFifties(x: real) {
    x >= 0.0 && x == 50.0 * ((x / 50.0).Floor as real)
  }

  predicate DistinctOptionIds(s: seq<BuilderOption>) {
    forall i, j :: 0 <= i < j < |s| ==> s[i].id != s[j].id
  }

  predicate DistinctCakeIds(s: seq<Cake>) {
    forall i, j :: 0 <= i < j < |s| ==> s[i].id != s[j].id
  }

  /** The first option of each family costs nothing extra: these are the
      builder's defaults. */
  lemma FirstOptionsAreFree()
    ensures CAKE_FLAVORS[0].priceModifier == 0.0
    ensures CAKE_FILLINGS[0].priceModifier == 0.0
    ensures CAKE_FROSTINGS[0].priceModifier == 0.0
  {
  }

  /** Every option of every family has a non-negative whole modifier, a
      multiple of 50 KES. */
  lemma ModifiersAreWholeFifties(o: BuilderOption)
    requires IsFlavor(o) || IsFilling(o) || IsFrosting(o)
    ensures WholeFifties(o.priceModifier)
    ensures o.priceModifier.Floor as real == o.priceModifier
  {
    var m := o.priceModifier;
    assert m == 0.0 || m == 200.0 || m == 250.0 || m == 300.0 || m == 400.0 || m == 500.0 || m == 800.0;
    assert (m / 50.0).Floor as real == m / 50.0;
  }

  /** Every option's modifier is non-negative. */
  lemma ModifierNonNegative(o: BuilderOption)
    requires IsFlavor(o) || IsFilling(o) || IsFrosting(o)
    ensures o.priceModifier >= 0.0
  {
    ModifiersAreWholeFifties(o);
  }

  /** Within each family the option ids are pairwise distinct. */
  lemma OptionIdsDistinct()
    ensures |CAKE_FLAVORS| == 5 && |CAKE_FILLINGS| == 5 && |CAKE_FROSTINGS| == 4
    ensures DistinctOptionIds(CAKE_FLAVORS)
    ensures DistinctOptionIds(CAKE_FILLINGS)
    ensures DistinctOptionIds(CAKE_FROSTINGS)
  {
  }

  /** Catalog ids are pairwise distinct and none of them starts with the
      prefix of built-cake line ids. */
  lemma CatalogIds()
    ensures DistinctCakeIds(INITIAL_CAKES)
    ensures forall i :: 0 <= i < |INITIAL_CAKES| ==> !("custom-" <= INITIAL_CAKES[i].id)
  {
  }

  /** Every catalog price is a positive whole number of KES. */
  lemma CatalogPricesPositiveWhole()
    ensures forall i :: 0 <= i < |INITIAL_CAKES| ==>
      INITIAL_CAKES[i].price > 0.0 && INITIAL_CAKES[i].price.Floor as real == INITIAL_CAKES[i].price
  {
  }
}
