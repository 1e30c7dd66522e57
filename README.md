# Jayli bakery storefront: basket, pricing, cake builder and orders

This project models the logic of the Jayli bakery storefront, a single-page
web shop for a bakery. Customers browse a catalog of cakes and filter it by
category. They can also design a custom cake in a four-step builder (flavor;
filling and frosting; weight and message; review). Everything goes into a
basket. At checkout the basket becomes a pending order, and an order can be
looked up again by its id.

The model has eight modules, one file each:

- `Types`: the records (cake, builder option, custom configuration, basket
  line, order, order status, category).
- `Catalog`: the fixed tables: the five flavors, five fillings and four
  frostings with their per-kilogram modifiers, the base rate of 2000 KES/kg,
  and the twelve catalog cakes. Lemmas state the facts the rest relies on:
  the first options are free, every modifier is a whole non-negative multiple
  of 50, option ids are distinct, catalog ids are distinct and never start
  with `custom-`, and catalog prices are positive whole numbers.
- `Pricing`: the custom-cake price, what one line adds to the basket total,
  the total as a left fold (as `reduce` computes it), and the summary total
  with the 300 KES delivery fee. It proves that the price is linear and
  monotone in weight, that it is whole for the shipped data, and the worked
  example of 5000 KES. It also proves how the total behaves under append,
  concatenation and single-line replacement.
- `Lists`: an order-preserving `filter`.
- `Strings`: the decimal rendering that template literals apply to
  non-negative whole numbers. The rendering is proved injective.
- `Basket`: the handlers' list transforms: add a catalog cake (merge by id
  among non-custom lines), add a built cake (always append), "order now"
  (dedup on id whether custom or not), change a quantity (floor of 1), and
  remove by id (order kept). Each transform keeps the basket invariant: no
  two catalog lines share an id, and every quantity is at least 1. Lemmas
  give its effect on the total.
- `Menu`: the category tabs and the cakes each tab shows.
- `Storefront`: the component state as a class `Shop`, with fields `cart`,
  `orders`, `builderStep`, `customConfig` and `trackResult`. It has one
  method per handler, and each method says exactly which field it changes
  and to what. `Valid()` holds in every state: the step is in 1..4, the
  configuration comes from the tables with a slider weight, the basket
  invariant holds, and every order is pending.

Notes on how the model reads the code:

- Money, weights and ratings are `real`. Quantities and the quantity delta
  are `int`. So the stored per-kilogram price of a built cake, `price / weight`,
  is exact here.
- The weight slider produces 1 to 5 kg in steps of 0.5. `SliderWeight`
  states this range, and the builder's `SetWeight` requires it.
- An absent `isCustom` (the line that "order now" appends) is `false`. The
  code only ever tests it for truth. So "add" and "order now" append the same
  `StandardLine`.
- `Date.now()`, `Math.random()` and `new Date().toISOString()` are parameters:
  `now`, `random` (a value in [0, 1)) and `date`.
- Five behaviours of the code that are easy to miss, each modelled as
  written:
  - Committing a built cake resets only the builder step, not the
    configuration (App.tsx:128).
  - Order ids are `JL-` plus a number from 1000 to 9998, drawn at random
    (App.tsx:185), so two orders can share an id. Lookup then finds the
    earlier one.
  - A built cake stores `price / weight` as its price rather than its total
    (App.tsx:117). Its total contribution is still its configured price,
    whatever its quantity (App.tsx:159-160).
  - Two built cakes committed in the same millisecond would get the same id
    (App.tsx:114). `CustomLineIdsDistinct` proves that different timestamps
    give different ids.
  - The checkout summary shows the basket total plus the 300 delivery fee
    (App.tsx:700). The order that checkout records stores the basket total
    without the fee (App.tsx:190), and so does the WhatsApp message
    (App.tsx:213). `NewOrder` states this.

## Model

| member | source | states |
|---|---|---|
| `Catalog.FirstOptionsAreFree` | constants.ts:7-28 | the first flavor, filling and frosting each have modifier 0 |
| `Catalog.ModifiersAreWholeFifties` | constants.ts:7-28 | every option of the three families has a non-negative, whole modifier that is a multiple of 50 |
| `Catalog.OptionIdsDistinct` | constants.ts:7-28 | there are 5 flavors, 5 fillings and 4 frostings, with pairwise distinct ids within each family |
| `Catalog.CatalogIds` | constants.ts:34-143 | catalog ids are pairwise distinct and none begins with `custom-` |
| `Catalog.CatalogPricesPositiveWhole` | constants.ts:34-143 | every catalog price is a positive whole number |
| `Lists.Filter` | App.tsx:155 | the result is no longer than the input; it holds exactly the kept elements of the input |
| `Lists.FilterConcat` | App.tsx:155 | filtering distributes over concatenation, so kept elements stay in their original order |
| `Lists.FilterKeepsAll` | App.tsx:155 | when every element passes, the input comes back unchanged |
| `Strings.NatToString` | App.tsx:114 | the rendering is non-empty and all digits; it is one character exactly for numbers below 10 |
| `Strings.NatToStringInjective` | App.tsx:114 | equal renderings come from equal numbers |
| `Strings.FourDigits` | App.tsx:185 | numbers from 1000 to 9999 render as four characters |
| `Pricing.CustomPrice` | App.tsx:95-99 | definition without a contract of its own; `CustomPriceIsRateTimesWeight`, `CustomPriceScalesWithWeight`, `CustomPriceAtLeastBaseAndMonotone` and `CustomPriceIsWhole` characterise it |
| `Pricing.CustomPriceIsRateTimesWeight` | App.tsx:95-99 | the custom price equals (base + flavor + filling + frosting modifiers) × weight |
| `Pricing.CustomPriceScalesWithWeight` | App.tsx:95-99 | scaling the weight by k with options fixed scales the price by k; doubling the weight doubles it |
| `Pricing.CustomPriceAtLeastBaseAndMonotone` | App.tsx:95-99 | with shipped options, the price is at least base × weight and does not decrease as weight grows |
| `Pricing.CustomPriceIsWhole` | App.tsx:95-99 | with shipped options and a slider weight (App.tsx:411-417), the price is a whole number of KES |
| `Pricing.ChocolateGanacheExample` | constants.ts:9-30 | Rich Chocolate, Dark Chocolate Ganache and Semi-Naked at 2 kg cost 5000 |
| `Pricing.LineTotal` | App.tsx:159-162 | definition without a contract of its own; `CustomLineIgnoresQuantity`, `Basket.StandardLine` and `Basket.CustomLine` give its value for each kind of line |
| `Pricing.CartTotal` | App.tsx:158-163 | definition without a contract of its own (a left fold); `CartTotalAppend`, `CartTotalConcat`, `CartTotalReplace` and `CartTotalNonNegative` characterise it |
| `Pricing.SummaryTotal` | App.tsx:698-700 | the summary figure exceeds the basket total by exactly the 300 delivery fee |
| `Pricing.SummaryTotalCoversFee` | App.tsx:689-700 | for lines with non-negative data the summary is at least the delivery fee, and it is exactly the fee when the lines add up to nothing |
| `Pricing.CartTotalAppend` | App.tsx:158-163 | the empty basket totals 0; appending a line adds exactly that line's contribution |
| `Pricing.CartTotalConcat` | App.tsx:158-163 | the total of a concatenation is the sum of the two totals |
| `Pricing.CartTotalSingle` | App.tsx:158-163 | a one-line basket totals that line's contribution |
| `Pricing.CartTotalReplace` | App.tsx:158-163 | replacing one line changes the total by the difference of the two contributions |
| `Pricing.CartTotalNonNegative` | App.tsx:158-163 | a basket of lines with non-negative prices, quantities, weights and shipped options has a non-negative total |
| `Pricing.CustomLineIgnoresQuantity` | App.tsx:159-160 | a custom line with a configuration contributes its configured price whatever its quantity |
| `Basket.StandardLine` | App.tsx:107 | a catalog cake becomes a non-custom line with its id and price, quantity 1 and weight 1, contributing its price |
| `Basket.AddToCart` | App.tsx:101-109 | afterwards a non-custom line with the cake's id exists; the length grows by one only when none existed, and then the line is appended; other lines are unchanged |
| `Basket.AddToCartMerges` | App.tsx:103-105 | when exactly one non-custom line matches, its quantity goes up by exactly 1 and nothing else changes |
| `Basket.AddToCartTwice` | App.tsx:101-109 | adding the same catalog cake twice to a basket without it gives one line with quantity 2 |
| `Basket.AddToCartTotal` | App.tsx:101-109 | with unique catalog lines at the cake's price, adding the cake raises the total by exactly its price |
| `Basket.AddToCartWellFormed` | App.tsx:101-109 | adding a catalog cake keeps the basket invariant (unique non-custom ids, quantities at least 1) |
| `Basket.CustomLineId` | App.tsx:114 | a built-cake id is `custom-` followed by digits |
| `Basket.CustomLineIdsDistinct` | App.tsx:114 | built cakes created at different times get different ids |
| `Basket.CustomLineIdNotInCatalog` | App.tsx:114 | no built-cake id equals a catalog cake id |
| `Basket.CustomLine` | App.tsx:111-125 | the built-cake line is custom, quantity 1, weight and configuration from the builder, with the code's name, description, category and rating; its price × weight equals the custom price, and it contributes exactly that price |
| `Basket.AddCustomLine` | App.tsx:127 | appending a built cake keeps the basket invariant and raises the total by its custom price |
| `Basket.BuyNow` | App.tsx:132-140 | the result has a line with the cake's id; it equals the input exactly when some line (custom or not) already had that id; otherwise the one appended line is the cake's standard line |
| `Basket.BuyNowIdempotent` | App.tsx:132-140 | ordering the same cake again changes nothing |
| `Basket.BuyNowWellFormed` | App.tsx:132-140 | "order now" keeps the basket invariant |
| `Basket.UpdateQuantity` | App.tsx:145-152 | length and order are kept and only quantities change; lines with other ids are unchanged; matching lines get max(1, quantity + delta) |
| `Basket.UpdateQuantityWellFormed` | App.tsx:145-152 | changing a quantity keeps the basket invariant |
| `Basket.UpdateQuantityUndo` | App.tsx:145-152 | with positive quantities, +1 followed by −1 gives back the same basket |
| `Basket.UpdateQuantityKeepsCustomContribution` | App.tsx:145-152 | a quantity change never alters what a built cake adds to the total |
| `Basket.RemoveFromCart` | App.tsx:154-156 | no line with the id remains; every other line remains; nothing new appears |
| `Basket.RemoveFromCartConcat` | App.tsx:154-156 | removal distributes over concatenation, so survivors keep their relative order |
| `Basket.RemoveAbsentId` | App.tsx:154-156 | removing an id no line has leaves the basket unchanged |
| `Basket.RemoveFromCartTotal` | App.tsx:154-163 | the old total is the remaining total plus the total of the removed lines |
| `Basket.RemoveFromCartWellFormed` | App.tsx:154-156 | removal keeps the basket invariant |
| `Menu.Tabs` | App.tsx:533 | six tabs, "All" first and then only category tabs; each category sits at its declaration position, so every category has its tab |
| `Menu.FilteredCakes` | App.tsx:534-536 | "All" shows every cake; a category tab shows exactly the cakes of that category |
| `Menu.FilteredCakesConcat` | App.tsx:534-536 | a tab keeps catalog order |
| `Menu.EveryTabShowsACake` | App.tsx:533-536 | with the shipped catalog no tab is empty |
| `Storefront.DefaultConfig` | App.tsx:19-26 | the starting configuration uses shipped options, 1 kg, no message and no toppers, and costs 2000 |
| `Storefront.OrderNumber` | App.tsx:185 | the order number lies between 1000 and 9998 |
| `Storefront.OrderId` | App.tsx:185 | an order id starts with `JL-` |
| `Storefront.OrderIdShape` | App.tsx:185 | an order id is seven characters, `JL-` and four digits; different numbers give different ids |
| `Storefront.NewOrder` | App.tsx:185-194 | the recorded order has a seven-character `JL-` id, the basket as its items, status Pending, the customer name and date given, and as its total the summary figure minus the delivery fee |
| `Storefront.FindOrder` | App.tsx:222-226 | nothing is found exactly when no order has the id; otherwise the result is the first order whose id equals it |
| `Storefront.Shop.Valid` | App.tsx:18-38 | the state invariant, with no contract of its own: step in 1..4, configuration from the tables with a slider weight, basket invariant, all orders pending; the constructor establishes it and every `Shop` method preserves it |
| `Storefront.Shop.constructor` | App.tsx:12-38 | the session starts with an empty basket, no orders, step 1, the default configuration and no tracking result |
| `Storefront.Shop.AddToCart` | App.tsx:101-109 | the basket becomes `Basket.AddToCart` of the old one; nothing else changes; the invariant holds |
| `Storefront.Shop.AddCustomToCart` | App.tsx:111-130 | the built-cake line is appended and the step goes back to 1; the configuration is not reset |
| `Storefront.Shop.BuyNow` | App.tsx:132-143 | the basket becomes `Basket.BuyNow` of the old one; nothing else changes |
| `Storefront.Shop.UpdateQuantity` | App.tsx:145-152 | the basket becomes `Basket.UpdateQuantity` of the old one; nothing else changes |
| `Storefront.Shop.RemoveFromCart` | App.tsx:154-156 | the basket becomes `Basket.RemoveFromCart` of the old one; nothing else changes |
| `Storefront.Shop.NextStep` | App.tsx:468-474 | from a step below 4 the step goes up by one and stays within 1..4 |
| `Storefront.Shop.PreviousStep` | App.tsx:459-466 | from a step above 1 the step goes down by one and stays within 1..4 |
| `Storefront.Shop.SetFlavor` | App.tsx:344-347 | only the flavor of the configuration changes; the step does not |
| `Storefront.Shop.SetFilling` | App.tsx:372-375 | only the filling changes; the step does not |
| `Storefront.Shop.SetFrosting` | App.tsx:388-391 | only the frosting changes; the step does not |
| `Storefront.Shop.SetWeight` | App.tsx:411-417 | only the weight changes, to a slider value; the step does not |
| `Storefront.Shop.SetMessage` | App.tsx:426-433 | only the message changes; the step does not |
| `Storefront.Shop.Checkout` | App.tsx:182-217 | the order `NewOrder` builds from the old basket is appended, its total being the summary figure minus the delivery fee; the basket is then empty |
| `Storefront.Shop.TrackOrder` | App.tsx:222-226 | the tracking result becomes the first order with exactly that id, or none |
| `Storefront.CheckoutAndTrack` | App.tsx:182-226 | checking out the first order empties the basket, records `NewOrder` of the old basket, and tracking its id then finds exactly that order |
| `Storefront.SampleBasket` | App.tsx:101-163 | adding the first catalog cake twice and committing the default built cake gives two lines, the first of quantity 2 and the second custom, worth 7000 in total |
| `Storefront.BackThenNext` | App.tsx:459-474 | Back then Next returns to the same step with the configuration and basket unchanged |

`Storefront.Session` is a worked example with no contract of its own. It
runs `SampleBasket`, then `CheckoutAndTrack`, and checks that the recorded
order's total is 7000 and that tracking finds it.

## Left out

- Rendering, view switching (`view`, `isMenuOpen`), scrolling and the JSON-LD
  effect (App.tsx:49-93, 228 onwards): these are presentation and DOM side
  effects.
- The WhatsApp message text, the link and `window.open` (App.tsx:198-219),
  and the `alert` on a failed lookup (App.tsx:225): locale formatting, URL
  encoding and browser I/O.
- The chat assistant (App.tsx:166-179) and services/geminiService.ts: an
  asynchronous call to an external text-generation service whose output
  cannot be specified.
- `Date.now()`, `Math.random()` and `new Date()`: parameters of
  `Shop.AddCustomToCart`, `Shop.Checkout` and `OrderNumber`.
- Floating-point rounding: numbers are exact reals. In particular, `price /
  weight × weight` is exact here, which it may not be in floating point.
- Storefront.Shop.UpdateQuantity: the delta is a whole number. The only
  callers pass +1 and −1.
- Storefront.Shop.NextStep and Storefront.Shop.PreviousStep: these require
  step < 4 and step > 1 respectively. The buttons are only rendered then
  (App.tsx:459, 468).
- Storefront.Shop.SetFlavor, SetFilling, SetFrosting and SetWeight: these
  require a table option or a slider weight. The buttons and the slider only
  offer those.
- The `toppers` field (no UI sets it, and it has no price effect), the unused
  `customMessage` field of a basket line, and status changes past `Pending`:
  no code path exists for them.
- The 30-character limit on the cake message: it is only an input attribute
  (App.tsx:428).
- The `cakes` and `reviews` state are never reassigned, so the catalog is
  the constant `INITIAL_CAKES`. Reviews are not modelled.
- The selected category tab, the tracking input and the checkout form are
  not fields of `Shop`. The tab is the parameter of `Menu.FilteredCakes`.
  The tracking id and the customer name are parameters of `Shop.TrackOrder`
  and `Shop.Checkout`. Phone, address and payment method only feed the
  WhatsApp message.
