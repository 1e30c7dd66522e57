/** The records of the storefront: catalog cakes, builder options, the custom
    cake configuration, basket lines and orders.  Every TypeScript `number`
    that holds money, weight or a rating is a `real` here; quantities are
    whole numbers and are `int`. */
module Types {

  datatype Option<T> = None | Some(value: T)

  /** The five menu categories. */
  datatype CakeCategory = Graduation | Wedding | KidsCorner | Birthday | General

  /** A catalog cake; `price` is in KES for one 1 kg unit. */
  datatype Cake = Cake(
    id: string,
    name: string,
    description: string,
    price: real,
    category: CakeCategory,
    imageUrl: string,
    rating: real)

  /** One choice of flavor, filling or frosting; `priceModifier` is KES per kg. */
  datatype BuilderOption = BuilderOption(
    id: string,
    name: string,
    priceModifier: real,
    description: Option<string>)

  /** The configuration the cake builder edits. */
  datatype CustomCakeConfig = CustomCakeConfig(
    flavor: BuilderOption,
    filling: BuilderOption,
    frosting: BuilderOption,
    toppers: seq<string>,
    weight: real,
    message: string)

  /** A basket line: the fields of a cake plus quantity, weight and, for a
      built cake, the configuration it was built from.  An absent `isCustom`
      is `false` here, since the source only ever tests it for truth. */
  datatype CartItem = CartItem(
    id: string,
    name: string,
    description: string,
    price: real,
    category: CakeCategory,
    imageUrl: string,
    rating: real,
    quantity: int,
    weight: real,
    isCustom: bool,
    configuration: Option<CustomCakeConfig>)

  datatype OrderStatus = Pending | Confirmed | Baking | OutForDelivery | Delivered

  /** A submitted order: a snapshot of the basket and its total. */
  datatype Order = Order(
    id: string,
    items: seq<CartItem>,
    total: real,
    status: OrderStatus,
    customerName: string,
    date: string)
}
