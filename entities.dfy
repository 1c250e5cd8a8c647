/** The records the front end passes around: catalog products with their price
    tiers, categories, the store's tax setting and persisted orders. Money is in
    cents and tax rates in basis points (see module Money). */
module Entities {
  import opened Optional

  type Id = string

  /** A form or record field that JavaScript may hold as a string, a number or
      `null`/`undefined` (the count, cost and price values of a product). */
  datatype Scalar = Str(text: string) | Num(n: int) | Null

  /** JavaScript falsiness of a field value: the empty string, zero and
      `null`/`undefined` are falsy (NaN is not representable here). */
  predicate Falsy(v: Scalar)
  {
    v == Str("") || v == Num(0) || v == Null
  }

  /** One named price tier of a product ("Dine-in", "Takeout"). */
  datatype Price = Price(name: string, value: Scalar)

  /** A catalog product. `id` is `None` until the product has been saved. */
  datatype Product = Product(
    id: Option<Id>,
    thumbnail: string,
    enable: bool,
    name: string,
    count: Scalar,
    category: Option<Id>,
    prices: seq<Price>,
    cost: Scalar)

  datatype Category = Category(id: Id, name: string)

  /** The store's tax setting; `rate` in basis points. */
  datatype TaxSetting = TaxSetting(rate: nat, enable: bool)

  /** One product entry of a persisted order: the product's id, the unit price
      charged (cents) and the quantity. */
  datatype OrderLine = OrderLine(product: Id, price: nat, count: nat)

  /** A persisted order; `taxRate` in basis points, `createdAt` a timestamp. */
  datatype Order = Order(
    id: Id,
    products: seq<OrderLine>,
    taxRate: nat,
    paymentType: string,
    createdAt: int)
}
