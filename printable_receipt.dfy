/** Reprinting a stored order: the order is looked up by id, its totals are
    recomputed from the prices stored in the order, and each line's display name
    comes from the current catalog. */
module PrintableReceipt {
  import opened Optional
  import opened Seqs
  import opened Money
  import opened Entities
  import Receipt

  // ---------------------------------------------------------------- lookups

  predicate HasOrder(orders: seq<Order>, orderId: Id)
  {
    exists i :: 0 <= i < |orders| && orders[i].id == orderId
  }

  /** `orders.find(ord => ord._id === orderId)`; the component dereferences the
      result unchecked, so a match is required. */
  function FindOrder(orders: seq<Order>, orderId: Id): (o: Order)
    requires HasOrder(orders, orderId)
    ensures o.id == orderId
    ensures exists k ::
              && 0 <= k < |orders| && orders[k] == o
              && forall j :: 0 <= j < k ==> orders[j].id != orderId
  {
    var k := FindIndex(orders, (ord: Order) => ord.id == orderId);
    assert k.Some?;
    orders[k.value]
  }

  predicate InCatalog(catalog: seq<Product>, productId: Id)
  {
    exists i :: 0 <= i < |catalog| && catalog[i].id == Some(productId)
  }

  /** `products.find(product => product._id === prod.product).name`. */
  function ProductName(catalog: seq<Product>, productId: Id): (name: string)
    requires InCatalog(catalog, productId)
    ensures exists i ::
              && 0 <= i < |catalog| && catalog[i].id == Some(productId) && catalog[i].name == name
              && forall j :: 0 <= j < i ==> catalog[j].id != Some(productId)
  {
    var k := FindIndex(catalog, (p: Product) => p.id == Some(productId));
    assert k.Some?;
    catalog[k.value].name
  }

  predicate NamesResolvable(catalog: seq<Product>, lines: seq<OrderLine>)
  {
    forall i :: 0 <= i < |lines| ==> InCatalog(catalog, lines[i].product)
  }

  // ---------------------------------------------------------------- totals

  /** `products.reduce((acc, prod) => acc + prod.price * prod.count, 0)`, in cents:
      no entry's amount exceeds it, and it is zero for an empty order. */
  function OrderSubtotal(lines: seq<OrderLine>): (s: nat)
    ensures lines == [] ==> s == 0
    ensures forall i :: 0 <= i < |lines| ==> lines[i].price * lines[i].count <= s
  {
    if lines == [] then 0 else lines[0].price * lines[0].count + OrderSubtotal(lines[1..])
  }

  /** The tax, unrounded, in micro-cents: zero for a zero rate, else subtotal times rate. */
  function OrderTax(subtotal: nat, taxRate: nat): (t: nat)
    ensures t == 0 <==> taxRate == 0 || subtotal == 0
    ensures taxRate != 0 ==> t == subtotal * taxRate
  {
    if taxRate == 0 then 0 else subtotal * taxRate
  }

  /** The total, unrounded, in micro-cents. */
  function OrderTotal(subtotal: nat, tax: nat): (t: nat)
    ensures RoundToCents(t) == subtotal + RoundToCents(tax)
    ensures t >= subtotal * Scale
  {
    RoundAddWholeCents(subtotal, tax);
    subtotal * Scale + tax
  }

  // ---------------------------------------------------------------- the printout

  /** One printed item: its name, the amount `count * price`, and the `count x price` subtitle. */
  datatype Item = Item(name: string, amount: nat, count: nat, price: nat)

  /** The printed receipt; amounts in cents as `toFixed(2)` shows them. */
  datatype Printed = Printed(
    storeName: string,
    paymentType: string,
    createdAt: int,
    items: seq<Item>,
    subtotalRow: Option<nat>,
    taxRow: Option<nat>,
    totalRow: nat)

  function PrintItem(catalog: seq<Product>, line: OrderLine): (item: Item)
    requires InCatalog(catalog, line.product)
    ensures item.amount == line.count * line.price
    ensures item.count == line.count && item.price == line.price
  {
    Item(ProductName(catalog, line.product), line.count * line.price, line.count, line.price)
  }

  function PrintItems(catalog: seq<Product>, lines: seq<OrderLine>): (items: seq<Item>)
    requires NamesResolvable(catalog, lines)
    ensures |items| == |lines|
    ensures forall i :: 0 <= i < |lines| ==> items[i] == PrintItem(catalog, lines[i])
  {
    if lines == [] then [] else [PrintItem(catalog, lines[0])] + PrintItems(catalog, lines[1..])
  }

  /** The receipt for order `orderId`: subtotal and tax rows only when the tax is
      non-zero, the total row always; the figures come from the order alone. */
  function Print(storeName: string, orders: seq<Order>, catalog: seq<Product>, orderId: Id): (p: Printed)
    requires HasOrder(orders, orderId)
    requires NamesResolvable(catalog, FindOrder(orders, orderId).products)
    ensures var o := FindOrder(orders, orderId);
      var sub := OrderSubtotal(o.products);
      var tax := OrderTax(sub, o.taxRate);
      && p.storeName == storeName && p.paymentType == o.paymentType && p.createdAt == o.createdAt
      && p.items == PrintItems(catalog, o.products)
      && (p.subtotalRow.Some? <==> tax != 0)
      && (p.taxRow.Some? <==> tax != 0)
      && (p.subtotalRow.Some? ==> p.subtotalRow.value == sub)
      && (p.taxRow.Some? ==> p.taxRow.value == RoundToCents(tax))
      && p.totalRow == sub + RoundToCents(tax)
  {
    var o := FindOrder(orders, orderId);
    var sub := OrderSubtotal(o.products);
    var tax := OrderTax(sub, o.taxRate);
    var total := OrderTotal(sub, tax);
    RoundWholeCents(sub);
    Printed(
      storeName, o.paymentType, o.createdAt,
      PrintItems(catalog, o.products),
      if tax != 0 then Some(sub) else None,
      if tax != 0 then Some(RoundToCents(tax)) else None,
      RoundToCents(total))
  }

  // ---------------------------------------------------------------- properties

  /** Two catalogs that agree on ids and names, position by position. */
  predicate SameIdsAndNames(c1: seq<Product>, c2: seq<Product>)
  {
    |c1| == |c2| && forall i :: 0 <= i < |c1| ==> c1[i].id == c2[i].id && c1[i].name == c2[i].name
  }

  lemma {:induction false} ProductNameSameIds(c1: seq<Product>, c2: seq<Product>, productId: Id)
    requires SameIdsAndNames(c1, c2)
    requires InCatalog(c1, productId)
    ensures InCatalog(c2, productId)
    ensures ProductName(c1, productId) == ProductName(c2, productId)
  {
    var k1 := FindIndex(c1, (p: Product) => p.id == Some(productId)).value;
    var k2 := FindIndex(c2, (p: Product) => p.id == Some(productId)).value;
    assert c2[k1].id == Some(productId);
    assert c1[k2].id == Some(productId);
  }

  /** The catalog supplies names only: a catalog whose products differ in price,
      cost, stock or anything but id and name prints the same receipt. */
  lemma CatalogPricesIrrelevant(storeName: string, orders: seq<Order>, c1: seq<Product>, c2: seq<Product>, orderId: Id)
    requires HasOrder(orders, orderId)
    requires NamesResolvable(c1, FindOrder(orders, orderId).products)
    requires SameIdsAndNames(c1, c2)
    ensures NamesResolvable(c2, FindOrder(orders, orderId).products)
    ensures Print(storeName, orders, c1, orderId) == Print(storeName, orders, c2, orderId)
  {
    var lines := FindOrder(orders, orderId).products;
    forall i | 0 <= i < |lines| ensures InCatalog(c2, lines[i].product) {
      ProductNameSameIds(c1, c2, lines[i].product);
    }
    var items1, items2 := PrintItems(c1, lines), PrintItems(c2, lines);
    forall i | 0 <= i < |lines| ensures items1[i] == items2[i] {
      ProductNameSameIds(c1, c2, lines[i].product);
    }
  }

  /** Whatever the catalog, the printed figures are those of the order. */
  lemma TotalsIndependentOfCatalog(storeName: string, orders: seq<Order>, c1: seq<Product>, c2: seq<Product>, orderId: Id)
    requires HasOrder(orders, orderId)
    requires NamesResolvable(c1, FindOrder(orders, orderId).products)
    requires NamesResolvable(c2, FindOrder(orders, orderId).products)
    ensures var p1, p2 := Print(storeName, orders, c1, orderId), Print(storeName, orders, c2, orderId);
      p1.subtotalRow == p2.subtotalRow && p1.taxRow == p2.taxRow && p1.totalRow == p2.totalRow
  {
  }

  /** The order lines a cart would be stored as: one entry per cart line, in
      order, carrying its id, unit price and count. */
  function OrderLinesOf(lines: seq<Receipt.Line>): (r: seq<OrderLine>)
    ensures |r| == |lines|
    ensures forall i :: 0 <= i < |lines| ==>
      r[i] == OrderLine(lines[i].id, lines[i].price, lines[i].count)
  {
    if lines == [] then []
    else [OrderLine(lines[0].id, lines[0].price, lines[0].count)] + OrderLinesOf(lines[1..])
  }

  /** Reprinting agrees with the live receipt: an order stored from a cart at a
      non-zero rate reprints the cart's subtotal, tax and total, and at rate zero
      its total is the cart's subtotal. */
  lemma {:induction false} ReprintMatchesLiveReceipt(lines: seq<Receipt.Line>, rate: nat)
    ensures OrderSubtotal(OrderLinesOf(lines)) == Receipt.Subtotal(lines)
    ensures var sub := OrderSubtotal(OrderLinesOf(lines));
      && RoundToCents(OrderTax(sub, rate)) == Receipt.CalcTax(lines, rate)
      && RoundToCents(OrderTotal(sub, OrderTax(sub, rate))) == Receipt.CalcTotal(lines, rate)
  {
    if lines != [] {
      ReprintMatchesLiveReceipt(lines[1..], rate);
    }
  }
}
