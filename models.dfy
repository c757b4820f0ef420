/**
 The shop's data model (shop/loft/models.py): the rows of the tables the
 cart and checkout touch, the in-memory database that holds them, the
 order totals, and the per-line discount arithmetic.

 Tables are sequences of rows. Products, customers and orders are never
 deleted by the modelled code, so their primary key is their index; order
 lines are created and deleted, so each carries its own primary key.
 */
module Models {
  import opened Common

  type ProductId = nat
  type CustomerId = nat
  type OrderId = nat
  type UserId = nat

  /** A catalog product; `quantity` is the stock on hand, `discount` a nullable percentage. */
  datatype Product = Product(
    id: ProductId,
    slug: string,
    price: real,
    quantity: int,
    discount: Option<int>,
    category: nat)

  datatype Customer = Customer(user: UserId, firstName: string, lastName: string, telegram: Option<string>)

  /** An order is the customer's open cart while `payment` is false. */
  datatype Order = Order(customer: CustomerId, payment: bool)

  /** One line of an order (the OrderProduct row). */
  datatype OrderProduct = OrderProduct(pk: nat, order: OrderId, product: ProductId, quantity: int)

  datatype ShippingAddress = ShippingAddress(
    customer: CustomerId,
    order: OrderId,
    address: string,
    phone: string,
    comment: Option<string>,
    region: nat,
    city: nat)

  /** A line is identified by its (order, product) pair. */
  type LineKey = (OrderId, ProductId)

  function Key(l: OrderProduct): LineKey { (l.order, l.product) }

  // ---------------------------------------------------------------- tables

  predicate ProductsWellFormed(ps: seq<Product>)
  {
    && (forall i | 0 <= i < |ps| :: ps[i].id == i)
    && (forall i, j | 0 <= i < j < |ps| :: ps[i].slug != ps[j].slug)
  }

  /** Customer.user is a one-to-one field. */
  predicate CustomersWellFormed(cs: seq<Customer>)
  {
    forall i, j | 0 <= i < j < |cs| :: cs[i].user != cs[j].user
  }

  /** Every order has a customer, and a customer has at most one open order. */
  predicate OrdersWellFormed(os: seq<Order>, customerCount: nat)
  {
    && (forall i | 0 <= i < |os| :: os[i].customer < customerCount)
    && (forall i, j | 0 <= i < j < |os| :: !os[i].payment && !os[j].payment ==> os[i].customer != os[j].customer)
  }

  predicate DistinctKeys(ls: seq<OrderProduct>)
  {
    forall i, j | 0 <= i < j < |ls| :: Key(ls[i]) != Key(ls[j])
  }

  /** Lines point at existing orders and products, carry unique pks below the next pk, and are unique per (order, product). */
  predicate LinesWellFormed(ls: seq<OrderProduct>, orderCount: nat, productCount: nat, nextPk: nat)
  {
    && (forall i | 0 <= i < |ls| :: ls[i].order < orderCount && ls[i].product < productCount && ls[i].pk < nextPk)
    && (forall i, j | 0 <= i < j < |ls| :: ls[i].pk != ls[j].pk)
    && DistinctKeys(ls)
  }

  /** No line of the cart view is at quantity 0 or less. */
  predicate CartPositive(m: map<LineKey, int>)
  {
    forall k | k in m :: m[k] > 0
  }

  /** Every address belongs to an existing order, and no order has two addresses. */
  predicate AddressesWellFormed(addrs: seq<ShippingAddress>, orderCount: nat)
  {
    && (forall i | 0 <= i < |addrs| :: addrs[i].order < orderCount)
    && (forall i, j | 0 <= i < j < |addrs| :: addrs[i].order != addrs[j].order)
  }

  /**
   The relational store, reduced to the tables the cart, the checkout and the
   favourites touch. Its methods are the ORM writes on order lines and
   products; the cart and the views call them and update the other tables.
   */
  class Database {
    var products: seq<Product>
    var customers: seq<Customer>
    var orders: seq<Order>
    var lines: seq<OrderProduct>
    var nextLinePk: nat
    var addresses: seq<ShippingAddress>
    var favorites: set<(UserId, ProductId)>

    /** Referential integrity and uniqueness of every table. */
    ghost predicate Tables()
      reads this
    {
      && ProductsWellFormed(products)
      && CustomersWellFormed(customers)
      && OrdersWellFormed(orders, |customers|)
      && LinesWellFormed(lines, |orders|, |products|, nextLinePk)
      && AddressesWellFormed(addresses, |orders|)
    }

    /** The state between requests: the tables are sound and every cart line is positive. */
    ghost predicate Valid()
      reads this
    {
      Tables() && CartPositive(LineMap(lines))
    }

    constructor(products: seq<Product>)
      requires ProductsWellFormed(products)
      ensures Valid()
      ensures this.products == products && customers == [] && orders == [] && lines == []
      ensures addresses == [] && favorites == {}
    {
      this.products := products;
      customers, orders, lines, nextLinePk := [], [], [], 0;
      addresses, favorites := [], {};
    }

    /**
     `OrderProduct.objects.get_or_create(order=o, product=p)`: the existing
     row, or a new row with the next pk and the field default quantity 0.
     */
    method GetOrCreateLine(o: OrderId, p: ProductId) returns (line: OrderProduct)
      requires Tables() && o < |orders| && p < |products|
      modifies this
      ensures Tables()
      ensures products == old(products) && customers == old(customers) && orders == old(orders)
      ensures addresses == old(addresses) && favorites == old(favorites)
      ensures Key(line) == (o, p)
      ensures IndexOfPk(lines, line.pk).Some? && lines[IndexOfPk(lines, line.pk).value] == line
      ensures line.quantity == QuantityIn(old(LineMap(lines)), (o, p))
      ensures LineMap(lines) == old(LineMap(lines))[(o, p) := line.quantity]
      ensures (o, p) in old(LineMap(lines)) ==> lines == old(lines)
    {
      match FindLine(lines, o, p) {
        case Some(i) =>
          line := lines[i];
          LineMapAt(lines, i);
          assert LineMap(lines)[(o, p) := line.quantity] == LineMap(lines);
        case None =>
          line := OrderProduct(nextLinePk, o, p, 0);
          LineMapAbsent(lines, (o, p));
          LineMapAppend(lines, line);
          lines := lines + [line];
          nextLinePk := nextLinePk + 1;
      }
    }

    /** `order_product.save()`: the row with the line's pk takes the line's values. */
    method SaveLine(line: OrderProduct)
      requires Tables()
      requires IndexOfPk(lines, line.pk).Some? && Key(lines[IndexOfPk(lines, line.pk).value]) == Key(line)
      modifies this
      ensures Tables()
      ensures products == old(products) && customers == old(customers) && orders == old(orders)
      ensures addresses == old(addresses) && favorites == old(favorites) && nextLinePk == old(nextLinePk)
      ensures lines == old(lines)[IndexOfPk(old(lines), line.pk).value := line]
      ensures IndexOfPk(lines, line.pk) == IndexOfPk(old(lines), line.pk)
      ensures LineMap(lines) == old(LineMap(lines))[Key(line) := line.quantity]
    {
      var i := IndexOfPk(lines, line.pk).value;
      LineMapUpdate(lines, i, line.quantity);
      assert lines[i := line] == lines[i := lines[i].(quantity := line.quantity)];
      lines := lines[i := line];
      IndexOfPkUnique(lines, i);
    }

    /** `order_product.delete()`: the row with the line's pk is removed. */
    method DeleteLine(line: OrderProduct)
      requires Tables()
      requires IndexOfPk(lines, line.pk).Some? && Key(lines[IndexOfPk(lines, line.pk).value]) == Key(line)
      modifies this
      ensures Tables()
      ensures products == old(products) && customers == old(customers) && orders == old(orders)
      ensures addresses == old(addresses) && favorites == old(favorites) && nextLinePk == old(nextLinePk)
      ensures var i := IndexOfPk(old(lines), line.pk).value; lines == old(lines)[..i] + old(lines)[i + 1..]
      ensures LineMap(lines) == old(LineMap(lines)) - {Key(line)}
    {
      var i := IndexOfPk(lines, line.pk).value;
      LineMapRemove(lines, i);
      LinesRemoveWellFormed(lines, i, |orders|, |products|, nextLinePk);
      lines := lines[..i] + lines[i + 1..];
    }

    /** `product.save()` for a product whose stock changed. */
    method SaveProduct(product: Product)
      requires Tables() && product.id < |products|
      requires product.slug == products[product.id].slug
      modifies this
      ensures Tables()
      ensures products == old(products)[product.id := product]
      ensures customers == old(customers) && orders == old(orders) && lines == old(lines)
      ensures addresses == old(addresses) && favorites == old(favorites) && nextLinePk == old(nextLinePk)
    {
      products := products[product.id := product];
    }
  }

  /** Under the table invariants, no row of the line table is at quantity 0 or less. */
  lemma {:induction false} PositiveRows(ls: seq<OrderProduct>)
    requires DistinctKeys(ls) && CartPositive(LineMap(ls))
    ensures forall i | 0 <= i < |ls| :: ls[i].quantity > 0
  {
    forall i | 0 <= i < |ls| ensures ls[i].quantity > 0 {
      LineMapAt(ls, i);
    }
  }

  /** The position of the row with a given pk. */
  function IndexOfPk(ls: seq<OrderProduct>, pk: nat): (r: Option<nat>)
    ensures r.Some? ==> r.value < |ls| && ls[r.value].pk == pk
    ensures r.None? ==> forall i | 0 <= i < |ls| :: ls[i].pk != pk
  {
    FindLast(ls, (l: OrderProduct) => l.pk == pk)
  }

  lemma IndexOfPkUnique(ls: seq<OrderProduct>, i: nat)
    requires i < |ls| && forall a, b | 0 <= a < b < |ls| :: ls[a].pk != ls[b].pk
    ensures IndexOfPk(ls, ls[i].pk) == Some(i)
  {
  }

  // --------------------------------------------------------------- lookups

  /** `Product.objects.get(slug=slug)`. */
  function FindBySlug(ps: seq<Product>, slug: string): (r: Option<ProductId>)
    ensures r.Some? ==> r.value < |ps| && ps[r.value].slug == slug
    ensures r.None? ==> forall i | 0 <= i < |ps| :: ps[i].slug != slug
  {
    FindLast(ps, (x: Product) => x.slug == slug)
  }

  /** The first customer row of a user. */
  function FindCustomer(cs: seq<Customer>, user: UserId): (r: Option<CustomerId>)
    ensures r.Some? ==> r.value < |cs| && cs[r.value].user == user
    ensures r.Some? ==> forall i | 0 <= i < r.value :: cs[i].user != user
    ensures r.None? ==> forall i | 0 <= i < |cs| :: cs[i].user != user
  {
    if cs == [] then None
    else if cs[0].user == user then Some(0)
    else match FindCustomer(cs[1..], user)
      case None => None
      case Some(i) => Some(i + 1)
  }

  /** The first unpaid order of a customer. */
  function FindOpenOrder(os: seq<Order>, c: CustomerId): (r: Option<OrderId>)
    ensures r.Some? ==> r.value < |os| && os[r.value] == Order(c, false)
    ensures r.Some? ==> forall i | 0 <= i < r.value :: os[i] != Order(c, false)
    ensures r.None? ==> forall i | 0 <= i < |os| :: os[i] != Order(c, false)
  {
    if os == [] then None
    else if os[0] == Order(c, false) then Some(0)
    else match FindOpenOrder(os[1..], c)
      case None => None
      case Some(i) => Some(i + 1)
  }

  /** The position of the line of (order, product). */
  function FindLine(ls: seq<OrderProduct>, o: OrderId, p: ProductId): (r: Option<nat>)
    ensures r.Some? ==> r.value < |ls| && Key(ls[r.value]) == (o, p)
    ensures r.None? ==> forall i | 0 <= i < |ls| :: Key(ls[i]) != (o, p)
  {
    FindLast(ls, (l: OrderProduct) => Key(l) == (o, p))
  }

  /** `OrderProduct.objects.get(pk=pk, order=order)`. */
  function FindLineByPk(ls: seq<OrderProduct>, pk: nat, o: OrderId): (r: Option<nat>)
    ensures r.Some? ==> r.value < |ls| && ls[r.value].pk == pk && ls[r.value].order == o
    ensures r.None? ==> forall i | 0 <= i < |ls| :: ls[i].pk != pk || ls[i].order != o
  {
    FindLast(ls, (l: OrderProduct) => l.pk == pk && l.order == o)
  }

  // --------------------------------------------------- abstract cart view

  /** The line rows seen as a map from (order, product) to quantity. */
  function LineMap(ls: seq<OrderProduct>): map<LineKey, int>
  {
    if ls == [] then map[]
    else LineMap(ls[..|ls| - 1])[Key(ls[|ls| - 1]) := ls[|ls| - 1].quantity]
  }

  /** The quantity of a key in a line map, 0 when there is no line. */
  function QuantityIn(m: map<LineKey, int>, k: LineKey): int
  {
    if k in m then m[k] else 0
  }

  lemma {:induction false} LineMapAbsent(ls: seq<OrderProduct>, k: LineKey)
    requires forall i | 0 <= i < |ls| :: Key(ls[i]) != k
    ensures k !in LineMap(ls)
  {
    if ls != [] {
      LineMapAbsent(ls[..|ls| - 1], k);
    }
  }

  lemma {:induction false} LineMapAt(ls: seq<OrderProduct>, i: nat)
    requires DistinctKeys(ls) && i < |ls|
    ensures Key(ls[i]) in LineMap(ls) && LineMap(ls)[Key(ls[i])] == ls[i].quantity
  {
    if i < |ls| - 1 {
      LineMapAt(ls[..|ls| - 1], i);
    }
  }

  lemma LineMapAppend(ls: seq<OrderProduct>, l: OrderProduct)
    ensures LineMap(ls + [l]) == LineMap(ls)[Key(l) := l.quantity]
  {
    assert (ls + [l])[..|ls|] == ls;
  }

  /** Saving a changed quantity into an existing row updates just that key. */
  lemma {:induction false} LineMapUpdate(ls: seq<OrderProduct>, i: nat, q: int)
    requires DistinctKeys(ls) && i < |ls|
    ensures LineMap(ls[i := ls[i].(quantity := q)]) == LineMap(ls)[Key(ls[i]) := q]
  {
    var n := |ls|;
    var ls' := ls[i := ls[i].(quantity := q)];
    if i < n - 1 {
      assert ls'[..n - 1] == ls[..n - 1][i := ls[i].(quantity := q)];
      LineMapUpdate(ls[..n - 1], i, q);
    } else {
      assert ls'[..n - 1] == ls[..n - 1];
    }
  }

  /** Deleting a row keeps the lines table well formed. */
  lemma LinesRemoveWellFormed(ls: seq<OrderProduct>, i: nat, orderCount: nat, productCount: nat, nextPk: nat)
    requires LinesWellFormed(ls, orderCount, productCount, nextPk) && i < |ls|
    ensures LinesWellFormed(ls[..i] + ls[i + 1..], orderCount, productCount, nextPk)
  {
    var rest := ls[..i] + ls[i + 1..];
    forall a | 0 <= a < |rest| ensures rest[a] == ls[if a < i then a else a + 1] {
    }
  }

  /** Deleting a row removes exactly its key. */
  lemma {:induction false} LineMapRemove(ls: seq<OrderProduct>, i: nat)
    requires DistinctKeys(ls) && i < |ls|
    ensures LineMap(ls[..i] + ls[i + 1..]) == LineMap(ls) - {Key(ls[i])}
  {
    var n := |ls|;
    var pre := ls[..n - 1];
    if i == n - 1 {
      assert ls[..i] + ls[i + 1..] == pre;
      LineMapAbsent(pre, Key(ls[i]));
    } else {
      var ls' := ls[..i] + ls[i + 1..];
      var rest := pre[..i] + pre[i + 1..];
      assert ls' == rest + [ls[n - 1]];
      assert pre[i] == ls[i] && Key(ls[n - 1]) != Key(ls[i]);
      assert DistinctKeys(pre) by {
        forall a, b | 0 <= a < b < |pre| ensures Key(pre[a]) != Key(pre[b]) {
          assert pre[a] == ls[a] && pre[b] == ls[b];
        }
      }
      LineMapRemove(pre, i);
      LineMapAppend(rest, ls[n - 1]);
      RemoveThenUpdate(LineMap(pre), Key(ls[i]), Key(ls[n - 1]), ls[n - 1].quantity);
    }
  }

  lemma RemoveThenUpdate(m: map<LineKey, int>, gone: LineKey, k: LineKey, q: int)
    requires gone != k
    ensures (m - {gone})[k := q] == m[k := q] - {gone}
  {
  }

  // ---------------------------------------------------------------- totals

  /** `order.orderproduct_set.all()`: the rows of one order, in table order. */
  function LinesOf(ls: seq<OrderProduct>, o: OrderId): (r: seq<OrderProduct>)
    ensures forall l :: l in r <==> l in ls && l.order == o
    ensures (forall i | 0 <= i < |ls| :: ls[i].order != o) ==> r == []
  {
    if ls == [] then []
    else LinesOf(ls[..|ls| - 1], o) + (if ls[|ls| - 1].order == o then [ls[|ls| - 1]] else [])
  }

  lemma LinesOfProducts(ls: seq<OrderProduct>, o: OrderId, n: nat)
    requires forall i | 0 <= i < |ls| :: ls[i].product < n
    ensures forall i | 0 <= i < |LinesOf(ls, o)| :: LinesOf(ls, o)[i].product < n
  {
    var rows := LinesOf(ls, o);
    forall i | 0 <= i < |rows| ensures rows[i].product < n {
      assert rows[i] in rows;
    }
  }

  /** With positive rows, the rows of one order are positive too. */
  lemma LinesOfPositive(ls: seq<OrderProduct>, o: OrderId)
    ensures (forall i | 0 <= i < |ls| :: ls[i].quantity > 0) ==>
      forall i | 0 <= i < |LinesOf(ls, o)| :: LinesOf(ls, o)[i].quantity > 0
  {
    var rows := LinesOf(ls, o);
    if forall i | 0 <= i < |ls| :: ls[i].quantity > 0 {
      forall i | 0 <= i < |rows| ensures rows[i].quantity > 0 {
        assert rows[i] in rows;
      }
    }
  }

  /**
   Order.get_order_total_products: the summed quantity of the order's lines;
   0 for an order without lines, and at least one per line when lines are positive.
   */
  function OrderTotalProducts(ls: seq<OrderProduct>, o: OrderId): (r: int)
    ensures (forall i | 0 <= i < |ls| :: ls[i].order != o) ==> r == 0
    ensures (forall i | 0 <= i < |ls| :: ls[i].quantity > 0) ==> r >= |LinesOf(ls, o)|
  {
    LinesOfPositive(ls, o);
    TotalProducts(LinesOf(ls, o))
  }

  /**
   Order.get_order_total_price: the summed line totals of the order's lines;
   0 for an order without lines, and the list-price total when no product is discounted.
   */
  function OrderTotalPrice(ps: seq<Product>, ls: seq<OrderProduct>, o: OrderId): (r: real)
    requires forall i | 0 <= i < |ls| :: ls[i].product < |ps|
    ensures (forall i | 0 <= i < |ls| :: ls[i].order != o) ==> r == 0.0
    ensures (forall i | 0 <= i < |ps| :: !HasDiscount(ps[i].discount)) ==> r == UndiscountedPrice(ps, LinesOf(ls, o))
  {
    LinesOfProducts(ls, o, |ps|);
    TotalPrice(ps, LinesOf(ls, o))
  }

  /** `sum([product.quantity for product in order_products])`: at least one per row when every row is positive. */
  function TotalProducts(rows: seq<OrderProduct>): (r: int)
    ensures (forall i | 0 <= i < |rows| :: rows[i].quantity > 0) ==> r >= |rows|
  {
    if rows == [] then 0 else TotalProducts(rows[..|rows| - 1]) + rows[|rows| - 1].quantity
  }

  /** The summed quantity of the rows of one product. */
  function SumFor(rows: seq<OrderProduct>, p: ProductId): int
  {
    if rows == [] then 0
    else SumFor(rows[..|rows| - 1], p) + (if rows[|rows| - 1].product == p then rows[|rows| - 1].quantity else 0)
  }

  lemma SumForAppend(rows: seq<OrderProduct>, l: OrderProduct, p: ProductId)
    ensures SumFor(rows + [l], p) == SumFor(rows, p) + (if l.product == p then l.quantity else 0)
  {
    assert (rows + [l])[..|rows|] == rows;
  }

  /**
   With one row per (order, product), the quantity of a product summed over
   an order's rows is that product's cart quantity.
   */
  lemma {:induction false} SumForOrder(ls: seq<OrderProduct>, o: OrderId, p: ProductId)
    requires DistinctKeys(ls)
    ensures SumFor(LinesOf(ls, o), p) == QuantityIn(LineMap(ls), (o, p))
  {
    if ls != [] {
      var n := |ls|;
      var pre := ls[..n - 1];
      var last := ls[n - 1];
      SumForOrder(pre, o, p);
      if last.order == o {
        assert LinesOf(ls, o) == LinesOf(pre, o) + [last];
        SumForAppend(LinesOf(pre, o), last, p);
        if last.product == p {
          forall i | 0 <= i < |pre| ensures Key(pre[i]) != (o, p) {
            assert Key(ls[i]) != Key(ls[n - 1]);
          }
          LineMapAbsent(pre, (o, p));
        }
      } else {
        assert LinesOf(ls, o) == LinesOf(pre, o);
      }
    }
  }

  /** The quantities the cart map holds for order o over the products below n. */
  function CartQuantity(m: map<LineKey, int>, o: OrderId, n: nat): int
  {
    if n == 0 then 0 else CartQuantity(m, o, n - 1) + QuantityIn(m, (o, n - 1))
  }

  /** Per-product sums over the products below n. */
  function SumUpTo(rows: seq<OrderProduct>, n: nat): int
  {
    if n == 0 then 0 else SumUpTo(rows, n - 1) + SumFor(rows, n - 1)
  }

  lemma {:induction false} SumUpToAppend(rows: seq<OrderProduct>, l: OrderProduct, n: nat)
    ensures SumUpTo(rows + [l], n) == SumUpTo(rows, n) + (if l.product < n then l.quantity else 0)
  {
    if n > 0 {
      SumUpToAppend(rows, l, n - 1);
      SumForAppend(rows, l, n - 1);
    }
  }

  /** Summing all rows at once equals summing product by product, when every row's product is below n. */
  lemma {:induction false} TotalProductsByProduct(rows: seq<OrderProduct>, n: nat)
    requires forall i | 0 <= i < |rows| :: rows[i].product < n
    ensures TotalProducts(rows) == SumUpTo(rows, n)
  {
    if rows == [] {
      SumUpToEmpty(n);
    } else {
      var pre, last := rows[..|rows| - 1], rows[|rows| - 1];
      TotalProductsByProduct(pre, n);
      assert rows == pre + [last];
      SumUpToAppend(pre, last, n);
    }
  }

  lemma {:induction false} SumUpToEmpty(n: nat)
    ensures SumUpTo([], n) == 0
  {
    if n > 0 {
      SumUpToEmpty(n - 1);
    }
  }

  lemma {:induction false} SumUpToOrder(ls: seq<OrderProduct>, o: OrderId, n: nat)
    requires DistinctKeys(ls)
    ensures SumUpTo(LinesOf(ls, o), n) == CartQuantity(LineMap(ls), o, n)
  {
    if n > 0 {
      SumUpToOrder(ls, o, n - 1);
      SumForOrder(ls, o, n - 1);
    }
  }

  /**
   get_order_total_products is the number of items in the cart: the sum,
   over all products, of the quantity the order holds of each.
   */
  lemma OrderTotalIsCartQuantity(ls: seq<OrderProduct>, o: OrderId, n: nat)
    requires DistinctKeys(ls)
    requires forall i | 0 <= i < |ls| :: ls[i].product < n
    ensures OrderTotalProducts(ls, o) == CartQuantity(LineMap(ls), o, n)
  {
    LinesOfProducts(ls, o, n);
    TotalProductsByProduct(LinesOf(ls, o), n);
    SumUpToOrder(ls, o, n);
  }

  /**
   `sum([product.get_total_price for product in order_products])`, each row
   with a freshly loaded product; without discounts it is the list-price total.
   */
  function TotalPrice(ps: seq<Product>, rows: seq<OrderProduct>): (r: real)
    requires forall i | 0 <= i < |rows| :: rows[i].product < |ps|
    ensures (forall i | 0 <= i < |rows| :: !HasDiscount(ps[rows[i].product].discount)) ==> r == UndiscountedPrice(ps, rows)
  {
    if rows == [] then 0.0
    else
      var last := rows[|rows| - 1];
      TotalPrice(ps, rows[..|rows| - 1]) + LineTotal(ps[last.product].price, ps[last.product].discount, last.quantity)
  }

  /**
   With non-negative prices, discounts of at most 100 percent and positive
   quantities, an order's total price is non-negative and at most its
   undiscounted total.
   */
  lemma {:induction false} TotalPriceBounds(ps: seq<Product>, rows: seq<OrderProduct>)
    requires forall i | 0 <= i < |rows| :: rows[i].product < |ps| && rows[i].quantity > 0
    requires forall i | 0 <= i < |ps| :: ps[i].price >= 0.0 && ValidDiscount(ps[i].discount)
    ensures 0.0 <= TotalPrice(ps, rows) <= UndiscountedPrice(ps, rows)
  {
    if rows != [] {
      TotalPriceBounds(ps, rows[..|rows| - 1]);
      LastRowBounds(ps, rows);
    }
  }

  /** The last row adds at least nothing and at most its list price to the order's total. */
  lemma LastRowBounds(ps: seq<Product>, rows: seq<OrderProduct>)
    requires rows != [] && forall i | 0 <= i < |rows| :: rows[i].product < |ps|
    requires var last := rows[|rows| - 1];
      last.quantity > 0 && ps[last.product].price >= 0.0 && ValidDiscount(ps[last.product].discount)
    ensures var pre := rows[..|rows| - 1];
      0.0 <= TotalPrice(ps, rows) - TotalPrice(ps, pre) <= UndiscountedPrice(ps, rows) - UndiscountedPrice(ps, pre)
  {
    var last := rows[|rows| - 1];
    var product := ps[last.product];
    var pre := rows[..|rows| - 1];
    var line := LineTotal(product.price, product.discount, last.quantity);
    var listed := LineTotal(product.price, None, last.quantity);
    LineTotalMonotone(product.price, product.discount, last.quantity);
    PriceSteps(ps, rows);
    StepBounds(TotalPrice(ps, rows), TotalPrice(ps, pre), UndiscountedPrice(ps, rows), UndiscountedPrice(ps, pre), line, listed);
  }

  lemma StepBounds(total: real, before: real, listTotal: real, listBefore: real, line: real, listed: real)
    requires total == before + line && listTotal == listBefore + listed && 0.0 <= line <= listed
    ensures 0.0 <= total - before <= listTotal - listBefore
  {
  }

  /** One unfolding of both order totals at the last row. */
  lemma PriceSteps(ps: seq<Product>, rows: seq<OrderProduct>)
    requires rows != [] && forall i | 0 <= i < |rows| :: rows[i].product < |ps|
    ensures var pre, last := rows[..|rows| - 1], rows[|rows| - 1];
      var product := ps[last.product];
      && TotalPrice(ps, rows) == TotalPrice(ps, pre) + LineTotal(product.price, product.discount, last.quantity)
      && UndiscountedPrice(ps, rows) == UndiscountedPrice(ps, pre) + LineTotal(product.price, None, last.quantity)
  {
  }

  /** The order's total at list prices. */
  function UndiscountedPrice(ps: seq<Product>, rows: seq<OrderProduct>): real
    requires forall i | 0 <= i < |rows| :: rows[i].product < |ps|
  {
    if rows == [] then 0.0
    else
      var last := rows[|rows| - 1];
      UndiscountedPrice(ps, rows[..|rows| - 1]) + LineTotal(ps[last.product].price, None, last.quantity)
  }

  // ------------------------------------------------------------- discounts

  /** `if self.product.discount:` -- None and 0 are falsy; every other value, negative included, applies. */
  predicate HasDiscount(discount: Option<int>)
    ensures ValidDiscount(discount) ==> (HasDiscount(discount) <==> discount.Some? && discount.value > 0)
  {
    discount.Some? && discount.value != 0
  }

  /** A discount the admin would enter: absent, or a percentage in 0..100. */
  predicate ValidDiscount(discount: Option<int>)
  {
    discount.None? || 0 <= discount.value <= 100
  }

  /** The price after `self.product.price -= price * discount / 100`. */
  function EffectivePrice(price: real, discount: Option<int>): (r: real)
    ensures !HasDiscount(discount) ==> r == price
    ensures HasDiscount(discount) ==> r == price * (100 - discount.value) as real / 100.0
  {
    if HasDiscount(discount) then price - (price * discount.value as real) / 100.0 else price
  }

  lemma EffectivePriceBounds(price: real, discount: Option<int>)
    requires price >= 0.0 && ValidDiscount(discount)
    ensures 0.0 <= EffectivePrice(price, discount) <= price
  {
    if HasDiscount(discount) {
      var d := discount.value as real;
      assert price * (100.0 - d) <= price * 100.0;
      assert price * (100.0 - d) >= 0.0;
    }
  }

  /** What `get_total_price` returns when the product was just loaded from the database. */
  function LineTotal(price: real, discount: Option<int>, quantity: int): real
  {
    EffectivePrice(price, discount) * quantity as real
  }

  /** A zero or missing discount leaves price times quantity; a discount d takes d percent off the price first. */
  lemma LineTotalValue(price: real, discount: Option<int>, quantity: int)
    ensures !HasDiscount(discount) ==> LineTotal(price, discount, quantity) == price * quantity as real
    ensures HasDiscount(discount) ==>
      LineTotal(price, discount, quantity) == price * (100 - discount.value) as real / 100.0 * quantity as real
  {
  }

  lemma LineTotalMonotone(price: real, discount: Option<int>, quantity: int)
    requires price >= 0.0 && ValidDiscount(discount) && quantity >= 0
    ensures 0.0 <= LineTotal(price, discount, quantity) <= LineTotal(price, None, quantity)
  {
    EffectivePriceBounds(price, discount);
    var e := EffectivePrice(price, discount);
    var q := quantity as real;
    assert e * q <= price * q;
    assert e * q >= 0.0;
  }

  /** The discount law: a 10 percent discount on 20000, two units, gives 36000. */
  lemma DiscountExample()
    ensures EffectivePrice(20000.0, Some(10)) == 18000.0
    ensures LineTotal(20000.0, Some(10), 2) == 36000.0
  {
  }

  // ------------------------------------------- the in-place price mutation

  /** A product instance as loaded into memory; `price` is overwritten by get_total_price. */
  class ProductRecord {
    var price: real
    const discount: Option<int>

    constructor(price: real, discount: Option<int>)
      ensures this.price == price && this.discount == discount
    {
      this.price := price;
      this.discount := discount;
    }
  }

  /** An OrderProduct instance holding its loaded product. */
  class OrderProductRecord {
    const product: ProductRecord
    var quantity: int

    constructor(product: ProductRecord, quantity: int)
      ensures this.product == product && this.quantity == quantity
    {
      this.product := product;
      this.quantity := quantity;
    }

    /**
     get_total_price: writes the discounted price back into the product
     instance, then multiplies by the quantity.
     */
    method GetTotalPrice() returns (total: real)
      modifies product
      ensures product.price == EffectivePrice(old(product.price), product.discount)
      ensures total == LineTotal(old(product.price), product.discount, quantity)
    {
      if HasDiscount(product.discount) {
        var sumProc := (product.price * product.discount.value as real) / 100.0;
        product.price := product.price - sumProc;
      }
      total := product.price * quantity as real;
    }

    /**
     get_total_price as evidently intended: the discounted price times the
     quantity, computed without writing to the product, so every reading
     gives the same value.
     */
    method DiscountedTotal() returns (total: real)
      ensures total == LineTotal(product.price, product.discount, quantity)
    {
      var price := product.price;
      if HasDiscount(product.discount) {
        price := price - (price * product.discount.value as real) / 100.0;
      }
      total := price * quantity as real;
    }

    /** total_price(): the current price times the quantity, with no discount and no mutation. */
    method TotalPrice() returns (total: real)
      ensures total == LineTotal(product.price, None, quantity)
    {
      total := product.price * quantity as real;
    }
  }

  /**
   Reading get_total_price twice on one instance applies the discount twice:
   for price 20000, discount 10 and quantity 2 the second read is 32400, not 36000.
   */
  method CompoundingExample() returns (first: real, second: real)
    ensures first == 36000.0 && second == 32400.0
  {
    var product := new ProductRecord(20000.0, Some(10));
    var line := new OrderProductRecord(product, 2);
    first := line.GetTotalPrice();
    second := line.GetTotalPrice();
  }

  /** With the corrected reading, both reads of the same line give 36000. */
  method StableExample() returns (first: real, second: real)
    ensures first == 36000.0 && second == 36000.0
  {
    var product := new ProductRecord(20000.0, Some(10));
    var line := new OrderProductRecord(product, 2);
    first := line.DiscountedTotal();
    second := line.DiscountedTotal();
  }

  /** In general the second read equals price * (1 - d/100)^2 * quantity. */
  lemma DiscountCompounds(price: real, d: int, quantity: int)
    ensures LineTotal(EffectivePrice(price, Some(d)), Some(d), quantity)
         == price * ((100 - d) as real / 100.0) * ((100 - d) as real / 100.0) * quantity as real
  {
  }
}
