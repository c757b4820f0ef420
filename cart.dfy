/**
 The cart and order bookkeeping of CartForAuthenticatedUser
 (shop/loft/utils.py): resolving the user's open order, adding one to or
 taking one from a line, and turning the open order into a paid one while
 taking the ordered quantities off stock.
 */
module Cart {
  import opened Common
  import opened Models

  // -------------------------------------------- resolving the open order

  /** The customer and order tables after get_cart_info, and the customer and order it settled on. */
  datatype Resolution = Resolution(customers: seq<Customer>, orders: seq<Order>, customer: CustomerId, order: OrderId)

  /**
   `Customer.objects.get_or_create(user=user)` followed by
   `Order.objects.get_or_create(customer=customer, payment=False)`.
   A created customer has empty names; a created order is unpaid.
   */
  function Resolve(cs: seq<Customer>, os: seq<Order>, user: UserId): (r: Resolution)
    ensures r.customer < |r.customers| && r.customers[r.customer].user == user
    ensures r.order < |r.orders| && r.orders[r.order] == Order(r.customer, false)
    ensures r.customers == cs || r.customers == cs + [Customer(user, "", "", None)]
    ensures r.orders == os || r.orders == os + [Order(r.customer, false)]
  {
    var (cs', c) :=
      match FindCustomer(cs, user)
      case Some(c) => (cs, c)
      case None => (cs + [Customer(user, "", "", None)], |cs|);
    var (os', o) :=
      match FindOpenOrder(os, c)
      case Some(o) => (os, o)
      case None => (os + [Order(c, false)], |os|);
    Resolution(cs', os', c, o)
  }

  /** get_or_create keeps a user's customer row unique and each customer's open order unique. */
  lemma ResolveWellFormed(cs: seq<Customer>, os: seq<Order>, user: UserId)
    requires CustomersWellFormed(cs) && OrdersWellFormed(os, |cs|)
    ensures var r := Resolve(cs, os, user);
      CustomersWellFormed(r.customers) && OrdersWellFormed(r.orders, |r.customers|)
  {
  }

  /** After get_cart_info, looking the user's customer up again finds the customer it settled on. */
  lemma ResolveFindsCustomer(cs: seq<Customer>, os: seq<Order>, user: UserId)
    ensures var r := Resolve(cs, os, user);
      FindCustomer(r.customers, user) == Some(r.customer)
  {
    var r := Resolve(cs, os, user);
    match FindCustomer(cs, user) {
      case Some(c) =>
      case None =>
        assert r.customers[|cs|].user == user;
        assert FindCustomer(r.customers, user) == Some(|cs|);
    }
  }

  /** Calling get_cart_info again, with no payment in between, changes nothing and yields the same order. */
  lemma {:induction false} ResolveIdempotent(cs: seq<Customer>, os: seq<Order>, user: UserId)
    ensures var r := Resolve(cs, os, user);
      Resolve(r.customers, r.orders, user) == r
  {
    var r := Resolve(cs, os, user);
    ResolveFindsCustomer(cs, os, user);
    match FindOpenOrder(os, r.customer) {
      case Some(o) =>
      case None =>
        assert r.orders[|os|] == Order(r.customer, false);
        assert FindOpenOrder(r.orders, r.customer) == Some(|os|);
    }
  }

  /**
   Once the resolved order is marked paid, the next get_cart_info creates a
   fresh unpaid order for the same customer, and that order has no lines:
   a second create_payment takes nothing off stock.
   */
  lemma {:induction false} PaymentOpensFreshCart(cs: seq<Customer>, os: seq<Order>, ls: seq<OrderProduct>, user: UserId)
    requires CustomersWellFormed(cs) && OrdersWellFormed(os, |cs|)
    requires forall i | 0 <= i < |ls| :: ls[i].order < |os|
    ensures var r := Resolve(cs, os, user);
      var paid := r.orders[r.order := Order(r.customer, true)];
      var next := Resolve(r.customers, paid, user);
      && next.customers == r.customers
      && next.customer == r.customer
      && next.orders == paid + [Order(r.customer, false)]
      && next.order == |paid|
      && LinesOf(ls, next.order) == []
      && forall p :: QuantityIn(LineMap(ls), (next.order, p)) == 0
  {
    var r := Resolve(cs, os, user);
    ResolveWellFormed(cs, os, user);
    ResolveIdempotent(cs, os, user);
    var paid := r.orders[r.order := Order(r.customer, true)];
    forall i | 0 <= i < |paid| ensures paid[i] != Order(r.customer, false) {
      if i != r.order {
        assert r.orders[i] != Order(r.customer, false) by {
          if i < r.order {
            assert !(r.orders[i].customer == r.orders[r.order].customer && !r.orders[i].payment);
          } else {
            assert !(r.orders[i].customer == r.orders[r.order].customer && !r.orders[i].payment);
          }
        }
      }
    }
    assert FindOpenOrder(paid, r.customer) == None;
    forall p ensures QuantityIn(LineMap(ls), (|paid|, p)) == 0 {
      LineMapAbsent(ls, (|paid|, p));
    }
  }

  // ------------------------------------------------------ line arithmetic

  /**
   The quantity add_or_delete leaves on a line that held q, for a product
   with the given stock; a result of 0 or less means the line is deleted.
   */
  function NextQuantity(action: string, stock: int, q: int): (r: int)
    ensures r == q + 1 <==> action == "add" && 0 < stock && q < stock
    ensures r == q - 1 <==> action == "delete"
    ensures r == q || r == q + 1 || r == q - 1
    ensures q <= stock ==> r <= stock
  {
    if action == "add" && stock > 0 && q < stock then q + 1
    else if action == "delete" then q - 1
    else q
  }

  /** `order_product.save()`, then `order_product.delete()` when its quantity is 0 or less. */
  function SetLine(m: map<LineKey, int>, k: LineKey, q: int): (r: map<LineKey, int>)
    ensures CartPositive(m) ==> CartPositive(r)
    ensures QuantityIn(r, k) == if q <= 0 then 0 else q
    ensures k in r <==> q > 0
    ensures forall k' | k' != k :: (k' in r <==> k' in m) && (k' in m ==> r[k'] == m[k'])
  {
    if q <= 0 then m - {k} else m[k := q]
  }

  /** A 'delete' of a product that is not in the cart, or an unknown action, leaves the cart as it was. */
  lemma NoOpActions(m: map<LineKey, int>, k: LineKey, action: string, stock: int)
    requires forall k' | k' in m :: m[k'] > 0
    requires (action != "add" && action != "delete") || (action == "delete" && k !in m)
    ensures SetLine(m, k, NextQuantity(action, stock, QuantityIn(m, k))) == m
  {
    if k !in m {
      assert m - {k} == m;
    }
  }

  /** Changing the line of a product at or above n leaves the count over the products below n alone. */
  lemma {:induction false} CartQuantityOutside(m: map<LineKey, int>, o: OrderId, p: ProductId, q: int, n: nat)
    requires n <= p
    ensures CartQuantity(SetLine(m, (o, p), q), o, n) == CartQuantity(m, o, n)
  {
    if n > 0 {
      CartQuantityOutside(m, o, p, q, n - 1);
      assert QuantityIn(SetLine(m, (o, p), q), (o, n - 1)) == QuantityIn(m, (o, n - 1));
    }
  }

  /** Setting one line of the order moves the cart's item count by the change on that line. */
  lemma {:induction false} CartQuantitySetLine(m: map<LineKey, int>, o: OrderId, p: ProductId, q: int, n: nat)
    requires p < n
    ensures CartQuantity(SetLine(m, (o, p), q), o, n)
         == CartQuantity(m, o, n) - QuantityIn(m, (o, p)) + (if q <= 0 then 0 else q)
  {
    if n - 1 == p {
      CartQuantityOutside(m, o, p, q, p);
    } else {
      CartQuantitySetLine(m, o, p, q, n - 1);
      assert QuantityIn(SetLine(m, (o, p), q), (o, n - 1)) == QuantityIn(m, (o, n - 1));
    }
  }

  /**
   On a cart whose lines are positive, an 'add' that stock allows raises the
   number of items by one, and a 'delete' of a product in the cart lowers it by one.
   */
  lemma CartCountStep(m: map<LineKey, int>, o: OrderId, p: ProductId, stock: int, n: nat)
    requires p < n && forall k | k in m :: m[k] > 0
    ensures var q := QuantityIn(m, (o, p));
      0 < stock && q < stock ==>
        CartQuantity(SetLine(m, (o, p), NextQuantity("add", stock, q)), o, n) == CartQuantity(m, o, n) + 1
    ensures (o, p) in m ==>
      CartQuantity(SetLine(m, (o, p), NextQuantity("delete", stock, QuantityIn(m, (o, p)))), o, n) == CartQuantity(m, o, n) - 1
  {
    var q := QuantityIn(m, (o, p));
    CartQuantitySetLine(m, o, p, NextQuantity("add", stock, q), n);
    CartQuantitySetLine(m, o, p, NextQuantity("delete", stock, q), n);
  }

  /** Marking an order paid keeps at most one open order per customer. */
  lemma PayOrderWellFormed(os: seq<Order>, customerCount: nat, o: OrderId)
    requires OrdersWellFormed(os, customerCount) && o < |os|
    ensures OrdersWellFormed(os[o := Order(os[o].customer, true)], customerCount)
  {
  }

  lemma UpdateTwice(m: map<LineKey, int>, k: LineKey, first: int, second: int)
    ensures m[k := first][k := second] == m[k := second]
  {
  }

  lemma RemoveAfterUpdate(m: map<LineKey, int>, k: LineKey, q: int)
    ensures m[k := q] - {k} == m - {k}
  {
  }

  // ------------------------------------------------------------ the cart

  /** What get_cart_info hands back to the views. */
  datatype CartInfo = CartInfo(totalPrice: real, totalQuantity: int, order: OrderId, orderProducts: seq<OrderProduct>)

  class CartForAuthenticatedUser {
    const user: UserId
    const db: Database

    constructor(db: Database, user: UserId)
      ensures this.db == db && this.user == user
    {
      this.db := db;
      this.user := user;
    }

    /** get_cart_info: resolve (creating if needed) the customer and the open order, and total it. */
    method GetCartInfo() returns (info: CartInfo)
      requires db.Valid()
      modifies db
      ensures db.Valid()
      ensures var r := Resolve(old(db.customers), old(db.orders), user);
        db.customers == r.customers && db.orders == r.orders && info.order == r.order
      ensures db.products == old(db.products) && db.lines == old(db.lines) && db.nextLinePk == old(db.nextLinePk)
      ensures db.addresses == old(db.addresses) && db.favorites == old(db.favorites)
      ensures info.orderProducts == LinesOf(db.lines, info.order)
      ensures forall i | 0 <= i < |info.orderProducts| :: info.orderProducts[i].product < |db.products|
      ensures info.totalQuantity == OrderTotalProducts(db.lines, info.order)
      ensures info.totalPrice == OrderTotalPrice(db.products, db.lines, info.order)
    {
      var o := OpenOrder();
      var rows := LinesOf(db.lines, o);
      LinesOfProducts(db.lines, o, |db.products|);
      info := CartInfo(OrderTotalPrice(db.products, db.lines, o), OrderTotalProducts(db.lines, o), o, rows);
    }

    /** The two get_or_create calls of get_cart_info: the user's customer row, then its unpaid order. */
    method OpenOrder() returns (o: OrderId)
      requires db.Valid()
      modifies db
      ensures db.Valid()
      ensures var r := Resolve(old(db.customers), old(db.orders), user);
        db.customers == r.customers && db.orders == r.orders && o == r.order
      ensures db.products == old(db.products) && db.lines == old(db.lines) && db.nextLinePk == old(db.nextLinePk)
      ensures db.addresses == old(db.addresses) && db.favorites == old(db.favorites)
    {
      var r := Resolve(db.customers, db.orders, user);
      ResolveWellFormed(db.customers, db.orders, user);
      db.customers, db.orders := r.customers, r.orders;
      o := r.order;
    }

    /**
     add_or_delete: resolve the open order, find the product by slug, get or
     create its line at quantity 0, add or take one, save, and delete the
     line when its quantity is 0 or less.
     */
    method AddOrDelete(slug: string, action: string) returns (st: Status)
      requires db.Valid()
      modifies db
      ensures db.Valid()
      ensures var r := Resolve(old(db.customers), old(db.orders), user);
        db.customers == r.customers && db.orders == r.orders
      ensures db.products == old(db.products) && db.addresses == old(db.addresses) && db.favorites == old(db.favorites)
      ensures FindBySlug(old(db.products), slug).None? ==>
        st == Failed(DoesNotExist) && db.lines == old(db.lines)
      ensures FindBySlug(old(db.products), slug).Some? ==>
        var p := FindBySlug(old(db.products), slug).value;
        var k := (Resolve(old(db.customers), old(db.orders), user).order, p);
        var m := old(LineMap(db.lines));
        && st == Done
        && LineMap(db.lines) == SetLine(m, k, NextQuantity(action, old(db.products)[p].quantity, QuantityIn(m, k)))
    {
      var info := GetCartInfo();
      var found := FindBySlug(db.products, slug);
      if found.None? {
        return Failed(DoesNotExist);
      }
      var product := db.products[found.value];
      ChangeLine(info.order, product, action);
      st := Done;
    }

    /** Lines 36-47 of add_or_delete: get or create the line, add or take one, save, delete at 0 or less. */
    method ChangeLine(o: OrderId, product: Product, action: string)
      requires db.Valid() && o < |db.orders| && product.id < |db.products|
      modifies db
      ensures db.Valid()
      ensures db.products == old(db.products) && db.customers == old(db.customers) && db.orders == old(db.orders)
      ensures db.addresses == old(db.addresses) && db.favorites == old(db.favorites)
      ensures var k := (o, product.id);
        LineMap(db.lines) == SetLine(old(LineMap(db.lines)), k, NextQuantity(action, product.quantity, QuantityIn(old(LineMap(db.lines)), k)))
    {
      ghost var m := LineMap(db.lines);
      ghost var k := (o, product.id);
      var line := db.GetOrCreateLine(o, product.id);
      ghost var created := line.quantity;
      if action == "add" && product.quantity > 0 && line.quantity < product.quantity {
        line := line.(quantity := line.quantity + 1);
      } else if action == "delete" {
        line := line.(quantity := line.quantity - 1);
      }
      ghost var nq := NextQuantity(action, product.quantity, QuantityIn(m, k));
      assert line.quantity == nq;
      db.SaveLine(line);
      UpdateTwice(m, k, created, nq);
      assert LineMap(db.lines) == m[k := nq];
      if line.quantity <= 0 {
        ghost var saved := LineMap(db.lines);
        db.DeleteLine(line);
        assert LineMap(db.lines) == saved - {k};
        RemoveAfterUpdate(m, k, nq);
      }
      assert LineMap(db.lines) == SetLine(m, k, nq);
    }

    /**
     create_payment: take each line's quantity off its product's stock, then
     mark the resolved order paid.
     */
    method CreatePayment()
      requires db.Valid()
      modifies db
      ensures db.Valid()
      ensures var r := Resolve(old(db.customers), old(db.orders), user);
        && db.customers == r.customers
        && db.orders == r.orders[r.order := Order(r.customer, true)]
        && |db.products| == |old(db.products)|
        && forall p | 0 <= p < |db.products| ::
             db.products[p] == old(db.products)[p].(quantity := old(db.products)[p].quantity - QuantityIn(old(LineMap(db.lines)), (r.order, p)))
      ensures db.lines == old(db.lines) && db.nextLinePk == old(db.nextLinePk)
      ensures db.addresses == old(db.addresses) && db.favorites == old(db.favorites)
    {
      ghost var m := LineMap(db.lines);
      var info := GetCartInfo();
      var o := info.order;
      TakeOffStock(info.orderProducts);
      forall p | 0 <= p < |db.products|
        ensures SumFor(info.orderProducts, p) == QuantityIn(m, (o, p))
      {
        SumForOrder(db.lines, o, p);
      }
      PayOrderWellFormed(db.orders, |db.customers|, o);
      db.orders := db.orders[o := Order(db.orders[o].customer, true)];
    }

    /** The loop of create_payment: each item's quantity is taken off its product, which is saved. */
    method TakeOffStock(items: seq<OrderProduct>)
      requires db.Tables()
      requires forall i | 0 <= i < |items| :: items[i].product < |db.products|
      modifies db
      ensures db.Tables()
      ensures |db.products| == |old(db.products)|
      ensures forall p | 0 <= p < |db.products| ::
        db.products[p] == old(db.products)[p].(quantity := old(db.products)[p].quantity - SumFor(items, p))
      ensures db.customers == old(db.customers) && db.orders == old(db.orders) && db.lines == old(db.lines)
      ensures db.nextLinePk == old(db.nextLinePk) && db.addresses == old(db.addresses) && db.favorites == old(db.favorites)
    {
      ghost var before := db.products;
      var k := 0;
      while k < |items|
        invariant 0 <= k <= |items|
        invariant db.Tables() && |db.products| == |before|
        invariant forall p | 0 <= p < |before| ::
          db.products[p] == before[p].(quantity := before[p].quantity - SumFor(items[..k], p))
        invariant db.customers == old(db.customers) && db.orders == old(db.orders) && db.lines == old(db.lines)
        invariant db.nextLinePk == old(db.nextLinePk) && db.addresses == old(db.addresses) && db.favorites == old(db.favorites)
      {
        var item := items[k];
        var product := db.products[item.product];
        product := product.(quantity := product.quantity - item.quantity);
        db.SaveProduct(product);
        forall p | 0 <= p < |before|
          ensures db.products[p] == before[p].(quantity := before[p].quantity - SumFor(items[..k + 1], p))
        {
          assert items[..k + 1] == items[..k] + [item];
          SumForAppend(items[..k], item, p);
        }
        k := k + 1;
      }
      assert items[..k] == items;
    }
  }
}
