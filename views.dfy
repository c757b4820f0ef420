/**
 The decision rules of the shop's views (shop/loft/views.py): the
 favourites toggle, the catalog filters, removing a cart line, the cart
 request that forwards to add_or_delete, and the checkout's address guard
 and payment amount. Rendering, redirects and the payment provider's
 session are not modelled.
 */
module Views {
  import opened Common
  import opened Models
  import opened Cart

  // ------------------------------------------------------------ favourites

  /** The favourites table after toggling one (user, product) pair. */
  function Toggled(favs: set<(UserId, ProductId)>, pair: (UserId, ProductId)): (r: set<(UserId, ProductId)>)
    ensures pair in r <==> pair !in favs
    ensures forall other | other != pair :: other in r <==> other in favs
  {
    if pair in favs then favs - {pair} else favs + {pair}
  }

  /** Toggling the same pair twice gives back the original favourites. */
  lemma ToggleTwice(favs: set<(UserId, ProductId)>, pair: (UserId, ProductId))
    ensures Toggled(Toggled(favs, pair), pair) == favs
  {
  }

  /**
   add_to_favorite_view: look the product up by slug, then delete the user's
   favourite row for it if there is one, or create it if not.
   */
  method AddToFavoriteView(db: Database, user: UserId, slug: string) returns (st: Status)
    requires db.Valid()
    modifies db`favorites
    ensures db.Valid()
    ensures FindBySlug(db.products, slug).None? ==> st == Failed(DoesNotExist) && db.favorites == old(db.favorites)
    ensures FindBySlug(db.products, slug).Some? ==>
      st == Done && db.favorites == Toggled(old(db.favorites), (user, FindBySlug(db.products, slug).value))
  {
    var found := FindBySlug(db.products, slug);
    if found.None? {
      return Failed(DoesNotExist);
    }
    var product := found.value;
    if (user, product) in db.favorites {
      db.favorites := db.favorites - {(user, product)};
    } else {
      db.favorites := db.favorites + {(user, product)};
    }
    st := Done;
  }

  // --------------------------------------------------------------- filters

  /**
   Both price bounds of the category page hold for a product's truncated
   price: absent bounds let every product through, crossed bounds none.
   */
  predicate InPriceRange(x: Product, from: Option<int>, till: Option<int>)
    ensures from.None? && till.None? ==> InPriceRange(x, from, till)
    ensures from.Some? && till.Some? && from.value > till.value ==> !InPriceRange(x, from, till)
  {
    && (from.None? || Trunc(x.price) >= from.value)
    && (till.None? || Trunc(x.price) <= till.value)
  }

  /**
   The price part of CategoryView.get_queryset: first the `from` bound, then
   the `till` bound, each comparing the truncated price. A bound is None when
   the query parameter is absent or empty.
   */
  function PriceFilter(products: seq<Product>, from: Option<int>, till: Option<int>): (r: seq<Product>)
    ensures forall x :: multiset(r)[x] == if InPriceRange(x, from, till) then multiset(products)[x] else 0
    ensures from.None? && till.None? ==> r == products
  {
    var afterFrom :=
      if from.Some? then Filter(products, (x: Product) => Trunc(x.price) >= from.value) else products;
    if till.Some? then Filter(afterFrom, (x: Product) => Trunc(x.price) <= till.value) else afterFrom
  }

  /**
   The price filter keeps the catalog's order: filtering a concatenation is
   the concatenation of the filtered parts, and a single product is kept
   exactly when it is in range.
   */
  lemma PriceFilterKeepsOrder(a: seq<Product>, b: seq<Product>, from: Option<int>, till: Option<int>)
    ensures PriceFilter(a + b, from, till) == PriceFilter(a, from, till) + PriceFilter(b, from, till)
    ensures |a| == 1 ==> PriceFilter(a, from, till) == if InPriceRange(a[0], from, till) then a else []
  {
    if from.Some? {
      FilterConcat(a, b, (x: Product) => Trunc(x.price) >= from.value);
    }
    var a', b' :=
      if from.Some? then Filter(a, (x: Product) => Trunc(x.price) >= from.value) else a,
      if from.Some? then Filter(b, (x: Product) => Trunc(x.price) >= from.value) else b;
    if till.Some? {
      FilterConcat(a', b', (x: Product) => Trunc(x.price) <= till.value);
    }
  }

  /** The condition of the sales list, for a product with a discount. */
  predicate OnSale(x: Product)
  {
    x.discount.Some? && x.discount.value > 0
  }

  /**
   DiscountProduct.get_queryset: the products whose discount is above 0, in
   catalog order. A product whose discount is NULL makes `None > 0` raise a
   TypeError.
   */
  function Sales(products: seq<Product>): (r: Result<seq<Product>>)
    ensures r.Err? <==> exists i | 0 <= i < |products| :: products[i].discount.None?
    ensures r.Err? ==> r.error == TypeError
    ensures r.Ok? ==> forall x ::
      multiset(r.value)[x] == if x.discount.Some? && x.discount.value > 0 then multiset(products)[x] else 0
    ensures r.Ok? ==> r.value == Filter(products, OnSale)
  {
    if exists i | 0 <= i < |products| :: products[i].discount.None? then Err(TypeError)
    else Ok(Filter(products, OnSale))
  }

  /** The sales list of a catalog is the sales list of its first part followed by that of the rest. */
  lemma SalesKeepsOrder(a: seq<Product>, b: seq<Product>)
    ensures Sales(a).Ok? && Sales(b).Ok? ==> Sales(a + b) == Ok(Sales(a).value + Sales(b).value)
  {
    if Sales(a).Ok? && Sales(b).Ok? {
      forall i | 0 <= i < |a + b| ensures (a + b)[i].discount.Some? {
        if i < |a| {
          assert (a + b)[i] == a[i];
        } else {
          assert (a + b)[i] == b[i - |a|];
        }
      }
      FilterConcat(a, b, OnSale);
    }
  }

  /**
   The related products on a product page: the products of its category,
   without the product itself (model instances compare by primary key).
   */
  function Related(products: seq<Product>, product: Product): (r: seq<Product>)
    ensures forall x ::
      multiset(r)[x] == if x.category == product.category && x.id != product.id then multiset(products)[x] else 0
    ensures forall x | x in r :: x.id != product.id
  {
    var sameCategory := Filter(products, (x: Product) => x.category == product.category);
    Filter(sameCategory, (x: Product) => x.id != product.id)
  }

  /** The related products keep the catalog's order, as the list comprehension does. */
  lemma RelatedKeepsOrder(a: seq<Product>, b: seq<Product>, product: Product)
    ensures Related(a + b, product) == Related(a, product) + Related(b, product)
    ensures |a| == 1 ==> Related(a, product) == if a[0].category == product.category && a[0].id != product.id then a else []
  {
    FilterConcat(a, b, (x: Product) => x.category == product.category);
    var a' := Filter(a, (x: Product) => x.category == product.category);
    var b' := Filter(b, (x: Product) => x.category == product.category);
    FilterConcat(a', b', (x: Product) => x.id != product.id);
  }

  // ------------------------------------------------------------------ cart

  /**
   add_product_to_cart: builds the cart object, whose constructor calls
   add_or_delete only when both the slug and the action are non-empty.
   */
  method AddProductToCart(db: Database, user: UserId, slug: string, action: string) returns (st: Status)
    requires db.Valid()
    modifies db
    ensures db.Valid()
    ensures slug == "" || action == "" ==>
      st == Done && db.products == old(db.products) && db.customers == old(db.customers)
      && db.orders == old(db.orders) && db.lines == old(db.lines)
    ensures slug != "" && action != "" ==>
      var r := Resolve(old(db.customers), old(db.orders), user);
      var m := old(LineMap(db.lines));
      && db.customers == r.customers && db.orders == r.orders && db.products == old(db.products)
      && (FindBySlug(db.products, slug).None? ==> st == Failed(DoesNotExist) && db.lines == old(db.lines))
      && (FindBySlug(db.products, slug).Some? ==>
            var p := FindBySlug(db.products, slug).value;
            st == Done && LineMap(db.lines) == SetLine(m, (r.order, p), NextQuantity(action, db.products[p].quantity, QuantityIn(m, (r.order, p)))))
    ensures db.addresses == old(db.addresses) && db.favorites == old(db.favorites)
  {
    var cart := new CartForAuthenticatedUser(db, user);
    st := Done;
    if slug != "" && action != "" {
      st := cart.AddOrDelete(slug, action);
    }
  }

  /**
   delete_product_from_cart: the line with the given pk in the given order is
   deleted whatever its quantity; no such line raises DoesNotExist.
   */
  method DeleteProductFromCart(db: Database, pk: nat, order: OrderId) returns (st: Status)
    requires db.Valid()
    modifies db
    ensures db.Valid()
    ensures db.products == old(db.products) && db.customers == old(db.customers) && db.orders == old(db.orders)
    ensures db.addresses == old(db.addresses) && db.favorites == old(db.favorites)
    ensures FindLineByPk(old(db.lines), pk, order).None? ==> st == Failed(DoesNotExist) && db.lines == old(db.lines)
    ensures FindLineByPk(old(db.lines), pk, order).Some? ==>
      var line := old(db.lines)[FindLineByPk(old(db.lines), pk, order).value];
      st == Done && LineMap(db.lines) == old(LineMap(db.lines)) - {Key(line)}
  {
    var found := FindLineByPk(db.lines, pk, order);
    if found.None? {
      return Failed(DoesNotExist);
    }
    var line := db.lines[found.value];
    IndexOfPkUnique(db.lines, found.value);
    db.DeleteLine(line);
    st := Done;
  }

  // -------------------------------------------------------------- checkout

  /** The cleaned data of a valid CustomerForm. */
  datatype CustomerForm = CustomerForm(firstName: string, lastName: string, telegram: Option<string>)

  /** The cleaned data of a valid ShippingForm. */
  datatype ShippingForm = ShippingForm(address: string, phone: string, comment: Option<string>, region: nat, city: nat)

  /** `order in [i.order for i in ship_address]`: some saved address references the order. */
  predicate HasAddress(addrs: seq<ShippingAddress>, o: OrderId)
    ensures HasAddress(addrs, o) <==> exists a | a in addrs :: a.order == o
  {
    exists i | 0 <= i < |addrs| :: addrs[i].order == o
  }

  /**
   The checkout's guard: saving the address only when none references its
   order keeps at most one address per order, and afterwards the order has one.
   */
  lemma AddressGuardKeepsOnePerOrder(addrs: seq<ShippingAddress>, orderCount: nat, a: ShippingAddress)
    requires AddressesWellFormed(addrs, orderCount) && a.order < orderCount
    ensures var after := if HasAddress(addrs, a.order) then addrs else addrs + [a];
      AddressesWellFormed(after, orderCount) && HasAddress(after, a.order)
  {
    if !HasAddress(addrs, a.order) {
      var after := addrs + [a];
      assert after[|addrs|].order == a.order;
    }
  }

  /** `int(total_price) * 100`: the total truncated to whole roubles, in kopecks. */
  function UnitAmount(total: real): (r: int)
    ensures r % 100 == 0
    ensures total >= 0.0 ==> 0.0 <= total * 100.0 - r as real < 100.0
    ensures total < 0.0 ==> -100.0 < total * 100.0 - r as real <= 0.0
  {
    Trunc(total) * 100
  }

  /** Truncation drops the kopecks: a total of 18000.99 is charged as 1800000. */
  lemma UnitAmountExample()
    ensures UnitAmount(36000.0) == 3600000
    ensures UnitAmount(18000.99) == 1800000
  {
  }

  /**
   create_checkout_session for a POST: resolve the cart; with both forms
   valid, copy the customer fields, and save a shipping address only if no
   address references the order yet; then the amount is requested from the
   payment provider. With a form invalid the user is sent back to checkout.
   */
  method CreateCheckoutSession(db: Database, user: UserId, customerForm: Option<CustomerForm>, shippingForm: Option<ShippingForm>)
    returns (amount: Option<int>)
    requires db.Valid()
    modifies db
    ensures db.Valid()
    ensures db.products == old(db.products) && db.lines == old(db.lines) && db.favorites == old(db.favorites)
    ensures var r := Resolve(old(db.customers), old(db.orders), user);
      db.orders == r.orders
    ensures customerForm.None? || shippingForm.None? ==>
      var r := Resolve(old(db.customers), old(db.orders), user);
      amount == None && db.customers == r.customers && db.addresses == old(db.addresses)
    ensures customerForm.Some? && shippingForm.Some? ==>
      var r := Resolve(old(db.customers), old(db.orders), user);
      var f := customerForm.value;
      var s := shippingForm.value;
      && db.customers == r.customers[r.customer := Customer(user, f.firstName, f.lastName, f.telegram)]
      && db.addresses == (if HasAddress(old(db.addresses), r.order) then old(db.addresses)
                          else old(db.addresses) + [ShippingAddress(r.customer, r.order, s.address, s.phone, s.comment, s.region, s.city)])
      && amount == Some(UnitAmount(OrderTotalPrice(db.products, db.lines, r.order)))
  {
    ghost var cs, os := db.customers, db.orders;
    var cart := new CartForAuthenticatedUser(db, user);
    var info := cart.GetCartInfo();
    if customerForm.None? || shippingForm.None? {
      return None;
    }
    ResolveFindsCustomer(cs, os, user);
    var c := FindCustomer(db.customers, user).value;
    SaveForms(db, c, info.order, customerForm.value, shippingForm.value);
    amount := Some(UnitAmount(info.totalPrice));
  }

  /**
   Lines 295-305 of create_checkout_session: the customer row takes the
   names and telegram of the customer form, and the shipping address is
   saved for the order unless some address already references it.
   */
  method SaveForms(db: Database, c: CustomerId, o: OrderId, f: CustomerForm, s: ShippingForm)
    requires db.Valid() && c < |db.customers| && o < |db.orders|
    modifies db
    ensures db.Valid()
    ensures db.products == old(db.products) && db.lines == old(db.lines) && db.favorites == old(db.favorites)
    ensures db.orders == old(db.orders) && db.nextLinePk == old(db.nextLinePk)
    ensures db.customers == old(db.customers)[c := Customer(old(db.customers)[c].user, f.firstName, f.lastName, f.telegram)]
    ensures db.addresses == if HasAddress(old(db.addresses), o) then old(db.addresses)
      else old(db.addresses) + [ShippingAddress(c, o, s.address, s.phone, s.comment, s.region, s.city)]
    ensures HasAddress(db.addresses, o)
  {
    db.customers := db.customers[c := db.customers[c].(firstName := f.firstName, lastName := f.lastName, telegram := f.telegram)];
    var address := ShippingAddress(c, o, s.address, s.phone, s.comment, s.region, s.city);
    AddressGuardKeepsOnePerOrder(db.addresses, |db.orders|, address);
    if !HasAddress(db.addresses, o) {
      db.addresses := db.addresses + [address];
    }
  }
}
