# LOFT furniture shop: cart and order lifecycle

This project models the core of the LOFT shop, a Django furniture store. The core is the life of a cart:

- `CartForAuthenticatedUser` resolves the user's customer row and single open order (`payment=False`), adds one item to or takes one item from an order line (capped by stock), and pays the order by taking the ordered quantities off stock.
- The order totals and the per-line discount arithmetic come from the models.
- The views contain a few small decision rules: the favourites toggle, the catalog filters, removing a cart line, and the checkout's address guard and payment amount.
- The template tags provide the discounted price, the thousands-grouping price formatter, and the query-string override.

The database is an in-memory `Database` class. It holds one sequence of rows per table, and the favourites as a set of (user, product) pairs. Its methods are the ORM writes on lines and products: get-or-create, save and delete of a line, and save of a product. The other writes are direct assignments to the table fields by their callers: the customer and order `get_or_create` of `get_cart_info` (`Cart.CartForAuthenticatedUser.OpenOrder`), the `order.save()` that marks an order paid (`Cart.CartForAuthenticatedUser.CreatePayment`), the customer and address saves of the checkout (`Views.SaveForms`), and the favourites toggle (`Views.AddToFavoriteView`). The order lines are also seen through an abstract cart view, `LineMap`, which maps each (order, product) pair to a quantity. The cart methods are specified against that view, and `Database.Valid()` keeps every line of the view positive. Prices are exact `real`s. Python's `int()` on a float is modelled as truncation toward zero (`Common.Trunc`).

Files:

- `common.dfy`: options, results, the two uncaught Python errors (DoesNotExist, TypeError), truncation, and list filtering.
- `models.dfy`: rows, the database, lookups, the cart view, order totals, discounts, and the in-place `get_total_price`.
- `cart.dfy`: `CartForAuthenticatedUser` and the laws of its operations.
- `views.dfy`: the view rules.
- `loft_tags.dfy`: the template helpers.

Some behaviours of the code are easy to expect otherwise:

- **A second payment is not refused.** Nothing guards `create_payment` against an order that is already paid: `get_cart_info` creates a fresh empty open order, and `create_payment` marks that order paid. Stock stays unchanged because the fresh order has no lines (`Cart.PaymentOpensFreshCart`).
- **An unknown action is a no-op.** `add_or_delete` saves an existing line unchanged, and a missing line is created at quantity 0 and deleted again. Either way the cart is unchanged (`Cart.NoOpActions`).
- **The amount is truncated, not rounded.** The checkout charges `int(total) * 100` (`Views.UnitAmount`).
- **A missing row raises Django's DoesNotExist.** The model returns it as `Failed(DoesNotExist)`. Whatever was written before the failing lookup stays written: `get_cart_info` has already run when `Product.objects.get` fails in `add_or_delete`.

## Model

| member | source | states |
|---|---|---|
| Models.Database.GetOrCreateLine | shop/loft/utils.py:36 | returns the existing line of (order, product), or appends a new one whose quantity is the field default 0; the cart view gains the key at the line's quantity and nothing else changes |
| Models.Database.SaveLine | shop/loft/utils.py:43 | the row with the line's pk takes the new values; the cart view changes only at that line's key |
| Models.Database.DeleteLine | shop/loft/utils.py:47 | the row with the line's pk is removed; the cart view loses exactly that key |
| Models.Database.SaveProduct | shop/loft/utils.py:56 | the product row is replaced and every other table is untouched |
| Common.Trunc | shop/loft/views.py:315 | Python's `int()` on a float: the largest integer not above a non-negative x, the smallest not below a negative x (also at views.py:81 and 83) |
| Common.Filter | shop/loft/views.py:81 | a list comprehension keeps each element satisfying the condition as many times as it occurs, drops the rest, and keeps or drops a single element by the condition |
| Common.FilterConcat | shop/loft/views.py:81 | filtering a concatenation concatenates the filtered parts, so the comprehension keeps its input order |
| Models.PositiveRows | shop/loft/utils.py:46-47 | in a valid database no stored line has quantity 0 or less |
| Models.FindBySlug | shop/loft/utils.py:35 | finds a product with the slug, or reports that no product has it |
| Models.FindCustomer | shop/loft/utils.py:16 | finds the first customer row of the user, or reports that none exists |
| Models.FindOpenOrder | shop/loft/utils.py:18 | finds the first unpaid order of the customer, or reports that none exists |
| Models.FindLine | shop/loft/utils.py:36 | finds the line of an (order, product) pair, or reports that none exists |
| Models.FindLineByPk | shop/loft/views.py:250 | finds the line with the given pk in the given order, or reports that none exists |
| Models.LinesOf | shop/loft/models.py:137 | an order's line set holds exactly the lines whose order is that order, and is empty when no line references the order |
| Models.OrderTotalProducts | shop/loft/models.py:141-145 | an order without lines has total quantity 0; with positive lines the total is at least the number of lines |
| Models.TotalProducts | shop/loft/models.py:144 | the sum of positive quantities is at least the number of rows |
| Models.OrderTotalPrice | shop/loft/models.py:135-139 | an order without lines costs 0; when no product is discounted the total is the list-price total of the order's lines |
| Models.TotalPrice | shop/loft/models.py:138 | when none of the rows' products is discounted, the sum of the line totals is the sum of price times quantity |
| Models.OrderTotalIsCartQuantity | shop/loft/models.py:141-145 | get_order_total_products equals the sum over all products of the quantity the cart holds of each |
| Models.SumForOrder | shop/loft/models.py:143-144 | with one line per (order, product), one product's quantity summed over an order's lines is that product's cart quantity |
| Models.TotalPriceBounds | shop/loft/models.py:135-139 | with non-negative prices, discounts in 0..100 and positive quantities, the order total lies between 0 and the undiscounted total |
| Models.HasDiscount | shop/loft/models.py:165 | the truthiness test `if self.product.discount`; for a discount that is absent or in 0..100 it holds exactly when the discount is above 0 |
| Models.LineTotalValue | shop/loft/models.py:165-169 | a zero or missing discount gives price times quantity; any other discount d gives price * (100 - d) / 100 * quantity |
| Models.EffectivePrice | shop/loft/models.py:165-167 | a zero or missing discount leaves the price alone; any other discount d gives price * (100 - d) / 100 |
| Models.EffectivePriceBounds | shop/loft/models.py:165-167 | for a discount in 0..100 the discounted price lies between 0 and the list price |
| Models.LineTotalMonotone | shop/loft/models.py:169 | a line's discounted total lies between 0 and its undiscounted total, price times quantity |
| Models.DiscountExample | shop/loft/models.py:164-170 | price 20000, discount 10, quantity 2 gives 18000 per unit and 36000 for the line |
| Models.OrderProductRecord.GetTotalPrice | shop/loft/models.py:164-170 | the product instance's price is overwritten with the discounted price, and the result is the discounted line total of the old price |
| Models.OrderProductRecord.TotalPrice | shop/loft/models.py:172-174 | total_price is the current price times the quantity, with no discount and no change to the product |
| Models.OrderProductRecord.DiscountedTotal | shop/loft/models.py:164-170 | the discounted line total, computed without writing to the product |
| Models.CompoundingExample | shop/loft/models.py:167 | two readings of get_total_price on one instance give 36000 and then 32400 |
| Models.StableExample | shop/loft/models.py:164-170 | two readings of the non-mutating total give 36000 both times |
| Models.DiscountCompounds | shop/loft/models.py:167 | for any discount d the second reading is price * (1 - d/100)^2 * quantity |
| Cart.Resolve | shop/loft/utils.py:16-18 | get_or_create of the customer, then of its open order: the resolved order is an unpaid order of the user's customer, and each table is unchanged or grows by one default row (unpaid order, per models.py:123) |
| Cart.ResolveWellFormed | shop/loft/utils.py:16-18 | resolving keeps one customer per user and at most one open order per customer |
| Cart.ResolveIdempotent | shop/loft/utils.py:16-18 | a second get_cart_info without a payment in between changes nothing and yields the same order |
| Cart.ResolveFindsCustomer | shop/loft/views.py:295 | after get_cart_info, `Customer.objects.get(user=...)` finds the customer that get_cart_info settled on |
| Cart.PaymentOpensFreshCart | shop/loft/utils.py:50-59 | after the order is paid, the next get_cart_info appends a fresh unpaid order with no lines, so a second payment takes nothing off stock |
| Cart.NextQuantity | shop/loft/utils.py:38-41 | the line goes up by exactly one if and only if the action is 'add', stock > 0 and the line is below stock; it goes down by one if and only if the action is 'delete'; otherwise it stays; a line at or below stock stays at or below stock |
| Cart.SetLine | shop/loft/utils.py:43-47 | saving a line and deleting it at 0 or less keeps every cart line positive, leaves the key present exactly when the quantity is positive, and changes no other line |
| Cart.NoOpActions | shop/loft/utils.py:36-47 | a 'delete' of a product not in the cart, or an unknown action, leaves the cart exactly as it was |
| Cart.CartQuantitySetLine | shop/loft/utils.py:36-47 | setting one line moves the cart's item count by the change on that line |
| Cart.CartCountStep | shop/loft/utils.py:38-41 | an 'add' that stock allows raises the item count by one, and a 'delete' of a product in the cart lowers it by one |
| Cart.PayOrderWellFormed | shop/loft/utils.py:58 | marking the order paid keeps at most one open order per customer |
| Cart.CartForAuthenticatedUser.constructor | shop/loft/utils.py:7-8 | the cart holds the database and the requesting user |
| Cart.CartForAuthenticatedUser.GetCartInfo | shop/loft/utils.py:15-29 | the customer and order tables become those of Resolve; the result names the resolved order, its lines, and their total quantity and total price; nothing else changes |
| Cart.CartForAuthenticatedUser.OpenOrder | shop/loft/utils.py:16-18 | the two get_or_create calls leave the customer and order tables as Resolve gives them, return the resolved order, and touch no other table |
| Cart.CartForAuthenticatedUser.AddOrDelete | shop/loft/utils.py:33-47 | after resolving the order, an unknown slug fails with DoesNotExist and leaves the lines alone; otherwise the cart view changes only at (order, product), to the next quantity, removed at 0 or less; stock never changes and all lines stay positive |
| Cart.CartForAuthenticatedUser.ChangeLine | shop/loft/utils.py:36-47 | get-or-create, step, save and conditional delete of one line amount to setting that key of the cart view to its next quantity |
| Cart.CartForAuthenticatedUser.CreatePayment | shop/loft/utils.py:50-59 | every product's stock drops by exactly its quantity in the resolved order, no other field changes, and that order is marked paid |
| Cart.CartForAuthenticatedUser.TakeOffStock | shop/loft/utils.py:53-56 | the loop lowers each product's stock by the summed quantity of the items for that product |
| Views.Toggled | shop/loft/views.py:173-177 | the pair is present afterwards if and only if it was absent; every other pair keeps its membership |
| Views.ToggleTwice | shop/loft/views.py:171-177 | toggling the same pair twice restores the favourites |
| Views.AddToFavoriteView | shop/loft/views.py:165-177 | an unknown slug fails with DoesNotExist; otherwise the user's favourite for the product is toggled and nothing else changes |
| Views.PriceFilter | shop/loft/views.py:80-83 | keeps exactly the products whose truncated price is within the given bounds, with their multiplicities; no bounds keeps the list as it is |
| Views.InPriceRange | shop/loft/views.py:80-83 | absent bounds let every product through, and crossed bounds (from above till) let none through |
| Views.PriceFilterKeepsOrder | shop/loft/views.py:80-83 | the filter keeps the catalog order: filtering a concatenation concatenates the filtered parts, and one product is kept exactly when it is in range |
| Views.Sales | shop/loft/views.py:209-212 | fails with TypeError if and only if some product has no discount; otherwise keeps exactly the products with a discount above 0, in catalog order |
| Views.SalesKeepsOrder | shop/loft/views.py:209-212 | when both parts succeed, the sales list of a concatenation is the sales list of the first part followed by that of the second |
| Views.Related | shop/loft/views.py:34-36 | keeps exactly the products of the same category other than the product itself |
| Views.RelatedKeepsOrder | shop/loft/views.py:34-36 | the related list keeps the catalog order, and one product is kept exactly when it shares the category and is not the product itself |
| Views.AddProductToCart | shop/loft/views.py:216-222 | with an empty slug or action nothing changes; otherwise the effect is add_or_delete's (the constructor's call at utils.py:10-11) |
| Views.DeleteProductFromCart | shop/loft/views.py:246-252 | a missing (pk, order) line fails with DoesNotExist; otherwise the cart loses that line whatever its quantity, and nothing else changes |
| Views.HasAddress | shop/loft/views.py:304 | the guard holds exactly when some saved address references the order |
| Views.AddressGuardKeepsOnePerOrder | shop/loft/views.py:304-305 | saving an address only when none references its order keeps at most one address per order, and afterwards the order has one |
| Views.UnitAmount | shop/loft/views.py:315 | the amount is a whole multiple of 100 and is the total in kopecks with the fraction truncated toward zero |
| Views.UnitAmountExample | shop/loft/views.py:315 | 18000.99 is charged as 1800000 |
| Views.CreateCheckoutSession | shop/loft/views.py:286-315 | the cart is resolved; with an invalid form nothing else changes; otherwise the customer's names are overwritten, an address is saved only if no address references the order, and the amount is the truncated order total times 100 |
| Views.SaveForms | shop/loft/views.py:295-305 | the customer row takes the form's names and telegram and keeps its user; the address is appended only if no address references the order, and afterwards one does; the database stays valid |
| LoftTags.GetDiscountPrice | shop/loft/templatetags/loft_tags.py:34-38 | a discount above 0 gives price * (100 - d) / 100, one at or below 0 leaves the price, and a missing discount raises TypeError |
| LoftTags.DiscountPriceBounds | shop/loft/templatetags/loft_tags.py:36-38 | for a discount in 0..100 the shown price lies between 0 and the price |
| LoftTags.DiscountPriceAgreesWithLineTotal | shop/loft/templatetags/loft_tags.py:36-38 | for a non-negative discount the shown price is the one-unit total that get_total_price returns on a first reading |
| LoftTags.NegativeDiscountDiffers | shop/loft/templatetags/loft_tags.py:36 | a negative discount is ignored by the tag but applied as a surcharge by get_total_price |
| LoftTags.DecimalString | shop/loft/templatetags/loft_tags.py:45 | a non-empty string of decimal digits whose first digit is 0 only for n = 0, written "0" |
| LoftTags.DecimalStringValue | shop/loft/templatetags/loft_tags.py:45 | the digit string written for n reads back as n |
| LoftTags.Str | shop/loft/templatetags/loft_tags.py:45 | str(n) is a minus sign for negative n followed by digits that read back as the magnitude of n, with no leading zero; 0 is written "0" |
| LoftTags.Group | shop/loft/templatetags/loft_tags.py:45 | grouping k >= 1 characters adds (k - 1) / 3 separators, and leaves three or fewer characters as they are |
| LoftTags.GetPrice | shop/loft/templatetags/loft_tags.py:44-45 | removing the spaces from get_price(n) gives str(n); one space is added per full group of three digits to the right of the first (length k + (k - 1) / 3 for k digits), after the sign for negative n; for n >= 0 a space stands exactly where i > 0 and a multiple of four characters remains from i |
| LoftTags.GroupRemoveSpaces | shop/loft/templatetags/loft_tags.py:45 | removing the spaces from a grouped digit string gives the digits back |
| LoftTags.GroupLayout | shop/loft/templatetags/loft_tags.py:45 | in a grouped digit string, position i holds a space exactly when i > 0 and a multiple of four characters remains from i (the length k + (k - 1) / 3 is Group's own ensures) |
| LoftTags.GetPriceExamples | shop/loft/templatetags/loft_tags.py:44-45 | 999, 1234567 and -1234 are written as "999", "1 234 567" and "-1 234" |
| LoftTags.QueryParams | shop/loft/templatetags/loft_tags.py:20-23 | every keyword key maps to its single given value, every other key of the query keeps its values, and no other key appears |

## Left out

- Django's ORM is replaced by the `Database` class. Querysets, transactions, `MultipleObjectsReturned`, and `on_delete=SET_NULL` on deleted products or orders are not modelled.
- The Stripe session creation and the redirect to its URL are left out. The payment provider is a network call, so only the requested amount is modelled.
- Login, logout, registration, profile and the `is_authenticated` branches are left out. They are authentication plumbing, and every modelled view assumes a logged-in user.
- Form validation (`forms.py`) is out of scope because Django validates the forms. A valid form is an `Option` holding its cleaned data, and an invalid form is `None`.
- The admin, URL routing, templates, pagination, `HTTP_REFERER` redirects, the price dropdown list and image helpers are Django plumbing with no cart logic.
- `my_cart_view`, `checkout_view` and `success_payment` only forward to `get_cart_info` or `create_payment`, which are modelled.
- The category, colour and brand ORM filters of `CategoryView.get_queryset` (views.py:74-79) are not modelled. Only the price bounds are.
- Views.PriceFilter: parsing the bound strings with `int()` is left out, including the ValueError on a non-numeric bound. A bound is given as an already-parsed `Option<int>`.
- Floating-point rounding of `FloatField` prices is left out, because prices are exact reals.
- LoftTags.GetPrice: models the tag only for a Python `int` argument. `Product.price` is a FloatField (models.py:34), and Python prints a float with its fraction, so `get_price(20000.0)` gives "20 000.0" where the model gives "20 000". Float formatting is left out.
- LoftTags.GetDiscountPrice: stops at the number the tag formats. The formatting at loft_tags.py:40 is left out; with a discount above 0 the true division at loft_tags.py:37 always yields a float.
- `urlencode` in `query_params` is left out because it is a library call. `LoftTags.QueryParams` stops at the updated dictionary.
- `request.method` other than POST in `create_checkout_session` returns nothing and is left out.
- Concurrent requests on the same cart, and the non-atomic loop of `create_payment`, are left out because the model is sequential.

## Findings

| source | as written | input that shows it | evidently intended | confidence | as-written member | corrected member |
|---|---|---|---|---|---|---|
| shop/loft/models.py:167 | `get_total_price` subtracts the discount from `self.product.price` in place, so every reading on the same instance applies the discount again | price 20000, discount 10, quantity 2: the first reading gives 36000, the second 32400 | the discounted line total, the same on every reading, without writing to the product | not executed | Models.CompoundingExample | Models.OrderProductRecord.DiscountedTotal |
