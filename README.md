# mayaj storefront: cart, checkout and order rules in Dafny

This project models the part of the mayaj Django storefront that turns a
session cart into persisted orders. It covers:

- the session cart class (`store/cart_utils.py`): line keys
  `"<product id>_<size or 'no_size'>"`, `add`, `remove`, `save`, iteration
  joined to the product table, `__len__`, `get_total_price`, `clear`;
- the views `cart_detail`, `update_cart`, `buy_now`, `checkout` and
  `order_details` (`store/views.py`), each as a handler returning which
  redirect or page it answers with;
- the model rules they rely on (`store/models.py`): `Product.is_in_stock` and
  `get_discount_percentage`, Offer and ComboOffer activity, `badge_text`,
  `savings_amount`, the singleton `save` of the settings pages, `Order.save`
  with its order-number generation and `paid_at` rule, `mark_as_paid`,
  `is_paid`, `can_be_cancelled`, `get_payment_method_display_name`,
  `OrderItem.save` and `total_price`.

Layout, one module per file:

- `base.dfy`: Python truthiness of optional strings and decimals.
- `text.dfy`: `str(n)` and zero-padded digit strings.
- `catalog.dfy`: products and their size rows.
- `promotions.dfy`: offers and combos.
- `db.dfy`: a table with AUTOINCREMENT keys, standing in for SQLite.
- `sitecontent.dfy`: the singleton settings records.
- `cart.dfy`: the session and the cart.
- `orders.dfy`: Order and OrderItem.
- `views.dfy`: the request handlers.

How the model represents things:

- The session dictionary is a sequence of entries with distinct keys,
  because Python keeps insertion order and iteration follows it.
- Decimal prices are `real`.
- Times are integers in microseconds.
- The cart and the model instances are classes whose methods change their
  fields. The database tables are objects those methods modify.
- The clock reading and the random order-number suffix are parameters.

Behaviours of the code that the model keeps, some of them surprising:

- `update_cart` and `checkout` accept inactive products. Only `buy_now`
  requires `is_active`.
- `mark_as_paid` sets `paid_at` again on every call, not once.
- The Order and its items are not written atomically. A failing item save
  leaves the Order and the items already written in place, and the cart is
  kept.
- A cart line whose product has been deleted is still charged in the
  subtotal, but it gets no OrderItem.
- An OrderItem with negative quantity is refused by the database CHECK
  constraint of `PositiveIntegerField`. Its `MinValueValidator(1)` is never
  run by `objects.create`, so a zero quantity is stored.

## Model

| member | source | states |
|---|---|---|
| Text.NatToString | store/cart_utils.py:13 | `str(id)` is a non-empty digit string that starts with '0' only for zero |
| Text.NatToStringValue | store/cart_utils.py:13 | the digits of `str(n)` denote `n` |
| Text.NatToStringInjective | store/cart_utils.py:13-15 | distinct product ids give distinct key prefixes |
| Text.Padded | store/models.py:692 | a padded field has exactly the requested width and only digits |
| Text.PaddedValue | store/models.py:692 | padding a number that fits the width loses nothing |
| Text.NatToStringIsPadded | store/models.py:693-694 | a three-digit suffix prints as its three-digit padded form |
| Catalog.FindProduct | store/views.py:323 | a found product is in the table with that id; not found means no row has the id |
| Catalog.FindSize | store/views.py:358 | `sizes.filter(size=...).first()`: a found row has that size; not found means no row has it |
| Catalog.TruncateTowardZero | store/models.py:105 | `int(x)` lies within one of `x`, on the side of zero |
| Catalog.DiscountPercentage | store/models.py:101-106 | zero without a truthy discount or a positive price; between 0 and 99 for a discount between 0 and the price; not positive for a discount above the price (its exact value is pinned by `DiscountPercentageIsWholePart`) |
| Catalog.DiscountRatioBounds | store/models.py:104-105 | the saved share, in percent, is between 0 and 100, and below 100 for a positive discount |
| Catalog.DiscountPercentageIsWholePart | store/models.py:102-106 | the percentage is the saved share truncated toward zero: r% of price <= saving < (r+1)% of price for a discount up to the price, and (r-1)% of price < saving <= r% of price for a discount above it |
| Catalog.DiscountAboveRoundsTowardZero | store/models.py:105 | a price of 3 with a discount price of 4 gives -33, where a floor would give -34 |
| Catalog.FindProductUnique | store/views.py:323 | with unique primary keys, the product found is the only row with that id |
| Promotions.DaysRemaining | store/models.py:209 | `timedelta.days` is the floor of the remaining time in whole days |
| Promotions.BadgeTextCases | store/models.py:207-217 | "Ending Soon" exactly when fewer than four whole days remain; otherwise the label follows the offer type |
| Promotions.SavingsAmount | store/models.py:256-258 | the saving plus the discount price is the original price; it is positive exactly when the discount price is lower |
| Promotions.ComboActivityIsOfferActivityWithStock | store/models.py:261-263 | a combo is active exactly when an offer over its window is active and stock remains; activity implies start <= end |
| Db.Table.Insert | store/models.py:686 | an insert gets the next key, which no row had, and changes only that row |
| Db.Table.Put | store/models.py:686 | saving under a key writes exactly that row and keeps the next key beyond it |
| SiteContent.FirstKey | store/models.py:50 | the scan returns the smallest key, that is `objects.first()` |
| SiteContent.NewRecordOverwritesFirstRow | store/models.py:48-52 | a record without a key takes the first row's key when one exists, and otherwise becomes the only row |
| SiteContent.SingletonSaveKeepsOneRow | store/models.py:299-303 | from at most one row, saving a new record or the existing one leaves at most one row with the same key |
| SiteContent.ForeignKeyAddsRow | store/models.py:366-370 | for every table, saving a record whose truthy key is not in the table writes it beside the existing rows, so the table grows by one; the one-row guarantee holds only for records without a key |
| SiteContent.SettingsRecord.Save | store/models.py:503-507 | the table and the record's key after save are the singleton save of the old state |
| ShoppingCart.CartKeyInjective | store/cart_utils.py:13-15 | two keys are equal exactly when product and size key are equal |
| ShoppingCart.UnsizedKeysCoincide | store/cart_utils.py:14 | no size, an empty size and "no_size" share one line; any other size has its own |
| ShoppingCart.Find | store/cart_utils.py:17 | `key in self.cart`: a found position holds the key; not found means no entry holds it |
| ShoppingCart.FindUnique | store/cart_utils.py:17 | with distinct keys, each entry is found at its own position |
| ShoppingCart.LookupAfterUpdate | store/cart_utils.py:26-28 | replacing one line keeps keys distinct and changes only that key's line |
| ShoppingCart.LookupAfterAppend | store/cart_utils.py:18-23 | adding a fresh key keeps keys distinct and adds only that key |
| ShoppingCart.SumsAfterUpdate | store/cart_utils.py:54-58 | replacing one line moves `len` and the total by exactly that line's difference |
| ShoppingCart.QuantitySumConcat | store/cart_utils.py:54-55 | `len` of two runs of lines is the sum of their counts |
| ShoppingCart.PriceTotalConcat | store/cart_utils.py:57-58 | the total of two runs of lines is the sum of their totals |
| ShoppingCart.AddedLines | store/cart_utils.py:12-30 | a new line snapshots the effective price and the size; an existing line keeps both and has its quantity replaced or incremented; no other line changes |
| ShoppingCart.QuantityAfterAdd | store/cart_utils.py:25-28 | after `add`, `len` moves by the quantity, or by the new quantity minus the old one when replacing |
| ShoppingCart.TotalAfterAdd | store/cart_utils.py:18-28 | after `add`, the total moves by the targeted line's change, at that line's snapshot price |
| ShoppingCart.RemovedLines | store/cart_utils.py:32-38 | `remove` drops exactly the line under the key and lowers `len` by its quantity; an absent key changes nothing |
| ShoppingCart.DeletedAt | store/cart_utils.py:37 | deleting one entry keeps keys distinct, removes that key, keeps every other lookup and lowers the count by its quantity |
| ShoppingCart.QuantitySetLines | store/views.py:326-331 | update_cart changes only the quantity of the line under the key, only when that line exists |
| ShoppingCart.QuantitySetIsReplacingAdd | store/views.py:329-330 | that update is an `add` with `update_quantity=True` when the line exists, and a no-op otherwise |
| ShoppingCart.ProductIds | store/cart_utils.py:45 | one product id per line, in line order |
| ShoppingCart.QueriedJoin | store/cart_utils.py:45-46 | restricting the product query to the cart's ids yields the same items as iterating the whole table |
| ShoppingCart.JoinedSound | store/cart_utils.py:48-52 | every yielded item is a cart line with its own product attached |
| ShoppingCart.JoinedComplete | store/cart_utils.py:48-52 | every line whose product is in the table is yielded with that product |
| ShoppingCart.CountIdUnique | store/cart_utils.py:46 | with unique product keys, an id matches one product or none |
| ShoppingCart.JoinedCountsPresentLines | store/cart_utils.py:43-52 | iteration yields one item per line whose product exists, and those items total what those lines total |
| ShoppingCart.AllPresent | store/cart_utils.py:43-52 | when every line's product exists, every line is yielded |
| ShoppingCart.Cart.constructor | store/cart_utils.py:5-10 | a missing or empty stored cart is replaced by a new empty one in the session, and that assignment marks the session modified; otherwise the stored lines are used and the flag is unchanged |
| ShoppingCart.Cart.Store | store/cart_utils.py:10 | `self.cart` is the session's dictionary: a change to the lines is a change to the session while it still holds them |
| ShoppingCart.Cart.Save | store/cart_utils.py:40-41 | marks the session modified and changes nothing else |
| ShoppingCart.Cart.Add | store/cart_utils.py:12-30 | the new lines are `Added` of the old ones, written to the session, which is marked modified |
| ShoppingCart.Cart.Remove | store/cart_utils.py:32-38 | the new lines are `Removed` of the old ones; the session is marked modified only when a line was deleted |
| ShoppingCart.Cart.Items | store/cart_utils.py:43-52 | the nested loops yield exactly the products-then-lines join |
| ShoppingCart.Cart.Clear | store/cart_utils.py:60-62 | the session loses its cart and is marked modified; deleting an absent cart fails and changes nothing |
| Orders.Timestamp | store/models.py:692 | `%Y%m%d%H%M` is twelve digits |
| Orders.OrderNumber | store/models.py:688-694 | an order number is "ORD" followed by fifteen digits |
| Orders.OrderNumberRoundTrip | store/models.py:688-694 | the minute and the random suffix can be read back from the number |
| Orders.OrderNumberInjective | store/models.py:688-694 | two numbers are equal exactly when drawn in the same minute with the same suffix |
| Orders.PaidStatusChoice | store/models.py:611-616 | of the four payment statuses exactly "paid" is paid, and only a listed status can be |
| Orders.CancellableStages | store/models.py:706-709 | of the five stages, exactly the first two allow cancelling, and only listed stages do |
| Orders.DisplayNameAgreesWithChoices | store/models.py:723-731 | the label of each listed method is its choice label; any other code is shown as itself |
| Orders.PaidAtRules | store/models.py:678-684 | `paid_at` changes only to now and only for a paid order: on the transition to paid, or for a new paid order without one |
| Orders.SaveEffect | store/models.py:674-686 | a failed save changes no row; a successful one writes exactly the saved row under its key (a fresh key for a new order); order numbers stay unique and a set number is kept |
| Orders.MarkAsPaidOverwritesPaidAt | store/models.py:711-721 | after `mark_as_paid` the order is paid with `paid_at` at the time of the call, and the given payment references are recorded |
| Orders.MarkAsPaidTwice | store/models.py:711-721 | a second `mark_as_paid` moves `paid_at` to the later time |
| Orders.Order.Save | store/models.py:674-686 | the order and the table after save are `OrderSaved` of the old state |
| Orders.Order.MarkAsPaid | store/models.py:711-721 | the order and the table are one save of the marked order, with one clock reading |
| Orders.AppendedRows | store/views.py:437-445 | rows created one by one keep every existing row, put the i-th new row under the i-th fresh key, and add nothing else |
| Orders.OrderItem.Save | store/models.py:758-767 | an empty name is filled from the product; the save fails exactly on a missing or negative quantity or a missing price, and otherwise inserts the row under a fresh key |
| Views.CartPageCharges | store/views.py:304-314 | the cart page adds 120 shipping exactly when the subtotal is positive, so the total is never below the subtotal |
| Views.CartDetail | store/views.py:299-316 | the page totals come from the restored cart; only an empty or missing cart is written back, and only then is the session marked modified |
| Views.UpdateCart | store/views.py:318-341 | a POST for an existing product sets that line's quantity if the line exists; a missing product answers 404; on POST the session is marked modified when an empty cart is stored or the line is updated; GET changes nothing |
| Views.ActiveProduct | store/views.py:347 | a found product is active and has the id; with unique keys, the 404 happens exactly when no active product has the id |
| Views.BuyNowCheckRespectsStock | store/views.py:351-364 | the corrected check passes exactly when it should: a sized product has a size, a size row holds enough stock, or an unsized product does |
| Views.BuyNowAsWrittenIgnoresSizeStock | store/views.py:357-361 | as written, a size row with stock 0 passes while product stock covers the request |
| Views.BuyNowChecksAgreeWithoutSizeRow | store/views.py:357-364 | without a size, or with a size that names no row, the two checks agree |
| Views.BuyNowGetFails | store/views.py:373 | as written every GET raises; corrected, a GET redirects to the product page |
| Views.BuyNowPostAgrees | store/views.py:346-371 | on POST the two handlers differ only through their stock checks |
| Views.BuyNow | store/views.py:344-373 | the answer is the corrected `buy_now`; the line is added only when the answer is the checkout redirect, and nothing changes otherwise |
| Views.Strip | store/views.py:396 | `strip()` is empty exactly for blank text, otherwise starts and ends with non-space, and is no longer than its input |
| Views.StripIsSlice | store/views.py:396 | `strip()` is what is left of the input: the slice after its leading whitespace, with only whitespace after it |
| Views.StripSurrounded | store/views.py:396 | a core with non-space ends, padded by whitespace on either side, strips to that core |
| Views.StripIdempotent | store/views.py:396 | stripping twice is stripping once |
| Views.PrefillNameFallback | store/views.py:394-403 | the username is used exactly when both names are blank; otherwise the name is non-blank and trimmed; clean names are joined by one space |
| Views.PrefillNameOneName | store/views.py:396-398 | with only one of the two names non-blank, the name is that one stripped |
| Views.PrefillNameBothNames | store/views.py:396-398 | with both names non-blank, the name is the first name stripped on the left, one space and the last name stripped on the right; whitespace between the names is kept |
| Views.StripParts | store/views.py:396 | a non-blank string splits into leading whitespace, the stripped core and trailing whitespace; the core has non-space ends |
| Views.PrefillNamePadded | store/views.py:396 | names padded only on the outside are joined by one space with the padding dropped |
| Views.JoinedBlank | store/views.py:396-398 | `first + " " + last` is blank exactly when both parts are |
| Views.PlacedOrderFacts | store/views.py:409-434 | a checkout order is pending and unpaid with a generated number; its total is the subtotal plus 60 inside or 120 outside; it fails only on a taken number |
| Views.ItemRowsAt | store/views.py:437-445 | the i-th item row is made from the i-th iterated line |
| Views.StoredPrefix | store/views.py:437-445 | the item loop stores lines up to the first negative quantity |
| Views.ItemsSumOfLines | store/models.py:751-756 | the items' `total_price` adds up to the iterated lines' total |
| Views.CheckoutItemsMatchCart | store/views.py:436-445 | one item per line whose product exists, summing to those lines' total; equal to the subtotal when all products exist |
| Views.ItemRowsCopyLines | store/views.py:438-445 | each item belongs to the new order and copies a cart line's product, size, quantity and snapshot price |
| Views.DeletedProductIsChargedWithoutItem | store/views.py:387-445 | a line of a deleted product counts in the subtotal but yields no item |
| Views.CreateItem | store/views.py:438-445 | one create inserts the line's row under the next key, or fails on a negative quantity and changes nothing |
| Views.SaveItems | store/views.py:437-445 | the loop stores the items of the lines before the first failure, in order under fresh keys, and succeeds exactly when none fails |
| Views.PlaceOrder | store/views.py:408-455 | the try block of checkout: on a taken number nothing but the failed save happens; otherwise the items are written and the cart is cleared only when all items saved |
| Views.Checkout | store/views.py:376-468 | a negative count raises, an empty cart redirects, a GET or invalid form shows the totals with 60 shipping and carries the initial data given to the form (shown as such on a GET; a bound POST form shows the submitted data), and a valid POST places the order; only a placed order writes the tables, and otherwise the session is marked modified only when an empty cart was stored |
| Views.OrderDetailsAccess | store/views.py:529-535 | an existing order is shown to its owner and to staff only; an order without a user is shown to staff only |
| Catalog.EffectivePrice | store/cart_utils.py:20 | definition of `discount_price or price`; the snapshot it gives a new line is stated by `ShoppingCart.AddedLines` |
| Catalog.IsInStock | store/models.py:98-99 | definition of `is_in_stock`; used by `Views.BuyNowCheckRespectsStock` |
| Promotions.IsCurrentlyActive | store/models.py:230-232 | definition of `Offer.is_currently_active`; related to combos by `Promotions.ComboActivityIsOfferActivityWithStock` |
| Promotions.IsActiveNow | store/models.py:261-263 | definition of `ComboOffer.is_active_now`; characterised by `Promotions.ComboActivityIsOfferActivityWithStock` |
| Promotions.BadgeText | store/models.py:207-217 | definition of `badge_text`; its cases are stated by `Promotions.BadgeTextCases` |
| Orders.CanBeCancelled | store/models.py:706-709 | definition of `can_be_cancelled`; characterised by `Orders.CancellableStages` |
| Orders.IsPaid | store/models.py:701-704 | definition of `is_paid`; characterised by `Orders.PaidStatusChoice` and used by `Orders.PaidAtRules` |
| Orders.PaymentMethodDisplayName | store/models.py:723-731 | definition of `get_payment_method_display_name`; checked against the choices by `Orders.DisplayNameAgreesWithChoices` |
| Orders.TotalPrice | store/models.py:751-756 | definition of `OrderItem.total_price`; summed by `Views.ItemsSumOfLines` |
| Orders.OrderSaved | store/models.py:674-686 | the state after `Order.save`; its effect is stated by `Orders.SaveEffect` and `Orders.PaidAtRules` |
| Orders.Marked | store/models.py:711-719 | the order `mark_as_paid` saves; stated by `Orders.MarkAsPaidOverwritesPaidAt` |
| ShoppingCart.Added | store/cart_utils.py:12-30 | the lines after `add`; stated by `ShoppingCart.AddedLines`, `QuantityAfterAdd` and `TotalAfterAdd` |
| ShoppingCart.Removed | store/cart_utils.py:32-38 | the lines after `remove`; stated by `ShoppingCart.RemovedLines` |
| ShoppingCart.QuantitySet | store/views.py:326-331 | the lines after update_cart's assignment; stated by `ShoppingCart.QuantitySetLines` and `QuantitySetIsReplacingAdd` |
| ShoppingCart.QuantitySum | store/cart_utils.py:54-55 | the sum of the line quantities; its laws are `ShoppingCart.QuantitySumConcat` and `SumsAfterUpdate` |
| ShoppingCart.PriceTotal | store/cart_utils.py:57-58 | the sum of price times quantity; its laws are `ShoppingCart.PriceTotalConcat` and `SumsAfterUpdate` |
| ShoppingCart.Joined | store/cart_utils.py:43-52 | the products-then-lines join; stated by `ShoppingCart.JoinedSound`, `JoinedComplete` and `JoinedCountsPresentLines` |
| ShoppingCart.Cart.Len | store/cart_utils.py:54-55 | `__len__` is `QuantitySum` of the cart's lines |
| ShoppingCart.Cart.GetTotalPrice | store/cart_utils.py:57-58 | `get_total_price` is `PriceTotal` of the cart's lines |
| Views.BuyNowCheck | store/views.py:351-364 | the corrected checks; characterised by `Views.BuyNowCheckRespectsStock` |
| Views.BuyNowCheckAsWritten | store/views.py:351-364 | the checks as written; compared by `Views.BuyNowAsWrittenIgnoresSizeStock` and `BuyNowChecksAgreeWithoutSizeRow` |
| Views.BuyNowOutcome | store/views.py:344-373 | the corrected answer; `Views.BuyNow` is proved to return it |
| Views.BuyNowOutcomeAsWritten | store/views.py:344-373 | the answer as written; compared by `Views.BuyNowGetFails` and `BuyNowPostAgrees` |
| Views.PrefillName | store/views.py:393-403 | the pre-filled name; stated by `Views.PrefillNameFallback`, `PrefillNameOneName`, `PrefillNameBothNames` and `PrefillNamePadded` |
| Views.CartPageTotals | store/views.py:303-314 | the cart page's totals; stated by `Views.CartPageCharges` |
| Views.OrderDetails | store/views.py:529-535 | the answer of `order_details`; stated by `Views.OrderDetailsAccess` |
| SiteContent.SingletonSave | store/models.py:48-52 | definition of the singleton `save`: a record without a key takes the first row's key when the table has rows, then Django's save writes it; stated by `SiteContent.NewRecordOverwritesFirstRow`, `SingletonSaveKeepsOneRow`, `ForeignKeyAddsRow` and `SettingsRecord.Save` |
| Orders.PaidAtOnSave | store/models.py:678-684 | definition of the `paid_at` rule of `save`; stated by `Orders.PaidAtRules` |
| Orders.WithNumber | store/models.py:675-676 | definition of the first step of `save`: an empty order number is generated, a set one kept; stated by `Orders.SaveEffect` through `Orders.OrderSaved` |
| ShoppingCart.SizeKey | store/cart_utils.py:14 | definition of `size or 'no_size'`; stated by `ShoppingCart.UnsizedKeysCoincide` and `CartKeyInjective` |
| ShoppingCart.CartKey | store/cart_utils.py:13-15 | definition of the line key `"<product_id>_<size_key>"`; stated by `ShoppingCart.CartKeyInjective` and `UnsizedKeysCoincide` |
| ShoppingCart.NewLine | store/cart_utils.py:17-23 | definition of the line a first `add` creates, with quantity 0 and the price snapshot; stated by `ShoppingCart.AddedLines`, `QuantityAfterAdd` and `TotalAfterAdd` |
| ShoppingCart.Bumped | store/cart_utils.py:25-28 | definition of the quantity update, replaced or incremented; stated by `ShoppingCart.AddedLines`, `QuantityAfterAdd` and `TotalAfterAdd` |
| ShoppingCart.StoresEmpty | store/cart_utils.py:8 | definition of `not cart` on the stored value; stated by `ShoppingCart.Cart.constructor`, which marks the session modified exactly then |
| ShoppingCart.Restored | store/cart_utils.py:7-10 | definition of the lines a new Cart starts from; stated by `ShoppingCart.Cart.constructor` and used by `Views.CartDetail`, `UpdateCart` and `Checkout` |
| Views.PrefillEmail | store/views.py:402 | definition of the pre-filled `shipping_email`: the member's email, nothing for an anonymous user; stated by `Views.Checkout` |
| Views.FormValid | store/views.py:407 | definition of `form.is_valid()` on the cleaned data; stated by `Views.Checkout` and `Views.PlacedOrderFacts` |
| Views.DeliveryShipping | store/views.py:410-411 | definition of 60 inside the delivery area and 120 otherwise; stated by `Views.PlacedOrderFacts` |
| Views.PlacedOrder | store/views.py:415-434 | definition of the Order a valid checkout creates; stated by `Views.PlacedOrderFacts` and used by `Views.PlaceOrder` |
| Views.ItemRowOf | store/views.py:438-445 | definition of the OrderItem created for one iterated line; stated by `Views.ItemRowsCopyLines` and `ItemsSumOfLines` |
| Views.CanViewOrder | store/views.py:533 | definition of the owner-or-staff test; stated by `Views.OrderDetailsAccess` |

## Left out

- Floating point: `get_total_price` and the JSON responses convert prices to `float`. The model keeps exact decimals, so rounding is not modelled.
- The DecimalField limits (`max_digits=10`, two decimal places) are not enforced.
- I/O is replaced by parameters: the current time, `datetime.now()`, `random.randint(100, 999)` and the request (method, POST fields, user).
- Template rendering, `messages` flash texts other than buy-now's, and AJAX/JSON responses are left out. Handlers answer with the redirect or page they choose.
- Parse errors in the views are left out. The `int(request.POST.get('quantity', 1))` of update_cart and buy_now raises on non-numbers, and quantities arrive here as already-parsed integers.
- Django form cleaning is reduced to a validity predicate: the email validator and whitespace stripping of form fields are not modelled.
- Years before 1000 and after 9999 are excluded from the order-number round trip. `%Y` would print them with another width.
- `created_at`, `updated_at`, `product_image` and images in general are not modelled, nor are `admin_notes`, `tracking_number` and `shipping_carrier`. None of them affects the modelled behaviour.
- Several Cart objects built over one session dictionary are not modelled. Each request builds one.
- `process_order` is not modelled. It passes `shipping_first_name` and `shipping_last_name`, which Order does not define, so every order attempt there ends in its exception handler.
- The other views (catalogue pages, content pages, reviews, returns, contact) are not modelled.
- The admin site is not modelled.
- `Offer.gradient_classes` and `icon_class` are not modelled (template styling).
- Concurrency between requests is not modelled, for example two checkouts drawing the same order number in the same minute. The UNIQUE constraint failure itself is modelled.
- ShoppingCart.Cart.Items: `__iter__` also stores the product into each line dictionary it yields (`item['product'] = product`), so the session's own lines gain that key. The model yields copies and leaves the stored lines unchanged.
- Orders.Order.MarkAsPaid: the source reads the clock twice, once for `paid_at` and again inside `save`. The model uses one reading for both, so a difference between the two instants is not modelled; `save` only reads the clock when the stored order was not yet paid.
- Orders.AppendedRows: the product FK `PROTECT` and the order FK `CASCADE` are not modelled. Rows are only ever added.

## Findings

| source | as written | input that shows it | evidently intended | confidence | as-written member | corrected member |
|---|---|---|---|---|---|---|
| store/views.py:373 | every non-POST request reaches `redirect('product-desc', slug=product.slug)` with `product` unbound and raises UnboundLocalError | a GET of `/buy-now/<id>/` for an active product | look the product up and redirect to its page | not executed | Views.BuyNowGetFails | Views.BuyNow |
| store/views.py:357-361 | with a size that has a ProductSize row, the product's overall `stock_quantity` is compared instead of that row's stock | product stock 10, size "M" row with stock 0, quantity 5: accepted | compare the quantity with the size row's `stock_quantity` | not executed | Views.BuyNowAsWrittenIgnoresSizeStock | Views.BuyNowCheckRespectsStock |

The handler the rest of the model uses is the corrected one, `Views.BuyNow`.
`Views.BuyNowOutcomeAsWritten` and `Views.BuyNowCheckAsWritten` model the
code as written, and `Views.BuyNowGetFails`,
`Views.BuyNowAsWrittenIgnoresSizeStock` and `Views.BuyNowPostAgrees` relate
the two versions.
