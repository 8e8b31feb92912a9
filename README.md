# Art-print store: cart, checkout, payment, refunds and coupons

This project models the shop core of a Django art-print store in Dafny. It covers:

- the cart views that add and remove products;
- checkout, which resolves a shipping and a billing address and dispatches on the payment option;
- the Stripe payment view, which turns the open cart into a paid order with a reference code;
- the refund request and the admin action that grants refunds;
- coupons;
- the pricing methods and field validators of the models;
- the template filter behind the cart badge.

The database is one value, `Store.Db`:

- Every table is a sequence whose indices are the row ids.
- The catalogue is a map from slug to product.
- Money is counted in integer cents. A product price is cents. A coupon's `amount` is whole currency units, so it takes off `100 * amount` cents.
- `filter(...)[0]` is the first match by id (`Store.FirstMatch`).
- `objects.get(...)` has three answers: missing, the row, or more than one (`Store.Get`).
- `Store.Valid` is the invariant every view keeps:
  - each line item names a catalogued product and has a quantity of at least one;
  - a user has at most one unordered line per product, and at most one open cart;
  - every reference points at an existing row;
  - an open cart lists only its user's unordered lines, each at most once;
  - a paid order carries a 20-character reference code, and an open one has none.

Each view is modelled twice. A function of the store gives the new store and how the view ends (`Cart.Add`, `Checkout.Checkout`, `Payments.Pay`, `Refunds.RequestRefund`, `Coupons.AddCoupon`). A method of the class `Views.Shop` then changes the tables step by step, as the view does. Its contract says that the new tables and its answer are the ones that function gives. The lemmas beside each function state what the view promises.

A view ends in a redirect with a flash message, or with a server error. A server error covers three cases: an exception, a view that returns `None`, and a redirect that Django cannot resolve. In each case the view has saved everything it saved before the failure.

Inputs from outside the code are parameters:

- the requester (`Anonymous` or `Authenticated(id)`);
- the posted form;
- Stripe's answer to the charge (`Payments.Charge`);
- the twenty random draws of `create_ref_code`;
- the country codes the checkout form's country selects offer (`countries`);
- whether the refund form's email passes Django's email validator.

## Model

| member | source | states |
|---|---|---|
| RefCodes.CreateRefCode | my_site/views.py:25-26 | the reference code is 20 characters long and drawn from lower-case letters and digits, so it is never empty |
| RefCodes.EveryRefCodeReachable | my_site/views.py:25-26 | every 20-character string over that alphabet is produced by some sequence of draws |
| Models.KindFromCode | my_site/models.py:12-15 | only 'B' and 'S' name an address type, and reading a code back gives that code |
| Models.KindCodeRoundTrip | my_site/models.py:12-15 | writing an address type as its code and reading it back gives the same type |
| Models.Without | my_site/views.py:441 | `items.remove` leaves exactly the other ids in the relation |
| Models.FinalPriceIsQuantityTimesUnitPrice | my_site/models.py:71-80 | a line's final price is its quantity times the unit price, which is the discount price when one is set and non-zero; one more unit adds one unit price; without a discount the final price is `get_total_order_price` |
| Models.SubtotalSnoc | my_site/models.py:145-148 | the running total grows by each line's final price, one line at a time |
| Models.SubtotalAgree | my_site/models.py:145-148 | the total depends only on the listed lines' quantities and products |
| Models.SubtotalUpdate | my_site/models.py:145-148 | changing one listed line changes the total by exactly the difference of that line's prices |
| Models.SubtotalWithout | my_site/models.py:145-148 | removing a listed line lowers the total by exactly that line's price |
| Models.WithoutKeepsNoDup | my_site/views.py:441 | removing an id from a relation without duplicates leaves none |
| Models.WithoutAbsent | my_site/views.py:441 | removing an id that is not listed changes nothing |
| Models.UnitPrice | my_site/models.py:77-80 | one unit costs the list price or the discount price, and a discount of 0 falls back to the list price because 0 is falsy |
| Models.TotalOrderPrice | my_site/models.py:71-72 | one unit costs the list price, and a non-negative quantity at a non-negative price is never negative; `FinalPriceIsQuantityTimesUnitPrice` ties it to the final price of an undiscounted line |
| Models.TotalDiscountItemPrice | my_site/models.py:74-75 | one unit costs the discount price, and a non-negative quantity at a non-negative discount is never negative |
| Models.FinalPrice | my_site/models.py:77-80 | the final price is the quantity times the unit price |
| Models.Subtotal | my_site/models.py:145-148 | the exact running sum of the listed lines' final prices; `SubtotalSnoc`, `SubtotalAgree`, `SubtotalUpdate`, `SubtotalWithout` and `SubtotalNonNegative` state how it grows, what it depends on and how it changes |
| Models.SubtotalNonNegative | my_site/models.py:145-148 | before the coupon, lines with non-negative quantities and prices never total below zero |
| Models.SubtotalAsWrittenRaisesIffMixed | my_site/models.py:145-151 | the loop as written raises exactly when the order mixes a discounted (float) line with an undiscounted (Decimal) one; otherwise it yields the exact total, as an int only for an empty order |
| Models.SubtotalAsWritten | my_site/models.py:145-148 | the loop of `get_total` as written, tracking whether the running total is an int, a Decimal or a float; `SubtotalAsWrittenRaisesIffMixed` states that it raises exactly for a mixed order, otherwise agrees with `Subtotal`, and is still the int 0 only for an empty order |
| Models.MixedOrderTotalRaises | my_site/models.py:145-151 | an order with one 20.00 line and one line discounted to 25.00 raises as written, while the corrected total is 45.00 |
| Models.ValidRatingIsTenthInRange | my_site/models.py:160 | a rating that passes its validators has at most one decimal place and lies between 0.1 and 5.0 |
| Models.EveryTenthInRangeIsValid | my_site/models.py:160 | every rating from 0.1 to 5.0 in steps of 0.1, written with one decimal place, is accepted |
| Models.TrailingZeroRatingRefused | my_site/models.py:160 | "5.00" is refused for its digit count, even though its value is in range |
| Models.ValidRating | my_site/models.py:160 | the three validators of `Review.rating`; `ValidRatingIsTenthInRange`, `EveryTenthInRangeIsValid` and `TrailingZeroRatingRefused` state that it accepts exactly the ratings 0.1 to 5.0 written with at most one decimal place and two digits |
| Models.CommentLengthBoundary | my_site/models.py:161 | a comment of nine characters is refused and one of ten is accepted; appending text never makes an accepted comment invalid |
| Store.FirstMatch | my_site/views.py:407-409 | `filter(...)[0]` gives the lowest id that matches, or nothing when no row matches |
| Store.Get | my_site/views.py:527 | `get` is missing exactly when no row matches, finds the only matching row, and is ambiguous only when two rows match |
| Store.EmptyStoreValid | my_site/models.py:118-133 | a store with a catalogue and coupons but no other rows satisfies the invariant |
| Store.ValidOrderPriced | my_site/models.py:145-148 | in a valid store every order's lines can be priced |
| Store.OrderTotal | my_site/models.py:145-151 | `get_total` in cents; `OrderTotalParts` states that it is the line subtotal less the coupon once |
| Store.OrderTotalParts | my_site/models.py:145-151 | an order's total is its line subtotal, less the coupon exactly once when there is one; an empty order without a coupon totals 0 |
| Store.OpenOrderIsUnique | my_site/views.py:407-409 | in a valid store, an open order of a user is the one `filter(...)[0]` finds |
| Store.OpenOrderLookupAgrees | my_site/views.py:128 | in a valid store `get(user, ordered=False)` never finds two carts, and finds the cart `filter(...)[0]` finds |
| Store.OpenCartHasDistinctProducts | my_site/views.py:403-411 | an open cart never lists two lines for the same product |
| Cart.Landing | my_site/views.py:401-506 | `add_to_cart` always returns to the product page; the other three views go to the order summary exactly when they changed the cart; a missing product or a failed lookup gives no page |
| Cart.Add | my_site/views.py:401-425 | a slug outside the catalogue answers "not found" and changes nothing; otherwise the answer is "quantity updated" or "item added"; the catalogue, coupons, addresses, payments and refunds never change |
| Cart.Remove | my_site/views.py:430-449 | the answer is one of the five ends of the view; the store changes only when the line is removed, and no line row is ever changed or deleted |
| Cart.RemoveSingle | my_site/views.py:454-479 | the answer is one of the five ends of the view; the store changes only when the quantity is updated, and no line or order row is ever added |
| Cart.GetOrCreateLine | my_site/views.py:403-406 | `get_or_create` returns the user's unordered line for the product, and inserts one with quantity 1 only when there is none |
| Cart.Locate | my_site/views.py:430-440 | the remove views act only on the user's open cart and that user's unordered line for the product |
| Cart.SetQuantityPreservesValid | my_site/views.py:412-413 | changing a quantity to at least one keeps the store valid |
| Cart.GetOrCreatePreservesValid | my_site/views.py:403-406 | inserting the cart line keeps one unordered line per user and product |
| Cart.AttachPreservesValid | my_site/views.py:417 | attaching the user's own unlisted line to the cart keeps the store valid |
| Cart.DetachPreservesValid | my_site/views.py:441 | detaching a line keeps the store valid |
| Cart.NewCartPreservesValid | my_site/views.py:421-423 | opening a cart for a user who has none keeps one open cart per user |
| Cart.AddPreservesValid | my_site/views.py:401-425 | adding to the cart keeps the store valid |
| Cart.RemovePreservesValid | my_site/views.py:430-449 | removing a product keeps the store valid |
| Cart.RemoveSinglePreservesValid | my_site/views.py:454-479 | removing one unit keeps the store valid; no listed line drops below quantity one |
| Cart.CartLineIsListed | my_site/views.py:411 | when the cart holds a product, the user's unordered line for that product is the one listed |
| Cart.AddIncrementsListedLine | my_site/views.py:411-415 | adding a product already in the cart adds one unit to its line and changes nothing else |
| Cart.AddAttachesLine | my_site/views.py:416-419 | adding a product not in the cart attaches the user's line for it (a new line of quantity 1, or an earlier detached one with its old quantity) and leaves the other orders alone |
| Cart.AddOpensCart | my_site/views.py:420-425 | a user without a cart gets a new one with every flag false, no references, and just that line |
| Cart.RemoveDetachesLine | my_site/views.py:436-443 | removing a product in the cart detaches its line whatever the quantity, and keeps the line row |
| Cart.RemoveChangesNothingOutsideCart | my_site/views.py:444-449 | without a cart, or with the product not in it, neither remove view changes anything; both answer "no active order" or "not in your cart" |
| Cart.RemoveSingleStep | my_site/views.py:465-471 | a line with more than one unit loses exactly one; a line of one unit is detached |
| Cart.AddRaisesTotalByUnitPrice | my_site/views.py:411-413 | one more unit of a product in the cart raises the total by that product's unit price |
| Cart.RemoveSingleLowersTotalByUnitPrice | my_site/views.py:465-469 | removing one unit lowers the total by exactly one unit price |
| Cart.RemoveLowersTotalByLinePrice | my_site/views.py:436-441 | removing a product lowers the total by that line's final price |
| Cart.RemoveThenAddRestoresQuantity | my_site/views.py:403-417 | removing a product and adding it again re-attaches the same line, with the quantity it had |
| Checkout.IsValidForm | my_site/views.py:82-87 | the flag is true exactly when no value is the empty string |
| Checkout.ShippingStep | my_site/views.py:133-174 | the shipping step never adds or drops an order, and a saved shipping row exists |
| Checkout.Dispatch | my_site/views.py:231-239 | 'S' goes to Stripe, 'P' to PayPal, and anything else is an invalid option |
| Checkout.FormIsValid | my_site/forms.py:72-97 | a valid form has payment option 'S' or 'P', so it dispatches to Stripe or PayPal; each country is empty or one of the known countries |
| Checkout.UnknownCountryRefused | my_site/forms.py:75-88 | a non-empty country outside the country list fails the form: nothing is saved, and the view answers "no active order" or fails |
| Checkout.BillingStep | my_site/views.py:176-228 | the billing step keeps every table but addresses and orders, keeps the shipping value, and halts with nothing saved only for a missing default billing address or for a copy of an unsaved shipping block, the latter a server error |
| Checkout.Checkout | my_site/views.py:126-242 | never ends in the invalid-option warning; when it answers "no active order" or "no default shipping address" nothing has changed; it dispatches only for a valid form, to the page its payment option names; only addresses and the cart change |
| Checkout.FrameTransitive | my_site/views.py:126-242 | two checkout steps together change only what checkout may change |
| Checkout.FrameKeepsValid | my_site/views.py:126-242 | new address rows and valid shipping and billing references keep the store valid |
| Checkout.DefaultAddressSnoc | my_site/views.py:135-141 | saving an address that is not a default of a kind does not move that kind's default |
| Checkout.ShippingStepFrame | my_site/views.py:133-174 | the shipping step saves at most one row, of type shipping, and leaves the billing address and the default billing row alone |
| Checkout.BillingStepFrame | my_site/views.py:176-228 | the billing step saves at most one row, of type billing, and leaves the shipping address alone |
| Checkout.CheckoutTouchesOnlyAddressesAndCart | my_site/views.py:126-242 | without a cart checkout answers "no active order" and changes nothing; otherwise it only adds up to two address rows and repoints the cart's addresses |
| Checkout.CheckoutPreservesValid | my_site/views.py:126-242 | checkout keeps the store valid |
| Checkout.ShippingCreatedIffComplete | my_site/views.py:152-170 | a shipping row is saved exactly when the default was not asked for and street, country and zip are filled; it holds the form's fields, is a default only if asked, and the cart ships to it |
| Checkout.BillingCreatedIffComplete | my_site/views.py:209-226 | without "same billing address", a billing row is saved exactly when no default was asked for and street, country and zip are filled |
| Checkout.BillingRowFromForm | my_site/views.py:209-226 | that billing row holds the form's fields, typed billing, and is a default only if asked; the cart bills to it, and checkout goes on to dispatch |
| Checkout.SameBillingSavesCopy | my_site/views.py:179-186 | "same billing address" saves a separate row with the shipping row's fields, typed billing, and the cart bills to it |
| Checkout.SameBillingWithoutShippingRaises | my_site/views.py:171-182 | "same billing address" with an incomplete shipping block raises, after the notice and with nothing saved |
| Checkout.IncompleteShippingContinues | my_site/views.py:171-174 | an incomplete shipping block queues a notice, leaves the cart's shipping address alone, and checkout goes on to dispatch |
| Checkout.MissingDefaultHalts | my_site/views.py:135-146 | asking for a default address that does not exist halts; for shipping this happens before anything is saved |
| Checkout.InvalidOptionNeverDispatched | my_site/views.py:127-129 | the form admits only 'S' and 'P', so the invalid-option branch is unreachable; an invalid form changes nothing |
| Payments.PaymentPageNeedsBilling | my_site/views.py:246-257 | the payment page is shown exactly to a user whose open cart has a billing address, and the checkout redirect exactly when the cart has none |
| Payments.PaymentPage | my_site/views.py:246-257 | only a logged-in user with an open cart gets the page or the checkout redirect; `PaymentPageNeedsBilling` states which of the two |
| Payments.ReplyAsWritten | my_site/views.py:294-328 | as written, the view fails exactly for a declined card |
| Payments.Reply | my_site/views.py:294-328 | every failed charge answers with its warning and never fails; only a successful charge places the order |
| Payments.CardDeclineGetsNoResponse | my_site/views.py:294-298 | a declined card gets no response as written, and its decline message once corrected |
| Payments.RepliesAgreeOtherwise | my_site/views.py:299-328 | apart from a declined card, the view as written answers as corrected |
| Payments.MarkOrdered | my_site/views.py:280-284 | the cart's lines, and only they, are marked ordered |
| Payments.Pay | my_site/views.py:260-328 | the order is placed exactly when a logged-in user with an open cart is charged successfully; any other end changes nothing; a server error comes exactly when no amount was computed |
| Payments.PayAsWritten | my_site/views.py:260-298 | the view as written: it fails when the cart mixes float and Decimal prices at line 263, and when the card is declined |
| Payments.PayAsWrittenDiffersOnlyThere | my_site/views.py:263-298 | the view as written differs from `Pay` exactly for a logged-in user with an open cart whose card is declined or whose cart mixes the two price types; there it fails with nothing saved |
| Payments.ChargeFinalisesOrder | my_site/views.py:260-292 | a successful charge asks for the order total, records one payment for it, and marks the cart and all its lines ordered with a fresh reference code; the user has no open cart afterwards, and nothing else changes |
| Payments.FailedChargeChangesNothing | my_site/views.py:294-328 | a failed charge saves nothing and never places the order |
| Payments.PaymentOnlyAfterCharge | my_site/views.py:260-292 | a payment row is added exactly when a logged-in user with an open cart is charged successfully |
| Payments.PayPreservesValid | my_site/views.py:260-292 | paying keeps the store valid |
| Refunds.RefundRequestRecorded | my_site/views.py:373-393 | a known reference code flags exactly that order, which is a paid one, and records one refund for it that is not yet accepted; nothing else changes |
| Refunds.RequestRefund | my_site/views.py:373-397 | the request is received exactly when the form is valid and one order has the code, and "does not exist" exactly when the form is valid and none has; any other answer changes nothing |
| Refunds.RefundFormIsValid | my_site/forms.py:109-121 | all three fields are required and the email must pass its validator; `RefundChangesOnlyKnownOrder` states that an invalid form changes nothing |
| Refunds.RefundChangesOnlyKnownOrder | my_site/views.py:375-397 | the store changes exactly when the form is valid and one order has the code; an unknown code answers "does not exist" and changes nothing |
| Refunds.RefundPreservesValid | my_site/views.py:373-397 | a refund request keeps the store valid |
| Coupons.CouponAttached | my_site/views.py:509-531 | a known code is attached to the open cart in place of any earlier coupon, and the total becomes the subtotal less that coupon |
| Coupons.AddCoupon | my_site/views.py:522-535 | the coupon is added exactly when a logged-in user with an open cart names a known, non-empty code; any other answer changes nothing |
| Coupons.SecondCouponReplacesFirst | my_site/views.py:528 | coupons do not stack: after a second code only the second one counts |
| Coupons.CouponChangesOnlyWhenFound | my_site/views.py:522-535 | nothing changes unless a logged-in user with an open cart names a known code; without a cart the answer is "no active order" |
| Coupons.AddCouponPreservesValid | my_site/views.py:522-535 | adding a coupon keeps the store valid |
| Coupons.CouponScenario | my_site/models.py:145-151 | a cart with one 40.00 print totals 30.00 after the coupon SAVE10 worth 10 |
| CartBadge.ProductsOf | my_site/templatetags/cart_template_tag.py:11 | the set holds exactly the products of the listed lines |
| CartBadge.CartItemCount | my_site/templatetags/cart_template_tag.py:7-13 | nothing exactly for a logged-in user without an open cart, and 0 for an anonymous visitor |
| CartBadge.DistinctProductsCount | my_site/templatetags/cart_template_tag.py:11 | lines for distinct products count as many products as lines |
| CartBadge.CountIsDistinctProducts | my_site/templatetags/cart_template_tag.py:7-11 | the badge counts the distinct products in the cart, not the units |
| CartBadge.CountNoneIffNoCart | my_site/templatetags/cart_template_tag.py:7-13 | the filter gives 0 to an anonymous visitor, and nothing to a logged-in user without a cart |
| CartBadge.AddTwiceScenario | my_site/views.py:401-425 | adding a 20.00 print twice leaves one line of two units: the total is 40.00 and the badge shows 1 |
| Views.Shop.constructor | my_site/models.py:118-133 | a new store holds the catalogue and the coupons and satisfies the invariant |
| Views.Shop.AddLine | my_site/views.py:402-425 | the shared body of the two add views changes the tables as `Cart.Add` says and keeps them valid |
| Views.Shop.AddToCart | my_site/views.py:400-425 | an anonymous user is sent to log in with nothing changed; otherwise the tables change as `Cart.Add` says and the view lands on the product page |
| Views.Shop.AddSingleItemToCart | my_site/views.py:481-506 | the same change as adding to the cart, landing on the order summary |
| Views.Shop.RemoveFromCart | my_site/views.py:429-449 | anonymous users go to log in; otherwise the tables change as `Cart.Remove` says |
| Views.Shop.RemoveSingleItemFromCart | my_site/views.py:453-479 | anonymous users go to log in; otherwise the tables change as `Cart.RemoveSingle` says |
| Views.Shop.ShippingPart | my_site/views.py:133-174 | the tables and the shipping value become those `Checkout.ShippingStep` gives |
| Views.Shop.BillingPart | my_site/views.py:176-228 | the tables become those `Checkout.BillingStep` gives, halting when it halts |
| Views.Shop.CheckoutPost | my_site/views.py:126-242 | anonymous users go to log in; otherwise the tables, the end and the notices are those `Checkout.Checkout` gives, and the store stays valid |
| Views.Shop.GetTotal | my_site/models.py:145-151 | the loop's total is the order total: the line subtotal less the coupon |
| Views.Shop.PaymentGet | my_site/views.py:246-257 | the page shown is the one `Payments.PaymentPage` gives, and nothing changes |
| Views.Shop.PaymentPost | my_site/views.py:260-328 | the tables, the answer and the amount charged are those `Payments.Pay` gives, the corrected view (see Left out and Findings), and the store stays valid |
| Views.Shop.RequestRefund | my_site/views.py:373-397 | the tables and the answer are those `Refunds.RequestRefund` gives |
| Views.Shop.AddCoupon | my_site/views.py:522-535 | the tables and the answer are those `Coupons.AddCoupon` gives |
| Admin.GrantRefunds | my_site/admin.py:10-11 | a selected order has its refund granted and no longer requested; every other order is unchanged |
| Admin.SelectedOrdersGranted | my_site/admin.py:11 | every selected order ends with its refund granted and not requested |
| Admin.NothingElseChanges | my_site/admin.py:11 | only the two refund flags of a selected order change; unselected orders are untouched |
| Admin.GrantRefundsIdempotent | my_site/admin.py:11 | running the action twice on the same selection equals running it once |
| Admin.GrantRefundsPreservesValid | my_site/admin.py:10-11 | the action keeps the store valid |
| Admin.MakeRefundAccepted | my_site/admin.py:10-11 | the orders table becomes `GrantRefunds` of the old one, every other table is untouched, and the store stays valid |

## Surprising behaviour of the code

The model follows the code in each case below.

- **Invalid payment option.** The field `payment_option` (my_site/forms.py:97) is a choice of 'S' or 'P'. Any other value fails `form.is_valid()`, and the view then returns nothing, which is a server error. So the warning 'Invalid payment option selected' at my_site/views.py:238 is never shown. `Checkout.InvalidOptionNeverDispatched` proves that branch is unreachable.
- **Unknown country.** The two country fields (my_site/forms.py:75-88) are choice fields over the country list. A non-empty value outside the list fails the whole form, so checkout saves nothing and returns nothing, or answers "no active order" when the user has no cart (`Checkout.UnknownCountryRefused`).
- **Missing default address.** At my_site/views.py:146 and 200 the view calls `redirect(request, 'checkout')`. That passes the request object as the redirect target, and Django cannot resolve it, so the user is not sent back to checkout. The model keeps these ends distinct (`NoDefaultShipping`, `NoDefaultBilling`). What was saved before the halt stays saved.
- **Unknown coupon code.** For an unknown code, `get_coupon` queues 'This coupon does not exist' (my_site/views.py:515) and returns a redirect response instead of a coupon. The view assigns that response to the coupon foreign key at line 528, which raises. The view is a server error and nothing is saved.
- **Payment without addresses.** The payment view does not check for addresses before charging; only the page shown by GET checks for a billing address. The payment view has no login check either, so an anonymous request fails at the cart lookup.
- **Refund requests.** The refund view has no login check and no ownership check: anyone who holds a reference code can request a refund for that order.
- **Granting refunds.** `make_refund_accepted` sets the order's two flags. It does not touch the Refund row's `accepted` field.
- **Same billing address.**
  - The copy made for "same billing address" keeps the shipping row's `default` flag.
  - The cart's shipping address still points at the original row.
  - When the shipping block was incomplete, the view's `shipping_address` holds the street text, and setting `pk` on a string raises.

## Left out

- The Stripe client is not modelled: card tokens, currencies and the charge request are replaced by `Payments.Charge`, the gateway's answer given as a parameter.
- Floating point is not modelled. Prices are exact integer cents, so `int(total * 100)` and the float `Payment.amount` column are the exact total in cents. A float discount such as 19.99 would be rounded by Python, and the model does not capture that.
- `create_ref_code`'s randomness is a parameter: the twenty indices into the alphabet.
- Django's email validator is not modelled; whether the email passes it is the parameter `emailValid`.
- Product slugs are not derived: `slugify` and `Product.save` are not modelled, and the catalogue is keyed by its slug. `Product.slug` (my_site/models.py:35) is not declared unique, so two products could share one; `get_object_or_404` would then raise MultipleObjectsReturned. A map keyed by slug cannot hold two products with one slug, so the model does not capture that case.
- The read-only pages are not modelled: the product list, product detail, search, order summary, "my orders" and the GET of checkout and refund. Neither is the accounts app.
- Timestamps (`start_date`, `ordered_date`, `Payment.timestamp`) and the fields that carry no behaviour (artist, image, history, school) are not modelled. An address's country is kept as text; the list of known countries is the parameter `countries`.
- Concurrency and transactions are not modelled: each view runs alone, and a failure does not roll back what was already saved.
- Flash messages are modelled by the outcome a view ends with, not as a message store.
- Redirect targets are modelled only for the cart views (`Cart.Landing`); for the other views the outcome names where the user is sent.
- Views.Shop.PaymentPost: the bulk `update(ordered=True)` and the `save()` loop after it are modelled as one loop that marks each line.
- `filter(...)[0]` has no `order_by`, so the database may return any matching row first; `Store.FirstMatch` takes the lowest id. This matters for default addresses: `set_default` never clears an earlier default, so a user can have several default rows of one kind, and the model then picks the oldest.
- Payments.Pay: models the corrected view. A declined card gets its decline message instead of no response (my_site/views.py:294-298). A cart that mixes discounted and undiscounted lines is charged its exact total, although `get_total` raises TypeError at my_site/views.py:263, before the `try`. `Payments.PayAsWritten` is the view as written, and `Payments.PayAsWrittenDiffersOnlyThere` proves that these two cases are the only differences.
- Views.Shop.PaymentPost: follows `Payments.Pay`, so it has the same two differences from the code as written.
- Views.Shop.GetTotal: models the corrected total, not the as-written one that can raise (see Findings).

## Findings

| source | as written | input that shows it | evidently intended | confidence | as-written member | corrected member |
|---|---|---|---|---|---|---|
| my_site/models.py:145-151 | `get_total` adds each line's final price to one running total. A discounted line's price is a float (a FloatField times a quantity) and an undiscounted one is a Decimal, and Python raises TypeError when it adds a float to a Decimal. | a cart with one undiscounted 20.00 print and one print discounted to 25.00 | the order total 45.00, summed exactly | high, not executed | Models.MixedOrderTotalRaises, Payments.PayAsWritten | Models.Subtotal, Payments.Pay |
| my_site/views.py:294-298 | the `CardError` clause queues the decline message but has no `return`, so the view returns `None` and Django answers with a server error | a card that Stripe declines | a redirect home with the decline message, like every other failed charge | high, not executed | Payments.CardDeclineGetsNoResponse, Payments.PayAsWritten | Payments.Reply, Payments.Pay |
