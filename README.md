# 3D-print storefront: order and payment bookkeeping in Dafny

This project models the server-side core of a Next.js storefront that sells
3D-printed products. It also proves properties of that model. The modelled
parts are:

- Checkout pricing: the coupon check, the stock check, and the subtotal, tax
  and total arithmetic.
- Order placement: planned, committed as one atomic step on an in-memory
  store, then handed to the payment gateway.
- The payment status of an order, as the payment webhook and the return page
  write it.
- The admin actions: the order status update, order deletion, and coupon
  create, toggle and delete.
- The client cart store.
- The address and product schemas, the Google Drive and YouTube URL
  rewriting, the status e-mail, and the path-based access rule.

## How the model is built

- Money, quantities, stock and timestamps are `int`. JavaScript's
  `Math.round(n / d)` on the values in play rounds halves upward. It is
  `OrderPricing.RoundDiv`.
- The database is the class `Schema.Store`. Its fields are:
  - `users`, `products` and `orders`: maps keyed by id;
  - `coupons` and `orderItems`: sequences of rows.
- The action methods take the store and say in `modifies` that they write
  it.
- `Schema.Consistent` is the tables' invariant. Every method keeps it. It
  holds these facts:
  - every row is keyed by its id;
  - coupon codes are unique and stored upper-cased;
  - every order has a user;
  - every order item has an order and a product.
- Ids that the database generates are parameters (`newOrderId`, `newId`). A
  clash takes the code's own exception path.
- These effects become parameters, chosen by the caller:
  - the clock becomes `now`;
  - `PGCreateOrder` becomes the function `createSession`;
  - `PGOrderFetchPayments` becomes its outcome `fetch`;
  - HMAC-SHA256 in base64 becomes the function `sign`;
  - `JSON.parse` becomes its result;
  - the SMTP settings become `SmtpConfig`;
  - the transport becomes its outcome.
- A payment's `cf_payment_id` is a `Webhook.JsonField`: absent, JSON null,
  or a text. Prisma skips an undefined field and writes NULL for null, so
  `Webhook.WrittenPaymentId` keeps the column, clears it or sets it.
- The cart store is the class `CartStore.Cart`. It has the fields `items`
  and `isCartOpen`. Each action is a method that reassigns those fields as
  `set` does. The method is proved equal to a function on the old items, and
  the lemmas are stated about that function.
- The quirks of the code are modelled as the code behaves. Each is shown by
  a lemma:
  - a rejected coupon is ignored, but its code is still stored;
  - a `usageLimit` of 0 means unlimited;
  - duplicate cart lines can drive stock below zero;
  - a FIXED discount may exceed the subtotal;
  - a failure event overwrites PAID.

## Quirks of the code

The model follows the code as written in each of these cases:

- **Tax and shipping.** The cart page and the cart side panel show 18% tax
  and a flat shipping of 49 (src/app/cart/cart-page-client.tsx:14-15,
  src/components/layout/cart-side-panel.tsx:13-14). The order action
  charges `TAX_RATE = 0` and `SHIPPING_FLAT = 0`
  (src/app/actions/order.ts:17-18). The stored total is therefore the
  subtotal less the discount (`OrderPricing.TotalIsSubtotalLessDiscount`).
  The cart pages' totals are not modelled.
- **PAID is not final.** The webhook's failure branch writes FAILED whatever
  the status was (`Webhook.PaidIsNotSticky`).
- **The success event applies from any status.** It marks the order PAID
  whatever its current payment status.
- **No stock re-check in the transaction.** The stock is checked once,
  before the transaction, and nothing re-checks it inside
  (`OrderActions.DuplicateLinesOversell`).
- **Rejected coupons are ignored at placement.** The coupon is dropped
  without an error (`OrderActions.PlanIgnoresRejectedCoupon`).

## Model

| member | source | states |
|---|---|---|
| Strings.ToUpper | src/app/actions/order.ts:38 | upper-casing keeps the length and maps each character to its upper-case form |
| Strings.ToUpperIdempotent | src/app/actions/coupon.ts:25 | upper-casing twice is upper-casing once |
| Strings.ToUpperIsUpperCased | src/app/actions/coupon.ts:25 | an upper-cased code has no lower-case letter and is a fixed point of upper-casing |
| Strings.NatToString | src/app/actions/order.ts:93 | `${n}` of a natural: a non-empty run of digits with a leading 0 only for 0 (its value is `Strings.NatToStringValue`) |
| Strings.IntToString | src/app/actions/order.ts:93 | `${i}` of an integer: a leading '-' exactly when negative, then digits (its value is `Strings.IntToStringValue`) |
| Strings.NatToStringValue | src/app/actions/order.ts:93 | the digits `${n}` prints denote n |
| Strings.IntToStringValue | src/app/actions/order.ts:93 | the text `${i}` prints, read with its sign, denotes i |
| Strings.IntToStringInjective | src/app/actions/order.ts:93 | different integers are rendered as different texts |
| Strings.IndexFrom | src/lib/media.ts:56 | indexOf returns the first occurrence at or after the start, and None only when there is none |
| Strings.ContainsAt | src/lib/media.ts:19 | an occurrence at some index makes `includes` true |
| Strings.StartsAtConcat | src/lib/media.ts:12 | two adjacent occurrences are one occurrence of the concatenation |
| Strings.BeforeFirst | src/lib/media.ts:56 | split(sep)[0] is the prefix of the text that ends where the first sep begins, and the whole text when sep does not occur |
| Strings.AfterLast | src/lib/media.ts:56 | split('/').pop() is the suffix with no '/' that starts right after a '/', and the whole text when there is none |
| Strings.LastN | src/lib/email.ts:48 | slice(-8) is the last min(8, length) characters |
| Strings.TrimStart | src/lib/email.ts:25 | trimming the front drops only whitespace, and the result does not start with whitespace |
| Strings.TrimEnd | src/lib/email.ts:25 | trimming the end drops only whitespace, and the result does not end with whitespace |
| Strings.TrimStartSkipsSpace | src/lib/email.ts:25 | a leading whitespace character is removed by trimming |
| Strings.TrimKeepsUnpadded | src/lib/email.ts:25 | a text neither starting nor ending with whitespace is left as it is |
| Schema.CouponIndexById | src/app/actions/coupon.ts:80-83 | the lookup by id returns the first row with that id, and None only when no row has it |
| Schema.CouponByCode | src/app/actions/order.ts:37-39 | findUnique on the code returns a row of the table holding that code, and None only when no row holds it |
| Schema.ReplaceOrderKeepsConsistent | src/app/api/cashfree/webhook/route.ts:51-57 | rewriting one order row with the same id and owner keeps the tables consistent |
| Schema.Store.constructor | prisma/seed.ts:14-84 | a database seeded with users and products and no coupons, orders or items is consistent and holds exactly those rows |
| CheckoutValidation.DigitsOfLength | src/lib/validations/checkout.ts:12 | ^\d{n}$ holds exactly for n characters that are all digits |
| CheckoutValidation.AddressLine2NeverRejects | src/lib/validations/checkout.ts:9 | any value of the second line, or none, gives the same verdict |
| CheckoutValidation.AcceptedPhoneAndPincode | src/lib/validations/checkout.ts:12-13 | an accepted phone is 10 digits starting 6-9, and an accepted pincode is 6 digits |
| CheckoutValidation.ParseAddress | src/app/actions/order.ts:106-119 | the form is accepted exactly when every field is present and the schema holds (`CheckoutValidation.ValidAddress`); the fields are then copied unchanged; a rejection reports the addressLine1 message or "Invalid address" as the action does |
| ProductValidation.AllValidCustomFields | src/lib/validations/product.ts:6-12 | the array passes exactly when every custom field has a non-empty key and label and a type among text, textarea, number |
| ProductValidation.AllHttpUrls | src/lib/validations/product.ts:19 | the images pass exactly when each starts with http:// or https:// |
| ProductValidation.ParseProduct | src/lib/validations/product.ts:14-22 | accepted exactly when the name is non-empty, the price positive, the stock at least 0, every image an http(s) URL, the video URL empty or a URL, and every custom field valid; the output keeps the fields and defaults images to [] |
| Media.IdRun | src/lib/media.ts:12 | the greedy run of [A-Za-z0-9_-] at an index is a slice of the text made of those characters that cannot be extended |
| Media.FirstPatternFrom | src/lib/media.ts:13 | the regular expression's match starts at the leftmost index where it can match |
| Media.CaptureExists | src/lib/media.ts:13-14 | the capture exists exactly when the pattern matches somewhere |
| Media.CaptureFacts | src/lib/media.ts:12-20 | a capture is a non-empty run of id characters right after the leftmost matched prefix, and it is the longest such run |
| Media.GetDriveFileId | src/lib/media.ts:8-24 | "" gives null; the /file/d/ form wins when it matches; otherwise a drive.google.com or docs.google.com URL gives its id= capture; any other URL gives null; an id is non-empty and made of id characters |
| Media.GetOptimizedImageUrl | src/lib/media.ts:29-40 | "" gives "", a Drive link gives the thumbnail URL of its id, any other URL is returned unchanged |
| Media.IdRunIs | src/lib/media.ts:12 | the greedy run at an index is exactly the id placed there when a non-id character or the end follows it |
| Media.ThumbnailNoFileFormAt | src/lib/media.ts:36 | no match of the /file/d/ form starts at any index of a thumbnail URL |
| Media.ThumbnailHasNoFileForm | src/lib/media.ts:36 | the thumbnail URL has no match of the /file/d/ form |
| Media.ThumbnailFirstIdForm | src/lib/media.ts:36 | the first match of the id= form in the thumbnail URL is the one right before the id |
| Media.ThumbnailFileId | src/lib/media.ts:17-21 | getDriveFileId of the thumbnail URL of an id is that id |
| Media.ImageUrlIdempotent | src/lib/media.ts:29-40 | getOptimizedImageUrl applied twice is applied once |
| Media.YouTubeVideoId | src/lib/media.ts:56 | with "v=" in the URL: the text from just after the first "v=" up to the first '&', the next "v=" or the end; otherwise the text after the last '/' |
| Media.WatchIdFacts | src/lib/media.ts:56 | split('v=')[1].split('&')[0] is the text from just after the first "v=" that holds no '&' and no start of "v=" and ends at the first stop |
| Media.GetOptimizedVideoUrl | src/lib/media.ts:45-61 | "" gives ""; a Drive link gives the preview URL; a YouTube URL with a non-empty id gives the embed URL; everything else is returned unchanged |
| Media.PreviewFirstFileForm | src/lib/media.ts:51 | the first /file/d/ match in a preview URL is the one right before the id |
| Media.PreviewNoFileFormBefore | src/lib/media.ts:51 | no match of the /file/d/ form starts before the id in a preview URL |
| Media.PreviewFileId | src/lib/media.ts:45-52 | the preview URL leads back to the same id and is left as it is by getOptimizedVideoUrl |
| Middleware.AuthorizedRules | src/middleware.ts:15-21 | the callback `Middleware.Authorized` allows an /admin path exactly for the ADMIN role, /orders, /cart and /checkout paths exactly for a token, whatever the order of the checks, and every other path always |
| Middleware.RulesAreDisjoint | src/middleware.ts:17-18 | no path is both an admin path and a signed-in path, so the admin rule first hides nothing |
| Middleware.AccessByToken | src/middleware.ts:15-21 | an anonymous visitor is refused exactly on protected paths; an admin is allowed everywhere |
| OrderPricing.RoundDiv | src/app/actions/order.ts:66 | Math.round(n / d) is the integer nearest n / d, halves upward |
| OrderPricing.ValidateCoupon | src/app/actions/order.ts:35-78 | the five checks (not found on the upper-cased code, inactive, expired, used up, below minimum) in order, each with its message; success exactly when the coupon passes all; the discount and type of the coupon on success |
| OrderPricing.PercentageDiscountBounds | src/app/actions/order.ts:64-69 | the discount of a PERCENTAGE coupon (`OrderPricing.CouponDiscount`) of at most 100% is the rounded share of the subtotal, at most the subtotal, at most a set cap, and non-negative unless the cap is |
| OrderPricing.RoundedPercentInRange | src/app/actions/order.ts:66 | a rounded percentage of at most 100 lies between 0 and the amount |
| OrderPricing.FixedDiscountNotCapped | src/app/actions/order.ts:70-72 | a non-PERCENTAGE discount is exactly its value, so a FIXED 500 coupon on a 100 subtotal is accepted with a discount of 500 |
| OrderPricing.CouponByCodeFinds | src/app/actions/order.ts:37-39 | with unique codes the lookup finds the one row holding the code |
| OrderPricing.ZeroUsageLimitIsUnlimited | src/app/actions/order.ts:53 | usageLimit 0 never rejects, whatever usedCount is |
| OrderPricing.AcceptedCouponHasRoom | src/app/actions/order.ts:53-55 | an accepted coupon with a non-zero limit has room for one more use |
| OrderPricing.LineStockError | src/app/actions/order.ts:91-93 | a line has a complaint exactly when its product is missing or short |
| OrderPricing.ValidateStock | src/app/actions/order.ts:86-96 | the loop returns the complaint about the first line that has one, or null |
| OrderPricing.NoStockErrorIff | src/app/actions/order.ts:86-96 | the stock check (`OrderPricing.FirstStockError`) returns null exactly when every line's product exists with stock at least the quantity |
| OrderPricing.StockErrorIsFirstFailure | src/app/actions/order.ts:90-94 | a complaint is the one about the first line in cart order that fails |
| OrderPricing.ExactStockPasses | src/app/actions/order.ts:93 | stock equal to the quantity passes |
| OrderPricing.CartStockCheck | src/app/actions/order.ts:138-142 | the stock check of the cart's lines (`OrderPricing.StockLines`) passes exactly when every cart line's product exists with stock at least the line's quantity |
| OrderPricing.ItemsTotalAppend | src/app/actions/order.ts:154-166 | the items' total is additive over concatenation |
| OrderPricing.SubtotalIsItemsTotal | src/app/actions/order.ts:154-166 | the subtotal is the sum of price times quantity over the stored items |
| OrderPricing.ServerPricesSnapshot | src/app/actions/order.ts:154-166 | when every product is found, there is one item per line in cart order, carrying the line's product, quantity and custom input ({} when absent) and the product's price, not the posted one |
| OrderPricing.BuildOrderItems | src/app/actions/order.ts:154-166 | the loop builds one item per line in order and sums the subtotal as it goes |
| OrderPricing.TotalIsSubtotalLessDiscount | src/app/actions/order.ts:186-188 | with both rates 0 the tax is 0 and the total is the subtotal less the discount |
| OrderPricing.NonEmptyKeepsNonEmptyParts | src/app/actions/order.ts:151 | filter(Boolean) (`OrderPricing.NonEmpty`) returns only non-empty parts of the list, returns every non-empty part, and returns a list with no empty part whole |
| OrderPricing.NonEmptyAppend | src/app/actions/order.ts:151 | filtering a concatenation is filtering each piece, so the kept parts keep their order and their copies |
| OrderPricing.NonEmptySingleton | src/app/actions/order.ts:151 | one part is kept exactly when it is non-empty |
| OrderPricing.FormattedAddressLines | src/app/actions/order.ts:144-152 | a valid address is stored as four lines when the second line is absent or empty, and as all five otherwise |
| OrderActions.ParseCart | src/app/actions/order.ts:121-130 | a cart is accepted exactly when cartJson is truthy and parses to a non-empty array; unparsable text is "Invalid cart", everything else "Cart is empty" |
| OrderActions.PlanTotals | src/app/actions/order.ts:138-188 | a plan has tax 0, shipping 0, total = subtotal - discount, and a subtotal equal to its items' total; every line's product exists with enough stock; every item carries the product's price |
| OrderActions.PlanIgnoresRejectedCoupon | src/app/actions/order.ts:173-184 | a rejected coupon, or one with a zero discount, leaves discount 0 and no coupon id, yet the code is recorded upper-cased |
| OrderActions.PlanAppliesAcceptedCoupon | src/app/actions/order.ts:173-184 | an accepted non-zero discount is applied in full and charged to the coupon row holding the upper-cased code |
| OrderActions.PlanWithoutCoupon | src/app/actions/order.ts:205 | without a code there is no discount, no coupon id and no stored code |
| OrderActions.ItemRowsSnapshot | src/app/actions/order.ts:209-217 | when every product is found, one item row per cart line in cart order, each tied to the new order and holding the line's product, quantity and custom input at the product's price |
| OrderActions.DecrementStock | src/app/actions/order.ts:220-225 | the decrements keep every product key and change only stock |
| OrderActions.DecrementStockSum | src/app/actions/order.ts:220-225 | each product loses the sum of the quantities of the lines naming it |
| OrderActions.DuplicateLinesOversell | src/app/actions/order.ts:138-142 | two lines for a product with one unit both pass the stock check, and the stock ends at -1 |
| OrderActions.BumpUsage | src/app/actions/order.ts:228-233 | usedCount rises by 1 on the row with that id, and nothing else changes |
| OrderActions.BumpUsageIsOneUpdate | src/app/actions/order.ts:229-232 | with unique ids the increment is one update of one row |
| OrderActions.ApplyStockDecrements | src/app/actions/order.ts:220-225 | the loop leaves the products as the decrements of the lines, and no other table changes |
| OrderActions.CommitOrder | src/app/actions/order.ts:191-236 | the transaction adds exactly the new order (Pending, PENDING, ONLINE), one item per line, the stock decrements and the coupon bump iff couponId is set; users unchanged; consistency kept |
| OrderActions.CommitKeepsConsistent | src/app/actions/order.ts:191-236 | the transaction's writes keep the tables consistent |
| OrderActions.NewRowsPointToTables | src/app/actions/order.ts:209-217 | every item row, the new ones included, names a stored order and a stored product |
| OrderActions.AfterSession | src/app/actions/order.ts:239-283 | a gateway failure sets FAILED and changes nothing else; a success sets PENDING and records a defined session id |
| OrderActions.SessionResult | src/app/actions/order.ts:275-282 | the result is success with the order id and session id exactly when the gateway answered, else the payment error |
| OrderActions.PlanOrderChecks | src/app/actions/order.ts:100-142 | placement (`OrderActions.PlanOrder`) fails first for a missing login, then for a rejected address, then for a rejected cart, then for a stock complaint, each with its message; a plan results exactly when all four pass |
| OrderActions.ComputePlan | src/app/actions/order.ts:100-188 | the steps before the transaction compute exactly `OrderActions.PlanOrder`: the plan, or the first early failure |
| OrderActions.PlanLinesExist | src/app/actions/order.ts:138-142 | a plan's lines name existing products and its items are their drafts |
| OrderActions.PlaceOrder | src/app/actions/order.ts:99-290 | an early failure returns its message and leaves the store unchanged; a failed transaction returns the thrown Error's message (or "Failed to place order" for a thrown non-Error) with the store unchanged; otherwise the commit followed by the payment step's write and result |
| OrderActions.RecordPaymentSession | src/app/actions/order.ts:239-283 | only the new order changes, to its state after the gateway's answer, and the result follows the answer |
| OrderActions.AddressShownInEmail | src/lib/email.ts:62 | the stored address shows in the e-mail as its lines joined by <br/> |
| OrderActions.ItemsOf | src/app/actions/order.ts:305 | the items selected belong to the order and come from the table, and every item of the order is selected |
| OrderActions.ItemsOfAppend | src/app/actions/order.ts:305 | selecting from a concatenation is selecting from each piece, so the order's items keep table order and every copy |
| OrderActions.ItemsOfSingleton | src/app/actions/order.ts:305 | one row is selected exactly when it belongs to the order |
| OrderActions.UpdateOrderStatus | src/app/actions/order.ts:293-320 | non-admin: refused, no change; missing order: "Order not found", no change; otherwise only that order's status changes, the order is handed to the e-mail, and the result is success |
| OrderDelete.ItemsNotOf | src/app/actions/order-delete.ts:21-23 | the cascade never adds rows |
| OrderDelete.ItemsNotOfContents | src/app/actions/order-delete.ts:21-23 | the cascade leaves no item of the order and every item of the other orders |
| OrderDelete.CascadeSplitsItems | src/app/actions/order-delete.ts:21-23 | the removed and the remaining items together are the whole table |
| OrderDelete.DeleteKeepsConsistent | src/app/actions/order-delete.ts:20-27 | removing an order with its items keeps the tables consistent |
| OrderDelete.DeleteOrder | src/app/actions/order-delete.ts:12-32 | no session or a non-admin: "Unauthorized", no change; missing order: "Failed to delete order", no change; otherwise exactly that order and its items go, and stock and coupons stay |
| CouponActions.Stored | src/app/actions/coupon.ts:53-56 | an optional field is null exactly when its text is empty, and otherwise holds its parsed value |
| CouponActions.NewCoupon | src/app/actions/coupon.ts:47-58 | the new row has the upper-cased code and is active and unused; each optional column is null exactly when its field is blank |
| CouponActions.AppendKeepsUnique | src/app/actions/coupon.ts:38-47 | a row with a new code and id keeps codes and ids unique |
| CouponActions.CreatedCodeBlocksAnother | src/app/actions/coupon.ts:38-45 | once a code is created, the same code in any letter case is found again |
| CouponActions.CreateCoupon | src/app/actions/coupon.ts:18-67 | non-admin, missing required field, existing code, unwritable field or id clash each fail with their message and no change; otherwise exactly the new row is appended |
| CouponActions.SetActiveIdempotent | src/app/actions/coupon.ts:79-83 | toggling to the same value twice is toggling once |
| CouponActions.SetActiveChangesOnlyThatRow | src/app/actions/coupon.ts:79-83 | only isActive of the row with that id changes, and uniqueness is kept |
| CouponActions.UpdateAtIsSetActive | src/app/actions/coupon.ts:80-83 | with unique ids, updating the row found is the update by id |
| CouponActions.ToggleCouponStatus | src/app/actions/coupon.ts:70-91 | non-admin: refused, no change; unknown id: "Failed to update coupon", no change; otherwise isActive is set on that row |
| CouponActions.RemoveCoupon | src/app/actions/coupon.ts:101-103 | delete never adds rows |
| CouponActions.RemoveCouponContents | src/app/actions/coupon.ts:101-103 | after the delete no row has the id and every other row remains |
| CouponActions.RemoveCouponAt | src/app/actions/coupon.ts:101-103 | deleting a row found by id removes exactly that one row and keeps the order of the rest |
| CouponActions.RemoveAbsent | src/app/actions/coupon.ts:101-103 | deleting an id no row has changes nothing |
| CouponActions.UniqueAfterRemoval | src/app/actions/coupon.ts:101-103 | removing a row keeps ids and codes unique and shifts the later rows by one |
| CouponActions.DeleteCoupon | src/app/actions/coupon.ts:94-111 | non-admin: refused, no change; unknown id: "Failed to delete coupon", no change; otherwise exactly that row goes |
| CartStore.FindIndex | src/store/cart-store.ts:30 | find returns the first entry of the product, and None only when there is none |
| CartStore.FindIndexOfDistinct | src/store/cart-store.ts:30 | with distinct products, find returns the product's one entry |
| CartStore.AddExisting | src/store/cart-store.ts:31-41 | addItem (`CartStore.Added`) on an existing entry: the quantity becomes min(old + qty, incoming maxStock) in place; a result of at most 0 leaves the cart unchanged; customInput is replaced only when given; the stored maxStock is kept |
| CartStore.AddNew | src/store/cart-store.ts:43-46 | addItem (`CartStore.Added`) on a new product: it is appended at the end exactly when 0 < qty <= maxStock, else nothing changes |
| CartStore.AddedKeepsDistinct | src/store/cart-store.ts:28-47 | addItem never creates a second entry for a product |
| CartStore.SameProductsKeepDistinct | src/store/cart-store.ts:36-40 | a cart with the same product at every position keeps products distinct |
| CartStore.Without | src/store/cart-store.ts:48-49 | the filter never adds entries |
| CartStore.WithoutContents | src/store/cart-store.ts:48-49 | removal keeps exactly the entries of other products |
| CartStore.WithoutAbsent | src/store/cart-store.ts:48-49 | removing an absent product changes nothing |
| CartStore.WithoutAt | src/store/cart-store.ts:48-49 | with distinct products, removal takes out the one entry and keeps the order of the rest |
| CartStore.WithoutKeepsDistinct | src/store/cart-store.ts:48-49 | removal keeps products distinct |
| CartStore.UpdateQuantityCases | src/store/cart-store.ts:50-60 | updateQuantity (`CartStore.QuantityUpdated`): a quantity of at most 0 is removeItem; otherwise only that product's quantity changes, to min(q, its maxStock), with every position kept |
| CartStore.UpdateQuantityKeepsDistinct | src/store/cart-store.ts:50-60 | updateQuantity keeps products distinct |
| CartStore.CustomInputSetChangesOnlyThat | src/store/cart-store.ts:61-66 | setCustomInput (`CartStore.CustomInputSet`): only the customInput of the matching entry changes, and products stay distinct |
| CartStore.Cart.constructor | src/store/cart-store.ts:26-27 | the store starts with no items and the cart closed |
| CartStore.Cart.AddItem | src/store/cart-store.ts:28-47 | the items become addItem's result, the cart's open state is kept, and products stay distinct |
| CartStore.Cart.RemoveItem | src/store/cart-store.ts:48-49 | the items become the filtered list, and the open state is kept |
| CartStore.Cart.UpdateQuantity | src/store/cart-store.ts:50-60 | the items become updateQuantity's result, and the open state is kept |
| CartStore.Cart.SetCustomInput | src/store/cart-store.ts:61-66 | the items become setCustomInput's result, and the open state is kept |
| CartStore.Cart.OpenCart | src/store/cart-store.ts:67 | the cart opens and the items stay |
| CartStore.Cart.CloseCart | src/store/cart-store.ts:68 | the cart closes and the items stay |
| CartStore.Cart.ClearCart | src/store/cart-store.ts:69 | the items are emptied and the cart closes |
| Webhook.VerifySignature | src/app/api/cashfree/webhook/route.ts:12-27 | accepted exactly when a secret is set and sign(secret, timestamp ++ body) equals the header |
| Webhook.SignedRequestVerifies | src/app/api/cashfree/webhook/route.ts:20-26 | a sender holding the secret is accepted |
| Webhook.NoSecretRejectsAll | src/app/api/cashfree/webhook/route.ts:17-18 | with no secret, or an empty one, nothing is accepted |
| Webhook.MarkPaid | src/app/api/cashfree/webhook/route.ts:51-57 | the order becomes PAID; the payment id stays when the event has no cf_payment_id, becomes null when it is JSON null, and becomes the given id otherwise; nothing else changes |
| Webhook.MarkFailed | src/app/api/cashfree/webhook/route.ts:67-72 | the order becomes FAILED whatever it was, and nothing else changes |
| Webhook.MarkPaidIdempotent | src/app/api/cashfree/webhook/route.ts:51-57 | marking paid twice with one id is marking it once |
| Webhook.UpdateOrder | src/app/api/cashfree/webhook/route.ts:51-53 | order.update succeeds exactly when the id names an order; then the keys stay, that row becomes the update of the old row, and every other row is unchanged |
| Webhook.ApplyEventCases | src/app/api/cashfree/webhook/route.ts:47-77 | the event step (`Webhook.ApplyEvent`): other events change nothing; a success event without SUCCESS changes nothing; a SUCCESS marks the order paid; a failure event marks it failed; a missing payment throws |
| Webhook.ApplyEventTouchesOneOrder | src/app/api/cashfree/webhook/route.ts:47-75 | an applied event keeps every key and changes only payment status and payment id |
| Webhook.ReplayIsIdempotent | src/app/api/cashfree/webhook/route.ts:51-57 | delivering an event twice leaves the state of one delivery |
| Webhook.PaidIsNotSticky | src/app/api/cashfree/webhook/route.ts:64-75 | a failure event after a success event leaves the order FAILED, keeping the payment id |
| Webhook.HandleWebhook | src/app/api/cashfree/webhook/route.ts:29-85 | a bad signature is 401 with no change; an unparsable body or a throwing update is 500 with no change; otherwise 200 with the orders as the event leaves them |
| VerifyPage.ReportedStatus | src/app/orders/verify/page.tsx:45-54 | the status stays PENDING without a session id, when the fetch throws, or when no record comes back; with a session id and a first record, it is that record's status when non-empty and PENDING otherwise; it is never empty |
| VerifyPage.OnlyFirstRecordCounts | src/app/orders/verify/page.tsx:52-53 | records after the first never change the status |
| VerifyPage.MissingStatusIsPending | src/app/orders/verify/page.tsx:54 | a first record without a status reads as PENDING |
| VerifyPage.Reconciled | src/app/orders/verify/page.tsx:56-74 | only the payment status and the payment id can change; SUCCESS makes the row PAID with the record's cf_payment_id written as Prisma writes it (kept when undefined, null when null); FAILED or CANCELLED makes it FAILED with the payment id kept; anything else leaves the row |
| VerifyPage.GatewaySuccessMarksPaid | src/app/orders/verify/page.tsx:49-66 | an order with a session whose first payment record says SUCCESS is marked paid with that record's payment id, and the page shows "Payment Successful!" |
| VerifyPage.GatewayFailureMarksFailed | src/app/orders/verify/page.tsx:49-74 | an order with a session whose first payment record says FAILED or CANCELLED is marked failed, and the page shows the failed view |
| VerifyPage.ViewForStatus | src/app/orders/verify/page.tsx:84-134 | the success view iff SUCCESS, the failed view iff FAILED or CANCELLED, the verifying view otherwise |
| VerifyPage.ViewMatchesRow | src/app/orders/verify/page.tsx:56-134 | success shows only over a PAID row, failure only over a FAILED one, and verifying over an unchanged one |
| VerifyPage.VerifyPayment | src/app/orders/verify/page.tsx:16-138 | a missing or unknown order_id redirects to /orders with no change; COD redirects as placed with no change and without the gateway; otherwise the page writes the reconciled order and shows the matching view |
| Email.WithoutSpacesAppend | src/lib/email.ts:25 | removing spaces is additive over concatenation |
| Email.WithoutSpacesOfSpaced | src/lib/email.ts:25 | removing the inserted spaces undoes the spacing of a space-free text |
| Email.WithoutSpacesOfTrimStart | src/lib/email.ts:25 | trimming the front of a text whose only whitespace is ' ' removes only spaces |
| Email.WithoutSpacesOfTrimEnd | src/lib/email.ts:25 | trimming the end of a text whose only whitespace is ' ' removes only spaces |
| Email.SpacedOnlyBlanks | src/lib/email.ts:25 | spacing a whitespace-free text leaves ' ' as its only whitespace |
| Email.StatusLabelRoundTrip | src/lib/email.ts:25 | the label `Email.StatusLabel` gives a whitespace-free status, with its spaces removed, is the status |
| Email.NoCapitalsUnchanged | src/lib/email.ts:25 | a text with no capitals is not spaced |
| Email.SpaceBeforeCapitalsAppend | src/lib/email.ts:25 | the spacing is additive over concatenation |
| Email.SpacedCapitalFirst | src/lib/email.ts:25 | a capital followed by no capital gets exactly one leading space |
| Email.LabelOfSpaced | src/lib/email.ts:25 | the trim removes only the space put before the first capital |
| Email.SingleWordLabel | src/lib/email.ts:25 | a one-word status is shown as written |
| Email.SpacedTwoWords | src/lib/email.ts:25 | two capitalised words run together are spaced before each |
| Email.TwoWordLabel | src/lib/email.ts:25 | two capitalised words run together are shown with one space between them |
| Email.OneWordStatusLabels | src/lib/email.ts:25 | every status but InProgress is shown as the enum names it |
| Email.InProgressWords | src/lib/email.ts:25 | InProgress is the words In and Progress |
| Email.InProgressLabel | src/lib/email.ts:25 | InProgress is shown as "In Progress" |
| Email.JsonObject | src/lib/email.ts:33 | JSON.stringify of the custom input (its keys and texts quoted by `Email.JsonString` with `Email.Escape`) is braced |
| Email.CustomCell | src/lib/email.ts:33 | the custom-input cell is "-" exactly when the item has no custom input |
| Email.MapSeqAppend | src/lib/email.ts:26-36 | map is additive over concatenation |
| Email.ConcatAppend | src/lib/email.ts:36 | join("") is additive over concatenation |
| Email.RowsHtmlConcat | src/lib/email.ts:26-36 | the rows of two item lists are the rows of the first followed by those of the second |
| Email.RowsHtmlAppend | src/lib/email.ts:26-36 | one more item adds exactly its row at the end, so there is one row per item in item order |
| Email.NewlinesToBreaksAppend | src/lib/email.ts:62 | the line-break replacement is additive over concatenation |
| Email.NoNewlineShown | src/lib/email.ts:62 | no newline is left in the shown address |
| Email.NewlinesToBreaksNoNewline | src/lib/email.ts:62 | a line without a newline is shown unchanged |
| Email.LineThenBreak | src/lib/email.ts:62 | a line, a newline and the rest show as the line, <br/> and the rest shown |
| Email.LinesBecomeBreaks | src/lib/email.ts:62 | the replacement of every newline by <br/> (`Email.NewlinesToBreaks`) shows lines joined by newlines as the same lines joined by <br/> |
| Email.LayoutParts | src/lib/email.ts:38-65 | the label, the rows and the address sit at the offsets of the text before them |
| Email.EmailHtmlShowsOrder | src/lib/email.ts:38-65 | the body that `Email.BuildOrderEmailHtml` renders holds the status label, then the item rows, then the address with line breaks, each right after the fixed text before it |
| Email.Subject | src/lib/email.ts:85 | the subject is "Order #", the last 8 characters of the id, " – Status: " and the status name |
| Email.SendOrderStatusEmail | src/lib/email.ts:72-94 | missing credentials report ok and send nothing; otherwise the message is sent, ok exactly when delivered, and a failure reports its message or "Unknown error"; ok exactly when no error |

## Left out

- I/O: the database client, the payment gateway SDK, the SMTP transport, environment reads and `revalidatePath`. Each is a parameter or an explicit input (see above), or it is dropped when it does not affect state.
- Concurrency: the database transaction is one atomic step on a single-threaded store. Concurrent checkouts and lost updates to stock or `usedCount` are not modelled.
- Database errors other than the ones the code itself triggers (a missing row, a clashing id, a missing user). Each of those is modelled with the message the code reports; a thrown Error's message is a parameter, as in `OrderActions.PlaceOrder`. In particular, "Failed to validate coupon" (the catch at src/app/actions/order.ts:79-82) is not modelled. A database exception in the status update or the webhook other than a missing row is not modelled either.
- Whether the database refuses to delete a coupon that orders reference. The model deletes the row.
- Fractional money: prices, discounts and totals are integers. `decimalToNumber`, `Decimal` and `toFixed(2)` are not modelled. The e-mail shows an item price as the currency sign and the integer (`Email.Row`); how a fractional `Decimal` price would print is not modelled.
- The parsing of form text: `parseFloat`, `parseInt` and `new Date` reach the model as already-parsed values. NaN is a value of its own; a present field that did not parse takes the "Failed to create coupon" path.
- JSON parsing of the cart and of the webhook body: the model receives the result.
- HMAC-SHA256 and base64: the function parameter `sign`.
- Zod's `.url()` check: the parameter `isUrl`.
- Upper-casing and trimming: upper-casing is modelled on ASCII letters only. Trimming uses the ECMAScript whitespace set. Strings are sequences of characters, not of UTF-16 code units.
- The middleware's `matcher` configuration. Only the `authorized` callback is modelled.
- Cart totals in the cart UI, the `sessionStorage` persistence of the cart, and every React page and component.
- OrderActions.UpdateOrderStatus: returns the order to be mailed (`notice`) instead of waiting for the send. Its result is the same whatever the send outcome, which `Email.SendOrderStatusEmail` states on its own.
- Email.EmailHtmlShowsOrder: stated for any label. `Email.RenderOrderEmail` fills in the label `StatusLabel(StatusName(newStatus))`, which the label lemmas describe.
- The minimum-order message keeps the mis-encoded rupee sign of src/app/actions/order.ts:60, as written.
- prisma/schema.prisma is not part of this model: the columns and defaults of the tables (for example `usedCount` starting at 0) follow their use in the actions.
