# Desawali storefront — a Dafny model of its core

Desawali is a small online grocery and pickle shop: a React storefront with a cart kept in
the browser, a three-step checkout, customer pages for signing in, contact and the account
profile, an admin area for the catalogue and orders, and three serverless handlers that
talk to the PhonePe payment gateway (start a payment, check its status, receive the
provider's notification and mark the order paid or cancelled).

This project models that core in Dafny and proves what it promises:

- **Helpers** (`helpers.dfy`): the slug generator always yields a well-formed slug, is
  idempotent, and joins two words around a separator run with one dash. Cart totals add
  up over concatenation. Shipping is free from 2000 and never grows with the total. Tax is
  the nearest whole amount to 5 %. Both e-mail and phone recognisers are characterised,
  with their unit-test examples proved.
- **Cart hook** (`cart.dfy`): a `Cart` class over a sequence of lines. Adding merges or
  appends, removing deletes exactly the line with that id and keeps the rest in order, and a
  non-positive quantity update is a removal. Product ids stay unique across every operation,
  and raising then lowering a quantity restores both the line and the item count.
- **Payment handlers** (`gateway.dfy`, `create_payment.dfy`, `verify_payment.dfy`,
  `webhook.dfy`): each gate of each handler with its exact status code and message, and the
  signed strings. The webhook recovers the order id from the transaction id that the payment
  handler builds, for every non-empty id without a line break. It changes at most the order
  with the extracted id, and only after the signature matches.
- **Pages** (`forms.dfy`, `checkout.dfy`, `auth.dfy`, `contact.dfy`, `account.dfy`,
  `product_page.dfy`, `admin_products.dfy`, `admin_orders.dfy`): each form is a class whose
  validation fills its message map field by field. The result equals a specification
  function, and each form validates exactly when its validity predicate holds. The step,
  mode, quantity, image and list updates are methods whose contracts give the new state and
  the invariants they keep.

External effects are parameters:

- the SHA-256 digest, the base64/JSON encoding and decoding, and the provider's reply;
- the clock (`millis`, `now`) and the environment variables (`Env`);
- whether a database write fails, and the authentication service's answer.

Shared modules: `Wrappers` (Option), `Seqs` (`Array.prototype.filter` and friends),
`Text` (JavaScript's whitespace, `trim`, ASCII lower-casing, `includes`, decimal digits) and
`Types` (the table rows).

Behaviour worth noting, as the code has it:

- `create-payment` rejects only an absent or zero amount. A negative amount passes the field
  check and reaches the provider.
- The `TXN_(.+)_\d+` extraction in the webhook is greedy, so an order id that itself contains
  `_123` is still recovered whole. An empty id or one with a line break is not.
- A signed webhook notification whose extracted order id names no stored order still gets a
  200, and it changes nothing: the update matches no row, and the handler does not report that.
- A webhook notification without state, response code or payment id still gets a 200. It
  sets the order Pending and writes only the status and the update time.
- The webhook writes an `updated_at` column that the `orders` row type in
  `src/types/database.ts` does not declare; the model's `Order` carries it as an optional
  field.
- `handlePrevStep` on the checkout has no lower bound. It decrements even from step 1, as
  written.

## Model

| member | source | states |
|---|---|---|
| Text.BlankIffTrimEmpty | src/pages/Checkout.tsx:81-95 | a string is blank (all JavaScript whitespace) exactly when `trim()` leaves it empty, the test every "required" rule uses |
| Text.ToLower | src/utils/helpers.ts:22 | `toLowerCase` keeps the length, maps each upper-case ASCII letter to its lower case and keeps every other character |
| Text.TrimStart | src/utils/helpers.ts:23 | the result is a suffix, everything dropped is whitespace, and it does not start with whitespace; it is empty exactly for an all-whitespace string |
| Text.TrimEnd | src/utils/helpers.ts:23 | the result is a prefix, everything dropped is whitespace, and it does not end with whitespace; it is empty exactly for an all-whitespace string |
| Text.LeadingWhitespace | src/utils/helpers.ts:23 | the count is the length of the maximal run of whitespace the string starts with |
| Text.TrailingWhitespace | src/utils/helpers.ts:23 | the count is the length of the maximal run of whitespace the string ends with |
| Text.Trim | src/utils/helpers.ts:23 | the result is a prefix of the string without its leading whitespace, everything dropped after it is whitespace, and it neither starts nor ends with whitespace |
| Text.RemoveWhitespace | src/utils/helpers.ts:72 | no whitespace is left, and a character occurs in the result exactly when it occurs in the input and is not whitespace |
| Text.RemoveWhitespaceConcat | src/utils/helpers.ts:72 | whitespace is removed piecewise: the result for a concatenation is the concatenation of the results, so the surviving characters keep their order |
| Text.RemoveWhitespaceKeepsClean | src/utils/helpers.ts:72 | a string without whitespace is returned unchanged |
| Text.ContainsIffOccurs | src/pages/admin/Products.tsx:97 | `includes` holds exactly when the needle occurs at some position of the haystack |
| Text.ContainsEmpty | src/pages/admin/Products.tsx:97 | every title includes the empty search term |
| Text.Decimal | api/phonepe/create-payment.ts:43 | the decimal rendering of a number is non-empty and all digits, its digits read most significant first denote the number, it has no leading zero except for 0 itself, and it is one digit long exactly below ten |
| Seqs.Filter | src/hooks/useCart.ts:57 | `filter` keeps exactly the elements satisfying the predicate and never lengthens the list |
| Seqs.FilterConcat | src/hooks/useCart.ts:57 | filtering a concatenation is the concatenation of the filtered parts, so survivors keep their relative order |
| Seqs.FilterAll | src/pages/admin/Orders.tsx:115-117 | a predicate every element satisfies leaves the list unchanged |
| Seqs.FilterNone | src/pages/admin/Orders.tsx:115-117 | a predicate no element satisfies leaves the empty list |
| Types.ParseStatus | src/types/database.ts:212-219 | a status name parses only to the status with that name |
| Types.StatusNameRoundTrip | src/types/database.ts:212-219 | every order status's name parses back to that status |
| Types.StatusName | src/types/database.ts:212-219 | every status is written as one of the seven members of the `OrderStatus` union |
| Types.StatusNamesCovered | src/types/database.ts:212-219 | every member of the union is the name of some status, so the datatype covers the union |
| Helpers.CollapseRuns | src/utils/helpers.ts:25 | each run of separator characters becomes exactly one dash, other characters are kept, and no two dashes are adjacent |
| Helpers.StripDashes | src/utils/helpers.ts:26 | the result is the slice of the input that starts after its leading run of dashes and is followed only by dashes, and it neither starts nor ends with a dash |
| Helpers.LeadingDashes | src/utils/helpers.ts:26 | the count is the length of the maximal run of dashes the string starts with |
| Helpers.TrailingDashes | src/utils/helpers.ts:26 | the count is the length of the maximal run of dashes the string ends with |
| Seqs.LeadingRun | src/utils/helpers.ts:25 | the count is the length of the maximal run of characters of the class that the string starts with, the run one `+` of the pattern consumes |
| Helpers.StripDashesNoEdgeDash | src/utils/helpers.ts:26 | a string that neither starts nor ends with a dash is left unchanged |
| Helpers.GenerateSlug | src/utils/helpers.ts:20-27 | the slug contains only `a-z`, `0-9` and single inner dashes, for every input |
| Helpers.GenerateSlugFixed | src/utils/helpers.ts:20-27 | a well-formed slug is its own slug |
| Helpers.GenerateSlugIdempotent | src/utils/helpers.ts:20-27 | slugging a slug changes nothing |
| Helpers.CollapseMergesRun | src/utils/helpers.ts:25 | a whole run of class characters, up to the next other character, becomes one dash |
| Seqs.LeadingRunOfRun | src/utils/helpers.ts:25 | the run measured at the front of a run of class characters followed by another character is exactly that run |
| Helpers.CollapseRunsFixed | src/utils/helpers.ts:25 | a string with single dashes between non-separators is its own collapse |
| Helpers.CollapseKeepsWord | src/utils/helpers.ts:25 | a word without separator characters is copied unchanged in front of the collapse of what follows it |
| Helpers.CollapseJoinsWords | src/utils/helpers.ts:25 | a non-empty separator run between two words without separators becomes exactly one dash |
| Helpers.TwoWordsSurviveCleaning | src/utils/helpers.ts:22-24 | lower-casing, trimming and dropping characters outside `[\w\s-]` leave two lower-case words around a separator run unchanged |
| Helpers.GenerateSlugJoinsWords | src/utils/helpers.ts:20-27 | two words of `a-z0-9` separated by any non-empty run of whitespace, `_` or `-` become the two words joined by one dash |
| Helpers.ToLowerConcat | src/utils/helpers.ts:22 | lower-casing distributes over concatenation |
| Helpers.GenerateSlugOfLowered | src/utils/helpers.ts:20-22 | a text and its lower-cased form have the same slug |
| Helpers.GenerateSlugJoinsCasedWords | src/utils/helpers.ts:20-27 | two ASCII words of either case separated by a run of whitespace, `_` or `-` become the lower-cased words joined by one dash, as in `Mango Pickle` to `mango-pickle` |
| Helpers.CalculateCartTotal | src/utils/helpers.ts:29-31 | the total of lines with non-negative prices and quantities is non-negative |
| Helpers.CartTotalConcat | src/utils/helpers.ts:29-31 | the total of two carts laid end to end is the sum of their totals |
| Helpers.CartTotalBase | src/utils/helpers.ts:29-31 | the empty cart totals 0, a one-line cart totals price times quantity |
| Helpers.CalculateShipping | src/utils/helpers.ts:33-43 | shipping is free exactly from 2000; below that it is the zone's rate, 50 for an unknown zone |
| Helpers.ZoneRate | src/utils/helpers.ts:36-42 | exactly `local`, `metro` and `national` have a rate, and no known zone costs less than the 50 charged for an unknown one |
| Helpers.ShippingNonIncreasing | src/utils/helpers.ts:33-43 | a larger total never pays more shipping in the same zone |
| Helpers.CalculateTax | src/utils/helpers.ts:45-47 | the tax is within half a unit of 5 % of the subtotal, with halves rounded up |
| Helpers.TaxIsNearest | src/utils/helpers.ts:45-47 | that rounding has only one answer |
| Helpers.SliceEnd | src/utils/helpers.ts:51 | JavaScript's `slice` end index: a non-negative end clamped to the length; a negative end counted back from the length, or 0 when it reaches past the start |
| Helpers.TruncateText | src/utils/helpers.ts:49-52 | text no longer than `maxLength` is returned unchanged; otherwise it is cut at `maxLength`, or for a negative one at the `slice` end counted from the back (the empty text included), and given `...` |
| Helpers.EmailValidHasShape | src/utils/helpers.ts:65-68 | an address the pattern accepts has no whitespace, one `@` with text before it, and a dot after it with text on both sides |
| Helpers.EmailShapeIsValid | src/utils/helpers.ts:65-68 | every address of that shape is accepted |
| Helpers.EmailIff | src/utils/helpers.ts:65-68 | the e-mail pattern holds exactly for a non-empty local part, `@`, a domain with a dot that has text on both sides, and no whitespace or second `@` |
| Helpers.IsValidEmail | src/utils/helpers.ts:65-68 | an accepted address has at least five characters, and its first and last characters are neither whitespace nor `@` |
| Helpers.RemoveAllWhitespace | src/utils/helpers.ts:72 | removing whitespace from whitespace leaves nothing |
| Helpers.PhoneIgnoresWhitespace | src/utils/helpers.ts:70-73 | inserting whitespace anywhere never changes whether a phone number is valid |
| Helpers.PhoneOfDigits | src/utils/helpers.ts:70-73 | a string of digits is a valid phone exactly when it has ten digits and starts with 6 to 9 |
| Helpers.IsValidPhone | src/utils/helpers.ts:70-73 | an accepted number has at least ten characters, each a digit or whitespace |
| Helpers.PhoneAcceptsTenDigits | src/utils/helpers.ts:70-73 | ten digits starting with 6 to 9 form a valid phone number |
| Helpers.PhoneAcceptsMobileNumber | src/tests/utils/helpers.test.tsx:25 | `9876543210` is accepted |
| Helpers.PhoneAcceptsLeadingEight | src/tests/utils/helpers.test.tsx:26 | `8123456789` is accepted |
| Helpers.PhoneRejectsLeadingOne | src/tests/utils/helpers.test.tsx:27 | `1234567890` is rejected |
| Helpers.PhoneRejectsNineDigits | src/tests/utils/helpers.test.tsx:28 | a nine-digit number is rejected |
| Helpers.PhoneRejectsElevenDigits | src/tests/utils/helpers.test.tsx:29 | an eleven-digit number is rejected |
| Helpers.EmailAcceptsPlainAddress | src/tests/utils/helpers.test.tsx:15 | `test@example.com` is accepted |
| Helpers.EmailAcceptsCountryDomain | src/tests/utils/helpers.test.tsx:16 | `user@domain.co.in` is accepted |
| Helpers.EmailRejectsMissingAt | src/tests/utils/helpers.test.tsx:17 | `invalid-email` is rejected |
| Helpers.EmailRejectsMissingDomain | src/tests/utils/helpers.test.tsx:18 | `test@` is rejected |
| Helpers.EmailRejectsMissingLocalPart | src/tests/utils/helpers.test.tsx:19 | `@domain.com` is rejected |
| CartHook.HasIdTail | src/hooks/useCart.ts:88-90 | a cart whose head has another id has that id exactly when its tail does |
| CartHook.FindItem | src/hooks/useCart.ts:92-94 | `find` answers exactly when some line has the id, and what it returns is a line of the cart with that id |
| CartHook.FindItemIsFirst | src/hooks/useCart.ts:35 | `find` returns the first line with the id |
| CartHook.WithQuantity | src/hooks/useCart.ts:66-72 | the lines with the id get the quantity and every other line is unchanged, with the length kept |
| CartHook.WithIncrement | src/hooks/useCart.ts:39-43 | the lines with the id have their quantity raised by the amount and every other line is unchanged |
| CartHook.WithAdded | src/hooks/useCart.ts:32-54 | adding a present product keeps the length; adding a new one appends exactly its line with the quantity |
| CartHook.AddExistingMerges | src/hooks/useCart.ts:35-43 | adding a product already in the cart raises only that line's quantity, keeping its place and its other fields |
| CartHook.Without | src/hooks/useCart.ts:56-58 | removal keeps exactly the lines with another id |
| CartHook.Updated | src/hooks/useCart.ts:60-73 | a quantity of 0 or less is a removal; a positive one sets that line's quantity |
| CartHook.ItemCount | src/hooks/useCart.ts:80-82 | the count of an empty cart is 0, and of non-negative quantities is non-negative |
| CartHook.UniqueCons | src/hooks/useCart.ts:32-73 | ids are unique exactly when the head's id is not in the tail and the tail's ids are unique |
| CartHook.AddKeepsUnique | src/hooks/useCart.ts:32-54 | adding keeps product ids unique |
| CartHook.HasIdSubset | src/hooks/useCart.ts:57 | an id present in a sub-list is present in the list |
| CartHook.FilterKeepsUnique | src/hooks/useCart.ts:57 | filtering keeps product ids unique |
| CartHook.RemoveKeepsUnique | src/hooks/useCart.ts:56-58 | removing keeps product ids unique |
| CartHook.UpdateKeepsUnique | src/hooks/useCart.ts:60-73 | updating a quantity keeps product ids unique |
| CartHook.RemoveAbsentIsIdentity | src/hooks/useCart.ts:56-58 | removing an id that is not in the cart changes nothing |
| CartHook.OnlyLineWithId | src/hooks/useCart.ts:56-58 | in a cart with unique ids, no other line shares a line's id |
| CartHook.FilterSkipsHead | src/hooks/useCart.ts:57 | a dropped head does not appear in the filtered list |
| CartHook.RemoveBetween | src/hooks/useCart.ts:56-58 | removing the only line with an id leaves the lines before and after it, in order |
| CartHook.RemovePresent | src/hooks/useCart.ts:56-58 | removing line `k`'s id from a cart with unique ids deletes exactly line `k` |
| CartHook.CountConcat | src/hooks/useCart.ts:80-82 | the item count of two carts laid end to end is the sum of their counts |
| CartHook.CountAfterSet | src/hooks/useCart.ts:66-72 | setting one line's quantity changes the count by the difference |
| CartHook.SetBackRestores | src/hooks/useCart.ts:66-72 | setting a line's quantity and then setting the old value back restores the cart |
| CartHook.IncrementThenDecrement | e2e/checkout.spec.ts:66-78 | raising a line's quantity by one and lowering it again restores the line and the item count |
| CartHook.HasItemIffGetItem | src/hooks/useCart.ts:88-94 | `hasItem` holds exactly when `getItem` returns a line |
| CartHook.Cart.constructor | src/hooks/useCart.ts:8-11 | a new cart is empty with unique ids |
| CartHook.Cart.AddItem | src/hooks/useCart.ts:32-54 | the held lines become the added list and ids stay unique |
| CartHook.Cart.RemoveItem | src/hooks/useCart.ts:56-58 | the held lines become the list without the id, ids unique |
| CartHook.Cart.UpdateQuantity | src/hooks/useCart.ts:60-73 | the held lines become the updated list, ids unique |
| CartHook.Cart.ClearCart | src/hooks/useCart.ts:75-78 | the cart becomes empty |
| CartHook.Cart.GetItemCount | src/hooks/useCart.ts:80-82 | returns the item count of the held lines, changing nothing |
| CartHook.Cart.GetTotal | src/hooks/useCart.ts:84-86 | returns the cart total of the held lines, changing nothing |
| CartHook.Cart.HasItem | src/hooks/useCart.ts:88-90 | true exactly when `getItem` would return a line |
| CartHook.Cart.GetItem | src/hooks/useCart.ts:92-94 | returns the first line with the id, if any |
| Gateway.BaseUrl | api/phonepe/create-payment.ts:30-32 | the production host exactly when `NODE_ENV` is `production`, the sandbox host otherwise |
| Gateway.Checksum | api/phonepe/create-payment.ts:65 | the header is the digest of the signed string followed by `###1` |
| Gateway.ChecksumInjective | api/phonepe/webhook.ts:32-40 | two headers are equal exactly when their digests are |
| CreatePayment.TransactionId | api/phonepe/create-payment.ts:43 | the id is `TXN_`, the order id, `_`, then the milliseconds in decimal, at those exact positions |
| CreatePayment.MerchantUserId | api/phonepe/create-payment.ts:49 | the user id is `USER_` followed by the order id |
| CreatePayment.AppUrl | api/phonepe/create-payment.ts:51-53 | the configured application URL, or the local development server when unset or empty |
| CreatePayment.Payload | api/phonepe/create-payment.ts:46-58 | the payload carries the merchant, the transaction and user ids, the amount and phone unchanged, the success and webhook URLs, `POST` and `PAY_PAGE` |
| CreatePayment.Classify | api/phonepe/create-payment.ts:81-98 | 200 exactly when the provider reports success with a redirect URL; otherwise 400 with the provider's message or the fixed one |
| CreatePayment.HasRequiredFields | api/phonepe/create-payment.ts:20 | the field check fails exactly when the order id or the phone is missing or empty, or the amount is missing or zero |
| CreatePayment.HandleCreatePayment | api/phonepe/create-payment.ts:11-107 | 405 for another method, 500 for an unreadable body, 400 for a missing field, 500 without credentials, and none of these calls the provider; otherwise exactly one signed call whose reply is classified, or 500 when it fails |
| VerifyPayment.StatusPathFor | api/phonepe/verify.ts:33 | the path is the status endpoint followed by `/`, the merchant id, `/` and the transaction id |
| VerifyPayment.Call | api/phonepe/verify.ts:33-47 | the URL is the base URL plus exactly the signed path, the header signs the path followed by the secret, and the merchant header is the merchant id |
| VerifyPayment.HandleVerify | api/phonepe/verify.ts:4-63 | 405, 400 and 500 gates in the source's order with no call; otherwise exactly one call whose answer is passed back with 200, or 500 when it fails |
| Webhook.LineEnd | api/phonepe/webhook.ts:56 | the end of the line that `.` can match across |
| Webhook.LastCaptureEnd | api/phonepe/webhook.ts:56 | the greedy capture ends at the last `_digit` before the line end |
| Webhook.MatchAt | api/phonepe/webhook.ts:56 | a match at a position starts with `TXN_`, captures a non-empty line segment followed by `_` and a digit, and fails exactly when there is no such end |
| Webhook.FirstMatch | api/phonepe/webhook.ts:56 | the position found is the leftmost one where the pattern matches, and none is found exactly when no position matches |
| Webhook.ExtractOrderId | api/phonepe/webhook.ts:56-57 | no id is extracted exactly when the pattern matches nowhere, and an extracted id is never empty |
| Webhook.TransactionIdRoundTrip | api/phonepe/webhook.ts:56-57 | the id extracted from `TXN_<order>_<millis>` is the order id, for any non-empty order id without line breaks |
| Webhook.MatchAtStartIsOrderId | api/phonepe/webhook.ts:56 | the pattern matches at the start of a built transaction id and captures exactly the order id |
| Webhook.MatchAtShape | api/phonepe/webhook.ts:56 | for `TXN_`, a non-empty segment within one line, `_` and then only digits, the greedy capture is the whole segment |
| Webhook.LineBreakIdNotRecovered | api/phonepe/webhook.ts:56-62 | for every order id containing a line terminator and every time stamp, the extracted id is not the order id |
| Webhook.LineBreakDefeatsMatch | api/phonepe/webhook.ts:56-62 | example: for the id `a\nb` the pattern matches nowhere, so the handler answers 400 |
| Webhook.EmptyIdNotRecovered | api/phonepe/webhook.ts:56-62 | for the empty order id and every time stamp, the pattern matches nowhere |
| Webhook.MapStatus | api/phonepe/webhook.ts:65-74 | Paid exactly for a completed and successful payment, Cancelled exactly for a failed one, Pending otherwise (a missing state or code included); the payment status is `SUCCESS` when paid and the reported state, possibly missing, otherwise |
| Webhook.Written | api/phonepe/webhook.ts:79-84 | a column given a value takes it; a column given `undefined` keeps its current value |
| Webhook.ApplyPayment | api/phonepe/webhook.ts:77-85 | the same orders exist afterwards; only the order with the id changes: its status and update time are set, its payment id and payment status are set when present and kept when missing, and every other column is unchanged |
| Webhook.BareNotificationOnlyStamps | api/phonepe/webhook.ts:47-85 | a notification carrying only the transaction id sets the order Pending and stamps the update time, and nothing else |
| Webhook.ReplayIsIdempotent | api/phonepe/webhook.ts:77-85 | delivering the same notification twice leaves the same store as once, apart from the update time |
| Webhook.HandleWebhook | api/phonepe/webhook.ts:5-109 | each gate's exact code and message; the store changes only on a 200 response, and a 200 needs a matching signature and a successful write |
| Webhook.SignatureValid | api/phonepe/webhook.ts:32-37 | a signature is accepted exactly when it is the hex digest of the body, `/pg/v1/status` and the secret, followed by `###1` |
| Forms.EmailError | src/pages/Checkout.tsx:65-69 | no message exactly for a non-empty valid e-mail; "required" for an empty one |
| Forms.RequiredError | src/pages/Checkout.tsx:81-83 | no message exactly when the value is not blank, otherwise the given message |
| Forms.OptionalPhoneError | src/pages/Auth.tsx:56-58 | no message exactly for an empty or valid phone |
| Forms.NoErrorsIffAllPass | src/pages/Checkout.tsx:98-99 | the message map is empty exactly when every checked field passes |
| Forms.Record | src/pages/Checkout.tsx:81-83 | a field with a message gets it recorded; otherwise the map is unchanged |
| Forms.ClearOnEdit | src/pages/Checkout.tsx:116-119 | a message shown for the edited field is cleared, and every other field keeps its message |
| CheckoutPage.PhoneError | src/pages/Checkout.tsx:71-75 | no message exactly for a non-empty valid phone |
| CheckoutPage.FieldOfKey | src/pages/Checkout.tsx:117 | a message key names the field whose key it is |
| CheckoutPage.KeyRoundTrip | src/pages/Checkout.tsx:82-94 | every field's key reads back as that field |
| CheckoutPage.StepOneChecks | src/pages/Checkout.tsx:63-76 | step 1 is valid exactly when neither e-mail nor phone has a message |
| CheckoutPage.StepTwoChecks | src/pages/Checkout.tsx:78-96 | step 2 is valid exactly when none of the five address fields has a message |
| CheckoutPage.FieldError | src/pages/Checkout.tsx:63-96 | a field has no message exactly when its rule holds: a valid e-mail, a non-empty valid phone, and each of the five address fields not blank |
| CheckoutPage.StepValid | src/pages/Checkout.tsx:63-96 | step 1 passes exactly when e-mail and phone have no message, step 2 exactly when none of the five address fields has one, and any other step always |
| CheckoutPage.StepValidIffNoErrors | src/pages/Checkout.tsx:60-100 | a step is valid exactly when none of its fields has a message; any other step than 1 and 2 is always valid |
| CheckoutPage.SecondAddressLineOptional | src/pages/Checkout.tsx:78-96 | the second address line never affects step 2 |
| CheckoutPage.SetAddressField | src/pages/Checkout.tsx:103-111 | each address field name sets only that field; an unknown name changes nothing |
| CheckoutPage.WithField | src/pages/Checkout.tsx:102-114 | a `shippingAddress.` key changes only that address field; any other key changes only that top-level field |
| CheckoutPage.InputChangesOnlyItsField | src/pages/Checkout.tsx:102-114 | the contact fields, the address and the payment fields each change only under their own keys |
| CheckoutPage.ComputeTotals | src/pages/Checkout.tsx:49-52 | total is subtotal plus local shipping plus tax |
| CheckoutPage.TotalsByThreshold | src/pages/Checkout.tsx:49-52 | below 2000 the total includes 50 for shipping, from 2000 none, and a non-negative subtotal never exceeds its total |
| CheckoutPage.ToOrderItem | src/pages/Checkout.tsx:141-148 | an order line copies the cart line's product id, title, price, unit and image, with its quantity as `qty` |
| CheckoutPage.ToOrderItems | src/pages/Checkout.tsx:141-148 | the order has one line per cart line, in cart order |
| CheckoutPage.OrderLinesMatchCart | src/pages/Checkout.tsx:139-156 | the order lines total the cart total and count the cart's items |
| CheckoutPage.BuildOrder | src/pages/Checkout.tsx:139-156 | the order carries the user, the lines, the totals, status Pending for either payment method, the address and the notes |
| CheckoutPage.StepErrorsMeaning | src/pages/Checkout.tsx:98-99 | the recorded messages are those of the step's failing fields, and there are none exactly when the step is valid |
| CheckoutPage.CollectContactErrors | src/pages/Checkout.tsx:63-76 | the field-by-field fill of step 1 yields the step's message map |
| CheckoutPage.CollectAddressErrors | src/pages/Checkout.tsx:78-96 | the field-by-field fill of step 2 yields the step's message map |
| CheckoutPage.Checkout.constructor | src/pages/Checkout.tsx:28-47 | the form starts from the user's e-mail and the profile's phone and name, country India, PhonePe, step 1, no messages |
| CheckoutPage.Checkout.ValidateStep | src/pages/Checkout.tsx:60-100 | the messages become the step's message map, and the result is the step's validity |
| CheckoutPage.Checkout.HandleInputChange | src/pages/Checkout.tsx:102-120 | the form gets the field's value, and a message for that key is cleared |
| CheckoutPage.Checkout.HandleNextStep | src/pages/Checkout.tsx:122-126 | the messages become those of the current step; one step forward exactly when the step validates, otherwise the step stays |
| CheckoutPage.Checkout.HandlePrevStep | src/pages/Checkout.tsx:128-130 | one step back, the form and the messages unchanged |
| CheckoutPage.Checkout.HandleSubmitOrder | src/pages/Checkout.tsx:132-180 | the messages become those of step 2 and the step does not change; an order is built exactly when step 2 validates, from the cart as it was, and then the cart is cleared; otherwise the cart is untouched |
| AuthPage.PasswordError | src/pages/Auth.tsx:45-49 | no message exactly for a password of at least 6 characters |
| AuthPage.ConfirmError | src/pages/Auth.tsx:60-64 | no message exactly for a non-empty confirmation equal to the password |
| AuthPage.FormValidIffNoErrors | src/pages/Auth.tsx:36-69 | validation records nothing exactly when the e-mail is valid and the password long enough, and, for sign-up, the name is filled, the phone empty or valid and the confirmation matches |
| AuthPage.FieldError | src/pages/Auth.tsx:36-69 | a field has no message exactly when its rule holds: a valid e-mail, a password of at least 6 characters, a confirmation equal to it, a name not blank, a phone empty or valid |
| AuthPage.FormValid | src/pages/Auth.tsx:36-69 | signing in is valid exactly when e-mail and password have no message; signing up exactly when none of the five fields has one |
| AuthPage.SignInChecksCredentialsOnly | src/pages/Auth.tsx:51 | in sign-in mode only e-mail and password are flagged, whatever the other inputs hold |
| AuthPage.CollectErrors | src/pages/Auth.tsx:36-65 | the field-by-field fill yields the mode's message map |
| AuthPage.Auth.constructor | src/pages/Auth.tsx:18-28 | sign-in mode, empty inputs, no messages |
| AuthPage.Auth.ValidateForm | src/pages/Auth.tsx:36-69 | the messages become the mode's message map, and the result is the form's validity |
| AuthPage.Auth.HandleInputChange | src/pages/Auth.tsx:106-113 | the input gets its value, and a message shown for it is cleared |
| AuthPage.Auth.ToggleMode | src/pages/Auth.tsx:249-258 | the mode flips, all five inputs are emptied and no message is shown |
| AuthPage.Auth.HandleSubmit | src/pages/Auth.tsx:71-104 | the service is called exactly for a valid form; its failure or a throw shows a message under e-mail, and only success navigates |
| ContactPage.MessageError | src/pages/Contact.tsx:57-61 | no message exactly for a message that is not blank and is at least 10 characters before trimming |
| ContactPage.FormValidIffNoErrors | src/pages/Contact.tsx:36-65 | validation records nothing exactly when name and subject are filled, the e-mail valid, the phone empty or valid and the message long enough |
| ContactPage.FieldError | src/pages/Contact.tsx:36-65 | a field has no message exactly when its rule holds: name and subject not blank, a valid e-mail, a phone empty or valid, a message not blank and at least 10 characters |
| ContactPage.FormValid | src/pages/Contact.tsx:36-65 | the form is valid exactly when none of the five fields has a message |
| ContactPage.PaddedMessagePasses | src/pages/Contact.tsx:57-61 | a short word padded with spaces to 10 characters passes, since the length is counted before trimming |
| ContactPage.CollectErrors | src/pages/Contact.tsx:36-62 | the field-by-field fill yields the form's message map |
| ContactPage.Contact.constructor | src/pages/Contact.tsx:25-34 | empty inputs, no messages, not submitted |
| ContactPage.Contact.ValidateForm | src/pages/Contact.tsx:36-65 | the messages become the form's message map, and the result is the form's validity |
| ContactPage.Contact.HandleInputChange | src/pages/Contact.tsx:92-99 | the input gets its value, and a message shown for it is cleared |
| ContactPage.Contact.HandleSubmit | src/pages/Contact.tsx:67-90 | a valid form is sent, sets `submitted` and empties every input; an invalid one changes only the messages |
| AccountPage.ShownValue | src/pages/Account.tsx:21-22 | a missing profile or a null column shows as empty, any other value as itself |
| AccountPage.FormValidIffNoErrors | src/pages/Account.tsx:31-44 | validation records nothing exactly when the name is filled and the phone is empty or valid |
| AccountPage.FieldError | src/pages/Account.tsx:31-44 | the name has no message exactly when it is not blank, the phone exactly when it is empty or valid, and the save key never gets one from validation |
| AccountPage.FormValid | src/pages/Account.tsx:31-44 | the form is valid exactly when neither the name nor the phone has a message |
| AccountPage.SavedProfile | src/hooks/useAuth.ts:146-155 | the row a successful update returns holds the form's name and phone, and the form shown from it is the form that was saved |
| AccountPage.CollectErrors | src/pages/Account.tsx:34-40 | the field-by-field fill yields the form's message map |
| AccountPage.Account.constructor | src/pages/Account.tsx:18-24 | not editing, the inputs from the profile, no messages |
| AccountPage.Account.StartEdit | src/pages/Account.tsx:140 | editing starts, nothing else changes |
| AccountPage.Account.ValidateForm | src/pages/Account.tsx:31-44 | the messages become the form's message map, and the result is the form's validity |
| AccountPage.Account.HandleSaveProfile | src/pages/Account.tsx:46-64 | the update is called exactly for a valid form; a refusal or a throw keeps editing on, shows the reason under `submit` and keeps the profile; success ends editing with no message and replaces the profile with the saved row (`src/hooks/useAuth.ts:153-155`) |
| AccountPage.Account.HandleCancelEdit | src/pages/Account.tsx:66-73 | the inputs return to the profile's values, editing ends and no message is shown |
| AccountPage.Account.HandleInputChange | src/pages/Account.tsx:75-80 | the input gets its value, and a message shown for it is cleared |
| ProductView.AvailableStock | src/pages/ProductPage.tsx:96 | the stock is the product's inventory, or 0 with no product loaded |
| ProductView.StockLabel | src/pages/ProductPage.tsx:303-314 | "In Stock" above 10, "Only n left" from 1 to 10, "Out of Stock" otherwise |
| ProductView.StockLabelMatchesStock | src/pages/ProductPage.tsx:134 | the label says "Out of Stock" exactly when the product is out of stock, and names the count exactly when stock is low |
| ProductView.CartLine | src/pages/ProductPage.tsx:85-91 | the cart line carries the product's id, title, price and unit and its first image, or none when it has no images |
| ProductView.ProductPage.constructor | src/pages/ProductPage.tsx:30-31 | quantity 1, first image |
| ProductView.ProductPage.HandleQuantityChange | src/pages/ProductPage.tsx:94-99 | the new quantity is taken exactly when it lies between 1 and the stock, so a valid quantity stays valid; with no product nothing changes |
| ProductView.ProductPage.NextImage | src/pages/ProductPage.tsx:101-105 | one image on exactly when the last is not shown; the index stays on an image |
| ProductView.ProductPage.PrevImage | src/pages/ProductPage.tsx:107-111 | one image back exactly when the first is not shown; the index never goes negative |
| ProductView.ProductPage.HandleAddToCart | src/pages/ProductPage.tsx:82-92 | the product's line is added with the selected quantity; with no product the cart is untouched |
| AdminCatalog.StripEdgeDash | src/pages/admin/Products.tsx:355 | the first character is removed exactly when it is a dash, and the last character exactly when it is a dash that is not that first one; the rest is kept as it is |
| AdminCatalog.StripEdgeKeepsSlug | src/pages/admin/Products.tsx:355 | removing them from a dash-collapsed string of slug characters leaves a slug |
| AdminCatalog.AdminSlug | src/pages/admin/Products.tsx:355 | the admin slug contains only `a-z`, `0-9` and single inner dashes, for every title |
| AdminCatalog.AdminSlugFixed | src/pages/admin/Products.tsx:355 | a slug is its own admin slug |
| AdminCatalog.AdminSlugJoinsWords | src/pages/admin/Products.tsx:355 | two words of `a-z0-9` separated by a run of characters outside `a-z0-9` that lower-casing leaves alone become the two words joined by one dash |
| AdminCatalog.AdminSlugIdempotent | src/pages/admin/Products.tsx:355 | applying the rule twice is applying it once |
| AdminCatalog.FilteredProducts | src/pages/admin/Products.tsx:96-100 | exactly the products whose lower-cased title includes the lower-cased term and whose category matches (empty matches all) are kept |
| AdminCatalog.Matches | src/pages/admin/Products.tsx:96-100 | a product of another category never matches a chosen category; with no search term and no category every product matches |
| AdminCatalog.NoFilterShowsAll | src/pages/admin/Products.tsx:96-100 | with no term and no category the whole list is shown, in order |
| AdminCatalog.ShownIffTitleHasTerm | src/pages/admin/Products.tsx:96-100 | a product is shown exactly when its title has the term at some position and its category matches |
| AdminCatalog.Toggled | src/pages/admin/Products.tsx:85-89 | only the products with the id have their publish flag flipped, with the length kept |
| AdminCatalog.ToggleTwiceRestores | src/pages/admin/Products.tsx:85-89 | toggling twice restores the list |
| AdminCatalog.WithoutProduct | src/pages/admin/Products.tsx:69 | exactly the products with another id stay |
| AdminCatalog.ProductsPage.constructor | src/pages/admin/Products.tsx:11 | the page holds the loaded list |
| AdminCatalog.ProductsPage.ToggleProductStatus | src/pages/admin/Products.tsx:76-94 | a store error leaves the list; otherwise the list becomes the toggled list |
| AdminCatalog.ProductsPage.HandleDeleteProduct | src/pages/admin/Products.tsx:58-74 | without confirmation or on a store error the list stays; otherwise the product leaves it |
| AdminCatalog.FormFor | src/pages/admin/Products.tsx:326-348 | for a product: its title, description or `''`, category, unit, the given price and inventory texts, and its images or `['']` when it has none; for no product: every field empty and one empty image entry |
| AdminCatalog.SavedImages | src/pages/admin/Products.tsx:365 | exactly the non-blank images are saved |
| AdminCatalog.FilledImagesSavedUnchanged | src/pages/admin/Products.tsx:365 | a list without blank entries is saved as it is, in order |
| AdminCatalog.ProductData | src/pages/admin/Products.tsx:355-367 | the record is published, its slug is the admin slug of the title and well formed, an empty description is null, and exactly the non-blank images are kept |
| AdminCatalog.ProductModal.constructor | src/pages/admin/Products.tsx:315-348 | the form of the product being edited, with at least one image input |
| AdminCatalog.ProductModal.EditImage | src/pages/admin/Products.tsx:480-484 | only the image at the index changes |
| AdminCatalog.ProductModal.RemoveImage | src/pages/admin/Products.tsx:487-497 | exactly the image at the index is removed, and the list is never left empty |
| AdminCatalog.ProductModal.AddImage | src/pages/admin/Products.tsx:501-503 | one empty image is appended |
| AdminOrders.WithStatus | src/pages/admin/Orders.tsx:58-62 | the orders with the id get the status, the others are unchanged, with the length kept |
| AdminOrders.WithStatusChangesOnlyStatus | src/pages/admin/Orders.tsx:58-62 | every column other than the status is unchanged, and every order with the id has the new status |
| AdminOrders.LaterStatusWins | src/pages/admin/Orders.tsx:58-62 | two updates of one order are one update to the later status |
| AdminOrders.FilteredOrders | src/pages/admin/Orders.tsx:115-117 | exactly the orders that pass the status filter are shown |
| AdminOrders.PassesFilter | src/pages/admin/Orders.tsx:115-117 | an empty filter passes every order; any other filter passes an order exactly when it reads back as that order's status |
| AdminOrders.EmptyFilterShowsAll | src/pages/admin/Orders.tsx:115-117 | an empty filter shows the whole list, in order |
| AdminOrders.FilterByStatusName | src/pages/admin/Orders.tsx:115-117 | filtering by a status's name shows exactly the orders with that status |
| AdminOrders.UnknownFilterShowsNothing | src/pages/admin/Orders.tsx:115-117 | a filter that names no status shows nothing |
| AdminOrders.OrdersPage.constructor | src/pages/admin/Orders.tsx:17-20 | the loaded list, no order open, no filter |
| AdminOrders.OrdersPage.UpdateOrderStatus | src/pages/admin/Orders.tsx:49-71 | on a store error nothing changes; otherwise the list gets the status, and the open order follows only when its id matches |

## Left out

- Database, authentication and payment-provider calls are not executed. A write or update is
  reduced to whether it fails, and the provider's reply or the service's answer is a
  parameter. Row fetching (`fetchProducts`, `fetchOrders`, `fetchProduct`) is not modelled.
- SHA-256, base64, `JSON.stringify` and `JSON.parse` are function parameters. Collision
  resistance is not assumed; `Gateway.ChecksumInjective` relates headers to digests only.
- `decode` returns `None` for a body that does not parse, or that has no `data` or no
  `merchantTransactionId`. The source throws inside its `try` there, and the handler
  answers the same 500. The other notification fields are optional, and a missing one is
  left out of the write, as an `undefined` property is. A JSON `null` in those fields is
  treated like a missing field, where the source would write `null` into the column.
- `Date.now()`, `new Date().toISOString()` and `process.env` are parameters (`millis`, `now`,
  `Env`).
- `Helpers.CalculateTax`: computes `Math.round(s * 0.05)` exactly on integers, as `(s + 10) / 20`.
  It does not model floating-point error, and prices are integers throughout.
- `parseFloat` and `parseInt` on the admin form are not modelled: `AdminCatalog.ProductData`
  takes the parsed price and inventory as parameters.
- Lengths count Unicode code points, where JavaScript counts UTF-16 code units.
  Lower-casing is ASCII only; `toLowerCase` on other letters is not modelled.
- `Helpers.CalculateShipping`: zone names that are `Object.prototype` keys (such as
  `constructor`) are treated as unknown zones.
- `Helpers.GenerateSlug`: the four literal examples of `src/tests/utils/helpers.test.tsx:35-38`
  are not proved as literals. With a string literal, the verifier unrolls every stage of the
  pipeline character by character and exceeds its resource limit. The first example is an
  instance of `Helpers.GenerateSlugJoinsCasedWords`. The other three need leading and
  trailing blanks, a dropped `!` or a dropped `&` in the lemma's pattern, which it does not
  cover.
- `debounce`, the sidebar `setTimeout` in `addItem`, the simulated delays in Checkout and
  Contact, and the 2-second delayed `clearCart` for PhonePe are timers. They are not
  modelled; `HandleSubmitOrder` clears the cart at once for both payment methods.
- localStorage persistence of the cart is not modelled; the `Cart` constructor starts
  empty.
- Rendering, routing and navigation are not modelled, including the checkout redirect on an
  empty cart (`src/pages/Checkout.tsx:55-58`). Loading flags are also left out.
- Setting a message to `undefined` is modelled as removing the key. The page's message maps
  are keyed by a field datatype; Checkout maps its string keys through
  `CheckoutPage.FieldOfKey`, and an unknown key clears nothing.
- The `catch` in Checkout's `handleSubmitOrder` is not modelled, because nothing in its `try`
  can throw.
- Default arguments are not modelled as such: `addItem`'s `quantity = 1`
  (`src/hooks/useCart.ts:32`) and `calculateShipping`'s `zone = 'local'`
  (`src/utils/helpers.ts:33`) are always passed explicitly. A caller that omits them
  corresponds to passing `1` and `"local"`.
- `CheckoutPage.WithField`: a top-level key other than the four form fields leaves the form
  unchanged, and so does an unknown `shippingAddress.` key for the address. The source
  would add a new property under that name. The page only passes known keys.
- `AccountPage.Account.HandleInputChange` requires one of the two input fields, since the
  source's type admits only those. `AdminCatalog.ProductModal.RemoveImage` requires more
  than one image, because the button is rendered only then.
