# Payment controller model

A Dafny model of the decision logic in the property-rental server's payment
controller (`server/src/controllers/paymentController.js`). The controller
handles several requests:

- **createPayment** (store a payment): routes apartment bookings to another
  handler and collects every missing field. It then checks the payment method
  against a whitelist and checks that method's details. For gateway (Razorpay)
  payments it verifies the HMAC signature. Finally it builds the record that
  goes to the payment store.
- **verifyRazorpayPayment**: runs the hard checks (parameters present,
  signature matches, a fetched payment authorized or captured), and the soft
  ones that never fail the request (a payment fetch that throws, the order
  amount comparison).
- **createRazorpayOrder**: builds the gateway order options, meaning the amount
  in paise, the currency, the receipt string and the notes.
- **generateInvoice**: attaches a payment summary to the payment's row.
- **getAllUserPaymentsController**: merges a user's property and apartment
  payments and sorts the list newest first.
- **checkPayment**, **getUserPaymentHistory** and **getAllPaymentsController**:
  map a service result to an HTTP status.

Request bodies, query rows and service results are JavaScript values
(`JsValue.Value`), with JavaScript truthiness, `||`, property access and
string conversion written out. Some parts are parameters rather than model
code:

- collaborators: the HMAC function, the gateway's answers, query and
  service results, and the clock;
- the secret key, which is an `Option`: a missing key makes `createHmac`
  throw.

A collaborator that can throw is an `Attempt` (`Returned(v)` or `Threw`).

The model follows the code's shape:

- The handlers that build error lists by successive `push` are methods.
  `PaymentCreation.CreatePayment` and `PaymentVerification.VerifyRazorpayPayment`
  are proved equal to rule-by-rule specification functions, and the
  properties are lemmas about those functions.
- The pure expressions (options, details record, invoice spreads, status
  mappings) are functions.
- The in-place sort is an insertion sort on an array.

Modules:

| file | module | contents |
|---|---|---|
| strings.dfy | `Strings` | decimal rendering, separator joins, injectivity |
| js_value.dfy | `JsValue` | JavaScript values and coercions, `Option`, `Attempt` |
| validation.dfy | `Validation` | the "collect every missing field" discipline |
| signature.dfy | `Signature` | the order-id, payment-id HMAC check |
| create_payment.dfy | `PaymentCreation` | createPayment |
| verify_payment.dfy | `PaymentVerification` | verifyRazorpayPayment |
| razorpay_order.dfy | `OrderCreation` | createRazorpayOrder |
| invoice.dfy | `Invoice` | generateInvoice |
| listing.dfy | `PaymentListing` | the list endpoints and the combined sorted list |

## Model

| member | source | states |
|---|---|---|
| JsValue.Or | server/src/controllers/paymentController.js:337-344 | `a \|\| b` is `a` when `a` is truthy and `b` otherwise |
| Validation.MissingFields | server/src/controllers/paymentController.js:218-223 | the reported messages never outnumber the checked fields |
| Validation.PushIfMissing | server/src/controllers/paymentController.js:218 | a push appends "<name> is required" exactly when the value is falsy, and changes nothing otherwise |
| Validation.MissingFieldsPush | server/src/controllers/paymentController.js:218-223 | checking one more field appends at most that field's message to the list so far |
| Validation.MissingFieldsMember | server/src/controllers/paymentController.js:218-223 | a field's message is in the list if and only if the field is falsy |
| Validation.MissingFieldsOnlyNames | server/src/controllers/paymentController.js:218-223 | every message in the list names a checked field that is falsy |
| Validation.MissingFieldsEmpty | server/src/controllers/paymentController.js:238 | the list is empty if and only if every checked field is truthy |
| Validation.MissingFieldsOrdered | server/src/controllers/paymentController.js:218-223 | the messages keep the order in which the fields are checked |
| Validation.MissingFieldsAll | server/src/controllers/paymentController.js:218-223 | when every field is falsy, every message is reported, in order |
| Validation.MissingFieldsAppend | server/src/controllers/paymentController.js:218-223 | checking two runs of fields reports the first run's messages, then the second's |
| Validation.AllRequired | server/src/controllers/paymentController.js:218-223 | the full message list has one "<name> is required" per field, position by position |
| Validation.RequiredInjective | server/src/controllers/paymentController.js:218-223 | distinct fields have distinct messages |
| Signature.CheckSignature | server/src/controllers/paymentController.js:300-328 | a missing secret is a signature error; the check passes if and only if the provided signature is the string Hmac(secret, order_id + "\|" + payment_id) |
| Signature.SignedPayload | server/src/controllers/paymentController.js:305 | the signed message is the order id's string form, a '\|', then the payment id's string form |
| Signature.PayloadIsJoin | server/src/controllers/paymentController.js:305 | the signed message is the '\|'-join of the two ids |
| Signature.PayloadDeterminesIds | server/src/controllers/paymentController.js:305 | for ids without '\|', equal signed messages mean equal string forms of both ids; whether two messages get distinct digests is up to the HMAC |
| Signature.NonStringSignatureRejected | server/src/controllers/paymentController.js:315 | a signature that is not a string never matches |
| PaymentCreation.CreatePayment | server/src/controllers/paymentController.js:216-383 | the handler, step by step, produces exactly the outcome of the rule-by-rule specification |
| PaymentCreation.CollectTopLevelErrors | server/src/controllers/paymentController.js:216-223 | the six pushes build exactly the missing-field list for user_id, property_id, amount_paid, payment_method, payment_details and status |
| PaymentCreation.CollectCardErrors | server/src/controllers/paymentController.js:259-266 | the four pushes build exactly the missing-field list for the card fields |
| PaymentCreation.CollectGatewayErrors | server/src/controllers/paymentController.js:283-289 | the three pushes build exactly the missing-field list for the gateway fields |
| PaymentCreation.IsApartmentBooking | server/src/controllers/paymentController.js:226 | an apartment booking has both `is_apartment` and `unit_id` in its body |
| PaymentCreation.FoundPrice | server/src/controllers/paymentController.js:357 | a price is found if and only if the query succeeded with a first row whose price is neither NULL nor 0, and it is that price |
| PaymentCreation.StandardizedMethod | server/src/controllers/paymentController.js:332-333 | "card" becomes "credit_card", every other method is kept, so "card" is never stored |
| PaymentCreation.SanitizedDetails | server/src/controllers/paymentController.js:336-345 | the details record has exactly the eight keys, each null or truthy |
| PaymentCreation.StoredTotalPrice | server/src/controllers/paymentController.js:348-375 | the stored total is null or truthy; a truthy given total is kept; a non-null total replacing a falsy one is the first row's price of a deposit's successful lookup |
| PaymentCreation.NewPayment | server/src/controllers/paymentController.js:371-382 | the record copies the request's ids, amount and status, stamps `now`, never holds "card" as method, has the eight detail keys, and stores total and invoice number as null or truthy |
| PaymentCreation.CreatePaymentSpec | server/src/controllers/paymentController.js:216-383 | delegated if and only if an apartment booking; every rejection is a 400, and one with an error list is a field-validation failure; whatever the method, a stored payment's record is the same `NewPayment` record |
| PaymentCreation.FinalTotalPrice | server/src/controllers/paymentController.js:348-375 | the reassigned total equals the back-fill rule stated by `StoredTotalPrice` |
| PaymentCreation.ResponseStatus | server/src/controllers/paymentController.js:384-395 | a rejection keeps its status; a stored payment answers 200 if and only if the store succeeded, 400 if and only if it reported failure, and 500 if and only if it threw |
| PaymentCreation.DelegatesExactlyApartmentBookings | server/src/controllers/paymentController.js:226-235 | a request is delegated if and only if `is_apartment` and `unit_id` are both truthy, whatever else is missing |
| PaymentCreation.MissingTopLevelFieldsReported | server/src/controllers/paymentController.js:216-245 | with any top-level field falsy: one 400 "Validation failed" that lists exactly the falsy fields, in the fixed order, with no further checks |
| PaymentCreation.EmptyRequestReportsAllSix | server/src/controllers/paymentController.js:216-245 | with all six fields falsy, the six messages come out verbatim, in order |
| PaymentCreation.TopLevelMessages | server/src/controllers/paymentController.js:218-223 | the six top-level messages, spelled out in check order |
| PaymentCreation.UnknownMethodRejected | server/src/controllers/paymentController.js:248-255 | a method outside credit_card, card, upi and razorpay gets one 400 with no detail errors |
| PaymentCreation.CardDetailsChecked | server/src/controllers/paymentController.js:258-274 | card and credit_card are stored if and only if all four card fields are truthy; otherwise a 400 lists exactly the falsy ones, in order |
| PaymentCreation.CardOutcome | server/src/controllers/paymentController.js:258-274 | once the top-level fields pass, a card payment is rejected with its card errors or stored |
| PaymentCreation.UpiDetailsChecked | server/src/controllers/paymentController.js:275-281 | upi is stored if and only if `upi_id` is truthy; otherwise one fixed 400 |
| PaymentCreation.GatewayDetailsChecked | server/src/controllers/paymentController.js:282-298 | razorpay with a falsy gateway field: a 400 that lists exactly the falsy fields, in order, before any signature check |
| PaymentCreation.GatewaySignatureDecides | server/src/controllers/paymentController.js:300-329 | razorpay with all three fields is stored if and only if the signature equals Hmac(secret, order_id + "\|" + payment_id); a missing secret or a mismatch each give a fixed 400 |
| PaymentCreation.PersistedOnlyWhenValid | server/src/controllers/paymentController.js:216-329 | a stored payment passed every check: not delegated, all top-level fields present, a whitelisted method, and that method's details (and signature) valid |
| PaymentCreation.StoredRecordShape | server/src/controllers/paymentController.js:331-383 | the stored record has the canonical method, the eight-key details record, the back-filled total, a boolean deposit flag, a null invoice number when none was given, and the request's other fields |
| PaymentCreation.SanitizedDetailsShape | server/src/controllers/paymentController.js:336-345 | the details record has exactly the eight keys, each holding the input value or null when that is falsy, and never undefined |
| PaymentCreation.SanitizedDetailsIdempotent | server/src/controllers/paymentController.js:336-345 | sanitizing a sanitized record changes nothing |
| PaymentCreation.StandardizedMethodIdempotent | server/src/controllers/paymentController.js:332-333 | normalising the method twice is normalising it once, and "card" never survives |
| PaymentCreation.StoredTotalPriceRules | server/src/controllers/paymentController.js:348-375 | the total is the given one when truthy, the looked-up truthy price for a deposit without one, and null in every other case: no deposit, a failed lookup, no row, a NULL price or a price of 0 |
| PaymentCreation.LookupOnlyForDepositsWithoutTotal | server/src/controllers/paymentController.js:349 | the price lookup cannot change the outcome unless the request is a deposit without a total |
| PaymentVerification.VerifyRazorpayPayment | server/src/controllers/paymentController.js:88-186 | the handler, step by step, produces exactly the specified outcome, which does not depend on the order fetch; it logs the amount warning exactly under the stated condition |
| PaymentVerification.CollectVerifyErrors | server/src/controllers/paymentController.js:92-99 | the three pushes build exactly the missing-parameter list for order id, payment id and signature |
| PaymentVerification.Settled | server/src/controllers/paymentController.js:147-150 | a settled status is a non-empty string, authorized or captured |
| PaymentVerification.VerifySpec | server/src/controllers/paymentController.js:92-186 | every failure is a 400, one with an error list is the missing-parameter failure, and a success echoes the request's payment id and order id |
| PaymentVerification.AmountMismatchWarned | server/src/controllers/paymentController.js:158-170 | the warning needs both fetches to have succeeded and their amounts to differ |
| PaymentVerification.MissingParamsReported | server/src/controllers/paymentController.js:92-106 | with any parameter falsy: one 400 that lists exactly the falsy parameters, in order |
| PaymentVerification.VerifiedExactly | server/src/controllers/paymentController.js:92-186 | success if and only if all parameters are present, the signature matches, and the payment fetch failed or reported authorized or captured |
| PaymentVerification.VerifiedEchoesIds | server/src/controllers/paymentController.js:180-186 | a success returns the request's payment id and order id |
| PaymentVerification.SignatureFailsBeforeFetch | server/src/controllers/paymentController.js:109-139 | a failed signature check gives the same 400 whatever the gateway would answer |
| PaymentVerification.UnsettledStatusNamed | server/src/controllers/paymentController.js:147-155 | a fetched status other than authorized or captured fails, with a message ending in that status |
| PaymentVerification.FailedFetchIsNotFatal | server/src/controllers/paymentController.js:171-177 | a payment fetch that threw gives the same outcome as a captured payment |
| PaymentVerification.MismatchOnlyOnSuccess | server/src/controllers/paymentController.js:158-170 | an amount-mismatch warning only ever accompanies a successful verification |
| PaymentVerification.StoredGatewayPaymentVerifies | server/src/controllers/paymentController.js:109-186 | a gateway payment that createPayment stored passes verification with the same details, unless the gateway reports it unsettled |
| OrderCreation.ToNumber | server/src/controllers/paymentController.js:54 | numbers convert to themselves; undefined and objects convert to NaN |
| OrderCreation.IsApartmentOrder | server/src/controllers/paymentController.js:32 | an apartment order has both `is_apartment` and `unit_id` in its body |
| OrderCreation.PaymentType | server/src/controllers/paymentController.js:51 | the type is deposit or full, and deposit if and only if `is_deposit` is truthy |
| OrderCreation.MinorUnits | server/src/controllers/paymentController.js:54 | the amount in paise exists exactly when the amount is numeric, and is 100 times it |
| OrderCreation.Receipt | server/src/controllers/paymentController.js:56 | the receipt starts with "prop_" and the payment type and ends with the timestamp |
| OrderCreation.OrderNotes | server/src/controllers/paymentController.js:57-61 | the notes hold exactly user_id, property_id and payment_type, as the ids' string forms and the type |
| OrderCreation.OrderSpec | server/src/controllers/paymentController.js:32-62 | delegated if and only if an apartment order; a rejection is the fixed 400; gateway options carry the given, truthy currency and a payment type of deposit or full |
| OrderCreation.OrderReply | server/src/controllers/paymentController.js:66-82 | a created order answers 200 with its id, amount and currency; a gateway error answers 500 |
| OrderCreation.OrderRouting | server/src/controllers/paymentController.js:32-48 | delegated if and only if `is_apartment` and `unit_id` are both truthy; otherwise rejected with the fixed 400 if and only if one of amount, currency, user_id, property_id is falsy |
| OrderCreation.OrderOptionsShape | server/src/controllers/paymentController.js:51-62 | the options carry the payment type given by `is_deposit`, the given currency (the "INR" default is unreachable), the amount in paise, the receipt `prop_{type}_{user}_{property}_{now}`, and notes with the same ids and type |
| OrderCreation.DigitStringAmount | server/src/controllers/paymentController.js:54 | an amount sent as a digit string gives the same paise as the number |
| OrderCreation.ReceiptIsJoin | server/src/controllers/paymentController.js:56 | the receipt is the '_'-join of its five parts |
| OrderCreation.ReceiptDeterminesOrder | server/src/controllers/paymentController.js:51-56 | for numeric ids, the receipt determines the payment type, both ids and the timestamp |
| Invoice.PercentagePaid | server/src/controllers/paymentController.js:557-560 | the percentage is 100·paid/price rounded half up: within one half of the exact value |
| Invoice.PercentageOf | server/src/controllers/paymentController.js:557-560 | 0 without a positive price; between 0 and 100 when the amount paid is between 0 and the price |
| Invoice.PercentageExact | server/src/controllers/paymentController.js:557-560 | an exact whole percentage is reported unchanged |
| Invoice.PercentageBounds | server/src/controllers/paymentController.js:557-560 | a payment between 0 and the price gives a percentage between 0 and 100: 0 for nothing paid, 100 for the full price |
| Invoice.PercentageMonotone | server/src/controllers/paymentController.js:557-560 | paying more never lowers the percentage |
| Invoice.MergeOverrides | server/src/controllers/paymentController.js:550-552 | the spread `{...a, ...b}` takes `b`'s value for `b`'s keys and keeps `a`'s for the rest, with no other keys |
| Invoice.InlineSummary | server/src/controllers/paymentController.js:552-561 | exactly the five summary keys, pending = price - paid with NULL as 0, and the rounded percentage |
| Invoice.ApartmentSummary | server/src/controllers/paymentController.js:569-583 | the five summary keys plus `unit_details` with the five unit columns; pending 0, percentage 100, and total paid equal to the deposit |
| Invoice.InvoiceData | server/src/controllers/paymentController.js:538-584 | the invoice keeps every column of the payment's row; an apartment booking gains exactly the summary keys and `unit_details` |
| Invoice.PropertyInlineSummary | server/src/controllers/paymentController.js:550-562 | without a service summary, a property payment gets the full price, the deposit `total_price \|\| 0`, the amount paid, pending = price - paid, and the rounded percentage (0 without a positive price); its other columns are kept |
| Invoice.ServiceSummaryOverrides | server/src/controllers/paymentController.js:550-552 | whatever else the service result holds, a `payment_summary` object replaces the row's keys that it names and leaves every other column unchanged |
| Invoice.ApartmentAlwaysPaidInFull | server/src/controllers/paymentController.js:567-584 | an apartment booking always has pending 0 and percentage 100, and its `unit_details` copies the five unit columns |
| Invoice.QuarterPaidExample | server/src/controllers/paymentController.js:553-560 | 250 paid of 1000 gives 750 pending and 25 percent |
| Invoice.PricelessPropertySummary | server/src/controllers/paymentController.js:552-561 | a property row without a price gets full price 0, pending minus the amount paid, and percentage 0 |
| Invoice.InvoiceOutcomes | server/src/controllers/paymentController.js:465-598 | 400 if and only if the id is falsy; 404 when neither lookup finds the payment; 500 when the first lookup throws, when the apartment lookup throws after an empty first lookup, or when the service throws for a property payment, and only then; the apartment lookup is irrelevant once the first lookup found the payment |
| Invoice.InvoiceSpec | server/src/controllers/paymentController.js:465-598 | every error is a 400, 404 or 500; a 404 means both lookups returned no rows; an invoice needs a truthy id and a successful first lookup |
| Invoice.InvoiceFromFirstRow | server/src/controllers/paymentController.js:530-589 | a found payment's invoice is its first row plus the summary: the spread for property payments, the five summary keys and `unit_details` for apartments |
| PaymentListing.CheckPaymentStatus | server/src/controllers/paymentController.js:399-417 | 400 if and only if an id is missing, 200 if and only if the service returned truthy data, 404 if and only if it returned falsy data, 500 if and only if it threw |
| PaymentListing.UserPaymentHistory | server/src/controllers/paymentController.js:422-463 | 400 without a user id; 500 if and only if the service threw; the normalised empty list if and only if a success had no payments; otherwise the result is forwarded with 200 exactly on success and 400 exactly on failure |
| PaymentListing.HistoryStatusRules | server/src/controllers/paymentController.js:444-453 | a successful result always answers 200, and a failed one 400, even with no payments |
| PaymentListing.AllPaymentsStatus | server/src/controllers/paymentController.js:601-612 | 200 if and only if the result's `success` is truthy; 500 if and only if the service threw or returned null or undefined; otherwise 400 |
| PaymentListing.SortedByDateDesc | server/src/controllers/paymentController.js:661-663 | a list sorted newest first has every payment at least as recent as the next |
| PaymentListing.SortByDateDesc | server/src/controllers/paymentController.js:661-663 | the array ends sorted newest first and holds the same payments as before |
| PaymentListing.InsertLast | server/src/controllers/paymentController.js:661-663 | one insertion step extends the sorted prefix by one, keeps the same payments, and leaves the rest of the array alone |
| PaymentListing.CombinedPayments | server/src/controllers/paymentController.js:658-663 | the combined list is a permutation of the property rows followed by the apartment rows, in non-increasing date order |
| PaymentListing.AllUserPayments | server/src/controllers/paymentController.js:616-681 | 400 without a user id; 500 when either query throws; otherwise every payment of both queries, newest first |
| PaymentListing.SortedHeadIsLatest | server/src/controllers/paymentController.js:660-663 | the first payment in the sorted list is the most recent of all |

## Left out

- The Razorpay SDK (`orders.create`, `orders.fetch`, `payments.fetch`): a network client. Its answers are parameters.
- HMAC-SHA256 and hex encoding: `hmac(key, message)` is an uninterpreted parameter. The two throw branches are one "signature error" outcome, modelled as a missing secret.
- SQL queries, `paymentModel`, and the services `createMyPayment`, `getPyamentData`, `getUserPayments`, `getAllPayments`: their results are parameters.
  - The two invoice lookups are independent inputs.
  - The joins that relate them are not modelled. As written, the first lookup left-joins from `payments`, so it finds every payment the second could find.
- The apartment handlers reached by dynamic `import`: they are not part of this model. Delegation is only the `Delegate` / `DelegateOrder` outcome.
- Logging, `Date.now()` / `new Date()` (passed in as `now`), async/await and concurrency.
  - The amount-mismatch check in verification only logs. It is modelled as the `warned` flag.
- Floating point and NaN: numbers are integers. `Strings.NatToStr` is `String(n)` only below 10^21, where JavaScript switches to exponent form.
- Arrays: request bodies and service values hold no arrays. JavaScript renders `${["order_1"]}` as "order_1" and converts `[5] * 100` to 500; the model has no such value, and an `Obj` in its place renders as "[object Object]" and converts to NaN.
- OrderCreation.MinorUnits: `Math.round(amount * 100)` is exact for integers. Fractional amounts, and strings with signs, decimals, spaces or hex, are read as NaN. JavaScript would convert some of these.
- Invoice.PercentagePaid: exact rounding half up. The code's double-precision `paid / price * 100` can fall just short of a half in rare cases.
- PaymentCreation.FinalTotalPrice: the price column is an integer or NULL. `parseFloat` of a DECIMAL string is not modelled.
- Invoice.InlineSummary: `price - amount_paid` assumes numeric or NULL columns. String columns are not coerced.
- Objects with their own `toString`: `JsValue.ToStr` renders every object as `"[object Object]"`, as the default `toString` does. A body object whose `toString` key is not a function makes `toString()` and template literals throw. The 500 of createRazorpayOrder, the signature-error 400 of verifyRazorpayPayment and the "Error verifying signature" 400 of createPayment are not modelled for that input.
- The first invoice lookup selects `p.*` and no `pr.price`, so the inline summary reads `price` from the payment's own columns. `Invoice.PricelessPropertySummary` states what a row without one gets. The payments table's columns are outside this model.
- Spreading a string (`{..."abc"}`) copies indexed characters in JavaScript. `JsValue.Spread` gives no keys for it.
- PaymentListing.SortByDateDesc: dates are integer keys. The contract does not state the stability the source's sort has (equal dates keep property rows before apartment rows, each in query order), though the insertion sort keeps that order.
- PaymentListing.UserPaymentHistory: the service result is a record with `success` and an optional list. A result that is not an object, or a `payments` field that is not an array, is not modelled.
- The `error.message` fields of 500 responses and the other fields of response bodies not named in the outcomes.
- `client/src/dashboard/pages/ClientSays.jsx`: a React form with no payment logic.
