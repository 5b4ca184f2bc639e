# Marketplace checkout, store activation and review logic — a Dafny model

This project models three pieces of logic of a marketplace backend whose
stores sell through PayPal's multi-seller checkout.

- **Order body** (`order_body.dfy`, module `OrderBody`). A checkout request
  maps each store to its products. The model builds one PayPal purchase unit
  per store. Each unit carries:
  - an amount with its breakdown (item total net of tax, tax total,
    shipping);
  - one item per product;
  - the validated shipping address;
  - the platform's fee instruction.

  The units are wrapped into the create-order request, with intent `CAPTURE`
  and a fixed application context. Money is integer cents. The code's
  `toFixed(2)` is `Money.RoundHalfUp`. Tax is 7% of the unit price, rounded
  to the cent.
- **Store activation** (`activation.dfy`, module `Activation`). This has four
  step checks: profile completeness, at least one product, shipping, and a
  PayPal merchant id. A loop computes their conjunction. The result is the
  five-field update the routine writes back to the store.
- **Old store controller** (`stores_controller.dfy`, module
  `StoresController`). This covers:
  - the average rating, in hundredths;
  - adding a review: it gets the next id, goes to the front of the list, and
    the average is recomputed;
  - editing a review by id, in place;
  - the query filter of the filtered store search.

  A store profile's review list and average are the fields of class
  `StoreProfile`, which the two review handlers update.

Shared helpers: `wrappers.dfy` (`Option`, `Result`), `money.dfy` (rounding,
tax), `decimal.dfy` (decimal rendering of integers, as in template literals
and `toString()`, and its inverse).

The model does not run any I/O. It takes these collaborators as parameters:
- `getShippingCostForSingleStore` is `Collaborators.shippingCostOf`;
- `getStorePlatformFeeRate` is `Collaborators.feeRateOf`, a fraction
  `num / den`;
- the platform's PayPal merchant id and e-mail are
  `Collaborators.platform`;
- `hasValidProperty` is folded into `AddressInput`: a field that fails the
  check is `None`;
- the product lookup of the activation routine is a `ProductLookup`;
- the user lookup of `addReview` is an `Option<UserNames>`;
- the database update is the returned `UpdateCommand`;
- the current time is a `now` string.

Where this description and the code differ, the model follows the code:
- The doc comment of `getCreateOrderBody` (line 17) shows the order object
  as `storeId -> array of products`. The code reads
  `orderElement.products` and `orderElement.store`, so the model's
  `OrderElement` has both.
- The total is computed as gross item sum + shipping. The item total is
  gross − tax. These are exact in cents, so total = item_total + tax_total +
  shipping holds exactly.
- Quantities are not checked in the code. The model takes any integer.

## Model

| member | source | states |
|---|---|---|
| `Money.RoundHalfUp` | src/payment-module/models/create-order-body.js:123 | the result r is n / d rounded to the nearest integer, halves upward: 2n − d < 2rd ≤ 2n + d |
| `Money.RoundHalfUpUnique` | src/payment-module/models/create-order-body.js:218 | those bounds determine the rounded value uniquely |
| `Money.RoundHalfUpBetween` | src/payment-module/models/create-order-body.js:218 | a quotient between two integers rounds to a value between them |
| `Money.ProductTax` | src/payment-module/models/create-order-body.js:120-124 | the per-unit tax is the unit price × 0.07 rounded to the cent (within half a cent, halves up) |
| `Money.ProductTaxBounds` | src/payment-module/models/create-order-body.js:99-100 | for a non-negative price, 0 ≤ tax ≤ price, so the net unit amount is never negative |
| `Money.UnitTaxDiffersFromExtendedTax` | src/payment-module/models/create-order-body.js:185 | taxing the unit price and multiplying by the quantity differs from taxing the extended price (ten units at 0.05: 0 tax, against 0.04) |
| `Decimal.NatToString` | src/payment-module/models/create-order-body.js:66 | the decimal numeral of an index is non-empty, all digits, with no leading zero |
| `Decimal.ParseNatToString` | src/controller/controller_stores_old.js:1297 | `parseInt` of the id string `addReview` wrote gives back the id |
| `Decimal.NatToStringInjective` | src/controller/controller_stores_old.js:1226 | distinct ids have distinct id strings |
| `OrderBody.ItemArray` | src/payment-module/models/create-order-body.js:91-118 | a non-array product list fails; otherwise one item per product, in order: name, description, unit_amount = price − tax(price), tax = tax(price), quantity = amount |
| `OrderBody.CreateItemArray` | src/payment-module/models/create-order-body.js:91-118 | the push loop builds exactly `ItemArray` |
| `OrderBody.ItemSums` | src/payment-module/models/create-order-body.js:98-115 | over the items, Σ unit_amount × quantity = gross − tax total and Σ tax × quantity = tax total |
| `OrderBody.BreakdownOf` | src/payment-module/models/create-order-body.js:175-201 | non-array fails; otherwise tax total = Σ tax(price) × amount, total = Σ price × amount + shipping, item total = gross − tax total, and item total + tax total + shipping = total |
| `OrderBody.CalculateBreakdown` | src/payment-module/models/create-order-body.js:175-201 | the accumulating loop and the later reassignments compute exactly `BreakdownOf` |
| `OrderBody.CreateAmount` | src/payment-module/models/create-order-body.js:129-168 | non-array fails; otherwise value = item_total + tax_total + shipping exactly, all in the given currency, with the breakdown's three values |
| `OrderBody.CreatePaymentInstruction` | src/payment-module/models/create-order-body.js:209-238 | a negative total fails whatever the rate lookup says; otherwise mode `INSTANT`, exactly one platform fee paid to the platform account, fee = total × rate rounded to the cent, and 0 ≤ fee ≤ total when 0 ≤ rate ≤ 1 |
| `OrderBody.FeeWithinTotal` | src/payment-module/models/create-order-body.js:215-218 | with 0 ≤ rate ≤ 1 and a non-negative total, the rounded fee lies in [0, total] |
| `OrderBody.CreateShippingAddress` | src/payment-module/models/create-order-body.js:244-278 | the first missing field is reported, in the order firstName, lastName, addressLine1, city, postcode; on success full_name = firstName + " " + lastName, postal_code = postcode, admin_area_2 = city, country `DE` |
| `OrderBody.CreatePurchaseUnit` | src/payment-module/models/create-order-body.js:51-80 | the loop body builds one store's unit exactly as `PurchaseUnitAt` |
| `OrderBody.PurchaseUnitsUpToShape` | src/payment-module/models/create-order-body.js:46-84 | the first n stores give n units, in key order, exactly when none fails; otherwise the error is that of the first failing store |
| `OrderBody.CreatePurchaseUnitArray` | src/payment-module/models/create-order-body.js:46-84 | one unit per store key, in key order, each equal to that store's unit; a failure carries the first failing store's error |
| `OrderBody.GetCreateOrderBody` | src/payment-module/models/create-order-body.js:21-38 | the body is intent `CAPTURE`, the fixed application context and the purchase units, and it fails exactly when the units fail |
| `OrderBody.PurchaseUnitFacts` | src/payment-module/models/create-order-body.js:56-78 | each built unit has reference id key~index, the store's merchant id as payee, amount = item_total + tax_total + shipping ≥ 0, items whose sums match the breakdown, and a fee within the total for a rate in [0, 1] |
| `OrderBody.ReferenceIdsDistinct` | src/payment-module/models/create-order-body.js:66 | the reference ids of one order's units are pairwise distinct |
| `OrderBody.SingleStoreExample` | src/payment-module/models/create-order-body.js:181-218 | two units at 10.00 with 5.00 shipping and a 5% fee give 0.70 tax per unit, 18.60 net items, 1.40 tax, 25.00 total and a 1.25 fee |
| `OrderBodyAsWritten.PurchaseUnitArrayAsWritten` | src/payment-module/models/create-order-body.js:46-63 | as written, every order with at least one store fails; only the empty order gives a (empty) result |
| `OrderBodyAsWritten.AsWrittenRejectsEveryAcceptedOrder` | src/payment-module/models/create-order-body.js:59-63 | every non-empty order the corrected model accepts fails as written with the ReferenceError |
| `OrderBodyAsWritten.OneStoreOrderShowsReferenceError` | src/payment-module/models/create-order-body.js:62 | a concrete valid one-store order that the corrected model accepts and the code as written rejects |
| `Activation.StepNamesDistinct` | src/store-module/services/activation.service.js:10-15 | the frozen step enumeration gives distinct steps distinct names |
| `Activation.Utf16Length` | src/store-module/services/activation.service.js:121-129 | a string's `.length` counts UTF-16 code units: between its character count and twice it, and equal to the character count iff no character lies outside the Basic Multilingual Plane |
| `Activation.EmojiTitleLength` | src/store-module/services/activation.service.js:121-122 | a title of five emoji has `.length` 10 |
| `Activation.CheckProfileComplete` | src/store-module/services/activation.service.js:119-150 | true iff 10 ≤ title length ≤ 100, 100 ≤ description length ≤ 1000 (both in UTF-16 code units) and 1 ≤ tag count ≤ 15 |
| `Activation.ProfileCompleteIgnoresImages` | src/store-module/services/activation.service.js:141-147 | the images do not affect profile completeness |
| `Activation.CheckMinOneProduct` | src/store-module/services/activation.service.js:152-163 | true iff the product lookup by the store's id returns a record |
| `Activation.CheckShippingRegistered` | src/store-module/services/activation.service.js:166-168 | every store passes the shipping step |
| `Activation.CheckPaymentMethodRegistered` | src/store-module/services/activation.service.js:171-179 | true iff the PayPal merchant id is present and non-empty (truthy) |
| `Activation.GetGeneralActivationStatusValue` | src/store-module/services/activation.service.js:103-115 | true iff the array is non-empty and every element is true; the empty array gives false |
| `Activation.UpdateFieldsShape` | src/store-module/services/activation.service.js:73-83 | the update has exactly five keys: each step's path holding that step's value, and `activation`, true iff every step is |
| `Activation.FailingStepDeactivates` | src/store-module/services/activation.service.js:64-71 | setting any one step to false makes `activation` false |
| `Activation.StoreActivationRoutine` | src/store-module/services/activation.service.js:23-95 | no store fails with no update; otherwise the update targets the store's id, holds the four step values, shipping always true, and `activation` = profile ∧ product ∧ payment |
| `StoresController.Average` | src/controller/controller_stores_old.js:1500-1510 | 0 for no reviews; otherwise the mean rating rounded to hundredths (within half a hundredth, halves up) |
| `StoresController.CalculateAverage` | src/controller/controller_stores_old.js:1500-1510 | the summing loop computes exactly `Average` |
| `StoresController.RatingSumBounds` | src/controller/controller_stores_old.js:1503-1505 | ratings within [lo, hi] sum to within [n·lo, n·hi] |
| `StoresController.AverageWithinRatings` | src/controller/controller_stores_old.js:1506 | the average of a non-empty list lies between its lowest and highest rating |
| `StoresController.PrependKeepsIdsDescending` | src/controller/controller_stores_old.js:1290-1297 | prepending a review with the next id (0, or head id + 1) keeps ids descending, and no other review has the new id |
| `StoresController.FindReviewIndexFrom` | src/controller/controller_stores_old.js:1225-1227 | `findIndex`: the first position whose stored id string equals the requested one, or none when no review has it |
| `StoresController.IdsDescendingMatchIsUnique` | src/controller/controller_stores_old.js:1225-1234 | with descending ids, at most one review matches a requested id |
| `StoresController.StoreProfile.AddReview` | src/controller/controller_stores_old.js:1289-1345 | unknown user: nothing changes; otherwise the new review has the next id, is prepended, earlier reviews keep their order, and the average is recomputed over the whole list; descending ids stay descending |
| `StoresController.StoreProfile.EditReview` | src/controller/controller_stores_old.js:1225-1240 | unknown id: error and nothing changes; otherwise only text, rating and datetimeAdjusted of the first matching review change, and the average is recomputed |
| `StoresController.LengthIsZero` | src/controller/controller_stores_old.js:101 | `.length === 0` holds exactly for the empty array, the empty string and an object whose `length` member is the number 0; numbers and booleans have no `length`; for null reading `.length` throws |
| `StoresController.BuildQueryFilter` | src/controller/controller_stores_old.js:98-113 | an empty `tags` is refused with status 400; a non-empty one becomes `$all` on `profileData.tags`; every other key, `country` included, adds nothing |

## Findings

| source | as written | input that shows it | evidently intended | confidence | as-written member | corrected member |
|---|---|---|---|---|---|---|
| src/payment-module/models/create-order-body.js:62 | the fee lookup gets `element.product.storeId`, but no variable `element` is declared in `createPurchaseUnitArray`, so evaluating the argument throws a ReferenceError | one store `store1` with one product at 10.00 × 2 and a complete address (`OneStoreOrderShowsReferenceError`) | the fee lookup gets the id of the store being processed | not executed; high (no `element` is declared or imported in the file) | `OrderBodyAsWritten.PurchaseUnitArrayAsWritten` | `OrderBody.CreatePurchaseUnitArray` |

The corrected model does not guess which id was meant. The store id passed
to the fee lookup is the explicit parameter `feeStoreId(key, element)`. It
can be the order key, `orderElement.store` or a product's `storeId`.

## Left out

- Database, HTTP and PayPal transport: the MongoDB reads and updates, the
  PayPal REST client with its access tokens and auth-assertion header,
  geocoding, image resizing, notifications, the createStore transaction and
  all response shaping. The rest of the old controller is of this kind.
- The mail template and the `findOne` wrapper: there is no logic in them to
  model.
- `Money.RoundHalfUp`: IEEE-754 artefacts of `parseFloat` and `toFixed` are
  not reproduced. Exact decimal amounts in cents are rounded half up. For
  the negative amounts the code never rounds in practice, `toFixed` rounds
  half away from zero instead.
- The string forms of money: the values are integer cents. The two-digit
  strings of `toFixed(2)` and the `toString()` of the item amounts are not
  rendered.
- `OrderBody.BreakdownOf`: the shipping cost is taken to be whole cents. A
  shipping cost with more decimals would be rounded twice in the code (once
  inside the total, once alone), and the identity could then miss by a
  cent.
- `OrderBody.CreatePaymentInstruction`: the fee-rate lookup is a total
  function. A rejected lookup is not modelled. That the negative total is
  refused before the lookup is stated as: the error does not depend on the
  lookup.
- The currency code is not checked by the code (a TODO), nor by the model.
- `Object.keys` order: the model takes the key sequence as given. JavaScript
  would list integer-like keys first.
- Activation checks on a store document missing `profileData` or
  `payment.paypal.common`. The code would throw a TypeError there. The
  model assumes the store schema.
- `StoresController.StoreProfile.AddReview`, `EditReview`: the store lookup
  and its "Wrong store id" error are left to the caller, since the object is
  the found store. `avgRating` is stored as a string in the code and kept
  here as hundredths. The temporary `avgRating = data.rating` for a first
  review (line 1294) is overwritten before anything is saved. The review
  record is built by `getReviewModel`, which is not part of this model; it
  is taken to copy the given fields.
- Review ids are the decimal strings `addReview` writes. The model keeps
  their value and compares the decimal rendering with the requested string,
  as `===` does.
- `queryFilter === {}` (line 115) compares with a fresh object, so it is
  always false. Its branch is empty, so it has no effect.
- Timestamps and `console.log`.
