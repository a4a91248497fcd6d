# yam — a Dafny model of its core logic

yam is a small inventory and sales-tracking web application: an Express
backend over PostgreSQL and a React frontend. This project models the parts
of it that carry logic of their own and proves what they promise:

- **the partial-update helper** `prepareUpdateQuery` of the backend, which turns
  the fields a caller wants changed into the `SET` fragment of a parameterised
  `UPDATE` (`"<column>"=$1, "<column>"=$2, …`) and the list of values for the
  placeholders (module `UpdateQuery`, with decimal rendering and `join` in
  `Strings`);
- **the authentication middleware** `authenticateJWT` and `ensureLoggedIn`:
  the first attaches the verified payload of `req.body._token` to the request
  and never fails, the second forwards a 401 error exactly when no user is
  attached (module `AuthMiddleware`, errors in `ExpressErrors`);
- **the dashboard arithmetic**: the "Total Money Made" fold of per-sale profit
  after the business's consignment share and the making cost (`TotalMoney`),
  and the "Recent Sales" table's adjusted amount received (`SalesTable`), over
  the shared sale record (`SaleInfo`);
- **the sale forms**: the edit form's `datetime-local` formatter, loaded and
  submitted values, schema and component state (`SaleUpdateForm`); the new-sale
  form's schema, payload, direct/business dispatch, checkbox reset and state
  (`SaleNewForm`); the failure message both share (`FormErrors`);
- **the products list**'s delete handler, which, once the API reports
  success, filters the product out of the list it captured when it was
  rendered (`ProductsList`).

Pure JavaScript code is modelled as functions; code that updates state (the
request object, React/Formik state) as classes whose methods say what the new
state is. Money is exact `real` arithmetic. All functions work on values, so
the helper's inputs (`dataToUpdate`, `jsToSql`) cannot be modified by it.

Foreign calls are parameters: `jwt.verify` is `verify: string -> Option<Payload>`
(`None` where the library throws), `Number`, `convertToISODate` and
`formatDateForApi` are arrow parameters, `new Date(…)`'s local getters are a
`LocalDateTime` record, and the outcome of `deleteProduct` is a boolean. A
rejected fetch is the value thrown: the array of messages the API layer
throws, or a JavaScript error with its `message`.

Three facts about the code shape the model. The token is read from the
request body (`req.body._token`, backend/middleware/auth.js:20); no request
header is consulted. The only check the middleware file defines is "logged
in": backend/routes/productRoutes.js:5-9 imports an admin check and a
same-user check, but backend/middleware/auth.js defines neither. A
translation-table entry that is the empty string falls back to the key, like
a missing one (`||` at backend/helpers/functions.js:27).

## Model

| member | source | states |
|---|---|---|
| `UpdateQuery.PrepareUpdateQuery` | backend/helpers/functions.js:22-34 | an empty payload fails with ExpressError("No data", 400) and nothing else does; on success there are as many values as keys, and the i-th value is the value stored under the i-th key |
| `UpdateQuery.Keys` | backend/helpers/functions.js:23-24 | one key per payload entry, in key order, and no keys exactly for an empty payload (the case that throws) |
| `UpdateQuery.ColumnName` | backend/helpers/functions.js:27 | the column is the key itself or the table's entry for it, and it is empty only for an empty key |
| `UpdateQuery.Clause` | backend/helpers/functions.js:27 | a clause opens with a quote followed verbatim by the column, and holds a comma only if the column does |
| `UpdateQuery.Clauses` | backend/helpers/functions.js:26-28 | one clause per key, in key order, each quoting the column its key resolves to and comma-free when that column is |
| `UpdateQuery.Values` | backend/helpers/functions.js:32 | one value per key, the i-th value being the one stored under the i-th key |
| `UpdateQuery.SetColumnsReadBack` | backend/helpers/functions.js:26-32 | when no column holds `"` or `,`, the SET fragment splits at ", " into exactly one clause per key, in key order, the i-th reading back as (column of the i-th key, i+1): placeholders run 1..n without gaps and line up with `values` |
| `UpdateQuery.ClauseRoundTrip` | backend/helpers/functions.js:27 | a clause `"<column>"=$<idx+1>` reads back as its column and its 1-based placeholder |
| `UpdateQuery.ColumnFromTable` | backend/helpers/functions.js:27 | a key with a non-empty table entry is written under that column |
| `UpdateQuery.ColumnFallsBackToKey` | backend/helpers/functions.js:27 | a key without a table entry, or with an empty one, is written under the key itself |
| `UpdateQuery.SingleKeyExample` | backend/helpers/functions.js:18-33 | `{firstName: "Jo"}` with `{firstName: "first_name"}` gives `"first_name"=$1` and `["Jo"]`, with no separator |
| `UpdateQuery.FallbackExample` | backend/helpers/functions.js:26-33 | `{a: 1, b: 2}` with an empty table gives `"a"=$1, "b"=$2` and `[1, 2]` |
| `Strings.NatToString` | backend/helpers/functions.js:27 | the decimal form of a placeholder number is a non-empty digit string with no leading zero |
| `Strings.DigitsValueOfNatToString` | backend/helpers/functions.js:27 | reading the decimal form back gives the number again |
| `Strings.Join` | backend/helpers/functions.js:31 | no parts give "", a single part is returned without a separator, and the result starts with the first part |
| `Strings.SplitJoin` | backend/helpers/functions.js:31 | splitting at the separator undoes `join` when no part holds the separator's first character |
| `Strings.JoinAppend` | backend/helpers/functions.js:31 | joining one more part appends the separator and the part |
| `AuthMiddleware.VerifyToken` | backend/middleware/auth.js:20 | a missing token never verifies, and a present token gives exactly what the verifier returns for it |
| `AuthMiddleware.UserAfterAuthenticate` | backend/middleware/auth.js:19-27 | `req.user` ends as the prior user or the verified payload, is the payload whenever verification succeeds, and is never removed |
| `AuthMiddleware.AuthenticateJWT` | backend/middleware/auth.js:18-28 | always calls `next()` with no error; `req.user` becomes exactly the verified payload when verification succeeds and is left as it was when it throws |
| `AuthMiddleware.EnsureLoggedIn` | backend/middleware/auth.js:45-52 | forwards ExpressError("Unauthorized", 401) exactly when no user is attached, and `next()` otherwise |
| `AuthMiddleware.AuthenticateThenEnsureLoggedIn` | backend/middleware/auth.js:18-52 | on a request with no user yet, the two steps reject with 401 exactly when verification of the body token fails |
| `AuthMiddleware.GateRejectsIffVerificationFails` | backend/middleware/auth.js:18-52 | for a request without a user: 401 iff verification fails; otherwise it passes with exactly the verified payload attached |
| `AuthMiddleware.AcceptedTokenLogsIn` | backend/middleware/auth.js:18-24 | a body token the verifier accepts with payload p attaches exactly p and passes `ensureLoggedIn` |
| `AuthMiddleware.BadTokenSameAsNoToken` | backend/middleware/auth.js:19-27 | a token that fails verification leaves the request as a missing token does |
| `AuthMiddleware.AttachedUserStaysLoggedIn` | backend/middleware/auth.js:18-52 | a user already attached is never removed, so the request passes `ensureLoggedIn` |
| `SaleInfo.HasBusinessPercentage` | frontend/src/components/dashboard/TotalMoney.jsx:18 | the truthiness test both dashboard files apply to the percentage: null and 0 are falsy, every other percentage (negative ones too) is truthy |
| `SaleInfo.TotalReceived` | frontend/src/components/dashboard/TotalMoney.jsx:17 | quantity times price, never negative for a non-negative quantity and price |
| `TotalMoney.ConsignmentShare` | frontend/src/components/dashboard/TotalMoney.jsx:18-20 | the business takes its percentage of the amount received, nothing when the percentage is null or 0 |
| `TotalMoney.YourShare` | frontend/src/components/dashboard/TotalMoney.jsx:21 | the seller keeps (100 − percentage)% of the amount received |
| `TotalMoney.CostToMake` | frontend/src/components/dashboard/TotalMoney.jsx:22 | the making cost of the units sold, never negative for a non-negative quantity and cost |
| `TotalMoney.Profit` | frontend/src/components/dashboard/TotalMoney.jsx:17-23 | quantity · (price · (100 − pct)/100 − cost); with no (or a zero) percentage, quantity · (price − cost) |
| `TotalMoney.ProfitFold` | frontend/src/components/dashboard/TotalMoney.jsx:16-25 | the reducer's left fold from any start value is that value plus the sum of the per-sale profits |
| `TotalMoney.Total` | frontend/src/components/dashboard/TotalMoney.jsx:16-26 | the total shown is the sum of the per-sale profits |
| `TotalMoney.TotalStep` | frontend/src/components/dashboard/TotalMoney.jsx:16-25 | no sales give 0, and total(s + [x]) = total(s) + profit(x) |
| `TotalMoney.ConsignmentShareBounds` | frontend/src/components/dashboard/TotalMoney.jsx:18-21 | with pct in [0, 100] and a non-negative amount received, 0 ≤ business share ≤ amount received |
| `SalesTable.AdjustedTotalReceived` | frontend/src/components/dashboard/Sales.jsx:44-47 | the adjusted amount equals the Total Money card's seller share for the same sale |
| `SalesTable.Rows` | frontend/src/components/dashboard/Sales.jsx:43-58 | one row per sale, in order, with the sale's own date, product, quantity and price and its seller share as the last column |
| `SalesTable.RowsAppend` | frontend/src/components/dashboard/Sales.jsx:43-47 | one row per sale, in input order: the rows of a concatenation are the concatenated rows |
| `SalesTable.AdjustedExtremes` | frontend/src/components/dashboard/Sales.jsx:45-47 | pct 100 leaves 0; a falsy pct leaves the amount received unchanged |
| `SalesTable.AdjustedBounds` | frontend/src/components/dashboard/Sales.jsx:44-47 | with pct in [0, 100] and a non-negative amount received, 0 ≤ adjusted ≤ amount received |
| `SalesTable.TotalMatchesTable` | frontend/src/components/dashboard/Sales.jsx:43-47 | the Total Money card equals the sum of the table's "Total Received" column minus the cost of making the items sold |
| `FormErrors.ErrorMessageShowsAllMessages` | frontend/src/components/forms/SaleUpdateForm.jsx:132-135 | a non-empty error array is shown in full and in order: the messages split back out of the text when none holds a comma |
| `FormErrors.ErrorMessage` | frontend/src/components/forms/SaleUpdateForm.jsx:132-135 | anything but a non-empty array gives the fallback; an array's text starts with its first message, and a single message is shown as it is |
| `SaleUpdateForm.SchemaAccepts` | frontend/src/components/forms/SaleUpdateForm.jsx:18-26 | the edit schema accepts exactly a present quantity of at least 1 (fractions allowed), a present price of at least 0 and a non-empty date; its consequences are stated by `SaleNewForm.StricterThanUpdateSchema` |
| `SaleUpdateForm.PadStart` | frontend/src/components/forms/SaleUpdateForm.jsx:30 | `padStart` keeps the string as a suffix, fills only in front and reaches at least the width |
| `SaleUpdateForm.Pad` | frontend/src/components/forms/SaleUpdateForm.jsx:30 | `pad` never truncates: at least two characters, ending in the number's decimal form |
| `SaleUpdateForm.PadSmallNumbers` | frontend/src/components/forms/SaleUpdateForm.jsx:30 | 0–9 become "0" and the digit; 10–99 stay their two digits |
| `SaleUpdateForm.PadTwoDigits` | frontend/src/components/forms/SaleUpdateForm.jsx:30 | below 100 `pad` gives two digits that read back as the number |
| `SaleUpdateForm.MonthWrittenOneBased` | frontend/src/components/forms/SaleUpdateForm.jsx:33 | zero-based months 0..11 are written "01".."12" |
| `SaleUpdateForm.FormatDateForInput` | frontend/src/components/forms/SaleUpdateForm.jsx:28-39 | the value has at least 13 characters: a year of at least one digit, four two-character fields and four separators |
| `SaleUpdateForm.FormatDateRoundTrip` | frontend/src/components/forms/SaleUpdateForm.jsx:28-39 | for a four-digit year the value has length 16 with '-' at 4 and 7, 'T' at 10, ':' at 13, and reads back as the same date and time |
| `SaleUpdateForm.LoadedValues` | frontend/src/components/forms/SaleUpdateForm.jsx:69-73 | the loaded values have exactly the three form fields; a null or zero quantity or price becomes "", the date is always the formatted (never empty) string |
| `SaleUpdateForm.NumberOrEmpty` | frontend/src/components/forms/SaleUpdateForm.jsx:70-71 | the empty-string fallback on a number: "" exactly for null or 0, the number itself otherwise |
| `SaleUpdateForm.TextOrEmpty` | frontend/src/components/forms/SaleUpdateForm.jsx:72 | the empty-string fallback on a string gives back the string itself |
| `SaleUpdateForm.SubmittedValues` | frontend/src/components/forms/SaleUpdateForm.jsx:121-125 | the submitted values keep the quantity as it was and replace only the price, by its number, and the date, by its ISO form |
| `SaleUpdateForm.FetchErrorMessage` | frontend/src/components/forms/SaleUpdateForm.jsx:74-76 | the text is "Error fetching sale: " followed by a JavaScript error's message, or by "undefined" for the message array the API layer throws |
| `SaleUpdateForm.ApiRejectionHidesMessages` | frontend/src/components/forms/SaleUpdateForm.jsx:76 | every API rejection shows the same text whatever the server said, while different JavaScript error messages show different texts |
| `SaleUpdateForm.SaleUpdateFormState.constructor` | frontend/src/components/forms/SaleUpdateForm.jsx:47-53 | the form starts loading, with empty values and no message |
| `SaleUpdateForm.SaleUpdateFormState.OnSaleFetched` | frontend/src/components/forms/SaleUpdateForm.jsx:68-79 | a fetched sale replaces the initial values and ends loading |
| `SaleUpdateForm.SaleUpdateFormState.OnFetchFailed` | frontend/src/components/forms/SaleUpdateForm.jsx:74-79 | a failed fetch shows the text for the thrown value and ends loading, keeping the values |
| `SaleUpdateForm.SaleUpdateFormState.Submit` | frontend/src/components/forms/SaleUpdateForm.jsx:117-125 | submitting clears the message and hands over the overridden values |
| `SaleUpdateForm.UpdateErrorMessage` | frontend/src/components/forms/SaleUpdateForm.jsx:131-136 | the update form's sentence unless the server sent a non-empty array; a single message is shown as it is |
| `SaleUpdateForm.SaleUpdateFormState.OnUpdateResponse` | frontend/src/components/forms/SaleUpdateForm.jsx:127-137 | a failed update shows the shared message with the update fallback; success leaves the message |
| `SaleNewForm.SchemaAccepts` | frontend/src/components/forms/SaleNewForm.jsx:27-40 | the new-sale schema accepts exactly a product, a whole quantity of at least 1, a price of at least 0, a date, and a percentage in [0, 100] when one is given (an emptied percentage passes), and asks nothing of the business; its consequences are stated by the lemmas below |
| `SaleNewForm.Dispatch` | frontend/src/components/forms/SaleNewForm.jsx:105-110 | a business sale calls createBusinessSale with the business id and percentage, otherwise createSale with the product id |
| `SaleNewForm.SaleDataOf` | frontend/src/components/forms/SaleNewForm.jsx:98-103 | the payload copies product, quantity and price from the form and carries the converted date |
| `SaleNewForm.DispatchCarriesSaleData` | frontend/src/components/forms/SaleNewForm.jsx:98-110 | both calls carry the same four sale fields from the form; a direct sale sends exactly `createSale(productId, saleData)` |
| `SaleNewForm.InitialValuesNeedProductAndDate` | frontend/src/components/forms/SaleNewForm.jsx:84-92 | the initial values (quantity 1, price 0, percentage 0, not a business sale) fail validation only for want of a product and a date |
| `SaleNewForm.StricterThanUpdateSchema` | frontend/src/components/forms/SaleNewForm.jsx:27-40 | every value the new-sale schema accepts the edit schema accepts; a quantity of 1.5 shows the edit schema has no whole-number check |
| `SaleNewForm.BusinessIdNotValidated` | frontend/src/components/forms/SaleNewForm.jsx:27-40 | the schema lets a business sale through with no business chosen, and the call then carries no business id |
| `SaleNewForm.ClearedPercentageAccepted` | frontend/src/components/forms/SaleNewForm.jsx:37-39 | clearing the percentage field does not block an accepted form: the business call then goes out with no percentage |
| `SaleNewForm.AcceptedFormSendsValidSale` | frontend/src/components/forms/SaleNewForm.jsx:27-40 | whatever call an accepted form makes carries a product, a whole quantity of at least 1 and a price of at least 0, and a business call either no percentage or one in [0, 100] |
| `SaleNewForm.UncheckedFormSubmitsDirectSale` | frontend/src/components/forms/SaleNewForm.jsx:204-209 | after the reset the form makes a direct sale and the percentage 0 meets the schema's bound |
| `SaleNewForm.SaleNewFormState.constructor` | frontend/src/components/forms/SaleNewForm.jsx:84-92 | the form starts with the initial values and no message |
| `SaleNewForm.SaleNewFormState.OnBusinessSaleChange` | frontend/src/components/forms/SaleNewForm.jsx:204-209 | checking sets the flag only; unchecking also resets the business to "" and the percentage to 0 |
| `SaleNewForm.SaleNewFormState.Submit` | frontend/src/components/forms/SaleNewForm.jsx:93-110 | called only once the schema accepts the values, it clears the message and makes the dispatched call, whose sale fields are valid |
| `SaleNewForm.CreateErrorMessage` | frontend/src/components/forms/SaleNewForm.jsx:116-121 | the create form's sentence unless the server sent a non-empty array, which is then shown exactly as the edit form shows it; the two texts agree exactly in that case |
| `SaleNewForm.SaleNewFormState.OnCreateResponse` | frontend/src/components/forms/SaleNewForm.jsx:112-123 | a failed call shows the shared message with the create fallback |
| `ProductsList.WithoutId` | frontend/src/components/products/ProductsList.jsx:41 | no kept product has the id, every product with another id is kept, and the length drops by the number of matches |
| `ProductsList.WithoutIdAppend` | frontend/src/components/products/ProductsList.jsx:41 | the filter keeps relative order: it distributes over concatenation |
| `ProductsList.WithoutAbsentId` | frontend/src/components/products/ProductsList.jsx:41 | deleting an id no product has leaves the list equal to before |
| `ProductsList.WithoutIdIdempotent` | frontend/src/components/products/ProductsList.jsx:41 | filtering twice by the same id is the same as once |
| `ProductsList.WithoutIdCommutes` | frontend/src/components/products/ProductsList.jsx:41 | deleting two ids in either order gives the same list, holding neither id |
| `ProductsList.StaleSnapshotRestoresDeleted` | frontend/src/components/products/ProductsList.jsx:37-42 | filtering id 2 out of the captured [1, 2] leaves product 1, while filtering the current list after deleting 1 leaves nothing |
| `ProductsList.ProductsListState.HandleDelete` | frontend/src/components/products/ProductsList.jsx:37-46 | after a successful delete the list is the captured render-time list with the product filtered out; after a failed one the state is unchanged |
| `ProductsList.ProductsListState.HandleDeleteLatest` | frontend/src/components/products/ProductsList.jsx:37-46 | the corrected handler filters the list as it is when the answer arrives, so only products already shown remain |
| `ProductsList.OverlappingDeletes` | frontend/src/components/products/ProductsList.jsx:37-42 | two deletes (1, then 2) clicked before the first answer both succeed, and product 1 is back on screen |
| `ProductsList.OverlappingDeletesLatest` | frontend/src/components/products/ProductsList.jsx:37-42 | the same two deletes with the corrected handler leave the list empty |
| `ProductsList.ProductsListState.OnProductsFetched` | frontend/src/components/products/ProductsList.jsx:24-25 | the fetched products become the list |
| `ProductsList.ProductsListState.constructor` | frontend/src/components/products/ProductsList.jsx:18 | the list starts empty |

## Left out

- `jwt.verify` and the signing secret: a library call, modelled only by its outcome (`verify` returns `None` where it throws).
- A token whose payload is a string: the model's payload is always an object, so an empty-string payload (falsy, hence rejected by `ensureLoggedIn`) is not represented.
- Admin and same-user checks: imported by backend/routes/productRoutes.js:5-9 but not defined in backend/middleware/auth.js, so nothing models them.
- `UpdateQuery.ColumnName` looks only at the table's own entries; keys such as `constructor` that JavaScript would find on `Object.prototype` are not modelled.
- Values in the update payload are of one generic type; the SQL driver that receives them is not part of this model, nor are the data-access models, the database, config and route wiring.
- Floating point: money is exact `real`; IEEE rounding and `toFixed(2)` display are not modelled.
- A `NaN` business percentage (falsy in JavaScript) is not represented; only null and 0 count as falsy.
- `new Date(…)`, its local getters, `toISOString`, `Number` and `convertToISODate` are parameters, not modelled.
- Yup's casting of form strings to numbers and dates: the schemas are predicates on already-typed values, an emptied number or select field (`""`, which Formik hands to Yup as `undefined`) is `None`, failing a `.required()` rule and passing an optional one, and a date is required only as a non-empty string, so an unparsable one is not represented.
- `SaleUpdateForm.FormatDateRoundTrip` is stated for four-digit years only; other years are formatted without padding but the read-back is not claimed.
- Error arrays are modelled as arrays of strings; the `toString` of non-string elements in `join` is not modelled.
- Rendering, navigation, the fetch effects' asynchrony and `console` logging of the React components; frontend/src/App.jsx and the other components are not part of this model, and frontend/src/utils/YamApi.js enters it only through what its `request` throws.
- React's scheduling of renders and answers: the interleaving of two deletes is written out by the caller (`ProductsList.OverlappingDeletes`), not explored over all orders.
- `deleteProduct`'s network call is its boolean outcome; product ids are integers, so the strict `!==` comparison of values of different types is not represented.

## Findings

| source | as written | input that shows it | evidently intended | confidence | as-written member | corrected member |
|---|---|---|---|---|---|---|
| frontend/src/components/products/ProductsList.jsx:37-42 | the handler filters the `productsData` it captured at render time after awaiting `deleteProduct` | products [1, 2]; Delete 1, then Delete 2 before the first answer; both succeed: the list shows product 1 again | filter the current list (the functional updater), so both products disappear | medium, not executed | `ProductsList.OverlappingDeletes` | `ProductsList.OverlappingDeletesLatest` |
