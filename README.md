# medsup storefront and payment add-ons, modelled in Dafny

This project models the core logic of **medsup**, a medical-supplies storefront written in TypeScript with effector stores, and of its two payment add-ons. It covers:

- **Shared helpers.** The namespaced `localStorage` wrapper (`medsup.v1:<key>`, JSON round trips) and the `formatCents` and `add` money helpers.
- **Product catalogue.** The in-memory product API (`seed`, `categories`, `listProducts` with search, category, sort and paging, `getProduct`, `upsertProduct`, `reset`, `createProduct`), the catalogue page's filter and product stores, and the validation and submission logic of the product editor.
- **Shopping cart.** The cart store and its events (`addItem`, `removeItem`, `changeQty`, `clearCart`), saving to storage, the `checkoutFx` effect that prices the cart and appends an order to the order log, the drawer flag, and `useCartProducts`.
- **Crypto payment add-on.** The currency service (supported coins, exchange rate, wallet addresses), the payment service (create, check, and the timers that move a payment from `pending` to `completed`), its stores, its payment form, and the helpers of its status view.
- **Card (Adyen) payment add-on.** The payment state store and its form store, request building, and form validation.

Pure code (reducers, formatters, filters, validators) becomes datatypes, functions and lemmas. Code that changes things step by step becomes imperative Dafny:

- `Storage.LocalStorage` owns the key-value dictionary.
- `Catalog.ProductDb` holds the persisted tables.
- `Cart.CartStore` holds the cart together with the storage it saves to.
- `CryptoPayments.PaymentService` holds the payments dictionary.
- `Sorting.InsertionSort` sorts the listed page in place, standing in for `Array.prototype.sort`.

Parameters stand in for everything the code gets from outside:

- the clock (`Date.now()`, `new Date().toISOString()`);
- generated ids (`newId`, `pay_…`, `generatePaymentReference`);
- the browser origin and the configured merchant account;
- the locale collation of `localeCompare`, taken as an abstract total preorder;
- the JSON encoding, taken as a codec whose round trip is a hypothesis.

Module layout: one module per source file. The shared modules are `Wrappers`, `Text` (JavaScript `\s`, `trim`, ASCII case mapping, `includes`), `Decimal` (rendering whole numbers), `Email` (the e-mail pattern shared by both add-ons), `Seqs` (`filter`) and `Sorting`.

## Model

| member | source | states |
|---|---|---|
| Storage.GetKey | src/shared/lib/storage.ts:4-6 | the storage key is the namespace `medsup.v1`, a colon, then the key |
| Storage.GetKeyInjective | src/shared/lib/storage.ts:4-6 | two keys share a storage slot exactly when they are equal |
| Storage.LocalStorage.Empty | src/shared/lib/storage.ts:1-24 | a fresh storage holds no entries |
| Storage.LocalStorage.ReadJSON | src/shared/lib/storage.ts:8-15 | a missing or empty slot gives the fallback, undecodable text gives the fallback, otherwise the decoded value |
| Storage.LocalStorage.WriteJSON | src/shared/lib/storage.ts:17-19 | only the slot of the key changes, and it now holds the encoded value |
| Storage.LocalStorage.Remove | src/shared/lib/storage.ts:21-23 | only the slot of the key is removed |
| Storage.Read | src/shared/lib/storage.ts:8-15 | what `readJSON` yields: a missing or empty slot gives the fallback, and so does text that does not decode; otherwise the decoded value |
| Storage.ReadAfterWrite | src/shared/lib/storage.ts:8-19 | after writing a value whose JSON round-trips, reading the key gives it back |
| Storage.ReadAfterRemove | src/shared/lib/storage.ts:8-23 | after removing a key, reading it gives the fallback |
| Storage.OtherKeysUnchanged | src/shared/lib/storage.ts:8-23 | writing or removing one key leaves what every other key reads unchanged |
| Money.Dollars | src/shared/lib/money.ts:3-6 | `$`, then whole dollars that start and end with a digit, with a comma exactly every fourth place before the point and no leading zero (a single `0` below one dollar), a point and two cent digits |
| Money.FormatCents | src/shared/lib/money.ts:3-6 | the text starts with `$` (or `-$` for a negative amount), and its digits denote the absolute amount in cents |
| Money.FormatCentsShape | src/shared/lib/money.ts:3-6 | after the sign: whole dollars that start and end with a digit, with commas exactly every fourth place before the point, a single `0` exactly below one dollar, a point and two cent digits |
| Money.DollarsValue | src/shared/lib/money.ts:3-6 | reading the rendered digits back gives exactly the cents |
| Money.FormatCentsExamples | src/__tests__/jest/unit.money.test.ts:7-17 | 0, 1, 199, 12345 and 999999 cents render as in the unit test's table |
| Money.Add | src/shared/lib/money.ts:8-10 | exact integer addition of cents: subtracting either operand gives the other |
| Decimal.NatToString | apps/crypto-payment/src/components/PaymentStatus.tsx:72-74 | `String(n)` is one or more digits with no leading zero |
| Decimal.NatToStringValue | apps/crypto-payment/src/components/PaymentStatus.tsx:72-74 | the rendering of `n` denotes `n` |
| Decimal.Pad2 | apps/crypto-payment/src/components/PaymentStatus.tsx:74 | `padStart(2, '0')` of a number below 100 is exactly two digits |
| Decimal.Pad2Value | apps/crypto-payment/src/components/PaymentStatus.tsx:74 | the two padded digits denote the number |
| Decimal.Pad3 | src/shared/lib/money.ts:5 | a group after a thousands separator is exactly three digits |
| Decimal.AppendPad3Value | src/shared/lib/money.ts:5 | appending a three-digit group shifts the value three places and adds the group |
| Decimal.Grouped | src/shared/lib/money.ts:5 | digits with a comma exactly every fourth place from the end, starting and ending with a digit; zero is `0` and no other number starts with `0` |
| Decimal.GroupedValue | src/shared/lib/money.ts:5 | grouping by thousands loses nothing: the text still denotes `n` |
| Text.TrimStart | src/entities/product/ui/ProductForm.tsx:64 | a suffix of the input that does not start with white space, with only white space cut off |
| Text.TrimEnd | src/entities/product/ui/ProductForm.tsx:64 | a prefix of the input that does not end with white space, with only white space cut off |
| Text.Trim | src/entities/product/ui/ProductForm.tsx:64 | a run of the input that neither starts nor ends with white space, with only white space cut from either side |
| Text.TrimEmptyIffBlank | src/entities/product/ui/ProductForm.tsx:64-83 | `s.trim()` is empty exactly when `s` is all white space |
| Text.TrimsToEmpty | src/entities/product/ui/ProductForm.tsx:64-83 | the test `!s.trim()` holds exactly when `s` is all white space |
| Text.ToLower | src/entities/product/api/mockApi.ts:104-105 | same length, and each character is lower-cased |
| Text.ToUpper | src/entities/product/ui/ProductForm.tsx:226 | same length, and each character is upper-cased |
| Text.Includes | src/entities/product/api/mockApi.ts:105 | true exactly when the needle occurs at some position of the haystack |
| Email.AtCount | apps/adyen-payment/src/services/paymentService.ts:60-63 | the number of `@` characters is at most the length |
| Email.AtCountZero | apps/adyen-payment/src/services/paymentService.ts:60-63 | a string has no `@` count exactly when no character is `@` |
| Email.FirstAt | apps/adyen-payment/src/services/paymentService.ts:60-63 | the index of the first `@`, or the length when there is none |
| Email.AtCountConcat | apps/adyen-payment/src/services/paymentService.ts:60-63 | the `@` count of a concatenation is the sum of the counts |
| Email.SplitAtFirst | apps/adyen-payment/src/services/paymentService.ts:60-63 | the first `@` accounts for one `@` and the rest for the remainder |
| Email.IsValidEmail | apps/adyen-payment/src/services/paymentService.ts:60-63 | an accepted address has at least five characters and starts with neither `@` nor white space |
| Email.ValidMatchesPattern | apps/adyen-payment/src/services/paymentService.ts:61-62 | an e-mail accepted by the rule splits as `A@B.C` with three `[^\s@]+` parts |
| Email.PatternIsValid | apps/adyen-payment/src/services/paymentService.ts:61-62 | every split `A@B.C` into `[^\s@]+` parts is accepted by the rule |
| Email.IsValidEmailIffPattern | apps/crypto-payment/src/components/PaymentForm.tsx:54 | the rule accepts exactly the strings the pattern `^[^\s@]+@[^\s@]+\.[^\s@]+$` matches |
| Email.Examples | apps/adyen-payment/src/services/paymentService.ts:60-63 | `a@b.co` passes; a missing part, a second `@` or a space fails |
| Seqs.Filter | src/features/cart/model/cart.ts:33 | the kept elements, each accepted and from the input, with every accepted element kept |
| Seqs.FilterConcat | src/features/cart/model/cart.ts:33 | filtering distributes over concatenation, so order is kept |
| Seqs.FilterAll | src/features/cart/model/cart.ts:33 | when every element is accepted, filtering changes nothing |
| Seqs.FirstIndex | src/features/cart/model/cart.ts:28 | `findIndex` with the length for "none": the position of the first accepted element, with none accepted before it |
| Seqs.FirstIndexIsFirst | src/entities/product/api/mockApi.ts:124-126 | an accepted position with no accepted one before it is the one `FirstIndex` gives |
| Sorting.InsertionSort | src/entities/product/api/mockApi.ts:109-113 | the array ends sorted by the comparator and is a permutation of what it held |
| Sorting.Insert | src/entities/product/api/mockApi.ts:109-113 | one insertion step: a sorted prefix grows by one element and the array stays a permutation |
| Catalog.Resolve | src/entities/product/api/mockApi.ts:99 | absent sort, order, limit and offset default to name, asc, 24 and 0; present fields, search and category included, pass through unchanged; search and category are blank exactly when absent or empty |
| Catalog.ByCategory | src/entities/product/api/mockApi.ts:101-102 | exactly the products of the category survive |
| Catalog.BySearch | src/entities/product/api/mockApi.ts:103-106 | exactly the products whose lowercased name, description or SKU contains the lowercased query survive |
| Catalog.Matching | src/entities/product/api/mockApi.ts:100-106 | exactly the products that pass both filters, all drawn from the table |
| Catalog.MatchingUnfiltered | src/entities/product/api/mockApi.ts:100-106 | with no category and no search, every product matches, in table order |
| Catalog.TotalIgnoresPaging | src/entities/product/api/mockApi.ts:107 | the total depends only on the search and the category, not on sort or paging |
| Catalog.SliceIndex | src/entities/product/api/mockApi.ts:108 | `slice` bounds: a negative bound counts from the end, and both clamp to the length |
| Catalog.Slice | src/entities/product/api/mockApi.ts:108 | `slice(start, end)` is the contiguous run of the input between the clamped start and the clamped end, empty when they cross |
| Catalog.PageOf | src/entities/product/api/mockApi.ts:108 | for a non-negative offset and limit the page is the matches from `offset` up to `offset + limit` (clamped), empty past the end; at most `limit` items, drawn from the matches |
| Catalog.PageBetweenBounds | src/entities/product/api/mockApi.ts:108 | for any offset and limit the page is the run of matches between the two clamped slice bounds, or empty |
| Catalog.PrecedesIsTotalPreorder | src/entities/product/api/mockApi.ts:109-113 | each sort key and order gives a total preorder when the name collation is one |
| Catalog.SortPage | src/entities/product/api/mockApi.ts:109-113 | the sorted page is a permutation of the slice, ordered by the key and direction; ascending or descending by price when sorting by price |
| Catalog.FindById | src/entities/product/api/mockApi.ts:117-120 | none exactly when no product has the id; otherwise the first product with that id |
| Catalog.WithId | src/entities/product/api/mockApi.ts:123 | `{...input, id}`: the id is set and every other field comes from the input |
| Catalog.Upserted | src/entities/product/api/mockApi.ts:121-129 | the first product with the id is replaced in place; a new id is appended at the end |
| Catalog.FindAfterUpsert | src/entities/product/api/mockApi.ts:117-129 | after an upsert, `getProduct` of its id finds exactly the upserted product |
| Catalog.UpsertKeepsIdsDistinct | src/entities/product/api/mockApi.ts:121-129 | an upsert keeps product ids distinct |
| Catalog.FindAfterCreate | src/entities/product/api/mockApi.ts:135-141 | appending a product with a new id makes `getProduct` find it |
| Catalog.SeedProducts | src/entities/product/api/mockApi.ts:28-84 | the five seed products, carrying the generated ids |
| Catalog.SeedRowsWellFormed | src/entities/product/api/mockApi.ts:20-84 | every seed product has a positive price and stock, and belongs to one of the seeded categories |
| Catalog.ProductDb.Load | src/entities/product/api/mockApi.ts:17-88 | after module load the tables are seeded: the stored tables if seeding already happened, else the seed data |
| Catalog.ProductDb.Seed | src/entities/product/api/mockApi.ts:17-88 | seeding is a no-op once seeded, and otherwise writes the seed categories and products |
| Catalog.ProductDb.Reset | src/entities/product/api/mockApi.ts:130-134 | after a reset the tables hold exactly the seed data |
| Catalog.ProductDb.Categories | src/entities/product/api/mockApi.ts:94-96 | returns the categories table |
| Catalog.ProductDb.ListProducts | src/entities/product/api/mockApi.ts:97-115 | the total counts all matches before paging; the items are the page of matches, at most `limit`, ordered by the chosen key and direction |
| Catalog.ProductDb.GetProduct | src/entities/product/api/mockApi.ts:117-120 | none exactly when no product has the id; otherwise the first product of the table with that id |
| Catalog.ProductDb.UpsertProduct | src/entities/product/api/mockApi.ts:121-129 | a missing id is replaced by the fresh one, the table is the upserted table, and the categories are unchanged |
| Catalog.ProductDb.CreateProduct | src/entities/product/api/mockApi.ts:135-141 | the product always gets the fresh id and is appended, and the categories are unchanged |
| ProductsModel.Overlay | src/entities/product/model/products.ts:15 | a field present in the patch wins, otherwise the current one stays |
| ProductsModel.Merge | src/entities/product/model/products.ts:15 | `{...state, ...patch}`, field by field |
| ProductsModel.MergeEmpty | src/entities/product/model/products.ts:15 | an empty patch leaves the filter unchanged |
| ProductsModel.MergeIdempotent | src/entities/product/model/products.ts:15 | applying the same patch twice equals applying it once |
| ProductsModel.MergeSequence | src/entities/product/model/products.ts:15 | two patches in a row act as their merge applied once |
| ProductsModel.FilterChanged | src/entities/product/model/products.ts:12-27 | the filter becomes the merge, products are fetched with the merged filter, and nothing else changes |
| ProductsModel.FetchFilter | src/entities/product/model/products.ts:6-8 | no argument lists with the empty filter, otherwise with the argument |
| ProductsModel.ProductsFetched | src/entities/product/model/products.ts:18-19 | items and total both come from the one response; the filter and categories are unchanged |
| ProductsModel.CategoriesFetched | src/entities/product/model/products.ts:17 | the categories are replaced; everything else is unchanged |
| ProductsModel.SearchPatchKeepsLimit | src/entities/product/model/products.ts:14-15 | a search patch on the initial filter fetches with the search and the limit 24 |
| ProductsModel.SortThenOrderPatches | src/entities/product/model/products.ts:12-15 | a sort patch then an order patch fetch with both fields and the limit kept |
| ProductForm.FormOf | src/entities/product/ui/ProductForm.tsx:38-51 | the form copies every product field, and a missing image becomes the empty string |
| ProductForm.AcceptableIffNoRuleBroken | src/entities/product/ui/ProductForm.tsx:61-90 | a form is acceptable exactly when no field breaks its rule |
| ProductForm.ValidateForm | src/entities/product/ui/ProductForm.tsx:61-90 | there is an error for a field exactly when its rule fails, with that rule's message; valid exactly when there are no errors, i.e. the form is acceptable |
| ProductForm.Submitted | src/entities/product/ui/ProductForm.tsx:99-108 | the draft copies the form; the image is absent exactly when empty; the id comes only from the edited product |
| ProductForm.EditUnchangedRoundTrip | src/entities/product/ui/ProductForm.tsx:38-108 | opening a product and submitting unchanged gives back the same product under the same id |
| ProductForm.HandleSubmit | src/entities/product/ui/ProductForm.tsx:92-118 | the errors are validation's, one message per broken rule; a draft is submitted exactly when the form is acceptable and the errors are empty; the draft is the submitted record |
| ProductForm.SetField | src/entities/product/ui/ProductForm.tsx:53-54 | exactly the named field takes the value |
| ProductForm.HandleInputChange | src/entities/product/ui/ProductForm.tsx:53-59 | the field takes the value; a shown error for that field is blanked; no other error changes |
| ProductForm.SkuInput | src/entities/product/ui/ProductForm.tsx:226 | the SKU becomes the typed text upper-cased, and no other field changes |
| Cart.CountAppend | src/features/cart/model/cart.ts:20 | appending a line adds its quantity to the count |
| Cart.CountUpdate | src/features/cart/model/cart.ts:20 | replacing a line moves the count by the difference of quantities |
| Cart.Count | src/features/cart/model/cart.ts:20 | `$cartCount`: zero for an empty cart; with no negative quantity it is non-negative and at least each line's quantity |
| Cart.AddItem | src/features/cart/model/cart.ts:27-31 | quantity defaults to 1; the first line for the product gains it, otherwise a new line is appended |
| Cart.AddItemCount | src/features/cart/model/cart.ts:20-31 | adding raises the cart count by exactly the added quantity |
| Cart.AddItemKeepsLinesDistinct | src/features/cart/model/cart.ts:27-31 | adding never creates a second line for a product |
| Cart.RemoveItem | src/features/cart/model/cart.ts:33 | every line for the product goes, and every other line stays |
| Cart.RemoveItemKeepsOrder | src/features/cart/model/cart.ts:33 | removal works line by line over joined carts, so the remaining lines keep their order and multiplicity |
| Cart.RemoveItemOneLine | src/features/cart/model/cart.ts:33 | a single line is dropped exactly when it is for the product |
| Cart.RemoveAbsent | src/features/cart/model/cart.ts:33 | removing a product not in the cart changes nothing |
| Cart.RemoveKeepsLinesDistinct | src/features/cart/model/cart.ts:33 | removing keeps one line per product |
| Cart.ChangeQty | src/features/cart/model/cart.ts:34 | every line for the product takes the new quantity, and other lines stay |
| Cart.ChangeQtyCount | src/features/cart/model/cart.ts:20-34 | with one line per product, the count moves by the new minus the old quantity |
| Cart.Subtotal | src/features/cart/model/cart.ts:47 | the checkout subtotal is non-negative when no line has a negative price or quantity |
| Cart.Reduce | src/features/cart/model/cart.ts:27-35 | clear empties the cart; add raises the count by the quantity; remove leaves no line for the product; quantity change keeps the lines; distinct lines stay distinct |
| Cart.PriceLines | src/features/cart/model/cart.ts:42-46 | fails with "Product not found" exactly when some line's product is missing; otherwise each line is priced from the first product with its id |
| Cart.AfterCheckout | src/features/cart/model/cart.ts:54-57 | only the `orders` and `cart` slots are written; every other storage slot is unchanged |
| Cart.CheckoutAppendsOrder | src/features/cart/model/cart.ts:54-57 | after checkout the order log reads back as the old log plus the new order, and the cart reads back empty |
| Cart.CartStore.Load | src/features/cart/model/cart.ts:14-18 | the cart is what storage holds under `cart` (or empty), and the watcher saves it at once |
| Cart.CartStore.Dispatch | src/features/cart/model/cart.ts:18-35 | the cart becomes the reducer's result and is saved under `cart` |
| Cart.CartStore.Checkout | src/features/cart/model/cart.ts:37-59 | an empty cart gives no order and changes nothing; a missing product fails and changes nothing; otherwise the order holds the priced lines and their subtotal, is appended to the log, and the cart is cleared |
| Cart.DrawerOpen | src/features/cart/model/cart.ts:62-64 | one handler: open exactly for an open event, whatever the previous state |
| Cart.DrawerAfter | src/features/cart/model/cart.ts:64 | from the initial closed state, the drawer is open exactly when the most recent event was `openCart` |
| Cart.LastById | src/features/cart/model/cart.ts:68 | `new Map(...).get(id)`: none exactly when no product has the id; otherwise a product with the id, taken from a position after which no product has that id (the last one) |
| Cart.LastIsFirst | src/features/cart/model/cart.ts:43-68 | with distinct ids, the map lookup and `find` agree |
| Cart.Enrich | src/features/cart/model/cart.ts:69-71 | each surviving line is a cart line with the product the map holds for it; every cart line whose product is found survives; when all are found none is dropped |
| Cart.EnrichConcat | src/features/cart/model/cart.ts:69-71 | enriching works line by line over joined carts, so the surviving lines keep the cart order |
| Cart.EnrichOneLine | src/features/cart/model/cart.ts:69-71 | a single line survives, with the map's product, exactly when the map holds its product |
| Cart.LinesTotal | src/features/cart/model/cart.ts:72 | the drawer total is non-negative when no line has a negative quantity or price |
| Cart.CartProducts | src/features/cart/model/cart.ts:66-74 | empty exactly when no line survives; the total text starts with `-` exactly when the total is negative, and its digits denote the absolute total of the surviving lines |
| Cart.ViewTotalIsCheckoutSubtotal | src/features/cart/model/cart.ts:47-72 | with distinct ids and every product found, the drawer's total equals the checkout subtotal |
| CryptoService.SupportedCurrenciesWellFormed | apps/crypto-payment/src/services/cryptoService.ts:9-42 | four enabled currencies with distinct ids and positive prices |
| CryptoService.FindCurrency | apps/crypto-payment/src/services/cryptoService.ts:52-54 | none exactly when no currency has the id; otherwise the first currency with it |
| CryptoService.SupportedIffListed | apps/crypto-payment/src/services/cryptoService.ts:9-42 | a currency is found exactly when its id is bitcoin, ethereum, litecoin or monero |
| CryptoService.GetExchangeRate | apps/crypto-payment/src/services/cryptoService.ts:49-59 | the listed price of a supported currency, 0 otherwise |
| CryptoService.RateIgnoresFiat | apps/crypto-payment/src/services/cryptoService.ts:49-59 | the rate does not depend on the fiat currency, and it is positive exactly for supported ids |
| CryptoService.GenerateWalletAddress | apps/crypto-payment/src/services/cryptoService.ts:65-74 | the fixed address of each supported coin, the fallback address otherwise |
| CryptoService.SupportedHaveAddresses | apps/crypto-payment/src/services/cryptoService.ts:65-74 | every supported coin has a real address, different from the others |
| CryptoPayments.NewPayment | apps/crypto-payment/src/services/paymentService.ts:7-52 | fails with "Failed to create payment request" exactly for an unsupported coin; otherwise a pending payment for the form's amount and coin, with a real address, that expires 30 minutes after creation |
| CryptoPayments.StepStatus | apps/crypto-payment/src/services/paymentService.ts:79-104 | a step moves its source status one rung up the chain and leaves every other status alone |
| CryptoPayments.Advanced | apps/crypto-payment/src/services/paymentService.ts:79-104 | a step changes only the status of its own payment, and no key |
| CryptoPayments.StepsOnlyMoveForward | apps/crypto-payment/src/services/paymentService.ts:79-104 | whatever steps fire in whatever order, a status never moves back, and completed stays completed |
| CryptoPayments.StepsStayOnChain | apps/crypto-payment/src/services/paymentService.ts:79-104 | steps never lead to failed or expired, and never leave those |
| CryptoPayments.ScheduleCompletes | apps/crypto-payment/src/services/paymentService.ts:79-104 | the three timers in their scheduled order take a pending payment to completed |
| CryptoPayments.PaymentService.constructor | apps/crypto-payment/src/services/paymentService.ts:5 | the payments dictionary starts empty |
| CryptoPayments.PaymentService.CreatePayment | apps/crypto-payment/src/services/paymentService.ts:7-52 | the result is the new payment or its error; only a success is stored, under its id |
| CryptoPayments.PaymentService.CheckStatus | apps/crypto-payment/src/services/paymentService.ts:54-60 | the stored payment, or "Payment not found" |
| CryptoPayments.PaymentService.Advance | apps/crypto-payment/src/services/paymentService.ts:79-104 | one timer firing changes only its payment's status |
| CryptoStore.MergeForm | apps/crypto-payment/src/store/paymentStore.ts:44 | `{...form, ...updates}`, field by field |
| CryptoStore.MergeFormLaws | apps/crypto-payment/src/store/paymentStore.ts:44 | an empty patch changes nothing, and a patch applied twice acts once |
| CryptoStore.ApplyStatus | apps/crypto-payment/src/store/paymentStore.ts:46-51 | a status result replaces the current payment only when the ids match |
| CryptoStore.Reduce | apps/crypto-payment/src/store/paymentStore.ts:40-68 | each event's update: selection sets the coin and the form's coin, results end loading, failures set the error, reset clears payment and error |
| CryptoStore.EffectRoundTrip | apps/crypto-payment/src/store/paymentStore.ts:53-60 | after an effect starts and finishes, loading is off, and the error is set exactly when the effect failed |
| CryptoStore.OnlyOwnStatusReplaces | apps/crypto-payment/src/store/paymentStore.ts:46-51 | status results for other payments never change the current payment |
| CryptoPaymentForm.ValidateForm | apps/crypto-payment/src/components/PaymentForm.tsx:43-60 | an error for a field exactly when its rule fails, with its message; valid exactly when the amount is positive, a coin is chosen, and any e-mail matches the pattern |
| CryptoPaymentForm.HandleSubmit | apps/crypto-payment/src/components/PaymentForm.tsx:43-71 | the errors are those of validation; a request is raised exactly when the amount is positive, a coin is chosen and any e-mail matches the pattern, and it carries the form with the chosen coin |
| CryptoPaymentForm.PatchOf | apps/crypto-payment/src/components/PaymentForm.tsx:25-27 | the patch holds only the edited field |
| CryptoPaymentForm.HandleInputChange | apps/crypto-payment/src/components/PaymentForm.tsx:25-36 | the update holds only that field; a shown error for that field is dropped; other errors stay |
| CryptoPaymentForm.InputChangesOneField | apps/crypto-payment/src/components/PaymentForm.tsx:25-36 | applying an edit changes that field of the form and no other |
| CryptoPaymentForm.EnabledCurrencies | apps/crypto-payment/src/components/PaymentForm.tsx:121-122 | exactly the enabled currencies are offered |
| CryptoPaymentForm.AllSupportedOffered | apps/crypto-payment/src/components/PaymentForm.tsx:121-122 | every supported currency is offered, in list order |
| CryptoPaymentForm.EnabledSubmitPassesCurrencyRule | apps/crypto-payment/src/components/PaymentForm.tsx:184 | an enabled submit button rules out the currency error; the amount error remains only for negative amounts |
| CryptoPaymentForm.SubmitDisabled | apps/crypto-payment/src/components/PaymentForm.tsx:184 | loading always disables the button, and an enabled button implies the currency rule passes |
| CryptoPaymentStatus.PollUntilSettled | apps/crypto-payment/src/components/PaymentStatus.tsx:17-87 | polling goes on exactly while the view shows neither completed nor failed, and the two never both hold |
| CryptoPaymentStatus.ChainPaymentsPollUntilCompleted | apps/crypto-payment/src/components/PaymentStatus.tsx:17-26 | a payment on the service's chain is polled until it is completed |
| CryptoPaymentStatus.IsCompleted | apps/crypto-payment/src/components/PaymentStatus.tsx:86 | `isCompleted`: the status is spelled `completed` |
| CryptoPaymentStatus.IsFailed | apps/crypto-payment/src/components/PaymentStatus.tsx:87 | `isFailed`: the status is spelled `failed` or `expired` |
| CryptoPaymentStatus.ShouldPoll | apps/crypto-payment/src/components/PaymentStatus.tsx:19-20 | the interval asks for an update exactly for `pending`, `awaiting_confirmation` and `confirmed` |
| CryptoPaymentStatus.StatusText | apps/crypto-payment/src/components/PaymentStatus.tsx:46-63 | the text of each of the six statuses |
| CryptoPaymentStatus.StatusTextDistinct | apps/crypto-payment/src/components/PaymentStatus.tsx:46-63 | the six texts differ from one another and from the fallback, which any other status gets |
| CryptoPaymentStatus.StatusColor | apps/crypto-payment/src/components/PaymentStatus.tsx:28-44 | `getStatusColor`: the grey fallback exactly for a string that names none of the six statuses |
| CryptoPaymentStatus.StatusColors | apps/crypto-payment/src/components/PaymentStatus.tsx:28-44 | failed and expired share a colour; otherwise the colours of two statuses differ |
| CryptoPaymentStatus.FormatTimeRemaining | apps/crypto-payment/src/components/PaymentStatus.tsx:65-75 | "Expired" exactly when no time remains, otherwise minutes as digits with no leading zero, a colon and two second digits |
| CryptoPaymentStatus.TimeRemainingReadsBack | apps/crypto-payment/src/components/PaymentStatus.tsx:65-75 | the countdown reads back as the whole minutes and the whole seconds of the remaining time |
| AdyenStore.OrElse | apps/adyen-payment/src/store/paymentStore.ts:66 | `a \|\| b` on strings: a non-empty value wins, otherwise the fallback |
| AdyenStore.Completed | apps/adyen-payment/src/store/paymentStore.ts:62-82 | success exactly when authorised; the response is kept; an error only on refusal, with the refusal reason or the fallback |
| AdyenStore.Reduce | apps/adyen-payment/src/store/paymentStore.ts:57-96 | each event's update: submit start clears the error, action start keeps it, outcomes settle, failures and `setError` set the message, reset returns to idle |
| AdyenStore.IsLoading | apps/adyen-payment/src/store/paymentStore.ts:46 | `$isLoading`: the status string is `loading`, and a loading state is never a successful one |
| AdyenStore.IsSuccess | apps/adyen-payment/src/store/paymentStore.ts:48 | `$isSuccess`: the status string is `success` |
| AdyenStore.ErrorOf | apps/adyen-payment/src/store/paymentStore.ts:48 | the error is shown exactly when it is a non-empty message |
| AdyenStore.SettledAfterOutcome | apps/adyen-payment/src/store/paymentStore.ts:46-87 | after any outcome of either effect nothing is loading, and success holds exactly when no error is shown |
| AdyenStore.StartsAndErrors | apps/adyen-payment/src/store/paymentStore.ts:57-76 | both starts set loading; a submit start clears the shown error, an action start keeps it |
| AdyenStore.ResetLikeInitial | apps/adyen-payment/src/store/paymentStore.ts:42-96 | a reset forgets the payment and shows what the initial state shows |
| AdyenStore.MergeForm | apps/adyen-payment/src/store/paymentStore.ts:51-54 | `{...state, ...payload}`, field by field |
| AdyenStore.MergeFormLaws | apps/adyen-payment/src/store/paymentStore.ts:51-54 | an empty patch changes nothing, and a patch applied twice acts once |
| AdyenService.ValidatePaymentForm | apps/adyen-payment/src/services/paymentService.ts:39-58 | each message appears exactly when its rule fails, in rule order; valid exactly when no rule fails |
| AdyenService.CreatePaymentRequest | apps/adyen-payment/src/services/paymentService.ts:8-30 | the minor amount and currency; the form's reference or a generated one; scheme; the return URL; the merchant or its default; NL and en_US; an e-mail only when non-empty, which is also the shopper reference |
| AdyenService.ValidFormGivesCleanRequest | apps/adyen-payment/src/services/paymentService.ts:39-63 | a validated form gives a request with a currency, and any shopper e-mail in it matches the pattern |

## Left out

- The React components' rendering, routing, module federation, the Cypress and Jest suites, and the mock Adyen service and SDK calls are outside the modelled logic.
- I/O is out of scope: clocks, id generation (`newId`, `Date.now()`, `Math.random()`), `window.location.origin` and the merchant environment variable become parameters.
- Time is out of scope: `setTimeout` and `setInterval` become explicit steps (`CryptoPayments.PaymentService.Advance`), fired in any order.
- Events that interleave with an `await` are not modelled. Each effect runs as one step. So the lost-update window of `checkoutFx` is not captured: it reads `$cart` before awaiting `api.listProducts` (src/features/cart/model/cart.ts:38-41), and its final `clearCart()` (cart.ts:57) also removes any line added during that wait, a line that is in no order.
- JSON is taken as a codec whose round trip is a hypothesis. Malformed text decodes to nothing, and `readJSON` then falls back.
- `localStorage` throwing (quota, privacy mode) is not modelled.
- Catalog.ProductDb: holds the two tables as fields. The source re-reads them from storage on every call, which behaves the same because nothing else writes those keys.
- Sorting.InsertionSort: proves sortedness and permutation but not stability. `Array.prototype.sort` is stable, so tied products keep their table order in the source; the model leaves the order of tied products open.
- Catalog.ProductDb.ListProducts: leaves the order of tied products open. The source's stable `Array.prototype.sort` (src/entities/product/api/mockApi.ts:109-113) keeps them in table order; the model promises only that the page is sorted by the comparator and is a permutation of the slice.
- `localeCompare` is an abstract total preorder on names.
- Text.ToLower, Text.ToUpper: map only ASCII letters. The Unicode case mapping of non-ASCII characters by `toLowerCase` and `toUpperCase` is not modelled. White space follows the JavaScript `\s` class.
- Money.FormatCents: models only the default `USD` currency in the `en-US` locale. Other currencies and Intl's symbol and spacing rules are left out.
- `cents / 100` is taken as exact for whole cents.
- Cart.AddItem: modelled on values. The source also mutates the existing line object (`existing.qty += qty`) and pushes onto the previous state's array; the model does not capture that aliasing.
- Cart.CartStore.Checkout: takes the products that `api.listProducts({ limit: 1000 })` returns as a parameter.
- Cart.CartStore.Checkout: the order id and timestamp are parameters.
- The `clearCart` inside checkout is modelled as the cart becoming empty and being saved.
- The cart quantities and prices are unbounded integers. NaN, fractional quantities and floating-point products are not modelled.
- CryptoService.GenerateWalletAddress: an id such as `constructor` would find a prototype member of the address object in the source. The model treats every unknown id as unsupported.
- `calculateCryptoAmount`, `cryptoAmount`, `qrCode` and `toFixed(8)` are not modelled (floating-point division and formatting). Payment amounts are `real`.
- The crypto payment object is shared between the service's map and `$currentPayment`, so a timer's status change shows without a status check. The model keeps them as separate values.
- CryptoStore.Reduce: in the source nothing consumes the `createPaymentRequest` and `checkPaymentStatus` events (apps/crypto-payment/src/store/paymentStore.ts:9-10). The only `sample` is for `selectCryptoCurrency` (lines 63-68), so raising either event starts no effect. The model has no such link either: the three effects are taken as started from outside (`Started`), followed by their outcome events.
- ProductForm: `parseInt`/`parseFloat` on the number inputs and their NaN outcomes are not modelled. Inputs deliver whole numbers, and `priceCents` and `stock` are integers.
- CryptoPaymentForm: the amount input's `parseFloat(...) \|\| 0` is taken as delivering a number.
- AdyenService.CreatePaymentRequest: the `Math.round(amount * 100)` conversion is a parameter (`minorAmount`), because it is floating-point arithmetic.
- AdyenService.CreatePaymentRequest: `generatePaymentReference` is a parameter, because it uses the clock and randomness.
- `formatAmount` (Intl currency formatting in the Adyen service) is not modelled.
- The opaque `action` and `additionalData` fields of the Adyen response are not modelled.
