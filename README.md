# POS admin screens, modelled in Dafny

This project models the client-side core of a point-of-sale admin front end.
It is a set of React screens over a REST API, and the model covers five parts.

- **Four record screens**: suppliers, categories, users and products. Each keeps a
  page of records, the pagination links and meta, and a modal add/edit form. Each
  also keeps the record being edited and an errors slot. A rejected submit
  replaces the errors only when its response carries a truthy message, and
  otherwise keeps the older errors.
  One class, `ResourceScreens.ResourceScreen`, has a field per state slot and a
  method per handler. The four screens differ only in their `Kind`:
  - the field template;
  - the collection path;
  - whether the pagination meta is renamed to camelCase or stored as the server sent it;
  - the product screen's SKU derivation.
- **The purchase screen**, `PurchaseScreens.PurchaseScreen`. Its form carries
  line items, and `PurchaseItems` models that form as a value. It states what
  each handler does to the form:
  - append a blank row;
  - drop row *i*;
  - parse a control name `items-<i>-<field>` and set one field of one row;
  - compute the total as a left-to-right reduce;
  - build the submitted body.
- **Product SKU derivation** (`ProductSku`): a category prefix, a name prefix and
  a numeric suffix.
- **The pagination bar** (`Pagination`): one target per link, a glyph chosen by
  the label, the highlighted flag, the URL a click hands to the screen, and the
  range text.
- **The Delete visibility rule of the user screen** (`UserRows`): the row's id is
  compared with the id the login screen stored.

The browser, the network and the clock become parameters:

- **JavaScript values.** `JsValues.Value` is undefined, a string or a number.
  Numbers are exact reals, and NaN is `None`. `Number(...)`, `parseInt`, loose
  `!=` against a stored string, and the string methods the screens call are
  written out in `Decimal`, `JsValues` and `JsStrings`.
- **Outside inputs are parameters.** These are the API's answers
  (`ListOutcome`, `MutationOutcome`, `RecordOutcome`), the `window.confirm`
  answer, the random draw of the SKU suffix and today's date.
- **Requests are logged.** Each handler appends every request it issues to a
  `requests` log. This makes "no request is made" a checkable statement.

Several functions are definitions that transcribe one expression of the
source. Their properties are stated by the lemmas and methods that use them,
which the table below lists.

- `Decimal.ParseInt` is `parseInt(s, 10)`, and `Decimal.ParseDecimal` with
  `JsValues.ToNumber` is `Number(v)`.
- `JsValues.Prop` is a property read, and `JsValues.Plus` and `JsValues.Times`
  are `+` and `*` with NaN as `None`.
- `JsValues.LooseEqualsStored` is `==` between a value and the text
  `localStorage.getItem` returns.
- `JsStrings.Contains` is `includes`, and `JsStrings.Upper` is `toUpperCase`
  on ASCII letters.
- `Api.Normalise` is the camelCase meta object of pages/supplier.js:33-40.
  `ResourceScreens.StoredMeta` chooses it or the server's meta by screen.
- `Api.IsTruthy` is the test `error.response?.data?.message`, and
  `Api.ErrorsAfterRejection` is the errors slot after a rejected submit.
- `Pagination.GlyphFor` picks a label's glyph, and `Pagination.RangeOf` with
  `Pagination.RangeText` builds the "Showing ... results" line.
- `PurchaseItems.InitialForm` is the purchase form's initial state.
  `PurchaseItems.SeedRow` and `PurchaseItems.EditForm` build the form that
  Edit fills from a fetched purchase.
- `PurchaseItems.Amount` is `item.quantity * item.unit_price`, and
  `PurchaseItems.Total` is the reduce of `calculateTotal`, via `TotalFrom`.
- `PurchaseItems.WithoutItem` is the `filter` of `handleRemoveItem`.
- `PurchaseItems.ItemsTarget` is the `split("-")` and `parseInt` of
  `handleFormChange`.
- `ResourceScreens.EmptyForm` and `ResourceScreens.SeededForm` are the Add and
  Edit forms built from a screen's field template.
- `UserRows.StoredUserId` is the text that `JSON.stringify` stores at login.
  `UserRows.OffersDelete` is the Delete visibility test of the user rows.

## Model

| member | source | states |
|---|---|---|
| Decimal.NatText | pages/product.js:128-130 | the decimal text of a whole number is non-empty, all digits, with no leading zero |
| Decimal.NatTextValue | pages/product.js:128-130 | reading the digits of the text of n gives n back |
| Decimal.NatTextLength | pages/product.js:128-130 | the text of n has at most m digits exactly when n < 10^m, so a suffix below 1000 has at most three |
| Decimal.ParseIntOfDigits | pages/purchase.js:119 | `parseInt` of an optional '-' and digits is their signed value |
| Decimal.ParseDecimalOfDigits | pages/purchase.js:155 | `Number` (`ToNumber` through `ParseDecimal`) of an optional '-' and digits is their signed value |
| Decimal.ParseDecimalOfPoint | pages/purchase.js:155 | `Number` of digits '.' digits is the whole part plus the fraction |
| Decimal.IntTextRoundTrip | pages/purchase.js:118-119 | the text of an integer reads back as that integer through both `parseInt` and `Number` |
| JsValues.PlusAssociative | pages/purchase.js:154-155 | regrouping the additions of the reduce does not change the result, NaN included |
| JsValues.PlusCommutative | pages/purchase.js:154-155 | the order of two addends does not matter, NaN included |
| JsStrings.ContainsIffOccurs | components/Pagination.js:33-35 | `includes` (`Contains`, a scan from the front) is true exactly when the text occurs at some offset |
| JsStrings.OccurrenceContained | components/Pagination.js:33-35 | an occurrence at a given offset makes `includes` true |
| JsStrings.AbsentHeadNotContained | components/Pagination.js:33-35 | if the first character of the sought text never appears, `includes` is false |
| JsStrings.Take | pages/product.js:126 | `slice(0, n)` is a prefix of length min(n, length) |
| JsStrings.IndexOf | pages/purchase.js:118 | the first separator position, or the length when there is none |
| JsStrings.Split | pages/purchase.js:118 | `split` gives at least one piece |
| JsStrings.SplitJoined | pages/purchase.js:118 | splitting a separator-free piece, the separator and a rest gives the piece and then the rest's pieces |
| JsStrings.SplitFree | pages/purchase.js:118 | a text without the separator splits into itself alone |
| Pagination.Targets | components/Pagination.js:21-41 | one target per link, in order; each has the link's URL, is highlighted iff the link is active, and has the glyph of its label |
| Pagination.Dispatched | components/Pagination.js:25-28 | each click calls the page handler exactly once with the clicked link's URL, null not filtered |
| Pagination.GlyphClassification | components/Pagination.js:33-39 | `GlyphFor` gives the right chevron iff the label holds "Next", the left chevron iff it holds "Previous" and not "Next", and otherwise the label verbatim |
| Pagination.PreviousLabel | components/Pagination.js:35-36 | the paginator's "&laquo; Previous" label shows a left chevron |
| Pagination.NextLabel | components/Pagination.js:33-34 | the "Next &raquo;" label shows a right chevron |
| Pagination.PageNumberLabel | components/Pagination.js:37-38 | a page-number label is shown as it is |
| Pagination.RangeTextOfServerMeta | components/Pagination.js:10-14 | `RangeText` shows from, to and total in that order, the same for renamed and unrenamed meta |
| ProductSku.FindById | pages/product.js:124-125 | `find` gives the first record with a strictly equal id, and nothing iff no id is equal |
| ProductSku.CategoryPrefix | pages/product.js:123-127 | the category prefix has one to three characters |
| ProductSku.CategoryPrefixCases | pages/product.js:123-127 | the prefix is "GEN" when no id matches; otherwise it is the first match's name, cut to three and upper-cased, or "GEN" when that name is missing or empty |
| ProductSku.PrefixFromApiRecords | pages/product.js:125-126 | records that carry their name only under `attributes` always give "GEN" |
| ProductSku.PrefixFromSelectedText | pages/product.js:125 | a category id chosen as text never strictly equals a numeric record id, so the prefix is "GEN" |
| ProductSku.GenerateSku | pages/product.js:121-131 | the SKU has at most 11 characters |
| ProductSku.SkuSuffixReadsBack | pages/product.js:128-130 | the last dash piece of the SKU is the suffix's text, one to three digits, and `parseInt` of it is the drawn number |
| ProductSku.SkuPieces | pages/product.js:128-130 | when neither prefix holds a dash, the SKU splits into the category prefix, the upper-cased name prefix and the suffix |
| ProductSku.ChangedProductForm | pages/product.js:107-119 | the changed field takes the text; a change of name or category_id regenerates SKU from the new form; any other change leaves SKU and all other fields alone |
| PurchaseItems.BlankRowAmount | pages/purchase.js:139-143 | a blank row's `Amount`, `"" * ""`, is 0 |
| PurchaseItems.TotalIsSum | pages/purchase.js:153-157 | `Total`, the left-to-right reduce from 0 (`TotalFrom`), equals the sum of quantity times unit price over the rows, and is 0 for no rows |
| PurchaseItems.SumDefined | pages/purchase.js:153-157 | the total is a number exactly when every row's amount is |
| PurchaseItems.SumAppend | pages/purchase.js:153-157 | the sum over two runs of rows is the sum of their sums |
| PurchaseItems.WithBlankRow | pages/purchase.js:134-146 | adding an item appends exactly one blank row and keeps the earlier rows and the top-level fields |
| PurchaseItems.AddItemKeepsTotal | pages/purchase.js:134-157 | adding an item does not change the total |
| PurchaseItems.RemoveItemRows | pages/purchase.js:148-151 | `WithoutItem` (the `filter` on i !== index) drops exactly row i and keeps the others in order, one row fewer; the last row can go; any other index keeps every row |
| PurchaseItems.RemoveItemTotal | pages/purchase.js:148-157 | the total after a removal, plus the removed row's amount, is the total before |
| PurchaseItems.AfterChange | pages/purchase.js:115-132 | an items name sets the parsed field of the parsed row and keeps the row count, the other rows and the top level; any other name sets that top-level field only |
| PurchaseItems.ItemNameParts | pages/purchase.js:118 | the name `items-<i>-<field>` splits into "items", the index text and the field |
| PurchaseItems.ItemsTargetOfItemName | pages/purchase.js:118-119 | `ItemsTarget` of row i's control name for a field is index i and that field: `split` and `parseInt` undo the name |
| PurchaseItems.ChangeOfRenderedControl | pages/purchase.js:115-125 | a change from row i's control for a field sets exactly that field of row i, and nothing else changes |
| PurchaseItems.Payload | pages/purchase.js:163-172 | the body is the form with its rows and a total_amount equal to the displayed total and to the sum of the rows |
| PurchaseItems.SeedItems | pages/purchase.js:97-101 | the rows are seeded one per fetched item, in the same order and number |
| PurchaseItems.FilledRowAmount | pages/purchase.js:155 | a filled row's `Amount` is `Number(quantity) * Number(unit_price)` |
| PurchaseItems.TwoRowTotal | pages/purchase.js:153-157 | rows 2 x "10.00" and 1 x "5.50" total 25.5 |
| PurchaseScreens.PurchaseScreen.constructor | pages/purchase.js:11-30 | the mounted screen has empty lists, no meta, a closed modal in add mode, the initial form and no errors |
| PurchaseScreens.PurchaseScreen.FetchList | pages/purchase.js:38-47 | one GET of the URL as given, null included; a response (always with its meta) replaces records, links and unrenamed meta together; a failure keeps them |
| PurchaseScreens.PurchaseScreen.FetchSuppliers | pages/purchase.js:49-56 | one GET of "/suppliers"; the records become the supplier choices, which a failure keeps |
| PurchaseScreens.PurchaseScreen.FetchProducts | pages/purchase.js:58-65 | one GET of "/products"; the records become the product choices, which a failure keeps |
| PurchaseScreens.PurchaseScreen.Mount | pages/purchase.js:32-36 | the list, the suppliers and the products are requested in that order |
| PurchaseScreens.PurchaseScreen.OpenAdd | pages/purchase.js:67-82 | empty supplier, one blank row, no errors, add mode, modal open; no request |
| PurchaseScreens.PurchaseScreen.OpenEdit | pages/purchase.js:84-113 | one GET of that purchase; a fetched record seeds the form row by row and becomes current, with no errors, edit mode and an open modal; a failure leaves modal, mode and form as they were |
| PurchaseScreens.PurchaseScreen.FormChange | pages/purchase.js:115-132 | the form becomes `AfterChange` of the old form; nothing else changes |
| PurchaseScreens.PurchaseScreen.AddItem | pages/purchase.js:134-146 | the form gets one blank row at the end; nothing else changes |
| PurchaseScreens.PurchaseScreen.RemoveItem | pages/purchase.js:148-151 | the rows become those other than the one at the index; nothing else changes |
| PurchaseScreens.PurchaseScreen.Close | pages/purchase.js:216 | only the modal closes; the current purchase is kept |
| PurchaseScreens.PurchaseScreen.Submit | pages/purchase.js:159-191 | a PUT to the current purchase in edit mode, else a POST, of the form with its total; accepted: modal closed, errors cleared, first page fetched; rejected: errors replaced by the message when it `IsTruthy` and kept otherwise, modal and list kept |
| PurchaseScreens.PurchaseScreen.DeleteClick | pages/purchase.js:420-423 | as written, the Delete button changes nothing and sends no request |
| PurchaseScreens.PurchaseScreen.DeletePurchase | pages/purchase.js:420-423 | corrected: nothing without confirmation; otherwise a DELETE of the purchase, then the first page when accepted |
| PurchaseScreens.DeleteRequestsCompared | pages/purchase.js:420-423 | a confirmed Delete sends no request as written and the DELETE with its reload as intended |
| ResourceScreens.Templates | pages/product.js:17-23 | the templates: supplier name/contact_info/address, category name/description, user name/email, product name/SKU/price/initial_stock_quantity/category_id |
| ResourceScreens.ResourceScreen.constructor | pages/supplier.js:11-22 | the mounted screen has empty lists, no meta, a closed modal in add mode, the empty template and no errors |
| ResourceScreens.ResourceScreen.FetchList | pages/supplier.js:28-44 | one GET of the URL; a response (always with its meta) replaces records, links and meta together, the meta renamed except on the product screen; a failure keeps all three |
| ResourceScreens.ResourceScreen.FetchCategories | pages/product.js:43-51 | one GET of "/categories"; the records become the category choices, which a failure keeps |
| ResourceScreens.ResourceScreen.Mount | pages/product.js:27-30 | the first page is requested, then the categories on the product screen |
| ResourceScreens.ResourceScreen.PageClick | pages/supplier.js:46-50 | a null or empty URL issues no request and changes nothing; any other URL is fetched as it is |
| ResourceScreens.ResourceScreen.OpenAdd | pages/supplier.js:52-57 | the empty template, no errors, add mode, modal open; no request |
| ResourceScreens.ResourceScreen.OpenEdit | pages/supplier.js:59-69 | the template seeded from the record, the record current, no errors, edit mode, modal open |
| ResourceScreens.ResourceScreen.Close | pages/supplier.js:87-90 | the modal closes and the current record is dropped; the form, the mode and the errors stay |
| ResourceScreens.ResourceScreen.FormChange | pages/supplier.js:92-94 | exactly the named field is set, and on the product screen the SKU follows `ChangedProductForm` |
| ResourceScreens.ResourceScreen.Submit | pages/supplier.js:96-116 | a PUT to the current record in edit mode, else a POST; accepted: modal closed, errors cleared, first page fetched; rejected: errors replaced by the message when it `IsTruthy` and kept otherwise, modal and list kept |
| ResourceScreens.ResourceScreen.DeleteRow | pages/supplier.js:71-85 | a declined confirm makes no request and changes nothing; a confirmed one sends the DELETE and fetches the first page when accepted; a failed delete keeps the list |
| UserRows.Escape | pages/login.js:17 | the escaped text is at least as long as the original |
| UserRows.UnescapeEscape | pages/login.js:17 | unescaping what `JSON.stringify` escaped gives the text back |
| UserRows.ParseStoredIdRoundTrip | pages/login.js:17 | parsing `StoredUserId`, the `JSON.stringify` of a text or whole-number id, gives the id back |
| UserRows.NumericIdsHideOnlySelf | pages/user.js:247-248 | with numeric ids, `OffersDelete` (loose `!=` against the stored text, `LooseEqualsStored`) holds on a row iff it is not the logged-in user's |
| UserRows.TextIdsOfferSelfDelete | pages/user.js:247-248 | with text ids, Delete is offered on the logged-in user's own row |
| UserRows.SelfDeleteOfferedForTextSeven | pages/user.js:247-248 | the user with id "7" has stored "\"7\"" and sees Delete on their own row |
| UserRows.IntendedHidesExactlySelf | pages/user.js:247-248 | corrected: comparing with the parsed stored id offers Delete iff the row is not the logged-in user's, for text and numeric ids |

## Left out

- utils/api.js is not part of this model. The axios wrapper, its token header and its redirect on 401 are replaced by the outcome parameters.
- pages/login.js is not otherwise part of this model, and neither are pages/register.js, pages/dashboard.js, pages/_app.js, components/Navbar.js and components/Modal.js. The model keeps only the id that login stores.
- Asynchronous ordering is not modelled. Handlers run to completion one at a time, and a reload after submit or delete is applied at once. Stale responses that overwrite newer state are not modelled.
- Toasts, `console` logging, JSX markup and CSS are not modelled. The view is modelled only as the pagination targets and the Delete visibility rule.
- `toFixed(2)` is not modelled. The total is modelled exactly; its two-decimal text shown by the modal and sent as `total_amount` is not.
- `toLocaleDateString` is not modelled, and neither is `new Date().toISOString().slice(0, 10)`. Today's date is a parameter.
- `Math.random` is replaced by a suffix parameter below 1000.
- Numbers are modelled as exact reals, not IEEE doubles, so rounding of sums such as 0.1 + 0.2 is not modelled.
- `Number(...)` is modelled on plain decimal text only: optional sign, digits, optional fraction. Leading or trailing white space, exponents, hex, "Infinity" and a bare "." are NaN in the model.
- `parseInt` is modelled without skipping leading white space.
- JsStrings.Upper: `toUpperCase` is modelled on ASCII letters only, and every other character is kept as it is. JavaScript can also change the length, as "ß" becomes "SS"; the model's mapping keeps it.
- JsStrings.Take: Dafny strings are sequences of Unicode scalar values, while `slice(0, 3)` counts UTF-16 code units. `Take`, and so `ProductSku.GenerateSku`, differ from the source on names and category names with characters outside the Basic Multilingual Plane.
- `JsValues.Value` has no null and no boolean. An API attribute that is JSON null is not modelled, so neither is `Number(null)` being 0 inside `quantity * unit_price`.
- ResourceScreens.ResourceScreen.FetchList and PurchaseScreens.PurchaseScreen.FetchList assume a list response always carries `meta`. In the source a response without it sets the list, then throws reading `meta.links` and lands in the catch, leaving the links and meta as they were; the model does not capture that partial update.
- Meta fields are modelled as integers, so a null `from`/`to` on an empty page is not modelled.
- PurchaseItems.AfterChange: an index at or past the end of the rows leaves the rows unchanged. In JavaScript an index equal to the row count appends a partial row holding only the changed field, which the form would render and which makes the total NaN; a larger index also leaves holes. The form renders controls only for existing rows, so no rendered control produces such an index.
- PurchaseItems.AfterChange: a negative or NaN index is modelled as no change to the rows. JavaScript adds a non-index property instead, which `map` and the JSON body ignore.
- ProductSku.ChangedProductForm: a `category_id` change requires the form's name to be text. The source calls `name.slice` and would throw a TypeError otherwise.
- ResourceScreens.ResourceScreen.Submit requires the modal to be open, because the form and its submit button are rendered only inside the open modal.
- UserRows.StoredUserId is modelled only for text ids and whole-number ids. The stringification of fractional numbers is not modelled.
- UserRows.Escape escapes only '"' and '\'. Control characters, which `JSON.stringify` also escapes, are not modelled.
- The user screen's unused `deleteUserId` state slot is not modelled.
- The purchase list's display columns are not modelled: supplier name, formatted date and total.

## Findings

| source | as written | input that shows it | evidently intended | confidence | as-written member | corrected member |
|---|---|---|---|---|---|---|
| pages/purchase.js:420-423 | the Delete button calls `handleDeletePurchaseClick`, which the screen never defines, so the click throws a ReferenceError and nothing is deleted | any click on a row's Delete, confirmed or not | a confirm, then a DELETE of `/purchases/{id}` and a reload, as on the other screens | high, not executed | PurchaseScreens.PurchaseScreen.DeleteClick | PurchaseScreens.PurchaseScreen.DeletePurchase |
| pages/user.js:247-248 | `user.id != localStorage.getItem("user_id")` compares the id with `JSON.stringify(id)`, which keeps the quotes around a text id | the logged-in user with id "7": the stored text is "\"7\"", and the own row offers Delete | compare with `JSON.parse` of the stored text, so that only the own row is hidden | medium (numeric ids work), not executed | UserRows.TextIdsOfferSelfDelete | UserRows.IntendedHidesExactlySelf |
