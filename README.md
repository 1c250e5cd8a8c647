# Express-POS sale arithmetic and state transitions, in Dafny

This project models the logic of the Express-POS admin front end (a React
point-of-sale storefront):

- the live sale cart of `Receipt.js`: deleting lines, the +1/−1 quantity buttons
  with their floor of 1, and the subtotal/tax/total footer;
- the reprint of a stored order in `PrintableReceipt.js`: the order and name
  lookups, and the subtotal/tax/total recomputed from the order's own prices;
- the store reducer `userReducer` of `storeContext.js`, one case per action type;
- the data rules of the product form in `ProductModal.js`: the default product,
  adding and deleting price tiers, the required-field rule and the "skip update
  when unchanged" decision.

Money is integer cents and a tax rate is a whole number of basis points
(0.12 is 1200); a cent amount times a rate is then in 1/10000 cents, and the
two-decimal display (`toFixed(2)`) is modelled as round half up to the cent
(`Money.RoundToCents`). JavaScript objects whose fields may be missing are
datatypes with `Option` fields; where the code reads a property of `undefined`
and would throw, the model returns `TypeError`.

Modules (one file each): `Optional` (Option, Result), `Seqs` (`filter`, `map`,
`findIndex`, `find` and their laws), `Money`, `Entities` (products, price tiers,
categories, tax setting, orders), `Receipt`, `PrintableReceipt`,
`StoreContext`, `ProductModal`.

The live cart is a class, `Receipt.Cart`, whose `products` field is updated in
place by `AddRemoveProduct`, as the component's `map` callback updates the
existing line objects. The line amount `count * price` of `ReceiptItem` is
`Receipt.Amount`; the subtotal `reduce` is `Receipt.Subtotal`. The form's
`product` state is the class `ProductModal.Form`; `deletePrice`'s copy-and-splice
is the array method `ProductModal.WithoutPriceAt`.

The code has no discount calculation anywhere; `Receipt.js` adds the tax to the total
whether or not `tax.enable` is set (the flag only hides the subtotal and tax
rows); the reprint looks names up without any fallback for a deleted product;
and the reprint shows subtotal and tax only when the tax is non-zero.

## Model

| member | source | states |
|---|---|---|
| `Money.RoundToCents` | front/src/pages/modules/components/Receipt.js:78-88 | `toFixed(2)` as round half up: the result is within half a cent of the amount, ties going up |
| `Money.RoundAddWholeCents` | front/src/pages/modules/components/sale/PrintableReceipt.js:14 | adding whole cents before rounding adds them to the rounded value, so total rounds to subtotal plus rounded tax |
| `Receipt.Amount` | front/src/pages/modules/components/Receipt.js:225 | a line's amount is zero exactly when its count or price is, and at least the unit price for a count of 1 or more |
| `Receipt.Subtotal` | front/src/pages/modules/components/Receipt.js:78-80 | the `reduce` sum is zero for an empty cart and no line's amount exceeds it |
| `Receipt.SubtotalAppend` | front/src/pages/modules/components/Receipt.js:78-80 | the subtotal of two carts put together is the sum of their subtotals |
| `Receipt.SubtotalWithout` | front/src/pages/modules/components/Receipt.js:78-80 | the subtotal is Σ count × price over all lines: taking out any one line removes exactly its amount |
| `Receipt.CalcTax` | front/src/pages/modules/components/Receipt.js:82-84 | the tax is rate × subtotal rounded to the nearest cent (ties up), and zero for a zero rate or an empty cart |
| `Receipt.CalcTotal` | front/src/pages/modules/components/Receipt.js:86-88 | rounded subtotal + rounded tax equals the exact subtotal × (1 + rate) rounded once, and is at least the subtotal |
| `Receipt.FooterOf` | front/src/pages/modules/components/Receipt.js:128-174 | subtotal and tax rows exist exactly when tax is enabled; the total row is always subtotal + tax |
| `Receipt.TotalIgnoresEnable` | front/src/pages/modules/components/Receipt.js:86-88 | the total is the same with tax enabled or disabled, and even when disabled it exceeds the subtotal whenever the unrounded tax is at least half a cent |
| `Receipt.MockFooter` | front/src/pages/modules/components/Receipt.js:26-52 | the initial cart at 12% shows 29.80, 3.58 and 33.38 |
| `Receipt.WithoutLine` | front/src/pages/modules/components/Receipt.js:56 | the filtered cart is no longer than the cart and holds only lines of the cart with another id |
| `Receipt.DeleteLineSpec` | front/src/pages/modules/components/Receipt.js:55-58 | `deleteProduct` keeps exactly the lines with another id, in their order; an absent id changes nothing; it is idempotent |
| `Receipt.DeleteLowersSubtotal` | front/src/pages/modules/components/Receipt.js:55-58 | deleting a product lowers the subtotal by exactly the amounts of its lines |
| `Receipt.Base` | front/src/pages/modules/components/Receipt.js:61-64 | the step is −1 exactly for `'remove'`, else +1 |
| `Receipt.StepLine` | front/src/pages/modules/components/Receipt.js:65-74 | a line with another id is returned as is; a matching line's count moves by the step unless it would fall below 1; id, name and price never change |
| `Receipt.StepAll` | front/src/pages/modules/components/Receipt.js:65-75 | the mapped cart has the same length, and each position keeps its id, name and price |
| `Receipt.AddIncrements` | front/src/pages/modules/components/Receipt.js:60-75 | any action other than `'remove'` adds 1 to every line with the id; other lines, the length and the order are unchanged |
| `Receipt.RemoveDecrements` | front/src/pages/modules/components/Receipt.js:60-75 | `'remove'` subtracts 1 from matching lines with count ≥ 2; a line at count 1 stays, unremoved |
| `Receipt.StepKeepsCountsPositive` | front/src/pages/modules/components/Receipt.js:65-74 | if every count is ≥ 1 before, every count is ≥ 1 after |
| `Receipt.AddRaisesSubtotal` | front/src/pages/modules/components/Receipt.js:60-80 | `'add'` raises the subtotal by the sum of the unit prices of the matching lines |
| `Receipt.Cart.constructor` | front/src/pages/modules/components/Receipt.js:47-52 | the cart starts as the three mock lines with a 12% enabled tax |
| `Receipt.Cart.DeleteProduct` | front/src/pages/modules/components/Receipt.js:55-58 | the cart becomes the filtered lines |
| `Receipt.Cart.AddRemoveProduct` | front/src/pages/modules/components/Receipt.js:60-76 | updating the lines one position at a time yields the mapped cart |
| `PrintableReceipt.FindOrder` | front/src/pages/modules/components/sale/PrintableReceipt.js:11 | the order shown is the first with the requested id (a match is required) |
| `PrintableReceipt.ProductName` | front/src/pages/modules/components/sale/PrintableReceipt.js:75 | the name is that of the first catalog product with the line's product id (a match is required) |
| `PrintableReceipt.OrderSubtotal` | front/src/pages/modules/components/sale/PrintableReceipt.js:12 | the `reduce` sum of price × count is zero for an empty order and no entry's amount exceeds it |
| `PrintableReceipt.OrderTax` | front/src/pages/modules/components/sale/PrintableReceipt.js:13 | the tax is zero exactly when the rate or the subtotal is zero, else subtotal × rate |
| `PrintableReceipt.OrderTotal` | front/src/pages/modules/components/sale/PrintableReceipt.js:14 | the displayed total is the subtotal plus the displayed tax |
| `PrintableReceipt.PrintItem` | front/src/pages/modules/components/sale/PrintableReceipt.js:73-88 | an item's amount is count × price, both taken from the order entry |
| `PrintableReceipt.PrintItems` | front/src/pages/modules/components/sale/PrintableReceipt.js:34-36 | one printed item per order entry, in order |
| `PrintableReceipt.Print` | front/src/pages/modules/components/sale/PrintableReceipt.js:8-71 | subtotal and tax rows are shown iff the tax is non-zero; the total row always; all figures, the payment type and the date come from the order, the store name from the state |
| `PrintableReceipt.ProductNameSameIds` | front/src/pages/modules/components/sale/PrintableReceipt.js:75 | catalogs that agree on ids and names resolve every name alike |
| `PrintableReceipt.CatalogPricesIrrelevant` | front/src/pages/modules/components/sale/PrintableReceipt.js:12-14 | editing prices (or anything but ids and names) in the catalog leaves the whole printout unchanged |
| `PrintableReceipt.TotalsIndependentOfCatalog` | front/src/pages/modules/components/sale/PrintableReceipt.js:12-14 | the printed subtotal, tax and total are the same for any catalog |
| `PrintableReceipt.OrderLinesOf` | front/src/pages/modules/components/sale/PrintableReceipt.js:12 | the order entries assumed for a cart: one per line, in order, with its id, unit price and count (the shown code never stores an order; the Save button has no handler) |
| `PrintableReceipt.ReprintMatchesLiveReceipt` | front/src/pages/modules/components/sale/PrintableReceipt.js:12-14 | an order whose entries are assumed to be the cart's lines (`OrderLinesOf`) reprints the live receipt's subtotal, tax and total |
| `StoreContext.Reduce` | front/src/context/storeContext.js:25-54 | per action: sign-in/up marks the payload authenticated, sign-out empties, each store case changes one field and nothing else, errors exactly when a read hits `undefined`, unknown actions return the state |
| `StoreContext.ReduceIntended` | front/src/context/storeContext.js:39-40 | the corrected `DELETE_CATEGORY` filters the store's own categories; every other action agrees with `Reduce` |
| `StoreContext.Spread` | front/src/context/storeContext.js:40-42 | `{...state.store}` is the store itself, or an empty store when there is none (which is why `UPDATE_TAX` succeeds on `{}`) |
| `StoreContext.WithoutProduct` | front/src/context/storeContext.js:38 | the filtered products are no more than before and are products of the store with another id (`DeleteProductSpec` proves the converse and idempotence) |
| `StoreContext.WithoutCategory` | front/src/context/storeContext.js:40 | the filtered categories are no more than before and are ones of the list with another id (`DeleteCategoryIntendedSpec` proves the converse and idempotence) |
| `StoreContext.Replaced` | front/src/context/storeContext.js:44-49 | the mapped products keep their length, with the payload at every position whose product has its id and the others kept |
| `StoreContext.DeleteProductSpec` | front/src/context/storeContext.js:37-38 | `DELETE_PRODUCT` keeps exactly the products with another id and is idempotent |
| `StoreContext.DeleteAbsentProduct` | front/src/context/storeContext.js:38 | deleting an id no product has leaves the state unchanged |
| `StoreContext.UpdateProductSpec` | front/src/context/storeContext.js:43-50 | `UPDATE_PRODUCT` keeps length and order, replaces every product with the payload's id, leaves the others |
| `StoreContext.UpdateProductUnchanged` | front/src/context/storeContext.js:43-50 | an update whose payload already equals every product with its id changes nothing |
| `StoreContext.AfterSignOut` | front/src/context/storeContext.js:31-42 | after sign-out every product or category action throws and `UPDATE_TAX` builds a store with the tax alone |
| `StoreContext.DeleteCategoryDefect` | front/src/context/storeContext.js:40 | a store with one category and no top-level `categories`: as written the deletion throws, intended it removes the category |
| `StoreContext.DeleteCategoryIgnoresStoreCategories` | front/src/context/storeContext.js:40 | as written, the store's categories have no influence on the result of `DELETE_CATEGORY` |
| `StoreContext.DeleteCategoryIntendedSpec` | front/src/context/storeContext.js:39-40 | the corrected deletion keeps exactly the other categories and is idempotent |
| `ProductModal.Initial` | front/src/pages/modules/components/dashboard/product/ProductModal.js:30-48 | the form starts from the edited product, else from an unsaved enabled product with exactly one empty price tier |
| `ProductModal.WithNewPrice` | front/src/pages/modules/components/dashboard/product/ProductModal.js:54-56 | `addNewPrice` appends exactly one empty tier and keeps every other field of the values |
| `ProductModal.SpliceStart` | front/src/pages/modules/components/dashboard/product/ProductModal.js:60 | `splice`'s start: the index itself when in range, counted from the end when negative, the length past the end (so nothing is deleted) and 0 below minus the length |
| `ProductModal.Spliced` | front/src/pages/modules/components/dashboard/product/ProductModal.js:59-60 | `splice(idx, 1)` removes one tier when the start is inside the list and none when it is past the end; no tier is added |
| `ProductModal.WithoutPriceAt` | front/src/pages/modules/components/dashboard/product/ProductModal.js:58-62 | the copy-and-splice of tiers yields the list with the tier at the splice start removed |
| `ProductModal.SplicedRemovesOne` | front/src/pages/modules/components/dashboard/product/ProductModal.js:58-62 | deleting tier `idx` shortens the list by one, keeps the others in order and loses exactly that tier |
| `ProductModal.OfferedDeletionKeepsFirstTier` | front/src/pages/modules/components/dashboard/product/ProductModal.js:235-246 | deletion is offered only after the first tier, so the first tier stays and the list stays non-empty |
| `ProductModal.Validate` | front/src/pages/modules/components/dashboard/product/ProductModal.js:118-130 | "Required" is set for name, count and cost exactly when falsy (so count 0 is rejected); no other key, prices unchecked |
| `ProductModal.ConfirmDecision` | front/src/pages/modules/components/dashboard/product/ProductModal.js:71-105 | a new product is created exactly when none is being edited; a skipped edit is in the store and one absent from the store is updated (`UnchangedIsSkipped` and `ChangedIsUpdated` settle the rest by the first product with its id) |
| `ProductModal.SkipIsSafe` | front/src/pages/modules/components/dashboard/product/ProductModal.js:72-90 | with unique ids, a skipped edit is one whose `UPDATE_PRODUCT`, as the reducer is written, would not have changed the state |
| `ProductModal.UnchangedIsSkipped` | front/src/pages/modules/components/dashboard/product/ProductModal.js:72-90 | an edit equal to the store's first product with its id is skipped |
| `ProductModal.ChangedIsUpdated` | front/src/pages/modules/components/dashboard/product/ProductModal.js:72-90 | an edit differing from the store's first product with its id is sent as an update |
| `ProductModal.Form.constructor` | front/src/pages/modules/components/dashboard/product/ProductModal.js:42-48 | the form state starts as the initial product |
| `ProductModal.Form.AddNewPrice` | front/src/pages/modules/components/dashboard/product/ProductModal.js:54-56 | the state becomes the given values with one tier appended |
| `ProductModal.Form.DeletePrice` | front/src/pages/modules/components/dashboard/product/ProductModal.js:58-62 | the stored product loses the tier at `idx`; nothing else of it changes |
| `ProductModal.Form.HandleImageUpload` | front/src/pages/modules/components/dashboard/product/ProductModal.js:107-109 | only the thumbnail changes |
| `ProductModal.Form.HandleCancel` | front/src/pages/modules/components/dashboard/product/ProductModal.js:64-69 | the state is reset to the initial product |

## Findings

| source | as written | input that shows it | evidently intended | confidence | as-written member | corrected member |
|---|---|---|---|---|---|---|
| front/src/context/storeContext.js:40 | `DELETE_CATEGORY` filters the top-level `state.categories` into `store.categories` | a state whose store holds categories and which has no top-level `categories` (no case other than `SIGN_IN`/`SIGN_UP`, which copy the server's payload, writes a top-level `categories`; whether that payload carries one is not shown): the deletion throws a TypeError | filter `state.store.categories`, as `ADD_CATEGORY` on line 36 reads it | high (not executed) | `StoreContext.DeleteCategoryDefect` | `StoreContext.ReduceIntended` |

## Left out

- Rendering, JSX, localisation, toasts, Material-UI and Formik plumbing, and the layout files (`AppAppBar.js`, `Dashboard.js`).
- The action creators of `storeContext.js` (`signUp`, `signIn`, `tokenAuth`, `signOut`, `deleteProduct`, `addCategory`, `deleteCategory`, `updateTax`, `updateProduct`, `addProduct`): HTTP calls, `localStorage` and callbacks (`deleteCategory` is a plain dispatch); the dispatched actions are modelled through `StoreContext.Reduce`. `addProduct`'s `Math.random()` id is not modelled.
- `createDataContext` and the services module are not part of this model; `ProductModal.js` reads `storeState` and `createProduct` from that context, and the model takes `storeState.products` as a parameter.
- `userService.js` (an HTTP client) and `LowerCaseTextField.js` (lower-casing a field through Formik).
- Floating point: amounts are exact cents and rates whole basis points; the binary-double behaviour of `toFixed` (and of sums such as 12.45 + 8.45 + 8.90) is replaced by exact arithmetic with round half up.
- `Receipt.Cart.AddRemoveProduct`: the JavaScript mutates line objects shared with the previous state array, so the old array sees the new counts too; the model updates the cart's own sequence and does not model that aliasing.
- JavaScript dynamic typing: action payloads and store fields have fixed types; a store field present with a value of the wrong type, NaN, and `null` versus `undefined` are not distinguished.
- `ProductModal.ConfirmDecision`: `JSON.stringify` equality is modelled as value equality, so two equal products whose keys are in a different order (which the code would update) are treated as unchanged.
- `PrintableReceipt.FindOrder` and `PrintableReceipt.ProductName`: a missing order or product, on which the component throws, is excluded by precondition rather than modelled.
- The display of the tax percentage (`rate * 100`), dates (`toLocaleString`) and the store name beyond carrying it into the printout.
- There is no discount calculation and no fallback name for a product missing from the catalog in the code, so neither is modelled.
