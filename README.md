# Invoice draft and totals

A Dafny model of the `Invoice` React component (`src/Invoice.js`). The user edits an invoice draft: recipient, e-mail, subject, due date, currency, a list of line items and a percentage discount. The user can also enter a coupon code. From this state the component computes a subtotal, a tax total, a discount and a grand total.

The model has four modules:

- `Draft` (`draft.dfy`) covers the draft's data: line items, the `invoiceDetails` record and its initial value. It also holds the pure edits the handlers make: `item[name] = value`, `{...prev, [name]: value}` and `splice(index, 1)`.
- `Totals` (`totals.dfy`) is `calculateTotal`. Its two `reduce` folds are left folds over the rows. Each fold is proved equal to a reference sum defined by structure. The lemmas relate the totals to every row edit, every text edit and the discount edit.
- `Coupon` (`coupon.dfy`) is the coupon rule. `"DISCOUNT100"`, matched exactly, gives a flat discount of 100. Any other code is rejected and leaves the discount unchanged.
- `InvoiceComponent` (`invoice.dfy`) is the component state as the class `Invoice`. Its fields are `details`, `coupon` and `couponDiscount`. There is one method per event handler. Each method has a `modifies` frame naming the one piece of state its setter replaces. The invariant `Valid()` says the coupon discount is always 0 or 100. `Session` replays a sample session through the class: 2 × 50 at 10 % tax, a 10 % discount, a wrong coupon then `DISCOUNT100`, and a removal past the end.

Number inputs hold text, and the component coerces that text to a number where it is used. The model represents a number input's value as `Field = Blank | Num(real)`. `Val(Blank) = 0`, as ECMAScript ToNumber gives for the empty string (section 7.1.4.1.1 of ECMA-262). Amounts are exact reals.

Two edge cases of the code's index handling:

- **Remove past the end.** `removeItem` calls `splice(index, 1)`. With an index past the end this removes nothing and raises no error, so the rows are unchanged. A negative index counts from the end (section 23.1.3.31 of ECMA-262). `RemoveAt` and `NegativeIndexCountsFromEnd` state both cases.
- **Edit out of range.** When `handleItemChange` gets an index that names no row, `items[index]` is `undefined`. Assigning to one of its properties throws before the setter runs. `HandleItemChange` models this by returning `ok = false`, with the state unchanged.

## Model

| member | source | states |
|---|---|---|
| Draft.UpdateItem | src/Invoice.js:36-38 | the named field of the row takes the new value; the description and the other two numeric fields are unchanged |
| Draft.ChangeItem | src/Invoice.js:35-43 | succeeds exactly when the index names a row; the result has the same length, row `index` edited, and every other row unchanged |
| Draft.RemoveAt | src/Invoice.js:60-62 | for an index in range: one row shorter, rows before the index kept in place, rows after it shifted down by one, and the multiset of rows loses exactly the removed row; for an index past the end: the rows are unchanged |
| Draft.UpdateDetails | src/Invoice.js:27-33 | the named top-level field (text field, currency or discount) takes the new value; the items and every other field are unchanged |
| Draft.NegativeIndexCountsFromEnd | src/Invoice.js:60-62 | a negative index `-k` with `k` at most the number of rows removes the row `k` places from the end; a more negative index removes the first row |
| Draft.RemoveThenAdd | src/Invoice.js:45-67 | removing row `i` and then adding a blank row gives the other rows in order followed by the blank row, so the number of rows is unchanged |
| Totals.Reduce | src/Invoice.js:70-77 | the left fold that `reduce` runs equals its start value plus the reference sum of the rows' contributions |
| Totals.CalculateTotal | src/Invoice.js:69-87 | subtotal is the sum of quantity × price; tax is the sum of quantity × price × tax / 100; discount amount is subtotal × discount / 100; total discount adds the coupon; total equals subtotal × (1 − discount/100) + tax − coupon, not clamped |
| Totals.SumAppend | src/Invoice.js:70-77 | the sum over concatenated row lists is the sum of the two sums |
| Totals.SumRemoveAt | src/Invoice.js:60-62 | removing row `i` lowers the sum by exactly that row's contribution |
| Totals.SumPermutation | src/Invoice.js:70-77 | two row lists that are permutations of each other have the same sums |
| Totals.MatchFirst | src/Invoice.js:70-77 | the first row of a list occurs in any permutation of the list, and what remains of the two lists are again permutations |
| Totals.SumNonNegative | src/Invoice.js:70-77 | when every quantity, price and tax is non-negative, each sum is non-negative |
| Totals.SubtotalAndTaxNonNegative | src/Invoice.js:69-77 | with no negative quantity, price or tax, subtotal and tax total are non-negative |
| Totals.TotalsIgnoreOrder | src/Invoice.js:69-87 | reordering the rows leaves every figure of the summary unchanged |
| Totals.AddItemKeepsTotals | src/Invoice.js:45-58 | appending a blank row leaves every figure of the summary unchanged |
| Totals.RemoveItemTotals | src/Invoice.js:60-67 | removing row `i` lowers subtotal and tax total by that row's amounts |
| Totals.SumReplace | src/Invoice.js:35-43 | replacing a row changes a sum by the new row's contribution minus the old row's |
| Totals.ChangeItemTotals | src/Invoice.js:35-43 | editing a row changes subtotal and tax by the difference between the old and new row; editing a row's description changes no figure |
| Totals.DiscountEditTotals | src/Invoice.js:27-33 | editing the discount keeps subtotal and tax; the discount amount becomes the new percentage of the subtotal, and the total moves by the difference between the old and new discount amounts |
| Totals.TextEditKeepsTotals | src/Invoice.js:27-33 | editing a text field or the currency changes no figure |
| Totals.TotalCanBeNegative | src/Invoice.js:85 | with the initial draft and the 100 coupon the total is −100: the total is not clamped |
| Totals.ScenarioNoDiscount | src/Invoice.js:69-87 | one row 2 × 50 at 10 % tax, no discount: subtotal 100, tax 10, total 110 |
| Totals.ScenarioDiscountAndCoupon | src/Invoice.js:78-85 | the same row with a 10 % discount: discount 10, total 100; adding the coupon makes the total discount 110 and the total 0 |
| Totals.ScenarioBlankQuantity | src/Invoice.js:71 | a blank quantity contributes 0 to the subtotal |
| Coupon.Resolve | src/Invoice.js:121-125 | a code is accepted exactly when it equals `DISCOUNT100`, and then resolves to 100 |
| Coupon.DiscountAfter | src/Invoice.js:119-126 | the valid code sets the coupon discount to 100; any other code leaves it as it was |
| Coupon.DiscountAfterStaysReachable | src/Invoice.js:25 | a coupon discount of 0 or 100 stays 0 or 100 after any application |
| Coupon.DiscountAfterIdempotent | src/Invoice.js:119-126 | applying the same code twice gives the same discount as applying it once |
| Coupon.DiscountAfterAllFromZero | src/Invoice.js:25 | after any sequence of applications starting from 0, the discount is 100 if the valid code was among them and 0 if it was not |
| Coupon.AppliedStaysApplied | src/Invoice.js:119-126 | once the coupon discount is 100, no later application changes it |
| InvoiceComponent.Invoice.constructor | src/Invoice.js:7-25 | the mounted state: empty text fields, currency INR, one blank row, discount 0, empty coupon text, coupon discount 0 |
| InvoiceComponent.Invoice.Summary | src/Invoice.js:89 | the summary of the current state: subtotal and tax are the sums over the current rows, the total discount is the discount percentage of the subtotal plus the coupon discount, and the total is subtotal plus tax minus total discount |
| InvoiceComponent.Invoice.HandleChange | src/Invoice.js:27-33 | the draft becomes the old draft with the one named field replaced; coupon text and coupon discount are untouched |
| InvoiceComponent.Invoice.HandleItemChange | src/Invoice.js:35-43 | `ok` holds exactly when the index names a row; then only that row's named field changes; otherwise the draft is unchanged |
| InvoiceComponent.Invoice.AddItem | src/Invoice.js:45-58 | the rows become the old rows followed by one blank row; every top-level field and the coupon state are untouched |
| InvoiceComponent.Invoice.RemoveItem | src/Invoice.js:60-67 | the rows become `splice(index, 1)` of the old rows; every top-level field and the coupon state are untouched |
| InvoiceComponent.Invoice.SetCoupon | src/Invoice.js:239-245 | the coupon text becomes the typed code; nothing else changes |
| InvoiceComponent.Invoice.HandleApplyCoupon | src/Invoice.js:119-126 | rejects exactly when the entered code is not `DISCOUNT100`; on rejection the coupon discount is kept, otherwise it becomes 100; the draft is untouched, and the discount stays 0 or 100 |

## Left out

- Rendering: the JSX form, the preview markup and the `toFixed(2)` display formatting (src/Invoice.js:128-326). These are presentation only.
- `handlePDFDownload` (src/Invoice.js:91-107). It makes asynchronous calls into `html2canvas` and `jsPDF` and reads the DOM.
- `handleEmail` and `handlePayment` (src/Invoice.js:109-117). They only show an alert.
- The `alert` in `handleApplyCoupon`. It is modelled as the returned `rejected` flag.
- IEEE-754 floating point. All amounts are exact reals. No rounding of products or sums is modelled.
- Non-numeric text in a number field, which would give NaN. A number input only yields an empty string or a number, and `Field` covers exactly those two. `Val` treats the empty string as 0 and does not model a text parser.
- Non-integer indices to `splice`. Indices come from `map` over the rows and are integers, so the model takes an `int` index.
- React mechanics: `useState` batching, re-render scheduling, and the stale `invoiceDetails` closure inside `handleItemChange` and `removeItem`. Each handler is modelled as running to completion on the current state.
- Aliasing in `handleItemChange`. It writes into a row object that is shared with the previous state's array. The model treats rows as values, so the previous state is not observably changed.
- Top-level fields named anything other than the five text fields and `discount`. The form's inputs produce no other names.
