# BillSplitter — a Dafny model of the bill allocation engine

BillSplitter is a browser form for splitting a restaurant bill. It has a number of
people, a list of line items (each with a price and the people it `belongsTo`),
lists of discounts and extra charges (flat or percentage), and a tax percentage.
When the user submits the form (`calculateBill`), it computes each person's total
before extras and their final total. This project models that engine. It also
models the pure helpers around it: the display names (`sanitizeNames`, the
names `updatePeople` generates) and the operations that edit the form's lists
(`addItem`, `updateItem`, `addDiscount`/`updateDiscount`,
`addExtraCharge`/`updateExtraCharge`, the `belongsTo` checkbox and the running
total of item prices).

Money is Dafny `real`, so all arithmetic is exact.

- `seqmath.dfy` (module `SeqMath`): helpers. A left-to-right `Sum`, occurrence
  `Count`, `Distinct`, and pointwise vectors (`Plus`, `Scale`, `Indicator`,
  `CountVector`) with their sum lemmas.
- `allocation.dfy` (module `Allocation`): `calculateBill`. Specification
  functions give each stage: `Credit`/`BaseTotal`/`BaseTotals` for the per-item
  split, then `Ratio`, `ApplyCharges`, `ApplyDiscounts` and `FinalTotals`. The
  imperative method `CalculateBill` is proved against them. Its stages are
  `SplitItems`, which adds credits in place into an array through `CreditItem`,
  then `ChargeAll` and `DiscountAll`, which replace the running totals once per
  adjustment. The lemmas prove the sum invariant, the common scaling factor,
  the flat and compounding adjustments and one worked example.
- `names.dfy` (module `Names`): JavaScript's `trim` over its own whitespace
  set, the decimal rendering in `Person ${i + 1}`, `sanitizeNames` and the names
  `updatePeople` generates.
- `liststate.dfy` (module `ListState`): the list updates, the checkbox toggle,
  `totalItemsPrice` and the form's initial lists.

`CalculateBill` requires `Computable`, which has two parts:
- Every `belongsTo` index is below `peopleCount`. Otherwise the source writes
  outside the per-person array.
- The bill before extras is nonzero whenever a discount or an extra charge
  exists. Otherwise the source divides by zero (`0/0` in the form's initial
  state: see `ListState.InitialStateNotComputable`).

An item whose `belongsTo` is empty needs no precondition. The source computes
`price / 0` for it but never uses the quotient, and the model adds nothing for it.

Where the code and the prose description of the system differ, the model
follows the code:
- The code has only the equal split over `belongsTo`. There is no `amount`,
  `shares` or `percentage` split method and no per-item validation error, so
  none is modelled.
- The sum of the totals before extras equals the sum of the prices of the
  items assigned to somebody (`BaseTotalsSum`), not of "validated" items.
- Extra charges are applied before discounts, and every ratio is taken against
  the fixed bill before extras, as the code does.

## Model

| member | source | states |
|---|---|---|
| Allocation.CalculateBill | src/pages/billSplitter.jsx:70-111 | On computable input, `baseTotals` are the per-item equal-split totals and `personTotals` are those totals after the charges, the discounts and the tax. Every ratio is taken against the fixed bill before extras. `personTotals` equals `baseTotals` scaled by one common factor. |
| Allocation.SplitItems | src/pages/billSplitter.jsx:72-78 | Starting from an array of zeros, adding every item's split value for each listing in its `belongsTo` yields exactly `BaseTotals(items, peopleCount)`. |
| Allocation.CreditItem | src/pages/billSplitter.jsx:74-77 | The in-place inner loop adds to each person exactly `Credit(item, p)`: the split value once per occurrence of `p`, and nothing for an unassigned item. |
| Allocation.ChargeAll | src/pages/billSplitter.jsx:85-93 | The loop over extra charges grows every total by `total * ratio` per charge, with the ratio against the fixed bill before extras. The result equals `ApplyCharges`. |
| Allocation.DiscountAll | src/pages/billSplitter.jsx:96-104 | The loop over discounts shrinks every total by `total * ratio` per discount. The result equals `ApplyDiscounts`. |
| Allocation.Credit | src/pages/billSplitter.jsx:74-77 | A person who is not listed in the item's `belongsTo` gets nothing from it. |
| Allocation.BaseTotal | src/pages/billSplitter.jsx:72-78 | A person's total before extras is 0 when no item belongs to them. |
| Allocation.BaseTotals | src/pages/billSplitter.jsx:72-78 | `baseTotals` has one entry per person, and the entry of a person no item belongs to is 0. |
| Allocation.Ratio | src/pages/billSplitter.jsx:86-91 | A percentage adjustment has ratio exactly `value/100`, whatever the total. A flat adjustment has ratio times total equal to its value. Defined only for a nonzero total. |
| Allocation.CreditOfItem | src/pages/billSplitter.jsx:74-77 | With a duplicate-free `belongsTo`, an item credits `price/|belongsTo|` to each listed person and 0 to everyone else. An empty `belongsTo` credits nothing. |
| Allocation.ItemCreditsSum | src/pages/billSplitter.jsx:74-77 | One item's credits to the people sum to its price when it belongs to somebody, and to 0 otherwise. |
| Allocation.BaseTotalsSum | src/pages/billSplitter.jsx:72-83 | `totalBillBeforeExtras` (the sum of `baseTotals`) equals the sum of the prices of the items with a non-empty `belongsTo`. |
| Allocation.RepeatedIsProduct | src/pages/billSplitter.jsx:75-77 | Adding the split value once per listing equals the occurrence count times the split value. |
| Allocation.ApplyCharges | src/pages/billSplitter.jsx:85-93 | Applying the extra charges keeps one total per person, and a running total of 0 stays 0. |
| Allocation.ApplyDiscounts | src/pages/billSplitter.jsx:96-104 | Applying the discounts keeps one total per person, and a running total of 0 stays 0. |
| Allocation.FinalTotals | src/pages/billSplitter.jsx:83-108 | The final totals have one entry per person, and a person who owed 0 before extras owes 0 after the charges, the discounts and the tax. |
| Allocation.ChargesAsFactor | src/pages/billSplitter.jsx:85-93 | Applying the extra charges in order equals scaling every total by the product of `1 + ratio`. |
| Allocation.DiscountsAsFactor | src/pages/billSplitter.jsx:96-104 | Applying the discounts in order equals scaling every total by the product of `1 - ratio`. |
| Allocation.ScaleThrice | src/pages/billSplitter.jsx:92-108 | Three successive uniform scalings equal one scaling by the product of the three factors. |
| Allocation.ScalingFactor | src/pages/billSplitter.jsx:83-108 | The final totals are the totals before extras times the single factor Π(1+r_c)·Π(1−r_d)·(1+tax/100). |
| Allocation.CommonFactor | src/pages/billSplitter.jsx:83-108 | The final totals are the totals before extras times the common factor, and the grand total is the bill before extras times that factor. |
| Allocation.SharesPreserved | src/pages/billSplitter.jsx:85-108 | Any two people's final totals keep the proportion of their totals before extras. A person at 0 before extras ends at 0. |
| Allocation.NeutralDiscounts | src/pages/billSplitter.jsx:96-104 | Discounts whose amount is zero leave the discount factor at 1. |
| Allocation.NeutralCharges | src/pages/billSplitter.jsx:85-93 | Extra charges whose amount is zero leave the charge factor at 1. |
| Allocation.SingleFlatCharge | src/pages/billSplitter.jsx:83-93 | One flat extra charge V, no effective discount and zero tax: the grand total is the bill before extras plus V. |
| Allocation.SingleFlatDiscount | src/pages/billSplitter.jsx:96-104 | One flat discount V, no effective extra charge and zero tax: the grand total is the bill before extras minus V. |
| Allocation.CompoundArithmetic | src/pages/billSplitter.jsx:91-92 | Scaling s by (1+v1/s)(1+v2/s) gives s + v1 + v2 + v1·v2/s. |
| Allocation.TwoFlatChargesCompound | src/pages/billSplitter.jsx:85-93 | Two flat extra charges compound rather than add: the grand total is s + v1 + v2 + v1·v2/s. |
| Allocation.PizzaExample | src/pages/billSplitter.jsx:70-111 | Two people share a 100 pizza, with a 20 flat charge, one zero discount and 10% tax. The input is computable, `baseTotals` are [50, 50] and `personTotals` are [66, 66]. |
| Names.IsWhitespace | src/pages/billSplitter.jsx:178-179 | Among printable ASCII characters, only the space counts as whitespace for `trim`. |
| Names.TrimStart | src/pages/billSplitter.jsx:178-179 | Yields a suffix whose dropped prefix is all whitespace and which does not start with whitespace. |
| Names.TrimEnd | src/pages/billSplitter.jsx:178-179 | Yields a prefix whose dropped suffix is all whitespace and which does not end with whitespace. |
| Names.Trim | src/pages/billSplitter.jsx:178-179 | `name.trim()` has no whitespace at either end. It is empty exactly when the name is all whitespace. |
| Names.TrimOfTrimmed | src/pages/billSplitter.jsx:178-179 | Trimming a name without whitespace at its ends returns it unchanged. |
| Names.NatToString | src/pages/billSplitter.jsx:43 | The decimal rendering is non-empty and made only of digits. Read as a decimal number (`DecimalValue`) it denotes `n`, and it starts with `0` only for `n = 0`, so there is no padding. |
| Names.DefaultName | src/pages/billSplitter.jsx:181 | `Person ${i + 1}` starts with `Person `, is longer than that prefix and has no whitespace at either end. |
| Names.SanitizeName | src/pages/billSplitter.jsx:178-181 | The displayed name is never empty or padded. It is `Person {i+1}` when the typed name is empty or all whitespace, and the trimmed name otherwise. |
| Names.SanitizeNames | src/pages/billSplitter.jsx:176-184 | The output has the input's length. Entry i is the trimmed name when that is non-empty and `Person {i+1}` otherwise. No entry is empty or padded. |
| Names.SanitizeIdempotent | src/pages/billSplitter.jsx:176-184 | Sanitising twice gives the same names as sanitising once. |
| Names.DefaultNames | src/pages/billSplitter.jsx:41-44 | `updatePeople(count)` yields exactly `count` names, entry i being `Person {i+1}`. |
| Names.DefaultNamesDistinct | src/pages/billSplitter.jsx:41-44 | The names `updatePeople` generates are pairwise different. |
| Names.SanitizeDefaultNames | src/pages/billSplitter.jsx:39-46 | The names `updatePeople` sets are left unchanged by `sanitizeNames`. |
| ListState.AddItem | src/pages/billSplitter.jsx:22-25 | Appends exactly one `{name: "", price: 0, belongsTo: []}` at the end and keeps every other item. |
| ListState.AddItemChangesNoTotal | src/pages/billSplitter.jsx:22-25 | Adding an item leaves `totalItemsPrice` and every total before extras unchanged. Items stay within the people. |
| ListState.TotalItemsPrice | src/pages/billSplitter.jsx:35 | With no negative price, the total of all item prices is at least the total of the prices of the items assigned to somebody. |
| ListState.Edited | src/pages/billSplitter.jsx:29 | `item[key] = value` sets the edited field to the new value and keeps the other two fields. |
| ListState.UpdateItem | src/pages/billSplitter.jsx:27-31 | Only entry `index` changes, and only under the given key. The length is unchanged. `totalItemsPrice` moves by exactly the change of that item's price. |
| ListState.TotalAfterReplace | src/pages/billSplitter.jsx:35 | Replacing one item changes the sum of prices by the new price minus the old. |
| ListState.AddAdjustment | src/pages/billSplitter.jsx:48-60 | `addDiscount` and `addExtraCharge` append exactly one `{value: 0, isPercentage: false}` at the end. |
| ListState.UpdateAdjustment | src/pages/billSplitter.jsx:52-68 | `updateDiscount` and `updateExtraCharge` replace only the entry at `index` and keep the length. An index past the end changes nothing. |
| ListState.NewAdjustmentIsNeutral | src/pages/billSplitter.jsx:48-60 | A newly added discount or extra charge changes no final total. |
| ListState.Without | src/pages/billSplitter.jsx:267 | Unchecking removes every occurrence of the person. Every other member keeps its count and the result is an in-order subsequence. |
| ListState.WithoutKeepsDistinct | src/pages/billSplitter.jsx:267 | Filtering a duplicate-free `belongsTo` keeps it duplicate-free. |
| ListState.ToggleBelongsTo | src/pages/billSplitter.jsx:265-268 | Checking appends the person after the unchanged list. Unchecking leaves an in-order subsequence of the list. The person is present afterwards exactly when checked. Checking adds one occurrence, and other members' counts never change. |
| ListState.Click | src/pages/billSplitter.jsx:263-268 | Since the box shows `belongsTo.includes(i)`, a click flips membership of the clicked person and leaves every other member's count unchanged. |
| ListState.ClickFlips | src/pages/billSplitter.jsx:263-268 | A click never creates a duplicate and keeps indices below the people count. |
| ListState.CheckThenUncheck | src/pages/billSplitter.jsx:263-268 | Checking an absent person and then unchecking them restores `belongsTo` exactly. |
| ListState.AssignedPriceIsTotal | src/pages/billSplitter.jsx:35 | When every item is assigned, the sum of assigned prices is `totalItemsPrice`. |
| ListState.AllAssignedBillIsItemsTotal | src/pages/billSplitter.jsx:33-37 | When every item is assigned, `totalBillBeforeExtras` from `calculateBill` equals the displayed `totalItemsPrice`. |
| ListState.InitialStateNotComputable | src/pages/billSplitter.jsx:7-13 | The initial form has one unassigned item and one zero discount and charge, so the bill before extras is 0 while adjustments exist. It is outside the engine's defined inputs. |

## Left out

- Rendering, styling and the React hooks (`useState`, `useEffect`, `useRef`). Each list operation is a value from the old list to the new one.
- Keyboard focus handling (`handleNameKeyDown`, `handlePriceKeyDown` and its `setTimeout`). It is UI plumbing with nothing to compute.
- `copyTable`. It is clipboard and `alert` I/O, and its text depends on `toFixed(2)` float formatting.
- The "Discount/Extra Charges/Tax" display cell. It is display arithmetic with `toFixed(2)`. It uses additive shares and tax on the base total, so it does not match the compounding engine.
- Input parsing. `parseFloat(...) || 0`, the leading-zero `onInput` rewriting and `Number(item.price || 0)` are not modelled. Prices, values and tax are exact reals.
- IEEE-754 rounding, NaN and Infinity. The two undefined cases (an out-of-range person index, and adjustments on a zero bill) are excluded by `Computable` rather than reproduced.
- `peopleCount` is a `nat`. A negative or fractional count, which makes `new Array` throw, is not modelled.
- The per-name text input handler that writes `names[i]`. It is not part of the modelled core.
- The clicked person is not modelled as a rendered checkbox index. `ClickFlips` takes it as any `nat` and states what holds when it is below the people count.
- UpdateItem: the source mutates the item object shared with the previous state (the spread copies only the array). The model replaces the item by value, so that aliasing is not captured.
- updatePeople: setting `peopleCount` itself is not modelled; only the generated names are.
