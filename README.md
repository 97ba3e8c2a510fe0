# Hotel app document tools: a Dafny model

The hotel app is a React front end. With it, staff write quotations and receipts, see their recent documents, and work sums on a floating calculator. This project models the logic behind those screens and proves what it promises:

- **Floating calculator.** Its state covers the display, the pending operand and operator, the "waiting for an operand" flag, and the drag state.
  - Each event handler is a transition function in `CalculatorEngine`.
  - The widget class `CalculatorWidget.FloatingCalculator` performs those transitions on its own fields.
  - The separate calculator store (`CalculatorStore.Store`) mirrors the same eight fields, with one setter per field.
- **Quotation line items.** Adding, removing, editing and drag-reordering items, the item amount quantity × rate × days, and the quotation total.
- **Receipt builder.**
  - Filling a receipt from the stored invoice: customer fields, then the amount, with the discount taken first and tax charged on the rest.
  - Restoring a saved receipt, with a default for each field.
- **Recent documents.** At most one entry each for the stored invoice, quotation and receipt, listed in that order, and deletion by id.
- **Logo upload.** The image-type and 2 MiB checks, the preview, and removing the logo.
- **PDF pagination.** The loop that lays one tall rendered image across A4 pages.
- **Document numbers.** The random "QT" and "RC" numbers.

## How the model is built

- **Numbers.**
  - The calculator's numbers are `Num`: a finite `real`, or `NonFinite` for Infinity, -Infinity and NaN.
  - Division by zero gives `NonFinite`.
  - `Number.parseFloat` and `String(number)` are given to the calculator as a `NumberText` value, and its lemmas state what they assume about them.
  - Every other amount is a `real`.
- **Stored data.** Data in the browser's local store reaches the model already parsed, as `StoredDocuments` records. A field that may be missing is an `Option`.
- **`value || fallback`.** JavaScript's `value || fallback` is `Fallbacks.TextOr` for text (the empty string is falsy) and `Fallbacks.NumberOr` for numbers (0 and NaN are falsy, and NaN is `None`).
- **Inputs from outside.** The random draw, `Date.now` ids, the viewport size, the bounding rectangle and the FileReader's data URL are parameters.

Two behaviours of the code shape the calculator's invariant:

- **Pending operand.** The code sets and clears the pending operand and the pending operator together, so `CalculatorEngine.Consistent` requires one exactly when the other is present.
- **Drag clamp.** When the viewport is smaller than the widget's footprint (`maxX < 0`), the code places the widget at 0, which lies beyond that negative bound. `CalculatorEngine.Clamp` gives 0 for a negative bound, and `CalculatorEngine.MouseMove` states that the new position is the clamp of the pointer target on each axis.

## Model

| member | source | states |
|---|---|---|
| CalculatorEngine.Calculate | src/components/ui/custom/InvoiceGenerator.tsx:51-68 | "=" and any operator other than + - × ÷ % return the second operand. A non-finite operand makes the result non-finite. Division by 0 is non-finite. Finite operands otherwise give a finite result. |
| CalculatorEngine.DivisionUndoesMultiplication | src/components/ui/custom/InvoiceGenerator.tsx:57-60 | ÷ by a nonzero y undoes × by y, for every operand. |
| CalculatorEngine.SubtractionUndoesAddition | src/components/ui/custom/InvoiceGenerator.tsx:53-56 | - y undoes + y, for every operand. |
| CalculatorEngine.PercentIsScaledProduct | src/components/ui/custom/InvoiceGenerator.tsx:61-62 | a % b equals (a × b) ÷ 100. |
| CalculatorEngine.Hundredth | src/components/ui/custom/InvoiceGenerator.tsx:117 | The percent value is the operand ÷ 100. |
| CalculatorEngine.PercentResult | src/components/ui/custom/InvoiceGenerator.tsx:89-109 | With pending + the key gives p + p%v, with - it gives p - p%v, with × it gives p%v, and with ÷ it gives p ÷ (v/100). Any other operator gives v/100. |
| CalculatorEngine.InitialStateIsConsistent | src/components/ui/custom/InvoiceGenerator.tsx:13-22 | The initial state ("0", no operand, no operator, at (24,24)) satisfies the widget invariant. |
| CalculatorEngine.InputNumber | src/components/ui/custom/InvoiceGenerator.tsx:25-32 | Only the display and the waiting flag change. The display ends in the key. When waiting or showing "0", the display becomes exactly the key. The invariant is kept. |
| CalculatorEngine.InputOperation | src/components/ui/custom/InvoiceGenerator.tsx:34-49 | The operator is always the new one and the widget waits for an operand. With no operand, the parsed display is stored. With a pending operator, the result of the pending operation is both shown and stored. With a stored operand but no operator, the display and operand are kept. Drag and minimize state are untouched. The invariant is kept. |
| CalculatorEngine.PerformCalculation | src/components/ui/custom/InvoiceGenerator.tsx:70-80 | Without a pending operation nothing changes. Otherwise the result is shown, the operand and operator are cleared, the widget waits, and nothing else changes. The invariant is kept. |
| CalculatorEngine.CalculatePercentage | src/components/ui/custom/InvoiceGenerator.tsx:82-121 | The widget always waits afterwards. With a pending operation it shows the percent result and clears the operand and operator. Otherwise it shows display/100 and leaves the operand and operator alone. The invariant is kept. |
| CalculatorEngine.Clear | src/components/ui/custom/InvoiceGenerator.tsx:123-128 | The calculator fields return to their initial values. Position, drag and minimize state are kept. |
| CalculatorEngine.ClearIdempotent | src/components/ui/custom/InvoiceGenerator.tsx:123-128 | Clearing twice equals clearing once. |
| CalculatorEngine.Backspace | src/components/ui/custom/InvoiceGenerator.tsx:130-136 | Only the display changes and it is never empty. A display longer than one character loses exactly its last character. Otherwise it becomes "0". At "0" nothing changes. |
| CalculatorEngine.BackspaceReachesZero | src/components/ui/custom/InvoiceGenerator.tsx:130-136 | As many backspaces as the display has characters reach "0" and change nothing else. |
| CalculatorEngine.FreshOperandKey | src/components/ui/custom/InvoiceGenerator.tsx:26-30 | A key typed while waiting, or onto "0", replaces the display and ends the wait. |
| CalculatorEngine.TypingAppends | src/components/ui/custom/InvoiceGenerator.tsx:30 | Once the display holds something other than "0", every typed key is appended. |
| CalculatorEngine.TypingCollapsesLeadingZeros | src/components/ui/custom/InvoiceGenerator.tsx:25-32 | Typing a key sequence into a fresh operand shows the keys written out, with leading zeros collapsed ("0","5" reads "5"). |
| CalculatorEngine.Clamp | src/components/ui/custom/InvoiceGenerator.tsx:161-162 | `max(0, min(v, hi))` in full. The result is never negative. It is at most the bound exactly when the bound is not negative. A value within range is kept, and one past either end becomes that end. A negative bound gives 0. |
| CalculatorEngine.MouseDown | src/components/ui/custom/InvoiceGenerator.tsx:139-148 | An unmounted widget ignores the press. Otherwise the grab offset plus the widget's corner is the pointer, dragging starts, and nothing else changes. |
| CalculatorEngine.MouseMove | src/components/ui/custom/InvoiceGenerator.tsx:150-164 | The move is ignored unless dragging, and only the position changes. The position is never negative. It stays within the viewport less the footprint (60 minimized, 320×400 otherwise) whenever that bound is not negative. An unclamped target is followed exactly. In every case the new position is the clamp of the target on each axis. |
| CalculatorEngine.MouseUp | src/components/ui/custom/InvoiceGenerator.tsx:166-168 | Dragging stops and nothing else changes. |
| CalculatorEngine.SetMinimized | src/components/ui/custom/InvoiceGenerator.tsx:225 | The minimize button (and the restore button at line 200) changes only the minimized flag. The widget does not move. |
| CalculatorEngine.GrabDoesNotJump | src/components/ui/custom/InvoiceGenerator.tsx:139-164 | Grabbing an in-bounds widget and moving by zero leaves it where it was. |
| CalculatorEngine.ChainingIsLeftToRight | src/components/ui/custom/InvoiceGenerator.tsx:34-80 | `5 + 3 × 2 =` shows 16 and leaves nothing pending. |
| CalculatorEngine.PercentInChain | src/components/ui/custom/InvoiceGenerator.tsx:90-93 | `200 + 10 %` shows 220 and leaves nothing pending. |
| CalculatorEngine.DivisionByZeroShowsNonFinite | src/components/ui/custom/InvoiceGenerator.tsx:59-60 | `5 ÷ 0 =` shows a non-finite number. |
| CalculatorEngine.DoubleOperatorReapplies | src/components/ui/custom/InvoiceGenerator.tsx:37-45 | `5 + +` re-applies + to the unchanged display and shows 10. |
| CalculatorWidget.FloatingCalculator.constructor | src/components/ui/custom/InvoiceGenerator.tsx:13-22 | A mounted widget holds the initial state and is consistent. |
| CalculatorWidget.FloatingCalculator.InputNumber | src/components/ui/custom/InvoiceGenerator.tsx:25-32 | Updates the fields in place to the `InputNumber` transition and keeps the invariant. |
| CalculatorWidget.FloatingCalculator.InputOperation | src/components/ui/custom/InvoiceGenerator.tsx:34-49 | Updates the fields in place to the `InputOperation` transition and keeps the invariant. |
| CalculatorWidget.FloatingCalculator.PerformCalculation | src/components/ui/custom/InvoiceGenerator.tsx:70-80 | Updates the fields in place to the `PerformCalculation` transition and keeps the invariant. |
| CalculatorWidget.FloatingCalculator.CalculatePercentage | src/components/ui/custom/InvoiceGenerator.tsx:82-121 | Updates the fields in place to the `CalculatePercentage` transition and keeps the invariant. |
| CalculatorWidget.FloatingCalculator.Clear | src/components/ui/custom/InvoiceGenerator.tsx:123-128 | Updates the fields in place to the `Clear` transition and keeps the invariant. |
| CalculatorWidget.FloatingCalculator.Backspace | src/components/ui/custom/InvoiceGenerator.tsx:130-136 | Updates the fields in place to the `Backspace` transition and keeps the invariant. |
| CalculatorWidget.FloatingCalculator.HandleMouseDown | src/components/ui/custom/InvoiceGenerator.tsx:139-148 | Updates the fields in place to the `MouseDown` transition and keeps the invariant. |
| CalculatorWidget.FloatingCalculator.HandleMouseMove | src/components/ui/custom/InvoiceGenerator.tsx:150-164 | Updates the fields in place to the `MouseMove` transition and keeps the invariant. |
| CalculatorWidget.FloatingCalculator.HandleMouseUp | src/components/ui/custom/InvoiceGenerator.tsx:166-168 | Updates the fields in place to the `MouseUp` transition and keeps the invariant. |
| CalculatorWidget.FloatingCalculator.SetIsMinimized | src/components/ui/custom/InvoiceGenerator.tsx:200 | Updates the fields in place to the `SetMinimized` transition and keeps the invariant. |
| CalculatorWidget.ChainedSession | src/components/ui/custom/InvoiceGenerator.tsx:25-80 | Pressing 5 + 3 × 2 = on a freshly mounted widget shows 16. |
| CalculatorStore.Store.constructor | src/stores/useCalculatorStore.ts:40-64 | The store starts with the same values as a freshly mounted widget. |
| CalculatorStore.Store.SetDisplay | src/stores/useCalculatorStore.ts:42 | Replaces the display and leaves the other seven fields as they were. |
| CalculatorStore.Store.SetPreviousValue | src/stores/useCalculatorStore.ts:45 | Replaces the pending operand and leaves the other seven fields as they were. |
| CalculatorStore.Store.SetOperation | src/stores/useCalculatorStore.ts:48 | Replaces the pending operator and leaves the other seven fields as they were. |
| CalculatorStore.Store.SetWaitingForOperand | src/stores/useCalculatorStore.ts:51 | Replaces the waiting flag and leaves the other seven fields as they were. |
| CalculatorStore.Store.SetIsMinimized | src/stores/useCalculatorStore.ts:54 | Replaces the minimized flag and leaves the other seven fields as they were. |
| CalculatorStore.Store.SetPosition | src/stores/useCalculatorStore.ts:57 | Replaces the whole position record and leaves the other seven fields as they were. |
| CalculatorStore.Store.SetIsDragging | src/stores/useCalculatorStore.ts:60 | Replaces the dragging flag and leaves the other seven fields as they were. |
| CalculatorStore.Store.SetDragOffset | src/stores/useCalculatorStore.ts:63 | Replaces the whole offset record and leaves the other seven fields as they were. |
| CalculatorStore.SetTwice | src/stores/useCalculatorStore.ts:42-63 | Calling `setDisplay` and `setPosition` twice each with the same value equals calling each once. The other fields keep their initial values. |
| Fallbacks.TextOr | src/components/ui/custom/receipt-builder.tsx:47 | Present non-empty text is kept. Missing or empty text gives the fallback. The result is empty only if the fallback is. |
| Fallbacks.NumberOr | src/components/ui/custom/quotation-creator.tsx:410-430 | A present nonzero number is kept. NaN or 0 gives the fallback. A nonzero fallback never yields 0. |
| Fallbacks.NumberOrZeroKeepsNumbers | src/components/ui/custom/receipt-builder.tsx:92 | `\|\| 0` replaces only a missing number. |
| Sequences.Filter | src/components/ui/custom/quotation-creator.tsx:74 | Exactly the kept elements remain: every element of the result passes and comes from the input, and every passing input element is in the result. If all pass, the input is returned unchanged. |
| Sequences.FilterAppend | src/components/ui/custom/recent-documents.tsx:101 | Filtering a concatenation concatenates the filtered parts, so the order is kept. |
| Quotation.Total | src/components/ui/custom/quotation-creator.tsx:112 | The quotation total is 0 for no items and is never negative when no amount is. |
| Quotation.TotalAppend | src/components/ui/custom/quotation-creator.tsx:112 | The total of a concatenation is the sum of the totals. |
| Quotation.AddItem | src/components/ui/custom/quotation-creator.tsx:60-71 | Exactly one blank item (quantity 1, rate 0, amount 0, days 1) is appended and the old items are kept. The total is unchanged. The amount invariant is kept, and so are unique ids when the new id is fresh. |
| Quotation.RemoveItem | src/components/ui/custom/quotation-creator.tsx:73-75 | No item with the id remains. Every other item remains and nothing is added. An absent id changes nothing. The amount invariant is kept. |
| Quotation.RemoveItemKeepsOrder | src/components/ui/custom/quotation-creator.tsx:73-75 | Removal distributes over concatenation, so the remaining items keep their order. |
| Quotation.RemoveItemDropsAtMostOne | src/components/ui/custom/quotation-creator.tsx:73-75 | With distinct ids at most one item goes, and none goes only if the id is absent. |
| Quotation.RemoveButton | src/components/ui/custom/quotation-creator.tsx:453-454 | A single remaining item cannot be removed. Otherwise the button removes by id, and with distinct ids the list never becomes empty. |
| Quotation.ApplyEdit | src/components/ui/custom/quotation-creator.tsx:80-86 | Exactly the named field changes. A quantity, rate or days edit also recomputes the amount, so the item's amount agrees. Any edit other than to the amount keeps agreement. |
| Quotation.UpdateItem | src/components/ui/custom/quotation-creator.tsx:77-90 | The length is kept. Items with another id are unchanged. Items with the id get the edit. The amount invariant is kept by every edit except to the amount. |
| Quotation.RecomputeAmounts | src/components/ui/custom/quotation-creator.tsx:93-100 | Afterwards every amount equals quantity × rate × days, only amounts change, and already-agreeing lists are unchanged. |
| Quotation.RemoveAt | src/components/ui/custom/quotation-creator.tsx:106 | `splice(i, 1)` shortens the list by one. |
| Quotation.RemoveAtShifts | src/components/ui/custom/quotation-creator.tsx:106 | Items before i stay where they were, and later items move down by one. |
| Quotation.InsertAt | src/components/ui/custom/quotation-creator.tsx:107 | `splice(i, 0, x)` lengthens the list by one and puts x at i. |
| Quotation.InsertAtShifts | src/components/ui/custom/quotation-creator.tsx:107 | Items before i stay where they were, and later items move up by one. |
| Quotation.RemoveAtMultiset | src/components/ui/custom/quotation-creator.tsx:106 | Removing at i removes exactly that item from the multiset and its amount from the total. |
| Quotation.InsertAtMultiset | src/components/ui/custom/quotation-creator.tsx:107 | Inserting adds exactly that item to the multiset and its amount to the total. |
| Quotation.RemoveAtUndoesInsertAt | src/components/ui/custom/quotation-creator.tsx:105-107 | Removing at i what was inserted at i gives back the original list. |
| Quotation.HandleDragEnd | src/components/ui/custom/quotation-creator.tsx:102-110 | A drop with no destination changes nothing. Otherwise the result is a permutation of the same length and total, the dragged item sits at the destination, and the other items keep their relative order. |
| Quotation.NumericInput | src/components/ui/custom/quotation-creator.tsx:409-431 | A quantity or rate with no number becomes 0, and days with no number becomes 1. Days are never 0. A parsed nonzero number is kept. |
| DocumentNumbers.DecimalDigits | src/components/ui/custom/quotation-creator.tsx:57 | `toString` of a natural number is a non-empty string of decimal digits that denotes the number (`DigitsValue` reads it back). |
| DocumentNumbers.DecimalDigitsLength | src/components/ui/custom/quotation-creator.tsx:57 | A number from 10^w to 10^(w+1)-1 is written with w+1 digits. |
| DocumentNumbers.LeadingDigitNonZero | src/components/ui/custom/quotation-creator.tsx:57 | A positive number's numeral does not start with 0. |
| DocumentNumbers.DocumentNumber | src/components/ui/custom/quotation-creator.tsx:57 | A draw from [0, 1) gives the prefix followed by exactly six digits, the first not 0. The digits denote `floor(100000 + random × 900000)`. |
| DocumentNumbers.QuotationNumber | src/components/ui/custom/quotation-creator.tsx:56-58 | A quotation number is 8 characters and starts with "QT". |
| DocumentNumbers.ReceiptNumber | src/components/ui/custom/receipt-builder.tsx:73-75 | A receipt number is 8 characters and starts with "RC". |
| StoredDocuments.ClientText | src/components/ui/custom/receipt-builder.tsx:84-86 | `clientInfo?.field \|\| ""` reads the same as the stored field with "" as default, and is "" without a client. Non-empty text is always the client's stored field. |
| StoredDocuments.ItemsSum | src/components/ui/custom/receipt-builder.tsx:91-93 | The left-to-right reduce over stored items: 0 for none, and a single item's amount or 0. Partner lemmas give its sum over concatenations, missing amounts and its sign. |
| StoredDocuments.Subtotal | src/components/ui/custom/receipt-builder.tsx:90-93 | The subtotal a receipt or a list entry shows is never negative when no stored amount is negative, a missing item list counting as 0. |
| StoredDocuments.ItemsSumAppend | src/components/ui/custom/receipt-builder.tsx:91-93 | The item sum of a concatenation is the sum of the item sums. |
| StoredDocuments.MissingAmountsSumToZero | src/components/ui/custom/receipt-builder.tsx:92 | Items that all lack an amount sum to 0. |
| StoredDocuments.ItemsSumNonNegative | src/components/ui/custom/receipt-builder.tsx:90-93 | Non-negative amounts have a non-negative sum. |
| Receipt.DiscountRate | src/components/ui/custom/receipt-builder.tsx:96 | The discount rate is the stored discount, or 0 when none is stored (`\|\| 0` changes nothing else). |
| Receipt.TaxRate | src/components/ui/custom/receipt-builder.tsx:97 | The tax rate is the stored rate, or 0 when none is stored. |
| Receipt.ReceiptAmount | src/components/ui/custom/receipt-builder.tsx:90-100 | The amount is subtotal × (1 - discount/100) × (1 + tax/100), with missing rates counting 0. |
| Receipt.NoRatesMeansSubtotal | src/components/ui/custom/receipt-builder.tsx:96-100 | With no discount and no tax the receipt asks for the item subtotal. |
| Receipt.TaxAfterDiscount | src/components/ui/custom/receipt-builder.tsx:98-100 | Tax is charged on the discounted subtotal. |
| Receipt.CustomerFromInvoice | src/components/ui/custom/receipt-builder.tsx:83-87 | No client gives three empty fields. Otherwise the customer's name, email and phone are the client's stored ones, each missing field read as "". A non-empty customer name is therefore the client's stored name. |
| Receipt.PaymentFromInvoice | src/components/ui/custom/receipt-builder.tsx:102-107 | The amount is the receipt amount and the method is reset to "". The reference is the invoice's reference or "". The description is "Payment for Invoice " followed by that reference. |
| Receipt.NonEmptyOrNone | src/components/ui/custom/receipt-builder.tsx:51-52 | `value \|\| null` never restores an empty signature or logo, and reading the result with "" as default gives the same text as reading the stored value. |
| Receipt.Restored | src/components/ui/custom/receipt-builder.tsx:47-54 | Each restored field is the stored value, or its default when missing or falsy: "standard", a fresh number, empty customer and payment, no signature or logo, Arial 12, "". The template is never empty. |
| Receipt.Saved | src/components/ui/custom/receipt-builder.tsx:58-71 | Every field is written, the signature and logo as they are. Restoring it returns the customer, payment, style and notes unchanged, whatever number is drawn. |
| Receipt.RestoreUndoesSave | src/components/ui/custom/receipt-builder.tsx:47-68 | Restoring what was saved gives the same form back exactly when no field the restore treats as falsy was saved: an empty template, signature or logo, or an empty number when the fresh number is not empty. |
| Receipt.ReceiptBuilder.constructor | src/components/ui/custom/receipt-builder.tsx:19-40 | A new builder holds the defaults and a freshly drawn "RC" number, with no invoice reference. |
| Receipt.ReceiptBuilder.Restore | src/components/ui/custom/receipt-builder.tsx:42-56 | With a stored receipt the form becomes `Restored` of it. Without one nothing changes. The invoice reference is untouched. |
| Receipt.ReceiptBuilder.LoadFromInvoice | src/components/ui/custom/receipt-builder.tsx:77-114 | The result tells whether an invoice was found. Without one the state is unchanged. With one, only the customer, the payment and the invoice reference change, to the values computed from the invoice. |
| RecentDocuments.BlobEntry | src/components/ui/custom/recent-documents.tsx:31-45 | A stored invoice or quotation gets an entry exactly when it names a client. The entry has the fixed id, the client, the raw item sum, and the reference or "N/A". |
| RecentDocuments.InvoiceEntry | src/components/ui/custom/recent-documents.tsx:31-45 | The invoice entry exists exactly when a stored invoice names a client. It is "invoice-1", of kind invoice, with the raw item sum. |
| RecentDocuments.QuotationEntry | src/components/ui/custom/recent-documents.tsx:48-62 | The quotation entry exists exactly when a stored quotation names a client. It is "quotation-1", of kind quotation, with the raw item sum. |
| RecentDocuments.ReceiptEntry | src/components/ui/custom/recent-documents.tsx:65-79 | A stored receipt gets an entry exactly when it names a customer. The entry has id "receipt-1", the payment amount or 0, and the receipt number or "N/A". |
| RecentDocuments.Listed | src/components/ui/custom/recent-documents.tsx:28-81 | At most three entries. An invoice entry comes first, a quotation entry is listed, and a receipt entry comes last. Every listed entry is one of the three blobs' entries. The list is empty exactly when no blob has an entry. |
| RecentDocuments.OrderedKindsHaveDistinctIds | src/components/ui/custom/recent-documents.tsx:36-70 | Entries in kind order that carry their kinds' fixed ids have pairwise distinct ids. |
| RecentDocuments.ListedShape | src/components/ui/custom/recent-documents.tsx:28-81 | The list has at most three entries, in the order invoice, quotation, receipt. Their ids are distinct and each names a client. |
| RecentDocuments.LoadRecentDocuments | src/components/ui/custom/recent-documents.tsx:27-85 | Pushing each present entry in turn builds `Listed`, which has at most three entries, in kind order, with distinct ids, each naming a client. |
| RecentDocuments.DeleteDocument | src/components/ui/custom/recent-documents.tsx:100-103 | No entry with the id remains, every other entry remains, and nothing is added. An absent id changes nothing. |
| RecentDocuments.DeleteKeepsOrder | src/components/ui/custom/recent-documents.tsx:100-103 | Deletion distributes over concatenation, so the remaining entries keep their order. |
| RecentDocuments.DeleteListedRemovesOne | src/components/ui/custom/recent-documents.tsx:100-103 | With distinct ids, deleting a listed id removes exactly one entry. |
| RecentDocuments.RecentAmountIgnoresRates | src/components/ui/custom/recent-documents.tsx:40 | The listed invoice amount is the raw item sum. It equals the receipt amount without discount and tax, and differs from it under a full discount of a non-zero sum. |
| RecentDocuments.LoadedCustomerIsListedClient | src/components/ui/custom/receipt-builder.tsx:84 | A receipt loaded from an invoice has as its customer the client the recent list shows for that invoice. |
| RecentDocuments.StoredItems | src/components/ui/custom/quotation-creator.tsx:121-136 | Saving keeps one stored item per line item, and reading each back as `amount \|\| 0` gives that line item's amount. |
| RecentDocuments.StoredItemsSumIsTotal | src/components/ui/custom/recent-documents.tsx:57 | The list's left-to-right sum of the saved items equals the quotation total. |
| RecentDocuments.QuotationListedWithTotal | src/components/ui/custom/recent-documents.tsx:48-62 | A quotation saved by the creator is listed with its total. |
| RecentDocuments.ReceiptListedWithPayment | src/components/ui/custom/recent-documents.tsx:65-79 | A receipt saved by the builder, naming a customer, is listed with its payment amount and its number (or "N/A"). |
| LogoUpload.IsImageType | src/components/ui/custom/logo-upload.tsx:24 | An image type is "image/" followed by a subtype, so anything shorter than six characters is not one. |
| LogoUpload.ImageSubtypesAreImages | src/components/ui/custom/logo-upload.tsx:24 | Every "image/" subtype passes, and the test is case-sensitive ("Image/…" fails). |
| LogoUpload.CheckFile | src/components/ui/custom/logo-upload.tsx:19-33 | The outcome is: no file; not an image, exactly when the type lacks the "image/" prefix; too large, exactly when an image is over 2·1024·1024 bytes; otherwise accepted. |
| LogoUpload.LimitIsInclusive | src/components/ui/custom/logo-upload.tsx:30-33 | An image of exactly 2 MiB is accepted, and one byte more is rejected. |
| LogoUpload.TypeCheckedBeforeSize | src/components/ui/custom/logo-upload.tsx:24-33 | A large non-image reports the type, not the size. |
| LogoUpload.LogoUploader.constructor | src/components/ui/custom/logo-upload.tsx:15-17 | The preview starts as the current logo, with nothing reported and the input empty. |
| LogoUpload.LogoUploader.HandleFileUpload | src/components/ui/custom/logo-upload.tsx:19-42 | The outcome is `CheckFile`. An accepted file becomes the preview and is reported once to the parent. Any other outcome changes nothing. |
| LogoUpload.LogoUploader.RemoveLogo | src/components/ui/custom/logo-upload.tsx:44-50 | The preview becomes empty, the parent is told "none", and a mounted input is cleared. |
| LogoUpload.UploadThenRemove | src/components/ui/custom/logo-upload.tsx:19-50 | Uploading a valid image and then removing it reports the data URL and then none, and shows nothing. |
| PdfGenerator.ImageHeight | src/components/ui/custom/pdf-generator.tsx:35-37 | The image height is the canvas scaled to the 210 mm page width, never negative. |
| PdfGenerator.PageCount | src/components/ui/custom/pdf-generator.tsx:44-52 | The page count n is at least 1 and satisfies (n-1)·295 ≤ height < n·295. |
| PdfGenerator.ExactPageHeightTakesTwoPages | src/components/ui/custom/pdf-generator.tsx:47 | An image exactly one page high is laid on two pages, because the loop continues while the height left is ≥ 0. |
| PdfGenerator.GenerateSecurePdf | src/components/ui/custom/pdf-generator.tsx:12-74 | A missing element fails with no pages. Otherwise it succeeds with `PageCount` pages, the k-th placed at offset -k·295 (the first at 0). |

## Left out

- Floating point: IEEE rounding is not modelled; amounts are exact reals, and Infinity, -Infinity and NaN are one `NonFinite` value. IEEE gives 0 for a finite number divided by ±Infinity; the model gives `NonFinite`.
- CalculatorEngine.InputOperation: `previousValue || 0` turns a NaN operand into 0 before chaining; the model keeps it `NonFinite`.
- `Number.parseFloat`, `String(number)` and `toFixed(2)` are not given bodies; the calculator receives parse and show as a `NumberText`, and the scenario lemmas state the parses they rely on.
- DOM plumbing: the document-level mouse listeners and `userSelect` toggling (InvoiceGenerator.tsx:170-183), `getBoundingClientRect` and `window.innerWidth/innerHeight` (passed in), the close button and all JSX rendering, including the receipt builder's mode switch.
- Local storage and JSON: reading and writing the store and parsing JSON are not modelled; the parsed blobs are parameters, already of the expected shape (a stored receipt's customer name is taken to be text). The quotation creator's save and restore effects (quotation-creator.tsx:121-178) are modelled only as far as the recent-documents list reads the saved items (`RecentDocuments.StoredItems`).
- Receipt.ReceiptBuilder.Restore: the stored fields are taken to have the shapes the builder saves; a stored value of another JSON type is not modelled.
- RecentDocuments.ReceiptEntry: `paymentInfo?.amount || 0` also replaces a NaN amount; the model has no NaN amounts.
- `Math.random` and `Date.now`: the random draw in [0, 1) and the new item's id are parameters; the entry date (`toLocaleDateString`) is not modelled.
- Alerts and the parent's `onComplete` callback are not modelled; `LoadFromInvoice`'s result and `HandleFileUpload`'s outcome say which alert is shown.
- LogoUpload.LogoUploader.HandleFileUpload: the FileReader is asynchronous; the model applies its `onload` at once, with the data URL as a parameter.
- html2canvas, jsPDF and the watermark are not modelled; `GenerateSecurePdf` takes the rendered canvas (or None for a missing element) and returns the vertical offsets of the pages it adds.
- PdfGenerator.GenerateSecurePdf: requires a canvas of positive width; with width 0 the source divides by zero, and an infinite image height would never leave the loop.
- Quotation.HandleDragEnd: the two `splice` calls act on a fresh copy of the list, so the model works on sequence values; in-place mutation of that copy is not modelled.
- The receipt builder's field `method` is called `paymentMethod`, since `method` is a keyword in Dafny.
- settings-panel.tsx, signature-canvas.tsx, 404.tsx, App.tsx and the route files are not part of this model (persistence of constant settings, canvas drawing, routing).
