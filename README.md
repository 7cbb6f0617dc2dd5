# Pharmacy back office: billing and inventory reconciliation

This project models the core of a pharmacy back-office server and its browser client:

- **Bill documents.** A bill's line items get their amounts derived in a validation hook. A save hook then derives the bill totals, the change given and the payment status. There is also the amount-due virtual and the fully-paid check.
- **Bill creation.** The request is validated. Each item is then matched against the inventory in request order, checked against the running stock and dispensed. A bill is created from the accepted lines, and a linked prescription is marked dispensed.
- **Bill update and cancellation.** An update replaces the supplied fields without recomputing anything. Cancellation marks the bill cancelled and saves it again.
- **The medicine inventory.** This covers:
  - the schema bounds, the unique batch number, and the stock-status and expiry-status virtuals;
  - create and update with their duplicate-batch checks;
  - soft delete;
  - the stock adjustment with its `add`, `subtract` and `set` operations.
- **Prescriptions.** This covers:
  - the status enum and its default;
  - medicine lines, linked to the inventory on create and update;
  - the identifier `RX<year><month><day><sequence>` generated on first save;
  - the status change.
- **The browser client.** This covers the role-to-page table, the "time ago" rendering, the stock-status filter of the inventory page and the list of at most ten prescriptions kept in the browser.

## How the model is built

- **Money** is an exact `real`. `Money.Round2` is `Math.round(x * 100) / 100`. `Math.round` rounds a half up, towards positive infinity, so `-0.125` becomes `-0.12`: halves are not rounded away from zero.
- **Documents and identifiers.** The three collections live in one `Database.Store` object. Medicines and prescriptions are datatypes held in `seq` fields. A document's identifier is its position in its collection.
- **Lookups.** `findOne` returns the first match in insertion order. A regular expression built from a name with flag `i` is read as case-insensitive substring containment.
- **Bills** are objects of class `BillModel.Bill`, because their hooks rewrite the document's fields in place:
  - `PreValidate` and `PreSave` are the two hooks.
  - `Save` runs them in the framework's order.
  - The item loop of bill creation is the method `BillingRoutes.DispenseItems`. It is proved against the function `BillingRoutes.ProcessItems`, and the properties of that loop are lemmas about `ProcessItems`.
- **Values the environment supplies** are parameters: the acting user's id, the current time, the local calendar day, the time six months ahead and browser-side dates and ids.
- **`Database.Store.Valid`** holds what the schemas and the unique indexes guarantee:
  - every stored medicine and prescription satisfies its schema bounds;
  - batch numbers are unique;
  - every prescription carries the identifier generated from its creation day and the number of prescriptions created before it that day. `PrescriptionModel.IdsUnique` proves that this last invariant makes identifiers unique.

  Every handler that changes a collection preserves `Valid`.
- **Bill totals are derived only by the save hooks.** The bill update writes through `findByIdAndUpdate`, which runs no document hook, so it recomputes nothing: a body that replaces the lines leaves the old totals, change and payment status in place. Cancellation is not final either: a cancelled bill can still be updated and cancelled again.
- **Two handlers are modelled in corrected form** (see "## Findings"), and the code as written is modelled beside them:
  - `MedicineRoutes.UpdateMedicine` is the medicine update with the expiry validator comparing against the manufacturing date being written. As written, every update that reaches the validators is refused: `MedicineRoutes.UpdateOutcomeAsWritten` and `MedicineRoutes.UpdateAlwaysFailsAsWritten`.
  - `PrescriptionRoutes.CreatePrescription` is prescription creation with the identifier assigned before validation. As written, every valid request is refused: `PrescriptionRoutes.SaveAsWritten` and `PrescriptionRoutes.CreateAlwaysFailsAsWritten`.

## Model

| member | source | states |
|---|---|---|
| Money.Round2 | models/Bill.js:142 | The result is a whole number of paise within half a paisa of the input. |
| Money.Round2OfCents | models/Bill.js:157-160 | Rounding an amount that is already whole paise leaves it unchanged. |
| Money.Round2HalfTowardPositive | models/Bill.js:142 | A half paisa rounds up, towards positive infinity: 0.125 becomes 0.13 and -0.125 becomes -0.12. |
| Money.Round2Idempotent | models/Bill.js:142 | Rounding twice gives the same result as rounding once. |
| Money.Round2Monotone | models/Bill.js:142 | Rounding never reverses the order of two amounts. |
| Money.Round2NonNegative | models/Bill.js:164-168 | A non-negative amount rounds to a non-negative amount. |
| MedicineModel.ParseCategory | models/Medicine.js:18-22 | Exactly the eight category names are accepted, and each maps to its own category. |
| MedicineModel.WellFormed | models/Medicine.js:35-71 | What the schema demands of a stored medicine: the required strings present, expiry strictly after manufacture, stock and prices within their `min` bounds. |
| MedicineModel.UniqueBatches | models/Medicine.js:35-39 | The unique index on the batch number: no two medicines of the collection share one. |
| MedicineModel.StockStatusOf | models/Medicine.js:132-136 | Out of stock iff current ≤ 0. Low stock iff 0 < current ≤ minimum. In stock iff current > minimum and current > 0. |
| MedicineModel.ExpiryStatusOf | models/Medicine.js:139-147 | Expired iff expiry ≤ now. Expiring soon iff now < expiry ≤ six months ahead. Valid otherwise. |
| MedicineModel.AlertAgreesWithStatus | models/Medicine.js:150-156 | The pre-save low-stock warning fires only for a medicine that is not in stock. A medicine exactly at its minimum is low stock but gets no warning. |
| MedicineModel.LowStockAlert | models/Medicine.js:150-156 | The condition on which the pre-save hook logs a low-stock warning: current stock strictly below the minimum. Its relation to the stock status is `AlertAgreesWithStatus`. |
| PrescriptionModel.ParseStatus | models/Prescription.js:116-120 | Exactly the four status names are accepted, each mapping to its own status. |
| PrescriptionModel.ParseFrequency | models/Prescription.js:17-21 | Exactly the six frequency names are accepted, each mapping to its own frequency. |
| PrescriptionModel.WellFormed | models/Prescription.js:26-95 | What the schema demands of a stored prescription: a non-empty identifier, patient and doctor names, an age from 0 to 150, mobile-number phone and contact, and every line with its required strings and a quantity of at least 1. |
| PrescriptionModel.GeneratedId | models/Prescription.js:160-172 | The identifier `RX`, the year, the two-digit month and day and the four-digit sequence number; it always starts with `RX`. |
| PrescriptionModel.AssignedId | models/Prescription.js:158-175 | An existing identifier is never overwritten. A missing one gets the generated identifier, which is non-empty. |
| PrescriptionModel.CountCreatedOn | models/Prescription.js:165-170 | The number of stored prescriptions created on the given day, which never exceeds the collection's size. |
| PrescriptionModel.CountCreatedOnExtremes | models/Prescription.js:165-170 | The count is 0 exactly when no prescription was created that day, and it is the whole collection exactly when every one was. |
| PrescriptionModel.GeneratedIdDecodes | models/Prescription.js:160-172 | For a four-digit year the identifier has 14 characters and decodes back to the day and to count + 1. From a sequence of 10000 on it is longer, with nothing truncated. |
| PrescriptionModel.GeneratedIdInjective | models/Prescription.js:160-172 | Different days, or different counts, give different identifiers. |
| PrescriptionModel.IdsUnique | models/Prescription.js:38-42 | When every identifier was generated from its day's running count, no two prescriptions share one, so the unique index never refuses a generated identifier. |
| PrescriptionModel.AppendKeepsIds | models/Prescription.js:165-172 | Appending a prescription that carries the identifier generated from today's count keeps the invariant. |
| PrescriptionModel.ReplaceKeepsIds | models/Prescription.js:158-159 | Replacing a prescription by one with the same identifier and creation day keeps the invariant. |
| BillModel.ParsePaymentMethod | models/Bill.js:95-99 | Exactly the five payment-method names are accepted, each mapping to its own method. |
| BillModel.EffectiveTaxRate | models/Bill.js:146 | A tax rate of 0 counts as the default of 12. Any other rate is used as given. |
| BillModel.WithDerivedAmounts | models/Bill.js:140-147 | For a non-zero quantity and unit price, totalPrice = round2(quantity × unitPrice) and taxAmount = round2((totalPrice − discount) × rate / 100), both whole paise. Otherwise the line is unchanged. No other field ever changes. |
| BillModel.DerivedItems | models/Bill.js:137-151 | Every line gets its derived amounts, and the order is kept. |
| BillModel.DerivedItemsIdempotent | models/Bill.js:137-151 | Running the validation hook twice gives the same lines as running it once. |
| BillModel.LineItemExample | models/Bill.js:140-147 | 10 × 5.50 with a discount of 5 at 12% gives a total price of 55 and a tax of 6. |
| BillModel.TaxRateQuirks | models/Bill.js:145-146 | A 0% rate is taxed at 12%. A discount larger than the price gives a negative tax. |
| BillModel.SumOfCents | models/Bill.js:157-159 | A sum of whole-paise amounts is whole paise. |
| BillModel.TotalsOf | models/Bill.js:155-161 | All four totals are whole paise. The subtotal, total discount and total tax are each within half a paisa of the sum over the lines, and grandTotal = round2(subtotal − totalDiscount + totalTax). |
| BillModel.SubtotalIsExactSum | models/Bill.js:157-159 | For derived lines, the subtotal and the total tax are the exact sums of the lines. When every discount is whole paise too, the total discount is the exact sum, and grandTotal = round2(Σ totalPrice − Σ discount + Σ taxAmount). |
| BillModel.CentsDifferenceExact | models/Bill.js:165 | The difference of two whole-paise amounts needs no rounding. |
| BillModel.ChangeDue | models/Bill.js:164-168 | The change is never negative, and it is non-zero only for cash paid over the total. Then it is whole paise within half a paisa of paid − total, and exactly paid − total whenever both are whole paise. |
| BillModel.PaymentStatusFor | models/Bill.js:171-177 | Paid iff amountPaid ≥ grandTotal. Partially paid iff 0 < amountPaid < grandTotal. Pending otherwise. Never refunded. |
| BillModel.BillExample | models/Bill.js:137-180 | A two-line cash bill: 150 subtotal, 5 discount, 17.40 tax, 162.40 total. Paid with 200, so 37.60 change and status paid. |
| BillModel.Bill.constructor | models/Bill.js:48-134 | A new document has the schema defaults: zero totals, pending payment, status finalized, no updater. |
| BillModel.Bill.PreValidate | models/Bill.js:137-151 | The loop replaces the items by their derived form and changes nothing else. |
| BillModel.Bill.PreSave | models/Bill.js:154-180 | With lines present, the totals become `TotalsOf(items)`; without lines they are kept. The change and the payment status follow the new total. |
| BillModel.Bill.Save | models/Bill.js:137-180 | After a save every derived field is consistent. A bill with no lines keeps its four totals. On a bill that already was consistent, the save changes nothing. |
| BillModel.Bill.AmountDue | models/Bill.js:194-196 | The amount due is never negative. It is 0 exactly when the bill is fully paid, and otherwise equals total − paid. |
| BillModel.Bill.IsFullyPaid | models/Bill.js:199-201 | Fully paid means the amount paid is at least the grand total. `AmountDue` is 0 exactly then, and `FullyPaidMeansPaid` ties it to the stored status. |
| BillModel.FullyPaidMeansPaid | models/Bill.js:199-201 | On a saved bill, "fully paid" and "nothing due" each hold exactly when the status is paid. |
| Database.FindFirst | routes/billing.js:128-135 | The result is the first matching medicine in insertion order. None means no medicine matches. |
| Database.FindFirstIgnoresStock | routes/billing.js:128-135 | Two inventories that differ only in stock levels and audit fields give the same lookup result. |
| Database.ByBatchFinds | routes/medicines.js:159-161 | The duplicate lookup finds something iff some medicine, active or not, holds the batch. |
| Database.ByBatchExceptFinds | routes/medicines.js:217-220 | The update's duplicate lookup finds something iff another medicine holds the batch. |
| BillingRoutes.ValidBillRequest | routes/billing.js:10-32 | The request schema of bill creation: a customer name of 2 to 100 characters, an optional mobile number, non-empty optional strings, at least one item with non-empty name and batch, quantity ≥ 1 and non-negative price, discount and rate, a known payment method and a non-negative amount paid. |
| BillingRoutes.ToLineItem | routes/billing.js:146-154 | The pushed line keeps the item's name, batch, quantity and price and the matched medicine. The discount defaults to 0, a missing or zero rate becomes 12, and both derived amounts start at 0. |
| BillingRoutes.ProcessItems | routes/billing.js:126-162 | The item loop as a function: each item in order is looked up, refused when its quantity exceeds the running stock, and otherwise dispensed. What it guarantees is stated by the `BillingProperties` lemmas below. |
| BillingRoutes.Dispense | routes/billing.js:157-160 | The accepted item's quantity is taken off the current stock and the user is recorded as updater. The minimum, the maximum and every other field are unchanged. |
| BillingRoutes.LinkPrescription | routes/billing.js:178-188 | The collection keeps its length, and every prescription but the linked one is unchanged. The linked one becomes dispensed by the user at the given time and keeps its identifier. An unknown id changes nothing. |
| BillingRoutes.LinkedDispensed | routes/billing.js:179-187 | The linked prescription's status becomes dispensed, with the user and the time as dispenser and dispensing time and the user as updater. No other field changes. |
| BillingRoutes.ApplyPatch | routes/billing.js:266-271 | `updatedBy` is set. Supplied lines, creator and other fields replace the stored ones, and absent ones are kept. Totals, change and payment status change only when the body supplies them. An empty body changes only `updatedBy`. |
| BillingRoutes.DispensePreservesValid | routes/billing.js:157-161 | A decrement that the stock check allowed keeps every medicine within its schema bounds and keeps batch numbers unique. |
| BillingRoutes.LinkPreservesValid | routes/billing.js:178-188 | Marking the linked prescription dispensed keeps the prescriptions valid. An unknown id changes nothing. |
| BillingRoutes.NewBill | routes/billing.js:165-175 | The created bill holds the request's customer, method, amount paid (0 when absent), prescription, notes and creator, plus the derived lines and totals. |
| BillingRoutes.DispenseItems | routes/billing.js:126-162 | The loop produces exactly the inventory, lines and failure of `ProcessItems` on the inventory as it was before the loop, and keeps the inventory valid. |
| BillingRoutes.CreateBill | routes/billing.js:108-217 | An invalid request changes nothing. On a stock failure the decrements already made stay, and no bill is created. Otherwise one fresh bill is appended, built from the processed lines, and the linked prescription is marked dispensed. |
| BillingRoutes.UpdateBill | routes/billing.js:254-292 | An unknown id is an error. Otherwise the stored document becomes `ApplyPatch` of the old one: every schema path the body supplies, including `prescription` and `createdBy`, is replaced, `updatedBy` is set and nothing is recomputed. |
| BillingRoutes.CancelBill | routes/billing.js:297-324 | The status becomes cancelled and `updatedBy` is set. The derived fields are re-derived. A bill with no lines keeps its four totals, and nothing derived changes when it was already consistent. The entered fields are kept. |
| BillingProperties.StockConservation | routes/billing.js:126-162 | Each medicine's stock is lower by exactly the quantities of the lines matched to it, and nothing but stock and `updatedBy` changes. The loop completes iff there is one line per item. |
| BillingProperties.ProcessedLines | routes/billing.js:126-154 | Each line keeps its item's data and refers to the medicine found in the original inventory. |
| BillingProperties.FailureCause | routes/billing.js:138-143 | A failure happens only at a found item whose quantity exceeds the running stock. The error quotes that running stock and the requested quantity. |
| BillingProperties.StockStaysNonNegative | routes/billing.js:138-161 | No stock level goes negative. |
| BillingProperties.DuplicateBatchExample | routes/billing.js:126-162 | Two lines of 3 against a stock of 5: the first is dispensed and the second is refused with 2 available. The first decrement stays. |
| MedicineRoutes.ValidMedicineRequest | routes/medicines.js:8-39 | The request schema of create and update: a name of 2 to 200 characters, optional names within their lengths, a known category, the required strings present, expiry after manufacture, non-negative stock and prices, and a maximum of at least 1. |
| MedicineRoutes.ResolvedStock | routes/medicines.js:19-23 | The current stock is kept. A supplied minimum or maximum is kept, and an absent one becomes 10 or 1000. |
| MedicineRoutes.NewMedicine | routes/medicines.js:150-174 | A valid request yields an active medicine within every schema bound, created by the user. Every field comes from the request: the names, category, dosage, strength, manufacturer, batch, dates and pricing, and the stock with its defaults applied. |
| MedicineRoutes.UpdatedMedicine | routes/medicines.js:231-241 | The request's fields replace the stored ones: the update is the document create would build, except that an absent generic name or brand is kept, as are the active flag and the creator. An absent stock minimum or maximum is therefore reset to 10 or 1000. The result is within every schema bound. |
| MedicineRoutes.CreateMedicine | routes/medicines.js:147-190 | An invalid request or a batch held by any medicine changes nothing. Otherwise the new medicine is appended. The store stays valid. |
| MedicineRoutes.UpdateMedicine | routes/medicines.js:195-257 | Corrected (see Findings): as written every such update is refused, which `UpdateOutcomeAsWritten` and `UpdateAlwaysFailsAsWritten` model. Validation comes first, then not-found. A conflict only when the batch changes to one that another medicine holds; otherwise the document is replaced. The store stays valid. |
| MedicineRoutes.ExpiryValidator | models/Medicine.js:47-52 | With no document visible the validator refuses. With one visible it accepts iff expiry > manufacturing date. |
| MedicineRoutes.UpdateOutcomeAsWritten | routes/medicines.js:195-241 | The update handler as written: the handler's checks, then update validators that see no document. |
| MedicineRoutes.UpdateAlwaysFailsAsWritten | routes/medicines.js:231-241 | As written, every update that passes the handler's checks is refused by the expiry validator. |
| MedicineRoutes.CorrectedExpiryValidatorAccepts | models/Medicine.js:47-52 | Comparing against the manufacturing date being written, the validator accepts every valid request. |
| MedicineRoutes.DeleteMedicine | routes/medicines.js:262-289 | The record stays, marked inactive, with `updatedBy` set. The collection keeps its length and stays valid. |
| MedicineRoutes.DeletedIsNotMatched | routes/medicines.js:273-276 | A soft-deleted medicine is never found by the lookups of billing and prescription linkage, but its batch stays taken. |
| MedicineRoutes.ParseStockOperation | routes/medicines.js:356-361 | Exactly `add`, `subtract` and `set` are accepted, and each selects its own operation. |
| MedicineRoutes.QuantityAccepted | routes/medicines.js:363-368 | A missing, zero or negative quantity is refused. Every positive quantity is accepted. |
| MedicineRoutes.AdjustedStock | routes/medicines.js:379-397 | Add raises the level by the quantity, subtract lowers it, set replaces it. Only a subtraction below zero is refused. From a non-negative level with a positive quantity the result is never negative. |
| MedicineRoutes.SetCannotReachZero | routes/medicines.js:363-368 | The quantity must be positive, so `set` can never make the stock 0. |
| MedicineRoutes.AdjustStock | routes/medicines.js:352-412 | Errors come in this order: operation, then quantity, then not-found, then insufficient stock, and none changes anything. On success only the current level and `updatedBy` change. The store stays valid. |
| PrescriptionRoutes.ValidPrescriptionRequest | routes/prescriptions.js:42-79 | The request schema: a patient and a doctor name of 2 to 100 characters, an age from 0 to 150, a known gender, mobile-number phone and contact, at least one valid line, and no key outside the schema, so no client-supplied identifier. |
| PrescriptionRoutes.LinkLine | routes/prescriptions.js:200-212 | The link is the first active medicine whose name contains the line's name, ignoring case; none iff no such medicine exists. The line's data is kept and the instruction default is applied. |
| PrescriptionRoutes.LinkMedicines | routes/prescriptions.js:200-212 | Every line is linked on its own, in order. |
| PrescriptionRoutes.LinkingIgnoresStock | routes/prescriptions.js:202-205 | Stock movements never change what a line links to. |
| PrescriptionRoutes.Draft | routes/prescriptions.js:215-219 | The new document has status pending, no identifier and no dispensing data. Its date defaults to now and its lines are the linked lines. With any identifier it is within the schema bounds. |
| PrescriptionRoutes.Validate | models/Prescription.js:37-155 | The document is accepted iff it is within the schema bounds, including a non-empty identifier. |
| PrescriptionRoutes.SaveAsWritten | models/Prescription.js:158-175 | The save as the framework orders it: a document without an identifier is refused before the generator runs. |
| PrescriptionRoutes.Save | models/Prescription.js:158-175 | The save with the identifier assigned first: what it stores has a non-empty identifier and is within the schema bounds. |
| PrescriptionRoutes.CreateAlwaysFailsAsWritten | routes/prescriptions.js:215-219 | As written, every prescription built from a valid request is refused by validation. |
| PrescriptionRoutes.CreateSavesWithGeneratedId | routes/prescriptions.js:215-219 | With the corrected save, the same prescription is stored under the identifier generated for today's count. |
| PrescriptionRoutes.SavesAgreeOnStoredDocuments | routes/prescriptions.js:426 | On a stored, valid document both save orders keep it as it is. |
| PrescriptionRoutes.CreatePrescription | routes/prescriptions.js:188-235 | Corrected (see Findings): as written every valid request is refused, which `SaveAsWritten` and `CreateAlwaysFailsAsWritten` model. An invalid request changes nothing. Otherwise the draft is appended with the identifier for today's count, and the store stays valid. |
| PrescriptionRoutes.ReplaceKeepsValid | routes/prescriptions.js:276-287 | Replacing a prescription by a valid one with the same identifier and creation day keeps the store valid. |
| PrescriptionRoutes.Replaced | routes/prescriptions.js:276-287 | Patient, doctor and lines are replaced, and the date only when one is given. The identifier, status, dispensing data, creation day and creator are kept. |
| PrescriptionRoutes.UpdatePrescription | routes/prescriptions.js:240-303 | Not-found comes before validation. On success the document is replaced as `Replaced` states. The store stays valid. |
| PrescriptionRoutes.StatusUpdated | routes/prescriptions.js:418-424 | Any status can be set from any status. The dispensing fields are set only for dispensed or partially dispensed, and nothing else changes. |
| PrescriptionRoutes.BillLinkIsDispensing | routes/billing.js:178-188 | The prescription update made by bill creation is the status change to dispensed. |
| PrescriptionRoutes.UpdateStatus | routes/prescriptions.js:398-442 | An invalid status comes before not-found, and neither changes anything. On success the prescription becomes `StatusUpdated`, and the store stays valid. |
| Client.RolePermissions | script.js:671-676 | Exactly the four roles have a page list. Every listed page is one of the four pages, every role may open the prescriptions, and only admin and staff may open the dashboard. |
| Client.HasAccessToPage | script.js:666-680 | With no user or no role nothing is allowed. An unknown role may open only the dashboard. |
| Client.AccessFollowsTable | script.js:669-678 | For every spelling of a known role: admin opens all pages, doctor only prescriptions, pharmacist all but the dashboard, staff all but the inventory. |
| Client.AccessIgnoresCase | script.js:669 | Letter case of the role never matters. |
| Client.ElapsedSince | script.js:2459-2468 | Each elapsed time falls in exactly one bucket: seconds below 60, minutes below 3600, hours below 86400, days otherwise. Each bucket holds the whole number of its unit, rounded down. |
| Client.FormatTimeAgo | script.js:2459-2468 | The text is the bucket `ElapsedSince` picks, rendered as "n seconds/minutes/hours/days ago". |
| Client.ElapsedEdges | script.js:2462-2467 | At the bucket edges: 59.999 s is 59 seconds, 60 s is one minute, and a time 1 ms in the future is -1 seconds. |
| Client.MatchesStockFilter | script.js:1767-1779 | The stock-status filter: a missing level reads as 0. `in-stock` means current > minimum, `low-stock` 0 < current ≤ minimum, `out-of-stock` current = 0. Any other filter value lets everything through. |
| Client.StockFilterAgreesWithStatus | script.js:1770-1779 | For levels the schema allows, each filter matches exactly the medicines whose stock status has that name. |
| Client.StockFiltersDisjoint | script.js:1772-1778 | The three filters never overlap. |
| Client.Bounded | script.js:1117-1119 | The newest ten entries of a list, in order. |
| Client.AfterSave | script.js:1115-1119 | The new entry comes first and is followed by the newest older entries. The length is at most ten. |
| Client.SavesKeepNewest | script.js:1115-1119 | After any run of saves the list holds the newest ten of all entries, newest first. |
| Client.SavedPrescriptions.Save | script.js:1108-1123 | The stored list becomes `AfterSave` of the old list and the new entry. |

## Left out

- **Authentication, OCR and uploads, the dashboard reports, listing and search endpoints, and page rendering.** These are I/O or foreign libraries, or they are not part of this model. The acting user is a plain id.
- **Framework-side string normalisation** (trimming, lowercasing, uppercasing) and the document schemas' email `match` pattern. Strings are stored as given. The model therefore does not capture inputs that pass the request schema but fail the document schema:
  - a patient name made only of spaces, which trimming empties, fails the prescription save;
  - a customer name made only of spaces, or an email such as `a@b.info` that the bill schema's pattern refuses, fails `Bill.create` after the item loop. The source then leaves the stock decremented and creates no bill, a case `BillingRoutes.CreateBill`'s contract does not include.
- **The request schema's email check.** Joi's `.email()` on the bill request (routes/billing.js:14) refuses a malformed address with a 400 before any stock changes. `BillingRoutes.ValidBillRequest` accepts any non-empty email.
- **Identifiers that are not well-formed ids** (cast errors) and the 500 responses for unexpected exceptions.
- **Floating point.** Money uses exact reals and quantities use integers. A fractional quantity and the `NaN` results of a non-numeric quantity in the stock adjustment are not modelled.
- **Regular-expression metacharacters** in medicine names are not interpreted: names match as plain text. Case folding covers ASCII letters only.
- **Role tables read through the object prototype** (a role named `constructor`, for example) are not modelled.
- **Clock and calendar.** The current time, the local day and the date six months ahead are parameters. `setMonth` arithmetic and years outside 1000-9999 are not modelled.
- **Concurrency.** Each handler runs as one sequential step over an in-memory store. Races between requests and the parallel lookups of prescription linkage are not modelled.
- **The second bill DELETE handler** (routes/billing.js:328 onward) is shadowed by the first one and never runs.
- **The prescription hard delete** is not modelled. With it, the running count of a day can drop, and a later prescription would receive the identifier of one that still exists.
- **Schema validation during the cancel's save** is not modelled. Every stored bill is assumed to pass it.
- **Document fields that no modelled rule reads** are not modelled:
  - of a medicine: description, side effects, contraindications, storage conditions, the prescription-required flag and the supplier;
  - of a prescription: diagnosis, symptoms, vital signs, allergies, notes, the scanned image, the patient's address and patient id, and the doctor's qualification, registration number and hospital. Their only schema rule is trimming.
- **The client's billing preview, local storage and display** are not modelled.
- BillingRoutes.UpdateBill: does not model the update validators on the bill fields, and the body's keys are limited to the bill's schema paths; the replaced values are stored as given.

## Findings

| source | as written | input that shows it | evidently intended | confidence | as-written member | corrected member |
|---|---|---|---|---|---|---|
| models/Prescription.js:38-42, 158-175 | `prescriptionId` is `required`, but it is generated in a `pre('save')` hook. The framework validates a document before running its save hooks. The request schema refuses a client-supplied identifier, so every new prescription fails validation. | Any valid create body, such as patient "Asha Rao", doctor "Dr Mehta" and one line of 10 tablets: the save is refused with a validation error. | Generate the identifier before validation, for example in a `pre('validate')` hook, so that a new prescription is stored under the generated id. | medium, not executed (depends on the framework's hook order) | PrescriptionRoutes.CreateAlwaysFailsAsWritten | PrescriptionRoutes.CreateSavesWithGeneratedId |
| models/Medicine.js:47-52, routes/medicines.js:231-241 | The expiry validator compares with `this.manufacturingDate`. The update runs with `runValidators`, and an update validator's `this` is not the document, so the comparison is with an undefined value and is false. | Any valid PUT body for an existing medicine, such as the unchanged batch with expiry after manufacture: the update is refused and answered with a server error. | Compare the expiry date with the manufacturing date being written, which the request schema already checks. | medium, not executed (depends on the framework's update-validator context) | MedicineRoutes.UpdateAlwaysFailsAsWritten | MedicineRoutes.CorrectedExpiryValidatorAccepts |
