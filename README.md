# Hospital ledger: a verified model

This project models the logic of a hospital management application: an Express/Mongoose
backend and a React frontend. The model covers:

- **Medicine stock ledger.**
  - The medicine record's save hook, which derives the status (Expired, Out of Stock, Low
    Stock, Available).
  - Restock and subtract, with subtraction clamped at zero.
  - Issue, with an oversell guard.
  - The low-stock and expired listings.
  - The pharmacy's item-by-item issuance of a prescription and its pending-prescription list.
- **Bed allocation.**
  - Ward and allocation records with their enums and defaults.
  - Admission, which takes a bed from the ward's counter.
  - Discharge, which charges the rounded-up days at the ward's daily rate and returns the bed.
  - Append-only daily notes.
  - The admitted listing.
  - The bed-count invariant: for every ward, free beds plus admitted allocations equal total
    beds.
- **Billing.**
  - Bill generation: a subtotal over five charge categories, then total = subtotal + tax −
    discount.
  - Payments, which add to what has been paid and stamp the payment date once the bill is
    covered.
  - The save hook, which re-derives the amount due, sets the payment status (Unpaid, Partial,
    Paid) and sets a sticky `paid` flag.
  - The unpaid listing and the revenue statistics.
- **Small pure cores.**
  - The patient-ID formatter used at registration.
  - On the frontend:
    - the password rules and the two forms that apply them;
    - the availability toggle;
    - the consultation form's handlers;
    - the comma-list parser;
    - bill filtering and totals;
    - the selection of prescription lines to issue;
    - the search filters;
    - the flattening of prescriptions across visit records.

Conventions:

- Money, stock and timestamps are integers: minor units and milliseconds since the epoch.
- The current time is a parameter.
- Collections are maps from key to record. The classes `Inventory.MedicineStore`,
  `Pharmacy.Dispensary`, `BillingRoutes.BillingLedger` and `Wards.WardRegistry` hold them,
  with one method per route handler that changes state.
- Each method is proved against a function of the old state:
  - `Pharmacy.IssueAll` for the issuance loop;
  - `Wards.Admit`, `Wards.Discharge` and `Wards.AddNote` for the ward routes;
  - `BillingRoutes.NewBill` and `BillingRoutes.ApplyPayment` for billing.
  Lemmas about those functions carry the properties.
- The frontend handlers build new state from old without mutation, so they are functions on
  value records.
- The one imperative frontend loop, in `loadPrescriptions`, is a method proved against
  `PrescriptionHistory.Flatten`.

Modules, one per file:

- Shared helpers: `Common` (Option, Result) and `Seqs` (filter, subsequence, sum, sort).
- `Text`: trim, ASCII lower-case, includes, split on one character, decimal digits, padStart.
- `PatientIds`.
- Medicine and pharmacy: `MedicineModel`, `Inventory`, `Pharmacy`.
- Billing: `BillingModel`, `BillingRoutes`.
- Wards: `WardModel`, `Wards`.
- Frontend pages:
  - `PharmacyPage`, `BillsPage`;
  - `Passwords`, `ChangePasswordForm`, `AddDoctorForm`;
  - `ConsultationForm`, `AddPatientForm`;
  - `DoctorsDirectory`, `SearchFilters`, `PrescriptionHistory`.

The model follows the code, including where the code does less than one might expect:

- Issuance does not check expiry.
- Admission does not check the ward's status or whether the bed is free.
- A stay has no one-day minimum.
- The backend does not skip prescription lines that were already issued.
- Payments are neither required to be positive nor clamped at the amount due.

## Model

| member | source | states |
|---|---|---|
| `PatientIds.IdShape` | backend/routes/auth.js:105 | The ID is "PAT" then at least five characters, all digits. It ends with the full decimal rendering of count + 1. It has length 3 + max(5, number of digits), so padding never truncates. |
| `PatientIds.IdLengthBelowLimit` | backend/routes/auth.js:105 | For count + 1 < 100000 the ID is exactly 8 characters long. |
| `PatientIds.IdNumberValue` | backend/routes/auth.js:104-105 | The characters after the prefix are digits whose decimal value is count + 1. |
| `PatientIds.IdInjective` | backend/routes/auth.js:104-105 | Distinct patient counts give distinct IDs. |
| `MedicineModel.StatusClassification` | backend/models/Medicine.js:71-82 | Expired iff expiry < now. Out of Stock iff not expired and stock 0. Low Stock iff not expired and 0 ≠ stock ≤ reorder level. Available iff not expired and stock > reorder level. |
| `MedicineModel.Save` | backend/models/Medicine.js:71-82 | Saving changes only the status. The new status is Expired iff expiry < now. Otherwise it is Out of Stock iff the stock is 0, Low Stock iff the stock is non-zero and at most the reorder level, and Available iff the stock exceeds the reorder level. This holds for any reorder level, negative included. |
| `MedicineModel.SaveIdempotent` | backend/models/Medicine.js:71-82 | Saving twice at the same instant equals saving once. |
| `MedicineModel.NewMedicine` | backend/models/Medicine.js:38-46 | Omitted stock defaults to 0 and omitted reorder level to 50. Given values are kept. The created record is already in saved form. |
| `MedicineModel.NewMedicineWithoutStockIsOutOfStock` | backend/models/Medicine.js:38-41 | A non-expired medicine created without a stock count is Out of Stock. |
| `Inventory.StockAfterUpdate` | backend/routes/medicines.js:63-67 | "add" adds exactly the quantity. "subtract" gives max(0, stock − quantity). Any other operation leaves the stock unchanged. |
| `Inventory.AddThenSubtractRestores` | backend/routes/medicines.js:63-67 | Adding then subtracting the same quantity restores a non-negative stock. |
| `Inventory.UpdateKeepsStockNonNegative` | backend/routes/medicines.js:63-67 | Subtract, or an add of a non-negative quantity, keeps a non-negative stock non-negative. |
| `Inventory.IssueStock` | backend/routes/medicines.js:86-91 | It succeeds iff stock ≥ quantity, and is otherwise "Insufficient stock". On success the stock drops by exactly the quantity, stays ≥ 0, and the record is saved. |
| `Inventory.IssueThenRestockRestores` | backend/routes/medicines.js:86-91 | An issue followed by a restock of the same quantity gives back the stock. |
| `Inventory.IssueScenario` | backend/routes/medicines.js:86-91 | Stock 10 with reorder level 5: issuing 6 gives Low Stock with 4 left, issuing 4 gives Out of Stock, and issuing 1 more is refused. |
| `Inventory.LowStockReportSpec` | backend/routes/medicines.js:119-124 | The listing is sorted by stock. It holds exactly the Low Stock and Out of Stock medicines, each as often as stored. |
| `Inventory.ExpiredReportSpec` | backend/routes/medicines.js:135-137 | The listing is sorted by expiry date and is a permutation of the medicines whose expiry is before now, whatever their stored status. |
| `Inventory.MedicineStore.UpdateStock` | backend/routes/medicines.js:57-70 | An unknown id gives not-found and changes nothing. Otherwise only that medicine changes, to its saved record with the updated stock. |
| `Inventory.MedicineStore.Issue` | backend/routes/medicines.js:80-91 | An unknown id gives not-found. The outcome is `IssueStock`'s. Only the issued medicine changes, and only on success. |
| `Pharmacy.Issuer` | backend/routes/pharmacy.js:69 | The issuer is never empty, and is the user's name when there is one. |
| `Pharmacy.FirstMatch` | backend/routes/pharmacy.js:62-64 | The index of the first line with that medicine id, or none when no line has it. |
| `Pharmacy.MarkIssued` | backend/routes/pharmacy.js:66-70 | Without a line for the medicine, nothing changes. Otherwise the first line for it is marked issued, with date now and the issuer, and every other line is unchanged. |
| `Pharmacy.IssueOne` | backend/routes/pharmacy.js:45-76 | A missing medicine appends one error and nothing else changes; so does a short stock. Otherwise: the stock drops by exactly the quantity and stays ≥ 0; the medicine is saved; the first matching line is marked; one entry reports the stock left. |
| `Pharmacy.IssueAll` | backend/routes/pharmacy.js:44-77 | No medicine is added or removed, and the number of prescription lines is kept. |
| `Pharmacy.IssueAllAccounts` | backend/routes/pharmacy.js:44-77 | Every requested item lands in exactly one of the issued list and the error list. |
| `Pharmacy.IssueAllFrame` | backend/routes/pharmacy.js:44-77 | Medicines no item asks for keep their record, and issued lines stay issued. |
| `Pharmacy.IssueAllKeepsStockNonNegative` | backend/routes/pharmacy.js:52-59 | If all stock is non-negative before the loop, all stock is non-negative after it. |
| `Pharmacy.RepeatedRequestIssuesTwice` | backend/routes/pharmacy.js:44-77 | The same request sent twice, with stock for both, decrements the stock twice: already-issued items are not skipped. |
| `Pharmacy.Dispensary.IssueItem` | backend/routes/pharmacy.js:45-76 | One item's medicine stock, prescription lines, issued list and error list end up exactly as `IssueOne` gives them. |
| `Pharmacy.Dispensary.IssuePrescription` | backend/routes/pharmacy.js:32-90 | An unknown record gives not-found, with no stock or record change. Otherwise the stock, the record's lines and the report are exactly what `IssueAll` gives, and only that record changes. |
| `Pharmacy.Take` | backend/routes/pharmacy.js:18 | The first min(n, length) elements, in order. |
| `Pharmacy.PendingSpec` | backend/routes/pharmacy.js:11-23 | The list is an order-preserving selection of the 50 newest records with prescriptions (so at most 50 records). It holds exactly those of them with a line not yet issued, each as often as fetched. |
| `PharmacyPage.ItemsToIssue` | frontend/src/pages/staff/PharmacyManagement.jsx:41-51 | On success it gives the lines not yet issued, mapped in order to (medicine, quantity) pairs, and at least one of them. |
| `PharmacyPage.IssueButtonMatchesHandler` | frontend/src/pages/staff/PharmacyManagement.jsx:203 | The button is shown iff the handler gets past "All medicines already issued". A request is built iff the button shows and every pending line names a medicine. |
| `PharmacyPage.ItemsToIssueFeedsDispensary` | frontend/src/pages/staff/PharmacyManagement.jsx:54 | Sending the selection to the issuance loop accounts for each pending line once. |
| `PharmacyPage.StockLabelAgreesWithStatus` | frontend/src/pages/staff/PharmacyManagement.jsx:65-69 | For a non-expired medicine the label agrees with the status the save hook derives. The label never depends on expiry. |
| `BillingModel.PaymentMethodRoundTrip` | backend/models/Billing.js:121-125 | Every enum name parses back to itself, and only enum names parse. |
| `BillingModel.PaymentStatusClassification` | backend/models/Billing.js:153-160 | Unpaid iff nothing paid, even at total 0. Paid iff paid ≠ 0 and paid ≥ total. Partial otherwise. |
| `BillingModel.ApplySaveHook` | backend/models/Billing.js:151-162 | amountDue = total − paid and the status is re-derived. `paid` becomes true when fully paid and is otherwise kept. Nothing else changes. |
| `BillingModel.SaveHookSpec` | backend/models/Billing.js:151-162 | The hook establishes its invariant. It fixes consistent bills, is idempotent, and never clears `paid`. |
| `BillingRoutes.PriceMedicines` | backend/routes/billing.js:67-72 | Each medicine line gets total = quantity × unit price, with missing values counting as 0. |
| `BillingRoutes.PriceMedicineLines` | backend/routes/billing.js:67-72 | The loop writes each line's total and returns exactly the priced lines (`PriceMedicines`). The amount it adds to the subtotal is the sum of the line totals. |
| `BillingRoutes.PriceCharges` | backend/routes/billing.js:52-87 | The forEach loops yield the charges with line and room totals written in, and subtotal = fee + lab costs + medicine totals + room total + other amounts. |
| `BillingRoutes.SumPricedMedicines` | backend/routes/billing.js:67-72 | The written-in medicine totals add up to the medicine part of the subtotal. |
| `BillingRoutes.PricingSpec` | backend/routes/billing.js:67-80 | Client-sent totals are overwritten. The room total is days × rate. Pricing again changes nothing and keeps the subtotal. |
| `BillingRoutes.SubtotalAddLabTest` | backend/routes/billing.js:60-64 | One more lab test adds exactly its cost, or 0 without a cost. |
| `BillingRoutes.SubtotalNonNegative` | backend/routes/billing.js:52-87 | With no negative input the subtotal is not negative. |
| `BillingRoutes.NewBill` | backend/routes/billing.js:89-94 | A bill is created iff the payment method is absent or known, the bill and patient ids are non-empty, the subtotal, tax, discount and total are non-negative and every line item is valid. Otherwise the result is a validation error. A created bill passes the schema and is hook-consistent, with the computed subtotal and total = subtotal + tax − discount. It carries the request's patient, items, amount paid (0 when absent) and parsed method. It is paid iff the request says so or the amount paid is non-zero and covers the total. Without a payment it is Unpaid and owes its total. |
| `BillingRoutes.ItemsDoNotAffectAmounts` | backend/models/Billing.js:62-83 | Line items are validated but change no amount. |
| `BillingRoutes.ApplyPayment` | backend/routes/billing.js:114-121 | The amount is added to what was paid and the method replaced. The payment date is stamped iff the cumulative amount ≥ total. The bill stays hook-consistent, a set `paid` stays set, and nothing else changes. |
| `BillingRoutes.PaymentOutcome` | backend/routes/billing.js:114-121 | It fails with a validation error iff the method is given and not in the enum. |
| `BillingRoutes.PaymentsAccumulate` | backend/routes/billing.js:114 | Two payments add up in both paid and due. |
| `BillingRoutes.PaidStaysPaid` | backend/models/Billing.js:155-157 | A Paid bill with a non-negative total stays Paid under non-negative payments. |
| `BillingRoutes.OverpaymentNotClamped` | backend/routes/billing.js:114 | Paying more than is due leaves a negative amount due and status Paid. |
| `BillingRoutes.RefundKeepsPaidFlag` | backend/models/Billing.js:117-120 | Paying 100 of 100 then −30 gives Partial while `paid` stays true. |
| `BillingRoutes.UnpaidBillsSpec` | backend/routes/billing.js:131-135 | The listing is a permutation of the Unpaid and Partial bills: exactly the bills with nothing paid or less than the total paid, each as often as stored, even when `paid` is set. It is sorted newest `createdAt` first. |
| `BillingRoutes.Revenue` | backend/routes/billing.js:150-171 | None iff no bill is in the range. Otherwise the bill count is the number of bills in the range, and the paid-bill count is the number of those flagged paid (so at most the bill count). |
| `BillingRoutes.RevenueOfOneBill` | backend/routes/billing.js:157-169 | One bill in range yields its own total, paid and due amounts, a count of 1 and a paid count of 1 iff it is flagged paid. One bill out of range yields no statistics. |
| `BillingRoutes.RevenueOfConcatenation` | backend/routes/billing.js:150-169 | The statistics of two runs of bills merge field by field, each `$sum` adding, with no statistics as the unit. With `RevenueOfOneBill` this fixes every field of `Revenue` for any list. |
| `BillingRoutes.RevenueDueIdentity` | backend/routes/billing.js:157-169 | Over hook-consistent bills, total due = total revenue − total paid. |
| `BillingRoutes.RevenueWithoutRangeCountsAll` | backend/routes/billing.js:150-155 | Without both dates every bill is counted. |
| `BillingRoutes.BillingLedger.Generate` | backend/routes/billing.js:47-102 | It keeps the ledger invariant: keyed by billId, schema-valid, hook-consistent, unique invoice numbers. A taken billId or invoice number is a duplicate-key error. Only the new bill is added. |
| `BillingRoutes.BillingLedger.RecordPayment` | backend/routes/billing.js:105-127 | An unknown bill gives not-found and a bad method a validation error, both changing nothing. Otherwise only that bill changes, as `PaymentOutcome` says, and the invariant is kept. |
| `BillsPage.FilterTabsPartition` | frontend/src/pages/patient/BillsPayment.jsx:45-49 | 'all' returns the list unchanged. 'paid' and 'unpaid' are order-preserving selections that split the list's multiset between them. |
| `BillsPage.TotalsAddUp` | frontend/src/pages/patient/BillsPayment.jsx:51-52 | Total paid + total unpaid = the sum of all totals. |
| `BillsPage.StatusAndFlagDisagree` | frontend/src/pages/patient/BillsPayment.jsx:46-52 | A bill with status Paid but `paid` false shows under 'paid' yet counts as unpaid. |
| `WardModel.NewWard` | backend/models/Ward.js:40-44 | Status defaults to Active, and the bed counts and rate are as given. |
| `WardModel.NewAllocation` | backend/models/Ward.js:85-102 | A new allocation is Admitted with 0 days, 0 charges, no discharge date and no notes. |
| `Wards.ConsistentBedsBounded` | backend/models/Ward.js:22-33 | Under the invariant, 0 ≤ free beds ≤ total beds, and occupied beds equal admitted allocations. |
| `Wards.AdmitOutcome` | backend/routes/wards.js:96-120 | These are errors that change nothing: a missing ward, then no free bed, then a schema failure, then a taken key. Otherwise one Admitted allocation is added, and that ward loses exactly one free bed. |
| `Wards.AdmitAsWrittenRejected` | backend/routes/wards.js:109-116 | As written, with no allocationId, every admission fails and changes nothing. Past the bed check it is a validation error. |
| `Wards.AdmitPreservesConsistent` | backend/routes/wards.js:104-120 | Admission keeps the bed-count invariant. |
| `Wards.CeilDiv` | backend/routes/wards.js:148 | `Math.ceil(a / b)` for b > 0: the least q with a ≤ q·b. |
| `Wards.StayDaysRounding` | backend/routes/wards.js:146-148 | A stay costs 0 days at 0 ms and 1 day from 1 ms up to one full day, and a day and 1 ms costs 2. |
| `Wards.DischargeOutcome` | backend/routes/wards.js:133-162 | These are errors that change nothing: an unknown allocation, one already Discharged, a missing ward. Otherwise the allocation is Discharged now, charged its rounded-up days × the daily rate, and its ward gains exactly one free bed. |
| `Wards.DischargePreservesConsistent` | backend/routes/wards.js:141-162 | Discharge keeps the bed-count invariant. |
| `Wards.AdmitThenDischargeRestoresBeds` | backend/routes/wards.js:119-120 | Admitting, then discharging that allocation, gives every ward back its free beds. |
| `Wards.AddNote` | backend/routes/wards.js:175-190 | An unknown allocation is not-found. Otherwise exactly one note dated now is appended, in any status, and nothing else changes. |
| `Wards.AddNoteAppendOnly` | backend/routes/wards.js:184-188 | The old notes are a prefix of the new, one shorter. |
| `Wards.AddNotePreservesConsistent` | backend/routes/wards.js:184-190 | Notes keep the bed-count invariant. |
| `Wards.AdmittedAllocationsSpec` | backend/routes/wards.js:200-203 | The listing holds exactly the Admitted allocations, each as often as stored, with the latest admission first. |
| `Wards.WardRegistry.AdmitPatient` | backend/routes/wards.js:94-130 | Its outcome and new state are `Admit`'s on the old state, and the invariant is kept. |
| `Wards.WardRegistry.DischargePatient` | backend/routes/wards.js:133-172 | Its outcome and new state are `Discharge`'s, and the invariant is kept. |
| `Wards.WardRegistry.AddDailyNote` | backend/routes/wards.js:175-195 | Its outcome and new state are `AddNote`'s, and the invariant is kept. |
| `Passwords.FirstFailure` | frontend/src/pages/ChangePassword.jsx:35-55 | None iff all five rules hold. Otherwise it names a failing rule all of whose predecessors hold. |
| `Passwords.FirstFailureIsEarliest` | frontend/src/pages/ChangePassword.jsx:35-55 | Any failing rule is at or after the one reported. |
| `Passwords.StrongExample` | frontend/src/pages/ChangePassword.jsx:35-38 | "Abcdef1!" passes. 7 and 16 characters fail on length. |
| `ChangePasswordForm.Submit` | frontend/src/pages/ChangePassword.jsx:28-71 | A request is sent iff the passwords match, all rules hold and the new password differs from the current one. It carries email, current and new password. Failures are reported in the order mismatch, rule, reuse. |
| `ChangePasswordForm.WeakReuseReportedAsWeak` | frontend/src/pages/ChangePassword.jsx:56-59 | A weak password equal to the current one is reported as weak. |
| `AddDoctorForm.ToggleDay` | frontend/src/pages/admin/AddDoctor.jsx:45-54 | A present day is removed everywhere and the rest keep their order. An absent day is appended. |
| `AddDoctorForm.ToggleTwiceRestores` | frontend/src/pages/admin/AddDoctor.jsx:46-48 | Toggling an absent day twice restores the list. |
| `AddDoctorForm.TogglePresentTwice` | frontend/src/pages/admin/AddDoctor.jsx:46-48 | Toggling a present day twice moves it, once, to the end. |
| `AddDoctorForm.SubmissionOf` | frontend/src/pages/admin/AddDoctor.jsx:105-112 | Every field except confirmPassword is sent, unchanged. |
| `AddDoctorForm.Submit` | frontend/src/pages/admin/AddDoctor.jsx:62-112 | It submits iff the email ends with "@doctor.com", the passwords match and all rules hold. Failures are reported in the order domain, mismatch, rule. |
| `AddDoctorForm.DomainCheckedFirst` | frontend/src/pages/admin/AddDoctor.jsx:62-66 | A wrong domain is reported whatever the passwords are. |
| `ConsultationForm.SubFieldOfNestedName` | frontend/src/pages/doctor/CompleteAppointment.jsx:70 | `"group.field".split('.')[1]` is `field` when neither part has a dot. |
| `ConsultationForm.HandleChange` | frontend/src/pages/doctor/CompleteAppointment.jsx:66-92 | A `vitalSigns.`/`admissionDetails.` name sets only that subfield of its group. Any other name sets that plain field, to `checked` for a checkbox. Nothing else changes. |
| `ConsultationForm.EditVitalSign` | frontend/src/pages/doctor/CompleteAppointment.jsx:69-78 | Editing `vitalSigns.x` sets x and keeps the other vital signs and fields. |
| `ConsultationForm.AddSymptom` | frontend/src/pages/doctor/CompleteAppointment.jsx:95-103 | Non-blank input is appended trimmed and the box cleared. Blank input changes nothing. |
| `ConsultationForm.AddedSymptomIsTrimmed` | frontend/src/pages/doctor/CompleteAppointment.jsx:96-99 | The entry added is non-empty and already trimmed. |
| `ConsultationForm.RemoveSymptom` | frontend/src/pages/doctor/CompleteAppointment.jsx:105-110 | Exactly index i is dropped, the rest keep their order, and an out-of-range index changes nothing. |
| `ConsultationForm.AddThenRemoveSymptom` | frontend/src/pages/doctor/CompleteAppointment.jsx:95-110 | Adding then removing at the new index restores the list. |
| `ConsultationForm.FindMedicine` | frontend/src/pages/doctor/CompleteAppointment.jsx:118 | The index of the first medicine with the id, or none. |
| `ConsultationForm.MedicineName` | frontend/src/pages/doctor/CompleteAppointment.jsx:126 | The name is never empty. It is a matching medicine's name or "Unknown". |
| `ConsultationForm.AddPrescriptionItem` | frontend/src/pages/doctor/CompleteAppointment.jsx:113-139 | Missing medicine, dosage or quantity only sets the error. Otherwise exactly one line is appended, carrying every field of the draft and the chosen medicine's name; the draft is reset and the error cleared. |
| `ConsultationForm.AddedItemName` | frontend/src/pages/doctor/CompleteAppointment.jsx:118-126 | The line takes the first matching medicine's non-empty name. |
| `ConsultationForm.UnknownMedicineName` | frontend/src/pages/doctor/CompleteAppointment.jsx:126 | With no matching medicine the name is "Unknown". |
| `ConsultationForm.RemovePrescriptionItem` | frontend/src/pages/doctor/CompleteAppointment.jsx:142-147 | Exactly index i is dropped, the rest keep their order, and an out-of-range index changes nothing. |
| `ConsultationForm.AddThenRemovePrescriptionItem` | frontend/src/pages/doctor/CompleteAppointment.jsx:113-147 | Adding then removing the last line restores the list. |
| `AddPatientForm.ParseList` | frontend/src/pages/admin/AddPatient.jsx:66-68 | Empty input iff an empty list. Otherwise there is one entry per piece, each the trimmed piece. |
| `AddPatientForm.ParseListShape` | frontend/src/pages/admin/AddPatient.jsx:66-68 | There are (commas + 1) entries, each trimmed and comma-free. |
| `AddPatientForm.EmptySegmentKept` | frontend/src/pages/admin/AddPatient.jsx:66-68 | "p,,q" gives [trim p, "", trim q]: empty segments are kept. |
| `AddPatientForm.PayloadOf` | frontend/src/pages/admin/AddPatient.jsx:45-71 | Address and emergency-contact fields are nested unchanged, the history fields are parsed, and the other fields are copied. |
| `AddPatientForm.PayloadDeterminesAddressAndContact` | frontend/src/pages/admin/AddPatient.jsx:54-64 | Two forms with the same payload agree on every address and emergency-contact field: none of them is lost. |
| `DoctorsDirectory.FilterDoctorsSpec` | frontend/src/pages/DoctorsList.jsx:49-72 | The result is an order-preserving selection. A doctor is listed iff every set criterion holds: a case-insensitive search on name, licence or email, then exact specialization and department. The result is one filter of the input by all set criteria, so duplicates are all kept. |
| `DoctorsDirectory.FilterDoctorsIsOneFilter` | frontend/src/pages/DoctorsList.jsx:49-72 | The three steps, each skipped when its criterion is empty, equal a single filter by the conjunction of the set criteria. |
| `DoctorsDirectory.ClearFilters` | frontend/src/pages/DoctorsList.jsx:74-78 | All three criteria become empty. |
| `DoctorsDirectory.ClearedFiltersListAll` | frontend/src/pages/DoctorsList.jsx:50-69 | With cleared criteria the whole list is returned. |
| `DoctorsDirectory.EmptySearchMatchesEveryone` | frontend/src/pages/DoctorsList.jsx:53 | An empty search term would match every doctor, so skipping it is harmless. |
| `SearchFilters.ManagePatientsFilter` | frontend/src/pages/admin/ManagePatients.jsx:81-85 | The result is an order-preserving selection. A row is kept iff its name, email or patientId contains the term, ignoring case. Each kept row appears as often as in the input. |
| `SearchFilters.ManageDoctorsFilter` | frontend/src/pages/admin/ManageDoctors.jsx:36-40 | The result is an order-preserving selection. A row is kept iff its name, email or specialization contains the term, ignoring case. Each kept row appears as often as in the input. |
| `SearchFilters.DoctorPatientsFilter` | frontend/src/pages/doctor/DoctorPatients.jsx:25-29 | The result is an order-preserving selection. A row is kept iff its name, patientId or email contains the term, ignoring case. Each kept row appears as often as in the input. |
| `SearchFilters.PatientSearchesAgree` | frontend/src/pages/doctor/DoctorPatients.jsx:25-29 | The doctor's patient search returns exactly what the management search does. |
| `SearchFilters.EmptyTermMatchesPresentField` | frontend/src/pages/admin/ManagePatients.jsx:82-84 | A field matches the empty term iff it is present. |
| `SearchFilters.AbsentFieldNeverMatches` | frontend/src/pages/admin/ManageDoctors.jsx:37-39 | A missing field matches no term. |
| `SearchFilters.EmptyTermKeepsRowsWithAField` | frontend/src/pages/admin/ManagePatients.jsx:81-85 | An empty term keeps exactly the patients with some field present. |
| `SearchFilters.EmptyTermKeepsDoctorsWithAField` | frontend/src/pages/admin/ManageDoctors.jsx:36-40 | An empty term keeps exactly the doctors with some field present. |
| `SearchFilters.SearchIgnoresCase` | frontend/src/pages/admin/ManagePatients.jsx:81-85 | A term and its lower-case form select the same rows. |
| `PrescriptionHistory.LoadPrescriptions` | frontend/src/pages/patient/Prescriptions.jsx:27-39 | The nested loops produce exactly the record-by-record flattening. |
| `PrescriptionHistory.PushRows` | frontend/src/pages/patient/Prescriptions.jsx:29-36 | The inner loop appends exactly the record's rows, one per entry, in order, after the rows already collected. |
| `PrescriptionHistory.FlattenLength` | frontend/src/pages/patient/Prescriptions.jsx:27-39 | The number of rows is the sum of the records' entry counts. |
| `PrescriptionHistory.FlattenPrefix` | frontend/src/pages/patient/Prescriptions.jsx:28-38 | The rows of earlier records are a prefix. |
| `PrescriptionHistory.FlattenPosition` | frontend/src/pages/patient/Prescriptions.jsx:31-36 | Entry j of record i sits at (number of rows of the records before i) + j, carrying record i's date, doctor and diagnosis. `FlattenLength` gives that number as the sum of their entries. |
| `PrescriptionHistory.RecordWithoutEntriesAddsNothing` | frontend/src/pages/patient/Prescriptions.jsx:29 | A record with an absent or empty list adds no row. |

## Left out

- Concurrency. Every handler reads a record, mutates it and saves it, so concurrent requests
  can lose updates. Each handler is modelled as one sequential step on in-memory maps.
- Query plumbing.
  - `find`, `populate`, `limit`, `save` and the aggregation pipeline appear only as the
    predicates and orders they apply.
  - The listings take their input as a sequence in stored order.
  - The pending list takes its records already newest first.
  - A listing sort that Mongo applies after filtering is modelled by an insertion sort whose
    result is proved sorted and a permutation. Ties are not ordered as Mongo would order them.
- Crypto, tokens and the role gates of the routes: bcrypt and jsonwebtoken are not part of
  this model.
- Dates. `new Date()` is the `now` parameter, and dates are milliseconds. Calendar and locale
  code is not modelled.
- Numbers.
  - JavaScript numbers are unbounded integers here, with money in minor units.
  - `parseInt`/`parseFloat` of the doctor form's experience and fee are not modelled: those
    fields stay text.
  - A missing payment amount (`undefined` added to a number gives NaN) is not modelled: the
    amount is always an integer.
- Lengths count Unicode scalar values, not UTF-16 code units, so the 8..15 password bounds
  differ from the browser's for characters outside the Basic Multilingual Plane.
- `toLowerCase` is modelled on ASCII letters only. `trim` removes the ECMAScript white-space
  and line-terminator set.
- Mongoose cast errors (an id that is not an ObjectId) are not modelled: such an id is treated
  as unknown.
- Ward create and edit (`backend/routes/wards.js:26-51`) overwrite bed counts freely. They are
  outside the bed-count invariant, which the registry's constructor establishes for wards whose
  free beds equal their total.
- The allocation status Transferred is never produced by any route. The invariant excludes it.
- Only allocations built by admission are stored, so the schema is checked when an allocation
  is created, not on every later save.
- Bills are keyed by `billId`, which is unique and required, rather than by the database's own
  document id.
- The MedicalRecord schema declares prescription lines without `medicineId`, `quantity` or
  `issued`. The line shape is the one the issuance route and the pharmacy page read and write.
- The prescriptions page reads `record.prescriptions`, but the schema's field is
  `prescription`. The model follows the page, so against records stored under that schema the
  page shows no rows.
- A doctor row in the directory whose name, licence number or email is missing would throw
  (there is no optional chaining there). The model takes those fields as always present.
- The GET list routes with query-string filters, and every route outside the core, are not
  modelled: appointments, patients, doctors, lab tests, medical records, reports and scripts.
- Rendering, routing, local storage, fetch wrappers and display-only helpers (colours,
  `toFixed`) are not modelled.
- `Wards.WardRegistry.DischargePatient`, `Wards.WardRegistry.AddDailyNote`, `Wards.Discharge` and
  `Wards.AddNote` look an allocation up by its `allocationId`, the key the allocation map uses.
  The routes (`backend/routes/wards.js:79`, `:135`, `:179`) look it up with `findById`, that is by
  the database's document id. The model keys allocations by one id only, so it does not capture
  a request that names an allocation by the other id.
- `BillingRoutes.NewBill` builds the bill with `BillingRoutes.Draft`, which fixes
  `paymentDate` to none and `createdAt` to now before the save hook sets `paymentStatus`. The
  route passes the client's body to `Billing.create` unchanged (`backend/routes/billing.js:94`),
  and the hook (`backend/models/Billing.js:151-162`) does not override `paymentDate` or
  `createdAt`. So a client-sent `paymentDate` or `createdAt` is stored, and a client-sent
  `paymentStatus` outside Unpaid, Partial and Paid fails validation. The model captures neither.
- `BillingRoutes.Revenue` does not state the three sums in its own contract. They are fixed by
  `BillingRoutes.RevenueOfOneBill` and `BillingRoutes.RevenueOfConcatenation`, which together
  determine every field for any list of bills. `BillingRoutes.RevenueDueIdentity` relates the
  three sums.

## Findings

| source | as written | input that shows it | evidently intended | confidence | as-written member | corrected member |
|---|---|---|---|---|---|---|
| backend/routes/wards.js:109-116 | `BedAllocation.create` is given patientId, wardId, bedNumber, admittedBy, reason and status, but no `allocationId`, which `backend/models/Ward.js:50-54` declares required and unique | any admission to an existing ward with a free bed, e.g. a ward with availableBeds 3 and a complete request | the route generates an allocation id (as registration does for patients), stores the allocation and takes one bed | not executed | `Wards.AdmitAsWrittenRejected` | `Wards.WardRegistry.AdmitPatient` |
