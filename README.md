# Bisnewar Residence rent billing — Dafny model

The app is a single-owner rent-billing tool. The owner keeps a directory of
tenants, each with a name, a room, a mobile number, a monthly rent and a water
bill. For the tenant being billed, the owner enters the electricity units and
any extra charges, reviews the total, and sends the bill as a WhatsApp
message. Each tenant's past payments are listed newest first.

This project models four parts of the app:

- **The billing session** (`billing_context.dfy`, module `BillingContext`).
  - `BillingSession` is a class holding the shared state: the selected tenant
    id, the cycle's units and extras, the billing date and the owner profile.
  - Selecting a tenant always starts a new cycle. Resetting the bill keeps the
    selection.
  - The electricity rate is 12 rupees per unit.
  - The total and the bill snapshot are functions of the session's state.
- **The tenant list and its form** (`tenant_list.dfy`, module `TenantList`).
  - The form's starting values and the mobile-number input filter.
  - Validation and its error messages.
  - How a submitted form is normalised into tenant fields.
  - The add, edit and delete handlers, and the screen's dialog state.
- **The bill summary** (`bill_summary.dfy`, module `BillSummary`).
  - The owner-profile dialog.
  - The WhatsApp message, modelled as the list of lines the handler appends
    (`BillLines`), each rendered to its text (`Render`).
  - The chat number and the link.
- **The payment history** (`history_view.dfy`, module `HistoryView`).
  - A missing history counts as empty.
  - The newest-first, stable sort.
  - The empty state, and each listed record's delete action.

Supporting modules:

- `Wrappers` gives `Option`, which stands for `null`/`undefined`.
- `Text` gives the string operations the app relies on:
  - `trim()`;
  - removing whitespace with `/\s/g`;
  - keeping only digits with `/\D/g`.

  Whitespace is the set JavaScript's `\s` and `trim()` share.
- `Records` gives the tenant, payment record, owner profile and bill
  snapshot types.
- `DirectoryCall` stands for the calls a handler makes to the tenant directory
  hook. That hook is not part of this model, so handlers return the calls they
  make instead of changing a directory.

Some runtime services are parameters:

- Number parsing (`parse`; `None` means NaN).
- Number and date formatting (`show`, and the `Formatters` record).
- URL encoding (`encode`).
- The clock (`now`).

Amounts are `real` and dates are `int` timestamps.

Three behaviours of the code that its data types do not suggest:

- **The mobile check.** It accepts an entry that has spaces inside, such as
  "98765 43210": whitespace is removed before the ten-digit test.
  `MobileAccepted` and `AcceptanceMeaning` state this.
- **Rent and water parsing.** Text that does not parse as a number (NaN)
  passes the check and is then stored as 0. `AmountRejected` and
  `NormalizePayload` state this.
- **Negative extra charges.** They are added to the total but never listed
  in the message. `ItemisedMatchesTotalIffExtrasNotNegative` states this.

## Model

| member | source | states |
|---|---|---|
| BillingContext.FindTenant | src/context/BillingContext.tsx:50 | the tenant found carries the id and is the first in directory order that does; nothing is found exactly when no tenant carries the id |
| BillingContext.BillingSession.constructor | src/context/BillingContext.tsx:45-48 | a fresh session has no selection, zero units and extras, today's date, and the stored owner profile (the empty default when none is stored) |
| BillingContext.BillingSession.SelectedTenant | src/context/BillingContext.tsx:50 | a resolved tenant is in the directory and carries the selected, non-empty id; there is none exactly when nothing is selected, the id is empty (falsy), or no tenant carries it |
| BillingContext.BillingSession.ElectricityCharges | src/context/BillingContext.tsx:61 | 12 rupees per unit entered, whether or not a tenant is selected |
| BillingContext.BillingSession.TotalAmount | src/context/BillingContext.tsx:61-64 | 0 without a resolved tenant, otherwise rent + 12 × units + water + extras, with no clamping |
| BillingContext.BillingSession.GenerateBillData | src/context/BillingContext.tsx:66-83 | absent exactly when no tenant resolves; otherwise a snapshot of the tenant and the cycle at rate 12 whose charges equal units × rate and whose total is the sum of its four charges |
| BillingContext.BillingSession.SelectTenant | src/context/BillingContext.tsx:52-58 | selecting (or clearing) sets the id and starts a new cycle: units and extras 0, date now; directory and owner unchanged |
| BillingContext.BillingSession.SetElectricityUnits | src/context/BillingContext.tsx:46 | the units become the value given and nothing else changes |
| BillingContext.BillingSession.SetExtraCharges | src/context/BillingContext.tsx:47 | the extras become the value given and nothing else changes |
| BillingContext.BillingSession.SetBillingDate | src/context/BillingContext.tsx:48 | the date becomes the value given and nothing else changes |
| BillingContext.BillingSession.SetOwnerInfo | src/context/BillingContext.tsx:42 | the owner profile is replaced wholesale and nothing else changes |
| BillingContext.BillingSession.ResetBill | src/context/BillingContext.tsx:85-89 | a new cycle for the same tenant: units and extras 0, date now, selection unchanged |
| BillingContext.StaleSelectionBillsNothing | src/context/BillingContext.tsx:50-64 | a selected id that no tenant carries gives total 0 and no bill |
| BillingContext.GeneratedBillIsConsistent | src/context/BillingContext.tsx:61-83 | every generated bill adds up, and its total is rent + 12 × units + water + extras |
| Text.Trim | src/components/TenantList.tsx:56 | `trim()` never lengthens the text; TrimStartSpec, TrimEndSpec and TrimSpec say exactly what it removes |
| Text.TrimStartSpec | src/components/TenantList.tsx:56 | trimming the start keeps a suffix, drops only whitespace and leaves no leading whitespace; it empties exactly the all-whitespace strings |
| Text.TrimEndSpec | src/components/TenantList.tsx:57 | trimming the end keeps a prefix, drops only whitespace and leaves no trailing whitespace |
| Text.TrimSpec | src/components/TenantList.tsx:182-184 | `trim()` is empty exactly for all-whitespace input and otherwise has no whitespace at either end |
| Text.TrimIsTrimOf | src/components/TenantList.tsx:182-184 | `trim()` gives a slice of the text between two all-whitespace ends, with no whitespace at either end of its own |
| Text.TrimOfIsUnique | src/components/TenantList.tsx:182-184 | that description fits only `trim()`'s result, so it is an independent definition of trimming |
| Text.TrimIdempotent | src/components/TenantList.tsx:182-184 | trimming twice is trimming once |
| Text.StripWhitespace | src/components/TenantList.tsx:59 | removing whitespace never lengthens the text; StripWhitespaceSpec, StripWhitespaceOfChar and StripAppend say it keeps exactly the non-whitespace characters, in order |
| Text.StripWhitespaceSpec | src/components/TenantList.tsx:59 | removing whitespace leaves none and leaves whitespace-free text alone |
| Text.StripWhitespaceOfChar | src/components/TenantList.tsx:59 | a single whitespace character is removed and any other single character is kept |
| Text.StripAppend | src/components/TenantList.tsx:59 | removing whitespace from joined text is removing it from each part and joining the results, so the kept characters stay in order |
| Text.StripWhitespaceOfTrim | src/components/TenantList.tsx:184 | trimming loses nothing but whitespace: the text with all whitespace removed is the same before and after |
| Text.DigitsOnly | src/components/TenantList.tsx:119 | removing non-digits leaves only ASCII digits and never lengthens the text; DigitsOnlyOfChar and DigitsOnlyAppend say it keeps exactly the digits, in order |
| Text.DigitsOnlyOfChar | src/components/TenantList.tsx:119 | a single digit is kept and any other single character is removed |
| Text.DigitsOnlyAppend | src/components/TenantList.tsx:119 | removing non-digits from joined text is removing them from each part and joining the results, so the kept digits stay in order |
| Text.DigitsOnlyFixesExactlyDigitStrings | src/components/BillSummary.tsx:69 | removing non-digits changes nothing exactly when the text is all digits |
| Text.DigitsOnlyIdempotent | src/components/TenantList.tsx:119 | removing non-digits twice is removing them once |
| Text.DigitsOnlyWhenStrippedIsDigits | src/components/TenantList.tsx:59 | when the text minus its whitespace is all digits, removing non-digits gives that same text |
| TenantList.SanitizeMobile | src/components/TenantList.tsx:119 | the mobile input keeps the first min(10, number of digits) digits of what was typed, in order, and nothing else |
| TenantList.SanitizeMobileIdempotent | src/components/TenantList.tsx:119 | the mobile filter changes nothing on a value it produced |
| TenantList.SanitizedMobileAcceptedIffTen | src/components/TenantList.tsx:57-61 | a value from the mobile filter passes the mobile check exactly when it has ten digits |
| TenantList.ValidationErrors | src/components/TenantList.tsx:54-67 | errors are only ever recorded for name, mobile, rent and water; ValidationErrorsSpec gives each field's condition and message |
| TenantList.ValidationErrorsSpec | src/components/TenantList.tsx:54-67 | each field has an error exactly when its check fails, with that check's message (mobile: "required" when blank, else the 10-digit message); the room is never checked; no errors exactly when the form is accepted |
| TenantList.AcceptanceMeaning | src/components/TenantList.tsx:56-61 | the name check rejects exactly all-whitespace names; the mobile check accepts exactly the entries that are ten digits once whitespace is removed |
| TenantList.PrefillForm | src/components/TenantList.tsx:40-50 | the edit form shows the tenant's stored strings and its amounts as text; EditWithoutChangesKeepsTenant gives the round trip back to the tenant's fields |
| TenantList.TenantForm.constructor | src/components/TenantList.tsx:40-50 | the edit form starts from the tenant's strings and its amounts as text; the add form starts empty; no errors |
| TenantList.TenantForm.Input | src/components/TenantList.tsx:119 | typing into the mobile field stores the filtered value; other fields store the text as typed; only that field changes |
| TenantList.TenantForm.Validate | src/components/TenantList.tsx:54-70 | records exactly the validation errors of the current form and reports success exactly when there are none |
| TenantList.TenantForm.HandleSubmit | src/components/TenantList.tsx:72-77 | the form is handed on, unchanged, exactly when it is accepted; the errors are those of validation |
| TenantList.NormalizePayload | src/components/TenantList.tsx:180-187 | rent and water are the parsed numbers, or 0 when the text does not parse |
| TenantList.NormalizePayloadSpec | src/components/TenantList.tsx:182-184 | each stored string is the typed text with exactly its surrounding whitespace cut off (`IsTrimOf`), so inner spaces stay; a blank room is stored empty |
| TenantList.AcceptedFormNormalisesSanely | src/components/TenantList.tsx:180-187 | an accepted form yields a non-empty name, non-negative amounts and a mobile number of ten digits once whitespace is removed |
| TenantList.EditWithoutChangesKeepsTenant | src/components/TenantList.tsx:192-200 | saving the edit form untouched gives back the tenant's own fields, for trimmed strings and amounts whose text parses back |
| TenantList.TenantListView.constructor | src/components/TenantList.tsx:177-178 | the screen starts with no dialog open |
| TenantList.TenantListView.SetAddOpen | src/components/TenantList.tsx:215 | the add dialog opens or closes as asked |
| TenantList.TenantListView.StartEdit | src/components/TenantList.tsx:290 | the edit dialog opens on the given tenant |
| TenantList.TenantListView.CancelEdit | src/components/TenantList.tsx:303 | the edit dialog closes |
| TenantList.TenantListView.HandleAddTenant | src/components/TenantList.tsx:180-190 | one add call with the normalised fields, then the new id is selected (a new cycle) and the dialog closes |
| TenantList.TenantListView.HandleEditTenant | src/components/TenantList.tsx:192-203 | with a tenant being edited: one update call for its id with the normalised fields, and the dialog closes; otherwise no call |
| TenantList.TenantListView.HandleDeleteTenant | src/components/TenantList.tsx:205-210 | deleting the resolved selected tenant clears the selection (a new cycle) and any other delete leaves the session alone; the delete call is made in both cases, after the selection is cleared |
| BillSummary.WhatsAppUrl | src/components/BillSummary.tsx:70 | the link is wa.me with country code 91, then the chat number, then `?text=` and the encoded message, and nothing else |
| BillSummary.WhatsAppPhone | src/components/BillSummary.tsx:69 | the chat number is all digits and no longer than the stored mobile number |
| BillSummary.AcceptedMobileGivesTenDigitPhone | src/components/BillSummary.tsx:69 | a mobile number that passed the form check and was stored trimmed gives a chat number of exactly ten digits |
| BillSummary.Render | src/components/BillSummary.tsx:46-66 | the text appended for each line, with the runtime's number and date formatting as parameters; every piece but the closing thanks ends with a newline |
| BillSummary.BillLines | src/components/BillSummary.tsx:46-66 | the message's lines: at least 8 and at most 13, opening with the greeting, closing with the thanks, always with the total |
| BillSummary.BillLinesOrder | src/components/BillSummary.tsx:46-66 | the lines come in the order the handler appends them: greeting, period, rent, units, electricity, water, then the extras line when present, the total, the owner block and the thanks |
| BillSummary.ExtraLines | src/components/BillSummary.tsx:53-55 | the extra-charges line is present exactly when the extras are positive |
| BillSummary.OwnerLines | src/components/BillSummary.tsx:59-64 | the owner block is empty exactly when every owner field is empty, and has at most four lines |
| BillSummary.Message | src/components/BillSummary.tsx:46-66 | the message starts with the greeting to the tenant by name and ends with the thanks |
| BillSummary.ExtraLineShown | src/components/BillSummary.tsx:53-55 | an extra-charges line appears exactly when the extras are positive |
| BillSummary.OwnerBlockShown | src/components/BillSummary.tsx:59-64 | the owner block appears exactly when some owner field is set, each field's line exactly when that field is set; the separator comes first, then name, UPI id and mobile in that order |
| BillSummary.ItemisedMatchesTotalIffExtrasNotNegative | src/components/BillSummary.tsx:48-57 | for a bill that adds up, the amounts listed in the message sum to the stated total exactly when the extras are not negative |
| BillSummary.BillSummaryView.constructor | src/components/BillSummary.tsx:25-26 | the dialog starts closed with the saved profile |
| BillSummary.BillSummaryView.SetSettingsOpen | src/components/BillSummary.tsx:29-33 | opening the dialog reloads the saved profile; closing keeps what was typed |
| BillSummary.BillSummaryView.EditLocalOwnerInfo | src/components/BillSummary.tsx:116 | typing into the dialog changes only the edited profile |
| BillSummary.BillSummaryView.SaveOwnerInfo | src/components/BillSummary.tsx:35-38 | saving stores the edited profile in the session and closes the dialog; the bill is unchanged |
| BillSummary.BillSummaryView.SendWhatsApp | src/components/BillSummary.tsx:40-72 | nothing is sent exactly when no bill can be generated; otherwise the message is the rendering of the bill's lines, the number is the digits of the tenant's mobile, and the link is wa.me/91 + number + ?text= + encoded message |
| HistoryView.HistoryOf | src/components/HistoryView.tsx:17 | the history is empty exactly when the tenant has none stored or an empty list |
| HistoryView.Insert | src/components/HistoryView.tsx:20-22 | one insertion step of the sort adds exactly one record; InsertKeepsRecords, InsertKeepsOrder and InsertDatedOn give the rest |
| HistoryView.SortByDateDesc | src/components/HistoryView.tsx:20-22 | the sorted copy has as many records as the history; SortKeepsRecords, SortIsNewestFirst and SortIsStable give the rest |
| HistoryView.SortKeepsRecords | src/components/HistoryView.tsx:20-22 | the sorted copy holds exactly the stored records |
| HistoryView.SortIsNewestFirst | src/components/HistoryView.tsx:20-22 | the sorted copy is in non-increasing date order |
| HistoryView.SortIsStable | src/components/HistoryView.tsx:20-22 | records of the same date keep their stored order |
| HistoryView.ShowHistory | src/components/HistoryView.tsx:24-38 | the empty state shows exactly when the history is empty, and a listing has one entry per record |
| HistoryView.EntriesFor | src/components/HistoryView.tsx:38-72 | one entry per record, in order, each with its extra row flag and a delete action that is the call with the tenant's and the record's ids |
| HistoryView.ShowHistorySpec | src/components/HistoryView.tsx:17-31 | the empty state shows exactly when there is no history or it is empty; otherwise every record is listed once, newest first and stable, each with a delete action that is the call with the tenant's and the record's ids |

## Left out

- TenantList.TenantListView.HandleAddTenant, TenantList.TenantListView.HandleEditTenant, TenantList.TenantListView.HandleDeleteTenant: the session's directory (`tenants`) is a snapshot that their calls do not update. After an add, the new id is selected but does not resolve in the model, so the total stays 0 until the directory holds the tenant. After an edit, the bill keeps the old values. In the app, directory changes show up in the session at once.
- The record delete on the history screen: the screen takes `deletePaymentRecord` from the billing context (src/components/HistoryView.tsx:16), but the context neither declares nor provides it (src/context/BillingContext.tsx:8-36, 93-112). As written, the delete button at line 72 calls an undefined function, which throws. The model records the intended call, `DeletePaymentRecord(tenant id, record id)`, and does not model the throw.
- The tenant directory hook (`useTenants`): adding, updating and deleting tenants, deleting payment records, id assignment, timestamps and persistence. Its source is not part of this model. Handlers return the calls they make, and `getTenant` is taken to be the first tenant carrying the id.
- Local storage of the owner profile: a session starts from an optional stored profile, falling back to the empty default.
- Rendering, layout, icons and dialog animations. Only the dialog open/closed flags and the values shown are modelled.
- Floating-point arithmetic: amounts are exact reals, so rounding in `12 × units` and in the total is not modelled.
- `parseFloat`, `String(n)`, `toLocaleString()`, date formatting and `encodeURIComponent` are function parameters, so their exact text is not modelled.
- `window.open`: the send handler returns the number, message and link instead of opening them.
- The history screen's date parsing: record dates are timestamps, so invalid dates (which sort unpredictably in JavaScript) are not modelled.
- BillSummary.BillSummaryView.SendWhatsApp: the handler appends to a local string, which the model states as the rendering of the whole line list in one step. The two give the same text, because appending is associative.
- BillSummary.WhatsAppPhone: the contract states only that the number is digits and no longer than the input. That it is exactly the digits of the input, in order, follows from `DigitsOnlyOfChar` and `DigitsOnlyAppend`. Its body is `DigitsOnly`.
