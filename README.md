# TechFlow Solutions invoicing and booking, in Dafny

A model of the business logic of the TechFlow Solutions web site and its
in-browser invoicing tool:

- **Invoice calculator** (`InvoiceSystem/js/calculator.js`): the hourly service
  (type, rate, hours), the line items, the displayed totals with 13 % HST, and
  the checks on what is billed. It is modelled as the class
  `Calculator.InvoiceCalculator`. Its fields are the form inputs and the five
  total displays. Its invariant `Valid()` says that every display shows what the
  current inputs give.
- **Customer store** (`InvoiceSystem/js/customer.js`): saving by phone number,
  lookup, deletion, import with duplicate suppression, statistics, and the
  name-sorted dropdown order. It is modelled as the class
  `Customers.CustomerManager` over a sequence of customers. Each method keeps
  phone numbers unique.
- **Invoice generator** (`InvoiceSystem/js/invoice.js`):
  - numbers of the form `TFS-<year>-<counter padded to 4>`;
  - validation, preview and printing;
  - the log of the last 100 printed invoices;
  - statistics, search and the recent list.

  It is modelled as the class `Invoice.InvoiceGenerator`, which owns a
  calculator.
- **Public site** (`js/main.js`):
  - the instant quote (`Quote`);
  - the four-step booking form (`Booking.BookingForm`);
  - the field validators and phone formatting (`Fields`).

Supporting modules:

- `Text`: trimming, digits, `padStart`, lower-casing.
- `Money`: the en-CA currency format `$1,234.56`, `parseAmount` and rounding to the cent.
- `Lists`: `filter`, `findIndex` and `find`.
- `Sorting`: an insertion sort with its sortedness and permutation lemmas.

Money is modelled with exact rationals (`real`). Every display shows the
amount rounded to the cent, with the amount's own sign, so a small negative
amount shows as "-$0.00". Reading a display back with `ParseAmount`
therefore gives the amount rounded to the cent, and the Money lemmas state
this round trip.

Behaviour of the code worth knowing, which the model states:

- `getLineItemsData` drops rows with a blank description, zero quantity or
  zero price, but `calculateLineItemsTotal` counts every row
  (`Calculator.BlankRowStillCounted`). As a consequence, `validateInvoiceData`
  never reports a "Line item N" error (`Calculator.NoLineItemErrors`).
- Printing keeps the printed invoice as the current one. A failed preview keeps
  the previous current invoice.
- The quote rounds non-remote prices to whole dollars with `Math.round`.
  Remote support is a flat 80 whatever the urgency.
- `validateStep3` checks the email input without trimming it and never checks
  the phone format (`Booking.Step3IgnoresPhoneFormat`). `checkStep3Completion`
  does check the phone.
- Going back to step 2 with a date set redraws the time slots. This clears the
  chosen slot, so step 2's check fails until a slot is picked again
  (`Booking.BookingForm.Step3Back`). The step-2 button state is not refreshed
  there: it keeps whatever it was.

## Model

| member | source | states |
|---|---|---|
| Calculator.HourlyServiceOf | InvoiceSystem/js/calculator.js:182-200 | no hourly service exactly when no type is chosen or the hours read as zero; otherwise the total is hours × rate and the description falls back to the option text |
| Calculator.TaxCents | InvoiceSystem/js/calculator.js:149-160 | the tax on a non-negative subtotal is non-negative |
| Calculator.InvoiceCalculator.constructor | InvoiceSystem/js/calculator.js:7-17 | an empty form, no rows, every display at $0.00, and the display invariant holds |
| Calculator.InvoiceCalculator.CalculateHourlyTotal | InvoiceSystem/js/calculator.js:78-85 | the hourly display is refreshed from hours × rate and the derived totals follow, so the invariant is restored; inputs are unchanged |
| Calculator.InvoiceCalculator.CalculateLineItemsTotal | InvoiceSystem/js/calculator.js:132-144 | the line-item display is the rounded sum over every row, and the derived totals follow |
| Calculator.InvoiceCalculator.UpdateAllTotals | InvoiceSystem/js/calculator.js:149-160 | subtotal, tax and final displays show the read-back components' sum, its 13 % tax and their sum (`TotalsShown`), inputs unchanged |
| Calculator.InvoiceCalculator.ChangeServiceType | InvoiceSystem/js/calculator.js:63-73 | the rate becomes the option's rate (0 without one), and all displays are consistent again |
| Calculator.InvoiceCalculator.ChangeHours | InvoiceSystem/js/calculator.js:22-58 | only the hours input changes and the invariant is kept |
| Calculator.InvoiceCalculator.ChangeDescription | InvoiceSystem/js/calculator.js:22-58 | only the description changes; no total changes |
| Calculator.InvoiceCalculator.AddLineItem | InvoiceSystem/js/calculator.js:90-116 | one row with quantity 1 and empty description and price is appended, and the invariant is kept |
| Calculator.InvoiceCalculator.RemoveLineItem | InvoiceSystem/js/calculator.js:121-127 | exactly that row is removed, and the invariant is kept |
| Calculator.InvoiceCalculator.EditLineItem | InvoiceSystem/js/calculator.js:22-58 | only that row changes, and the invariant is kept |
| Calculator.InvoiceCalculator.ClearCalculations | InvoiceSystem/js/calculator.js:247-263 | empty form, no rows, all five displays at $0.00, and the invariant holds |
| Calculator.InvoiceCalculator.GetInvoiceTotals | InvoiceSystem/js/calculator.js:231-242 | the reported tax rate is 13 % |
| Calculator.InvoiceCalculator.GetLineItemsData | InvoiceSystem/js/calculator.js:205-226 | exactly the kept rows, in order, and every one has a description, positive quantity and positive price |
| Calculator.InvoiceCalculator.ValidateInvoiceData | InvoiceSystem/js/calculator.js:268-303 | the messages, in order, and "add at least one service" exactly when there is no service and no kept item |
| Calculator.InvoiceCalculator.GetPricingSummary | InvoiceSystem/js/calculator.js:337-348 | service, items and totals as reported, and item count = (1 if a service) + number of items |
| Calculator.InvoiceCalculator.TotalsAddUp | InvoiceSystem/js/calculator.js:149-160 | read-back subtotal = hourly + line items to the cent, tax = 13 % of it rounded, final = subtotal + tax ≥ subtotal |
| Calculator.InvoiceCalculator.HourlyDisplayMatchesService | InvoiceSystem/js/calculator.js:78-85 | the hourly display reads back as the service total rounded to the cent, or 0 without a service |
| Calculator.ReadBack | InvoiceSystem/js/calculator.js:165-177 | a display of c cents, with either sign, parses back to c/100 |
| Calculator.ShownTotalsReadBack | InvoiceSystem/js/calculator.js:149-160 | the three derived displays parse back to a subtotal, its rounded tax and their exact sum |
| Calculator.SubtotalReadBack | InvoiceSystem/js/calculator.js:149-160 | the subtotal display parses back to its cents |
| Calculator.TaxReadBack | InvoiceSystem/js/calculator.js:149-160 | the tax display parses back to the rounded tax |
| Calculator.FinalReadBack | InvoiceSystem/js/calculator.js:149-160 | the final display parses back to subtotal plus tax |
| Calculator.ShownTotalsArithmetic | InvoiceSystem/js/calculator.js:149-160 | tax is 13 % of the subtotal rounded to the cent, final = subtotal + tax, never below a non-negative subtotal |
| Calculator.HourlyReadBack | InvoiceSystem/js/calculator.js:78-85 | the hourly display reads back as hours × rate to the cent |
| Calculator.DeriveTotals | InvoiceSystem/js/calculator.js:149-160 | the three texts written are those of the components' sum, its tax and the final total |
| Calculator.DerivedDisplays | InvoiceSystem/js/calculator.js:149-160 | from components of h and l cents the subtotal shows h + l cents, and tax and final total show their rounded cents signed as the subtotal is |
| Calculator.ComponentsReadBack | InvoiceSystem/js/calculator.js:149-153 | the hourly and line-item displays parse back to their amounts rounded to the cent |
| Calculator.FormatRounded | InvoiceSystem/js/calculator.js:165-170 | an amount that rounds to c cents is displayed as c cents with the amount's sign, and as the plain display of c when the signs agree |
| Calculator.SumRows | InvoiceSystem/js/calculator.js:132-144 | the running sum over all rows equals the quantity × price total of every row |
| Calculator.CollectItems | InvoiceSystem/js/calculator.js:205-226 | the loop pushes exactly the billable rows, each complete |
| Calculator.CollectErrors | InvoiceSystem/js/calculator.js:268-303 | the collected messages are the service checks followed by the per-item checks |
| Calculator.CheckService | InvoiceSystem/js/calculator.js:272-287 | "nothing to bill", then the hours and rate checks of a present service |
| Calculator.CheckItems | InvoiceSystem/js/calculator.js:290-300 | each item adds its three checks, labelled by 1-based position |
| Calculator.ItemErrorsStep | InvoiceSystem/js/calculator.js:290-300 | one more item appends exactly its own checks |
| Calculator.ZeroTotals | InvoiceSystem/js/calculator.js:247-263 | "$0.00" is the display of 0 cents and is consistent for an empty calculator |
| Calculator.UpdateArithmetic | InvoiceSystem/js/calculator.js:149-160 | rounding the subtotal, tax and final total gives the components' sum, its tax and their sum in cents |
| Calculator.RowsTotal | InvoiceSystem/js/calculator.js:132-144 | definition of the line total over every row; stated by the RowsTotal lemmas |
| Calculator.RowsTotalConcat | InvoiceSystem/js/calculator.js:132-144 | the displayed line total is additive over row lists |
| Calculator.LineItemsTotalCountsEveryRow | InvoiceSystem/js/calculator.js:132-144 | every row, wherever it stands, adds its quantity × price |
| Calculator.KeptItems | InvoiceSystem/js/calculator.js:205-226 | definition of the rows `getLineItemsData` keeps; stated by the KeptItems lemmas |
| Calculator.KeptItemsSnoc | InvoiceSystem/js/calculator.js:205-226 | a new last row is kept exactly when billable |
| Calculator.KeptItemsConcat | InvoiceSystem/js/calculator.js:205-226 | the kept items of two lists are the kept items of each, in order |
| Calculator.KeptItemsExactly | InvoiceSystem/js/calculator.js:205-226 | a row at any position is kept, as its item, exactly when billable |
| Calculator.BlankRowStillCounted | InvoiceSystem/js/calculator.js:132-144 | a blank-description row adds to the displayed total but is not kept |
| Calculator.KeptWithinDisplayed | InvoiceSystem/js/calculator.js:205-226 | without negative inputs the kept items never total more than the displayed line total |
| Calculator.KeptItemsTotalStep | InvoiceSystem/js/calculator.js:205-226 | the last row adds its amount to the kept total exactly when billable |
| Calculator.KeptItemsBillable | InvoiceSystem/js/calculator.js:205-226 | every kept item has a description, positive quantity and positive price |
| Calculator.ItemErrorsNone | InvoiceSystem/js/calculator.js:290-300 | complete items raise no per-item message |
| Calculator.NoLineItemErrors | InvoiceSystem/js/calculator.js:268-303 | validation of the kept items never reports a "Line item N" message |
| Calculator.CalculatorErrors | InvoiceSystem/js/calculator.js:268-303 | definition of the calculator's messages; stated by Calculator.ValidationOutcome |
| Calculator.ValidationOutcome | InvoiceSystem/js/calculator.js:268-303 | the full message list in terms of the type, hours, rate and kept rows |
| Calculator.NothingToBillIff | InvoiceSystem/js/calculator.js:272-277 | "nothing to bill" iff no hourly service and no kept item |
| Customers.PhoneIndex | InvoiceSystem/js/customer.js:52 | the first index with that phone, or -1 iff none has it |
| Customers.IdIndex | InvoiceSystem/js/customer.js:97 | the first index with that id, or -1 iff none has it |
| Customers.CustomerById | InvoiceSystem/js/customer.js:82-84 | the first customer with the id; none iff no customer has it |
| Customers.CustomerByPhone | InvoiceSystem/js/customer.js:89-91 | the first customer with the phone; none iff no customer has it |
| Customers.Upsert | InvoiceSystem/js/customer.js:52-71 | definition of the save step; stated by the four Upsert lemmas |
| Customers.UpsertReplaces | InvoiceSystem/js/customer.js:52-61 | a known phone: that entry takes the new fields and update time, keeps id and creation time, and nothing else changes |
| Customers.UpsertAppends | InvoiceSystem/js/customer.js:62-71 | a new phone: one entry with the new id and both time stamps is appended |
| Customers.UpsertKeepsPhonesUnique | InvoiceSystem/js/customer.js:44-77 | saving keeps phone numbers unique |
| Customers.UpsertThenLookup | InvoiceSystem/js/customer.js:44-91 | after a save, looking up the phone finds the saved fields |
| Customers.RemoveAt | InvoiceSystem/js/customer.js:98-100 | `splice(k, 1)`: one shorter, elements before k kept, later ones shift down by one |
| Customers.RemoveKeepsPhonesUnique | InvoiceSystem/js/customer.js:96-106 | deletion keeps phone numbers unique |
| Customers.Merge | InvoiceSystem/js/customer.js:342-351 | definition of the import loop; stated by the three Merge lemmas |
| Customers.MergeExtends | InvoiceSystem/js/customer.js:342-351 | the import only appends, at most one entry per batch record |
| Customers.MergeKeepsPhonesUnique | InvoiceSystem/js/customer.js:342-351 | the import keeps phones unique, also against duplicates inside the batch |
| Customers.MergeCoversBatch | InvoiceSystem/js/customer.js:342-351 | after the import every batch phone is on file |
| Customers.Stats | InvoiceSystem/js/customer.js:367-379 | total is the list length and every other count is at most it |
| Customers.NameLeTotal | InvoiceSystem/js/customer.js:126-128 | the name order compares any two names |
| Customers.NameLeTransitive | InvoiceSystem/js/customer.js:126-128 | the name order is transitive |
| Customers.ByNameIsPreorder | InvoiceSystem/js/customer.js:126-128 | ordering customers by name is a total preorder |
| Customers.DropdownOrder | InvoiceSystem/js/customer.js:125-129 | definition of the dropdown order; stated by the next lemma |
| Customers.DropdownSortedPermutation | InvoiceSystem/js/customer.js:118-137 | the dropdown lists exactly the customers, sorted by name |
| Customers.CustomerManager.constructor | InvoiceSystem/js/customer.js:7-25 | the store starts with the loaded customers |
| Customers.CustomerManager.SaveCustomer | InvoiceSystem/js/customer.js:44-77 | saved iff name and phone are non-empty; the list is then the upsert, else unchanged; unique phones stay unique |
| Customers.CustomerManager.DeleteCustomer | InvoiceSystem/js/customer.js:96-106 | deleted iff the id is on file; then exactly its first entry is removed; unique phones stay unique |
| Customers.CustomerManager.ImportCustomers | InvoiceSystem/js/customer.js:342-351 | the loop leaves the list equal to the merge of the batch; unique phones stay unique |
| Customers.CustomerManager.SortedForDropdown | InvoiceSystem/js/customer.js:125-137 | a name-sorted permutation of the customers; the stored list is unchanged |
| Invoice.IntToString | InvoiceSystem/js/invoice.js:86 | a non-negative counter prints as its decimal digits |
| Invoice.LoadedCounter | InvoiceSystem/js/invoice.js:60-68 | nothing stored gives counter 1 |
| Invoice.InvoiceNumber | InvoiceSystem/js/invoice.js:84-89 | definition of the number template; stated by the InvoiceNumber lemmas below |
| Invoice.InvoiceNumberShape | InvoiceSystem/js/invoice.js:84-89 | `TFS-<year>-` then the counter's digits, zero-padded to at least four and never cut |
| Invoice.PadZerosValue | InvoiceSystem/js/invoice.js:86 | zero padding keeps a digit string's value |
| Invoice.InvoiceNumberReadBack | InvoiceSystem/js/invoice.js:84-89 | the digits after the head read back as the counter |
| Invoice.InvoiceNumberInjective | InvoiceSystem/js/invoice.js:84-89 | within a year, equal numbers mean equal counters |
| Invoice.FormErrors | InvoiceSystem/js/invoice.js:132-153 | at most four messages, none iff name, phone, number and date are all filled in |
| Invoice.FormErrorsMeaning | InvoiceSystem/js/invoice.js:137-153 | each form message appears exactly when its field is empty |
| Invoice.FormErrorsOrdered | InvoiceSystem/js/invoice.js:137-153 | the messages come in the order name, phone, number, date |
| Invoice.TrimmedCustomer | InvoiceSystem/js/invoice.js:102-110 | definition of `getCustomerData`: each field trimmed |
| Invoice.InvoiceErrors | InvoiceSystem/js/invoice.js:132-160 | the form messages followed by exactly the calculator's; none iff all fields are filled and the calculator has none |
| Invoice.NameErrorIffBlank | InvoiceSystem/js/invoice.js:102-142 | the name (phone) message appears iff the typed name (phone) is all whitespace |
| Invoice.LogAppend | InvoiceSystem/js/invoice.js:323-340 | the log ends with the new record, is the last `min(n+1, 100)` records of old log plus it |
| Invoice.LogAppendDropsOldest | InvoiceSystem/js/invoice.js:331-333 | below 100 nothing is dropped; on a full log exactly the oldest record goes |
| Invoice.RevenueMonotone | InvoiceSystem/js/invoice.js:467-469 | without negative totals a narrower filter has no more revenue |
| Invoice.RevenueSnoc | InvoiceSystem/js/invoice.js:467 | revenue adds each record's final total |
| Invoice.InvoiceStatsOf | InvoiceSystem/js/invoice.js:453-480 | total count is the log length, month ≤ year ≤ total counts, the total revenue, and the average (0 on an empty log) |
| Invoice.FilterAll | InvoiceSystem/js/invoice.js:467-469 | a filter keeping everything keeps the whole log |
| Invoice.StatsRevenueOrdered | InvoiceSystem/js/invoice.js:453-480 | without negative totals month revenue ≤ year revenue ≤ total revenue |
| Invoice.Search | InvoiceSystem/js/invoice.js:485-495 | definition of `searchInvoices`; stated by the three lemmas below |
| Invoice.SearchFindsExactly | InvoiceSystem/js/invoice.js:485-495 | the result holds exactly the matching records, in log order |
| Invoice.SearchIgnoresCase | InvoiceSystem/js/invoice.js:487 | queries that differ only in letter case find the same records |
| Invoice.MatchesIgnoresRecordCase | InvoiceSystem/js/invoice.js:489-494 | number, name and company are matched without regard to case; the phone is matched as typed |
| Invoice.NewerFirstIsPreorder | InvoiceSystem/js/invoice.js:503 | newest-first by creation time is a total preorder |
| Invoice.SliceTo | InvoiceSystem/js/invoice.js:504 | `slice(0, end)` is a prefix, of JavaScript's length for negative and too large ends |
| Invoice.Recent | InvoiceSystem/js/invoice.js:500-505 | definition of `getRecentInvoices`; stated by Invoice.RecentNewestFirst |
| Invoice.RecentNewestFirst | InvoiceSystem/js/invoice.js:500-505 | at most `limit` records, newest first, drawn from the log, and no record left out is newer than one shown |
| Invoice.InvoiceGenerator.constructor | InvoiceSystem/js/invoice.js:7-12 | counter loaded, no current invoice, today's date, the number for the counter, blank customer inputs |
| Invoice.InvoiceGenerator.GenerateInvoiceNumber | InvoiceSystem/js/invoice.js:84-89 | the number field shows the number for the current counter; nothing else changes |
| Invoice.InvoiceGenerator.IncrementInvoiceCounter | InvoiceSystem/js/invoice.js:94-97 | the counter goes up by one; nothing else changes |
| Invoice.InvoiceGenerator.ValidateInvoice | InvoiceSystem/js/invoice.js:132-160 | the returned messages are those of the current inputs and calculator |
| Invoice.InvoiceGenerator.GetInvoiceData | InvoiceSystem/js/invoice.js:115-127 | number, date, trimmed customer, service, kept items and totals at the given time |
| Invoice.InvoiceGenerator.PreviewInvoice | InvoiceSystem/js/invoice.js:165-188 | without errors the snapshot becomes current, with errors the current invoice stays; counter, log and inputs unchanged |
| Invoice.InvoiceGenerator.SaveInvoiceRecord | InvoiceSystem/js/invoice.js:323-340 | the log becomes the capped append of the record with its print time |
| Invoice.InvoiceGenerator.PrintInvoice | InvoiceSystem/js/invoice.js:296-318 | a failed preview changes nothing; otherwise counter + 1, the printed invoice logged, kept current, and the next number shown |
| Invoice.InvoiceGenerator.ClearForm | InvoiceSystem/js/invoice.js:358-379 | unconfirmed: nothing changes; confirmed: blank customer, cleared calculator, today's date, fresh number, no current invoice; counter and log kept |
| Invoice.InvoiceGenerator.ResetInvoiceDetails | InvoiceSystem/js/invoice.js:366-375 | today's date, the number for the unchanged counter, no current invoice; customer inputs and log kept |
| Quote.ServiceKeyRoundTrip | js/main.js:608-618 | each service's option value maps back to it |
| Quote.RoundHalfUp | js/main.js:747 | `Math.round`: within half a unit of the argument, halves up |
| Quote.Price | js/main.js:718-756 | definition of the price; stated by the Price lemmas below |
| Quote.PriceIffChosen | js/main.js:718-726 | a price is shown iff both a service and an urgency are chosen |
| Quote.RemoteIsFlat | js/main.js:728-744 | remote support costs 80 at any urgency |
| Quote.PriceNearExact | js/main.js:732-756 | other services cost base × multiplier rounded to the nearest dollar |
| Quote.StandardIsBase | js/main.js:732-756 | at standard urgency the price is the base price, 100 for an unknown service |
| Quote.UnknownUrgencyIsStandard | js/main.js:733 | an unknown urgency prices like standard |
| Quote.SameDayNotCheaper | js/main.js:620-623 | same-day never costs less than standard |
| Quote.SameDayQuotes | js/main.js:608-623 | the same-day price of each of the nine services |
| Quote.CompletionFor | js/main.js:626-663 | a completion text exists iff both the service and the urgency are in the catalog |
| Quote.RecommendationsShape | js/main.js:666-703 | every service suggests two others, never itself |
| Quote.Cards | js/main.js:835-852 | one card per suggestion, in order |
| Quote.FirstCardRecommended | js/main.js:835-852 | only the first card is highlighted and badged "Recommended"; titles and reasons follow the catalog |
| Quote.CalculatePrice | js/main.js:705-797 | definition of the quote view update; stated by the next two lemmas |
| Quote.QuoteWaitsForChoices | js/main.js:718-726 | without both choices the prompt shows, the completion line hides and the suggestions stay |
| Quote.QuoteShowsPrice | js/main.js:705-797 | with both choices the estimate reads back as the price, completion and suggestions follow the catalog |
| Fields.IsValidEmail | js/main.js:55-58 | definition of the email pattern; stated by the three Email lemmas below |
| Fields.ValidEmailShape | js/main.js:55-58 | an accepted address has no whitespace, exactly one '@', and a '.' later that is neither next to it nor last |
| Fields.EmailExamples | js/main.js:55-58 | "a@b.c" is accepted, "a@b" and "@b.c" are not |
| Fields.LeadingAtInvalid | js/main.js:55-58 | no address starting with '@' is accepted |
| Fields.IsValidPhone | js/main.js:395-401 | definition of the phone check; stated by the phone lemmas below |
| Fields.PhoneIgnoresPunctuation | js/main.js:395-401 | spaces, dashes and brackets never decide the phone check |
| Fields.NothingKept | js/main.js:397 | only punctuation filters to nothing |
| Fields.ValidPhoneDigits | js/main.js:395-401 | a phone is accepted iff, once spaces, dashes and brackets are removed, only digits remain apart from an optional leading '+', and the digits typed are 1 to 16 with the first not '0' |
| Fields.DigitsOf | js/main.js:62 | only digits remain, never more characters than before, and a character is in the result iff it is a digit of the input |
| Fields.DigitsAllDigits | js/main.js:62 | the filter keeps digits only |
| Fields.FormatPhone | js/main.js:61-68 | ten digits become `(ddd) ddd-dddd`, anything else is returned unchanged |
| Fields.DigitsOfDigits | js/main.js:62 | a digit string filters to itself |
| Fields.FormattedDigits | js/main.js:61-68 | the layout adds no digits |
| Fields.FormatPhoneKeepsDigits | js/main.js:61-68 | formatting keeps exactly the typed digits |
| Fields.FormatPhoneIdempotent | js/main.js:1398-1405 | formatting a formatted number changes nothing |
| Fields.FieldError | js/main.js:375-404 | a blank field is an error iff it is required |
| Fields.FieldValid | js/main.js:1377-1391 | definition of the booking `validateField`; stated by Fields.ValidatorsAgree |
| Fields.ValidatorsAgree | js/main.js:1377-1391 | on required fields the booking and contact validators agree, and an accepted field is never blank |
| Fields.OptionalBlankPasses | js/main.js:375-404 | a blank optional field always passes |
| Booking.CountZeroIffNone | js/main.js:1259-1283 | no mark counted iff nothing is selected |
| Booking.CountOnly | js/main.js:974-979 | marking only k counts one mark when k is in range, else none |
| Booking.MarkOnly | js/main.js:1121-1134 | only position k is marked, of the same length |
| Booking.Step1Error | js/main.js:1259-1266 | step 1 passes iff a service is selected |
| Booking.Step2Error | js/main.js:1268-1283 | step 2 passes iff a date and a slot are chosen; the date message comes first |
| Booking.Step3Error | js/main.js:1285-1316 | step 3 passes iff all five fields are non-blank and the untrimmed email is valid |
| Booking.Step3NamesFirstBlank | js/main.js:1300-1306 | the message names the first blank field |
| Booking.Step3IgnoresPhoneFormat | js/main.js:1285-1316 | changing a filled-in phone never changes step 3's verdict |
| Booking.Step3Ready | js/main.js:1247-1256 | definition of `checkStep3Completion`'s test; stated by Booking.ReadyPassesStep3 |
| Booking.ReadyPassesStep3 | js/main.js:1247-1256 | an enabled step-3 button (email without surrounding space) means step 3 passes |
| Booking.BookingForm.constructor | js/main.js:869-892 | step 1 shown, nothing chosen or typed, every next button disabled |
| Booking.BookingForm.UpdateStepIndicators | js/main.js:960-967 | exactly the indicator of step n is active |
| Booking.BookingForm.GenerateTimeSlots | js/main.js:1070-1158 | all twelve slots drawn, none selected |
| Booking.BookingForm.ShowStep | js/main.js:895-958 | step n is current, only its indicator active, and step 2 with a date redraws the slots |
| Booking.BookingForm.SelectService | js/main.js:973-991 | only that service is selected and step 1's button is enabled |
| Booking.BookingForm.CheckStep2Completion | js/main.js:1196-1203 | step 2's button is disabled unless a date and a slot are chosen |
| Booking.BookingForm.ChangeDate | js/main.js:1034-1043 | a date redraws all slots unselected, no date clears them; step 2's button is disabled |
| Booking.BookingForm.SelectSlot | js/main.js:1121-1138 | only that slot is selected and step 2's button follows the date |
| Booking.BookingForm.ValidateStep3 | js/main.js:1285-1316 | the loop returns exactly step 3's verdict |
| Booking.BookingForm.CheckStep3Completion | js/main.js:1247-1256 | step 3's button is enabled iff every field is filled in and valid |
| Booking.BookingForm.EditDetail | js/main.js:1240-1245 | only that field changes, the phone field stored as `formatPhone` of the typed value (the page-wide listener of main.js:1408-1414 runs first), and step 3's button is disabled iff the fields are not all filled in and valid; other buttons, step, selections kept |
| Booking.BookingForm.FormatPhoneInput | js/main.js:1398-1414 | the phone field is formatted, nothing else changes |
| Booking.BookingForm.Step1Next | js/main.js:995-1001 | go to step 2 iff a service is selected; on going with a date set the slots are redrawn unselected; buttons and details kept |
| Booking.BookingForm.Step2Next | js/main.js:1056-1062 | go to step 3 iff a date and slot are chosen; selections, details and buttons kept |
| Booking.BookingForm.Step3Next | js/main.js:1211-1218 | go to step 4 iff step 3 passes; selections, details and buttons kept |
| Booking.BookingForm.Step2Back | js/main.js:1064-1068 | back to step 1, choices, details and buttons kept |
| Booking.BookingForm.Step3Back | js/main.js:1220-1224 | back to step 2; with a date the slots are redrawn and step 2 reports the missing slot; the buttons, step 2's included, are not refreshed |
| Booking.BookingForm.Step4Back | js/main.js:1229-1233 | back to step 3, selections, details and buttons kept |
| Text.TrimEmptyIffBlank | InvoiceSystem/js/invoice.js:102-110 | `trim()` gives "" iff the text is all whitespace |
| Text.TrimIdempotent | InvoiceSystem/js/invoice.js:102-110 | trimming twice is trimming once |
| Text.TrimStartRemovesBlank | InvoiceSystem/js/invoice.js:102-110 | leading whitespace is removed and what remains starts with non-space |
| Text.TrimEndRemovesBlank | InvoiceSystem/js/invoice.js:102-110 | trailing whitespace is removed and what remains ends with non-space |
| Text.NatToStringValue | InvoiceSystem/js/invoice.js:86 | the decimal digits read back as the number |
| Text.NatToStringDigits | InvoiceSystem/js/invoice.js:86 | only digits, one of them iff below ten |
| Text.PadStart | InvoiceSystem/js/invoice.js:86 | `padStart`: the text ends the result, padded with the fill to the width |
| Text.ToLower | InvoiceSystem/js/invoice.js:487 | same length, no upper-case ASCII letter left, every other character in place, each upper-case letter replaced by its lower-case one |
| Text.ToLowerIgnoresCase | InvoiceSystem/js/invoice.js:487-494 | two texts lower-case alike iff they differ only in the case of their letters |
| Text.ToLowerIdempotent | InvoiceSystem/js/invoice.js:487 | lower-casing twice is lower-casing once |
| Text.Trim | InvoiceSystem/js/invoice.js:102-110 | definition of `trim()`, both ends; stated by the Trim lemmas |
| Money.ParseFormatCents | InvoiceSystem/js/calculator.js:165-177 | `parseAmount` of the en-CA display of c cents is c/100 |
| Money.ParseFormatCurrency | InvoiceSystem/js/calculator.js:165-177 | `parseAmount(formatCurrency(x))` is x rounded to the cent |
| Money.RoundCentsOfCents | InvoiceSystem/js/calculator.js:165-170 | an amount already in whole cents rounds to itself |
| Money.RoundCents | InvoiceSystem/js/calculator.js:165-170 | the nearest whole cent (within half a cent), keeping the sign, and a tie goes away from zero |
| Money.FormatCurrency | InvoiceSystem/js/calculator.js:165-170 | definition: the en-CA display of the amount rounded to the cent, with the amount's own sign; stated by Money.ParseFormatCurrency and Money.NegativeZeroShown |
| Money.NegativeZeroShown | InvoiceSystem/js/calculator.js:165-170 | a negative amount that rounds to zero cents shows as "-$0.00" and reads back as 0 |
| Money.ParseSignedDisplay | InvoiceSystem/js/calculator.js:165-177 | a display of c cents reads back as c/100 whichever sign it carries |
| Money.ParseAmount | InvoiceSystem/js/calculator.js:175-177 | definition: the number, or 0, read from the digits, '.' and '-' of the text; stated by Money.ParseFormatCents |
| Lists.FirstIndex | InvoiceSystem/js/customer.js:52 | `findIndex`: the first match, -1 iff none |
| Lists.Find | InvoiceSystem/js/customer.js:82-84 | `find`: none iff nothing matches, otherwise the first matching element |
| Lists.FilterMembers | InvoiceSystem/js/invoice.js:489-494 | `filter` keeps exactly the elements that pass |
| Sorting.SortBySorted | InvoiceSystem/js/customer.js:126-128 | the sort's result is sorted for a total preorder |
| Sorting.SortByPermutes | InvoiceSystem/js/customer.js:126-128 | the sort's result is a permutation of its input |
| Sorting.SortedPrefixFirst | InvoiceSystem/js/invoice.js:502-504 | a prefix of a sorted list is sorted and holds the first elements in the order |

## Left out

- Rendering, notifications, scrolling, focus, CSS and the preview HTML (`generateInvoiceHTML`, `updateReviewSection`, `showValidationErrors`, the notification helpers) are not modelled. The model keeps the state they display.
- `localStorage` is modelled as constructor arguments and in-memory fields. Storage errors, JSON parsing and `parseInt` of a stored counter are not modelled. Invoice.LoadedCounter takes the already parsed value, so a non-numeric stored counter (NaN) is not covered.
- Clocks and `Date` are parameters: `now`, `year`, `month`, `today`, the thirty-day `cutoff` of `getCustomerStats`, and `yearOf`/`monthOf` for reading an invoice date. One `now` stands for both `createdAt` and `printedAt`.
- Customer ids (`Date.now()` plus `Math.random()`) come in as parameters: `newId`, and `newId(i)` for the i-th record of an import.
- Customers.NameLe: `localeCompare` is taken as code-point lexicographic order. Locale collation is not modelled.
- Text.ToLower lower-cases ASCII letters only.
- `Intl.NumberFormat` is modelled for the `$1,234.56` en-CA form, with a leading '-' for negative amounts, kept also when the amount rounds to zero cents ("-$0.00"). IEEE floating point is not modelled: money is exact, and rounding to the cent is to the nearest cent on the exact value, halves away from zero.
- Form inputs are read as `parseFloat(x) || 0` over a decimal-number grammar. Exponent notation and `Infinity` are not read.
- Quote: option values matching JavaScript object-prototype properties (such as `constructor`) are not modelled as lookups into the prototype.
- The `setTimeout` delays, the backup time selection (`switchToBackupTimeSelection`), and the duplicate listeners `initializeDateTimeSelection` adds on each visit to step 2 are not modelled. A repeated listener has the same effect as one.
- The calculator's event wiring is represented by the Change/Edit methods. The page has no listener on the rate input: the model takes the rate as written only by `updateHourlyRate` (Calculator.InvoiceCalculator.ChangeServiceType) and `clearCalculations`, and the invariant that no service type means rate 0 and the up-to-date displays rest on that. The service-suggestion list (`getServiceSuggestions`, `applyServiceSuggestion`) and `exportCalculationData`/`importCalculationData` are not modelled.
- Customers: the form helpers (`loadCustomerIntoForm`, `getCustomerDataFromForm`, `clearCustomerForm`), `exportCustomers` and the file-reader part of `importCustomers` are not modelled. The import is modelled from the parsed array on; a non-array file shows only an error and changes nothing.
- Invoice: `exportInvoiceData`, `formatDate` and `window.print()` are not modelled. The one place the calculator's state is changed by the generator is `ClearForm`.
- analytics.js, navigation, animations, FAQ, portfolio filter and the other page widgets of main.js lie outside this model.
- The contact-form submission (`handleFormSubmission`, EmailJS) uses a foreign service and is not modelled. Only its field checks are.
- Calculator.InvoiceCalculator.constructor: the empty form and the five "$0.00" displays stand for the page's HTML, which is not part of this model; `updateAllTotals` at construction then runs on those texts.
- Invoice.InvoiceGenerator.constructor: the blank customer inputs stand for the page's HTML, which is not part of this model.
- Booking.BookingForm.constructor: its start state (all three next buttons disabled, four step indicators, step 1 active) stands for the page's HTML, which is not part of this model.
- Sorting: the model sorts by insertion. Stability (equal elements keep their order, as `Array.prototype.sort` promises since ES2019) is not stated.
- Booking: the HTML input types of the step-3 fields are assumed to be text, text, email, tel and text.
