# Pre-arranged funeral service form: invoice, financing and discount model

This project models the calculating core of the pre-arranged funeral service
form controller (`PDFAutofiller` in `autofill_rob.py`). It also models the
input formatters of the pre-planning form (`preplanning_autofill.py`). The
form is a set of named text fields. The controller reacts to edits in them:

- it prices an invoice (sections A to D, GST and PST, a discount, the grand total);
- it writes the preplanned amount (Total 3) and the payment section (Total 4);
- it quotes monthly payments from an age-banded table of amortisation factors;
- it applies service packages from a catalogue, adding a "Cadence" discount row;
- it keeps a ledger of discount rows that can be added, hidden and cleared;
- it filters keystrokes in dollar fields and re-renders amounts.

Modules, one per concern:

- `Money` (money.dfy): amounts are exact `real`s.
  - `Amount` reads a field the way every section sum does: `float(s.replace('$', '').replace(',', '') or 0)`. `None` stands for the `ValueError`.
  - `Fixed2` and `Show` render `'%.2f'`, with and without grouping, rounding half to even on the exact value.
  - The round trip between rendering and reading is proved.
- `Formatters` (formatters.dfy): the phone, SIN and postal-code masks, `validate_email`, `ordinal`, the dollar-field keystroke filter, `convert_to_float`, and the text `format_dollar_field` leaves in a field.
- `Pricing` (pricing.dfy): the field lists (`gst_fields`, `pst_fields`, the four section lists), the rates, the GST/PST loop, the section sums, and what `calculate_grand_total` writes.
  - A field read is a `Cell`: `Missing` (the `KeyError`), `Unparseable` (the `ValueError`) or `Value(x)`. The source treats the two errors differently.
- `Financing` (financing.dfy): the eleven age bands, the `payment_factors` table, the financed principal, the quote, the payments table and term selection.
- `Ledger` (ledger.dfy): the discount rows (`map<nat, Row>` plus the `metadata` counter) and what is read off the shown rows.
- `Packages` (packages.dfy): the package catalogue and the pure effect of applying a package on the fields and on the discount rows.
- `Autofill` (autofiller.dfy): the controller as a class.
  - Its fields are the form fields, the rows, `metadata`, the stored payments and their table, `last_value`, `dollar_input_keys`, `discount_amount_keys`, the selected package and the catalogue.
  - Each handler is a method whose `ensures` ties the new state to the specification functions above.
  - Every loop of the source is a method with its invariants, proved equal to a specification function. The exception is the generator that sums each section in `calculate_grand_total` (autofill_rob.py lines 2262-2263): it is modelled by the recursive functions `SectionTotal` and `Sections` in `Pricing`, without a loop method.

A handler reads the form through `values`, the snapshot `get_current_values()` gives it, passed as a `Fields` map. It writes through `window`.

## Model

| member | source | states |
|---|---|---|
| Money.AmountOfFixed2 | autofill_rob.py:1074-1081 | reading a rendered amount back as a section sum reads it gives the amount rounded to cents |
| Money.CleanParseFixed2 | autofill_rob.py:1661-1672 | stripping '$', ',' and blanks from a rendered amount and parsing it gives the rounded amount |
| Money.Fixed2OfRounded | autofill_rob.py:1077-1081 | rendering the rounded amount again gives the same text (a negative amount that rounds to zero aside) |
| Money.GroupUngroup | autofill_rob.py:1081 | removing the commas that grouping inserts gives the digits back |
| Money.ParseInt | autofill_rob.py:1016-1017 | an integer `int()` accepts is also the number `float()` reads from the same text |
| Money.NatStrValue | autofill_rob.py:1531 | the decimal numeral of n denotes n |
| Formatters.FormatPhone | preplanning_autofill.py:137-146 | the output has only digits and '-'; its digits are the input's first ten; up to 3 digits unchanged, 4 to 6 as ddd-rest, 7 or more as ddd-ddd-dddd; `format_phone_number` (autofill_rob.py lines 2515-2524) is the same mask |
| Formatters.FormatPhoneIdempotent | preplanning_autofill.py:92-94 | formatting a formatted number changes nothing, so the per-keystroke rewrite is stable |
| Formatters.MaskDigits | preplanning_autofill.py:140-146 | the shared mask keeps digits and dashes only and keeps exactly the first 6 + tail digits |
| Formatters.FormatSin | preplanning_autofill.py:157-166 | digits and '-' only; at most the first nine digits; ddd, ddd-rest or ddd-ddd-ddd by digit count; `format_sin` (autofill_rob.py lines 2535-2544) is the same mask |
| Formatters.FormatSinIdempotent | preplanning_autofill.py:95-97 | formatting a formatted SIN changes nothing |
| Formatters.FormatPostalCode | preplanning_autofill.py:148-155 | only upper-cased alphanumerics of the input; up to 3 unchanged, otherwise 3, a space, the next at most 3; length at most 7; a space only at index 3; `format_postal_code` (autofill_rob.py lines 2526-2533) is the same mask |
| Formatters.FormatPostalCodeIdempotent | preplanning_autofill.py:98-100 | formatting a formatted postal code changes nothing |
| Formatters.Upper | preplanning_autofill.py:150 | `upper()` maps each character to its upper case and keeps the length |
| Formatters.ValidateEmailCorrect | preplanning_autofill.py:124-128 | accepted exactly when empty or when it splits as [\w.-]+ '@' [\w.-]+ '.' \w+; `validate_email` (autofill_rob.py lines 2440-2444) is the same check |
| Formatters.ValidateEmailSingleAt | preplanning_autofill.py:124-128 | an accepted non-empty address has exactly one '@' |
| Formatters.Suffix | autofill_rob.py:1527-1530 | the suffix is st, nd, rd for last digit 1, 2, 3 outside 11 to 13, th otherwise |
| Formatters.Ordinal | autofill_rob.py:1526-1531 | the result is str(n) followed by the suffix; each suffix holds exactly in its case (both directions) |
| Formatters.DollarKeystroke | autofill_rob.py:2300-2336 | a deletion is always accepted; a rejection restores the remembered text and happens only for a bad last character or a second '.'; an acceptance stores the new text |
| Formatters.TypingKeepsDollarText | autofill_rob.py:2316-2332 | typing one character at the end is accepted exactly for a digit, ',' or a first '.', and the remembered text stays digits, commas and at most one point |
| Formatters.ConvertToFloat | autofill_rob.py:1661-1672 | '' exactly for empty or unparseable text; otherwise a text whose amount is the cleaned value rounded to cents |
| Formatters.ConvertToFloatIdempotent | autofill_rob.py:1661-1672 | converting a converted amount changes nothing |
| Formatters.ConvertRendered | autofill_rob.py:1668-1670 | a plain two-decimal rendering converts to itself |
| Formatters.ReformatKeepsAmount | autofill_rob.py:1590-1592 | `format_dollar_field` leaves a price that `apply_package` wrote as `{:,.2f}` unchanged, whatever was remembered before |
| Formatters.ShowParses | autofill_rob.py:2371-2374 | the grouped rendering without its commas parses to the rounded amount |
| Pricing.GstFieldsAreSectionsABC | autofill_rob.py:162-168 | `gst_fields` is exactly sections A, B and C in order |
| Pricing.PstMember | autofill_rob.py:170-172 | a field is PST-applicable exactly when it is B1 to B7, C4 or C7 |
| Pricing.SectionTotalIsSum | autofill_rob.py:2262-2263 | a section sum exists exactly when every field parses, and then it is the sum of the fields |
| Pricing.PstBaseIsPstFields | autofill_rob.py:2234-2244 | the PST loop over `gst_fields` sums exactly the `pst_fields` (B1 left out when exempt) |
| Pricing.PstExemption | autofill_rob.py:2240-2244 | the PST base drops B1 exactly when the casket is the basic cremation container |
| Pricing.PstOfInvoice | autofill_rob.py:2229-2246 | PST is 7 % of the PST fields, regardless of the discount |
| Pricing.GstOfTotals | autofill_rob.py:2248-2273 | GST is 5 % of (A + B + C - discount) and the grand total is A + B + C - discount + GST + PST + D |
| Pricing.NegativeGst | autofill_rob.py:2248-2250 | a discount above A + B + C gives negative GST: there is no clamp |
| Pricing.AbcIsGstBase | autofill_rob.py:2250-2272 | A + B + C equals the GST base the loop sums |
| Pricing.InvoiceParts | autofill_rob.py:2224-2298 | a computed invoice has its sections, taxes and grand total from the section sums and the tax bases |
| Pricing.NoInvoiceWithoutTaxes | autofill_rob.py:2234-2237 | a missing GST field leaves only the discount written |
| Pricing.RecalculatedTotals | autofill_rob.py:2227-2291 | when every GST and section field is present and parses: Discount shows the discount; Total A to D show the section sums and Total D_2 shows Total D; Total (ABC) shows their sum; GST and PST show the invoice's taxes (5 % of A + B + C less the discount, and 7 % of the PST fields, by `GstOfTotals` and `PstOfInvoice`); Grand Total and 3A show the grand total; Total 3 shows the invoice's Total 3 when it has one |
| Pricing.RecalculatedElsewhere | autofill_rob.py:2224-2298 | `calculate_grand_total` writes no field but Discount, the totals, 3A and Total 3; every other field keeps its text, and Total 3 keeps its text when the invoice or 3B to 3E raise |
| Pricing.Total3Of | autofill_rob.py:2284-2291 | the invoice has a Total 3 exactly when 3B to 3E are present and parse, and it is the grand total plus their sum |
| Pricing.Section3IsGoodsAndExtras | autofill_rob.py:2287-2291 | Total 3 sums 3A (the grand total) and the preplanned extras 3B to 3E |
| Pricing.TallyIsSectionTotal | autofill_rob.py:1074-1081 | reading a list of fields in order succeeds exactly when every field parses, with the same sum |
| Pricing.TallyFirstFailure | autofill_rob.py:1074-1080 | when every field before the i-th parses and the i-th does not, the error raised is the i-th field's |
| Pricing.AllValue | autofill_rob.py:1074-1080 | when every field parses the list is summed |
| Financing.TermNamed | autofill_rob.py:2185 | a term name is recognised exactly for the five terms, and names that term |
| Financing.NameSelects | autofill_rob.py:2124-2126 | each term's own name selects it |
| Financing.AgeGroupsShape | autofill_rob.py:2102-2114 | the bands are contiguous, the first has no lower bound and the last ends at 82 |
| Financing.Disjoint | autofill_rob.py:2102-2114 | no age satisfies two bands |
| Financing.Covered | autofill_rob.py:2102-2114 | every age from the first band's bottom to the last band's top falls in some band |
| Financing.FirstMatchFinds | autofill_rob.py:2115 | `next(...)` returns the band of the first predicate that holds |
| Financing.FirstMatchNone | autofill_rob.py:2115-2118 | when no predicate holds there is no band, and the age is out of range |
| Financing.BandOfDefined | autofill_rob.py:2102-2118 | an age has a band exactly when it is at most 82 (negative ages included); 54 and below is the first band |
| Financing.BandOfUnique | autofill_rob.py:2102-2115 | the band found is the one band whose predicate holds |
| Financing.Factor | autofill_rob.py:555-567 | a factor exists exactly for the first Offered(band) terms, and each lies between 0.007 and 0.04 |
| Financing.OfferShrinksWithAge | autofill_rob.py:555-567 | an older band offers no more terms than a younger one |
| Financing.LongerTermSmallerFactor | autofill_rob.py:555-567 | within a band, a longer term that is offered has a smaller factor than every shorter one |
| Financing.AssessAgrees | autofill_rob.py:2075-2081 | the quote depends on Total 3, 4A and the age alone |
| Financing.NothingToFinanceIff | autofill_rob.py:2077-2092 | nothing is financed exactly when Total 3 and 4A parse and Total 3 - 4A is at most zero |
| Financing.QuotedPrincipal | autofill_rob.py:2081 | the quoted principal is the ceiling of Total 3 - 4A, and positive |
| Financing.QuotedBand | autofill_rob.py:2094-2118 | a quote has an age of at most 82 and the band whose predicate that age satisfies |
| Financing.AgeOutOfRange | autofill_rob.py:2094-2118 | a positive principal with no integer age or an age above 82 fails |
| Financing.QuotedPayments | autofill_rob.py:2120-2133 | a term's payment is missing exactly when the band has no factor for it; otherwise it is positive and between 0.7 % and 4 % of the principal |
| Financing.UnquotedIsZero | autofill_rob.py:2083-2092 | without a quote every term stores 0.00 and the table shows five "0.00" |
| Financing.Rendered | autofill_rob.py:2161-2174 | the table rebuilt from stored payments has one cell per term |
| Financing.TableMatchesPayments | autofill_rob.py:2158-2176 | the table `calculate_monthly_payment` shows is the one `update_monthly_payments` rebuilds from the stored payments |
| Financing.SelectAbsent | autofill_rob.py:2185-2186 | a term that is unknown or not stored changes nothing and returns false |
| Financing.SelectUnavailable | autofill_rob.py:2209-2213 | a term with no payment empties 4B, leaves Total 4 and every other field as it was, and returns false |
| Financing.SelectAvailable | autofill_rob.py:2186-2206 | an offered term writes its payment to 4B and 4A + payment + 4C + 4D to Total 4, changes nothing else, and returns true |
| Financing.SelectUnreadable | autofill_rob.py:2193-2203 | when 4A, 4C or 4D does not parse, 4B keeps the payment, Total 4 is not written, and false is returned |
| Ledger.DiscountTotalUpdate | autofill_rob.py:1812-1825 | changing one row below n changes the total by the difference of that row's contributions |
| Ledger.ClearRowTotal | autofill_rob.py:1773-1783 | clearing a row lowers the total by exactly what it contributed |
| Ledger.VisibleCountUpdate | autofill_rob.py:1769-1771 | changing one row changes the count of shown rows by its change in visibility |
| Ledger.Descriptions | autofill_rob.py:2647-2656 | every collected description is stripped and non-empty |
| Ledger.OnlyDescription | autofill_rob.py:2643-2660 | with one shown row, the combined description is that row's stripped description |
| Ledger.JoinLength | autofill_rob.py:2659 | joining adds one separator between each two parts |
| Ledger.FirstCadenceCorrect | autofill_rob.py:2670-2676 | the Cadence row found is the first shown row reading "cadence" after strip and lower-casing; none is found exactly when there is none |
| Ledger.CadenceAmountClean | autofill_rob.py:2676-2678 | the Cadence amount returned holds no '$' and no ',' |
| Ledger.ScanRowsCorrect | autofill_rob.py:1558-1567 | the scan reports Cadence exactly when a shown row reads "Cadence"; otherwise it reports the last empty shown row, or none exactly when there is none |
| Ledger.AddEmptyRow | autofill_rob.py:1728-1733 | a new row gets the id after every existing one, is shown and empty, and leaves the total and the descriptions unchanged |
| Ledger.RemoveRow | autofill_rob.py:1766-1783 | removal clears the row, hides it only when more than one row is shown, keeps at least one row shown, and lowers the total by the row's contribution |
| Packages.Lookup | autofill_rob.py:1551 | a package is found exactly when the catalogue names it, and it is that entry's package |
| Packages.AllKeysMeans | autofill_rob.py:1539-1541 | the fields to clear are exactly the fields some package sets |
| Packages.ValueOf | autofill_rob.py:1588 | a package sets a field exactly when it lists it, and to a value it lists for it |
| Packages.Written | autofill_rob.py:1588-1589 | the write loop only writes fields the form has |
| Packages.WrittenAt | autofill_rob.py:1588-1595 | after the write loop a field holds the package's rendered value, or what it held when the package does not set it |
| Packages.PackageWindowAt | autofill_rob.py:1538-1595 | after applying, a field holds the package's value, else the service name for Type of Service, else "" for a field of another package, else its old text |
| Packages.PackageWindowKeys | autofill_rob.py:1538-1595 | applying adds Type of Service and no other field |
| Packages.PackageWindowIdempotent | autofill_rob.py:1538-1595 | applying the same package twice gives the fields of applying it once |
| Packages.LastPackageWins | autofill_rob.py:1538-1595 | applying one package and then another gives the fields of applying only the second |
| Packages.WithCadenceEnsures | autofill_rob.py:1553-1585 | after the Cadence step the rows stay well formed and hold a Cadence row; rows with one are unchanged; only an empty shown row changes, and it becomes the Cadence row |
| Packages.CadenceAddsDiscount | autofill_rob.py:1569-1585 | without a Cadence row, the Cadence step raises the discount total by exactly 400.00 |
| Packages.WithCadenceIdempotent | autofill_rob.py:1553-1585 | the Cadence row is never added twice |
| Packages.CadenceAmountValue | autofill_rob.py:1574 | the Cadence amount "400.00" reads as 400 in the discount total |
| Autofill.RemoveFirst | autofill_rob.py:1786-1789 | `list.remove` takes out one occurrence of a present key and changes nothing otherwise |
| Autofill.TaxLoop | autofill_rob.py:2233-2246 | the loop reports a missing field exactly when one is missing, and otherwise returns the GST base and the PST |
| Autofill.DiscountLoop | autofill_rob.py:1812-1825 | the loop's total is the sum of the shown rows' readable amounts |
| Autofill.Recalculate | autofill_rob.py:2224-2298 | the writes of `calculate_grand_total` are those its specification states |
| Autofill.TallyLoop | autofill_rob.py:1074-1080 | summing a list of fields in order gives the first error or the sum |
| Autofill.PaymentLoop | autofill_rob.py:2120-2133 | the stored payments and the table row are those of the quote |
| Autofill.RenderLoop | autofill_rob.py:2161-2170 | the rebuilt table is the rendering of the stored payments |
| Autofill.AllKeysLoop | autofill_rob.py:1539-1541 | the loop collects every field of every package |
| Autofill.ClearLoop | autofill_rob.py:1542-1545 | the loop empties every such field the form has, and nothing else |
| Autofill.ScanLoop | autofill_rob.py:1558-1567 | the scan loop stops at a Cadence row and remembers the last empty shown row |
| Autofill.WriteLoop | autofill_rob.py:1588-1595 | the write loop gives the package's fields their values in order |
| Autofill.DescriptionsLoop | autofill_rob.py:2647-2656 | the loop collects the stripped non-empty descriptions of the shown rows |
| Autofill.CadenceLoop | autofill_rob.py:2670-2679 | the loop returns the first Cadence row's cleaned amount, or "" |
| Autofill.CountShown | autofill_rob.py:1769-1771 | the count is the number of shown rows |
| Autofill.ChooseTerm | autofill_rob.py:2183-2222 | the term selection writes what `SelectTerm` specifies |
| Autofill.SettleTerm | autofill_rob.py:2186-2206 | the reads of 4A, 4C and 4D settle the selection as `Settle` specifies |
| Autofill.QuotePayments | autofill_rob.py:2071-2156 | the payments, the table and the fields are those `MonthlyPayment` specifies |
| Autofill.PricedAmount | autofill_rob.py:1014-1024 | the priced field reads back as quantity times the unit price, or 0 when the quantity is no integer |
| Autofill.MonthlyUnquoted | autofill_rob.py:2083-2092 | without a quote every term stores 0.00, the table is zeros and false is returned |
| Autofill.CheckboxRaised3 | autofill_rob.py:1062-1069 | a missing Section 3 field stops the handler after the move |
| Autofill.CheckboxRaised4 | autofill_rob.py:1063-1069 | a missing Section 4 field stops the handler after Total 3 |
| Autofill.CheckboxNoAge | autofill_rob.py:1062-1065 | without an age only the move, Total 3 and Total 4 are written |
| Autofill.CheckboxQuoted | autofill_rob.py:1062-1067 | with an age the quote from the moved values follows the totals, and the table is rebuilt from the stored payments |
| Autofill.ToggleRoundTrip | autofill_rob.py:1045-1061 | ticking and then clearing the box puts the 3E amount back in 3E, with 4C empty |
| Autofill.MovedReads | autofill_rob.py:1043-1061 | the toggle changes no field but 3E and 4C |
| Autofill.MoveLowersSection3 | autofill_rob.py:1045-1050 | moving 3E to 4C lowers the Section 3 sum by the 3E amount |
| Autofill.StaleQuote | autofill_rob.py:1062-1067 | the quote after the toggle is the quote before it: the values passed on still hold the old Total 3 |
| Autofill.StaleQuoteFinances | autofill_rob.py:1062-1067 | on a form whose Total 3 is current, ticking the box quotes on the old Total 3 although the Section 3 sum fell by 3E |
| Autofill.TickedExample | autofill_rob.py:1040-1069 | 3A to 3D at 1,000.00, 3E at 500.00, 4A at 0 and age 50: the box quotes on 1,500 where 1,000 is intended |
| Autofill.FreshQuote | autofill_rob.py:1062-1067 | with Total 3 refreshed the quote finances the lowered Section 3 sum |
| Autofill.RefreshedTotal | autofill_rob.py:1062 | the refreshed values are the moved values with Total 3 rewritten to the new sum |
| Autofill.QuoteAtFifty | autofill_rob.py:2102-2118 | age 50 quotes a positive principal in the first band |
| Autofill.CadenceKept | autofill_rob.py:1563-1570 | with a Cadence row, the rows and keys stay as they are |
| Autofill.CadenceFilled | autofill_rob.py:1571-1575 | without one, the last empty shown row takes the Cadence discount |
| Autofill.CadenceAppended | autofill_rob.py:1576-1585 | without an empty row, a new row takes it and its amount key is recorded |
| Autofill.Autofiller.constructor | autofill_rob.py:954-964 | the open form: one empty shown row, metadata 0, every dollar field remembered as "", no stored payments |
| Autofill.Autofiller.CalculateTotalDiscount | autofill_rob.py:1808-1836 | returns the discount total of the shown rows and writes it to Discount, nothing else |
| Autofill.Autofiller.CalculateGrandTotal | autofill_rob.py:2224-2298 | the fields become `Recalculated` with the discount total; only fields change |
| Autofill.Autofiller.CalculateSection3Total | autofill_rob.py:1071-1083 | writes Total 3 when 3A to 3E parse; reports the `KeyError` of a missing field, which propagates |
| Autofill.Autofiller.CalculateSection4Total | autofill_rob.py:1085-1097 | writes Total 4 when 4A to 4D parse; reports a missing field |
| Autofill.Autofiller.CalculatePreplannedAmount | autofill_rob.py:2051-2069 | writes Total 3 when 3A to 3E parse, and nothing otherwise |
| Autofill.Autofiller.CalculateMonthlyPayment | autofill_rob.py:2071-2156 | stores the payments, the table and the term fields `MonthlyPayment` specifies |
| Autofill.Autofiller.UpdateMonthlyPayments | autofill_rob.py:2158-2181 | rebuilds the table from the stored payments and returns true |
| Autofill.Autofiller.HandlePaymentTermSelection | autofill_rob.py:2183-2222 | the fields and result are those of `SelectTerm` on the stored payments |
| Autofill.Autofiller.HandleSinglePayJhCheckbox | autofill_rob.py:1040-1069 | the fields, payments and table become `CheckboxOutcome` of the old ones |
| Autofill.Autofiller.CalculateCards | autofill_rob.py:1014-1024 | B5 becomes quantity x 2.95 (or "" for a non-integer), then the grand total is recalculated |
| Autofill.Autofiller.CalculateGuestBooks | autofill_rob.py:1026-1036 | B6 becomes quantity x 75.00 (or ""), then the grand total is recalculated |
| Autofill.Autofiller.CalculateDeathCertificates | autofill_rob.py:2039-2049 | D7 becomes quantity x 27.00 (or ""), then the grand total is recalculated |
| Autofill.Autofiller.ValidateDollarInput | autofill_rob.py:2300-2336 | the widget text, `last_value` and the result follow `DollarKeystroke`; no other state changes |
| Autofill.Autofiller.RestoreWidget | autofill_rob.py:2321-2323 | a rejected keystroke puts the remembered text back in the widget |
| Autofill.Autofiller.AddDiscountField | autofill_rob.py:1728-1763 | metadata grows by one; the new row is empty and shown; the amount key is recorded once; the total and the descriptions are unchanged |
| Autofill.Autofiller.RemoveDiscountField | autofill_rob.py:1766-1805 | an unknown row changes nothing; otherwise `Discarded` holds and the grand total is recalculated with the lowered discount |
| Autofill.Autofiller.Discard | autofill_rob.py:1768-1791 | the row is cleared and hidden unless it is the only one shown; its keys are dropped only when it was hidden |
| Autofill.Autofiller.ClearRow | autofill_rob.py:1773-1783 | the row is emptied, hidden unless it is the only one shown, and the total falls by its contribution |
| Autofill.Autofiller.ForgetKey | autofill_rob.py:1785-1791 | the amount key leaves both key lists and `last_value`, unless the row was kept |
| Autofill.Autofiller.GetDiscountDescriptions | autofill_rob.py:2643-2665 | the shown rows' stripped non-empty descriptions joined by " + " |
| Autofill.Autofiller.GetCadenceDiscountAmount | autofill_rob.py:2667-2683 | the first Cadence row's amount without '$' and ',', or "" |
| Autofill.Autofiller.ApplyPackage | autofill_rob.py:1533-1604 | the catalogue fields are cleared and the selection recorded; without Type of Service or the package it stops there; otherwise the Cadence step, the package fields and the grand total follow |
| Autofill.Autofiller.NameService | autofill_rob.py:1538-1550 | every package field is cleared, the selection is recorded, and the service is named when the field exists |
| Autofill.Autofiller.AddCadence | autofill_rob.py:1553-1585 | the rows and keys take the Cadence step |
| Autofill.Autofiller.AppendCadence | autofill_rob.py:1576-1585 | a new row is added as `add_discount_field` adds one, then takes the Cadence discount |
| Autofill.Autofiller.WritePackage | autofill_rob.py:1588-1595 | the package's values are written in order |

## Left out

- Floating point: amounts are exact `real`s and `'%.2f'` rounds the exact value half to even. Binary-float artefacts (0.1 + 0.2) are not modelled.
- Locale grouping: `locale.format_string(..., grouping=True)` is modelled as ',' every three digits with '.' for decimals, the grouping of an English locale.
- Number syntax: `float()` is modelled as surrounding whitespace, one optional sign, digits and an optional fraction, and `int()` as surrounding whitespace, one optional sign and digits. Exponents, "inf"/"nan" and digit underscores are not modelled.
- Character classes are ASCII. `str.isdigit`, `isalnum`, `upper`, `strip` and regex `\w` are taken on ASCII, and the regex `$` accepting a trailing newline is not modelled.
- Python's '-0.00' rendering: `ConvertToFloatIdempotent`, `Fixed2OfRounded` and `ReformatKeepsAmount` exclude a negative amount that rounds to zero. Read back, it loses its sign.
- Fields the handlers write are assumed to exist in the layout. Writing a field the window lacks raises in the source; in the model it is a map update.
- The catalogue is taken as typed: every price in `packages` belongs to a dollar field and every text to a field that is not one, so a price is written as `{:,.2f}`. This typing is not proved against `dollar_input_keys`.
- Autofill.Autofiller.ApplyPackage: the recalculations `format_dollar_field` triggers for each price it formats are not modelled. These are the section totals, the grand total and the monthly quote when an age is set, plus the matching `last_value` updates. The final grand total is modelled; `ReformatKeepsAmount` shows the formatting leaves each written price as it is.
- Autofill.Autofiller.ApplyPackage: `handle_dollar_input` is called with a dictionary instead of a key. `format_dollar_field` then raises a `TypeError`, which `handle_dollar_input` catches, so the call does nothing, and the model does nothing.
- `handle_dollar_input` and `format_dollar_field` as handlers: only the text `format_dollar_field` leaves in the field is modelled (`FormatDollarText`). The handler chain it triggers is the one modelled for `calculate_grand_total` and `calculate_monthly_payment`.
- Autofill.Autofiller.HandleSinglePayJhCheckbox: the checkbox state is a parameter, and any other exception the source logs is not modelled.
- Autofill.Autofiller.GetDiscountDescriptions and Autofill.Autofiller.GetCadenceDiscountAmount read the rows without requiring them well formed. A row id below `metadata + 1` that is absent counts as not shown, where the source would raise `KeyError` and return "".
- The GUI: layout, the event loops, listboxes, inactivity timers, scroll regions, popups, `window.refresh()` and logging. Also PDF I/O, `create_data_dictionaries`, `update_establishment_constants`, path and image handling, and `calculate_age`, `validate_birthdate` and `format_birthdate_short`, which depend on the clock and on dateutil.
- The phone entries of `last_value` ('-PHONE-', 'Phone_3', 'Representative Phone'), which the constructor seeds for `validate_phone_input`, are not modelled: `lastValue` holds the dollar fields only, and nothing modelled reads the phone entries.
- `add_discount_field`'s widget creation and event bindings: `extend_layout`, `bind` and `TKroot.after` are GUI calls.
- A non-numeric GST field is skipped by the tax loop as the source does. Because `gst_fields` is exactly sections A to C (`GstFieldsAreSectionsABC`), that field also makes the section sums raise. So the only visible effect of the skip is that Discount is still written.

## Findings

| source | as written | input that shows it | evidently intended | confidence | as-written member | corrected member |
|---|---|---|---|---|---|---|
| autofill_rob.py:1040-1069 | `handle_single_pay_jh_checkbox` refreshes Total 3 in the window, but hands `calculate_monthly_payment` the values with the old Total 3, so the quote ignores the amount just moved out of Section 3 | 3A to 3D summing to 1,000.00, 3E 500.00, Total 3 1,500.00, 4A 0, age 50, box ticked: Total 3 shows 1,000.00 but the quote finances 1,500 | finance the refreshed Total 3 (1,000) | not executed | Autofill.StaleQuoteFinances | Autofill.FreshQuote |

The controller method `HandleSinglePayJhCheckbox` keeps the behaviour as written, since it models the source. `Refreshed` is the corrected hand-off, and `FreshQuote` proves that the quote from it finances the lowered Section 3 sum. `TickedExample` shows both on the input above.
