# Booking quote, booking form and checkout line items

This project models, in Dafny, the two places where the Maldives booking
site computes money:

- **The booking card's modal** (`components/shared/Summurycard3.jsx`).
  - The loose `num` coercion.
  - The nightly rate, taken from the first of five record fields that is not zero.
  - The pricing mode `per` ("person" by default).
  - The nights derived from the two dates.
  - The guest multiplier.
  - The flat add-on prices (60, 80 and 50).
  - The rounded 10% tax and the grand total.
  - `toAddOnsArray`.
  - The booking form's schema and the "first message per field wins" error map that `validateWithZod` builds.
- **The checkout endpoint** (`app/api/checkout/route.js`), up to the point where it hands its request to the payment provider.
  - `num`, the cents-or-dollars heuristic `asUSD`, `toCents` and the `feeRate` normalisation.
  - The two early rejections.
  - The guest counts and the nights rule.
  - The add-on loop, the fee line and the order of the line items.
  - The metadata strings.

Module `JsSemantics` holds the JavaScript coercions both files rely on:
- `Number(...)` and `parseInt(..., 10)`;
- `Math.round` and `Math.ceil`;
- `String(n)` and `trim`.

The card is modelled in `BookingQuote` (the quote) and `BookingValidation` (the form).
The route is modelled in `CheckoutRoute`.
`PricingDivergence` states where the card and the route agree and where they disagree.

Modelling choices:
- JavaScript numbers are exact reals. NaN and the infinities are one `NonFinite` case.
- `new Date(s).getTime()` is a parameter `parse` from strings to milliseconds. `None` stands for an invalid date. The empty string is always an invalid date (`DateValue`), whatever `parse` says.
- The catalogs `PACKAGES`, `ADDONS` and `FEES_RATE` are a `Catalog` value.
- The secret key is a string, `""` when it is not set.
- Code in the source that updates variables step by step is a method, proved equal to a function that specifies it:
  - `ModalExtrasTotal`: the card's extras sum;
  - `FieldErrors`: the error-map loop;
  - `CollectAddOns`: the route's add-on loop;
  - `Post`, `AssembleSession` and `PushFee`: the route's handler, with the correction described under "Findings". `Post` is proved equal to the function `Checkout`. The route exactly as written is the function `CheckoutAsWritten`, and `CorrectedAgreesWhenFinite` shows the two agree wherever the route's nights are a number.

The card always derives the nights from the two dates (components/shared/Summurycard3.jsx:205-212). The route trusts a supplied `nights` of at least 1 (app/api/checkout/route.js:66-76). The model follows each file, and `PricingDivergence.SuppliedNightsDiverge` states the difference.

## Model

| member | source | states |
|---|---|---|
| JsSemantics.Round | components/shared/Summurycard3.jsx:231 | `Math.round` lies within one half of its argument |
| JsSemantics.Ceil | components/shared/Summurycard3.jsx:210 | `Math.ceil` is the least integer not below its argument |
| JsSemantics.Trunc | app/api/checkout/route.js:61-62 | the integer part `parseInt` keeps of a number, rounded toward zero |
| JsSemantics.TrimStart | components/shared/Summurycard3.jsx:243 | the result is a suffix of the input; every character removed is white space, and the result does not start with white space |
| JsSemantics.TrimEnd | components/shared/Summurycard3.jsx:243 | the result is a prefix of the input; every character removed is white space, and the result does not end with white space |
| JsSemantics.DigitRun | app/api/checkout/route.js:61-66 | the leading digit run `parseInt` reads is all digits and maximal |
| JsSemantics.NatToDecimal | app/api/checkout/route.js:148-150 | `String(n)` of a number n ≥ 0 is a non-empty run of digits with no leading zero: it starts with "0" exactly when n is 0, and is then "0" |
| JsSemantics.DecimalRoundTrip | app/api/checkout/route.js:148-150 | reading back the digits of `String(n)` gives n |
| JsSemantics.DecimalIsNumber | components/shared/Summurycard3.jsx:17 | `Number(String(n))` is n for every n ≥ 0 |
| JsSemantics.DecimalParsesBack | app/api/checkout/route.js:148-150 | `parseInt(String(n), 10)` is n for every n ≥ 0 |
| JsSemantics.IntToDecimal | app/api/checkout/route.js:148-150 | `String(n)` for any whole number: a minus sign before the digits of a negative one; what it states is in NatToDecimal and DecimalParsesBack |
| JsSemantics.StringToNumber | components/shared/Summurycard3.jsx:17 | `Number(s)` on a string: trimmed, empty gives 0, a signed decimal literal gives its value, `Infinity` and anything else are not finite; DecimalIsNumber states it reads every `String(n)` back |
| JsSemantics.ToNumber | app/api/checkout/route.js:10-13 | `Number(v)` on every kind of value; NumOrDefault states how `num` uses it |
| JsSemantics.ParseInt | app/api/checkout/route.js:61-66 | `parseInt(v, 10)`: leading white space, a sign and the longest digit run, NaN without a digit; DecimalParsesBack and GuestCounts state it |
| JsSemantics.DateValue | components/shared/Summurycard3.jsx:59-62 | `new Date(s).getTime()`, with the empty string always an invalid date; RefineFirst and EmptyCheckInNotOrdered state what the schema does with it |
| BookingQuote.StripNonNumeric | components/shared/Summurycard3.jsx:17 | the stripped string keeps only digits, `.` and `-`, is no longer than the input, and is empty for an input without any of them |
| BookingQuote.StripKeepsNumeric | components/shared/Summurycard3.jsx:17 | a string that is already only digits, `.` and `-` is left unchanged |
| BookingQuote.StripAppend | components/shared/Summurycard3.jsx:17 | stripping distributes over concatenation |
| BookingQuote.StripDropsOthers | components/shared/Summurycard3.jsx:17 | any other character is dropped; with StripAppend and StripKeepsNumeric this fixes the stripped form of every string |
| BookingQuote.Num | components/shared/Summurycard3.jsx:13-21 | `num(x)`: 0 for null and undefined, a finite number as it is, a string stripped and read with `Number` (0 when not finite), 0 otherwise; its properties are NumReadsFormattedAmount, NumDollarExample and NumNoNumericChars |
| BookingQuote.NumReadsFormattedAmount | components/shared/Summurycard3.jsx:16-18 | a string whose numeric characters spell n is read as n |
| BookingQuote.NumDollarExample | components/shared/Summurycard3.jsx:12-18 | `num("$1,200")` is 1200 |
| BookingQuote.NumNoNumericChars | components/shared/Summurycard3.jsx:16-18 | a string without any digit, `.` or `-` (such as "n/a") reads as 0 |
| BookingQuote.BaseRateIsFirstNonZero | components/shared/Summurycard3.jsx:111-116 | the base rate is 0 exactly when all five candidates are 0; otherwise it is the first candidate that is not 0 |
| BookingQuote.BaseRate | components/shared/Summurycard3.jsx:111-116 | the `||` chain over the five candidate fields; BaseRateIsFirstNonZero states it |
| BookingQuote.ToLower | components/shared/Summurycard3.jsx:110 | lower-casing keeps the length, turns each of `A`–`Z` into its lower-case letter and leaves every other character |
| BookingQuote.PricingModeDefaultsToPerson | components/shared/Summurycard3.jsx:109-110 | an empty or missing `per` gives the mode "person" |
| BookingQuote.PricingModeIgnoresCase | components/shared/Summurycard3.jsx:110 | `per` written "Person" gives the mode "person" |
| BookingQuote.PricingMode | components/shared/Summurycard3.jsx:110 | `(price.per || "person").toLowerCase()`; PricingModeDefaultsToPerson and PricingModeIgnoresCase state it |
| BookingQuote.ModalNights | components/shared/Summurycard3.jsx:205-212 | nights are at least 1; 1 when a date is empty, when a date does not parse, or when check-out is not after check-in; otherwise the day difference rounded up |
| BookingQuote.Travelers | components/shared/Summurycard3.jsx:214 | travellers are max(1, adults + children): at least both, and equal to one of them |
| BookingQuote.GuestMultiplier | components/shared/Summurycard3.jsx:215 | the multiplier is the travellers in "person" mode and exactly 1 in any other mode |
| BookingQuote.ToAddOnsArray | components/shared/Summurycard3.jsx:235-239 | the key list is no longer than the entries |
| BookingQuote.ToAddOnsArrayMembers | components/shared/Summurycard3.jsx:235-239 | a key is in the list exactly when it is one of the three add-on keys and its flag is set |
| BookingQuote.SelectedKeys | components/shared/Summurycard3.jsx:235-239 | the list of the card's flags is the selected keys, in the order cruise, spa, water sports |
| BookingQuote.PriceSumAppend | components/shared/Summurycard3.jsx:217-223 | the price of a key list distributes over concatenation |
| BookingQuote.PriceSumRemove | components/shared/Summurycard3.jsx:217-223 | removing one key takes its price off the sum |
| BookingQuote.PriceSumPermutation | components/shared/Summurycard3.jsx:217-223 | the extras total does not depend on the order of the selected keys |
| BookingQuote.SelectedAddOnsPriceRange | components/shared/Summurycard3.jsx:217-223 | the extras total lies between 0 and 190 |
| BookingQuote.ModalExtrasTotal | components/shared/Summurycard3.jsx:217-223 | the running sum is 60·cruise + 80·spa + 50·water sports, and the result lies between 0 and 190 |
| BookingQuote.Taxes | components/shared/Summurycard3.jsx:231 | the tax lies within one half of a tenth of the subtotal |
| BookingQuote.TaxesOfWholeSubtotal | components/shared/Summurycard3.jsx:231 | on a whole subtotal s, `Math.round(s * 0.1)` is (s + 5) / 10 |
| BookingQuote.BaseTotal | components/shared/Summurycard3.jsx:226-229 | rate × nights × multiplier; BaseTotalMonotoneInNights and ModalQuoteParts state it |
| BookingQuote.ModalQuote | components/shared/Summurycard3.jsx:205-232 | the live quote: nights, base, extras, tax and grand total; ModalQuoteParts, GrandTotalBounds, PerRoomIgnoresGuests and QuoteExample state its properties |
| BookingQuote.ModalQuoteParts | components/shared/Summurycard3.jsx:214-232 | base is rate × nights × max(1, adults + children) in "person" mode and rate × nights otherwise; extras lie between 0 and 190; grand total is base + extras + tax; tax is the rounded tenth |
| BookingQuote.QuoteForAddsUp | components/shared/Summurycard3.jsx:214-232 | for any number of nights, the base is rate × nights × the multiplier (max(1, adults + children) in "person" mode, 1 otherwise), the extras lie in 0..190, the tax is within half a unit of 10% of the subtotal and the grand total is their sum |
| BookingQuote.PerRoomIgnoresGuests | components/shared/Summurycard3.jsx:215-229 | outside "person" mode the quote does not depend on the guest counts |
| BookingQuote.BaseTotalMonotoneInNights | components/shared/Summurycard3.jsx:226-229 | for a rate ≥ 0, a multiplier ≥ 1 and 1 ≤ n1 ≤ n2, more nights never lower the base total (a negative rate, which `num` allows, reverses it) |
| BookingQuote.GrandTotalBounds | components/shared/Summurycard3.jsx:231-232 | when the base total is not negative, the grand total lies between the subtotal and 1.1 × the subtotal + 0.5 |
| BookingQuote.QuoteExample | components/shared/Summurycard3.jsx:205-232 | rate 100, two nights and two adults in "person" mode give base 400, tax 40 and total 440 |
| BookingValidation.EnumIssuesEmpty | components/shared/Summurycard3.jsx:54-56 | the add-on enum raises no issue exactly when every element is one of the three keys |
| BookingValidation.PayloadOf | components/shared/Summurycard3.jsx:242-249 | the payload of the card: the trimmed package id, the dates, the counts and `toAddOnsArray` of the flags |
| BookingValidation.EnumIssues | components/shared/Summurycard3.jsx:54-56 | one "Invalid enum value" issue per element outside the three keys; EnumIssuesEmpty states it |
| BookingValidation.ShapeIssues | components/shared/Summurycard3.jsx:48-57 | the object's issues in key order; ShapeFirst states the first message per field |
| BookingValidation.RefineIssues | components/shared/Summurycard3.jsx:58-85 | the date issues of `superRefine`; RefineFirst and EmptyCheckInNotOrdered state them |
| BookingValidation.SchemaIssues | components/shared/Summurycard3.jsx:47-85 | the shape issues, then the refinement unless an add-on is outside the enum; SchemaFirstMessage states it |
| BookingValidation.ErrorMap | components/shared/Summurycard3.jsx:255-259 | the `if (key && !map[key])` loop as a function; ErrorMapIsFirstMessage states it |
| BookingValidation.Validate | components/shared/Summurycard3.jsx:241-262 | the data with the quote's nights on success, else the error map; ValidIff, FieldMessage and ValidCarriesQuoteNights state it |
| BookingValidation.MessagesNonEmptyAppend | components/shared/Summurycard3.jsx:256-259 | lists of issues whose messages are non-empty stay so when joined |
| BookingValidation.EnumMessagesNonEmpty | components/shared/Summurycard3.jsx:54-56 | every enum issue has a non-empty message |
| BookingValidation.ShapeMessagesNonEmpty | components/shared/Summurycard3.jsx:48-57 | every message of the object's own checks is non-empty |
| BookingValidation.RefineMessagesNonEmpty | components/shared/Summurycard3.jsx:58-85 | every message of the date refinement is non-empty |
| BookingValidation.SchemaMessagesNonEmpty | components/shared/Summurycard3.jsx:47-85 | every issue the schema raises has a non-empty message |
| BookingValidation.FirstMessageAppend | components/shared/Summurycard3.jsx:256-259 | a field's first message in a joined list comes from the first part when it has one |
| BookingValidation.FirstMessageNonEmpty | components/shared/Summurycard3.jsx:256-259 | with non-empty messages a field's first message is non-empty |
| BookingValidation.ErrorMapIsFirstMessage | components/shared/Summurycard3.jsx:255-259 | a field is in the error map exactly when some issue is about it, and it maps to the first such issue's message |
| BookingValidation.FirstMessageIsEarliest | components/shared/Summurycard3.jsx:256-258 | the first issue on a field supplies its message; later ones are dropped |
| BookingValidation.FirstMessageNoneIff | components/shared/Summurycard3.jsx:256-258 | a field has no message exactly when no issue is about it |
| BookingValidation.FieldErrors | components/shared/Summurycard3.jsx:255-259 | the loop over the issues builds the error map |
| BookingValidation.ValidateWithZod | components/shared/Summurycard3.jsx:241-262 | the method returns the result of the schema on the card's payload: the data with the quote's nights, or the error map |
| BookingValidation.CardAddOnsAlwaysValid | components/shared/Summurycard3.jsx:54-56 | the key list built from the card's flags never fails the enum check |
| BookingValidation.RequiredStringFirst | components/shared/Summurycard3.jsx:49-51 | a required string raises its message exactly when it is empty |
| BookingValidation.WholeNumberFirst | components/shared/Summurycard3.jsx:52-53 | a count raises "Expected integer, received float" when it is not whole, else its minimum message when it is too small |
| BookingValidation.ShapeFirst | components/shared/Summurycard3.jsx:48-57 | each field's first shape message is the expected one |
| BookingValidation.RefineFirst | components/shared/Summurycard3.jsx:58-85 | the date refinement gives "Invalid date" to each unparsable date, and "Check-out must be after check-in" when both parse and are out of order |
| BookingValidation.EmptyCheckInNotOrdered | components/shared/Summurycard3.jsx:58-84 | an empty check-in is an invalid date for the refinement, so check-out is never "out of order" against it; the form asks for the date |
| BookingValidation.SchemaFirstMessage | components/shared/Summurycard3.jsx:47-85 | every field's first message over the whole schema is the expected message |
| BookingValidation.ValidIff | components/shared/Summurycard3.jsx:47-85 | validation succeeds exactly when the package id and both dates are present, both dates parse, check-out is after check-in, adults is a whole number ≥ 1 and children a whole number ≥ 0 |
| BookingValidation.InvalidErrors | components/shared/Summurycard3.jsx:255-261 | on failure the error map holds each field's first issue message and nothing else |
| BookingValidation.FieldMessage | components/shared/Summurycard3.jsx:255-261 | a field the rules object to makes validation fail and shows exactly the expected message; a field they accept is absent from the map |
| BookingValidation.ValidCarriesQuoteNights | components/shared/Summurycard3.jsx:251-253 | a successful result carries the quote's nights (the day difference rounded up) and the selected add-ons |
| BookingValidation.OrderRejected | components/shared/Summurycard3.jsx:78-84 | dates out of order fail validation, with "Check-out must be after check-in" on check-out |
| BookingValidation.ClampVersusReject | components/shared/Summurycard3.jsx:78-84 | for the same dates out of order the quote shows 1 night while validation rejects them |
| CheckoutRoute.NumOrDefault | app/api/checkout/route.js:10-13 | `num(v, d)` is d exactly when `Number(v)` is not finite; null and "" are 0 |
| CheckoutRoute.NumOr | app/api/checkout/route.js:10-13 | `num(v, d)`; NumOrDefault states it |
| CheckoutRoute.AsUSD | app/api/checkout/route.js:17-21 | `asUSD`; AsUSDConvertsExactlyCents, AsUSDKeepsIntegers and AsUSDReadsCents state it |
| CheckoutRoute.AsUSDConvertsExactlyCents | app/api/checkout/route.js:17-21 | `asUSD` changes an amount exactly when it is a whole number ≥ 1000 divisible by 100, and then divides it by 100 |
| CheckoutRoute.AsUSDKeepsIntegers | app/api/checkout/route.js:17-21 | a whole amount stays whole |
| CheckoutRoute.AsUSDReadsCents | app/api/checkout/route.js:17-21 | 100·k for k ≥ 10 is read as k dollars |
| CheckoutRoute.AsUSDAmbiguous | app/api/checkout/route.js:15-21 | 1200 and 12 both come out as 12 dollars; 999 stays 999 |
| CheckoutRoute.ToCents | app/api/checkout/route.js:24 | cents lie within one half of 100 × the amount; a non-finite amount gives 0 |
| CheckoutRoute.ToCentsWhole | app/api/checkout/route.js:24 | a whole number of dollars is exactly 100 × that many cents |
| CheckoutRoute.CentsRoundTrip | app/api/checkout/route.js:17-24 | a catalog price of 100·k cents (k ≥ 10) is charged as 100·k cents |
| CheckoutRoute.FeeRate | app/api/checkout/route.js:27-30 | `feeRate`; FeeRateRule states it |
| CheckoutRoute.FeeRateRule | app/api/checkout/route.js:27-30 | for every configured value: above 1 it is divided by 100, at or below 1 it is kept; unset it is 0 |
| CheckoutRoute.UnsetRateNoFeeItem | app/api/checkout/route.js:99-131 | with `FEES_RATE` unset the fee is 0 and no fee item is pushed |
| CheckoutRoute.FeeRatePercentOrFraction | app/api/checkout/route.js:27-30 | a percentage p with 1 < p ≤ 100 and the fraction p / 100 give the same rate |
| CheckoutRoute.FeeRateBounds | app/api/checkout/route.js:27-30 | a configured rate of at most 100 gives a fraction of at most 1; 1 stays 1; 10 and 0.1 both give 0.1 |
| CheckoutRoute.GuestCounts | app/api/checkout/route.js:61-63 | adults are the parsed count when it is ≥ 1, else 1; children are the parsed count when it is ≥ 0, else 0; guests are at least 1 |
| CheckoutRoute.AdultsCount | app/api/checkout/route.js:61 | `Math.max(1, parseInt(adults, 10) || 1)`; GuestCounts states it |
| CheckoutRoute.ChildrenCount | app/api/checkout/route.js:62 | `Math.max(0, parseInt(children, 10) || 0)`; GuestCounts states it |
| CheckoutRoute.RecomputedIsDayDifference | app/api/checkout/route.js:69-72 | recomputed nights are the difference of the two calendar days, at least 1 |
| CheckoutRoute.Nights | app/api/checkout/route.js:66-76 | the corrected night count is at least 1 |
| CheckoutRoute.NightsRule | app/api/checkout/route.js:66-76 | a supplied count ≥ 1 is used as is; otherwise two present, parsable dates give their day difference (at least 1); without both dates the count is 1 |
| CheckoutRoute.NightsAsWritten | app/api/checkout/route.js:66-76 | the route's `n` as written, None for NaN; NaNNightsAsWritten and CorrectedAgreesWhenFinite state it |
| CheckoutRoute.KnownIds | app/api/checkout/route.js:84-86 | the ids kept by the loop are all in the catalog |
| CheckoutRoute.AddOnsAppend | app/api/checkout/route.js:82-97 | the total, the items and the kept ids of a list distribute over concatenation |
| CheckoutRoute.AddOnLinesAreKnownIds | app/api/checkout/route.js:84-97 | one item per kept id, in input order; a list of unknown ids gives no item |
| CheckoutRoute.DuplicatesCounted | app/api/checkout/route.js:84-97 | a known id listed twice is charged twice and gets two items; an unknown id changes nothing |
| CheckoutRoute.AddOnsTotal | app/api/checkout/route.js:82-88 | `addOnsUSD` after the loop; CollectAddOns, AddOnsAppend and DuplicatesCounted state it |
| CheckoutRoute.AddOnLines | app/api/checkout/route.js:83-96 | `addOnLineItems` after the loop; AddOnLinesAreKnownIds and AddOnsAppend state it |
| CheckoutRoute.BaseUSD | app/api/checkout/route.js:79-80 | `nightlyUSD * n * guests`, NaN when n is; BaseAmountInCents states it |
| CheckoutRoute.FeesUSD | app/api/checkout/route.js:99 | `Math.round((baseUSD + addOnsUSD) * feeRate)`; PricingDivergence.FeesMatchCardTaxes and WholeFees state it |
| CheckoutRoute.Assemble | app/api/checkout/route.js:78-152 | the session once the package is found; LineItemOrder, MetadataCountsParseBack and MetadataAddOns state it |
| CheckoutRoute.SessionMetadata | app/api/checkout/route.js:144-152 | the metadata strings; MetadataCountsParseBack and MetadataAddOns state them |
| CheckoutRoute.Respond | app/api/checkout/route.js:35-59 | the two rejections, then the session; ErrorPrecedence states it |
| CheckoutRoute.CheckoutAsWritten | app/api/checkout/route.js:33-152 | the route as written, NaN nights included; NaNNightsSession states where it goes wrong |
| CheckoutRoute.Checkout | app/api/checkout/route.js:33-152 | the route with the corrected nights; ErrorPrecedence and CorrectedAgreesWhenFinite state it |
| CheckoutRoute.ComputeNights | app/api/checkout/route.js:66-76 | the method computes the corrected night count |
| CheckoutRoute.CollectAddOns | app/api/checkout/route.js:82-97 | the loop computes the add-on total and the add-on items |
| CheckoutRoute.PushFee | app/api/checkout/route.js:120-131 | exactly one fee item is appended when the fees are a number above 0, none otherwise |
| CheckoutRoute.AssembleSession | app/api/checkout/route.js:79-152 | the method builds the line items and the metadata of the session |
| CheckoutRoute.Post | app/api/checkout/route.js:33-152 | the handler answers as `Checkout` states, with the corrected nights: the two rejections, or the session |
| CheckoutRoute.ErrorPrecedence | app/api/checkout/route.js:35-59 | a missing key gives 500 before anything else; an unknown package gives 400 before any amount; a session is built exactly when neither happens |
| CheckoutRoute.LineItemOrder | app/api/checkout/route.js:99-131 | the base item comes first with the base in cents, then the add-on items in order, then the fee item only when the fees are above 0 |
| CheckoutRoute.BaseAmountInCents | app/api/checkout/route.js:79-80 | with whole prices the base item costs 100 × nightly × nights × guests cents |
| CheckoutRoute.MetadataCountsParseBack | app/api/checkout/route.js:144-150 | the metadata counts parse back to the normalised adults, children and nights; missing dates are "" |
| CheckoutRoute.FirstComma | app/api/checkout/route.js:151 | the position of the first comma in a string that has one |
| CheckoutRoute.JoinSplitRoundTrip | app/api/checkout/route.js:151 | for a non-empty list of ids none of which contains a comma, splitting the comma-joined ids gives the ids back (an empty list joins to "", which splits to [""]) |
| CheckoutRoute.MetadataAddOns | app/api/checkout/route.js:151 | for a non-empty list of ids none of which contains a comma, the metadata add-ons split back to the raw input ids, unknown ones included (an id "a,b" comes back as two ids) |
| CheckoutRoute.NaNNightsAsWritten | app/api/checkout/route.js:66-76 | with no usable count and a date that does not parse, the route's nights are NaN; the corrected count is 1 |
| CheckoutRoute.NaNNightsSession | app/api/checkout/route.js:99-131 | with NaN nights the base item costs 0 cents, no fee item follows the add-on items and the metadata nights are "NaN" |
| CheckoutRoute.CorrectedAgreesWhenFinite | app/api/checkout/route.js:66-76 | wherever the route's nights are a number the corrected route answers as the route does |
| PricingDivergence.PerRoomVersusPerGuest | app/api/checkout/route.js:80 | in a mode other than "person" the route's base is guests × the card's, so they differ for two or more guests at a non-zero rate |
| PricingDivergence.PerPersonAgrees | components/shared/Summurycard3.jsx:214-229 | in "person" mode with whole counts the card's base equals the route's |
| PricingDivergence.SuppliedNightsDiverge | app/api/checkout/route.js:66-67 | the route charges a supplied night count even when the dates give another |
| PricingDivergence.NightsAgreeAtMidnight | app/api/checkout/route.js:68-72 | with both dates at midnight, the route's recomputed nights equal the card's |
| PricingDivergence.NightsDifferOffMidnight | app/api/checkout/route.js:71-72 | from midnight to one millisecond past the next midnight the card counts 2 nights and the route 1 |
| PricingDivergence.RouteClampsWhatFormRejects | app/api/checkout/route.js:66-76 | dates out of order fail the card's form, while the route charges 1 night for them |
| PricingDivergence.CardKeysDistinct | components/shared/Summurycard3.jsx:235-239 | the card's add-on list never repeats a key |
| PricingDivergence.RouteChargesRepeats | app/api/checkout/route.js:84-97 | the route charges a repeated id twice and gives it two items |
| PricingDivergence.FeesMatchCardTaxes | app/api/checkout/route.js:27-30 | with a fee rate of 10 or 0.1 the route's fee equals the card's 10% tax |
| PricingDivergence.WholeFees | app/api/checkout/route.js:99 | on a whole subtotal s the fee is (s + 5) / 10 |

## Left out

- Floating point: every finite number is an exact real, so binary rounding (for example `0.1 * 3`) is not modelled. Neither is overflow: a digit string longer than about 308 digits is Infinity in `Number` and `parseInt`, so the card's `num` gives 0 and the route recomputes the nights, while the model reads a finite value.
- `Number(...)` reads only plain decimal notation, signs and `Infinity`. Exponents, hexadecimal, binary and octal forms and the numeric separators are not modelled and count as NaN.
- JsSemantics.ParseInt: a number is read as its integer part. The exponent form that `String` uses for very large or very small numbers is not modelled.
- Objects and arrays are one opaque value that `Number` reads as NaN. Their `toString` is not modelled.
- The route's `addOns` is a list of strings or absent. Elements of other types, which `ADDONS?.[id]` would look up by their string form, are not modelled.
- Dates and ids in the route body are strings or absent. Other types are not modelled.
- BookingQuote.ToLower lower-cases only `A`–`Z`. Unicode case mapping is not modelled.
- BookingQuote.PricingMode: `price.per` is a string, `""` when missing. A truthy value that is not a string (a number, say) makes `.toLowerCase()` throw a TypeError in the card; the model has no such value, so it does not capture that failure.
- Time zones and daylight saving: `setHours(0, 0, 0, 0)` is the start of the UTC day. `new Date(...)` parsing is the parameter `parse`.
- The payment-provider client and session creation, `NextResponse`, environment variables, `req.json()` and the success and cancel URLs are foreign I/O. The model stops at the line items and metadata handed to the provider.
- The `catch` branch that answers 500 "Unable to start checkout" is not modelled. It is reached only through a failure of the payment provider, which is not modelled either.
- Catalog lookups find only the catalog's own keys. Keys inherited from `Object.prototype` (such as "constructor") are not modelled.
- A package without a `name` would print "undefined" in the item name. The model's package names are always strings.
- Every line item is in "usd" with quantity 1. Neither constant is stored per item.
- The metadata `packageId` is kept as given, absent included. What the provider does with an absent value is not modelled.
- The card's UI is not modelled: React state, the modal, the focus trap, the scroll lock, toasts, `money()` formatting and the `onReserve` call.
- The unused date helpers `fromYMD` and `toYMD` are not modelled.
- The card's `adults` and `children` are the numbers the form holds. `z.coerce.number()` on other values is not modelled.
- Zod's message for a count that is not a whole number is taken as "Expected integer, received float".

## Findings

| source | as written | input that shows it | evidently intended | confidence | as-written member | corrected member |
|---|---|---|---|---|---|---|
| app/api/checkout/route.js:66-76 | with no usable `nights`, two present dates of which one does not parse give `n = NaN`. The base item then costs `toCents(NaN) = 0` cents, the fee is NaN so no fee item is pushed, and the metadata nights read "NaN". | body `{ packageId: <known>, checkIn: "not-a-date", checkOut: "2025-06-12" }` | nights fall back to 1 as when a date is missing, so the stay is charged for at least one night | not executed | CheckoutRoute.NaNNightsSession | CheckoutRoute.CorrectedAgreesWhenFinite |
