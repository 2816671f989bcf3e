# TumaRide pricing, registration checks and discount rule in Dafny

This project models three small pieces of the TumaRide repository and proves
properties about them.

- **Pricing engine** (`Pricing`, in `pricing.dfy`). A delivery is priced from a
  parcel type, a weight in kg and a distance in km. The catalogue has four
  parcel types. Each has an included weight and a base price in KES. Every kg
  above the included weight costs 40 KES. The distance is charged over six
  bands at marginal rates of 0, 10, 8, 6, 4 and 3 KES per km. The total is
  rounded half up, as `Math.round` does. `calculatePrice` and
  `getPriceBreakdown` walk the bands with the same loop, which breaks early.
  The model writes that loop once, as the method `ChargeDistance`, which both
  operations call. It is proved against a closed-form distance charge: its
  invariants say that the remaining distance is the trip minus the part in
  the bands already walked, and that the charge so far is the closed form of
  that part. `calculatePrice` adds the band charges to its running total
  inside the loop; the model adds the walk's sum once, which gives the same
  exact sum.
- **Registration form check** (`Registration`, in `registration.dfy`).
  `validateForm` runs four checks in a fixed order:
  1. name, email, phone and password are not blank after trimming;
  2. the password equals its confirmation;
  3. the password has at least 6 UTF-16 code units;
  4. the email matches `^[^\s@]+@[^\s@]+\.[^\s@]+$`.

  The first failure decides the alert. The model returns that alert as a
  `Validation` value. `handleRegister` then calls `register` with the trimmed
  name, email and phone and the role `sender`. The password is not part of
  that call. The email pattern is defined as the language of the regular
  expression. A direct check is proved to accept exactly that language.
- **Discount rule** (`Discount`, in `discount.dfy`). `calculate_discount`
  takes the percentage off only when it is at least 20. It works over `real`.

`wrappers.dfy` holds the shared `Option` and `Result` datatypes.

All amounts, weights and distances are `real`.

Two points where the code's behaviour is easy to misread:

- **The first band is 21 km wide.** The band comments in `pricing.ts`
  (lines 11-16) read "0-20km", "21-50km" and so on. But the loop takes
  `rate.max - rate.min + 1` km from each band (lines 41-44), so the free
  first band covers 21 km and the later bands start at 21, 51, 101, 201 and
  501 km. The model follows the loop. As a result, `documents`, 0.5 kg,
  480 km costs 2616; reading the bands as 0-20 km would give 2620. And
  `medium`, 10 kg, 150 km costs 1244, where that reading would give 1250.
- **The two operations fail differently on an unknown key.**
  `calculatePrice` checks the entry and throws "Invalid parcel type"
  (lines 26-27). `getPriceBreakdown` does not check it (lines 61-62): it
  fails when it reads `basePrice` of the missing entry. The model reports
  the first as `InvalidParcelType` and the second as `UndefinedTypeInfo`.

## Model

| member | source | states |
|---|---|---|
| `Pricing.RoundHalfUp` | TumaRide/src/utils/pricing.ts:53 | The result is the integer nearest to the amount, with halves rounded up: `x - 0.5 < r <= x + 0.5`. |
| `Pricing.ExcessWeight` | TumaRide/src/utils/pricing.ts:33 | The excess weight is never negative. It is positive exactly when the weight is above the type's included weight, and then it equals the difference. |
| `Pricing.WeightCharge` | TumaRide/src/utils/pricing.ts:33-34 | `excessWeight * WEIGHT_PENALTY`. It has no contract of its own. `WeightChargeIsPenaltyOnExcess` proves it is 0 at or below the included weight and 40 KES per excess kg above it. `TotalMonotoneInWeight` proves the total never falls as the weight grows. |
| `Pricing.DistanceCharge` | TumaRide/src/utils/pricing.ts:10-17 | The closed-form distance charge is never negative. It is positive exactly for trips longer than 21 km. |
| `Pricing.Quote` | TumaRide/src/utils/pricing.ts:84-96 | The breakdown carries the type's base price and non-negative charges. Its total is the rounded sum of its parts. The base line is always present. The weight line appears exactly when the weight exceeds the allowance, and the distance line exactly when the trip is longer than 21 km. |
| `Pricing.Consumed` | TumaRide/src/utils/pricing.ts:41-44 | The widths `max - min + 1` of the bands before band `i` add up to exactly band `i`'s `min`. |
| `Pricing.ChargeThroughBand` | TumaRide/src/utils/pricing.ts:38-51 | Take a loop pass at a band that the trip extends past. The guard `distance > rate.min` holds, so no band is skipped. The remaining distance becomes the part of the trip beyond that band. The charge moves from the closed form at the band's start to the closed form at its end. |
| `Pricing.WalkComplete` | TumaRide/src/utils/pricing.ts:38-39 | When the walk stops, because no distance remains or every band has been taken, the charge so far is the charge for the whole trip. |
| `Pricing.ChargeDistance` | TumaRide/src/utils/pricing.ts:37-51 | The band walk adds up to the closed-form distance charge for every distance, including zero and negative ones. Its loop invariants keep the remaining distance equal to the trip minus the part lying in the bands already walked, and the charge so far equal to the closed form of that part. |
| `Pricing.CalculatePrice` | TumaRide/src/utils/pricing.ts:21-54 | An unknown key gives the error 'Invalid parcel type' and never a default price. A known key gives the total of the breakdown: base price plus `40 × max(0, weight − maxWeight)` plus the closed-form distance charge, rounded half up. |
| `Pricing.GetPriceBreakdown` | TumaRide/src/utils/pricing.ts:56-97 | An unknown key fails on the undefined entry. A known key gives the full breakdown of `Quote`: base price, weight charge, distance charge, rounded total and which explanation lines are present. |
| `Pricing.PriceAgreesWithBreakdown` | TumaRide/src/utils/pricing.ts:21-97 | `calculatePrice` and `getPriceBreakdown` fail on the same keys. Where they succeed, the price equals the breakdown's total. |
| `Pricing.CatalogIsParcelTypes` | TumaRide/src/utils/pricing.ts:3-8 | The catalogue's keys are exactly the four parcel types. Every entry has a positive included weight and a positive base price. |
| `Pricing.DistanceRatesContiguous` | TumaRide/src/utils/pricing.ts:10-17 | The bands start at 0. Each finite band ends one km before the next one starts. Only the last band is open-ended. No rate is negative. |
| `Pricing.WeightChargeIsPenaltyOnExcess` | TumaRide/src/utils/pricing.ts:19-34 | The weight charge is 0 at or below the included weight, including zero and negative weights. Above it, the charge is 40 KES per kg of excess. |
| `Pricing.DistanceChargeMonotone` | TumaRide/src/utils/pricing.ts:37-51 | A longer trip never has a lower distance charge. The charge grows by at most 10 KES per km, so it does not jump at a band boundary. |
| `Pricing.RoundHalfUpMonotone` | TumaRide/src/utils/pricing.ts:53 | Rounding preserves order. |
| `Pricing.TotalMonotoneInDistance` | TumaRide/src/utils/pricing.ts:21-54 | With the other inputs fixed, the rounded total never decreases as the distance grows. |
| `Pricing.TotalMonotoneInWeight` | TumaRide/src/utils/pricing.ts:30-53 | With the other inputs fixed, the rounded total never decreases as the weight grows. |
| `Pricing.FreeAllowance` | TumaRide/src/utils/pricing.ts:10-11 | Within the included weight and the first 21 km, the total is the base price. |
| `Pricing.WorkedExamples` | TumaRide/src/utils/pricing.ts:3-53 | Sample totals: small/3/10 → 200, small/7/10 → 280, documents/0.5/480 → 2616, medium/10/150 → 1244, large/30/0 → 350. |
| `Registration.IsWhiteSpace` | TumaRide/src/screens/auth/RegisterScreen.tsx:45 | The ECMAScript white-space and line-terminator characters. `trim` strips exactly these, and the class `\s` at line 60 matches exactly these. It is a definition with no contract. `TrimStart`, `TrimEnd` and `Trim` are specified in terms of it. |
| `Registration.TrimStart` | TumaRide/src/screens/auth/RegisterScreen.tsx:45 | The result is a suffix of the input. The part removed is all white space. The result is empty or starts with a character that is not white space. |
| `Registration.TrimEnd` | TumaRide/src/screens/auth/RegisterScreen.tsx:45 | The result is a prefix of the input. The part removed is all white space. The result is empty or ends with a character that is not white space. |
| `Registration.Trim` | TumaRide/src/screens/auth/RegisterScreen.tsx:45 | `trim()` gives the empty string exactly for a string of white space only. Otherwise its first and last characters are not white space. Together with `TrimKeepsMiddle`, this fixes the result. |
| `Registration.TrimCutsBlankEnds` | TumaRide/src/screens/auth/RegisterScreen.tsx:45 | Cutting white space from the front of a string and then from the back of the rest leaves a slice of the string. Only white space lies before and after that slice. |
| `Registration.TrimKeepsMiddle` | TumaRide/src/screens/auth/RegisterScreen.tsx:45 | `trim()` removes white space at both ends and nothing else. Its result is a contiguous slice of the input, with only white space before and after it. |
| `Registration.Utf16Length` | TumaRide/src/screens/auth/RegisterScreen.tsx:55 | `length` counts UTF-16 code units. That is between one and two per character. |
| `Registration.MatchesEmailPattern` | TumaRide/src/screens/auth/RegisterScreen.tsx:60-61 | The language of `^[^\s@]+@[^\s@]+\.[^\s@]+$`: the string splits as three non-empty runs without white space or `@`, joined by `@` and `.`. This is a definition. `EmailCheckMatchesPattern` relates it to `IsValidEmail`. |
| `Registration.IsValidEmail` | TumaRide/src/screens/auth/RegisterScreen.tsx:60-64 | `emailRegex.test(email)`, decided directly. `EmailCheckSound` and `EmailCheckComplete` prove that it accepts exactly `MatchesEmailPattern`. `SampleEmailAccepted`, `TrailingDotRejected` and `EmailTestedUntrimmed` apply it to concrete and general cases. |
| `Registration.EmailCheckSound` | TumaRide/src/screens/auth/RegisterScreen.tsx:60-61 | Every email the direct check accepts matches the pattern: the first `@` and a `.` inside the domain split it into three non-empty runs without white space or `@`. |
| `Registration.EmailCheckComplete` | TumaRide/src/screens/auth/RegisterScreen.tsx:60-61 | Every email the pattern matches passes the direct check: it has no white space, its only `@` is its first, and its `.` is neither the first nor the last character after the `@`. |
| `Registration.EmailCheckMatchesPattern` | TumaRide/src/screens/auth/RegisterScreen.tsx:60-61 | An email matches the pattern exactly when all of these hold: it has no white space; it has exactly one `@`, with something before it; and after the `@` there is a `.` that is neither the first nor the last character. Both directions are proved. |
| `Registration.ValidateForm` | TumaRide/src/screens/auth/RegisterScreen.tsx:42-67 | The four checks in the source's order, the first failure deciding the alert. `FirstFailingCheckDecides` and `ValidIffAllChecksPass` prove, against independent predicates, when each alert is raised and when the form is accepted. |
| `Registration.AlertMessage` | TumaRide/src/screens/auth/RegisterScreen.tsx:46-62 | The alert text for each error: the strings at lines 46, 51, 56 and 62, word for word. It is a table with no contract. |
| `Registration.FirstFailingCheckDecides` | TumaRide/src/screens/auth/RegisterScreen.tsx:42-67 | Each of the four errors is reported exactly when every earlier check passes and its own check fails. The missing-field check looks at name, email, phone and password after trimming. Password equality, password length and the email test all use the untrimmed strings. |
| `Registration.ValidIffAllChecksPass` | TumaRide/src/screens/auth/RegisterScreen.tsx:42-67 | The form is accepted exactly when all four checks pass. |
| `Registration.MissingFieldIgnoresConfirmation` | TumaRide/src/screens/auth/RegisterScreen.tsx:45-48 | Changing the confirmation field never changes whether a required field is reported missing. |
| `Registration.TrimNoWhiteSpace` | TumaRide/src/screens/auth/RegisterScreen.tsx:77 | Trimming a string without white space returns it unchanged. |
| `Registration.TrimIdempotent` | TumaRide/src/screens/auth/RegisterScreen.tsx:76-78 | Trimming twice gives the same result as trimming once. |
| `Registration.HandleRegister` | TumaRide/src/screens/auth/RegisterScreen.tsx:69-80 | The `register` call `handleRegister` makes, or none. `RegisterPayload` proves it is made exactly for a valid form and gives what it receives. |
| `Registration.RegisterPayload` | TumaRide/src/screens/auth/RegisterScreen.tsx:69-80 | `register` is called exactly when validation succeeds. It then receives the trimmed name and phone, neither of them empty. It receives the email as typed, because a valid email has nothing to trim. The role is `sender`. |
| `Registration.MismatchBeforeShortPassword` | TumaRide/src/screens/auth/RegisterScreen.tsx:50-58 | For every form with no blank required field, a password that is too short and also differs from its confirmation gets the mismatch alert, not the length alert. |
| `Registration.BlankConfirmationIsMismatch` | TumaRide/src/screens/auth/RegisterScreen.tsx:45-53 | For every form with no blank required field, a blank confirmation, empty or white space only, is reported as a mismatch, not as a missing field. |
| `Registration.SampleEmailAccepted` | TumaRide/src/screens/auth/RegisterScreen.tsx:60-64 | `amina@mail.co` passes the email test. |
| `Registration.TrailingDotRejected` | TumaRide/src/screens/auth/RegisterScreen.tsx:60-64 | `amina@mail.` fails the email test. |
| `Registration.PaddedPasswordAccepted` | TumaRide/src/screens/auth/RegisterScreen.tsx:55-58 | With the other fields valid, the password `" abcd "` and a matching confirmation are accepted: its padding counts towards the six characters, because the length check reads the untrimmed password. |
| `Registration.EmailTestedUntrimmed` | TumaRide/src/screens/auth/RegisterScreen.tsx:60-64 | For every form that passes the first three checks, an email with white space anywhere in it fails the email test. This includes leading or trailing padding that trimming would remove. |
| `Discount.CalculateDiscount` | 8-discount.py:3-9 | Below 20 percent the price is returned unchanged. From 20 percent up, the result is the price times the fraction kept, `1 − pct/100`. |
| `Discount.ThresholdIsInclusive` | 8-discount.py:4-9 | Exactly 20 percent gives 0.8 × price. Any percentage below 20 leaves the price unchanged. |
| `Discount.FullDiscountIsFree` | 8-discount.py:5-6 | A 100 percent discount gives 0. |
| `Discount.DiscountWithinBounds` | 8-discount.py:5-7 | For a non-negative price and a discount between 20 and 100 percent, the result lies in `[0, price]`. A larger discount never gives a higher price. |

## Left out

- `getEstimatedDistance` (haversine distance): it uses floating-point trigonometry. The distance is an input of the model.
- The text of the explanation lines (JavaScript number-to-string formatting). Each line is modelled by the figures it shows, present or `null`.
- IEEE-754 behaviour: rounding errors, the order of floating-point summation, `NaN`, `Infinity` as an input, and `-0`. All amounts are exact `real` values. So `calculatePrice` and `getPriceBreakdown` agree exactly, although they add the parts in different orders. Python float rounding in `calculate_discount` is left out for the same reason.
- Inherited JavaScript object keys such as `"toString"` or `"constructor"`. In the source these find a value on `PARCEL_TYPES` and produce `NaN` instead of an error. The model's catalogue holds only the four own keys.
- The caller's handling of input in `CreateParcelScreen.tsx`: `parseFloat` of the weight text, and pricing only once a type is chosen and the weight is positive. The engine itself accepts any weight, so the model has no precondition on it.
- React rendering, `Alert` pop-ups, navigation, `setIsLoading` and the asynchronous `register` call, including its failure alert. The model stops at the value passed to `register`.
- The regular-expression engine. The pattern runs without the `u` flag, over UTF-16 code units. The model reads it over Unicode characters. For every string a Dafny `string` can hold, both accept the same strings, because a surrogate pair matches `[^\s@]+` exactly as the one character it encodes does. A JavaScript string can also hold a lone surrogate, which a Dafny `char` cannot represent. Such a code unit matches `[^\s@]` and counts 1 in `.length`. Strings containing one are outside the model, for the email test, for `trim` and for the password length alike.
- The `input()` and `print` lines of `8-discount.py`.
