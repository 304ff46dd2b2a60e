# SEPA / SWIFT fee simulator — verified model of the fee engine

This project models the logic of a browser-based fee simulator for outgoing SEPA and SWIFT
payments of Montenegrin banks, and proves properties of that model in Dafny.

- **SWIFT fee engine** (`swift_fee.dfy`, module `SwiftFeeCalculator`): the rule and profile
  records, the tier searches, `calculate`, the override for "Universal Capital Bank AD" OUR
  transfers (`specialCalculation`), and `calcSwiftFeeDynamic`. That covers tier selection, the
  fixed or percentage fee, the clamp, the flat settlement surcharge, and rounding to cents.
  The three step-by-step functions are methods (`Calculate`, `SpecialCalculation`,
  `CalcSwiftFeeDynamic`) that update their locals as the source does. Each is proved equal to a
  specification function (`CalculatedFee`, `SpecialOutcome`, `SwiftFee`), and the lemmas are
  stated about those functions.
- **Simulator helpers** (`simulator.dfy`, module `Simulator`): the pure computations inside the
  React component:
  - the SEPA fee;
  - the destination-name rewrite (`toAccCountry`);
  - the resident / non-resident table pick;
  - the offered and default settlement options;
  - the settlement speed each SWIFT memo passes to the engine;
  - what the cost overview shows.
- **Bank store** (`bank_loader.dfy`, module `BankLoader`): a class `BankStore` holding the two
  datasets (individuals "fizicka", businesses "pravna"). Its constructor runs the
  classification loop over the bundled modules, replacing a dataset in place for each module.
  The lookups `GetAllBanks` and `GetBankByName` read the store.
- `money.dfy`: `round2` over exact reals, and what "a whole number of cents" means.
  `wrappers.dfy`: the `Option` type.

Representation choices:
- Every numeric or string property of a JSON rule is a `Field`: `Absent`, `Null` or `Present(v)`.
  The engine treats a missing `maxAmount` differently from a `null` one.
- An option's entry in a transfer-out table is a rule array, `Nullish` (missing or `null`), or
  `NonArray` (e.g. a `{ notice }` object).
- The table's `special` record is held in its own field, with its keys in `Object.keys` order.
- The engine's answer is `Priced`, `NoPricing` (`null`) or `Thrown`. The override calls `find`
  on the SHA and OUR entries, and a non-array entry such as `{ notice }` makes that call raise
  a TypeError.
- A settlement speed is passed as `Option<string>`. It counts as given when it is truthy, i.e.
  present and non-empty.
- Amounts are exact reals.

At these edges the model follows the code as written:
- The fallback tier search uses an **inclusive** minimum (`>=`, src/swiftFeeCalculator.ts:146).
  Only the override uses an exclusive minimum (src/swiftFeeCalculator.ts:69, 76).
- The SEPA promotion needs `amount <= 200` (src/SepaSwiftSimulator.tsx:8). An amount of 250 on
  the first transfer of the day pays 1.99 online (`Simulator.PromotionEndsAt200`).
- A rule whose `maxAmount` is missing is never chosen by the fallback search. Only a `null`
  maximum means unbounded (src/swiftFeeCalculator.ts:145).

## Model

| member | source | states |
|---|---|---|
| `Money.Round2` | src/swiftFeeCalculator.ts:32-34 | the result is a whole number of cents and lies within half a cent of the input, rounding half-way cases up |
| `Money.Round2OfCents` | src/swiftFeeCalculator.ts:32-34 | rounding an amount already in whole cents leaves it unchanged |
| `Money.Round2AddCents` | src/swiftFeeCalculator.ts:32-34 | adding a whole number of cents before rounding equals adding it after rounding |
| `Money.CentsAdd` | src/swiftFeeCalculator.ts:177-178 | sums of whole-cent amounts are whole cents |
| `SwiftFeeCalculator.RulesFor` | src/swiftFeeCalculator.ts:118-124 | a rule list exists exactly when the option's entry is an array, and it is that entry's own rules |
| `SwiftFeeCalculator.FirstMatch` | src/swiftFeeCalculator.ts:143-148 | `find`: the returned position satisfies the search and no earlier rule does; None means no rule does |
| `SwiftFeeCalculator.SelectTier` | src/swiftFeeCalculator.ts:127-151 | with settlement tags and a given speed, the first in-range (inclusive, open when non-numeric bounds) rule with that tag; otherwise the first rule in the fallback band; None iff neither exists; a rule with a missing `maxAmount` is only ever chosen through its settlement tag |
| `SwiftFeeCalculator.CalculatedFee` | src/swiftFeeCalculator.ts:43-52 | the fee of `calculate` is never below `minFee` |
| `SwiftFeeCalculator.Calculate` | src/swiftFeeCalculator.ts:36-53 | percentage gives max(amount·fee, minFee) and fixed gives max(fee, minFee), both ignoring `additionalFee`; other types use amount·fee + additionalFee only when `additionalFee` is non-zero; always at least `minFee` |
| `SwiftFeeCalculator.StrictFind` | src/swiftFeeCalculator.ts:66-78 | the override's search returns the FIRST rule of the list with `minAmount < amount <= maxAmount` (null max unbounded), and none iff the list is missing or no rule matches |
| `SwiftFeeCalculator.SpecialCalculation` | src/swiftFeeCalculator.ts:55-104 | never `null`; throws exactly when the SHA or OUR entry is a non-array value; zero fee and total = amount unless both tiers resolve; total is always amount + fee, unrounded |
| `SwiftFeeCalculator.BaseFee` | src/swiftFeeCalculator.ts:154-163 | zero unless `feeValue` and `additionalFee` are numeric; then `additionalFee` plus `feeValue` for 'fixed', plus amount·`feeValue` for every other type |
| `SwiftFeeCalculator.Clamp` | src/swiftFeeCalculator.ts:164-167 | only with all of feeValue, additionalFee, minFee, maxFee numeric: a positive maxFee caps first, else minFee floors, else unchanged |
| `SwiftFeeCalculator.ClampWithinBounds` | src/swiftFeeCalculator.ts:164-167 | with 0 < maxFee and minFee <= maxFee, the clamped fee lies in [minFee, maxFee] |
| `SwiftFeeCalculator.SpecialValue` | src/swiftFeeCalculator.ts:172-174 | the value stored under the first entry for that speed (a number, or none when not numeric); a speed absent from the record has none |
| `SwiftFeeCalculator.TierFee` | src/swiftFeeCalculator.ts:154-167 | the chosen tier's fee, computed step by step, equals the clamp of the base fee |
| `SwiftFeeCalculator.SurchargeFor` | src/swiftFeeCalculator.ts:172-175 | the surcharge is added exactly when no rule carries a settlement tag, the speed is non-empty, and `special[speed]` is numeric |
| `SwiftFeeCalculator.SwiftFeeContract` | src/swiftFeeCalculator.ts:118-178 | override OUR never yields `null`; everything else never throws, yields `null` when the entry is not an array or no tier matches, and otherwise gives a fee and total in whole cents with total = round2(amount + fee) |
| `SwiftFeeCalculator.CalcSwiftFeeDynamic` | src/swiftFeeCalculator.ts:106-180 | the step-by-step engine: the override result for the named bank's OUR (checked before the array guard); `null` without a rule array or a tier; whole-cent fee and total otherwise; equal to `SwiftFee` |
| `SwiftFeeCalculator.NoRuleArrayNoPricing` | src/swiftFeeCalculator.ts:118-124 | outside the override, an option whose entry is not a rule array is priced `null` |
| `SwiftFeeCalculator.OverrideWithoutOurRules` | src/swiftFeeCalculator.ts:119-122 | the named bank's OUR price exists even when OUR has no rules: a zero fee on the plain amount |
| `SwiftFeeCalculator.OverrideFeeIsSum` | src/swiftFeeCalculator.ts:84-103 | when both tiers resolve, the override fee is the unrounded sum of the two `calculate` results, at least the sum of their minFees, and total = amount + fee |
| `SwiftFeeCalculator.SurchargeShiftsFee` | src/swiftFeeCalculator.ts:170-178 | with untagged rules, choosing a speed with whole-cent surcharge s raises fee and total by exactly s over the request without a speed, and leaves whether a price exists unchanged |
| `SwiftFeeCalculator.TotalIsAmountPlusFee` | src/swiftFeeCalculator.ts:177-178 | for a whole-cent amount, every price found has total exactly amount + fee |
| `SwiftFeeCalculator.BandAsymmetryAtMinimum` | src/swiftFeeCalculator.ts:143-148 | an amount equal to a numeric minimum (null max) is inside the fallback band and outside the override's band |
| `SwiftFeeCalculator.FixedTierExample` | src/swiftFeeCalculator.ts:154-179 | a fixed tier 0..1000 with fee 2 and additional fee 0 prices 500 at 2.00, total 502.00 |
| `BankLoader.ClassOf` | src/bankLoader.ts:21-26 | a path ending with "bank_profiles_pravna.json" selects the business dataset; every other path selects individuals |
| `BankLoader.LoadedIsLastWriter` | src/bankLoader.ts:19-27 | a dataset is the data of the last module classified to it (replaced, not appended) |
| `BankLoader.LoadedEmptyWithoutWriter` | src/bankLoader.ts:13-27 | a dataset no module is classified to stays empty |
| `BankLoader.BankStore.constructor` | src/bankLoader.ts:13-27 | both datasets start empty and the loop leaves each equal to `Loaded` of the module list (a non-array export counts as an empty list) |
| `BankLoader.BankStore.GetAllBanks` | src/bankLoader.ts:29-31 | the business dataset for "pravna", the individuals' dataset otherwise and by default |
| `BankLoader.FirstNamed` | src/bankLoader.ts:33-35 | the position of the first bank with exactly that name; None iff no bank has it |
| `BankLoader.BankStore.GetBankByName` | src/bankLoader.ts:33-35 | the first bank of the dataset with exactly that name; None iff no bank there has it |
| `Simulator.CalcSepaFee` | src/SepaSwiftSimulator.tsx:7-11 | 0.02 whenever first of day and amount <= 200, on either channel; otherwise online 1.99 up to 20000 and 25 above, counter 3.99 and 50 |
| `Simulator.SepaFeeMonotone` | src/SepaSwiftSimulator.tsx:7-11 | a larger amount never pays a smaller SEPA fee |
| `Simulator.CounterNotCheaper` | src/SepaSwiftSimulator.tsx:9-10 | the counter never costs less than online banking |
| `Simulator.PromotionEndsAt200` | src/SepaSwiftSimulator.tsx:8 | 250 on the first transfer of the day pays 1.99 online; 200 pays 0.02 |
| `Simulator.SepaTotal` | src/SepaSwiftSimulator.tsx:323 | the SEPA total exceeds the amount by the SEPA fee, by 0.02 to 50 |
| `Simulator.TrimStart` | src/SepaSwiftSimulator.tsx:16 | removes only leading white space, and stops at the first other character |
| `Simulator.TrimEnd` | src/SepaSwiftSimulator.tsx:16 | removes only trailing white space, and stops at the last other character |
| `Simulator.Trim` | src/SepaSwiftSimulator.tsx:16 | neither end of the trimmed string is white space |
| `Simulator.TrimOfTrimmed` | src/SepaSwiftSimulator.tsx:16 | a string with no white space at either end is its own trim |
| `Simulator.ToAccCountry` | src/SepaSwiftSimulator.tsx:15-19 | a trimmed name of fewer than 2 characters is returned as is; otherwise same length, same prefix, last character 'u' |
| `Simulator.ToAccCountryIdempotent` | src/SepaSwiftSimulator.tsx:15-19 | rewriting an already rewritten name changes nothing |
| `Simulator.EffectiveTransferOut` | src/SepaSwiftSimulator.tsx:54 | the chosen residency's sub-profile table whenever that sub-profile has one; otherwise the top-level table; no table iff neither has one |
| `Simulator.OtherResidencyIgnored` | src/SepaSwiftSimulator.tsx:54 | only the chosen residency's sub-profile is read; changing the other one changes nothing |
| `Simulator.TopLevelWithoutSubTables` | src/SepaSwiftSimulator.tsx:54 | a bank whose sub-profiles hold no table is priced from its top-level table for either residency |
| `Simulator.SelectedProfile` | src/SepaSwiftSimulator.tsx:64-69 | no profile iff no bank has the chosen name; otherwise the first bank with that name, reduced to its name and its `EffectiveTransferOut` table |
| `Simulator.SpecialKeys` | src/SepaSwiftSimulator.tsx:103 | the keys of the `special` record in order, none without one |
| `Simulator.Keep` | src/SepaSwiftSimulator.tsx:104 | keeps exactly the candidates that are keys; keeps the list unchanged when all are keys |
| `Simulator.Drop` | src/SepaSwiftSimulator.tsx:105 | keeps exactly the keys that are not named speeds; keeps the list unchanged when none is |
| `Simulator.KeepAppend` | src/SepaSwiftSimulator.tsx:104 | `filter` keeps order: filtering a concatenation concatenates the filtered parts |
| `Simulator.DropAppend` | src/SepaSwiftSimulator.tsx:105 | the custom keys keep their key order: dropping from a concatenation concatenates the parts |
| `Simulator.CanonicalOrder` | src/SepaSwiftSimulator.tsx:104 | the named speeds present are listed once each, in the order T+0, T+1, T+2 |
| `Simulator.SettlementOptions` | src/SepaSwiftSimulator.tsx:103-107 | empty iff no keys; with T+0, T+1, T+2 all present, those three then the custom keys, without "Standard"; otherwise "Standard", the present named speeds in canonical order, then the custom keys; every key is offered |
| `Simulator.DefaultSettlement` | src/SepaSwiftSimulator.tsx:56-58 | "T+2" iff all three named speeds are keys, otherwise "Standard" |
| `Simulator.DefaultIsOffered` | src/SepaSwiftSimulator.tsx:56-58 | whenever any option is offered, the default selection is among them |
| `Simulator.SpeedFor` | src/SepaSwiftSimulator.tsx:70-91 | SHA passes the selection unless there is no `special` record or "Standard" is selected; OUR and BEN pass none |
| `Simulator.DefaultSpeed` | src/SepaSwiftSimulator.tsx:56-70 | under the default selection the SHA speed is "T+2" iff all three named speeds exist, else none |
| `Simulator.SwiftQuote` | src/SepaSwiftSimulator.tsx:63-92 | no bank with the chosen name gives `null`; with a bank, SHA is the engine's price of the selected profile at the speed `SpeedFor` derives, and OUR and BEN are priced with no speed |
| `Simulator.ShaQuoteNeverThrows` | src/SepaSwiftSimulator.tsx:63-72 | the SHA memo never throws |
| `Simulator.Shown` | src/SepaSwiftSimulator.tsx:276 | a `null` result is shown as fee 0 and total = amount; a price is shown as is |
| `Simulator.ShownShaTotal` | src/SepaSwiftSimulator.tsx:276 | for a whole-cent amount, the SHA total shown is exactly amount + fee shown |

## Left out

- React components, hooks, state, JSX and rendering (`Header`, `Field` and the rest). Only the
  pure computations inside the hooks are modelled. The bank-name reset of the first effect
  (src/SepaSwiftSimulator.tsx:42-47) is UI state and is not modelled.
- `Intl.NumberFormat` currency formatting: a foreign library call.
- Parsing the amount text with a regular expression and `Number()`. The amount is taken as a
  given real.
- `import.meta.glob` bundler loading. The modules are an input sequence of (path, default
  export) pairs in `Object.entries` order.
- IEEE-754 behaviour: amounts are exact reals, and `round2` is floor(100·n + 0.5) / 100. NaN
  and infinities are not modelled, so the truthiness of `additionalFee` is "non-zero".
- JSON values of an unexpected type in a rule's numeric or string fields, such as a string
  where a number is declared, are not modelled. A field is missing, `null`, or of its declared
  type. A `special` value that is not a number is modelled as "no surcharge".
- `Object.keys` puts integer-like keys first. The model takes the key order of the `special`
  record as given. A `special` record held as a sequence may repeat a speed, which a JSON object
  cannot (`JSON.parse` keeps the last value, at the key's first position); `SpecialValue` takes
  the first entry, so the model agrees with the program only on records without repeats.
- The `special` key of a transfer-out table is held apart from the option entries. A table
  whose "special" key holds a rule array is not representable.
- tailwind.config.js: styling only, with no logic.
- Simulator.Trim: states only that neither end of the result is white space. `TrimStart` and
  `TrimEnd` state which characters were removed.
- Simulator.ToAccCountry: counts Unicode scalar values, not UTF-16 code units as `length` and
  `slice(0, -1)` do. The two differ only for names with characters outside the Basic
  Multilingual Plane (for "Ab😀" the program gives "Ab\uD83Du", the model "Abu"). The country
  picker (src/SepaSwiftSimulator.tsx:151) offers ten country names, all in the Basic Multilingual Plane, so the difference
  never shows in the program. White space is unaffected: every white-space character is in
  that plane.
