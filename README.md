# Loan EMI calculator: a verified model of the loan engine and the logging API

This project models the core of a loan EMI (equated monthly instalment) calculator in Dafny:

- **The shared loan engine** (`packages/shared`). This is a zod schema that validates the three loan inputs: principal, rate and months. Beside it is `calculateEMI`, the amortisation formula P·r·x/(x − 1) with x = (1 + r)^N. The package exists in two revisions that disagree:
  - The TypeScript source (`src/index.ts`) reads an `annualRate` and divides it by 1200. It has no guard.
  - The built module (`dist/index.js`) reads a `monthlyRate` and divides it by 100. It falls back to principal/months when the decimal rate or the formula's denominator is (near) zero.

  The model has one exact-real amortisation core (`Amortization`). It has one front end per revision (`SharedSrc`, `SharedDist`), so neither rate convention stands in for the other. `Revisions` relates the two front ends.
- **The in-memory persistence adapter** (`apps/api/src/inMemoryAdapter.ts`): a store of calculation records that is appended to, cleared and read. Ids are `inmem-<length+1>`. The model is the class `InMemoryAdapter.InMemoryStore`, holding a `seq` of records.
- **`logCalculation`** (`apps/api/src/index.ts`), on its in-memory path. It validates the loan fields, then validates the rest of the payload: the currency must be `'ZMW'` and an absent version becomes `'emi-v1'`. It then assembles the document, saves it, and answers `{success: true, id}`. The model is the method `Api.LogCalculation`, which takes the store object.

Supporting modules:

- `Wrappers` holds `Option` and `Result`.
- `Decimal` covers digit strings: the decimal rendering of a natural number, used for the ids, and a decimal grammar for `Number(string)`.
- `Zod` covers the part of zod the code relies on:
  - `z.coerce.number()` with its check chain;
  - `z.object(...).safeParse`, with per-field errors that are collected independently and unknown keys stripped;
  - `z.number()`, `z.string()`, `.optional()` and `z.literal`.
- `LoanSchema` holds the bounds and messages that both revisions share. It is parameterised by the rate key and the rate's title.

Values are exact reals. `Number(v)` coercion follows JavaScript:

- `null` becomes 0, `true` 1, `false` 0 and `''` 0;
- `undefined` and non-numeric strings become NaN, which zod rejects with "Expected number, received nan".

## Model

| member | source | states |
|---|---|---|
| Decimal.NatToStringValue | apps/api/src/inMemoryAdapter.ts:24 | the decimal rendering of n, used in the id template, denotes n |
| Decimal.NatToStringInjective | apps/api/src/inMemoryAdapter.ts:24 | different store lengths render to different digit strings |
| Decimal.ParseNumber | packages/shared/dist/index.js:7-8 | definition of `Number(string)` on the decimal subset (the empty string is 0; otherwise an optional sign and a decimal literal; otherwise NaN). It has no contract of its own: ParseNatToString and the ParseNumber… lemmas state its behaviour |
| Decimal.ParseNatToString | packages/shared/dist/index.js:6-8 | coercing the rendering of a natural number gives back that number |
| Decimal.ParseNumberHundredThousand | packages/shared/src/__tests__/form-integration.test.ts:76-89 | the string '100000' coerces to 100000 |
| Decimal.ParseNumberFraction | packages/shared/src/__tests__/form-integration.test.ts:90-103 | the string '10.5' coerces to 10.5 |
| Decimal.ParseNumberTwelve | packages/shared/src/__tests__/form-integration.test.ts:104-117 | the string '12' coerces to 12 |
| Decimal.ParseNumberNegative | packages/shared/src/__tests__/phase-4-qa.test.ts:192-204 | the string '-10000' coerces to −10000, so it reaches the range checks |
| Decimal.ParseNumberZero | packages/shared/src/__tests__/phase-4-qa.test.ts:192-204 | the string '0' coerces to 0, so it reaches the range checks |
| Decimal.ParseNumberRejects | packages/shared/src/__tests__/form-integration.test.ts:118-147 | the test strings 'abc', 'xyz' and 'invalid' are not numbers (they coerce to NaN); nor are a bare sign '-' or a bare point '.' |
| Zod.ToNumber | packages/shared/dist/index.js:7-8 | definition of `Number(v)`: undefined is NaN, null 0, booleans 0/1, numbers themselves, strings through ParseNumber. It has no contract of its own: CoerceNumberField states what the coercion yields |
| Zod.RunChecksEmptyIff | packages/shared/dist/index.js:16-21 | a check chain reports no message exactly when every check of the chain holds |
| Zod.CoerceNumberField | packages/shared/dist/index.js:6-10 | a coerced field is valid iff Number(v) is a number passing every check, and then it is that number. NaN gives exactly the "Expected number, received nan" message. Otherwise the messages are those of the failing checks, in order |
| Zod.SafeParse | packages/shared/dist/index.js:5-22 | an object parse succeeds iff every field is valid, and then holds exactly the shape's keys with the coerced values. On failure exactly the invalid fields appear, each with its own messages |
| Zod.UnknownKeyIgnored | packages/shared/src/__tests__/form-integration.test.ts:325-338 | adding a key outside the shape changes nothing in the parse |
| Zod.NumberField | apps/api/src/index.ts:28 | `z.number()` accepts exactly numbers, unchanged; an absent value is "Required" |
| Zod.StringField | apps/api/src/index.ts:29 | `z.string()` accepts exactly strings, unchanged; an absent value is "Required" |
| Zod.OptionalStringField | apps/api/src/index.ts:31-33 | `.optional()` accepts undefined as absent and strings as present; everything else fails |
| Zod.LiteralField | apps/api/src/index.ts:30 | `z.literal('ZMW')` accepts exactly the string 'ZMW' |
| LoanSchema.Shape | packages/shared/dist/index.js:5-22 | the object shape: principal with the checks min 1 / max 10 000 000 (the constant PrincipalChecks); the rate key with RateChecks; months with int / min 1 / max 360 (MonthsChecks), in the declared order. ShapeFacts proves its keys are distinct and exactly principal, the rate key and months |
| LoanSchema.RateChecks | packages/shared/dist/index.js:11-15 | the rate's checks, min 0.1 then max 100, with messages titled by revision; RateField states what they accept |
| LoanSchema.PrincipalField | packages/shared/src/index.ts:7-11 | principal is valid iff it coerces to a number in [1, 10 000 000]; otherwise its messages are the min/max texts |
| LoanSchema.RateField | packages/shared/src/index.ts:13-17 | the rate is valid iff it coerces to a number in [0.1, 100]; otherwise it gets "<title> must be greater/less than or equal to …" |
| LoanSchema.MonthsField | packages/shared/src/index.ts:19-24 | months is valid iff it coerces to a whole number in [1, 360]; the messages come in the declared order int, min, max |
| LoanSchema.ErrorsIffRejected | packages/shared/src/index.ts:6-25 | each field's message list is empty exactly when that field is accepted |
| LoanSchema.ExpectedErrorsEntries | packages/shared/src/index.ts:6-25 | a field appears in the error map iff it has messages, under exactly those messages; no other key appears |
| LoanSchema.Parse | packages/shared/src/index.ts:6-25 | the schema succeeds iff all three fields are accepted, returning exactly the coerced values with no rounding; otherwise it returns every field's errors |
| LoanSchema.ParseDependsOnlyOnNumbers | packages/shared/src/index.ts:8-9 | inputs that coerce to the same three numbers get the same verdict and the same errors |
| SharedSrc.SafeParse | packages/shared/src/index.ts:6-25 | the `annualRate` schema: Ok iff principal, annualRate and months are accepted, with the coerced values and within bounds; otherwise the field errors |
| SharedSrc.MonthlyRate | packages/shared/src/index.ts:56 | the monthly decimal rate is annualRate/1200 (r·1200 = annualRate) |
| SharedSrc.CalculateEmi | packages/shared/src/index.ts:52-65 | the formula is undefined (NaN or infinite) exactly when months = 0, the rate is 0, or annualRate = −2400 with an even number of months. Otherwise the result is the level payment that leaves a zero balance |
| SharedSrc.DefinedAndPositiveForAcceptedInput | packages/shared/src/index.ts:56-62 | for every input within the schema's bounds the formula is defined and positive, and equals principal / annuity factor |
| SharedSrc.DocExample | packages/shared/src/index.ts:44-50 | principal 100000, annualRate 12, 12 months gives 8884.88 (within 0.005) |
| SharedDist.SafeParse | packages/shared/dist/index.js:5-22 | the `monthlyRate` schema: Ok iff all three fields are accepted, with the coerced values and within bounds; otherwise the field errors |
| SharedDist.AcceptsWithinBounds | packages/shared/src/__tests__/form-integration.test.ts:60-72 | numbers within the bounds (the boundary values included) are accepted and returned unchanged |
| SharedDist.OnlyPrincipalFails | packages/shared/dist/index.js:6-10 | an out-of-range principal (0, 10000001, …) alone gives exactly one error, on principal, with the min or max text |
| SharedDist.OnlyRateFails | packages/shared/dist/index.js:11-15 | an out-of-range monthlyRate (0, 100.01, …) alone gives exactly one error, on monthlyRate, with the "Monthly rate …" min or max text |
| SharedDist.OnlyMonthsFails | packages/shared/dist/index.js:16-21 | invalid months alone gives exactly one error key, months, with the months messages |
| SharedDist.RejectedMonthsMessages | packages/shared/src/__tests__/validation-schema.test.ts:101-127 | months 0 gets the minimum message; 12.5 gets "Months must be a whole number" |
| SharedDist.StringCoercedLikeNumber | packages/shared/src/__tests__/form-integration.test.ts:76-117 | a numeric string in any of the three fields is parsed exactly like the number it denotes |
| SharedDist.RejectsCoercedNonPositivePrincipal | packages/shared/src/__tests__/phase-4-qa.test.ts:192-204 | '0' and '-10000' as principal, whatever the other fields hold, fail with exactly the principal minimum message after coercion |
| SharedDist.RejectsNullMonths | packages/shared/src/__tests__/phase-4-qa.test.ts:178-190 | null months, whatever the other fields hold, coerce to 0 and fail with exactly the months minimum message |
| SharedDist.RejectsMissingField | packages/shared/src/__tests__/validation-schema.test.ts:157-179 | a missing (undefined) field fails with the NaN message under its own key |
| SharedDist.RejectsNonNumericString | packages/shared/src/__tests__/form-integration.test.ts:118-147 | a non-numeric string fails with the NaN message under its own key |
| SharedDist.ReportsEveryInvalidField | packages/shared/src/__tests__/form-integration.test.ts:260-283 | when all three fields are invalid, all three keys are reported, each with a non-empty message list |
| SharedDist.IgnoresUnknownField | packages/shared/src/__tests__/form-integration.test.ts:325-338 | an extra property does not change the parse; the result holds only the three fields |
| SharedDist.CalculateEmi | packages/shared/dist/index.js:46-59 | the result is the payment that clears the loan, except in the one degenerate case (rate −200% with even months). A zero rate and the degenerate case return principal/months |
| SharedDist.CalculateEmiIsLevelPayment | packages/shared/dist/index.js:52-57 | above −100% the result is principal / annuity factor at monthlyRate/100 |
| SharedDist.PositiveForAcceptedInput | packages/shared/src/__tests__/emi-calculation.test.ts:124-143 | every input within the schema's bounds gives a positive EMI |
| SharedDist.IncreasesWithPrincipal | packages/shared/src/__tests__/emi-calculation.test.ts:146-159 | the EMI strictly increases with principal |
| SharedDist.IncreasesWithRate | packages/shared/src/__tests__/emi-calculation.test.ts:160-173 | with a positive principal the EMI strictly increases with the rate |
| SharedDist.DecreasesWithMonths | packages/shared/src/__tests__/emi-calculation.test.ts:174-186 | with a positive principal the EMI strictly decreases as months grows |
| SharedDist.OneMonth | packages/shared/src/__tests__/emi-calculation.test.ts:53-61 | with one month the EMI is principal·(1 + monthlyRate/100) |
| SharedDist.BenchmarkOneMonth | packages/shared/src/__tests__/emi-calculation.test.ts:53-61 | 100000 at 10/12 % for one month gives 100833.33 (within 0.005) |
| SharedDist.DegenerateFallback | packages/shared/dist/index.js:53-56 | at rate −200% over 2 months the denominator guard returns principal/2, which does not clear the loan |
| SharedDist.BenchmarkOnePercent | packages/shared/src/__tests__/emi-calculation.test.ts:7-16 | 100000 at 1% a month for 12 months gives 8884.88 (within 0.005) |
| SharedDist.BenchmarkOneSixtieth | packages/shared/src/__tests__/phase-4-qa.test.ts:131-143 | 10000 at 20/12 % for 12 months gives 926.35 (within 0.005) |
| SharedDist.DocExampleIsAnnualRate | packages/shared/dist/index.js:38-44 | the doc comment's call (monthlyRate 12, 12 months) gives more than 16143, not 8884.88 |
| Revisions.SchemasAgreeUpToRateKey | packages/shared/dist/index.js:5-22 | the two schemas agree once `annualRate` is renamed to `monthlyRate`: same verdict, same values |
| Revisions.ConventionsAgree | packages/shared/dist/index.js:48 | wherever the source formula is defined, it equals the built formula at monthlyRate = annualRate/12 |
| Amortization.Emi | packages/shared/src/index.ts:59-62 | definition of the closed form P·r·x/(x − 1) with x = (1 + r)^N, defined wherever x ≠ 1. It has no contract of its own: EmiIsTheClearingPayment states what it means |
| Amortization.AccumulationFactorClosedForm | packages/shared/src/index.ts:59-62 | the payments' accumulation factor S satisfies S·r = (1 + r)^N − 1 |
| Amortization.AnnuityTimesGrowth | packages/shared/src/index.ts:59-62 | the annuity factor grown N months is the accumulation factor |
| Amortization.BalanceClosedForm | packages/shared/src/index.ts:59-62 | the balance after N months is the principal grown N months less the payments grown to month N |
| Amortization.ClearsIff | packages/shared/src/index.ts:62 | a level payment clears the loan exactly when payment × annuity factor equals the principal |
| Amortization.DenominatorZeroIff | packages/shared/dist/index.js:53-56 | (1 + r)^N − 1 is zero exactly at r = 0, or at r = −2 with N even |
| Amortization.FormulaDefined | packages/shared/src/index.ts:59-62 | above −100% and away from 0 the denominator never vanishes |
| Amortization.EmiTimesAccumulation | packages/shared/dist/index.js:57 | the formula's payments, accumulated, equal the principal grown N months |
| Amortization.EmiIsTheClearingPayment | packages/shared/dist/index.js:57 | wherever defined, the formula is the one level payment that leaves a zero balance |
| Amortization.FlatIsTheClearingPayment | packages/shared/dist/index.js:49-51 | at zero rate, principal/months is the one payment that clears the loan |
| Amortization.LevelPaymentClears | packages/shared/dist/index.js:52-57 | above −100% principal / annuity factor is the one clearing payment |
| Amortization.AnnuityFactorIncreasesWithTenure | packages/shared/src/__tests__/emi-calculation.test.ts:174-186 | the annuity factor strictly grows with the number of months |
| Amortization.AnnuityFactorDecreasesWithRate | packages/shared/src/__tests__/emi-calculation.test.ts:160-173 | the annuity factor strictly falls as the rate rises |
| Amortization.LevelPaymentPositive | packages/shared/src/__tests__/emi-calculation.test.ts:124-143 | a positive principal gives a positive level payment |
| Amortization.LevelPaymentIncreasesWithPrincipal | packages/shared/src/__tests__/emi-calculation.test.ts:146-159 | the level payment strictly increases with principal |
| Amortization.LevelPaymentIncreasesWithRate | packages/shared/src/__tests__/emi-calculation.test.ts:160-173 | the level payment strictly increases with the rate |
| Amortization.LevelPaymentDecreasesWithTenure | packages/shared/src/__tests__/emi-calculation.test.ts:174-186 | the level payment strictly decreases with the number of months |
| Amortization.EmiAtOnePercentForAYear | packages/shared/src/index.ts:44-50 | the formula at 100000, 1%, 12 months lies in (8884.875, 8884.885) |
| Amortization.EmiAtTwelvePercentForAYear | packages/shared/dist/index.js:38-44 | the formula at 100000, 12%, 12 months lies in (16143, 16144) |
| Amortization.EmiAtOneSixtiethForAYear | packages/shared/src/__tests__/phase-4-qa.test.ts:131-143 | the formula at 10000, 1/60, 12 months lies in (926.345, 926.355) |
| InMemoryAdapter.MakeId | apps/api/src/inMemoryAdapter.ts:24 | definition of the id template `inmem-${n}`. It has no contract of its own: FirstId, MakeIdInjective and IdsDistinct state its properties |
| InMemoryAdapter.FirstId | apps/api/src/inMemoryAdapter.ts:24 | the first id after a clear is "inmem-1" |
| InMemoryAdapter.MakeIdInjective | apps/api/src/inMemoryAdapter.ts:24 | ids made from different lengths differ |
| InMemoryAdapter.Saved | apps/api/src/inMemoryAdapter.ts:23-29 | a save grows the store by exactly one, keeps every earlier record, and appends `{id: inmem-(length+1), createdAt, ...doc}` |
| InMemoryAdapter.SavedIntoEmpty | apps/api/src/inMemoryAdapter.ts:23-29 | saving into an empty store gives the single record "inmem-1" |
| InMemoryAdapter.SavePreservesNumbering | apps/api/src/inMemoryAdapter.ts:24-27 | if record i has id inmem-(i+1) before a save, this still holds after it |
| InMemoryAdapter.IdsDistinct | apps/api/src/inMemoryAdapter.ts:24 | without an intervening clear, stored ids are pairwise distinct |
| InMemoryAdapter.SavingTwiceKeepsBoth | apps/api/src/inMemoryAdapter.ts:23-29 | saving the same document twice (same requestId) stores two records with different ids |
| InMemoryAdapter.InMemoryStore.constructor | apps/api/src/inMemoryAdapter.ts:15 | the store starts empty (and so well numbered) |
| InMemoryAdapter.InMemoryStore.ClearStore | apps/api/src/inMemoryAdapter.ts:17-19 | the store is empty afterwards |
| InMemoryAdapter.InMemoryStore.GetStore | apps/api/src/inMemoryAdapter.ts:21 | returns the store's contents, numbered inmem-1, inmem-2, … |
| InMemoryAdapter.InMemoryStore.SaveCalculation | apps/api/src/inMemoryAdapter.ts:23-29 | returns the id inmem-(old length + 1) and the record it appended; the store becomes the old store plus that record |
| Api.AsWrittenRejectsEveryPayload | apps/api/src/index.ts:20-24 | with the imported `annualRate` schema, every payload is rejected, with the NaN message on annualRate |
| Api.LoanFields | apps/api/src/index.ts:20-24 | the loan fields pass iff principal, monthlyRate and months are accepted, and then hold the coerced values |
| Api.WithDefaultVersion | apps/api/src/index.ts:42 | `version ?? 'emi-v1'`: an undefined or null version becomes 'emi-v1', any other value is kept, and the result is never null or undefined |
| Api.ValidateExtra | apps/api/src/index.ts:27-43 | the remaining fields pass iff monthlyEMI is a number, formattedMonthlyEMI a string, currency 'ZMW', and userId/requestId/version absent or strings. Then the values are carried over; otherwise exactly the failing keys are reported, one message each |
| Api.ExtraErrorsFacts | apps/api/src/index.ts:36-43 | each failing field of the extra parse is reported once, under its own key |
| Api.PersistPayload | apps/api/src/index.ts:46-56 | the persisted document takes principal/monthlyRate/months from the loan parse and the rest from the extra parse |
| Api.Outcome | apps/api/src/index.ts:20-56 | definition of what a call persists or why it fails: the loan parse first, then the extra parse, then the assembled document. It has no contract of its own: OutcomeSucceedsIff, RejectsOtherCurrency and PersistedDocument state its behaviour |
| Api.OutcomeSucceedsIff | apps/api/src/index.ts:20-43 | a call gets past validation exactly when both schemas accept the payload; a payload error implies the loan fields passed |
| Api.RejectsOtherCurrency | apps/api/src/index.ts:30 | any currency but 'ZMW' fails, and is reported under currency once the loan fields pass |
| Api.PersistedDocument | apps/api/src/index.ts:46-56 | the persisted document carries the payload's coerced numbers, its monthlyEMI and formattedMonthlyEMI, currency 'ZMW', the payload's version or 'emi-v1' when absent, and userId/requestId exactly when the payload has them, with the payload's values |
| Api.RoundTripRequestAccepted | packages/shared/src/__tests__/phase-3-trpc.test.ts:19-39 | the round-trip test's payload is accepted and persisted with exactly those figures, currency ZMW and version emi-v1 |
| Api.RoundTripLoanFields | packages/shared/src/__tests__/phase-3-trpc.test.ts:19-23 | 10000 / 20 / 12 pass the loan schema unchanged |
| Api.RoundTripExtra | packages/shared/src/__tests__/phase-3-trpc.test.ts:32-39 | a numeric EMI, a string and 'ZMW', with the rest absent, pass the extra schema and default the version |
| Api.LogCalculation | apps/api/src/index.ts:8-64 | a failed validation returns the errors and leaves the store unchanged. Success appends exactly the persisted document and returns {success: true, id: inmem-(old length + 1)} |
| Api.OneCallIntoClearedStore | packages/shared/src/__tests__/phase-3-trpc.test.ts:29-57 | from a cleared store, one valid call leaves exactly one record, inmem-1, matching the inputs, with currency ZMW |

## Left out

- `apps/api/src/firestoreAdapter.ts`, and the choice of adapter from `API_ADAPTER` (apps/api/src/index.ts:6). The model always takes the in-memory path. The Firestore path is remote I/O in a library that is not shown.
- The clock. `new Date().toISOString()` (apps/api/src/inMemoryAdapter.ts:25) is the `createdAt` parameter of `SaveCalculation` and `LogCalculation`.
- `async`/`Promise`. Each call is modelled as one atomic step.
- `InMemoryAdapter.InMemoryStore.GetStore`: it returns a copy of the records (a value), not the live array. Aliasing through the returned array is not modelled.
- Thrown errors. A thrown `ZodError` becomes an `Err` result holding the flattened field errors (`error.flatten().fieldErrors`). Error codes, paths and the issue objects are not modelled.
- Zod's own code is not part of this model. Its behaviour is written down here as zod v3 behaves: all checks of a chain run, fields are checked independently, unknown keys are stripped, and the default texts are "Expected number, received nan", "Required" and `Invalid literal value, expected "ZMW"`. Type errors under `z.number()`/`z.string()` read "Expected number, received <type>" as in zod v3.
- Values outside the modelled domain. A raw field value is undefined, null, a boolean, a finite number or a string. Objects and arrays are not modelled (`Number([])` is 0 and `Number(['5'])` is 5 in JavaScript). NaN and ±Infinity are not modelled as given values: `Num` holds a finite real, so `z.number()` rejecting a NaN monthlyEMI is not captured.
- IEEE-754 arithmetic. All values are exact reals.
  - `Number.EPSILON` guards become exact-zero tests. `Math.pow` rounding and `toBeCloseTo` tolerances are not modelled; the benchmarks are stated as intervals of width 0.01.
  - Infinity, NaN and −0 as inputs to `calculateEMI` are out of scope.
- `SharedSrc.CalculateEmi`: requires months ≥ 0. A negative month count (which the schema never lets through) is not modelled. Nor is the infinite result of dividing a non-zero numerator by a zero denominator: it is folded into `None` together with NaN.
- `SharedDist.CalculateEmi`: requires months ≥ 1. With 0 months the source divides principal by zero. Months are whole numbers (`int`) in both front ends, as the schema guarantees.
- The `Number(string)` grammar is a subset. It has an optional `+`/`-` sign and decimal digits with an optional fractional part ("12", "12.", ".5"). There is no whitespace trimming, exponent, hex or `Infinity`; such strings count as non-numeric.
- The benchmarks 500000 at 10/12 % over 60 months and 50000 at 2/12 % over 24 months (packages/shared/src/__tests__/phase-4-qa.test.ts:131-143, emi-calculation.test.ts:18-38) are not proved. Their exact rational powers are too large to evaluate by unfolding.
- Currency formatting (`formatCurrency`, `Intl.NumberFormat`), the web app (`apps/web`), its configuration constants, and the UI and e2e tests.
- The JSON round-trip tests (packages/shared/src/__tests__/phase-3-api.test.ts), the performance timings, and the Promise-based concurrency test.

## Findings

| source | as written | input that shows it | evidently intended | confidence | as-written member | corrected member |
|---|---|---|---|---|---|---|
| apps/api/src/index.ts:2 | validates with the `annualRate` schema of `packages/shared/src` but passes `monthlyRate`, so annualRate is always undefined and `parse` always throws. The shared tests are wired the same way: they import `'../index'` (the annualRate revision) yet build `monthlyRate` records. In packages/shared/src/__tests__/phase-3-trpc.test.ts:26 the annual-rate `calculateEMI` therefore returns NaN, which `z.number()` at apps/api/src/index.ts:28 would reject too | any payload, e.g. the round-trip test's {principal: 10000, monthlyRate: 20, months: 12, …} | validate with the `monthlyRate` schema, which the payload, `validated.monthlyRate` and the API test use | high (not executed) | Api.AsWrittenRejectsEveryPayload | Api.LogCalculation |
| packages/shared/dist/index.js:38-44 | the doc comment promises 8884.88 for monthlyRate 12 over 12 months, but this revision reads the rate as monthly (12 % a month) | monthlyRate 12, principal 100000, months 12 gives more than 16143 | monthlyRate 1 (the annual 12 % the example was written for) gives 8884.88 | high (not executed) | SharedDist.DocExampleIsAnnualRate | SharedDist.BenchmarkOnePercent |
