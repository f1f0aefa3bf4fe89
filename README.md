# Korean capital-gains tax calculator — a Dafny model

This project models the calculation core of an MCP server that computes the Korean capital-gains
tax (양도소득세) on the sale of real estate. One calculation request carries four sections:
- the property: type, acquisition price and date, city and district, whether it lies in an adjustment-target area, floor areas;
- the transaction: transfer price and date, and five optional necessary expenses;
- the owner: household type, optional residence period, rental period;
- optional calculation options.

The calculator first validates the whole request. A request with any error fails with the code
`VALIDATION_FAILED`. Otherwise it runs these stages:
1. the capital gain (transfer price less acquisition price and expenses);
2. the one-household-one-house exemption, which is full up to 1,200,000,000 won and proportional above it;
3. the long-term holding deduction, which uses a higher band rate for a resident single-house household;
4. the basic deduction of 2,500,000 won;
5. the final rate: a short-term heavy rate, or the marginal rate plus a multiple-house surcharge, capped at 70%;
6. the tax itself.

The result carries every amount, the exemption records and an ordered trace of the steps.

Modules, one per file:
- `Wrappers` (`wrappers.dfy`): `Option`.
- `Constants` (`constants.dfy`): the statutory tables and error codes, with lemmas on the tables' shape.
- `Types` (`types.dfy`): the records that flow through a calculation.
- `DateUtils` (`date_utils.dfy`): `YYYY-MM-DD` strings. A string is parsed the way the JavaScript engine parses it, including its day rollover, and invalid strings are `NaN` = `None`. Also whole years and days between dates, the strict comparisons, and the order of date strings.
- `TaxRates` (`tax_rates.dfy`): the progressive tax and the rate lookups.
- `Validators` (`validators.dfy`): the four section validators and their concatenation.
- `BaseCalculator` (`base_calculator.dfy`): the calculator.
- `Scenarios` (`scenarios.dfy`): the calculator's unit-test inputs, worked out to the won.

How the model is built:
- The source's loops are methods, each proved against a specification function. These are the bracket loop of the progressive tax, the two table searches, the expense-field loop of the transaction validator, and the step-by-step construction of the trace in `performCalculation`.
- The properties are lemmas on those functions.
- Amounts are whole won. Rates are whole percent.
- The progressive tax is computed exactly in hundredths of a won.

The model keeps the calculator's behaviour at a tax rate of 40% or more exactly as written. Such a rate
triggers a flat multiply of the base, and that includes the ordinary top brackets (40/42/45%) when no
surcharge applies. So at a taxable base of 300,000,000 won the tax is 94,060,000. One won more gives
a tax of 120,000,000. `BaseCalculator.FlatRateJumpAtThreeHundredMillion` states this jump.

## Model

| member | source | states |
|---|---|---|
| Constants.BasicTaxRatesWellFormed | src/utils/constants.ts:17-26 | The bracket table starts at 0. Each bounded bracket ends where the next begins, and only the last is unbounded. Rates rise strictly from 6% to 45%. |
| Constants.DeductionBandsWellFormed | src/utils/constants.ts:45-55 | Nine one-year deduction bands run from 3 years, and the last is open-ended. Each band has a residence rate at least its general rate, and both rates rise strictly from band to band. |
| Types.ExpenseEntries | src/utils/validators.ts:159-166 | The validator visits exactly five expense fields. |
| Types.ExpenseEntriesCoverEveryKind | src/utils/validators.ts:159-169 | Every expense kind appears exactly once, at its position in the field list, with its own amount. |
| DateUtils.Normalize | src/utils/date-utils.ts:70-78 | The engine's rollover keeps the year and yields a calendar date. It leaves a calendar date unchanged. A day past the month's end moves to day 1..3 of the next month. |
| DateUtils.ParseDate | src/utils/date-utils.ts:70-78 | A string parses exactly when `isValidDateFormat` accepts it. The result is then a calendar date with a four-digit year. |
| DateUtils.FormatThenRead | src/utils/date-utils.ts:70-78 | Every four-digit-year date with month 1..12 and day 1..31 renders to a string the format check accepts, and that string reads back as the same fields. |
| DateUtils.ReadThenFormat | src/utils/date-utils.ts:70-78 | Every accepted string is the zero-padded rendering of the fields written in it. |
| DateUtils.ParsesAs | src/utils/date-utils.ts:70-78 | The rendering of a calendar date parses as that date. |
| DateUtils.DateBeforeIsStrictOrder | src/utils/date-utils.ts:83-85 | `isDateBefore` is irreflexive, asymmetric and transitive. For two valid strings, one date is before the other or both parse to the same date. |
| DateUtils.DateAfterIsConverse | src/utils/date-utils.ts:90-102 | `isDateAfter(a, b)` is `isDateBefore(b, a)`, and so is `isAcquiredAfter(a, b)`. |
| DateUtils.WithinPeriodExcludesEnds | src/utils/date-utils.ts:107-115 | A transfer is within the period exactly when it falls strictly after the start and strictly before the end. A transfer on either end is not within it. |
| DateUtils.CalculateYearsBetween | src/utils/date-utils.ts:21-44 | The result is a number exactly when both strings are valid dates, and `NaN` otherwise. Equal valid dates are 0 years apart. |
| DateUtils.YearsBetweenCountsAnniversaries | src/utils/date-utils.ts:21-44 | The whole years between two ordered dates are the anniversaries reached: the n-th anniversary is at or before the end, and the (n+1)-th is after it. The count is 0 when the end is earlier. |
| DateUtils.AnniversaryCountIsUnique | src/utils/date-utils.ts:21-44 | Any count that brackets the end between two anniversaries is the whole-year count. |
| DateUtils.YearsBetweenMonotone | src/utils/date-utils.ts:21-44 | A later end never gives fewer whole years. |
| DateUtils.YearsBetweenExamples | tests/unit/date-utils.test.ts:9-19 | The unit-test values: 3 years, 2 years one day short, 4 years between two 29 Februaries, and 0 for the same date. |
| DateUtils.HoldingPeriodExamples | tests/unit/date-utils.test.ts:21-27 | The holding period is 7 years on the anniversary and 6 one day before. |
| DateUtils.HoldingPeriodMidYearExample | src/utils/date-utils.ts:49-55 | A mid-year acquisition (2017-06-15 to 2024-01-01) counts 6 whole years. |
| DateUtils.DateFormatExamples | tests/unit/date-utils.test.ts:29-38 | The strings the unit tests accept are accepted, and the ones they reject are rejected. |
| DateUtils.DateOrderExamples | tests/unit/date-utils.test.ts:40-46 | `isDateBefore` holds for an earlier date, and fails for a later or equal one. |
| DateUtils.CalculateDaysBetween | src/utils/date-utils.ts:8-16 | The result is a number exactly when both strings are valid dates. |
| DateUtils.DayNumberIncreases | src/utils/date-utils.ts:8-16 | Day numbers follow the calendar order strictly. |
| DateUtils.DaysBetweenSymmetricAndZeroOnSameDay | src/utils/date-utils.ts:8-16 | The day count does not depend on argument order. It is 0 exactly when both strings parse to the same day. |
| DateUtils.RolloverContinuesTheCount | src/utils/date-utils.ts:8-16 | A day written past its month's end has the same day number as the date it rolls over to. |
| DateUtils.DaysBetweenExamples | src/utils/date-utils.ts:8-16 | A leap year spans 366 days and a common year 365. |
| DateUtils.DaysBetweenEitherOrderExample | src/utils/date-utils.ts:8-16 | 2024-03-01 and 2024-02-28 are 2 days apart, in reverse order. |
| DateUtils.DaysBetweenRolloverExample | src/utils/date-utils.ts:8-16 | 2024-02-30 parses as 1 March 2024, so it is 0 days from 2024-03-01. |
| DateUtils.StringOrderIsFieldOrder | src/calculators/base-calculator.ts:288 | On valid date strings, the string `>` the calculator uses compares the written year, month and day in that order. |
| DateUtils.StringOrderIsDateOrder | src/calculators/base-calculator.ts:288 | On date strings that need no rollover, string order is chronological order. |
| TaxRates.CalculateProgressiveTaxRate | src/utils/tax-rates.ts:10-30 | The bracket loop yields `ProgressiveTax`. Filling the brackets from the bottom gives the sum of every bracket's portion times its rate, and 0 for a base of 0 or less. |
| TaxRates.FillBrackets | src/utils/tax-rates.ts:16-27 | The loop over the brackets, stopping when the base is used up, collects the tax `LoopTax` defines. |
| TaxRates.LoopTaxIsStandardTax | src/utils/tax-rates.ts:16-27 | On a well-formed table, filling brackets with what remains of the base equals the per-bracket reference sum `StandardTax`. |
| TaxRates.StandardTaxBelowFloor | src/utils/tax-rates.ts:10-14 | A base at or below the first bracket's floor owes nothing. |
| TaxRates.ProgressiveTaxBounds | src/utils/tax-rates.ts:10-30 | The progressive tax lies between 6% and 45% of every non-negative base. |
| TaxRates.ProgressiveTaxIncreasing | src/utils/tax-rates.ts:10-30 | A larger base always owes strictly more progressive tax. |
| TaxRates.ProgressiveTaxClosedForm | src/utils/tax-rates.ts:10-30 | The progressive tax in closed form, bracket by bracket, per base range. |
| TaxRates.ProgressiveTaxExamples | tests/unit/tax-rates.test.ts:12-18 | The unit-test values: 0, 600,000 on 10,000,000, 3,240,000 on 30,000,000, and the bracket boundaries. |
| TaxRates.MarginalTaxRate | src/utils/tax-rates.ts:35-57 | A base of 0 or less has rate 0. A positive base gets the rate of a bracket that holds it: above the floor and at or below the ceiling. |
| TaxRates.GetMarginalTaxRate | src/utils/tax-rates.ts:35-57 | The search loop returns `MarginalTaxRate`. |
| TaxRates.MarginalTaxRateClosedForm | src/utils/tax-rates.ts:35-57 | The marginal rate as a step function of the base, read off the table. |
| TaxRates.MarginalTaxRateMonotone | src/utils/tax-rates.ts:35-57 | A larger base never has a lower marginal rate. |
| TaxRates.StandardTaxStep | src/utils/tax-rates.ts:16-27 | On any well-formed table, one more won of base adds the rate of the bracket whose ceiling first covers it. |
| TaxRates.ProgressiveTaxStep | src/utils/tax-rates.ts:10-57 | The progressive tax on the last won of a base is the marginal rate, which ties the two functions together. |
| TaxRates.ProgressiveTaxWithinMarginal | src/utils/tax-rates.ts:10-57 | The progressive tax never exceeds the marginal rate applied to the whole base. |
| TaxRates.MarginalTaxRateExamples | tests/unit/tax-rates.test.ts:20-27 | The unit-test values, including 6% at exactly 14,000,000 and 15% one won above. |
| TaxRates.LongTermDeductionRate | src/utils/tax-rates.ts:62-84 | Under 3 years the rate is 0. From 3 years it is the rate of band h−3, or of the last band from 11 years. The residence rate is used when the household qualifies. |
| TaxRates.BandOfHoldingYears | src/utils/tax-rates.ts:70-81 | The band search finds band h−3 for 3..10 years and the last band from 11 years on. |
| TaxRates.GetLongTermDeductionRate | src/utils/tax-rates.ts:62-84 | The search loop returns `LongTermDeductionRate`. |
| TaxRates.LongTermDeductionClosedForm | tests/unit/tax-rates.test.ts:29-42 | The general rate is 10% at 3 years, 4h−4 % from 4 to 10 years, and 40% from 11 years. The residence rate is 12 points higher. |
| TaxRates.LongTermDeductionMonotone | src/utils/tax-rates.ts:62-84 | Longer holding never lowers the rate. The residence rate is never below the general rate. Every rate is within 0..52%. |
| TaxRates.ShortTermHeavyRate | src/utils/tax-rates.ts:89-96 | A heavy rate exists exactly under two years. It is 50% exactly under one year and 40% exactly at one year. |
| TaxRates.MultipleHouseSurcharge | src/utils/tax-rates.ts:101-114 | The surcharge is non-zero exactly in an adjustment-target area with two or more houses. It is 20 points for two houses and 30 for three or more. |
| TaxRates.FinalTaxRate | src/utils/tax-rates.ts:119-141 | The rate is within 0..70%. Under two years it is the short-term heavy rate. Otherwise it is the marginal rate plus the multiple-house surcharge, capped at 70%: at least the marginal rate, and equal to it without a surcharge. |
| TaxRates.GetFinalTaxRate | src/utils/tax-rates.ts:119-141 | The method, calling the marginal-rate search, returns `FinalTaxRate`. |
| TaxRates.MarginalRateAtLeastFortyTwo | src/utils/tax-rates.ts:35-57 | The marginal rate is at most 45%. It is 42% or more exactly above 500,000,000 won. |
| TaxRates.FinalTaxRateCapBinds | src/utils/tax-rates.ts:132-140 | From two years on, the 70% cap changes the rate exactly for three or more houses in an adjustment-target area on a base above 500,000,000 won, and the rate is then 70%. |
| TaxRates.FinalTaxRateExamples | tests/unit/tax-rates.test.ts:61-75 | The unit-test values: short-term priority, surcharges of 20 and 30 points, the 70% cap, and no surcharge outside an adjustment-target area. |
| TaxRates.FlatTax | src/utils/tax-rates.ts:146-151 | The result is the base times the rate percent, rounded down to a whole won. |
| TaxRates.HighValueHouseTaxableGains | src/utils/tax-rates.ts:156-168 | Nothing is taxable at or below the limit. Above it the result is the gain times (price − limit) / price, rounded down. |
| TaxRates.HighValueShareWithinGain | src/utils/tax-rates.ts:156-168 | The taxable share of a non-negative gain lies between 0 and the whole gain. |
| TaxRates.HighValueShareGrowsWithPrice | src/utils/tax-rates.ts:156-168 | A higher transfer price never lowers the taxable share of the same gain. |
| TaxRates.HighValueExamples | tests/unit/tax-rates.test.ts:77-83 | The unit-test values: 0 at 1,000,000,000, 200,000,000 at 1,500,000,000, and 500,000,000 at 2,400,000,000. |
| Validators.ValidatePropertyInfo | src/utils/validators.ts:21-108 | The method returns the error list `PropertyErrors` in check order. `isValid` holds exactly when that list is empty. |
| Validators.CheckLocation | src/utils/validators.ts:58-73 | The city and district checks append exactly `LocationErrors`. |
| Validators.CheckArea | src/utils/validators.ts:75-102 | The area checks append exactly `AreaErrors`. |
| Validators.PropertyErrorsEmptyIff | src/utils/validators.ts:21-108 | The property section passes exactly when its type is known, its price is positive and its acquisition date is valid. It also needs a named city and district, and a positive exclusive area no larger than the total area. |
| Validators.PropertyErrorCauses | src/utils/validators.ts:24-102 | For each of the eight property checks, its error is reported exactly when its own condition fails: unknown type, price of 0 or less, missing date, malformed date, missing city, missing district, total area of 0 or less, and an exclusive area of 0 or less or above a non-zero total. |
| Validators.ValidateTransactionInfo | src/utils/validators.ts:113-183 | The method returns the error list `TransactionErrors`, expense-field loop included. `isValid` holds exactly when that list is empty. |
| Validators.CheckExpenses | src/utils/validators.ts:158-177 | The expense loop appends exactly the errors `ExpenseErrors` defines over the five fields. |
| Validators.ExpenseErrorsExactly | src/utils/validators.ts:168-177 | An expense error is reported for exactly the entries whose amount is present and negative. |
| Validators.ExpenseErrorsOrdered | src/utils/validators.ts:168-177 | The expense errors follow the field order strictly, so no field is reported twice. |
| Validators.ExpenseErrorCause | src/utils/validators.ts:168-177 | An expense field is reported exactly when it is present and negative. |
| Validators.TransactionErrorsEmptyIff | src/utils/validators.ts:113-183 | The transaction section passes exactly when the price is positive, the transfer date is valid and strictly after a valid acquisition date, and no expense is negative. |
| Validators.TransferOrderErrorCause | src/utils/validators.ts:143-156 | With both dates valid, the date-order error is reported exactly when the transfer is not strictly after the acquisition, a same-day transfer included. |
| Validators.ValidateOwnerInfo | src/utils/validators.ts:188-247 | The method returns the error list `OwnerErrors`. `isValid` holds exactly when that list is empty. |
| Validators.OwnerErrorsEmptyIff | src/utils/validators.ts:188-247 | The owner section passes exactly when the household type is known, a single-house residence period (if given) is two valid dates with the end strictly after the start, and the rental period is not negative. |
| Validators.ResidenceCheckedOnlyForOneHouse | src/utils/validators.ts:201-232 | For any household other than a single house, the residence period never causes an error. |
| Validators.ValidateCalculationOptions | src/utils/validators.ts:252-272 | The method returns the error list `OptionsErrors`. `isValid` holds exactly when that list is empty. |
| Validators.OptionsErrorsEmptyIff | src/utils/validators.ts:252-272 | The options pass exactly when absent, or when their calculation date is absent, empty or valid. |
| Validators.ValidateAllInputs | src/utils/validators.ts:277-306 | The method returns the four sections' errors concatenated in order, with the transaction checked against the property's acquisition date. |
| Validators.AllInputErrorsEmptyIff | src/utils/validators.ts:277-306 | A request passes exactly when all four sections are well formed. The acquisition is then strictly before the transfer. |
| Validators.ErrorsGroupedBySection | src/utils/validators.ts:295-300 | The reported errors are grouped by section, in the order property, transaction, owner, options. |
| Validators.NonPositiveAcquisitionPriceRejected | src/utils/validators.ts:35-41 | An acquisition price of 0 or less (the unit tests use -1000) fails validation with `INVALID_AMOUNT` on that field, whatever the other inputs. |
| BaseCalculator.ExpenseTotalCoversEachField | src/calculators/base-calculator.ts:232-240 | The expense total is the sum over the validator's five fields. With no negative field, it is at least each present amount. |
| BaseCalculator.MissingExpenseCountsAsZero | src/calculators/base-calculator.ts:232-240 | A missing expense adds nothing, and a present one adds exactly its amount. |
| BaseCalculator.GetHouseCount | src/calculators/base-calculator.ts:298-309 | The count is within 1..3. It is 2 exactly for a temporary second house and 3 exactly for several houses. |
| BaseCalculator.CalculateResidenceYears | src/calculators/base-calculator.ts:283-293 | With no period the count is 0. With valid start, end and reference dates it is a number. |
| BaseCalculator.ResidenceCutAtReference | src/calculators/base-calculator.ts:283-293 | For dates that need no rollover, residence is counted from the start to the earlier of the period's end and the reference date. |
| BaseCalculator.EligibilityRule | src/calculators/base-calculator.ts:245-278 | With valid dates, a household is eligible exactly when it is a single house held two years or more. If acquired in an adjustment-target area after 2017-08-03, it also needs two years of residence. |
| BaseCalculator.UnparsedHoldingPassesTwoYearTest | src/calculators/base-calculator.ts:255-262 | An unparseable acquisition date gives a `NaN` holding period and a false date comparison, so a single-house household is eligible. |
| BaseCalculator.PerformCalculation | src/calculators/base-calculator.ts:83-227 | The step-by-step computation returns `Calculation`: the amounts, the exemption records and the trace, stage by stage. |
| BaseCalculator.ApplyOneHouseExemption | src/calculators/base-calculator.ts:111-153 | The exemption stage sets the taxable gain and appends the records and the trace step that the stage functions define. |
| BaseCalculator.ApplyTaxRate | src/calculators/base-calculator.ts:187-203 | The rate stage yields `FinalTaxRate`. The tax is a flat multiply at 40% or more, and the progressive tax below. |
| BaseCalculator.CalculateCapitalGainsTax | src/calculators/base-calculator.ts:38-78 | The request fails, with code `VALIDATION_FAILED`, exactly when validation reports an error. On success the inputs are well formed, the acquisition precedes the transfer, and the data is `Calculation`. |
| BaseCalculator.NoExemptionUnlessEligible | src/calculators/base-calculator.ts:114 | Without eligibility there is no exemption record, the whole gain is taxable, and the trace has five steps. |
| BaseCalculator.FullExemptionOwesNothing | src/calculators/base-calculator.ts:117-131 | An eligible sale at or below 1,200,000,000 won records a full exemption of the whole gain. Every later amount and the tax are zero. |
| BaseCalculator.NothingTaxable | src/calculators/base-calculator.ts:155-213 | With no taxable gain, the deduction, taxable gain, tax base, tax and final tax are all 0, and so are the amounts of the last four trace steps. |
| BaseCalculator.PartialExemptionSplitsGain | src/calculators/base-calculator.ts:133-152 | An eligible sale above the limit records a partial exemption of the gain not taxed. The exempt and taxable parts add up to the gain, and the taxable part is within 0..gain for a non-negative gain. |
| BaseCalculator.TraceShape | src/calculators/base-calculator.ts:104-210 | The trace has 5 or 6 steps in a fixed order: the gain, an optional exemption step, then the deduction, taxable gain, tax base and calculated tax. Each step carries the matching amount. The list of step identifiers is the gain, the exemption's identifiers, then the four fixed ones. |
| BaseCalculator.DeductionsOnlyReduce | src/calculators/base-calculator.ts:155-185 | The basic deduction is 2,500,000 won. The taxable gain is what the holding deduction leaves, and the tax base is that less the basic deduction, both floored at 0. For a non-negative gain the holding deduction is at most 52% of it. |
| BaseCalculator.HoldingDeductionWithinRate | src/calculators/base-calculator.ts:159-160 | The holding deduction of a non-negative gain is between 0 and 52% of it. |
| BaseCalculator.TaxFollowsRate | src/calculators/base-calculator.ts:187-213 | The tax is the flat multiply at 40% or more and the progressive tax below. The final tax equals the calculated tax. |
| BaseCalculator.TaxWithinRate | src/calculators/base-calculator.ts:196-203 | On a non-negative base the calculated tax is between 0 and the applied rate's share of the base. |
| BaseCalculator.RateBelowFortyIsMarginal | src/utils/tax-rates.ts:119-141 | A final rate under 40% comes from two or more years of holding and is at least the marginal rate. |
| BaseCalculator.FlatRateJumpAtThreeHundredMillion | src/calculators/base-calculator.ts:196-203 | At a base of 300,000,000 the tax is 94,060,000. One won more switches to the flat multiply and gives 120,000,000. |
| BaseCalculator.SurchargeBelowFortyOnlyReported | src/calculators/base-calculator.ts:196-203 | Below 40%, a surcharge raises the reported rate but the tax stays the progressive tax. |
| Scenarios.SampleValidation | tests/unit/base-calculator.test.ts:11-71 | The sample request passes validation for both households, and fails it with a negative acquisition price. |
| Scenarios.SampleSingleHouse | tests/unit/base-calculator.test.ts:43-58 | The sample single-house sale: gain 682,000,000 with 545,600,000 exempt, and a holding deduction of 49,104,000. The tax base is 84,796,000 at 24%, the tax is 14,591,040, and the trace has six steps. |
| Scenarios.SampleMultipleHouses | tests/unit/base-calculator.test.ts:73-88 | The sample multiple-house sale: no exemption and a holding deduction of 163,680,000. The tax base is 515,820,000 at 70%, above 45%, and the tax is 361,074,000. |
| Scenarios.FullExemptionCases | tests/unit/one-house-exemption.test.ts:12-78 | Sales at 500,000,000 and at exactly 1,200,000,000 record a full exemption of the whole gain and owe no tax. |
| Scenarios.ProportionalTaxationCase | tests/unit/one-house-exemption.test.ts:82-117 | A sale at 1,500,000,000 exempts 556,000,000 of the 695,000,000 gain. The tax base is 103,140,000 at 35%, and the tax is 20,659,000. |
| Scenarios.MultipleHousesNoExemptionCase | tests/unit/one-house-exemption.test.ts:121-151 | A multiple-house household gets no exemption. The tax base is 169,100,000 at 38%, and the tax is 44,318,000. |
| Scenarios.ShortHoldingNoExemptionCase | tests/unit/one-house-exemption.test.ts:153-184 | An apartment held one year gets no exemption. The tax base is 192,500,000 at the 40% short-term rate, and the tax is 77,000,000. |

## Left out

- The MCP server, its tool handlers and the explanation tool (`src/server.ts`, `src/tools/*`) are I/O and presentation around the core.
- Messages and labels are left out: the Korean error messages, and each trace step's `stepName`, `formula` and `description` strings. An error keeps its field and code. A step keeps its stable identifier (`src/utils/step-labels.ts:9-17`) and its amount. `src/types/tax.ts:25-34` gives a step no identifier, but the tools read one, so the model carries it.
- Exemption records keep their type and amount. The `reason` text is left out.
- `getCurrentDate` and `addYearsToDate` (`src/utils/date-utils.ts:120-133`) read the clock or format output. The calculator does not use them.
- Dates come from the engine's `Date`. The model takes the local-time getters to equal the written fields, so there are no time-zone shifts. It accepts only the `YYYY-MM-DD` strings the format check admits: four-digit years, with day rollover as the engine performs it.
- Floating point is not modelled. The progressive tax is exact in hundredths of a won. The holding deduction, the flat tax and the high-value share are exact integer floors where the source multiplies by a floating fraction, so binary rounding of `rate / 100` is not captured.
- Holding years are whole years. The unit tests pass fractional holding periods (0.5 and 1.5) to `getShortTermHeavyTaxRate` and `getFinalTaxRate`. `TaxRates.FinalTaxRateExamples` uses 0 and 1 for them, which fall in the same bands.
- `NaN`, `undefined` and non-number inputs are not modelled. A missing number is 0 and a missing date is "", which the validators treat exactly as a missing value.
- The calculation options are validated and then ignored, as in the calculator.
- The `CALCULATION_ERROR` path of `calculateCapitalGainsTax` is not modelled. Nothing in the modelled core throws: the table searches' empty-table throws cannot fire on the constant tables.
- The unused constants are not part of this model: `NECESSARY_EXPENSE_RATE`, `SURCHARGE_EXEMPTION_START`/`END`, `RENTAL_HOUSE_SPECIAL` and `HOLDING_PERIOD`. So are the owner's `isLongTermRental` flag and `isTransferredWithinPeriod`'s callers; the calculator reads none of them.
- Some source bodies are split into helper methods with their own contracts: `CheckLocation`, `CheckArea`, `CheckExpenses`, `FillBrackets`, `ApplyOneHouseExemption` and `ApplyTaxRate`. Together they compute exactly what the one source body computes.
- TaxRates.HighValueHouseTaxableGains: requires a non-negative exemption limit. The calculator always passes the constant 1,200,000,000.
- BaseCalculator.PerformCalculation: requires that both dates parse. `calculateCapitalGainsTax` calls it only after validation, which guarantees this.
- DateUtils.StringOrderIsDateOrder: states chronological order only for strings that need no rollover. For a rolled-over string, string order follows the written fields (`DateUtils.StringOrderIsFieldOrder`).
