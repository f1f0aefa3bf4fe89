/**
 * The calculator: gate the request on validation, then compute the capital gain, apply the
 * single-house exemption, the long-term holding deduction, the basic deduction and the tax
 * rate, and return the amounts with an ordered trace of steps.
 *
 * `PerformCalculation` builds its trace and its exemption list step by step and is proved
 * equal to the specification function `Calculation`, which is assembled from one named
 * function per stage; the lemmas state what the calculator promises about those stages.
 * The calculator holds no state, so it is a module of functions and methods, not a class.
 */
module BaseCalculator {
  import opened Wrappers
  import opened Constants
  import opened Types
  import opened DateUtils
  import opened TaxRates
  import opened Validators

  function Max(a: int, b: int): int {
    if a >= b then a else b
  }

  // ---------------------------------------------------------------------------
  // Expenses and the capital gain

  /** The five expense amounts of a list of entries added up, a missing amount counting as 0. */
  function EntriesTotal(entries: seq<(ExpenseKind, Option<int>)>): int {
    if entries == [] then 0 else entries[0].1.GetOr(0) + EntriesTotal(entries[1..])
  }

  /** `calculateTotalNecessaryExpenses`: every expense field added up, a missing one counting as 0. */
  function TotalNecessaryExpenses(e: NecessaryExpenses): int {
    e.brokerageFee.GetOr(0) + e.improvementCosts.GetOr(0) + e.capitalExpenditures.GetOr(0)
    + e.acquisitionTax.GetOr(0) + e.other.GetOr(0)
  }

  /**
   * The total is the sum over the validator's expense entries; with no negative field it is
   * not negative and covers every single field.
   */
  lemma ExpenseTotalCoversEachField(e: NecessaryExpenses)
    ensures TotalNecessaryExpenses(e) == EntriesTotal(ExpenseEntries(e))
    ensures ExpensesNonNegative(e) ==>
      TotalNecessaryExpenses(e) >= 0 && forall kind :: ExpenseAmount(e, kind).GetOr(0) <= TotalNecessaryExpenses(e)
  {
    var entries := ExpenseEntries(e);
    assert EntriesTotal(entries[4..]) == e.other.GetOr(0);
    assert EntriesTotal(entries[3..]) == e.acquisitionTax.GetOr(0) + EntriesTotal(entries[4..]);
    assert EntriesTotal(entries[2..]) == e.capitalExpenditures.GetOr(0) + EntriesTotal(entries[3..]);
    assert EntriesTotal(entries[1..]) == e.improvementCosts.GetOr(0) + EntriesTotal(entries[2..]);
    if ExpensesNonNegative(e) {
      assert ExpenseAmount(e, BrokerageFee).Some? ==> ExpenseAmount(e, BrokerageFee).value >= 0;
      assert ExpenseAmount(e, ImprovementCosts).Some? ==> ExpenseAmount(e, ImprovementCosts).value >= 0;
      assert ExpenseAmount(e, CapitalExpenditures).Some? ==> ExpenseAmount(e, CapitalExpenditures).value >= 0;
      assert ExpenseAmount(e, AcquisitionTax).Some? ==> ExpenseAmount(e, AcquisitionTax).value >= 0;
      assert ExpenseAmount(e, OtherExpense).Some? ==> ExpenseAmount(e, OtherExpense).value >= 0;
    }
  }

  /** The expenses with one field replaced. */
  function WithExpense(e: NecessaryExpenses, kind: ExpenseKind, amount: Option<int>): NecessaryExpenses {
    match kind
    case BrokerageFee => e.(brokerageFee := amount)
    case ImprovementCosts => e.(improvementCosts := amount)
    case CapitalExpenditures => e.(capitalExpenditures := amount)
    case AcquisitionTax => e.(acquisitionTax := amount)
    case OtherExpense => e.(other := amount)
  }

  /** A missing field adds nothing to the total, and a present one adds exactly its amount. */
  lemma MissingExpenseCountsAsZero(e: NecessaryExpenses, kind: ExpenseKind, amount: int)
    ensures TotalNecessaryExpenses(WithExpense(e, kind, Some(amount))) == TotalNecessaryExpenses(WithExpense(e, kind, None)) + amount
    ensures ExpenseAmount(WithExpense(e, kind, None), kind) == None
  {
  }

  /** The capital gain: the transfer price less the acquisition price and the total expenses. */
  function CapitalGains(p: PropertyInfo, t: TransactionInfo): int {
    t.transferPrice - p.acquisitionPrice - TotalNecessaryExpenses(t.necessaryExpenses)
  }

  // ---------------------------------------------------------------------------
  // Households and residence

  /** `getHouseCount`: 1 for a single house, 2 for a temporary second house, 3 for several; 1 for anything else. */
  function GetHouseCount(o: OwnerInfo): (n: int)
    ensures 1 <= n <= 3
    ensures n == 2 <==> o.householdType == TEMPORARY_TWO_HOUSES
    ensures n == 3 <==> o.householdType == MULTIPLE_HOUSES
  {
    if o.householdType == ONE_HOUSEHOLD_ONE_HOUSE then 1
    else if o.householdType == TEMPORARY_TWO_HOUSES then 2
    else if o.householdType == MULTIPLE_HOUSES then 3
    else 1
  }

  /**
   * `calculateResidenceYears`: 0 without a residence period; otherwise the whole years from the
   * start of residence to its end, where an end that sorts after the reference date (as text)
   * is replaced by the reference date. `None` stands for `NaN`.
   */
  function CalculateResidenceYears(o: OwnerInfo, referenceDate: string): (r: Option<nat>)
    ensures o.residencePeriod.None? ==> r == Some(0)
    ensures (o.residencePeriod.Some? && IsValidDateFormat(o.residencePeriod.value.start)
             && IsValidDateFormat(o.residencePeriod.value.end) && IsValidDateFormat(referenceDate)) ==> r.Some?
  {
    if o.residencePeriod.None? then Some(0)
    else
      var period := o.residencePeriod.value;
      var endDate := if StringLess(referenceDate, period.end) then referenceDate else period.end;
      CalculateResidencePeriodYears(period.start, endDate)
  }

  /** `y >= n` on a count that may be `NaN`, which compares false. */
  predicate AtLeastYears(y: Option<nat>, n: int) {
    y.Some? && y.value >= n
  }

  /**
   * For calendar dates, the residence is counted up to the earlier of its end and the reference
   * date, so it never exceeds the years to either of them.
   */
  lemma ResidenceCutAtReference(o: OwnerInfo, referenceDate: string)
    requires o.residencePeriod.Some?
    requires IsValidDateFormat(o.residencePeriod.value.start)
    requires IsValidDateFormat(o.residencePeriod.value.end) && IsCalendarDate(WrittenFields(o.residencePeriod.value.end))
    requires IsValidDateFormat(referenceDate) && IsCalendarDate(WrittenFields(referenceDate))
    ensures var s, e, ref := ParseDate(o.residencePeriod.value.start).value,
                             ParseDate(o.residencePeriod.value.end).value, ParseDate(referenceDate).value;
      && CalculateResidenceYears(o, referenceDate) == Some(YearsBetweenDates(s, if Before(ref, e) then ref else e))
      && CalculateResidenceYears(o, referenceDate).value <= YearsBetweenDates(s, e)
      && CalculateResidenceYears(o, referenceDate).value <= YearsBetweenDates(s, ref)
  {
    var period := o.residencePeriod.value;
    var s, e, ref := ParseDate(period.start).value, ParseDate(period.end).value, ParseDate(referenceDate).value;
    StringOrderIsDateOrder(referenceDate, period.end);
    assert ParseDate(period.end) == Some(WrittenFields(period.end));
    assert ParseDate(referenceDate) == Some(WrittenFields(referenceDate));
    if Before(ref, e) {
      YearsBetweenMonotone(s, ref, e);
    } else {
      YearsBetweenMonotone(s, e, ref);
    }
  }

  // ---------------------------------------------------------------------------
  // Single-house exemption eligibility

  /**
   * `meetsOneHouseExemptionRequirements`: a single-house household that has not held the
   * property under two years and, for a property in an adjustment-target area acquired after
   * the residence-requirement date, has lived in it at least two years. A holding period that
   * cannot be computed (`NaN`) does not fail the two-year test.
   */
  function MeetsOneHouseExemptionRequirements(p: PropertyInfo, o: OwnerInfo, transferDate: string): bool {
    if o.householdType != ONE_HOUSEHOLD_ONE_HOUSE then false
    else
      var holdingYears := CalculateHoldingPeriodYears(p.acquisitionDate, transferDate);
      if holdingYears.Some? && holdingYears.value < 2 then false
      else if p.location.isAdjustmentTargetArea && IsAcquiredAfter(p.acquisitionDate, RESIDENCE_REQUIREMENT_DATE) then
        AtLeastYears(CalculateResidenceYears(o, transferDate), 2)
      else true
  }

  /**
   * For dates that parse, eligibility means: a single-house household, at least two whole
   * years of holding, and, when the property lies in an adjustment-target area and was
   * acquired strictly after 3 August 2017, at least two whole years of residence.
   */
  lemma EligibilityRule(p: PropertyInfo, o: OwnerInfo, transferDate: string)
    requires IsValidDateFormat(p.acquisitionDate) && IsValidDateFormat(transferDate)
    ensures MeetsOneHouseExemptionRequirements(p, o, transferDate) <==>
      && o.householdType == ONE_HOUSEHOLD_ONE_HOUSE
      && YearsBetweenDates(ParseDate(p.acquisitionDate).value, ParseDate(transferDate).value) >= 2
      && (p.location.isAdjustmentTargetArea && Before(Date(2017, 8, 3), ParseDate(p.acquisitionDate).value) ==>
            AtLeastYears(CalculateResidenceYears(o, transferDate), 2))
  {
    ParsesAs(RESIDENCE_REQUIREMENT_DATE, Date(2017, 8, 3));
  }

  /** An unparseable acquisition date makes the holding period `NaN`, which passes the two-year test. */
  lemma UnparsedHoldingPassesTwoYearTest(p: PropertyInfo, o: OwnerInfo, transferDate: string)
    requires !IsValidDateFormat(p.acquisitionDate) && o.householdType == ONE_HOUSEHOLD_ONE_HOUSE
    ensures MeetsOneHouseExemptionRequirements(p, o, transferDate)
  {
  }

  // ---------------------------------------------------------------------------
  // The stages of a calculation

  /** Both dates parse, as validation guarantees before a calculation is performed. */
  predicate DatesParse(p: PropertyInfo, t: TransactionInfo) {
    IsValidDateFormat(p.acquisitionDate) && IsValidDateFormat(t.transferDate)
  }

  function HoldingYears(p: PropertyInfo, t: TransactionInfo): nat
    requires DatesParse(p, t)
  {
    CalculateHoldingPeriodYears(p.acquisitionDate, t.transferDate).value
  }

  /** The single-house exemption is applied. */
  predicate ExemptionApplies(p: PropertyInfo, t: TransactionInfo, o: OwnerInfo) {
    o.householdType == ONE_HOUSEHOLD_ONE_HOUSE && MeetsOneHouseExemptionRequirements(p, o, t.transferDate)
  }

  /** The gain left to tax after the exemption: none, the high-value share, or all of it. */
  function TaxableCapitalGains(p: PropertyInfo, t: TransactionInfo, o: OwnerInfo): int {
    if !ExemptionApplies(p, t, o) then CapitalGains(p, t)
    else if t.transferPrice <= ONE_HOUSE_EXEMPTION_LIMIT then 0
    else HighValueHouseTaxableGains(CapitalGains(p, t), t.transferPrice, ONE_HOUSE_EXEMPTION_LIMIT)
  }

  /** The exemption records: none, or one full or partial exemption of the gain not taxed. */
  function ExemptionRecords(p: PropertyInfo, t: TransactionInfo, o: OwnerInfo): seq<TaxExemption> {
    if !ExemptionApplies(p, t, o) then []
    else if t.transferPrice <= ONE_HOUSE_EXEMPTION_LIMIT then [TaxExemption(FullExemption, CapitalGains(p, t))]
    else [TaxExemption(PartialExemption, CapitalGains(p, t) - TaxableCapitalGains(p, t, o))]
  }

  /** The exemption's trace step, if any: 0 for a full exemption, the taxable share for a partial one. */
  function ExemptionSteps(p: PropertyInfo, t: TransactionInfo, o: OwnerInfo): seq<CalculationStep> {
    if !ExemptionApplies(p, t, o) then []
    else if t.transferPrice <= ONE_HOUSE_EXEMPTION_LIMIT then [CalculationStep(OneHouseFullExemptionStep, 0.0)]
    else [CalculationStep(OneHousePartialExemptionStep, TaxableCapitalGains(p, t, o) as real)]
  }

  /** The higher deduction rate applies to a single-house household with two years of residence. */
  predicate HasResidenceRequirement(o: OwnerInfo, transferDate: string) {
    o.householdType == ONE_HOUSEHOLD_ONE_HOUSE && AtLeastYears(CalculateResidenceYears(o, transferDate), 2)
  }

  /** The tax before relief: a flat multiply at a rate of 40% or more, the progressive tax below it. */
  function CalculatedTax(taxableIncome: int, rate: int): real {
    if rate >= 40 then FlatTax(taxableIncome, rate) as real else ProgressiveTax(taxableIncome)
  }

  /** The long-term holding deduction: the taxable gain times the band's rate, rounded down. */
  function HoldingDeduction(taxableCapitalGains: int, holdingYears: int, hasResidenceRequirement: bool): int {
    (taxableCapitalGains * LongTermDeductionRate(holdingYears, hasResidenceRequirement)) / 100
  }

  /**
   * The amounts from the taxable gain on: the holding deduction, the taxable gain, the tax base,
   * the rate and the tax, with the trace (after the gain and exemption steps) and the records.
   */
  function Assessment(capitalGains: int, taxableCapitalGains: int, exemptions: seq<TaxExemption>,
                      exemptionSteps: seq<CalculationStep>, holdingYears: int, hasResidenceRequirement: bool,
                      houseCount: int, isAdjustmentTargetArea: bool): CapitalGainsCalculation
  {
    var longTermDeduction := HoldingDeduction(taxableCapitalGains, holdingYears, hasResidenceRequirement);
    var taxableGains := Max(0, taxableCapitalGains - longTermDeduction);
    var taxableIncome := Max(0, taxableGains - BASIC_DEDUCTION);
    var rate := FinalTaxRate(taxableIncome, holdingYears, houseCount, isAdjustmentTargetArea);
    var calculatedTax := CalculatedTax(taxableIncome, rate);
    var finalTax := if calculatedTax < 0.0 then 0.0 else calculatedTax;
    CapitalGainsCalculation(
      capitalGains, longTermDeduction, taxableGains, BASIC_DEDUCTION, taxableIncome, rate,
      calculatedTax, finalTax, exemptions,
      [CalculationStep(CapitalGainsStep, capitalGains as real)] + exemptionSteps +
      [CalculationStep(LongTermDeductionStep, longTermDeduction as real),
       CalculationStep(TaxableGainsStep, taxableGains as real),
       CalculationStep(TaxBaseStep, taxableIncome as real),
       CalculationStep(CalculatedTaxStep, calculatedTax)])
  }

  /** The result `performCalculation` returns for inputs whose dates parse. */
  function Calculation(p: PropertyInfo, t: TransactionInfo, o: OwnerInfo): CapitalGainsCalculation
    requires DatesParse(p, t)
  {
    Assessment(CapitalGains(p, t), TaxableCapitalGains(p, t, o), ExemptionRecords(p, t, o), ExemptionSteps(p, t, o),
               HoldingYears(p, t), HasResidenceRequirement(o, t.transferDate), GetHouseCount(o),
               p.location.isAdjustmentTargetArea)
  }

  // ---------------------------------------------------------------------------
  // The calculator

  /**
   * `performCalculation`: pushes the trace steps and the exemption as it goes. The options are
   * accepted and ignored, as in the calculator. Validation has already established that both
   * dates parse.
   */
  method PerformCalculation(property: PropertyInfo, transaction: TransactionInfo, owner: OwnerInfo,
                            options: Option<CalculationOptions>)
    returns (r: CapitalGainsCalculation)
    requires DatesParse(property, transaction)
    ensures r == Calculation(property, transaction, owner)
  {
    var steps: seq<CalculationStep> := [];
    var exemptions: seq<TaxExemption> := [];

    var holdingYears := CalculateHoldingPeriodYears(property.acquisitionDate, transaction.transferDate).value;
    var totalNecessaryExpenses := TotalNecessaryExpenses(transaction.necessaryExpenses);

    var capitalGains := transaction.transferPrice - property.acquisitionPrice - totalNecessaryExpenses;
    steps := steps + [CalculationStep(CapitalGainsStep, capitalGains as real)];
    assert steps == [CalculationStep(CapitalGainsStep, capitalGains as real)];

    var taxableCapitalGains;
    taxableCapitalGains, exemptions, steps := ApplyOneHouseExemption(property, transaction, owner, capitalGains, exemptions, steps);
    ghost var exemptionSteps := ExemptionSteps(property, transaction, owner);
    assert exemptions == ExemptionRecords(property, transaction, owner);
    ghost var prefix := [CalculationStep(CapitalGainsStep, capitalGains as real)] + exemptionSteps;
    assert steps == prefix;

    var residenceYears := CalculateResidenceYears(owner, transaction.transferDate);
    var hasResidenceRequirement := owner.householdType == ONE_HOUSEHOLD_ONE_HOUSE && AtLeastYears(residenceYears, 2);
    var longTermDeductionRate := GetLongTermDeductionRate(holdingYears, hasResidenceRequirement);
    var longTermDeduction := (taxableCapitalGains * longTermDeductionRate) / 100;
    assert longTermDeduction == HoldingDeduction(taxableCapitalGains, holdingYears, hasResidenceRequirement);
    steps := steps + [CalculationStep(LongTermDeductionStep, longTermDeduction as real)];

    var taxableGains := Max(0, taxableCapitalGains - longTermDeduction);
    steps := steps + [CalculationStep(TaxableGainsStep, taxableGains as real)];

    var taxableIncome := Max(0, taxableGains - BASIC_DEDUCTION);
    steps := steps + [CalculationStep(TaxBaseStep, taxableIncome as real)];

    var houseCount := GetHouseCount(owner);
    var applicableTaxRate, calculatedTax := ApplyTaxRate(taxableIncome, holdingYears, houseCount, property.location.isAdjustmentTargetArea);
    steps := steps + [CalculationStep(CalculatedTaxStep, calculatedTax)];
    assert steps == prefix + [CalculationStep(LongTermDeductionStep, longTermDeduction as real),
                              CalculationStep(TaxableGainsStep, taxableGains as real),
                              CalculationStep(TaxBaseStep, taxableIncome as real),
                              CalculationStep(CalculatedTaxStep, calculatedTax)];

    var finalTax := if calculatedTax < 0.0 then 0.0 else calculatedTax;

    r := CapitalGainsCalculation(
      capitalGains, longTermDeduction, taxableGains, BASIC_DEDUCTION, taxableIncome, applicableTaxRate,
      calculatedTax, finalTax, exemptions, steps);
    ghost var expected := Assessment(capitalGains, taxableCapitalGains, exemptions, exemptionSteps, holdingYears,
                           hasResidenceRequirement, houseCount, property.location.isAdjustmentTargetArea);
    assert expected.longTermDeduction == longTermDeduction;
    assert expected.taxableGains == taxableGains;
    assert expected.taxableIncome == taxableIncome;
    assert expected.applicableTaxRate == applicableTaxRate;
    assert expected.calculatedTax == calculatedTax;
    assert expected.finalTax == finalTax;
    assert expected.exemptions == exemptions;
    assert expected.calculationSteps == steps;
    assert r == expected;
  }

  /**
   * The single-house exemption stage of `performCalculation`: for an eligible household, a full
   * exemption at or below the limit or the high-value share above it, each with its record and
   * its trace step; otherwise the whole gain stays taxable.
   */
  method ApplyOneHouseExemption(property: PropertyInfo, transaction: TransactionInfo, owner: OwnerInfo,
                                capitalGains: int, exemptions: seq<TaxExemption>, steps: seq<CalculationStep>)
    returns (taxableCapitalGains: int, exemptionsOut: seq<TaxExemption>, stepsOut: seq<CalculationStep>)
    requires capitalGains == CapitalGains(property, transaction)
    ensures taxableCapitalGains == TaxableCapitalGains(property, transaction, owner)
    ensures exemptionsOut == exemptions + ExemptionRecords(property, transaction, owner)
    ensures stepsOut == steps + ExemptionSteps(property, transaction, owner)
  {
    taxableCapitalGains, exemptionsOut, stepsOut := capitalGains, exemptions, steps;
    if owner.householdType == ONE_HOUSEHOLD_ONE_HOUSE
      && MeetsOneHouseExemptionRequirements(property, owner, transaction.transferDate)
    {
      if transaction.transferPrice <= ONE_HOUSE_EXEMPTION_LIMIT {
        taxableCapitalGains := 0;
        exemptionsOut := exemptionsOut + [TaxExemption(FullExemption, capitalGains)];
        stepsOut := stepsOut + [CalculationStep(OneHouseFullExemptionStep, 0.0)];
      } else {
        taxableCapitalGains := HighValueHouseTaxableGains(capitalGains, transaction.transferPrice, ONE_HOUSE_EXEMPTION_LIMIT);
        exemptionsOut := exemptionsOut + [TaxExemption(PartialExemption, capitalGains - taxableCapitalGains)];
        stepsOut := stepsOut + [CalculationStep(OneHousePartialExemptionStep, taxableCapitalGains as real)];
      }
    }
  }

  /**
   * The rate stage of `performCalculation`: the final rate, then a flat multiply rounded down at
   * a rate of 40% or more and the progressive tax below it.
   */
  method ApplyTaxRate(taxableIncome: int, holdingYears: int, houseCount: int, isAdjustmentTargetArea: bool)
    returns (applicableTaxRate: int, calculatedTax: real)
    ensures applicableTaxRate == FinalTaxRate(taxableIncome, holdingYears, houseCount, isAdjustmentTargetArea)
    ensures calculatedTax == CalculatedTax(taxableIncome, applicableTaxRate)
  {
    applicableTaxRate := GetFinalTaxRate(taxableIncome, holdingYears, houseCount, isAdjustmentTargetArea);
    calculatedTax := 0.0;
    if applicableTaxRate >= 40 {
      calculatedTax := ((taxableIncome * applicableTaxRate) / 100) as real;
    } else {
      calculatedTax := CalculateProgressiveTaxRate(taxableIncome);
    }
  }

  /**
   * `calculateCapitalGainsTax`: a request that fails validation gets `VALIDATION_FAILED` and no
   * calculation; any other request gets the calculation. The calculator's fall-back error for a
   * fault inside the calculation cannot arise, because every step is total on validated input.
   */
  method CalculateCapitalGainsTax(property: PropertyInfo, transaction: TransactionInfo, owner: OwnerInfo,
                                  options: Option<CalculationOptions>)
    returns (r: CalculationResult)
    ensures r.Failure? <==> AllInputErrors(property, transaction, owner, options) != []
    ensures r.Failure? ==> r.code == VALIDATION_FAILED
    ensures r.Success? ==>
      && InputsWellFormed(property, transaction, owner, options)
      && DatesParse(property, transaction)
      && IsDateBefore(property.acquisitionDate, transaction.transferDate)
      && r.data == Calculation(property, transaction, owner)
  {
    var validation := ValidateAllInputs(property, transaction, owner, options);
    if !validation.isValid {
      return Failure(VALIDATION_FAILED);
    }
    AllInputErrorsEmptyIff(property, transaction, owner, options);
    var calculation := PerformCalculation(property, transaction, owner, options);
    r := Success(calculation);
  }

  // ---------------------------------------------------------------------------
  // Properties of a calculation

  /** Without eligibility there is no exemption, the whole gain is taxable and the trace has five steps. */
  lemma NoExemptionUnlessEligible(p: PropertyInfo, t: TransactionInfo, o: OwnerInfo)
    requires DatesParse(p, t)
    requires o.householdType != ONE_HOUSEHOLD_ONE_HOUSE || !MeetsOneHouseExemptionRequirements(p, o, t.transferDate)
    ensures Calculation(p, t, o).exemptions == []
    ensures TaxableCapitalGains(p, t, o) == Calculation(p, t, o).capitalGains
    ensures |Calculation(p, t, o).calculationSteps| == 5
  {
  }

  /**
   * An eligible transfer at or below 1,200,000,000 won: one full exemption of the whole gain, and
   * every later amount, the tax included, is 0.
   */
  lemma FullExemptionOwesNothing(p: PropertyInfo, t: TransactionInfo, o: OwnerInfo)
    requires DatesParse(p, t) && ExemptionApplies(p, t, o) && t.transferPrice <= ONE_HOUSE_EXEMPTION_LIMIT
    ensures var c := Calculation(p, t, o);
      && c.exemptions == [TaxExemption(FullExemption, c.capitalGains)]
      && c.longTermDeduction == 0 && c.taxableGains == 0 && c.taxableIncome == 0
      && c.calculatedTax == 0.0 && c.finalTax == 0.0
      && forall i :: 1 <= i < |c.calculationSteps| ==> c.calculationSteps[i].amount == 0.0
  {
    var steps := [CalculationStep(OneHouseFullExemptionStep, 0.0)];
    assert TaxableCapitalGains(p, t, o) == 0;
    assert ExemptionSteps(p, t, o) == steps;
    NothingTaxable(CapitalGains(p, t), ExemptionRecords(p, t, o), steps, HoldingYears(p, t),
      HasResidenceRequirement(o, t.transferDate), GetHouseCount(o), p.location.isAdjustmentTargetArea);
  }

  /** With nothing taxable, every amount after the gain is zero. */
  lemma NothingTaxable(capitalGains: int, exemptions: seq<TaxExemption>, exemptionSteps: seq<CalculationStep>,
                       holdingYears: int, hasResidenceRequirement: bool, houseCount: int, isAdjustmentTargetArea: bool)
    ensures var c := Assessment(capitalGains, 0, exemptions, exemptionSteps, holdingYears,
                                hasResidenceRequirement, houseCount, isAdjustmentTargetArea);
      && c.longTermDeduction == 0 && c.taxableGains == 0 && c.taxableIncome == 0
      && c.calculatedTax == 0.0 && c.finalTax == 0.0
      && c.calculationSteps == [CalculationStep(CapitalGainsStep, capitalGains as real)] + exemptionSteps +
           [CalculationStep(LongTermDeductionStep, 0.0), CalculationStep(TaxableGainsStep, 0.0),
            CalculationStep(TaxBaseStep, 0.0), CalculationStep(CalculatedTaxStep, 0.0)]
  {
    assert HoldingDeduction(0, holdingYears, hasResidenceRequirement) == 0;
    var rate := FinalTaxRate(0, holdingYears, houseCount, isAdjustmentTargetArea);
    assert CalculatedTax(0, rate) == 0.0 by {
      if rate >= 40 {
        assert FlatTax(0, rate) == 0;
      }
    }
  }

  /**
   * An eligible transfer above 1,200,000,000 won: the taxable part is the high-value share, the
   * one partial exemption covers the rest of the gain, and for a gain that is not a loss both
   * parts lie within the gain.
   */
  lemma PartialExemptionSplitsGain(p: PropertyInfo, t: TransactionInfo, o: OwnerInfo)
    requires DatesParse(p, t) && ExemptionApplies(p, t, o) && t.transferPrice > ONE_HOUSE_EXEMPTION_LIMIT
    ensures var c := Calculation(p, t, o); var taxable := TaxableCapitalGains(p, t, o);
      && taxable == HighValueHouseTaxableGains(c.capitalGains, t.transferPrice, ONE_HOUSE_EXEMPTION_LIMIT)
      && |c.exemptions| == 1 && c.exemptions[0].kind == PartialExemption
      && c.exemptions[0].amount + taxable == c.capitalGains
      && c.calculationSteps[1] == CalculationStep(OneHousePartialExemptionStep, taxable as real)
      && (c.capitalGains >= 0 ==> 0 <= taxable <= c.capitalGains && 0 <= c.exemptions[0].amount <= c.capitalGains)
  {
    var c := Calculation(p, t, o);
    if c.capitalGains >= 0 {
      HighValueShareWithinGain(c.capitalGains, t.transferPrice, ONE_HOUSE_EXEMPTION_LIMIT);
    }
  }

  /**
   * The trace: the gain, then at most one exemption step, then the deduction, the taxable gain,
   * the tax base and the tax, each carrying the amount reported in the result. Five steps, or
   * six exactly when the exemption applies, and one exemption record per exemption step.
   */
  lemma TraceShape(p: PropertyInfo, t: TransactionInfo, o: OwnerInfo)
    requires DatesParse(p, t)
    ensures var c := Calculation(p, t, o); var n := |c.calculationSteps|;
      && (n == 5 || n == 6)
      && (n == 6 <==> ExemptionApplies(p, t, o))
      && |c.exemptions| == n - 5
      && c.calculationSteps[0] == CalculationStep(CapitalGainsStep, c.capitalGains as real)
      && (n == 6 ==> (c.calculationSteps[1].id == OneHouseFullExemptionStep <==> c.exemptions[0].kind == FullExemption))
      && (n == 6 ==> (c.calculationSteps[1].id == OneHousePartialExemptionStep <==> c.exemptions[0].kind == PartialExemption))
      && c.calculationSteps[n - 4] == CalculationStep(LongTermDeductionStep, c.longTermDeduction as real)
      && c.calculationSteps[n - 3] == CalculationStep(TaxableGainsStep, c.taxableGains as real)
      && c.calculationSteps[n - 2] == CalculationStep(TaxBaseStep, c.taxableIncome as real)
      && c.calculationSteps[n - 1] == CalculationStep(CalculatedTaxStep, c.calculatedTax)
    ensures StepIds(Calculation(p, t, o).calculationSteps) ==
      [CapitalGainsStep] + StepIds(ExemptionSteps(p, t, o)) + [LongTermDeductionStep, TaxableGainsStep, TaxBaseStep, CalculatedTaxStep]
  {
  }

  /**
   * The deductions only reduce: the holding deduction takes at most 52% of a non-negative
   * taxable gain, the taxable gain is what it leaves (never below 0), and the tax base is that
   * less the 2,500,000 won basic deduction (never below 0).
   */
  lemma DeductionsOnlyReduce(p: PropertyInfo, t: TransactionInfo, o: OwnerInfo)
    requires DatesParse(p, t)
    ensures var c := Calculation(p, t, o); var taxable := TaxableCapitalGains(p, t, o);
      && c.basicDeduction == 2_500_000
      && c.taxableGains == Max(0, taxable - c.longTermDeduction)
      && c.taxableIncome == Max(0, c.taxableGains - c.basicDeduction)
      && 0 <= c.taxableIncome <= c.taxableGains
      && (taxable >= 0 ==> 0 <= 100 * c.longTermDeduction <= 52 * taxable && c.taxableGains <= taxable)
  {
    AssessmentDeductions(CapitalGains(p, t), TaxableCapitalGains(p, t, o), ExemptionRecords(p, t, o),
      ExemptionSteps(p, t, o), HoldingYears(p, t), HasResidenceRequirement(o, t.transferDate), GetHouseCount(o),
      p.location.isAdjustmentTargetArea);
  }

  lemma AssessmentDeductions(capitalGains: int, taxableCapitalGains: int, exemptions: seq<TaxExemption>,
                             exemptionSteps: seq<CalculationStep>, holdingYears: int, hasResidenceRequirement: bool,
                             houseCount: int, isAdjustmentTargetArea: bool)
    ensures var c := Assessment(capitalGains, taxableCapitalGains, exemptions, exemptionSteps, holdingYears,
                                hasResidenceRequirement, houseCount, isAdjustmentTargetArea);
      && c.basicDeduction == 2_500_000
      && c.taxableGains == Max(0, taxableCapitalGains - c.longTermDeduction)
      && c.taxableIncome == Max(0, c.taxableGains - c.basicDeduction)
      && 0 <= c.taxableIncome <= c.taxableGains
      && (taxableCapitalGains >= 0 ==>
            0 <= 100 * c.longTermDeduction <= 52 * taxableCapitalGains && c.taxableGains <= taxableCapitalGains)
  {
    var c := Assessment(capitalGains, taxableCapitalGains, exemptions, exemptionSteps, holdingYears,
                        hasResidenceRequirement, houseCount, isAdjustmentTargetArea);
    assert c.longTermDeduction == HoldingDeduction(taxableCapitalGains, holdingYears, hasResidenceRequirement);
    if taxableCapitalGains >= 0 {
      HoldingDeductionWithinRate(taxableCapitalGains, holdingYears, hasResidenceRequirement);
    }
  }

  /** The holding deduction of a non-negative gain is at most 52% of it. */
  lemma HoldingDeductionWithinRate(taxableCapitalGains: int, holdingYears: int, hasResidenceRequirement: bool)
    requires taxableCapitalGains >= 0
    ensures var d := HoldingDeduction(taxableCapitalGains, holdingYears, hasResidenceRequirement);
      0 <= 100 * d <= 52 * taxableCapitalGains
  {
    var rate := LongTermDeductionRate(holdingYears, hasResidenceRequirement);
    LongTermDeductionMonotone(holdingYears, holdingYears, hasResidenceRequirement);
    MulLeft(0, rate, taxableCapitalGains);
    MulLeft(rate, 52, taxableCapitalGains);
    var product := taxableCapitalGains * rate;
    assert 0 <= product <= 52 * taxableCapitalGains;
    assert HoldingDeduction(taxableCapitalGains, holdingYears, hasResidenceRequirement) == product / 100;
  }

  /**
   * The tax follows the rate: a flat multiply at 40% or more, progressive below it; the rate
   * never exceeds 70%; the final tax is the calculated tax, never negative, and never more than
   * the rate's share of the tax base (45% of it when the progressive scale applies).
   */
  lemma TaxFollowsRate(p: PropertyInfo, t: TransactionInfo, o: OwnerInfo)
    requires DatesParse(p, t)
    ensures var c := Calculation(p, t, o);
      && 0 <= c.applicableTaxRate <= 70
      && c.calculatedTax == (if c.applicableTaxRate >= 40 then FlatTax(c.taxableIncome, c.applicableTaxRate) as real
                             else ProgressiveTax(c.taxableIncome))
      && c.finalTax == c.calculatedTax && c.finalTax >= 0.0
      && 100.0 * c.finalTax <= (c.taxableIncome * c.applicableTaxRate) as real
      && (c.applicableTaxRate < 40 ==> c.finalTax <= 0.45 * c.taxableIncome as real)
  {
    AssessmentTax(CapitalGains(p, t), TaxableCapitalGains(p, t, o), ExemptionRecords(p, t, o),
      ExemptionSteps(p, t, o), HoldingYears(p, t), HasResidenceRequirement(o, t.transferDate), GetHouseCount(o),
      p.location.isAdjustmentTargetArea);
  }

  lemma AssessmentTax(capitalGains: int, taxableCapitalGains: int, exemptions: seq<TaxExemption>,
                      exemptionSteps: seq<CalculationStep>, holdingYears: int, hasResidenceRequirement: bool,
                      houseCount: int, isAdjustmentTargetArea: bool)
    ensures var c := Assessment(capitalGains, taxableCapitalGains, exemptions, exemptionSteps, holdingYears,
                                hasResidenceRequirement, houseCount, isAdjustmentTargetArea);
      && 0 <= c.applicableTaxRate <= 70
      && c.calculatedTax == (if c.applicableTaxRate >= 40 then FlatTax(c.taxableIncome, c.applicableTaxRate) as real
                             else ProgressiveTax(c.taxableIncome))
      && c.finalTax == c.calculatedTax && c.finalTax >= 0.0
      && 100.0 * c.finalTax <= (c.taxableIncome * c.applicableTaxRate) as real
      && (c.applicableTaxRate < 40 ==> c.finalTax <= 0.45 * c.taxableIncome as real)
  {
    var c := Assessment(capitalGains, taxableCapitalGains, exemptions, exemptionSteps, holdingYears,
                        hasResidenceRequirement, houseCount, isAdjustmentTargetArea);
    TaxWithinRate(c.taxableIncome, holdingYears, houseCount, isAdjustmentTargetArea);
  }

  /** On a non-negative base, the calculated tax is between 0 and the rate's share of the base. */
  lemma TaxWithinRate(taxableIncome: nat, holdingYears: int, houseCount: int, isAdjustmentTargetArea: bool)
    ensures var rate := FinalTaxRate(taxableIncome, holdingYears, houseCount, isAdjustmentTargetArea);
      && CalculatedTax(taxableIncome, rate) >= 0.0
      && 100.0 * CalculatedTax(taxableIncome, rate) <= (taxableIncome * rate) as real
      && (rate < 40 ==> CalculatedTax(taxableIncome, rate) <= 0.45 * taxableIncome as real)
  {
    var rate := FinalTaxRate(taxableIncome, holdingYears, houseCount, isAdjustmentTargetArea);
    var tax := CalculatedTax(taxableIncome, rate);
    MulLeft(0, rate, taxableIncome);
    var share := taxableIncome * rate;
    if rate < 40 {
      assert tax == ProgressiveTax(taxableIncome);
      ProgressiveTaxBounds(taxableIncome);
      RateBelowFortyIsMarginal(taxableIncome, holdingYears, houseCount, isAdjustmentTargetArea);
      var m := MarginalTaxRate(taxableIncome);
      ProgressiveTaxWithinMarginal(taxableIncome);
      MulLeft(m, rate, taxableIncome);
      assert m * taxableIncome <= share;
      assert 100.0 * tax <= (m * taxableIncome) as real;
    } else {
      var flat := FlatTax(taxableIncome, rate);
      assert tax == flat as real;
      assert 0 <= 100 * flat <= share;
    }
  }

  /** A final rate below 40% comes from the ordinary scale and is at least the marginal rate. */
  lemma RateBelowFortyIsMarginal(taxableIncome: int, holdingYears: int, houseCount: int, isAdjustmentTargetArea: bool)
    requires FinalTaxRate(taxableIncome, holdingYears, houseCount, isAdjustmentTargetArea) < 40
    ensures holdingYears >= 2
    ensures FinalTaxRate(taxableIncome, holdingYears, houseCount, isAdjustmentTargetArea) >= MarginalTaxRate(taxableIncome)
  {
  }

  /**
   * As written, a final rate of 40% or more switches to a flat multiply even when it is the
   * ordinary top marginal rate, so the tax jumps where the base passes 300,000,000 won: one won
   * more of base raises the tax by 25,940,000 won.
   */
  lemma FlatRateJumpAtThreeHundredMillion()
    ensures FinalTaxRate(300_000_000, 5, 1, false) == 38
    ensures CalculatedTax(300_000_000, 38) == 94_060_000.0
    ensures FinalTaxRate(300_000_001, 5, 1, false) == 40
    ensures CalculatedTax(300_000_001, 40) == 120_000_000.0
  {
    TaxAtThreeHundredMillion();
    TaxJustAboveThreeHundredMillion();
  }

  lemma TaxAtThreeHundredMillion()
    ensures FinalTaxRate(300_000_000, 5, 1, false) == 38
    ensures CalculatedTax(300_000_000, 38) == 94_060_000.0
  {
    MarginalTaxRateClosedForm(300_000_000);
    ProgressiveTaxExamples();
  }

  lemma TaxJustAboveThreeHundredMillion()
    ensures FinalTaxRate(300_000_001, 5, 1, false) == 40
    ensures CalculatedTax(300_000_001, 40) == 120_000_000.0
  {
    MarginalTaxRateClosedForm(300_000_001);
    assert FlatTax(300_000_001, 40) == 120_000_000;
  }

  /**
   * As written, a surcharge that keeps the final rate below 40% changes only the reported rate:
   * the tax is the progressive tax, the same as without the surcharge.
   */
  lemma SurchargeBelowFortyOnlyReported(taxableIncome: int, holdingYears: int, houseCount: int, isAdjustmentTargetArea: bool)
    requires FinalTaxRate(taxableIncome, holdingYears, houseCount, isAdjustmentTargetArea) < 40
    ensures CalculatedTax(taxableIncome, FinalTaxRate(taxableIncome, holdingYears, houseCount, isAdjustmentTargetArea))
      == CalculatedTax(taxableIncome, FinalTaxRate(taxableIncome, holdingYears, 1, isAdjustmentTargetArea))
      == ProgressiveTax(taxableIncome)
    ensures FinalTaxRate(20_000_000, 5, 2, true) == 35 && FinalTaxRate(20_000_000, 5, 1, true) == 15
  {
    RateBelowFortyIsMarginal(taxableIncome, holdingYears, houseCount, isAdjustmentTargetArea);
    var m := MarginalTaxRate(taxableIncome);
    assert m < 40;
  }
}
