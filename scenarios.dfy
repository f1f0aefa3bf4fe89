/**
 * Whole calculations on the inputs of the calculator's unit tests, worked out to the won: the
 * sample apartment sold by a single-house household and by a multiple-house household, and the
 * single-house exemption cases (full exemption, exemption at exactly the limit, proportional
 * taxation above it, and the two ways of missing the exemption).
 */
module Scenarios {
  import opened Wrappers
  import opened Constants
  import opened Types
  import opened DateUtils
  import opened TaxRates
  import opened Validators
  import opened BaseCalculator

  // ---------------------------------------------------------------------------
  // The sample apartment: bought for 800,000,000 on 2017-01-01 in an adjustment-target area,
  // sold for 1,500,000,000 on 2024-12-01 with 18,000,000 of expenses.

  function SampleProperty(): PropertyInfo {
    PropertyInfo("apartment", 800_000_000, "2017-01-01", Location("서울특별시", "강남구", true), Area(100.0, 80.0))
  }

  function SampleTransaction(): TransactionInfo {
    TransactionInfo(1_500_000_000, "2024-12-01", NecessaryExpenses(Some(8_000_000), None, None, Some(10_000_000), None))
  }

  function SampleOwner(): OwnerInfo {
    OwnerInfo(ONE_HOUSEHOLD_ONE_HOUSE, Some(ResidencePeriod("2017-01-01", "2024-12-01")), None, None)
  }

  function MultipleHouseOwner(): OwnerInfo {
    OwnerInfo(MULTIPLE_HOUSES, None, None, None)
  }

  lemma SampleDates()
    ensures ParseDate("2017-01-01") == Some(Date(2017, 1, 1))
    ensures ParseDate("2024-12-01") == Some(Date(2024, 12, 1))
    ensures HoldingYears(SampleProperty(), SampleTransaction()) == 7
  {
    ParsesAs("2017-01-01", Date(2017, 1, 1));
    ParsesAs("2024-12-01", Date(2024, 12, 1));
  }

  /** The sample request passes validation for both households; a negative acquisition price fails it. */
  lemma SampleValidation()
    ensures AllInputErrors(SampleProperty(), SampleTransaction(), SampleOwner(), None) == []
    ensures AllInputErrors(SampleProperty(), SampleTransaction(), MultipleHouseOwner(), None) == []
    ensures AllInputErrors(SampleProperty().(acquisitionPrice := -1000), SampleTransaction(), SampleOwner(), None) != []
  {
    SampleDates();
    var e := SampleTransaction().necessaryExpenses;
    ExpenseEntriesCoverEveryKind(e);
    assert ExpensesNonNegative(e) by {
      forall kind | ExpenseAmount(e, kind).Some? ensures ExpenseAmount(e, kind).value >= 0 {
      }
    }
    AllInputErrorsEmptyIff(SampleProperty(), SampleTransaction(), SampleOwner(), None);
    AllInputErrorsEmptyIff(SampleProperty(), SampleTransaction(), MultipleHouseOwner(), None);
    AllInputErrorsEmptyIff(SampleProperty().(acquisitionPrice := -1000), SampleTransaction(), SampleOwner(), None);
  }

  /** The stages before the deduction, for the single-house household. */
  lemma SampleSingleHouseStages()
    ensures var p, t, o := SampleProperty(), SampleTransaction(), SampleOwner();
      && DatesParse(p, t) && HoldingYears(p, t) == 7
      && CapitalGains(p, t) == 682_000_000
      && ExemptionApplies(p, t, o)
      && TaxableCapitalGains(p, t, o) == 136_400_000
      && ExemptionRecords(p, t, o) == [TaxExemption(PartialExemption, 545_600_000)]
      && ExemptionSteps(p, t, o) == [CalculationStep(OneHousePartialExemptionStep, 136_400_000.0)]
      && HasResidenceRequirement(o, t.transferDate)
      && GetHouseCount(o) == 1
  {
    var p, t, o := SampleProperty(), SampleTransaction(), SampleOwner();
    SampleDates();
    assert !IsAcquiredAfter(p.acquisitionDate, RESIDENCE_REQUIREMENT_DATE) by {
      ParsesAs(RESIDENCE_REQUIREMENT_DATE, Date(2017, 8, 3));
    }
    assert ExemptionApplies(p, t, o);
    assert !StringLess("2024-12-01", "2024-12-01");
    assert CalculateResidenceYears(o, t.transferDate) == Some(7);
  }

  /**
   * The single-house household: acquired before 3 August 2017, so no residence test; seven years
   * held, so eligible; above the limit, so a fifth of the 682,000,000 gain is taxable, with the
   * 36% resident deduction and the progressive scale.
   */
  lemma SampleSingleHouse()
    ensures var c := Calculation(SampleProperty(), SampleTransaction(), SampleOwner());
      && c.capitalGains == 682_000_000
      && c.exemptions == [TaxExemption(PartialExemption, 545_600_000)]
      && c.longTermDeduction == 49_104_000
      && c.taxableGains == 87_296_000
      && c.taxableIncome == 84_796_000
      && c.applicableTaxRate == 24
      && c.finalTax == 14_591_040.0
      && |c.calculationSteps| == 6
  {
    SampleSingleHouseStages();
    SampleSingleHouseAmounts();
    assert Calculation(SampleProperty(), SampleTransaction(), SampleOwner()) ==
      Assessment(682_000_000, 136_400_000, [TaxExemption(PartialExemption, 545_600_000)],
                 [CalculationStep(OneHousePartialExemptionStep, 136_400_000.0)], 7, true, 1, true);
  }

  /** The stages from the deduction on, for the single-house household. */
  lemma SampleSingleHouseAmounts()
    ensures var c := Assessment(682_000_000, 136_400_000, [TaxExemption(PartialExemption, 545_600_000)],
                                [CalculationStep(OneHousePartialExemptionStep, 136_400_000.0)], 7, true, 1, true);
      && c.longTermDeduction == 49_104_000
      && c.taxableGains == 87_296_000
      && c.taxableIncome == 84_796_000
      && c.applicableTaxRate == 24
      && c.finalTax == 14_591_040.0
      && |c.calculationSteps| == 6
  {
    assert HoldingDeduction(136_400_000, 7, true) == 49_104_000 by {
      LongTermDeductionClosedForm(7);
    }
    assert FinalTaxRate(84_796_000, 7, 1, true) == 24 by {
      MarginalTaxRateClosedForm(84_796_000);
    }
    assert ProgressiveTax(84_796_000) == 14_591_040.0 by {
      ProgressiveTaxClosedForm(84_796_000);
    }
  }

  /** The stages before the deduction, for the multiple-house household. */
  lemma SampleMultipleHousesStages()
    ensures var p, t, o := SampleProperty(), SampleTransaction(), MultipleHouseOwner();
      && DatesParse(p, t) && HoldingYears(p, t) == 7
      && CapitalGains(p, t) == 682_000_000
      && !ExemptionApplies(p, t, o)
      && TaxableCapitalGains(p, t, o) == 682_000_000
      && ExemptionRecords(p, t, o) == [] && ExemptionSteps(p, t, o) == []
      && !HasResidenceRequirement(o, t.transferDate)
      && GetHouseCount(o) == 3
  {
    SampleDates();
  }

  /**
   * The multiple-house household: no exemption, the 24% deduction, and a marginal 42% plus the
   * 30% surcharge, capped at 70%: the flat heavy rate.
   */
  lemma SampleMultipleHouses()
    ensures var c := Calculation(SampleProperty(), SampleTransaction(), MultipleHouseOwner());
      && c.capitalGains == 682_000_000
      && c.exemptions == []
      && c.longTermDeduction == 163_680_000
      && c.taxableIncome == 515_820_000
      && c.applicableTaxRate == 70
      && c.finalTax == 361_074_000.0
      && |c.calculationSteps| == 5
  {
    SampleMultipleHousesStages();
    SampleMultipleHousesAmounts();
    assert Calculation(SampleProperty(), SampleTransaction(), MultipleHouseOwner()) ==
      Assessment(682_000_000, 682_000_000, [], [], 7, false, 3, true);
  }

  /** The stages from the deduction on, for the multiple-house household. */
  lemma SampleMultipleHousesAmounts()
    ensures var c := Assessment(682_000_000, 682_000_000, [], [], 7, false, 3, true);
      && c.longTermDeduction == 163_680_000
      && c.taxableIncome == 515_820_000
      && c.applicableTaxRate == 70
      && c.finalTax == 361_074_000.0
      && |c.calculationSteps| == 5
  {
    assert HoldingDeduction(682_000_000, 7, false) == 163_680_000 by {
      LongTermDeductionClosedForm(7);
    }
    assert FinalTaxRate(515_820_000, 7, 3, true) == 70 by {
      MarginalTaxRateClosedForm(515_820_000);
    }
    assert FlatTax(515_820_000, 70) == 361_074_000;
  }

  // ---------------------------------------------------------------------------
  // The single-house exemption cases: an 84 square-metre apartment outside adjustment-target
  // areas, sold on 2024-01-01 with a 5,000,000 brokerage fee.

  function ApartmentBought(price: int, date: string): PropertyInfo {
    PropertyInfo("apartment", price, date, Location("서울", "강남구", false), Area(84.0, 84.0))
  }

  function SoldFor(price: int): TransactionInfo {
    TransactionInfo(price, "2024-01-01", NecessaryExpenses(Some(5_000_000), None, None, None, None))
  }

  function ResidentOwner(start: string): OwnerInfo {
    OwnerInfo(ONE_HOUSEHOLD_ONE_HOUSE, Some(ResidencePeriod(start, "2024-01-01")), None, None)
  }

  lemma ExemptionCaseDates()
    ensures ParseDate("2020-01-01") == Some(Date(2020, 1, 1))
    ensures ParseDate("2023-01-01") == Some(Date(2023, 1, 1))
    ensures ParseDate("2024-01-01") == Some(Date(2024, 1, 1))
    ensures HoldingYears(ApartmentBought(300_000_000, "2020-01-01"), SoldFor(500_000_000)) == 4
    ensures HoldingYears(ApartmentBought(800_000_000, "2020-01-01"), SoldFor(1_200_000_000)) == 4
    ensures HoldingYears(ApartmentBought(800_000_000, "2020-01-01"), SoldFor(1_500_000_000)) == 4
    ensures HoldingYears(ApartmentBought(300_000_000, "2023-01-01"), SoldFor(500_000_000)) == 1
  {
    ParsesAs("2020-01-01", Date(2020, 1, 1));
    ParsesAs("2023-01-01", Date(2023, 1, 1));
    ParsesAs("2024-01-01", Date(2024, 1, 1));
  }

  /** Sold for 500,000,000 and for exactly 1,200,000,000: fully exempt, no tax. */
  lemma FullExemptionCases()
    ensures var c := Calculation(ApartmentBought(300_000_000, "2020-01-01"), SoldFor(500_000_000), ResidentOwner("2020-01-01"));
      c.exemptions == [TaxExemption(FullExemption, 195_000_000)] && c.finalTax == 0.0
    ensures var c := Calculation(ApartmentBought(800_000_000, "2020-01-01"), SoldFor(1_200_000_000), ResidentOwner("2020-01-01"));
      c.exemptions == [TaxExemption(FullExemption, 395_000_000)] && c.finalTax == 0.0
  {
    ExemptionCaseDates();
    var o := ResidentOwner("2020-01-01");
    FullExemptionOwesNothing(ApartmentBought(300_000_000, "2020-01-01"), SoldFor(500_000_000), o);
    FullExemptionOwesNothing(ApartmentBought(800_000_000, "2020-01-01"), SoldFor(1_200_000_000), o);
  }

  /** The stages before the deduction, for the sale at 1,500,000,000. */
  lemma ProportionalTaxationStages()
    ensures var p, t, o := ApartmentBought(800_000_000, "2020-01-01"), SoldFor(1_500_000_000), ResidentOwner("2020-01-01");
      && DatesParse(p, t) && HoldingYears(p, t) == 4
      && CapitalGains(p, t) == 695_000_000
      && ExemptionApplies(p, t, o)
      && TaxableCapitalGains(p, t, o) == 139_000_000
      && ExemptionRecords(p, t, o) == [TaxExemption(PartialExemption, 556_000_000)]
      && ExemptionSteps(p, t, o) == [CalculationStep(OneHousePartialExemptionStep, 139_000_000.0)]
      && HasResidenceRequirement(o, t.transferDate)
      && GetHouseCount(o) == 1
  {
    var p, t, o := ApartmentBought(800_000_000, "2020-01-01"), SoldFor(1_500_000_000), ResidentOwner("2020-01-01");
    ExemptionCaseDates();
    assert !StringLess("2024-01-01", "2024-01-01");
    assert CalculateResidenceYears(o, t.transferDate) == Some(4);
    assert ExemptionApplies(p, t, o);
  }

  /** Sold for 1,500,000,000: a fifth of the 695,000,000 gain is taxed, with the 24% resident deduction. */
  lemma ProportionalTaxationCase()
    ensures var c := Calculation(ApartmentBought(800_000_000, "2020-01-01"), SoldFor(1_500_000_000), ResidentOwner("2020-01-01"));
      && c.exemptions == [TaxExemption(PartialExemption, 556_000_000)]
      && c.taxableIncome == 103_140_000
      && c.applicableTaxRate == 35
      && c.finalTax == 20_659_000.0
  {
    ProportionalTaxationStages();
    ProportionalTaxationAmounts();
    assert Calculation(ApartmentBought(800_000_000, "2020-01-01"), SoldFor(1_500_000_000), ResidentOwner("2020-01-01")) ==
      Assessment(695_000_000, 139_000_000, [TaxExemption(PartialExemption, 556_000_000)],
                 [CalculationStep(OneHousePartialExemptionStep, 139_000_000.0)], 4, true, 1, false);
  }

  /** The stages from the deduction on, for the sale at 1,500,000,000. */
  lemma ProportionalTaxationAmounts()
    ensures var c := Assessment(695_000_000, 139_000_000, [TaxExemption(PartialExemption, 556_000_000)],
                                [CalculationStep(OneHousePartialExemptionStep, 139_000_000.0)], 4, true, 1, false);
      c.taxableIncome == 103_140_000 && c.applicableTaxRate == 35 && c.finalTax == 20_659_000.0
  {
    assert HoldingDeduction(139_000_000, 4, true) == 33_360_000 by {
      LongTermDeductionClosedForm(4);
    }
    assert FinalTaxRate(103_140_000, 4, 1, false) == 35 by {
      MarginalTaxRateClosedForm(103_140_000);
    }
    assert ProgressiveTax(103_140_000) == 20_659_000.0 by {
      ProgressiveTaxClosedForm(103_140_000);
    }
  }

  /** A multiple-house household gets no exemption and pays progressive tax on the whole gain. */
  lemma MultipleHousesNoExemptionCase()
    ensures var c := Calculation(ApartmentBought(300_000_000, "2020-01-01"), SoldFor(500_000_000), MultipleHouseOwner());
      && c.exemptions == []
      && c.taxableIncome == 169_100_000
      && c.applicableTaxRate == 38
      && c.finalTax == 44_318_000.0
  {
    var p, t, o := ApartmentBought(300_000_000, "2020-01-01"), SoldFor(500_000_000), MultipleHouseOwner();
    ExemptionCaseDates();
    assert !ExemptionApplies(p, t, o);
    MultipleHousesNoExemptionAmounts();
    assert Calculation(p, t, o) == Assessment(195_000_000, 195_000_000, [], [], 4, false, 3, false);
  }

  /** The stages from the deduction on, for the multiple-house household. */
  lemma MultipleHousesNoExemptionAmounts()
    ensures var c := Assessment(195_000_000, 195_000_000, [], [], 4, false, 3, false);
      c.taxableIncome == 169_100_000 && c.applicableTaxRate == 38 && c.finalTax == 44_318_000.0
  {
    assert HoldingDeduction(195_000_000, 4, false) == 23_400_000 by {
      LongTermDeductionClosedForm(4);
    }
    assert FinalTaxRate(169_100_000, 4, 3, false) == 38 by {
      MarginalTaxRateClosedForm(169_100_000);
    }
    assert ProgressiveTax(169_100_000) == 44_318_000.0 by {
      ProgressiveTaxClosedForm(169_100_000);
    }
  }

  /** The stages before the deduction, for the apartment held one year. */
  lemma ShortHoldingStages()
    ensures var p, t, o := ApartmentBought(300_000_000, "2023-01-01"), SoldFor(500_000_000), ResidentOwner("2023-06-01");
      && DatesParse(p, t) && HoldingYears(p, t) == 1
      && CapitalGains(p, t) == 195_000_000
      && !ExemptionApplies(p, t, o)
      && TaxableCapitalGains(p, t, o) == 195_000_000
      && ExemptionRecords(p, t, o) == [] && ExemptionSteps(p, t, o) == []
      && GetHouseCount(o) == 1
  {
    ExemptionCaseDates();
  }

  /** Held one year only: no exemption, and the 40% short-term rate as a flat multiply. */
  lemma ShortHoldingNoExemptionCase()
    ensures var c := Calculation(ApartmentBought(300_000_000, "2023-01-01"), SoldFor(500_000_000), ResidentOwner("2023-06-01"));
      && c.exemptions == []
      && c.taxableIncome == 192_500_000
      && c.applicableTaxRate == 40
      && c.finalTax == 77_000_000.0
  {
    var p, t, o := ApartmentBought(300_000_000, "2023-01-01"), SoldFor(500_000_000), ResidentOwner("2023-06-01");
    ShortHoldingStages();
    var res := HasResidenceRequirement(o, t.transferDate);
    ShortHoldingAmounts(res);
    assert Calculation(p, t, o) == Assessment(195_000_000, 195_000_000, [], [], 1, res, 1, false);
  }

  /** The stages from the deduction on, for the apartment held one year, with or without residence. */
  lemma ShortHoldingAmounts(hasResidenceRequirement: bool)
    ensures var c := Assessment(195_000_000, 195_000_000, [], [], 1, hasResidenceRequirement, 1, false);
      c.taxableIncome == 192_500_000 && c.applicableTaxRate == 40 && c.finalTax == 77_000_000.0
  {
    assert HoldingDeduction(195_000_000, 1, hasResidenceRequirement) == 0;
    assert FinalTaxRate(192_500_000, 1, 1, false) == 40;
    assert FlatTax(192_500_000, 40) == 77_000_000;
  }
}
