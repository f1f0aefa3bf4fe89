/**
 * The rate machinery of the capital-gains tax: the progressive tax on a taxable base, the
 * marginal rate of a base, the long-term holding deduction rate, the short-term heavy rate,
 * the multiple-house surcharge, the final applicable rate, the flat tax and the taxable share
 * of a high-value single house.
 *
 * Amounts are whole won; rates are whole percent. The progressive tax is fractional (a bracket
 * portion times a percentage), so it is computed exactly in hundredths of a won and returned as
 * a real number of won.
 */
module TaxRates {
  import opened Wrappers
  import opened Constants

  function Min(a: int, b: int): int {
    if a <= b then a else b
  }

  // ---------------------------------------------------------------------------
  // Progressive tax

  /** The part of base `x` that lies inside bracket `b`. */
  function Portion(b: TaxBracket, x: int): (r: int)
    ensures 0 <= r
    ensures r <= x - b.minAmount || r == 0
  {
    var top := if b.maxAmount.None? then x else Min(x, b.maxAmount.value);
    if top > b.minAmount then top - b.minAmount else 0
  }

  /** Reference definition: every bracket taxes its portion of `x` at its rate, in hundredths of a won. */
  function StandardTax(bs: seq<TaxBracket>, x: int): int {
    if bs == [] then 0 else Portion(bs[0], x) * bs[0].rate + StandardTax(bs[1..], x)
  }

  /** The progressive tax on a taxable base, in won; 0 for a base of 0 or less. */
  function ProgressiveTax(taxableIncome: int): real {
    if taxableIncome <= 0 then 0.0 else StandardTax(BASIC_TAX_RATES, taxableIncome) as real / 100.0
  }

  /** How much of the remaining base bracket `b` takes: all of it for an unbounded bracket, otherwise at most the bracket's width. */
  function BracketSize(b: TaxBracket, remaining: int): int {
    if b.maxAmount.None? then remaining else Min(remaining, b.maxAmount.value - b.minAmount)
  }

  /** The tax the bracket loop collects from the brackets `bs` on a remaining base, in hundredths. */
  ghost function LoopTax(bs: seq<TaxBracket>, remaining: int): int {
    if bs == [] || remaining <= 0 then 0
    else
      var size := BracketSize(bs[0], remaining);
      if size > 0 then size * bs[0].rate + LoopTax(bs[1..], remaining - size)
      else LoopTax(bs[1..], remaining)
  }

  lemma WellFormedTail(bs: seq<TaxBracket>)
    requires WellFormedBrackets(bs) && |bs| > 1
    ensures WellFormedBrackets(bs[1..])
  {
    assert forall i :: 0 <= i < |bs| - 2 ==> bs[1..][i] == bs[i + 1];
  }

  /** A base at or below the first bracket's floor owes nothing. */
  lemma {:induction false} StandardTaxBelowFloor(bs: seq<TaxBracket>, x: int)
    requires WellFormedBrackets(bs) && x <= bs[0].minAmount
    ensures StandardTax(bs, x) == 0
    decreases |bs|
  {
    if |bs| > 1 {
      WellFormedTail(bs);
      StandardTaxBelowFloor(bs[1..], x);
    }
  }

  /** Filling brackets from the bottom with what remains of the base gives the reference tax. */
  lemma {:induction false} LoopTaxIsStandardTax(bs: seq<TaxBracket>, x: int)
    requires WellFormedBrackets(bs) && x >= bs[0].minAmount
    ensures LoopTax(bs, x - bs[0].minAmount) == StandardTax(bs, x)
    decreases |bs|
  {
    var b := bs[0];
    if x == b.minAmount {
      StandardTaxBelowFloor(bs, x);
    } else if |bs| == 1 {
      assert LoopTax(bs[1..], 0) == 0;
    } else {
      WellFormedTail(bs);
      assert b.maxAmount == Some(bs[1].minAmount) && b.minAmount < bs[1].minAmount;
      var size := BracketSize(b, x - b.minAmount);
      assert size == Portion(b, x) && size > 0;
      if x > bs[1].minAmount {
        LoopTaxIsStandardTax(bs[1..], x);
      } else {
        StandardTaxBelowFloor(bs[1..], x);
      }
    }
  }

  /** `calculateProgressiveTaxRate`: fills the brackets from the bottom until the base is used up. */
  method CalculateProgressiveTaxRate(taxableIncome: int) returns (tax: real)
    ensures tax == ProgressiveTax(taxableIncome)
  {
    if taxableIncome <= 0 {
      return 0.0;
    }
    var hundredths := FillBrackets(BASIC_TAX_RATES, taxableIncome);
    BasicTaxRatesWellFormed();
    LoopTaxIsStandardTax(BASIC_TAX_RATES, taxableIncome);
    tax := hundredths as real / 100.0;
  }

  /** The bracket loop of `calculateProgressiveTaxRate`, in hundredths of a won. */
  method FillBrackets(brackets: seq<TaxBracket>, taxableIncome: int) returns (hundredths: int)
    ensures hundredths == LoopTax(brackets, taxableIncome)
  {
    hundredths := 0;
    var remaining := taxableIncome;
    var i := 0;
    while i < |brackets| && remaining > 0
      invariant 0 <= i <= |brackets|
      invariant hundredths + LoopTax(brackets[i..], remaining) == LoopTax(brackets, taxableIncome)
    {
      var bracket := brackets[i];
      var bracketSize := BracketSize(bracket, remaining);
      if bracketSize > 0 {
        hundredths := hundredths + bracketSize * bracket.rate;
        remaining := remaining - bracketSize;
      }
      assert brackets[i..][1..] == brackets[i + 1..];
      i := i + 1;
    }
  }

  // ---------------------------------------------------------------------------
  // Marginal rate

  /** The first bracket whose ceiling is at or above `x`; the last bracket if none is. */
  function FirstCeilingIndex(bs: seq<TaxBracket>, x: int): (i: nat)
    requires |bs| > 0
    ensures i < |bs|
    ensures forall j :: 0 <= j < i ==> !AtOrBelowCeiling(bs[j], x)
    ensures i < |bs| - 1 ==> AtOrBelowCeiling(bs[i], x)
  {
    if |bs| == 1 || AtOrBelowCeiling(bs[0], x) then 0 else 1 + FirstCeilingIndex(bs[1..], x)
  }

  /** Bracket `b` contains base `x`: above its floor and at or below its ceiling. */
  predicate BracketHolds(b: TaxBracket, x: int) {
    b.minAmount < x && AtOrBelowCeiling(b, x)
  }

  /** The rate of the bracket that a positive base reaches; 0 for a base of 0 or less. */
  function MarginalTaxRate(taxableIncome: int): (r: int)
    ensures taxableIncome <= 0 ==> r == 0
    ensures taxableIncome > 0 ==>
      (exists i :: 0 <= i < |BASIC_TAX_RATES| && BracketHolds(BASIC_TAX_RATES[i], taxableIncome) &&
        r == BASIC_TAX_RATES[i].rate)
  {
    if taxableIncome <= 0 then 0
    else
      var i := FirstCeilingIndex(BASIC_TAX_RATES, taxableIncome);
      assert i > 0 ==> BASIC_TAX_RATES[i - 1].maxAmount == Some(BASIC_TAX_RATES[i].minAmount);
      BASIC_TAX_RATES[i].rate
  }

  /**
   * `getMarginalTaxRate`: the first bracket whose ceiling the base does not exceed. The last
   * bracket is unbounded, so the search ends there at the latest; that is the source's
   * fall-back to the highest bracket, and its empty-table error cannot arise.
   */
  method GetMarginalTaxRate(taxableIncome: int) returns (rate: int)
    ensures rate == MarginalTaxRate(taxableIncome)
  {
    if taxableIncome <= 0 {
      return 0;
    }
    var i := 0;
    while i < |BASIC_TAX_RATES| - 1 && !AtOrBelowCeiling(BASIC_TAX_RATES[i], taxableIncome)
      invariant 0 <= i <= |BASIC_TAX_RATES| - 1
      invariant forall j :: 0 <= j < i ==> !AtOrBelowCeiling(BASIC_TAX_RATES[j], taxableIncome)
    {
      i := i + 1;
    }
    rate := BASIC_TAX_RATES[i].rate;
  }

  /** The rate of the first bracket whose ceiling is at or above `x`, for a general table. */
  function CeilingRate(bs: seq<TaxBracket>, x: int): int
    requires |bs| > 0
  {
    bs[FirstCeilingIndex(bs, x)].rate
  }

  /** Raising the base by one won raises the reference tax by the rate of the bracket that won falls in. */
  lemma {:induction false} StandardTaxStep(bs: seq<TaxBracket>, x: int)
    requires WellFormedBrackets(bs) && x > bs[0].minAmount
    ensures StandardTax(bs, x) - StandardTax(bs, x - 1) == CeilingRate(bs, x)
    decreases |bs|
  {
    if |bs| > 1 {
      WellFormedTail(bs);
      if AtOrBelowCeiling(bs[0], x) {
        StandardTaxBelowFloor(bs[1..], x);
        StandardTaxBelowFloor(bs[1..], x - 1);
      } else {
        StandardTaxStep(bs[1..], x);
      }
    }
  }

  /** The marginal rate is the tax on the last won of the base: the two functions agree. */
  lemma ProgressiveTaxStep(taxableIncome: int)
    requires taxableIncome >= 1
    ensures ProgressiveTax(taxableIncome) - ProgressiveTax(taxableIncome - 1) == MarginalTaxRate(taxableIncome) as real / 100.0
  {
    BasicTaxRatesWellFormed();
    StandardTaxStep(BASIC_TAX_RATES, taxableIncome);
    if taxableIncome == 1 {
      StandardTaxBelowFloor(BASIC_TAX_RATES, 0);
    }
  }

  /** Between 6% and 45% of every non-negative base, the lowest and highest statutory rates. */
  lemma {:induction false} ProgressiveTaxBounds(taxableIncome: nat)
    ensures 6 * taxableIncome <= StandardTax(BASIC_TAX_RATES, taxableIncome) <= 45 * taxableIncome
    ensures 0.06 * taxableIncome as real <= ProgressiveTax(taxableIncome) <= 0.45 * taxableIncome as real
    decreases taxableIncome
  {
    BasicTaxRatesWellFormed();
    if taxableIncome == 0 {
      StandardTaxBelowFloor(BASIC_TAX_RATES, 0);
    } else {
      ProgressiveTaxBounds(taxableIncome - 1);
      StandardTaxStep(BASIC_TAX_RATES, taxableIncome);
    }
  }

  /** A larger base always owes strictly more tax. */
  lemma {:induction false} ProgressiveTaxIncreasing(x: int, y: int)
    requires 0 <= x < y
    ensures ProgressiveTax(x) < ProgressiveTax(y)
    decreases y - x
  {
    ProgressiveTaxStep(y);
    if x < y - 1 {
      ProgressiveTaxIncreasing(x, y - 1);
    }
  }

  /** The marginal rate as a step function of the base, read off the bracket table. */
  lemma MarginalTaxRateClosedForm(taxableIncome: int)
    requires taxableIncome > 0
    ensures MarginalTaxRate(taxableIncome) ==
      if taxableIncome <= 14_000_000 then 6 else if taxableIncome <= 50_000_000 then 15
      else if taxableIncome <= 88_000_000 then 24 else if taxableIncome <= 150_000_000 then 35
      else if taxableIncome <= 300_000_000 then 38 else if taxableIncome <= 500_000_000 then 40
      else if taxableIncome <= 1_000_000_000 then 42 else 45
  {
    var m := MarginalTaxRate(taxableIncome);
    var i :| 0 <= i < |BASIC_TAX_RATES| && BracketHolds(BASIC_TAX_RATES[i], taxableIncome) &&
      m == BASIC_TAX_RATES[i].rate;
  }

  /** The reference tax is the sum of the eight brackets' portions at their rates. */
  lemma StandardTaxSum(x: int)
    ensures StandardTax(BASIC_TAX_RATES, x) ==
      Portion(BASIC_TAX_RATES[0], x) * 6 + Portion(BASIC_TAX_RATES[1], x) * 15 +
      Portion(BASIC_TAX_RATES[2], x) * 24 + Portion(BASIC_TAX_RATES[3], x) * 35 +
      Portion(BASIC_TAX_RATES[4], x) * 38 + Portion(BASIC_TAX_RATES[5], x) * 40 +
      Portion(BASIC_TAX_RATES[6], x) * 42 + Portion(BASIC_TAX_RATES[7], x) * 45
  {
    var bs := BASIC_TAX_RATES;
    forall k | 0 <= k < |bs| ensures bs[k..][1..] == bs[k + 1..] {
    }
    assert StandardTax(bs[8..], x) == 0;
    assert StandardTax(bs[7..], x) == Portion(bs[7], x) * 45;
    assert StandardTax(bs[6..], x) == Portion(bs[6], x) * 42 + StandardTax(bs[7..], x);
    assert StandardTax(bs[5..], x) == Portion(bs[5], x) * 40 + StandardTax(bs[6..], x);
    assert StandardTax(bs[4..], x) == Portion(bs[4], x) * 38 + StandardTax(bs[5..], x);
    assert StandardTax(bs[3..], x) == Portion(bs[3], x) * 35 + StandardTax(bs[4..], x);
    assert StandardTax(bs[2..], x) == Portion(bs[2], x) * 24 + StandardTax(bs[3..], x);
    assert StandardTax(bs[1..], x) == Portion(bs[1], x) * 15 + StandardTax(bs[2..], x);
    assert bs[0..] == bs;
  }

  /**
   * The progressive tax in closed form, in hundredths of a won: the full tax of the brackets
   * below the base's bracket plus the bracket's rate on the excess over its floor.
   */
  lemma ProgressiveTaxClosedForm(taxableIncome: int)
    requires taxableIncome > 0
    ensures StandardTax(BASIC_TAX_RATES, taxableIncome) ==
      if taxableIncome <= 14_000_000 then 6 * taxableIncome
      else if taxableIncome <= 50_000_000 then 84_000_000 + 15 * (taxableIncome - 14_000_000)
      else if taxableIncome <= 88_000_000 then 624_000_000 + 24 * (taxableIncome - 50_000_000)
      else if taxableIncome <= 150_000_000 then 1_536_000_000 + 35 * (taxableIncome - 88_000_000)
      else if taxableIncome <= 300_000_000 then 3_706_000_000 + 38 * (taxableIncome - 150_000_000)
      else if taxableIncome <= 500_000_000 then 9_406_000_000 + 40 * (taxableIncome - 300_000_000)
      else if taxableIncome <= 1_000_000_000 then 17_406_000_000 + 42 * (taxableIncome - 500_000_000)
      else 38_406_000_000 + 45 * (taxableIncome - 1_000_000_000)
  {
    StandardTaxSum(taxableIncome);
  }

  /** A larger base never has a lower marginal rate. */
  lemma MarginalTaxRateMonotone(x: int, y: int)
    requires x <= y
    ensures MarginalTaxRate(x) <= MarginalTaxRate(y)
  {
    if x > 0 {
      MarginalTaxRateClosedForm(x);
      MarginalTaxRateClosedForm(y);
    }
    MarginalRateAtLeastFortyTwo(y);
  }

  /** The reference tax, in hundredths, rises by the marginal rate with each won of base. */
  lemma StandardTaxIncrement(x: int)
    requires x >= 1
    ensures StandardTax(BASIC_TAX_RATES, x) - StandardTax(BASIC_TAX_RATES, x - 1) == MarginalTaxRate(x)
  {
    BasicTaxRatesWellFormed();
    StandardTaxStep(BASIC_TAX_RATES, x);
  }

  /** One induction step of the average-below-marginal argument, on plain numbers. */
  lemma AverageBelowMarginal(n: int, prev: int, cur: int, m0: int, m1: int)
    requires n >= 1 && prev <= (n - 1) * m0 && m0 <= m1 && cur - prev == m1
    ensures cur <= n * m1
  {
    MulLeft(m0, m1, n - 1);
    assert (n - 1) * m0 == m0 * (n - 1) && (n - 1) * m1 == m1 * (n - 1);
    assert (n - 1) * m1 + m1 == n * m1;
  }

  /** The progressive tax never exceeds the marginal rate applied to the whole base. */
  lemma {:induction false} ProgressiveTaxWithinMarginal(taxableIncome: nat)
    ensures StandardTax(BASIC_TAX_RATES, taxableIncome) <= taxableIncome * MarginalTaxRate(taxableIncome)
    ensures 100.0 * ProgressiveTax(taxableIncome) <= (taxableIncome * MarginalTaxRate(taxableIncome)) as real
    decreases taxableIncome
  {
    BasicTaxRatesWellFormed();
    if taxableIncome == 0 {
      StandardTaxBelowFloor(BASIC_TAX_RATES, 0);
    } else {
      var x := taxableIncome;
      StandardTaxIncrement(x);
      ProgressiveTaxWithinMarginal(x - 1);
      MarginalTaxRateMonotone(x - 1, x);
      AverageBelowMarginal(x, StandardTax(BASIC_TAX_RATES, x - 1), StandardTax(BASIC_TAX_RATES, x),
        MarginalTaxRate(x - 1), MarginalTaxRate(x));
    }
  }

  /** Values from the unit tests and the first two bracket boundaries. */
  lemma ProgressiveTaxExamples()
    ensures ProgressiveTax(0) == 0.0
    ensures ProgressiveTax(10_000_000) == 600_000.0
    ensures ProgressiveTax(14_000_000) == 840_000.0
    ensures ProgressiveTax(30_000_000) == 3_240_000.0
    ensures ProgressiveTax(50_000_000) == 6_240_000.0
    ensures ProgressiveTax(300_000_000) == 94_060_000.0
  {
    ProgressiveTaxClosedForm(10_000_000);
    ProgressiveTaxClosedForm(14_000_000);
    ProgressiveTaxClosedForm(30_000_000);
    ProgressiveTaxClosedForm(50_000_000);
    ProgressiveTaxClosedForm(300_000_000);
  }

  /** Marginal-rate values from the unit tests. */
  lemma MarginalTaxRateExamples()
    ensures MarginalTaxRate(0) == 0 && MarginalTaxRate(10_000_000) == 6
    ensures MarginalTaxRate(14_000_000) == 6 && MarginalTaxRate(14_000_001) == 15
    ensures MarginalTaxRate(30_000_000) == 15 && MarginalTaxRate(70_000_000) == 24
    ensures MarginalTaxRate(2_000_000_000) == 45
  {
    MarginalTaxRateClosedForm(10_000_000);
    MarginalTaxRateClosedForm(14_000_000);
    MarginalTaxRateClosedForm(14_000_001);
    MarginalTaxRateClosedForm(30_000_000);
    MarginalTaxRateClosedForm(70_000_000);
    MarginalTaxRateClosedForm(2_000_000_000);
  }

  // ---------------------------------------------------------------------------
  // Long-term holding deduction

  /** Holding years `h` fall in band `b`: at least its minimum and below its maximum, if any. */
  predicate InBand(b: DeductionBand, h: int) {
    b.minYears <= h && (b.maxYears.None? || h < b.maxYears.value)
  }

  /** A band's rate: its residence rate for a resident single-house household when that rate is present and non-zero, its general rate otherwise. */
  function BandRate(b: DeductionBand, isOneHouseWithResidence: bool): int {
    if isOneHouseWithResidence && b.residenceRate.Some? && b.residenceRate.value != 0 then b.residenceRate.value
    else b.generalRate
  }

  /** The first band containing `h`; the last band if none does. */
  function FirstBandIndex(ls: seq<DeductionBand>, h: int): (i: nat)
    requires |ls| > 0
    ensures i < |ls|
    ensures forall j :: 0 <= j < i ==> !InBand(ls[j], h)
    ensures i < |ls| - 1 ==> InBand(ls[i], h)
  {
    if |ls| == 1 || InBand(ls[0], h) then 0 else 1 + FirstBandIndex(ls[1..], h)
  }

  /** The deduction rate in percent: 0 under three years, else the rate of the band the holding years fall in. */
  function LongTermDeductionRate(holdingYears: int, isOneHouseWithResidence: bool): (r: int)
    ensures holdingYears < 3 ==> r == 0
    ensures holdingYears >= 3 ==>
      r == BandRate(LONG_TERM_DEDUCTION_RATES[if holdingYears >= 11 then 8 else holdingYears - 3], isOneHouseWithResidence)
  {
    if holdingYears < 3 then 0
    else
      var i := FirstBandIndex(LONG_TERM_DEDUCTION_RATES, holdingYears);
      BandOfHoldingYears(holdingYears);
      BandRate(LONG_TERM_DEDUCTION_RATES[i], isOneHouseWithResidence)
  }

  /** With one band per year from 3 to 11, the band of `h` years is band `h - 3`, or the last. */
  lemma BandOfHoldingYears(holdingYears: int)
    requires holdingYears >= 3
    ensures FirstBandIndex(LONG_TERM_DEDUCTION_RATES, holdingYears) == if holdingYears >= 11 then 8 else holdingYears - 3
  {
    var ls := LONG_TERM_DEDUCTION_RATES;
    DeductionBandsWellFormed();
    var k := if holdingYears >= 11 then 8 else holdingYears - 3;
    forall j | 0 <= j < k ensures !InBand(ls[j], holdingYears) {
      assert ls[j].maxYears == Some(3 + j + 1);
    }
    if k < 8 {
      assert InBand(ls[k], holdingYears);
    }
  }

  /**
   * `getLongTermDeductionRate`: the first band containing the holding years. The last band is
   * open-ended, so the search ends there at the latest; that is the source's fall-back to the
   * highest band, and its empty-table branch cannot arise.
   */
  method GetLongTermDeductionRate(holdingYears: int, isOneHouseWithResidence: bool) returns (rate: int)
    ensures rate == LongTermDeductionRate(holdingYears, isOneHouseWithResidence)
  {
    if holdingYears < 3 {
      return 0;
    }
    var i := 0;
    while i < |LONG_TERM_DEDUCTION_RATES| - 1 && !InBand(LONG_TERM_DEDUCTION_RATES[i], holdingYears)
      invariant 0 <= i <= |LONG_TERM_DEDUCTION_RATES| - 1
      invariant forall j :: 0 <= j < i ==> !InBand(LONG_TERM_DEDUCTION_RATES[j], holdingYears)
    {
      i := i + 1;
    }
    rate := BandRate(LONG_TERM_DEDUCTION_RATES[i], isOneHouseWithResidence);
  }

  /**
   * Closed form of the table: 10% at three years, 4h - 4 percent from four to eleven years,
   * 40% from eleven years on; a resident single-house household gets 12 points more.
   */
  lemma LongTermDeductionClosedForm(holdingYears: int)
    requires holdingYears >= 3
    ensures LongTermDeductionRate(holdingYears, false) ==
      if holdingYears == 3 then 10 else if holdingYears >= 11 then 40 else 4 * holdingYears - 4
    ensures LongTermDeductionRate(holdingYears, true) == LongTermDeductionRate(holdingYears, false) + 12
  {
    var ls := LONG_TERM_DEDUCTION_RATES;
    var i := if holdingYears >= 11 then 8 else holdingYears - 3;
    assert LongTermDeductionRate(holdingYears, false) == ls[i].generalRate;
    assert LongTermDeductionRate(holdingYears, true) == ls[i].residenceRate.value;
    if i == 0 {
    } else if i < 8 {
      assert ls[i].generalRate == 4 * i + 8 by {
        assert i in {1, 2, 3, 4, 5, 6, 7};
      }
    }
    assert ls[i].residenceRate.value == ls[i].generalRate + 12 by {
      assert i in {0, 1, 2, 3, 4, 5, 6, 7, 8};
    }
  }

  /** Holding longer never lowers the deduction rate, and the residence rate is never below the general one. */
  lemma LongTermDeductionMonotone(h1: int, h2: int, isOneHouseWithResidence: bool)
    requires h1 <= h2
    ensures LongTermDeductionRate(h1, isOneHouseWithResidence) <= LongTermDeductionRate(h2, isOneHouseWithResidence)
    ensures LongTermDeductionRate(h1, false) <= LongTermDeductionRate(h1, true)
    ensures 0 <= LongTermDeductionRate(h1, isOneHouseWithResidence) <= 52
  {
    if h1 >= 3 {
      LongTermDeductionClosedForm(h1);
      LongTermDeductionClosedForm(h2);
    }
  }

  // ---------------------------------------------------------------------------
  // Heavy rates and the final rate

  /** `getShortTermHeavyTaxRate`: 50% under one year, 40% under two years, none from two years on. */
  function ShortTermHeavyRate(holdingYears: int): (r: Option<int>)
    ensures r.Some? <==> holdingYears < 2
    ensures r == Some(SHORT_TERM_UNDER_ONE_YEAR) <==> holdingYears < 1
    ensures r == Some(SHORT_TERM_ONE_TO_TWO_YEARS) <==> holdingYears == 1
  {
    if holdingYears < 1 then Some(50)
    else if holdingYears < 2 then Some(40)
    else None
  }

  /** `getMultipleHouseSurcharge`: only in an adjustment-target area and only for two or more houses. */
  function MultipleHouseSurcharge(houseCount: int, isAdjustmentTargetArea: bool): (r: int)
    ensures r != 0 <==> isAdjustmentTargetArea && houseCount >= 2
    ensures r == SURCHARGE_TWO_HOUSES <==> isAdjustmentTargetArea && houseCount == 2
    ensures r == SURCHARGE_THREE_OR_MORE_HOUSES <==> isAdjustmentTargetArea && houseCount >= 3
  {
    if !isAdjustmentTargetArea || houseCount <= 1 then 0
    else if houseCount == 2 then 20
    else 30
  }

  /** `getFinalTaxRate`: a short-term heavy rate wins; otherwise the marginal rate plus the surcharge, capped at 70%. */
  function FinalTaxRate(taxableIncome: int, holdingYears: int, houseCount: int, isAdjustmentTargetArea: bool): (r: int)
    ensures 0 <= r <= 70
    ensures holdingYears < 2 ==> Some(r) == ShortTermHeavyRate(holdingYears)
    ensures holdingYears >= 2 ==> r >= MarginalTaxRate(taxableIncome)
    ensures holdingYears >= 2 && (!isAdjustmentTargetArea || houseCount <= 1) ==> r == MarginalTaxRate(taxableIncome)
    ensures holdingYears >= 2 ==>
      r == Min(MarginalTaxRate(taxableIncome) + MultipleHouseSurcharge(houseCount, isAdjustmentTargetArea), 70)
  {
    var shortTermRate := ShortTermHeavyRate(holdingYears);
    if shortTermRate.Some? && shortTermRate.value != 0 then shortTermRate.value
    else
      var basicRate := MarginalTaxRate(taxableIncome);
      assert basicRate <= 45 by {
        BasicTaxRatesWellFormed();
      }
      var surcharge := MultipleHouseSurcharge(houseCount, isAdjustmentTargetArea);
      Min(basicRate + surcharge, 70)
  }

  /** `getFinalTaxRate`, calling the marginal-rate search. */
  method GetFinalTaxRate(taxableIncome: int, holdingYears: int, houseCount: int, isAdjustmentTargetArea: bool)
    returns (rate: int)
    ensures rate == FinalTaxRate(taxableIncome, holdingYears, houseCount, isAdjustmentTargetArea)
  {
    var shortTermRate := ShortTermHeavyRate(holdingYears);
    if shortTermRate.Some? && shortTermRate.value != 0 {
      return shortTermRate.value;
    }
    var basicRate := GetMarginalTaxRate(taxableIncome);
    var surcharge := MultipleHouseSurcharge(houseCount, isAdjustmentTargetArea);
    rate := Min(basicRate + surcharge, 70);
  }

  /** Bases above 500,000,000 won, and only those, are taxed at a marginal rate of 42% or more. */
  lemma MarginalRateAtLeastFortyTwo(taxableIncome: int)
    ensures MarginalTaxRate(taxableIncome) <= 45
    ensures MarginalTaxRate(taxableIncome) >= 42 <==> taxableIncome > 500_000_000
  {
    if taxableIncome > 0 {
      var m := MarginalTaxRate(taxableIncome);
      var i :| 0 <= i < |BASIC_TAX_RATES| && BracketHolds(BASIC_TAX_RATES[i], taxableIncome) &&
        MarginalTaxRate(taxableIncome) == BASIC_TAX_RATES[i].rate;
    }
  }

  /**
   * From two years of holding, the 70% cap binds exactly for three or more houses in an
   * adjustment-target area on a base above 500,000,000 won, and the rate is then 70%.
   */
  lemma FinalTaxRateCapBinds(taxableIncome: int, holdingYears: int, houseCount: int, isAdjustmentTargetArea: bool)
    requires holdingYears >= 2
    ensures FinalTaxRate(taxableIncome, holdingYears, houseCount, isAdjustmentTargetArea) ==
      MarginalTaxRate(taxableIncome) + MultipleHouseSurcharge(houseCount, isAdjustmentTargetArea)
      <==> !(isAdjustmentTargetArea && houseCount >= 3 && taxableIncome > 500_000_000)
    ensures isAdjustmentTargetArea && houseCount >= 3 && taxableIncome > 500_000_000 ==>
      FinalTaxRate(taxableIncome, holdingYears, houseCount, isAdjustmentTargetArea) == 70
  {
    MarginalRateAtLeastFortyTwo(taxableIncome);
  }

  /** Final-rate values from the unit tests. */
  lemma FinalTaxRateExamples()
    ensures FinalTaxRate(50_000_000, 0, 1, false) == 50
    ensures FinalTaxRate(50_000_000, 1, 1, false) == 40
    ensures FinalTaxRate(60_000_000, 5, 2, true) == 44
    ensures FinalTaxRate(60_000_000, 5, 3, true) == 54
    ensures FinalTaxRate(2_000_000_000, 5, 3, true) == 70
    ensures FinalTaxRate(60_000_000, 5, 3, false) == 24
  {
    MarginalTaxRateClosedForm(60_000_000);
    MarginalTaxRateClosedForm(2_000_000_000);
  }

  // ---------------------------------------------------------------------------
  // Flat tax and the high-value house share

  /** `calculateFlatTax`: the base times the rate, rounded down to a whole won. */
  function FlatTax(taxableIncome: int, taxRate: int): (r: int)
    ensures 100 * r <= taxableIncome * taxRate < 100 * r + 100
  {
    (taxableIncome * taxRate) / 100
  }

  /**
   * `calculateHighValueHouseTaxableGains`: nothing at or below the exemption limit; above it,
   * the gain times the share of the price above the limit, rounded down.
   */
  function HighValueHouseTaxableGains(totalGains: int, transferPrice: int, exemptionLimit: int): (r: int)
    requires exemptionLimit >= 0
    ensures transferPrice <= exemptionLimit ==> r == 0
    ensures transferPrice > exemptionLimit ==>
      r * transferPrice <= totalGains * (transferPrice - exemptionLimit) < r * transferPrice + transferPrice
  {
    if transferPrice <= exemptionLimit then 0
    else (totalGains * (transferPrice - exemptionLimit)) / transferPrice
  }

  lemma MulLeft(a: int, b: int, c: int)
    requires a <= b && c >= 0
    ensures a * c <= b * c
  {
  }

  lemma CancelPositive(a: int, b: int, c: int)
    requires c > 0
    ensures a * c <= b * c ==> a <= b
    ensures a * c < b * c ==> a < b
  {
    if a > b {
      MulLeft(b + 1, a, c);
    }
    if a >= b {
      MulLeft(b, a, c);
    }
  }

  /** The taxable share of a non-negative gain lies between 0 and the whole gain. */
  lemma HighValueShareWithinGain(totalGains: int, transferPrice: int, exemptionLimit: int)
    requires exemptionLimit >= 0 && totalGains >= 0
    ensures 0 <= HighValueHouseTaxableGains(totalGains, transferPrice, exemptionLimit) <= totalGains
  {
    if transferPrice > exemptionLimit {
      var r := HighValueHouseTaxableGains(totalGains, transferPrice, exemptionLimit);
      QuotientWithinWhole(r, totalGains, transferPrice - exemptionLimit, transferPrice);
    }
  }

  /** The floor of g * s / p lies between 0 and g when 0 <= s <= p. */
  lemma QuotientWithinWhole(r: int, g: int, s: int, p: int)
    requires g >= 0 && 0 <= s <= p && p > 0
    requires r * p <= g * s < r * p + p
    ensures 0 <= r <= g
  {
    MulLeft(s, p, g);
    assert g * s == s * g;
    assert r * p <= g * p;
    CancelPositive(r, g, p);
    assert 0 <= g * s;
    assert (-1) * p < r * p;
    CancelPositive(-1, r, p);
  }

  /** The share of the price above the limit grows with the price: (p1 - l) / p1 <= (p2 - l) / p2, cross-multiplied. */
  lemma CrossMultipliedShares(g: int, l: int, p1: int, p2: int)
    requires g >= 0 && l >= 0 && 0 < p1 <= p2
    ensures (g * (p1 - l)) * p2 <= (g * (p2 - l)) * p1
  {
    assert (g * (p1 - l)) * p2 == g * p1 * p2 - g * l * p2;
    assert (g * (p2 - l)) * p1 == g * p1 * p2 - g * l * p1;
    MulLeft(p1, p2, g * l);
    assert g * l * p1 == p1 * (g * l) && g * l * p2 == p2 * (g * l);
  }

  /** A higher transfer price never lowers the taxable share of the same gain. */
  lemma HighValueShareGrowsWithPrice(totalGains: int, price1: int, price2: int, exemptionLimit: int)
    requires exemptionLimit >= 0 && totalGains >= 0 && price1 <= price2
    ensures HighValueHouseTaxableGains(totalGains, price1, exemptionLimit) <= HighValueHouseTaxableGains(totalGains, price2, exemptionLimit)
  {
    HighValueShareWithinGain(totalGains, price2, exemptionLimit);
    if price1 > exemptionLimit {
      var r1 := HighValueHouseTaxableGains(totalGains, price1, exemptionLimit);
      var r2 := HighValueHouseTaxableGains(totalGains, price2, exemptionLimit);
      CrossMultipliedShares(totalGains, exemptionLimit, price1, price2);
      QuotientsOrdered(r1, r2, totalGains * (price1 - exemptionLimit), totalGains * (price2 - exemptionLimit), price1, price2);
    }
  }

  /** Floor quotients a1 / p1 and a2 / p2 keep the order of the fractions a1 / p1 <= a2 / p2. */
  lemma QuotientsOrdered(r1: int, r2: int, a1: int, a2: int, p1: int, p2: int)
    requires 0 < p1 <= p2
    requires r1 * p1 <= a1 && a2 < r2 * p2 + p2
    requires a1 * p2 <= a2 * p1
    ensures r1 <= r2
  {
    MulLeft(r1 * p1, a1, p2);
    MulLeft(a2, r2 * p2 + p2 - 1, p1);
    assert (r1 * p1) * p2 == (r1 * p2) * p1;
    assert (r2 * p2 + p2) * p1 == ((r2 + 1) * p2) * p1;
    CancelPositive(r1 * p2, (r2 + 1) * p2, p1);
    CancelPositive(r1, r2 + 1, p2);
  }

  /** Values from the unit tests with a 1,000,000,000 won gain. */
  lemma HighValueExamples()
    ensures HighValueHouseTaxableGains(1_000_000_000, 1_000_000_000, ONE_HOUSE_EXEMPTION_LIMIT) == 0
    ensures HighValueHouseTaxableGains(1_000_000_000, 1_500_000_000, ONE_HOUSE_EXEMPTION_LIMIT) == 200_000_000
    ensures HighValueHouseTaxableGains(1_000_000_000, 2_400_000_000, ONE_HOUSE_EXEMPTION_LIMIT) == 500_000_000
  {
  }
}
