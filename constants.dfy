/**
 * Statutory constants of the Korean capital-gains tax on real estate: the basic deduction,
 * the one-house exemption limit, the progressive bracket table, the long-term holding
 * deduction bands, the short-term and multiple-house heavy rates, the residence-requirement
 * cut-off date and the error codes.
 */
module Constants {
  import opened Wrappers

  /** Basic deduction subtracted from the taxable gain, in won. */
  const BASIC_DEDUCTION: int := 2_500_000

  /** Transfer price up to which a qualifying single house is fully exempt, in won. */
  const ONE_HOUSE_EXEMPTION_LIMIT: int := 1_200_000_000

  /** One row of the progressive rate table; `maxAmount == None` is an unbounded bracket. */
  datatype TaxBracket = TaxBracket(minAmount: int, maxAmount: Option<int>, rate: int)

  const BASIC_TAX_RATES: seq<TaxBracket> := [
    TaxBracket(0, Some(14_000_000), 6),
    TaxBracket(14_000_000, Some(50_000_000), 15),
    TaxBracket(50_000_000, Some(88_000_000), 24),
    TaxBracket(88_000_000, Some(150_000_000), 35),
    TaxBracket(150_000_000, Some(300_000_000), 38),
    TaxBracket(300_000_000, Some(500_000_000), 40),
    TaxBracket(500_000_000, Some(1_000_000_000), 42),
    TaxBracket(1_000_000_000, None, 45)
  ]

  /** Heavy rate for a holding period under one year, in percent. */
  const SHORT_TERM_UNDER_ONE_YEAR: int := 50
  /** Heavy rate for a holding period of one to two years, in percent. */
  const SHORT_TERM_ONE_TO_TWO_YEARS: int := 40

  /** Surcharge for two houses in an adjustment-target area, in percentage points. */
  const SURCHARGE_TWO_HOUSES: int := 20
  /** Surcharge for three or more houses in an adjustment-target area, in percentage points. */
  const SURCHARGE_THREE_OR_MORE_HOUSES: int := 30

  /**
   * One band of the long-term holding deduction: holding years in [minYears, maxYears)
   * (`maxYears == None` is open-ended), the general rate and the rate for a single-house
   * household that lived in the house.
   */
  datatype DeductionBand = DeductionBand(minYears: int, maxYears: Option<int>, generalRate: int, residenceRate: Option<int>)

  const LONG_TERM_DEDUCTION_RATES: seq<DeductionBand> := [
    DeductionBand(3, Some(4), 10, Some(22)),
    DeductionBand(4, Some(5), 12, Some(24)),
    DeductionBand(5, Some(6), 16, Some(28)),
    DeductionBand(6, Some(7), 20, Some(32)),
    DeductionBand(7, Some(8), 24, Some(36)),
    DeductionBand(8, Some(9), 28, Some(40)),
    DeductionBand(9, Some(10), 32, Some(44)),
    DeductionBand(10, Some(11), 36, Some(48)),
    DeductionBand(11, None, 40, Some(52))
  ]

  /** Acquisitions in an adjustment-target area after this date carry a residence requirement. */
  const RESIDENCE_REQUIREMENT_DATE: string := "2017-08-03"

  /** The error codes of the validator and of the calculator's fault path. */
  datatype ErrorCode =
    | InvalidDateFormat
    | InvalidAmount
    | MissingRequiredField
    | InvalidPropertyType
    | InvalidHouseholdType
    | InvalidHoldingPeriod
    | CalculationError

  /** The wire spelling of each error code. */
  function CodeName(code: ErrorCode): string {
    match code
    case InvalidDateFormat => "INVALID_DATE_FORMAT"
    case InvalidAmount => "INVALID_AMOUNT"
    case MissingRequiredField => "MISSING_REQUIRED_FIELD"
    case InvalidPropertyType => "INVALID_PROPERTY_TYPE"
    case InvalidHouseholdType => "INVALID_HOUSEHOLD_TYPE"
    case InvalidHoldingPeriod => "INVALID_HOLDING_PERIOD"
    case CalculationError => "CALCULATION_ERROR"
  }

  // ---------------------------------------------------------------------------
  // Well-formedness of the tables

  /** The upper bound of a bracket, if any, is at least `x`. */
  predicate AtOrBelowCeiling(b: TaxBracket, x: int) {
    b.maxAmount.None? || x <= b.maxAmount.value
  }

  /**
   * A bracket table that can be applied bracket by bracket: non-empty, every bracket but the
   * last ends where the next begins and is wider than zero, the last is unbounded, and no
   * rate is negative.
   */
  ghost predicate WellFormedBrackets(bs: seq<TaxBracket>) {
    && |bs| > 0
    && bs[|bs| - 1].maxAmount.None?
    && (forall i :: 0 <= i < |bs| - 1 ==>
          bs[i].maxAmount == Some(bs[i + 1].minAmount) && bs[i].minAmount < bs[i + 1].minAmount)
    && (forall i :: 0 <= i < |bs| ==> bs[i].rate >= 0)
  }

  /** The statutory bracket table starts at 0, is contiguous, only its last bracket is unbounded, and its rates strictly increase. */
  lemma BasicTaxRatesWellFormed()
    ensures WellFormedBrackets(BASIC_TAX_RATES)
    ensures BASIC_TAX_RATES[0].minAmount == 0
    ensures forall i :: 0 <= i < |BASIC_TAX_RATES| - 1 ==> BASIC_TAX_RATES[i].maxAmount.Some?
    ensures forall i :: 0 <= i < |BASIC_TAX_RATES| - 1 ==> BASIC_TAX_RATES[i].rate < BASIC_TAX_RATES[i + 1].rate
    ensures forall i :: 0 <= i < |BASIC_TAX_RATES| ==> 6 <= BASIC_TAX_RATES[i].rate <= 45
  {
    var bs := BASIC_TAX_RATES;
    forall i | 0 <= i < |bs|
      ensures 6 <= bs[i].rate <= 45
    {
      assert i in {0, 1, 2, 3, 4, 5, 6, 7};
    }
    forall i | 0 <= i < |bs| - 1
      ensures bs[i].maxAmount == Some(bs[i + 1].minAmount) && bs[i].minAmount < bs[i + 1].minAmount
      ensures bs[i].rate < bs[i + 1].rate
    {
      assert i in {0, 1, 2, 3, 4, 5, 6};
    }
  }

  /**
   * A deduction table whose band `i` covers exactly holding year `first + i`, except the last
   * band, which is open-ended; every band has a residence rate, at least its general rate, and
   * both rates increase from band to band.
   */
  ghost predicate UnitBandsFrom(ls: seq<DeductionBand>, first: int) {
    && |ls| > 0
    && (forall i :: 0 <= i < |ls| ==> ls[i].minYears == first + i)
    && (forall i :: 0 <= i < |ls| - 1 ==> ls[i].maxYears == Some(first + i + 1))
    && ls[|ls| - 1].maxYears.None?
    && (forall i :: 0 <= i < |ls| ==>
          ls[i].residenceRate.Some? && ls[i].residenceRate.value >= ls[i].generalRate >= 0)
    && (forall i :: 0 <= i < |ls| - 1 ==>
          ls[i].generalRate < ls[i + 1].generalRate && ls[i].residenceRate.value < ls[i + 1].residenceRate.value)
  }

  /** The statutory deduction bands run year by year from 3 to 11, the last one open-ended. */
  lemma DeductionBandsWellFormed()
    ensures UnitBandsFrom(LONG_TERM_DEDUCTION_RATES, 3)
    ensures |LONG_TERM_DEDUCTION_RATES| == 9
  {
    var ls := LONG_TERM_DEDUCTION_RATES;
    forall i | 0 <= i < |ls|
      ensures ls[i].minYears == 3 + i
      ensures i < |ls| - 1 ==> ls[i].maxYears == Some(3 + i + 1)
      ensures ls[i].residenceRate.Some? && ls[i].residenceRate.value >= ls[i].generalRate >= 0
    {
      assert i in {0, 1, 2, 3, 4, 5, 6, 7, 8};
    }
    forall i | 0 <= i < |ls| - 1
      ensures ls[i].generalRate < ls[i + 1].generalRate
      ensures ls[i].residenceRate.value < ls[i + 1].residenceRate.value
    {
      assert i in {0, 1, 2, 3, 4, 5, 6, 7};
    }
  }
}
