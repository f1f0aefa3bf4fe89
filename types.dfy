/**
 * The records that flow through one capital-gains calculation: the property, transaction,
 * owner and option inputs, the validator's field-tagged errors, and the calculation result
 * with its exemptions and its ordered step trace.
 */
module Types {
  import opened Wrappers
  import opened Constants

  // ---------------------------------------------------------------------------
  // Inputs. Dates are kept as the strings the caller sent; "" stands for a missing value.

  datatype Location = Location(city: string, district: string, isAdjustmentTargetArea: bool)

  /** Total and exclusive floor area, in square metres. */
  datatype Area = Area(totalArea: real, exclusiveArea: real)

  datatype PropertyInfo = PropertyInfo(
    propertyType: string,
    acquisitionPrice: int,
    acquisitionDate: string,
    location: Location,
    area: Area)

  /** The five optional necessary-expense amounts, in won. */
  datatype NecessaryExpenses = NecessaryExpenses(
    brokerageFee: Option<int>,
    improvementCosts: Option<int>,
    capitalExpenditures: Option<int>,
    acquisitionTax: Option<int>,
    other: Option<int>)

  datatype TransactionInfo = TransactionInfo(
    transferPrice: int,
    transferDate: string,
    necessaryExpenses: NecessaryExpenses)

  datatype ResidencePeriod = ResidencePeriod(start: string, end: string)

  datatype OwnerInfo = OwnerInfo(
    householdType: string,
    residencePeriod: Option<ResidencePeriod>,
    isLongTermRental: Option<bool>,
    rentalPeriod: Option<real>)

  datatype CalculationOptions = CalculationOptions(
    calculationDate: Option<string>,
    includeDetails: Option<bool>,
    taxLawVersion: Option<string>)

  const PROPERTY_TYPES: seq<string> := ["apartment", "house", "land", "commercial"]

  const ONE_HOUSEHOLD_ONE_HOUSE: string := "1household1house"
  const MULTIPLE_HOUSES: string := "multiple"
  const TEMPORARY_TWO_HOUSES: string := "temporary2house"
  const HOUSEHOLD_TYPES: seq<string> := [ONE_HOUSEHOLD_ONE_HOUSE, MULTIPLE_HOUSES, TEMPORARY_TWO_HOUSES]

  // ---------------------------------------------------------------------------
  // Expense fields, in the order the validator visits them

  datatype ExpenseKind = BrokerageFee | ImprovementCosts | CapitalExpenditures | AcquisitionTax | OtherExpense

  /** The amount recorded for one expense kind, if any. */
  function ExpenseAmount(e: NecessaryExpenses, kind: ExpenseKind): Option<int> {
    match kind
    case BrokerageFee => e.brokerageFee
    case ImprovementCosts => e.improvementCosts
    case CapitalExpenditures => e.capitalExpenditures
    case AcquisitionTax => e.acquisitionTax
    case OtherExpense => e.other
  }

  /** The position of each expense kind in the validator's field list. */
  function KindOrder(kind: ExpenseKind): nat {
    match kind
    case BrokerageFee => 0
    case ImprovementCosts => 1
    case CapitalExpenditures => 2
    case AcquisitionTax => 3
    case OtherExpense => 4
  }

  /** The expense fields as (kind, amount) pairs, in the order the validator visits them. */
  function ExpenseEntries(e: NecessaryExpenses): (entries: seq<(ExpenseKind, Option<int>)>)
    ensures |entries| == 5
  {
    [ (BrokerageFee, e.brokerageFee),
      (ImprovementCosts, e.improvementCosts),
      (CapitalExpenditures, e.capitalExpenditures),
      (AcquisitionTax, e.acquisitionTax),
      (OtherExpense, e.other)]
  }

  /** Every expense kind appears exactly once, at its position, with its amount. */
  lemma ExpenseEntriesCoverEveryKind(e: NecessaryExpenses)
    ensures forall i :: 0 <= i < |ExpenseEntries(e)| ==> ExpenseEntries(e)[i].1 == ExpenseAmount(e, ExpenseEntries(e)[i].0)
    ensures forall i :: 0 <= i < |ExpenseEntries(e)| ==> KindOrder(ExpenseEntries(e)[i].0) == i
    ensures forall kind :: KindOrder(kind) < 5 && ExpenseEntries(e)[KindOrder(kind)].0 == kind
  {
  }

  // ---------------------------------------------------------------------------
  // Validation errors

  /** The input fields an error can be tagged with. */
  datatype Field =
    | PropertyTypeField
    | AcquisitionPriceField
    | AcquisitionDateField
    | CityField
    | DistrictField
    | TotalAreaField
    | ExclusiveAreaField
    | TransferPriceField
    | TransferDateField
    | ExpenseField(kind: ExpenseKind)
    | HouseholdTypeField
    | ResidenceStartField
    | ResidenceEndField
    | RentalPeriodField
    | CalculationDateField

  /** The section of the input a field belongs to, in the order the sections are validated. */
  datatype Section = PropertySection | TransactionSection | OwnerSection | OptionsSection

  function SectionOf(f: Field): Section {
    match f
    case PropertyTypeField | AcquisitionPriceField | AcquisitionDateField | CityField
      | DistrictField | TotalAreaField | ExclusiveAreaField => PropertySection
    case TransferPriceField | TransferDateField | ExpenseField(_) => TransactionSection
    case HouseholdTypeField | ResidenceStartField | ResidenceEndField | RentalPeriodField => OwnerSection
    case CalculationDateField => OptionsSection
  }

  function SectionRank(s: Section): nat {
    match s
    case PropertySection => 0
    case TransactionSection => 1
    case OwnerSection => 2
    case OptionsSection => 3
  }

  function ExpenseName(kind: ExpenseKind): string {
    match kind
    case BrokerageFee => "brokerageFee"
    case ImprovementCosts => "improvementCosts"
    case CapitalExpenditures => "capitalExpenditures"
    case AcquisitionTax => "acquisitionTax"
    case OtherExpense => "other"
  }

  /** The dotted field path reported to callers. */
  function FieldPath(f: Field): string {
    match f
    case PropertyTypeField => "property.type"
    case AcquisitionPriceField => "property.acquisitionPrice"
    case AcquisitionDateField => "property.acquisitionDate"
    case CityField => "property.location.city"
    case DistrictField => "property.location.district"
    case TotalAreaField => "property.area.totalArea"
    case ExclusiveAreaField => "property.area.exclusiveArea"
    case TransferPriceField => "transaction.transferPrice"
    case TransferDateField => "transaction.transferDate"
    case ExpenseField(kind) => "transaction.necessaryExpenses." + ExpenseName(kind)
    case HouseholdTypeField => "owner.householdType"
    case ResidenceStartField => "owner.residencePeriod.start"
    case ResidenceEndField => "owner.residencePeriod.end"
    case RentalPeriodField => "owner.rentalPeriod"
    case CalculationDateField => "options.calculationDate"
  }

  datatype ValidationError = ValidationError(field: Field, code: ErrorCode)

  datatype ValidationResult = ValidationResult(isValid: bool, errors: seq<ValidationError>)

  // ---------------------------------------------------------------------------
  // Calculation result

  /** The stable identifiers of the trace steps. */
  datatype StepId =
    | CapitalGainsStep
    | OneHouseFullExemptionStep
    | OneHousePartialExemptionStep
    | LongTermDeductionStep
    | TaxableGainsStep
    | TaxBaseStep
    | CalculatedTaxStep

  /** The wire spelling of each step identifier. */
  function StepIdName(id: StepId): string {
    match id
    case CapitalGainsStep => "capital_gains"
    case OneHouseFullExemptionStep => "one_house_full_exemption"
    case OneHousePartialExemptionStep => "one_house_partial_exemption"
    case LongTermDeductionStep => "long_term_deduction"
    case TaxableGainsStep => "taxable_gains"
    case TaxBaseStep => "tax_base"
    case CalculatedTaxStep => "calculated_tax"
  }

  /** One trace entry: which step, and the amount it produced (in won). */
  datatype CalculationStep = CalculationStep(id: StepId, amount: real)

  datatype ExemptionType = FullExemption | PartialExemption | Reduction

  datatype TaxExemption = TaxExemption(kind: ExemptionType, amount: int)

  datatype CapitalGainsCalculation = CapitalGainsCalculation(
    capitalGains: int,
    longTermDeduction: int,
    taxableGains: int,
    basicDeduction: int,
    taxableIncome: int,
    applicableTaxRate: int,
    calculatedTax: real,
    finalTax: real,
    exemptions: seq<TaxExemption>,
    calculationSteps: seq<CalculationStep>)

  const VALIDATION_FAILED: string := "VALIDATION_FAILED"

  /** Either the calculation, or a failure carrying a stable error code. */
  datatype CalculationResult = Success(data: CapitalGainsCalculation) | Failure(code: string)

  /** The step identifiers of a trace, in order. */
  function StepIds(steps: seq<CalculationStep>): (ids: seq<StepId>)
    ensures |ids| == |steps|
    ensures forall i :: 0 <= i < |steps| ==> ids[i] == steps[i].id
  {
    if steps == [] then [] else [steps[0].id] + StepIds(steps[1..])
  }
}
