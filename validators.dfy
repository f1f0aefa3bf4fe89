/**
 * Input validation for one calculation request: the property, transaction, owner and option
 * sections are checked field by field, each failed check appending one field-tagged error, and
 * the four lists are concatenated in section order.
 *
 * Each `Validate…` method builds its list step by step and is proved equal to a specification
 * function (`…Errors`); the lemmas characterise those functions: which error a field gets
 * exactly when, and that a section passes exactly when it is well formed.
 *
 * Numbers the caller leaves out are represented by 0 and dates the caller leaves out by "",
 * which the checks treat exactly as they treat a missing value.
 */
module Validators {
  import opened Wrappers
  import opened Constants
  import opened Types
  import opened DateUtils

  function ErrorIf(failed: bool, field: Field, code: ErrorCode): seq<ValidationError> {
    if failed then [ValidationError(field, code)] else []
  }

  // ---------------------------------------------------------------------------
  // Property section

  /** The error list of `validatePropertyInfo`, in check order. */
  function PropertyErrors(p: PropertyInfo): seq<ValidationError> {
    IdentityErrors(p) + LocationErrors(p.location) + AreaErrors(p.area)
  }

  /** The checks on the type, the acquisition price and the acquisition date. */
  function IdentityErrors(p: PropertyInfo): seq<ValidationError> {
    ErrorIf(p.propertyType !in PROPERTY_TYPES, PropertyTypeField, InvalidPropertyType)
    + ErrorIf(p.acquisitionPrice <= 0, AcquisitionPriceField, InvalidAmount)
    + RequiredDateErrors(p.acquisitionDate, AcquisitionDateField)
  }

  function LocationErrors(l: Location): seq<ValidationError> {
    ErrorIf(l.city == "", CityField, MissingRequiredField)
    + ErrorIf(l.district == "", DistrictField, MissingRequiredField)
  }

  /** A required date: missing when empty, otherwise it must be a valid date. */
  function RequiredDateErrors(date: string, field: Field): seq<ValidationError> {
    if date == "" then [ValidationError(field, MissingRequiredField)]
    else ErrorIf(!IsValidDateFormat(date), field, InvalidDateFormat)
  }

  /** Both areas must be positive and, when both are given (non-zero), the exclusive area at most the total. */
  function AreaErrors(a: Area): seq<ValidationError> {
    ErrorIf(a.totalArea <= 0.0, TotalAreaField, InvalidAmount)
    + ErrorIf(a.exclusiveArea <= 0.0, ExclusiveAreaField, InvalidAmount)
    + ErrorIf(a.exclusiveArea != 0.0 && a.totalArea != 0.0 && a.exclusiveArea > a.totalArea,
              ExclusiveAreaField, InvalidAmount)
  }

  /** `validatePropertyInfo`. */
  method ValidatePropertyInfo(property: PropertyInfo) returns (r: ValidationResult)
    ensures r.errors == PropertyErrors(property)
    ensures r.isValid <==> r.errors == []
  {
    var errors: seq<ValidationError> := [];
    if property.propertyType !in PROPERTY_TYPES {
      errors := errors + [ValidationError(PropertyTypeField, InvalidPropertyType)];
    }
    if property.acquisitionPrice <= 0 {
      errors := errors + [ValidationError(AcquisitionPriceField, InvalidAmount)];
    }
    if property.acquisitionDate == "" {
      errors := errors + [ValidationError(AcquisitionDateField, MissingRequiredField)];
    } else if !IsValidDateFormat(property.acquisitionDate) {
      errors := errors + [ValidationError(AcquisitionDateField, InvalidDateFormat)];
    }
    assert errors == IdentityErrors(property);
    errors := CheckLocation(errors, property.location);
    errors := CheckArea(errors, property.area);
    r := ValidationResult(|errors| == 0, errors);
  }

  /** The location checks of `validatePropertyInfo`, appending to the errors found so far. */
  method CheckLocation(errors: seq<ValidationError>, location: Location) returns (result: seq<ValidationError>)
    ensures result == errors + LocationErrors(location)
  {
    result := errors;
    if location.city == "" {
      result := result + [ValidationError(CityField, MissingRequiredField)];
    }
    if location.district == "" {
      result := result + [ValidationError(DistrictField, MissingRequiredField)];
    }
  }

  /** The area checks of `validatePropertyInfo`, appending to the errors found so far. */
  method CheckArea(errors: seq<ValidationError>, area: Area) returns (result: seq<ValidationError>)
    ensures result == errors + AreaErrors(area)
  {
    result := errors;
    if area.totalArea <= 0.0 {
      result := result + [ValidationError(TotalAreaField, InvalidAmount)];
    }
    if area.exclusiveArea <= 0.0 {
      result := result + [ValidationError(ExclusiveAreaField, InvalidAmount)];
    }
    if area.exclusiveArea != 0.0 && area.totalArea != 0.0 && area.exclusiveArea > area.totalArea {
      result := result + [ValidationError(ExclusiveAreaField, InvalidAmount)];
    }
  }

  /** A property section the calculator can use: known type, positive price, valid date, named location, 0 < exclusive area <= total area. */
  predicate PropertyWellFormed(p: PropertyInfo) {
    && p.propertyType in PROPERTY_TYPES
    && p.acquisitionPrice > 0
    && IsValidDateFormat(p.acquisitionDate)
    && p.location.city != "" && p.location.district != ""
    && p.area.totalArea > 0.0
    && 0.0 < p.area.exclusiveArea <= p.area.totalArea
  }

  /** The property section yields no error exactly when it is well formed. */
  lemma PropertyErrorsEmptyIff(p: PropertyInfo)
    ensures PropertyErrors(p) == [] <==> PropertyWellFormed(p)
  {
    if PropertyWellFormed(p) {
      assert !IsValidDateFormat("");
    }
  }

  /** Each property check in isolation: which error is reported, exactly when. */
  lemma PropertyErrorCauses(p: PropertyInfo)
    ensures ValidationError(PropertyTypeField, InvalidPropertyType) in PropertyErrors(p) <==> p.propertyType !in PROPERTY_TYPES
    ensures ValidationError(AcquisitionPriceField, InvalidAmount) in PropertyErrors(p) <==> p.acquisitionPrice <= 0
    ensures ValidationError(AcquisitionDateField, MissingRequiredField) in PropertyErrors(p) <==> p.acquisitionDate == ""
    ensures ValidationError(AcquisitionDateField, InvalidDateFormat) in PropertyErrors(p) <==>
      p.acquisitionDate != "" && !IsValidDateFormat(p.acquisitionDate)
    ensures ValidationError(CityField, MissingRequiredField) in PropertyErrors(p) <==> p.location.city == ""
    ensures ValidationError(DistrictField, MissingRequiredField) in PropertyErrors(p) <==> p.location.district == ""
    ensures ValidationError(TotalAreaField, InvalidAmount) in PropertyErrors(p) <==> p.area.totalArea <= 0.0
    ensures ValidationError(ExclusiveAreaField, InvalidAmount) in PropertyErrors(p) <==>
      p.area.exclusiveArea <= 0.0 || (p.area.totalArea != 0.0 && p.area.exclusiveArea > p.area.totalArea)
  {
    var identity, location, area := IdentityErrors(p), LocationErrors(p.location), AreaErrors(p.area);
    IdentityFields(p);
    AreaFields(p.area);
    assert PropertyErrors(p) == identity + location + area;
    InThreeParts(ValidationError(PropertyTypeField, InvalidPropertyType), identity, location, area);
    InThreeParts(ValidationError(AcquisitionPriceField, InvalidAmount), identity, location, area);
    InThreeParts(ValidationError(AcquisitionDateField, MissingRequiredField), identity, location, area);
    InThreeParts(ValidationError(AcquisitionDateField, InvalidDateFormat), identity, location, area);
    InThreeParts(ValidationError(CityField, MissingRequiredField), identity, location, area);
    InThreeParts(ValidationError(DistrictField, MissingRequiredField), identity, location, area);
    InThreeParts(ValidationError(TotalAreaField, InvalidAmount), identity, location, area);
    InThreeParts(ValidationError(ExclusiveAreaField, InvalidAmount), identity, location, area);
  }

  lemma InThreeParts<T>(x: T, a: seq<T>, b: seq<T>, c: seq<T>)
    ensures x in a + b + c <==> x in a || x in b || x in c
  {
  }

  /** Identity errors name only the type, price and acquisition-date fields, each for its own cause. */
  lemma IdentityFields(p: PropertyInfo)
    ensures forall e :: e in IdentityErrors(p) ==>
      e.field == PropertyTypeField || e.field == AcquisitionPriceField || e.field == AcquisitionDateField
    ensures ValidationError(PropertyTypeField, InvalidPropertyType) in IdentityErrors(p) <==> p.propertyType !in PROPERTY_TYPES
    ensures ValidationError(AcquisitionPriceField, InvalidAmount) in IdentityErrors(p) <==> p.acquisitionPrice <= 0
    ensures ValidationError(AcquisitionDateField, MissingRequiredField) in IdentityErrors(p) <==> p.acquisitionDate == ""
    ensures ValidationError(AcquisitionDateField, InvalidDateFormat) in IdentityErrors(p) <==>
      p.acquisitionDate != "" && !IsValidDateFormat(p.acquisitionDate)
  {
  }

  /** Area errors name only the two area fields; the exclusive area fails for either of its two causes. */
  lemma AreaFields(a: Area)
    ensures forall e :: e in AreaErrors(a) ==> e.field == TotalAreaField || e.field == ExclusiveAreaField
    ensures ValidationError(ExclusiveAreaField, InvalidAmount) in AreaErrors(a) <==>
      a.exclusiveArea <= 0.0 || (a.totalArea != 0.0 && a.exclusiveArea > a.totalArea)
  {
  }

  // ---------------------------------------------------------------------------
  // Transaction section

  /** Expense errors for a list of (kind, amount) entries: one per entry with a negative amount, in list order. */
  function ExpenseErrors(entries: seq<(ExpenseKind, Option<int>)>): seq<ValidationError> {
    if entries == [] then []
    else
      var last := entries[|entries| - 1];
      ExpenseErrors(entries[..|entries| - 1])
      + ErrorIf(last.1.Some? && last.1.value < 0, ExpenseField(last.0), InvalidAmount)
  }

  /** The error list of `validateTransactionInfo`, given the property's acquisition date. */
  function TransactionErrors(t: TransactionInfo, acquisitionDate: string): seq<ValidationError> {
    TransferErrors(t, acquisitionDate) + ExpenseErrors(ExpenseEntries(t.necessaryExpenses))
  }

  /** The checks on the transfer price, the transfer date and the order of the two dates. */
  function TransferErrors(t: TransactionInfo, acquisitionDate: string): seq<ValidationError> {
    ErrorIf(t.transferPrice <= 0, TransferPriceField, InvalidAmount)
    + RequiredDateErrors(t.transferDate, TransferDateField)
    + ErrorIf(TransferNotAfterAcquisition(t.transferDate, acquisitionDate), TransferDateField, InvalidDateFormat)
  }

  /** Both dates are given and valid, and the transfer is not strictly after the acquisition. */
  predicate TransferNotAfterAcquisition(transferDate: string, acquisitionDate: string) {
    acquisitionDate != "" && transferDate != "" && IsValidDateFormat(acquisitionDate)
    && IsValidDateFormat(transferDate) && !IsDateBefore(acquisitionDate, transferDate)
  }

  /** `validateTransactionInfo`: price, date, date order, then the expense fields in a loop. */
  method ValidateTransactionInfo(transaction: TransactionInfo, acquisitionDate: string) returns (r: ValidationResult)
    ensures r.errors == TransactionErrors(transaction, acquisitionDate)
    ensures r.isValid <==> r.errors == []
  {
    var errors: seq<ValidationError> := [];
    if transaction.transferPrice <= 0 {
      errors := errors + [ValidationError(TransferPriceField, InvalidAmount)];
    }
    if transaction.transferDate == "" {
      errors := errors + [ValidationError(TransferDateField, MissingRequiredField)];
    } else if !IsValidDateFormat(transaction.transferDate) {
      errors := errors + [ValidationError(TransferDateField, InvalidDateFormat)];
    }
    ghost var checked := errors;
    if acquisitionDate != "" && transaction.transferDate != "" && IsValidDateFormat(acquisitionDate)
      && IsValidDateFormat(transaction.transferDate) && !IsDateBefore(acquisitionDate, transaction.transferDate)
    {
      errors := errors + [ValidationError(TransferDateField, InvalidDateFormat)];
    }
    assert errors == checked + ErrorIf(TransferNotAfterAcquisition(transaction.transferDate, acquisitionDate),
                                       TransferDateField, InvalidDateFormat);
    assert errors == TransferErrors(transaction, acquisitionDate);
    errors := CheckExpenses(errors, transaction.necessaryExpenses);
    r := ValidationResult(|errors| == 0, errors);
  }

  /** The expense loop of `validateTransactionInfo`: one error per negative expense field, in field order. */
  method CheckExpenses(errors: seq<ValidationError>, expenses: NecessaryExpenses) returns (result: seq<ValidationError>)
    ensures result == errors + ExpenseErrors(ExpenseEntries(expenses))
  {
    result := errors;
    var expenseFields := ExpenseEntries(expenses);
    var i := 0;
    while i < |expenseFields|
      invariant 0 <= i <= |expenseFields|
      invariant result == errors + ExpenseErrors(expenseFields[..i])
    {
      var (field, value) := expenseFields[i];
      if value.Some? && value.value < 0 {
        result := result + [ValidationError(ExpenseField(field), InvalidAmount)];
      }
      assert expenseFields[..i + 1][..i] == expenseFields[..i];
      i := i + 1;
    }
    assert expenseFields[..i] == expenseFields;
  }

  /** An entry list whose kinds appear in strictly increasing field order. */
  predicate KindsIncreasing(entries: seq<(ExpenseKind, Option<int>)>) {
    forall i, j :: 0 <= i < j < |entries| ==> KindOrder(entries[i].0) < KindOrder(entries[j].0)
  }

  /** An expense error is reported for exactly the entries with a negative amount. */
  lemma {:induction false} ExpenseErrorsExactly(entries: seq<(ExpenseKind, Option<int>)>, e: ValidationError)
    ensures e in ExpenseErrors(entries) <==>
      exists i :: 0 <= i < |entries| && entries[i].1.Some? && entries[i].1.value < 0 &&
        e == ValidationError(ExpenseField(entries[i].0), InvalidAmount)
  {
    if entries != [] {
      var n := |entries| - 1;
      ExpenseErrorsExactly(entries[..n], e);
      assert forall i :: 0 <= i < n ==> entries[..n][i] == entries[i];
    }
  }

  /** The expense errors follow the order of the expense fields, so no field is reported twice. */
  lemma {:induction false} ExpenseErrorsOrdered(entries: seq<(ExpenseKind, Option<int>)>)
    requires KindsIncreasing(entries)
    ensures forall e :: e in ExpenseErrors(entries) ==> e.field.ExpenseField?
    ensures forall i, j :: 0 <= i < j < |ExpenseErrors(entries)| ==>
      KindOrder(ExpenseErrors(entries)[i].field.kind) < KindOrder(ExpenseErrors(entries)[j].field.kind)
  {
    if entries != [] {
      var n := |entries| - 1;
      var init := entries[..n];
      assert KindsIncreasing(init);
      ExpenseErrorsOrdered(init);
      forall e | e in ExpenseErrors(init)
        ensures e.field.ExpenseField? && KindOrder(e.field.kind) < KindOrder(entries[n].0)
      {
        ExpenseErrorsExactly(init, e);
      }
    }
  }

  /** An expense field is reported exactly when it is present and negative. */
  lemma ExpenseErrorCause(e: NecessaryExpenses, kind: ExpenseKind)
    ensures ValidationError(ExpenseField(kind), InvalidAmount) in ExpenseErrors(ExpenseEntries(e)) <==>
      ExpenseAmount(e, kind).Some? && ExpenseAmount(e, kind).value < 0
  {
    var entries := ExpenseEntries(e);
    ExpenseEntriesCoverEveryKind(e);
    ExpenseErrorsExactly(entries, ValidationError(ExpenseField(kind), InvalidAmount));
    var k := KindOrder(kind);
    assert entries[k].0 == kind && entries[k].1 == ExpenseAmount(e, kind);
  }

  /** No expense field is negative. */
  predicate ExpensesNonNegative(e: NecessaryExpenses) {
    forall kind :: ExpenseAmount(e, kind).Some? ==> ExpenseAmount(e, kind).value >= 0
  }

  /** A transaction section the calculator can use: positive price, valid transfer date strictly after a valid acquisition date, no negative expense. */
  predicate TransactionWellFormed(t: TransactionInfo, acquisitionDate: string) {
    && t.transferPrice > 0
    && IsValidDateFormat(t.transferDate)
    && (IsValidDateFormat(acquisitionDate) ==> IsDateBefore(acquisitionDate, t.transferDate))
    && ExpensesNonNegative(t.necessaryExpenses)
  }

  /** The transaction section yields no error exactly when it is well formed. */
  lemma TransactionErrorsEmptyIff(t: TransactionInfo, acquisitionDate: string)
    ensures TransactionErrors(t, acquisitionDate) == [] <==> TransactionWellFormed(t, acquisitionDate)
  {
    var e := t.necessaryExpenses;
    ExpenseEntriesCoverEveryKind(e);
    assert !IsValidDateFormat("");
    if ExpensesNonNegative(e) {
      if ExpenseErrors(ExpenseEntries(e)) != [] {
        var err := ExpenseErrors(ExpenseEntries(e))[0];
        ExpenseErrorsExactly(ExpenseEntries(e), err);
      }
    } else {
      var kind :| ExpenseAmount(e, kind).Some? && ExpenseAmount(e, kind).value < 0;
      ExpenseErrorCause(e, kind);
    }
  }

  /** With both dates valid, the transfer date is rejected exactly when it is not strictly after the acquisition, a same-day transfer included. */
  lemma TransferOrderErrorCause(t: TransactionInfo, acquisitionDate: string)
    requires IsValidDateFormat(acquisitionDate) && IsValidDateFormat(t.transferDate)
    ensures ValidationError(TransferDateField, InvalidDateFormat) in TransactionErrors(t, acquisitionDate) <==>
      !IsDateBefore(acquisitionDate, t.transferDate)
    ensures acquisitionDate == t.transferDate ==> TransactionErrors(t, acquisitionDate) != []
  {
    assert acquisitionDate != "" && t.transferDate != "";
    DateBeforeIsStrictOrder(acquisitionDate, acquisitionDate, acquisitionDate);
    if ValidationError(TransferDateField, InvalidDateFormat) in ExpenseErrors(ExpenseEntries(t.necessaryExpenses)) {
      ExpenseErrorsExactly(ExpenseEntries(t.necessaryExpenses), ValidationError(TransferDateField, InvalidDateFormat));
    }
  }

  // ---------------------------------------------------------------------------
  // Owner section

  /** The residence-period checks, applied to a single-house household that gave a period. */
  function ResidenceErrors(period: ResidencePeriod): seq<ValidationError> {
    ErrorIf(!IsValidDateFormat(period.start), ResidenceStartField, InvalidDateFormat)
    + ErrorIf(!IsValidDateFormat(period.end), ResidenceEndField, InvalidDateFormat)
    + ErrorIf(IsValidDateFormat(period.start) && IsValidDateFormat(period.end) && !IsDateBefore(period.start, period.end),
              ResidenceEndField, InvalidDateFormat)
  }

  /** The error list of `validateOwnerInfo`. */
  function OwnerErrors(o: OwnerInfo): seq<ValidationError> {
    ErrorIf(o.householdType !in HOUSEHOLD_TYPES, HouseholdTypeField, InvalidHouseholdType)
    + (if o.householdType == ONE_HOUSEHOLD_ONE_HOUSE && o.residencePeriod.Some? then ResidenceErrors(o.residencePeriod.value)
       else [])
    + ErrorIf(o.rentalPeriod.Some? && o.rentalPeriod.value < 0.0, RentalPeriodField, InvalidAmount)
  }

  /** `validateOwnerInfo`. */
  method ValidateOwnerInfo(owner: OwnerInfo) returns (r: ValidationResult)
    ensures r.errors == OwnerErrors(owner)
    ensures r.isValid <==> r.errors == []
  {
    var errors: seq<ValidationError> := [];
    if owner.householdType !in HOUSEHOLD_TYPES {
      errors := errors + [ValidationError(HouseholdTypeField, InvalidHouseholdType)];
    }
    if owner.householdType == ONE_HOUSEHOLD_ONE_HOUSE && owner.residencePeriod.Some? {
      var period := owner.residencePeriod.value;
      if !IsValidDateFormat(period.start) {
        errors := errors + [ValidationError(ResidenceStartField, InvalidDateFormat)];
      }
      if !IsValidDateFormat(period.end) {
        errors := errors + [ValidationError(ResidenceEndField, InvalidDateFormat)];
      }
      if IsValidDateFormat(period.start) && IsValidDateFormat(period.end) && !IsDateBefore(period.start, period.end) {
        errors := errors + [ValidationError(ResidenceEndField, InvalidDateFormat)];
      }
    }
    if owner.rentalPeriod.Some? && owner.rentalPeriod.value < 0.0 {
      errors := errors + [ValidationError(RentalPeriodField, InvalidAmount)];
    }
    r := ValidationResult(|errors| == 0, errors);
  }

  /** An owner section the calculator can use: known household type, a single-house residence period (if given) that ends strictly after it starts, no negative rental period. */
  predicate OwnerWellFormed(o: OwnerInfo) {
    && o.householdType in HOUSEHOLD_TYPES
    && (o.householdType == ONE_HOUSEHOLD_ONE_HOUSE && o.residencePeriod.Some? ==>
          IsDateBefore(o.residencePeriod.value.start, o.residencePeriod.value.end))
    && (o.rentalPeriod.Some? ==> o.rentalPeriod.value >= 0.0)
  }

  /** The owner section yields no error exactly when it is well formed. */
  lemma OwnerErrorsEmptyIff(o: OwnerInfo)
    ensures OwnerErrors(o) == [] <==> OwnerWellFormed(o)
  {
  }

  /** A residence period is checked only for a single-house household: for any other household it never causes an error. */
  lemma ResidenceCheckedOnlyForOneHouse(o: OwnerInfo)
    requires o.householdType != ONE_HOUSEHOLD_ONE_HOUSE
    ensures OwnerErrors(o) == OwnerErrors(o.(residencePeriod := None))
    ensures forall e :: e in OwnerErrors(o) ==> e.field != ResidenceStartField && e.field != ResidenceEndField
  {
  }

  // ---------------------------------------------------------------------------
  // Options section

  /** The error list of `validateCalculationOptions`: none without options; a calculation date, if given and non-empty, must be valid. */
  function OptionsErrors(options: Option<CalculationOptions>): seq<ValidationError> {
    if options.None? then []
    else
      var date := options.value.calculationDate;
      ErrorIf(date.Some? && date.value != "" && !IsValidDateFormat(date.value), CalculationDateField, InvalidDateFormat)
  }

  /** `validateCalculationOptions`. */
  method ValidateCalculationOptions(options: Option<CalculationOptions>) returns (r: ValidationResult)
    ensures r.errors == OptionsErrors(options)
    ensures r.isValid <==> r.errors == []
  {
    var errors: seq<ValidationError> := [];
    if options.None? {
      return ValidationResult(true, []);
    }
    var date := options.value.calculationDate;
    if date.Some? && date.value != "" && !IsValidDateFormat(date.value) {
      errors := errors + [ValidationError(CalculationDateField, InvalidDateFormat)];
    }
    r := ValidationResult(|errors| == 0, errors);
  }

  /** Options are usable when absent, or when their calculation date is absent, empty or valid. */
  predicate OptionsWellFormed(options: Option<CalculationOptions>) {
    options.None? || options.value.calculationDate.None? || options.value.calculationDate.value == ""
    || IsValidDateFormat(options.value.calculationDate.value)
  }

  /** The options yield no error exactly when they are usable. */
  lemma OptionsErrorsEmptyIff(options: Option<CalculationOptions>)
    ensures OptionsErrors(options) == [] <==> OptionsWellFormed(options)
  {
  }

  // ---------------------------------------------------------------------------
  // All inputs

  /** The error list of `validateAllInputs`: the four sections' errors in order; the transaction is checked against the property's acquisition date. */
  function AllInputErrors(p: PropertyInfo, t: TransactionInfo, o: OwnerInfo, options: Option<CalculationOptions>): seq<ValidationError> {
    PropertyErrors(p) + TransactionErrors(t, p.acquisitionDate) + OwnerErrors(o) + OptionsErrors(options)
  }

  /** `validateAllInputs`: validates every section and concatenates the errors. */
  method ValidateAllInputs(property: PropertyInfo, transaction: TransactionInfo, owner: OwnerInfo, options: Option<CalculationOptions>)
    returns (r: ValidationResult)
    ensures r.errors == AllInputErrors(property, transaction, owner, options)
    ensures r.isValid <==> r.errors == []
  {
    var propertyValidation := ValidatePropertyInfo(property);
    var transactionValidation := ValidateTransactionInfo(transaction, property.acquisitionDate);
    var ownerValidation := ValidateOwnerInfo(owner);
    var optionsValidation := ValidateCalculationOptions(options);
    var allErrors := propertyValidation.errors + transactionValidation.errors + ownerValidation.errors + optionsValidation.errors;
    r := ValidationResult(|allErrors| == 0, allErrors);
  }

  /** Every input the calculator relies on is well formed. */
  predicate InputsWellFormed(p: PropertyInfo, t: TransactionInfo, o: OwnerInfo, options: Option<CalculationOptions>) {
    && PropertyWellFormed(p)
    && TransactionWellFormed(t, p.acquisitionDate)
    && OwnerWellFormed(o)
    && OptionsWellFormed(options)
  }

  /** The request passes validation exactly when every section is well formed; the transfer then falls strictly after the acquisition. */
  lemma AllInputErrorsEmptyIff(p: PropertyInfo, t: TransactionInfo, o: OwnerInfo, options: Option<CalculationOptions>)
    ensures AllInputErrors(p, t, o, options) == [] <==> InputsWellFormed(p, t, o, options)
    ensures AllInputErrors(p, t, o, options) == [] ==> IsDateBefore(p.acquisitionDate, t.transferDate)
  {
    PropertyErrorsEmptyIff(p);
    TransactionErrorsEmptyIff(t, p.acquisitionDate);
    OwnerErrorsEmptyIff(o);
    OptionsErrorsEmptyIff(options);
  }

  function Rank(e: ValidationError): nat {
    SectionRank(SectionOf(e.field))
  }

  /** The errors appear in non-decreasing section order. */
  predicate GroupedBySection(errs: seq<ValidationError>) {
    forall i, j :: 0 <= i < j < |errs| ==> Rank(errs[i]) <= Rank(errs[j])
  }

  lemma AppendSection(a: seq<ValidationError>, b: seq<ValidationError>, r: nat)
    requires GroupedBySection(a) && (forall e :: e in a ==> Rank(e) <= r)
    requires forall e :: e in b ==> Rank(e) == r
    ensures GroupedBySection(a + b) && (forall e :: e in a + b ==> Rank(e) <= r)
  {
    forall i, j | 0 <= i < j < |a + b| ensures Rank((a + b)[i]) <= Rank((a + b)[j]) {
      if j >= |a| {
        assert (a + b)[j] == b[j - |a|];
        if i < |a| {
          assert (a + b)[i] == a[i];
        } else {
          assert (a + b)[i] == b[i - |a|];
        }
      }
    }
  }

  lemma SectionsOfEachPart(p: PropertyInfo, t: TransactionInfo, o: OwnerInfo, options: Option<CalculationOptions>)
    ensures forall e :: e in PropertyErrors(p) ==> Rank(e) == 0
    ensures forall e :: e in TransactionErrors(t, p.acquisitionDate) ==> Rank(e) == 1
    ensures forall e :: e in OwnerErrors(o) ==> Rank(e) == 2
    ensures forall e :: e in OptionsErrors(options) ==> Rank(e) == 3
  {
    PropertyErrorsRank(p);
    TransactionErrorsRank(t, p.acquisitionDate);
    OwnerErrorsRank(o);
    OptionsErrorsRank(options);
  }

  /** Every property error names a field of the property section. */
  lemma PropertyErrorsRank(p: PropertyInfo)
    ensures forall e :: e in PropertyErrors(p) ==> Rank(e) == 0
  {
    IdentityFields(p);
    AreaFields(p.area);
    assert PropertyErrors(p) == IdentityErrors(p) + LocationErrors(p.location) + AreaErrors(p.area);
  }

  /** Every transaction error, expense errors included, names a field of the transaction section. */
  lemma TransactionErrorsRank(t: TransactionInfo, acquisitionDate: string)
    ensures forall e :: e in TransactionErrors(t, acquisitionDate) ==> Rank(e) == 1
  {
    forall e | e in ExpenseErrors(ExpenseEntries(t.necessaryExpenses)) ensures Rank(e) == 1 {
      ExpenseErrorsExactly(ExpenseEntries(t.necessaryExpenses), e);
    }
  }

  /** Every owner error names a field of the owner section. */
  lemma OwnerErrorsRank(o: OwnerInfo)
    ensures forall e :: e in OwnerErrors(o) ==> Rank(e) == 2
  {
  }

  /** Every options error names a field of the options section. */
  lemma OptionsErrorsRank(options: Option<CalculationOptions>)
    ensures forall e :: e in OptionsErrors(options) ==> Rank(e) == 3
  {
  }

  /** Errors are grouped by section, in the order property, transaction, owner, options. */
  lemma ErrorsGroupedBySection(p: PropertyInfo, t: TransactionInfo, o: OwnerInfo, options: Option<CalculationOptions>)
    ensures GroupedBySection(AllInputErrors(p, t, o, options))
  {
    var pe, te, oe, qe := PropertyErrors(p), TransactionErrors(t, p.acquisitionDate), OwnerErrors(o), OptionsErrors(options);
    SectionsOfEachPart(p, t, o, options);
    AppendSection([], pe, 0);
    assert [] + pe == pe;
    AppendSection(pe, te, 1);
    AppendSection(pe + te, oe, 2);
    AppendSection(pe + te + oe, qe, 3);
  }

  /**
   * An acquisition price of 0 or less (the unit tests use -1000) fails validation whatever the
   * other inputs.
   */
  lemma NonPositiveAcquisitionPriceRejected(p: PropertyInfo, t: TransactionInfo, o: OwnerInfo, options: Option<CalculationOptions>)
    requires p.acquisitionPrice <= 0
    ensures ValidationError(AcquisitionPriceField, InvalidAmount) in AllInputErrors(p, t, o, options)
  {
    PropertyErrorCauses(p);
  }
}
