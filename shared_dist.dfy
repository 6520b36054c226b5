/**
 * The built revision of the shared package (packages/shared/dist/index.js): the rate is
 * a monthly percentage under the key `monthlyRate`, and `calculateEMI` falls back to a
 * flat principal / months when the rate or the formula's denominator is zero. The field
 * name `monthlyRate` is the one the tests' records and the API's payloads use, although the
 * tests import the package's TypeScript source (the annual-rate revision).
 */
module SharedDist {
  import opened Wrappers
  import opened Zod
  import opened LoanSchema
  import opened Amortization

  datatype LoanInput = LoanInput(principal: real, monthlyRate: real, months: int)

  const RateKey := "monthlyRate"
  const RateTitle := "Monthly rate"

  /** The bounds the schema enforces, on a typed input. */
  predicate InBounds(d: LoanInput) {
    PrincipalInRange(d.principal) && RateInRange(d.monthlyRate) && 1 <= d.months <= 360
  }

  /** `loanInputSchema.safeParse(raw)`, with the error flattened to its field errors. */
  function SafeParse(raw: RawRecord): (r: Result<LoanInput, FieldErrors>)
    ensures r.Ok? <==> (PrincipalAccepted(Lookup(raw, "principal"))
                           && RateAccepted(Lookup(raw, RateKey))
                           && MonthsAccepted(Lookup(raw, "months")))
    ensures r.Ok? ==> (ToNumber(Lookup(raw, "principal")) == Some(r.value.principal)
                          && ToNumber(Lookup(raw, RateKey)) == Some(r.value.monthlyRate)
                          && ToNumber(Lookup(raw, "months")) == Some(r.value.months as real))
    ensures r.Ok? ==> InBounds(r.value)
    ensures r.Err? ==> r.error == ExpectedErrors(RateKey, RateTitle, raw)
  {
    match Parse(RateKey, RateTitle, raw)
    case Ok(f) => Ok(LoanInput(f.principal, f.rate, f.months))
    case Err(e) => Err(e)
  }

  /** Every value within the bounds, boundaries included, is accepted and returned unchanged. */
  lemma AcceptsWithinBounds(raw: RawRecord, principal: real, monthlyRate: real, months: int)
    requires Lookup(raw, "principal") == Num(principal) && PrincipalInRange(principal)
    requires Lookup(raw, RateKey) == Num(monthlyRate) && RateInRange(monthlyRate)
    requires Lookup(raw, "months") == Num(months as real) && 1 <= months <= 360
    ensures SafeParse(raw) == Ok(LoanInput(principal, monthlyRate, months))
  {
  }

  /** When only the principal is out of range, it alone is reported, with its bound's message. */
  lemma OnlyPrincipalFails(raw: RawRecord, principal: real)
    requires Lookup(raw, "principal") == Num(principal) && !PrincipalInRange(principal)
    requires RateAccepted(Lookup(raw, RateKey)) && MonthsAccepted(Lookup(raw, "months"))
    ensures SafeParse(raw).Err? && SafeParse(raw).error.Keys == {"principal"}
    ensures SafeParse(raw).error["principal"] == [if principal < 1.0 then PrincipalMin else PrincipalMax]
  {
    ErrorsIffRejected(RateTitle, raw, RateKey);
    ExpectedErrorsEntries(RateKey, RateTitle, raw);
    var e := ExpectedErrors(RateKey, RateTitle, raw);
    assert RateKey !in e && "months" !in e && "principal" in e;
    assert e.Keys == {"principal"};
  }

  lemma OnlyRateFails(raw: RawRecord, monthlyRate: real)
    requires Lookup(raw, RateKey) == Num(monthlyRate) && !RateInRange(monthlyRate)
    requires PrincipalAccepted(Lookup(raw, "principal")) && MonthsAccepted(Lookup(raw, "months"))
    ensures SafeParse(raw).Err? && SafeParse(raw).error.Keys == {RateKey}
    ensures SafeParse(raw).error[RateKey] == [if monthlyRate < 0.1 then RateMinMessage(RateTitle) else RateMaxMessage(RateTitle)]
  {
    ErrorsIffRejected(RateTitle, raw, RateKey);
    ExpectedErrorsEntries(RateKey, RateTitle, raw);
    var e := ExpectedErrors(RateKey, RateTitle, raw);
    assert "principal" !in e && "months" !in e && RateKey in e;
    assert e.Keys == {RateKey};
  }

  lemma OnlyMonthsFails(raw: RawRecord, months: real)
    requires Lookup(raw, "months") == Num(months) && !MonthsInRange(months)
    requires PrincipalAccepted(Lookup(raw, "principal")) && RateAccepted(Lookup(raw, RateKey))
    ensures SafeParse(raw).Err? && SafeParse(raw).error.Keys == {"months"}
    ensures SafeParse(raw).error["months"] == MonthsErrors(Num(months))
  {
    ErrorsIffRejected(RateTitle, raw, RateKey);
    ExpectedErrorsEntries(RateKey, RateTitle, raw);
    var e := ExpectedErrors(RateKey, RateTitle, raw);
    assert "principal" !in e && RateKey !in e && "months" in e;
    assert e.Keys == {"months"};
  }

  /** Zero months fails only the lower bound; a fractional count fails only the whole-number check. */
  lemma RejectedMonthsMessages()
    ensures MonthsErrors(Num(0.0)) == [MonthsMin]
    ensures MonthsErrors(Num(12.5)) == [MonthsWhole]
  {
    assert 12.5.Floor == 12;
  }

  /** A string is coerced before the range checks: it is treated exactly like the number it denotes. */
  lemma StringCoercedLikeNumber(raw: RawRecord, key: string, s: string, x: real)
    requires key == "principal" || key == RateKey || key == "months"
    requires Lookup(raw, key) == Str(s) && Decimal.ParseNumber(s) == Some(x)
    ensures SafeParse(raw) == SafeParse(raw[key := Num(x)])
  {
    var raw' := raw[key := Num(x)];
    assert ToNumber(Lookup(raw', "principal")) == ToNumber(Lookup(raw, "principal"));
    assert ToNumber(Lookup(raw', RateKey)) == ToNumber(Lookup(raw, RateKey));
    assert ToNumber(Lookup(raw', "months")) == ToNumber(Lookup(raw, "months"));
    ParseDependsOnlyOnNumbers(RateKey, RateTitle, raw, raw');
  }

  /** Numeric strings for zero or a negative amount are coerced, and then fail the minimum. */
  lemma RejectsCoercedNonPositivePrincipal(raw: RawRecord)
    requires Lookup(raw, "principal") == Str("0") || Lookup(raw, "principal") == Str("-10000")
    ensures SafeParse(raw).Err?
    ensures "principal" in SafeParse(raw).error && SafeParse(raw).error["principal"] == [PrincipalMin]
  {
    Decimal.ParseNumberZero();
    Decimal.ParseNumberNegative();
    assert PrincipalErrors(Lookup(raw, "principal")) == [PrincipalMin];
    ExpectedErrorsEntries(RateKey, RateTitle, raw);
  }

  /** Null months coerce to 0, which fails the minimum (and only the minimum). */
  lemma RejectsNullMonths(raw: RawRecord)
    requires Lookup(raw, "months") == Null
    ensures SafeParse(raw).Err?
    ensures "months" in SafeParse(raw).error && SafeParse(raw).error["months"] == [MonthsMin]
  {
    assert MonthsErrors(Null) == [MonthsMin];
    ExpectedErrorsEntries(RateKey, RateTitle, raw);
  }

  /** A missing or undefined field fails with the NaN message under its own key. */
  lemma RejectsMissingField(raw: RawRecord, key: string)
    requires key == "principal" || key == RateKey || key == "months"
    requires Lookup(raw, key) == Undefined
    ensures SafeParse(raw).Err? && key in SafeParse(raw).error
    ensures SafeParse(raw).error[key] == [NanMessage]
  {
    ExpectedErrorsEntries(RateKey, RateTitle, raw);
  }

  /** A string that is not a number fails with the NaN message under its own key. */
  lemma RejectsNonNumericString(raw: RawRecord, key: string, s: string)
    requires key == "principal" || key == RateKey || key == "months"
    requires Lookup(raw, key) == Str(s) && Decimal.ParseNumber(s) == None
    ensures SafeParse(raw).Err? && key in SafeParse(raw).error
    ensures SafeParse(raw).error[key] == [NanMessage]
  {
    assert ToNumber(Lookup(raw, key)) == None;
    ExpectedErrorsEntries(RateKey, RateTitle, raw);
  }

  /** Fields are checked independently: when all three fail, each reports at least one message. */
  lemma ReportsEveryInvalidField(raw: RawRecord)
    requires !PrincipalAccepted(Lookup(raw, "principal"))
    requires !RateAccepted(Lookup(raw, RateKey))
    requires !MonthsAccepted(Lookup(raw, "months"))
    ensures SafeParse(raw).Err?
    ensures SafeParse(raw).error.Keys == {"principal", RateKey, "months"}
    ensures forall k :: k in SafeParse(raw).error ==> SafeParse(raw).error[k] != []
  {
    ErrorsIffRejected(RateTitle, raw, RateKey);
    ExpectedErrorsEntries(RateKey, RateTitle, raw);
    var e := ExpectedErrors(RateKey, RateTitle, raw);
    assert "principal" in e && RateKey in e && "months" in e;
    assert e.Keys == {"principal", RateKey, "months"};
    assert e["principal"] != [] && e[RateKey] != [] && e["months"] != [];
  }

  /** Keys outside the schema are dropped: they never change the outcome. */
  lemma IgnoresUnknownField(raw: RawRecord, k: string, v: RawValue)
    requires k !in {"principal", RateKey, "months"}
    ensures SafeParse(raw[k := v]) == SafeParse(raw)
  {
    assert Lookup(raw[k := v], "principal") == Lookup(raw, "principal");
    assert Lookup(raw[k := v], RateKey) == Lookup(raw, RateKey);
    assert Lookup(raw[k := v], "months") == Lookup(raw, "months");
  }

  /** True when the formula's denominator vanishes for a nonzero rate (a rate of -200% over an even number of months). */
  predicate Degenerate(d: LoanInput) {
    d.monthlyRate == -200.0 && d.months % 2 == 0
  }

  /**
   * `calculateEMI(data)` over exact reals: the `Number.EPSILON` tests become tests for zero.
   * Whenever the result is not the degenerate fallback, it is the level monthly payment
   * that clears the loan in `months` payments.
   */
  function CalculateEmi(d: LoanInput): (e: real)
    requires d.months >= 1
    ensures !Degenerate(d) ==> Balance(d.principal, d.monthlyRate / 100.0, e, d.months) == 0.0
    ensures d.monthlyRate == 0.0 || Degenerate(d) ==> e == d.principal / d.months as real
  {
    var rate := d.monthlyRate / 100.0;
    if rate == 0.0 then
      FlatIsTheClearingPayment(d.principal, d.months, d.principal / d.months as real);
      d.principal / d.months as real
    else
      var raisedToN := Pow(1.0 + rate, d.months);
      var denominator := raisedToN - 1.0;
      DenominatorZeroIff(rate, d.months);
      if denominator == 0.0 then
        d.principal / d.months as real
      else
        EmiIsTheClearingPayment(d.principal, rate, d.months, Emi(d.principal, rate, d.months));
        Emi(d.principal, rate, d.months)
  }

  /** Above -100% a month, the result is the principal divided by the annuity factor. */
  lemma CalculateEmiIsLevelPayment(d: LoanInput)
    requires d.months >= 1 && d.monthlyRate > -100.0
    ensures CalculateEmi(d) == LevelPayment(d.principal, d.monthlyRate / 100.0, d.months)
  {
    LevelPaymentClears(d.principal, d.monthlyRate / 100.0, d.months, CalculateEmi(d));
  }

  /** Every accepted input yields a positive payment. */
  lemma PositiveForAcceptedInput(d: LoanInput)
    requires InBounds(d)
    ensures CalculateEmi(d) > 0.0
  {
    CalculateEmiIsLevelPayment(d);
    LevelPaymentPositive(d.principal, d.monthlyRate / 100.0, d.months);
  }

  lemma IncreasesWithPrincipal(d: LoanInput, principal: real)
    requires d.months >= 1 && d.monthlyRate > -100.0 && d.principal < principal
    ensures CalculateEmi(d) < CalculateEmi(d.(principal := principal))
  {
    CalculateEmiIsLevelPayment(d);
    CalculateEmiIsLevelPayment(d.(principal := principal));
    LevelPaymentIncreasesWithPrincipal(d.principal, principal, d.monthlyRate / 100.0, d.months);
  }

  lemma IncreasesWithRate(d: LoanInput, monthlyRate: real)
    requires d.months >= 1 && d.principal > 0.0 && -100.0 < d.monthlyRate < monthlyRate
    ensures CalculateEmi(d) < CalculateEmi(d.(monthlyRate := monthlyRate))
  {
    CalculateEmiIsLevelPayment(d);
    CalculateEmiIsLevelPayment(d.(monthlyRate := monthlyRate));
    LevelPaymentIncreasesWithRate(d.principal, d.monthlyRate / 100.0, monthlyRate / 100.0, d.months);
  }

  lemma DecreasesWithMonths(d: LoanInput, months: int)
    requires d.principal > 0.0 && d.monthlyRate > -100.0 && 1 <= d.months < months
    ensures CalculateEmi(d.(months := months)) < CalculateEmi(d)
  {
    CalculateEmiIsLevelPayment(d);
    CalculateEmiIsLevelPayment(d.(months := months));
    LevelPaymentDecreasesWithTenure(d.principal, d.monthlyRate / 100.0, d.months, months);
  }

  /** Over one month the payment is the principal plus one month's interest. */
  lemma OneMonth(principal: real, monthlyRate: real)
    ensures CalculateEmi(LoanInput(principal, monthlyRate, 1)) == principal * (1.0 + monthlyRate / 100.0)
  {
    var d := LoanInput(principal, monthlyRate, 1);
    assert !Degenerate(d);
    assert Balance(principal, monthlyRate / 100.0, CalculateEmi(d), 1) == principal * (1.0 + monthlyRate / 100.0) - CalculateEmi(d);
  }

  /** At -200% over two months the denominator guard fires and the flat fallback does not clear the loan. */
  lemma DegenerateFallback(principal: real)
    requires principal != 0.0
    ensures CalculateEmi(LoanInput(principal, -200.0, 2)) == principal / 2.0
    ensures Balance(principal, -2.0, principal / 2.0, 2) != 0.0
  {
    assert Balance(principal, -2.0, principal / 2.0, 1) == -1.5 * principal;
    assert Balance(principal, -2.0, principal / 2.0, 2) == principal;
  }

  /** Benchmark: 100000 at 1% a month over 12 months is 8884.88 to the cent. */
  lemma BenchmarkOnePercent()
    ensures 8884.875 < CalculateEmi(LoanInput(100000.0, 1.0, 12)) < 8884.885
  {
    EmiAtOnePercentForAYear();
  }

  /** Benchmark: 10000 at 20/12% a month over 12 months is 926.35 to the cent. */
  lemma BenchmarkOneSixtieth()
    ensures 926.345 < CalculateEmi(LoanInput(10000.0, 20.0 / 12.0, 12)) < 926.355
  {
    assert (20.0 / 12.0) / 100.0 == 1.0 / 60.0;
    EmiAtOneSixtiethForAYear();
  }

  /** 100000 at 10/12% a month over one month is 100833.33 to the cent. */
  lemma BenchmarkOneMonth()
    ensures 100833.325 < CalculateEmi(LoanInput(100000.0, 10.0 / 12.0, 1)) < 100833.335
  {
    OneMonth(100000.0, 10.0 / 12.0);
  }

  /** The documentation example passes a monthly rate of 12, which gives over 16143, not 8884.88. */
  lemma DocExampleIsAnnualRate()
    ensures CalculateEmi(LoanInput(100000.0, 12.0, 12)) > 16143.0
  {
    EmiAtTwelvePercentForAYear();
  }
}
