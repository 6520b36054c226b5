/**
 * The source revision of the shared package (packages/shared/src/index.ts): the rate is an
 * annual percentage under the key `annualRate`, the monthly decimal rate is annualRate/1200,
 * and `calculateEMI` applies the formula with no guard on its denominator.
 */
module SharedSrc {
  import opened Wrappers
  import opened Zod
  import opened LoanSchema
  import opened Amortization

  datatype LoanInput = LoanInput(principal: real, annualRate: real, months: int)

  const RateKey := "annualRate"
  const RateTitle := "Annual rate"

  predicate InBounds(d: LoanInput) {
    PrincipalInRange(d.principal) && RateInRange(d.annualRate) && 1 <= d.months <= 360
  }

  /** `loanInputSchema.safeParse(raw)`, with the error flattened to its field errors. */
  function SafeParse(raw: RawRecord): (r: Result<LoanInput, FieldErrors>)
    ensures r.Ok? <==> (PrincipalAccepted(Lookup(raw, "principal"))
                           && RateAccepted(Lookup(raw, RateKey))
                           && MonthsAccepted(Lookup(raw, "months")))
    ensures r.Ok? ==> (ToNumber(Lookup(raw, "principal")) == Some(r.value.principal)
                          && ToNumber(Lookup(raw, RateKey)) == Some(r.value.annualRate)
                          && ToNumber(Lookup(raw, "months")) == Some(r.value.months as real))
    ensures r.Ok? ==> InBounds(r.value)
    ensures r.Err? ==> r.error == ExpectedErrors(RateKey, RateTitle, raw)
  {
    match Parse(RateKey, RateTitle, raw)
    case Ok(f) => Ok(LoanInput(f.principal, f.rate, f.months))
    case Err(e) => Err(e)
  }

  /** The monthly decimal rate: the annual percentage spread over 12 months. */
  function MonthlyRate(annualRate: real): (r: real)
    ensures r * 1200.0 == annualRate
  {
    annualRate / (12.0 * 100.0)
  }

  /**
   * `calculateEMI(data)` over exact reals. Where the denominator (1 + r)^N − 1 is zero the
   * JavaScript division yields NaN or an infinity; that outcome is None here. Otherwise the
   * result is the level payment that clears the loan.
   */
  function CalculateEmi(d: LoanInput): (e: Option<real>)
    requires d.months >= 0
    ensures e.None? <==> d.months == 0 || d.annualRate == 0.0 || (d.annualRate == -2400.0 && d.months % 2 == 0)
    ensures e.Some? ==> Balance(d.principal, MonthlyRate(d.annualRate), e.value, d.months) == 0.0
  {
    var monthlyRate := MonthlyRate(d.annualRate);
    var raisedToN := Pow(1.0 + monthlyRate, d.months);
    if d.months == 0 then
      None
    else
      DenominatorZeroIff(monthlyRate, d.months);
      if raisedToN - 1.0 == 0.0 then
        None
      else
        EmiIsTheClearingPayment(d.principal, monthlyRate, d.months, Emi(d.principal, monthlyRate, d.months));
        Some(Emi(d.principal, monthlyRate, d.months))
  }

  /** Every accepted input has a nonzero rate, so the formula is defined and the payment positive. */
  lemma DefinedAndPositiveForAcceptedInput(d: LoanInput)
    requires InBounds(d)
    ensures CalculateEmi(d).Some?
    ensures CalculateEmi(d).value > 0.0
    ensures CalculateEmi(d).value == LevelPayment(d.principal, MonthlyRate(d.annualRate), d.months)
  {
    var r := MonthlyRate(d.annualRate);
    LevelPaymentClears(d.principal, r, d.months, CalculateEmi(d).value);
    LevelPaymentPositive(d.principal, r, d.months);
  }

  /** The documented example: 100000 at 12% a year over 12 months is 8884.88 to the cent. */
  lemma DocExample()
    ensures CalculateEmi(LoanInput(100000.0, 12.0, 12)).Some?
    ensures 8884.875 < CalculateEmi(LoanInput(100000.0, 12.0, 12)).value < 8884.885
  {
    assert MonthlyRate(12.0) == 0.01;
    EmiAtOnePercentForAYear();
  }
}
