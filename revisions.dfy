/**
 * How the two revisions of the shared package relate: the same schema under a renamed
 * rate key, and the same payment once the annual rate is divided by 12.
 */
module Revisions {
  import opened Wrappers
  import opened Zod
  import opened LoanSchema
  import Amortization
  import SharedSrc
  import SharedDist

  /** Moves the annual-rate field of a record under the monthly-rate key. */
  function RenameRate(raw: RawRecord): RawRecord {
    raw[SharedDist.RateKey := Lookup(raw, SharedSrc.RateKey)]
  }

  /** The schemas accept the same records up to the rate key, and read the same numbers from them. */
  lemma SchemasAgreeUpToRateKey(raw: RawRecord)
    ensures SharedSrc.SafeParse(raw).Ok? <==> SharedDist.SafeParse(RenameRate(raw)).Ok?
    ensures SharedSrc.SafeParse(raw).Ok? ==>
              (var s, d := SharedSrc.SafeParse(raw).value, SharedDist.SafeParse(RenameRate(raw)).value;
               s.principal == d.principal && s.annualRate == d.monthlyRate && s.months == d.months)
  {
    var renamed := RenameRate(raw);
    assert Lookup(renamed, "principal") == Lookup(raw, "principal");
    assert Lookup(renamed, "months") == Lookup(raw, "months");
    assert Lookup(renamed, SharedDist.RateKey) == Lookup(raw, SharedSrc.RateKey);
  }

  /**
   * Stating a rate as annualRate in the source revision, or as annualRate/12 in the built
   * revision, gives the same payment wherever the source revision's formula is defined.
   */
  lemma ConventionsAgree(principal: real, annualRate: real, months: int)
    requires months >= 1
    requires SharedSrc.CalculateEmi(SharedSrc.LoanInput(principal, annualRate, months)).Some?
    ensures SharedSrc.CalculateEmi(SharedSrc.LoanInput(principal, annualRate, months)).value
            == SharedDist.CalculateEmi(SharedDist.LoanInput(principal, annualRate / 12.0, months))
  {
    var s := SharedSrc.LoanInput(principal, annualRate, months);
    var d := SharedDist.LoanInput(principal, annualRate / 12.0, months);
    var r := SharedSrc.MonthlyRate(annualRate);
    assert d.monthlyRate / 100.0 == r;
    assert !SharedDist.Degenerate(d);
    Amortization.DenominatorZeroIff(r, months);
    Amortization.EmiIsTheClearingPayment(principal, r, months, SharedSrc.CalculateEmi(s).value);
    Amortization.EmiIsTheClearingPayment(principal, r, months, SharedDist.CalculateEmi(d));
  }
}
