/**
 * `logCalculation` of the API (apps/api/src/index.ts) on its in-memory path: validate the
 * loan fields, validate the remaining payload fields with the version defaulted, assemble
 * the document to persist, save it, and answer with the new id.
 */
module Api {
  import opened Wrappers
  import opened Zod
  import LoanSchema
  import SharedSrc
  import SharedDist
  import opened InMemoryAdapter

  /** The request as it arrives: any field may hold any value, and an absent one is Undefined. */
  datatype Payload = Payload(
    principal: RawValue,
    monthlyRate: RawValue,
    months: RawValue,
    monthlyEMI: RawValue,
    formattedMonthlyEMI: RawValue,
    currency: RawValue,
    userId: RawValue,
    requestId: RawValue,
    version: RawValue)

  datatype Response = Response(success: bool, id: string)

  datatype ApiError =
    | LoanFieldsInvalid(loanErrors: LoanSchema.FieldErrors)
    | PayloadInvalid(payloadErrors: LoanSchema.FieldErrors)

  const Currency := "ZMW"
  const DefaultVersion := "emi-v1"

  /** The object handed to the loan schema: principal, monthlyRate and months. */
  function LoanRaw(p: Payload): RawRecord {
    map["principal" := p.principal, "monthlyRate" := p.monthlyRate, "months" := p.months]
  }

  /**
   * The loan validation as written: the source schema, which reads `annualRate`, applied to an
   * object that has none.
   */
  function LoanFieldsAsWritten(p: Payload): Result<SharedSrc.LoanInput, LoanSchema.FieldErrors> {
    SharedSrc.SafeParse(LoanRaw(p))
  }

  /** As written, no payload passes: the missing annual rate is always reported. */
  lemma AsWrittenRejectsEveryPayload(p: Payload)
    ensures LoanFieldsAsWritten(p).Err?
    ensures SharedSrc.RateKey in LoanFieldsAsWritten(p).error
    ensures LoanFieldsAsWritten(p).error[SharedSrc.RateKey] == [NanMessage]
  {
    var raw := LoanRaw(p);
    assert SharedSrc.RateKey !in raw;
    assert Lookup(raw, SharedSrc.RateKey) == Undefined;
    var e := LoanSchema.ExpectedErrors(SharedSrc.RateKey, SharedSrc.RateTitle, raw);
    assert LoanSchema.RateErrors(SharedSrc.RateTitle, Undefined) == [NanMessage];
    assert e == LoanSchema.Entry("principal", LoanSchema.PrincipalErrors(Lookup(raw, "principal")))
              + map[SharedSrc.RateKey := [NanMessage]]
              + LoanSchema.Entry("months", LoanSchema.MonthsErrors(Lookup(raw, "months")));
  }

  /** The loan validation the payload's `monthlyRate` and the API's tests call for: the monthly-rate schema. */
  function LoanFields(p: Payload): (r: Result<SharedDist.LoanInput, LoanSchema.FieldErrors>)
    ensures r.Ok? <==> (LoanSchema.PrincipalAccepted(p.principal)
                           && LoanSchema.RateAccepted(p.monthlyRate)
                           && LoanSchema.MonthsAccepted(p.months))
    ensures r.Ok? ==> (ToNumber(p.principal) == Some(r.value.principal)
                          && ToNumber(p.monthlyRate) == Some(r.value.monthlyRate)
                          && ToNumber(p.months) == Some(r.value.months as real))
  {
    var raw := LoanRaw(p);
    assert Lookup(raw, "principal") == p.principal;
    assert Lookup(raw, SharedDist.RateKey) == p.monthlyRate;
    assert Lookup(raw, "months") == p.months;
    SharedDist.SafeParse(raw)
  }

  /** `payload.version ?? 'emi-v1'`: null and undefined both become the default. */
  function WithDefaultVersion(v: RawValue): (r: RawValue)
    ensures r != Undefined && r != Null
    ensures v.Undefined? || v.Null? ==> r == Str(DefaultVersion)
    ensures v != Undefined && v != Null ==> r == v
  {
    if v.Undefined? || v.Null? then Str(DefaultVersion) else v
  }

  /** The fields the second schema yields. */
  datatype Extra = Extra(
    monthlyEMI: real,
    formattedMonthlyEMI: string,
    currency: string,
    userId: Option<string>,
    requestId: Option<string>,
    version: string)

  /** One field's entry in the flattened errors: its message if it failed, nothing otherwise. */
  function Failed<T>(key: string, r: Result<T, string>): map<string, seq<string>> {
    if r.Err? then map[key := [r.error]] else map[]
  }

  predicate ExtraAccepted(p: Payload) {
    p.monthlyEMI.Num? && p.formattedMonthlyEMI.Str? && p.currency == Str(Currency)
    && (p.userId.Undefined? || p.userId.Str?)
    && (p.requestId.Undefined? || p.requestId.Str?)
    && (WithDefaultVersion(p.version).Str?)
  }

  /** The set of payload fields the second schema rejects. */
  function ExtraFailures(p: Payload): set<string> {
    (if p.monthlyEMI.Num? then {} else {"monthlyEMI"})
    + (if p.formattedMonthlyEMI.Str? then {} else {"formattedMonthlyEMI"})
    + (if p.currency == Str(Currency) then {} else {"currency"})
    + (if p.userId.Undefined? || p.userId.Str? then {} else {"userId"})
    + (if p.requestId.Undefined? || p.requestId.Str? then {} else {"requestId"})
    + (if WithDefaultVersion(p.version).Str? then {} else {"version"})
  }

  /** `fullSchema.parse({...})`: every field is checked and every failure reported. */
  function ValidateExtra(p: Payload): (r: Result<Extra, LoanSchema.FieldErrors>)
    ensures r.Ok? <==> ExtraAccepted(p)
    ensures r.Ok? ==> (Num(r.value.monthlyEMI) == p.monthlyEMI
                          && Str(r.value.formattedMonthlyEMI) == p.formattedMonthlyEMI
                          && r.value.currency == Currency
                          && (r.value.userId.None? <==> p.userId.Undefined?)
                          && (r.value.userId.Some? ==> p.userId == Str(r.value.userId.value))
                          && (r.value.requestId.None? <==> p.requestId.Undefined?)
                          && (r.value.requestId.Some? ==> p.requestId == Str(r.value.requestId.value))
                          && Str(r.value.version) == WithDefaultVersion(p.version))
    ensures r.Err? ==> r.error.Keys == ExtraFailures(p) && r.error.Keys != {}
    ensures r.Err? ==> forall k :: k in r.error ==> |r.error[k]| == 1
  {
    var emi := NumberField(p.monthlyEMI);
    var formatted := StringField(p.formattedMonthlyEMI);
    var currency := LiteralField(Currency, p.currency);
    var userId := OptionalStringField(p.userId);
    var requestId := OptionalStringField(p.requestId);
    var version := OptionalStringField(WithDefaultVersion(p.version));
    if emi.Ok? && formatted.Ok? && currency.Ok? && userId.Ok? && requestId.Ok? && version.Ok? then
      Ok(Extra(emi.value, formatted.value, currency.value, userId.value, requestId.value,
               version.value.GetOr(DefaultVersion)))
    else
      ExtraErrorsFacts(p);
      Err(ExtraErrors(p))
  }

  /** The flattened errors of the second schema: one single-message entry per failing field. */
  function ExtraErrors(p: Payload): map<string, seq<string>> {
    Failed("monthlyEMI", NumberField(p.monthlyEMI))
    + Failed("formattedMonthlyEMI", StringField(p.formattedMonthlyEMI))
    + Failed("currency", LiteralField(Currency, p.currency))
    + Failed("userId", OptionalStringField(p.userId))
    + Failed("requestId", OptionalStringField(p.requestId))
    + Failed("version", OptionalStringField(WithDefaultVersion(p.version)))
  }

  lemma FailedFacts<T>(key: string, r: Result<T, string>)
    ensures Failed(key, r).Keys == if r.Err? then {key} else {}
    ensures forall k :: k in Failed(key, r) ==> |Failed(key, r)[k]| == 1
  {
  }

  lemma ExtraErrorsFacts(p: Payload)
    ensures ExtraErrors(p).Keys == ExtraFailures(p)
    ensures forall k :: k in ExtraErrors(p) ==> |ExtraErrors(p)[k]| == 1
  {
    var m1, m2, m3 := Failed("monthlyEMI", NumberField(p.monthlyEMI)),
                      Failed("formattedMonthlyEMI", StringField(p.formattedMonthlyEMI)),
                      Failed("currency", LiteralField(Currency, p.currency));
    var m4, m5, m6 := Failed("userId", OptionalStringField(p.userId)),
                      Failed("requestId", OptionalStringField(p.requestId)),
                      Failed("version", OptionalStringField(WithDefaultVersion(p.version)));
    FailedFacts("monthlyEMI", NumberField(p.monthlyEMI));
    FailedFacts("formattedMonthlyEMI", StringField(p.formattedMonthlyEMI));
    FailedFacts("currency", LiteralField(Currency, p.currency));
    FailedFacts("userId", OptionalStringField(p.userId));
    FailedFacts("requestId", OptionalStringField(p.requestId));
    FailedFacts("version", OptionalStringField(WithDefaultVersion(p.version)));
    UnionOfSingletons(m1, m2, m3, m4, m5, m6);
  }

  /** Keys and message counts of a union of maps whose entries each hold one message. */
  lemma UnionOfSingletons(m1: map<string, seq<string>>, m2: map<string, seq<string>>, m3: map<string, seq<string>>,
                          m4: map<string, seq<string>>, m5: map<string, seq<string>>, m6: map<string, seq<string>>)
    requires forall k :: k in m1 ==> |m1[k]| == 1
    requires forall k :: k in m2 ==> |m2[k]| == 1
    requires forall k :: k in m3 ==> |m3[k]| == 1
    requires forall k :: k in m4 ==> |m4[k]| == 1
    requires forall k :: k in m5 ==> |m5[k]| == 1
    requires forall k :: k in m6 ==> |m6[k]| == 1
    ensures (m1 + m2 + m3 + m4 + m5 + m6).Keys == m1.Keys + m2.Keys + m3.Keys + m4.Keys + m5.Keys + m6.Keys
    ensures forall k :: k in m1 + m2 + m3 + m4 + m5 + m6 ==> |(m1 + m2 + m3 + m4 + m5 + m6)[k]| == 1
  {
  }

  /** The document to persist: loan figures from the first parse, the rest from the second. */
  function PersistPayload(loan: SharedDist.LoanInput, extra: Extra): (d: CalculationDoc)
    ensures d.principal == loan.principal && d.monthlyRate == loan.monthlyRate && d.months == loan.months
    ensures d.monthlyEMI == extra.monthlyEMI && d.formattedMonthlyEMI == extra.formattedMonthlyEMI
    ensures d.currency == extra.currency && d.version == extra.version
    ensures d.userId == extra.userId && d.requestId == extra.requestId
  {
    CalculationDoc(loan.principal, loan.monthlyRate, loan.months, extra.monthlyEMI,
                   extra.formattedMonthlyEMI, extra.currency, extra.version, extra.userId, extra.requestId)
  }

  /** What a call persists, or why it fails: loan fields first, then the rest of the payload. */
  function Outcome(p: Payload): Result<CalculationDoc, ApiError> {
    match LoanFields(p)
    case Err(e) => Err(LoanFieldsInvalid(e))
    case Ok(loan) =>
      match ValidateExtra(p)
      case Err(e) => Err(PayloadInvalid(e))
      case Ok(extra) => Ok(PersistPayload(loan, extra))
  }

  /** A call succeeds exactly when both schemas accept the payload. */
  lemma OutcomeSucceedsIff(p: Payload)
    ensures Outcome(p).Ok? <==> (LoanSchema.PrincipalAccepted(p.principal)
                                    && LoanSchema.RateAccepted(p.monthlyRate)
                                    && LoanSchema.MonthsAccepted(p.months)
                                    && ExtraAccepted(p))
    ensures Outcome(p).Err? && Outcome(p).error.PayloadInvalid? ==> LoanFields(p).Ok?
  {
  }

  /** Any currency other than the string "ZMW" is refused, and reported under `currency`. */
  lemma RejectsOtherCurrency(p: Payload)
    requires p.currency != Str(Currency)
    ensures Outcome(p).Err?
    ensures LoanFields(p).Ok? ==> Outcome(p).error.PayloadInvalid? && "currency" in Outcome(p).error.payloadErrors
  {
  }

  /** The persisted document: the payload's own numbers and strings, currency "ZMW", version defaulted. */
  lemma PersistedDocument(p: Payload)
    requires Outcome(p).Ok?
    ensures (var d := Outcome(p).value;
             ToNumber(p.principal) == Some(d.principal)
             && ToNumber(p.monthlyRate) == Some(d.monthlyRate)
             && ToNumber(p.months) == Some(d.months as real)
             && p.monthlyEMI == Num(d.monthlyEMI)
             && p.formattedMonthlyEMI == Str(d.formattedMonthlyEMI)
             && d.currency == Currency
             && (p.version.Undefined? || p.version.Null? ==> d.version == DefaultVersion)
             && (p.version.Str? ==> d.version == p.version.s)
             && (d.userId.Some? <==> p.userId.Str?)
             && (d.userId.Some? ==> p.userId == Str(d.userId.value))
             && (d.requestId.Some? <==> p.requestId.Str?)
             && (d.requestId.Some? ==> p.requestId == Str(d.requestId.value)))
  {
  }

  /** The request of the API round-trip test (10000 at 20% a month over 12 months, in ZMW) is accepted. */
  lemma RoundTripRequestAccepted(p: Payload)
    requires p.principal == Num(10000.0) && p.monthlyRate == Num(20.0) && p.months == Num(12.0)
    requires p.monthlyEMI.Num? && p.formattedMonthlyEMI.Str? && p.currency == Str(Currency)
    requires p.userId == Undefined && p.requestId == Undefined && p.version == Undefined
    ensures Outcome(p) == Ok(CalculationDoc(10000.0, 20.0, 12, p.monthlyEMI.x, p.formattedMonthlyEMI.s,
                                            Currency, DefaultVersion, None, None))
  {
    RoundTripLoanFields(p);
    RoundTripExtra(p);
  }

  lemma RoundTripLoanFields(p: Payload)
    requires p.principal == Num(10000.0) && p.monthlyRate == Num(20.0) && p.months == Num(12.0)
    ensures LoanFields(p) == Ok(SharedDist.LoanInput(10000.0, 20.0, 12))
  {
    var raw := LoanRaw(p);
    assert Lookup(raw, "principal") == Num(10000.0);
    assert Lookup(raw, SharedDist.RateKey) == Num(20.0);
    assert Lookup(raw, "months") == Num(12 as real);
    SharedDist.AcceptsWithinBounds(raw, 10000.0, 20.0, 12);
  }

  lemma RoundTripExtra(p: Payload)
    requires p.monthlyEMI.Num? && p.formattedMonthlyEMI.Str? && p.currency == Str(Currency)
    requires p.userId == Undefined && p.requestId == Undefined && p.version == Undefined
    ensures ValidateExtra(p) == Ok(Extra(p.monthlyEMI.x, p.formattedMonthlyEMI.s, Currency, None, None, DefaultVersion))
  {
  }

  /**
   * `logCalculation(payload)` against the in-memory store. A validation failure (a thrown
   * ZodError in the source) leaves the store untouched; success saves one record and returns
   * its id.
   */
  method LogCalculation(store: InMemoryStore, p: Payload, createdAt: string) returns (r: Result<Response, ApiError>)
    requires store.Valid()
    modifies store
    ensures store.Valid()
    ensures r.Ok? <==> Outcome(p).Ok?
    ensures r.Err? ==> r.error == Outcome(p).error && store.records == old(store.records)
    ensures r.Ok? ==> (r.value == Response(true, MakeId(|old(store.records)| + 1))
                         && store.records == Saved(old(store.records), Outcome(p).value, createdAt))
  {
    var outcome := Outcome(p);
    if outcome.Err? {
      return Err(outcome.error);
    }
    var id, _ := store.SaveCalculation(outcome.value, createdAt);
    return Ok(Response(true, id));
  }

  /**
   * From a cleared store (records == [], as ClearStore leaves it), one valid call leaves
   * exactly one record, `inmem-1`, carrying the request's loan figures and currency "ZMW".
   */
  lemma OneCallIntoClearedStore(p: Payload, createdAt: string)
    requires Outcome(p).Ok?
    ensures (var records := Saved([], Outcome(p).value, createdAt);
             |records| == 1
             && records[0].id == "inmem-1"
             && ToNumber(p.principal) == Some(records[0].doc.principal)
             && ToNumber(p.monthlyRate) == Some(records[0].doc.monthlyRate)
             && ToNumber(p.months) == Some(records[0].doc.months as real)
             && records[0].doc.currency == Currency)
  {
    SavedIntoEmpty(Outcome(p).value, createdAt);
    PersistedDocument(p);
  }
}
