/**
 * The loan-input schema shared by both revisions of the shared package: a principal,
 * a rate whose key and message title differ per revision, and a whole number of months.
 * The bounds and messages are the literals of the schema declarations.
 */
module LoanSchema {
  import opened Wrappers
  import opened Zod

  const PrincipalMin := "Principal must be greater than or equal to 1"
  const PrincipalMax := "Principal must be less than or equal to 10,000,000"
  const MonthsWhole := "Months must be a whole number"
  const MonthsMin := "Months must be greater than or equal to 1"
  const MonthsMax := "Months must be less than or equal to 360"

  function RateMinMessage(title: string): string {
    title + " must be greater than or equal to 0.1"
  }

  function RateMaxMessage(title: string): string {
    title + " must be less than or equal to 100"
  }

  const PrincipalChecks := [Min(1.0, PrincipalMin), Max(10000000.0, PrincipalMax)]

  function RateChecks(title: string): seq<Check> {
    [Min(0.1, RateMinMessage(title)), Max(100.0, RateMaxMessage(title))]
  }

  /** Declared in the order int, min, max. */
  const MonthsChecks := [Int(MonthsWhole), Min(1.0, MonthsMin), Max(360.0, MonthsMax)]

  function Shape(rateKey: string, rateTitle: string): seq<FieldSpec> {
    [FieldSpec("principal", PrincipalChecks), FieldSpec(rateKey, RateChecks(rateTitle)), FieldSpec("months", MonthsChecks)]
  }

  predicate RateKeyOk(rateKey: string) {
    rateKey != "principal" && rateKey != "months"
  }

  // The bounds, stated directly.

  predicate PrincipalInRange(x: real) {
    1.0 <= x <= 10000000.0
  }

  predicate RateInRange(x: real) {
    0.1 <= x <= 100.0
  }

  predicate MonthsInRange(x: real) {
    x.Floor as real == x && 1.0 <= x <= 360.0
  }

  // The messages each field must report, stated directly (NaN short-circuits the chain).

  function PrincipalErrors(v: RawValue): seq<string> {
    match ToNumber(v)
    case None => [NanMessage]
    case Some(x) => if x < 1.0 then [PrincipalMin] else if x > 10000000.0 then [PrincipalMax] else []
  }

  function RateErrors(title: string, v: RawValue): seq<string> {
    match ToNumber(v)
    case None => [NanMessage]
    case Some(x) => if x < 0.1 then [RateMinMessage(title)] else if x > 100.0 then [RateMaxMessage(title)] else []
  }

  function MonthsErrors(v: RawValue): seq<string> {
    match ToNumber(v)
    case None => [NanMessage]
    case Some(x) =>
      (if x.Floor as real == x then [] else [MonthsWhole])
      + (if x < 1.0 then [MonthsMin] else [])
      + (if x > 360.0 then [MonthsMax] else [])
  }

  /** The flattened `fieldErrors` the schema must report: one entry per failing field. */
  function ExpectedErrors(rateKey: string, rateTitle: string, raw: RawRecord): map<string, seq<string>> {
    Entry("principal", PrincipalErrors(Lookup(raw, "principal")))
    + Entry(rateKey, RateErrors(rateTitle, Lookup(raw, rateKey)))
    + Entry("months", MonthsErrors(Lookup(raw, "months")))
  }

  /** A field with no messages has no entry. */
  function Entry(k: string, msgs: seq<string>): map<string, seq<string>> {
    if msgs == [] then map[] else map[k := msgs]
  }

  lemma EntriesOfThree(m: map<string, seq<string>>, k1: string, v1: seq<string>, k2: string, v2: seq<string>, k3: string, v3: seq<string>)
    requires k1 != k2 && k1 != k3 && k2 != k3
    requires m.Keys <= {k1, k2, k3}
    requires (k1 in m <==> v1 != []) && (k1 in m ==> m[k1] == v1)
    requires (k2 in m <==> v2 != []) && (k2 in m ==> m[k2] == v2)
    requires (k3 in m <==> v3 != []) && (k3 in m ==> m[k3] == v3)
    ensures m == Entry(k1, v1) + Entry(k2, v2) + Entry(k3, v3)
  {
    var e := Entry(k1, v1) + Entry(k2, v2) + Entry(k3, v3);
    assert m.Keys == e.Keys;
  }

  /** The expected errors, key by key: a field has an entry exactly when it has messages. */
  lemma ExpectedErrorsEntries(rateKey: string, rateTitle: string, raw: RawRecord)
    requires RateKeyOk(rateKey)
    ensures (var e, pe := ExpectedErrors(rateKey, rateTitle, raw), PrincipalErrors(Lookup(raw, "principal"));
             ("principal" in e <==> pe != []) && ("principal" in e ==> e["principal"] == pe))
    ensures (var e, re := ExpectedErrors(rateKey, rateTitle, raw), RateErrors(rateTitle, Lookup(raw, rateKey));
             (rateKey in e <==> re != []) && (rateKey in e ==> e[rateKey] == re))
    ensures (var e, me := ExpectedErrors(rateKey, rateTitle, raw), MonthsErrors(Lookup(raw, "months"));
             ("months" in e <==> me != []) && ("months" in e ==> e["months"] == me))
    ensures ExpectedErrors(rateKey, rateTitle, raw).Keys <= {"principal", rateKey, "months"}
  {
    EntriesLookup("principal", PrincipalErrors(Lookup(raw, "principal")),
                  rateKey, RateErrors(rateTitle, Lookup(raw, rateKey)),
                  "months", MonthsErrors(Lookup(raw, "months")));
  }

  lemma EntriesLookup(k1: string, v1: seq<string>, k2: string, v2: seq<string>, k3: string, v3: seq<string>)
    requires k1 != k2 && k1 != k3 && k2 != k3
    ensures (var m := Entry(k1, v1) + Entry(k2, v2) + Entry(k3, v3);
             (k1 in m <==> v1 != []) && (k1 in m ==> m[k1] == v1)
             && (k2 in m <==> v2 != []) && (k2 in m ==> m[k2] == v2)
             && (k3 in m <==> v3 != []) && (k3 in m ==> m[k3] == v3)
             && m.Keys <= {k1, k2, k3})
  {
  }

  /** A field passes when it coerces to a number within its bounds. */
  predicate PrincipalAccepted(v: RawValue) {
    ToNumber(v).Some? && PrincipalInRange(ToNumber(v).value)
  }

  predicate RateAccepted(v: RawValue) {
    ToNumber(v).Some? && RateInRange(ToNumber(v).value)
  }

  predicate MonthsAccepted(v: RawValue) {
    ToNumber(v).Some? && MonthsInRange(ToNumber(v).value)
  }

  /** A field has messages exactly when it is not accepted. */
  lemma ErrorsIffRejected(rateTitle: string, raw: RawRecord, rateKey: string)
    ensures PrincipalErrors(Lookup(raw, "principal")) == [] <==> PrincipalAccepted(Lookup(raw, "principal"))
    ensures RateErrors(rateTitle, Lookup(raw, rateKey)) == [] <==> RateAccepted(Lookup(raw, rateKey))
    ensures MonthsErrors(Lookup(raw, "months")) == [] <==> MonthsAccepted(Lookup(raw, "months"))
  {
  }

  /** A validated loan input in revision-neutral terms. */
  datatype Fields = Fields(principal: real, rate: real, months: int)

  type FieldErrors = map<string, seq<string>>

  /** The principal chain reports exactly the messages PrincipalErrors names. */
  lemma PrincipalField(v: RawValue)
    ensures CoerceNumberField(PrincipalChecks, v).Valid? <==> ToNumber(v).Some? && PrincipalInRange(ToNumber(v).value)
    ensures CoerceNumberField(PrincipalChecks, v).Valid? <==> PrincipalErrors(v) == []
    ensures CoerceNumberField(PrincipalChecks, v).Invalid? ==> CoerceNumberField(PrincipalChecks, v).messages == PrincipalErrors(v)
  {
    var cs := PrincipalChecks;
    if v1 :| ToNumber(v) == Some(v1) {
      assert cs[1..][1..] == [];
      assert RunChecks(cs[1..], v1) == (if v1 <= 10000000.0 then [] else [PrincipalMax]);
      assert RunChecks(cs, v1) == (if v1 >= 1.0 then [] else [PrincipalMin]) + RunChecks(cs[1..], v1);
    }
  }

  lemma RateField(title: string, v: RawValue)
    ensures CoerceNumberField(RateChecks(title), v).Valid? <==> ToNumber(v).Some? && RateInRange(ToNumber(v).value)
    ensures CoerceNumberField(RateChecks(title), v).Valid? <==> RateErrors(title, v) == []
    ensures CoerceNumberField(RateChecks(title), v).Invalid? ==> CoerceNumberField(RateChecks(title), v).messages == RateErrors(title, v)
  {
    var cs := RateChecks(title);
    if v1 :| ToNumber(v) == Some(v1) {
      assert cs[1..][1..] == [];
      assert RunChecks(cs[1..], v1) == (if v1 <= 100.0 then [] else [RateMaxMessage(title)]);
      assert RunChecks(cs, v1) == (if v1 >= 0.1 then [] else [RateMinMessage(title)]) + RunChecks(cs[1..], v1);
    }
  }

  lemma MonthsField(v: RawValue)
    ensures CoerceNumberField(MonthsChecks, v).Valid? <==> ToNumber(v).Some? && MonthsInRange(ToNumber(v).value)
    ensures CoerceNumberField(MonthsChecks, v).Valid? <==> MonthsErrors(v) == []
    ensures CoerceNumberField(MonthsChecks, v).Invalid? ==> CoerceNumberField(MonthsChecks, v).messages == MonthsErrors(v)
  {
    var cs := MonthsChecks;
    if v1 :| ToNumber(v) == Some(v1) {
      assert cs[1..][1..][1..] == [];
      assert RunChecks(cs[1..][1..], v1) == (if v1 <= 360.0 then [] else [MonthsMax]);
      assert RunChecks(cs[1..], v1) == (if v1 >= 1.0 then [] else [MonthsMin]) + RunChecks(cs[1..][1..], v1);
      assert RunChecks(cs, v1) == (if v1.Floor as real == v1 then [] else [MonthsWhole]) + RunChecks(cs[1..], v1);
    }
  }

  /**
   * `loanInputSchema.safeParse(raw)` for the revision whose rate is read from `rateKey`
   * and reported under `rateTitle`.
   */
  function Parse(rateKey: string, rateTitle: string, raw: RawRecord): (r: Result<Fields, FieldErrors>)
    requires RateKeyOk(rateKey)
    ensures r.Ok? <==> (PrincipalAccepted(Lookup(raw, "principal"))
                           && RateAccepted(Lookup(raw, rateKey))
                           && MonthsAccepted(Lookup(raw, "months")))
    ensures r.Ok? ==> (ToNumber(Lookup(raw, "principal")) == Some(r.value.principal)
                          && ToNumber(Lookup(raw, rateKey)) == Some(r.value.rate)
                          && ToNumber(Lookup(raw, "months")) == Some(r.value.months as real))
    ensures r.Err? ==> r.error == ExpectedErrors(rateKey, rateTitle, raw)
  {
    var shape := Shape(rateKey, rateTitle);
    ShapeFacts(rateKey, rateTitle);
    SuccessFacts(rateKey, rateTitle, raw);
    var parsed := SafeParse(shape, raw);
    if parsed.Success? then
      SuccessData(rateKey, rateTitle, raw);
      Ok(Fields(parsed.data["principal"], parsed.data[rateKey], parsed.data["months"].Floor))
    else
      FailureFacts(rateKey, rateTitle, raw);
      Err(parsed.fieldErrors)
  }

  /** The outcome depends on the three fields' coerced numbers and on nothing else. */
  lemma ParseDependsOnlyOnNumbers(rateKey: string, rateTitle: string, raw1: RawRecord, raw2: RawRecord)
    requires RateKeyOk(rateKey)
    requires ToNumber(Lookup(raw1, "principal")) == ToNumber(Lookup(raw2, "principal"))
    requires ToNumber(Lookup(raw1, rateKey)) == ToNumber(Lookup(raw2, rateKey))
    requires ToNumber(Lookup(raw1, "months")) == ToNumber(Lookup(raw2, "months"))
    ensures Parse(rateKey, rateTitle, raw1) == Parse(rateKey, rateTitle, raw2)
  {
    assert PrincipalErrors(Lookup(raw1, "principal")) == PrincipalErrors(Lookup(raw2, "principal"));
    assert RateErrors(rateTitle, Lookup(raw1, rateKey)) == RateErrors(rateTitle, Lookup(raw2, rateKey));
    assert MonthsErrors(Lookup(raw1, "months")) == MonthsErrors(Lookup(raw2, "months"));
    var r1, r2 := Parse(rateKey, rateTitle, raw1), Parse(rateKey, rateTitle, raw2);
    if r1.Ok? {
      assert r2.Ok?;
      assert r1.value.months as real == r2.value.months as real;
      assert r1.value == r2.value;
    } else {
      assert ExpectedErrors(rateKey, rateTitle, raw1) == ExpectedErrors(rateKey, rateTitle, raw2);
    }
  }

  lemma ShapeFacts(rateKey: string, rateTitle: string)
    requires RateKeyOk(rateKey)
    ensures DistinctKeys(Shape(rateKey, rateTitle))
    ensures Keys(Shape(rateKey, rateTitle)) == {"principal", rateKey, "months"}
  {
    var shape := Shape(rateKey, rateTitle);
    assert forall f :: f in shape <==> f == shape[0] || f == shape[1] || f == shape[2];
  }

  lemma SuccessFacts(rateKey: string, rateTitle: string, raw: RawRecord)
    requires RateKeyOk(rateKey)
    requires DistinctKeys(Shape(rateKey, rateTitle))
    ensures SafeParse(Shape(rateKey, rateTitle), raw).Success? <==>
              (PrincipalAccepted(Lookup(raw, "principal")) && RateAccepted(Lookup(raw, rateKey)) && MonthsAccepted(Lookup(raw, "months")))
  {
    var shape := Shape(rateKey, rateTitle);
    var vp, vr, vm := Lookup(raw, "principal"), Lookup(raw, rateKey), Lookup(raw, "months");
    AllValidOfThree(shape, raw);
    assert FieldOf(shape[0], raw) == CoerceNumberField(PrincipalChecks, vp);
    assert FieldOf(shape[1], raw) == CoerceNumberField(RateChecks(rateTitle), vr);
    assert FieldOf(shape[2], raw) == CoerceNumberField(MonthsChecks, vm);
    PrincipalField(Lookup(raw, "principal"));
    RateField(rateTitle, Lookup(raw, rateKey));
    MonthsField(Lookup(raw, "months"));
  }

  lemma AllValidOfThree(shape: seq<FieldSpec>, raw: RawRecord)
    requires |shape| == 3
    ensures (forall f :: f in shape ==> FieldOf(f, raw).Valid?)
            <==> FieldOf(shape[0], raw).Valid? && FieldOf(shape[1], raw).Valid? && FieldOf(shape[2], raw).Valid?
  {
    assert forall f :: f in shape <==> f == shape[0] || f == shape[1] || f == shape[2];
  }

  lemma SuccessData(rateKey: string, rateTitle: string, raw: RawRecord)
    requires RateKeyOk(rateKey)
    requires DistinctKeys(Shape(rateKey, rateTitle))
    requires Keys(Shape(rateKey, rateTitle)) == {"principal", rateKey, "months"}
    requires SafeParse(Shape(rateKey, rateTitle), raw).Success?
    requires MonthsAccepted(Lookup(raw, "months"))
    ensures (var data := SafeParse(Shape(rateKey, rateTitle), raw).data;
             "principal" in data && rateKey in data && "months" in data
             && ToNumber(Lookup(raw, "principal")) == Some(data["principal"])
             && ToNumber(Lookup(raw, rateKey)) == Some(data[rateKey])
             && ToNumber(Lookup(raw, "months")) == Some(data["months"])
             && data["months"].Floor as real == data["months"])
  {
  }

  lemma FailureFacts(rateKey: string, rateTitle: string, raw: RawRecord)
    requires RateKeyOk(rateKey)
    requires DistinctKeys(Shape(rateKey, rateTitle))
    requires Keys(Shape(rateKey, rateTitle)) == {"principal", rateKey, "months"}
    requires SafeParse(Shape(rateKey, rateTitle), raw).Failure?
    ensures SafeParse(Shape(rateKey, rateTitle), raw).fieldErrors == ExpectedErrors(rateKey, rateTitle, raw)
  {
    var shape := Shape(rateKey, rateTitle);
    var errs := SafeParse(shape, raw).fieldErrors;
    var vp, vr, vm := Lookup(raw, "principal"), Lookup(raw, rateKey), Lookup(raw, "months");
    var pe, re, me := PrincipalErrors(vp), RateErrors(rateTitle, vr), MonthsErrors(vm);
    var fp, fr, fm := shape[0], shape[1], shape[2];
    assert fp in shape && fr in shape && fm in shape;
    assert FieldOf(fp, raw) == CoerceNumberField(PrincipalChecks, vp);
    assert FieldOf(fr, raw) == CoerceNumberField(RateChecks(rateTitle), vr);
    assert FieldOf(fm, raw) == CoerceNumberField(MonthsChecks, vm);
    PrincipalField(vp);
    RateField(rateTitle, vr);
    MonthsField(vm);
    EntriesOfThree(errs, "principal", pe, rateKey, re, "months", me);
  }
}
