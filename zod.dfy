/**
 * The part of the zod validation library the schemas use: untyped JavaScript input
 * values, `z.coerce.number()` with its chain of checks, and `z.object(...).safeParse`,
 * which checks every field independently, reports all failing fields together and
 * drops keys the schema does not declare.
 */
module Zod {
  import opened Wrappers
  import Decimal

  /** A JavaScript value as it may arrive at the validation boundary. */
  datatype RawValue = Undefined | Null | Bool(b: bool) | Num(x: real) | Str(s: string)

  /** A JavaScript object: an absent key reads as `undefined`. */
  type RawRecord = map<string, RawValue>

  function Lookup(raw: RawRecord, key: string): RawValue {
    if key in raw then raw[key] else Undefined
  }

  /** `Number(v)`; None stands for NaN. */
  function ToNumber(v: RawValue): Option<real> {
    match v
    case Undefined => None
    case Null => Some(0.0)
    case Bool(b) => Some(if b then 1.0 else 0.0)
    case Num(x) => Some(x)
    case Str(s) => Decimal.ParseNumber(s)
  }

  /** zod's name for the type of a value, as it appears in "received ..." messages. */
  function TypeName(v: RawValue): string {
    match v
    case Undefined => "undefined"
    case Null => "null"
    case Bool(_) => "boolean"
    case Num(_) => "number"
    case Str(_) => "string"
  }

  /** The issue `z.coerce.number()` reports when coercion yields NaN. */
  const NanMessage := "Expected number, received nan"

  /** One refinement in a number chain: `.min(bound, msg)`, `.max(bound, msg)`, `.int(msg)`. */
  datatype Check = Min(bound: real, message: string) | Max(bound: real, message: string) | Int(message: string)

  predicate Holds(c: Check, x: real) {
    match c
    case Min(b, _) => x >= b
    case Max(b, _) => x <= b
    case Int(_) => x.Floor as real == x
  }

  /** Runs every check of the chain (none short-circuits) and collects the failures' messages in order. */
  function RunChecks(checks: seq<Check>, x: real): seq<string> {
    if checks == [] then []
    else (if Holds(checks[0], x) then [] else [checks[0].message]) + RunChecks(checks[1..], x)
  }

  lemma {:induction false} RunChecksEmptyIff(checks: seq<Check>, x: real)
    ensures RunChecks(checks, x) == [] <==> forall i :: 0 <= i < |checks| ==> Holds(checks[i], x)
  {
    if checks != [] {
      RunChecksEmptyIff(checks[1..], x);
      assert forall i :: 1 <= i < |checks| ==> checks[i] == checks[1..][i - 1];
    }
  }

  datatype FieldResult = Valid(value: real) | Invalid(messages: seq<string>)

  /** `z.coerce.number()` followed by `checks`, applied to one field value. */
  function CoerceNumberField(checks: seq<Check>, v: RawValue): (r: FieldResult)
    ensures r.Valid? <==> ToNumber(v).Some? && forall i :: 0 <= i < |checks| ==> Holds(checks[i], ToNumber(v).value)
    ensures r.Valid? ==> r.value == ToNumber(v).value
    ensures r.Invalid? ==> r.messages != []
    ensures ToNumber(v).None? ==> r == Invalid([NanMessage])
    ensures ToNumber(v).Some? && r.Invalid? ==> r.messages == RunChecks(checks, ToNumber(v).value)
  {
    match ToNumber(v)
    case None => Invalid([NanMessage])
    case Some(x) =>
      RunChecksEmptyIff(checks, x);
      var msgs := RunChecks(checks, x);
      if msgs == [] then Valid(x) else Invalid(msgs)
  }

  /** One entry of a `z.object({...})` shape whose value is a coerced number. */
  datatype FieldSpec = FieldSpec(key: string, checks: seq<Check>)

  /** The result of `safeParse`, with the error already flattened to `fieldErrors`. */
  datatype ParseResult = Success(data: map<string, real>) | Failure(fieldErrors: map<string, seq<string>>)

  predicate DistinctKeys(shape: seq<FieldSpec>) {
    forall i, j :: 0 <= i < j < |shape| ==> shape[i].key != shape[j].key
  }

  function Keys(shape: seq<FieldSpec>): set<string> {
    set f | f in shape :: f.key
  }

  function FieldOf(f: FieldSpec, raw: RawRecord): FieldResult {
    CoerceNumberField(f.checks, Lookup(raw, f.key))
  }

  /**
   * `z.object(shape).safeParse(raw)`: success carries exactly the declared keys with their
   * coerced values; failure maps exactly the failing keys to their messages.
   */
  function SafeParse(shape: seq<FieldSpec>, raw: RawRecord): (r: ParseResult)
    requires DistinctKeys(shape)
    ensures Describes(shape, raw, r)
  {
    if shape == [] then Success(map[])
    else
      var rest := SafeParse(shape[1..], raw);
      StepDescribes(shape, raw, rest);
      Step(shape[0], FieldOf(shape[0], raw), rest)
  }

  /**
   * What an object parse means for a shape and a raw record: it succeeds iff every field is
   * valid, and then holds exactly the shape's keys with the coerced values; a failure holds
   * exactly the invalid fields' keys, each with that field's messages.
   */
  predicate Describes(shape: seq<FieldSpec>, raw: RawRecord, r: ParseResult) {
    && (r.Success? <==> forall f :: f in shape ==> FieldOf(f, raw).Valid?)
    && (r.Success? ==> r.data.Keys == Keys(shape))
    && (r.Success? ==> forall k :: k in r.data ==> ToNumber(Lookup(raw, k)) == Some(r.data[k]))
    && (r.Failure? ==> forall f :: f in shape ==> (f.key in r.fieldErrors <==> FieldOf(f, raw).Invalid?))
    && (r.Failure? ==> r.fieldErrors.Keys <= Keys(shape))
    && (r.Failure? ==> forall f :: f in shape && f.key in r.fieldErrors ==> r.fieldErrors[f.key] == FieldOf(f, raw).messages)
  }

  /** Adds the first field's outcome to the outcome of the remaining fields. */
  function Step(head: FieldSpec, field: FieldResult, rest: ParseResult): ParseResult {
    match field
    case Valid(x) =>
      (match rest
       case Success(data) => Success(data[head.key := x])
       case Failure(errs) => Failure(errs))
    case Invalid(msgs) =>
      (match rest
       case Success(_) => Failure(map[head.key := msgs])
       case Failure(errs) => Failure(errs[head.key := msgs]))
  }

  lemma StepDescribes(shape: seq<FieldSpec>, raw: RawRecord, rest: ParseResult)
    requires DistinctKeys(shape) && shape != []
    requires Describes(shape[1..], raw, rest)
    ensures Describes(shape, raw, Step(shape[0], FieldOf(shape[0], raw), rest))
  {
    SplitShape(shape);
    match FieldOf(shape[0], raw)
    case Valid(_) =>
      if rest.Success? { StepValidSuccess(shape, raw, rest); } else { StepValidFailure(shape, raw, rest); }
    case Invalid(_) =>
      if rest.Success? { StepInvalidSuccess(shape, raw, rest); } else { StepInvalidFailure(shape, raw, rest); }
  }

  lemma StepValidSuccess(shape: seq<FieldSpec>, raw: RawRecord, rest: ParseResult)
    requires DistinctKeys(shape) && shape != []
    requires Describes(shape[1..], raw, rest)
    requires FieldOf(shape[0], raw).Valid? && rest.Success?
    ensures Describes(shape, raw, Step(shape[0], FieldOf(shape[0], raw), rest))
  {
    SplitShape(shape);
  }

  lemma StepValidFailure(shape: seq<FieldSpec>, raw: RawRecord, rest: ParseResult)
    requires DistinctKeys(shape) && shape != []
    requires Describes(shape[1..], raw, rest)
    requires FieldOf(shape[0], raw).Valid? && rest.Failure?
    ensures Describes(shape, raw, Step(shape[0], FieldOf(shape[0], raw), rest))
  {
    SplitShape(shape);
  }

  lemma StepInvalidSuccess(shape: seq<FieldSpec>, raw: RawRecord, rest: ParseResult)
    requires DistinctKeys(shape) && shape != []
    requires Describes(shape[1..], raw, rest)
    requires FieldOf(shape[0], raw).Invalid? && rest.Success?
    ensures Describes(shape, raw, Step(shape[0], FieldOf(shape[0], raw), rest))
  {
    SplitShape(shape);
  }

  lemma StepInvalidFailure(shape: seq<FieldSpec>, raw: RawRecord, rest: ParseResult)
    requires DistinctKeys(shape) && shape != []
    requires Describes(shape[1..], raw, rest)
    requires FieldOf(shape[0], raw).Invalid? && rest.Failure?
    ensures Describes(shape, raw, Step(shape[0], FieldOf(shape[0], raw), rest))
  {
    SplitShape(shape);
    var head, tail := shape[0], shape[1..];
    var m := rest.fieldErrors[head.key := FieldOf(head, raw).messages];
    assert Step(head, FieldOf(head, raw), rest) == Failure(m);
    forall f | f in shape
      ensures f.key in m <==> FieldOf(f, raw).Invalid?
      ensures f.key in m ==> m[f.key] == FieldOf(f, raw).messages
    {
      if f != head {
        assert f in tail && f.key in Keys(tail);
      }
    }
  }

  /** A shape is its first entry followed by its remaining entries, whose keys differ from the first. */
  lemma SplitShape(shape: seq<FieldSpec>)
    requires DistinctKeys(shape) && shape != []
    ensures DistinctKeys(shape[1..])
    ensures shape[0].key !in Keys(shape[1..])
    ensures forall f :: f in shape <==> f == shape[0] || f in shape[1..]
    ensures Keys(shape) == {shape[0].key} + Keys(shape[1..])
  {
    var tail := shape[1..];
    forall i, j | 0 <= i < j < |tail| ensures tail[i].key != tail[j].key {
      assert tail[i] == shape[i + 1] && tail[j] == shape[j + 1];
    }
    forall f | f in tail ensures f.key != shape[0].key {
      var j :| 0 <= j < |tail| && tail[j] == f;
      assert shape[j + 1] == f;
    }
    assert shape == [shape[0]] + tail;
  }

  /** Keys outside the shape do not influence the result: unknown fields are stripped. */
  lemma {:induction false} UnknownKeyIgnored(shape: seq<FieldSpec>, raw: RawRecord, k: string, v: RawValue)
    requires DistinctKeys(shape)
    requires k !in Keys(shape)
    ensures SafeParse(shape, raw[k := v]) == SafeParse(shape, raw)
  {
    if shape != [] {
      var tail := shape[1..];
      SplitShape(shape);
      assert shape[0] in shape;
      assert Lookup(raw[k := v], shape[0].key) == Lookup(raw, shape[0].key);
      UnknownKeyIgnored(tail, raw, k, v);
    }
  }

  // Plain (non-coercing) zod types used by the API's payload schema.

  /** `z.number()`: no coercion; `undefined` reads "Required". */
  function NumberField(v: RawValue): (r: Result<real, string>)
    ensures r.Ok? <==> v.Num?
    ensures r.Ok? ==> r.value == v.x
    ensures v.Undefined? ==> r == Err("Required")
  {
    match v
    case Num(x) => Ok(x)
    case Undefined => Err("Required")
    case _ => Err("Expected number, received " + TypeName(v))
  }

  /** `z.string()`. */
  function StringField(v: RawValue): (r: Result<string, string>)
    ensures r.Ok? <==> v.Str?
    ensures r.Ok? ==> r.value == v.s
    ensures v.Undefined? ==> r == Err("Required")
  {
    match v
    case Str(s) => Ok(s)
    case Undefined => Err("Required")
    case _ => Err("Expected string, received " + TypeName(v))
  }

  /** `z.string().optional()`: `undefined` is accepted as absent; `null` is not. */
  function OptionalStringField(v: RawValue): (r: Result<Option<string>, string>)
    ensures r.Ok? <==> v.Undefined? || v.Str?
    ensures r == Ok(None) <==> v.Undefined?
    ensures v.Str? ==> r == Ok(Some(v.s))
  {
    match v
    case Undefined => Ok(None)
    case Str(s) => Ok(Some(s))
    case _ => Err("Expected string, received " + TypeName(v))
  }

  /** `z.literal(lit)` for a string literal: only that exact string passes. */
  function LiteralField(lit: string, v: RawValue): (r: Result<string, string>)
    ensures r.Ok? <==> v == Str(lit)
    ensures r.Ok? ==> r.value == lit
  {
    if v == Str(lit) then Ok(lit) else Err("Invalid literal value, expected \"" + lit + "\"")
  }
}
