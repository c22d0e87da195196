/**
 * The declarative field check of the request handlers: a field names a list
 * of rules in declaration order, each with an optional message of its own,
 * and a field-level message for the rules that have none. Every rule runs,
 * and every failing rule contributes one error, in declaration order.
 */
module Validation {
  import opened Wrappers
  import opened Values

  datatype Rule =
    | IsAlpha
    | IsLength(min: nat, max: nat)
    | IsNumeric
      /** The custom rule `!!users[value]`. */
    | IsExistingUser

  datatype Check = Check(rule: Rule, errorMessage: Option<string>)

  datatype FieldSchema = FieldSchema(field: string, checks: seq<Check>, errorMessage: string)

  datatype ValidationError = ValidationError(param: string, msg: string)

  /**
   * The position `users[value]` reads, when it reads an occupied slot. This
   * is Some only for a canonical index key below |users|; every stored
   * record is a JSON object and so truthy. It is narrower than
   * `!!users[value]`: inherited Array properties (`constructor`, `push`,
   * `__proto__`, and `length` once the store is non-empty) are truthy in
   * JavaScript but None here.
   */
  function UserIndex(users: seq<Record>, v: Option<Value>): (i: Option<nat>)
    ensures i.Some? ==> i.value < |users|
  {
    match ParseIndex(PropertyKey(v))
    case Some(n) => if n < |users| then Some(n) else None
    case None => None
  }

  /** Whether a rule accepts the value; only IsExistingUser looks at the store. */
  predicate Holds(rule: Rule, v: Option<Value>, users: seq<Record>) {
    match rule
    case IsAlpha => IsAlphaText(AsText(v))
    case IsLength(min, max) => min <= |AsText(v)| <= max
    case IsNumeric => IsNumericText(AsText(v))
    case IsExistingUser => UserIndex(users, v).Some?
  }

  /** The error a failing check reports: its own message, else the field's. */
  function ErrorFor(schema: FieldSchema, c: Check): (e: ValidationError) {
    ValidationError(schema.field, if c.errorMessage.Some? then c.errorMessage.value else schema.errorMessage)
  }

  /** All errors of one field, in declaration order; empty means valid. */
  function Validate(schema: FieldSchema, v: Option<Value>, users: seq<Record>): (errs: seq<ValidationError>)
    ensures |errs| <= |schema.checks|
    ensures errs == [] <==> forall i :: 0 <= i < |schema.checks| ==> Holds(schema.checks[i].rule, v, users)
    ensures forall e :: e in errs ==> e.param == schema.field
    decreases |schema.checks|
  {
    if schema.checks == [] then []
    else
      var rest := Validate(schema.(checks := schema.checks[1..]), v, users);
      if Holds(schema.checks[0].rule, v, users) then rest
      else [ErrorFor(schema, schema.checks[0])] + rest
  }

  /** The first error reported is the one of the first failing check. */
  lemma {:induction false} FirstErrorIsFirstFailure(schema: FieldSchema, v: Option<Value>, users: seq<Record>, k: nat)
    requires k < |schema.checks| && !Holds(schema.checks[k].rule, v, users)
    requires forall j :: 0 <= j < k ==> Holds(schema.checks[j].rule, v, users)
    ensures Validate(schema, v, users) != []
    ensures Validate(schema, v, users)[0] == ErrorFor(schema, schema.checks[k])
    decreases k
  {
    if k > 0 {
      var tail := schema.(checks := schema.checks[1..]);
      FirstErrorIsFirstFailure(tail, v, users, k - 1);
    }
  }

  /** A field with one check reports that check's error exactly when it fails. */
  lemma ValidateOne(schema: FieldSchema, v: Option<Value>, users: seq<Record>)
    requires |schema.checks| == 1
    ensures Validate(schema, v, users)
            == if Holds(schema.checks[0].rule, v, users) then [] else [ErrorFor(schema, schema.checks[0])]
  {
    assert schema.(checks := schema.checks[1..]).checks == [];
  }

  /** The errors of checks `a + b` are the errors of `a` followed by the errors of `b`. */
  lemma {:induction false} ValidateConcat(schema: FieldSchema, a: seq<Check>, b: seq<Check>, v: Option<Value>, users: seq<Record>)
    ensures Validate(schema.(checks := a + b), v, users)
            == Validate(schema.(checks := a), v, users) + Validate(schema.(checks := b), v, users)
    decreases |a|
  {
    if a == [] {
      assert a + b == b;
    } else {
      var whole := schema.(checks := a + b);
      var first := schema.(checks := a);
      assert whole.checks[0] == first.checks[0];
      assert whole.(checks := whole.checks[1..]) == schema.(checks := a[1..] + b);
      assert first.(checks := first.checks[1..]) == schema.(checks := a[1..]);
      ValidateConcat(schema, a[1..], b, v, users);
    }
  }

  /** A field with two checks reports the first check's failure, then the second's. */
  lemma ValidateTwo(schema: FieldSchema, v: Option<Value>, users: seq<Record>)
    requires |schema.checks| == 2
    ensures Validate(schema, v, users)
            == (if Holds(schema.checks[0].rule, v, users) then [] else [ErrorFor(schema, schema.checks[0])])
             + (if Holds(schema.checks[1].rule, v, users) then [] else [ErrorFor(schema, schema.checks[1])])
  {
    var second := schema.(checks := schema.checks[1..]);
    assert second.checks[0] == schema.checks[1];
    assert second.(checks := second.checks[1..]).checks == [];
  }
}
