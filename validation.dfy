/**
 * The strict payload validator: a request payload is accepted only when its
 * fields are exactly the schema's fields, each holding a value of the
 * primitive type the schema names.
 */
module Validation {
  import opened Wrappers
  import opened Errors

  /** A value a callable request can carry (the payload is decoded JSON). */
  datatype Value =
    | StringValue(s: string)
    | NumberValue(n: real)
    | BooleanValue(b: bool)
    | NullValue
    | ArrayValue(items: seq<Value>)
    | ObjectValue(fields: map<string, Value>)

  /** The results of JavaScript's `typeof` that a decoded JSON value can have. */
  datatype TypeTag = StringType | NumberType | BooleanType | ObjectType

  /** A request payload: field name to value. */
  type Payload = map<string, Value>

  /** An expected shape: field name to the `typeof` tag its value must have. */
  type Schema = map<string, TypeTag>

  /** `typeof v`; `null` and arrays report "object" as in JavaScript. */
  function TypeOf(v: Value): (t: TypeTag)
    ensures t == StringType <==> v.StringValue?
    ensures t == NumberType <==> v.NumberValue?
    ensures t == BooleanType <==> v.BooleanValue?
  {
    match v
    case StringValue(_) => StringType
    case NumberValue(_) => NumberType
    case BooleanValue(_) => BooleanType
    case NullValue => ObjectType
    case ArrayValue(_) => ObjectType
    case ObjectValue(_) => ObjectType
  }

  /** Field `key` of `data` is declared by `schema` with the tag of its value. */
  predicate FieldMatches(data: Payload, schema: Schema, key: string)
    requires key in data
  {
    key in schema && TypeOf(data[key]) == schema[key]
  }

  /**
   * The intended meaning of validation, stated independently of how it is
   * checked: the payload has exactly the schema's fields, and every field's
   * value has the declared type.
   */
  predicate Conforms(data: Payload, schema: Schema) {
    && data.Keys == schema.Keys
    && forall key :: key in data ==> TypeOf(data[key]) == schema[key]
  }

  /**
   * What validation decides: first the field counts must agree, then every
   * payload field must be declared with its value's type. This is the
   * specification `DataValidator` is proved against.
   */
  function Validate(data: Payload, schema: Schema): (o: Outcome<HttpsError>)
    ensures o.Pass? <==> Conforms(data, schema)
    ensures o.Fail? ==> o.error.code == InvalidArgument
    ensures |data| != |schema| ==> o == Fail(HttpsError(InvalidArgument, KeyCountMessage))
    ensures |data| == |schema| && o.Fail? ==> o.error.message == PropertiesMessage
  {
    if |data| != |schema| then
      Fail(HttpsError(InvalidArgument, KeyCountMessage))
    else if exists key :: key in data && !FieldMatches(data, schema, key) then
      Fail(HttpsError(InvalidArgument, PropertiesMessage))
    else
      assert data.Keys <= schema.Keys by {
        forall key | key in data ensures key in schema {
          assert FieldMatches(data, schema, key);
        }
      }
      SubsetOfSameSize(data.Keys, schema.Keys);
      Pass
  }

  /** A subset with as many elements as its superset is the superset. */
  lemma SubsetOfSameSize<T>(a: set<T>, b: set<T>)
    requires a <= b && |a| == |b|
    ensures a == b
  {
    if a != b {
      var x :| x in b && x !in a;
      assert a <= b - {x};
      SubsetSize(a, b - {x});
      assert false;
    }
  }

  /** A subset is no larger than its superset. */
  lemma {:induction false} SubsetSize<T>(a: set<T>, b: set<T>)
    requires a <= b
    ensures |a| <= |b|
    decreases b
  {
    if a != {} {
      var x :| x in a;
      SubsetSize(a - {x}, b - {x});
    }
  }

  /**
   * The validator as the handlers run it: reject on a field-count mismatch,
   * then visit the payload's fields one at a time and reject at the first one
   * the schema does not declare with that type.
   */
  method DataValidator(data: Payload, schema: Schema) returns (o: Outcome<HttpsError>)
    ensures o == Validate(data, schema)
  {
    if |data| != |schema| {
      return Fail(HttpsError(InvalidArgument, KeyCountMessage));
    }
    var pending := data.Keys;
    while pending != {}
      invariant pending <= data.Keys
      invariant forall key :: key in data && key !in pending ==> FieldMatches(data, schema, key)
      decreases pending
    {
      var key :| key in pending;
      if !(key in schema && TypeOf(data[key]) == schema[key]) {
        assert !FieldMatches(data, schema, key);
        return Fail(HttpsError(InvalidArgument, PropertiesMessage));
      }
      pending := pending - {key};
    }
    return Pass;
  }

  /** Any field the schema does not declare makes the payload invalid. */
  lemma ExtraFieldRejected(data: Payload, schema: Schema, key: string)
    requires key in data && key !in schema
    ensures Validate(data, schema).Fail?
    ensures Validate(data, schema).error.code == InvalidArgument
  {
  }

  /** Any declared field the payload lacks makes the payload invalid. */
  lemma MissingFieldRejected(data: Payload, schema: Schema, key: string)
    requires key in schema && key !in data
    ensures Validate(data, schema).Fail?
    ensures Validate(data, schema).error.code == InvalidArgument
  {
  }

  /** A field whose value has another type than declared makes the payload invalid. */
  lemma MistypedFieldRejected(data: Payload, schema: Schema, key: string)
    requires key in data && key in schema && TypeOf(data[key]) != schema[key]
    ensures Validate(data, schema) == Fail(HttpsError(InvalidArgument,
      if |data| != |schema| then KeyCountMessage else PropertiesMessage))
  {
  }
}
