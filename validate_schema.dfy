/** Turning the foreign `jsonschema` validator's error list into the
    server's single validation error (src/validateSchema.ts). The validator
    itself is a parameter: a function from payload and schema to its list of
    errors. */
module SchemaValidation {
  import opened Js
  import opened Config

  /** One entry of the validator's `result.errors`. */
  datatype ValidationError = ValidationError(name: string, property: string, message: string)

  /** What `jsonschema.validate(data, schema).errors` returns. */
  type Validator = (Value, Schema) -> seq<ValidationError>

  const AdditionalProperties := "additionalProperties"
  const InstancePrefix := "instance."

  /** The message for a first error. */
  function Message(first: ValidationError): string {
    if first.name == AdditionalProperties then first.message
    else "Key " + RemoveFirst(first.property, InstancePrefix) + " is required"
  }

  /** `validateSchema`: `true` when the list is empty, otherwise throws one
      Error whose message comes from the first entry and whose status is 400. */
  function ValidateSchema(errors: seq<ValidationError>): (r: Completion<bool>)
    ensures r.Normal? <==> |errors| == 0
    ensures r.Normal? ==> r.value
    ensures r.Throw? ==> r.thrown.ErrorObj? && r.thrown.name == "Error" && r.thrown.status == Num(400)
    ensures |errors| > 0 && errors[0].name == AdditionalProperties ==>
      r.thrown.message == errors[0].message
    ensures |errors| > 0 && errors[0].name != AdditionalProperties ==>
      r.thrown.message == "Key " + RemoveFirst(errors[0].property, InstancePrefix) + " is required"
  {
    if |errors| > 0 then
      Throw(ErrorObj("Error", Message(errors[0]), Num(400)))
    else
      Normal(true)
  }

  /** Only the first error decides the outcome; the rest are ignored. */
  lemma OnlyFirstErrorCounts(errors: seq<ValidationError>, others: seq<ValidationError>)
    requires |errors| > 0
    ensures ValidateSchema(errors) == ValidateSchema([errors[0]] + others)
  {
  }

  /** The usual property path `instance.<field>` loses its `instance.` and
      nothing else, so a missing `email` reads "Key email is required". */
  lemma {:induction false} MissingFieldMessage(name: string, field: string, message: string)
    requires name != AdditionalProperties
    ensures ValidateSchema([ValidationError(name, InstancePrefix + field, message)])
         == Throw(ErrorObj("Error", "Key " + field + " is required", Num(400)))
  {
    var s := InstancePrefix + field;
    assert OccursAt(s, InstancePrefix, 0) by {
      assert s[..|InstancePrefix|] == InstancePrefix;
    }
    assert s[|InstancePrefix|..] == field;
  }

  /** Only the first `instance.` is cut, wherever it stands: a property that
      has it in the middle loses it there. */
  lemma {:induction false} FirstOccurrenceAnywhere(head: string, rest: string)
    requires forall j: nat :: !OccursAt(head + InstancePrefix, InstancePrefix, j) || j == |head|
    ensures RemoveFirst(head + InstancePrefix + rest, InstancePrefix) == head + rest
  {
    var s := head + InstancePrefix + rest;
    var k := |head|;
    assert OccursAt(s, InstancePrefix, k) by {
      assert s[k..k + |InstancePrefix|] == InstancePrefix;
    }
    forall j: nat | j < k
      ensures !OccursAt(s, InstancePrefix, j)
    {
      // Before `k` the window lies inside `head + InstancePrefix`.
      var t := head + InstancePrefix;
      assert s[j..j + |InstancePrefix|] == t[j..j + |InstancePrefix|];
      assert !OccursAt(t, InstancePrefix, j);
    }
    assert IndexOf(s, InstancePrefix) == Some(k);
    assert s[..k] == head;
    assert s[k + |InstancePrefix|..] == rest;
  }

  /** A property that does not contain `instance.` is quoted whole. */
  lemma PropertyWithoutPrefixQuoted(name: string, property: string, message: string)
    requires name != AdditionalProperties
    requires IndexOf(property, InstancePrefix).None?
    ensures ValidateSchema([ValidationError(name, property, message)])
         == Throw(ErrorObj("Error", "Key " + property + " is required", Num(400)))
  {
  }

  /** The root, reported as `instance`, is too short to contain
      `instance.`, so it is quoted whole: "Key instance is required". */
  lemma RootPropertyMessage(name: string, message: string)
    requires name != AdditionalProperties
    ensures ValidateSchema([ValidationError(name, "instance", message)])
         == Throw(ErrorObj("Error", "Key " + "instance" + " is required", Num(400)))
  {
    ShorterHasNoOccurrence("instance", InstancePrefix);
    PropertyWithoutPrefixQuoted(name, "instance", message);
  }
}
