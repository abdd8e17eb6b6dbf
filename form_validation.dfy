/** The `useFormValidation(rules)` hook of src/hooks/useFormValidation.ts:
  * the state cell `errors` becomes a field, the callbacks methods and
  * functions over it. A rule answers `null` (`None`) or a message. */
module FormValidation {
  import opened Wrappers
  import JsValues

  type Rule = JsValues.Value -> Option<string>

  /** `data[field]`: a missing field reads as `undefined`. */
  function FieldValue(data: map<string, JsValues.Value>, field: string): (v: JsValues.Value)
    ensures field !in data ==> v == JsValues.Undefined
    ensures field in data ==> v == data[field]
  {
    if field in data then data[field] else JsValues.Undefined
  }

  /** The rule of `field` rejects its value: it answers a truthy message. */
  predicate Fails(rules: map<string, Rule>, data: map<string, JsValues.Value>, field: string)
    requires field in rules
  {
    Truthy(rules[field](FieldValue(data, field)))
  }

  /** The `newErrors` object `validate(data)` builds: one entry per field
    * whose rule fails, holding its message. */
  function Failures(rules: map<string, Rule>, data: map<string, JsValues.Value>): (e: map<string, string>)
    ensures forall f :: f in e <==> f in rules && Fails(rules, data, f)
    ensures forall f :: f in e ==> e[f] != "" && rules[f](FieldValue(data, f)) == Some(e[f])
  {
    map f | f in rules && Fails(rules, data, f) :: rules[f](FieldValue(data, f)).value
  }

  /** The form is valid exactly when no rule fails; fields without a rule
    * are never looked at. */
  lemma {:induction false} FailuresEmptyIff(rules: map<string, Rule>, data: map<string, JsValues.Value>)
    ensures Failures(rules, data) == map[] <==> forall f :: f in rules ==> !Fails(rules, data, f)
    ensures forall extra :: extra !in rules ==>
      Failures(rules, data[extra := JsValues.Undefined]) == Failures(rules, data)
  {
    if Failures(rules, data) != map[] {
      var f :| f in Failures(rules, data);
    }
    forall extra | extra !in rules
      ensures Failures(rules, data[extra := JsValues.Undefined]) == Failures(rules, data)
    {
      var d2 := data[extra := JsValues.Undefined];
      assert forall f :: f in rules ==> FieldValue(d2, f) == FieldValue(data, f);
    }
  }

  class Form {
    /** The rules the hook was created with. */
    const rules: map<string, Rule>
    /** The `errors` state. */
    var errors: map<string, string>

    /** Every stored message is truthy. */
    ghost predicate Valid()
      reads this
    {
      forall f :: f in errors ==> errors[f] != ""
    }

    constructor (rules: map<string, Rule>)
      ensures this.rules == rules && errors == map[] && Valid()
    {
      this.rules := rules;
      errors := map[];
    }

    /** `validate(data)`: the rules are applied field by field, the errors
      * replaced by the failures found, and the answer is whether there are
      * none. */
    method Validate(data: map<string, JsValues.Value>) returns (ok: bool)
      modifies this
      ensures errors == Failures(rules, data)
      ensures ok <==> errors == map[]
      ensures ok <==> forall f :: f in rules ==> !Fails(rules, data, f)
      ensures Valid()
    {
      var newErrors: map<string, string> := map[];
      var todo := rules.Keys;
      while todo != {}
        invariant todo <= rules.Keys
        invariant forall f :: f in newErrors <==> f in rules && f !in todo && Fails(rules, data, f)
        invariant forall f :: f in newErrors ==> newErrors[f] == rules[f](FieldValue(data, f)).value
        decreases todo
      {
        var field :| field in todo;
        var error := rules[field](FieldValue(data, field));
        if Truthy(error) {
          newErrors := newErrors[field := error.value];
        }
        todo := todo - {field};
      }
      errors := newErrors;
      ok := |newErrors| == 0;
      FailuresEmptyIff(rules, data);
    }

    /** `clearError(field)` */
    method ClearError(field: string)
      requires Valid()
      modifies this
      ensures errors == old(errors) - {field}
      ensures !HasError(field) && Valid()
      ensures forall f :: f != field ==> HasError(f) == old(HasError(f)) && GetError(f) == old(GetError(f))
    {
      errors := errors - {field};
    }

    /** `clearAllErrors()` */
    method ClearAllErrors()
      modifies this
      ensures errors == map[] && Valid()
      ensures forall f :: !HasError(f)
    {
      errors := map[];
    }

    /** `hasError(field)`: `!!errors[field]`. */
    predicate HasError(field: string)
      reads this
    {
      field in errors && errors[field] != ""
    }

    /** `getError(field)` */
    function GetError(field: string): (r: Option<string>)
      reads this
      ensures r.Some? <==> field in errors
      ensures r.Some? ==> r.value == errors[field]
    {
      if field in errors then Some(errors[field]) else None
    }

    /** In a valid state a field has an error exactly when it has a
      * message. */
    lemma HasErrorIffMessage(field: string)
      requires Valid()
      ensures HasError(field) <==> GetError(field).Some?
    {
    }
  }
}
