/** The education validator: it rewrites the four required fields of the
    request data in place, collects a message for each one left empty, and
    reports the input valid when no message was collected. */
module EducationValidation {
  import opened Js

  /** The fields the validator requires. */
  const RequiredFields: set<string> := {"school", "degree", "from", "fieldOfStudy"}

  /** The fixed message for each required field. */
  const Messages: map<string, string> := map[
    "school" := "School field is required",
    "degree" := "Degree field is required",
    "from" := "Start date is required",
    "fieldOfStudy" := "Field of study is required"]

  /** `{ errors, isValid }`. */
  datatype Verdict = Verdict(errors: map<string, string>, isValid: bool)

  /** `Validator.isEmpty(v)`: true for the empty string; it throws a TypeError
      on anything that is not a string. */
  function ValidatorIsEmpty(v: Value): (r: Completion<bool>)
    ensures r.Threw? <==> !v.Str?
    ensures r.Normal? ==> (r.value <==> v == Str(""))
  {
    if v.Str? then Normal(v.s == "") else Threw
  }

  /** The data after lines 7-10: each required field normalised, every other
      field as it was. */
  function NormalisedData(data: map<string, Value>, isEmpty: Value -> bool): (r: map<string, Value>)
    ensures r.Keys == data.Keys + RequiredFields
    ensures forall k :: k in RequiredFields ==> r[k] == OrBlank(Get(data, k), isEmpty)
    ensures forall k :: k in data && k !in RequiredFields ==> r[k] == data[k]
  {
    data + map k | k in RequiredFields :: OrBlank(Get(data, k), isEmpty)
  }

  /** Whether one of the checks on lines 12-24 throws: some required field is
      not a string once normalised. */
  predicate ChecksThrow(d: map<string, Value>) {
    exists k :: k in RequiredFields && !Get(d, k).Str?
  }

  /** The messages for the required fields that hold the empty string. */
  function ErrorsOf(d: map<string, Value>): (r: map<string, string>)
    ensures r.Keys <= RequiredFields
    ensures forall k :: k in RequiredFields ==> (k in r <==> Get(d, k) == Str(""))
    ensures forall k :: k in r ==> r[k] == Messages[k]
  {
    map k | k in RequiredFields && Get(d, k) == Str("") :: Messages[k]
  }

  /** The errors object as the JavaScript value handed to `isEmpty`. */
  function ErrorsValue(errors: map<string, string>): (r: Value)
    ensures r.Obj? && r.fields.Keys == errors.Keys
  {
    Obj(map k | k in errors :: Str(errors[k]))
  }

  /** What `validateExperienceInput(data)` returns, as a function of the data
      it was given: Threw when a check throws, otherwise the errors of the
      normalised data, and `isValid` as `isEmpty(errors)`. */
  function VerdictOf(data: map<string, Value>, isEmpty: Value -> bool): (r: Completion<Verdict>)
    ensures r.Threw? <==> ChecksThrow(NormalisedData(data, isEmpty))
    ensures r.Normal? ==> r.value.errors.Keys <= RequiredFields
    ensures r.Normal? ==> forall k :: k in r.value.errors ==> r.value.errors[k] == Messages[k]
    ensures r.Normal? ==> forall k :: k in RequiredFields ==>
      (k in r.value.errors <==> OrBlank(Get(data, k), isEmpty) == Str(""))
  {
    var d := NormalisedData(data, isEmpty);
    if ChecksThrow(d) then Threw
    else
      var errors := ErrorsOf(d);
      Normal(Verdict(errors, isEmpty(ErrorsValue(errors))))
  }

  /** Lines 7-10: each required field is replaced by its normalised value. */
  method NormaliseRequired(data: JsObject, isEmpty: Value -> bool)
    modifies data
    ensures data.fields == NormalisedData(old(data.fields), isEmpty)
  {
    ghost var original := data.fields;
    ghost var done: set<string> := {};
    RequiredNames();
    assert data.fields == NormalisedFor(original, done, isEmpty);
    NormaliseStep(original, done, "school", isEmpty);
    data.fields := data.fields["school" := if !isEmpty(Get(data.fields, "school")) then Get(data.fields, "school") else Str("")];
    done := done + {"school"};
    assert data.fields == NormalisedFor(original, done, isEmpty);
    NormaliseStep(original, done, "degree", isEmpty);
    data.fields := data.fields["degree" := if !isEmpty(Get(data.fields, "degree")) then Get(data.fields, "degree") else Str("")];
    done := done + {"degree"};
    assert data.fields == NormalisedFor(original, done, isEmpty);
    NormaliseStep(original, done, "from", isEmpty);
    data.fields := data.fields["from" := if !isEmpty(Get(data.fields, "from")) then Get(data.fields, "from") else Str("")];
    done := done + {"from"};
    assert data.fields == NormalisedFor(original, done, isEmpty);
    NormaliseStep(original, done, "fieldOfStudy", isEmpty);
    data.fields := data.fields["fieldOfStudy" := if !isEmpty(Get(data.fields, "fieldOfStudy")) then Get(data.fields, "fieldOfStudy") else Str("")];
    done := done + {"fieldOfStudy"};
    assert data.fields == NormalisedFor(original, done, isEmpty);
  }

  /** The data once the fields in `done` have been normalised. */
  function NormalisedFor(data: map<string, Value>, done: set<string>, isEmpty: Value -> bool): map<string, Value> {
    data + map k | k in done :: OrBlank(Get(data, k), isEmpty)
  }

  /** Normalising one more field k of the partly normalised data. */
  lemma NormaliseStep(data: map<string, Value>, done: set<string>, k: string, isEmpty: Value -> bool)
    requires k !in done
    ensures var cur := NormalisedFor(data, done, isEmpty);
      cur[k := OrBlank(Get(cur, k), isEmpty)] == NormalisedFor(data, done + {k}, isEmpty)
  {
    var cur := NormalisedFor(data, done, isEmpty);
    assert Get(cur, k) == Get(data, k);
  }

  /** Before the first check no message has been collected. */
  lemma NoErrorsYet(d: map<string, Value>)
    ensures ErrorsFor(d, {}) == map[]
  {
  }

  /** When every required field holds a string, no check throws. */
  lemma NoCheckThrows(d: map<string, Value>)
    requires Get(d, "school").Str? && Get(d, "degree").Str?
    requires Get(d, "from").Str? && Get(d, "fieldOfStudy").Str?
    ensures !ChecksThrow(d)
  {
  }

  /** Lines 4-29: the in-place rewrite of the four fields, then the four
      checks, each adding its message to `errors`. */
  method Validate(data: JsObject, isEmpty: Value -> bool) returns (r: Completion<Verdict>)
    modifies data
    ensures data.fields == NormalisedData(old(data.fields), isEmpty)
    ensures r == VerdictOf(old(data.fields), isEmpty)
  {
    NormaliseRequired(data, isEmpty);
    var errors: map<string, string> := map[];
    ghost var d := data.fields;
    ghost var done: set<string> := {};
    NoErrorsYet(d);

    var empty := ValidatorIsEmpty(Get(data.fields, "school"));
    if empty.Threw? {
      assert !Get(d, "school").Str?;
      return Threw;
    }
    if empty.value { errors := errors["school" := "School field is required"]; }
    ErrorStep(d, done, "school");
    done := done + {"school"};
    assert errors == ErrorsFor(d, done);

    empty := ValidatorIsEmpty(Get(data.fields, "degree"));
    if empty.Threw? {
      assert !Get(d, "degree").Str?;
      return Threw;
    }
    if empty.value { errors := errors["degree" := "Degree field is required"]; }
    ErrorStep(d, done, "degree");
    done := done + {"degree"};
    assert errors == ErrorsFor(d, done);

    empty := ValidatorIsEmpty(Get(data.fields, "from"));
    if empty.Threw? {
      assert !Get(d, "from").Str?;
      return Threw;
    }
    if empty.value { errors := errors["from" := "Start date is required"]; }
    ErrorStep(d, done, "from");
    done := done + {"from"};
    assert errors == ErrorsFor(d, done);

    empty := ValidatorIsEmpty(Get(data.fields, "fieldOfStudy"));
    if empty.Threw? {
      assert !Get(d, "fieldOfStudy").Str?;
      return Threw;
    }
    if empty.value { errors := errors["fieldOfStudy" := "Field of study is required"]; }
    ErrorStep(d, done, "fieldOfStudy");
    done := done + {"fieldOfStudy"};
    assert errors == ErrorsFor(d, done);

    NoCheckThrows(d);
    RequiredNames();
    assert done == RequiredFields;
    assert errors == ErrorsOf(d);
    r := Normal(Verdict(errors, isEmpty(ErrorsValue(errors))));
  }

  /** The messages collected after checking the fields in `done`. */
  function ErrorsFor(d: map<string, Value>, done: set<string>): map<string, string>
    requires done <= RequiredFields
  {
    map k | k in done && Get(d, k) == Str("") :: Messages[k]
  }

  /** The required fields, spelled out in the order they are checked. */
  lemma RequiredNames()
    ensures {} + {"school"} + {"degree"} + {"from"} + {"fieldOfStudy"} == RequiredFields
  {
  }

  /** One check `if (Validator.isEmpty(data.k)) errors.k = message` extends the
      messages collected so far by the one for k. */
  lemma ErrorStep(d: map<string, Value>, done: set<string>, k: string)
    requires done <= RequiredFields && k in RequiredFields && k !in done
    ensures ErrorsFor(d, done + {k}) ==
      if Get(d, k) == Str("") then ErrorsFor(d, done)[k := Messages[k]] else ErrorsFor(d, done)
  {
  }

  /** Under the `is-empty` contract, a field gets a message exactly when
      `isEmpty` calls it empty. */
  lemma ErrorsExactlyForEmptyFields(data: map<string, Value>, isEmpty: Value -> bool)
    requires IsEmptyContract(isEmpty)
    requires VerdictOf(data, isEmpty).Normal?
    ensures forall k :: k in RequiredFields ==>
      (k in VerdictOf(data, isEmpty).value.errors <==> isEmpty(Get(data, k)))
  {
    var d := NormalisedData(data, isEmpty);
    forall k | k in RequiredFields
      ensures k in VerdictOf(data, isEmpty).value.errors <==> isEmpty(Get(data, k))
    {
      if !isEmpty(Get(data, k)) {
        assert Get(d, k) == Get(data, k);
        assert Get(data, k) != Str("");
      }
    }
  }

  /** Under the `is-empty` contract, `isValid` holds exactly when no message was
      collected, that is when none of the four fields is empty. */
  lemma ValidIffAllFieldsFilled(data: map<string, Value>, isEmpty: Value -> bool)
    requires IsEmptyContract(isEmpty)
    requires VerdictOf(data, isEmpty).Normal?
    ensures VerdictOf(data, isEmpty).value.isValid <==> VerdictOf(data, isEmpty).value.errors == map[]
    ensures VerdictOf(data, isEmpty).value.isValid <==>
      forall k :: k in RequiredFields ==> !isEmpty(Get(data, k))
  {
    var v := VerdictOf(data, isEmpty).value;
    var m := ErrorsValue(v.errors).fields;
    assert v.isValid == isEmpty(Obj(m));
    assert m == map[] <==> v.errors == map[] by {
      if m == map[] {
        assert v.errors.Keys == {};
      }
    }
    ErrorsExactlyForEmptyFields(data, isEmpty);
    if v.errors != map[] {
      var k :| k in v.errors;
      assert isEmpty(Get(data, k));
    }
  }

  /** Under the `is-empty` contract, a check throws exactly when a required
      field is neither empty nor a string (a non-empty object, say). */
  lemma ThrowsIffNonEmptyNonString(data: map<string, Value>, isEmpty: Value -> bool)
    requires IsEmptyContract(isEmpty)
    ensures VerdictOf(data, isEmpty).Threw? <==>
      exists k :: k in RequiredFields && !isEmpty(Get(data, k)) && !Get(data, k).Str?
  {
    var d := NormalisedData(data, isEmpty);
    if ChecksThrow(d) {
      var k :| k in RequiredFields && !Get(d, k).Str?;
      assert !isEmpty(Get(data, k));
    }
    if exists k :: k in RequiredFields && !isEmpty(Get(data, k)) && !Get(data, k).Str? {
      var k :| k in RequiredFields && !isEmpty(Get(data, k)) && !Get(data, k).Str?;
      assert !Get(d, k).Str?;
    }
  }

  /** Normalising twice is normalising once, and validating normalised data
      gives the verdict the original data got. */
  lemma NormaliseIdempotent(data: map<string, Value>, isEmpty: Value -> bool)
    requires isEmpty(Str(""))
    ensures NormalisedData(NormalisedData(data, isEmpty), isEmpty) == NormalisedData(data, isEmpty)
    ensures VerdictOf(NormalisedData(data, isEmpty), isEmpty) == VerdictOf(data, isEmpty)
  {
    var d := NormalisedData(data, isEmpty);
    var dd := NormalisedData(d, isEmpty);
    forall k | k in RequiredFields
      ensures dd[k] == d[k]
    {
      assert Get(d, k) == d[k];
    }
    assert dd == d;
  }

  /** Running the validator a second time on the data it rewrote: the data stays
      as it is and the verdict is the same. */
  method ValidateTwice(data: JsObject, isEmpty: Value -> bool)
    returns (first: Completion<Verdict>, second: Completion<Verdict>)
    requires isEmpty(Str(""))
    modifies data
    ensures second == first
    ensures data.fields == NormalisedData(old(data.fields), isEmpty)
  {
    first := Validate(data, isEmpty);
    ghost var once := data.fields;
    second := Validate(data, isEmpty);
    NormaliseIdempotent(old(data.fields), isEmpty);
  }
}
