/**
 * Payload validation as the handlers see it: the field errors a `validate()`
 * call reports, `ValidatedJson::validate_json`, and `format_validation_errors`.
 *
 * The `validator` crate reports its field errors in a hash map; here they are
 * a sequence, in the order the fields are declared.
 */
module Validation {
  import opened Basics
  import opened Errors
  import opened Text

  /** One failed constraint of a field; `message` is the constraint's `message = ...`. */
  datatype FieldError = FieldError(code: string, message: Option<string>)

  /** The failed constraints of one field, in the order they are declared. */
  datatype FieldErrors = FieldErrors(field: string, errors: seq<FieldError>)

  type ValidationErrors = seq<FieldErrors>

  const FailurePrefix := "验证失败: "
  const DefaultMessage := "Invalid value"

  /** "field: message" for one failed constraint. */
  function Entry(field: string, e: FieldError): string {
    field + ": " + (match e.message case Some(m) => m case None => DefaultMessage)
  }

  /** The entries of one field, one per failed constraint. */
  function FieldEntries(field: string, errors: seq<FieldError>): (r: seq<string>)
    ensures |r| == |errors|
    ensures forall k :: 0 <= k < |r| ==> r[k] == Entry(field, errors[k])
    decreases |errors|
  {
    if |errors| == 0 then [] else [Entry(field, errors[0])] + FieldEntries(field, errors[1..])
  }

  /** The `flat_map` over all fields. */
  function Entries(errs: ValidationErrors): seq<string>
    decreases |errs|
  {
    if |errs| == 0 then [] else FieldEntries(errs[0].field, errs[0].errors) + Entries(errs[1..])
  }

  /** The number of failed constraints over all fields. */
  function ErrorCount(errs: ValidationErrors): nat
    decreases |errs|
  {
    if |errs| == 0 then 0 else |errs[0].errors| + ErrorCount(errs[1..])
  }

  /** There is exactly one entry per failed constraint. */
  lemma {:induction false} EntriesCount(errs: ValidationErrors)
    ensures |Entries(errs)| == ErrorCount(errs)
    decreases |errs|
  {
    if |errs| > 0 {
      EntriesCount(errs[1..]);
    }
  }

  /** Each field's entries appear in the flattened list, in order, after those of the fields before it. */
  lemma {:induction false} EntriesOfField(errs: ValidationErrors, f: nat, k: nat)
    requires f < |errs| && k < |errs[f].errors|
    ensures ErrorCount(errs[..f]) + k < |Entries(errs)|
    ensures Entries(errs)[ErrorCount(errs[..f]) + k] == Entry(errs[f].field, errs[f].errors[k])
    decreases f
  {
    EntriesCount(errs);
    var head := FieldEntries(errs[0].field, errs[0].errors);
    if f == 0 {
      assert errs[..0] == [];
    } else {
      EntriesOfField(errs[1..], f - 1, k);
      assert errs[1..][..f - 1] == errs[..f][1..];
      assert ErrorCount(errs[..f]) == |errs[0].errors| + ErrorCount(errs[1..][..f - 1]);
    }
  }

  /** `format_validation_errors` */
  function FormatValidationErrors(errs: ValidationErrors): (r: string)
    ensures StartsWith(r, FailurePrefix)
  {
    var r := FailurePrefix + Join(Entries(errs), ", ");
    assert r[..|FailurePrefix|] == FailurePrefix;
    r
  }

  /** With a single failed constraint the message is the prefix and that one entry. */
  lemma SingleErrorMessage(field: string, e: FieldError)
    ensures FormatValidationErrors([FieldErrors(field, [e])]) == FailurePrefix + Entry(field, e)
  {
    assert Entries([FieldErrors(field, [e])]) == [Entry(field, e)];
  }

  /** `ValidatedJson::validate_json`: the payload unchanged when nothing failed, otherwise a
      `Validation` error (status 400) carrying the formatted message. */
  function ValidateJson<T>(payload: T, errs: ValidationErrors): (r: Result<T, AppError>)
    ensures r.Ok? <==> errs == []
    ensures r.Ok? ==> r.value == payload
    ensures r.Err? ==> r.error == Validation(FormatValidationErrors(errs))
    ensures r.Err? ==> StatusCode(r.error) == 400
  {
    if errs == [] then Ok(payload) else Err(Validation(FormatValidationErrors(errs)))
  }
}
