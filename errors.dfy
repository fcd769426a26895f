/**
 * `parseApiError` in `frontend/src/lib/errors.ts`: the message to show for
 * a failed request, and a map from field path to the message to show under
 * that field.
 */
module Errors {
  import opened Wrappers

  /** One entry of a validation response's `errors` list. */
  datatype ApiFieldError = ApiFieldError(path: string, message: string)

  /** A response body: its `message` and, when it is an array, its `errors`. */
  datatype ApiErrorData = ApiErrorData(message: Option<string>, errors: Option<seq<ApiFieldError>>)

  /** What was thrown: an axios error with or without a response body, or anything else. */
  datatype ClientError = AxiosError(data: Option<ApiErrorData>) | OtherError

  const VALIDATION_FAILED := "Validation failed."
  const GENERIC_ERROR := "An error occurred. Please try again."
  const UNEXPECTED_ERROR := "An unexpected error occurred."

  /** `m || fallback`: an absent or empty message falls back. */
  function OrDefault(m: Option<string>, fallback: string): (r: string)
    ensures r == fallback || (m.Some? && r == m.value && r != "")
    ensures m.Some? && m.value != "" ==> r == m.value
  {
    if m.Some? && m.value != "" then m.value else fallback
  }

  /** The field map after writing the entries of `errs` in order, a later entry overwriting an earlier one. */
  function FieldMap(errs: seq<ApiFieldError>): map<string, string> {
    if errs == [] then map[]
    else FieldMap(errs[..|errs| - 1])[errs[|errs| - 1].path := errs[|errs| - 1].message]
  }

  /** The index of the last entry whose path is `p`. */
  predicate LastWithPath(errs: seq<ApiFieldError>, p: string, i: nat) {
    i < |errs| && errs[i].path == p && forall j | i < j < |errs| :: errs[j].path != p
  }

  /** The keys are exactly the listed paths, and each value is the message of the last entry with that path. */
  lemma {:induction false} FieldMapIsLastWins(errs: seq<ApiFieldError>)
    ensures FieldMap(errs).Keys == set e | e in errs :: e.path
    ensures forall p | p in FieldMap(errs) :: exists i: nat :: LastWithPath(errs, p, i) && FieldMap(errs)[p] == errs[i].message
  {
    if errs != [] {
      var n := |errs| - 1;
      var init := errs[..n];
      FieldMapIsLastWins(init);
      assert errs == init + [errs[n]];
      forall p | p in FieldMap(errs)
        ensures exists i: nat :: LastWithPath(errs, p, i) && FieldMap(errs)[p] == errs[i].message
      {
        if p == errs[n].path {
          assert LastWithPath(errs, p, n);
        } else {
          var i: nat :| LastWithPath(init, p, i) && FieldMap(init)[p] == init[i].message;
          assert LastWithPath(errs, p, i);
        }
      }
    }
  }

  /** `parseApiError`: the `forEach` writes each entry into the field map in place. */
  method ParseApiError(error: ClientError) returns (message: string, fieldErrors: map<string, string>)
    ensures error.OtherError? ==> message == UNEXPECTED_ERROR && fieldErrors == map[]
    ensures error.AxiosError? && error.data.Some? && error.data.value.errors.Some? ==>
      message == OrDefault(error.data.value.message, VALIDATION_FAILED)
      && fieldErrors == FieldMap(error.data.value.errors.value)
    ensures error.AxiosError? && (error.data.None? || error.data.value.errors.None?) ==>
      fieldErrors == map[]
      && message == OrDefault(if error.data.Some? then error.data.value.message else None, GENERIC_ERROR)
  {
    if error.AxiosError? {
      var data := error.data;
      if data.Some? && data.value.errors.Some? {
        var errs := data.value.errors.value;
        fieldErrors := map[];
        for i := 0 to |errs|
          invariant fieldErrors == FieldMap(errs[..i])
        {
          assert errs[..i + 1][..i] == errs[..i];
          fieldErrors := fieldErrors[errs[i].path := errs[i].message];
        }
        assert errs[..|errs|] == errs;
        message := OrDefault(data.value.message, VALIDATION_FAILED);
        return;
      }
      message := OrDefault(if data.Some? then data.value.message else None, GENERIC_ERROR);
      fieldErrors := map[];
      return;
    }
    message := UNEXPECTED_ERROR;
    fieldErrors := map[];
  }
}
