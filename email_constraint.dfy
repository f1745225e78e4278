/**
 * EmailConstraint: null and the empty string pass; any other value must be
 * a scalar or an object with __toString (else `invalidtype`), and its string
 * form must be accepted by PHP's email filter (else `invalidformat`).
 */
module EmailConstraint {

  import opened Errors
  import opened PhpValues

  const InvalidTypeKey := "constraint.email.invalidtype"
  const InvalidFormatKey := "constraint.email.invalidformat"

  /** `isValidEmail(s)` stands for `false !== filter_var($s, FILTER_VALIDATE_EMAIL)`. */
  function Validate(isValidEmail: string -> bool, path: string, value: Value): (errors: seq<Error>)
    ensures IsNullOrEmptyString(value) ==> errors == []
    ensures |errors| <= 1
    ensures forall e <- errors :: e.path == path
    ensures !IsNullOrEmptyString(value) && !IsStringable(value) ==>
      errors == [Error(path, InvalidTypeKey, [("type", DebugType(value))])]
    ensures !IsNullOrEmptyString(value) && IsStringable(value) ==>
      (errors == [] <==> isValidEmail(StringCast(value)))
    ensures !IsNullOrEmptyString(value) && IsStringable(value) && !isValidEmail(StringCast(value)) ==>
      errors == [Error(path, InvalidFormatKey, [("value", StringCast(value))])]
    ensures forall e <- errors :: e.key == InvalidFormatKey ==> IsStringable(value)
  {
    if IsNullOrEmptyString(value) then
      []
    else if !IsStringable(value) then
      [Error(path, InvalidTypeKey, [("type", DebugType(value))])]
    else
      var text := StringCast(value);
      if !isValidEmail(text) then [Error(path, InvalidFormatKey, [("value", text)])]
      else []
  }

  /**
   * false is not "empty" for the gate (the comparison with '' is strict),
   * yet casts to "": it reaches the format check as the empty string.
   */
  lemma FalseIsCheckedAsEmptyText(isValidEmail: string -> bool, path: string)
    ensures Validate(isValidEmail, path, Bool(false))
         == if isValidEmail("") then [] else [Error(path, InvalidFormatKey, [("value", "")])]
  {
  }
}
