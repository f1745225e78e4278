/**
 * NumericConstraint: null and the empty string pass; any other value must be
 * a scalar or an object with __toString (else `invalidtype`), and its string
 * form must be a numeric string for PHP (else `notnumeric`).
 */
module NumericConstraint {

  import opened Errors
  import opened PhpValues

  const InvalidTypeKey := "constraint.numeric.invalidtype"
  const NotNumericKey := "constraint.numeric.notnumeric"

  /** `isNumeric(s)` stands for PHP's `is_numeric($s)`. */
  function Validate(isNumeric: string -> bool, path: string, value: Value): (errors: seq<Error>)
    ensures IsNullOrEmptyString(value) ==> errors == []
    ensures |errors| <= 1
    ensures forall e <- errors :: e.path == path
    ensures !IsNullOrEmptyString(value) && !IsStringable(value) ==>
      errors == [Error(path, InvalidTypeKey, [("type", DebugType(value))])]
    ensures !IsNullOrEmptyString(value) && IsStringable(value) ==>
      (errors == [] <==> isNumeric(StringCast(value)))
    ensures !IsNullOrEmptyString(value) && IsStringable(value) && !isNumeric(StringCast(value)) ==>
      errors == [Error(path, NotNumericKey, [("value", StringCast(value))])]
    ensures forall e <- errors :: e.key == NotNumericKey ==> IsStringable(value)
  {
    if IsNullOrEmptyString(value) then
      []
    else if !IsStringable(value) then
      [Error(path, InvalidTypeKey, [("type", DebugType(value))])]
    else
      var text := StringCast(value);
      if !isNumeric(text) then [Error(path, NotNumericKey, [("value", text)])]
      else []
  }

  /**
   * false is not "empty" for the gate (the comparison with '' is strict),
   * yet casts to "": it reaches the numeric check as the empty string.
   */
  lemma FalseIsCheckedAsEmptyText(isNumeric: string -> bool, path: string)
    ensures Validate(isNumeric, path, Bool(false))
         == if isNumeric("") then [] else [Error(path, NotNumericKey, [("value", "")])]
  {
  }
}
