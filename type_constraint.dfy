/**
 * TypeConstraint: a non-null value passes when its PHP type name equals the
 * configured wished type, or, for an object, when it is an instance of the
 * wished type. The validation context and the nested-validator callback are
 * unused by this constraint and are not parameters here.
 */
module TypeConstraint {

  import opened Errors
  import opened PhpValues
  import opened Wrappers

  const InvalidTypeKey := "constraint.type.invalidtype"

  /** The single finding this constraint reports: the found type next to the wished one. */
  function InvalidTypeError(wishedType: string, path: string, foundType: string): Error {
    Error(path, InvalidTypeKey, [("type", foundType), ("wishedType", wishedType)])
  }

  /**
   * `isInstanceOf(className, wishedType)` stands for PHP's
   * `$value instanceof $wishedType` on an object of that class.
   */
  function Validate(wishedType: string, isInstanceOf: (string, string) -> bool, path: string, value: Value)
    : (errors: seq<Error>)
    ensures value.Null? ==> errors == []
    ensures |errors| <= 1
    ensures value.Obj? ==> (errors == [] <==> isInstanceOf(value.className, wishedType))
    ensures !value.Null? && !value.Obj? ==> (errors == [] <==> GetType(value) == wishedType)
    ensures errors != [] ==>
      errors[0] == InvalidTypeError(wishedType, path, if value.Obj? then value.className else GetType(value))
  {
    if value.Null? then
      []
    else
      var foundType := GetType(value);
      if foundType == "object" then
        if isInstanceOf(value.className, wishedType) then []
        else [InvalidTypeError(wishedType, path, value.className)]
      else if foundType == wishedType then []
      else [InvalidTypeError(wishedType, path, foundType)]
  }

  /**
   * An object is judged only by instanceof: configuring the wished type
   * "object" (gettype's name for every object) does not let an object pass.
   */
  lemma ObjectNotMatchedByTypeName(isInstanceOf: (string, string) -> bool, path: string, className: string,
                                   toStringResult: Option<string>)
    requires !isInstanceOf(className, "object")
    ensures GetType(Obj(className, toStringResult)) == "object"
    ensures Validate("object", isInstanceOf, path, Obj(className, toStringResult))
         == [InvalidTypeError("object", path, className)]
  {
  }
}
