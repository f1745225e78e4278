# chubbyphp-validation core, modelled in Dafny

This project models three parts of the chubbyphp-validation engine and proves properties about each:

- **The mapping registry** (`ValidatorObjectMappingRegistry`). It turns the list of validation mapping providers given at construction into a dictionary keyed by each provider's `getClass()`. A later provider for the same class overwrites an earlier one. A lookup first replaces a Doctrine proxy class by its parent class (one level only), then looks the class up by exact key. A miss is a configuration error.
- **Three leaf constraints**: type, email and numeric. Each maps a path and a PHP value to at most one `Error(path, key, arguments)`. Each is a fixed ladder of guards:
  1. an absent value passes;
  2. a kind or string-representability gate;
  3. a type, format or numeric check.
- **The flat error renderer** (`ApiProblemErrorMessages`). It stores the errors it was built with, in order. On the first `getMessages()` call it renders one `{name, reason, details}` record per error and caches the result. Later calls return the cache.

Files:
- `wrappers.dfy`: `Option` and `Result`.
- `errors.dfy`: the `Error` record.
- `php_values.dfy`: the PHP values and the runtime functions the constraints use:
  - `gettype` and `get_debug_type`, with PHP's spellings;
  - `is_scalar` and the `__toString` test;
  - the `(string)` cast, with integers rendered in decimal.
- `type_constraint.dfy`, `email_constraint.dfy`, `numeric_constraint.dfy`: the constraints as pure functions.
- `error_messages.dfy`: the renderer, as a class with the error list and an `Option` cache. Its specification function is `Messages`.
- `mapping_registry.dfy`: the registry, as a class holding the `map`. It is specified against two functions:
  - `Registered`: the dictionary that the insertions build;
  - `LastRegistered`: an independent "last provider reporting this class" search.

Some runtime behaviour is passed in as parameters, because its source is not part of this model:
- PHP library predicates: `filter_var(..., FILTER_VALIDATE_EMAIL)`, `is_numeric` and `instanceof`.
- PHP reflection, bundled in the `Reflection` datatype:
  - whether a class exists;
  - the interfaces a class implements;
  - a class's parent class.

The model's contracts hold for every choice of these parameters.

Behaviour of the code that the model makes explicit:
- **Type constraint on objects.** The code judges an object only with `instanceof`. So a type constraint configured with `"object"` (which is gettype's name for every object) rejects every object for which `instanceof "object"` is false. See `TypeConstraint.ObjectNotMatchedByTypeName`.
- **Empty values in the email and numeric constraints.** Only `null` and the string `''` pass unchecked, by a strict comparison. `false` is therefore not empty, yet it casts to `""` and reaches the format or numeric check. See `FalseIsCheckedAsEmptyText` and `PhpValues.StringCast`.
- **Duplicate registrations.** A later provider for the same class overwrites the earlier one: the last registration wins.
- **Unknown classes.** Looking up a class that reflection does not know throws `ReflectionException` (src/Validator/ValidatorObjectMappingRegistry.php:45) before the mapping lookup runs. The model reports this as `ClassNotFound`, separate from `MissingMapping`.

## Model

| member | source | states |
|---|---|---|
| `TypeConstraint.Validate` | src/Constraint/TypeConstraint.php:21-55 | null passes; at most one error; a non-object passes iff its gettype name equals the wished type; an object passes iff it is an instance of the wished type; the error carries the input path, key `constraint.type.invalidtype` and arguments exactly `type` (class name for objects, gettype name otherwise) then `wishedType` |
| `TypeConstraint.ObjectNotMatchedByTypeName` | src/Constraint/TypeConstraint.php:33-39 | an object is judged by instanceof alone: wished type `"object"` still yields the invalidtype error naming the object's class |
| `EmailConstraint.Validate` | src/Constraint/EmailConstraint.php:19-44 | null or `''` pass; a value neither scalar nor an object with `__toString` yields exactly one `constraint.email.invalidtype` error whose `type` is the debug type; a representable value passes iff the email predicate accepts its string form, and otherwise yields exactly one `constraint.email.invalidformat` error whose `value` is that string form; an invalidformat error implies the value passed the type gate; at most one error, always at the input path |
| `EmailConstraint.FalseIsCheckedAsEmptyText` | src/Constraint/EmailConstraint.php:25-41 | `false` is not gated as empty; it is checked as the text `""` |
| `NumericConstraint.Validate` | src/Constraint/NumericConstraint.php:19-44 | null or `''` pass; a value neither scalar nor stringable yields exactly one `constraint.numeric.invalidtype` error with its debug type; a representable value passes iff its string form is numeric, else exactly one `constraint.numeric.notnumeric` error carrying that string form; a notnumeric error implies the value passed the type gate; at most one error, always at the input path |
| `NumericConstraint.FalseIsCheckedAsEmptyText` | src/Constraint/NumericConstraint.php:25-41 | `false` is not gated as empty; it is checked as the text `""` |
| `PhpValues.GetType` | src/Constraint/TypeConstraint.php:31-33 | the gettype name is `"object"` exactly for objects and `"NULL"` exactly for null, so the object branch is taken exactly for objects |
| `PhpValues.DebugType` | src/Constraint/EmailConstraint.php:29-35 | the `type` payload of an invalidtype error: for a value that is neither null nor stringable it is `"array"` for an array, or the class name of an object without `__toString` |
| `PhpValues.StringCast` | src/Constraint/EmailConstraint.php:37 | the cast gives the empty text exactly for `false`, the empty string, a float whose text is empty and an object whose `__toString` returns `""`; an integer's text is signed decimal text that reads back as that integer |
| `PhpValues.NatToStringRoundTrip` | src/Constraint/NumericConstraint.php:37 | the digits rendered for a non-negative integer read back as the same number |
| `PhpValues.IntToStringRoundTrip` | src/Constraint/NumericConstraint.php:37 | the text of every integer, negative ones included (down to -2^63), is an optional minus sign followed by digits, and the signed reader gives back the integer |
| `ErrorMessages.Messages` | src/Error/ApiProblemErrorMessages.php:37-43 | one record per error: the rendering has the length of the error list (so an empty list renders empty) |
| `ErrorMessages.MessagesAt` | src/Error/ApiProblemErrorMessages.php:38-42 | record k has name = path, reason = key and details = arguments of error k, in input order |
| `ErrorMessages.MessagesInjective` | src/Error/ApiProblemErrorMessages.php:35-46 | two error lists with the same rendering are equal: rendering drops, merges and reorders nothing |
| `ErrorMessages.ApiProblemErrorMessages.constructor` | src/Error/ApiProblemErrorMessages.php:22-28 | stores every given error, in input order, none dropped; the cache starts empty |
| `ErrorMessages.ApiProblemErrorMessages.AddError` | src/Error/ApiProblemErrorMessages.php:49-52 | appends the error at the end of the stored list |
| `ErrorMessages.ApiProblemErrorMessages.GetMessages` | src/Error/ApiProblemErrorMessages.php:33-47 | returns the rendering of the stored errors and leaves it in the cache; a filled cache is returned unchanged (idempotence); the error list is never modified |
| `MappingRegistry.LookupClass` | src/Validator/ValidatorObjectMappingRegistry.php:45-49 | a class implementing the Doctrine proxy interface is keyed by its parent class; the key differs from the class only for a proxy class; the key is the class or its parent, never a further ancestor (one level of substitution) |
| `MappingRegistry.LastRegistered` | src/Validator/ValidatorObjectMappingRegistry.php:51-53 | the reference lookup finds a provider reporting the class that was registered, and finds none exactly when no registered provider reports it |
| `MappingRegistry.RegisteredIsLastRegistered` | src/Validator/ValidatorObjectMappingRegistry.php:22-34 | the dictionary built by in-order insertion holds a class exactly when some provider reports it, and holds the last such provider |
| `MappingRegistry.RegisteredKeysAreClasses` | src/Validator/ValidatorObjectMappingRegistry.php:31-34 | every key equals `getClass()` of the provider stored under it, and the keys are exactly the reported classes |
| `MappingRegistry.LastRegistrationWins` | src/Validator/ValidatorObjectMappingRegistry.php:22-34 | when several providers report the same class, the last one is the one stored and found |
| `MappingRegistry.ValidatorObjectMappingRegistry.constructor` | src/Validator/ValidatorObjectMappingRegistry.php:20-26 | after construction the map is the in-order insertion of the given providers, and every key equals its provider's class |
| `MappingRegistry.ValidatorObjectMappingRegistry.AddObjectMapping` | src/Validator/ValidatorObjectMappingRegistry.php:31-34 | writes the provider under its class, overwriting any earlier entry, and changes no other entry |
| `MappingRegistry.ValidatorObjectMappingRegistry.GetObjectMapping` | src/Validator/ValidatorObjectMappingRegistry.php:43-56 | an unknown class fails with ClassNotFound; otherwise the key is the parent class for a class implementing the proxy interface (one level) and the class itself else; the result is the last provider registered for the key, or a MissingMapping failure naming the key when there is none; an empty registry fails every lookup; being a function, it modifies nothing |

## Left out

- `LazyValidationMappingProvider` is not part of this model. It only stores a class name and delegates to a service fetched from a PSR container on every call. Providers are opaque values of a type parameter, seen only through `getClass()`.
- The email syntax behind `filter_var(..., FILTER_VALIDATE_EMAIL)`, the numeric syntax behind `is_numeric`, and PHP's `instanceof` are not modelled. They are predicate parameters.
- PHP reflection is not modelled. It is the `Reflection` parameter.
- `MappingRegistry.ValidatorObjectMappingRegistry.GetObjectMapping`: a proxy class is assumed to have a parent class. The case where `getParentClass()` returns `false` (a PHP warning, then a type error) is not modelled.
- `MappingRegistry.ValidatorObjectMappingRegistry.GetObjectMapping`: the text of the missing-mapping exception message is not modelled. Only the class it names is.
- The validation context and the nested-validator callback are not parameters of the constraint functions. All three constraints ignore them, so each result depends only on:
  - the path;
  - the value;
  - the configured wished type (for the type constraint);
  - the library predicate.
- PHP resources are not among the modelled values.
- Floats are known only through their string form.
- Array keys are not modelled.
- Error arguments are modelled as ordered string pairs. The array-valued arguments that other constraints produce are not modelled; the renderer passes arguments through unchanged in any case.
- `ErrorMessages.ApiProblemErrorMessages.AddError` requires an empty cache. The source calls it only from the constructor, before any rendering exists.
- These parts of the system are not part of this model:
  - the validator orchestration and its log events;
  - the nested error-tree renderer;
  - the method accessor;
  - the choice, date-time, not-null and unique-model constraints.
- Logging and the PSR container are not modelled. They are external sinks and collaborators.
