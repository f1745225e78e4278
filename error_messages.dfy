/**
 * ApiProblemErrorMessages: keeps the errors it was built with, in order,
 * and renders them once, on the first request, as flat
 * {name, reason, details} records suited to an API problem response;
 * later requests return the cached records.
 */
module ErrorMessages {

  import opened Wrappers
  import opened Errors

  /** One rendered record: name is the error's path, reason its key, details its arguments. */
  datatype Message = Message(name: string, reason: string, details: Arguments)

  /** The records for a list of errors, one per error, built by appending as the renderer does. */
  function Messages(errors: seq<Error>): (messages: seq<Message>)
    ensures |messages| == |errors|
    decreases |errors|
  {
    if errors == [] then []
    else
      var last := errors[|errors| - 1];
      Messages(errors[..|errors| - 1]) + [Message(last.path, last.key, last.arguments)]
  }

  /** One record per error, and record k carries exactly the path, key and arguments of error k. */
  lemma {:induction false} MessagesAt(errors: seq<Error>, k: nat)
    requires k < |errors|
    ensures |Messages(errors)| == |errors|
    ensures Messages(errors)[k] == Message(errors[k].path, errors[k].key, errors[k].arguments)
    decreases |errors|
  {
    if k < |errors| - 1 {
      MessagesAt(errors[..|errors| - 1], k);
    }
  }

  /** Rendering loses and merges nothing: different error lists give different record lists. */
  lemma MessagesInjective(a: seq<Error>, b: seq<Error>)
    requires Messages(a) == Messages(b)
    ensures a == b
  {
    assert |a| == |b|;
    forall k | 0 <= k < |a|
      ensures a[k] == b[k]
    {
      MessagesAt(a, k);
      MessagesAt(b, k);
    }
  }

  class ApiProblemErrorMessages {
    var errors: seq<Error>
    var errorMessages: Option<seq<Message>>

    /** A filled cache always holds the rendering of the stored errors. */
    ghost predicate Valid()
      reads this
    {
      errorMessages.Some? ==> errorMessages.value == Messages(errors)
    }

    constructor (errors: seq<Error>)
      ensures Valid()
      ensures this.errors == errors
      ensures errorMessages == None
    {
      this.errors := [];
      this.errorMessages := None;
      new;
      var i := 0;
      while i < |errors|
        invariant 0 <= i <= |errors|
        invariant this.errors == errors[..i]
        invariant errorMessages == None
      {
        AddError(errors[i]);
        i := i + 1;
      }
      assert errors[..|errors|] == errors;
    }

    /** Appends one error; only the constructor calls it, before any rendering is cached. */
    method AddError(error: Error)
      requires errorMessages == None
      modifies this`errors
      ensures errors == old(errors) + [error]
    {
      errors := errors + [error];
    }

    /**
     * Renders the stored errors on the first call and caches the records;
     * every later call returns the cached records unchanged.
     */
    method GetMessages() returns (messages: seq<Message>)
      requires Valid()
      modifies this`errorMessages
      ensures Valid()
      ensures messages == Messages(errors)
      ensures errorMessages == Some(messages)
      ensures old(errorMessages).Some? ==> errorMessages == old(errorMessages)
    {
      if errorMessages == None {
        errorMessages := Some([]);
        var i := 0;
        while i < |errors|
          invariant 0 <= i <= |errors|
          invariant errorMessages == Some(Messages(errors[..i]))
        {
          var error := errors[i];
          errorMessages := Some(errorMessages.value + [Message(error.path, error.key, error.arguments)]);
          assert errors[..i + 1][..i] == errors[..i];
          i := i + 1;
        }
        assert errors[..|errors|] == errors;
      }
      messages := errorMessages.value;
    }
  }
}
