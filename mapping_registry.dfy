/**
 * ValidatorObjectMappingRegistry: the dictionary from class name to the
 * mapping provider that says how to validate objects of that class. A
 * provider is registered under the class its getClass() reports; a lookup
 * first replaces a Doctrine proxy class by its parent class, and a class
 * without a provider is a configuration error, never a value.
 */
module MappingRegistry {

  import opened Wrappers

  /** The marker interface that every Doctrine proxy class implements. */
  const ProxyInterface := "Doctrine\\Common\\Persistence\\Proxy"

  /**
   * What the registry learns through PHP reflection: whether a class exists,
   * the interfaces it implements, and the name of its parent class.
   */
  datatype Reflection = Reflection(
    classExists: string -> bool,
    interfaceNames: string -> seq<string>,
    parentClassName: string -> string)

  /** The two ways a lookup fails: reflection on an unknown class, or no provider for the class. */
  datatype RegistryError = ClassNotFound(className: string) | MissingMapping(className: string)

  /** The class a lookup keys on: the parent of a proxy class (one level only), else the class itself. */
  function LookupClass(reflection: Reflection, className: string): (key: string)
    ensures ProxyInterface in reflection.interfaceNames(className) ==> key == reflection.parentClassName(className)
    ensures key != className ==> ProxyInterface in reflection.interfaceNames(className)
    ensures key == className || key == reflection.parentClassName(className)
  {
    if ProxyInterface in reflection.interfaceNames(className) then reflection.parentClassName(className) else className
  }

  /** The dictionary built by writing each provider under its class, in list order. */
  function Registered<P>(getClass: P -> string, providers: seq<P>): map<string, P>
    decreases |providers|
  {
    if providers == [] then map[]
    else
      var last := providers[|providers| - 1];
      Registered(getClass, providers[..|providers| - 1])[getClass(last) := last]
  }

  /** Reference definition of a lookup: the last provider in the list that reports the class. */
  function LastRegistered<P>(getClass: P -> string, providers: seq<P>, className: string): (found: Option<P>)
    ensures found.Some? ==> found.value in providers && getClass(found.value) == className
    ensures found.None? <==> forall p <- providers :: getClass(p) != className
    decreases |providers|
  {
    if providers == [] then None
    else
      var last := providers[|providers| - 1];
      assert providers == providers[..|providers| - 1] + [last];
      if getClass(last) == className then Some(last)
      else LastRegistered(getClass, providers[..|providers| - 1], className)
  }

  /** The dictionary holds a class exactly when some provider reports it, and then holds the last such provider. */
  lemma {:induction false} RegisteredIsLastRegistered<P>(getClass: P -> string, providers: seq<P>, className: string)
    ensures className in Registered(getClass, providers) <==> LastRegistered(getClass, providers, className).Some?
    ensures className in Registered(getClass, providers) ==>
      Registered(getClass, providers)[className] == LastRegistered(getClass, providers, className).value
    decreases |providers|
  {
    if providers != [] {
      RegisteredIsLastRegistered(getClass, providers[..|providers| - 1], className);
    }
  }

  /** Every key of the dictionary is the class its provider reports, and the keys are exactly the reported classes. */
  lemma {:induction false} RegisteredKeysAreClasses<P>(getClass: P -> string, providers: seq<P>)
    ensures forall c <- Registered(getClass, providers) :: getClass(Registered(getClass, providers)[c]) == c
    ensures Registered(getClass, providers).Keys == set p <- providers :: getClass(p)
  {
    var m := Registered(getClass, providers);
    forall c | c in m
      ensures getClass(m[c]) == c
      ensures c in set p <- providers :: getClass(p)
    {
      RegisteredIsLastRegistered(getClass, providers, c);
      var p := LastRegistered(getClass, providers, c).value;
      assert p in providers && getClass(p) == c;
    }
    forall c | c in set p <- providers :: getClass(p)
      ensures c in m
    {
      RegisteredIsLastRegistered(getClass, providers, c);
    }
  }

  /** When two providers report the same class, the later registration wins. */
  lemma {:induction false} LastRegistrationWins<P>(getClass: P -> string, providers: seq<P>, j: nat)
    requires j < |providers|
    requires forall k | j < k < |providers| :: getClass(providers[k]) != getClass(providers[j])
    ensures LastRegistered(getClass, providers, getClass(providers[j])) == Some(providers[j])
    ensures getClass(providers[j]) in Registered(getClass, providers)
    ensures Registered(getClass, providers)[getClass(providers[j])] == providers[j]
    decreases |providers|
  {
    RegisteredIsLastRegistered(getClass, providers, getClass(providers[j]));
    if j < |providers| - 1 {
      var front := providers[..|providers| - 1];
      assert forall k | j < k < |front| :: front[k] == providers[k];
      LastRegistrationWins(getClass, front, j);
    }
  }

  class ValidatorObjectMappingRegistry<P> {
    /** getClass() of a provider: the class it describes. */
    const getClass: P -> string
    const reflection: Reflection
    var objectMappings: map<string, P>
    /** The providers registered so far, in order. */
    ghost var registrations: seq<P>

    ghost predicate Valid()
      reads this
    {
      objectMappings == Registered(getClass, registrations)
    }

    constructor (objectMappings: seq<P>, getClass: P -> string, reflection: Reflection)
      ensures Valid()
      ensures registrations == objectMappings
      ensures this.getClass == getClass && this.reflection == reflection
      ensures forall c <- this.objectMappings :: getClass(this.objectMappings[c]) == c
    {
      this.getClass := getClass;
      this.reflection := reflection;
      this.objectMappings := map[];
      registrations := [];
      new;
      var i := 0;
      while i < |objectMappings|
        invariant 0 <= i <= |objectMappings|
        invariant Valid()
        invariant registrations == objectMappings[..i]
        invariant this.getClass == getClass && this.reflection == reflection
      {
        AddObjectMapping(objectMappings[i]);
        assert objectMappings[..i + 1] == objectMappings[..i] + [objectMappings[i]];
        i := i + 1;
      }
      assert objectMappings[..|objectMappings|] == objectMappings;
      RegisteredKeysAreClasses(getClass, registrations);
    }

    /** Writes a provider under the class it reports, replacing any earlier one. */
    method AddObjectMapping(objectMapping: P)
      requires Valid()
      modifies this`objectMappings, this`registrations
      ensures Valid()
      ensures registrations == old(registrations) + [objectMapping]
      ensures objectMappings == old(objectMappings)[getClass(objectMapping) := objectMapping]
    {
      objectMappings := objectMappings[getClass(objectMapping) := objectMapping];
      registrations := registrations + [objectMapping];
      assert registrations[..|registrations| - 1] == old(registrations);
    }

    /**
     * The provider for a class: for a proxy class, the one registered for its
     * parent. Fails with ClassNotFound when reflection does not know the class
     * and with MissingMapping (naming the looked-up class) when nothing is
     * registered for it.
     */
    function GetObjectMapping(className: string): (r: Result<P, RegistryError>)
      reads this
      requires Valid()
      ensures !reflection.classExists(className) ==> r == Failure(ClassNotFound(className))
      ensures reflection.classExists(className) ==>
        var key := LookupClass(reflection, className);
        match LastRegistered(getClass, registrations, key)
        case Some(p) => r == Success(p)
        case None => r == Failure(MissingMapping(key))
      ensures r.Success? ==> r.value in registrations && getClass(r.value) == LookupClass(reflection, className)
      ensures registrations == [] ==> r.Failure?
    {
      if !reflection.classExists(className) then
        Failure(ClassNotFound(className))
      else
        var key := LookupClass(reflection, className);
        RegisteredIsLastRegistered(getClass, registrations, key);
        if key in objectMappings then Success(objectMappings[key]) else Failure(MissingMapping(key))
    }
  }
}
