/**
  What every generated immutable bean and its builder share: Java references that
  may be null, `java.util.Optional`, the exceptions the generated code throws, and
  the outcome of a call on a mutable builder.
 */
module Beans {

  /** A Java reference that may be null. */
  datatype Nullable<+T> = Null | NonNull(get: T)

  /** `java.util.Optional`: absence is a value of its own, never a null reference. */
  datatype Option<+T> = None | Some(value: T)

  datatype Result<+T, +E> = Ok(value: T) | Err(error: E) {

    predicate IsFailure() {
      Err?
    }

    function PropagateFailure<U>(): Result<U, E>
      requires Err?
    {
      Err(error)
    }

    function Extract(): T
      requires Ok?
    {
      value
    }
  }

  /** The exceptions thrown by the modelled code. */
  datatype Exception =
    | IllegalArgument(argument: string)  // a null argument where one is not allowed
    | NoSuchElement(property: string)    // a property name the bean does not have
    | ClassCast(property: string)        // a value of the wrong class for the named property

  /**
    The outcome of one call on a mutable builder: the builder's state after the
    call and the exception the call threw, if any. Builder calls return the
    builder itself for chaining, so nothing else is returned.
   */
  datatype Step<+S> = Step(state: S, thrown: Option<Exception>)

  /**
    The null check every validated property and every constructor argument goes
    through: a null argument is an `IllegalArgument` naming it, anything else
    passes through unchanged.
   */
  function NotNull<T>(v: Nullable<T>, name: string): (r: Result<T, Exception>)
    ensures r.Ok? <==> v.NonNull?
    ensures r.Ok? ==> NonNull(r.value) == v
    ensures r.Err? ==> r.error == IllegalArgument(name)
  {
    match v
    case Null => Err(IllegalArgument(name))
    case NonNull(x) => Ok(x)
  }

  /** `Optional.ofNullable`: null becomes absence, anything else is present. */
  function OfNullable<T>(v: Nullable<T>): (r: Option<T>)
    ensures r.None? <==> v.Null?
    ensures r.Some? ==> v == NonNull(r.value)
  {
    match v
    case Null => None
    case NonNull(x) => Some(x)
  }

  /** `Optional.orElse(null)`, the inverse of `OfNullable`. */
  function OrElseNull<T>(o: Option<T>): (r: Nullable<T>)
    ensures r.Null? <==> o.None?
    ensures r.NonNull? ==> o == Some(r.get)
  {
    match o
    case None => Null
    case Some(x) => NonNull(x)
  }

  /**
    The name-keyed `set(String, Object)` of a generated builder once its switch
    has selected a property, or none: an unknown name throws, a failed cast
    throws, and a call that throws leaves the builder as it was.
   */
  function SetSelected<B, P>(b: B, name: string, selected: Option<P>, assign: P -> Result<B, Exception>)
    : (r: Step<B>)
    ensures selected.None? ==> r == Step(b, Some(NoSuchElement(name)))
    ensures r.thrown.Some? ==> r.state == b
    ensures selected.Some? ==> (r.thrown.None? <==> assign(selected.value).Ok?)
    ensures selected.Some? && r.thrown.None? ==> r.state == assign(selected.value).value
    ensures selected.Some? && assign(selected.value).Err? ==> r == Step(b, Some(assign(selected.value).error))
  {
    match selected
    case None => Step(b, Some(NoSuchElement(name)))
    case Some(p) =>
      match assign(p)
      case Ok(b') => Step(b', None)
      case Err(e) => Step(b, Some(e))
  }

  /**
    The name-keyed `get(String)` of a generated builder once its switch has
    selected a property, or none: an unknown name throws, a known one is read.
   */
  function GetSelected<P, V>(name: string, selected: Option<P>, read: P -> V): (r: Result<V, Exception>)
    ensures r.Err? <==> selected.None?
    ensures r.Err? ==> r.error == NoSuchElement(name)
    ensures r.Ok? ==> r.value == read(selected.value)
  {
    match selected
    case None => Err(NoSuchElement(name))
    case Some(p) => Ok(read(p))
  }

  /** Wrapping a nullable reference in an `Optional` loses nothing, in either direction. */
  lemma OptionalRoundTrip<T>(v: Nullable<T>, o: Option<T>)
    ensures OrElseNull(OfNullable(v)) == v
    ensures OfNullable(OrElseNull(o)) == o
  {
  }
}
