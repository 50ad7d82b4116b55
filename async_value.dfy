/** `asyncValue`: constructors, status predicates and extractors over `Async`. */
module AsyncValue {
  import opened JsValues
  import opened AsyncModel

  function Empty<T, E>(): (r: Async<T, E>)
    ensures r.Status() == EMPTY
  {
    AsyncEmpty
  }

  function Loading<T, E>(): (r: Async<T, E>)
    ensures r.Status() == LOADING
  {
    AsyncLoading
  }

  function Error<T, E>(error: E): (r: Async<T, E>)
    ensures r.Status() == ERROR && r.error == error
  {
    AsyncError(error)
  }

  function Data<T, E>(data: T): (r: Async<T, E>)
    ensures r.Status() == DATA && r.data == data
  {
    AsyncData(data)
  }

  predicate HasData<T, E>(value: Async<T, E>)
  {
    value.Status() == DATA
  }

  predicate IsError<T, E>(value: Async<T, E>)
  {
    value.Status() == ERROR
  }

  predicate IsLoading<T, E>(value: Async<T, E>)
  {
    value.Status() == LOADING
  }

  predicate IsEmpty<T, E>(value: Async<T, E>)
  {
    value.Status() == EMPTY
  }

  /** The stored failure cause; throws on every state other than ERROR. */
  function GetError<T, E>(value: Async<T, E>): (r: Result<E, StatusMismatch<AsyncStatus>>)
    ensures r.Ok? <==> value.AsyncError?
    ensures r.Ok? ==> r.value == value.error
    ensures r.Thrown? ==> r.failure == ExpectedButGot("Error", value.Status())
  {
    if IsError(value) then Ok(value.error)
    else Thrown(ExpectedButGot("Error", value.Status()))
  }

  /** The stored data on DATA, `undefined` otherwise; never throws. */
  function GetMaybe<T, E>(value: Async<T, E>): (r: Undefinable<T>)
    ensures r.Defined? <==> value.AsyncData?
    ensures r.Defined? ==> r.value == value.data
  {
    if HasData(value) then Defined(value.data) else Undefined
  }

  /** The stored data; throws on every state other than DATA. */
  function Get<T, E>(value: Async<T, E>): (r: Result<T, StatusMismatch<AsyncStatus>>)
    ensures r.Ok? <==> value.AsyncData?
    ensures r.Ok? ==> r.value == value.data
    ensures r.Thrown? ==> r.failure == ExpectedButGot("SUCCESS", value.Status())
  {
    if HasData(value) then Ok(value.data)
    else Thrown(ExpectedButGot("SUCCESS", value.Status()))
  }

  /** The stored data on DATA, otherwise what `fallback` yields. */
  function GetOr<T, E>(value: Async<T, E>, fallback: () -> T): (r: T)
    ensures value.AsyncData? ==> r == value.data
    ensures !value.AsyncData? ==> r == fallback()
  {
    if HasData(value) then value.data else fallback()
  }

  /** Every value satisfies exactly one of the four status predicates. */
  lemma ExactlyOneStatus<T, E>(value: Async<T, E>)
    ensures HasData(value) || IsError(value) || IsLoading(value) || IsEmpty(value)
    ensures HasData(value) ==> !IsError(value) && !IsLoading(value) && !IsEmpty(value)
    ensures IsError(value) ==> !IsLoading(value) && !IsEmpty(value)
    ensures IsLoading(value) ==> !IsEmpty(value)
  {
  }

  /** Each constructor is recognised by its own predicate and by no other. */
  lemma ConstructorsMatchPredicates<T, E>(error: E, data: T)
    ensures IsEmpty<T, E>(Empty()) && IsLoading<T, E>(Loading())
    ensures IsError<T, E>(Error(error)) && HasData<T, E>(Data(data))
    ensures !HasData<T, E>(Empty()) && !HasData<T, E>(Loading()) && !HasData<T, E>(Error(error))
  {
  }

  /** Round trips: extracting from a freshly built value gives back its payload. */
  lemma ExtractorsInvertConstructors<T, E>(error: E, data: T)
    ensures Get<T, E>(Data(data)) == Ok(data)
    ensures GetError<T, E>(Error(error)) == Ok(error)
    ensures GetMaybe<T, E>(Data(data)) == Defined(data)
  {
  }

  /** `get` throws on precisely the three non-DATA states, and `getError` on the three
      non-ERROR states, each time naming the state it found. */
  lemma UnsafeExtractorsThrowOffState<T, E>(error: E, data: T)
    ensures Get<T, E>(Empty()) == Thrown(ExpectedButGot("SUCCESS", EMPTY))
    ensures Get<T, E>(Loading()) == Thrown(ExpectedButGot("SUCCESS", LOADING))
    ensures Get<T, E>(Error(error)) == Thrown(ExpectedButGot("SUCCESS", ERROR))
    ensures GetError<T, E>(Empty()) == Thrown(ExpectedButGot("Error", EMPTY))
    ensures GetError<T, E>(Loading()) == Thrown(ExpectedButGot("Error", LOADING))
    ensures GetError<T, E>(Data(data)) == Thrown(ExpectedButGot("Error", DATA))
  {
  }

  /** On DATA the fallback plays no part in the result (it is never needed), and the
      safe extractors agree with `get` wherever `get` returns. */
  lemma SafeExtractorsAgreeWithGet<T, E>(value: Async<T, E>, f: () -> T, g: () -> T)
    ensures value.AsyncData? ==> GetOr(value, f) == GetOr(value, g)
    ensures Get(value).Ok? ==> GetOr(value, f) == Get(value).value && GetMaybe(value) == Defined(Get(value).value)
    ensures Get(value).Thrown? <==> GetMaybe(value) == Undefined
  {
  }
}
