/** `maybeValue`: constructors, status predicates and extractors over `Maybe`. */
module MaybeValue {
  import opened JsValues
  import opened MaybeModel

  function None<T>(): (r: Maybe<T>)
    ensures r.Status() == NONE
  {
    MaybeNone
  }

  function Some<T>(value: T): (r: Maybe<T>)
    ensures r.Status() == SOME && r.value == value
  {
    MaybeSome(value)
  }

  predicate IsSome<T>(value: Maybe<T>)
  {
    value.Status() == SOME
  }

  predicate IsNone<T>(value: Maybe<T>)
  {
    value.Status() == NONE
  }

  /** The stored value on SOME, `undefined` on NONE; never throws. */
  function GetMaybe<T>(value: Maybe<T>): (r: Undefinable<T>)
    ensures r.Defined? <==> value.MaybeSome?
    ensures r.Defined? ==> r.value == value.value
  {
    if IsSome(value) then Defined(value.value) else Undefined
  }

  /** The stored value; throws on NONE. */
  function Get<T>(value: Maybe<T>): (r: Result<T, StatusMismatch<MaybeStatus>>)
    ensures r.Ok? <==> value.MaybeSome?
    ensures r.Ok? ==> r.value == value.value
    ensures r.Thrown? ==> r.failure == ExpectedButGot("SOME", NONE)
  {
    if IsSome(value) then Ok(value.value)
    else Thrown(ExpectedButGot("SOME", value.Status()))
  }

  /** The stored value on SOME, otherwise what `fallback` yields. */
  function GetOr<T>(value: Maybe<T>, fallback: () -> T): (r: T)
    ensures value.MaybeSome? ==> r == value.value
    ensures value.MaybeNone? ==> r == fallback()
  {
    if IsSome(value) then value.value else fallback()
  }

  /** Every value satisfies exactly one of the two status predicates. */
  lemma ExactlyOneStatus<T>(value: Maybe<T>)
    ensures IsSome(value) != IsNone(value)
  {
  }

  /** Round trips and failures: `get(some(v)) == v`, `get(none())` throws,
      `getMaybe` and `getOr` give the stored value or the absent marker/fallback. */
  lemma ExtractorsOnConstructors<T>(v: T, f: () -> T)
    ensures Get(Some(v)) == Ok(v) && Get<T>(None()).Thrown?
    ensures GetMaybe(Some(v)) == Defined(v) && GetMaybe<T>(None()) == Undefined
    ensures GetOr(Some(v), f) == v && GetOr(None(), f) == f()
  {
  }

  /** On SOME the fallback plays no part in the result; the safe extractors agree with
      `get` wherever `get` returns. */
  lemma SafeExtractorsAgreeWithGet<T>(value: Maybe<T>, f: () -> T, g: () -> T)
    ensures value.MaybeSome? ==> GetOr(value, f) == GetOr(value, g)
    ensures Get(value).Ok? ==> GetOr(value, f) == Get(value).value && GetMaybe(value) == Defined(Get(value).value)
    ensures Get(value).Thrown? <==> GetMaybe(value) == Undefined
  {
  }
}
