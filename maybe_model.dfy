/** The `Maybe<T>` tagged union: a value that is absent or present. */
module MaybeModel {

  datatype MaybeStatus = NONE | SOME

  /** `MaybeNone | MaybeSome<T>`: only SOME carries a value. */
  datatype Maybe<+T> = MaybeNone | MaybeSome(value: T)
  {
    /** The `status` field of the value. */
    function Status(): (s: MaybeStatus)
      ensures s == NONE <==> MaybeNone?
      ensures s == SOME <==> MaybeSome?
    {
      match this
      case MaybeNone => NONE
      case MaybeSome(_) => SOME
    }
  }
}
