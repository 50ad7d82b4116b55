/** `renderMaybeValue`: dispatch on the status of a `Maybe` value to the `none` or `some` handler. */
module RenderMaybeValue {
  import opened MaybeModel
  import MaybeValue

  datatype RenderHandlers<!T, R> = RenderHandlers(none: () -> R, some: T -> R)

  /** Switches on `value.Status()`; the SOME branch extracts with the throwing `get`,
      which Dafny checks cannot throw there. */
  function RenderMaybe<T, R>(value: Maybe<T>, handlers: RenderHandlers<T, R>): (r: R)
    ensures value.MaybeNone? ==> r == handlers.none()
    ensures value.MaybeSome? ==> r == handlers.some(value.value)
  {
    match value.Status()
    case NONE => handlers.none()
    case SOME => handlers.some(MaybeValue.Get(value).value)
  }
}
