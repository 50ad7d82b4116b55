/** `renderAsyncValue`: dispatch on the status of an `Async` value to one handler per state. */
module RenderAsyncValue {
  import opened AsyncModel
  import AsyncValue

  /** One handler per state; the ERROR and DATA handlers receive the payload. */
  datatype RenderHandlers<!T, !E, R> = RenderHandlers(
    empty: () -> R,
    loading: () -> R,
    error: E -> R,
    success: T -> R)

  /** Switches on `value.Status()`; the ERROR and DATA branches extract the payload with
      the throwing `getError`/`get`, which Dafny checks cannot throw on those branches,
      and the match is exhaustive so no fallback branch is reachable. */
  function RenderAsync<T, E, R>(value: Async<T, E>, handlers: RenderHandlers<T, E, R>): (r: R)
    ensures value.AsyncEmpty? ==> r == handlers.empty()
    ensures value.AsyncLoading? ==> r == handlers.loading()
    ensures value.AsyncError? ==> r == handlers.error(value.error)
    ensures value.AsyncData? ==> r == handlers.success(value.data)
  {
    match value.Status()
    case EMPTY => handlers.empty()
    case LOADING => handlers.loading()
    case ERROR => handlers.error(AsyncValue.GetError(value).value)
    case DATA => handlers.success(AsyncValue.Get(value).value)
  }
}
