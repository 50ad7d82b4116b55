/** The `Async<T>` tagged union: a value that is absent, being loaded, failed, or present. */
module AsyncModel {

  /** The discriminant carried by every `Async` value. */
  datatype AsyncStatus = EMPTY | LOADING | ERROR | DATA

  /** `AsyncEmpty | AsyncLoading | AsyncError | AsyncData<T>`; `E` is the type of the
      failure cause, which the source leaves `unknown`. Here only ERROR carries an error
      and only DATA carries data; the optional `data`/`error` fields that every variant
      may also hold are not modelled, since no helper reads them. */
  datatype Async<+T, +E> =
    | AsyncEmpty
    | AsyncLoading
    | AsyncError(error: E)
    | AsyncData(data: T)
  {
    /** The `status` field of the value. */
    function Status(): (s: AsyncStatus)
      ensures s == EMPTY <==> AsyncEmpty?
      ensures s == LOADING <==> AsyncLoading?
      ensures s == ERROR <==> AsyncError?
      ensures s == DATA <==> AsyncData?
    {
      match this
      case AsyncEmpty => EMPTY
      case AsyncLoading => LOADING
      case AsyncError(_) => ERROR
      case AsyncData(_) => DATA
    }
  }

  /** Two values of this model with the same status and the same payload are the same
      value: the status decides which payload exists, and nothing else is stored. */
  lemma StatusAndPayloadDetermineValue<T, E>(a: Async<T, E>, b: Async<T, E>)
    requires a.Status() == b.Status()
    requires a.AsyncError? ==> a.error == b.error
    requires a.AsyncData? ==> a.data == b.data
    ensures a == b
  {
  }
}
