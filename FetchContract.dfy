/**
 * The value one fetch attempt of the order list produces. The transport
 * returns it and the polling hook consumes it; neither depends on the
 * other's internals, only on this contract.
 */
module FetchContract {
  import opened Wrappers

  /** `{ notModified, data }`: `data` is `null` when nothing changed. */
  datatype FetchResult<T> = FetchResult(notModified: bool, data: Option<T>)

  /** Why a fetch threw instead of returning a result. */
  datatype FetchError =
    | HttpError(status: int)   // a status other than 200 and 304
    | NetworkError             // no response at all (timeout, connection refused, ...)

  /** The settled promise of one fetch: it resolved with a result or it threw. */
  datatype Fetched<T> = Returned(result: FetchResult<T>) | Threw(error: FetchError)
}
