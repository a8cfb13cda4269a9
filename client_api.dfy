/**
 * How the client stores see a call to the server (src/services/api.ts):
 * the call either answers with a `{ success, data }` body or throws.
 */
module ClientApi {
  import opened Wrappers

  /** `Answer`: the promise resolved with `{ success, data }` (a missing or
      falsy `data` is `None`). `Failure`: it threw; `message` is the thrown
      `Error`'s message, or `None` when something other than an `Error` was thrown. */
  datatype ApiResult<T> = Answer(success: bool, data: Option<T>) | Failure(message: Option<string>)

  /** `response.success && response.data`. */
  predicate Delivered<T>(r: ApiResult<T>) {
    r.Answer? && r.success && r.data.Some?
  }

  /** How a store action's own promise settles. `Rejected` carries the message
      of what it throws. */
  datatype Outcome<T> = Resolved(value: T) | Rejected(message: string)

  /** `error instanceof Error ? error.message : fallback`. */
  function ErrorText(message: Option<string>, fallback: string): (text: string)
    ensures message.Some? ==> text == message.value
    ensures message.None? ==> text == fallback
  {
    message.GetOr(fallback)
  }
}
