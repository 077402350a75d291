/**
 * User code as the pipelines see it. Every handler, hook and callback is an
 * opaque `Fn`, and an `Env` says what calling it does while one update is
 * handled: return normally, raise the end-of-update signal, or raise any
 * other exception.
 */
module UserCode {
  import opened Wrappers

  /** An opaque Python callable: a handler, a hook, or what a middleware callback returns. */
  type Fn = nat

  /** `EndUpdateException` (what `end_update()` raises) or any other exception. */
  datatype Exc = EndUpdate | Error

  /** What a call does: return normally or raise. */
  datatype Outcome = Returned | Raised(exc: Exc)

  /**
   * The behaviour of user code during one update: the outcome of calling each
   * callable and, for a middleware callback that returns, the callable it
   * returned (`None` when it returned something that is not callable).
   */
  datatype Env = Env(call: Fn -> Outcome, result: Fn -> Option<Fn>)

}
