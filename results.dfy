/**
 * The two result shapes of the service layer: how the promise of one request
 * settles once the response interceptor has run, and the normalized
 * `{success, data | error, message}` object every service method returns
 * instead of throwing.
 */
module Results {
  import opened Json

  /**
   * A request's promise: it resolves with the envelope's `data` (None when the
   * envelope has no `data`, i.e. undefined), or rejects with an Error whose
   * `message` is given.
   */
  datatype Settled = Resolved(value: Option<Json>) | Rejected(message: string)

  /**
   * `{success: true, data?, message}` or `{success: false, error, message}`:
   * `error` is the underlying Error's message, `message` a fixed label for
   * the user.
   */
  datatype ServiceResult =
    | Succeeded(data: Option<Json>, message: string)
    | Failed(error: string, message: string)

  /**
   * The try/catch every one-call service method wraps around its request:
   * the response becomes `data` under the success label, a rejection becomes
   * `error` under the failure label, and nothing is thrown.
   */
  function Invoke(outcome: Settled, okMessage: string, failMessage: string): (r: ServiceResult)
    ensures r.Succeeded? <==> outcome.Resolved?
    ensures outcome.Resolved? ==> r.data == outcome.value && r.message == okMessage
    ensures outcome.Rejected? ==> r.error == outcome.message && r.message == failMessage
  {
    match outcome
    case Resolved(v) => Succeeded(v, okMessage)
    case Rejected(e) => Failed(e, failMessage)
  }
}
