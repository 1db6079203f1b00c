/** The errors that end an actor's supervision loop: a failing lifecycle hook,
    or a receive from an empty, closed mailbox. */
module ActorErrors {
  import Errors

  /** `init` failed; the boxed error is kept as the source. */
  datatype ActorInitFailure = ActorInitFailure(source: Errors.DynError)

  /** `on_stop` failed. */
  datatype ActorStopFailure = ActorStopFailure(source: Errors.DynError)

  /** `on_error` itself failed. */
  datatype ActorHandleErrorFailure = ActorHandleErrorFailure(source: Errors.DynError)

  /** The channel's receive error: the mailbox is empty and closed. */
  datatype RecvError = RecvError

  /** Why a supervision loop stopped with an error: exactly four sources. */
  datatype ActorRuntimeError =
    | Init(init: ActorInitFailure)
    | Receive(recv: RecvError)
    | Stop(stop: ActorStopFailure)
    | HandleError(handleError: ActorHandleErrorFailure)

  /** `From<E> for ActorInitFailure`: any error, kept as the source. */
  function InitFailureFrom(value: Errors.DynError): (r: ActorInitFailure)
    ensures r.source == value
  {
    ActorInitFailure(value)
  }

  /** `From<E> for ActorStopFailure`: any error, kept as the source. */
  function StopFailureFrom(value: Errors.DynError): (r: ActorStopFailure)
    ensures r.source == value
  {
    ActorStopFailure(value)
  }

  /** `From<E> for ActorHandleErrorFailure`: any error, kept as the source. */
  function HandleErrorFailureFrom(value: Errors.DynError): (r: ActorHandleErrorFailure)
    ensures r.source == value
  {
    ActorHandleErrorFailure(value)
  }
}
