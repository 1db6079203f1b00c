/** The error types of the handler error module: the ask-side error a caller
    sees, the failures of one ask or tell dispatch, and the catch-all error the
    example actors use. */
module HandlerErrors {
  import opened Wrappers
  import Errors

  /** The marker a failed handler writes into the caller's reply slot. */
  datatype ReceiverHandlerError = ReceiverHandlerError

  /** What an ask reports instead of an answer. */
  datatype AskError =
    | ReceiverClosed(closed: Errors.ReceiverClosedError)
    | ReceiverHandlerError(marker: ReceiverHandlerError)

  /** How one ask dispatch failed. Both send failures keep the boxed error of
      the failed reply write; only the two handler failures keep `E`. */
  datatype AskHandlerError<E> =
    | SendOk(send: Errors.DynError)
    | SendError(error: E, send: Errors.DynError)
    | Handle(error: E)

  /** How one tell dispatch failed. */
  datatype TellHandlerError<E> = TellHandlerError(error: E)

  /** The error a whole dispatch reports to `on_error`. */
  datatype BaseHandlerError<E> =
    | AskHandlerError(ask: AskHandlerError<E>)
    | TellHandlerError(tell: TellHandlerError<E>)

  datatype FatalError = FatalError(source: Errors.DynError)

  /** The catch-all error type of the example actors. */
  datatype DefaultHandlerError = Fatal(fatal: FatalError)

  /** `From<ReceiverClosedError> for AskError`. */
  function AskErrorFromClosed(value: Errors.ReceiverClosedError): (r: AskError)
    ensures r.ReceiverClosed? && r.closed == value
  {
    ReceiverClosed(value)
  }

  /** `From<ReceiverHandlerError> for AskError`. */
  function AskErrorFromHandler(value: ReceiverHandlerError): (r: AskError)
    ensures r.ReceiverHandlerError? && r.marker == value
  {
    AskError.ReceiverHandlerError(value)
  }

  /** Every `AskError` is built by exactly one of its two conversions. */
  lemma AskErrorConversionsPartition(e: AskError)
    ensures (exists c :: e == AskErrorFromClosed(c)) != (exists m :: e == AskErrorFromHandler(m))
  {
    match e
    case ReceiverClosed(c) =>
      assert e == AskErrorFromClosed(c);
    case ReceiverHandlerError(m) =>
      assert e == AskErrorFromHandler(m);
  }

  /** The handler's own error an ask failure keeps, if any. */
  function AskHandlerFailure<E>(e: AskHandlerError<E>): (r: Option<E>)
    ensures r.None? <==> e.SendOk?
    ensures e.SendError? || e.Handle? ==> r == Some(e.error)
  {
    match e
    case SendOk(_) => None
    case SendError(err, _) => Some(err)
    case Handle(err) => Some(err)
  }

  /** The reply-write error an ask failure keeps, if any. */
  function AskDeliveryFailure<E>(e: AskHandlerError<E>): (r: Option<Errors.DynError>)
    ensures r.None? <==> e.Handle?
    ensures e.SendOk? || e.SendError? ==> r == Some(e.send)
  {
    match e
    case SendOk(send) => Some(send)
    case SendError(_, send) => Some(send)
    case Handle(_) => None
  }

  /** A double failure keeps both errors, a lost answer only the write error,
      a plain handler failure only the handler's error. */
  lemma AskHandlerErrorKeeps<E>(e: AskHandlerError<E>)
    ensures e.SendError? <==> AskHandlerFailure(e).Some? && AskDeliveryFailure(e).Some?
    ensures e.SendOk? <==> AskHandlerFailure(e).None? && AskDeliveryFailure(e).Some?
    ensures e.Handle? <==> AskHandlerFailure(e).Some? && AskDeliveryFailure(e).None?
  {
  }

  /** `From<TellHandlerError<E>> for BaseHandlerError<E>`. */
  function BaseFromTell<E>(value: TellHandlerError<E>): (r: BaseHandlerError<E>)
    ensures r.TellHandlerError? && r.tell == value
  {
    BaseHandlerError.TellHandlerError(value)
  }

  /** `From<AskHandlerError<E>> for BaseHandlerError<E>`. */
  function BaseFromAsk<E>(value: AskHandlerError<E>): (r: BaseHandlerError<E>)
    ensures r.AskHandlerError? && r.ask == value
  {
    AskHandlerError(value)
  }

  /** Every `BaseHandlerError` is built by exactly one of its two conversions. */
  lemma BaseHandlerErrorConversionsPartition<E>(e: BaseHandlerError<E>)
    ensures (exists t :: e == BaseFromTell(t)) != (exists a :: e == BaseFromAsk(a))
  {
    match e
    case TellHandlerError(t) =>
      assert e == BaseFromTell(t);
    case AskHandlerError(a) =>
      assert e == BaseFromAsk(a);
  }

  /** `From<E> for DefaultHandlerError`: any error becomes a fatal error that
      keeps it as its source. */
  function DefaultHandlerErrorFrom(value: Errors.DynError): (r: DefaultHandlerError)
    ensures r.Fatal? && r.fatal.source == value
  {
    Fatal(FatalError(value))
  }
}
