/** The error types of the crate's top-level error module: what a caller of
    `call` sees, how one dispatch of a call envelope can fail, and the error a
    whole dispatch reports to the supervision loop. */
module Errors {
  import opened Wrappers

  /** A boxed `dyn Error`. Sources are opaque: the model keeps only which of
      the errors the runtime itself boxes it is, or an application's own. */
  datatype DynError =
    | ChannelSendError                    // the mailbox refused an envelope
    | ReplyRecvError                      // a reply slot was dropped unwritten
    | ReplySendError                      // a reply could not be written
    | Closed(closed: ReceiverClosedError)
    | Call(call: CallError)
    | Custom(description: string)         // any error an actor author boxes

  /** The actor's mailbox or its reply slot is gone. */
  datatype ReceiverClosedError = ReceiverClosedError(source: DynError)

  /** The marker a failed handler writes into the caller's reply slot. */
  datatype ReceiverHandleError = ReceiverHandleError

  /** What `call` reports instead of an answer. */
  datatype CallError =
    | ReceiverClosed(closed: ReceiverClosedError)
    | ReceiverHandleError(marker: ReceiverHandleError)

  /** How dispatching one call envelope failed: the answer could not be
      delivered, the handler failed and that could not be delivered either,
      or the handler failed. */
  datatype CallHandleError<E> = SendOk | SendError(error: E) | Handle(error: E)

  /** The error a whole dispatch reports. */
  datatype HandleError<E> =
    | CallHandleError(call: CallHandleError<E>)
    | TellHandleError(tell: E)

  /** The handler's own error that a failed call dispatch carries, if any. */
  function HandlerFailure<E>(e: CallHandleError<E>): (r: Option<E>)
    ensures r.None? <==> e.SendOk?
    ensures e.SendError? || e.Handle? ==> r == Some(e.error)
  {
    match e
    case SendOk => None
    case SendError(err) => Some(err)
    case Handle(err) => Some(err)
  }

  /** `From<E> for HandleError<E>`: a plain handler error is a tell failure. */
  function HandleErrorFromTell<E>(value: E): (r: HandleError<E>)
    ensures r.TellHandleError? && r.tell == value
  {
    TellHandleError(value)
  }

  /** `From<CallHandleError<E>> for HandleError<E>`. */
  function HandleErrorFromCall<E>(value: CallHandleError<E>): (r: HandleError<E>)
    ensures r.CallHandleError? && r.call == value
  {
    CallHandleError(value)
  }

  /** Every `HandleError` comes from exactly one of the two conversions. */
  lemma HandleErrorConversionsPartition<E>(h: HandleError<E>)
    ensures (exists e :: h == HandleErrorFromTell(e)) != (exists c :: h == HandleErrorFromCall(c))
  {
    match h
    case TellHandleError(e) =>
      assert h == HandleErrorFromTell(e);
    case CallHandleError(c) =>
      assert h == HandleErrorFromCall(c);
  }
}
