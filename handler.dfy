/** Dispatch of one request to its handler: a tell passes the handler's result
    through; a call also answers the caller's reply slot and classifies what
    happened into one of four outcomes. */
module Handler {
  import opened Wrappers
  import opened Oneshot
  import opened Messaging
  import Errors

  /** The marker a failed handler writes for the waiting caller. */
  const HandlerFailedMarker: Errors.ReceiverHandleError := Errors.ReceiverHandleError.ReceiverHandleError

  /** What the reply slot receives for a handler result: the answer itself,
      or the marker when the handler failed. */
  function ReplyFor<O, E>(result: Result<O, E>): (r: Reply<O>)
    ensures r.Ok? <==> result.Ok?
    ensures result.Ok? ==> r.value == result.value
  {
    match result
    case Ok(data) => Ok(data)
    case Err(_) => Err(HandlerFailedMarker)
  }

  /** Answer the reply slot `tx` with the handler's result and classify the
      dispatch: answered, answer lost (`SendOk`), handler failed and the
      caller was told (`Handle`), or handler failed and the caller could not
      be told either (`SendError`). The slot is written at most once and no
      other slot changes. */
  function AnswerCall<O, E>(result: Result<O, E>, tx: nat, replies: Replies<O>)
    : (r: (Replies<O>, Result<(), Errors.CallHandleError<E>>))
    ensures |r.0| == |replies|
    ensures forall j :: 0 <= j < |replies| && j != tx ==> r.0[j] == replies[j]
    ensures SlotAt(r.0, tx) == if SlotAt(replies, tx).Open? then Written(ReplyFor(result)) else SlotAt(replies, tx)
    ensures result.Ok? && SlotAt(replies, tx).Open? ==> r.1 == Ok(())
    ensures result.Ok? && !SlotAt(replies, tx).Open? ==> r.1 == Err(Errors.SendOk)
    ensures result.Err? && SlotAt(replies, tx).Open? ==> r.1 == Err(Errors.Handle(result.error))
    ensures result.Err? && !SlotAt(replies, tx).Open? ==> r.1 == Err(Errors.SendError(result.error))
  {
    match result
    case Ok(data) =>
      var (replies', sent) := Send(replies, tx, Ok(data));
      (replies', if sent then Ok(()) else Err(Errors.SendOk))
    case Err(err) =>
      var (replies', sent) := Send(replies, tx, Err(HandlerFailedMarker));
      (replies', Err(if sent then Errors.Handle(err) else Errors.SendError(err)))
  }

  /** A call dispatch fails exactly when the handler failed or its answer was
      lost, and carries the handler's own error exactly when the handler
      failed. */
  lemma AnswerCallCarriesHandlerError<O, E>(result: Result<O, E>, tx: nat, replies: Replies<O>)
    ensures var r := AnswerCall(result, tx, replies).1;
            && (r.Ok? <==> result.Ok? && SlotAt(replies, tx).Open?)
            && (r.Err? ==> Errors.HandlerFailure(r.error) == if result.Ok? then None else Some(result.error))
  {
  }

  /** What one call dispatch leaves behind: the actor state, the reply slots
      and the classification. */
  datatype Answered<S, O, E> = Answered(state: S, replies: Replies<O>, result: Result<(), Errors.CallHandleError<E>>)

  /** Dispatch a call: run the handler on the state, then answer its reply
      slot. Whatever the handler did to the state stays, whichever of the
      four outcomes follows. */
  function HandleCall<S, I, O, E>(handle: (S, I) -> (S, Result<O, E>), state: S, msg: CallMessage<I>, replies: Replies<O>)
    : (r: Answered<S, O, E>)
    ensures r.state == handle(state, msg.request).0
    ensures (r.replies, r.result) == AnswerCall(handle(state, msg.request).1, msg.tx, replies)
  {
    var (state', result) := handle(state, msg.request);
    var (replies', outcome) := AnswerCall(result, msg.tx, replies);
    Answered(state', replies', outcome)
  }

  /** Dispatch a tell: the handler's result, passed through unchanged. */
  function HandleTell<S, I, E>(handle: (S, I) -> (S, Result<(), E>), state: S, msg: TellMessage<I>)
    : (r: (S, Result<(), E>))
    ensures r == handle(state, msg.value)
  {
    handle(state, msg.value)
  }
}
