/** The sending side of a mailbox: the bounded channel itself, the senders
    that share it, and the envelopes `tell`, `call` and `command` build. */
module Messaging {
  import opened Wrappers
  import opened Envelopes
  import opened Oneshot
  import Errors
  import ActorErrors

  /** A request that expects an answer: the request and the index of the
      reply slot its answer goes to. */
  datatype CallMessage<I> = CallMessage(request: I, tx: nat)

  /** A request that expects no answer. */
  datatype TellMessage<I> = TellMessage(value: I)

  /** What a reply slot of a call answered with `O` can hold. */
  type Reply<O> = Result<O, Errors.ReceiverHandleError>

  /** The reply slots of calls answered with `O`. */
  type Replies<O> = Board<Reply<O>>

  /** The shared bounded channel of one actor: the envelopes queued in send
      order, whether it has been closed, and how many envelopes it holds at
      most. */
  class Mailbox<M> {
    var queue: seq<ActorMessage<M>>
    var closed: bool
    const capacity: nat

    ghost predicate Valid()
      reads this
    {
      0 < capacity && |queue| <= capacity
    }

    constructor (capacity: nat)
      requires 0 < capacity
      ensures Valid() && this.capacity == capacity
      ensures queue == [] && !closed
    {
      this.capacity := capacity;
      queue, closed := [], false;
    }

    /** Enqueue one envelope. A full, open mailbox would make the caller wait,
        so the model sends only when the mailbox is closed or has room. */
    method Send(msg: ActorMessage<M>) returns (ok: bool)
      requires Valid()
      requires closed || |queue| < capacity
      modifies this
      ensures Valid() && closed == old(closed)
      ensures ok == !old(closed)
      ensures queue == if ok then old(queue) + [msg] else old(queue)
    {
      ok := !closed;
      if ok {
        queue := queue + [msg];
      }
    }

    /** Take the oldest envelope. An empty mailbox yields the receive error
        once it is closed and would make the receiver wait while it is open. */
    method Recv() returns (r: Poll<Result<ActorMessage<M>, ActorErrors.RecvError>>)
      requires Valid()
      modifies this
      ensures Valid() && closed == old(closed)
      ensures old(queue) == [] ==> queue == [] && r == if closed then Ready(Err(ActorErrors.RecvError)) else Pending
      ensures old(queue) != [] ==> r == Ready(Ok(old(queue)[0])) && queue == old(queue)[1..]
    {
      if queue == [] {
        r := if closed then Ready(Err(ActorErrors.RecvError)) else Pending;
      } else {
        r := Ready(Ok(queue[0]));
        queue := queue[1..];
      }
    }

    /** Close the mailbox; what is queued stays queued. */
    method Close()
      requires Valid()
      modifies this
      ensures Valid() && closed && queue == old(queue)
    {
      closed := true;
    }
  }

  /** Sending into a mailbox, on values: a closed mailbox refuses the
      envelope and stays as it was, an open one appends it. */
  function Deliver<M>(queue: seq<ActorMessage<M>>, closed: bool, msg: ActorMessage<M>)
    : (r: (seq<ActorMessage<M>>, Result<(), Errors.ReceiverClosedError>))
    ensures r.1.Err? <==> closed
    ensures r.1.Err? ==> r.1.error == Errors.ReceiverClosedError(Errors.ChannelSendError)
    ensures r.0 == if closed then queue else queue + [msg]
  {
    if closed then (queue, Err(Errors.ReceiverClosedError(Errors.ChannelSendError))) else (queue + [msg], Ok(()))
  }

  /** A handle for sending into one mailbox. */
  class Sender<M> {
    const tx: Mailbox<M>

    constructor (tx: Mailbox<M>)
      ensures this.tx == tx
    {
      this.tx := tx;
    }

    /** A clone sends into the same mailbox. */
    method Clone() returns (c: Sender<M>)
      ensures fresh(c) && c.tx == tx
    {
      c := new Sender(tx);
    }

    /** Enqueue one envelope; a closed mailbox refuses it and stays as it was. */
    method Send(msg: ActorMessage<M>) returns (r: Result<(), Errors.ReceiverClosedError>)
      requires tx.Valid() && (tx.closed || |tx.queue| < tx.capacity)
      modifies tx
      ensures tx.Valid() && tx.closed == old(tx.closed)
      ensures (tx.queue, r) == Deliver(old(tx.queue), old(tx.closed), msg)
    {
      var ok := tx.Send(msg);
      r := if ok then Ok(()) else Err(Errors.ReceiverClosedError(Errors.ChannelSendError));
    }

    /** Enqueue a lifecycle command, as it is. */
    method Command(command: CommandMessage) returns (r: Result<(), Errors.ReceiverClosedError>)
      requires tx.Valid() && (tx.closed || |tx.queue| < tx.capacity)
      modifies tx
      ensures tx.Valid() && tx.closed == old(tx.closed)
      ensures (tx.queue, r) == Deliver(old(tx.queue), old(tx.closed), CommandMessage(command))
    {
      r := Send(CommandMessage(command));
    }

    /** Enqueue a request that expects no answer, wrapped by `case`, the
        variant constructor the actor's message enum registers for it. */
    method Tell<I>(value: I, getCase: TellMessage<I> -> M) returns (r: Result<(), Errors.ReceiverClosedError>)
      requires tx.Valid() && (tx.closed || |tx.queue| < tx.capacity)
      modifies tx
      ensures tx.Valid() && tx.closed == old(tx.closed)
      ensures (tx.queue, r) == Deliver(old(tx.queue), old(tx.closed), ActorMessage(getCase(TellMessage(value))))
    {
      var tellMessage := TellMessage(value);
      r := Send(ActorMessage(getCase(tellMessage)));
    }

    /** The sending half of `call`: allocate a reply slot, enqueue the request
        with it, and hand back the slot to wait on. If the mailbox refuses the
        envelope, the envelope and with it the slot's sending end are dropped,
        and the call fails at once as closed. */
    method Call<I, O>(value: I, getCase: CallMessage<I> -> M, replies: Replies<O>)
      returns (replies': Replies<O>, r: Result<nat, Errors.CallError>)
      requires tx.Valid() && (tx.closed || |tx.queue| < tx.capacity)
      modifies tx
      ensures tx.Valid() && tx.closed == old(tx.closed)
      ensures |replies'| == |replies| + 1 && replies'[..|replies|] == replies
      ensures old(tx.closed) ==> r == Err(Errors.ReceiverClosed(Errors.ReceiverClosedError(Errors.ChannelSendError)))
                                 && replies'[|replies|] == Dropped && tx.queue == old(tx.queue)
      ensures !old(tx.closed) ==> r == Ok(|replies|) && replies'[|replies|] == Open
                                  && tx.queue == old(tx.queue) + [ActorMessage(getCase(CallMessage(value, |replies|)))]
    {
      var allocation := Allocate(replies);
      replies' := allocation.0;
      var slot := allocation.1;
      var callMessage := CallMessage(value, slot);
      var sent := Send(ActorMessage(getCase(callMessage)));
      if sent.Err? {
        replies' := Close(replies', slot);
        r := Err(Errors.ReceiverClosed(sent.error));
      } else {
        r := Ok(slot);
      }
    }
  }

  /** The waiting half of `call`: still waiting while the slot is open; the
      answer once written; the handler-error marker as such; closed if the
      slot was dropped unwritten. */
  function AwaitReply<O>(replies: Replies<O>, id: nat): (r: Poll<Result<O, Errors.CallError>>)
    ensures r.Pending? <==> SlotAt(replies, id).Open?
    ensures SlotAt(replies, id).Dropped? ==>
              r == Ready(Err(Errors.ReceiverClosed(Errors.ReceiverClosedError(Errors.ReplyRecvError))))
    ensures SlotAt(replies, id).Written? ==>
              && r.Ready?
              && (r.value.Ok? <==> SlotAt(replies, id).value.Ok?)
              && (r.value.Ok? ==> r.value.value == SlotAt(replies, id).value.value)
              && (r.value.Err? ==> r.value.error.ReceiverHandleError?)
  {
    match Recv(replies, id)
    case Pending => Pending
    case Ready(None) => Ready(Err(Errors.ReceiverClosed(Errors.ReceiverClosedError(Errors.ReplyRecvError))))
    case Ready(Some(reply)) => Ready(reply.MapErr(m => Errors.CallError.ReceiverHandleError(m)))
  }

  /** `channel(n)`: a fresh, open, empty mailbox holding at most `n`
      envelopes, and a sender into it. */
  method Channel<M>(mailboxSize: nat) returns (tx: Sender<M>, rx: Mailbox<M>)
    requires 0 < mailboxSize
    ensures fresh(tx) && fresh(rx) && tx.tx == rx
    ensures rx.Valid() && rx.capacity == mailboxSize && rx.queue == [] && !rx.closed
  {
    rx := new Mailbox(mailboxSize);
    tx := new Sender(rx);
  }
}
