/** The example system: a calculator actor holding one `i32`, and a proxy
    actor that, asked for a number, adds it and 5, subtracts 3 and then asks
    the calculator for the total. */
module Math {
  import opened Wrappers
  import opened Envelopes
  import opened Oneshot
  import opened Messaging
  import opened Handler
  import opened ActorErrors
  import opened Supervision
  import opened SupervisionProperties
  import Errors
  import HandlerErrors

  const I32Min: int := -0x8000_0000
  const I32Max: int := 0x7fff_ffff
  const I32Span: int := 0x1_0000_0000

  type int32 = x: int | I32Min <= x <= I32Max

  /** The `i32` that an out-of-range result wraps around to (a release build;
      a debug build panics instead). */
  function Wrap(x: int): (r: int32)
    ensures I32Min <= x <= I32Max ==> r == x
    ensures (x - r) % I32Span == 0
  {
    (x - I32Min) % I32Span + I32Min
  }

  /** Wrapping is blind to whole turns of 2^32. */
  lemma WrapTurns(x: int, turns: int)
    ensures Wrap(x + turns * I32Span) == Wrap(x)
  {
    var k := (x - I32Min) / I32Span;
    var k' := (x + turns * I32Span - I32Min) / I32Span;
    assert x - I32Min == k * I32Span + (x - I32Min) % I32Span;
    assert x + turns * I32Span - I32Min == k' * I32Span + (x + turns * I32Span - I32Min) % I32Span;
    assert (k' - k - turns) * I32Span == (x - I32Min) % I32Span - (x + turns * I32Span - I32Min) % I32Span;
  }

  datatype CalcState = CalcState(number: int32)

  datatype AddNumberRequest = AddNumberRequest(value: int32)
  datatype SubNumberRequest = SubNumberRequest(value: int32)
  datatype GetNumberRequest = GetNumberRequest
  datatype GetNumberResponse = GetNumberResponse(value: int32)

  /** The calculator's message enum: one variant per registered request. */
  datatype CalcMessage =
    | AddNumber(add: TellMessage<AddNumberRequest>)
    | SubNumber(sub: TellMessage<SubNumberRequest>)
    | GetNumber(get: CallMessage<GetNumberRequest>)

  /** The variant constructors the enum registers for each request. */
  function AddCase(m: TellMessage<AddNumberRequest>): CalcMessage { AddNumber(m) }
  function SubCase(m: TellMessage<SubNumberRequest>): CalcMessage { SubNumber(m) }
  function GetCase(m: CallMessage<GetNumberRequest>): CalcMessage { GetNumber(m) }

  /** The error the example's handlers are declared with. */
  type CalcError = HandlerErrors.DefaultHandlerError
  type CalcHandleError = Errors.HandleError<CalcError>
  type CalcReplies = Replies<GetNumberResponse>

  /** `init`: the calculator starts from 0, on its first start and on every
      restart. */
  function CalcInit(earlier: nat): (r: Result<CalcState, ActorInitFailure>)
    ensures r == Ok(CalcState(0))
  {
    Ok(CalcState(0))
  }

  function CalcOnStop(state: CalcState): (r: Result<(), ActorStopFailure>)
    ensures r.Ok?
  {
    Ok(())
  }

  /** Add: the number grows by exactly the request's value when the sum is
      an `i32`, and wraps around otherwise; nothing fails. */
  function AddHandler(state: CalcState, msg: AddNumberRequest): (r: (CalcState, Result<(), CalcError>))
    ensures r.1.Ok?
    ensures I32Min <= state.number + msg.value <= I32Max ==> r.0 == CalcState(state.number + msg.value)
    ensures (state.number + msg.value - r.0.number) % I32Span == 0
  {
    (CalcState(Wrap(state.number + msg.value)), Ok(()))
  }

  /** Sub: the number shrinks by exactly the request's value when the
      difference is an `i32`, and wraps around otherwise; nothing fails. */
  function SubHandler(state: CalcState, msg: SubNumberRequest): (r: (CalcState, Result<(), CalcError>))
    ensures r.1.Ok?
    ensures I32Min <= state.number - msg.value <= I32Max ==> r.0 == CalcState(state.number - msg.value)
    ensures (state.number - msg.value - r.0.number) % I32Span == 0
  {
    (CalcState(Wrap(state.number - msg.value)), Ok(()))
  }

  /** Get: answers the current number and leaves the state as it was. */
  function GetHandler(state: CalcState, msg: GetNumberRequest): (r: (CalcState, Result<GetNumberResponse, CalcError>))
    ensures r.0 == state && r.1 == Ok(GetNumberResponse(state.number))
  {
    (state, Ok(GetNumberResponse(state.number)))
  }

  /** Subtracting what was added gives back the number, even across a
      wrap-around. */
  lemma SubUndoesAdd(state: CalcState, k: int32)
    ensures SubHandler(AddHandler(state, AddNumberRequest(k)).0, SubNumberRequest(k)).0 == state
  {
    var sum := state.number + k;
    var turns := (sum - Wrap(sum)) / I32Span;
    assert Wrap(sum) == sum - turns * I32Span;
    WrapTurns(state.number, -turns);
    assert Wrap(sum) - k == state.number + (-turns) * I32Span;
  }

  /** The generated dispatcher: each variant goes to its handler, a handler
      error becomes the actor's handle error. Tells leave the reply slots
      alone; a get answers its slot, and only a lost answer fails. */
  function CalcHandle(state: CalcState, msg: CalcMessage, replies: CalcReplies)
    : (r: (CalcState, CalcReplies, Result<(), CalcHandleError>))
    ensures msg.AddNumber? ==> r == (AddHandler(state, msg.add.value).0, replies, Ok(()))
    ensures msg.SubNumber? ==> r == (SubHandler(state, msg.sub.value).0, replies, Ok(()))
    ensures msg.GetNumber? ==>
              var tx := msg.get.tx;
              && r.0 == state
              && |r.1| == |replies|
              && (forall j :: 0 <= j < |replies| && j != tx ==> r.1[j] == replies[j])
              && SlotAt(r.1, tx) == (if SlotAt(replies, tx).Open? then Written(Ok(GetNumberResponse(state.number))) else SlotAt(replies, tx))
              && r.2 == if SlotAt(replies, tx).Open? then Ok(()) else Err(Errors.CallHandleError(Errors.SendOk))
  {
    match msg
    case AddNumber(m) =>
      var (state', result) := HandleTell(AddHandler, state, m);
      (state', replies, result.MapErr(e => Errors.HandleErrorFromTell(e)))
    case SubNumber(m) =>
      var (state', result) := HandleTell(SubHandler, state, m);
      (state', replies, result.MapErr(e => Errors.HandleErrorFromTell(e)))
    case GetNumber(m) =>
      var answered := HandleCall(GetHandler, state, m, replies);
      (answered.state, answered.replies, answered.result.MapErr(e => Errors.HandleErrorFromCall(e)))
  }

  /** The calculator actor: default `on_error`, so a failed dispatch stops it. */
  const Calc: Actor<CalcState, CalcMessage, CalcHandleError, CalcReplies> :=
    Actor(CalcInit, CalcOnStop, e => DefaultOnError(e), CalcHandle)

  /** The calculator takes a tell, or a get whose caller still waits,
      answers it, and goes on with the next envelope. */
  lemma CalcTakes(state: CalcState, inits: nat, msg: CalcMessage, rest: seq<ActorMessage<CalcMessage>>, replies: CalcReplies, trace: seq<Event<CalcMessage>>)
    requires msg.GetNumber? ==> SlotAt(replies, msg.get.tx).Open?
    ensures var (state', replies', _) := CalcHandle(state, msg, replies);
            Drive(Calc, state, inits, [ActorMessage(msg)] + rest, false, replies, trace)
              == Drive(Calc, state', inits, rest, false, replies', trace + [Received(ActorMessage(msg))])
  {
    assert ([ActorMessage(msg)] + rest)[0] == ActorMessage(msg);
    assert ([ActorMessage(msg)] + rest)[1..] == rest;
  }

  /** A get whose caller stopped waiting fails to answer, and with the
      default `on_error` that stops the calculator: it calls `on_stop` and
      takes nothing more. */
  lemma CalcStopsWhenAnswerIsLost(state: CalcState, inits: nat, id: nat, queue: seq<ActorMessage<CalcMessage>>, closed: bool, replies: CalcReplies, trace: seq<Event<CalcMessage>>)
    requires !SlotAt(replies, id).Open?
    ensures var get := ActorMessage(GetNumber(CallMessage(GetNumberRequest, id)));
            Drive(Calc, state, inits, [get] + queue, closed, replies, trace)
              == Outcome(Done(Ok(())), replies, trace + [Received(get), ErrorHook(true), Interpreted(StopActor), StopHook(true)], queue, true)
  {
    var get := ActorMessage(GetNumber(CallMessage(GetNumberRequest, id)));
    assert ([get] + queue)[0] == get && ([get] + queue)[1..] == queue;
    assert trace + [Received(get)] + [ErrorHook(true)] + [Interpreted(StopActor)] + [StopHook(true)]
        == trace + [Received(get), ErrorHook(true), Interpreted(StopActor), StopHook(true)];
  }

  datatype ProxyActorState = ProxyActorState
  datatype ProxyActorCalcRequest = ProxyActorCalcRequest(value: int32)
  datatype ProxyActorCalcResponse = ProxyActorCalcResponse(value: int32)

  /** The proxy's message enum. */
  datatype ProxyActorMessage = ProxyActorCalc(call: CallMessage<ProxyActorCalcRequest>)

  function ProxyCase(m: CallMessage<ProxyActorCalcRequest>): ProxyActorMessage { ProxyActorCalc(m) }

  /** The calculator as the proxy reaches it through its sender: how its run
      stands (parked between envelopes, or finished), its mailbox, its reply
      slots and what it did so far. */
  datatype CalcSystem = CalcSystem(
    run: Exit<CalcState>,
    queue: seq<ActorMessage<CalcMessage>>,
    closed: bool,
    replies: CalcReplies,
    trace: seq<Event<CalcMessage>>)

  /** The calculator has handled all it was sent: it waits at an empty open
      mailbox, or it finished and its task dropped the receiver. */
  predicate Settled(sys: CalcSystem)
  {
    && (sys.run.Parked? ==> sys.queue == [] && !sys.closed)
    && (sys.run.Done? ==> sys.closed)
  }

  type CalcView = sys: CalcSystem | Settled(sys) witness CalcSystem(Done(Ok(())), [], true, [], [])

  /** The calculator runs on what it was sent until it waits again or
      finishes. The actors run concurrently; this fixes one schedule, in
      which the calculator catches up after every send. */
  function RunCalc(sys: CalcSystem): (r: CalcView)
    ensures sys.run.Done? ==> r.trace == sys.trace && r.replies == sys.replies && r.run == sys.run && r.queue == sys.queue
    ensures sys.run.Parked? ==> Taken(r.trace) + r.queue == Taken(sys.trace) + sys.queue
  {
    match sys.run
    case Done(_) => sys.(closed := true)
    case Parked(state, inits) =>
      var o := Drive(Calc, state, inits, sys.queue, sys.closed, sys.replies, sys.trace);
      DriveFifo(Calc, state, inits, sys.queue, sys.closed, sys.replies, sys.trace);
      CalcSystem(o.exit, o.rest, o.closed || o.exit.Done?, o.world, o.trace)
  }

  /** `tell` into the calculator's mailbox: a finished calculator has
      closed it and the send fails; a parked one takes the envelope at once
      and parks again with the handler's state (`TellCalcRunsLoop` shows
      this is what its loop does). A tell touches no reply slot. */
  function TellCalc(sys: CalcView, msg: CalcMessage): (r: (CalcView, Result<(), Errors.ReceiverClosedError>))
    requires !msg.GetNumber?
    ensures r.1.Err? <==> sys.closed
    ensures r.1.Err? ==> r == (sys, Err(Errors.ReceiverClosedError(Errors.ChannelSendError)))
    ensures r.0.replies == sys.replies && r.0.closed == sys.closed
  {
    if sys.closed then (sys, Err(Errors.ReceiverClosedError(Errors.ChannelSendError)))
    else
      var state := CalcHandle(sys.run.state, msg, sys.replies).0;
      (sys.(run := Parked(state, sys.run.inits), trace := sys.trace + [Received(ActorMessage(msg))]), Ok(()))
  }

  /** `call(GetNumberRequest)` on the calculator: a fresh reply slot, the
      request, and the wait for the answer. A finished calculator has closed
      its mailbox, the slot is dropped and the call fails; a parked one takes
      the request at once and answers its number (`CallGetRunsLoop` shows
      this is what its loop does). */
  function CallGet(sys: CalcView): (r: (CalcView, Result<GetNumberResponse, Errors.CallError>))
    ensures sys.closed ==> r.1 == Err(Errors.ReceiverClosed(Errors.ReceiverClosedError(Errors.ChannelSendError)))
    ensures !sys.closed ==> r.1 == Ok(GetNumberResponse(sys.run.state.number))
    ensures |r.0.replies| == |sys.replies| + 1 && r.0.replies[..|sys.replies|] == sys.replies
  {
    var (replies, id) := Allocate(sys.replies);
    if sys.closed then
      (sys.(replies := Close(replies, id)), Err(Errors.ReceiverClosed(Errors.ReceiverClosedError(Errors.ChannelSendError))))
    else
      var get := GetNumber(CallMessage(GetNumberRequest, id));
      var (state, replies', _) := CalcHandle(sys.run.state, get, replies);
      var sys' := sys.(run := Parked(state, sys.run.inits), replies := replies', trace := sys.trace + [Received(ActorMessage(get))]);
      (sys', Ok(GetNumberResponse(sys.run.state.number)))
  }

  /** The calculator's loop, run on a tell delivered to its mailbox, does
      what `TellCalc` says. */
  lemma TellCalcRunsLoop(sys: CalcView, msg: CalcMessage)
    requires !msg.GetNumber?
    ensures var (queue, sent) := Deliver(sys.queue, sys.closed, ActorMessage(msg));
            TellCalc(sys, msg) == (RunCalc(sys.(queue := queue)), sent)
  {
    if !sys.closed {
      CalcTakes(sys.run.state, sys.run.inits, msg, [], sys.replies, sys.trace);
      assert [ActorMessage(msg)] + [] == [ActorMessage(msg)];
    }
  }

  /** The calculator's loop, run on a get delivered to its mailbox with a
      fresh reply slot, does what `CallGet` says, and the answer `CallGet`
      gives is what the caller then finds in the slot. */
  lemma CallGetRunsLoop(sys: CalcView)
    ensures var (replies, id) := Allocate(sys.replies);
            var (queue, sent) := Deliver(sys.queue, sys.closed, ActorMessage(GetCase(CallMessage(GetNumberRequest, id))));
            && (sent.Err? ==> CallGet(sys) == (sys.(replies := Close(replies, id)), Err(Errors.ReceiverClosed(sent.error))))
            && (sent.Ok? ==>
                  var sys' := RunCalc(sys.(queue := queue, replies := replies));
                  CallGet(sys).0 == sys' && AwaitReply(sys'.replies, id) == Ready(CallGet(sys).1))
  {
    if !sys.closed {
      var (replies, id) := Allocate(sys.replies);
      var get := GetNumber(CallMessage(GetNumberRequest, id));
      CalcTakes(sys.run.state, sys.run.inits, get, [], replies, sys.trace);
      assert [ActorMessage(get)] + [] == [ActorMessage(get)];
    }
  }

  /** The `?` on a failed send or call: the error becomes the proxy's
      handler error through the catch-all conversion. */
  function SendFailed(e: Errors.ReceiverClosedError): (r: CalcError)
    ensures r == HandlerErrors.Fatal(HandlerErrors.FatalError(Errors.Closed(e)))
  {
    HandlerErrors.DefaultHandlerErrorFrom(Errors.Closed(e))
  }

  function CallFailed(e: Errors.CallError): (r: CalcError)
    ensures r == HandlerErrors.Fatal(HandlerErrors.FatalError(Errors.Call(e)))
  {
    HandlerErrors.DefaultHandlerErrorFrom(Errors.Call(e))
  }

  /** The proxy's handler: tell Add(n), Add(5), Sub(3), then call Get and
      answer with its number; the first failure ends it with that error. */
  function ProxyCalc(sys: CalcView, n: int32): (r: (CalcView, Result<ProxyActorCalcResponse, CalcError>))
    ensures r.1.Ok? <==> !sys.closed
    ensures sys.closed ==> r == (sys, Err(SendFailed(Errors.ReceiverClosedError(Errors.ChannelSendError))))
    ensures |r.0.replies| == |sys.replies| + (if sys.closed then 0 else 1)
  {
    var (sys1, sent1) := TellCalc(sys, AddCase(TellMessage(AddNumberRequest(n))));
    match sent1
    case Err(e) => (sys1, Err(SendFailed(e)))
    case Ok(_) =>
      var (sys2, sent2) := TellCalc(sys1, AddCase(TellMessage(AddNumberRequest(5))));
      match sent2
      case Err(e) => (sys2, Err(SendFailed(e)))
      case Ok(_) =>
        var (sys3, sent3) := TellCalc(sys2, SubCase(TellMessage(SubNumberRequest(3))));
        match sent3
        case Err(e) => (sys3, Err(SendFailed(e)))
        case Ok(_) =>
          var (sys4, got) := CallGet(sys3);
          match got
          case Err(e) => (sys4, Err(CallFailed(e)))
          case Ok(response) => (sys4, Ok(ProxyActorCalcResponse(response.value)))
  }

  /** The proxy's world: the calculator it sends to, and the reply slots of
      the calls made to the proxy itself. */
  datatype ProxyWorld = ProxyWorld(calculator: CalcView, answers: Replies<ProxyActorCalcResponse>)

  /** The handler as the dispatcher sees it: the sender into the calculator
      lives in the actor, next to its (empty) state. */
  function ProxyCalcHandler(st: (ProxyActorState, CalcView), req: ProxyActorCalcRequest)
    : ((ProxyActorState, CalcView), Result<ProxyActorCalcResponse, CalcError>)
  {
    var (sys', result) := ProxyCalc(st.1, req.value);
    ((st.0, sys'), result)
  }

  /** The proxy's generated dispatcher. */
  function ProxyHandle(state: ProxyActorState, msg: ProxyActorMessage, world: ProxyWorld)
    : (r: (ProxyActorState, ProxyWorld, Result<(), CalcHandleError>))
    ensures r.0 == state && |r.1.answers| == |world.answers|
    ensures r.2.Ok? <==> SlotAt(world.answers, msg.call.tx).Open? && !world.calculator.closed
    ensures r.2.Err? ==> r.2.error.CallHandleError?
  {
    var answered := HandleCall(ProxyCalcHandler, (state, world.calculator), msg.call, world.answers);
    (answered.state.0, ProxyWorld(answered.state.1, answered.replies), answered.result.MapErr(e => Errors.HandleErrorFromCall(e)))
  }

  function ProxyInit(earlier: nat): (r: Result<ProxyActorState, ActorInitFailure>)
    ensures r.Ok?
  {
    Ok(ProxyActorState)
  }

  function ProxyOnStop(state: ProxyActorState): (r: Result<(), ActorStopFailure>)
    ensures r.Ok?
  {
    Ok(())
  }

  const Proxy: Actor<ProxyActorState, ProxyActorMessage, CalcHandleError, ProxyWorld> :=
    Actor(ProxyInit, ProxyOnStop, e => DefaultOnError(e), ProxyHandle)

  /** The proxy's handler, on a calculator holding x, sends Add(n), Add(5),
      Sub(3) and Get in this order, each taken by the calculator before the
      next is sent, and answers with the total the calculator then holds:
      x + n + 2 when nothing wraps around. */
  lemma ProxyCalcSends(sys: CalcView, n: int32)
    requires !sys.closed
    ensures var (sys', r) := ProxyCalc(sys, n);
            var x := sys.run.state.number;
            var total := Wrap(Wrap(Wrap(x + n) + 5) - 3);
            && r == Ok(ProxyActorCalcResponse(total))
            && (I32Min <= x + n && x + n + 5 <= I32Max ==> total == x + n + 2)
            && sys'.run == Parked(CalcState(total), sys.run.inits)
            && Taken(sys'.trace) == Taken(sys.trace) + [
                 ActorMessage(AddNumber(TellMessage(AddNumberRequest(n)))),
                 ActorMessage(AddNumber(TellMessage(AddNumberRequest(5)))),
                 ActorMessage(SubNumber(TellMessage(SubNumberRequest(3)))),
                 ActorMessage(GetNumber(CallMessage(GetNumberRequest, |sys.replies|)))]
  {
    var x := sys.run.state.number;
    ProxyCalcRuns(sys, n);
    TakenOfFour(sys.trace,
      ActorMessage(AddNumber(TellMessage(AddNumberRequest(n)))),
      ActorMessage(AddNumber(TellMessage(AddNumberRequest(5)))),
      ActorMessage(SubNumber(TellMessage(SubNumberRequest(3)))),
      ActorMessage(GetNumber(CallMessage(GetNumberRequest, |sys.replies|))));
    if I32Min <= x + n && x + n + 5 <= I32Max {
      NoWrap(x, n);
    }
  }

  /** The handler's four sends, event by event: the calculator's number
      after them, the answer, and the four envelopes it received. */
  lemma ProxyCalcRuns(sys: CalcView, n: int32)
    requires !sys.closed
    ensures var (sys', r) := ProxyCalc(sys, n);
            var total := Wrap(Wrap(Wrap(sys.run.state.number + n) + 5) - 3);
            && r == Ok(ProxyActorCalcResponse(total))
            && sys'.run == Parked(CalcState(total), sys.run.inits)
            && sys'.trace == sys.trace
                 + [Received(ActorMessage(AddNumber(TellMessage(AddNumberRequest(n)))))]
                 + [Received(ActorMessage(AddNumber(TellMessage(AddNumberRequest(5)))))]
                 + [Received(ActorMessage(SubNumber(TellMessage(SubNumberRequest(3)))))]
                 + [Received(ActorMessage(GetNumber(CallMessage(GetNumberRequest, |sys.replies|))))]
  {
  }

  /** Four envelopes received one after another are taken in that order. */
  lemma TakenOfFour<M>(trace: seq<Event<M>>, e1: ActorMessage<M>, e2: ActorMessage<M>, e3: ActorMessage<M>, e4: ActorMessage<M>)
    ensures Taken(trace + [Received(e1)] + [Received(e2)] + [Received(e3)] + [Received(e4)]) == Taken(trace) + [e1, e2, e3, e4]
  {
    SnocTaken(trace, Received(e1));
    SnocTaken(trace + [Received(e1)], Received(e2));
    SnocTaken(trace + [Received(e1)] + [Received(e2)], Received(e3));
    SnocTaken(trace + [Received(e1)] + [Received(e2)] + [Received(e3)], Received(e4));
  }

  /** Adding n and 5 and subtracting 3 wraps nowhere when x + n + 5 is an
      `i32`. */
  lemma NoWrap(x: int32, n: int32)
    requires I32Min <= x + n && x + n + 5 <= I32Max
    ensures Wrap(Wrap(Wrap(x + n) + 5) - 3) == x + n + 2
  {
    assert Wrap(x + n) == x + n;
    assert Wrap(x + n + 5) == x + n + 5;
  }

  /** Once the calculator is gone, the first send fails, the handler ends
      with that error and sends nothing more. */
  lemma ProxyCalcClosed(sys: CalcView, n: int32)
    requires sys.closed
    ensures ProxyCalc(sys, n) == (sys, Err(SendFailed(Errors.ReceiverClosedError(Errors.ChannelSendError))))
  {
  }

  /** The proxy's dispatcher, on a call with n and an open reply slot,
      writes the slot with the answer of its four sends and succeeds. */
  lemma ProxyHandleAnswers(sys: CalcView, n: int32, answers: Replies<ProxyActorCalcResponse>, id: nat)
    requires !sys.closed && SlotAt(answers, id).Open?
    ensures var h := ProxyHandle(ProxyActorState, ProxyActorCalc(CallMessage(ProxyActorCalcRequest(n), id)), ProxyWorld(sys, answers));
            && h.2 == Ok(())
            && SlotAt(h.1.answers, id) == Written(Ok(ProxyCalc(sys, n).1.value))
  {
    ProxyCalcSends(sys, n);
  }

  /** The proxy, on a call with n and an open reply slot, answers the slot
      with its handler's result and parks again. */
  lemma ProxyAnswers(sys: CalcView, n: int32, answers: Replies<ProxyActorCalcResponse>, id: nat)
    requires !sys.closed && SlotAt(answers, id).Open?
    ensures var call := ActorMessage(ProxyActorCalc(CallMessage(ProxyActorCalcRequest(n), id)));
            var o := Run(Proxy, [call], false, ProxyWorld(sys, answers));
            && o.exit == Parked(ProxyActorState, 1)
            && SlotAt(o.world.answers, id) == Written(Ok(ProxyCalc(sys, n).1.value))
  {
    ProxyHandleAnswers(sys, n, answers, id);
    var msg := ProxyActorCalc(CallMessage(ProxyActorCalcRequest(n), id));
    var world := ProxyWorld(sys, answers);
    var h := ProxyHandle(ProxyActorState, msg, world);
    var started: seq<Event<ProxyActorMessage>> := [InitHook(true)];
    var taken := started + [Received(ActorMessage(msg))];
    assert Proxy.handle(ProxyActorState, msg, world) == h;
    assert Step(Proxy, ProxyActorState, 1, ActorMessage(msg), false, world, started)
      == Continue(ProxyActorState, 1, false, h.1, taken);
    assert [ActorMessage(msg)][1..] == [];
    assert Drive(Proxy, ProxyActorState, 1, [ActorMessage(msg)], false, world, started)
      == Drive(Proxy, ProxyActorState, 1, [], false, h.1, taken);
  }

  /** A calculator started on an empty, open mailbox calls `init` once and
      waits holding 0. */
  lemma CalcStartsParked(replies: CalcReplies)
    ensures Run(Calc, [], false, replies) == Outcome(Parked(CalcState(0), 1), replies, [InitHook(true)], [], false)
  {
  }

  /** The example's `main`: start the calculator on a mailbox of 100, put
      the proxy in front of it on another, and call the proxy with 10; the
      answer is 12. The proxy's sender `calcTx` feeds `calcRx`; the model's
      proxy reaches the calculator through the `CalcView` of that mailbox
      instead, so `calcTx` itself is not used after it is created. */
  method RunExample() returns (answer: Poll<Result<ProxyActorCalcResponse, Errors.CallError>>)
    ensures answer == Ready(Ok(ProxyActorCalcResponse(12)))
  {
    var calcTx, calcRx := Channel<CalcMessage>(100);
    CalcStartsParked([]);
    var calcExit, calcReplies, calcTrace := RunActor(Calc, calcRx, []);
    var calculator: CalcView := CalcSystem(calcExit, calcRx.queue, calcRx.closed, calcReplies, calcTrace);
    var proxyTx, proxyRx := Channel<ProxyActorMessage>(100);
    var answers, call := proxyTx.Call(ProxyActorCalcRequest(10), ProxyCase, []);
    ProxyAnswers(calculator, 10, answers, call.value);
    var proxyExit, world, proxyTrace := RunActor(Proxy, proxyRx, ProxyWorld(calculator, answers));
    answer := AwaitReply(world.answers, call.value);
  }

  /** Add 7, subtract 3 and ask through one sender: the calculator takes
      them in that order and answers 4. */
  method TellTellCall() returns (answer: Poll<Result<GetNumberResponse, Errors.CallError>>)
    ensures answer == Ready(Ok(GetNumberResponse(4)))
  {
    var tx, rx := Channel<CalcMessage>(100);
    var added := tx.Tell(AddNumberRequest(7), AddCase);
    var subtracted := tx.Tell(SubNumberRequest(3), SubCase);
    var replies, call := tx.Call(GetNumberRequest, GetCase, []);
    var add := AddNumber(TellMessage(AddNumberRequest(7)));
    var sub := SubNumber(TellMessage(SubNumberRequest(3)));
    var get := GetNumber(CallMessage(GetNumberRequest, 0));
    assert rx.queue == [ActorMessage(add)] + ([ActorMessage(sub)] + ([ActorMessage(get)] + []));
    var start: seq<Event<CalcMessage>> := [InitHook(true)];
    CalcTakes(CalcState(0), 1, add, [ActorMessage(sub)] + ([ActorMessage(get)] + []), replies, start);
    CalcTakes(CalcState(7), 1, sub, [ActorMessage(get)] + [], replies, start + [Received(ActorMessage(add))]);
    CalcTakes(CalcState(4), 1, get, [], replies, start + [Received(ActorMessage(add))] + [Received(ActorMessage(sub))]);
    var exit, world, trace := RunActor(Calc, rx, replies);
    answer := AwaitReply(world, call.value);
  }

  /** After StopActor the calculator has stopped, its mailbox is closed and
      a later tell fails as closed. */
  method StopThenTell() returns (r: Result<(), Errors.ReceiverClosedError>)
    ensures r == Err(Errors.ReceiverClosedError(Errors.ChannelSendError))
  {
    var tx, rx := Channel<CalcMessage>(100);
    var stopped := tx.Command(StopActor);
    var none: CalcReplies := [];
    var started: seq<Event<CalcMessage>> := [InitHook(true)];
    DriveStopActor(Calc, CalcState(0), 1, rx.queue, false, none, started);
    assert Run(Calc, rx.queue, false, none) == Drive(Calc, CalcState(0), 1, rx.queue, false, none, started);
    var exit, world, trace := RunActor(Calc, rx, none);
    r := tx.Tell(AddNumberRequest(1), AddCase);
  }
}
