/** The per-actor supervision loop: run `init`, then take envelopes from the
    mailbox one at a time, interpret commands, dispatch messages, consult
    `on_error` on a failed dispatch, and finish with `on_stop` or with a
    runtime error.

    The loop is given by a function of the mailbox contents and the hooks'
    outcomes (`Run`, `Drive`), and the method that runs it (`RunActorLoop`,
    `Resume`) is proved to compute exactly that function. */
module Supervision {
  import opened Wrappers
  import opened Envelopes
  import opened ActorErrors
  import opened Messaging

  /** An actor's capabilities. `init` is told how many times it ran before,
      so its outcome may differ between the first start and a restart.
      `handle` is the generated dispatcher: it gets the state, the message
      and `W`, the part of the world outside the actor a handler can act on
      (reply slots, other mailboxes), and returns all three with its result;
      the loop never looks into `W`. The hooks get no `W`: they are pure
      functions of their arguments. `HE` is the dispatcher's error type. */
  datatype Actor<!S, !M, !HE, !W> = Actor(
    init: nat -> Result<S, ActorInitFailure>,
    onStop: S -> Result<(), ActorStopFailure>,
    onError: HE -> Result<Option<CommandMessage>, ActorHandleErrorFailure>,
    handle: (S, M, W) -> (S, W, Result<(), HE>))

  /** The default `init` of the trait, whose actors keep no state of their
      own (`Result<(), _>`): starts without failing. The example actors
      define their own `init`, so no actor of this model uses it. */
  function DefaultInit(earlier: nat): (r: Result<(), ActorInitFailure>)
    ensures r.Ok?
  {
    Ok(())
  }

  /** The default `on_stop` of the same stateless trait: finishes without
      failing. The example actors define their own, so no actor of this
      model uses it. */
  function DefaultOnStop<S>(state: S): (r: Result<(), ActorStopFailure>)
    ensures r.Ok?
  {
    Ok(())
  }

  /** The default `on_error`: stop the actor, whatever the error. */
  function DefaultOnError<HE>(error: HE): (r: Result<Option<CommandMessage>, ActorHandleErrorFailure>)
    ensures r == Ok(Some(StopActor))
  {
    Ok(Some(StopActor))
  }

  /** What the loop did, in order: hook calls with whether they succeeded,
      envelopes taken from the mailbox, and commands acted upon. */
  datatype Event<M> =
    | InitHook(ok: bool)
    | Received(envelope: ActorMessage<M>)
    | ErrorHook(ok: bool)
    | Interpreted(command: CommandMessage)
    | StopHook(ok: bool)

  /** The hook calls that matter for counting: an `init` that produced a
      state, and any `on_stop` call. */
  datatype Hook = Started | Stopped | Other

  function HookOf<M>(e: Event<M>): Hook
  {
    if e.InitHook? && e.ok then Started else if e.StopHook? then Stopped else Other
  }

  function Hooks<M>(trace: seq<Event<M>>): seq<Hook>
  {
    seq(|trace|, i requires 0 <= i < |trace| => HookOf(trace[i]))
  }

  /** How many `init` calls produced a state. */
  function Inits<M>(trace: seq<Event<M>>): nat
  {
    multiset(Hooks(trace))[Started]
  }

  /** How many times `on_stop` was called. */
  function Stops<M>(trace: seq<Event<M>>): nat
  {
    multiset(Hooks(trace))[Stopped]
  }

  /** The envelopes taken from the mailbox, in the order they were taken. */
  function Taken<M>(trace: seq<Event<M>>): seq<ActorMessage<M>>
  {
    if |trace| == 0 then []
    else Taken(trace[..|trace| - 1]) + (if trace[|trace| - 1].Received? then [trace[|trace| - 1].envelope] else [])
  }

  /** What one more event adds to the counts. */
  lemma Snoc<M>(trace: seq<Event<M>>, e: Event<M>)
    ensures Inits(trace + [e]) == Inits(trace) + (if e.InitHook? && e.ok then 1 else 0)
    ensures Stops(trace + [e]) == Stops(trace) + (if e.StopHook? then 1 else 0)
  {
    assert Hooks(trace + [e]) == Hooks(trace) + [HookOf(e)];
  }

  /** Events after the last receive add nothing to the envelopes taken. */
  lemma {:induction false} TakenUpTo<M>(trace: seq<Event<M>>, k: nat)
    requires k <= |trace|
    requires forall i :: k <= i < |trace| ==> !trace[i].Received?
    ensures Taken(trace) == Taken(trace[..k])
    decreases |trace| - k
  {
    if k < |trace| {
      var shorter := trace[..|trace| - 1];
      assert !trace[|trace| - 1].Received?;
      assert Taken(trace) == Taken(shorter);
      assert shorter[..k] == trace[..k];
      TakenUpTo(shorter, k);
    } else {
      assert trace[..k] == trace;
    }
  }

  lemma SnocTaken<M>(trace: seq<Event<M>>, e: Event<M>)
    ensures Taken(trace + [e]) == Taken(trace) + (if e.Received? then [e.envelope] else [])
  {
    assert (trace + [e])[..|trace|] == trace;
  }

  /** The outcome of handling one envelope: the state and world afterwards,
      the command to apply (or the failure of `on_error`), and whether
      `on_error` ran. */
  datatype Handled<S, W> = Handled(
    state: S,
    world: W,
    verdict: Result<Option<CommandMessage>, ActorHandleErrorFailure>,
    errorHook: bool)

  /** A command envelope reaches neither the handler nor `on_error` and
      yields exactly its command. A message goes to the handler, whose
      changes to the state persist whatever happens next; success yields no
      command, failure yields exactly what `on_error` decides. */
  function HandleMessage<S, M, HE, W>(a: Actor<S, M, HE, W>, state: S, world: W, msg: ActorMessage<M>)
    : (h: Handled<S, W>)
    ensures msg.CommandMessage? ==> h == Handled(state, world, Ok(Some(msg.command)), false)
    ensures msg.ActorMessage? ==>
              var (state', world', result) := a.handle(state, msg.message, world);
              && h.state == state' && h.world == world'
              && (result.Ok? ==> h.verdict == Ok(None) && !h.errorHook)
              && (result.Err? ==> h.verdict == a.onError(result.error) && h.errorHook)
  {
    match msg
    case CommandMessage(command) => Handled(state, world, Ok(Some(command)), false)
    case ActorMessage(m) =>
      var (state', world', result) := a.handle(state, m, world);
      match result
      case Ok(_) => Handled(state', world', Ok(None), false)
      case Err(err) => Handled(state', world', a.onError(err), true)
  }

  /** Where the loop is after handling one envelope: finished, or going on
      with a state, the number of `init` calls so far and the mailbox's
      closed flag. `trace` is the whole trace so far. */
  datatype StepResult<S, M, W> =
    | Finished(result: Result<(), ActorRuntimeError>, world: W, trace: seq<Event<M>>)
    | Continue(state: S, inits: nat, closed: bool, world: W, trace: seq<Event<M>>)

  /** One turn of the loop after the envelope `env` was received. */
  function Step<S, M, HE, W>(a: Actor<S, M, HE, W>, state: S, inits: nat, env: ActorMessage<M>, closed: bool, world: W, trace: seq<Event<M>>)
    : (r: StepResult<S, M, W>)
    ensures r.Finished? && r.result.Err? ==> !r.result.error.Receive?
    ensures env.CommandMessage? ==> (r.Finished? && r.result.Ok? <==> env.command.ForceStopActor?)
    ensures env == CommandMessage(StopActor) ==> r.Continue? && r.closed && r.state == state
  {
    var h := HandleMessage(a, state, world, env);
    var received := trace + [Received(env)];
    var handled := if h.errorHook then received + [ErrorHook(h.verdict.Ok?)] else received;
    match h.verdict
    case Err(failure) => Finished(Err(HandleError(failure)), h.world, handled)
    case Ok(None) => Continue(h.state, inits, closed, h.world, handled)
    case Ok(Some(command)) => Apply(a, h.state, inits, command, closed, h.world, handled + [Interpreted(command)])
  }

  /** Acting on a command, once it is recorded in `trace`: StopActor closes
      the mailbox, ForceStopActor ends the loop at once, RestartActor calls
      `on_stop` and then `init` and goes on with the new state. */
  function Apply<S, M, HE, W>(a: Actor<S, M, HE, W>, state: S, inits: nat, command: CommandMessage, closed: bool, world: W, trace: seq<Event<M>>)
    : (r: StepResult<S, M, W>)
    ensures r.Finished? && r.result.Ok? <==> command.ForceStopActor?
    ensures r.Finished? && r.result.Err? ==> command.RestartActor? && (r.result.error.Stop? <==> a.onStop(state).Err?)
    ensures r.Continue? ==> (r.closed <==> closed || command.StopActor?)
    ensures r.Continue? ==> r.inits == if command.RestartActor? then inits + 1 else inits
  {
    match command
    case StopActor => Continue(state, inits, true, world, trace)
    case ForceStopActor => Finished(Ok(()), world, trace)
    case RestartActor =>
      match a.onStop(state)
      case Err(failure) => Finished(Err(Stop(failure)), world, trace + [StopHook(false)])
      case Ok(_) =>
        match a.init(inits)
        case Err(failure) => Finished(Err(Init(failure)), world, trace + [StopHook(true)] + [InitHook(false)])
        case Ok(restarted) => Continue(restarted, inits + 1, closed, world, trace + [StopHook(true)] + [InitHook(true)])
  }

  /** How the loop ended: with a result, or parked at a receive on an empty,
      open mailbox, holding its state until the next envelope arrives. */
  datatype Exit<S> = Done(result: Result<(), ActorRuntimeError>) | Parked(state: S, inits: nat)

  /** Everything a run determines: how it ended, the world, what happened,
      the envelopes left in the mailbox and the mailbox's closed flag. */
  datatype Outcome<S, M, W> = Outcome(exit: Exit<S>, world: W, trace: seq<Event<M>>, rest: seq<ActorMessage<M>>, closed: bool)

  /** The final `on_stop` after the loop broke out because the mailbox was
      closed. */
  function FinalStop<S, M, HE, W>(a: Actor<S, M, HE, W>, state: S, world: W, trace: seq<Event<M>>, rest: seq<ActorMessage<M>>)
    : (o: Outcome<S, M, W>)
    ensures o.exit.Done? && o.closed && o.rest == rest && o.world == world
    ensures o.exit.result.Ok? <==> a.onStop(state).Ok?
    ensures o.exit.result.Err? ==> o.exit.result.error == Stop(a.onStop(state).error)
    ensures o.trace == trace + [StopHook(a.onStop(state).Ok?)]
  {
    match a.onStop(state)
    case Ok(_) => Outcome(Done(Ok(())), world, trace + [StopHook(true)], rest, true)
    case Err(failure) => Outcome(Done(Err(Stop(failure))), world, trace + [StopHook(false)], rest, true)
  }

  /** The loop from a running state: `queue` is the mailbox's contents and
      `closed` its closed flag, `trace` what happened before. */
  function Drive<S, M, HE, W>(a: Actor<S, M, HE, W>, state: S, inits: nat, queue: seq<ActorMessage<M>>, closed: bool, world: W, trace: seq<Event<M>>)
    : (o: Outcome<S, M, W>)
    ensures |o.rest| <= |queue|
    ensures o.exit.Parked? ==> o.rest == [] && !o.closed
    ensures o.closed ==> o.exit.Done?
    decreases |queue|
  {
    if queue == [] then
      Outcome(if closed then Done(Err(Receive(RecvError))) else Parked(state, inits), world, trace, queue, closed)
    else
      match Step(a, state, inits, queue[0], closed, world, trace)
      case Finished(result, world', trace') => Outcome(Done(result), world', trace', queue[1..], closed)
      case Continue(state', inits', closed', world', trace') =>
        if closed' then FinalStop(a, state', world', trace', queue[1..])
        else Drive(a, state', inits', queue[1..], closed', world', trace')
  }

  /** One turn of the loop, seen from `Drive`: a finished turn ends it, a
      turn that closed the mailbox is followed by the final `on_stop`, any
      other goes on with the rest of the mailbox. */
  lemma DriveTurn<S, M, HE, W>(a: Actor<S, M, HE, W>, state: S, inits: nat, queue: seq<ActorMessage<M>>, closed: bool, world: W, trace: seq<Event<M>>)
    requires queue != []
    ensures var r := Step(a, state, inits, queue[0], closed, world, trace);
            var o := Drive(a, state, inits, queue, closed, world, trace);
            && (r.Finished? ==> o == Outcome(Done(r.result), r.world, r.trace, queue[1..], closed))
            && (r.Continue? && r.closed ==> o == FinalStop(a, r.state, r.world, r.trace, queue[1..]))
            && (r.Continue? && !r.closed ==> o == Drive(a, r.state, r.inits, queue[1..], r.closed, r.world, r.trace))
  {
  }

  /** A whole run: `init`, then the loop. If `init` fails, no envelope is
      taken, no handler runs and the run ends with the init error. */
  function Run<S, M, HE, W>(a: Actor<S, M, HE, W>, queue: seq<ActorMessage<M>>, closed: bool, world: W)
    : (o: Outcome<S, M, W>)
    ensures a.init(0).Err? ==> o == Outcome(Done(Err(Init(a.init(0).error))), world, [InitHook(false)], queue, closed)
    ensures a.init(0).Ok? ==> [InitHook(true)] <= o.trace
  {
    match a.init(0)
    case Err(failure) => Outcome(Done(Err(Init(failure))), world, [InitHook(false)], queue, closed)
    case Ok(state) =>
      DriveExtendsTrace(a, state, 1, queue, closed, world, [InitHook(true)]);
      Drive(a, state, 1, queue, closed, world, [InitHook(true)])
  }

  lemma {:induction false} DriveExtendsTrace<S, M, HE, W>(a: Actor<S, M, HE, W>, state: S, inits: nat, queue: seq<ActorMessage<M>>, closed: bool, world: W, trace: seq<Event<M>>)
    ensures trace <= Drive(a, state, inits, queue, closed, world, trace).trace
    decreases |queue|
  {
    if queue != [] {
      match Step(a, state, inits, queue[0], closed, world, trace)
      case Finished(_, _, _) =>
      case Continue(state', inits', closed', world', trace') =>
        if !closed' {
          DriveExtendsTrace(a, state', inits', queue[1..], closed', world', trace');
        }
    }
  }

  /** Act on a command already recorded in the trace: StopActor closes the
      mailbox, ForceStopActor ends the loop, RestartActor calls `on_stop`
      and then `init`, either of which may end the loop with its error. */
  method Interpret<S, M, HE, W>(a: Actor<S, M, HE, W>, state0: S, inits0: nat, command: CommandMessage, rx: Mailbox<M>, world: W, trace0: seq<Event<M>>)
    returns (done: Option<Result<(), ActorRuntimeError>>, state: S, inits: nat, trace: seq<Event<M>>)
    requires rx.Valid()
    modifies rx
    ensures rx.Valid() && rx.queue == old(rx.queue)
    ensures var r := Apply(a, state0, inits0, command, old(rx.closed), world, trace0);
            && (r.Finished? ==> done == Some(r.result) && trace == r.trace && rx.closed == old(rx.closed))
            && (r.Continue? ==> done == None && state == r.state && inits == r.inits && trace == r.trace && rx.closed == r.closed)
  {
    state, inits, trace, done := state0, inits0, trace0, None;
    match command
    case StopActor =>
      rx.Close();
    case ForceStopActor =>
      done := Some(Ok(()));
    case RestartActor =>
      var stopped := a.onStop(state);
      if stopped.Err? {
        trace := trace + [StopHook(false)];
        done := Some(Err(Stop(stopped.error)));
        return;
      }
      trace := trace + [StopHook(true)];
      var started := a.init(inits);
      if started.Err? {
        trace := trace + [InitHook(false)];
        done := Some(Err(Init(started.error)));
        return;
      }
      trace := trace + [InitHook(true)];
      state, inits := started.value, inits + 1;
  }

  /** One turn of the loop on the envelope `env` just received: dispatch
      it, record what happened, and act on the resulting command. */
  method TakeTurn<S, M, HE, W>(a: Actor<S, M, HE, W>, state0: S, inits0: nat, env: ActorMessage<M>, rx: Mailbox<M>, world0: W, trace0: seq<Event<M>>)
    returns (done: Option<Result<(), ActorRuntimeError>>, state: S, inits: nat, world: W, trace: seq<Event<M>>)
    requires rx.Valid()
    modifies rx
    ensures rx.Valid() && rx.queue == old(rx.queue)
    ensures var r := Step(a, state0, inits0, env, old(rx.closed), world0, trace0);
            && (r.Finished? ==> done == Some(r.result) && world == r.world && trace == r.trace && rx.closed == old(rx.closed))
            && (r.Continue? ==> done == None && state == r.state && inits == r.inits && world == r.world && trace == r.trace && rx.closed == r.closed)
  {
    var h := HandleMessage(a, state0, world0, env);
    trace := trace0 + [Received(env)];
    if h.errorHook {
      trace := trace + [ErrorHook(h.verdict.Ok?)];
    }
    state, inits, world, done := h.state, inits0, h.world, None;
    if h.verdict.Err? {
      done := Some(Err(HandleError(h.verdict.error)));
    } else if h.verdict.value.Some? {
      var command := h.verdict.value.value;
      trace := trace + [Interpreted(command)];
      done, state, inits, trace := Interpret(a, state, inits, command, rx, world, trace);
    }
  }

  /** Run the loop from a running state until it finishes or has to wait for
      an envelope. */
  method Resume<S, M, HE, W>(a: Actor<S, M, HE, W>, state0: S, inits0: nat, rx: Mailbox<M>, world0: W, trace0: seq<Event<M>>)
    returns (exit: Exit<S>, world: W, trace: seq<Event<M>>)
    requires rx.Valid()
    modifies rx
    ensures rx.Valid()
    ensures Outcome(exit, world, trace, rx.queue, rx.closed) == Drive(a, state0, inits0, old(rx.queue), old(rx.closed), world0, trace0)
  {
    var state, inits := state0, inits0;
    world, trace := world0, trace0;
    while true
      invariant rx.Valid()
      invariant Drive(a, state, inits, rx.queue, rx.closed, world, trace) == Drive(a, state0, inits0, old(rx.queue), old(rx.closed), world0, trace0)
      decreases |rx.queue|
    {
      ghost var queue, closed := rx.queue, rx.closed;
      var received := rx.Recv();
      if received.Pending? {
        exit := Parked(state, inits);
        return;
      }
      if received.value.Err? {
        exit := Done(Err(Receive(received.value.error)));
        return;
      }
      var env := received.value.value;
      DriveTurn(a, state, inits, queue, closed, world, trace);
      var done;
      done, state, inits, world, trace := TakeTurn(a, state, inits, env, rx, world, trace);
      if done.Some? {
        exit := Done(done.value);
        return;
      }
      if rx.closed {
        break;
      }
    }
    var stopped := a.onStop(state);
    trace := trace + [StopHook(stopped.Ok?)];
    exit := if stopped.Ok? then Done(Ok(())) else Done(Err(Stop(stopped.error)));
  }

  /** `run_actor_loop`: `init`, then the loop. */
  method RunActorLoop<S, M, HE, W>(a: Actor<S, M, HE, W>, rx: Mailbox<M>, world0: W)
    returns (exit: Exit<S>, world: W, trace: seq<Event<M>>)
    requires rx.Valid()
    modifies rx
    ensures rx.Valid()
    ensures Outcome(exit, world, trace, rx.queue, rx.closed) == Run(a, old(rx.queue), old(rx.closed), world0)
  {
    var started := a.init(0);
    if started.Err? {
      return Done(Err(Init(started.error))), world0, [InitHook(false)];
    }
    exit, world, trace := Resume(a, started.value, 1, rx, world0, [InitHook(true)]);
  }

  /** `run`: the actor's task. When the loop has finished the task drops the
      receiving end, which closes the mailbox for every sender. */
  method RunActor<S, M, HE, W>(a: Actor<S, M, HE, W>, rx: Mailbox<M>, world0: W)
    returns (exit: Exit<S>, world: W, trace: seq<Event<M>>)
    requires rx.Valid()
    modifies rx
    ensures rx.Valid()
    ensures var o := Run(a, old(rx.queue), old(rx.closed), world0);
            && exit == o.exit && world == o.world && trace == o.trace && rx.queue == o.rest
            && rx.closed == (o.closed || exit.Done?)
  {
    exit, world, trace := RunActorLoop(a, rx, world0);
    if exit.Done? {
      rx.Close();
    }
  }
}
