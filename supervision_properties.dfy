/** What the supervision loop guarantees over a whole run: envelopes are taken
    in mailbox order, a stop command is the last envelope taken, `on_stop`
    runs at most once per state `init` produced, and each command does what
    it says. */
module SupervisionProperties {
  import opened Wrappers
  import opened Envelopes
  import opened ActorErrors
  import opened Supervision

  function Last<M>(trace: seq<Event<M>>): Event<M>
    requires |trace| > 0
  {
    trace[|trace| - 1]
  }

  /** A stop command: after it the loop takes no further envelope. */
  ghost predicate Terminal<M>(env: ActorMessage<M>)
  {
    env == CommandMessage(StopActor) || env == CommandMessage(ForceStopActor)
  }

  /** A loop that finished with this result in the middle of a turn had
      already handed its state to `on_stop`. */
  ghost predicate TurnReleases(result: Result<(), ActorRuntimeError>)
  {
    result.Err? && (result.error.Stop? || result.error.Init?)
  }

  /** The run ended with the last state handed to `on_stop`: a clean stop,
      a failed `on_stop`, or a restart whose `init` failed. */
  ghost predicate Released<S, M, W>(o: Outcome<S, M, W>)
  {
    && o.exit.Done?
    && if o.exit.result.Ok? then |o.trace| > 0 && Last(o.trace) == StopHook(true)
       else TurnReleases(o.exit.result)
  }

  /** A turn appends to the trace: first its envelope, then only hook and
      command events. */
  lemma StepShape<S, M, HE, W>(a: Actor<S, M, HE, W>, state: S, inits: nat, env: ActorMessage<M>, closed: bool, world: W, trace: seq<Event<M>>)
    ensures var r := Step(a, state, inits, env, closed, world, trace);
            && r.trace[..|trace| + 1] == trace + [Received(env)]
            && forall i :: |trace| + 1 <= i < |r.trace| ==> !r.trace[i].Received?
  {
    var h := HandleMessage(a, state, world, env);
    var received := trace + [Received(env)];
    var handled := if h.errorHook then received + [ErrorHook(h.verdict.Ok?)] else received;
    assert handled[..|received|] == received;
    if h.verdict.Ok? && h.verdict.value.Some? {
      var command := h.verdict.value.value;
      var interpreted := handled + [Interpreted(command)];
      ApplyShape(a, h.state, inits, command, closed, h.world, interpreted);
      assert interpreted[..|received|] == received;
    }
  }

  /** Acting on a command only appends hook events. */
  lemma ApplyShape<S, M, HE, W>(a: Actor<S, M, HE, W>, state: S, inits: nat, command: CommandMessage, closed: bool, world: W, trace: seq<Event<M>>)
    ensures var r := Apply(a, state, inits, command, closed, world, trace);
            && |trace| <= |r.trace| && r.trace[..|trace|] == trace
            && forall i :: |trace| <= i < |r.trace| ==> !r.trace[i].Received?
  {
  }

  /** One turn takes exactly its envelope. */
  lemma StepTakes<S, M, HE, W>(a: Actor<S, M, HE, W>, state: S, inits: nat, env: ActorMessage<M>, closed: bool, world: W, trace: seq<Event<M>>)
    ensures Taken(Step(a, state, inits, env, closed, world, trace).trace) == Taken(trace) + [env]
  {
    StepShape(a, state, inits, env, closed, world, trace);
    var r := Step(a, state, inits, env, closed, world, trace);
    TakenUpTo(r.trace, |trace| + 1);
    SnocTaken(trace, Received(env));
  }

  /** One turn keeps one live state, unless it finished through `on_stop`
      or through a failed re-`init`. */
  lemma StepCounts<S, M, HE, W>(a: Actor<S, M, HE, W>, state: S, inits: nat, env: ActorMessage<M>, closed: bool, world: W, trace: seq<Event<M>>)
    ensures var r := Step(a, state, inits, env, closed, world, trace);
            && (r.Continue? ==> Inits(r.trace) + Stops(trace) == Inits(trace) + Stops(r.trace))
            && (r.Finished? ==> Inits(r.trace) + Stops(trace) + (if TurnReleases(r.result) then 1 else 0) == Inits(trace) + Stops(r.trace))
  {
    var h := HandleMessage(a, state, world, env);
    var received := trace + [Received(env)];
    Snoc(trace, Received(env));
    var handled := if h.errorHook then received + [ErrorHook(h.verdict.Ok?)] else received;
    if h.errorHook {
      Snoc(received, ErrorHook(h.verdict.Ok?));
    }
    if h.verdict.Ok? && h.verdict.value.Some? {
      var command := h.verdict.value.value;
      Snoc(handled, Interpreted(command));
      ApplyCounts(a, h.state, inits, command, closed, h.world, handled + [Interpreted(command)]);
    }
  }

  /** Acting on a command keeps one live state, unless it finished through
      a failed `on_stop` or a failed re-`init`. */
  lemma ApplyCounts<S, M, HE, W>(a: Actor<S, M, HE, W>, state: S, inits: nat, command: CommandMessage, closed: bool, world: W, trace: seq<Event<M>>)
    ensures var r := Apply(a, state, inits, command, closed, world, trace);
            && (r.Continue? ==> Inits(r.trace) + Stops(trace) == Inits(trace) + Stops(r.trace))
            && (r.Finished? ==> Inits(r.trace) + Stops(trace) + (if TurnReleases(r.result) then 1 else 0) == Inits(trace) + Stops(r.trace))
  {
    if command.RestartActor? {
      var stopped := trace + [StopHook(a.onStop(state).Ok?)];
      Snoc(trace, StopHook(a.onStop(state).Ok?));
      if a.onStop(state).Ok? {
        Snoc(stopped, InitHook(a.init(inits).Ok?));
      }
    }
  }

  /** A turn that ends the loop successfully ends on a force stop, no turn
      ends with a receive error, and a stop command always ends or closes
      the loop. */
  lemma StepEnds<S, M, HE, W>(a: Actor<S, M, HE, W>, state: S, inits: nat, env: ActorMessage<M>, closed: bool, world: W, trace: seq<Event<M>>)
    ensures var r := Step(a, state, inits, env, closed, world, trace);
            && (r.Finished? && r.result.Ok? ==> |r.trace| > 0 && Last(r.trace) == Interpreted(ForceStopActor))
            && (r.Finished? && r.result.Err? ==> !r.result.error.Receive?)
            && (Terminal(env) ==> r.Finished? || r.closed)
  {
  }

  /** Envelopes are taken one at a time in mailbox order: what was taken
      followed by what is left is exactly the mailbox the loop started from. */
  lemma {:induction false} DriveFifo<S, M, HE, W>(a: Actor<S, M, HE, W>, state: S, inits: nat, queue: seq<ActorMessage<M>>, closed: bool, world: W, trace: seq<Event<M>>)
    ensures var o := Drive(a, state, inits, queue, closed, world, trace);
            Taken(o.trace) + o.rest == Taken(trace) + queue && |o.rest| <= |queue|
    decreases |queue|
  {
    if queue != [] {
      var r := Step(a, state, inits, queue[0], closed, world, trace);
      DriveTurn(a, state, inits, queue, closed, world, trace);
      TurnFifo(a, state, inits, queue, closed, world, trace);
      if r.Continue? && !r.closed {
        DriveFifo(a, r.state, r.inits, queue[1..], r.closed, r.world, r.trace);
      }
    }
  }

  /** The first turn takes the head of the mailbox; the final `on_stop`
      after it takes nothing. */
  lemma TurnFifo<S, M, HE, W>(a: Actor<S, M, HE, W>, state: S, inits: nat, queue: seq<ActorMessage<M>>, closed: bool, world: W, trace: seq<Event<M>>)
    requires queue != []
    ensures var r := Step(a, state, inits, queue[0], closed, world, trace);
            && Taken(r.trace) + queue[1..] == Taken(trace) + queue
            && (r.Continue? ==> Taken(r.trace + [StopHook(a.onStop(r.state).Ok?)]) == Taken(r.trace))
  {
    var r := Step(a, state, inits, queue[0], closed, world, trace);
    StepTakes(a, state, inits, queue[0], closed, world, trace);
    assert [queue[0]] + queue[1..] == queue;
    if r.Continue? {
      SnocTaken(r.trace, StopHook(a.onStop(r.state).Ok?));
    }
  }

  /** A stop command is the last envelope the loop takes, and the loop has
      finished once it took one. */
  lemma {:induction false} DriveStopsAtTerminal<S, M, HE, W>(a: Actor<S, M, HE, W>, state: S, inits: nat, queue: seq<ActorMessage<M>>, closed: bool, world: W, trace: seq<Event<M>>)
    ensures var o := Drive(a, state, inits, queue, closed, world, trace);
            var taken := Taken(o.trace);
            forall i :: |Taken(trace)| <= i < |taken| && Terminal(taken[i]) ==> i == |taken| - 1 && o.exit.Done?
    decreases |queue|
  {
    if queue != [] {
      var r := Step(a, state, inits, queue[0], closed, world, trace);
      DriveTurn(a, state, inits, queue, closed, world, trace);
      StepTakes(a, state, inits, queue[0], closed, world, trace);
      if r.Continue? && !r.closed {
        var o := Drive(a, r.state, r.inits, queue[1..], r.closed, r.world, r.trace);
        StepEnds(a, state, inits, queue[0], closed, world, trace);
        DriveStopsAtTerminal(a, r.state, r.inits, queue[1..], r.closed, r.world, r.trace);
        DriveFifo(a, r.state, r.inits, queue[1..], r.closed, r.world, r.trace);
        PrefixOfSplit(Taken(o.trace), o.rest, Taken(r.trace), queue[1..]);
        TakenAfterNonTerminal(Taken(trace), queue[0], Taken(o.trace), o.exit.Done?);
      } else {
        var o := Drive(a, state, inits, queue, closed, world, trace);
        TurnFifo(a, state, inits, queue, closed, world, trace);
        assert Taken(o.trace) == Taken(trace) + [queue[0]] && o.exit.Done?;
        TakenEndsAtLast(Taken(trace), queue[0], Taken(o.trace), o.exit.Done?);
      }
    }
  }

  /** Taking one more envelope that is not a stop command keeps "a stop
      command is taken last, and only when the loop ends". */
  lemma TakenAfterNonTerminal<M>(before: seq<ActorMessage<M>>, env: ActorMessage<M>, taken: seq<ActorMessage<M>>, done: bool)
    requires !Terminal(env)
    requires |before| + 1 <= |taken| && taken[..|before| + 1] == before + [env]
    requires forall i :: |before| + 1 <= i < |taken| && Terminal(taken[i]) ==> i == |taken| - 1 && done
    ensures forall i :: |before| <= i < |taken| && Terminal(taken[i]) ==> i == |taken| - 1 && done
  {
    assert taken[|before|] == (before + [env])[|before|];
  }

  /** An envelope taken in the last turn is the last one taken. */
  lemma TakenEndsAtLast<M>(before: seq<ActorMessage<M>>, env: ActorMessage<M>, taken: seq<ActorMessage<M>>, done: bool)
    requires taken == before + [env] && done
    ensures forall i :: |before| <= i < |taken| && Terminal(taken[i]) ==> i == |taken| - 1 && done
  {
  }

  /** If `x ++ rest == y ++ q` and `rest` is no longer than `q`, then `y` is
      a prefix of `x`. */
  lemma PrefixOfSplit<T>(x: seq<T>, rest: seq<T>, y: seq<T>, q: seq<T>)
    requires x + rest == y + q && |rest| <= |q|
    ensures |y| <= |x| && x[..|y|] == y
  {
    forall k | 0 <= k < |y|
      ensures x[k] == y[k]
    {
      assert (x + rest)[k] == (y + q)[k];
    }
  }

  /** From one live state, `on_stop` is called once for every state `init`
      produced, except for the last state when the run did not hand it to
      `on_stop`; a successful finish is either that final `on_stop` or a
      force stop. */
  lemma {:induction false} DriveCounts<S, M, HE, W>(a: Actor<S, M, HE, W>, state: S, inits: nat, queue: seq<ActorMessage<M>>, closed: bool, world: W, trace: seq<Event<M>>)
    requires Inits(trace) == Stops(trace) + 1
    ensures var o := Drive(a, state, inits, queue, closed, world, trace);
            && (o.exit == Done(Ok(())) ==> |o.trace| > 0 && (Last(o.trace) == StopHook(true) || Last(o.trace) == Interpreted(ForceStopActor)))
            && Inits(o.trace) == Stops(o.trace) + (if Released(o) then 0 else 1)
    decreases |queue|
  {
    if queue != [] {
      var r := Step(a, state, inits, queue[0], closed, world, trace);
      DriveTurn(a, state, inits, queue, closed, world, trace);
      StepCounts(a, state, inits, queue[0], closed, world, trace);
      StepEnds(a, state, inits, queue[0], closed, world, trace);
      if r.Continue? && r.closed {
        Snoc(r.trace, StopHook(a.onStop(r.state).Ok?));
      } else if r.Continue? {
        DriveCounts(a, r.state, r.inits, queue[1..], r.closed, r.world, r.trace);
      }
    }
  }

  /** Parking at an empty mailbox and resuming once more envelopes have
      arrived is the same as having had them all queued from the start. */
  lemma {:induction false} DriveParkThenResume<S, M, HE, W>(a: Actor<S, M, HE, W>, state: S, inits: nat, first: seq<ActorMessage<M>>, later: seq<ActorMessage<M>>, world: W, trace: seq<Event<M>>)
    requires Drive(a, state, inits, first, false, world, trace).exit.Parked?
    ensures var p := Drive(a, state, inits, first, false, world, trace);
            Drive(a, state, inits, first + later, false, world, trace)
              == Drive(a, p.exit.state, p.exit.inits, later, false, p.world, p.trace)
    decreases |first|
  {
    if first == [] {
      assert first + later == later;
    } else {
      assert (first + later)[0] == first[0];
      assert (first + later)[1..] == first[1..] + later;
      match Step(a, state, inits, first[0], false, world, trace)
      case Continue(state', inits', closed', world', trace') =>
        DriveParkThenResume(a, state', inits', first[1..], later, world', trace');
    }
  }

  /** A whole run takes envelopes in mailbox order and leaves the rest. */
  lemma RunFifo<S, M, HE, W>(a: Actor<S, M, HE, W>, queue: seq<ActorMessage<M>>, closed: bool, world: W)
    ensures var o := Run(a, queue, closed, world);
            Taken(o.trace) + o.rest == queue
  {
    var none: seq<Event<M>> := [];
    var started: seq<Event<M>> := [InitHook(a.init(0).Ok?)];
    SnocTaken(none, InitHook(a.init(0).Ok?));
    assert none + started == started;
    if a.init(0).Ok? {
      DriveFifo(a, a.init(0).value, 1, queue, closed, world, started);
    }
  }

  /** In a whole run no envelope behind a stop command is taken. */
  lemma RunStopsAtTerminal<S, M, HE, W>(a: Actor<S, M, HE, W>, queue: seq<ActorMessage<M>>, closed: bool, world: W)
    ensures var o := Run(a, queue, closed, world);
            var taken := Taken(o.trace);
            forall i :: 0 <= i < |taken| && Terminal(taken[i]) ==> i == |taken| - 1 && o.exit.Done?
  {
    var none: seq<Event<M>> := [];
    var started: seq<Event<M>> := [InitHook(a.init(0).Ok?)];
    SnocTaken(none, InitHook(a.init(0).Ok?));
    assert none + started == started;
    assert Taken(started) == [];
    if a.init(0).Ok? {
      var o := Run(a, queue, closed, world);
      assert o == Drive(a, a.init(0).value, 1, queue, closed, world, started);
      DriveStopsAtTerminal(a, a.init(0).value, 1, queue, closed, world, started);
      forall i | 0 <= i < |Taken(o.trace)| && Terminal(Taken(o.trace)[i])
        ensures i == |Taken(o.trace)| - 1 && o.exit.Done?
      {
        assert |Taken(started)| <= i;
      }
    }
  }

  /** Over a whole run `on_stop` is called at most once per state `init`
      produced. A successful run ends either with `on_stop`, the counts then
      being equal, or with a force stop, `on_stop` then being one short. */
  lemma RunCounts<S, M, HE, W>(a: Actor<S, M, HE, W>, queue: seq<ActorMessage<M>>, closed: bool, world: W)
    ensures var o := Run(a, queue, closed, world);
            && Stops(o.trace) <= Inits(o.trace) <= Stops(o.trace) + 1
            && (o.exit == Done(Ok(())) ==>
                  || (Last(o.trace) == StopHook(true) && Inits(o.trace) == Stops(o.trace))
                  || (Last(o.trace) == Interpreted(ForceStopActor) && Inits(o.trace) == Stops(o.trace) + 1))
  {
    var none: seq<Event<M>> := [];
    var started: seq<Event<M>> := [InitHook(a.init(0).Ok?)];
    Snoc(none, InitHook(a.init(0).Ok?));
    assert none + started == started;
    if a.init(0).Ok? {
      DriveCounts(a, a.init(0).value, 1, queue, closed, world, started);
    }
  }

  /** StopActor closes the mailbox and the loop leaves right after it:
      `on_stop` runs once and the envelopes behind it stay in the mailbox. */
  lemma DriveStopActor<S, M, HE, W>(a: Actor<S, M, HE, W>, state: S, inits: nat, queue: seq<ActorMessage<M>>, closed: bool, world: W, trace: seq<Event<M>>)
    requires queue != [] && queue[0] == CommandMessage(StopActor)
    ensures var o := Drive(a, state, inits, queue, closed, world, trace);
            var stopped := a.onStop(state);
            && o.rest == queue[1..] && o.closed && o.world == world
            && o.trace == trace + [Received(queue[0]), Interpreted(StopActor), StopHook(stopped.Ok?)]
            && o.exit == if stopped.Ok? then Done(Ok(())) else Done(Err(Stop(stopped.error)))
  {
  }

  /** ForceStopActor ends the loop successfully at once, without `on_stop`. */
  lemma DriveForceStop<S, M, HE, W>(a: Actor<S, M, HE, W>, state: S, inits: nat, queue: seq<ActorMessage<M>>, closed: bool, world: W, trace: seq<Event<M>>)
    requires queue != [] && queue[0] == CommandMessage(ForceStopActor)
    ensures Drive(a, state, inits, queue, closed, world, trace)
            == Outcome(Done(Ok(())), world, trace + [Received(queue[0]), Interpreted(ForceStopActor)], queue[1..], closed)
  {
  }

  /** RestartActor calls `on_stop`, then `init`, and the loop goes on with
      the state the new `init` produced; a failure of either hook ends the
      loop with that hook's error. */
  lemma DriveRestart<S, M, HE, W>(a: Actor<S, M, HE, W>, state: S, inits: nat, queue: seq<ActorMessage<M>>, closed: bool, world: W, trace: seq<Event<M>>)
    requires queue != [] && queue[0] == CommandMessage(RestartActor)
    ensures var o := Drive(a, state, inits, queue, closed, world, trace);
            var t := trace + [Received(queue[0]), Interpreted(RestartActor)];
            && (a.onStop(state).Err? ==>
                  o == Outcome(Done(Err(Stop(a.onStop(state).error))), world, t + [StopHook(false)], queue[1..], closed))
            && (a.onStop(state).Ok? && a.init(inits).Err? ==>
                  o == Outcome(Done(Err(Init(a.init(inits).error))), world, t + [StopHook(true), InitHook(false)], queue[1..], closed))
            && (a.onStop(state).Ok? && a.init(inits).Ok? ==>
                  o == if closed then FinalStop(a, a.init(inits).value, world, t + [StopHook(true), InitHook(true)], queue[1..])
                       else Drive(a, a.init(inits).value, inits + 1, queue[1..], false, world, t + [StopHook(true), InitHook(true)]))
  {
    var t := trace + [Received(queue[0]), Interpreted(RestartActor)];
    assert trace + [Received(queue[0])] + [Interpreted(RestartActor)] == t;
    assert t + [StopHook(true)] + [InitHook(false)] == t + [StopHook(true), InitHook(false)];
    assert t + [StopHook(true)] + [InitHook(true)] == t + [StopHook(true), InitHook(true)];
  }

  /** A receive on an empty, closed mailbox ends the loop with a receive
      error, and `on_stop` is not called. */
  lemma DriveEmptyClosed<S, M, HE, W>(a: Actor<S, M, HE, W>, state: S, inits: nat, world: W, trace: seq<Event<M>>)
    ensures Drive(a, state, inits, [], true, world, trace) == Outcome(Done(Err(Receive(RecvError))), world, trace, [], true)
  {
  }

  /** A message whose handler succeeds yields no command: the loop goes on
      with the handler's state, or stops if the mailbox is closed. */
  lemma DriveHandlerOk<S, M, HE, W>(a: Actor<S, M, HE, W>, state: S, inits: nat, queue: seq<ActorMessage<M>>, closed: bool, world: W, trace: seq<Event<M>>)
    requires queue != [] && queue[0].ActorMessage?
    requires a.handle(state, queue[0].message, world).2.Ok?
    ensures var (state', world', _) := a.handle(state, queue[0].message, world);
            Drive(a, state, inits, queue, closed, world, trace)
              == if closed then FinalStop(a, state', world', trace + [Received(queue[0])], queue[1..])
                 else Drive(a, state', inits, queue[1..], false, world', trace + [Received(queue[0])])
  {
  }

  /** A failing `on_error` aborts the loop with a handle-error error. */
  lemma DriveErrorHookFails<S, M, HE, W>(a: Actor<S, M, HE, W>, state: S, inits: nat, queue: seq<ActorMessage<M>>, closed: bool, world: W, trace: seq<Event<M>>)
    requires queue != [] && queue[0].ActorMessage?
    requires a.handle(state, queue[0].message, world).2.Err?
    requires a.onError(a.handle(state, queue[0].message, world).2.error).Err?
    ensures var (_, world', result) := a.handle(state, queue[0].message, world);
            Drive(a, state, inits, queue, closed, world, trace)
              == Outcome(Done(Err(HandleError(a.onError(result.error).error))), world', trace + [Received(queue[0]), ErrorHook(false)], queue[1..], closed)
  {
    var t := trace + [Received(queue[0])] + [ErrorHook(false)];
    assert t == trace + [Received(queue[0]), ErrorHook(false)];
  }

  /** With the default `on_error`, a failing handler stops the actor: the
      loop leaves right after that message and calls `on_stop` on the state
      the handler left. */
  lemma DriveDefaultErrorPolicy<S, M, HE, W>(a: Actor<S, M, HE, W>, state: S, inits: nat, queue: seq<ActorMessage<M>>, closed: bool, world: W, trace: seq<Event<M>>)
    requires forall e :: a.onError(e) == DefaultOnError(e)
    requires queue != [] && queue[0].ActorMessage?
    requires a.handle(state, queue[0].message, world).2.Err?
    ensures var (state', world', _) := a.handle(state, queue[0].message, world);
            Drive(a, state, inits, queue, closed, world, trace)
              == FinalStop(a, state', world', trace + [Received(queue[0]), ErrorHook(true), Interpreted(StopActor)], queue[1..])
  {
    var (state', world', result) := a.handle(state, queue[0].message, world);
    assert a.onError(result.error) == Ok(Some(StopActor));
    var t := trace + [Received(queue[0])] + [ErrorHook(true)] + [Interpreted(StopActor)];
    assert t == trace + [Received(queue[0]), ErrorHook(true), Interpreted(StopActor)];
  }
}
