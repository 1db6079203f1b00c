# aisteoir actor runtime — a Dafny model

aisteoir is a small Rust actor runtime. Each actor owns its state and a
bounded mailbox. Senders enqueue envelopes: `tell` for a request that
expects no answer, `call` for a request answered through a one-shot reply
slot, and `command` for the lifecycle commands StopActor, ForceStopActor
and RestartActor.

A supervision loop per actor does the following:
- It runs `init` and then takes one envelope at a time.
- It interprets commands itself and hands messages to the actor's
  generated dispatcher.
- When a dispatch fails, it asks `on_error` which command to apply.
- It finishes with `on_stop`, or with one of four runtime errors.

The runtime classifies errors in closed sum types with total `From`
conversions.

This project models, in Dafny:

- the error taxonomy (`errors.dfy`, `handler_errors.dfy`, `actor_errors.dfy`);
- the one-shot reply slots as a board of `Open | Written | Dropped` slots (`oneshot.dfy`);
- the envelopes (`envelopes.dfy`);
- the mailbox and its senders as classes over a queue and a closed flag (`messaging.dfy`);
- call and tell dispatch with the four-way classification of a call (`handler.dfy`);
- the supervision loop (`supervision.dfy`):
  - The loop is a function of the mailbox contents and the hook outcomes (`Drive`, `Run`).
  - One turn is a function too (`Step`), and so is acting on a command (`Apply`).
  - The loop methods `Resume`, `RunActorLoop` and `RunActor` pull from a `Mailbox`, close it on StopActor, and are proved to compute exactly that function. Their turns are the methods `TakeTurn` and `Interpret`.
  - They record a trace of hook calls, received envelopes and interpreted commands.
- whole-run properties of the loop (`supervision_properties.dfy`):
  - Envelopes are taken in FIFO order.
  - Nothing is taken after a stop command.
  - `on_stop` runs once per state that `init` produced, except on a force stop, a receive error or a failing `on_error`.
  - Each command has its stated effect.
- the example calculator and proxy actors, including the example's `main` (`math.dfy`).

The model follows the shape of `examples/math.rs`: `init` returns the state
and `on_stop` consumes it. The lifecycle control flow follows
`src/supervision.rs`.

An actor is a value `Actor(init, onStop, onError, handle)`:
- `init` is told how often it ran before, so a restart's `init` may fail where the first one succeeded.
- `handle` gets the state, the message and a world `W`, and returns all three with its result. `W` is the part of the world outside the actor: the reply slots and the mailboxes of other actors.

Concurrency is replaced by one schedule: in the example, the calculator
takes each envelope the proxy sends before the proxy sends the next one.
The proxy's view of a send (`TellCalc`, `CallGet`) states that outcome
directly. `TellCalcRunsLoop` and `CallGetRunsLoop` prove it equal to running
the calculator's loop on the delivered envelope.

### Behaviour of the code worth knowing

- **StopActor does not drain the mailbox.** `rx.close()` (src/supervision.rs:81) is followed by the `is_closed()` break (src/supervision.rs:94-96), so the envelopes still queued are never dispatched before `on_stop`. See `DriveStopActor` and `RunStopsAtTerminal`.
- **A mailbox closed and empty at a receive ends the loop with the `Receive` error, without `on_stop`** (src/supervision.rs:74: the `?` returns before line 99). When a mailbox is closed while envelopes are still queued, at most one more envelope is handled; unless that turn ends the loop (a ForceStopActor, or a turn that ends with an error), `on_stop` follows.
- **A call queued behind a stop is never answered.** Its reply slot stays `Open`, because the queued envelope stays in the channel while any sender lives, so `AwaitReply` keeps answering `Pending`.
- **`on_error` takes only the error, not the state** (src/supervision.rs:41-46).

### Choices between the shown revisions

- **The example names its handler error `DefaultActorError`** (src/error.rs:68-72), which has no `From` conversion for the `?` operator at examples/math.rs:127-132. The model uses `DefaultHandlerError` (src/error/handler.rs:80-102), whose blanket `From` the `?` needs.
- **The example's `init` and `on_stop` return `ActorInitError` and `ActorStopError`** (examples/math.rs:36, 40, 104, 108; src/error.rs:60-66), while the trait declares `ActorInitFailure` and `ActorStopFailure` (src/supervision.rs:31, 36). `Actor` holds the trait's types, so `CalcInit`, `CalcOnStop`, `ProxyInit` and `ProxyOnStop` return those, which the blanket `From` of src/error/actor.rs:24-31 produces from any error. The example types themselves are not modelled.
- **`on_error` receives the dispatcher's `HandleError<E>`** (src/handler.rs:107), not the `BaseHandlerError<E>` of src/supervision.rs:43. The dispatcher's `.into()` (src/macros.rs:32) would have to turn a call dispatch's `CallHandleError<E>` (src/handler.rs:30) into a `BaseHandlerError<E>`, which converts only from `TellHandlerError` and `AskHandlerError` (src/error/handler.rs:58-73). Only `HandleError<E>` has the needed conversion (src/error.rs:51-58), so the model's actors (`Calc`, `Proxy`) pass `HandleError<E>` to `on_error`.
- **The shown files come from different revisions.**
  - `handler.rs` passes a state; `supervision.rs:118` does not.
  - `handler.rs:31` uses tuple fields; `messaging.rs:8-11` has named ones.
  - `math.rs` calls `create_channel` and `start_actor`, which are not in the shown files.

  The model picks one consistent shape:
  - explicit state;
  - `CallMessage(request, tx)`;
  - `channel` as `Messaging.Channel`;
  - starting an actor as `Supervision.RunActor`.

## Model

| member | source | states |
|---|---|---|
| Errors.HandlerFailure | src/error.rs:20-31 | `SendOk` carries no handler error; `SendError(e)` and `Handle(e)` each carry exactly the handler's `e` |
| Errors.HandleErrorFromTell | src/error.rs:42-49 | a plain handler error converts into `TellHandleError` holding that same value |
| Errors.HandleErrorFromCall | src/error.rs:51-58 | a `CallHandleError` converts into the `CallHandleError` variant holding that same value |
| Errors.HandleErrorConversionsPartition | src/error.rs:33-58 | every `HandleError` is the image of exactly one of the two conversions |
| HandlerErrors.AskErrorFromClosed | src/error/handler.rs:19-25 | `From<ReceiverClosedError>` gives the `ReceiverClosed` kind with that payload |
| HandlerErrors.AskErrorFromHandler | src/error/handler.rs:19-25 | `From<ReceiverHandlerError>` gives the `ReceiverHandlerError` kind with that payload |
| HandlerErrors.AskErrorConversionsPartition | src/error/handler.rs:19-25 | `AskError` has exactly two kinds: every value comes from exactly one of the two conversions |
| HandlerErrors.AskHandlerFailure | src/error/handler.rs:27-39 | an ask failure keeps the handler's error exactly when it is `SendError` or `Handle` |
| HandlerErrors.AskDeliveryFailure | src/error/handler.rs:27-39 | an ask failure keeps the reply-write error exactly when it is `SendOk` or `SendError` |
| HandlerErrors.AskHandlerErrorKeeps | src/error/handler.rs:33-38 | `SendError` keeps both errors; `SendOk` keeps only the send error; `Handle` keeps only the handler error (each as an if-and-only-if) |
| HandlerErrors.BaseFromTell | src/error/handler.rs:58-65 | a `TellHandlerError` becomes the `TellHandlerError` variant, unchanged |
| HandlerErrors.BaseFromAsk | src/error/handler.rs:67-74 | an `AskHandlerError` becomes the `AskHandlerError` variant, unchanged |
| HandlerErrors.BaseHandlerErrorConversionsPartition | src/error/handler.rs:46-74 | every `BaseHandlerError` is the image of exactly one of its two conversions |
| HandlerErrors.DefaultHandlerErrorFrom | src/error/handler.rs:93-102 | any error becomes `Fatal` wrapping that error as its source |
| ActorErrors.InitFailureFrom | src/error/actor.rs:24-32 | any error converts into an init failure that keeps it as source |
| ActorErrors.StopFailureFrom | src/error/actor.rs:44-52 | any error converts into a stop failure that keeps it as source |
| ActorErrors.HandleErrorFailureFrom | src/error/actor.rs:64-72 | any error converts into an error-hook failure that keeps it as source |
| Oneshot.Allocate | src/messaging.rs:78 | a call's reply slot is fresh and open, at the next index, and no other slot changes |
| Oneshot.Send | src/handler.rs:36-40 | a reply write succeeds exactly when the slot is open; then the slot holds the value; otherwise nothing changes; other slots never change |
| Oneshot.Close | src/messaging.rs:86 | dropping an end closes an open slot and leaves a written one and all others alone |
| Oneshot.Recv | src/messaging.rs:88-90 | waiting on a slot is pending while it is open, gives the written value, or gives "closed" for a slot dropped unwritten |
| Oneshot.SendOnce | src/handler.rs:31-42 | a slot is written at most once: a second write fails and leaves the first value readable |
| Messaging.Mailbox.constructor | src/messaging.rs:29-33 | a new mailbox is empty, open, and has the requested capacity |
| Messaging.Mailbox.Send | src/messaging.rs:47-52 | an open mailbox appends the envelope; a closed one refuses it and keeps its queue; the queue never exceeds the capacity |
| Messaging.Mailbox.Recv | src/supervision.rs:74 | the oldest envelope is removed and returned; an empty mailbox gives the receive error if closed and waits if open |
| Messaging.Mailbox.Close | src/supervision.rs:81 | closing keeps the queued envelopes |
| Messaging.Deliver | src/messaging.rs:47-52 | enqueueing fails with the channel's closed error exactly when the mailbox is closed, and only then leaves the queue unchanged; otherwise it appends |
| Messaging.Sender.constructor | src/messaging.rs:17-19 | a sender sends into the given mailbox |
| Messaging.Sender.Clone | src/messaging.rs:21-27 | a clone is a new sender into the same mailbox |
| Messaging.Sender.Send | src/messaging.rs:47-52 | the mailbox's new queue and the result are those of `Deliver` |
| Messaging.Sender.Command | src/messaging.rs:54-58 | `command(c)` delivers exactly `CommandMessage(c)` |
| Messaging.Sender.Tell | src/messaging.rs:60-70 | `tell(v)` delivers exactly `ActorMessage(case(TellMessage(v)))` for the registered variant constructor `case` |
| Messaging.Sender.Call | src/messaging.rs:72-86 | a call allocates a fresh slot; it enqueues the request with it and hands back the slot index; if the mailbox is closed it enqueues nothing, drops the slot and fails at once with `ReceiverClosed` |
| Messaging.AwaitReply | src/messaging.rs:88-91 | waiting for the answer: `Ok(o)` for a slot holding `Ok(o)`, the handler-error marker for one holding the marker, `ReceiverClosed` for a dropped slot, pending while open |
| Messaging.Channel | src/messaging.rs:29-33 | `channel(n)` gives a fresh, empty, open mailbox of capacity `n` and a sender into it |
| Handler.ReplyFor | src/handler.rs:35-40 | the reply written is `Ok(data)` for a handler success and the marker for a failure |
| Handler.AnswerCall | src/handler.rs:35-42 | the four-way classification: `Ok` and open gives `Ok(())` and `Ok(data)` written; `Ok` and dropped gives `SendOk`; `Err` and open gives `Handle(e)` and the marker written; `Err` and dropped gives `SendError(e)`; no other slot changes |
| Handler.AnswerCallCarriesHandlerError | src/handler.rs:35-42 | a call dispatch fails exactly when the handler failed or the slot was gone; it carries the handler's error exactly when the handler failed |
| Handler.HandleCall | src/handler.rs:26-43 | the handler's new state persists on every outcome, and the reply and classification are those of `AnswerCall` (the default `CallHandlerTrait::_handle` at 67-84 is the same function) |
| Handler.HandleTell | src/handler.rs:54-56 | the tell path returns the handler's result and state unchanged (as does the default at 95-97) |
| Supervision.DefaultInit | src/supervision.rs:31-33 | the trait's default `init`, typed for actors without state of their own, succeeds |
| Supervision.DefaultOnStop | src/supervision.rs:36-38 | the trait's default `on_stop`, typed for actors without state of their own, succeeds |
| Supervision.DefaultOnError | src/supervision.rs:41-46 | the default `on_error` asks for StopActor, whatever the error |
| Supervision.HandleMessage | src/supervision.rs:104-128 | a command yields exactly itself, without handler or `on_error`; a message's handler changes persist; success yields no command; failure yields exactly `on_error`'s decision, and `on_error` runs only then |
| Supervision.Drive | src/supervision.rs:73-99 | the loop never leaves more envelopes than it got; it waits only at an empty open mailbox; once the mailbox is closed the loop has ended |
| Supervision.Step | src/supervision.rs:74-96 | no turn ends with the receive error; a command envelope ends the loop successfully exactly when it is ForceStopActor; a StopActor envelope keeps the state and leaves the loop going with its mailbox closed |
| Supervision.Apply | src/supervision.rs:78-92 | a command ends the loop successfully exactly when it is ForceStopActor; only RestartActor can fail, with the `Stop` error exactly when `on_stop` failed; going on, the mailbox is closed exactly when it was or the command is StopActor, and `init` has run once more exactly for RestartActor |
| Supervision.FinalStop | src/supervision.rs:99-101 | after the break the loop always ends, with the mailbox closed and the queue and world left as they were; it ends with `Ok` exactly when `on_stop` succeeds, else with `on_stop`'s failure as the `Stop` error, and records that one `on_stop` call |
| Supervision.Run | src/supervision.rs:62-102 | a failing `init` ends the run with the `Init` error: nothing received, no handler, mailbox untouched; otherwise the trace starts with the successful `init` |
| Supervision.Resume | src/supervision.rs:73-99 | the loop method, pulling from and closing the mailbox, computes exactly `Drive` |
| Supervision.TakeTurn | src/supervision.rs:76-92 | one turn of the loop method (dispatch, then the command if there is one) computes exactly `Step`; it never touches the queue |
| Supervision.Interpret | src/supervision.rs:78-92 | acting on a command computes exactly `Apply`: StopActor closes the mailbox, ForceStopActor ends the loop, RestartActor runs `on_stop` and then `init`; the queue is left alone |
| Supervision.RunActorLoop | src/supervision.rs:62-102 | `run_actor_loop` computes exactly `Run` |
| Supervision.RunActor | src/supervision.rs:49-60 | running an actor gives `Run`'s outcome, and the mailbox is closed once the actor finished |
| SupervisionProperties.StepShape | src/supervision.rs:74-92 | a turn first records its envelope and then only hook and command events |
| SupervisionProperties.ApplyShape | src/supervision.rs:78-92 | acting on a command only appends to the trace, and what it appends are hook events, never a received envelope |
| SupervisionProperties.ApplyCounts | src/supervision.rs:86-90 | a command that lets the loop go on keeps `init`s minus `on_stop`s; one that ends it lowers the difference by one exactly when a restart's `on_stop` or `init` failed |
| SupervisionProperties.StepTakes | src/supervision.rs:74-76 | one turn takes exactly one envelope |
| SupervisionProperties.StepCounts | src/supervision.rs:76-99 | a turn that goes on keeps `init`s minus `on_stop`s; one that ends lowers it by one exactly when it ended with a failed `on_stop` or a failed re-`init` of a restart |
| SupervisionProperties.StepEnds | src/supervision.rs:78-92 | a turn ends successfully only on ForceStopActor; a turn never ends with `Receive`; after a stop command the turn ends or the mailbox is closed |
| SupervisionProperties.DriveFifo | src/supervision.rs:73-76 | envelopes are taken one at a time in mailbox order: taken ++ left == before ++ queue |
| SupervisionProperties.DriveStopsAtTerminal | src/supervision.rs:80-85 | a StopActor or ForceStopActor is the last envelope taken, and the loop has ended |
| SupervisionProperties.DriveCounts | src/supervision.rs:71-99 | from one live state, `on_stop` runs once per produced state if the run ended through `on_stop`, else one fewer; a successful end is a clean `on_stop` or a force stop |
| SupervisionProperties.DriveParkThenResume | src/supervision.rs:73-74 | waiting at an empty mailbox and then going on with later envelopes is the same as running on all of them |
| SupervisionProperties.RunFifo | src/supervision.rs:71-76 | over a whole run, taken ++ left == the initial mailbox |
| SupervisionProperties.RunStopsAtTerminal | src/supervision.rs:80-96 | over a whole run, envelopes queued behind a stop command are never dispatched |
| SupervisionProperties.RunCounts | src/supervision.rs:71-99 | over a whole run `on_stop` never runs more often than `init` produced a state, at most once fewer; the counts are equal on a clean stop and one apart on a force stop |
| SupervisionProperties.DriveStopActor | src/supervision.rs:80-99 | StopActor closes the mailbox, calls `on_stop` once on the current state and leaves everything behind it queued |
| SupervisionProperties.DriveForceStop | src/supervision.rs:83-85 | ForceStopActor ends the loop with `Ok` at once, without `on_stop`, leaving the rest queued |
| SupervisionProperties.DriveRestart | src/supervision.rs:86-90 | RestartActor calls `on_stop`, then `init`, and goes on with `init`'s new state; a failure of either ends the loop with its error |
| SupervisionProperties.DriveEmptyClosed | src/supervision.rs:74 | an empty closed mailbox ends the loop with the `Receive` error and no `on_stop` |
| SupervisionProperties.DriveHandlerOk | src/supervision.rs:122-123 | a successful handler yields no command: the loop goes on with the handler's state and world |
| SupervisionProperties.DriveErrorHookFails | src/supervision.rs:124 | a failing `on_error` aborts the loop with the `HandleError` error |
| SupervisionProperties.DriveDefaultErrorPolicy | src/supervision.rs:41-46 | with the default `on_error`, a failed dispatch stops the actor through `on_stop`, leaving the rest queued |
| Math.Wrap | examples/math.rs:14 | an in-range value stays as it is; any other value wraps to the `i32` congruent to it modulo 2^32 |
| Math.CalcInit | examples/math.rs:36-38 | `init` yields `number = 0` |
| Math.CalcOnStop | examples/math.rs:40-42 | `on_stop` succeeds |
| Math.AddHandler | examples/math.rs:59-68 | Add(k) succeeds and adds exactly k when the sum is an `i32`, and wraps modulo 2^32 otherwise |
| Math.SubHandler | examples/math.rs:71-80 | Sub(k) succeeds and subtracts exactly k when the difference is an `i32`, and wraps otherwise |
| Math.GetHandler | examples/math.rs:49-55 | Get answers the current number and leaves the state unchanged |
| Math.SubUndoesAdd | examples/math.rs:59-80 | Sub(k) after Add(k) restores the number, even across a wrap-around |
| Math.CalcHandle | examples/math.rs:22-32 | dispatch routes each variant to its handler; a get writes its open slot and leaves the others; only a lost answer fails, with `SendOk` |
| Math.CalcTakes | examples/math.rs:22-32 | in the loop, the calculator takes a tell or an answerable get and goes on from the handler's state |
| Math.CalcStopsWhenAnswerIsLost | examples/math.rs:34-43 | a get whose caller stopped waiting makes the calculator stop, through the default `on_error` and `on_stop` |
| Math.TellCalc | examples/math.rs:127-130 | a tell fails exactly when the calculator's mailbox is closed, and then changes nothing; a tell touches no reply slot and does not change whether the mailbox is closed |
| Math.CallGet | examples/math.rs:132 | asking a running calculator answers its current number; asking a stopped one fails as closed; either way one fresh slot is appended and the earlier slots stay as they were |
| Math.RunCalc | examples/math.rs:146 | a modelling device, not a function of the source: the fixed schedule in which the started calculator (`start_actor`) catches up on its mailbox; a finished calculator changes nothing but its closed flag; a parked one takes its envelopes in mailbox order, the untaken ones staying queued |
| Math.ProxyCalc | examples/math.rs:122-135 | the proxy's handler succeeds exactly when the calculator's mailbox is open; on a closed one it fails at the first tell with the closed error and changes nothing; it opens exactly one reply slot on the calculator when it is open, none otherwise |
| Math.TellCalcRunsLoop | examples/math.rs:127-130 | what `TellCalc` says is exactly what the calculator's loop does with the tell delivered to its mailbox, and the send's result is the mailbox's |
| Math.CallGetRunsLoop | examples/math.rs:132 | what `CallGet` says is exactly what the calculator's loop does with the get delivered on a fresh slot; the answer is what the caller then finds in that slot, and a refused get drops the slot |
| Math.SendFailed | examples/math.rs:127-130 | `?` on a failed tell gives the fatal catch-all error wrapping the closed error |
| Math.CallFailed | examples/math.rs:132 | `?` on a failed call gives the fatal catch-all error wrapping the call error |
| Math.ProxyInit | examples/math.rs:104-106 | the proxy's `init` succeeds |
| Math.ProxyOnStop | examples/math.rs:108-110 | the proxy's `on_stop` succeeds |
| Math.ProxyCalcSends | examples/math.rs:122-135 | on a calculator holding x, the proxy sends Add(n), Add(5), Sub(3), Get in this order and answers the wrapped x + n + 5 - 3, which the calculator then holds; without wrap-around that is x + n + 2 |
| Math.ProxyCalcClosed | examples/math.rs:127-132 | if the first send fails, the handler returns its error and issues no further send |
| Math.ProxyHandleAnswers | examples/math.rs:113-135 | the proxy's dispatch answers an open slot with its handler's result and succeeds |
| Math.ProxyHandle | examples/math.rs:91-100 | the proxy's dispatch keeps its (empty) state and the number of its reply slots; it succeeds exactly when the caller's slot is open and the calculator's mailbox is open; a failure is always a call failure |
| Math.ProxyAnswers | examples/math.rs:102-135 | a running proxy answers a queued call and waits again |
| Math.CalcStartsParked | examples/math.rs:36-38 | a calculator started on an empty open mailbox runs `init` once and waits holding 0 |
| Math.RunExample | examples/math.rs:140-151 | on a fresh calculator, `call(ProxyActorCalcRequest(10))` returns 12 |
| Math.TellTellCall | examples/math.rs:45-80 | Add(7), Sub(3), Get through one sender into a fresh calculator answer 4 |
| Math.StopThenTell | src/supervision.rs:80-82 | once StopActor has been handled, a tell into the mailbox fails as closed |

## Left out

- Concurrency and scheduling (tokio tasks, `.await` suspension): the loop and the example run sequentially; the example fixes one schedule in which the calculator takes each envelope before the proxy sends the next.
- Messaging.Mailbox.Send: the suspension of a send into a full mailbox (backpressure) is not modelled; a send requires a closed mailbox or one with room, where src/messaging.rs:50 waits for room. The same requirement is carried by the four sender operations below.

- Messaging.Sender.Send: requires a closed mailbox or one with room, because the wait for room of a full open mailbox (src/messaging.rs:50) is not modelled.
- Messaging.Sender.Command: requires a closed mailbox or one with room, because the wait for room of a full open mailbox (src/messaging.rs:50) is not modelled.
- Messaging.Sender.Tell: requires a closed mailbox or one with room, because the wait for room of a full open mailbox (src/messaging.rs:50) is not modelled.
- Messaging.Sender.Call: requires a closed mailbox or one with room, because the wait for room of a full open mailbox (src/messaging.rs:50) is not modelled.
- The hooks `init`, `on_stop` and `on_error` are pure functions of their arguments: they get no world `W`, so a hook can neither send into another actor's mailbox nor see anything outside the actor, whereas the Rust hooks take `&self` and an actor may hold a `Sender` (examples/math.rs:82-84).
- Messaging.Channel: requires a positive capacity; `async_channel::bounded(0)` (src/messaging.rs:30) panics, and that panic is not modelled.
- Messaging.Mailbox.constructor: requires a positive capacity, for the same reason as `Channel`.
- `async_channel`, `oneshot` and their wakers: the mailbox is a queue plus a closed flag; the reply slots are a board of `Open | Written | Dropped` values.
- The handlers and the proxy's sends are modelled on values, not as methods updating `state.number` in place. The supervision loop takes the dispatcher as a function value, and a function cannot call a method. Aliasing of the state is therefore not modelled, which the runtime's exclusive ownership rules out anyway.
- Math.AddHandler: the model wraps around as a release build does; a debug build panics on overflow at examples/math.rs:65.
- Math.SubHandler: the model wraps around as a release build does; a debug build panics on overflow at examples/math.rs:77.
- Boxed `dyn Error` sources are opaque: a `DynError` keeps only which runtime error it is, or an application's own.
- Display and format strings of the errors, and logging (`src/log.rs`, the `log::error` calls at src/supervision.rs:56, 120).
- The `run` wrapper's logging of the runtime error (src/supervision.rs:55-59); `RunActor` returns the outcome instead.
- `main`'s tokio setup and `println!` (examples/math.rs:138, 151).
- `src/channel.rs` is not part of this model: it duplicates `messaging.rs` and is not in the crate's module list.
- `src/macros.rs` is not part of this model: its output for the example actors is hand-written (the message enums, the dispatch matches `CalcHandle`/`ProxyHandle`, and the variant constructors `AddCase`, `SubCase`, `GetCase`, `ProxyCase` that `get_case` returns).
- `src/lib.rs` is not part of this model: it only re-exports names.
