/** What travels through an actor's mailbox: a lifecycle command, or one of
    the actor's own messages. */
module Envelopes {

  /** The three lifecycle commands the supervision loop interprets itself. */
  datatype CommandMessage = StopActor | ForceStopActor | RestartActor

  /** One envelope of the mailbox. */
  datatype ActorMessage<M> =
    | CommandMessage(command: CommandMessage)
    | ActorMessage(message: M)
}
