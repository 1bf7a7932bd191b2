/** What a session's calls do to the destinations' queues; generic in the client, as module Actions is. */
module Calls {
  import opened Types
  import opened Channels
  import opened Actions
  import opened Reactions

  /** The action queues of the destinations that exist. */
  type Queues<S> = map<DestinationId, Chan<DestinationAction<S>>>

  /** An action handed to a destination, if it exists. */
  function Submitted<S>(queues: Queues<S>, d: DestinationId, action: DestinationAction<S>): Queues<S> {
    if d in queues then queues[d := queues[d].Push(action)] else queues
  }

  /** Get-or-create: the one thing asked of the versioned map. */
  function Provided<S>(queues: Queues<S>, d: DestinationId): Queues<S> {
    if d in queues then queues else queues[d := Empty()]
  }

  /** The queues after a call into the destinations. */
  function QueuesAfter<S>(queues: Queues<S>, call: Option<Call>, client: S): Queues<S> {
    match call
    case Some(SendTo(d, message)) => Submitted(queues, d, DestinationAction.Send(message, client))
    case Some(UnsubscribeFrom(d, subscription)) => Submitted(queues, d, DestinationAction.Unsubscribe(subscription, client))
    case _ => queues
  }

  /** Only an Unsubscribe that a stopped destination refuses panics in the session. */
  predicate CallPanics<S>(queues: Queues<S>, call: Option<Call>) {
    match call
    case Some(UnsubscribeFrom(d, _)) => d in queues && !queues[d].open
    case _ => false
  }
}
