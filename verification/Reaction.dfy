/**
 How a connected session reacts to one event: the specification that the methods of class
 ClientSession are proved against, and the session half of the transition system.
 */
module Reactions {
  import opened Types

  datatype ClientState = Alive | Dead

  /** A call into the destinations that handling an event makes. */
  datatype Call =
    | SubscribeTo(destination: DestinationId, clientId: SubscriptionId)
    | SendTo(destination: DestinationId, message: InboundMessage)
    | UnsubscribeFrom(destination: DestinationId, subscription: SubscriptionId)

  /** From the client's id of a subscription to its destination and the destination's id of it. */
  type ActiveTable = map<SubscriptionId, (DestinationId, SubscriptionId)>

  datatype Reaction = Reaction(
    active: ActiveTable,
    state: ClientState,
    output: Option<Output>,
    call: Option<Call>,
    sendsClose: bool,
    resetsServerTimer: bool,
    resetsClientTimer: bool)

  predicate IsConnected(output: Output) {
    output.Frame? && output.frame.Connected?
  }

  const CONTENT_TYPE := "text/plain"

  function MessageFrame(clientId: SubscriptionId, message: OutboundMessage): ServerFrame {
    ServerFrame.Message(message.messageId, message.destination, clientId,
                        CONTENT_TYPE, |message.body| % U32_SIZE, message.body)
  }

  /** The frame carries the message, field by field, to the subscription; a length over 32 bits is cut off. */
  predicate Carries(frame: ServerFrame, message: OutboundMessage, id: SubscriptionId) {
    && frame.Message?
    && frame.messageId == message.messageId
    && frame.destination == message.destination
    && frame.subscription == id
    && frame.contentType == "text/plain"
    && frame.body == message.body
    && (frame.contentLength == |message.body| <==> |message.body| < 0x1_0000_0000)
  }

  lemma MessageFrameCarries(id: SubscriptionId, message: OutboundMessage)
    ensures Carries(MessageFrame(id, message), message, id)
  {
  }

  function Swapped(heartbeat: HeartBeat): HeartBeat {
    HeartBeat(heartbeat.expected, heartbeat.supplied)
  }

  function Quiet(active: ActiveTable): Reaction {
    Reaction(active, Alive, None, None, false, false, false)
  }

  function Writes(active: ActiveTable, output: Output): Reaction {
    Quiet(active).(output := Some(output))
  }

  /** An ERROR frame, and a Close to oneself behind everything already queued. */
  function Fails(active: ActiveTable, message: string): Reaction {
    Writes(active, Frame(ServerFrame.Error(message))).(sendsClose := true)
  }

  function Dies(active: ActiveTable): Reaction {
    Quiet(active).(state := Dead)
  }

  function ReactToFrame(active: ActiveTable, frame: ClientFrame): Reaction {
    match frame
    case Connect(_, _) => Fails(active, "Already connected.")
    case Subscribe(destination, id) => Quiet(active).(call := Some(SubscribeTo(destination, id)))
    case Send(destination, body) => Quiet(active).(call := Some(SendTo(destination, InboundMessage(None, body))))
    case Unsubscribe(id) =>
      if id in active
      then Quiet(active).(call := Some(UnsubscribeFrom(active[id].0, active[id].1)))
      else Fails(active, "Attempt to unsubscribe from unknown subscription: " + id.text)
    case Disconnect => Dies(active)
  }

  function React(active: ActiveTable, event: ClientEvent): Reaction {
    match event
    case Connected(heartbeat) => Writes(active, Frame(ServerFrame.Connected(V1_2, heartbeat)))
    case Close => Dies(active)
    case ClientFrame(Err(message)) => Fails(active, "Error processing client message: " + message).(resetsClientTimer := true)
    case ClientFrame(Ok(frame)) => ReactToFrame(active, frame).(resetsClientTimer := true)
    case ClientHeartbeat => Quiet(active).(resetsClientTimer := true)
    case ServerMessage(id, message) => Writes(active, Frame(MessageFrame(id, message))).(resetsServerTimer := true)
    case Subscribed(destination, id, Ok(subscription)) => Quiet(active[id := (destination, subscription)])
    case Subscribed(_, _, Err(_)) => Quiet(active)
    case Unsubscribed(id, Ok(_)) => Quiet(active - {id})
    case Unsubscribed(_, Err(_)) => Quiet(active)
    case Error(problem) => Fails(active, problem)
    case Heartbeat => Writes(active, Eol)
  }
}
