/** The values that travel between the actors: identifiers, frames, messages and events. */
module Types {

  datatype Option<+T> = None | Some(value: T)

  /** The source's `Result<T, StomperError>`; an error carries only its message. */
  datatype Result<+T> = Ok(value: T) | Err(message: string)

  datatype SubscriptionId = SubscriptionId(text: string)

  datatype DestinationId = DestinationId(text: string)

  datatype MessageId = MessageId(text: string)

  newtype byte = x: int | 0 <= x < 256

  const U32_SIZE: nat := 0x1_0000_0000

  newtype u32 = x: int | 0 <= x < 0x1_0000_0000

  datatype InboundMessage = InboundMessage(senderMessageId: Option<MessageId>, body: seq<byte>)

  datatype OutboundMessage = OutboundMessage(destination: DestinationId, messageId: MessageId, body: seq<byte>)

  datatype StompVersion = V1_0 | V1_1 | V1_2

  datatype HeartBeat = HeartBeat(supplied: u32, expected: u32)

  /** The client frames the server implements. */
  datatype ClientFrame =
    | Connect(acceptVersion: seq<StompVersion>, heartbeat: HeartBeat)
    | Subscribe(destination: DestinationId, id: SubscriptionId)
    | Send(to: DestinationId, body: seq<byte>)
    | Unsubscribe(id: SubscriptionId)
    | Disconnect

  datatype ServerFrame =
    | Connected(version: StompVersion, heartbeat: HeartBeat)
    | Message(messageId: MessageId, destination: DestinationId, subscription: SubscriptionId,
              contentType: string, contentLength: nat, body: seq<byte>)
    | Error(message: string)

  /** What a session writes to its client: a frame, or the bare end-of-line of a heartbeat. */
  datatype Output = Frame(frame: ServerFrame) | Eol

  datatype ClientEvent =
    | Connected(heartbeat: HeartBeat)
    | ClientFrame(frame: Result<ClientFrame>)
    | ClientHeartbeat
    | ServerMessage(subscription: SubscriptionId, message: OutboundMessage)
    | Subscribed(destination: DestinationId, subscription: SubscriptionId, result: Result<SubscriptionId>)
    | Unsubscribed(subscription: SubscriptionId, result: Result<SubscriptionId>)
    | Error(problem: string)
    | Heartbeat
    | Close
}
