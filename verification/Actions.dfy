/**
 A destination's subscription table and the actions on its queue. Both are generic in the
 subscriber: an object in module InMemory, a session number in the transition system.
 */
module Actions {
  import opened Types

  datatype Subscription<S> = Subscription(id: SubscriptionId, subscriberSubId: Option<SubscriptionId>, subscriber: S)

  type Table<S> = map<SubscriptionId, Subscription<S>>

  datatype DestinationAction<S> =
    | Subscribe(subscriberSubId: Option<SubscriptionId>, subscriber: S)
    | Unsubscribe(subId: SubscriptionId, subscriber: S)
    | Send(message: InboundMessage, sender: S)
    | Close

  function Insert<S>(table: Table<S>, id: SubscriptionId, subscriberSubId: Option<SubscriptionId>, subscriber: S): Table<S> {
    table[id := Subscription(id, subscriberSubId, subscriber)]
  }

  /** The identifier that the callback of an unsubscription reports: None for an unknown subscription. */
  function ReportedId<S>(table: Table<S>, id: SubscriptionId): Option<SubscriptionId> {
    if id in table then table[id].subscriberSubId else None
  }

  function Outbound(destination: DestinationId, messageId: MessageId, message: InboundMessage): OutboundMessage {
    OutboundMessage(destination, messageId, message.body)
  }

  ghost predicate Keyed<S>(table: Table<S>) {
    forall id <- table :: table[id].id == id
  }

  ghost predicate AllNamed<S>(table: Table<S>) {
    forall id <- table :: table[id].subscriberSubId.Some?
  }
}
