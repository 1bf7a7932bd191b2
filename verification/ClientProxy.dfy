/** `AsyncStompClient`: what a destination holds of a session, namely the sending end of its event channel. */
module ClientProxy {
  import opened Types
  import opened Channels
  import opened UnboundedChannels

  class AsyncStompClient {
    const sender: UnboundedChannel<ClientEvent>

    constructor (sender: UnboundedChannel<ClientEvent>)
      ensures this.sender == sender
    {
      this.sender := sender;
    }

    method SendEvent(event: ClientEvent)
      modifies sender
      ensures sender.state == old(sender.state).Push(event)
    {
      var _ := sender.Send(event);
    }

    /** Panics, in the task that runs the callback, when there is no client-provided identifier. */
    method SubscribeCallback(destinationId: DestinationId, clientSubscriptionId: Option<SubscriptionId>,
                             subscribeResult: Result<SubscriptionId>)
      returns (panicked: bool)
      modifies sender
      ensures panicked <==> clientSubscriptionId.None?
      ensures sender.state ==
              if panicked then old(sender.state)
              else old(sender.state).Push(Subscribed(destinationId, clientSubscriptionId.value, subscribeResult))
    {
      if clientSubscriptionId.None? {
        return true;
      }
      SendEvent(Subscribed(destinationId, clientSubscriptionId.value, subscribeResult));
      panicked := false;
    }

    method UnsubscribeCallback(clientSubscriptionId: Option<SubscriptionId>, unsubscribeResult: Result<SubscriptionId>)
      returns (panicked: bool)
      modifies sender
      ensures panicked <==> clientSubscriptionId.None?
      ensures sender.state ==
              if panicked then old(sender.state)
              else old(sender.state).Push(Unsubscribed(clientSubscriptionId.value, unsubscribeResult))
    {
      if clientSubscriptionId.None? {
        return true;
      }
      SendEvent(Unsubscribed(clientSubscriptionId.value, unsubscribeResult));
      panicked := false;
    }

    /** Delivers a message; unlike the callbacks it reports whether the session could still receive it. */
    method Send(clientSubscriptionId: Option<SubscriptionId>, message: OutboundMessage)
      returns (panicked: bool, ok: bool)
      modifies sender
      ensures panicked <==> clientSubscriptionId.None?
      ensures !panicked ==> ok == old(sender.state.open)
      ensures sender.state ==
              if panicked then old(sender.state)
              else old(sender.state).Push(ServerMessage(clientSubscriptionId.value, message))
    {
      if clientSubscriptionId.None? {
        return true, false;
      }
      panicked := false;
      ok := sender.Send(ServerMessage(clientSubscriptionId.value, message));
    }

    /** The result of a SEND is of no interest to a session. */
    method SendCallback(senderMessageId: Option<MessageId>, result: Result<MessageId>)
      ensures unchanged(sender)
    {
    }
  }
}
