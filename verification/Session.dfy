/**
 A connected session. Its methods are proved against `React`: the table it keeps, what it
 writes, and what it does to its own channel, the destinations and the two timers.
 */
module Sessions {
  import opened Types
  import opened Channels
  import opened UnboundedChannels
  import opened Actions
  import opened ClientProxy
  import opened InMemory
  import opened DestinationRegistry
  import opened Resetters
  import opened Reactions
  import opened Calls

  type HandlerResult = Result<(ClientState, Option<Output>)>

  function AliveWith(output: Option<Output>): HandlerResult {
    Ok((Alive, output))
  }

  /** The spawned tasks after a call into the destinations. */
  function TasksAfter(tasks: seq<PendingSubscribe>, call: Option<Call>, client: AsyncStompClient): seq<PendingSubscribe> {
    match call
    case Some(SubscribeTo(d, clientId)) => tasks + [PendingSubscribe(d, Some(clientId), client)]
    case _ => tasks
  }

  lemma FrameReaction(active: ActiveTable, frame: Result<ClientFrame>)
    ensures var reaction := React(active, ClientEvent.ClientFrame(frame));
      reaction.active == active && reaction.resetsClientTimer && !reaction.resetsServerTimer
  {
  }

  class ClientSession {
    const destinations: AsyncDestinations
    const clientProxy: AsyncStompClient
    const serverHeartbeatResetter: ResettableTimerResetter
    const clientHeartbeatResetter: ResettableTimerResetter
    var activeSubscriptionsByClientId: ActiveTable

    constructor (destinations: AsyncDestinations, clientProxy: AsyncStompClient,
                 serverHeartbeatResetter: ResettableTimerResetter, clientHeartbeatResetter: ResettableTimerResetter)
      requires destinations.Valid() && serverHeartbeatResetter.sender != clientHeartbeatResetter.sender
      ensures Valid() && activeSubscriptionsByClientId == map[]
      ensures this.destinations == destinations && this.clientProxy == clientProxy
      ensures this.serverHeartbeatResetter == serverHeartbeatResetter
      ensures this.clientHeartbeatResetter == clientHeartbeatResetter
    {
      this.destinations := destinations;
      this.clientProxy := clientProxy;
      this.serverHeartbeatResetter := serverHeartbeatResetter;
      this.clientHeartbeatResetter := clientHeartbeatResetter;
      this.activeSubscriptionsByClientId := map[];
    }

    ghost predicate Valid()
      reads this, destinations
    {
      destinations.Valid() && serverHeartbeatResetter.sender != clientHeartbeatResetter.sender
    }

    /** An ERROR frame for the client, and a Close for oneself. */
    method Error(message: string) returns (result: HandlerResult)
      modifies clientProxy.sender
      ensures result == AliveWith(Some(Frame(ServerFrame.Error(message))))
      ensures clientProxy.sender.state == old(clientProxy.sender.state).Push(ClientEvent.Close)
    {
      clientProxy.SendEvent(ClientEvent.Close);
      result := AliveWith(Some(Frame(ServerFrame.Error(message))));
    }

    method Unsubscribe(clientSubscriptionId: SubscriptionId) returns (panicked: bool, result: HandlerResult)
      requires Valid()
      modifies clientProxy.sender, destinations.Senders()
      ensures Valid() && Follows(ReactToFrame(activeSubscriptionsByClientId, ClientFrame.Unsubscribe(clientSubscriptionId)),
                                 old(clientProxy.sender.state), old(destinations.QueuesNow()), old(destinations.tasks), panicked, result)
    {
      if clientSubscriptionId !in activeSubscriptionsByClientId {
        result := Error("Attempt to unsubscribe from unknown subscription: " + clientSubscriptionId.text);
        panicked := false;
      } else {
        var (destinationId, destinationSubId) := activeSubscriptionsByClientId[clientSubscriptionId];
        panicked := destinations.Unsubscribe(destinationId, destinationSubId, clientProxy);
        result := AliveWith(None);
      }
    }

    /** What a handler of frames leaves: the reaction's call made, its Close sent, its result given unless it panicked. */
    ghost predicate Follows(reaction: Reaction, inbox: Chan<ClientEvent>, queues: Queues<AsyncStompClient>, tasks: seq<PendingSubscribe>,
                            panicked: bool, result: HandlerResult)
      requires Valid()
      reads this, destinations, destinations.Senders(), clientProxy.sender
    {
      && (panicked <==> CallPanics(queues, reaction.call))
      && (!panicked ==> result == Ok((reaction.state, reaction.output)))
      && clientProxy.sender.state == (if reaction.sendsClose then inbox.Push(ClientEvent.Close) else inbox)
      && destinations.QueuesNow() == QueuesAfter(queues, reaction.call, clientProxy)
      && destinations.tasks == TasksAfter(tasks, reaction.call, clientProxy)
    }

    method Handle(frame: ClientFrame) returns (panicked: bool, result: HandlerResult)
      requires Valid()
      modifies clientProxy.sender, destinations.Senders(), destinations`tasks
      ensures Valid() && Follows(ReactToFrame(activeSubscriptionsByClientId, frame), old(clientProxy.sender.state),
                                 old(destinations.QueuesNow()), old(destinations.tasks), panicked, result)
    {
      panicked, result := false, AliveWith(None);
      match frame {
        case Connect(_, _) => result := Error("Already connected.");
        case Subscribe(destination, id) => destinations.Subscribe(destination, Some(id), clientProxy);
        case Send(destination, body) => destinations.Send(destination, InboundMessage(None, body), clientProxy);
        case Disconnect => result := Ok((Dead, None));
        case Unsubscribe(id) => panicked, result := Unsubscribe(id);
      }
    }

    method HandleClientFrame(frame: Result<ClientFrame>) returns (panicked: bool, result: HandlerResult)
      requires Valid()
      modifies clientProxy.sender, destinations.Senders(), destinations`tasks
      ensures Valid() && Follows(React(activeSubscriptionsByClientId, ClientEvent.ClientFrame(frame)), old(clientProxy.sender.state),
                                 old(destinations.QueuesNow()), old(destinations.tasks), panicked, result)
    {
      match frame {
        case Err(message) =>
          panicked := false;
          result := Error("Error processing client message: " + message);
        case Ok(clientFrame) => panicked, result := Handle(clientFrame);
      }
    }

    method HandleSubscribed(destination: DestinationId, clientSubscriptionId: SubscriptionId, result: Result<SubscriptionId>)
      returns (handled: HandlerResult)
      modifies this
      ensures handled == AliveWith(None)
      ensures activeSubscriptionsByClientId
              == React(old(activeSubscriptionsByClientId), ClientEvent.Subscribed(destination, clientSubscriptionId, result)).active
    {
      if result.Ok? {
        activeSubscriptionsByClientId := activeSubscriptionsByClientId[clientSubscriptionId := (destination, result.value)];
      }
      handled := AliveWith(None);
    }

    method HandleUnsubscribed(clientSubscriptionId: SubscriptionId, result: Result<SubscriptionId>) returns (handled: HandlerResult)
      modifies this
      ensures handled == AliveWith(None)
      ensures activeSubscriptionsByClientId
              == React(old(activeSubscriptionsByClientId), ClientEvent.Unsubscribed(clientSubscriptionId, result)).active
    {
      if result.Ok? {
        activeSubscriptionsByClientId := activeSubscriptionsByClientId - {clientSubscriptionId};
      }
      handled := AliveWith(None);
    }

    /** A failed reset is only logged. */
    method ClientMessageReceived()
      modifies clientHeartbeatResetter.sender
      ensures clientHeartbeatResetter.sender.state == old(clientHeartbeatResetter.sender.state).Push(TimerCommand.Reset)
    {
      var _ := clientHeartbeatResetter.Reset();
    }

    /**
     The whole effect of handling an event, given what the state was. It panics in two
     cases only: a message for the client when the server's heartbeat timer no longer takes
     commands, and an Unsubscribe that a stopped destination refuses.
     */
    ghost predicate Reacted(reaction: Reaction, inbox: Chan<ClientEvent>, queues: Queues<AsyncStompClient>, tasks: seq<PendingSubscribe>,
                            serverTimer: Chan<TimerCommand>, clientTimer: Chan<TimerCommand>, panicked: bool, result: HandlerResult)
      requires Valid()
      reads this, destinations, destinations.Senders(), clientProxy.sender
      reads serverHeartbeatResetter.sender, clientHeartbeatResetter.sender
    {
      && activeSubscriptionsByClientId == reaction.active
      && (panicked <==> (reaction.resetsServerTimer && !serverTimer.open) || CallPanics(queues, reaction.call))
      && (!panicked ==> result == Ok((reaction.state, reaction.output)))
      && clientProxy.sender.state == (if reaction.sendsClose then inbox.Push(ClientEvent.Close) else inbox)
      && destinations.QueuesNow() == QueuesAfter(queues, reaction.call, clientProxy)
      && destinations.tasks == TasksAfter(tasks, reaction.call, clientProxy)
      && serverHeartbeatResetter.sender.state
         == (if reaction.resetsServerTimer then serverTimer.Push(TimerCommand.Reset) else serverTimer)
      && clientHeartbeatResetter.sender.state
         == (if reaction.resetsClientTimer then clientTimer.Push(TimerCommand.Reset) else clientTimer)
    }

    method ReceiveFrame(frame: Result<ClientFrame>) returns (panicked: bool, result: HandlerResult)
      requires Valid()
      modifies clientProxy.sender, destinations.Senders(), destinations`tasks, clientHeartbeatResetter.sender
      ensures Valid() && Reacted(React(activeSubscriptionsByClientId, ClientEvent.ClientFrame(frame)),
                                 old(clientProxy.sender.state), old(destinations.QueuesNow()), old(destinations.tasks),
                                 old(serverHeartbeatResetter.sender.state), old(clientHeartbeatResetter.sender.state), panicked, result)
    {
      FrameReaction(activeSubscriptionsByClientId, frame);
      ClientMessageReceived();
      assert destinations.QueuesNow() == old(destinations.QueuesNow());
      panicked, result := HandleClientFrame(frame);
    }

    /** Any other event leaves the destinations alone. */
    method HandleOther(event: ClientEvent) returns (panicked: bool, result: HandlerResult)
      requires Valid() && !event.ClientFrame?
      modifies this, clientProxy.sender, serverHeartbeatResetter.sender, clientHeartbeatResetter.sender
      ensures var reaction := React(old(activeSubscriptionsByClientId), event);
        && activeSubscriptionsByClientId == reaction.active
        && (panicked <==> reaction.resetsServerTimer && !old(serverHeartbeatResetter.sender.state.open))
        && (!panicked ==> result == Ok((reaction.state, reaction.output)))
        && clientProxy.sender.state
           == (if reaction.sendsClose then old(clientProxy.sender.state).Push(ClientEvent.Close) else old(clientProxy.sender.state))
        && serverHeartbeatResetter.sender.state
           == (if reaction.resetsServerTimer then old(serverHeartbeatResetter.sender.state).Push(TimerCommand.Reset)
               else old(serverHeartbeatResetter.sender.state))
        && clientHeartbeatResetter.sender.state
           == (if reaction.resetsClientTimer then old(clientHeartbeatResetter.sender.state).Push(TimerCommand.Reset)
               else old(clientHeartbeatResetter.sender.state))
    {
      panicked, result := false, AliveWith(None);
      match event {
        case Connected(heartbeat) => result := AliveWith(Some(Frame(ServerFrame.Connected(V1_2, heartbeat))));
        case Close => result := Ok((Dead, None));
        case ClientHeartbeat => ClientMessageReceived();
        case ServerMessage(id, message) =>
          var ok := serverHeartbeatResetter.Reset();
          panicked := !ok;
          if ok {
            result := AliveWith(Some(Frame(MessageFrame(id, message))));
          }
        case Subscribed(destination, id, subscribeResult) => result := HandleSubscribed(destination, id, subscribeResult);
        case Unsubscribed(id, unsubscribeResult) => result := HandleUnsubscribed(id, unsubscribeResult);
        case Error(problem) => result := Error(problem);
        case Heartbeat => result := AliveWith(Some(Eol));
      }
    }

    /** Whatever the event, handling it does what `React` says. */
    method HandleEvent(event: ClientEvent) returns (panicked: bool, result: HandlerResult)
      requires Valid()
      modifies this, clientProxy.sender, destinations.Senders(), destinations`tasks
      modifies serverHeartbeatResetter.sender, clientHeartbeatResetter.sender
      ensures Valid() && Reacted(React(old(activeSubscriptionsByClientId), event),
                                 old(clientProxy.sender.state), old(destinations.QueuesNow()), old(destinations.tasks),
                                 old(serverHeartbeatResetter.sender.state), old(clientHeartbeatResetter.sender.state), panicked, result)
    {
      if event.ClientFrame? {
        panicked, result := ReceiveFrame(event.frame);
      } else {
        panicked, result := HandleOther(event);
        assert destinations.QueuesNow() == old(destinations.QueuesNow());
        assert React(old(activeSubscriptionsByClientId), event).call == None;
      }
    }
  }
}
