/**
 A destination that keeps its subscriptions in memory: the handle that clients of the
 destination hold, and the backend task that drains the handle's action queue.
 */
module InMemory {
  import opened Types
  import opened Channels
  import opened UnboundedChannels
  import opened Actions
  import opened ClientProxy
  import opened FanOuts
  import opened Listening

  /** `InMemDestination`: the sending end of a backend's action queue. */
  class InMemDestination {
    const id: DestinationId
    const sender: UnboundedChannel<DestinationAction<AsyncStompClient>>

    constructor (id: DestinationId)
      ensures this.id == id && fresh(sender) && sender.state == Empty()
    {
      this.id := id;
      this.sender := new UnboundedChannel();
    }

    method Subscribe(subscriberSubId: Option<SubscriptionId>, subscriber: AsyncStompClient) returns (panicked: bool)
      modifies sender, subscriber.sender
      ensures sender.state == old(sender.state).Push(DestinationAction.Subscribe(subscriberSubId, subscriber))
      ensures old(sender.state.open) ==> !panicked && unchanged(subscriber.sender)
      ensures !old(sender.state.open) ==> (panicked <==> subscriberSubId.None?)
      ensures !old(sender.state.open) ==>
                subscriber.sender.state ==
                if panicked then old(subscriber.sender.state)
                else old(subscriber.sender.state).Push(Subscribed(id, subscriberSubId.value, Err("Subscribe failed")))
    {
      var ok := sender.Send(DestinationAction.Subscribe(subscriberSubId, subscriber));
      panicked := false;
      if !ok {
        panicked := subscriber.SubscribeCallback(id, subscriberSubId, Err("Subscribe failed"));
      }
    }

    method Send(message: InboundMessage, client: AsyncStompClient)
      modifies sender
      ensures sender.state == old(sender.state).Push(DestinationAction.Send(message, client))
    {
      var ok := sender.Send(DestinationAction.Send(message, client));
      if !ok {
        client.SendCallback(message.senderMessageId, Err("Send failed"));
      }
    }

    /** The failure callback names no subscription, so on a stopped destination it panics in the caller. */
    method Unsubscribe(subId: SubscriptionId, subscriber: AsyncStompClient) returns (panicked: bool)
      modifies sender, subscriber.sender
      ensures sender.state == old(sender.state).Push(DestinationAction.Unsubscribe(subId, subscriber))
      ensures panicked <==> !old(sender.state.open)
      ensures subscriber.sender.state == old(subscriber.sender.state)
    {
      var ok := sender.Send(DestinationAction.Unsubscribe(subId, subscriber));
      panicked := false;
      if !ok {
        panicked := subscriber.UnsubscribeCallback(None, Err("Unsubscribe failed"));
      }
    }

    method Close()
      modifies sender
      ensures sender.state == old(sender.state).Push(DestinationAction.Close)
    {
      var _ := sender.Send(DestinationAction.Close);
    }
  }

  /** The subscriptions whose messages go to `channel`. */
  ghost function HeardOn(table: Table<AsyncStompClient>, channel: UnboundedChannel<ClientEvent>): set<SubscriptionId> {
    set id <- table | table[id].subscriber.sender == channel
  }

  ghost function Listeners(table: Table<AsyncStompClient>): set<UnboundedChannel<ClientEvent>> {
    set id <- table :: table[id].subscriber.sender
  }

  /** The keys of a hash map in the order, any order, in which iteration yields them. */
  method HashOrder(ids: set<SubscriptionId>) returns (order: seq<SubscriptionId>)
    ensures Visits(order, ids)
  {
    var remaining := ids;
    order := [];
    while remaining != {}
      invariant remaining <= ids && Visits(order, ids - remaining)
      decreases remaining
    {
      var next :| next in remaining;
      assert next !in order by { assert forall id <- order :: id in ids - remaining; }
      remaining := remaining - {next};
      order := order + [next];
    }
  }

  type Action = DestinationAction<AsyncStompClient>

  /** The listeners' channels, now `states` and once `before`, after the subscriptions in `order` have been visited. */
  ghost predicate DeliveredTo(table: Table<AsyncStompClient>, states: map<UnboundedChannel<ClientEvent>, Chan<ClientEvent>>,
                              before: map<UnboundedChannel<ClientEvent>, Chan<ClientEvent>>, order: seq<SubscriptionId>,
                              message: OutboundMessage)
  {
    && states.Keys == before.Keys == Listeners(table)
    && forall channel <- states :: states[channel] == before[channel].PushAll(Copies(table, HeardOn(table, channel), order, message))
  }

  ghost predicate DeadAmong(table: Table<AsyncStompClient>, before: map<UnboundedChannel<ClientEvent>, Chan<ClientEvent>>,
                            order: seq<SubscriptionId>, dead: seq<SubscriptionId>)
  {
    && (forall id <- order :: id in table && table[id].subscriber.sender in before)
    && (forall s :: s in dead <==> s in order && !before[table[s].subscriber.sender].open)
  }

  lemma NothingDelivered(table: Table<AsyncStompClient>, before: map<UnboundedChannel<ClientEvent>, Chan<ClientEvent>>, message: OutboundMessage)
    requires before.Keys == Listeners(table)
    ensures DeliveredTo(table, before, before, [], message)
  {
    forall channel <- before ensures before[channel].PushAll([]) == before[channel] {
      PushNothing(before[channel]);
    }
  }

  lemma OneDelivered(table: Table<AsyncStompClient>, states': map<UnboundedChannel<ClientEvent>, Chan<ClientEvent>>,
                     states: map<UnboundedChannel<ClientEvent>, Chan<ClientEvent>>,
                     before: map<UnboundedChannel<ClientEvent>, Chan<ClientEvent>>, order: seq<SubscriptionId>, i: nat,
                     message: OutboundMessage)
    requires i < |order| && order[i] in table && DeliveredTo(table, states, before, order[..i], message)
    requires states'.Keys == states.Keys
    requires forall channel <- states ::
               states'[channel]
               == if channel == table[order[i]].subscriber.sender
                  then states[channel].PushAll(Copy(table, HeardOn(table, channel), order[i], message)) else states[channel]
    ensures DeliveredTo(table, states', before, order[..i + 1], message)
  {
    assert order[..i + 1] == order[..i] + [order[i]];
    forall channel <- states'
      ensures states'[channel] == before[channel].PushAll(Copies(table, HeardOn(table, channel), order[..i + 1], message))
    {
      PushCopies(before[channel], table, HeardOn(table, channel), order[..i], order[i], message);
    }
  }

  lemma OneMoreDead(table: Table<AsyncStompClient>, states: map<UnboundedChannel<ClientEvent>, Chan<ClientEvent>>,
                    before: map<UnboundedChannel<ClientEvent>, Chan<ClientEvent>>, order: seq<SubscriptionId>, i: nat,
                    message: OutboundMessage, dead: seq<SubscriptionId>, failed: bool)
    requires i < |order| && order[i] in table && table[order[i]].id == order[i]
    requires DeliveredTo(table, states, before, order[..i], message) && DeadAmong(table, before, order[..i], dead)
    requires failed == !states[table[order[i]].subscriber.sender].open
    ensures DeadAmong(table, before, order[..i + 1], if failed then dead + [table[order[i]].id] else dead)
  {
    assert order[..i + 1] == order[..i] + [order[i]];
    assert table[order[i]].subscriber.sender in Listeners(table);
  }

  /** Everybody whose channel a backend may write to. */
  ghost function Involved(table: Table<AsyncStompClient>, actions: seq<Action>): set<AsyncStompClient> {
    (set id <- table :: table[id].subscriber)
    + (set action <- actions | action.Subscribe? || action.Unsubscribe? :: action.subscriber)
  }

  ghost function Senders(clients: set<AsyncStompClient>): set<UnboundedChannel<ClientEvent>> {
    set client <- clients :: client.sender
  }

  ghost function States(channels: set<UnboundedChannel<ClientEvent>>): map<UnboundedChannel<ClientEvent>, Chan<ClientEvent>>
    reads channels
  {
    map channel <- channels :: channel.state
  }

  ghost function Gone(clients: set<AsyncStompClient>): set<AsyncStompClient>
    reads Senders(clients)
  {
    GoneIn(States(Senders(clients)), clients)
  }

  ghost function GoneIn(states: map<UnboundedChannel<ClientEvent>, Chan<ClientEvent>>, clients: set<AsyncStompClient>)
    : set<AsyncStompClient>
  {
    set client <- clients | client.sender in states && !states[client.sender].open
  }

  ghost function Hearers(clients: set<AsyncStompClient>, channel: UnboundedChannel<ClientEvent>): set<AsyncStompClient> {
    set client <- clients | client.sender == channel
  }

  lemma ListenersIn(table: Table<AsyncStompClient>, involved: set<AsyncStompClient>)
    requires forall id <- table :: table[id].subscriber in involved
    ensures Listeners(table) <= Senders(involved)
  {
  }

  lemma ListenersInvolved(table: Table<AsyncStompClient>, actions: seq<Action>, involved: set<AsyncStompClient>)
    requires Involved(table, actions) <= involved
    ensures forall id <- table :: table[id].subscriber in involved
  {
    forall id <- table ensures table[id].subscriber in involved {
      assert table[id].subscriber in Involved(table, actions);
    }
  }

  /** A channel that no subscription uses gets nothing. */
  lemma HearingsAgree(table: Table<AsyncStompClient>, involved: set<AsyncStompClient>, channel: UnboundedChannel<ClientEvent>,
                      order: seq<SubscriptionId>, message: OutboundMessage, state: Chan<ClientEvent>)
    requires forall id <- table :: table[id].subscriber in involved
    ensures HeardOn(table, channel) == HeardBy(table, Hearers(involved, channel))
    ensures channel !in Listeners(table) ==>
              state.PushAll(Copies(table, HeardBy(table, Hearers(involved, channel)), order, message)) == state
  {
    assert HeardOn(table, channel) == HeardBy(table, Hearers(involved, channel));
    if channel !in Listeners(table) {
      assert HeardOn(table, channel) == {};
      NoCopies(table, order, message);
      assert state.sent + [] == state.sent;
    }
  }

  lemma NextInvolved(table: Table<AsyncStompClient>, before: Table<AsyncStompClient>, actions: seq<Action>, k: nat,
                     involved: set<AsyncStompClient>)
    requires k < |actions| && Involved(before, actions) == involved
    requires forall id <- table :: table[id].subscriber in involved
    ensures Involved(table, [actions[k]]) <= involved
  {
    assert actions[k] in actions;
    forall client <- Involved(table, [actions[k]]) ensures client in involved {
      if client !in (set id <- table :: table[id].subscriber) {
        assert client in (set action <- [actions[k]] | action.Subscribe? || action.Unsubscribe? :: action.subscriber);
        assert client in Involved(before, actions);
      }
    }
  }

  lemma RoundKeepsTable(table: Table<AsyncStompClient>, action: Action, uuid: string, gone: set<AsyncStompClient>,
                        involved: set<AsyncStompClient>)
    requires Involved(table, [action]) <= involved && Keyed(table) && AllNamed(table)
    ensures var served := ServeOne(table, action, uuid, gone);
      && (forall id <- served.table :: served.table[id].subscriber in involved)
      && Keyed(served.table) && (!served.stopped ==> AllNamed(served.table))
  {
    OneStops(table, action, uuid, gone);
    ListenersInvolved(table, [action], involved);
    if action.Subscribe? {
      assert action in [action];
      assert action.subscriber in Involved(table, [action]);
    }
  }

  /** The channels, now `states` and once `were`, have been told all that the actions make a backend tell. */
  ghost predicate AllTold(states: map<UnboundedChannel<ClientEvent>, Chan<ClientEvent>>,
                          were: map<UnboundedChannel<ClientEvent>, Chan<ClientEvent>>, id: DestinationId,
                          table: Table<AsyncStompClient>, actions: seq<Action>, uuids: seq<string>,
                          orders: seq<seq<SubscriptionId>>, gone: set<AsyncStompClient>, involved: set<AsyncStompClient>)
    requires |actions| <= |uuids| && |actions| <= |orders|
  {
    && states.Keys == were.Keys
    && forall channel <- states ::
         states[channel] == were[channel].PushAll(TellsAll(id, table, actions, uuids, orders, gone, Hearers(involved, channel)))
  }

  lemma AllToldNothing(were: map<UnboundedChannel<ClientEvent>, Chan<ClientEvent>>, id: DestinationId,
                       table: Table<AsyncStompClient>, uuids: seq<string>, gone: set<AsyncStompClient>, involved: set<AsyncStompClient>)
    ensures AllTold(were, were, id, table, [], uuids, [], gone, involved)
  {
    assert forall channel <- were :: were[channel].PushAll([]) == were[channel];
  }

  ghost predicate TellsNext(states': map<UnboundedChannel<ClientEvent>, Chan<ClientEvent>>,
                            states: map<UnboundedChannel<ClientEvent>, Chan<ClientEvent>>, id: DestinationId,
                            table: Table<AsyncStompClient>, action: Action, uuid: string, order: seq<SubscriptionId>,
                            involved: set<AsyncStompClient>)
  {
    && states'.Keys == states.Keys
    && forall channel <- states' ::
         states'[channel] == states[channel].PushAll(Tells(id, table, action, uuid, order, Hearers(involved, channel)))
  }

  lemma AllToldNext(states': map<UnboundedChannel<ClientEvent>, Chan<ClientEvent>>,
                    states: map<UnboundedChannel<ClientEvent>, Chan<ClientEvent>>,
                    were: map<UnboundedChannel<ClientEvent>, Chan<ClientEvent>>, id: DestinationId,
                    table: Table<AsyncStompClient>, actions: seq<Action>, k: nat, uuids: seq<string>,
                    orders: seq<seq<SubscriptionId>>, order: seq<SubscriptionId>,
                    gone: set<AsyncStompClient>, involved: set<AsyncStompClient>)
    requires k < |actions| <= |uuids| && |orders| == k
    requires AllTold(states, were, id, table, actions[..k], uuids, orders, gone, involved)
    requires TellsNext(states', states, id, Serve(table, actions[..k], uuids, gone).table, actions[k], uuids[k], order, involved)
    ensures AllTold(states', were, id, table, actions[..k + 1], uuids, orders + [order], gone, involved)
  {
    forall channel <- states'
      ensures states'[channel] == were[channel].PushAll(
                TellsAll(id, table, actions[..k + 1], uuids, orders + [order], gone, Hearers(involved, channel)))
    {
      var hearers := Hearers(involved, channel);
      TellsAllSnoc(id, table, actions, k, uuids, orders, order, gone, hearers);
      PushBoth(were[channel], TellsAll(id, table, actions[..k], uuids, orders, gone, hearers),
               Tells(id, Serve(table, actions[..k], uuids, gone).table, actions[k], uuids[k], order, hearers));
    }
  }

  lemma QueueIsNoListener(queue: UnboundedChannel<Action>, channels: set<UnboundedChannel<ClientEvent>>)
    ensures forall channel <- channels :: (channel as object) != (queue as object)
  {
  }

  /** The loop after some of the actions. */
  ghost predicate HeardSoFar(before: Table<AsyncStompClient>, served: Served<AsyncStompClient>, actions: seq<Action>,
                             uuids: seq<string>, orders: seq<seq<SubscriptionId>>, gone: set<AsyncStompClient>,
                             involved: set<AsyncStompClient>)
    requires served.taken <= |actions| <= |uuids|
  {
    && Serve(before, actions[..served.taken], uuids, gone) == served
    && Keyed(served.table) && (!served.stopped ==> AllNamed(served.table))
    && (forall id <- served.table :: served.table[id].subscriber in involved)
    && |orders| == served.taken && OrdersFit(before, actions[..served.taken], uuids, orders, gone)
  }

  lemma HeardNothing(were: map<UnboundedChannel<ClientEvent>, Chan<ClientEvent>>, id: DestinationId,
                     before: Table<AsyncStompClient>, actions: seq<Action>, uuids: seq<string>, gone: set<AsyncStompClient>,
                     involved: set<AsyncStompClient>)
    requires |actions| <= |uuids| && Involved(before, actions) == involved && Keyed(before) && AllNamed(before)
    ensures HeardSoFar(before, Served(before, 0, false, false), actions, uuids, [], gone, involved)
    ensures AllTold(were, were, id, before, actions[..0], uuids, [], gone, involved)
  {
    assert actions[..0] == [];
    ListenersInvolved(before, actions, involved);
    AllToldNothing(were, id, before, uuids, gone, involved);
  }

  lemma HeardNext(before: Table<AsyncStompClient>, table: Table<AsyncStompClient>, actions: seq<Action>, k: nat,
                  uuids: seq<string>, orders: seq<seq<SubscriptionId>>, order: seq<SubscriptionId>,
                  gone: set<AsyncStompClient>, involved: set<AsyncStompClient>)
    requires k < |actions| <= |uuids| && Involved(table, [actions[k]]) <= involved
    requires HeardSoFar(before, Served(table, k, false, false), actions, uuids, orders, gone, involved)
    requires OrderFits(table, actions[k], order)
    ensures var served := ServeOne(table, actions[k], uuids[k], gone);
      HeardSoFar(before, served.(taken := k + 1), actions, uuids, orders + [order], gone, involved)
  {
    ServeSnoc(before, actions, k, uuids, gone);
    OrdersFitSnoc(before, actions, k, uuids, orders, order, gone);
    RoundKeepsTable(table, actions[k], uuids[k], gone, involved);
  }

  /** Telling closes no channel. */
  lemma AllToldGone(states: map<UnboundedChannel<ClientEvent>, Chan<ClientEvent>>,
                    were: map<UnboundedChannel<ClientEvent>, Chan<ClientEvent>>, id: DestinationId,
                    table: Table<AsyncStompClient>, actions: seq<Action>, uuids: seq<string>,
                    orders: seq<seq<SubscriptionId>>, gone: set<AsyncStompClient>, involved: set<AsyncStompClient>)
    requires |actions| <= |uuids| && |actions| <= |orders|
    requires AllTold(states, were, id, table, actions, uuids, orders, gone, involved)
    ensures GoneIn(states, involved) == GoneIn(were, involved)
  {
  }

  class InMemDestinationBackend {
    const id: DestinationId
    var subscriptions: Table<AsyncStompClient>

    constructor (id: DestinationId)
      ensures this.id == id && subscriptions == map[]
    {
      this.id := id;
      this.subscriptions := map[];
    }

    /** `uuid` is the fresh identifier drawn for the subscription. */
    method AddSubscription(subscriberSubId: Option<SubscriptionId>, subscriber: AsyncStompClient, uuid: SubscriptionId)
      returns (panicked: bool)
      modifies this, subscriber.sender
      ensures subscriptions == Insert(old(subscriptions), uuid, subscriberSubId, subscriber)
      ensures panicked <==> subscriberSubId.None?
      ensures subscriber.sender.state ==
              if panicked then old(subscriber.sender.state)
              else old(subscriber.sender.state).Push(Subscribed(id, subscriberSubId.value, Ok(uuid)))
    {
      subscriptions := subscriptions[uuid := Subscription(uuid, subscriberSubId, subscriber)];
      panicked := subscriber.SubscribeCallback(id, subscriptions[uuid].subscriberSubId, Ok(uuid));
    }

    method RemoveSubscription(subId: SubscriptionId, subscriber: AsyncStompClient) returns (panicked: bool)
      modifies this, subscriber.sender
      ensures subscriptions == old(subscriptions) - {subId}
      ensures panicked <==> ReportedId(old(subscriptions), subId).None?
      ensures subscriber.sender.state ==
              if panicked then old(subscriber.sender.state)
              else old(subscriber.sender.state).Push(Unsubscribed(ReportedId(old(subscriptions), subId).value, Ok(subId)))
    {
      var removed := ReportedId(subscriptions, subId);
      subscriptions := subscriptions - {subId};
      panicked := subscriber.UnsubscribeCallback(removed, Ok(subId));
    }

    /**
     The fan-out. Whatever order the hash map yields, every listening channel that is open
     gets one copy for each of its subscriptions, and exactly the subscriptions whose
     channel was open remain.
     */
    method Send(message: InboundMessage, sender: AsyncStompClient, messageId: MessageId)
      returns (order: seq<SubscriptionId>)
      requires Keyed(subscriptions) && AllNamed(subscriptions)
      modifies this, Listeners(subscriptions)
      ensures Visits(order, old(subscriptions).Keys)
      ensures forall channel <- Listeners(old(subscriptions)) ::
                channel.state
                == old(channel.state).PushAll(
                  Copies(old(subscriptions), HeardOn(old(subscriptions), channel), order, Outbound(id, messageId, message)))
      ensures forall s :: s in subscriptions <==>
                          s in old(subscriptions) && old(subscriptions[s].subscriber.sender.state.open)
      ensures forall s <- subscriptions :: subscriptions[s] == old(subscriptions)[s]
    {
      order := HashOrder(subscriptions.Keys);
      var deadSubscriptions := DeliverAll(order, Outbound(id, messageId, message));
      PruneDead(deadSubscriptions);
      sender.SendCallback(message.senderMessageId, Ok(messageId));
    }

    /** The loop over the subscriptions, in the order given; collects those that could not receive. */
    method DeliverAll(order: seq<SubscriptionId>, message: OutboundMessage) returns (deadSubscriptions: seq<SubscriptionId>)
      requires Keyed(subscriptions) && AllNamed(subscriptions)
      requires forall id <- order :: id in subscriptions
      modifies Listeners(subscriptions)
      ensures forall channel <- Listeners(subscriptions) ::
                channel.state == old(channel.state).PushAll(Copies(subscriptions, HeardOn(subscriptions, channel), order, message))
      ensures forall s :: s in deadSubscriptions <==> s in order && !old(subscriptions[s].subscriber.sender.state.open)
    {
      deadSubscriptions := [];
      ghost var before := States(Listeners(subscriptions));
      NothingDelivered(subscriptions, before, message);
      for i := 0 to |order|
        invariant DeliveredTo(subscriptions, States(Listeners(subscriptions)), before, order[..i], message)
        invariant DeadAmong(subscriptions, before, order[..i], deadSubscriptions)
      {
        ghost var states := States(Listeners(subscriptions));
        var failed := Deliver(order[i], message);
        OneDelivered(subscriptions, States(Listeners(subscriptions)), states, before, order, i, message);
        OneMoreDead(subscriptions, states, before, order, i, message, deadSubscriptions, failed);
        if failed {
          deadSubscriptions := deadSubscriptions + [subscriptions[order[i]].id];
        }
      }
      assert order[..|order|] == order;
    }

    /** One round of the fan-out's loop. */
    method Deliver(next: SubscriptionId, message: OutboundMessage) returns (failed: bool)
      requires next in subscriptions && subscriptions[next].subscriberSubId.Some?
      modifies subscriptions[next].subscriber.sender
      ensures failed == !old(subscriptions[next].subscriber.sender.state.open)
      ensures subscriptions[next].subscriber.sender.state
              == old(subscriptions[next].subscriber.sender.state).PushAll(
                  Copy(subscriptions, HeardOn(subscriptions, subscriptions[next].subscriber.sender), next, message))
    {
      var subscription := subscriptions[next];
      var _, ok := subscription.subscriber.Send(subscription.subscriberSubId, message);
      failed := !ok;
    }

    method PruneDead(deadSubscriptions: seq<SubscriptionId>)
      modifies this
      ensures forall s :: s in subscriptions <==> s in old(subscriptions) && s !in deadSubscriptions
      ensures forall s <- subscriptions :: subscriptions[s] == old(subscriptions)[s]
    {
      for i := 0 to |deadSubscriptions|
        invariant forall s :: s in subscriptions <==> s in old(subscriptions) && s !in deadSubscriptions[..i]
        invariant forall s <- subscriptions :: subscriptions[s] == old(subscriptions)[s]
      {
        subscriptions := subscriptions - {deadSubscriptions[i]};
        assert deadSubscriptions[..i + 1] == deadSubscriptions[..i] + [deadSubscriptions[i]];
      }
      assert deadSubscriptions[..|deadSubscriptions|] == deadSubscriptions;
    }

    /** `Send`, seen by everybody involved and not only by the subscribers. */
    method TakeSend(message: InboundMessage, sender: AsyncStompClient, uuid: string, ghost involved: set<AsyncStompClient>)
      returns (order: seq<SubscriptionId>)
      requires Keyed(subscriptions) && AllNamed(subscriptions)
      requires forall id <- subscriptions :: subscriptions[id].subscriber in involved
      modifies this, Senders(involved)
      ensures Visits(order, old(subscriptions).Keys)
      ensures subscriptions
              == ServeOne(old(subscriptions), DestinationAction.Send(message, sender), uuid, old(Gone(involved))).table
      ensures forall channel <- Senders(involved) ::
                channel.state
                == old(channel.state).PushAll(
                  Copies(old(subscriptions), HeardBy(old(subscriptions), Hearers(involved, channel)), order,
                         Outbound(id, MessageId(uuid), message)))
    {
      ghost var before, all := subscriptions, Senders(involved);
      ghost var gone := Gone(involved);
      assert forall client <- involved :: client in gone <==> !client.sender.state.open;
      ListenersIn(before, involved);
      order := Send(message, sender, MessageId(uuid));
      forall channel <- all {
        HearingsAgree(before, involved, channel, order, Outbound(id, MessageId(uuid), message), old(channel.state));
      }
      assert subscriptions == ServeOne(before, DestinationAction.Send(message, sender), uuid, gone).table;
    }

    /** One round of `listen_on`: dispatch, with the identifier that will be drawn if one is needed. */
    method Take(action: Action, uuid: string, ghost involved: set<AsyncStompClient>)
      returns (stopped: bool, panicked: bool, order: seq<SubscriptionId>)
      requires Keyed(subscriptions) && AllNamed(subscriptions)
      requires Involved(subscriptions, [action]) <= involved
      modifies this, Senders(involved)
      ensures var served := ServeOne(old(subscriptions), action, uuid, old(Gone(involved)));
        subscriptions == served.table && stopped == served.stopped && panicked == served.panicked
      ensures OrderFits(old(subscriptions), action, order)
      ensures forall channel <- Senders(involved) ::
                channel.state
                == old(channel.state).PushAll(Tells(id, old(subscriptions), action, uuid, order, Hearers(involved, channel)))
    {
      order := [];
      ghost var before := subscriptions;
      ListenersInvolved(subscriptions, [action], involved);
      assert forall client <- Involved(subscriptions, [action]) :: client in involved;
      assert forall channel <- Senders(involved) :: channel.state.PushAll([]) == channel.state;
      match action {
        case Subscribe(name, subscriber) =>
          assert subscriber in Involved(subscriptions, [action]) by { assert action in [action]; }
          panicked := AddSubscription(name, subscriber, SubscriptionId(uuid));
          stopped := panicked;
        case Unsubscribe(subId, subscriber) =>
          assert subscriber in Involved(subscriptions, [action]) by { assert action in [action]; }
          panicked := RemoveSubscription(subId, subscriber);
          stopped := panicked;
        case Send(message, sender) =>
          order := TakeSend(message, sender, uuid, involved);
          stopped, panicked := false, false;
        case Close =>
          stopped, panicked := true, false;
      }
    }

    /** One round of the loop, seen from its beginning. */
    method TakeNext(action: Action, uuids: seq<string>, next: nat, ghost before: Table<AsyncStompClient>,
                    ghost actions: seq<Action>, ghost orders: seq<seq<SubscriptionId>>,
                    ghost were: map<UnboundedChannel<ClientEvent>, Chan<ClientEvent>>,
                    ghost gone: set<AsyncStompClient>, ghost involved: set<AsyncStompClient>)
      returns (stopped: bool, panicked: bool, order: seq<SubscriptionId>)
      requires next < |actions| <= |uuids| && action == actions[next]
      requires Involved(before, actions) == involved && gone == GoneIn(were, involved)
      requires HeardSoFar(before, Served(subscriptions, next, false, false), actions, uuids, orders, gone, involved)
      requires AllTold(States(Senders(involved)), were, id, before, actions[..next], uuids, orders, gone, involved)
      modifies this, Senders(involved)
      ensures HeardSoFar(before, Served(subscriptions, next + 1, stopped, panicked), actions, uuids, orders + [order], gone, involved)
      ensures AllTold(States(Senders(involved)), were, id, before, actions[..next + 1], uuids, orders + [order], gone, involved)
    {
      ghost var table, states := subscriptions, States(Senders(involved));
      AllToldGone(states, were, id, before, actions[..next], uuids, orders, gone, involved);
      assert Gone(involved) == gone;
      NextInvolved(table, before, actions, next, involved);
      stopped, panicked, order := Take(action, uuids[next], involved);
      ghost var states' := States(Senders(involved));
      assert TellsNext(states', states, id, table, action, uuids[next], order, involved);
      HeardNext(before, table, actions, next, uuids, orders, order, gone, involved);
      AllToldNext(states', states, were, id, before, actions, next, uuids, orders, order, gone, involved);
    }

    /** Taking an action from the queue tells nobody anything. */
    method Receive(receiver: UnboundedChannel<Action>, ghost channels: set<UnboundedChannel<ClientEvent>>) returns (action: Option<Action>)
      requires receiver.state.Valid()
      modifies receiver
      ensures old(receiver.state.Queue()) == [] ==> action == None && receiver.state == old(receiver.state)
      ensures old(receiver.state.Queue()) != [] ==>
                action == Some(old(receiver.state.Queue())[0]) && receiver.state == old(receiver.state).Pop()
      ensures States(channels) == old(States(channels))
    {
      QueueIsNoListener(receiver, channels);
      action := receiver.TryRecv();
    }

    /** A round: take an action from the queue, if there is one, and act on it. */
    method Round(receiver: UnboundedChannel<Action>, uuids: seq<string>, next: nat, ghost origin: Chan<Action>,
                 ghost before: Table<AsyncStompClient>, ghost orders: seq<seq<SubscriptionId>>,
                 ghost were: map<UnboundedChannel<ClientEvent>, Chan<ClientEvent>>,
                 ghost gone: set<AsyncStompClient>, ghost involved: set<AsyncStompClient>)
      returns (empty: bool, stopped: bool, panicked: bool, order: seq<SubscriptionId>)
      requires origin.Valid() && next <= |origin.Queue()| <= |uuids|
      requires receiver.state == origin.(received := origin.received + next)
      requires Involved(before, origin.Queue()) == involved && gone == GoneIn(were, involved)
      requires HeardSoFar(before, Served(subscriptions, next, false, false), origin.Queue(), uuids, orders, gone, involved)
      requires AllTold(States(Senders(involved)), were, id, before, origin.Queue()[..next], uuids, orders, gone, involved)
      modifies this, receiver, Senders(involved)
      ensures empty == (next == |origin.Queue()|)
      ensures empty ==>
                && receiver.state == old(receiver.state) && subscriptions == old(subscriptions) && !stopped && !panicked
                && States(Senders(involved)) == old(States(Senders(involved)))
      ensures !empty ==>
                && receiver.state == origin.(received := origin.received + next + 1)
                && HeardSoFar(before, Served(subscriptions, next + 1, stopped, panicked), origin.Queue(), uuids,
                              orders + [order], gone, involved)
                && AllTold(States(Senders(involved)), were, id, before, origin.Queue()[..next + 1], uuids, orders + [order],
                           gone, involved)
    {
      QueueAfter(origin, next);
      QueueIsNoListener(receiver, Senders(involved));
      empty, stopped, panicked, order := false, false, false, [];
      var action := Receive(receiver, Senders(involved));
      if action.None? {
        empty := true;
      } else {
        stopped, panicked, order := TakeNext(action.value, uuids, next, before, origin.Queue(), orders, were, gone, involved);
      }
    }

    /** The loop. */
    method Drain(receiver: UnboundedChannel<Action>, uuids: seq<string>)
      returns (stopped: bool, panicked: bool, next: nat, ghost orders: seq<seq<SubscriptionId>>)
      requires Keyed(subscriptions) && AllNamed(subscriptions)
      requires receiver.state.Valid() && |receiver.state.Queue()| <= |uuids|
      modifies this, receiver, Senders(Involved(subscriptions, receiver.state.Queue()))
      ensures var actions := old(receiver.state.Queue());
        var involved := old(Involved(subscriptions, receiver.state.Queue()));
        var gone := old(Gone(involved));
        && next <= |actions| && (!stopped ==> next == |actions|)
        && receiver.state == old(receiver.state).(received := old(receiver.state.received) + next)
        && HeardSoFar(old(subscriptions), Served(subscriptions, next, stopped, panicked), actions, uuids, orders, gone, involved)
        && AllTold(States(Senders(involved)), old(States(Senders(involved))), id, old(subscriptions), actions[..next], uuids,
                   orders, gone, involved)
    {
      ghost var actions, before := receiver.state.Queue(), subscriptions;
      ghost var involved := Involved(subscriptions, actions);
      ghost var were := States(Senders(involved));
      ghost var gone := GoneIn(were, involved);
      assert gone == Gone(involved);
      stopped, panicked, next, orders := false, false, 0, [];
      HeardNothing(were, id, before, actions, uuids, gone, involved);
      while !stopped
        invariant next <= |actions|
        invariant receiver.state == old(receiver.state).(received := old(receiver.state.received) + next)
        invariant HeardSoFar(before, Served(subscriptions, next, stopped, panicked), actions, uuids, orders, gone, involved)
        invariant AllTold(States(Senders(involved)), were, id, before, actions[..next], uuids, orders, gone, involved)
        decreases |actions| - next, !stopped
      {
        var empty, order;
        empty, stopped, panicked, order := Round(receiver, uuids, next, old(receiver.state), before, orders, were, gone, involved);
        if empty {
          break;
        }
        orders := orders + [order];
        next := next + 1;
      }
    }

    /**
     The backend's life: it takes actions until its queue is empty, where it would wait for
     more, or until it is told to close or panics, where its queue refuses anything more.
     */
    method ListenOn(receiver: UnboundedChannel<Action>, uuids: seq<string>)
      returns (panicked: bool, ghost orders: seq<seq<SubscriptionId>>)
      requires Keyed(subscriptions) && AllNamed(subscriptions)
      requires receiver.state.Valid() && |receiver.state.Queue()| <= |uuids|
      modifies this, receiver, Senders(Involved(subscriptions, receiver.state.Queue()))
      ensures var involved := old(Involved(subscriptions, receiver.state.Queue()));
        var gone := old(Gone(involved));
        var served := Serve(old(subscriptions), old(receiver.state.Queue()), uuids, gone);
        && subscriptions == served.table
        && panicked == served.panicked
        && receiver.state == old(receiver.state).(received := old(receiver.state.received) + served.taken,
                                                  open := old(receiver.state.open) && !served.stopped)
        && served.taken <= |old(receiver.state.Queue())|
        && var taken := old(receiver.state.Queue())[..served.taken];
           && |orders| == served.taken && OrdersFit(old(subscriptions), taken, uuids, orders, gone)
           && AllTold(States(Senders(involved)), old(States(Senders(involved))), id, old(subscriptions), taken, uuids, orders,
                      gone, involved)
    {
      ghost var actions, before := receiver.state.Queue(), subscriptions;
      ghost var gone := Gone(Involved(subscriptions, actions));
      var stopped, next;
      stopped, panicked, next, orders := Drain(receiver, uuids);
      if stopped {
        StoppedStays(before, actions, next, uuids, gone);
        receiver.Close();
      } else {
        assert actions[..next] == actions;
      }
    }
  }
}
