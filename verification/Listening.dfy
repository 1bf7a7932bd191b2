/**
 What a backend makes of its action queue: the specification of the `listen_on` loop. Each
 action comes with the random identifier drawn while it is handled, if one is. `gone` are
 the subscribers whose channel is closed.
 */
module Listening {
  import opened Types
  import opened Actions
  import opened FanOuts

  datatype Served<S> = Served(table: Table<S>, taken: nat, stopped: bool, panicked: bool)

  /** One round of the loop. */
  function ServeOne<S>(table: Table<S>, action: DestinationAction<S>, uuid: string, gone: set<S>): Served<S> {
    match action
    case Subscribe(name, subscriber) =>
      Served(Insert(table, SubscriptionId(uuid), name, subscriber), 1, name.None?, name.None?)
    case Unsubscribe(id, _) =>
      var unknown := ReportedId(table, id).None?;
      Served(table - {id}, 1, unknown, unknown)
    case Send(_, _) => Served(map id <- table | table[id].subscriber !in gone :: table[id], 1, false, false)
    case Close => Served(table, 1, true, false)
  }

  /** The loop. */
  function Serve<S>(table: Table<S>, actions: seq<DestinationAction<S>>, uuids: seq<string>, gone: set<S>): Served<S>
    requires |actions| <= |uuids|
  {
    if actions == [] then Served(table, 0, false, false)
    else
      var n := |actions| - 1;
      var before := Serve(table, actions[..n], uuids, gone);
      if before.stopped then before
      else
        var last := ServeOne(before.table, actions[n], uuids[n], gone);
        last.(taken := before.taken + 1)
  }

  /** The subscriptions in the hands of `hearers`, who share one channel. */
  function HeardBy<S>(table: Table<S>, hearers: set<S>): set<SubscriptionId> {
    set id <- table | table[id].subscriber in hearers
  }

  /** What one action puts on the channel of `hearers`; `order` is how a Send visits the table. */
  function Tells<S>(d: DestinationId, table: Table<S>, action: DestinationAction<S>, uuid: string,
                    order: seq<SubscriptionId>, hearers: set<S>): seq<ClientEvent>
  {
    match action
    case Subscribe(Some(name), subscriber) =>
      if subscriber in hearers then [Subscribed(d, name, Ok(SubscriptionId(uuid)))] else []
    case Unsubscribe(id, subscriber) =>
      var reported := ReportedId(table, id);
      if reported.Some? && subscriber in hearers then [Unsubscribed(reported.value, Ok(id))] else []
    case Send(message, _) => Copies(table, HeardBy(table, hearers), order, Outbound(d, MessageId(uuid), message))
    case _ => []
  }

  /** What the loop puts there, as long as none of the actions stops it. */
  function TellsAll<S>(d: DestinationId, table: Table<S>, actions: seq<DestinationAction<S>>, uuids: seq<string>,
                       orders: seq<seq<SubscriptionId>>, gone: set<S>, hearers: set<S>): seq<ClientEvent>
    requires |actions| <= |uuids| && |actions| <= |orders|
  {
    if actions == [] then []
    else
      var n := |actions| - 1;
      TellsAll(d, table, actions[..n], uuids, orders, gone, hearers)
      + Tells(d, Serve(table, actions[..n], uuids, gone).table, actions[n], uuids[n], orders[n], hearers)
  }

  ghost predicate OrderFits<S>(table: Table<S>, action: DestinationAction<S>, order: seq<SubscriptionId>) {
    action.Send? ==> Visits(order, table.Keys)
  }

  /** Every Send visits the table that it finds. */
  ghost predicate OrdersFit<S>(table: Table<S>, actions: seq<DestinationAction<S>>, uuids: seq<string>,
                               orders: seq<seq<SubscriptionId>>, gone: set<S>)
    requires |actions| <= |uuids| && |actions| <= |orders|
  {
    forall k :: 0 <= k < |actions| ==> OrderFits(Serve(table, actions[..k], uuids, gone).table, actions[k], orders[k])
  }

  lemma ServeSnoc<S>(table: Table<S>, actions: seq<DestinationAction<S>>, k: nat, uuids: seq<string>, gone: set<S>)
    requires k < |actions| <= |uuids| && !Serve(table, actions[..k], uuids, gone).stopped
    ensures Serve(table, actions[..k + 1], uuids, gone)
            == ServeOne(Serve(table, actions[..k], uuids, gone).table, actions[k], uuids[k], gone).(
                 taken := Serve(table, actions[..k], uuids, gone).taken + 1)
  {
    assert actions[..k + 1][..k] == actions[..k];
  }

  /** What is told depends on no order beyond the last action. */
  lemma {:induction false} TellsAllPrefix<S>(d: DestinationId, table: Table<S>, actions: seq<DestinationAction<S>>, uuids: seq<string>,
                                             orders: seq<seq<SubscriptionId>>, more: seq<seq<SubscriptionId>>,
                                             gone: set<S>, hearers: set<S>)
    requires |actions| <= |uuids| && |actions| <= |orders| <= |more| && orders == more[..|orders|]
    ensures TellsAll(d, table, actions, uuids, orders, gone, hearers) == TellsAll(d, table, actions, uuids, more, gone, hearers)
  {
    if actions != [] {
      TellsAllPrefix(d, table, actions[..|actions| - 1], uuids, orders, more, gone, hearers);
    }
  }

  lemma TellsAllSnoc<S>(d: DestinationId, table: Table<S>, actions: seq<DestinationAction<S>>, k: nat, uuids: seq<string>,
                        orders: seq<seq<SubscriptionId>>, order: seq<SubscriptionId>, gone: set<S>, hearers: set<S>)
    requires k < |actions| <= |uuids| && |orders| == k
    ensures TellsAll(d, table, actions[..k + 1], uuids, orders + [order], gone, hearers)
            == TellsAll(d, table, actions[..k], uuids, orders, gone, hearers)
               + Tells(d, Serve(table, actions[..k], uuids, gone).table, actions[k], uuids[k], order, hearers)
  {
    assert actions[..k + 1][..k] == actions[..k];
    assert (orders + [order])[..k] == orders;
    TellsAllPrefix(d, table, actions[..k], uuids, orders, orders + [order], gone, hearers);
  }

  lemma OrdersFitSnoc<S>(table: Table<S>, actions: seq<DestinationAction<S>>, k: nat, uuids: seq<string>,
                         orders: seq<seq<SubscriptionId>>, order: seq<SubscriptionId>, gone: set<S>)
    requires k < |actions| <= |uuids| && |orders| == k && OrdersFit(table, actions[..k], uuids, orders, gone)
    requires OrderFits(Serve(table, actions[..k], uuids, gone).table, actions[k], order)
    ensures OrdersFit(table, actions[..k + 1], uuids, orders + [order], gone)
  {
    var taken := actions[..k + 1];
    forall j | 0 <= j < k + 1
      ensures OrderFits(Serve(table, taken[..j], uuids, gone).table, taken[j], (orders + [order])[j])
    {
      assert taken[..j] == actions[..k][..j] || j == k;
      assert taken[..k] == actions[..k];
    }
  }

  /** A loop that has stopped takes nothing more. */
  lemma {:induction false} StoppedStays<S>(table: Table<S>, actions: seq<DestinationAction<S>>, n: nat, uuids: seq<string>, gone: set<S>)
    requires n <= |actions| <= |uuids| && Serve(table, actions[..n], uuids, gone).stopped
    ensures Serve(table, actions, uuids, gone) == Serve(table, actions[..n], uuids, gone)
  {
    if n == |actions| {
      assert actions[..n] == actions;
    } else {
      var init := actions[..|actions| - 1];
      assert init[..n] == actions[..n];
      StoppedStays(table, init, n, uuids, gone);
    }
  }

  /** The action that a running loop would stop at. */
  ghost predicate StopsAt<S>(table: Table<S>, action: DestinationAction<S>) {
    || action.Close?
    || (action.Subscribe? && action.subscriberSubId.None?)
    || (action.Unsubscribe? && (action.subId !in table || table[action.subId].subscriberSubId.None?))
  }

  lemma OneStops<S>(table: Table<S>, action: DestinationAction<S>, uuid: string, gone: set<S>)
    ensures var served := ServeOne(table, action, uuid, gone);
      && (served.stopped <==> StopsAt(table, action))
      && (served.panicked <==> served.stopped && !action.Close?)
      && (Keyed(table) ==> Keyed(served.table))
      && (AllNamed(table) && !served.stopped ==> AllNamed(served.table))
  {
  }

  /** While the loop runs, every subscription in the table is filed under its own id and has a name. */
  lemma {:induction false} ServeKeepsTable<S>(table: Table<S>, actions: seq<DestinationAction<S>>, uuids: seq<string>, gone: set<S>)
    requires |actions| <= |uuids| && Keyed(table) && AllNamed(table)
    ensures var served := Serve(table, actions, uuids, gone);
      Keyed(served.table) && (!served.stopped ==> AllNamed(served.table) && served.taken == |actions| && !served.panicked)
  {
    if actions != [] {
      var n := |actions| - 1;
      ServeKeepsTable(table, actions[..n], uuids, gone);
      OneStops(Serve(table, actions[..n], uuids, gone).table, actions[n], uuids[n], gone);
    }
  }

  /** Would the action numbered `k` stop the loop, if the loop came to it? */
  ghost predicate StopsLoop<S>(table: Table<S>, actions: seq<DestinationAction<S>>, uuids: seq<string>, gone: set<S>, k: nat)
    requires k < |actions| <= |uuids|
  {
    StopsAt(Serve(table, actions[..k], uuids, gone).table, actions[k])
  }

  /**
   How the loop ends: it takes everything, or stops at the first Close, nameless Subscribe
   or Unsubscribe of a subscription it does not have; a Close alone is no panic.
   */
  lemma {:induction false} ServeEnds<S>(table: Table<S>, actions: seq<DestinationAction<S>>, uuids: seq<string>, gone: set<S>)
    requires |actions| <= |uuids|
    ensures var served := Serve(table, actions, uuids, gone);
      && served.taken <= |actions|
      && (!served.stopped ==>
            !served.panicked && served.taken == |actions| && forall k :: 0 <= k < |actions| ==> !StopsLoop(table, actions, uuids, gone, k))
      && (served.stopped ==>
            && 0 < served.taken
            && StopsLoop(table, actions, uuids, gone, served.taken - 1)
            && (served.panicked <==> !actions[served.taken - 1].Close?)
            && forall k :: 0 <= k < served.taken - 1 ==> !StopsLoop(table, actions, uuids, gone, k))
  {
    if actions != [] {
      var n := |actions| - 1;
      var init := actions[..n];
      ServeEnds(table, init, uuids, gone);
      OneStops(Serve(table, init, uuids, gone).table, actions[n], uuids[n], gone);
      forall k | 0 <= k < n
        ensures StopsLoop(table, actions, uuids, gone, k) == StopsLoop(table, init, uuids, gone, k)
      {
        assert init[..k] == actions[..k];
      }
    }
  }

  /** Nothing is made up: what the table holds was there, or was asked for by an action taken. */
  lemma {:induction false} ServedFromSomewhere<S>(table: Table<S>, actions: seq<DestinationAction<S>>, uuids: seq<string>, gone: set<S>,
                                                  id: SubscriptionId)
    requires |actions| <= |uuids|
    requires id in Serve(table, actions, uuids, gone).table
    ensures var subscription := Serve(table, actions, uuids, gone).table[id];
      || (id in table && subscription == table[id])
      || (exists k :: 0 <= k < Serve(table, actions, uuids, gone).taken && k < |actions| && id == SubscriptionId(uuids[k])
                      && actions[k] == DestinationAction.Subscribe(subscription.subscriberSubId, subscription.subscriber))
  {
    if actions != [] {
      var n := |actions| - 1;
      var init := actions[..n];
      var before := Serve(table, init, uuids, gone);
      var subscription := Serve(table, actions, uuids, gone).table[id];
      if id in before.table && before.table[id] == subscription {
        ServedFromSomewhere(table, init, uuids, gone, id);
        if !(id in table && subscription == table[id]) {
          var k :| 0 <= k < before.taken && k < n && id == SubscriptionId(uuids[k])
            && init[k] == DestinationAction.Subscribe(subscription.subscriberSubId, subscription.subscriber);
          assert actions[k] == init[k];
        }
      } else {
        ServeEnds(table, init, uuids, gone);
        assert actions[n] == DestinationAction.Subscribe(subscription.subscriberSubId, subscription.subscriber);
      }
    }
  }
}
