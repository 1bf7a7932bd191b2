/**
 The fan-out steps of the transition system, taken together, are the broadcast that the
 backend's `Send` makes in one go: `TakeSend`, a `Deliver` for every subscription in any
 order, and `FinishSend`.
 */
module Broadcast {
  import opened Types
  import opened Channels
  import opened Actions
  import opened FanOuts
  import opened Listening
  import opened Protocol

  /** The rest of a fan-out that has `order` still to visit. */
  function Rest(d: DestinationId, order: seq<SubscriptionId>): seq<Step> {
    if order == [] then [FinishSend(d)] else [Deliver(d, order[0])] + Rest(d, order[1..])
  }

  ghost predicate InFanOut(sys: System, d: DestinationId, table: Table<SessionId>, order: seq<SubscriptionId>) {
    && d in sys.dests && sys.dests[d].fanOut.Some? && AllNamed(table)
    && var remaining := sys.dests[d].fanOut.value.remaining;
       Visits(order, remaining.Keys) && forall id <- remaining :: id in table && remaining[id] == table[id]
  }

  /** The subscriptions among `order` that have nobody left to listen. */
  ghost function Unreachable(sys: System, table: Table<SessionId>, order: seq<SubscriptionId>): set<SubscriptionId> {
    set id <- order | id in table && !Live(sys, table[id].subscriber)
  }

  ghost predicate AllReceive(sys: System, sys': System, table: Table<SessionId>, order: seq<SubscriptionId>, message: OutboundMessage) {
    && sys'.sessions.Keys == sys.sessions.Keys
    && forall sid <- sys.sessions ::
         sys'.sessions[sid]
         == sys.sessions[sid].(inbox := sys.sessions[sid].inbox.PushAll(Copies(table, HeardBy(table, {sid}), order, message)))
  }

  lemma {:induction false} CopiesCons<S>(table: Table<S>, mine: set<SubscriptionId>, order: seq<SubscriptionId>, message: OutboundMessage)
    requires order != []
    ensures Copies(table, mine, order, message)
            == Copy(table, mine, order[0], message) + Copies(table, mine, order[1..], message)
  {
    var init, last := order[..|order| - 1], order[|order| - 1];
    assert order == init + [last];
    CopiesSnoc(table, mine, init, last, message);
    if init == [] {
      assert order[1..] == [];
    } else {
      CopiesCons(table, mine, init, message);
      CopiesSnoc(table, mine, init[1..], last, message);
      TailOfInit(order);
      Regroup(Copy(table, mine, order[0], message), Copies(table, mine, init[1..], message), Copy(table, mine, last, message));
    }
  }

  lemma TailOfInit(order: seq<SubscriptionId>)
    requires |order| > 1
    ensures order[1..] == order[..|order| - 1][1..] + [order[|order| - 1]] && order[..|order| - 1][0] == order[0]
  {
  }

  lemma CopiesFirst<S>(table: Table<S>, mine: set<SubscriptionId>, order: seq<SubscriptionId>, message: OutboundMessage)
    requires order != []
    ensures Copies(table, mine, order, message)
            == Copies(table, mine, [order[0]], message) + Copies(table, mine, order[1..], message)
  {
    CopiesCons(table, mine, order, message);
    CopiesCons(table, mine, [order[0]], message);
  }

  lemma VisitsTail(order: seq<SubscriptionId>, ids: set<SubscriptionId>)
    requires Visits(order, ids) && order != []
    ensures Visits(order[1..], ids - {order[0]}) && order[0] in ids && order[0] !in order[1..]
  {
    forall id ensures id in order[1..] <==> id in ids - {order[0]} {
      if id in order && id != order[0] {
        var k :| 0 <= k < |order| && order[k] == id;
        assert order[1..][k - 1] == id;
      }
    }
    assert order[0] in order;
  }

  /** One round of the loop, as the backend sees it. */
  lemma DeliverRound(sys: System, d: DestinationId, id: SubscriptionId)
    requires d in sys.dests && sys.dests[d].fanOut.Some? && id in sys.dests[d].fanOut.value.remaining
    requires sys.dests[d].fanOut.value.remaining[id].subscriberSubId.Some?
    ensures var fanOut, sys' := sys.dests[d].fanOut.value, DeliverOne(sys, d, id);
      var alive := Live(sys, fanOut.remaining[id].subscriber);
      && d in sys'.dests
      && sys'.dests[d].fanOut == Some(FanOut(fanOut.message, fanOut.remaining - {id}, if alive then fanOut.dead else fanOut.dead + {id}))
      && sys'.dests[d] == sys.dests[d].(fanOut := sys'.dests[d].fanOut, bounced := sys'.dests[d].bounced)
      && sys'.sessions == if !alive then sys.sessions
                          else Notify(sys, fanOut.remaining[id].subscriber,
                                      ServerMessage(fanOut.remaining[id].subscriberSubId.value, fanOut.message)).sessions
  {
  }

  lemma InFanOutNext(sys: System, sys': System, d: DestinationId, table: Table<SessionId>, order: seq<SubscriptionId>)
    requires InFanOut(sys, d, table, order) && order != []
    requires d in sys'.dests && sys'.dests[d].fanOut.Some?
    requires sys'.dests[d].fanOut.value.remaining == sys.dests[d].fanOut.value.remaining - {order[0]}
    ensures InFanOut(sys', d, table, order[1..])
  {
    var remaining := sys.dests[d].fanOut.value.remaining;
    VisitsTail(order, remaining.Keys);
    assert (remaining - {order[0]}).Keys == remaining.Keys - {order[0]};
  }

  lemma ReceiveOne(sys: System, sys': System, table: Table<SessionId>, id: SubscriptionId, message: OutboundMessage)
    requires id in table && table[id].subscriberSubId.Some?
    requires sys'.sessions == if !Live(sys, table[id].subscriber) then sys.sessions
                              else Notify(sys, table[id].subscriber, ServerMessage(table[id].subscriberSubId.value, message)).sessions
    ensures AllReceive(sys, sys', table, [id], message)
  {
    forall sid <- sys.sessions
      ensures sys'.sessions[sid]
           == sys.sessions[sid].(inbox := sys.sessions[sid].inbox.PushAll(Copies(table, HeardBy(table, {sid}), [id], message)))
    {
      var inbox := sys.sessions[sid].inbox;
      CopiesCons(table, HeardBy(table, {sid}), [id], message);
      assert inbox.sent + [] == inbox.sent;
    }
  }

  lemma DeliverFirst(sys: System, d: DestinationId, table: Table<SessionId>, order: seq<SubscriptionId>)
    requires InFanOut(sys, d, table, order) && order != []
    ensures Enabled(sys, Deliver(d, order[0]))
    ensures var sys' := DeliverOne(sys, d, order[0]);
      var fanOut := sys.dests[d].fanOut.value;
      && InFanOut(sys', d, table, order[1..])
      && sys'.dests[d].fanOut.value.message == fanOut.message
      && sys'.dests[d].fanOut.value.dead == fanOut.dead + Unreachable(sys, table, [order[0]])
      && AllReceive(sys, sys', table, [order[0]], fanOut.message)
      && sys'.dests[d] == sys.dests[d].(fanOut := sys'.dests[d].fanOut, bounced := sys'.dests[d].bounced)
  {
    var first := order[0];
    VisitsTail(order, sys.dests[d].fanOut.value.remaining.Keys);
    DeliverRound(sys, d, first);
    InFanOutNext(sys, DeliverOne(sys, d, first), d, table, order);
    ReceiveOne(sys, DeliverOne(sys, d, first), table, first, sys.dests[d].fanOut.value.message);
    assert Unreachable(sys, table, [first]) == if Live(sys, table[first].subscriber) then {} else {first};
  }

  lemma UnreachableBoth(sys: System, sys': System, table: Table<SessionId>, order: seq<SubscriptionId>, message: OutboundMessage)
    requires order != [] && AllReceive(sys, sys', table, [order[0]], message)
    ensures Unreachable(sys, table, order) == Unreachable(sys, table, [order[0]]) + Unreachable(sys', table, order[1..])
  {
    assert order == [order[0]] + order[1..];
    assert forall sid :: Live(sys', sid) == Live(sys, sid);
  }

  lemma ReceiveBoth(sys: System, sys1: System, sys2: System, table: Table<SessionId>, order: seq<SubscriptionId>, message: OutboundMessage)
    requires order != [] && AllReceive(sys, sys1, table, [order[0]], message) && AllReceive(sys1, sys2, table, order[1..], message)
    ensures AllReceive(sys, sys2, table, order, message)
  {
    forall sid <- sys.sessions
      ensures sys2.sessions[sid]
           == sys.sessions[sid].(inbox := sys.sessions[sid].inbox.PushAll(Copies(table, HeardBy(table, {sid}), order, message)))
    {
      var mine := HeardBy(table, {sid});
      CopiesFirst(table, mine, order, message);
      PushBoth(sys.sessions[sid].inbox, Copies(table, mine, [order[0]], message), Copies(table, mine, order[1..], message));
    }
  }

  ghost predicate Finished(sys: System, sys': System, d: DestinationId, table: Table<SessionId>, order: seq<SubscriptionId>)
    requires d in sys.dests && sys.dests[d].fanOut.Some?
  {
    var dest := sys.dests[d];
    && AllReceive(sys, sys', table, order, dest.fanOut.value.message)
    && d in sys'.dests && sys'.dests[d].fanOut == None && sys'.dests[d].queue == dest.queue && sys'.dests[d].log == dest.log
    && sys'.dests[d].crashed == dest.crashed
    && sys'.dests[d].table == dest.table - (dest.fanOut.value.dead + Unreachable(sys, table, order))
  }

  lemma FinishedLast(sys: System, d: DestinationId, table: Table<SessionId>)
    requires InFanOut(sys, d, table, [])
    ensures Enabled(sys, FinishSend(d)) && Finished(sys, EndSend(sys, d), d, table, [])
  {
    var remaining := sys.dests[d].fanOut.value.remaining;
    assert remaining == map[] by { assert forall id <- remaining :: id in []; }
    assert Unreachable(sys, table, []) == {};
    assert forall sid <- sys.sessions :: sys.sessions[sid].inbox.sent + [] == sys.sessions[sid].inbox.sent;
  }

  lemma FinishedBoth(sys: System, sys1: System, sys2: System, d: DestinationId, table: Table<SessionId>, order: seq<SubscriptionId>)
    requires InFanOut(sys, d, table, order) && order != []
    requires sys1 == DeliverOne(sys, d, order[0]) && d in sys1.dests && sys1.dests[d].fanOut.Some?
    requires Finished(sys1, sys2, d, table, order[1..])
    ensures Finished(sys, sys2, d, table, order)
  {
    DeliverFirst(sys, d, table, order);
    ReceiveBoth(sys, sys1, sys2, table, order, sys.dests[d].fanOut.value.message);
    UnreachableBoth(sys, sys1, table, order, sys.dests[d].fanOut.value.message);
  }

  lemma {:induction false} RestRuns(sys: System, d: DestinationId, table: Table<SessionId>, order: seq<SubscriptionId>)
    requires InFanOut(sys, d, table, order)
    ensures IsRun(sys, Rest(d, order)) && Finished(sys, After(sys, Rest(d, order)), d, table, order)
    decreases |order|
  {
    var steps := Rest(d, order);
    if order == [] {
      FinishedLast(sys, d, table);
      assert steps[1..] == [];
      assert Apply(sys, steps[0]) == EndSend(sys, d);
    } else {
      var sys1 := DeliverOne(sys, d, order[0]);
      DeliverFirst(sys, d, table, order);
      RestRuns(sys1, d, table, order[1..]);
      assert steps[0] == Deliver(d, order[0]) && steps[1..] == Rest(d, order[1..]);
      assert Apply(sys, steps[0]) == sys1;
      FinishedBoth(sys, sys1, After(sys1, steps[1..]), d, table, order);
    }
  }

  lemma SendStarts(sys: System, d: DestinationId, messageId: MessageId, order: seq<SubscriptionId>)
    requires Takes(sys, d) && NextAction(sys.dests[d]).value.Send?
    requires AllNamed(sys.dests[d].table) && Visits(order, sys.dests[d].table.Keys)
    ensures var sys', dest := StartSend(sys, d, messageId), sys.dests[d];
      var message := Outbound(d, messageId, NextAction(dest).value.message);
      && sys'.sessions == sys.sessions
      && InFanOut(sys', d, dest.table, order)
      && sys'.dests[d] == dest.(queue := dest.queue.Pop(), log := dest.log + [message], fanOut := Some(FanOut(message, dest.table, {})))
  {
  }

  ghost predicate BroadcastDone(sys: System, sys': System, d: DestinationId, messageId: MessageId, order: seq<SubscriptionId>)
    requires Takes(sys, d) && NextAction(sys.dests[d]).value.Send?
  {
    var dest := sys.dests[d];
    var message := Outbound(d, messageId, NextAction(dest).value.message);
    && AllReceive(sys, sys', dest.table, order, message)
    && d in sys'.dests && sys'.dests[d].queue == dest.queue.Pop() && sys'.dests[d].log == dest.log + [message]
    && sys'.dests[d].fanOut == None && sys'.dests[d].crashed == dest.crashed
    && sys'.dests[d].table == map id <- dest.table | Live(sys, dest.table[id].subscriber) :: dest.table[id]
  }

  lemma BroadcastFinishes(sys: System, sys1: System, sys2: System, d: DestinationId, messageId: MessageId, order: seq<SubscriptionId>)
    requires Takes(sys, d) && NextAction(sys.dests[d]).value.Send?
    requires AllNamed(sys.dests[d].table) && Visits(order, sys.dests[d].table.Keys)
    requires sys1 == StartSend(sys, d, messageId) && d in sys1.dests && sys1.dests[d].fanOut.Some?
    requires Finished(sys1, sys2, d, sys.dests[d].table, order)
    ensures BroadcastDone(sys, sys2, d, messageId, order)
  {
    SendStarts(sys, d, messageId, order);
    var table := sys.dests[d].table;
    assert forall id <- table :: id in order;
    assert sys2.dests[d].table == map id <- table | Live(sys, table[id].subscriber) :: table[id];
  }

  /**
   Whatever order the hash map yields, a fan-out that nothing interrupts is a broadcast: it
   gives every session the copies that `InMemDestinationBackend.Send` puts on its channel,
   prunes the subscriptions of dead sessions, and keeps every subscription of a live one.
   */
  lemma FanOutIsBroadcast(sys: System, d: DestinationId, messageId: MessageId, order: seq<SubscriptionId>)
    requires Enabled(sys, TakeSend(d, messageId)) && AllNamed(sys.dests[d].table) && Visits(order, sys.dests[d].table.Keys)
    ensures var steps := [TakeSend(d, messageId)] + Rest(d, order);
      IsRun(sys, steps) && BroadcastDone(sys, After(sys, steps), d, messageId, order)
  {
    var steps := [TakeSend(d, messageId)] + Rest(d, order);
    var sys1 := StartSend(sys, d, messageId);
    SendStarts(sys, d, messageId, order);
    RestRuns(sys1, d, sys.dests[d].table, order);
    assert steps[0] == TakeSend(d, messageId) && steps[1..] == Rest(d, order);
    assert Apply(sys, steps[0]) == sys1;
    BroadcastFinishes(sys, sys1, After(sys1, steps[1..]), d, messageId, order);
  }

  // ---------- the transition system and the loop ----------

  /** The subscribers that cannot receive any more. */
  ghost function GoneSessions(sys: System, table: Table<SessionId>): set<SessionId> {
    set id <- table | !Live(sys, table[id].subscriber) :: table[id].subscriber
  }

  /** The steps that take one action. */
  function StepsFor(d: DestinationId, action: Action, uuid: string, order: seq<SubscriptionId>): seq<Step> {
    match action
    case Subscribe(_, _) => [TakeSubscribe(d, SubscriptionId(uuid))]
    case Unsubscribe(_, _) => [TakeUnsubscribe(d)]
    case Send(_, _) => [TakeSend(d, MessageId(uuid))] + Rest(d, order)
    case Close => [TakeClose(d)]
  }

  /** What one round of `listen_on` leaves behind. */
  ghost predicate RoundDone(sys: System, sys': System, d: DestinationId, action: Action, uuid: string, order: seq<SubscriptionId>)
    requires d in sys.dests
  {
    && d in sys'.dests
    && DestServed(sys.dests[d], sys'.dests[d], ServeOne(sys.dests[d].table, action, uuid, GoneSessions(sys, sys.dests[d].table)))
    && SessionsTold(sys, sys', d, action, uuid, order)
  }

  ghost predicate DestServed(dest: Dest, dest': Dest, served: Served<SessionId>) {
    && dest'.table == served.table
    && dest'.crashed == (dest.crashed || served.panicked)
    && dest'.queue == dest.queue.(received := dest.queue.received + 1, open := !served.stopped)
    && dest'.fanOut == None
  }

  ghost predicate SessionsTold(sys: System, sys': System, d: DestinationId, action: Action, uuid: string, order: seq<SubscriptionId>)
    requires d in sys.dests
  {
    && sys'.sessions.Keys == sys.sessions.Keys
    && forall sid <- sys.sessions ::
         sys'.sessions[sid]
         == sys.sessions[sid].(inbox := sys.sessions[sid].inbox.PushAll(Tells(d, sys.dests[d].table, action, uuid, order, {sid})))
  }

  /** Only one session hears of a callback. */
  lemma CallbackTold(sys: System, sys': System, d: DestinationId, action: Action, uuid: string, order: seq<SubscriptionId>,
                     event: ClientEvent)
    requires d in sys.dests && (action.Subscribe? || action.Unsubscribe?)
    requires sys'.sessions == Notify(sys, action.subscriber, event).sessions
    requires forall sid :: Tells(d, sys.dests[d].table, action, uuid, order, {sid})
                           == if sid == action.subscriber then [event] else []
    ensures SessionsTold(sys, sys', d, action, uuid, order)
  {
    forall sid <- sys.sessions
      ensures sys'.sessions[sid]
           == sys.sessions[sid].(inbox := sys.sessions[sid].inbox.PushAll(Tells(d, sys.dests[d].table, action, uuid, order, {sid})))
    {
      PushNothing(sys.sessions[sid].inbox);
    }
  }

  lemma NothingTold(sys: System, sys': System, d: DestinationId, action: Action, uuid: string, order: seq<SubscriptionId>)
    requires d in sys.dests && sys'.sessions == sys.sessions
    requires forall sid :: Tells(d, sys.dests[d].table, action, uuid, order, {sid}) == []
    ensures SessionsTold(sys, sys', d, action, uuid, order)
  {
    forall sid <- sys.sessions ensures sys.sessions[sid].inbox.PushAll([]) == sys.sessions[sid].inbox {
      PushNothing(sys.sessions[sid].inbox);
    }
  }

  lemma SubscribeRound(sys: System, d: DestinationId, uuid: string, order: seq<SubscriptionId>)
    requires Enabled(sys, TakeSubscribe(d, SubscriptionId(uuid))) && !sys.dests[d].crashed
    ensures RoundDone(sys, AddSubscription(sys, d, SubscriptionId(uuid)), d, NextAction(sys.dests[d]).value, uuid, order)
  {
    var action, sys' := NextAction(sys.dests[d]).value, AddSubscription(sys, d, SubscriptionId(uuid));
    if action.subscriberSubId.None? {
      NothingTold(sys, sys', d, action, uuid, order);
    } else {
      CallbackTold(sys, sys', d, action, uuid, order, Subscribed(d, action.subscriberSubId.value, Ok(SubscriptionId(uuid))));
    }
  }

  lemma UnsubscribeRound(sys: System, d: DestinationId, uuid: string, order: seq<SubscriptionId>)
    requires Enabled(sys, TakeUnsubscribe(d)) && !sys.dests[d].crashed
    ensures RoundDone(sys, RemoveSubscription(sys, d), d, NextAction(sys.dests[d]).value, uuid, order)
  {
    var action, sys' := NextAction(sys.dests[d]).value, RemoveSubscription(sys, d);
    var reported := ReportedId(sys.dests[d].table, action.subId);
    if reported.None? {
      NothingTold(sys, sys', d, action, uuid, order);
    } else {
      CallbackTold(sys, sys', d, action, uuid, order, Unsubscribed(reported.value, Ok(action.subId)));
    }
  }

  lemma CloseRound(sys: System, d: DestinationId, uuid: string, order: seq<SubscriptionId>)
    requires Enabled(sys, TakeClose(d)) && !sys.dests[d].crashed
    ensures RoundDone(sys, Apply(sys, TakeClose(d)), d, NextAction(sys.dests[d]).value, uuid, order)
  {
    NothingTold(sys, Apply(sys, TakeClose(d)), d, NextAction(sys.dests[d]).value, uuid, order);
  }

  lemma SendRound(sys: System, d: DestinationId, uuid: string, order: seq<SubscriptionId>)
    requires Enabled(sys, TakeSend(d, MessageId(uuid))) && AllNamed(sys.dests[d].table) && !sys.dests[d].crashed
    requires Visits(order, sys.dests[d].table.Keys)
    ensures var steps := [TakeSend(d, MessageId(uuid))] + Rest(d, order);
      IsRun(sys, steps) && RoundDone(sys, After(sys, steps), d, NextAction(sys.dests[d]).value, uuid, order)
  {
    FanOutIsBroadcast(sys, d, MessageId(uuid), order);
  }

  /**
   The transition system takes an action as the loop of `InMemDestinationBackend` does:
   with nothing in between, the steps for it change the table, the queue and every
   session's channel as `ServeOne` and `Tells` say, and stop or crash the backend alike.
   */
  lemma StepsServe(sys: System, d: DestinationId, uuid: string, order: seq<SubscriptionId>)
    requires Takes(sys, d) && AllNamed(sys.dests[d].table) && !sys.dests[d].crashed
    requires SubscriptionId(uuid) !in sys.dests[d].issued
    requires forall message <- sys.dests[d].log :: message.messageId != MessageId(uuid)
    requires Visits(order, sys.dests[d].table.Keys)
    ensures var action := NextAction(sys.dests[d]).value;
      var steps := StepsFor(d, action, uuid, order);
      IsRun(sys, steps) && RoundDone(sys, After(sys, steps), d, action, uuid, order)
  {
    var action := NextAction(sys.dests[d]).value;
    var steps := StepsFor(d, action, uuid, order);
    match action
    case Subscribe(_, _) =>
      SubscribeRound(sys, d, uuid, order);
      OneStep(sys, steps[0]);
    case Unsubscribe(_, _) =>
      UnsubscribeRound(sys, d, uuid, order);
      OneStep(sys, steps[0]);
    case Send(_, _) => SendRound(sys, d, uuid, order);
    case Close =>
      CloseRound(sys, d, uuid, order);
      OneStep(sys, steps[0]);
  }

  lemma OneStep(sys: System, step: Step)
    requires Enabled(sys, step)
    ensures IsRun(sys, [step]) && After(sys, [step]) == Apply(sys, step)
  {
    assert [step][1..] == [];
  }
}
