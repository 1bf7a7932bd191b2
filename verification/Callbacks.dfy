/**
 Every action is called back about once, in events: what is on a live session's channel is
 counted against the subscriptions inserted and removed and the actions refused, and these
 against the actions that were handed to the destinations. Whatever ids the clients use.
 */
module Callbacks {
  import opened Types
  import opened Channels
  import opened Actions
  import opened Reactions
  import opened Protocol
  import opened Bookkeeping
  import opened Accounts
  import opened WindDown

  // ---------- what a session should have heard ----------

  predicate IsCallback(event: ClientEvent) {
    event.Subscribed? || event.Unsubscribed?
  }

  /** The destinations that have removed their subscription `u`, made for `id` of the session. */
  ghost function RemovedAt(dests: map<DestinationId, Dest>, sid: SessionId, id: SubscriptionId, u: SubscriptionId): set<DestinationId> {
    set d <- dests | u in dests[d].removed && Names(dests, d, u, sid, id)
  }

  /** How many times the books of the destinations account for a callback to the session. */
  ghost function Booked(dests: map<DestinationId, Dest>, sid: SessionId, event: ClientEvent): nat {
    match event
    case Subscribed(d, id, Ok(u)) => if Names(dests, d, u, sid, id) then 1 else 0
    case Subscribed(d, id, Err(message)) =>
      if d in dests && message == "Subscribe failed" then dests[d].refused[DestinationAction.Subscribe(Some(id), sid)] else 0
    case Unsubscribed(id, Ok(u)) => |RemovedAt(dests, sid, id, u)|
    case _ => 0
  }

  /** How many times the event has been put on the session's channel. */
  function Heard(session: Session, event: ClientEvent): nat {
    multiset(session.inbox.sent)[event]
  }

  ghost predicate AllHeard(sys: System) {
    forall sid: SessionId, event :: Live(sys, sid) && IsCallback(event) ==>
      Heard(sys.sessions[sid], event) == Booked(sys.dests, sid, event)
  }

  /** Only a stopped destination refuses, and a session whose Unsubscribe it refused has panicked. */
  ghost predicate RefusedBy(sys: System, dest: Dest) {
    && (dest.queue.open ==> dest.refused == multiset{})
    && (forall action <- dest.refused ::
          && (action.Subscribe? ==> action.subscriber in sys.sessions)
          && (action.Unsubscribe? ==> action.subscriber in sys.sessions && !Live(sys, action.subscriber)))
  }

  ghost predicate RefusalsKnown(sys: System) {
    forall d <- sys.dests :: RefusedBy(sys, sys.dests[d])
  }

  // ---------- the books ----------

  ghost predicate SameBooks(dest: Dest, dest': Dest) {
    && dest'.issued == dest.issued && dest'.removed == dest.removed
    && forall name, s :: dest'.refused[DestinationAction.Subscribe(name, s)] == dest.refused[DestinationAction.Subscribe(name, s)]
  }

  ghost predicate AllSameBooks(dests: map<DestinationId, Dest>, dests': map<DestinationId, Dest>) {
    && (forall d <- dests :: d in dests' && SameBooks(dests[d], dests'[d]))
    && (forall d <- dests' :: d in dests || dests'[d] == NewDest())
  }

  lemma SameAccounts(dests: map<DestinationId, Dest>, dests': map<DestinationId, Dest>, sid: SessionId, event: ClientEvent)
    requires AllSameBooks(dests, dests')
    ensures Booked(dests', sid, event) == Booked(dests, sid, event)
  {
    if event.Unsubscribed? && event.result.Ok? {
      assert RemovedAt(dests', sid, event.subscription, event.result.value) == RemovedAt(dests, sid, event.subscription, event.result.value);
    }
  }

  lemma PutBooks(dests: map<DestinationId, Dest>, dests': map<DestinationId, Dest>, d: DestinationId)
    requires d in dests && d in dests' && dests' == dests[d := dests'[d]] && SameBooks(dests[d], dests'[d])
    ensures AllSameBooks(dests, dests')
  {
  }

  /** Nobody who is still listening hears a callback. */
  ghost predicate NoCallback(sys: System, sys': System) {
    forall sid: SessionId :: Live(sys', sid) ==>
      Live(sys, sid) && forall event :: IsCallback(event) ==> Heard(sys'.sessions[sid], event) == Heard(sys.sessions[sid], event)
  }

  lemma QuietStep(sys: System, sys': System)
    requires AllHeard(sys) && NoCallback(sys, sys') && AllSameBooks(sys.dests, sys'.dests)
    ensures AllHeard(sys')
  {
    forall sid: SessionId, event | Live(sys', sid) && IsCallback(event)
      ensures Heard(sys'.sessions[sid], event) == Booked(sys'.dests, sid, event)
    {
      SameAccounts(sys.dests, sys'.dests, sid, event);
    }
  }

  lemma PushHeard(session: Session, pushed: ClientEvent, event: ClientEvent)
    requires session.inbox.open
    ensures Heard(session.(inbox := session.inbox.Push(pushed)), event) == Heard(session, event) + if event == pushed then 1 else 0
  {
  }

  /** One session is called back, and the books account for that once more and for nothing else. */
  lemma CallbackStep(sys: System, sys': System, to: SessionId, event: ClientEvent)
    requires AllHeard(sys) && sys'.sessions == Notify(sys, to, event).sessions
    requires forall sid, other :: IsCallback(other) ==>
               Booked(sys'.dests, sid, other) == Booked(sys.dests, sid, other) + if sid == to && other == event then 1 else 0
    ensures AllHeard(sys')
  {
    forall sid: SessionId, other | Live(sys', sid) && IsCallback(other)
      ensures Heard(sys'.sessions[sid], other) == Booked(sys'.dests, sid, other)
    {
      assert Live(sys, sid);
      if sid == to {
        PushHeard(sys.sessions[sid], event, other);
      }
    }
  }

  lemma NotifyQuiet(sys: System, sys': System, to: SessionId, event: ClientEvent)
    requires sys'.sessions == Notify(sys, to, event).sessions && !IsCallback(event)
    ensures NoCallback(sys, sys')
  {
    forall sid: SessionId | Live(sys', sid)
      ensures Live(sys, sid) && forall other :: IsCallback(other) ==> Heard(sys'.sessions[sid], other) == Heard(sys.sessions[sid], other)
    {
      if sid == to && sid in sys.sessions {
        forall other | IsCallback(other) ensures Heard(sys'.sessions[sid], other) == Heard(sys.sessions[sid], other) {
          PushHeard(sys.sessions[sid], event, other);
        }
      }
    }
  }

  // ---------- sessions ----------

  lemma SubmitBooks(dest: Dest, action: Action)
    requires !action.Subscribe?
    ensures SameBooks(dest, Submit(dest, action))
  {
  }

  lemma CallBooks(sys: System, sid: SessionId, call: Call)
    requires sid in sys.sessions
    ensures AllSameBooks(sys.dests, MakeCall(sys, sid, call).dests)
  {
    match call
    case SubscribeTo(_, _) =>
    case SendTo(d, message) =>
      if d in sys.dests {
        SubmitBooks(sys.dests[d], DestinationAction.Send(message, sid));
      }
    case UnsubscribeFrom(d, u) =>
      if d in sys.dests {
        SubmitBooks(sys.dests[d], DestinationAction.Unsubscribe(u, sid));
      }
  }

  lemma SettleQuiet(session: Session, reaction: Reaction, event: ClientEvent)
    requires IsCallback(event)
    ensures Heard(Settle(session, reaction), event) == Heard(session, event)
    ensures Heard(CrashSession(Settle(session, reaction)), event) == Heard(session, event)
  {
  }

  lemma RespondQuiet(sys: System, sid: SessionId, session: Session, reaction: Reaction)
    requires AllHeard(sys) && Live(sys, sid) && session.inbox.sent == sys.sessions[sid].inbox.sent
    ensures AllHeard(Respond(sys, sid, session, reaction))
  {
    var sys' := Respond(sys, sid, session, reaction);
    RespondOwn(sys, sid, session, reaction);
    if reaction.call.Some? {
      CallBooks(sys.(sessions := sys.sessions[sid := Settle(session, reaction)]), sid, reaction.call.value);
    }
    forall other: SessionId | Live(sys', other)
      ensures Live(sys, other)
      ensures forall event :: IsCallback(event) ==> Heard(sys'.sessions[other], event) == Heard(sys.sessions[other], event)
    {
      if other == sid {
        forall event | IsCallback(event) ensures Heard(sys'.sessions[other], event) == Heard(sys.sessions[other], event) {
          SettleQuiet(session, reaction, event);
        }
      }
    }
    QuietStep(sys, sys');
  }

  /** Nobody has an account with the destinations before connecting. */
  lemma NewcomerHasNone(sys: System, sid: SessionId, event: ClientEvent)
    requires Sound(sys) && RefusalsKnown(sys) && sid !in sys.sessions && IsCallback(event)
    ensures Booked(sys.dests, sid, event) == 0
  {
    forall d: DestinationId, u, id ensures !Names(sys.dests, d, u, sid, id) {
      if d in sys.dests && u in sys.dests[d].issued {
        assert DestKnown(sys, sys.dests[d]) && IssueKnown(sys, u, sys.dests[d].issued[u], |sys.dests[d].log|);
      }
    }
    if event.Unsubscribed? && event.result.Ok? {
      assert RemovedAt(sys.dests, sid, event.subscription, event.result.value) == {};
    }
    if event.Subscribed? && event.result.Err? && event.destination in sys.dests {
      var action: Action := DestinationAction.Subscribe(Some(event.subscription), sid);
      assert RefusedBy(sys, sys.dests[event.destination]);
      assert action !in sys.dests[event.destination].refused;
    }
  }

  lemma AcceptHeard(sys: System, sid: SessionId, heartbeat: HeartBeat)
    requires Sound(sys) && AllHeard(sys) && RefusalsKnown(sys) && Enabled(sys, Accept(sid, heartbeat))
    ensures AllHeard(Apply(sys, Accept(sid, heartbeat)))
  {
    var sys' := Apply(sys, Accept(sid, heartbeat));
    forall other: SessionId, event | Live(sys', other) && IsCallback(event)
      ensures Heard(sys'.sessions[other], event) == Booked(sys'.dests, other, event)
    {
      if other == sid {
        NewcomerHasNone(sys, sid, event);
      } else {
        assert Live(sys, other);
      }
    }
  }

  // ---------- backends and tasks ----------

  lemma RunTaskHeard(sys: System, n: nat)
    requires AllHeard(sys) && Enabled(sys, RunTask(n))
    ensures AllHeard(RunSubscribeTask(sys, n))
  {
    var task, sys' := sys.tasks[n], RunSubscribeTask(sys, n);
    var d, dest := task.destination, sys.dests[task.destination];
    RunTaskShape(sys, n);
    if dest.queue.open {
      PutBooks(sys.dests, sys'.dests, d);
      QuietStep(sys, sys');
    } else {
      var event := Subscribed(d, task.clientId, Err("Subscribe failed"));
      forall sid, other | IsCallback(other)
        ensures Booked(sys'.dests, sid, other) == Booked(sys.dests, sid, other) + if sid == task.session && other == event then 1 else 0
      {
        RefusedAccounts(sys.dests, sys'.dests, d, task.clientId, task.session, sid, other);
      }
      CallbackStep(sys, sys', task.session, event);
    }
  }

  lemma RefusedBooks(dest: Dest, action: Action, other: Action)
    requires !dest.queue.open
    ensures var dest' := Submit(dest, action);
      && dest'.refused[other] == dest.refused[other] + (if other == action then 1 else 0)
      && dest'.issued == dest.issued && dest'.removed == dest.removed
  {
  }

  lemma RefusedAccounts(dests: map<DestinationId, Dest>, dests': map<DestinationId, Dest>, d: DestinationId,
                        id: SubscriptionId, to: SessionId, sid: SessionId, event: ClientEvent)
    requires d in dests && !dests[d].queue.open && IsCallback(event)
    requires dests' == dests[d := Submit(dests[d], DestinationAction.Subscribe(Some(id), to))]
    ensures Booked(dests', sid, event)
            == Booked(dests, sid, event) + if sid == to && event == Subscribed(d, id, Err("Subscribe failed")) then 1 else 0
  {
    RefusedBooks(dests[d], DestinationAction.Subscribe(Some(id), to), DestinationAction.Subscribe(Some(event.subscription), sid));
    if event.Unsubscribed? && event.result.Ok? {
      assert RemovedAt(dests', sid, event.subscription, event.result.value) == RemovedAt(dests, sid, event.subscription, event.result.value);
    }
  }

  lemma InsertedAccounts(dests: map<DestinationId, Dest>, dests': map<DestinationId, Dest>, d: DestinationId, u: SubscriptionId,
                         id: SubscriptionId, to: SessionId, sid: SessionId, event: ClientEvent)
    requires d in dests && d in dests' && dests' == dests[d := dests'[d]] && u !in dests[d].issued && u !in dests[d].removed
    requires u in dests'[d].issued && dests'[d].issued == dests[d].issued[u := dests'[d].issued[u]]
    requires dests'[d].issued[u].subscription == Subscription(u, Some(id), to)
    requires dests'[d].removed == dests[d].removed && dests'[d].refused == dests[d].refused && IsCallback(event)
    ensures Booked(dests', sid, event)
            == Booked(dests, sid, event) + if sid == to && event == Subscribed(d, id, Ok(u)) then 1 else 0
  {
    if event.Unsubscribed? && event.result.Ok? {
      assert RemovedAt(dests', sid, event.subscription, event.result.value) == RemovedAt(dests, sid, event.subscription, event.result.value);
    }
  }

  lemma RemovedAccounts(dests: map<DestinationId, Dest>, dests': map<DestinationId, Dest>, d: DestinationId, u: SubscriptionId,
                        id: SubscriptionId, to: SessionId, sid: SessionId, event: ClientEvent)
    requires d in dests && d in dests' && dests' == dests[d := dests'[d]] && u !in dests[d].removed && Names(dests, d, u, to, id)
    requires u in dests'[d].removed && dests'[d].removed == dests[d].removed[u := dests'[d].removed[u]]
    requires dests'[d].issued == dests[d].issued && dests'[d].refused == dests[d].refused && IsCallback(event)
    ensures Booked(dests', sid, event)
            == Booked(dests, sid, event) + if sid == to && event == Unsubscribed(id, Ok(u)) then 1 else 0
  {
    forall e: DestinationId, v, s, name ensures Names(dests', e, v, s, name) == Names(dests, e, v, s, name) {
    }
    if event.Unsubscribed? && event.result.Ok? {
      RemovedGrows(dests, dests', d, u, id, to, sid, event.subscription, event.result.value);
    }
  }

  lemma RemovedGrows(dests: map<DestinationId, Dest>, dests': map<DestinationId, Dest>, d: DestinationId, u: SubscriptionId,
                     id: SubscriptionId, to: SessionId, sid: SessionId, name: SubscriptionId, v: SubscriptionId)
    requires d in dests && d in dests' && dests' == dests[d := dests'[d]] && u !in dests[d].removed && Names(dests, d, u, to, id)
    requires u in dests'[d].removed && dests'[d].removed == dests[d].removed[u := dests'[d].removed[u]]
    requires dests'[d].issued == dests[d].issued
    ensures |RemovedAt(dests', sid, name, v)|
            == |RemovedAt(dests, sid, name, v)| + if sid == to && name == id && v == u then 1 else 0
  {
    var before, after := RemovedAt(dests, sid, name, v), RemovedAt(dests', sid, name, v);
    forall e ensures e in after <==> e in before || (e == d && sid == to && name == id && v == u) {
      if e in dests {
        RemovedOne(dests, dests', d, u, id, to, sid, name, v, e);
      }
    }
    if sid == to && name == id && v == u {
      assert d !in before && after == before + {d};
    } else {
      assert after == before;
    }
  }

  lemma RemovedOne(dests: map<DestinationId, Dest>, dests': map<DestinationId, Dest>, d: DestinationId, u: SubscriptionId,
                   id: SubscriptionId, to: SessionId, sid: SessionId, name: SubscriptionId, v: SubscriptionId, e: DestinationId)
    requires d in dests && d in dests' && dests' == dests[d := dests'[d]] && u !in dests[d].removed && Names(dests, d, u, to, id)
    requires u in dests'[d].removed && dests'[d].removed == dests[d].removed[u := dests'[d].removed[u]]
    requires dests'[d].issued == dests[d].issued && e in dests
    ensures v in dests'[e].removed && Names(dests', e, v, sid, name)
            <==> (v in dests[e].removed && Names(dests, e, v, sid, name)) || (e == d && sid == to && name == id && v == u)
  {
  }

  /** What an insertion does to the books, and whom it calls back. */
  lemma AddBooks(sys: System, d: DestinationId, u: SubscriptionId)
    requires Takes(sys, d) && NextAction(sys.dests[d]).value.Subscribe? && NextAction(sys.dests[d]).value.subscriberSubId.Some?
    ensures var sys', dest, action := AddSubscription(sys, d, u), sys.dests[d], NextAction(sys.dests[d]).value;
      && d in sys'.dests && sys'.dests == sys.dests[d := sys'.dests[d]]
      && sys'.dests[d].issued
         == dest.issued[u := Issue(Subscription(u, action.subscriberSubId, action.subscriber), |dest.log|)]
      && sys'.dests[d].removed == dest.removed && sys'.dests[d].refused == dest.refused
      && sys'.sessions == Notify(sys, action.subscriber, Subscribed(d, action.subscriberSubId.value, Ok(u))).sessions
  {
  }

  lemma AddHeard(sys: System, d: DestinationId, u: SubscriptionId)
    requires Sound(sys) && AllHeard(sys) && Enabled(sys, TakeSubscribe(d, u))
    ensures AllHeard(AddSubscription(sys, d, u))
  {
    var sys', action := AddSubscription(sys, d, u), NextAction(sys.dests[d]).value;
    NamedInQueue(sys, d);
    AddBooks(sys, d, u);
    var id, to := action.subscriberSubId.value, action.subscriber;
    forall sid, event | IsCallback(event)
      ensures Booked(sys'.dests, sid, event)
           == Booked(sys.dests, sid, event) + if sid == to && event == Subscribed(d, id, Ok(u)) then 1 else 0
    {
      InsertedAccounts(sys.dests, sys'.dests, d, u, id, to, sid, event);
    }
    CallbackStep(sys, sys', to, Subscribed(d, id, Ok(u)));
  }

  lemma NamedInQueue(sys: System, d: DestinationId)
    requires Sound(sys) && Takes(sys, d)
    ensures var action, dest := NextAction(sys.dests[d]).value, sys.dests[d];
      && (action.Subscribe? ==> action.subscriberSubId.Some?)
      && (forall u <- dest.removed :: u in dest.issued && u !in dest.table)
      && (action.Unsubscribe? && action.subId in dest.table ==>
            && ReportedId(dest.table, action.subId).Some?
            && Names(sys.dests, d, action.subId, action.subscriber, ReportedId(dest.table, action.subId).value))
      && !dest.crashed
  {
    var action, dest := NextAction(sys.dests[d]).value, sys.dests[d];
    assert DestKnown(sys, dest) && ActionKnown(sys, dest.issued, action);
    if action.Unsubscribe? {
      assert IssueKnown(sys, action.subId, dest.issued[action.subId], |dest.log|);
    }
  }

  lemma RemoveBooks(sys: System, d: DestinationId)
    requires Takes(sys, d) && NextAction(sys.dests[d]).value.Unsubscribe?
    ensures var sys', dest, action := RemoveSubscription(sys, d), sys.dests[d], NextAction(sys.dests[d]).value;
      var reported := ReportedId(dest.table, action.subId);
      && d in sys'.dests && sys'.dests == sys.dests[d := sys'.dests[d]]
      && sys'.dests[d].issued == dest.issued && sys'.dests[d].refused == dest.refused
      && if reported.None? then sys'.sessions == sys.sessions && sys'.dests[d].removed == dest.removed
         else
           && sys'.sessions == Notify(sys, action.subscriber, Unsubscribed(reported.value, Ok(action.subId))).sessions
           && sys'.dests[d].removed == dest.removed[action.subId := |dest.log|]
  {
  }

  lemma RemoveHeard(sys: System, d: DestinationId)
    requires Sound(sys) && AllHeard(sys) && Enabled(sys, TakeUnsubscribe(d))
    ensures AllHeard(RemoveSubscription(sys, d))
  {
    var sys', dest, action := RemoveSubscription(sys, d), sys.dests[d], NextAction(sys.dests[d]).value;
    var reported := ReportedId(dest.table, action.subId);
    NamedInQueue(sys, d);
    RemoveBooks(sys, d);
    if reported.None? {
      PutBooks(sys.dests, sys'.dests, d);
      QuietStep(sys, sys');
    } else {
      forall sid, event | IsCallback(event)
        ensures Booked(sys'.dests, sid, event)
             == Booked(sys.dests, sid, event)
                + if sid == action.subscriber && event == Unsubscribed(reported.value, Ok(action.subId)) then 1 else 0
      {
        RemovedAccounts(sys.dests, sys'.dests, d, action.subId, reported.value, action.subscriber, sid, event);
      }
      CallbackStep(sys, sys', action.subscriber, Unsubscribed(reported.value, Ok(action.subId)));
    }
  }

  lemma StartHeard(sys: System, d: DestinationId, messageId: MessageId)
    requires AllHeard(sys) && Enabled(sys, TakeSend(d, messageId))
    ensures AllHeard(StartSend(sys, d, messageId))
  {
    PutBooks(sys.dests, StartSend(sys, d, messageId).dests, d);
    QuietStep(sys, StartSend(sys, d, messageId));
  }

  lemma EndHeard(sys: System, d: DestinationId)
    requires AllHeard(sys) && Enabled(sys, FinishSend(d))
    ensures AllHeard(EndSend(sys, d))
  {
    PutBooks(sys.dests, EndSend(sys, d).dests, d);
    QuietStep(sys, EndSend(sys, d));
  }

  lemma DeliverHeard(sys: System, d: DestinationId, u: SubscriptionId)
    requires Sound(sys) && AllHeard(sys) && Enabled(sys, Deliver(d, u))
    ensures AllHeard(DeliverOne(sys, d, u))
  {
    NamedInFanOut(sys, d, u);
    DeliverDest(sys, d, u);
    DeliverQuiet(sys, d, u);
    PutBooks(sys.dests, DeliverOne(sys, d, u).dests, d);
    QuietStep(sys, DeliverOne(sys, d, u));
  }

  lemma DeliverQuiet(sys: System, d: DestinationId, u: SubscriptionId)
    requires Enabled(sys, Deliver(d, u)) && sys.dests[d].fanOut.value.remaining[u].subscriberSubId.Some?
    ensures NoCallback(sys, DeliverOne(sys, d, u))
  {
    var subscription, sys' := sys.dests[d].fanOut.value.remaining[u], DeliverOne(sys, d, u);
    if Live(sys, subscription.subscriber) {
      NotifyQuiet(sys, sys', subscription.subscriber,
                  ServerMessage(subscription.subscriberSubId.value, sys.dests[d].fanOut.value.message));
    } else {
      assert sys'.sessions == sys.sessions;
    }
  }

  lemma PlainHeard(sys: System, step: Step)
    requires AllHeard(sys) && Enabled(sys, step)
    requires step.Drop? || step.CreateDestination? || step.CloseDestination? || step.TakeClose?
    ensures AllHeard(Apply(sys, step))
  {
    QuietStep(sys, Apply(sys, step));
  }

  lemma MissHeard(sys: System, sid: SessionId)
    requires AllHeard(sys)
    ensures AllHeard(Notify(sys, sid, ClientEvent.Error("Missed heartbeat")))
  {
    var sys' := Notify(sys, sid, ClientEvent.Error("Missed heartbeat"));
    NotifyQuiet(sys, sys', sid, ClientEvent.Error("Missed heartbeat"));
    QuietStep(sys, sys');
  }

  lemma BackendHeard(sys: System, step: Step)
    requires Sound(sys) && AllHeard(sys) && Enabled(sys, step)
    requires step.TakeSubscribe? || step.TakeUnsubscribe? || step.TakeSend? || step.TakeClose? || step.Deliver? || step.FinishSend?
    ensures AllHeard(Apply(sys, step))
  {
    match step
    case TakeSubscribe(d, u) => AddHeard(sys, d, u);
    case TakeUnsubscribe(d) => RemoveHeard(sys, d);
    case TakeSend(d, messageId) => StartHeard(sys, d, messageId);
    case TakeClose(d) => PlainHeard(sys, step);
    case Deliver(d, u) => DeliverHeard(sys, d, u);
    case FinishSend(d) => EndHeard(sys, d);
  }

  lemma StepHeard(sys: System, step: Step)
    requires Sound(sys) && AllHeard(sys) && RefusalsKnown(sys) && Enabled(sys, step)
    ensures AllHeard(Apply(sys, step))
  {
    match step
    case Accept(sid, heartbeat) => AcceptHeard(sys, sid, heartbeat);
    case FromClient(sid, event) => RespondQuiet(sys, sid, sys.sessions[sid], React(sys.sessions[sid].active, event));
    case FromServer(sid) =>
      var session := sys.sessions[sid];
      RespondQuiet(sys, sid, session.(inbox := session.inbox.Pop()),
                   React(session.active, session.inbox.sent[session.inbox.received]));
    case MissHeartbeat(sid) => MissHeard(sys, sid);
    case RunTask(n) => RunTaskHeard(sys, n);
    case Drop(_) => PlainHeard(sys, step);
    case CreateDestination(_) => PlainHeard(sys, step);
    case CloseDestination(_) => PlainHeard(sys, step);
    case _ => BackendHeard(sys, step);
  }
}
