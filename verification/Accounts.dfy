/**
 What has become of the actions handed to a destination, in every run: each was queued or
 refused, and each Send taken has been broadcast, in order and with its own body.
 */
module Accounts {
  import opened Types
  import opened Channels
  import opened Actions
  import opened Reactions
  import opened Protocol
  import opened Bookkeeping

  /** The messages of the Sends among the actions, in order. */
  function SendsIn(actions: seq<Action>): seq<InboundMessage> {
    if actions == [] then []
    else
      var last := actions[|actions| - 1];
      SendsIn(actions[..|actions| - 1]) + if last.Send? then [last.message] else []
  }

  lemma Snoc(actions: seq<Action>, action: Action)
    ensures SendsIn(actions + [action]) == SendsIn(actions) + if action.Send? then [action.message] else []
  {
    assert (actions + [action])[..|actions|] == actions;
  }

  /** One broadcast for each of the messages sent, with its body, under an id of its own. */
  ghost predicate Broadcasts(d: DestinationId, log: seq<OutboundMessage>, sends: seq<InboundMessage>) {
    && |log| == |sends|
    && (forall i :: 0 <= i < |log| ==> log[i].destination == d && log[i].body == sends[i].body)
    && (forall i, j :: 0 <= i < j < |log| ==> log[i].messageId != log[j].messageId)
  }

  ghost predicate LogKept(d: DestinationId, dest: Dest) {
    dest.queue.Valid() && Broadcasts(d, dest.log, SendsIn(dest.queue.Taken()))
  }

  /** Every action handed to the destination but a Close was queued or refused. */
  ghost predicate Handed(dest: Dest) {
    forall action: Action :: !action.Close? ==>
      dest.submitted[action] == multiset(dest.queue.sent)[action] + dest.refused[action]
  }

  ghost predicate DestAccounted(d: DestinationId, dest: Dest) {
    LogKept(d, dest) && Handed(dest)
  }

  ghost predicate Accounted(sys: System) {
    forall d <- sys.dests :: DestAccounted(d, sys.dests[d])
  }

  // ---------- preservation ----------

  lemma PushTaken(queue: Chan<Action>, action: Action)
    requires queue.Valid()
    ensures queue.Push(action).Valid() && queue.Push(action).Taken() == queue.Taken()
  {
  }

  lemma PushAccounted(d: DestinationId, dest: Dest, action: Action, dest': Dest)
    requires DestAccounted(d, dest)
    requires if action.Close? then dest' == dest.(queue := dest.queue.Push(action)) else dest' == Submit(dest, action)
    ensures DestAccounted(d, dest')
  {
    PushTaken(dest.queue, action);
  }

  lemma TakenSnoc(dest: Dest, dest': Dest)
    requires dest.queue.received < |dest.queue.sent|
    requires dest'.queue.sent == dest.queue.sent && dest'.queue.received == dest.queue.received + 1
    ensures dest'.queue.Taken() == dest.queue.Taken() + [dest.queue.sent[dest.queue.received]]
  {
  }

  lemma TakeAccounted(d: DestinationId, dest: Dest, dest': Dest)
    requires DestAccounted(d, dest) && NextAction(dest).Some? && !NextAction(dest).value.Send?
    requires dest'.queue.sent == dest.queue.sent && dest'.queue.received == dest.queue.received + 1
    requires dest'.log == dest.log && dest'.submitted == dest.submitted && dest'.refused == dest.refused
    ensures DestAccounted(d, dest')
  {
    TakenSnoc(dest, dest');
    Snoc(dest.queue.Taken(), NextAction(dest).value);
  }

  lemma SendAccounted(d: DestinationId, dest: Dest, messageId: MessageId, dest': Dest)
    requires DestAccounted(d, dest) && NextAction(dest).Some? && NextAction(dest).value.Send?
    requires forall m <- dest.log :: m.messageId != messageId
    requires dest'.queue == dest.queue.Pop()
    requires dest'.log == dest.log + [Outbound(d, messageId, NextAction(dest).value.message)]
    requires dest'.submitted == dest.submitted && dest'.refused == dest.refused
    ensures DestAccounted(d, dest')
  {
    TakenSnoc(dest, dest');
    Snoc(dest.queue.Taken(), NextAction(dest).value);
  }

  lemma SameAccounted(d: DestinationId, dest: Dest, dest': Dest)
    requires DestAccounted(d, dest) && dest'.queue == dest.queue && dest'.log == dest.log
    requires dest'.submitted == dest.submitted && dest'.refused == dest.refused
    ensures DestAccounted(d, dest')
  {
  }

  lemma PutAccounted(sys: System, sys': System, d: DestinationId)
    requires Accounted(sys) && d in sys'.dests && sys'.dests == sys.dests[d := sys'.dests[d]]
    requires DestAccounted(d, sys'.dests[d])
    ensures Accounted(sys')
  {
  }

  lemma SubmitAccounted(sys: System, d: DestinationId, action: Action)
    requires Accounted(sys) && d in sys.dests && !action.Close?
    ensures Accounted(Put(sys, d, Submit(sys.dests[d], action)))
  {
    PushAccounted(d, sys.dests[d], action, Submit(sys.dests[d], action));
    PutAccounted(sys, Put(sys, d, Submit(sys.dests[d], action)), d);
  }

  lemma CallAccounted(sys: System, sid: SessionId, call: Call)
    requires Accounted(sys) && sid in sys.sessions
    ensures Accounted(MakeCall(sys, sid, call))
  {
    match call
    case SubscribeTo(_, _) =>
    case SendTo(d, message) =>
      if d in sys.dests {
        SubmitAccounted(sys, d, DestinationAction.Send(message, sid));
      }
    case UnsubscribeFrom(d, u) =>
      if d in sys.dests {
        SubmitAccounted(sys, d, DestinationAction.Unsubscribe(u, sid));
      }
  }

  lemma RespondAccounted(sys: System, sid: SessionId, session: Session, reaction: Reaction)
    requires Accounted(sys) && sid in sys.sessions
    ensures Accounted(Respond(sys, sid, session, reaction))
  {
    if reaction.call.Some? {
      CallAccounted(sys.(sessions := sys.sessions[sid := Settle(session, reaction)]), sid, reaction.call.value);
    }
  }

  lemma HandleAccounted(sys: System, sid: SessionId, session: Session, event: ClientEvent)
    requires Accounted(sys) && sid in sys.sessions
    ensures Accounted(Handle(sys, sid, session, event))
  {
    RespondAccounted(sys, sid, session, React(session.active, event));
  }

  lemma RunTaskAccounted(sys: System, n: nat)
    requires Accounted(sys) && n in sys.tasks && sys.tasks[n].destination in sys.dests
    ensures Accounted(RunSubscribeTask(sys, n))
  {
    var task := sys.tasks[n];
    RunTaskShape(sys, n);
    SubmittedAccounted(sys, RunSubscribeTask(sys, n).dests, task.destination,
                       DestinationAction.Subscribe(Some(task.clientId), task.session));
  }

  lemma SubmittedAccounted(sys: System, dests': map<DestinationId, Dest>, d: DestinationId, action: Action)
    requires Accounted(sys) && d in sys.dests && !action.Close?
    requires dests' == sys.dests[d := Submit(sys.dests[d], action)]
    ensures forall e <- dests' :: DestAccounted(e, dests'[e])
  {
    PushAccounted(d, sys.dests[d], action, Submit(sys.dests[d], action));
  }

  /** One destination changes, and takes an action with it. */
  ghost predicate TakesOne(dest: Dest, dest': Dest)
    requires NextAction(dest).Some?
  {
    && dest'.queue.sent == dest.queue.sent && dest'.queue.received == dest.queue.received + 1
    && dest'.log == dest.log && dest'.submitted == dest.submitted && dest'.refused == dest.refused
  }

  lemma TakesOneAccounted(sys: System, dests': map<DestinationId, Dest>, d: DestinationId)
    requires Accounted(sys) && Takes(sys, d) && !NextAction(sys.dests[d]).value.Send? && !NextAction(sys.dests[d]).value.Close?
    requires d in dests' && dests' == sys.dests[d := dests'[d]] && TakesOne(sys.dests[d], dests'[d])
    ensures forall e <- dests' :: DestAccounted(e, dests'[e])
  {
    TakeAccounted(d, sys.dests[d], dests'[d]);
  }

  lemma AddShape(sys: System, d: DestinationId, u: SubscriptionId)
    requires Takes(sys, d) && NextAction(sys.dests[d]).value.Subscribe?
    ensures var dests' := AddSubscription(sys, d, u).dests;
      d in dests' && dests' == sys.dests[d := dests'[d]] && TakesOne(sys.dests[d], dests'[d])
  {
  }

  lemma RemoveShape(sys: System, d: DestinationId)
    requires Takes(sys, d) && NextAction(sys.dests[d]).value.Unsubscribe?
    ensures var dests' := RemoveSubscription(sys, d).dests;
      d in dests' && dests' == sys.dests[d := dests'[d]] && TakesOne(sys.dests[d], dests'[d])
  {
  }

  lemma CloseAccounted(sys: System, d: DestinationId, dest': Dest)
    requires Accounted(sys) && Takes(sys, d) && NextAction(sys.dests[d]).value.Close?
    requires dest' == sys.dests[d].(queue := sys.dests[d].queue.Pop().Shut())
    ensures Accounted(Put(sys, d, dest'))
  {
    TakeAccounted(d, sys.dests[d], dest');
    PutAccounted(sys, Put(sys, d, dest'), d);
  }

  lemma StartAccounted(sys: System, d: DestinationId, messageId: MessageId)
    requires Accounted(sys) && Takes(sys, d) && NextAction(sys.dests[d]).value.Send?
    requires forall m <- sys.dests[d].log :: m.messageId != messageId
    ensures Accounted(StartSend(sys, d, messageId))
  {
    SendAccounted(d, sys.dests[d], messageId, StartSend(sys, d, messageId).dests[d]);
    PutAccounted(sys, StartSend(sys, d, messageId), d);
  }

  lemma FinishAccounted(sys: System, d: DestinationId)
    requires Accounted(sys) && d in sys.dests && sys.dests[d].fanOut.Some?
    ensures Accounted(EndSend(sys, d))
  {
    SameAccounted(d, sys.dests[d], EndSend(sys, d).dests[d]);
    PutAccounted(sys, EndSend(sys, d), d);
  }

  lemma DeliverAccounted(sys: System, d: DestinationId, u: SubscriptionId)
    requires Accounted(sys) && d in sys.dests && sys.dests[d].fanOut.Some? && u in sys.dests[d].fanOut.value.remaining
    requires sys.dests[d].fanOut.value.remaining[u].subscriberSubId.Some?
    ensures Accounted(DeliverOne(sys, d, u))
  {
    DeliverShape(sys, d, u, sys.dests[d], DeliverOne(sys, d, u).dests[d]);
    SameAccountedPut(sys, DeliverOne(sys, d, u).dests, d);
  }

  lemma SameAccountedPut(sys: System, dests': map<DestinationId, Dest>, d: DestinationId)
    requires Accounted(sys) && d in sys.dests && d in dests' && dests' == sys.dests[d := dests'[d]]
    requires dests'[d].queue == sys.dests[d].queue && dests'[d].log == sys.dests[d].log
    requires dests'[d].submitted == sys.dests[d].submitted && dests'[d].refused == sys.dests[d].refused
    ensures forall e <- dests' :: DestAccounted(e, dests'[e])
  {
    SameAccounted(d, sys.dests[d], dests'[d]);
  }

  lemma AddAccounted(sys: System, d: DestinationId, u: SubscriptionId)
    requires Accounted(sys) && Takes(sys, d) && NextAction(sys.dests[d]).value.Subscribe?
    ensures Accounted(AddSubscription(sys, d, u))
  {
    AddShape(sys, d, u);
    TakesOneAccounted(sys, AddSubscription(sys, d, u).dests, d);
  }

  lemma RemoveAccounted(sys: System, d: DestinationId)
    requires Accounted(sys) && Takes(sys, d) && NextAction(sys.dests[d]).value.Unsubscribe?
    ensures Accounted(RemoveSubscription(sys, d))
  {
    RemoveShape(sys, d);
    TakesOneAccounted(sys, RemoveSubscription(sys, d).dests, d);
  }

  lemma CloseSubmitted(sys: System, d: DestinationId, dest': Dest)
    requires Accounted(sys) && d in sys.dests && dest' == sys.dests[d].(queue := sys.dests[d].queue.Push(DestinationAction.Close))
    ensures Accounted(Put(sys, d, dest'))
  {
    PushAccounted(d, sys.dests[d], DestinationAction.Close, dest');
    PutAccounted(sys, Put(sys, d, dest'), d);
  }

  lemma EndingAccounted(sys: System, step: Step)
    requires Sound(sys) && Accounted(sys) && Enabled(sys, step)
    requires step.TakeClose? || step.Deliver? || step.FinishSend?
    ensures Accounted(Apply(sys, step))
  {
    match step
    case TakeClose(d) => CloseAccounted(sys, d, Apply(sys, step).dests[d]);
    case Deliver(d, u) =>
      NamedInFanOut(sys, d, u);
      DeliverAccounted(sys, d, u);
    case FinishSend(d) => FinishAccounted(sys, d);
  }

  lemma BackendAccounted(sys: System, step: Step)
    requires Sound(sys) && Accounted(sys) && Enabled(sys, step)
    requires step.TakeSubscribe? || step.TakeUnsubscribe? || step.TakeSend? || step.TakeClose? || step.Deliver? || step.FinishSend?
    ensures Accounted(Apply(sys, step))
  {
    match step
    case TakeSubscribe(d, u) => AddAccounted(sys, d, u);
    case TakeUnsubscribe(d) => RemoveAccounted(sys, d);
    case TakeSend(d, messageId) => StartAccounted(sys, d, messageId);
    case _ => EndingAccounted(sys, step);
  }

  lemma StepAccounted(sys: System, step: Step)
    requires Sound(sys) && Accounted(sys) && Enabled(sys, step)
    ensures Accounted(Apply(sys, step))
  {
    match step
    case Accept(_, _) =>
    case FromClient(sid, event) => HandleAccounted(sys, sid, sys.sessions[sid], event);
    case FromServer(sid) =>
      var session := sys.sessions[sid];
      HandleAccounted(sys, sid, session.(inbox := session.inbox.Pop()), session.inbox.sent[session.inbox.received]);
    case Drop(_) =>
    case MissHeartbeat(_) =>
    case CreateDestination(d) => PutAccounted(sys, Put(sys, d, NewDest()), d);
    case RunTask(n) => RunTaskAccounted(sys, n);
    case CloseDestination(d) => CloseSubmitted(sys, d, Apply(sys, step).dests[d]);
    case _ => BackendAccounted(sys, step);
  }

  lemma {:induction false} RunSound(sys: System, steps: seq<Step>)
    requires Sound(sys) && Accounted(sys) && IsRun(sys, steps)
    ensures Sound(After(sys, steps)) && Accounted(After(sys, steps))
    decreases |steps|
  {
    if steps != [] {
      StepSound(sys, steps[0]);
      StepAccounted(sys, steps[0]);
      RunSound(Apply(sys, steps[0]), steps[1..]);
    }
  }

  lemma ReachableSound(sys: System)
    requires Reachable(sys)
    ensures Sound(sys) && Accounted(sys)
  {
    var steps :| IsRun(INITIAL, steps) && After(INITIAL, steps) == sys;
    RunSound(INITIAL, steps);
  }
}
