/**
 Callback conservation: what was handed to a destination for a live session has been
 called back about, once and as an event on the session's channel, or is still queued.
 */
module Conservation {
  import opened Types
  import opened Channels
  import opened Actions
  import opened Reactions
  import opened Protocol
  import opened Bookkeeping
  import opened Accounts
  import opened WindDown
  import opened Pruning
  import opened Callbacks

  // ---------- refusals ----------

  ghost predicate Grows(sys: System, sys': System) {
    forall sid <- sys.sessions :: sid in sys'.sessions && (Live(sys', sid) ==> Live(sys, sid))
  }

  lemma StepGrows(sys: System, step: Step)
    requires Enabled(sys, step)
    ensures Grows(sys, Apply(sys, step))
  {
    forall sid <- sys.sessions ensures sid in Apply(sys, step).sessions && (Live(Apply(sys, step), sid) ==> Live(sys, sid)) {
      if OwnStep(step, sid) {
        OwnStepEffect(sys, step, sid);
      } else {
        OtherStepEffect(sys, step, sid);
      }
    }
  }

  ghost predicate RefusesNoMore(dest: Dest, dest': Dest) {
    dest'.refused == dest.refused && (dest'.queue.open ==> dest.queue.open)
  }

  lemma RefusalsStay(sys: System, sys': System)
    requires RefusalsKnown(sys) && Grows(sys, sys')
    requires forall d <- sys'.dests :: if d in sys.dests then RefusesNoMore(sys.dests[d], sys'.dests[d]) else sys'.dests[d] == NewDest()
    ensures RefusalsKnown(sys')
  {
    forall d <- sys'.dests ensures RefusedBy(sys', sys'.dests[d]) {
      if d in sys.dests {
        assert RefusedBy(sys, sys.dests[d]);
      }
    }
  }

  lemma RefusedHanded(sys: System, sys': System, dest: Dest, action: Action)
    requires RefusedBy(sys, dest) && Grows(sys, sys')
    requires action.Subscribe? ==> action.subscriber in sys'.sessions
    requires action.Unsubscribe? && !dest.queue.open ==> action.subscriber in sys'.sessions && !Live(sys', action.subscriber)
    ensures RefusedBy(sys', Submit(dest, action))
  {
    var dest' := Submit(dest, action);
    if !dest.queue.open {
      forall other <- dest'.refused
        ensures other.Subscribe? ==> other.subscriber in sys'.sessions
        ensures other.Unsubscribe? ==> other.subscriber in sys'.sessions && !Live(sys', other.subscriber)
      {
        assert other == action || other in dest.refused;
      }
    }
  }

  /** One destination is handed an action; if it refuses, the subscriber is known, and for an Unsubscribe no longer lives. */
  lemma HandedRefusals(sys: System, sys': System, d: DestinationId, action: Action)
    requires RefusalsKnown(sys) && Grows(sys, sys') && d in sys.dests
    requires sys'.dests == sys.dests[d := Submit(sys.dests[d], action)]
    requires action.Subscribe? ==> action.subscriber in sys'.sessions
    requires action.Unsubscribe? && !sys.dests[d].queue.open ==> action.subscriber in sys'.sessions && !Live(sys', action.subscriber)
    ensures RefusalsKnown(sys')
  {
    RefusedHanded(sys, sys', sys.dests[d], action);
    forall e <- sys'.dests ensures RefusedBy(sys', sys'.dests[e]) {
      assert RefusedBy(sys, sys.dests[e]);
    }
  }

  lemma RespondRefusals(sys: System, sid: SessionId, session: Session, reaction: Reaction)
    requires RefusalsKnown(sys) && Live(sys, sid) && Grows(sys, Respond(sys, sid, session, reaction))
    ensures RefusalsKnown(Respond(sys, sid, session, reaction))
  {
    var sys' := Respond(sys, sid, session, reaction);
    match reaction.call
    case Some(SendTo(d, message)) =>
      if d in sys.dests {
        HandedRefusals(sys, sys', d, DestinationAction.Send(message, sid));
      } else {
        RefusalsStay(sys, sys');
      }
    case Some(UnsubscribeFrom(d, u)) =>
      if d in sys.dests {
        HandedRefusals(sys, sys', d, DestinationAction.Unsubscribe(u, sid));
      } else {
        RefusalsStay(sys, sys');
      }
    case _ => RefusalsStay(sys, sys');
  }

  lemma RunTaskRefusals(sys: System, n: nat)
    requires Sound(sys) && RefusalsKnown(sys) && Enabled(sys, RunTask(n))
    ensures RefusalsKnown(RunSubscribeTask(sys, n))
  {
    StepGrows(sys, RunTask(n));
    RunTaskShape(sys, n);
    var task := sys.tasks[n];
    HandedRefusals(sys, RunSubscribeTask(sys, n), task.destination, DestinationAction.Subscribe(Some(task.clientId), task.session));
  }

  lemma PutRefusals(sys: System, sys': System, d: DestinationId)
    requires RefusalsKnown(sys) && Grows(sys, sys')
    requires d in sys.dests && d in sys'.dests && sys'.dests == sys.dests[d := sys'.dests[d]]
    requires RefusesNoMore(sys.dests[d], sys'.dests[d])
    ensures RefusalsKnown(sys')
  {
    RefusalsStay(sys, sys');
  }

  lemma AddRefusals(sys: System, d: DestinationId, u: SubscriptionId)
    requires Sound(sys) && RefusalsKnown(sys) && Enabled(sys, TakeSubscribe(d, u))
    requires Grows(sys, AddSubscription(sys, d, u))
    ensures RefusalsKnown(AddSubscription(sys, d, u))
  {
    NamedInQueue(sys, d);
    AddBooks(sys, d, u);
    PutRefusals(sys, AddSubscription(sys, d, u), d);
  }

  lemma RemoveRefusals(sys: System, d: DestinationId)
    requires RefusalsKnown(sys) && Enabled(sys, TakeUnsubscribe(d)) && Grows(sys, RemoveSubscription(sys, d))
    ensures RefusalsKnown(RemoveSubscription(sys, d))
  {
    RemoveBooks(sys, d);
    PutRefusals(sys, RemoveSubscription(sys, d), d);
  }

  lemma DeliverRefusals(sys: System, d: DestinationId, u: SubscriptionId)
    requires Sound(sys) && RefusalsKnown(sys) && Enabled(sys, Deliver(d, u)) && Grows(sys, DeliverOne(sys, d, u))
    ensures RefusalsKnown(DeliverOne(sys, d, u))
  {
    NamedInFanOut(sys, d, u);
    DeliverDest(sys, d, u);
    PutRefusals(sys, DeliverOne(sys, d, u), d);
  }

  lemma PlainRefusals(sys: System, step: Step)
    requires RefusalsKnown(sys) && Enabled(sys, step) && Grows(sys, Apply(sys, step))
    requires step.Accept? || step.Drop? || step.MissHeartbeat? || step.CreateDestination? || step.CloseDestination?
    ensures RefusalsKnown(Apply(sys, step))
  {
    RefusalsStay(sys, Apply(sys, step));
  }

  lemma SendingRefusals(sys: System, step: Step)
    requires RefusalsKnown(sys) && Enabled(sys, step) && Grows(sys, Apply(sys, step))
    requires step.TakeSend? || step.TakeClose? || step.FinishSend?
    ensures RefusalsKnown(Apply(sys, step))
  {
    PutRefusals(sys, Apply(sys, step), step.destination);
  }

  lemma StepRefusals(sys: System, step: Step)
    requires Sound(sys) && RefusalsKnown(sys) && Enabled(sys, step)
    ensures RefusalsKnown(Apply(sys, step))
  {
    StepGrows(sys, step);
    match step
    case FromClient(sid, event) => RespondRefusals(sys, sid, sys.sessions[sid], React(sys.sessions[sid].active, event));
    case FromServer(sid) =>
      var session := sys.sessions[sid];
      RespondRefusals(sys, sid, session.(inbox := session.inbox.Pop()),
                      React(session.active, session.inbox.sent[session.inbox.received]));
    case RunTask(n) => RunTaskRefusals(sys, n);
    case TakeSubscribe(d, u) => AddRefusals(sys, d, u);
    case TakeUnsubscribe(d) => RemoveRefusals(sys, d);
    case Deliver(d, u) => DeliverRefusals(sys, d, u);
    case TakeSend(_, _) => SendingRefusals(sys, step);
    case TakeClose(_) => SendingRefusals(sys, step);
    case FinishSend(_) => SendingRefusals(sys, step);
    case _ => PlainRefusals(sys, step);
  }

  // ---------- the actions taken ----------

  /** The subscriptions that a destination has made for a name of a session. */
  ghost function MadeFor(dest: Dest, name: Option<SubscriptionId>, sid: SessionId): set<SubscriptionId> {
    set u <- dest.issued | dest.issued[u].subscription == Subscription(u, name, sid)
  }

  /** Has the backend panicked on this very Unsubscribe? */
  predicate Choked(dest: Dest, u: SubscriptionId, sid: SessionId) {
    && dest.crashed && 0 < dest.queue.received <= |dest.queue.sent|
    && dest.queue.sent[dest.queue.received - 1] == DestinationAction.Unsubscribe(u, sid)
  }

  /** The Unsubscribes of `u` by a session that have been called back about or panicked at. */
  ghost function Ended(dest: Dest, u: SubscriptionId, sid: SessionId): nat {
    (if u in dest.removed && u in dest.issued && dest.issued[u].subscription.subscriber == sid then 1 else 0)
    + if Choked(dest, u, sid) then 1 else 0
  }

  /** Every Subscribe taken has made a subscription, and every Unsubscribe taken has removed one, or was panicked at. */
  ghost predicate Worked(dest: Dest) {
    && dest.queue.Valid()
    && (forall name, sid :: multiset(dest.queue.Taken())[DestinationAction.Subscribe(name, sid)] == |MadeFor(dest, name, sid)|)
    && (forall u, sid :: multiset(dest.queue.Taken())[DestinationAction.Unsubscribe(u, sid)] == Ended(dest, u, sid))
  }

  ghost predicate AllWorked(sys: System) {
    forall d <- sys.dests :: Worked(sys.dests[d])
  }

  lemma NewWorked()
    ensures Worked(NewDest())
  {
    var dest := NewDest();
    assert dest.queue.Taken() == [];
    forall name, sid ensures MadeFor(dest, name, sid) == {} {
    }
  }

  /** Nothing is taken, and the subscriptions stay. */
  lemma IdleWorked(dest: Dest, dest': Dest)
    requires Worked(dest) && dest'.queue.Valid()
    requires dest'.queue.received == dest.queue.received && |dest.queue.sent| <= |dest'.queue.sent|
    requires dest'.queue.sent[..|dest.queue.sent|] == dest.queue.sent
    requires dest'.issued == dest.issued && dest'.removed == dest.removed && dest'.crashed == dest.crashed
    ensures Worked(dest')
  {
    assert dest'.queue.Taken() == dest'.queue.sent[..|dest.queue.sent|][..dest.queue.received] == dest.queue.Taken();
    var n := dest.queue.received;
    assert 0 < n ==> dest'.queue.sent[n - 1] == dest'.queue.sent[..|dest.queue.sent|][n - 1];
    forall name, sid ensures MadeFor(dest', name, sid) == MadeFor(dest, name, sid) {
    }
  }

  ghost predicate TakesNext(dest: Dest, dest': Dest)
    requires NextAction(dest).Some?
  {
    dest'.queue.sent == dest.queue.sent && dest'.queue.received == dest.queue.received + 1
  }

  lemma TakenNext(dest: Dest, dest': Dest, action: Action)
    requires NextAction(dest).Some? && TakesNext(dest, dest')
    ensures multiset(dest'.queue.Taken())[action] == multiset(dest.queue.Taken())[action] + if action == NextAction(dest).value then 1 else 0
  {
    assert dest'.queue.Taken() == dest.queue.Taken() + [NextAction(dest).value];
  }

  lemma OtherWorked(dest: Dest, dest': Dest)
    requires Worked(dest) && NextAction(dest).Some? && TakesNext(dest, dest') && !dest.crashed && !dest'.crashed
    requires NextAction(dest).value.Send? || NextAction(dest).value.Close?
    requires dest'.issued == dest.issued && dest'.removed == dest.removed
    ensures Worked(dest')
  {
    forall name, sid ensures multiset(dest'.queue.Taken())[DestinationAction.Subscribe(name, sid)] == |MadeFor(dest', name, sid)| {
      TakenNext(dest, dest', DestinationAction.Subscribe(name, sid));
      assert MadeFor(dest', name, sid) == MadeFor(dest, name, sid);
    }
    forall u, sid ensures multiset(dest'.queue.Taken())[DestinationAction.Unsubscribe(u, sid)] == Ended(dest', u, sid) {
      TakenNext(dest, dest', DestinationAction.Unsubscribe(u, sid));
    }
  }

  /** An insertion adds one to what was made for its name. */
  lemma MadeGrows(dest: Dest, dest': Dest, u: SubscriptionId, name: Option<SubscriptionId>, sid: SessionId,
                  other: Option<SubscriptionId>, s: SessionId)
    requires u !in dest.issued && dest'.issued == dest.issued[u := Issue(Subscription(u, name, sid), |dest.log|)]
    ensures |MadeFor(dest', other, s)| == |MadeFor(dest, other, s)| + if other == name && s == sid then 1 else 0
  {
    var before, after := MadeFor(dest, other, s), MadeFor(dest', other, s);
    if other == name && s == sid {
      assert u !in before && after == before + {u};
    } else {
      assert after == before;
    }
  }

  lemma InsertWorked(dest: Dest, dest': Dest, u: SubscriptionId, name: Option<SubscriptionId>, sid: SessionId)
    requires Worked(dest) && NextAction(dest) == Some(DestinationAction.Subscribe(name, sid)) && TakesNext(dest, dest')
    requires !dest.crashed && !dest'.crashed && u !in dest.issued && u !in dest.removed && dest'.removed == dest.removed
    requires dest'.issued == dest.issued[u := Issue(Subscription(u, name, sid), |dest.log|)]
    ensures Worked(dest')
  {
    forall other, s ensures multiset(dest'.queue.Taken())[DestinationAction.Subscribe(other, s)] == |MadeFor(dest', other, s)| {
      TakenNext(dest, dest', DestinationAction.Subscribe(other, s));
      MadeGrows(dest, dest', u, name, sid, other, s);
    }
    forall v, s ensures multiset(dest'.queue.Taken())[DestinationAction.Unsubscribe(v, s)] == Ended(dest', v, s) {
      TakenNext(dest, dest', DestinationAction.Unsubscribe(v, s));
    }
  }

  lemma EndWorked(dest: Dest, dest': Dest, u: SubscriptionId, sid: SessionId)
    requires Worked(dest) && NextAction(dest) == Some(DestinationAction.Unsubscribe(u, sid)) && TakesNext(dest, dest')
    requires !dest.crashed && u in dest.issued && dest.issued[u].subscription.subscriber == sid && dest'.issued == dest.issued
    requires if dest'.crashed then dest'.removed == dest.removed
             else u !in dest.removed && u in dest'.removed && dest'.removed == dest.removed[u := dest'.removed[u]]
    ensures Worked(dest')
  {
    forall name, s ensures multiset(dest'.queue.Taken())[DestinationAction.Subscribe(name, s)] == |MadeFor(dest', name, s)| {
      TakenNext(dest, dest', DestinationAction.Subscribe(name, s));
      assert MadeFor(dest', name, s) == MadeFor(dest, name, s);
    }
    forall v, s ensures multiset(dest'.queue.Taken())[DestinationAction.Unsubscribe(v, s)] == Ended(dest', v, s) {
      TakenNext(dest, dest', DestinationAction.Unsubscribe(v, s));
    }
  }

  lemma PutWorked(sys: System, dests': map<DestinationId, Dest>, d: DestinationId)
    requires AllWorked(sys) && d in dests' && dests' == sys.dests[d := dests'[d]] && Worked(dests'[d])
    ensures forall e <- dests' :: Worked(dests'[e])
  {
  }

  lemma SubmittedWorked(sys: System, dests': map<DestinationId, Dest>, d: DestinationId, action: Action)
    requires AllWorked(sys) && d in sys.dests && dests' == sys.dests[d := Submit(sys.dests[d], action)]
    ensures forall e <- dests' :: Worked(dests'[e])
  {
    IdleWorked(sys.dests[d], dests'[d]);
    PutWorked(sys, dests', d);
  }

  lemma RespondWorked(sys: System, sid: SessionId, session: Session, reaction: Reaction)
    requires AllWorked(sys) && sid in sys.sessions
    ensures AllWorked(Respond(sys, sid, session, reaction))
  {
    var sys' := Respond(sys, sid, session, reaction);
    match reaction.call
    case Some(SendTo(d, message)) =>
      if d in sys.dests {
        SubmittedWorked(sys, sys'.dests, d, DestinationAction.Send(message, sid));
      }
    case Some(UnsubscribeFrom(d, u)) =>
      if d in sys.dests {
        SubmittedWorked(sys, sys'.dests, d, DestinationAction.Unsubscribe(u, sid));
      }
    case _ =>
  }

  lemma AddTakes(sys: System, d: DestinationId, u: SubscriptionId)
    requires Takes(sys, d) && NextAction(sys.dests[d]).value.Subscribe? && NextAction(sys.dests[d]).value.subscriberSubId.Some?
    ensures var dests' := AddSubscription(sys, d, u).dests;
      d in dests' && TakesNext(sys.dests[d], dests'[d]) && dests'[d].crashed == sys.dests[d].crashed
  {
  }

  lemma AddWorked(sys: System, d: DestinationId, u: SubscriptionId)
    requires Sound(sys) && AllWorked(sys) && Enabled(sys, TakeSubscribe(d, u))
    ensures AllWorked(AddSubscription(sys, d, u))
  {
    var dests', action := AddSubscription(sys, d, u).dests, NextAction(sys.dests[d]).value;
    NamedInQueue(sys, d);
    AddBooks(sys, d, u);
    AddTakes(sys, d, u);
    InsertWorked(sys.dests[d], dests'[d], u, action.subscriberSubId, action.subscriber);
    PutWorked(sys, dests', d);
  }

  lemma RemoveTakes(sys: System, d: DestinationId)
    requires Takes(sys, d) && NextAction(sys.dests[d]).value.Unsubscribe?
    ensures var dests', dest := RemoveSubscription(sys, d).dests, sys.dests[d];
      && d in dests' && TakesNext(dest, dests'[d])
      && dests'[d].crashed == (dest.crashed || ReportedId(dest.table, NextAction(dest).value.subId).None?)
  {
  }

  lemma UnsubscribeKnown(sys: System, d: DestinationId)
    requires Sound(sys) && Takes(sys, d) && NextAction(sys.dests[d]).value.Unsubscribe?
    ensures var action, dest := NextAction(sys.dests[d]).value, sys.dests[d];
      && action.subId in dest.issued && dest.issued[action.subId].subscription.subscriber == action.subscriber
      && (action.subId in dest.removed ==> ReportedId(dest.table, action.subId).None?)
  {
    assert DestKnown(sys, sys.dests[d]) && ActionKnown(sys, sys.dests[d].issued, NextAction(sys.dests[d]).value);
  }

  lemma RemoveWorked(sys: System, d: DestinationId)
    requires Sound(sys) && AllWorked(sys) && Enabled(sys, TakeUnsubscribe(d))
    ensures AllWorked(RemoveSubscription(sys, d))
  {
    var dests', action := RemoveSubscription(sys, d).dests, NextAction(sys.dests[d]).value;
    NamedInQueue(sys, d);
    UnsubscribeKnown(sys, d);
    RemoveBooks(sys, d);
    RemoveTakes(sys, d);
    EndWorked(sys.dests[d], dests'[d], action.subId, action.subscriber);
    PutWorked(sys, dests', d);
  }

  lemma SendWorked(sys: System, d: DestinationId, messageId: MessageId)
    requires Sound(sys) && AllWorked(sys) && Enabled(sys, TakeSend(d, messageId))
    ensures AllWorked(StartSend(sys, d, messageId))
  {
    NamedInQueue(sys, d);
    OtherWorked(sys.dests[d], StartSend(sys, d, messageId).dests[d]);
    PutWorked(sys, StartSend(sys, d, messageId).dests, d);
  }

  lemma CloseWorked(sys: System, d: DestinationId)
    requires Sound(sys) && AllWorked(sys) && Enabled(sys, TakeClose(d))
    ensures AllWorked(Apply(sys, TakeClose(d)))
  {
    NamedInQueue(sys, d);
    OtherWorked(sys.dests[d], Apply(sys, TakeClose(d)).dests[d]);
    PutWorked(sys, Apply(sys, TakeClose(d)).dests, d);
  }

  lemma DeliverWorked(sys: System, d: DestinationId, u: SubscriptionId)
    requires Sound(sys) && AllWorked(sys) && Enabled(sys, Deliver(d, u))
    ensures AllWorked(DeliverOne(sys, d, u))
  {
    NamedInFanOut(sys, d, u);
    DeliverDest(sys, d, u);
    SameQueueWorked(sys, DeliverOne(sys, d, u).dests, d);
  }

  lemma SameQueueWorked(sys: System, dests': map<DestinationId, Dest>, d: DestinationId)
    requires AllWorked(sys) && d in sys.dests && d in dests' && dests' == sys.dests[d := dests'[d]]
    requires dests'[d].queue == sys.dests[d].queue && dests'[d].issued == sys.dests[d].issued
    requires dests'[d].removed == sys.dests[d].removed && dests'[d].crashed == sys.dests[d].crashed
    ensures forall e <- dests' :: Worked(dests'[e])
  {
    IdleWorked(sys.dests[d], dests'[d]);
    PutWorked(sys, dests', d);
  }

  lemma EndSendWorked(sys: System, d: DestinationId)
    requires AllWorked(sys) && Enabled(sys, FinishSend(d))
    ensures AllWorked(EndSend(sys, d))
  {
    SameQueueWorked(sys, EndSend(sys, d).dests, d);
  }

  lemma RunTaskWorked(sys: System, n: nat)
    requires AllWorked(sys) && Enabled(sys, RunTask(n))
    ensures AllWorked(RunSubscribeTask(sys, n))
  {
    var task := sys.tasks[n];
    RunTaskShape(sys, n);
    SubmittedWorked(sys, RunSubscribeTask(sys, n).dests, task.destination, DestinationAction.Subscribe(Some(task.clientId), task.session));
  }

  lemma ClosingWorked(sys: System, d: DestinationId)
    requires AllWorked(sys) && Enabled(sys, CloseDestination(d))
    ensures AllWorked(Apply(sys, CloseDestination(d)))
  {
    var sys' := Apply(sys, CloseDestination(d));
    IdleWorked(sys.dests[d], sys'.dests[d]);
    PutWorked(sys, sys'.dests, d);
  }

  lemma EndingWorked(sys: System, step: Step)
    requires Sound(sys) && AllWorked(sys) && Enabled(sys, step)
    requires step.TakeClose? || step.Deliver? || step.FinishSend?
    ensures AllWorked(Apply(sys, step))
  {
    match step
    case TakeClose(d) => CloseWorked(sys, d);
    case Deliver(d, u) => DeliverWorked(sys, d, u);
    case FinishSend(d) => EndSendWorked(sys, d);
  }

  lemma BackendWorked(sys: System, step: Step)
    requires Sound(sys) && AllWorked(sys) && Enabled(sys, step)
    requires step.TakeSubscribe? || step.TakeUnsubscribe? || step.TakeSend? || step.TakeClose? || step.Deliver? || step.FinishSend?
    ensures AllWorked(Apply(sys, step))
  {
    match step
    case TakeSubscribe(d, u) => AddWorked(sys, d, u);
    case TakeUnsubscribe(d) => RemoveWorked(sys, d);
    case TakeSend(d, messageId) => SendWorked(sys, d, messageId);
    case _ => EndingWorked(sys, step);
  }

  lemma StepWorked(sys: System, step: Step)
    requires Sound(sys) && AllWorked(sys) && Enabled(sys, step)
    ensures AllWorked(Apply(sys, step))
  {
    match step
    case FromClient(sid, event) => RespondWorked(sys, sid, sys.sessions[sid], React(sys.sessions[sid].active, event));
    case FromServer(sid) =>
      var session := sys.sessions[sid];
      RespondWorked(sys, sid, session.(inbox := session.inbox.Pop()),
                    React(session.active, session.inbox.sent[session.inbox.received]));
    case CreateDestination(d) =>
      NewWorked();
      PutWorked(sys, Apply(sys, step).dests, d);
    case RunTask(n) => RunTaskWorked(sys, n);
    case CloseDestination(d) => ClosingWorked(sys, d);
    case Accept(_, _) =>
    case Drop(_) =>
    case MissHeartbeat(_) =>
    case _ => BackendWorked(sys, step);
  }

  // ---------- over runs ----------

  ghost predicate Conserved(sys: System) {
    Sound(sys) && Accounted(sys) && AllHeard(sys) && RefusalsKnown(sys) && AllWorked(sys)
  }

  lemma {:induction false} RunConserves(sys: System, steps: seq<Step>)
    requires Conserved(sys) && IsRun(sys, steps)
    ensures Conserved(After(sys, steps))
    decreases |steps|
  {
    if steps != [] {
      StepSound(sys, steps[0]);
      StepAccounted(sys, steps[0]);
      StepHeard(sys, steps[0]);
      StepRefusals(sys, steps[0]);
      StepWorked(sys, steps[0]);
      RunConserves(Apply(sys, steps[0]), steps[1..]);
    }
  }

  lemma ReachableConserved(sys: System)
    requires Reachable(sys)
    ensures Conserved(sys)
  {
    var steps :| IsRun(INITIAL, steps) && After(INITIAL, steps) == sys;
    RunConserves(INITIAL, steps);
  }

  // ---------- theorems ----------

  /** The successful answers among the events to subscriptions of `id` at `d`. */
  function Accepted(events: seq<ClientEvent>, d: DestinationId, id: SubscriptionId): nat {
    if events == [] then 0
    else
      var last := events[|events| - 1];
      Accepted(events[..|events| - 1], d, id)
      + if last.Subscribed? && last.destination == d && last.subscription == id && last.result.Ok? then 1 else 0
  }

  /** And the refusals. */
  function Rejected(events: seq<ClientEvent>, d: DestinationId, id: SubscriptionId): nat {
    if events == [] then 0
    else
      var last := events[|events| - 1];
      Rejected(events[..|events| - 1], d, id)
      + if last.Subscribed? && last.destination == d && last.subscription == id && last.result.Err? then 1 else 0
  }

  lemma {:induction false} AcceptedCounts(events: seq<ClientEvent>, d: DestinationId, id: SubscriptionId, made: set<SubscriptionId>)
    requires forall u :: multiset(events)[Subscribed(d, id, Ok(u))] == if u in made then 1 else 0
    ensures Accepted(events, d, id) == |made|
  {
    if events == [] {
      assert made == {} by {
        forall u ensures u !in made {
          assert multiset(events)[Subscribed(d, id, Ok(u))] == 0;
        }
      }
    } else {
      var init, last := events[..|events| - 1], events[|events| - 1];
      assert events == init + [last];
      if last.Subscribed? && last.destination == d && last.subscription == id && last.result.Ok? {
        var u := last.result.value;
        assert multiset(events)[Subscribed(d, id, Ok(u))] == multiset(init)[Subscribed(d, id, Ok(u))] + 1;
        AcceptedCounts(init, d, id, made - {u});
      } else {
        AcceptedCounts(init, d, id, made);
      }
    }
  }

  lemma {:induction false} RejectedCounts(events: seq<ClientEvent>, d: DestinationId, id: SubscriptionId, message: string)
    requires forall other :: other != message ==> multiset(events)[Subscribed(d, id, Err(other))] == 0
    ensures Rejected(events, d, id) == multiset(events)[Subscribed(d, id, Err(message))]
  {
    if events != [] {
      var init, last := events[..|events| - 1], events[|events| - 1];
      assert events == init + [last];
      RejectedCounts(init, d, id, message);
      assert last.Subscribed? && last.destination == d && last.subscription == id && last.result.Err? ==>
          multiset(events)[Subscribed(d, id, Err(last.result.message))] > 0;
    }
  }

  lemma HeardAsBooked(sys: System, sid: SessionId, event: ClientEvent)
    requires AllHeard(sys) && Live(sys, sid) && IsCallback(event)
    ensures Heard(sys.sessions[sid], event) == Booked(sys.dests, sid, event)
  {
  }

  /**
   What a live session has heard, whatever ids are used: one Subscribed(Ok) for each
   subscription made for it, one Subscribed(Err) for each of its Subscribes refused, one
   Unsubscribed for each of its subscriptions removed, and nothing else of the kind.
   */
  lemma CallbacksHeard(sys: System, sid: SessionId, d: DestinationId, id: SubscriptionId, u: SubscriptionId, message: string)
    requires Reachable(sys) && Live(sys, sid)
    ensures var session := sys.sessions[sid];
      && Heard(session, Subscribed(d, id, Ok(u))) == (if Names(sys.dests, d, u, sid, id) then 1 else 0)
      && Heard(session, Subscribed(d, id, Err(message)))
         == (if d in sys.dests && message == "Subscribe failed"
             then sys.dests[d].refused[DestinationAction.Subscribe(Some(id), sid)] else 0)
      && Heard(session, Unsubscribed(id, Ok(u))) == |RemovedAt(sys.dests, sid, id, u)|
      && Heard(session, Unsubscribed(id, Err(message))) == 0
  {
    ReachableConserved(sys);
    EventsHeard(sys, sid, d, id, u, message);
  }

  lemma EventsHeard(sys: System, sid: SessionId, d: DestinationId, id: SubscriptionId, u: SubscriptionId, message: string)
    requires AllHeard(sys) && Live(sys, sid)
    ensures var session := sys.sessions[sid];
      && Heard(session, Subscribed(d, id, Ok(u))) == (if Names(sys.dests, d, u, sid, id) then 1 else 0)
      && Heard(session, Subscribed(d, id, Err(message)))
         == (if d in sys.dests && message == "Subscribe failed"
             then sys.dests[d].refused[DestinationAction.Subscribe(Some(id), sid)] else 0)
      && Heard(session, Unsubscribed(id, Ok(u))) == |RemovedAt(sys.dests, sid, id, u)|
      && Heard(session, Unsubscribed(id, Err(message))) == 0
  {
    HeardAsBooked(sys, sid, Subscribed(d, id, Ok(u)));
    HeardAsBooked(sys, sid, Subscribed(d, id, Err(message)));
    HeardAsBooked(sys, sid, Unsubscribed(id, Ok(u)));
    HeardAsBooked(sys, sid, Unsubscribed(id, Err(message)));
  }

  lemma SplitQueue(queue: Chan<Action>, action: Action)
    requires queue.Valid()
    ensures multiset(queue.sent)[action] == multiset(queue.Taken())[action] + multiset(queue.Queue())[action]
  {
    assert queue.sent == queue.Taken() + queue.Queue();
  }

  /** What a destination was handed was taken, refused, or is still on its queue. */
  lemma HandedSplit(dest: Dest, action: Action)
    requires dest.queue.Valid() && Handed(dest) && !action.Close?
    ensures dest.submitted[action]
            == multiset(dest.queue.Taken())[action] + dest.refused[action] + multiset(dest.queue.Queue())[action]
  {
    SplitQueue(dest.queue, action);
  }

  lemma AnswersCounted(sys: System, sid: SessionId, d: DestinationId, id: SubscriptionId)
    requires AllHeard(sys) && Live(sys, sid) && d in sys.dests
    ensures var dest, events := sys.dests[d], sys.sessions[sid].inbox.sent;
      && Accepted(events, d, id) == |MadeFor(dest, Some(id), sid)|
      && Rejected(events, d, id) == dest.refused[DestinationAction.Subscribe(Some(id), sid)]
  {
    var dest, events := sys.dests[d], sys.sessions[sid].inbox.sent;
    forall u ensures multiset(events)[Subscribed(d, id, Ok(u))] == if u in MadeFor(dest, Some(id), sid) then 1 else 0 {
      HeardAsBooked(sys, sid, Subscribed(d, id, Ok(u)));
    }
    AcceptedCounts(events, d, id, MadeFor(dest, Some(id), sid));
    forall message
      ensures multiset(events)[Subscribed(d, id, Err(message))]
           == if message == "Subscribe failed" then dest.refused[DestinationAction.Subscribe(Some(id), sid)] else 0
    {
      HeardAsBooked(sys, sid, Subscribed(d, id, Err(message)));
    }
    RejectedCounts(events, d, id, "Subscribe failed");
  }

  ghost predicate SubscribesConserved(sys: System, sid: SessionId, d: DestinationId, id: SubscriptionId)
    requires sid in sys.sessions && d in sys.dests
  {
    var dest, events := sys.dests[d], sys.sessions[sid].inbox.sent;
    var action: Action := DestinationAction.Subscribe(Some(id), sid);
    && dest.queue.Valid()
    && dest.submitted[action] == Accepted(events, d, id) + Rejected(events, d, id) + multiset(dest.queue.Queue())[action]
    && multiset(dest.queue.Taken())[action] == Accepted(events, d, id)
    && dest.refused[action] == Rejected(events, d, id)
    && (dest.queue.open ==> Rejected(events, d, id) == 0)
  }

  lemma WorkedAt(sys: System, d: DestinationId)
    requires Accounted(sys) && AllWorked(sys) && d in sys.dests
    ensures Worked(sys.dests[d]) && Handed(sys.dests[d])
  {
    assert DestAccounted(d, sys.dests[d]);
  }

  lemma RefusedWhileOpen(sys: System, d: DestinationId)
    requires RefusalsKnown(sys) && d in sys.dests && sys.dests[d].queue.open
    ensures sys.dests[d].refused == multiset{}
  {
  }

  /**
   Callback conservation for Subscribes: those handed to a destination for a live session
   are its successful answers, its refusals and those still on the queue. Those taken have
   each had one success, those refused one failure, and only a stopped destination refuses.
   */
  lemma CallbackConservation(sys: System, sid: SessionId, d: DestinationId, id: SubscriptionId)
    requires Reachable(sys) && Live(sys, sid) && d in sys.dests
    ensures SubscribesConserved(sys, sid, d, id)
  {
    ReachableConserved(sys);
    WorkedAt(sys, d);
    AnswersCounted(sys, sid, d, id);
    HandedSplit(sys.dests[d], DestinationAction.Subscribe(Some(id), sid));
    if sys.dests[d].queue.open {
      RefusedWhileOpen(sys, d);
    }
  }

  lemma NoUnsubscribeRefused(sys: System, sid: SessionId, d: DestinationId, u: SubscriptionId)
    requires RefusalsKnown(sys) && Live(sys, sid) && d in sys.dests
    ensures sys.dests[d].refused[DestinationAction.Unsubscribe(u, sid)] == 0
  {
    var action: Action := DestinationAction.Unsubscribe(u, sid);
    assert action !in sys.dests[d].refused;
  }

  /**
   And for Unsubscribes: those a live session has handed to a destination are the one
   called back about, if its subscription has been removed, the one that stopped the
   backend, if it panicked at it, and those still on the queue. None has been refused, for
   that panics the session.
   */
  lemma UnsubscribeConservation(sys: System, sid: SessionId, d: DestinationId, id: SubscriptionId, u: SubscriptionId)
    requires Reachable(sys) && Live(sys, sid) && Names(sys.dests, d, u, sid, id)
    ensures var dest := sys.dests[d];
      var action: Action := DestinationAction.Unsubscribe(u, sid);
      && dest.queue.Valid() && dest.refused[action] == 0
      && dest.submitted[action]
         == (if d in RemovedAt(sys.dests, sid, id, u) then 1 else 0) + (if Choked(dest, u, sid) then 1 else 0)
            + multiset(dest.queue.Queue())[action]
  {
    ReachableConserved(sys);
    WorkedAt(sys, d);
    HandedSplit(sys.dests[d], DestinationAction.Unsubscribe(u, sid));
    NoUnsubscribeRefused(sys, sid, d, u);
  }

  lemma RunningUncrashed(sys: System, d: DestinationId)
    requires Reachable(sys) && d in sys.dests && sys.dests[d].queue.open
    ensures !sys.dests[d].crashed
  {
    ReachableSound(sys);
    assert DestKnown(sys, sys.dests[d]);
  }

  /** While a backend runs and its queue is empty, every Subscribe and Unsubscribe of a live session has had its one callback. */
  lemma NothingStranded(sys: System, sid: SessionId, d: DestinationId, id: SubscriptionId, u: SubscriptionId)
    requires Reachable(sys) && Live(sys, sid) && d in sys.dests
    requires sys.dests[d].queue.open && sys.dests[d].queue.received == |sys.dests[d].queue.sent|
    ensures sys.dests[d].submitted[DestinationAction.Subscribe(Some(id), sid)] == Accepted(sys.sessions[sid].inbox.sent, d, id)
    ensures Names(sys.dests, d, u, sid, id) ==>
              sys.dests[d].submitted[DestinationAction.Unsubscribe(u, sid)]
              == if d in RemovedAt(sys.dests, sid, id, u) then 1 else 0
  {
    CallbackConservation(sys, sid, d, id);
    EmptyQueue(sys.dests[d].queue);
    RunningUncrashed(sys, d);
    if Names(sys.dests, d, u, sid, id) {
      UnsubscribeConservation(sys, sid, d, id, u);
    }
  }

  lemma EmptyQueue(queue: Chan<Action>)
    requires queue.Valid() && queue.received == |queue.sent|
    ensures queue.Queue() == []
  {
  }
}
