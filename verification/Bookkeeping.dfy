/**
 What every step keeps, whatever the clients do: events, actions and table entries name
 only subscriptions that exist and belong to the session concerned.
 */
module Bookkeeping {
  import opened Types
  import opened Channels
  import opened Actions
  import opened Reactions
  import opened Protocol

  /** Destination `d` once inserted subscription `id` for `clientId` of session `sid`. */
  ghost predicate Names(dests: map<DestinationId, Dest>, d: DestinationId, id: SubscriptionId,
                        sid: SessionId, clientId: SubscriptionId)
  {
    d in dests && id in dests[d].issued && dests[d].issued[id].subscription == Subscription(id, Some(clientId), sid)
  }

  ghost predicate EventKnown(dests: map<DestinationId, Dest>, sid: SessionId, event: ClientEvent) {
    && (event.Subscribed? && event.result.Ok? ==>
          Names(dests, event.destination, event.result.value, sid, event.subscription))
    && (event.Unsubscribed? ==> event.result.Ok?)
  }

  ghost predicate EntryKnown(dests: map<DestinationId, Dest>, sid: SessionId, active: ActiveTable, clientId: SubscriptionId)
    requires clientId in active
  {
    Names(dests, active[clientId].0, active[clientId].1, sid, clientId)
  }

  ghost predicate SessionKnown(dests: map<DestinationId, Dest>, sid: SessionId, session: Session) {
    && session.inbox.Valid()
    && (forall event <- session.inbox.sent :: Internal(event) && EventKnown(dests, sid, event))
    && (forall clientId <- session.active :: EntryKnown(dests, sid, session.active, clientId))
  }

  ghost predicate ActionKnown(sys: System, issued: map<SubscriptionId, Issue>, action: Action) {
    match action
    case Subscribe(id, sid) => id.Some? && sid in sys.sessions
    case Unsubscribe(id, sid) => id in issued && issued[id].subscription.subscriber == sid
    case Send(_, _) => true
    case Close => true
  }

  ghost predicate IssueKnown(sys: System, id: SubscriptionId, issue: Issue, length: nat) {
    && issue.subscription.id == id
    && issue.subscription.subscriberSubId.Some?
    && issue.subscription.subscriber in sys.sessions
    && issue.from <= length
  }

  /** Has the backend taken an Unsubscribe of `id`? */
  ghost predicate Requested(dest: Dest, id: SubscriptionId) {
    exists i :: 0 <= i < dest.queue.received && i < |dest.queue.sent|
                && dest.queue.sent[i].Unsubscribe? && dest.queue.sent[i].subId == id
  }

  ghost predicate Departed(dest: Dest, id: SubscriptionId) {
    id in dest.removed || id in dest.bounced
  }

  /** What a destination's queue holds, and how the history of removals agrees with it. */
  ghost predicate QueueKnown(sys: System, dest: Dest) {
    && dest.queue.Valid()
    && (forall action <- dest.queue.sent :: ActionKnown(sys, dest.issued, action))
    && (dest.crashed ==> !dest.queue.open)
    && (dest.fanOut.Some? ==>
          dest.queue.open && 0 < dest.queue.received && dest.queue.sent[dest.queue.received - 1].Send?)
    && (!dest.crashed ==> forall id <- dest.issued :: id in dest.removed <==> Requested(dest, id))
  }

  /** How a destination's table agrees with its history. */
  ghost predicate TableKnown(sys: System, dest: Dest) {
    && (forall id <- dest.issued :: IssueKnown(sys, id, dest.issued[id], |dest.log|))
    && (forall id <- dest.table :: id in dest.issued && dest.table[id] == dest.issued[id].subscription)
    && (forall id <- dest.removed ::
          id in dest.issued && id !in dest.table && dest.issued[id].from <= dest.removed[id] <= |dest.log|)
    && (forall id <- dest.issued :: id in dest.table || Departed(dest, id))
    && (forall id <- dest.bounced :: id in dest.issued && !Live(sys, dest.issued[id].subscription.subscriber))
  }

  ghost predicate FanOutKnown(dest: Dest) {
    && (forall id <- dest.bounced :: id in dest.table ==> dest.fanOut.Some? && id in dest.fanOut.value.dead)
    && (dest.fanOut.Some? ==>
          var fanOut := dest.fanOut.value;
          && 0 < |dest.log| && dest.log[|dest.log| - 1] == fanOut.message
          && (forall id <- fanOut.remaining :: id in dest.table && dest.table[id] == fanOut.remaining[id])
          && fanOut.dead <= dest.table.Keys * dest.bounced
          && fanOut.dead !! fanOut.remaining.Keys
          && (forall id <- dest.table :: id in dest.issued ==> dest.issued[id].from < |dest.log|))
  }

  ghost predicate DestKnown(sys: System, dest: Dest) {
    QueueKnown(sys, dest) && TableKnown(sys, dest) && FanOutKnown(dest)
  }

  ghost predicate Sound(sys: System) {
    && (forall sid <- sys.sessions :: SessionKnown(sys.dests, sid, sys.sessions[sid]))
    && (forall d <- sys.dests :: DestKnown(sys, sys.dests[d]))
    && (forall n <- sys.tasks :: n < sys.spawned && sys.tasks[n].session in sys.sessions)
  }

  /** What comes through the session's own channel makes it call nobody. */
  lemma OwnEventsCallNobody(active: ActiveTable, event: ClientEvent)
    requires Internal(event)
    ensures React(active, event).call.None?
  {
  }

  // ---------- what steps do to destinations ----------

  lemma RunTaskShape(sys: System, n: nat)
    requires n in sys.tasks && sys.tasks[n].destination in sys.dests
    ensures var task := sys.tasks[n];
      RunSubscribeTask(sys, n).dests
      == sys.dests[task.destination :=
           Submit(sys.dests[task.destination], DestinationAction.Subscribe(Some(task.clientId), task.session))]
    ensures var task, sys' := sys.tasks[n], RunSubscribeTask(sys, n);
      var dest := sys.dests[task.destination];
      && sys'.tasks == sys.tasks - {n} && sys'.sessions.Keys == sys.sessions.Keys
      && sys'.stages == sys.stages[(task.session, task.clientId) :=
                          if dest.queue.open then Queued(task.destination, |dest.queue.sent|) else TurnedDown]
  {
  }

  lemma DeliverDest(sys: System, d: DestinationId, u: SubscriptionId)
    requires d in sys.dests && sys.dests[d].fanOut.Some? && u in sys.dests[d].fanOut.value.remaining
    requires sys.dests[d].fanOut.value.remaining[u].subscriberSubId.Some?
    ensures var dest, dests' := sys.dests[d], DeliverOne(sys, d, u).dests;
      && d in dests' && dests' == sys.dests[d := dests'[d]] && dests'[d].fanOut.Some?
      && dests'[d] == dest.(fanOut := dests'[d].fanOut, bounced := dests'[d].bounced)
  {
  }

  lemma DeliverShape(sys: System, d: DestinationId, u: SubscriptionId, dest: Dest, dest': Dest)
    requires d in sys.dests && dest == sys.dests[d] && dest.fanOut.Some? && u in dest.fanOut.value.remaining
    requires dest.fanOut.value.remaining[u].subscriberSubId.Some?
    requires d in DeliverOne(sys, d, u).dests && dest' == DeliverOne(sys, d, u).dests[d]
    ensures dest'.queue == dest.queue && dest'.log == dest.log && dest'.fanOut.Some? && dest'.crashed == dest.crashed
    ensures dest'.table == dest.table && dest'.issued == dest.issued && dest'.removed == dest.removed
    ensures dest'.submitted == dest.submitted && dest'.refused == dest.refused
    ensures DeliverOne(sys, d, u).dests == sys.dests[d := dest']
  {
    DeliverDest(sys, d, u);
  }

  // ---------- what only grows ----------

  ghost predicate IssuesGrow(dests: map<DestinationId, Dest>, dests': map<DestinationId, Dest>) {
    forall d <- dests ::
      d in dests' && forall id <- dests[d].issued :: id in dests'[d].issued && dests'[d].issued[id] == dests[d].issued[id]
  }

  ghost predicate SessionsGrow(sys: System, sys': System) {
    forall sid <- sys.sessions :: sid in sys'.sessions && (Live(sys', sid) ==> Live(sys, sid))
  }

  lemma SessionKnownGrows(dests: map<DestinationId, Dest>, dests': map<DestinationId, Dest>, sid: SessionId, session: Session)
    requires SessionKnown(dests, sid, session) && IssuesGrow(dests, dests')
    ensures SessionKnown(dests', sid, session)
  {
    forall event <- session.inbox.sent ensures Internal(event) && EventKnown(dests', sid, event) {
      assert EventKnown(dests, sid, event);
    }
    forall clientId <- session.active ensures EntryKnown(dests', sid, session.active, clientId) {
      assert EntryKnown(dests, sid, session.active, clientId);
    }
  }

  lemma DestKnownGrows(sys: System, sys': System, dest: Dest)
    requires DestKnown(sys, dest) && SessionsGrow(sys, sys')
    ensures DestKnown(sys', dest)
  {
    forall action <- dest.queue.sent ensures ActionKnown(sys', dest.issued, action) {
      assert ActionKnown(sys, dest.issued, action);
    }
  }

  lemma Recompose(sys: System, sys': System)
    requires Sound(sys) && IssuesGrow(sys.dests, sys'.dests) && SessionsGrow(sys, sys')
    requires forall sid <- sys'.sessions ::
               (sid in sys.sessions && sys'.sessions[sid] == sys.sessions[sid])
               || SessionKnown(sys'.dests, sid, sys'.sessions[sid])
    requires forall d <- sys'.dests ::
               (d in sys.dests && sys'.dests[d] == sys.dests[d]) || DestKnown(sys', sys'.dests[d])
    requires forall n <- sys'.tasks :: n < sys'.spawned && sys'.tasks[n].session in sys'.sessions
    ensures Sound(sys')
  {
    forall sid <- sys'.sessions ensures SessionKnown(sys'.dests, sid, sys'.sessions[sid]) {
      if sid in sys.sessions && sys'.sessions[sid] == sys.sessions[sid] {
        SessionKnownGrows(sys.dests, sys'.dests, sid, sys.sessions[sid]);
      }
    }
    forall d <- sys'.dests ensures DestKnown(sys', sys'.dests[d]) {
      if d in sys.dests && sys'.dests[d] == sys.dests[d] {
        DestKnownGrows(sys, sys', sys.dests[d]);
      }
    }
  }

  // ---------- one component at a time ----------

  lemma PushKnown(dests: map<DestinationId, Dest>, sid: SessionId, session: Session, event: ClientEvent)
    requires SessionKnown(dests, sid, session) && Internal(event) && EventKnown(dests, sid, event)
    ensures SessionKnown(dests, sid, session.(inbox := session.inbox.Push(event)))
  {
  }

  lemma NotifySound(sys: System, sid: SessionId, event: ClientEvent)
    requires Sound(sys) && Internal(event) && EventKnown(sys.dests, sid, event)
    ensures Sound(Notify(sys, sid, event))
  {
    if sid in sys.sessions {
      PushKnown(sys.dests, sid, sys.sessions[sid], event);
    }
    Recompose(sys, Notify(sys, sid, event));
  }

  /** What has been taken does not depend on what is still queued. */
  lemma RequestedSame(dest: Dest, dest': Dest)
    requires dest'.queue.received == dest.queue.received <= |dest.queue.sent|
    requires dest.queue.sent <= dest'.queue.sent
    ensures forall id :: Requested(dest', id) <==> Requested(dest, id)
  {
    forall id ensures Requested(dest', id) <==> Requested(dest, id) {
      if Requested(dest, id) {
        var i :| 0 <= i < dest.queue.received && i < |dest.queue.sent|
                 && dest.queue.sent[i].Unsubscribe? && dest.queue.sent[i].subId == id;
        assert dest'.queue.sent[i] == dest.queue.sent[i];
      }
    }
  }

  /** Taking one action changes what has been requested only if it is an Unsubscribe. */
  lemma RequestedTaken(dest: Dest, dest': Dest)
    requires dest.queue.received < |dest.queue.sent|
    requires dest'.queue.sent == dest.queue.sent && dest'.queue.received == dest.queue.received + 1
    ensures forall id :: Requested(dest', id) <==>
                         Requested(dest, id)
                         || (var action := dest.queue.sent[dest.queue.received]; action.Unsubscribe? && action.subId == id)
  {
    forall id
      ensures Requested(dest', id) <==>
              Requested(dest, id)
              || (var action := dest.queue.sent[dest.queue.received]; action.Unsubscribe? && action.subId == id)
    {
      if Requested(dest, id) {
        var i :| 0 <= i < dest.queue.received && i < |dest.queue.sent|
                 && dest.queue.sent[i].Unsubscribe? && dest.queue.sent[i].subId == id;
        assert dest'.queue.sent[i] == dest.queue.sent[i];
      }
      var last := dest.queue.sent[dest.queue.received];
      if last.Unsubscribe? && last.subId == id {
        assert dest'.queue.sent[dest.queue.received] == last;
      }
    }
  }

  /** The queue only, for any change of it that takes nothing or takes no Unsubscribe. */
  lemma QueueMoved(sys: System, dest: Dest, dest': Dest)
    requires QueueKnown(sys, dest)
    requires dest.queue.sent <= dest'.queue.sent && dest'.queue.Valid()
    requires forall action <- dest'.queue.sent :: action in dest.queue.sent || ActionKnown(sys, dest.issued, action)
    requires dest'.queue.received == dest.queue.received
             || (dest'.queue.received == dest.queue.received + 1 && dest'.queue.sent == dest.queue.sent
                 && !dest.queue.sent[dest.queue.received].Unsubscribe?)
    requires dest'.issued == dest.issued && dest'.removed == dest.removed && dest'.crashed == dest.crashed
    requires dest.crashed ==> !dest'.queue.open
    requires dest'.fanOut.Some? ==>
               dest'.queue.open && 0 < dest'.queue.received && dest'.queue.sent[dest'.queue.received - 1].Send?
    ensures QueueKnown(sys, dest')
  {
    if dest'.queue.received == dest.queue.received {
      RequestedSame(dest, dest');
    } else {
      RequestedTaken(dest, dest');
    }
  }

  lemma TableSame(sys: System, dest: Dest, dest': Dest)
    requires TableKnown(sys, dest) && FanOutKnown(dest)
    requires dest'.table == dest.table && dest'.issued == dest.issued && dest'.removed == dest.removed
    requires dest'.bounced == dest.bounced && dest'.log == dest.log && dest'.fanOut == dest.fanOut
    ensures TableKnown(sys, dest') && FanOutKnown(dest')
  {
  }

  /** A queue on which one more action arrives. */
  lemma SubmitKnown(sys: System, dest: Dest, action: Action, dest': Dest)
    requires DestKnown(sys, dest) && ActionKnown(sys, dest.issued, action)
    requires dest' == Submit(dest, action) || dest' == dest.(queue := dest.queue.Push(action))
    ensures DestKnown(sys, dest')
  {
    QueueMoved(sys, dest, dest');
    TableSame(sys, dest, dest');
  }

  ghost predicate ReactionKnown(dests: map<DestinationId, Dest>, sid: SessionId, reaction: Reaction) {
    && (forall clientId <- reaction.active :: EntryKnown(dests, sid, reaction.active, clientId))
    && (reaction.call.Some? && reaction.call.value.UnsubscribeFrom? ==>
          exists clientId :: Names(dests, reaction.call.value.destination, reaction.call.value.subscription, sid, clientId))
  }

  lemma ReactKnown(dests: map<DestinationId, Dest>, sid: SessionId, active: ActiveTable, event: ClientEvent)
    requires forall clientId <- active :: EntryKnown(dests, sid, active, clientId)
    requires EventKnown(dests, sid, event)
    ensures ReactionKnown(dests, sid, React(active, event))
  {
    if event.ClientFrame? && event.frame.Ok? {
      FrameKnown(dests, sid, active, event.frame.value);
    }
    var reaction := React(active, event);
    forall clientId <- reaction.active ensures EntryKnown(dests, sid, reaction.active, clientId) {
      if clientId in active {
        assert EntryKnown(dests, sid, active, clientId);
      }
    }
  }

  lemma FrameKnown(dests: map<DestinationId, Dest>, sid: SessionId, active: ActiveTable, frame: ClientFrame)
    requires forall clientId <- active :: EntryKnown(dests, sid, active, clientId)
    ensures ReactionKnown(dests, sid, ReactToFrame(active, frame)) && ReactToFrame(active, frame).active == active
  {
    if frame.Unsubscribe? && frame.id in active {
      assert EntryKnown(dests, sid, active, frame.id);
    }
  }

  lemma SettleKnown(dests: map<DestinationId, Dest>, sid: SessionId, session: Session, reaction: Reaction)
    requires SessionKnown(dests, sid, session) && ReactionKnown(dests, sid, reaction)
    ensures SessionKnown(dests, sid, Settle(session, reaction))
  {
  }

  // ---------- the session's steps ----------

  lemma RespondSound(sys: System, sid: SessionId, session: Session, reaction: Reaction)
    requires Sound(sys) && Live(sys, sid)
    requires SessionKnown(sys.dests, sid, session) && ReactionKnown(sys.dests, sid, reaction)
    ensures Sound(Respond(sys, sid, session, reaction))
  {
    var sys' := sys.(sessions := sys.sessions[sid := Settle(session, reaction)]);
    SettleKnown(sys.dests, sid, session, reaction);
    Recompose(sys, sys');
    if reaction.call.Some? {
      CallSound(sys', sid, reaction.call.value);
    }
  }

  lemma PutSound(sys: System, d: DestinationId, dest: Dest)
    requires Sound(sys) && DestKnown(sys, dest)
    requires d in sys.dests ==>
               forall id <- sys.dests[d].issued :: id in dest.issued && dest.issued[id] == sys.dests[d].issued[id]
    ensures Sound(Put(sys, d, dest))
  {
    DestKnownGrows(sys, Put(sys, d, dest), dest);
    Recompose(sys, Put(sys, d, dest));
  }

  lemma SubmitSound(sys: System, d: DestinationId, action: Action)
    requires Sound(sys) && d in sys.dests && ActionKnown(sys, sys.dests[d].issued, action)
    ensures Sound(Put(sys, d, Submit(sys.dests[d], action)))
  {
    SubmitKnown(sys, sys.dests[d], action, Submit(sys.dests[d], action));
    PutSound(sys, d, Submit(sys.dests[d], action));
  }

  lemma CrashSessionSound(sys: System, sid: SessionId)
    requires Sound(sys) && sid in sys.sessions
    ensures Sound(sys.(sessions := sys.sessions[sid := CrashSession(sys.sessions[sid])]))
  {
    Recompose(sys, sys.(sessions := sys.sessions[sid := CrashSession(sys.sessions[sid])]));
  }

  lemma CallSound(sys: System, sid: SessionId, call: Call)
    requires Sound(sys) && sid in sys.sessions
    requires call.UnsubscribeFrom? ==>
               exists clientId :: Names(sys.dests, call.destination, call.subscription, sid, clientId)
    ensures Sound(MakeCall(sys, sid, call))
  {
    match call
    case SubscribeTo(d, clientId) =>
      Recompose(sys, MakeCall(sys, sid, call));
    case SendTo(d, message) =>
      if d in sys.dests {
        SubmitSound(sys, d, DestinationAction.Send(message, sid));
      }
    case UnsubscribeFrom(d, id) =>
      SubmitSound(sys, d, DestinationAction.Unsubscribe(id, sid));
      if !sys.dests[d].queue.open {
        CrashSessionSound(Put(sys, d, Submit(sys.dests[d], DestinationAction.Unsubscribe(id, sid))), sid);
      }
  }

  lemma AcceptSound(sys: System, sid: SessionId, heartbeat: HeartBeat)
    requires Sound(sys) && Enabled(sys, Accept(sid, heartbeat))
    ensures Sound(Apply(sys, Accept(sid, heartbeat)))
  {
    Recompose(sys, Apply(sys, Accept(sid, heartbeat)));
  }

  lemma FromClientSound(sys: System, sid: SessionId, event: ClientEvent)
    requires Sound(sys) && Enabled(sys, FromClient(sid, event))
    ensures Sound(Apply(sys, FromClient(sid, event)))
  {
    ReactKnown(sys.dests, sid, sys.sessions[sid].active, event);
    RespondSound(sys, sid, sys.sessions[sid], React(sys.sessions[sid].active, event));
  }

  lemma FromServerSound(sys: System, sid: SessionId)
    requires Sound(sys) && Enabled(sys, FromServer(sid))
    ensures Sound(Apply(sys, FromServer(sid)))
  {
    var session := sys.sessions[sid];
    var event := session.inbox.sent[session.inbox.received];
    assert EventKnown(sys.dests, sid, event);
    ReactKnown(sys.dests, sid, session.active, event);
    RespondSound(sys, sid, session.(inbox := session.inbox.Pop()), React(session.active, event));
  }

  lemma DropSound(sys: System, sid: SessionId)
    requires Sound(sys) && Enabled(sys, Drop(sid))
    ensures Sound(Apply(sys, Drop(sid)))
  {
    Recompose(sys, Apply(sys, Drop(sid)));
  }

  // ---------- the tasks' and the backends' steps ----------

  lemma RunTaskSound(sys: System, n: nat)
    requires Sound(sys) && Enabled(sys, RunTask(n))
    ensures Sound(Apply(sys, RunTask(n)))
  {
    var task := sys.tasks[n];
    var d, key, dest := task.destination, (task.session, task.clientId), sys.dests[task.destination];
    var rest := sys.(tasks := sys.tasks - {n});
    var action := DestinationAction.Subscribe(Some(task.clientId), task.session);
    Recompose(sys, rest);
    SubmitSound(rest, d, action);
    var sys' := Put(rest, d, Submit(dest, action));
    if dest.queue.open {
      Recompose(sys', sys'.(stages := sys.stages[key := Queued(d, |dest.queue.sent|)]));
    } else {
      var turned := sys'.(stages := sys.stages[key := TurnedDown]);
      Recompose(sys', turned);
      NotifySound(turned, task.session, Subscribed(d, task.clientId, Err("Subscribe failed")));
    }
  }

  lemma RequestedIssued(sys: System, dest: Dest, id: SubscriptionId)
    requires QueueKnown(sys, dest)
    ensures Requested(dest, id) ==> id in dest.issued
  {
    if Requested(dest, id) {
      var i :| 0 <= i < dest.queue.received && i < |dest.queue.sent|
               && dest.queue.sent[i].Unsubscribe? && dest.queue.sent[i].subId == id;
      assert ActionKnown(sys, dest.issued, dest.queue.sent[i]);
    }
  }

  lemma InsertedQueue(sys: System, dest: Dest, id: SubscriptionId, issue: Issue, dest': Dest)
    requires QueueKnown(sys, dest) && NextAction(dest).Some? && !NextAction(dest).value.Unsubscribe? && id !in dest.issued
    requires dest'.queue == dest.queue.Pop() && dest'.fanOut == dest.fanOut && dest'.crashed == dest.crashed
    requires dest'.issued == dest.issued[id := issue] && dest'.removed == dest.removed && id !in dest.removed
    ensures QueueKnown(sys, dest')
  {
    forall action <- dest'.queue.sent ensures ActionKnown(sys, dest'.issued, action) {
      assert ActionKnown(sys, dest.issued, action);
    }
    RequestedTaken(dest, dest');
    RequestedIssued(sys, dest, id);
  }

  lemma InsertedTable(sys: System, dest: Dest, id: SubscriptionId, issue: Issue, dest': Dest)
    requires TableKnown(sys, dest) && FanOutKnown(dest) && dest.fanOut.None? && id !in dest.issued
    requires dest'.table == dest.table[id := issue.subscription] && dest'.issued == dest.issued[id := issue]
    requires IssueKnown(sys, id, issue, |dest.log|)
    requires dest'.removed == dest.removed && dest'.bounced == dest.bounced && dest'.log == dest.log && dest'.fanOut.None?
    ensures TableKnown(sys, dest') && FanOutKnown(dest')
  {
  }

  lemma TakeSubscribeSound(sys: System, d: DestinationId, id: SubscriptionId)
    requires Sound(sys) && Enabled(sys, TakeSubscribe(d, id))
    ensures Sound(Apply(sys, TakeSubscribe(d, id)))
  {
    var dest, action := sys.dests[d], NextAction(sys.dests[d]).value;
    assert ActionKnown(sys, dest.issued, action);
    var issue := Issue(Subscription(id, action.subscriberSubId, action.subscriber), |dest.log|);
    var inserted := Taken(dest).(
      table := Insert(dest.table, id, action.subscriberSubId, action.subscriber), issued := dest.issued[id := issue]);
    InsertedQueue(sys, dest, id, issue, inserted);
    InsertedTable(sys, dest, id, issue, inserted);
    PutSound(sys, d, inserted);
    var key := (action.subscriber, action.subscriberSubId.value);
    var sys' := Put(sys, d, inserted).(stages := sys.stages[key := Inserted(d, id)]);
    Recompose(Put(sys, d, inserted), sys');
    NotifySound(sys', action.subscriber, Subscribed(d, action.subscriberSubId.value, Ok(id)));
  }

  lemma RemovedQueue(sys: System, dest: Dest, dest': Dest)
    requires QueueKnown(sys, dest) && NextAction(dest).Some? && NextAction(dest).value.Unsubscribe?
    requires dest'.queue.sent == dest.queue.sent && dest'.queue.received == dest.queue.received + 1 && dest'.fanOut.None?
    requires dest'.issued == dest.issued && (dest'.crashed ==> !dest'.queue.open)
    requires !dest'.crashed ==> !dest.crashed && dest'.removed.Keys == dest.removed.Keys + {NextAction(dest).value.subId}
    ensures QueueKnown(sys, dest')
  {
    RequestedTaken(dest, dest');
  }

  lemma RemovedTable(sys: System, dest: Dest, id: SubscriptionId, dest': Dest)
    requires TableKnown(sys, dest) && FanOutKnown(dest) && id in dest.issued && dest.fanOut.None? && dest'.fanOut.None?
    requires dest'.table == dest.table - {id} && dest'.issued == dest.issued
    requires dest'.removed == dest.removed[id := |dest.log|] || (id !in dest.table && dest'.removed == dest.removed)
    requires dest'.bounced == dest.bounced && dest'.log == dest.log
    ensures TableKnown(sys, dest') && FanOutKnown(dest')
  {
    assert IssueKnown(sys, id, dest.issued[id], |dest.log|);
  }

  lemma RemovedKnown(sys: System, dest: Dest, dest': Dest)
    requires DestKnown(sys, dest) && NextAction(dest).Some? && NextAction(dest).value.Unsubscribe?
    requires var id := NextAction(dest).value.subId;
      dest' == var rest := Taken(dest).(table := dest.table - {id});
               if ReportedId(dest.table, id).None? then CrashDest(rest) else rest.(removed := rest.removed[id := |rest.log|])
    ensures DestKnown(sys, dest')
  {
    var id := NextAction(dest).value.subId;
    assert ActionKnown(sys, dest.issued, NextAction(dest).value);
    assert id in dest.table ==> IssueKnown(sys, id, dest.issued[id], |dest.log|);
    RemovedQueue(sys, dest, dest');
    RemovedTable(sys, dest, id, dest');
  }

  lemma StartedKnown(sys: System, dest: Dest, message: OutboundMessage, dest': Dest)
    requires DestKnown(sys, dest) && NextAction(dest).Some? && NextAction(dest).value.Send?
    requires dest' == Taken(dest).(log := dest.log + [message],
                                   fanOut := Some(FanOut(message, dest.table, {})))
    ensures DestKnown(sys, dest')
  {
    QueueMoved(sys, dest, dest');
    forall id <- dest.issued ensures IssueKnown(sys, id, dest.issued[id], |dest'.log|) && dest.issued[id].from < |dest'.log| {
      assert IssueKnown(sys, id, dest.issued[id], |dest.log|);
    }
    assert TableKnown(sys, dest');
  }

  lemma ClosedKnown(sys: System, dest: Dest, dest': Dest)
    requires DestKnown(sys, dest) && NextAction(dest).Some? && NextAction(dest).value.Close?
    requires dest' == dest.(queue := dest.queue.Pop().Shut())
    ensures DestKnown(sys, dest')
  {
    QueueMoved(sys, dest, dest');
    TableSame(sys, dest, dest');
  }

  /** One round of the fan-out loop, for a live session or a dead one. */
  lemma DeliveredTable(sys: System, dest: Dest, id: SubscriptionId, failed: bool, dest': Dest)
    requires TableKnown(sys, dest) && FanOutKnown(dest) && dest.fanOut.Some? && id in dest.fanOut.value.remaining
    requires failed ==> !Live(sys, dest.table[id].subscriber)
    requires dest'.bounced == dest.bounced + if failed then {id} else {}
    requires dest'.fanOut == Some(FanOut(dest.fanOut.value.message, dest.fanOut.value.remaining - {id},
                                         dest.fanOut.value.dead + if failed then {id} else {}))
    requires dest'.table == dest.table && dest'.issued == dest.issued && dest'.removed == dest.removed && dest'.log == dest.log
    ensures TableKnown(sys, dest') && FanOutKnown(dest')
  {
  }

  lemma DeliveredKnown(sys: System, dest: Dest, id: SubscriptionId, failed: bool, dest': Dest)
    requires DestKnown(sys, dest) && dest.fanOut.Some? && id in dest.fanOut.value.remaining
    requires failed ==> !Live(sys, dest.fanOut.value.remaining[id].subscriber)
    requires var rest := dest.fanOut.value.(remaining := dest.fanOut.value.remaining - {id});
      dest' == if failed
               then dest.(fanOut := Some(rest.(dead := rest.dead + {id})), bounced := dest.bounced + {id})
               else dest.(fanOut := Some(rest))
    ensures DestKnown(sys, dest')
  {
    QueueMoved(sys, dest, dest');
    assert dest.fanOut.value.dead + {} == dest.fanOut.value.dead;
    assert dest.bounced + {} == dest.bounced;
    DeliveredTable(sys, dest, id, failed, dest');
  }

  lemma FinishedKnown(sys: System, dest: Dest, dest': Dest)
    requires DestKnown(sys, dest) && dest.fanOut.Some?
    requires dest' == dest.(table := dest.table - dest.fanOut.value.dead, fanOut := None)
    ensures DestKnown(sys, dest')
  {
    QueueMoved(sys, dest, dest');
    assert TableKnown(sys, dest');
  }

  lemma TakeUnsubscribeSound(sys: System, d: DestinationId)
    requires Sound(sys) && Enabled(sys, TakeUnsubscribe(d))
    ensures Sound(Apply(sys, TakeUnsubscribe(d)))
  {
    var dest, action := sys.dests[d], NextAction(sys.dests[d]).value;
    var rest := Taken(dest).(table := dest.table - {action.subId});
    var reported := ReportedId(dest.table, action.subId);
    var dest' := if reported.None? then CrashDest(rest) else rest.(removed := rest.removed[action.subId := |rest.log|]);
    RemovedKnown(sys, dest, dest');
    PutSound(sys, d, dest');
    if reported.Some? {
      NotifySound(Put(sys, d, dest'), action.subscriber, Unsubscribed(reported.value, Ok(action.subId)));
    }
  }

  lemma ReachSound(sys: System, d: DestinationId, id: SubscriptionId)
    requires Sound(sys) && Enabled(sys, Deliver(d, id)) && sys.dests[d].fanOut.value.remaining[id].subscriberSubId.Some?
    requires Live(sys, sys.dests[d].fanOut.value.remaining[id].subscriber)
    ensures Sound(DeliverOne(sys, d, id))
  {
    var dest := sys.dests[d];
    var fanOut, subscription := dest.fanOut.value, dest.fanOut.value.remaining[id];
    var event := ServerMessage(subscription.subscriberSubId.value, fanOut.message);
    var dest' := dest.(fanOut := Some(fanOut.(remaining := fanOut.remaining - {id})));
    assert DestKnown(sys, dest);
    DeliveredKnown(sys, dest, id, false, dest');
    PutSound(sys, d, dest');
    NotifySound(Put(sys, d, dest'), subscription.subscriber, event);
    assert DeliverOne(sys, d, id) == Notify(Put(sys, d, dest'), subscription.subscriber, event);
  }

  lemma BounceSound(sys: System, d: DestinationId, id: SubscriptionId)
    requires Sound(sys) && Enabled(sys, Deliver(d, id)) && sys.dests[d].fanOut.value.remaining[id].subscriberSubId.Some?
    requires !Live(sys, sys.dests[d].fanOut.value.remaining[id].subscriber)
    ensures Sound(DeliverOne(sys, d, id))
  {
    var dest := sys.dests[d];
    var fanOut := dest.fanOut.value;
    var dest' := dest.(fanOut := Some(fanOut.(remaining := fanOut.remaining - {id}, dead := fanOut.dead + {id})),
                       bounced := dest.bounced + {id});
    assert DestKnown(sys, dest);
    DeliveredKnown(sys, dest, id, true, dest');
    PutSound(sys, d, dest');
    assert DeliverOne(sys, d, id) == Put(sys, d, dest');
  }

  /** Every subscription still to be visited has a name. */
  lemma NamedInFanOut(sys: System, d: DestinationId, u: SubscriptionId)
    requires Sound(sys) && Enabled(sys, Deliver(d, u))
    ensures sys.dests[d].fanOut.value.remaining[u].subscriberSubId.Some?
  {
    assert DestKnown(sys, sys.dests[d]) && IssueKnown(sys, u, sys.dests[d].issued[u], |sys.dests[d].log|);
  }

  lemma DeliverSound(sys: System, d: DestinationId, id: SubscriptionId)
    requires Sound(sys) && Enabled(sys, Deliver(d, id))
    ensures Sound(DeliverOne(sys, d, id))
  {
    NamedInFanOut(sys, d, id);
    if Live(sys, sys.dests[d].fanOut.value.remaining[id].subscriber) {
      ReachSound(sys, d, id);
    } else {
      BounceSound(sys, d, id);
    }
  }

  /** The steps that concern one backend and nothing else. */
  lemma BackendSound(sys: System, step: Step)
    requires Sound(sys) && Enabled(sys, step)
    requires step.TakeSend? || step.TakeClose? || step.FinishSend? || step.CloseDestination?
    ensures Sound(Apply(sys, step))
  {
    var d := step.destination;
    var dest, dest' := sys.dests[d], Apply(sys, step).dests[d];
    assert DestKnown(sys, dest);
    if step.TakeSend? {
      StartedKnown(sys, dest, Outbound(d, step.messageId, NextAction(dest).value.message), dest');
    } else if step.TakeClose? {
      ClosedKnown(sys, dest, dest');
    } else if step.FinishSend? {
      FinishedKnown(sys, dest, dest');
    } else {
      SubmitKnown(sys, dest, DestinationAction.Close, dest');
    }
    PutSound(sys, d, dest');
  }

  /** Every step keeps the books. */
  lemma StepSound(sys: System, step: Step)
    requires Sound(sys) && Enabled(sys, step)
    ensures Sound(Apply(sys, step))
  {
    match step
    case Accept(sid, heartbeat) => AcceptSound(sys, sid, heartbeat);
    case FromClient(sid, event) => FromClientSound(sys, sid, event);
    case FromServer(sid) => FromServerSound(sys, sid);
    case Drop(sid) => DropSound(sys, sid);
    case MissHeartbeat(sid) => NotifySound(sys, sid, ClientEvent.Error("Missed heartbeat"));
    case CreateDestination(d) => PutSound(sys, d, NewDest());
    case RunTask(n) => RunTaskSound(sys, n);
    case CloseDestination(d) => BackendSound(sys, step);
    case TakeSubscribe(d, id) => TakeSubscribeSound(sys, d, id);
    case TakeUnsubscribe(d) => TakeUnsubscribeSound(sys, d);
    case TakeSend(d, messageId) => BackendSound(sys, step);
    case TakeClose(d) => BackendSound(sys, step);
    case Deliver(d, id) => DeliverSound(sys, d, id);
    case FinishSend(d) => BackendSound(sys, step);
  }
}
