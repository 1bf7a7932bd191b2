/**
 The session table, the backends' tables and the queues between them agree, in every
 interleaving, as long as no session uses a client subscription id twice.
 */
module Delivery {
  import opened Types
  import opened Channels
  import opened Actions
  import opened Reactions
  import opened Protocol
  import opened Bookkeeping
  import opened Lifecycle

  // ---------- the guard ----------

  /** The subscription that the step asks for, if it handles a SUBSCRIBE frame. */
  function SubscribeKey(step: Step): Option<(SessionId, SubscriptionId)> {
    if step.FromClient? && step.event.ClientFrame? && step.event.frame.Ok? && step.event.frame.value.Subscribe?
    then Some((step.session, step.event.frame.value.id))
    else None
  }

  /** No session uses a client subscription id twice. */
  ghost predicate UniqueIds(steps: seq<Step>) {
    forall i, j :: 0 <= i < j < |steps| && SubscribeKey(steps[i]).Some? ==> SubscribeKey(steps[i]) != SubscribeKey(steps[j])
  }

  predicate FreshKey(sys: System, step: Step) {
    SubscribeKey(step).Some? ==> SubscribeKey(step).value !in sys.stages
  }

  // ---------- where each subscription is ----------

  ghost predicate Staged(sys: System, sid: SessionId, clientId: Option<SubscriptionId>, stage: Stage) {
    clientId.Some? && (sid, clientId.value) in sys.stages && sys.stages[(sid, clientId.value)] == stage
  }

  ghost predicate DestPlaced(sys: System, d: DestinationId, dest: Dest) {
    && (forall i :: dest.queue.received <= i < |dest.queue.sent| && dest.queue.sent[i].Subscribe? ==>
          Staged(sys, dest.queue.sent[i].subscriber, dest.queue.sent[i].subscriberSubId, Queued(d, i)))
    && (forall u <- dest.issued ::
          Staged(sys, dest.issued[u].subscription.subscriber, dest.issued[u].subscription.subscriberSubId, Inserted(d, u)))
  }

  /** A subscription that has been inserted is on record as this session's. */
  ghost predicate Anchored(sys: System, key: (SessionId, SubscriptionId))
    requires key in sys.stages
  {
    sys.stages[key].Inserted? ==>
      Names(sys.dests, sys.stages[key].destination, sys.stages[key].subscription, key.0, key.1)
  }

  ghost predicate Placed(sys: System) {
    && (forall key <- sys.stages :: key.0 in sys.sessions && Anchored(sys, key))
    && (forall n <- sys.tasks :: Staged(sys, sys.tasks[n].session, Some(sys.tasks[n].clientId), Spawned(n)))
    && (forall d <- sys.dests :: DestPlaced(sys, d, sys.dests[d]))
  }

  // ---------- what each session has been told ----------

  /** The broadcasts that subscription `u` is due: from its insertion to its removal, or as far as the fan-out has come. */
  function Due(dest: Dest, u: SubscriptionId): seq<OutboundMessage>
    requires u in dest.issued
  {
    var from := dest.issued[u].from;
    var to :=
      if u in dest.removed then dest.removed[u]
      else if dest.fanOut.Some? && u in dest.fanOut.value.remaining then |dest.log| - 1
      else |dest.log|;
    if from <= to <= |dest.log| then dest.log[from..to] else []
  }

  function DuePhase(d: DestinationId, dest: Dest, u: SubscriptionId): Phase
    requires u in dest.issued
  {
    if u in dest.removed then Ended(d, u, Due(dest, u)) else Phase.Open(d, u, Due(dest, u))
  }

  ghost predicate InPhase(sys: System, sid: SessionId, clientId: SubscriptionId, phase: Phase) {
    if (sid, clientId) !in sys.stages then phase.Idle?
    else
      match sys.stages[(sid, clientId)]
      case Spawned(_) => phase.Idle?
      case Queued(_, _) => phase.Idle?
      case TurnedDown => Live(sys, sid) ==> phase.Refused?
      case Inserted(d, u) =>
        Live(sys, sid) && d in sys.dests && u in sys.dests[d].issued ==> phase == DuePhase(d, sys.dests[d], u)
  }

  ghost predicate Agrees(sys: System, sid: SessionId, clientId: SubscriptionId)
    requires sid in sys.sessions
  {
    var phase := PhaseOf(sys.sessions[sid].inbox.sent, clientId);
    !phase.Broken? && InPhase(sys, sid, clientId, phase)
  }

  ghost predicate Told(sys: System) {
    forall sid, clientId :: sid in sys.sessions ==> Agrees(sys, sid, clientId)
  }

  // ---------- frames ----------

  /** What is due to the live sessions' subscriptions to `d`, but for those in `changed`, is the same before and after. */
  ghost predicate DuesKept(sys: System, d: DestinationId, dest: Dest, dest': Dest, changed: set<SubscriptionId>) {
    && (forall u <- dest.issued :: u in dest'.issued)
    && (forall u <- dest'.issued :: u !in changed ==>
          u in dest.issued
          && (Live(sys, dest.issued[u].subscription.subscriber) ==>
                DuePhase(d, dest', u) == DuePhase(d, dest, u)))
  }

  /** The same, for the whole system, when only destination `d` has changes. */
  ghost predicate AllDuesKept(sys: System, sys': System, d: DestinationId, changed: set<SubscriptionId>) {
    forall e <- sys'.dests ::
      if e in sys.dests then DuesKept(sys, e, sys.dests[e], sys'.dests[e], if e == d then changed else {})
      else sys'.dests[e] == NewDest()
  }

  lemma DuesSame(sys: System, d: DestinationId, dest: Dest, dest': Dest, changed: set<SubscriptionId>)
    requires forall u <- dest.issued :: u in dest'.issued
    requires forall u <- dest'.issued :: u !in changed ==> u in dest.issued && dest'.issued[u] == dest.issued[u]
    requires dest'.log == dest.log
    requires forall u :: u !in changed ==>
               (u in dest'.removed <==> u in dest.removed) && (u in dest.removed ==> dest'.removed[u] == dest.removed[u])
    requires forall u :: u !in changed ==>
               ((dest'.fanOut.Some? && u in dest'.fanOut.value.remaining) <==> (dest.fanOut.Some? && u in dest.fanOut.value.remaining))
    ensures DuesKept(sys, d, dest, dest', changed)
  {
  }

  ghost predicate SameStage(sys: System, sys': System, key: (SessionId, SubscriptionId)) {
    && (key in sys.stages <==> key in sys'.stages)
    && (key in sys.stages ==> sys'.stages[key] == sys.stages[key])
  }

  lemma AgreesFrame(sys: System, sys': System, sid: SessionId, clientId: SubscriptionId,
                    d: DestinationId, changed: set<SubscriptionId>)
    requires Placed(sys) && sid in sys.sessions && sid in sys'.sessions && Agrees(sys, sid, clientId)
    requires Live(sys', sid) ==> Live(sys, sid)
    requires PhaseOf(sys'.sessions[sid].inbox.sent, clientId) == PhaseOf(sys.sessions[sid].inbox.sent, clientId)
    requires SameStage(sys, sys', (sid, clientId)) && AllDuesKept(sys, sys', d, changed)
    requires forall u <- changed :: Live(sys', sid) ==> !Names(sys.dests, d, u, sid, clientId)
    ensures Agrees(sys', sid, clientId)
  {
    if (sid, clientId) in sys.stages && sys.stages[(sid, clientId)].Inserted? {
      assert Anchored(sys, (sid, clientId));
      var stage := sys.stages[(sid, clientId)];
      if stage.destination in sys'.dests {
        assert DuesKept(sys, stage.destination, sys.dests[stage.destination], sys'.dests[stage.destination],
                        if stage.destination == d then changed else {});
      }
    }
  }

  /** The session's channel is as it was, or has one more event that concerns no subscription. */
  ghost predicate NothingTold(session: Session, session': Session) {
    || session'.inbox.sent == session.inbox.sent
    || exists e: ClientEvent {:trigger session.inbox.sent + [e]} ::
         session'.inbox.sent == session.inbox.sent + [e] && !e.Subscribed? && !e.ServerMessage? && !e.Unsubscribed?
  }

  /** A step that tells nobody anything about a subscription. */
  lemma ToldFrame(sys: System, sys': System)
    requires Placed(sys) && Told(sys) && sys'.sessions.Keys == sys.sessions.Keys && sys'.stages == sys.stages
    requires forall d <- sys'.dests ::
               if d in sys.dests then DuesKept(sys, d, sys.dests[d], sys'.dests[d], {}) else sys'.dests[d] == NewDest()
    requires forall sid <- sys'.sessions ::
               (Live(sys', sid) ==> Live(sys, sid)) && NothingTold(sys.sessions[sid], sys'.sessions[sid])
    ensures Told(sys')
  {
    var nowhere := DestinationId("");
    assert AllDuesKept(sys, sys', nowhere, {});
    forall sid, clientId | sid in sys'.sessions ensures Agrees(sys', sid, clientId) {
      var sent, sent' := sys.sessions[sid].inbox.sent, sys'.sessions[sid].inbox.sent;
      assert NothingTold(sys.sessions[sid], sys'.sessions[sid]);
      if sent' != sent {
        var e: ClientEvent :| sent' == sent + [e] && !e.Subscribed? && !e.ServerMessage? && !e.Unsubscribed?;
        PhaseOfPush(sent, e, clientId);
      }
      AgreesFrame(sys, sys', sid, clientId, nowhere, {});
    }
  }

  lemma OneDestDues(sys: System, sys': System, d: DestinationId, changed: set<SubscriptionId>)
    requires d in sys.dests && d in sys'.dests && sys'.dests == sys.dests[d := sys'.dests[d]]
    requires DuesKept(sys, d, sys.dests[d], sys'.dests[d], changed)
    ensures AllDuesKept(sys, sys', d, changed)
  {
  }

  lemma OneStage(sys: System, sys': System, key: (SessionId, SubscriptionId), other: (SessionId, SubscriptionId))
    requires key in sys'.stages ==> sys'.stages == sys.stages[key := sys'.stages[key]]
    requires key !in sys'.stages ==> sys'.stages == sys.stages
    requires other != key
    ensures SameStage(sys, sys', other)
  {
  }

  /**
   A step of destination `d` that tells session `sid`, if it lives, one thing about its
   subscription `about`: only what is due to that subscription, which `changed` holds if it
   has been inserted, changes.
   */
  lemma ToldOne(sys: System, sys': System, sid: SessionId, about: SubscriptionId, event: ClientEvent,
                d: DestinationId, changed: set<SubscriptionId>)
    requires Placed(sys) && Told(sys) && sid in sys.sessions
    requires sys'.sessions == sys.sessions[sid := sys.sessions[sid].(inbox := sys.sessions[sid].inbox.Push(event))]
    requires forall id :: Concerns(event, id) <==> id == about
    requires (sid, about) in sys'.stages && sys'.stages == sys.stages[(sid, about) := sys'.stages[(sid, about)]]
    requires d in sys.dests && d in sys'.dests && sys'.dests == sys.dests[d := sys'.dests[d]]
    requires DuesKept(sys, d, sys.dests[d], sys'.dests[d], changed)
    requires forall u <- changed :: u in sys.dests[d].issued ==> Names(sys.dests, d, u, sid, about)
    requires var phase := PhaseOf(sys.sessions[sid].inbox.sent, about);
      if Live(sys, sid) then !Advance(phase, event).Broken? && InPhase(sys', sid, about, Advance(phase, event))
      else InPhase(sys', sid, about, phase)
    ensures Told(sys')
  {
    OneDestDues(sys, sys', d, changed);
    forall other, id | other in sys'.sessions ensures Agrees(sys', other, id) {
      assert Agrees(sys, other, id);
      PhaseOfPush(sys.sessions[sid].inbox.sent, event, id);
      if (other, id) != (sid, about) {
        OneStage(sys, sys', (sid, about), (other, id));
        AgreesFrame(sys, sys', other, id, d, changed);
      }
    }
  }

  lemma AnchoredFrame(sys: System, sys': System, key: (SessionId, SubscriptionId))
    requires key in sys.stages && Anchored(sys, key) && key in sys'.stages && sys'.stages[key] == sys.stages[key]
    requires IssuesGrow(sys.dests, sys'.dests)
    ensures Anchored(sys', key)
  {
  }

  /** The same stages, and no queue with a Subscribe it did not have. */
  lemma PlacedFrame(sys: System, sys': System)
    requires Placed(sys) && sys'.stages == sys.stages && sys.sessions.Keys <= sys'.sessions.Keys
    requires sys.dests.Keys <= sys'.dests.Keys
    requires forall n <- sys'.tasks :: n in sys.tasks && sys'.tasks[n] == sys.tasks[n]
    requires forall d <- sys'.dests ::
               if d in sys.dests then NothingQueued(sys.dests[d], sys'.dests[d]) else sys'.dests[d] == NewDest()
    ensures Placed(sys')
  {
    assert IssuesGrow(sys.dests, sys'.dests);
    forall d <- sys'.dests ensures DestPlaced(sys', d, sys'.dests[d]) {
      if d in sys.dests {
        assert DestPlaced(sys, d, sys.dests[d]);
        DestPlacedFrame(sys, sys', d, sys.dests[d], sys'.dests[d]);
      }
    }
    forall key <- sys'.stages ensures Anchored(sys', key) {
      AnchoredFrame(sys, sys', key);
    }
  }

  /** The same, when only destination `d` changes. */
  lemma PlacedPut(sys: System, sys': System, d: DestinationId)
    requires Placed(sys) && sys'.stages == sys.stages && sys'.tasks == sys.tasks && sys'.sessions.Keys == sys.sessions.Keys
    requires d in sys.dests && d in sys'.dests && sys'.dests == sys.dests[d := sys'.dests[d]]
    requires NothingQueued(sys.dests[d], sys'.dests[d])
    ensures Placed(sys')
  {
    PlacedFrame(sys, sys');
  }

  lemma ToldPut(sys: System, sys': System, d: DestinationId)
    requires Placed(sys) && Told(sys) && sys'.stages == sys.stages && sys'.sessions == sys.sessions
    requires d in sys.dests && d in sys'.dests && sys'.dests == sys.dests[d := sys'.dests[d]]
    requires DuesKept(sys, d, sys.dests[d], sys'.dests[d], {})
    ensures Told(sys')
  {
    ToldFrame(sys, sys');
  }

  ghost predicate NothingQueued(dest: Dest, dest': Dest) {
    && dest'.issued == dest.issued
    && dest.queue.received <= dest'.queue.received
    && |dest.queue.sent| <= |dest'.queue.sent| && dest'.queue.sent[..|dest.queue.sent|] == dest.queue.sent
    && (forall i :: |dest.queue.sent| <= i < |dest'.queue.sent| ==> !dest'.queue.sent[i].Subscribe?)
  }

  lemma DestPlacedFrame(sys: System, sys': System, d: DestinationId, dest: Dest, dest': Dest)
    requires DestPlaced(sys, d, dest) && sys'.stages == sys.stages && NothingQueued(dest, dest')
    ensures DestPlaced(sys', d, dest')
  {
    forall i | dest'.queue.received <= i < |dest'.queue.sent| && dest'.queue.sent[i].Subscribe?
      ensures Staged(sys', dest'.queue.sent[i].subscriber, dest'.queue.sent[i].subscriberSubId, Queued(d, i))
    {
      assert dest'.queue.sent[i] == dest.queue.sent[i];
    }
  }

  /** In destination `d`, nothing but `key` moves, and that from stage `old` to stage `new`. */
  ghost predicate OnlyMoves(d: DestinationId, dest: Dest, dest': Dest, key: (SessionId, SubscriptionId), old': Stage, new': Stage) {
    && (forall i :: dest'.queue.received <= i < |dest'.queue.sent| && dest'.queue.sent[i].Subscribe? ==>
          || (dest.queue.received <= i < |dest.queue.sent| && dest'.queue.sent[i] == dest.queue.sent[i] && Queued(d, i) != old')
          || (Queued(d, i) == new' && dest'.queue.sent[i].subscriber == key.0 && dest'.queue.sent[i].subscriberSubId == Some(key.1)))
    && (forall u <- dest'.issued ::
          || (u in dest.issued && dest'.issued[u] == dest.issued[u] && Inserted(d, u) != old')
          || (Inserted(d, u) == new' && dest'.issued[u].subscription == Subscription(u, Some(key.1), key.0)))
  }

  /** One subscription moves on at `d`; whatever else has a place keeps it, because no two things share a stage. */
  lemma StageMoves(sys: System, sys': System, key: (SessionId, SubscriptionId), d: DestinationId)
    requires Placed(sys) && key in sys.stages && key in sys'.stages
    requires sys'.stages == sys.stages[key := sys'.stages[key]] && sys'.sessions.Keys == sys.sessions.Keys
    requires forall n <- sys'.tasks :: n in sys.tasks && sys'.tasks[n] == sys.tasks[n] && Spawned(n) != sys.stages[key]
    requires d in sys.dests && d in sys'.dests && sys'.dests == sys.dests[d := sys'.dests[d]]
    requires sys.stages[key].Spawned? || (sys.stages[key].Queued? && sys.stages[key].destination == d)
    requires OnlyMoves(d, sys.dests[d], sys'.dests[d], key, sys.stages[key], sys'.stages[key])
    requires IssuesGrow(sys.dests, sys'.dests) && Anchored(sys', key) && key.0 in sys.sessions
    ensures Placed(sys')
  {
    forall other <- sys'.stages ensures Anchored(sys', other) {
      if other != key {
        AnchoredFrame(sys, sys', other);
      }
    }
    forall n <- sys'.tasks ensures Staged(sys', sys'.tasks[n].session, Some(sys'.tasks[n].clientId), Spawned(n)) {
      assert Staged(sys, sys.tasks[n].session, Some(sys.tasks[n].clientId), Spawned(n));
    }
    forall e <- sys'.dests ensures DestPlaced(sys', e, sys'.dests[e]) {
      assert DestPlaced(sys, e, sys.dests[e]);
      if e == d {
        DestMoves(sys, sys', key, d);
      } else {
        OthersStay(sys, sys', key, e);
      }
    }
  }

  lemma DestMoves(sys: System, sys': System, key: (SessionId, SubscriptionId), d: DestinationId)
    requires key in sys.stages && key in sys'.stages && sys'.stages == sys.stages[key := sys'.stages[key]]
    requires d in sys.dests && d in sys'.dests && DestPlaced(sys, d, sys.dests[d])
    requires OnlyMoves(d, sys.dests[d], sys'.dests[d], key, sys.stages[key], sys'.stages[key])
    ensures DestPlaced(sys', d, sys'.dests[d])
  {
  }

  lemma OthersStay(sys: System, sys': System, key: (SessionId, SubscriptionId), d: DestinationId)
    requires key in sys.stages && key in sys'.stages && sys'.stages == sys.stages[key := sys'.stages[key]]
    requires sys.stages[key].Spawned? || (sys.stages[key].Queued? && sys.stages[key].destination != d)
    requires d in sys.dests && d in sys'.dests && sys'.dests[d] == sys.dests[d] && DestPlaced(sys, d, sys.dests[d])
    ensures DestPlaced(sys', d, sys'.dests[d])
  {
  }

  ghost predicate Orderly(sys: System) {
    Sound(sys) && Placed(sys) && Told(sys)
  }

  // ---------- sessions ----------

  lemma SettleTells(session: Session, reaction: Reaction)
    ensures NothingTold(session, Settle(session, reaction))
    ensures Settle(session, reaction).inbox.open ==> session.inbox.open
  {
    if reaction.sendsClose && session.inbox.open {
      assert session.inbox.Push(ClientEvent.Close).sent == session.inbox.sent + [ClientEvent.Close];
    }
  }

  lemma SubmitPlaced(sys: System, d: DestinationId, action: Action)
    requires Placed(sys) && d in sys.dests && !action.Subscribe?
    ensures Placed(Put(sys, d, Submit(sys.dests[d], action)))
  {
    var dest' := Submit(sys.dests[d], action);
    assert NothingQueued(sys.dests[d], dest');
    PlacedFrame(sys, Put(sys, d, dest'));
  }

  lemma SubmitTold(sys: System, d: DestinationId, action: Action)
    requires Placed(sys) && Told(sys) && d in sys.dests
    ensures Told(Put(sys, d, Submit(sys.dests[d], action)))
  {
    DuesSame(sys, d, sys.dests[d], Submit(sys.dests[d], action), {});
    ToldFrame(sys, Put(sys, d, Submit(sys.dests[d], action)));
  }

  lemma CrashKeeps(sys: System, sid: SessionId)
    requires Placed(sys) && Told(sys) && sid in sys.sessions
    ensures Placed(sys.(sessions := sys.sessions[sid := CrashSession(sys.sessions[sid])]))
    ensures Told(sys.(sessions := sys.sessions[sid := CrashSession(sys.sessions[sid])]))
  {
    PlacedFrame(sys, sys.(sessions := sys.sessions[sid := CrashSession(sys.sessions[sid])]));
    ToldFrame(sys, sys.(sessions := sys.sessions[sid := CrashSession(sys.sessions[sid])]));
  }

  /** The session's own part of handling an event. */
  lemma SettleOrderly(sys: System, sid: SessionId, session: Session, reaction: Reaction)
    requires Placed(sys) && Told(sys) && Live(sys, sid)
    requires session.inbox.sent == sys.sessions[sid].inbox.sent && session.inbox.open
    ensures var sys' := sys.(sessions := sys.sessions[sid := Settle(session, reaction)]); Placed(sys') && Told(sys')
  {
    var sys' := sys.(sessions := sys.sessions[sid := Settle(session, reaction)]);
    SettleTells(session, reaction);
    PlacedFrame(sys, sys');
    ToldFrame(sys, sys');
  }

  lemma SubscribePlaced(sys: System, sid: SessionId, d: DestinationId, clientId: SubscriptionId, sys': System)
    requires Placed(sys) && sid in sys.sessions && (sid, clientId) !in sys.stages
    requires forall n <- sys.tasks :: n < sys.spawned
    requires sys' == MakeCall(sys, sid, SubscribeTo(d, clientId))
    ensures Placed(sys')
  {
    forall d <- sys'.dests ensures DestPlaced(sys', d, sys'.dests[d]) {
      assert DestPlaced(sys, d, sys.dests[d]);
    }
    forall n <- sys'.tasks ensures Staged(sys', sys'.tasks[n].session, Some(sys'.tasks[n].clientId), Spawned(n)) {
      if n != sys.spawned {
        assert Staged(sys, sys.tasks[n].session, Some(sys.tasks[n].clientId), Spawned(n));
      }
    }
    forall key <- sys'.stages ensures Anchored(sys', key) {
      if key != (sid, clientId) {
        AnchoredFrame(sys, sys', key);
      }
    }
  }

  lemma SubscribeTold(sys: System, sid: SessionId, d: DestinationId, clientId: SubscriptionId, sys': System)
    requires Placed(sys) && Told(sys) && sid in sys.sessions && (sid, clientId) !in sys.stages
    requires sys' == MakeCall(sys, sid, SubscribeTo(d, clientId))
    ensures Told(sys')
  {
    forall other, id | other in sys'.sessions ensures Agrees(sys', other, id) {
      assert Agrees(sys, other, id);
      if (other, id) != (sid, clientId) {
        AgreesFrame(sys, sys', other, id, d, {});
      }
    }
  }

  lemma RespondOrderly(sys: System, sid: SessionId, session: Session, reaction: Reaction)
    requires Orderly(sys) && Live(sys, sid)
    requires SessionKnown(sys.dests, sid, session) && ReactionKnown(sys.dests, sid, reaction)
    requires session.inbox.sent == sys.sessions[sid].inbox.sent && session.inbox.open
    requires reaction.call.Some? && reaction.call.value.SubscribeTo? ==> (sid, reaction.call.value.clientId) !in sys.stages
    ensures Orderly(Respond(sys, sid, session, reaction))
  {
    RespondSound(sys, sid, session, reaction);
    SettleOrderly(sys, sid, session, reaction);
    var sys' := sys.(sessions := sys.sessions[sid := Settle(session, reaction)]);
    SettleKnown(sys.dests, sid, session, reaction);
    Recompose(sys, sys');
    if reaction.call.Some? {
      CallOrderly(sys', sid, reaction.call.value);
    }
  }

  lemma CallOrderly(sys: System, sid: SessionId, call: Call)
    requires Sound(sys) && Placed(sys) && Told(sys) && sid in sys.sessions
    requires call.SubscribeTo? ==> (sid, call.clientId) !in sys.stages
    ensures Placed(MakeCall(sys, sid, call)) && Told(MakeCall(sys, sid, call))
  {
    match call
    case SubscribeTo(d, clientId) =>
      SubscribePlaced(sys, sid, d, clientId, MakeCall(sys, sid, call));
      SubscribeTold(sys, sid, d, clientId, MakeCall(sys, sid, call));
    case SendTo(d, message) =>
      if d in sys.dests {
        SubmitPlaced(sys, d, DestinationAction.Send(message, sid));
        SubmitTold(sys, d, DestinationAction.Send(message, sid));
      }
    case UnsubscribeFrom(d, u) =>
      if d in sys.dests {
        SubmitPlaced(sys, d, DestinationAction.Unsubscribe(u, sid));
        SubmitTold(sys, d, DestinationAction.Unsubscribe(u, sid));
        if !sys.dests[d].queue.open {
          CrashKeeps(Put(sys, d, Submit(sys.dests[d], DestinationAction.Unsubscribe(u, sid))), sid);
        }
      }
  }

  lemma AcceptOrderly(sys: System, sid: SessionId, heartbeat: HeartBeat)
    requires Placed(sys) && Told(sys) && Enabled(sys, Accept(sid, heartbeat))
    ensures Placed(Apply(sys, Accept(sid, heartbeat))) && Told(Apply(sys, Accept(sid, heartbeat)))
  {
    var sys' := Apply(sys, Accept(sid, heartbeat));
    PlacedFrame(sys, sys');
    forall other, id | other in sys'.sessions ensures Agrees(sys', other, id) {
      if other != sid {
        assert Agrees(sys, other, id);
        AgreesFrame(sys, sys', other, id, DestinationId(""), {});
      }
    }
  }

  lemma HandleOrderly(sys: System, step: Step)
    requires Orderly(sys) && Enabled(sys, step) && FreshKey(sys, step) && (step.FromClient? || step.FromServer?)
    ensures Orderly(Apply(sys, step))
  {
    var session := sys.sessions[step.session];
    var event := if step.FromClient? then step.event else session.inbox.sent[session.inbox.received];
    assert EventKnown(sys.dests, step.session, event);
    ReactKnown(sys.dests, step.session, session.active, event);
    CallAsked(session.active, event);
    RespondOrderly(sys, step.session, if step.FromClient? then session else session.(inbox := session.inbox.Pop()),
                   React(session.active, event));
  }

  /** Only a SUBSCRIBE frame makes a session subscribe, and to the id it carries. */
  lemma CallAsked(active: ActiveTable, event: ClientEvent)
    ensures var call := React(active, event).call;
      call.Some? && call.value.SubscribeTo? ==>
        event.ClientFrame? && event.frame.Ok? && event.frame.value.Subscribe? && event.frame.value.id == call.value.clientId
  {
  }

  // ---------- subscribe tasks ----------

  lemma RunTaskPlaced(sys: System, n: nat, sys': System)
    requires Placed(sys) && Enabled(sys, RunTask(n)) && sys.tasks[n].session in sys.sessions
    requires sys' == RunSubscribeTask(sys, n)
    ensures Placed(sys')
  {
    var task := sys.tasks[n];
    var key := (task.session, task.clientId);
    assert Staged(sys, task.session, Some(task.clientId), Spawned(n));
    RunTaskShape(sys, n);
    StageMoves(sys, sys', key, task.destination);
  }

  lemma RunTaskTold(sys: System, n: nat, sys': System)
    requires Placed(sys) && Told(sys) && Enabled(sys, RunTask(n)) && sys.tasks[n].session in sys.sessions
    requires sys' == RunSubscribeTask(sys, n)
    ensures Told(sys')
  {
    var task := sys.tasks[n];
    var d, sid, id := task.destination, task.session, task.clientId;
    assert Staged(sys, sid, Some(id), Spawned(n));
    DuesSame(sys, d, sys.dests[d], sys'.dests[d], {});
    if sys.dests[d].queue.open {
      OneDestDues(sys, sys', d, {});
      RunTaskQueued(sys, n, sys');
    } else {
      assert Agrees(sys, sid, id);
      ToldOne(sys, sys', sid, id, Subscribed(d, id, Err("Subscribe failed")), d, {});
    }
  }

  lemma RunTaskQueued(sys: System, n: nat, sys': System)
    requires Placed(sys) && Told(sys) && Enabled(sys, RunTask(n)) && sys.dests[sys.tasks[n].destination].queue.open
    requires Staged(sys, sys.tasks[n].session, Some(sys.tasks[n].clientId), Spawned(n))
    requires sys' == RunSubscribeTask(sys, n) && AllDuesKept(sys, sys', sys.tasks[n].destination, {})
    ensures Told(sys')
  {
    forall other, id | other in sys'.sessions ensures Agrees(sys', other, id) {
      assert Agrees(sys, other, id);
      if (other, id) != (sys.tasks[n].session, sys.tasks[n].clientId) {
        AgreesFrame(sys, sys', other, id, sys.tasks[n].destination, {});
      }
    }
  }

  // ---------- backends ----------

  lemma InsertPlaced(sys: System, d: DestinationId, u: SubscriptionId, sys': System)
    requires Placed(sys) && Takes(sys, d) && NextAction(sys.dests[d]).value.Subscribe? && u !in sys.dests[d].issued
    requires sys' == AddSubscription(sys, d, u)
    requires Staged(sys, NextAction(sys.dests[d]).value.subscriber, NextAction(sys.dests[d]).value.subscriberSubId,
                    Queued(d, sys.dests[d].queue.received))
    ensures Placed(sys')
  {
    StageMoves(sys, sys', (NextAction(sys.dests[d]).value.subscriber, NextAction(sys.dests[d]).value.subscriberSubId.value), d);
  }

  lemma InsertTold(sys: System, d: DestinationId, u: SubscriptionId, sid: SessionId, id: SubscriptionId, sys': System)
    requires Placed(sys) && Told(sys) && Takes(sys, d)
    requires NextAction(sys.dests[d]).value == DestinationAction.Subscribe(Some(id), sid)
    requires u !in sys.dests[d].issued && u !in sys.dests[d].removed && sid in sys.sessions
    requires sys' == AddSubscription(sys, d, u)
    requires Staged(sys, sid, Some(id), Queued(d, sys.dests[d].queue.received))
    ensures Told(sys')
  {
    assert Agrees(sys, sid, id);
    DuesSame(sys, d, sys.dests[d], sys'.dests[d], {u});
    assert Due(sys'.dests[d], u) == [];
    ToldOne(sys, sys', sid, id, Subscribed(d, id, Ok(u)), d, {u});
  }

  lemma TakeSubscribeKept(sys: System, d: DestinationId, u: SubscriptionId)
    requires Orderly(sys) && Enabled(sys, TakeSubscribe(d, u))
    ensures Placed(Apply(sys, TakeSubscribe(d, u))) && Told(Apply(sys, TakeSubscribe(d, u)))
  {
    var dest, action := sys.dests[d], NextAction(sys.dests[d]).value;
    assert ActionKnown(sys, dest.issued, action) && TableKnown(sys, dest) && DestPlaced(sys, d, dest);
    InsertPlaced(sys, d, u, AddSubscription(sys, d, u));
    InsertTold(sys, d, u, action.subscriber, action.subscriberSubId.value, AddSubscription(sys, d, u));
  }

  lemma RemoveTold(sys: System, d: DestinationId, u: SubscriptionId, sid: SessionId, id: SubscriptionId, sys': System)
    requires Placed(sys) && Told(sys) && Takes(sys, d)
    requires NextAction(sys.dests[d]).value == DestinationAction.Unsubscribe(u, sid)
    requires Names(sys.dests, d, u, sid, id) && sid in sys.sessions && Staged(sys, sid, Some(id), Inserted(d, u))
    requires u !in sys.dests[d].removed && ReportedId(sys.dests[d].table, u) == Some(id)
    requires sys' == RemoveSubscription(sys, d)
    ensures Told(sys')
  {
    assert Agrees(sys, sid, id);
    DuesSame(sys, d, sys.dests[d], sys'.dests[d], {u});
    assert Due(sys'.dests[d], u) == Due(sys.dests[d], u);
    ToldOne(sys, sys', sid, id, Unsubscribed(id, Ok(u)), d, {u});
  }

  lemma RemoveMoves(sys: System, d: DestinationId)
    requires Takes(sys, d) && NextAction(sys.dests[d]).value.Unsubscribe?
    ensures var sys' := RemoveSubscription(sys, d);
      && sys'.stages == sys.stages && sys'.tasks == sys.tasks && sys'.sessions.Keys == sys.sessions.Keys
      && d in sys'.dests && sys'.dests == sys.dests[d := sys'.dests[d]]
      && sys'.dests[d].queue.sent == sys.dests[d].queue.sent && sys'.dests[d].queue.received == sys.dests[d].queue.received + 1
      && sys'.dests[d].issued == sys.dests[d].issued
  {
  }

  lemma RemovePlaced(sys: System, d: DestinationId, sys': System)
    requires Placed(sys) && Takes(sys, d) && NextAction(sys.dests[d]).value.Unsubscribe? && sys' == RemoveSubscription(sys, d)
    ensures Placed(sys')
  {
    RemoveMoves(sys, d);
    PlacedPut(sys, sys', d);
  }

  lemma TakeUnsubscribeKept(sys: System, d: DestinationId)
    requires Orderly(sys) && Enabled(sys, TakeUnsubscribe(d))
    ensures Placed(Apply(sys, TakeUnsubscribe(d))) && Told(Apply(sys, TakeUnsubscribe(d)))
  {
    var dest, action := sys.dests[d], NextAction(sys.dests[d]).value;
    assert DestKnown(sys, dest) && ActionKnown(sys, dest.issued, action) && DestPlaced(sys, d, dest);
    RemovePlaced(sys, d, RemoveSubscription(sys, d));
    if ReportedId(dest.table, action.subId).None? {
      CrashTold(sys, d);
    } else {
      assert IssueKnown(sys, action.subId, dest.issued[action.subId], |dest.log|);
      RemoveTold(sys, d, action.subId, action.subscriber, dest.table[action.subId].subscriberSubId.value,
                 RemoveSubscription(sys, d));
    }
  }

  lemma CrashTold(sys: System, d: DestinationId)
    requires Placed(sys) && Told(sys) && Takes(sys, d) && NextAction(sys.dests[d]).value.Unsubscribe?
    requires ReportedId(sys.dests[d].table, NextAction(sys.dests[d]).value.subId).None?
    ensures Told(RemoveSubscription(sys, d))
  {
    DuesSame(sys, d, sys.dests[d], RemoveSubscription(sys, d).dests[d], {});
    ToldPut(sys, RemoveSubscription(sys, d), d);
  }

  lemma StartDue(d: DestinationId, dest: Dest, message: OutboundMessage, dest': Dest, u: SubscriptionId)
    requires u in dest.issued && dest.fanOut.None? && dest.issued[u].from <= |dest.log|
    requires dest'.issued == dest.issued && dest'.removed == dest.removed && dest'.log == dest.log + [message]
    requires dest'.fanOut == Some(FanOut(message, dest.table, {}))
    requires if u in dest.removed then dest.removed[u] <= |dest.log| else u in dest.table
    ensures DuePhase(d, dest', u) == DuePhase(d, dest, u)
  {
    var to := if u in dest.removed then dest.removed[u] else |dest.log|;
    var from := dest.issued[u].from;
    if from <= to {
      assert (dest.log + [message])[from..to] == dest.log[from..to];
    }
  }

  /** Starting a fan-out makes the message due to nobody yet: everybody in the table remains to be visited. */
  lemma StartDues(sys: System, d: DestinationId, dest: Dest, message: OutboundMessage, dest': Dest)
    requires TableKnown(sys, dest) && dest.fanOut.None?
    requires dest'.issued == dest.issued && dest'.removed == dest.removed && dest'.log == dest.log + [message]
    requires dest'.fanOut == Some(FanOut(message, dest.table, {}))
    ensures DuesKept(sys, d, dest, dest', {})
  {
    forall u <- dest.issued | Live(sys, dest.issued[u].subscription.subscriber)
      ensures DuePhase(d, dest', u) == DuePhase(d, dest, u)
    {
      assert IssueKnown(sys, u, dest.issued[u], |dest.log|);
      assert u in dest.table || Departed(dest, u);
      StartDue(d, dest, message, dest', u);
    }
  }

  lemma TakeSendKept(sys: System, d: DestinationId, messageId: MessageId)
    requires Orderly(sys) && Enabled(sys, TakeSend(d, messageId))
    ensures Placed(Apply(sys, TakeSend(d, messageId))) && Told(Apply(sys, TakeSend(d, messageId)))
  {
    assert DestKnown(sys, sys.dests[d]);
    var sys' := StartSend(sys, d, messageId);
    StartDues(sys, d, sys.dests[d], Outbound(d, messageId, NextAction(sys.dests[d]).value.message), sys'.dests[d]);
    PlacedPut(sys, sys', d);
    ToldPut(sys, sys', d);
  }

  lemma DeliverPlaced(sys: System, d: DestinationId, u: SubscriptionId, sys': System)
    requires Placed(sys) && Enabled(sys, Deliver(d, u)) && sys' == DeliverOne(sys, d, u)
    requires sys.dests[d].fanOut.value.remaining[u].subscriberSubId.Some?
    ensures Placed(sys')
  {
    assert sys'.dests == sys.dests[d := sys'.dests[d]] && sys'.dests[d].queue == sys.dests[d].queue;
    PlacedPut(sys, sys', d);
  }

  lemma DeliverReaches(sys: System, d: DestinationId, u: SubscriptionId, sid: SessionId, id: SubscriptionId)
    requires Enabled(sys, Deliver(d, u)) && Live(sys, sid)
    requires sys.dests[d].fanOut.value.remaining[u] == Subscription(u, Some(id), sid)
    ensures var sys', dest := DeliverOne(sys, d, u), sys.dests[d];
      && sys'.sessions
         == sys.sessions[sid := sys.sessions[sid].(inbox := sys.sessions[sid].inbox.Push(ServerMessage(id, dest.fanOut.value.message)))]
      && sys'.stages == sys.stages
      && d in sys'.dests && sys'.dests == sys.dests[d := sys'.dests[d]]
      && sys'.dests[d] == dest.(fanOut := Some(dest.fanOut.value.(remaining := dest.fanOut.value.remaining - {u})))
  {
  }

  lemma DueGrows(dest: Dest, dest': Dest, u: SubscriptionId)
    requires FanOutKnown(dest) && dest.fanOut.Some? && u in dest.issued && u in dest.fanOut.value.remaining && u !in dest.removed
    requires dest.issued[u].from < |dest.log|
    requires dest' == dest.(fanOut := Some(dest.fanOut.value.(remaining := dest.fanOut.value.remaining - {u})))
    ensures Due(dest', u) == Due(dest, u) + [dest.fanOut.value.message]
  {
  }

  /** A copy reaches a live session. */
  lemma DeliverTold(sys: System, d: DestinationId, u: SubscriptionId, sid: SessionId, id: SubscriptionId, sys': System)
    requires Placed(sys) && Told(sys) && Enabled(sys, Deliver(d, u)) && FanOutKnown(sys.dests[d])
    requires sys.dests[d].fanOut.value.remaining[u] == Subscription(u, Some(id), sid) && Live(sys, sid)
    requires Names(sys.dests, d, u, sid, id) && Staged(sys, sid, Some(id), Inserted(d, u)) && u !in sys.dests[d].removed
    requires sys.dests[d].issued[u].from < |sys.dests[d].log|
    requires sys' == DeliverOne(sys, d, u)
    ensures Told(sys')
  {
    var dest := sys.dests[d];
    assert Agrees(sys, sid, id);
    DeliverReaches(sys, d, u, sid, id);
    DuesSame(sys, d, dest, sys'.dests[d], {u});
    DueGrows(dest, sys'.dests[d], u);
    ToldOne(sys, sys', sid, id, ServerMessage(id, dest.fanOut.value.message), d, {u});
  }

  /** A copy bounces off a dead session, to which nothing is due any more. */
  lemma BounceTold(sys: System, d: DestinationId, u: SubscriptionId, sys': System)
    requires Placed(sys) && Told(sys) && Enabled(sys, Deliver(d, u)) && u in sys.dests[d].issued
    requires sys.dests[d].fanOut.value.remaining[u] == sys.dests[d].issued[u].subscription
    requires sys.dests[d].issued[u].subscription.subscriberSubId.Some?
    requires !Live(sys, sys.dests[d].issued[u].subscription.subscriber)
    requires sys' == DeliverOne(sys, d, u)
    ensures Told(sys')
  {
    DuesSame(sys, d, sys.dests[d], sys'.dests[d], {u});
    ToldPut(sys, sys', d);
  }

  lemma DeliverKept(sys: System, d: DestinationId, u: SubscriptionId)
    requires Orderly(sys) && Enabled(sys, Deliver(d, u))
    ensures Placed(Apply(sys, Deliver(d, u))) && Told(Apply(sys, Deliver(d, u)))
  {
    var dest := sys.dests[d];
    assert DestKnown(sys, dest) && DestPlaced(sys, d, dest);
    assert IssueKnown(sys, u, dest.issued[u], |dest.log|);
    var subscription := dest.issued[u].subscription;
    assert dest.fanOut.value.remaining[u] == subscription;
    DeliverPlaced(sys, d, u, DeliverOne(sys, d, u));
    if Live(sys, subscription.subscriber) {
      DeliverTold(sys, d, u, subscription.subscriber, subscription.subscriberSubId.value, DeliverOne(sys, d, u));
    } else {
      BounceTold(sys, d, u, DeliverOne(sys, d, u));
    }
  }

  /** A change at `d` of what neither places nor dues depend on. */
  lemma QuietKeeps(sys: System, sys': System, d: DestinationId)
    requires Placed(sys) && Told(sys) && sys'.stages == sys.stages && sys'.sessions == sys.sessions && sys'.tasks == sys.tasks
    requires d in sys.dests && d in sys'.dests && sys'.dests == sys.dests[d := sys'.dests[d]]
    requires NothingQueued(sys.dests[d], sys'.dests[d])
    requires sys'.dests[d].log == sys.dests[d].log && sys'.dests[d].removed == sys.dests[d].removed
    requires var dest, dest' := sys.dests[d], sys'.dests[d];
      dest'.fanOut == dest.fanOut || (dest'.fanOut.None? && (dest.fanOut.Some? ==> dest.fanOut.value.remaining == map[]))
    ensures Placed(sys') && Told(sys')
  {
    DuesSame(sys, d, sys.dests[d], sys'.dests[d], {});
    PlacedPut(sys, sys', d);
    ToldPut(sys, sys', d);
  }

  lemma QueueKept(sys: System, step: Step)
    requires Placed(sys) && Told(sys) && Enabled(sys, step)
    requires step.TakeClose? || step.CloseDestination? || step.FinishSend?
    ensures Placed(Apply(sys, step)) && Told(Apply(sys, step))
  {
    QuietKeeps(sys, Apply(sys, step), step.destination);
  }

  lemma CreateKept(sys: System, d: DestinationId)
    requires Placed(sys) && Told(sys) && d !in sys.dests
    ensures Placed(Put(sys, d, NewDest())) && Told(Put(sys, d, NewDest()))
  {
    PlacedFrame(sys, Put(sys, d, NewDest()));
    ToldFrame(sys, Put(sys, d, NewDest()));
  }

  lemma NotifyKept(sys: System, sid: SessionId, event: ClientEvent)
    requires Placed(sys) && Told(sys) && sid in sys.sessions && event.Error?
    ensures Placed(Notify(sys, sid, event)) && Told(Notify(sys, sid, event))
  {
    var sys' := Notify(sys, sid, event);
    var sent := sys.sessions[sid].inbox.sent;
    assert NothingTold(sys.sessions[sid], sys'.sessions[sid]) by {
      assert sys.sessions[sid].inbox.open ==> sys'.sessions[sid].inbox.sent == sent + [event];
    }
    PlacedFrame(sys, sys');
    ToldFrame(sys, sys');
  }

  lemma DropKept(sys: System, sid: SessionId, sys': System)
    requires Placed(sys) && Told(sys) && sid in sys.sessions
    requires sys' == sys.(sessions := sys.sessions[sid := sys.sessions[sid].(inbox := sys.sessions[sid].inbox.Shut())])
    ensures Placed(sys') && Told(sys')
  {
    PlacedFrame(sys, sys');
    ToldFrame(sys, sys');
  }

  lemma RunTaskKept(sys: System, n: nat)
    requires Orderly(sys) && Enabled(sys, RunTask(n))
    ensures Placed(Apply(sys, RunTask(n))) && Told(Apply(sys, RunTask(n)))
  {
    RunTaskPlaced(sys, n, RunSubscribeTask(sys, n));
    RunTaskTold(sys, n, RunSubscribeTask(sys, n));
  }

  /** Every step that handles no second SUBSCRIBE of an id keeps everything in order. */
  lemma StepOrderly(sys: System, step: Step)
    requires Orderly(sys) && Enabled(sys, step) && FreshKey(sys, step)
    ensures Orderly(Apply(sys, step))
  {
    StepSound(sys, step);
    match step
    case Accept(sid, heartbeat) => AcceptOrderly(sys, sid, heartbeat);
    case FromClient(_, _) => HandleOrderly(sys, step);
    case FromServer(_) => HandleOrderly(sys, step);
    case Drop(sid) => DropKept(sys, sid, Apply(sys, step));
    case MissHeartbeat(sid) => NotifyKept(sys, sid, ClientEvent.Error("Missed heartbeat"));
    case CreateDestination(d) => CreateKept(sys, d);
    case RunTask(n) => RunTaskKept(sys, n);
    case CloseDestination(_) => QueueKept(sys, step);
    case TakeSubscribe(d, u) => TakeSubscribeKept(sys, d, u);
    case TakeUnsubscribe(d) => TakeUnsubscribeKept(sys, d);
    case TakeSend(d, messageId) => TakeSendKept(sys, d, messageId);
    case TakeClose(_) => QueueKept(sys, step);
    case Deliver(d, u) => DeliverKept(sys, d, u);
    case FinishSend(_) => QueueKept(sys, step);
  }
}
