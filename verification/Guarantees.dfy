/**
 What the protocol guarantees in every reachable state, when no session uses a client
 subscription id twice (STOMP 1.2, "SUBSCRIBE id Header").
 */
module Guarantees {
  import opened Types
  import opened Channels
  import opened Actions
  import opened Reactions
  import opened Protocol
  import opened Bookkeeping
  import opened Lifecycle
  import opened Accounts
  import opened Delivery
  import opened Tables

  ghost predicate ReachableWithUniqueIds(sys: System) {
    exists steps :: IsRun(INITIAL, steps) && UniqueIds(steps) && After(INITIAL, steps) == sys
  }

  // ---------- induction over the run ----------

  /** No step of the rest of the run asks for a subscription that has been asked for before. */
  ghost predicate NewKeys(sys: System, steps: seq<Step>) {
    forall i :: 0 <= i < |steps| && SubscribeKey(steps[i]).Some? ==> SubscribeKey(steps[i]).value !in sys.stages
  }

  lemma RespondStages(sys: System, sid: SessionId, session: Session, reaction: Reaction)
    requires sid in sys.sessions
    ensures forall key <- Respond(sys, sid, session, reaction).stages ::
              key in sys.stages
              || (reaction.call.Some? && reaction.call.value.SubscribeTo? && key == (sid, reaction.call.value.clientId))
  {
  }

  lemma StageKeys(sys: System, step: Step)
    requires Orderly(sys) && Enabled(sys, step)
    ensures forall key <- Apply(sys, step).stages :: key in sys.stages || SubscribeKey(step) == Some(key)
  {
    match step
    case FromClient(sid, event) =>
      CallAsked(sys.sessions[sid].active, event);
      RespondStages(sys, sid, sys.sessions[sid], React(sys.sessions[sid].active, event));
    case FromServer(sid) =>
      var session := sys.sessions[sid];
      var event := session.inbox.sent[session.inbox.received];
      assert SessionKnown(sys.dests, sid, session);
      OwnEventsCallNobody(session.active, event);
      RespondStages(sys, sid, session.(inbox := session.inbox.Pop()), React(session.active, event));
    case RunTask(n) => RunTaskStages(sys, n);
    case TakeSubscribe(d, u) => AddStages(sys, d, u);
    case _ => OtherStages(sys, step);
  }

  lemma RunTaskStages(sys: System, n: nat)
    requires Placed(sys) && Enabled(sys, RunTask(n))
    ensures RunSubscribeTask(sys, n).stages.Keys == sys.stages.Keys
  {
    assert Staged(sys, sys.tasks[n].session, Some(sys.tasks[n].clientId), Spawned(n));
  }

  lemma AddStages(sys: System, d: DestinationId, u: SubscriptionId)
    requires Placed(sys) && Takes(sys, d) && NextAction(sys.dests[d]).value.Subscribe?
    ensures AddSubscription(sys, d, u).stages.Keys == sys.stages.Keys
  {
    var dest, action := sys.dests[d], NextAction(sys.dests[d]).value;
    assert DestPlaced(sys, d, dest);
    assert Staged(sys, action.subscriber, action.subscriberSubId, Queued(d, dest.queue.received));
  }

  lemma OtherStages(sys: System, step: Step)
    requires Enabled(sys, step)
    requires !step.FromClient? && !step.FromServer? && !step.RunTask? && !step.TakeSubscribe?
    ensures Apply(sys, step).stages == sys.stages
  {
  }

  lemma NextKeys(sys: System, steps: seq<Step>)
    requires Orderly(sys) && steps != [] && Enabled(sys, steps[0]) && NewKeys(sys, steps) && UniqueIds(steps)
    ensures FreshKey(sys, steps[0]) && NewKeys(Apply(sys, steps[0]), steps[1..]) && UniqueIds(steps[1..])
  {
    StageKeys(sys, steps[0]);
    var rest, sys' := steps[1..], Apply(sys, steps[0]);
    forall i | 0 <= i < |rest| && SubscribeKey(rest[i]).Some? ensures SubscribeKey(rest[i]).value !in sys'.stages {
      assert rest[i] == steps[i + 1];
    }
  }

  /** A channel in order hands the session an event that keeps its history whole. */
  lemma NextEventWhole(sys: System, sid: SessionId)
    requires Orderly(sys) && Enabled(sys, FromServer(sid))
    ensures var inbox := sys.sessions[sid].inbox;
      Internal(inbox.sent[inbox.received]) && forall id :: !PhaseOf(inbox.Pop().Taken(), id).Broken?
  {
    var inbox := sys.sessions[sid].inbox;
    assert SessionKnown(sys.dests, sid, sys.sessions[sid]);
    forall id ensures !PhaseOf(inbox.Pop().Taken(), id).Broken? {
      assert Agrees(sys, sid, id);
      PrefixDevelops(inbox.sent, inbox.received + 1, id);
    }
  }

  lemma {:induction false} RunOrderly(sys: System, steps: seq<Step>)
    requires Orderly(sys) && AllFaithful(sys) && IsRun(sys, steps) && NewKeys(sys, steps) && UniqueIds(steps)
    ensures Orderly(After(sys, steps)) && AllFaithful(After(sys, steps))
    decreases |steps|
  {
    if steps != [] {
      NextKeys(sys, steps);
      StepOrderly(sys, steps[0]);
      if steps[0].FromServer? {
        NextEventWhole(sys, steps[0].session);
      }
      StepFaithful(sys, steps[0]);
      RunOrderly(Apply(sys, steps[0]), steps[1..]);
    }
  }

  lemma InOrder(sys: System)
    requires ReachableWithUniqueIds(sys)
    ensures Orderly(sys) && AllFaithful(sys) && Accounted(sys)
  {
    var steps :| IsRun(INITIAL, steps) && UniqueIds(steps) && After(INITIAL, steps) == sys;
    RunOrderly(INITIAL, steps);
    RunSound(INITIAL, steps);
  }

  // ---------- theorems ----------

  /**
   End-to-end delivery, exactly once and in order: the MESSAGE frames that a live session
   has written for a subscription carry, field by field, the first of the messages that the
   backend has broadcast between the subscription's insertion and its removal, or now; the
   others are on its channel, in order. The broadcasts are the Sends taken, one for one,
   each with its body and an id of its own.
   */
  lemma ExactlyOnceInOrder(sys: System, sid: SessionId, id: SubscriptionId, d: DestinationId, u: SubscriptionId)
    requires ReachableWithUniqueIds(sys) && Live(sys, sid) && Names(sys.dests, d, u, sid, id)
    ensures var session, dest := sys.sessions[sid], sys.dests[d];
      && session.inbox.Valid() && dest.queue.Valid()
      && var frames, due := FramesFor(session.out, id), Due(dest, u);
      && |frames| <= |due|
      && (forall i :: 0 <= i < |frames| ==> Carries(frames[i], due[i], id))
      && MessagesFor(session.inbox.Queue(), id) == due[|frames|..]
      && Broadcasts(d, dest.log, SendsIn(dest.queue.Taken()))
  {
    InOrder(sys);
    var session, dest := sys.sessions[sid], sys.dests[d];
    assert SessionKnown(sys.dests, sid, session) && DestAccounted(d, dest) && DestPlaced(sys, d, dest);
    assert Staged(sys, sid, Some(id), Inserted(d, u));
    assert Agrees(sys, sid, id);
    assert Faithful(session) && Reflects(session.active, session.out, session.inbox.Taken(), id);
    PrefixDevelops(session.inbox.sent, session.inbox.received, id);
    FramesCarry(MessagesIn(PhaseOf(session.inbox.Taken(), id)), MessagesFor(session.inbox.Queue(), id), id);
  }

  lemma FramesCarry(written: seq<OutboundMessage>, queued: seq<OutboundMessage>, id: SubscriptionId)
    ensures var frames, due := FramesOf(written, id), written + queued;
      && |frames| == |written|
      && (forall i :: 0 <= i < |frames| ==> Carries(frames[i], due[i], id))
      && queued == due[|frames|..]
  {
    forall i | 0 <= i < |written| ensures Carries(FramesOf(written, id)[i], (written + queued)[i], id) {
      MessageFrameCarries(id, written[i]);
    }
  }

  /** The bounds of what is due are bounds of the log, so `Due` is the stretch it says. */
  lemma DueIsAStretch(sys: System, d: DestinationId, u: SubscriptionId)
    requires Reachable(sys) && d in sys.dests && u in sys.dests[d].issued
    ensures var dest := sys.dests[d];
      var from := dest.issued[u].from;
      && from <= |dest.log|
      && (u in dest.removed ==> from <= dest.removed[u] <= |dest.log| && Due(dest, u) == dest.log[from..dest.removed[u]])
      && (u !in dest.removed && dest.fanOut.None? ==> Due(dest, u) == dest.log[from..])
      && (u in dest.table && dest.fanOut.Some? ==>
            var to := if u in dest.fanOut.value.remaining then |dest.log| - 1 else |dest.log|;
            from <= to && Due(dest, u) == dest.log[from..to])
  {
    ReachableSound(sys);
    var dest := sys.dests[d];
    assert DestKnown(sys, dest);
    assert TableKnown(sys, dest) && IssueKnown(sys, u, dest.issued[u], |dest.log|);
    StretchOf(dest, u);
    if u in dest.table && dest.fanOut.Some? {
      StretchInFanOut(sys, dest, u);
    }
  }

  lemma StretchOf(dest: Dest, u: SubscriptionId)
    requires u in dest.issued && dest.issued[u].from <= |dest.log|
    requires u in dest.removed ==> dest.issued[u].from <= dest.removed[u] <= |dest.log|
    ensures u in dest.removed ==> Due(dest, u) == dest.log[dest.issued[u].from..dest.removed[u]]
    ensures u !in dest.removed && dest.fanOut.None? ==> Due(dest, u) == dest.log[dest.issued[u].from..]
  {
  }

  /** While a fan-out is in progress, its message is due to those it has visited, and not yet to the others. */
  lemma StretchInFanOut(sys: System, dest: Dest, u: SubscriptionId)
    requires TableKnown(sys, dest) && FanOutKnown(dest) && u in dest.table && dest.fanOut.Some?
    ensures var to := if u in dest.fanOut.value.remaining then |dest.log| - 1 else |dest.log|;
      u in dest.issued && dest.issued[u].from <= to && Due(dest, u) == dest.log[dest.issued[u].from..to]
  {
  }

  /**
   Bracketing: the events ever put on a session's channel for one client id are a prefix
   of `Subscribed(Ok) ServerMessage* Unsubscribed`, or a lone `Subscribed(Err)`.
   */
  lemma Bracketing(sys: System, sid: SessionId, id: SubscriptionId)
    requires ReachableWithUniqueIds(sys) && sid in sys.sessions
    ensures var sent := sys.sessions[sid].inbox.sent;
      !PhaseOf(sent, id).Broken? && About(sent, id) == Script(PhaseOf(sent, id), id)
  {
    InOrder(sys);
    assert Agrees(sys, sid, id);
    PhaseIsScript(sys.sessions[sid].inbox.sent, id);
  }

  /** `server_message` and `unsubscribed` always find their id in the table, and `subscribed` never does, though none looks. */
  lemma HandledIdsAreActive(sys: System, sid: SessionId)
    requires ReachableWithUniqueIds(sys) && Enabled(sys, FromServer(sid))
    ensures var session := sys.sessions[sid];
      var event := session.inbox.sent[session.inbox.received];
      && (event.ServerMessage? || event.Unsubscribed? ==> event.subscription in session.active)
      && (event.Subscribed? ==> event.subscription !in session.active)
      && (event.Unsubscribed? ==> event.result == Ok(session.active[event.subscription].1))
  {
    InOrder(sys);
    NextEventWhole(sys, sid);
    var session := sys.sessions[sid];
    var event, handled := session.inbox.sent[session.inbox.received], session.inbox.Taken();
    assert session.inbox.Pop().Taken() == handled + [event];
    assert Faithful(session);
    if event.ServerMessage? || event.Unsubscribed? || event.Subscribed? {
      assert Reflects(session.active, session.out, handled, event.subscription);
      NextFindsEntry(session.active, session.out, handled, event, event.subscription);
    }
  }

  lemma NextFindsEntry(active: ActiveTable, out: seq<Output>, handled: seq<ClientEvent>, event: ClientEvent, id: SubscriptionId)
    requires Reflects(active, out, handled, id) && Concerns(event, id) && !PhaseOf(handled + [event], id).Broken?
    ensures event.ServerMessage? || event.Unsubscribed? ==> id in active
    ensures event.Subscribed? ==> id !in active
    ensures event.Unsubscribed? ==> event.result == Ok(active[id].1)
  {
    PhaseOfPush(handled, event, id);
  }

  /** Nothing about an id follows its Unsubscribed event. */
  lemma NothingAfterUnsubscribed(sys: System, sid: SessionId, id: SubscriptionId, i: nat, j: nat)
    requires ReachableWithUniqueIds(sys) && sid in sys.sessions && i < j < |sys.sessions[sid].inbox.sent|
    requires sys.sessions[sid].inbox.sent[i].Unsubscribed? && sys.sessions[sid].inbox.sent[i].subscription == id
    ensures !Concerns(sys.sessions[sid].inbox.sent[j], id)
  {
    InOrder(sys);
    assert Agrees(sys, sid, id);
    EndedIsFinal(sys.sessions[sid].inbox.sent, i, j, id);
  }

  /** Two tables agree, forwards: what a live session believes subscribed is so, or its Unsubscribed event is on the way. */
  lemma SessionEntriesMatch(sys: System, sid: SessionId, id: SubscriptionId)
    requires ReachableWithUniqueIds(sys) && Live(sys, sid) && id in sys.sessions[sid].active
    ensures var session := sys.sessions[sid];
      var (d, u) := session.active[id];
      && session.inbox.Valid() && Names(sys.dests, d, u, sid, id)
      && if u in sys.dests[d].table
         then sys.dests[d].table[u] == Subscription(u, Some(id), sid)
         else Unsubscribed(id, Ok(u)) in session.inbox.Queue()
  {
    InOrder(sys);
    var session := sys.sessions[sid];
    var (d, u) := session.active[id];
    assert SessionKnown(sys.dests, sid, session) && EntryKnown(sys.dests, sid, session.active, id);
    assert DestKnown(sys, sys.dests[d]) && DestPlaced(sys, d, sys.dests[d]);
    assert Staged(sys, sid, Some(id), Inserted(d, u));
    assert Agrees(sys, sid, id);
    assert Faithful(session) && Reflects(session.active, session.out, session.inbox.Taken(), id);
    PrefixDevelops(session.inbox.sent, session.inbox.received, id);
    if u !in sys.dests[d].table {
      assert Departed(sys.dests[d], u);
      EndingEvent(session.inbox.sent, session.inbox.received, id);
    }
  }

  /** A history that opens later has its opening event later. */
  lemma {:induction false} OpeningEvent(events: seq<ClientEvent>, n: nat, id: SubscriptionId)
    requires n <= |events| && PhaseOf(events[..n], id).Idle? && PhaseOf(events, id).Open?
    ensures Subscribed(PhaseOf(events, id).destination, id, Ok(PhaseOf(events, id).subscription)) in events[n..]
    decreases |events| - n
  {
    assert events[..|events|] == events;
    if n < |events| {
      var init, last := events[..|events| - 1], events[|events| - 1];
      assert init[..n] == events[..n];
      assert events[n..] == init[n..] + [last];
      if PhaseOf(init, id).Open? {
        OpeningEvent(init, n, id);
      }
    }
  }

  /** Two tables agree, backwards: a live session has every subscription a backend holds for it in its table, or is about to. */
  lemma BackendEntriesMatch(sys: System, d: DestinationId, u: SubscriptionId)
    requires ReachableWithUniqueIds(sys) && d in sys.dests && u in sys.dests[d].table
    requires Live(sys, sys.dests[d].table[u].subscriber)
    ensures var subscription := sys.dests[d].table[u];
      var session := sys.sessions[subscription.subscriber];
      && session.inbox.Valid() && subscription.subscriberSubId.Some?
      && var id := subscription.subscriberSubId.value;
         if id in session.active
         then session.active[id] == (d, u)
         else Subscribed(d, id, Ok(u)) in session.inbox.Queue()
  {
    InOrder(sys);
    var dest, sid := sys.dests[d], sys.dests[d].table[u].subscriber;
    assert DestKnown(sys, dest) && DestPlaced(sys, d, dest) && IssueKnown(sys, u, dest.issued[u], |dest.log|);
    var session, id := sys.sessions[sid], dest.table[u].subscriberSubId.value;
    assert SessionKnown(sys.dests, sid, session);
    assert Staged(sys, sid, Some(id), Inserted(d, u));
    assert Agrees(sys, sid, id);
    assert Faithful(session) && Reflects(session.active, session.out, session.inbox.Taken(), id);
    OpenIsActive(session, d, u, id);
  }

  /** A session whose history of an id is open has its entry, or the opening event is still queued. */
  lemma OpenIsActive(session: Session, d: DestinationId, u: SubscriptionId, id: SubscriptionId)
    requires session.inbox.Valid() && Reflects(session.active, session.out, session.inbox.Taken(), id)
    requires PhaseOf(session.inbox.sent, id).Open?
    requires PhaseOf(session.inbox.sent, id).destination == d && PhaseOf(session.inbox.sent, id).subscription == u
    ensures if id in session.active then session.active[id] == (d, u) else Subscribed(d, id, Ok(u)) in session.inbox.Queue()
  {
    PrefixDevelops(session.inbox.sent, session.inbox.received, id);
    if id !in session.active {
      OpeningEvent(session.inbox.sent, session.inbox.received, id);
    }
  }

  /** Whatever ids the clients use, an Unsubscribe names a subscription made for the session that sent it. */
  lemma UnsubscribesAreOwn(sys: System, d: DestinationId, i: nat)
    requires Reachable(sys) && d in sys.dests && i < |sys.dests[d].queue.sent| && sys.dests[d].queue.sent[i].Unsubscribe?
    ensures var action := sys.dests[d].queue.sent[i];
      exists id :: Names(sys.dests, d, action.subId, action.subscriber, id)
  {
    ReachableSound(sys);
    var dest := sys.dests[d];
    assert DestKnown(sys, dest);
    var action := dest.queue.sent[i];
    assert ActionKnown(sys, dest.issued, action);
    assert IssueKnown(sys, action.subId, dest.issued[action.subId], |dest.log|);
    assert Names(sys.dests, d, action.subId, action.subscriber, dest.issued[action.subId].subscription.subscriberSubId.value);
  }
}
