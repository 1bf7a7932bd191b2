/** What a fan-out prunes, whatever happens between its rounds. */
module Pruning {
  import opened Types
  import opened Channels
  import opened Actions
  import opened Reactions
  import opened Protocol
  import opened Bookkeeping
  import opened Accounts
  import opened WindDown

  /** A fan-out leaves exactly the subscriptions that no delivery has failed for, and deliveries fail to dead sessions only. */
  lemma PrunesOnlyDead(sys: System, d: DestinationId)
    requires Reachable(sys) && Enabled(sys, FinishSend(d))
    ensures var dest, table' := sys.dests[d], Apply(sys, FinishSend(d)).dests[d].table;
      && (forall u :: u in table' <==> u in dest.table && u !in dest.bounced)
      && (forall u :: u in dest.table && u !in table' ==> !Live(sys, dest.table[u].subscriber))
  {
    ReachableSound(sys);
    assert DestKnown(sys, sys.dests[d]);
  }

  /** The backend will not keep `u`: it is gone, or the fan-out in progress has found or will find it dead. */
  ghost predicate Doomed(dest: Dest, u: SubscriptionId, sid: SessionId) {
    && u in dest.issued
    && (|| dest.crashed
        || u !in dest.table
        || (dest.fanOut.Some? && u in dest.fanOut.value.dead)
        || (dest.fanOut.Some? && u in dest.fanOut.value.remaining && dest.fanOut.value.remaining[u].subscriber == sid))
  }

  ghost predicate Condemned(sys: System, d: DestinationId, u: SubscriptionId, sid: SessionId) {
    d in sys.dests && sid in sys.sessions && !Live(sys, sid) && Doomed(sys.dests[d], u, sid)
  }

  /** A step of a session or a task, seen by a destination. */
  ghost predicate QueueOnly(dest: Dest, dest': Dest) {
    dest'.table == dest.table && dest'.fanOut == dest.fanOut && dest'.issued == dest.issued && dest'.crashed == dest.crashed
  }

  lemma SubmitQueues(sys: System, to: DestinationId, action: Action, d: DestinationId)
    requires to in sys.dests && d in sys.dests
    ensures var sys' := Put(sys, to, Submit(sys.dests[to], action));
      d in sys'.dests && QueueOnly(sys.dests[d], sys'.dests[d])
  {
  }

  lemma CallQueues(sys: System, sid: SessionId, call: Call, d: DestinationId)
    requires sid in sys.sessions && d in sys.dests
    ensures d in MakeCall(sys, sid, call).dests && QueueOnly(sys.dests[d], MakeCall(sys, sid, call).dests[d])
  {
    match call
    case SubscribeTo(_, _) =>
    case SendTo(to, message) =>
      if to in sys.dests {
        SubmitQueues(sys, to, DestinationAction.Send(message, sid), d);
      }
    case UnsubscribeFrom(to, subscription) =>
      if to in sys.dests {
        SubmitQueues(sys, to, DestinationAction.Unsubscribe(subscription, sid), d);
      }
  }

  lemma RespondQueues(sys: System, sid: SessionId, session: Session, reaction: Reaction, d: DestinationId)
    requires sid in sys.sessions && d in sys.dests
    ensures d in Respond(sys, sid, session, reaction).dests
    ensures QueueOnly(sys.dests[d], Respond(sys, sid, session, reaction).dests[d])
  {
    if reaction.call.Some? {
      CallQueues(sys.(sessions := sys.sessions[sid := Settle(session, reaction)]), sid, reaction.call.value, d);
    }
  }

  lemma SessionStepQueues(sys: System, step: Step, d: DestinationId)
    requires Enabled(sys, step) && d in sys.dests
    requires step.FromClient? || step.FromServer?
    ensures d in Apply(sys, step).dests && QueueOnly(sys.dests[d], Apply(sys, step).dests[d])
  {
    match step
    case FromClient(sid, event) => RespondQueues(sys, sid, sys.sessions[sid], React(sys.sessions[sid].active, event), d);
    case FromServer(sid) =>
      var session := sys.sessions[sid];
      RespondQueues(sys, sid, session.(inbox := session.inbox.Pop()),
                    React(session.active, session.inbox.sent[session.inbox.received]), d);
  }

  lemma OtherStepQueues(sys: System, step: Step, d: DestinationId)
    requires Enabled(sys, step) && d in sys.dests
    requires step.Accept? || step.Drop? || step.MissHeartbeat? || step.CreateDestination? || step.CloseDestination? || step.TakeClose?
    ensures d in Apply(sys, step).dests && QueueOnly(sys.dests[d], Apply(sys, step).dests[d])
  {
  }

  lemma TaskQueues(sys: System, n: nat, d: DestinationId)
    requires n in sys.tasks && sys.tasks[n].destination in sys.dests && d in sys.dests
    ensures d in RunSubscribeTask(sys, n).dests && QueueOnly(sys.dests[d], RunSubscribeTask(sys, n).dests[d])
  {
    var task := sys.tasks[n];
    var action := DestinationAction.Subscribe(Some(task.clientId), task.session);
    SubmitQueues(sys, task.destination, action, d);
    assert RunSubscribeTask(sys, n).dests == Put(sys, task.destination, Submit(sys.dests[task.destination], action)).dests;
  }

  lemma AddDooms(sys: System, d': DestinationId, id: SubscriptionId, d: DestinationId, u: SubscriptionId, sid: SessionId)
    requires Enabled(sys, TakeSubscribe(d', id)) && Condemned(sys, d, u, sid)
    ensures d in AddSubscription(sys, d', id).dests && Doomed(AddSubscription(sys, d', id).dests[d], u, sid)
  {
  }

  lemma RemoveDooms(sys: System, d': DestinationId, d: DestinationId, u: SubscriptionId, sid: SessionId)
    requires Enabled(sys, TakeUnsubscribe(d')) && Condemned(sys, d, u, sid)
    ensures d in RemoveSubscription(sys, d').dests && Doomed(RemoveSubscription(sys, d').dests[d], u, sid)
  {
  }

  lemma StartDooms(sys: System, d': DestinationId, messageId: MessageId, d: DestinationId, u: SubscriptionId, sid: SessionId)
    requires Enabled(sys, TakeSend(d', messageId)) && Condemned(sys, d, u, sid)
    ensures d in StartSend(sys, d', messageId).dests && Doomed(StartSend(sys, d', messageId).dests[d], u, sid)
  {
  }

  /** A round delivers, bounces, or stops the backend; other destinations do not notice. */
  lemma DeliverOutcome(sys: System, d: DestinationId, id: SubscriptionId)
    requires Enabled(sys, Deliver(d, id))
    ensures var dest, dests' := sys.dests[d], DeliverOne(sys, d, id).dests;
      var subscriber, remaining := dest.fanOut.value.remaining[id].subscriber, dest.fanOut.value.remaining - {id};
      && d in dests' && dests' == sys.dests[d := dests'[d]]
      && dests'[d].issued == dest.issued && dests'[d].table == dest.table
      && (|| dests'[d].crashed
          || (Live(sys, subscriber) && dests'[d].fanOut == Some(dest.fanOut.value.(remaining := remaining)))
          || dests'[d].fanOut == Some(dest.fanOut.value.(remaining := remaining, dead := dest.fanOut.value.dead + {id})))
  {
  }

  lemma DeliverDooms(sys: System, d': DestinationId, id: SubscriptionId, d: DestinationId, u: SubscriptionId, sid: SessionId)
    requires Enabled(sys, Deliver(d', id)) && Condemned(sys, d, u, sid)
    ensures d in DeliverOne(sys, d', id).dests && Doomed(DeliverOne(sys, d', id).dests[d], u, sid)
  {
    DeliverOutcome(sys, d', id);
  }

  lemma EndDooms(sys: System, d': DestinationId, d: DestinationId, u: SubscriptionId, sid: SessionId)
    requires Enabled(sys, FinishSend(d')) && Condemned(sys, d, u, sid)
    ensures d in EndSend(sys, d').dests && Doomed(EndSend(sys, d').dests[d], u, sid)
  {
  }

  lemma StepCondemned(sys: System, step: Step, d: DestinationId, u: SubscriptionId, sid: SessionId)
    requires Enabled(sys, step) && Condemned(sys, d, u, sid)
    ensures Condemned(Apply(sys, step), d, u, sid)
  {
    OtherStepEffect(sys, step, sid);
    match step
    case FromClient(_, _) => SessionStepQueues(sys, step, d);
    case FromServer(_) => SessionStepQueues(sys, step, d);
    case RunTask(n) => TaskQueues(sys, n, d);
    case TakeSubscribe(d', id) => AddDooms(sys, d', id, d, u, sid);
    case TakeUnsubscribe(d') => RemoveDooms(sys, d', d, u, sid);
    case TakeSend(d', messageId) => StartDooms(sys, d', messageId, d, u, sid);
    case Deliver(d', id) => DeliverDooms(sys, d', id, d, u, sid);
    case FinishSend(d') => EndDooms(sys, d', d, u, sid);
    case _ => OtherStepQueues(sys, step, d);
  }

  lemma {:induction false} RunCondemned(sys: System, steps: seq<Step>, d: DestinationId, u: SubscriptionId, sid: SessionId)
    requires IsRun(sys, steps) && Condemned(sys, d, u, sid)
    ensures Condemned(After(sys, steps), d, u, sid)
    decreases |steps|
  {
    if steps != [] {
      StepCondemned(sys, steps[0], d, u, sid);
      RunCondemned(Apply(sys, steps[0]), steps[1..], d, u, sid);
    }
  }

  /**
   The subscription of a session that is dead when a fan-out starts is in no table that the
   backend has between two actions from then on, however the rounds interleave with
   everything else, unless the backend has crashed.
   */
  lemma DeadArePruned(sys: System, d: DestinationId, messageId: MessageId, u: SubscriptionId, steps: seq<Step>)
    requires Reachable(sys) && Enabled(sys, TakeSend(d, messageId))
    requires u in sys.dests[d].table && !Live(sys, sys.dests[d].table[u].subscriber)
    requires IsRun(Apply(sys, TakeSend(d, messageId)), steps)
    ensures var sys' := After(Apply(sys, TakeSend(d, messageId)), steps);
      d in sys'.dests && (sys'.dests[d].fanOut.None? && !sys'.dests[d].crashed ==> u !in sys'.dests[d].table)
  {
    ReachableSound(sys);
    var dest, sid := sys.dests[d], sys.dests[d].table[u].subscriber;
    assert DestKnown(sys, dest) && IssueKnown(sys, u, dest.issued[u], |dest.log|);
    RunCondemned(Apply(sys, TakeSend(d, messageId)), steps, d, u, sid);
  }
}
