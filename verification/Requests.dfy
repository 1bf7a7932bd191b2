/**
 From the clients' frames to the destinations' queues, over whole runs: every action a
 destination was ever handed goes back to a frame, every frame to an action, and a message
 delivered carries the body of a SEND frame.
 */
module Requests {
  import opened Types
  import opened Channels
  import opened Actions
  import opened Reactions
  import opened Protocol
  import opened Bookkeeping
  import opened Lifecycle
  import opened Accounts
  import opened Delivery
  import opened Tables
  import opened WindDown
  import opened Callbacks
  import opened Conservation
  import opened Guarantees
  import opened Effects

  // ---------- what a step hands over ----------

  /** A SEND frame for an existing destination hands it the body. */
  predicate SendHandsOver(sys: System, step: Step, d: DestinationId, action: Action) {
    && step.FromClient? && step.event.ClientFrame? && step.event.frame.Ok? && step.event.frame.value.Send?
    && step.event.frame.value.to == d && d in sys.dests
    && action == DestinationAction.Send(InboundMessage(None, step.event.frame.value.body), step.session)
  }

  /** An UNSUBSCRIBE frame for an active id hands its destination the destination's id of it. */
  predicate UnsubscribeHandsOver(sys: System, step: Step, d: DestinationId, action: Action) {
    && step.FromClient? && step.session in sys.sessions
    && step.event.ClientFrame? && step.event.frame.Ok? && step.event.frame.value.Unsubscribe?
    && var active, id := sys.sessions[step.session].active, step.event.frame.value.id;
       id in active && active[id].0 == d && d in sys.dests
       && action == DestinationAction.Unsubscribe(active[id].1, step.session)
  }

  /** A subscribe task that runs hands its destination the id it was spawned with. */
  predicate TaskHandsOver(sys: System, step: Step, d: DestinationId, action: Action) {
    && step.RunTask? && step.task in sys.tasks && sys.tasks[step.task].destination == d && d in sys.dests
    && action == DestinationAction.Subscribe(Some(sys.tasks[step.task].clientId), sys.tasks[step.task].session)
  }

  predicate HandsIt(sys: System, step: Step, d: DestinationId, action: Action) {
    SendHandsOver(sys, step, d, action) || UnsubscribeHandsOver(sys, step, d, action) || TaskHandsOver(sys, step, d, action)
  }

  /** How many steps of the run hand the action to the destination. */
  ghost function Handings(sys: System, steps: seq<Step>, d: DestinationId, action: Action): nat
    requires IsRun(sys, steps)
    decreases |steps|
  {
    if steps == [] then 0
    else (if HandsIt(sys, steps[0], d, action) then 1 else 0) + Handings(Apply(sys, steps[0]), steps[1..], d, action)
  }

  /** How often the destination has been handed the action; one that does not exist, never. */
  function SubmittedTo(sys: System, d: DestinationId, action: Action): nat {
    if d in sys.dests then sys.dests[d].submitted[action] else 0
  }

  // ---------- steps that ask for nothing ----------

  /** The Sends among the actions. */
  function SendsAmong(actions: seq<Action>): seq<Action> {
    if actions == [] then []
    else
      var last := actions[|actions| - 1];
      SendsAmong(actions[..|actions| - 1]) + if last.Send? then [last] else []
  }

  lemma SendsAmongPush(actions: seq<Action>, action: Action)
    ensures SendsAmong(actions + [action]) == SendsAmong(actions) + if action.Send? then [action] else []
  {
    assert (actions + [action])[..|actions|] == actions;
  }

  function SendsQueued(sys: System, d: DestinationId): seq<Action> {
    if d in sys.dests then SendsAmong(sys.dests[d].queue.sent) else []
  }

  /** No destination has been handed anything, and no task has come or gone. */
  ghost predicate AsksNothing(sys: System, sys': System) {
    && sys'.tasks == sys.tasks
    && (forall d, action :: SubmittedTo(sys', d, action) == SubmittedTo(sys, d, action))
    && (forall d :: SendsQueued(sys', d) == SendsQueued(sys, d))
  }

  lemma NothingAsked(sys: System, sys': System, d: DestinationId, action: Action)
    requires AsksNothing(sys, sys')
    ensures SubmittedTo(sys', d, action) == SubmittedTo(sys, d, action) && SendsQueued(sys', d) == SendsQueued(sys, d)
  {
  }

  lemma SameDests(sys: System, sys': System)
    requires sys'.tasks == sys.tasks && sys'.dests == sys.dests
    ensures AsksNothing(sys, sys')
  {
  }

  lemma PutAsksNothing(sys: System, sys': System, d: DestinationId)
    requires sys'.tasks == sys.tasks && d in sys.dests && d in sys'.dests && sys'.dests == sys.dests[d := sys'.dests[d]]
    requires sys'.dests[d].submitted == sys.dests[d].submitted
    requires SendsAmong(sys'.dests[d].queue.sent) == SendsAmong(sys.dests[d].queue.sent)
    ensures AsksNothing(sys, sys')
  {
  }

  lemma ServerAsksNothing(sys: System, sid: SessionId)
    requires Sound(sys) && Enabled(sys, FromServer(sid))
    ensures AsksNothing(sys, Apply(sys, FromServer(sid)))
  {
    var session := sys.sessions[sid];
    var event := session.inbox.sent[session.inbox.received];
    assert SessionKnown(sys.dests, sid, session);
    OwnEventsCallNobody(session.active, event);
    SameDests(sys, Apply(sys, FromServer(sid)));
  }

  lemma AddAsksNothing(sys: System, d: DestinationId, u: SubscriptionId)
    requires Enabled(sys, TakeSubscribe(d, u))
    ensures AsksNothing(sys, AddSubscription(sys, d, u))
  {
    AddShape(sys, d, u);
    PutAsksNothing(sys, AddSubscription(sys, d, u), d);
  }

  lemma RemoveAsksNothing(sys: System, d: DestinationId)
    requires Enabled(sys, TakeUnsubscribe(d))
    ensures AsksNothing(sys, RemoveSubscription(sys, d))
  {
    RemoveShape(sys, d);
    PutAsksNothing(sys, RemoveSubscription(sys, d), d);
  }

  lemma DeliverAsksNothing(sys: System, d: DestinationId, u: SubscriptionId)
    requires Sound(sys) && Enabled(sys, Deliver(d, u))
    ensures AsksNothing(sys, DeliverOne(sys, d, u))
  {
    NamedInFanOut(sys, d, u);
    DeliverDest(sys, d, u);
    DeliverTasks(sys, d, u);
    PutAsksNothing(sys, DeliverOne(sys, d, u), d);
  }

  lemma DeliverTasks(sys: System, d: DestinationId, u: SubscriptionId)
    requires d in sys.dests && sys.dests[d].fanOut.Some? && u in sys.dests[d].fanOut.value.remaining
    ensures DeliverOne(sys, d, u).tasks == sys.tasks
  {
  }

  lemma CloseAsksNothing(sys: System, d: DestinationId)
    requires Enabled(sys, CloseDestination(d))
    ensures AsksNothing(sys, Apply(sys, CloseDestination(d)))
  {
    SendsAmongPush(sys.dests[d].queue.sent, DestinationAction.Close);
    PutAsksNothing(sys, Apply(sys, CloseDestination(d)), d);
  }

  lemma CreateAsksNothing(sys: System, d: DestinationId)
    requires Enabled(sys, CreateDestination(d))
    ensures AsksNothing(sys, Apply(sys, CreateDestination(d)))
  {
  }

  lemma SendingAsksNothing(sys: System, step: Step)
    requires Enabled(sys, step) && (step.TakeSend? || step.TakeClose? || step.FinishSend?)
    ensures AsksNothing(sys, Apply(sys, step))
  {
    PutAsksNothing(sys, Apply(sys, step), step.destination);
  }

  lemma SessionsAskNothing(sys: System, step: Step)
    requires Enabled(sys, step) && (step.Accept? || step.Drop? || step.MissHeartbeat?)
    ensures AsksNothing(sys, Apply(sys, step))
  {
    SameDests(sys, Apply(sys, step));
  }

  lemma BackendAsksNothing(sys: System, step: Step)
    requires Sound(sys) && Enabled(sys, step)
    requires step.TakeSubscribe? || step.TakeUnsubscribe? || step.TakeSend? || step.TakeClose? || step.Deliver? || step.FinishSend?
    ensures AsksNothing(sys, Apply(sys, step))
  {
    match step
    case TakeSubscribe(d, u) => AddAsksNothing(sys, d, u);
    case TakeUnsubscribe(d) => RemoveAsksNothing(sys, d);
    case Deliver(d, u) => DeliverAsksNothing(sys, d, u);
    case _ => SendingAsksNothing(sys, step);
  }

  lemma OthersAskNothing(sys: System, step: Step)
    requires Sound(sys) && Enabled(sys, step) && !step.FromClient? && !step.RunTask?
    ensures AsksNothing(sys, Apply(sys, step))
  {
    match step
    case FromServer(sid) => ServerAsksNothing(sys, sid);
    case CreateDestination(d) => CreateAsksNothing(sys, d);
    case CloseDestination(d) => CloseAsksNothing(sys, d);
    case Accept(_, _) => SessionsAskNothing(sys, step);
    case Drop(_) => SessionsAskNothing(sys, step);
    case MissHeartbeat(_) => SessionsAskNothing(sys, step);
    case _ => BackendAsksNothing(sys, step);
  }

  // ---------- submissions ----------

  /** What became of the destinations' submissions in a step of a session. */
  lemma CallSubmits(sys: System, sid: SessionId, call: Call, d: DestinationId, action: Action)
    requires sid in sys.sessions
    ensures SubmittedTo(MakeCall(sys, sid, call), d, action)
            == SubmittedTo(sys, d, action)
               + match call
                 case SubscribeTo(_, _) => 0
                 case SendTo(to, message) =>
                   (if to == d && d in sys.dests && action == DestinationAction.Send(message, sid) then 1 else 0)
                 case UnsubscribeFrom(to, u) =>
                   (if to == d && d in sys.dests && action == DestinationAction.Unsubscribe(u, sid) then 1 else 0)
  {
    match call
    case SubscribeTo(_, _) =>
    case SendTo(to, message) =>
      if to in sys.dests {
        HandedSubmits(sys, MakeCall(sys, sid, call), to, DestinationAction.Send(message, sid), d, action);
      }
    case UnsubscribeFrom(to, u) =>
      if to in sys.dests {
        HandedSubmits(sys, MakeCall(sys, sid, call), to, DestinationAction.Unsubscribe(u, sid), d, action);
      }
  }

  lemma HandedSubmits(sys: System, sys': System, to: DestinationId, handed: Action, d: DestinationId, action: Action)
    requires to in sys.dests && sys'.dests == sys.dests[to := Submit(sys.dests[to], handed)]
    ensures SubmittedTo(sys', d, action) == SubmittedTo(sys, d, action) + if to == d && handed == action then 1 else 0
  {
  }

  lemma RespondSubmits(sys: System, sid: SessionId, session: Session, reaction: Reaction, d: DestinationId, action: Action)
    requires sid in sys.sessions
    ensures SubmittedTo(Respond(sys, sid, session, reaction), d, action)
            == SubmittedTo(sys, d, action)
               + match reaction.call
                 case Some(SendTo(to, message)) =>
                   (if to == d && d in sys.dests && action == DestinationAction.Send(message, sid) then 1 else 0)
                 case Some(UnsubscribeFrom(to, u)) =>
                   (if to == d && d in sys.dests && action == DestinationAction.Unsubscribe(u, sid) then 1 else 0)
                 case _ => 0
  {
    if reaction.call.Some? {
      CallSubmits(sys.(sessions := sys.sessions[sid := Settle(session, reaction)]), sid, reaction.call.value, d, action);
    }
  }

  /** The call that a client's event makes, from the frame. */
  lemma CallOfFrame(active: ActiveTable, event: ClientEvent)
    ensures var call := React(active, event).call;
      if event.ClientFrame? && event.frame.Ok? then
        match event.frame.value
        case Subscribe(d, id) => call == Some(SubscribeTo(d, id))
        case Send(d, body) => call == Some(SendTo(d, InboundMessage(None, body)))
        case Unsubscribe(id) => call == if id in active then Some(UnsubscribeFrom(active[id].0, active[id].1)) else None
        case _ => call == None
      else call == None
  {
  }

  lemma ClientStepSubmits(sys: System, step: Step, d: DestinationId, action: Action)
    requires Enabled(sys, step) && step.FromClient?
    ensures SubmittedTo(Apply(sys, step), d, action) == SubmittedTo(sys, d, action) + if HandsIt(sys, step, d, action) then 1 else 0
  {
    var session := sys.sessions[step.session];
    CallOfFrame(session.active, step.event);
    RespondSubmits(sys, step.session, session, React(session.active, step.event), d, action);
  }

  lemma TaskSubmits(sys: System, n: nat, d: DestinationId, action: Action)
    requires Enabled(sys, RunTask(n))
    ensures SubmittedTo(RunSubscribeTask(sys, n), d, action)
            == SubmittedTo(sys, d, action) + if TaskHandsOver(sys, RunTask(n), d, action) then 1 else 0
  {
    RunTaskShape(sys, n);
  }

  lemma OtherSubmits(sys: System, step: Step, d: DestinationId, action: Action)
    requires Sound(sys) && Enabled(sys, step) && !step.FromClient? && !step.RunTask?
    ensures SubmittedTo(Apply(sys, step), d, action) == SubmittedTo(sys, d, action)
  {
    OthersAskNothing(sys, step);
    NothingAsked(sys, Apply(sys, step), d, action);
  }

  lemma StepSubmits(sys: System, step: Step, d: DestinationId, action: Action)
    requires Sound(sys) && Enabled(sys, step)
    ensures SubmittedTo(Apply(sys, step), d, action) == SubmittedTo(sys, d, action) + if HandsIt(sys, step, d, action) then 1 else 0
  {
    if step.FromClient? {
      ClientStepSubmits(sys, step, d, action);
    } else if step.RunTask? {
      TaskSubmits(sys, step.task, d, action);
    } else {
      OtherSubmits(sys, step, d, action);
      OnlyTheseHand(sys, step, d, action);
    }
  }

  lemma OnlyTheseHand(sys: System, step: Step, d: DestinationId, action: Action)
    ensures HandsIt(sys, step, d, action) ==> step.FromClient? || step.RunTask?
  {
  }

  lemma {:induction false} RunSubmits(sys: System, steps: seq<Step>, d: DestinationId, action: Action)
    requires Sound(sys) && IsRun(sys, steps)
    ensures SubmittedTo(After(sys, steps), d, action) == SubmittedTo(sys, d, action) + Handings(sys, steps, d, action)
    decreases |steps|
  {
    if steps != [] {
      StepSubmits(sys, steps[0], d, action);
      StepSound(sys, steps[0]);
      RunSubmits(Apply(sys, steps[0]), steps[1..], d, action);
    }
  }

  /**
   Actions and frames, one for one: in every run, a destination has been handed an action
   exactly as often as a SEND or UNSUBSCRIBE frame, or a subscribe task, handed it over.
   */
  lemma ActionsComeFromFrames(steps: seq<Step>, d: DestinationId, action: Action)
    requires IsRun(INITIAL, steps)
    ensures SubmittedTo(After(INITIAL, steps), d, action) == Handings(INITIAL, steps, d, action)
  {
    RunSubmits(INITIAL, steps, d, action);
  }

  // ---------- SUBSCRIBE frames ----------

  /** How many SUBSCRIBE frames of the session for the destination under the id the run holds. */
  function AskedFor(steps: seq<Step>, sid: SessionId, d: DestinationId, id: SubscriptionId): nat {
    if steps == [] then 0
    else
      (if steps[0] == FromClient(sid, ClientEvent.ClientFrame(Ok(ClientFrame.Subscribe(d, id)))) then 1 else 0)
      + AskedFor(steps[1..], sid, d, id)
  }

  /** The spawned tasks for the same that still wait for their destination. */
  ghost function Waiting(sys: System, sid: SessionId, d: DestinationId, id: SubscriptionId): set<nat> {
    set n <- sys.tasks | sys.tasks[n] == SubscribeTask(sid, id, d)
  }

  lemma SubscribeWaits(sys: System, step: Step, sid: SessionId, d: DestinationId, id: SubscriptionId)
    requires Sound(sys) && Enabled(sys, step) && step.FromClient?
    ensures |Waiting(Apply(sys, step), sid, d, id)|
            == |Waiting(sys, sid, d, id)|
               + if step == FromClient(sid, ClientEvent.ClientFrame(Ok(ClientFrame.Subscribe(d, id)))) then 1 else 0
  {
    var session := sys.sessions[step.session];
    var call := React(session.active, step.event).call;
    CallOfFrame(session.active, step.event);
    RespondTasks(sys, step.session, session, React(session.active, step.event));
    match call
    case Some(SubscribeTo(d', id')) => SpawnWaits(sys, Apply(sys, step), SubscribeTask(step.session, id', d'), sid, d, id);
    case _ => SameWaiting(sys, Apply(sys, step), sid, d, id);
  }

  lemma SpawnWaits(sys: System, sys': System, task: SubscribeTask, sid: SessionId, d: DestinationId, id: SubscriptionId)
    requires sys.spawned !in sys.tasks && sys'.tasks == sys.tasks[sys.spawned := task]
    ensures |Waiting(sys', sid, d, id)| == |Waiting(sys, sid, d, id)| + if task == SubscribeTask(sid, id, d) then 1 else 0
  {
    var before, after := Waiting(sys, sid, d, id), Waiting(sys', sid, d, id);
    if task == SubscribeTask(sid, id, d) {
      assert sys.spawned !in before && after == before + {sys.spawned};
    } else {
      assert after == before;
    }
  }

  lemma RespondTasks(sys: System, sid: SessionId, session: Session, reaction: Reaction)
    requires sid in sys.sessions
    ensures Respond(sys, sid, session, reaction).tasks
            == match reaction.call
               case Some(SubscribeTo(d, id)) => sys.tasks[sys.spawned := SubscribeTask(sid, id, d)]
               case _ => sys.tasks
  {
  }

  lemma TaskStopsWaiting(sys: System, n: nat, sid: SessionId, d: DestinationId, id: SubscriptionId)
    requires Enabled(sys, RunTask(n))
    ensures |Waiting(RunSubscribeTask(sys, n), sid, d, id)|
            + (if TaskHandsOver(sys, RunTask(n), d, DestinationAction.Subscribe(Some(id), sid)) then 1 else 0)
            == |Waiting(sys, sid, d, id)|
  {
    RunTaskShape(sys, n);
    var before, after := Waiting(sys, sid, d, id), Waiting(RunSubscribeTask(sys, n), sid, d, id);
    if sys.tasks[n] == SubscribeTask(sid, id, d) {
      assert n in before && after == before - {n};
    } else {
      assert after == before;
    }
  }

  lemma StepAsks(sys: System, step: Step, sid: SessionId, d: DestinationId, id: SubscriptionId)
    requires Sound(sys) && Enabled(sys, step)
    ensures var action: Action := DestinationAction.Subscribe(Some(id), sid);
      |Waiting(Apply(sys, step), sid, d, id)| + SubmittedTo(Apply(sys, step), d, action)
      == |Waiting(sys, sid, d, id)| + SubmittedTo(sys, d, action)
         + if step == FromClient(sid, ClientEvent.ClientFrame(Ok(ClientFrame.Subscribe(d, id)))) then 1 else 0
  {
    if step.FromClient? {
      StepSubmits(sys, step, d, DestinationAction.Subscribe(Some(id), sid));
      SubscribeWaits(sys, step, sid, d, id);
    } else if step.RunTask? {
      TaskSubmits(sys, step.task, d, DestinationAction.Subscribe(Some(id), sid));
      TaskStopsWaiting(sys, step.task, sid, d, id);
    } else {
      OthersAskNothing(sys, step);
      SameWaiting(sys, Apply(sys, step), sid, d, id);
    }
  }

  lemma SameWaiting(sys: System, sys': System, sid: SessionId, d: DestinationId, id: SubscriptionId)
    requires sys'.tasks == sys.tasks
    ensures Waiting(sys', sid, d, id) == Waiting(sys, sid, d, id)
  {
  }

  lemma {:induction false} RunAsks(sys: System, steps: seq<Step>, sid: SessionId, d: DestinationId, id: SubscriptionId)
    requires Sound(sys) && IsRun(sys, steps)
    ensures var action: Action := DestinationAction.Subscribe(Some(id), sid);
      |Waiting(After(sys, steps), sid, d, id)| + SubmittedTo(After(sys, steps), d, action)
      == |Waiting(sys, sid, d, id)| + SubmittedTo(sys, d, action) + AskedFor(steps, sid, d, id)
    decreases |steps|
  {
    if steps != [] {
      StepAsks(sys, steps[0], sid, d, id);
      StepSound(sys, steps[0]);
      RunAsks(Apply(sys, steps[0]), steps[1..], sid, d, id);
    }
  }

  /** Every SUBSCRIBE frame has its task waiting, or has been handed to the destination it names, under the id it names. */
  lemma SubscribeFramesConserved(steps: seq<Step>, sid: SessionId, d: DestinationId, id: SubscriptionId)
    requires IsRun(INITIAL, steps)
    ensures AskedFor(steps, sid, d, id)
            == |Waiting(After(INITIAL, steps), sid, d, id)|
               + SubmittedTo(After(INITIAL, steps), d, DestinationAction.Subscribe(Some(id), sid))
  {
    RunAsks(INITIAL, steps, sid, d, id);
  }

  /**
   Every SUBSCRIBE frame of a live session is accounted for: it waits as a task or on the
   queue of the destination it names, or has been answered once, with success or failure.
   */
  lemma SubscribeFramesAnswered(steps: seq<Step>, sid: SessionId, d: DestinationId, id: SubscriptionId)
    requires IsRun(INITIAL, steps) && Live(After(INITIAL, steps), sid) && d in After(INITIAL, steps).dests
    ensures var sys := After(INITIAL, steps);
      var events, queue := sys.sessions[sid].inbox.sent, sys.dests[d].queue;
      && queue.Valid()
      && AskedFor(steps, sid, d, id)
         == |Waiting(sys, sid, d, id)| + multiset(queue.Queue())[DestinationAction.Subscribe(Some(id), sid)]
            + Accepted(events, d, id) + Rejected(events, d, id)
  {
    SubscribeFramesConserved(steps, sid, d, id);
    CallbackConservation(After(INITIAL, steps), sid, d, id);
  }

  lemma {:induction false} AskedInRun(steps: seq<Step>, sid: SessionId, d: DestinationId, id: SubscriptionId)
    requires AskedFor(steps, sid, d, id) > 0
    ensures FromClient(sid, ClientEvent.ClientFrame(Ok(ClientFrame.Subscribe(d, id)))) in steps
  {
    if steps[0] != FromClient(sid, ClientEvent.ClientFrame(Ok(ClientFrame.Subscribe(d, id)))) {
      AskedInRun(steps[1..], sid, d, id);
    }
  }

  /** A destination makes a subscription only for a SUBSCRIBE frame that names it, the id and came from the session. */
  lemma SubscriptionsWereAskedFor(steps: seq<Step>, sid: SessionId, d: DestinationId, id: SubscriptionId, u: SubscriptionId)
    requires IsRun(INITIAL, steps) && Names(After(INITIAL, steps).dests, d, u, sid, id)
    ensures FromClient(sid, ClientEvent.ClientFrame(Ok(ClientFrame.Subscribe(d, id)))) in steps
    ensures |MadeFor(After(INITIAL, steps).dests[d], Some(id), sid)| <= AskedFor(steps, sid, d, id)
  {
    var sys := After(INITIAL, steps);
    ReachableConserved(sys);
    WorkedAt(sys, d);
    HandedSplit(sys.dests[d], DestinationAction.Subscribe(Some(id), sid));
    SubscribeFramesConserved(steps, sid, d, id);
    assert u in MadeFor(sys.dests[d], Some(id), sid);
    AskedInRun(steps, sid, d, id);
  }

  // ---------- SEND frames ----------

  /** A SEND frame that finds its destination running. */
  predicate IsSendTo(sys: System, step: Step, d: DestinationId) {
    && step.FromClient? && step.event.ClientFrame? && step.event.frame.Ok? && step.event.frame.value.Send?
    && step.event.frame.value.to == d && d in sys.dests && sys.dests[d].queue.open
  }

  /** The SEND frames that the run handles for a running destination, in order. */
  ghost function SendFrames(sys: System, steps: seq<Step>, d: DestinationId): seq<Action>
    requires IsRun(sys, steps)
    decreases |steps|
  {
    if steps == [] then []
    else
      SendOf(sys, steps[0], d) + SendFrames(Apply(sys, steps[0]), steps[1..], d)
  }

  lemma SubmitSends(dest: Dest, action: Action)
    ensures SendsAmong(Submit(dest, action).queue.sent)
            == SendsAmong(dest.queue.sent) + if action.Send? && dest.queue.open then [action] else []
  {
    SendsAmongPush(dest.queue.sent, action);
  }

  lemma HandedSends(sys: System, sys': System, to: DestinationId, action: Action, d: DestinationId)
    requires to in sys.dests && sys'.dests == sys.dests[to := Submit(sys.dests[to], action)]
    ensures SendsQueued(sys', d)
            == SendsQueued(sys, d) + if to == d && sys.dests[d].queue.open && action.Send? then [action] else []
  {
    SubmitSends(sys.dests[to], action);
    assert SendsQueued(sys, d) + [] == SendsQueued(sys, d);
  }

  lemma CallSends(sys: System, sid: SessionId, call: Call, d: DestinationId)
    requires sid in sys.sessions
    ensures SendsQueued(MakeCall(sys, sid, call), d)
            == SendsQueued(sys, d)
               + match call
                 case SendTo(to, message) =>
                   (if to == d && d in sys.dests && sys.dests[d].queue.open then [DestinationAction.Send(message, sid)] else [])
                 case _ => []
  {
    assert SendsQueued(sys, d) + [] == SendsQueued(sys, d);
    match call
    case SubscribeTo(_, _) =>
    case SendTo(to, message) =>
      if to in sys.dests {
        HandedSends(sys, MakeCall(sys, sid, call), to, DestinationAction.Send(message, sid), d);
      }
    case UnsubscribeFrom(to, u) =>
      if to in sys.dests {
        HandedSends(sys, MakeCall(sys, sid, call), to, DestinationAction.Unsubscribe(u, sid), d);
      }
  }

  lemma RespondSends(sys: System, sid: SessionId, session: Session, reaction: Reaction, d: DestinationId)
    requires sid in sys.sessions
    ensures SendsQueued(Respond(sys, sid, session, reaction), d)
            == SendsQueued(sys, d)
               + match reaction.call
                 case Some(SendTo(to, message)) =>
                   (if to == d && d in sys.dests && sys.dests[d].queue.open then [DestinationAction.Send(message, sid)] else [])
                 case _ => []
  {
    if reaction.call.Some? {
      CallSends(sys.(sessions := sys.sessions[sid := Settle(session, reaction)]), sid, reaction.call.value, d);
    } else {
      assert SendsQueued(sys, d) + [] == SendsQueued(sys, d);
    }
  }

  lemma ClientStepSends(sys: System, step: Step, d: DestinationId)
    requires Enabled(sys, step) && step.FromClient?
    ensures SendsQueued(Apply(sys, step), d)
            == SendsQueued(sys, d)
               + if IsSendTo(sys, step, d)
                 then [DestinationAction.Send(InboundMessage(None, step.event.frame.value.body), step.session)] else []
  {
    var session := sys.sessions[step.session];
    CallOfFrame(session.active, step.event);
    RespondSends(sys, step.session, session, React(session.active, step.event), d);
  }

  lemma TaskSends(sys: System, n: nat, d: DestinationId)
    requires Enabled(sys, RunTask(n))
    ensures SendsQueued(RunSubscribeTask(sys, n), d) == SendsQueued(sys, d)
  {
    var task := sys.tasks[n];
    RunTaskShape(sys, n);
    HandedSends(sys, RunSubscribeTask(sys, n), task.destination, DestinationAction.Subscribe(Some(task.clientId), task.session), d);
  }

  /** What a step adds to the Sends queued at the destination. */
  function SendOf(sys: System, step: Step, d: DestinationId): seq<Action> {
    if IsSendTo(sys, step, d)
    then [DestinationAction.Send(InboundMessage(None, step.event.frame.value.body), step.session)] else []
  }

  lemma OtherSends(sys: System, step: Step, d: DestinationId)
    requires Sound(sys) && Enabled(sys, step) && !step.FromClient?
    ensures SendsQueued(Apply(sys, step), d) == SendsQueued(sys, d) && SendOf(sys, step, d) == []
  {
    if step.RunTask? {
      TaskSends(sys, step.task, d);
    } else {
      OthersAskNothing(sys, step);
    }
  }

  lemma StepSends(sys: System, step: Step, d: DestinationId)
    requires Sound(sys) && Enabled(sys, step)
    ensures SendsQueued(Apply(sys, step), d) == SendsQueued(sys, d) + SendOf(sys, step, d)
  {
    if step.FromClient? {
      ClientStepSends(sys, step, d);
    } else {
      OtherSends(sys, step, d);
    }
  }

  lemma {:induction false} RunSends(sys: System, steps: seq<Step>, d: DestinationId)
    requires Sound(sys) && IsRun(sys, steps)
    ensures SendsQueued(After(sys, steps), d) == SendsQueued(sys, d) + SendFrames(sys, steps, d)
    decreases |steps|
  {
    if steps != [] {
      StepSends(sys, steps[0], d);
      StepSound(sys, steps[0]);
      RunSends(Apply(sys, steps[0]), steps[1..], d);
      Regroup(SendsQueued(sys, d), SendOf(sys, steps[0], d), SendFrames(Apply(sys, steps[0]), steps[1..], d));
    }
  }

  /** The Sends ever queued at a destination are the SEND frames handled for it while it ran, in order, with their bodies. */
  lemma SendsComeFromFrames(steps: seq<Step>, d: DestinationId)
    requires IsRun(INITIAL, steps) && d in After(INITIAL, steps).dests
    ensures SendsAmong(After(INITIAL, steps).dests[d].queue.sent) == SendFrames(INITIAL, steps, d)
  {
    RunSends(INITIAL, steps, d);
  }

  // ---------- from SEND to MESSAGE ----------

  lemma {:induction false} SendsInAre(actions: seq<Action>)
    ensures |SendsIn(actions)| == |SendsAmong(actions)|
    ensures forall i :: 0 <= i < |SendsIn(actions)| ==>
              SendsAmong(actions)[i].Send? && SendsAmong(actions)[i].message == SendsIn(actions)[i]
  {
    if actions != [] {
      SendsInAre(actions[..|actions| - 1]);
    }
  }

  lemma {:induction false} SendsAmongPrefix(actions: seq<Action>, n: nat)
    requires n <= |actions|
    ensures SendsAmong(actions[..n]) <= SendsAmong(actions)
    decreases |actions|
  {
    if n < |actions| {
      var init := actions[..|actions| - 1];
      assert actions[..n] == init[..n];
      SendsAmongPrefix(init, n);
    } else {
      assert actions[..n] == actions;
    }
  }

  /** The messages broadcast are the SEND frames handled for the destination, in order, as far as the backend has come. */
  lemma BroadcastsComeFromFrames(steps: seq<Step>, d: DestinationId)
    requires IsRun(INITIAL, steps) && d in After(INITIAL, steps).dests
    ensures var log, frames := After(INITIAL, steps).dests[d].log, SendFrames(INITIAL, steps, d);
      && |log| <= |frames|
      && forall i :: 0 <= i < |log| ==> frames[i].Send? && log[i].destination == d && log[i].body == frames[i].message.body
  {
    var dest := After(INITIAL, steps).dests[d];
    ReachableSound(After(INITIAL, steps));
    assert DestAccounted(d, dest);
    SendsComeFromFrames(steps, d);
    SendsInAre(dest.queue.Taken());
    SendsAmongPrefix(dest.queue.sent, dest.queue.received);
  }

  /**
   End to end, from frame to frame: the i-th MESSAGE that a live session has written for a
   subscription names the destination and the client's id of it, and carries the body of the
   i-th SEND frame handled for the destination after as many as had been broadcast when the
   subscription was made.
   */
  lemma FromSendToMessage(steps: seq<Step>, sid: SessionId, id: SubscriptionId, d: DestinationId, u: SubscriptionId, i: nat)
    requires IsRun(INITIAL, steps) && UniqueIds(steps)
    requires var sys := After(INITIAL, steps);
      Live(sys, sid) && Names(sys.dests, d, u, sid, id) && i < |FramesFor(sys.sessions[sid].out, id)|
    ensures var sys, sends := After(INITIAL, steps), SendFrames(INITIAL, steps, d);
      var frame, from := FramesFor(sys.sessions[sid].out, id)[i], sys.dests[d].issued[u].from;
      && from + i < |sends| && sends[from + i].Send?
      && frame.Message? && frame.subscription == id && frame.destination == d
      && frame.body == sends[from + i].message.body
  {
    var sys := After(INITIAL, steps);
    var dest := sys.dests[d];
    assert ReachableWithUniqueIds(sys);
    ExactlyOnceInOrder(sys, sid, id, d, u);
    BroadcastsComeFromFrames(steps, d);
    DueInLog(dest, u, i);
  }

  lemma DueInLog(dest: Dest, u: SubscriptionId, i: nat)
    requires u in dest.issued && i < |Due(dest, u)|
    ensures dest.issued[u].from + i < |dest.log| && Due(dest, u)[i] == dest.log[dest.issued[u].from + i]
  {
  }
}
