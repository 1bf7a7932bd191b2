/**
 Runs that show each rule of module Panics, and the uniqueness of ids, to be needed: one
 rule is broken, the others are kept all along the run, and a task panics or a history
 breaks.
 */
module Mishaps {
  import opened Types
  import opened Channels
  import opened Actions
  import opened Reactions
  import opened Protocol
  import opened Lifecycle
  import opened Delivery
  import opened Panics
  import opened WindDown

  const D := DestinationId("destination")
  const C := SubscriptionId("client")
  const U := SubscriptionId("uuid")
  const V := SubscriptionId("uuid-2")
  const M := MessageId("message")
  const NO_BEATS := HeartBeat(0, 0)

  const SUBSCRIBES := FromClient(0, ClientEvent.ClientFrame(Ok(ClientFrame.Subscribe(D, C))))
  const UNSUBSCRIBES := FromClient(0, ClientEvent.ClientFrame(Ok(ClientFrame.Unsubscribe(C))))
  const SENDS := FromClient(0, ClientEvent.ClientFrame(Ok(ClientFrame.Send(D, []))))
  const DISCONNECTS := FromClient(0, ClientEvent.ClientFrame(Ok(ClientFrame.Disconnect)))

  /** The rules of `Careful`, one by one. */
  datatype Rule = AskingOnce | EndingClean | LeavingOpen

  const ALL_RULES := {AskingOnce, EndingClean, LeavingOpen}

  ghost predicate Obeys(sys: System, step: Step, rule: Rule)
    requires Enabled(sys, step)
  {
    match rule
    case AskingOnce => AsksOnce(sys, step)
    case EndingClean => EndsClean(sys, step)
    case LeavingOpen => !step.CloseDestination?
  }

  /** Every step of the run obeys the rules. */
  ghost predicate AllObey(rules: set<Rule>, sys: System, steps: seq<Step>)
    requires IsRun(sys, steps)
    decreases |steps|
  {
    steps == [] || ((forall rule <- rules :: Obeys(sys, steps[0], rule)) && AllObey(rules, Apply(sys, steps[0]), steps[1..]))
  }

  /** All three together are what a careful run obeys. */
  lemma {:induction false} ObeyingIsCareful(sys: System, steps: seq<Step>)
    requires IsRun(sys, steps)
    ensures AllObey(ALL_RULES, sys, steps) <==> IsCarefulRun(sys, steps)
    decreases |steps|
  {
    if steps != [] {
      ObeyingIsCareful(Apply(sys, steps[0]), steps[1..]);
      assert Careful(sys, steps[0]) <==> forall rule <- ALL_RULES :: Obeys(sys, steps[0], rule) by {
        assert AskingOnce in ALL_RULES && EndingClean in ALL_RULES && LeavingOpen in ALL_RULES;
      }
    }
  }

  ghost predicate Reaches(rules: set<Rule>, steps: seq<Step>, sys: System) {
    IsRun(INITIAL, steps) && After(INITIAL, steps) == sys && AllObey(rules, INITIAL, steps)
  }

  lemma {:induction false} RunAppend(rules: set<Rule>, sys: System, steps: seq<Step>, step: Step)
    requires IsRun(sys, steps) && AllObey(rules, sys, steps) && Enabled(After(sys, steps), step)
    requires forall rule <- rules :: Obeys(After(sys, steps), step, rule)
    ensures IsRun(sys, steps + [step]) && After(sys, steps + [step]) == Apply(After(sys, steps), step)
    ensures AllObey(rules, sys, steps + [step])
    decreases |steps|
  {
    if steps == [] {
      assert [] + [step] == [step] && [step][1..] == [];
    } else {
      assert (steps + [step])[1..] == steps[1..] + [step];
      RunAppend(rules, Apply(sys, steps[0]), steps[1..], step);
    }
  }

  lemma Then(rules: set<Rule>, steps: seq<Step>, sys: System, step: Step, sys': System)
    requires Reaches(rules, steps, sys) && Enabled(sys, step) && Apply(sys, step) == sys'
    requires forall rule <- rules :: Obeys(sys, step, rule)
    ensures Reaches(rules, steps + [step], sys')
  {
    RunAppend(rules, INITIAL, steps, step);
  }

  predicate Unsubscribes(step: Step) {
    step.FromClient? && step.event.ClientFrame? && step.event.frame.Ok? && step.event.frame.value.Unsubscribe?
  }

  /** A step that is no UNSUBSCRIBE, ends no session and closes no destination obeys all rules. */
  lemma PeacefulObeys(sys: System, step: Step)
    requires Enabled(sys, step) && !Unsubscribes(step) && !step.CloseDestination?
    requires forall sid <- sys.sessions :: Live(sys, sid) ==> Live(Apply(sys, step), sid)
    ensures forall rule :: Obeys(sys, step, rule)
  {
    forall rule ensures Obeys(sys, step, rule) {
      match rule
      case AskingOnce =>
      case EndingClean =>
      case LeavingOpen =>
    }
  }

  lemma BackendObeys(sys: System, step: Step)
    requires Enabled(sys, step)
    requires step.TakeSubscribe? || step.TakeUnsubscribe? || step.TakeSend? || step.TakeClose? || step.Deliver? || step.FinishSend?
             || step.RunTask? || step.CreateDestination?
    ensures forall rule :: Obeys(sys, step, rule)
  {
    assert forall sid <- sys.sessions :: Live(sys, sid) ==> Live(Apply(sys, step), sid);
    PeacefulObeys(sys, step);
  }

  // ---------- a session with one active subscription ----------

  const GREETED := Session(Empty(), map[], [Frame(ServerFrame.Connected(V1_2, NO_BEATS))], false)
  const ASKED: Action := DestinationAction.Subscribe(Some(C), 0)
  const SUBSCRIPTION: Subscription<SessionId> := Subscription(U, Some(C), 0)
  const S1 := System(map[0 := GREETED], map[], map[], 0, map[])
  const S2 := System(map[0 := GREETED], map[], map[0 := SubscribeTask(0, C, D)], 1, map[(0, C) := Spawned(0)])
  const S3 := S2.(dests := map[D := NewDest()])
  const DEST4 := NewDest().(queue := Chan([ASKED], 0, true), submitted := multiset{ASKED})
  const S4 := System(map[0 := GREETED], map[D := DEST4], map[], 1, map[(0, C) := Queued(D, 0)])
  const DEST5 := DEST4.(queue := Chan([ASKED], 1, true),
                        table := map[U := SUBSCRIPTION], issued := map[U := Issue(SUBSCRIPTION, 0)])
  const SESSION5 := GREETED.(inbox := Chan([Subscribed(D, C, Ok(U))], 0, true))
  const S5 := System(map[0 := SESSION5], map[D := DEST5], map[], 1, map[(0, C) := Inserted(D, U)])
  const ACTIVE := GREETED.(inbox := Chan([Subscribed(D, C, Ok(U))], 1, true), active := map[C := (D, U)])
  const READY := S5.(sessions := map[0 := ACTIVE])

  const GETTING_READY := [Accept(0, NO_BEATS), SUBSCRIBES, CreateDestination(D), RunTask(0), TakeSubscribe(D, U), FromServer(0)]

  lemma Accepted()
    ensures Apply(INITIAL, Accept(0, NO_BEATS)) == S1
  {
    var s := Apply(INITIAL, Accept(0, NO_BEATS));
    assert s.sessions[0].out == GREETED.out;
    assert s.sessions == S1.sessions;
  }

  lemma AskedFor()
    ensures Enabled(S1, SUBSCRIBES) && Apply(S1, SUBSCRIBES) == S2
  {
    var s := Apply(S1, SUBSCRIBES);
    assert s.sessions[0].out == GREETED.out;
    assert s.sessions == S2.sessions && s.tasks == S2.tasks && s.stages == S2.stages;
  }

  lemma Created()
    ensures Enabled(S2, CreateDestination(D)) && Apply(S2, CreateDestination(D)) == S3
  {
    assert S2.tasks[0].destination == D;
    assert Apply(S2, CreateDestination(D)).dests == S3.dests;
  }

  lemma Submitted()
    ensures Enabled(S3, RunTask(0)) && Apply(S3, RunTask(0)) == S4
  {
    var s := Apply(S3, RunTask(0));
    assert s.dests[D].queue.sent == DEST4.queue.sent;
    assert s.dests[D].refused == multiset{} && s.dests[D].submitted == multiset{ASKED};
    assert s.dests == S4.dests && s.tasks == S4.tasks && s.stages == S4.stages;
  }

  lemma Added()
    ensures Enabled(S4, TakeSubscribe(D, U)) && Apply(S4, TakeSubscribe(D, U)) == S5
  {
    var s := Apply(S4, TakeSubscribe(D, U));
    assert s.dests[D].table == DEST5.table && s.dests[D].issued == DEST5.issued;
    assert s.sessions[0].inbox.sent == SESSION5.inbox.sent;
    assert s.dests == S5.dests && s.sessions == S5.sessions && s.stages == S5.stages;
  }

  lemma Activated()
    ensures Enabled(S5, FromServer(0)) && Apply(S5, FromServer(0)) == READY
  {
    var s := Apply(S5, FromServer(0));
    assert s.sessions[0].out == ACTIVE.out && s.sessions[0].active == ACTIVE.active;
    assert s.sessions == READY.sessions;
  }

  const ASKED_FOR := [Accept(0, NO_BEATS), SUBSCRIBES, CreateDestination(D), RunTask(0)]

  lemma GetAsked()
    ensures Reaches(ALL_RULES, ASKED_FOR, S4)
  {
    Accepted();
    PeacefulObeys(INITIAL, Accept(0, NO_BEATS));
    Then(ALL_RULES, [], INITIAL, Accept(0, NO_BEATS), S1);
    var run1 := [] + [Accept(0, NO_BEATS)];
    AskedFor();
    PeacefulObeys(S1, SUBSCRIBES);
    Then(ALL_RULES, run1, S1, SUBSCRIBES, S2);
    var run2 := run1 + [SUBSCRIBES];
    Created();
    BackendObeys(S2, CreateDestination(D));
    Then(ALL_RULES, run2, S2, CreateDestination(D), S3);
    var run3 := run2 + [CreateDestination(D)];
    Submitted();
    BackendObeys(S3, RunTask(0));
    Then(ALL_RULES, run3, S3, RunTask(0), S4);
    assert run3 + [RunTask(0)] == ASKED_FOR;
  }

  lemma GetReady()
    ensures Reaches(ALL_RULES, GETTING_READY, READY)
  {
    GetAsked();
    Added();
    BackendObeys(S4, TakeSubscribe(D, U));
    Then(ALL_RULES, ASKED_FOR, S4, TakeSubscribe(D, U), S5);
    Activated();
    PeacefulObeys(S5, FromServer(0));
    Then(ALL_RULES, ASKED_FOR + [TakeSubscribe(D, U)], S5, FromServer(0), READY);
    assert ASKED_FOR + [TakeSubscribe(D, U)] + [FromServer(0)] == GETTING_READY;
  }

  /** Session 0 is live with subscription C active at D, whose backend runs, holds U for it, and has drained its queue. */
  ghost predicate Subscribed0(sys: System) {
    && Live(sys, 0) && sys.sessions[0].active == map[C := (D, U)]
    && D in sys.dests && sys.dests[D].queue.open && sys.dests[D].fanOut.None?
    && sys.dests[D].queue.received == |sys.dests[D].queue.sent|
    && sys.dests[D].table == map[U := SUBSCRIPTION]
  }

  /** UNSUBSCRIBE hands the backend an Unsubscribe and leaves the session as it was. */
  lemma UnsubscribeEffect(sys: System)
    requires Live(sys, 0) && sys.sessions[0].active == map[C := (D, U)] && D in sys.dests && sys.dests[D].queue.open
    ensures var sys' := Apply(sys, UNSUBSCRIBES);
      Live(sys', 0) && sys'.sessions[0].active == sys.sessions[0].active
      && sys'.dests == sys.dests[D := Submit(sys.dests[D], DestinationAction.Unsubscribe(U, 0))]
  {
    assert React(map[C := (D, U)], UNSUBSCRIBES.event).call == Some(UnsubscribeFrom(D, U));
  }

  lemma Go(rules: set<Rule>, run: seq<Step>, sys: System, step: Step) returns (run': seq<Step>, sys': System)
    requires Reaches(rules, run, sys) && Enabled(sys, step) && forall rule <- rules :: Obeys(sys, step, rule)
    ensures run' == run + [step] && sys' == Apply(sys, step) && Reaches(rules, run', sys')
  {
    Then(rules, run, sys, step, Apply(sys, step));
    run', sys' := run + [step], Apply(sys, step);
  }

  lemma {:induction false} FewerRules(rules: set<Rule>, fewer: set<Rule>, sys: System, steps: seq<Step>)
    requires IsRun(sys, steps) && AllObey(rules, sys, steps) && fewer <= rules
    ensures AllObey(fewer, sys, steps)
    decreases |steps|
  {
    if steps != [] {
      FewerRules(rules, fewer, Apply(sys, steps[0]), steps[1..]);
    }
  }

  lemma GetReadyUnder(rules: set<Rule>)
    ensures Reaches(rules, GETTING_READY, READY)
  {
    GetReady();
    assert rules <= ALL_RULES by {
      forall rule <- rules ensures rule in ALL_RULES {
        match rule
        case AskingOnce =>
        case EndingClean =>
        case LeavingOpen =>
      }
    }
    FewerRules(ALL_RULES, rules, INITIAL, GETTING_READY);
  }

  /** A step of session 0 that it survives ends no session. */
  lemma SurvivedByAll(sys: System, event: ClientEvent)
    requires Enabled(sys, FromClient(0, event)) && Live(Apply(sys, FromClient(0, event)), 0)
    ensures forall sid <- sys.sessions :: Live(sys, sid) ==> Live(Apply(sys, FromClient(0, event)), sid)
  {
    RespondOwn(sys, 0, sys.sessions[0], React(sys.sessions[0].active, event));
  }

  /** UNSUBSCRIBE obeys the rules if the session survives it, and if it is the first for the subscription. */
  lemma UnsubscribeObeys(rules: set<Rule>, sys: System)
    requires Enabled(sys, UNSUBSCRIBES) && Live(Apply(sys, UNSUBSCRIBES), 0)
    requires AskingOnce in rules ==>
               && sys.sessions[0].active == map[C := (D, U)] && D in sys.dests
               && forall action <- sys.dests[D].queue.sent :: !action.Unsubscribe?
    ensures forall rule <- rules :: Obeys(sys, UNSUBSCRIBES, rule)
  {
    SurvivedByAll(sys, UNSUBSCRIBES.event);
    forall rule <- rules ensures Obeys(sys, UNSUBSCRIBES, rule) {
      match rule
      case AskingOnce =>
      case EndingClean =>
      case LeavingOpen =>
    }
  }

  /** The run obeys the rules, uses no client id twice, and the backend of D panics. */
  ghost predicate DestCrashes(rules: set<Rule>, steps: seq<Step>) {
    && IsRun(INITIAL, steps) && AllObey(rules, INITIAL, steps) && UniqueIds(steps)
    && D in After(INITIAL, steps).dests && After(INITIAL, steps).dests[D].crashed
  }

  // ---------- asking twice ----------

  const ASKS_TWICE := [UNSUBSCRIBES, UNSUBSCRIBES, TakeUnsubscribe(D), TakeUnsubscribe(D)]

  /** The backend's two rounds: the first finds the subscription, the second does not. */
  lemma SecondRemovalPanics(sys: System)
    requires D in sys.dests && sys.dests[D].queue.open && sys.dests[D].fanOut.None? && sys.dests[D].queue.received + 2 == |sys.dests[D].queue.sent|
    requires sys.dests[D].queue.sent[sys.dests[D].queue.received..] == [DestinationAction.Unsubscribe(U, 0), DestinationAction.Unsubscribe(U, 0)]
    requires sys.dests[D].table == map[U := SUBSCRIPTION]
    ensures Enabled(sys, TakeUnsubscribe(D)) && Enabled(Apply(sys, TakeUnsubscribe(D)), TakeUnsubscribe(D))
    ensures var sys' := Apply(Apply(sys, TakeUnsubscribe(D)), TakeUnsubscribe(D)); D in sys'.dests && sys'.dests[D].crashed
  {
    var dest := sys.dests[D];
    assert dest.queue.sent[dest.queue.received] == dest.queue.sent[dest.queue.received..][0];
    assert dest.queue.sent[dest.queue.received + 1] == dest.queue.sent[dest.queue.received..][1];
    assert NextAction(dest) == Some(DestinationAction.Unsubscribe(U, 0));
    var s1 := Apply(sys, TakeUnsubscribe(D));
    assert NextAction(s1.dests[D]) == Some(DestinationAction.Unsubscribe(U, 0));
    assert U !in s1.dests[D].table;
  }

  const BUT_ASKING_ONCE := {EndingClean, LeavingOpen}

  lemma AskTwice(run: seq<Step>, sys: System) returns (run': seq<Step>, sys': System)
    requires Reaches(BUT_ASKING_ONCE, run, sys) && Subscribed0(sys)
    ensures Reaches(BUT_ASKING_ONCE, run', sys') && run' == run + [UNSUBSCRIBES, UNSUBSCRIBES]
    ensures D in sys'.dests && sys'.dests[D].queue.open && sys'.dests[D].fanOut.None?
    ensures sys'.dests[D].queue.received + 2 == |sys'.dests[D].queue.sent|
    ensures sys'.dests[D].queue.sent[sys'.dests[D].queue.received..] == [DestinationAction.Unsubscribe(U, 0), DestinationAction.Unsubscribe(U, 0)]
    ensures sys'.dests[D].table == map[U := SUBSCRIPTION]
  {
    UnsubscribeEffect(sys);
    UnsubscribeObeys(BUT_ASKING_ONCE, sys);
    var run1, s1 := Go(BUT_ASKING_ONCE, run, sys, UNSUBSCRIBES);
    UnsubscribeEffect(s1);
    UnsubscribeObeys(BUT_ASKING_ONCE, s1);
    run', sys' := Go(BUT_ASKING_ONCE, run1, s1, UNSUBSCRIBES);
  }

  /** A client that asks twice to unsubscribe the same subscription stops the destination for everybody. */
  lemma AskingTwicePanics()
    ensures DestCrashes(BUT_ASKING_ONCE, GETTING_READY + ASKS_TWICE)
  {
    GetReadyUnder(BUT_ASKING_ONCE);
    var run2, s2 := AskTwice(GETTING_READY, READY);
    var run4, s4 := RemoveTwice(run2, s2);
    assert run4 == GETTING_READY + ASKS_TWICE;
    AskedOnceOnly(ASKS_TWICE);
  }

  lemma RemoveTwice(run: seq<Step>, sys: System) returns (run': seq<Step>, sys': System)
    requires Reaches(BUT_ASKING_ONCE, run, sys)
    requires D in sys.dests && sys.dests[D].queue.open && sys.dests[D].fanOut.None? && sys.dests[D].queue.received + 2 == |sys.dests[D].queue.sent|
    requires sys.dests[D].queue.sent[sys.dests[D].queue.received..] == [DestinationAction.Unsubscribe(U, 0), DestinationAction.Unsubscribe(U, 0)]
    requires sys.dests[D].table == map[U := SUBSCRIPTION]
    ensures Reaches(BUT_ASKING_ONCE, run', sys') && run' == run + [TakeUnsubscribe(D), TakeUnsubscribe(D)]
    ensures D in sys'.dests && sys'.dests[D].crashed
  {
    SecondRemovalPanics(sys);
    BackendObeys(sys, TakeUnsubscribe(D));
    var run1, s1 := Go(BUT_ASKING_ONCE, run, sys, TakeUnsubscribe(D));
    BackendObeys(s1, TakeUnsubscribe(D));
    run', sys' := Go(BUT_ASKING_ONCE, run1, s1, TakeUnsubscribe(D));
  }

  /** After getting ready, steps that ask for nothing keep the ids unique. */
  lemma AskedOnceOnly(steps: seq<Step>)
    requires forall step <- steps :: SubscribeKey(step).None?
    ensures UniqueIds(GETTING_READY + steps)
  {
    var all := GETTING_READY + steps;
    forall i | 0 <= i < |all| && i != 1 ensures SubscribeKey(all[i]).None? {
      if i >= |GETTING_READY| {
        assert all[i] == steps[i - |GETTING_READY|];
      } else {
        assert all[i] == GETTING_READY[i];
      }
    }
  }

  // ---------- dying with an Unsubscribe in flight ----------

  const DIES_EARLY := [SENDS, UNSUBSCRIBES, DISCONNECTS, TakeSend(D, M), Deliver(D, U), FinishSend(D), TakeUnsubscribe(D)]

  lemma SendEffect(sys: System)
    requires Live(sys, 0) && D in sys.dests
    ensures var sys' := Apply(sys, SENDS);
      Live(sys', 0) && sys'.sessions[0].active == sys.sessions[0].active
      && sys'.dests == sys.dests[D := Submit(sys.dests[D], DestinationAction.Send(InboundMessage(None, []), 0))]
  {
    assert React(sys.sessions[0].active, SENDS.event).call == Some(SendTo(D, InboundMessage(None, [])));
  }

  lemma DisconnectEffect(sys: System)
    requires Live(sys, 0)
    ensures !Live(Apply(sys, DISCONNECTS), 0) && Apply(sys, DISCONNECTS).dests == sys.dests
  {
    assert React(sys.sessions[0].active, DISCONNECTS.event) == Dies(sys.sessions[0].active).(resetsClientTimer := true);
  }

  lemma StartEffect(sys: System)
    requires D in sys.dests && sys.dests[D].table == map[U := SUBSCRIPTION] && sys.dests[D].log == []
    requires NextAction(sys.dests[D]).Some? && NextAction(sys.dests[D]).value.Send?
    ensures Enabled(sys, TakeSend(D, M))
    ensures var sys' := Apply(sys, TakeSend(D, M));
      && sys'.sessions == sys.sessions && D in sys'.dests
      && sys'.dests[D].queue == sys.dests[D].queue.Pop() && sys'.dests[D].table == sys.dests[D].table
      && sys'.dests[D].fanOut.Some? && sys'.dests[D].fanOut.value.remaining == map[U := SUBSCRIPTION]
      && sys'.dests[D].fanOut.value.dead == {}
  {
  }

  lemma BounceEffect(sys: System)
    requires D in sys.dests && !Live(sys, 0) && sys.dests[D].fanOut.Some?
    requires sys.dests[D].fanOut.value.remaining == map[U := SUBSCRIPTION] && sys.dests[D].fanOut.value.dead == {}
    ensures Enabled(sys, Deliver(D, U))
    ensures var sys' := Apply(sys, Deliver(D, U));
      && D in sys'.dests && sys'.dests[D].queue == sys.dests[D].queue && sys'.dests[D].table == sys.dests[D].table
      && sys'.dests[D].fanOut.Some? && sys'.dests[D].fanOut.value.remaining == map[]
      && sys'.dests[D].fanOut.value.dead == {U}
  {
    assert map[U := SUBSCRIPTION] - {U} == map[];
    assert {} + {U} == {U};
  }

  lemma PruneEffect(sys: System)
    requires D in sys.dests && sys.dests[D].fanOut.Some? && sys.dests[D].fanOut.value.remaining == map[]
    requires sys.dests[D].fanOut.value.dead == {U} && sys.dests[D].queue.open
    requires sys.dests[D].queue.received < |sys.dests[D].queue.sent|
    requires sys.dests[D].queue.sent[sys.dests[D].queue.received] == DestinationAction.Unsubscribe(U, 0)
    ensures Enabled(sys, FinishSend(D)) && Enabled(Apply(sys, FinishSend(D)), TakeUnsubscribe(D))
    ensures var sys' := Apply(Apply(sys, FinishSend(D)), TakeUnsubscribe(D)); D in sys'.dests && sys'.dests[D].crashed
  {
    var s1 := Apply(sys, FinishSend(D));
    assert NextAction(s1.dests[D]) == Some(DestinationAction.Unsubscribe(U, 0));
    assert U !in s1.dests[D].table;
  }

  lemma EarlyDeathQueue()
    ensures var s1 := Apply(READY, SENDS);
      Live(s1, 0) && s1.sessions[0].active == map[C := (D, U)] && D in s1.dests && s1.dests[D].queue.open
      && var s2 := Apply(s1, UNSUBSCRIBES);
         Live(s2, 0) && D in s2.dests
         && s2.dests[D] == DEST5.(queue := s2.dests[D].queue, submitted := s2.dests[D].submitted, refused := s2.dests[D].refused)
         && s2.dests[D].queue == Chan([ASKED, DestinationAction.Send(InboundMessage(None, []), 0), DestinationAction.Unsubscribe(U, 0)], 1, true)
  {
    SendEffect(READY);
    UnsubscribeEffect(Apply(READY, SENDS));
  }

  const BUT_ENDING_CLEAN := {AskingOnce, LeavingOpen}

  lemma DisconnectObeys(sys: System)
    requires Enabled(sys, DISCONNECTS)
    ensures forall rule <- BUT_ENDING_CLEAN :: Obeys(sys, DISCONNECTS, rule)
  {
  }

  lemma SendObeys(sys: System)
    requires Enabled(sys, SENDS) && Live(Apply(sys, SENDS), 0)
    ensures forall rule :: Obeys(sys, SENDS, rule)
  {
    SurvivedByAll(sys, SENDS.event);
    PeacefulObeys(sys, SENDS);
  }

  lemma DyingEarlyBegins() returns (run: seq<Step>, sys: System)
    ensures run == GETTING_READY + [SENDS, UNSUBSCRIBES, DISCONNECTS] && Reaches(BUT_ENDING_CLEAN, run, sys)
    ensures D in sys.dests && !Live(sys, 0)
    ensures sys.dests[D].table == map[U := SUBSCRIPTION] && sys.dests[D].log == [] && sys.dests[D].fanOut.None?
    ensures sys.dests[D].queue == Chan([ASKED, DestinationAction.Send(InboundMessage(None, []), 0), DestinationAction.Unsubscribe(U, 0)], 1, true)
  {
    EarlyDeathQueue();
    var run2, s2 := SendThenUnsubscribe();
    DisconnectEffect(s2);
    DisconnectObeys(s2);
    run, sys := Go(BUT_ENDING_CLEAN, run2, s2, DISCONNECTS);
  }

  lemma FirstUnsubscribe()
    ensures var s1 := Apply(READY, SENDS);
      Enabled(s1, UNSUBSCRIBES) && forall rule <- BUT_ENDING_CLEAN :: Obeys(s1, UNSUBSCRIBES, rule)
  {
    var s1 := Apply(READY, SENDS);
    SendEffect(READY);
    UnsubscribeEffect(s1);
    assert s1.dests[D].queue.sent == [ASKED, DestinationAction.Send(InboundMessage(None, []), 0)];
    UnsubscribeObeys(BUT_ENDING_CLEAN, s1);
  }

  lemma SendThenUnsubscribe() returns (run: seq<Step>, sys: System)
    ensures run == GETTING_READY + [SENDS, UNSUBSCRIBES] && Reaches(BUT_ENDING_CLEAN, run, sys)
    ensures sys == Apply(Apply(READY, SENDS), UNSUBSCRIBES)
  {
    GetReadyUnder(BUT_ENDING_CLEAN);
    EarlyDeathQueue();
    SendObeys(READY);
    var run1, s1 := Go(BUT_ENDING_CLEAN, GETTING_READY, READY, SENDS);
    FirstUnsubscribe();
    run, sys := Go(BUT_ENDING_CLEAN, run1, s1, UNSUBSCRIBES);
  }

  /** A session that ends with an Unsubscribe in flight, behind a Send, stops the destination for everybody. */
  lemma DyingEarlyPanics()
    ensures DestCrashes(BUT_ENDING_CLEAN, GETTING_READY + DIES_EARLY)
  {
    var run, sys := DyingEarlyBegins();
    assert NextAction(sys.dests[D]) == Some(DestinationAction.Send(InboundMessage(None, []), 0));
    DyingEarlyEnds(run, sys);
    assert run + [TakeSend(D, M), Deliver(D, U), FinishSend(D), TakeUnsubscribe(D)] == GETTING_READY + DIES_EARLY;
    AskedOnceOnly(DIES_EARLY);
  }

  lemma SendBounces(run: seq<Step>, sys: System) returns (run': seq<Step>, sys': System)
    requires Reaches(BUT_ENDING_CLEAN, run, sys) && D in sys.dests && !Live(sys, 0)
    requires sys.dests[D].table == map[U := SUBSCRIPTION] && sys.dests[D].log == []
    requires NextAction(sys.dests[D]).Some? && NextAction(sys.dests[D]).value.Send?
    ensures Reaches(BUT_ENDING_CLEAN, run', sys') && run' == run + [TakeSend(D, M), Deliver(D, U)]
    ensures D in sys'.dests && sys'.dests[D].queue == sys.dests[D].queue.Pop()
    ensures sys'.dests[D].fanOut.Some? && sys'.dests[D].fanOut.value.remaining == map[] && sys'.dests[D].fanOut.value.dead == {U}
  {
    StartEffect(sys);
    BackendObeys(sys, TakeSend(D, M));
    var run1, s1 := Go(BUT_ENDING_CLEAN, run, sys, TakeSend(D, M));
    BounceEffect(s1);
    BackendObeys(s1, Deliver(D, U));
    run', sys' := Go(BUT_ENDING_CLEAN, run1, s1, Deliver(D, U));
  }

  lemma DyingEarlyEnds(run: seq<Step>, sys: System)
    requires Reaches(BUT_ENDING_CLEAN, run, sys) && D in sys.dests && !Live(sys, 0)
    requires sys.dests[D].table == map[U := SUBSCRIPTION] && sys.dests[D].log == [] && sys.dests[D].fanOut.None?
    requires sys.dests[D].queue == Chan([ASKED, DestinationAction.Send(InboundMessage(None, []), 0), DestinationAction.Unsubscribe(U, 0)], 1, true)
    ensures var all := run + [TakeSend(D, M), Deliver(D, U), FinishSend(D), TakeUnsubscribe(D)];
      IsRun(INITIAL, all) && AllObey(BUT_ENDING_CLEAN, INITIAL, all)
      && D in After(INITIAL, all).dests && After(INITIAL, all).dests[D].crashed
  {
    var run2, s2 := SendBounces(run, sys);
    PruneEffect(s2);
    BackendObeys(s2, FinishSend(D));
    var run3, s3 := Go(BUT_ENDING_CLEAN, run2, s2, FinishSend(D));
    BackendObeys(s3, TakeUnsubscribe(D));
    var run4, s4 := Go(BUT_ENDING_CLEAN, run3, s3, TakeUnsubscribe(D));
    assert run4 == run + [TakeSend(D, M), Deliver(D, U), FinishSend(D), TakeUnsubscribe(D)];
  }

  // ---------- closing a destination ----------

  const IS_CLOSED := [CloseDestination(D), TakeClose(D), UNSUBSCRIBES]

  const BUT_LEAVING_OPEN := {AskingOnce, EndingClean}

  /** The UNSUBSCRIBE that ends the session is its first, so it has none in flight. */
  lemma LastUnsubscribeObeys(sys: System)
    requires Enabled(sys, UNSUBSCRIBES) && sys.sessions.Keys == {0} && sys.sessions[0].active == map[C := (D, U)]
    requires sys.dests.Keys == {D} && forall action <- sys.dests[D].queue.sent :: !action.Unsubscribe?
    ensures forall rule <- BUT_LEAVING_OPEN :: Obeys(sys, UNSUBSCRIBES, rule)
  {
    assert NothingInFlight(sys, 0);
  }

  lemma CloseObeys(sys: System)
    requires Enabled(sys, CloseDestination(D))
    ensures forall rule <- BUT_LEAVING_OPEN :: Obeys(sys, CloseDestination(D), rule)
  {
  }

  lemma Closes() returns (run: seq<Step>, sys: System)
    ensures Reaches(BUT_LEAVING_OPEN, run, sys) && run == GETTING_READY + [CloseDestination(D), TakeClose(D)]
    ensures Live(sys, 0) && sys.sessions.Keys == {0} && sys.sessions[0].active == map[C := (D, U)]
    ensures sys.dests.Keys == {D} && !sys.dests[D].queue.open && sys.dests[D].queue.sent == [ASKED, DestinationAction.Close]
  {
    GetReadyUnder(BUT_LEAVING_OPEN);
    CloseObeys(READY);
    var run1, s1 := Go(BUT_LEAVING_OPEN, GETTING_READY, READY, CloseDestination(D));
    assert NextAction(s1.dests[D]) == Some(DestinationAction.Close);
    BackendObeys(s1, TakeClose(D));
    run, sys := Go(BUT_LEAVING_OPEN, run1, s1, TakeClose(D));
  }

  lemma StoppedCrashes(sys: System)
    requires Enabled(sys, UNSUBSCRIBES) && sys.sessions[0].active == map[C := (D, U)] && D in sys.dests && !sys.dests[D].queue.open
    ensures 0 in Apply(sys, UNSUBSCRIBES).sessions && Apply(sys, UNSUBSCRIBES).sessions[0].crashed
  {
    assert React(map[C := (D, U)], UNSUBSCRIBES.event).call == Some(UnsubscribeFrom(D, U));
  }

  /** A session that unsubscribes from a closed destination panics itself. */
  lemma ClosingPanics()
    ensures IsRun(INITIAL, GETTING_READY + IS_CLOSED)
    ensures AllObey(BUT_LEAVING_OPEN, INITIAL, GETTING_READY + IS_CLOSED) && UniqueIds(GETTING_READY + IS_CLOSED)
    ensures var sys := After(INITIAL, GETTING_READY + IS_CLOSED); 0 in sys.sessions && sys.sessions[0].crashed
  {
    var run2, s2 := Closes();
    StoppedCrashes(s2);
    LastUnsubscribeObeys(s2);
    var run3, s3 := Go(BUT_LEAVING_OPEN, run2, s2, UNSUBSCRIBES);
    assert run3 == GETTING_READY + IS_CLOSED;
    AskedOnceOnly(IS_CLOSED);
  }

  // ---------- using an id twice ----------

  const USES_ID_TWICE := [SUBSCRIBES, RunTask(1), TakeSubscribe(D, V)]

  lemma SecondTask()
    ensures Enabled(READY, SUBSCRIBES)
    ensures var s1 := Apply(READY, SUBSCRIBES);
      && s1.tasks == map[1 := SubscribeTask(0, C, D)] && s1.dests == READY.dests
      && Live(s1, 0) && s1.sessions[0].inbox == ACTIVE.inbox
      && Enabled(s1, RunTask(1))
      && var s2 := Apply(s1, RunTask(1));
         && D in s2.dests && s2.dests[D].queue == Chan([ASKED, ASKED], 1, true) && s2.dests[D].issued == DEST5.issued
         && s2.dests[D].fanOut.None? && Live(s2, 0) && s2.sessions[0].inbox == ACTIVE.inbox
  {
    assert React(map[C := (D, U)], SUBSCRIBES.event).call == Some(SubscribeTo(D, C));
  }

  lemma SecondAnswer(sys: System)
    requires D in sys.dests && sys.dests[D].queue == Chan([ASKED, ASKED], 1, true) && sys.dests[D].issued == DEST5.issued
    requires sys.dests[D].fanOut.None? && Live(sys, 0) && sys.sessions[0].inbox == ACTIVE.inbox
    ensures Enabled(sys, TakeSubscribe(D, V))
    ensures var sys' := Apply(sys, TakeSubscribe(D, V));
      0 in sys'.sessions && sys'.sessions[0].inbox.sent == [Subscribed(D, C, Ok(U)), Subscribed(D, C, Ok(V))]
  {
    assert NextAction(sys.dests[D]) == Some(ASKED);
    assert V.text != U.text;
  }

  lemma ToldTwice()
    ensures PhaseOf([Subscribed(D, C, Ok(U)), Subscribed(D, C, Ok(V))], C).Broken?
  {
    PhaseOfPush([], Subscribed(D, C, Ok(U)), C);
    PhaseOfPush([] + [Subscribed(D, C, Ok(U))], Subscribed(D, C, Ok(V)), C);
    assert [] + [Subscribed(D, C, Ok(U))] + [Subscribed(D, C, Ok(V))] == [Subscribed(D, C, Ok(U)), Subscribed(D, C, Ok(V))];
  }

  /** A client that uses an id for a second subscription while the first is open is told of two, and its history breaks. */
  lemma ReusingAnIdBreaksTheHistory()
    ensures IsRun(INITIAL, GETTING_READY + USES_ID_TWICE)
    ensures AllObey(ALL_RULES, INITIAL, GETTING_READY + USES_ID_TWICE) && !UniqueIds(GETTING_READY + USES_ID_TWICE)
    ensures var sys := After(INITIAL, GETTING_READY + USES_ID_TWICE);
      0 in sys.sessions && PhaseOf(sys.sessions[0].inbox.sent, C).Broken?
  {
    GetReady();
    SecondTask();
    SurvivedByAll(READY, SUBSCRIBES.event);
    PeacefulObeys(READY, SUBSCRIBES);
    var run1, s1 := Go(ALL_RULES, GETTING_READY, READY, SUBSCRIBES);
    BackendObeys(s1, RunTask(1));
    var run2, s2 := Go(ALL_RULES, run1, s1, RunTask(1));
    SecondAnswer(s2);
    BackendObeys(s2, TakeSubscribe(D, V));
    var run3, s3 := Go(ALL_RULES, run2, s2, TakeSubscribe(D, V));
    ToldTwice();
    assert run3 == GETTING_READY + USES_ID_TWICE;
    IdAskedTwice();
  }

  lemma IdAskedTwice()
    ensures !UniqueIds(GETTING_READY + USES_ID_TWICE)
  {
    var all := GETTING_READY + USES_ID_TWICE;
    assert all[1] == SUBSCRIBES && all[6] == SUBSCRIBES;
    assert SubscribeKey(SUBSCRIBES).Some?;
  }
}
