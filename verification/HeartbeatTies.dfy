/** Runs at the very edge of a period: the claims about heartbeats are as sharp as they can be. */
module HeartbeatTies {
  import opened Types
  import opened Channels
  import opened Resetters
  import opened Timers
  import opened Reactions
  import opened Responses
  import opened Heartbeats

  /** The session after `k` steps of its opening: both streams polled, both tasks started, and then `ms` passed. */
  function Opened(requested: HeartBeat, ms: nat, k: nat): Beat {
    var p, g, b := ServerPeriod(requested), ClientPeriod(requested), Connection(requested, 0);
    var server, client := Core(p, false, Some(0), [Fresh(p)], Empty()), Core(g, false, Some(0), [Fresh(g)], Empty());
    var started, listening := server.(tasks := [Listen(p, 0)]), client.(tasks := [Listen(g, 0)]);
    match k
    case 0 => b
    case 1 => b.(server := b.server.(initialising := true, core := server))
    case 2 => b.(server := b.server.(core := server))
    case 3 => b.(server := b.server.(core := server), client := b.client.(initialising := true, core := client))
    case 4 => b.(server := b.server.(core := server), client := b.client.(core := client))
    case 5 => b.(server := b.server.(core := started), client := b.client.(core := client))
    case 6 => b.(server := b.server.(core := started), client := b.client.(core := listening))
    case _ => b.(now := ms, server := b.server.(now := ms, core := started), client := b.client.(now := ms, core := listening))
  }

  function AtTheEdge(requested: HeartBeat, ms: nat): Beat {
    Opened(requested, ms, 7)
  }

  function OpeningStep(ms: nat, k: nat): BeatStep {
    match k
    case 0 => PollServer
    case 1 => PollServer
    case 2 => PollClient
    case 3 => PollClient
    case 4 => ServerTask(Start)
    case 5 => ClientTask(Start)
    case _ => Pass(ms)
  }

  /** No deadline of the two timers is before `ms`. */
  predicate Fits(requested: HeartBeat, ms: nat) {
    (ServerPeriod(requested) > 0 ==> ms <= ServerPeriod(requested)) && (ClientPeriod(requested) > 0 ==> ms <= ClientPeriod(requested))
  }

  lemma ServerOpens(requested: HeartBeat, ms: nat, k: nat)
    requires k < 2 || k == 4
    ensures var step := OpeningStep(ms, k);
      Possible(Opened(requested, ms, k), step) && Move(Opened(requested, ms, k), step) == Opened(requested, ms, k + 1)
  {
  }

  lemma ClientOpens(requested: HeartBeat, ms: nat, k: nat)
    requires k == 2 || k == 3 || k == 5
    ensures var step := OpeningStep(ms, k);
      Possible(Opened(requested, ms, k), step) && Move(Opened(requested, ms, k), step) == Opened(requested, ms, k + 1)
  {
  }

  lemma TimePasses(requested: HeartBeat, ms: nat)
    requires Fits(requested, ms)
    ensures Possible(Opened(requested, ms, 6), Pass(ms)) && Move(Opened(requested, ms, 6), Pass(ms)) == AtTheEdge(requested, ms)
  {
  }

  /** The steps of the opening from the one numbered `k` on. */
  function Opening(ms: nat, k: nat): seq<BeatStep>
    decreases 7 - k
  {
    if k >= 7 then [] else [OpeningStep(ms, k)] + Opening(ms, k + 1)
  }

  lemma {:induction false} Opens(requested: HeartBeat, ms: nat, k: nat)
    requires Fits(requested, ms) && k <= 7
    ensures IsCourse(Opened(requested, ms, k), Opening(ms, k))
    ensures AfterCourse(Opened(requested, ms, k), Opening(ms, k)) == AtTheEdge(requested, ms)
    decreases 7 - k
  {
    if k < 7 {
      if k == 6 {
        TimePasses(requested, ms);
      } else if k < 2 || k == 4 {
        ServerOpens(requested, ms, k);
      } else {
        ClientOpens(requested, ms, k);
      }
      Opens(requested, ms, k + 1);
      Cons(Opened(requested, ms, k), OpeningStep(ms, k), Opening(ms, k + 1));
    }
  }

  // ---------- the client ----------

  lemma HeardAtTheEdge(requested: HeartBeat)
    requires requested.expected == 0 && ClientPeriod(requested) > 0
    ensures var edge, g := AtTheEdge(requested, ClientPeriod(requested)), ClientPeriod(requested);
      && Possible(edge, Handle(ClientHeartbeat))
      && Move(edge, Handle(ClientHeartbeat))
         == edge.(heard := [0, g], client := edge.client.(core := edge.client.core.(commands := Chan([TimerCommand.Reset], 0, true))))
  {
  }

  lemma InTime(requested: HeartBeat)
    requires requested.expected == 0 && ClientPeriod(requested) > 0
    ensures var edge, g, steps := AtTheEdge(requested, ClientPeriod(requested)), ClientPeriod(requested), [Handle(ClientHeartbeat), ClientTask(Receive)];
      && IsCourse(edge, steps) && AfterCourse(edge, steps).heard == [0, g] && AfterCourse(edge, steps).missed == 0
      && AfterCourse(edge, steps).client.core.tasks == [Listening(g, g + g)]
  {
    HeardAtTheEdge(requested);
    var heard := Move(AtTheEdge(requested, ClientPeriod(requested)), Handle(ClientHeartbeat));
    Cons(heard, ClientTask(Receive), []);
    Cons(AtTheEdge(requested, ClientPeriod(requested)), Handle(ClientHeartbeat), [ClientTask(Receive)]);
    assert [Handle(ClientHeartbeat)] + [ClientTask(Receive)] == [Handle(ClientHeartbeat), ClientTask(Receive)];
    assert [ClientTask(Receive)] + [] == [ClientTask(Receive)];
  }

  lemma Late(requested: HeartBeat)
    requires requested.expected == 0 && ClientPeriod(requested) > 0
    ensures var edge, g := AtTheEdge(requested, ClientPeriod(requested)), ClientPeriod(requested);
      var steps := [Handle(ClientHeartbeat), ClientTask(Step.Fire), PollClient];
      IsCourse(edge, steps) && AfterCourse(edge, steps).heard == [0, g] && AfterCourse(edge, steps).missed == 1
  {
    HeardAtTheEdge(requested);
    var heard := Move(AtTheEdge(requested, ClientPeriod(requested)), Handle(ClientHeartbeat));
    FiresAndReports(heard);
    Cons(AtTheEdge(requested, ClientPeriod(requested)), Handle(ClientHeartbeat), [ClientTask(Step.Fire), PollClient]);
    assert [Handle(ClientHeartbeat)] + [ClientTask(Step.Fire), PollClient]
        == [Handle(ClientHeartbeat), ClientTask(Step.Fire), PollClient];
  }

  lemma FiresAndReports(b: Beat)
    requires b.alive && Polls(b.client) && !b.client.initialising && b.client.core.task == Some(0)
    requires |b.client.core.tasks| == 1 && b.client.core.tasks[0].Listening? && b.client.core.tasks[0].deadline <= b.client.now
    ensures var steps := [ClientTask(Step.Fire), PollClient];
      IsCourse(b, steps) && AfterCourse(b, steps).heard == b.heard && AfterCourse(b, steps).missed == b.missed + 1
  {
    var fired := Move(b, ClientTask(Step.Fire));
    assert fired.client.core.tasks == [Fired(1), Fresh(b.client.core.tasks[0].period)];
    Cons(fired, PollClient, []);
    Cons(b, ClientTask(Step.Fire), [PollClient]);
    assert [PollClient] + [] == [PollClient];
    assert [ClientTask(Step.Fire)] + [PollClient] == [ClientTask(Step.Fire), PollClient];
  }

  /**
   A client heard exactly when the grace period is over may be in time or not: the task's
   select decides. So a gap of g neither always nor never leads to the error.
   */
  lemma TieGoesEitherWay(requested: HeartBeat)
    requires requested.expected == 0 && ClientPeriod(requested) > 0
    ensures var b, g := Connection(requested, 0), ClientPeriod(requested);
      IsCourse(b, Opening(g, 0))
      && var edge := AfterCourse(b, Opening(g, 0));
         var inTime, late := [Handle(ClientHeartbeat), ClientTask(Receive)], [Handle(ClientHeartbeat), ClientTask(Step.Fire), PollClient];
         && IsCourse(edge, inTime) && IsCourse(edge, late)
         && AfterCourse(edge, inTime).heard == AfterCourse(edge, late).heard == [0, g]
         && AfterCourse(edge, inTime).missed == 0 && AfterCourse(edge, inTime).client.core.tasks == [Listening(g, g + g)]
         && AfterCourse(edge, late).missed == 1
  {
    Opens(requested, ClientPeriod(requested), 0);
    InTime(requested);
    Late(requested);
  }

  // ---------- the server ----------

  /** A message handled at the moment when the server's timer is due. */
  lemma MessageAtTheEdge(requested: HeartBeat, id: SubscriptionId, message: OutboundMessage)
    requires requested.expected > 0 && requested.supplied == 0
    ensures var p := ServerPeriod(requested);
      var edge, frame := AtTheEdge(requested, p), Frame(MessageFrame(id, message));
      && Possible(edge, Handle(ServerMessage(id, message)))
      && Move(edge, Handle(ServerMessage(id, message)))
         == edge.(log := edge.log + [Stamped(p, frame)],
                  server := edge.server.(core := edge.server.core.(commands := Chan([TimerCommand.Reset], 0, true))))
  {
    var reaction := React(map[], ServerMessage(id, message));
    assert reaction == Writes(map[], Frame(MessageFrame(id, message))).(resetsServerTimer := true);
  }

  lemma FiresAndWrites(b: Beat)
    requires b.alive && Polls(b.server) && !b.server.initialising && b.server.core.task == Some(0)
    requires |b.server.core.tasks| == 1 && b.server.core.tasks[0].Listening? && b.server.core.tasks[0].deadline <= b.server.now
    ensures var steps := [ServerTask(Step.Fire), PollServer];
      IsCourse(b, steps) && AfterCourse(b, steps).log == b.log + [Stamped(b.now, Eol)]
  {
    var fired := Move(b, ServerTask(Step.Fire));
    assert fired.server.core.tasks == [Fired(1), Fresh(b.server.core.tasks[0].period)];
    Cons(fired, PollServer, []);
    Cons(b, ServerTask(Step.Fire), [PollServer]);
    assert [PollServer] + [] == [PollServer];
    assert [ServerTask(Step.Fire)] + [PollServer] == [ServerTask(Step.Fire), PollServer];
  }

  /** A message does not keep away an end-of-line that is due at its very moment: the task's select decides. */
  lemma EolCanFollowAtOnce(requested: HeartBeat, id: SubscriptionId, message: OutboundMessage)
    requires requested.expected > 0 && requested.supplied == 0
    ensures var b, p := Connection(requested, 0), ServerPeriod(requested);
      IsCourse(b, Opening(p, 0))
      && var edge := AfterCourse(b, Opening(p, 0));
         var steps := [Handle(ServerMessage(id, message)), ServerTask(Step.Fire), PollServer];
         && IsCourse(edge, steps)
         && AfterCourse(edge, steps).log == b.log + [Stamped(p, Frame(MessageFrame(id, message))), Stamped(p, Eol)]
  {
    var p := ServerPeriod(requested);
    Opens(requested, p, 0);
    MessageAtTheEdge(requested, id, message);
    var edge := AtTheEdge(requested, p);
    var sent := Move(edge, Handle(ServerMessage(id, message)));
    FiresAndWrites(sent);
    Cons(edge, Handle(ServerMessage(id, message)), [ServerTask(Step.Fire), PollServer]);
    assert [Handle(ServerMessage(id, message))] + [ServerTask(Step.Fire), PollServer]
        == [Handle(ServerMessage(id, message)), ServerTask(Step.Fire), PollServer];
  }
}
