/** Urgent time never stands still for good: from every state the timers come to rest, and then time can pass. */
module TimePasses {
  import opened Types
  import opened Channels
  import opened Resetters
  import opened Timers
  import opened TimerLaws
  import opened Responses
  import opened Heartbeats
  import opened HeartbeatLaws

  predicate IsDue(t: Timer) {
    t.core.tasks != [] && Tail(t).Listening? && Tail(t).deadline <= t.now
  }

  /** The work that a timer has left to do at this moment. */
  function Load(t: Timer): nat {
    (if t.core.tasks == [] then 16 else 0)
    + (if t.initialising then 8 else 0)
    + (if t.core.commands.Valid() then 2 * |t.core.commands.Queue()| else 0)
    + (if t.core.tasks != [] && Tail(t).Fresh? then 2 else 0)
    + (if IsDue(t) then 6 else 0)
    + (if t.yielded < t.fires then t.fires - t.yielded else 0)
  }

  lemma PollLightens(t: Timer, period: nat)
    requires InUse(t, period) && HasNews(t)
    ensures Load(Timers.Apply(t, PollStep(t))) < Load(t)
  {
    if t.core.task.Some? {
      HandleAtTail(t);
    }
  }

  lemma TaskLightens(t: Timer, period: nat, step: Timers.Step)
    requires InUse(t, period) && IsTaskStep(step) && Timers.Enabled(t, step)
    ensures Load(Timers.Apply(t, step)) < Load(t)
  {
    TaskInUse(t, period, step);
    if step.Receive? {
      ReceiveLightens(t, period);
    }
  }

  lemma ReceiveLightens(t: Timer, period: nat)
    requires InUse(t, period) && Timers.Enabled(t, Receive)
    ensures Load(Timers.Apply(t, Receive)) < Load(t)
  {
    var t' := Timers.Apply(t, Receive);
    TaskInUse(t, period, Receive);
    assert t'.core.commands.Queue() == t.core.commands.Queue()[1..];
  }

  /** What a timer that is not at rest will do next. */
  lemma NextTask(t: Timer, period: nat) returns (step: Timers.Step)
    requires InUse(t, period) && Busy(t) && !HasNews(t)
    ensures IsTaskStep(step) && Timers.Enabled(t, step) && Load(Timers.Apply(t, step)) < Load(t)
  {
    step := if Timers.Enabled(t, Start) then Start
            else if Timers.Enabled(t, Receive) then Receive
            else if Timers.Enabled(t, Step.Disconnect) then Step.Disconnect
            else Step.Fire;
    TaskLightens(t, period, step);
  }

  /** The listener is done once it has reported. */
  function ClientLoad(b: Beat): nat {
    if b.missed > 0 then 0 else 1 + Load(b.client)
  }

  lemma ReportedRests(t: Timer)
    requires Inv(t) && t.dropped && t.core.tasks != [] && Tail(t).Aborted?
    ensures !Busy(t)
  {
  }

  /** One step of either timer, as long as one is not at rest. */
  lemma NextStep(b: Beat, expected: nat, grace: nat) returns (step: BeatStep)
    requires BeatInv(b, expected, grace) && b.alive && (Busy(b.server) || Busy(b.client))
    ensures Possible(b, step)
    ensures var b' := Move(b, step);
      b'.alive && b'.now == b.now && Load(b'.server) + ClientLoad(b') < Load(b.server) + ClientLoad(b)
  {
    if Busy(b.server) {
      if HasNews(b.server) {
        step := PollServer;
        PollLightens(b.server, expected);
      } else {
        var taskStep := NextTask(b.server, expected);
        step := ServerTask(taskStep);
      }
    } else {
      if b.missed > 0 {
        ReportedRests(b.client);
      }
      if HasNews(b.client) {
        step := PollClient;
        PollLightens(b.client, grace);
      } else {
        var taskStep := NextTask(b.client, grace);
        step := ClientTask(taskStep);
      }
    }
  }

  lemma {:induction false} ComesToRest(b: Beat, expected: nat, grace: nat) returns (steps: seq<BeatStep>)
    requires BeatInv(b, expected, grace) && b.alive
    ensures IsCourse(b, steps)
    ensures var b' := AfterCourse(b, steps);
      b'.alive && b'.now == b.now && BeatInv(b', expected, grace) && !Busy(b'.server) && !Busy(b'.client)
    decreases Load(b.server) + ClientLoad(b)
  {
    if Busy(b.server) || Busy(b.client) {
      var step := NextStep(b, expected, grace);
      MoveInv(b, step, expected, grace);
      var rest := ComesToRest(Move(b, step), expected, grace);
      Heartbeats.Cons(b, step, rest);
      steps := [step] + rest;
    } else {
      steps := [];
    }
  }

  lemma RestedCanPass(t: Timer)
    requires !Busy(t)
    ensures CanPass(t, 1)
  {
  }

  /** From every state of a live session some steps that take no time lead to one where time can pass. */
  lemma TimeCanPass(requested: HeartBeat, b: Beat) returns (steps: seq<BeatStep>)
    requires CourseOf(requested, b) && b.alive
    ensures IsCourse(b, steps) && AfterCourse(b, steps).alive && AfterCourse(b, steps).now == b.now
    ensures Possible(AfterCourse(b, steps), Pass(1))
  {
    InCourse(requested, b);
    steps := ComesToRest(b, ServerPeriod(requested), ClientPeriod(requested));
    RestedCanPass(AfterCourse(b, steps).server);
    RestedCanPass(AfterCourse(b, steps).client);
  }
}
