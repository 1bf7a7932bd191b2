/**
 What does not depend on time: however late tasks run and streams are polled, even if the
 server's heartbeat stream ends early and is dropped, resetting its timer does not fail.
 */
module LooseTime {
  import opened Types
  import opened Channels
  import opened Resetters
  import opened Timers
  import opened TimerLaws
  import opened Reactions
  import opened Heartbeats

  ghost predicate LooseInv(b: Beat) {
    && !b.crashed && b.missed <= 1
    && Serves(b.server) && b.server.senderAlive
    && Inv(b.client) && b.client.senderAlive && (b.client.dropped <==> b.missed == 1)
  }

  lemma ResetServes(t: Timer)
    requires Serves(t)
    ensures Serves(SendReset(t)) && SendReset(t).senderAlive == t.senderAlive
  {
    if t.senderAlive {
      StepServes(t, Command(Reset));
    }
  }

  lemma ResetKeeps(t: Timer)
    requires Inv(t)
    ensures Inv(SendReset(t)) && SendReset(t).senderAlive == t.senderAlive && SendReset(t).dropped == t.dropped
  {
    if t.senderAlive {
      StepInv(t, Command(Reset));
    }
  }

  lemma HandledLoose(b: Beat, event: ClientEvent)
    requires LooseInv(b)
    ensures LooseInv(Handled(b, event))
  {
    ServesCommands(b.server);
    ResetServes(b.server);
    ResetKeeps(b.client);
  }

  lemma ServerLoose(b: Beat, step: BeatStep)
    requires LooseInv(b) && Conceivable(b, step) && (step.PollServer? || step.DropServer? || step.ServerTask?)
    ensures LooseInv(Move(b, step))
  {
    match step
    case PollServer => StepServes(b.server, PollStep(b.server));
    case DropServer => StepServes(b.server, DropTimer);
    case ServerTask(taskStep) => StepServes(b.server, taskStep);
  }

  /** The listener's first answer is its last. */
  lemma PollClientLoose(b: Beat)
    requires LooseInv(b) && Conceivable(b, PollClient)
    ensures LooseInv(Move(b, PollClient))
  {
    var client := Timers.Apply(b.client, PollStep(b.client));
    StepInv(b.client, PollStep(b.client));
    if (client.yielded > b.client.yielded || client.ended) && Timers.Enabled(client, DropTimer) {
      StepInv(client, DropTimer);
    }
  }

  lemma MoveLoose(b: Beat, step: BeatStep)
    requires LooseInv(b) && Conceivable(b, step)
    ensures LooseInv(Move(b, step))
  {
    match step
    case Pass(ms) =>
      StepServes(b.server, Advance(ms));
      StepInv(b.client, Advance(ms));
    case Handle(event) => HandledLoose(b, event);
    case PollClient => PollClientLoose(b);
    case ClientTask(taskStep) => StepInv(b.client, taskStep);
    case _ => ServerLoose(b, step);
  }

  lemma {:induction false} CourseLoose(b: Beat, steps: seq<BeatStep>)
    requires LooseInv(b) && IsLooseCourse(b, steps)
    ensures LooseInv(AfterCourse(b, steps))
    decreases |steps|
  {
    if steps != [] {
      MoveLoose(b, steps[0]);
      CourseLoose(Move(b, steps[0]), steps[1..]);
    }
  }

  /**
   The `expect` on resetting the server's timer holds in every session, whatever the periods
   and the delays: the next message finds the command channel open. A missed heartbeat is
   reported at most once, and until then resets of the client's timer are taken too.
   */
  lemma ResetNeverFails(requested: HeartBeat, now: nat, steps: seq<BeatStep>)
    requires IsLooseCourse(Connection(requested, now), steps)
    ensures var b := AfterCourse(Connection(requested, now), steps);
      && !b.crashed && b.server.core.commands.open && !b.server.panicked
      && (forall event :: !Handled(b, event).crashed)
      && b.missed <= 1 && (b.missed == 0 ==> b.client.core.commands.open)
  {
    var b := AfterCourse(Connection(requested, now), steps);
    CourseLoose(Connection(requested, now), steps);
    ServesCommands(b.server);
    if b.missed == 0 {
      ServesCommands(b.client);
    }
  }
}
