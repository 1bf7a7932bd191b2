/**
 A live session with its two timers. What clients and destinations send may be handled at
 any moment, in any order with what the timers do at that moment. In urgent time, time
 passes only when no timer has anything to do, and never past a deadline; in loose time it
 passes when it likes, and tasks may run late.
 */
module Heartbeats {
  import opened Types
  import opened Channels
  import opened Resetters
  import opened Timers
  import opened Reactions
  import opened Responses

  datatype Stamped = Stamped(at: nat, output: Output)

  datatype Beat = Beat(
    since: nat,              // when the session connected
    now: nat,
    server: Timer,           // its ticks make the session write an end-of-line
    client: Timer,           // its first tick reports a missed heartbeat
    active: ActiveTable,
    alive: bool,
    crashed: bool,
    log: seq<Stamped>,       // history: what the session has written, and when
    heard: seq<nat>,         // history: when it connected, and when it has handled something from the client
    missed: nat)             // history: the "Missed heartbeat" errors put on its channel

  function Connection(requested: HeartBeat, now: nat): Beat {
    Beat(now, now, Create(ServerPeriod(requested), now), Create(ClientPeriod(requested), now), map[], true, false,
         [Stamped(now, Frame(ServerFrame.Connected(V1_2, Swapped(requested))))], [now], 0)
  }

  datatype BeatStep =
    | Pass(ms: nat)
    | Handle(event: ClientEvent)      // anything but the timer's own Heartbeat
    | PollServer                      // the session polls its heartbeat stream
    | DropServer                      // and drops it once it has ended
    | ServerTask(step: Timers.Step)
    | PollClient                      // the heartbeat listener polls its timer
    | ClientTask(step: Timers.Step)

  /** The steps that the tasks of a timer take by themselves. */
  predicate IsTaskStep(step: Timers.Step) {
    step.Start? || step.Receive? || step.Disconnect? || step.Fire?
  }

  /** The next poll of the stream. */
  function PollStep(t: Timer): Timers.Step {
    if t.initialising then FirstPoll else PollNext
  }

  /** Would a poll find anything? */
  predicate HasNews(t: Timer) {
    && Timers.Enabled(t, PollStep(t))
    && (t.initialising || t.core.task.None? || IsDone(t.core.tasks[t.core.task.value]))
  }

  predicate Busy(t: Timer) {
    || HasNews(t)
    || Timers.Enabled(t, Start) || Timers.Enabled(t, Receive) || Timers.Enabled(t, Step.Disconnect) || Timers.Enabled(t, Step.Fire)
  }

  predicate CanPass(t: Timer, ms: nat) {
    && !Busy(t)
    && (t.core.tasks != [] && (Tail(t).Listening? || Tail(t).Sleeping?) ==> t.now + ms <= Tail(t).deadline)
  }

  /** In loose time. */
  predicate Conceivable(b: Beat, step: BeatStep) {
    && b.alive
    && match step
       case Pass(_) => true
       case Handle(event) => !event.Heartbeat? && !event.Connected?
       case PollServer => Timers.Enabled(b.server, PollStep(b.server))
       case DropServer => b.server.ended && Timers.Enabled(b.server, DropTimer)
       case ServerTask(step) => IsTaskStep(step) && Timers.Enabled(b.server, step)
       case PollClient => Timers.Enabled(b.client, PollStep(b.client))
       case ClientTask(step) => IsTaskStep(step) && Timers.Enabled(b.client, step)
  }

  /** In urgent time. */
  predicate Possible(b: Beat, step: BeatStep) {
    Conceivable(b, step) && (step.Pass? ==> CanPass(b.server, step.ms) && CanPass(b.client, step.ms))
  }

  function Written(b: Beat, output: Option<Output>): seq<Stamped> {
    b.log + match output case Some(written) => [Stamped(b.now, written)] case None => []
  }

  function SendReset(t: Timer): Timer {
    if Timers.Enabled(t, Command(Reset)) then Timers.Apply(t, Command(Reset)) else t
  }

  /** A sign of life from the client. */
  predicate FromTheClient(event: ClientEvent) {
    event.ClientFrame? || event.ClientHeartbeat?
  }

  function Handled(b: Beat, event: ClientEvent): Beat {
    var reaction := React(b.active, event);
    if reaction.resetsServerTimer && !b.server.core.commands.open then
      b.(alive := false, crashed := true)
    else
      b.(active := reaction.active,
         alive := reaction.state.Alive?,
         server := if reaction.resetsServerTimer then SendReset(b.server) else b.server,
         client := if reaction.resetsClientTimer then SendReset(b.client) else b.client,
         log := Written(b, reaction.output),
         heard := if FromTheClient(event) then b.heard + [b.now] else b.heard)
  }

  function Move(b: Beat, step: BeatStep): Beat
    requires Conceivable(b, step)
  {
    match step
    case Pass(ms) =>
      b.(now := b.now + ms, server := Timers.Apply(b.server, Advance(ms)), client := Timers.Apply(b.client, Advance(ms)))
    case Handle(event) => Handled(b, event)
    case PollServer =>
      var server := Timers.Apply(b.server, PollStep(b.server));
      if server.yielded > b.server.yielded
      then b.(server := server, log := Written(b, React(b.active, ClientEvent.Heartbeat).output))
      else b.(server := server)
    case DropServer => b.(server := Timers.Apply(b.server, DropTimer))
    case ServerTask(step) => b.(server := Timers.Apply(b.server, step))
    case PollClient =>
      // `next` is done with the timer's first answer, be it a tick or the end, and drops the timer
      var client := Timers.Apply(b.client, PollStep(b.client));
      if (client.yielded > b.client.yielded || client.ended) && Timers.Enabled(client, DropTimer)
      then b.(client := Timers.Apply(client, DropTimer), missed := b.missed + 1)
      else b.(client := client)
    case ClientTask(step) => b.(client := Timers.Apply(b.client, step))
  }

  /** A course in loose time. */
  ghost predicate IsLooseCourse(b: Beat, steps: seq<BeatStep>)
    decreases |steps|
  {
    steps == [] || (Conceivable(b, steps[0]) && IsLooseCourse(Move(b, steps[0]), steps[1..]))
  }

  ghost predicate IsUrgent(b: Beat, steps: seq<BeatStep>)
    requires IsLooseCourse(b, steps)
    decreases |steps|
  {
    steps == [] || (Possible(b, steps[0]) && IsUrgent(Move(b, steps[0]), steps[1..]))
  }

  /** A course in urgent time. */
  ghost predicate IsCourse(b: Beat, steps: seq<BeatStep>) {
    IsLooseCourse(b, steps) && IsUrgent(b, steps)
  }

  ghost function AfterCourse(b: Beat, steps: seq<BeatStep>): Beat
    requires IsLooseCourse(b, steps)
    decreases |steps|
  {
    if steps == [] then b else AfterCourse(Move(b, steps[0]), steps[1..])
  }

  lemma Cons(b: Beat, step: BeatStep, rest: seq<BeatStep>)
    requires Possible(b, step) && IsCourse(Move(b, step), rest)
    ensures IsCourse(b, [step] + rest) && AfterCourse(b, [step] + rest) == AfterCourse(Move(b, step), rest)
  {
    assert ([step] + rest)[1..] == rest;
  }

  // ---------- what is claimed ----------

  predicate IsMessage(output: Output) {
    output.Frame? && output.frame.Message?
  }

  /** A sign of life for the client. */
  predicate IsSign(output: Output) {
    output.Eol? || IsMessage(output)
  }

  ghost predicate SignIn(log: seq<Stamped>, after: nat, within: nat) {
    exists i :: 0 <= i < |log| && IsSign(log[i].output) && after < log[i].at <= after + within
  }

  /** Every window of `period` milliseconds that is over holds a sign of life. */
  ghost predicate SignsCover(log: seq<Stamped>, since: nat, now: nat, period: nat) {
    forall t: nat :: since <= t && t + period < now ==> SignIn(log, t, period)
  }

  /**
   An end-of-line is due: the last sign of life before its moment is `period` old or older.
   Before it and at its very moment there can be messages, and nothing else.
   */
  ghost predicate EolsAreDue(log: seq<Stamped>, period: nat) {
    forall i, j :: 0 <= i < j < |log| && IsSign(log[i].output) && log[j].output.Eol? ==>
      log[i].at + period <= log[j].at || (log[i].at == log[j].at && IsMessage(log[i].output))
  }

  /** Nothing from the client for `grace` milliseconds. */
  ghost predicate Silence(heard: seq<nat>, now: nat, grace: nat) {
    exists t :: t in heard && t + grace <= now && forall u <- heard :: u <= t || t + grace <= u
  }

  /** Nothing from the client for more than `grace` milliseconds. */
  ghost predicate LongSilence(heard: seq<nat>, now: nat, grace: nat) {
    exists t :: t in heard && t + grace < now && forall u <- heard :: u <= t || t + grace < u
  }
}
