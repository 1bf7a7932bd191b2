/**
 The resettable timer: a chain of spawned tasks, each of which, when it fires, spawns the
 next and leaves the next one's handle as its result. The stream that yields the ticks
 follows the chain at its own pace.
 */
module Timers {
  import opened Types
  import opened Channels
  import opened Resetters

  /** How far a task has come; a handle is the index of its task. */
  datatype Task =
    | Fresh(period: nat)                     // spawned with the receiver, not run yet
    | Listening(period: nat, deadline: nat)  // waits for the deadline or a command
    | Parked                                 // its period is zero: waits for a command only
    | Sleeping(period: nat, deadline: nat)   // the resetter is gone: waits for the deadline only
    | Forever                                // the resetter is gone and the period is zero
    | Fired(next: nat)
    | Aborted

  predicate OwnsReceiver(task: Task) {
    task.Fresh? || task.Listening? || task.Parked?
  }

  predicate IsDone(task: Task) {
    task.Fired? || task.Aborted?
  }

  /** The fields of the timer, the tasks it spawned and the channel of its commands. */
  datatype Core = Core(
    period: nat,
    receiver: bool,  // the field still holds the receiver
    task: Option<nat>,
    tasks: seq<Task>,
    commands: Chan<TimerCommand>)

  datatype Poll = Pending | Ready(item: Option<()>)

  // ---------- the tasks ----------

  /** `create_task_with_receiver`, from its first poll or when a command makes it begin again. */
  function Listen(period: nat, now: nat): Task {
    if period == 0 then Parked else Listening(period, now + period)
  }

  function NewPeriod(period: nat, command: TimerCommand): nat {
    match command
    case Reset => period
    case ChangePeriod(newPeriod) => newPeriod
  }

  /** The period in force. */
  function PeriodOf(task: Task): nat {
    match task
    case Fresh(period) => period
    case Listening(period, _) => period
    case Sleeping(period, _) => period
    case _ => 0
  }

  // ---------- the stream ----------

  function Spawned(core: Core): Core {
    core.(receiver := false, task := Some(|core.tasks|), tasks := core.tasks + [Fresh(core.period)])
  }

  /** `poll_existing_task`. */
  function PollExisting(core: Core): (Core, Poll)
    requires core.task.Some? && core.task.value < |core.tasks|
  {
    match core.tasks[core.task.value]
    case Fired(next) => (core.(task := Some(next)), Ready(Some(())))
    case Aborted => (core, Ready(None))
    case _ => (core, Pending)
  }

  /** The poll that ends `initialise`: whatever the task's result, the answer is None. */
  function FirstPolled(core: Core): Poll
    requires core.task.Some? && core.task.value < |core.tasks|
  {
    if IsDone(core.tasks[core.task.value]) then Ready(None) else Pending
  }

  /** `Drop`: aborts the task of the handle at hand, which need not be the last of the chain. */
  function Dropped(core: Core): Core
    requires core.task.Some? ==> core.task.value < |core.tasks|
  {
    match core.task
    case None => core.(receiver := false, commands := if core.receiver then core.commands.Shut() else core.commands)
    case Some(h) =>
      if IsDone(core.tasks[h]) then core.(task := None)
      else core.(task := None, tasks := core.tasks[h := Aborted],
                 commands := if OwnsReceiver(core.tasks[h]) then core.commands.Shut() else core.commands)
  }

  // ---------- the timer among its surroundings ----------

  datatype Timer = Timer(
    core: Core,
    now: nat,
    senderAlive: bool,
    initialising: bool,  // between the spawn and the first poll of `initialise`
    ended: bool,         // the stream has answered None
    dropped: bool,
    panicked: bool,
    fires: nat,          // history
    yielded: nat,        // history: the items the stream has answered
    restart: nat)        // history: when the period last began

  function Create(period: nat, now: nat): Timer {
    Timer(Core(period, true, None, [], Empty()), now, true, false, false, false, false, 0, 0, now)
  }

  datatype Step =
    | Advance(ms: nat)
    | PollNext             // up to the spawn, if nothing has been spawned yet
    | FirstPoll            // the rest of the first `poll_next`
    | Command(command: TimerCommand)
    | DropResetter
    | DropTimer
    | Start                // the last task of the chain runs for the first time
    | Receive              // it takes a command
    | Disconnect           // it finds the resetter gone
    | Fire                 // its sleep ends

  function Tail(t: Timer): Task
    requires t.core.tasks != []
  {
    t.core.tasks[|t.core.tasks| - 1]
  }

  function WithTail(core: Core, task: Task): Core
    requires core.tasks != []
  {
    core.(tasks := core.tasks[|core.tasks| - 1 := task])
  }

  predicate Polls(t: Timer) {
    !t.dropped && !t.ended && !t.panicked && (t.core.task.Some? ==> t.core.task.value < |t.core.tasks|)
  }

  predicate Waiting(t: Timer) {
    t.core.tasks != [] && (Tail(t).Listening? || Tail(t).Parked?) && t.core.commands.Valid()
  }

  predicate Enabled(t: Timer, step: Step) {
    match step
    case Advance(_) => true
    case PollNext => Polls(t) && !t.initialising
    case FirstPoll => Polls(t) && t.initialising && t.core.task.Some?
    case Command(_) => t.senderAlive
    case DropResetter => t.senderAlive
    case DropTimer => !t.dropped && !t.initialising && (t.core.task.Some? ==> t.core.task.value < |t.core.tasks|)
    case Start => t.core.tasks != [] && Tail(t).Fresh?
    case Receive => Waiting(t) && t.core.commands.Queue() != []
    case Disconnect => Waiting(t) && t.core.commands.Queue() == [] && !t.senderAlive
    case Fire => t.core.tasks != [] && (Tail(t).Listening? || Tail(t).Sleeping?) && Tail(t).deadline <= t.now
  }

  function Poll1(t: Timer): Timer
    requires Enabled(t, PollNext)
  {
    if t.core.task.None? then
      if t.core.receiver then t.(core := Spawned(t.core), initialising := true) else t.(panicked := true)
    else
      var (core, poll) := PollExisting(t.core);
      match poll
      case Pending => t
      case Ready(Some(_)) => t.(core := core, yielded := t.yielded + 1)
      case Ready(None) => t.(ended := true)
  }

  function Fires(t: Timer): Timer
    requires Enabled(t, Fire)
  {
    var next := if Tail(t).Listening? then Fresh(Tail(t).period) else Sleeping(Tail(t).period, t.now + Tail(t).period);
    var fired := WithTail(t.core, Fired(|t.core.tasks|));
    t.(core := fired.(tasks := fired.tasks + [next]), fires := t.fires + 1, restart := t.now)
  }

  function Apply(t: Timer, step: Step): Timer
    requires Enabled(t, step)
  {
    match step
    case Advance(ms) => t.(now := t.now + ms)
    case PollNext => Poll1(t)
    case FirstPoll => t.(initialising := false, ended := FirstPolled(t.core).Ready?)
    case Command(command) => t.(core := t.core.(commands := t.core.commands.Push(command)))
    case DropResetter => t.(senderAlive := false)
    case DropTimer => t.(dropped := true, core := Dropped(t.core))
    case Start => t.(core := WithTail(t.core, Listen(Tail(t).period, t.now)), restart := t.now)
    case Receive =>
      var period := NewPeriod(PeriodOf(Tail(t)), t.core.commands.Queue()[0]);
      t.(core := WithTail(t.core, Listen(period, t.now)).(commands := t.core.commands.Pop()), restart := t.now)
    case Disconnect =>
      t.(core := WithTail(t.core, if Tail(t).Parked? then Forever else Sleeping(Tail(t).period, t.now + Tail(t).period)),
         restart := t.now)
    case Fire => Fires(t)
  }

  ghost predicate IsRun(t: Timer, steps: seq<Step>)
    decreases |steps|
  {
    steps == [] || (Enabled(t, steps[0]) && IsRun(Apply(t, steps[0]), steps[1..]))
  }

  ghost function After(t: Timer, steps: seq<Step>): Timer
    requires IsRun(t, steps)
    decreases |steps|
  {
    if steps == [] then t else After(Apply(t, steps[0]), steps[1..])
  }

  ghost predicate Reachable(t: Timer) {
    exists period: nat, now: nat, steps ::
      IsRun(Create(period, now), steps) && After(Create(period, now), steps) == t
  }

  // ---------- the chain ----------

  /** Finished tasks that the stream has not come to, from task `i` on. */
  function Unpolled(tasks: seq<Task>, i: nat): nat
    decreases if i < |tasks| then |tasks| - i else 0
  {
    if i < |tasks| && tasks[i].Fired? && i < tasks[i].next then 1 + Unpolled(tasks, tasks[i].next) else 0
  }

  /** How many own the command receiver. */
  function Owners(tasks: seq<Task>): nat {
    if tasks == [] then 0
    else Owners(tasks[..|tasks| - 1]) + if OwnsReceiver(tasks[|tasks| - 1]) then 1 else 0
  }
}
