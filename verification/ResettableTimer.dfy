/** The timer as an object: the stream that polls the chain of tasks, and what dropping it does. */
module ResettableTimers {
  import opened Types
  import opened Channels
  import opened UnboundedChannels
  import opened Resetters
  import opened Timers

  /** The tasks that a timer has spawned; they run, one after the other, between the timer's calls. */
  class TaskChain {
    var tasks: seq<Task>
    const commands: UnboundedChannel<TimerCommand>

    constructor (commands: UnboundedChannel<TimerCommand>)
      ensures tasks == [] && this.commands == commands
    {
      this.tasks := [];
      this.commands := commands;
    }

    method Spawn(task: Task) returns (handle: nat)
      modifies this
      ensures handle == |old(tasks)| && tasks == old(tasks) + [task]
    {
      handle := |tasks|;
      tasks := tasks + [task];
    }

    /** Polling a handle: None as long as the task runs. */
    method PollHandle(handle: nat) returns (result: Option<Task>)
      requires handle < |tasks|
      ensures result == if IsDone(tasks[handle]) then Some(tasks[handle]) else None
    {
      result := if IsDone(tasks[handle]) then Some(tasks[handle]) else None;
    }

    /** Aborting a task that runs drops what it owns; a finished task takes no notice. */
    method Abort(handle: nat)
      requires handle < |tasks|
      modifies this, commands
      ensures tasks == if IsDone(old(tasks)[handle]) then old(tasks) else old(tasks)[handle := Aborted]
      ensures commands.state == if OwnsReceiver(old(tasks)[handle]) then old(commands.state).Shut() else old(commands.state)
    {
      if !IsDone(tasks[handle]) {
        if OwnsReceiver(tasks[handle]) {
          commands.Close();
        }
        tasks := tasks[handle := Aborted];
      }
    }
  }

  class ResettableTimer {
    const period: nat
    const chain: TaskChain
    var receiver: Option<UnboundedChannel<TimerCommand>>
    var task: Option<nat>

    constructor (period: nat, receiver: UnboundedChannel<TimerCommand>, chain: TaskChain)
      requires chain.commands == receiver && chain.tasks == []
      ensures Valid() && View() == Core(period, true, None, [], receiver.state) && this.chain == chain
    {
      this.period := period;
      this.chain := chain;
      this.receiver := Some(receiver);
      this.task := None;
    }

    /** A timer and the resetter for it. */
    static method Create(period: nat) returns (timer: ResettableTimer, resetter: ResettableTimerResetter)
      ensures fresh(timer) && fresh(resetter) && fresh(timer.chain) && fresh(resetter.sender)
      ensures timer.Valid() && timer.View() == Timers.Create(period, 0).core
      ensures resetter.sender == timer.chain.commands
    {
      var channel := new UnboundedChannel<TimerCommand>();
      var chain := new TaskChain(channel);
      timer := new ResettableTimer(period, channel, chain);
      resetter := new ResettableTimerResetter(channel);
    }

    ghost predicate Valid()
      reads this, chain
    {
      && (receiver.Some? ==> receiver.value == chain.commands)
      && (task.Some? ==> task.value < |chain.tasks|)
      && (forall i :: 0 <= i < |chain.tasks| && chain.tasks[i].Fired? ==> chain.tasks[i].next < |chain.tasks|)
    }

    ghost function View(): Core
      reads this, chain, chain.commands
    {
      Core(period, receiver.Some?, task, chain.tasks, chain.commands.state)
    }

    method PollExistingTask() returns (poll: Poll)
      requires Valid() && task.Some?
      modifies this
      ensures Valid() && (View(), poll) == PollExisting(old(View()))
    {
      var state := chain.PollHandle(task.value);
      match state {
        case None => poll := Pending;
        case Some(Fired(newTask)) =>
          task := Some(newTask);
          poll := Ready(Some(()));
        case _ => poll := Ready(None);
      }
    }

    method Initialise() returns (panicked: bool, poll: Poll)
      requires Valid() && task.None?
      modifies this, chain
      ensures Valid() && (panicked <==> !old(View()).receiver)
      ensures panicked ==> View() == old(View())
      ensures !panicked ==> View() == Spawned(old(View())) && poll == FirstPolled(View())
    {
      panicked, poll := receiver.None?, Pending;
      if !panicked {
        receiver := None;
        var handle := chain.Spawn(Fresh(period));
        task := Some(handle);
        var state := chain.PollHandle(handle);
        poll := if state.Some? then Ready(None) else Pending;
      }
    }

    method PollNext() returns (panicked: bool, poll: Poll)
      requires Valid()
      modifies this, chain
      ensures Valid()
      ensures old(View()).task.Some? ==> !panicked && (View(), poll) == PollExisting(old(View()))
      ensures old(View()).task.None? ==>
                && (panicked <==> !old(View()).receiver)
                && (panicked ==> View() == old(View()))
                && (!panicked ==> View() == Spawned(old(View())) && poll == FirstPolled(View()))
    {
      if task.Some? {
        panicked := false;
        poll := PollExistingTask();
      } else {
        panicked, poll := Initialise();
      }
    }

    /** Dropping the timer; the field goes with it, and so does a receiver it still holds. */
    method Drop()
      requires Valid()
      modifies this, chain, chain.commands
      ensures Valid() && View() == Dropped(old(View()))
    {
      if task.Some? {
        chain.Abort(task.value);
        task := None;
      } else {
        if receiver.Some? {
          receiver.value.Close();
        }
        receiver := None;
      }
    }
  }
}
