/** What every run of a timer keeps, and that it refines the deadline. */
module TimerLaws {
  import opened Types
  import opened Channels
  import opened Resetters
  import opened Deadlines
  import opened Timers

  // ---------- the invariant ----------

  /** Every task but the last has fired and leads to its successor; the last has not. */
  ghost predicate Chained(tasks: seq<Task>) {
    && (forall i :: 0 <= i < |tasks| - 1 ==> tasks[i] == Fired(i + 1))
    && (tasks != [] ==> !tasks[|tasks| - 1].Fired?)
  }

  /** What the stream knows of the chain. */
  ghost predicate Followed(t: Timer) {
    && t.yielded <= t.fires
    && !t.panicked
    && t.fires == (if t.core.tasks == [] then 0 else |t.core.tasks| - 1)
    && (t.core.receiver <==> t.core.tasks == [] && !t.dropped)
    && (!t.dropped ==> t.core.task == if t.core.tasks == [] then None else Some(t.yielded))
    && (t.initialising ==> t.core.tasks != [] && t.yielded == 0 && !t.ended && !t.dropped)
    && (t.ended ==> t.yielded == 0 && 0 < t.fires)
  }

  /** The last task keeps the time, and listens. */
  ghost predicate TailKnown(t: Timer, tail: Task) {
    && (tail.Aborted? ==> t.dropped)
    && (OwnsReceiver(tail) ==> t.core.commands.open)
    && (tail.Aborted? && t.senderAlive ==> !t.core.commands.open)
    && (tail.Sleeping? || tail.Forever? ==> !t.senderAlive)
    && (tail.Listening? ==> 0 < tail.period && tail.deadline == t.restart + tail.period)
    && (tail.Sleeping? ==> 0 < tail.period && tail.deadline == t.restart + tail.period)
  }

  ghost predicate Attended(t: Timer) {
    && t.core.commands.Valid()
    && t.restart <= t.now
    && (t.core.tasks == [] ==> (t.core.commands.open <==> !t.dropped))
    && (t.core.tasks != [] ==> TailKnown(t, Tail(t)))
  }

  ghost predicate Inv(t: Timer) {
    Chained(t.core.tasks) && Followed(t) && Attended(t)
  }

  lemma ChainGrows(tasks: seq<Task>, next: Task)
    requires Chained(tasks) && tasks != [] && !next.Fired?
    ensures Chained(tasks[|tasks| - 1 := Fired(|tasks|)] + [next])
  {
  }

  /** A handle of a task that has not finished is the handle of the last task. */
  lemma HandleAtTail(t: Timer)
    requires Inv(t) && t.core.task.Some? && t.core.task.value < |t.core.tasks| && !t.dropped
    ensures t.core.task == Some(t.yielded)
    ensures IsDone(t.core.tasks[t.yielded]) <==> t.yielded < |t.core.tasks| - 1
    ensures t.yielded < |t.core.tasks| - 1 ==> t.core.tasks[t.yielded] == Fired(t.yielded + 1)
  {
  }

  lemma StreamStepInv(t: Timer, step: Step)
    requires Inv(t) && Enabled(t, step) && (step.PollNext? || step.FirstPoll? || step.DropTimer?)
    ensures Inv(Apply(t, step))
  {
    if t.core.task.Some? {
      HandleAtTail(t);
    }
  }

  lemma TaskStepInv(t: Timer, step: Step)
    requires Inv(t) && Enabled(t, step) && (step.Start? || step.Receive? || step.Disconnect?)
    ensures Inv(Apply(t, step))
  {
  }

  lemma FireInv(t: Timer)
    requires Inv(t) && Enabled(t, Step.Fire)
    ensures Inv(Fires(t))
  {
    ChainGrows(t.core.tasks, if Tail(t).Listening? then Fresh(Tail(t).period) else Sleeping(Tail(t).period, t.now + Tail(t).period));
  }

  lemma StepInv(t: Timer, step: Step)
    requires Inv(t) && Enabled(t, step)
    ensures Inv(Apply(t, step))
  {
    match step
    case PollNext => StreamStepInv(t, step);
    case FirstPoll => StreamStepInv(t, step);
    case DropTimer => StreamStepInv(t, step);
    case Start => TaskStepInv(t, step);
    case Receive => TaskStepInv(t, step);
    case Disconnect => TaskStepInv(t, step);
    case Fire => FireInv(t);
    case _ =>
  }

  lemma {:induction false} RunInv(t: Timer, steps: seq<Step>)
    requires Inv(t) && IsRun(t, steps)
    ensures Inv(After(t, steps))
    decreases |steps|
  {
    if steps != [] {
      StepInv(t, steps[0]);
      RunInv(Apply(t, steps[0]), steps[1..]);
    }
  }

  lemma ReachableInv(t: Timer)
    requires Reachable(t)
    ensures Inv(t)
  {
    var period: nat, now: nat, steps :| IsRun(Create(period, now), steps) && After(Create(period, now), steps) == t;
    RunInv(Create(period, now), steps);
  }

  // ---------- ticks ----------

  lemma {:induction false} UnpolledCounts(tasks: seq<Task>, i: nat)
    requires Chained(tasks) && i < |tasks|
    ensures Unpolled(tasks, i) == |tasks| - 1 - i
    decreases |tasks| - i
  {
    if i < |tasks| - 1 {
      UnpolledCounts(tasks, i + 1);
    }
  }

  /** No tick is lost or made up on the chain: what the stream has answered, and what waits on the chain, are the fires. */
  lemma TickConservation(t: Timer)
    requires Reachable(t)
    ensures t.yielded + Unpolled(t.core.tasks, t.yielded) == t.fires
  {
    ReachableInv(t);
    if t.core.tasks != [] {
      UnpolledCounts(t.core.tasks, t.yielded);
    }
  }

  function Polled(k: nat): seq<Step> {
    if k == 0 then [] else [PollNext] + Polled(k - 1)
  }

  /** However late it polls, a consumer gets every tick, one a poll, and is then told to wait. */
  lemma {:induction false} ConsumerCatchesUp(t: Timer, k: nat)
    requires Inv(t) && Polls(t) && !t.initialising && t.core.task.Some? && t.yielded + k == t.fires
    ensures IsRun(t, Polled(k))
    ensures var t' := After(t, Polled(k));
      && t' == t.(yielded := t.fires, core := t.core.(task := Some(t.fires)))
      && Enabled(t', PollNext) && Apply(t', PollNext) == t'
    decreases k
  {
    HandleAtTail(t);
    if k > 0 {
      var t1 := Apply(t, PollNext);
      StepInv(t, PollNext);
      assert t1 == t.(yielded := t.yielded + 1, core := t.core.(task := Some(t.yielded + 1)));
      ConsumerCatchesUp(t1, k - 1);
      assert Polled(k)[0] == PollNext && Polled(k)[1..] == Polled(k - 1);
    }
  }

  /**
   One tick can go astray: the poll that spawns the first task polls it too and takes any
   result for the end. The stream ends exactly when the task has fired before that poll.
   */
  lemma StreamEndsExactly(t: Timer)
    requires Reachable(t) && Enabled(t, FirstPoll)
    ensures Apply(t, FirstPoll).ended <==> t.fires > 0
  {
    ReachableInv(t);
  }

  lemma Cons(t: Timer, step: Step, rest: seq<Step>)
    requires Enabled(t, step) && IsRun(Apply(t, step), rest)
    ensures IsRun(t, [step] + rest) && After(t, [step] + rest) == After(Apply(t, step), rest)
  {
    assert ([step] + rest)[1..] == rest;
  }

  /** It can come to that, with any period: a task that gets to run before the poll does, and for long enough, ends the stream. */
  lemma EarlyTickEndsTheStream(period: nat)
    requires period > 0
    ensures var t, steps := Create(period, 0), [PollNext, Start, Advance(period), Step.Fire];
      && IsRun(t, steps) && Enabled(After(t, steps), FirstPoll)
      && After(t, steps).fires == 1 && Apply(After(t, steps), FirstPoll).ended
  {
    var t0 := Create(period, 0);
    var t1 := Apply(t0, PollNext);
    var t2 := Apply(t1, Start);
    var t3 := Apply(t2, Advance(period));
    assert t2.core.tasks == [Listening(period, period)];
    var t4 := Apply(t3, Step.Fire);
    assert t4.core.tasks == [Fired(1), Fresh(period)];
    Cons(t3, Step.Fire, []);
    Cons(t2, Advance(period), [Step.Fire]);
    Cons(t1, Start, [Advance(period), Step.Fire]);
    Cons(t0, PollNext, [Start, Advance(period), Step.Fire]);
    assert [Step.Fire] + [] == [Step.Fire];
    assert [Advance(period)] + [Step.Fire] == [Advance(period), Step.Fire];
    assert [Start] + [Advance(period), Step.Fire] == [Start, Advance(period), Step.Fire];
    assert [PollNext] + [Start, Advance(period), Step.Fire] == [PollNext, Start, Advance(period), Step.Fire];
  }

  /** Nothing else ends it: no poll after the first answers None. */
  lemma OnlyFirstPollEnds(t: Timer, step: Step)
    requires Reachable(t) && Enabled(t, step) && !t.ended && Apply(t, step).ended
    ensures step == FirstPoll
  {
    ReachableInv(t);
    if t.core.task.Some? && Polls(t) {
      HandleAtTail(t);
    }
  }

  /** The `expect` of `initialise` holds. */
  lemma NeverPanics(t: Timer)
    requires Reachable(t)
    ensures !t.panicked
  {
    ReachableInv(t);
  }

  // ---------- the receiver ----------

  lemma {:induction false} OwnersOfChain(tasks: seq<Task>)
    requires forall i :: 0 <= i < |tasks| ==> tasks[i].Fired?
    ensures Owners(tasks) == 0
  {
    if tasks != [] {
      OwnersOfChain(tasks[..|tasks| - 1]);
    }
  }

  /**
   While the resetter lives, the receiver has one owner, the field or the last task of the
   chain, or none: none exactly when the timer has been dropped before it spawned anything,
   or when the task aborted was the last. Commands are taken exactly while it has one.
   */
  lemma ReceiverOwnership(t: Timer)
    requires Reachable(t) && t.senderAlive
    ensures Owners(t.core.tasks) + (if t.core.receiver then 1 else 0) == if t.core.commands.open then 1 else 0
    ensures t.core.commands.open <==> !(t.dropped && (t.core.tasks == [] || Tail(t).Aborted?))
    ensures t.core.tasks != [] ==> (t.core.commands.open <==> OwnsReceiver(Tail(t)))
  {
    ReachableInv(t);
    var n := |t.core.tasks|;
    if n > 0 {
      OwnersOfChain(t.core.tasks[..n - 1]);
    }
  }

  /** As long as the stream is held, a command sent is taken, whatever the period, zero included. */
  lemma CommandsAreTaken(t: Timer, command: TimerCommand)
    requires Reachable(t) && !t.dropped && Enabled(t, Command(command))
    ensures Apply(t, Command(command)).core.commands.sent == t.core.commands.sent + [command]
  {
    ReceiverOwnership(t);
  }

  /** The timer serves commands: it is held, or was dropped too late to stop the last task. */
  ghost predicate Serves(t: Timer) {
    Inv(t) && (t.dropped ==> t.core.tasks != [] && !Tail(t).Aborted?)
  }

  /** Dropping an ended stream aborts a task that has fired already, and leaves the rest of the chain running. */
  lemma StepServes(t: Timer, step: Step)
    requires Serves(t) && Enabled(t, step) && (step.DropTimer? ==> t.ended)
    ensures Serves(Apply(t, step))
  {
    StepInv(t, step);
    if step.DropTimer? {
      HandleAtTail(t);
    }
  }

  lemma ServesCommands(t: Timer)
    requires Serves(t) && t.senderAlive
    ensures t.core.commands.open
  {
  }

  /** The stream is dropped, if at all, only when it has ended. */
  ghost predicate HeldUntilEnded(t: Timer, steps: seq<Step>)
    requires IsRun(t, steps)
    decreases |steps|
  {
    steps == [] || ((steps[0].DropTimer? ==> t.ended) && HeldUntilEnded(Apply(t, steps[0]), steps[1..]))
  }

  lemma {:induction false} HeldServes(t: Timer, steps: seq<Step>)
    requires Serves(t) && IsRun(t, steps) && HeldUntilEnded(t, steps)
    ensures Serves(After(t, steps))
    decreases |steps|
  {
    if steps != [] {
      StepServes(t, steps[0]);
      HeldServes(Apply(t, steps[0]), steps[1..]);
    }
  }

  /** A stream that ends and is then dropped, as `select_all` does, takes commands all the same. */
  lemma CommandsOutliveTheStream(period: nat, now: nat, steps: seq<Step>)
    requires IsRun(Create(period, now), steps) && HeldUntilEnded(Create(period, now), steps)
    requires After(Create(period, now), steps).senderAlive
    ensures After(Create(period, now), steps).core.commands.open
  {
    HeldServes(Create(period, now), steps);
    ServesCommands(After(Create(period, now), steps));
  }

  // ---------- the deadline ----------

  function Frozen(task: Task): bool {
    task.Sleeping? || task.Forever? || task.Aborted?
  }

  function Abstract(t: Timer): Deadline {
    if t.core.tasks == [] then Deadline(t.now, t.core.period, t.restart, false, t.fires)
    else Deadline(t.now, PeriodOf(Tail(t)), t.restart, Frozen(Tail(t)), t.fires)
  }

  /** The move of the deadline that a step of the timer amounts to. */
  function MoveOf(t: Timer, step: Step): Move
    requires Enabled(t, step)
  {
    match step
    case Advance(ms) => Pass(ms)
    case Start => Restart
    case Receive =>
      (match t.core.commands.Queue()[0]
       case Reset => Restart
       case ChangePeriod(period) => Change(period))
    case Disconnect => Freeze
    case Fire => Move.Fire
    case DropTimer => if t.core.task.Some? && !IsDone(t.core.tasks[t.core.task.value]) then Stop else Stay
    case _ => Stay
  }

  lemma FireRefines(t: Timer)
    requires Inv(t) && Enabled(t, Step.Fire)
    ensures Allowed(Abstract(t), Move.Fire) && Abstract(Fires(t)) == Moved(Abstract(t), Move.Fire)
  {
  }

  lemma TaskStepRefines(t: Timer, step: Step)
    requires Inv(t) && Enabled(t, step) && (step.Start? || step.Receive? || step.Disconnect?)
    ensures Allowed(Abstract(t), MoveOf(t, step)) && Abstract(Apply(t, step)) == Moved(Abstract(t), MoveOf(t, step))
  {
  }

  lemma StreamStepRefines(t: Timer, step: Step)
    requires Inv(t) && Enabled(t, step) && (step.PollNext? || step.FirstPoll? || step.DropTimer?)
    ensures Allowed(Abstract(t), MoveOf(t, step)) && Abstract(Apply(t, step)) == Moved(Abstract(t), MoveOf(t, step))
  {
    if t.core.task.Some? && !t.dropped {
      HandleAtTail(t);
    }
  }

  /**
   Every step of a timer is a move of the deadline. In particular a fire comes only when
   the period in force is positive and has passed in full since the last restart, and the
   restarts are the start, a command, a fire and the disappearance of the resetter.
   */
  lemma StepRefines(t: Timer, step: Step)
    requires Inv(t) && Enabled(t, step)
    ensures Allowed(Abstract(t), MoveOf(t, step)) && Abstract(Apply(t, step)) == Moved(Abstract(t), MoveOf(t, step))
  {
    match step
    case PollNext => StreamStepRefines(t, step);
    case FirstPoll => StreamStepRefines(t, step);
    case DropTimer => StreamStepRefines(t, step);
    case Start => TaskStepRefines(t, step);
    case Receive => TaskStepRefines(t, step);
    case Disconnect => TaskStepRefines(t, step);
    case Fire => FireRefines(t);
    case _ =>
  }

  function MovesOf(t: Timer, steps: seq<Step>): seq<Move>
    requires IsRun(t, steps)
    decreases |steps|
  {
    if steps == [] then [] else [MoveOf(t, steps[0])] + MovesOf(Apply(t, steps[0]), steps[1..])
  }

  /** Every run of a timer, however it interleaves, is a run of the deadline with the same fires. */
  lemma {:induction false} RunRefines(t: Timer, steps: seq<Step>)
    requires Inv(t) && IsRun(t, steps)
    ensures AreMoves(Abstract(t), MovesOf(t, steps))
    ensures AfterMoves(Abstract(t), MovesOf(t, steps)) == Abstract(After(t, steps))
    decreases |steps|
  {
    if steps != [] {
      StepRefines(t, steps[0]);
      StepInv(t, steps[0]);
      RunRefines(Apply(t, steps[0]), steps[1..]);
      assert MovesOf(t, steps)[1..] == MovesOf(Apply(t, steps[0]), steps[1..]);
    }
  }

  /** And the timer can do what the deadline can: once its last task runs, it can fire exactly when the deadline may. */
  lemma FiresWhenDue(t: Timer)
    requires Reachable(t) && t.core.tasks != [] && !Tail(t).Fresh?
    ensures Enabled(t, Step.Fire) <==> Allowed(Abstract(t), Move.Fire)
  {
    ReachableInv(t);
  }

  // ---------- the next emission ----------

  /** The tasks are left alone: time passes, the stream is polled, commands are sent but none is taken. */
  predicate LeavesTasks(step: Step) {
    step.Advance? || step.PollNext? || step.FirstPoll? || step.Command? || step.DropResetter?
  }

  lemma TasksLeft(t: Timer, step: Step)
    requires Inv(t) && t.core.tasks != [] && Enabled(t, step) && LeavesTasks(step)
    ensures Apply(t, step).core.tasks == t.core.tasks
    ensures Apply(t, step).now == t.now + if step.Advance? then step.ms else 0
  {
  }

  lemma {:induction false} RunLeavesTasks(t: Timer, steps: seq<Step>)
    requires Inv(t) && t.core.tasks != [] && IsRun(t, steps) && forall step <- steps :: LeavesTasks(step)
    ensures After(t, steps).core.tasks == t.core.tasks
    decreases |steps|
  {
    if steps != [] {
      assert steps[0] in steps && forall step <- steps[1..] :: step in steps;
      TasksLeft(t, steps[0]);
      StepInv(t, steps[0]);
      RunLeavesTasks(Apply(t, steps[0]), steps[1..]);
    }
  }

  /**
   The next emission is at now + period, or at now + new period: after a command is taken,
   and as long as no task does anything else, the timer can fire exactly from that moment
   on, and never if the period is zero.
   */
  lemma NextEmission(t: Timer, steps: seq<Step>)
    requires Reachable(t) && Enabled(t, Receive) && IsRun(Apply(t, Receive), steps) && forall step <- steps :: LeavesTasks(step)
    ensures var command := t.core.commands.Queue()[0];
      var period := if command.ChangePeriod? then command.period else PeriodOf(Tail(t));
      Enabled(After(Apply(t, Receive), steps), Step.Fire) <==> period > 0 && After(Apply(t, Receive), steps).now >= t.now + period
  {
    ReachableInv(t);
    StepInv(t, Receive);
    RunLeavesTasks(Apply(t, Receive), steps);
  }

  // ---------- rates ----------

  /** No change of period is on its way, and none is sent. */
  ghost predicate PeriodIsLeft(t: Timer, steps: seq<Step>) {
    && t.core.commands.Valid()
    && (forall command <- t.core.commands.Queue() :: command.Reset?)
    && (forall step <- steps :: step.Command? ==> step.command.Reset?)
  }

  lemma NoChangeTaken(t: Timer, step: Step)
    requires Enabled(t, step) && t.core.commands.Valid() && forall command <- t.core.commands.Queue() :: command.Reset?
    ensures !MoveOf(t, step).Change?
  {
    if step.Receive? {
      assert t.core.commands.Queue()[0] in t.core.commands.Queue();
    }
  }

  lemma QueueNext(t: Timer, step: Step)
    requires Enabled(t, step) && t.core.commands.Valid()
    ensures var queue, queue' := t.core.commands.Queue(), Apply(t, step).core.commands;
      && queue'.Valid()
      && (queue'.Queue() == queue
          || (queue != [] && queue'.Queue() == queue[1..])
          || (step.Command? && queue'.Queue() == queue + [step.command]))
  {
    match step
    case Receive =>
    case Command(_) =>
    case Fire => assert Apply(t, step).core.commands == t.core.commands;
    case _ =>
  }

  lemma PeriodLeftNext(t: Timer, steps: seq<Step>)
    requires steps != [] && Enabled(t, steps[0]) && PeriodIsLeft(t, steps)
    ensures !MoveOf(t, steps[0]).Change? && PeriodIsLeft(Apply(t, steps[0]), steps[1..])
  {
    NoChangeTaken(t, steps[0]);
    QueueNext(t, steps[0]);
    assert steps[0] in steps;
  }

  lemma {:induction false} MovesKeepPeriod(t: Timer, steps: seq<Step>)
    requires Inv(t) && IsRun(t, steps) && PeriodIsLeft(t, steps)
    ensures KeepsPeriod(MovesOf(t, steps))
    decreases |steps|
  {
    if steps != [] {
      PeriodLeftNext(t, steps);
      StepInv(t, steps[0]);
      MovesKeepPeriod(Apply(t, steps[0]), steps[1..]);
    }
  }

  /**
   While its period p is left alone, a timer fires at most once every p milliseconds: the
   fires of a run, times p, fit in the time since the last restart before the run.
   */
  lemma FiresAreApart(t: Timer, steps: seq<Step>)
    requires Reachable(t) && IsRun(t, steps) && PeriodIsLeft(t, steps)
    ensures var t' := After(t, steps);
      t.fires <= t'.fires && (t'.fires - t.fires) * Abstract(t).period <= t'.now - t.restart
  {
    ReachableInv(t);
    RunRefines(t, steps);
    MovesKeepPeriod(t, steps);
    RateBound(Abstract(t), MovesOf(t, steps));
  }

  /** A timer whose period is zero does not fire while it is left alone. */
  lemma ZeroPeriodNeverFires(t: Timer, steps: seq<Step>)
    requires Reachable(t) && Abstract(t).period == 0 && IsRun(t, steps) && PeriodIsLeft(t, steps)
    ensures After(t, steps).fires == t.fires
  {
    ReachableInv(t);
    RunRefines(t, steps);
    MovesKeepPeriod(t, steps);
    NeverFires(Abstract(t), MovesOf(t, steps));
  }

  /** Once the last task has found the resetter gone, nothing changes the period but the timer's own end. */
  lemma PeriodIsFrozen(t: Timer, steps: seq<Step>)
    requires Reachable(t) && Abstract(t).frozen && IsRun(t, steps)
    ensures var d, d' := Abstract(t), Abstract(After(t, steps));
      && d'.frozen
      && (d'.period == d.period || (d'.period == 0 && Stop in MovesOf(t, steps)))
      && (Stop !in MovesOf(t, steps) && d'.fires == d.fires ==> d'.restart == d.restart)
  {
    ReachableInv(t);
    RunRefines(t, steps);
    FrozenKeepsPeriod(Abstract(t), MovesOf(t, steps));
    if Stop in MovesOf(t, steps) {
      StoppedIsZero(Abstract(t), MovesOf(t, steps));
    }
  }

  lemma {:induction false} StoppedIsZero(d: Deadline, moves: seq<Move>)
    requires AreMoves(d, moves) && d.frozen && Stop in moves
    ensures AfterMoves(d, moves).period == 0
    decreases |moves|
  {
    var d1 := Moved(d, moves[0]);
    if moves[0] == Stop {
      ZeroStays(d1, moves[1..]);
    } else {
      StoppedIsZero(d1, moves[1..]);
    }
  }

  lemma {:induction false} ZeroStays(d: Deadline, moves: seq<Move>)
    requires AreMoves(d, moves) && d.frozen && d.period == 0
    ensures AfterMoves(d, moves).period == 0
    decreases |moves|
  {
    if moves != [] {
      ZeroStays(Moved(d, moves[0]), moves[1..]);
    }
  }
}
