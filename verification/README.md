# little-stomper: a verified model

little-stomper is a STOMP 1.2 server library made of actors joined by unbounded FIFO
channels. This project models its asynchronous core and proves what the actors keep
together, though none of them checks it alone.

Three cores are modelled.

**Sessions and destinations** (`client.rs`, `inmemory.rs`, `destinations.rs`). A session
keeps a table of its active subscriptions and changes it only when callbacks arrive on its
own channel. A destination's backend keeps a table of its own and drains its own queue.
`Protocol.dfy` is the transition system of any number of sessions, destinations and spawned
subscribe tasks, with every interleaving of their steps; a fan-out is one step per
subscription, so that everything else can happen between two deliveries. A failed `expect`
is a step that marks the task it stops as crashed. The bodies of the session, the backend,
the handle and the registry are classes (`Session.dfy`, `InMemory.dfy`, `ClientProxy.dfy`,
`Destinations.dfy`). Steps and classes share their specifications: `React` (`Reaction.dfy`) for
a session, `ServeOne` and `Tells` (`Listening.dfy`) for a backend, and the functions of
`Calls.dfy` for the queues. `Handling.HandleActs` and `Broadcast.StepsServe` prove that the
steps of the transition system do what the classes are proved to do. What those
specifications themselves must be is said apart from them: `Effects.dfy` states for every
event, field by field, what is written, kept, queued and spawned, and `Requests.dfy` follows
the clients' frames over whole runs, from SUBSCRIBE and SEND frames to the destinations and
back to the MESSAGE frames.

**The resettable timer** (`delayable_stream.rs`) and the two heartbeats made of it. The
timer is the chain of tasks that the code spawns (`Timer.dfy`), the object that polls it
(`ResettableTimer.dfy`), and a deadline that it refines (`Deadline.dfy`, `TimerLaws.dfy`).
`Heartbeat.dfy` puts two timers and a session together, in urgent time where intervals are
claimed and in loose time where they are not (`LooseTime.dfy`).

**The copy-on-write map** (`nonlockingmap.rs`): its transition system with a step for every
load, send, swap and assignment (`NonLockingMap.dfy`), its linearizability and progress
(`NonLockingMapLaws.dfy`), and the objects (`NonLockingMapObject.dfy`). The file is not
compiled into the library (`src/asynchronous/mod.rs` does not declare it); it is modelled
for its own sake.

## How to read it

Reading order: `Types`, `Channels`, `Actions`, `Reaction`, `Protocol`; then the theorems in
`Guarantees`, `Requests`, `Effects`, `Conservation`, `Pruning`, `Panics`, `Mishaps`,
`WindDown`, `Responses`. The
invariants behind them are in `Bookkeeping`, `Lifecycle`, `Delivery`, `Tables`, `Accounts`
and `Callbacks`.

Choices and assumptions:

- A channel's value (`Chan`) keeps all that was ever sent and how much was received. It is
  open as long as its receiver is; a send to a closed channel fails.
- Fields marked as history in `Session`, `Dest`, `System`, `Timer`, `Beat` and `State`
  record and do not steer, and the theorems are stated over them. Two are looked at all the
  same: whether an identifier is fresh is judged by those drawn before, and `Beat` sees by
  a timer's `yielded` whether a poll has yielded.
- UUIDs are fresh: a step that draws one is enabled only for one not drawn before at that
  destination. In the classes the identifier drawn is a parameter.
- Client subscription ids are not reused within a session (STOMP 1.2, "SUBSCRIBE", about
  the id header). `Guarantees` assumes it (`UniqueIds`); `Mishaps` shows that it is needed.
  Everything in `Bookkeeping`, `Conservation`, `Panics`, `Pruning` and `WindDown` does
  without.
- A session that dies closes its channel in the same step. The table of a backend that has
  stopped stays as it was in its last state.
- The iteration order of a hash map is arbitrary: any order of `Deliver` steps, and in the
  class whatever order `HashOrder` picks.
- `AsyncDestinations` uses `async_map::VersionedMap`, which is not part of this model; it
  is taken to be a get-or-create map.
- The untimed transition system lets a heartbeat timer fire at any time, so what it keeps
  holds whatever the timers do.
- A panic is an outcome, never a precondition: methods return `panicked`.

Findings: `BackendPanicsExactly` and `SessionPanicsExactly` say when the callback protocol
panics, and `Mishaps` has the runs: a client that sends UNSUBSCRIBE twice stops the
destination for everybody. `StreamEndsExactly`: the first poll of a timer takes a tick that
came too early for the end of the stream, after which resets still succeed
(`ResetNeverFails`). `GraceIsSixFifths`: the grace period of a
heartbeat over 35791394 ms is not six fifths of it, because the product overflows 32 bits.

## Model

| member | source | states |
|---|---|---|
| Guarantees.ExactlyOnceInOrder | src/asynchronous/inmemory.rs:171-251 | for every subscription of a live session, the frames written for it are MESSAGE frames that carry, field by field (id, destination, body, length, content type, the client's id), the first broadcasts of its backend between insertion and removal; the rest of those are queued for it, in order; the broadcasts are the Sends taken, one for one, with their bodies and distinct message ids |
| Reactions.MessageFrameCarries | src/asynchronous/client.rs:308-326 | a MESSAGE frame has the message's id, destination and body, the client's id, "text/plain", and a content length that is the body's exactly below 2^32 bytes |
| Requests.FromSendToMessage | src/asynchronous/client.rs:308-326 | from frame to frame: the i-th MESSAGE written for a subscription carries the body of the i-th SEND frame handled for its destination, counted from the broadcasts made before it was inserted |
| Requests.SendsComeFromFrames | src/asynchronous/client.rs:629-640 | the Sends ever queued at a destination are exactly the SEND frames handled for it while it ran, in order, with sender and body |
| Requests.BroadcastsComeFromFrames | src/asynchronous/inmemory.rs:226-251 | the messages broadcast are, in order, the SEND frames handled for the destination, with their bodies, as far as the backend has come |
| Requests.SubscribeFramesConserved | src/asynchronous/client.rs:619-628 | over any run the SUBSCRIBE frames of a session for a destination and an id are those whose task still waits and those handed to that destination under that id |
| Requests.SubscribeFramesAnswered | src/asynchronous/destinations.rs:38-54 | for a live session each of them waits as a task or in the queue, or has had one answer, success or failure |
| Requests.SubscriptionsWereAskedFor | src/asynchronous/inmemory.rs:193-217 | a destination makes a subscription only for a SUBSCRIBE frame that the session sent with that destination and that id, and no more of them than frames |
| Requests.ActionsComeFromFrames | src/asynchronous/destinations.rs:38-87 | every action a destination is handed comes from one step: a SEND frame with its body, an UNSUBSCRIBE frame with the destination's id of an active subscription, or a subscribe task; the counts agree in every run |
| Guarantees.DueIsAStretch | src/asynchronous/inmemory.rs:193-242 | what a subscription is due is one contiguous stretch of its destination's broadcasts, from its insertion to its removal or now; during a fan-out the message in hand is due to those visited and not yet to the others |
| Guarantees.Bracketing | src/asynchronous/client.rs:283-326 | for each client id, the events ever put on the channel are a prefix of `Subscribed(Ok) ServerMessage* Unsubscribed`, or a lone `Subscribed(Err)` |
| Guarantees.HandledIdsAreActive | src/asynchronous/client.rs:283-326 | whenever `server_message` or `unsubscribed` runs, its id is in the session's table, and `subscribed` never overwrites an entry, though the code never checks |
| Guarantees.NothingAfterUnsubscribed | src/asynchronous/client.rs:296-326 | no event about an id is ever queued behind its Unsubscribed |
| Guarantees.SessionEntriesMatch | src/asynchronous/client.rs:255-306 | every entry of a live session's table is held by its backend for that session and id, or its Unsubscribed is queued |
| Guarantees.BackendEntriesMatch | src/asynchronous/inmemory.rs:193-224 | every subscription a backend holds for a live session is in that session's table, or its Subscribed is queued |
| Guarantees.UnsubscribesAreOwn | src/asynchronous/client.rs:255-274 | every Unsubscribe ever queued names a subscription created for the session that sent it, so no session removes another's |
| Delivery.StepOrderly | src/asynchronous/inmemory.rs:171-251 | every step, in any interleaving, keeps the invariant that ties each subscription's place in queues and tables to the events told to its session |
| Tables.StepFaithful | src/asynchronous/client.rs:347-390 | every step keeps each session's table and output equal to what its handled events amount to |
| Lifecycle.PhaseIsScript | src/asynchronous/client.rs:113-150 | a history that does not break the automaton of an id is word for word the script of its phase |
| Lifecycle.ScriptIsPhase | src/asynchronous/client.rs:113-150 | and conversely a script is a history of that phase, so the automaton accepts exactly the scripts |
| Bookkeeping.StepSound | src/asynchronous/inmemory.rs:171-251 | every step, whatever clients do, keeps events, actions and table entries naming subscriptions that exist and belong to the session concerned |
| Conservation.CallbacksHeard | src/asynchronous/inmemory.rs:193-224 | for every live session in every reachable state, whatever ids are used: the Subscribed(Ok) events ever put on its channel are one for each subscription made for it, the Subscribed(Err) events one for each of its Subscribes refused, the Unsubscribed events one for each of its subscriptions removed, and there are no others of the kind |
| Conservation.CallbackConservation | src/asynchronous/inmemory.rs:94-217 | the Subscribes handed to a destination for a live session are its successful answers, its failed ones and those still queued; those taken have had one success each, those refused one failure each, and only a stopped destination refuses |
| Conservation.UnsubscribeConservation | src/asynchronous/inmemory.rs:133-224 | the Unsubscribes of a subscription handed to its destination by a live session are the one called back about, the one the backend panicked at, and those still queued; none has been refused |
| Conservation.NothingStranded | src/asynchronous/inmemory.rs:171-191 | while a backend runs and its queue is empty, every Subscribe and Unsubscribe that a live session has handed to it has had exactly one callback event |
| Accounts.StepAccounted | src/asynchronous/inmemory.rs:226-251 | every step keeps the log of broadcasts equal to the Sends taken, one for one, with their bodies and ids of their own, and every action handed over queued or refused |
| Panics.BackendPanicsExactly | src/asynchronous/inmemory.rs:218-224 | a backend panics on an Unsubscribe if and only if it has taken one for that subscription before or a delivery to it has failed |
| Panics.LiveSessionPanicsExactly | src/asynchronous/inmemory.rs:218-247 | while the session lives, only a repeated Unsubscribe panics the backend |
| Panics.SessionPanicsExactly | src/asynchronous/inmemory.rs:133-148 | over all steps of all actors, a session panics in a callback if and only if it handles an UNSUBSCRIBE for a subscription whose backend has stopped |
| Panics.NewcomersAreWell | src/asynchronous/client.rs:520-598 | a session comes into being by a CONNECT only, and not panicked |
| Panics.StopsHaveCauses | src/asynchronous/inmemory.rs:171-191 | in any run a backend that has stopped took a Close last, or panicked on an Unsubscribe of a subscription that was gone |
| Panics.CarefulRunsNeverPanic | src/asynchronous/client.rs:107-135 | no task panics and no backend stops in a run where ids are unsubscribed at most once, sessions end with no Unsubscribe in flight and no destination is closed |
| Mishaps.AskingTwicePanics | src/asynchronous/inmemory.rs:218-224 | a run in which a second UNSUBSCRIBE crashes a backend, while no id is used twice, no session ends with an Unsubscribe in flight and no destination is closed |
| Mishaps.DyingEarlyPanics | src/asynchronous/inmemory.rs:226-251 | a run in which a session dies with an Unsubscribe in flight, is pruned, and the backend crashes; the other rules hold all along |
| Mishaps.ClosingPanics | src/asynchronous/inmemory.rs:133-148 | a run in which a session that unsubscribes from a closed destination crashes; the other rules hold all along |
| Mishaps.ReusingAnIdBreaksTheHistory | src/asynchronous/client.rs:283-294 | a run in which a reused client id breaks the bracketing, though every other rule holds all along |
| Mishaps.ObeyingIsCareful | src/asynchronous/client.rs:107-135 | the three rules that the runs break one by one are together what a careful run obeys |
| Pruning.PrunesOnlyDead | src/asynchronous/inmemory.rs:235-248 | a fan-out leaves exactly the subscriptions that no delivery has failed for, and removes none of a live session |
| Pruning.DeadArePruned | src/asynchronous/inmemory.rs:226-251 | a subscription whose session is dead when a fan-out starts is gone after it and stays gone, whatever interleaves |
| Broadcast.FanOutIsBroadcast | src/asynchronous/inmemory.rs:226-251 | for every iteration order, an uninterrupted fan-out gives each session the copies of its subscriptions, with one message id, and keeps exactly the subscriptions of live sessions |
| Broadcast.StepsServe | src/asynchronous/inmemory.rs:171-191 | the transition system's steps for an action change table, queue, channels and crash flag as one round of the backend's loop does |
| FanOuts.FanOutOrderIrrelevant | src/asynchronous/inmemory.rs:235-242 | two iteration orders put the same multiset of events on every channel |
| FanOuts.OneCopyEach | src/asynchronous/inmemory.rs:235-242 | whatever the order, a channel gets under each name exactly as many copies as it has subscriptions of that name, and nothing else |
| Listening.ServeEnds | src/asynchronous/inmemory.rs:171-191 | the loop takes everything, or stops at the first Close, nameless Subscribe or unknown Unsubscribe; only the Close is no panic |
| Listening.ServedFromSomewhere | src/asynchronous/inmemory.rs:193-224 | every subscription in the table was there before or was asked for by a Subscribe taken, under the identifier drawn for it |
| Listening.StoppedStays | src/asynchronous/inmemory.rs:171-191 | actions behind the one that stops the loop have no effect |
| InMemory.InMemDestination.Subscribe | src/asynchronous/inmemory.rs:94-115 | queues the action, or on a stopped backend calls back with a failure |
| InMemory.InMemDestination.Send | src/asynchronous/inmemory.rs:117-131 | queues the action on an open queue and changes nothing else |
| InMemory.InMemDestination.Unsubscribe | src/asynchronous/inmemory.rs:133-148 | queues the action; on a stopped backend the failure callback names no subscription and panics in the caller |
| InMemory.InMemDestinationBackend.AddSubscription | src/asynchronous/inmemory.rs:193-217 | inserts under the identifier drawn and tells the subscriber; panics exactly for a nameless subscription |
| InMemory.InMemDestinationBackend.RemoveSubscription | src/asynchronous/inmemory.rs:218-224 | removes the subscription and tells the subscriber; panics exactly if there is no name to tell |
| InMemory.InMemDestinationBackend.Send | src/asynchronous/inmemory.rs:226-251 | whatever the iteration order, every channel gets the copies of its subscriptions and exactly the subscriptions with an open channel remain |
| InMemory.InMemDestinationBackend.DeliverAll | src/asynchronous/inmemory.rs:235-242 | the loop puts the copies on the channels in the order visited and collects exactly those that failed |
| InMemory.InMemDestinationBackend.ListenOn | src/asynchronous/inmemory.rs:171-191 | draining the queue leaves the table, the queue and all channels as `Serve` and `TellsAll` say, and closes the queue exactly when it stops |
| ClientProxy.AsyncStompClient.SubscribeCallback | src/asynchronous/client.rs:114-125 | queues Subscribed, or panics exactly when there is no client id |
| ClientProxy.AsyncStompClient.UnsubscribeCallback | src/asynchronous/client.rs:126-135 | queues Unsubscribed, or panics exactly when there is no client id |
| ClientProxy.AsyncStompClient.Send | src/asynchronous/client.rs:137-149 | queues ServerMessage and reports whether the session could receive it |
| DestinationRegistry.AsyncDestinations.Subscribe | src/asynchronous/destinations.rs:38-54 | spawns the task and touches no destination |
| DestinationRegistry.AsyncDestinations.RunTask | src/asynchronous/destinations.rs:46-53 | gets or creates the destination, then submits the Subscribe to it; other queues are unchanged |
| DestinationRegistry.AsyncDestinations.Send | src/asynchronous/destinations.rs:55-74 | submits to the destination if it exists; no other queue changes and none is created |
| DestinationRegistry.AsyncDestinations.Unsubscribe | src/asynchronous/destinations.rs:75-87 | submits to the destination if it exists; panics exactly if it has stopped |
| Sessions.ClientSession.Unsubscribe | src/asynchronous/client.rs:255-274 | unsubscribes the destination's id of a known subscription, answers ERROR and queues Close for an unknown one |
| Sessions.ClientSession.Handle | src/asynchronous/client.rs:615-669 | every implemented frame has the effect on queues, tasks, own channel and result that `React` gives it |
| Sessions.ClientSession.HandleClientFrame | src/asynchronous/client.rs:276-281 | likewise for a frame or a parse error |
| Sessions.ClientSession.HandleSubscribed | src/asynchronous/client.rs:283-294 | inserts the entry on success only |
| Sessions.ClientSession.HandleUnsubscribed | src/asynchronous/client.rs:296-306 | removes the entry on success only |
| Sessions.ClientSession.Error | src/asynchronous/client.rs:328-334 | an ERROR frame, and a Close behind everything queued |
| Sessions.ClientSession.HandleEvent | src/asynchronous/client.rs:347-390 | for every event the table, the result, the channel, the destinations, the tasks and both timers' channels change as `React` says, and it panics in exactly two cases |
| Effects.ErrorIsAnswered | src/asynchronous/client.rs:328-334 | an Error event is answered with exactly one ERROR of its text and a Close behind everything queued; nothing else changes |
| Effects.BadFrameIsAnswered | src/asynchronous/client.rs:276-281 | a frame that does not parse is answered in the same way |
| Effects.SecondConnectIsAnswered | src/asynchronous/client.rs:615-618 | so is a second CONNECT |
| Effects.UnknownUnsubscribeIsAnswered | src/asynchronous/client.rs:255-263 | so is an UNSUBSCRIBE of an id that is not active, and no destination hears of it |
| Effects.OnlyThoseAreErrors | src/asynchronous/client.rs:347-390 | no other event writes an ERROR or puts a Close on the channel |
| Effects.SubscribeSpawns | src/asynchronous/client.rs:619-628 | SUBSCRIBE spawns exactly one task, with the destination and the id of the frame, and changes no table or queue |
| Effects.SendHands | src/asynchronous/client.rs:629-641 | SEND adds exactly one Send with the body of the frame to the open queue of its destination; no other queue changes and none is created |
| Effects.UnsubscribeHands | src/asynchronous/client.rs:264-274 | UNSUBSCRIBE of an active id hands its destination the destination's own id of it and leaves the entry; on a stopped destination the session is gone |
| Effects.EndingEnds | src/asynchronous/client.rs:364-365 | Close and DISCONNECT end the session, with nothing written |
| Effects.HeartbeatWritesEol | src/asynchronous/client.rs:336-339 | a heartbeat that is due writes one end-of-line and nothing else |
| Effects.ClientHeartbeatIsQuiet | src/asynchronous/client.rs:370-373 | a client's end-of-line is not answered |
| Effects.ResetsAre | src/asynchronous/client.rs:366-380 | the client's timer is reset by what comes from the client, the server's by a message, and by nothing else |
| Effects.ServerMessageIsWritten | src/asynchronous/client.rs:308-326 | a message is written as one MESSAGE frame that carries it field by field |
| Effects.SubscribedIsKept | src/asynchronous/client.rs:283-294 | a successful Subscribed puts the destination and its id of the subscription under the client's id; a failed one changes nothing |
| Effects.UnsubscribedIsDropped | src/asynchronous/client.rs:296-306 | a successful Unsubscribed drops the client's id; a failed one changes nothing |
| Effects.GreetingIsWritten | src/asynchronous/client.rs:554-557 | a new session has written CONNECTED, with the pair asked for the other way round, and nothing else |
| Effects.MissedHeartbeatIsAnswered | src/asynchronous/client.rs:600-613 | once the channel has been served up to the error of a missed heartbeat, ERROR "Missed heartbeat" has been written |
| Effects.MissedHeartbeatEnds | src/asynchronous/client.rs:600-613 | and once it has been served as far as it reached then, the session is dead |
| Handling.HandleActs | src/asynchronous/client.rs:347-390 | the transition system's step for an event changes the session, all queues and the tasks as the contract of `HandleEvent` does, the panic on a refused Unsubscribe included; it has no timers, and the panic on a refused reset is excluded by `LooseTime.ResetNeverFails` |
| Handling.TaskActs | src/asynchronous/destinations.rs:46-53 | a subscribe task that runs changes queues and sessions as the contract of `RunTask` does |
| Handling.CreationActs | src/asynchronous/destinations.rs:46-53 | creating a destination is the get-or-create that `RunTask` relies on: an empty queue, and no other touched |
| Responses.ValidationIsRight | src/asynchronous/client.rs:486-518 | a connection is accepted exactly for a CONNECT that offers 1.2 and that the application accepts, with its heartbeat pair |
| Responses.OutputLanguage | src/asynchronous/client.rs:471-598 | a connection gets exactly one ERROR, with the text for what was wrong, or CONNECTED with the two numbers exchanged and then all its session produces, with no second CONNECTED |
| Responses.NoFrameLost | src/asynchronous/client.rs:404-426 | `take_while` and the filter drop no frame, because a session dies without one |
| Responses.GraceIsSixFifths | src/asynchronous/client.rs:566-570 | the grace period is six fifths of the interval, and no less than it, exactly up to 35791394 ms, where the 32-bit product overflows; one millisecond more makes it 1 ms |
| Responses.TimersAreMadeFor | src/asynchronous/client.rs:544-573 | the server's timer is made for what the client expects; the client's for six fifths of what it supplies up to 35791394 ms, and for what 32 bits leave of that beyond; zero means never |
| Responses.NegotiationFollowsTheStandard | src/asynchronous/client.rs:544-573 | the pairs of CONNECT and CONNECTED settle by the standard's rule on the intervals that the timers are made for, in both directions |
| WindDown.DeadForever | src/asynchronous/client.rs:404-406 | after Dead nothing is written and the table never changes |
| WindDown.OneConnected | src/asynchronous/client.rs:349-364 | in every reachable state a session's output starts with CONNECTED and has no second one |
| WindDown.ErrorLeadsToClose | src/asynchronous/client.rs:328-334 | a live session that has written ERROR has a Close on its channel |
| WindDown.WindsDown | src/asynchronous/client.rs:328-365 | from then on it handles at most the events ahead of that Close and writes exactly their MESSAGE frames |
| WindDown.ServedToDeath | src/asynchronous/client.rs:589-596 | a run that serves its channel that often ends with the session dead |
| TimerLaws.TickConservation | src/asynchronous/delayable_stream.rs:142-158 | items yielded and finished tasks not yet polled make up the fires, in every interleaving |
| TimerLaws.ConsumerCatchesUp | src/asynchronous/delayable_stream.rs:142-158 | a consumer, however late, gets every tick, one a poll, and then Pending |
| TimerLaws.StreamEndsExactly | src/asynchronous/delayable_stream.rs:160-171 | the first poll ends the stream if and only if the first task has fired by then |
| TimerLaws.EarlyTickEndsTheStream | src/asynchronous/delayable_stream.rs:160-171 | a run, for every positive period, in which that happens |
| TimerLaws.OnlyFirstPollEnds | src/asynchronous/delayable_stream.rs:142-171 | no other poll of a timer ever ends it |
| TimerLaws.NeverPanics | src/asynchronous/delayable_stream.rs:160-164 | the receiver is there when `initialise` takes it |
| TimerLaws.ReceiverOwnership | src/asynchronous/delayable_stream.rs:93-172 | while the resetter lives the receiver has exactly one owner, the field or the last task, unless the timer was dropped unspawned or the task aborted was the last |
| TimerLaws.CommandsAreTaken | src/asynchronous/delayable_stream.rs:23-41 | a command succeeds as long as the timer is not dropped, a zero period included |
| TimerLaws.CommandsOutliveTheStream | src/asynchronous/delayable_stream.rs:160-180 | in every run in which the timer is dropped, if at all, only after its stream has ended, commands are taken as long as the resetter lives |
| TimerLaws.StepRefines | src/asynchronous/delayable_stream.rs:80-140 | every step is a move of the deadline: a fire only after a full current period since the last restart |
| TimerLaws.RunRefines | src/asynchronous/delayable_stream.rs:80-140 | every run, ties resolved either way, is a run of the deadline with the same fires |
| TimerLaws.FiresWhenDue | src/asynchronous/delayable_stream.rs:128-138 | a running timer can fire exactly when the deadline may |
| TimerLaws.NextEmission | src/asynchronous/delayable_stream.rs:23-41 | after a reset the next fire is possible exactly from now + period on, after a change of period exactly from now + new period on, and never for zero, until a task does something else |
| TimerLaws.FiresAreApart | src/asynchronous/delayable_stream.rs:80-140 | while the period p is left alone, fires times p fit in the time since the last restart |
| TimerLaws.ZeroPeriodNeverFires | src/asynchronous/delayable_stream.rs:115-126 | a zero period does not fire until changed |
| TimerLaws.PeriodIsFrozen | src/asynchronous/delayable_stream.rs:80-91 | once the resetter is found gone the period never changes |
| Deadlines.RateBound | src/asynchronous/delayable_stream.rs:80-140 | the deadline's fires are at least a period apart |
| ResettableTimers.ResettableTimer.PollExistingTask | src/asynchronous/delayable_stream.rs:142-158 | follows the chain by one handle, or waits, or ends |
| ResettableTimers.ResettableTimer.Initialise | src/asynchronous/delayable_stream.rs:160-171 | moves the receiver into the first task and polls it |
| ResettableTimers.ResettableTimer.PollNext | src/asynchronous/delayable_stream.rs:185-196 | does the one or the other, and panics only without receiver and task |
| ResettableTimers.ResettableTimer.Drop | src/asynchronous/delayable_stream.rs:174-180 | aborts the task at hand only, and closes the command channel only if that task or the field owned it |
| HeartbeatLaws.ServerHeartbeat | src/asynchronous/client.rs:544-563 | every window of `expected` milliseconds that is over holds a MESSAGE or an end-of-line; an end-of-line comes only when every sign of life before its instant is `expected` milliseconds old, and at its instant it can follow messages only |
| HeartbeatTies.EolCanFollowAtOnce | src/asynchronous/delayable_stream.rs:128-137 | a course in which an end-of-line follows a MESSAGE at the same instant, so that exception is needed |
| TimePasses.TimeCanPass | src/asynchronous/delayable_stream.rs:128-140 | from every state of a live session some steps that take no time lead to one where time can pass |
| HeartbeatLaws.NoHeartbeatUnasked | src/asynchronous/client.rs:544-551 | with `expected` zero the timer never fires |
| LooseTime.ResetNeverFails | src/asynchronous/client.rs:374-379 | the `expect` on the server timer's reset never fails in a session, whatever the periods and however late tasks and polls are, even when the stream has ended early and been dropped; "Missed heartbeat" is enqueued at most once there too |
| HeartbeatLaws.MissedHeartbeat | src/asynchronous/client.rs:600-613 | with g six fifths of what the client supplies (or what 32 bits leave of it), "Missed heartbeat" is enqueued at most once, only after a silence of g, always after a longer one, and never with g zero |
| HeartbeatLaws.DiligentClient | src/asynchronous/client.rs:341-345 | gaps strictly below six fifths of the interval never lead to the error, up to 35791394 ms |
| HeartbeatLaws.DiligentBeyondOverflow | src/asynchronous/client.rs:566-570 | beyond that, the gaps must stay below the wrapped product instead |
| HeartbeatLaws.NoWaitingPastGrace | src/asynchronous/client.rs:600-613 | time does not pass the end of a silent grace period before the error is enqueued |
| HeartbeatTies.TieGoesEitherWay | src/asynchronous/delayable_stream.rs:128-137 | a gap of exactly the grace period leads to the error in one run and not in another |
| NonLockingMapLaws.OwnedIsPublished | src/asynchronous/nonlockingmap.rs:98-139 | the updater's map is the published one at every step but between swap and assignment |
| NonLockingMapLaws.KeysStay | src/asynchronous/nonlockingmap.rs:119-139 | no key disappears or changes its value in any run |
| NonLockingMapLaws.FactoryOnce | src/asynchronous/nonlockingmap.rs:125-138 | a factory is called at most once per key over all requests |
| NonLockingMapLaws.FactoryTakenOnce | src/asynchronous/nonlockingmap.rs:44-55 | no future sends two requests |
| NonLockingMapLaws.Linearizable | src/asynchronous/nonlockingmap.rs:40-148 | the gets take effect in some order as indivisible get-or-creates, each answer is that of its effect, and each `get_if_present` answers the value the map held for its key at its place in that order, or nothing if it held none |
| NonLockingMapLaws.EffectsOnlyGrow | src/asynchronous/nonlockingmap.rs:40-57 | that order respects the order of answers and calls, for gets and for looks at the map |
| NonLockingMapLaws.OneValuePerKey | src/asynchronous/nonlockingmap.rs:76-82 | all gets of a key answer one value |
| NonLockingMapLaws.PollPanicsExactly | src/asynchronous/nonlockingmap.rs:44-55 | a poll panics if and only if the future was polled before and no request for its key has been served |
| NonLockingMapLaws.PollingTooSoonPanics | src/asynchronous/nonlockingmap.rs:44-55 | a run, for every key and factory, in which that happens |
| NonLockingMapLaws.WokenIsReady | src/asynchronous/nonlockingmap.rs:104-111 | a woken future's key is published and its next poll answers the map's value |
| NonLockingMapLaws.WakeOnlyNeverPanics | src/asynchronous/nonlockingmap.rs:40-57 | under wake-only polling no poll panics |
| NonLockingMapLaws.PendingIsOnItsWay | src/asynchronous/nonlockingmap.rs:47-54 | a pending future's request is queued, in hand, or served and the future woken |
| NonLockingMapLaws.ServedInTurn | src/asynchronous/nonlockingmap.rs:98-114 | after as many rounds as there are requests up to its own, a future is woken |
| NonLockingMapLaws.UpdaterGoesOn | src/asynchronous/nonlockingmap.rs:98-114 | the updater has a step to take as long as a request waits |
| NonLockingMapLaws.RoundProvides | src/asynchronous/nonlockingmap.rs:101-112 | an uninterrupted round is one indivisible get-or-create, with the waker called |
| NonLockingMapObjects.FirstRequestWins | src/asynchronous/nonlockingmap.rs:119-139 | after a sequence of requests a new key has the value of its first request |
| NonLockingMapObjects.NonLockingMap.CreateIfNecessary | src/asynchronous/nonlockingmap.rs:119-139 | publishes the updated copy and hands it back, or does nothing for a key that is there |
| NonLockingMapObjects.NonLockingMap.Update | src/asynchronous/nonlockingmap.rs:98-114 | draining the queue makes the published and the owned map that of the sequential get-or-creates and wakes every waker |
| NonLockingMapObjects.MapReturnFuture.Poll | src/asynchronous/nonlockingmap.rs:40-57 | answers the published value, or gives the factory away once with a request; panics exactly when it has to a second time |

## Left out

- ABORT, ACK, BEGIN, COMMIT and NACK frames, which the code leaves to `todo!()`, and SEND frames without a body, which it unwraps.
- Parsing and serialising frames, and the websocket server: `stomp_parser` is not part of this model; frames are values.
- Login, passcode, the client factory beyond its answer, the server and session headers of CONNECTED, logging, and the Debug form of error texts.
- The internals of `tokio` and `futures`, scheduler latency and the linger delay; time is in whole milliseconds, and urgent where an exact time is claimed.
- `async_map::VersionedMap` beyond get-or-create.
- The `Quit` action of `nonlockingmap.rs`, which no code shown sends, pointer lifetimes and memory ordering: loads and swaps are atomic steps and the updater runs.
- The order of a SEND after the same client's earlier SUBSCRIBE: the code does not give it, since a subscription goes through a spawned task.
- ERROR as the last frame: the code does not give it; the wind-down is bounded instead.
- Polling a stream that has ended: `select_all` drops it, and what polling a finished join handle again does is up to `tokio`.
- Callbacks to sessions that are dead: nothing receives them, so only those of live sessions are counted. The callback of a Send does nothing in the code.
- A dropped timer stopping all its tasks: `Drop` aborts only the task at hand.
- InMemory.InMemDestinationBackend.ListenOn: one drain of what is queued, with no sender acting meanwhile; interleavings are in the transition system.
- NonLockingMapObjects.NonLockingMap.Update: one drain of what is queued; what readers see between the steps is in the transition system.
- ResettableTimers.ResettableTimer.Initialise: no task runs between the spawn and the first poll; the race is in the transition system (`TimerLaws.StreamEndsExactly`).
- Handling.HandleActs: the transition system has no timers, so a reset is not a step of it; `LooseTime` has the timers.
- HeartbeatLaws.ServerHeartbeat: a session in urgent time until it dies; its channel is not modelled there, only the moments at which events are handled.
