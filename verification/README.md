# A Dafny model of synca's replicated log and of the concurrency it stands on

`synca` runs handlers in coroutines ("journeys") and, in its `once` part, applies messages on all nodes of
a cluster in one order. This project models the parts of it where an error would be hard to see and proves
what they are for. `dafny verify dfyconfig.toml` checks everything.

**The replicated log.** A node gives a message its next step number (`Replob2::apply`, `Phantom::create`),
the nodes of a step exchange votes that carry message sets (`Voting::vote`), a node commits when everybody
it counts on has voted, and finished steps are executed strictly in order (`Phantom::complete`).
`Voting.dfy` and `Phantom.dfy` hold the two objects as classes with their fields, proved against functions
on values; `ReplicatedLog.dfy` composes these functions into a system of any number of nodes over a network
that delays, reorders, duplicates and loses packets, where nodes may be cut off from a step and timers follow
a policy that says whom they wait for; `Agreement.dfy` proves agreement and completeness over whole runs,
`Exclusion.dfy` completeness when nodes are cut off and the others go on without them, `TimerPolicy.dfy` for exactly which policies agreement holds, `Termination.dfy` that a step always ends under
any of them, `Quorum.dfy` what `isConsistent` guarantees. `BatchLog.dfy` is the abstract log: the batch of a
step is exactly the set of messages started at that step, in `MsgId` order. `OldReplob.dfy` and
`OldReplobLog.dfy` show that the older `Replob`, which counts votes in another way, implements the same
abstract log, `OldReplobQuiet.dfy` that it finishes what it starts, and `OldReplobRefinement.dfy` that the
methods of its object are runs of its system.

**The wake-up word.** All that wakes or interrupts a journey goes through one atomic word
(`JourneyState`). `JourneyWord.dfy` relates the record the proofs use to the bits the code uses, and holds
the object with its compare-exchange loops; `Journey.dfy` is the machine with one transition per atomic
operation, any number of threads, and the owner's own position in the wait functions. `Parking.dfy` is the
part of it that mutex, channel and join need; `Mutex.dfy`, `Channel.dfy` and `Completer.dfy` are built on it
and run the same machine for every journey.

**The serializer.** `Serializer.dfy` is in-place array code: an object is copied twice, words that differ by
exactly the size are its pointers, and the relocation table is written over the second copy while that copy
is still being read. It comes with the bump allocator that makes the copies.

**The scheduler.** `Chronos.dfy` is the job scheduler of the examples: a class proved against transactions
on values, and what every run of transactions keeps.

Four things about the code hold only under a condition, and the condition is proved to be exact. With
everybody live, all nodes agree in all runs if and only if no timer can fire at a set of nodes that is not all
of them and may go on alone (`TimerPolicy.AgreementIff`): for three nodes or more, timers must wait for
everybody. The comment at include/synca/once/replob.h:219-220 admits a related case only. The serializer
compares the two copies in 32 of 64 bits, so that the second copy comes back exactly when the pairs differ by
nothing or by the size in all 64 bits (`SerializerSpec.SecondCopyReturns`). `deserialize` checks its ints from
above only, and stays inside its buffer exactly when those it gets to are not negative
(`SerializerSpec.StaysInside`). In `Chronos` a completion keeps the slots right if and only if its node is
running a job (`ChronosSpec.CompletionMustBeRunning`).

## Model

| member | source | states |
|---|---|---|
| BatchLog.OrderedContents | include/synca/once/replob.h:124-135 | visiting a carry set yields every message in it exactly once and nothing else |
| BatchLog.OrderedSorted | include/synca/once/replob.h:129-132 | the visit is in strictly increasing `MsgId` order |
| BatchLog.Visit | include/synca/once/replob.h:265-270 | the loop of `exec` runs the messages of the committed set in that order |
| BatchLog.LogContents | include/synca/once/replob.h:265-270 | the log of the first k steps holds exactly the messages started in them |
| BatchLog.LogDistinct | src/node.cpp:180-183 | since an id is used in one step only, no id is executed twice |
| VotingObject.Voting.constructor | include/synca/once/replob.h:272-276 | a new step is untouched: initial state, nothing counted, no timer |
| VotingObject.Voting.Start | include/synca/once/replob.h:179-186 | the node votes for its message with the configured membership, and its timer is set |
| VotingObject.Voting.Vote | include/synca/once/replob.h:188-217 | merge the carried set, take over or intersect the membership, commit when the votes equal it, else vote once per membership; nothing after completion |
| VotingObject.Voting.Commit | include/synca/once/replob.h:221-230 | the first commit fixes the batch, is passed on and completes the step; later ones change nothing |
| VotingObject.Voting.IsConsistent | include/synca/once/replob.h:232-241 | true exactly for a strict majority, or for half of the nodes with the smallest id of all among them |
| VotingObject.Voting.Timeout | include/synca/once/replob.h:243-262 | go on with the nodes heard from when they are consistent, else stop the node |
| VotingObject.Voting.OnComplete | include/synca/once/replob.h:172-177 | cancel the timer and execute the committed set in `MsgId` order |
| PhantomTable.Write | include/synca/once/phantom.h:82-92 | storing a step keeps all keys in [current, next), whatever number a remote node sent |
| PhantomTable.Advance | include/synca/once/phantom.h:100-110 | erasing the head keeps them there |
| PhantomObject.Phantom.Create | include/synca/once/phantom.h:70-73 | a created step is the next number and was untouched |
| PhantomObject.Phantom.GetPtr | include/synca/once/phantom.h:82-92 | a step that is past yields nothing; any other is there afterwards and `next` is behind it |
| PhantomObject.Phantom.TryComplete | include/synca/once/phantom.h:53-59 | `onComplete` runs only for a finished step at the head, which then leaves |
| PhantomObject.Phantom.RunHead | include/synca/once/phantom.h:98-109 | one turn of the loop executes and erases the head exactly when it is finished, even if the handler re-enters |
| PhantomObject.Phantom.Complete | include/synca/once/phantom.h:94-111 | afterwards `onComplete` has run once for each of 0, 1, ..., current - 1 in this order, no finished step waits at the head, and steps still kept have kept their state |
| ReplicatedLog.AllHeard | include/synca/once/replob.h:205-210 | when the votes of a step equal its membership, the carried set is everything started there and no live node can start more |
| ReplicatedLog.VoteOk | include/synca/once/replob.h:188-217 | a vote that carries a node's own messages leaves a sound slot and sends a sound message, re-votes after a change of membership included |
| ReplicatedLog.AccurateIsSound | include/synca/once/replob.h:243-256 | timers that wait for every live node leave none behind |
| ReplicatedLog.ShrinksOnce | include/synca/once/replob.h:194-204 | with sound timers the membership of a step shrinks once at most, to the live nodes |
| ReplicatedLog.FiresOnLive | include/synca/once/replob.h:243-256 | a timer that goes on has heard every live node |
| ReplicatedLog.RunKeeps | include/synca/once/replob.h:188-285 | the invariant of the whole system holds after every run, whatever nodes that are cut off do |
| Agreement.LogAgreement | include/synca/once/replob.h:188-230 | for any two nodes that were live in the steps they have executed, in every run with loss, duplication, reordering, cut-off nodes and sound timers, the executed logs are prefix-comparable, are the batches of the first steps in order, and hold no id twice |
| Agreement.LogAgreementOverTime | include/synca/once/phantom.h:94-111 | the same between different moments of a run: nothing executed is revised |
| Agreement.CommitIsBatch | include/synca/once/replob.h:207-230 | every commit of a step at a live node, by count or by message, at any time of the run, is everything that live nodes ever start at it; no concurrent proposal is dropped |
| Agreement.ExclusionAgreement | include/synca/once/replob.h:194-204 | when nodes are cut off from a step, whatever they go on doing there, any two live nodes that finish it, from whichever membership and after whatever re-votes, have committed the same set: all that the live nodes started there |
| Exclusion.StepNarrows | include/synca/once/replob.h:188-217 | what every step of a run keeps when nodes are cut off: whatever a live node has last voted for, or committed, is on its way to every other live node, or has been counted there, or is forgotten by a vote that is newer, or that node is done; and who started the step and still counts on everybody has its timer set |
| Exclusion.FirstHasHeardAll | include/synca/once/replob.h:194-210 | when nothing is in flight the live nodes do not all wait for each other |
| Exclusion.ExclusionCompleteness | include/synca/once/replob.h:188-262 | when the live nodes of a step may go on alone, the timers wait for them, and nothing sent to them is lost, a step that one of them started is finished at all of them once nothing more can happen, whatever the nodes that are cut off do: those that hear of the smaller membership vote again |
| Exclusion.ExclusionExecutes | include/synca/once/phantom.h:94-111 | a node for which that has come true in all steps up to some number has executed them all, in order |
| Exclusion.CaredRunning | include/synca/once/replob.h:243-262 | where timers wait for the live nodes, who may go on, no timer stops a live node |
| Agreement.ClosedRun | include/synca/once/phantom.h:70-92 | nothing is started at a step once every live node has passed it |
| Agreement.LogOnlyGrows | include/synca/once/phantom.h:94-111 | a node's log is only ever extended |
| Agreement.NoTimeout | include/synca/once/replob.h:243-256 | with static membership a timer that fires finds its step committed and changes nothing |
| Agreement.SomebodyDone | include/synca/once/replob.h:207-216 | when nothing is in flight, a step that somebody still waits for is finished at somebody, also where a node commits without having voted |
| Agreement.StartedIsDone | include/synca/once/replob.h:188-230 | when nothing is in flight, a step started anywhere is finished everywhere |
| Agreement.CaughtUp | include/synca/once/phantom.h:82-111 | at rest every node has executed every step any node has heard of, so no number below the highest was left unused |
| Agreement.QuiescentCompleteness | include/synca/once/replob.h:279-286 | a static run without loss that has come to rest: all nodes have executed the same log, and it holds every applied message exactly once |
| Agreement.AppliedCount | include/synca/once/replob.h:281-285 | the messages these theorems speak about are as many as there were calls of `apply` by live nodes, which is all calls when membership is static |
| Agreement.LoggedWasApplied | include/synca/once/replob.h:281-285 | every entry of a log is a message that some call of `apply` was given at the node its id names |
| Termination.VoteCosts | include/synca/once/replob.h:188-217 | handling a vote at a node that has voted costs less than the vote weighed, even when it empties the membership or refills an empty one |
| Termination.Descends | include/synca/once/replob.h:179-256 | every step of a run of one protocol step, under any timeouts, lowers an explicit weight |
| Termination.StepTerminates | include/synca/once/replob.h:179-256 | so every such run is finite, with an explicit bound in the number of nodes |
| Quorum.NoSplitBrain | include/synca/once/replob.h:232-241 | any two groups of one membership that may both go on share a node |
| Quorum.ExactlyOnePart | include/synca/once/replob.h:232-241 | of two non-empty parts of a membership exactly one may go on |
| Quorum.TimeoutNarrows | include/synca/once/replob.h:194-204 | a timeout that goes on leaves the nodes heard from as the membership |
| Quorum.TimeoutsOverlap | include/synca/once/replob.h:243-256 | two nodes that time out from the same membership keep a common node |
| TimerPolicy.SplitRun | include/synca/once/replob.h:188-256 | when a set of nodes may go on alone, there is a run, without loss or duplication and with each timer fired once at most, in which one of them and a node outside commit different sets for one step |
| TimerPolicy.AgreementIff | include/synca/once/replob.h:188-256 | with everybody live, all nodes agree in all runs if and only if at no step a set of nodes, not all of them but all a timer waits for, may go on alone |
| TimerPolicy.ThreeMustWait | include/synca/once/replob.h:232-241 | for three nodes or more that means that timers wait for everybody |
| TimerPolicy.TwoMustWait | include/synca/once/replob.h:238-240 | for two nodes it means that timers wait for the greater one |
| OldReplobSpec.TallyIsVoters | src/replob.cpp:210-217 | when no node is counted for two messages, the sum of the voter sets is the number of voters |
| OldReplobSpec.MayCommitIffAllVoted | src/replob.cpp:210-217 | the sum equals the node count exactly when every node has voted |
| OldReplobSpec.MayCommit | src/replob.cpp:210-217 | the loop computes that sum and compares it |
| OldReplobSpec.VotedNodesSet | src/replob.cpp:202-208 | the loop collects exactly the nodes that voted for any message |
| OldReplobObject.Replob.GetStep | src/replob.cpp:66-86 | a step executed or committed is not handed out, and `next` moves behind any other |
| OldReplobObject.Replob.Apply | src/replob.cpp:48-53 | a message is voted for at the next step, and the vote broadcast unless it commits at once |
| OldReplobObject.Replob.Vote | src/replob.cpp:88-126 | count the voter, vote for the first message seen, commit the ordered list when everybody is counted, then execute what is ready |
| OldReplobObject.Replob.Commit | src/replob.cpp:128-148 | the first commit of a step fixes its list, is passed on and executed in its turn |
| OldReplobObject.Replob.TryProcess | src/replob.cpp:356-383 | the loop executes the committed steps at the head: the log is the old one followed by the messages of the steps from the old head up to the new one, step after step, and the new head is not committed |
| OldReplobObject.BatchesSplit | src/replob.cpp:366-383 | in that log the messages of a step stand behind those of all earlier steps and before those of all later ones |
| OldReplobRefinement.DrainIsExecs | src/replob.cpp:356-383 | the loop is a run of single executions of the system |
| OldReplobRefinement.MessageIsSystem | src/replob.cpp:88-148 | what the object does on a vote or a commit is the delivery of that message in the system, followed by executions: same steps, same log, same broadcast |
| OldReplobRefinement.ApplyIsSystem | src/replob.cpp:48-53 | what the object does on `apply` is that action of the system, followed by executions |
| OldReplobLog.AllVoted | src/replob.cpp:106-113 | a step whose sum is full holds all messages started at it |
| OldReplobLog.CommitIsBatch | src/replob.cpp:88-148 | every commit of a step, at any time of the run, is the `MsgId`-ordered list of all messages ever started at it |
| OldReplobLog.LogAgreement | src/replob.cpp:88-148 | the older protocol keeps the promise of the newer one: prefix-comparable logs of the batches started |
| OldReplobQuiet.StepLossless | src/replob.cpp:88-148 | every vote cast and every commit is on its way to every other node, or has arrived there, as long as nothing is dropped |
| OldReplobQuiet.CommitsAreNotEmpty | src/replob.cpp:128-131 | no commit message is empty, so the check at its receiver never fails |
| OldReplobQuiet.CaughtUp | src/replob.cpp:66-86 | at rest every node has executed every step any node has heard of |
| OldReplobQuiet.QuiescentCompleteness | src/replob.cpp:48-148 | a run without loss that has come to rest: all nodes have executed the same log, and it holds every applied message exactly once |
| OldReplobQuiet.LoggedWasApplied | src/replob.cpp:48-53 | every entry of a log is a message that some call of `apply` was given at the node its id names |
| JourneyWord.DecodeEncode | src/journey.h:53-62 | the record survives the packing into the word |
| JourneyWord.EncodeDecode | src/journey.h:53-62 | every word is the packing of one record |
| JourneyWord.CountKeepsFlags | src/journey.h:60-61 | adding `ValueCounter` leaves all five flags alone |
| JourneyWord.MayProceedBits | src/journey.cpp:277-283 | the test on the word is the test on the record |
| JourneyWord.RaiseBitsIsRaise | src/journey.cpp:222-256 | what a successful raise stores is the record raise, with and without events enabled |
| JourneyWord.SettingTracksRecord | src/journey.cpp:88-97 | each fetch_or of the word acts on the record, with the counter taken as unbounded |
| JourneyWord.ClearingTracksRecord | src/journey.cpp:99-158 | the same for the clearing operations |
| JourneyWord.ThrowingTracksRecord | src/journey.cpp:203-220 | the same for the flags cleared before throwing |
| JourneyWord.RaisingTracksRecord | src/journey.cpp:222-256 | the same for a raise |
| JourneyStateObject.JourneyState.Done | src/journey.cpp:88-97 | proceed exactly when nobody had entered |
| JourneyStateObject.JourneyState.HandleRaiseEvents | src/journey.cpp:203-220 | a pending cancel is thrown, else a pending timeout, else nothing; the flags that each clears, a cancel those of a timeout too |
| JourneyStateObject.JourneyState.HandleEvents | src/journey.cpp:99-114 | with events enabled a pending cancel is thrown and its flag, the timeout and done are cleared, else a pending timeout is thrown; without either, or with events disabled, done is cleared, and a word that is not done fails the check |
| JourneyStateObject.JourneyState.EnableEventsAndCheck | src/journey.cpp:77-80 | events are enabled, and what was pending before is thrown, a cancel first |
| JourneyStateObject.JourneyState.AddRaiseEvent | src/journey.cpp:222-256 | under any interference the word in place at the end is replaced by itself with the flag, so that no change by another thread is lost, and proceed is called exactly when that word had events enabled and nobody had entered |
| JourneyStateObject.JourneyState.ResetEnteredAndCheckEvents | src/journey.cpp:116-131 | under any interference the word in place at the end is left alone and proceeded on when it may proceed, and otherwise only loses its entered flag |
| JourneyStateObject.JourneyState.Acquire | src/journey.cpp:133-158 | under any interference it succeeds exactly when the word in place at the end has counted no event since the doer was made; it then only disables events, and otherwise leaves that word alone |
| JourneyStateObject.JourneyState.ReleaseAndDone | src/journey.cpp:160-179 | done and, for a doer made with events enabled, enabled again, in one operation |
| Journey.SingleResume | src/journey.cpp:88-131 | over every interleaving at most one resume is scheduled or running, the entered flag is clear exactly when the journey is idle, an idle journey may not proceed, and resume is called on a suspended coroutine only |
| Journey.CompletedForever | src/journey.cpp:530-542 | a completed journey is never scheduled again |
| Journey.WaitSoundness | src/journey.cpp:385-438 | every `handleEvents` a wait function reaches finds a word that may proceed, so neither check fails |
| Journey.EventsAreNotLost | src/journey.cpp:203-220 | a pending cancel goes away only by being thrown, a pending timeout only by a throw |
| Journey.RaiseLeavesFlag | src/journey.cpp:222-256 | a raise leaves its flag whether or not somebody has entered, and with events enabled the journey is on its way to handle it |
| Journey.PendingStays | src/journey.cpp:203-220 | over any run a pending event stays until it is thrown |
| Journey.HandlingThrows | src/journey.cpp:99-114 | `handleEvents` with events enabled goes on to throw what is pending, a cancel first |
| Journey.ThrowingThrows | src/journey.cpp:203-220 | it then throws it and clears the flags of what it throws and of what that overrides |
| Journey.CheckThrows | src/journey.cpp:77-80 | enabling with a check throws what was pending before |
| Journey.RaiseIsThrown | src/journey.cpp:99-114 | over every run, when `handleEvents` is reached with events enabled after a raise, something was thrown since, a cancel if the raise was one, or is thrown now |
| Journey.WaiterThrows | src/journey.cpp:385-397 | a journey that waits with events enabled is woken by a raise and throws it |
| Journey.WakeUpArrives | src/journey.cpp:116-131 | a suspended journey with a reason to run has a thread that is to resume it, and every step of that thread brings it nearer |
| Journey.RescheduleComesBack | src/journey.cpp:433-438 | a journey that reschedules itself goes on by itself, with nothing thrown and nothing changed |
| Journey.EventsComeBack | src/journey.cpp:399-431 | whatever wait functions a handler goes through, and whatever is done or raised meanwhile, events are enabled afterwards exactly when they were before |
| Journey.CounterGrows | src/journey.cpp:222-256 | the event counter never goes back |
| Journey.RaiseWins | src/journey.cpp:133-158 | after a raise with events enabled every acquire of an earlier doer fails for ever |
| Journey.StaysDisabled | src/journey.cpp:222-256 | while nobody enables events no raise is counted |
| Journey.AcquireWins | src/journey.cpp:133-179 | after an acquire no raise schedules the journey until it is released or the owner enables events, and the acquire stays valid |
| Journey.ReleaseWakes | src/journey.cpp:160-179 | a release leaves the journey entered, enabled and ready to proceed |
| Parking.TakeOk | src/oers.cpp:68-71 | without raise events an acquire of a doer that waits never fails |
| Parking.WakeIsNotLost | src/journey.cpp:385-397 | a journey woken at any point of `waitForDone`, even before it suspends, leaves it after at most seven steps of its own |
| Parking.ParkedStays | src/journey.cpp:385-397 | nobody but its doer lets a waiting journey leave |
| Parking.WakeGives | src/journey.cpp:160-179 | a doer that has disabled events enables them again when it is released |
| MutexSystem.MutualExclusion | src/mutex.cpp:38-82 | at most one journey owns the mutex or is being handed it, one does exactly when it is acquired, and nobody waits at a free mutex |
| MutexSystem.GrantedInOrder | src/mutex.cpp:53-73 | the mutex is granted in the order of asking, and the rest is the queue |
| MutexSystem.UnlockIsEnabled | src/mutex.cpp:59-82 | an owner can always unlock, and a waiter that was taken is being handed the mutex by somebody who can go on |
| MutexSystem.HandOverIsNotLost | src/mutex.cpp:55-73 | a hand-over reaches its waiter, even one that has not suspended yet: it is out of `waitForDone` after at most seven steps of its own |
| MutexSystem.EventsComeBack | src/mutex.cpp:38-82 | over every run, while the doer of a waiting journey is acquired its events are disabled, and when `lock` returns they are what they were when it was called |
| MutexSystem.Recorded | src/mutex.cpp:38-82 | the histories are what happens: `lock` appends its caller to the requests, and whoever comes to own the mutex is appended to the grants |
| MutexObject.Mutex.Lock | src/mutex.cpp:38-57 | a free mutex is taken, otherwise the doer goes to the end of the queue |
| MutexObject.Mutex.Unlock | src/mutex.cpp:59-82 | the loop passes the mutex to the first waiter whose doer can be acquired and drops those before it; without one the mutex is free |
| MutexObject.UnlockTakesFirst | src/mutex.cpp:64-77 | waiters whose doers cannot be acquired are dropped, the first that can gets the mutex, and those behind it stay queued in their order |
| MutexObject.UnlockFrees | src/mutex.cpp:64-82 | when no doer can be acquired, or nobody waits, the mutex is free |
| MutexObject.LockIsSystem | src/mutex.cpp:38-57 | what the object does on lock is what the system does |
| MutexObject.UnlockIsSystem | src/mutex.cpp:59-82 | in every state with the invariant, what the object does on unlock is what the system does: the first waiter is the one that is found |
| ChannelSystem.FifoConservation | include/synca/channel.h:49-81 | gets are answered in the order of request, the values answered are the values put, in order, the rest is queued, and values and waiters never coexist |
| ChannelSystem.ReturnsWhatWasAnswered | include/synca/channel.h:66-81 | what the gets of a journey have returned, values and falses, read from where put wrote them, is what they were answered, in order; one answer more is due at most, and only inside get |
| ChannelSystem.RefusedWhenClosed | include/synca/channel.h:66-113 | a get is answered false only by a closed channel with nothing queued, all values having been answered to others |
| ChannelSystem.CloseRefusesUnmatched | include/synca/channel.h:102-113 | whenever gets wait, every value put has been answered to another get |
| ChannelSystem.AnswerIsNotLost | include/synca/channel.h:127-137 | a promised answer arrives: its put or close can go on, and the woken get leaves in at most seven steps |
| ChannelSystem.EventsComeBack | include/synca/channel.h:66-137 | over every run, while the doer of a waiting get is acquired its journey's events are disabled, and when `get` returns they are what they were when it was called |
| ChannelSystem.Recorded | include/synca/channel.h:49-81 | the histories are what happens: `put` appends its value, `get` its caller, and what a get returns is appended when it returns |
| ChannelObject.Channel.Put | include/synca/channel.h:49-64 | the loop finds the first waiter that can be acquired, else the value is queued; a closed channel refuses |
| ChannelObject.PutFindsFirst | include/synca/channel.h:53-62 | waiters whose doers cannot be acquired are dropped, the first that can gets the value, and those behind it wait on in their order |
| ChannelObject.PutQueues | include/synca/channel.h:53-63 | a value that no waiter takes is queued behind the others |
| ChannelObject.Channel.Get | include/synca/channel.h:66-81 | the oldest value, or false on a closed channel, or a place at the end of the line |
| ChannelObject.Channel.Close | include/synca/channel.h:102-113 | the first close answers all waiters, a second nobody |
| ChannelObject.PutIsSystem | include/synca/channel.h:49-64 | in every state with the invariant, what the object does on put is what the system does: the first waiter is the one that is found |
| ChannelObject.GetIsSystem | include/synca/channel.h:66-81 | what the object does on get is what the system does |
| Completer.JoinIsCorrect | src/core.cpp:413-462 | over any rounds and interleavings `wait` returns only after every job of the round has ended, `doer_.done()` is called exactly once in a round that blocked and never otherwise, and both fields are zero between rounds |
| Completer.Counted | src/core.cpp:413-441 | the counter is the number of running jobs less those it has not been told of |
| Completer.JoinIsNotLost | src/core.cpp:418-462 | a blocked wait ends: a job can end, or the last one can call `doer_.done()`, or the owner is on its way out |
| Completer.SecondWait | src/core.cpp:439-471 | whenever a wait is blocked, a second one, after an interrupted one, blocks exactly when jobs of the round still run |
| CompleterObject.Completer2.Done | src/core.cpp:418-423 | count down and report whether zero was reached |
| CompleterObject.Completer2.BeginWait | src/core.cpp:425-462 | nothing to wait for without jobs; the first wait adds the jobs to the counter, a later one looks at it only, and the owner must wait exactly when it is not zero |
| CompleterObject.CallsAreSystem | src/core.cpp:413-462 | the system's steps change the two fields as the methods do |
| Words.PutWordAt | include/synca/once/serialization.h:59-68 | a word written over two ints is read back, and no other word changes |
| SerializerSpec.FirstMisfit | include/synca/once/serialization.h:61-67 | the first pair of words whose difference, as an int, is neither zero nor the size |
| SerializerSpec.TableContents | include/synca/once/serialization.h:61-71 | the relocation table lists exactly the words that differ, in increasing order |
| SerializerSpec.StillThere | include/synca/once/serialization.h:61-71 | neither the relative words nor the table have overwritten a word that a round still reads |
| SerializerSpec.RoundIsProgress | include/synca/once/serialization.h:61-71 | so each round, which sees the half-rewritten buffer only, does what it would do on the two copies |
| SerializerSpec.SerializedCells | include/synca/once/serialization.h:72-75 | on success the announced bytes are the relative words, the table and its place, the final entry fits, and the rest of the buffer is untouched |
| SerializerSpec.SerializeDecides | include/synca/once/serialization.h:54-67 | exactly the copies of whole words, equally long, whose words differ in their lower int by nothing or by the size are accepted; which check fails otherwise |
| SerializerSpec.DeserializeDecides | include/synca/once/serialization.h:82-97 | exactly the rows of ints that end in the start of a table, inside the buffer, of words before it are accepted; which check fails otherwise |
| SerializerSpec.PatchedCounts | include/synca/once/serialization.h:90-96 | `deserialize` adds the base to each word once per entry that names it, in whatever order |
| SerializerSpec.RebuiltWord | include/synca/once/serialization.h:42-98 | whatever the two copies were, deserializing moves exactly the words taken for pointers |
| SerializerSpec.FirstCopyReturns | include/synca/once/serialization.h:42-98 | at its own address the first copy comes back bit for bit |
| SerializerSpec.SecondCopyReturns | include/synca/once/serialization.h:63-68 | at its address the second copy comes back if and only if all pairs differ by nothing or by the size in all 64 bits |
| SerializerSpec.WideShiftGoesUnnoticed | include/synca/once/serialization.h:63-64 | copies that differ by 2^32 are accepted and the second is lost |
| SerializerSpec.RoundTrip | include/synca/once/serialization.h:42-98 | every object of plain words and pointers into itself is accepted, and deserializing its bytes at any address yields that object at that address |
| SerializerSpec.PositionIndependent | include/synca/once/serialization.h:63-70 | the bytes do not depend on where the object was serialized |
| SerializerBuffer.Rounds | include/synca/once/serialization.h:61-71 | the in-place loop, also when it stops at a misfit |
| SerializerBuffer.Serialize | include/synca/once/serialization.h:54-75 | the three checks in order and the buffer each outcome leaves |
| SerializerBuffer.Restore | include/synca/once/serialization.h:89-96 | the in-place loop, also when it stops at an entry that is too large or leaves the buffer at a negative one |
| SerializerSpec.StaysInside | include/synca/once/serialization.h:84-96 | `deserialize` stays inside the buffer if and only if its last int, and, unless that one is too large, the table entries before the first one that is too large, are not negative |
| SerializerSpec.NegativeIndexPasses | include/synca/once/serialization.h:87-90 | a buffer that holds the smallest int only passes every check and is left |
| SerializerBuffer.Deserialize | include/synca/once/serialization.h:82-97 | the checks in order and the buffer each outcome leaves, up to the point where a negative int would lead outside |
| Allocator.Rounded | src/serialization.cpp:89-91 | sizes go up to the next multiple of the word size |
| Allocator.SecondCopyIsShifted | src/serialization.cpp:86-96 | two copies that ask for the same blocks lie one size apart block by block, so that the first two checks of `serialize` pass |
| Allocator.BlocksAreApart | src/serialization.cpp:86-96 | blocks do not overlap |
| Allocator.MemoryAllocator.Alloc | src/serialization.cpp:86-96 | the block is zeroed and nothing else touched; a block too large changes nothing |
| ChronosSpec.Without | examples/chronos.cpp:118-122 | removing an element removes all of it and nothing else |
| ChronosSpec.RunKeeps | examples/chronos.cpp:126-241 | after every run of transactions each available node is one idle slot or runs one job, no job waits beside an idle node, every job is scheduled, ready, running or completed as often as it was added, and jobs start in the order they became ready |
| ChronosSpec.StepCopies | examples/chronos.cpp:134-241 | no transaction loses or doubles a job, a removal of the node that runs it included |
| ChronosSpec.JobsPermuted | examples/chronos.cpp:255-255 | the order in which the queue keeps its events does not matter for that |
| ChronosSpec.QuietMeansDone | examples/chronos.cpp:207-241 | with a node left, nothing scheduled and nothing running, every job added has been completed |
| ChronosSpec.NodesAreUsed | examples/chronos.cpp:178-187 | idle and running nodes add up to the available ones, and when not all run no job waits |
| ChronosSpec.TriggerPairs | examples/chronos.cpp:178-187 | the jobs at the front are started on the slots at the front, pair by pair, until one of them runs out |
| ChronosSpec.NothingIsEarly | examples/chronos.cpp:134-217 | over every run, whatever has become ready was added with a time before the time it was taken at, and everything else added is still scheduled with its time |
| ChronosSpec.NodesTakeTurns | examples/chronos.cpp:178-241 | over every run nodes get jobs in the order in which they became idle |
| ChronosSpec.Recorded | examples/chronos.cpp:146-241 | the histories are what happens, and after `scheduleEventsUpTo` no event that is due is left |
| ChronosSpec.CompletionMustBeRunning | examples/chronos.cpp:235-241 | a completion keeps the slots right if and only if its node is running a job |
| ChronosObject.Chronos.constructor | examples/chronos.cpp:126-132 | every node starts as one idle slot |
| ChronosObject.Chronos.AddEvent | examples/chronos.cpp:134-139 | the event is queued and nothing else changes |
| ChronosObject.Chronos.OnNodeRemove | examples/chronos.cpp:146-156 | the node leaves nodes and slots, its job is ready again behind all others, and only then are jobs started |
| ChronosObject.Chronos.TriggerAwaitings | examples/chronos.cpp:178-187 | the loop starts the first ready job on the first idle slot until one of them runs out |
| ChronosObject.Chronos.ExecuteHandler | examples/chronos.cpp:219-233 | the job is recorded on every node, and it is added to the handlers set going exactly on the node it is started on |
| ChronosObject.SpawnedOnce | examples/chronos.cpp:219-233 | over every run each start is set going at its own node, once, and at no other: the handlers of a node are the starts on it, as often and in order |
| ChronosObject.Chronos.ScheduleEventsUpTo | examples/chronos.cpp:207-217 | exactly the events due before now become ready, in the order of their times |
| ChronosObject.Chronos.OnHandlerCompleted | examples/chronos.cpp:235-241 | the node is idle again and takes the next job |

## Left out

- Agreement.LogAgreement: whether a timer's policy is sound is a condition on the configuration, exact when everybody is live (TimerPolicy.AgreementIff); with unsound timers runs are modelled for termination and for that theorem only. Nodes that were cut off from a step they have executed are not promised a log.
- Exclusion.ExclusionCompleteness: that a run comes to rest at a step is Termination.StepTerminates, of a model of one step; the two are not joined into one theorem. A step that only nodes cut off from it have started is never heard of, and a live node that has moved behind it waits there for ever.
- Termination.StepTerminates: packets of a step arrive at most once there, since a network that duplicates for ever never rests.
- PhantomObject.Phantom.Complete: handlers that re-enter are given by a script that creates steps and completes them; `uncomplete` and `cleanup` are not modelled here (a stopped node is part of the system model).
- VotingObject.Voting.Vote: carried sets are values, so that the aliasing of the passed membership with `voted_` (include/synca/once/replob.h:203) is not captured; the order of the two statements it needs is.
- Journey.RaiseWins: the event counter is unbounded; in the word it has 27 bits and can come round (JourneyWord.CountKeepsFlags says how it wraps).
- Journey.SingleResume: the word is one sequentially consistent location; relaxed memory ordering is not modelled.
- JourneyStateObject.JourneyState.AddRaiseEvent: what other threads do is given as a list, one change of the word and one possible spurious failure before each attempt.
- Journey.WaitSoundness: runs without `detachDoers`, whose race the source records at src/journey.cpp:183-187; `DetachableAwaiter` goes with it.
- MutexSystem.MutualExclusion, ChannelSystem.FifoConservation, Completer.JoinIsCorrect: no cancel or timeout reaches the journeys involved, and none of them ends while it is inside; the objects themselves (MutexObject, ChannelObject) do go on to the next waiter when an acquire fails.
- SerializerBuffer.Deserialize: what happens beyond the buffer is not modelled, the outcome only says that it is reached; buffers are rows of whole ints and their sizes stay below 2^31.
- Allocator.MemoryAllocator.Alloc: sizes are unbounded numbers, and `dealloc` and `setSize` are not modelled.
- ChronosObject.Chronos.ScheduleEventsUpTo: times come as a parameter, the timer of `scheduleWait` and the transaction it submits are not modelled, and events with equal times leave the queue in any order.
- ChronosObject.Chronos.OnHandlerCompleted: that completions come from running nodes only is a condition on runs, exactly the one that keeps the slots right.
- The older `Replob`'s `onTimeout` and `disconnectNodes` change the node count in the middle of a step and promise nothing clean.
- The network is a set of packets from which any may be delivered, kept for another delivery, or dropped; sockets, connectors, listeners and packet formats are not modelled.
- Handlers, messages and jobs are opaque numbers; what they do is not modelled, except that a running handler may apply further messages at any point.
- Context switching, closures, thread pools, strands, schedulers and the synchronous scheduling path of `t_cancellation` (src/journey.cpp:519-523): a scheduled resume is a token that some thread runs later.
- Wrap-around of step and message numbers, and iterator invalidation of the hash maps.
- Adapters, key-value store, portal, garbage collector, pipes and the failure-detector example are thin over what is modelled.
