# Verified models of own-x-go

Dafny models of the stateful core of the repository, with their properties proved for every input, every run or
every reachable state. `dafny verify dfyconfig.toml` checks the whole project.

| part | files | what it is |
|---|---|---|
| leader election (`cluster/`) | `ClusterRules`, `Clusters`, `ElectionProtocol`, `ElectionInvariants`, `ElectionSafety`, `ElectionTerms`, `ElectionTheorems`, `ElectionLeaders`, `ElectionHandlers`, `ElectionFindings` | one member as a value and as classes; the cluster as a transition system; its invariants and theorems; what every handler does to the members of a run; runs that show what the code does not guarantee |
| goroutine pool (`gopool/`) | `PoolMachine`, `PoolRuns`, `TaskQueue` | submitters and workers at the granularity of atomic operations; the way of each task and the decisions to start a worker; the intrusive queue on the heap |
| duplicate suppression (`concurrency/`) | `Flight`, `FlightRuns`, `Singleflight` | calls, waiters and channels as a machine; results and sharing over runs; the Group on the heap, each locked section one step of it |
| stream framing (`nio/`) | `Framing`, `Codec` | encoder and resumable decoder on values; codec and read loop on the heap |
| timing wheel (`timing_wheel/`) | `WheelRules`, `WheelFindings`, `TimingWheels` | slots, tiers and ticks on values; the fate of the last bucket and runs that fail; the spliced node chains on the heap |
| containers (`basic/`) | `LinkedLists`, `OrderedSets` | the doubly linked list, the ordered map and the ordered set on the heap |

Imperative code is modelled by classes and methods. Where a specification module stands beside them, each method is
proved to do exactly what a function of the old state says, and the theorems are about those functions and their runs.

## Assumptions of the election model

- A handler is one atomic step. So are the parts of `fightElection` between its waits, among them lines 238-266 and
  294-309 of `cluster/contact.go`; the failing branch of lines 262-266 cannot occur then.
- A message is delivered at most once, in any order, and may be lost. The replies that a `sendAndWait` collects are
  arbitrary.
- All members share one configuration with distinct, non-empty ids. Members do not restart.
- Timeouts and random delays are replaced by steps that may happen at any time.

## What turned out false, and exactly when it holds

- Pruning the vote map (`cluster/contact.go` 193-202) drops the ten smallest terms even if the member has not passed
  them, and then it can vote twice. `PruneForgetsNoVoteIffPast` gives the exact condition, `PruneCanForgetVotes` and
  `TwoMajoritiesInOneTerm` show the failure; the safety theorems assume `PrunesSafely`.
- A new leader's term need not be one it has won: its own term can be raised while it waits for confirmations.
  `LeadershipIsEarned` gives the exact condition, `LeadsATermItDidNotWin` a run.
- For the same reason one term can have two leaders, even without pruning (`TwoLeadersInOneTerm`). With the missing
  check that the term has not changed before signing (`ConfirmsInTerm`), there is at most one (`OneLeaderPerTerm`).
- A task of the wheel runs on time exactly when its time does not fall on the last bucket, because that bucket is
  compared with the tier of the next round (`RunsOnTimeIffNotLastBucket`). A task of the last bucket runs 32 ticks
  early if adding it left the bucket without a jam, and never otherwise (`RunsEarlyIffNoJam`); `RunsEarly` and
  `NeverRuns` are runs of both kinds.
- `AddOnce` panics exactly when its bucket is in use and everything there is due later (`AddPanicsIffAllLater`);
  `AddCanPanic` is a run in which it does.
- The messages of a list arrive as sent exactly when no length field wraps around (`ContentsArriveIffFit`,
  `RoundTripIffFits`); `LongMessagesAreLost` gives inputs that do not.
- `OrderedSet.Remove` documents that a missing item is skipped, but the code stops there. `RemoveIsCompleteIff` gives
  the exact condition, `RemoveStopsEarly` an input. The model follows the code.

## Model

| member | source | states |
|---|---|---|
| ElectionTheorems.AtMostOneWinner | cluster/contact.go:356-358 | over a whole run whose prunes forget past votes only, two members that each hold more than half of a term's votes, at any two moments, are the same member |
| ElectionTheorems.AtMostOneElected | cluster/contact.go:354-377 | no two members ever pass the majority test in the same term |
| ElectionTheorems.VotesAreConserved | cluster/contact.go:430-441 | in every state of such a run, a candidate's tally plus the grants to it still in flight are at most the distinct members that granted it their vote |
| ElectionTheorems.VotesOfATermAreAtMostOneEach | cluster/node.go:82-116 | summed over all candidates, the votes of a term that are tallied or in flight number at most one per member |
| ElectionTheorems.LeadershipIsEarned | cluster/contact.go:379-400 | in every run a member becomes its own leader only by confirming an election whose majority test it passed, with at least one reply and none without Success; it has won the term it then leads if and only if its own term is still that election's |
| ElectionTheorems.NoMessageSignsTheReceiver | cluster/contact.go:497-499 | no request and no reply makes its receiver its own leader |
| ElectionTheorems.ElectionTermsIncrease | cluster/contact.go:256-266 | in every run a member's elections come in strictly increasing terms, and only the start of fightElection begins one |
| ElectionTheorems.NoTermIsInvented | cluster/contact.go:465-476 | in every reachable state some member's own term bounds every cached term, every voted term and every term in flight, and is at most the number of elections begun |
| ElectionTheorems.MembersStayConsistent | cluster/service.go:390-423 | in every reachable state a recorded leader is not behind its follower, status and leader agree unless closed, no member is in its own alive set, and exactly the member that is fighting has one election past the guard |
| ElectionLeaders.LeaderTermNeverFalls | cluster/service.go:398-405 | no step of any run, a release followed by a new leader included, replaces a leader by one with a smaller recorded term |
| ElectionLeaders.LeaderIsInMyTerm | cluster/contact.go:465-499 | in every reachable state a recorded leader's term is exactly the member's own term |
| ElectionLeaders.NobodyKnowsALaterTerm | cluster/contact.go:571-582 | in every reachable state no member has cached a term above its own |
| ElectionLeaders.OwnTermDecides | cluster/contact.go:360-374 | comparing an election's term with every cached term decides exactly what comparing it with the own term does |
| ElectionLeaders.LeadersKeepTheirTerm | cluster/contact.go:567-570 | as long as a member leads, its own term stays the same |
| ElectionLeaders.LeadersHaveWon | cluster/contact.go:398-400 | in a run that signs in the term of the election only, every leader has won the term it leads in |
| ElectionLeaders.OneWinningLeader | cluster/contact.go:356-400 | members that lead in a term they have won, at any two moments of a safely pruned run, are one member |
| ElectionLeaders.OneLeaderPerTerm | cluster/contact.go:379-400 | over a run that prunes safely and signs in the term of the election only, there is at most one leader per term, at any two moments |
| ElectionHandlers.MembersAreSane | cluster/contact.go:403-651 | every member of every run is consistent and knows no term above its own, which the following rows assume |
| ElectionHandlers.LearningIsExact | cluster/contact.go:465-476 | a learned term raises exactly the member, the sender and the named leader, and changes nothing else |
| ElectionHandlers.AskIsAnswered | cluster/contact.go:412-421 | the answer carries the member's own term and names its leader unless the asker is ahead |
| ElectionHandlers.VoteIsAnswered | cluster/contact.go:430-441 | nobody is leader after a request for its vote; the vote is given, recorded and answered yes exactly if it is free and the term not past |
| ElectionHandlers.SignsWhoIsInItsTerm | cluster/service.go:390-416 | a member may sign exactly those it knows to be in its own term |
| ElectionHandlers.BroadcastIsFollowed | cluster/contact.go:447-499 | a broadcast behind the member changes nothing; any other is followed if its leader is configured |
| ElectionHandlers.SuccessIsTrue | cluster/contact.go:449-500 | Success in the answer about the leader is true if and only if the broadcast is not behind and the member then follows that leader |
| ElectionHandlers.BroadcastIsAnswered | cluster/contact.go:449-506 | exactly which answers a broadcast gets: Ok unless behind, and the answer about the leader unless it is unknown, or followed already without a confirmation asked for |
| ElectionHandlers.ReplyReleases | cluster/contact.go:567-570 | a reply of a later term makes a member with a leader release it and nothing else |
| ElectionHandlers.ReplyIsLearned | cluster/contact.go:571-616 | any other reply raises the terms and grows exactly the tally of a granted vote by one |
| ElectionHandlers.ReplyLeads | cluster/contact.go:586-635 | whom such a reply makes the member follow, in every case |
| ElectionHandlers.RefusedLeaderStepsDown | cluster/contact.go:629-635 | a leader refused by a reply has no leader afterwards |
| ElectionHandlers.ElectionBeginsIff | cluster/contact.go:215-266 | an election begins, one term up, exactly if the member is open, leaderless and not fighting |
| ElectionHandlers.AsksIffEnoughOnline | cluster/contact.go:274-290 | the question for a leader goes to every connected peer exactly if there is no leader and more than half of all members are online |
| ElectionHandlers.StandsIffLeaderless | cluster/contact.go:294-309 | a member goes on as candidate exactly if it has no leader and is neither closed nor leader |
| ElectionHandlers.PollsIffEnoughOnline | cluster/contact.go:312-336 | votes are asked for exactly by a leaderless candidate still in its term with more than half online; which exits start another election |
| ElectionHandlers.WinsIffMajority | cluster/contact.go:338-377 | an election is won exactly with more than half of the votes, and announced exactly if the term is still the member's own; otherwise another follows |
| ElectionHandlers.SignsIffAllAgree | cluster/contact.go:385-400 | a winner signs itself if and only if there is a reply and all say Success; otherwise another election follows |
| ElectionHandlers.LossStartsElectionIff | cluster/contact.go:534-563 | a lost session starts an election exactly if it was the leader's, or at most half are left online and none is under way |
| ElectionHandlers.PruneDropsTen | cluster/contact.go:183-202 | a vote map of at most 20 entries stays; of a larger one exactly ten entries go, all smaller than those kept |
| ElectionTheorems.RunKeepsVotes | cluster/node.go:100-116 | every state of such a run has one vote per member and term, tallies backed by counted votes, each grant in flight once, and a majority behind every passed majority test |
| ElectionTheorems.RunIsGood | cluster/contact.go:208-401 | the invariants of members, messages, elections and terms hold in every state of every run, however votes are pruned |
| ElectionInvariants.ActionLawful | cluster/contact.go:403-651 | every step of every kind keeps its member in order, grants at most one unrecorded vote and answers it once, tallies at most one vote it was sent or gave itself, and begins, wins and confirms elections only in the phases meant for it |
| ElectionFindings.LeadsATermItDidNotWin | cluster/contact.go:380-400 | a run of two members that ends with one leading a term it has not won |
| ElectionFindings.TwoLeadersInOneTerm | cluster/contact.go:398-400 | a run of two members without pruning that ends with both leading in term 2 |
| ElectionFindings.TwoMajoritiesInOneTerm | cluster/contact.go:193-202 | without the pruning assumption safety fails: a run of three members in which two pass the majority test of term 1 and hold a majority of it |
| ClusterRules.PruneForgetsNoVoteIffPast | cluster/contact.go:193-202 | after pruning, no term voted in is open for a second vote if and only if every dropped term is behind the member's own |
| ClusterRules.PruneCanForgetVotes | cluster/contact.go:193-202 | a member still in term 1 or below with more than 20 votes can vote again in each of the terms 1 to 10 after a prune |
| ClusterRules.SignLeaderKeeps | cluster/service.go:390-416 | signing keeps the member consistent and never lowers the recorded leader term; a refusal changes nothing, otherwise the new leader is recorded |
| ClusterRules.BroadcastKeeps | cluster/contact.go:447-506 | a broadcast keeps the member consistent, raises its own term exactly to the message's if that is larger, and can only install the named leader |
| ClusterRules.ReplyKeeps | cluster/contact.go:565-648 | a reply keeps the member consistent, lowers no term, touches no vote and never makes the member its own leader |
| Clusters.Node.VoteToNode | cluster/node.go:100-116 | a vote is granted exactly if none is recorded for the term and the term is not behind, and only then recorded |
| Clusters.Node.SetTerm | cluster/node.go:133-142 | a term is raised or left alone, and the answer says which |
| Clusters.Node.AddVoteCount | cluster/node.go:82-89 | the tally of one term grows by one |
| Clusters.Cluster.SignLeader | cluster/service.go:390-416 | refines ClusterRules.SignLeader and answers whether signing was allowed |
| Clusters.Cluster.ReleaseLeader | cluster/service.go:418-423 | refines ClusterRules.ReleaseLeader |
| Clusters.Cluster.StartUp | cluster/service.go:116-124 | the first call, and only that, makes the start step |
| Clusters.Cluster.Close | cluster/service.go:133-155 | makes the close step: closed, and no connector left |
| Clusters.Cluster.SessionConnected | cluster/contact.go:528-532 | makes the connect step |
| Clusters.Cluster.HandleSessionClosed | cluster/contact.go:534-563 | refines OnSessionClosed, lost leader and lost majority included, and says whether another election follows |
| Clusters.Cluster.HandleAskLeader | cluster/contact.go:412-421 | the answer names the leader and its term only if that term is not behind the asker's |
| Clusters.Cluster.HandleGetVote | cluster/contact.go:430-441 | a leader steps down first; the new state and the answer are those of the vote rule |
| Clusters.Cluster.HandleBroadcast | cluster/contact.go:447-506 | the new state and exactly the replies of the broadcast rule, rejection, repeated and unknown leader included |
| Clusters.Cluster.HandleReply | cluster/contact.go:565-648 | the new state of the reply rule for every kind of reply |
| Clusters.Cluster.PruneVotes | cluster/contact.go:183-202 | of a vote map over 20 entries exactly the ten smallest terms go, and the rest is unchanged |
| Clusters.Cluster.FightStart | cluster/contact.go:215-266 | guards and new term of the start step |
| Clusters.Cluster.FightAsk | cluster/contact.go:274-290 | one round of the wait: leaves, goes on waiting, or asks every connected peer, as the ask step does |
| Clusters.Cluster.FightStand | cluster/contact.go:294-309 | goes on as candidate exactly when the stand step does |
| Clusters.Cluster.FightPoll | cluster/contact.go:312-336 | one round of the candidate's wait: leaves, with or without another election, or asks every connected peer for its vote, as the poll step does |
| Clusters.Cluster.FightCount | cluster/contact.go:338-377 | own vote, majority test and comparison with every known term have the outcome of the count step |
| Clusters.Cluster.FightConfirm | cluster/contact.go:385-400 | signs itself exactly if there is a reply, all agree and signing is allowed; otherwise another election follows |
| PoolMachine.NoTaskIsStranded | gopool/pool.go:75-96 | at every atomic step of every run with a task queued, some live worker will look at the queue again, or some submitter is about to launch one or has yet to decide |
| PoolMachine.QuietPoolIsEmpty | gopool/worker.go:24-57 | when nobody is inside the pool, the queue is empty, both counters are zero and every submitted task was taken |
| PoolMachine.TasksAreConserved | gopool/worker.go:27-40 | tasks are taken once each in the order of submission; the task counter is exact up to operations under way, of which at most one is a worker's |
| PoolMachine.WorkersAreBounded | gopool/pool.go:90-95 | with caps up to c and at most n callers inside, workers and callers that have decided to spawn never exceed max(c, 1) + n - 1 |
| PoolRuns.EveryCallIsAccountedFor | gopool/pool.go:75-96 | at every atomic step of every run, each call's task is with its caller, in the queue, with one worker, or has run: the calls of a task number exactly these |
| PoolRuns.QuietPoolRanEverything | gopool/worker.go:41-54 | when nobody is inside the pool, every task has run exactly as often as it was handed in |
| PoolRuns.SpawnsIff | gopool/pool.go:90-95 | undisturbed, a caller starts a worker if and only if the task count reaches the threshold and the worker count is below the cap, or there is no worker; otherwise it returns |
| PoolRuns.LeavesOnlyIf | gopool/pool.go:90-91 | in every run a caller returns without a worker only after reading a worker count other than zero, and a task count below the threshold or a worker count not below the cap |
| PoolRuns.SpawnsOnlyIf | gopool/pool.go:90-91 | in every run a caller decides to start a worker only after reading no worker, or a task count at the threshold and a worker count below the cap |
| PoolRuns.CapIsTheOneSet | gopool/pool.go:114-116 | the cap in force is the one set last |
| PoolMachine.RunKeepsInv | gopool/pool.go:75-112 | mutual exclusion, both counters, no stranded task and first-in-first-out hold in every state of every run |
| PoolMachine.NotStrandedKept | gopool/worker.go:34-38 | no operation strands a task, because the decrement happens in the critical section that saw the queue empty |
| TaskQueue.Pool.Get | gopool/pool.go:76-76 | a node from the node pool is in no queue and with no submitter or worker |
| TaskQueue.Pool.Enqueue | gopool/pool.go:79-87 | the queue gains the node at its end although the tail pointer may be stale |
| TaskQueue.Pool.Dequeue | gopool/worker.go:28-33 | the head leaves, or nil exactly for an empty queue |
| TaskQueue.Pool.Recycle | gopool/pool.go:31-40 | wiping a node that ran leaves the queue and its contents alone |
| TaskQueue.Pool.Submit | gopool/pool.go:75-87 | the queue gains exactly the submitted function, whichever node carries it |
| Flight.EveryoneGetsTheSameAnswer | concurrency/singlefilgt.go:84-134 | in every run whoever started or joined a call gets nothing, or, once it completed with a normal return, exactly one result, with the same value, error and shared flag for all, true if and only if the call had more than one member |
| FlightRuns.AnswerIsTheFunctionsResult | concurrency/singlefilgt.go:191-199 | whoever started or joined a call gets exactly one result once it is over: the value and the error the function returned, shared if and only if there was more than one of them |
| FlightRuns.NoAnswerWithoutAReturn | concurrency/singlefilgt.go:94-98 | after a panic or Goexit of the function nobody gets a result and no Do of the call returns normally |
| FlightRuns.RegisteredIffInFlight | concurrency/singlefilgt.go:84-154 | a call is registered for a key if and only if it was started for it and since then neither completed nor the key forgotten |
| FlightRuns.JoinsIffInFlight | concurrency/singlefilgt.go:89-106 | a Do waits for a call if and only if that call is in flight for its key; with none in flight it leads one of its own |
| FlightRuns.ForgetStartsAfresh | concurrency/singlefilgt.go:201-208 | after Forget the next Do of the key does not wait for an earlier call |
| FlightRuns.OneReceivePerChannel | concurrency/singlefilgt.go:110-134 | nobody receives twice from the channel of a DoChan |
| Flight.SendsNeverBlock | concurrency/singlefilgt.go:168-171 | whenever a call completes in a run, the slot of each of its channels is empty |
| Flight.OneExecutionPerKey | concurrency/singlefilgt.go:101-106 | executions of a key in flight are at most one more than its Forgets; a key never forgotten has exactly its registered call in flight |
| Flight.DoneCallsAreFrozen | concurrency/singlefilgt.go:49-62 | over every run a completed call never changes and is not registered, an outcome is set once, and members and channels only grow |
| Flight.RegistrationsLast | concurrency/singlefilgt.go:149-154 | a registration ends only by Forget or by its own call's completion, so completing a forgotten call spares a newer one |
| Flight.RunKeepsInv | concurrency/singlefilgt.go:137-208 | calls, registrations, members, callers, channels and executions agree in every state of every run |
| Singleflight.Group.EnterDo | concurrency/singlefilgt.go:84-104 | the locked section makes exactly the machine's Do step and says whether the caller leads |
| Singleflight.Group.EnterDoChan | concurrency/singlefilgt.go:114-129 | the locked section makes exactly the machine's DoChan step with a new channel |
| Singleflight.Group.FnDone | concurrency/singlefilgt.go:175-193 | storing the outcome is the machine's step for the end of the function |
| Singleflight.Group.Complete | concurrency/singlefilgt.go:149-173 | the deferred section makes exactly the completion step |
| Singleflight.Group.SendResults | concurrency/singlefilgt.go:168-171 | every channel of the call, and no other, gets the result, and no send finds its slot taken |
| Singleflight.Group.LeaveDo | concurrency/singlefilgt.go:92-107 | what Do returns, to the leader or to a duplicate, is the result the machine records |
| Singleflight.Group.Forget | concurrency/singlefilgt.go:204-208 | makes exactly the machine's Forget step |
| Framing.ChunksDoNotMatter | nio/handler.go:90-117 | for any bytes, however the stream is cut, the messages delivered and the state left are those of the whole stream at once |
| Framing.RoundTrip | nio/codec.go:62-112 | any messages that fit, encoded in a row and cut anywhere, are delivered with flags and bodies in order, and nothing is left over |
| Framing.ContentsArriveIffFit | nio/codec.go:62-112 | the flags and bodies delivered for any list, cut anywhere, are those sent if and only if every body is shorter than 2^32 - 1 bytes |
| Framing.LongMessagesAreLost | nio/codec.go:72-74 | every longer message is an input that does not arrive as sent |
| Framing.RoundTripIffFits | nio/codec.go:72-74 | any list of messages, cut anywhere, is delivered with lengths, flags and bodies and nothing left over if and only if every body is shorter than 2^32 - 1 bytes |
| Framing.StreamIsConserved | nio/codec.go:82-112 | for any bytes, what was delivered, what was read of the message under way and what is buffered are exactly the stream, in order |
| Framing.DecodeProgress | nio/handler.go:93-116 | each decoded message uses up a byte, and an incomplete one leaves a state in which decoding again changes nothing |
| Framing.DrainWaits | nio/handler.go:93-116 | after the inner loop nothing complete is left |
| Framing.DrainMore | nio/handler.go:90-116 | draining now and again after more input is draining once |
| Framing.BytesOfNumber | nio/codec.go:74-87 | the length field's bytes and number determine each other |
| Framing.WireFormat | nio/codec.go:72-79 | the bytes on the wire: length of flag and body as four bytes, most significant first and modulo 2^32, then the flag, then the body |
| Codec.EncodeMsg | nio/codec.go:62-80 | refines Framing.Encode, the length wrapping at 32 bits |
| Codec.DecodeMsg | nio/codec.go:82-112 | refines Framing.Decode, on success and while waiting |
| Codec.DeliverAll | nio/handler.go:93-116 | refines Framing.Drain |
| Codec.ReadIo | nio/handler.go:29-118 | over any sequence of reads and errors, what is delivered is what feeding the heard chunks yields; the third error in a row ends it |
| Codec.HeardUntilTheEnd | nio/handler.go:42-88 | the read loop hears all data up to the end of the connection or the third error in a row, whichever is first |
| WheelRules.RunsOnTimeIffNotLastBucket | timing_wheel/timing_wheel.go:123-151 | over every interleaving of additions and ticks, a task added for a time, or for now if that is past, was run by the tick that passed it if and only if the time does not fall on the last of the 32 buckets; no task runs twice |
| WheelRules.DueWhenAsked | timing_wheel/timing_wheel.go:46-48 | in every run a task is due when asked for, or at once if that time is past or now |
| WheelRules.ClockCountsTicks | timing_wheel/timing_wheel.go:24-30 | the clock shows the start plus one second per tick |
| WheelRules.WaitsUntilDue | timing_wheel/timing_wheel.go:130-139 | until then a task of any other bucket is in its slot and has not run |
| WheelRules.AddPanicsIffAllLater | timing_wheel/timing_wheel.go:66-79 | in every reachable state an addition follows a nil pointer if and only if its bucket is in use and everything there is due later |
| WheelFindings.AddCanPanic | timing_wheel/timing_wheel.go:68-77 | a run after which adding a task that is due at once follows a nil pointer |
| WheelFindings.RunsEarlyIffNoJam | timing_wheel/timing_wheel.go:130-139 | over every run, a task added to the last bucket runs 32 ticks before its time if and only if adding it left the bucket without a jam; otherwise it never runs |
| WheelFindings.JamLasts | timing_wheel/timing_wheel.go:130-133 | over every run a jam lasts for good, and after it no task of the last bucket runs |
| WheelFindings.JamStarts | timing_wheel/timing_wheel.go:50-64 | a task for the current tier jams an empty last bucket |
| WheelFindings.NeverRuns | timing_wheel/timing_wheel.go:130-139 | runs in which a task due at the end of the first round never runs, however long the wheel turns |
| WheelFindings.RunsEarly | timing_wheel/timing_wheel.go:130-139 | runs in which a task due at the end of the second round runs at the end of the first |
| WheelRules.SlotForIsExact | timing_wheel/timing_wheel.go:46-57 | the slot computed is the one whose time is the task's, or now if that is past |
| WheelRules.SlotIsUnique | timing_wheel/timing_wheel.go:50-57 | no other slot has that time |
| WheelRules.IncrKeepsStart | timing_wheel/timing_wheel.go:24-34 | every tick keeps timestamp - (32 * tier + index) and the index in range |
| WheelRules.InsertKeepsSorted | timing_wheel/timing_wheel.go:63-101 | insertion keeps a bucket strictly sorted by tier and does not replace its head |
| WheelRules.InsertAt | timing_wheel/timing_wheel.go:67-100 | insertion appends the task to its tier and changes no other |
| WheelRules.TickAt | timing_wheel/timing_wheel.go:130-148 | a tick that fires empties one slot and runs exactly its tasks; every other slot is unchanged |
| WheelRules.RunKeepsInv | timing_wheel/timing_wheel.go:43-154 | every added task has run, or is once in the slot of its time, in every state of every run |
| TimingWheels.TimingWheel.AddOnce | timing_wheel/timing_wheel.go:43-102 | refines WheelRules.AddOnce, and reports a panic exactly when that is not possible |
| TimingWheels.TimingWheel.InsertInto | timing_wheel/timing_wheel.go:63-101 | the pointer loop refines Insert although it leaves stale prev links |
| TimingWheels.TimingWheel.Tick | timing_wheel/timing_wheel.go:130-148 | refines WheelRules.Tick and returns the tasks it runs |
| TimingWheels.TimingWheel.Round | timing_wheel/timing_wheel.go:125-151 | 32 iterations of the loop are 32 ticks, and leave counter and index in step |
| LinkedLists.LinkedList.AddLast | basic/linkedlist.go:35-51 | appends to the sequence of values |
| LinkedLists.LinkedList.AddFirst | basic/linkedlist.go:54-70 | prepends |
| LinkedLists.LinkedList.AddBefore | basic/linkedlist.go:73-98 | inserts at the index, or fails and changes nothing exactly if it is out of range |
| LinkedLists.LinkedList.Remove | basic/linkedlist.go:101-109 | removes and returns the value at the index, or nil and no change |
| LinkedLists.LinkedList.RemoveData | basic/linkedlist.go:112-136 | removes the first occurrence, and says whether there was one |
| LinkedLists.LinkedList.RemoveUntil | basic/linkedlist.go:139-169 | drops the prefix up to and including the index, or fails and changes nothing |
| LinkedLists.LinkedList.RemoveFirst | basic/linkedlist.go:172-196 | the value returned followed by the rest is the old list; nil for an empty one |
| LinkedLists.LinkedList.RemoveLast | basic/linkedlist.go:199-223 | the rest followed by the value returned is the old list; nil for an empty one |
| LinkedLists.LinkedList.Clear | basic/linkedlist.go:233-246 | empties the list and wipes every node it had |
| LinkedLists.LinkedList.GetNode | basic/linkedlist.go:313-331 | the node at the index, from whichever end the walk starts |
| LinkedLists.LinkedList.DeleteNode | basic/linkedlist.go:334-364 | unlinks exactly that node, wipes it and returns its value |
| LinkedLists.LinkedList.Get | basic/linkedlist.go:269-276 | the value at the index, or nil |
| LinkedLists.LinkedList.GetFirst | basic/linkedlist.go:249-256 | the first value, or nil |
| LinkedLists.LinkedList.GetLast | basic/linkedlist.go:259-266 | the last value, or nil |
| LinkedLists.LinkedList.Loop | basic/linkedlist.go:279-293 | the pairs shown to the callback, in order, up to the first it refuses |
| LinkedLists.LinkedList.ReverseLoop | basic/linkedlist.go:296-310 | the same over the reversed list, with the same indices |
| LinkedLists.LoopsMirror | basic/linkedlist.go:279-310 | for a callback that never stops, ReverseLoop shows the reverse of what Loop shows |
| LinkedLists.VisitsUntilRefused | basic/linkedlist.go:283-292 | what is shown is a prefix, all of it accepted but possibly the last, and all of the list unless the last was refused |
| OrderedSets.OrderedMap.Put | basic/orderedmap.go:50-59 | the value is stored, and a new key goes to the end |
| OrderedSets.OrderedMap.Get | basic/orderedmap.go:62-68 | found exactly for a listed key, with its value; nil otherwise |
| OrderedSets.OrderedMap.Remove | basic/orderedmap.go:73-92 | the key leaves store and list, the order of the others stays |
| OrderedSets.OrderedMap.Size | basic/orderedmap.go:95-100 | the store's size is the number of listed keys |
| OrderedSets.OrderedMap.Values | basic/orderedmap.go:119-128 | the array sized by the store is filled exactly, in key order |
| OrderedSets.OrderedSet.Add | basic/orderedset.go:53-61 | each item not yet in the set goes to the end; index and store stay inverse, keys increase |
| OrderedSets.OrderedSet.Remove | basic/orderedset.go:66-75 | items go one by one up to the first that is not there |
| OrderedSets.OrderedSet.Contains | basic/orderedset.go:78-88 | true exactly if every item is in the set |
| OrderedSets.OrderedSet.Values | basic/orderedset.go:96-98 | the items in order of insertion, without repetition |
| OrderedSets.RemoveIsCompleteIff | basic/orderedset.go:66-75 | Remove deletes every listed item if and only if nothing of the set is left to delete from the point where it stops |
| OrderedSets.ReachedIs | basic/orderedset.go:67-71 | that point is the first item the set never had or that the list names a second time |
| OrderedSets.RemoveStopsEarly | basic/orderedset.go:66-75 | removing a missing item first keeps the next one in the set |
| OrderedSets.InsertionOrder | basic/orderedset.go:53-75 | after any history of calls with lists the set holds exactly the items inserted and not deleted since, ordered by those insertions |
| OrderedSets.AddingOneByOne | basic/orderedset.go:53-61 | adding a list is adding its items one by one |
| OrderedSets.RemovingOneByOne | basic/orderedset.go:66-75 | removing a list is removing one by one the items that are reached |

## Left out

- Sockets, dialing, session ids and close retries: only that a message arrives at most once is kept.
- Gzip and JSON: bodies are byte sequences, a NodeMsg is a datatype.
- Wall-clock time, sleeps, back-off, logging, metrics and event channels of the cluster.
- Matching of replies to requests in sendAndWait: the replies collected are arbitrary, which covers any matching.
- Interleavings inside one message handler of the cluster: a handler is one step.
- The heartbeat's broadcasts and timeouts as heap methods: they are steps of the transition system only; its pruning is also a method.
- Liveness of the election, which depends on timing.
- Single mode of StartUp, where a member signs itself without an election; publishing of jobs; the unused broadcastLeader.
- Integer width of terms, votes, timestamps and counters, which would have to overflow 32 or 64 bits; the length field of a message is modelled with its 32 bits, on a platform with 64-bit int.
- Panics inside recovery handlers, panicking pool tasks beyond their being recovered, and runtime.Goexit in a pool task.
- The process crash after a panic in a function called through DoChan, and stack traces: a call that did not return is an outcome of its own and sends nothing.
- Calls of AddTask before Init, and data races between AddOnce and the tick loop: each is one step.
- PoolMachine: reading cap and both counters is atomic, the lock is fair to nobody in particular, and what a task does is not modelled.
- OrderedSets.OrderedMap.Remove: the key list is a value, so a slice handed out earlier by Keys does not show the shifting in place.
- LinkedLists.LinkedList.Loop: the callback is a pure function; one that calls back into the list would deadlock on its lock.
- Locks of the containers: each method is one step.
- `task/`, `tools/`, `bean/`, `csv/`, `ssh/`, `obsidian/`, `log/`, `testify/`, `func/`, `vec/`, `gopl/`, `abstract/` and the time types of `basic/`: library wrappers, file and network work, numeric helpers and demonstrations.
