# Four systems programs

A Dafny model of four small C programs and proofs about them.

**The championship** (`Tournament*.dfy`). Fourteen battle processes and fifteen
player processes form a tree joined by pipes; seven FIFOs carry the losers of
the upper half to agents in the lower half. `TournamentNetwork` is the step
relation: each process has a program counter, each pipe is what has been
written to it and how much of that has been read. `TournamentEvaluator` is a
recursive bracket with no processes. The main results say that every
interleaving follows the evaluator, that relays change nothing, that no state
is stuck, that every run ends, and that every player is live in one place.

**The recommendation server** (`Movie*.dfy`). `MovieSort` and `MovieMerge` are
the in-place algorithms on two parallel arrays; `MovieWorkers` and `MovieLevels`
let the threads of a level interleave one loop iteration at a time;
`MovieServer` proves that the split, the sorts and the merge tree give the one
sorted list, for every power-of-two number of chunks; `MovieRequest` is the same
pipeline on arrays. `MovieProcess`, `MovieProcessServer` and `MovieProcessRequest`
are the process server, whose line 349 stores the score of one movie for several.
It is proved exactly when the list it ends with is right, and a condition under
which the titles are; `MovieFourChunks` shows lists for which they are not.

**The thread library** (`Scheduler*.dfy`, `Thread*.dfy`). `SchedulerQueues` says
what an interrupt, a read and an exit do to the queues, `SchedulerArrays` does
it in the two arrays, `SchedulerRuns` proves what runs keep and how long a ready
thread waits. `ThreadBodies` and `ThreadRuns` show that what a thread prints
does not depend on the scheduling, and what it is.

**The booking servers** (`Booking*.dfy`). `BookingCommand` is the command parser.
`BookingProtocol` lets any number of read and write servers interleave, one
system call on locks or the record file at a time; locks are those of `fcntl()`
in the System Interfaces volume of POSIX.1 (IEEE Std 1003.1): they belong to a
process and never conflict with its own. `BookingInvariant` and `BookingRuns`
prove exclusion, no lost update and conservation. `BookingInts` says how far the
tests on a command are true of 32-bit ints. `BookingServer` is one server process
with its tables changed in place.

Assumptions taken from the programs: in the championship HP and ATK start above
0 and the ended flag clear; in the movie server scores are at least 0, title
bytes come after the tab, and there are at least as many movies as chunks.

## Model

| member | source | states |
|---|---|---|
| TournamentBracket.RoutingIsOneToOne | hw2_pvp-championship-lala-ju/player.c:207-234 | losers of the seven zone A battles go to the agents 8..14 one to one, and each agent depends only on a battle decided before it is needed |
| TournamentBracket.LosersMeet | hw2_pvp-championship-lala-ju/player.c:210-234 | which agent each loser goes to and whom it meets there: G and I in M, H and J in N, then D in K, E in L, and B in C |
| TournamentBout.Boost | hw2_pvp-championship-lala-ju/battle.c:267-309 | the attack used in a battle is doubled exactly for the attribute that battle favours |
| TournamentBout.FavouredAttribute | hw2_pvp-championship-lala-ju/battle.c:267-309 | which battles double which attribute, and that the others leave the attack as it is |
| TournamentBout.FirstBlow | hw2_pvp-championship-lala-ju/battle.c:312-338 | the side with less HP, or on equal HP the smaller id, takes its full attack off the other first; the other strikes back only if it is still alive |
| TournamentBout.FightRound | hw2_pvp-championship-lala-ju/battle.c:261-345 | the statement-by-statement round gives the round function, of which FirstBlow and RoundIsFair say all: the blows, their order, the flags |
| TournamentBout.RoundIsFair | hw2_pvp-championship-lala-ju/battle.c:311-345 | from two living players a round strictly lowers the HP total, fells at most one side, and changes nothing but HP, battle and flag |
| TournamentBout.BoutShape | hw2_pvp-championship-lala-ju/battle.c:245-363 | in every round of a bout both sides are alive and unflagged until the last one, after which exactly one is down and both are flagged |
| TournamentBout.BoutIsShort | hw2_pvp-championship-lala-ju/battle.c:245-363 | a bout has fewer rounds than the two players have HP together |
| TournamentBout.FightBout | hw2_pvp-championship-lala-ju/battle.c:241-363 | the round loop writes exactly the rounds of the bout and stops with one side down |
| TournamentLoops.RelayLoop | hw2_pvp-championship-lala-ju/battle.c:373-402 | passing mode forwards statuses and replies unchanged and in order and stops at the first reply with no HP left or of the ended battle A, not before |
| TournamentLoops.PlayerLoop | hw2_pvp-championship-lala-ju/player.c:182-286 | the nested player loops send, for each reply, the status the network model sends, and end where it leaves or hands over |
| TournamentEvaluator.DecideIsReady | hw2_pvp-championship-lala-ju/player.c:202-284 | the winner of a battle goes on alive with at most its original HP, its flag clear; the loser can be revived by an agent |
| TournamentEvaluator.RecoversHalf | hw2_pvp-championship-lala-ju/player.c:284 | a winner gets back half of the HP it has lost, rounded down |
| TournamentEvaluator.HpOnEntry | hw2_pvp-championship-lala-ju/player.c:203-284 | the winner of a battle enters the next one with half of its loss back, an agent's player with all of it |
| TournamentStreams.StreamShape | hw2_pvp-championship-lala-ju/player.c:184-286 | all statuses sent up an edge and replies sent down it form one conversation over every battle its player takes part in |
| TournamentStreams.StreamEnd | hw2_pvp-championship-lala-ju/battle.c:373-376 | the last reply of an edge, and its battle, is where its player is eliminated or wins battle A, and it stops every relay |
| TournamentStreams.LeafStream | hw2_pvp-championship-lala-ju/battle.c:370-402 | the streams of an edge are the unchanged tail of the streams of the player process below it |
| TournamentPlan.RelayStops | hw2_pvp-championship-lala-ju/battle.c:373-376 | a relay goes on after every reply of its edge but the last |
| TournamentPlan.FeedsIff | hw2_pvp-championship-lala-ju/player.c:205-274 | a player process hands itself to an agent exactly if it is eliminated in that agent's zone A battle |
| TournamentPlan.EvaluatorIsCoherent | hw2_pvp-championship-lala-ju/battle.c:245-477 | fed with the streams the bracket evaluator predicts, every process produces the streams it predicts |
| TournamentBattleSteps.KeepBattleStep | hw2_pvp-championship-lala-ju/battle.c:245-477 | each step of a battle process keeps the invariant that every pipe has carried a prefix of its predicted stream |
| TournamentPlayerSteps.KeepPlayerStep | hw2_pvp-championship-lala-ju/player.c:149-286 | each step of a player or agent process keeps that invariant |
| TournamentRuns.RunHolds | hw2_pvp-championship-lala-ju/battle.c:245-477 | the invariant holds in every state of every run |
| TournamentRuns.Progress | hw2_pvp-championship-lala-ju/battle.c:368-476 | in every such state all processes have exited or some process can step, waits for children and FIFOs included |
| TournamentTermination.StepWorks | hw2_pvp-championship-lala-ju/battle.c:245-452 | every step of any process strictly raises the work done |
| TournamentTermination.StepsAreBounded | hw2_pvp-championship-lala-ju/player.c:184-286 | no run has more steps than the work the evaluator plans |
| TournamentChampionship.ScheduleIndependence | hw2_pvp-championship-lala-ju/battle.c:245-477 | in every run every pipe carries a prefix of the evaluator's streams, and only the evaluator's champion is ever announced |
| TournamentChampionship.BattlesFollowEvaluator | hw2_pvp-championship-lala-ju/battle.c:340-363 | a battle past its rounds has sent both children exactly the evaluator's final statuses |
| TournamentChampionship.NoDeadlock | hw2_pvp-championship-lala-ju/player.c:149-158 | in every reachable state some process can step unless all have exited |
| TournamentChampionship.RunsEnd | hw2_pvp-championship-lala-ju/battle.c:245-363 | the number of steps of every run is bounded |
| TournamentChampionship.RunsComplete | hw2_pvp-championship-lala-ju/battle.c:453-476 | every run can be continued until all processes have exited |
| TournamentChampionship.CompleteRunsAgree | hw2_pvp-championship-lala-ju/battle.c:453-469 | all complete runs announce the evaluator's champion once and have carried the same streams |
| TournamentChampionship.EntrantIsReal | hw2_pvp-championship-lala-ju/player.c:78-179 | who comes up from any node is one of the eight real players, with the HP it started with as its full HP |
| TournamentChampionship.EntersAlive | hw2_pvp-championship-lala-ju/player.c:182-284 | every player enters every battle with HP above 0 and at most its original HP, its flag clear |
| TournamentChampionship.AgentsStartWhole | hw2_pvp-championship-lala-ju/player.c:209 | an agent's player starts again with the HP it started the championship with |
| TournamentChampionship.OpponentsDiffer | hw2_pvp-championship-lala-ju/battle.c:39-111 | the two sides of every battle are different real players |
| TournamentChampionship.LosesAtMostTwice | hw2_pvp-championship-lala-ju/player.c:203-274 | two battles lost by the same player are one of zone A and one outside it |
| TournamentChampionship.OneLiveSlot | hw2_pvp-championship-lala-ju/player.c:203-268 | in every reachable state a real player is live in at most one player process, agent process or FIFO |
| TournamentChampionship.RelaysAreTransparent | hw2_pvp-championship-lala-ju/battle.c:370-444 | through any chain of relays the ancestor gets the player's statuses and the player the ancestor's replies unchanged and in order, with at most one message under way |
| MovieOrder.DecorationExact | hw4_simple-movies-recommendation-system-lala-ju/lib.c:34-51 | two titles compare alike with and without the secret exactly if neither is a proper prefix of the other, or what follows in the longer one comes after the secret |
| MovieOrder.DecorationKeepsOrder | hw4_simple-movies-recommendation-system-lala-ju/lib.c:34-51 | so titles of bytes above the tab compare alike with and without the secret |
| MovieOrder.TabsBreakOrder | hw4_simple-movies-recommendation-system-lala-ju/lib.c:34-51 | a title and its prefix, with a tab between, whose order turns round |
| MovieOrder.OrderedIsUnique | hw4_simple-movies-recommendation-system-lala-ju/lib.c:70-86 | there is only one arrangement of given movies by score descending and title ascending |
| MovieOrder.CompareIsLexicographic | hw4_simple-movies-recommendation-system-lala-ju/lib.c:80 | a title comes first exactly if at the first difference it ends or has the smaller byte |
| MovieOrder.SecretText | hw4_simple-movies-recommendation-system-lala-ju/lib.c:38 | the secret, character by character |
| MovieOrder.DecoratedSort | hw4_simple-movies-recommendation-system-lala-ju/lib.c:10-30 | putting raw titles in order and then decorating them gives the decorated movies in order |
| MovieSort.ArgMax | hw4_simple-movies-recommendation-system-lala-ju/lib.c:70-86 | the scan finds a movie that comes before all remaining ones |
| MovieSort.Swap | hw4_simple-movies-recommendation-system-lala-ju/lib.c:88-96 | exactly two entries change places in both arrays |
| MovieSort.Sort | hw4_simple-movies-recommendation-system-lala-ju/lib.c:10-30 | the chunk ends up holding its decorated movies in order, each with the secret once, and nothing outside changes |
| MovieMerge.MergeOfSorts | hw4_simple-movies-recommendation-system-lala-ju/server.c:145-189 | merging two sorted lists is sorting them together |
| MovieMerge.Scan | hw4_simple-movies-recommendation-system-lala-ju/server.c:135-176 | the comparison loop places the front of the merge in temporary arrays that are large enough and leaves one run used up |
| MovieMerge.MoveRest | hw4_simple-movies-recommendation-system-lala-ju/server.c:178-187 | moving the rest of the left run to the end in place, front to back, loses nothing |
| MovieMerge.WriteBack | hw4_simple-movies-recommendation-system-lala-ju/server.c:189-195 | the temporary movies come to the front of the span and nothing else changes |
| MovieMerge.TrueMerge | hw4_simple-movies-recommendation-system-lala-ju/server.c:127-197 | the span then holds the merge of both runs and nothing else has changed |
| MovieWorkers.StepKeepsOk | hw4_simple-movies-recommendation-system-lala-ju/server.c:98-197 | each loop iteration of a sorting or merging thread stays within its own part, in bounds, and on its way to its target |
| MovieLevels.LevelMeetsTargets | hw4_simple-movies-recommendation-system-lala-ju/server.c:206-216 | however the threads of a level interleave, at the join every part holds its target |
| MovieLevels.AnyOrderSameResult | hw4_simple-movies-recommendation-system-lala-ju/server.c:206-216 | any two interleavings of a level leave the same list |
| MovieLevels.EnoughTurns | hw4_simple-movies-recommendation-system-lala-ju/server.c:213-216 | a thread that gets a bounded number of turns is over |
| MovieServer.ChooseBase | hw4_simple-movies-recommendation-system-lala-ju/server.c:79-90 | the number of chunks is a power of two, no larger than a non-empty list, with chunks of at least 1000 and at most 3750 movies where there are more than one and fewer than 32 |
| MovieServer.Thresholds | hw4_simple-movies-recommendation-system-lala-ju/server.c:79-90 | the lengths from which on the list is cut into more chunks |
| MovieServer.PairOfRuns | hw4_simple-movies-recommendation-system-lala-ju/server.c:135-143 | the spans of a merge level are the pairs of neighbouring runs, and the right run is at least as long as the left and less than base longer |
| MovieServer.PairsAreMerged | hw4_simple-movies-recommendation-system-lala-ju/server.c:199-221 | merging all pairs takes sorted runs of length u, the last one longer, to half as many sorted runs of length 2u |
| MovieServer.ServerSorts | hw4_simple-movies-recommendation-system-lala-ju/server.c:379-405 | for every power-of-two number of chunks and every thread order the server can end with a list exactly if it is the decorated movies sorted |
| MovieServer.ServerIsOneSort | hw4_simple-movies-recommendation-system-lala-ju/server.c:79-111 | with the number of chunks the server chooses the result is that of one sort of the whole list |
| MovieServer.AnswerIsTheOrder | hw4_simple-movies-recommendation-system-lala-ju/server.c:379-405 | that result is the one permutation of the decorated movies ordered by score descending, then title ascending |
| MovieServer.AnswerInPlainTerms | hw4_simple-movies-recommendation-system-lala-ju/server.c:379-405 | scores never rise along the result, equal scores stand by title, and every title is that of a movie with the secret behind it |
| MovieRequest.Request.Divide | hw4_simple-movies-recommendation-system-lala-ju/server.c:79-93 | base and size are set for the length of the list |
| MovieRequest.Request.SortChunk | hw4_simple-movies-recommendation-system-lala-ju/server.c:98-111 | a sorting thread sorts its chunk, the last one with the remainder, and touches nothing else |
| MovieRequest.Request.MergeLevel | hw4_simple-movies-recommendation-system-lala-ju/server.c:206-216 | a level, its threads served in any order, keeps the run invariant with doubled length |
| MovieRequest.Request.MergeLevels | hw4_simple-movies-recommendation-system-lala-ju/server.c:199-221 | the level loop ends with one sorted run |
| MovieRequest.Request.Serve | hw4_simple-movies-recommendation-system-lala-ju/server.c:379-405 | the arrays end up with the decorated movies sorted |
| MovieProcess.TitlesAgree | hw4_simple-movies-recommendation-system-lala-ju/server.c:301-359 | a merging process puts the titles in the order the threads' merge does |
| MovieProcess.ProcessMergeIsMerge | hw4_simple-movies-recommendation-system-lala-ju/server.c:343-352 | one process merge keeps the scores exactly if all left movies that do not strictly precede the last right movie have one score |
| MovieProcess.MergeAsProcess | hw4_simple-movies-recommendation-system-lala-ju/server.c:301-360 | the in-place process merge leaves the span with the process merge of both runs |
| MovieProcessServer.TitlesAreRight | hw4_simple-movies-recommendation-system-lala-ju/server.c:268-376 | for every list and number of chunks: if at every level before the last each pair of sorted runs keeps its scores, the titles written are those of the sorted list |
| MovieProcessServer.ProcessServerExact | hw4_simple-movies-recommendation-system-lala-ju/server.c:268-366 | the process server ends with the sorted list, scores included, exactly if at every level each pair of sorted runs keeps its scores |
| MovieProcessServer.KeptButTheLast | hw4_simple-movies-recommendation-system-lala-ju/server.c:268-366 | the condition for the scores is the one for the titles and that of the last level |
| MovieProcessServer.TwoChunksAreRight | hw4_simple-movies-recommendation-system-lala-ju/server.c:268-376 | up to 5000 movies, which are cut in two at most, the titles written are those of the sorted list |
| MovieFourChunks.ProcessServerGoesWrong | hw4_simple-movies-recommendation-system-lala-ju/server.c:349 | for each length from 5001 to 10000, which is cut in four, a list whose titles come out in a wrong order |
| MovieFourChunks.ScoresMayChangeUnseen | hw4_simple-movies-recommendation-system-lala-ju/server.c:349 | and one for which a level before the last changes scores and the titles are right all the same |
| MovieProcessRequest.Request.SortChunk | hw4_simple-movies-recommendation-system-lala-ju/server.c:274-300 | a process sorts a copy of its chunk, the last one with the remainder, and writes it back; nothing else changes |
| MovieProcessRequest.Request.MergePair | hw4_simple-movies-recommendation-system-lala-ju/server.c:301-360 | a process merges the two halves of its part, and nothing else changes |
| MovieProcessRequest.Request.Serve | hw4_simple-movies-recommendation-system-lala-ju/server.c:268-366 | the rounds of processes, each round in any order, end with what the levels of the process server make of the list |
| SchedulerQueues.ReorderIsStable | hw3_thread-library-lala-ju/scheduler.c:60-84 | the woken and the still waiting threads both keep their order, and each waiting thread goes to the part it belongs to |
| SchedulerQueues.ReorderPartitions | hw3_thread-library-lala-ju/scheduler.c:60-84 | reordering neither loses nor doubles a waiting thread |
| SchedulerQueues.PartsByMembership | hw3_thread-library-lala-ju/scheduler.c:60-84 | a waiting thread is woken exactly if the select found it, and waits on exactly if not |
| SchedulerRuns.EventKeepsThreads | hw3_thread-library-lala-ju/scheduler.c:95-188 | every scheduler entry keeps all threads but the one that exits; afterwards a thread is running, or all have exited and the scheduler returns |
| SchedulerRuns.RunKeepsThreads | hw3_thread-library-lala-ju/scheduler.c:95-188 | over every run queues and exited threads together are the threads created, and the scheduler is idle exactly when all have exited |
| SchedulerRuns.EachOnce | hw3_thread-library-lala-ju/scheduler.c:95-188 | each thread created and not exited is in exactly one queue, once, and the queues never outgrow the number created |
| SchedulerRuns.FoundThreadsAreReady | hw3_thread-library-lala-ju/scheduler.c:99-156 | an interrupt, a read and an exit each make every waiting thread ready whose input the first select finds |
| SchedulerRuns.OnlyFoundThreadsWake | hw3_thread-library-lala-ju/scheduler.c:60-68 | a thread that was not ready becomes so only if a select has found its input |
| SchedulerRuns.ReaderWaits | hw3_thread-library-lala-ju/scheduler.c:112-149 | the thread that reads waits behind the others, unless nobody else is ready and the blocking select finds its input |
| SchedulerRuns.LateOnlyIfNoneReady | hw3_thread-library-lala-ju/scheduler.c:130-146 | what the blocking select would find plays no part while another thread is ready |
| SchedulerRuns.InterruptTurnsTo | hw3_thread-library-lala-ju/scheduler.c:99-110 | after an interrupt the next ready thread runs, behind the last one a thread just woken or else the first |
| SchedulerRuns.RemovalTurnsTo | hw3_thread-library-lala-ju/scheduler.c:135-146 | after a read or an exit a thread just woken runs, or else the last ready one, or the first if the last was running |
| SchedulerRuns.CloserByInterrupts | hw3_thread-library-lala-ju/scheduler.c:99-146 | an interrupt strictly lowers a ready thread's distance to the processor; reads and exits never raise it, although the last thread fills the hole |
| SchedulerRuns.BoundedWaiting | hw3_thread-library-lala-ju/scheduler.c:99-107 | a ready thread at position p is running within Distance(p, cur, n) < n interrupts |
| SchedulerRuns.WokenThreadRuns | hw3_thread-library-lala-ju/scheduler.c:99-107 | a thread woken by any entry runs within n - 1 further interrupts |
| SchedulerRuns.ReadsCanOvertake | hw3_thread-library-lala-ju/scheduler.c:135-146 | without interrupts a ready thread can be passed over by any number of reads |
| SchedulerRuns.OvertakingIsReached | hw3_thread-library-lala-ju/scheduler.c:95-146 | three threads just created come to such a state by one read and one interrupt |
| SchedulerArrays.Scheduler.Create | hw3_thread-library-lala-ju/threadtools.h:53-71 | a new thread with cleared variables becomes the last ready one |
| SchedulerArrays.Scheduler.ReorderWaiting | hw3_thread-library-lala-ju/scheduler.c:31-85 | the two loops over the arrays reorder the queues and leave nulls exactly beyond the live prefixes |
| SchedulerArrays.Scheduler.OnInterrupt | hw3_thread-library-lala-ju/scheduler.c:95-111 | the interrupt case in the arrays is the interrupt event, which wakes whom the select finds and turns to the next thread; a thread is running |
| SchedulerArrays.Scheduler.OnRead | hw3_thread-library-lala-ju/scheduler.c:112-150 | the read case is the read event, blocking only with no thread ready, within the arrays' capacity, and a thread is running |
| SchedulerArrays.Scheduler.OnExit | hw3_thread-library-lala-ju/scheduler.c:151-188 | the exit case is the exit event; it returns exactly when both queues are empty |
| ThreadBodies.Tcb.FibonacciIteration | hw3_thread-library-lala-ju/threads.c:13-31 | one iteration over the control block's fields is the Fibonacci step |
| ThreadBodies.Tcb.CollatzIteration | hw3_thread-library-lala-ju/threads.c:39-61 | one iteration over the control block's fields is the Collatz step |
| ThreadBodies.Tcb.MaxSubarrayIteration | hw3_thread-library-lala-ju/threads.c:73-93 | the iteration after the read is the maximum-subarray step |
| ThreadBodies.SegmentShape | hw3_thread-library-lala-ju/threads.c:68-94 | only a max_subarray thread at the top of its loop comes to a read, before printing anything; every other segment prints one number |
| ThreadBodies.FibonacciPrints | hw3_thread-library-lala-ju/threads.c:13-32 | the k-th number printed is the k-th Fibonacci number; the thread exits after arg of them, never with arg 0 |
| ThreadBodies.CollatzPrints | hw3_thread-library-lala-ju/threads.c:39-61 | the thread prints the orbit of arg and exits when it first prints 1 |
| ThreadBodies.OrbitLaw | hw3_thread-library-lala-ju/threads.c:44-50 | each number of the orbit is half of an even one before it, or three times an odd one and one more |
| ThreadBodies.MaxSubarrayPrints | hw3_thread-library-lala-ju/threads.c:68-94 | the k-th number printed is the maximum over all contiguous subarrays of the first k inputs, the empty one counting 0 |
| ThreadRuns.PreemptionIsInvisible | hw3_thread-library-lala-ju/threadtools.h:81-97 | whatever the interrupts and wake-ups, a thread has printed what it prints alone for some number of segments |
| ThreadRuns.RunsNeverDisagree | hw3_thread-library-lala-ju/threadtools.h:81-97 | what a thread prints in one run is a prefix of what it prints in another, or the other way round |
| ThreadRuns.ReturnsWhenAllAreDone | hw3_thread-library-lala-ju/scheduler.c:166-167 | when the scheduler returns every thread has printed all it prints alone |
| ThreadRuns.OnlyReadersWait | hw3_thread-library-lala-ju/threadtools.h:91-97 | in every run a waiting thread is in the middle of a read |
| ThreadRuns.ReadGivesUp | hw3_thread-library-lala-ju/threadtools.h:91-97 | a turn that ends at a read leaves its thread waiting and, if another is ready, lets that one run |
| ThreadRuns.SignalPassesOn | hw3_thread-library-lala-ju/threadtools.h:81-89 | a turn that ends at a yield with a signal pending passes the processor on to the next thread |
| ThreadRuns.NoSignalGoesOn | hw3_thread-library-lala-ju/threadtools.h:81-89 | without a signal the thread just goes on |
| ThreadRuns.ExitLeaves | hw3_thread-library-lala-ju/threadtools.h:73-79 | a turn that ends in an exit takes its thread out of both queues |
| ThreadRuns.InputWakes | hw3_thread-library-lala-ju/scheduler.c:99-156 | every scheduler entry of a turn wakes the waiting threads whose input the first select finds |
| ThreadRuns.OnlyInputWakes | hw3_thread-library-lala-ju/scheduler.c:60-68 | a waiting thread gets ready in a turn only if a select has found its input |
| ThreadRuns.AnyThreadsStart | hw3_thread-library-lala-ju/threadtools.h:53-71 | any threads can be created and started |
| ThreadRuns.TurnsArePossible | hw3_thread-library-lala-ju/scheduler.c:87-188 | the next turn can always be made, whatever signal is pending, once the blocking select comes back |
| ThreadRuns.FibonacciUnderScheduler | hw3_thread-library-lala-ju/threads.c:13-32 | in every run a fibonacci thread has printed the first Fibonacci numbers, all arg of them when the scheduler returns |
| ThreadRuns.CollatzUnderScheduler | hw3_thread-library-lala-ju/threads.c:39-61 | in every run a collatz thread has printed the beginning of the orbit of its argument, up to the first 1 when the scheduler returns |
| ThreadRuns.MaxSubarrayUnderScheduler | hw3_thread-library-lala-ju/threads.c:68-94 | in every run the k-th maximum printed is that of the first k inputs |
| BookingCommand.ParseCommand | hw1_csiebooking-lala-ju/server.c:79-138 | the right-to-left loop accepts exactly the well-formed lines and finds their meaning, token by token |
| BookingCommand.StaysInInts | hw1_csiebooking-lala-ju/server.c:99-137 | no int overflows in the loop while the pieces of a line have at most nine characters, a minus sign in front not counted |
| BookingCommand.RoundTrip | hw1_csiebooking-lala-ju/server.c:86-138 | three integers printed in canonical decimal form are read back as they were |
| BookingCommand.ManyNumbers | hw1_csiebooking-lala-ju/server.c:86-138 | of any number of numbers in canonical form the first is for food, the last for electronics, the last but one for concerts, and the others do not count |
| BookingCommand.OddLines | hw1_csiebooking-lala-ju/server.c:86-138 | lines that are accepted although they are no three numbers, and what they mean |
| BookingCommand.AcceptedMeans | hw1_csiebooking-lala-ju/server.c:140-155 | each verdict has its exact condition, in numbers without bound: malformed, more than 15 items, a negative field; a command is accepted exactly if none applies, with its meaning as the change |
| BookingCommand.MalformedExactly | hw1_csiebooking-lala-ju/server.c:89-128 | the lines refused as malformed, character by character |
| BookingCommand.AcceptedInPlainTerms | hw1_csiebooking-lala-ju/server.c:140-151 | the same item by item and with the number 15 |
| BookingInts.SameVerdict | hw1_csiebooking-lala-ju/server.c:140-147 | exactly for which sums the tests on 32-bit ints that wrap around give the same verdict |
| BookingInts.ShortLinesAreSafe | hw1_csiebooking-lala-ju/server.c:140-151 | with at most eight characters a piece no sum overflows and the verdict is the same |
| BookingInts.SmallNumbersAreSafe | hw1_csiebooking-lala-ju/server.c:140-151 | so every command of numbers below 100000000 gets the same verdict on ints |
| BookingInts.SumsCanOverflow | hw1_csiebooking-lala-ju/server.c:140 | a line of three ints whose sum overflows, and which wrapped ints accept |
| BookingInts.CheckCommand | hw1_csiebooking-lala-ju/server.c:71-156 | the verdict comes from the server's tests in their order, on numbers without bound and, unless the sum misleads, on 32-bit ints |
| BookingCommand.CheckId | hw1_csiebooking-lala-ju/server.c:158-175 | an id is accepted exactly if it is all digits and from 902001 to 902020 |
| BookingCommand.IdsAre | hw1_csiebooking-lala-ju/server.c:171-173 | of the numbers printed in canonical form exactly 902001 to 902020 are ids |
| BookingProtocol.RecordOfId | hw1_csiebooking-lala-ju/server.c:369-371 | record r is that of user 902000 + r |
| BookingProtocol.BeginEffects | hw1_csiebooking-lala-ju/server.c:351-431 | what each event does to its connection, which line ends a reader's session, and that no other connection is touched |
| BookingProtocol.StepsHappen | hw1_csiebooking-lala-ju/server.c:285-294 | between two events a server takes up any event of its connections, and in the middle of one it can go on |
| BookingProtocol.AnyStart | hw1_csiebooking-lala-ju/server.c:237-256 | servers of any kinds can be started on any record file |
| BookingInvariant.BeginIsOk | hw1_csiebooking-lala-ju/server.c:330-389 | taking up an event keeps a server's tables covering its sessions and its locks matching its tables; only a failed read lets the count run ahead |
| BookingInvariant.AskIsOk | hw1_csiebooking-lala-ju/server.c:375-389 | a request for a lock, granted or refused, keeps the invariant and the exclusion of the lock table |
| BookingInvariant.GoIsOk | hw1_csiebooking-lala-ju/server.c:435-580 | every system call of a server keeps its own invariant and changes only records it has locked for writing |
| BookingRuns.SessionHasLock | hw1_csiebooking-lala-ju/server.c:375-389 | in every reachable state an open session has its lock, shared on a read server, exclusive on a write server |
| BookingRuns.SessionIsOfItsId | hw1_csiebooking-lala-ju/server.c:464-482 | whatever the interleaving, a session is on the record of the id last sent on its connection |
| BookingRuns.Exclusion | hw1_csiebooking-lala-ju/server.c:469-482 | in every reachable state a record has at most one command session in the whole system, and none beside a reading session |
| BookingRuns.ShownStaysTrue | hw1_csiebooking-lala-ju/server.c:393-412 | while a session is open its record stays as the client was shown it |
| BookingRuns.NoLostUpdate | hw1_csiebooking-lala-ju/server.c:486-511 | what a write overwrites is what was read for the check and shown at the start, and what it adds is what the command says |
| BookingRuns.ReportIsExact | hw1_csiebooking-lala-ju/server.c:546-580 | the booking reported afterwards is the one shown plus the change |
| BookingRuns.LockMeansSession | hw1_csiebooking-lala-ju/server.c:330-346 | between two events a server holds a record's lock exactly if it has a session on it or a failed read has dropped one |
| BookingRuns.LockedExactly | hw1_csiebooking-lala-ju/server.c:375-384 | a client is answered Locked exactly if some server holds the record, by a session, one just being opened, a dropped one or an unlock to come, and it or the server asked is a write server |
| BookingRuns.Conservation | hw1_csiebooking-lala-ju/server.c:140-155 | over every run a record is its first contents plus what the accepted commands carried out on it ask for, and stays within its limits, in numbers without bound |
| BookingRuns.ConservationByItem | hw1_csiebooking-lala-ju/server.c:140-155 | the same item by item and with the number 15 |
| BookingRuns.ShortCommandsFitInts | hw1_csiebooking-lala-ju/server.c:140-155 | in every reachable state 32-bit ints give a command of short pieces the same verdict, so for such commands that is true of ints |
| BookingServer.FinishIsRun | hw1_csiebooking-lala-ju/server.c:285-593 | handling an event without interference is one of the runs of the system |
| BookingServer.LineOpens | hw1_csiebooking-lala-ju/server.c:464-504 | an id line closes the connection or opens a session on the record of that id, shown as it is |
| BookingServer.CommandEnds | hw1_csiebooking-lala-ju/server.c:507-585 | a command ends its session and gives the lock up whatever the verdict, and changes the record only if it is accepted |
| BookingServer.Process.OnLine | hw1_csiebooking-lala-ju/server.c:351-431 | handling a line in place on the tables does what the model does; a session it opens is on the record of the id in the line |
| BookingServer.Process.OnCommand | hw1_csiebooking-lala-ju/server.c:507-585 | checking, storing, reporting and releasing in place do what the model does |
| BookingServer.Process.OnEof | hw1_csiebooking-lala-ju/server.c:435-445 | a client that leaves gives its session and, if it is the last, its lock up |
| BookingServer.Process.OnFailure | hw1_csiebooking-lala-ju/server.c:330-335 | a failed read closes the connection and releases nothing |
| BookingServer.RecordFile.SetLock | hw1_csiebooking-lala-ju/server.c:469 | a request that does not wait is granted exactly if every other process's mode on the record allows it, and exclusive locks stay the only ones on their record |

## Left out

- The battle and player processes are steps on values, so that they can interleave; their loops are modelled once more as methods on given input streams. Aliasing of the C variables plays no part.
- Forking, `exec`, `dup2`, process ids, log files, the status file and the creation of FIFOs: the model starts from the process tree and its channels.
- Pipes and FIFOs hold any number of messages; a read waits for one, and both ends of a FIFO open together.
- Machine integers: HP, Fibonacci numbers, Collatz values, sums and ids are unbounded, so overflow and over-long numerals are not modelled there.
- BookingCommand.AcceptedMeans: adds numbers without bound; `BookingInts.SameVerdict` says for which sums ints agree, and `BookingInts.SumsCanOverflow` gives a line for which they do not.
- BookingRuns.Conservation: likewise; signed overflow is undefined in C, so runs with commands beyond `BookingRuns.ShortCommandsFitInts` are not claimed for the code.
- Scores are real numbers; how they are computed, the keyword search and the reading of the movie file are not modelled. Neither are memory allocation and the copies of the titles.
- MovieProcessServer.TitlesAreRight: goes one way only: titles can be right although scores have changed (`MovieFourChunks.ScoresMayChangeUnseen`); with the scores the condition is exact (`MovieProcessServer.ProcessServerExact`).
- The processes of one round are served in any order but do not interleave step by step, as the threads do; they work on disjoint parts of the shared arrays.
- A sorting thread's step is one round of the selection; its inner comparisons are not interleaved, as no other thread works on its chunk.
- Empty movie lists: `sort` writes before its array on size 0.
- Errors of `select`, `fork`, `pipe`, `open` and the like, which end the programs.
- `setjmp` and `longjmp`, signal masks and alarms: an interrupt is an event that may happen at a yield, a resume runs the current thread's next segment. The bytes of a FIFO and `atoi` in a read: a thread's inputs are a stream of integers.
- Whether a Collatz orbit reaches 1, and threads with argument 0, which never exit.
- Sockets, message texts and the scanning for line ends: a connection event is a new connection, a whole line, the client's leaving, or a failed read. A line without an end, which makes a server exit, is not modelled.
