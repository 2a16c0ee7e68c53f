# Protocols of the POSIX threads and sockets programs

A Dafny model of the concurrent programs of the repository, with proofs about every interleaving.

Each threaded program is a set of program counters over shared variables. One step is one load, store or
system call of one thread, and steps are sequentially consistent. A module gives

- `State`, the shared variables and the program counters (plus fields that only record history);
- a next-state function, `Next`, that is `None` when the thread cannot move; a run is a schedule of such
  steps (`Runs.Exec`), so a statement about every schedule is a statement about every run;
- an invariant, and the theorems about all reachable states and all runs;
- who can move when (`WhoCanMove`), and that the history fields are the record of the schedule (`HistoryIsTrue`);
- a class `Process` with the program's own variables, tables as arrays, whose methods execute one step of
  one thread in place and are proved to do exactly what `Next` says.

`Pthreads.dfy` is the mutex and condition variable with the semantics of `pthread_cond_wait` and
`pthread_cond_signal` (System Interfaces volume of POSIX.1-2017): a wait releases the mutex and sleeps in one
step, a signal that finds no sleeper is lost, a woken thread takes the mutex again. Unlocking or waiting
without owning the mutex is a step that cannot happen, so freedom from getting stuck also shows that it never
does. Spurious wakeups are allowed in the safety theorems and excluded where termination is claimed.

| file | program |
|---|---|
| `Reaper.dfy` | `thread_joinTerm.c`: workers, and a joiner that joins with the mutex held |
| `Multijoin.dfy` | `thread_multijoin.c`: the sibling whose scan counts every slot |
| `ProducerConsumer.dfy` | `producer_consumer_model.c`: a signal for every tenth unit only |
| `PollingConsumer.dfy` | `prod_no_condvar.c`: many producers and a polling consumer |
| `RacyCounter.dfy` | `thread_inc.c`: two threads and one counter, with and without the mutex |
| `SlotServer.dfy` | `webprogramming/multi_thread_server.c`: slots handed from main to workers |
| `Cleanup.dfy` | `t_thread_cleanup.c`: cancellation and the cleanup handler |
| `Reactor.dfy` | `myEpollReactor.c`: the event table against the kernel's interest set |
| `FullTransfer.dfy` | `webprogramming/HSocket.c`: `WriteN`, `ReadN`, `Write`, `Read` |
| `ConcurrentTransfer.dfy` | the same: `WriteN` and `ReadN` at the two ends of a stream at once |
| `Runs.dfy`, `Pthreads.dfy`, `Counting.dfy` | what they share |

The constants of the programs (number of threads, total of units, signalling period, table sizes) are
arbitrary parameters, zero included where the code can run with it.

## What the proofs found

- `thread_joinTerm.c` cannot get stuck, for any number of workers, although `pthread_join` is called with the
  mutex held: a worker that is to be joined has only its signal left to send, and that needs no mutex.
- `producer_consumer_model.c` can get stuck, with the producer finished and the consumer asleep, exactly when
  the last unit is not one that signals. With 20000 units and a signal for every tenth, one to nine units may
  be stranded, and each of those numbers is reached by some run.
- `thread_inc.c` without the mutex can print exactly the values from 2 to twice the number of iterations.
- `thread_multijoin.c` makes one pass only; its counters keep to their comments (lines 13 and 15) through the
  scan only when every thread had terminated by then, and with two threads some run
  breaks them. The code is modelled as it is, not as the comments say.
- `prod_no_condvar.c` leaves its loop with everything done exactly when no count is negative, and can leave it
  at all exactly when some count is positive.
- `t_thread_cleanup.c` gets stuck in signal mode exactly when the worker decides to wait after the only
  signal; the store to `glob` that follows does not wake it.
- `multi_thread_server.c` loses a slot for ever whenever a worker ends before main has marked its slot. It can
  lose them all, and then it never accepts again. Its scan takes no lock, so "busy" speaks of the moment the scan
  began: any number of slots may be free by the time it ends.
- `myEpollReactor.c` exits on a failed send: the second `eventdel` asks for a modification with a null event. Every
  live run can come to that, and to a full table that drops a connection.

## Model

| member | source | states |
|---|---|---|
| Reaper.CountersAgreeWhenFree | thread_joinTerm.c:55-56 | whenever the mutex is free, termNum is the number of terminated slots and joinedNum the number of joined slots |
| Reaper.CountersAlways | thread_joinTerm.c:55-56 | inside the critical sections too both counters are exact, but for a status that is stored and not yet counted |
| Reaper.WhoCanMove | thread_joinTerm.c:39-138 | a thread is blocked exactly while another has the mutex it wants, while it sleeps unsignalled, or while the thread it joins runs; who waited for the mutex then has it |
| Reaper.CreatedOneByOne | thread_joinTerm.c:116-130 | the joiner exists before any worker, and main creates the workers in order |
| Reaper.HistoryIsTrue | thread_joinTerm.c:73-105 | over every schedule the recorded passes, joins and starts of scans are those that happened |
| Reaper.JoinerCanSleep | thread_joinTerm.c:81-86 | for every k < N some run has the joiner asleep with exactly k workers joined and no other created |
| Reaper.SleepsUntilSignalled | thread_joinTerm.c:55-64 | for every k < N some run has it asleep after k joins while the next worker is terminated, counted and at its signal, with the mutex free; that signal wakes it |
| Reaper.JoinMeetsSignaller | thread_joinTerm.c:64-98 | for every worker some run has the joiner in pthread_join for it, with the mutex, while it has still to signal |
| Reaper.StatusesOnlyMoveForward | thread_joinTerm.c:21-27 | no step of any thread moves a status back or over a stage, the unlocked store of TS_ALIVE at line 45 included |
| Reaper.JoinedAtMostOnce | thread_joinTerm.c:92-98 | a worker is joined at most once, only after it has left its function, and its slot is marked, or about to be, exactly then |
| Reaper.ScanIsAtomic | thread_joinTerm.c:90-100 | although other threads move during the scan, at its end the table is exactly the one it started from with every terminated slot joined, and both counters count that table |
| Reaper.PassesJoin | thread_joinTerm.c:74-105 | a pass that reaches its unlock has joined at least one worker and left none terminated, so there are at most N passes |
| Reaper.WokenJoinerFindsWork | thread_joinTerm.c:81-86 | without spurious wakeups a joiner woken from its wait finds termNum > 0 when it has the mutex again |
| Reaper.SignallerIsUnjoined | thread_joinTerm.c:55-64 | a worker that has still to signal is terminated, counted and not joined |
| Reaper.NeverStuck | thread_joinTerm.c:69-109 | in every reachable state but the final one some thread can take a step of its own, for every N and with or without spurious wakeups |
| Reaper.RunsAreFinite | thread_joinTerm.c:39-137 | without spurious wakeups every schedule has at most N(4N+12)+12N+14 steps |
| Reaper.MaximalRunsJoinEveryone | thread_joinTerm.c:111-138 | a run that cannot go on has every slot joined once, joinedNum = N, termNum = 0, every thread exited and the mutex free |
| Reaper.EveryRunCanComplete | thread_joinTerm.c:111-138 | from every reachable state some continuation ends that way |
| Reaper.Process.WorkerStep | thread_joinTerm.c:39-67 | one step of a worker, in place on the table and the counter; reports when the worker is blocked |
| Reaper.Process.JoinerStep | thread_joinTerm.c:69-109 | one step of the joiner, in place on the table and both counters |
| Reaper.Process.Scan | thread_joinTerm.c:90-100 | the scan as a loop over the table in place, its joins included, while workers go on between and during them: it ends at the unlock with the table as ScanIsAtomic says, every worker it marked exited, and one off termNum and onto joinedNum for every terminated slot |
| Reaper.Process.MainStep | thread_joinTerm.c:111-138 | one step of main: the joiner is created first, then the workers, then the joiner is joined |
| Reaper.Process.RunToTheEnd | thread_joinTerm.c:111-138 | the threads taking turns reach the final state, with everybody joined once |
| ProducerConsumer.UnitsAreConserved | producer_consumer_model.c:42-45 | available + consumed is the number of units produced whenever the mutex is free; consumed never exceeds the total; at the end it is the total |
| ProducerConsumer.UnitsAlways | producer_consumer_model.c:95-99 | inside the critical sections too available + consumed is exact, but for a unit counted as consumed and not yet taken off |
| ProducerConsumer.WhoCanMove | producer_consumer_model.c:30-113 | a thread is blocked exactly while the other has the mutex it wants or while it sleeps unsignalled; who waited for the mutex then has it |
| ProducerConsumer.HistoryIsTrue | producer_consumer_model.c:73-111 | over every schedule the recorded passes and their starts are those that happened |
| ProducerConsumer.PassesConsume | producer_consumer_model.c:73-111 | a pass of the outer loop that reaches its unlock has consumed at least one unit since it took the mutex and left none, so there are at most TOTAL_COUNT passes |
| ProducerConsumer.SleeperLag | producer_consumer_model.c:55-57 | while the consumer sleeps at most one period of units is available, and a whole one only while the signal for the last of them is still to be sent |
| ProducerConsumer.FullLagIff | producer_consumer_model.c:55-57 | a whole period is reached by some run if and only if there are more units than the period; with period one, any unit |
| ProducerConsumer.StuckShape | producer_consumer_model.c:82-91 | every stuck state has the producer finished, the consumer asleep, and between 1 and (N-1) % P units stranded |
| ProducerConsumer.StuckRunExists | producer_consumer_model.c:33-111 | for every number of units in that range some run gets stuck with exactly that many |
| ProducerConsumer.CanGetStuckIff | producer_consumer_model.c:33-111 | a stuck state is reachable if and only if N > 0 and (N-1) % P is not 0 |
| ProducerConsumer.FileConstantsGetStuck | producer_consumer_model.c:19 | for the constants in the file k units can be stranded if and only if k is 1 to 9 |
| ProducerConsumer.WokenForNothingIff | producer_consumer_model.c:83-91 | a signalled consumer may find nothing available when it has the mutex again, if and only if there are at least two units |
| ProducerConsumer.RunsAreFinite | producer_consumer_model.c:30-113 | without spurious wakeups every schedule has at most 28N+14 steps |
| ProducerConsumer.MaximalRunsConsumeEverything | producer_consumer_model.c:69-113 | a run that cannot go on has consumed everything or is stuck; never stuck when the last unit signals |
| ProducerConsumer.Process.ProducerStep | producer_consumer_model.c:30-67 | one step of the producer, in place |
| ProducerConsumer.Process.ConsumerStep | producer_consumer_model.c:69-113 | one step of the consumer, in place |
| ProducerConsumer.Process.RunToTheEnd | producer_consumer_model.c:115-143 | the two threads in turn end with everything consumed, or stuck, and with everything consumed when the last unit signals |
| PollingConsumer.UnitsAreConserved | prod_no_condvar.c:32-36 | avail + numConsumed is the sum of the producers' completed increments whenever the mutex is free |
| PollingConsumer.UnitsAlways | prod_no_condvar.c:81-88 | inside the critical sections too avail + numConsumed is exact, but for a unit counted as consumed and not yet taken off |
| PollingConsumer.WhoCanMove | prod_no_condvar.c:16-104 | a thread is blocked exactly while another has the mutex it wants; who waited for it then has it; main is never blocked otherwise before it leaves |
| PollingConsumer.CreatedOneByOne | prod_no_condvar.c:59-68 | main adds each count and then creates its producer, in order, and does not leave with the mutex |
| PollingConsumer.LeavesAsSoonAsEnough | prod_no_condvar.c:88-102 | main leaves at the test after its unlock exactly when it has consumed something and at least the total, and polls again otherwise |
| PollingConsumer.AnyNumberOfVainPolls | prod_no_condvar.c:72-103 | for all counts and every p some run makes exactly p polls that find nothing |
| PollingConsumer.PollsForEver | prod_no_condvar.c:72-103 | without a positive count main can always step and never leaves |
| PollingConsumer.LeavesWithEnough | prod_no_condvar.c:72-103 | for any counts the loop is left with at least one unit and at least the required total consumed |
| PollingConsumer.FinalTotals | prod_no_condvar.c:59-103 | some run leaves the loop with v units consumed if and only if v is positive, at least the required total and at most the sum of the positive counts |
| PollingConsumer.LeavesWithEverythingIff | prod_no_condvar.c:59-103 | when the loop is left: numConsumed is the total, avail is 0 and every producer is done, if and only if no count is negative |
| PollingConsumer.LoopCanBeLeft | prod_no_condvar.c:72-103 | with some positive count the loop can still be left from every reachable state |
| PollingConsumer.LoopCanBeLeftIff | prod_no_condvar.c:81-102 | some run leaves the loop if and only if some count is positive |
| PollingConsumer.OnlyPollsAreUnbounded | prod_no_condvar.c:81-103 | for any n counts with G units to be made, a schedule with p polls that find nothing has at most 12G+4n+11+4p steps |
| PollingConsumer.Process.ProducerStep | prod_no_condvar.c:16-46 | one step of a producer, in place |
| PollingConsumer.Process.MainStep | prod_no_condvar.c:48-104 | one step of main: creating producers, draining and testing done, in place |
| RacyCounter.FinalValues | thread_inc.c:31-34 | without the mutex a value is printed by some run if and only if it lies between min(n, 2) and 2n |
| RacyCounter.LockedRunsAreExact | thread_inc.c:25-38 | with USE_LOCK every completed run prints 2n |
| RacyCounter.RunsAreFinite | thread_inc.c:23-41 | every schedule has at most 4n+6 steps, with and without the mutex |
| RacyCounter.NeverStuck | thread_inc.c:82-94 | until both threads have exited one of them can step |
| RacyCounter.WhoCanMove | thread_inc.c:23-41 | a thread that has not returned is blocked exactly at its lock while the other has the mutex |
| RacyCounter.LostUpdate | thread_inc.c:31-34 | in any iteration of either thread any number of increments by the other fits between load and store, and all are overwritten |
| RacyCounter.LoseSome | thread_inc.c:31-34 | a schedule for every value from n to 2n |
| RacyCounter.LoseMost | thread_inc.c:31-34 | a schedule for every value from 2 to n+1 |
| RacyCounter.Process.Step | thread_inc.c:23-41 | one load, store or mutex operation of either thread, in place |
| RacyCounter.Process.ThreadFunc | thread_inc.c:23-41 | with USE_LOCK the whole thread function adds exactly n to the counter |
| SlotServer.FreeSlotIsNotServed | webprogramming/multi_thread_server.c:129-133 | a slot that the scan finds off has no worker still serving it |
| SlotServer.AtMostLimitServe | webprogramming/multi_thread_server.c:20-21 | at most THREAD_LIMIT workers serve at once, no two through one slot |
| SlotServer.WorkerKeepsItsConnection | webprogramming/multi_thread_server.c:51-54 | throughout its service a worker finds in its slot the descriptor it was created for |
| SlotServer.ThreadsServeWhatWasAccepted | webprogramming/multi_thread_server.c:138-143 | over every schedule the descriptors handed to the workers, in order of creation, are exactly what accept returned, in order |
| SlotServer.ThreadsEndThemselves | webprogramming/multi_thread_server.c:51-83 | over every schedule the workers that no longer serve are exactly those that cleared their flag |
| SlotServer.WhoCanMove | webprogramming/multi_thread_server.c:125-156 | main is never blocked, and a worker can read or end exactly while it serves |
| SlotServer.HistoryIsTrue | webprogramming/multi_thread_server.c:127-146 | over every schedule the recorded lost slots, starts of scans and workers gone since are those that happened |
| SlotServer.SlotsAreConserved | webprogramming/multi_thread_server.c:127-133 | whenever main scans, and except between creating a worker and marking its slot, the slots that are on are as many as serving workers plus lost slots, and the lost ones are those on and not served |
| SlotServer.BusyWasFull | webprogramming/multi_thread_server.c:127-133 | when the unlocked scan finds no slot, every slot was on when it began: serving workers, workers that left since, and lost slots make up the table; the slots off by now are exactly those of workers that left since |
| SlotServer.BusyWithFreeSlots | webprogramming/multi_thread_server.c:127-155 | for every k up to the table size some run is busy with exactly k slots off |
| SlotServer.ChosenSlotWasFirst | webprogramming/multi_thread_server.c:127-139 | the slot the scan takes is off and not served; every slot before it was on when the scan began, and is off by now only if its worker left since |
| SlotServer.LostSlotsGrow | webprogramming/multi_thread_server.c:143-146 | no step gives a lost slot back; the lost count grows by one exactly when main marks a slot whose worker has already cleared it |
| SlotServer.LostForEver | webprogramming/multi_thread_server.c:129-146 | a lost slot stays on and unserved in every continuation |
| SlotServer.SlotsCanBeLost | webprogramming/multi_thread_server.c:143-146 | for every k up to the table size a run loses exactly k slots |
| SlotServer.CanAcceptAgainIff | webprogramming/multi_thread_server.c:127-146 | from any point of any run main can come to accept again if and only if some slot is neither lost nor about to be marked too late |
| SlotServer.Process.MainStep | webprogramming/multi_thread_server.c:125-156 | one step of main's loop, in place on the table |
| SlotServer.Process.ClearStep | webprogramming/multi_thread_server.c:56-81 | the end of a worker's service, on all three paths |
| SlotServer.Process.FindSlot | webprogramming/multi_thread_server.c:127-133 | the search loop with workers leaving before any of its reads: the slot it returns is off and not served and those before it were on when the search began; when it returns none, serving workers and lost slots made up the table at that moment |
| Cleanup.HandlerRunsExactlyOnce | t_thread_cleanup.c:11-25 | on every completed run the buffer is freed once, with the worker holding the mutex, which ends free; the result says cancelled exactly when main cancelled |
| Cleanup.NeverFreedTwice | t_thread_cleanup.c:16-19 | on no run, completed or not, is the buffer freed twice, too early or without the mutex |
| Cleanup.HandlerIsSafe | t_thread_cleanup.c:43-59 | while the handler is pushed or runs the buffer is allocated and not freed, and the worker has the mutex or is in the wait, which takes it first |
| Cleanup.WhoCanMove | t_thread_cleanup.c:27-121 | the worker is blocked exactly in an unsignalled wait or when a request ends it; a request is acted on exactly in the wait; main is blocked exactly while it joins |
| Cleanup.HistoryIsTrue | t_thread_cleanup.c:11-25 | over every schedule the counted allocations, frees, handler runs without the mutex and cancellations are those that happened |
| Cleanup.StuckIff | t_thread_cleanup.c:79-102 | cancel mode is never stuck; signal mode is stuck exactly when main joins a sleeping worker, and then glob is 1 |
| Cleanup.SignalCanGetStuck | t_thread_cleanup.c:93-99 | such a run exists, because the signal precedes the store |
| Cleanup.SignalCanComplete | t_thread_cleanup.c:89-102 | from every reachable state before the signal, the sleeping worker included, some continuation completes |
| Cleanup.SignalCanStillGetStuck | t_thread_cleanup.c:89-102 | and from every reachable state before the store some continuation gets stuck |
| Cleanup.SignalFate | t_thread_cleanup.c:45-53 | once main has signalled, the run can complete if and only if the worker has not already decided to sleep |
| Cleanup.SignalSettled | t_thread_cleanup.c:45-53 | once main has set the condition too, every way the run can end is complete if the worker had not decided to sleep, and every one is stuck if it had |
| Cleanup.RunsAreFinite | t_thread_cleanup.c:27-102 | without spurious wakeups every schedule has at most 28 steps |
| Cleanup.Process.MainStep | t_thread_cleanup.c:63-121 | one step of main in either mode, in place |
| Cleanup.Process.WorkerStep | t_thread_cleanup.c:27-61 | one step of the worker, in place, the handler's steps included |
| Cleanup.Process.CancelStep | t_thread_cleanup.c:47 | the worker acts on a pending request in the wait: it has the mutex again before the handler runs |
| Multijoin.CompletedRun | thread_multijoin.c:93-120 | every completed run made exactly one pass (none without threads) and joined, once each, exactly the nonempty set that was terminated when the scan began |
| Multijoin.CountersAfterScan | thread_multijoin.c:111-113 | at the end of the scan numLive is 0 and -numUnjoined is the number of threads never joined |
| Multijoin.CommentsHoldIff | thread_multijoin.c:12-15 | after the scan the counters mean what their comments say if and only if every thread had terminated when it began |
| Multijoin.CommentsCanFailIff | thread_multijoin.c:93-119 | some run ends its scan with a comment false if and only if there are at least two threads |
| Multijoin.AnySetCanBeJoined | thread_multijoin.c:93-120 | for every nonempty set of threads some run joins exactly that set, at the end of its scan and when it completes |
| Multijoin.CountersBeforeScan | thread_multijoin.c:49-50 | before the scan both counters are right whenever the mutex is free |
| Multijoin.CountersAlways | thread_multijoin.c:49-50 | inside the critical sections too both counters are exact, but for a thread that is counted and whose status is not yet stored; during the scan they fall together |
| Multijoin.CreatedOneByOne | thread_multijoin.c:79-89 | main creates the threads in order and sets numLive after that |
| Multijoin.WhoCanMove | thread_multijoin.c:38-120 | a thread is blocked exactly while another has the mutex it wants, while it sleeps unsignalled, or while the thread it joins runs; who waited for the mutex then has it |
| Multijoin.HistoryIsTrue | thread_multijoin.c:93-119 | over every schedule the recorded passes, joins and start of the scan are those that happened |
| Multijoin.SleepsUntilSignalled | thread_multijoin.c:52-58 | for every thread some run has main asleep while it is terminated, counted and at its signal, with the mutex free; that signal wakes main |
| Multijoin.JoinMeetsSignaller | thread_multijoin.c:52-111 | for every thread some run has main in pthread_join for it, with the mutex, while it has still to signal |
| Multijoin.NeverStuck | thread_multijoin.c:93-119 | until main exits some thread can take a step of its own |
| Multijoin.RunsAreFinite | thread_multijoin.c:63-121 | without spurious wakeups every schedule has at most 14T+13 steps |
| Multijoin.Process.WorkerStep | thread_multijoin.c:38-61 | one step of a thread, in place |
| Multijoin.Process.MainStep | thread_multijoin.c:79-120 | one step of main, in place on the table and both counters |
| Reactor.NoStaleEntry | myEpollReactor.c:230-243 | when the turn of a batch entry comes, its slot is still registered for the descriptor, the mask and the connection it was reported for, whatever earlier callbacks did |
| Reactor.OneCallPerEntry | myEpollReactor.c:234-242 | an entry triggers at most one callback, although the mask is read again after the first: accept on the listener, the receive of the slot's connection when readable, its send when writable, nothing otherwise |
| Reactor.EntryMakesItsTransfer | myEpollReactor.c:48-110 | an entry of a live batch adds exactly one receive or one send to the log of its slot's connection, or closes it, and turns or frees the slot; no other connection or slot changes, and a new one takes one free slot |
| Reactor.TurnMakesAllTransfers | myEpollReactor.c:230-243 | after a whole turn that leaves the process running every connection has made exactly the transfer of its entry, and without an entry none |
| Reactor.TurnAcceptsAll | myEpollReactor.c:230-243 | and the new connections are as many as accept returned |
| Reactor.WhoCanMove | myEpollReactor.c:221-243 | a live process takes any batch that epoll_wait may return, in full, and stops only by exiting |
| Reactor.InterestIsExact | myEpollReactor.c:112-157 | after every dispatched entry of a live run the interest set is exactly the listener and the slots in use, under their own masks, on distinct descriptors, EPOLLIN with recvData and EPOLLOUT with sendData; the listener's slot never changes |
| Reactor.ConnectionsAreAccountedFor | myEpollReactor.c:160-181 | every accepted connection is registered in exactly the slot it is said to be in, or closed, or dropped and in no slot; those not closed have distinct descriptors |
| Reactor.FatesAreFinal | myEpollReactor.c:48-110 | over a run a registered connection keeps its slot until it is closed; a closed one stays closed; a dropped one stays dropped, its descriptor open and unwatched; logs only grow, and only for registered connections |
| Reactor.DroppedIffFull | myEpollReactor.c:171-180 | the connection an entry accepts is dropped exactly when every client slot is in use; otherwise it goes to the first slot that was free; other entries add none |
| Reactor.CanDrop | myEpollReactor.c:160-181 | from every such point some continuation fills the table and drops a connection |
| Reactor.ConnectionsAlternate | myEpollReactor.c:48-110 | every connection's successful transfers alternate, receive first, so receives minus sends is 0 or 1 |
| Reactor.ExitsIff | myEpollReactor.c:62-75 | dispatching an entry ends the process only when accept fails or a send fails, and then it does; no other epoll_ctl fails and no callback is null |
| Reactor.FailedSendExits | myEpollReactor.c:138-157 | when a failed send ends the process, the first eventdel has succeeded and the second is the call that exits, with the descriptor still open and no longer watched |
| Reactor.SendCanFail | myEpollReactor.c:48-78 | with any client slot at all, from every point between two batches of a live run some continuation fails a send, which ends the process |
| Reactor.Process.EventAdd | myEpollReactor.c:112-136 | registers a slot in place: modify when it is in use, add and mark it otherwise |
| Reactor.Process.EventDel | myEpollReactor.c:138-157 | unregisters a slot in place; with status 0 it asks for a modification with a null event, which fails |
| Reactor.Process.RecvData | myEpollReactor.c:80-110 | the receive callback, in place: turns the slot to sending, or frees it and closes |
| Reactor.Process.SendData | myEpollReactor.c:48-78 | the send callback, in place: turns the slot to receiving, or exits |
| Reactor.Process.AcceptConnection | myEpollReactor.c:160-181 | the accept callback with its search loop: the first free slot gets the new descriptor |
| Reactor.Process.Dispatch | myEpollReactor.c:230-243 | the dispatch loop over one batch, until its end or the exit |
| FullTransfer.WriteAllIff | webprogramming/HSocket.c:142-154 | the transfer succeeds if and only if no fault comes before the kernel has offered to take all bytes; otherwise exactly the bytes offered before the fault are written |
| FullTransfer.WritesIgnoreInterruptions | webprogramming/HSocket.c:146-147 | EINTR, in any finite pattern, changes neither the outcome nor the number of bytes written |
| FullTransfer.ReadAllIff | webprogramming/HSocket.c:167-190 | the read fails if and only if a failure other than EINTR comes before all bytes are read or the end of the stream is found; it has then moved what was readable before the failure |
| FullTransfer.ReadAllSucceeds | webprogramming/HSocket.c:167-188 | without a failure other than EINTR the read succeeds, whatever the fragmentation |
| FullTransfer.ReadsIgnoreInterruptions | webprogramming/HSocket.c:171-175 | EINTR changes neither the outcome nor the number of bytes read |
| FullTransfer.Channel.WriteN | webprogramming/HSocket.c:134-156 | sz means the stream got exactly the buffer, in order; -1 that it got a proper prefix of it |
| FullTransfer.Channel.ReadN | webprogramming/HSocket.c:158-191 | fills exactly the returned prefix with the next bytes of the stream and leaves the rest alone; fewer than sz only at the end of the stream |
| FullTransfer.Channel.Write | webprogramming/HSocket.c:99-115 | answers to the first outcome that is no interruption: the bytes that one moves, or -1 when it fails; everything when the script holds only interruptions |
| FullTransfer.Channel.Read | webprogramming/HSocket.c:81-97 | the same for read, zero only at the end of the stream or for no bytes |
| FullTransfer.Channel.RoundTrip | webprogramming/HSocket.c:134-191 | what WriteN writes in full at one end ReadN, when it succeeds, has read back byte for byte at the other, whatever the two fragmentations; when each succeeds |
| ConcurrentTransfer.ReadsAreWritten | webprogramming/HSocket.c:134-191 | with both loops going on at once, at every moment the read buffer holds a prefix of the written one and is otherwise as it was; what lies between is on the way, in order |
| ConcurrentTransfer.WritesMove | webprogramming/HSocket.c:142-154 | a call of write moves what the kernel takes of the rest, fails WriteN exactly when it fails or takes nothing, and leaves the reader alone; WriteN calls it exactly until it is through |
| ConcurrentTransfer.ReadsMove | webprogramming/HSocket.c:167-186 | a call of read moves what the kernel gives of the bytes there are and the room there is, fails ReadN exactly when it fails, ends it exactly at zero, and waits exactly for a writer that is not closed |
| ConcurrentTransfer.FailuresAreTheKernels | webprogramming/HSocket.c:134-191 | over every schedule ReadN fails exactly when a read failed, WriteN exactly when a write failed or took nothing |
| ConcurrentTransfer.ShortReadsAreAtTheEnd | webprogramming/HSocket.c:176-190 | ReadN returns fewer bytes only when the writer is through and its end closed, with all that was sent |
| ConcurrentTransfer.Delivered | webprogramming/HSocket.c:134-191 | when both have succeeded the read buffer holds as much of the written one as fits |
| ConcurrentTransfer.RunsAreFinite | webprogramming/HSocket.c:142-188 | a schedule has at most one step for each byte of either buffer, one for the close, and the interrupted calls |
| ConcurrentTransfer.NeverStuck | webprogramming/HSocket.c:142-188 | until both loops are left one can move a byte or the written end can be closed |
| ConcurrentTransfer.CanDeliver | webprogramming/HSocket.c:134-191 | from every state without a failure some continuation completes the transfer |
| ConcurrentTransfer.WriterReturnsAsAlone | webprogramming/HSocket.c:134-156 | whatever the reader does in between, WriteN returns and sends what the outcomes of its own calls alone give |

## Left out

- Output, error strings, `sleep`, timing and `atoi`: input and output. A sleep is no step of its own; the next step of the thread may come arbitrarily late anyway.
- The `struct_id` field and the message counter of `thread_joinTerm.c`, which nothing depends on.
- Error exits of pthread calls, and creation of threads that fails: the calls succeed, and creating a thread and publishing its id is one step.
- Weak memory and the compiler's freedom with `glob++`: steps are sequentially consistent and every increment is one load and one store. Counters are mathematical integers.
- The main threads of `producer_consumer_model.c` and `thread_inc.c`: they only create two threads and join them, so both threads simply start.
- ProducerConsumer.RunsAreFinite: excludes spurious wakeups, because with them a run may wake and sleep for ever; so do the other termination theorems.
- The variant of `producer_consumer_model.c` without USE_COND_VAR: not modelled. It polls as `prod_no_condvar.c` does, but tests for the end before it takes the mutex.
- Fair scheduling in `prod_no_condvar.c`: a polling main may be scheduled for ever, so the theorems say that the loop can be left from every state and bound the steps between polls, not that it is left.
- The allocation size in `thread_multijoin.c`, line 75: the table has one entry for each thread.
- PollingConsumer.Process.ProducerStep: a producer makes no step after main has returned, because the return of main ends the process.
- SlotServer.Process.MainStep: the retry loop around accept, the signals and `sigsuspend` are left out; a suspended main may wake at any time. The theorems say when the server can accept again, not that it will.
- The data and descriptors of `multi_thread_server.c`: message contents, the stop word, and when a descriptor is closed.
- Cleanup.Process.CancelStep: only `pthread_cond_wait` is a cancellation point, as the comments at lines 32, 35 and 47 of the program say.
- Reactor.Process.Dispatch: the results of recv, send and accept, and the ready entries, are parameters; the kernel reports distinct registered descriptors, ready for no more than they are registered for apart from errors and hang-ups, and accept returns a descriptor that is not open. A failing `epoll_create`, `socket`, `bind` or `listen` is left out.
- The contents of the reactor's messages and the `arg` field, which nothing reads.
- ConcurrentTransfer.RunsAreFinite: counts interrupted calls apart, because a call may be interrupted without end.
- FullTransfer.Channel.WriteN: the kernel is a script of finitely many fragments, interruptions and failures; a call that is interrupted for ever does not return and is not covered.
- `Accept`, `Bind`, `Connect`, `Listen`, `Socket` and `Close` of `HSocket.c`: thin wrappers around one call.
- The file-lock, signal, daemon, multi-process and client programs and the `t_pthread_*` programs (among them the read-write lock of `t_pthread_rdlock.c` and the SIGCHLD handler of `multi_processor_server.c`): not modelled.
