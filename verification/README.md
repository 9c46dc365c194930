# libtask, verified

libtask is a library of cooperative tasks for one thread: a scheduler with one run
queue, channels with a CSP-style choice, queuing and reader-writer locks, rendezvous
points, a queue of sleeping tasks served by an fd task, and a small print library.
This project models its protocols and proves what they promise, over every input,
every schedule and every result of `rand()`. A step is what one task does between two
task switches.

Most protocols appear twice. Functions on values (`ChannelSpec`, `LockSpec`, `FdSpec`)
say what an operation does; classes (`ChannelImp`, `TaskLists`, `Scheduler`, `Locks`,
`FdTask`, `AllTasks`) do it as the library does, with arrays, links and counters
updated in place, and each method is proved to compute that function. The theorems
about runs are then proved of the functions.

| file | about |
|---|---|
| `Base.dfy` | sequences used as queues |
| `ChannelSpec.dfy`, `ChannelData.dfy`, `ChannelRuns.dfy`, `ChannelImp.dfy` | channels and `chanalt`: operations, where data go and who is chosen, runs, implementation |
| `Primes.dfy`, `Sieve*.dfy` | the concurrent prime sieve over these channels: safety, progress, termination, the program |
| `TaskLists.dfy`, `Scheduler.dfy`, `Yield.dfy`, `AllTasks.dfy` | intrusive lists, the scheduler, `taskyield`, the table of all tasks |
| `LockSpec.dfy`, `LockHolders.dfy`, `Locks.dfy` | locks and rendezvous points: operations and waiting, who holds them, implementation |
| `Kernel.dfy`, `KernelSteps.dfy`, `KernelViews.dfy`, `SleepRuns.dfy`, `TurnRuns.dfy` | scheduler, channels and locks as one system: a stall is a deadlock, who stops and who becomes ready, its runs are runs of its parts, `tasksleep` returns with its lock, ready tasks run in turn |
| `FdSpec.dfy`, `FdTask.dfy`, `FdRuns.dfy`, `AlarmRuns.dfy` | sleeping tasks and the fd task: operations, implementation, runs, deadlines and polls |
| `Numbers.dfy`, `Print.dfy`, `PrintVerbs.dfy` | number conversion, fields, formats, `vseprint`, the verbs |

`dafny verify dfyconfig.toml` checks the whole project.

## Where the code differs from what one may expect

- An epoll wakeup takes a task out of the queue of sleeping tasks without counting it
  down, a timeout counts it down (`libtask/fd.c:210-224`). The exact values of both
  counters are `FdRuns.TaskCountExact`; the consequence for the end of the program is
  `FdRuns.CountNeverZeroAgain`, and `FdRuns.CountStaysAtOne` is a run that meets it.
- A task that goes to sleep is put in front of others with the same alarm time
  (`libtask/fd.c:295`): `FdSpec.DelayInFront`. So equal alarms are served last come,
  first served: `FdSpec.LastComeFirst`.
- When a receiver takes from a full buffer into the very cell from which a waiting sender
  sends, the cell is written before it is read (`libtask/channel.c:162-176`), and the
  sender sends the element just received: `ChannelData.SentIsOld` says exactly when, and
  `ChannelData.SentAgain` is such an exchange.
- One call of `chanalt` may queue a send and a receive on the same unbuffered channel
  (`libtask/channel.c:248-251`); hence the wording of
  `ChannelRuns.NoMissedRendezvous`; `ChannelRuns.OneCallQueuesBoth` is such a call.
- Numbers are printed without their sign (`libtask/print.c:131-136`), and zero in base
  16 as `00x` (`libtask/print.c:144-149`): `Numbers.ArgumentRoundTrip` says exactly which
  arguments survive.
- `%p` without an `l` flag reads an `int`, so it misprints pointers above 2^31, and from
  2^32 on with a `u` flag; `%lp` misprints those above 2^63, and only `%lup` is exact but
  for zero (`libtask/print.c:100-136`): `Numbers.PointerRoundTrip`, with two such pointers
  in `Numbers.PointersMisprinted`.
- An unknown verb, `%%` among them, prints `*verb*` and drops the rest of the format
  (`libtask/print.c:164-167`): `Print.UnknownVerb`.
- The scan of a format steps over its NUL (`libtask/print.c:68`, then
  `libtask/print.c:59`) if it reaches a directive that has no verb. It does not reach
  one for which the room is used up before: `Print.OverrunExact` says for which formats
  and how much room it happens, and `Print.VSEPrint` reports it.

## Model

| member | source | states |
|---|---|---|
| `ChannelSpec.PutKeepsFifo` | libtask/channel.c:172-176 | Sending into the ring buffer appends to what it holds, read from `off`, across the wrap-around; everything sent is still what was received followed by the contents. |
| `ChannelSpec.TakeKeepsFifo` | libtask/channel.c:165-171 | Receiving from the ring buffer takes its oldest element, and `off` may wrap; everything sent is still what was received followed by the contents. |
| `ChannelSpec.CopyKeepsFifo` | libtask/channel.c:134-177 | In each of its cases (direct hand-over, receive then send, one side only) `altcopy` keeps the FIFO law, the buffer grows and shrinks by exactly the sides that took part, and the records of what was sent and received only grow. |
| `ChannelSpec.ExecCanCopy` | libtask/channel.c:146-177 | Whenever `altcanexec` holds, the partner that `altexec` picks makes `altcopy` legal: its assertions hold, the buffer neither overflows nor underflows, and `bufsize` is not zero where the modulo is taken. |
| `ChannelSpec.ExecEffect` | libtask/channel.c:179-196 | An executed alternative changes the queues of no one but the woken task, which leaves all of them; data move on its channel only; the partner's alternative has the opposite operation on the same channel and is recorded as the one that was executed. Where the data go is `ChannelData.ExecMovesData`. |
| `ChannelSpec.ExecKeepsInv` | libtask/channel.c:179-196 | `altexec` keeps: queues and blocked callers mirror each other exactly, every channel is first in first out, no rendezvous is missed. |
| `ChannelSpec.ParkKeepsInv` | libtask/channel.c:245-253 | A call that finds nothing executable and queues all its alternatives keeps the same invariant. |
| `ChannelSpec.ChanAltKeepsInv` | libtask/channel.c:199-260 | `chanalt`, for every list of alternatives and all results of `rand()`, keeps the invariant. |
| `ChannelData.ExecMovesData` | libtask/channel.c:117-196 | Told from histories and memory alone: the exchange carries out the executed alternative and the one alternative of the woken task whose index that task will return; what is received is in the cell that the receiving alternative points to, what is sent is what the sending one's cell holds, zeros behind a null pointer; no other cell changes. |
| `ChannelData.CallMovesData` | libtask/channel.c:216-253 | A call of `chanalt` that returns i does this with alternative i; a call that returns -1 or blocks moves nothing. |
| `ChannelData.SentIsOld` | libtask/channel.c:154-176 | What is sent is what the sender's cell held before the exchange, exactly unless a receiver empties one place of a full buffer into that same cell; then it is the element received. |
| `ChannelData.SentAgain` | libtask/channel.c:165-176 | Such an exchange: the buffer is full with 7, a sender waits to send the 8 in a cell, a receiver takes into that cell, and 7 is sent twice. |
| `ChannelData.EachAlternativeChosen` | libtask/channel.c:217-241 | Each executable alternative is chosen by exactly one residue of `rand()` modulo their number. |
| `ChannelData.EachWaiterChosen` | libtask/channel.c:185-193 | Each waiter on the other side is chosen by exactly one residue of `rand()` modulo their number. |
| `ChannelRuns.AlwaysInv` | libtask/channel.c:199-260 | The invariant holds in every state of every run of calls, channel creations and stores by any tasks. |
| `ChannelRuns.CreateKeepsInv` | libtask/channel.c:5-19 | Creating a channel keeps the invariant of the whole system; on the new channel a send is executable exactly if there is a buffer, a receive never, and on the others nothing changes. |
| `ChannelRuns.CallCommits` | libtask/channel.c:216-246 | A call that returns i has carried out alternative i, which was executable, with its data, and has nothing queued; it returns -1, having changed nothing, or blocks, only if no alternative was executable. |
| `ChannelRuns.BlockedCallSettlesOnce` | libtask/channel.c:187-193 | Along any run a blocked call stays as it was until exactly one event wakes its task; that event carried out the alternative whose index the call will return, with its data, and none of its alternatives is queued afterwards. |
| `ChannelRuns.CallCommitsOne` | libtask/channel.c:226-242 | Counted over all channels, a call commits one alternative for itself if it returns an index and one for the task it wakes, and no others. |
| `ChannelRuns.ReceiverGetsOldest` | libtask/channel.c:154-171 | What a receiver finds at its pointer is the oldest element sent and not yet received; no other memory changes. |
| `ChannelRuns.RunFifo` | libtask/channel.c:134-177 | Over any run what was received from a channel is an initial part of what was sent on it, the remainder is the buffer's contents in order, and both records only ever grow. |
| `ChannelRuns.NoMissedRendezvous` | libtask/channel.c:61-81 | In every reachable state: on a buffered channel a waiting sender means a full buffer and a waiting receiver an empty one; on an unbuffered channel waiting senders and receivers belong to one and the same call; `nbuf` and `off` are in range. |
| `ChannelRuns.CapacityExact` | libtask/channel.c:61-81 | A channel created with room for n holds at most n elements in every later state of the run; a sender waits only when it holds n, a receiver only when it holds none. |
| `ChannelRuns.OneCallQueuesBoth` | libtask/channel.c:248-251 | One and the same call can queue both on an unbuffered channel: a run in which it does. |
| `ChannelImp.Altarray.AddArray` | libtask/channel.c:31-37 | The array grown by 16 when full holds its old entries and then the new one. |
| `ChannelImp.Altarray.DelArray` | libtask/channel.c:39-42 | The last entry takes the place of the one removed. |
| `ChannelImp.Channel.AltDequeue` | libtask/channel.c:90-107 | Removes the alternative if it is queued; the abort is taken exactly if it is not. |
| `ChannelImp.Channel.Move` | libtask/channel.c:154-176 | The in-place updates of `buf`, `off`, `nbuf` and the memory cells are those of the specified copy. |
| `ChannelImp.ChanSystem.AltCopy` | libtask/channel.c:134-177 | The same with the roles sorted out from the operations of the two alternatives. |
| `ChannelImp.ChanSystem.AltAllDequeue` | libtask/channel.c:109-115 | Every alternative but the NOP ones leaves its queue, and no other; `absent`, the abort of `altdequeue`, is impossible for a blocked caller. |
| `ChannelImp.ChanSystem.AltCanExec` | libtask/channel.c:61-81 | Executable means a waiting partner on an unbuffered channel, space or data on a buffered one, never for a NOP. |
| `ChannelImp.ChanSystem.AltExec` | libtask/channel.c:179-196 | On the heap: the channels, lists, memory and recorded index after the call, and which task it makes ready, are those of the specified execution; no abort is reached. |
| `ChannelImp.ChanSystem.CountReady` | libtask/channel.c:216-225 | Counts the executable alternatives. |
| `ChannelImp.ChanSystem.Pick` | libtask/channel.c:227-241 | Finds the j-th executable alternative, and always finds one. |
| `ChannelImp.ChanSystem.QueueAll` | libtask/channel.c:248-251 | Queues every alternative but the NOP ones, in order. |
| `ChannelImp.ChanSystem.Alternate` | libtask/channel.c:199-253 | The whole of `chanalt` on the heap, up to its return or task switch, refines the specified call; the invariant holds again afterwards. |
| `ChannelImp.ChanSystem.Resume` | libtask/channel.c:255-259 | After the task switch the call returns the index its waker recorded for this task. |
| `ChannelImp.ChanSystem.ChanCreate` | libtask/channel.c:5-19 | The new channel has the next number and is empty; all others are as before. |
| `SieveSafety.AlwaysGood` | libtask/primes.c:12-49 | In every state of every run, whatever the schedule, `rand()` and the buffer size, the printed numbers are exactly the first primes in order; when `taskexitall` has been called they are exactly the primes up to the goal. |
| `SieveSafety.SievePrintsPrimes` | libtask/primes.c:19-23 | The same said of the output alone: a list of all primes below some number, all of them at most the goal; complete on exit. |
| `SieveSafety.StreamOf` | libtask/primes.c:26-30 | What stage k has received is an initial part of the numbers from 2 on that none of the first k - 1 printed primes divides, and what it has sent likewise with k primes. |
| `SieveSafety.FirstIsNextPrime` | libtask/primes.c:19-20 | The first number that reaches a new stage is the next prime after those printed. |
| `SieveSafety.ExitComplete` | libtask/primes.c:20-21 | When that number is beyond the goal, everything up to the goal has been printed. |
| `SieveSafety.StepKeeps` | libtask/primes.c:12-49 | Each step of any task (a channel operation, and what follows it up to the next) keeps the invariant of all tasks and channels. |
| `SieveProgress.SomeTaskCanStep` | libtask/primes.c:26-30 | Before the exit some task can always make a step: the pipeline never deadlocks. |
| `SieveProgress.StepRaisesTotal` | libtask/primes.c:12-49 | Every step before the exit increases a measure of what the tasks have done. |
| `SieveTermination.SieveTerminates` | libtask/primes.c:19-31 | For every goal and finite buffer there is a bound on the length of all runs. |
| `SieveTermination.SieveReachesExit` | libtask/primes.c:20-21 | A run that cannot go on has called `taskexitall` with exactly the primes up to the goal printed. |
| `SieveTermination.ReceivedBound` | libtask/primes.c:24-30 | No channel ever carries more than a number of elements fixed by the goal and the buffer size. |
| `SieveProgram.Program.Run` | libtask/primes.c:12-49 | One step of a task, run on the channel implementation, is a step of the specified process network. |
| `SieveProgram.RunSieve` | libtask/primes.c:33-49 | The program over the channel implementation, scheduled arbitrarily, terminates and has printed exactly the primes up to the goal. |
| `Primes.NextPrime` | libtask/primes.c:19-30 | The least number above 1 that no prime below it divides is the next prime. |
| `TaskLists.InsertAtUnique` | libtask/fd.c:295-305 | The position behind the last element with an earlier alarm is the only position with later or equal alarms behind it and an earlier one in front. |
| `TaskLists.LinkedRemoved` | libtask/task.c:349-362 | The pointer writes of `deltask` at any position leave a correctly linked list of the other tasks. |
| `TaskLists.LinkedInserted` | libtask/fd.c:298-321 | The pointer writes of the insertion leave a correctly linked list with the task at the chosen position. |
| `TaskLists.Tasklist.AddTask` | libtask/task.c:337-347 | Appends: the list is the old one and then the task. |
| `TaskLists.Tasklist.DelTask` | libtask/task.c:349-362 | Removes the task, wherever it stands, and keeps the order of the others. |
| `TaskLists.Tasklist.Insert` | libtask/fd.c:295-321 | Sorted insertion: behind the last task with an earlier alarm. |
| `Scheduler.Sched.AddTask` | libtask/task.c:337-347 | Over all queues that share a task's links: only the one queue changes, every task stays in at most one queue, and READY still means being in the run queue. |
| `Scheduler.Sched.DelTask` | libtask/task.c:349-362 | The same for removal; the task then stands in no queue. |
| `Scheduler.Sched.TaskReady` | libtask/task.c:168-175 | Appends the task to the run queue unless it is ready already; no other queue changes. |
| `Scheduler.Sched.Dispatch` | libtask/task.c:220-228 | Takes the head of the run queue, which is then idle, in no queue and running; counts the switch with 32-bit wrap-around; does nothing when the queue is empty. |
| `Scheduler.Sched.TaskYield` | libtask/task.c:181-185 | The running task goes to the end of the run queue and the switch counter is remembered. |
| `Scheduler.Sched.TaskExit` | libtask/task.c:199-203 | The running task becomes exiting and stands in no queue; queues and other tasks stay as they are. |
| `Yield.TicketStep` | libtask/task.c:212-233 | Whatever happens to the run queue, the switch that will run a queued task has a fixed number, modulo the range of the counter. |
| `Yield.YieldCountsReady` | libtask/task.c:181-188 | `taskyield` returns the number of tasks that were ready when it was called, whatever they do next, also when the counter wraps (fewer than 2^31 ready tasks). |
| `AllTasks.Table.Create` | libtask/task.c:139-153 | The new task gets the next slot; slots remain numbered 0 to `nalltask` - 1 without repetition, and the array is as long as `nalltask` rounded up to 1024. |
| `AllTasks.Table.Remove` | libtask/task.c:234-240 | The last task moves into the free slot and is told so; the same invariant holds, also when the task removed was the last. |
| `AllTasks.Table.SwitchedBack` | libtask/task.c:233-240 | A task that has switched back leaves the table, and is counted down, exactly if its state is exiting. |
| `LockSpec.AlwaysHeldInv` | libtask/qlock.c:52-142 | In every state of every run of a reader-writer lock: a writer excludes readers, `readers` counts the read holds, queued writers imply a holder, queued readers imply a writer that holds or waits; the abort for remaining readers is never taken. |
| `LockSpec.ReaderBypass` | libtask/qlock.c:52-65 | While a reader waits, and up to its admission, at most one writer is let in. |
| `LockSpec.ReaderAdmitted` | libtask/qlock.c:132-136 | A waiting reader leaves the queue only by being let in, together with all others that wait, when a writer unlocks. |
| `LockSpec.WriterInTurn` | libtask/qlock.c:106-142 | A writer behind k others is let in by exactly the grant that follows k further ones. |
| `LockSpec.ReadersOnlyInBatch` | libtask/qlock.c:55-65 | While a writer waits, readers are let in only as the batch that a writer's unlock releases. |
| `LockSpec.AlwaysQInv` | libtask/qlock.c:6-50 | A free queuing lock never has waiters, in every state of every run. |
| `LockSpec.OwnedInTurn` | libtask/qlock.c:37-50 | A waiter behind k others owns the lock from the unlock that follows k further ones, and not before. |
| `LockSpec.OwnerStays` | libtask/qlock.c:17-21 | A task that was handed the lock owns it until it unlocks it, so the check after the task switch succeeds. |
| `LockHolders.OwnerHeadsLine` | libtask/qlock.c:6-50 | Over any run a new queuing lock is a line: who locks joins its end, `canqlock` only an empty one, an unlock takes off the head; the head is the owner and the others wait in that order. |
| `LockHolders.LockAnswers` | libtask/qlock.c:6-22 | A call gets the lock at once exactly if the line is empty, whether or not it may block; else it waits or is refused. |
| `LockHolders.WriterAlone` | libtask/qlock.c:79-142 | Mutual exclusion: over any run a writer keeps the lock until its own `wunlock`; until then nobody is let in and nobody reads. |
| `LockHolders.ReaderAnswers` | libtask/qlock.c:52-65 | A call for reading is let in exactly if no writer holds the lock or waits; else it goes to the end of the waiting readers, or changes nothing if it may not block. |
| `LockHolders.WriterAnswers` | libtask/qlock.c:79-92 | A call for writing is let in exactly if nobody holds the lock; else it goes to the end of the waiting writers, or changes nothing if it may not block. |
| `LockHolders.ReaderLeaves` | libtask/qlock.c:106-116 | The last reader's unlock hands the lock to the first waiting writer or frees it; any other takes that reader's hold away only. |
| `LockHolders.WriterLeaves` | libtask/qlock.c:118-142 | The writer's unlock hands the lock to all waiting readers, else to the first waiting writer, else to nobody. |
| `Locks.QueuingLock.Lock` | libtask/qlock.c:6-17 | Takes a free lock, fails or queues at the end of the waiting list, on the linked lists. |
| `Locks.QueuingLock.Unlock` | libtask/qlock.c:37-50 | Hands the lock to the first waiter and makes it ready, or frees it. |
| `Locks.ReadWriteLock.ReadLock` | libtask/qlock.c:52-65 | Enters if no writer holds or waits; otherwise fails or queues. |
| `Locks.ReadWriteLock.WriteLock` | libtask/qlock.c:79-92 | Enters if nobody holds the lock; otherwise fails or queues. |
| `Locks.ReadWriteLock.ReadUnlock` | libtask/qlock.c:106-116 | The last reader lets the first waiting writer in. |
| `Locks.ReadWriteLock.AdmitReaders` | libtask/qlock.c:132-136 | The draining loop: every waiting reader is counted and made ready, in order. |
| `Locks.ReadWriteLock.WriteUnlock` | libtask/qlock.c:118-142 | Lets in all waiting readers, or else the first waiting writer, and does not abort when called by the holder. |
| `Locks.Rendezvous.Sleep` | libtask/rendez.c:6-13 | The caller is queued before its lock is released; the lock goes to its first waiter. |
| `Locks.Rendezvous.Wakeup` | libtask/rendez.c:18-33 | Wakes the first sleeper, or all of them in order, and returns how many they were. |
| `Kernel.DoKeeps` | libtask/task.c:212-233 | Each step of the system of scheduler, channels, locks and rendezvous points keeps: every live task stands in exactly one place, as the queues have it, and all parts keep their invariants. |
| `Kernel.AlwaysSysInv` | libtask/task.c:212-233 | So in every state of every run. |
| `Kernel.StallIsDeadlock` | libtask/task.c:217-224 | When the scheduler finds the run queue empty with tasks left, no step is possible, and every task but those that stepped aside by themselves is blocked for good: no partner, data or space for any alternative, no free lock with waiters. |
| `Kernel.TurnHoldsLock` | libtask/task.c:220-233 | A turn of the scheduler runs the head of the run queue; if that task comes back from a wait in `_qlock` it owns the lock, and if from the wait in `tasksleep` it owns its lock or joins the lock's queue. |
| `Kernel.SleeperStays` | libtask/rendez.c:18-33 | Each step leaves a sleeper in its place unless it is a wakeup on its point, and `taskwakeupall` makes all sleepers ready in order. |
| `KernelSteps.AlwaysReleased` | libtask/rendez.c:9-11 | In every state of every run no task sleeps on a rendezvous point as the owner of its lock. |
| `KernelSteps.SleepReleases` | libtask/rendez.c:6-13 | `tasksleep` puts the caller behind the other sleepers, and its lock then belongs to the first who waited for it, who is ready, or to nobody. |
| `KernelSteps.WakeupReadies` | libtask/rendez.c:18-33 | `taskwakeup` makes the first sleeper ready and no other, `taskwakeupall` all of them in order. |
| `KernelSteps.StopsExactly` | libtask/task.c:163-203 | A caller runs on after its call except if nothing it asks for is there and it may block, or it sleeps, yields, switches or exits; and where it then stands. |
| `KernelSteps.ReadiedExactly` | libtask/task.c:168-175 | Which tasks each step puts behind the run queue, and in which order. |
| `KernelViews.RWRun` | libtask/qlock.c:52-142 | Seen at one reader-writer lock, any run of the system is a run of that lock, so that the theorems about its runs hold in the system. |
| `KernelViews.QRun` | libtask/qlock.c:6-50 | The same for a queuing lock, with `tasksleep` as an unlock and the return from it as a lock. |
| `KernelViews.ChanRun` | libtask/channel.c:199-260 | The same for the channels together. |
| `SleepRuns.SleepReturns` | libtask/rendez.c:6-16 | Over any run: when a task that called `tasksleep` runs again for the first time, it holds the lock of the rendezvous point, and exactly one wakeup on this point made it ready. |
| `SleepRuns.Stages` | libtask/rendez.c:6-16 | Over any run, up to then it sleeps and has not been woken, or has been woken once and is ready, in the lock's queue, or ready and owner. |
| `TurnRuns.RunsInTurn` | libtask/task.c:220-228 | Over any run a ready task with k others before it stays in the run queue, k less the turns taken, until it is run by exactly the turn that follows k further ones. |
| `Kernel.BootOK` | libtask/task.c:155-159 | Any set of created tasks with fresh objects is a legal start. |
| `FdSpec.InsertKeepsSorted` | libtask/fd.c:295-305 | The queue of sleeping tasks stays sorted by alarm time. |
| `FdSpec.DelayInFront` | libtask/fd.c:293-322 | In a sorted queue a new sleeper stands in front of exactly those whose alarm is not earlier than its own, and the others keep their order. |
| `FdSpec.DueExact` | libtask/fd.c:218-225 | In a sorted queue the expiry loop pops exactly the tasks whose alarm is due. |
| `FdSpec.DueInOrder` | libtask/fd.c:218-225 | Due sleepers enter the run queue in the order of the queue of sleepers, behind those already ready. |
| `FdSpec.LastComeFirst` | libtask/fd.c:293-297 | Of two sleepers with the same alarm the one that came later is made ready first when they become due. |
| `FdSpec.PollTimeoutBound` | libtask/fd.c:181-199 | The poll waits 0 to 20 ms, never past the first alarm, and within a millisecond of it when that is less than 20 ms away. |
| `FdSpec.RoundExact` | libtask/fd.c:210-225 | A round of the fd task wakes the tasks with events, then the due ones in queue order; nobody else, nobody twice, and the queue left is sorted. |
| `FdSpec.ShutdownLists` | libtask/fd.c:228-238 | The cleanup wakes everybody left, in queue order, with EIO, and counts each of them down; `taskcount` falls by one exactly if the count of sleepers reaches zero in doing so. |
| `FdSpec.WithoutOneMore` | libtask/fd.c:210-216 | Taking one more task out of the queue is `deltask` of that task at its position. |
| `FdTask.FdTask.NextTimeout` | libtask/fd.c:181-199 | Computes the specified timeout from the head of the queue. |
| `FdTask.FdTask.TaskDelay` | libtask/fd.c:285-326 | Starts the fd task if needed, inserts the task with its alarm ms million nanoseconds from now, and counts it, on the linked lists. |
| `FdTask.FdTask.WakeEvents` | libtask/fd.c:210-216 | The loop over the events takes exactly these tasks out of the queue and makes them ready, with udata 0. |
| `FdTask.FdTask.ExpirePass` | libtask/fd.c:219-225 | The expiry loop wakes the due tasks with LIBTASK_TIMEOUT and counts them down. |
| `FdTask.FdTask.Cleanup` | libtask/fd.c:228-238 | The cleanup loop wakes all sleepers with EIO and counts them down. |
| `FdTask.FdTask.AfterPoll` | libtask/fd.c:209-225 | Both loops together are one specified round. |
| `FdTask.FdTask.AfterCallback` | libtask/fd.c:227-240 | After a callback that returned -1 everybody is woken and the fd task is no longer started; otherwise nothing changes. |
| `FdRuns.DoKeeps` | libtask/fd.c:162-278 | Every step of the fd task, of its callback and of all other tasks keeps: sorted and disjoint queues, whoever epoll knows is asleep or ready, the counters, the fd task's place in the run queue. |
| `FdRuns.AlwaysInv` | libtask/fd.c:162-278 | So in every state of every run, also across several fd tasks. |
| `FdRuns.EpollSound` | libtask/fd.c:177-216 | Whenever the fd task polls, nobody else is ready and every task known to epoll is in the queue of sleeping tasks, so each event's `deltask` acts on a member. |
| `FdRuns.SleepEndsExactly` | libtask/fd.c:209-238 | A task stops sleeping exactly when a poll finds an event for it, its alarm due, or the shutdown; it is then ready and its udata says which. |
| `AlarmRuns.WakesAtDeadline` | libtask/fd.c:210-238 | A task that called `taskdelay` or `fdwait` and has slept since wakes exactly at a poll with an event for it, or one at which ms milliseconds, 30 s for `fdwait`, have passed, or at the shutdown; it finds 0, 1989 or 5 in its udata. |
| `AlarmRuns.KnownToEpoll` | libtask/fd.c:265-274 | As long as it sleeps epoll knows it exactly if it called `fdwait`. |
| `AlarmRuns.PollsWhenIdle` | libtask/fd.c:170-202 | Coming back from `taskyield` the fd task polls exactly if nobody was ready when it called. |
| `AlarmRuns.RunningExactly` | libtask/fd.c:209-239 | Who runs after each step of the fd task and the others. |
| `AlarmRuns.ReadiedExactly` | libtask/task.c:155-187 | What each call puts behind the run queue. |
| `FdRuns.TaskCountExact` | libtask/fd.c:213-224 | `sleepingcounted` is the number of sleepers plus all epoll wakeups so far; `taskcount` equals the live tasks exactly if nobody sleeps and epoll has never woken a task. |
| `FdRuns.CountNeverZeroAgain` | libtask/task.c:217-219 | With no task left, the scheduler's test for `taskcount == 0` succeeds exactly if epoll has never woken a task; after one such wakeup it never does. |
| `FdRuns.ShutdownCounts` | libtask/fd.c:228-238 | After the cleanup of any run nobody sleeps, and `sleepingcounted` is the number of epoll wakeups since the start; if there were any, `taskcount` stays one above the number of tasks. |
| `FdRuns.CountStaysAtOne` | libtask/fd.c:210-216 | A run that ends with no task left and `taskcount` at 1, after one epoll wakeup. |
| `Numbers.NumberRoundTrip` | libtask/print.c:139-149 | For every magnitude and base the text reads back as the number, except zero in base 16, whose text `00x` does not. |
| `Numbers.NumberIsShortest` | libtask/print.c:137-149 | There is no zero in front of the digits but for the base. |
| `Numbers.NumberFits` | libtask/print.c:107-149 | The text of any 64-bit magnitude has at most 23 characters, so it fits the 30-byte buffer with its NUL. |
| `Numbers.FormatNumber` | libtask/print.c:130-149 | The loop and the prefixes, written backwards into the buffer, leave exactly that text and stay inside the buffer. |
| `Numbers.PrintsMagnitude` | libtask/print.c:111-136 | For every value of every argument type the number printed is its absolute value, also for the least one. |
| `Numbers.ArgumentRoundTrip` | libtask/print.c:131-149 | The text of an argument reads back as the argument exactly if it is not negative, and not zero in base 16. |
| `Numbers.PointerRoundTrip` | libtask/print.c:100-149 | A 64-bit value printed with `%p` or `%x` reads back exactly if it is not zero and, without `l`, at most 2^31, or below 2^32 with `u`; with `l` at most 2^63, or any with `u`. |
| `Numbers.PointersMisprinted` | libtask/print.c:116-136 | Two pointers that both print as 0x1000: one loses its upper half, the other its sign. |
| `Print.PrintStr` | libtask/print.c:19-49 | Writes the field, padded or cut to the room, into the buffer, touches nothing else and ends before `edst`. |
| `Print.FieldFits` | libtask/print.c:31-48 | A field that fits is the padded string. |
| `Print.FieldFills` | libtask/print.c:35-38 | A field that does not fit uses the room up. |
| `Print.FieldKeeps` | libtask/print.c:35-48 | A string that fits is never cut: a field too wide loses blanks only. |
| `PrintVerbs.PaddedLayout` | libtask/print.c:19-48 | A field has as many columns as asked for, or more if the string has, with the string at one side and blanks at the other, as the sign says. |
| `PrintVerbs.FieldLayout` | libtask/print.c:29-48 | With less room there are fewer blanks, and then less of the string, from its end. |
| `Print.RenderFits` | libtask/print.c:59-172 | Output that fits is written whole. |
| `Print.RenderFills` | libtask/print.c:59-172 | Output that does not fit uses the room up. |
| `Print.RenderPrefix` | libtask/print.c:59-172 | Output is an initial part of the full output exactly if no piece is cut inside, or the one that is cut has no blanks in front, or shows nothing but blanks. |
| `Print.CutInFront` | libtask/print.c:33-48 | An output that is not: blanks in front are cut before the string is. |
| `Print.OutputIsCString` | libtask/print.c:175-175 | The output contains no NUL, if the format, the argument strings and the message contain none, so it ends at the NUL behind it. |
| `Print.FormatMeans` | libtask/print.c:59-172 | The scan of a format that begins with some characters and directives yields their pieces in order, each with its own arguments and flags, and goes on behind them. |
| `Print.WidthRoundTrip` | libtask/print.c:65-84 | The digits of a number in a directive ask for exactly that many columns, with a minus sign in front for left justification. |
| `Print.UnknownVerb` | libtask/print.c:164-167 | An unknown verb prints `*verb*` and drops the rest of the format. |
| `PrintVerbs.FlagsMean` | libtask/print.c:68-93 | A flag counts wherever it stands, and the width is the number that all digits of the directive spell. |
| `PrintVerbs.NumberPrinted` | libtask/print.c:94-151 | `%d`, `%o`, `%x` and `%p` take the next argument, cut to the int, long or unsigned that the flags name, and print its absolute value in base 10, 8 and 16, in a field of the width given; zero in base 16 is `00x`. |
| `PrintVerbs.TextPrinted` | libtask/print.c:153-163 | `%c` prints one character, `%s` a string, `%r` the message, which takes no argument. |
| `PrintVerbs.VerbsExactly` | libtask/print.c:94-166 | There are no other verbs. |
| `PrintVerbs.TextAsIs` | libtask/print.c:59-63 | Text without a directive is printed as it is, as far as there is room. |
| `Print.ItemsOnly` | libtask/print.c:59-172 | A format of characters and directives prints just these. |
| `Print.CutOff` | libtask/print.c:68-68 | A directive that the end of the format cuts off prints nothing. |
| `Print.OverrunExact` | libtask/print.c:59-68 | The scan reads on behind the end of the format exactly if the format is some items and a directive that is cut off, and there is room for more than the items print. |
| `Print.OverrunWitness` | libtask/print.c:59-68 | The format `ab%` overruns with room for three characters, and not with room for two. |
| `Print.FormatPrints` | libtask/print.c:59-172 | Every format is a list of items that ends there, with an unknown verb and more behind it, or with a directive that is cut off; it prints its items, and the message in the second case. |
| `Print.VSEPrint` | libtask/print.c:51-177 | For any format and `dst < edst`: terminates although the pointer into the format may move to another string; reports exactly whether the end of the format is overrun; and otherwise writes the specified output and a NUL inside the bounds, so the final assertion holds, and changes nothing else. |

## Left out

- Context switches, stacks and assembly (`context.c`, `asm.S`, `needstack`, the argument splitting of `taskstart`): a switch is the boundary between two steps.
- `net.c` and the system-call wrappers of `fd.c`: epoll readiness is any subset of the registered tasks, and the clock shows any value; overflow of `ms*1000000` is not modelled.
- The `poll` branch of `fd.c` for other systems: it readies tasks that are still linked in the queue of sleeping tasks.
- File descriptors and `dup` in `fdwait`: a registration is the task that waits; a callback of the fd task may create tasks and make them ready, but one that blocks is not modelled, and an epoll error other than EINTR, which ends the program, is no step.
- `chanfree`, failing `malloc` and `realloc`, several threads, and the clean-up when `taskscheduler` ends.
- The typed wrappers around `chanalt`, and the debugging functions `taskname`, `taskstate` and `taskinfo`.
- Channel elements are integers in a map from locations to values: element sizes, and the bytes copied by `amove`, are not modelled; a null data pointer is.
- Pointers to alternatives are pairs of a task and an index, looked up in the list that the blocked task passed.
- Integers of channels, locks and lists are unbounded; the switch counter of the scheduler and the numbers of the print library have their widths (32-bit `int`, 64-bit `long`). Field widths in formats are unbounded.
- The sieve computes with mathematical integers and prints (`quiet` unset); its tasks are scheduled in any order, of which the run queue's is one.
- Locks are released by their holders: the library does not check it, and `Kernel.Enabled`, `LockSpec.Allowed` and `LockSpec.QAllowed` demand it. A task that locks a queuing lock it owns waits for itself; such a state is one of those that `Kernel.StallIsDeadlock` speaks of.
- `taskready` is called only for ready tasks, which it ignores, or for tasks that stand in no queue: `Kernel.Enabled` and `FdRuns.Enabled` demand it of tasks that wake others by hand.
- The sleeping tasks and the channels and locks are two systems: `Kernel` has no timers, and in `FdRuns` whatever other tasks wait for is behind `Switch` and `MakeReady`.
- FdTask.FdTask.TaskDelay: the time it returns after the task switch is not modelled, because the clock is arbitrary.
- ChannelImp.ChanSystem.AltExec: names the task it makes ready and leaves `taskready` to the caller, because the channels know no scheduler; `Kernel` puts the task into the run queue.
- ChannelImp.ChanSystem.Resume: that the recorded index is that of the one committed alternative is `ChannelRuns.BlockedCallSettlesOnce`, which speaks of runs.
- Print.VSEPrint: what the program does once it reads behind the end of the format depends on memory that is not part of this model; the method reports the overrun and stops.
- Scheduler.Sched.Dispatch: the test for `taskcount == 0` before it is an enabling condition in `FdRuns` instead, because the count belongs to the table of tasks.
- No class refines the machines of `Kernel` and `FdRuns` as wholes: `Scheduler`, `Locks`, `ChannelImp` and `FdTask` refine their parts, and the theorems about runs are about the machines on values.
- `taskcount` is one variable in the program; `AllTasks.Table` and `FdTask.FdTask` each have it as a field and model their own changes to it, and `FdRuns.TaskCountExact` speaks of both kinds together.
