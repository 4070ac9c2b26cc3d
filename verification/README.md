# Verified models of the linux-riscv32 samples

The samples in `C/` and `modules/` teach operating-system concepts. Four of them carry state,
concurrency or arithmetic of their own, and this project models those and proves what they promise:

- **The priority-inversion testbed.** `logger`, `health` and `payment` run under `epoll_server` on
  one CPU. `logger` and `health` share a lock, either a plain semaphore or a priority-inheritance
  mutex. `Testbed` is a step system: a step is one system call or one pure computation of one
  process, preemptive priority scheduling picks who moves (section 2.8.4 of the POSIX.1-2017 System
  Interfaces volume), and timers, clients and hang-ups come from outside. `LockProtocol` holds the
  two locks, `TestbedInvariant` what every step keeps, `BoundedBlocking` and `Inversion` the two
  faces of the inversion, `LogShape`, `RunAccounts` and `RequestAccounts` what whole runs do to the
  log, the FIFO, payment's slices and the clients' requests. `Programs` holds the main loops of the
  three programs on the lock objects of either build and shows that, undisturbed, they are runs of
  the step system; `Processes` the buffers of logger and health, `Dispatcher` the event loop of the
  server, `LockNames` how processes find the mutex by name.
- **The `mychardev` character device.** `ByteFile` is the bounded byte file, `CharDevice` the driver
  changing its page in place and the user program's data-flow test through the mapping,
  `CharDeviceThreads` any number of open files interleaving step by step, `ModuleLoad` loading and
  unloading.
- **Counter and clock arithmetic.** `TimeCounter` (section 10.1 of the RISC-V Unprivileged ISA,
  version 20191213), `Calibration` and `BusyWait`.
- **Semaphore-protected shared memory.** `SysVLock` (the `semop` and `semctl` pages, with SEM_UNDO)
  and `PosixShm`.

Programs that change things in place are classes and methods proved against specification
functions; interleavings are step relations over the same functions. In the step systems a run is a
sequence of moves that is legal from the initial state, and every theorem about runs holds for all
of them.

## Findings

- While health is blocked payment or the server can run first if and only if the lock is the plain
  semaphore or the logger holds it at the read of an empty FIFO (`InversionIff`). With the plain
  semaphore nothing bounds the number of payment slices, if and only if payment has neither exited
  nor been hung up on (`UnboundedIff`). With the mutex the exception is reachable: the logger's poll is
  answered by a hang-up, it takes the lock, and a new writer opens the FIFO before its read, which
  then sleeps while the lock is held (`EmptyReadReachable`).
- `C/shm.c:37` says the semaphore is initialised when it is newly created; the code always
  initialises it, and a process started while another is in the critical section breaks mutual
  exclusion (`CreateBreaksExclusionIff`, `TwoInstancesCollide`).
- `C/health.c:27` says health opens what the logger created; the inheriting build ignores the flags
  and may create the object itself, before or after the logger's unlink
  (`EarlyHealthGetsAnotherLock`, `EarlyOpenCollides`).
- `C/payment.c:62` speaks of 2000 ms of CPU. A slice ends early, by at most 999999 ns, only when the
  nanoseconds borrow, and then a full second strikes during it (`EarlyReturnIff`). Hence a job takes at
  least 1998.000002 ms, and at least 2000 ms if no slice is early (`PaymentJob`); a job that starts
  at 0.95 s and whose first and eleventh slices are early takes exactly that (`ShortestJobExists`).
- A short `copy_from_user` can destroy data that still counts as readable, unless it ends at or past the
  end of the data (`ShortCopySafeIff`). A caller is safe from that exactly when the write has no room or
  nothing to write or starts at or past the end of the data (`WriteSafeIff`); a string written in
  sequence from the start comes back whole (`RoundTrip`).
- A worker of the POSIX sample that dies inside its critical section locks every other one out for good,
  and nothing else does (`LockedOutIff`).

## Model

| member | source | states |
|---|---|---|
| LockProtocol.PlainSem.Wait | C/pi_sem.h:63 | enters exactly when the value is positive, otherwise joins the waiters |
| LockProtocol.PlainSem.Post | C/pi_sem.h:64 | with waiters the lock passes to one of them, else the value goes up |
| LockProtocol.PiMutex.Wait | C/pi_sem.h:49 | enters a free mutex; otherwise waits and lends the owner its priority; a new contender leaves the priorities exactly the inherited ones |
| LockProtocol.PiMutex.Post | C/pi_sem.h:50 | drops to the base priority and hands over; the new owner inherits from those still waiting, and the priorities stay exactly the inherited ones |
| LockProtocol.PriorityIsInherited | C/pi_sem.h:20-28 | after every run of waits and posts by any processes the owner runs at exactly the highest of its own and its waiters' priorities, everybody else at its own; so the owner outranks its waiters |
| TestbedInvariant.MutualExclusionAndRank | C/run_poll_fifo.sh:6-9 | in every reachable state of both builds at most one process is in its critical section, the owner of the mutex runs at the inherited priority and outranks its waiters, and the logger never sleeps on the lock |
| TestbedInvariant.HealthRunsAlone | C/health.c:84-94 | while health is in its critical section nobody else can be scheduled |
| TestbedInvariant.StepKeepsEvents | C/health.c:71-98 | an event reported to health stays pending until health consumes it, so neither of its reads blocks |
| BoundedBlocking.InheritanceBoundsBlocking | C/logger.c:41-55 | in every run in which the polled FIFO has a writer, while health is blocked neither payment nor the server steps and the logger takes fewer steps than its critical section has left, at most four |
| BoundedBlocking.BoundedBlockingFrom | C/health.c:84 | the same from any reachable blocked state whose logger has data to read |
| BoundedBlocking.LoggerHandsOver | C/logger.c:44-55 | the logger alone carries out exactly the remaining steps and the last one gives health the lock |
| BoundedBlocking.InversionIff | C/pi_sem.h:49-64 | over both builds, while health is blocked an outsider can run before it gets the lock if and only if the lock is the plain semaphore or the logger is at the read of an empty FIFO |
| Inversion.EmptyReadReachable | C/logger.c:41-44 | a legal run of the inheriting build that ends there |
| Inversion.UnboundedInversion | C/payment.c:49-65 | with the plain semaphore, for every k, a legal run in which a health check stays blocked behind the lock-holding logger while payment completes 20k busy slices |
| Inversion.InversionFrom | C/pi_sem.h:60-64 | from every state of the plain build with health blocked and payment served, whatever payment and the server are in the middle of, at least 20k slices for every k |
| Inversion.UnboundedIff | C/payment.c:49-65 | in every reachable blocked state of the plain build no number bounds the slices if and only if payment has neither exited nor been hung up on |
| LogShape.LogAlwaysWellShaped | C/health.c:84-111 | after every run: record numbers 1,2,3,... without gaps, delay lines directly after their check, checks only between a start line and the next stop line |
| LogShape.RunKeepsLog | C/logger.c:38-52 | counter, `running` flag and program counters agree with the log throughout |
| RunAccounts.FifoBytesConserved | C/logger.c:44 | over every run the bytes written to the FIFO equal the chunks read, in order, plus what is left |
| RunAccounts.RecordsAreTheChunks | C/logger.c:45-52 | over every run each chunk read becomes exactly one numbered record with its text, in order, but for the one in hand |
| RunAccounts.ChecksAreDue | C/health.c:77-86 | in no run are there more check lines than timer expirations |
| RunAccounts.EveryMessageCostsItsSlices | C/payment.c:52-63 | over every run slices done and left are exactly 20 per message payment reads |
| RequestAccounts.RequestsArrive | C/epoll_server.c:101-116 | over every run payment reads exactly the P payloads of the requests that arrived and health the H payloads, in order, but for what is underway at the end |
| RequestAccounts.CommandsAreObeyed | C/health.c:96-113 | over every run the started and stopped lines are exactly those the commands read call for by their words, in order, and checking is on exactly when the last says started |
| RequestAccounts.CommandObeyed | C/health.c:102-110 | in every state health's step at a command does what the words in it say, STOP before START |
| Processes.LoggerProcess.RecordChunk | C/logger.c:45-52 | editing the buffer in place yields the chunk as a C string less one trailing newline, numbered by the next count |
| Processes.StrStr | C/health.c:102 | finds the word if and only if it occurs |
| Processes.HealthProcess.Command | C/health.c:98-110 | a command with STOP in it stops and logs "stopped", even with START; one with START only starts and logs "started"; any other changes nothing |
| Programs.World.LoggerIteration | C/logger.c:37-57 | one undisturbed turn of the loop is a legal run of logger moves and has its effect: nothing without data, else one chunk out of the FIFO and one record into the log, lock free again |
| Programs.World.PollAndRecord | C/logger.c:37-57 | no critical section without data or hang-up, else exactly one, with the record inside |
| Programs.World.HealthIteration | C/health.c:70-115 | one undisturbed turn over the reported events is a legal run of health moves, late exactly when the clock shows more than 10 ms, and handles the events in order |
| Programs.World.CheckIfRunning | C/health.c:77-95 | the timer is consumed; while running, one critical section with a check line and, exactly when more than 10 ms passed, a delay line; otherwise nothing |
| Programs.World.ReadCommand | C/health.c:96-113 | k command bytes are consumed and obeyed by the words in them, STOP before START, in one critical section |
| Programs.World.PaymentIteration | C/payment.c:49-65 | one undisturbed turn is the legal run of one read of k bytes and 20 completed slices, consumes exactly those bytes, and takes at least 1998.000002 ms |
| Dispatcher.Server.HandleBatch | C/epoll_server.c:78-129 | the loop over a batch of events ends in the state the events prescribe one by one, every reader having been written exactly what they owe it |
| Dispatcher.Server.HandleCommand | C/epoll_server.c:101-125 | for P, L, H and anything else, which texts go to whom, in program order |
| Dispatcher.RegisteredAreOpenClients | C/epoll_server.c:82-99 | over every event run the watched descriptors are the listener and the clients accepted and not closed since |
| Dispatcher.EveryEventServed | C/epoll_server.c:82-129 | over every event run, from any state, each reader is written exactly what the events owe it, in order: each client one right reply per non-empty read, payment the P payloads, health the H payloads, the logger one line per connect, close, P and L |
| Dispatcher.PaymentLoggedFirst | C/epoll_server.c:104-107 | each payload sent to payment directly follows its own logger line |
| LockNames.NameSpace.ShmOpenExclusive | C/pi_sem.h:32 | creates the object exactly when the name is free |
| LockNames.NameSpace.OpenOrCreate | C/pi_sem.h:30-47 | undisturbed, binds the existing object unchanged or a new one that is initialised |
| LockNames.NameSpace.Unlink | C/pi_sem.h:52 | frees the name and starts a new epoch |
| LockNames.OpensAlone | C/pi_sem.h:30-47 | in the interleaved system an undisturbed open is two steps that bind the existing object or create and initialise the new one |
| LockNames.LockAndUnlock | C/pi_sem.h:49-50 | a bound process can lock exactly an unlocked object; a lock shuts out the others bound to it and an unlock lets them in again |
| LockNames.SameEpochSameObject | C/pi_sem.h:30-47 | opens bind the same object exactly when no unlink lies between; an object has one creator and is initialised at most once |
| LockNames.MutualExclusionInEpoch | C/pi_sem.h:45 | processes of one epoch exclude each other if no initialisation hits a held mutex |
| LockNames.ExclusionWhenOpenedAfterInit | C/pi_sem.h:36-46 | opening only after the creator's initialisation is enough for that |
| LockNames.InitBreaksExclusionIff | C/pi_sem.h:45 | the creator's late initialisation lets it join another holder if and only if there is one |
| LockNames.EarlyOpenCollides | C/pi_sem.h:36-46 | a run in which an early open leads to two holders of one mutex |
| LockNames.EarlyHealthGetsAnotherLock | C/logger.c:22-23 | a run in which health, started first, and the logger hold two different mutexes |
| ByteFile.RoundTrip | modules/chardev.c:50-109 | for any device content, any chunking and any short copies with arbitrary leftovers, what was written from position 0 is read back |
| ByteFile.AnyCuttingCanBeWritten | modules/chardev.c:85-104 | a string that fits behind a position can be written there in any pieces, one complete write after the other, and then stands there with everything else unchanged |
| ByteFile.AnyCuttingCanBeRead | modules/chardev.c:59-71 | the data from any position on can be read in any pieces and comes back whole |
| ByteFile.WrittenThenReadWhole | modules/chardev.c:50-109 | written in any pieces and read in any others, every string of at most 4096 bytes is delivered whole |
| ByteFile.StringsThatFitCanBeWritten | modules/chardev.c:85-99 | every string of at most 4096 bytes can be written |
| ByteFile.ShortCopySafeIff | modules/chardev.c:97-104 | whatever a copy of k bytes leaves behind, old data outside those bytes survives if and only if the copy is complete or ends at or past the end of the data |
| ByteFile.WriteSafeIff | modules/chardev.c:77-109 | no outcome of a write can destroy old data if and only if it has no room or nothing to write or starts at or past the end of the data |
| CharDevice.Device.Llseek | modules/chardev.c:36-48 | for each whence its target: reached if it lies within the data, else EINVAL and the position kept; content untouched, one turn with the mutex |
| CharDevice.Device.Read | modules/chardev.c:50-75 | the bytes at the position as far as they are data, position advanced by what was copied, device unchanged, one turn with the mutex on every path |
| CharDevice.Device.Write | modules/chardev.c:77-109 | ENOSPC exactly at or past byte 4096 or for nothing to write; otherwise as much as fits is offered to the copy, the bytes that arrive stand at the position, length and position follow; one turn with the mutex on every path |
| CharDevice.Device.RemapMm | modules/chardev.c:111-138 | succeeds exactly for at most one page from offset 0 |
| CharDevice.RunDataFlowTest | modules/chardev_user.c:36-74 | for any texts and any short copies, exactly when each of the two tests succeeds; with complete copies the first always, the second exactly when the text fits into the data |
| CharDevice.WriteThenLook | modules/chardev_user.c:43-54 | the mapping shows the text exactly when what a short write left behind equals the rest of it |
| CharDevice.StoreThenRead | modules/chardev_user.c:56-72 | the read shows the stored text exactly when the buffer already held what the read did not deliver |
| CharDeviceThreads.RunsRefine | modules/chardev.c:57-104 | from loading on, every interleaving leaves what its operations leave one after the other in the order of their copies under the mutex, and its calls return exactly their results in that order |
| CharDeviceThreads.StepKeepsResults | modules/chardev.c:64-74 | no step loses, changes or repeats a result between the copy and the return to the caller |
| CharDeviceThreads.OperationsMean | modules/chardev.c:36-109 | what each sequential read, write, llseek and mapped store does to page, length and position and what it returns, in bytes |
| CharDeviceThreads.StepRefines | modules/chardev.c:64-71 | every step is no operation or exactly one, with the sequential result on its way to the caller |
| CharDeviceThreads.StepKeepsInv | modules/chardev.c:57-61 | the mutex is held exactly by the operation between its lock and its one unlock |
| CharDeviceThreads.LengthGrowsWithinPage | modules/chardev.c:101-102 | between any two moments of a run the data length does not shrink, and it never exceeds 4096 |
| CharDeviceThreads.PositionsStayWithinData | modules/chardev.c:36-48 | positions reached by open, read, write and llseek never pass the data length |
| CharDeviceThreads.ReadSeesLatestStores | modules/chardev.c:129-131 | a read returns the latest byte put at each position by write or through a mapping |
| CharDeviceThreads.LatestStoreVisible | modules/chardev.c:97-99 | the page shows the latest byte put at each index |
| ModuleLoad.DriverModule.MycharInit | modules/chardev.c:150-200 | whatever step fails, what was acquired is released in reverse order and the error returned |
| ModuleLoad.DriverModule.Unwind | modules/chardev.c:192-199 | the labels release what is held, newest first |
| ModuleLoad.DriverModule.MycharExit | modules/chardev.c:202-210 | releases everything, newest first |
| ModuleLoad.NothingLeaks | modules/chardev.c:150-210 | over every series of loads and unloads each release matches the newest acquisition and only a loaded module holds anything |
| ModuleLoad.HeldInOrder | modules/chardev.c:150-210 | at every moment of it, what is held is held in the order page, region, char device, class, node, nothing without what it builds on |
| TimeCounter.ReadTimeRv32 | C/rdtime.h:4-15 | the result is the whole counter at the instant the low half was read, on every counter below 2^64 and on every other that does not lap in the last iteration; at most one retry if two iterations take at most 2^32 ticks |
| TimeCounter.TwoFailuresSpan | C/read_counter.h:29-33 | two failing iterations in a row take more than 2^32 ticks |
| TimeCounter.BoundedCounterAgrees | C/read_counter.h:29-33 | a 64-bit counter that does not wrap lets the loop end |
| TimeCounter.AgreementIsRightIff | modules/chardev_user.c:19-30 | agreeing high halves vouch for every low half between them if and only if the high word moved by less than 2^32 |
| Calibration.CalibrationError | C/read_counter.h:138-150 | read delays of at most d ns give an error below f*d/10^7 + 101 Hz |
| Calibration.ProductFitsIff | C/read_counter.h:150 | the 64-bit product is exact exactly up to 18446744073 ticks |
| Calibration.BigEndianRoundTrip | C/read_counter.h:126-127 | decoding the device-tree cell inverts encoding, both ways |
| Calibration.FrequencyReader.ReadFreq | C/read_counter.h:114-153 | a non-zero cache wins, else a non-zero big-endian cell, else the ticks over the first window of at least 10 ms as a rate rounded down; the result is cached |
| Calibration.FrequencyNeverChanges | C/read_counter.h:116-119 | once non-zero the frequency is the same in every later call |
| BusyWait.ElapsedIsFloorOrCeiling | C/shared_lock.h:19-20 | the truncating formula gives the floor of the true milliseconds, or the ceiling when the nanoseconds borrow |
| BusyWait.ElapsedIsMonotone | C/shared_lock.h:19-20 | it is monotone in the second timestamp |
| BusyWait.EarlyReturnIff | C/shared_lock.h:21 | a wait ends early exactly when the nanoseconds borrow and less than one millisecond is missing |
| BusyWait.ShortSliceExists | C/payment.c:62 | a slice of 100 ms that takes 99.000001 ms |
| BusyWait.BusyWaitMs | C/shared_lock.h:14-23 | never returns at or before ms-1 true milliseconds and at the latest with the first sample at or past ms |
| BusyWait.PaymentJob | C/payment.c:59-63 | a job of 20 slices takes at least 1998.000002 ms, and at least 2000 ms if no slice is early |
| BusyWait.ShortestJobExists | C/payment.c:62 | a valid job that takes exactly 1998.000002 ms |
| BusyWait.SlicesTake | C/payment.c:59-63 | n slices take 100 ms each less at most 999999 ns per early one, and every early one crosses a second of its own |
| SysVLock.SemaphoreSet.CreateSemaphore | C/shm.c:29-45 | sets the value to 1 and clears all pending adjustments, always |
| SysVLock.SemaphoreSet.LockSemaphore | C/shm.c:48-57 | takes one and records the undo |
| SysVLock.SemaphoreSet.UnlockSemaphore | C/shm.c:60-69 | gives one back and cancels the undo |
| SysVLock.SemaphoreSet.ExitProcess | C/shm.c:52 | process exit applies the undo |
| SysVLock.Conservation | C/shm.c:47-69 | value plus pending adjustments stays 1 over every run with processes dying anywhere, if nobody initialises while the lock is held |
| SysVLock.MutualExclusion | C/shm.c:93-104 | hence one process at a time in the critical section, and its message stays until it unlocks |
| SysVLock.DeathReleases | C/shm.c:52 | death inside releases the lock to whoever waits |
| SysVLock.CreateBreaksExclusionIff | C/shm.c:37-40 | a starting process breaks exclusion if and only if somebody is inside |
| SysVLock.TwoInstancesCollide | C/shm.c:78-101 | a run of two instances in which it happens |
| PosixShm.MyBuf.Work | C/posix_shm_worker.c:39-42 | the critical section formats the old count and increments it |
| PosixShm.NoLostUpdates | C/posix_shm_worker.c:35-48 | in every interleaving the i-th text carries count i from 0, and when all workers are done the count is their number modulo 2^32 |
| PosixShm.EveryTextSigned | C/posix_shm_worker.c:39-40 | in every interleaving the buffer shows the last text, and the texts carry the numbers of exactly the workers past their snprintf, one each |
| PosixShm.DeadHolderLocksOut | C/posix_shm_worker.c:35-48 | a worker that dies inside keeps everybody else out for good |
| PosixShm.HolderFinishes | C/posix_shm_worker.c:35-48 | a living holder alone reaches its post in at most 4 steps |
| PosixShm.LockedOutIff | C/posix_shm_worker.c:35-48 | in every reachable state a waiting worker can never get in if and only if some worker has died inside |

## Left out

- BoundedBlocking.InheritanceBoundsBlocking: counts logger steps, not time, and needs a writer at every poll, because without one the claim is false; the exact condition is InversionIff.
- CharDeviceThreads.RunsRefine: assumes at most one read, write or llseek in progress on each open file. The kernel sees to that by itself only for regular files and directories, so tasks sharing one open file of the device have to take turns. A copy between page and user memory is one step, so a mapping's store falls before or after it, not into its middle.
- CharDevice.Device.Read: the user's buffer is not the mapping of the device itself; the same holds for Write.
- TimeCounter.ReadTimeRv32: needs some iteration to agree, since otherwise the loop does not end; BoundedCounterAgrees and TwoFailuresSpan say when one does. On a counter that wraps it promises nothing if the last iteration laps, because then the value can be wrong (AgreementIsRightIff).
- LockNames.SameEpochSameObject: covers the inheriting build; `sem_open` of the plain build creates and initialises in one call. Access before `ftruncate`, the limit of 20 open attempts and their sleeps are not part of the model.
- Programs.World.LoggerIteration: covers turns nobody more urgent disturbs, as do HealthIteration and PaymentIteration; all other interleavings are those of the step system.
- Testbed.LoggerStep: the record counter is unbounded, not a 32-bit int.
- Testbed.ServerStep: serves one request after the other in arrival order; how epoll groups them, accepting and disconnecting are in Dispatcher only.
- PosixShm.NoLostUpdates: one initialisation; running the initialiser again beside workers is not modelled.
- Fair sharing inside the normal scheduling class and SCHED_DEADLINE: the choice among equal priorities is free, and only the fixed priorities of `C/run_poll_fifo.sh` are modelled.
- Full pipes and sockets, failing log writes and failing reply writes; `printf` and `pr_info` output, time stamps and the wording of log lines.
- The empty connection stubs of `C/epoll_server.c`: the logger channel is the FIFO while it has a writer, the health channel is health's socket.
- The x86, 64-bit and ARM branches of `C/read_counter.h`, and the timing loops of `modules/chardev_user.c`.
- The other samples, which are single calls without state of their own, and the GPIO and interrupt modules, whose behaviour lies in kernel code that is not part of this model.
