# Verification of libeio and its Java binding

This project models the hard core of libeio, the asynchronous I/O library behind webbit's AsyncIO
binding, and proves what its documentation and its callers rely on. `dafny verify dfyconfig.toml`
checks everything.

## What is modelled

- **Directory sort** (`Bits`, `Dirents`, `RadixSort`, `InsertionSort`, `DentSort`). The real loops over
  an `array<Dirent>`, with the three stack arrays, the bit table and the constants 30 and 60. Ghost
  variables carry the segments that the radix pass leaves and the number of shifts of each entry. The
  byte order of `ino_t` is a parameter; a bit address is what the C code computes from `offsetof`.
- **Directory scan** (`DirListing`, `Scandir`). What a listing is for each flag mode, in terms of the entries
  read; the read loop with its growing buffers, the scores and the sort calls; and `readdir_cb` as the decoder
  of the name buffer.
- **Request queue** (`Requests`, `RequestQueue`). Nine linked lists with head and tail pointers, proved
  to be one stable priority queue. The pool below uses exactly that abstract queue.
- **Groups** (`GroupHistory`, `GroupForest`, `GroupFeeding`, `Groups`). The heap forest of
  doubly linked member lists with counts, the recursive cascade `eio_finish` -> `grp_dec` ->
  `eio_finish`, recursive cancellation, and callbacks and feeders as arbitrary user code that may make
  requests, add them to groups that are not finishing without making a cycle, cancel anything, and change
  limits and feeders. The history of all this is a sequence of events, and `World.Valid` says which
  histories can occur.
- **Thread pool** (the modules `PoolState`, `PoolLaws` and so on). A step system: one API thread, any number of workers, one
  atomic step for each critical section, explicit program counters, the pipe of `asyncio.c` and the loop of
  `flush`. The condition variable follows the description of `pthread_cond_signal` and
  `pthread_cond_timedwait` in IEEE Std 1003.1-2008 (System Interfaces, section 3): a signal unblocks at
  least one blocked thread, and spurious wake-ups may occur. A run is any sequence of enabled steps.
  `PoolLaws`, `PoolQuiescence` and `PoolProgress` prove that every step keeps the laws, `PoolWake` says
  when a waiting `flush` is woken, `PoolThreads` when the thread counter wraps around, `PoolPriority` who is
  served first, `PoolStart` when threads start and leave, `PoolRuns` states the theorems about all runs,
  `PoolFlush` proves in which runs `flush` returns, `PoolCounterexamples` gives runs that show why the
  conditions are needed, and `PoolFork` is the drain in a forked child.
- **sendfile emulation** (`Sendfile`). The read/write loop against an arbitrary kernel.

## Findings

The code differs from what its comments and documentation suggest in these places; the model follows the
code.

- After `ETIMEDOUT` a worker that is allowed to idle waits again without looking at the queue. A request
  queued in between can stay there, and `flush` then hangs (`PoolCounterexamples.FlushCanHang`).
- A worker that leaves after a timeout still counts in `started` until it takes another lock. If it is the
  last one, a request submitted in between gets no thread, and `flush` hangs with no worker left
  (`PoolCounterexamples.LastWorkerCanLeave`). For both, `PoolRuns.FlushWokenIff` is the exact condition, in
  every reachable state, for a waiting `flush` to be woken, and `PoolFlush.FlushReturnsIff` the one, over
  every run, for `flush` to return.
- `etp_set_max_parallel` and a worker that leaves after a timeout can both subtract the same worker, so the
  unsigned `started` wraps around and no thread is started any more (`PoolCounterexamples.StartedCanWrap`).
  `PoolRuns.StartedNeverWrapsIff`, with `PoolThreads.SolventNeverWraps` and `PoolThreads.InsolventWraps`, is
  the exact condition.
- `nready` is decremented for quit tokens that were never counted. It equals the number of queued requests
  if and only if no token was ever shifted (`PoolRuns.CountersMean`).
- `nreqs` does not count delayed groups. `flush` can return before a group is done if one of its members
  was never submitted, and only then (`PoolCounterexamples.FlushCanLeaveGroup`, `PoolRuns.Quiescence`).
- The priority clamp works on a signed char after the subtraction: 124 to 127 become the lowest priority
  (`Requests.ClampPriMeans`).
- The comments say that partitions of up to the cutoff, and arrays from 60 entries on, are treated
  specially; the code tests `< 30` and `> 60`.
- Sorting more than 60 entries with no bit to test takes the sentinel for a bit address and then reads in
  front of the table, and only then (`RadixSort.FirstReads`). For the calls the scan makes this happens
  exactly if all inodes are 0 and the score mask is 0 (`DentSort.SomeBitIff`, `Scandir.SortDefinedIff`), as
  where directory entries carry no inode number (`Scandir.NothingToTest`). The sort and the scan exclude it
  by a precondition.
- The assertion in `eio_grp_add` tests for `int1 == 2`, which nothing ever sets. Not adding to a finishing
  group is an obligation of the caller.

## Model

| member | source | states |
|---|---|---|
| DentSort.Sort | libeio/eio.c:1215-1228 | for every array with scores in 0..100, masks that cover it and, above 60 entries, some listed bit: the result rearranges the first `size` entries, is ordered by (score, inode) and leaves the rest alone; a trace of all states of the insertion pass, each one insertion after the one before, shows that above 60 entries none shifts more than 28 entries, at most 28 times `size` in all |
| DentSort.MasksCover | libeio/eio.c:1274-1278 | the masks that the scan passes (7, or 0 when all scores are equal) cover the array, and a bit is listed if and only if the score mask is 7 or some inode bit is set |
| DentSort.SomeBitIff | libeio/eio.c:1274-1278 | with either score mask of the scan there is a bit to test unless both masks are 0 |
| RadixSort.RadixSort | libeio/eio.c:1079-1178 | up to 60 entries nothing changes; above, the array is rearranged into contiguous segments with keys strictly increasing from one to the next, each shorter than 30 or with one key only |
| RadixSort.BuildBitTable | libeio/eio.c:1093-1121 | entry 0 is the sentinel and the others are the bit addresses of exactly the wanted key positions, in increasing significance, for any byte order of the inode field; the array is never overrun |
| RadixSort.FirstReads | libeio/eio.c:1132-1165 | the first entry the sort reads is a key address, and the index it reads next lies in the table, if and only if some position needs a test; otherwise they are the sentinel and index -1 |
| RadixSort.AddressTestsKeyBit | libeio/eio.c:1107-1120 | the test of a bit address reads the key bit it stands for, whatever the byte order, and no such address is 0 |
| RadixSort.EndiannessByte | libeio/eio.c:1101-1111 | shifting bytes off the word whose memory holds 0, 1, 2, ... yields the memory offset of each byte in turn, least significant first |
| RadixSort.Partition | libeio/eio.c:1154-1162 | the loop rearranges the range so that entries with the bit clear come first, and returns the border |
| RadixSort.TopKeyBitDecides | libeio/eio.c:1065-1072 | two entries whose key bits agree above a position where they differ are ordered by that bit: bit order is the order of the comparison |
| RadixSort.NoKeyBitDiffers | libeio/eio.c:1065-1072 | entries that differ in no key bit compare as equal |
| RadixSort.UnlistedAgree | libeio/eio.c:1095-1096 | entries that agree on the listed bits agree on the skipped ones as well, which is why skipping them is sound |
| RadixSort.PartitionCuts | libeio/eio.c:1151-1162 | partitioning a range on its next listed bit makes a cut in the whole array and leaves two ranges that agree on one more bit |
| RadixSort.LastBitStep | libeio/eio.c:1164-1166 | after the last listed bit both halves have one key each and extend the finished prefix |
| RadixSort.NextBitStep | libeio/eio.c:1168-1173 | otherwise the upper half joins the pending ranges and the lower half goes on with the bit below; prefix, current range and pending ranges still tile the array with strictly decreasing bits |
| RadixSort.PendingDepth | libeio/eio.c:1125-1132 | the number of pending ranges never exceeds the number of listed bits, so the three stacks of 9 + 8 * sizeof (ino_t) entries suffice |
| RadixSort.SplitRange | libeio/eio.c:1140-1174 | the inner loop finishes the lowest part of a range, pushes the upper parts, never overruns the stacks, and lowers the sum of 2^bit over the pending ranges |
| RadixSort.PushRange | libeio/eio.c:1168-1171 | the three stack arrays hold the pushed range on top of the ranges they held |
| InsertionSort.InsertionSort | libeio/eio.c:1180-1213 | the unguarded insertion sort stays inside the array and sorts it; the traced states lead from the array with a least entry swapped to the front, by inserting one entry after the other, to the result, and after the radix pass no insertion shifts more than 28 entries |
| InsertionSort.LeastInFirstSegment | libeio/eio.c:1188-1191 | after the radix pass the least of the first 31 entries is the least of all entries and lies in the first segment |
| InsertionSort.MoveLeastToFront | libeio/eio.c:1183-1197 | a least entry becomes element 0 by one swap inside the first segment, so the segments survive |
| InsertionSort.InsertOne | libeio/eio.c:1205-1210 | with a least entry at 0 the loop without a bounds check ends at index 1 or later, having moved the entry below exactly the greater ones |
| InsertionSort.InsertedInSegment | libeio/eio.c:1207-1208 | an entry stays within its own segment, keeps the segments, and moves at most 28 places |
| InsertionSort.LinearMoves | libeio/eio.c:1221-1226 | moves bounded for each entry are linear in the number of entries |
| Dirents.CmpSign | libeio/eio.c:1065-1072 | for scores in 0..100 the truncated signed char difference orders entries by score and then inode |
| Dirents.SegmentedPermuted | libeio/eio.c:1188-1212 | rearranging inside one segment, or right of all of them, keeps the segments |
| Bits.OrBit | libeio/eio.c:1348 | a bit is set in the or of two numbers if and only if it is set in one of them |
| Bits.TopBitDecides | libeio/eio.c:1065-1072 | the highest differing bit decides the order of two numbers |
| Scandir.Scan | libeio/eio.c:1231-1427 | the result is the number of entries other than "." and "..", or -1 exactly on a failed opendir, a read error or a cancellation seen in time; of the flags the order flags are kept exactly with dirents, and FOUND_UNKNOWN is set exactly if dirents are collected and a kept entry has an unknown type; walking the name buffer yields the names in read order; dirents are returned exactly if one of the remaining flags is set, each with name length, type, inode and name of one entry, one for each, in the order that MayPrecede describes for the flags |
| DirListing.WantedMeans | libeio/eio.c:1309-1310 | the character tests skip exactly the names "." and ".." |
| DirListing.KeptMeans | libeio/eio.c:1306-1310 | the entries kept are those not named "." or "..", each once, in read order |
| Scandir.AppendName | libeio/eio.c:1312-1325 | doubling until the name fits keeps what the buffer held, and the name and its NUL are appended within its bounds |
| Scandir.AppendDirent | libeio/eio.c:1331-1345 | a full array is doubled first; the entries before are kept and the new one follows them |
| Scandir.InodeMaskBits | libeio/eio.c:1348 | the mask the scan passes to the sort has exactly the bits that occur in some inode |
| Scandir.ScanCovers | libeio/eio.c:1348-1414 | whatever part of the dirents is sorted, the masks cover it: the preconditions of the sort hold at every call the scan makes |
| Scandir.PartitionDirs | libeio/eio.c:1285-1297 | walking from both sides puts all directories in front of all other entries and loses none |
| Scandir.PartitionedDirs | libeio/eio.c:1281-1300 | the number of directories in front is the number read, all of them have score 0, and the masks cover them |
| Scandir.SortDirsOnly | libeio/eio.c:1279-1301 | directories come first, ordered by inode, and the other entries follow |
| Scandir.SortDirents | libeio/eio.c:1270-1303 | each flag mode leaves the order it promises and only rearranges; the size and the score mask of the sort it calls are returned |
| Scandir.SortDefinedIff | libeio/eio.c:1274-1300 | the precondition of the scan says exactly that the sort it calls, with the arguments SortDirents returns, gets at most 60 entries or has some bit to test |
| Scandir.NothingToTest | libeio/eio.c:133-135 | a directory of 61 entries with different names but without inode numbers, read in stat order, is sorted with no bit to test |
| DirListing.LikelierScore | libeio/eio.c:1401-1414 | with DIRS_FIRST the score is lower exactly for the likelier directory: directories, then unknown types with a leading dot, then those without a dot, names of 1, of 2 or 3, of 4 to 6 and of more characters in this order, then all others |
| Scandir.Listing | libeio/eio.c:1270-1303 | the dirents are a permutation of the entries, and by the flags no entry stands before a likelier directory, or entries are ordered by inode, or directories by inode come first, or the order is the read order |
| DirListing.DirsInFront | libeio/eio.h:73 | with DIRS_FIRST no entry of another type stands before a directory, whatever the other flags and whether all types are known |
| DirListing.DirentDescribes | libeio/eio.c:1344-1352 | the dirent of an entry has its name length, type and inode, and its offset leads to that entry's own name in the buffer |
| DirListing.DecodeEncode | libeio/demo.c:68-72 | walking the name buffer from its start yields exactly the names, in read order |
| Scandir.ReaddirCb | libeio/demo.c:59-76 | the callback prints exactly the names of the entries and never reads past the buffer; nothing on a negative result |
| Requests.ClampPri | libeio/eio.c:585-588 | the clamped priority indexes one of the nine lists |
| Requests.ClampPriMeans | libeio/eio.c:585-588 | priorities -4..4 map to 0..8, lower ones to 0, higher ones to 8 exactly up to 123: the four largest wrap around in a signed char and become the lowest |
| RequestQueue.Queue.constructor | libeio/eio.c:325-331 | the zeroed struct is an empty queue |
| RequestQueue.Queue.Push | libeio/eio.c:333-347 | the nine linked lists with head and tail pointers afterwards hold the old entries followed by the new one, which is last of its priority; the old size is returned |
| RequestQueue.Queue.Shift | libeio/eio.c:349-372 | null exactly on the empty queue, else the oldest request of the highest non-empty priority, which alone is removed; the abort is unreachable |
| RequestQueue.BestIndex | libeio/eio.c:357-369 | no entry has a higher priority, and no older one has the same |
| RequestQueue.LaneShift | libeio/eio.c:357-369 | removing the best entry takes the head off its own list and leaves the other lists alone |
| RequestQueue.ShiftsBest | libeio/eio.c:357-369 | scanning downwards, the head of the first list that is not empty is the best entry of the whole queue |
| RequestQueue.LanesDistinct | libeio/eio.c:333-347 | a request queued once is in one list only, and there once |
| RequestQueue.Drain | libeio/eio.c:406-410 | shifting until the queue is empty takes out every queued request exactly once |
| GroupHistory.CalledLast | libeio/eio.c:681-693 | when a finish callback runs, the request was polled, and every request ever added to it, also by feeders and callbacks, was already finished and unlinked |
| GroupHistory.DestroyedIsLast | libeio/eio.c:695-701 | nothing happens to a request after it was destroyed |
| GroupHistory.FirstNonzeroMeans | libeio/eio.c:705-727 | the value eio_finish hands back is a callback result before which all results were zero |
| GroupForest.EventKeeps | libeio/eio.c:574-579 | a callback, a feeding, a poll or a cancellation keeps the forest: lists without duplicates that hold exactly the requests added and not yet unlinked, members below their group, and delayed groups that are polled and unfinished |
| GroupForest.MemberKeeps | libeio/eio.c:2040-2056 | adding a member keeps the forest: lists without duplicates that hold exactly the requests added and not yet unlinked, members below their group, and delayed groups that are polled and unfinished |
| GroupForest.UnlinkKeeps | libeio/eio.c:711-716 | unlinking a member keeps the forest: lists without duplicates that hold exactly the requests added and not yet unlinked, members below their group, and delayed groups that are polled and unfinished |
| GroupForest.DelayKeeps | libeio/eio.c:544-545 | delaying a group keeps the forest: lists without duplicates that hold exactly the requests added and not yet unlinked, members below their group, and delayed groups that are polled and unfinished |
| GroupForest.FinishingKeeps | libeio/eio.c:703-705 | beginning to finish a request keeps the forest: lists without duplicates that hold exactly the requests added and not yet unlinked, members below their group, and delayed groups that are polled and unfinished |
| GroupForest.DestroyKeeps | libeio/eio.c:725 | destroying a request keeps the forest: lists without duplicates that hold exactly the requests added and not yet unlinked, members below their group, and delayed groups that are polled and unfinished |
| GroupForest.OneList | libeio/eio.c:2047-2050 | a request is in one member list at most |
| Groups.World.Create | libeio/eio.c:1643-1654 | a new request joins the forest alone; all else is unchanged |
| Groups.World.GrpAdd | libeio/eio.c:2040-2056 | the request becomes the first node of the doubly linked member list, `size` is the length of the list, and every other list is unchanged |
| Groups.LinkFront | libeio/eio.c:2046-2055 | the pointer updates put the node in front of a well-formed doubly linked list |
| Groups.UnlinkNode | libeio/eio.c:711-716 | the pointer updates take exactly this node out of a well-formed doubly linked list |
| Groups.World.Unlink | libeio/eio.c:707-716 | the request leaves its group's list at its place, and `size` and all links stay right |
| Groups.World.UserCode | libeio/eio.c:63-73 | arbitrary well-behaved callbacks and feeders, which may also change limits and feeders and so feed groups at once, keep every pointer and count right, only add in front of lists, and finish nothing; a group gets the flag GROUPADD exactly if something was added to it |
| Groups.World.EioCancel | libeio/eio.c:736-739 | terminates on every forest and flags exactly the request and its transitive members |
| Groups.World.GrpCancel | libeio/eio.c:730-734 | flags exactly the transitive members, not the group itself |
| Groups.World.GrpTryFeed | libeio/eio.c:664-679 | terminates, whatever the feeder does, if limits and feeders are changed finitely often; at the end size >= limit, the group is cancelled or has no feeder; a full or cancelled group is not touched, any other one with a feeder is fed; unless user code changes limits or feeders meanwhile, every feeding but the last added something to the group, and the feeder is kept if and only if the last one did too |
| Groups.World.FeedTurn | libeio/eio.c:666-678 | one turn: the feeder is called if there is one, and dropped exactly if it added nothing to the group |
| Groups.AsSizeMeans | libeio/eio.c:666 | the comparison with the limit is unsigned: a limit from 0 to 2^63 - 1 is itself, a negative one is above every size |
| GroupFeeding.OneMoreFeeding | libeio/eio.c:668-677 | after good feedings one more is good if and only if something was added to the group since it |
| Groups.World.GrpFeed | libeio/eio.c:2025-2031 | the same after setting limit and feeder: below the limit the feeder is called at once; both stay as set unless user code changed them or the feeder ran dry, and the feeder stays if and only if every feeding added something |
| Groups.World.GrpLimit | libeio/eio.c:2033-2038 | the same after setting the limit |
| Groups.World.Invoke | libeio/eio.c:703-705 | the callback runs exactly when there is one and the request is not cancelled, and its result is returned; members stay members, and nothing is fed unless the callback does it |
| Groups.World.EioFinish | libeio/eio.c:703-728 | the cascade up the tree terminates; afterwards the request is gone, its group, if it is left, is full, cancelled or without a feeder, every delayed group has a member again or is gone as well, requests that were already finishing are still there, unless user code changes limits or feeders, groups have the limits they had and lost their feeder exactly by a feeding without progress, and the result is the first callback result that is not zero |
| Groups.World.GrpDec | libeio/eio.c:681-693 | a group with a feeder and below its limit is fed, and afterwards it is full, cancelled, without a feeder, or finished because it was delayed and is empty |
| Groups.World.Delay | libeio/eio.c:544-545 | the group is delayed; nothing else changes |
| Groups.World.PollHand | libeio/eio.c:542-556 | a group with members is delayed and nothing else happens; anything else is finished and gone, and its group served; no delayed group is left without a member |
| Groups.World.Session | libeio/eio.c:519-557 | over any sequence of user code, feeding and polling, all pointers and counts stay right, every delayed group has a member, and the history goes on as PromisesKept says |
| Groups.World.PromisesKept | libeio/eio.c:703-728 | in every state the methods reach: no callback ran twice and nothing was unlinked or destroyed twice; callbacks ran after all members were finished and unlinked; an uncancelled callback ran before its request was destroyed; after cancellation no callback started and nothing was fed; after destruction nothing happened |
| PoolRuns.PipeMirrorsResults | src/main/c/asyncio.c:23-31 | in every run want_poll and done_poll strictly alternate, starting with want; npending is the length of the result queue, and the pipe holds exactly one byte if and only if that queue is not empty |
| PoolRuns.DonePollNeverBlocks | libeio/eio.c:532-537 | whenever done_poll reads, a byte is there |
| PoolRuns.EachInOnePlace | libeio/eio.c:506-556 | in every run each submitted request is in exactly one of request queue, worker, result queue, API thread and delayed groups, or was destroyed, once; other requests are in none |
| PoolPriority.PrioritiesKept | libeio/eio.c:583-588 | in every run each request has the priority it was submitted with, saturated at -4 and 4 except that 124 to 127 count as the lowest, in both queues and with a worker; the request queue is in order of submission, and tokens have the highest priority |
| PoolPriority.WorkerTakesBest | libeio/eio.c:1573-1605 | in every run a worker that finds entries takes one off the queue and leaves the others in order; a request it takes was submitted with a higher priority than every other queued request, or with the same and earlier, and before a token only with the highest |
| PoolPriority.PollTakesBest | libeio/eio.c:525-537 | in every run eio_poll takes the oldest of the results with the highest priority and leaves the others in order |
| PoolPriority.BestServedFirst | libeio/eio.c:357-369 | the same for every queue in order of submission |
| PoolRuns.CountersMean | libeio/eio.c:214-227 | in every run nreqs counts the requests in the queues, with workers and between two critical sections; nready is short by exactly the tokens ever shifted; idle counts the workers inside the wait; started, before any wrap-around, counts the listed workers less tokens and leavers |
| PoolRuns.NoMoreThanWanted | libeio/eio.c:653-660 | between calls the unsigned counter of threads is at most wanted if it did not wrap around, and only if, as long as no more than 2^31 - 1 quit tokens are queued |
| PoolRuns.StartedNeverWrapsIff | libeio/eio.c:1586-1602 | a run never owes more decrements of started than it can pay, if and only if each time a worker decides to leave after a timeout, or etp_set_max_parallel decides to ask a worker to quit, started exceeds the decrements still to come |
| PoolRuns.NoWorkGetsStuck | libeio/eio.c:1567-1602 | in every interleaving without an expired timeout, while a worker is blocked there are at least as many workers about to shift as queued requests and tokens |
| PoolRuns.NeverStuckIff | libeio/eio.c:1580-1602 | with timeouts: every state of a run keeps an awake worker for each queue entry while one is blocked, if and only if each step after a timeout finds enough other workers awake, or leaves while none is blocked; it says nothing once no worker is left |
| PoolRuns.FlushWokenIff | src/main/java/org/webbitserver/asyncio/AsyncIO.java:64-69 | in any run whatever, when flush waits for the pipe: under every schedule of the workers without a spurious wake-up, timed waits expiring or not, until they all rest, there is a byte in the pipe then, if and only if some worker has a request, or one is queued and more workers are about to shift than quit tokens come before it |
| PoolRuns.FlushWoken | src/main/java/org/webbitserver/asyncio/AsyncIO.java:64-69 | if that holds the byte comes under every schedule of the workers, spurious wake-ups included |
| PoolRuns.LiveWorkerAwake | libeio/eio.c:1567-1602 | so with a non-empty queue and a worker that is not gone, some worker can take a step |
| PoolFlush.FlushReturnsIff | src/main/java/org/webbitserver/asyncio/AsyncIO.java:64-69 | from any state inside flush of any run whatever: a schedule of steps other than calls by user code, spurious wake-ups and interruptions, carried on until none is left, ends with flush having returned, if and only if it never meets a state in which flush waits for the pipe and no worker will put a byte there |
| PoolFlush.NoEndlessFlush | src/main/java/org/webbitserver/asyncio/AsyncIO.java:64-69 | and no such schedule is endless: one that always has a next step inside flush leaves flush |
| PoolFlush.EndIsReached | src/main/java/org/webbitserver/asyncio/AsyncIO.java:64-69 | and every state in flush has such a schedule to its end |
| PoolFlush.HopefulGoesOn | libeio/eio.c:1573-1620 | inside flush the API thread or a worker can always take such a step, unless flush waits for a byte that will not come |
| PoolFlush.QuietDescends | libeio/eio.c:519-556 | each of these steps, expired waits and failed thread creations included, lowers lexicographically: the undecided requests, the delayed groups, the requests in hand, the steps of the API thread to the next of these, the live workers, the steps of etp_set_max_parallel, the work of the workers |
| PoolRuns.Quiescence | libeio/eio.c:542-556 | at nreqs == 0 outside eio_poll, every submitted request is destroyed if and only if no delayed group has a member that was never submitted |
| PoolRuns.FlushReturnsWhenDone | src/main/java/org/webbitserver/asyncio/AsyncIO.java:64-69 | whatever step takes flush back to user code, every submitted request is destroyed then and no group is delayed, given that every linked member was submitted |
| PoolRuns.LawfulRun | libeio/eio.c:454-660 | every run keeps the laws of pipe, counters, conservation and group forest |
| PoolRuns.SteadyRun | libeio/eio.c:454-660 | every run without expired timeouts and failed thread creations also keeps the laws of progress |
| PoolCounterexamples.FlushCanHang | libeio/eio.c:1580-1594 | a run in which a timed wait expires while a request is queued, the worker waits again without looking, and flush waits for ever |
| PoolCounterexamples.LastWorkerCanLeave | libeio/eio.c:1584-1593 | a run in which the last worker has decided to leave but still counts as a thread when a request is submitted, so none is started, and flush waits for ever with no worker left |
| PoolCounterexamples.StartedCanWrap | libeio/eio.c:1586-1602 | a run in which a worker that leaves after a timeout is also asked to quit: started wraps around, and then no submission starts a thread |
| PoolCounterexamples.FlushCanLeaveGroup | libeio/eio.c:542-546 | a run in which flush returns while a delayed group waits for a member that was never submitted |
| PoolProgress.StuckStep | libeio/eio.c:489-504 | every step except the one after an expired timeout keeps an awake worker for each queue entry while one is blocked |
| PoolProgress.AfterTimeoutIff | libeio/eio.c:1581-1594 | the step after an expired timeout keeps that if and only if an awake worker is left for each queue entry, or nobody is blocked and the worker leaves |
| PoolProgress.StaffedStep | libeio/eio.c:477-487 | while no timeout expires and threads can be created, a request that needs a worker finds a counted thread once the call that submitted it is over |
| PoolWake.ResultIff | libeio/eio.c:1565-1620 | under every schedule of the workers without a spurious wake-up until they all rest, a first result is there then if and only if WillWake holds at the start |
| PoolWake.ResultComes | libeio/eio.c:1565-1620 | if WillWake holds a result comes under every schedule of the workers until they all rest, spurious wake-ups included |
| PoolWake.StepWillWake | libeio/eio.c:1573-1620 | no step of a worker takes away the prospect of a result, until it is there, and only a spurious wake-up can bring it about |
| PoolWake.AdvanceWillWake | libeio/eio.c:1573-1620 | each step of a worker keeps whether a result will come, until it comes |
| PoolWake.WorkBounds | libeio/eio.c:1565-1620 | no schedule of the workers without a spurious wake-up is longer than the work there is |
| PoolWake.RestIsReached | libeio/eio.c:1565-1620 | from every state some schedule leads to all workers at rest |
| PoolWake.SteadyWillWake | libeio/eio.c:477-487 | without expired timeouts and failed thread creations a result will come whenever flush waits for the pipe |
| PoolThreads.MarginStep | libeio/eio.c:1584-1593 | deciding a decrement lowers started less the decrements to come by one, starting a thread raises it by one, and no other step moves it |
| PoolThreads.StaysSolventIff | libeio/eio.c:489-504 | the equivalence of StartedNeverWrapsIff for runs from any state |
| PoolThreads.SolventNeverWraps | libeio/eio.c:500-502 | while the decrements to come can be paid, carrying any of them out does not wrap started |
| PoolThreads.InsolventWraps | libeio/eio.c:1588-1590 | and once they cannot, carrying enough of them out does |
| PoolStart.SettingsStep | libeio/eio.c:633-660 | a maximum never raises the number of threads wanted and a minimum never lowers it, both keep their bound, and nothing else moves it; the same for max_idle |
| PoolStart.StartsThreadIff | libeio/eio.c:477-487 | carried out without a break, etp_maybe_start_thread starts a thread if and only if fewer are counted than wanted and requests exceed threads and results |
| PoolStart.RoundRestaffs | libeio/eio.c:520-524 | in runs without expired timeouts every round of eio_poll makes up for thread creations that failed before: if threads can be created from then on, a flush that waits will be woken |
| PoolStart.LeavesIff | libeio/eio.c:1581-1594 | in every run a worker leaves after a timeout if and only if more than max_idle workers are idle |
| PoolStart.ChildStarts | libeio/eio.c:402-430 | after a fork the child has the settings of its parent, and its first submission starts a thread if and only if one is wanted |
| PoolQuiescence.ForestStep | libeio/eio.c:681-728 | every step keeps: members below their group, none destroyed while linked, requests in eio_finish unlinked before their group is looked at, and delayed groups with a member |
| PoolQuiescence.QuiescentIff | libeio/eio.c:542-556 | the equivalence of Quiescence for every lawful state |
| PoolQuiescence.WaitsFor | libeio/eio.c:681-693 | below every delayed group that nothing else holds up there is a member nobody submitted |
| PoolQuiescence.FedBeforeChecked | libeio/eio.c:681-693 | a group is looked at for being done only after grp_try_feed |
| PoolQuiescence.CallbacksAreUserCode | libeio/eio.c:63-73 | in a finish callback or feeder user code may do all it may do outside |
| PoolLaws.PipeStep | libeio/eio.c:597-604 | every step of every thread keeps the pipe law |
| PoolLaws.CountersStep | libeio/eio.c:1573-1620 | every step of every thread keeps what the counters mean |
| PoolLaws.ConservedStep | libeio/eio.c:1573-1620 | every step of every thread keeps each request in one place |
| PoolCounts.SignalCounts | libeio/eio.c:608-613 | a signal that unblocks at least one blocked worker makes one more worker awake or leaves none blocked, and changes no other class |
| PoolFork.AtforkChild | libeio/eio.c:402-430 | the drain loops destroy each request queued, held by a listed worker or waiting as a result exactly once, and zero the counters |
| PoolFork.ForkConserves | libeio/eio.c:402-430 | whenever user code forks, after the child's drain nothing was destroyed twice, every submitted request is still in one place or destroyed, and the counters mean again what they should |
| Sendfile.Files.Pread | libeio/eio.c:1039 | an error, the end of the file, or any number of the bytes that are there; the result is recorded |
| Sendfile.Files.Write | libeio/eio.c:1047 | an error, or any number of the bytes given, appended; the result is recorded |
| Sendfile.Emulate | libeio/eio.c:1030-1060 | for every pattern of short reads, short writes, ends and errors the bytes written are exactly the input from the offset on, `res` of them and at most `count`; all of them if and only if every system call made progress, else exactly the last one made none; -1 if and only if that one failed before the first byte was written |

## Left out

- The convenience wrappers and `eio_execute`: what a request does is an arbitrary action without effect on
  the pool. Native sendfile variants, mlock, msync, utimes, mtouch and page alignment.
- JNI: `completion_callback`, `RequestWrapper`, `NativeFunctions` and reference handling. Finish callbacks
  are arbitrary user code with any result.
- Allocation failure, integer overflow of offsets and buffer sizes, and more than 2^31 - 1 requests or
  threads at once.
- Wall-clock time: a timed wait may end at any moment, and whether `eio_poll` stops at its request or time
  limit or on a callback's result is left open.
- What a fork does to the pipe and to delayed groups. `PoolFork` covers the queues, the workers and the
  counters.
- In the pool, cancellation and feed limits are free choices of each step; `Groups` has their exact rules.
  The pool knows the members of a group as a map, where `Groups` has the linked lists.
- The finish steps of the pool and `Groups.World.EioFinish` are two models of the same code, one for the
  interleaving with the workers and one for the pointers and the recursion; no lemma relates the two.
- A finish callback's result is chosen when the callback starts.
- Groups.World.GrpTryFeed: user code that changes limits or feeders for ever is left out; with it the loop need
  not end. `tunings` bounds how often user code still changes them; which feeder is kept is stated for the calls
  in which it does not (`left == tunings`), because otherwise a nested call can clear the flag of the outer one.
- Destroy callbacks do nothing but free the request. Requests destroyed without being submitted are not
  part of this model.
- Threads are created and listed in one step, under wrklock as in the code; reading a counter without a lock
  is one atomic step.
- The memory layout of `eio_dirent` beyond the offsets of two fields. Sort stability, which the code does not
  promise.
- DentSort.Sort: requires a bit to test above 60 entries, because without one the C code reads outside its
  table.
- Scandir.Scan: requires the same of the directory, and models `errno` as three parameters: whether opendir
  fails, whether reading ends in an error, and when the cancellation is seen.
- PoolRuns.NoWorkGetsStuck: excludes runs in which a timed wait expires, because the property is false of
  some of them; PoolRuns.NeverStuckIff says of which.
- PoolRuns.FlushNeverHangs: also excludes failed thread creation and asking for no threads at all, and so
  does PoolFlush.FlushReturns; PoolRuns.FlushWokenIff and PoolFlush.FlushReturnsIff are the exact conditions
  without any of this.
- PoolFlush.FlushReturnsIff: says nothing about runs in which user code goes on making calls for ever, or
  waits for the condition variable or the pipe are for ever cut short; with these, flush need not return.
- PoolRuns.NoMoreThanWanted: the converse needs a bound on the queued quit tokens, because with 2^32 of them
  the unsigned counter is back where it was.
- Windows paths.
