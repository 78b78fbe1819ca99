# NoxDB scrap path, modelled and verified in Dafny

NoxDB absorbs small and unaligned writes in RAM pages of 256 KB ("scrap pages") and writes
them back from two background threads: Stage-1 reads the bytes a page is missing, Stage-2
writes complete pages. Several pages of the same file region can be alive at once, so the
question is whether the file ends up as the caller wrote it, for every interleaving. This
project models the write path and proves that it does.

`dafny verify dfyconfig.toml` checks everything.

## What is modelled

* **The pipeline as a step system** (`Engine.dfy`). A state holds the file, every page ever
  created, the page index, both queues, what each stage has in its hands, the writeback guard,
  the counters, the gate and the position of any number of foreground threads. A step is one
  section under a lock or one system call, including short writes, failed reads, failed writes
  and spurious wakeups; a run is any list of enabled steps. `EngineSafety.Reached` says that some
  run leads to a state. A page's identity is its creation number, which is also its generation.
  `EngineInv.dfy` is the invariant; the `Writer*`, `Stage1*`, `Stage2*` and `ShiftSteps` files
  prove that each step keeps it; `EngineTheorems`, `EngineCalls`, `EngineServe`, `EngineClose`,
  `EngineOrder`, `EngineReads`, `EngineJunk`, `EngineWhole`, `EngineProgress`, `EngineDrain`,
  `EngineLive`, `EngineEntries`, `EngineCrowd` and `EngineFastPath` say what follows for callers. `EngineExample` holds two short runs.
* **The page code as imperative Dafny**: the header with its entry array and the page with its
  data zone (`ScrapPage.dfy`), the hole reads (`HoleFill.dfy`), the resuming gathered write
  (`IoDirect.dfy`), the intrusive queues (`Queue.dfy`), the bucket chains (`PageIndex.dfy`), the
  gate (`Watermark.dfy`) and the splitting loop (`NoxWrite.dfy`). Each is proved against a
  mathematical description (`Segments`, `HoleReads`, `Zones`, `Gate`). The step system uses the
  same page, segment, gate and chunk functions; `EngineDevice` proves that the system calls of the
  imperative code, on a byte sequence, with any answer, are steps it allows.

## Main results

* Refinement: in every run without an I/O failure the file overlaid with the live pages, oldest
  first, is the flat file the merged chunks define (`EngineTheorems.Refinement`); background steps
  and every foreground step but the merge are invisible, a merge changes exactly its chunk, a
  finished call is visible in full.
* Calls, from the steps of a run alone (`EngineCalls`): every thread carries the buffer it was started
  with, what it has finished is what it started, in order, and the engine's flat file is made of
  pieces of those buffers (`CallsAreTheSteps`). When a call returns, its buffer is what the engine
  holds (`CallVisible`).
* Close contract (`EngineCalls.CloseContract`): in every run `nox_close` reports an error exactly when a
  read of Stage-1 or a gathered write failed; otherwise the file is its old contents with what the calls
  wrote, in the order they returned, all of them. A call wrote all of its buffer, except that a direct
  write that returned an error may have written a prefix, which close does not report. At an
  address, the file holds what the calls make, whatever failed writes still had to write, if and only
  if every miss there was made good by a later write (`EngineClose.ClosePromiseIff`).
* Service, for any number of threads (`EngineServe`): from a reachable state some run closes with 0 if
  and only if nothing has failed and no batch is out of calls (`ClosesIff`); then every new call, scrap or
  direct, is taken and some run leaves its buffer, and every byte that was due, in the file
  (`WriteServed`, `DirectServed`).
* Ordering, freshness, ownership (`EngineOrder`, `EngineReads`), all in every run: generations of a
  region reach the file in order; Stage-1 reads a region only when no page of it is still to be
  written before, and nothing the engine does changes that region until the page's own writeback;
  no uninitialised byte of a page or of the scratch zone has any effect on the file
  (`EngineJunk.JunkNeverWritten`);
  a page under I/O or about to be freed is unreachable to everyone else; the counters are exact.
* Progress, for any number of threads: the engine can go on by itself exactly when it is not jammed
  (`EngineProgress.ProgressIff`), every run it makes by itself is bounded, retries included
  (`EngineLive.RunsBounded`), and when it stops, unless failed reads have lost more pages than the
  low mark, every call has returned and every page is written and freed, except those failed reads
  lost (`EngineLive.StopsWhenDone`).
  `otflush_drain` always returns. A jam needs those losses, and one is reachable.
* Page algebra: coalescing yields the unique canonical list of the union and overflows exactly when
  that list does not fit; holes are the complement; the reads cover exactly the touched blocks, no
  block twice; merges during an unlocked read are never lost; a resumed write is all or a prefix.
  On a device that keeps working it is all.
* The gate lets a thread pass exactly below the high mark, a sleeper exactly at the low mark, at most
  high + threads - 1 pages live, and loses no wakeup.

## Where the code and its documentation disagree

The model follows the code.

* `include/noxdb.h:43-44` calls the direct path unrestricted. `EngineFastPath.FastPathRestricted`
  gives a run after which a direct write is hidden by a live page although no call is in flight.
  `EngineFastPath.FastKeptIff` gives the exact condition under which no run ever loses a byte of a
  direct write: no live page covers one and Stage-1 has not read one for a page it is completing.
  The step system takes direct writes only under that condition, which the engine does not check.
* `src/noxdb.c:220-221` says that after a close that returns 0 every byte the caller wrote has been
  issued. A direct write is one bare pwrite (`src/noxdb.c:170-171`): if it is short the call returns
  an error, nothing is latched, and close still returns 0. `EngineClose.ShortWriteLost` is such a run;
  `EngineCalls.CloseContract` says what is then in the file; `EngineClose.ClosePromiseIff` is the exact
  condition: each call that missed the address is followed by one that wrote it.
* `src/noxdb_config.h:41-43` says 64 entries cannot bind for segments of 4 KB or more. True for
  merged chunks of that size, where 63 are enough and needed: a run overflows a page if and only if
  it has fewer (`EngineCrowd.ChunksOverflowIff`). Not for calls of that size: one that straddles a page
  boundary leaves a smaller chunk, and a run overflows a page if and only if it has 64 entries or
  fewer (`EngineCrowd.CallsOverflowIff`), so 65 calls of 4 KB can overflow a page as configured.
* `src/watermark.c` and `src/noxdb.c:215-236` rely on the flusher to reopen the gate. A page whose read
  failed is never freed, so with marks 1 and 0 one failed read shuts the gate for good
  (`EngineExample.JamReachable`).
* `src/scrap_page.h:141-142` bounds the preads by the 64 blocks of the zone; the bound is 32
  (`HoleReads.PlanBounds`).
* `src/watermark.h:37-38` allows `live` to exceed `high` by the number of threads; one page less is
  the bound (`EngineOrder.GateHolds`).
* `src/page_index.h:61-64` describes `page_index_detach_if` by base; the code compares page pointers only, so
  a page of another base in the same bucket would be detached too (`PageIndex.PageIndex.DetachIf`).
  Callers always pass the page's own base.

## Assumptions

* Calls in flight together write disjoint byte ranges (`include/noxdb.h:10-12`), and `nox_close` is
  called with no call in flight (`include/noxdb.h:46-47`).
* One Stage-1 and one Stage-2 thread (`src/noxdb_config.h:98-110`).
* A lock-protected section is atomic, and so is one `pread` or `pwrite` with respect to the others.
* A short `pread` happens only at the end of the file. A failed `pwritev` or `pwrite` call writes nothing; a short one
  writes a prefix.
* Page pointers are never reused while an old one is still compared; a page is its creation number.
* Integers are unbounded; offsets are 64-bit in the code and the two hashes wrap explicitly.

## Model

| member | source | states |
|---|---|---|
| EngineTheorems.Refinement | src/otflush.c:279-557 | In every reachable state without an I/O failure, disk plus live pages in generation order equal the flat file defined by the merged chunks, at every address |
| EngineTheorems.BackgroundInvisible | src/otflush.c:279-557 | No Stage-1 or Stage-2 step changes what the engine holds at any address |
| EngineTheorems.ForegroundInvisible | src/noxdb.c:74-136 | Nor does any foreground step but the merge: creating, sealing and unlinking pages are invisible |
| EngineTheorems.CommitVisibleExactly | src/noxdb.c:116-155 | A successful merge changes exactly the bytes of its chunk, to the caller's bytes |
| EngineCalls.CallsAreTheSteps | src/noxdb.c:159-201 | In every run the calls, their effects and the merged pieces on record are the ones the steps spell out; a thread in a call carries the offset and buffer of its last start; what it has finished is what it started, in that order |
| EngineCalls.HoldsThePieces | src/noxdb.c:182-199 | Without a failed system call, disk plus live pages hold the old file with the pieces of the started buffers in the order the steps merged them |
| EngineCalls.CallVisible | src/noxdb.c:159-201 | When a call returns, the engine holds the whole buffer it was started with, whatever ran beside it |
| EngineCalls.RunRouted | src/noxdb.c:164-172 | In every run the direct writes are the calls of 1 MiB or more that begin and end on a 4096-byte boundary; every other call goes through the scrap pages |
| EngineCalls.CloseContract | src/noxdb.c:215-260 | In every run close reports an error if and only if a Stage-1 read or a gathered write failed; otherwise the file is the initial file with what each call wrote applied in the order they returned; among them are all calls of every thread, with the buffers they were started with, and all direct calls, of which a prefix may have landed |
| EngineCalls.RunErr | src/otflush.c:624-655 | The error is latched exactly by a failed read or a failed gathered write, and sticks |
| EngineServe.ClosesIff | src/noxdb.c:215-260 | From a reachable state some run closes with 0 if and only if nothing has failed and no batch has used up its calls without being on disk |
| EngineServe.ClosesWithAll | src/otflush.c:614-655 | Then a run without new calls finishes every call in flight, closes with 0 and leaves at every address the byte that was due there |
| EngineServe.WriteServed | src/noxdb.c:159-201 | Then an idle thread may write any non-empty buffer that is not for the direct path and clear of the calls in flight, and some run closes with 0, the buffer in the file and elsewhere what was due |
| EngineServe.DirectServed | src/noxdb.c:167-172 | The same of every direct call clear of scrap pages, whatever prefix of it lands |
| EngineServe.ForegroundBatch | src/otflush.h:4-5 | No foreground step of the scrap path touches the file |
| EngineServe.Opens | src/noxdb.c:31-71 | There is an initial state over any file, for any marks, number of threads and entries |
| EngineClose.ClosePromiseIff | src/noxdb.c:220-222 | For a run that closes with 0 and an address: whatever the direct writes meant to write where they failed, the file holds there what the calls make, if and only if each call that missed the address is followed by one that wrote it |
| EngineClose.ClosePromise | src/noxdb.c:220-222 | So after such a close the file is the calls themselves wherever misses were made good, everywhere if no direct write failed |
| EngineClose.ShortWriteLost | src/noxdb.c:167-172 | A run whose direct write lands nothing and whose close returns 0 all the same, with a file that does not hold the call |
| EngineTheorems.DrainedEmpty | src/otflush.c:614-622 | With nothing pending, no call in flight and no failed read, queues and index are empty and every page is freed |
| EngineTheorems.ClosedFlat | src/otflush.c:624-655 | A close that reports success saw no I/O error and left index and queues empty |
| EngineOrder.WritesInOrder | src/otflush.c:452-557 | While Stage-2 writes a page, every retired page of its base is older and every page still to be written is newer |
| EngineOrder.GenerationsInLine | src/otflush.c:253-275 | Along batch, Q2, Stage-1's hand and Q1 the generations of a base strictly increase, and the indexed page is the newest of its base |
| EngineOrder.SingleMembership | src/otflush.h:10-12 | A page is in at most one place, `in_queue` says exactly where, and `pending` counts the pages on their way |
| EngineOrder.QueuesStayFifo | src/otflush.c:333-339 | The busy branches and the not-ready branch are unreachable, so no queue is ever reordered |
| EngineOrder.BytesInFlight | src/otflush.c:136-153 | `bcount` is one zone while Stage-1 reads plus the batch while Stage-2 writes, below the busy threshold |
| EngineOrder.GuardExact | src/otflush.c:85-107 | Each guard slot counts exactly the pages pending writeback that hash to it |
| EngineOrder.GuardCovers | src/otflush.c:57-84 | The guard has no false negative: a page pending writeback keeps its slot above zero |
| EngineOrder.GuardPasses | src/otflush.c:109-132 | Stage-1 gets past the guard if and only if no page that hashes to its slot is pending writeback |
| EngineOrder.BatchMaximal | src/otflush.c:417-450 | Stage-2 ends its batch if and only if it has eight pages, or Q2 is empty, or its head is not the page after the last |
| Geometry.TopBits | src/page_index.c:52-77 | Slot, bucket and shard are the top 13, 10 and 6 bits of the 64-bit Fibonacci product |
| Geometry.NeighboursSpread | src/page_index.c:62-73 | Eight pages in a row, the longest batch, fall into eight different shards, buckets and guard slots |
| EngineWhole.WholePagesNeverRead | src/otflush.h:34-40 | In every run whose calls are made of whole pages, for any number of threads, Stage-1 takes no step |
| EngineReads.HoleReadFresh | src/otflush.c:358-367 | In every run, when Stage-1 reads, every other live page of the base is newer than the one it completes, or lost to a failed read |
| EngineReads.ReachedReadsFirst | src/otflush.c:57-84 | In every run, while Stage-1 reads no page of the base is still to be written before its own, and it reads no byte twice |
| EngineReads.ZoneFixed | src/otflush.c:363-384 | While Stage-1 reads, no step changes on disk what it has read, a direct write included, and only a direct write over a byte changes it in the rest of that zone |
| EngineReads.ZoneWaits | src/otflush.c:358-387 | A page that is first of its base waits for its writeback: no step except a direct write over the byte or that writeback changes a byte of its zone on disk, whatever has failed |
| EngineReads.FixedUntilWriteback | src/otflush.c:57-84 | Over every run from there, each byte of the zone on disk is fixed until the page's own writeback or a direct write over that byte |
| EngineReads.ReadStaysTrue | src/otflush.c:358-387 | The page Stage-1 is completing is such a page, so what it reads stays what is on disk until then |
| EngineJunk.JunkNeverWritten | src/scrap_page.h:108-130 | Two runs that differ only in what fresh pages and the scratch zone held before, failures included: if one goes through so does the other, and they end with the same file and the same covered bytes, so no uninitialised byte is ever written back |
| EngineOrder.FreeSafety | src/otflush.c:395-413 | From the start of its I/O until it is freed a page is not indexed, not queued, and no thread holds or awaits its lock |
| EngineOrder.StableSource | src/io_direct.h:36-41 | No step changes the bytes of a page under writeback |
| EngineOrder.GateHolds | src/watermark.c:82-135 | While armed, live pages never exceed high + threads - 1, and an unsignalled sleeper sleeps above the low mark |
| EngineOrder.GateAdmits | src/watermark.c:82-99 | In every run a thread at the gate passes at once if and only if the gate is disarmed or fewer than `high` pages are live; otherwise it parks, one stall is counted, and nothing else changes |
| EngineOrder.RetriesOnce | src/noxdb.c:118-136 | With one foreground thread a chunk that overflows is merged on the next attempt |
| EngineOrder.RetriedAtMostOnce | src/noxdb.c:118-136 | With one foreground thread, in every run at most one overflow lies between two steps that start a call or merge a chunk |
| EngineDrain.NoDeadlock | src/otflush.c:109-132 | A productive step is enabled as long as a page is pending, or a call is in flight and failed reads have lost no more pages than the low mark |
| EngineDrain.DrainBounded | src/otflush.c:279-557 | No run of the two stages alone is longer than the measure of the state it starts in |
| EngineDrain.DrainCompletes | src/otflush.c:614-622 | In every run, with the foreground idle, the stages stop only when nothing is pending |
| EngineProgress.Progress | src/noxdb.c:77-93 | Names the enabled step of every state that is not jammed: lock holders, Stage-1 behind the guard, unparked threads and Stage-2 each have one |
| EngineProgress.ProgressIff | src/watermark.c:82-135 | In every run a step other than a new call, a failed read or a spurious wakeup is enabled if and only if the engine is not jammed |
| EngineProgress.JamNeedsLosses | src/otflush.c:370-376 | Calls are stuck only while the gate is armed and failed reads have lost more pages than the low mark, all that are live |
| EngineExample.JamReachable | src/otflush.c:370-376 | A run with marks 1 and 0 that ends with a call parked for good after one failed read |
| EngineLive.RunsBounded | src/noxdb.c:74-157 | For any number of threads, every run without new calls and spurious wakeups is bounded, so the retry loop cannot livelock |
| EngineLive.StopsWhenDone | src/noxdb.c:77-157 | When no productive step is left, unless failed reads have lost more pages than the low mark, every call has returned, nothing is pending and every page is freed but those lost to a failed read; without such a loss all are and the index is empty |
| EngineSafety.ForegroundKeeps | src/noxdb.c:74-157 | Every section of scrap_write_chunk keeps the invariant |
| EngineSafety.Stage1Keeps | src/otflush.c:279-391 | Every section of stage1_loop keeps the invariant, a failed read included |
| EngineSafety.Stage2Keeps | src/otflush.c:452-557 | Every section of stage2_loop keeps the invariant, short and failed writes included |
| EngineSafety.CallerKeeps | src/noxdb.c:167-172 | Direct writes clear of scrap pages, whole, short or failed, and the sections of nox_close, keep the invariant |
| EngineSafety.ReachedInv | src/otflush.c:279-557 | The invariant holds in every state of every run |
| EngineSafety.NoRequeue | src/otflush.c:417-450 | In a state of the invariant neither re-push branch is enabled |
| WriterCommits.CommitKeeps | src/noxdb.c:116-155 | Merge and enqueue keep the invariant: a page born full may jump to Q2 because no page of its base is behind it |
| WriterMerges.OverflowKeeps | src/noxdb.c:118-136 | Sealing and enqueueing an overflowing page keeps the invariant |
| WriterPages.CreateKeeps | src/page_index.c:138-150 | A page created under the shard lock becomes the newest of its base |
| WriterPages.UnlinkKeeps | src/noxdb.c:110-114 | Detaching by identity after the page lock was dropped never unlinks a newer page |
| Stage1Shifts.S1GuardKeeps | src/otflush.c:358-361 | Passing the guard means no older page of the base is unwritten |
| Stage1Pages.S1FillKeeps | src/otflush.c:378-384 | Completing a page from the unlocked read keeps every user byte and adds the file's bytes |
| Stage1Pages.S1FailKeeps | src/otflush.c:370-376 | A failed read latches the error and drops the page, everything else stays in order |
| Stage2Pages.S2UnlinkKeeps | src/otflush.c:403-408 | Detaching a batch page leaves the rest of the index as it is |
| Stage2Pages.S2ClaimKeeps | src/otflush.c:409-412 | Tagging a page FLUSHING under its lock makes Stage-2 its owner |
| Stage2Pages.S2FreeKeeps | src/otflush.c:547-549 | Freeing a written page leaves the engine's contents as they are |
| Stage2Shifts.S2IssueKeeps | src/otflush.c:508-542 | One write call, short or whole, puts only bytes of the batch on disk |
| EngineFastPath.FastKeptIff | src/noxdb.c:167-172 | In every reachable state, a direct write loses no byte of any buffer in any run that goes on from it if and only if it is clear of scrap pages |
| EngineFastPath.FastVisibleIff | src/noxdb.c:167-172 | A direct write is seen, whatever it writes, if and only if no live page covers one of its bytes |
| EngineFastPath.FastUndone | src/noxdb.c:167-172 | Over a byte Stage-1 has read for a page it is completing, a direct write of another value is seen at once and a run goes on to undo it |
| EngineFastPath.FastPathRestricted | include/noxdb.h:43-44 | A reachable state with no call in flight in which a direct write is lost: the documented freedom does not hold |
| NoxWrite.Split | src/noxdb.c:159-201 | Nothing for an empty call; direct if and only if it has 1048576 bytes or more and begins and ends on a 4096-byte boundary; else chunks, each in one page, that applied in order are the call |
| NoxWrite.ChunksAreTheCall | src/noxdb.c:182-199 | Applying the chunks of a call to any flat file is applying the call |
| NoxWrite.ChunksFollow | src/noxdb.c:186-198 | Chunk k goes to the k-th page from the first, at its start except for the first |
| ScrapPage.Header.CoalesceInsert | src/scrap_page.c:111-169 | The entry array becomes the coalesced list of the union; it refuses exactly when that list does not fit and then changes nothing |
| ScrapPage.Header.Absorb | src/scrap_page.c:132-141 | Grows the range over exactly the segments it overlaps or touches |
| ScrapPage.Page.constructor | src/scrap_page.c:12-83 | A fresh page covers nothing |
| ScrapPage.Page.IsFull | src/scrap_page.c:97-100 | The counter equals the zone size if and only if every byte is covered |
| ScrapPage.Page.Merge | src/scrap_page.c:171-184 | Refused exactly when the union needs more segments than fit, and then page and zone are unchanged; otherwise both take exactly the bytes |
| ScrapPage.Page.HoleRanges | src/scrap_page.c:186-214 | The first `max` segments of the complement of the entry list |
| ScrapPage.Page.ApplyHoles | src/scrap_page.c:305-333 | What is still a hole comes from the scratch zone, user bytes stay, and the page becomes one full segment |
| Segments.InsertIsUnion | src/scrap_page.c:111-169 | Coalescing yields the canonical list of the union: its length is the run count, its total the number of covered bytes |
| Segments.CanonicalUnique | src/scrap_page.c:102-110 | Two sorted, disjoint, non-touching lists that cover the same bytes are equal |
| Segments.CanonicalCounts | src/scrap_page.c:97-100 | `number` and `counter` are functions of the covered set |
| Segments.MergeOrderIrrelevant | src/scrap_page.c:171-184 | The entry list depends only on what was written, not on order or grouping of the merges |
| Segments.HolesComplement | src/scrap_page.c:186-214 | The holes are canonical, at most one more than the entries, and cover exactly the complement |
| Segments.BlocksNeverOverflow | src/noxdb_config.h:38-44 | With entries times block at least the zone, a merge of a block or more into such a list never overflows |
| Segments.BlockHistoryFits | src/noxdb_config.h:38-44 | Nor does any history of such merges and hole fills |
| EngineEntries.BlockChunksNeverOverflow | src/noxdb_config.h:38-44 | With 63 entries or more, in no run whose calls are split into chunks of a block or more does a merge ever overflow |
| EngineCrowd.ChunksOverflowIff | src/noxdb_config.h:38-44 | Calls split into chunks of a block or more can overflow a page in some run if and only if it has fewer than 63 entries |
| Segments.StraddlingOverflows | src/noxdb_config.h:38-44 | A concrete zone of 64 entries, made of blocks and an edge, where the last byte needs a 65th |
| Segments.CrowdedBuilt | src/scrap_page.c:111-169 | Merging its segments one by one makes that zone |
| NoxWrite.BigCallChunks | src/noxdb.c:182-199 | A call of a block or more is split into chunks that are a block or more, or lie at an edge of their page |
| NoxWrite.BigCallsOverflow | src/noxdb_config.h:38-44 | 65 calls of 4 KB whose parts in one page are the segments of that zone and its last byte |
| Segments.OneMoreEntrySuffices | src/noxdb_config.h:38-44 | For a merge that is a block or lies at an edge, zone / block + 1 entries are enough |
| Segments.EdgeHistoryFits | src/noxdb_config.h:38-44 | And for any history of such merges and hole fills |
| EngineEntries.BlockCallsNeverOverflow | src/noxdb_config.h:38-44 | With one entry above zone / block, no run of calls of a block or more ever overflows a page |
| EngineCrowd.CallsOverflow | src/noxdb_config.h:38-44 | With zone / block entries or fewer, a run of calls of one block reaches a state in which a merge overflows |
| EngineCrowd.CallsOverflowIff | src/noxdb_config.h:38-44 | Calls of a block or more can overflow a page in some run if and only if it has at most 64 entries, which is the configured number |
| HoleReads.PlanCov | src/scrap_page.c:241-303 | The reads cover exactly the blocks that hold a byte of some hole |
| HoleReads.PlanShape | src/scrap_page.h:138-140 | Reads are block-aligned, in order, inside the zone and at least one block apart |
| HoleReads.PlanBounds | src/scrap_page.h:138-142 | At most one zone's bytes are asked for, in at most 32 reads |
| HoleReads.NoBlockTwice | src/scrap_page.c:262-280 | No block is read twice |
| HoleFill.ReadRun | src/scrap_page.c:228-239 | The run holds the file's bytes, zero past its end; the rest of the scratch zone is unchanged |
| HoleFill.ReadRuns | src/scrap_page.c:241-303 | The coalescing loop issues exactly the planned reads, or a proper prefix that ends at a failing one |
| HoleFill.ReadHoles | src/scrap_page.c:241-303 | On success every hole is in the scratch zone, within the byte and read bounds |
| HoleFill.FillHoles | src/scrap_page.c:335-354 | It succeeds if and only if no planned read fails: user bytes where there were any, file bytes elsewhere; on failure the page is unchanged |
| HoleFill.UnlockedFill | src/scrap_page.h:108-130 | Whatever merges land between snapshot and apply, the zone ends with the latest user byte where there is one and the file's byte elsewhere |
| IoDirect.IovCompleteCount | src/io_direct.c:97-110 | The largest prefix of buffers the byte count covers, and its length |
| IoDirect.PwritevAll | src/io_direct.c:112-180 | For every sequence of kernel answers the file is the old one with a prefix of the buffers over it, all of them on success; calls stay aligned; it gives up only on an error, an empty answer or five answers in a row that complete no buffer; at most five calls per buffer; on a device that keeps working it is done |
| IoDirect.GatherIsOneByOne | src/otflush.c:508-542 | A gathered batch write leaves the file as writing its pages one by one |
| IoDirect.Rewrite | src/io_direct.c:171-176 | Reissuing a buffer over what already landed of it loses nothing |
| EngineDevice.CallLands | src/otflush.c:508-542 | One pwritev of a batch, from any buffer on and however short, changes the disk as a write step may |
| EngineDevice.CallIsStep | src/io_direct.c:112-180 | In every run such a call, within five per page, is an enabled step |
| EngineDevice.BatchKept | src/otflush.c:508-542 | In every run the batch under write has consecutive bases and complete zones |
| EngineDevice.FailuresAreSteps | src/otflush.c:370-376 | In every run a gathered write may fail at any call and a read at any pread |
| EngineDevice.SnapshotPlan | src/scrap_page.c:241-303 | The reads planned for the holes of the snapshotted page are a plan the guard step takes |
| EngineDevice.DoneIsLanded | src/otflush.c:508-542 | A gathered write that is done is a batch that has landed |
| EngineDevice.DirectIsAfter | src/noxdb.c:167-172 | The pwrite of the direct path is the disk change of its step |
| EngineDevice.ReadRunIsRead | src/scrap_page.c:228-239 | What a pread leaves in the scratch zone is what the read step leaves there |
| Queue.Queue.Push | src/queue.c:45-58 | Appends to the sequence the links stand for |
| Queue.Queue.PopHead | src/queue.c:61-72 | Removes the oldest page and clears its link |
| Queue.Queue.Pop | src/queue.c:74-86 | One turn of the wait loop: it waits, with nothing changed, exactly on an empty queue that is not shut down, gives null exactly from an empty one that is, else the oldest page: a shut down queue still drains |
| Queue.Queue.Shutdown | src/queue.c:98-104 | Sets the flag and keeps the contents |
| Queue.Queue.PopIfBase | src/queue.c:88-96 | Takes the head exactly when its base is the wanted one |
| Queue.Forward | src/otflush.c:324-331 | Moving a page between two queues that share one link field: they stay two sequences; their concatenation is unchanged |
| Queue.Play | src/queue.h:8-10 | Over every history of pushes and pops that keeps single membership, the two queues are two independent sequences |
| Queue.Collect | src/otflush.c:417-450 | The batch is a maximal run of consecutive bases from the front of Q2; a page not ready goes to the back |
| PageIndex.PageIndex.GetOrCreate | src/page_index.c:116-151 | The chains implement a map with at most one page per base: the resident page, or a fresh one added, or null when allocation fails |
| PageIndex.PageIndex.DetachIf | src/page_index.c:173-191 | Unlinks if and only if the bucket holds this very page; every other mapping stays |
| PageIndex.PageIndex.Remove | src/page_index.c:153-171 | Removes exactly the mapping of the base |
| Watermark.Watermark.constructor | src/watermark.c:55-69 | Armed over an empty buffer the gate's invariant holds |
| Watermark.Watermark.WaitEnter | src/watermark.c:82-99 | Passes if and only if disarmed or below the high mark, else sleeps and counts one stall; marks and level unchanged; keeps the invariant |
| Watermark.Watermark.WaitResume | src/watermark.c:100-108 | A sleeper passes only at the low mark or after disarm, however it was woken; no stall is counted twice |
| Watermark.Watermark.NoteAlloc | src/watermark.c:111-119 | Keeps the bound: live is at most high + threads - 1 |
| Watermark.Watermark.NoteFree | src/watermark.c:121-135 | The crossing into the release band signals every sleeper; keeps the invariant |
| Watermark.Watermark.Disarm | src/watermark.c:71-80 | No sleeper is left unsignalled |
| Gate.EnterKeeps | src/watermark.c:82-99 | Admits if and only if disarmed or below the high mark, else counts one stall; touches no other thread; keeps no-lost-wakeup and the bound on live plus admitted threads |
| Gate.WakeKeeps | src/watermark.c:100-108 | A wakeup keeps both, admits exactly at or below the low mark or when disarmed, counts no stall and touches no other thread |
| Gate.FreeKeeps | src/watermark.c:121-135 | A free keeps both; it signals in the release band and nowhere else |

## Left out

- The sweep of nox_close after an I/O failure (`page_index_foreach` over pages a failed read dropped): close is modelled up to the error it reports.
- A failing close(2) of the descriptor, which nox_close also reports: the error of close is that of the flusher.
- Contents after an I/O failure: what the engine holds is proved until the error is latched; ordering, freshness, ownership and progress hold in every run.
- More than one Stage-1 or Stage-2 thread: the interface rules it out (`include/noxdb.h:38-41`).
- Overlapping concurrent calls and cross-page atomicity: the interface promises nothing.
- Memory exhaustion in the step system and thread-creation failures; `PageIndex.PageIndex.GetOrCreate` models the null return.
- Header fields of fixed width: `number` is one byte and the guard slots are 32-bit counters; the model has any entry limit of at least one and unbounded counters.
- Steps that only touch a counter are merged with a neighbouring section of the same thread: Stage-1's bytes in flight end with the fill, `pending` falls with the drop of a failed page, Stage-2's bytes in flight bracket its write calls, `otflush_enqueue_partial` and `otflush_enqueue_full` (flag, `pending`, guard and push, all under the page lock) are one step, and so are the queue pop and the readiness test of `stage2_collect`.
- Buffer addresses, the bounce buffer, `posix_memalign`, error texts and stderr notices.
- Statistics, clocks and the timed backstop of the guard wait: timing only.
- Destruction of index and queues, build-time overrides, the repro stall hooks, re-arming the gate.
- The page, shard and queue locks inside the imperative classes: each method is one critical section; interleaving is the step system's subject.
- PageIndex.PageIndex.Remove: looks the page up and unlinks it in two walks where the code makes one; the result is the same.
- EngineOrder.RetriesOnce: one foreground thread only; with several, another thread can fill the fresh page first, and `EngineLive.RunsBounded` bounds the retries.
