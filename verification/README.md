# Memcached on persistent memory: a verified model

This project models the parts of a memcached with persistent memory support in which several things have to stay in
agreement at once, and proves that they do, for every input and for every interleaving of the threads involved.

- **Persistent pool** (`Pmem`, `PslabHeader`, `PmItems`, `Recovery`, `CrashRecovery`). Bytes on the medium change by
  store, flush and drain, and a crash writes back any subset of what was not yet drained. The two-slot header survives a
  crash at any operation; items that are LINKED on the medium are complete; recovery rebuilds table, page lists and free
  lists, from whatever a crash has left, and the next run starts from there.
- **Hash table** (`Assoc`, `AssocLocks`). The table migrates bucket by bucket while in use. It is a map throughout, and
  one stripe lock of a smaller lock table is enough for the migrator.
- **Items** (`Items`, `LruQueue`, `Crawler`). Table, linked flag, LRU queues and reference counts agree; the crawler
  walks a real doubly linked list while others change it; pulling the tail loses nothing it should not.
- **Slab mover** (`SlabMover`, `SlabFlags`). A page changes class while other threads allocate, link, unlink and free.
  `SlabMover` goes by what each chunk is; `SlabFlags` adds the flag bytes and pointers by which the code finds that out,
  and says in which runs the two agree.
- **External storage** (`Extstore`). Write buffers, versioned pages, IO threads, pinned reads and eviction together are a
  map from handles to bytes.
- **CRC-32C** (`CrcSpec`, `CrcTables`, `CrcEngine`, `CrcPoly`). The table-driven and the three-way hardware form both
  compute the polynomial remainder of RFC 3720.
- **Buffers and replies** (`BipBuffer`, `ChunkCopy`, `IoVec`, `Jenkins`). The two-region buffer, append and prepend over
  chunked values, gathered output cut into datagrams, and the key hash.

Objects that the program updates in place are classes; sequences of critical sections are state machines over explicit
states, with lemmas over whole runs. In `Extstore` and `SlabMover` every object carries the run that has led to its
state, so the run lemmas speak about the methods directly; in `Items` the methods state the new state as the functions of
which the runs are made. `Common` has what several modules need.

## What came out

Some properties one would expect hold only under a condition. Each has the exact condition and an example:

- Creating a pool leaves no incomplete pool that is marked valid, at any crash point, if and only if the pool was not
  marked valid before, that is if its valid byte was neither 1 nor 2 (`PslabHeader.CreateSafeIff`). The check at open does
  not look at the valid byte itself; a pool whose valid byte is still zero is accepted when its header happens to add up
  (`PslabHeader.UnmarkedAcceptedIff`).
- Recovery loses the slot of an expired item exactly when that item, in a frame that is kept, carries a non-null
  hash-chain pointer on the medium: the third walk reads it as the head of a chunk (`Recovery.AccountedIff`).
- Recovery stops at an assertion exactly when a frame that is kept has the header of a chunked item that is not linked,
  and that slot is not itself a chunk of a live item (`Recovery.Recover`).
- One bit of the flag byte means part of a larger item and also persistent memory (`memcached.h`, lines 472-475). In a
  build with persistent slabs, freeing an item with chunks therefore leaves its chunks on their free lists with the flags
  and the head of parts, in ordinary memory too. The slab mover sees every chunk for what it is, and a page is clear when
  the mover is done with it, in every run of a build without persistent slabs, and otherwise in the runs in which no item
  with chunks has been freed or given up (`SlabFlags.LooksRightIff`, `SlabFlags.RunIsMeant`, `SlabFlags.DoneIsSafe`).
  Otherwise it can be done while a free list still has a chunk of the page (`SlabFlags.StaleDone`,
  `SlabFlags.MoverLeavesChunk`).
- Append and prepend give the right value for every mix of layouts except one: a new item in one piece next to a chunked
  added item, which takes an old value of less than four bytes without flags and an added one with flags near the chunk
  limit (`ChunkCopy.ExtendRightIff`, `ChunkCopy.StrayPlain`).
- A poll of the two-region buffer is checked against the end of the array only, in 32 bits; it is right exactly inside
  region A (`BipBuffer.PollOkIff`). The callers poll what they have peeked, for which it is right (`BipBuffer.PeekedSurvives`).
- A stripe lock covers a bucket exactly when the lock table is no larger than the hash table
  (`AssocLocks.StripesNeedSmallerTable`); start-up checks that.
- Taking a new page for a full bucket relies on one writer per bucket (`Extstore.SecondWriterFails`).
- Copying into a chunked value always ends with one empty chunk more than needed (`ChunkCopy.OneTooMany`).

Where comments and code disagree the model follows the code. A comment in `extstore.c` (lines 366-371) speaks of buffers
that are flushed out of order and removed from the head of a list; in the code a page has one buffer at a time, and that
is what is asserted and modelled. A fetch treats an item as expired when its time is not after now, the pull of a tail
and the slab mover when it is before now; the model keeps both tests. A pull that is asked to return its item keeps a
reference also where it does not report the item (outside the cold queue, or together with eviction).

## Model

| member | source | states |
|---|---|---|
| CrcSpec.AdvanceXor | memcached-pmem/crc32c.c:59-67 | One bit step of the register is linear over GF(2): stepping an exclusive-or is the exclusive-or of the steps |
| CrcSpec.ZerosXor | memcached-pmem/crc32c.c:116-128 | Feeding any number of zero bits is linear over GF(2), which is what lets an operator be stored as a matrix or as tables |
| CrcSpec.ZerosCompose | memcached-pmem/crc32c.c:130-138 | The operator for m zero bits followed by that for n is the operator for m + n |
| CrcSpec.BitsStepIsZeros | memcached-pmem/crc32c.c:56-68 | Feeding the bits of a word one at a time is the same as xoring the word in and feeding zeros |
| CrcSpec.RegisterByte | memcached-pmem/crc32c.c:88-91 | The byte-at-a-time step is eight bit-at-a-time steps |
| CrcSpec.RegisterConcat | memcached-pmem/crc32c.c:87-110 | The register after s + t is the register after t started from that after s |
| CrcSpec.RegisterAffine | memcached-pmem/crc32c.c:254-270 | What the register starts from contributes through the zeros operator of the message length, independently of the message; the recombination of parallel blocks rests on it |
| CrcSpec.Crc32cConcat | memcached-pmem/storage.c:98-100 | A checksum continued from an earlier one is the checksum of the concatenation |
| CrcSpec.ChainedIsWhole | memcached-pmem/memcached.c:3640-3650 | However a stored value is cut into pieces on the way back, chaining the checksum over the pieces gives the one computed over the whole when it was written |
| CrcPoly.GeneratorBits | memcached-pmem/crc32c.c:45-46 | The program constant is, bit for bit, the CRC-32C generator of RFC 3720 section 12.1 without its leading term, reversed |
| CrcPoly.RegisterBits | memcached-pmem/crc32c.c:81-110 | The byte register equals the register fed bit by bit, low bit of each byte first |
| CrcPoly.TotalStep | memcached-pmem/crc32c.c:59-67 | One more message bit multiplies message-plus-register by x and adds the generator exactly when the feedback bit is set |
| CrcPoly.Remainder | memcached-pmem/crc32c.c:81-110 | Message times x^32, plus the start value times x^n, plus the register is a multiple of the generator, for every message; the multiplier is returned |
| CrcPoly.CrcIsRemainder | memcached-pmem/crc32c.c:81-110 | Complementing apart, the CRC of every message is the remainder of its polynomial on division by the generator: congruent to it and of degree below 32 |
| CrcPoly.MultipleIsProduct | memcached-pmem/crc32c.c:81-110 | What is called a multiple is the product of the generator with a quotient polynomial, coefficient by coefficient |
| CrcPoly.MultipleDegree | memcached-pmem/crc32c.c:81-110 | A multiple of the generator that stays below x^32 is zero |
| CrcPoly.OneRemainder | memcached-pmem/crc32c.c:81-110 | Two polynomials below x^32 that are congruent are equal, so the remainder, and with it the CRC, is determined by the definition alone |
| CrcTables.MatrixTimes | memcached-pmem/crc32c.c:116-128 | The loop over the set bits of the vector computes the matrix-vector product over GF(2) |
| CrcTables.ColumnsCombine | memcached-pmem/crc32c.c:116-128 | A matrix whose columns are the images of the single bits acts on every suffix of bits as the operator does |
| CrcTables.MatTimesIsZeros | memcached-pmem/crc32c.c:112-128 | Multiplying by the matrix of the n-zero-bits operator feeds n zero bits to any register |
| CrcTables.MatrixSquare | memcached-pmem/crc32c.c:132-138 | Squaring the matrix of n zero bits gives the matrix of 2n |
| CrcTables.PowerBelowIsLargest | memcached-pmem/crc32c.c:140-144 | The length the operator ends up for is a power of two, the largest not above the requested one, and the requested one itself when that is a power of two |
| CrcTables.OneBitMatrix | memcached-pmem/crc32c.c:151-157 | The starting matrix is the operator for one zero bit |
| CrcTables.ZerosOp | memcached-pmem/crc32c.c:145-180 | For every length the operator that is built feeds the zero bytes of the largest power of two not above it (one byte for zero) |
| CrcEngine.InitByteTables | memcached-pmem/crc32c.c:53-76 | Entry n of table k is byte n followed by k more zero bytes, for all 8 times 256 entries |
| CrcEngine.RegisterWord | memcached-pmem/crc32c.c:258-265 | Four bytes enter the register as one little-endian word |
| CrcEngine.RegisterLanes | memcached-pmem/crc32c.c:92-103 | Eight message bytes, one through each of the eight tables, give the register that eight byte steps give |
| CrcEngine.StepByTable | memcached-pmem/crc32c.c:88-91 | One table look-up is one byte step; the upper half of the 64-bit accumulator stays zero |
| CrcEngine.StepEightByTables | memcached-pmem/crc32c.c:92-105 | The eight look-ups of one quadword are eight byte steps |
| CrcEngine.Software | memcached-pmem/crc32c.c:81-110 | The table-driven form computes CRC-32C for every buffer, length, alignment and starting value |
| CrcEngine.InitShiftTables | memcached-pmem/crc32c.c:184-196 | The four tables hold the zeros operator applied to each byte in each position |
| CrcEngine.ShiftIsZeros | memcached-pmem/crc32c.c:199-203 | Four look-ups apply the zeros operator to any register |
| CrcEngine.RegisterJoin | memcached-pmem/crc32c.c:266-267 | Shifting a register and xoring in that of the next block, computed from zero, is the register over both |
| CrcEngine.ThreeWay | memcached-pmem/crc32c.c:254-290 | Three adjacent blocks fed to three registers in lockstep and recombined give the register over all three |
| CrcEngine.Blocks | memcached-pmem/crc32c.c:254-290 | Repeated three-way blocks of either size carry the register over everything but less than three blocks |
| CrcEngine.Rest | memcached-pmem/crc32c.c:292-310 | Quadwords and then bytes carry the register to the end of the buffer |
| CrcEngine.Hardware | memcached-pmem/crc32c.c:228-314 | The three-way hardware form computes CRC-32C for every buffer, length, alignment and starting value |
| CrcEngine.Engine.Crc | memcached-pmem/crc32c.c:334-343 | Whichever form the processor selects, the answer is CRC-32C of the buffer |
| Assoc.InsertRepresents | memcached-pmem/assoc.c:161-169 | Putting an item at the head of its routed chain makes the table stand for the map with that item added, before, during and after an expansion |
| Assoc.DeleteRepresents | memcached-pmem/assoc.c:183-203 | Taking an item out of its chain makes the table stand for the map without its key |
| Assoc.LookupAgrees | memcached-pmem/assoc.c:78-102 | The chain a hash value is routed to answers every lookup as the map does |
| Assoc.CursorSplit | memcached-pmem/assoc.c:57-61 | During an expansion the old buckets below the cursor are empty, and so are both new buckets of every old one not yet migrated |
| Assoc.ExpandRepresents | memcached-pmem/assoc.c:126-145 | Starting an expansion, with everything still in the old table, does not change the map |
| Assoc.DetachRepresents | memcached-pmem/assoc.c:228-235 | With the cursor past a bucket and its items aside, the rest stands for the map without those items |
| Assoc.MoveRepresents | memcached-pmem/assoc.c:228-233 | Each item put into its new bucket adds exactly its key back to the map |
| Assoc.FinishRepresents | memcached-pmem/assoc.c:237-240 | When the cursor reaches the end, the new table alone stands for the map |
| Assoc.HashTable.constructor | memcached-pmem/assoc.c:63-76 | A new table stands for the empty map |
| Assoc.HashTable.Route | memcached-pmem/assoc.c:82-88 | A hash value goes to its old bucket exactly when an expansion is going on and the cursor has not passed that bucket |
| Assoc.HashTable.Find | memcached-pmem/assoc.c:78-102 | Find returns what the map has under the key, or nothing when it has nothing |
| Assoc.HashTable.Insert | memcached-pmem/assoc.c:156-181 | Insert adds the item to the map and counts it, and asks for an expansion exactly when none is going on, the load is above 3/2 and the table can still grow |
| Assoc.HashTable.Position | memcached-pmem/assoc.c:107-123 | The walk stops at the first item with the key, or at the end when there is none |
| Assoc.HashTable.Delete | memcached-pmem/assoc.c:183-203 | Delete removes exactly the key |
| Assoc.HashTable.Expand | memcached-pmem/assoc.c:126-145 | With memory the table doubles and an expansion begins, without it nothing changes; the map is the same either way |
| Assoc.HashTable.MoveChain | memcached-pmem/assoc.c:228-233 | The walk over a detached bucket puts all its items back and no others |
| Assoc.HashTable.MigrateBucket | memcached-pmem/assoc.c:227-247 | Migrating a bucket leaves the map as it was and moves the cursor by one; the expansion ends exactly with the last bucket |
| AssocLocks.StripeCovers | memcached-pmem/assoc.c:223-227 | The lock of a bucket number is the lock of every hash value in that bucket |
| AssocLocks.OutsideBucket | memcached-pmem/assoc.c:227-235 | While the migrator holds its lock, no worker that holds a lock has its hash value in the bucket being moved |
| AssocLocks.StepKeeps | memcached-pmem/assoc.c:78-276 | Every step of every thread (lock, route, read, insert, delete, unlock, one item moved, cursor, expansion) keeps the invariant of the locked table |
| AssocLocks.RunKeeps | memcached-pmem/assoc.c:78-276 | The invariant holds in every state of every interleaving of any number of workers with the maintenance thread |
| AssocLocks.RoutingStable | memcached-pmem/assoc.c:78-102 | In every interleaving the bucket a worker chose under its lock stays the right one, although the cursor is read without a lock, and its chain answers as the map does |
| AssocLocks.NoSharedChains | memcached-pmem/assoc.c:223-227 | No two threads are ever at the same chain: not two workers, and not a worker and the migrator, whose one lock covers the old bucket and both new ones |
| AssocLocks.HeldKeysStable | memcached-pmem/thread.c:98-116 | While a worker holds a lock no other thread changes what the map has under a key of that lock, so look up and then insert or delete is atomic |
| AssocLocks.StripesNeedSmallerTable | memcached-pmem/thread.c:756-761 | One lock covers a bucket for all hash values if and only if the lock table is no larger than the table of the bucket |
| AssocLocks.StartUpIsInit | memcached-pmem/thread.c:740-764 | Every server that passes the start-up check starts in a state the theorems apply to; with a hash power of 16 or more it always passes |
| BipBuffer.EmptyIffUnused | memcached-pmem/bipbuffer.c:63-66 | The emptiness test is true exactly when the queue of bytes is empty, and the used count is its length |
| BipBuffer.PushOk | memcached-pmem/bipbuffer.c:91-107 | A push keeps the regions in order and costs at most its size of the room, even when it makes the writer change regions |
| BipBuffer.PollOkIff | memcached-pmem/bipbuffer.c:151-180 | An accepted poll keeps the regions in order and takes as many bytes as it says if and only if it stays inside region A, for every 32-bit size; then no room is lost |
| BipBuffer.PollCanOverrun | memcached-pmem/bipbuffer.c:156-158 | There are polls that the check against the end of the array accepts and that run past region A, and some that pass it because the 32-bit sum wraps, after which bytes already read are in the queue again |
| BipBuffer.PushThenOfferFits | memcached-pmem/logger.c:289-316 | After one request for line plus reserve, a push below the reserve and then the line both fit, as the unchecked offer assumes |
| BipBuffer.OfferAppends | memcached-pmem/bipbuffer.c:109-128 | An offer appends to the queue and leaves region A, which a reader may be looking at, as it is |
| BipBuffer.PollDrops | memcached-pmem/bipbuffer.c:151-180 | A poll inside region A takes exactly the front of the queue |
| BipBuffer.WritersAppend | memcached-pmem/items.c:1346-1367 | Any number of pushes and offers append in order and keep region A in place |
| BipBuffer.PeekedSurvives | memcached-pmem/items.c:1383-1404 | Bytes peeked at stay where they are through any number of writes with the lock dropped; polling their length then is accepted and leaves what followed them and everything written since |
| BipBuffer.Bip.constructor | memcached-pmem/bipbuffer.c:42-56 | A new buffer is an empty queue of the given capacity |
| BipBuffer.Bip.Push | memcached-pmem/bipbuffer.c:91-107 | A push adds the bytes the caller has put at the requested place, or is refused and changes nothing |
| BipBuffer.Bip.OfferBytes | memcached-pmem/bipbuffer.c:109-128 | An offer is refused whole exactly when it does not fit, and otherwise appends all its bytes |
| BipBuffer.Bip.PeekAll | memcached-pmem/bipbuffer.c:142-149 | Peeking gives the front of the queue, all of region A, and nothing exactly when the queue is empty |
| BipBuffer.Bip.PollBytes | memcached-pmem/bipbuffer.c:151-180 | The in-place form of a poll: refused exactly as the code refuses, in order and shorter by its size afterwards if and only if it stayed inside region A, and then the front of the queue is gone |
| LruQueue.Queue.LinkHead | memcached-pmem/items.c:413-438 | The pointer updates put the item at the head; links in both directions, ends, count and bytes agree with the new list |
| LruQueue.Queue.Unlink | memcached-pmem/items.c:453-483 | The pointer updates remove exactly that item, wherever it stands |
| LruQueue.Queue.LinkTail | memcached-pmem/items.c:1794-1813 | A crawler enters at the tail and is not counted |
| LruQueue.Queue.UnlinkTail | memcached-pmem/items.c:1815-1834 | A crawler leaves from anywhere; one already popped off the head, still pointing at the new head, leaves without damage |
| LruQueue.SwingChain | memcached-pmem/items.c:1868-1884 | The eight pointer updates exchange a node with its predecessor, at the ends as in the middle |
| LruQueue.Queue.PopCrawler | memcached-pmem/items.c:1845-1854 | A crawler at the head steps off the front; alone in the list it stays |
| LruQueue.Queue.Crawl | memcached-pmem/items.c:1838-1890 | A crawl step exchanges the crawler with its predecessor and returns that one, and at the head returns nothing |
| LruQueue.Queue.CrawlEnd | memcached-pmem/crawler.c:343-352 | After a crawl that has reached the head the list holds every node but the crawler in the order it had |
| Crawler.StepKeepsOrder | memcached-pmem/items.c:1856-1885 | A crawl step moves no item past another |
| Crawler.ReturnedOnce | memcached-pmem/items.c:1838-1890 | Over a whole crawl, whatever is linked and unlinked meanwhile, an item that is never unlinked is returned exactly once if the crawler has passed it and not at all before |
| Crawler.CompleteCrawl | memcached-pmem/items.c:1838-1890 | When the crawler reaches the head every item in the queue that was never unlinked has been returned exactly once |
| Crawler.StepsBounded | memcached-pmem/crawler.c:366-394 | A crawl takes no more steps than there were items at the start and items linked at the head since |
| Crawler.Turn | memcached-pmem/crawler.c:386-410 | One turn of the thread on a real list: the crawler moves on by one item, which is unlinked if it is dead and neither locked nor held, or is done exactly at the head or at the end of its quota |
| Crawler.CrawlQueue | memcached-pmem/crawler.c:519-550 | From start to finish on a real list: the dead among the items looked at are gone unless they were in use, and everything else is there in its order; the last item of a quota is not looked at |
| Pmem.UntouchedStays | memcached-pmem/pslab.h:17-24 | A byte on the medium that is not stored to stays, whatever is flushed and drained |
| Pmem.ValuesKnown | memcached-pmem/pslab.h:17-24 | A crash can leave in a byte only the value it had or one that was stored to it |
| Pmem.CommitClean | memcached-pmem/pslab.h:17-24 | Stores and flushes that leave no byte stored after its last flush, and a drain, put the written content on the medium |
| Pmem.CommitSolid | memcached-pmem/pslab.h:17-24 | Stores, flushes that cover them and a drain put the written content on the medium |
| PslabHeader.DoChecksum | memcached-pmem/pslab.c:116-124 | The loop computes the sum of the bytes modulo 256 |
| PslabHeader.ChecksumCancels | memcached-pmem/pslab.c:139-148 | The checksum that is stored makes the sum that is checked zero |
| PslabHeader.CrashInSlot | memcached-pmem/pslab.c:153-156 | A crash at any point while the slot not in use is written leaves the slot in use intact and current |
| PslabHeader.UpdateCrashSafe | memcached-pmem/pslab.c:150-160 | A crash at any operation of an update, with any subset of unflushed bytes written back, leaves a header whose valid byte names a slot with a correct checksum and the old or the new flush time |
| PslabHeader.UpdateCommits | memcached-pmem/pslab.c:150-160 | A complete update has the new flush time on the medium in a good header |
| PslabHeader.UpdatesCommit | memcached-pmem/pslab.c:150-160 | After any number of complete updates the medium has a good header with the last flush time |
| PslabHeader.FlushTimeSurvives | memcached-pmem/pslab.c:150-160 | After any number of complete updates and any part of one more, every crash image passes the check at open with the last complete flush time or the one being written |
| PslabHeader.CompleteGood | memcached-pmem/pslab.c:289-293 | The header that creation leaves passes the check at open |
| PslabHeader.CreateCrashSafe | memcached-pmem/pslab.c:317-372 | Creation over a pool not marked valid, by either slot: every crash image that is marked valid has the whole header and all frame headers |
| PslabHeader.CreateOverValidPool | memcached-pmem/pslab.c:339-370 | Over a pool that is marked valid, with valid byte 1 or 2, there is a crash that leaves it marked valid and incomplete |
| PslabHeader.CreateSafeIff | memcached-pmem/pslab.c:317-372 | At every crash point a pool marked valid is complete if and only if the pool was not marked valid before, that is if its valid byte was neither 1 nor 2 |
| PslabHeader.UnmarkedAcceptedIff | memcached-pmem/pslab.c:289-293 | The check at open accepts the image left by a crash just before the valid byte is set, whose valid byte is zero, if and only if the bytes of the header, the upper half of the start time counted twice, add up to zero |
| PslabHeader.UnmarkedAccepted | memcached-pmem/pslab.c:289-293 | For every content of the header there is a start time for which that happens |
| PslabHeader.Pool.UpdateFlushTime | memcached-pmem/pslab.c:150-160 | The statements issue exactly the stores, flushes and drains whose crashes are analysed |
| PmItems.StepKeeps | memcached-pmem/items.c:275-564 | Every step of every thread on persistent items (allocate, fill, flush, drain, set LINKED, insert, unlink, free, reuse) and every step of the memory keeps the invariant |
| PmItems.RunKeeps | memcached-pmem/items.c:275-564 | The invariant holds in every state of every interleaving |
| PmItems.LinkedItemsIntact | memcached-pmem/items.c:513-522 | In every crash image of every run, an item that is LINKED on the medium has on the medium the expiry, lengths, key, suffix and value it had when it was linked, and the CAS and chunked flags that say where they begin |
| PmItems.LinkedKeysDistinct | memcached-pmem/items.c:547-564 | In every crash image no two LINKED items have the same key |
| PmItems.CrashAgreesWithTable | memcached-pmem/items.c:510-564 | An item in the table that nobody is unlinking is LINKED in every crash image, and whatever is LINKED there is in the table or just being linked by the holder of its lock |
| PmItems.ReopenInit | memcached-pmem/pslab.c:173-268 | Any image without two LINKED items of one key is a start state from which everything above holds again |
| PmItems.CrashCanReopen | memcached-pmem/pslab.c:190-212 | Whatever a crash leaves, and whichever of its items are dropped as expired or flushed, the pool can go on from it |
| Recovery.WalkOne | memcached-pmem/pslab.c:185-212 | The first walk clears the LINKED flag of exactly the expired and flushed items, forgets the heads of all chunks, and marks the frames that have live and live chunked items |
| Recovery.Relink | memcached-pmem/pslab.c:224-237 | The walk along one chain gives each of its chunks the item as head and marks their frames, and touches nothing else |
| Recovery.WalkTwo | memcached-pmem/pslab.c:214-239 | After the second walk the chunks of live chunked items, and no others, have a head, the right one, and their frames are marked |
| Recovery.WalkThree | memcached-pmem/pslab.c:241-265 | The third walk rebuilds the table and the page and free lists of the marked frames; it stops exactly when a slot to be freed is still flagged as a chunked header |
| Recovery.Classify | memcached-pmem/pslab.c:190-239 | What the first two walks leave in a slot says whether it is live, a live chunk, or to be freed, in terms of the pool before recovery |
| Recovery.KeptFrames | memcached-pmem/pslab.c:245-246 | The frames kept are exactly those that had a live item or a live chunk |
| Recovery.Recover | memcached-pmem/pslab.c:173-268 | Recovery completes if and only if every unlinked chunked header in a frame that is kept is some live item's chunk; then the table is exactly the live items, the lists are as classified and every live chunk has its head |
| Recovery.SlotsDisjoint | memcached-pmem/pslab.c:254-264 | No slot is both an item and a chunk, and none of either is on a free list |
| Recovery.AccountedIff | memcached-pmem/pslab.c:208-210 | Every slot of every kept frame ends up live, a live chunk or free if and only if no expired item in a kept frame carries a hash-chain pointer where a chunk has its head |
| Recovery.LeakExample | memcached-pmem/pslab.c:259-260 | A pool in which recovery loses a slot: a live item and, in the same frame, an expired one with a hash-chain pointer on the medium; no table and no free list that recovery may leave has the slot |
| Recovery.StopExample | memcached-pmem/pslab.c:261-261 | A pool on which recovery stops: a live item and, in the same frame, the header of a chunked item that was being uploaded |
| Recovery.FramesPartitioned | memcached-pmem/pslab.c:242-249 | Every frame ends up in exactly one place, the list of one class or the pool of free pages, and once there |
| Recovery.Restart | memcached-pmem/memcached.c:7816-7822 | Recovery followed by the filling of the pool of free pages: when it completes, the live items are in the table and every frame is in exactly one place, and once there |
| Recovery.FreeFrames.GetFreeSlab | memcached-pmem/pslab.c:96-112 | Each call gives the next free frame after the one given before, skipping none, and nothing to a caller that is not where the walk stands |
| Recovery.FreeFrames.Prefill | memcached-pmem/slabs.c:213-221 | The pool receives every free frame exactly once |
| CrashRecovery.CrashWellFormed | memcached-pmem/items.c:513-522 | Every crash image of every run, read as frames, is one that recovery can work on: its live items have different keys and no chunks |
| CrashRecovery.TableAgrees | memcached-pmem/pslab.c:190-257 | The table that recovery builds is, slot for slot, the table of the LINKED items that have neither expired nor been flushed |
| CrashRecovery.RecoverCrash | memcached-pmem/pslab.c:173-268 | Recovery of what a crash of any run has left completes unless an unlinked header of a chunked item is in a frame with a live item; its table is then exactly the items that survive, and the next run can start from it |
| CrashRecovery.StepNoHeaders | memcached-pmem/items.c:275-564 | A step that writes no flags of a chunked item leaves none on the medium |
| CrashRecovery.RunNoHeaders | memcached-pmem/items.c:275-564 | In a run without chunked items no slot can have the flags of one after a crash |
| CrashRecovery.CrashCompletes | memcached-pmem/pslab.c:259-263 | After a crash of such a run recovery finds no header to stop at, and what the next run begins with is again without them |
| Extstore.StartOk | memcached-pmem/extstore.c:202-287 | Every configuration that passes the checks gives an engine that satisfies the invariant |
| Extstore.IoAvailable | memcached-pmem/extstore.c:403-408 | A buffer that has not been submitted always finds an IO object: the unchecked stack is never empty |
| Extstore.AppendFresh | memcached-pmem/extstore.c:490-499 | A new object takes a page, version and offset that no object, of whatever age, ever had |
| Extstore.TakeKeeps | memcached-pmem/extstore.c:319-341 | Taking a page from the free list keeps the invariant: versions are unique, lists and flags agree |
| Extstore.AttachKeeps | memcached-pmem/extstore.c:344-364 | Giving a page a buffer keeps the invariant |
| Extstore.SubmitKeeps | memcached-pmem/extstore.c:403-424 | Submitting a buffer keeps the invariant |
| Extstore.StoreKeeps | memcached-pmem/extstore.c:490-508 | Storing an object keeps the invariant and every other object |
| Extstore.DiskWriteKeeps | memcached-pmem/extstore.c:699-704 | Writing a buffer to the file, with no lock held, disturbs no object that can be read |
| Extstore.FlushKeeps | memcached-pmem/extstore.c:372-398 | When the written mark moves past a flushed buffer its objects are read from the file, the same bytes, and buffer and IO object go back once each |
| Extstore.FlushObject | memcached-pmem/extstore.c:372-387 | Every object of a flushed buffer reads the same from the file |
| Extstore.GiveKeeps | memcached-pmem/extstore.c:729-769 | Recycling a page that is not active and not being read keeps the invariant: handles into it miss from then on |
| Extstore.PinAt | memcached-pmem/extstore.c:675-695 | A page that is being read is not free and has the bytes being read in the file |
| Extstore.FromBuf | memcached-pmem/extstore.c:610-627 | The assertions on a read from the buffer hold, and the copy is the object |
| Extstore.FoundFull | memcached-pmem/extstore.c:451-462 | A writer that finds its page full leaves a bucket that satisfies the assertion of the allocation it makes next |
| Extstore.SecondWriterFails | memcached-pmem/extstore.c:320-320 | With a second writer on the bucket in between, that assertion fails: one writer per bucket is needed |
| Extstore.Engine.constructor | memcached-pmem/extstore.c:195-287 | A new engine has everything free except page 0, which is never handed out, and has stored nothing |
| Extstore.Engine.AllocatePage | memcached-pmem/extstore.c:319-341 | The head of the free list becomes the head of the bucket; there is none exactly when the free list is empty |
| Extstore.Engine.Pick | memcached-pmem/extstore.c:438-449 | The request goes to the head of the bucket, or to the first free page when the bucket has none; it fails at once exactly for a bucket that does not exist, or one without a page when there is no free page |
| Extstore.Engine.SubmitWbuf | memcached-pmem/extstore.c:403-424 | The buffer is on its way to the file and takes no more objects |
| Extstore.Engine.AllocateWbuf | memcached-pmem/extstore.c:344-364 | The page gets an empty buffer for the part of the page it reserves next, if there is a buffer |
| Extstore.Engine.Append | memcached-pmem/extstore.c:490-508 | The object is stored under a handle that was never used |
| Extstore.Engine.Fill | memcached-pmem/extstore.c:451-485 | An object is stored under a fresh handle, or nothing is; one that fits the open buffer always is, one larger than a buffer never is |
| Extstore.Engine.Reallocate | memcached-pmem/extstore.c:455-462 | On a full page a new page goes to the head of the bucket, if there is one, and nothing is lost |
| Extstore.Engine.DiskWrite | memcached-pmem/extstore.c:699-704 | The file has the buffer, zero-filled to its size, at its place |
| Extstore.Engine.WbufCallback | memcached-pmem/extstore.c:372-398 | The assertions of the callback hold; the page has no buffer, and is no longer active exactly when it is all written |
| Extstore.Engine.BeginRead | memcached-pmem/extstore.c:672-690 | A read misses exactly when the page has another version or is closed, is answered from the buffer with the object, or pins the page |
| Extstore.Engine.DiskRead | memcached-pmem/extstore.c:691-697 | The read of the file, with no lock held, gives the object that was stored |
| Extstore.Engine.EndRead | memcached-pmem/extstore.c:716-720 | The pin goes and nothing else |
| Extstore.Engine.Delete | memcached-pmem/extstore.c:544-577 | Only counters of a page that still has the version change, and not below zero |
| Extstore.Engine.ClosePage | memcached-pmem/extstore.c:592-602 | Exactly the page with that version is closed |
| Extstore.Engine.FreePage | memcached-pmem/extstore.c:729-769 | The page leaves its bucket, is reset and is the head of the free list; no other page changes |
| Extstore.Engine.Visit | memcached-pmem/extstore.c:804-826 | A page is freed exactly when it is full, empty of objects or closed, and not being read; the candidate is the oldest so far of the others |
| Extstore.Engine.Evict | memcached-pmem/extstore.c:828-845 | The candidate is closed, and freed unless it is being read |
| Extstore.Engine.Pass | memcached-pmem/extstore.c:798-845 | A pass frees every page that can be freed; it evicts exactly when there was no free page, none could be freed and there is a candidate, and then the oldest one |
| Extstore.NextKeeps | memcached-pmem/extstore.c:319-845 | Every critical section of every thread keeps the invariant |
| Extstore.RunKeeps | memcached-pmem/extstore.c:195-845 | From start-up, the invariant holds after every interleaving of writers, IO threads, readers and the maintenance thread; each engine carries the run that led to it |
| Extstore.RunObjects | memcached-pmem/extstore.c:490-508 | A handle stands for the same bytes for ever: no later store takes its place |
| Extstore.ReadsWhatWasStored | memcached-pmem/extstore.c:672-697 | The store refines a map: whatever happens between storing an object and reading it, the answer is that object, or a miss exactly when the page was closed or recycled |
| Extstore.PinnedReadSafe | memcached-pmem/extstore.c:674-720 | From taking up a read of the file to its end the page is not recycled and the bytes stay in place |
| Items.LinkedEverywhere | memcached-pmem/items.c:510-584 | For every item: the linked flag, being in the table under its key, and being in exactly one queue, once, the one it names, are the same; its count is its link plus the references held |
| Items.FreedExactly | memcached-pmem/items.c:586-594 | An item is freed in exactly two ways: its last reference is given back when it is not linked, or it is unlinked when nobody holds it |
| Items.NextKeeps | memcached-pmem/items.c:275-652 | Every operation on an item, and every move of a crawler, keeps table, flags, queues, their counts and bytes, and reference counts in agreement |
| Items.RunKeeps | memcached-pmem/items.c:275-652 | From an empty cache this agreement holds after every run |
| Items.LinkKeeps | memcached-pmem/items.c:510-545 | Linking keeps the agreement |
| Items.UnlinkKeeps | memcached-pmem/items.c:547-584 | Unlinking keeps the agreement, and the item is in its queue and counted when it starts |
| Items.RequeueKeeps | memcached-pmem/items.c:598-643 | Moving an item to the head of the queue its new fields name keeps the agreement |
| Items.ReleaseKeeps | memcached-pmem/items.c:586-594 | Giving a reference back keeps the agreement and frees the item exactly when it was the last and there is no link |
| Items.CrawlsKeeps | memcached-pmem/items.c:1794-1890 | A crawler that enters, moves or leaves disturbs none of it |
| Items.Cache.AllocItem | memcached-pmem/items.c:275-378 | A new item is held by its caller, not linked and in no queue |
| Items.Cache.LinkItem | memcached-pmem/items.c:510-545 | The item is in the table, at the head of its queue and counted, with one more reference, all at once |
| Items.Cache.UnlinkItem | memcached-pmem/items.c:547-584 | A linked item leaves the table, its queue and the counts, and is freed if only the link held it; an unlinked one is left alone |
| Items.Cache.RemoveItem | memcached-pmem/items.c:586-594 | The reference is gone; the item is freed exactly when it was the last and there is no link |
| Items.Cache.Update | memcached-pmem/items.c:616-643 | Nothing changes but queues, times and activity; an active cold item is at the head of the warm queue of its class |
| Items.Cache.UpdateNolock | memcached-pmem/items.c:598-613 | A linked item not touched for the interval is at the head of its queue; any other is left alone |
| Items.Cache.Replace | memcached-pmem/items.c:645-652 | The key leads to the new item, no other key changes, and the old item is freed exactly when nobody holds it |
| Items.Cache.Get | memcached-pmem/items.c:1020-1123 | A key is found exactly when the table has it and it is neither flushed nor expired; then the caller holds the item, otherwise the key is gone and no reference is left |
| Items.Cache.Hit | memcached-pmem/items.c:1086-1111 | The bump buffer takes a reference exactly for a cold item on its second hit when there is room, and no other reference changes |
| Items.Cache.Bumps | memcached-pmem/items.c:1393-1400 | Every entry gives back its reference; only items already unlinked can go away |
| Items.Cache.FromHotOrWarm | memcached-pmem/items.c:1217-1250 | Where the item goes: active to warm or back to the head, the others to cold when the queue is over its share or the item too old |
| Items.Cache.FromCold | memcached-pmem/items.c:1251-1287 | The walk stops: the item is evicted, handed to the caller, moved to warm when active, or left, exactly as the flags say |
| Items.Cache.Consider | memcached-pmem/items.c:1170-1293 | An overdue item leaves the table and the walk goes on; another one keeps its entry unless it is evicted from cold |
| Items.Cache.PullTail | memcached-pmem/items.c:1138-1311 | Only items past their time leave the table, and at most one more, evicted from cold; every reference is as before, except one on the item handed to a caller that asks for it |
| SlabMover.Slabs.constructor | memcached-pmem/slabs.c:120-164 | Without pages the invariant holds |
| SlabMover.Slabs.Start | memcached-pmem/slabs.c:836-886 | A move starts exactly from a class with two pages or more to a different existing class whose list has room, on its first page; the codes of refusal are the ones of the code, in its order of precedence |
| SlabMover.Slabs.RebalanceAlloc | memcached-pmem/slabs.c:889-924 | The first chunk of the free list that is outside the page, whenever there is one; free chunks of the page met on the way are cleared, nothing else changes |
| SlabMover.Slabs.Clear | memcached-pmem/slabs.c:928-937 | Exactly one free chunk of the page leaves the free list and is cleared |
| SlabMover.Slabs.AllocChunk | memcached-pmem/slabs.c:386-432 | The head of the free list becomes a blank item |
| SlabMover.Slabs.Visit | memcached-pmem/slabs.c:975-1100 | A visit, going by what each chunk is, leaves cleared chunks cleared, leaves an item without a place to go only when it is past its time or the free list has run out, and takes from the table only a busy item after more than 1000 rounds; every step it takes is recorded in the run |
| SlabMover.Slabs.Lock | memcached-pmem/slabs.c:1015-1020 | An item that nobody holds is locked for the chunk being visited, with one reference for the mover, and the chunk to copy it to leaves the free list in the same section |
| SlabMover.Slabs.Drop | memcached-pmem/slabs.c:1027-1037 | A busy item met in more than 1000 rounds leaves the table, and nothing else changes |
| SlabMover.Slabs.Complete | memcached-pmem/slabs.c:1101-1161 | Completing the move of a locked item leaves the value of every key as it was; given up, exactly its own key is gone |
| SlabMover.Slabs.CopyItem | memcached-pmem/slabs.c:1102-1134 | The copy is in the table with a new time and CAS, its chunks point to it, the old chunk is cleared, and every key has the value it had |
| SlabMover.Slabs.CopyPart | memcached-pmem/slabs.c:1135-1150 | A chunk in the middle of a chain is exchanged for its copy and cleared, and every key has the value it had |
| SlabMover.Slabs.GiveUp | memcached-pmem/slabs.c:1151-1160 | The item and all its chunks go back to the free lists of their classes; no other key changes |
| SlabMover.Slabs.Finish | memcached-pmem/slabs.c:1213-1266 | The page leaves the front of one list for the end of the other, divided into free chunks unless it goes to the pool, and every key has the value it had |
| SlabMover.Slabs.NewPage | memcached-pmem/slabs.c:288-321 | A new page is divided into free chunks of its class |
| SlabMover.Slabs.FreeItem | memcached-pmem/slabs.c:457-567 | An item that is not linked and that nobody refers to goes back to the free lists with all its chunks; what their flags then say is in SlabFlags |
| SlabMover.Slabs.AddChunk | memcached-pmem/items.c:236-273 | A free chunk joins the end of the chain of an item that is not linked |
| SlabMover.RescueItemKeeps | memcached-pmem/slabs.c:1102-1134 | Exchanging an item for its copy keeps pages, free lists, chains and table in agreement |
| SlabMover.RescueItemValue | memcached-pmem/slabs.c:1102-1134 | Exchanging an item for its copy leaves the value of every key as it was |
| SlabMover.RescuePartKeeps | memcached-pmem/slabs.c:1135-1150 | Exchanging a chunk for its copy keeps pages, free lists, chains and table in agreement |
| SlabMover.RescuePartValue | memcached-pmem/slabs.c:1135-1150 | Exchanging a chunk for its copy leaves the value of every key as it was |
| SlabMover.EvictKeeps | memcached-pmem/slabs.c:1151-1160 | Giving an item up keeps pages, free lists, chains and table in agreement |
| SlabMover.EvictValue | memcached-pmem/slabs.c:1151-1160 | Giving an item up leaves the value of every other key as it was |
| SlabMover.DoneMeansCleared | memcached-pmem/slabs.c:1194-1206 | When the mover says it is done, every chunk of the page is cleared: on no free list, linked under no key, held by nobody and part of no item |
| SlabMover.WorkerKeeps | memcached-pmem/slabs.c:386-567 | Whatever the other threads do between the sections of the mover keeps the invariant |
| SlabMover.MoverKeeps | memcached-pmem/slabs.c:836-1266 | Every section of the mover, the deletion of busy items included, keeps the invariant |
| SlabMover.MoverValues | memcached-pmem/slabs.c:962-1266 | After a section of the mover every key has the value it had, except that the key of an item it gives up, or of a busy item it deletes, has none |
| SlabMover.WorkerValues | memcached-pmem/slabs.c:386-567 | A step of another thread changes the value of no key but that of the item it is about |
| SlabMover.RunValues | memcached-pmem/slabs.c:836-1266 | In every interleaving from start-up a key keeps its value from any moment to any later one, unless a thread changes, links or unlinks its item in between or the mover takes it away |
| SlabMover.RunKeeps | memcached-pmem/slabs.c:836-1266 | From an empty slab allocator, the invariant holds after every interleaving of the mover with the other threads; each allocator carries the run that led to it |
| SlabMover.MoveIsSafe | memcached-pmem/slabs.c:1247-1250 | In every interleaving the page is completely clear when it changes hands: no key leads to it, nobody holds a chunk of it, and no item and no free list has one |
| SlabMover.LockKeeps | memcached-pmem/slabs.c:1013-1100 | Locking an item and taking the chunk to copy it to from the free list, in one section, keeps the invariant |
| SlabMover.MoverSparesHeld | memcached-pmem/slabs.c:1013-1058 | No section of the mover frees, moves, clears or changes an item that another thread holds, or a chunk of one; the same threads hold it afterwards |
| SlabMover.WorkerSparesHeld | memcached-pmem/slabs.c:386-567 | A step of another thread that is not about the references of a held item leaves it an item with its key, its data, its chunks and its holders |
| SlabMover.RunHeld | memcached-pmem/slabs.c:939-961 | In every interleaving, from the moment a thread holds an item until its references are changed, it stays an item with as many holders, its key and its data, and its chunks stay parts of it |
| SlabMover.Conserved | memcached-pmem/slabs.c:258-265 | At every moment the pages of a class times its chunks per page are its free, used and cleared chunks, and the free ones are its free list |
| SlabFlags.CleanLooksRight | memcached-pmem/slabs.c:975-1005 | When the flag bytes and head pointers of all chunks agree with what the chunks are, the test of the mover takes every chunk for what it is |
| SlabFlags.ActIsMeant | memcached-pmem/slabs.c:928-1206 | While every chunk looks like what it is, taking a chunk off its list and going on to the next are steps of SlabMover |
| SlabFlags.SeenIsThere | memcached-pmem/slabs.c:981-1056 | While every chunk looks like what it is, an item the mover finds is linked and holds the chunk being visited, a free chunk is on the list of its class, and a passed one is cleared |
| SlabFlags.CleanKeeps | memcached-pmem/slabs.c:386-567 | Every step keeps flags and pointers in agreement with the chunks and is a step of SlabMover, unless a build with persistent slabs frees an item with chunks |
| SlabFlags.FreeLeavesChunks | memcached-pmem/slabs.c:493-516 | With persistent slabs, freeing an item with chunks leaves each chunk on its free list with the flags and the head of a part, so the mover takes it for one |
| SlabFlags.RunClean | memcached-pmem/slabs.c:386-1266 | In every run of the code flags and pointers agree with the chunks up to the first item with chunks that is freed, and without persistent slabs always |
| SlabFlags.RunIsMeant | memcached-pmem/slabs.c:836-1266 | Up to that point the run of the code is a run of SlabMover, so that all that is proved of those runs holds of it |
| SlabFlags.LooksRightIff | memcached-pmem/slabs.c:981-1002 | The mover sees every chunk for what it is throughout a run if and only if the build is without persistent slabs or no item with chunks is freed in the run |
| SlabFlags.DoneIsSafe | memcached-pmem/slabs.c:1194-1206 | Under that condition a page that is done is clear: no key, no holder, no item and no free list has a chunk of it |
| SlabFlags.StaleMisread | memcached-pmem/slabs.c:982-1002 | A chunk left with the flag of a part is never seen for what it is, free or used again for a linked item |
| SlabFlags.ReuseStaysStale | memcached-pmem/slabs.c:408-418 | Allocation does not clear the flag, so an ordinary item made of such a chunk carries it |
| SlabFlags.StaleStays | memcached-pmem/slabs.c:928-1002 | Whatever the mover takes such a chunk for, taking something off a free list and going on leave that chunk uncleared and on its list |
| SlabFlags.StaleDone | memcached-pmem/slabs.c:1183-1199 | At the last chunk of a visit that met nothing busy, if the old head is free too, the mover is done with the page while a free list still has a chunk of it |
| SlabFlags.MoverLeavesChunk | memcached-pmem/slabs.c:457-518 | A run in a build with persistent slabs that ends so: a large item with one chunk is freed, and then the page of the chunk is moved |
| ChunkCopy.Chunked.AllocChunk | memcached-pmem/items.c:236-257 | The chain gets an empty chunk for what remains, capped at the largest; the value is the same; it fails exactly without memory |
| ChunkCopy.Chunked.SkipFull | memcached-pmem/memcached.c:2713-2720 | The search for room passes full chunks only and stops at the last one |
| ChunkCopy.Chunked.CopyFlat | memcached-pmem/memcached.c:2763-2791 | The bytes are appended to the value; it succeeds if and only if memory has the exact number of chunks needed |
| ChunkCopy.Chunked.CopyChain | memcached-pmem/memcached.c:2722-2762 | The same from another chain, whatever the sizes of its chunks |
| ChunkCopy.Chunked.Copy | memcached-pmem/memcached.c:2708-2793 | The same for either layout of the source |
| ChunkCopy.Combine | memcached-pmem/memcached.c:2795-2833 | Into a chunked item, append and prepend give the old value without its line break then the added one, or the other way round, whatever the layouts of the two; both succeed if and only if memory has exactly what the two copies need |
| ChunkCopy.CombineFlat | memcached-pmem/memcached.c:2803-2811 | Into an item in one piece the second copy overwrites the line break of the first; the bytes are those that lie where values in one piece would begin |
| ChunkCopy.LargeStays | memcached-pmem/items.c:294-313 | Adding to a chunked value always gives a chunked item |
| ChunkCopy.StrayIff | memcached-pmem/items.c:174-187 | There is a chunk limit at which the new item is in one piece while the added one is chunked if and only if the flags of the added item take more room than those of the new one and the old value together |
| ChunkCopy.StrayPlain | memcached-pmem/items.c:180-184 | With flags stored as a number that is: the old item has no flags and less than four bytes, and the added one has flags |
| ChunkCopy.StrayExample | memcached-pmem/memcached.c:2925-2928 | It happens at the default limit: 524228 bytes with flags appended to an empty value without |
| ChunkCopy.Extend | memcached-pmem/memcached.c:2894-2938 | Append and prepend over all layouts that sizes can produce: success exactly when the new size is allowed and memory suffices, and what the new item then holds |
| ChunkCopy.ExtendRightIff | memcached-pmem/memcached.c:2795-2833 | The new value is right, whatever else lies in memory, if and only if the new item is not in one piece next to a chunked added item, or nothing is prepended |
| ChunkCopy.NeededShift | memcached-pmem/memcached.c:2729-2758 | Filling a chunk bit by bit needs as many chunks as filling it at once |
| ChunkCopy.OneTooMany | memcached-pmem/memcached.c:2747-2754 | A value that k chunks can hold takes k + 1: the copy ends with an empty chunk, and fails without memory for it |
| IoVec.Conn.EnsureIovSpace | memcached-pmem/memcached.c:934-958 | Moving the vector points every message at the buffers it had |
| IoVec.Conn.AddMsghdr | memcached-pmem/memcached.c:299-339 | A new message adds nothing to the payload; on UDP it has room for the header |
| IoVec.Conn.AddIov | memcached-pmem/memcached.c:971-1033 | The payload of all messages together is what it was followed by the new bytes, none lost, doubled or reordered, and every message keeps its limits of size and of buffers |
| IoVec.Conn.BuildUdpHeaders | memcached-pmem/memcached.c:1052-1092 | Every datagram carries the request, its number and how many there are; the payload is the same |
| IoVec.NumberOf | memcached-pmem/memcached.c:1082-1083 | The number is read back from the header |
| IoVec.Datagram | memcached-pmem/memcached.c:1076-1089 | A datagram is its header, with its number, and its part of the payload |
| IoVec.AnyOrder | memcached-pmem/memcached.c:1076-1089 | However the datagrams are reordered or repeated on the way, their numbers give back the bytes that were added |
| IoVec.Sender.Transmit | memcached-pmem/memcached.c:5266-5322 | What was accepted is gone from the front of what is left to send, and nothing else; all is sent exactly when it says so |
| IoVec.Sender.constructor | memcached-pmem/memcached.c:971-1033 | A connection that has collected its output has everything left to send and nothing accepted |
| IoVec.Sender.Send | memcached-pmem/memcached.c:5266-5322 | Over any sequence of partial sends, what was accepted so far followed by what is left is the original output; when it says it is complete all of it was accepted |
| IoVec.Sender.Consume | memcached-pmem/memcached.c:5284-5297 | Whole buffers are dropped and the one cut in the middle continues at the next byte |
| IoVec.ReadyToSend | memcached-pmem/memcached.c:971-1033 | What has been collected is ready to be sent, all of it and in order |
| Jenkins.MixReversible | memcached-pmem/jenkins_hash.c:79-87 | The mix is a bijection on the three registers: it loses nothing |
| Jenkins.WordIs | memcached-pmem/jenkins_hash.c:164-181 | Masked 32-bit reads at the end add the word made of the key's bytes only, whatever follows the key |
| Jenkins.HalfIs | memcached-pmem/jenkins_hash.c:220-250 | 16-bit reads add the same word |
| Jenkins.ByteIs | memcached-pmem/jenkins_hash.c:275-292 | Single bytes add the same word |
| Jenkins.HashWords | memcached-pmem/jenkins_hash.c:137-204 | Reading by words computes the reference digest of the key |
| Jenkins.HashHalves | memcached-pmem/jenkins_hash.c:205-250 | Reading by half-words computes the same |
| Jenkins.HashBytes | memcached-pmem/jenkins_hash.c:252-293 | Reading by bytes computes the same |
| Jenkins.Hash | memcached-pmem/jenkins_hash.c:126-297 | The hash of a key depends on its bytes and length only, not on where it lies nor on what follows it |

## Left out

- Integer widths: counters, versions, times, offsets and sizes are unbounded naturals except in CRC, checksum, hash and
  datagram headers, so wrap-around of a version or of a reference count is not captured.
- Out of memory: modelled for hash expansion, free pages, chunks and write buffers; not for the message and buffer
  vectors, whose reallocation always succeeds here.
- Statistics, logging, settings, command parsing, the binary protocol, SASL, event handling and start-up options.
- LRU maintainer scheduling, slab automove and the storage compaction thread: policies built on the operations here.
- Items.Cache.PullTail: does not model tail repair, deletion of the external copy and the request for a page move.
- Items.Cache.Get: does not model deletion of the external copy; the clock and room in the bump buffer are parameters.
- Items.Cache.AllocItem: does not model the choice of the slab class and the retries that pull tails for memory.
- Items: pointers of queues and chains are sequences there; `LruQueue` has the pointers, for one queue.
- Assoc: a chain is a sequence, so the order of the two pointer updates inside one insert or delete is not captured.
- AssocLocks.RunKeeps: does not model the pausing protocol itself; an expansion starts when no worker holds a lock.
- Crawler.CrawlQueue: does not model the client buffer; `Crawler.ReturnedOnce` covers other threads changing the queue.
- Pmem: a crash may leave in each byte, independently, any value it has had since its last drained flush; the atomicity of
  aligned words that hardware adds is not used.
- PslabHeader.CreateSafeIff: claims nothing about opening a pool whose valid byte is neither 1 nor 2;
  `PslabHeader.UnmarkedAcceptedIff` covers zero at the last moment of creation, and values above 2, which make the check
  read past the two slots, are not modelled.
- PmItems.RunKeeps: does not model the content of chunked items, nor touch, increment and decrement in place.
- PmItems.CrashAgreesWithTable: does not claim the old or the new value of a key that is being replaced; replacing unlinks
  and then links, and a crash between the two leaves neither.
- Recovery.Recover: does not model the rebuilding of next and previous pointers of chunks, byte counters and queues; time
  and flush time are parameters, and chains on the medium are assumed to be finite and disjoint, as linking left them.
- Extstore.Engine.DiskWrite: does not model a failing or short read or write; the callback ignores its result.
- Extstore.RunKeeps: one writer per bucket, which `Extstore.SecondWriterFails` shows to be needed; IO threads may take
  requests in any order.
- Extstore.Engine.Delete: does not claim that the counters are exact; they may be cut off at zero.
- Extstore.Engine.Pass: states the effect of a pass that no other thread disturbs; with others in between, each visit and
  the eviction are separate steps of the runs.
- SlabMover.RunKeeps: does not model pages of persistent memory in a move, nor the return of pages to the system. Its
  runs go by what chunks are; `SlabFlags.RunIsMeant` says which runs of the code they are.
- SlabMover.Slabs.RebalanceAlloc: goes by what chunks are and not by their flags; `SlabFlags` has those, with the exact condition.
- SlabMover.Slabs.AllocChunk: goes by what chunks are and not by their flags; `SlabFlags` has those, with the exact condition.
- SlabMover.Slabs.Visit: goes by what chunks are and not by their flags; `SlabFlags` has those, with the exact condition.
- SlabMover.Slabs.GiveUp: goes by what chunks are and not by their flags; `SlabFlags` has those, with the exact condition.
- SlabMover.Slabs.FreeItem: goes by what chunks are and not by their flags; `SlabFlags` has those, with the exact condition.
- SlabMover.EvictKeeps: goes by what chunks are and not by their flags; `SlabFlags` has those, with the exact condition.
- SlabMover.DoneMeansCleared: goes by what chunks are and not by their flags; `SlabFlags` has those, with the exact condition.
- SlabMover.WorkerKeeps: goes by what chunks are and not by their flags; `SlabFlags` has those, with the exact condition.
- SlabMover.MoverKeeps: goes by what chunks are and not by their flags; `SlabFlags` has those, with the exact condition.
- SlabMover.MoverValues: goes by what chunks are and not by their flags; `SlabFlags` has those, with the exact condition.
- SlabMover.RunValues: goes by what chunks are and not by their flags; `SlabFlags` has those, with the exact condition.
- SlabMover.MoveIsSafe: goes by what chunks are and not by their flags; `SlabFlags` has those, with the exact condition.
- SlabMover.Conserved: goes by what chunks are and not by their flags; `SlabFlags` has those, with the exact condition.
- SlabFlags.ActIsMeant: after a stale pointer the model has the cut of a free chunk and the going on; what the code does
  when such a pointer leads nowhere or to a live item, or twice to one chunk, is not modelled, nor is the count of free
  chunks that is kept beside each list.
- CrashRecovery.RecoverCrash: items are in one piece, as in `PmItems`; every slot is in a frame that has its class.
- ChunkCopy.Extend: does not model the persistent form of the copies, which moves the same bytes, nor the CAS test and
  the link that follow.
- IoVec.Conn.AddIov: does not model the failure to enlarge the message list or the vector.
- IoVec.AnyOrder: for up to 65536 datagrams, which is what the header can number.
- Jenkins.Hash: does not model the big-endian form; memory is in whole words, so a masked read may look past the key.
- Murmur hash, the statistics by prefix, the item size histogram and the object cache are not part of this model.
