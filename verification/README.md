# The xv6 kernel and user allocators, verified

This project models the parts of xv6-riscv where correctness depends on several functions and several
threads together, and one list structure of the whu-oslab kernel, and proves what they promise. Where the
source runs concurrently the model is a state machine whose steps are the actions under each lock, and
the theorems hold in every run of it. Where the source works step by step on memory the model is a class
with the source's loops, proved against the state machine or against functions on values. A `panic` of
the source is a result of the method, and what is proved says exactly when it is reached, or that it is
not.

- **Write-ahead log** (`Log*.dfy`). The disk is a sequence of blocks and one block write is atomic. Any
  number of operations begin, write and end; commit and recovery advance one disk write at a time; a crash
  loses memory at any point, recovery included. The class in `LogCode` leaves exactly the disk images the
  state machine passes through.
  `LogAdmission` and `LogLife` say whom `begin_op` lets in and that commit and recovery end.
- **Buffer cache** (`BufCache*.dfy`). References, sleep locks, pins and recycling as a state machine over
  a plain block store; the linked LRU ring as code on `next` and `prev` arrays. `BufCacheOrder` proves
  least-recently-used over runs from the reference counts alone.
- **File system** (`Fs*.dfy`). The disk image is bytes: bitmap bits, 64-byte inodes, indirect blocks of
  32-bit words. A file is the byte sequence its inode maps. Every operation keeps one invariant: each data
  block in use sits in exactly one slot of one inode. `DiskLayout` gives the formats byte by byte.
- **Page tables and page allocator** (`Vm*.dfy`). Physical memory is a map from page numbers to 4096-byte
  pages. A three-level table in it stands for a map from virtual pages to entries; free pages are linked
  through their first words. This follows section 4.4 of the RISC-V Privileged Architecture, version
  20211203.
- **Processes** (`Proc*.dfy`). CPUs, process slots, `p->lock` and `wait_lock`; fork, exit, wait, kill,
  sleep, wakeup and the hand-off through `swtch`. `ProcLaws` says what each step does to each process,
  `ProcFamily` what follows for parents and children over runs, `ProcProgress` that the locks cannot deadlock.
- **Virtio queue** (`Virtio*.dfy`). Submitters, device and interrupt handler over the descriptor table and
  two rings with 16-bit indices. This follows sections 2.6 and 5.2 of VirtIO 1.1.
- **User allocator** (`Umalloc*.dfy`), **mapping area** (`Mmap*.dfy`: the linked list, and the two system
  calls with the pages they map) and the region lists they share (`FreeRegions.dfy`).
- **Pattern matcher of grep** (`Grep.dfy`).

Places where the code does less than it seems to, each with a run that shows it and the exact condition:

- `log_write` tests for a full log before it looks whether the block is already listed. So a write that
  would be absorbed can panic although the operation stays within its reservation.
  `LogReservation.AbsorbedWriteCanPanic` gives the run and `LogReservation.ReservationHolds` the
  condition.
- When copying from user memory fails in the middle of a block, `writei` releases a buffer that it has
  changed without `log_write`. If the file had that block before the transaction, the log does not have the
  change; if the block is new, `balloc` has logged it in the same transaction. `FsFormat.TornRun` and
  `FsFormat.CoveredRun` give a run of each kind. `FsIo.Writei` and `FsWrite.FileWrite` say when it happens, in
  terms of the call and the disk before it: a copy stops inside a block in the cases `Tears` and `FileTears`,
  and the block is missing from the log in the cases `Lost` and `FileLost`.
- `sys_mmap` takes any page-aligned address. For a range that is partly free it maps the pages and leaves
  the free list alone, and releasing that range then lists pages twice. `MmapCalls.OverlapRun` and
  `MmapCalls.DoubleGrant` give the run and `MmapCalls.MmapSoundIff` the condition. A plain second
  `sys_munmap` stops the machine instead, since the pages are no longer mapped.

## Model

| member | source | states |
|---|---|---|
| `LogTheorems.StepKeeps` | xv6-riscv/kernel/log.c:66-236 | Every step of every thread, every disk write of commit and recovery, and a crash at any point keep the log invariant |
| `LogTheorems.CrashAtomicity` | xv6-riscv/kernel/log.c:66-124 | In every run, whatever the disk holds when power fails, recovery from it yields the initial contents with the durable operations replayed in order; each operation is durable whole or not at all |
| `LogTheorems.RepeatedCrashes` | xv6-riscv/kernel/log.c:117-124 | After a crash anywhere and any number of further crashes during recovery, a completed recovery leaves the home blocks, on disk and in the cache, equal to what was durable at the first crash, and an empty log |
| `LogTheorems.CommitAllOrNothing` | xv6-riscv/kernel/log.c:179-204 | commit of n blocks cut off after k of its 2n+2 disk writes recovers to all-old contents when k <= n and to all-new contents otherwise: the first header write decides |
| `LogTheorems.GroupCommit` | xv6-riscv/kernel/log.c:127-176 | In every interleaving no operation is active while a commit runs, there is at most one committer, "log.committing" and "log_write outside of trans" are unreachable, and a sleeper in begin_op always has somebody left to wake it |
| `LogTheorems.DirtyIsPinned` | xv6-riscv/kernel/log.c:206-236 | A cached block that differs from the disk is pinned, and pinned exactly once; outside recovery no block is listed twice |
| `LogTheorems.RunKeeps` | xv6-riscv/kernel/log.c:66-236 | The log invariant holds in every state of every run, crashes included |
| `LogTheorems.RecoveryKeepsDurable` | xv6-riscv/kernel/log.c:117-124 | No amount of crashing and recovering adds to or takes from the history of operations |
| `LogTheorems.QuietIsDurable` | xv6-riscv/kernel/log.c:146-176 | When no operation is active and no commit runs, everything written since the last crash is durable, on disk and in the cache |
| `LogReservation.ReservationHolds` | xv6-riscv/kernel/log.c:127-143 | If each operation logs at most MAXOPBLOCKS distinct blocks, listed blocks plus unused reservations never exceed LOGBLOCKS; log_write panics if and only if the log is full, and then the block is already listed and no reservation is left |
| `LogReservation.AbsorbedWriteCanPanic` | xv6-riscv/kernel/log.c:220-229 | A concrete run in which rewriting a block that is already listed panics, because the capacity test comes before the search |
| `LogReservation.DisciplinedRun` | xv6-riscv/kernel/log.c:127-143 | The reservation invariant holds along every run whose operations keep to MAXOPBLOCKS blocks |
| `LogAdmission.AdmissionExact` | xv6-riscv/kernel/log.c:127-143 | In every run begin_op lets an operation in if and only if no commit runs and the log has room for MAXOPBLOCKS further blocks of it and of each active operation, whichever they log |
| `LogAdmission.RefusalExact` | xv6-riscv/kernel/log.c:127-143 | Outside a commit it puts its caller to sleep if and only if such operations could take the list past LOGBLOCKS |
| `LogAdmission.NobodySleepsWithRoom` | xv6-riscv/kernel/log.c:146-176 | No wakeup is lost: while somebody sleeps in begin_op a commit runs or there is no room |
| `LogAdmission.NeverStuck` | xv6-riscv/kernel/log.c:117-204 | A committer, and recovery, can always take their next disk write |
| `LogAdmission.LogWriteLists` | xv6-riscv/kernel/log.c:215-236 | After log_write the list has that block and those it had, each once |
| `LogLife.ActiveLaw` | xv6-riscv/kernel/log.c:127-176 | An operation is active from the begin_op that lets it in until its own end_op or a crash |
| `LogLife.WriteLaw` | xv6-riscv/kernel/log.c:215-236 | log_write shows in the cache at once, is listed, and does not touch the disk |
| `LogLife.EndLaw` | xv6-riscv/kernel/log.c:146-176 | The last end_op, and no other, starts a commit; the others wake those who wait for room |
| `LogLife.CommitFinishes` | xv6-riscv/kernel/log.c:195-204 | From any point of a commit its remaining steps, at most 2n+3 for n blocks, end it with everything durable, the list empty and all sleepers awake |
| `LogLife.RecoveryFinishes` | xv6-riscv/kernel/log.c:117-124 | Recovery, if not interrupted, ends after at most LOGBLOCKS + 2 steps with an empty log |
| `LogFormat.HeadRoundTrip` | xv6-riscv/kernel/log.c:87-115 | Reading the header block back after write_head has laid a list over it yields exactly that list and its count |
| `LogProtocol.ReplayConcat` | xv6-riscv/kernel/log.c:215-236 | Replaying one stretch of logged writes after another is replaying both together |
| `LogInvariant.WriteHeadCommits` | xv6-riscv/kernel/log.c:100-115 | The header write turns a disk that means the old contents into one that means the new contents |
| `LogInvariant.ReinstallKeeps` | xv6-riscv/kernel/log.c:66-84 | Installing a block again during recovery changes nothing of what the disk means, so recovery can be repeated |
| `LogCode.Log.BeginOp` | xv6-riscv/kernel/log.c:127-143 | One pass of the loop: enters exactly when no commit runs and the list, with MAXOPBLOCKS more blocks for each outstanding operation and for this one, stays within LOGBLOCKS |
| `LogCode.Log.EndOp` | xv6-riscv/kernel/log.c:147-165 | First critical section: panics exactly when a commit is under way; the last operation out becomes the committer |
| `LogCode.Log.LogWriteBlock` | xv6-riscv/kernel/log.c:215-236 | Panics exactly for a full list or outside an operation; otherwise the block is listed once and pinned when it is new |
| `LogCode.Log.WriteHeader` | xv6-riscv/kernel/log.c:103-115 | The loop over the words writes the encoded list over the old header block, in one disk write |
| `LogCode.Log.ReadHeader` | xv6-riscv/kernel/log.c:87-98 | The loop over the words reads exactly the encoded list |
| `LogCode.Log.CopyToLog` | xv6-riscv/kernel/log.c:179-192 | The loop passes through the images of the protocol's log-writing steps, in order |
| `LogCode.Log.InstallTrans` | xv6-riscv/kernel/log.c:66-84 | The loop passes through the images of the protocol's install steps; blocks are unpinned only when not recovering |
| `LogCode.Log.Commit` | xv6-riscv/kernel/log.c:194-204 | The sequence of disk images commit leaves behind is exactly the protocol's, and so is its final state |
| `LogCode.Log.EndCommit` | xv6-riscv/kernel/log.c:167-175 | Second critical section of end_op: committing is lowered and nothing else changes, so sleepers in begin_op can enter |
| `LogCode.Log.RecoverFromLog` | xv6-riscv/kernel/log.c:117-124 | The sequence of disk images recovery leaves behind, and its final state, are the protocol's |
| `LogCode.TraceIsRun` | xv6-riscv/kernel/log.c:194-204 | After k disk writes of commit a run of the protocol is at the k-th image of the code, so the theorems speak of the code |
| `LogCode.CommitImagesRecover` | xv6-riscv/kernel/log.c:194-204 | Every image of commit means the old contents before the header write and the new contents from then on |
| `LogCode.RecoverImagesRecover` | xv6-riscv/kernel/log.c:117-124 | Every image of recovery means the same contents; at the end they are on the home blocks and the log is empty |
| `LogCode.Log.Bwrite` | xv6-riscv/kernel/bio.c:106-112 | One disk write, one new image: disk and cache agree on that block, all others are as before |
| `LogCode.Log.InstallBlock` | xv6-riscv/kernel/log.c:71-83 | One turn of the loop is the protocol's install or reinstall step, with one disk write |
| `LogCode.Log.ClearHeader` | xv6-riscv/kernel/log.c:201-202 | The empty header is written in one disk write |
| `BufCacheProofs.StepKeeps` | xv6-riscv/kernel/bio.c:55-151 | Every step of every thread using the cache keeps its invariant |
| `BufCacheProofs.CacheIsBlockStore` | xv6-riscv/kernel/bio.c:36-151 | In every interleaving where a changed buffer is pinned or written before release: all NBUF buffers stay on the list once each, no block of a device numbered at least 1 is cached twice, two threads never hold one buffer, and a holder sees the contents last stored; an uncached block has them on disk |
| `BufCacheProofs.IdleIsClean` | xv6-riscv/kernel/bio.c:75-87 | A buffer that bget may recycle is unlocked, unpinned and holds nothing the disk does not |
| `BufCacheProofs.DropNeverUnderflows` | xv6-riscv/kernel/bio.c:114-137 | The count brelse decrements is positive |
| `BufCacheProofs.MoveToFrontPermutes` | xv6-riscv/kernel/bio.c:126-134 | Moving a buffer to the front keeps every buffer on the list exactly once |
| `BufCacheProofs.RunKeeps` | xv6-riscv/kernel/bio.c:36-151 | The cache invariant holds in every state of every run |
| `BufCacheProofs.VictimIsLast` | xv6-riscv/kernel/bio.c:75-87 | Behind the buffer that is recycled every buffer on the list is in use |
| `BufCacheOrder.RecyclesOldest` | xv6-riscv/kernel/bio.c:55-137 | Least recently used, over every run: for a block that is not cached bget takes, of the buffers without references, the one whose count fell to zero longest ago |
| `BufCacheOrder.ListInOrder` | xv6-riscv/kernel/bio.c:114-137 | In every run the list is in the order in which the buffers last fell idle |
| `BufCacheOrder.BufferOfBlock` | xv6-riscv/kernel/bio.c:55-137 | bget gives the buffer of the block asked for, and until brelse it stays that block's buffer |
| `BufCacheOrder.StageLaw` | xv6-riscv/kernel/bio.c:55-137 | How a reference waits, holds the sleep lock and goes, step by step, in every run |
| `BufCacheOrder.BufferLaw` | xv6-riscv/kernel/bio.c:91-153 | What every step does to the count, the data, the validity and the lock of every buffer |
| `BufCacheOrder.DiskLaw` | xv6-riscv/kernel/bio.c:105-112 | The disk changes only where bwrite writes the buffer its caller holds |
| `BufCacheCode.InsertRing` | xv6-riscv/kernel/bio.c:130-133 | The four link writes put a buffer first in a well-linked ring |
| `BufCacheCode.UnlinkRing` | xv6-riscv/kernel/bio.c:128-129 | The two link writes take a buffer out of a well-linked ring |
| `BufCacheCode.Cache.constructor` | xv6-riscv/kernel/bio.c:36-53 | The loop of binit links all NBUF buffers, unused, into one ring, the last one first |
| `BufCacheCode.Cache.FindBlock` | xv6-riscv/kernel/bio.c:65-73 | The forward walk finds the buffer of a block if and only if the block is cached |
| `BufCacheCode.Cache.FindUnused` | xv6-riscv/kernel/bio.c:75-87 | The backward walk finds a buffer without references behind which every buffer on the list is in use; none if and only if all are |
| `BufCacheCode.Cache.Bget` | xv6-riscv/kernel/bio.c:55-89 | A cached block gets one more reference; another one gets the last buffer on the list without references; no buffer if and only if the block is not cached and all are in use. The ring is unchanged |
| `BufCacheCode.Cache.Brelse` | xv6-riscv/kernel/bio.c:114-137 | The count drops by one; at zero the buffer is first on the list and the others keep their order |
| `BufCacheCode.Cache.Bpin` | xv6-riscv/kernel/bio.c:139-144 | One more reference, nothing else |
| `BufCacheCode.Cache.Bunpin` | xv6-riscv/kernel/bio.c:146-151 | One reference fewer, nothing else |
| `BufCacheCode.Cache.InsertFront` | xv6-riscv/kernel/bio.c:130-133 | The ring is the old one with the buffer first |
| `BufCacheCode.Cache.Unlink` | xv6-riscv/kernel/bio.c:128-129 | The ring is the old one without the buffer |
| `DiskLayout.WordBytes` | xv6-riscv/kernel/log.c:35-38 | 32-bit integers on disk are four bytes, the lowest first |
| `DiskLayout.HeaderPlace` | xv6-riscv/kernel/log.c:35-38 | The log header: the count, then the block numbers; log blocks follow it in order |
| `DiskLayout.ByteBits` | xv6-riscv/kernel/fs.c:75-79 | The bits of a free map byte, the lowest first |
| `DiskLayout.BitPlace` | xv6-riscv/kernel/fs.h:47-51 | Where the bit of a block is: 8192 a map block, eight a byte |
| `DiskLayout.InodePlace` | xv6-riscv/kernel/fs.h:31-45 | Where an inode is, and where each of its fields is in its 64 bytes |
| `DiskLayout.BlockPlace` | xv6-riscv/kernel/fs.c:405-444 | Twelve direct blocks, then those the indirect block lists |
| `DiskLayout.BytePlace` | xv6-riscv/kernel/fs.c:505-509 | Byte o of a file is byte o mod 1024 of its block o / 1024 |
| `FsSession.Ownership` | xv6-riscv/kernel/fs.c:66-106 | A data block's bit is set exactly when some slot (direct, indirect, or the indirect block itself) points to it, and then one slot does |
| `FsSession.Session` | xv6-riscv/kernel/fs.c:199-562 | Any run of creating, writing, reading, truncating and dropping keeps that, and never reaches "freeing free block" |
| `FsSession.Serve` | xv6-riscv/kernel/fs.c:199-562 | One call of any kind keeps the image sound and does not panic |
| `FsImage.AllocKeeps` | xv6-riscv/kernel/fs.c:66-89 | Taking a free block keeps the image sound, with the block waiting to be linked |
| `FsImage.LinkedKeeps` | xv6-riscv/kernel/fs.c:405-444 | Linking a waiting block into an empty slot keeps the image sound |
| `FsImage.UnlinkedKeeps` | xv6-riscv/kernel/fs.c:448-476 | Emptying a slot and clearing the bit of its block keeps the image sound; the block was in use and in that slot |
| `FsLayout.BitSetBit` | xv6-riscv/kernel/fs.c:66-106 | Setting or clearing a block's bit changes the bit of that block and of no other |
| `FsLayout.InodeRoundTrip` | xv6-riscv/kernel/fs.h:31-39 | Decoding an encoded on-disk inode gives it back |
| `FsLayout.DinodeSetDinode` | xv6-riscv/kernel/fs.c:226-242 | Writing an inode into its block changes that inode and no other |
| `FsLayout.BitOfWithBit` | xv6-riscv/kernel/fs.c:76-78 | Setting or clearing a bit of a byte leaves its other bits |
| `FsBytes.PatchByte` | xv6-riscv/kernel/fs.c:528-562 | A chunk written into a mapped block is seen in that file at those offsets, and nowhere else in any file |
| `FsBytes.UpdateSyncs` | xv6-riscv/kernel/fs.c:226-242 | After iupdate of the one inode that differed, disk and memory agree on every inode |
| `FsCode.FileSystem.Bfree` | xv6-riscv/kernel/fs.c:92-106 | Panics exactly when the bit is clear; otherwise clears that bit |
| `FsCode.FileSystem.ScanMap` | xv6-riscv/kernel/fs.c:75-83 | The inner loop finds the first clear bit of one map block, bounded by the disk size |
| `FsCode.FileSystem.Mark` | xv6-riscv/kernel/fs.c:78-79 | Sets the bit and logs the map block |
| `FsCode.FileSystem.Allocate` | xv6-riscv/kernel/fs.c:66-89 | balloc in a sound image: the block belonged to nobody, no file or inode changes, and failure means the disk is full |
| `FsCode.FileSystem.LinkAddr` | xv6-riscv/kernel/fs.c:411-429 | Storing the address in the inode gives the waiting block its one slot and changes no byte of any file |
| `FsCode.FileSystem.LinkEntry` | xv6-riscv/kernel/fs.c:430-438 | Storing the address in the indirect block gives the waiting block its one slot and changes no byte of any file |
| `FsCode.FileSystem.BmapDirect` | xv6-riscv/kernel/fs.c:411-419 | Direct case of bmap |
| `FsCode.FileSystem.Indirect` | xv6-riscv/kernel/fs.c:423-429 | Finds the indirect block or links a zeroed one, which maps nothing yet |
| `FsCode.FileSystem.BmapIndirect` | xv6-riscv/kernel/fs.c:422-441 | Indirect case of bmap |
| `FsCode.FileSystem.Entry` | xv6-riscv/kernel/fs.c:430-440 | Finds the entry or links a zeroed block; logs the indirect block only in the second case |
| `FsCode.FileSystem.Balloc` | xv6-riscv/kernel/fs.c:66-89 | Returns the lowest free block, marked and zeroed; or 0, with nothing changed, when every bit is set |
| `FsCode.FileSystem.Bmap` | xv6-riscv/kernel/fs.c:405-444 | A mapped block is returned and nothing changes; otherwise a zeroed block is linked in, the indirect block too if missing, and exactly that many free blocks are taken; 0 only when the disk is full; every other file keeps its blocks. A block it takes is logged; of the blocks already in use it logs only the indirect block, and it changes nothing it does not log; panics exactly beyond the largest file |
| `FsNeed.FreeCount` | xv6-riscv/kernel/fs.c:66-106 | The clear bits and the blocks that belong to slots together make up the data blocks, so the free map counts what is left |
| `FsNeed.SpendCost` | xv6-riscv/kernel/fs.c:405-444 | Mapping the next block of a file takes as many free blocks as the need of the write grows by, counted on the image before the write |
| `FsNeed.NeedSplit` | xv6-riscv/kernel/file.c:155-172 | What a second write needs where it starts is what it adds to the need of both together, a shared block or indirect block counted once |
| `FsIo.Iupdate` | xv6-riscv/kernel/fs.c:226-242 | The inode in memory is on disk, every other block and file is as before |
| `FsIo.CopyIn` | xv6-riscv/kernel/fs.c:543-550 | One chunk lands at its offset in the file and nowhere else; the block is logged exactly if the whole chunk was copied, and a faulting copy leaves its readable part in the block |
| `FsIo.WriteStep` | xv6-riscv/kernel/fs.c:540-550 | One turn of the loop: bmap and the copy, with its three outcomes, the blocks it may log, and those it must |
| `FsIo.FinishWrite` | xv6-riscv/kernel/fs.c:553-559 | The new size is the larger of the old one and the end of the write, and is on disk |
| `FsIo.WriteLoop` | xv6-riscv/kernel/fs.c:539-551 | Where the loop ends, in terms of the image before it: complete exactly if source and free blocks suffice, inside a block exactly if the source gives out there. The log has every completed block; it has the block of a failed copy exactly if it had it before or the block is new; nothing else changed outside it |
| `FsIo.Writei` | xv6-riscv/kernel/fs.c:528-562 | -1 exactly for the three rejected ranges. Otherwise the bytes are spliced into the file at off, the size grows as needed, every other file and inode is unchanged. It is complete if and only if the source is readable and the clear bits cover what the write needs. Its copy stops inside a block if and only if the source gives out strictly inside one and the clear bits reach that far. Every block of counted bytes is logged, and every block that changed is, but for the block of such a copy; that one is missing from the log if and only if the file had it before the call and this transaction had not logged it earlier |
| `FsIo.TornIs` | xv6-riscv/kernel/fs.c:541-549 | The block a copy fails in is in the log exactly if it was before, or if bmap had to allocate it |
| `FsRead.WriteTwice` | xv6-riscv/kernel/file.c:155-172 | Two consecutive writes are one write of both |
| `FsRead.ReadLoop` | xv6-riscv/kernel/fs.c:505-517 | The loop gathers exactly the range asked for |
| `FsRead.ReadChunk` | xv6-riscv/kernel/fs.c:506-516 | One chunk is that slice of the file's contents |
| `FsRead.Readi` | xv6-riscv/kernel/fs.c:494-519 | Returns exactly the slice of the file's contents, cut at its size, and changes nothing; if the destination takes less, -1, and what it takes is a prefix of the slice |
| `FsRead.WriteThenRead` | xv6-riscv/kernel/fs.c:494-562 | A write of the code that fits, followed by a read of the same range, returns the bytes written |
| `FsWrite.TransactionFits` | xv6-riscv/kernel/file.c:149-165 | One chunk of filewrite, at any offset and alignment and with any number of free map blocks, logs at most MAXOPBLOCKS distinct blocks |
| `FsWrite.WriteChunk` | xv6-riscv/kernel/file.c:160-165 | One transaction: writei at the file position, which moves by the count written; complete, short or torn exactly as writei; at most MAXOPBLOCKS blocks logged. The log has all that changed, but for the block a copy failed in if and only if the file had that block before |
| `FsWrite.FileWrite` | xv6-riscv/kernel/file.c:148-173 | The chunk loop writes as one big writei would, each chunk within MAXOPBLOCKS blocks; -1 unless all was written. On the image before the call: it gets through if and only if position, size, source and free blocks allow; a copy stops inside a block if and only if the source gives out inside a block and inside a chunk that is accepted and has room; and that block is missing from the log of its transaction if and only if the file had it before the call or got it in an earlier chunk |
| `FsWrite.SameRoom` | xv6-riscv/kernel/file.c:155-172 | There is room for a chunk where it starts if and only if there was room for all up to its end |
| `FsWrite.ShortFits` | xv6-riscv/kernel/file.c:167-173 | A chunk that stops short means filewrite could not have got through |
| `FsWrite.ShortTears` | xv6-riscv/kernel/file.c:167-173 | A chunk that stops short is torn if and only if filewrite as a whole is |
| `FsWrite.LostSame` | xv6-riscv/kernel/file.c:155-172 | Whether a torn block was the file's before its chunk, told from the image before the whole call |
| `FsWrite.ChunkIsLargest` | xv6-riscv/kernel/file.c:149-154 | With one block more in a chunk, a write can log more than MAXOPBLOCKS blocks |
| `FsTrunc.FreeDirect` | xv6-riscv/kernel/fs.c:455-460 | The first loop frees the direct blocks without panic, and logs the free map blocks of those it frees |
| `FsTrunc.FreeEntries` | xv6-riscv/kernel/fs.c:463-468 | The second loop frees every block the indirect block lists, without panic, and logs their free map blocks |
| `FsTrunc.Itrunc` | xv6-riscv/kernel/fs.c:448-476 | Never panics; the inode is empty, exactly its own blocks have their bits cleared, and every other inode and file is unchanged; it logs exactly the free map blocks of these and the inode's block |
| `FsTrunc.Iput` | xv6-riscv/kernel/fs.c:337-363 | The last reference to a loaded inode without links frees the inode and exactly its blocks, and logs what itrunc does; otherwise only the count drops |
| `FsTrunc.Ialloc` | xv6-riscv/kernel/fs.c:199-220 | The first free inode after number 0 gets the type and no contents, and its block is logged; 0 exactly when there is none; no file changes |
| `FsTrunc.FreeIndirect` | xv6-riscv/kernel/fs.c:462-472 | The listed blocks and the indirect block itself are freed without panic, and their free map blocks logged |
| `FsTrunc.FreePointer` | xv6-riscv/kernel/fs.c:456-459 | One direct pointer: its block is freed without panic and the free map block logged |
| `FsTrunc.TruncationFits` | xv6-riscv/kernel/fs.c:448-476 | What a truncation logs is one more than the free map blocks of the file, so it is at most MAXOPBLOCKS if and only if those are fewer; a disk with few free map blocks always allows it |
| `FsTrunc.CloseInode` | xv6-riscv/kernel/file.c:78-82 | The transaction that drops a reference logs more than MAXOPBLOCKS blocks if and only if it frees the file and the file's free map blocks are that many |
| `FsFormat.FormattedSound` | xv6-riscv/kernel/fs.h:8-25 | A disk with the metadata marked in use and every inode free satisfies the invariant, with every data block free |
| `FsFormat.TornRun` | xv6-riscv/kernel/fs.c:543-549 | A run from a formatted disk in which a transaction calls writei, which returns 0; the file reads differently afterwards and the transaction has not logged its block |
| `FsFormat.CoveredRun` | xv6-riscv/kernel/fs.c:541-549 | The same write to an empty file is torn as well, but its block is new and is in the log |
| `FsLog.FileLogFits` | xv6-riscv/kernel/param.h:9-9 | A transaction of filewrite, and the freeing of a file that fits, log at most MAXOPBLOCKS blocks |
| `FsLog.FilesDisciplined` | xv6-riscv/kernel/file.c:149-172 | Runs of the log in which each operation writes what some such transaction logs keep the discipline that begin_op's reservation needs |
| `FsLog.FilesHaveRoom` | xv6-riscv/kernel/log.c:127-143 | In every interleaving of these transactions, crashes included, the log has room for what is reserved, and log_write panics if and only if the log is full, for a block listed already |
| `VmPages.IndexInjective` | xv6-riscv/kernel/riscv.h:371-374 | The three table indices determine the virtual page |
| `VmPages.EntrySetEntry` | xv6-riscv/kernel/riscv.h:358-369 | Writing an entry changes that entry of the table and no other |
| `VmPages.PteParts` | xv6-riscv/kernel/riscv.h:358-369 | Page number and flags come back out of an entry made of them |
| `VmPages.IndexSplit` | xv6-riscv/kernel/riscv.h:371-380 | The indices are the base-512 digits of the page number, and below MAXVA the top one is under 256 |
| `VmPages.PteFields` | xv6-riscv/kernel/riscv.h:365-369 | The bits of an entry: the page number from bit 10 on, the flags below |
| `VmPages.EntryPlace` | xv6-riscv/kernel/riscv.h:371-374 | Entry i of a table is the eight bytes at 8i, the lowest first |
| `VmTree.LeafWriteOk` | xv6-riscv/kernel/vm.c:145-174 | Writing one lowest-level entry changes the map at that page only and keeps the tree |
| `VmTree.AddMidOk` | xv6-riscv/kernel/vm.c:104-111 | A zeroed page hung into the root keeps the tree and maps nothing new |
| `VmTree.AddLowOk` | xv6-riscv/kernel/vm.c:104-111 | A zeroed page hung into a middle table keeps the tree and maps nothing new |
| `VmTree.LeafRead` | xv6-riscv/kernel/vm.c:97-115 | The lowest-level entry read from memory is what the map says of that page |
| `VmTree.SameTree` | xv6-riscv/kernel/vm.c:97-115 | Memory outside the tables has no say in what a tree maps |
| `VmCode.Vm.constructor` | xv6-riscv/kernel/kalloc.c:26-40 | freerange puts every page on the free list, whatever memory held |
| `VmCode.Vm.Kalloc` | xv6-riscv/kernel/kalloc.c:65-82 | Takes the first free page, filled with junk; 0 exactly when the list is empty |
| `VmCode.Vm.Kfree` | xv6-riscv/kernel/kalloc.c:42-63 | Panics exactly for an address that is no whole page of the allocator's; otherwise the page is first on the list, filled with ones |
| `VmCode.Vm.Walk` | xv6-riscv/kernel/vm.c:97-115 | Finds the lowest-level table of a page, making the tables above it on request; the map from pages to entries does not change, and failure means memory has run out |
| `VmCode.InsertedAt` | xv6-riscv/kernel/vm.c:145-174 | A range insert maps exactly the pages of the range, to consecutive physical pages, and leaves the others |
| `VmCode.Vm.Descend` | xv6-riscv/kernel/vm.c:103-113 | One turn of walk's loop goes one level down, or stops where there is no table and none may be made |
| `VmCode.Vm.WritePte` | xv6-riscv/kernel/vm.c:167-167 | The map changes at that page only, and memory in that table only |
| `VmMap.MapPages` | xv6-riscv/kernel/vm.c:145-174 | Acts as a range insert: all of it on success, a prefix when memory runs out; panics exactly for a range not of whole pages, or on reaching a page already mapped or too high |
| `VmMap.UvmUnmap` | xv6-riscv/kernel/vm.c:192-212 | Acts as a range delete, holes allowed; with do_free exactly the pages that were mapped are freed, once each; panics exactly when misaligned or too high |
| `VmMap.MapOne` | xv6-riscv/kernel/vm.c:163-167 | One turn of the loop; panics exactly for a page too high or mapped |
| `VmMap.UnmapOne` | xv6-riscv/kernel/vm.c:202-210 | One turn of the loop; a hole is passed over |
| `VmMap.MapRange` | xv6-riscv/kernel/vm.c:160-173 | The loop of mappages: the pages before the one it stops at are mapped, in order, and nothing else |
| `VmFree.FreeWalk` | xv6-riscv/kernel/vm.c:262-278 | Frees every table page of the subtree and touches nothing else; "freewalk: leaf" is reached exactly when some page is still mapped below |
| `VmSpace.UvmDealloc` | xv6-riscv/kernel/vm.c:246-258 | Unmaps and frees exactly the pages between the two rounded sizes |
| `VmSpace.RollBack` | xv6-riscv/kernel/vm.c:228-236 | Undoing a part-way growth restores the mappings, and no page is lost |
| `VmSpace.UvmAlloc` | xv6-riscv/kernel/vm.c:216-240 | Success maps zeroed pages that were free, and then the range was unmapped and below MAXVA; failure restores the mappings it began with, and can happen only with fewer than three free pages per page asked; it panics only over a page mapped already or too high; free pages, tables and new pages are together constant and apart |
| `VmSpace.GrowOne` | xv6-riscv/kernel/vm.c:226-238 | One page more, or nothing kept but tables; panics exactly if memory is left and the page is mapped or too high |
| `VmSpace.PageCount` | xv6-riscv/kernel/riscv.h:355-355 | The least number of pages that hold sz bytes |
| `VmProcess.UvmCreate` | xv6-riscv/kernel/vm.c:178-187 | An empty table on a page that was free, or 0 exactly when there is none |
| `VmProcess.UvmFree` | xv6-riscv/kernel/vm.c:282-288 | All user pages below the size and all tables are free again; panics exactly when something is mapped above the rounded size |
| `VmProcess.ProcPagetable` | xv6-riscv/kernel/proc.c:176-206 | Maps the trampoline and the trap frame and nothing else, on pages that were free; on failure every page taken is free again; no page in use changes |
| `VmProcess.ProcFreePagetable` | xv6-riscv/kernel/proc.c:210-216 | Frees user memory and tables but not the trampoline and trap frame pages; panics exactly when other mappings lie above the size; no other page changes |
| `VmCopy.UvmCopy` | xv6-riscv/kernel/vm.c:296-324 | Success gives the child the same bytes, flags and holes on pages of its own; failure restores the child; the parent is untouched and no page is lost |
| `VmCopy.UndoCopy` | xv6-riscv/kernel/vm.c:321-323 | Undoing a part-way copy restores the child's mappings and leaves the parent alone |
| `VmUser.WalkAddr` | xv6-riscv/kernel/vm.c:120-138 | The physical page exactly of a page mapped for the user |
| `VmUser.VmFault` | xv6-riscv/kernel/vm.c:452-486 | A zeroed page for an unmapped page below the size; user memory looks the same, and no page is lost |
| `VmUser.CopyOut` | xv6-riscv/kernel/vm.c:342-375 | The bytes appear at the address, all other user bytes are unchanged; mappings are kept, and pages are added only as vmfault does; every page written is open to the user for writing; a failure names the page that stopped it |
| `VmUser.CopyIn` | xv6-riscv/kernel/vm.c:380-403 | Returns what the user sees at the address, from pages open to the user; user memory looks the same after, and mappings are kept |
| `VmUser.CopyOutSeen` | xv6-riscv/kernel/vm.c:342-403 | What copyout wrote is what a later copyin finds, and bytes elsewhere are the old ones |
| `VmUser.UserOwned` | xv6-riscv/kernel/vm.c:192-212 | User memory in the state these keep it in satisfies what uvmunmap needs to free it |
| `VmUser.Resolve` | xv6-riscv/kernel/vm.c:353-358 | walkaddr, then vmfault: a page the user sees as before, or the reason there is none |
| `VmUser.CopyOutPage` | xv6-riscv/kernel/vm.c:349-372 | One turn of copyout's loop; read-only pages are refused |
| `VmUser.UserApart` | xv6-riscv/kernel/vm.c:216-240 | User pages, free pages and tables are apart |
| `ProcTheorems.NoMissedZombie` | xv6-riscv/kernel/proc.c:308-415 | Whenever wait_lock is free, no process asleep in kwait has a ZOMBIE child, children handed to init included |
| `ProcTheorems.ReapedOnce` | xv6-riscv/kernel/proc.c:370-402 | Each exited process is reaped at most once, and only after it exited |
| `ProcTheorems.HandOff` | xv6-riscv/kernel/proc.c:424-501 | Whenever p->lock is free, p is RUNNING exactly when some CPU has it as its process, and then exactly one has |
| `ProcTheorems.SchedChecks` | xv6-riscv/kernel/proc.c:472-490 | The thread at swtch holds its own lock and no other and is not RUNNING, and the scheduler it switches to holds that same lock until it releases it: sched's panics about locks and state are unreachable |
| `ProcTheorems.ReapsOnlyGone` | xv6-riscv/kernel/proc.c:382-402 | freeproc in kwait runs only on a child that no CPU runs and no scheduler has still to release |
| `ProcTheorems.RunKeeps` | xv6-riscv/kernel/proc.c:109-611 | The invariant holds in every state of every run |
| `ProcTheorems.StepKeeps` | xv6-riscv/kernel/proc.c:109-611 | Every step of every CPU, under the lock that protects it, with preemption wherever no lock is held and wakeups from any CPU, keeps the invariant of processes, CPUs and locks |
| `ProcFamily.RunFamily` | xv6-riscv/kernel/proc.c:260-415 | In every run kwait's flag says whether it has come across a child, an exiting process has no child left in the slots it has seen to, and kfork's child has no parent before kfork gives it one and its maker after |
| `ProcFamily.KwaitDecides` | xv6-riscv/kernel/proc.c:405-413 | At the end of the table kwait returns -1 if and only if its caller is killed or no slot has it as parent; otherwise it goes on to sleep |
| `ProcFamily.KwaitReaps` | xv6-riscv/kernel/proc.c:381-403 | Inside the table it returns at the first zombie child, which is freed and reported unless the status cannot be copied out |
| `ProcFamily.KwaitSleeps` | xv6-riscv/kernel/proc.c:411-413 | From there it goes to sleep on its own slot |
| `ProcFamily.KwaitWakes` | xv6-riscv/kernel/proc.c:378-413 | It stays asleep until somebody wakes or kills it, and then looks again from the start |
| `ProcFamily.ParentAlive` | xv6-riscv/kernel/proc.c:310-365 | Every parent is a live process: exit leaves no child behind, and a slot used again starts without children; every process that has started, but for init, has a parent |
| `ProcFamily.HandedOver` | xv6-riscv/kernel/proc.c:310-321 | Whatever else goes on during reparent, each child of the exiting process ends up with init |
| `ProcFamily.ForkMeans` | xv6-riscv/kernel/proc.c:297-307 | When kfork returns, its child is runnable and its caller is the child's parent |
| `ProcFamily.StaysChild` | xv6-riscv/kernel/proc.c:297-321 | The child stays its maker's until that process exits or reaps it |
| `ProcFamily.KillMeans` | xv6-riscv/kernel/proc.c:592-611 | kkill marks its target and leaves it awake; the mark stays until the process is freed |
| `ProcFamily.SleepMeans` | xv6-riscv/kernel/proc.c:543-570 | sleep: the process is SLEEPING on the channel it named |
| `ProcFamily.SleepLasts` | xv6-riscv/kernel/proc.c:543-590 | It sleeps until wakeup on its channel or kkill, and not longer |
| `ProcFamily.Preempted` | xv6-riscv/kernel/proc.c:494-501 | A thread that yields goes on at the point where it was |
| `ProcProgress.UnheldGoesOn` | xv6-riscv/kernel/proc.c:260-611 | A thread can go on unless another CPU holds the one lock it needs next |
| `ProcProgress.HolderGoesOn` | xv6-riscv/kernel/proc.c:425-490 | Whoever holds a p->lock can go on: nothing is waited for under it |
| `ProcProgress.WaiterGoesOn` | xv6-riscv/kernel/proc.c:327-413 | Whoever holds wait_lock can go on, or waits for a p->lock whose holder can |
| `ProcProgress.NoDeadlock` | xv6-riscv/kernel/proc.c:260-611 | In every state of every run in which a CPU is not idle some CPU can go on |
| `ProcProgress.UserCalls` | xv6-riscv/kernel/proc.c:327-570 | In user space a thread can yield and sleep at any time, and exit and wait whenever wait_lock is free |
| `ProcLaws.StepLaws` | xv6-riscv/kernel/proc.c:146-611 | For every step and every process: exactly which steps change its state, its channel, its parent, its mark, its number and where its thread is, and to what |
| `ProcLaws.TallyLaw` | xv6-riscv/kernel/proc.c:125-410 | New numbers are given by allocproc alone, exits counted by kexit alone, and children reaped by kwait alone |
| `ProcProofs.ZombieWaits` | xv6-riscv/kernel/proc.c:348-361 | Turning ZOMBIE under wait_lock after the wakeup leaves no parent asleep with a zombie child, and no scan that has already passed the child by |
| `ProcProofs.SleepLockWaits` | xv6-riscv/kernel/proc.c:411-413 | Going to sleep after a full scan without a zombie, with p->lock taken before wait_lock is dropped, leaves no zombie child behind: the wakeup cannot be lost |
| `ProcProofs.ZombieKeeps` | xv6-riscv/kernel/proc.c:356-361 | Turning ZOMBIE keeps the invariant |
| `ProcProofs.WakeParentKeeps` | xv6-riscv/kernel/proc.c:573-587 | One step of exit's wakeup of the parent keeps it |
| `ProcProofs.ReparentKeeps` | xv6-riscv/kernel/proc.c:310-321 | Handing a child to init keeps it |
| `ProcProofs.ScanKeeps` | xv6-riscv/kernel/proc.c:382-404 | One step of kwait's scan, with reaping and a failing copyout, keeps it |
| `ProcProofs.ZombieGone` | xv6-riscv/kernel/proc.c:388-396 | A zombie whose lock is free has switched away for good: no CPU runs it |
| `ProcProofs.KillKeeps` | xv6-riscv/kernel/proc.c:592-611 | Killing, which may wake a sleeper, keeps it |
| `ProcSched.DispatchKeeps` | xv6-riscv/kernel/proc.c:442-449 | The scheduler's choice of a process keeps the invariant |
| `ProcSched.SwitchOutKeeps` | xv6-riscv/kernel/proc.c:472-490 | The switch to the scheduler keeps it |
| `ProcSched.ReleaseKeeps` | xv6-riscv/kernel/proc.c:453-456 | The scheduler's release of the lock the thread took keeps it |
| `ProcSched.ForkAllocKeeps` | xv6-riscv/kernel/proc.c:109-150 | Taking an unused slot with a new pid keeps it |
| `VirtioTheorems.StepKeeps` | xv6-riscv/kernel/virtio_disk.c:156-327 | Every step of submitters, device and handler keeps the invariant of the queue |
| `VirtioTheorems.DescriptorOwnership` | xv6-riscv/kernel/virtio_disk.c:156-213 | At every moment a descriptor is free, blank and without buffer, or in the chain of exactly one request, which has three distinct ones |
| `VirtioTheorems.RingsNeverOverwritten` | xv6-riscv/kernel/virtio_disk.c:271-277 | At most two entries of either ring are pending, and the slot about to be written is never one of them, through any number of 16-bit wrap-arounds |
| `VirtioTheorems.ExactlyOnce` | xv6-riscv/kernel/virtio_disk.c:215-327 | Each request is completed and reported at most once, and its caller returns only after exactly one of each |
| `VirtioTheorems.FreeNeverPanics` | xv6-riscv/kernel/virtio_disk.c:168-197 | free_chain walks the request's own three descriptors, none of them free: "free_desc 1" and "free_desc 2" are unreachable |
| `VirtioTheorems.InterruptPanicsOnlyOnError` | xv6-riscv/kernel/virtio_disk.c:312-324 | The handler stops exactly on a nonzero status, and always finds the buffer of a waiting request |
| `VirtioTheorems.CompletionMeans` | xv6-riscv/kernel/virtio_disk.c:235-265 | What the device reads from the chain is the command submitted: a write stores the buffer, a read fills it, nothing else moves |
| `VirtioTheorems.BufferHeld` | xv6-riscv/kernel/virtio_disk.c:252-289 | From submission to return the buffer holds the data submitted, or for a completed read the data brought |
| `VirtioTheorems.RunKeeps` | xv6-riscv/kernel/virtio_disk.c:156-327 | The invariant holds in every state of every run |
| `VirtioTheorems.DeviceCanServe` | xv6-riscv/kernel/virtio_disk.c:235-265 | Every chain the device has taken is whole, and open to the device in the direction the command needs |
| `VirtioProofs.Windows` | xv6-riscv/kernel/virtio_disk.c:271-277 | At most two requests are under way, so at most two ring entries are pending |
| `VirtioProofs.TransferMeans` | xv6-riscv/kernel/virtio_disk.c:235-265 | Following a formatted chain through memory, the device moves the submitted data, sets the status and reports the chain |
| `VirtioCode.Disk.AllocDesc` | xv6-riscv/kernel/virtio_disk.c:155-166 | The lowest free descriptor, or -1 when none is free |
| `VirtioCode.Disk.FreeDesc` | xv6-riscv/kernel/virtio_disk.c:168-182 | Panics exactly for a number out of range or a free descriptor; otherwise blanks and frees it |
| `VirtioCode.Disk.Alloc3Desc` | xv6-riscv/kernel/virtio_disk.c:199-213 | Succeeds exactly when three are free, with the three lowest; a failure leaves all as free as before, and at most blanks some that are free |
| `VirtioCode.Disk.Submit` | xv6-riscv/kernel/virtio_disk.c:226-277 | The state the machine's three submission steps give, or the old one with some free descriptors blanked |
| `VirtioCode.Disk.Finish` | xv6-riscv/kernel/virtio_disk.c:288-289 | The end of a request is the machine's step, without panic |
| `VirtioCode.Disk.Interrupt` | xv6-riscv/kernel/virtio_disk.c:294-327 | The loop takes everything reported, one machine step at a time, and panics exactly where the machine stops |
| `VirtioCode.PublishedIsSteps` | xv6-riscv/kernel/virtio_disk.c:226-277 | The code's submission is the machine's Submit, WriteRing and Bump in a row |
| `VirtioCode.HandledIsStep` | xv6-riscv/kernel/virtio_disk.c:312-324 | What the handler does is what one machine step leaves for it to do next |
| `VirtioCode.Disk.Fill` | xv6-riscv/kernel/virtio_disk.c:235-277 | Formatting, recording and publishing give the published state, field by field |
| `VirtioCode.Disk.FreeChain` | xv6-riscv/kernel/virtio_disk.c:184-197 | Frees exactly the three descriptors of a chain; panics exactly when one of them is free |
| `VirtioCode.RefusedIsNothing` | xv6-riscv/kernel/virtio_disk.c:199-213 | In a reachable state a submission that is refused changes nothing: the descriptors it blanks are blank |
| `VirtioCode.FreeFromCounts` | xv6-riscv/kernel/virtio_disk.c:199-213 | The free descriptors, counted |
| `FreeRegions.CanonicalUnique` | whu-oslab-lab/kernel/mem/uvm.c:215-263 | A list that is sorted, disjoint, without empty regions and fully joined is determined by what it covers |
| `FreeRegions.MappedMeans` | whu-oslab-lab/kernel/mem/uvm.c:165-201 | Mapping takes exactly the range out of the free addresses if one region holds it, changes nothing otherwise, and keeps the list canonical |
| `FreeRegions.ReleasedMeans` | whu-oslab-lab/kernel/mem/uvm.c:224-263 | Releasing a range apart from the list adds exactly its addresses and keeps the list canonical |
| `FreeRegions.ReleaseCanonicalIff` | whu-oslab-lab/kernel/mem/uvm.c:224-263 | A release keeps the list canonical if and only if it overlaps no free region |
| `FreeRegions.MapThenRelease` | whu-oslab-lab/kernel/mem/uvm.c:153-263 | Mapping a range inside one region and releasing it restores the identical list; the same holds of malloc and free |
| `FreeRegions.ReleaseThenMap` | whu-oslab-lab/kernel/mem/uvm.c:153-263 | Releasing a range apart from the list and mapping it restores the identical list |
| `Umalloc.RingIncreases` | xv6-riscv/user/umalloc.c:24-44 | Addresses increase along the cycle with a single wrap, and no two free blocks touch |
| `Umalloc.TakePartition` | xv6-riscv/user/umalloc.c:75-84 | Taking units off a free block keeps free and live blocks apart and together all that sbrk gave |
| `Umalloc.GivePartition` | xv6-riscv/user/umalloc.c:33-42 | Releasing a live block keeps free and live blocks apart and together all that sbrk gave |
| `Umalloc.FreeRing` | xv6-riscv/user/umalloc.c:33-42 | The pointer writes of free leave one cycle, in each of the four ways of joining |
| `Umalloc.FreeRegionsAre` | xv6-riscv/user/umalloc.c:33-42 | The blocks on that cycle are the old ones with the new one joined in |
| `Umalloc.ReleasedForm` | xv6-riscv/user/umalloc.c:33-42 | Joining on both sides is releasing in the region lists |
| `Umalloc.TakenForm` | xv6-riscv/user/umalloc.c:75-84 | Cutting the end off a block is mapping in the region lists |
| `Umalloc.GrowPartition` | xv6-riscv/user/umalloc.c:54-58 | Fresh units from sbrk are apart from all there was |
| `UmallocCode.Heap.FindPlace` | xv6-riscv/user/umalloc.c:30-32 | The search round the cycle ends at the block after which bp belongs, from wherever freep points |
| `UmallocCode.Heap.Free` | xv6-riscv/user/umalloc.c:24-44 | The free blocks become the old ones with the block inserted in order and joined on both sides where it touches |
| `UmallocCode.Heap.Scan` | xv6-riscv/user/umalloc.c:74-88 | The walk ends after one round; it finds a block exactly when one is large enough, the first one after freep |
| `UmallocCode.Heap.Morecore` | xv6-riscv/user/umalloc.c:46-61 | Fails exactly when sbrk does and then changes nothing; otherwise the new units are free and a block fits the request |
| `UmallocCode.Heap.Malloc` | xv6-riscv/user/umalloc.c:63-90 | A block turns live, at the end of a free block, that holds the bytes asked for behind its header and not one unit more than needed; fails exactly when no block is that large and sbrk fails; calls morecore at most once |
| `UmallocCode.Heap.UserWrite` | xv6-riscv/user/umalloc.c:33-42 | A program's writes inside its live blocks disturb nothing |
| `UmallocCode.Heap.Begin` | xv6-riscv/user/umalloc.c:70-73 | The first call sets up the empty cycle |
| `UmallocCode.Heap.Join` | xv6-riscv/user/umalloc.c:33-42 | Both joins, decided and written in the source's order |
| `UmallocCode.Heap.Take` | xv6-riscv/user/umalloc.c:75-84 | The tail of the block, or all of it, turns live; freep is left at its predecessor |
| `UmallocCode.Heap.Grow` | xv6-riscv/user/umalloc.c:54-58 | The units of sbrk become one live block, ready to be freed |
| `UmallocCode.UnitsFor` | xv6-riscv/user/umalloc.c:69-69 | A block for nbytes has one unit for its header and the least number of units that hold them |
| `MmapList.RegionList.constructor` | whu-oslab-lab/kernel/mem/mmap.c:22-36 | All nodes but the reserved one are in the pool, linked |
| `MmapList.RegionList.RegionAlloc` | whu-oslab-lab/kernel/mem/mmap.c:41-63 | Takes the first pooled node, cleared; panics exactly when the pool is empty |
| `MmapList.RegionList.RegionFree` | whu-oslab-lab/kernel/mem/mmap.c:66-81 | The node is first in the pool |
| `MmapList.RegionList.JoinAt` | whu-oslab-lab/kernel/mem/uvm.c:35-50 | Two neighbours become one exactly when they touch, and the second node goes back to the pool |
| `MmapList.RegionList.Carve` | whu-oslab-lab/kernel/mem/uvm.c:172-197 | The four cases of taking a range out of a region; a panic exactly for a split with an empty pool |
| `MmapList.RegionList.Halve` | whu-oslab-lab/kernel/mem/uvm.c:187-196 | The split case: one region becomes two, with one node from the pool |
| `MmapList.RegionList.Find` | whu-oslab-lab/kernel/mem/uvm.c:165-201 | The loop stops at the first region that holds the range, if any |
| `MmapList.RegionList.FindPlace` | whu-oslab-lab/kernel/mem/uvm.c:230-242 | The loop stops at the place in address order |
| `MmapList.RegionList.InsertNew` | whu-oslab-lab/kernel/mem/uvm.c:223-242 | A node from the pool is linked in at that place |
| `MmapList.RegionList.Mmap` | whu-oslab-lab/kernel/mem/uvm.c:153-201 | On any linked list: it becomes the mapped list in each of the four cases; nodes are conserved; panics exactly for a misaligned address, or a split with an empty pool |
| `MmapList.RegionList.Munmap` | whu-oslab-lab/kernel/mem/uvm.c:215-263 | On any linked list and for any range: it becomes the released list, and a canonical list stays canonical if and only if the range was apart from it; nodes are conserved; panics exactly for a misaligned address or an empty pool |
| `MmapList.BytesExact` | whu-oslab-lab/kernel/mem/uvm.c:159-159 | The 32-bit product of a page count and the page size is exact if and only if the count is below 2^20 |
| `MmapList.ReleasedSmall` | whu-oslab-lab/kernel/mem/uvm.c:244-263 | After a release every region is below 2^20 pages if and only if the range and the neighbours it is joined with are together |
| `MmapCalls.MmapSoundIff` | whu-oslab-lab/kernel/mem/uvm.c:153-212 | Mapping a range leaves the list in order and free of mapped pages if and only if one region held the whole range or none had any of it |
| `MmapCalls.MunmapSound` | whu-oslab-lab/kernel/mem/uvm.c:215-267 | Releasing mapped pages always does, and no page is lost between the list and the page table |
| `MmapCalls.ChosenHeld` | whu-oslab-lab/kernel/syscall/sysfunc.c:77-92 | A range at the address sys_mmap chooses itself lies in one region |
| `MmapCalls.PagesOf` | whu-oslab-lab/kernel/syscall/sysfunc.c:66-75 | The system calls hand uvm_mmap and uvm_munmap fewer than 2^20 pages |
| `MmapCalls.Area.Search` | whu-oslab-lab/kernel/syscall/sysfunc.c:79-87 | The loop finds the first region that is large enough, as ChosenFirst describes it |
| `MmapCalls.Area.SysMmap` | whu-oslab-lab/kernel/syscall/sysfunc.c:60-103 | Which calls it turns down, and the list and the mapped pages after. With no address given it returns the address of the first region that has the pages; -1 if and only if none has, or that one begins at 0. A sound list stays sound exactly in the cases above, so always where the kernel chooses; panics exactly for a split with an empty pool, too little memory or a range beyond VA_MAX |
| `MmapCalls.Area.SysMunmap` | whu-oslab-lab/kernel/syscall/sysfunc.c:109-129 | Panics exactly for an empty pool or when a page of the range is not mapped, so releasing twice stops the machine; otherwise list and mapped pages are as released, and a sound list stays sound; every region stays below 2^20 pages if and only if the one the range ends up in does |
| `MmapCalls.Area.MapAll` | whu-oslab-lab/kernel/mem/uvm.c:203-211 | All pages of the range are mapped; panics exactly when the memory for the pages themselves runs out or the range goes beyond VA_MAX |
| `MmapCalls.Area.UnmapAll` | whu-oslab-lab/kernel/mem/kvm.c:124-157 | All pages of the range are unmapped; panics exactly when one was not mapped |
| `MmapCalls.OverlapRun` | whu-oslab-lab/kernel/syscall/sysfunc.c:60-129 | Four system calls of a new process put one page on the free list twice |
| `MmapCalls.DoubleGrant` | whu-oslab-lab/kernel/syscall/sysfunc.c:60-103 | After them two calls of sys_mmap that leave the address to the kernel get ranges that share a page |
| `MmapCalls.CallKeeps` | whu-oslab-lab/kernel/syscall/sysfunc.c:60-129 | A call that returns keeps the list sound and within a window of pages, if a range asked for by address lies there and is free as a whole or not at all |
| `MmapCalls.KeptSmall` | whu-oslab-lab/kernel/mem/uvm.c:244-263 | In a window of fewer than 2^20 pages no region becomes too large for its 32-bit byte count |
| `MmapCalls.Serve` | whu-oslab-lab/kernel/syscall/sysfunc.c:60-129 | One system call, as a function of list and mapped pages |
| `MmapCalls.Session` | whu-oslab-lab/kernel/syscall/sysfunc.c:60-129 | Every run of such calls: the list stays sound, no region becomes too large, and no node is lost |
| `MmapCalls.ChosenFirst` | whu-oslab-lab/kernel/syscall/sysfunc.c:77-92 | With no address given the choice is the start of the first region that has the pages; there is none if and only if no region has, or that one begins at 0 |
| `Grep.StarAccepts` | xv6-riscv/user/grep.c:98-106 | A starred character accepts exactly the texts where a run of it is followed by the rest of the pattern |
| `Grep.OneAccepts` | xv6-riscv/user/grep.c:93-95 | A single character accepts exactly the texts that start with it and go on with the rest |
| `Grep.MatchHere` | xv6-riscv/user/grep.c:84-96 | True exactly when a prefix of the text, the whole text if the pattern ends in a bare $, is in the pattern's language |
| `Grep.MatchStar` | xv6-riscv/user/grep.c:98-106 | True exactly when some run of the character is followed by a match; the loop ends |
| `Grep.Match` | xv6-riscv/user/grep.c:72-82 | True exactly when the pattern accepts at some start of the text, only the first if it begins with ^ |
| `Grep.DollarAccepts` | xv6-riscv/user/grep.c:91-92 | A bare $ accepts exactly the empty text |
| `Grep.EmptyAccepts` | xv6-riscv/user/grep.c:87-88 | The empty pattern accepts every text |

## Left out

- FsTrunc.Ialloc: the in-memory inode that iget returns is taken to be loaded at once.
- LogCode.Log.ReadHeader: a header block that does not describe a list within the log is not modelled; the source trusts it too.
- LogCode.Log.RecoverFromLog: the same holds of the header recovery starts from.
- FsFormat.FormattedSound: mkfs is not part of this model; the formatted disk here has no root directory yet.
- LogTheorems.CrashAtomicity: changing a buffer and the log_write that follows are one step; the buffer's sleep lock is not part of this machine.
- BufCacheProofs.CacheIsBlockStore: a run ends where bget would panic for want of a buffer.
- VmCode.Vm.Kfree: freeing a page that is free already is ruled out by a precondition; the source does not detect it.
- VmUser.VmFault: the source maps into the current process's table; the model takes it to be the table passed in.
- VmProcess.ProcPagetable: the bound on free pages under which it can fail is not tight.
- UmallocCode.Heap.Morecore: the same limit on a request as for malloc.
- UmallocCode.Heap.Malloc: requests whose byte count does not fit sbrk's int argument are excluded, and sbrk is taken to return addresses above all earlier ones.
- MmapList.RegionList.Mmap: a page count of 2^20 or more, which the system calls never pass, and a list with a region that large, are ruled out by preconditions; MmapList.ReleasedSmall says when a release makes one.
- MmapList.RegionList.Munmap: the same preconditions.
- MmapCalls.Area.MapAll: the pages that vm_getpte takes for page tables are not counted, so the code can run out of memory earlier than stated.
- MmapCalls.Area.SysMunmap: the same preconditions; MmapCalls.Session gives a condition on callers under which they hold in every run.
- FsTrunc.CloseInode: the reference count and lock of the open file itself are not modelled; unlink and open with truncation, which free a file and do more in the same transaction, are not part of this model.
- MmapCalls.Area.SysMmap: the page table is the set of mapped pages and memory a count; frames that a new mapping replaces are not followed.
- MmapList.RegionList.JoinAt: mmap_merge's branch that keeps the second node has no caller.
- LogAdmission.AdmissionExact: the room counts MAXOPBLOCKS further blocks for each active operation, as the source does, also for one that has logged some of its blocks already; so begin_op can refuse where the operations' own limits would have left room.
- LogLife.CommitFinishes: that the scheduler lets the committer take these steps is not claimed; the same holds of the other laws on going on.
- VirtioCode.Disk.Submit: a request names its block; the sector, twice the block number in 32 bits, is not modelled.
- VirtioTheorems.ExactlyOnce: the device writes a used entry and its index in one step; that the device completes every request in the end is not claimed.
- ProcTheorems.SchedChecks: sched's test that interrupts are off is not modelled; the count of nested locks is, as the set of locks held.
- ProcTheorems.NoMissedZombie: closing files in kexit and copying memory in kfork are not steps of this machine; sleeping on channels other than a process is one kind of step, taken where no lock of this machine is held.
- The file system code is modelled one call at a time; two calls on different inodes meet only through the log and the buffer cache, which are modelled with all their interleavings.
- In-memory inode references (iget, idup, ilock), directories, path names, pipes, the console and the system calls.
- Interrupt masking in push_off and pop_off, and the spin in acquire: a lock is taken in one step.
- copyinstr, uvmclear, kexec, kernel page tables and the TLB.
- Fences and weak memory: steps are sequentially consistent.
- The register set-up of the virtio device, boot, traps and drivers.
- The oslab-main kernel, a near copy of xv6-riscv, and the rest of whu-oslab-lab.
