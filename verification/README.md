# LCHFS: the hard parts, modelled and proved

LCHFS is a log-structured, content-addressed filesystem. This project models the state machines its engine
rests on and proves what they promise, over every input, every interleaving and every crash. Where a promise
turns out to hold only under a condition, the condition is stated exactly and a concrete run or input shows
what happens without it.

`dafny verify dfyconfig.toml` checks everything.

## What is modelled

**Reclamation** (`Reclaim*.dfy`). Writers, shard writers, the checkpoint, the coalescing daemon and the
duplicate scanner of one device share segments, a location cache, pin counts and seal generations. Each step
is one lock hold or atomic operation and all actors interleave freely. The five orderings the design relies on
are switches: pin before lookup, stamp before seal, two checkpoints of grace, an atomic (or pins-first) gate,
and no duplicate scan across a pass. Safety means that everything the published root or an uncheckpointed
write references keeps a copy in an existing segment, and that the cache never names a deleted one.
`SafeIffSound` proves that every run is safe **if and only if** all the switches are on; each "only if" half
is a complete counterexample run. `EligibleIsCheckpointed` is the reason for the two checkpoints, told over
the run: after any append to a segment the sweep may reclaim, a checkpoint began its drain and has published
since. `RepackCopies` says which records a repack carries forward, and no others. What the device knows of
other copies, and which hashes are pinned at the recheck, is arbitrary in the safety proof and exact in the
counterexamples.

Two of the switches are not on in the code as written:

- `forget_dead` (crates/lchfs-store/src/coalesce.rs:744-745) loads the published generation *before* it looks
  at the pins, and background passes (crates/lchfs-store/src/lib.rs:2953-3003) do not hold the checkpoint lock
  as `retire_pass` does (crates/lchfs-store/src/rekey.rs:880-901). A checkpoint that publishes and unpins
  between the two looks (crates/lchfs-store/src/lib.rs:6344-6360) makes both pass, and the only copy of a
  published chunk is deleted: `GenerationFirstLoses`.
- The duplicate scanner runs on its own thread (crates/lchfs-store/src/lib.rs:2858-2900) and puts back a
  location it read before a coalescing pass deleted that segment: `ScanOverlapLoses`.

**Raw device** (`Device*.dfy`, `ZoneIo.dfy`). Zones are claimed, filled, synced, removed and freed, one device
operation a step; a flush makes everything written so far durable; a crash keeps any one of the values written
since for each header block and, more hostile than 4 KiB blocks, for each payload byte separately; the next
mount rebuilds everything from the headers. Runs contain any number of crashes. A segment's contents are
specified by the log of its writes, so "what was written" is a function of the history. The zones a mount has
to free are freed by the same steps a removal uses, interleaved with everything else, so a crash during the
mount is covered. A clean close is the sync steps of every segment. Three flushes are switches here too: bytes
before the length that covers them, zeroes before a Free header, a removed segment's first mark before the
others. `GoodIffOrdered` proves that every run keeps its promises **if and only if** all three are made; each
"only if" half is again a complete run. `SyncSurvives` and `FlushSurvives` say what a sync buys, from the step
that reads the length to any crash after it, without mention of the device's own book-keeping. `ZonedDevice`
is the same allocator in place on a byte array, without crashes: each segment is exactly a flat sparse array
of its own.

**Segment log** (`Segment*.dfy`). Record framing, the scan with its windowed resync, the torn tail, sealing
and reopening, the writer that fans out to several devices, the sealing of a segment a crash left open, and
what a scan gives back of a log with any number of damaged stretches: `ScanDamaged`. The scan's damaged ranges
are 32-bit: in a file of 4 GiB or more that ends in damage the last range is reported with its end truncated
(crates/lchfs-store/src/segment.rs:1263), so tiling holds exactly outside that case: `WalkTiles`,
`LongFileMisreported`.

**Delta log** (`Delta*.dfy`). Replay over several devices, truncation through a watermark, for any damage to
any copy, and the commits that make both sound. A truncation that fails half-way through a segment is
invisible exactly if what the devices not reached would replay of it is at or below the watermark:
`PartTruncationIsUnseen`. Copies that agree are enough; `DisagreeingCopyComesBack` shows two that do not.

**Committer hand-off** (`Committer.dfy`). Rings, the `pending` and `claimed` flags and the injector, one
atomic operation a step, any number of producers and workers. Order is stated per inode over all shards
together.

**Re-keying** (`Snapshots.dfy`, `RekeyFile.dfy`, `Keyring.dfy`, `KeyringChoice.dfy`). The snapshot table under
users and a rewrite that can be interrupted anywhere, one file's batch loop with its memo, the keyring's life,
and the choice among several devices' keyrings. Slot ids are 16-bit: the next id is new exactly if 65534 and
65535 are not both taken (`NextIdNew`), since a sum that wraps round
(crates/lchfs-crypto/src/keyring.rs:513-515) gives the higher of them out again.

**Records and chunks** (`Sealed.dfy`, `Padme.dfy`, `Chunker.dfy`). Sealing and opening, Padmé padding, and the
incremental chunker.

Foreign code is a parameter with its assumption stated as a predicate: header and footer codecs
(`SegmentScan.MagicFirst`), authenticated encryption and serialisation (`Sealed.Lawful`), the content-defined
cut (`Chunker.CutOk`). Which device operations fail, which replicas are lost and what each copy reads as are
parameters too.

## Model

| member | source | states |
|---|---|---|
| `ReclaimSafety.SafeIffSound` | crates/lchfs-store/src/coalesce.rs:572-758 | every run of writers, seals, checkpoints, duplicate scans and coalescing passes is safe if and only if all five orderings are in force |
| `ReclaimSafety.RunsAreSafe` | crates/lchfs-store/src/coalesce.rs:572-758 | with the orderings in force, in every interleaving everything referenced keeps a copy and the cache names only existing records |
| `ReclaimSafety.StepInv` | crates/lchfs-store/src/coalesce.rs:572-758 | the invariant that carries the argument is kept by every step of every actor |
| `ReclaimSafety.LookFirstLoses` | crates/lchfs-store/src/prep.rs:86-97 | a run that loses a referenced chunk when a writer looks up before it pins |
| `ReclaimSafety.SealFirstLoses` | crates/lchfs-store/src/gc.rs:96-118 | a run that loses a fresh chunk when a segment is stamped after its seal |
| `ReclaimSafety.ShortGraceLoses` | crates/lchfs-store/src/gc.rs:41-54 | a run that loses a fresh chunk with fewer than two checkpoints of grace |
| `ReclaimSafety.GenerationFirstLoses` | crates/lchfs-store/src/coalesce.rs:729-758 | a run of the gate as written that deletes the only copy of a published chunk |
| `ReclaimSafety.ScanOverlapLoses` | crates/lchfs-store/src/dedup.rs:97-206 | a run in which the duplicate scanner points the cache at a deleted segment |
| `ReclaimGrace.EligibleIsCheckpointed` | crates/lchfs-store/src/gc.rs:41-54 | in every run with stamps before seals and two checkpoints of grace, after any append to a segment the sweep may reclaim some checkpoint began its drain and published its generation |
| `ReclaimGrace.EligibleIsCaptured` | crates/lchfs-store/src/gc.rs:60-82 | in every run a segment the sweep may reclaim holds no record of a write still waiting for a checkpoint |
| `ReclaimLoops.SealGenerations.Stamp` | crates/lchfs-store/src/gc.rs:110-118 | records the generation; at 4096 entries or more only those that still matter are kept, and that changes no later answer |
| `ReclaimLoops.SealGenerations.MayReclaim` | crates/lchfs-store/src/gc.rs:124-135 | answers from the full history of stamps, whatever has been pruned or forgotten |
| `ReclaimLoops.Split` | crates/lchfs-store/src/coalesce.rs:599-616 | kept is exactly what is marked by place, or live by hash with no other copy known, and dropped exactly the rest, both in scan order; as the protocol's step has it |
| `ReclaimLoops.Recheck` | crates/lchfs-store/src/coalesce.rs:624-637 | exactly the pinned records of what was dropped are kept behind the rest, in order, and the dead list is every hash of what is neither |
| `ReclaimRepack.RepackCopies` | crates/lchfs-store/src/coalesce.rs:599-661 | in every run, whatever others do meanwhile, the segment a repack writes holds exactly the records marked, or live with no other copy known, or pinned at the recheck: a duplicate nobody marked or pinned is left behind |
| `ReclaimLoops.Converge` | crates/lchfs-store/src/dedup.rs:151-204 | a hash with two places or more settles on the one in use, or else the lowest, and every other place is a loser |
| `DeviceSafety.RunsAreSound` | crates/lchfs-device/src/lib.rs:646-1135 | over every run with crashes and remounts: free zones are zero, zone lists are disjoint, a removed segment's zones wait for its handles, every open segment reads as its writes left it and its zones cover its length |
| `DeviceSafety.RunsRecover` | crates/lchfs-device/src/lib.rs:680-758 | after every run and any crash the mount restores every live segment, and nothing else but a whole segment under removal or an empty one under creation |
| `DeviceSafety.CrashRecovers` | crates/lchfs-device/src/lib.rs:680-758 | a restored length was synced or being synced, is never below the last sync and is covered by flushed bytes and zones; every byte is as it was at some moment since the last flush, and as last written where no write since covers it |
| `DeviceSafety.AppendsComeBack` | crates/lchfs-device/src/lib.rs:1107-1135 | after every run and any crash an append-only segment comes back with at least its synced length and every byte below its length as it was appended |
| `DeviceSafety.SyncedIsExact` | crates/lchfs-device/src/lib.rs:680-758 | a segment whose every write was flushed and whose whole length is in its header comes back with its exact length and bytes |
| `DeviceSync.SyncSurvives` | crates/lchfs-device/src/lib.rs:1107-1135 | in every run with a whole sync of a segment in it, after any later steps that do not remove it and any crash, it comes back at least as long as when the sync read its length; and exactly as it was then, length and bytes, if nothing was written since |
| `DeviceSync.FlushSurvives` | crates/lchfs-device/src/lib.rs:1107-1135 | after a flush, and any later steps that neither write nor remove the segment, any crash brings back every byte of its zones as it was at the flush |
| `DeviceSync.LenIsFarthest` | crates/lchfs-device/src/lib.rs:1098-1103 | a segment's length is the farthest end of what it was mounted with and of every write |
| `DeviceSync.AtIsLast` | crates/lchfs-device/src/lib.rs:1098-1103 | a byte is what the last write that covers it put there |
| `DeviceSafety.CrashInv` | crates/lchfs-device/src/lib.rs:680-758 | whatever a crash leaves, the mount's first look satisfies the invariant again |
| `DeviceSafety.StepInv` | crates/lchfs-device/src/lib.rs:763-1135 | every device step and every crash keeps the invariant |
| `DeviceOrderings.GoodIffOrdered` | crates/lchfs-device/src/lib.rs:646-1135 | every run keeps free zones zero and recovers from a crash at any moment if and only if bytes are flushed before a length, zeroes before Free and the first zone's mark before the others' |
| `DeviceOrderings.LengthFirstBreaks` | crates/lchfs-device/src/lib.rs:1107-1135 | a run that brings back a byte nobody wrote when a length is written before its bytes are flushed |
| `DeviceOrderings.ZeroLateBreaks` | crates/lchfs-device/src/lib.rs:646-676 | a run that leaves a removed segment's byte in a durably Free zone when Free is written before the zeroes are flushed |
| `DeviceOrderings.RestFirstBreaks` | crates/lchfs-device/src/lib.rs:895-923 | a run that brings back half a segment when the other zones are marked before the first is flushed |
| `DeviceRecovery.FreeIsZero` | crates/lchfs-device/src/lib.rs:639-676 | a zone whose header is durably Free after a crash has an all-zero payload |
| `DeviceRecovery.LiveZones` | crates/lchfs-device/src/lib.rs:709-726 | a live segment's list comes back as it was, with at most the zone it was claiming |
| `DeviceRecovery.WholeZones` | crates/lchfs-device/src/lib.rs:891-923 | a removal whose first zone is not durably gone brings back every zone or none |
| `DeviceRecovery.GoneZones` | crates/lchfs-device/src/lib.rs:891-923 | once the first zone is durably gone nothing of the segment comes back, and every leftover header is an orphan's |
| `DeviceRecovery.AbsentZones` | crates/lchfs-device/src/lib.rs:816-837 | a key with no segment and no removal comes back only as the single zone its creation was claiming |
| `DeviceScan.ListZones` | crates/lchfs-device/src/lib.rs:709-728 | the loop over sorted claims lists the lowest zone for each place up to the first gap, and orphans exactly the rest |
| `DeviceClaims.ClaimStep` | crates/lchfs-device/src/lib.rs:763-811 | claiming, zeroing and growing keep the device invariant |
| `DeviceClaims.FreeStep` | crates/lchfs-device/src/lib.rs:646-676 | zeroing, flushing and freeing keep the device invariant |
| `DeviceIo.IoStep` | crates/lchfs-device/src/lib.rs:1098-1135 | writes, flushes and the steps of a sync keep the device invariant |
| `DeviceRemoval.RemoveStep` | crates/lchfs-device/src/lib.rs:895-923 | the steps of a removal, and closing its handles, keep the device invariant |
| `ZoneIo.PlaceInjective` | crates/lchfs-device/src/lib.rs:1074-1083 | distinct offsets of a segment are distinct bytes of the device |
| `ZoneIo.PlaceApart` | crates/lchfs-device/src/lib.rs:1074-1083 | segments without a common zone have no byte in common |
| `ZoneIo.HeadersApart` | crates/lchfs-device/src/lib.rs:622-624 | fixed regions and zone headers are in no segment's payload |
| `ZoneIo.ZonedDevice.ClaimZone` | crates/lchfs-device/src/lib.rs:763-811 | takes a clean zone, else an unknown one zeroed, else reports the device full; nothing outside that zone changes |
| `ZoneIo.ZonedDevice.GrowTo` | crates/lchfs-device/src/lib.rs:1057-1063 | adds just the zones needed, of zeroes, to one segment, or as many as there are, and changes no segment's contents |
| `ZoneIo.ZonedDevice.Create` | crates/lchfs-device/src/lib.rs:816-837 | replaces any segment of that name by an empty one and leaves all others alone |
| `ZoneIo.ZonedDevice.Remove` | crates/lchfs-device/src/lib.rs:859-864 | takes exactly that segment out and leaves its zones waiting; an unknown one is an error |
| `ZoneIo.ZonedDevice.Write` | crates/lchfs-device/src/lib.rs:1098-1103 | overlays the data on the segment's flat contents, zero where it skipped; no other segment, header or region changes; a full device changes no contents |
| `ZoneIo.ZonedDevice.Read` | crates/lchfs-device/src/lib.rs:1089-1095 | returns that stretch of the flat contents, or an error exactly when it ends past the length |
| `DeviceLayout.PlannedIsValid` | crates/lchfs-device/src/lib.rs:93-143 | every planned layout is one a mount accepts, with its zones behind all regions and inside the device, and no room for one more |
| `DeviceLayout.PlannedIff` | crates/lchfs-device/src/lib.rs:93-143 | a device is refused exactly if the zone size is, or it has no room for eight zones behind its regions |
| `DeviceLayout.SegmentsStayInZones` | crates/lchfs-device/src/layout.rs:146-173 | under a valid label no segment byte is in a region, a zone header or the last block |
| `SegmentScan.Resync` | crates/lchfs-store/src/segment.rs:1176-1200 | the windowed search finds exactly what a byte-by-byte search for a sound record finds |
| `SegmentScan.SearchWindow` | crates/lchfs-store/src/segment.rs:1186-1194 | within a window the first sound record is found, and skipping offsets without the magic misses none |
| `SegmentDamage.HeaderTaken` | crates/lchfs-store/src/segment.rs:1202-1224 | a header that decodes is taken exactly if its record's length is within the limit and its end below 4 GiB, and by the search past damage exactly if besides it is at most 64 KiB long and the record ends inside the file |
| `SegmentDamage.SearchFinds` | crates/lchfs-store/src/segment.rs:1176-1224 | a search that meets nothing on the way finds a record, at the very end of a file or not, if and only if its header is at most 64 KiB and it ends below 4 GiB |
| `SegmentDamage.ScanDamaged` | crates/lchfs-store/src/segment.rs:1230-1268 | an open segment with any number of damaged stretches between its records gives back every record where it was put, and each stretch as damage |
| `SegmentDamage.ScanDamagedSealed` | crates/lchfs-store/src/segment.rs:1230-1268 | so does a sealed one, up to its footer |
| `SegmentDamage.ScanTail` | crates/lchfs-store/src/segment.rs:1230-1268 | damage with no record behind it ends the scan, reported up to the end of the file |
| `SegmentScan.Scan.Next` | crates/lchfs-store/src/segment.rs:1230-1268 | each call reports the next part of the walk, records and damage in order, and ends exactly when it does |
| `SegmentScan.ScanAll` | crates/lchfs-store/src/segment.rs:1136-1144 | a scan terminates with exactly the records, damage and end of the walk |
| `SegmentScan.WalkTiles` | crates/lchfs-store/src/segment.rs:1230-1268 | records and damage tile the file from the header page to the stopping offset, if and only if it does not end in damage at 4 GiB or more |
| `SegmentScan.ShortFileTiles` | crates/lchfs-store/src/segment.rs:1230-1268 | in a file below 4 GiB they always do |
| `SegmentScan.LongFileMisreported` | crates/lchfs-store/src/segment.rs:1262-1265 | a 4 GiB file whose reported damage does not reach its end |
| `SegmentLog.ScanOpen` | crates/lchfs-store/src/segment.rs:540-578 | scanning an open segment gives back the records appended, where they were put |
| `SegmentLog.ScanSealed` | crates/lchfs-store/src/segment.rs:653-683 | scanning a sealed segment gives them back and ends at the footer, whatever lies behind it |
| `SegmentLog.ScanTorn` | crates/lchfs-store/src/segment.rs:1230-1268 | cut anywhere, an open segment gives back exactly the records wholly contained |
| `SegmentLog.ReopenTorn` | crates/lchfs-store/src/segment.rs:297-304 | reopening a cut segment puts the writer where one that had appended just the whole records would be |
| `SegmentLog.Reopen` | crates/lchfs-store/src/segment.rs:297-304 | the loop over the scan computes that cursor and those hashes |
| `SegmentWriting.SegmentWriter.FromDisk` | crates/lchfs-store/src/segment.rs:274-331 | whatever damage a file left open has, its writer goes on where the last record found ends, with the hashes found; over a segment cut anywhere it is a valid writer that has acknowledged just the whole records |
| `SegmentWriting.SealOrphan` | crates/lchfs-store/src/lib.rs:2805-2846 | a segment left open is removed if a scan finds no record and otherwise sealed behind the last one, unless its device fails; sealed, it scans to the records found and their footer if the footer disturbs no offset ahead of it, and always, torn tail behind it, if the segment was cut short |
| `SegmentWriting.ResealedScans` | crates/lchfs-store/src/segment.rs:259-271 | with any damage among its records, a segment sealed where the last record found ends scans to the same records and to that footer, if the footer disturbs no offset ahead of it |
| `SegmentLog.SealKeepsScan` | crates/lchfs-store/src/segment.rs:1230-1268 | a scan that meets a footer where another scan's last record ended, and reads the same up to there, reports the same records |
| `SegmentWriting.SegmentWriter.EachReplica` | crates/lchfs-store/src/segment.rs:343-389 | keeps, in order, exactly the replicas that did not fail, reports the rest, and succeeds exactly if one is left |
| `SegmentWriting.SegmentWriter.SyncReplicas` | crates/lchfs-store/src/segment.rs:593-644 | syncing together drops the same replicas in the same order as one by one |
| `SegmentWriting.SegmentWriter.Append` | crates/lchfs-store/src/segment.rs:540-578 | acknowledged exactly if some replica took it, and then all listed replicas hold the same bytes with the record in place; refused, it changes nothing |
| `SegmentWriting.SegmentWriter.Seal` | crates/lchfs-store/src/segment.rs:646-683 | exactly the replicas no write or flush failed on are left, each with the footer of exactly the records acknowledged behind them, and the slots returned are those not yet reported and all dropped since |
| `SegmentWriting.SealedScans` | crates/lchfs-store/src/segment.rs:653-683 | a replica so sealed scans to exactly those records and ends at the footer, whatever is behind it |
| `SegmentWriting.SegmentWriter.TakeFaults` | crates/lchfs-store/src/segment.rs:334-336 | hands over the slots dropped since the last call, leaving the accounting intact |
| `SegmentWriting.KeptOrDropped` | crates/lchfs-store/src/segment.rs:343-389 | listed and dropped slots partition the slots the operation began with |
| `DeltaLog.ReplaySegment` | crates/lchfs-store/src/delta_log.rs:389-446 | each offset counts once, from the first copy that reads and decodes |
| `DeltaLog.CollectIs` | crates/lchfs-store/src/delta_log.rs:389-446 | what is collected is, in order, the entry at each index that is the first of its offset to read |
| `DeltaLog.ReplaySince` | crates/lchfs-store/src/delta_log.rs:377-457 | replay is ordered by epoch, and of each epoch above the watermark returns all entries found, in the order found, and of no other epoch any |
| `DeltaLog.ByEpochIs` | crates/lchfs-store/src/delta_log.rs:453-454 | that order is by epoch, and entries of one epoch stay, all of them, in the order found |
| `DeltaLog.SegmentIsDead` | crates/lchfs-store/src/delta_log.rs:507-548 | judges a segment dead exactly when every offset has a copy that is not unreadable and the first of those is an object or an entry at or below the watermark |
| `DeltaLog.DeadIs` | crates/lchfs-store/src/delta_log.rs:507-548 | the running judgement over settled and unsettled offsets is that statement about first copies |
| `DeltaTruncation.Truncate` | crates/lchfs-store/src/delta_log.rs:475-503 | deletes exactly the dead segments below the current one, in order and from all devices, or stops part-way at a failed removal |
| `DeltaTruncation.TruncationIsUnseen` | crates/lchfs-store/src/delta_log.rs:460-503 | for any damage, replay since that watermark or a later one returns the same entries in the same order |
| `DeltaTruncation.PartTruncationIsUnseen` | crates/lchfs-store/src/delta_log.rs:494-500 | after a truncation that failed part-way replay is unchanged if and only if what the devices not reached would replay of that segment is at or below the watermark |
| `DeltaTruncation.AgreeingCopiesAreUnseen` | crates/lchfs-store/src/delta_log.rs:494-500 | copies of a dead segment that agree where they read meet that condition |
| `DeltaTruncation.DisagreeingCopyComesBack` | crates/lchfs-store/src/delta_log.rs:494-500 | two disagreeing copies for which the failed truncation brings an entry back |
| `DeltaCommit.ShardDeltaLog.Commit` | crates/lchfs-store/src/delta_log.rs:221-280 | succeeds exactly if every part of it does, and then the current segment has gained just the objects and the entry behind them, its epoch claimed; whatever fails, entries stay in the segment of their objects and behind them, and no other segment changes |
| `DeltaCommit.EntryKeepsObjects` | crates/lchfs-store/src/delta_log.rs:460-467 | for any damage and however far a truncation got, every entry replayed was committed behind all the objects it needs in a segment the device it was read from still has whole |
| `Committer.HandOff` | crates/lchfs-store/src/ingress.rs:471-611 | in every reachable state no ring with an op is forgotten, one worker at most drains a shard, over all shards each inode's appended ops are the first part of its pushed ones, and at rest they are all of them |
| `Committer.StepInv` | crates/lchfs-store/src/ingress.rs:559-611 | the invariant behind it is kept by every atomic operation |
| `Committer.AlwaysDrains` | crates/lchfs-store/src/ingress.rs:559-611 | from every reachable state some finite run without another push comes to rest with every op pushed appended |
| `Committer.AnnouncedOnce` | crates/lchfs-store/src/ingress.rs:489-501 | until a worker takes a shard up, however many ops are pushed, it is announced at most once, and not at all if it was already |
| `Snapshots.SnapshotsKeepTheirTrees` | crates/lchfs-store/src/rekey.rs:604-742 | in every interleaving each visible snapshot is listed once and means the tree it was created from |
| `Snapshots.OnlyUsersChangeTheList` | crates/lchfs-store/src/lib.rs:3068-3113 | only creating and deleting change which snapshots there are: a deleted one never returns |
| `Snapshots.PublishRekeys` | crates/lchfs-store/src/rekey.rs:707-742 | publishing leaves the snapshot and every inode in the target epoch with the same content, and no staging entry |
| `Snapshots.BeginInv` | crates/lchfs-store/src/rekey.rs:604-624 | a staging entry found for a snapshot is a part of that very snapshot's rewrite in this conversion |
| `Snapshots.RewriteResumes` | crates/lchfs-store/src/rekey.rs:604-742 | what a rewrite has staged is not done again: through any interruption and anything users do, as long as the snapshot is not deleted and still waits, its next rewrite begins with at least those inodes |
| `Snapshots.StageStops` | crates/lchfs-store/src/rekey.rs:707-742 | a rewrite whose snapshot is gone stops when it next stages, and leaves no staging entry |
| `Snapshots.OrphansDropped` | crates/lchfs-store/src/rekey.rs:664-682 | exactly the staging entries whose snapshot is gone are dropped, and none is left |
| `Snapshots.DeleteTakes` | crates/lchfs-store/src/lib.rs:3094-3113 | deleting takes the snapshot and its staging entry and nothing else |
| `Snapshots.StepInv` | crates/lchfs-store/src/rekey.rs:604-742 | every step of users and of the rewrite keeps the invariant |
| `Snapshots.StagingNameInjective` | crates/lchfs-store/src/rekey.rs:1172-1179 | a staging name determines the snapshot name and root, whatever characters the name holds |
| `RekeyFile.File.Rekey` | crates/lchfs-store/src/rekey.rs:374-480 | terminates with every chunk and the list in the target epoch, every rewritten chunk in the index and the file's offsets, lengths and contents unchanged |
| `RekeyFile.File.RekeyBatch` | crates/lchfs-store/src/rekey.rs:442-449 | a batch changes only the chunks chosen, to ones the index resolves, and brings the file strictly nearer the target |
| `RekeyFile.File.RekeyChunk` | crates/lchfs-store/src/rekey.rs:491-520 | the chunk the memo names exactly if that still resolves, and nothing changes; else the same content in the target epoch, in the index and the memo |
| `RekeyFile.FindBatch` | crates/lchfs-store/src/rekey.rs:417-426 | the first old chunks from the resume point, at most 256, none skipped |
| `Keyring.Create` | crates/lchfs-crypto/src/keyring.rs:411-447 | refuses exactly a TPM as the only slot |
| `Keyring.UnlockedKeyring.StartRekey` | crates/lchfs-store/src/rekey.rs:170-192 | makes current the epoch one above the highest, a number never used before, or, refused, changes nothing |
| `Keyring.UnlockedKeyring.DropEpoch` | crates/lchfs-crypto/src/keyring.rs:503-511 | drops a key exactly if it is below the minimum, not current and no target |
| `Keyring.UnlockedKeyring.FinishConversion` | crates/lchfs-store/src/rekey.rs:969-987 | leaves the target's key and no other |
| `Keyring.UnlockedKeyring.AddSlot` | crates/lchfs-crypto/src/keyring.rs:513-522 | adds a slot under an id no other has, exactly if the last two ids are not both taken |
| `Keyring.NextIdNew` | crates/lchfs-crypto/src/keyring.rs:513-515 | the next 16-bit id is new if and only if 65534 and 65535 are not both taken |
| `Keyring.UnlockedKeyring.RemoveSlot` | crates/lchfs-crypto/src/keyring.rs:576-587 | removes that slot, or changes nothing if it is unknown or only TPM slots would remain |
| `Keyring.UnlockedKeyring.RevokeSlot` | crates/lchfs-crypto/src/keyring.rs:603-676 | rewraps every other slot and every epoch under the new key exactly if every passphrase and PIN asked for is right and every TPM slot unseals on this machine; otherwise nothing changes |
| `Keyring.Rotated` | crates/lchfs-crypto/src/keyring.rs:492-500 | one above the highest epoch held is a number never given out |
| `Keyring.Dropped` | crates/lchfs-crypto/src/keyring.rs:503-511 | dropping a key not in use leaves the highest, so numbers never come round again |
| `KeyringChoice.ReadAll` | crates/lchfs-crypto/src/keyring.rs:768-798 | returns the copies newest first, those of one generation in the order found, exactly if all are of one pool and copies of one generation are identical |
| `KeyringChoice.NeighboursSuffice` | crates/lchfs-crypto/src/keyring.rs:788-796 | in that order comparing neighbours compares all copies of a generation |
| `KeyringChoice.UnlockNewest` | crates/lchfs-crypto/src/keyring.rs:828-876 | unlocks a generation only if every newer one tried was proven forged, ends at one that refuses, and calls stale exactly the devices without the chosen generation |
| `Sealed.OpenOfSeal` | crates/lchfs-format/src/sealed.rs:234-345 | opening what was sealed gives the same record under either padding, exactly when inner header and payload are within the limit |
| `Sealed.OrdinaryRecordsOpen` | crates/lchfs-format/src/sealed.rs:234-345 | every payload up to the record limit with an inner header up to 1 MiB comes back |
| `Sealed.SealFrames` | crates/lchfs-format/src/sealed.rs:100-121 | below 4 GiB a sealed record's length is that of prefix, header and envelope; its checksum is its own; and its header shows nothing but hash, epoch and envelope length |
| `Sealed.EnvelopeLength` | crates/lchfs-format/src/sealed.rs:258-266 | an envelope is as long as inner header and payload, padded if padding is on, and the overhead |
| `Sealed.RefusedOutside` | crates/lchfs-format/src/sealed.rs:286-321 | each refusal before the envelope is opened happens exactly on its condition: below the minimum, sealed kind in plaintext, not laid out sealed, unknown epoch, no key, not authentic |
| `Sealed.InsideOnly` | crates/lchfs-format/src/sealed.rs:322-351 | what authenticates is refused only for its inside: too large exactly over the limit, nested exactly if it says it is sealed |
| `Sealed.SwappedHeader` | crates/lchfs-format/src/sealed.rs:123-130 | an envelope behind another header, or in another pool, opens only if the encryption accepts it for associated data it was not made for |
| `Sealed.FitsEitherWay` | crates/lchfs-format/src/sealed.rs:41-50 | padding never takes a record over the limit |
| `Sealed.AadInjective` | crates/lchfs-format/src/sealed.rs:123-130 | associated data agrees only for headers that agree on everything but the checksum, in one pool |
| `Padme.AtMostTwelvePercent` | crates/lchfs-crypto/src/padme.rs:13-24 | at most 12% is added to any length |
| `Padme.Monotone` | crates/lchfs-crypto/src/padme.rs:13-24 | a longer length never pads to less |
| `Padme.Idempotent` | crates/lchfs-crypto/src/padme.rs:13-24 | a padded length is its own padding |
| `Padme.FewValues` | crates/lchfs-crypto/src/padme.rs:13-24 | the lengths of an octave pad to at most 2^S + 1 values |
| `Padme.FitsIffSumFits` | crates/lchfs-crypto/src/padme.rs:20-23 | the 64-bit sum overflows exactly when the padded length does not fit |
| `Chunker.FastCdcChunker.Push` | crates/lchfs-chunk/src/lib.rs:61-83 | emits exactly the boundaries the bytes so far make final |
| `Chunker.FastCdcChunker.Finish` | crates/lchfs-chunk/src/lib.rs:90-101 | completes them to the boundaries of the whole stream |
| `Chunker.ChunkAll` | crates/lchfs-chunk/src/lib.rs:61-101 | however the stream is split into pushes the boundaries are the same, tile it with chunks of 1 to `maxSize` bytes, and each chunk ends where the cutter, shown the stream from its start, says |
| `Chunker.CutsExtend` | crates/lchfs-chunk/src/lib.rs:31-37 | more bytes move no boundary already emitted |

## Left out

- Reclamation on devices other than the primary, stripes, scrub and heal: the cache is repointed only on the primary, and the rest rests on an erasure-coding library.
- The duplicate scanner's cursor over segments, and what it writes to the persisted index.
- The sweep's window and live-fraction heuristics: any sealed segment past the seal gate may be picked, as retirement does.
- `mark`'s walk of the object graph and its paging: a mark is the set of hashes the published root reaches, read at any moments between its start and end.
- The persisted index: a crash between its update and the segment's deletion is not part of this model.
- Device input/output errors: a claim, sync or removal step succeeds; a failed claim's restored map entry is not modelled.
- Writes, syncs or growth through a handle while, or after, its segment is removed, and two syncs of one segment at once: the callers hold one writer per segment.
- DeviceSafety.RunsRecover: bytes of a zone caught in a claim of unknown contents may be anything after a crash; only bytes below the length are promised, as in the code.
- ZoneIo.ZonedDevice.Remove: freeing the zones again is the device model's `FreeStep`; header blocks are written there too.
- SegmentWriting.SegmentWriter.Append: takes headers built by the format library and within the record limit; a record past 4 GiB in a segment is returned at its truncated offset.
- SegmentDamage.ScanDamaged: assumes nothing in a damaged stretch reads as a header or a footer, and a header of at most 64 KiB behind it; `SearchFinds` says that exactly those are found.
- SegmentLog.ScanTorn: assumes no accidental record or footer in a header cut short.
- SegmentLog.ScanSealed: assumes the footer's bytes do not themselves decode as a record's header.
- SegmentWriting.SealOrphan: between damaged stretches the new footer could in principle complete a header cut short there; that it does not is a condition, met by every segment merely cut short.
- DeltaTruncation.TruncationIsUnseen: replay and truncation see the same devices; a device that was away keeps its own copies.
- DeltaLog.ReplaySince: the record locations it also returns are not modelled, and the list of segment ids is an input.
- RekeyFile.File.Rekey: cancellation, throttling, failed reads and the pins of rewritten chunks are not part of this model.
- Committer shutdown, and the index batches a committer keeps.
- Keyring.UnlockedKeyring.RevokeSlot: a recipient slot's stored public key is taken to be well-formed.
- Keyring generations, key derivation and the secrets' prompts: a secret is the number that opens its slot.
- Sealed.SealFrames: from 4 GiB on the header's 32-bit lengths wrap, as in the code; such a record is refused when it is opened (`OpenOfSeal`).
- Padme.FewValues: lengths are unbounded; `FitsIffSumFits` says when 64 bits suffice.
- Erasure coding, the FUSE and NFS adapters, the command line, fsck reporting and memory locking: input/output, or easy beside the rest.
