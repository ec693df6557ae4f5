# A verified model of BoltQ's messaging plane

BoltQ keeps messages in a replicated, segmented log with leader-epoch fencing. A metadata state machine
decides who leads which partition, a work queue is layered over the log, and a controller moves replicas.
This project models that plane in Dafny and proves what it promises: statements over every run, every
input and every reachable state, down to the bytes on disk.

`dafny verify dfyconfig.toml` checks all of it. Nothing here executes BoltQ.

## How the modules fit

| module | what it holds |
|---|---|
| `Records`, `Codec` | the record and its frame; encoding, decoding, batches, over any checksum function |
| `EpochHistory`, `PartitionLog` | the leadership history, and a partition as one flat list of records with it |
| `Segments`, `Partitions` | segment files with sparse indexes, and the partition built of them, refining the flat list |
| `Metadata`, `Insync` | brokers, topics and assignments under the agreed commands, and what each command changes and what it cannot |
| `Replication` | a cluster as a step system: commands, reconcile passes on stale views, appends, follower sessions, restarts, retention |
| `SingleWriter`, `LogMatching`, `OwnEpoch`, `Divergence`, `Histories`, `Backdating`, `Horizon`, `Sessions` | what every run of it keeps, exactly when, runs that show why, and what retention takes from followers |
| `Nodes` | one node's code over a segmented partition, refining the steps of `Replication` |
| `Windows`, `Share`, `SeqHeaps` | the delivery window as a value, and the share partition class that refines it |
| `Cursors` | the cursor log: commits, crashes, compaction |
| `Planner`, `Placement`, `Racks` | rebalancing and its convergence, placement, and when it separates racks |
| `Controllers`, `UncaughtMove` | elections and replica moves as separate commands, and a run that drops a replica too early |
| `Matcher` | the two wildcard matchers |

Objects that the source updates in place are classes; their methods are proved against functions on values,
and the properties are proved of those functions. A partition's flat list keeps the records that retention
has removed, so that whole histories can be compared; `first` marks the horizon.

## What the proofs found

- The follower never checks that the epoch it is answered with is its own (follower.go, line 364).
  Log matching therefore holds under an exact condition (`LogMatching.KeptIsPrefixIff`). Runs in which every answer
  is of the follower's own epoch and no serving node truncates meet it (`OwnEpoch.OwnRunsAreFaithful`), and
  `Divergence.ForeignAnswerDiverges` is a run with one foreign answer.
- The follower write path accepts a record of an older term than the current one (partition.go, line 283). Log
  matching does not need that excluded, but the epoch history does: only such a delivery can make it disagree with
  the log (`Histories.HistoriesAgreeIff`), and `Backdating.RecordlessTermDisagrees` is a run with one.
- After a crash that loses unsynced records, the reopened partition may hold a history whose last term starts past
  its end. Exactly then the next record of that term disagrees with the history (`PartitionLog.LossyRestartIff`) and
  every promotion and newer term is refused (`PartitionLog.LossyRestartRefuses`), while the comment at partition.go,
  line 281 calls an epoch without records harmless.
- A follower whose end lies below its leader's retention horizon never catches up while that leader stands: the
  leader skips ahead, and the follower answers every batch with a gap, through every reconcile pass and restart
  (`Horizon.StarvedUnderLeader`, `Horizon.ReachesEndIff`).
- The last phase of a replica move does not look at the ISR again, so a destination that has fallen out meanwhile
  does not keep the source (`Controllers.SourceLeavesIff`, `UncaughtMove.DropsSourceUncaught`), against the order
  the comment at rebalance.go, lines 11 to 17 gives.
- A move whose destination never joins the ISR, such as one below its leader's horizon, stops all rebalancing: the
  partition stays over-replicated and the sweep never finds the cluster quiet again (`Controllers.NeverQuietAgain`).
- An ISR report does not look at fencing, so a broker fenced out of every ISR comes back with the next report that
  names it, and fencing it again does nothing (`Insync.FencedComesBack`, `Insync.FencedOutIff`).
- The planner's rack preference decides only between brokers of equal load (`Planner.ScoreOrders`), where the comment
  at planner.go, lines 239 to 242 speaks of brokers one replica apart; and it counts all unlabelled brokers as one rack
  (`Planner.TargetBest`), which placement does not (`Placement.SameRackIff`).
- Cursors and windows are not cut back when a failover truncates the log: records rewritten below the cursor are not
  delivered (`Windows.OpenedDeliversIff`).
- Placement promises replicas in different racks first of all. It keeps them apart under an exact condition on the
  stride and the rack sizes (`Racks.SeparatedAnyIff`, in closed form for equal racks `Racks.SeparatedIff`), and
  `Racks.PlaceLopsided` and `Racks.PlaceEven` are two small clusters where it does not.
- Header keys and values have 16-bit lengths that the encoder does not check; the round trip holds exactly
  when they fit (`Codec.RecordRoundTripIff`), and other records are acknowledged and unreadable
  (`Partitions.Partition.Append`).
- The cursor loader accepts bodies up to 64 KiB while the encoder writes any key (`Cursors.LoadsIff`).
- The cursor loader stops at a torn record but leaves it in the file, where new commits are appended after it: the
  next load finds them if and only if nothing was torn (`Cursors.ReopenedIff`, `Cursors.CursorStore.ReloadIff`), a
  checksum accident aside, and one stray byte already hides the next commit (`Cursors.TornTailHidesCommit`).
- A compaction that overlaps a delete brings the deleted key back (`Cursors.AppendMissed`).
- `Place` divides by zero for a single usable broker (`Placement.Place`).

## Model

| member | source | states |
|---|---|---|
| `SingleWriter.SingleWriterPerTerm` | internal/cluster/metadata.go:505-526 | over every run of metadata commands, passes on stale views, appends, replication, restarts and retention from any valid metadata: two records created under one term come from one node, and the later has the larger sequence, so no (term, sequence) pair is assigned twice |
| `SingleWriter.AppendExtendsTerm` | internal/stream/partition.go:182-223 | a local append is made by the owner of its term, at the sequence right after everything written in that term |
| `SingleWriter.StepOk` | internal/streamctl/reconciler.go:187-276 | every step keeps the ownership invariant: one owner per opened term, granted to it by the metadata, and a leading node holds exactly its term's log |
| `SingleWriter.RunOk` | internal/streamctl/reconciler.go:187-276 | the ownership invariant holds in every reachable cluster state |
| `SingleWriter.RunGrows` | internal/stream/log.go:411-455 | an opened term never changes owner and its log only grows |
| `SingleWriter.CommitKeepsHistory` | internal/cluster/metadata.go:505-526 | across the whole command history a partition's term never goes back and keeps one leader while it stands |
| `LogMatching.LogsMatch` | internal/replication/follower.go:325-381 | in every run whose settlements are faithful: replicas with the same term at the same sequence are identical up to there, and an open session keeps the follower a prefix of its leader |
| `LogMatching.KeptIsPrefixIff` | internal/replication/follower.go:364-371 | the condition on settling is exact: what the follower keeps is a prefix of the leader's log if and only if the last record kept has the leader's term |
| `LogMatching.StepMatching` | internal/replication/follower.go:418-461 | every faithful step keeps the matching invariant (term chains, prefix sessions, wires that continue the leader's log) |
| `LogMatching.RunMatching` | internal/replication/follower.go:183-310 | the matching invariant in every state of a faithful run |
| `OwnEpoch.OwnEpochRunsMatch` | internal/replication/follower.go:325-381 | log matching and prefix sessions in every run whose queries are answered with the follower's own term and in which no serving node truncates, records applied under a later recordless term included |
| `OwnEpoch.OwnEpochRunsRise` | internal/stream/partition.go:253-309 | in the same runs a log never falls back to an older term and holds no record later than its current one |
| `OwnEpoch.OwnRunsAreFaithful` | internal/replication/follower.go:325-381 | such runs meet the exact settling condition at every step, with no condition on the records delivered |
| `OwnEpoch.OwnAnswerMeets` | internal/stream/epoch.go:182-204 | between two nodes an own-term answer cuts the follower exactly where its term still meets the leader's, whether or not the histories agree with the logs |
| `OwnEpoch.StepReconciled` | internal/stream/partition.go:253-309 | every own-term step keeps each history entry at the start of its term, with the term's first record there unless the term is the node's own and recordless, and answers that still hold |
| `Histories.HistoriesAgreeIff` | internal/stream/partition.go:253-309 | over every cluster run from empty logs, with no other condition: every node's history agrees with its log throughout if and only if no delivery applies a record of a term older than the receiver's |
| `Histories.StepAgreesIff` | internal/stream/partition.go:253-309 | each single step of the cluster keeps all histories in agreement exactly when it is not such a delivery |
| `Backdating.RecordlessTermDisagrees` | internal/replication/follower.go:325-335 | a failing run for the history alone: an own-epoch, faithful run in which an empty node with a recordless term of its own applies its leader's older record unasked, so that logs match and the history gives the record another term |
| `Divergence.ForeignAnswerDiverges` | internal/replication/follower.go:364-366 | the condition is needed: an 18-step run from empty logs where exactly one step, a query answered with another term, is not an own-epoch step ends with two logs that differ in payload below a record they share |
| `Horizon.StarvedForever` | internal/replication/leader.go:497-516 | over every run in which no pass makes it the leader or has it follow somebody else, a follower whose end lies below its leader's retention horizon gains no record, whatever is committed, shipped, delivered, asked, settled, reconciled or restarted |
| `Horizon.StarvedUnderLeader` | internal/streamctl/reconciler.go:187-340 | the same of every run whose metadata names no leader but that one from the follower's view on |
| `Horizon.ReachesEndIff` | internal/replication/leader.go:497-545 | exact: some run of ships and deliveries brings the follower to its leader's end if and only if the leader still retains the follower's next record |
| `Horizon.CatchesUpIff` | internal/replication/leader.go:497-516 | exact: a session at its follower's end gets the next record in one round if and only if the leader still retains it |
| `Horizon.GapReachesEndIff` | internal/replication/follower.go:448-456 | the same exact condition from a gap, with every record in transit past the follower's end: some run of ships and deliveries brings the follower to its leader's end if and only if the leader still retains the follower's next record |
| `Horizon.GapRefetches` | internal/replication/follower.go:448-456 | a gap costs the batch and never the session: the next fetch is from the follower's end |
| `Horizon.NewReplicaStarves` | internal/replication/leader.go:497-516 | a replica that holds nothing stays empty once the leader's first record is gone, its own passes and restarts included |
| `Horizon.HandshakeIff` | internal/replication/follower.go:325-381 | exact: asking and settling opens the stream if and only if the follower holds nothing or has no term, or the leader knows a term the follower's reaches and the end it names lies above what the follower can still cut; the stream starts at the follower's end and only the records at and past the named end are lost |
| `Sessions.RunFollows` | internal/streamctl/reconciler.go:277-340 | in every state of every run, whoever a node follows is the leader in the metadata of its last pass, registered, unfenced and with a replication address, the node being one of the other replicas, and its session is with that leader |
| `Sessions.RunLeads` | internal/streamctl/reconciler.go:194-275 | in every state of every run, whatever a node leads is what the metadata of its last pass has it lead, under that very term, and it follows nobody |
| `Sessions.PassFollowsIff` | internal/streamctl/reconciler.go:279-296 | after a pass a node follows x if and only if the metadata has it do so, and otherwise nobody |
| `Sessions.PassKeepsSessionIff` | internal/streamctl/reconciler.go:298-340 | a session outlives a pass if and only if the leader and the partition set are as before; otherwise it is dropped |
| `Sessions.PassLeadsIff` | internal/streamctl/reconciler.go:194-275 | after a pass a node leads if and only if the metadata has it lead under a term no older than its log's, and a pass loses no record |
| `Replication.NodeAfterKeepsWellFormed` | internal/streamctl/reconciler.go:187-191 | a node step changes that node only, and leaves it a well-formed log and a view within the history |
| `Replication.ExecKeepsShape` | internal/cluster/metadata.go:505-607 | every step keeps all logs well formed, extends the agreed history and never drops a node |
| `Nodes.StreamNode.Reconcile` | internal/streamctl/reconciler.go:187-340 | one pass over one snapshot, on the segmented log, is exactly the model's pass, of which `Sessions` says whom it then follows, which session it keeps and what it leads: resign, then promote, then keep, open or drop the session |
| `Nodes.StreamNode.BecomeLeaderFor` | internal/stream/log.go:411-455 | reasserts a held term, refuses an older one, opens a newer one; the log after and the verdict are those of the flat list |
| `Nodes.StreamNode.ReconcileEpoch` | internal/replication/follower.go:364-381 | settling an answer on the segmented log is the model's settle step, refused truncation included |
| `Nodes.StreamNode.ApplyBatch` | internal/replication/follower.go:418-461 | a received batch of stored frames changes the log exactly as applying its records one by one until a gap or a refusal, and a gap asks for the true local end |
| `Nodes.StreamNode.Ship` | internal/replication/leader.go:469-559 | the leader frames exactly its records from the position on, skips to the retention horizon exactly when behind it, and finds nothing only past its end |
| `Nodes.BatchIsDeliveries` | internal/replication/follower.go:432-461 | applying a whole batch equals that many single deliveries of the protocol model, whether the batch is absorbed, meets a gap (the rest dropped, the next fetch from the true end) or is refused (the session ends) |
| `Nodes.DecodedFits` | internal/stream/record.go:194-238 | whatever decodes fits its wire fields and is unchanged by another round trip |
| `Nodes.StoredSendable` | internal/replication/leader.go:603-616 | every retained record of a partition can be encoded again and comes back as it is |
| `Nodes.EncodeAll` | internal/replication/leader.go:603-616 | encoding retained records never fails and gives frames that carry exactly them |
| `Nodes.BatchExtendsPrefix` | internal/replication/follower.go:418-461 | a batch of the leader's records that starts at or before a prefix follower's end leaves the follower the longer prefix, with nothing refused |
| `LogMatching.ServingTruncationIff` | internal/stream/partition.go:528-581 | why a serving node must not truncate: its session stays a prefix exactly when the follower had not got past what is kept |
| `PartitionLog.LossyRestartIff` | internal/stream/partition.go:137-139 | a restart that lost the log's tail but kept the checkpointed history: the next record of the current term agrees with the history if and only if that term had begun by then |
| `PartitionLog.LossyRestartRefuses` | internal/stream/epoch.go:131-152 | in exactly the same case every promotion and every replicated record of a newer term is refused, so the replica is stuck |
| `PartitionLog.LostTailStrandsReplica` | internal/stream/partition.go:137-139 | a failing input: a promotion past two records, one of which a crash loses |
| `PartitionLog.HistoryMatchesLog` | internal/stream/epoch.go:207-215 | after any run of promote, append, replicate, truncate and retention that never backdates, the history gives the stored epoch of every readable record and the current term is its latest |
| `PartitionLog.StepAgreesIff` | internal/stream/partition.go:283-289 | an operation keeps history and log in agreement if and only if it is not a replicated record of an older term |
| `PartitionLog.RunAgrees` | internal/stream/partition.go:570-574 | agreement over whole runs that never backdate |
| `PartitionLog.BackdatedRecordBreaksHistory` | internal/stream/partition.go:283-289 | without that condition it fails: a term-4 record accepted under term 5 is answered as term 5 |
| `PartitionLog.EndOffsetIsBoundary` | internal/stream/epoch.go:182-204 | under agreement a defined answer is the exact boundary: a retained record has epoch at most e if and only if it lies below it |
| `PartitionLog.EndOffsetUndefinedIff` | internal/stream/epoch.go:182-204 | the answer is undefined exactly when every known term is newer than e |
| `PartitionLog.EpochsBelowCurrent` | internal/stream/partition.go:503-507 | no record is of a later term than the current one |
| `PartitionLog.ReplicateAgreesIff` | internal/stream/partition.go:253-309 | the follower path alone: agreement is kept exactly when the record is not backdated |
| `PartitionLog.TruncateAgrees` | internal/stream/partition.go:570-574 | truncation keeps the agreement |
| `PartitionLog.RetainAgrees` | internal/stream/partition.go:815-820 | retention keeps it: the entry covering the new first record survives |
| `EpochHistory.CutFromKeepsTerms` | internal/stream/epoch.go:221-230 | cutting from s leaves the term of every earlier sequence |
| `EpochHistory.CutBeforeKeepsTerms` | internal/stream/epoch.go:234-243 | cutting before s leaves the term of s and everything later, and of every earlier sequence still covered |
| `EpochHistory.CutBeforeTwice` | internal/stream/epoch.go:234-243 | cutting twice is cutting at the later point |
| `EpochHistory.CutBeforeIs` | internal/stream/epoch.go:234-243 | what is left is the end of the history from the latest term begun by s on, or all of it when none has |
| `EpochHistory.AnswerIs` | internal/stream/epoch.go:182-204 | the answer names the latest term not past the one asked for and ends it where the next began, or with the log; there is none exactly when every term is past it |
| `EpochHistory.FirstStartAbove` | internal/stream/epoch.go:207-215 | the searched index splits the history into starts up to s and starts after it |
| `EpochHistory.LeaderEpochCache.Assign` | internal/stream/epoch.go:131-152 | appends a newer term, ignores an older or undefined one, refuses one that starts before the last |
| `EpochHistory.LeaderEpochCache.TruncateFromSeq` | internal/stream/epoch.go:221-230 | drops exactly the terms that start at or after s and keeps the order |
| `EpochHistory.LeaderEpochCache.TruncateBeforeSeq` | internal/stream/epoch.go:234-243 | drops the terms that ended before s, keeping the one that covers it |
| `Metadata.TermsNeverReused` | internal/cluster/metadata.go:505-526 | no command moves a term back, and while a term stands so does its leader |
| `Metadata.ApplyKeepsValid` | internal/cluster/metadata.go:466-496 | a partition exists only for a recorded topic, after any command |
| `Metadata.MetadataStore.ApplyRegisterBroker` | internal/cluster/metadata.go:376-394 | the new state is the command's, of which `Insync.RegistrationIs` says what it is: session bumped on re-registration, fencing lifted |
| `Metadata.MetadataStore.ApplyUnregisterBroker` | internal/cluster/metadata.go:402-414 | removes the broker and drops it from every ISR, or refuses |
| `Metadata.MetadataStore.ApplyFenceBroker` | internal/cluster/metadata.go:418-442 | the new state is the command's, of which `Insync.FencedOutIff`, `EntersIff` and `LeavesIff` say who is in sync after it; changed exactly when the flag flips |
| `Metadata.MetadataStore.ShrinkISRLocked` | internal/cluster/metadata.go:449-463 | every ISR loses the node and nothing else changes |
| `Metadata.MetadataStore.ApplyCreateTopic` | internal/cluster/metadata.go:466-496 | records the topic and one fully in-sync partition per placement, or refuses |
| `Metadata.MetadataStore.ApplyAssignLeader` | internal/cluster/metadata.go:505-526 | the new state is the command's: a leader only under a strictly newer term (`Insync.LeaderChangesIff`) |
| `Metadata.MetadataStore.ApplyUpdateISR` | internal/cluster/metadata.go:533-577 | the new state is the command's, of which `Insync.StaleReportRefused`, `EntersIff`, `LeavesIff` and `CleanInOrder` say when it is refused and who is in sync after it |
| `Metadata.MetadataStore.ApplyReassign` | internal/cluster/metadata.go:580-607 | replaces the placement and keeps exactly the ISR members still placed |
| `Insync.EntersIff` | internal/cluster/metadata.go:376-607 | of every command: a node enters an ISR if and only if a report of the current term names it or is of the partition it leads, or a newer term comes with a set that holds it |
| `Insync.LeavesIff` | internal/cluster/metadata.go:376-607 | of every command: a node leaves an ISR if and only if it is unregistered, newly fenced, left out of a report of the current term that it does not lead, left out of a newer term's set, or no longer placed |
| `Insync.AdmittedByCurrent` | internal/cluster/metadata.go:533-577 | over every command sequence: whoever joined an ISR was let in by a report of the term current at that moment or by a newer term, never by a deposed leader |
| `Insync.StaleReportRefused` | internal/cluster/metadata.go:533-577 | a report of any term but the current one, older or newer, is refused and changes nothing |
| `Insync.UnregisteredOut` | internal/cluster/metadata.go:402-414 | an unregistered broker is in no ISR |
| `Insync.FencedOutIff` | internal/cluster/metadata.go:418-442 | exact: after fencing, the broker is in no ISR if and only if it was not fenced already or was in none before |
| `Insync.FencedReadmitted` | internal/cluster/metadata.go:418-577 | a broker that is in an ISR after it was fenced was let in again since, by a command current at the time |
| `Insync.FencedComesBack` | internal/cluster/metadata.go:533-577 | which happens, in every valid state with an unfenced replica: fence it, and a report of the current term that names it has it back, still fenced |
| `Insync.LeaderChangesIff` | internal/cluster/metadata.go:505-526 | leader and term change if and only if a newer term is assigned, and then to what it says |
| `Insync.PlacementChangesIff` | internal/cluster/metadata.go:580-607 | a placement changes only with its reassignment, and then to what it says |
| `Insync.RegistrationIs` | internal/cluster/metadata.go:376-442 | a broker is registered until it is unregistered; a registration is unfenced, keeps its address and rack, and has a session later than any before; only fencing changes it otherwise |
| `Insync.CreatedIff` | internal/cluster/metadata.go:466-496 | a partition comes to be if and only if its topic is new and as many placements as partitions are given, and then unled, in term 0 and with its whole placement in sync |
| `Insync.VersionsCount` | internal/cluster/metadata.go:376-607 | a refused command changes nothing, and every change is counted, of the store and of the partition |
| `Insync.CleanInOrder` | internal/cluster/metadata.go:545-560 | a report is kept in the order of first mention |
| `Segments.Segment.Append` | internal/stream/segment.go:234-261 | the bytes go in under the next sequence, with an index entry exactly when the interval since the last one is used up or there is none; they become a record of the segment when they are its frame; a read-only segment refuses and changes nothing |
| `Segments.Segment.Read` | internal/stream/segment.go:303-362 | returns exactly the run of records from the requested one, non-empty when there is one, cut only at the first limit reached |
| `Segments.Segment.Recover` | internal/stream/segment.go:172-230 | from any byte prefix of a laid-out file with a correct index: exactly the complete records, the right size and last sequence, an index correct for later appends |
| `Segments.Segment.TrimIndex` | internal/stream/segment.go:179-190 | keeps only index entries inside the file and starts the scan at a frame boundary |
| `Segments.Segment.Open` | internal/stream/segment.go:108-148 | opening a torn file yields the recovered segment; a read-only one is not truncated |
| `Segments.Segment.Create` | internal/stream/segment.go:76-99 | an empty writable segment |
| `Segments.Segment.TruncateTo` | internal/stream/segment.go:371-421 | leaves exactly the records below s, index included; refuses when read-only |
| `Segments.Segment.ScanForOffset` | internal/stream/segment.go:425-448 | finds the byte offset of record s |
| `Segments.Segment.ReopenWritable` | internal/stream/segment.go:479-503 | a read-only segment becomes writable with its contents unchanged, torn tail included; it is fit to append to exactly when it has none |
| `Segments.Segment.FirstTimestamp` | internal/stream/segment.go:560-566 | the first record's timestamp, 0 when empty |
| `Segments.SeekLands` | internal/stream/segment.go:291-298 | an index seek lands on a frame boundary not past the record sought, and no index entry up to that record lies past it |
| `Segments.FirstAbove` | internal/stream/segment.go:291-298 | the search splits the index at s |
| `Segments.ScanPrefix` | internal/stream/segment.go:195-213 | on any prefix of a laid-out file the scan gets each complete record and ends at a torn one |
| `Segments.EncodedPasses` | internal/stream/segment.go:303-362 | whatever the encoder produces is passed by a scan under its sequence, and decodes to the record if and only if its headers fit |
| `Segments.PassedAnywhere` | internal/stream/segment.go:303-362 | and so wherever in a file it lies |
| `Partitions.Partition.Append` | internal/stream/partition.go:182-236 | refines the flat list: one record at the end with the next sequence, the current term, a missing time filled in and everything else the client's, or exactly the error the source gives, nothing changed; with header strings too long for their fields the append is acknowledged all the same, scans pass the stored frame under its sequence, and a read does not get the record from it |
| `Partitions.Partition.AppendReplicated` | internal/stream/partition.go:253-322 | refines the flat list in every outcome; an unencodable record leaves only the learned term, and one with headers too long is acknowledged, passed by scans and not readable |
| `Partitions.Partition.TruncateTo` | internal/stream/partition.go:528-581 | on any segment layout leaves exactly the list prefix below s, with history, byte count and next sequence to match |
| `Partitions.Partition.DropFrom` | internal/stream/partition.go:545-556 | drops whole segments from s on, keeping a layout of the remaining log and its byte count |
| `Partitions.Partition.CutStorage` | internal/stream/partition.go:545-569 | the storage after a truncation is a layout of the log below s |
| `Partitions.Partition.Read` | internal/stream/partition.go:608-671 | a contiguous run from the requested record, or from the first for 0, across segments, non-empty when it exists, short only at the end or a budget; truncated exactly below the first record and closed exactly when it is |
| `Partitions.ReadStep` | internal/stream/partition.go:637-669 | one segment's turn never skips a record: it reaches the segment's end or fills a budget |
| `Partitions.Partition.EnforceRetention` | internal/stream/partition.go:777-832 | drops oldest segments while, and only while, one is due by size or by an age of more than the retention before now, never the last; the flat list only moves its horizon |
| `Partitions.Partition.Overdue` | internal/stream/partition.go:794-812 | decides exactly whether the oldest segment is due |
| `Partitions.Partition.Roll` | internal/stream/partition.go:585-603 | starts a new, empty segment at the next sequence without disturbing the others |
| `Partitions.Partition.Store` | internal/stream/partition.go:210-222 | one more record in the layout, byte count to match; a segment is added exactly when the active one holds a record and would grow past the segment size, the others stay, and the active one is within that size unless it holds this one record alone |
| `Partitions.Partition.BecomeLeader` | internal/stream/partition.go:416-435 | opens a newer term, or the exact refusal |
| `Partitions.Partition.ReassertLeadership` | internal/stream/partition.go:448-459 | reopens writes for the current term only |
| `Partitions.Partition.Resign` | internal/stream/partition.go:468-472 | stops writes and touches nothing else |
| `Partitions.Partition.EndOffsetForEpoch` | internal/stream/partition.go:503-507 | the flat list's answer |
| `Partitions.Partition.Close` | internal/stream/partition.go:835-856 | closing keeps what the partition stands for |
| `Partitions.LaidSize` | internal/stream/record.go:144-147 | frame boundaries are the running sizes of the records |
| `Partitions.RetainTwice` | internal/stream/partition.go:815-820 | moving the horizon twice is moving it to the later point |
| `Codec.RecordRoundTripIff` | internal/stream/record.go:150-238 | for any header order and any checksum, a framed record decodes to itself, epoch flag bit aside, if and only if every header key and value fits its 16-bit length |
| `Codec.BatchRoundTrip` | internal/replication/protocol.go:278-302 | decoding an encoded batch gives back topic, partition and what each of its frames decodes to, in order |
| `Codec.RecordsShipped` | internal/replication/protocol.go:278-302 | encoding records, shipping their frames and decoding the batch gives back the same records in the same order, whatever order their headers were written in |
| `Codec.SplitConcat` | internal/replication/follower.go:432-446 | splitting concatenated frames recovers them one by one |
| `Codec.HeadersRoundTrip` | internal/stream/record.go:86-132 | headers decode to the map they were listed from, in any order |
| `Codec.EncodedFrame` | internal/stream/record.go:144-191 | an encoded frame states its own length, decodes, and has the size encodedSize gives |
| `Codec.EncodableIff` | internal/stream/record.go:150-160 | the encoder accepts a record exactly when its body and key fit, whatever the header order |
| `Codec.DecodedHeadersFit` | internal/stream/record.go:107-132 | decoded headers always fit their length fields |
| `Codec.EncodeHeaders` | internal/stream/record.go:86-105 | writes every header exactly once |
| `Codec.EncodeRecord` | internal/stream/record.go:150-191 | the frame of the record under the order it happened to take, or the refusal |
| `Codec.ParseHeaders` | internal/stream/record.go:107-132 | the consuming loop computes the recursive decoder |
| `Codec.SplitBody` | internal/replication/follower.go:432-446 | the follower's frame loop computes the recursive split |
| `Codec.Footprint` | internal/stream/record.go:144-147 | encodedSize is the size of the encoded frame |
| `Codec.NextIsFirst` | internal/replication/follower.go:503-514 | the first frame of a body is sliced off exactly |
| `Windows.RunOk` | internal/queuelog/share.go:118-153 | in every reachable state: each sequence of the window is leased, available or retired and only one of them, the window is within MaxInFlight, the heap holds each available one once and otherwise only stale ones below base, and acked plus dead-lettered equals the base's advance plus the retired, absent a skip |
| `Windows.StepOk` | internal/queuelog/share.go:220-465 | each single lease, release, retirement, slide, skip and pop of a stale heap entry keeps that invariant |
| `Windows.DeliveryBound` | internal/queuelog/share.go:336-417 | in a clean window no record has been delivered more than MaxDelivery times, nor while it was leased |
| `Windows.SessionBound` | internal/queuelog/share.go:336-417 | over every run of a session whose releases are all nacks or expiries below the limit: no record is delivered more than MaxDelivery times, nor while it is leased |
| `Windows.Unbounded` | internal/queuelog/share.go:371-393 | releases that ignore the limit, as when the dead-letter route fails or a consumer leaves, allow any number of deliveries |
| `Windows.NeverAgain` | internal/queuelog/share.go:220-291 | a sequence the window has passed is never delivered again, a record rewritten there after a truncation included |
| `Windows.OpenedDeliversIff` | internal/queuelog/share.go:165-191 | exact: a session can deliver a sequence if and only if it is at or past the cursor and the horizon, so after a truncation below the cursor the rewritten records in between are lost to it |
| `Windows.ReleaseBetween` | internal/queuelog/share.go:294-308 | two deliveries of one record have a release between them |
| `Windows.RestartReaches` | internal/queuelog/share.go:165-191 | restarting from the base or any older cursor starts at or below every unfinished retained record |
| `Windows.OpenedOk` | internal/queuelog/share.go:165-191 | a window opened at a safe cursor satisfies the invariant |
| `Windows.OlderCursorSafe` | internal/queuelog/share.go:156-164 | an older cursor under a later horizon is still safe |
| `Share.CrashStillDelivers` | internal/queuelog/share.go:156-191 | at least once across a crash: whatever prefix of the cursor log survives and however far retention moved, the reopened window starts at or below every unfinished retained record, unless unread bytes pass for a record by accident |
| `Share.SharePartition.constructor` | internal/queuelog/share.go:165-191 | opens at the committed cursor or the retention horizon, whichever is higher, with the defaults applied, the lease time included |
| `Share.SharePartition.Acquire` | internal/queuelog/share.go:220-291 | strictly increasing deliveries, released ones first and oldest first, each the record it was and counted once more, then unread records of the log; each ends leased to the consumer with the delivery's count and deadline, unless retention has overtaken it; no lease whose deadline is still ahead is touched, retention aside, and none whose deadline has passed outlives the call; fewer than asked only with a full window or a drained log |
| `Share.SharePartition.Redeliver` | internal/queuelog/share.go:235-243 | leases available records oldest first and leaves none unless the request is full |
| `Share.SharePartition.PopOne` | internal/queuelog/share.go:236-243 | pops the smallest waiting sequence and leases it, unless stale |
| `Share.SharePartition.Fetch` | internal/queuelog/share.go:245-287 | leases the log's next records up to the window bound; skips only what retention removed |
| `Share.SharePartition.FetchOnce` | internal/queuelog/share.go:256-287 | one read of the log: skipped, drained, broken or admitted, exactly when each applies |
| `Share.SharePartition.AdmitAll` | internal/queuelog/share.go:276-286 | admits consecutive records, each leased once |
| `Share.SharePartition.Ack` | internal/queuelog/share.go:311-332 | a consumer is served if and only if it holds a live lease of the record, and gets the source's error otherwise with nothing changed; the ack retires the record and slides the base as far as it goes, committing it, with a failed commit exactly when the base moved and the cursor store is closed |
| `Share.SharePartition.Nack` | internal/queuelog/share.go:336-368 | served as for an ack; below the limit and asked to requeue, or where the dead-letter route fails, the record is available again with its count, otherwise it is done; the base slides as far as it goes and is committed, with a failed commit exactly when it moved and the cursor store is closed |
| `Share.SharePartition.DeadLetter` | internal/queuelog/share.go:383-392 | retires a routed record and releases an unrouted one |
| `Share.SharePartition.Free` | internal/queuelog/share.go:371-376 | one lease becomes available, once in the heap |
| `Share.SharePartition.ReapExpired` | internal/queuelog/share.go:404-417 | ends a lease if and only if its deadline has passed: dead-lettered at the limit where the route works, otherwise available again with its count; every other lease stands; the base slides exactly to the first sequence that is not retired and is committed |
| `Share.SharePartition.Advance` | internal/queuelog/share.go:426-440 | slides past exactly the contiguous retired run and commits the new base, unless the store is closed |
| `Share.SharePartition.SkipTo` | internal/queuelog/share.go:444-465 | abandons everything below the horizon, never moves back, and commits the new base |
| `Share.SharePartition.ReleaseLeases` | internal/queuelog/share.go:477-503 | frees exactly everyone's or one consumer's leases, each record with its count, touches no other, and counts them |
| `Share.SharePartition.Close` | internal/queuelog/share.go:546-550 | closing keeps the window |
| `SeqHeaps.SeqHeap.Push` | internal/queuelog/share.go:73-74 | adds one element and keeps the heap order |
| `SeqHeaps.SeqHeap.Pop` | internal/queuelog/share.go:75-81 | removes one occurrence of the minimum and keeps the heap order |
| `SeqHeaps.HeapMin` | internal/queuelog/share.go:66-72 | the root is the minimum |
| `Cursors.CrashKeepsOlderCursors` | internal/stream/cursor.go:116-154 | loading any prefix of the log gives every cursor at its committed position or an older one |
| `Cursors.CrashedLoad` | internal/stream/cursor.go:116-154 | loading a prefix gives the positions after some number of its commits |
| `Cursors.ReplayLog` | internal/stream/cursor.go:116-154 | loading a whole log gives the positions its commits fold to |
| `Cursors.LoadsIff` | internal/stream/cursor.go:134-137 | the loader takes a commit back if and only if its key is at most 65526 bytes |
| `Cursors.TornTailHidesCommit` | internal/stream/cursor.go:85-112 | a failing input: one stray byte after any log puts the next commit out of the loader's reach, whatever the checksum |
| `Cursors.ReopenedIff` | internal/stream/cursor.go:85-154 | for every log, every torn record left after it and every run of later commits: the next load gives the positions if and only if nothing of the torn record was left, the accident that its bytes pass for a record aside |
| `Cursors.LoadStops` | internal/stream/cursor.go:116-154 | a load of a log, bytes it cannot read and commits after them gives the log's positions alone |
| `Cursors.AccidentCollides` | internal/stream/cursor.go:139-146 | where the torn record kept its header, that accident is other bytes with the checksum of its body |
| `Cursors.StrayByteNeverPasses` | internal/stream/cursor.go:134-146 | one stray byte before a commit is never that accident |
| `Cursors.AppendMissed` | internal/stream/cursor.go:371-416 | re-appending missed commits after the swap: with keys the loader takes, the new log replays to the positions if and only if no snapshot key was deleted meanwhile |
| `Cursors.WriteCompacted` | internal/stream/cursor.go:342-361 | one record per live key, replaying to the snapshot |
| `Cursors.Load` | internal/stream/cursor.go:116-154 | for any bytes at all: the reading loop computes the recursive replay, and splits the file into the commits it read and the bytes it cannot |
| `Cursors.CursorStore.constructor` | internal/stream/cursor.go:85-112 | opens any file with the positions its readable part gives; unread bytes stay in the file; a cut log gives a prefix of its commits |
| `Cursors.CursorStore.Commit` | internal/stream/cursor.go:174-202 | the key stands at the larger of its position and the committed one and no other key moves; says exactly when the next load will miss the commit: after unread bytes, after a missed one, or with a key over the loader's bound |
| `Cursors.CommitsKeepHighest` | internal/stream/cursor.go:174-202 | after any commits in any order a key stands at the highest of its old position and those committed for it, and only such keys are there |
| `Cursors.CursorStore.ReloadIff` | internal/stream/cursor.go:85-202 | in every reachable state without deletions the next load gives the positions if and only if no commit since the last load went past what it reads |
| `Cursors.CursorStore.DeletedReloadIff` | internal/stream/cursor.go:261-279 | a deleted key comes back with the next load exactly until a compaction drops it from the file |
| `Cursors.CursorStore.CrashOlder` | internal/stream/cursor.go:116-154 | any prefix of the file loads every cursor at its committed position or an older one |
| `Cursors.CursorStore.Forget` | internal/stream/cursor.go:261-270 | the unlocked half of a deletion: out of the positions, still in the file |
| `Cursors.CursorStore.CommitEach` | internal/stream/cursor.go:174-202 | several callers' commits in turn keep the maximum per key |
| `Cursors.CursorStore.Swap` | internal/stream/cursor.go:371-417 | commits since the snapshot survive the swap, unread bytes go, and exactly the snapshot keys deleted since are back in the file; a closed store is left alone |
| `Cursors.CursorStore.Compact` | internal/stream/cursor.go:320-417 | with any commits landing between snapshot and swap the positions are those commits applied, and the file replays to them exactly when every key is within the loader's bound |
| `Cursors.CursorStore.Delete` | internal/stream/cursor.go:261-279 | removes one key from positions and file, with any commits landing before the snapshot and before the swap, of that key too |
| `Planner.Rebalance` | internal/cluster/planner.go:138-211 | at most the cap and one move per partition, each onto an unfenced broker with a replication address and the one chosen for its slot under the loads the moves before it leave; the plan lowers the measure, pushes no broker over the ceiling, and is empty only when nothing is worth moving |
| `Planner.Settle` | internal/cluster/planner.go:138-211 | planning and carrying out the plan, sweep after sweep, ends with nothing worth moving, every partition as large as before and, for the tolerances the source allows, no usable broker over the ceiling |
| `Planner.SettledBalanced` | internal/cluster/planner.go:140-235 | where nothing is worth moving no usable broker holds more than the ceiling |
| `Planner.PlanStep` | internal/cluster/planner.go:178-209 | one more move keeps all of that |
| `Planner.HopLowers` | internal/cluster/planner.go:187-203 | a move off a dead or overloaded broker onto one with room lowers the measure |
| `Planner.PickTarget` | internal/cluster/planner.go:218-252 | the best score among brokers that lack the partition and have room, or none exactly when there is none |
| `Planner.ScoreOrders` | internal/cluster/planner.go:231-252 | the score puts load first; a rack already in use loses between brokers of equal load, and only there |
| `Planner.TargetBest` | internal/cluster/planner.go:218-252 | told of the brokers: every other broker that could take the replica holds more, or as many and in a rack that is no better, unlabelled brokers counting as one rack |
| `Planner.PlanSlot` | internal/cluster/planner.go:183-208 | the first replica that should go and has somewhere to go, with the best-scored target, or none exactly when there is none |
| `Planner.RacksInUse` | internal/cluster/planner.go:222-227 | exactly the racks of the other replicas |
| `Planner.CountLoad` | internal/cluster/planner.go:154-166 | the replicas held by each usable broker, idle ones included, and the total |
| `Planner.LiveBrokers` | internal/cluster/planner.go:263-272 | the usable brokers, which are exactly the unfenced ones with a replication address (`Planner.UsableIff`) |
| `Planner.UsableIff` | internal/cluster/planner.go:263-272 | a broker is usable if and only if it is listed, unfenced and has a replication address |
| `Planner.UsableIdIff` | internal/cluster/planner.go:263-272 | the same by name |
| `Planner.PlanTargets` | internal/cluster/planner.go:187-209 | every move of a plan is onto a broker that can host a partition |
| `Planner.WorthwhileIff` | internal/cluster/planner.go:178-235 | a move is worth making if and only if the source cannot host the partition, fenced ones included, or holds more than the ceiling, and the target can host it, lacks it and is below the ceiling |
| `Planner.ApplyMoveKeeps` | internal/cluster/rebalance.go:9-17 | a completed move keeps the list distinct and as long, and shifts one unit of load |
| `Placement.Place` | internal/cluster/planner.go:92-130 | refuses exactly when no broker is usable or the factor (three by default) exceeds them, panics exactly for one broker and at least one partition, and otherwise gives each partition distinct brokers, all unfenced and with a replication address, with preferred leaders spread within one, each list being the stride walk over the interleaved order |
| `Placement.PlaceOne` | internal/cluster/planner.go:111-127 | the stride walk ends and yields distinct replicas starting at offset i, the list `PlaceList` defines |
| `Placement.NextFree` | internal/cluster/planner.go:120-124 | the walk forward ends at the first unused broker |
| `Placement.LeadsSpread` | internal/cluster/planner.go:109-117 | any two brokers' preferred leaderships differ by at most one |
| `Placement.InterleaveByRack` | internal/cluster/planner.go:279-306 | a permutation of its input that takes one broker of every rack still having one, round after round |
| `Placement.GroupByRack` | internal/cluster/planner.go:280-295 | every rack that has brokers gets one group, holding exactly its brokers in order |
| `Placement.SameRackIff` | internal/cluster/planner.go:280-290 | two brokers count as one rack if and only if they carry one label, or are one unlabelled broker, or one's label is the mark that stands for the other |
| `Placement.Round` | internal/cluster/planner.go:298-304 | one more broker of every rack that still has one, rack by rack |
| `Racks.PlacedAt` | internal/cluster/planner.go:111-127 | the stride walk in closed form: replica j of partition i lands a stride multiple past offset i, shifted by one for every full turn of the stride around the brokers |
| `Racks.WrapDiffers` | internal/cluster/planner.go:111-127 | the stride does its work: with more than two brokers, a partition one turn later has the same preferred leader and another first follower |
| `Racks.SeparatedAnyIff` | internal/cluster/planner.go:81-127 | rack separation decided for racks of any sizes: partition i's replicas are in different racks if and only if their landings are, in the rack order that the names and sizes of the racks give |
| `Racks.OrderRacks` | internal/cluster/planner.go:274-306 | the racks along the interleaved order are determined by the names and sizes of the racks |
| `Racks.SeparatedIff` | internal/cluster/planner.go:81-92 | for r racks of equal size in closed form: partition i's replicas are in different racks if and only if there are at most as many as steps before the stride returns to the first rack, or at most r of them and the stride returns to the first rack only at the first broker |
| `Racks.LopsidedShares` | internal/cluster/planner.go:81-92 | a failing input: usable racks of three and one, factor two; however the racks are ordered the third partition's replicas share a rack |
| `Racks.EvenShares` | internal/cluster/planner.go:81-92 | a failing input: two usable racks of two, factor two; however the racks are ordered the fifth partition's replicas share a rack, its stride being the rack count |
| `Racks.PlaceLopsided` | internal/cluster/planner.go:92-130 | what `Place` returns for the first of them has two replicas in one rack |
| `Racks.PlaceEven` | internal/cluster/planner.go:92-130 | what `Place` returns for the second has too |
| `Racks.RoundsRotate` | internal/cluster/planner.go:274-306 | equal racks are interleaved in strict rotation |
| `Racks.RoundSeparated` | internal/cluster/planner.go:274-306 | no round takes two brokers of one rack, whatever the rack sizes |
| `Controllers.RunSafe` | internal/cluster/rebalance.go:45-177 | under any interleaving of fencing, ISR reports, elections, lost leaderships and the separate commands of moves, every partition keeps a duplicate-free ISR inside its replicas, a leader that is empty or a replica, and no fewer replicas than at creation, one more while a move is in flight |
| `Controllers.ReachedSafe` | internal/cluster/rebalance.go:45-177 | so every state reached from an empty cluster is safe, and its brokers are registered under their own names |
| `Controllers.StepSafe` | internal/cluster/rebalance.go:45-177 | each single command keeps that |
| `Controllers.SourceLeavesIff` | internal/cluster/rebalance.go:122-176 | in every phase: a pass removes the source exactly when its guards say so, off the leadership and with no other replica lost; the destination is in sync afterwards if and only if it was before, and the source leaves with it out of sync only in the last phase |
| `Controllers.RemoveIff` | internal/cluster/rebalance.go:164-175 | of the removing command alone, wherever in a run it is applied: only the source leaves, and the destination is in sync afterwards if and only if it is then |
| `Controllers.ReportBetweenDrops` | internal/cluster/rebalance.go:122-175 | in every safe state with a caught-up move whose source does not lead, an ISR report between the notice and the removal of one pass drops the source with the destination out of sync |
| `Controllers.NeverQuietAgain` | internal/cluster/rebalance.go:63-67 | a destination that no ISR report names holds up every further move: over every run the partition keeps all its replicas, the move given up or not, and the cluster is never quiet again |
| `Controllers.BegunStuck` | internal/cluster/rebalance.go:82-102 | every move starts in that state |
| `Controllers.AdvanceIsRun` | internal/cluster/rebalance.go:113-176 | a pass over a move is its commands one after the other, so runs may put anything allowed between them |
| `UncaughtMove.DropsSourceUncaught` | internal/cluster/rebalance.go:141-176 | a failing run from an empty cluster of four registered brokers and five partitions: an ISR report between two passes of the last phase, and the source leaves with the destination out of sync and one in-sync copy of three |
| `UncaughtMove.Passes` | internal/cluster/rebalance.go:141-176 | its two passes are what the controller's own step does, the hand-over refused the first time |
| `UncaughtMove.PlannerReturns` | internal/cluster/planner.go:140-215 | for the run's brokers and placements and a cap of one, the planner returns exactly its move |
| `UncaughtMove.SweepFinds` | internal/cluster/rebalance.go:45-69 | and a sweep finds exactly those: every partition in sync, the registered brokers and the placements |
| `UncaughtMove.MoveIsWorthwhile` | internal/cluster/planner.go:140-235 | the source holds one replica more than the ceiling and the destination none |
| `UncaughtMove.ElectedByController` | internal/cluster/controller.go:372-402 | its first elections are the ones the controller makes of the metadata, whatever its settings |
| `UncaughtMove.PlacedByPlanner` | internal/cluster/planner.go:111-127 | its partitions are placed as the planner places them |
| `Controllers.ElectionSound` | internal/cluster/controller.go:372-402 | the elected node is a live replica; without unclean elections it is in sync, and none is elected exactly when no in-sync replica is live |
| `Controllers.ElectsRightly` | internal/cluster/controller.go:372-402 | the elected node is the one that should lead: a healthy leader unless the preferred replica is healthy and wanted back, else the healthy replica placed first, else, where unclean elections are allowed, the live one placed first, else nobody |
| `Controllers.FirstOf` | internal/cluster/controller.go:388-392 | the first allowed id in placement order, or none exactly when there is none |
| `Controllers.Controller.RepairLeadership` | internal/cluster/controller.go:313-356 | whoever should lead each partition, told from its replicas, its ISR and the unfenced brokers, leads it afterwards, at the next term where that is a change and untouched where it is not; a run of the step system |
| `Controllers.Controller.RepairOne` | internal/cluster/controller.go:319-355 | the same of one partition, the others untouched |
| `Controllers.Controller.StartMove` | internal/cluster/rebalance.go:82-102 | expands the replica set first, or does nothing |
| `Controllers.Controller.AdvanceOne` | internal/cluster/rebalance.go:113-176 | one move's step: wait, abandon, hand leadership over, shrink |
| `Controllers.Controller.RemoveSource` | internal/cluster/rebalance.go:142-175 | leadership off the source before the source leaves the set |
| `Controllers.Controller.AdvanceMoves` | internal/cluster/rebalance.go:105-177 | every move in flight advanced exactly once, in any order, and no partition without a move touched; a run of the step system |
| `Controllers.AdvanceLocal` | internal/cluster/rebalance.go:113-176 | a pass over one move depends on its partition alone and changes no other partition and no other move |
| `Controllers.MoveEndsIff` | internal/cluster/rebalance.go:113-176 | a pass ends a move if and only if its destination is still out of sync more than the timeout after its start, and then leaves the partition as it is, or the source could be vacated: it does not lead, or the leadership went to another in-sync replica |
| `Controllers.Controller.PlanRebalance` | internal/cluster/rebalance.go:45-79 | starts moves only when enabled, quiet and below the cap, all from one plan of the planner for the brokers and placements of the metadata, onto registered unfenced brokers with an address, never touching a move in flight; and then begins every move of the plan that it can |
| `Controllers.Controller.BeginAll` | internal/cluster/rebalance.go:69-79 | a partition gains the destination if and only if its move is begun, and a move is not begun only because the partition is busy or gone or holds the destination already, because the command is not applied, or for want of room |
| `Controllers.BeginChanges` | internal/cluster/rebalance.go:82-102 | a move begins if and only if the command is applied and the destination is new to the partition, and changes nothing but its placement and the list of moves |
| `Controllers.QuietIff` | internal/cluster/rebalance.go:63-67 | in a safe state the sweep finds the cluster quiet if and only if every replica of every partition is in sync |
| `Matcher.AcceptsIffGenerates` | internal/broker/exchange.go:112-113 | the computed language is exactly the words generated by reading * as one word and # as any number |
| `Matcher.MatchParts` | internal/broker/exchange.go:120-146 | terminates and accepts exactly that language |
| `Matcher.MatchSegments` | internal/identity/acl.go:446-469 | terminates and accepts exactly the same language |
| `Matcher.RoutingMatch` | internal/broker/exchange.go:114-118 | a routing key matches exactly when the pattern generates its words |
| `Matcher.AccessMatch` | internal/identity/acl.go:439-444 | the shortcut included, the same as the exchange's matcher on every input |
| `Matcher.WordsRoundTrip` | internal/broker/exchange.go:115-116 | splitting at dots loses nothing and leaves no dot inside a word |

## Left out

- Raft, its transports and its snapshots: the metadata log is one agreed command sequence. A Raft apply that times out and still lands later is not modelled.
- Goroutine scheduling, wake-up channels, timers, sockets and fsync timing: a lock-protected section is one step, time is an input, and writes are in the file at once.
- Reconcile passes: one pass reads one metadata snapshot and is atomic with respect to session traffic; views never go backwards, also across a restart, and a restart loses no record of the log.
- Sessions: addressed by node rather than by address, and one partition at a time; that partitions share a session shows only as the `rebuilt` flag of a pass.
- Machine integers: epochs and sequences are unbounded in the protocol; the 32- and 64-bit widths are explicit in the codec, and the storage classes require that the counters are not exhausted.
- Survival of acknowledged records across an election: the ISR admits lagging followers, so it does not hold.
- Partitions.Partition.Append: after a record whose headers do not fit, the acknowledgement, the bytes written, how scans pass them and that they do not read back are stated; the refinement of later operations on that partition is not.
- Partitions.Partition.AppendReplicated: the same after such a record.
- Opening a partition directory with several segments, the epoch checkpoint file, and batch appends: the segment's own recovery is modelled; the rest repeats single appends.
- Segments.Segment.Recover: one crash of a file whose index was correct; the on-disk index is not trimmed by recovery, so repeated crashes are not covered.
- Cursors.CursorStore.Swap: one compaction at a time, since all share one temporary file.
- Share.SharePartition.constructor: requires the cursor found to be one that earlier sessions left safe, which CrashStillDelivers provides.
- Sorting of brokers, assignments, racks and compacted keys: results hold for any order, so the order is not modelled. The library's binary search is a function with its contract.
- Planner.Rebalance: the average is an exact quotient where the source goes through a float.
- Metadata subscriptions and events, ISR reporting, quorum acknowledgement, liveness sweeps, topic creation through the controller: plumbing around commands that are modelled.
- The in-memory broker, WAL, gateways, identity rules other than matching, ring buffers, dedup, presence and the client libraries.
