# Verification model of a Raft-replicated key-value store

This project models the consensus core of the repository in Dafny and proves its safety. It has three layers.

**The code's own objects.** `Engines.Engine`, `Wals.Wal`, `Logs.Log`, `States.StateStore`, `Nodes.Node` and
`Batching.Batcher` are classes with the fields of the Go structs, and methods that follow their control flow.
Each method is proved to perform one transition of a pure specification (`LogSpec`, `NodeSpec`, `Readers.Scan`),
including what an I/O error part-way through leaves on disk. `Meanings` says of every transition what it does to each
field, in terms of the fields alone.

**The protocol.** `Cluster` is a step system over any number of nodes, whose steps are those same `NodeSpec`
transitions. Messages may be lost, repeated, delayed and reordered without limit, and a node may restart at any
moment, or die half-way through storing a request. The proofs reason over a history of votes, leaders' logs and
acceptances (`Histories`) on which nothing a node does depends. `Invariants`, `Preservation`, `Replication` and `Commitment` prove one
inductive invariant; `Safety` reads the theorems off it, for every run.

**Where the code is looser than its guarantees.** `Races` has the exact conditions under which a single transition keeps a
guarantee. `Deposed` (five nodes), `LateSetTerm` and `StaleRead` (three) are whole runs, from the initial state, at whose end a
guarantee fails. `Runs` has the pieces the runs are built of.

## How the model relates to the code

- Indexes are 1-based. A log is the sequence of real records; the sentinel at index 0 is a field only of `Logs.Log`.
- Some code checks under one lock and acts under another, or does not compare terms at all. `Cluster.Enabled` makes each such
  pair a single step, or adds the comparison. For each, what fails without it and when exactly it does not:
  - `Propose` checks the role and then appends (internal/raft/node.go:320-330): `Races.StaleAppendBreaksOrder` and
    `Races.AppendKeepsOrderIff`. The order of terms is not all that is at stake: `Races.AppendMatchesIff` is the exact
    condition for Log Matching, and the same role and term at the append are enough for both.
  - `replicateTo` reads the term and the anchor's index, then the anchor's term, then the entries, at three moments
    (internal/raft/node.go:412-427). Log Matching, and with it State Machine Safety, is false of this:
    `Deposed.TornReadBreaksMatching` is a run at whose end such a request makes two logs agree at one index and differ below it,
    and `Deposed.TwoRecordsApplied` goes on from there, by ordinary steps, to two nodes with different records applied at one
    index. `Races.TornMatchesIff` and `Races.TornKeepsOrderIff` are the exact conditions on the three reads for Log Matching and
    for the order of terms, and `Races.SteadyReadIsWhole` shows that still leading the same term after the last read is enough
    for everything proved here.
  - A leader hearing a success to a request of another of its terms counts it (internal/raft/node.go:445-449):
    `Deposed.StaleReplyCommits` and `Races.ReplyKeepsLeaderIff`.
  - `Propose` takes a success in any term for an acknowledgement and then looks only at the commit index
    (internal/raft/node.go:345-375). `Cluster.ProposeSucceeds` is that rule; the step `Returns` also wants the entry at the
    index still to be of the proposal's term. `Deposed.LostProposal` is a run in which success would be reported for a record
    that is gone. `Safety.SuccessIsCommittedIff` and `Safety.SuccessSurvivesIff` show that the added comparison is exact: the
    record is committed, and is held by later leaders, if and only if it holds.
  - `probe` compares a term and then sets it (internal/raft/read.go:335-338): `LateSetTerm.TwoWinners` and
    `Races.SetTermIsStableIff`.
- While `Propose` applies, and between that and its last look at the commit index, other calls may lower and raise that index,
  so success can be reported before the local apply (internal/raft/node.go:366-375, 511-531), against
  internal/raft/node.go:317-318. `Races.SuccessBeforeApply` and `Races.SuccessAfterLoweredCommit` are such inputs.
  `Races.SuccessIsAppliedIff` is the exact condition, over every interleaving of turns of applying with other calls.
- The repository's README.md:170-173 says that commit indexes must never decrease and that a guard fixed it. The code
  still lets a follower's commit index move down (internal/raft/node.go:581-584). The model follows the code.
  `Races.CommitMovesDownIff` and `Races.AppliedTrailsIff` give the exact conditions, and no theorem relies on a
  follower's commit index being monotone.
- The writer limits no record's size and the reader refuses payloads over 8 MiB. `Frames.FrameReadsBack` states this
  as an equivalence.
- The strong-read theorem supposes that nothing inherited from earlier leaders is left above the captured commit index
  (`NodeSpec.Settled`) and that the round is confirmed in the term it began in. The code checks neither, and neither can be
  dropped: `StaleRead.ConfirmedReadCanBeStale` is a run in which a round confirmed in its own term, but not settled, returns an
  index below an acknowledged one, and `Deposed.RoundAcrossTermsIsStale` one in which a settled round confirmed in a later term
  of the same leader does. `Commitment.OwnTermSettles` shows that committing the new leader's no-op makes the first true.
- A persist or disk error is fail-stop: the methods state what is left behind, and no step follows but a restart.
- JSON and CRC-32 are arbitrary fixed functions. Read-back is claimed for the records, and votes for the pairs, that the
  encoding gives back.

## Model

| member | source | states |
|---|---|---|
| Safety.ElectionSafety | internal/raft/election.go:139-226 | over any run, with restarts between voting and winning and vote counts that finish late, at most one node ever wins a term |
| Safety.OneLeaderPerTerm | internal/raft/election.go:215-252 | two leaders of one term, at the same or different moments of a run, are the same node |
| Safety.LogMatchingInRun | internal/raft/log.go:197-250 | where each request's term, anchor and entries are read at one moment: any two logs of a run that agree on index and term at one point are identical up to it; every record carries its position; terms never decrease along a log nor exceed the node's term |
| Safety.LeaderAppendOnly | internal/raft/node.go:319-333 | while a node leads one term its log only grows at the end |
| Safety.LeadershipIsUnbroken | internal/raft/election.go:215-226 | a node that leads a term at two moments leads it all the while |
| Safety.LeaderCompletenessInRun | internal/raft/node.go:205-262 | once a quorum accepted an entry from a leader of the entry's own term, every leader of that or a later term holds it and everything before it |
| Histories.LeaderCompleteness | internal/raft/node.go:199-212 | the same at the moment of election, by induction on terms: the winner's log already had the whole committed prefix |
| Histories.CommittedAgree | internal/raft/node.go:467-501 | two committed prefixes never disagree |
| Histories.LogsMatch | internal/raft/log.go:203-208 | two logs whose every prefix ending in term T is a prefix of T's leader log satisfy Log Matching |
| Safety.StateMachineSafety | internal/raft/node.go:507-533 | where each request is read at one moment: any two applications of one index, on one node or two, before or after restarts, applied the same record |
| Safety.ReplicasAgree | internal/engine/engine.go:38-45 | a node's map is the replay of exactly what it applied; where each request is read at one moment, nodes that applied equally far have equal maps |
| Safety.CommitSoundness | internal/raft/node.go:581-584 | where each request is read at one moment: everything at or below any node's commit index is committed, with the committing leader's records; two nodes agree up to the smaller commit index |
| Safety.CommittedNeverTruncated | internal/raft/log.go:216-250 | no step, however late a delivery or wherever a crash falls within it, changes a log at or below an index committed there |
| Safety.MarkedNeverTruncated | internal/raft/node.go:550-587 | in a run, no step changes what a node has marked committed or has applied |
| Safety.StepMovesLogs | internal/raft/node.go:550-587 | a step either extends a node's log or absorbs part of the log of the leader of the node's new term |
| Safety.AcknowledgedSurvives | internal/raft/node.go:319-376 | a write whose proposer met the code's conditions while the entry at its index was still of its term is, that very record at its index, in the log of every leader of the term its node was then in or a later one, at any later time |
| Safety.SuccessIsCommittedIff | internal/raft/node.go:345-375 | when all that `Propose` goes by holds, its record is committed if and only if its node's log still has an entry of the proposal's term at the index |
| Safety.SuccessSurvivesIff | internal/raft/node.go:345-375 | over a run, the record is then in the log of every leader of its node's term or a later one if that comparison holds, and in none of them if it does not |
| Deposed.LostProposal | internal/raft/node.go:345-375 | a run on any five nodes at whose end a proposer has all it goes by, one answer being to a request of a later term, and its record is neither in its node's log nor committed |
| Safety.AcknowledgedApplied | internal/raft/node.go:364-376 | every node that has applied as far as an acknowledged index has applied that record there |
| Safety.ReadIsLinearizable | internal/raft/read.go:144-212 | a round confirmed by a majority in its own term returns an index at or above everything acknowledged anywhere before it began, if nothing inherited was left above the captured commit index |
| Safety.StrongReadSeesAcknowledged | internal/raft/read.go:214-243 | any node that has then applied as far as that index has a map built from every write acknowledged before the round |
| Safety.LeaderFacts | internal/raft/node.go:445-449 | where replies to requests of other terms are not counted, a leader's matchIndex for a peer names only a prefix that peer accepted in this very term |
| Races.ReplyKeepsLeaderIff | internal/raft/node.go:445-449 | a success heard by a leader keeps that true if and only if the peer accepted that far in the current term; a request of the current term is enough |
| Deposed.StaleReplyCommits | internal/raft/node.go:445-449 | a run at whose end a reply of term 1, heard in term 3, makes a leader commit an entry that two of five nodes have |
| Safety.PairIsStable | internal/raft/node.go:179-197 | no step, a restart included, lowers a term or changes a vote cast in it |
| Safety.PairIsPersistent | internal/raft/state.go:36-94 | over any run a node's term never decreases and its votes in one term are for one candidate |
| Safety.AppliesInOrder | internal/raft/node.go:507-533 | an index is applied only as the next one; only a restart resets what was applied; nothing else touches it, commit indexes that move down included |
| Safety.RunGrows | internal/raft/node.go:319-376 | what a run has voted, elected, accepted, acknowledged and applied is never undone |
| Commitment.RunKeeps | internal/raft/node.go:191-587 | the invariant holds in every state of every run |
| Commitment.StepKeeps | internal/raft/node.go:191-587 | the invariant is inductive over all fifteen kinds of step |
| Preservation.WinIsFirst | internal/raft/election.go:180-226 | a candidate with a majority of grants that still is in that candidacy finds the term unwon |
| Preservation.OneWinner | internal/raft/node.go:238-244 | a second quorum of votes in a won term can only be for its winner |
| Replication.HandleNode | internal/raft/node.go:550-587 | handling a request keeps the node's invariant; a success means the whole request is accepted in that term, a rejection keeps the log |
| Replication.CrashNode | internal/raft/log.go:225-246 | dying after any entry, or between the cut and the store of one, leaves a node that satisfies the invariant |
| Replication.AbsorbRetains | internal/raft/log.go:225-246 | whatever was accepted from earlier leaders is kept, or some leader in between was elected without it |
| Replication.CommittedSurvives | internal/raft/log.go:225-246 | taking in any part of a later leader's log keeps every committed entry |
| Commitment.CountIsCardinality | internal/raft/node.go:488-498 | the counting loop counts distinct members |
| Commitment.CommitIsHighest | internal/raft/node.go:467-501 | the scan commits exactly the highest current-term index above the commit index known to be on a majority, and nothing if there is none |
| Commitment.OwnTermAnswersCommit | internal/raft/node.go:339-362 | successes from a majority to requests of the proposal's own term that reach its index make it committed by that term's leader |
| Commitment.MarkedRecord | internal/raft/node.go:467-501 | whatever a node holds at or below its commit index, a leader of its term or an earlier one held there and had marked committed |
| Commitment.OwnTermSettles | internal/raft/election.go:230-236 | an own-term entry at the commit index leaves nothing inherited above it |
| Commitment.OwnTermCovers | internal/raft/read.go:151-153 | a settled leader's commit index covers everything that leaders of its or earlier terms have marked committed |
| Commitment.NewerLeaderSeen | internal/raft/read.go:173-211 | once a later term has had a leader, a quorum is already past this term, so no round of it that begins now can be confirmed in it |
| Meanings.VoteGrantedIff | internal/raft/node.go:199-262 | a vote is granted if and only if the term is not an older one, the node has voted for nobody else in it, and the candidate's log ends in a later term, or in the same one and is at least as long |
| Meanings.VoteMeaning | internal/raft/node.go:215-262 | reply and node are in the later term; the vote is the candidate's, cleared or kept; only a new term ends a role; nothing else changes |
| Meanings.TermMeaning | internal/raft/node.go:188-197 | a new term clears vote, leader and role and nothing else |
| Meanings.CandidacyMeaning | internal/raft/election.go:139-166 | a candidate is one term on, voted for itself, and describes its log by length and last term |
| Meanings.WinMeaning | internal/raft/election.go:215-252 | the current election makes a leader that guesses every peer caught up and knows of no match; any other does nothing |
| Meanings.AppendMeaning | internal/raft/log.go:127-139 | one record is added, with the command's own content, the term, and the next position |
| Meanings.RequestMeaning | internal/raft/node.go:417-427 | a request carries everything past the guess, anchored just before it, with the sender's term and commit index |
| Meanings.ProbeMeaning | internal/raft/read.go:321-327 | a probe fits every log, changes none, and covers index 0 |
| Meanings.ReplyMeaning | internal/raft/node.go:434-462 | a newer term deposes; a success fixes match and guess; a rejection lowers the guess to just past the peer's log, or by one, never below 1; nothing else changes |
| Meanings.CommitMeaning | internal/raft/node.go:467-501 | committing moves only a leader's commit index, and never down |
| Meanings.FollowMeaning | internal/raft/node.go:550-595 | a request succeeds if and only if its term is not older and its anchor is there; the node follows its sender in its term; a refusal leaves the log; the answer carries term and log length |
| Meanings.StoreMeaning | internal/raft/log.go:225-246 | after a success the log is whole if it held every entry by position and term, and otherwise is cut at the first it did not, with the rest of the request from there |
| Meanings.AdoptedCommit | internal/raft/node.go:579-584 | the commit index after any request: the leader's, capped by the request's end, on a success with the leader ahead; unchanged otherwise |
| Meanings.TurnMeaning | internal/raft/node.go:511-531 | a turn of applying takes the next entry, if committed and stored, and has its operation's effect on its key |
| Meanings.RestartMeaning | internal/raft/state.go:9-27 | term, vote and log survive a restart, and nothing else |
| Meanings.SettledIff | internal/raft/election.go:230-236 | a leader is settled if and only if nothing of an earlier term is above its commit index |
| Races.CommitMovesDownIff | internal/raft/node.go:581-584 | a follower's commit index moves down if and only if the request is not of an older term, its anchor matches, its leader is ahead, and it ends before the follower's commit index |
| Races.AppliedTrailsIff | internal/raft/node.go:581-584 | lastApplied stays at or below commitIndex unless the request is not of an older term, its anchor matches, its leader is ahead, and it ends before what was applied; and then it does not |
| Races.ProbeUncommits | internal/raft/read.go:321-327 | a probe takes a follower from commit index 3 to 0 with three entries applied |
| Races.SetTermIsStableIff | internal/raft/node.go:191-197 | setting a term is safe for the persistent pair if and only if it is newer, or equal with no vote to lose |
| Races.AppendKeepsOrderIff | internal/raft/node.go:320-330 | an append with a term read earlier keeps terms ordered if and only if that term is between the log's last and the current one |
| Races.AppendMatchesIff | internal/raft/node.go:320-330 | it keeps the log matching every other if and only if the log is at least as long as it was under that leadership, or that leadership had inherited the entry there, or had appended the same one; the same role and term are enough |
| Races.StaleAppendBreaksOrder | internal/raft/node.go:320-330 | a leader deposed between its check and its append breaks the order of terms |
| Races.TornMatchesIff | internal/raft/node.go:412-427 | under a request whose term, anchor and entries are read at three moments, a follower's log goes on matching the sender's if and only if it refuses it, or nothing is sent, or the anchor had the same term at the last two |
| Races.TornKeepsOrderIff | internal/raft/node.go:412-427 | its terms stay ordered and bounded if and only if it refuses it, or nothing is sent, or the anchor's term as read is at most the first sent and the last sent at most the term read |
| Races.SteadyReadIsWhole | internal/raft/node.go:412-427 | if the node leads the same term at the first and the last read, the request is one of that term like any other |
| Deposed.TornReadBreaksMatching | internal/raft/node.go:412-427 | a run at whose end a request whose anchor was read in term 1 and entries in term 3 makes a follower's log agree with its sender's at index 2 and differ at index 1 |
| Deposed.TwoRecordsApplied | internal/raft/node.go:412-427 | that request once in the network, ordinary steps lead to two nodes that have applied different records at one index and hold different values for one key |
| Races.SuccessIsAppliedIff | internal/raft/node.go:364-375 | over every interleaving of turns of applying with other calls, an entry is applied by the proposer's last check if and only if it was at the start, or at some test its turn had come and the commit index covered it; that the commit index covers it at the last test is enough |
| Races.SuccessBeforeApply | internal/raft/node.go:364-375 | a deposed proposer whose commit index a request raises after its apply reports success with nothing applied |
| Races.SuccessAfterLoweredCommit | internal/raft/node.go:507-533 | an interleaving in which the commit index covers entry 3 when applying begins, a probe lowers it after one turn, and a request raises it before the last check: one entry is applied |
| LateSetTerm.TwoWinners | internal/raft/read.go:335-338 | a run on any three nodes in which two win one term, because a probe set a term it had compared earlier |
| StaleRead.ConfirmedReadCanBeStale | internal/raft/read.go:144-212 | a run on any three nodes in which a confirmed round of a fresh leader returns an index below an acknowledged one |
| Deposed.RoundAcrossTermsIsStale | internal/raft/read.go:144-212 | a run in which a settled round is confirmed by a majority only in a later term its leader leads, and its index is below an acknowledged one |
| Configs.Validate | internal/raft/config.go:45-74 | accepts exactly the well-formed configurations: ids and addresses present, ids distinct, odd size; each refusal names what is wrong |
| Configs.MemberCount | internal/raft/config.go:27-29 | in a validated cluster the size is the number of distinct members |
| Configs.MajorityIsQuorum | internal/raft/config.go:40-42 | a set of members has at least Majority() of them if and only if it is more than half |
| Configs.MajoritiesMeet | internal/raft/config.go:31-42 | any two Majority()-sized sets of a validated cluster share a member |
| Engines.Engine.Apply | internal/engine/engine.go:38-45 | "set" binds, "delete" unbinds, anything else changes nothing |
| Engines.OperationNames | internal/wal/record.go:13-22 | the three operations have three names |
| Engines.ReplayMeaning | internal/engine/engine.go:38-45 | a key is bound after a log exactly when the last record touching it is a set, and to its value |
| LogSpec.MergeClosedForm | internal/raft/log.go:225-246 | the merge keeps the log whole when all entries are held and otherwise cuts at the first that is not |
| LogSpec.MergeEffect | internal/raft/log.go:216-250 | the anchor's prefix is untouched, the request is agreed with to its end, a longer suffix survives exactly when nothing conflicted |
| LogSpec.MergeIdempotent | internal/raft/log.go:229-236 | redelivering a request changes nothing |
| LogSpec.StaleRequestIsNoOp | internal/raft/log.go:229-236 | an older request of the same sender, redelivered after a newer one, is accepted and changes nothing |
| LogSpec.MergeAbsorbs | internal/raft/log.go:216-250 | under Log Matching an accepted request makes the log agree with the sender through its end and drops nothing that did not conflict |
| LogSpec.CrashAbsorbs | internal/raft/log.go:225-246 | so does any part of it a crash leaves done |
| LogSpec.MergeConcat | internal/raft/log.go:225-246 | a request delivered in two parts merges as one |
| Logs.OpenLog | internal/raft/log.go:44-79 | repairs the file to its valid bytes, and succeeds exactly when every record claims its own position, with records and offsets as scanned |
| Logs.Reopen | internal/raft/log.go:44-79 | reopening the file of a log in step with it rebuilds the same records and offsets over the same file, changes no byte, and keeps the file exactly the records' frames |
| Logs.Log.Append | internal/raft/log.go:123-140 | the records stored are the commands stamped in order; disk and memory stay in step; after an error a restart finds what is in memory, or one more |
| Logs.Log.Store | internal/raft/log.go:145-158 | one record on disk, then in memory; after an error memory is unchanged and a restart finds the old log with or without the new record |
| Logs.Log.TruncateFrom | internal/raft/log.go:161-171 | cuts disk and memory at one index; after an error memory is unchanged and the file is as it was or cut there |
| Logs.Log.AppendAfter | internal/raft/log.go:216-250 | performs exactly the specified merge, disk and memory in step; an error leaves both memory and disk at a crash point of the request |
| Logs.Log.From | internal/raft/log.go:175-189 | the suffix from an index, never the sentinel |
| Logs.Log.Match | internal/raft/log.go:197-208 | the anchor check |
| Logs.Log.At | internal/raft/log.go:110-118 | the record at an index, absent for the sentinel and past the end |
| Logs.StampsMeaning | internal/raft/log.go:127-139 | the k-th stored command carries the term and the k-th next index |
| Logs.FailedAppendRecovers | internal/wal/wal.go:70-82 | after a write that failed at any byte, a scan finds the old records, plus the new one exactly if its whole frame is there |
| Logs.ScanCutAt | internal/raft/log.go:161-171 | cutting a scanned file at the offset of record k leaves exactly the first k records and offsets |
| Logs.ExactOffsets | internal/raft/log.go:145-158 | when the file is the records' frames, each offset is the length of the frames before it |
| Logs.ExactCut | internal/raft/log.go:161-171 | cutting at an offset leaves exactly the frames of the records before it |
| Wals.Wal.Append | internal/wal/wal.go:59-83 | one frame at the end of the file at the offset returned; an error leaves any prefix of it, uncounted |
| Wals.Wal.Truncate | internal/wal/wal.go:90-110 | the file cut to size and counted; beyond the counter refused; an error leaves the counter and possibly the cut |
| Frames.Uint32RoundTrip | internal/wal/record.go:52-64 | a big-endian field reads back the low 32 bits of what was written |
| Frames.EncodeMeaning | internal/wal/record.go:52-64 | the bytes written: length and checksum, most significant byte first, then the payload |
| Frames.FrameMeaning | internal/wal/reader.go:53-95 | bytes read as a whole frame if and only if the length is at most 8388608, the bytes suffice, the payload has the checksum before it, and it decodes; no bytes are a clean end |
| Frames.DamageIsTorn | internal/wal/record.go:68-78 | a payload without the checksum before it reads as torn |
| Readers.DamageStopsTheScan | internal/wal/reader.go:84-88 | records before torn bytes are kept, and nothing from there on |
| Readers.ChangedPayloadIsFound | internal/wal/reader.go:84-88 | a payload changed to one of another checksum ends the scan at its frame |
| Frames.FrameReadsBack | internal/wal/record.go:52-78 | a frame reads back as its record, whatever follows, if and only if the payload is within the reader's limit |
| Frames.CutFrameIsTorn | internal/wal/reader.go:53-89 | a frame cut anywhere inside reads as torn |
| Readers.ReadAll | internal/wal/reader.go:38-95 | the loop computes the recursive scan |
| Readers.FramesReadBack | internal/wal/reader.go:38-95 | a file of frames scans to exactly its records, each at its start, untorn |
| Readers.TornTailRecovery | internal/wal/reader.go:38-95 | after any byte cut the scan finds exactly the records wholly before it, with offsets and valid length, and reports a tear exactly off a frame boundary |
| Readers.WholeBeforeMeaning | internal/wal/reader.go:53-95 | the records wholly before a cut are the most whose frames fit in it |
| Readers.RepairIsFixedPoint | internal/wal/reader.go:99-113 | for arbitrary bytes, cutting to the valid length and scanning again gives the same records and offsets, untorn |
| Readers.AppendAfterRepair | internal/raft/log.go:45-58 | frames appended after a repair are read back after the records that survived it |
| States.StateStore.Save | internal/raft/state.go:62-94 | wherever it stops, the state file holds the complete old pair or the complete new one |
| States.StateStore.Open | internal/raft/state.go:36-54 | a missing file is term 0 and no vote; one that does not parse is refused |
| Nodes.Node.constructor | internal/raft/node.go:137-161 | a restarted node is a follower with the term and vote on disk, or term 0 and none if there is no file, the recovered log, and nothing committed or applied |
| Nodes.Node.EnterTerm | internal/raft/node.go:191-197 | performs the term change; success means it is on disk |
| Nodes.Node.HandleRequestVote | internal/raft/node.go:215-262 | performs the vote transition, whatever is replied is on disk first, and there is a reply exactly when what had to be persisted was |
| Nodes.Node.StandForElection | internal/raft/election.go:139-166 | performs the candidacy; a request is returned exactly when term and own vote are on disk |
| Nodes.CountToMajority | internal/raft/election.go:193-211 | the counting loop reports a majority exactly when the answers hold one |
| Nodes.YesCounts | internal/raft/election.go:197-211 | the count is the number of peers that said yes |
| Nodes.AcceptingCounts | internal/raft/read.go:190-205 | a read round counts the peers that answered with a success in a term no newer |
| Nodes.Node.WinElection | internal/raft/election.go:215-226 | performs the win, and nothing for an election no longer current |
| Nodes.Node.BecomeLeader | internal/raft/election.go:242-252 | every peer's bookkeeping starts at the log's end and at zero |
| Nodes.Node.BuildAppend | internal/raft/node.go:412-427 | builds the request the cluster's send step puts in flight |
| Nodes.Node.HandleReply | internal/raft/node.go:434-462 | performs the reply transition: deposed to follower of the newer term, matched, or walked back |
| Nodes.Node.AppendCommand | internal/raft/node.go:319-333 | a command is stamped and stored by a leader, or nothing changes |
| Nodes.Node.ReplicateTo | internal/raft/node.go:410-464 | against a reachable follower it makes exactly the specified number of attempts up to 64, succeeds exactly when that is enough, and then the follower agrees with the whole log sent; each rejection lowers nextIndex and keeps it at least 1 |
| Nodes.Node.TryOnce | internal/raft/node.go:411-462 | one attempt succeeds exactly when the follower matches the anchor |
| Nodes.Node.AdvanceCommit | internal/raft/node.go:467-501 | performs the commit scan |
| Nodes.Node.ApplyCommitted | internal/raft/node.go:507-533 | applies one by one until the commit index or the log's end |
| Nodes.Node.FinishProposal | internal/raft/node.go:345-376 | success exactly when a majority answered and the commit index reached the proposal, which is then applied here |
| Nodes.Node.ConfirmRound | internal/raft/read.go:144-212 | succeeds exactly when a leader hears a majority accept before any newer term, and returns the commit index captured first; a newer term heard first makes it a follower in a term at least that |
| Nodes.Node.HandleProbeReply | internal/raft/read.go:335-341 | counts only a success in a term no newer than its own, and steps down for a newer one |
| Nodes.Node.HandleAppendEntries | internal/raft/node.go:538-587 | performs the request transition and then applies, with a reply whenever nothing fails; an error leaves the log at a crash point of the request with commit index and map as they were |
| Nodes.Node.Follow | internal/raft/node.go:550-587 | the part under the lock: state, log and reply are those of the specified transition, with a reply whenever nothing fails |
| Nodes.PeerAnswers | internal/raft/node.go:410-464 | a peer accepts exactly when it matches the anchor and then agrees with the sender's whole log |
| NodeSpec.ApplyAllReaches | internal/raft/node.go:507-533 | applying goes exactly as far as the commit index and the log reach, never back, and the map stays the replay of what was applied |
| Walkback.AcceptsUpToCommon | internal/raft/log.go:197-208 | under Log Matching a follower accepts exactly the anchors up to the common point |
| Walkback.AttemptsExactly | internal/raft/node.go:410-464 | the exact number of attempts from any anchor: 1, p-c+1 or F-c+2 |
| Walkback.OneCallIsEnough | internal/raft/node.go:410-411 | one call of 64 attempts suffices if and only if the divergence is within that |
| Batching.OneLoopAtATime | internal/raft/read.go:84-107 | over every interleaving at most one loop runs |
| Batching.AnswerIsNewEnough | internal/raft/read.go:91-97 | a reader's answer was captured after it joined |
| Batching.CompletedOnce | internal/raft/read.go:123-140 | no batch is completed twice |
| Batching.NoReaderStranded | internal/raft/read.go:123-140 | while a reader waits a loop exists, can step, and each of its steps brings the reader one nearer; joining readers never push it back |
| Batching.Batcher.Join | internal/raft/read.go:84-102 | performs the locked section of a joining reader |
| Batching.Batcher.HandOff | internal/raft/read.go:129-136 | performs the locked section after a round |
| Batching.Batcher.RunConfirm | internal/raft/read.go:123-140 | completes the first batch and then every batch opened meanwhile, in order, each once, and stops in the first round nobody joined, with nothing queued |

## Left out

- Safety.ReadIsLinearizable: has the settled commit index and the single-term round as hypotheses, in one direction, because a round that has neither can still happen to return a high enough index; runs show that neither can be dropped.
- Safety.StrongReadSeesAcknowledged: the wait loop of `WaitForApplied` is the hypothesis that the index has been applied.
- Nodes.Node.ConfirmRound: answers are heard one after the other; being deposed and elected again within one round, which the code would not notice, is excluded by the single-term hypothesis of the theorem.
- Nodes.Node.ReplicateTo: the follower stays put, is in no later term and is always reachable; a transport error ends the code's loop and is not part of this method. Deposal is in `Nodes.Node.HandleReply`.
- Nodes.Node.FinishProposal: commit, apply and the last check happen without interference, and answers carry no term; `Races.SuccessIsAppliedIff` and `Safety.SuccessIsCommittedIff` are about the code's interleavings.
- Safety.AcknowledgedSurvives: leaders of terms between the proposal's and its node's at the return are not covered; one of them may lack an entry that a later leader commits.
- Nodes.Node.BuildAppend: term, anchor and entries are read together; `Races.TornMatchesIff` is about reading them apart.
- Safety.StateMachineSafety: holds of requests read at one moment, or all of them while leading one term; the code does not see to that (`Deposed.TwoRecordsApplied`).
- Safety.LogMatchingInRun: likewise (`Deposed.TornReadBreaksMatching`).
- Nodes.Node.HandleProbeReply: comparison and set are one step; `LateSetTerm.TwoWinners` is about two.
- Nodes.Node.WinElection: the no-op that follows a win is an ordinary proposal.
- Nodes.Node.constructor: refusing a bad configuration is `Configs.Validate`; refusing timeouts is not modelled.
- Nodes.Node.AppendCommand: role check and append are one step, as in the cluster.
- Races.StaleAppendBreaksOrder: shown on one node's states, not as a whole run.
- The walkback bound is for one leader and a follower that does not change; how many calls are needed after a failed one is not stated.
- Liveness of elections, timers, tickers, random timeouts and contexts: a timeout is a step that may happen at any time.
- The hook that takes leadership without votes (internal/raft/node.go:305-313), which exists for tests and breaks Election Safety by design.
- HTTP, JSON over the wire, the client API, write forwarding, status output, peer parsing and the commands.
- JSON and the CRC polynomial are arbitrary functions; no claim about flipped bits.
- Integer widths: terms, indexes and sizes are unbounded; only the 32-bit frame fields are modelled as such.
- fsync, rename and directory sync are single events that happen, or fail and stop the node.
- Persist errors that the code ignores (internal/raft/read.go:337, internal/raft/election.go:179) or returns from with the term changed only in memory (internal/raft/node.go:438-441) are treated as stopping the node.
- The read path without batching, which serves only as a baseline; snapshots and pre-vote, which the repository does not have.
