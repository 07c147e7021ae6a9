# KafkaFlow, modelled and proved in Dafny

The project models the four state-keeping parts of KafkaFlow and proves what they promise:

- **Raft replication** (`raft_*.dfy`). The log, the group state machine and the node are classes whose methods follow
  the Go handlers; each method is proved equal to a function on values. A cluster is a step relation over those
  functions: one handler body is one step, and the network is a set of messages that never shrinks, so messages may be
  lost, delayed, repeated and reordered. Election safety, log matching, leader completeness and state machine safety
  are proved of all runs, and so is progress: nodes can be elected, a leader commits what it appends, and followers
  catch up.
- **The partition log** (`broker_*.dfy`). The record codec at byte level, one segment with its index, the partition
  with its batch and rolling segments, a consumer that polls it, and appenders and flushers interleaved access by access.
- **Consumer groups** (`group*.dfy`). The group with its wake-up channel and watcher, the round-robin allocator, and
  whole runs of joins, leaves, expiries and rebalances.
- **Metrics rings** (`metrics.dfy`). The rate window, the latency ring, the insertion sort and the percentile.

`basics.dfy` holds a few facts about sets, sequences and division. `dafny verify dfyconfig.toml` checks everything.

## Hypotheses on Raft runs

The code leaves out some of the checks of the Raft paper (Ongaro and Ousterhout, "In Search of an Understandable
Consensus Algorithm"). What needs them is proved under explicit hypotheses, and each theorem names the ones it uses.
For each of H1, H2, H3, H4 and H6, module `WithoutHypotheses` gives runs from a fresh cluster of three nodes that
break without it, and exactly when a single step is fine. Modules `ElectionSize` and `EvenClusters` prove H5 exact:
each safety property holds of all runs of a given set of nodes if and only if their number meets H5.

| | hypothesis | in the model | the check that is missing |
|---|---|---|---|
| H1 | a vote reply is handled only where it is harmless: the candidate is still in the election's term, or the reply does not win and brings no newer term than the election's but one ahead of the candidate, or its own before it has voted | `SafeCount`, `Harmless` | internal/raft/node.go:180-190 compares with the captured term only |
| H2 | a proposal is appended in the term it was stamped with | `TimelyTake` | stamped at internal/raft/node.go:108, appended at 144 |
| H3 | an accepted append request names the term the receiver has at the preceding index (log matching needs this only of requests with entries) | `MatchingDeliver`, `Careful` | internal/raft/node.go:392 never reads the field |
| H4 | snapshot, handler and reply bookkeeping are one action (the reply may be lost) | `Exchange` | internal/raft/node.go:287-288 uses the last index at reply time; internal/raft/log.go:50 truncates always |
| H5 | the cluster has an odd number of nodes, or at most two | `SafeSize` | internal/raft/node.go:158 and 304 count `len(peers)/2+1`, half of an even cluster |
| H6 | a snapshot for a peer is taken while the node still leads | `LeadingSend`, `Careful` | internal/raft/node.go:242-276 does not look at the role again |

## Where code and comments disagree

The model follows the code.

- internal/broker/segment.go:75 says the index has every 8th entry. The guard counts the index's own entries, so the
  index stops at one entry (`IndexStopsAtFirst`). Reading is therefore proved for any sound index, and appending is
  proved to keep an index sound.
- internal/raft/log.go:49 says that conflicting entries are truncated. All entries after the preceding index are,
  conflicting or not (`LateRequestKeepsLogIff`).

## Model

| member | source | states |
|---|---|---|
| GroupFsm.GroupState.Apply | internal/raft/fsm.go:33-65 | applying a committed entry changes the group table exactly as the command says; an unknown type, a no-op and an undecodable payload change nothing. What the commands add up to is stated by the next three rows |
| GroupFsm.MemberIff | internal/raft/fsm.go:38-54 | after any history a member is in a group exactly if the last command that joins or removes it there is a join, with the topics of that join |
| GroupFsm.AssignmentIs | internal/raft/fsm.go:46-63 | a group's generation is that of the last assignment made for it, or 0; its shares are those of that assignment, less the ones of members that have left since |
| GroupFsm.GroupIff | internal/raft/fsm.go:38-85 | a group is in the table exactly if some member has joined it or some assignment was made for it |
| GroupFsm.GroupState.getOrCreate | internal/raft/fsm.go:74-85 | the existing group is returned, or a new empty one is entered; no other group changes |
| GroupFsm.ReplayProjects | internal/raft/fsm.go:33-85 | a group's value after any history depends only on the commands that name it |
| RaftLogs.RaftLog.constructor | internal/raft/log.go:29-34 | a new log is the sentinel alone |
| RaftLogs.RaftLog.Append | internal/raft/log.go:36-41 | the entry is added at the end, numbered by its position |
| RaftLogs.RaftLog.AppendEntries | internal/raft/log.go:43-56 | refused past the end; else everything after prevIndex is replaced by the renumbered entries |
| RaftLogs.RaftLog.Entry | internal/raft/log.go:58-65 | the entry at an index in range, else the zero entry and false |
| RaftLogs.RaftLog.EntriesFrom | internal/raft/log.go:79-88 | the suffix from an index, empty past the end |
| RaftLogs.SplicedSlice | internal/raft/log.go:43-56 | splicing a slice of a log onto a log that agrees with it up to there copies it that far |
| RaftNodes.Node.startElection | internal/raft/node.go:151-162 | next term, candidate, a vote for itself, every peer pending |
| RaftNodes.Node.voteReturned | internal/raft/node.go:180-194 | a higher term than the election's makes a follower of that term; a granted vote is counted, and the first time the count with its own vote is half of all nodes makes a leader |
| RaftNodes.Node.becomeLeader | internal/raft/node.go:200-214 | leader, with nextIndex past the log's end and matchIndex zero for every peer |
| RaftNodes.FirstRequestIsEmpty | internal/raft/node.go:200-277 | a new leader's first request to each peer carries no entries and names its own last one |
| RaftNodes.Node.becomeFollower | internal/raft/node.go:216-224 | follower of the given term, with no vote |
| RaftNodes.Node.RequestVote | internal/raft/node.go:349-371 | the reply in values, for every request: the term is caught up with, and the vote is granted if and only if the candidate's term is not older, the vote is free or already its own, and its last term and index are not lexicographically below the voter's |
| RaftNodes.UpToDateIsTotal | internal/raft/node.go:361 | of any two logs one is up to date for the other; both are exactly if they end in the same term at the same index |
| RaftNodes.UpToDateIsTransitive | internal/raft/node.go:361 | and so is the comparison a total order of where logs end |
| RaftNodes.Node.propose | internal/raft/node.go:106-118 | the proposal is stamped with the current term and queued |
| RaftNodes.Node.takeProposal | internal/raft/node.go:142-146 | a leader appends the oldest proposal, any other node drops it |
| Proposals.QueueIsRest | internal/raft/node.go:106-146 | in every run a node's queue is what it was proposed, in order and stamped with its terms then, less what was taken; never more than the channel holds |
| Proposals.TakenInOrder | internal/raft/node.go:142-146 | first in, first out: the proposal a leader appends, and any other node drops, is the oldest one not taken yet |
| RaftNodes.Node.snapshotFor | internal/raft/node.go:248-277 | the append request is the leader's log from nextIndex, with the entry before it and the commit index |
| RaftNodes.RequestIsSlice | internal/raft/node.go:248-277 | a request splits the log into what comes before, the entry it names, and all the entries it carries |
| RaftNodes.Node.AppendEntries | internal/raft/node.go:373-401 | in values: refusal of old terms, step-down on newer ones, the reply with the term from before, the kept and the new entries one by one, and the commit index following the leader's up to the log's end |
| RaftNodes.Node.appendReturned | internal/raft/node.go:281-297 | step-down on a newer term; success moves nextIndex and matchIndex and tries to commit; refusal moves nextIndex back, not below 1 |
| RaftNodes.Node.countMatching | internal/raft/node.go:311-316 | the counting loop finds one plus the number of peers whose matchIndex reaches the index |
| RaftNodes.Node.canCommit | internal/raft/node.go:307-317 | true exactly for an entry of the current term that the node and the peers whose matchIndex reaches it, half of all nodes at least, hold |
| RaftNodes.Node.maybeCommit | internal/raft/node.go:300-322 | the new commit index is the greatest index above the old whose entry is of the current term and held by half of the nodes, else unchanged; indexes in between need not be of that term |
| RaftNodes.MaybeCommitIsGreatest | internal/raft/node.go:300-322 | being the greatest index that passes the loop's test and being what the downward search finds are the same |
| RaftNodes.CommitIsGreatestHeld | internal/raft/node.go:300-322 | the same in terms of the log and matchIndex alone: an index is the new commit index if and only if it is the greatest such index, or the old one if there is none |
| RaftNodes.Node.applyNext | internal/raft/node.go:330-340 | one more entry is applied if one is committed and not applied |
| RaftSystem.ExchangeIsItsSteps | internal/raft/node.go:248-298 | an indivisible exchange equals its three steps in a row |
| ElectionSafety.InvStep | internal/raft/node.go:151-224 | under H1 every step keeps the election invariant, for a cluster of any size: votes recorded, tallies exact, leaders backed by enough voters |
| ElectionSafety.AtMostOneLeaderPerTerm | internal/raft/node.go:151-224 | election safety (section 5.2): no term ever has two leaders, in any run under H1 and H5 |
| ElectionSafety.OneVotePerTerm | internal/raft/node.go:349-371 | no node grants votes to two candidates of one term, in any run under H1 |
| ElectionSafety.TermsOnlyGrow | internal/raft/node.go:151-224 | in any run under H1 no node's term ever goes back |
| ElectionSafety.CountingLowersTermIff | internal/raft/node.go:180-183 | a returned vote lowers the term exactly when its term lies between the election's and the current one |
| ElectionSafety.WinningSetsMeetIff | internal/raft/node.go:158-189 | any two sets of voters that can win share a node if and only if the cluster is odd or has at most two nodes |
| ElectionSize.ElectionsSafeIff | internal/raft/node.go:158-189 | exactly when H5 is met elections are safe: every run under H1 of a given set of nodes elects at most one leader per term if and only if their number is odd or at most two |
| Electability.Collect | internal/raft/node.go:163-196 | a candidate as many votes short of winning as there are willing nodes left is elected by them, one request, answer and reply after the other |
| Electability.Electable | internal/raft/node.go:151-202 | the vote rule refuses no more than it must: from the end of any lawful run, an idle node that is up to date for enough others whose terms are not newer can go on to lead the next term, no log changed |
| Electability.SomeoneElectable | internal/raft/node.go:151-202 | elections never get stuck: from the end of any lawful run, of any two or more idle nodes that make half of all, one can go on to be elected by the others, whatever logs and terms they have |
| ElectionSize.TwoLeaders | internal/raft/node.go:158-189 | in every even cluster of four or more, a lawful run in which two nodes lead term 1 at the same moment |
| LogMatching.FullInvStep | internal/raft/node.go:248-276 | under H1, H2, H3, H5 and H6 every step keeps every log rooted in the logs of the leaders of its entries' terms |
| LogMatching.LogsMatch | internal/raft/node.go:374-401 | log matching (section 5.3), in any run under H1, H2, H3, H5 and H6: equal index and term make the logs identical through that index |
| Bounds.NoPanic | internal/raft/log.go:43-88 | in every run, with no hypothesis: logs are never empty, a leader's nextIndex is at least 1 for every peer, and no request reaches below the sentinel |
| LogMatching.SpliceCopiesIff | internal/raft/log.go:43-56 | the handler copies the leader's log exactly when the receiver has the leader's term at prevIndex |
| OneLeader.BehindStep | internal/raft/node.go:248-276 | every step keeps all logs, and all requests in flight, cut from the log of the only node that ever leads, even those it sends after stepping down |
| OneLeader.FollowersArePrefixes | internal/raft/node.go:291-295 | while one node alone ever leads, every log is a prefix of its log, entries know their positions, and its nextIndex stays at least 1; no further hypothesis |
| OneLeader.NoConflictingApplies | internal/raft/node.go:324-346 | in such runs no two nodes apply different entries at one index |
| Replication.CommitMeansReplicated | internal/raft/node.go:285-322 | in one-leader runs under H4 every committed index is held, with the leader's entries, by as many nodes as win an election; under H5 that is more than half |
| Replication.MatchIndexIsTrue | internal/raft/node.go:285-290 | in one-leader runs under H4 a leader has a matchIndex for every peer, the peer's log agrees with the leader's through it, and nextIndex is above it |
| Replication.CommitOnlyGrows | internal/raft/node.go:392-399 | in such runs no action lowers a commit index or moves it past the log's end |
| Replication.CommittableIsHeld | internal/raft/node.go:304-317 | what the count finds committable is held by as many nodes as win an election |
| Replication.ApplyIsReplay | internal/raft/node.go:324-346 | in such runs each node has applied its log from 1 to lastApplied, once each and in order, and its groups are the replay of that |
| Replication.EqualProgressEqualGroups | internal/raft/fsm.go:33-85 | in such runs nodes with equal lastApplied have equal groups |
| Progress.CatchesUp | internal/raft/node.go:248-297 | in one-leader runs under H4, while the leader leads: as soon as it has had more replies from a peer than its nextIndex lies past the peer's log, which nextIndex replies always are, the peer has had the leader's whole log and has committed all the leader had committed at the beginning, whatever happens in between |
| Progress.GapShrinks | internal/raft/node.go:285-297 | until then each reply closes that gap by one and nothing else widens it |
| Commitment.LeaderCommits | internal/raft/node.go:281-322 | in one-leader runs under H4, what a leader appends in its own term it commits, if it leads on, once peers that make half of the nodes with it have each answered more often than their gap was, whatever else happens |
| Commitment.SuccessCommitsLast | internal/raft/node.go:285-322 | the counted success that brings the last entry, if of the leader's term, to half of the nodes commits it at once |
| Commitment.RoundsApply | internal/raft/node.go:324-346 | the apply loop gets everything committed applied, in as many rounds as there are entries, and stops there |
| Completeness.VoterPassesOn | internal/raft/node.go:359-361 | a voter that holds a chosen entry votes only for a candidate that has it |
| Completeness.LeaderCompleteness | internal/raft/node.go:349-371 | every leader of a later term was elected with all that was chosen in earlier ones |
| Completeness.CommittableIsChosen | internal/raft/node.go:300-322 | what a leader commits has been accepted by a quorum in its own term |
| Completeness.KnownAfter | internal/raft/node.go:151-401 | under H1 to H6 every action keeps the ledger of elections, acknowledgements and decisions true |
| RunSafety.CommittedStaysWithLeaders | internal/raft/node.go:300-322 | leader completeness (section 5.4) over runs under H1 to H6: what any node has committed is in the log of every leader of the same or a later term from then on |
| RunSafety.AppliesNeverConflict | internal/raft/node.go:324-346 | state machine safety (section 5.4.3) under H1 to H6, with any number of leaders: applied histories are prefixes of one another, and equal progress means equal groups |
| EvenClusters.LogsSafeIff | internal/raft/node.go:158-189 | log matching holds of all runs under H1, H2, H3 and H6 of a given set of nodes if and only if their number is odd or at most two |
| EvenClusters.ShareAll | internal/raft/node.go:248-322 | a leader's first entry spreads exchange by exchange to any set of its followers, and is committed once they and the leader are a quorum |
| EvenClusters.CommitsSafeIff | internal/raft/node.go:304-317 | in one-leader runs under H4, what is committed is held by more than half of the nodes if and only if H5 is met; else a run commits with exactly half |
| EvenClusters.AppliesSafeIff | internal/raft/node.go:304-346 | under H1 to H4 and H6, nodes of equal progress always have equal groups if and only if H5 is met; else a run has two leaders of one term commit and apply different commands |
| EvenClusters.CommittedStaysIff | internal/raft/node.go:304-317 | under H1 to H4 and H6, what was committed is always in later leaders' logs if and only if H5 is met |
| WithoutHypotheses.LateVoteTwoLeaders | internal/raft/node.go:180-202 | without H1: a run in which two of three nodes lead term 2 |
| WithoutHypotheses.LateRefusalTwoLeaders | internal/raft/node.go:180-183 | without H1, even if it holds of all granted votes: a run in which a late refusal in the candidate's own term wipes its vote, it votes for two nodes in term 2, and both lead |
| WithoutHypotheses.LateRefusalLowersTerm | internal/raft/node.go:180-183 | and a run in which a late refusal takes a node from term 3 back to term 2 |
| WithoutHypotheses.CountKeepsIff | internal/raft/node.go:180-202 | H1 at the step, for every vote reply: handling it keeps the election invariant and the candidate's term exactly when it is harmless |
| WithoutHypotheses.OldProposalsMismatch | internal/raft/node.go:106-146 | without H2: a run in which two leaders append different commands at one index, both stamped with term 0 |
| WithoutHypotheses.TakeKeepsLogsIff | internal/raft/node.go:106-146 | H2 at the step: a leader's append keeps all logs rooted exactly when the entry has the leader's term, or the log of the term it has goes on with just that entry |
| WithoutHypotheses.UncheckedPrevTermMismatch | internal/raft/node.go:392 | without H3: a run of three nodes with atomic exchanges, under H1, H2 and H6, in which one leader's entry is put above another leader's, so that equal terms have different prefixes |
| WithoutHypotheses.DeliverKeepsLogsIff | internal/raft/node.go:392 | H3 at the step: an accepted request keeps all logs rooted exactly when it has no entries or names the receiver's term at prevIndex |
| WithoutHypotheses.LateRequestDropsCommitted | internal/raft/log.go:50 | without H4: a run of three nodes in which a heartbeat handled late cuts a committed entry off a follower's log, below its commit index |
| WithoutHypotheses.LateRequestAppliesConflict | internal/raft/log.go:50 | and, going on, a node elected by that follower commits and applies another command at the same index: equal progress, different groups |
| WithoutHypotheses.LateRequestKeepsLogIff | internal/raft/log.go:49-50 | H4 for the follower: a late request keeps its log exactly when it reaches the log's end |
| WithoutHypotheses.LateRequestKeepsCommitIff | internal/raft/log.go:49-50 | and its commit index stays inside the log exactly when the request reaches past what was committed |
| WithoutHypotheses.LateReplyTrueIff | internal/raft/node.go:287-288 | H4 for the leader: the recorded matchIndex is true exactly when the log has not grown since |
| WithoutHypotheses.LateSendMismatch | internal/raft/node.go:242-276 | without H6: a run in which a deposed leader sends its log under the new term, and the new leader cuts its own log back and appends a second first entry |
| WithoutHypotheses.SendKeepsLogsIff | internal/raft/node.go:242-276 | H6 at the step: a snapshot keeps every request a slice of its term's log, addressed to another node than that term's leader, exactly when its sender leads, or the sender's whole log is a prefix of the log of its term, led by another node than the peer |
| RecordCodec.RoundTripIff | internal/broker/segment.go:57-68 | a record survives encoding and decoding exactly when its key and value lengths fit 32 bits |
| RecordCodec.Layout | internal/broker/segment.go:62-68 | the layout byte by byte: offset, timestamp and the two lengths in 8, 8, 4 and 4 bytes, big-endian and in two's complement, then the key, then the value |
| RecordCodec.PutUintAt | internal/broker/segment.go:63-66 | byte k of an n-byte field is the number divided by 256 to the power n-1-k, modulo 256 |
| RecordCodec.GetUintAt | internal/broker/segment.go:109-112 | and reading gives the number with these bytes |
| RecordCodec.CutRecordIncomplete | internal/broker/segment.go:105-117 | a cut-off record is never taken for a record |
| RecordCodec.ScanEncodeAll | internal/broker/segment.go:103-128 | scanning any list of encoded records returns the list |
| RecordCodec.ScanTruncated | internal/broker/segment.go:103-128 | scanning any truncation of a file returns exactly the records wholly inside it |
| RecordCodec.WholeWithinIsGreatest | internal/broker/segment.go:103-128 | that is the longest list of records that fits in the bytes |
| RecordCodec.Decode | internal/broker/segment.go:12 | each record read takes at least the 24 bytes of its header, and no more than there are |
| Segments.ReadIsWindow | internal/broker/segment.go:86-130 | a full scan returns the window: from the first wanted record, as far as the budget goes |
| Segments.TakeBudgetIsShortest | internal/broker/segment.go:105-127 | what the budget lets through is the shortest run that reaches it, or all there is, and nothing else is |
| Segments.IndexedReadIsFullScan | internal/broker/segment.go:90-141 | for any sound index, reading from where it points gives what a scan from the start gives |
| Segments.IndexStaysSound | internal/broker/segment.go:75-82 | appending keeps a sound index sound |
| Segments.IndexStopsAtFirst | internal/broker/segment.go:76 | the index never grows past its first entry |
| Segments.Segment.Append | internal/broker/segment.go:57-84 | whatever the record, the file gains exactly its encoding and the index its entry; what can be read back stays so if the record fits its header and its offset is new |
| Segments.Segment.findPosition | internal/broker/segment.go:132-141 | the position of the last index entry before the first one past the offset, else 0 |
| Segments.FindsLastFollowed | internal/broker/segment.go:132-141 | for any index, sorted or not, that entry alone decides |
| Segments.Segment.Read | internal/broker/segment.go:86-130 | the read loop returns the window of the segment's records, for any offset and budget |
| Segments.Segment.IsFull | internal/broker/segment.go:143-147 | full exactly when the size has reached the maximum |
| Partitions.Partition.Append | internal/broker/partition.go:62-84 | the record gets the next offset and joins the batch; the state stays sound if the record fits its header |
| Partitions.Partition.flush | internal/broker/partition.go:99-125 | the whole batch is stored, the high watermark reaches nextOffset, and segments stay filled: each but the last has reached the maximum size, and none had before its last record |
| Partitions.FlushedIsFilled | internal/broker/partition.go:112-119 | flushing keeps segments filled: a new one is opened exactly when the active one has reached the maximum |
| Partitions.CutIsUnique | internal/broker/partition.go:112-119 | the records and the maximum size alone decide where one segment ends and the next begins |
| Consumption.SegmentsFill | internal/broker/partition.go:99-125 | in every run of publishing, flushing and polling segments are filled |
| Partitions.Partition.Fetch | internal/broker/partition.go:127-156 | a fetch flushes and returns what the segments hold from the offset on, within the budget |
| Partitions.FlushedIsSound | internal/broker/partition.go:112-124 | after a flush the segments' contents concatenate to every appended record |
| Partitions.BasesIncrease | internal/broker/partition.go:114-119 | segment bases strictly increase |
| Partitions.PartHolds | internal/broker/partition.go:112-124 | each segment holds exactly the records from its base on |
| Partitions.FetchWindow | internal/broker/partition.go:137-155 | the exact fetch window: the shortest run from the offset, inside the one segment that holds it, that reaches the budget, or else the rest of that segment |
| Partitions.FetchedIsRun | internal/broker/partition.go:127-156 | any fetch returns a gapless run that starts at the offset, below the high watermark; empty exactly when the budget is not positive or nothing is left |
| Partitions.FetchIsExact | internal/broker/partition.go:127-156 | what a fetch returns, for any offset and budget: nothing outside the stored offsets or without a budget, else the run of appended records from the offset, as short as reaches the budget, inside the one segment that holds the offset |
| Partitions.FetchedBelowZero | internal/broker/partition.go:139-142 | a fetch from a negative offset returns nothing |
| Consumption.PollStep | internal/broker/partition.go:127-156 | a poll keeps what was received a prefix, and moves the cursor exactly when the budget is positive and something is left |
| Consumption.ReceivedIsPrefix | internal/transport/grpc_server.go:108-130 | in any mix of publishing, flushing and polling, the consumer has received the first records published, in order, without gap or repeat |
| Consumption.CatchesUp | internal/broker/partition.go:99-156 | once publishing stops, as many polls with positive budgets as records are missing bring everything, up to the high watermark |
| Interleaving.InvStep | internal/broker/partition.go:62-72 | every step of appenders and flushers keeps records in their places and objects apart |
| Interleaving.EachOffsetInOnePlace | internal/broker/partition.go:62-124 | conservation: in every interleaving each offset handed out has its record, unchanged, in exactly one place, and there are no other records |
| Interleaving.PooledIsNotLive | internal/broker/partition.go:121-123 | a message object in the pool is in no batch, with no flusher and with no appender, and no two records share one |
| Interleaving.ObjectsComeBack | internal/broker/partition.go:62-124 | no message object is lost: each one ever filled is in use or in the pool, and when nothing is under way all are in the pool |
| Interleaving.AllStoredInTheEnd | internal/broker/partition.go:99-124 | when nothing is under way the segments hold every record exactly once |
| Interleaving.OrderStepIff | internal/broker/partition.go:62-124 | exactly which steps keep records in the order of their offsets on the way to the store: a queueing one takes the least offset in flight, and one that takes the lock has the least offset still with a flusher |
| Interleaving.OrderRunIff | internal/broker/partition.go:62-124 | a run keeps its records in order on the way throughout if and only if all its steps are like that, with any number of flushers; two disorders may still cancel before the store |
| Interleaving.OrderlyStoresInOrder | internal/broker/partition.go:99-124 | and then records are stored in the order of their offsets |
| Interleaving.InTurnStoresInOrderIff | internal/broker/partition.go:99-124 | if each flusher takes the lock before the next takes a batch, none can cancel: in the end all records are stored in the order of their offsets if and only if every step was like that |
| Interleaving.LateQueueReorders | internal/broker/partition.go:64-70 | queued out of order, offset 1 can be stored first |
| Interleaving.TwoFlushersReorder | internal/broker/partition.go:107-109 | with two flushers that take the lock the other way round too, even if queueing is in order |
| Interleaving.HidesNothingIff | internal/broker/partition.go:122-133 | in any run the high watermark hides no stored record from a fetch exactly while the record stored last has the greatest offset |
| Interleaving.LowersMarkIff | internal/broker/partition.go:122 | and it moves back exactly when a record of a smaller offset is stored after one of a greater |
| Interleaving.OrderlyMark | internal/broker/partition.go:122 | if every step is orderly it is the number of stored records and hides none |
| Interleaving.MarkGoesBack | internal/broker/partition.go:107-123 | with the two flushers above it goes from 2 back to 1, and hides the record stored first |
| Listings.ListingIsUnique | internal/consumer/group.go:171-179 | a set has only one sorted sequence |
| Listings.SortedIsListing | internal/consumer/group.go:171-179 | sorting gives that sequence whatever order the elements came in |
| Listings.BeforeIff | internal/consumer/group.go:171-179 | the order of names is the lexicographic one: a proper prefix, or the smaller character at the first difference |
| Listings.ListingRank | internal/consumer/group.go:171-179 | an element stands at the position that is the number of smaller elements |
| RoundRobin.ShareIs | internal/consumer/group.go:185-192 | member j gets exactly the partitions at the positions congruent to j, in order |
| RoundRobin.BalancedIs | internal/consumer/group.go:163-192 | who gets what: of all partitions, by topic and then id, a member gets in order exactly those whose rank is congruent, modulo the number of members, to the number of members with lexicographically smaller names |
| RoundRobin.SharesAreEven | internal/consumer/group.go:185-192 | shares differ in size by at most one |
| RoundRobin.AllHandedOut | internal/consumer/group.go:185-192 | the members get every partition between them, each once |
| RoundRobin.HandedOutPerTopic | internal/consumer/group.go:163-192 | each partition id is handed out as often as there are topics that have it |
| RoundRobin.DisjointIffDivisible | internal/consumer/group.go:163-192 | no partition id goes to two members exactly when every topic with partitions, but the last in order, has a multiple of the member count |
| ConsumerGroups.Group.Join | internal/consumer/group.go:61-92 | the member is entered; topics not known before count one partition and the others stay; a new member, or any member of a group that is not stable, starts a rebalance |
| ConsumerGroups.Group.Leave | internal/consumer/group.go:94-108 | the member and its share are gone; what is left of the group rebalances, or the group is empty |
| ConsumerGroups.Group.Heartbeat | internal/consumer/group.go:110-120 | a known member is refreshed and told whether the group is not stable |
| ConsumerGroups.Group.Sync | internal/consumer/group.go:122-133 | the member's share, or the error for another generation or for no share |
| ConsumerGroups.Group.SetTopicPartitionCount | internal/consumer/group.go:149-153 | one topic's count changes |
| ConsumerGroups.Group.Rebalance | internal/consumer/group.go:156-198 | the next generation, stable; every member, and no one else, gets its turns: the partitions whose rank is congruent to the number of members with smaller names, whatever order the maps are walked in |
| ConsumerGroups.Group.spread | internal/consumer/group.go:181-192 | the two loops build that assignment |
| ConsumerGroups.Group.collectParts | internal/consumer/group.go:165-170 | the nested loops list every partition of every topic once |
| ConsumerGroups.Group.memberIDs | internal/consumer/group.go:218-224 | every member id once, in some order |
| ConsumerGroups.Group.expire | internal/consumer/group.go:226-247 | exactly the members silent for longer than the timeout are dropped with their shares, and nothing else; what is left rebalances |
| ConsumerGroups.Coordinator.GetOrCreateGroup | internal/consumer/coordinator.go:29-40 | a group is created, and its one watcher started, only the first time |
| ConsumerGroups.Coordinator.updateCounts | internal/consumer/coordinator.go:95-101 | every known topic takes its positive count, no other changes |
| ConsumerGroups.Coordinator.watchTurn | internal/consumer/coordinator.go:93-105 | a watcher's turn updates the counts, then rebalances |
| GroupRuns.RepliesFromOneAssignment | internal/consumer/group.go:122-133 | fencing: in any run all shares handed out under one generation come from one round robin, over the snapshot of its rebalance |
| GroupRuns.NoneTwiceIff | internal/consumer/group.go:156-198 | a rebalance gives no partition id to two members exactly when every topic but the last divides evenly |
| GroupRuns.TwoTopicsOverlap | internal/consumer/group.go:185-192 | two topics of one partition each, and two members: both get a partition 0 |
| GroupRuns.Fenced | internal/consumer/group.go:122-133 | under that condition no id is handed to two members in the same generation, whenever they ask |
| GroupRuns.OneTopicDivides | internal/consumer/group.go:163-170 | the condition always holds with one topic |
| GroupRuns.NoLostRebalance | internal/consumer/group.go:84-107 | in every reachable world a group due for a rebalance has a wake-up waiting or a watcher at work |
| GroupRuns.StableIsBalanced | internal/consumer/group.go:156-198 | only members have shares; in a stable group all do, and they are the round robin of the last rebalance's snapshot |
| GroupRuns.SettlesDown | internal/consumer/coordinator.go:93-105 | once membership and counts stop changing, a watcher's step is enabled until the watcher has made all it had ahead, at most five with at most two rebalances; then none is, and a group with members is stable and balanced |
| GroupRuns.WatcherSettles | internal/consumer/coordinator.go:93-105 | and it gets there: from every reachable world the watcher alone, in as many steps as it has ahead, brings the group to rest |
| GroupRuns.HistoryDecides | internal/consumer/group.go:61-247 | in every run a member is in the group exactly if it has joined since it last left or expired, with that join's topics and the time it was last heard of; each topic counts one partition from the join that first names it, then what it was last set to, or the coordinator's last positive count; the generation is the number of rebalances |
| GroupRuns.SharesStay | internal/consumer/group.go:94-133 | between rebalances a share lasts exactly as long as its member stays |
| GroupRuns.RebalancesAreCalledFor | internal/consumer/group.go:84-107 | no rebalance without a cause: in every run there are at most as many as there were joins, leaves and expiries that call for one |
| Metrics.RingSum | internal/metrics/metrics.go:92-98 | a ring's slots add up to its last items, wherever it has got to |
| Metrics.WindowIsDifference | internal/metrics/metrics.go:85-103 | the rate window sums to the messages counted since the tick one window ago |
| Metrics.RingIsLast | internal/metrics/metrics.go:41-48 | the used part of a ring holds the last items, each as often as it came |
| Metrics.sortInt64 | internal/metrics/metrics.go:132-143 | the insertion sort leaves the same values in ascending order |
| Metrics.QuotientIsUnique | internal/metrics/metrics.go:120 | division towards zero: at most one quotient leaves a remainder smaller than the divisor that has the dividend's sign or is 0 |
| Metrics.PercentileIsUnique | internal/metrics/metrics.go:123-128 | at most one value is such that more than 99 in a hundred samples are at most it and no more than 99 in a hundred are less |
| Metrics.insert | internal/metrics/metrics.go:135-141 | the inner loop moves one value down to its rank and shifts the others up |
| Metrics.Collector.RecordPublish | internal/metrics/metrics.go:41-48 | the latency ring stays in step with all samples so far |
| Metrics.Collector.tick | internal/metrics/metrics.go:89-101 | the rate is that of the messages since the tick 60 ticks ago |
| Metrics.Collector.computeLatencies | internal/metrics/metrics.go:105-130 | over the last 10000 samples, or all there are: the average is their sum divided towards zero, and the 99th percentile the one value that more than 99 in a hundred do not exceed and no more than 99 in a hundred fall short of |

## Left out

- gRPC, WebSocket, generated protobuf code, the web interface, configuration and `broker.go`: plumbing around the modelled parts.
- Timers and clocks: a timeout, a tick and a heartbeat's age are steps or parameters. `resetElectionCh` and `commitCh` carry no state that anything depends on and are not modelled.
- JSON encoding of commands (internal/raft/log.go:108-126): commands come already decoded, with one value for every payload that does not decode.
- Concurrency inside a handler of a Raft node: each handler body is one step, as it would be under a lock.
- Integer widths of terms, log indexes, generations, sizes and counters: they are unbounded. Offsets and timestamps are 64 bits wide, and lengths in record headers 32.
- Files: a segment file is a growing sequence of bytes in a fresh directory; I/O errors, `Sync`, `Close`, the index file's bytes and a restart are not modelled.
- Committed consumer offsets (a map in each group from topic and partition to the number last committed, internal/consumer/group.go:135-147), group summaries (copies of fields for display) and the rebalance callback (a notice to the web interface): nothing that is modelled reads them.
- The sorting routines of the Go library: any of them gives the one sorted sequence there is (`ListingIsUnique`); the model sorts by insertion.
- The rate and the percentile's rank use exact reals, not floating point; the conversion of nanoseconds to milliseconds is not modelled.
- Partitions.Partition.Append: the offset returned is the one allocated. The code reads it from the message object after queueing it, when the object may have been recycled; and it takes fewer than 2^63 appends.
- Partitions.Partition.flush: records are values; message objects and their pool are modelled in module `Interleaving`, where a flusher writes and recycles an object in one step.
- ConsumerGroups.Coordinator.watchTurn: nothing comes between the two halves of the turn; in module `GroupRuns` they are separate steps.
- ConsumerGroups.Group.Join: members are values in a map, so a `Member` that outlives its replacement is not modelled; nothing in the code keeps one.
- Metrics.Collector.RecordPublish: the counter and the ring change in one step, where the code takes two.
