# Verification of the Raft core

This project models the Raft implementation in `raft/` and `raft-common/` and
proves what it guarantees, what it does not, and exactly where the line runs.
The algorithm is that of Ongaro and Ousterhout, "In Search of an Understandable
Consensus Algorithm (Extended Version)", sections 5.2 to 5.4, which
`raft-common/src/protocol.rs` names as its reference.

`dafny verify dfyconfig.toml` checks all of it.

## Three layers

**A node.** `Node.RaftNode`, `LogStorage.RaftLog` and `KeyValue.StateMachine` are
classes with the fields, loops and early returns of the Rust structs. Every
handler is proved to do to the node's fields exactly what a pure function in
`NodeSpec` does to a `NodeState`, and to send and answer exactly what that
function says. The log is an index-to-entry map with a file beside it; `Disk`
proves that reading the file back always rebuilds the map.

**A cluster.** `Cluster` is a transition system over any fixed set of nodes: an
election timer fires, a message arrives, a heartbeat is due, a client proposes, a
node crashes and restarts. Sent messages stay in the network for ever, so loss,
duplication and reordering are all runs. The proofs carry a history beside the
state (who stood for election with which log, who voted with which log, who led
with which log, who vouched for how much of whose log), with an invariant whose
clauses each speak of the history and one node or one message.

**A connection.** `Framing` is the length-prefixed stream: what is delivered
depends on the bytes that arrive and not on how reads cut them.

## As written and as intended

The code departs from the algorithm in seven places. `NodeSpec.Repairs` has a flag
for each; with all flags off (`AS_WRITTEN`) the functions are the code as it
stands, and that is what the classes are proved against.

| flag | the code as it stands | with the flag |
|---|---|---|
| `voteTerm` | counts any granted vote while a candidate (`raft/src/node.rs:398`) | only votes granted in the current term |
| `selfVote` | the candidate is on the list of votes and is added once more (`raft/src/node.rs:409`, `:429`) | counted once |
| `coverReport` | a success reply reports the follower's whole log (`raft/src/node.rs:249`) | the last index the message covered |
| `replyTerm` | a success reply carries the term the follower had before (`raft/src/node.rs:230`) | the term it has now |
| `sameTerm` | a leader takes replies of any earlier term (`raft/src/node.rs:284`) | only of its own |
| `commitClamp` | a follower commits up to its own last index (`raft/src/node.rs:221-222`) | up to the last index the message covered, and never backwards |
| `pendingReset` | waiting clients are kept by index across leaderships (`raft/src/node.rs:568-571`) | a new leader forgets them |

Which of them matter is a theorem, not an opinion. `Necessity` settles, for every
membership of every size and every choice of repairs, when every reachable state or
every run has a guarantee. The conditions build on one another:

| condition | holds if and only if |
|---|---|
| `VotesDecide` | the cluster has one node, or `voteTerm` is set and `selfVote` is set or there are at most three nodes |
| `MatchesHold` | `VotesDecide`, and there are at most two nodes or `coverReport` and `sameTerm` are set |
| `CommitsHold` | `MatchesHold`, and there are at most two nodes or `commitClamp` is set |
| `AnswersHold` | `MatchesHold`, and there are at most two nodes or `pendingReset` is set |

| guarantee | always given if and only if |
|---|---|
| one leader per term; Log Matching; convergence of a follower's log to its leader's; a leadership's answers kept as long as it lasts | `VotesDecide` |
| match-index truth | `MatchesHold` |
| agreement on committed entries; committed entries on a majority; Leader Completeness; nothing committed ever undone; stores the replay of what was applied; equal data where equally much is applied | `CommitsHold` |
| the command a client was told of in a majority of logs | `AnswersHold` |
| no other command committed where a client was told its own is | `CommitsHold` and `AnswersHold` |

`Necessity.SafeExactly` puts them together. `Necessity.EveryClusterNeedsSixRepairs` says
that over clusters of all sizes six of the seven are needed and enough: under which
term a follower replies makes no difference to safety, it costs a leader that compares
terms one round. Where a flag is missing and matters there is a run that breaks the
guarantee, built step by step in `RivalLeaders`, `OverReport`, `OldReplies`, `StaleTail`
and `StolenReply`; the three-node cluster the repository sets up is one of those it
happens in. Two nodes are special: a leader has both votes, so nothing is ever
truncated, and `TwoNodes` proves that votes are all that has to count.

The top-level `README.md` says messages are committed only after majority
replication, appear in the same order on all nodes and are durably stored before
acknowledgement. Of the code as it stands these are false in every cluster of two
or more, by `Necessity.CommitsOnMajorityExactly`, `Necessity.StateMachineSafetyExactly`
and `Necessity.AcknowledgedOnMajorityExactly`; of the repaired code they are
`Theorems.CommittedOnMajority`, `Theorems.StateMachineSafety` and
`Theorems.AcknowledgedOnMajority`, over whole runs.

Safety is not all. `Duties` says what each message obliges its receiver to do: which
term to take, what to answer and to whom, what to commit, whom to answer. `Progress`
puts it together on runs: where votes count, from any reachable state there is a way on
to where a leader with a majority behind it has committed its log, its followers have
too, and its clients are answered. `Elections` starts from anywhere: some
node can always be elected, and where votes count no reachable state of two or more nodes
is a dead end, from each a run goes on to where any client you like has its command
committed on every node and knows it (`Elections.AlwaysAWay`).

What needs no repair, and so holds of the code as it stands, takes any `Repairs`:
terms and votes persist (`Persistence`), the commit scan finds the greatest index it
should (`Quorums`), memory and file agree (`Disk`), a step that keeps what is committed
keeps the store the replay of it (`Stores`), a leader that takes in no other leader's
entries answers whoever proposes to it during that leadership for their own commands
(`Leadership`), and a cluster of one never commits anything
(`Persistence.LoneNodeNeverCommits`). Replication converges whatever is repaired, but
only between two logs that match, that is, where equal terms at an index mean equal logs
up to it (`Convergence.ReplicationConverges`); that all pairs of all runs converge takes
votes that decide (`Necessity.ConvergenceExactly`). A round of it is three steps of the
cluster (`CatchUp`).

## Files

- `types`, `log_spec`, `store_spec`, `node_spec`, `cluster`: entities, the merge of entries into a log, the data a log stands for, every handler as a function, runs of a cluster.
- `raft_log`, `state_machine`, `raft_node`, `disk`: the classes, and the log file.
- `history`, `log_matching`, `acknowledgements`, `replication`, `commitment`, `stores`, `applied_state`, `client_replies`: the invariant and its preservation, one concern a file.
- `persistence`, `quorums`, `convergence`, `follower_limits`, `leadership`, `framing`: results that stand on their own.
- `theorems`, `catch_up`, `progress`, `elections`, `redirects`: the guarantees, on runs alone.
- `duties`: what each message obliges a node to do, in terms of state and messages only.
- `guarantees`, `scenarios`, `resends`, `rival_leaders`, `over_report`, `old_replies`, `lone_commit`, `stale_tail`, `stolen_reply`, `own_answers`: what happens without each repair.
- `two_nodes`, `necessity`: which repairs each guarantee needs in clusters of each size.

## Model

| member | source | states |
|---|---|---|
| Theorems.ElectionSafety | raft/src/node.rs:398-416 | over a whole run with loss, repetition, reordering and crashes, two leaders of one term, at whatever two times, are the same node |
| Theorems.LogMatchingProperty | raft/src/node.rs:192-217 | in every reachable state, where votes count, two logs with the same term at an index are equal up to it |
| Theorems.MatchIndexTruth | raft/src/node.rs:284-291 | a peer still in the leader's term holds, entry for entry, all the leader has on record for it |
| Theorems.LeadersHoldCommitted | raft/src/node.rs:328-346 | what any node had committed at any time is in the log of every leader of a later term, seen before or after, and of the same term, seen no earlier |
| Theorems.StateMachineSafety | raft/src/node.rs:219-228 | any two nodes, at any two times, agree on all they both regard as committed |
| Theorems.CommittedOnMajority | raft/src/node.rs:604-627 | what any node had committed at any time is in a majority of logs ever after |
| Theorems.EqualAppliedEqualData | raft/src/state_machine.rs:42-63 | with the repairs commits need, nodes that applied up to the same index hold the same data, at whatever times, and it is the replay of their log up to there, across restarts; `Necessity.EqualDataExactly` has the exact condition |
| Theorems.CommitNeverUndone | raft/src/node.rs:206-224 | with the repairs commits need, no step removes or rewrites an entry at or below the commit index, applied equals committed within the log, and only a crash takes the commit index back; `Necessity.CommitNeverUndoneExactly` has the exact condition |
| Theorems.AcknowledgedIsDurable | raft/src/node.rs:656-669 | a client told Success at an index finds its own command there on every node that commits that far, at any time |
| Theorems.AcknowledgedOnMajority | raft/src/node.rs:656-669 | and that command is at that index in a majority of logs ever after |
| Theorems.ConvergesFromAnywhere | raft/src/node.rs:514-536 | where votes count, from any reachable state reliable rounds bring any node not ahead of a leader to hold its whole log; `Necessity.ConvergenceExactly` has the exact condition |
| CatchUp.RoundSteps | raft/src/node.rs:502-547 | a round is three steps of the cluster: the heartbeat is due, it arrives, the reply arrives |
| CatchUp.CatchesUp | raft/src/node.rs:284-305 | where votes count, every run goes on, within three events for each round of the bound, to where a node not ahead of a leader holds that leader's log and the leader still leads |
| Progress.FollowerLearns | raft/src/node.rs:219-228 | where votes count, every run goes on, within three events for each of boundedly many rounds, to where a node not ahead of a leader has the leader's log, has committed at least what the leader had, and has acknowledged it all |
| Progress.FollowerLearnsData | raft/src/node.rs:638-653 | and a follower that had the log with true data then holds the replay of what it has committed, which is at least what the leader had |
| Progress.NextHeartbeat | raft/src/node.rs:219-228 | one heartbeat that covers the log makes a follower commit and apply exactly what its leader has committed, as written and repaired |
| Progress.MajorityCommits | raft/src/node.rs:580-635 | once a majority has acknowledged an entry of the leader's term, their replies make the leader commit it and answer everyone who waits up to it, as written and repaired |
| Progress.EverythingCommits | raft/src/node.rs:580-669 | where votes count, from wherever a run has come to it goes on to where a leader whose log ends in its term, and a majority of which nobody is in a later term, have all committed that log, and everyone who waited at the leader is answered |
| Progress.ProposalArrives | raft/src/node.rs:550-577 | where votes count, a proposal is in the log of a follower that lacks less than a batch two events later: it is made, and the message it sets off arrives |
| Elections.MajorityElects | raft/src/node.rs:422-469 | as written and however repaired, a node that does not lead and is behind none of a majority in term or log leads the next term once its timer fires and they are asked and answer |
| Elections.SomeoneElected | raft/src/node.rs:311-419 | from any reachable state of two or more nodes, as written and however repaired, a run goes on to where one is elected in a later term than any before, with a log no older than any before |
| Elections.AlwaysAWay | raft/src/node.rs:550-669 | where votes count, no reachable state of two or more nodes is a dead end: a run goes on to where any given client is told Success at an index where every node has committed its command, newly appended |
| Elections.WayOnExactly | raft/src/node.rs:457-466 | where votes count, a run can always go on to that iff the cluster has more than one node |
| Progress.DeposedLearns | raft/src/node.rs:274-282 | a leader that a node has overtaken in term follows in that term after one round with it |
| Duties.TermTaken | raft/src/node.rs:141-164 | whatever message a node gets, its term afterwards is the later of the two, unless it ignores responses of that kind, and then nothing happens |
| Duties.LaterTermDeposes | raft/src/node.rs:181-185 | any message of a later term that is not ignored makes its receiver a follower with its vote free, or given to the candidate that asks |
| Duties.ResponseDeposes | raft/src/node.rs:274-282 | a response of a later term changes term, role and vote and nothing else |
| Duties.VoteAnswered | raft/src/node.rs:311-349 | every request for a vote is answered once, to the asker, in the later of the two terms, and granted iff the request is not stale, nobody else has the vote of that term and the candidate's last term and index are lexicographically no smaller |
| Duties.AnswerTeaches | raft/src/node.rs:387-395 | a candidate that hears an answer is no longer behind the voter in term |
| Duties.EntriesRefused | raft/src/node.rs:176-201 | entries from an earlier term or without the entry before them are refused once, to the sender, in the later of the two terms, and change no log, commit index or data |
| Duties.RefusalTeaches | raft/src/node.rs:274-282 | a leader that hears a refusal is no longer behind the refuser, and no longer leads if it was |
| Duties.EntriesAccepted | raft/src/node.rs:203-230 | accepted entries are at their places afterwards, what follows them is the old tail or nothing, and the sender is told so once |
| Duties.FollowerCommits | raft/src/node.rs:219-228 | after accepting, a node has committed at least what the message announced as far as it covers it, at most the announced or what it had, and applied what it committed |
| Duties.LeaderCommits | raft/src/node.rs:580-635 | after a success reply no index beyond the leader's commit index is of its term and held by a majority, by its records; a new commit index is |
| Duties.LeaderAnswers | raft/src/node.rs:656-669 | everyone waiting at or below a newly reached commit index is answered at that index and forgotten, nobody else is, and otherwise nobody is |
| Duties.LeaderStepsBack | raft/src/node.rs:299-305 | a refusal takes the peer's next index one back, never below one, and changes nothing else |
| Duties.ProposalTaken | raft/src/node.rs:562-577 | a proposal goes behind the leader's log in its term, its client waits at that index and no other client is touched, and every peer less than a batch behind is sent the end of the log at once |
| Duties.VoteTaken | raft/src/node.rs:397-416 | a granted vote is counted once, and makes a leader iff the voters, the candidate twice as written, are a majority |
| Duties.WinnerGreets | raft/src/node.rs:472-499 | a new leader names itself leader and asks every peer, with an empty message, whether it has the last entry of its log |
| Duties.CandidateAsks | raft/src/node.rs:422-469 | whoever stands for election votes for itself in the next term and asks every peer with its last index and term |
| Redirects.HintIsLastHeard | raft/src/node.rs:555-559 | on every run a node's hint is x iff x is the leader named by the last entries of no earlier term it took since its last start, or itself if it came to lead since |
| Redirects.RedirectedExactly | raft/src/node.rs:555-559 | on every run a client was told NotLeader with a hint iff it asked a node that did not lead and last heard of that leader |
| Redirects.EntriesNameLeader | raft/src/node.rs:527-534 | every AppendEntries of every run names its sender, which led its term |
| Redirects.HeardIsTheLeader | raft/src/node.rs:555-559 | where votes count, whom a node heard of is the only leader its term ever had |
| Necessity.ElectionSafetyExactly | raft/src/node.rs:398-410 | for every membership: every reachable state has one leader per term iff one node, or votes count in their own term and the candidate's own vote counts once or there are at most three nodes |
| Necessity.LogMatchingExactly | raft/src/node.rs:562-564 | for every membership: the logs of every reachable state match iff the same condition holds |
| Necessity.MatchIndexTruthExactly | raft/src/node.rs:284-291 | for every membership: every recorded match of every reachable state is true iff votes decide elections and there are at most two nodes or replies report only what was covered and count only in their term |
| Necessity.ConvergenceExactly | raft/src/node.rs:514-536 | for every membership: from every reachable meeting of a leader and a node not ahead of it, reliable rounds beyond the bound end with the leader's log at both, iff votes decide elections |
| Necessity.StateMachineSafetyExactly | raft/src/node.rs:219-250 | for every membership: the nodes of every reachable state agree on what is committed iff matches are true and there are at most two nodes or followers commit only what was covered |
| Necessity.CommitNeverUndoneExactly | raft/src/node.rs:205-224 | for every membership: no step from any reachable state rewrites or removes what its node has committed or, but for a crash, lowers its commit index, iff the same condition holds |
| Necessity.StoresTrueExactly | raft/src/node.rs:638-653 | for every membership: in every reachable state each store is the replay of the applied prefix of its log, and as far as committed, iff the same condition holds |
| Necessity.EqualDataExactly | raft/src/state_machine.rs:42-63 | for every membership: any two nodes, at any two times of any run, that have applied equally far hold the same data, iff the same condition holds |
| Necessity.CommitsOnMajorityExactly | raft/src/node.rs:604-620 | for every membership: in every reachable state what a node regards as committed is in a majority of logs iff the same condition holds |
| Necessity.LeaderCompletenessExactly | raft/src/node.rs:328-346 | for every membership: in every reachable state leaders have what nodes of no later term have committed iff the same condition holds |
| Necessity.ClashNotOnMajority | raft/src/node.rs:604-620 | two different entries committed at one index cannot both be in a majority of logs |
| Necessity.AcknowledgementsExactly | raft/src/node.rs:568-571 | for every membership: in every reachable state no node has committed another command where a client was told Success iff what commits need holds and there are at most two nodes or a new leader forgets earlier clients |
| Necessity.AcknowledgedOnMajorityExactly | raft/src/node.rs:656-669 | for every membership: in every reachable state the command of every client told Success is at its index in a majority of logs iff matches are true and there are at most two nodes or a new leader forgets earlier clients, however far followers commit |
| Necessity.OwnAnswersExactly | raft/src/node.rs:550-577 | for every membership: on every run whoever was answered during a leadership, for an index beyond the log it began with, finds its own command there, committed, as long as that leadership lasts, iff votes decide elections |
| Necessity.SafeExactly | raft/src/node.rs:141-164 | for every membership: all the guarantees hold in every reachable state iff the cluster has the repairs its size needs |
| Necessity.EveryClusterNeedsSixRepairs | raft/src/node.rs:141-164 | all the guarantees hold in every reachable state of every cluster iff all repairs but the reply's term are made |
| Necessity.EnoughIsSafe | raft/src/node.rs:141-164 | with the repairs its size needs, every reachable state of a cluster has all the guarantees |
| TwoNodes.TwoNodesSafe | raft/src/node.rs:398-416 | where votes count, every run of two nodes has every guarantee on matches, commits, leaders and answers, whatever else is left unrepaired |
| TwoNodes.TwoNodesStay | raft/src/node.rs:205-224 | and no step undoes a commit, and stores are the replay of what was applied |
| TwoNodes.TwoNodesData | raft/src/state_machine.rs:42-63 | and nodes that applied equally far, at whatever two times, hold the same data |
| TwoNodes.UpToDateContains | raft/src/node.rs:332-337 | where leaders' logs form a chain, a candidate as up to date as a voter has the voter's whole log |
| TwoNodes.LogsGrow | raft/src/node.rs:205-217 | in a cluster of two no step of a node shortens its log or lowers its term |
| RivalLeaders.DoubleCountElectsTwo | raft/src/node.rs:409-429 | without counting the candidate once, every cluster of four or more reaches two leaders of term 1 |
| RivalLeaders.StaleVotesElectTwo | raft/src/node.rs:397-401 | without matching the term of a vote, every cluster of two or more reaches two leaders of term 3 |
| RivalLeaders.LogsPart | raft/src/node.rs:562-564 | from any state with two leaders of one term, two proposals more lead to logs that do not match |
| RivalLeaders.Misrecord | raft/src/node.rs:284-291 | once two leaders of one term have taken in each other's entry, one acknowledgement records a match that is not one |
| RivalLeaders.Clashed | raft/src/node.rs:604-627 | and acknowledgements from all make both commit, at one index, what the other proposed; their data differ, and a client is told its command is there that almost nobody has |
| RivalLeaders.Threatened | raft/src/node.rs:205-217 | from two new leaders of one term a state is reached where one has committed its entry and a message will replace it |
| RivalLeaders.Stranded | raft/src/node.rs:284-291 | and one where a leader believes that a follower has its entry, which holds another of the same term |
| Convergence.StuckForever | raft/src/node.rs:514-536 | from there on no number of rounds makes the two logs agree |
| OwnAnswers.Robbed | raft/src/node.rs:656-669 | from two new leaders of one term a run is reached where one leads throughout and its client is told Success for an index that holds another command |
| OverReport.Deceives | raft/src/node.rs:246-251 | without the covered index in replies, every cluster of three or more reaches a leader with acknowledgements from all others for an entry nobody has been sent |
| OldReplies.Deceives | raft/src/node.rs:284-291 | without comparing terms, every cluster of three or more reaches a leader with acknowledgements from half of it, of an earlier term, for entries that have been overwritten |
| LoneCommit.RecordsFalsely | raft/src/node.rs:284-291 | such a leader records a match that is not one |
| LoneCommit.Diverge | raft/src/node.rs:604-627 | such a leader commits and acknowledges an entry alone, another leader commits another one at the same index, data differ, and the first is about to be overwritten |
| OverReport.Clashes | raft/src/node.rs:236-251 | without the covered index in replies, all that happens at index 66 of every cluster of three or more |
| OldReplies.Clashes | raft/src/node.rs:284-291 | without comparing terms, all that happens at index 2 of every cluster of three or more |
| StaleTail.Clashes | raft/src/node.rs:219-224 | without the clamp, every cluster of three or more reaches two different committed entries at index 65, behind a full batch of 64, different data, a leader that lacks one of them, a client told of the other, and a message that will undo one |
| Scenarios.Undone | raft/src/node.rs:205-224 | when such a message arrives, the node no longer has what it had committed, and its store is not the replay of its log |
| StolenReply.Stolen | raft/src/node.rs:656-669 | without forgetting earlier clients, a client of every cluster of three or more is told Success for index 1, where another command is committed, and no majority has its own |
| FollowerLimits.SureOf | raft/src/node.rs:192-217 | after a merge, the first n entries are the leader's, whichever leader it was, iff n is at most what the message covered |
| FollowerLimits.ReportAsWritten | raft/src/node.rs:246-251 | a reply as written is true of every log its leader could have iff no old tail survived the merge |
| FollowerLimits.CommitAsWritten | raft/src/node.rs:219-224 | what is newly committed as written is in every log its leader could have iff no old tail survived or the leader's commit index is covered, as it is for every batch below 64 |
| FollowerLimits.SentIsSendable | raft/src/node.rs:520-524 | a message a leader could send has a full batch, or reaches the end of its log and so covers its commit index |
| Quorums.WinsMeans | raft/src/node.rs:404-410 | the test on the list of votes passes iff the set of voters is large enough, as written and as intended |
| Quorums.DoubleCountThreshold | raft/src/node.rs:404-410 | any two voter sets accepted as written intersect iff the cluster has at most three nodes |
| Quorums.ScanIsGreatest | raft/src/node.rs:604-620 | the downward scan yields the greatest committable index above the commit index, or none when there is none |
| Quorums.HoldersByRank | raft/src/node.rs:611-616 | at least c peers match up to i iff the c-th greatest match index is at least i |
| Quorums.CommitIsOrderStatistic | raft/src/node.rs:596-620 | with the matches ranked, the scan picks the greatest index above the commit index that is in the log, of the current term and at most the majority-th greatest match |
| Quorums.HasRanking | raft/src/node.rs:611-616 | every match map can be ranked, each peer once and greatest first |
| Persistence.VoteAndTermPersist | raft/src/log.rs:157-179 | along every run of the code as written, crashes included, a term never falls and a vote within a term never changes |
| Persistence.MessagesInPlace | raft/src/node.rs:514-524 | every AppendEntries of every run holds the entry for index prev + 1 + i at position i |
| Persistence.LoneNodeNeverCommits | raft/src/node.rs:457-466 | a cluster of one leads once its timer fires but never commits and never acknowledges |
| LogMatching.RunKeeps | raft/src/node.rs:141-164 | the invariant on votes, elections and logs holds along every run |
| LogMatching.WinKeeps | raft/src/node.rs:472-499 | a candidate that wins is the first of its term and its log opens the term's log |
| LogMatching.AcceptedMerge | raft/src/node.rs:192-217 | after an accepted message the log is the follower's own or a prefix of the sender's, and the sender's as far as covered |
| LogMatching.FirstVoteKeeps | raft/src/node.rs:328-346 | a first vote in a term opens the one ballot of that node and term, cast for a log at least as up to date |
| LogMatching.ProposeKeeps | raft/src/node.rs:562-577 | a proposal extends the leader's log and nothing else of its term |
| Acknowledgements.LeaderCompleteness | raft/src/node.rs:328-346 | a committed prefix is in every later leader's log at its election |
| Acknowledgements.UpToDateCarries | raft/src/node.rs:332-337 | the up-to-date check carries a committed prefix from voter to candidate |
| Replication.RunVouched | raft/src/node.rs:263-308 | what nodes acknowledged and leaders recorded stays true along every run |
| Replication.MergeHolds | raft/src/node.rs:205-217 | a merge keeps an acknowledged prefix, or the sender was elected without it |
| Replication.NewBallotHolds | raft/src/node.rs:328-346 | a deciding vote is cast with every earlier acknowledgement still held |
| Commitment.RunSafe | raft/src/node.rs:580-635 | every commit index and every announced one is justified by a majority, along every run |
| Commitment.MergeKeepsCommitted | raft/src/node.rs:205-217 | merging a later leader's entries keeps all that was committed |
| Commitment.ClampedCommit | raft/src/node.rs:219-224 | the announced commit index, clamped to what the message covered, is committed |
| Commitment.CommittableCommitted | raft/src/node.rs:604-620 | an index that passes the leader's test satisfies the commit rule of section 5.4.2 |
| Stores.ApplyRangeReplays | raft/src/node.rs:644-650 | applying a stretch of entries continues the replay of the log, none skipped and none twice |
| Stores.StoreFollows | raft/src/node.rs:638-653 | as the code stands and however repaired, a step that keeps what its node has committed keeps the store the replay of the applied prefix |
| AppliedState.RunStores | raft/src/node.rs:638-653 | with the repairs commits need, along every run nothing committed is undone, each store is the replay of the applied prefix and both applied indices agree; `Necessity.StoresTrueExactly` has the exact condition |
| AppliedState.AcceptStores | raft/src/node.rs:226-228 | accepting entries keeps the applied prefix and applies exactly what is newly committed |
| ClientReplies.RunReplies | raft/src/node.rs:550-577 | with true matches and forgetful leaders, along every run waiting clients wait at their own command and acknowledged ones had it committed |
| Leadership.LeadershipSettlesOwn | raft/src/node.rs:656-669 | on any run as written: while a node leads and takes in no other leader's entries, every Success it gives beyond its log at the start goes to the client whose command is there, committed from then on |
| Convergence.ReplicationConverges | raft/src/node.rs:284-305 | given two logs that match by term, after a bounded number of rounds, from any next index, stale tail or batch, the follower holds the leader's log |
| Convergence.RoundProgress | raft/src/node.rs:514-536 | every round short of agreement shrinks the gap, or keeps it and shortens the way to it |
| Convergence.RejectedRound | raft/src/node.rs:299-305 | beyond the shared part a round steps the next index back by one and changes no log |
| Convergence.CheckPasses | raft/src/log.rs:295-300 | the consistency check at an index of the leader's log passes iff the logs agree up to it |
| LogSpec.MergeIdempotent | raft/src/node.rs:205-217 | receiving a message again changes nothing |
| LogSpec.MergeKeeps | raft/src/node.rs:205-217 | a slice of the sender's log, however short or late, removes no entry the logs share |
| LogSpec.MergeShape | raft/src/node.rs:205-217 | a merge leaves the log alone or makes it the sender's prefix, and agrees with the sender as far as covered |
| Disk.DiskRoundTrip | raft/src/log.rs:93-141 | every entry within the capacity bounds survives conversion to disk and back |
| Disk.KindsByName | raft/src/log.rs:93-141 | a command is on disk under the name of its kind, and any other name reads as no operation |
| Disk.OversizedFields | raft/src/log.rs:95-109 | of a Put on disk a key beyond 256 bytes reads as empty, a value beyond 1024 loses its end, and what is missing is empty |
| Disk.BlankSkipped | raft/src/log.rs:71-74 | an empty line anywhere in the file changes nothing |
| Disk.LoadAppended | raft/src/log.rs:71-78 | reading a file with records appended inserts their entries, later ones winning |
| Disk.InsertAllOverlays | raft/src/log.rs:240-241 | inserting a run of entries keeps a log without gaps and overlays it |
| Disk.LoadRewritten | raft/src/log.rs:262-273 | a log without gaps, rewritten record by record, reads back as itself |
| Disk.CutAgrees | raft/src/log.rs:253-285 | truncation leaves memory and file in agreement iff it cuts no further than one past the end, and then leaves the prefix |
| Disk.MemoryMatchesDisk | raft/src/log.rs:205-285 | after any sequence of writes and cuts a restart reads back exactly what is in memory, without gaps |
| Framing.WordRoundTrip | raft/src/network.rs:162-166 | the four length bytes carry the length modulo 2 to the 32 |
| Framing.NetworkOrder | raft/src/network.rs:162 | the first of the four length bytes weighs most |
| Framing.ShortPrefix | raft/src/network.rs:206-212 | a message below 256 bytes is sent behind three zeros and its length |
| Framing.DeliveredUpToMebibyte | raft/src/network.rs:164-171 | one message is delivered if it has at most 1048576 bytes, and otherwise drops the connection |
| Framing.DecodeEncode | raft/src/network.rs:206-225 | decoding undoes encoding whatever follows, and yields nothing until the whole message is there |
| Framing.DrainSplit | raft/src/network.rs:160-182 | handling a buffer in two pieces is handling it at once |
| Framing.ChunkingIrrelevant | raft/src/network.rs:152-200 | any bytes, cut into reads in any two ways, give the same deliveries and the same rest |
| Framing.StreamDelivers | raft/src/network.rs:152-200 | exactly the messages that arrived whole are delivered, in order, and exactly the unfinished one is left |
| Framing.DeliveredIffFits | raft/src/network.rs:168-171 | a list of messages is delivered whole iff each is within the limit, else the connection drops at the first that is not |
| Framing.Connection.Receive | raft/src/network.rs:160-200 | the buffer loop does to the connection what one more read does to the stream |
| Framing.Connection.Serve | raft/src/network.rs:148-203 | a connection delivers what is in all bytes read before the peer closes |
| LogStorage.RaftLog.constructor | raft/src/log.rs:39-52 | opening the storage makes memory agree with the files found |
| LogStorage.RaftLog.LoadFromDisk | raft/src/log.rs:55-91 | the loop over lines rebuilds entries, last index, term and vote from the files |
| LogStorage.RaftLog.SetCurrentTerm | raft/src/log.rs:157-161 | a new term clears the vote, and both are on disk |
| LogStorage.RaftLog.SetVotedFor | raft/src/log.rs:172-179 | the vote is set in the same term and is on disk |
| LogStorage.RaftLog.ReadsAgree | raft/src/log.rs:187-202 | on a log without gaps the map answers terms, last term and the consistency check as the sequence does |
| LogStorage.RaftLog.Append | raft/src/log.rs:205-227 | the entry goes behind the last one, in memory and file |
| LogStorage.RaftLog.AppendEntries | raft/src/log.rs:230-250 | all entries are inserted in order, in memory and file |
| LogStorage.RaftLog.TruncateFrom | raft/src/log.rs:253-285 | exactly the prefix is left, in memory and file |
| LogStorage.RaftLog.GetEntries | raft/src/log.rs:288-292 | the inclusive range yields the matching slice of the log |
| KeyValue.StateMachine.constructor | raft/src/state_machine.rs:29-34 | an empty store with nothing applied |
| KeyValue.StateMachine.Apply | raft/src/state_machine.rs:42-63 | a new entry's command takes effect once, an old entry has none, and the result tells a no-op |
| KeyValue.StateMachine.Get | raft/src/state_machine.rs:66-68 | of any log whose replay the data is, what the last command naming the key left |
| StoreSpec.ReplayReads | raft/src/state_machine.rs:42-68 | reading a key of the replayed data finds the last write to it in the log |
| Node.RaftNode.GetValue | raft/src/node.rs:727-729 | when the store is the replay of the applied prefix, a client reads the last applied write to the key |
| Node.RaftNode.constructor | raft/src/node.rs:96-128 | on any files a node starts with memory and files in agreement; on a log without gaps it is a follower with that term, vote and log and nothing else |
| Node.RaftNode.FirstStart | raft/src/node.rs:96-128 | a node started where there are no files is what a cluster starts from: term 0, no vote, no log |
| Node.RaftNode.Recover | raft/src/node.rs:96-128 | a node started on another's files is that node restarted |
| Node.RaftNode.SendAppendEntriesResponse | raft/src/node.rs:236-260 | the reply carries the given term and the last index of the log |
| Node.RaftNode.MessageFor | raft/src/node.rs:514-536 | a peer is sent the entries from its next index on, 64 at most, with the index and term before them |
| Node.RaftNode.SendHeartbeats | raft/src/node.rs:502-547 | a leader sends every peer its message, others send nothing |
| Node.RaftNode.ApplyCommittedEntries | raft/src/node.rs:638-653 | the loop applies what lies between applied and committed |
| Node.RaftNode.NotifyPendingRequests | raft/src/node.rs:656-669 | exactly the clients waiting up to an index are answered and forgotten |
| Node.RaftNode.DeleteConflicting | raft/src/node.rs:205-213 | for any entries the log is cut at the first whose term clashes at its own index, or not at all |
| Node.RaftNode.MergeEntries | raft/src/node.rs:203-217 | for any entries conflict search, truncation and insertion are one cut and one write, memory and file agree, and entries in place are merged |
| Disk.MergedIsMerge | raft/src/node.rs:203-217 | for entries in place behind an index of a log without gaps, cutting at the first clash and writing is the merge |
| Disk.MergedAgrees | raft/src/node.rs:203-217 | wherever the entries belong, memory and file go on to agree |
| Node.RaftNode.TakeEntries | raft/src/node.rs:203-224 | an accepted message writes its entries and moves the commit index as specified, and with entries in place changes nothing else |
| Node.RaftNode.HandleAppendEntries | raft/src/node.rs:167-233 | refines its specification for entries in place: rejections, merge, commit, application and reply; for any message storage changes only by the entries accepted and memory and file agree |
| Node.RaftNode.CountHolders | raft/src/node.rs:611-616 | the count over match indices is the number of peers at or beyond an index |
| Node.RaftNode.TryAdvanceCommitIndex | raft/src/node.rs:580-635 | the loop commits what the specified scan finds, applies it and answers clients |
| Node.RaftNode.HandleAppendEntriesResponse | raft/src/node.rs:263-308 | refines its specification: step-down, recorded match, commit, or next index stepped back |
| Node.RaftNode.Propose | raft/src/node.rs:550-577 | refines its specification: redirect, or append, remember the client and replicate |
| Node.RaftNode.InitializePeers | raft/src/node.rs:487-490 | every peer's next index is one past the log and its match is zero |
| Node.RaftNode.BecomeLeader | raft/src/node.rs:472-499 | refines its specification: role, peer indices and first heartbeats |
| Node.RaftNode.StartElection | raft/src/node.rs:422-469 | refines its specification: new term, own vote, requests to all peers, a lone node leads at once |
| Node.RaftNode.HandleRequestVote | raft/src/node.rs:311-349 | refines its specification: stale term, step-down, vote or refusal |
| Node.RaftNode.HandleRequestVoteResponse | raft/src/node.rs:377-419 | refines its specification: step-down, tally as written, leadership |
| Node.RaftNode.HandleMessage | raft/src/node.rs:141-164 | every message, its entries in place if it has any, does to a node what its specification says, with what it sends and answers |

## Left out

- Convergence.ReplicationConverges: assumes that the two logs match by term, which runs of the code as it stands can break, that heartbeats and replies of one pair alternate undisturbed and that the leader's log stays as it is.
- FollowerLimits.CommitAsWritten: requires, like FollowerLimits.ReportAsWritten and FollowerLimits.SureOf, the form that FollowerLimits.SentIsSendable proves of every message a leader could send.
- Node.RaftNode.HandleAppendEntries: what a node does once a message out of place has left gaps in its log is not followed further; `Persistence.MessagesInPlace` proves that no run sends one.
- Node.RaftNode.Recover: starts from the files of a node whose log has no gaps, as `Disk.MemoryMatchesDisk` proves they are.
- Re-entrant locking: on both rejection paths (`raft/src/node.rs:177`, `:198`) the reply sender locks the log that the handler still holds (`raft/src/node.rs:242`). The model sends the reply.
- Interleaving of one node's tasks: each handler is one atomic step, although role and log are locked separately.
- Elections.AlwaysAWay: shows that a run can go on so, like all of `CatchUp`, `Progress` and `Elections`, not that real timers, delays and losses will let it.
- Timers: an election timeout is a step that may happen at any moment to a node that does not lead; elapsed time and random delays are not modelled.
- Membership change: `add_peer` and `remove_peer` act on one node only and are not agreed through the log; the membership is fixed.
- JSON, bincode and TOML encodings: payloads are byte strings, and a payload that does not parse is skipped by the code and does not appear. Keys are byte strings within their capacity.
- Client request and response messages between nodes are ignored by the handler and have no counterpart.
- Snapshots: `snapshot` and `restore` are a codec round trip that the node never uses. `get_messages` and `keys` are queries without effect.
- Torn writes, failed flushes and renames: every file operation completes as a whole.
- Widths: terms and indices do not overflow 64 bits, node ids fit 64 bytes and are distinct.
- Order of hash maps and channels: what a handler sends and answers is a set.
- Sockets, connection caching, reconnects, the command line, configuration and the eBPF classifier.
