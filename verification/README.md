# SkyLock: a verified model

SkyLock is a coordination service in Go. It has two parts that do not call each other, and the model keeps them apart.

**Raft-lite** (`internal/raft`). A cluster is a step machine. Its steps are the handlers of `node.go`: begin a campaign,
ask for and answer a vote, count an answer, finish a campaign, start a heartbeat round, build a request, answer it, take
the answer, propose, advance the commit index, run one apply pass. The network is a growing set of messages, so that any
message may be lost, repeated and overtaken. A run is any sequence of steps. The reference is the Raft paper (Ongaro and
Ousterhout, "In Search of an Understandable Consensus Algorithm", USENIX ATC 2014), sections 5.2 to 5.4.

**Lock service** (`internal/store`, `internal/lock`, `internal/session`, `internal/watch`). The store is a tree of nodes
with redundant lists of children, ephemeral leaves, versions and one sequence counter. The lock manager is the queue recipe
of ZooKeeper on top of it. `TryLock` is cut into steps wherever it lets go of a mutex, and any number of calls interleave
with time-outs, unlocks, session cleanups and direct use of the store.

Objects that the source updates in place are classes (`RaftLog.Log`, `RaftState.State`, `RaftNode.Node`, `Store.Store`,
`LockManager.Manager`, `Session.Manager`, `Watch.Manager`). Each method is proved equal to a function on the object's value,
and the runs are runs of those functions.

| file | content |
|---|---|
| `RaftLog`, `RaftState`, `RaftCommit`, `RaftNode` | one node: log, state, commit choice, handlers |
| `RaftCluster` | the step machine |
| `RaftElection`, `RaftElectionRuns` | election safety, and runs that show why its guards are needed |
| `RaftLeaders` | whom the nodes take for their leader, and how campaigns end |
| `RaftMatching`, `RaftReplication` | Log Matching, exact replication, commit, apply order, backoff |
| `RaftProposals` | where entries come from |
| `RaftRetention` | when an append request takes away what is committed |
| `RaftTrace`, `RaftReigns`, `RaftBallots`, `RaftCompleteness`, `RaftSafety` | Leader Completeness and State Machine Safety under seven guards |
| `RaftReplicationRuns` | runs that lose committed entries when one of the guards is broken |
| `Sequences`, `Decimal` | lists without repetition; sequence numbers as padded text |
| `Store`, `StoreTree`, `StoreHistory` | the store, its tree invariant, versions and contents over whole histories |
| `LockManager`, `LockQueue`, `LockWaiters`, `LockLimits` | the lock manager, its step machine, and the limits of what it guarantees |
| `LockCalls`, `LockOwners` | what a call does for its caller, and whose a lock is |
| `Session`, `Ownership` | leases, and ephemeral nodes together with the sessions that own them |
| `Watch`, `WatchDelivery`, `WatchReceiving` | watchers, channels, what is delivered, and what clients receive |

## Where the code falls short of its promises

In these places the code is modelled as it is. A concrete input or run shows the failure, and where the failure lies in one
step, a lemma states exactly when that step keeps the property.

- Votes: `BecomeFollower` clears the vote even within a term (`internal/raft/state.go:183`), a finished campaign leads
  whatever term the node has meanwhile reached (`internal/raft/node.go:212-214`), and a late answer can take a node back to
  an older term or make it forget the vote of its own (`internal/raft/node.go:180-181`, `283-284`). Election safety holds
  under three guards on steps, none of which can be dropped (`EveryGuardIsNeeded`). Each guard is exact for what its handler
  is to keep: `GrantIsFirstOrRepeatedIff` for vote requests, `WinnerLeadsItsTermIff` for finished campaigns,
  `DemotionKeepsPromiseIffFresh` for answers.
- Commit choice: the quorum is the cluster size minus its integer half. It meets every vote quorum for all cluster sizes;
  two such quorums always meet exactly when the size is odd (`CommitQuorumsMeetIffOdd`).
- Committed entries: followers cut their logs unconditionally, so that an old request removes entries that have been
  committed, the next leader lacks them (`CommittedEntriesAreLost`), and two nodes apply different entries at one index
  (`AppliedEntriesDiffer`). `CommittedPrefixKeptIff` and `CommitStaysInLogIff` say exactly which requests take committed
  entries away and which leave a commit index beyond the log. Leader Completeness and State Machine Safety hold in every run
  that obeys four further guards: requests are built by the leader of their term, match indexes come from answers of the
  current term, only leaders advance the commit index, and a request of the follower's own term does not cut off what lies
  behind entries it agrees with (`LeaderCompleteness`, `StateMachineSafety`, `AppliedAgree`).
- Follower commit: the commit index can go back (`CommitGoesBackIff`, `CommitIndexGoesBack`).
- Heartbeats: a next index beyond the log, set by a delayed answer to an earlier leadership, makes an empty request succeed
  although the follower lacks entries (`AcceptanceMeansPrefixIff`, `StaleNextIndexIsAccepted`).
- Apply: a turn of the apply loop keeps the order exactly when it does not jump over an index (`TurnKeepsOrderIff`), which a
  log that grows during a pass makes it do (`GrowingLogLeavesGap`); passes that are atomic never do.
- Store: a sequential node created at the root is in no list of children (`CreateKeepsRootIff`,
  `RootSequentialIsNotListed`). Everything else about the tree, and all that rests on it, holds nevertheless.
- Locks: padded names sort like numbers below 10^10 only, and mutual exclusion fails at exactly that bound
  (`TwoHoldersAtBound`). It also fails when somebody else creates a node inside a lock directory
  (`ForeignNodeMakesTwoHolders`).
- Sessions: a heartbeat that comes too late drops the session without cleanup (`internal/session/manager.go:117-120`), and
  nothing checks the session for which an ephemeral node is created (`BeatKeepsIff`, `LateBeatOrphans`,
  `CreateKeepsIff`, `DeadSessionOrphans`).
- The documentation says that a waiting client watches its predecessor (`README.md:327-333`). The code has no such watch: a
  waiting call looks again whenever its channel is signalled. The model lets that happen at any time.

## Model

| member | source | states |
|---|---|---|
| RaftLog.Log.Append | internal/raft/log.go:38-45 | the log grows by the entry, renumbered to its 1-based position, which is returned |
| RaftLog.Log.AppendEntries | internal/raft/log.go:48-67 | refuses a gap and changes nothing then; otherwise everything behind the predecessor is replaced by the renumbered entries |
| RaftLog.SpliceRebuilds | internal/raft/log.go:48-67 | for logs with Log Matching, splicing the sender's suffix behind an agreeing predecessor yields the sender's whole log, whatever was cut off |
| RaftLog.MatchingPrefix | internal/raft/log.go:118-126 | under Log Matching, equal terms at an index mean equal logs up to that index |
| RaftLog.MatchingPushed | internal/raft/log.go:38-45 | a new entry keeps two logs matching when the other has no entry of that term at that position |
| RaftState.State.BecomeFollower | internal/raft/state.go:177-185 | term and leader are set and the vote is cleared, nothing else changes |
| RaftState.State.BecomeCandidate | internal/raft/state.go:188-195 | the next term with a vote for oneself and no known leader, nothing else changes |
| RaftState.State.BecomeLeader | internal/raft/state.go:198-210 | every peer's next index is one past the log and every match index zero; entries of other keys stay |
| RaftCommit.ExchangeSort | internal/raft/node.go:323-330 | the nested loops sort the array in place and permute it |
| RaftCommit.ChooseCommit | internal/raft/node.go:314-333 | the element taken is the largest value that a commit quorum of the values has reached |
| RaftCommit.MiddleIsChoice | internal/raft/node.go:323-333 | in any sorted arrangement of the values, the middle one is that largest commonly reached value |
| RaftCommit.ChoiceIsUnique | internal/raft/node.go:323-333 | the choice does not depend on how it is found |
| RaftCommit.ReadCountsMembers | internal/raft/node.go:316-321 | counting over any iteration order of the map of match indexes counts members |
| RaftCommit.ChoiceIsReachedByQuorum | internal/raft/node.go:314-333 | the index considered has been reached by a commit quorum of the leader and the members in its map of match indexes, and no larger index has, for every iteration order of the map |
| RaftCommit.CommitMeetsVotes | internal/raft/node.go:150-151 | every commit quorum shares a member with every vote quorum, for clusters of odd and even size |
| RaftCommit.CommitQuorumsMeetIffOdd | internal/raft/node.go:332-333 | any two commit quorums share a member if and only if the cluster size is odd |
| RaftNode.Node.HandleRequestVote | internal/raft/node.go:386-423 | new state and answer are those of the value function, on every request, stale ones included |
| RaftNode.VoteIsGrantedIff | internal/raft/node.go:386-423 | the answer carries the later of the two terms; the vote is granted if and only if the term is not over, the vote of that term is free or already the candidate's, and the voter's log is not ahead |
| RaftNode.Node.HandleAppendEntries | internal/raft/node.go:426-476 | new state and answer are those of the value function on every request; AppendIsAcceptedIff, CommitGoesBackIff and ReplicationIsExact say what those are: stale term, failed consistency check, heartbeat and entries |
| RaftNode.AppendIsAcceptedIff | internal/raft/node.go:426-459 | the answer carries the later of the two terms and says yes if and only if the request is neither stale nor inconsistent; the receiver follows the sender unless the request is stale, which changes nothing |
| RaftNode.Node.HandleAppendResponse | internal/raft/node.go:278-308 | what a sender makes of an answer: step down, record the last index sent, or step the next index back while it is above one |
| RaftNode.DeposedLeaderStepsDown | internal/raft/node.go:283-286 | across both handlers: a leader whose request meets a node of a later term is a follower in that node's term once it takes the answer, and keeps its log |
| RaftNode.Node.Propose | internal/raft/node.go:479-494 | a leader appends a command of its current term and returns its index; anybody else changes nothing and fails |
| RaftNode.Node.UpdateCommitIndex | internal/raft/node.go:314-340 | the commit index becomes the choice over some iteration order of the map if that is higher and of the current term |
| RaftNode.Node.ApplyPass | internal/raft/node.go:343-370 | one pass hands on the entries behind the last applied index as far as commit index and log both reach, in order, and the last applied index moves with them |
| RaftNode.CommitGoesBackIff | internal/raft/node.go:435-472 | a follower's commit index decreases if and only if the request is not stale, passes the consistency check, names a higher commit index, and reaches less far than what is committed |
| RaftNode.CommitAdvanceIsSound | internal/raft/node.go:332-339 | whatever the match indexes hold, an advance is strictly upward and, in a positive term, lands on an existing entry of the current term |
| RaftNode.TermZeroAdvanceLeavesLog | internal/raft/node.go:332-339 | in term 0 an advance can land beyond the log, so the positive term is needed |
| RaftCluster.NextKeepsMembers | internal/raft/node.go:74-87 | no step changes the membership, and votes, messages and elections are never taken back |
| RaftElection.AppendKeepsVoteIff | internal/raft/node.go:443-447 | an append request keeps the recorded vote of the current term if and only if it is of another term or there is no vote |
| RaftElection.GrantIsFirstOrRepeatedIff | internal/raft/node.go:386-423 | a vote granted in the node's own term repeats the one on record, or goes out while neither a vote nor a leader of the term is known, if and only if the first guard holds: the vote field is not empty beside a known leader, or the voter's log is ahead |
| RaftElection.TwoWinnersAreOne | internal/raft/node.go:148-151 | two candidates with a vote quorum in one term are the same when every node votes once per term |
| RaftElection.NextKeepsInv | internal/raft/node.go:142-220 | every guarded step of the cluster keeps the vote history consistent with terms, vote fields, campaigns, answers on their way and elections |
| RaftElection.ElectionSafety | internal/raft/node.go:142-220 | in every guarded run of every cluster, with messages lost, repeated and reordered, no term is led twice |
| RaftElectionRuns.ForgottenVoteElectsTwo | internal/raft/state.go:177-185 | a run that obeys the other two guards and elects two leaders of term 1, a heartbeat having wiped out a vote |
| RaftElectionRuns.LateWinnerElectsTwo | internal/raft/node.go:212-214 | a run that obeys the other two guards and elects two leaders of term 2, the second with the votes of term 1 |
| RaftElectionRuns.LateAnswerElectsTwo | internal/raft/node.go:180-181 | a run that obeys the other two guards and elects two leaders of term 2, an answer having taken a voter back |
| RaftElectionRuns.EveryGuardIsNeeded | internal/raft/node.go:142-220 | for each guard there is a run that obeys the others and leads a term twice |
| RaftElectionRuns.TwoLeadersBreakMatching | internal/raft/node.go:479-494 | a run in which two leaders of one term propose and their logs differ at the same index and term |
| RaftLeaders.LeadersInEveryRun | internal/raft/state.go:177-210 | in every run a leader names itself as leader, a candidate nobody, and whoever is named, by a node or in a request on its way, has won an election |
| RaftLeaders.CampaignEnds | internal/raft/node.go:200-220 | in every run a campaign that ends makes a leader if and only if the votes counted are a quorum, and then a quorum of members has voted for it in the term it campaigned in; otherwise the candidate falls back; term, vote and log stay |
| RaftLeaders.DeposedCandidateStepsDown | internal/raft/node.go:180-183 | over the two steps of answering and counting: a candidate that hears from a node of a later term is a follower in that term |
| RaftLeaders.DeposedSenderStepsDown | internal/raft/node.go:283-286 | over the two steps of answering and taking the answer: so is a sender of append requests |
| RaftMatching.AcceptedAppendIsExact | internal/raft/node.go:449-459 | under the invariant, an accepted request with entries leaves the log the sender had when it built the request, and appending never meets a gap; any other request leaves the log |
| RaftMatching.LeaderAppendOnly | internal/raft/node.go:479-494 | a leader that stays leader without a new election keeps its term, and its log only grows at the end |
| RaftMatching.LogsDoNotGrow | internal/raft/node.go:426-476 | no step but a proposal makes a log that did not exist, as a node's or as the origin of a request on its way |
| RaftMatching.ProposalMatches | internal/raft/node.go:479-494 | the log a leader's proposal makes matches every log there is |
| RaftMatching.NextKeepsInv | internal/raft/node.go:253-275 | every step keeps Log Matching among all logs and requests on their way, as long as no term is led twice |
| RaftMatching.LogMatching | internal/raft/node.go:449-459 | in every run with at most one leadership per term, two logs with an entry of the same index and term are equal up to that index |
| RaftMatching.GuardedRunMatches | internal/raft/node.go:142-220 | every guarded run has Log Matching |
| RaftMatching.ReplicationIsExact | internal/raft/node.go:449-459 | in every reachable state, stale and repeated requests included, accepting entries copies the sender's log as it was at sending time, and the ignored result of appending is true |
| RaftReplication.RunKeepsNextIndexes | internal/raft/state.go:204-209 | in every run the next index of each peer is at least one once a node has led or started a heartbeat round |
| RaftReplication.PrevLogIndexNeverUnderflows | internal/raft/node.go:261-263 | in every reachable state the 64-bit subtraction behind a request does not wrap around |
| RaftReplication.RunKeepsTerms | internal/raft/node.go:142-146 | in every run, campaigns, elections, leaders and their requests have positive terms |
| RaftReplication.AdvanceIsSoundInRuns | internal/raft/node.go:314-340 | in every reachable state, a commit advance is strictly upward and lands on an entry of the current term, however stale the match indexes |
| RaftReplication.AdvanceIsChoiceOfCluster | internal/raft/node.go:314-340 | in every reachable state the map of match indexes of a node that has led names all other members; an advance goes to the largest index that a commit quorum of the whole cluster has reached, and it does happen when that index is higher and of the current term |
| RaftReplication.AppliedInEveryRun | internal/raft/node.go:343-366 | over every interleaving of passes with handlers, the entries handed on carry the indices 1, 2, 3, ..., and the last applied index counts them |
| RaftReplication.PassHandsOnIff | internal/raft/node.go:354-366 | in every reachable state a pass hands on the entry at an index if and only if that index is behind the last applied one, committed, and in the log |
| RaftReplication.TurnKeepsOrderIff | internal/raft/node.go:354-366 | a single turn of the loop keeps that order if and only if its index has no entry or follows the last applied one |
| RaftReplication.GrowingLogLeavesGap | internal/raft/node.go:354-366 | a pass over two committed indices whose log is empty at the first turn and complete at the second applies only the second index |
| RaftReplication.ReadyInRuns | internal/raft/node.go:253-275 | in a run with one leadership per term, a node that has led meets all hypotheses of BackoffConverges for every peer whose term is not ahead |
| RaftReplication.RefusalStepsBack | internal/raft/node.go:301-307 | a refused round lowers the next index by exactly one, and both logs stay |
| RaftReplication.AcceptanceCopies | internal/raft/node.go:288-294 | an accepted round with entries makes the follower's log the leader's, and next and match index say so |
| RaftReplication.AcceptanceMeansPrefixIff | internal/raft/node.go:449-459 | after an accepted round the leader's log is a prefix of the follower's if and only if the next index was at most one past the log or it had been a prefix before |
| RaftReplication.BackoffConverges | internal/raft/node.go:261-308 | repeated rounds are accepted after at most next index minus one refusals and leave the leader's log; that log then is a prefix of the follower's if and only if the round accepted did not point beyond its end or it was a prefix before, and equals the follower's, and is recorded as matched, if entries were sent |
| RaftReplication.BackoffFromTheEnd | internal/raft/node.go:261-308 | starting with a next index at most one past the log, backoff ends with the leader's log as a prefix of the follower's, with equal logs after any refusal, and with the leader's commit index at the follower unless that has committed more |
| RaftReplication.BackoffSharesCommit | internal/raft/node.go:461-472 | the commit index the follower ends with is the leader's, as far as its log goes, or its own if that is higher |
| RaftProposals.LoggedWasProposed | internal/raft/node.go:479-494 | in every run without any guard, each entry of each log was proposed earlier to a leader of its term, with the same command |
| RaftProposals.AppliedWasProposed | internal/raft/node.go:343-366 | so was each entry handed to the apply function: nothing is invented |
| RaftReplicationRuns.StaleNextIndexIsAccepted | internal/raft/node.go:288-294 | a guarded run in which a delayed answer of an earlier leadership leaves a leader with a next index beyond its log, and the next round succeeds while the follower lacks entries |
| RaftReplicationRuns.CommitIndexGoesBack | internal/raft/node.go:461-472 | a run that obeys all guards but NothingAgreedIsCut and in which a heartbeat takes a follower's commit index back |
| RaftReplicationRuns.CommittedEntriesAreLost | internal/raft/log.go:57-58 | a run that obeys all guards but NothingAgreedIsCut and in which the leader of term 2 lacks entries that the leader of term 1 has committed, both followers having been cut back by old requests: Leader Completeness needs that guard |
| RaftReplicationRuns.AppliedEntriesDiffer | internal/raft/log.go:57-58 | a run that obeys all guards but NothingAgreedIsCut and ends with apply passes of two nodes that hand on entries of different terms at the same index: State Machine Safety needs that guard |
| RaftReplicationRuns.SoundRunsCommit | internal/raft/node.go:314-340 | a run that obeys all seven guards and in which two nodes have committed three entries, so that the theorems about sound runs are not empty |
| RaftRetention.CommittedPrefixKeptIff | internal/raft/log.go:48-67 | in every run with one leadership per term, a follower's committed entries survive a request if and only if it is refused, carries no entries, starts behind them, or reaches the last of them with an entry of the same term |
| RaftRetention.CommitStaysInLogIff | internal/raft/node.go:449-472 | in every run with one leadership per term, a commit index within the log stays within it if and only if the request is refused; or carries entries and a higher commit index, or reaches the old one; or carries none and names no higher commit index beyond the log |
| RaftReigns.NextKeepsInv | internal/raft/node.go:253-275 | every step of a sound run keeps all logs, up to and including each entry, equal to what the leader of that entry's term has had |
| RaftBallots.VotesStay | internal/raft/node.go:142-220 | every step of a sound run keeps each leader elected by a quorum of votes cast on the very log it started with |
| RaftCompleteness.StoresStay | internal/raft/node.go:426-476 | every step of a sound run keeps what a node has stored of a leader's own entries, until it hears from a later leader that started without them; votes are given with it in the log |
| RaftCompleteness.LaterLeadersHaveIt | internal/raft/node.go:386-423 | entries that a commit quorum has stored in their leader's term are in the log every later leader starts with, for clusters of all sizes |
| RaftSafety.MatchesStay | internal/raft/node.go:283-308 | every step of a sound run keeps a leader's match indexes true: the peer has stored that much in that term; and its next indexes within one past the log |
| RaftSafety.AdvanceIsChosen | internal/raft/node.go:314-340 | a commit advance goes to an index that a commit quorum of all members has stored in the leader's term |
| RaftSafety.CommitsStay | internal/raft/node.go:461-472 | every step of a sound run keeps every node's committed entries, and those a request announces, part of what has been chosen |
| RaftSafety.LeaderCompleteness | internal/raft/node.go:314-340 | in every run under the seven guards, whoever leads a later term than the one in which an index was committed has all entries up to it, in every continuation |
| RaftSafety.StateMachineSafety | internal/raft/node.go:343-366 | in every run under the seven guards, what any two nodes have committed, at the same or at different times, agrees entry by entry, and lies within their logs |
| RaftSafety.AppliedAgree | internal/raft/node.go:343-366 | in every run under the seven guards, of what any two nodes have been handed to apply, at the same or at different times, one is the beginning of the other: no two entries are applied at one index |
| Decimal.ItoaLoop | internal/store/store.go:192-202 | the digit buffer is the decimal text |
| Decimal.PadLeft | internal/store/store.go:204-214 | the padded buffer is the text behind as many pad characters as are missing, and the text itself when none are |
| Decimal.ParseLoop | internal/lock/manager.go:121-131 | the digit loop computes the decimal value of the digits |
| Decimal.FormatParses | internal/lock/manager.go:121-131 | the digit loop recovers the number that was formatted, for every number |
| Decimal.FormatInjective | internal/store/store.go:185-190 | formatting is injective for every number |
| Decimal.FormatWidth | internal/store/store.go:204-214 | the text has the fixed width of ten if and only if the number is below 10^10, and is never shorter |
| Decimal.FormatOrder | internal/store/store.go:185-214 | below 10^10, texts compare lexicographically exactly as the numbers compare |
| Decimal.BoundIsTight | internal/store/store.go:185-214 | the text of 10^10 sorts before that of its predecessor |
| Store.Store.Create | internal/store/store.go:119-182 | result and new store are those of the value function, with every error, and the counter moves even when a sequential create then fails |
| Store.Store.Set | internal/store/store.go:236-268 | result and new store are those of the value function; SetStores and DataIsLastWritten say what is stored |
| Store.Store.Unlist | internal/store/store.go:295-306 | the loop takes the first occurrence of the name out of the parent's list and touches no other node |
| Store.Store.Delete | internal/store/store.go:271-320 | root, missing node, version mismatch and children are refused; otherwise the node and its name with the parent are gone |
| Store.Store.GetChildren | internal/store/store.go:323-338 | an ascending permutation of the list of children, or not found |
| Store.Store.FindEphemerals | internal/store/store.go:357-362 | the scan finds each ephemeral node of the session once |
| Store.Store.DeleteEphemerals | internal/store/store.go:351-400 | each ephemeral node of the session is returned once, longer paths first, and they are taken out in that order |
| StoreTree.ChildrenAgree | internal/store/store.go:163-169 | in a tree the list of children has no duplicates and names exactly the stored children, for every node below the root, and for the root when its list is complete |
| StoreTree.CreateKeepsTree | internal/store/store.go:119-182 | every create keeps the tree: parents stored, lists without duplicates and of stored nodes only, complete below the root, ephemeral nodes leaves |
| StoreTree.CreateKeepsRootIff | internal/store/store.go:119-182 | a create keeps the list of the root complete if and only if it is not a new sequential node at the root |
| StoreTree.UpdateKeepsTree | internal/store/store.go:236-268 | updates keep the tree well formed |
| StoreTree.DeleteKeepsTree | internal/store/store.go:271-320 | deletions keep the tree well formed: no orphan, no dangling name |
| StoreTree.CreatedShape | internal/store/store.go:119-182 | a successful create below the root adds one leaf of version 1 at the suffixed path, listed with a stored parent that is not ephemeral |
| StoreTree.DeleteUndoesCreate | internal/store/store.go:271-320 | deleting a node just created, at any version or at version 1, restores all nodes and lists, and only the counter has moved |
| StoreTree.PurgedIsWithout | internal/store/store.go:370-397 | taking nodes out one after the other gives the same tree in every order |
| StoreTree.CleanupIsExact | internal/store/store.go:351-400 | cleanup removes exactly the ephemeral nodes of the session, leaves every other node and list order, and keeps the tree well formed without a check for children |
| StoreHistory.TreeInEveryRun | internal/store/store.go:119-400 | in every run of operations whatsoever the nodes form a tree in that sense |
| StoreHistory.ParentsInEveryRun | internal/store/store.go:271-320 | in every run whatsoever the parent of a stored node is stored, as deletion relies on, and is not ephemeral, and below the root lists name exactly the stored children |
| StoreHistory.RootListedInEveryRun | internal/store/store.go:119-400 | in every run without sequential creates at the root the list of the root is complete as well |
| StoreHistory.RootSequentialIsNotListed | internal/store/store.go:137-169 | one sequential create at the root leaves a node that no list names |
| StoreHistory.VersionStep | internal/store/store.go:236-268 | a version is 1 on creation, goes up by one with a successful update, and is left alone by every other operation |
| StoreHistory.VersionCountsUpdates | internal/store/store.go:236-268 | in every run a node's version is 1 plus its successful updates since creation, and the root's the number of updates |
| StoreHistory.VersionsGrow | internal/store/store.go:236-268 | while a node stays stored its version does not go down |
| StoreHistory.SetStores | internal/store/store.go:236-268 | an update succeeds if and only if the node is there and the version named is its own or negative; it then stores and returns the new data under the next version and touches nothing else, and otherwise changes nothing |
| StoreHistory.DataIsLastWritten | internal/store/store.go:119-268 | in every run a node holds what was last written to it, by its creation or by a successful update since |
| StoreHistory.KindIsAsCreated | internal/store/store.go:119-182 | in every run each node but the root was made by one operation of the run, has stayed since, and is of the kind and session that operation asked for |
| StoreHistory.CreateAnswers | internal/store/store.go:119-182 | in every run, which creates fail and with which error; a failing one changes no node, and the counter moves with every sequential create under a proper parent, even when the path is taken |
| StoreHistory.SetAnswers | internal/store/store.go:236-268 | in every run an update fails for a missing node, or for a version other than the updates counted since creation; otherwise it returns the node as stored now |
| StoreHistory.DeleteAnswers | internal/store/store.go:271-320 | in every run a deletion fails for the root, a missing node, a version other than the updates counted since creation, and a node below which another is stored; otherwise exactly that node is gone |
| StoreHistory.TwoSetsOneVersion | internal/store/store.go:236-268 | two updates that name the same version both succeed only if the node was gone in between |
| LockManager.Manager.Enqueue | internal/lock/manager.go:99-131 | directory and queue node are made as by the value functions, a failing directory goes unnoticed, and the sequence read back from the name is the counter |
| LockManager.Manager.CheckLockAcquired | internal/lock/manager.go:164-180 | true if and only if the node's name is the first in the directory; no children is false, no directory an error |
| LockManager.Manager.TryLockNow | internal/lock/manager.go:99-161 | undisturbed and with a negative timeout, it does what Tried says: it records the lock if its node comes first, and otherwise leaves no record and the same nodes; in a well-formed tree it restores them exactly and keeps the tree well formed |
| LockManager.Manager.RemoveWaiter | internal/lock/manager.go:190-200 | the first occurrence of the channel is gone from the lock's list, other lists stay |
| LockManager.Manager.WaitInVain | internal/lock/manager.go:183-234 | a wait whose time is up before any signal deletes the node, reports a timeout, and leaves every list of wait channels as it was |
| LockManager.Manager.Unlock | internal/lock/manager.go:237-256 | no path is refused without any change; otherwise record and node go, a failing deletion is reported, and a well-formed tree stays one |
| LockManager.Manager.GetLockHolder | internal/lock/manager.go:269-288 | the owner stored in the first node of the queue, nobody for an empty queue, an error without directory |
| LockManager.TicketPathInjective | internal/lock/manager.go:107-110 | lock name and sequence number are determined by the path of the queue node |
| LockManager.TicketParts | internal/lock/manager.go:121-131 | the name of a queue node splits at its dash into exactly two parts, the second of which reads back as the sequence number |
| LockManager.FirstNameIsFirst | internal/lock/manager.go:164-180 | after both sorts the first name is one of the children and none sorts before it |
| LockManager.WithdrawalRestores | internal/lock/manager.go:150-154 | giving up a place in the queue restores all nodes, and only the counter has moved on |
| LockQueue.NextKeepsInv | internal/lock/manager.go:99-256 | every orderly step keeps requests, queue nodes, removed paths and records consistent, and below 10^10 sequential creates the order of grants; what steps do about timeouts is stated in LockCalls |
| LockQueue.GrantedIsFirst | internal/lock/manager.go:164-180 | whoever was granted the lock and still has its node is the first child, however the queue has changed since |
| LockQueue.MutualExclusion | internal/lock/manager.go:99-256 | in every orderly run with fewer than 10^10 sequential creates, a lock has at most one recorded holder with a stored node, and that node is the first child of the lock's directory |
| LockQueue.OneDecidedRequest | internal/lock/manager.go:133-148 | exclusion already holds from the successful check on, before the record is made |
| LockQueue.HolderIsReported | internal/lock/manager.go:269-288 | in those runs the holder that is reported is the owner stored in the live holder's node |
| LockQueue.FirstComeFirstServed | internal/lock/manager.go:107-180 | grants of one lock come in the order of sequence numbers, in every such run |
| LockQueue.TicketsFollowCreation | internal/store/store.go:139-142 | in every orderly run a new queue node has a higher sequence number than every request so far |
| LockQueue.EveryChildHasOneRequest | internal/lock/manager.go:107-161 | in every orderly run each child of a lock directory belongs to exactly one request that is in the queue or holds the lock |
| LockQueue.EveryRequestHasItsChild | internal/lock/manager.go:107-256 | in every orderly run a request in the queue or holding is listed if and only if its node was not removed by a release, a cleanup or a deletion, and one that timed out or failed is not listed |
| LockQueue.SpentForever | internal/lock/manager.go:150-256 | a queue node that is gone, by time-out, failure, release or cleanup, comes back in no continuation of the run |
| LockQueue.ReleaseIsFinal | internal/lock/manager.go:237-256 | after the two steps of Unlock a request has no record, and no child in any continuation |
| LockCalls.OnlyThePatientWait | internal/lock/manager.go:153-160 | in every run a call that registers, waits or looks again has no negative timeout |
| LockCalls.WithdrawsIff | internal/lock/manager.go:133-234 | a call gives up if and only if its positive timeout is over while it waits, or it looks and the directory is gone, or it is not first at its first look and has a negative timeout |
| LockCalls.WaitsIff | internal/lock/manager.go:153-160 | a call goes on to wait if and only if it is not first at its first look and its timeout is not negative |
| LockCalls.PatientGivesUpOnlyIf | internal/lock/manager.go:183-234 | in every run a call without a timeout gives up only when the directory of its lock is gone, and one with a positive timeout only then or when its time is up |
| LockCalls.UndisturbedCall | internal/lock/manager.go:99-161 | from any state, the steps of a call that nobody disturbs end as TryLockNow says: with the lock and its record, or without either and with the node gone; a call that may wait and is not first keeps its node and waits, its channel behind those registered before |
| LockCalls.AloneRuns | internal/lock/manager.go:99-161 | these undisturbed steps are a run of the step machine |
| LockOwners.OneOpAtATime | internal/lock/manager.go:99-256 | each step of the lock service changes the store by at most one operation of the store |
| LockOwners.RecordsInEveryRun | internal/lock/manager.go:112-142 | in every orderly run the record of a lock has the name, owner, session, path and sequence number of the call it was granted to |
| LockOwners.SessionsInEveryRun | internal/lock/manager.go:107-110 | in every orderly run each queue node belongs to the session of the call it was made for |
| LockOwners.HolderIsOwner | internal/lock/manager.go:269-288 | in every run below 10^10 sequential creates in which others leave queue nodes alone, the holder reported for a lock with a live holder is the owner it was taken for |
| LockOwners.HolderInEveryRun | internal/lock/manager.go:269-288 | in the same runs, the holder reported for any lock is an error without directory, nobody for an empty queue, and otherwise the owner of the call with the lowest sequence number |
| LockOwners.CleanupReleases | cmd/skylock/main.go:79-85 | in every orderly run the cleanup after a session releases each lock taken in it: none has a live holder afterwards, in any continuation |
| LockOwners.CleanupSparesOthers | cmd/skylock/main.go:79-85 | the cleanup releases no lock of another session |
| LockWaiters.WaitersInEveryRun | internal/lock/manager.go:183-234 | in every run a waiting call has its channel in the list of its lock and in no other, each channel is listed once, and a call that has returned has none |
| LockLimits.TwoHoldersAtBound | internal/store/store.go:185-214 | an orderly run that uses exactly 10^10 sequence numbers and has two live holders of one lock |
| LockLimits.ForeignNodeMakesTwoHolders | internal/lock/manager.go:164-180 | two sequence numbers and one node created from outside are enough for two live holders |
| Session.Manager.Create | internal/session/manager.go:69-98 | the session is the one OpenGrants describes, under the new identifier |
| Session.OpenGrants | internal/session/manager.go:69-98 | a new session is the client's, heard of now, with the time to live asked for, the default if none is asked for, and the maximum if that is less; no other session is touched |
| Session.Manager.Heartbeat | internal/session/manager.go:108-128 | true exactly for a session that is not expired, whose heartbeat moves; an expired one is dropped |
| Session.HeartbeatAnswers | internal/session/manager.go:108-128 | the answer is yes if and only if the session is there and no older than its time to live; it is then as old as the heartbeat, and otherwise gone |
| Session.Manager.Close | internal/session/manager.go:131-151 | the session is dropped if there is one |
| Session.CloseAnswers | internal/session/manager.go:131-151 | the answer is yes if and only if there was such a session, and there is none afterwards |
| Session.Manager.CheckExpirations | internal/session/manager.go:203-222 | exactly the expired sessions are dropped and each is reported once, although the map changes while it is iterated |
| Session.SweepInTime | internal/session/manager.go:23-25 | under a monotone clock, a sweep between heartbeats at most one time to live apart finds the session in time |
| Session.LeaseHolds | internal/session/manager.go:108-128 | a session kept alive survives every sweep of every run and remembers its latest heartbeat |
| Session.AskedLeaseHolds | internal/session/manager.go:69-128 | a session opened with an allowed time to live and kept alive at intervals of at most the time asked for survives every sweep of every run |
| Session.LimitsInEveryRun | internal/session/manager.go:69-98 | in every run no time to live exceeds the maximum |
| Session.SweepIsExact | internal/session/manager.go:203-222 | after a sweep in any run, exactly the sessions no older than their time to live are left, unchanged, and none is older than the maximum |
| Ownership.BeatKeepsIff | internal/session/manager.go:108-128 | after a heartbeat every ephemeral node is owned if and only if it is not a late one of a session with ephemeral nodes |
| Ownership.CreateKeepsIff | internal/store/store.go:119-182 | after a create every ephemeral node is owned if and only if it is not for an ephemeral node with a free path below a stored parent that is not ephemeral, on behalf of a session neither live nor awaiting cleanup |
| Ownership.CleanKeeps | cmd/skylock/main.go:79-85 | a pending cleanup keeps the ownership of all others and leaves no ephemeral node of its session |
| Ownership.EphemeralsAreOwned | cmd/skylock/main.go:79-85 | in every run of harmless steps the tree is well formed and each ephemeral node belongs to a live session or to one whose cleanup is pending |
| Ownership.LateBeatOrphans | internal/session/manager.go:117-120 | opening a session, creating its node and sending a heartbeat after its time to live leaves the node without owner |
| Ownership.DeadSessionOrphans | internal/store/store.go:119-182 | a create on behalf of a session that is not there leaves an ephemeral node without owner |
| Watch.Manager.Watch | internal/watch/watcher.go:69-89 | a watcher with an open empty channel at the end of its path's list |
| Watch.Manager.Cut | internal/watch/watcher.go:101-111 | the loop closes the channel of the first watcher of that identifier and takes it out of the list |
| Watch.Manager.Unwatch | internal/watch/watcher.go:92-117 | the watcher is closed and gone, and a path without watchers is dropped |
| Watch.Manager.Deliver | internal/watch/watcher.go:131-155 | every watcher on the path is sent the event without blocking, the one-time ones are marked and collected in order |
| Watch.Manager.TriggerEvent | internal/watch/watcher.go:120-172 | sending and the removal loop together have the effect of the value function |
| WatchDelivery.SendAllReaches | internal/watch/watcher.go:131-155 | sending to a list reaches the channel of each of its watchers once and no other channel |
| WatchDelivery.TriggerEffect | internal/watch/watcher.go:120-172 | an event reaches every watcher of its path once, closes and removes the one-time ones, keeps the persistent ones in order and touches no other path |
| WatchDelivery.NeverPanics | internal/watch/watcher.go:69-172 | in no run is a closed channel sent to or closed again |
| WatchDelivery.DoneStays | internal/watch/watcher.go:92-117 | a channel closed and taken out is never sent to again |
| WatchDelivery.DeliveryIsExact | internal/watch/watcher.go:120-172 | over every run, a watcher's channel accepts exactly the events on its path that find room, until it is taken off or, if one-time, has fired |
| WatchDelivery.OneTimeWatcherFiresOnce | internal/watch/watcher.go:69-172 | a one-time watcher registered in any run receives exactly the first event on its path before it is taken off |
| WatchDelivery.PersistentWatcherMissesNothing | internal/watch/watcher.go:69-172 | a persistent watcher registered in any run is sent every event on its path until it is taken off, as long as they are at most ten, even if its client takes none out |
| WatchReceiving.ReceivedInOrder | internal/watch/watcher.go:131-155 | over every run from any consistent state, what a client takes out of its channel comes in the order in which the channel accepted it |
| WatchReceiving.ClientGetsWhatWasSent | internal/watch/watcher.go:69-89 | in every run what the client has taken out, followed by what is left in the channel, is exactly what was sent, and at most ten events are left |

## Left out

- ElectionSafety: the three guards are proved sufficient for all runs, and each needed; they are not necessary run by run, since a step that breaks a guard can happen to do no harm later.
- LeaderCompleteness, StateMachineSafety, AppliedAgree: the four further guards are proved sufficient; that it is needed is shown for NothingAgreedIsCut only.
- Wake-ups and liveness of locks: the wiring of delete callbacks is not modelled; a waiting call may look again at any time, which covers every wake-up order for safety.
- TryLockNow: states TryLock as a sequential method for a negative timeout only; calls that wait are the step machine of LockQueue, and UndisturbedCall connects the two.
- runCandidate and the wait loop of waitForLock: modelled as steps of the two step machines and not as methods, because other steps come in between.
- BecomeCandidate: includes the vote for oneself that its only caller records next, as one step.
- ApplyPass: a pass is one step; the finer interleaving is covered by TurnKeepsOrderIff only.
- LockQueue, LockLimits: lock names are single path components.
- Paths: a normalised path is the sequence of its components; cleaning, joining and splitting path text is library code.
- Crashes, restarts and persistence: the source keeps all state in memory.
- Timers, random timeouts and scheduling within a handler: a timeout is a step that may happen at any time.
- Identifiers of nodes, sessions and watchers are parameters and assumed fresh where the source draws them at random.
- Wrap-around of 64-bit terms, indexes, versions and counters, except in the index before the one to send.
- Aliasing of the slices and pointers that the store and the log hand out.
- Errors of the apply function: the source logs them and goes on, which leaves the indices applied as modelled.
- Timestamps other than the session clock, the time a lock was acquired, and logging.
- Transport, generated service code, HTTP interface, command-line programs, client library and configuration.
- GetRange, GetByPrefix, Count, All, GetQueueLength, IsLocked, LockWithID, RegisterEphemeral and HeartbeatClient: they would only add easy members.
