# A verified model of a Raft key/value store

This project models the consensus core of a replicated key/value store, the stores under it, the state
machine and the loop above it, and the checker its chaos runs are judged by, and proves what they are for.

* `Node.dfy` is one node as a value and every step it can take as a function, named after the code.
* `RawNode.dfy`, `RaftLog.dfy` and `MemoryStorage.dfy` are the same node as the code has it: objects updated in
  place, with their loops and their recursion. Every method is proved to do to the object what the function does
  to the value, and compaction to be invisible in the value, which keeps its whole log.
* `Cluster.dfy` is any number of such nodes with their state machines, a network that holds every message ever
  sent, so that messages are lost, duplicated, delayed and reordered at will, and crashes at every point between
  two durable writes (`Crashing.dfy`). `Runs.dfy` states what holds of every run.
* `History.dfy` records what has irrevocably happened: every leader's log, every campaign and vote with the log it
  was cast with, every acknowledgement, commit and read. Histories only grow; safety is a property of a history
  that is consistent, proved once, by induction over terms, for changing and joint configurations. The `Step*.dfy`
  files show that every step of a node keeps the history consistent and the node true to it.
* `Repair.dfy` bounds the rounds a leader needs to find where a follower agrees with it.
* The remaining theorems about runs say what a member must do, where the ones above say what it must not. `Timeouts.dfy`
  and `Protection.dfy`: when it stands for election, and when it lets others. `Replies.dfy` and `Reports.dfy`: what it
  answers, and what it makes of answers. `Broadcasts.dfy`: what it sends, to whom and when. `Confirmation.dfy`: what
  becomes of a read. `Requests.dfy`: what it does for its own process. `Resting.dfy`: that between steps nothing is
  left undone.
* `LogStore.dfy`, `BoltStorage.dfy`, `BoltKeys.dfy` and `StoresAgree.dfy` relate the store on disk and the one in
  memory to one abstract log.
* `Driver.dfy` is the loop that drives a node and answers clients; `KVStore.dfy` and `Sessions.dfy` the state
  machine and its sessions; `Encoding.dfy`, `Commands.dfy`, `MapImage.dfy` and `ConfEncoding.dfy` the bytes.
* `Linearizability.dfy` is what the chaos checker decides, and `Answers.dfy` shows that it accepts what the store answers.
* `Gaps.dfy`, `Stuck.dfy` and `Tenure.dfy` show where the code does not do what its comments say, with the exact
  condition each time: configurations that travel with snapshots, a follower that is never repaired, a healthy leader
  that is deposed. `Cases.dfy` is a cluster caught at a moment where the first of these happens, and `Diverge.dfy` a
  whole run in which it costs safety: two nodes commit different entries at one index.
* `FixedVoters.dfy` shows that clusters whose membership never changes need none of the guards below, and `DuoRun.dfy`
  that there are runs at all (`Extend.dfy` makes them longer).

`dafny verify dfyconfig.toml` covers the whole project.

## What is taken as given

* Every member of a cluster is started with the same bootstrap configuration, as `node/node.go:88-98` asks.
* Two conditions the code does not enforce guard two events of a cluster's run. A snapshot is installed only if the
  entries kept above it contain no configuration entry (`CleanInstall`), and one is taken only when the configuration
  in force is that of the entries it covers (`MaySnapshot`). `Gaps.dfy`, `Cases.dfy` and `Diverge.dfy` show what happens otherwise;
  without membership changes neither is needed (`FixedVoters.PlainRunIsRun`).
* The random source is a function from the number of the draw to the value drawn. A node's clock is the tick.
* A snapshot's data is the list of entries the state machine had consumed when it was taken.
* A panic and a fatal error are one thing: the node's `fault`, after which it does nothing. None is reachable.
* `raft/storage.go:64-71` documents the first index as one past the snapshot; both stores answer one past the floor
  of the log, which may lie below the snapshot, and the model follows them.

## Model

| member | source | states |
|---|---|---|
| Runs.CommittedForever | raft/replication.go:380-419 | State Machine Safety over time and across nodes: whatever any node has committed at one moment of a run, no node at any later moment has anything else committed at those indexes, with loss, duplication, reordering, crashes, membership changes and snapshots |
| Runs.StateMachinesAgree | node/node.go:404-430 | the entries two state machines have consumed, at any two moments of a run, are prefixes of one another |
| Runs.ConsumedIsApplied | node/node.go:404-502 | a state machine has consumed exactly the applied part of its node's log, unless a snapshot of exactly that part is waiting to be restored |
| Runs.LeaderHoldsCommitted | raft/log.go:127-133 | Leader Completeness: a leader of the same or a later term holds, entry for entry, everything any node had committed before |
| Runs.OneLeaderPerTerm | raft/election.go:73-98 | Election Safety: two leaders of one term, at any two moments of a run, are the same node |
| Runs.OneVotePerTerm | raft/election.go:101-140 | a vote, once cast, is the node's vote for the rest of that term, across crashes |
| Runs.VotesAreDurable | raft/election.go:119-140 | a vote that has been sent is on its voter's disk, or belongs to a term the voter has left for good |
| Runs.LogMatching | raft/log.go:173-209 | Log Matching: logs that hold the same term at an index, at any two moments, hold the same entries up to that index |
| Runs.TermsRise | raft/memory_storage.go:144-156 | along every log of every run terms never decrease, and none is above its node's |
| Runs.MatchesAreReal | raft/replication.go:216-258 | what a leader believes a follower of its term to match, it does: the two logs are equal that far |
| Runs.AlwaysInOrder | raft/log.go:10-26 | in every reachable state no node has panicked or met a safety violation, floor <= snapshot <= applied <= committed <= last, term and vote in memory are those on disk, and the configuration in force is the one a scan of everything ever logged would find |
| Runs.NeverBack | raft/log.go:256-275 | terms never go back, crashes included; between crashes neither do the commit index and the applied index |
| Runs.ReadIsFresh | raft/read.go:70-135 | a read that a process confirms has an index no lower than any node's commit index at the moment that process was asked it, whatever terms it led, lost or regained in between; read ids being unique is proved, not assumed |
| Runs.ReadSeesEverything | node/read.go:95-104 | any state machine that has reached the index of a confirmed read has consumed everything any node had committed when the read was asked |
| Runs.ReadsKeepTheirTerm | raft/read.go:153-163 | a read still waiting or confirmed, in a process that has not crashed since, was asked in the present term: leaving a term drops every read, and later reads carry higher numbers |
| Runs.KnowsEveryCommit | raft/read.go:70-114 | while no later term has a leader, a leader with a commit of its own term knows every commit of the cluster |
| Runs.MembershipChain | raft/confchange.go:46-102 | in every log of every run configuration entries alternate between entering and leaving, an entering one keeps its predecessor's voters as old voters, a leaving one keeps its voters, quorums of adjacent configurations share a node, and below a configuration entry of its own term a leader has committed every other |
| Runs.ChangesWait | raft/confchange.go:46-71 | a change that is accepted is appended by a leader on top of configuration entries that were all committed when it was asked for |
| Runs.RepairsAreShort | raft/replication.go:259-317 | in every run a leader that has compacted nothing reaches agreement with any follower of its term after at most 1 + (distinct terms in the follower's log) refusals |
| Runs.ProposalIsTheEntry | node/node.go:535-558 | an entry found anywhere, later in the run, at the index and term an accepted write was given is that write |
| Runs.SnapshotsAreWhole | raft/snapshot.go:51-148 | every snapshot ever sent covers exactly the entries up to its last index |
| Runs.Explained | raft/raft.go:509-525 | every run has a history that stays consistent and only grows, each node adding only its own events |
| DuoRun.DuoRunExists | raft/raft.go:387-432 | there are runs in which one node leads by another's vote and commits by another's acknowledgement: what is proved of every run is not vacuous |
| Clusters.NextOK | node/node.go:310-402 | every step of every member, crashes included, keeps the invariant of the whole cluster, under the two guards named above |
| FixedVoters.PlainRunIsRun | raft/confchange.go:104-146 | without membership changes, from a bootstrap configuration that is not joint, every run without the two guards is a run: everything said of runs holds of it |
| FixedVoters.GuardsHold | raft/snapshot.go:62-73 | as long as no log, message or image holds a configuration entry, both guards hold of themselves |
| Clusters.TurnForward | raft/raft.go:309-319 | no step lowers a term; no step but a crash lowers a commit or applied index |
| Clusters.BatchIsNext | raft/log.go:286-296 | the entries handed to the state machine start right after what it has consumed, end at or before the commit index, respect the limit, and are missing only if nothing is waiting: the stream has no gap and no repeat |
| Clusters.InitOK | raft/raft.go:202-246 | a cluster of freshly started nodes satisfies the invariant |
| Crashing.CrashOK | raft/raft.go:298-319 | whatever point between two durable writes a crash strikes at, while following, leading, campaigning or taking a snapshot, the disk holds a term no lower, a vote, a log and a snapshot from which the node can come back without breaking a promise |
| History.LeaderComplete | raft/log.go:111-133 | an entry committed by counting in its leader's own term is in the log every later leader was elected with, whatever configurations, joint or not, the two were counted under |
| History.OneWinner | raft/election.go:73-98 | a candidate that gathers a quorum in a term that has a leader is that leader |
| History.SettledAgree | raft/replication.go:339-379 | prefixes regarded as committed by any two nodes never disagree |
| History.LogsMatch | raft/log.go:166-172 | two logs made of leaders' entries that hold the same term at an index are equal up to it |
| History.TermsAscend | raft/memory_storage.go:144-156 | terms never decrease along a log |
| History.LastStep | raft/confchange.go:46-71 | a configuration entry is a legal successor of the one before it, which its leader had seen commit in its own term before appending it |
| History.QuorumsMeet | raft/config.go:129-145 | quorums counted under the configurations of any two logs share a node, unless one log carries a commit of a term the other lacks |
| History.OvertakenReadsFail | raft/read.go:116-135 | a read asked after a later term had elected a leader cannot gather a quorum |
| StepAny.StepOK | raft/raft.go:509-525 | delivering any well-formed message to a node in order leaves it in order, its messages true and every other node's promises untouched |
| StepAny.TickOK | raft/raft.go:449-493 | so does the passing of time |
| StepElection.HandleVoteRequestOK | raft/election.go:101-140 | a vote is granted only on durable record, to one candidate a term, with a log at least as up to date |
| StepElection.BecomeLeaderOK | raft/raft.go:387-432 | a candidate with a quorum becomes the only leader of its term and its no-op entry extends its log |
| StepElection.TallyVotesOK | raft/election.go:73-98 | counting votes, including the campaign a won pre-vote starts, keeps the node in order and terminates |
| StepReplication.HandleAppendRequestOK | raft/replication.go:143-214 | a follower that answers yes holds the leader's log up to the index it names, also when it answers a stale append with its commit index |
| StepReplication.AppendConflictingMeans | raft/log.go:157-209 | a follower that passes the consistency check ends with the leader's entries and everything beyond them it held already, or with exactly the leader's prefix if it disagreed; it never fails and never touches what is committed |
| StepReplication.KeptAfterOverwrite | raft/log.go:173-209 | overwriting a divergent tail loses only what the new leader was elected without |
| StepReplication.SettledInLeader | raft/replication.go:150-174 | everything a follower has committed is in its leader's log, so its commit index is a truthful match |
| StepReplication.HandleAppendResponseOK | raft/replication.go:216-289 | a leader believes only what was acknowledged, and backs up within bounds |
| StepReplication.ReadIndexOK | raft/read.go:70-104 | a read is recorded with the commit index of its moment |
| StepCommit.MaybeAdvanceCommitOK | raft/replication.go:380-419 | the commit index moves only to an entry of the leader's own term that a quorum holds; leaving a joint configuration and stepping down follow, and the recursion ends |
| StepCommit.ProposeOK | raft/replication.go:27-61 | a leader's append extends its log and reaches everyone it tracks |
| StepCommit.ProposeConfChangeOK | raft/confchange.go:46-71 | a change is proposed only on top of a committed, settled configuration |
| StepCommit.RescanIsFull | raft/confchange.go:119-146 | scanning what is left of the log, then the snapshot, then the bootstrap finds the configuration a scan of the whole log would |
| StepReplication.RefreshIfNeededConf | raft/replication.go:424-442 | the refresh that is skipped when no entry could have changed the configuration would have changed nothing: incremental equals full |
| StepSnapshot.HandleSnapshotRequestOK | raft/snapshot.go:179-232 | installing a snapshot keeps every promise, given that no configuration entry is kept above it |
| StepSnapshot.InstalledLog | raft/memory_storage.go:158-184 | after an installation the log holds the leader's prefix, keeping a tail exactly when it agreed at the boundary |
| StepSnapshot.CreateSnapshotOK | raft/snapshot.go:51-101 | taking a snapshot and compacting behind it changes no answer, given that the configuration in force is that of what it covers |
| StepSnapshot.RestartOK | raft/raft.go:202-246 | a node restarted from its disk is in order and has forgotten no promise |
| StepSending.SendAppendOK | raft/replication.go:83-130 | what a leader sends is a slice of its own log, with its own commit index, or its snapshot |
| Steady.StepOnward | raft/raft.go:509-592 | a message other than a snapshot takes back neither term nor commit index and leaves the applied index alone; a node comes to lead a term only from being its candidate, its log only grows while it leads, and no read outlives the term it was asked in |
| Steady.StepLeadsOn | raft/raft.go:509-555 | a node that leads before and after a message leads the same term with a longer or equal log |
| Repair.RefusalAdvances | raft/replication.go:259-337 | every genuine refusal strictly lowers the next index, which never falls to or below what is known to match |
| Repair.RepairBound | raft/log.go:211-243 | agreement after at most 1 + (distinct terms of the follower's log) refusals |
| Repair.RefusalIsSent | raft/replication.go:176-193 | the refusal reasoned about is the one the follower sends |
| Repair.RefusalSkipsNothing | raft/replication.go:297-337 | nor does the leader go back further than the refusal warrants: nowhere above the index it tries next, up to the one refused, do the two logs agree |
| Repair.TermEndsBefore | raft/log.go:211-243 | a term the follower has where the leader differs ends, in the leader's log, before that index |
| Timeouts.TimeoutsStandForElection | raft/raft.go:456-464 | in every run, a tick of a member that does not lead moves only its timer, unless it is a voter whose timer runs out: then it is a pre-candidate of its term with its vote untouched, or a candidate of the next term with its own vote on disk, or the leader of that term if its own vote is a quorum; unless its own vote decides, it has asked every other voter and nobody else, giving the end of its log |
| Timeouts.Polls | raft/election.go:14-60 | a node whose own vote decides nothing stands, and every other voter is asked |
| Timeouts.StandsAndWins | raft/election.go:14-98 | a node whose own vote is a quorum comes to lead the next term at once, its vote on disk |
| Protection.FollowersRefusePolls | raft/election.go:143-161 | in every run, a member that accepted entries or a snapshot from the leader of its present term fewer than its election timeout of its own ticks ago, and has neither crashed nor been told to campaign since, refuses every straw poll for a later term, says which term it is in, and changes nothing |
| Protection.DesertedMembersGrantPolls | raft/election.go:143-161 | once its ticks since then fill its timeout, with nothing heard in between, it grants a straw poll exactly if the asker's log is up to date, whatever it did in between |
| Protection.LeaderlessMembersGrantPolls | raft/election.go:143-161 | so does a member that knows of no leader |
| Protection.WordIsHeeded | raft/replication.go:143-151 | in every run, a member that accepts entries or a snapshot of its term or a later one follows the sender in that term, and its wait begins again |
| Confirmation.ReadsAreConfirmed | raft/read.go:70-135 | in every run, a read asked of a leader that has committed an entry of its term waits, with every answer counted, until the first step at which the process and those whose answers have arrived are a quorum of the configuration then in force; that step confirms it, with the commit index of the moment it was asked; no other step does, it is confirmed once, and it stays confirmed until it is collected; at every moment at which the process still leads that term |
| Confirmation.OthersTurnAway | raft/read.go:70-80 | a read asked of any other member changes nothing |
| Confirmation.AckCounts | raft/read.go:123-135 | one answer is counted for the read it names and no other, and confirms it if that completes a quorum |
| Broadcasts.HeartbeatsReachEveryone | raft/raft.go:466-493 | in every run, a tick of a leader moves its timers; at every heartbeat each peer it tracks is sent what it needs next, and that once more for every read that waits, unless it is still digesting a snapshot; a snapshot is given up for lost after the configured number of heartbeats |
| Broadcasts.ServesAll | raft/replication.go:67-130 | sending to a list of peers sends each the entries from its next one on, as many as there are and as one message may carry, or the snapshot if they are compacted, and sends nobody else anything |
| Broadcasts.ReadsReachEveryone | raft/read.go:70-105 | in every run, a read that one node cannot confirm alone is put to every peer at once |
| Broadcasts.CommitsAreAnnounced | raft/replication.go:243-258 | in every run, when an answer moves a leader's commit index, everyone whom it is not sending a snapshot is sent a message that says so |
| Broadcasts.FollowersAreFed | raft/replication.go:243-258 | in every run, a peer that reports success without moving the commit index is sent what it still lacks |
| Broadcasts.WritesReachEveryone | raft/replication.go:27-65 | in every run, what is written to a leader goes out at once to everyone whom it is not sending a snapshot |
| Reports.ReportsAreBelieved | raft/snapshot.go:234-270 | in every run, a report of success, of entries or of a snapshot, is believed: the peer counts as holding what it says, and no longer waits for a snapshot unless one has just been sent |
| Replies.MembersReply | raft/raft.go:509-592 | in every run, every request that reaches a member gets one reply: of an earlier term, a refusal with the member's own; otherwise as the next three rows say |
| Replies.EntriesReplied | raft/replication.go:143-212 | entries are accepted exactly if they go on from an entry the member holds or has committed; the reply says how far the logs agree and which read it answers, the commit index follows the leader's that far and is on disk, and refused entries change neither log nor commit index |
| Replies.VoteReplied | raft/election.go:101-140 | a vote is given exactly if the asker's log is up to date and the term is new, or the asker has the vote already, or it is not cast and no leader known; then it is on disk and the wait begins again, and otherwise the vote of a term that goes on stays as it was |
| Replies.SnapshotReplied | raft/snapshot.go:179-232 | a snapshot of more than is committed is installed, on disk and handed to the state machine; any other changes nothing that is stored; both are acknowledged |
| Resting.AlwaysAtRest | raft/replication.go:380-419 | at every moment of every run: a leader has committed everything of its term that a quorum holds, keeps track of exactly the members and itself, has completed every transition whose first half is committed once it commits entries of its term, and has stepped down if it is no voter of a committed configuration; no candidate's votes decide its election either way; every election timeout is the base and the last draw |
| Resting.AdvanceRests | raft/replication.go:380-419 | the commit rule leaves nothing to commit, to complete or to step down from |
| Resting.TallyRests | raft/election.go:73-98 | counting votes leaves a candidate only if the count is still open |
| Requests.WritesAreLogged | raft/replication.go:23-65 | in every run, a write put to a leader is the next entry of its log, and one put to anyone else changes nothing |
| Requests.ChangesBegin | raft/confchange.go:46-71 | in every run, a change of membership begins exactly when a leader that commits entries of its term is asked for a configuration with voters and none is in progress, with an entry that joins the old voters and the new; otherwise nothing changes |
| Requests.SnapshotsKeepATail | raft/snapshot.go:51-101 | in every run, a snapshot covers everything applied, and the log keeps the configured number of entries before it |
| Requests.CrashesLeaveTheDisk | raft/raft.go:202-247 | in every run, what a crash leaves is what the disk holds: term, vote, log, snapshot, the commit index as far as log and snapshot vouch for it, and the configuration of that log; all else is forgotten |
| Gaps.SnapshotConfExact | raft/snapshot.go:62-73 | the configuration stamped on a snapshot is that of its entries exactly when the entry in force has been applied, or is at least the second above the applied index and comes back to the same configuration; one configuration entry above the applied index makes it wrong |
| Gaps.InstallConfExact | raft/snapshot.go:213-217 | after an installation the configuration in force is that of the log exactly when the log was replaced, or its kept tail has no configuration entry, or has several and the last comes back to the same configuration |
| Diverge.SafetyLost | raft/snapshot.go:62-73 | State Machine Safety fails if snapshots are taken while a configuration entry is uncommitted, as the code allows: a run of three nodes, every other step as guarded, at the end of which two nodes have committed different entries at index 4 |
| Cases.SnapshotConfExample | raft/snapshot.go:62-73 | a leader in order, with one configuration entry above what it has applied, that stamps its snapshot with a configuration the covered entries know nothing of |
| Cases.InstallExample | raft/snapshot.go:179-232 | a leader in order sends a snapshot; a follower in order receives the entries first and goes down between two writes; restarted, it is in order, and installing the snapshot leaves it with a configuration its own log contradicts |
| Stuck.SilentExactly | raft/replication.go:95-111 | a leader has nothing to send exactly when it would start from the first entry after compaction: neither entries nor the snapshot go out |
| Stuck.EmptyFollowerIsStuck | raft/replication.go:259-337 | a follower with an empty log is brought to that very point by its first refusal |
| Stuck.StuckForever | raft/replication.go:83-130 | and it stays there: in every run, as long as the leader leads and tracks it and its log is empty, the next index stays 1 and no entries and no snapshot for it are ever added to what is under way |
| Stuck.TurnHushed | raft/replication.go:216-289 | no event of such a leader, whatever message arrives, moves the follower on or produces anything for it |
| Tenure.TimerCountsTicks | raft/raft.go:466-493 | a node that leads the same term at two moments of a run has counted in its election timer exactly the ticks between them, and its timeout is the same |
| Tenure.LongLeaderGrantsPreVotes | raft/election.go:143-161 | so a leader grants an up-to-date pre-vote for a later term exactly once its ticks in office have filled its election timeout, and otherwise refuses; it changes nothing about itself |
| Tenure.LeaderIsDeposed | raft/election.go:101-195 | at any moment of any run with three voters, a leader whose ticks in office fill its timeout and a follower of its term with the same log: the run can go on with a poll that the leader's own grant completes, a real campaign, and the leader a follower of the next term |
| Tenure.AlwaysLeadsItself | raft/raft.go:387-418 | in every run whoever leads has itself for leader and for vote |
| Configurations.CommittedIndexIsQuorum | raft/config.go:187-214 | for every match function and i >= 1 the committed index reaches i exactly when the nodes matching at least i form a quorum, joint or not |
| Configurations.ImpossibleIsSound | raft/config.go:147-163 | when a quorum is declared impossible no set without the refusers is one |
| Configurations.ImpossibleIsExact | raft/config.go:147-178 | some quorum avoids the refusers exactly when the test does not report otherwise and no half-configuration has exactly half of its voters refusing: that is the one case the test misses |
| Configurations.MajoritiesMeet | raft/config.go:165-178 | two majorities of one list of voters share a node |
| Configurations.SuccessorsMeet | raft/config.go:256-286 | a quorum of a configuration and one of its successor share a node |
| Configurations.SiblingsMeet | raft/config.go:256-286 | so do quorums of two rival successors |
| Configurations.EnterJointSteps | raft/config.go:256-270 | entering is refused exactly for an empty target or during a transition, and otherwise yields a legal successor |
| Configurations.LeaveJointSteps | raft/config.go:273-286 | leaving is possible exactly in a joint configuration, and yields a legal successor |
| Configurations.TransitionResult | raft/config.go:256-286 | a whole transition ends at the target's voters and keeps of its learners exactly those that were not voters before: a demotion is lost |
| Configurations.Normalize | raft/config.go:46-65 | normal form: sorted, without duplicates, no voter among the learners, otherwise the same members |
| Configurations.HasMajority | raft/config.go:165-178 | the counting loop decides a majority, never of an empty list |
| Configurations.HasQuorum | raft/config.go:137-145 | a majority of both halves while joint |
| Configurations.QuorumImpossible | raft/config.go:155-163 | a majority of refusals in either half |
| Configurations.ComputeQuorumIndex | raft/config.go:203-214 | sorting the matches and taking the right one finds the highest index a majority has |
| Configurations.ComputeCommittedIndex | raft/config.go:187-196 | the result is the highest index a quorum has, as a statement about quorums |
| RawNodes.RawNode.PersistHardState | raft/raft.go:309-319 | does to the node what Persist does to its value, writing only what has changed and refusing a lower term |
| RawNodes.RawNode.Reset | raft/raft.go:326-342 | does to the node what Reset does to its value, forgetting the vote only with the term |
| RawNodes.RawNode.BecomeFollower | raft/raft.go:351-355 | does to the node what BecomeFollower does to its value |
| RawNodes.RawNode.BecomePreCandidate | raft/raft.go:363-376 | does to the node what BecomePreCandidate does to its value: no term, no vote |
| RawNodes.RawNode.BecomeCandidate | raft/raft.go:378-385 | does to the node what BecomeCandidate does to its value: a new term and its own vote |
| RawNodes.RawNode.TakeOver | raft/raft.go:387-418 | does to the node what Crowned does to its value |
| RawNodes.RawNode.BecomeLeader | raft/raft.go:387-432 | does to the node what BecomeLeader does to its value |
| RawNodes.RawNode.Campaign | raft/election.go:14-60 | does to the node what Campaign does to its value, the recursion with TallyVotes ending |
| RawNodes.RawNode.SendVoteRequests | raft/election.go:39-58 | does to the node what SendVoteRequests does to its value, the loop reaching every other voter once |
| RawNodes.RawNode.RecordVote | raft/election.go:62-69 | does to the node what RecordVote does to its value: the first answer counts |
| RawNodes.RawNode.TallyVotes | raft/election.go:73-98 | does to the node what TallyVotes does to its value |
| RawNodes.RawNode.MayVote | raft/election.go:143-177 | does to the node what CanVote does to its value; what that comes to in every run is Protection.FollowersRefusePolls, Protection.DesertedMembersGrantPolls and Protection.LeaderlessMembersGrantPolls for straw polls and Replies.VoteReplied for votes |
| RawNodes.RawNode.HandleVoteRequest | raft/election.go:101-140 | does to the node what HandleVoteRequest does to its value, the vote on disk before the answer |
| RawNodes.RawNode.HandleVoteResponse | raft/election.go:180-195 | does to the node what HandleVoteResponse does to its value |
| RawNodes.RawNode.Propose | raft/replication.go:27-61 | does to the node what Propose does to its value, the recursion through MaybeLeaveJoint ending; refused exactly if not the leader |
| RawNodes.RawNode.MaybeAdvanceCommit | raft/replication.go:380-419 | does to the node what MaybeAdvanceCommit does to its value; it reports exactly whether the commit index moved |
| RawNodes.RawNode.MaybeLeaveJoint | raft/confchange.go:80-102 | does to the node what MaybeLeaveJoint does to its value |
| RawNodes.RawNode.ProposeConfChange | raft/confchange.go:46-71 | does to the node what ProposeConfChange does to its value, with the error of ConfChangeError |
| RawNodes.RawNode.FindConfiguration | raft/confchange.go:119-146 | does to the node what Rescan does to its value: the backward loop finds the last configuration entry above the floor, else the snapshot's, else the bootstrap |
| RawNodes.RawNode.SetConfiguration | raft/confchange.go:149-159 | does to the node what SetConfiguration does to its value |
| RawNodes.RawNode.RefreshProgress | raft/confchange.go:167-205 | does to the node what RefreshProgress does to its value: members are tracked, others dropped, known progress kept |
| RawNodes.RawNode.RefreshIfNeeded | raft/replication.go:424-442 | does to the node what RefreshIfNeeded does to its value |
| RawNodes.RawNode.StepDownIfRemoved | raft/confchange.go:213-221 | does to the node what StepDownIfRemoved does to its value; that no removed leader leads on is part of Resting.AlwaysAtRest |
| RawNodes.RawNode.SendAppend | raft/replication.go:83-130 | does to the node what SendAppend does to its value |
| RawNodes.RawNode.Batch | raft/replication.go:104-111 | the entries that go into one message, or nothing if they have been compacted away |
| RawNodes.RawNode.SendToAll | raft/replication.go:67-71 | does to the node what SendAll does to its value, the loop reaching every peer once and in order |
| RawNodes.RawNode.SendSnapshot | raft/snapshot.go:124-148 | does to the node what SendSnapshot does to its value |
| RawNodes.RawNode.HandleAppendRequest | raft/replication.go:143-214 | does to the node what HandleAppendRequest does to its value |
| RawNodes.RawNode.AcceptEntries | raft/replication.go:176-214 | does to the node what AcceptEntries does to its value |
| RawNodes.RawNode.HandleAppendResponse | raft/replication.go:216-289 | does to the node what HandleAppendResponse does to its value |
| RawNodes.RawNode.NextAfter | raft/replication.go:297-317 | does to the node what NextAfterRejection does to its value |
| RawNodes.RawNode.LastOfTerm | raft/replication.go:321-337 | does to the node what LastIndexOfTerm does to its value, the walk stopping at the first lower term |
| RawNodes.RawNode.ReadIndex | raft/read.go:70-104 | does to the node what ReadIndex does to its value, with the error of ReadIndexError |
| RawNodes.RawNode.AckRead | raft/read.go:123-135 | does to the node what AckRead does to its value, finding the first read of that id; what that comes to in every run is Confirmation.ReadsAreConfirmed |
| RawNodes.RawNode.HandleSnapshotRequest | raft/snapshot.go:179-232 | does to the node what HandleSnapshotRequest does to its value |
| RawNodes.RawNode.HandleSnapshotResponse | raft/snapshot.go:234-270 | does to the node what HandleSnapshotResponse does to its value |
| RawNodes.RawNode.CreateSnapshot | raft/snapshot.go:51-101 | does to the node what CreateSnapshot does to its value |
| RawNodes.RawNode.ExpirePendingSnapshots | raft/snapshot.go:156-173 | does to the node what ExpirePendingSnapshots does to its value |
| RawNodes.RawNode.Step | raft/raft.go:509-525 | does to the node what Step does to its value |
| RawNodes.RawNode.StepHigherTerm | raft/raft.go:533-555 | does to the node what StepHigherTerm does to its value |
| RawNodes.RawNode.StepLowerTerm | raft/raft.go:558-573 | does to the node what StepLowerTerm does to its value |
| RawNodes.RawNode.Tick | raft/raft.go:449-454 | does to the node what Tick does to its value |
| RawNodes.RawNode.TickHeartbeat | raft/raft.go:466-493 | does to the node what TickHeartbeat does to its value; what that comes to in every run is Broadcasts.HeartbeatsReachEveryone |
| RawNodes.RawNode.TickElection | raft/raft.go:456-464 | does to the node what TickElection does to its value; what that comes to in every run is Timeouts.TimeoutsStandForElection |
| RawNodes.RawNode.CommittedEntries | raft/replication.go:454-456 | does to the node what EntriesToApply does to its value; the entries carry consecutive indexes from the one after the applied index |
| RawNodes.RawNode.Messages | raft/raft.go:284-288 | does to the node what emptying the list of messages does to its value |
| RawNodes.NewRawNode | raft/raft.go:202-246 | a node recovered from a store is the Restart of any node that left that store behind |
| RaftLogs.RaftLog.constructor | raft/log.go:28-50 | what a snapshot covers is committed and applied; the recorded commit index is trusted only as far as the log reaches |
| RaftLogs.RaftLog.Term | raft/log.go:76-81 | the term the whole log has at an index, as long as it is at or above the floor |
| RaftLogs.RaftLog.IsUpToDate | raft/log.go:127-133 | the election restriction on the whole log |
| RaftLogs.RaftLog.Entries | raft/log.go:97-106 | a slice of the whole log, or nothing where it has been compacted or does not reach |
| RaftLogs.RaftLog.FirstConflict | raft/log.go:157-164 | the first entry the log does not hold with the same term |
| RaftLogs.RaftLog.Append | raft/log.go:140-149 | writing to the store is writing to the whole log; the committed part is refused |
| RaftLogs.RaftLog.AppendFrom | raft/log.go:173-203 | the conflicting part and nothing else is written |
| RaftLogs.RaftLog.CommitsTo | raft/log.go:256-264 | the commit index never goes back and never past the log |
| RaftLogs.RaftLog.Hint | raft/log.go:217-243 | the start of the run of the conflicting term, found by walking back |
| RaftLogs.RaftLog.AppliedTo | raft/log.go:267-275 | the applied index never goes back and never past the commit index |
| RaftLogs.RaftLog.NextToApply | raft/log.go:286-296 | the committed entries after the applied index, with consecutive indexes, up to the limit |
| RaftLogs.RaftLog.Restore | raft/log.go:303-316 | the whole log after a snapshot has been installed |
| RaftLogs.RaftLog.Compact | raft/log.go:320-325 | compaction leaves the whole log as it was |
| MemoryStore.MemoryStorage.Term | raft/memory_storage.go:61-72 | the sentinel answers for the last discarded entry; compacted and missing indexes are told apart |
| MemoryStore.MemoryStorage.GetEntry | raft/memory_storage.go:74-85 | the entry at an index, or which bound it misses |
| MemoryStore.MemoryStorage.Entries | raft/memory_storage.go:87-104 | a copy of a range, or which bound it misses |
| MemoryStore.MemoryStorage.AppendEntries | raft/memory_storage.go:106-142 | the abstract append: contiguous batches only, what is below the floor trimmed, a divergent tail replaced, no gap |
| MemoryStore.MemoryStorage.SaveSnapshot | raft/memory_storage.go:158-184 | the abstract save: out of date refused, the log replaced exactly if it does not agree at the boundary; the code stops exactly on a new snapshot below its sentinel |
| MemoryStore.MemoryStorage.Compact | raft/memory_storage.go:190-201 | the abstract compaction: the boundary's term survives |
| MemoryStore.MemoryStorage.SetHardState | raft/memory_storage.go:45-52 | a lower term is refused |
| MemoryStore.CheckContiguous | raft/memory_storage.go:144-156 | the loop accepts exactly consecutive indexes with terms that never decrease |
| LogStore.AppendReplacesTail | raft/storage.go:49-55 | after an append everything below it stays, everything from its start is the batch, and the log ends with it |
| LogStore.CompactKeeps | raft/storage.go:90-93 | compaction changes no answer about what it keeps |
| BoltStore.Bolt.Open | storage/bolt.go:126-169 | the cached bounds, floor, snapshot and hard state rebuilt from the buckets alone are the right ones |
| BoltStore.Bolt.Term | storage/bolt.go:200-211 | as the abstract store for every index but 0, which is reported compacted |
| BoltStore.Bolt.GetEntry | storage/bolt.go:213-235 | as the abstract store; no index within the bounds is absent |
| BoltStore.Bolt.Entries | storage/bolt.go:237-268 | the cursor walk collects exactly the range |
| BoltStore.Bolt.AppendEntries | storage/bolt.go:270-327 | buckets and caches together do what the abstract append does |
| BoltStore.Bolt.SaveSnapshot | storage/bolt.go:343-397 | buckets and caches together do what the abstract save does, also below the floor |
| BoltStore.Bolt.Compact | storage/bolt.go:413-447 | buckets and caches together do what the abstract compaction does |
| BoltStore.Bolt.SetHardState | storage/bolt.go:182-195 | a lower term is refused; otherwise bucket and cache agree |
| BoltStore.Reopen | storage/bolt.go:126-169 | a store opened on the disk of another is indistinguishable from it, caches included |
| BoltStore.DeleteRange | storage/bolt.go:297-306 | deleting along a cursor removes exactly a range of keys |
| StoresAgree.Lockstep | raft/storage.go:28-97 | from equal contents the two stores give the same answers, errors included, to every sequence of operations and end with equal contents, even reopening the one on disk before each; new snapshots at or above the floor, terms of indexes above 0 |
| StoresAgree.AskBoth | storage/bolt.go:200-211 | the two stores answer alike about the term of an index except about index 0, and there exactly while nothing has been discarded |
| StoresAgree.SaveBoth | storage/bolt.go:343-397 | they part exactly on a new snapshot below the floor: one stops, the other accepts it and loses every entry above it; otherwise they answer alike and hold the same |
| BoltKeys.KeyOrder | storage/bolt.go:465-472 | keys sort as the indexes they stand for |
| BoltKeys.KeyRoundTrip | storage/bolt.go:468-476 | an index comes back from its key |
| Driver.NodeDriver.HandlePropose | node/node.go:551-558 | a proposal to a node that does not lead is refused on the spot; otherwise it waits, alone, at the index after the log, and what it was given there is an entry of the present term with the very bytes proposed |
| Driver.NodeDriver.Resolve | node/node.go:535-549 | whoever waits at the entry's index is taken off the list and told of success exactly if the terms agree |
| Driver.NodeDriver.FailPending | node/node.go:560-565 | everyone waiting is answered, once and alike; earlier answers stay |
| Driver.NodeDriver.ApplyCommitted | node/node.go:404-430 | the state machine consumes exactly the committed entries it had not consumed, nothing else about the node changes, earlier answers stay, and whoever is told of success is told of an entry consumed at its index; of those who were waiting, everyone whose index is now consumed has been told, of success exactly if the terms agree, and the others wait on |
| Driver.NodeDriver.ApplyAll | node/node.go:414-427 | the state machine consumes exactly the entries it is given, in order; each success is about one of them, and everyone who waited at one of their indexes has been told |
| Driver.NodeDriver.RestoreSnapshot | node/node.go:472-502 | a waiting snapshot replaces the state machine by its image and leaves nobody waiting; without one nothing changes |
| Driver.NodeDriver.Flush | node/node.go:368-402 | after it only a leader has clients waiting, all within its log and beyond what is consumed; no answer is taken back, every success is about an entry the state machine now holds, the messages are handed over, and what became of the process is what a sequence of sends, restores, applications and compactions makes of a member of a cluster |
| Driver.NodeDriver.OnMessage | node/node.go:332-345 | one turn of the loop is the event followed by housekeeping steps of a member of a cluster; proposals taken and what they were given stay, no answer is taken back, every new success is about an entry consumed at its index, a node that goes on leading has told everyone whose index is consumed, and a fatal error leaves every proposal answered |
| Driver.NodeDriver.OnTick | node/node.go:326-330 | the same for a tick: one turn of the loop is the event followed by housekeeping steps of a member of a cluster; proposals taken and what they were given stay, no answer is taken back, every new success is about an entry consumed at its index, a node that goes on leading has told everyone whose index is consumed, and a fatal error leaves every proposal answered |
| Driver.NodeDriver.OnPropose | node/node.go:347-363 | the same for a proposal, which is taken as HandlePropose says |
| Driver.NodeDriver.Stop | node/node.go:320-324 | nobody is left waiting when the loop ends, everybody has been answered exactly once, and those still waiting are told so; earlier answers stay |
| Driver.NodeDriver.Loop | node/node.go:310-366 | over any sequence of messages, ticks and proposals, until a failure or the end: each proposal is answered exactly once, no answer is taken back, the n-th proposal was given an entry with the bytes of the n-th command; what becomes of the process is what a sequence of steps makes of a member of a cluster, each proposal was given its entry by one of those steps, and every success is about an entry the state machine held after some of them |
| Driver.NodeDriver.constructor | node/node.go:443-470 | the state machine starts from the snapshot on disk |
| Driver.PlayedInRun | node/node.go:310-402 | what its steps make of the process, they make of that member in every run of its cluster, whatever the other members do in between |
| Driver.LoopIsTraced | node/node.go:551-558 | every entry the loop gives a proposal is the one a leader appended for it at a step of the run |
| Driver.SuccessIsTrue | node/node.go:535-549 | for a whole loop whose steps are those of a member in a run: whoever is told of success, at any turn, is told of the very entry the proposal was given, it carries the bytes proposed, and at some moment of the run the state machine holds it at its index |
| Driver.Moved | node/node.go:535-565 | taking a client off the waiting list and answering it keeps every proposal answered at most once |
| KVStore.Store.CheckSession | kvstore/session.go:64-83 | a request is a repeat exactly if its client's session has reached its sequence number, and is then answered from the session |
| KVStore.Store.EvictSessions | kvstore/session.go:102-125 | the oldest sessions by last index, then client id, are dropped until the limit is met |
| KVStore.Store.RecordSession | kvstore/session.go:86-92 | the session is replaced and the table trimmed; client 0 has none |
| KVStore.Store.Apply | kvstore/kvstore.go:100-134 | the map, the sessions and the answer after one entry; undecodable and unknown commands change nothing and are reported; what a whole log of entries leaves in the map is Sessions.LastSetIsHeld, and what it answers is StoreAnswers.StoreIsOneMap |
| Sessions.LastSetIsHeld | kvstore/kvstore.go:120-134 | with room for every client, the store holds a value under a key exactly if the last request for that key that was not a retry set it to that value |
| StoreAnswers.StoreIsOneMap | kvstore/kvstore.go:112-134 | with room for every client, the requests of a log that were not retries, with the answers the store gave them, are a legal run of one map in log order, and a read after them is legal exactly if it returns what the store holds |
| KVStore.Store.Snapshot | kvstore/kvstore.go:184-188 | the image of the map and nothing else |
| KVStore.Store.Restore | kvstore/kvstore.go:191-201 | the map of an image replaces the map; the sessions stay as they were |
| Sessions.ExactlyOnce | kvstore/kvstore.go:100-134 | with room for every client, a log with retries leaves the same map as the log without them leaves in a map that knows no sessions |
| Sessions.FirstAnswers | kvstore/kvstore.go:100-134 | and every request that is not a retry is answered as that map would have answered |
| Sessions.RetryReplays | kvstore/session.go:64-83 | a retry is answered, marked as a repeat, as the highest request of its client before it was |
| Sessions.EveryRetry | kvstore/session.go:64-83 | every entry that is not its client's first with so high a number is such a retry |
| Sessions.OwnAnswerExactly | kvstore/session.go:73-82 | a retry gets its own request's answer exactly when that request and the client's highest so far either both found something to delete or both did not; always, if no higher one came between |
| Sessions.AlwaysTopClients | kvstore/session.go:94-125 | over rising indexes the table is always exactly the clients, up to the limit, whose requests took effect last |
| Sessions.JustRecordedStays | kvstore/session.go:94-125 | the client just recorded is never the one dropped |
| Sessions.OlderRetryExample | kvstore/session.go:73-82 | a concrete log in which a retry of an older request is given a later request's answer |
| Sessions.RestoreForgets | kvstore/kvstore.go:184-201 | after a restore, with whatever sessions the replica had before it, a command is answered as at the source exactly when both or neither take it for a retry and remember the same answer; the maps stay equal exactly when they agree on that or the command changes nothing |
| Sessions.RestoredMarks | kvstore/kvstore.go:184-201 | over whole logs: a replica that saw a log up to m and was given a snapshot of it up to k marks every later answer as its source does exactly when no later entry repeats a request only the source has seen |
| Sessions.RestoredMap | kvstore/kvstore.go:191-201 | and as long as that is so it holds the same map |
| Sessions.RestoredAnswers | kvstore/kvstore.go:191-201 | a replica that saw a log up to m and was given a snapshot of it up to k gives the same answers to everything that follows exactly when no later entry repeats a request only its source has seen and no later retry meets different remembered answers; with no sessions (m = 0) only the first can happen |
| Sessions.RestoredHolds | kvstore/session.go:64-92 | what such a replica remembers of a client is the answer to the highest of its requests it has seen |
| Sessions.RestoreExample | kvstore/kvstore.go:184-201 | a log after which a replica that ran it and one restored in the middle hold different maps |
| Encoding.UvarintRoundTrip | kvstore/encoding.go:39-40 | every 64-bit integer comes back from its encoding, whatever follows |
| Encoding.UvarintCut | kvstore/encoding.go:57-60 | no strict prefix of an encoded integer can be read |
| Encoding.AppendUvarint | kvstore/encoding.go:154-157 | the loop writes the encoding |
| Encoding.PrefixedRoundTrip | kvstore/encoding.go:154-169 | a length-prefixed string comes back, whatever follows |
| Encoding.PrefixedCut | kvstore/encoding.go:159-169 | no strict prefix of a length-prefixed string can be read |
| Commands.CommandRoundTrip | kvstore/encoding.go:26-85 | an encoded command decodes to itself, whatever follows; only a set has a value |
| Commands.BoundedCommandsArrive | kvstore/encoding.go:26-50 | a command is rendered exactly when it has a key of at most 1 MiB and a value of at most 16 MiB, and then it arrives |
| Commands.CommandCut | kvstore/encoding.go:49-85 | no strict prefix of an encoded command decodes |
| Commands.CommandsDistinct | kvstore/encoding.go:26-46 | encodings are equal only for commands that mean the same, and none is a strict prefix of another |
| MapImage.SortKeys | kvstore/encoding.go:117-118 | the keys come out in dictionary order, in whatever order they went in |
| MapImage.EncodeMap | kvstore/encoding.go:117-127 | the image lists every entry once, in key order |
| MapImage.MapRoundTrip | kvstore/encoding.go:117-150 | an image decodes to the map it was made from |
| MapImage.ImagesEqualIffMapsAre | kvstore/encoding.go:111-127 | two images are the same bytes exactly when the maps are equal |
| ConfEncoding.AppendIDs | raft/confchange.go:267-273 | the loop writes a counted list |
| ConfEncoding.ChangeRoundTrip | raft/confchange.go:233-265 | an encoded change decodes to its normal form, and to itself if it was in normal form |
| ConfEncoding.ChangeCut | raft/confchange.go:243-295 | no strict prefix of an encoded change decodes |
| Linearizability.Locality | chaos/check.go:29-61 | a history is linearizable against one map exactly when every key's part of it is linearizable against the single-key model |
| Linearizability.LegalByKey | chaos/check.go:63-92 | a sequence of operations is legal against the map exactly when each key's part is legal by itself; what legal means is Linearizability.LegalMeans |
| Linearizability.LegalMeans | chaos/check.go:67-92 | a sequence of operations is legal from an empty map exactly when, at every position, a read reports the last value put under its key, or nothing if there was none or it was deleted since, and a delete whose answer is known reports whether there was one |
| Linearizability.LastPutIsHeld | chaos/check.go:77-88 | after any operations the map holds under a key exactly the last value put there, unless it was deleted since |
| Linearizability.Partition | chaos/check.go:44-61 | the loop splits a history into exactly its keys' parts, in order |
| Linearizability.ToOperations | chaos/check.go:199-230 | an operation that never returned is given a time past every other; nothing else changes |
| Linearizability.UnknownWriteIsFree | chaos/check.go:191-212 | a put or delete whose answer was lost never makes a linearizable history illegal |
| Linearizability.LostWritesAreFree | chaos/check.go:191-230 | however many puts and deletes of a recorded history never returned: if the rest of it is linearizable, all of it is |
| Linearizability.UnknownReadIsNot | chaos/check.go:73-75 | a read whose answer was lost is harmless exactly when some order of the rest has a moment, not before what had returned when it was called, at which the key is absent |
| Linearizability.UnknownReadExample | chaos/check.go:73-75 | a linearizable history that such a read makes fail |

## Left out

- `transport/`, `kvserver/`, `metrics/`, `cmd/`, `sim/`, `clock/` and the generated protocol code: plumbing around the core; a run of `Cluster.dfy` quantifies over every schedule the simulator could draw.
- `codec/`: a message, entry or snapshot is taken to arrive as it was sent. That `ConfigurationFromProto` does not normalize old voters is not modelled.
- bbolt itself: a committed transaction is one update of the buckets, a cursor visits the keys in order and deleting under it skips none. File locking and fsync are not modelled.
- Liveness: who is elected when, and that a leader is elected at all. Of the random source nothing is assumed; the code draws below the base timeout.
- 64-bit wrap-around of terms, indexes, sequence numbers and read ids in the core: they are unbounded. The encodings do model the 64-bit limit.
- RaftLogs.RaftLog.Compact: asks that the entries discarded be covered by a saved snapshot, as the comment above the code does; the code itself compares with the applied index only.
- RawNodes.RawNode.HandleSnapshotRequest: asks that the snapshot's image list every entry up to its last index, which `Runs.SnapshotsAreWhole` proves of every snapshot sent; a message without a snapshot is not modelled.
- StepSnapshot.HandleSnapshotRequestOK: holds under `CleanInstall`; `Gaps.InstallConfExact` says what happens without it.
- StepSnapshot.CreateSnapshotOK: holds when the configuration in force is that of the entries covered; `Gaps.SnapshotConfExact` says what happens without it.
- Runs.ReadIsFresh: speaks of a process between two crashes; a restarted process numbers its reads from 1 again and knows nothing of the old ones.
- KVStore.Store.EvictSessions: drops the oldest session until few enough are left, where the code sorts all of them and drops a prefix; the result is the same.
- Clusters.NextOK: holds under the guards of `Enabled`; `FixedVoters.PlainRunIsRun` says when they are not needed.
- StepAny.StepOK: holds under `CleanInstall`, like the installation it includes.
- RawNodes.RawNode.Step: like HandleSnapshotRequest, asks that a snapshot message carry a whole image.
- RaftLogs.RaftLog.Restore: asks the same of the snapshot it restores.
- Driver.NodeDriver.OnMessage: asks the same of a snapshot message.
- Cases.InstallExample: shows states that are in order by one history, not a run that reaches them.
- Driver: proposals still in the channel when the loop ends, contexts and deadlines, and a state machine that refuses an entry, which the loop treats as fatal, are not modelled; neither are status requests, nor the waiting lists of reads and configuration changes.
- Porcupine's search, its timeout and its visualization: only what is searched for is modelled. The order in which the parts of a history are reported is not.
- Aliasing of byte slices: the code clones them at its boundaries, and here they are values.
