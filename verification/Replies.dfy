/** What a member answers: every request that reaches it gets one reply, and what the reply says and what the member
makes of the request are settled by its log, its vote and its term alone (raft/replication.go, raft/election.go,
raft/snapshot.go, raft/raft.go). */
module Replies {
  import opened Configurations
  import opened RaftTypes
  import opened RaftNode
  import opened Steady
  import opened Clusters
  import opened Runs
  import opened Tenure
  import opened Protection
  import opened Broadcasts

  function Larger(a: Index, b: Index): Index { if a < b then b else a }

  function Smaller(a: Index, b: Index): Index { if a < b then a else b }

  // ---------------------------------------------------------------------------
  // Entries
  // ---------------------------------------------------------------------------

  /** Does the member's log go on where the message begins? What is committed does, whatever the message says. */
  predicate Fits(n: Node, m: Message)
    requires m.AppendReq?
  {
    m.prevIndex < n.committed || (m.prevIndex <= |n.log| && TermAt(n.log, m.prevIndex) == m.prevTerm)
  }

  /** How far the member then holds what the leader holds. */
  function Confirms(n: Node, m: Message): Index
    requires m.AppendReq?
  {
    if m.prevIndex < n.committed then n.committed else m.prevIndex + |m.entries|
  }

  /** One reply, which says whether the entries fit, how far the logs now agree, and which read it answers. If they fit,
      the commit index follows the leader's as far as the logs agree; if not, nothing is logged or committed. */
  ghost predicate RepliedToEntries(n: Node, m: Message, r: Node)
    requires m.AppendReq?
  {
    && |r.msgs| == |n.msgs| + 1 && n.msgs <= r.msgs
    && (var reply := r.msgs[|n.msgs|];
        && reply.AppendResp? && reply.from == n.id && reply.to == m.from && reply.term == m.term
        && reply.readId == m.readId
        && reply.success == Fits(n, m) && (reply.success ==> reply.matchIndex == Confirms(n, m)))
    && (!Fits(n, m) ==> r.log == n.log)
    && r.committed == (if Fits(n, m) && m.prevIndex >= n.committed
                       then Larger(n.committed, Smaller(m.commit, Confirms(n, m))) else n.committed)
    && (Fits(n, m) && m.prevIndex >= n.committed ==> r.hard == HardState(r.term, r.vote, r.committed))
  }

  lemma AcceptReplies(n: Node, m: Message)
    requires m.AppendReq? && m.term == n.term && m.prevIndex >= n.committed && MatchTerm(n, m.prevIndex, m.prevTerm)
    requires !AcceptEntries(n, m).fault
    ensures RepliedToEntries(n, m, AcceptEntries(n, m))
  {
    hide AppendConflicting, RefreshIfNeeded, Persist;
    WrittenShape(n, m.prevIndex, m.entries);
    var n1, lastNew := AppendConflicting(n, m.prevIndex, m.entries), m.prevIndex + |m.entries|;
    var n2 := CommitTo(n1, if m.commit < lastNew then m.commit else lastNew);
    RefreshedShape(n2, m.entries);
    OnDiskNow(RefreshIfNeeded(n2, m.entries));
  }

  lemma OnDiskNow(n: Node)
    ensures var r := Persist(n);
            r == n.(hard := r.hard, fault := r.fault) && (!r.fault ==> r.hard == HardState(n.term, n.vote, n.committed))
  {}

  lemma EntriesReplied(n: Node, m: Message)
    requires m.AppendReq? && m.term == n.term && n.floor <= n.committed <= |n.log|
    requires !HandleAppendRequest(n, m).fault
    ensures RepliedToEntries(n, m, HandleAppendRequest(n, m))
  {
    hide AcceptEntries, ConflictHint;
    var n1 := FollowLeader(n, m);
    if m.prevIndex >= n.committed && MatchTerm(n1, m.prevIndex, m.prevTerm) { AcceptReplies(n1, m); }
  }

  // ---------------------------------------------------------------------------
  // Votes
  // ---------------------------------------------------------------------------

  /** Free to vote for whoever asks: the term is new, or the asker already has this vote, or the vote is not cast and
      no leader known. */
  predicate Free(n: Node, m: Message) {
    m.term > n.term || n.vote == m.from || (n.vote == NONE && n.lead == NONE)
  }

  /** One reply. A vote is given exactly if the member is free and the asker's log is up to date, and then it is on disk
      and the member waits anew; otherwise the vote of a term that goes on stays as it was. */
  ghost predicate RepliedToCandidate(n: Node, m: Message, r: Node)
    requires m.VoteReq? && !m.preVote
  {
    var granted := Free(n, m) && UpToDate(m.lastIndex, m.lastTerm, n.log);
    && r.msgs == n.msgs + [VoteResp(n.id, m.from, m.term, false, granted)]
    && r.term == m.term == r.hard.term && r.vote == r.hard.vote
    && (granted ==> r.vote == m.from && r.electionElapsed == 0)
    && (!granted ==> r.vote == if m.term > n.term then NONE else n.vote)
    && r.log == n.log && r.committed == n.committed
  }

  lemma VoteReplied(n: Node, m: Message)
    requires m.VoteReq? && !m.preVote && m.to == n.id && m.term >= n.term && Sized(n) && !n.fault
    requires n.hard.term == n.term && n.hard.vote == n.vote
    ensures RepliedToCandidate(n, m, Step(n, m))
  {
    hide UpToDate;
    if m.term > n.term {
      var n1 := StepHigherTerm(n, m);
      assert n1.lead == NONE && n1.vote == NONE && !n1.fault && n1.msgs == n.msgs && n1.log == n.log;
    }
  }

  // ---------------------------------------------------------------------------
  // Snapshots
  // ---------------------------------------------------------------------------

  /** One reply. A snapshot of more than is committed is installed and handed to the state machine; any other is
      acknowledged and changes nothing that is stored. */
  ghost predicate RepliedToSnapshot(n: Node, m: Message, r: Node)
    requires m.SnapReq?
  {
    && r.msgs == n.msgs + [SnapResp(n.id, m.from, m.term, true, Larger(n.committed, m.snap.lastIndex))]
    && if m.snap.lastIndex > n.committed then
         && r.committed == r.applied == m.snap.lastIndex && r.snap == m.snap && r.toRestore == Some(m.snap)
         && (r.log == n.log || r.log == m.snap.image) && r.hard == HardState(r.term, r.vote, r.committed)
       else
         && r.committed == n.committed && r.applied == n.applied && r.snap == n.snap && r.log == n.log
         && r.toRestore == n.toRestore
  }

  lemma SnapshotReplied(n: Node, m: Message)
    requires m.SnapReq? && m.term == n.term && n.snap.lastIndex <= n.committed && !HandleSnapshotRequest(n, m).fault
    ensures RepliedToSnapshot(n, m, HandleSnapshotRequest(n, m))
  {
    hide SaveSnapshot, SetConfiguration, Persist, FollowLeader;
    Followed(n, m);
    var n1 := FollowLeader(n, m);
    SavedLog(n1, m.snap);
    SavedKeeps(n1, m.snap);
    var n2 := SaveSnapshot(n1, m.snap).(committed := m.snap.lastIndex, applied := m.snap.lastIndex);
    SetKeeps(n2, m.snap.config, m.snap.lastIndex);
    var n3 := if m.snap.config.IsEmpty() then n2 else SetConfiguration(n2, m.snap.config, m.snap.lastIndex);
    OnDiskNow(n3.(toRestore := Some(m.snap)));
  }

  lemma Followed(n: Node, m: Message)
    ensures var r := FollowLeader(n, m);
            && r.id == n.id && r.msgs == n.msgs && r.committed == n.committed && r.applied == n.applied
            && r.snap == n.snap && r.log == n.log && r.toRestore == n.toRestore && r.fault == n.fault
            && (n.term == m.term ==> r.term == n.term)
  {
    hide BecomeFollower;
    FollowerShape(n.(electionElapsed := 0), m.term, m.from);
  }

  lemma SavedLog(n: Node, snap: Snapshot)
    ensures var r := SaveSnapshot(n, snap); r.log == n.log || r.log == snap.image
  {
    hide CoversSnapshot;
  }

  // ---------------------------------------------------------------------------
  // Everything that can arrive
  // ---------------------------------------------------------------------------

  /** What a member does with a message: requests of an earlier term are refused with the member's own term, and other
      messages of one are ignored. Every other request of a leader or a candidate is answered. */
  ghost predicate Replied(n: Node, m: Message, r: Node) {
    if m.term < n.term then
      r == match m
           case VoteReq(_, _, _, _, _, _) => Send(n, VoteResp(n.id, m.from, n.term, m.preVote, false))
           case AppendReq(_, _, _, _, _, _, _, _) => Send(n, AppendResp(n.id, m.from, n.term, false, 0, 0, 0, 0))
           case SnapReq(_, _, _, _) => Send(n, AppendResp(n.id, m.from, n.term, false, 0, 0, 0, 0))
           case _ => n
    else
      && (m.AppendReq? ==> RepliedToEntries(n, m, r) && FollowsAnew(n, m, r))
      && (m.SnapReq? ==> RepliedToSnapshot(n, m, r) && FollowsAnew(n, m, r))
      && (m.VoteReq? && !m.preVote ==> RepliedToCandidate(n, m, r))
  }

  /** A later term changes nothing that a reply depends on. */
  lemma RaisedTerm(n: Node, m: Message)
    requires FromALeader(m) && m.term > n.term && !n.fault && n.hard.term == n.term
    ensures var r := StepHigherTerm(n, m);
            && r.id == n.id && r.msgs == n.msgs && r.log == n.log && r.committed == n.committed && r.floor == n.floor
            && r.snap == n.snap && r.applied == n.applied && r.toRestore == n.toRestore && r.term == m.term && !r.fault
  {}

  lemma SameReply(n: Node, q: Node, m: Message, r: Node)
    requires q.id == n.id && q.msgs == n.msgs && q.log == n.log && q.committed == n.committed && q.applied == n.applied
    requires q.snap == n.snap && q.toRestore == n.toRestore
    ensures m.AppendReq? && RepliedToEntries(q, m, r) ==> RepliedToEntries(n, m, r)
    ensures m.SnapReq? && RepliedToSnapshot(q, m, r) ==> RepliedToSnapshot(n, m, r)
  {}

  lemma StepReplies(n: Node, m: Message)
    requires Sized(n) && !n.fault && n.hard.term == n.term && n.hard.vote == n.vote && m.to == n.id
    requires n.floor <= n.snap.lastIndex <= n.committed <= |n.log| && !Step(n, m).fault
    ensures Replied(n, m, Step(n, m))
  {
    hide HandleAppendRequest, HandleSnapshotRequest, HandleVoteRequest, HandleVoteResponse, HandleAppendResponse;
    hide HandleSnapshotResponse, StepHigherTerm, RepliedToEntries, RepliedToSnapshot, RepliedToCandidate, FollowsAnew;
    if m.term >= n.term {
      if FromALeader(m) {
        HearingFollows(n, m);
        if m.term > n.term { RaisedTerm(n, m); }
        var q := if m.term > n.term then StepHigherTerm(n, m) else n;
        if m.AppendReq? { EntriesReplied(q, m); } else { SnapshotReplied(q, m); }
        SameReply(n, q, m, Step(n, m));
      } else if m.VoteReq? && !m.preVote {
        VoteReplied(n, m);
      }
    }
  }

  /** In every run, every message that reaches a member is dealt with so. */
  lemma MembersReply(boot: Configuration, r: Run, k: nat, a: NodeID)
    requires IsRun(boot, r) && |r.states| == |r.who| + 1 == |r.what| + 1 && k < |r.who| && At(r, k, a)
    requires r.who[k] == a && r.what[k].Receives?
    ensures At(r, k + 1, a) && Replied(NodeAt(r, k, a), r.what[k].m, NodeAt(r, k + 1, a))
  {
    hide Init, Step, Replied;
    assert StepAt(r, k);
    AlwaysReady(boot, r, k, a);
    InOrder(boot, r, k, a);
    InOrder(boot, r, k + 1, a);
    VotesOnDisk(boot, r, k, a);
    StepReplies(NodeAt(r, k, a), r.what[k].m);
  }

  lemma VotesOnDisk(boot: Configuration, r: Run, k: nat, a: NodeID)
    requires IsRun(boot, r) && At(r, k, a)
    ensures NodeAt(r, k, a).hard.vote == NodeAt(r, k, a).vote
  {
    hide IsRun;
    AlwaysInOrder(boot, r, k, a);
  }
}
