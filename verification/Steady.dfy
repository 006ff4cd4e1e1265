/** What no step of a node takes back: its term, its commit index, what its state machine has consumed;
and how a node may come to lead. */
module Steady {
  import opened Configurations
  import opened RaftTypes
  import opened RaftNode

  /** A step that leaves the state machine alone and takes back neither the term nor the commit index.
      A node leads a term only if it was a candidate of that term before, and its log only grows while it
      leads. */
  ghost predicate Forward(n: Node, r: Node) {
    && n.term <= r.term && n.committed <= r.committed
    && r.applied == n.applied && r.toRestore == n.toRestore
    && (r.term == n.term && r.role == Candidate ==> n.role == Candidate)
    && (r.term == n.term && r.role == Leader ==> n.role == Candidate || n.role == Leader)
    && (r.term == n.term && n.role == Leader && r.role == Leader ==> n.log <= r.log)
  }

  /** The numbers of the reads a node is waiting for or has confirmed. */
  function ReadIds(pending: seq<ReadRequest>, done: seq<ReadState>): set<nat> {
    (set i | 0 <= i < |pending| :: pending[i].id) + set i | 0 <= i < |done| :: done[i].id
  }

  /** No read turns up, and none outlives the term it was asked in. */
  ghost predicate Quieter(n: Node, r: Node) {
    var was, left := ReadIds(n.pendingReads, n.readStates), ReadIds(r.pendingReads, r.readStates);
    left <= was && (r.term != n.term ==> left == {})
  }

  ghost predicate Onward(n: Node, r: Node) { Forward(n, r) && Quieter(n, r) }

  lemma NoReads()
    ensures ReadIds([], []) == {}
  {}

  /** Counting an acknowledgement moves a read from the waiting ones to the confirmed ones. */
  lemma AckReadIds(n: Node, from: NodeID, id: nat)
    ensures var r := AckRead(n, from, id);
            && r == n.(pendingReads := r.pendingReads, readStates := r.readStates)
            && ReadIds(r.pendingReads, r.readStates) <= ReadIds(n.pendingReads, n.readStates)
  {
    hide Quorum, ReadIds;
    var k := FindRead(n.pendingReads, id);
    if k < |n.pendingReads| { MovedIds(n.pendingReads, n.readStates, k, from); }
  }

  lemma MovedIds(pending: seq<ReadRequest>, done: seq<ReadState>, k: nat, from: NodeID)
    requires k < |pending|
    ensures var req := pending[k].(acks := pending[k].acks + {from});
            && ReadIds(pending[k := req], done) <= ReadIds(pending, done)
            && ReadIds(pending[..k] + pending[k + 1..], done + [ReadState(req.id, req.index)]) <= ReadIds(pending, done)
  {
    forall i | 0 <= i < |pending| ensures pending[i].id in ReadIds(pending, done) {}
    forall i | 0 <= i < |done| ensures done[i].id in ReadIds(pending, done) {}
  }

  lemma FollowerShape(n: Node, t: Term, lead: NodeID)
    ensures var r := BecomeFollower(n, t, lead);
            r == n.(term := t, vote := if n.term != t then NONE else n.vote, role := Follower, lead := lead,
                    electionElapsed := 0, heartbeatElapsed := 0, votes := map[], progress := map[],
                    pendingReads := [], readStates := [], timeout := r.timeout, draws := r.draws)
  {}

  lemma PersistKeeps(n: Node)
    ensures Persist(n) == n.(hard := Persist(n).hard, fault := Persist(n).fault)
  {}

  lemma SetKeeps(n: Node, c: Configuration, at: Index)
    ensures var r := SetConfiguration(n, c, at);
            r == n.(conf := r.conf, confIndex := r.confIndex, progress := r.progress)
  {}

  /** Taking a snapshot touches nothing but the snapshot and the floor. */
  lemma CreatedShape(n: Node, image: seq<Entry>)
    ensures var r := CreateSnapshot(n, image); r == n.(snap := r.snap, floor := r.floor)
  {}

  lemma RescannedShape(n: Node)
    ensures var r := RefreshConfiguration(n); r == n.(conf := r.conf, confIndex := r.confIndex, progress := r.progress)
  {
    hide Rescan, SetConfiguration;
    SetKeeps(n, Rescan(n).0, Rescan(n).1);
  }

  lemma SavedKeeps(n: Node, snap: Snapshot)
    ensures var r := SaveSnapshot(n, snap); r == n.(snap := snap, log := r.log, floor := r.floor)
  {
    hide CoversSnapshot;
  }

  lemma OnwardTransitive(a: Node, b: Node, c: Node)
    requires Onward(a, b) && Onward(b, c)
    ensures Onward(a, c)
  {}

  lemma {:induction false} ProposeOnward(n: Node, p: Payload)
    requires Sized(n)
    ensures Onward(n, Propose(n, p))
    decreases JointRank(AppendOwn(n, p)) + 1
  {
    hide MaybeAdvanceCommit, SendAll, ConfOf, ReadIds;
    if n.role == Leader && |n.log| + 1 > n.committed {
      var n1 := AppendOwn(n, p);
      MaybeAdvanceCommitOnward(n1);
      OnwardTransitive(n, n1, MaybeAdvanceCommit(n1));
    }
  }

  lemma {:induction false} MaybeAdvanceCommitOnward(n: Node)
    requires Sized(n)
    ensures Onward(n, MaybeAdvanceCommit(n))
    decreases JointRank(n)
  {
    hide MaybeLeaveJoint, CommittedIndex, Matched, ReadIds;
    NoReads();
    if n.role == Leader {
      var n1 := Persist(CommitTo(n, CommittedIndex(n.conf, Matched(n))));
      if !n1.fault {
        MaybeLeaveJointOnward(n1);
      }
    }
  }

  lemma {:induction false} MaybeLeaveJointOnward(n: Node)
    requires Sized(n)
    ensures Onward(n, MaybeLeaveJoint(n))
    decreases JointRank(n), 0
  {
    hide Propose;
    if n.role == Leader && n.conf.IsJoint() && n.confIndex <= n.committed && LeaveJoint(n.conf).Changed? {
      LeavingIsNotJoint(n);
      ProposeOnward(n, ConfEntry(LeaveJoint(n.conf).change));
    }
  }

  lemma BecomeLeaderOnward(n: Node)
    requires Sized(n)
    ensures n.role == Candidate ==> Onward(n, BecomeLeader(n))
  {
    hide MaybeAdvanceCommit, SendAll;
    MaybeAdvanceCommitOnward(Crowned(n));
  }

  lemma {:induction false} CampaignOnward(n: Node, preVote: bool)
    requires Sized(n)
    ensures Onward(n, Campaign(n, preVote))
    decreases if preVote then 3 else 1
  {
    hide Canvass, Stand;
    if n.conf.IsVoter(n.id) {
      var n1 := Stand(n, preVote);
      StandOnward(n, preVote);
      if !n1.fault {
        var n2 := RecordVote(n1, n1.id, true);
        CanvassOnward(n2, preVote);
        OnwardTransitive(n, n2, Canvass(n2, preVote));
      }
    }
  }

  lemma StandOnward(n: Node, preVote: bool)
    ensures var r := Stand(n, preVote);
            Onward(n, r) && r.log == n.log && r.floor == n.floor && r.conf == n.conf
            && (r.fault || r.role == if preVote then PreCandidate else Candidate)
  {}

  lemma {:induction false} CanvassOnward(n: Node, preVote: bool)
    requires Sized(n) && (n.role == PreCandidate || n.role == Candidate)
    ensures Onward(n, Canvass(n, preVote))
    decreases if n.role == PreCandidate then 2 else 0, 1
  {
    hide TallyVotes, SendVoteRequests, Quorum, Impossible;
    if Quorum(n.conf, Granted(n)) || Impossible(n.conf, Rejected(n)) { TallyVotesOnward(n); }
  }

  lemma {:induction false} TallyVotesOnward(n: Node)
    requires Sized(n) && (n.role == PreCandidate || n.role == Candidate)
    ensures Onward(n, TallyVotes(n))
    decreases if n.role == PreCandidate then 2 else 0, 0
  {
    hide Campaign, BecomeLeader, Quorum, Impossible;
    if Quorum(n.conf, Granted(n)) {
      if n.role == PreCandidate { CampaignOnward(n, false); } else { BecomeLeaderOnward(n); }
    }
  }

  lemma FeedOnward(n: Node, from: NodeID, next: pos, advanced: bool)
    ensures Onward(n, Feed(n, from, next, advanced))
  {
    hide SendAll, SendAppend;
  }

  lemma RecordMatchOnward(n: Node, from: NodeID, i: Index)
    requires Sized(n) && from in n.progress
    ensures Onward(n, RecordMatch(n, from, i))
  {
    hide MaybeAdvanceCommit, Feed;
    if i > n.progress[from].matched {
      var n0 := WithMatch(n, from, i);
      var n1 := MaybeAdvanceCommit(n0);
      MaybeAdvanceCommitOnward(n0);
      FeedOnward(n1, from, i + 1, n1.committed > n.committed);
    } else {
      FeedOnward(n, from, n.progress[from].next, false);
    }
  }

  lemma AppendResponseOnward(n: Node, m: Message)
    requires Sized(n) && m.AppendResp?
    ensures Onward(n, HandleAppendResponse(n, m))
  {
    hide RecordMatch, SendAppend, BackUp, AckRead, ReadIds;
    if n.role == Leader && m.from in n.progress {
      AckReadIds(n, m.from, m.readId);
      var n1 := if m.readId != 0 then AckRead(n, m.from, m.readId) else n;
      if m.success { RecordMatchOnward(n1, m.from, m.matchIndex); }
    }
  }

  lemma SnapshotResponseOnward(n: Node, m: Message)
    requires Sized(n) && m.SnapResp?
    ensures Onward(n, HandleSnapshotResponse(n, m))
  {
    hide RecordMatch;
    if n.role == Leader && m.from in n.progress {
      var n1 := n.(progress := n.progress[m.from := n.progress[m.from].(pendingSnapshot := 0, snapshotTicks := 0)]);
      if m.success { RecordMatchOnward(n1, m.from, m.matchIndex); }
    }
  }

  lemma AppendRequestOnward(n: Node, m: Message)
    requires m.AppendReq? && n.term == m.term
    ensures Onward(n, HandleAppendRequest(n, m))
  {
    hide AcceptEntries, ConflictHint, MatchTerm;
    AcceptEntriesOnward(FollowLeader(n, m), m);
  }

  lemma WrittenShape(n: Node, prev: Index, ents: seq<Entry>)
    ensures var r := AppendConflicting(n, prev, ents); r == n.(log := r.log, fault := r.fault)
  {
    hide FindConflict, Contiguous;
  }

  lemma RefreshedShape(n: Node, ents: seq<Entry>)
    ensures var r := RefreshIfNeeded(n, ents); r == n.(conf := r.conf, confIndex := r.confIndex, progress := r.progress)
  {
    hide NeedsRefresh, Rescan;
  }

  lemma AcceptEntriesOnward(n: Node, m: Message)
    requires m.AppendReq? && n.role == Follower
    ensures Onward(n, AcceptEntries(n, m))
  {
    hide AppendConflicting, RefreshIfNeeded;
    WrittenShape(n, m.prevIndex, m.entries);
    var n1, lastNew := AppendConflicting(n, m.prevIndex, m.entries), m.prevIndex + |m.entries|;
    RefreshedShape(CommitTo(n1, if m.commit < lastNew then m.commit else lastNew), m.entries);
  }

  lemma VotesOnward(n: Node, m: Message)
    requires Sized(n)
    ensures m.VoteReq? ==> Onward(n, HandleVoteRequest(n, m))
    ensures m.VoteResp? ==> Onward(n, HandleVoteResponse(n, m))
  {
    hide TallyVotes, CanVote, UpToDate;
    if m.VoteResp? && !((m.preVote && n.role != PreCandidate) || (!m.preVote && n.role != Candidate)) {
      TallyVotesOnward(RecordVote(n, m.from, m.granted));
    }
  }

  lemma DispatchOnward(n: Node, m: Message)
    requires Sized(n) && (m.AppendReq? ==> n.term == m.term)
    ensures !m.SnapReq? ==> Onward(n, Dispatch(n, m))
  {
    hide HandleVoteRequest, HandleVoteResponse, HandleAppendRequest, HandleAppendResponse, HandleSnapshotRequest;
    hide HandleSnapshotResponse, Onward;
    VotesOnward(n, m);
    if m.AppendReq? { AppendRequestOnward(n, m); }
    if m.AppendResp? { AppendResponseOnward(n, m); }
    if m.SnapResp? { SnapshotResponseOnward(n, m); }
  }

  /** No message but a snapshot touches what the state machine has consumed, and none takes anything back. */
  lemma StepOnward(n: Node, m: Message)
    requires Sized(n)
    ensures !m.SnapReq? ==> Onward(n, Step(n, m))
  {
    hide Sized, Dispatch, StepHigherTerm, StepLowerTerm, Onward;
    HigherOnward(n, m);
    if m.term >= n.term && !m.SnapReq? {
      var n1 := if m.term > n.term then StepHigherTerm(n, m) else n;
      DispatchOnward(n1, m);
      OnwardTransitive(n, n1, Dispatch(n1, m));
    }
  }

  lemma HigherOnward(n: Node, m: Message)
    requires Sized(n)
    ensures Onward(n, n) && Onward(n, StepLowerTerm(n, m))
    ensures m.term > n.term ==>
              && Sized(StepHigherTerm(n, m)) && Onward(n, StepHigherTerm(n, m))
              && (m.AppendReq? ==> StepHigherTerm(n, m).term == m.term)
  {
    hide BecomeFollower, Persist, ReadIds;
    NoReads();
    var lead := if m.AppendReq? || m.SnapReq? then m.from else NONE;
    FollowerShape(n, m.term, lead);
    PersistKeeps(BecomeFollower(n, m.term, lead));
  }

  lemma TickOnward(n: Node)
    requires Sized(n)
    ensures Onward(n, Tick(n))
  {
    hide Campaign, SendAll, RetryReads, ReadIds;
    CampaignOnward(n.(electionElapsed := 0), n.cfg.preVote);
  }

  lemma ProposeConfChangeOnward(n: Node, target: Configuration)
    requires Sized(n)
    ensures Onward(n, ProposeConfChange(n, target))
  {
    hide Propose, CommittedInCurrentTerm;
    if ConfChangeError(n, target).None? { ProposeOnward(n, ConfEntry(EnterJoint(n.conf, target).change)); }
  }

  lemma ReadIndexForward(n: Node, id: nat)
    ensures var r := ReadIndex(n, id);
            && Forward(n, r) && r.term == n.term
            && ReadIds(r.pendingReads, r.readStates) <= ReadIds(n.pendingReads, n.readStates) + {id}
  {
    hide Quorum, SendAll;
    assert forall i :: 0 <= i < |n.pendingReads| ==> n.pendingReads[i].id in ReadIds(n.pendingReads, n.readStates);
    assert forall i :: 0 <= i < |n.readStates| ==> n.readStates[i].id in ReadIds(n.pendingReads, n.readStates);
  }

  // ---------------------------------------------------------------------------
  // No leader comes out of one message leading another term
  // ---------------------------------------------------------------------------

  lemma FollowerStays(n: Node, m: Message)
    requires Sized(n) && n.role == Follower
    ensures Dispatch(n, m).role == Follower
  {
    hide FindConflict, Contiguous, NeedsRefresh, Rescan, ConflictHint, MatchTerm, CanVote, UpToDate, CoversSnapshot;
    hide AcceptEntries;
    if m.AppendReq? { AcceptEntriesRole(FollowLeader(n, m), m); }
  }

  lemma AcceptEntriesRole(n: Node, m: Message)
    requires m.AppendReq?
    ensures AcceptEntries(n, m).role == n.role
  {
    hide AppendConflicting, RefreshIfNeeded;
    WrittenShape(n, m.prevIndex, m.entries);
    var n1, lastNew := AppendConflicting(n, m.prevIndex, m.entries), m.prevIndex + |m.entries|;
    RefreshedShape(CommitTo(n1, if m.commit < lastNew then m.commit else lastNew), m.entries);
  }

  lemma StepLead(n: Node, m: Message)
    requires Sized(n) && n.role == Leader && Step(n, m).role == Leader
    ensures Step(n, m).term == n.term
  {
    hide Dispatch, Onward, Sized;
    HigherOnward(n, m);
    if m.term > n.term {
      var n1 := StepHigherTerm(n, m);
      if n1.role == Follower {
        if !n1.fault { FollowerStays(n1, m); }
      } else {
        StraightThrough(n, m);
      }
    } else if m.term == n.term {
      StraightThrough(n, m);
    }
  }

  lemma {:induction false} ProposeTerm(n: Node, p: Payload)
    requires Sized(n)
    ensures Propose(n, p).term == n.term && n.log <= Propose(n, p).log
    ensures n.role == Leader && n.committed <= |n.log| ==> n.log + [Entry(|n.log| + 1, n.term, p)] <= Propose(n, p).log
    decreases JointRank(AppendOwn(n, p)) + 1
  {
    hide MaybeAdvanceCommit, SendAll, AppendOwn;
    OwnLog(n, p);
    if n.role == Leader && |n.log| + 1 > n.committed { MaybeAdvanceCommitTerm(AppendOwn(n, p)); }
  }

  lemma OwnLog(n: Node, p: Payload)
    ensures AppendOwn(n, p).term == n.term && AppendOwn(n, p).log == n.log + [Entry(|n.log| + 1, n.term, p)]
    ensures Sized(n) ==> Sized(AppendOwn(n, p))
  {
    hide Rescan, Members;
  }

  lemma {:induction false} MaybeAdvanceCommitTerm(n: Node)
    requires Sized(n)
    ensures MaybeAdvanceCommit(n).term == n.term && n.log <= MaybeAdvanceCommit(n).log
    decreases JointRank(n)
  {
    hide MaybeLeaveJoint, CommittedIndex, Matched;
    var n1 := Persist(CommitTo(n, CommittedIndex(n.conf, Matched(n))));
    if n.role == Leader && !n1.fault { MaybeLeaveJointTerm(n1); }
  }

  lemma {:induction false} MaybeLeaveJointTerm(n: Node)
    requires Sized(n)
    ensures MaybeLeaveJoint(n).term == n.term && n.log <= MaybeLeaveJoint(n).log
    decreases JointRank(n), 0
  {
    hide Propose;
    if n.role == Leader && n.conf.IsJoint() && n.confIndex <= n.committed && LeaveJoint(n.conf).Changed? {
      LeavingIsNotJoint(n);
      ProposeTerm(n, ConfEntry(LeaveJoint(n.conf).change));
    }
  }

  lemma RecordMatchTerm(n: Node, from: NodeID, i: Index)
    requires Sized(n) && from in n.progress
    ensures RecordMatch(n, from, i).term == n.term
  {
    hide MaybeAdvanceCommit, SendAll, SendAppend;
    MaybeAdvanceCommitTerm(WithMatch(n, from, i));
  }

  lemma ResponseTerm(n: Node, m: Message)
    requires Sized(n)
    ensures m.AppendResp? ==> HandleAppendResponse(n, m).term == n.term
    ensures m.SnapResp? ==> HandleSnapshotResponse(n, m).term == n.term
  {
    hide RecordMatch, SendAppend, BackUp, Quorum;
    if m.AppendResp? && n.role == Leader && m.from in n.progress && m.success {
      RecordMatchTerm(if m.readId != 0 then AckRead(n, m.from, m.readId) else n, m.from, m.matchIndex);
    }
    if m.SnapResp? && n.role == Leader && m.from in n.progress && m.success {
      RecordMatchTerm(n.(progress := n.progress[m.from := n.progress[m.from].(pendingSnapshot := 0,
        snapshotTicks := 0)]), m.from, m.matchIndex);
    }
  }

  lemma StraightThrough(n: Node, m: Message)
    requires Sized(n) && n.role == Leader
    ensures Dispatch(n, m).role == Leader ==> Dispatch(n, m).term == n.term && !m.SnapReq?
  {
    hide HandleAppendResponse, HandleSnapshotResponse, HandleSnapshotRequest, AcceptEntries, CanVote, UpToDate;
    hide ConflictHint, MatchTerm;
    ResponseTerm(n, m);
    if m.AppendReq? { AcceptEntriesRole(FollowLeader(n, m), m); }
    if m.SnapReq? { SnapshotRole(n, m); }
  }

  lemma SnapshotRole(n: Node, m: Message)
    requires m.SnapReq?
    ensures HandleSnapshotRequest(n, m).role == Follower
  {
    hide SaveSnapshot, SetConfiguration, Persist, BecomeFollower;
    FollowerShape(n.(electionElapsed := 0), m.term, m.from);
    var n1 := FollowLeader(n, m);
    SavedKeeps(n1, m.snap);
    var n2 := SaveSnapshot(n1, m.snap).(committed := m.snap.lastIndex, applied := m.snap.lastIndex);
    SetKeeps(n2, m.snap.config, m.snap.lastIndex);
    var n3 := if m.snap.config.IsEmpty() then n2 else SetConfiguration(n2, m.snap.config, m.snap.lastIndex);
    PersistKeeps(n3.(toRestore := Some(m.snap)));
  }

  /** While a node leads, messages change neither its term nor anything it has logged. */
  lemma StepLeadsOn(n: Node, m: Message)
    requires Sized(n) && n.role == Leader && Step(n, m).role == Leader
    ensures Step(n, m).term == n.term && n.log <= Step(n, m).log
  {
    hide Dispatch, StepHigherTerm, StepLowerTerm, Sized;
    StepLead(n, m);
    StepOnward(n, m);
    if m.SnapReq? {
      HigherOnward(n, m);
      if m.term == n.term && (m.to == n.id || m.to == NONE) { StraightThrough(n, m); }
      if m.term > n.term { SnapshotAbove(n, m); }
      LowerLog(n, m);
    }
  }

  lemma LowerLog(n: Node, m: Message)
    ensures StepLowerTerm(n, m).log == n.log
  {}

  lemma SnapshotAbove(n: Node, m: Message)
    requires Sized(n) && m.SnapReq? && m.term > n.term
    ensures StepHigherTerm(n, m).role == Follower && Sized(StepHigherTerm(n, m))
            && Dispatch(StepHigherTerm(n, m), m).role == Follower
  {
    hide HandleSnapshotRequest;
    SnapshotRole(StepHigherTerm(n, m), m);
  }

  lemma TickLeadsOn(n: Node)
    requires n.role == Leader
    ensures TickHeartbeat(n).role == Leader && TickHeartbeat(n).term == n.term && TickHeartbeat(n).log == n.log
  {
    hide SendAll, RetryReads;
  }
}
