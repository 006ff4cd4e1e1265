/** A node at rest has nothing left to do. Between steps no leader could commit more than it has, complete a change of
membership that is ready to be completed, or leads on though it has been removed; it keeps track of exactly the members;
no candidate's election is decided; and every node's election timeout is the last one it drew (raft/replication.go,
raft/confchange.go, raft/election.go, raft/raft.go). */
module Resting {
  import opened Configurations
  import opened RaftTypes
  import opened RaftNode
  import opened History
  import opened Invariant
  import opened StepSending
  import opened StepSnapshot
  import opened StepCommit
  import opened Crashing
  import opened Steady
  import opened Clusters
  import opened Runs
  import opened Tenure

  // ---------------------------------------------------------------------------
  // What rest means
  // ---------------------------------------------------------------------------

  /** The peers known to hold the log up to `i`. */
  function Holders(n: Node, i: Index): set<NodeID> { set v | v in n.progress && n.progress[v].matched >= i }

  /** Everything of the leader's own term that a quorum holds is committed. */
  ghost predicate AllCommitted(n: Node) {
    forall i :: n.committed < i <= |n.log| && n.log[i - 1].term == n.term ==> !Quorum(n.conf, Holders(n, i))
  }

  /** The leader keeps track of the members and of itself. */
  ghost predicate TracksMembers(n: Node) { n.progress.Keys == (set v | v in Members(n.conf)) + {n.id} }

  /** A leader that is no voter of a committed configuration has stepped down. */
  predicate NotRemoved(n: Node) { !n.conf.IsJoint() && !n.conf.IsVoter(n.id) ==> n.confIndex > n.committed }

  predicate CommitsItsTerm(n: Node) { 0 < n.committed <= |n.log| && n.log[n.committed - 1].term == n.term }

  /** A leader that commits entries of its term has completed every transition whose first half is committed. */
  predicate NotHalfway(n: Node) { CommitsItsTerm(n) && n.conf.IsJoint() ==> n.confIndex > n.committed }

  /** The election timeout is the base and the last draw of the random source. */
  predicate Drawn(n: Node) { n.draws > 0 && n.timeout == n.cfg.electionTick + n.cfg.jitter(n.draws - 1) }

  predicate Undecided(n: Node) { !Quorum(n.conf, Granted(n)) && !Impossible(n.conf, Rejected(n)) }

  ghost predicate Rested(n: Node) {
    && Drawn(n)
    && (n.role == Leader ==> TracksMembers(n) && AllCommitted(n) && NotRemoved(n) && NotHalfway(n))
    && (n.role == Candidate || n.role == PreCandidate ==> Undecided(n))
  }

  /** Alike in all that rest depends on. */
  ghost predicate Alike(n: Node, r: Node) {
    && r.role == n.role && r.id == n.id && r.cfg == n.cfg && r.conf == n.conf && r.confIndex == n.confIndex
    && r.log == n.log && r.term == n.term && r.committed == n.committed && r.votes == n.votes
    && r.timeout == n.timeout && r.draws == n.draws
    && r.progress.Keys == n.progress.Keys
    && (forall v :: v in n.progress ==> r.progress[v].matched == n.progress[v].matched)
  }

  lemma AlikeRests(n: Node, r: Node)
    requires Rested(n) && Alike(n, r)
    ensures Rested(r)
  {
    hide Quorum, Impossible, Members;
    if n.role == Leader {
      forall i ensures Holders(r, i) == Holders(n, i) {}
    }
    assert Granted(r) == Granted(n) && Rejected(r) == Rejected(n);
  }

  lemma AlikeThen(n: Node, q: Node, r: Node)
    requires Alike(n, q) && Alike(q, r)
    ensures Alike(n, r)
  {}

  lemma {:induction false} SendAllAlike(n: Node, peers: seq<NodeID>, readId: nat)
    ensures Alike(n, SendAll(n, peers, readId))
    decreases |peers|
  {
    if peers != [] {
      hide SendAppend, Alike;
      SendAppendAlike(n, peers[0], readId);
      SendAllAlike(SendAppend(n, peers[0], readId), peers[1..], readId);
      AlikeThen(n, SendAppend(n, peers[0], readId), SendAll(n, peers, readId));
    } else {
      assert Alike(n, n);
    }
  }

  lemma SendAppendAlike(n: Node, to: NodeID, readId: nat)
    ensures Alike(n, SendAppend(n, to, readId))
  {
    hide TermOf, BatchEnd;
  }

  lemma {:induction false} RetryAlike(n: Node, waiting: seq<ReadRequest>)
    ensures Alike(n, RetryReads(n, waiting))
    decreases |waiting|
  {
    if waiting != [] {
      hide SendAll, Alike, Peers;
      SendAllAlike(n, Peers(n.conf, n.id), waiting[0].id);
      var q := SendAll(n, Peers(n.conf, n.id), waiting[0].id);
      RetryAlike(q, waiting[1..]);
      AlikeThen(n, q, RetryReads(q, waiting[1..]));
    } else {
      assert Alike(n, n);
    }
  }

  // ---------------------------------------------------------------------------
  // Committing
  // ---------------------------------------------------------------------------

  /** Terms never decrease along the log, and none is later than the node's. */
  ghost predicate Ordered(n: Node) {
    && n.floor <= n.committed <= |n.log|
    && forall i, j :: 0 <= i <= j < |n.log| ==> n.log[i].term <= n.log[j].term <= n.term
  }

  /** A leader that may have something to commit, and nothing else. */
  ghost predicate MayCommit(n: Node) {
    n.role == Leader && Ordered(n) && TracksMembers(n) && NotRemoved(n) && NotHalfway(n) && Drawn(n)
  }

  lemma HoldersReach(n: Node, i: Index)
    requires i >= 1 && Quorum(n.conf, Holders(n, i))
    ensures CommittedIndex(n.conf, Matched(n)) >= i
  {
    hide CommittedIndex;
    var c, g, h := n.conf, Holders(n, i), Reached(n.conf, Matched(n), i);
    forall v | v in c.voters + c.oldVoters && v in g ensures v in h {}
    CountOnVoters(c.voters, g, h);
    CountOnVoters(c.oldVoters, g, h);
    CommittedIndexIsQuorum(c, Matched(n), i);
  }

  lemma NothingMore(n: Node, top: Index)
    requires Ordered(n) && top == CommittedIndex(n.conf, Matched(n))
    requires top <= n.committed || (top <= |n.log| && n.log[top - 1].term != n.term)
    ensures AllCommitted(n)
  {
    hide CommittedIndex, Matched, Quorum, Holders;
    forall i | n.committed < i <= |n.log| && n.log[i - 1].term == n.term ensures !Quorum(n.conf, Holders(n, i)) {
      if Quorum(n.conf, Holders(n, i)) { HoldersReach(n, i); }
    }
  }

  /** The commit index moved as far as it can, nothing else settled yet. */
  lemma Moved(n: Node)
    requires MayCommit(n) && Sized(n)
    ensures var top := CommittedIndex(n.conf, Matched(n));
            var r := Persist(CommitTo(n, top));
            top > n.committed && !r.fault && TermOf(n, top) == Some(n.term) ==>
              && r == n.(committed := top, hard := r.hard) && top <= |n.log|
              && Ordered(r) && TracksMembers(r) && AllCommitted(r) && Drawn(r) && Sized(r)
  {
    hide CommittedIndex, Matched, Quorum, Members;
    var top := CommittedIndex(n.conf, Matched(n));
    var r := Persist(CommitTo(n, top));
    if top > n.committed && !r.fault && TermOf(n, top) == Some(n.term) {
      assert Matched(r) == Matched(n) by { SameMatches(n, r); }
      NothingMore(r, top);
    }
  }

  lemma SameMatches(n: Node, r: Node)
    requires r.progress == n.progress
    ensures Matched(r) == Matched(n)
  {}

  lemma {:induction false} AdvanceRests(n: Node)
    requires Sized(n) && MayCommit(n)
    ensures var r := MaybeAdvanceCommit(n); r.fault || (Rested(r) && (r.role == Leader || r.role == Follower))
    decreases JointRank(n)
  {
    hide MaybeLeaveJoint, CommittedIndex, Matched, Persist, CommitTo, AllCommitted, TracksMembers, Ordered, Drawn;
    var top := CommittedIndex(n.conf, Matched(n));
    InRange(n, top);
    if top <= n.committed || (TermOf(n, top).Some? && TermOf(n, top).value != n.term) {
      NothingMore(n, top);
    } else if TermOf(n, top).Some? {
      Moved(n);
      var q := Persist(CommitTo(n, top));
      if !q.fault {
        LeaveRests(q);
        StepDownRests(MaybeLeaveJoint(q));
      }
    }
  }

  lemma InRange(n: Node, top: Index)
    requires Ordered(n)
    ensures top > n.committed && TermOf(n, top).Some? ==>
              top <= |n.log| && TermOf(n, top).value == n.log[top - 1].term
  {}

  /** At rest, but perhaps removed. */
  ghost predicate Halfway(n: Node) {
    n.role == Leader && TracksMembers(n) && AllCommitted(n) && NotHalfway(n) && Drawn(n)
  }

  lemma StepDownRests(n: Node)
    requires n.fault || Halfway(n) || (Rested(n) && n.role == Follower)
    ensures var r := StepDownIfRemoved(n); n.fault || (Rested(r) && (r.role == Leader || r.role == Follower))
  {
    hide TracksMembers, AllCommitted, NotHalfway;
  }

  lemma {:induction false} LeaveRests(n: Node)
    requires Sized(n) && n.role == Leader && Ordered(n) && TracksMembers(n) && AllCommitted(n) && Drawn(n)
    ensures var r := MaybeLeaveJoint(n); r.fault || Halfway(r) || (Rested(r) && r.role == Follower)
    decreases JointRank(n), 0
  {
    hide Propose, AllCommitted, TracksMembers, Ordered, Drawn, AppendOwn;
    if n.conf.IsJoint() && n.confIndex <= n.committed && LeaveJoint(n.conf).Changed? {
      LeavingIsNotJoint(n);
      var p := ConfEntry(LeaveJoint(n.conf).change);
      OwnMayCommit(n, p);
      ProposeRests(n, p);
    }
  }

  /** An entry that changes the configuration, or an ordinary one of a leader at rest, leaves only committing to do. */
  lemma OwnMayCommit(n: Node, p: Payload)
    requires Sized(n) && n.role == Leader && Ordered(n) && TracksMembers(n) && Drawn(n)
    requires p.ConfEntry? || (NotRemoved(n) && NotHalfway(n))
    ensures Sized(AppendOwn(n, p)) && MayCommit(AppendOwn(n, p))
  {
    hide AppendOwn, Rescan, Ordered, TracksMembers;
    AppendOwnShape(n, p);
    OwnOrdered(n, p);
    OwnTracks(n, p);
    WithinLog(n);
    if p.ConfEntry? { OwnConf(n, p); }
  }

  lemma OwnTracks(n: Node, p: Payload)
    requires Sized(n) && n.role == Leader && TracksMembers(n)
    ensures TracksMembers(AppendOwn(n, p))
  {
    hide Rescan, Members;
    var q := n.(log := n.log + [Entry(|n.log| + 1, n.term, p)]);
    SetTracks(q, Rescan(q).0, Rescan(q).1);
    var r := if p.ConfEntry? then RefreshConfiguration(q) else q;
    assert AppendOwn(n, p).progress.Keys == r.progress.Keys && AppendOwn(n, p).conf == r.conf;
  }

  lemma SetTracks(n: Node, c: Configuration, at: Index)
    requires n.role == Leader && TracksMembers(n)
    ensures var r := SetConfiguration(n, c, at); TracksMembers(r) && r.id == n.id
  {
    hide Members;
  }

  lemma WithinLog(n: Node)
    requires Ordered(n)
    ensures n.floor <= n.committed <= |n.log|
  {}

  lemma OwnOrdered(n: Node, p: Payload)
    requires Sized(n) && Ordered(n)
    ensures Ordered(AppendOwn(n, p))
  {
    hide AppendOwn;
    AppendOwnShape(n, p);
    var r := AppendOwn(n, p);
    forall i, j | 0 <= i <= j < |r.log| ensures r.log[i].term <= r.log[j].term <= r.term {
      if j < |n.log| { assert r.log[i] == n.log[i] && r.log[j] == n.log[j]; }
      else if i < |n.log| { assert r.log[i] == n.log[i] && n.log[i].term <= n.log[i].term <= n.term; }
    }
  }

  lemma OwnConf(n: Node, p: Payload)
    requires Sized(n) && n.committed <= |n.log| && p.ConfEntry?
    ensures AppendOwn(n, p).confIndex == |n.log| + 1
  {
    hide Members;
    ConfOfAppend(n.cfg.boot, n.log, Entry(|n.log| + 1, n.term, p));
  }

  lemma {:induction false} ProposeRests(n: Node, p: Payload)
    requires Sized(n) && n.role == Leader && Sized(AppendOwn(n, p)) && MayCommit(AppendOwn(n, p))
    ensures var r := Propose(n, p); r.fault || (Rested(r) && (r.role == Leader || r.role == Follower))
    decreases JointRank(AppendOwn(n, p)) + 1
  {
    hide MaybeAdvanceCommit, AppendOwn, SendAll, Rested, MayCommit, Peers;
    AdvanceRests(AppendOwn(n, p));
    var q := MaybeAdvanceCommit(AppendOwn(n, p));
    if !q.fault {
      SendAllAlike(q, Peers(q.conf, q.id), 0);
      AlikeRests(q, BroadcastAppend(q));
    }
  }

  // ---------------------------------------------------------------------------
  // What leaders hear
  // ---------------------------------------------------------------------------

  lemma RestMayCommit(n: Node)
    requires Rested(n) && n.role == Leader && Ordered(n)
    ensures MayCommit(n)
  {}

  lemma MatchMayCommit(n: Node, from: NodeID, i: Index)
    requires MayCommit(n) && from in n.progress
    ensures MayCommit(WithMatch(n, from, i))
  {
    hide Members;
    var r := WithMatch(n, from, i);
    assert r.progress.Keys == n.progress.Keys;
  }

  lemma FeedRests(n: Node, from: NodeID, next: pos, advanced: bool)
    requires n.fault || Rested(n)
    ensures var r := Feed(n, from, next, advanced); r.fault || (Rested(r) && r.role == n.role)
  {
    hide Rested, SendAll, SendAppend, Peers;
    if !n.fault {
      SendAllAlike(n, Peers(n.conf, n.id), 0);
      SendAppendAlike(n, from, 0);
      AlikeRests(n, if advanced then BroadcastAppend(n) else if next <= |n.log| then SendAppend(n, from, 0) else n);
    }
  }

  lemma RecordMatchRests(n: Node, from: NodeID, i: Index)
    requires Sized(n) && from in n.progress && n.role == Leader && Rested(n) && Ordered(n)
    ensures var r := RecordMatch(n, from, i); r.fault || Rested(r)
  {
    hide MaybeAdvanceCommit, Feed, Rested, MayCommit, Ordered, WithMatch;
    if i > n.progress[from].matched {
      RestMayCommit(n);
      MatchMayCommit(n, from, i);
      MatchShape(n, from, i);
      var q := WithMatch(n, from, i);
      AdvanceRests(q);
      FeedRests(MaybeAdvanceCommit(q), from, i + 1, MaybeAdvanceCommit(q).committed > n.committed);
    } else {
      FeedRests(n, from, n.progress[from].next, false);
    }
  }

  lemma MatchShape(n: Node, from: NodeID, i: Index)
    requires from in n.progress && Sized(n)
    ensures Sized(WithMatch(n, from, i))
  {}

  lemma AlikeOrdered(n: Node, r: Node)
    requires Ordered(n) && r.log == n.log && r.term == n.term && r.committed == n.committed && r.floor == n.floor
    ensures Ordered(r)
  {}

  lemma AckAlike(n: Node, m: Message)
    ensures var r := Counted(n, m); Alike(n, r) && r.floor == n.floor && r.progress == n.progress
  {
    hide Counted;
    CountedShape(n, m);
  }

  lemma AppendResponseRests(n: Node, m: Message)
    requires Sized(n) && m.AppendResp? && n.role == Leader && Rested(n) && Ordered(n)
    ensures var r := HandleAppendResponse(n, m); r.fault || Rested(r)
  {
    hide RecordMatch, Rested, SendAppend, BackUp, AckRead, Ordered;
    AckAlike(n, m);
    var q := Counted(n, m);
    AlikeRests(n, q);
    AlikeOrdered(n, q);
    if m.from in n.progress {
      if m.success {
        RecordMatchRests(q, m.from, m.matchIndex);
      } else {
        var pr := q.progress[m.from];
        var b := q.(progress := q.progress[m.from := pr.(next := BackUp(q, pr, m))]);
        assert b.progress.Keys == q.progress.Keys;
        SendAppendAlike(b, m.from, 0);
        AlikeThen(q, b, SendAppend(b, m.from, 0));
        AlikeRests(q, SendAppend(b, m.from, 0));
      }
    }
  }

  lemma SnapshotResponseRests(n: Node, m: Message)
    requires Sized(n) && m.SnapResp? && n.role == Leader && Rested(n) && Ordered(n)
    ensures var r := HandleSnapshotResponse(n, m); r.fault || Rested(r)
  {
    hide RecordMatch, Rested, Ordered;
    if m.from in n.progress {
      var q := n.(progress := n.progress[m.from := n.progress[m.from].(pendingSnapshot := 0, snapshotTicks := 0)]);
      assert q.progress.Keys == n.progress.Keys;
      AlikeRests(n, q);
      AlikeOrdered(n, q);
      if m.success { RecordMatchRests(q, m.from, m.matchIndex); }
    }
  }

  // ---------------------------------------------------------------------------
  // Elections
  // ---------------------------------------------------------------------------

  /** A node about to lead or stand: its log is in order, and older than its term if it is a candidate. */
  ghost predicate MayStand(n: Node) {
    Sized(n) && Ordered(n) && n.conf.IsVoter(n.id) && (n.role == Candidate ==> Below(n.log, n.term))
  }

  lemma CrownedMayCommit(n: Node)
    requires MayStand(n) && n.role == Candidate
    ensures Sized(Crowned(n)) && MayCommit(Crowned(n))
  {
    hide Members;
    var r := Crowned(n);
    forall i, j | 0 <= i <= j < |r.log| ensures r.log[i].term <= r.log[j].term <= r.term {
      if j < |n.log| { assert r.log[i] == n.log[i] && r.log[j] == n.log[j]; }
      else if i < |n.log| { assert r.log[i] == n.log[i] && n.log[i].term <= n.log[i].term <= n.term; }
    }
    assert n.id in Members(n.conf);
    assert r.progress.Keys == (set v | v in Members(n.conf)) + {n.id};
  }

  lemma BecomeLeaderRests(n: Node)
    requires MayStand(n) && n.role == Candidate
    ensures var r := BecomeLeader(n); r.fault || Rested(r)
  {
    hide MaybeAdvanceCommit, SendAll, Crowned, Rested, MayCommit, Peers, Persist;
    CrownedMayCommit(n);
    AdvanceRests(Crowned(n));
    var q := MaybeAdvanceCommit(Crowned(n));
    if !q.fault {
      PersistKeeps(q);
      var p := Persist(q);
      if !p.fault {
        SendAllAlike(p, Peers(p.conf, p.id), 0);
        AlikeThen(q, p, BroadcastAppend(p));
        AlikeRests(q, BroadcastAppend(p));
      }
    }
  }

  lemma FollowerRests(n: Node, t: Term, lead: NodeID)
    ensures Rested(BecomeFollower(n, t, lead)) && BecomeFollower(n, t, lead).role == Follower
  {}

  lemma {:induction false} CampaignRests(n: Node, preVote: bool)
    requires MayStand(n) && n.role != Leader
    ensures var r := Campaign(n, preVote); r.fault || Rested(r)
    decreases if preVote then 3 else 1
  {
    hide Canvass, Stand, RecordVote, MayStand, Rested;
    IsStanding(n);
    var q := Stand(n, preVote);
    if !q.fault {
      StandMayStand(n, preVote);
      CanvassRests(RecordVote(q, q.id, true), preVote);
    }
  }

  lemma IsStanding(n: Node)
    requires MayStand(n)
    ensures n.conf.IsVoter(n.id) && Sized(n)
  {}

  lemma StandMayStand(n: Node, preVote: bool)
    requires MayStand(n) && n.role != Leader && !Stand(n, preVote).fault
    ensures var r := RecordVote(Stand(n, preVote), Stand(n, preVote).id, true);
            MayStand(r) && Drawn(r) && r.role == if preVote then PreCandidate else Candidate
  {}

  lemma {:induction false} CanvassRests(n: Node, preVote: bool)
    requires MayStand(n) && Drawn(n) && (n.role == PreCandidate || n.role == Candidate)
    ensures var r := Canvass(n, preVote); r.fault || Rested(r)
    decreases if n.role == PreCandidate then 2 else 0, 1
  {
    hide TallyVotes, SendVoteRequests, Quorum, Impossible, MayStand, Granted, Rejected, Peers;
    IsStanding(n);
    if Quorum(n.conf, Granted(n)) || Impossible(n.conf, Rejected(n)) {
      TallyRests(n);
    } else {
      AlikeRests(n, Canvass(n, preVote));
    }
  }

  lemma {:induction false} TallyRests(n: Node)
    requires MayStand(n) && Drawn(n) && (n.role == PreCandidate || n.role == Candidate)
    ensures var r := TallyVotes(n); r.fault || Rested(r)
    decreases if n.role == PreCandidate then 2 else 0, 0
  {
    hide Campaign, BecomeLeader, Quorum, Impossible, MayStand, Granted, Rejected, BecomeFollower;
    IsStanding(n);
    if Quorum(n.conf, Granted(n)) {
      if n.role == PreCandidate { CampaignRests(n, false); } else { BecomeLeaderRests(n); }
    } else if Impossible(n.conf, Rejected(n)) {
      FollowerRests(n, n.term, NONE);
    }
  }

  // ---------------------------------------------------------------------------
  // Any message
  // ---------------------------------------------------------------------------

  /** A node between steps. */
  ghost predicate Idle(n: Node) {
    Sized(n) && Rested(n) && Ordered(n) && (n.role == Candidate || n.role == PreCandidate ==> MayStand(n))
  }

  ghost predicate SameDraw(n: Node, r: Node) {
    r.role == n.role && r.timeout == n.timeout && r.draws == n.draws && r.cfg == n.cfg
  }

  lemma AcceptDraws(n: Node, m: Message)
    requires m.AppendReq?
    ensures SameDraw(n, AcceptEntries(n, m))
  {
    hide AppendConflicting, RefreshIfNeeded;
    WrittenShape(n, m.prevIndex, m.entries);
    var n1, lastNew := AppendConflicting(n, m.prevIndex, m.entries), m.prevIndex + |m.entries|;
    RefreshedShape(CommitTo(n1, if m.commit < lastNew then m.commit else lastNew), m.entries);
  }

  lemma InstallDraws(n: Node, m: Message)
    requires m.SnapReq?
    ensures SameDraw(FollowLeader(n, m), HandleSnapshotRequest(n, m))
  {
    hide SaveSnapshot, SetConfiguration, Persist, FollowLeader;
    var n1 := FollowLeader(n, m);
    SavedKeeps(n1, m.snap);
    var n2 := SaveSnapshot(n1, m.snap).(committed := m.snap.lastIndex, applied := m.snap.lastIndex);
    SetKeeps(n2, m.snap.config, m.snap.lastIndex);
    var n3 := if m.snap.config.IsEmpty() then n2 else SetConfiguration(n2, m.snap.config, m.snap.lastIndex);
    PersistKeeps(n3.(toRestore := Some(m.snap)));
  }

  lemma FollowingRests(n: Node, m: Message)
    requires Drawn(n)
    ensures var r := FollowLeader(n, m); Drawn(r) && r.role == Follower
  {}

  lemma LeaderMailRests(n: Node, m: Message)
    requires Drawn(n) && Sized(n) && (m.AppendReq? || m.SnapReq?)
    ensures Rested(Dispatch(n, m))
  {
    hide AcceptEntries, HandleSnapshotRequest, ConflictHint, MatchTerm, FollowLeader;
    FollowingRests(n, m);
    if m.AppendReq? { AcceptDraws(FollowLeader(n, m), m); } else { InstallDraws(n, m); }
  }

  lemma VotingAlike(n: Node, m: Message)
    requires m.VoteReq?
    ensures Alike(n, HandleVoteRequest(n, m)) || HandleVoteRequest(n, m).fault
  {
    hide CanVote, UpToDate;
  }

  lemma PollingRests(n: Node, m: Message)
    requires Idle(n) && m.VoteResp?
    ensures HandleVoteResponse(n, m).fault || Rested(HandleVoteResponse(n, m))
  {
    hide TallyVotes, Ordered;
    if (m.preVote && n.role == PreCandidate) || (!m.preVote && n.role == Candidate) {
      AlikeOrdered(n, RecordVote(n, m.from, m.granted));
      TallyRests(RecordVote(n, m.from, m.granted));
    }
  }

  lemma DispatchRests(n: Node, m: Message)
    requires Idle(n)
    ensures Dispatch(n, m).fault || Rested(Dispatch(n, m))
  {
    hide HandleVoteRequest, HandleVoteResponse, HandleAppendRequest, HandleAppendResponse, HandleSnapshotRequest;
    hide HandleSnapshotResponse, Ordered, TracksMembers, AllCommitted, Undecided;
    match m
    case VoteReq(_, _, _, _, _, _) =>
      VotingAlike(n, m);
      if !HandleVoteRequest(n, m).fault { AlikeRests(n, HandleVoteRequest(n, m)); }
    case VoteResp(_, _, _, _, _) => PollingRests(n, m);
    case AppendReq(_, _, _, _, _, _, _, _) => LeaderMailRests(n, m);
    case SnapReq(_, _, _, _) => LeaderMailRests(n, m);
    case AppendResp(_, _, _, _, _, _, _, _) =>
      if n.role == Leader { AppendResponseRests(n, m); } else { NotForOthers(n, m); }
    case SnapResp(_, _, _, _, _) =>
      if n.role == Leader { SnapshotResponseRests(n, m); } else { NotForOthers(n, m); }
  }

  lemma NotForOthers(n: Node, m: Message)
    requires Sized(n) && n.role != Leader
    ensures m.AppendResp? ==> HandleAppendResponse(n, m) == n
    ensures m.SnapResp? ==> HandleSnapshotResponse(n, m) == n
  {}

  lemma HigherIdle(n: Node, m: Message)
    requires Idle(n) && m.term > n.term
    ensures var r := StepHigherTerm(n, m); r.fault || Idle(r)
  {
    hide Ordered, TracksMembers, AllCommitted, Undecided, Persist, BecomeFollower;
    var lead := if m.AppendReq? || m.SnapReq? then m.from else NONE;
    FollowerShape(n, m.term, lead);
    FollowerRests(n, m.term, lead);
    var f := BecomeFollower(n, m.term, lead);
    PersistKeeps(f);
    RaisedOrder(n, Persist(f));
  }

  lemma RaisedOrder(n: Node, r: Node)
    requires Ordered(n) && r.log == n.log && r.committed == n.committed && r.floor == n.floor && r.term >= n.term
    ensures Ordered(r)
  {
    forall i, j | 0 <= i <= j < |r.log| ensures r.log[i].term <= r.log[j].term <= r.term {
      assert n.log[i].term <= n.log[j].term <= n.term;
    }
  }

  lemma LowerAlike(n: Node, m: Message)
    ensures Alike(n, StepLowerTerm(n, m)) && Alike(n, n)
  {}

  lemma StepRests(n: Node, m: Message)
    requires Idle(n)
    ensures Step(n, m).fault || Rested(Step(n, m))
  {
    hide Dispatch, StepHigherTerm, StepLowerTerm, Rested, Ordered, MayStand;
    LowerAlike(n, m);
    AlikeRests(n, StepLowerTerm(n, m));
    if m.term > n.term {
      HigherIdle(n, m);
      if !StepHigherTerm(n, m).fault { DispatchRests(StepHigherTerm(n, m), m); }
    } else if m.term == n.term {
      DispatchRests(n, m);
    }
  }

  // ---------------------------------------------------------------------------
  // Any step
  // ---------------------------------------------------------------------------

  lemma HeartbeatRests(n: Node)
    requires Rested(n) && n.role == Leader
    ensures Rested(TickHeartbeat(n))
  {
    hide Rested, SendAll, RetryReads, Peers, ExpireProgress;
    var s := n.(heartbeatElapsed := n.heartbeatElapsed + 1, electionElapsed := n.electionElapsed + 1);
    assert Alike(n, s);
    if s.heartbeatElapsed < n.cfg.heartbeatTick {
      AlikeRests(n, s);
    } else {
      var x := ExpirePendingSnapshots(s.(heartbeatElapsed := 0));
      ExpireAlike(s.(heartbeatElapsed := 0));
      SendAllAlike(x, Peers(x.conf, x.id), 0);
      var q := BroadcastAppend(x);
      RetryAlike(q, q.pendingReads);
      AlikeThen(n, x, q);
      AlikeThen(n, q, RetryReads(q, q.pendingReads));
      AlikeRests(n, RetryReads(q, q.pendingReads));
    }
  }

  lemma ExpireAlike(n: Node)
    ensures Alike(n, ExpirePendingSnapshots(n))
  {
    hide Members;
    assert ExpirePendingSnapshots(n).progress.Keys == n.progress.Keys;
  }

  lemma TickRests(n: Node)
    requires Idle(n)
    ensures Tick(n).fault || Rested(Tick(n))
  {
    hide Campaign, TickHeartbeat, TracksMembers, AllCommitted, Undecided, Ordered;
    if n.role == Leader {
      HeartbeatRests(n);
    } else {
      var s := n.(electionElapsed := n.electionElapsed + 1);
      AlikeRests(n, s);
      if n.conf.IsVoter(n.id) && s.electionElapsed >= s.timeout {
        AlikeOrdered(n, s.(electionElapsed := 0));
        CampaignRests(s.(electionElapsed := 0), n.cfg.preVote);
      }
    }
  }

  lemma ChangeRests(n: Node, p: Payload)
    requires Idle(n)
    ensures Propose(n, p).fault || Rested(Propose(n, p))
  {
    hide Propose, AppendOwn, TracksMembers, AllCommitted, Undecided, Ordered, MayCommit;
    if n.role == Leader {
      OwnMayCommit(n, p);
      ProposeRests(n, p);
    } else {
      NoLeaderProposes(n, p);
    }
  }

  lemma ReconfigureRests(n: Node, target: Configuration)
    requires Idle(n)
    ensures var r := ProposeConfChange(n, target); r.fault || Rested(r)
  {
    hide Propose, CommittedInCurrentTerm, Rested, Ordered, MayStand;
    if ConfChangeError(n, target).None? { ChangeRests(n, ConfEntry(EnterJoint(n.conf, target).change)); }
  }

  lemma NoLeaderProposes(n: Node, p: Payload)
    requires Sized(n) && n.role != Leader
    ensures Propose(n, p) == n
  {}

  lemma AskAlike(n: Node, id: nat)
    ensures Alike(n, ReadIndex(n, id))
  {
    hide SendAll, Quorum, Peers;
    var req := ReadRequest(id, n.committed, {n.id});
    SendAllAlike(n.(pendingReads := n.pendingReads + [req]), Peers(n.conf, n.id), id);
  }

  /** In order, and so idle if at rest. */
  lemma OrderIdle(h: Hist, n: Node)
    requires OK(h, n) && Rested(n)
    ensures Idle(n)
  {
    hide Rested, VotePart, AckPart, LeaderPart, Settled, ConfPart, ReadPart, MsgsPart, CandPart, GoodLog;
    hide Consistent;
    Unpack(h, n);
    forall i, j | 0 <= i <= j < |n.log| ensures n.log[i].term <= n.log[j].term <= n.term {
      TermsAscend(h, n.log, i, j);
    }
    if n.role == Candidate { StoodBelow(h, n); }
  }

  lemma StoodBelow(h: Hist, n: Node)
    requires OK(h, n) && n.role == Candidate
    ensures Below(n.log, n.term)
  {
    hide LogPart, VotePart, AckPart, Settled, ConfPart, ReadPart, MsgsPart, DiskPart;
    assert CandOK(h, Key(n.id, n.term));
  }

  lemma TurnRests(h: Hist, c: Cluster, id: NodeID, e: Event)
    requires ClusterOK(h, c) && Enabled(c, id, e) && Rested(c.members[id].node)
    ensures var r := After(c.members[id], e).node; r.fault || Rested(r)
  {
    hide OK, MsgOK, AppOK, SeqOK, Step, Tick, Campaign, Propose, ReadIndex, CreateSnapshot, Restart, Rested, MayStand;
    hide CleanInstall, CrashPoint, Sized, Consistent, Snapshots, EntriesToApply, Ordered, ProposeConfChange;
    var mem := c.members[id];
    var n := mem.node;
    assert MemberOK(h, id, mem);
    OrderIdle(h, n);
    match e {
      case Receives(m) => StepRests(n, m);
      case Ticks => TickRests(n);
      case Campaigns => StandRests(h, n);
      case Writes(bytes) => ChangeRests(n, Command(bytes));
      case Reads => AskAlike(n, mem.readSeq + 1); AlikeRests(n, ReadIndex(n, mem.readSeq + 1));
      case Reconfigures(target) => ReconfigureRests(n, target);
      case Compacts => Steady.CreatedShape(n, mem.app); AlikeRests(n, CreateSnapshot(n, mem.app));
      case Crashes(disk) => RestartRests(disk);
      case _ => AlikeRests(n, After(mem, e).node);
    }
  }

  lemma StandRests(h: Hist, n: Node)
    requires OK(h, n) && Idle(n) && n.role != Leader
    ensures Campaign(n, n.cfg.preVote).fault || Rested(Campaign(n, n.cfg.preVote))
  {
    hide Campaign, OK, Rested, Ordered;
    if n.conf.IsVoter(n.id) {
      if n.role == Candidate { StoodBelow(h, n); }
      CampaignRests(n, n.cfg.preVote);
    } else {
      NobodyStands(n, n.cfg.preVote);
    }
  }

  lemma NobodyStands(n: Node, preVote: bool)
    requires Sized(n) && !n.conf.IsVoter(n.id)
    ensures Campaign(n, preVote) == n
  {}

  lemma RestartRests(disk: Node)
    ensures Rested(Restart(disk))
  {
    hide RefreshConfiguration, Recovered;
    FollowerRests(RefreshConfiguration(Recovered(disk)), disk.hard.term, NONE);
  }

  /** In every run, every member is at rest at every moment. */
  lemma {:induction false} AlwaysAtRest(boot: Configuration, r: Run, i: nat, a: NodeID)
    requires IsRun(boot, r) && At(r, i, a)
    ensures Rested(NodeAt(r, i, a))
    decreases i
  {
    hide IsRun, Rested;
    RunLength(boot, r);
    if i == 0 {
      StartsAtRest(boot, r, a);
    } else {
      StillThere(boot, r, i, a);
      AlwaysAtRest(boot, r, i - 1, a);
      RestsOn(boot, r, i - 1, a);
    }
  }

  lemma StartsAtRest(boot: Configuration, r: Run, a: NodeID)
    requires IsRun(boot, r) && At(r, 0, a)
    ensures Rested(NodeAt(r, 0, a))
  {
    hide Restart, Rested;
    var cfg := NodeAt(r, 0, a).cfg;
    RestartRests(Node(a, cfg, HardState(0, NONE, 0), [], 0, NO_SNAPSHOT, 0, NONE, 0, 0, Follower, NONE,
                      cfg.boot, 0, map[], map[], 0, 0, 0, 0, [], [], None, [], false));
  }

  lemma RestsOn(boot: Configuration, r: Run, k: nat, a: NodeID)
    requires IsRun(boot, r) && At(r, k, a) && k < |r.who| && |r.who| == |r.what| && Rested(NodeAt(r, k, a))
    ensures At(r, k + 1, a) && Rested(NodeAt(r, k + 1, a))
  {
    hide Init, Enabled, After, ClusterOK, Rested;
    var hs := Explained(boot, r);
    assert StepAt(r, k);
    InOrder(boot, r, k + 1, a);
    if r.who[k] == a { TurnRests(hs[k], r.states[k], a, r.what[k]); }
  }
}
