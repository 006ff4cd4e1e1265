/** A leader's election timer. A leader counts ticks like anybody else and never starts the count again, so after an
election timeout in office it grants pre-votes, however healthy it is. */
module Tenure {
  import opened Configurations
  import opened RaftTypes
  import opened RaftNode
  import opened History
  import opened Invariant
  import opened StepSending
  import opened StepSnapshot
  import opened Crashing
  import opened Steady
  import opened Clusters
  import opened Runs
  import opened Extending

  // ---------------------------------------------------------------------------
  // A leader that goes on leading
  // ---------------------------------------------------------------------------

  /** If it still leads, it is as it was: same timer, same timeout, its own leader, its own vote. */
  predicate InOffice(n: Node, r: Node) {
    r.role == Leader ==>
      && n.role == Leader && r.electionElapsed == n.electionElapsed && r.timeout == n.timeout
      && r.lead == n.lead && r.vote == n.vote && r.id == n.id
  }

  /** And its reads are where they were. */
  predicate StillLeads(n: Node, r: Node) {
    InOffice(n, r) && (r.role == Leader ==> r.pendingReads == n.pendingReads && r.readStates == n.readStates)
  }

  /** A leader once it has counted what an answer says about a read, and before it looks at the rest of it. */
  function Counted(n: Node, m: Message): Node {
    if m.AppendResp? && n.role == Leader && m.from in n.progress && m.readId != 0 then AckRead(n, m.from, m.readId)
    else n
  }

  lemma {:induction false} ProposeTenure(n: Node, p: Payload)
    requires Sized(n)
    ensures StillLeads(n, Propose(n, p))
    decreases JointRank(AppendOwn(n, p)) + 1
  {
    hide MaybeAdvanceCommit, SendAll, AppendOwn;
    OwnLog(n, p);
    OwnTenure(n, p);
    if n.role == Leader && |n.log| + 1 > n.committed { MaybeAdvanceTenure(AppendOwn(n, p)); }
  }

  lemma OwnTenure(n: Node, p: Payload)
    ensures StillLeads(n, AppendOwn(n, p))
  {
    hide Rescan, Members;
  }

  lemma {:induction false} MaybeAdvanceTenure(n: Node)
    requires Sized(n)
    ensures StillLeads(n, MaybeAdvanceCommit(n))
    decreases JointRank(n)
  {
    hide MaybeLeaveJoint, CommittedIndex, Matched;
    var n1 := Persist(CommitTo(n, CommittedIndex(n.conf, Matched(n))));
    if n.role == Leader && !n1.fault { MaybeLeaveTenure(n1); }
  }

  lemma {:induction false} MaybeLeaveTenure(n: Node)
    requires Sized(n)
    ensures StillLeads(n, MaybeLeaveJoint(n))
    decreases JointRank(n), 0
  {
    hide Propose;
    if n.role == Leader && n.conf.IsJoint() && n.confIndex <= n.committed && LeaveJoint(n.conf).Changed? {
      LeavingIsNotJoint(n);
      ProposeTenure(n, ConfEntry(LeaveJoint(n.conf).change));
    }
  }

  lemma RecordMatchTenure(n: Node, from: NodeID, i: Index)
    requires Sized(n) && from in n.progress
    ensures StillLeads(n, RecordMatch(n, from, i))
  {
    hide MaybeAdvanceCommit, SendAll, SendAppend;
    MaybeAdvanceTenure(WithMatch(n, from, i));
  }

  lemma ResponseTenure(n: Node, m: Message)
    requires Sized(n)
    ensures m.AppendResp? ==> StillLeads(Counted(n, m), HandleAppendResponse(n, m))
    ensures m.SnapResp? ==> StillLeads(n, HandleSnapshotResponse(n, m))
  {
    hide RecordMatch, SendAppend, BackUp, AckRead;
    if m.AppendResp? && n.role == Leader && m.from in n.progress {
      AckReadIds(n, m.from, m.readId);
      var n1 := if m.readId != 0 then AckRead(n, m.from, m.readId) else n;
      if m.success { RecordMatchTenure(n1, m.from, m.matchIndex); }
    }
    if m.SnapResp? && n.role == Leader && m.from in n.progress && m.success {
      var pr := n.progress[m.from].(pendingSnapshot := 0, snapshotTicks := 0);
      RecordMatchTenure(n.(progress := n.progress[m.from := pr]), m.from, m.matchIndex);
    }
  }

  /** Nobody votes for itself by mail, and a leader that follows itself votes for nobody else. */
  lemma VoteRequestTenure(n: Node, m: Message)
    requires m.VoteReq? && n.role == Leader && n.lead == n.vote == n.id != NONE && m.from != n.id
    ensures StillLeads(n, HandleVoteRequest(n, m))
  {
    hide UpToDate;
  }

  lemma DispatchTenure(n: Node, m: Message)
    requires Sized(n) && n.role == Leader && n.lead == n.vote == n.id != NONE && m.from != n.id
    ensures StillLeads(Counted(n, m), Dispatch(n, m))
  {
    hide HandleVoteRequest, HandleAppendResponse, HandleSnapshotRequest, HandleSnapshotResponse, AcceptEntries;
    hide ConflictHint;
    hide MatchTerm;
    ResponseTenure(n, m);
    if m.VoteReq? { VoteRequestTenure(n, m); }
    if m.AppendReq? { AcceptEntriesRole(FollowLeader(n, m), m); }
    if m.SnapReq? { SnapshotRole(n, m); }
  }

  lemma StepTenure(n: Node, m: Message)
    requires Sized(n) && n.role == Leader && n.lead == n.vote == n.id != NONE && m.from != n.id && m.to == n.id
    ensures StillLeads(if m.term == n.term then Counted(n, m) else n, Step(n, m))
  {
    hide Dispatch, Onward, AckRead;
    HigherOnward(n, m);
    if m.term > n.term {
      var n1 := StepHigherTerm(n, m);
      if n1.role == Follower {
        if !n1.fault { FollowerStays(n1, m); }
      } else {
        DispatchTenure(n, m);
      }
    } else if m.term == n.term {
      DispatchTenure(n, m);
    }
  }

  lemma TickTenure(n: Node)
    requires Sized(n) && n.role == Leader
    ensures var r := Tick(n);
            && r.role == Leader && r.electionElapsed == n.electionElapsed + 1 && r.timeout == n.timeout
            && r.lead == n.lead && r.vote == n.vote && r.id == n.id
            && r.pendingReads == n.pendingReads && r.readStates == n.readStates
  {
    hide SendAll, RetryReads;
  }

  // ---------------------------------------------------------------------------
  // A node that comes to lead
  // ---------------------------------------------------------------------------

  predicate LeadsItself(n: Node) { n.role == Leader ==> n.lead == n.vote == n.id }

  lemma BecomeLeaderItself(n: Node)
    requires Sized(n) && n.role == Candidate && n.vote == n.id
    ensures LeadsItself(BecomeLeader(n))
  {
    hide MaybeAdvanceCommit, SendAll;
    MaybeAdvanceTenure(Crowned(n));
  }

  lemma {:induction false} CampaignItself(n: Node, preVote: bool)
    requires Sized(n) && n.role != Leader
    ensures LeadsItself(Campaign(n, preVote))
    decreases if preVote then 3 else 1
  {
    hide Canvass;
    if n.conf.IsVoter(n.id) {
      var n1 := Stand(n, preVote);
      if !n1.fault { CanvassItself(RecordVote(n1, n1.id, true), preVote); }
    }
  }

  lemma {:induction false} CanvassItself(n: Node, preVote: bool)
    requires Sized(n) && (n.role == PreCandidate || (n.role == Candidate && n.vote == n.id))
    ensures LeadsItself(Canvass(n, preVote))
    decreases if n.role == PreCandidate then 2 else 0, 1
  {
    hide TallyVotes, SendVoteRequests, Quorum, Impossible;
    if Quorum(n.conf, Granted(n)) || Impossible(n.conf, Rejected(n)) { TallyItself(n); }
  }

  lemma {:induction false} TallyItself(n: Node)
    requires Sized(n) && (n.role == PreCandidate || (n.role == Candidate && n.vote == n.id))
    ensures LeadsItself(TallyVotes(n))
    decreases if n.role == PreCandidate then 2 else 0, 0
  {
    hide Campaign, BecomeLeader, Quorum, Impossible;
    if Quorum(n.conf, Granted(n)) {
      if n.role == PreCandidate { CampaignItself(n, false); } else { BecomeLeaderItself(n); }
    }
  }

  lemma DispatchItself(n: Node, m: Message)
    requires Sized(n) && n.role != Leader && (n.role == Candidate ==> n.vote == n.id)
    ensures LeadsItself(Dispatch(n, m))
  {
    hide TallyVotes, AcceptEntries, ConflictHint, MatchTerm, CanVote, UpToDate, HandleSnapshotRequest;
    if m.VoteResp? && !((m.preVote && n.role != PreCandidate) || (!m.preVote && n.role != Candidate)) {
      TallyItself(RecordVote(n, m.from, m.granted));
    }
    if m.AppendReq? { AcceptEntriesRole(FollowLeader(n, m), m); }
    if m.SnapReq? { SnapshotRole(n, m); }
  }

  lemma HigherRole(n: Node, m: Message)
    requires Sized(n)
    ensures var r := StepHigherTerm(n, m); r == n || (Sized(r) && r.role == Follower)
    ensures StepLowerTerm(n, m).role == n.role
  {}

  lemma StepItself(n: Node, m: Message)
    requires Sized(n) && n.role != Leader && (n.role == Candidate ==> n.vote == n.id)
    ensures LeadsItself(Step(n, m))
  {
    hide Dispatch, StepHigherTerm, StepLowerTerm;
    HigherRole(n, m);
    if m.term >= n.term { DispatchItself(if m.term > n.term then StepHigherTerm(n, m) else n, m); }
  }

  lemma TickItself(n: Node)
    requires Sized(n) && n.role != Leader
    ensures LeadsItself(Tick(n))
  {
    hide Campaign;
    CampaignItself(n.(electionElapsed := 0), n.cfg.preVote);
  }

  // ---------------------------------------------------------------------------
  // One step of a cluster
  // ---------------------------------------------------------------------------

  /** Nobody stands or comes to lead in a term without having stood in it before. */
  predicate NoComeback(n: Node, r: Node) {
    r.term == n.term ==>
      && (r.role == Candidate ==> n.role == Candidate)
      && (r.role == Leader ==> n.role == Candidate || n.role == Leader)
  }

  lemma TurnRoles(h: Hist, c: Cluster, id: NodeID, e: Event)
    requires ClusterOK(h, c) && Enabled(c, id, e)
    ensures NoComeback(c.members[id].node, After(c.members[id], e).node)
  {
    hide OK, MsgOK, AppOK, SeqOK, Step, Tick, Campaign, Propose, ReadIndex, ProposeConfChange, CreateSnapshot, Restart;
    hide CleanInstall, CrashPoint, Sized, Consistent, Snapshots, EntriesToApply, Quieter;
    var mem := c.members[id];
    var n := mem.node;
    assert MemberOK(h, id, mem);
    OKFacts(h, n);
    match e {
      case Receives(m) =>
        StepOnward(n, m);
        if m.SnapReq? { InstallShape(n, m); }
      case Ticks => TickOnward(n);
      case Campaigns => CampaignOnward(n, n.cfg.preVote);
      case Writes(bytes) => ProposeOnward(n, Command(bytes));
      case Reads => ReadIndexForward(n, mem.readSeq + 1);
      case Reconfigures(target) => ProposeConfChangeOnward(n, target);
      case Compacts => Steady.CreatedShape(n, mem.app);
      case Crashes(disk) => RestartRole(disk);
      case _ =>
    }
  }

  lemma RestartRole(disk: Node)
    ensures Restart(disk).role == Follower
  {
    hide RefreshConfiguration, Recovered;
  }

  /** A leader's timer counts its ticks and nothing else. */
  lemma TurnTenure(h: Hist, c: Cluster, id: NodeID, e: Event)
    requires ClusterOK(h, c) && Enabled(c, id, e) && LeadsItself(c.members[id].node)
    ensures var n, r := c.members[id].node, After(c.members[id], e).node;
            && LeadsItself(r)
            && (n.role == Leader && r.role == Leader ==>
                  r.electionElapsed == n.electionElapsed + (if e.Ticks? then 1 else 0) && r.timeout == n.timeout)
  {
    hide OK, MsgOK, AppOK, SeqOK, Step, Tick, Campaign, Propose, ReadIndex, ProposeConfChange, CreateSnapshot, Restart;
    hide CleanInstall, CrashPoint, Sized, Consistent, Snapshots, EntriesToApply;
    var mem := c.members[id];
    var n := mem.node;
    assert MemberOK(h, id, mem);
    OwnVote(h, n);
    match e {
      case Receives(m) =>
        SentByAnother(h, m);
        if n.role == Leader { StepTenure(n, m); } else { StepItself(n, m); }
        CountedShape(n, m);
      case Ticks => if n.role == Leader { TickTenure(n); } else { TickItself(n); }
      case Campaigns => CampaignItself(n, n.cfg.preVote);
      case Writes(bytes) => ProposeTenure(n, Command(bytes));
      case Reads => ReadTenure(n, mem.readSeq + 1);
      case Reconfigures(target) => ChangeTenure(n, target);
      case Compacts => Steady.CreatedShape(n, mem.app);
      case Crashes(disk) => RestartRole(disk);
      case _ =>
    }
  }

  lemma CountedShape(n: Node, m: Message)
    ensures var r := Counted(n, m); r == n.(pendingReads := r.pendingReads, readStates := r.readStates)
  {
    hide AckRead;
    if m.AppendResp? { AckReadIds(n, m.from, m.readId); }
  }

  lemma OwnVote(h: Hist, n: Node)
    requires OK(h, n)
    ensures n.id != NONE && Sized(n) && (n.role == Candidate ==> n.vote == n.id)
  {}

  lemma SentByAnother(h: Hist, m: Message)
    requires MsgOK(h, m)
    ensures m.from != m.to
  {}

  lemma ReadTenure(n: Node, id: nat)
    ensures InOffice(n, ReadIndex(n, id))
  {
    hide Quorum, SendAll;
  }

  lemma ChangeTenure(n: Node, target: Configuration)
    requires Sized(n)
    ensures StillLeads(n, ProposeConfChange(n, target))
  {
    hide Propose, CommittedInCurrentTerm;
    if ConfChangeError(n, target).None? { ProposeTenure(n, ConfEntry(EnterJoint(n.conf, target).change)); }
  }

  // ---------------------------------------------------------------------------
  // Whole runs
  // ---------------------------------------------------------------------------

  lemma StepRoles(boot: Configuration, r: Run, k: nat, a: NodeID)
    requires IsRun(boot, r) && At(r, k, a) && k < |r.who| && |r.who| == |r.what| && LeadsItself(NodeAt(r, k, a))
    ensures At(r, k + 1, a) && NoComeback(NodeAt(r, k, a), NodeAt(r, k + 1, a)) && LeadsItself(NodeAt(r, k + 1, a))
    ensures var n, n' := NodeAt(r, k, a), NodeAt(r, k + 1, a);
            n.role == Leader && n'.role == Leader ==>
              && n'.electionElapsed == n.electionElapsed + (if r.who[k] == a && r.what[k].Ticks? then 1 else 0)
              && n'.timeout == n.timeout
  {
    hide Init, Enabled, After, ClusterOK;
    var hs := Explained(boot, r);
    assert StepAt(r, k);
    if r.who[k] == a {
      TurnRoles(hs[k], r.states[k], a, r.what[k]);
      TurnTenure(hs[k], r.states[k], a, r.what[k]);
    }
  }

  /** In every run, whoever leads follows itself and has voted for itself. */
  lemma {:induction false} AlwaysLeadsItself(boot: Configuration, r: Run, i: nat, a: NodeID)
    requires IsRun(boot, r) && At(r, i, a)
    ensures LeadsItself(NodeAt(r, i, a))
    decreases i
  {
    hide IsRun;
    RunLength(boot, r);
    if i == 0 {
      StartsFollowing(boot, r, a);
    } else {
      StillThere(boot, r, i, a);
      AlwaysLeadsItself(boot, r, i - 1, a);
      StepRoles(boot, r, i - 1, a);
    }
  }

  lemma StartsFollowing(boot: Configuration, r: Run, a: NodeID)
    requires IsRun(boot, r) && At(r, 0, a)
    ensures NodeAt(r, 0, a).role == Follower
  {
    hide Restart;
    var cfg := NodeAt(r, 0, a).cfg;
    RestartRole(Node(a, cfg, HardState(0, NONE, 0), [], 0, NO_SNAPSHOT, 0, NONE, 0, 0, Follower, NONE,
                     cfg.boot, 0, map[], map[], 0, 0, 0, 0, [], [], None, [], false));
  }

  lemma StillThere(boot: Configuration, r: Run, i: nat, a: NodeID)
    requires IsRun(boot, r) && At(r, i, a) && i > 0
    ensures At(r, i - 1, a)
  {
    hide Init, After;
    assert StepAt(r, i - 1);
  }

  /** A node that has led a term does not stand in it again. */
  lemma {:induction false} StandsOnce(boot: Configuration, r: Run, i: nat, j: nat, a: NodeID)
    requires IsRun(boot, r) && At(r, i, a) && i <= j < |r.states| && NodeAt(r, i, a).role == Leader
    ensures At(r, j, a) && (NodeAt(r, j, a).term == NodeAt(r, i, a).term ==> NodeAt(r, j, a).role != Candidate)
    decreases j
  {
    hide IsRun;
    RunLength(boot, r);
    if i < j {
      StandsOnce(boot, r, i, j - 1, a);
      NeverBack(boot, r, i, j - 1, a);
      NeverBack(boot, r, j - 1, j, a);
      AlwaysLeadsItself(boot, r, j - 1, a);
      StepRoles(boot, r, j - 1, a);
    }
  }

  function TicksOf(r: Run, a: NodeID, i: nat, j: nat): nat
    requires i <= j <= |r.who| && |r.who| == |r.what|
    decreases j
  {
    if i == j then 0 else TicksOf(r, a, i, j - 1) + if r.who[j - 1] == a && r.what[j - 1].Ticks? then 1 else 0
  }

  /** A node that leads the same term at two moments has led it all the while, and its election timer has counted every
      tick in between: nothing it hears from its followers sets it back. */
  lemma {:induction false} TimerCountsTicks(boot: Configuration, r: Run, i: nat, j: nat, a: NodeID)
    requires IsRun(boot, r) && |r.states| == |r.who| + 1 == |r.what| + 1 && At(r, i, a) && i <= j && At(r, j, a)
    requires NodeAt(r, i, a).role == Leader && NodeAt(r, j, a).role == Leader
             && NodeAt(r, i, a).term == NodeAt(r, j, a).term
    ensures NodeAt(r, j, a).electionElapsed == NodeAt(r, i, a).electionElapsed + TicksOf(r, a, i, j)
    ensures NodeAt(r, j, a).timeout == NodeAt(r, i, a).timeout
    decreases j
  {
    hide IsRun;
    if i < j {
      StandsOnce(boot, r, i, j - 1, a);
      NeverBack(boot, r, i, j - 1, a);
      NeverBack(boot, r, j - 1, j, a);
      AlwaysLeadsItself(boot, r, j - 1, a);
      StepRoles(boot, r, j - 1, a);
      TimerCountsTicks(boot, r, i, j - 1, a);
    }
  }

  /** So a leader grants a pre-vote for a later term, to anyone whose log is up to date, exactly from the moment its
      ticks in office have filled its election timeout; it answers and changes nothing about itself. */
  lemma LongLeaderGrantsPreVotes(boot: Configuration, r: Run, i: nat, j: nat, a: NodeID, m: Message)
    requires IsRun(boot, r) && |r.states| == |r.who| + 1 == |r.what| + 1 && At(r, i, a) && i <= j && At(r, j, a)
    requires NodeAt(r, i, a).role == Leader && NodeAt(r, j, a).role == Leader
             && NodeAt(r, i, a).term == NodeAt(r, j, a).term
    requires m.VoteReq? && m.preVote && m.to == a && m.term > NodeAt(r, j, a).term
    ensures var n, n' := NodeAt(r, i, a), NodeAt(r, j, a);
            var granted := n.electionElapsed + TicksOf(r, a, i, j) >= n.timeout
              && UpToDate(m.lastIndex, m.lastTerm, n'.log);
            && Sized(n')
            && Step(n', m) == Send(n', VoteResp(a, m.from, if granted then m.term else n'.term, true, granted))
  {
    hide IsRun, UpToDate;
    TimerCountsTicks(boot, r, i, j, a);
    AlwaysLeadsItself(boot, r, j, a);
    OwnName(boot, r, j, a);
  }

  lemma OwnName(boot: Configuration, r: Run, i: nat, a: NodeID)
    requires IsRun(boot, r) && At(r, i, a)
    ensures NodeAt(r, i, a).id == a != NONE && !NodeAt(r, i, a).fault && Sized(NodeAt(r, i, a))
  {
    hide IsRun, Later, OK, AppOK, ClusterOK;
    var h, g := Moments(boot, r, i, a, i, a);
    Unpack(h, NodeAt(r, i, a));
  }

  // ---------------------------------------------------------------------------
  // What that costs
  // ---------------------------------------------------------------------------

  lemma TwoOfThree(c: Configuration)
    requires c == Configuration([1, 2, 3], [], [])
    ensures Quorum(c, {1, 2}) && !Quorum(c, {2}) && Peers(c, 2) == [1, 3] && c.IsVoter(1) && c.IsVoter(2)
            && c.IsVoter(3)
    ensures !Impossible(c, {})
  {
    assert Count([1, 2, 3], {1, 2}) == 2 && Count([1, 2, 3], {2}) == 1 && Count([1, 2, 3], {}) == 0;
    SortedDetermined(Peers(c, 2), [1, 3]);
  }

  lemma AsksForVotes(n: Node, t: Term, preVote: bool)
    requires n.id == 2 && n.conf == Configuration([1, 2, 3], [], [])
    ensures VoteReq(2, 1, t, preVote, |n.log|, LastTerm(n.log)) in SendVoteRequests(n, [1, 3], t, preVote).msgs
  {
    TwoOfThree(n.conf);
    var n1 := Send(n, VoteReq(2, 1, t, preVote, |n.log|, LastTerm(n.log)));
    assert [1, 3][1..] == [3] && [3][1..] == [];
    assert SendVoteRequests(n, [1, 3], t, preVote) == SendVoteRequests(n1, [3], t, preVote);
    assert n1.msgs <= SendVoteRequests(n1, [3], t, preVote).msgs;
    assert n1.msgs[|n.msgs|] == VoteReq(2, 1, t, preVote, |n.log|, LastTerm(n.log));
  }

  lemma StandShape(n: Node, preVote: bool)
    requires n.role != Leader && !n.fault && n.hard.term <= n.term
    ensures var r := Stand(n, preVote);
            && r.id == n.id && r.conf == n.conf && r.log == n.log && r.floor == n.floor && !r.fault && r.votes == map[]
            && r.role == (if preVote then PreCandidate else Candidate)
            && r.term == (if preVote then n.term else n.term + 1) && r.hard.term <= r.term && r.committed == n.committed
  {}

  lemma CanvassAsks(n: Node, t: Term, preVote: bool)
    requires n.id == 2 && n.conf == Configuration([1, 2, 3], [], []) && Sized(n) && n.votes == map[2 := true]
    requires t == if preVote then n.term + 1 else n.term
    ensures Canvass(n, preVote) == SendVoteRequests(n, [1, 3], t, preVote)
  {
    hide Quorum, Impossible, TallyVotes, SendVoteRequests;
    TwoOfThree(n.conf);
    assert Granted(n) == {2} && Rejected(n) == {};
  }

  /** A node starts a campaign, or a straw poll for one, and asks. */
  lemma Asks(n: Node, preVote: bool)
    requires n.id == 2 && n.conf == Configuration([1, 2, 3], [], []) && Sized(n)
    requires n.role != Leader && !n.fault && n.hard.term <= n.term
    ensures var r, t := Campaign(n, preVote), n.term + 1;
            && r.role == (if preVote then PreCandidate else Candidate) && r.term == (if preVote then n.term else t)
            && r.votes == map[2 := true] && VoteReq(2, 1, t, preVote, |n.log|, LastTerm(n.log)) in r.msgs
            && r.id == 2 && r.conf == n.conf && r.log == n.log && r.floor == n.floor && !r.fault
              && r.hard.term <= r.term && r.committed == n.committed
  {
    hide Canvass, SendVoteRequests, Stand, Quorum, Impossible, Peers;
    TwoOfThree(n.conf);
    StandShape(n, preVote);
    var n2 := RecordVote(Stand(n, preVote), 2, true);
    assert n2.votes == map[2 := true];
    CanvassAsks(n2, n.term + 1, preVote);
    AsksForVotes(n2, n.term + 1, preVote);
  }

  /** Three voters, at any moment of a run: a leader that has been in office for an election timeout, and a follower of
      its term with the same log. If the follower polls, the leader's own pre-vote completes its quorum, the campaign
      that follows is real, and the first message of it ends the leader's term: the run can go on like that. */
  lemma LeaderIsDeposed(boot: Configuration, r: Run, i: nat) returns (s: Run)
    requires IsRun(boot, r) && |r.states| == |r.who| + 1 == |r.what| + 1 && i <= |r.who|
    requires At(r, i, 1) && At(r, |r.who|, 1) && At(r, |r.who|, 2)
    requires var n, now := NodeAt(r, i, 1), NodeAt(r, |r.who|, 1);
             && n.role == Leader && now.role == Leader && n.term == now.term
             && n.timeout <= n.electionElapsed + TicksOf(r, 1, i, |r.who|)
    requires var n, f := NodeAt(r, |r.who|, 1), NodeAt(r, |r.who|, 2);
             && n.conf == f.conf == Configuration([1, 2, 3], [], []) && f.cfg.preVote
             && f.role == Follower && f.term == n.term && f.log == n.log
    ensures IsRun(boot, s) && |s.states| == |s.who| + 1 && Continues(r, s) && At(s, |s.who|, 1)
    ensures NodeAt(s, |s.who|, 1).role == Follower && NodeAt(s, |s.who|, 1).term == NodeAt(r, |r.who|, 1).term + 1
  {
    hide IsRun;
    var j := |r.who|;
    TimerCountsTicks(boot, r, i, j, 1);
    AlwaysLeadsItself(boot, r, j, 1);
    InOrder(boot, r, j, 1);
    InOrder(boot, r, j, 2);
    s := PollsAndStands(boot, r);
  }

  lemma PollsAndStands(boot: Configuration, r: Run) returns (s: Run)
    requires IsRun(boot, r) && |r.states| == |r.who| + 1 && 1 in Last(r).members && 2 in Last(r).members
    requires var n, f := Last(r).members[1].node, Last(r).members[2].node;
             && n.id == n.lead == 1 && n.role == Leader && n.timeout <= n.electionElapsed && !n.fault && Sized(n)
             && n.hard.term == n.term && n.committed <= |n.log| && f.committed <= |f.log|
             && f.id == 2 && f.role == Follower && f.term == n.term && f.log == n.log && !f.fault && Sized(f)
             && f.hard.term == f.term && f.conf == Configuration([1, 2, 3], [], []) && f.cfg.preVote
    ensures IsRun(boot, s) && |s.states| == |s.who| + 1 && Continues(r, s) && 1 in Last(s).members
    ensures Last(s).members[1].node.role == Follower && Last(s).members[1].node.term == Last(r).members[1].node.term + 1
  {
    hide IsRun, Campaign, Step, UpToDate;
    var n, f := Last(r).members[1].node, Last(r).members[2].node;
    var t, last := n.term + 1, LastTerm(n.log);
    Asks(f, true);
    s := Acts(boot, r, 2, Campaigns, Campaign(f, true));
    var p := Campaign(f, true).(msgs := []);
    var poll, stand := VoteReq(2, 1, t, true, |n.log|, last), VoteReq(2, 1, t, false, |n.log|, last);
    PollGranted(n, poll);
    var yes := VoteResp(1, 2, t, true, true);
    s := Hears(boot, s, 1, poll, Send(n, yes));
    PollWon(p, yes);
    Asks(RecordVote(p, 1, true), false);
    s := Hears(boot, s, 2, yes, Step(p, yes));
    n := Send(n, yes).(msgs := []);
    Deposed(n, stand);
    s := Hears(boot, s, 1, stand, Step(n, stand));
  }

  lemma InOrder(boot: Configuration, r: Run, i: nat, a: NodeID)
    requires IsRun(boot, r) && At(r, i, a)
    ensures var n := NodeAt(r, i, a);
            n.id == a && !n.fault && n.hard.term == n.term && Sized(n) && n.committed <= |n.log|
  {
    hide IsRun;
    AlwaysInOrder(boot, r, i, a);
    OwnName(boot, r, i, a);
  }

  lemma PollGranted(n: Node, poll: Message)
    requires n.id == n.lead == 1 && n.timeout <= n.electionElapsed && Sized(n) && !n.fault
    requires poll == VoteReq(2, 1, n.term + 1, true, |n.log|, LastTerm(n.log))
    ensures Step(n, poll) == Send(n, VoteResp(1, 2, n.term + 1, true, true))
  {}

  lemma PollWon(p: Node, yes: Message)
    requires p.id == 2 && p.conf == Configuration([1, 2, 3], [], []) && p.role == PreCandidate
             && p.votes == map[2 := true]
    requires Sized(p) && !p.fault && yes == VoteResp(1, 2, p.term + 1, true, true)
    ensures Step(p, yes) == Campaign(RecordVote(p, 1, true), false)
  {
    hide TallyVotes, Campaign;
    PollCounted(p);
    assert StepHigherTerm(p, yes) == p;
    assert Step(p, yes) == HandleVoteResponse(p, yes);
  }

  lemma PollCounted(p: Node)
    requires p.conf == Configuration([1, 2, 3], [], []) && p.role == PreCandidate && p.votes == map[2 := true]
             && Sized(p)
    ensures TallyVotes(RecordVote(p, 1, true)) == Campaign(RecordVote(p, 1, true), false)
  {
    hide Quorum, Campaign, Impossible, BecomeLeader, BecomeFollower, Peers;
    TwoOfThree(p.conf);
    var q := RecordVote(p, 1, true);
    assert q.votes == map[2 := true, 1 := true];
    assert Granted(q) == {1, 2};
  }

  lemma Deposed(n: Node, m: Message)
    requires n.id == 1 && n.role == Leader && !n.fault && n.hard.term <= n.term && Sized(n)
    requires m.VoteReq? && !m.preVote && m.to == 1 && m.term == n.term + 1
    ensures var r := Step(n, m);
            r.role == Follower && r.term == m.term && r.log == n.log && r.floor == n.floor && r.committed == n.committed
  {
    hide UpToDate;
  }
}
