/** What keeps a healthy leader's followers from electing another: a member that has heard from its leader within its
election timeout refuses every straw poll (raft/election.go, raft/raft.go). */
module Protection {
  import opened Configurations
  import opened RaftTypes
  import opened RaftNode
  import opened History
  import opened Invariant
  import opened StepSending
  import opened StepSnapshot
  import opened Crashing
  import opened Steady
  import opened Clusters
  import opened Runs
  import opened Tenure
  import opened Timeouts

  // ---------------------------------------------------------------------------
  // Hearing from a leader
  // ---------------------------------------------------------------------------

  predicate FromALeader(m: Message) { m.AppendReq? || m.SnapReq? }

  /** Whom a node follows and how long it has waited. */
  predicate SameWait(n: Node, r: Node) {
    && r.role == n.role && r.term == n.term && r.lead == n.lead
    && r.electionElapsed == n.electionElapsed && r.timeout == n.timeout
  }

  lemma AcceptWaits(n: Node, m: Message)
    requires m.AppendReq?
    ensures SameWait(n, AcceptEntries(n, m))
  {
    hide AppendConflicting, RefreshIfNeeded;
    WrittenShape(n, m.prevIndex, m.entries);
    var n1, lastNew := AppendConflicting(n, m.prevIndex, m.entries), m.prevIndex + |m.entries|;
    RefreshedShape(CommitTo(n1, if m.commit < lastNew then m.commit else lastNew), m.entries);
  }

  lemma InstallWaits(n: Node, m: Message)
    requires m.SnapReq?
    ensures SameWait(FollowLeader(n, m), HandleSnapshotRequest(n, m))
  {
    hide SaveSnapshot, SetConfiguration, Persist, FollowLeader;
    var n1 := FollowLeader(n, m);
    SavedKeeps(n1, m.snap);
    var n2 := SaveSnapshot(n1, m.snap).(committed := m.snap.lastIndex, applied := m.snap.lastIndex);
    SetKeeps(n2, m.snap.config, m.snap.lastIndex);
    var n3 := if m.snap.config.IsEmpty() then n2 else SetConfiguration(n2, m.snap.config, m.snap.lastIndex);
    PersistKeeps(n3.(toRestore := Some(m.snap)));
  }

  /** Now following its sender, with the wait begun again. */
  predicate FollowsAnew(n: Node, m: Message, r: Node) {
    && r.role == Follower && r.term == m.term && r.lead == m.from && r.electionElapsed == 0
    && (n.role == Follower && n.term == m.term ==> r.timeout == n.timeout)
  }

  lemma DispatchFollows(n: Node, m: Message)
    requires Sized(n) && FromALeader(m) && m.term == n.term
    ensures FollowsAnew(n, m, Dispatch(n, m))
  {
    hide AcceptEntries, HandleSnapshotRequest, ConflictHint, MatchTerm;
    if m.AppendReq? { AcceptWaits(FollowLeader(n, m), m); } else { InstallWaits(n, m); }
  }

  lemma HearingFollows(n: Node, m: Message)
    requires Sized(n) && !n.fault && n.hard.term == n.term && FromALeader(m) && m.to == n.id && m.term >= n.term
    ensures FollowsAnew(n, m, Step(n, m))
  {
    hide Dispatch;
    if m.term > n.term {
      var n1 := StepHigherTerm(n, m);
      DispatchFollows(n1, m);
    } else {
      DispatchFollows(n, m);
    }
  }

  // ---------------------------------------------------------------------------
  // One message
  // ---------------------------------------------------------------------------

  /** Does this event bring word from the leader of the node's term? */
  predicate Heard(n: Node, e: Event) { e.Receives? && FromALeader(e.m) && e.m.term == n.term }

  /** Is this event a request for the node's vote in its own term? */
  predicate Courted(n: Node, e: Event) { e.Receives? && e.m.VoteReq? && !e.m.preVote && e.m.term == n.term }

  /** A follower that goes on following: it counts ticks, and begins again only when it hears from its leader or
      grants a vote. */
  predicate WaitsOn(n: Node, e: Event, r: Node) {
    && r.role == Follower && r.timeout == n.timeout
    && if Heard(n, e) then r.lead == e.m.from && r.electionElapsed == 0
       else
         && r.lead == n.lead
         && (|| r.electionElapsed == n.electionElapsed + (if e.Ticks? then 1 else 0)
             || (Courted(n, e) && r.electionElapsed == 0))
  }

  lemma FollowerDispatch(n: Node, m: Message)
    requires Sized(n) && n.role == Follower && (m.term == n.term || (m.VoteReq? && m.preVote) || m.VoteResp?)
    ensures WaitsOn(n, Receives(m), Dispatch(n, m))
  {
    hide HandleAppendRequest, HandleSnapshotRequest, CanVote, UpToDate;
    if FromALeader(m) { DispatchFollows(n, m); }
  }

  /** A message that brings a later term ends the old one, unless it belongs to a straw poll. */
  lemma LaterTerm(n: Node, m: Message)
    requires Sized(n) && !n.fault && n.hard.term == n.term && m.to == n.id && m.term > n.term
    requires !(m.VoteReq? && m.preVote) && !(m.VoteResp? && m.preVote && m.granted)
    ensures Step(n, m).term > n.term
  {
    hide Dispatch, Onward;
    if FromALeader(m) {
      HearingFollows(n, m);
    } else {
      var n1 := StepHigherTerm(n, m);
      assert !n1.fault && n1.term == m.term;
      DispatchOnward(n1, m);
      assert Onward(n1, Dispatch(n1, m));
      OnwardTerm(n1, Dispatch(n1, m));
    }
  }

  lemma OnwardTerm(n: Node, r: Node)
    requires Onward(n, r)
    ensures n.term <= r.term
  {}

  lemma FollowerStep(n: Node, m: Message)
    requires Sized(n) && !n.fault && n.hard.term == n.term && n.role == Follower && m.to == n.id
    requires Step(n, m).term == n.term
    ensures WaitsOn(n, Receives(m), Step(n, m))
  {
    hide Dispatch;
    if m.term > n.term {
      if !(m.VoteReq? && m.preVote) && !(m.VoteResp? && m.preVote && m.granted) { LaterTerm(n, m); }
      FollowerDispatch(n, m);
    } else if m.term == n.term {
      FollowerDispatch(n, m);
    }
  }

  /** No leader known, and neither standing nor leading. */
  predicate Leaderless(n: Node) { (n.role == Follower || n.role == PreCandidate) && n.lead == NONE }

  lemma RealCampaign(n: Node)
    requires Sized(n) && n.role == PreCandidate && !n.fault && n.hard.term == n.term
    ensures Campaign(n, false).term > n.term || Campaign(n, false) == n
  {
    hide Canvass, Stand, RecordVote, Onward;
    Stood(n, false);
    var r := RecordVote(Stand(n, false), Stand(n, false).id, true);
    if n.conf.IsVoter(n.id) {
      CanvassOnward(r, false);
      OnwardTerm(r, Canvass(r, false));
    }
  }

  lemma LeaderlessTally(n: Node)
    requires Sized(n) && n.role == PreCandidate && n.lead == NONE && !n.fault && n.hard.term == n.term
    ensures TallyVotes(n).term > n.term || Leaderless(TallyVotes(n))
  {
    hide Campaign, Quorum, Impossible, Granted, Rejected;
    RealCampaign(n);
  }

  lemma LeaderlessDispatch(n: Node, m: Message)
    requires Sized(n) && Leaderless(n) && !n.fault && n.hard.term == n.term && !FromALeader(m)
    ensures Dispatch(n, m).term > n.term || Leaderless(Dispatch(n, m))
  {
    hide TallyVotes, CanVote, UpToDate;
    if m.VoteResp? && n.role == PreCandidate { LeaderlessTally(RecordVote(n, m.from, m.granted)); }
  }

  lemma LeaderlessStep(n: Node, m: Message)
    requires Sized(n) && Leaderless(n) && !n.fault && n.hard.term == n.term && m.to == n.id
    requires Step(n, m).term == n.term && !Heard(n, Receives(m))
    ensures Leaderless(Step(n, m))
  {
    hide Dispatch;
    if m.term > n.term {
      if !(m.VoteReq? && m.preVote) && !(m.VoteResp? && m.preVote && m.granted) { LaterTerm(n, m); }
      LeaderlessDispatch(n, m);
    } else if m.term == n.term {
      LeaderlessDispatch(n, m);
    }
  }

  // ---------------------------------------------------------------------------
  // One step of a cluster
  // ---------------------------------------------------------------------------

  /** Standing forgets the leader, or ends the term. */
  lemma StandingForgets(n: Node, preVote: bool)
    requires Sized(n) && n.role != Leader && !n.fault && n.hard.term == n.term
    ensures var r := Campaign(n, preVote);
            r.fault || r == n || r.term > n.term || (r.role == PreCandidate && r.lead == NONE)
  {
    hide Campaign, Quorum;
    if n.conf.IsVoter(n.id) {
      if !Quorum(n.conf, {n.id}) {
        Polls(n, preVote);
      } else if preVote {
        PollsAndWins(n);
      } else {
        StandsAndWins(n);
      }
    } else {
      NoVoterStands(n, preVote);
    }
  }

  lemma NoVoterStands(n: Node, preVote: bool)
    requires Sized(n) && !n.conf.IsVoter(n.id)
    ensures Campaign(n, preVote) == n
  {}

  /** A follower goes on following, or stands because its wait ran out or it was told to. */
  lemma FollowerTurn(h: Hist, c: Cluster, id: NodeID, e: Event)
    requires ClusterOK(h, c) && Enabled(c, id, e) && c.members[id].node.role == Follower && !e.Crashes?
    requires var n, r := c.members[id].node, After(c.members[id], e).node; r.term == n.term && !r.fault
    ensures var n, r := c.members[id].node, After(c.members[id], e).node;
            || WaitsOn(n, e, r)
            || (r.role == PreCandidate && r.lead == NONE && (e.Campaigns? || (e.Ticks? && RunsOut(n))))
  {
    hide OK, MsgOK, AppOK, SeqOK, Step, Tick, Campaign, Propose, ReadIndex, ProposeConfChange, CreateSnapshot, Restart;
    hide CleanInstall, CrashPoint, Sized, Consistent, Snapshots, EntriesToApply, Quorum;
    var mem := c.members[id];
    var n := mem.node;
    assert MemberOK(h, id, mem);
    OnDisk(h, n);
    match e {
      case Receives(m) => FollowerStep(n, m);
      case Ticks => TickMeans(n);
      case Campaigns => StandingForgets(n, n.cfg.preVote);
      case Writes(bytes) => OnlyLeaders(n, Command(bytes), 0, n.conf);
      case Reads => OnlyLeaders(n, NoOp, mem.readSeq + 1, n.conf);
      case Reconfigures(target) => OnlyLeaders(n, NoOp, 0, target);
      case Compacts => Steady.CreatedShape(n, mem.app);
      case _ =>
    }
  }

  lemma OnDisk(h: Hist, n: Node)
    requires OK(h, n)
    ensures Sized(n) && !n.fault && n.hard.term == n.term
  {}

  lemma OnlyLeaders(n: Node, p: Payload, id: nat, target: Configuration)
    requires Sized(n) && n.role != Leader
    ensures Propose(n, p) == n && ReadIndex(n, id) == n && ProposeConfChange(n, target) == n
  {}

  /** Nobody comes to follow a leader without hearing from it. */
  lemma LeaderlessTurn(h: Hist, c: Cluster, id: NodeID, e: Event)
    requires ClusterOK(h, c) && Enabled(c, id, e) && Leaderless(c.members[id].node)
    requires var n, r := c.members[id].node, After(c.members[id], e).node;
             r.term == n.term && !r.fault && !Heard(n, e)
    ensures Leaderless(After(c.members[id], e).node)
  {
    hide OK, MsgOK, AppOK, SeqOK, Step, Tick, Campaign, Propose, ReadIndex, ProposeConfChange, CreateSnapshot, Restart;
    hide CleanInstall, CrashPoint, Sized, Consistent, Snapshots, EntriesToApply, Quorum;
    var mem := c.members[id];
    var n := mem.node;
    assert MemberOK(h, id, mem);
    OnDisk(h, n);
    match e {
      case Receives(m) => LeaderlessStep(n, m);
      case Ticks => TickMeans(n);
      case Campaigns => StandingForgets(n, n.cfg.preVote);
      case Writes(bytes) => OnlyLeaders(n, Command(bytes), 0, n.conf);
      case Reads => OnlyLeaders(n, NoOp, mem.readSeq + 1, n.conf);
      case Reconfigures(target) => OnlyLeaders(n, NoOp, 0, target);
      case Compacts => Steady.CreatedShape(n, mem.app);
      case Crashes(disk) => RestartForgets(disk);
      case _ =>
    }
  }

  lemma RestartForgets(disk: Node)
    ensures Leaderless(Restart(disk))
  {
    hide RefreshConfiguration, Recovered;
  }

  // ---------------------------------------------------------------------------
  // Whole runs
  // ---------------------------------------------------------------------------

  /** At step `i`, does the member accept word from a leader: a message of its term or a later one? */
  predicate AcceptsWord(r: Run, i: nat, a: NodeID) {
    && |r.states| == |r.who| + 1 == |r.what| + 1 && i < |r.who| && At(r, i, a)
    && r.who[i] == a && r.what[i].Receives? && FromALeader(r.what[i].m) && r.what[i].m.term >= NodeAt(r, i, a).term
  }

  lemma WordIsHeeded(boot: Configuration, r: Run, i: nat, a: NodeID)
    requires IsRun(boot, r) && AcceptsWord(r, i, a)
    ensures At(r, i + 1, a) && FollowsAnew(NodeAt(r, i, a), r.what[i].m, NodeAt(r, i + 1, a))
    ensures r.what[i].m.from != NONE
  {
    hide Init, Step, FollowsAnew, MsgOK, ClusterOK;
    InOrder(boot, r, i, a);
    assert StepAt(r, i);
    var hs := Explained(boot, r);
    Senders(hs[i], r.states[i], r.what[i].m);
    HearingFollows(NodeAt(r, i, a), r.what[i].m);
  }

  lemma Senders(h: Hist, c: Cluster, m: Message)
    requires ClusterOK(h, c) && m in c.net
    ensures m.from != NONE
  {
    assert MsgOK(h, m);
  }

  /** Between two moments, the member neither crashes nor is told to stand. */
  ghost predicate LeftAlone(r: Run, i: nat, j: nat, a: NodeID) {
    forall k :: i <= k < j && k < |r.who| && k < |r.what| && r.who[k] == a ==>
                  !r.what[k].Crashes? && !r.what[k].Campaigns?
  }

  /** Between two moments, the member hears neither from a leader of the term nor from anyone who wants its vote
      in it. */
  ghost predicate HearsNothing(r: Run, i: nat, j: nat, a: NodeID, t: Term) {
    forall k :: i <= k < j && k < |r.who| && k < |r.what| && r.who[k] == a && r.what[k].Receives? ==>
                  !(r.what[k].m.term == t
                    && (FromALeader(r.what[k].m) || (r.what[k].m.VoteReq? && !r.what[k].m.preVote)))
  }

  lemma FollowerMoment(boot: Configuration, r: Run, k: nat, a: NodeID)
    requires IsRun(boot, r) && |r.states| == |r.who| + 1 == |r.what| + 1 && k < |r.who| && At(r, k, a)
    requires NodeAt(r, k, a).role == Follower
    ensures At(r, k + 1, a)
    ensures var n, n' := NodeAt(r, k, a), NodeAt(r, k + 1, a);
            if r.who[k] != a then n' == n
            else
              n'.term == n.term && !r.what[k].Crashes? ==>
                || (WaitsOn(n, r.what[k], n') && (Heard(n, r.what[k]) ==> n'.lead != NONE))
                || (n'.role == PreCandidate && n'.lead == NONE
                    && (r.what[k].Campaigns? || (r.what[k].Ticks? && RunsOut(n))))
  {
    hide Init, Enabled, After, ClusterOK, WaitsOn;
    var hs := Explained(boot, r);
    assert StepAt(r, k);
    InOrder(boot, r, k + 1, a);
    if r.who[k] == a && NodeAt(r, k + 1, a).term == NodeAt(r, k, a).term && !r.what[k].Crashes? {
      FollowerTurn(hs[k], r.states[k], a, r.what[k]);
      if Heard(NodeAt(r, k, a), r.what[k]) { WordIsHeeded(boot, r, k, a); }
    }
  }

  lemma LeaderlessMoment(boot: Configuration, r: Run, k: nat, a: NodeID)
    requires IsRun(boot, r) && |r.states| == |r.who| + 1 == |r.what| + 1 && k < |r.who| && At(r, k, a)
    requires Leaderless(NodeAt(r, k, a))
    ensures At(r, k + 1, a)
    ensures var n, n' := NodeAt(r, k, a), NodeAt(r, k + 1, a);
            n'.term == n.term && (r.who[k] != a || !Heard(n, r.what[k])) ==> Leaderless(n')
  {
    hide Init, Enabled, After, ClusterOK;
    var hs := Explained(boot, r);
    assert StepAt(r, k);
    InOrder(boot, r, k + 1, a);
    if r.who[k] == a && NodeAt(r, k + 1, a).term == NodeAt(r, k, a).term && !Heard(NodeAt(r, k, a), r.what[k]) {
      LeaderlessTurn(hs[k], r.states[k], a, r.what[k]);
    }
  }

  /** Until its ticks fill its timeout, a member that has heard from a leader goes on following. */
  lemma {:induction false} StillFollows(boot: Configuration, r: Run, i: nat, j: nat, a: NodeID)
    requires IsRun(boot, r) && AcceptsWord(r, i, a) && i < j < |r.states| && At(r, i + 1, a) && At(r, j, a)
    requires NodeAt(r, j, a).term == r.what[i].m.term && LeftAlone(r, i + 1, j, a)
    requires TicksOf(r, a, i + 1, j) < NodeAt(r, i + 1, a).timeout
    ensures var n := NodeAt(r, j, a);
            && n.role == Follower && n.lead != NONE && n.electionElapsed <= TicksOf(r, a, i + 1, j)
            && n.timeout == NodeAt(r, i + 1, a).timeout
    decreases j
  {
    hide IsRun, WaitsOn, RunsOut;
    WordIsHeeded(boot, r, i, a);
    if j > i + 1 {
      NeverBack(boot, r, i + 1, j - 1, a);
      NeverBack(boot, r, j - 1, j, a);
      StillFollows(boot, r, i, j - 1, a);
      FollowerMoment(boot, r, j - 1, a);
      WaitsLonger(boot, r, j - 1, a);
    }
  }

  lemma WaitsLonger(boot: Configuration, r: Run, k: nat, a: NodeID)
    requires IsRun(boot, r) && |r.states| == |r.who| + 1 == |r.what| + 1
    requires k < |r.who| && At(r, k, a) && At(r, k + 1, a)
    ensures var n, e, n' := NodeAt(r, k, a), r.what[k], NodeAt(r, k + 1, a);
            && (WaitsOn(n, e, n') ==>
                  && n'.role == Follower && n'.timeout == n.timeout && (!Heard(n, e) ==> n'.lead == n.lead)
                  && n'.electionElapsed <= n.electionElapsed + (if e.Ticks? then 1 else 0)
                  && (!Heard(n, e) && !Courted(n, e) ==>
                        n'.electionElapsed == n.electionElapsed + (if e.Ticks? then 1 else 0)))
            && (RunsOut(n) ==> n.electionElapsed + 1 >= n.timeout)
  {
    hide IsRun;
  }

  /** A member that hears nothing more counts its ticks, or gives its leader up. */
  lemma {:induction false} WaitsInSilence(boot: Configuration, r: Run, i: nat, j: nat, a: NodeID)
    requires IsRun(boot, r) && AcceptsWord(r, i, a) && i < j < |r.states| && At(r, i + 1, a) && At(r, j, a)
    requires NodeAt(r, j, a).term == r.what[i].m.term && HearsNothing(r, i + 1, j, a, r.what[i].m.term)
    ensures var n := NodeAt(r, j, a);
            || Leaderless(n)
            || (n.role == Follower && n.electionElapsed == TicksOf(r, a, i + 1, j)
                && n.timeout == NodeAt(r, i + 1, a).timeout)
    decreases j
  {
    hide IsRun, WaitsOn, RunsOut, Leaderless;
    WordIsHeeded(boot, r, i, a);
    if j > i + 1 {
      NeverBack(boot, r, i + 1, j - 1, a);
      NeverBack(boot, r, j - 1, j, a);
      WaitsInSilence(boot, r, i, j - 1, a);
      SilentStep(boot, r, i, j - 1, a);
    }
  }

  lemma SilentStep(boot: Configuration, r: Run, i: nat, k: nat, a: NodeID)
    requires IsRun(boot, r) && AcceptsWord(r, i, a) && i < k < |r.who|
    requires At(r, i + 1, a) && At(r, k, a) && At(r, k + 1, a)
    requires NodeAt(r, k + 1, a).term == NodeAt(r, k, a).term == r.what[i].m.term
    requires HearsNothing(r, k, k + 1, a, r.what[i].m.term)
    requires var n := NodeAt(r, k, a);
             || Leaderless(n)
             || (n.role == Follower && n.electionElapsed == TicksOf(r, a, i + 1, k)
                 && n.timeout == NodeAt(r, i + 1, a).timeout)
    ensures var n := NodeAt(r, k + 1, a);
            || Leaderless(n)
            || (n.role == Follower && n.electionElapsed == TicksOf(r, a, i + 1, k + 1)
                && n.timeout == NodeAt(r, i + 1, a).timeout)
  {
    hide IsRun, WaitsOn, RunsOut;
    if Leaderless(NodeAt(r, k, a)) {
      LeaderlessMoment(boot, r, k, a);
    } else if r.who[k] == a && r.what[k].Crashes? {
      CrashForgets(boot, r, k, a);
    } else {
      FollowerMoment(boot, r, k, a);
      WaitsLonger(boot, r, k, a);
    }
  }

  lemma CrashForgets(boot: Configuration, r: Run, k: nat, a: NodeID)
    requires IsRun(boot, r) && |r.states| == |r.who| + 1 == |r.what| + 1 && k < |r.who| && At(r, k, a)
    requires r.who[k] == a && r.what[k].Crashes?
    ensures At(r, k + 1, a) && Leaderless(NodeAt(r, k + 1, a))
  {
    hide Init, Enabled, Restart;
    assert StepAt(r, k);
    RestartForgets(r.what[k].disk);
  }

  // ---------------------------------------------------------------------------
  // Straw polls
  // ---------------------------------------------------------------------------

  /** What a member says to a straw poll; it changes nothing about itself. */
  ghost predicate Answers(n: Node, poll: Message, granted: bool) {
    && Sized(n)
    && Step(n, poll) == Send(n, VoteResp(n.id, poll.from, if granted then poll.term else n.term, true, granted))
  }

  predicate Polled(n: Node, poll: Message) {
    poll.VoteReq? && poll.preVote && poll.to == n.id && poll.term > n.term && n.role != Leader
  }

  /** A member that accepted word from the leader of its present term fewer than its election timeout of its own ticks
      ago refuses every straw poll for a later term, and says which term it is in. */
  lemma FollowersRefusePolls(boot: Configuration, r: Run, i: nat, j: nat, a: NodeID, poll: Message)
    requires IsRun(boot, r) && AcceptsWord(r, i, a) && i < j < |r.states| && At(r, i + 1, a) && At(r, j, a)
    requires NodeAt(r, j, a).term == r.what[i].m.term && LeftAlone(r, i + 1, j, a)
    requires TicksOf(r, a, i + 1, j) < NodeAt(r, i + 1, a).timeout
    requires Polled(NodeAt(r, j, a), poll)
    ensures Answers(NodeAt(r, j, a), poll, false)
  {
    hide IsRun, UpToDate;
    StillFollows(boot, r, i, j, a);
    OwnName(boot, r, j, a);
  }

  /** Once its ticks since that word fill its timeout, and it has heard nothing since, it grants the poll exactly if the
      asker's log is up to date. */
  lemma DesertedMembersGrantPolls(boot: Configuration, r: Run, i: nat, j: nat, a: NodeID, poll: Message)
    requires IsRun(boot, r) && AcceptsWord(r, i, a) && i < j < |r.states| && At(r, i + 1, a) && At(r, j, a)
    requires NodeAt(r, j, a).term == r.what[i].m.term && HearsNothing(r, i + 1, j, a, r.what[i].m.term)
    requires TicksOf(r, a, i + 1, j) >= NodeAt(r, i + 1, a).timeout
    requires Polled(NodeAt(r, j, a), poll)
    ensures Answers(NodeAt(r, j, a), poll, UpToDate(poll.lastIndex, poll.lastTerm, NodeAt(r, j, a).log))
  {
    hide IsRun, UpToDate;
    WaitsInSilence(boot, r, i, j, a);
    OwnName(boot, r, j, a);
  }

  /** So does a member that knows of no leader. */
  lemma LeaderlessMembersGrantPolls(boot: Configuration, r: Run, j: nat, a: NodeID, poll: Message)
    requires IsRun(boot, r) && At(r, j, a) && NodeAt(r, j, a).lead == NONE && Polled(NodeAt(r, j, a), poll)
    ensures Answers(NodeAt(r, j, a), poll, UpToDate(poll.lastIndex, poll.lastTerm, NodeAt(r, j, a).log))
  {
    hide IsRun, UpToDate;
    OwnName(boot, r, j, a);
  }
}
