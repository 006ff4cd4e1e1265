/** Clusters whose membership never changes. Two events of a run are guarded by conditions the code does not enforce,
both about configuration entries above a snapshot. Without membership changes there are no such entries, and
everything proved of runs holds of runs without the guards. */
module FixedVoters {
  import opened Configurations
  import opened RaftTypes
  import opened RaftNode
  import opened History
  import opened Invariant
  import opened StepSending
  import opened StepSnapshot
  import opened Crashing
  import opened Steady
  import opened Clusters
  import opened Runs

  // ---------------------------------------------------------------------------
  // Runs without the guards
  // ---------------------------------------------------------------------------

  predicate NoConf(log: seq<Entry>) { forall i :: 0 <= i < |log| ==> !log[i].payload.ConfEntry? }

  /** What may be on disk when a node goes down while nobody asks for a membership change. */
  ghost predicate PlainCrash(net: set<Message>, n: Node, app: seq<Entry>, disk: Node) {
    || disk == n
    || (exists m :: m in net && m.to == n.id && m.term >= n.term && Torn(n, m, disk))
    || (exists s, ws :: Begun(net, n, s) && MayWriteAll(s, ws) && NoConfWrites(ws) && disk == WroteAll(s, ws))
    || (n.toRestore.None? && Snapshots(n)
      && disk == n.(snap := Snapshot(n.applied, n.log[n.applied - 1].term, n.conf, app)))
  }

  predicate NoConfWrites(ws: seq<Write>) { forall i :: 0 <= i < |ws| ==> ws[i].Appends? ==> !ws[i].p.ConfEntry? }

  /** As `Enabled`, with no membership changes and with neither guard. */
  ghost predicate PlainEnabled(c: Cluster, id: NodeID, e: Event) {
    && id in c.members
    && var n := c.members[id].node;
       && Sized(n) && n.committed <= |n.log|
       && match e
          case Receives(m) => m in c.net && m.to == id
          case Campaigns => n.role != Leader
          case Reconfigures(_) => false
          case Applies(_) => n.toRestore.None?
          case Compacts => n.toRestore.None?
          case Crashes(disk) => PlainCrash(c.net, n, c.members[id].app, disk)
          case _ => true
  }

  ghost predicate PlainNext(c: Cluster, id: NodeID, e: Event, c': Cluster) {
    && PlainEnabled(c, id, e)
    && c'.members == c.members[id := After(c.members[id], e)]
    && c'.net == if e.Sends? then c.net + (set m | m in c.members[id].node.msgs) else c.net
  }

  ghost predicate IsPlainRun(boot: Configuration, r: Run) {
    && |r.states| == |r.who| + 1 == |r.what| + 1
    && Init(boot, r.states[0])
    && forall i {:trigger r.what[i]} ::
      0 <= i < |r.who| ==> PlainNext(r.states[i], r.who[i], r.what[i], r.states[i + 1])
  }

  // ---------------------------------------------------------------------------
  // No configuration entry anywhere
  // ---------------------------------------------------------------------------

  predicate PlainMsg(m: Message) {
    && (m.AppendReq? ==> NoConf(m.entries))
    && (m.SnapReq? ==> NoConf(m.snap.image) && !m.snap.config.IsJoint())
  }

  predicate PlainMsgs(msgs: seq<Message>) { forall i :: 0 <= i < |msgs| ==> PlainMsg(msgs[i]) }

  predicate PlainConfs(n: Node) {
    !n.conf.IsJoint() && !n.cfg.boot.IsJoint() && !n.snap.config.IsJoint() && NoConf(n.snap.image)
  }

  predicate Plain(n: Node) { NoConf(n.log) && PlainConfs(n) && PlainMsgs(n.msgs) }

  lemma SendPlain(n: Node, m: Message)
    requires Plain(n) && PlainMsg(m)
    ensures Plain(Send(n, m))
  {
    hide PlainMsg, NoConf;
  }

  lemma SlicePlain(log: seq<Entry>, lo: nat, hi: nat)
    requires NoConf(log) && lo <= hi <= |log|
    ensures NoConf(log[lo..hi])
  {}

  lemma SendSnapshotPlain(n: Node, to: NodeID)
    requires Plain(n)
    ensures Plain(SendSnapshot(n, to))
  {
    hide NoConf, PlainMsgs;
    if to in n.progress && n.progress[to].pendingSnapshot == 0 && n.snap.lastIndex != 0 {
      SendPlain(n, SnapReq(n.id, to, n.term, n.snap));
    }
  }

  lemma SendAppendPlain(n: Node, to: NodeID, readId: nat)
    requires Plain(n)
    ensures Plain(SendAppend(n, to, readId))
  {
    hide SendSnapshot, NoConf, PlainMsgs;
    if to in n.progress && n.progress[to].pendingSnapshot == 0 {
      var lo := n.progress[to].next - 1;
      if TermOf(n, lo).None? {
        SendSnapshotPlain(n, to);
      } else if !(lo < |n.log| && lo < n.floor) {
        SlicePlain(n.log, lo, BatchEnd(n, lo));
        SendPlain(n, AppendReq(n.id, to, n.term, lo, TermAt(n.log, lo), n.log[lo..BatchEnd(n, lo)], n.committed,
          readId));
      }
    }
  }

  lemma {:induction false} SendAllPlain(n: Node, peers: seq<NodeID>, readId: nat)
    requires Plain(n)
    ensures Plain(SendAll(n, peers, readId))
    decreases |peers|
  {
    hide SendAppend, Plain;
    if peers != [] {
      SendAppendPlain(n, peers[0], readId);
      SendAllPlain(SendAppend(n, peers[0], readId), peers[1..], readId);
    }
  }

  lemma {:induction false} RetryReadsPlain(n: Node, waiting: seq<ReadRequest>)
    requires Plain(n)
    ensures Plain(RetryReads(n, waiting))
    decreases |waiting|
  {
    hide SendAll, Plain;
    if waiting != [] {
      SendAllPlain(n, Peers(n.conf, n.id), waiting[0].id);
      RetryReadsPlain(SendAll(n, Peers(n.conf, n.id), waiting[0].id), waiting[1..]);
    }
  }

  lemma {:induction false} SendVotesPlain(n: Node, peers: seq<NodeID>, t: Term, preVote: bool)
    requires Plain(n)
    ensures Plain(SendVoteRequests(n, peers, t, preVote))
    decreases |peers|
  {
    hide Plain;
    if peers != [] {
      var m := VoteReq(n.id, peers[0], t, preVote, |n.log|, LastTerm(n.log));
      SendPlain(n, m);
      SendVotesPlain(if n.conf.IsVoter(peers[0]) then Send(n, m) else n, peers[1..], t, preVote);
    }
  }

  // ---------------------------------------------------------------------------
  // Leading
  // ---------------------------------------------------------------------------

  lemma OwnPlain(n: Node, e: Entry)
    requires Plain(n) && !e.payload.ConfEntry?
    ensures NoConf(n.log + [e])
  {}

  /** Fields that say nothing about configurations. */
  lemma TouchPlain(n: Node, r: Node)
    requires Plain(n) && r.log == n.log && r.conf == n.conf && r.cfg == n.cfg && r.snap == n.snap && r.msgs == n.msgs
    ensures Plain(r)
  {}

  lemma CrownedPlain(n: Node)
    requires Plain(n)
    ensures Plain(Crowned(n))
  {
    hide NoConf, PlainMsgs;
    OwnPlain(n, Entry(|n.log| + 1, n.term, NoOp));
  }

  lemma AppendOwnPlain(n: Node, p: Payload)
    requires Plain(n) && !p.ConfEntry?
    ensures Plain(AppendOwn(n, p))
  {
    hide NoConf, PlainMsgs, Rescan;
    OwnPlain(n, Entry(|n.log| + 1, n.term, p));
  }

  lemma MaybeAdvancePlain(n: Node)
    requires Sized(n) && Plain(n)
    ensures Plain(MaybeAdvanceCommit(n))
  {
    hide CommittedIndex, Matched, NoConf, PlainMsgs, Propose;
  }

  lemma ProposePlain(n: Node, p: Payload)
    requires Sized(n) && Plain(n) && !p.ConfEntry?
    ensures Plain(Propose(n, p))
  {
    hide MaybeAdvanceCommit, SendAll, AppendOwn, Plain;
    FailPlain(n);
    if n.role == Leader && |n.log| + 1 > n.committed {
      OwnLog(n, p);
      AppendOwnPlain(n, p);
      MaybeAdvancePlain(AppendOwn(n, p));
      var n1 := MaybeAdvanceCommit(AppendOwn(n, p));
      SendAllPlain(n1, Peers(n1.conf, n1.id), 0);
    }
  }

  lemma FailPlain(n: Node)
    requires Plain(n)
    ensures Plain(Fail(n)) && Plain(Persist(n))
  {}

  lemma BecomeLeaderPlain(n: Node)
    requires Sized(n) && Plain(n)
    ensures Plain(BecomeLeader(n))
  {
    hide MaybeAdvanceCommit, SendAll, Crowned, Plain, Persist;
    FailPlain(n);
    CrownedSized(n);
    CrownedPlain(n);
    MaybeAdvancePlain(Crowned(n));
    var n1 := MaybeAdvanceCommit(Crowned(n));
    FailPlain(n1);
    SendAllPlain(Persist(n1), Peers(Persist(n1).conf, Persist(n1).id), 0);
  }

  lemma CrownedSized(n: Node)
    requires Sized(n)
    ensures Sized(Crowned(n))
  {}

  // ---------------------------------------------------------------------------
  // Campaigning
  // ---------------------------------------------------------------------------

  lemma StandPlain(n: Node, preVote: bool)
    requires Plain(n)
    ensures Plain(Stand(n, preVote))
  {
    hide NoConf, PlainMsgs;
  }

  lemma {:induction false} CampaignPlain(n: Node, preVote: bool)
    requires Sized(n) && Plain(n)
    ensures Plain(Campaign(n, preVote))
    decreases if preVote then 3 else 1
  {
    hide Canvass, Stand, Plain;
    if n.conf.IsVoter(n.id) {
      var n1 := Stand(n, preVote);
      StandPlain(n, preVote);
      StandOnward(n, preVote);
      if !n1.fault {
        TouchPlain(n1, RecordVote(n1, n1.id, true));
        CanvassPlain(RecordVote(n1, n1.id, true), preVote);
      }
    }
  }

  lemma {:induction false} CanvassPlain(n: Node, preVote: bool)
    requires Sized(n) && Plain(n) && (n.role == PreCandidate || n.role == Candidate)
    ensures Plain(Canvass(n, preVote))
    decreases if n.role == PreCandidate then 2 else 0, 1
  {
    hide TallyVotes, SendVoteRequests, Quorum, Impossible, Plain;
    if Quorum(n.conf, Granted(n)) || Impossible(n.conf, Rejected(n)) {
      TallyPlain(n);
    } else {
      SendVotesPlain(n, Peers(n.conf, n.id), if preVote then n.term + 1 else n.term, preVote);
    }
  }

  lemma {:induction false} TallyPlain(n: Node)
    requires Sized(n) && Plain(n) && (n.role == PreCandidate || n.role == Candidate)
    ensures Plain(TallyVotes(n))
    decreases if n.role == PreCandidate then 2 else 0, 0
  {
    hide Campaign, BecomeLeader, Quorum, Impossible, Plain;
    TouchPlain(n, BecomeFollower(n, n.term, NONE));
    if Quorum(n.conf, Granted(n)) {
      if n.role == PreCandidate { CampaignPlain(n, false); } else { BecomeLeaderPlain(n); }
    }
  }

  lemma VotesPlain(n: Node, m: Message)
    requires Sized(n) && Plain(n)
    ensures m.VoteReq? ==> Plain(HandleVoteRequest(n, m))
    ensures m.VoteResp? ==> Plain(HandleVoteResponse(n, m))
  {
    hide TallyVotes, CanVote, UpToDate, Plain;
    if m.VoteReq? {
      var granted := CanVote(n, m) && UpToDate(m.lastIndex, m.lastTerm, n.log);
      TouchPlain(n, n.(vote := m.from, electionElapsed := 0));
      FailPlain(n.(vote := m.from, electionElapsed := 0));
      var n1 := if granted && !m.preVote then Persist(n.(vote := m.from, electionElapsed := 0)) else n;
      SendPlain(n1, VoteResp(n.id, m.from, if m.preVote && granted then m.term else n.term, m.preVote, granted));
    } else if m.VoteResp? && !((m.preVote && n.role != PreCandidate) || (!m.preVote && n.role != Candidate)) {
      TouchPlain(n, RecordVote(n, m.from, m.granted));
      TallyPlain(RecordVote(n, m.from, m.granted));
    }
  }

  // ---------------------------------------------------------------------------
  // Following
  // ---------------------------------------------------------------------------

  lemma WrittenPlain(n: Node, prev: Index, ents: seq<Entry>)
    requires Plain(n) && NoConf(ents)
    ensures Plain(AppendConflicting(n, prev, ents))
  {
    hide FindConflict, Contiguous, PlainMsgs;
  }

  /** A rescan finds the snapshot's configuration or the bootstrap. */
  lemma RescanPlain(n: Node)
    requires Plain(n)
    ensures !Rescan(n).0.IsJoint()
  {
    hide PlainMsgs;
  }

  lemma RefreshPlain(n: Node, ents: seq<Entry>)
    requires Plain(n)
    ensures Plain(RefreshIfNeeded(n, ents))
  {
    hide Rescan, NeedsRefresh, NoConf, PlainMsgs;
    RescanPlain(n);
    RescannedShape(n);
  }

  lemma FollowPlain(n: Node, m: Message)
    requires Plain(n)
    ensures Plain(FollowLeader(n, m))
  {
    hide Plain, BecomeFollower;
    FollowerShape(n.(electionElapsed := 0), m.term, m.from);
    TouchPlain(n, FollowLeader(n, m));
  }

  lemma AcceptPlain(n: Node, m: Message)
    requires m.AppendReq? && Plain(n) && PlainMsg(m)
    ensures Plain(AcceptEntries(n, m))
  {
    hide AppendConflicting, RefreshIfNeeded, Plain, Persist;
    var n1, lastNew := AppendConflicting(n, m.prevIndex, m.entries), m.prevIndex + |m.entries|;
    WrittenPlain(n, m.prevIndex, m.entries);
    var n2 := CommitTo(n1, if m.commit < lastNew then m.commit else lastNew);
    TouchPlain(n1, n2);
    RefreshPlain(n2, m.entries);
    var n3 := Persist(RefreshIfNeeded(n2, m.entries));
    FailPlain(RefreshIfNeeded(n2, m.entries));
    SendPlain(n3, AppendResp(n.id, m.from, n3.term, true, lastNew, 0, 0, m.readId));
  }

  lemma AppendRequestPlain(n: Node, m: Message)
    requires m.AppendReq? && Plain(n) && PlainMsg(m)
    ensures Plain(HandleAppendRequest(n, m))
  {
    hide AcceptEntries, ConflictHint, MatchTerm, Plain, FollowLeader;
    var n1 := FollowLeader(n, m);
    FollowPlain(n, m);
    AcceptPlain(n1, m);
    var hint := ConflictHint(n1, m.prevIndex);
    SendPlain(n1, AppendResp(n.id, m.from, n1.term, true, n1.committed, 0, 0, m.readId));
    SendPlain(n1, AppendResp(n.id, m.from, n1.term, false, 0, hint.0, hint.1, m.readId));
  }

  lemma FeedPlain(n: Node, from: NodeID, next: pos, advanced: bool)
    requires Plain(n)
    ensures Plain(Feed(n, from, next, advanced))
  {
    hide SendAll, SendAppend, Plain;
    SendAllPlain(n, Peers(n.conf, n.id), 0);
    SendAppendPlain(n, from, 0);
  }

  lemma RecordMatchPlain(n: Node, from: NodeID, i: Index)
    requires Sized(n) && Plain(n) && from in n.progress
    ensures Plain(RecordMatch(n, from, i))
  {
    hide MaybeAdvanceCommit, Feed, Plain;
    var n0 := WithMatch(n, from, i);
    TouchPlain(n, n0);
    MaybeAdvancePlain(n0);
    var n1 := MaybeAdvanceCommit(n0);
    FeedPlain(n1, from, i + 1, n1.committed > n.committed);
    FeedPlain(n, from, n.progress[from].next, false);
  }

  lemma ResponsesPlain(n: Node, m: Message)
    requires Sized(n) && Plain(n)
    ensures m.AppendResp? ==> Plain(HandleAppendResponse(n, m))
    ensures m.SnapResp? ==> Plain(HandleSnapshotResponse(n, m))
  {
    hide RecordMatch, SendAppend, BackUp, AckRead, Plain;
    if m.AppendResp? && n.role == Leader && m.from in n.progress {
      AckReadIds(n, m.from, m.readId);
      var n1 := if m.readId != 0 then AckRead(n, m.from, m.readId) else n;
      TouchPlain(n, n1);
      if m.success {
        RecordMatchPlain(n1, m.from, m.matchIndex);
      } else {
        var n2 := n1.(progress := n1.progress[m.from := n1.progress[m.from].(next := BackUp(n1, n1.progress[m.from],
          m))]);
        TouchPlain(n1, n2);
        SendAppendPlain(n2, m.from, 0);
      }
    }
    if m.SnapResp? && n.role == Leader && m.from in n.progress {
      var n1 := n.(progress := n.progress[m.from := n.progress[m.from].(pendingSnapshot := 0, snapshotTicks := 0)]);
      TouchPlain(n, n1);
      if m.success { RecordMatchPlain(n1, m.from, m.matchIndex); }
    }
  }

  lemma SavedPlain(n: Node, snap: Snapshot)
    requires Plain(n) && NoConf(snap.image) && !snap.config.IsJoint()
    ensures Plain(SaveSnapshot(n, snap))
  {
    hide NoConf, PlainMsgs, CoversSnapshot;
  }

  lemma SetPlain(n: Node, c: Configuration, at: Index)
    requires Plain(n) && !c.IsJoint()
    ensures Plain(SetConfiguration(n, c, at))
  {
    hide NoConf, PlainMsgs;
  }

  lemma SnapshotRequestPlain(n: Node, m: Message)
    requires m.SnapReq? && Plain(n) && PlainMsg(m)
    ensures Plain(HandleSnapshotRequest(n, m))
  {
    hide FollowLeader, SaveSnapshot, SetConfiguration, Persist, Plain;
    var n1 := FollowLeader(n, m);
    FollowPlain(n, m);
    SendPlain(n1, SnapResp(n.id, m.from, n1.term, true, n1.committed));
    SavedPlain(n1, m.snap);
    var n2 := SaveSnapshot(n1, m.snap).(committed := m.snap.lastIndex, applied := m.snap.lastIndex);
    TouchPlain(SaveSnapshot(n1, m.snap), n2);
    SetPlain(n2, m.snap.config, m.snap.lastIndex);
    var n3 := if m.snap.config.IsEmpty() then n2 else SetConfiguration(n2, m.snap.config, m.snap.lastIndex);
    TouchPlain(n3, n3.(toRestore := Some(m.snap)));
    FailPlain(n3.(toRestore := Some(m.snap)));
    var n4 := Persist(n3.(toRestore := Some(m.snap)));
    SendPlain(n4, SnapResp(n.id, m.from, n4.term, true, m.snap.lastIndex));
  }

  // ---------------------------------------------------------------------------
  // Any message, any tick
  // ---------------------------------------------------------------------------

  lemma HigherPlain(n: Node, m: Message)
    requires Plain(n)
    ensures Plain(StepHigherTerm(n, m)) && Plain(StepLowerTerm(n, m))
  {
    hide NoConf;
  }

  lemma DispatchPlain(n: Node, m: Message)
    requires Sized(n) && Plain(n) && PlainMsg(m)
    ensures Plain(Dispatch(n, m))
  {
    hide HandleVoteRequest, HandleVoteResponse, HandleAppendRequest, HandleAppendResponse, HandleSnapshotRequest;
    hide HandleSnapshotResponse, Plain, PlainMsg;
    VotesPlain(n, m);
    ResponsesPlain(n, m);
    if m.AppendReq? { AppendRequestPlain(n, m); }
    if m.SnapReq? { SnapshotRequestPlain(n, m); }
  }

  lemma StepPlain(n: Node, m: Message)
    requires Sized(n) && Plain(n) && PlainMsg(m)
    ensures Plain(Step(n, m))
  {
    hide Dispatch, StepHigherTerm, StepLowerTerm, Plain, PlainMsg, Onward;
    HigherPlain(n, m);
    HigherOnward(n, m);
    if m.term >= n.term { DispatchPlain(if m.term > n.term then StepHigherTerm(n, m) else n, m); }
  }

  lemma TickPlain(n: Node)
    requires Sized(n) && Plain(n)
    ensures Plain(Tick(n))
  {
    hide Campaign, SendAll, RetryReads, Plain;
    var n1 := n.(electionElapsed := n.electionElapsed + 1);
    TouchPlain(n, n1);
    TouchPlain(n, n1.(electionElapsed := 0));
    CampaignPlain(n1.(electionElapsed := 0), n.cfg.preVote);
    var n2 := n1.(heartbeatElapsed := n.heartbeatElapsed + 1);
    TouchPlain(n, n2);
    var n3 := ExpirePendingSnapshots(n2.(heartbeatElapsed := 0));
    TouchPlain(n, n3);
    SendAllPlain(n3, Peers(n3.conf, n3.id), 0);
    var n4 := BroadcastAppend(n3);
    RetryReadsPlain(n4, n4.pendingReads);
  }

  lemma ReadPlain(n: Node, id: nat)
    requires Plain(n)
    ensures Plain(ReadIndex(n, id))
  {
    hide Quorum, SendAll, Plain, ReadIndexError;
    var req := ReadRequest(id, n.committed, {n.id});
    TouchPlain(n, n.(readStates := n.readStates + [ReadState(id, req.index)]));
    var n1 := n.(pendingReads := n.pendingReads + [req]);
    TouchPlain(n, n1);
    SendAllPlain(n1, Peers(n1.conf, n1.id), id);
  }

  lemma CreatedPlain(n: Node, image: seq<Entry>)
    requires Plain(n) && NoConf(image)
    ensures Plain(CreateSnapshot(n, image))
  {
    hide PlainMsgs, NoConf;
  }

  // ---------------------------------------------------------------------------
  // Crashes
  // ---------------------------------------------------------------------------

  lemma TornPlain(n: Node, m: Message, disk: Node)
    requires Plain(n) && PlainMsg(m) && Torn(n, m, disk)
    ensures Plain(disk)
  {
    hide StepHigherTerm, FollowLeader, AppendConflicting, SaveSnapshot, MatchTerm, Plain;
    HigherPlain(n, m);
    var n1 := Adopted(n, m);
    FollowPlain(n1, m);
    var n2 := FollowLeader(n1, m);
    if m.AppendReq? { WrittenPlain(n2, m.prevIndex, m.entries); }
    if m.SnapReq? { SavedPlain(n2, m.snap); }
  }

  lemma WrotePlain(n: Node, w: Write)
    requires Plain(n) && (w.Appends? ==> !w.p.ConfEntry?)
    ensures Plain(Wrote(n, w))
  {
    hide AppendOwn, Persist, Plain, CommittedIndex, Matched;
    match w {
      case Appends(p) => AppendOwnPlain(n, p);
      case Advances =>
        var n1 := CommitTo(n, CommittedIndex(n.conf, Matched(n)));
        TouchPlain(n, n1);
        FailPlain(n1);
    }
  }

  lemma {:induction false} WroteAllPlain(n: Node, ws: seq<Write>)
    requires Plain(n) && NoConfWrites(ws)
    ensures Plain(WroteAll(n, ws))
    decreases |ws|
  {
    hide Wrote, Plain;
    if ws != [] {
      WrotePlain(n, ws[0]);
      WroteAllPlain(Wrote(n, ws[0]), ws[1..]);
    }
  }

  lemma CandidacyPlain(net: set<Message>, n: Node, c: Node)
    requires Plain(n) && Candidacy(net, n, c)
    ensures Plain(c)
  {
    hide Stand, Plain;
    StandPlain(n, false);
    TouchPlain(Stand(n, false), RecordVote(Stand(n, false), n.id, true));
    forall v: NodeID, granted: bool ensures Plain(RecordVote(n, v, granted)) {
      TouchPlain(n, RecordVote(n, v, granted));
    }
  }

  lemma BegunPlain(net: set<Message>, n: Node, s: Node)
    requires Plain(n) && Begun(net, n, s)
    ensures Plain(s)
  {
    hide Plain, Candidacy, Crowned, Quorum, Granted;
    if s == n {
    } else if n.role == Leader && exists m ::
      m in net && Acknowledges(n, m) && s == WithMatch(n, m.from, m.matchIndex) {
      var m :| m in net && Acknowledges(n, m) && s == WithMatch(n, m.from, m.matchIndex);
      TouchPlain(n, s);
    } else {
      var c :| Candidacy(net, n, c) && (s == c
        || (c.role == Candidate && Quorum(c.conf, Granted(c)) && s == Crowned(c)));
      CandidacyPlain(net, n, c);
      CrownedPlain(c);
    }
  }

  lemma RestartPlain(disk: Node)
    requires Plain(disk)
    ensures Plain(Restart(disk))
  {
    hide Plain, Recovered, RefreshConfiguration, BecomeFollower;
    var n := Recovered(disk);
    RecoveredPlain(disk);
    RefreshedPlain(n);
    FollowerShape(RefreshConfiguration(n), disk.hard.term, NONE);
    TouchPlain(RefreshConfiguration(n), Restart(disk));
  }

  lemma RecoveredPlain(disk: Node)
    requires Plain(disk)
    ensures Plain(Recovered(disk))
  {
    hide NoConf;
  }

  lemma RefreshedPlain(n: Node)
    requires Plain(n)
    ensures Plain(RefreshConfiguration(n))
  {
    hide Rescan, NoConf, PlainMsgs;
    RescanPlain(n);
    RescannedShape(n);
  }

  lemma CrashPlain(net: set<Message>, n: Node, app: seq<Entry>, disk: Node)
    requires Plain(n) && NoConf(app) && PlainCrash(net, n, app, disk) && forall m :: m in net ==> PlainMsg(m)
    ensures Plain(disk)
  {
    hide Torn, Begun, MayWriteAll, WroteAll, NoConf, PlainMsg, Snapshots, Plain;
    if disk == n {
    } else if m :| m in net && m.to == n.id && m.term >= n.term && Torn(n, m, disk) {
      TornPlain(n, m, disk);
    } else if s, ws :| Begun(net, n, s) && MayWriteAll(s, ws) && NoConfWrites(ws) && disk == WroteAll(s, ws) {
      BegunPlain(net, n, s);
      WroteAllPlain(s, ws);
    } else {
      StampedPlain(n, disk);
    }
  }

  lemma StampedPlain(n: Node, disk: Node)
    requires Plain(n) && NoConf(disk.snap.image) && disk.snap.config == n.conf && disk == n.(snap := disk.snap)
    ensures Plain(disk)
  {}

  // ---------------------------------------------------------------------------
  // The cluster
  // ---------------------------------------------------------------------------

  ghost predicate ClusterPlain(c: Cluster) {
    (forall id :: id in c.members ==> Plain(c.members[id].node)) && forall m :: m in c.net ==> PlainMsg(m)
  }

  lemma NoConfIsBoot(boot: Configuration, log: seq<Entry>, i: nat)
    requires NoConf(log) && i <= |log|
    ensures LastConfIndex(log) == 0 && ConfOf(boot, log[..i]) == boot == ConfOf(boot, log)
  {
    assert NoConf(log[..i]);
  }

  lemma AppPlain(n: Node, app: seq<Entry>)
    requires NoConf(n.log) && AppOK(n, app)
    ensures NoConf(app)
  {
    assert forall i :: 0 <= i < |app| ==> app[i] == n.log[..n.applied][i];
  }

  /** Without membership changes the guards hold of themselves. */
  lemma GuardsHold(h: Hist, c: Cluster, id: NodeID, e: Event)
    requires ClusterOK(h, c) && ClusterPlain(c) && PlainEnabled(c, id, e)
    ensures id in c.members && Enabled(c, id, e)
  {
    hide OK, NodeOK, Consistent, Normal, MsgOK, SeqOK, Torn, Begun, MayWriteAll, NoConf, PlainMsgs, LastConfIndex;
    hide ConfOf;
    hide SnapPart, Snapshots, CoversSnapshot;
    var mem := c.members[id];
    assert MemberOK(h, id, mem);
    Unpack(h, mem.node);
    NoConfIsBoot(h.boot, mem.node.log, mem.node.applied);
  }

  lemma TurnPlain(h: Hist, c: Cluster, id: NodeID, e: Event)
    requires ClusterOK(h, c) && ClusterPlain(c) && PlainEnabled(c, id, e)
    ensures Plain(After(c.members[id], e).node)
  {
    hide OK, MsgOK, AppOK, SeqOK, Step, Tick, Campaign, Propose, ReadIndex, CreateSnapshot, Restart, PlainCrash, Sized;
    hide Consistent, EntriesToApply, Plain, PlainMsg;
    var mem := c.members[id];
    var n := mem.node;
    assert MemberOK(h, id, mem);
    PlainParts(n);
    AppPlain(n, mem.app);
    match e {
      case Receives(m) => StepPlain(n, m);
      case Ticks => TickPlain(n);
      case Campaigns => CampaignPlain(n, n.cfg.preVote);
      case Writes(bytes) => ProposePlain(n, Command(bytes));
      case Reads => ReadPlain(n, mem.readSeq + 1);
      case Sends => SentPlain(n);
      case Confirms => TouchPlain(n, n.(readStates := []));
      case Restores => TouchPlain(n, After(mem, e).node);
      case Applies(limit) => TouchPlain(n, After(mem, e).node);
      case Compacts => CreatedPlain(n, mem.app);
      case Crashes(disk) =>
        CrashPlain(c.net, n, mem.app, disk);
        RestartPlain(disk);
    }
  }

  lemma PlainParts(n: Node)
    requires Plain(n)
    ensures NoConf(n.log) && PlainMsgs(n.msgs)
  {}

  lemma SentPlain(n: Node)
    requires Plain(n)
    ensures Plain(n.(msgs := []))
  {}

  lemma NextPlain(h: Hist, c: Cluster, id: NodeID, e: Event, c': Cluster)
    requires ClusterOK(h, c) && ClusterPlain(c) && PlainNext(c, id, e, c')
    ensures Next(c, id, e, c') && ClusterPlain(c')
  {
    hide ClusterOK, PlainEnabled, Enabled, After, Plain, PlainMsg;
    GuardsHold(h, c, id, e);
    TurnPlain(h, c, id, e);
    PlainParts(c.members[id].node);
  }

  lemma InitPlain(boot: Configuration, c: Cluster)
    requires Init(boot, c) && !boot.IsJoint()
    ensures ClusterPlain(c)
  {
    hide Restart;
    forall id | id in c.members ensures Plain(c.members[id].node) {
      var cfg := c.members[id].node.cfg;
      RestartPlain(Node(id, cfg, HardState(0, NONE, 0), [], 0, NO_SNAPSHOT, 0, NONE, 0, 0, Follower, NONE,
                        cfg.boot, 0, map[], map[], 0, 0, 0, 0, [], [], None, [], false));
    }
  }

  /** From a bootstrap configuration that is not joint, a run without membership changes is a run: what is proved
      of every run needs neither guard. */
  lemma {:induction false} PlainRunIsRun(boot: Configuration, r: Run)
    requires IsPlainRun(boot, r) && !boot.IsJoint()
    ensures IsRun(boot, r) && ClusterPlain(r.states[|r.who|])
    decreases |r.who|
  {
    hide PlainNext, Next, Init, ClusterPlain;
    if |r.who| == 0 {
      InitPlain(boot, r.states[0]);
    } else {
      var s, k := Shorter(r), |r.who| - 1;
      forall i {:trigger s.what[i]} | 0 <= i < |s.who|
        ensures PlainNext(s.states[i], s.who[i], s.what[i], s.states[i + 1])
      {
        assert r.what[i] == s.what[i];
      }
      PlainRunIsRun(boot, s);
      var hs := Explained(boot, s);
      assert ClusterOK(hs[k], s.states[k]) && r.what[k] == r.what[k];
      NextPlain(hs[k], r.states[k], r.who[k], r.what[k], r.states[k + 1]);
      LastStepIsRun(boot, r);
    }
  }

  lemma LastStepIsRun(boot: Configuration, r: Run)
    requires |r.who| > 0 && |r.states| == |r.who| + 1 == |r.what| + 1
    requires IsRun(boot, Shorter(r)) && StepAt(r, |r.who| - 1)
    ensures IsRun(boot, r)
  {
    hide Init, Next;
    var s := Shorter(r);
    forall i | 0 <= i < |r.who| ensures StepAt(r, i) {
      if i < |r.who| - 1 { assert StepAt(s, i); }
    }
  }
}
