/** A follower that is never repaired. A leader that has compacted its log and is down to the first entry for some
follower sends it nothing, and nothing that follower can answer changes that. */
module Stuck {
  import opened Configurations
  import opened RaftTypes
  import opened RaftNode
  import opened History
  import opened HistoryGrowth
  import opened Invariant
  import opened StepSending
  import opened StepSnapshot
  import opened Crashing
  import opened Steady
  import opened Clusters
  import opened Runs
  import opened Tenure
  import opened Repair

  // ---------------------------------------------------------------------------
  // Where it begins
  // ---------------------------------------------------------------------------

  /** A leader has something to say to every follower, except to one it would start from the very first entry
      once that entry has been compacted away: the position before it can still be answered for, so no
      snapshot is sent, and the entries cannot be read, so nothing is. */
  lemma SilentExactly(n: Node, to: NodeID, readId: nat)
    requires to in n.progress && n.progress[to].pendingSnapshot == 0
    requires n.floor <= n.snap.lastIndex && n.floor <= |n.log| && n.progress[to].next <= |n.log| + 1
    ensures SendAppend(n, to, readId).msgs == n.msgs <==> n.progress[to].next == 1 && n.floor > 0
  {
    assert forall m :: |n.msgs + [m]| == |n.msgs| + 1;
  }

  /** That is where a follower with an empty log ends up. */
  lemma EmptyFollowerIsStuck(n: Node, f: Node, readId: nat)
    requires n.floor > 0 && n.floor <= n.snap.lastIndex && n.floor <= |n.log|
    requires f.id in n.progress && f.log == [] && f.id != n.id
    requires n.progress[f.id].matched == 0 && n.progress[f.id].pendingSnapshot == 0
             && 1 < n.progress[f.id].next <= |n.log| + 1
    ensures var pr := n.progress[f.id];
            var next := BackUp(n, pr, Refusal(f, n.id, pr.next - 1));
            && next == 1
            && SendAppend(n.(progress := n.progress[f.id := pr.(next := next)]), f.id, readId).msgs == n.msgs
  {
    var pr := n.progress[f.id];
    SilentExactly(n.(progress := n.progress[f.id := pr.(next := 1)]), f.id, readId);
  }

  // ---------------------------------------------------------------------------
  // A leader that has nothing to say
  // ---------------------------------------------------------------------------

  /** Entries, or a snapshot, for `b`. */
  predicate Feeds(m: Message, b: NodeID) { (m.AppendReq? || m.SnapReq?) && m.to == b }

  predicate AtStart(pr: Progress) { pr.matched == 0 && pr.next == 1 && pr.pendingSnapshot == 0 }

  /** A leader with a compacted log that is down to the first entry for `b`, or does not track `b` any more. */
  predicate Idle(n: Node, b: NodeID) {
    && 0 < n.floor <= |n.log| && b != n.id
    && (b in Members(n.conf) ==> b in n.progress)
    && (b in n.progress ==> AtStart(n.progress[b]))
  }

  /** Nothing new for `b`. */
  predicate Mute(n: Node, r: Node, b: NodeID) {
    forall i :: 0 <= i < |r.msgs| && Feeds(r.msgs[i], b) ==> r.msgs[i] in n.msgs
  }

  /** If it still leads, it is still idle and has said nothing to `b`. */
  predicate Hushed(n: Node, r: Node, b: NodeID) { r.role == Leader ==> n.role == Leader && Idle(r, b) && Mute(n, r, b) }

  lemma HushedOn(a: Node, m: Node, c: Node, b: NodeID)
    requires Hushed(a, m, b) && Hushed(m, c, b)
    ensures Hushed(a, c, b)
  {
    hide Idle;
  }

  lemma SendAppendHushed(n: Node, to: NodeID, readId: nat, b: NodeID)
    requires Idle(n, b)
    ensures var r := SendAppend(n, to, readId); Idle(r, b) && Mute(n, r, b)
  {
    hide Members;
  }

  lemma {:induction false} SendAllHushed(n: Node, peers: seq<NodeID>, readId: nat, b: NodeID)
    requires Idle(n, b)
    ensures var r := SendAll(n, peers, readId); Idle(r, b) && Mute(n, r, b)
    decreases |peers|
  {
    hide SendAppend, Idle;
    if peers != [] {
      SendAppendHushed(n, peers[0], readId, b);
      SendAllHushed(SendAppend(n, peers[0], readId), peers[1..], readId, b);
    }
  }

  lemma {:induction false} RetryHushed(n: Node, waiting: seq<ReadRequest>, b: NodeID)
    requires Idle(n, b)
    ensures var r := RetryReads(n, waiting); Idle(r, b) && Mute(n, r, b)
    decreases |waiting|
  {
    hide SendAll, Idle;
    if waiting != [] {
      SendAllHushed(n, Peers(n.conf, n.id), waiting[0].id, b);
      RetryHushed(SendAll(n, Peers(n.conf, n.id), waiting[0].id), waiting[1..], b);
    }
  }

  // ---------------------------------------------------------------------------
  // Appending and committing
  // ---------------------------------------------------------------------------

  /** An entry that does not bring `b` back. */
  predicate Spares(n: Node, p: Payload, b: NodeID) { p.ConfEntry? && b in Members(p.change.config) ==> b in n.progress }

  lemma RefreshHushed(n: Node, c: Configuration, at: Index, b: NodeID)
    requires 0 < n.floor <= |n.log| && b != n.id && (b in n.progress ==> AtStart(n.progress[b])) && n.role == Leader
    requires (b in Members(c) ==> b in n.progress) && (b in Members(n.conf) ==> b in n.progress)
    ensures var r := SetConfiguration(n, c, at); Idle(r, b) && r.msgs == n.msgs && r.role == Leader && r.conf == c
  {
    hide Members;
  }

  lemma AppendOwnHushed(n: Node, p: Payload, b: NodeID)
    requires Idle(n, b) && n.role == Leader && Spares(n, p, b)
    ensures var r := AppendOwn(n, p); Idle(r, b) && Mute(n, r, b) && r.role == Leader
  {
    hide Members, SetConfiguration, Rescan;
    var n1 := n.(log := n.log + [Entry(|n.log| + 1, n.term, p)]);
    if p.ConfEntry? {
      OwnScan(n, p);
      RefreshHushed(n1, p.change.config, |n.log| + 1, b);
      SetKeeps(n1, p.change.config, |n.log| + 1);
    }
  }

  lemma OwnScan(n: Node, p: Payload)
    requires p.ConfEntry? && Sized(n)
    ensures Rescan(n.(log := n.log + [Entry(|n.log| + 1, n.term, p)])) == (p.change.config, |n.log| + 1)
  {
    ConfOfAppend(n.cfg.boot, n.log, Entry(|n.log| + 1, n.term, p));
  }

  /** Leaving a joint configuration brings nobody in. */
  lemma LeavingSpares(n: Node, b: NodeID)
    requires Idle(n, b) && LeaveJoint(n.conf).Changed?
    ensures Spares(n, ConfEntry(LeaveJoint(n.conf).change), b)
  {}

  lemma {:induction false} ProposeHushed(n: Node, p: Payload, b: NodeID)
    requires Sized(n) && Idle(n, b) && Spares(n, p, b)
    ensures Hushed(n, Propose(n, p), b)
    decreases JointRank(AppendOwn(n, p)) + 1
  {
    hide MaybeAdvanceCommit, SendAll, AppendOwn, Idle, Mute, Spares;
    OwnLog(n, p);
    if n.role == Leader && |n.log| + 1 > n.committed {
      AppendOwnHushed(n, p, b);
      var n0 := AppendOwn(n, p);
      AdvanceHushed(n0, b);
      var n1 := MaybeAdvanceCommit(n0);
      HushedOn(n, n0, n1, b);
      if n1.role == Leader {
        SendAllHushed(n1, Peers(n1.conf, n1.id), 0, b);
        HushedOn(n, n1, BroadcastAppend(n1), b);
      }
    } else {
      Quiet(n, b);
    }
  }

  lemma Quiet(n: Node, b: NodeID)
    requires Idle(n, b)
    ensures Mute(n, n, b) && Idle(Fail(n), b) && Mute(n, Fail(n), b)
  {}

  lemma {:induction false} AdvanceHushed(n: Node, b: NodeID)
    requires Sized(n) && Idle(n, b)
    ensures Hushed(n, MaybeAdvanceCommit(n), b)
    decreases JointRank(n)
  {
    hide MaybeLeaveJoint, CommittedIndex, Matched, Idle, Mute, Persist;
    Quiet(n, b);
    var n0 := CommitTo(n, CommittedIndex(n.conf, Matched(n)));
    var n1 := Persist(n0);
    PersistKeeps(n0);
    TouchIdle(n, n1, b);
    if n.role == Leader && !n1.fault {
      LeaveHushed(n1, b);
      HushedOn(n, n1, MaybeLeaveJoint(n1), b);
    }
  }

  /** Fields that do not matter here. */
  lemma TouchIdle(n: Node, r: Node, b: NodeID)
    requires Idle(n, b) && r.role == n.role && r.id == n.id && r.floor == n.floor && r.log == n.log && r.conf == n.conf
    requires r.msgs == n.msgs && r.progress == n.progress
    ensures Idle(r, b) && Mute(n, r, b)
  {}

  lemma {:induction false} LeaveHushed(n: Node, b: NodeID)
    requires Sized(n) && Idle(n, b)
    ensures Hushed(n, MaybeLeaveJoint(n), b)
    decreases JointRank(n), 0
  {
    hide Propose, Idle, Mute, Spares;
    Quiet(n, b);
    if n.role == Leader && n.conf.IsJoint() && n.confIndex <= n.committed && LeaveJoint(n.conf).Changed? {
      LeavingIsNotJoint(n);
      LeavingSpares(n, b);
      ProposeHushed(n, ConfEntry(LeaveJoint(n.conf).change), b);
    }
  }

  // ---------------------------------------------------------------------------
  // Messages
  // ---------------------------------------------------------------------------

  lemma FeedHushed(n: Node, from: NodeID, next: pos, advanced: bool, b: NodeID)
    requires Idle(n, b) && n.role == Leader
    ensures Hushed(n, Feed(n, from, next, advanced), b)
  {
    hide SendAll, SendAppend, Idle, Mute;
    Quiet(n, b);
    SendAllHushed(n, Peers(n.conf, n.id), 0, b);
    SendAppendHushed(n, from, 0, b);
  }

  /** An acknowledgement of nothing, by `b`, or of anything, by anyone else. */
  lemma RecordHushed(n: Node, from: NodeID, i: Index, b: NodeID)
    requires Sized(n) && Idle(n, b) && n.role == Leader && from in n.progress && (from == b ==> i == 0)
    ensures Hushed(n, RecordMatch(n, from, i), b)
  {
    hide MaybeAdvanceCommit, Feed, Idle, Mute;
    if i > n.progress[from].matched {
      var n0 := WithMatch(n, from, i);
      MatchIdle(n, from, i, b);
      AdvanceHushed(n0, b);
      var n1 := MaybeAdvanceCommit(n0);
      HushedOn(n, n0, n1, b);
      if n1.role == Leader { FeedHushed(n1, from, i + 1, n1.committed > n.committed, b); }
      FeedRole(n1, from, i + 1, n1.committed > n.committed);
      HushedOn(n, n1, RecordMatch(n, from, i), b);
    } else {
      FeedHushed(n, from, n.progress[from].next, false, b);
    }
  }

  lemma FeedRole(n: Node, from: NodeID, next: pos, advanced: bool)
    ensures Feed(n, from, next, advanced).role == n.role
  {
    hide SendAll, SendAppend;
  }

  lemma MatchIdle(n: Node, from: NodeID, i: Index, b: NodeID)
    requires Idle(n, b) && from in n.progress && i > n.progress[from].matched && (from == b ==> i == 0)
    ensures Idle(WithMatch(n, from, i), b) && Mute(n, WithMatch(n, from, i), b)
  {}

  lemma AppendResponseHushed(n: Node, m: Message, b: NodeID)
    requires Sized(n) && Idle(n, b) && n.role == Leader && m.AppendResp?
             && (m.from == b && m.success ==> m.matchIndex == 0)
    ensures Hushed(n, HandleAppendResponse(n, m), b)
  {
    hide RecordMatch, SendAppend, AckRead, Idle, Mute, NextAfterRejection;
    Quiet(n, b);
    if m.from in n.progress {
      AckReadIds(n, m.from, m.readId);
      var n1 := if m.readId != 0 then AckRead(n, m.from, m.readId) else n;
      TouchIdle(n, n1, b);
      if m.success {
        RecordHushed(n1, m.from, m.matchIndex, b);
        HushedOn(n, n1, RecordMatch(n1, m.from, m.matchIndex), b);
      } else {
        var pr := n1.progress[m.from];
        var next := BackUp(n1, pr, m);
        if next < pr.next {
          NotTheIdle(n1, m.from, b);
          var n2 := n1.(progress := n1.progress[m.from := pr.(next := next)]);
          OthersIdle(n1, m.from, pr.(next := next), b);
          SendAppendHushed(n2, m.from, 0, b);
          HushedOn(n, n1, n2, b);
          HushedOn(n, n2, SendAppend(n2, m.from, 0), b);
        }
      }
    }
  }

  lemma NotTheIdle(n: Node, from: NodeID, b: NodeID)
    requires Idle(n, b) && from in n.progress && n.progress[from].next > 1
    ensures from != b
  {}

  lemma OthersIdle(n: Node, from: NodeID, pr: Progress, b: NodeID)
    requires Idle(n, b) && from in n.progress && (from == b ==> AtStart(pr))
    ensures var r := n.(progress := n.progress[from := pr]); Idle(r, b) && Mute(n, r, b)
  {}

  lemma SnapshotResponseHushed(n: Node, m: Message, b: NodeID)
    requires Sized(n) && Idle(n, b) && n.role == Leader && m.SnapResp?
             && (m.from == b && m.success ==> m.matchIndex == 0)
    ensures Hushed(n, HandleSnapshotResponse(n, m), b)
  {
    hide RecordMatch, Idle, Mute;
    Quiet(n, b);
    if m.from in n.progress {
      var pr := n.progress[m.from].(pendingSnapshot := 0, snapshotTicks := 0);
      StartsAgain(n, m.from, b);
      OthersIdle(n, m.from, pr, b);
      var n1 := n.(progress := n.progress[m.from := pr]);
      if m.success {
        RecordHushed(n1, m.from, m.matchIndex, b);
        HushedOn(n, n1, RecordMatch(n1, m.from, m.matchIndex), b);
      }
    }
  }

  lemma StartsAgain(n: Node, from: NodeID, b: NodeID)
    requires Idle(n, b) && from in n.progress
    ensures from == b ==> AtStart(n.progress[from].(pendingSnapshot := 0, snapshotTicks := 0))
  {}

  lemma VoteRequestHushed(n: Node, m: Message, b: NodeID)
    requires m.VoteReq? && Idle(n, b) && n.role == Leader
    ensures Hushed(n, HandleVoteRequest(n, m), b)
  {
    hide CanVote, UpToDate, Members;
  }

  lemma DispatchHushed(n: Node, m: Message, b: NodeID)
    requires Sized(n) && Idle(n, b) && n.role == Leader
    requires (m.AppendResp? || m.SnapResp?) && m.from == b && m.success ==> m.matchIndex == 0
    ensures Hushed(n, Dispatch(n, m), b)
  {
    hide HandleVoteRequest, HandleAppendResponse, HandleSnapshotRequest, HandleSnapshotResponse, AcceptEntries;
    hide ConflictHint;
    hide MatchTerm, Idle, Mute;
    Quiet(n, b);
    if m.VoteReq? { VoteRequestHushed(n, m, b); }
    if m.AppendReq? { AcceptEntriesRole(FollowLeader(n, m), m); }
    if m.SnapReq? { SnapshotRole(n, m); }
    if m.AppendResp? { AppendResponseHushed(n, m, b); }
    if m.SnapResp? { SnapshotResponseHushed(n, m, b); }
  }

  lemma StepHushed(n: Node, m: Message, b: NodeID)
    requires Sized(n) && Idle(n, b) && n.role == Leader
    requires (m.AppendResp? || m.SnapResp?) && m.from == b && m.success && m.term == n.term ==> m.matchIndex == 0
    ensures Hushed(n, Step(n, m), b)
  {
    hide Dispatch, StepHigherTerm, StepLowerTerm, Idle, Mute;
    Quiet(n, b);
    LowerHushed(n, m, b);
    HigherCases(n, m);
    if m.term > n.term {
      var n1 := StepHigherTerm(n, m);
      if n1 != n {
        if !n1.fault { FollowerStays(n1, m); }
      } else {
        DispatchHushed(n, m, b);
      }
    } else if m.term == n.term {
      DispatchHushed(n, m, b);
    }
  }

  lemma HigherCases(n: Node, m: Message)
    requires Sized(n)
    ensures var r := StepHigherTerm(n, m); (r == n && (m.VoteReq? || m.VoteResp?)) || (Sized(r) && r.role == Follower)
  {}

  lemma LowerHushed(n: Node, m: Message, b: NodeID)
    requires Idle(n, b) && n.role == Leader
    ensures Hushed(n, StepLowerTerm(n, m), b)
  {
    hide Members;
  }

  // ---------------------------------------------------------------------------
  // Everything else
  // ---------------------------------------------------------------------------

  lemma TickHushed(n: Node, b: NodeID)
    requires Sized(n) && Idle(n, b) && n.role == Leader
    ensures Hushed(n, Tick(n), b)
  {
    hide SendAll, RetryReads, Idle, Mute, ExpirePendingSnapshots;
    var n1 := n.(heartbeatElapsed := n.heartbeatElapsed + 1, electionElapsed := n.electionElapsed + 1);
    TouchIdle(n, n1, b);
    var n2 := n1.(heartbeatElapsed := 0);
    TouchIdle(n, n2, b);
    var n3 := ExpirePendingSnapshots(n2);
    ExpireHushed(n2, b);
    SendAllHushed(n3, Peers(n3.conf, n3.id), 0, b);
    var n4 := BroadcastAppend(n3);
    RetryHushed(n4, n4.pendingReads, b);
    HushedOn(n, n2, n3, b);
    HushedOn(n, n3, n4, b);
    HushedOn(n, n4, RetryReads(n4, n4.pendingReads), b);
  }

  lemma ExpireHushed(n: Node, b: NodeID)
    requires Idle(n, b)
    ensures var r := ExpirePendingSnapshots(n); Idle(r, b) && Mute(n, r, b) && r.role == n.role
  {
    hide Members;
  }

  lemma ReadHushed(n: Node, id: nat, b: NodeID)
    requires Idle(n, b) && n.role == Leader
    ensures Hushed(n, ReadIndex(n, id), b)
  {
    hide Quorum, SendAll, Idle, Mute, ReadIndexError;
    Quiet(n, b);
    var req := ReadRequest(id, n.committed, {n.id});
    TouchIdle(n, n.(readStates := n.readStates + [ReadState(id, req.index)]), b);
    var n1 := n.(pendingReads := n.pendingReads + [req]);
    TouchIdle(n, n1, b);
    SendAllHushed(n1, Peers(n1.conf, n1.id), id, b);
    HushedOn(n, n1, SendAll(n1, Peers(n1.conf, n1.id), id), b);
  }

  lemma ChangeHushed(n: Node, target: Configuration, b: NodeID)
    requires Sized(n) && Idle(n, b) && n.role == Leader && b in n.progress
    ensures Hushed(n, ProposeConfChange(n, target), b)
  {
    hide Propose, CommittedInCurrentTerm, Idle, Mute;
    Quiet(n, b);
    if ConfChangeError(n, target).None? { ProposeHushed(n, ConfEntry(EnterJoint(n.conf, target).change), b); }
  }

  lemma CompactHushed(n: Node, image: seq<Entry>, b: NodeID)
    requires Idle(n, b) && n.role == Leader
    ensures Hushed(n, CreateSnapshot(n, image), b)
  {
    hide Members;
  }

  /** One step of a cluster in which `b` has nothing in its log. */
  lemma TurnHushed(h: Hist, c: Cluster, id: NodeID, e: Event, b: NodeID)
    requires ClusterOK(h, c) && Enabled(c, id, e) && c.members[id].node.role == Leader && Idle(c.members[id].node, b)
    requires b in c.members && c.members[b].node.log == [] && b in c.members[id].node.progress
    ensures Hushed(c.members[id].node, After(c.members[id], e).node, b)
  {
    hide OK, MsgOK, AppOK, SeqOK, Step, Tick, Campaign, Propose, ReadIndex, ProposeConfChange, CreateSnapshot, Restart;
    hide CleanInstall, CrashPoint, Consistent, Snapshots, EntriesToApply, Idle, Mute;
    var mem := c.members[id];
    var n := mem.node;
    assert MemberOK(h, id, mem) && MemberOK(h, b, c.members[b]);
    Quiet(n, b);
    match e {
      case Receives(m) =>
        NothingAcked(h, c.members[b].node, m);
        StepHushed(n, m, b);
      case Ticks => TickHushed(n, b);
      case Campaigns =>
      case Writes(bytes) => ProposeHushed(n, Command(bytes), b);
      case Reads => ReadHushed(n, mem.readSeq + 1, b);
      case Reconfigures(target) => ChangeHushed(n, target, b);
      case Sends => SentHushed(n, b);
      case Confirms => TouchIdle(n, n.(readStates := []), b);
      case Restores => TouchIdle(n, After(mem, e).node, b);
      case Applies(limit) => TouchIdle(n, After(mem, e).node, b);
      case Compacts => CompactHushed(n, mem.app, b);
      case Crashes(disk) => RestartRole(disk);
    }
  }

  /** A node with an empty log has never acknowledged anything. */
  lemma NothingAcked(h: Hist, f: Node, m: Message)
    requires OK(h, f) && f.log == [] && MsgOK(h, m)
    ensures (m.AppendResp? || m.SnapResp?) && m.from == f.id && m.success ==> m.matchIndex == 0
  {
    hide Consistent;
    Unpack(h, f);
  }

  lemma SentHushed(n: Node, b: NodeID)
    requires Idle(n, b) && n.role == Leader
    ensures Hushed(n, n.(msgs := []), b)
  {
    hide Members;
  }

  // ---------------------------------------------------------------------------
  // Whole runs
  // ---------------------------------------------------------------------------

  /** From `i` to `j`, `b` is a member with an empty log. */
  ghost predicate Empty(r: Run, i: nat, j: nat, b: NodeID) {
    forall k: nat {:trigger At(r, k, b)} :: i <= k <= j ==> At(r, k, b) && NodeAt(r, k, b).log == []
  }

  ghost predicate Tracks(r: Run, i: nat, j: nat, a: NodeID, b: NodeID) {
    forall k: nat {:trigger At(r, k, a)} :: i <= k <= j ==> At(r, k, a) && b in NodeAt(r, k, a).progress
  }

  /** Entries or a snapshot from `a` to `b` in a term, on their way or waiting to be sent. */
  ghost predicate Underway(r: Run, i: nat, a: NodeID, b: NodeID, t: Term, m: Message)
    requires At(r, i, a)
  {
    Feeds(m, b) && m.from == a && m.term == t && (m in r.states[i].net || m in NodeAt(r, i, a).msgs)
  }

  lemma StepStuck(boot: Configuration, r: Run, k: nat, a: NodeID, b: NodeID, t: Term, m: Message)
    requires IsRun(boot, r) && At(r, k, a) && At(r, k, b) && k < |r.who| && NodeAt(r, k, b).log == []
    requires NodeAt(r, k, a).role == Leader && Idle(NodeAt(r, k, a), b) && b in NodeAt(r, k, a).progress
    ensures At(r, k + 1, a)
    ensures NodeAt(r, k + 1, a).role == Leader ==>
              Idle(NodeAt(r, k + 1, a), b) && (Underway(r, k + 1, a, b, t, m) ==> Underway(r, k, a, b, t, m))
  {
    hide Init, Enabled, After, ClusterOK, Idle, Grows, Asked;
    var hs := Explained(boot, r);
    assert StepAt(r, k);
    if r.who[k] == a {
      TurnHushed(hs[k], r.states[k], a, r.what[k], b);
    } else {
      assert ExplainedAt(hs, r, k);
      if m in r.states[k].members[r.who[k]].node.msgs { OwnMessages(hs[k], r.states[k], r.who[k], m); }
    }
  }

  lemma OwnMessages(h: Hist, c: Cluster, id: NodeID, m: Message)
    requires ClusterOK(h, c) && id in c.members && m in c.members[id].node.msgs
    ensures m.from == id
  {
    assert MemberOK(h, id, c.members[id]);
    Unpack(h, c.members[id].node);
  }

  /** As long as a leader with a compacted log leads, tracks a follower from the first entry, and that follower's log
      stays empty, it goes on tracking it from the first entry, and neither entries nor a snapshot are ever sent. */
  lemma StuckForever(boot: Configuration, r: Run, i: nat, j: nat, a: NodeID, b: NodeID, m: Message)
    requires IsRun(boot, r) && |r.states| == |r.who| + 1 == |r.what| + 1 && i <= j < |r.states| && a != b
    requires Tracks(r, i, j, a, b) && Empty(r, i, j, b) && At(r, i, a) && At(r, j, a)
    requires NodeAt(r, i, a).role == Leader && NodeAt(r, j, a).role == Leader
             && NodeAt(r, i, a).term == NodeAt(r, j, a).term
    requires NodeAt(r, i, a).floor > 0 && AtStart(NodeAt(r, i, a).progress[b])
    ensures AtStart(NodeAt(r, j, a).progress[b])
    ensures var t := NodeAt(r, i, a).term; Underway(r, j, a, b, t, m) ==> Underway(r, i, a, b, t, m)
  {
    hide IsRun, Idle;
    StaysStuck(boot, r, i, j, a, b, m);
    Unidle(NodeAt(r, j, a), b);
  }

  lemma Unidle(n: Node, b: NodeID)
    requires Idle(n, b) && b in n.progress
    ensures AtStart(n.progress[b])
  {}

  lemma {:induction false} StaysStuck(boot: Configuration, r: Run, i: nat, j: nat, a: NodeID, b: NodeID, m: Message)
    requires IsRun(boot, r) && |r.states| == |r.who| + 1 == |r.what| + 1 && i <= j < |r.states| && a != b
    requires Tracks(r, i, j, a, b) && Empty(r, i, j, b) && At(r, i, a) && At(r, j, a)
    requires NodeAt(r, i, a).role == Leader && NodeAt(r, j, a).role == Leader
             && NodeAt(r, i, a).term == NodeAt(r, j, a).term
    requires NodeAt(r, i, a).floor > 0 && AtStart(NodeAt(r, i, a).progress[b])
    ensures Idle(NodeAt(r, j, a), b)
    ensures var t := NodeAt(r, i, a).term; Underway(r, j, a, b, t, m) ==> Underway(r, i, a, b, t, m)
    decreases j
  {
    hide IsRun, Idle, Underway;
    if i == j {
      AlwaysInOrder(boot, r, i, a);
      OwnName(boot, r, i, a);
      StartsIdle(NodeAt(r, i, a), b);
    } else {
      assert At(r, j - 1, a) && At(r, j - 1, b);
      StandsOnce(boot, r, i, j - 1, a);
      NeverBack(boot, r, i, j - 1, a);
      NeverBack(boot, r, j - 1, j, a);
      AlwaysLeadsItself(boot, r, j - 1, a);
      StepRoles(boot, r, j - 1, a);
      Sooner(r, i, j, a, b);
      StaysStuck(boot, r, i, j - 1, a, b, m);
      StepStuck(boot, r, j - 1, a, b, NodeAt(r, i, a).term, m);
    }
  }

  lemma Sooner(r: Run, i: nat, j: nat, a: NodeID, b: NodeID)
    requires i < j && Tracks(r, i, j, a, b) && Empty(r, i, j, b)
    ensures Tracks(r, i, j - 1, a, b) && Empty(r, i, j - 1, b)
  {
    forall k: nat | i <= k <= j - 1 ensures At(r, k, b) && NodeAt(r, k, b).log == [] { assert At(r, k, b); }
    forall k: nat | i <= k <= j - 1 ensures At(r, k, a) && b in NodeAt(r, k, a).progress { assert At(r, k, a); }
  }

  lemma StartsIdle(n: Node, b: NodeID)
    requires 0 < n.floor <= |n.log| && b != n.id && b in n.progress && AtStart(n.progress[b])
    ensures Idle(n, b)
  {}
}
