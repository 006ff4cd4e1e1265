/** Snapshots are taken, sent and installed; nodes restart from what is on disk. */
module StepSnapshot {
  import opened Configurations
  import opened RaftTypes
  import opened RaftNode
  import opened History
  import opened HistoryGrowth
  import opened Invariant
  import opened StepSending
  import opened StepCommit
  import opened StepReplication

  // ---------------------------------------------------------------------------
  // Installing
  // ---------------------------------------------------------------------------

  /** Would the snapshot be installed, rather than answered from what the node has committed already? */
  predicate Installs(n: Node, snap: Snapshot) { n.committed < snap.lastIndex && n.snap.lastIndex < snap.lastIndex }

  /** An installation that keeps entries above the snapshot keeps no configuration entry among them. */
  predicate CleanInstall(n: Node, snap: Snapshot) {
    Installs(n, snap) && CoversSnapshot(n, snap) ==> LastConfIndex(n.log) <= snap.lastIndex
  }

  /** A log that does not reach the boundary of a leader's snapshot with the right term parts ways with
      that leader's log somewhere before the boundary. */
  lemma DivergesBelow(h: Hist, log: seq<Entry>, lead: seq<Entry>, s: Index) returns (c: Index)
    requires GoodLog(h, log) && GoodLog(h, lead) && s <= |lead|
    requires |log| < s || TermAt(log, s) != TermAt(lead, s)
    ensures c <= s && Diverge(log, lead, c)
  {
    var d := CommonLength(log, lead);
    assert 0 < s <= d ==> log[..d][s - 1] == lead[..d][s - 1];
    c := d + 1;
    if c <= |log| && log[c - 1].term == lead[c - 1].term { LogsMatch(h, log, lead, c); }
  }

  /** The log after an installation holds the leader's log up to the boundary and keeps every promise. */
  lemma InstalledLog(h: Hist, n: Node, snap: Snapshot)
    requires OK(h, n) && n.term in h.reigns && SnapshotOK(h, snap, n.term) && Installs(n, snap)
    ensures var r := SaveSnapshot(n, snap);
            && r == n.(snap := snap, log := r.log, floor := r.floor)
            && LogPart(h, r.log, n.term) && AckPart(h, n.id, n.term, r.log)
            && snap.lastIndex <= |r.log| && r.floor <= snap.lastIndex
            && r.log[..snap.lastIndex] == snap.image == h.reigns[n.term].log[..snap.lastIndex]
            && (if CoversSnapshot(n, snap) then r.log == n.log else r.log == snap.image)
  {
    hide OK, NodeOK, Consistent, LogPart, AckPart, Settled, GoodLog, VotePart, CandPart, CandidatePart, LeaderPart;
    hide ConfPart, ReadPart, MsgsPart, SnapPart;
    Unpack(h, n);
    var lead := h.reigns[n.term].log;
    GoodLeader(h, n.term);
    GoodOwn(h, n);
    if CoversSnapshot(n, snap) {
      LogsMatch(h, n.log, lead, snap.lastIndex);
    } else {
      var c := DivergesBelow(h, n.log, lead, snap.lastIndex);
      KeptAfterOverwrite(h, n.id, n.term, n.log, c, snap.lastIndex);
      LeaderPrefix(h, n.term, snap.lastIndex);
    }
  }

  lemma LeaderPrefix(h: Hist, t: Term, i: Index)
    requires Consistent(h) && t in h.reigns && i <= |h.reigns[t].log|
    ensures LogPart(h, h.reigns[t].log[..i], t)
  {
    var lead := h.reigns[t].log;
    assert ReignOK(h, t);
    GoodPrefix(h, lead, i);
    forall k | 0 <= k < i ensures lead[..i][k].term < t + 1 { ReignTerms(h, t, k); }
  }

  /** The configuration a snapshot carries is the one in force after installing it. */
  lemma InstalledConf(h: Hist, n: Node, snap: Snapshot, r: Node)
    requires OK(h, n) && n.term in h.reigns && SnapshotOK(h, snap, n.term) && Installs(n, snap) && CleanInstall(n, snap)
    requires r.log == SaveSnapshot(n, snap).log
    ensures !snap.config.IsEmpty() && ConfPart(h.boot, r.log, snap.config, snap.lastIndex, snap.lastIndex)
  {
    InstalledLog(h, n, snap);
    hide OK, NodeOK, Consistent, LogPart, AckPart, Settled;
    Unpack(h, n);
    GoodOf(h, r.log, n.term);
    GoodPrefix(h, r.log, snap.lastIndex);
    NotEmptyOnceLed(h, n.term, snap.image);
    if CoversSnapshot(n, snap) { ConfOfCut(h.boot, r.log, snap.lastIndex); }
  }

  function Installed(n: Node, snap: Snapshot): Node {
    var n1 := SaveSnapshot(n, snap).(committed := snap.lastIndex, applied := snap.lastIndex);
    var n2 := if snap.config.IsEmpty() then n1 else SetConfiguration(n1, snap.config, snap.lastIndex);
    Persist(n2.(toRestore := Some(snap)))
  }

  lemma InstalledShape(h: Hist, n: Node, snap: Snapshot)
    requires OK(h, n) && n.role == Follower && n.term in h.reigns && SnapshotOK(h, snap, n.term)
    requires Installs(n, snap) && !snap.config.IsEmpty()
    ensures var r, s := Installed(n, snap), SaveSnapshot(n, snap);
            && r == n.(snap := snap, log := s.log, floor := s.floor, committed := snap.lastIndex,
              applied := snap.lastIndex,
                       conf := snap.config, confIndex := snap.lastIndex, toRestore := Some(snap),
                       hard := HardState(n.term, n.vote, snap.lastIndex))
            && DiskPart(h.boot, r.hard, r.term, r.vote, r.log, r.floor, r.snap, r.applied, r.committed)
            && Settled(h, r.log, r.committed, r.term) && Held(h, r.term, snap.lastIndex, r.log)
  {
    hide OK, NodeOK, Consistent, LogPart, AckPart, Settled, VotePart, CandPart, CandidatePart, LeaderPart, ConfPart;
    hide ReadPart, MsgsPart, CoversSnapshot;
    Unpack(h, n);
    InstalledLog(h, n, snap);
    var s := SaveSnapshot(n, snap);
    SettledExtends(h, h.reigns[n.term].log, s.log, snap.lastIndex, n.term, n.term);
    HeldPrefix(h, n.term, snap.lastIndex, s.log);
    if snap.lastIndex > 0 { assert s.log[snap.lastIndex - 1] == s.log[..snap.lastIndex][snap.lastIndex - 1]; }
  }

  lemma InstalledOK(h: Hist, n: Node, snap: Snapshot)
    requires OK(h, n) && n.role == Follower && n.term in h.reigns && SnapshotOK(h, snap, n.term)
    requires Installs(n, snap) && CleanInstall(n, snap)
    ensures Moves(h, n, h, Installed(n, snap)) && Held(h, n.term, snap.lastIndex, Installed(n, snap).log)
    ensures Installed(n, snap).role == Follower && Installed(n, snap).term == n.term
  {
    hide *;
    Unpack(h, n);
    InstalledLog(h, n, snap);
    InstalledConf(h, n, snap, SaveSnapshot(n, snap));
    InstalledShape(h, n, snap);
    GrowsReflexive(h, n.id);
    Pack(h, n, h, Installed(n, snap));
  }

  /** Acknowledging a snapshot. */
  lemma SnapReplyOK(h: Hist, n: Node, to: NodeID, i: Index) returns (g: Hist)
    requires OK(h, n) && n.role == Follower && n.term in h.reigns && Held(h, n.term, i, n.log) && to != n.id
    ensures Moves(h, n, g, Send(n, SnapResp(n.id, to, n.term, true, i)))
  {
    hide OK, NodeOK, Consistent, Grows, Moves, Held, Acked;
    OKFacts(h, n);
    g := AcknowledgeOK(h, n, i);
    SendMoves(h, n, g, n, SnapResp(n.id, to, n.term, true, i));
  }

  lemma SnapFacts(h: Hist, m: Message)
    requires MsgOK(h, m) && m.SnapReq?
    ensures m.term in h.reigns && SnapshotOK(h, m.snap, m.term) && m.from != m.to
  {}

  lemma HandleSnapshotRequestOK(h: Hist, n: Node, m: Message) returns (g: Hist)
    requires OK(h, n) && MsgOK(h, m) && m.SnapReq? && m.to == n.id && m.term == n.term && CleanInstall(n, m.snap)
    ensures Moves(h, n, g, HandleSnapshotRequest(n, m))
  {
    hide OK, Moves, MsgOK, FollowLeader, SameCore, SaveSnapshot, SetConfiguration, Persist, SnapshotOK, Held;
    hide CoversSnapshot;
    var n1 := FollowLeader(n, m);
    FollowLeaderOK(h, n, m);
    MovesOK(h, n, h, n1);
    SnapFacts(h, m);
    SameInstall(n, n1, m.snap);
    if !Installs(n1, m.snap) {
      CommittedHeld(h, n1);
      g := SnapReplyOK(h, n1, m.from, n1.committed);
      MovesTransitive(h, n, h, n1, g, HandleSnapshotRequest(n, m));
    } else {
      var n2 := Installed(n1, m.snap);
      InstalledOK(h, n1, m.snap);
      MovesOK(h, n1, h, n2);
      OKFacts(h, n2);
      g := SnapReplyOK(h, n2, m.from, m.snap.lastIndex);
      MovesTransitive(h, n, h, n1, h, n2);
      MovesTransitive(h, n, h, n2, g, HandleSnapshotRequest(n, m));
    }
  }

  lemma SameInstall(n: Node, r: Node, snap: Snapshot)
    requires SameCore(n, r)
    ensures r.term == n.term && r.id == n.id && (CleanInstall(n, snap) ==> CleanInstall(r, snap))
  {}

  lemma CommittedHeld(h: Hist, n: Node)
    requires OK(h, n) && n.term in h.reigns
    ensures Held(h, n.term, n.committed, n.log)
  {
    hide OK;
    Unpack(h, n);
    SettledInLeader(h, n.log, n.committed, n.term);
  }

  lemma HandleSnapshotResponseOK(h: Hist, n: Node, m: Message) returns (g: Hist)
    requires OK(h, n) && MsgOK(h, m) && m.SnapResp? && m.to == n.id && m.term == n.term
    ensures Moves(h, n, g, HandleSnapshotResponse(n, m))
  {
    hide OK, Moves, RecordMatch, Sized, Acked;
    OKFacts(h, n);
    TouchOK(h, n, n);
    g := h;
    if n.role == Leader && m.from in n.progress {
      var n1 := n.(progress := n.progress[m.from := n.progress[m.from].(pendingSnapshot := 0, snapshotTicks := 0)]);
      ProgressFacts(h, n);
      ProgressOK(h, n, n1);
      MovesOK(h, n, h, n1);
      OKFacts(h, n1);
      if m.success {
        g := RecordMatchOK(h, n1, m.from, m.matchIndex);
        MovesTransitive(h, n, h, n1, g, RecordMatch(n1, m.from, m.matchIndex));
      }
    }
  }

  // ---------------------------------------------------------------------------
  // Taking
  // ---------------------------------------------------------------------------

  /** Would a snapshot be taken? */
  predicate Snapshots(n: Node) {
    n.applied != 0 && n.applied <= |n.log| && TermOf(n, n.applied).Some? && n.snap.lastIndex < n.applied
  }

  /** A snapshot carries the configuration of what it covers, if that is the configuration in force. */
  lemma CreatedShape(h: Hist, n: Node, image: seq<Entry>)
    requires OK(h, n) && n.applied <= |n.log| && image == n.log[..n.applied]
    requires Snapshots(n) ==> ConfOf(h.boot, image) == n.conf
    ensures var r := CreateSnapshot(n, image);
            && r == n.(snap := r.snap, floor := r.floor)
            && DiskPart(h.boot, r.hard, r.term, r.vote, r.log, r.floor, r.snap, r.applied, r.committed)
            && ConfPart(h.boot, r.log, r.conf, r.confIndex, r.snap.lastIndex)
  {
    hide OK, NodeOK, Consistent, LogPart, AckPart, Settled, VotePart, CandPart, CandidatePart, LeaderPart, ReadPart;
    hide MsgsPart;
    Unpack(h, n);
  }

  lemma CreateSnapshotOK(h: Hist, n: Node, image: seq<Entry>)
    requires OK(h, n) && n.applied <= |n.log| && image == n.log[..n.applied]
    requires Snapshots(n) ==> ConfOf(h.boot, image) == n.conf
    ensures Moves(h, n, h, CreateSnapshot(n, image))
  {
    hide *;
    CreatedShape(h, n, image);
    Unpack(h, n);
    GrowsReflexive(h, n.id);
    Pack(h, n, h, CreateSnapshot(n, image));
  }

  // ---------------------------------------------------------------------------
  // Restarting
  // ---------------------------------------------------------------------------

  /** What a node needs on disk to come back: its term and vote, its log and its snapshot, of any moment. */
  ghost predicate DiskOK(h: Hist, n: Node) {
    && Consistent(h) && Normal(h.boot) && n.id != NONE && n.cfg.boot == h.boot
    && LogPart(h, n.log, n.hard.term) && VotePart(h, n.id, n.hard.term, n.hard.vote) && CandPart(h, n.id, n.hard.term)
    && AckPart(h, n.id, n.hard.term, n.log)
    && n.floor <= n.snap.lastIndex <= |n.log| && SnapPart(h.boot, n.snap, n.log)
    && n.hard.commit <= |n.log|
    && Settled(h, n.log, RecoveredCommit(n), n.hard.term)
  }

  function RecoveredCommit(n: Node): Index {
    if n.hard.commit <= n.snap.lastIndex then n.snap.lastIndex else n.hard.commit
  }

  lemma OKOnDisk(h: Hist, n: Node)
    requires OK(h, n)
    ensures DiskOK(h, n)
  {
    hide OK, NodeOK, Consistent, LogPart, AckPart, Settled, VotePart, CandPart, CandidatePart, LeaderPart, ConfPart;
    hide ReadPart, MsgsPart, SnapPart;
    Unpack(h, n);
    SettledBelow(h, n.log, n.committed, RecoveredCommit(n), n.term);
  }

  lemma RestartShape(n: Node)
    requires n.hard.commit <= |n.log| && n.snap.lastIndex <= |n.log|
    ensures var r := Restart(n);
            && r.id == n.id && r.cfg == n.cfg && !r.fault && r.log == n.log && r.floor == n.floor && r.snap == n.snap
            && r.term == n.hard.term && r.vote == n.hard.vote && r.role == Follower && r.msgs == []
            && r.pendingReads == [] && r.readStates == [] && r.applied == n.snap.lastIndex && r.toRestore.None?
            && r.committed == RecoveredCommit(n) && r.hard == n.hard
            && (r.conf, r.confIndex) == Rescan(n)
  {
    hide LastConfIndex;
  }

  /** A node that restarts from such a disk is in order, and has forgotten nothing it promised. */
  lemma RestartOK(h: Hist, n: Node)
    requires DiskOK(h, n)
    ensures Moves(h, n, h, Restart(n))
  {
    hide OK, NodeOK, Consistent, LogPart, AckPart, Settled, VotePart, CandPart, CandidatePart, LeaderPart, ReadPart;
    hide MsgsPart, Moves, Grows, Restart, Rescan, SnapPart;
    var r := Restart(n);
    RestartShape(n);
    GrowsReflexive(h, n.id);
    GoodOf(h, n.log, n.hard.term);
    RescanIsFull(h, n);
    ReadsGone(h, r.term);
    NoMessages(h, n.id);
    Pack(h, n, h, r);
  }

  lemma NoMessages(h: Hist, id: NodeID)
    ensures MsgsPart(h, id, [])
  {}

  /** A crash after the entries of a message were written, before anything else was. */
  lemma TornAppendOK(h: Hist, n: Node, m: Message)
    requires OK(h, n) && n.role == Follower && MsgOK(h, m) && m.AppendReq? && m.to == n.id && m.term == n.term
    requires n.committed <= m.prevIndex && MatchTerm(n, m.prevIndex, m.prevTerm)
    ensures var d := AppendConflicting(n, m.prevIndex, m.entries);
            DiskOK(h, d) && d.id == n.id && d.cfg == n.cfg
  {
    hide OK, NodeOK, Consistent, LogPart, AckPart, Settled, VotePart, CandPart, CandidatePart, LeaderPart, ReadPart;
    hide MsgsPart, Moves, Grows, SnapPart, AppendConflicting, MsgOK, EntriesOK, GoodLog, Replaced, MatchTerm;
    Unpack(h, n);
    PrefixMatches(h, n, m);
    EntriesFacts(h, m);
    var lead, lo, hi := h.reigns[n.term].log, m.prevIndex, m.prevIndex + |m.entries|;
    GoodLeader(h, n.term);
    GoodOwn(h, n);
    AppendConflictingMeans(h, n, lead, lo, hi);
    var d := AppendConflicting(n, lo, lead[lo..hi]);
    LogAfterReplace(h, n.id, n.term, n.log, lo, hi, d.log);
    SettledAfterReplace(h, n.term, n.log, lo, hi, d.log, n.committed, m.commit);
    SettledBelow(h, d.log, n.committed, RecoveredCommit(d), n.term);
    LongEnough(n.log, lead, lo, hi, d.log);
    SnapAfterReplace(h.boot, n.snap, n.log, d.log, lo);
  }

  lemma LongEnough(log: seq<Entry>, lead: seq<Entry>, lo: Index, hi: Index, more: seq<Entry>)
    requires Replaced(log, lead, lo, hi, more)
    ensures hi <= |more|
  {}

  /** A crash after a snapshot was saved, before the hard state caught up with it. */
  lemma TornInstallOK(h: Hist, n: Node, snap: Snapshot)
    requires OK(h, n) && n.term in h.reigns && SnapshotOK(h, snap, n.term) && Installs(n, snap)
    ensures DiskOK(h, SaveSnapshot(n, snap)) && SaveSnapshot(n, snap).id == n.id && SaveSnapshot(n, snap).cfg == n.cfg
  {
    hide OK, NodeOK, Consistent, LogPart, AckPart, Settled, VotePart, CandPart, CandidatePart, LeaderPart, ConfPart;
    hide ReadPart, MsgsPart, SaveSnapshot, CoversSnapshot;
    Unpack(h, n);
    InstalledLog(h, n, snap);
    var s := SaveSnapshot(n, snap);
    SettledExtends(h, h.reigns[n.term].log, s.log, snap.lastIndex, n.term, n.term);
    assert s.log[snap.lastIndex - 1] == s.log[..snap.lastIndex][snap.lastIndex - 1];
  }
}
