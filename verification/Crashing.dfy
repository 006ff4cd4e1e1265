/** What a crash can leave on a node's disk: every point between two durable writes. */
module Crashing {
  import opened Configurations
  import opened RaftTypes
  import opened RaftNode
  import opened History
  import opened HistoryGrowth
  import opened Invariant
  import opened Steady
  import opened StepSending
  import opened StepCommit
  import opened StepElection
  import opened StepReplication
  import opened StepSnapshot

  // ---------------------------------------------------------------------------
  // While following
  // ---------------------------------------------------------------------------

  function Adopted(n: Node, m: Message): Node { if m.term > n.term then StepHigherTerm(n, m) else n }

  /** While handling a message: the new term has been recorded, or entries or a snapshot have been written too. */
  ghost predicate Torn(n: Node, m: Message, disk: Node) {
    var n1 := Adopted(n, m);
    var n2 := FollowLeader(n1, m);
    || disk == n1
    || (&& m.AppendReq? && n2.committed <= m.prevIndex && MatchTerm(n2, m.prevIndex, m.prevTerm)
        && disk == AppendConflicting(n2, m.prevIndex, m.entries))
    || (&& m.SnapReq? && Installs(n2, m.snap) && disk == SaveSnapshot(n2, m.snap))
  }

  lemma TornOK(h: Hist, n: Node, m: Message, disk: Node)
    requires OK(h, n) && MsgOK(h, m) && m.to == n.id && m.term >= n.term && Torn(n, m, disk)
    ensures DiskOK(h, disk) && disk.id == n.id && disk.cfg == n.cfg
  {
    hide OK, Moves, MsgOK, DiskOK, Grows, StepHigherTerm, FollowLeader, AppendConflicting, SaveSnapshot, MatchTerm;
    hide SnapshotOK;
    TouchOK(h, n, n);
    if m.term > n.term { StepHigherTermOK(h, n, m); }
    var n1 := Adopted(n, m);
    MovesOK(h, n, h, n1);
    OKOnDisk(h, n1);
    if disk != n1 {
      var n2 := FollowLeader(n1, m);
      FollowLeaderOK(h, n1, m);
      MovesOK(h, n1, h, n2);
      SameTerm(n1, n2);
      if m.AppendReq? {
        TornAppendOK(h, n2, m);
      } else {
        SnapFacts(h, m);
        TornInstallOK(h, n2, m.snap);
      }
    }
  }

  // ---------------------------------------------------------------------------
  // While leading
  // ---------------------------------------------------------------------------

  /** The durable writes of a leader: an entry of its own, and its commit index. */
  datatype Write = Appends(p: Payload) | Advances

  function Wrote(n: Node, w: Write): Node {
    match w
    case Appends(p) => AppendOwn(n, p)
    case Advances => Persist(CommitTo(n, CommittedIndex(n.conf, Matched(n))))
  }

  ghost predicate MayWrite(n: Node, w: Write) {
    && n.role == Leader
    && match w
       case Appends(p) => MayAppend(n, p)
       case Advances =>
         CommittedIndex(n.conf, Matched(n)) > n.committed
           && TermOf(n, CommittedIndex(n.conf, Matched(n))) == Some(n.term)
  }

  function WroteAll(n: Node, ws: seq<Write>): Node
    decreases |ws|
  {
    if ws == [] then n else WroteAll(Wrote(n, ws[0]), ws[1..])
  }

  ghost predicate MayWriteAll(n: Node, ws: seq<Write>)
    decreases |ws|
  {
    ws == [] || (MayWrite(n, ws[0]) && MayWriteAll(Wrote(n, ws[0]), ws[1..]))
  }

  lemma WroteOK(h: Hist, n: Node, w: Write) returns (g: Hist)
    requires OK(h, n) && MayWrite(n, w)
    ensures Moves(h, n, g, Wrote(n, w)) && n.term <= Wrote(n, w).term
  {
    hide OK, Moves, AppendOwn, Persist, CommittedIndex, Matched, MayAppend;
    match w {
      case Appends(p) =>
        g := AppendOwnOK(h, n, p);
        OwnLog(n, p);
      case Advances =>
        g := AdvanceOK(h, n, CommittedIndex(n.conf, Matched(n)));
        AdvanceTerm(n, CommittedIndex(n.conf, Matched(n)));
    }
  }

  lemma AdvanceTerm(n: Node, i: Index)
    ensures Persist(CommitTo(n, i)).term == n.term
  {}

  lemma {:induction false} WroteAllOK(h: Hist, n: Node, ws: seq<Write>) returns (g: Hist)
    requires OK(h, n) && MayWriteAll(n, ws)
    ensures Moves(h, n, g, WroteAll(n, ws)) && n.term <= WroteAll(n, ws).term
    decreases |ws|
  {
    hide OK, Moves, Wrote, MayWrite;
    if ws == [] {
      g := h;
      TouchOK(h, n, n);
    } else {
      var n1 := Wrote(n, ws[0]);
      var k := WroteOK(h, n, ws[0]);
      MovesOK(h, n, k, n1);
      g := WroteAllOK(k, n1, ws[1..]);
      MovesTransitive(h, n, k, n1, g, WroteAll(n1, ws[1..]));
    }
  }

  /** Where a run of a leader's writes begins: with a proposal, with what a follower has acknowledged, or with
      a campaign that is stood for or won. */
  ghost predicate Begun(net: set<Message>, n: Node, s: Node) {
    || s == n
    || (n.role == Leader && exists m :: m in net && Acknowledges(n, m) && s == WithMatch(n, m.from, m.matchIndex))
    || (exists c ::
      Candidacy(net, n, c) && (s == c || (c.role == Candidate && Quorum(c.conf, Granted(c)) && s == Crowned(c))))
  }

  predicate Acknowledges(n: Node, m: Message) {
    (m.AppendResp? || m.SnapResp?) && m.success && m.to == n.id && m.term == n.term && m.from in n.progress
  }

  /** A node with its own vote, or with one more. */
  ghost predicate Candidacy(net: set<Message>, n: Node, c: Node) {
    || (n.role != Leader && n.conf.IsVoter(n.id) && c == RecordVote(Stand(n, false), n.id, true))
    || (n.role == Candidate && exists m :: m in net && m.VoteResp? && !m.preVote && m.to == n.id && m.term == n.term
                                           && c == RecordVote(n, m.from, m.granted))
  }

  lemma CandidacyOK(h: Hist, net: set<Message>, n: Node, c: Node) returns (g: Hist)
    requires OK(h, n) && Candidacy(net, n, c) && forall m :: m in net ==> MsgOK(h, m)
    ensures Moves(h, n, g, c) && n.term <= c.term
  {
    hide OK, Moves, MsgOK, Stand;
    StandOnward(n, false);
    if n.role != Leader && n.conf.IsVoter(n.id) && c == RecordVote(Stand(n, false), n.id, true) {
      g := StandOK(h, n, false);
    } else {
      g := h;
      var m :| m in net && m.VoteResp? && !m.preVote && m.to == n.id && m.term == n.term
        && c == RecordVote(n, m.from, m.granted);
      RecordVoteOK(h, n, m);
    }
  }

  lemma BegunOK(h: Hist, net: set<Message>, n: Node, s: Node) returns (g: Hist)
    requires OK(h, n) && Begun(net, n, s) && forall m :: m in net ==> MsgOK(h, m)
    ensures Moves(h, n, g, s) && n.term <= s.term
  {
    hide OK, Moves, MsgOK, Candidacy, Crowned, WithMatch, Quorum, Granted;
    g := h;
    if s == n {
      TouchOK(h, n, n);
    } else if n.role == Leader && exists m ::
      m in net && Acknowledges(n, m) && s == WithMatch(n, m.from, m.matchIndex) {
      var m :| m in net && Acknowledges(n, m) && s == WithMatch(n, m.from, m.matchIndex);
      AckedFacts(h, m);
      WithMatchOK(h, n, m.from, m.matchIndex);
      MatchTermSame(n, m.from, m.matchIndex);
    } else {
      var c :| Candidacy(net, n, c) && (s == c
        || (c.role == Candidate && Quorum(c.conf, Granted(c)) && s == Crowned(c)));
      g := CandidacyOK(h, net, n, c);
      if s != c {
        MovesOK(h, n, g, c);
        var k := CrownedOK(g, c);
        MovesTransitive(h, n, g, c, k, s);
        CrownedTerm(c);
        g := k;
      }
    }
  }

  lemma AckedFacts(h: Hist, m: Message)
    requires MsgOK(h, m) && (m.AppendResp? || m.SnapResp?) && m.success
    ensures m.matchIndex <= Acked(h, m.from, m.term)
  {}

  lemma MatchTermSame(n: Node, from: NodeID, i: Index)
    requires from in n.progress
    ensures WithMatch(n, from, i).term == n.term
  {}

  lemma CrownedTerm(n: Node)
    ensures Crowned(n).term == n.term
  {}

  // ---------------------------------------------------------------------------
  // At any moment
  // ---------------------------------------------------------------------------

  /** A snapshot is taken only when the configuration in force is that of the entries it covers. */
  ghost predicate MaySnapshot(n: Node) {
    n.toRestore.None? && (Snapshots(n) ==> ConfOf(n.cfg.boot, n.log[..n.applied]) == n.conf)
  }

  /** What may be on disk when a node goes down. `app` is what its state machine holds. */
  ghost predicate CrashPoint(net: set<Message>, n: Node, app: seq<Entry>, disk: Node) {
    || disk == n
    || (exists m :: m in net && m.to == n.id && m.term >= n.term && Torn(n, m, disk))
    || (exists s, ws :: Begun(net, n, s) && MayWriteAll(s, ws) && disk == WroteAll(s, ws))
    || (MaySnapshot(n) && Snapshots(n)
      && disk == n.(snap := Snapshot(n.applied, n.log[n.applied - 1].term, n.conf, app)))
  }

  lemma CrashOK(h: Hist, net: set<Message>, n: Node, app: seq<Entry>, disk: Node) returns (g: Hist)
    requires OK(h, n) && CrashPoint(net, n, app, disk) && forall m :: m in net ==> MsgOK(h, m)
    requires n.toRestore.None? ==> n.applied <= |n.log| && app == n.log[..n.applied]
    ensures DiskOK(g, disk) && Grows(h, g, n.id) && g.barriers == h.barriers && disk.id == n.id && disk.cfg == n.cfg
    ensures n.term <= disk.hard.term
  {
    hide OK, MsgOK, DiskOK, Grows, Moves, Torn, Begun, MayWriteAll, WroteAll, Snapshots;
    GrowsReflexive(h, n.id);
    HardTerm(h, n);
    g := h;
    if disk == n {
      OKOnDisk(h, n);
    } else if m :| m in net && m.to == n.id && m.term >= n.term && Torn(n, m, disk) {
      TornOK(h, n, m, disk);
      TornHard(n, m, disk);
    } else if s, ws :| Begun(net, n, s) && MayWriteAll(s, ws) && disk == WroteAll(s, ws) {
      var k := BegunOK(h, net, n, s);
      MovesOK(h, n, k, s);
      g := WroteAllOK(k, s, ws);
      MovesTransitive(h, n, k, s, g, disk);
      MovesOK(h, n, g, disk);
      OKOnDisk(g, disk);
      HardTerm(g, disk);
    } else {
      TornSnapshotOK(h, n, app);
    }
  }

  lemma TornSnapshotOK(h: Hist, n: Node, app: seq<Entry>)
    requires OK(h, n) && Snapshots(n) && ConfOf(n.cfg.boot, n.log[..n.applied]) == n.conf && app == n.log[..n.applied]
    ensures DiskOK(h, n.(snap := Snapshot(n.applied, n.log[n.applied - 1].term, n.conf, app)))
  {
    hide OK, NodeOK, Consistent, LogPart, AckPart, Settled, VotePart, CandPart, CandidatePart, LeaderPart, ReadPart;
    hide MsgsPart;
    Unpack(h, n);
    SettledBelow(h, n.log, n.committed, if n.hard.commit <= n.applied then n.applied else n.hard.commit, n.term);
  }

  lemma HardTerm(h: Hist, n: Node)
    requires OK(h, n)
    ensures n.hard.term == n.term
  {}

  lemma TornHard(n: Node, m: Message, disk: Node)
    requires n.hard.term == n.term <= m.term && Torn(n, m, disk)
    ensures disk.hard.term >= n.term
  {
    hide AppendConflicting, CoversSnapshot, MatchTerm, FollowLeader, Adopted;
    AdoptedHard(n, m);
    if m.AppendReq? { WrittenShape(FollowLeader(Adopted(n, m), m), m.prevIndex, m.entries); }
  }

  lemma AdoptedHard(n: Node, m: Message)
    requires n.hard.term == n.term <= m.term
    ensures Adopted(n, m).hard.term >= n.term && FollowLeader(Adopted(n, m), m).hard == Adopted(n, m).hard
  {
    hide BecomeFollower;
    FollowerShape(n, m.term, if m.AppendReq? || m.SnapReq? then m.from else NONE);
    FollowerShape(Adopted(n, m).(electionElapsed := 0), m.term, m.from);
  }
}
