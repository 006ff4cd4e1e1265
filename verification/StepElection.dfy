/** Campaigning, voting and winning. */
module StepElection {
  import opened Configurations
  import opened RaftTypes
  import opened RaftNode
  import opened History
  import opened HistoryGrowth
  import opened Invariant
  import opened StepSending
  import opened StepCommit

  // ---------------------------------------------------------------------------
  // Voting
  // ---------------------------------------------------------------------------

  /** The first vote of a term is recorded together with the log it was cast with. */
  lemma FirstVoteOK(h: Hist, n: Node, m: Message) returns (g: Hist)
    requires OK(h, n) && MsgOK(h, m) && m.VoteReq? && !m.preVote && m.to == n.id && m.term == n.term
    requires n.vote == NONE && UpToDate(m.lastIndex, m.lastTerm, n.log)
    ensures Moves(h, n, g, Persist(n.(vote := m.from, electionElapsed := 0)))
    ensures Key(n.id, n.term) in g.ballots && g.ballots[Key(n.id, n.term)].cand == m.from
  {
    hide *;
    Unpack(h, n);
    g := VoteRecorded(h, n, m);
    VoteShape(h, n, m);
    StableParts(h, g, n);
    RolesStay(h, g, n);
    Pack(h, n, g, Persist(n.(vote := m.from, electionElapsed := 0)));
  }

  lemma VoteRecorded(h: Hist, n: Node, m: Message) returns (g: Hist)
    requires OK(h, n) && MsgOK(h, m) && m.VoteReq? && !m.preVote && m.to == n.id && m.term == n.term
    requires n.vote == NONE && UpToDate(m.lastIndex, m.lastTerm, n.log)
    ensures Consistent(g) && Grows(h, g, n.id) && g.reigns == h.reigns && g.commits == h.commits
            && g.barriers == h.barriers
    ensures forall t: Term :: Acked(g, n.id, t) == Acked(h, n.id, t)
    ensures VotePart(g, n.id, n.term, m.from) && CandPart(g, n.id, n.term)
    ensures Key(n.id, n.term) in g.ballots && g.ballots[Key(n.id, n.term)].cand == m.from
  {
    KeptAllWidens(h, n.id, n.term + 1, n.term + 1, n.term, n.term + 1, n.log);
    BallotRecorded(h, n.id, n.term, m.from, n.log);
    g := WithBallot(h, n.id, n.term, m.from, n.log);
  }

  lemma VoteShape(h: Hist, n: Node, m: Message)
    requires OK(h, n) && n.vote == NONE
    ensures var r := Persist(n.(vote := m.from, electionElapsed := 0));
            && r == n.(vote := m.from, electionElapsed := 0, hard := HardState(n.term, m.from, n.committed))
            && DiskPart(h.boot, r.hard, r.term, r.vote, r.log, r.floor, r.snap, r.applied, r.committed)
    ensures n.role != Candidate
  {}

  lemma HandleVoteRequestOK(h: Hist, n: Node, m: Message) returns (g: Hist)
    requires OK(h, n) && MsgOK(h, m) && m.VoteReq? && m.to == n.id && (m.term == n.term || m.preVote)
    ensures Moves(h, n, g, HandleVoteRequest(n, m))
  {
    hide OK, NodeOK, Consistent, Grows, Moves, MsgOK, UpToDate;
    Unpack(h, n);
    hide VotePart, CandPart, AckPart, LogPart, Settled, LeaderPart, CandidatePart, ConfPart, ReadPart, MsgsPart;
    g := h;
    GrowsReflexive(h, n.id);
    TouchOK(h, n, n);
    var granted := CanVote(n, m) && UpToDate(m.lastIndex, m.lastTerm, n.log);
    var n1 := n;
    if granted && !m.preVote {
      n1 := Persist(n.(vote := m.from, electionElapsed := 0));
      if n.vote == NONE {
        g := FirstVoteOK(h, n, m);
      } else {
        VotedBefore(h, n);
        var n0 := n.(electionElapsed := 0);
        TouchOK(h, n, n0);
        MovesOK(h, n, h, n0);
        PersistOK(h, n0);
        MovesTransitive(h, n, h, n0, h, n1);
      }
    }
    var t := if m.preVote && granted then m.term else n.term;
    MovesOK(h, n, g, n1);
    MsgGrows(h, g, n.id, m);
    VoteRespOK(g, n1, m, t, granted);
    SendMoves(h, n, g, n1, VoteResp(n.id, m.from, t, m.preVote, granted));
  }

  lemma VotedBefore(h: Hist, n: Node)
    requires OK(h, n) && n.vote != NONE
    ensures Key(n.id, n.term) in h.ballots && h.ballots[Key(n.id, n.term)].cand == n.vote
  {}

  lemma VoteRespOK(h: Hist, n: Node, m: Message, t: Term, granted: bool)
    requires n.id == m.to && n.id != NONE && m.VoteReq? && MsgOK(h, m)
    requires granted && !m.preVote ==> Key(n.id, t) in h.ballots && h.ballots[Key(n.id, t)].cand == m.from
    ensures MsgOK(h, VoteResp(n.id, m.from, t, m.preVote, granted))
  {}

  // ---------------------------------------------------------------------------
  // Standing
  // ---------------------------------------------------------------------------

  lemma BecomeCandidateOK(h: Hist, n: Node) returns (g: Hist)
    requires OK(h, n) && n.role != Leader && n.conf.IsVoter(n.id)
    ensures Moves(h, n, g, RecordVote(Persist(BecomeCandidate(n)), n.id, true))
  {
    hide *;
    Unpack(h, n);
    var t := n.term + 1;
    g := CampaignBegins(h, n, t);
    CandidateParts(h, g, n, t);
    CandidateShape(h, n);
    ReadsGone(g, t);
    Pack(h, n, g, RecordVote(Persist(BecomeCandidate(n)), n.id, true));
  }

  lemma CandidateShape(h: Hist, n: Node)
    requires OK(h, n) && n.role != Leader
    ensures var r := RecordVote(Persist(BecomeCandidate(n)), n.id, true);
            && r == n.(term := n.term + 1, vote := n.id, role := Candidate, votes := map[n.id := true],
                       hard := HardState(n.term + 1, n.id, n.committed), pendingReads := [], readStates := [],
                       lead := r.lead, progress := r.progress, timeout := r.timeout, draws := r.draws,
                       electionElapsed := r.electionElapsed, heartbeatElapsed := r.heartbeatElapsed)
            && DiskPart(h.boot, r.hard, r.term, r.vote, r.log, r.floor, r.snap, r.applied, r.committed)
  {}

  lemma CampaignBegins(h: Hist, n: Node, t: Term) returns (g: Hist)
    requires OK(h, n) && t == n.term + 1
    ensures Consistent(g) && Grows(h, g, n.id) && g.barriers == h.barriers
    ensures forall u: Term :: Acked(g, n.id, u) == Acked(h, n.id, u)
    ensures VotePart(g, n.id, t, n.id) && CandPart(g, n.id, t)
    ensures CandidatePart(g, n.id, t, n.id, n.log, map[n.id := true])
  {
    hide *;
    MayCampaign(h, n, t);
    CampaignRecorded(h, n.id, t, n.log);
    g := WithCampaign(h, n.id, t, n.log);
    CampaignVotes(h, n, t);
  }

  lemma MayCampaign(h: Hist, n: Node, t: Term)
    requires OK(h, n) && t == n.term + 1
    ensures Consistent(h) && Key(n.id, t) !in h.cands && Key(n.id, t) !in h.ballots
    ensures GoodLog(h, n.log) && Below(n.log, t) && KeptAll(h, n.id, t, t, n.log)
  {}

  lemma CampaignVotes(h: Hist, n: Node, t: Term)
    requires OK(h, n) && t == n.term + 1
    ensures var g := WithCampaign(h, n.id, t, n.log);
            && g.barriers == h.barriers
            && (forall u: Term :: Acked(g, n.id, u) == Acked(h, n.id, u))
            && VotePart(g, n.id, t, n.id) && CandPart(g, n.id, t)
            && CandidatePart(g, n.id, t, n.id, n.log, map[n.id := true])
  {
    hide OK, NodeOK, Consistent, LogPart, AckPart, Settled, DiskPart, ConfPart, ReadPart, MsgsPart, LeaderPart;
    Unpack(h, n);
    NotYetCrowned(h, n, t);
  }

  lemma NotYetCrowned(h: Hist, n: Node, t: Term)
    requires OK(h, n) && t == n.term + 1
    ensures t in h.reigns ==> h.reigns[t].leader != n.id
  {
    assert t in h.reigns ==> ReignOK(h, t);
  }

  lemma CandidateParts(h: Hist, g: Hist, n: Node, t: Term)
    requires OK(h, n) && t == n.term + 1 && Consistent(g) && Grows(h, g, n.id)
    requires forall u: Term :: Acked(g, n.id, u) == Acked(h, n.id, u)
    ensures LogPart(g, n.log, t) && AckPart(g, n.id, t, n.log)
    ensures Settled(g, n.log, n.committed, t) && MsgsPart(g, n.id, n.msgs)
  {
    hide *;
    Unpack(h, n);
    StableParts(h, g, n);
    LogLater(g, n.log, n.term, t);
    AckLater(g, n.id, n.log, n.term, t);
    SettledBound(g, n.log, n.committed, n.term);
    SettledExtends(g, n.log, n.log, n.committed, n.term, t);
  }

  lemma LogLater(h: Hist, log: seq<Entry>, t: Term, u: Term)
    requires LogPart(h, log, t) && t <= u
    ensures LogPart(h, log, u)
  {}

  lemma AckLater(h: Hist, id: NodeID, log: seq<Entry>, t: Term, u: Term)
    requires AckPart(h, id, t, log) && t <= u
    ensures AckPart(h, id, u, log)
  {
    KeptAllWidens(h, id, t + 1, t + 1, u + 1, u + 1, log);
  }

  lemma PreCandidateOK(h: Hist, n: Node)
    requires OK(h, n) && n.role != Leader && n.conf.IsVoter(n.id)
    ensures Moves(h, n, h, RecordVote(BecomePreCandidate(n), n.id, true))
  {
    hide OK, Moves;
    RelaxOK(h, n, RecordVote(BecomePreCandidate(n), n.id, true));
  }

  lemma {:induction false} SendVoteRequestsOK(h: Hist, n: Node, peers: seq<NodeID>, t: Term, preVote: bool)
    requires OK(h, n) && n.id !in peers
    requires preVote || (n.role == Candidate && t == n.term)
    ensures Moves(h, n, h, SendVoteRequests(n, peers, t, preVote))
    decreases |peers|
  {
    hide OK, Moves, MsgOK, LastTerm;
    TouchOK(h, n, n);
    if peers != [] {
      if n.conf.IsVoter(peers[0]) {
        var m := VoteReq(n.id, peers[0], t, preVote, |n.log|, LastTerm(n.log));
        VoteReqOK(h, n, m);
        SendMoves(h, n, h, n, m);
        SendOK(h, n, m);
        SendVoteRequestsOK(h, Send(n, m), peers[1..], t, preVote);
        MovesTransitive(h, n, h, Send(n, m), h, SendVoteRequests(Send(n, m), peers[1..], t, preVote));
      } else {
        SendVoteRequestsOK(h, n, peers[1..], t, preVote);
      }
    }
  }

  lemma VoteReqOK(h: Hist, n: Node, m: Message)
    requires OK(h, n) && m.VoteReq? && m.from == n.id && m.to != n.id
    requires m.lastIndex == |n.log| && m.lastTerm == LastTerm(n.log)
    requires m.preVote || (n.role == Candidate && m.term == n.term)
    ensures MsgOK(h, m)
  {}

  // ---------------------------------------------------------------------------
  // Winning
  // ---------------------------------------------------------------------------

  /** Nobody else can have won the term of a candidate that holds a quorum of votes. */
  lemma TermIsFree(h: Hist, n: Node)
    requires OK(h, n) && n.role == Candidate && Quorum(n.conf, Granted(n))
    ensures n.term !in h.reigns
  {
    if n.term in h.reigns { OneWinner(h, n.term, n.id, Granted(n)); }
  }

  lemma CrownedOK(h: Hist, n: Node) returns (g: Hist)
    requires OK(h, n) && n.role == Candidate && Quorum(n.conf, Granted(n))
    ensures Moves(h, n, g, Crowned(n)) && Crowned(n).role == Leader
  {
    hide *;
    Unpack(h, n);
    g := ReignBegins(h, n);
    CrownedShape(n);
    var r := Crowned(n);
    var s := n.(log := r.log);
    OwnPartsGrow(h, g, n, s, |s.log|);
    AppendOwnConf(h, g, n, NoOp, s);
    CrownedLeads(h, g, n);
    ReadsGone(g, n.term);
    Pack(h, n, g, r);
  }

  lemma ReignBegins(h: Hist, n: Node) returns (g: Hist)
    requires OK(h, n) && n.role == Candidate && Quorum(n.conf, Granted(n))
    ensures n.term !in h.reigns && Consistent(g) && Grows(h, g, n.id)
    ensures g.ballots == h.ballots && g.cands == h.cands && g.commits == h.commits && g.boot == h.boot
            && g.barriers == h.barriers
    ensures n.term in g.reigns && g.reigns[n.term].leader == n.id
    ensures g.reigns[n.term].log == n.log + [Entry(|n.log| + 1, n.term, NoOp)]
    ensures Acked(g, n.id, n.term) == |n.log| + 1
    ensures forall u: Term :: u != n.term ==> Acked(g, n.id, u) == Acked(h, n.id, u)
  {
    hide *;
    TermIsFree(h, n);
    MayReign(h, n);
    var e := Entry(|n.log| + 1, n.term, NoOp);
    ReignRecorded(h, n.id, n.term, n.log, e, Granted(n));
    var k := WithReign(h, n.id, n.term, n.log, e, Granted(n));
    ReignShape(h, n.id, n.term, n.log, e, Granted(n));
    AckRecorded(k, n.id, n.term, e.index);
    g := WithAck(k, n.id, n.term, e.index);
    AckShape(h, k, n.id, n.term, e.index);
    GrowsTransitive(h, k, g, n.id);
  }

  lemma ReignShape(h: Hist, id: NodeID, t: Term, log: seq<Entry>, e: Entry, voters: set<NodeID>)
    ensures var g := WithReign(h, id, t, log, e, voters);
            g == h.(reigns := g.reigns) && t in g.reigns && g.reigns[t] == Reign(id, |log|, log + [e], voters)
  {}

  lemma MayReign(h: Hist, n: Node)
    requires OK(h, n) && n.role == Candidate && Quorum(n.conf, Granted(n)) && n.term !in h.reigns
    ensures Consistent(h) && Key(n.id, n.term) in h.cands && h.cands[Key(n.id, n.term)] == n.log
    ensures Quorum(ConfOf(h.boot, n.log), Granted(n)) && Acked(h, n.id, n.term) == 0
    ensures forall v :: v in Granted(n) ==> Key(v, n.term) in h.ballots && h.ballots[Key(v, n.term)].cand == n.id
    ensures forall k :: k in h.ballots && k.node == n.id ==> k.term <= n.term
  {}

  lemma CrownedShape(n: Node)
    ensures var r := Crowned(n);
            r == n.(role := Leader, log := n.log + [Entry(|n.log| + 1, n.term, NoOp)], progress := r.progress,
                    pendingReads := [], readStates := [], lead := r.lead, votes := r.votes, timeout := r.timeout,
                    draws := r.draws, electionElapsed := r.electionElapsed, heartbeatElapsed := r.heartbeatElapsed)
  {}

  lemma CrownedLeads(h: Hist, g: Hist, n: Node)
    requires Consistent(h) && n.term !in h.reigns && Grows(h, g, n.id)
    requires g.commits == h.commits && n.term in g.reigns && g.reigns[n.term].leader == n.id
    requires g.reigns[n.term].log == Crowned(n).log && Acked(g, n.id, n.term) == |n.log| + 1
    ensures LeaderPart(g, n.id, n.term, Crowned(n).log, Crowned(n).progress, n.committed)
  {
    assert forall c :: c in h.commits ==> CommitOK(h, c) && c.term in h.reigns;
  }

  lemma BecomeLeaderOK(h: Hist, n: Node) returns (g: Hist)
    requires OK(h, n) && n.role == Candidate && Quorum(n.conf, Granted(n))
    ensures Moves(h, n, g, BecomeLeader(n))
  {
    hide OK, NodeOK, Consistent, Grows, Crowned, MaybeAdvanceCommit, Persist, BroadcastAppend, BecomeLeader, Quorum;
    hide Granted;
    Unpack(h, n);
    hide *;
    var k := CrownedOK(h, n);
    MovesOK(h, n, k, Crowned(n));
    OKFacts(k, Crowned(n));
    g := LeaderStartsOK(k, Crowned(n));
    MovesTransitive(h, n, k, Crowned(n), g, BroadcastAppend(Persist(MaybeAdvanceCommit(Crowned(n)))));
    BecomeLeaderIs(n);
  }

  lemma BecomeLeaderIs(n: Node)
    requires Sized(n) && n.role == Candidate && n.conf.IsVoter(n.id) && n.committed <= |n.log|
    requires !MaybeAdvanceCommit(Crowned(n)).fault && !Persist(MaybeAdvanceCommit(Crowned(n))).fault
    ensures BecomeLeader(n) == BroadcastAppend(Persist(MaybeAdvanceCommit(Crowned(n))))
  {
    hide Crowned, MaybeAdvanceCommit, Persist, BroadcastAppend;
  }

  lemma LeaderStartsOK(h: Hist, n: Node) returns (g: Hist)
    requires OK(h, n) && n.role == Leader
    ensures !MaybeAdvanceCommit(n).fault && !Persist(MaybeAdvanceCommit(n)).fault
    ensures Moves(h, n, g, BroadcastAppend(Persist(MaybeAdvanceCommit(n))))
  {
    hide OK, Moves, MaybeAdvanceCommit, Persist, BroadcastAppend, Sized;
    OKFacts(h, n);
    g := MaybeAdvanceCommitOK(h, n);
    var n1 := MaybeAdvanceCommit(n);
    MovesOK(h, n, g, n1);
    PersistOK(g, n1);
    var n2 := Persist(n1);
    MovesOK(g, n1, g, n2);
    OKFacts(g, n2);
    MovesTransitive(h, n, g, n1, g, n2);
    BroadcastAfter(g, n2);
    MovesTransitive(h, n, g, n2, g, BroadcastAppend(n2));
  }

  lemma PersistOK(h: Hist, n: Node)
    requires OK(h, n)
    ensures Moves(h, n, h, Persist(n)) && LeadsOrIdle(n) == LeadsOrIdle(Persist(n)) && !n.fault
  {
    hide OK, NodeOK, Consistent, LogPart, AckPart, Settled, VotePart, CandPart, CandidatePart, LeaderPart, ConfPart;
    hide ReadPart, MsgsPart, SnapPart, Moves, Grows;
    Unpack(h, n);
    GrowsReflexive(h, n.id);
    Pack(h, n, h, Persist(n));
  }

  // ---------------------------------------------------------------------------
  // Campaigns
  // ---------------------------------------------------------------------------

  lemma StandOK(h: Hist, n: Node, preVote: bool) returns (g: Hist)
    requires OK(h, n) && n.role != Leader && n.conf.IsVoter(n.id)
    ensures Moves(h, n, g, RecordVote(Stand(n, preVote), n.id, true))
    ensures !Stand(n, preVote).fault && Stand(n, preVote).id == n.id && Stand(n, preVote).conf == n.conf
    ensures Stand(n, preVote).role == if preVote then PreCandidate else Candidate
  {
    hide OK, Moves;
    StandFacts(h, n);
    g := h;
    if preVote { PreCandidateOK(h, n); } else { g := BecomeCandidateOK(h, n); }
  }

  lemma StandFacts(h: Hist, n: Node)
    requires OK(h, n)
    ensures n.hard.term <= n.term && !n.fault
  {}

  lemma {:induction false} CampaignOK(h: Hist, n: Node, preVote: bool) returns (g: Hist)
    requires OK(h, n) && n.role != Leader
    ensures Moves(h, n, g, Campaign(n, preVote))
    decreases if preVote then 3 else 1
  {
    hide OK, Moves, Stand, Canvass, Sized;
    OKFacts(h, n);
    g := h;
    TouchOK(h, n, n);
    if n.conf.IsVoter(n.id) {
      var n1 := RecordVote(Stand(n, preVote), n.id, true);
      var k := StandOK(h, n, preVote);
      MovesOK(h, n, k, n1);
      OKFacts(k, n1);
      g := CanvassOK(k, n1, preVote);
      MovesTransitive(h, n, k, n1, g, Canvass(n1, preVote));
    }
  }

  lemma CanvassAsks(h: Hist, n: Node, preVote: bool)
    requires OK(h, n) && n.role == (if preVote then PreCandidate else Candidate)
    requires !Quorum(n.conf, Granted(n)) && !Impossible(n.conf, Rejected(n))
    ensures Moves(h, n, h, Canvass(n, preVote))
  {
    hide OK, Moves, SendVoteRequests, Quorum, Impossible, Granted, Rejected, Sized;
    OKFacts(h, n);
    SendVoteRequestsOK(h, n, Peers(n.conf, n.id), if preVote then n.term + 1 else n.term, preVote);
  }

  lemma {:induction false} CanvassOK(h: Hist, n: Node, preVote: bool) returns (g: Hist)
    requires OK(h, n) && n.role == (if preVote then PreCandidate else Candidate)
    ensures Moves(h, n, g, Canvass(n, preVote))
    decreases if n.role == PreCandidate then 2 else 0, 1
  {
    hide OK, Moves, Quorum, Impossible, Granted, Rejected, Sized, TallyVotes;
    OKFacts(h, n);
    if Quorum(n.conf, Granted(n)) || Impossible(n.conf, Rejected(n)) {
      g := TallyVotesOK(h, n);
    } else {
      g := h;
      CanvassAsks(h, n, preVote);
    }
  }

  lemma {:induction false} TallyVotesOK(h: Hist, n: Node) returns (g: Hist)
    requires OK(h, n) && (n.role == PreCandidate || n.role == Candidate)
    ensures Moves(h, n, g, TallyVotes(n))
    decreases if n.role == PreCandidate then 2 else 0, 0
  {
    hide OK, Moves, Quorum, Impossible, Granted, Rejected, Sized, Campaign, BecomeLeader, BecomeFollower;
    OKFacts(h, n);
    TouchOK(h, n, n);
    g := h;
    if Quorum(n.conf, Granted(n)) {
      if n.role == PreCandidate { g := CampaignOK(h, n, false); } else { g := BecomeLeaderOK(h, n); }
    } else if Impossible(n.conf, Rejected(n)) {
      StandDownOK(h, n, NONE);
    }
  }

  /** A reply is counted only towards the campaign it answers. */
  lemma RecordVoteOK(h: Hist, n: Node, m: Message)
    requires OK(h, n) && MsgOK(h, m) && m.VoteResp? && m.to == n.id
    requires n.role == PreCandidate || (n.role == Candidate && !m.preVote && m.term == n.term)
    ensures Moves(h, n, h, RecordVote(n, m.from, m.granted))
  {
    hide *;
    Unpack(h, n);
    GrowsReflexive(h, n.id);
    TalliedOK(h, n, m);
    Pack(h, n, h, RecordVote(n, m.from, m.granted));
  }

  lemma TalliedOK(h: Hist, n: Node, m: Message)
    requires MsgOK(h, m) && m.VoteResp? && m.to == n.id
    ensures RecordVote(n, m.from, m.granted) == n.(votes := RecordVote(n, m.from, m.granted).votes)
    ensures CandidatePart(h, n.id, n.term, n.vote, n.log, n.votes) && !m.preVote && m.term == n.term
            ==> CandidatePart(h, n.id, n.term, n.vote, n.log, RecordVote(n, m.from, m.granted).votes)
  {}

  lemma HandleVoteResponseOK(h: Hist, n: Node, m: Message) returns (g: Hist)
    requires OK(h, n) && MsgOK(h, m) && m.VoteResp? && m.to == n.id && (m.term == n.term || m.preVote)
    ensures Moves(h, n, g, HandleVoteResponse(n, m))
  {
    hide OK, Moves, MsgOK, Sized, TallyVotes;
    OKFacts(h, n);
    TouchOK(h, n, n);
    g := h;
    if (m.preVote && n.role == PreCandidate) || (!m.preVote && n.role == Candidate) {
      var n1 := RecordVote(n, m.from, m.granted);
      RecordVoteOK(h, n, m);
      MovesOK(h, n, h, n1);
      OKFacts(h, n1);
      g := TallyVotesOK(h, n1);
      MovesTransitive(h, n, h, n1, g, TallyVotes(n1));
    }
  }

  lemma TickElectionOK(h: Hist, n: Node) returns (g: Hist)
    requires OK(h, n) && n.role != Leader
    ensures Moves(h, n, g, TickElection(n))
  {
    hide OK, Moves, Campaign, Sized;
    OKFacts(h, n);
    g := h;
    var n1 := n.(electionElapsed := n.electionElapsed + 1);
    TouchOK(h, n, n1);
    if n.conf.IsVoter(n.id) && n1.electionElapsed >= n1.timeout {
      var n2 := n1.(electionElapsed := 0);
      TouchOK(h, n, n2);
      MovesOK(h, n, h, n2);
      OKFacts(h, n2);
      g := CampaignOK(h, n2, n.cfg.preVote);
      MovesTransitive(h, n, h, n2, g, Campaign(n2, n.cfg.preVote));
    }
  }
}
