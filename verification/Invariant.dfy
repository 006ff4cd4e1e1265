/** What ties a node and its messages to the history of the cluster. */
module Invariant {
  import opened Configurations
  import opened RaftTypes
  import opened RaftNode
  import opened History
  import opened HistoryGrowth

  // ---------------------------------------------------------------------------
  // Messages
  // ---------------------------------------------------------------------------

  ghost predicate FromLeader(h: Hist, m: Message) {
    m.term in h.reigns && h.reigns[m.term].leader == m.from
  }

  ghost predicate EntriesOK(h: Hist, m: Message)
    requires m.AppendReq? && m.term in h.reigns
  {
    var log := h.reigns[m.term].log;
    && m.prevIndex + |m.entries| <= |log|
    && m.prevTerm == TermAt(log, m.prevIndex)
    && m.entries == log[m.prevIndex..m.prevIndex + |m.entries|]
    && Settled(h, log, m.commit, m.term)
  }

  ghost predicate SnapshotOK(h: Hist, snap: Snapshot, t: Term)
    requires t in h.reigns
  {
    var log := h.reigns[t].log;
    && 1 <= snap.lastIndex <= |log|
    && snap.image == log[..snap.lastIndex]
    && snap.lastTerm == TermAt(log, snap.lastIndex)
    && snap.config == ConfOf(h.boot, snap.image)
    && Settled(h, log, snap.lastIndex, t)
  }

  /** A leader's read barrier is only ever confirmed by nodes that had not moved on when it was requested. */
  ghost predicate EchoOK(h: Hist, m: Message)
    requires m.AppendResp?
  {
    m.readId != 0 ==> ReadKey(m.term, m.readId) in h.barriers && m.from !in h.barriers[ReadKey(m.term, m.readId)].gone
  }

  ghost predicate MsgOK(h: Hist, m: Message) {
    && m.from != m.to && m.from != NONE
    && match m
       case VoteReq(_, _, _, _, _, _) =>
         m.preVote || (&& Key(m.from, m.term) in h.cands
                       && m.lastIndex == |h.cands[Key(m.from, m.term)]|
                       && m.lastTerm == LastTerm(h.cands[Key(m.from, m.term)]))
       case VoteResp(_, _, _, _, _) =>
         m.preVote || !m.granted || (Key(m.from, m.term) in h.ballots && h.ballots[Key(m.from, m.term)].cand == m.to)
       case AppendReq(_, _, _, _, _, _, _, _) =>
         FromLeader(h, m) && EntriesOK(h, m) && (m.readId != 0 ==> ReadKey(m.term, m.readId) in h.barriers)
       case AppendResp(_, _, _, _, _, _, _, _) =>
         (m.success ==> m.matchIndex <= Acked(h, m.from, m.term)) && EchoOK(h, m)
       case SnapReq(_, _, _, _) =>
         FromLeader(h, m) && SnapshotOK(h, m.snap, m.term)
       case SnapResp(_, _, _, _, _) =>
         m.success ==> m.matchIndex <= Acked(h, m.from, m.term)
  }

  // ---------------------------------------------------------------------------
  // Nodes
  // ---------------------------------------------------------------------------

  ghost predicate LogPart(h: Hist, log: seq<Entry>, term: Term) { GoodLog(h, log) && Below(log, term + 1) }

  /** Durable votes agree with the record, and no later vote has been cast. */
  ghost predicate VotePart(h: Hist, id: NodeID, term: Term, vote: NodeID) {
    && (forall k :: k in h.ballots && k.node == id ==> k.term <= term)
    && (Key(id, term) in h.ballots <==> vote != NONE)
    && (vote != NONE ==> h.ballots[Key(id, term)].cand == vote)
  }

  ghost predicate CandPart(h: Hist, id: NodeID, term: Term) {
    forall k :: k in h.cands && k.node == id ==> k.term <= term
  }

  ghost predicate AckPart(h: Hist, id: NodeID, term: Term, log: seq<Entry>) {
    && (forall t: Term :: t > term || log == [] ==> Acked(h, id, t) == 0)
    && KeptAll(h, id, term + 1, term + 1, log)
  }

  ghost predicate CandidatePart(h: Hist, id: NodeID, term: Term, vote: NodeID, log: seq<Entry>, votes: map<NodeID,
                                bool>) {
    && vote == id
    && Key(id, term) in h.cands && h.cands[Key(id, term)] == log
    && (forall v :: v in votes && votes[v] ==> Key(v, term) in h.ballots && h.ballots[Key(v, term)].cand == id)
    && !(term in h.reigns && h.reigns[term].leader == id)
  }

  ghost predicate LeaderPart(h: Hist, id: NodeID, term: Term, log: seq<Entry>, progress: map<NodeID, Progress>,
                             committed: Index) {
    && term in h.reigns && h.reigns[term].leader == id && h.reigns[term].log == log
    && (forall v :: v in progress ==>
          progress[v].matched <= Acked(h, v, term) && progress[v].matched < progress[v].next <= |log| + 1)
    && (forall c :: c in h.commits && c.term == term ==> c.index <= committed)
  }

  ghost predicate SnapPart(boot: Configuration, snap: Snapshot, log: seq<Entry>) {
    if snap.lastIndex == 0 then snap == NO_SNAPSHOT
    else
      && snap.lastIndex <= |log| && snap.image == log[..snap.lastIndex]
      && snap.lastTerm == TermAt(log, snap.lastIndex)
      && snap.config == ConfOf(boot, snap.image)
  }

  /** floor <= snapshot <= applied <= committed <= last; the term and the vote in memory are those on disk. */
  ghost predicate DiskPart(boot: Configuration, hard: HardState, term: Term, vote: NodeID, log: seq<Entry>,
                           floor: Index, snap: Snapshot, applied: Index, committed: Index)
  {
    && hard.term == term && hard.vote == vote && hard.commit <= committed
    && floor <= snap.lastIndex <= applied <= committed <= |log|
    && SnapPart(boot, snap, log)
  }

  /** The configuration in force is the one a full scan of the whole log would find. */
  ghost predicate ConfPart(boot: Configuration, log: seq<Entry>, conf: Configuration, confIndex: Index,
                           snapIndex: Index) {
    && conf == ConfOf(boot, log)
    && LastConfIndex(log) <= confIndex
    && (confIndex == LastConfIndex(log) || confIndex <= snapIndex)
  }

  ghost predicate ReadPart(h: Hist, term: Term, pending: seq<ReadRequest>, done: seq<ReadState>) {
    && (forall r :: r in pending ==>
          && ReadKey(term, r.id) in h.barriers
          && h.barriers[ReadKey(term, r.id)].index == r.index
          && r.acks !! h.barriers[ReadKey(term, r.id)].gone)
    && (forall r :: r in done ==>
          && ReadKey(term, r.id) in h.barriers
          && h.barriers[ReadKey(term, r.id)].index == r.index
          && h.barriers[ReadKey(term, r.id)].overtakenBy.None?)
  }

  ghost predicate MsgsPart(h: Hist, id: NodeID, msgs: seq<Message>) {
    forall m :: m in msgs ==> MsgOK(h, m) && m.from == id
  }

  ghost predicate NodeOK(h: Hist, n: Node) {
    && n.id != NONE && !n.fault && n.cfg.boot == h.boot
    && LogPart(h, n.log, n.term)
    && VotePart(h, n.id, n.term, n.vote)
    && CandPart(h, n.id, n.term)
    && AckPart(h, n.id, n.term, n.log)
    && (n.role == PreCandidate || n.role == Candidate ==> n.conf.IsVoter(n.id))
    && (n.role == Candidate ==> CandidatePart(h, n.id, n.term, n.vote, n.log, n.votes))
    && (n.role == Leader ==> LeaderPart(h, n.id, n.term, n.log, n.progress, n.committed))
    && Settled(h, n.log, n.committed, n.term)
    && DiskPart(h.boot, n.hard, n.term, n.vote, n.log, n.floor, n.snap, n.applied, n.committed)
    && ConfPart(h.boot, n.log, n.conf, n.confIndex, n.snap.lastIndex)
    && ReadPart(h, n.term, n.pendingReads, n.readStates)
    && MsgsPart(h, n.id, n.msgs)
  }

  ghost predicate OK(h: Hist, n: Node) { Consistent(h) && Normal(h.boot) && NodeOK(h, n) }

  /** From `h` and `n` the cluster moved on to `g` and `r`, with everything still in order. */
  ghost predicate Evolves(h: Hist, n: Node, g: Hist, r: Node) {
    OK(g, r) && Grows(h, g, n.id) && r.id == n.id && r.cfg == n.cfg
  }

  /** The same, without a read barrier being recorded. */
  ghost predicate Moves(h: Hist, n: Node, g: Hist, r: Node) {
    Evolves(h, n, g, r) && g.barriers == h.barriers
  }

  lemma Unpack(h: Hist, n: Node)
    requires OK(h, n)
    ensures Consistent(h) && Normal(h.boot) && n.id != NONE && !n.fault && n.cfg.boot == h.boot
    ensures LogPart(h, n.log, n.term) && VotePart(h, n.id, n.term, n.vote) && CandPart(h, n.id, n.term)
    ensures AckPart(h, n.id, n.term, n.log)
    ensures n.role == PreCandidate || n.role == Candidate ==> n.conf.IsVoter(n.id)
    ensures n.role == Candidate ==> CandidatePart(h, n.id, n.term, n.vote, n.log, n.votes)
    ensures n.role == Leader ==> LeaderPart(h, n.id, n.term, n.log, n.progress, n.committed)
    ensures Settled(h, n.log, n.committed, n.term)
    ensures DiskPart(h.boot, n.hard, n.term, n.vote, n.log, n.floor, n.snap, n.applied, n.committed)
    ensures ConfPart(h.boot, n.log, n.conf, n.confIndex, n.snap.lastIndex)
    ensures ReadPart(h, n.term, n.pendingReads, n.readStates) && MsgsPart(h, n.id, n.msgs)
    ensures Sized(n) && n.floor <= n.applied <= n.committed <= |n.log|
  {
    hide LogPart, VotePart, CandPart, AckPart, CandidatePart, LeaderPart, Settled, ConfPart, ReadPart, MsgsPart;
    hide SnapPart, Consistent, Normal;
  }

  /** `r` has the same durable state, log position, configuration and messages as `n`. */
  ghost predicate SameCore(n: Node, r: Node) {
    && r.id == n.id && r.cfg == n.cfg && r.hard == n.hard && r.log == n.log && r.floor == n.floor && r.snap == n.snap
    && r.term == n.term && r.vote == n.vote && r.committed == n.committed && r.applied == n.applied
    && r.conf == n.conf && r.confIndex == n.confIndex && r.msgs == n.msgs && r.fault == n.fault
  }

  lemma ReadsGone(h: Hist, t: Term)
    ensures ReadPart(h, t, [], [])
  {}

  /** Giving up a role, or taking up a straw poll, commits a node to nothing. */
  lemma RelaxOK(h: Hist, n: Node, r: Node)
    requires OK(h, n) && SameCore(n, r)
    requires r.role == Follower || (r.role == PreCandidate && n.conf.IsVoter(n.id))
    requires (r.pendingReads == [] && r.readStates == [])
             || (r.pendingReads == n.pendingReads && r.readStates == n.readStates)
    ensures Moves(h, n, h, r)
  {
    assert SameCore(n, r);
    hide OK, NodeOK, LogPart, VotePart, CandPart, AckPart, CandidatePart, LeaderPart, Settled, DiskPart, ConfPart;
    hide ReadPart, MsgsPart, Consistent, Normal, Grows, Moves;
    Unpack(h, n);
    ReadsGone(h, n.term);
    GrowsReflexive(h, n.id);
    Pack(h, n, h, r);
  }

  lemma GrowsReflexive(h: Hist, id: NodeID)
    ensures Grows(h, h, id)
  {}

  lemma PackEvolves(h: Hist, n: Node, g: Hist, r: Node)
    requires Consistent(g) && Normal(h.boot) && Grows(h, g, n.id)
    requires r.id == n.id && r.cfg == n.cfg && n.id != NONE && !r.fault && n.cfg.boot == h.boot
    requires LogPart(g, r.log, r.term) && VotePart(g, r.id, r.term, r.vote) && CandPart(g, r.id, r.term)
    requires AckPart(g, r.id, r.term, r.log)
    requires r.role == PreCandidate || r.role == Candidate ==> r.conf.IsVoter(r.id)
    requires r.role == Candidate ==> CandidatePart(g, r.id, r.term, r.vote, r.log, r.votes)
    requires r.role == Leader ==> LeaderPart(g, r.id, r.term, r.log, r.progress, r.committed)
    requires Settled(g, r.log, r.committed, r.term)
    requires DiskPart(h.boot, r.hard, r.term, r.vote, r.log, r.floor, r.snap, r.applied, r.committed)
    requires ConfPart(h.boot, r.log, r.conf, r.confIndex, r.snap.lastIndex)
    requires ReadPart(g, r.term, r.pendingReads, r.readStates) && MsgsPart(g, r.id, r.msgs)
    ensures Evolves(h, n, g, r)
  {
    hide LogPart, VotePart, CandPart, AckPart, CandidatePart, LeaderPart, Settled, DiskPart, ConfPart, ReadPart;
    hide MsgsPart, Consistent, Normal, Grows;
    SameBoot(h, g, n.id);
  }

  lemma Pack(h: Hist, n: Node, g: Hist, r: Node)
    requires Consistent(g) && Normal(h.boot) && Grows(h, g, n.id)
    requires r.id == n.id && r.cfg == n.cfg && n.id != NONE && !r.fault && n.cfg.boot == h.boot
    requires LogPart(g, r.log, r.term) && VotePart(g, r.id, r.term, r.vote) && CandPart(g, r.id, r.term)
    requires AckPart(g, r.id, r.term, r.log)
    requires r.role == PreCandidate || r.role == Candidate ==> r.conf.IsVoter(r.id)
    requires r.role == Candidate ==> CandidatePart(g, r.id, r.term, r.vote, r.log, r.votes)
    requires r.role == Leader ==> LeaderPart(g, r.id, r.term, r.log, r.progress, r.committed)
    requires Settled(g, r.log, r.committed, r.term)
    requires DiskPart(h.boot, r.hard, r.term, r.vote, r.log, r.floor, r.snap, r.applied, r.committed)
    requires ConfPart(h.boot, r.log, r.conf, r.confIndex, r.snap.lastIndex)
    requires ReadPart(g, r.term, r.pendingReads, r.readStates) && MsgsPart(g, r.id, r.msgs)
    requires g.barriers == h.barriers
    ensures Moves(h, n, g, r)
  {
    hide Evolves, LogPart, VotePart, CandPart, AckPart, CandidatePart, LeaderPart, Settled, DiskPart, ConfPart;
    hide ReadPart, MsgsPart, Consistent, Normal, Grows;
    PackEvolves(h, n, g, r);
  }

  // ---------------------------------------------------------------------------
  // Growth of the history leaves other nodes, and messages, as they should be
  // ---------------------------------------------------------------------------

  lemma SettledGrows(h: Hist, g: Hist, id: NodeID, log: seq<Entry>, i: Index, t: Term)
    requires Consistent(h) && Grows(h, g, id) && Settled(h, log, i, t)
    ensures Settled(g, log, i, t)
  {
    if i > 0 {
      var c :| c in h.commits && c.term <= t && i <= c.index && Held(h, c.term, i, log);
      assert CommitOK(h, c);
      HeldGrows(h, g, id, c.term, i, log);
      assert c in g.commits;
    }
  }

  lemma SettledExtends(h: Hist, log: seq<Entry>, more: seq<Entry>, i: Index, t: Term, u: Term)
    requires Settled(h, log, i, t) && t <= u && i <= |more| && log[..i] == more[..i]
    ensures Settled(h, more, i, u)
  {
    if i > 0 {
      var c :| c in h.commits && c.term <= t && i <= c.index && Held(h, c.term, i, log);
      assert Held(h, c.term, i, more);
    }
  }

  lemma MsgGrows(h: Hist, g: Hist, id: NodeID, m: Message)
    requires Consistent(h) && Grows(h, g, id) && MsgOK(h, m)
    ensures MsgOK(g, m)
  {
    if m.AppendReq? || m.SnapReq? {
      var log, more := h.reigns[m.term].log, g.reigns[m.term].log;
      var i := if m.AppendReq? then m.commit else m.snap.lastIndex;
      SettledGrows(h, g, id, log, i, m.term);
      SettledExtends(g, log, more, i, m.term, m.term);
    }
    assert m.AppendResp? || m.SnapResp? ==> Acked(h, m.from, m.term) <= Acked(g, m.from, m.term);
  }

  lemma MsgsGrow(h: Hist, g: Hist, id: NodeID, owner: NodeID, msgs: seq<Message>)
    requires Consistent(h) && Grows(h, g, id) && MsgsPart(h, owner, msgs)
    ensures MsgsPart(g, owner, msgs)
  {
    forall m | m in msgs ensures MsgOK(g, m) { MsgGrows(h, g, id, m); }
  }

  lemma NodeGrows(h: Hist, g: Hist, id: NodeID, n: Node)
    requires Consistent(h) && Grows(h, g, id) && NodeOK(h, n) && n.id != id
    ensures NodeOK(g, n)
  {
    hide Consistent, Grows, GoodLog, MsgsPart, VotePart, CandPart, ReadPart, CandidatePart, LeaderPart, Settled;
    hide DiskPart, ConfPart, AckPart, LogPart, KeptAll;
    LogStays(h, g, id, n.term, n.log);
    OthersAcksStay(h, g, id, n.id, n.term, n.log);
    SettledGrows(h, g, id, n.log, n.committed, n.term);
    MsgsGrow(h, g, id, n.id, n.msgs);
    VotesGrow(h, g, id, n);
    RolesGrow(h, g, id, n);
    SameBoot(h, g, id);
  }

  lemma SameBoot(h: Hist, g: Hist, id: NodeID)
    requires Grows(h, g, id)
    ensures g.boot == h.boot
  {}

  lemma OthersAcksStay(h: Hist, g: Hist, id: NodeID, v: NodeID, t: Term, log: seq<Entry>)
    requires Consistent(h) && Grows(h, g, id) && v != id && AckPart(h, v, t, log)
    ensures AckPart(g, v, t, log)
  {
    KeptAllGrows(h, g, id, v, t + 1, t + 1, log);
  }

  lemma VotesGrow(h: Hist, g: Hist, id: NodeID, n: Node)
    requires Grows(h, g, id) && n.id != id && VotePart(h, n.id, n.term, n.vote) && CandPart(h, n.id, n.term)
    requires ReadPart(h, n.term, n.pendingReads, n.readStates)
    ensures VotePart(g, n.id, n.term, n.vote) && CandPart(g, n.id, n.term)
    ensures ReadPart(g, n.term, n.pendingReads, n.readStates)
  {}

  lemma RolesGrow(h: Hist, g: Hist, id: NodeID, n: Node)
    requires Grows(h, g, id) && n.id != id
    ensures CandidatePart(h, n.id, n.term, n.vote, n.log, n.votes) ==>
            CandidatePart(g, n.id, n.term, n.vote, n.log, n.votes)
    ensures LeaderPart(h, n.id, n.term, n.log, n.progress, n.committed) ==>
            LeaderPart(g, n.id, n.term, n.log, n.progress, n.committed)
  {
    assert forall v: NodeID :: Acked(h, v, n.term) <= Acked(g, v, n.term);
  }

  /** The parts of a node's own invariant that its own events leave alone, as long as it acknowledges nothing new. */
  lemma StableParts(h: Hist, g: Hist, n: Node)
    requires OK(h, n) && Grows(h, g, n.id)
    requires forall t: Term :: Acked(g, n.id, t) == Acked(h, n.id, t)
    ensures LogPart(g, n.log, n.term) && AckPart(g, n.id, n.term, n.log)
    ensures Settled(g, n.log, n.committed, n.term)
    ensures ReadPart(g, n.term, n.pendingReads, n.readStates) && MsgsPart(g, n.id, n.msgs)
  {
    hide *;
    Unpack(h, n);
    LogStays(h, g, n.id, n.term, n.log);
    AcksStay(h, g, n.id, n.term, n.log);
    SettledGrows(h, g, n.id, n.log, n.committed, n.term);
    ReadsStay(h, g, n.id, n.term, n.pendingReads, n.readStates);
    MsgsGrow(h, g, n.id, n.id, n.msgs);
  }

  lemma LogStays(h: Hist, g: Hist, id: NodeID, t: Term, log: seq<Entry>)
    requires Grows(h, g, id) && LogPart(h, log, t)
    ensures LogPart(g, log, t)
  {
    GoodLogGrows(h, g, id, log);
  }

  lemma AcksStay(h: Hist, g: Hist, id: NodeID, t: Term, log: seq<Entry>)
    requires Consistent(h) && Grows(h, g, id) && AckPart(h, id, t, log)
    requires forall u: Term :: Acked(g, id, u) == Acked(h, id, u)
    ensures AckPart(g, id, t, log)
  {
    KeptAllGrows(h, g, id, id, t + 1, t + 1, log);
  }

  lemma ReadsStay(h: Hist, g: Hist, id: NodeID, t: Term, pending: seq<ReadRequest>, done: seq<ReadState>)
    requires Grows(h, g, id) && ReadPart(h, t, pending, done)
    ensures ReadPart(g, t, pending, done)
  {}

  lemma VotesStay(h: Hist, g: Hist, id: NodeID, t: Term, vote: NodeID)
    requires g.ballots == h.ballots && g.cands == h.cands && VotePart(h, id, t, vote) && CandPart(h, id, t)
    ensures VotePart(g, id, t, vote) && CandPart(g, id, t)
  {}

  /** Events other than winning, appending and committing leave a role as it was. */
  lemma RolesStay(h: Hist, g: Hist, n: Node)
    requires Grows(h, g, n.id) && g.reigns == h.reigns && g.commits == h.commits
    ensures CandidatePart(h, n.id, n.term, n.vote, n.log, n.votes) ==>
            CandidatePart(g, n.id, n.term, n.vote, n.log, n.votes)
    ensures LeaderPart(h, n.id, n.term, n.log, n.progress, n.committed) ==>
            LeaderPart(g, n.id, n.term, n.log, n.progress, n.committed)
  {
    assert forall v: NodeID :: Acked(h, v, n.term) <= Acked(g, v, n.term);
  }

  /** A change of the fields that the invariant does not speak of. */
  lemma TouchOK(h: Hist, n: Node, r: Node)
    requires OK(h, n) && SameCore(n, r)
    requires r.role == n.role && r.votes == n.votes && r.progress == n.progress
    requires r.pendingReads == n.pendingReads && r.readStates == n.readStates
    ensures Moves(h, n, h, r)
  {
    assert SameCore(n, r);
    hide *;
    Unpack(h, n);
    GrowsReflexive(h, n.id);
    Pack(h, n, h, r);
  }
}
