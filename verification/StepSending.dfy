/** Steps that change nothing but a node's role, its bookkeeping and its outgoing messages. */
module StepSending {
  import opened Configurations
  import opened RaftTypes
  import opened RaftNode
  import opened History
  import opened HistoryGrowth
  import opened Invariant

  lemma MovesTransitive(h: Hist, n: Node, g: Hist, n': Node, k: Hist, n'': Node)
    requires Moves(h, n, g, n') && Moves(g, n', k, n'')
    ensures Moves(h, n, k, n'')
  {
    hide OK, Grows;
    GrowsTransitive(h, g, k, n.id);
  }

  lemma OKFacts(h: Hist, n: Node)
    requires OK(h, n)
    ensures Sized(n) && !n.fault && n.id != NONE && n.floor <= n.applied <= n.committed <= |n.log|
  {}

  lemma SendOK(h: Hist, n: Node, m: Message)
    requires OK(h, n) && MsgOK(h, m) && m.from == n.id
    ensures OK(h, Send(n, m))
  {}

  lemma MovesOK(h: Hist, n: Node, g: Hist, r: Node)
    requires Moves(h, n, g, r)
    ensures OK(g, r) && Grows(h, g, n.id) && r.id == n.id && r.cfg == n.cfg && g.barriers == h.barriers
  {
    hide OK, Grows;
  }

  lemma SendMoves(h: Hist, n: Node, g: Hist, r: Node, m: Message)
    requires Moves(h, n, g, r) && MsgOK(g, m) && m.from == n.id
    ensures Moves(h, n, g, Send(r, m))
  {
    hide OK, Grows;
    SendOK(g, r, m);
  }

  // ---------------------------------------------------------------------------
  // A leader's own messages
  // ---------------------------------------------------------------------------

  lemma SendSnapshotOK(h: Hist, n: Node, to: NodeID)
    requires OK(h, n) && n.role == Leader && to != n.id
    ensures OK(h, SendSnapshot(n, to))
  {
    if to in n.progress && n.progress[to].pendingSnapshot == 0 && n.snap.lastIndex != 0 {
      var m := SnapReq(n.id, to, n.term, n.snap);
      SettledExtends(h, n.log, n.log, n.snap.lastIndex, n.term, n.term) by {
        SettledBelow(h, n.log, n.committed, n.snap.lastIndex, n.term);
      }
      assert SnapshotOK(h, n.snap, n.term);
      assert MsgOK(h, m);
    }
  }

  lemma SettledBound(h: Hist, log: seq<Entry>, i: Index, t: Term)
    requires Settled(h, log, i, t)
    ensures i <= |log|
  {}

  lemma SettledBelow(h: Hist, log: seq<Entry>, i: Index, j: Index, t: Term)
    requires Settled(h, log, i, t) && j <= i
    ensures Settled(h, log, j, t)
  {
    if j > 0 {
      var c :| c in h.commits && c.term <= t && i <= c.index && Held(h, c.term, i, log);
      assert h.reigns[c.term].log[..j] == h.reigns[c.term].log[..i][..j];
      assert Held(h, c.term, j, log);
    }
  }

  function AppendReqOf(n: Node, to: NodeID, lo: Index, hi: Index, readId: nat): Message
    requires lo <= hi <= |n.log|
  {
    AppendReq(n.id, to, n.term, lo, TermAt(n.log, lo), n.log[lo..hi], n.committed, readId)
  }

  lemma SendAppendCases(n: Node, to: NodeID, readId: nat)
    ensures || SendAppend(n, to, readId) == n
            || SendAppend(n, to, readId) == SendSnapshot(n, to)
            || exists lo: Index, hi: Index ::
              lo <= hi <= |n.log| && SendAppend(n, to, readId) == Send(n, AppendReqOf(n, to, lo, hi, readId))
  {
    if to in n.progress && n.progress[to].pendingSnapshot == 0 {
      var lo := n.progress[to].next - 1;
      if TermOf(n, lo).Some? && !(lo < |n.log| && lo < n.floor) {
        assert SendAppend(n, to, readId) == Send(n, AppendReqOf(n, to, lo, BatchEnd(n, lo), readId));
      }
    }
  }

  lemma SendAppendOK(h: Hist, n: Node, to: NodeID, readId: nat)
    requires OK(h, n) && n.role == Leader && to != n.id
    requires readId != 0 ==> ReadKey(n.term, readId) in h.barriers
    ensures OK(h, SendAppend(n, to, readId))
  {
    SendAppendCases(n, to, readId);
    if lo: Index, hi: Index :|
      lo <= hi <= |n.log| && SendAppend(n, to, readId) == Send(n, AppendReqOf(n, to, lo, hi, readId)) {
      AppendReqOK(h, n, to, lo, hi, readId);
      SendOK(h, n, AppendReqOf(n, to, lo, hi, readId));
    } else {
      SendSnapshotOK(h, n, to);
    }
  }

  /** Any stretch of a leader's log may be sent. */
  lemma AppendReqOK(h: Hist, n: Node, to: NodeID, lo: Index, hi: Index, readId: nat)
    requires OK(h, n) && n.role == Leader && to != n.id && lo <= hi <= |n.log|
    requires readId != 0 ==> ReadKey(n.term, readId) in h.barriers
    ensures MsgOK(h, AppendReqOf(n, to, lo, hi, readId))
  {
    assert EntriesOK(h, AppendReqOf(n, to, lo, hi, readId));
  }

  lemma {:induction false} SendAllOK(h: Hist, n: Node, peers: seq<NodeID>, readId: nat)
    requires OK(h, n) && n.role == Leader && n.id !in peers
    requires readId != 0 ==> ReadKey(n.term, readId) in h.barriers
    ensures OK(h, SendAll(n, peers, readId))
    decreases |peers|
  {
    if peers != [] {
      SendAppendOK(h, n, peers[0], readId);
      SendAllOK(h, SendAppend(n, peers[0], readId), peers[1..], readId);
    }
  }

  lemma BroadcastOK(h: Hist, n: Node)
    requires OK(h, n)
    ensures n.role == Leader ==> OK(h, BroadcastAppend(n))
    ensures n.progress == map[] ==> BroadcastAppend(n) == n
  {
    if n.role == Leader { SendAllOK(h, n, Peers(n.conf, n.id), 0); }
    if n.progress == map[] { SilentWithoutProgress(n, Peers(n.conf, n.id), 0); }
  }

  lemma {:induction false} SilentWithoutProgress(n: Node, peers: seq<NodeID>, readId: nat)
    requires n.progress == map[]
    ensures SendAll(n, peers, readId) == n
    decreases |peers|
  {
    if peers != [] { SilentWithoutProgress(n, peers[1..], readId); }
  }

  lemma {:induction false} RetryReadsOK(h: Hist, n: Node, waiting: seq<ReadRequest>)
    requires OK(h, n) && n.role == Leader
    requires forall r :: r in waiting ==> ReadKey(n.term, r.id) in h.barriers
    ensures OK(h, RetryReads(n, waiting))
    decreases |waiting|
  {
    if waiting != [] {
      SendAllOK(h, n, Peers(n.conf, n.id), waiting[0].id);
      RetryReadsOK(h, SendAll(n, Peers(n.conf, n.id), waiting[0].id), waiting[1..]);
    }
  }

  lemma ExpireOK(h: Hist, n: Node)
    requires OK(h, n)
    ensures OK(h, ExpirePendingSnapshots(n))
  {}

  lemma TimersOK(h: Hist, n: Node, elapsed: nat, beat: nat)
    requires OK(h, n)
    ensures OK(h, n.(electionElapsed := elapsed, heartbeatElapsed := beat))
  {}

  lemma PendingKnown(h: Hist, n: Node)
    requires OK(h, n)
    ensures forall r :: r in n.pendingReads ==> ReadKey(n.term, r.id) in h.barriers
  {}

  lemma TickHeartbeatOK(h: Hist, n: Node)
    requires OK(h, n) && n.role == Leader
    ensures OK(h, TickHeartbeat(n))
  {
    hide NodeOK, Consistent, SendAll, RetryReads;
    TimersOK(h, n, n.electionElapsed + 1, n.heartbeatElapsed + 1);
    if n.heartbeatElapsed + 1 >= n.cfg.heartbeatTick {
      TimersOK(h, n, n.electionElapsed + 1, 0);
      var n1 := n.(electionElapsed := n.electionElapsed + 1, heartbeatElapsed := 0);
      ExpireOK(h, n1);
      var n2 := ExpirePendingSnapshots(n1);
      BroadcastOK(h, n2);
      var n3 := BroadcastAppend(n2);
      PendingKnown(h, n3);
      RetryReadsOK(h, n3, n3.pendingReads);
    }
  }

  // ---------------------------------------------------------------------------
  // Following
  // ---------------------------------------------------------------------------

  lemma StandDownOK(h: Hist, n: Node, lead: NodeID)
    requires OK(h, n)
    ensures Moves(h, n, h, BecomeFollower(n, n.term, lead))
  {
    hide OK, Moves;
    RelaxOK(h, n, BecomeFollower(n, n.term, lead));
  }

  lemma FollowLeaderOK(h: Hist, n: Node, m: Message)
    requires OK(h, n) && m.term == n.term
    ensures Moves(h, n, h, FollowLeader(n, m)) && FollowLeader(n, m).role == Follower && SameCore(n, FollowLeader(n, m))
  {
    hide OK, Moves;
    RelaxOK(h, n, FollowLeader(n, m));
  }

  lemma AdoptShape(n: Node, t: Term, lead: NodeID)
    requires t > n.term >= n.hard.term && !n.fault
    ensures var r := Persist(BecomeFollower(n, t, lead));
            r == n.(term := t, vote := NONE, role := Follower, hard := HardState(t, NONE, n.committed),
                    pendingReads := [], readStates := [], lead := r.lead, votes := r.votes, progress := r.progress,
                    timeout := r.timeout, draws := r.draws, electionElapsed := r.electionElapsed,
                      heartbeatElapsed := r.heartbeatElapsed)
  {}

  lemma AdoptParts(h: Hist, n: Node, t: Term)
    requires OK(h, n) && t > n.term
    ensures LogPart(h, n.log, t) && VotePart(h, n.id, t, NONE) && CandPart(h, n.id, t)
    ensures AckPart(h, n.id, t, n.log) && Settled(h, n.log, n.committed, t)
    ensures DiskPart(h.boot, HardState(t, NONE, n.committed), t, NONE, n.log, n.floor, n.snap, n.applied, n.committed)
  {
    Unpack(h, n);
    hide OK, NodeOK, Consistent, Settled, SnapPart;
    KeptAllWidens(h, n.id, n.term + 1, n.term + 1, t + 1, t + 1, n.log);
    SettledExtends(h, n.log, n.log, n.committed, n.term, t);
  }

  /** Adopting a later term. */
  lemma AdoptTermOK(h: Hist, n: Node, t: Term, lead: NodeID)
    requires OK(h, n) && t > n.term
    ensures Moves(h, n, h, Persist(BecomeFollower(n, t, lead)))
  {
    assert n.hard.term <= n.term && !n.fault;
    AdoptShape(n, t, lead);
    hide *;
    Unpack(h, n);
    AdoptParts(h, n, t);
    ReadsGone(h, t);
    GrowsReflexive(h, n.id);
    Pack(h, n, h, Persist(BecomeFollower(n, t, lead)));
  }

  lemma StepHigherTermOK(h: Hist, n: Node, m: Message)
    requires OK(h, n) && m.term > n.term
    ensures Moves(h, n, h, StepHigherTerm(n, m))
    ensures StepHigherTerm(n, m).term == m.term
            || (StepHigherTerm(n, m) == n && ((m.VoteReq? && m.preVote) || (m.VoteResp? && m.preVote)))
  {
    hide NodeOK, Consistent, Grows;
    GrowsReflexive(h, n.id);
    AdoptTermOK(h, n, m.term, m.from);
    AdoptTermOK(h, n, m.term, NONE);
  }

  lemma StepLowerTermOK(h: Hist, n: Node, m: Message)
    requires OK(h, n) && MsgOK(h, m) && m.to == n.id && m.term < n.term
    ensures Moves(h, n, h, StepLowerTerm(n, m))
  {
    assert n.id != NONE;
    hide NodeOK, Consistent, Grows;
    GrowsReflexive(h, n.id);
    if m.AppendReq? || m.SnapReq? {
      SendOK(h, n, AppendResp(n.id, m.from, n.term, false, 0, 0, 0, 0));
    } else if m.VoteReq? {
      SendOK(h, n, VoteResp(n.id, m.from, n.term, m.preVote, false));
    }
  }

  lemma ApplyToOK(h: Hist, n: Node, i: Index)
    requires OK(h, n) && i <= n.committed
    ensures OK(h, ApplyTo(n, i))
  {}
}
