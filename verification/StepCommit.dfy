/** A leader appends to its log and advances its commit index. */
module StepCommit {
  import opened Configurations
  import opened RaftTypes
  import opened RaftNode
  import opened History
  import opened HistoryGrowth
  import opened Invariant
  import opened StepSending

  // ---------------------------------------------------------------------------
  // Configurations found in logs
  // ---------------------------------------------------------------------------

  lemma ConfNormal(h: Hist, log: seq<Entry>)
    requires Consistent(h) && Normal(h.boot) && GoodLog(h, log)
    ensures Normal(ConfOf(h.boot, log))
    ensures LastConfIndex(log) > 0 ==> ConfOf(h.boot, log).voters != [] && h.boot.voters != []
    decreases |log|
  {
    var k := LastConfIndex(log);
    if k > 0 {
      LastStep(h, log, k);
      GoodPrefix(h, log, k - 1);
      ConfNormal(h, log[..k - 1]);
    }
  }

  /** A cluster that has had a leader was not bootstrapped empty, nor is the configuration of any log. */
  lemma NotEmptyOnceLed(h: Hist, t: Term, log: seq<Entry>)
    requires Consistent(h) && Normal(h.boot) && t in h.reigns && GoodLog(h, log)
    ensures h.boot.voters != [] && ConfOf(h.boot, log).voters != []
  {
    assert ReignOK(h, t);
    GoodPrefix(h, h.reigns[t].log, h.reigns[t].base);
    ConfNormal(h, Inherited(h, t));
    ConfNormal(h, log);
  }

  /** Scanning what is left of the log, then the snapshot, finds what scanning the whole log would. */
  lemma RescanIsFull(h: Hist, n: Node)
    requires Consistent(h) && Normal(h.boot) && GoodLog(h, n.log) && n.cfg.boot == h.boot
    requires n.floor <= n.snap.lastIndex <= |n.log| && SnapPart(h.boot, n.snap, n.log)
    ensures ConfPart(h.boot, n.log, Rescan(n).0, Rescan(n).1, n.snap.lastIndex)
  {
    var k := LastConfIndex(n.log);
    if k <= n.floor && n.snap.lastIndex > 0 {
      ConfOfCut(h.boot, n.log, n.snap.lastIndex);
      ConfNormal(h, n.log);
    }
  }

  // ---------------------------------------------------------------------------
  // Appending
  // ---------------------------------------------------------------------------

  /** May the leader append `p`? A configuration entry has to follow from the configuration in force,
      which has to be committed, by this leader, in its own term. */
  ghost predicate MayAppend(n: Node, p: Payload) {
    p.ConfEntry? ==>
      && ConfStep(n.conf, p.change)
      && n.confIndex <= n.committed
      && CommittedInCurrentTerm(n)
  }

  lemma OwnCommit(h: Hist, n: Node) returns (c: Commit)
    requires OK(h, n) && CommittedInCurrentTerm(n)
    ensures c in h.commits && c.term == n.term && n.committed <= c.index
  {
    c :| c in h.commits && c.term <= n.term && n.committed <= c.index && Held(h, c.term, n.committed, n.log);
    var log := h.reigns[c.term].log;
    assert log[..n.committed][n.committed - 1] == n.log[n.committed - 1];
    ReignTerms(h, c.term, n.committed - 1);
  }

  lemma OwnEntryRecorded(h: Hist, n: Node, p: Payload) returns (g: Hist)
    requires OK(h, n) && n.role == Leader && MayAppend(n, p)
    ensures Consistent(g) && Grows(h, g, n.id) && g.boot == h.boot
    ensures n.term in g.reigns && g.reigns[n.term].log == n.log + [Entry(|n.log| + 1, n.term, p)]
    ensures g.ballots == h.ballots && g.cands == h.cands && g.commits == h.commits && g.barriers == h.barriers
    ensures Acked(g, n.id, n.term) == |n.log| + 1
    ensures forall u: Term :: u != n.term ==> Acked(g, n.id, u) == Acked(h, n.id, u)
  {
    hide *;
    var e := Entry(|n.log| + 1, n.term, p);
    MayRecord(h, n, p);
    EntryRecorded(h, n.term, e);
    var k := WithEntry(h, n.term, e);
    EntryShape(h, n.term, e);
    AckRecorded(k, n.id, n.term, e.index);
    g := WithAck(k, n.id, n.term, e.index);
    AckShape(h, k, n.id, n.term, e.index);
    GrowsTransitive(h, k, g, n.id);
  }

  lemma MayRecord(h: Hist, n: Node, p: Payload)
    requires OK(h, n) && n.role == Leader && MayAppend(n, p)
    ensures Consistent(h) && n.term in h.reigns && h.reigns[n.term].leader == n.id && h.reigns[n.term].log == n.log
    ensures p.ConfEntry? ==>
              && ConfStep(ConfOf(h.boot, n.log), p.change)
              && (LastConfIndex(n.log) > 0 ==>
                exists c :: c in h.commits && c.term == n.term && LastConfIndex(n.log) <= c.index)
    ensures forall k :: k in h.ballots && k.node == n.id ==> k.term <= n.term
    ensures Acked(h, n.id, n.term) <= |n.log|
  {
    if p.ConfEntry? {
      var c := OwnCommit(h, n);
    }
    AckBound(h, n, n.id);
  }

  /** Acknowledging a longer prefix of one's own leader's log, which one holds. */
  lemma AckPartAfterAck(h: Hist, g: Hist, id: NodeID, t: Term, i: Index, log: seq<Entry>, more: seq<Entry>)
    requires Consistent(h) && Grows(h, g, id) && AckPart(h, id, t, log) && log <= more
    requires t in g.reigns && Held(g, t, Acked(g, id, t), more)
    requires forall u: Term :: u != t ==> Acked(g, id, u) == Acked(h, id, u)
    ensures AckPart(g, id, t, more)
  {
    var b := t + 1;
    forall u: Term, j: Index | u < b && 0 < j <= Acked(g, id, u) ensures Kept(g, u, j, b, more) {
      if u == t {
        var mine := g.reigns[t].log;
        assert mine[..j] == mine[..Acked(g, id, t)][..j];
        assert Held(g, t, j, more);
      } else {
        assert Kept(h, u, j, b, log);
        assert Key(id, u) in h.acked;
        KeptGrows(h, g, id, u, j, b, log);
        assert Held(g, u, j, log) ==> Held(g, u, j, more);
      }
    }
  }

  /** What a leader believes about `v` after appending its entry at `last`. */
  predicate TrackedAfter(n: Node, last: pos, v: NodeID, pr: Progress) {
    if v != n.id && v in n.progress then pr == n.progress[v]
    else pr.next == last + 1 && pr.matched == if v == n.id then last else 0
  }

  lemma AppendOwnShape(n: Node, p: Payload)
    requires Sized(n)
    ensures var e := Entry(|n.log| + 1, n.term, p);
            var n1 := n.(log := n.log + [e]);
            var r := AppendOwn(n, p);
            && r == n.(log := n.log + [e], conf := r.conf, confIndex := r.confIndex, progress := r.progress)
            && (r.conf, r.confIndex) == (if p.ConfEntry? then Rescan(n1) else (n.conf, n.confIndex))
            && forall v :: v in r.progress ==> TrackedAfter(n, e.index, v, r.progress[v])
  {
    hide Members, Rescan;
  }

  lemma AppendOwnOK(h: Hist, n: Node, p: Payload) returns (g: Hist)
    requires OK(h, n) && n.role == Leader && MayAppend(n, p)
    ensures Moves(h, n, g, AppendOwn(n, p))
  {
    hide *;
    g := OwnEntryRecorded(h, n, p);
    Unpack(h, n);
    AppendOwnShape(n, p);
    var r := AppendOwn(n, p);
    OwnPartsGrow(h, g, n, r, |r.log|);
    AppendOwnConf(h, g, n, p, r);
    AppendOwnLeads(h, g, n, r);
    Pack(h, n, g, r);
  }

  lemma AppendOwnConf(h: Hist, g: Hist, n: Node, p: Payload, r: Node)
    requires OK(h, n) && Consistent(g) && g.boot == h.boot && LogPart(g, r.log, r.term)
    requires r == n.(log := n.log + [Entry(|n.log| + 1, n.term, p)], conf := r.conf, confIndex := r.confIndex,
             progress := r.progress)
    requires (r.conf, r.confIndex) == (if p.ConfEntry? then Rescan(n.(log := r.log)) else (n.conf, n.confIndex))
    ensures DiskPart(h.boot, r.hard, r.term, r.vote, r.log, r.floor, r.snap, r.applied, r.committed)
    ensures ConfPart(h.boot, r.log, r.conf, r.confIndex, r.snap.lastIndex)
  {
    ConfOfAppend(h.boot, n.log, r.log[|n.log|]);
    assert n.snap.lastIndex > 0 ==> r.log[..n.snap.lastIndex] == n.log[..n.snap.lastIndex];
    if p.ConfEntry? { RescanIsFull(g, n.(log := r.log)); }
  }

  lemma AppendOwnLeads(h: Hist, g: Hist, n: Node, r: Node)
    requires OK(h, n) && n.role == Leader && Grows(h, g, n.id) && n.term in g.reigns && g.reigns[n.term].log == r.log
    requires g.commits == h.commits
    requires Acked(g, n.id, n.term) == |r.log| == |n.log| + 1
    requires forall v :: v in r.progress ==> TrackedAfter(n, |r.log|, v, r.progress[v])
    ensures LeaderPart(g, n.id, n.term, r.log, r.progress, n.committed)
  {
    assert forall v: NodeID :: Acked(h, v, n.term) <= Acked(g, v, n.term);
  }

  /** Nobody has acknowledged more than a leader has. */
  lemma AckBound(h: Hist, n: Node, v: NodeID)
    requires OK(h, n) && n.role == Leader
    ensures Acked(h, v, n.term) <= |n.log|
  {
    assert Key(v, n.term) in h.acked ==> h.acked[Key(v, n.term)] <= |h.reigns[n.term].log|;
  }

  /** What survives of a leader's invariant when it extends its log and acknowledges all of it. */
  lemma OwnPartsGrow(h: Hist, g: Hist, n: Node, r: Node, last: Index)
    requires OK(h, n) && Consistent(g) && Grows(h, g, n.id)
    requires r == n.(log := r.log, conf := r.conf, confIndex := r.confIndex, progress := r.progress)
    requires n.log <= r.log && n.term in g.reigns && g.reigns[n.term].log == r.log
    requires Acked(g, n.id, n.term) == last == |r.log|
    requires g.ballots == h.ballots && g.cands == h.cands
    requires forall u: Term :: u != n.term ==> Acked(g, n.id, u) == Acked(h, n.id, u)
    ensures LogPart(g, r.log, r.term) && VotePart(g, r.id, r.term, r.vote) && CandPart(g, r.id, r.term)
    ensures AckPart(g, r.id, r.term, r.log)
    ensures Settled(g, r.log, r.committed, r.term)
    ensures ReadPart(g, r.term, r.pendingReads, r.readStates)
    ensures MsgsPart(g, r.id, r.msgs)
  {
    hide *;
    Unpack(h, n);
    ReignLogPart(g, n.term);
    VotesStay(h, g, n.id, n.term, n.vote);
    ReadsStay(h, g, n.id, n.term, n.pendingReads, n.readStates);
    ReignHeld(g, n.term);
    AckPartAfterAck(h, g, n.id, n.term, last, n.log, r.log);
    SettledGrows(h, g, n.id, n.log, n.committed, n.term);
    assert n.log[..n.committed] == r.log[..n.committed];
    SettledExtends(g, n.log, r.log, n.committed, n.term, n.term);
    MsgsGrow(h, g, n.id, n.id, n.msgs);
  }

  lemma ReignLogPart(h: Hist, t: Term)
    requires Consistent(h) && t in h.reigns
    ensures LogPart(h, h.reigns[t].log, t)
  {
    assert ReignOK(h, t);
    forall i | 0 <= i < |h.reigns[t].log| ensures h.reigns[t].log[i].term < t + 1 { ReignTerms(h, t, i); }
  }

  lemma ReignHeld(h: Hist, t: Term)
    requires t in h.reigns
    ensures Held(h, t, |h.reigns[t].log|, h.reigns[t].log)
  {}

  // ---------------------------------------------------------------------------
  // Committing
  // ---------------------------------------------------------------------------

  /** The commit candidate is an index of the leader's log that a quorum really has acknowledged. */
  lemma CandidateAcked(h: Hist, n: Node, i: Index)
    requires OK(h, n) && n.role == Leader && i == CommittedIndex(n.conf, Matched(n)) > 0
    ensures i <= |n.log| && Quorum(ConfOf(h.boot, n.log), Ackers(h, n.term, i))
  {
    var reached := Reached(n.conf, Matched(n), i);
    CommittedIndexIsQuorum(n.conf, Matched(n), i);
    forall v | v in reached ensures v in Ackers(h, n.term, i) {
      assert v in n.progress;
      assert Acked(h, v, n.term) >= i;
      assert Key(v, n.term) in h.acked;
    }
    QuorumMonotone(n.conf, reached, Ackers(h, n.term, i));
    if reached == {} {
      CountMonotone(n.conf.voters, {}, {});
      CountNone(n.conf.voters);
    }
    var v :| v in reached;
    assert Key(v, n.term) in h.acked && h.acked[Key(v, n.term)] >= i;
  }

  lemma {:induction false} CountNone(voters: seq<NodeID>)
    ensures Count(voters, {}) == 0
  {
    if voters != [] { CountNone(voters[1..]); }
  }

  lemma AdvanceOK(h: Hist, n: Node, i: Index) returns (g: Hist)
    requires OK(h, n) && n.role == Leader && i == CommittedIndex(n.conf, Matched(n)) > n.committed
    requires TermOf(n, i) == Some(n.term)
    ensures Moves(h, n, g, Persist(CommitTo(n, i)))
    ensures CommittedInCurrentTerm(Persist(CommitTo(n, i)))
    ensures Persist(CommitTo(n, i)).role == Leader && Sized(Persist(CommitTo(n, i)))
  {
    hide *;
    Unpack(h, n);
    var c := AdvanceCommit(h, n, i);
    g := AdvanceRecorded(h, n, c);
    AdvanceShape(h, n, i);
    AdvanceParts(h, g, n, c);
    StableParts(h, g, n);
    Pack(h, n, g, Persist(CommitTo(n, i)));
  }

  lemma AdvanceShape(h: Hist, n: Node, i: Index)
    requires OK(h, n) && n.role == Leader && n.committed < i <= |n.log| && TermOf(n, i) == Some(n.term)
    ensures var r := Persist(CommitTo(n, i));
            && r == n.(committed := i, hard := HardState(n.term, n.vote, i))
            && r.role == Leader && Sized(r) && CommittedInCurrentTerm(r)
  {}

  lemma AdvanceCommit(h: Hist, n: Node, i: Index) returns (c: Commit)
    requires OK(h, n) && n.role == Leader && i == CommittedIndex(n.conf, Matched(n)) > n.committed
    requires TermOf(n, i) == Some(n.term)
    ensures c == Commit(n.term, i, |n.log|) && CommitOK(h, c) && i <= |n.log|
  {
    c := Commit(n.term, i, |n.log|);
    CandidateAcked(h, n, i);
    ReignTerms(h, n.term, i - 1);
    assert n.log[..|n.log|] == n.log;
  }

  lemma AdvanceRecorded(h: Hist, n: Node, c: Commit) returns (g: Hist)
    requires OK(h, n) && n.role == Leader && CommitOK(h, c) && c.term == n.term
    ensures g == WithCommit(h, c) && g.barriers == h.barriers && Consistent(g) && Grows(h, g, n.id) && CommitOK(g, c)
    ensures forall t: Term :: Acked(g, n.id, t) == Acked(h, n.id, t)
  {
    Unpack(h, n);
    hide OK, NodeOK, Consistent, Grows, CommitOK;
    CommitRecorded(h, c);
    g := WithCommit(h, c);
    CommitGrows(h, g, n.id, c);
  }

  lemma AdvanceParts(h: Hist, g: Hist, n: Node, c: Commit)
    requires OK(h, n) && n.role == Leader && g == WithCommit(h, c) && CommitOK(g, c)
    requires c.term == n.term && n.committed < c.index <= |n.log|
    ensures VotePart(g, n.id, n.term, n.vote) && CandPart(g, n.id, n.term)
    ensures LeaderPart(g, n.id, n.term, n.log, n.progress, c.index)
    ensures Settled(g, n.log, c.index, n.term)
    ensures DiskPart(h.boot, HardState(n.term, n.vote, c.index), n.term, n.vote, n.log, n.floor, n.snap, n.applied,
            c.index)
  {
    Unpack(h, n);
    hide OK, NodeOK, Consistent, SnapPart;
    assert forall v: NodeID, u: Term :: Acked(g, v, u) == Acked(h, v, u);
    assert Held(g, c.term, c.index, n.log);
  }

  /** After a leader's move it still leads, or has dropped its bookkeeping. */
  predicate LeadsOrIdle(n: Node) { n.role == Leader || n.progress == map[] }

  lemma BroadcastAfter(h: Hist, n: Node)
    requires OK(h, n) && LeadsOrIdle(n)
    ensures Moves(h, n, h, BroadcastAppend(n)) && LeadsOrIdle(BroadcastAppend(n))
  {
    hide NodeOK, Consistent, Grows;
    GrowsReflexive(h, n.id);
    BroadcastOK(h, n);
  }

  lemma {:induction false} ProposeOK(h: Hist, n: Node, p: Payload) returns (g: Hist)
    requires OK(h, n) && n.role == Leader && MayAppend(n, p)
    ensures Moves(h, n, g, Propose(n, p)) && LeadsOrIdle(Propose(n, p))
    decreases JointRank(AppendOwn(n, p)) + 1
  {
    hide NodeOK, Consistent, Grows, AppendOwn, MaybeAdvanceCommit, BroadcastAppend;
    OKFacts(h, n);
    AppendOwnShape(n, p);
    var n1 := AppendOwn(n, p);
    var k := AppendOwnOK(h, n, p);
    OKFacts(k, n1);
    g := MaybeAdvanceCommitOK(k, n1);
    OKFacts(g, MaybeAdvanceCommit(n1));
    MovesTransitive(h, n, k, n1, g, MaybeAdvanceCommit(n1));
    BroadcastAfter(g, MaybeAdvanceCommit(n1));
  }

  lemma {:induction false} MaybeAdvanceCommitOK(h: Hist, n: Node) returns (g: Hist)
    requires OK(h, n) && LeadsOrIdle(n)
    ensures Moves(h, n, g, MaybeAdvanceCommit(n)) && LeadsOrIdle(MaybeAdvanceCommit(n))
    decreases JointRank(n)
  {
    hide NodeOK, Consistent, Grows, CommittedIndex, MaybeLeaveJoint, StepDownIfRemoved, CommitTo, Persist;
    g := h;
    GrowsReflexive(h, n.id);
    OKFacts(h, n);
    var i := CommittedIndex(n.conf, Matched(n));
    if n.role == Leader && i > n.committed {
      CandidateAcked(h, n, i);
      if TermOf(n, i) == Some(n.term) {
        g := CommitAndLeaveOK(h, n, i);
      }
    }
  }

  lemma {:induction false} CommitAndLeaveOK(h: Hist, n: Node, i: Index) returns (g: Hist)
    requires OK(h, n) && n.role == Leader && i == CommittedIndex(n.conf, Matched(n)) > n.committed
    requires TermOf(n, i) == Some(n.term)
    ensures Sized(Persist(CommitTo(n, i)))
    ensures var n1 := Persist(CommitTo(n, i));
            var n2 := MaybeLeaveJoint(n1);
            && !n1.fault && !n2.fault
            && Moves(h, n, g, StepDownIfRemoved(n2)) && LeadsOrIdle(StepDownIfRemoved(n2))
    decreases JointRank(n), 1
  {
    hide NodeOK, Consistent, Grows, MaybeLeaveJoint, CommitTo, Persist, CommittedIndex, CommittedInCurrentTerm, TermOf;
    hide Matched;
    CandidateAcked(h, n, i);
    AdvanceShape(h, n, i);
    var n1 := Persist(CommitTo(n, i));
    var k := AdvanceOK(h, n, i);
    OKFacts(k, n1);
    g := MaybeLeaveJointOK(k, n1);
    OKFacts(g, MaybeLeaveJoint(n1));
    MovesTransitive(h, n, k, n1, g, MaybeLeaveJoint(n1));
    StandDownOK(g, MaybeLeaveJoint(n1), NONE);
  }

  lemma {:induction false} MaybeLeaveJointOK(h: Hist, n: Node) returns (g: Hist)
    requires OK(h, n) && n.role == Leader && CommittedInCurrentTerm(n)
    ensures Moves(h, n, g, MaybeLeaveJoint(n)) && LeadsOrIdle(MaybeLeaveJoint(n))
    decreases JointRank(n), 0
  {
    g := h;
    GrowsReflexive(h, n.id);
    if n.conf.IsJoint() && n.confIndex <= n.committed {
      NotEmptyOnceLed(h, n.term, n.log);
      ConfNormal(h, n.log);
      OKFacts(h, n);
      hide NodeOK, Consistent, Grows, Propose;
      LeaveJointSteps(n.conf);
      LeavingIsNotJoint(n);
      g := ProposeOK(h, n, ConfEntry(LeaveJoint(n.conf).change));
    }
  }

  lemma ProposeConfChangeOK(h: Hist, n: Node, target: Configuration) returns (g: Hist)
    requires OK(h, n)
    ensures Moves(h, n, g, ProposeConfChange(n, target))
  {
    g := h;
    GrowsReflexive(h, n.id);
    if ConfChangeError(n, target).None? {
      NotEmptyOnceLed(h, n.term, n.log);
      ConfNormal(h, n.log);
      OKFacts(h, n);
      hide NodeOK, Consistent, Grows, Propose;
      EnterJointSteps(n.conf, target);
      g := ProposeOK(h, n, ConfEntry(EnterJoint(n.conf, target).change));
    }
  }
}
