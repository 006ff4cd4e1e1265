/** Histories only grow, each node adding only its own events, and every kind of event keeps a
history consistent. */
module HistoryGrowth {
  import opened Configurations
  import opened RaftTypes
  import opened History

  /** `g` is `h` with more events in it, all of them events of node `id`. */
  ghost predicate Grows(h: Hist, g: Hist, id: NodeID) {
    && h.boot == g.boot
    && (forall t :: t in h.reigns ==>
          && t in g.reigns
          && g.reigns[t].leader == h.reigns[t].leader && g.reigns[t].base == h.reigns[t].base
          && g.reigns[t].voters == h.reigns[t].voters
          && h.reigns[t].log <= g.reigns[t].log
          && (h.reigns[t].leader != id ==> g.reigns[t] == h.reigns[t]))
    && (forall t :: t in g.reigns && t !in h.reigns ==> g.reigns[t].leader == id)
    && (forall k :: k in h.cands ==> k in g.cands && g.cands[k] == h.cands[k])
    && (forall k :: k in g.cands && k !in h.cands ==> k.node == id)
    && (forall k :: k in h.ballots ==> k in g.ballots && g.ballots[k] == h.ballots[k])
    && (forall k :: k in g.ballots && k !in h.ballots ==> k.node == id)
    && (forall v: NodeID, t: Term :: Acked(h, v, t) <= Acked(g, v, t))
    && (forall v: NodeID, t: Term :: v != id ==> Acked(h, v, t) == Acked(g, v, t))
    && h.commits <= g.commits
    && (forall c :: c in g.commits && c !in h.commits ==> c.term in g.reigns && g.reigns[c.term].leader == id)
    && (forall k :: k in h.barriers ==> k in g.barriers && g.barriers[k] == h.barriers[k])
  }

  lemma GrowsTransitive(a: Hist, b: Hist, c: Hist, id: NodeID)
    requires Grows(a, b, id) && Grows(b, c, id)
    ensures Grows(a, c, id)
  {
    assert forall v: NodeID, t: Term :: Acked(a, v, t) <= Acked(b, v, t) <= Acked(c, v, t);
  }

  // ---------------------------------------------------------------------------
  // What growth preserves
  // ---------------------------------------------------------------------------

  lemma GoodLogGrows(h: Hist, g: Hist, id: NodeID, log: seq<Entry>)
    requires Grows(h, g, id) && GoodLog(h, log)
    ensures GoodLog(g, log)
  {
    forall i | 0 <= i < |log| ensures GoodAt(g, log, i) {
      assert GoodAt(h, log, i);
      var t := log[i].term;
      assert g.reigns[t].log[..i + 1] == h.reigns[t].log[..i + 1];
    }
  }

  lemma HeldGrows(h: Hist, g: Hist, id: NodeID, t: Term, i: Index, log: seq<Entry>)
    requires Grows(h, g, id) && t in h.reigns && i <= |h.reigns[t].log|
    ensures Held(g, t, i, log) <==> Held(h, t, i, log)
  {
    assert g.reigns[t].log[..i] == h.reigns[t].log[..i];
  }

  lemma KeptGrows(h: Hist, g: Hist, id: NodeID, t: Term, i: Index, b: Term, log: seq<Entry>)
    requires Grows(h, g, id) && t in h.reigns && i <= |h.reigns[t].log| && Kept(h, t, i, b, log)
    ensures Kept(g, t, i, b, log)
  {
    HeldGrows(h, g, id, t, i, log);
    if !Held(h, t, i, log) {
      var u :| t < u < b && Lacked(h, t, i, u);
      assert Inherited(g, u) == Inherited(h, u);
      HeldGrows(h, g, id, t, i, Inherited(h, u));
      assert Lacked(g, t, i, u);
    }
  }

  ghost predicate AcksBounded(h: Hist) {
    forall k :: k in h.acked ==> k.term in h.reigns && h.acked[k] <= |h.reigns[k.term].log|
  }

  lemma KeptAllGrows(h: Hist, g: Hist, id: NodeID, v: NodeID, below: Term, b: Term, log: seq<Entry>)
    requires Grows(h, g, id) && AcksBounded(h) && KeptAll(h, v, below, b, log)
    requires forall t: Term :: t < below ==> Acked(g, v, t) == Acked(h, v, t)
    ensures KeptAll(g, v, below, b, log)
  {
    forall t: Term, i: Index | t < below && 0 < i <= Acked(g, v, t) ensures Kept(g, t, i, b, log) {
      assert Kept(h, t, i, b, log);
      assert Key(v, t) in h.acked;
      KeptGrows(h, g, id, t, i, b, log);
    }
  }

  lemma KeptAllWidens(h: Hist, v: NodeID, below: Term, b: Term, below': Term, b': Term, log: seq<Entry>)
    requires KeptAll(h, v, below, b, log) && b <= b'
    requires forall t: Term :: below <= t < below' ==> Acked(h, v, t) == 0
    ensures KeptAll(h, v, below', b', log)
  {
    forall t: Term, i: Index | t < below' && 0 < i <= Acked(h, v, t) ensures Kept(h, t, i, b', log) {
      assert Kept(h, t, i, b, log);
    }
  }

  /** No node acknowledges an earlier term once it has voted in a later one. */
  ghost predicate VotersMovedOn(h: Hist, g: Hist) {
    forall k, t: Term :: k in h.ballots && t < k.term ==> Acked(g, k.node, t) == Acked(h, k.node, t)
  }

  lemma BallotGrows(h: Hist, g: Hist, id: NodeID, k: Key)
    requires Grows(h, g, id) && VotersMovedOn(h, g) && AcksBounded(h) && k in h.ballots && BallotOK(h, k)
    ensures BallotOK(g, k)
  {
    var b := h.ballots[k];
    GoodLogGrows(h, g, id, b.log);
    KeptAllGrows(h, g, id, k.node, k.term, k.term + 1, b.log);
  }

  lemma CandGrows(h: Hist, g: Hist, id: NodeID, k: Key)
    requires Grows(h, g, id) && k in h.cands && CandOK(h, k)
    ensures CandOK(g, k)
  {
    GoodLogGrows(h, g, id, h.cands[k]);
  }

  lemma AckersGrow(h: Hist, g: Hist, id: NodeID, t: Term, i: Index)
    requires Grows(h, g, id) && i > 0
    ensures Ackers(h, t, i) <= Ackers(g, t, i)
  {
    forall v | v in Ackers(h, t, i) ensures v in Ackers(g, t, i) {
      assert Acked(h, v, t) <= Acked(g, v, t);
      assert Key(v, t) in g.acked;
    }
  }

  lemma CommitGrows(h: Hist, g: Hist, id: NodeID, c: Commit)
    requires Grows(h, g, id) && CommitOK(h, c)
    ensures CommitOK(g, c)
  {
    AckersGrow(h, g, id, c.term, c.index);
    assert g.reigns[c.term].log[..c.length] == h.reigns[c.term].log[..c.length];
    QuorumMonotone(ConfOf(h.boot, h.reigns[c.term].log[..c.length]), Ackers(h, c.term, c.index),
      Ackers(g, c.term, c.index));
  }

  lemma BarrierGrows(h: Hist, g: Hist, id: NodeID, k: ReadKey)
    requires Grows(h, g, id) && k in h.barriers && BarrierOK(h, k)
    ensures BarrierOK(g, k)
  {
    forall v | v in VotedLater(h, k.term) ensures v in VotedLater(g, k.term) {
      var j :| j in h.ballots && j.term > k.term && j.node == v;
      assert j in g.ballots;
    }
    if h.barriers[k].overtakenBy.Some? {
      var u := h.barriers[k].overtakenBy.value;
      assert Inherited(g, u) == Inherited(h, u);
    }
  }

  lemma ChainGrows(h: Hist, g: Hist, id: NodeID, t: Term, k: nat)
    requires Grows(h, g, id) && t in h.reigns && k < |h.reigns[t].log| && h.reigns[t].log[k].payload.ConfEntry?
    requires ChainAt(h, t, k)
    ensures k < |g.reigns[t].log| && g.reigns[t].log[k] == h.reigns[t].log[k] && ChainAt(g, t, k)
  {
    assert g.reigns[t].log[..k] == h.reigns[t].log[..k];
  }

  lemma VoterGrows(h: Hist, g: Hist, id: NodeID, v: NodeID, t: Term)
    requires Grows(h, g, id) && VotersMovedOn(h, g) && AcksBounded(h) && t in h.reigns && VoterOK(h, v, t)
    ensures VoterOK(g, v, t)
  {
    KeptAllGrows(h, g, id, v, t, t, h.ballots[Key(v, t)].log);
  }

  /** A reign stays as it should be provided what was added to its log is. */
  lemma ReignGrows(h: Hist, g: Hist, id: NodeID, t: Term)
    requires Grows(h, g, id) && VotersMovedOn(h, g) && AcksBounded(h) && t in h.reigns && ReignOK(h, t)
    requires forall i :: |h.reigns[t].log| <= i < |g.reigns[t].log| ==>
                           && g.reigns[t].log[i].term == t && g.reigns[t].log[i].index == i + 1
                           && (g.reigns[t].log[i].payload.ConfEntry? ==> ChainAt(g, t, i))
    ensures ReignOK(g, t)
  {
    var r, s := h.reigns[t], g.reigns[t];
    assert s.log[..s.base] == r.log[..r.base];
    assert forall i :: 0 <= i < |r.log| ==> s.log[i] == r.log[i];
    forall i | 0 <= i < |s.log| ensures GoodAt(g, s.log, i) {
      if i < |r.log| {
        assert GoodAt(h, r.log, i);
        var u := r.log[i].term;
        assert g.reigns[u].log[..i + 1] == h.reigns[u].log[..i + 1];
        assert s.log[..i + 1] == r.log[..i + 1];
      }
    }
    forall v | v in s.voters ensures VoterOK(g, v, t) { assert VoterOK(h, v, t); VoterGrows(h, g, id, v, t); }
    forall k | s.base <= k < |s.log| && s.log[k].payload.ConfEntry? ensures ChainAt(g, t, k) {
      if k < |r.log| { assert ChainAt(h, t, k); ChainGrows(h, g, id, t, k); }
    }
  }

  /** The part of consistency that concerns events already recorded. */
  lemma OldEventsStay(h: Hist, g: Hist, id: NodeID)
    requires Consistent(h) && Grows(h, g, id) && VotersMovedOn(h, g)
    ensures AcksBounded(h)
    ensures forall t {:trigger ReignOK(g, t)} :: t in h.reigns && g.reigns[t].log == h.reigns[t].log ==> ReignOK(g, t)
    ensures forall k {:trigger CandOK(g, k)} :: k in h.cands ==> CandOK(g, k)
    ensures forall k {:trigger BallotOK(g, k)} :: k in h.ballots ==> BallotOK(g, k)
    ensures forall c {:trigger CommitOK(g, c)} :: c in h.commits ==> CommitOK(g, c)
    ensures forall k {:trigger BarrierOK(g, k)} :: k in h.barriers ==> BarrierOK(g, k)
  {
    forall t | t in h.reigns && g.reigns[t].log == h.reigns[t].log ensures ReignOK(g, t) {
      assert ReignOK(h, t);
      ReignGrows(h, g, id, t);
    }
    forall k | k in h.cands ensures CandOK(g, k) { assert CandOK(h, k); CandGrows(h, g, id, k); }
    forall k | k in h.ballots ensures BallotOK(g, k) { assert BallotOK(h, k); BallotGrows(h, g, id, k); }
    forall c | c in h.commits ensures CommitOK(g, c) { assert CommitOK(h, c); CommitGrows(h, g, id, c); }
    forall k | k in h.barriers ensures BarrierOK(g, k) { assert BarrierOK(h, k); BarrierGrows(h, g, id, k); }
  }

  // ---------------------------------------------------------------------------
  // The events
  // ---------------------------------------------------------------------------

  /** A node stands for election, which includes voting for itself. */
  function WithCampaign(h: Hist, id: NodeID, t: Term, log: seq<Entry>): Hist {
    h.(cands := h.cands[Key(id, t) := log], ballots := h.ballots[Key(id, t) := Ballot(id, log)])
  }

  lemma CampaignRecorded(h: Hist, id: NodeID, t: Term, log: seq<Entry>)
    requires Consistent(h) && Key(id, t) !in h.cands && Key(id, t) !in h.ballots
    requires t > 0 && GoodLog(h, log) && Below(log, t) && KeptAll(h, id, t, t, log)
    ensures Consistent(WithCampaign(h, id, t, log)) && Grows(h, WithCampaign(h, id, t, log), id)
  {
    hide ReignOK, CandOK, BallotOK, CommitOK, BarrierOK, Grows, VotersMovedOn, GoodLog, KeptAll, Below, Acked;
    var g := WithCampaign(h, id, t, log);
    QuietGrows(h, g, id);
    OldEventsStay(h, g, id);
    NewCampaignOK(h, id, t, log);
    assert CandOK(g, Key(id, t)) && BallotOK(g, Key(id, t));
  }

  /** Standing, voting, winning, committing and taking a barrier acknowledge nothing. */
  lemma QuietGrows(h: Hist, g: Hist, id: NodeID)
    requires g.boot == h.boot && g.acked == h.acked && h.commits <= g.commits
    requires forall t :: t in h.reigns ==> t in g.reigns && g.reigns[t] == h.reigns[t]
    requires forall t :: t in g.reigns && t !in h.reigns ==> g.reigns[t].leader == id
    requires forall k :: k in h.cands ==> k in g.cands && g.cands[k] == h.cands[k]
    requires forall k :: k in g.cands && k !in h.cands ==> k.node == id
    requires forall k :: k in h.ballots ==> k in g.ballots && g.ballots[k] == h.ballots[k]
    requires forall k :: k in g.ballots && k !in h.ballots ==> k.node == id
    requires forall c :: c in g.commits && c !in h.commits ==> c.term in g.reigns && g.reigns[c.term].leader == id
    requires forall k :: k in h.barriers ==> k in g.barriers && g.barriers[k] == h.barriers[k]
    ensures Grows(h, g, id) && VotersMovedOn(h, g)
    ensures forall v: NodeID, u: Term :: Acked(g, v, u) == Acked(h, v, u)
  {}

  lemma NewCampaignOK(h: Hist, id: NodeID, t: Term, log: seq<Entry>)
    requires Consistent(h) && Grows(h, WithCampaign(h, id, t, log), id)
    requires t > 0 && GoodLog(h, log) && Below(log, t) && KeptAll(h, id, t, t, log)
    ensures CandOK(WithCampaign(h, id, t, log), Key(id, t)) && BallotOK(WithCampaign(h, id, t, log), Key(id, t))
  {
    hide ReignOK, CommitOK, BarrierOK, Grows, GoodLog, KeptAll;
    var g := WithCampaign(h, id, t, log);
    GoodLogGrows(h, g, id, log);
    KeptAllGrows(h, g, id, id, t, t, log);
    KeptAllWidens(g, id, t, t, t, t + 1, log);
  }

  /** A node votes for another. */
  function WithBallot(h: Hist, id: NodeID, t: Term, cand: NodeID, log: seq<Entry>): Hist {
    h.(ballots := h.ballots[Key(id, t) := Ballot(cand, log)])
  }

  lemma BallotRecorded(h: Hist, id: NodeID, t: Term, cand: NodeID, log: seq<Entry>)
    requires Consistent(h) && Key(id, t) !in h.ballots && Key(cand, t) in h.cands
    requires UpToDate(|h.cands[Key(cand, t)]|, LastTerm(h.cands[Key(cand, t)]), log)
    requires GoodLog(h, log) && KeptAll(h, id, t, t + 1, log)
    ensures Consistent(WithBallot(h, id, t, cand, log)) && Grows(h, WithBallot(h, id, t, cand, log), id)
  {
    hide ReignOK, CandOK, BallotOK, CommitOK, BarrierOK, Grows, VotersMovedOn, GoodLog, KeptAll, Acked;
    var g := WithBallot(h, id, t, cand, log);
    QuietGrows(h, g, id);
    OldEventsStay(h, g, id);
    NewBallotOK(h, id, t, cand, log);
    assert BallotOK(g, Key(id, t));
  }

  lemma NewBallotOK(h: Hist, id: NodeID, t: Term, cand: NodeID, log: seq<Entry>)
    requires Consistent(h) && Grows(h, WithBallot(h, id, t, cand, log), id) && Key(cand, t) in h.cands
    requires UpToDate(|h.cands[Key(cand, t)]|, LastTerm(h.cands[Key(cand, t)]), log)
    requires GoodLog(h, log) && KeptAll(h, id, t, t + 1, log)
    ensures BallotOK(WithBallot(h, id, t, cand, log), Key(id, t))
  {
    hide ReignOK, CommitOK, BarrierOK, Grows, GoodLog, KeptAll;
    var g := WithBallot(h, id, t, cand, log);
    GoodLogGrows(h, g, id, log);
    KeptAllGrows(h, g, id, id, t, t + 1, log);
  }

  /** A candidate that has collected a quorum becomes leader, appending one entry of its own. */
  function WithReign(h: Hist, id: NodeID, t: Term, log: seq<Entry>, e: Entry, voters: set<NodeID>): Hist {
    h.(reigns := h.reigns[t := Reign(id, |log|, log + [e], voters)])
  }

  lemma ReignRecorded(h: Hist, id: NodeID, t: Term, log: seq<Entry>, e: Entry, voters: set<NodeID>)
    requires Consistent(h) && t !in h.reigns
    requires Key(id, t) in h.cands && h.cands[Key(id, t)] == log
    requires Quorum(ConfOf(h.boot, log), voters)
    requires forall v :: v in voters ==> Key(v, t) in h.ballots && h.ballots[Key(v, t)].cand == id
    requires e.index == |log| + 1 && e.term == t && !e.payload.ConfEntry?
    ensures Consistent(WithReign(h, id, t, log, e, voters)) && Grows(h, WithReign(h, id, t, log, e, voters), id)
  {
    hide ReignOK, CandOK, BallotOK, CommitOK, BarrierOK, Grows, VotersMovedOn, GoodLog, KeptAll, Acked, Quorum, ConfOf;
    var g := WithReign(h, id, t, log, e, voters);
    QuietGrows(h, g, id);
    OldEventsStay(h, g, id);
    assert CandOK(h, Key(id, t));
    NewLogOK(h, g, id, t, log, e);
    forall v | v in voters ensures VoterOK(g, v, t) {
      assert BallotOK(h, Key(v, t));
      ElectorOK(h, g, id, t, v);
    }
    NewReignOK(g, id, t, log, e, voters);
    assert ReignOK(g, t);
  }

  lemma NewLogOK(h: Hist, g: Hist, id: NodeID, t: Term, log: seq<Entry>, e: Entry)
    requires Grows(h, g, id) && Key(id, t) in h.cands && h.cands[Key(id, t)] == log && CandOK(h, Key(id, t))
    requires e.index == |log| + 1 && e.term == t && t in g.reigns && g.reigns[t].log == log + [e]
    ensures GoodLog(g, log + [e]) && Below(log, t)
  {
    var all := log + [e];
    GoodLogGrows(h, g, id, log);
    forall i | 0 <= i < |all| ensures GoodAt(g, all, i) {
      if i < |log| {
        assert GoodAt(g, log, i);
        assert all[..i + 1] == log[..i + 1];
      }
    }
  }

  lemma ElectorOK(h: Hist, g: Hist, id: NodeID, t: Term, v: NodeID)
    requires Consistent(h) && Grows(h, g, id) && t !in h.reigns && t in g.reigns && g.reigns[t].leader == id
    requires Key(v, t) in h.ballots && h.ballots[Key(v, t)].cand == id && BallotOK(h, Key(v, t))
    requires forall u: Term :: Acked(g, v, u) == Acked(h, v, u)
    ensures VoterOK(g, v, t)
  {
    var log := h.ballots[Key(v, t)].log;
    forall u: Term, i: Index | u < t && 0 < i <= Acked(g, v, u) ensures Kept(g, u, i, t, log) {
      assert Kept(h, u, i, t + 1, log);
      assert Key(v, u) in h.acked;
      KeptGrows(h, g, id, u, i, t, log);
    }
  }

  lemma NewReignOK(g: Hist, id: NodeID, t: Term, log: seq<Entry>, e: Entry, voters: set<NodeID>)
    requires t in g.reigns && g.reigns[t] == Reign(id, |log|, log + [e], voters)
    requires Key(id, t) in g.cands && g.cands[Key(id, t)] == log && Below(log, t) && GoodLog(g, log + [e])
    requires Quorum(ConfOf(g.boot, log), voters) && e.term == t && !e.payload.ConfEntry?
    requires forall v {:trigger VoterOK(g, v, t)} :: v in voters ==> VoterOK(g, v, t)
    ensures ReignOK(g, t)
  {
    assert g.reigns[t].log[..g.reigns[t].base] == log;
  }

  /** A leader appends an entry to its log. */
  function WithEntry(h: Hist, t: Term, e: Entry): Hist
    requires t in h.reigns
  {
    h.(reigns := h.reigns[t := h.reigns[t].(log := h.reigns[t].log + [e])])
  }

  lemma EntryRecorded(h: Hist, t: Term, e: Entry)
    requires Consistent(h) && t in h.reigns
    requires e.term == t && e.index == |h.reigns[t].log| + 1
    requires e.payload.ConfEntry? ==>
               var log := h.reigns[t].log;
               && ConfStep(ConfOf(h.boot, log), e.payload.change)
               && (LastConfIndex(log) > 0 ==>
                     exists c :: c in h.commits && c.term == t && LastConfIndex(log) <= c.index)
    ensures Consistent(WithEntry(h, t, e)) && Grows(h, WithEntry(h, t, e), h.reigns[t].leader)
  {
    var g := WithEntry(h, t, e);
    var id, log := h.reigns[t].leader, h.reigns[t].log;
    EntryGrows(h, t, e);
    OldEventsStay(h, g, id);
    assert ReignOK(h, t);
    assert g.reigns[t].log[..|log|] == log;
    if e.payload.ConfEntry? {
      if LastConfIndex(log) > 0 {
        var c :| c in h.commits && c.term == t && LastConfIndex(log) <= c.index;
        assert CommitOK(h, c);
      }
      assert ChainAt(g, t, |log|);
    }
    ReignGrows(h, g, id, t);
    forall u | u in g.reigns ensures ReignOK(g, u) {
      if u != t { assert g.reigns[u] == h.reigns[u]; }
    }
  }

  lemma EntryGrows(h: Hist, t: Term, e: Entry)
    requires t in h.reigns
    ensures Grows(h, WithEntry(h, t, e), h.reigns[t].leader) && VotersMovedOn(h, WithEntry(h, t, e))
  {
    var g := WithEntry(h, t, e);
    assert forall v: NodeID, u: Term :: Acked(g, v, u) == Acked(h, v, u);
  }

  /** A node acknowledges holding the first `i` entries of the leader of its term. */
  function WithAck(h: Hist, v: NodeID, t: Term, i: Index): Hist {
    if i <= Acked(h, v, t) then h else h.(acked := h.acked[Key(v, t) := i])
  }

  lemma EntryShape(h: Hist, t: Term, e: Entry)
    requires t in h.reigns
    ensures var g := WithEntry(h, t, e);
            && g == h.(reigns := g.reigns)
            && t in g.reigns && g.reigns[t].leader == h.reigns[t].leader && g.reigns[t].log == h.reigns[t].log + [e]
  {}

  /** Acknowledging more than ever before, on top of events that acknowledged nothing. */
  lemma AckShape(h: Hist, k: Hist, v: NodeID, t: Term, i: Index)
    requires k.acked == h.acked && Acked(h, v, t) < i
    ensures var g := WithAck(k, v, t, i);
            && g == k.(acked := h.acked[Key(v, t) := i]) && Acked(g, v, t) == i
            && forall u: Term :: u != t ==> Acked(g, v, u) == Acked(h, v, u)
  {
    var g := WithAck(k, v, t, i);
    assert forall u: Term :: u != t ==> Key(v, u) != Key(v, t);
  }

  lemma AckRecorded(h: Hist, v: NodeID, t: Term, i: Index)
    requires Consistent(h) && t in h.reigns && i <= |h.reigns[t].log|
    requires forall k :: k in h.ballots && k.node == v ==> k.term <= t
    ensures Consistent(WithAck(h, v, t, i)) && Grows(h, WithAck(h, v, t, i), v)
  {
    var g := WithAck(h, v, t, i);
    AckGrows(h, v, t, i);
    OldEventsStay(h, g, v);
  }

  lemma AckGrows(h: Hist, v: NodeID, t: Term, i: Index)
    requires forall k :: k in h.ballots && k.node == v ==> k.term <= t
    ensures Grows(h, WithAck(h, v, t, i), v) && VotersMovedOn(h, WithAck(h, v, t, i))
  {
    var g := WithAck(h, v, t, i);
    forall w: NodeID, u: Term
      ensures Acked(h, w, u) <= Acked(g, w, u) && (w != v || u != t ==> Acked(g, w, u) == Acked(h, w, u))
    {
      assert Key(w, u) != Key(v, t) ==> (Key(w, u) in g.acked <==> Key(w, u) in h.acked);
    }
  }

  /** A leader's commit index advances to an entry of its own term that a quorum has acknowledged. */
  function WithCommit(h: Hist, c: Commit): Hist {
    h.(commits := h.commits + {c})
  }

  lemma CommitRecorded(h: Hist, c: Commit)
    requires Consistent(h) && CommitOK(h, c)
    ensures Consistent(WithCommit(h, c)) && Grows(h, WithCommit(h, c), h.reigns[c.term].leader)
  {
    hide ReignOK, CandOK, BallotOK, BarrierOK, Grows, VotersMovedOn, Acked, Quorum, ConfOf;
    var g := WithCommit(h, c);
    QuietGrows(h, g, h.reigns[c.term].leader);
    OldEventsStay(h, g, h.reigns[c.term].leader);
    CommitGrows(h, g, h.reigns[c.term].leader, c);
  }

  /** A leader that has committed in its own term records a read barrier. */
  function WithBarrier(h: Hist, k: ReadKey, index: Index, later: Option<Term>): Hist {
    h.(barriers := h.barriers[k := ReadRecord(index, VotedLater(h, k.term), later)])
  }

  lemma BarrierRecorded(h: Hist, k: ReadKey, index: Index, later: Option<Term>, c: Commit)
    requires Consistent(h) && k !in h.barriers && k.term in h.reigns
    requires c in h.commits && c.term == k.term
    requires later.Some? ==>
               && later.value in h.reigns && later.value > k.term
               && forall w :: w in h.reigns && w > k.term ==> later.value <= w
    ensures Consistent(WithBarrier(h, k, index, later))
            && Grows(h, WithBarrier(h, k, index, later), h.reigns[k.term].leader)
  {
    hide ReignOK, CandOK, BallotOK, CommitOK, BarrierOK, Grows, VotersMovedOn, Acked;
    var g := WithBarrier(h, k, index, later);
    QuietGrows(h, g, h.reigns[k.term].leader);
    OldEventsStay(h, g, h.reigns[k.term].leader);
    NewBarrierOK(h, k, index, later, c);
    assert BarrierOK(g, k);
  }

  lemma NewBarrierOK(h: Hist, k: ReadKey, index: Index, later: Option<Term>, c: Commit)
    requires Consistent(h) && k !in h.barriers && k.term in h.reigns
    requires c in h.commits && c.term == k.term
    requires later.Some? ==>
               && later.value in h.reigns && later.value > k.term
               && forall w :: w in h.reigns && w > k.term ==> later.value <= w
    ensures BarrierOK(WithBarrier(h, k, index, later), k)
  {
    var g := WithBarrier(h, k, index, later);
    if later.Some? {
      var u := later.value;
      NextReignInherits(h, k.term, u, c);
      assert Inherited(g, u) == Inherited(h, u);
      assert ReignOK(h, u);
      forall v | v in h.reigns[u].voters ensures v in g.barriers[k].gone {
        assert VoterOK(h, v, u);
        assert Key(v, u) in h.ballots;
      }
    }
  }
}
