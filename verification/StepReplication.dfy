/** Followers accept entries; leaders learn how far followers match; reads are confirmed. */
module StepReplication {
  import opened Configurations
  import opened RaftTypes
  import opened RaftNode
  import opened History
  import opened HistoryGrowth
  import opened Invariant
  import opened StepSending
  import opened StepCommit

  // ---------------------------------------------------------------------------
  // Where a follower's log and the leader's agree
  // ---------------------------------------------------------------------------

  /** Terms the log already holds say that it already holds the entries. */
  lemma {:induction false} FindConflictMeans(h: Hist, n: Node, lead: seq<Entry>, lo: Index, hi: Index)
    requires GoodLog(h, n.log) && GoodLog(h, lead) && lo <= hi <= |lead|
    requires n.floor <= lo <= |n.log| && n.log[..lo] == lead[..lo]
    ensures var c := FindConflict(n, lead[lo..hi]);
            if c == 0 then hi <= |n.log| && n.log[..hi] == lead[..hi]
            else lo < c <= hi && Diverge(n.log, lead, c)
    decreases hi - lo
  {
    if lo < hi {
      assert GoodAt(h, lead, lo);
      if MatchTerm(n, lead[lo].index, lead[lo].term) {
        LogsMatch(h, n.log, lead, lo + 1);
        assert lead[lo..hi][1..] == lead[lo + 1..hi];
        FindConflictMeans(h, n, lead, lo + 1, hi);
      }
    }
  }

  /** Whatever was settled is contained in the log of the leader being followed. */
  lemma SettledInLeader(h: Hist, log: seq<Entry>, i: Index, t: Term)
    requires Consistent(h) && Settled(h, log, i, t) && t in h.reigns
    ensures Held(h, t, i, log)
  {
    if i > 0 {
      var c :| c in h.commits && c.term <= t && i <= c.index && Held(h, c.term, i, log);
      CommitInLater(h, c, t, i);
    }
  }

  lemma SliceContiguous(h: Hist, lead: seq<Entry>, lo: Index, hi: Index)
    requires Consistent(h) && GoodLog(h, lead) && lo <= hi <= |lead|
    ensures Contiguous(lead[lo..hi])
  {
    var s := lead[lo..hi];
    forall i | 0 < i < |s| ensures s[i].index == s[i - 1].index + 1 && s[i - 1].term <= s[i].term {
      assert GoodAt(h, lead, lo + i) && GoodAt(h, lead, lo + i - 1);
      TermsAscend(h, lead, lo + i - 1, lo + i);
    }
  }

  /** The log after the conflicting part of a message has been written: unchanged, or the leader's prefix. */
  lemma AppendConflictingMeans(h: Hist, n: Node, lead: seq<Entry>, lo: Index, hi: Index)
    requires Consistent(h) && GoodLog(h, n.log) && GoodLog(h, lead) && lo <= hi <= |lead|
    requires n.floor <= n.committed <= lo <= |n.log| && n.log[..lo] == lead[..lo]
    ensures var r := AppendConflicting(n, lo, lead[lo..hi]);
            && r == n.(log := r.log)
            && Replaced(n.log, lead, lo, hi, r.log)
  {
    FindConflictMeans(h, n, lead, lo, hi);
    var c := FindConflict(n, lead[lo..hi]);
    if c != 0 { AppendAtConflict(h, n, lead, lo, hi, c); }
  }

  lemma AppendAtConflict(h: Hist, n: Node, lead: seq<Entry>, lo: Index, hi: Index, c: Index)
    requires Consistent(h) && GoodLog(h, lead) && n.committed <= lo < c <= hi <= |lead|
    requires c == FindConflict(n, lead[lo..hi]) && Diverge(n.log, lead, c)
    ensures AppendConflicting(n, lo, lead[lo..hi]) == n.(log := lead[..hi])
    ensures Replaced(n.log, lead, lo, hi, lead[..hi])
  {
    TailWritten(h, n, lead, lo, hi, c);
    ConflictingIs(n, lo, lead[lo..hi], c);
  }

  lemma ConflictingIs(n: Node, lo: Index, ents: seq<Entry>, c: Index)
    requires c == FindConflict(n, ents) && n.committed <= lo < c <= lo + |ents|
    ensures AppendConflicting(n, lo, ents) == AppendLog(n, ents[c - lo - 1..])
  {}

  lemma TailWritten(h: Hist, n: Node, lead: seq<Entry>, lo: Index, hi: Index, c: Index)
    requires Consistent(h) && GoodLog(h, lead) && n.committed <= lo < c <= hi <= |lead| && Diverge(n.log, lead, c)
    ensures AppendLog(n, lead[lo..hi][c - lo - 1..]) == n.(log := lead[..hi])
  {
    assert GoodAt(h, lead, c - 1);
    SliceContiguous(h, lead, c - 1, hi);
    WriteTail(n, lead, lo, hi, c);
  }

  /** `log` became `more` on receipt of the leader's entries between `lo` and `hi`. */
  ghost predicate Replaced(log: seq<Entry>, lead: seq<Entry>, lo: Index, hi: Index, more: seq<Entry>) {
    && hi <= |more| && hi <= |lead| && more[..hi] == lead[..hi]
    && (more == log || (more == lead[..hi] && exists c: Index :: lo < c <= hi && Diverge(log, lead, c)))
  }

  lemma WriteTail(n: Node, lead: seq<Entry>, lo: Index, hi: Index, c: Index)
    requires n.committed <= lo < c <= hi <= |lead| && c <= |n.log| + 1 && n.log[..c - 1] == lead[..c - 1]
    requires lead[c - 1].index == c && Contiguous(lead[c - 1..hi])
    ensures AppendLog(n, lead[lo..hi][c - lo - 1..]) == n.(log := lead[..hi])
  {
    var tail := lead[lo..hi][c - lo - 1..];
    assert tail == lead[c - 1..hi];
    assert n.log[..c - 1] + tail == lead[..hi];
  }

  /** The logs agree below `c` and not at `c`. */
  predicate Diverge(log: seq<Entry>, lead: seq<Entry>, c: Index) {
    && 0 < c <= |lead| && c <= |log| + 1
    && log[..c - 1] == lead[..c - 1]
    && (c <= |log| ==> log[c - 1].term != lead[c - 1].term)
  }

  /** Replacing a diverging tail by the leader's entries loses only what that leader lacks. */
  lemma KeptAfterOverwrite(h: Hist, id: NodeID, t: Term, log: seq<Entry>, c: Index, hi: Index)
    requires Consistent(h) && AckPart(h, id, t, log) && t in h.reigns && c <= hi <= |h.reigns[t].log|
    requires Diverge(log, h.reigns[t].log, c)
    ensures AckPart(h, id, t, h.reigns[t].log[..hi])
  {
    var lead, b := h.reigns[t].log, t + 1;
    var more := lead[..hi];
    assert ReignOK(h, t);
    forall u: Term, i: Index | u < b && 0 < i <= Acked(h, id, u) ensures Kept(h, u, i, b, more) {
      assert Kept(h, u, i, b, log);
      if Held(h, u, i, log) {
        var pre := h.reigns[u].log[..i];
        if i < c {
          assert pre == log[..c - 1][..i] == more[..i];
          assert Held(h, u, i, more);
        } else {
          LackedByLeader(h, u, i, t, log, c);
          assert Lacked(h, u, i, t);
        }
      }
    }
  }

  lemma LackedByLeader(h: Hist, u: Term, i: Index, t: Term, log: seq<Entry>, c: Index)
    requires t in h.reigns && h.reigns[t].base <= |h.reigns[t].log|
    requires Held(h, u, i, log) && c <= i && Diverge(log, h.reigns[t].log, c)
    ensures u != t && Lacked(h, u, i, t)
  {
    var pre, own := h.reigns[u].log[..i], Inherited(h, t);
    assert pre[c - 1] == log[c - 1] != h.reigns[t].log[c - 1];
    assert c <= |own| ==> own[c - 1] == h.reigns[t].log[c - 1];
  }

  // ---------------------------------------------------------------------------
  // Acknowledging
  // ---------------------------------------------------------------------------

  /** A node may acknowledge any prefix of its leader's log that it holds. */
  lemma AcknowledgeOK(h: Hist, n: Node, i: Index) returns (g: Hist)
    requires OK(h, n) && n.term in h.reigns && Held(h, n.term, i, n.log) && n.role == Follower
    ensures Moves(h, n, g, n)
    ensures i <= Acked(g, n.id, n.term) && g.reigns == h.reigns
  {
    hide *;
    Unpack(h, n);
    GrowsReflexive(h, n.id);
    g := h;
    if i > Acked(h, n.id, n.term) {
      MayAck(h, n, i);
      AckRecorded(h, n.id, n.term, i);
      g := WithAck(h, n.id, n.term, i);
      AckShape(h, h, n.id, n.term, i);
      HeldStays(h, g, n.term, i, n.log);
      AckPartAfterAck(h, g, n.id, n.term, i, n.log, n.log);
      LogStays(h, g, n.id, n.term, n.log);
      VotesStay(h, g, n.id, n.term, n.vote);
      SettledGrows(h, g, n.id, n.log, n.committed, n.term);
      ReadsStay(h, g, n.id, n.term, n.pendingReads, n.readStates);
      MsgsGrow(h, g, n.id, n.id, n.msgs);
    }
    Pack(h, n, g, n);
  }

  lemma MayAck(h: Hist, n: Node, i: Index)
    requires OK(h, n) && n.term in h.reigns && Held(h, n.term, i, n.log)
    ensures i <= |h.reigns[n.term].log|
    ensures forall k :: k in h.ballots && k.node == n.id ==> k.term <= n.term
  {}

  lemma HeldStays(h: Hist, g: Hist, t: Term, i: Index, log: seq<Entry>)
    requires Held(h, t, i, log) && g.reigns == h.reigns
    ensures Held(g, t, i, log)
  {}

  /** A node in a term cannot be among those that had left it. */
  lemma NotGone(h: Hist, n: Node, k: ReadKey)
    requires OK(h, n) && k in h.barriers && k.term == n.term
    ensures n.id !in h.barriers[k].gone
  {
    assert BarrierOK(h, k);
  }

  lemma RespondOK(h: Hist, n: Node, m: Message, success: bool, i: Index, ci: Index, ct: Term)
    requires OK(h, n) && MsgOK(h, m) && m.AppendReq? && m.to == n.id && m.term == n.term
    requires success ==> i <= Acked(h, n.id, n.term)
    ensures Moves(h, n, h, Send(n, AppendResp(n.id, m.from, n.term, success, i, ci, ct, m.readId)))
  {
    hide OK, Moves, NodeOK, Consistent;
    OKFacts(h, n);
    KnownRead(h, m);
    if m.readId != 0 { NotGone(h, n, ReadKey(m.term, m.readId)); }
    TouchOK(h, n, n);
    SendMoves(h, n, h, n, AppendResp(n.id, m.from, n.term, success, i, ci, ct, m.readId));
  }

  lemma KnownRead(h: Hist, m: Message)
    requires MsgOK(h, m) && m.AppendReq?
    ensures m.readId != 0 ==> ReadKey(m.term, m.readId) in h.barriers
  {}

  // ---------------------------------------------------------------------------
  // Accepting entries
  // ---------------------------------------------------------------------------

  lemma LogAfterReplace(h: Hist, id: NodeID, t: Term, log: seq<Entry>, lo: Index, hi: Index, more: seq<Entry>)
    requires Consistent(h) && t in h.reigns && LogPart(h, log, t) && AckPart(h, id, t, log)
    requires Replaced(log, h.reigns[t].log, lo, hi, more)
    requires lo <= |log| && lo <= hi && log[..lo] == h.reigns[t].log[..lo]
    ensures LogPart(h, more, t) && AckPart(h, id, t, more)
    ensures more[..lo] == log[..lo]
  {
    var lead := h.reigns[t].log;
    assert ReignOK(h, t);
    assert more[..lo] == more[..hi][..lo];
    if more != log {
      GoodPrefix(h, lead, hi);
      forall i | 0 <= i < hi ensures more[i].term < t + 1 { ReignTerms(h, t, i); }
      var c: Index :| lo < c <= hi && Diverge(log, lead, c);
      KeptAfterOverwrite(h, id, t, log, c, hi);
    }
  }

  /** A commit index learned from the leader covers only entries that came with it. */
  lemma SettledAfterReplace(h: Hist, t: Term, log: seq<Entry>, lo: Index, hi: Index, more: seq<Entry>, old_: Index,
                            told: Index)
    requires t in h.reigns && Replaced(log, h.reigns[t].log, lo, hi, more)
    requires Settled(h, log, old_, t) && old_ <= lo <= |log| && lo <= hi && more[..lo] == log[..lo]
    requires Settled(h, h.reigns[t].log, told, t)
    ensures Settled(h, more, old_, t)
    ensures told <= hi ==> Settled(h, more, told, t)
    ensures hi <= told ==> Settled(h, more, hi, t)
  {
    var lead := h.reigns[t].log;
    assert more[..old_] == more[..lo][..old_] && log[..old_] == log[..lo][..old_];
    SettledExtends(h, log, more, old_, t, t);
    var i := if told <= hi then told else hi;
    SettledBelow(h, lead, told, i, t);
    assert more[..i] == more[..hi][..i] && lead[..i] == lead[..hi][..i];
    SettledExtends(h, lead, more, i, t, t);
  }

  /** When no refresh is asked for, none is needed. */
  lemma ConfAfterReplace(boot: Configuration, log: seq<Entry>, lead: seq<Entry>, lo: Index, hi: Index,
                         more: seq<Entry>, confIndex: Index)
    requires Replaced(log, lead, lo, hi, more) && lo <= |log| && lo <= hi && more[..lo] == log[..lo]
    requires LastConfIndex(log) <= confIndex
    requires forall i :: lo <= i < hi ==> !lead[i].payload.ConfEntry? && lead[i].index == i + 1
    requires lo < hi ==> confIndex == 0 || lo + 1 > confIndex
    ensures ConfOf(boot, more) == ConfOf(boot, log) && LastConfIndex(more) == LastConfIndex(log)
  {
    if more != log {
      ConfOfCut(boot, log, lo);
      var k := LastConfIndex(more);
      assert k > 0 ==> more[k - 1] == lead[..hi][k - 1];
      ConfOfCut(boot, more, lo);
    }
  }

  lemma NoRefreshNeeded(h: Hist, n: Node, r: Node, lead: seq<Entry>, lo: Index, hi: Index)
    requires GoodLog(h, lead) && LastConfIndex(n.log) <= n.confIndex
    requires r == n.(log := r.log, committed := r.committed)
    requires lo <= |n.log| && lo <= hi && Replaced(n.log, lead, lo, hi, r.log) && r.log[..lo] == n.log[..lo]
    requires !NeedsRefresh(r, lead[lo..hi])
    ensures ConfOf(h.boot, r.log) == ConfOf(h.boot, n.log) && LastConfIndex(r.log) == LastConfIndex(n.log)
  {
    var ents := lead[lo..hi];
    forall i | lo <= i < hi
      ensures !lead[i].payload.ConfEntry? && lead[i].index == i + 1 && (n.confIndex == 0 || i + 1 > n.confIndex)
    {
      assert GoodAt(h, lead, i);
      assert ents[i - lo] == lead[i];
    }
    assert lo < hi ==> lead[lo].index == lo + 1;
    ConfAfterReplace(h.boot, n.log, lead, lo, hi, r.log, n.confIndex);
  }

  lemma SnapAfterReplace(boot: Configuration, snap: Snapshot, log: seq<Entry>, more: seq<Entry>, lo: Index)
    requires SnapPart(boot, snap, log) && snap.lastIndex <= lo <= |log| && lo <= |more| && more[..lo] == log[..lo]
    ensures SnapPart(boot, snap, more)
  {
    if snap.lastIndex > 0 {
      assert more[..snap.lastIndex] == more[..lo][..snap.lastIndex] == log[..snap.lastIndex];
      assert more[..snap.lastIndex][snap.lastIndex - 1] == log[..snap.lastIndex][snap.lastIndex - 1];
    }
  }

  lemma RefreshIfNeededConf(h: Hist, n: Node, r: Node, lead: seq<Entry>, lo: Index, hi: Index)
    requires OK(h, n) && n.role == Follower && GoodLog(h, lead) && n.committed <= lo <= |n.log| && lo <= hi
    requires r == n.(log := r.log, committed := r.committed) && GoodLog(h, r.log)
    requires Replaced(n.log, lead, lo, hi, r.log) && r.log[..lo] == n.log[..lo]
    ensures SnapPart(h.boot, n.snap, r.log)
    ensures var s := RefreshIfNeeded(r, lead[lo..hi]);
            && s == r.(conf := s.conf, confIndex := s.confIndex)
            && ConfPart(h.boot, r.log, s.conf, s.confIndex, n.snap.lastIndex)
  {
    SnapAfterReplace(h.boot, n.snap, n.log, r.log, lo);
    if NeedsRefresh(r, lead[lo..hi]) {
      RescanIsFull(h, r);
    } else {
      NoRefreshNeeded(h, n, r, lead, lo, hi);
    }
  }

  /** The follower after it has taken over the leader's entries, commit index and configuration. */
  lemma AcceptedOK(h: Hist, n: Node, lo: Index, hi: Index, told: Index)
    requires OK(h, n) && n.role == Follower && n.term in h.reigns
    requires n.committed <= lo <= hi <= |h.reigns[n.term].log| && lo <= |n.log|
    requires n.log[..lo] == h.reigns[n.term].log[..lo] && Settled(h, h.reigns[n.term].log, told, n.term)
    ensures var r := Accepted(n, h.reigns[n.term].log, lo, hi, told);
            && Moves(h, n, h, r) && Held(h, r.term, hi, r.log)
            && r.term == n.term && r.role == Follower
  {
    hide *;
    Unpack(h, n);
    var lead := h.reigns[n.term].log;
    GoodLeader(h, n.term);
    GoodOwn(h, n);
    AppendConflictingMeans(h, n, lead, lo, hi);
    var n1 := AppendConflicting(n, lo, lead[lo..hi]);
    LogAfterReplace(h, n.id, n.term, n.log, lo, hi, n1.log);
    SettledAfterReplace(h, n.term, n.log, lo, hi, n1.log, n.committed, told);
    var n2 := CommitTo(n1, if told < hi then told else hi);
    CommitShape(h, n.term, n1, lead, lo, hi, told, n.log);
    GoodOf(h, n1.log, n.term);
    RefreshIfNeededConf(h, n, n2, lead, lo, hi);
    var n3 := RefreshIfNeeded(n2, lead[lo..hi]);
    PersistShape(h, n, n3);
    AcceptedIs(n, lead, lo, hi, told);
    GrowsReflexive(h, n.id);
    HeldPrefix(h, n.term, hi, n1.log);
    Pack(h, n, h, Persist(n3));
  }

  lemma GoodLeader(h: Hist, t: Term)
    requires Consistent(h) && t in h.reigns
    ensures GoodLog(h, h.reigns[t].log)
  {
    assert ReignOK(h, t);
  }

  lemma GoodOf(h: Hist, log: seq<Entry>, t: Term)
    requires LogPart(h, log, t)
    ensures GoodLog(h, log)
  {}

  lemma GoodOwn(h: Hist, n: Node)
    requires OK(h, n)
    ensures GoodLog(h, n.log) && n.floor <= n.committed <= |n.log|
  {}

  lemma HeldPrefix(h: Hist, t: Term, i: Index, log: seq<Entry>)
    requires t in h.reigns && i <= |log| && i <= |h.reigns[t].log| && log[..i] == h.reigns[t].log[..i]
    ensures Held(h, t, i, log)
  {}

  lemma CommitShape(h: Hist, t: Term, n: Node, lead: seq<Entry>, lo: Index, hi: Index, told: Index, was: seq<Entry>)
    requires Replaced(was, lead, lo, hi, n.log) && Settled(h, n.log, n.committed, t)
    requires told <= hi ==> Settled(h, n.log, told, t)
    requires hi <= told ==> Settled(h, n.log, hi, t)
    ensures var r := CommitTo(n, if told < hi then told else hi);
            && r == n.(committed := r.committed) && n.committed <= r.committed <= |n.log|
            && Settled(h, n.log, r.committed, t)
    ensures hi <= |n.log| && hi <= |lead| && n.log[..hi] == lead[..hi]
  {}

  lemma PersistShape(h: Hist, n: Node, r: Node)
    requires OK(h, n)
    requires r == n.(log := r.log, committed := r.committed, conf := r.conf, confIndex := r.confIndex)
    requires n.committed <= r.committed <= |r.log| && SnapPart(h.boot, n.snap, r.log)
    ensures Persist(r) == r.(hard := HardState(n.term, n.vote, r.committed))
    ensures DiskPart(h.boot, HardState(n.term, n.vote, r.committed), n.term, n.vote, r.log, n.floor, n.snap,
            n.applied, r.committed)
  {}

  function Accepted(n: Node, lead: seq<Entry>, lo: Index, hi: Index, told: Index): Node
    requires lo <= hi <= |lead|
  {
    Persist(RefreshIfNeeded(CommitTo(AppendConflicting(n, lo, lead[lo..hi]), if told < hi then told else hi),
      lead[lo..hi]))
  }

  lemma AcceptedIs(n: Node, lead: seq<Entry>, lo: Index, hi: Index, told: Index)
    requires lo <= hi <= |lead|
    ensures Accepted(n, lead, lo, hi, told)
            == Persist(RefreshIfNeeded(CommitTo(AppendConflicting(n, lo, lead[lo..hi]),
              if told < hi then told else hi), lead[lo..hi]))
  {}

  lemma AcceptEntriesIs(n: Node, m: Message, lead: seq<Entry>)
    requires m.AppendReq? && m.prevIndex + |m.entries| <= |lead|
    requires m.entries == lead[m.prevIndex..m.prevIndex + |m.entries|]
    requires !Accepted(n, lead, m.prevIndex, m.prevIndex + |m.entries|, m.commit).fault
    ensures var hi := m.prevIndex + |m.entries|;
            var r := Accepted(n, lead, m.prevIndex, hi, m.commit);
            AcceptEntries(n, m) == Send(r, AppendResp(n.id, m.from, r.term, true, hi, 0, 0, m.readId))
  {
    hide FindConflict, NeedsRefresh, Rescan, Contiguous;
  }

  /** Passing the consistency check means agreeing with the leader up to that point. */
  lemma PrefixMatches(h: Hist, n: Node, m: Message)
    requires OK(h, n) && MsgOK(h, m) && m.AppendReq? && m.term == n.term && MatchTerm(n, m.prevIndex, m.prevTerm)
    ensures n.term in h.reigns && m.prevIndex <= |n.log| && EntriesOK(h, m)
    ensures n.log[..m.prevIndex] == h.reigns[n.term].log[..m.prevIndex]
  {
    assert ReignOK(h, n.term);
    LogsMatch(h, n.log, h.reigns[n.term].log, m.prevIndex);
  }

  lemma AcceptEntriesOK(h: Hist, n: Node, m: Message) returns (g: Hist)
    requires OK(h, n) && n.role == Follower && MsgOK(h, m) && m.AppendReq? && m.to == n.id && m.term == n.term
    requires n.committed <= m.prevIndex && MatchTerm(n, m.prevIndex, m.prevTerm)
    ensures Moves(h, n, g, AcceptEntries(n, m))
  {
    hide *;
    PrefixMatches(h, n, m);
    OKFacts(h, n);
    var lead, lo, hi := h.reigns[n.term].log, m.prevIndex, m.prevIndex + |m.entries|;
    EntriesFacts(h, m);
    var r := Accepted(n, lead, lo, hi, m.commit);
    AcceptedOK(h, n, lo, hi, m.commit);
    MovesOK(h, n, h, r);
    OKFacts(h, r);
    g := ReplyAccepted(h, r, m, hi);
    AcceptEntriesIs(n, m, lead);
    MovesTransitive(h, n, h, r, g, AcceptEntries(n, m));
  }

  lemma EntriesFacts(h: Hist, m: Message)
    requires m.AppendReq? && m.term in h.reigns && EntriesOK(h, m)
    ensures var log := h.reigns[m.term].log;
            && m.prevIndex + |m.entries| <= |log|
            && m.entries == log[m.prevIndex..m.prevIndex + |m.entries|]
            && Settled(h, log, m.commit, m.term)
  {}

  lemma ReplyAccepted(h: Hist, r: Node, m: Message, hi: Index) returns (g: Hist)
    requires OK(h, r) && r.role == Follower && MsgOK(h, m) && m.AppendReq? && m.to == r.id && m.term == r.term
    requires r.term in h.reigns && Held(h, r.term, hi, r.log)
    ensures Moves(h, r, g, Send(r, AppendResp(r.id, m.from, r.term, true, hi, 0, 0, m.readId)))
  {
    hide *;
    Unpack(h, r);
    g := AcknowledgeOK(h, r, hi);
    MovesOK(h, r, g, r);
    MsgGrows(h, g, r.id, m);
    RespondOK(g, r, m, true, hi, 0, 0);
    MovesTransitive(h, r, g, r, g, Send(r, AppendResp(r.id, m.from, r.term, true, hi, 0, 0, m.readId)));
  }

  lemma HandleAppendRequestOK(h: Hist, n: Node, m: Message) returns (g: Hist)
    requires OK(h, n) && MsgOK(h, m) && m.AppendReq? && m.to == n.id && m.term == n.term
    ensures Moves(h, n, g, HandleAppendRequest(n, m))
  {
    hide OK, Moves, MsgOK, FollowLeader, AcceptEntries, ConflictHint, MatchTerm, SameCore;
    var n1 := FollowLeader(n, m);
    FollowLeaderOK(h, n, m);
    MovesOK(h, n, h, n1);
    SameTerm(n, n1);
    if m.prevIndex < n1.committed {
      g := AlreadyCommittedOK(h, n1, m);
    } else if !MatchTerm(n1, m.prevIndex, m.prevTerm) {
      g := h;
      var hint := ConflictHint(n1, m.prevIndex);
      RespondOK(h, n1, m, false, 0, hint.0, hint.1);
    } else {
      g := AcceptEntriesOK(h, n1, m);
    }
    MovesTransitive(h, n, h, n1, g, HandleAppendRequest(n, m));
  }

  lemma SameTerm(n: Node, r: Node)
    requires SameCore(n, r)
    ensures r.term == n.term && r.id == n.id
  {}

  /** Everything committed is in the leader's log, so a stale append may be answered with the commit index. */
  lemma AlreadyCommittedOK(h: Hist, n: Node, m: Message) returns (g: Hist)
    requires OK(h, n) && n.role == Follower && MsgOK(h, m) && m.AppendReq? && m.to == n.id && m.term == n.term
    ensures Moves(h, n, g, Send(n, AppendResp(n.id, m.from, n.term, true, n.committed, 0, 0, m.readId)))
  {
    hide *;
    Unpack(h, n);
    LeaderKnown(h, m);
    SettledInLeader(h, n.log, n.committed, n.term);
    g := ReplyAccepted(h, n, m, n.committed);
  }

  lemma LeaderKnown(h: Hist, m: Message)
    requires MsgOK(h, m) && (m.AppendReq? || m.SnapReq?)
    ensures m.term in h.reigns
  {}

  // ---------------------------------------------------------------------------
  // Learning how far a follower matches
  // ---------------------------------------------------------------------------

  /** A leader may revise what it believes about its followers, as long as it believes only acknowledgements. */
  lemma ProgressOK(h: Hist, n: Node, r: Node)
    requires OK(h, n) && n.role == Leader && r == n.(progress := r.progress)
    requires forall v :: v in r.progress ==>
             r.progress[v].matched <= Acked(h, v, n.term) && r.progress[v].matched < r.progress[v].next <= |n.log| + 1
    ensures Moves(h, n, h, r)
  {
    hide OK, NodeOK, Consistent, Grows, Moves, Normal, LogPart, VotePart, CandPart, AckPart, CandidatePart, Settled;
    hide DiskPart, ConfPart, ReadPart, MsgsPart;
    Unpack(h, n);
    GrowsReflexive(h, n.id);
    Pack(h, n, h, r);
  }

  lemma ProgressFacts(h: Hist, n: Node)
    requires OK(h, n) && n.role == Leader
    ensures forall v :: v in n.progress ==>
            n.progress[v].matched <= Acked(h, v, n.term) && n.progress[v].matched < n.progress[v].next <= |n.log| + 1
  {}

  lemma WithMatchOK(h: Hist, n: Node, from: NodeID, i: Index)
    requires OK(h, n) && n.role == Leader && from in n.progress && i <= Acked(h, from, n.term)
    ensures Moves(h, n, h, WithMatch(n, from, i)) && LeadsOrIdle(WithMatch(n, from, i))
  {
    hide OK, Moves, Acked;
    ProgressFacts(h, n);
    AckBound(h, n, from);
    ProgressOK(h, n, WithMatch(n, from, i));
  }

  lemma FeedOK(h: Hist, n: Node, from: NodeID, next: pos, advanced: bool)
    requires OK(h, n) && LeadsOrIdle(n) && from != n.id
    ensures Moves(h, n, h, Feed(n, from, next, advanced))
  {
    hide OK, Grows, BroadcastAppend;
    TouchOK(h, n, n);
    BroadcastAfter(h, n);
    if n.role == Leader { SendAppendOK(h, n, from, 0); }
  }

  lemma RecordMatchOK(h: Hist, n: Node, from: NodeID, i: Index) returns (g: Hist)
    requires OK(h, n) && n.role == Leader && from in n.progress && from != n.id && i <= Acked(h, from, n.term)
    ensures Moves(h, n, g, RecordMatch(n, from, i))
  {
    hide OK, Moves, MaybeAdvanceCommit, Feed, Sized, WithMatch, Acked;
    OKFacts(h, n);
    if i > n.progress[from].matched {
      var n0 := WithMatch(n, from, i);
      WithMatchOK(h, n, from, i);
      MovesOK(h, n, h, n0);
      OKFacts(h, n0);
      g := MaybeAdvanceCommitOK(h, n0);
      var n1 := MaybeAdvanceCommit(n0);
      MovesOK(h, n0, g, n1);
      MovesTransitive(h, n, h, n0, g, n1);
      FeedOK(g, n1, from, i + 1, n1.committed > n.committed);
      MovesTransitive(h, n, g, n1, g, Feed(n1, from, i + 1, n1.committed > n.committed));
    } else {
      g := h;
      FeedOK(h, n, from, n.progress[from].next, false);
    }
  }

  lemma HandleAppendResponseOK(h: Hist, n: Node, m: Message) returns (g: Hist)
    requires OK(h, n) && MsgOK(h, m) && m.AppendResp? && m.to == n.id && m.term == n.term
    ensures Moves(h, n, g, HandleAppendResponse(n, m))
  {
    hide OK, Moves, RecordMatch, AckRead, Sized, BackUp, SendAppend, MsgOK, Acked;
    OKFacts(h, n);
    TouchOK(h, n, n);
    g := h;
    if n.role == Leader && m.from in n.progress {
      var n1 := if m.readId != 0 then AckRead(n, m.from, m.readId) else n;
      EchoFacts(h, m);
      if m.readId != 0 { AckReadOK(h, n, m.from, m.readId); }
      MovesOK(h, n, h, n1);
      OKFacts(h, n1);
      if m.success {
        g := RecordMatchOK(h, n1, m.from, m.matchIndex);
        MovesTransitive(h, n, h, n1, g, RecordMatch(n1, m.from, m.matchIndex));
      } else {
        var pr := n1.progress[m.from];
        if BackUp(n1, pr, m) < pr.next {
          BackUpOK(h, n1, m);
          var n2 := n1.(progress := n1.progress[m.from := pr.(next := BackUp(n1, pr, m))]);
          MovesTransitive(h, n, h, n1, h, SendAppend(n2, m.from, 0));
        }
      }
    }
  }

  lemma EchoFacts(h: Hist, m: Message)
    requires MsgOK(h, m) && m.AppendResp?
    ensures m.from != m.to && (m.success ==> m.matchIndex <= Acked(h, m.from, m.term))
    ensures m.readId != 0 ==>
              && ReadKey(m.term, m.readId) in h.barriers
              && m.from !in h.barriers[ReadKey(m.term, m.readId)].gone
  {}

  lemma BackUpOK(h: Hist, n: Node, m: Message)
    requires OK(h, n) && n.role == Leader && m.AppendResp? && m.from in n.progress && m.from != n.id
    requires BackUp(n, n.progress[m.from], m) < n.progress[m.from].next
    ensures var pr := n.progress[m.from];
            var n1 := n.(progress := n.progress[m.from := pr.(next := BackUp(n, pr, m))]);
            Moves(h, n, h, SendAppend(n1, m.from, 0))
  {
    hide OK, Grows, NextAfterRejection, Acked;
    var pr := n.progress[m.from];
    var n1 := n.(progress := n.progress[m.from := pr.(next := BackUp(n, pr, m))]);
    ProgressFacts(h, n);
    ProgressOK(h, n, n1);
    SendAppendOK(h, n1, m.from, 0);
  }

  // ---------------------------------------------------------------------------
  // Reads
  // ---------------------------------------------------------------------------

  /** A barrier that gathers a quorum had not been overtaken when it was requested. */
  lemma ConfirmedNotOvertaken(h: Hist, n: Node, k: ReadKey, acks: set<NodeID>)
    requires OK(h, n) && n.role == Leader && k in h.barriers && k.term == n.term
    requires Quorum(n.conf, acks) && acks !! h.barriers[k].gone
    ensures h.barriers[k].overtakenBy.None?
  {
    if h.barriers[k].overtakenBy.Some? { OvertakenReadsFail(h, k, acks); }
  }

  lemma ReadsOK(h: Hist, n: Node, r: Node)
    requires OK(h, n) && r == n.(pendingReads := r.pendingReads, readStates := r.readStates)
    requires ReadPart(h, n.term, r.pendingReads, r.readStates)
    ensures Moves(h, n, h, r)
  {
    hide *;
    Unpack(h, n);
    GrowsReflexive(h, n.id);
    Pack(h, n, h, r);
  }

  lemma AckReadOK(h: Hist, n: Node, from: NodeID, id: nat)
    requires OK(h, n) && n.role == Leader
    requires ReadKey(n.term, id) in h.barriers && from !in h.barriers[ReadKey(n.term, id)].gone
    ensures Moves(h, n, h, AckRead(n, from, id))
    ensures AckRead(n, from, id) ==
            n.(pendingReads := AckRead(n, from, id).pendingReads, readStates := AckRead(n, from, id).readStates)
  {
    hide OK, Moves, ReadPart, Quorum;
    ReadFacts(h, n);
    var k := FindRead(n.pendingReads, id);
    if k < |n.pendingReads| {
      var req := n.pendingReads[k].(acks := n.pendingReads[k].acks + {from});
      PendingAcks(h, n, k, from);
      if Quorum(n.conf, req.acks) { ConfirmedNotOvertaken(h, n, ReadKey(n.term, id), req.acks); }
      ReadsAfterAck(h, n, from, k);
    }
    ReadsOK(h, n, AckRead(n, from, id));
  }

  lemma ReadFacts(h: Hist, n: Node)
    requires OK(h, n)
    ensures ReadPart(h, n.term, n.pendingReads, n.readStates)
  {}

  lemma PendingAcks(h: Hist, n: Node, k: nat, from: NodeID)
    requires ReadPart(h, n.term, n.pendingReads, n.readStates) && k < |n.pendingReads|
    requires var key := ReadKey(n.term, n.pendingReads[k].id); key in h.barriers && from !in h.barriers[key].gone
    ensures n.pendingReads[k].acks + {from} !! h.barriers[ReadKey(n.term, n.pendingReads[k].id)].gone
  {
    assert n.pendingReads[k] in n.pendingReads;
  }

  lemma ReadsAfterAck(h: Hist, n: Node, from: NodeID, k: nat)
    requires ReadPart(h, n.term, n.pendingReads, n.readStates) && k < |n.pendingReads|
    requires var req := n.pendingReads[k].(acks := n.pendingReads[k].acks + {from});
             && ReadKey(n.term, req.id) in h.barriers && req.acks !! h.barriers[ReadKey(n.term, req.id)].gone
             && (Quorum(n.conf, req.acks) ==> h.barriers[ReadKey(n.term, req.id)].overtakenBy.None?)
    ensures var req := n.pendingReads[k].(acks := n.pendingReads[k].acks + {from});
            && ReadPart(h, n.term, n.pendingReads[k := req], n.readStates)
            && (Quorum(n.conf, req.acks) ==>
                  ReadPart(h, n.term, n.pendingReads[..k] + n.pendingReads[k + 1..],
                    n.readStates + [ReadState(req.id, req.index)]))
  {
    hide Quorum;
    assert n.pendingReads[k] in n.pendingReads;
  }

  lemma ReadIndexOK(h: Hist, n: Node, id: nat) returns (g: Hist)
    requires OK(h, n) && (ReadIndexError(n).None? ==> ReadKey(n.term, id) !in h.barriers)
    ensures Evolves(h, n, g, ReadIndex(n, id))
    ensures if ReadIndexError(n).None? then BarrierTaken(h, g, n, id) else g == h
  {
    hide OK, Grows, SendAll, ReadPart, Quorum;
    TouchOK(h, n, n);
    g := h;
    if ReadIndexError(n).None? {
      g := TakeBarrier(h, n, id);
      NotGone(g, n, ReadKey(n.term, id));
      ReadFacts(g, n);
      if Quorum(n.conf, {n.id}) {
        ConfirmedNotOvertaken(g, n, ReadKey(n.term, id), {n.id});
        ReadsAdded(g, n, ReadRequest(id, n.committed, {n.id}));
        ReadsOK(g, n, n.(readStates := n.readStates + [ReadState(id, n.committed)]));
      } else {
        ReadsAdded(g, n, ReadRequest(id, n.committed, {n.id}));
        var n1 := n.(pendingReads := n.pendingReads + [ReadRequest(id, n.committed, {n.id})]);
        ReadsOK(g, n, n1);
        MovesOK(g, n, g, n1);
        SendAllOK(g, n1, Peers(n.conf, n.id), id);
        SendAllMoves(g, n1, Peers(n.conf, n.id), id);
        MovesTransitive(g, n, g, n1, g, ReadIndex(n, id));
      }
    }
  }

  lemma SendAllMoves(h: Hist, n: Node, peers: seq<NodeID>, id: nat)
    requires OK(h, SendAll(n, peers, id))
    ensures Moves(h, n, h, SendAll(n, peers, id))
  {
    hide OK, Grows;
    GrowsReflexive(h, n.id);
  }

  lemma ReadsAdded(h: Hist, n: Node, r: ReadRequest)
    requires ReadPart(h, n.term, n.pendingReads, n.readStates) && ReadKey(n.term, r.id) in h.barriers
    requires h.barriers[ReadKey(n.term, r.id)].index == r.index && r.acks !! h.barriers[ReadKey(n.term, r.id)].gone
    ensures ReadPart(h, n.term, n.pendingReads + [r], n.readStates)
    ensures h.barriers[ReadKey(n.term, r.id)].overtakenBy.None? ==>
              ReadPart(h, n.term, n.pendingReads, n.readStates + [ReadState(r.id, r.index)])
  {}

  /** The record of a barrier says whether any later term already had a leader. */
  ghost predicate BarrierTaken(h: Hist, g: Hist, n: Node, id: nat) {
    && g.barriers.Keys == h.barriers.Keys + {ReadKey(n.term, id)}
    && g.reigns == h.reigns && g.commits == h.commits
    && g.barriers[ReadKey(n.term, id)].index == n.committed
    && (g.barriers[ReadKey(n.term, id)].overtakenBy.None? ==> forall u :: u in h.reigns ==> u <= n.term)
  }

  lemma TakeBarrier(h: Hist, n: Node, id: nat) returns (g: Hist)
    requires OK(h, n) && ReadIndexError(n).None? && ReadKey(n.term, id) !in h.barriers
    ensures Evolves(h, n, g, n) && BarrierTaken(h, g, n, id)
  {
    hide *;
    Unpack(h, n);
    var k := ReadKey(n.term, id);
    MayBarrier(h, n);
    var c := OwnCommit(h, n);
    var later := FirstLater(h, n.term);
    BarrierRecorded(h, k, n.committed, later, c);
    g := WithBarrier(h, k, n.committed, later);
    BarrierShape(h, k, n.committed, later);
    VotesStay(h, g, n.id, n.term, n.vote);
    RolesStay(h, g, n);
    StableParts(h, g, n);
    BarrierNow(h, g, n, id, later);
    PackEvolves(h, n, g, n);
  }

  lemma MayBarrier(h: Hist, n: Node)
    requires OK(h, n) && ReadIndexError(n).None?
    ensures n.role == Leader && CommittedInCurrentTerm(n)
    ensures n.term in h.reigns && h.reigns[n.term].leader == n.id
  {}

  lemma BarrierShape(h: Hist, k: ReadKey, index: Index, later: Option<Term>)
    ensures var g := WithBarrier(h, k, index, later);
            && g == h.(barriers := g.barriers)
            && g.barriers.Keys == h.barriers.Keys + {k} && g.barriers[k].index == index
              && g.barriers[k].overtakenBy == later
            && forall v: NodeID, u: Term :: Acked(g, v, u) == Acked(h, v, u)
  {}

  lemma BarrierNow(h: Hist, g: Hist, n: Node, id: nat, later: Option<Term>)
    requires g.barriers.Keys == h.barriers.Keys + {ReadKey(n.term, id)} && g.reigns == h.reigns
             && g.commits == h.commits
    requires g.barriers[ReadKey(n.term, id)].index == n.committed
             && g.barriers[ReadKey(n.term, id)].overtakenBy == later
    requires later.None? ==> forall u :: u in h.reigns ==> u <= n.term
    ensures BarrierTaken(h, g, n, id)
  {}

  /** The first term after `t` that has had a leader. */
  ghost function FirstLater(h: Hist, t: Term): (r: Option<Term>)
    ensures r.None? ==> forall u :: u in h.reigns ==> u <= t
    ensures r.Some? ==> r.value in h.reigns && r.value > t && forall w :: w in h.reigns && w > t ==> r.value <= w
  {
    var later := set u | u in h.reigns && u > t;
    if later == {} then
      assert forall u :: u in h.reigns && u > t ==> u in later;
      None
    else
      assert forall w :: w in h.reigns && w > t ==> w in later;
      Some(Least(later))
  }

  ghost function Least(s: set<Term>): (m: Term)
    requires s != {}
    ensures m in s && forall u :: u in s ==> m <= u
  {
    var x :| x in s;
    if s == {x} then x
    else
      var m := Least(s - {x});
      assert forall u :: u in s ==> u == x || u in s - {x};
      if x < m then x else m
  }
}
