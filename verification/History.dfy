/** What has irrevocably happened in a cluster, and why that makes Raft safe.

A history records, for every term that elected a leader, that leader's log (a reign);
every campaign and every vote, with the logs held at that moment; how far each node has
acknowledged each leader; and every advance of a leader's commit index. Histories only
grow. Election Safety, Log Matching and Leader Completeness are consequences of a history
being consistent, whatever order the events came in.
*/
module History {
  import opened Configurations
  import opened RaftTypes

  datatype Key = Key(node: NodeID, term: Term)

  /** A vote: for whom, and the log the voter held when it voted. */
  datatype Ballot = Ballot(cand: NodeID, log: seq<Entry>)

  /** A term's leader, its log, how much of that log it was elected with, and who elected it. */
  datatype Reign = Reign(leader: NodeID, base: nat, log: seq<Entry>, voters: set<NodeID>)

  /** A leader's commit index reached `index` while its log held `length` entries. */
  datatype Commit = Commit(term: Term, index: Index, length: nat)

  datatype ReadKey = ReadKey(term: Term, id: nat)

  /** A read barrier: the commit index recorded for it, the nodes that had already voted in a later term
      when it was requested, and the first later term that had a leader by then, if any. */
  datatype ReadRecord = ReadRecord(index: Index, gone: set<NodeID>, overtakenBy: Option<Term>)

  datatype Hist = Hist(
    boot: Configuration,
    reigns: map<Term, Reign>,
    cands: map<Key, seq<Entry>>,
    ballots: map<Key, Ballot>,
    acked: map<Key, Index>,
    commits: set<Commit>,
    barriers: map<ReadKey, ReadRecord>)

  // ---------------------------------------------------------------------------
  // Reading a history
  // ---------------------------------------------------------------------------

  function Acked(h: Hist, v: NodeID, t: Term): Index {
    if Key(v, t) in h.acked then h.acked[Key(v, t)] else 0
  }

  function Ackers(h: Hist, t: Term, i: Index): set<NodeID> {
    set k | k in h.acked && k.term == t && h.acked[k] >= i :: k.node
  }

  /** The log a leader was elected with. */
  function Inherited(h: Hist, t: Term): seq<Entry>
    requires t in h.reigns && h.reigns[t].base <= |h.reigns[t].log|
  {
    h.reigns[t].log[..h.reigns[t].base]
  }

  /** `log` holds the first `i` entries of the log of the leader of term `t`. */
  predicate Held(h: Hist, t: Term, i: Index, log: seq<Entry>) {
    t in h.reigns && i <= |h.reigns[t].log| && h.reigns[t].log[..i] <= log
  }

  predicate Lacked(h: Hist, t: Term, i: Index, u: Term) {
    u in h.reigns && h.reigns[u].base <= |h.reigns[u].log| && !Held(h, t, i, Inherited(h, u))
  }

  /** A log acknowledged to hold the first `i` entries of term `t` still does, unless some leader of a
      term between `t` and `b` was elected without them. */
  ghost predicate Kept(h: Hist, t: Term, i: Index, b: Term, log: seq<Entry>) {
    Held(h, t, i, log) || exists u :: t < u < b && Lacked(h, t, i, u)
  }

  ghost predicate KeptAll(h: Hist, v: NodeID, below: Term, b: Term, log: seq<Entry>) {
    forall t: Term, i: Index {:trigger Kept(h, t, i, b, log)} ::
      t < below && 0 < i <= Acked(h, v, t) ==> Kept(h, t, i, b, log)
  }

  predicate Below(log: seq<Entry>, t: Term) {
    forall i :: 0 <= i < |log| ==> log[i].term < t
  }

  /** Every entry of `log`, with everything before it, is what its term's leader had there. */
  ghost predicate GoodAt(h: Hist, log: seq<Entry>, i: nat)
    requires i < |log|
  {
    && log[i].index == i + 1
    && log[i].term in h.reigns
    && i < |h.reigns[log[i].term].log|
    && h.reigns[log[i].term].log[..i + 1] == log[..i + 1]
  }

  ghost predicate GoodLog(h: Hist, log: seq<Entry>) {
    forall i {:trigger GoodAt(h, log, i)} :: 0 <= i < |log| ==> GoodAt(h, log, i)
  }

  // ---------------------------------------------------------------------------
  // Consistency
  // ---------------------------------------------------------------------------

  ghost predicate VoterOK(h: Hist, v: NodeID, t: Term)
    requires t in h.reigns
  {
    && Key(v, t) in h.ballots
    && h.ballots[Key(v, t)].cand == h.reigns[t].leader
    && KeptAll(h, v, t, t, h.ballots[Key(v, t)].log)
  }

  /** A configuration entry follows legally from its predecessor, which its leader had seen commit
      in its own term. */
  ghost predicate ChainAt(h: Hist, t: Term, k: nat)
    requires t in h.reigns && k < |h.reigns[t].log| && h.reigns[t].log[k].payload.ConfEntry?
  {
    var log := h.reigns[t].log;
    && ConfStep(ConfOf(h.boot, log[..k]), log[k].payload.change)
    && (LastConfIndex(log[..k]) > 0 ==>
          exists c :: c in h.commits && c.term == t && LastConfIndex(log[..k]) <= c.index && c.length <= k)
  }

  ghost predicate ReignOK(h: Hist, t: Term)
    requires t in h.reigns
  {
    var r := h.reigns[t];
    && r.base < |r.log|
    && Below(r.log[..r.base], t)
    && (forall i :: r.base <= i < |r.log| ==> r.log[i].term == t)
    && GoodLog(h, r.log)
    && Key(r.leader, t) in h.cands && h.cands[Key(r.leader, t)] == r.log[..r.base]
    && Quorum(ConfOf(h.boot, r.log[..r.base]), r.voters)
    && (forall v {:trigger VoterOK(h, v, t)} :: v in r.voters ==> VoterOK(h, v, t))
    && (forall k {:trigger ChainAt(h, t, k)} ::
      r.base <= k < |r.log| && r.log[k].payload.ConfEntry? ==> ChainAt(h, t, k))
  }

  ghost predicate CandOK(h: Hist, k: Key)
    requires k in h.cands
  {
    k.term > 0 && GoodLog(h, h.cands[k]) && Below(h.cands[k], k.term)
  }

  ghost predicate BallotOK(h: Hist, k: Key)
    requires k in h.ballots
  {
    var b := h.ballots[k];
    && Key(b.cand, k.term) in h.cands
    && UpToDate(|h.cands[Key(b.cand, k.term)]|, LastTerm(h.cands[Key(b.cand, k.term)]), b.log)
    && GoodLog(h, b.log)
    && KeptAll(h, k.node, k.term, k.term + 1, b.log)
  }

  ghost predicate CommitOK(h: Hist, c: Commit) {
    && c.term in h.reigns
    && h.reigns[c.term].base < c.index <= c.length <= |h.reigns[c.term].log|
    && Quorum(ConfOf(h.boot, h.reigns[c.term].log[..c.length]), Ackers(h, c.term, c.index))
  }

  /** A leader that had overtaken a read was elected with a prefix of the reader's log. */
  ghost predicate BarrierOK(h: Hist, k: ReadKey)
    requires k in h.barriers
  {
    && k.term in h.reigns
    && h.barriers[k].gone <= VotedLater(h, k.term)
    && (h.barriers[k].overtakenBy.Some? ==>
          var u := h.barriers[k].overtakenBy.value;
          && k.term < u
          && u in h.reigns && h.reigns[u].base <= |h.reigns[u].log|
          && Inherited(h, u) <= h.reigns[k.term].log
          && h.reigns[u].voters <= h.barriers[k].gone)
  }

  ghost predicate Consistent(h: Hist) {
    && (forall t {:trigger ReignOK(h, t)} :: t in h.reigns ==> ReignOK(h, t))
    && (forall k {:trigger CandOK(h, k)} :: k in h.cands ==> CandOK(h, k))
    && (forall k {:trigger BallotOK(h, k)} :: k in h.ballots ==> BallotOK(h, k))
    && (forall k :: k in h.acked ==> k.term in h.reigns && h.acked[k] <= |h.reigns[k.term].log|)
    && (forall c {:trigger CommitOK(h, c)} :: c in h.commits ==> CommitOK(h, c))
    && (forall k {:trigger BarrierOK(h, k)} :: k in h.barriers ==> BarrierOK(h, k))
  }

  // ---------------------------------------------------------------------------
  // Log Matching
  // ---------------------------------------------------------------------------

  lemma GoodPrefix(h: Hist, log: seq<Entry>, k: nat)
    requires GoodLog(h, log) && k <= |log|
    ensures GoodLog(h, log[..k])
  {
    forall i | 0 <= i < k ensures GoodAt(h, log[..k], i) {
      assert GoodAt(h, log, i);
      assert log[..k][..i + 1] == log[..i + 1];
    }
  }

  /** Two logs that hold the same term at an index agree on that entry and on all earlier ones. */
  lemma LogsMatch(h: Hist, a: seq<Entry>, b: seq<Entry>, i: Index)
    requires GoodLog(h, a) && GoodLog(h, b)
    requires i <= |a| && i <= |b| && TermAt(a, i) == TermAt(b, i)
    ensures a[..i] == b[..i]
  {
    if i > 0 {
      assert GoodAt(h, a, i - 1) && GoodAt(h, b, i - 1);
    }
  }

  lemma ReignTerms(h: Hist, t: Term, i: nat)
    requires Consistent(h) && t in h.reigns && i < |h.reigns[t].log|
    ensures h.reigns[t].log[i].term <= t
    ensures h.reigns[t].log[i].term == t <==> h.reigns[t].base <= i
  {
    var r := h.reigns[t];
    assert ReignOK(h, t);
    if i < r.base { assert r.log[..r.base][i] == r.log[i]; }
  }

  /** Terms never decrease along a log. */
  lemma TermsAscend(h: Hist, log: seq<Entry>, i: nat, j: nat)
    requires Consistent(h) && GoodLog(h, log) && i <= j < |log|
    ensures log[i].term <= log[j].term
  {
    assert GoodAt(h, log, j);
    var r := h.reigns[log[j].term];
    assert r.log[..j + 1][i] == log[..j + 1][i];
    ReignTerms(h, log[j].term, i);
  }

  // ---------------------------------------------------------------------------
  // Quorums of configurations that are close together meet
  // ---------------------------------------------------------------------------

  /** `a` got past a commit that `b` does not contain. */
  ghost predicate Passed(h: Hist, c: Commit, a: seq<Entry>, b: seq<Entry>) {
    && c in h.commits
    && c.length < |a|
    && Held(h, c.term, c.index, a)
    && !Held(h, c.term, c.index, b)
    && (exists k :: 0 <= k < |a| && a[k].term == c.term)
  }

  /** What a log's last configuration entry says about the one before it. */
  lemma LastStep(h: Hist, log: seq<Entry>, k: Index)
    requires Consistent(h) && GoodLog(h, log) && k == LastConfIndex(log) > 0
    ensures ConfStep(ConfOf(h.boot, log[..k - 1]), log[k - 1].payload.change)
    ensures var p := LastConfIndex(log[..k - 1]);
            p > 0 ==> exists c :: c in h.commits && c.term == log[k - 1].term && p <= c.index && c.length < k
                                  && Held(h, c.term, c.index, log)
  {
    var t := log[k - 1].term;
    assert GoodAt(h, log, k - 1);
    var r := h.reigns[t];
    assert ReignOK(h, t);
    assert r.log[..k][k - 1] == log[..k][k - 1];
    ReignTerms(h, t, k - 1);
    assert ChainAt(h, t, k - 1);
    assert r.log[..k - 1] == r.log[..k][..k - 1] == log[..k][..k - 1] == log[..k - 1];
    var p := LastConfIndex(log[..k - 1]);
    if p > 0 {
      var c :| c in h.commits && c.term == t && p <= c.index && c.length <= k - 1;
      assert CommitOK(h, c);
      assert r.log[..c.index] == r.log[..k][..c.index] == log[..k][..c.index] == log[..c.index];
    }
  }

  /** Quorums under two logs meet, unless one of the logs got past a commit the other lacks. */
  lemma QuorumsMeet(h: Hist, a: seq<Entry>, b: seq<Entry>, g: set<NodeID>, q: set<NodeID>)
    requires Consistent(h) && GoodLog(h, a) && GoodLog(h, b)
    requires Quorum(ConfOf(h.boot, a), g) && Quorum(ConfOf(h.boot, b), q)
    ensures (exists v :: v in g && v in q) || (exists c :: Passed(h, c, a, b)) || (exists c :: Passed(h, c, b, a))
  {
    var d := CommonLength(a, b);
    var i, j := LastConfIndex(a), LastConfIndex(b);
    if i > d { PassedOrNear(h, a, b, d); }
    if j > d {
      assert CommonLength(b, a) == d;
      PassedOrNear(h, b, a, d);
    }
    if !(exists c :: Passed(h, c, a, b)) && !(exists c :: Passed(h, c, b, a)) {
      if i <= d { ConfOfCut(h.boot, a, d); }
      if j <= d { ConfOfCut(h.boot, b, d); }
      var base := ConfOf(h.boot, a[..d]);
      if i <= d && j <= d {
        MajoritiesMeet(base.voters, g, q);
      } else if i <= d {
        SuccessorsMeet(base, b[j - 1].payload.change, g, q);
      } else if j <= d {
        SuccessorsMeet(base, a[i - 1].payload.change, q, g);
      } else {
        SiblingsMeet(base, a[i - 1].payload.change, b[j - 1].payload.change, g, q);
      }
    }
  }

  /** If the last configuration entry of `a` lies beyond the common prefix, then either it is a successor
      of the configuration of that prefix or `a` got past a commit `b` lacks. */
  lemma PassedOrNear(h: Hist, a: seq<Entry>, b: seq<Entry>, d: nat)
    requires Consistent(h) && GoodLog(h, a) && d == CommonLength(a, b)
    requires LastConfIndex(a) > d
    ensures ConfStep(ConfOf(h.boot, a[..d]), a[LastConfIndex(a) - 1].payload.change) || exists c :: Passed(h, c, a, b)
  {
    var i := LastConfIndex(a);
    LastStep(h, a, i);
    var p := LastConfIndex(a[..i - 1]);
    if p <= d {
      ConfOfCut(h.boot, a[..i - 1], d);
      assert a[..i - 1][..d] == a[..d];
    } else {
      var c :| c in h.commits && c.term == a[i - 1].term && p <= c.index && c.length < i && Held(h, c.term, c.index, a);
      assert CommitOK(h, c);
      var pre := h.reigns[c.term].log[..c.index];
      if Held(h, c.term, c.index, b) { SharedPrefix(pre, a, b); }
      assert Passed(h, c, a, b);
    }
  }

  // ---------------------------------------------------------------------------
  // Leader Completeness
  // ---------------------------------------------------------------------------

  /** The election restriction carries a prefix over from voter to candidate. */
  lemma UpToDateCarries(h: Hist, cand: seq<Entry>, voter: seq<Entry>, t: Term, i: Index)
    requires Consistent(h) && GoodLog(h, cand) && GoodLog(h, voter)
    requires UpToDate(|cand|, LastTerm(cand), voter)
    requires Held(h, t, i, voter) && h.reigns[t].base < i
    requires LastTerm(cand) > LastTerm(voter) ==> Held(h, t, i, Inherited'(h, LastTerm(cand)))
    ensures Held(h, t, i, cand)
  {
    var pre := h.reigns[t].log[..i];
    assert ReignOK(h, t);
    assert pre[i - 1] == voter[i - 1];
    TermsAscend(h, voter, i - 1, |voter| - 1);
    var u := LastTerm(cand);
    if u == LastTerm(voter) {
      assert cand != [];
      assert GoodAt(h, cand, |cand| - 1) && GoodAt(h, voter, |voter| - 1);
      assert cand[..|cand|] == cand && voter[..|voter|] == voter;
      assert voter == h.reigns[u].log[..|voter|] == h.reigns[u].log[..|cand|][..|voter|];
      assert voter <= cand;
    } else {
      assert cand != [];
      assert GoodAt(h, cand, |cand| - 1);
      assert cand[..|cand|] == cand;
      assert ReignOK(h, u);
      assert pre <= h.reigns[u].log;
      ReignTerms(h, u, |cand| - 1);
      assert h.reigns[u].log[..|cand|][|cand| - 1] == cand[|cand| - 1];
      assert i <= h.reigns[u].base <= |cand|;
      assert pre == h.reigns[u].log[..|cand|][..i];
    }
  }

  /** The inherited log of a term, or nothing if it had no leader. */
  function Inherited'(h: Hist, t: Term): seq<Entry> {
    if t in h.reigns && h.reigns[t].base <= |h.reigns[t].log| then Inherited(h, t) else []
  }

  /** A log that wins an election contains everything committed in earlier terms. Stated for any
      candidate's log `log` and any quorum `q` of votes for it in term `u`; `b` bounds the terms whose
      leaders the voters may have followed before voting. */
  lemma {:induction false} WinnerComplete(h: Hist, u: Term, b: Term, log: seq<Entry>, q: set<NodeID>, c: Commit)
    requires Consistent(h) && u <= b <= u + 1
    requires c in h.commits && c.term < u
    requires GoodLog(h, log) && Below(log, u) && Quorum(ConfOf(h.boot, log), q)
    requires forall v :: v in q ==>
               && Key(v, u) in h.ballots
               && UpToDate(|log|, LastTerm(log), h.ballots[Key(v, u)].log)
               && KeptAll(h, v, u, b, h.ballots[Key(v, u)].log)
    ensures Held(h, c.term, c.index, log)
    decreases b, 0, c.length
  {
    assert CommitOK(h, c);
    var r := h.reigns[c.term];
    assert ReignOK(h, c.term);
    var mine := r.log[..c.length];
    GoodPrefix(h, r.log, c.length);
    QuorumsMeet(h, mine, log, Ackers(h, c.term, c.index), q);
    if v :| v in Ackers(h, c.term, c.index) && v in q {
      WinnerCompleteDirect(h, u, b, log, v, c);
    } else if d :| Passed(h, d, mine, log) {
      assert CommitOK(h, d);
      var k :| 0 <= k < |mine| && mine[k].term == d.term;
      ReignTerms(h, c.term, k);
      WinnerComplete(h, u, b, log, q, d);
    } else {
      var d :| Passed(h, d, log, mine);
      assert CommitOK(h, d);
      var k :| 0 <= k < |log| && log[k].term == d.term;
      WinnerCompletePassed(h, u, b, log, c, d);
    }
  }

  /** The case where the winner's log got past a commit that the committing leader's log lacked. */
  lemma {:induction false} WinnerCompletePassed(h: Hist, u: Term, b: Term, log: seq<Entry>, c: Commit, d: Commit)
    requires Consistent(h) && u <= b
    requires c in h.commits && c.term < u && CommitOK(h, c) && CommitOK(h, d) && d.term < u
    requires Passed(h, d, log, h.reigns[c.term].log[..c.length])
    ensures Held(h, c.term, c.index, log)
    decreases b, 0, 0
  {
    var mine, beyond := h.reigns[c.term].log, h.reigns[d.term].log[..d.index];
    assert ReignOK(h, c.term) && ReignOK(h, d.term);
    if d.term > c.term {
      LeaderComplete(h, d.term, c);
      assert mine[..c.index] <= beyond;
    } else {
      if d.term < c.term { LeaderComplete(h, c.term, d); }
      assert beyond <= mine;
      if d.index <= c.length { PrefixOfCut(beyond, mine, c.length); }
      assert mine[..c.index] == beyond[..c.index];
    }
    assert mine[..c.index] == log[..d.index][..c.index] == log[..c.index];
  }

  /** The case where some voter had acknowledged the committed entry. */
  lemma {:induction false} WinnerCompleteDirect(h: Hist, u: Term, b: Term, log: seq<Entry>, v: NodeID, c: Commit)
    requires Consistent(h) && u <= b <= u + 1
    requires c in h.commits && c.term < u
    requires GoodLog(h, log) && Below(log, u)
    requires Key(v, u) in h.ballots && v in Ackers(h, c.term, c.index)
    requires UpToDate(|log|, LastTerm(log), h.ballots[Key(v, u)].log)
    requires KeptAll(h, v, u, b, h.ballots[Key(v, u)].log)
    ensures Held(h, c.term, c.index, log)
    decreases b, 0, 0
  {
    var had := h.ballots[Key(v, u)].log;
    assert BallotOK(h, Key(v, u)) && CommitOK(h, c);
    assert Kept(h, c.term, c.index, b, had);
    if !Held(h, c.term, c.index, had) {
      var w :| c.term < w < b && Lacked(h, c.term, c.index, w);
      LeaderComplete(h, w, c);
    }
    if LastTerm(log) > LastTerm(had) {
      var pre := h.reigns[c.term].log[..c.index];
      assert pre[c.index - 1] == had[c.index - 1];
      ReignTerms(h, c.term, c.index - 1);
      TermsAscend(h, had, c.index - 1, |had| - 1);
      assert GoodAt(h, log, |log| - 1);
      LeaderComplete(h, LastTerm(log), c);
    }
    UpToDateCarries(h, log, had, c.term, c.index);
  }

  /** Leader Completeness: every leader was elected holding everything committed in earlier terms. */
  lemma {:induction false} LeaderComplete(h: Hist, u: Term, c: Commit)
    requires Consistent(h) && u in h.reigns && c in h.commits && c.term < u
    ensures h.reigns[u].base <= |h.reigns[u].log| && Held(h, c.term, c.index, Inherited(h, u))
    decreases u, 1, 0
  {
    var r := h.reigns[u];
    assert ReignOK(h, u);
    GoodPrefix(h, r.log, r.base);
    forall v | v in r.voters
      ensures Key(v, u) in h.ballots
      ensures UpToDate(r.base, LastTerm(r.log[..r.base]), h.ballots[Key(v, u)].log)
      ensures KeptAll(h, v, u, u, h.ballots[Key(v, u)].log)
    {
      assert VoterOK(h, v, u) && BallotOK(h, Key(v, u));
    }
    WinnerComplete(h, u, u, r.log[..r.base], r.voters, c);
  }

  // ---------------------------------------------------------------------------
  // Election Safety
  // ---------------------------------------------------------------------------

  /** A candidate that collects a quorum of votes in a term that already has a leader is that leader. */
  lemma OneWinner(h: Hist, u: Term, w: NodeID, q: set<NodeID>)
    requires Consistent(h) && u in h.reigns && Key(w, u) in h.cands
    requires Quorum(ConfOf(h.boot, h.cands[Key(w, u)]), q)
    requires forall v :: v in q ==> Key(v, u) in h.ballots && h.ballots[Key(v, u)].cand == w
    ensures w == h.reigns[u].leader
  {
    var r := h.reigns[u];
    assert ReignOK(h, u) && CandOK(h, Key(w, u)) && CandOK(h, Key(r.leader, u));
    var mine, theirs := h.cands[Key(w, u)], r.log[..r.base];
    forall v | v in q
      ensures UpToDate(|mine|, LastTerm(mine), h.ballots[Key(v, u)].log)
      ensures KeptAll(h, v, u, u + 1, h.ballots[Key(v, u)].log)
    {
      assert BallotOK(h, Key(v, u));
    }
    QuorumsMeet(h, mine, theirs, q, r.voters);
    if c :| Passed(h, c, mine, theirs) {
      LeaderComplete(h, u, c);
    } else if c :| Passed(h, c, theirs, mine) {
      WinnerComplete(h, u, u + 1, mine, q, c);
    } else {
      var v :| v in q && v in r.voters;
      assert VoterOK(h, v, u);
    }
  }

  // ---------------------------------------------------------------------------
  // State Machine Safety
  // ---------------------------------------------------------------------------

  /** A node in term `t` may regard the first `i` entries of `log` as committed. */
  ghost predicate Settled(h: Hist, log: seq<Entry>, i: Index, t: Term) {
    && i <= |log|
    && (i > 0 ==> exists c :: c in h.commits && c.term <= t && i <= c.index && Held(h, c.term, i, log))
  }

  /** Settled prefixes never disagree. */
  lemma SettledAgree(h: Hist, a: seq<Entry>, i: Index, t: Term, b: seq<Entry>, j: Index, u: Term)
    requires Consistent(h) && Settled(h, a, i, t) && Settled(h, b, j, u) && i <= j
    ensures a[..i] == b[..i]
  {
    if i > 0 {
      var c :| c in h.commits && c.term <= t && i <= c.index && Held(h, c.term, i, a);
      var d :| d in h.commits && d.term <= u && j <= d.index && Held(h, d.term, j, b);
      CommitsAgree(h, c, d, i);
      assert b[..i] == b[..j][..i] == h.reigns[d.term].log[..j][..i];
    }
  }

  lemma CommitsAgree(h: Hist, c: Commit, d: Commit, i: Index)
    requires Consistent(h) && c in h.commits && d in h.commits && i <= c.index && i <= d.index
    ensures c.term in h.reigns && d.term in h.reigns
    ensures i <= |h.reigns[c.term].log| && i <= |h.reigns[d.term].log|
    ensures h.reigns[c.term].log[..i] == h.reigns[d.term].log[..i]
  {
    assert CommitOK(h, c) && CommitOK(h, d);
    if c.term < d.term {
      CommitInLater(h, c, d.term, i);
    } else if d.term < c.term {
      CommitInLater(h, d, c.term, i);
    }
  }

  lemma CommitInLater(h: Hist, c: Commit, u: Term, i: Index)
    requires Consistent(h) && c in h.commits && u in h.reigns && c.term <= u && i <= c.index
    ensures c.term in h.reigns && i <= |h.reigns[c.term].log| && i <= |h.reigns[u].log|
    ensures h.reigns[c.term].log[..i] == h.reigns[u].log[..i]
  {
    assert CommitOK(h, c) && ReignOK(h, u);
    if c.term < u {
      LeaderComplete(h, u, c);
      var pre := h.reigns[c.term].log[..c.index];
      assert pre <= Inherited(h, u);
      assert pre[..i] == h.reigns[u].log[..i];
    }
  }

  // ---------------------------------------------------------------------------
  // Read barriers
  // ---------------------------------------------------------------------------

  /** The nodes that have voted in a term after `t`. */
  function VotedLater(h: Hist, t: Term): set<NodeID> {
    set k | k in h.ballots && k.term > t :: k.node
  }

  /** The first leader elected after term `t`, which has committed an entry of its own, was elected with
      a prefix of that term's log. */
  lemma NextReignInherits(h: Hist, t: Term, u: Term, c: Commit)
    requires Consistent(h) && t in h.reigns && u in h.reigns && t < u
    requires forall w :: w in h.reigns && w > t ==> u <= w
    requires c in h.commits && c.term == t
    ensures h.reigns[u].base <= |h.reigns[u].log| && Inherited(h, u) <= h.reigns[t].log
  {
    assert ReignOK(h, u) && ReignOK(h, t) && CommitOK(h, c);
    LeaderComplete(h, u, c);
    var log := Inherited(h, u);
    GoodPrefix(h, h.reigns[u].log, h.reigns[u].base);
    var pre := h.reigns[t].log[..c.index];
    assert pre[c.index - 1] == log[c.index - 1];
    TermsAscend(h, log, c.index - 1, |log| - 1);
    assert GoodAt(h, log, |log| - 1);
    assert log[..|log|] == log;
  }

  /** A quorum under the log of the leader of term `t` cannot avoid everyone who elected the leader that
      overtook the read. */
  lemma OvertakenReadsFail(h: Hist, k: ReadKey, q: set<NodeID>)
    requires Consistent(h) && k in h.barriers && h.barriers[k].overtakenBy.Some?
    requires k.term in h.reigns && Quorum(ConfOf(h.boot, h.reigns[k.term].log), q)
    ensures exists v :: v in q && v in h.barriers[k].gone
  {
    assert BarrierOK(h, k);
    var u := h.barriers[k].overtakenBy.value;
    var mine, theirs := h.reigns[k.term].log, Inherited(h, u);
    assert ReignOK(h, k.term) && ReignOK(h, u);
    GoodPrefix(h, h.reigns[u].log, h.reigns[u].base);
    QuorumsMeet(h, mine, theirs, q, h.reigns[u].voters);
    if c :| Passed(h, c, mine, theirs) {
      var i :| 0 <= i < |mine| && mine[i].term == c.term;
      ReignTerms(h, k.term, i);
      LeaderComplete(h, u, c);
    } else if c :| Passed(h, c, theirs, mine) {
    }
  }
}
