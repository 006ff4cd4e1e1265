/** How a leader finds where a follower's log parts ways with its own, and how soon. */
module Repair {
  import opened Configurations
  import opened RaftTypes
  import opened RaftNode
  import opened History
  import opened HistoryGrowth
  import opened Invariant
  import opened StepSending
  import opened StepReplication
  import opened Sets

  /** A leader that has compacted nothing, a follower of its term, and what the leader believes about it. */
  ghost predicate Pair(h: Hist, n: Node, f: Node, pr: Progress) {
    && OK(h, n) && n.role == Leader && n.floor == 0
    && OK(h, f) && f.term == n.term && f.id != n.id
    && pr.matched <= Acked(h, f.id, n.term)
    && pr.matched < pr.next <= |n.log| + 1
  }

  /** Would the follower refuse entries that follow index `prev` of the leader's log? */
  predicate Refuses(f: Node, lead: seq<Entry>, prev: Index)
    requires prev <= |lead|
  {
    f.committed <= prev && !MatchTerm(f, prev, TermAt(lead, prev))
  }

  /** What it answers then. */
  function Refusal(f: Node, to: NodeID, prev: Index): (r: Message)
    ensures r.AppendResp?
  {
    var hint := ConflictHint(f, prev);
    AppendResp(f.id, to, f.term, false, 0, hint.0, hint.1, 0)
  }

  /** The answer is the one the follower gives to the leader's next append. */
  lemma RefusalIsSent(f: Node, m: Message, lead: seq<Entry>)
    requires m.AppendReq? && m.readId == 0 && m.term == f.term && m.prevIndex <= |lead|
             && m.prevTerm == TermAt(lead, m.prevIndex)
    requires Refuses(f, lead, m.prevIndex) && !f.fault
    ensures var r := HandleAppendRequest(f, m);
            |r.msgs| > 0 && r.msgs[|r.msgs| - 1] == Refusal(f, m.from, m.prevIndex) && r.log == f.log
  {
    hide RunStart;
    var n1 := FollowLeader(f, m);
    HintSame(f, n1, m.prevIndex);
  }

  lemma HintSame(f: Node, r: Node, prev: Index)
    requires r.log == f.log && r.floor == f.floor
    ensures ConflictHint(r, prev) == ConflictHint(f, prev)
  {
    if 0 < prev <= |f.log| { RunSame(f, r, prev); }
  }

  lemma {:induction false} RunSame(f: Node, r: Node, i: Index)
    requires r.log == f.log && r.floor == f.floor && 0 < i <= |f.log|
    ensures RunStart(r, i) == RunStart(f, i)
    decreases i
  {
    if i > f.floor + 1 { RunSame(f, r, i - 1); }
  }

  // ---------------------------------------------------------------------------
  // What the two searches find
  // ---------------------------------------------------------------------------

  lemma {:induction false} RunStartMeans(h: Hist, f: Node, i: Index)
    requires Consistent(h) && GoodLog(h, f.log) && 0 < i <= |f.log|
    ensures var s := RunStart(f, i);
            && 0 < s <= i
            && (forall j :: s - 1 <= j < i ==> f.log[j].term == f.log[i - 1].term)
            && (s > f.floor + 1 ==> f.log[s - 2].term < f.log[i - 1].term)
    decreases i
  {
    if i > f.floor + 1 {
      TermsAscend(h, f.log, i - 2, i - 1);
      if f.log[i - 2].term == f.log[i - 1].term { RunStartMeans(h, f, i - 1); }
    }
  }

  lemma {:induction false} LastIndexOfTermMeans(n: Node, t: Term, i: Index)
    requires i <= |n.log| && n.floor == 0
    ensures var r := LastIndexOfTerm(n, t, i);
            && (r.Some? ==> 0 < r.value <= i && n.log[r.value - 1].term == t)
    decreases i
  {
    if i > 0 && n.log[i - 1].term > t { LastIndexOfTermMeans(n, t, i - 1); }
  }

  /** A term the follower has at an index where the leader differs ends, in the leader's log, before that index. */
  lemma TermEndsBefore(h: Hist, lead: seq<Entry>, log: seq<Entry>, p: Index, k: Index)
    requires GoodLog(h, lead) && GoodLog(h, log) && 0 < p <= |log| && p <= k <= |lead|
    requires lead[p - 1].term != log[p - 1].term
    ensures lead[k - 1].term != log[p - 1].term
  {
    assert GoodAt(h, lead, k - 1) && GoodAt(h, log, p - 1);
    assert lead[..k][p - 1] == lead[p - 1] && log[..p][p - 1] == log[p - 1];
  }

  // ---------------------------------------------------------------------------
  // Every refusal makes progress
  // ---------------------------------------------------------------------------

  /** What is known to match does match, and so does what the follower has committed. */
  lemma KnownAgreement(h: Hist, n: Node, f: Node, pr: Progress)
    requires Pair(h, n, f, pr)
    ensures Consistent(h) && GoodLog(h, n.log) && GoodLog(h, f.log)
    ensures f.floor <= f.committed <= |f.log| && f.committed <= |n.log| && f.log[..f.committed] == n.log[..f.committed]
    ensures pr.matched <= |f.log| && f.log[..pr.matched] == n.log[..pr.matched]
  {
    hide OK, NodeOK, Consistent, CandPart, VotePart, MsgsPart, ReadPart, ConfPart, GoodLog, Settled;
    Unpack(h, n);
    Unpack(h, f);
    GoodOwn(h, n);
    GoodOwn(h, f);
    SettledInLeader(h, f.log, f.committed, f.term);
    MatchAgrees(h, n, f, pr.matched);
  }

  /** What a follower of its term has acknowledged to a leader, the two logs share. */
  lemma MatchAgrees(h: Hist, n: Node, f: Node, i: Index)
    requires OK(h, n) && n.role == Leader && OK(h, f) && f.term == n.term && i <= Acked(h, f.id, n.term)
    ensures i <= |n.log| && i <= |f.log| && f.log[..i] == n.log[..i]
  {
    hide OK, NodeOK, Consistent, CandPart, VotePart, MsgsPart, ReadPart, ConfPart, GoodLog, Settled;
    Unpack(h, n);
    Unpack(h, f);
    if i > 0 { assert Kept(h, n.term, i, n.term + 1, f.log); }
  }

  lemma AgreedAccepts(h: Hist, n: Node, f: Node, i: Index, p: Index)
    requires i <= |f.log| && i <= |n.log| && f.log[..i] == n.log[..i] && f.floor <= f.committed && p <= i
    ensures !Refuses(f, n.log, p)
  {
    if p > 0 { assert f.log[..i][p - 1] == n.log[..i][p - 1]; }
  }

  /** Where the leader goes next: to what it knows to match, past its own run of the conflicting term, or
      below the follower's. */
  lemma RefusalCases(h: Hist, n: Node, f: Node, pr: Progress)
    requires Pair(h, n, f, pr) && Refuses(f, n.log, pr.next - 1)
    ensures var p, q := pr.next - 1, BackUp(n, pr, Refusal(f, n.id, pr.next - 1)) - 1;
            && pr.matched <= q < p
            && (q == pr.matched
                || (p > |f.log| && q == |f.log|)
                || (p <= |f.log| && q > pr.matched && NewTerm(f, n.log, p, q)))
  {
    hide Pair, OK, Consistent, GoodLog, NextAfterRejection, NewTerm;
    KnownAgreement(h, n, f, pr);
    InRange(h, n, f, pr);
    var p: Index := pr.next - 1;
    if p <= pr.matched { AgreedAccepts(h, n, f, pr.matched, p); }
    if p <= |f.log| {
      TargetCases(h, n, f, pr, p);
    } else {
      PastTheEnd(n, f, pr, p);
    }
  }

  lemma PastTheEnd(n: Node, f: Node, pr: Progress, p: Index)
    requires p > |f.log|
    ensures NextAfterRejection(n, pr, Refusal(f, n.id, p)) == |f.log| + 1
  {}

  lemma TargetCases(h: Hist, n: Node, f: Node, pr: Progress, p: Index)
    requires Consistent(h) && GoodLog(h, n.log) && GoodLog(h, f.log) && n.floor == 0
    requires f.floor <= f.committed && p <= |f.log| && p <= |n.log| && Refuses(f, n.log, p)
    ensures 0 < p
    ensures var x := NextAfterRejection(n, pr, Refusal(f, n.id, p)); 0 < x <= p && NewTerm(f, n.log, p, x - 1)
  {
    hide Consistent, GoodLog, LastIndexOfTerm, RunStart;
    var t := f.log[p - 1].term;
    var s, own := RunStart(f, p), LastIndexOfTerm(n, t, |n.log|);
    RunStartMeans(h, f, p);
    LastIndexOfTermMeans(n, t, |n.log|);
    if own.Some? {
      if own.value >= p { TermEndsBefore(h, n.log, f.log, p, own.value); }
      if f.floor < own.value < s { TermsAscend(h, f.log, own.value - 1, s - 2); }
    }
  }

  /** Of the follower's log up to `q`, either the end matches the leader's, or the term that conflicted at
      `p` is gone, or nothing is left but what is compacted and committed. */
  predicate NewTerm(f: Node, lead: seq<Entry>, p: Index, q: Index)
    requires 0 < p <= |f.log| && q <= p && p <= |lead|
  {
    || (0 < q && f.log[q - 1].term == f.log[p - 1].term == lead[q - 1].term)
    || q <= f.floor
    || (0 < q && f.log[q - 1].term < f.log[p - 1].term)
  }

  /** Every refusal strictly lowers the index tried next, which never falls to what is known to match. */
  lemma RefusalAdvances(h: Hist, n: Node, f: Node, pr: Progress)
    requires Pair(h, n, f, pr) && Refuses(f, n.log, pr.next - 1)
    ensures var next := BackUp(n, pr, Refusal(f, n.id, pr.next - 1));
            pr.matched < next < pr.next && Pair(h, n, f, pr.(next := next))
  {
    hide OK, BackUp, Refusal;
    RefusalCases(h, n, f, pr);
  }

  /** No entry has term 0. */
  lemma TermsArePositive(h: Hist, log: seq<Entry>, i: nat)
    requires Consistent(h) && GoodLog(h, log) && i < |log|
    ensures log[i].term > 0
  {
    assert GoodAt(h, log, i);
    var t := log[i].term;
    assert ReignOK(h, t);
    assert CandOK(h, Key(h.reigns[t].leader, t));
  }

  lemma {:induction false} LastIndexOfTermExact(h: Hist, n: Node, t: Term, i: Index)
    requires Consistent(h) && GoodLog(h, n.log) && i <= |n.log| && n.floor == 0
    ensures var r := LastIndexOfTerm(n, t, i);
            && (r.Some? ==> r.value <= i && forall j :: r.value <= j < i ==> n.log[j].term > t)
            && (r.None? ==> forall j :: 0 <= j < i ==> n.log[j].term != t)
    decreases i
  {
    hide Consistent, GoodLog;
    if i > 0 {
      if n.log[i - 1].term > t {
        LastIndexOfTermExact(h, n, t, i - 1);
      } else {
        forall j | 0 <= j < i ensures n.log[j].term <= n.log[i - 1].term { TermsAscend(h, n.log, j, i - 1); }
      }
    }
  }

  /** And no further than the refusal warrants: nowhere above the index tried next, up to the one refused, do the two
      logs agree. */
  lemma RefusalSkipsNothing(h: Hist, n: Node, f: Node, pr: Progress, i: Index)
    requires Pair(h, n, f, pr) && Refuses(f, n.log, pr.next - 1)
    requires BackUp(n, pr, Refusal(f, n.id, pr.next - 1)) <= i < pr.next
    ensures i <= |n.log| && (i > |f.log| || f.log[i - 1].term != n.log[i - 1].term)
  {
    hide Pair, OK, Consistent, GoodLog, LastIndexOfTerm, RunStart;
    KnownAgreement(h, n, f, pr);
    InRange(h, n, f, pr);
    var p: Index := pr.next - 1;
    if p <= |f.log| {
      TargetCases(h, n, f, pr, p);
      var t := f.log[p - 1].term;
      RunStartMeans(h, f, p);
      LastIndexOfTermExact(h, n, t, |n.log|);
      TermsArePositive(h, f.log, p - 1);
      TermsAscend(h, f.log, i - 1, p - 1);
    }
  }

  // ---------------------------------------------------------------------------
  // The bound
  // ---------------------------------------------------------------------------

  /** The follower accepts after at most `k` refusals, the leader backing up as it does. */
  predicate AcceptedWithin(n: Node, f: Node, pr: Progress, k: nat)
    decreases k
  {
    && pr.next - 1 <= |n.log|
    && (|| !Refuses(f, n.log, pr.next - 1)
        || (k > 0 && AcceptedWithin(n, f, pr.(next := BackUp(n, pr, Refusal(f, n.id, pr.next - 1))), k - 1)))
  }

  function TermsOf(log: seq<Entry>): set<Term> { set e | e in log :: e.term }

  /** Refusals left when the leader tries index `p`. */
  function Rank(f: Node, p: Index): nat {
    if p > |f.log| then 1 + |TermsOf(f.log)| else |TermsOf(f.log[..p])|
  }

  lemma ProperSubset<T>(a: set<T>, b: set<T>, x: T)
    requires a <= b && x in b && x !in a
    ensures |a| < |b|
  {
    SubsetSize(a, b - {x});
  }

  lemma RankFalls(h: Hist, n: Node, f: Node, pr: Progress)
    requires Pair(h, n, f, pr) && Refuses(f, n.log, pr.next - 1)
    ensures var q := BackUp(n, pr, Refusal(f, n.id, pr.next - 1)) - 1;
            && Rank(f, pr.next - 1) > 0
            && q <= |n.log| && (Refuses(f, n.log, q) ==> Rank(f, q) < Rank(f, pr.next - 1))
  {
    hide Pair, OK, Consistent, GoodLog, BackUp, Refusal;
    RefusalCases(h, n, f, pr);
    KnownAgreement(h, n, f, pr);
    InRange(h, n, f, pr);
    var p, q := pr.next - 1, BackUp(n, pr, Refusal(f, n.id, pr.next - 1)) - 1;
    AgreedAccepts(h, n, f, pr.matched, pr.matched);
    if q <= f.committed { AgreedAccepts(h, n, f, f.committed, q); }
    if p > |f.log| {
      assert f.log[..|f.log|] == f.log;
    } else {
      var e := f.log[p - 1];
      assert e in f.log[..p] && e.term in TermsOf(f.log[..p]);
      if q > f.committed && f.log[q - 1].term < e.term { FewerTerms(h, f.log, q, p); }
    }
  }

  lemma InRange(h: Hist, n: Node, f: Node, pr: Progress)
    requires Pair(h, n, f, pr)
    ensures pr.next <= |n.log| + 1 && n.floor == 0
  {}

  lemma FewerTerms(h: Hist, log: seq<Entry>, q: Index, p: Index)
    requires Consistent(h) && GoodLog(h, log) && 0 < q < p <= |log| && log[q - 1].term < log[p - 1].term
    ensures |TermsOf(log[..q])| < |TermsOf(log[..p])|
  {
    var a, b, t := TermsOf(log[..q]), TermsOf(log[..p]), log[p - 1].term;
    forall x | x in a ensures x in b && x < t {
      var e :| e in log[..q] && e.term == x;
      var i :| 0 <= i < q && log[i] == e;
      assert log[..p][i] == e;
      TermsAscend(h, log, i, q - 1);
    }
    assert log[p - 1] in log[..p];
    ProperSubset(a, b, t);
  }

  lemma {:induction false} AcceptedByRank(h: Hist, n: Node, f: Node, pr: Progress, k: nat)
    requires Pair(h, n, f, pr) && Rank(f, pr.next - 1) <= k
    ensures AcceptedWithin(n, f, pr, k)
    decreases k
  {
    hide Pair, Refuses, Rank, BackUp, Refusal;
    InRange(h, n, f, pr);
    if Refuses(f, n.log, pr.next - 1) {
      RefusalAdvances(h, n, f, pr);
      RankFalls(h, n, f, pr);
      var next := pr.(next := BackUp(n, pr, Refusal(f, n.id, pr.next - 1)));
      if Refuses(f, n.log, next.next - 1) { AcceptedByRank(h, n, f, next, k - 1); }
    }
  }

  /** A leader that has compacted nothing finds where a follower agrees with it after at most one refusal
      more than there are terms in the follower's log. */
  lemma RepairBound(h: Hist, n: Node, f: Node, pr: Progress)
    requires Pair(h, n, f, pr)
    ensures AcceptedWithin(n, f, pr, 1 + |TermsOf(f.log)|)
  {
    hide Pair, AcceptedWithin;
    var p: Index := pr.next - 1;
    if p <= |f.log| {
      assert TermsOf(f.log[..p]) <= TermsOf(f.log);
      SubsetSize(TermsOf(f.log[..p]), TermsOf(f.log));
    }
    AcceptedByRank(h, n, f, pr, 1 + |TermsOf(f.log)|);
  }

  /** What a leader believes about any of its followers is such a belief. */
  lemma TrackedIsPair(h: Hist, n: Node, f: Node)
    requires OK(h, n) && n.role == Leader && n.floor == 0 && OK(h, f) && f.term == n.term && f.id != n.id
             && f.id in n.progress
    ensures Pair(h, n, f, n.progress[f.id])
  {
    ProgressFacts(h, n);
  }
}
