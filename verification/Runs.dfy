/** What holds of every run of a cluster, whatever is lost, reordered, duplicated or crashes. */
module Runs {
  import opened Configurations
  import opened RaftTypes
  import opened RaftNode
  import opened History
  import opened HistoryGrowth
  import opened Invariant
  import opened StepSending
  import opened StepReplication
  import opened StepSnapshot
  import opened Steady
  import opened Clusters
  import opened Repair

  /** The states of a run, and who took which step between them. */
  datatype Run = Run(states: seq<Cluster>, who: seq<NodeID>, what: seq<Event>)

  ghost predicate IsRun(boot: Configuration, r: Run) {
    && |r.states| == |r.who| + 1 == |r.what| + 1
    && Init(boot, r.states[0])
    && forall i :: 0 <= i < |r.who| ==> StepAt(r, i)
  }

  ghost predicate StepAt(r: Run, i: nat)
    requires i < |r.who| && |r.states| == |r.who| + 1 == |r.what| + 1
  {
    Next(r.states[i], r.who[i], r.what[i], r.states[i + 1])
  }

  predicate At(r: Run, i: nat, a: NodeID) { i < |r.states| && a in r.states[i].members }

  function NodeAt(r: Run, i: nat, a: NodeID): Node
    requires At(r, i, a)
  {
    r.states[i].members[a].node
  }

  function AppAt(r: Run, i: nat, a: NodeID): seq<Entry>
    requires At(r, i, a)
  {
    r.states[i].members[a].app
  }

  // ---------------------------------------------------------------------------
  // The history behind a run
  // ---------------------------------------------------------------------------

  ghost predicate Explains(hs: seq<Hist>, r: Run) {
    && |hs| == |r.states| && |r.who| + 1 == |hs| == |r.what| + 1
    && (forall i :: 0 <= i < |hs| ==> ClusterOK(hs[i], r.states[i]))
    && (forall i :: 0 <= i < |r.who| ==> ExplainedAt(hs, r, i))
  }

  ghost predicate ExplainedAt(hs: seq<Hist>, r: Run, i: nat)
    requires i < |r.who| && |hs| == |r.states| && |r.who| + 1 == |hs| == |r.what| + 1
  {
    StepExplained(hs[i], hs[i + 1], r.states[i], r.who[i], r.what[i])
  }

  ghost predicate StepExplained(h: Hist, g: Hist, c: Cluster, id: NodeID, e: Event) {
    Grows(h, g, id) && id in c.members && (e.Reads? ==> Asked(h, g, c.members[id]))
  }

  /** The run without its last step. */
  function Shorter(r: Run): Run
    requires |r.who| > 0 && |r.states| == |r.who| + 1 == |r.what| + 1
  {
    Run(r.states[..|r.who|], r.who[..|r.who| - 1], r.what[..|r.who| - 1])
  }

  lemma ShorterIsRun(boot: Configuration, r: Run)
    requires IsRun(boot, r) && |r.who| > 0
    ensures IsRun(boot, Shorter(r))
  {
    hide Init, Next;
    var s := Shorter(r);
    forall i | 0 <= i < |s.who| ensures StepAt(s, i) { assert StepAt(r, i); }
  }

  /** Every run has a history that stays consistent. */
  lemma {:induction false} Explained(boot: Configuration, r: Run) returns (hs: seq<Hist>)
    requires IsRun(boot, r)
    ensures Explains(hs, r) && hs[0].boot == boot
    decreases |r.who|
  {
    hide Init, Next, ClusterOK, ExplainedAt, StepExplained;
    if |r.who| == 0 {
      var h := InitOK(boot, r.states[0]);
      hs := [h];
    } else {
      ShorterIsRun(boot, r);
      var shorter := Explained(boot, Shorter(r));
      hs := LastExplained(shorter, r);
    }
  }

  lemma LastExplained(shorter: seq<Hist>, r: Run) returns (hs: seq<Hist>)
    requires |r.who| > 0 && |r.states| == |r.who| + 1 == |r.what| + 1
    requires Explains(shorter, Shorter(r)) && StepAt(r, |r.who| - 1)
    ensures Explains(hs, r) && hs[0] == shorter[0]
  {
    hide Next, ClusterOK, StepExplained;
    var k, s := |r.who| - 1, Shorter(r);
    assert s.states[k] == r.states[k];
    var g := NextOK(shorter[k], r.states[k], r.who[k], r.what[k], r.states[k + 1]);
    StepIsExplained(shorter[k], g, r.states[k], r.who[k], r.what[k]);
    hs := shorter + [g];
    forall i | 0 <= i < |hs| ensures ClusterOK(hs[i], r.states[i]) {
      if i <= k { assert ClusterOK(shorter[i], s.states[i]); }
    }
    forall i | 0 <= i < |r.who| ensures ExplainedAt(hs, r, i) {
      if i < k { assert ExplainedAt(shorter, s, i); }
    }
  }

  lemma StepIsExplained(h: Hist, g: Hist, c: Cluster, id: NodeID, e: Event)
    requires Grows(h, g, id) && id in c.members && (e.Reads? ==> Asked(h, g, c.members[id]))
    ensures StepExplained(h, g, c, id, e)
  {}

  // ---------------------------------------------------------------------------
  // Later histories
  // ---------------------------------------------------------------------------

  /** `g` is a later history than `h`, whoever took the steps between. */
  ghost predicate Later(h: Hist, g: Hist) {
    && g.boot == h.boot
    && (forall t :: t in h.reigns ==>
          t in g.reigns && g.reigns[t].leader == h.reigns[t].leader && h.reigns[t].log <= g.reigns[t].log)
    && (forall k :: k in h.ballots ==> k in g.ballots && g.ballots[k] == h.ballots[k])
    && h.commits <= g.commits
    && (forall k :: k in h.barriers ==> k in g.barriers && g.barriers[k] == h.barriers[k])
  }

  lemma GrowsIsLater(h: Hist, g: Hist, id: NodeID)
    requires Grows(h, g, id)
    ensures Later(h, g)
  {}

  lemma LaterTransitive(a: Hist, b: Hist, c: Hist)
    requires Later(a, b) && Later(b, c)
    ensures Later(a, c)
  {}

  lemma {:induction false} LaterInRun(hs: seq<Hist>, r: Run, i: nat, j: nat)
    requires Explains(hs, r) && i <= j < |hs|
    ensures Later(hs[i], hs[j])
    decreases j
  {
    hide Later, ClusterOK, Grows, Asked;
    if i == j {
      LaterReflexive(hs[i]);
    } else {
      LaterInRun(hs, r, i, j - 1);
      assert ExplainedAt(hs, r, j - 1);
      GrowsIsLater(hs[j - 1], hs[j], r.who[j - 1]);
      LaterTransitive(hs[i], hs[j - 1], hs[j]);
    }
  }

  lemma LaterReflexive(h: Hist)
    ensures Later(h, h)
  {}

  lemma SettledLater(h: Hist, g: Hist, log: seq<Entry>, i: Index, t: Term)
    requires Consistent(h) && Later(h, g) && Settled(h, log, i, t)
    ensures Settled(g, log, i, t)
  {
    if i > 0 {
      var c :| c in h.commits && c.term <= t && i <= c.index && Held(h, c.term, i, log);
      assert CommitOK(h, c);
      assert g.reigns[c.term].log[..i] == h.reigns[c.term].log[..i];
      assert c in g.commits;
    }
  }

  lemma GoodLogLater(h: Hist, g: Hist, log: seq<Entry>)
    requires Later(h, g) && GoodLog(h, log)
    ensures GoodLog(g, log)
  {
    forall i | 0 <= i < |log| ensures GoodAt(g, log, i) {
      assert GoodAt(h, log, i);
      var t := log[i].term;
      assert g.reigns[t].log[..i + 1] == h.reigns[t].log[..i + 1];
    }
  }

  /** What the two moments of a run have to say to each other. */
  lemma Moments(boot: Configuration, r: Run, i: nat, a: NodeID, j: nat, b: NodeID) returns (h: Hist, g: Hist)
    requires IsRun(boot, r) && At(r, i, a) && At(r, j, b) && i <= j
    ensures Later(h, g) && h.boot == boot
    ensures ClusterOK(h, r.states[i]) && ClusterOK(g, r.states[j])
    ensures OK(h, NodeAt(r, i, a)) && OK(g, NodeAt(r, j, b)) && NodeAt(r, i, a).id == a && NodeAt(r, j, b).id == b
    ensures AppOK(NodeAt(r, i, a), AppAt(r, i, a)) && AppOK(NodeAt(r, j, b), AppAt(r, j, b))
  {
    hide IsRun, Later, OK, AppOK, StepExplained, SeqOK;
    var hs := Explained(boot, r);
    LaterInRun(hs, r, i, j);
    LaterInRun(hs, r, 0, i);
    LaterBoot(hs[0], hs[i]);
    h, g := hs[i], hs[j];
    assert MemberOK(h, a, r.states[i].members[a]) && MemberOK(g, b, r.states[j].members[b]);
  }

  lemma LaterBoot(h: Hist, g: Hist)
    requires Later(h, g)
    ensures g.boot == h.boot
  {}

  // ---------------------------------------------------------------------------
  // Safety
  // ---------------------------------------------------------------------------

  function Min(a: nat, b: nat): nat { if a <= b then a else b }

  /** State Machine Safety, over time as well as across nodes: whatever a node has committed, no node
      ever has anything else committed in its place. */
  lemma CommittedForever(boot: Configuration, r: Run, i: nat, a: NodeID, j: nat, b: NodeID)
    requires IsRun(boot, r) && At(r, i, a) && At(r, j, b) && i <= j
    ensures var n, m := NodeAt(r, i, a), NodeAt(r, j, b);
            && n.committed <= |n.log| && m.committed <= |m.log|
            && n.log[..Min(n.committed, m.committed)] == m.log[..Min(n.committed, m.committed)]
  {
    hide IsRun, Later, OK, AppOK, ClusterOK, Settled;
    var h, g := Moments(boot, r, i, a, j, b);
    var n, m := NodeAt(r, i, a), NodeAt(r, j, b);
    Unpack(h, n);
    Unpack(g, m);
    SettledLater(h, g, n.log, n.committed, n.term);
    if n.committed <= m.committed {
      SettledAgree(g, n.log, n.committed, n.term, m.log, m.committed, m.term);
    } else {
      SettledAgree(g, m.log, m.committed, m.term, n.log, n.committed, n.term);
    }
  }

  /** Two state machines, at any two moments, have consumed the same entries as far as the shorter goes. */
  lemma StateMachinesAgree(boot: Configuration, r: Run, i: nat, a: NodeID, j: nat, b: NodeID)
    requires IsRun(boot, r) && At(r, i, a) && At(r, j, b) && i <= j
    ensures AppAt(r, i, a) <= AppAt(r, j, b) || AppAt(r, j, b) <= AppAt(r, i, a)
  {
    hide IsRun, Later, OK, ClusterOK;
    var h, g := Moments(boot, r, i, a, j, b);
    var n, m := NodeAt(r, i, a), NodeAt(r, j, b);
    OKFacts(h, n);
    OKFacts(g, m);
    CommittedForever(boot, r, i, a, j, b);
    var k := Min(n.committed, m.committed);
    var x, y := AppAt(r, i, a), AppAt(r, j, b);
    assert x == n.log[..|x|] && y == m.log[..|y|];
    if |x| <= |y| {
      PrefixStays(n.log, m.log, k, |x|);
      assert y[..|x|] == m.log[..|x|];
    } else {
      PrefixStays(n.log, m.log, k, |y|);
      assert x[..|y|] == n.log[..|y|];
    }
  }

  /** Unless a snapshot is waiting to be restored, a state machine has consumed exactly the applied part of its log;
      if one is, it is a snapshot of exactly that part. */
  lemma ConsumedIsApplied(boot: Configuration, r: Run, i: nat, a: NodeID)
    requires IsRun(boot, r) && At(r, i, a)
    ensures var n := NodeAt(r, i, a);
            && n.applied <= |n.log| && AppAt(r, i, a) <= n.log[..n.applied]
            && n.log[..n.applied] == if n.toRestore.Some? then n.toRestore.value.image else AppAt(r, i, a)
  {
    hide IsRun, OK, ClusterOK, Later;
    var h, g := Moments(boot, r, i, a, i, a);
  }

  /** Election Safety: no term ever has two leaders. */
  lemma OneLeaderPerTerm(boot: Configuration, r: Run, i: nat, a: NodeID, j: nat, b: NodeID)
    requires IsRun(boot, r) && At(r, i, a) && At(r, j, b) && i <= j
    requires NodeAt(r, i, a).role == Leader && NodeAt(r, j, b).role == Leader
    requires NodeAt(r, i, a).term == NodeAt(r, j, b).term
    ensures a == b
  {
    hide IsRun, OK, AppOK, ClusterOK;
    var h, g := Moments(boot, r, i, a, j, b);
    Unpack(h, NodeAt(r, i, a));
    Unpack(g, NodeAt(r, j, b));
  }

  /** No node ever votes for two candidates in one term, crashes included. */
  lemma OneVotePerTerm(boot: Configuration, r: Run, i: nat, j: nat, a: NodeID)
    requires IsRun(boot, r) && At(r, i, a) && At(r, j, a) && i <= j
    requires NodeAt(r, i, a).term == NodeAt(r, j, a).term && NodeAt(r, i, a).vote != NONE
    ensures NodeAt(r, j, a).vote == NodeAt(r, i, a).vote
  {
    hide IsRun, OK, AppOK, ClusterOK;
    var h, g := Moments(boot, r, i, a, j, a);
    Unpack(h, NodeAt(r, i, a));
    Unpack(g, NodeAt(r, j, a));
  }

  /** Log Matching: logs that hold the same term at an index hold the same entries up to it. */
  lemma LogMatching(boot: Configuration, r: Run, i: nat, a: NodeID, j: nat, b: NodeID, k: Index)
    requires IsRun(boot, r) && At(r, i, a) && At(r, j, b) && i <= j
    requires 0 < k <= |NodeAt(r, i, a).log| && k <= |NodeAt(r, j, b).log|
    requires NodeAt(r, i, a).log[k - 1].term == NodeAt(r, j, b).log[k - 1].term
    ensures NodeAt(r, i, a).log[..k] == NodeAt(r, j, b).log[..k]
  {
    hide IsRun, Later, OK, AppOK, ClusterOK, GoodLog;
    var h, g := Moments(boot, r, i, a, j, b);
    GoodOwn(h, NodeAt(r, i, a));
    GoodOwn(g, NodeAt(r, j, b));
    GoodLogLater(h, g, NodeAt(r, i, a).log);
    LogsMatch(g, NodeAt(r, i, a).log, NodeAt(r, j, b).log, k);
  }

  /** Leader Completeness: a leader of the same or a later term holds everything committed before. */
  lemma LeaderHoldsCommitted(boot: Configuration, r: Run, i: nat, a: NodeID, j: nat, b: NodeID)
    requires IsRun(boot, r) && At(r, i, a) && At(r, j, b) && i <= j
    requires NodeAt(r, j, b).role == Leader && NodeAt(r, j, b).term >= NodeAt(r, i, a).term
    ensures var n := NodeAt(r, i, a); n.committed <= |n.log| && n.log[..n.committed] <= NodeAt(r, j, b).log
  {
    hide IsRun, Later, OK, AppOK, ClusterOK, Settled, Consistent;
    var h, g := Moments(boot, r, i, a, j, b);
    var n, m := NodeAt(r, i, a), NodeAt(r, j, b);
    Unpack(h, n);
    Unpack(g, m);
    SettledLater(h, g, n.log, n.committed, n.term);
    SettledBound(g, n.log, n.committed, n.term);
    SettledExtends(g, n.log, n.log, n.committed, n.term, m.term);
    SettledInLeader(g, n.log, n.committed, m.term);
    assert n.log[..n.committed] == m.log[..n.committed];
  }

  /** No node ever panics or stops on a safety violation, its indexes stay in order, and its configuration
      is the one that a scan of everything it ever logged would find. */
  lemma AlwaysInOrder(boot: Configuration, r: Run, i: nat, a: NodeID)
    requires IsRun(boot, r) && At(r, i, a)
    ensures var n := NodeAt(r, i, a);
            && !n.fault
            && n.floor <= n.snap.lastIndex <= n.applied <= n.committed <= |n.log|
            && n.hard.term == n.term && n.hard.vote == n.vote
            && n.conf == ConfOf(boot, n.log)
  {
    hide IsRun, Later, OK, AppOK, ClusterOK;
    var h, g := Moments(boot, r, i, a, i, a);
    Unpack(h, NodeAt(r, i, a));
  }

  lemma StepForward(boot: Configuration, r: Run, k: nat, a: NodeID)
    requires IsRun(boot, r) && At(r, k, a) && k < |r.who|
    ensures At(r, k + 1, a) && NodeAt(r, k, a).term <= NodeAt(r, k + 1, a).term
    ensures r.who[k] != a || !r.what[k].Crashes? ==>
              && NodeAt(r, k, a).committed <= NodeAt(r, k + 1, a).committed
              && NodeAt(r, k, a).applied <= NodeAt(r, k + 1, a).applied
  {
    hide Init, Enabled, After, ClusterOK;
    var hs := Explained(boot, r);
    assert StepAt(r, k);
    TurnForward(hs[k], r.states[k], r.who[k], r.what[k]);
  }

  ghost predicate StaysUp(r: Run, i: nat, j: nat, a: NodeID) {
    forall k :: i <= k < j && k < |r.who| && k < |r.what| && r.who[k] == a ==> !r.what[k].Crashes?
  }

  /** Terms never go back, crashes included; between crashes neither do the commit index and the applied index. */
  lemma {:induction false} NeverBack(boot: Configuration, r: Run, i: nat, j: nat, a: NodeID)
    requires IsRun(boot, r) && At(r, i, a) && i <= j < |r.states|
    ensures At(r, j, a) && NodeAt(r, i, a).term <= NodeAt(r, j, a).term
    ensures StaysUp(r, i, j, a) ==>
              NodeAt(r, i, a).committed <= NodeAt(r, j, a).committed
                && NodeAt(r, i, a).applied <= NodeAt(r, j, a).applied
    decreases j
  {
    hide IsRun;
    RunLength(boot, r);
    if i < j {
      NeverBack(boot, r, i, j - 1, a);
      StepForward(boot, r, j - 1, a);
    }
  }

  lemma RunLength(boot: Configuration, r: Run)
    requires IsRun(boot, r)
    ensures |r.states| == |r.who| + 1 == |r.what| + 1
  {}

  /** Every snapshot on its way covers all the entries it claims to. */
  lemma SnapshotsAreWhole(boot: Configuration, r: Run, i: nat, m: Message)
    requires IsRun(boot, r) && i < |r.states| && m in r.states[i].net && m.SnapReq?
    ensures WholeImage(m.snap)
  {
    hide IsRun, Settled;
    var hs := Explained(boot, r);
    assert ClusterOK(hs[i], r.states[i]);
    assert MsgOK(hs[i], m);
  }

  /** Joint consensus: in every log of every run, configuration entries alternate between entering and leaving
      a joint configuration, each keeps one half of its predecessor, and no quorum of a configuration misses a
      quorum of the next. A leader has seen every configuration entry commit before it appends another. */
  lemma MembershipChain(boot: Configuration, r: Run, i: nat, a: NodeID, k: Index, p: set<NodeID>, q: set<NodeID>)
    requires IsRun(boot, r) && At(r, i, a) && 0 < k <= |NodeAt(r, i, a).log|
             && NodeAt(r, i, a).log[k - 1].payload.ConfEntry?
    ensures var log := NodeAt(r, i, a).log;
            var prev, cc := ConfOf(boot, log[..k - 1]), log[k - 1].payload.change;
            && (cc.kind.EnterJointKind? ==>
              !prev.IsJoint() && cc.config.IsJoint() && cc.config.oldVoters == prev.voters)
            && (cc.kind.LeaveJointKind? ==> prev.IsJoint() && !cc.config.IsJoint() && cc.config.voters == prev.voters)
            && (Quorum(prev, p) && Quorum(cc.config, q) ==> exists v :: v in p && v in q)
    ensures var n := NodeAt(r, i, a);
            n.role == Leader && n.log[k - 1].term == n.term ==> LastConfIndex(n.log[..k - 1]) <= n.committed
  {
    hide IsRun, Later, OK, AppOK, ClusterOK, GoodLog, Quorum, LogPart, AckPart, VotePart, CandPart, Settled, Held;
    var h, g := Moments(boot, r, i, a, i, a);
    var n := NodeAt(r, i, a);
    Unpack(h, n);
    GoodOwn(h, n);
    GoodPrefix(h, n.log, k);
    LastIsConf(n.log, k);
    LastStep(h, n.log[..k], k);
    assert n.log[..k][..k - 1] == n.log[..k - 1] && n.log[..k][k - 1] == n.log[k - 1];
    if Quorum(ConfOf(boot, n.log[..k - 1]), p) && Quorum(n.log[k - 1].payload.change.config, q) {
      SuccessorsMeet(ConfOf(boot, n.log[..k - 1]), n.log[k - 1].payload.change, p, q);
    }
  }

  /** A change that a leader accepts is appended on top of configuration entries that had all been committed
      before it was asked for. */
  lemma ChangesWait(boot: Configuration, r: Run, i: nat, a: NodeID, target: Configuration, p: Index)
    requires IsRun(boot, r) && i < |r.who| && r.who[i] == a && r.what[i] == Reconfigures(target) && At(r, i, a)
    requires At(r, i + 1, a) && NodeAt(r, i + 1, a).log != NodeAt(r, i, a).log
    requires 0 < p <= |NodeAt(r, i, a).log| && NodeAt(r, i, a).log[p - 1].payload.ConfEntry?
    ensures NodeAt(r, i, a).role == Leader && p <= NodeAt(r, i, a).committed
  {
    hide Init, Enabled, ClusterOK, OK, Propose, AppOK;
    var h, g := Moments(boot, r, i, a, i, a);
    Unpack(h, NodeAt(r, i, a));
    assert StepAt(r, i);
  }

  /** Along every log of every run, terms never decrease. */
  lemma TermsRise(boot: Configuration, r: Run, i: nat, a: NodeID, k: nat, l: nat)
    requires IsRun(boot, r) && At(r, i, a) && k <= l < |NodeAt(r, i, a).log|
    ensures NodeAt(r, i, a).log[k].term <= NodeAt(r, i, a).log[l].term <= NodeAt(r, i, a).term
  {
    hide IsRun, Later, OK, AppOK, ClusterOK, GoodLog;
    var h, g := Moments(boot, r, i, a, i, a);
    Unpack(h, NodeAt(r, i, a));
    GoodOwn(h, NodeAt(r, i, a));
    TermsAscend(h, NodeAt(r, i, a).log, k, l);
  }

  /** A vote that has been sent is on its voter's disk, or belongs to a term the voter has left for good. */
  lemma VotesAreDurable(boot: Configuration, r: Run, i: nat, m: Message)
    requires IsRun(boot, r) && i < |r.states| && m in r.states[i].net && m.VoteResp? && m.granted && !m.preVote
    requires At(r, i, m.from)
    ensures var disk := NodeAt(r, i, m.from).hard; m.term < disk.term || (m.term == disk.term && disk.vote == m.to)
  {
    hide IsRun, OK, AppOK, SeqOK;
    var hs := Explained(boot, r);
    assert ClusterOK(hs[i], r.states[i]);
    assert MsgOK(hs[i], m) && MemberOK(hs[i], m.from, r.states[i].members[m.from]);
    Unpack(hs[i], NodeAt(r, i, m.from));
  }

  /** What a leader believes about a follower that is in its term is so: the two logs agree that far. */
  lemma MatchesAreReal(boot: Configuration, r: Run, i: nat, a: NodeID, b: NodeID)
    requires IsRun(boot, r) && At(r, i, a) && At(r, i, b)
    requires NodeAt(r, i, a).role == Leader && b in NodeAt(r, i, a).progress
             && NodeAt(r, i, b).term == NodeAt(r, i, a).term
    ensures var n, f := NodeAt(r, i, a), NodeAt(r, i, b);
            var k := n.progress[b].matched;
            k <= |n.log| && k <= |f.log| && f.log[..k] == n.log[..k]
  {
    hide IsRun, OK, AppOK, SeqOK, StepExplained;
    var hs := Explained(boot, r);
    assert ClusterOK(hs[i], r.states[i]);
    assert MemberOK(hs[i], a, r.states[i].members[a]) && MemberOK(hs[i], b, r.states[i].members[b]);
    Unpack(hs[i], NodeAt(r, i, a));
    MatchAgrees(hs[i], NodeAt(r, i, a), NodeAt(r, i, b), NodeAt(r, i, a).progress[b].matched);
  }

  lemma LastIsConf(log: seq<Entry>, k: Index)
    requires 0 < k <= |log| && log[k - 1].payload.ConfEntry?
    ensures LastConfIndex(log[..k]) == k
  {
    assert log[..k][k - 1] == log[k - 1];
  }

  /** In every run, any leader that has compacted nothing brings any follower of its term back into agreement
      after at most one refusal more than there are terms in the follower's log. */
  lemma RepairsAreShort(boot: Configuration, r: Run, i: nat, a: NodeID, b: NodeID)
    requires IsRun(boot, r) && At(r, i, a) && At(r, i, b) && a != b
    requires NodeAt(r, i, a).role == Leader && NodeAt(r, i, a).floor == 0 && b in NodeAt(r, i, a).progress
    requires NodeAt(r, i, b).term == NodeAt(r, i, a).term
    ensures AcceptedWithin(NodeAt(r, i, a), NodeAt(r, i, b), NodeAt(r, i, a).progress[b],
            1 + |TermsOf(NodeAt(r, i, b).log)|)
  {
    hide IsRun, OK, AppOK, SeqOK, Pair, AcceptedWithin, StepExplained;
    var hs := Explained(boot, r);
    assert ClusterOK(hs[i], r.states[i]);
    assert MemberOK(hs[i], a, r.states[i].members[a]) && MemberOK(hs[i], b, r.states[i].members[b]);
    TrackedIsPair(hs[i], NodeAt(r, i, a), NodeAt(r, i, b));
    RepairBound(hs[i], NodeAt(r, i, a), NodeAt(r, i, b), NodeAt(r, i, a).progress[b]);
  }

  /** A term and an index identify an entry: wherever an entry of the term a write was accepted in shows up at
      the index it was given, it is that write. */
  lemma ProposalIsTheEntry(boot: Configuration, r: Run, i: nat, a: NodeID, bytes: seq<Byte>, j: nat, b: NodeID)
    requires IsRun(boot, r) && i < |r.who| && r.who[i] == a && r.what[i] == Writes(bytes) && At(r, i, a)
    requires NodeAt(r, i, a).role == Leader && At(r, j, b) && i < j
    requires var k := |NodeAt(r, i, a).log| + 1;
             k <= |NodeAt(r, j, b).log| && NodeAt(r, j, b).log[k - 1].term == NodeAt(r, i, a).term
    ensures var k := |NodeAt(r, i, a).log| + 1;
            NodeAt(r, j, b).log[k - 1] == Entry(k, NodeAt(r, i, a).term, Command(bytes))
  {
    hide Init, Enabled, ClusterOK, Propose, OK;
    var n, k := NodeAt(r, i, a), |NodeAt(r, i, a).log| + 1;
    AlwaysInOrder(boot, r, i, a);
    assert StepAt(r, i);
    ProposeTerm(n, Command(bytes));
    var e := Entry(k, n.term, Command(bytes));
    assert NodeAt(r, i + 1, a).log[..k] == n.log + [e];
    assert NodeAt(r, i + 1, a).log[k - 1] == NodeAt(r, i + 1, a).log[..k][k - 1] == e;
    LogMatching(boot, r, i + 1, a, j, b, k);
    assert NodeAt(r, j, b).log[k - 1] == NodeAt(r, j, b).log[..k][k - 1];
  }

  // ---------------------------------------------------------------------------
  // Linearizable reads
  // ---------------------------------------------------------------------------

  /** While no later term has a leader, a leader that has committed in its own term knows every commit. */
  lemma KnowsEveryCommit(h: Hist, n: Node, m: Node)
    requires OK(h, n) && OK(h, m) && ReadIndexError(n).None?
    requires forall u :: u in h.reigns ==> u <= n.term
    ensures m.committed <= n.committed
  {
    hide OK, NodeOK, Consistent, Held, CandPart, VotePart, AckPart, ConfPart, ReadPart, MsgsPart, DiskPart;
    Unpack(h, n);
    Unpack(h, m);
    if m.committed > 0 {
      var c :| c in h.commits && c.term <= m.term && m.committed <= c.index && Held(h, c.term, m.committed, m.log);
      CommitLed(h, c);
      if c.term < n.term {
        LeaderComplete(h, n.term, c);
        BaseBelow(h, n, c);
      }
    }
  }

  lemma CommitLed(h: Hist, c: Commit)
    requires Consistent(h) && c in h.commits
    ensures c.term in h.reigns
  {
    assert CommitOK(h, c);
  }

  lemma BaseBelow(h: Hist, n: Node, c: Commit)
    requires OK(h, n) && ReadIndexError(n).None? && c in h.commits && n.term in h.reigns
    requires h.reigns[n.term].base <= |h.reigns[n.term].log| && Held(h, c.term, c.index, Inherited(h, n.term))
    ensures c.index <= n.committed
  {
    hide GoodLog, AckPart, KeptAll;
    ReignTerms(h, n.term, n.committed - 1);
  }

  lemma StepReads(boot: Configuration, r: Run, k: nat, a: NodeID)
    requires IsRun(boot, r) && At(r, k, a) && k < |r.who| && !(r.who[k] == a && r.what[k].Crashes?)
    ensures At(r, k + 1, a) && (r.who[k] == a ==> ReadsCarryOver(r.states[k].members[a], r.states[k + 1].members[a]))
    ensures r.who[k] != a ==> r.states[k + 1].members[a] == r.states[k].members[a]
  {
    hide Init, Enabled, After, ClusterOK, ReadsCarryOver;
    var hs := Explained(boot, r);
    assert StepAt(r, k);
    if r.who[k] == a { TurnReads(hs[k], r.states[k], a, r.what[k]); }
  }

  /** A read that is still around, in a process that has not crashed, was asked in the present term. */
  lemma {:induction false} ReadsKeepTheirTerm(boot: Configuration, r: Run, i: nat, j: nat, a: NodeID)
    requires IsRun(boot, r) && i < |r.who| && r.who[i] == a && r.what[i] == Reads && At(r, i, a) && i < j < |r.states|
    requires StaysUp(r, i, j, a)
    ensures At(r, j, a)
    ensures var id, mem := r.states[i].members[a].readSeq + 1, r.states[j].members[a];
            id <= mem.readSeq && (mem.node.term == NodeAt(r, i, a).term
              || forall x :: x in ReadsOf(mem.node) ==> id < x)
    decreases j
  {
    hide IsRun, ReadsOf;
    RunLength(boot, r);
    if i + 1 < j {
      ReadsKeepTheirTerm(boot, r, i, j - 1, a);
      StepReads(boot, r, j - 1, a);
    } else {
      AskedInTerm(boot, r, i, a);
    }
  }

  lemma AskedInTerm(boot: Configuration, r: Run, i: nat, a: NodeID)
    requires IsRun(boot, r) && i < |r.who| && r.who[i] == a && r.what[i] == Reads && At(r, i, a)
    ensures At(r, i + 1, a) && NodeAt(r, i + 1, a).term == NodeAt(r, i, a).term
    ensures r.states[i + 1].members[a].readSeq == r.states[i].members[a].readSeq + 1
  {
    hide Init, Enabled, ReadIndex;
    assert StepAt(r, i);
    ReadIndexForward(NodeAt(r, i, a), r.states[i].members[a].readSeq + 1);
  }

  lemma ConfirmedIsRead(n: Node, id: nat, index: Index)
    requires ReadState(id, index) in n.readStates
    ensures id in ReadsOf(n)
  {
    var i :| 0 <= i < |n.readStates| && n.readStates[i] == ReadState(id, index);
  }

  /** A read that a process confirms is at an index no lower than anything any node had committed when that same
      process was asked it, whatever terms it led or followed in between. */
  lemma ReadIsFresh(boot: Configuration, r: Run, i: nat, j: nat, a: NodeID, b: NodeID, index: Index)
    requires IsRun(boot, r) && i < |r.who| && r.who[i] == a && r.what[i] == Reads
    requires At(r, i, a) && At(r, i, b) && At(r, j, a) && i < j
    requires ReadIndexError(NodeAt(r, i, a)).None? && StaysUp(r, i, j, a)
    requires ReadState(r.states[i].members[a].readSeq + 1, index) in NodeAt(r, j, a).readStates
    ensures NodeAt(r, i, b).committed <= index
  {
    hide IsRun, Later, OK, ClusterOK, ReadIndexError, AppOK, SeqOK, Grows, ReadsOf;
    var hs := Explained(boot, r);
    var n, id := NodeAt(r, i, a), r.states[i].members[a].readSeq + 1;
    ReadsKeepTheirTerm(boot, r, i, j, a);
    ConfirmedIsRead(NodeAt(r, j, a), id, index);
    assert ExplainedAt(hs, r, i);
    LaterInRun(hs, r, i + 1, j);
    MembersOK(hs[i], r.states[i], a);
    MembersOK(hs[i], r.states[i], b);
    MembersOK(hs[j], r.states[j], a);
    BarrierLater(hs[i + 1], hs[j], ReadKey(n.term, id));
    Unpack(hs[j], NodeAt(r, j, a));
    KnowsEveryCommit(hs[i], n, NodeAt(r, i, b));
  }

  lemma MembersOK(h: Hist, c: Cluster, a: NodeID)
    requires ClusterOK(h, c) && a in c.members
    ensures OK(h, c.members[a].node)
  {
    assert MemberOK(h, a, c.members[a]);
  }

  lemma BarrierLater(h: Hist, g: Hist, k: ReadKey)
    requires Later(h, g) && k in h.barriers
    ensures k in g.barriers && g.barriers[k] == h.barriers[k]
  {}

  /** ...so any state machine that has reached that index shows everything committed before the read. */
  lemma ReadSeesEverything(boot: Configuration, r: Run, i: nat, j: nat, k: nat, a: NodeID, b: NodeID, s: NodeID,
                           index: Index)
    requires IsRun(boot, r) && i < |r.who| && r.who[i] == a && r.what[i] == Reads
    requires At(r, i, a) && At(r, i, b) && At(r, j, a) && At(r, k, s) && i < j <= k
    requires ReadIndexError(NodeAt(r, i, a)).None? && StaysUp(r, i, j, a)
    requires ReadState(r.states[i].members[a].readSeq + 1, index) in NodeAt(r, j, a).readStates
    requires index <= NodeAt(r, k, s).applied && NodeAt(r, k, s).toRestore.None?
    ensures var n := NodeAt(r, i, b); n.committed <= |n.log| && n.log[..n.committed] <= AppAt(r, k, s)
  {
    hide IsRun, Later, OK, ClusterOK, ReadIndexError;
    ReadIsFresh(boot, r, i, j, a, b, index);
    CommittedForever(boot, r, i, b, k, s);
    var h, g := Moments(boot, r, i, b, k, s);
    OKFacts(g, NodeAt(r, k, s));
    var n, m := NodeAt(r, i, b), NodeAt(r, k, s);
    assert m.log[..n.committed] <= m.log[..m.applied];
  }
}
