/** What a leader makes of a peer's report: it is believed, it ends the wait for a snapshot, and nothing the leader does
on the strength of it takes that back (raft/replication.go, raft/snapshot.go). */
module Reports {
  import opened Configurations
  import opened RaftTypes
  import opened RaftNode
  import opened History
  import opened Invariant
  import opened Steady
  import opened Clusters
  import opened Runs
  import opened Tenure
  import opened Broadcasts
  import opened Resting

  predicate Snapped(n: Node, v: NodeID) { SnapReq(n.id, v, n.term, n.snap) in n.msgs }

  predicate SameSender(n: Node, r: Node) { r.id == n.id && r.term == n.term && r.snap == n.snap && n.msgs <= r.msgs }

  /** What is known of a peer is not forgotten while it is tracked; and if it waits for a snapshot, that has just been
      sent. */
  ghost predicate Kept(n: Node, v: NodeID, r: Node) {
    && SameSender(n, r)
    && (v in r.progress ==>
          && v in n.progress && r.progress[v].matched >= n.progress[v].matched
          && (n.progress[v].pendingSnapshot == 0 || Snapped(n, v) ==>
                r.progress[v].pendingSnapshot == 0 || Snapped(r, v)))
  }

  lemma KeptThen(n: Node, v: NodeID, q: Node, r: Node)
    requires Kept(n, v, q) && Kept(q, v, r)
    ensures Kept(n, v, r)
  {}

  lemma SendAppendKept(n: Node, to: NodeID, readId: nat, v: NodeID)
    ensures Kept(n, v, SendAppend(n, to, readId))
  {
    hide TermOf, BatchEnd;
    var r := SendAppend(n, to, readId);
    if r.msgs != n.msgs { assert r.msgs[|n.msgs|] in r.msgs; }
  }

  lemma {:induction false} SendAllKept(n: Node, peers: seq<NodeID>, readId: nat, v: NodeID)
    ensures Kept(n, v, SendAll(n, peers, readId))
    decreases |peers|
  {
    hide SendAppend;
    if peers != [] {
      var q := SendAppend(n, peers[0], readId);
      SendAppendKept(n, peers[0], readId, v);
      SendAllKept(q, peers[1..], readId, v);
      KeptThen(n, v, q, SendAll(q, peers[1..], readId));
    }
  }

  /** Outside a transition, committing touches nobody's record, unless the leader steps down. */
  lemma CommitKept(n: Node, v: NodeID)
    requires Sized(n) && !n.conf.IsJoint()
    ensures Kept(n, v, MaybeAdvanceCommit(n))
  {
    hide CommittedIndex, Matched;
  }

  /** Leaving a transition adds no member. */
  lemma LeavingKept(n: Node, v: NodeID)
    requires Sized(n) && LeaveJoint(n.conf).Changed? && n.progress.Keys >= (set u | u in Members(n.conf)) + {n.id}
    requires n.role == Leader && v != n.id
    ensures Kept(n, v, AppendOwn(n, ConfEntry(LeaveJoint(n.conf).change)))
  {
    hide Members;
    ConfOfAppend(n.cfg.boot, n.log, Entry(|n.log| + 1, n.term, ConfEntry(LeaveJoint(n.conf).change)));
    var r := AppendOwn(n, ConfEntry(LeaveJoint(n.conf).change));
    if v in r.progress { assert v in Members(r.conf) && v in Members(n.conf); }
  }

  lemma LeaveKept(n: Node, v: NodeID)
    requires Sized(n) && n.role == Leader && v != n.id && n.progress.Keys >= (set u | u in Members(n.conf)) + {n.id}
    ensures Kept(n, v, MaybeLeaveJoint(n))
  {
    hide AppendOwn, MaybeAdvanceCommit, SendAll, Members, Peers;
    if n.conf.IsJoint() && n.confIndex <= n.committed && LeaveJoint(n.conf).Changed? && |n.log| + 1 > n.committed {
      var p := ConfEntry(LeaveJoint(n.conf).change);
      LeavingIsNotJoint(n);
      LeavingKept(n, v);
      OwnLog(n, p);
      var q := AppendOwn(n, p);
      CommitKept(q, v);
      var x := MaybeAdvanceCommit(q);
      KeptThen(n, v, q, x);
      SendAllKept(x, Peers(x.conf, x.id), 0, v);
      KeptThen(n, v, x, BroadcastAppend(x));
    }
  }

  lemma AdvanceKept(n: Node, v: NodeID)
    requires Sized(n) && n.role == Leader && v != n.id && n.progress.Keys >= (set u | u in Members(n.conf)) + {n.id}
    ensures Kept(n, v, MaybeAdvanceCommit(n))
  {
    hide MaybeLeaveJoint, CommittedIndex, Matched, Members, Kept, Persist, CommitTo, StepDownIfRemoved, TermOf;
    DownKept(n, v);
    var top := CommittedIndex(n.conf, Matched(n));
    var q := Persist(CommitTo(n, top));
    MovedKept(n, top, v);
    LeaveKept(q, v);
    var x := MaybeLeaveJoint(q);
    DownKept(x, v);
    KeptThen(n, v, q, x);
    KeptThen(n, v, x, StepDownIfRemoved(x));
    AdvanceCases(n, top);
  }

  lemma MovedKept(n: Node, top: Index, v: NodeID)
    requires Sized(n) && n.role == Leader
    ensures var q := Persist(CommitTo(n, top));
            && Kept(n, v, q) && Sized(q)
            && q.role == Leader && q.progress == n.progress && q.conf == n.conf && q.id == n.id
  {
    hide Persist;
    PersistKeeps(CommitTo(n, top));
    var q := Persist(CommitTo(n, top));
    assert q == n.(committed := q.committed, hard := q.hard, fault := q.fault);
  }

  lemma AdvanceCases(n: Node, top: Index)
    requires Sized(n) && n.role == Leader && top == CommittedIndex(n.conf, Matched(n))
    requires Sized(Persist(CommitTo(n, top)))
    ensures var r, q := MaybeAdvanceCommit(n), Persist(CommitTo(n, top));
            r == n || r == Fail(n) || r == q || r == MaybeLeaveJoint(q) || r == StepDownIfRemoved(MaybeLeaveJoint(q))
  {
    hide MaybeLeaveJoint, CommittedIndex, Matched, Persist, CommitTo, StepDownIfRemoved, TermOf;
  }

  lemma DownKept(n: Node, v: NodeID)
    ensures Kept(n, v, StepDownIfRemoved(n)) && Kept(n, v, n) && Kept(n, v, Fail(n))
  {}

  lemma FeedKept(n: Node, from: NodeID, next: pos, advanced: bool, v: NodeID)
    ensures Kept(n, v, Feed(n, from, next, advanced))
  {
    hide SendAll, SendAppend, Peers;
    SendAllKept(n, Peers(n.conf, n.id), 0, v);
    SendAppendKept(n, from, 0, v);
    DownKept(n, v);
  }

  /** The peer's word is taken: what it says it holds counts as held, and it no longer waits for a snapshot unless one
      has just been sent. */
  ghost predicate Believed(n: Node, m: Message, r: Node)
    requires m.AppendResp? || m.SnapResp?
  {
    m.from in r.progress ==>
      && r.progress[m.from].matched >= m.matchIndex
      && (m.SnapResp? ==> r.progress[m.from].pendingSnapshot == 0 || Snapped(r, m.from))
  }

  lemma MatchKept(n: Node, from: NodeID, i: Index)
    requires Sized(n) && n.role == Leader && from in n.progress && from != n.id
    requires n.progress.Keys >= (set u | u in Members(n.conf)) + {n.id}
    ensures var r := RecordMatch(n, from, i); Kept(n, from, r) && (from in r.progress ==> r.progress[from].matched >= i)
  {
    hide MaybeAdvanceCommit, Feed, Members;
    if i > n.progress[from].matched {
      var q := WithMatch(n, from, i);
      assert q.progress.Keys == n.progress.Keys;
      AdvanceKept(q, from);
      var x := MaybeAdvanceCommit(q);
      FeedKept(x, from, i + 1, x.committed > n.committed, from);
      KeptThen(n, from, q, x);
      KeptThen(q, from, x, RecordMatch(n, from, i));
      KeptThen(n, from, x, RecordMatch(n, from, i));
    } else {
      FeedKept(n, from, n.progress[from].next, false, from);
    }
  }

  lemma ReportBelieved(n: Node, m: Message)
    requires Sized(n) && n.role == Leader && IsReport(n, m) && m.from != n.id
    requires n.progress.Keys >= (set u | u in Members(n.conf)) + {n.id}
    ensures Believed(n, m, Dispatch(n, m))
  {
    hide RecordMatch, AckRead, Members, Snapped;
    if m.AppendResp? {
      AckReadIds(n, m.from, m.readId);
      MatchKept(if m.readId != 0 then AckRead(n, m.from, m.readId) else n, m.from, m.matchIndex);
    } else {
      var q := n.(progress := n.progress[m.from := n.progress[m.from].(pendingSnapshot := 0, snapshotTicks := 0)]);
      assert q.progress.Keys == n.progress.Keys;
      MatchKept(q, m.from, m.matchIndex);
    }
  }

  /** In every run, a report of success from a peer the leader tracks is believed. */
  lemma ReportsAreBelieved(boot: Configuration, r: Run, k: nat, a: NodeID)
    requires IsRun(boot, r) && |r.states| == |r.who| + 1 == |r.what| + 1
    requires k < |r.who| && At(r, k, a) && At(r, k + 1, a)
    requires r.who[k] == a && NodeAt(r, k, a).role == Leader
    requires r.what[k].Receives? && IsReport(NodeAt(r, k, a), r.what[k].m)
    ensures Believed(NodeAt(r, k, a), r.what[k].m, NodeAt(r, k + 1, a))
  {
    hide Init, Dispatch, Believed, ClusterOK, Members, TracksMembers;
    InOrder(boot, r, k, a);
    assert StepAt(r, k);
    var hs := Explained(boot, r);
    FromAnother(hs[k], r.states[k], r.what[k].m);
    TracksAll(boot, r, k, a);
    ReportBelieved(NodeAt(r, k, a), r.what[k].m);
  }

  lemma FromAnother(h: Hist, c: Cluster, m: Message)
    requires ClusterOK(h, c) && m in c.net
    ensures m.from != m.to
  {
    assert MsgOK(h, m);
  }

  lemma TracksAll(boot: Configuration, r: Run, k: nat, a: NodeID)
    requires IsRun(boot, r) && At(r, k, a) && NodeAt(r, k, a).role == Leader
    ensures var n := NodeAt(r, k, a); n.progress.Keys >= (set u | u in Members(n.conf)) + {n.id}
  {
    hide IsRun, AllCommitted, Members;
    AlwaysAtRest(boot, r, k, a);
  }
}
