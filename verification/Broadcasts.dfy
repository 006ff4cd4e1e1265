/** What a leader sends, to whom and when: the next entries for every peer, as many as one message may carry, or a
snapshot for a peer too far behind; at every heartbeat, and whenever a read is asked or the commit index moves
(raft/replication.go, raft/raft.go, raft/read.go, raft/snapshot.go). */
module Broadcasts {
  import opened Configurations
  import opened RaftTypes
  import opened RaftNode
  import opened History
  import opened Invariant
  import opened StepSending
  import opened Steady
  import opened Clusters
  import opened Runs
  import opened Tenure
  import opened Timeouts
  import opened Confirmation

  // ---------------------------------------------------------------------------
  // The next message for a peer
  // ---------------------------------------------------------------------------

  predicate Tracked(n: Node, v: NodeID) { v in n.progress && n.progress[v].next <= |n.log| + 1 }

  /** Whatever has been compacted away is in the snapshot. */
  predicate Ready(n: Node) { n.floor <= |n.log| && (n.floor > 0 ==> n.snap.lastIndex > 0) }

  /** The entries from a peer's next one on, as many as there are and as one message may carry. */
  function EntriesFor(n: Node, v: NodeID, readId: nat): Message
    requires Tracked(n, v)
  {
    var lo := n.progress[v].next - 1;
    var most := if |n.log| - lo < n.cfg.maxEntries then |n.log| - lo else n.cfg.maxEntries;
    AppendReq(n.id, v, n.term, lo, TermAt(n.log, lo), n.log[lo..lo + most], n.committed, readId)
  }

  /** What a peer needs next: the snapshot, if the entry before its next one has been compacted away, and otherwise
      entries. A peer that has nothing cannot be sent the first entry once it is compacted. */
  function NextMessage(n: Node, v: NodeID, readId: nat): Option<Message>
    requires Tracked(n, v)
  {
    var lo := n.progress[v].next - 1;
    if 0 < lo < n.floor then Some(SnapReq(n.id, v, n.term, n.snap))
    else if lo == 0 < n.floor then None
    else Some(EntriesFor(n, v, readId))
  }

  /** Nothing new is on its way to this peer, and nothing is known of it that was not. */
  ghost predicate Spared(n: Node, v: NodeID, r: Node) {
    && n.msgs <= r.msgs && (forall i :: |n.msgs| <= i < |r.msgs| ==> r.msgs[i].to != v)
    && v in n.progress && v in r.progress && r.progress[v] == n.progress[v]
  }

  /** The peer has been sent what it needs next, unless it is still to confirm a snapshot. */
  ghost predicate Served(n: Node, v: NodeID, readId: nat, r: Node)
    requires Tracked(n, v)
  {
    if n.progress[v].pendingSnapshot != 0 then Spared(n, v, r)
    else
      && n.msgs <= r.msgs && v in r.progress
      && match NextMessage(n, v, readId)
         case None => r.progress[v] == n.progress[v]
         case Some(m) =>
           && m in r.msgs
           && r.progress[v] == if m.AppendReq? then n.progress[v]
                               else n.progress[v].(pendingSnapshot := n.snap.lastIndex, snapshotTicks := 0)
  }

  lemma ServesOne(n: Node, v: NodeID, readId: nat)
    requires Ready(n) && Tracked(n, v)
    ensures Served(n, v, readId, SendAppend(n, v, readId))
  {
    var r := SendAppend(n, v, readId);
    if n.progress[v].pendingSnapshot == 0 && NextMessage(n, v, readId).Some? {
      assert r.msgs == n.msgs + [NextMessage(n, v, readId).value];
      assert r.msgs[|n.msgs|] == NextMessage(n, v, readId).value;
    }
  }

  lemma SparedThen(n: Node, v: NodeID, q: Node, r: Node)
    requires Spared(n, v, q) && Spared(q, v, r)
    ensures Spared(n, v, r)
  {}

  lemma ServedThen(n: Node, v: NodeID, readId: nat, q: Node, r: Node)
    requires Tracked(n, v) && Served(n, v, readId, q) && Spared(q, v, r)
    ensures Served(n, v, readId, r)
  {
    hide NextMessage;
    if n.progress[v].pendingSnapshot != 0 { SparedThen(n, v, q, r); }
  }

  lemma SparedServed(n: Node, v: NodeID, readId: nat, q: Node, r: Node)
    requires Tracked(n, v) && Spared(n, v, q) && q == n.(msgs := q.msgs, progress := q.progress)
    requires Tracked(q, v) && Served(q, v, readId, r)
    ensures Served(n, v, readId, r)
  {
    assert NextMessage(q, v, readId) == NextMessage(n, v, readId);
    if n.progress[v].pendingSnapshot != 0 { SparedThen(n, v, q, r); }
  }

  lemma OtherSpared(n: Node, to: NodeID, v: NodeID, readId: nat)
    requires v in n.progress && v != to
    ensures Spared(n, v, SendAppend(n, to, readId))
  {}

  /** Sending to a list of peers serves each of them and nobody else. */
  lemma {:induction false} ServesAll(n: Node, peers: seq<NodeID>, readId: nat, v: NodeID)
    requires Ready(n) && Sorted(peers) && Tracked(n, v)
    ensures var r := SendAll(n, peers, readId); if v in peers then Served(n, v, readId, r) else Spared(n, v, r)
    decreases |peers|
  {
    if peers != [] {
      hide SendAppend, NextMessage, Served, Spared;
      var p, q := peers[0], SendAppend(n, peers[0], readId);
      if p == v { ServesOne(n, v, readId); } else { OtherSpared(n, p, v, readId); }
      StillTracked(n, q, v, readId);
      ServesAll(q, peers[1..], readId, v);
      var r := SendAll(q, peers[1..], readId);
      assert v in peers <==> v == p || v in peers[1..];
      if v == p {
        ServedThen(n, v, readId, q, r);
      } else if v in peers {
        SparedServed(n, v, readId, q, r);
      } else {
        SparedThen(n, v, q, r);
      }
    }
  }

  lemma StillTracked(n: Node, q: Node, v: NodeID, readId: nat)
    requires Tracked(n, v) && (Served(n, v, readId, q) || Spared(n, v, q)) && |n.log| <= |q.log|
    ensures Tracked(q, v) && q.progress[v].next == n.progress[v].next
  {
    hide NextMessage;
  }

  // ---------------------------------------------------------------------------
  // Heartbeats
  // ---------------------------------------------------------------------------

  /** Is the peer still to be left alone with the snapshot it was sent? */
  predicate Digesting(n: Node, v: NodeID)
    requires v in n.progress
  {
    n.progress[v].pendingSnapshot != 0 && n.progress[v].snapshotTicks + 1 < n.cfg.retryHeartbeats
  }

  /** Everything a peer is owed at a heartbeat: nothing while it digests a snapshot, except that one more heartbeat is
      counted; otherwise its next message, and if that brings entries, the same once more for every read that waits. */
  ghost predicate Beaten(n: Node, v: NodeID, r: Node)
    requires Tracked(n, v)
  {
    && n.msgs <= r.msgs && v in r.progress
    && if Digesting(n, v) then
         && r.progress[v] == n.progress[v].(snapshotTicks := n.progress[v].snapshotTicks + 1)
         && forall i :: |n.msgs| <= i < |r.msgs| ==> r.msgs[i].to != v
       else
         match NextMessage(n, v, 0)
         case None => r.progress[v].pendingSnapshot == 0
         case Some(m) =>
           && m in r.msgs
           && (m.SnapReq? ==> r.progress[v].pendingSnapshot == n.snap.lastIndex && r.progress[v].snapshotTicks == 0)
           && (m.AppendReq? ==>
                 && r.progress[v].pendingSnapshot == 0
                 && forall i :: 0 <= i < |n.pendingReads| ==> EntriesFor(n, v, n.pendingReads[i].id) in r.msgs)
  }

  /** Free to take entries, and near enough to the leader's log to need them. */
  predicate TakesEntries(n: Node, v: NodeID)
    requires Tracked(n, v)
  {
    n.progress[v].pendingSnapshot == 0 && n.floor < n.progress[v].next
  }

  lemma ServedEntries(n: Node, v: NodeID, readId: nat, r: Node)
    requires Tracked(n, v) && TakesEntries(n, v) && Served(n, v, readId, r)
    ensures EntriesFor(n, v, readId) in r.msgs && v in r.progress && r.progress[v] == n.progress[v] && n.msgs <= r.msgs
  {
    hide EntriesFor;
    assert NextMessage(n, v, readId) == Some(EntriesFor(n, v, readId));
    EntriesBringEntries(n, v, readId);
  }

  lemma EntriesBringEntries(n: Node, v: NodeID, readId: nat)
    requires Tracked(n, v)
    ensures EntriesFor(n, v, readId).AppendReq?
  {}

  lemma {:induction false} RetriesServe(n: Node, waiting: seq<ReadRequest>, v: NodeID)
    requires Ready(n) && Tracked(n, v) && TakesEntries(n, v) && v in Peers(n.conf, n.id)
    ensures var r := RetryReads(n, waiting);
            && n.msgs <= r.msgs && v in r.progress && r.progress[v] == n.progress[v]
            && forall i :: 0 <= i < |waiting| ==> EntriesFor(n, v, waiting[i].id) in r.msgs
    decreases |waiting|
  {
    if waiting != [] {
      hide SendAll, Peers, Served, EntriesFor;
      var peers, id := Peers(n.conf, n.id), waiting[0].id;
      ServesAll(n, peers, id, v);
      var q := SendAll(n, peers, id);
      ServedEntries(n, v, id, q);
      RetriesServe(q, waiting[1..], v);
      var r := RetryReads(q, waiting[1..]);
      forall i | 0 <= i < |waiting| ensures EntriesFor(n, v, waiting[i].id) in r.msgs {
        SameEntries(n, q, v, waiting[i].id);
        if i > 0 { assert waiting[i] == waiting[1..][i - 1]; }
      }
    }
  }

  lemma SameEntries(n: Node, q: Node, v: NodeID, readId: nat)
    requires Tracked(n, v) && Tracked(q, v) && q.progress[v] == n.progress[v]
    requires q == n.(msgs := q.msgs, progress := q.progress)
    ensures EntriesFor(q, v, readId) == EntriesFor(n, v, readId)
  {}

  lemma {:induction false} RetriesSpare(n: Node, waiting: seq<ReadRequest>, v: NodeID)
    requires Ready(n) && Tracked(n, v) && n.progress[v].pendingSnapshot != 0 && v in Peers(n.conf, n.id)
    ensures Spared(n, v, RetryReads(n, waiting))
    decreases |waiting|
  {
    if waiting != [] {
      hide SendAll, Peers;
      var peers, id := Peers(n.conf, n.id), waiting[0].id;
      ServesAll(n, peers, id, v);
      var q := SendAll(n, peers, id);
      RetriesSpare(q, waiting[1..], v);
      SparedThen(n, v, q, RetryReads(q, waiting[1..]));
    }
  }

  lemma {:induction false} RetriesIdle(n: Node, waiting: seq<ReadRequest>, v: NodeID)
    requires Ready(n) && Tracked(n, v) && n.progress[v].pendingSnapshot == 0 && n.progress[v].next == 1 && n.floor > 0
    requires v in Peers(n.conf, n.id)
    ensures var r := RetryReads(n, waiting); n.msgs <= r.msgs && v in r.progress && r.progress[v] == n.progress[v]
    decreases |waiting|
  {
    if waiting != [] {
      hide SendAll, Peers;
      var peers, id := Peers(n.conf, n.id), waiting[0].id;
      ServesAll(n, peers, id, v);
      RetriesIdle(SendAll(n, peers, id), waiting[1..], v);
    }
  }

  /** A broadcast and the retries of every waiting read. */
  ghost predicate ServedTwice(n: Node, v: NodeID, r: Node)
    requires Tracked(n, v)
  {
    if n.progress[v].pendingSnapshot != 0 then Spared(n, v, r)
    else
      && n.msgs <= r.msgs && v in r.progress
      && match NextMessage(n, v, 0)
         case None => r.progress[v] == n.progress[v]
         case Some(m) =>
           && m in r.msgs
           && (m.SnapReq? ==> r.progress[v] == n.progress[v].(pendingSnapshot := n.snap.lastIndex, snapshotTicks := 0))
           && (m.AppendReq? ==>
                 && r.progress[v] == n.progress[v]
                 && forall i :: 0 <= i < |n.pendingReads| ==> EntriesFor(n, v, n.pendingReads[i].id) in r.msgs)
  }

  lemma BroadcastAndRetry(n: Node, v: NodeID)
    requires Ready(n) && Tracked(n, v) && v in Peers(n.conf, n.id) && n.floor <= n.snap.lastIndex
    ensures var q := BroadcastAppend(n); ServedTwice(n, v, RetryReads(q, q.pendingReads))
  {
    hide SendAll, RetryReads, Peers, EntriesFor;
    ServesAll(n, Peers(n.conf, n.id), 0, v);
    var q := BroadcastAppend(n);
    var r := RetryReads(q, q.pendingReads);
    EntriesBringEntries(n, v, 0);
    if n.progress[v].pendingSnapshot != 0 {
      RetriesSpare(q, q.pendingReads, v);
      SparedThen(n, v, q, r);
    } else if TakesEntries(n, v) {
      ServedEntries(n, v, 0, q);
      RetriesServe(q, q.pendingReads, v);
      forall i | 0 <= i < |n.pendingReads| ensures EntriesFor(n, v, n.pendingReads[i].id) in r.msgs {
        SameEntries(n, q, v, n.pendingReads[i].id);
      }
    } else if n.progress[v].next == 1 {
      RetriesIdle(q, q.pendingReads, v);
    } else {
      RetriesSpare(q, q.pendingReads, v);
    }
  }

  lemma Expired(n: Node, v: NodeID)
    requires Ready(n) && Tracked(n, v) && v in Peers(n.conf, n.id)
    ensures var q := ExpirePendingSnapshots(n);
            && Ready(q) && Tracked(q, v) && q == n.(progress := q.progress)
            && q.progress[v] == (if Digesting(n, v)
                                 then n.progress[v].(snapshotTicks := n.progress[v].snapshotTicks + 1)
                                 else if n.progress[v].pendingSnapshot == 0 then n.progress[v]
                                 else n.progress[v].(pendingSnapshot := 0, snapshotTicks := 0))
  {
    hide Members;
  }

  lemma BeatServes(n: Node, v: NodeID)
    requires Ready(n) && Tracked(n, v) && v in Peers(n.conf, n.id) && n.floor <= n.snap.lastIndex
    ensures var q := BroadcastAppend(ExpirePendingSnapshots(n)); Beaten(n, v, RetryReads(q, q.pendingReads))
  {
    hide SendAll, RetryReads, Peers, EntriesFor, ExpirePendingSnapshots;
    Expired(n, v);
    var x := ExpirePendingSnapshots(n);
    BroadcastAndRetry(x, v);
    SameNext(n, x, v, 0);
    forall i | 0 <= i < |n.pendingReads|
      ensures EntriesFor(x, v, n.pendingReads[i].id) == EntriesFor(n, v, n.pendingReads[i].id)
    {
      SameNext(n, x, v, n.pendingReads[i].id);
    }
    EntriesBringEntries(n, v, 0);
  }

  lemma SameNext(n: Node, q: Node, v: NodeID, readId: nat)
    requires Tracked(n, v) && Tracked(q, v) && q.progress[v].next == n.progress[v].next
    requires q == n.(msgs := q.msgs, progress := q.progress)
    ensures EntriesFor(q, v, readId) == EntriesFor(n, v, readId)
    ensures NextMessage(q, v, readId) == NextMessage(n, v, readId)
  {}

  /** What a tick makes of a leader: later timers, and at every heartbeat word for every peer. */
  ghost predicate BeatTo(n: Node, r: Node) {
    var beat := n.heartbeatElapsed + 1 >= n.cfg.heartbeatTick;
    && r == n.(electionElapsed := n.electionElapsed + 1, heartbeatElapsed := if beat then 0 else n.heartbeatElapsed + 1,
               msgs := r.msgs, progress := r.progress)
    && (!beat ==> r.msgs == n.msgs && r.progress == n.progress)
    && (beat ==> forall v :: Tracked(n, v) && v in Peers(n.conf, n.id) ==> Beaten(n, v, r))
  }

  lemma LeaderTick(n: Node)
    requires Sized(n) && n.role == Leader && Ready(n) && n.floor <= n.snap.lastIndex
    ensures BeatTo(n, Tick(n))
  {
    hide SendAll, RetryReads, Peers, EntriesFor, Beaten, ExpireProgress;
    var s := n.(heartbeatElapsed := 0, electionElapsed := n.electionElapsed + 1);
    if n.heartbeatElapsed + 1 >= n.cfg.heartbeatTick {
      forall v | Tracked(n, v) && v in Peers(n.conf, n.id) ensures Beaten(n, v, Tick(n)) {
        BeatServes(s, v);
        SameBeat(n, s, v, Tick(n));
      }
    }
  }

  lemma SameBeat(n: Node, s: Node, v: NodeID, r: Node)
    requires s == n.(heartbeatElapsed := s.heartbeatElapsed, electionElapsed := s.electionElapsed)
    requires Tracked(n, v) && Tracked(s, v) && Beaten(s, v, r)
    ensures Beaten(n, v, r)
  {
    hide EntriesFor;
    assert EntriesFor(n, v, 0) == EntriesFor(s, v, 0) by { SameBatch(n, s, v, 0); }
    forall i | 0 <= i < |n.pendingReads|
      ensures EntriesFor(n, v, n.pendingReads[i].id) == EntriesFor(s, v, n.pendingReads[i].id)
    {
      SameBatch(n, s, v, n.pendingReads[i].id);
    }
  }

  lemma SameBatch(n: Node, s: Node, v: NodeID, readId: nat)
    requires s == n.(heartbeatElapsed := s.heartbeatElapsed, electionElapsed := s.electionElapsed)
    requires Tracked(n, v) && Tracked(s, v)
    ensures EntriesFor(n, v, readId) == EntriesFor(s, v, readId)
  {}

  // ---------------------------------------------------------------------------
  // Whole runs
  // ---------------------------------------------------------------------------

  lemma AlwaysReady(boot: Configuration, r: Run, k: nat, a: NodeID)
    requires IsRun(boot, r) && At(r, k, a)
    ensures var n := NodeAt(r, k, a); Ready(n) && n.floor <= n.snap.lastIndex <= n.committed && n.id == a
  {
    hide IsRun, Later, OK, AppOK, ClusterOK, LogPart, VotePart, CandPart, AckPart, Settled, ConfPart, ReadPart;
    hide MsgsPart;
    var h, g := Moments(boot, r, k, a, k, a);
    Unpack(h, NodeAt(r, k, a));
  }

  /** In every run, a tick of a leader moves its timers; and at every heartbeat each peer is sent its next message, and
      that message again for every read that waits, unless it is still digesting a snapshot. A snapshot is given up for
      lost after so many heartbeats, and the peer is then served like any other. */
  lemma HeartbeatsReachEveryone(boot: Configuration, r: Run, k: nat, a: NodeID)
    requires IsRun(boot, r) && |r.states| == |r.who| + 1 == |r.what| + 1 && k < |r.who| && At(r, k, a)
    requires r.who[k] == a && r.what[k] == Ticks && NodeAt(r, k, a).role == Leader
    ensures At(r, k + 1, a) && BeatTo(NodeAt(r, k, a), NodeAt(r, k + 1, a))
  {
    hide Tick, BeatTo, IsRun;
    Ticked(boot, r, k, a);
    AlwaysReady(boot, r, k, a);
    LeaderTick(NodeAt(r, k, a));
  }

  /** A read that one node cannot confirm alone is put to every peer at once. */
  lemma ReadsReachEveryone(boot: Configuration, r: Run, i: nat, a: NodeID, v: NodeID)
    requires IsRun(boot, r) && AsksAt(r, i, a) && !Quorum(NodeAt(r, i, a).conf, {a})
    requires Tracked(NodeAt(r, i, a), v) && v in Peers(NodeAt(r, i, a).conf, a)
    ensures At(r, i + 1, a) && Served(NodeAt(r, i, a), v, NumberAt(r, i, a), NodeAt(r, i + 1, a))
  {
    hide ReadIndex, Peers, Quorum, Init, Served;
    AlwaysReady(boot, r, i, a);
    assert StepAt(r, i);
    AskServes(NodeAt(r, i, a), NumberAt(r, i, a), v);
  }

  lemma AskServes(n: Node, id: nat, v: NodeID)
    requires Serves(n) && n.floor <= n.committed && !Quorum(n.conf, {n.id}) && Ready(n)
    requires Tracked(n, v) && v in Peers(n.conf, n.id)
    ensures Served(n, v, id, ReadIndex(n, id))
  {
    hide SendAll, Peers, Quorum, EntriesFor;
    var q := n.(pendingReads := n.pendingReads + [ReadRequest(id, n.committed, {n.id})]);
    ServesAll(q, Peers(q.conf, q.id), id, v);
    SameForReads(n, q, v, id);
    assert ReadIndexError(n).None?;
    assert ReadIndex(n, id) == SendAll(q, Peers(q.conf, q.id), id);
  }

  lemma SameForReads(n: Node, q: Node, v: NodeID, readId: nat)
    requires Tracked(n, v) && Tracked(q, v) && q == n.(pendingReads := q.pendingReads)
    ensures EntriesFor(q, v, readId) == EntriesFor(n, v, readId)
  {}

  /** A leader that has just moved its commit index has told everyone whom it is not sending a snapshot. */
  ghost predicate Announced(r: Node) {
    forall v :: Tracked(r, v) && v in Peers(r.conf, r.id) && TakesEntries(r, v) ==> EntriesFor(r, v, 0) in r.msgs
  }

  lemma BroadcastAnnounces(n: Node)
    requires Ready(n)
    ensures Announced(BroadcastAppend(n))
  {
    hide SendAll, Peers, EntriesFor;
    var r := BroadcastAppend(n);
    forall v | Tracked(r, v) && v in Peers(r.conf, r.id) && TakesEntries(r, v) ensures EntriesFor(r, v, 0) in r.msgs {
      NextStays(n, Peers(n.conf, n.id), 0, v);
      ServesAll(n, Peers(n.conf, n.id), 0, v);
      EntriesBringEntries(n, v, 0);
      SameNext(n, r, v, 0);
    }
  }

  lemma {:induction false} NextStays(n: Node, peers: seq<NodeID>, readId: nat, v: NodeID)
    ensures var r := SendAll(n, peers, readId);
            v in r.progress ==> v in n.progress && r.progress[v].next == n.progress[v].next
    decreases |peers|
  {
    if peers != [] { NextStays(SendAppend(n, peers[0], readId), peers[1..], readId, v); }
  }

  lemma MatchAnnounced(n: Node, from: NodeID, i: Index)
    requires Sized(n) && from in n.progress && RecordMatch(n, from, i).committed > n.committed
    requires Ready(RecordMatch(n, from, i)) && !RecordMatch(n, from, i).fault
    ensures Announced(RecordMatch(n, from, i))
  {
    hide MaybeAdvanceCommit, SendAll, SendAppend, Announced;
    BroadcastAnnounces(MaybeAdvanceCommit(WithMatch(n, from, i)));
  }

  lemma ResponseAnnounced(n: Node, m: Message)
    requires Sized(n) && (m.AppendResp? || m.SnapResp?) && Dispatch(n, m).committed > n.committed
    requires Ready(Dispatch(n, m)) && !Dispatch(n, m).fault
    ensures Announced(Dispatch(n, m))
  {
    hide RecordMatch, SendAppend, BackUp, AckRead, Announced;
    if m.AppendResp? { AckReadIds(n, m.from, m.readId); }
    if n.role == Leader && m.from in n.progress && m.success {
      if m.AppendResp? {
        var q := if m.readId != 0 then AckRead(n, m.from, m.readId) else n;
        MatchAnnounced(q, m.from, m.matchIndex);
      } else {
        var pr := n.progress[m.from].(pendingSnapshot := 0, snapshotTicks := 0);
        MatchAnnounced(n.(progress := n.progress[m.from := pr]), m.from, m.matchIndex);
      }
    }
  }

  /** In every run, when an answer moves a leader's commit index, everyone whom it is not sending a snapshot is sent a
      message that says so. */
  lemma CommitsAreAnnounced(boot: Configuration, r: Run, k: nat, a: NodeID)
    requires IsRun(boot, r) && |r.states| == |r.who| + 1 == |r.what| + 1
    requires k < |r.who| && At(r, k, a) && At(r, k + 1, a)
    requires r.who[k] == a && r.what[k].Receives? && (r.what[k].m.AppendResp? || r.what[k].m.SnapResp?)
    requires NodeAt(r, k, a).role == Leader && NodeAt(r, k + 1, a).role == Leader
    requires NodeAt(r, k + 1, a).committed > NodeAt(r, k, a).committed
    ensures Announced(NodeAt(r, k + 1, a))
  {
    hide Init, Dispatch, Announced;
    AlwaysReady(boot, r, k + 1, a);
    InOrder(boot, r, k, a);
    InOrder(boot, r, k + 1, a);
    assert StepAt(r, k);
    var n, m := NodeAt(r, k, a), r.what[k].m;
    assert NodeAt(r, k + 1, a) == Step(n, m);
    if m.term == n.term {
      ResponseAnnounced(n, m);
    } else if m.term > n.term {
      StepLead(n, m);
      NotStillLeading(n, m);
    }
  }

  lemma NotStillLeading(n: Node, m: Message)
    requires Sized(n) && !n.fault && n.hard.term == n.term && m.term > n.term && (m.AppendResp? || m.SnapResp?)
    requires m.to == n.id
    ensures Step(n, m).role == Follower
  {
    hide Dispatch;
    FollowerStays(StepHigherTerm(n, m), m);
  }

  /** A proposal, whether of a command or of a configuration, leaves nobody out either. */
  lemma ProposeAnnounces(n: Node, p: Payload)
    requires Sized(n) && n.role == Leader && !Propose(n, p).fault && Ready(Propose(n, p))
    ensures Announced(Propose(n, p))
  {
    hide MaybeAdvanceCommit, AppendOwn, SendAll, Announced;
    OwnLog(n, p);
    BroadcastAnnounces(MaybeAdvanceCommit(AppendOwn(n, p)));
  }

  /** In every run, what is written to a leader goes out at once to everyone whom it is not sending a snapshot. */
  lemma WritesReachEveryone(boot: Configuration, r: Run, k: nat, a: NodeID)
    requires IsRun(boot, r) && |r.states| == |r.who| + 1 == |r.what| + 1 && k < |r.who| && At(r, k, a)
    requires r.who[k] == a && r.what[k].Writes? && NodeAt(r, k, a).role == Leader
    ensures At(r, k + 1, a) && Announced(NodeAt(r, k + 1, a))
  {
    hide Init, Propose, Announced;
    assert StepAt(r, k);
    AlwaysReady(boot, r, k + 1, a);
    InOrder(boot, r, k, a);
    InOrder(boot, r, k + 1, a);
    ProposeAnnounces(NodeAt(r, k, a), Command(r.what[k].bytes));
  }

  lemma CommitsOrStays(n: Node)
    requires Sized(n)
    ensures var r := MaybeAdvanceCommit(n); r.fault || r == n || r.committed > n.committed
  {
    hide MaybeLeaveJoint, CommittedIndex, Matched, Onward;
    var q := Persist(CommitTo(n, CommittedIndex(n.conf, Matched(n))));
    if n.role == Leader && !q.fault {
      MaybeLeaveJointOnward(q);
      OnwardCommit(q, MaybeLeaveJoint(q));
    }
  }

  lemma OnwardCommit(n: Node, r: Node)
    requires Onward(n, r)
    ensures n.committed <= r.committed
  {}

  lemma MatchFeeds(n: Node, from: NodeID, i: Index)
    requires Sized(n) && from in n.progress
    requires var r := RecordMatch(n, from, i);
             && !r.fault && Ready(r) && r.committed == n.committed
             && Tracked(r, from) && TakesEntries(r, from) && r.progress[from].next <= |r.log|
    ensures EntriesFor(RecordMatch(n, from, i), from, 0) in RecordMatch(n, from, i).msgs
  {
    hide MaybeAdvanceCommit, SendAppend, SendAll, EntriesFor;
    var q := if i > n.progress[from].matched then WithMatch(n, from, i) else n;
    CommitsOrStays(q);
    NextStays(MaybeAdvanceCommit(q), Peers(MaybeAdvanceCommit(q).conf, q.id), 0, from);
    FedOne(q, from);
  }

  lemma FedOne(n: Node, from: NodeID)
    requires var r := SendAppend(n, from, 0); Ready(r) && Tracked(r, from) && TakesEntries(r, from)
    requires from in n.progress
    ensures EntriesFor(SendAppend(n, from, 0), from, 0) in SendAppend(n, from, 0).msgs
  {
    var r := SendAppend(n, from, 0);
    assert r.progress[from].next == n.progress[from].next;
    ServesOne(n, from, 0);
  }

  /** Is this a report of success, in the leader's term and from a peer it keeps track of? */
  predicate IsReport(n: Node, m: Message) {
    && ((m.AppendResp? && m.success) || (m.SnapResp? && m.success))
    && m.term == n.term && m.from in n.progress
  }

  lemma ResponseFeeds(n: Node, m: Message)
    requires Sized(n) && n.role == Leader && IsReport(n, m)
    requires var r := Dispatch(n, m);
             && !r.fault && Ready(r) && r.committed == n.committed
             && Tracked(r, m.from) && TakesEntries(r, m.from) && r.progress[m.from].next <= |r.log|
    ensures EntriesFor(Dispatch(n, m), m.from, 0) in Dispatch(n, m).msgs
  {
    hide RecordMatch, SendAppend, BackUp, AckRead, EntriesFor, Ready;
    if m.AppendResp? {
      AckReadIds(n, m.from, m.readId);
      MatchFeeds(if m.readId != 0 then AckRead(n, m.from, m.readId) else n, m.from, m.matchIndex);
    } else {
      var pr := n.progress[m.from].(pendingSnapshot := 0, snapshotTicks := 0);
      MatchFeeds(n.(progress := n.progress[m.from := pr]), m.from, m.matchIndex);
    }
  }

  /** In every run, a peer that reports success without moving the leader's commit index is sent what it still lacks. */
  lemma FollowersAreFed(boot: Configuration, r: Run, k: nat, a: NodeID)
    requires IsRun(boot, r) && |r.states| == |r.who| + 1 == |r.what| + 1
    requires k < |r.who| && At(r, k, a) && At(r, k + 1, a)
    requires r.who[k] == a && NodeAt(r, k, a).role == Leader
    requires r.what[k].Receives? && IsReport(NodeAt(r, k, a), r.what[k].m)
    requires var n, n', v := NodeAt(r, k, a), NodeAt(r, k + 1, a), r.what[k].m.from;
             && n'.committed == n.committed
             && Tracked(n', v) && TakesEntries(n', v) && n'.progress[v].next <= |n'.log|
    ensures EntriesFor(NodeAt(r, k + 1, a), r.what[k].m.from, 0) in NodeAt(r, k + 1, a).msgs
  {
    hide Init, Dispatch, EntriesFor;
    AlwaysReady(boot, r, k + 1, a);
    InOrder(boot, r, k, a);
    InOrder(boot, r, k + 1, a);
    assert StepAt(r, k);
    ResponseFeeds(NodeAt(r, k, a), r.what[k].m);
  }
}
