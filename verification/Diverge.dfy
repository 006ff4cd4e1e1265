/** What becomes of safety without the guard on snapshots. A leader that takes a snapshot while a configuration entry is
still uncommitted stamps it with that configuration. If the entry is then overwritten, the stamp is what a rescan finds:
the node counts quorums by a configuration nobody agreed to. The run below ends with two different entries committed at
one index. Every step of it is one the code takes; the only thing it lacks is the guard. */
module Diverge {
  import opened Configurations
  import opened RaftTypes
  import opened RaftNode
  import opened Steady
  import opened StepSnapshot
  import opened Crashing
  import opened Clusters
  import opened Runs
  import opened Extending

  // ---------------------------------------------------------------------------
  // Runs without the guard
  // ---------------------------------------------------------------------------

  /** As `Enabled`, but a snapshot may be taken whatever the configuration in force. */
  ghost predicate FreeEnabled(c: Cluster, id: NodeID, e: Event) {
    && id in c.members
    && var n := c.members[id].node;
       && Sized(n) && n.committed <= |n.log|
       && match e
          case Receives(m) => m in c.net && m.to == id && (m.SnapReq? && m.term >= n.term ==> CleanInstall(n, m.snap))
          case Campaigns => n.role != Leader
          case Applies(_) => n.toRestore.None?
          case Compacts => n.toRestore.None?
          case Crashes(disk) => CrashPoint(c.net, n, c.members[id].app, disk)
          case _ => true
  }

  ghost predicate FreeNext(c: Cluster, id: NodeID, e: Event, c': Cluster) {
    && FreeEnabled(c, id, e)
    && c'.members == c.members[id := After(c.members[id], e)]
    && c'.net == if e.Sends? then c.net + (set m | m in c.members[id].node.msgs) else c.net
  }

  ghost predicate IsFreeRun(boot: Configuration, r: Run) {
    && |r.states| == |r.who| + 1 == |r.what| + 1
    && Init(boot, r.states[0])
    && forall i {:trigger r.what[i]} :: 0 <= i < |r.who| ==> FreeNext(r.states[i], r.who[i], r.what[i], r.states[i + 1])
  }

  // ---------------------------------------------------------------------------
  // Configurations and entries
  // ---------------------------------------------------------------------------

  const THREE := Configuration([1, 2, 3], [], [])

  const JOINT := Configuration([1], [1, 2, 3], [])

  const ALONE := Configuration([1], [], [])

  const A := Entry(1, 1, NoOp)

  /** Entered by the leader of term 1, and lost. */
  const B := Entry(2, 1, ConfEntry(ConfChange(EnterJointKind, JOINT)))

  const C := Entry(2, 2, NoOp)

  const D := Entry(3, 3, NoOp)

  const E := Entry(4, 3, ConfEntry(ConfChange(LeaveJointKind, ALONE)))

  const F := Entry(4, 4, NoOp)

  const STAMPED := Snapshot(1, 1, JOINT, [A])

  lemma Quorums()
    ensures Quorum(THREE, {1, 2}) && Quorum(THREE, {2, 3}) && !Quorum(THREE, {1}) && !Quorum(THREE, {2})
            && !Quorum(THREE, {})
    ensures Quorum(JOINT, {1, 2}) && !Quorum(JOINT, {1}) && !Quorum(JOINT, {}) && Quorum(ALONE, {1})
            && !Quorum(ALONE, {})
    ensures !Impossible(THREE, {}) && !Impossible(JOINT, {}) && Normal(THREE) && Normal(JOINT) && Normal(ALONE)
  {
    assert Count([1, 2, 3], {1, 2}) == 2 && Count([1, 2, 3], {2, 3}) == 2 && Count([1, 2, 3], {1}) == 1;
    assert Count([1, 2, 3], {2}) == 1 && Count([1, 2, 3], {}) == 0;
    assert Count([1], {1, 2}) == 1 && Count([1], {1}) == 1 && Count([1], {}) == 0;
  }

  lemma MembersAre()
    ensures Members(THREE) == [1, 2, 3] && Members(JOINT) == [1, 2, 3] && Members(ALONE) == [1] && Peers(ALONE, 1) == []
  {
    SortedDetermined(Members(THREE), [1, 2, 3]);
    SortedDetermined(Members(JOINT), [1, 2, 3]);
    SortedDetermined(Members(ALONE), [1]);
    SortedDetermined(Peers(ALONE, 1), []);
  }

  lemma Changes()
    ensures EnterJoint(THREE, ALONE) == Changed(ConfChange(EnterJointKind, JOINT))
    ensures LeaveJoint(JOINT) == Changed(ConfChange(LeaveJointKind, ALONE))
  {
    Quorums();
    NormalizeIdentity(JOINT);
    NormalizeIdentity(ALONE);
  }

  lemma CountsTo(c: Configuration, m: map<NodeID, Index>, i: Index)
    requires (i > 0 ==> Quorum(c, Reached(c, m, i))) && !Quorum(c, Reached(c, m, i + 1))
    ensures CommittedIndex(c, m) == i
  {
    hide CommittedIndex, Quorum, Reached;
    if i > 0 { CommittedIndexIsQuorum(c, m, i); }
    CommittedIndexIsQuorum(c, m, i + 1);
  }

  /** How far the three have got, as their leader knows it. */
  function Known(x: Progress, y: Progress, z: Progress): map<NodeID, Progress> { map[1 := x, 2 := y, 3 := z] }

  lemma ReachedBy(c: Configuration, m: map<NodeID, Index>, i: Index)
    requires m.Keys == {1, 2, 3} && (c == THREE || c == JOINT)
    ensures var one, two := if m[1] >= i then {1} else {}, if m[2] >= i then {2} else {};
            Reached(c, m, i) == one + two + if m[3] >= i then {3} else {}
  {}

  // ---------------------------------------------------------------------------
  // What there is to know about a node
  // ---------------------------------------------------------------------------

  predicate Fit(cfg: Settings) { cfg.boot == THREE && !cfg.preVote && cfg.maxEntries >= 4 && cfg.catchUp == 0 }

  datatype Core = Core(id: NodeID, term: Term, vote: NodeID, log: seq<Entry>, committed: Index, conf: Configuration,
                       confIndex: Index, floor: Index, snap: Snapshot, applied: Index)

  predicate Is(n: Node, c: Core) {
    && n.id == c.id && n.term == c.term && n.vote == c.vote && n.log == c.log && n.committed == c.committed
    && n.conf == c.conf && n.confIndex == c.confIndex && n.floor == c.floor && n.snap == c.snap
      && n.applied == c.applied
    && n.hard.term <= n.term && !n.fault && n.toRestore.None? && Fit(n.cfg)
  }

  predicate Sane(c: Core) { c.floor <= c.applied <= c.committed <= |c.log| && c.id != NONE }

  /** The node, once it has sent what it had to say. */
  function Sent(n: Node): Node { n.(msgs := []) }

  // ---------------------------------------------------------------------------
  // Campaigning
  // ---------------------------------------------------------------------------

  lemma {:induction false} AsksAll(n: Node, peers: seq<NodeID>, v: NodeID, t: Term)
    requires v in peers && n.conf.IsVoter(v)
    ensures VoteReq(n.id, v, t, false, |n.log|, LastTerm(n.log)) in SendVoteRequests(n, peers, t, false).msgs
    decreases |peers|
  {
    var n1 := if n.conf.IsVoter(peers[0])
              then Send(n, VoteReq(n.id, peers[0], t, false, |n.log|, LastTerm(n.log))) else n;
    if peers[0] == v {
      assert n1.msgs[|n.msgs|] == VoteReq(n.id, v, t, false, |n.log|, LastTerm(n.log));
      AskedStays(n1, peers[1..], t);
    } else {
      AsksAll(n1, peers[1..], v, t);
    }
  }

  lemma {:induction false} AskedStays(n: Node, peers: seq<NodeID>, t: Term)
    ensures n.msgs <= SendVoteRequests(n, peers, t, false).msgs
    decreases |peers|
  {
    if peers != [] {
      var n1 := if n.conf.IsVoter(peers[0])
                then Send(n, VoteReq(n.id, peers[0], t, false, |n.log|, LastTerm(n.log))) else n;
      AskedStays(n1, peers[1..], t);
    }
  }

  lemma Stands(n: Node, c: Core, v: NodeID)
    requires Is(n, c) && Sane(c) && n.role != Leader && (c.conf == THREE || c.conf == JOINT)
    requires (c.id == 1 || (c.id == 2 && c.conf == THREE)) && v in {1, 2, 3} && v != c.id
    ensures var r := Campaign(n, false);
            && Is(r, c.(term := c.term + 1, vote := c.id)) && r.role == Candidate && r.votes == map[c.id := true]
            && VoteReq(c.id, v, c.term + 1, false, |c.log|, LastTerm(c.log)) in r.msgs
  {
    hide Quorum, Impossible, TallyVotes, SendVoteRequests, Peers, Members;
    Quorums();
    var s := RecordVote(Stand(n, false), c.id, true);
    assert Is(s, c.(term := c.term + 1, vote := c.id)) && s.role == Candidate && s.votes == map[c.id := true];
    assert Granted(s) == {c.id} && Rejected(s) == {};
    AsksAll(s, Peers(s.conf, s.id), v, c.term + 1);
    assert Canvass(s, false) == SendVoteRequests(s, Peers(s.conf, s.id), c.term + 1, false);
  }

  lemma Grants(n: Node, c: Core, m: Message)
    requires Is(n, c) && Sane(c) && m.VoteReq? && !m.preVote && m.to == c.id && m.term > c.term
    requires UpToDate(m.lastIndex, m.lastTerm, c.log)
    ensures var r := Step(n, m);
            && Is(r, c.(term := m.term, vote := m.from)) && r.role == Follower
            && VoteResp(c.id, m.from, m.term, false, true) in r.msgs
  {
    hide UpToDate;
    var n1 := StepHigherTerm(n, m);
    assert n1.role == Follower && n1.vote == NONE && n1.lead == NONE && n1.term == m.term && !n1.fault;
    var r := HandleVoteRequest(n1, m);
    assert r.msgs[|r.msgs| - 1] == VoteResp(c.id, m.from, m.term, false, true);
  }

  // ---------------------------------------------------------------------------
  // Leading
  // ---------------------------------------------------------------------------

  /** What a leader sends a follower it tracks. */
  predicate Feeding(n: Node, w: NodeID, m: Message) {
    && w in n.progress && n.progress[w].pendingSnapshot == 0
    && var lo := n.progress[w].next - 1;
       && TermOf(n, lo).Some? && !(lo < |n.log| && lo < n.floor)
       && m == AppendReq(n.id, w, n.term, lo, TermAt(n.log, lo), n.log[lo..BatchEnd(n, lo)], n.committed, 0)
  }

  lemma {:induction false} FeedsAll(n: Node, peers: seq<NodeID>, w: NodeID, m: Message)
    requires w in peers && Feeding(n, w, m)
    ensures m in SendAll(n, peers, 0).msgs
    decreases |peers|
  {
    hide SendAppend, Feeding;
    var n1 := SendAppend(n, peers[0], 0);
    if peers[0] == w {
      FedNow(n, w, m);
      assert n1.msgs[|n.msgs|] == m;
      FedStays(n1, peers[1..]);
    } else {
      FedNext(n, peers[0], w, m);
      FeedsAll(n1, peers[1..], w, m);
    }
  }

  lemma FedNow(n: Node, w: NodeID, m: Message)
    requires Feeding(n, w, m)
    ensures SendAppend(n, w, 0) == Send(n, m)
  {}

  lemma FedNext(n: Node, to: NodeID, w: NodeID, m: Message)
    requires Feeding(n, w, m) && to != w
    ensures Feeding(SendAppend(n, to, 0), w, m)
  {
    hide SendAppend;
    OthersStay(n, to, w);
  }

  lemma OthersStay(n: Node, to: NodeID, w: NodeID)
    requires w in n.progress && to != w
    ensures var r := SendAppend(n, to, 0);
            r == n.(msgs := r.msgs, progress := r.progress) && w in r.progress && r.progress[w] == n.progress[w]
  {
    hide TermOf, BatchEnd;
  }

  lemma {:induction false} FedStays(n: Node, peers: seq<NodeID>)
    ensures n.msgs <= SendAll(n, peers, 0).msgs
    decreases |peers|
  {
    if peers != [] { FedStays(SendAppend(n, peers[0], 0), peers[1..]); }
  }

  lemma TellsAll(n: Node, w: NodeID, m: Message)
    requires (n.conf == THREE || n.conf == JOINT) && w in {1, 2, 3} && w != n.id && Feeding(n, w, m)
    ensures m in BroadcastAppend(n).msgs
  {
    hide SendAll;
    FeedsAll(n, Peers(n.conf, n.id), w, m);
  }

  /** A new leader's table: everyone else is tried from the end. */
  function Table(id: NodeID, last: Index): map<NodeID, Progress> {
    Known(Progress(0, last + 1, 0, 0), Progress(0, last + 1, 0, 0),
      Progress(0, last + 1, 0, 0))[id := Progress(last + 1, last + 2, 0, 0)]
  }

  lemma CrownedIs(n: Node, c: Core)
    requires Is(n, c) && n.role == Candidate && c.id in {1, 2} && (c.conf == THREE || c.conf == JOINT)
    ensures var r, last := Crowned(n), |c.log|;
            && Is(r, c.(log := c.log + [Entry(last + 1, c.term, NoOp)])) && r.role == Leader && r.msgs == n.msgs
            && r.progress == Table(c.id, last)
  {
    hide Members, Table;
    CrownedTable(n);
  }

  lemma CrownedTable(n: Node)
    requires n.id in {1, 2} && (n.conf == THREE || n.conf == JOINT)
    ensures Crowned(n).progress == Table(n.id, |n.log|)
  {
    hide Crowned, Members;
    CrownedEach(n);
  }

  lemma CrownedEach(n: Node)
    requires n.id in {1, 2} && (n.conf == THREE || n.conf == JOINT)
    ensures var p, last := Crowned(n).progress, |n.log|;
            && p.Keys == {1, 2, 3}
            && forall x :: x in p ==>
              p[x] == if x == n.id then Progress(last + 1, last + 2, 0, 0) else Progress(0, last + 1, 0, 0)
  {
    hide Members, Reset;
    MembersAre();
    var p := Crowned(n).progress;
    assert forall x :: x in p <==> x in [1, 2, 3] || x == n.id;
  }

  lemma NotYet(n: Node, id: NodeID, last: Index)
    requires n.role == Leader && id in {1, 2} && (n.conf == THREE || (n.conf == JOINT && id == 1)) && Sized(n)
    requires n.progress == Table(id, last)
    ensures MaybeAdvanceCommit(n) == n
  {
    hide CommittedIndex, Reached, Quorum;
    Quorums();
    ReachedBy(n.conf, Matched(n), 1);
    assert Reached(n.conf, Matched(n), 1) == {id};
    CountsTo(n.conf, Matched(n), 0);
  }

  lemma Wins(n: Node, c: Core, v: NodeID, w: NodeID)
    requires Is(n, c) && Sane(c) && n.role == Candidate && n.votes == map[c.id := true]
    requires (c.conf == THREE && (c.id, v) in {(1, 2), (2, 3)}) || (c.conf == JOINT && (c.id, v) == (1, 2))
    requires w in {1, 2, 3} && w != c.id
    ensures var r, last := Step(n, VoteResp(v, c.id, c.term, false, true)), |c.log|;
            && Is(r, c.(log := c.log + [Entry(last + 1, c.term, NoOp)])) && r.role == Leader
            && AppendReq(c.id, w, c.term, last, LastTerm(c.log), [Entry(last + 1, c.term, NoOp)], c.committed,
              0) in r.msgs
            && r.progress == Table(c.id, last)
  {
    hide Quorum, Impossible, BecomeLeader, Members, Peers;
    Quorums();
    var q := RecordVote(n, v, true);
    assert q.votes == map[c.id := true, v := true];
    assert Granted(q) == {c.id, v};
    assert Quorum(c.conf, {c.id, v});
    assert Step(n, VoteResp(v, c.id, c.term, false, true)) == TallyVotes(q) == BecomeLeader(q);
    Leads(q, c, w);
  }

  /** While nobody is behind the floor no snapshot is sent. */
  lemma {:induction false} TableStays(n: Node, peers: seq<NodeID>)
    requires forall x :: x in n.progress ==> TermOf(n, n.progress[x].next - 1).Some?
    ensures SendAll(n, peers, 0).progress == n.progress
    decreases |peers|
  {
    if peers != [] { TableStays(SendAppend(n, peers[0], 0), peers[1..]); }
  }

  lemma Leads(n: Node, c: Core, w: NodeID)
    requires Is(n, c) && Sane(c) && n.role == Candidate && c.id in {1, 2}
    requires c.conf == THREE || (c.conf == JOINT && c.id == 1)
    requires w in {1, 2, 3} && w != c.id
    ensures var r, last := BecomeLeader(n), |c.log|;
            && Is(r, c.(log := c.log + [Entry(last + 1, c.term, NoOp)])) && r.role == Leader
            && AppendReq(c.id, w, c.term, last, LastTerm(c.log), [Entry(last + 1, c.term, NoOp)], c.committed,
              0) in r.msgs
            && r.progress == Table(c.id, last)
  {
    hide MaybeAdvanceCommit, Members, Peers, Crowned, SendAll, Table, Persist, Feeding;
    MembersAre();
    CrownedIs(n, c);
    var last := |c.log|;
    var n1 := Crowned(n);
    NotYet(n1, c.id, last);
    var n2 := Persist(n1);
    PersistKeeps(n1);
    PersistsFine(n1);
    FirstWord(n2, c, w);
    TellsAll(n2, w, AppendReq(c.id, w, c.term, last, LastTerm(c.log), [Entry(last + 1, c.term, NoOp)], c.committed, 0));
    TableFine(n2, c.id, last);
    TableStays(n2, Peers(n2.conf, n2.id));
  }

  lemma PersistsFine(n: Node)
    requires !n.fault && n.hard.term <= n.term
    ensures !Persist(n).fault && Persist(n).hard.term == n.term
  {}

  lemma FirstWord(n: Node, c: Core, w: NodeID)
    requires Sane(c) && c.id in {1, 2} && w in {1, 2, 3} && w != c.id && n.progress == Table(c.id, |c.log|)
    requires Is(n, c.(log := c.log + [Entry(|c.log| + 1, c.term, NoOp)]))
    ensures var last, e := |c.log|, Entry(|c.log| + 1, c.term, NoOp);
            Feeding(n, w, AppendReq(c.id, w, c.term, last, LastTerm(c.log), [e], c.committed, 0))
  {
    hide LastTerm;
    var last, e := |c.log|, Entry(|c.log| + 1, c.term, NoOp);
    EndSlice(c.log, e);
    assert n.progress[w] == Progress(0, last + 1, 0, 0) && BatchEnd(n, last) == last + 1;
  }

  lemma EndSlice(log: seq<Entry>, e: Entry)
    ensures (log + [e])[|log|..|log| + 1] == [e] && TermAt(log + [e], |log|) == LastTerm(log)
  {}

  lemma TableFine(n: Node, id: NodeID, last: Index)
    requires n.progress == Table(id, last) && n.floor <= last < |n.log|
    ensures forall x :: x in n.progress ==> TermOf(n, n.progress[x].next - 1).Some?
  {}

  /** An acknowledgement that completes a majority. */
  lemma Acked(n: Node, c: Core, v: NodeID, i: Index)
    requires Is(n, c) && Sane(c) && n.role == Leader && c.conf == THREE && c.id in {1, 2} && v in n.progress
             && v != c.id
    requires n.progress[v].matched < i && c.committed < i <= |c.log| && c.floor <= i && c.log[i - 1].term == c.term
    requires CommittedIndex(THREE, Matched(WithMatch(n, v, i))) == i
    requires forall x :: x in n.progress ==> TermOf(n, n.progress[x].next - 1).Some?
    ensures var r := Step(n, AppendResp(v, c.id, c.term, true, i, 0, 0, 0));
            Is(r, c.(committed := i)) && r.role == Leader && r.progress == WithMatch(n, v, i).progress
  {
    hide MaybeAdvanceCommit, SendAll, Members, Peers, CommittedIndex, Matched;
    var w := WithMatch(n, v, i);
    Advances(w, c, i);
    var a := MaybeAdvanceCommit(w);
    assert forall x :: x in a.progress ==> TermOf(a, a.progress[x].next - 1).Some?;
    TableStays(a, Peers(a.conf, a.id));
    assert Step(n, AppendResp(v, c.id, c.term, true, i, 0, 0, 0)) == RecordMatch(n, v, i) == BroadcastAppend(a);
  }

  lemma Advances(n: Node, c: Core, i: Index)
    requires Is(n, c) && Sane(c) && n.role == Leader && c.conf == THREE && c.id in {1, 2}
    requires c.committed < i <= |c.log| && c.floor <= i && c.log[i - 1].term == c.term
             && CommittedIndex(THREE, Matched(n)) == i
    ensures MaybeAdvanceCommit(n) == n.(committed := i, hard := HardState(n.term, n.vote, i))
  {
    hide CommittedIndex, Propose;
    var n1 := Persist(CommitTo(n, i));
    assert n1 == n.(committed := i, hard := HardState(n.term, n.vote, i));
    assert MaybeLeaveJoint(n1) == n1 && StepDownIfRemoved(n1) == n1;
  }

  // ---------------------------------------------------------------------------
  // Following
  // ---------------------------------------------------------------------------

  /** Entries that go on where the log ends, none of them about membership. */
  lemma Appends(n: Node, c: Core, m: Message)
    requires Is(n, c) && Sane(c) && n.role == Follower && c.confIndex == 0 && c.floor == 0
    requires m.AppendReq? && m.to == c.id && m.term == c.term && m.readId == 0
    requires m.prevIndex == |c.log| && m.prevTerm == LastTerm(c.log)
    requires m.entries != [] && Contiguous(m.entries) && m.entries[0].index == |c.log| + 1
    requires forall i :: 0 <= i < |m.entries| ==> !m.entries[i].payload.ConfEntry?
    ensures var r, end := Step(n, m), |c.log| + |m.entries|;
            var told := if m.commit < end then m.commit else end;
            && Is(r, c.(log := c.log + m.entries, committed := if told > c.committed then told else c.committed))
            && r.role == Follower && AppendResp(c.id, m.from, c.term, true, end, 0, 0, 0) in r.msgs
  {
    hide Rescan, Contiguous, LastTerm;
    var n1 := FollowLeader(n, m);
    assert Is(n1, c) && MatchTerm(n1, m.prevIndex, m.prevTerm) by { AtTheEnd(c.log); }
    assert FindConflict(n1, m.entries) == |c.log| + 1;
    assert m.entries[0..] == m.entries && c.log[..|c.log|] == c.log;
    assert AppendConflicting(n1, m.prevIndex, m.entries) == n1.(log := c.log + m.entries);
    var end := |c.log| + |m.entries|;
    var n2 := CommitTo(n1.(log := c.log + m.entries), if m.commit < end then m.commit else end);
    assert !NeedsRefresh(n2, m.entries);
    var r := AcceptEntries(n1, m);
    assert r.msgs[|r.msgs| - 1] == AppendResp(c.id, m.from, c.term, true, end, 0, 0, 0);
    assert Step(n, m) == r;
  }

  lemma AtTheEnd(log: seq<Entry>)
    ensures LastTerm(log) == if log == [] then 0 else log[|log| - 1].term
  {}

  /** A follower that has nothing says so. */
  lemma Refuses(n: Node, c: Core)
    requires Is(n, c) && c == Core(3, 4, 2, [], 0, THREE, 0, 0, NO_SNAPSHOT, 0) && n.role == Follower
    ensures var r := Step(n, AppendReq(2, 3, 4, 3, 3, [F], 1, 0));
            Is(r, c) && r.role == Follower && AppendResp(3, 2, 4, false, 0, 1, 0, 0) in r.msgs
  {
    var r := Step(n, AppendReq(2, 3, 4, 3, 3, [F], 1, 0));
    assert r.msgs[|r.msgs| - 1] == AppendResp(3, 2, 4, false, 0, 1, 0, 0);
  }

  /** Its leader starts it from the first entry. */
  lemma BacksUp(n: Node, c: Core)
    requires Is(n, c) && c == Core(2, 4, 2, [A, C, D, F], 1, THREE, 0, 0, NO_SNAPSHOT, 0) && n.role == Leader
    requires n.progress == Table(2, 3)
    ensures var r := Step(n, AppendResp(3, 2, 4, false, 0, 1, 0, 0));
            && Is(r, c) && r.role == Leader && r.progress == Table(2, 3)[3 := Progress(0, 1, 0, 0)]
            && AppendReq(2, 3, 4, 0, 0, [A, C, D, F], 1, 0) in r.msgs
  {
    var m := AppendResp(3, 2, 4, false, 0, 1, 0, 0);
    assert BackUp(n, n.progress[3], m) == 1;
    var n1 := n.(progress := n.progress[3 := Progress(0, 1, 0, 0)]);
    assert n1.log[0..BatchEnd(n1, 0)] == [A, C, D, F];
    var r := Step(n, m);
    assert r == HandleAppendResponse(n, m) == SendAppend(n1, 3, 0);
    assert r.msgs[|r.msgs| - 1] == AppendReq(2, 3, 4, 0, 0, [A, C, D, F], 1, 0);
  }

  /** The entry that entered the joint configuration is overwritten, and the rescan finds the stamp on the snapshot. */
  lemma Overwritten(n: Node, c: Core)
    requires Is(n, c) && c == Core(1, 1, 1, [A, B], 1, JOINT, 2, 1, STAMPED, 1)
    ensures var r := Step(n, AppendReq(2, 1, 2, 1, 1, [C], 0, 0));
            Is(r, Core(1, 2, NONE, [A, C], 1, JOINT, 1, 1, STAMPED, 1)) && r.role == Follower
  {
    hide BecomeFollower;
    var m := AppendReq(2, 1, 2, 1, 1, [C], 0, 0);
    FollowerShape(n, 2, 2);
    var n0 := StepHigherTerm(n, m);
    var n1 := FollowLeader(n0, m);
    assert n1.log == [A, B] && n1.role == Follower && n1.committed == 1 && n1.floor == 1 && !n1.fault && n1.term == 2;
    assert FindConflict(n1, [C]) == 2;
    assert [A, B][..1] == [A] && [C][0..] == [C];
    var n2 := n1.(log := [A, C]);
    assert AppendConflicting(n1, 1, [C]) == n2;
    assert LastConfIndex([A, C]) == 0 && Rescan(n2) == (JOINT, 1);
    assert [C][0].index <= n2.confIndex;
    assert NeedsRefresh(n2, [C]);
  }

  // ---------------------------------------------------------------------------
  // Changing the membership
  // ---------------------------------------------------------------------------

  const FIRST_COMMIT := Known(Progress(1, 2, 0, 0), Progress(1, 2, 0, 0), Progress(0, 1, 0, 0))

  lemma OwnEntry(n: Node, c: Core, p: Payload)
    requires Is(n, c) && Sane(c) && n.role == Leader && p.ConfEntry?
    ensures var r, last := AppendOwn(n, p), |c.log|;
            && Is(r, c.(log := c.log + [Entry(last + 1, c.term, p)], conf := p.change.config, confIndex := last + 1))
            && r.role == Leader && r.msgs == n.msgs
  {
    hide Members, Rescan;
    var n1 := n.(log := n.log + [Entry(|n.log| + 1, n.term, p)]);
    ScannedLast(n1, p);
  }

  lemma ScannedLast(n: Node, p: Payload)
    requires n.log != [] && n.log[|n.log| - 1].payload == p && p.ConfEntry? && n.floor < |n.log|
    ensures Rescan(n) == (p.change.config, |n.log|)
  {}

  lemma EnteredTable(n: Node, p: Payload)
    requires n.role == Leader && n.id == 1 && n.conf == THREE && n.log == [A] && n.term == 1 && n.floor == 0
    requires p == B.payload && n.progress == FIRST_COMMIT
    ensures AppendOwn(n, p).progress == FIRST_COMMIT[1 := Progress(2, 3, 0, 0)]
  {
    hide Members, Rescan;
    MembersAre();
    var n1 := n.(log := n.log + [Entry(2, 1, p)]);
    ScannedLast(n1, p);
    var n2 := RefreshConfiguration(n1);
    assert n2.progress == RefreshProgress(n1.(conf := JOINT, confIndex := 2)).progress;
    assert n2.progress.Keys == {1, 2, 3};
  }

  /** The leader of term 1 begins to leave the others behind. Nobody else hears of it. */
  lemma Enters(n: Node, c: Core)
    requires Is(n, c) && c == Core(1, 1, 1, [A], 1, THREE, 0, 0, NO_SNAPSHOT, 0) && n.role == Leader
    requires n.progress == FIRST_COMMIT
    ensures var r := ProposeConfChange(n, ALONE);
            Is(r, c.(log := [A, B], conf := JOINT, confIndex := 2)) && r.role == Leader
  {
    hide AppendOwn, MaybeAdvanceCommit, SendAll, EnterJoint;
    Changes();
    var p := ConfEntry(EnterJoint(THREE, ALONE).change);
    assert ConfChangeError(n, ALONE).None? && p == B.payload;
    OwnEntry(n, c, p);
    EnteredTable(n, p);
    var n1 := AppendOwn(n, p);
    assert n1.log == [A, B];
    NotJointly(n1);
    assert Propose(n, p) == BroadcastAppend(n1);
  }

  lemma NotJointly(n: Node)
    requires n.role == Leader && n.conf == JOINT && n.committed == 1 && Sized(n)
    requires n.progress == FIRST_COMMIT[1 := Progress(2, 3, 0, 0)]
    ensures MaybeAdvanceCommit(n) == n
  {
    hide CommittedIndex, Reached, Quorum;
    Quorums();
    var m := Matched(n);
    assert m == map[1 := 2, 2 := 1, 3 := 0];
    ReachedBy(JOINT, m, 1);
    ReachedBy(JOINT, m, 2);
    assert Reached(JOINT, m, 1) == {1, 2} && Reached(JOINT, m, 2) == {1};
    CountsTo(JOINT, m, 1);
  }

  /** It applies what is committed... */
  lemma AppliesFirst(mem: Member, c: Core)
    requires Is(mem.node, c) && c == Core(1, 1, 1, [A, B], 1, JOINT, 2, 0, NO_SNAPSHOT, 0) && mem.app == []
    ensures var r := After(mem, Applies(0));
            Is(r.node, c.(applied := 1)) && r.app == [A] && r.node.role == mem.node.role && r.node.msgs == mem.node.msgs
  {
    assert EntriesToApply(mem.node, 0) == [A];
  }

  /** ...and takes a snapshot of it, stamped with the configuration in force. */
  lemma Stamps(mem: Member, c: Core)
    requires Is(mem.node, c) && c == Core(1, 1, 1, [A, B], 1, JOINT, 2, 0, NO_SNAPSHOT, 1) && mem.app == [A]
    ensures var r := After(mem, Compacts);
            && Is(r.node, c.(floor := 1, snap := STAMPED)) && r.app == [A] && r.node.role == mem.node.role
            && r.node.msgs == mem.node.msgs
  {
    assert TermOf(mem.node, 1) == Some(1);
  }

  /** Back in office, with a quorum of the joint configuration it alone believes in, it completes the change, and from
      then on commits by itself. */
  lemma GoesAlone(n: Node, c: Core)
    requires Is(n, c) && c == Core(1, 3, 1, [A, C, D], 1, JOINT, 1, 1, STAMPED, 1) && n.role == Leader
    requires n.progress == Table(1, 2)
    ensures var r := Step(n, AppendResp(2, 1, 3, true, 3, 0, 0, 0));
            Is(r, c.(log := [A, C, D, E], committed := 4, conf := ALONE, confIndex := 4)) && r.role == Leader
  {
    hide MaybeAdvanceCommit, SendAll, Members, Peers, MaybeLeaveJoint, Matched, CommittedIndex, StepDownIfRemoved;
    var w := WithMatch(n, 2, 3);
    var d := c.(committed := 3);
    var n1 := Persist(CommitTo(w, 3));
    assert Is(n1, d) && n1.role == Leader;
    Completes(n1, d);
    JointlyThree(w);
    Unfold(w, n1);
    AnsweredAloud(n, MaybeAdvanceCommit(w));
  }

  lemma AnsweredAloud(n: Node, a: Node)
    requires n.id == 1 && n.role == Leader && n.term == 3 && n.committed == 1 && n.progress == Table(1, 2) && Sized(n)
    requires a == MaybeAdvanceCommit(WithMatch(n, 2, 3)) && a.committed == 4 && !a.fault
    ensures Step(n, AppendResp(2, 1, 3, true, 3, 0, 0, 0)) == BroadcastAppend(a)
  {
    hide MaybeAdvanceCommit, SendAll;
    assert HandleAppendResponse(n, AppendResp(2, 1, 3, true, 3, 0, 0, 0)) == RecordMatch(n, 2, 3);
  }

  lemma JointlyThree(w: Node)
    requires w.progress == Table(1, 2)[2 := Progress(3, 4, 0, 0)]
    ensures CommittedIndex(JOINT, Matched(w)) == 3
  {
    hide CommittedIndex, Reached, Quorum;
    Quorums();
    var m := Matched(w);
    assert m == map[1 := 3, 2 := 3, 3 := 0];
    ReachedBy(JOINT, m, 3);
    ReachedBy(JOINT, m, 4);
    assert Reached(JOINT, m, 3) == {1, 2} && Reached(JOINT, m, 4) == {};
    CountsTo(JOINT, m, 3);
  }

  lemma Unfold(w: Node, n1: Node)
    requires w.role == Leader && w.conf == JOINT && w.log == [A, C, D] && w.term == 3 && w.committed == 1
             && w.floor == 1
    requires !w.fault && w.hard.term <= 3 && CommittedIndex(JOINT, Matched(w)) == 3 && n1 == Persist(CommitTo(w, 3))
    requires !MaybeLeaveJoint(n1).fault
    ensures MaybeAdvanceCommit(w) == StepDownIfRemoved(MaybeLeaveJoint(n1))
  {
    hide CommittedIndex, MaybeLeaveJoint, StepDownIfRemoved;
  }

  lemma Completes(n: Node, c: Core)
    requires Is(n, c) && c == Core(1, 3, 1, [A, C, D], 3, JOINT, 1, 1, STAMPED, 1) && n.role == Leader
    requires n.progress.Keys == {1, 2, 3}
    ensures var r := MaybeLeaveJoint(n);
            && Is(r, c.(log := [A, C, D, E], committed := 4, conf := ALONE, confIndex := 4)) && r.role == Leader
            && StepDownIfRemoved(r) == r
  {
    hide AppendOwn, MaybeAdvanceCommit, SendAll, LeaveJoint, Members, Peers;
    Changes();
    MembersAre();
    var p := ConfEntry(LeaveJoint(JOINT).change);
    LeavingIsNotJoint(n);
    OwnEntry(n, c, p);
    LeftTable(n, p);
    var n1 := AppendOwn(n, p);
    assert n1.log == [A, C, D, E];
    CountsAlone(n1);
    assert MaybeLeaveJoint(n) == Propose(n, p) == BroadcastAppend(MaybeAdvanceCommit(n1));
  }

  lemma LeftTable(n: Node, p: Payload)
    requires n.role == Leader && n.id == 1 && n.conf == JOINT && |n.log| == 3 && n.floor == 1 && p == E.payload
    requires n.progress.Keys == {1, 2, 3}
    ensures 1 in AppendOwn(n, p).progress && AppendOwn(n, p).progress[1].matched == 4
  {
    hide Members, Rescan;
    MembersAre();
    ScannedLast(n.(log := n.log + [Entry(4, n.term, p)]), p);
  }

  lemma CountsAlone(n: Node)
    requires n.role == Leader && n.id == 1 && n.conf == ALONE && n.confIndex == 4 && n.log == [A, C, D, E]
             && n.term == 3
    requires n.committed == 3 && n.floor == 1 && !n.fault && n.hard.term <= 3
    requires 1 in n.progress && n.progress[1].matched == 4
    ensures MaybeAdvanceCommit(n) == n.(committed := 4, hard := HardState(3, n.vote, 4))
  {
    hide CommittedIndex, Propose, Quorum;
    Quorums();
    var m := Matched(n);
    assert Reached(ALONE, m, 4) == {1} && Reached(ALONE, m, 5) == {};
    CountsTo(ALONE, m, 4);
    var n1 := Persist(CommitTo(n, 4));
    assert n1 == n.(committed := 4, hard := HardState(3, n.vote, 4));
    assert MaybeLeaveJoint(n1) == n1 && StepDownIfRemoved(n1) == n1;
  }

  // ---------------------------------------------------------------------------
  // The run
  // ---------------------------------------------------------------------------

  lemma MoreIsFree(r: Run, id: NodeID, e: Event, c: Cluster)
    requires IsFreeRun(THREE, r) && FreeNext(r.states[|r.who|], id, e, c)
    ensures IsFreeRun(THREE, More(r, id, e, c))
  {
    hide Init, FreeNext;
    var s := More(r, id, e, c);
    forall i {:trigger s.what[i]} | 0 <= i < |s.who|
      ensures FreeNext(s.states[i], s.who[i], s.what[i], s.states[i + 1])
    {
      if i < |r.who| { assert r.what[i] == s.what[i]; }
    }
  }

  /** A free run, with its length at hand. */
  ghost predicate Free(r: Run) { IsFreeRun(THREE, r) && |r.states| == |r.who| + 1 }

  /** A member does something, and what it has to say goes out. */
  lemma Go(r: Run, id: NodeID, e: Event, a: Member) returns (s: Run)
    requires Free(r) && FreeEnabled(Last(r), id, e) && !e.Sends? && a == After(Last(r).members[id], e)
    requires Sized(a.node) && a.node.committed <= |a.node.log|
    ensures Free(s) && id in Last(r).members
    ensures Last(s).members == Last(r).members[id := a.(node := Sent(a.node))]
    ensures Last(s).net == Last(r).net + set m | m in a.node.msgs
  {
    hide IsFreeRun, FreeEnabled, After;
    var c := Last(r);
    FreeMember(c, id, e);
    var d := Cluster(c.members[id := a], c.net);
    FreeSize(r);
    MoreIsFree(r, id, e, d);
    var q := More(r, id, e, d);
    FreeSize(q);
    var f := Cluster(c.members[id := a.(node := Sent(a.node))], c.net + set m | m in a.node.msgs);
    SendsFreely(d, id);
    assert f.members == d.members[id := After(d.members[id], Sends)];
    MoreIsFree(q, id, Sends, f);
    s := More(q, id, Sends, f);
    FreeSize(s);
  }

  lemma FreeSize(r: Run)
    requires IsFreeRun(THREE, r)
    ensures |r.states| == |r.who| + 1 == |r.what| + 1
  {}

  lemma FreeMember(c: Cluster, id: NodeID, e: Event)
    requires FreeEnabled(c, id, e)
    ensures id in c.members && Sized(c.members[id].node) && c.members[id].node.committed <= |c.members[id].node.log|
  {}

  lemma SendsFreely(c: Cluster, id: NodeID)
    requires id in c.members && Sized(c.members[id].node) && c.members[id].node.committed <= |c.members[id].node.log|
    ensures FreeEnabled(c, id, Sends) && After(c.members[id], Sends) == c.members[id].(node := Sent(c.members[id].node))
  {}

  lemma Hear(r: Run, id: NodeID, m: Message, n: Node) returns (s: Run)
    requires Free(r) && id in Last(r).members && m in Last(r).net && m.to == id && !m.SnapReq?
    requires Sized(Last(r).members[id].node) && Last(r).members[id].node.committed <= |Last(r).members[id].node.log|
    requires n == Step(Last(r).members[id].node, m) && Sized(n) && n.committed <= |n.log|
    ensures Free(s) && Last(s).members == Last(r).members[id := Last(r).members[id].(node := Sent(n))]
    ensures Last(s).net == Last(r).net + set x | x in n.msgs
  {
    hide IsFreeRun, Step;
    s := Go(r, id, Receives(m), Last(r).members[id].(node := n));
  }

  lemma Campaigned(r: Run, id: NodeID, n: Node) returns (s: Run)
    requires Free(r) && id in Last(r).members && Last(r).members[id].node.role != Leader
             && !Last(r).members[id].node.cfg.preVote
    requires Sized(Last(r).members[id].node) && Last(r).members[id].node.committed <= |Last(r).members[id].node.log|
    requires n == Campaign(Last(r).members[id].node, false) && Sized(n) && n.committed <= |n.log|
    ensures Free(s) && Last(s).members == Last(r).members[id := Last(r).members[id].(node := Sent(n))]
    ensures Last(s).net == Last(r).net + set x | x in n.msgs
  {
    hide IsFreeRun, Campaign;
    s := Go(r, id, Campaigns, Last(r).members[id].(node := n));
  }

  /** The core of a node that has never heard of another configuration. */
  function Plain(id: NodeID, term: Term, vote: NodeID, log: seq<Entry>, committed: Index): Core {
    Core(id, term, vote, log, committed, THREE, 0, 0, NO_SNAPSHOT, 0)
  }

  /** Three members with these cores. */
  ghost predicate Stage(r: Run, c1: Core, app: seq<Entry>, c2: Core, c3: Core) {
    && Free(r) && Last(r).members.Keys == {1, 2, 3}
    && Is(Last(r).members[1].node, c1) && Last(r).members[1].app == app
    && Is(Last(r).members[2].node, c2) && Is(Last(r).members[3].node, c3)
  }

  function Role1(r: Run): Role
    requires |r.states| > 0 && 1 in Last(r).members
  {
    Last(r).members[1].node.role
  }

  lemma Opens(cfg: Settings) returns (r: Run)
    requires Fit(cfg)
    ensures Stage(r, Plain(1, 0, NONE, [], 0), [], Plain(2, 0, NONE, [], 0), Plain(3, 0, NONE, [], 0))
    ensures forall x :: x in Last(r).members ==> Last(r).members[x].node.role == Follower
  {
    hide NewNode;
    Quorums();
    forall id | id in {1, 2, 3}
      ensures var n := NewNode(id, cfg); Is(n, Plain(id, 0, NONE, [], 0)) && n.role == Follower && n.cfg == cfg
    {
      Fresh(id, cfg);
    }
    var c := Cluster(map id | id in {1, 2, 3} :: Member(NewNode(id, cfg), [], 0), {});
    assert Init(THREE, c);
    r := Run([c], [], []);
  }

  lemma Fresh(id: NodeID, cfg: Settings)
    requires Fit(cfg)
    ensures var n := NewNode(id, cfg); Is(n, Plain(id, 0, NONE, [], 0)) && n.role == Follower && n.cfg == cfg
  {}

  /** `s` differs from `r` in these two members at most, whose state machines are untouched; messages only gather. */
  ghost predicate Between(r: Run, s: Run, a: NodeID, v: NodeID)
    requires Free(r)
  {
    && Free(s) && Last(s).members.Keys == Last(r).members.Keys && Last(r).net <= Last(s).net
    && (forall x :: x in Last(r).members && x != a && x != v ==> Last(s).members[x] == Last(r).members[x])
    && (forall x :: x in Last(r).members ==> Last(s).members[x].app == Last(r).members[x].app)
  }

  /** `a` stands, `v` votes for it, and it leads. */
  lemma Election(r: Run, a: NodeID, v: NodeID, w: NodeID, ca: Core, cv: Core) returns (s: Run)
    requires Free(r) && a in Last(r).members && v in Last(r).members && w in {1, 2, 3} && w != a
    requires Is(Last(r).members[a].node, ca) && Sane(ca) && Last(r).members[a].node.role != Leader && ca.id == a
    requires Is(Last(r).members[v].node, cv) && Sane(cv) && cv.id == v
    requires (ca.conf == THREE && (a, v) in {(1, 2), (2, 3)}) || (ca.conf == JOINT && (a, v) == (1, 2))
    requires cv.term <= ca.term && UpToDate(|ca.log|, LastTerm(ca.log), cv.log)
    ensures var t, e := ca.term + 1, Entry(|ca.log| + 1, ca.term + 1, NoOp);
            && Between(r, s, a, v)
            && Is(Last(s).members[a].node, ca.(term := t, vote := a, log := ca.log + [e]))
              && Last(s).members[a].node.role == Leader
            && Last(s).members[a].node.progress == Table(a, |ca.log|)
            && Is(Last(s).members[v].node, cv.(term := t, vote := a)) && Last(s).members[v].node.role == Follower
            && AppendReq(a, w, t, |ca.log|, LastTerm(ca.log), [e], ca.committed, 0) in Last(s).net
  {
    hide IsFreeRun, Campaign, Step, Table, UpToDate, LastTerm;
    var n, f := Last(r).members[a].node, Last(r).members[v].node;
    var t := ca.term + 1;
    Stands(n, ca, v);
    s := Campaigned(r, a, Campaign(n, false));
    n := Sent(Campaign(n, false));
    var ask := VoteReq(a, v, t, false, |ca.log|, LastTerm(ca.log));
    Grants(f, cv, ask);
    s := Hear(s, v, ask, Step(f, ask));
    var yes := VoteResp(v, a, t, false, true);
    Wins(n, ca.(term := t, vote := a), v, w);
    s := Hear(s, a, yes, Step(n, yes));
  }

  /** A follower takes what it is offered. */
  lemma Taken(r: Run, v: NodeID, c: Core, m: Message) returns (s: Run)
    requires Free(r) && v in Last(r).members && Is(Last(r).members[v].node, c) && Sane(c) && c.id == v
    requires Last(r).members[v].node.role == Follower && c.confIndex == 0 && c.floor == 0 && m in Last(r).net
    requires m.AppendReq? && m.to == v && m.term == c.term && m.readId == 0
    requires m.prevIndex == |c.log| && m.prevTerm == LastTerm(c.log)
    requires m.entries != [] && Contiguous(m.entries) && m.entries[0].index == |c.log| + 1
    requires forall i :: 0 <= i < |m.entries| ==> !m.entries[i].payload.ConfEntry?
    ensures var end := |c.log| + |m.entries|;
            var told := if m.commit < end then m.commit else end;
            && Between(r, s, v, v) && Last(s).members[v].node.role == Follower
            && Is(Last(s).members[v].node, c.(log := c.log + m.entries,
              committed := if told > c.committed then told else c.committed))
            && AppendResp(v, m.from, c.term, true, end, 0, 0, 0) in Last(s).net
  {
    hide IsFreeRun, Step, Contiguous, LastTerm;
    var n := Last(r).members[v].node;
    Appends(n, c, m);
    s := Hear(r, v, m, Step(n, m));
  }

  /** Term 1: node 1 is elected by node 2, and its first entry is committed by the two of them. */
  lemma TermOne(r: Run) returns (s: Run)
    requires Stage(r, Plain(1, 0, NONE, [], 0), [], Plain(2, 0, NONE, [], 0), Plain(3, 0, NONE, [], 0))
    requires forall x :: x in Last(r).members ==> Last(r).members[x].node.role == Follower
    ensures Stage(s, Plain(1, 1, 1, [A], 1), [], Plain(2, 1, 1, [A], 0), Plain(3, 0, NONE, [], 0))
    ensures Role1(s) == Leader && Last(s).members[1].node.progress == FIRST_COMMIT
    ensures Last(s).members[2].node.role == Follower
  {
    hide IsFreeRun, Step, Table;
    s := Election(r, 1, 2, 2, Plain(1, 0, NONE, [], 0), Plain(2, 0, NONE, [], 0));
    assert [] + [A] == [A];
    s := Taken(s, 2, Plain(2, 1, 1, [], 0), AppendReq(1, 2, 1, 0, 0, [A], 0, 0));
    var n := Last(s).members[1].node;
    FirstCommit(n);
    var done := AppendResp(2, 1, 1, true, 1, 0, 0, 0);
    s := Hear(s, 1, done, Step(n, done));
  }

  lemma FirstCommit(n: Node)
    requires Is(n, Plain(1, 1, 1, [A], 0)) && n.role == Leader && n.progress == Table(1, 0)
    ensures var r := Step(n, AppendResp(2, 1, 1, true, 1, 0, 0, 0));
            Is(r, Plain(1, 1, 1, [A], 1)) && r.role == Leader && r.progress == FIRST_COMMIT
  {
    hide CommittedIndex, Reached, Quorum, Step;
    Quorums();
    var m := Matched(WithMatch(n, 2, 1));
    assert m == map[1 := 1, 2 := 1, 3 := 0];
    ReachedBy(THREE, m, 1);
    ReachedBy(THREE, m, 2);
    assert Reached(THREE, m, 1) == {1, 2} && Reached(THREE, m, 2) == {};
    CountsTo(THREE, m, 1);
    Acked(n, Plain(1, 1, 1, [A], 0), 2, 1);
  }

  /** It begins to change the membership, applies what is committed, and takes its snapshot. */
  lemma TakesSnapshot(r: Run) returns (s: Run)
    requires Stage(r, Plain(1, 1, 1, [A], 1), [], Plain(2, 1, 1, [A], 0), Plain(3, 0, NONE, [], 0))
    requires Role1(r) == Leader && Last(r).members[1].node.progress == FIRST_COMMIT
    ensures Stage(s, Core(1, 1, 1, [A, B], 1, JOINT, 2, 1, STAMPED, 1), [A], Plain(2, 1, 1, [A], 0),
            Plain(3, 0, NONE, [], 0))
    ensures Role1(s) == Leader && Last(s).members[2] == Last(r).members[2]
  {
    hide IsFreeRun, ProposeConfChange, After, CreateSnapshot;
    var mem := Last(r).members[1];
    Enters(mem.node, Plain(1, 1, 1, [A], 1));
    ReconfiguresIs(mem);
    s := Go(r, 1, Reconfigures(ALONE), mem.(node := ProposeConfChange(mem.node, ALONE)));
    mem := Last(s).members[1];
    AppliesFirst(mem, Core(1, 1, 1, [A, B], 1, JOINT, 2, 0, NO_SNAPSHOT, 0));
    s := Go(s, 1, Applies(0), After(mem, Applies(0)));
    mem := Last(s).members[1];
    Stamps(mem, Core(1, 1, 1, [A, B], 1, JOINT, 2, 0, NO_SNAPSHOT, 1));
    s := Go(s, 1, Compacts, After(mem, Compacts));
  }

  lemma ReconfiguresIs(mem: Member)
    requires Sized(mem.node) && mem.node.committed <= |mem.node.log|
    ensures After(mem, Reconfigures(ALONE)) == mem.(node := ProposeConfChange(mem.node, ALONE))
  {
    hide ProposeConfChange;
  }

  /** Term 2: node 2 is elected by node 3, and overwrites the change. */
  lemma TermTwo(r: Run) returns (s: Run)
    requires Stage(r, Core(1, 1, 1, [A, B], 1, JOINT, 2, 1, STAMPED, 1), [A], Plain(2, 1, 1, [A], 0),
             Plain(3, 0, NONE, [], 0))
    requires Last(r).members[2].node.role == Follower
    ensures Stage(s, Core(1, 2, NONE, [A, C], 1, JOINT, 1, 1, STAMPED, 1), [A], Plain(2, 2, 2, [A, C], 0),
            Plain(3, 2, 2, [], 0))
    ensures Role1(s) == Follower
  {
    hide IsFreeRun, Step, Table;
    s := Election(r, 2, 3, 1, Plain(2, 1, 1, [A], 0), Plain(3, 0, NONE, [], 0));
    assert [A] + [C] == [A, C];
    var n, m := Last(s).members[1].node, AppendReq(2, 1, 2, 1, 1, [C], 0, 0);
    Overwritten(n, Core(1, 1, 1, [A, B], 1, JOINT, 2, 1, STAMPED, 1));
    s := Hear(s, 1, m, Step(n, m));
  }

  /** Term 3: node 1 is back, by the vote of node 2, completes a change nobody else knows of, and commits by itself. */
  lemma TermThree(r: Run) returns (s: Run)
    requires Stage(r, Core(1, 2, NONE, [A, C], 1, JOINT, 1, 1, STAMPED, 1), [A], Plain(2, 2, 2, [A, C], 0),
             Plain(3, 2, 2, [], 0))
    requires Role1(r) == Follower
    ensures Stage(s, Core(1, 3, 1, [A, C, D, E], 4, ALONE, 4, 1, STAMPED, 1), [A], Plain(2, 3, 1, [A, C, D], 1),
            Plain(3, 2, 2, [], 0))
    ensures Last(s).members[2].node.role == Follower
  {
    hide IsFreeRun, Step, Table;
    s := Election(r, 1, 2, 2, Core(1, 2, NONE, [A, C], 1, JOINT, 1, 1, STAMPED, 1), Plain(2, 2, 2, [A, C], 0));
    assert [A, C] + [D] == [A, C, D];
    s := Taken(s, 2, Plain(2, 3, 1, [A, C], 0), AppendReq(1, 2, 3, 2, 2, [D], 1, 0));
    var n, m := Last(s).members[1].node, AppendResp(2, 1, 3, true, 3, 0, 0, 0);
    GoesAlone(n, Core(1, 3, 1, [A, C, D], 1, JOINT, 1, 1, STAMPED, 1));
    s := Hear(s, 1, m, Step(n, m));
  }

  /** Term 4: node 2 is elected by node 3, brings it up to date, and the two commit, by the configuration everyone
      started with. */
  lemma TermFour(r: Run) returns (s: Run)
    requires Stage(r, Core(1, 3, 1, [A, C, D, E], 4, ALONE, 4, 1, STAMPED, 1), [A], Plain(2, 3, 1, [A, C, D], 1),
             Plain(3, 2, 2, [], 0))
    requires Last(r).members[2].node.role == Follower
    ensures Stage(s, Core(1, 3, 1, [A, C, D, E], 4, ALONE, 4, 1, STAMPED, 1), [A], Plain(2, 4, 2, [A, C, D, F], 4),
                  Plain(3, 4, 2, [A, C, D, F], 1))
  {
    hide IsFreeRun, Step, Table;
    s := Election(r, 2, 3, 3, Plain(2, 3, 1, [A, C, D], 1), Plain(3, 2, 2, [], 0));
    assert [A, C, D] + [F] == [A, C, D, F];
    s := CatchesUp(s);
  }

  lemma CatchesUp(r: Run) returns (s: Run)
    requires Stage(r, Core(1, 3, 1, [A, C, D, E], 4, ALONE, 4, 1, STAMPED, 1), [A], Plain(2, 4, 2, [A, C, D, F], 1),
             Plain(3, 4, 2, [], 0))
    requires Last(r).members[2].node.role == Leader && Last(r).members[3].node.role == Follower
    requires Last(r).members[2].node.progress == Table(2, 3) && AppendReq(2, 3, 4, 3, 3, [F], 1, 0) in Last(r).net
    ensures Stage(s, Core(1, 3, 1, [A, C, D, E], 4, ALONE, 4, 1, STAMPED, 1), [A], Plain(2, 4, 2, [A, C, D, F], 4),
                  Plain(3, 4, 2, [A, C, D, F], 1))
  {
    hide IsFreeRun, Step, Table;
    s := Repairs(r);
    assert [] + [A, C, D, F] == [A, C, D, F];
    s := Taken(s, 3, Plain(3, 4, 2, [], 0), AppendReq(2, 3, 4, 0, 0, [A, C, D, F], 1, 0));
    var n, m := Last(s).members[2].node, AppendResp(3, 2, 4, true, 4, 0, 0, 0);
    LastCommit(n);
    s := Hear(s, 2, m, Step(n, m));
  }

  lemma Repairs(r: Run) returns (s: Run)
    requires Free(r) && 2 in Last(r).members && 3 in Last(r).members
    requires Is(Last(r).members[2].node, Plain(2, 4, 2, [A, C, D, F], 1)) && Last(r).members[2].node.role == Leader
    requires Last(r).members[2].node.progress == Table(2, 3) && AppendReq(2, 3, 4, 3, 3, [F], 1, 0) in Last(r).net
    requires Is(Last(r).members[3].node, Plain(3, 4, 2, [], 0)) && Last(r).members[3].node.role == Follower
    ensures Between(r, s, 2, 3) && AppendReq(2, 3, 4, 0, 0, [A, C, D, F], 1, 0) in Last(s).net
    ensures Is(Last(s).members[2].node, Plain(2, 4, 2, [A, C, D, F], 1)) && Last(s).members[2].node.role == Leader
    ensures Last(s).members[2].node.progress == Table(2, 3)[3 := Progress(0, 1, 0, 0)]
    ensures Is(Last(s).members[3].node, Plain(3, 4, 2, [], 0)) && Last(s).members[3].node.role == Follower
  {
    hide IsFreeRun, Step, Table;
    var n, f := Last(r).members[2].node, Last(r).members[3].node;
    var offer, no := AppendReq(2, 3, 4, 3, 3, [F], 1, 0), AppendResp(3, 2, 4, false, 0, 1, 0, 0);
    Refuses(f, Plain(3, 4, 2, [], 0));
    s := Hear(r, 3, offer, Step(f, offer));
    BacksUp(n, Plain(2, 4, 2, [A, C, D, F], 1));
    s := Hear(s, 2, no, Step(n, no));
  }

  lemma LastCommit(n: Node)
    requires Is(n, Plain(2, 4, 2, [A, C, D, F], 1)) && n.role == Leader
    requires n.progress == Table(2, 3)[3 := Progress(0, 1, 0, 0)]
    ensures Is(Step(n, AppendResp(3, 2, 4, true, 4, 0, 0, 0)), Plain(2, 4, 2, [A, C, D, F], 4))
  {
    hide CommittedIndex, Reached, Quorum, Step;
    Quorums();
    var m := Matched(WithMatch(n, 3, 4));
    assert m == map[1 := 0, 2 := 4, 3 := 4];
    ReachedBy(THREE, m, 4);
    ReachedBy(THREE, m, 5);
    assert Reached(THREE, m, 4) == {2, 3} && Reached(THREE, m, 5) == {};
    CountsTo(THREE, m, 4);
    Acked(n, Plain(2, 4, 2, [A, C, D, F], 1), 3, 4);
  }

  /** State Machine Safety fails without the guard: there is a run, free of it, at the end of which two nodes have
      committed different entries at one index. */
  lemma SafetyLost(cfg: Settings) returns (r: Run)
    requires Fit(cfg)
    ensures IsFreeRun(THREE, r) && At(r, |r.who|, 1) && At(r, |r.who|, 2)
    ensures var n, m := NodeAt(r, |r.who|, 1), NodeAt(r, |r.who|, 2);
            n.committed == m.committed == |n.log| == |m.log| == 4 && n.log[..3] == m.log[..3] && n.log[3] != m.log[3]
  {
    hide IsFreeRun, Is;
    r := Opens(cfg);
    r := TermOne(r);
    r := TakesSnapshot(r);
    r := TermTwo(r);
    r := TermThree(r);
    r := TermFour(r);
    Ends(Last(r).members[1].node, Last(r).members[2].node);
  }

  lemma Ends(n: Node, m: Node)
    requires Is(n, Core(1, 3, 1, [A, C, D, E], 4, ALONE, 4, 1, STAMPED, 1)) && Is(m, Plain(2, 4, 2, [A, C, D, F], 4))
    ensures n.committed == m.committed == |n.log| == |m.log| == 4 && n.log[..3] == m.log[..3] && n.log[3] != m.log[3]
  {
    assert n.log[..3] == [A, C, D] && m.log[..3] == [A, C, D];
  }
}
