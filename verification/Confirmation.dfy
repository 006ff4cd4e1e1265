/** What becomes of a read: it waits for a quorum to answer, and is confirmed by the answer that completes one, at no
other moment and only once (raft/read.go). */
module Confirmation {
  import opened Configurations
  import opened RaftTypes
  import opened RaftNode
  import opened History
  import opened Invariant
  import opened StepSending
  import opened StepSnapshot
  import opened Crashing
  import opened Steady
  import opened Clusters
  import opened Runs
  import opened Extending
  import opened Tenure

  // ---------------------------------------------------------------------------
  // The reads with one number
  // ---------------------------------------------------------------------------

  function Waiting(pending: seq<ReadRequest>, id: nat): seq<ReadRequest> {
    if pending == [] then [] else RequestIf(pending[0], id) + Waiting(pending[1..], id)
  }

  function RequestIf(x: ReadRequest, id: nat): seq<ReadRequest> { if x.id == id then [x] else [] }

  function Confirmed(done: seq<ReadState>, id: nat): seq<ReadState> {
    if done == [] then [] else StateIf(done[0], id) + Confirmed(done[1..], id)
  }

  function StateIf(x: ReadState, id: nat): seq<ReadState> { if x.id == id then [x] else [] }

  lemma {:induction false} WaitingAppend(a: seq<ReadRequest>, b: seq<ReadRequest>, id: nat)
    ensures Waiting(a + b, id) == Waiting(a, id) + Waiting(b, id)
    decreases |a|
  {
    if a == [] {
      assert a + b == b;
    } else {
      hide RequestIf;
      assert (a + b)[1..] == a[1..] + b;
      WaitingAppend(a[1..], b, id);
      var x := RequestIf(a[0], id);
      assert x + (Waiting(a[1..], id) + Waiting(b, id)) == (x + Waiting(a[1..], id)) + Waiting(b, id);
    }
  }

  lemma {:induction false} ConfirmedAppend(a: seq<ReadState>, b: seq<ReadState>, id: nat)
    ensures Confirmed(a + b, id) == Confirmed(a, id) + Confirmed(b, id)
    decreases |a|
  {
    if a == [] {
      assert a + b == b;
    } else {
      hide StateIf;
      assert (a + b)[1..] == a[1..] + b;
      ConfirmedAppend(a[1..], b, id);
      var x := StateIf(a[0], id);
      assert x + (Confirmed(a[1..], id) + Confirmed(b, id)) == (x + Confirmed(a[1..], id)) + Confirmed(b, id);
    }
  }

  lemma {:induction false} NoneWaiting(pending: seq<ReadRequest>, id: nat)
    requires forall i :: 0 <= i < |pending| ==> pending[i].id != id
    ensures Waiting(pending, id) == []
  {
    if pending != [] { NoneWaiting(pending[1..], id); }
  }

  lemma {:induction false} NoneConfirmed(done: seq<ReadState>, id: nat)
    requires forall i :: 0 <= i < |done| ==> done[i].id != id
    ensures Confirmed(done, id) == []
  {
    if done != [] { NoneConfirmed(done[1..], id); }
  }

  lemma OneWaiting(x: ReadRequest, id: nat)
    ensures Waiting([x], id) == if x.id == id then [x] else []
  {
    assert [x][1..] == [];
  }

  lemma OneConfirmed(x: ReadState, id: nat)
    ensures Confirmed([x], id) == if x.id == id then [x] else []
  {
    assert [x][1..] == [];
  }

  lemma WaitingAround(pending: seq<ReadRequest>, k: nat, y: ReadRequest, id: nat)
    requires k < |pending|
    ensures Waiting(pending, id)
         == Waiting(pending[..k], id) + Waiting([pending[k]], id) + Waiting(pending[k + 1..], id)
    ensures Waiting(pending[k := y], id)
         == Waiting(pending[..k], id) + Waiting([y], id) + Waiting(pending[k + 1..], id)
    ensures Waiting(pending[..k] + pending[k + 1..], id) == Waiting(pending[..k], id) + Waiting(pending[k + 1..], id)
  {
    var a, b := pending[..k], pending[k + 1..];
    assert pending == a + [pending[k]] + b && pending[k := y] == a + [y] + b;
    WaitingAppend(a + [pending[k]], b, id);
    WaitingAppend(a, [pending[k]], id);
    WaitingAppend(a + [y], b, id);
    WaitingAppend(a, [y], id);
    WaitingAppend(a, b, id);
  }

  /** Where a read stands: the requests and the confirmations that carry its number. */
  datatype Standing = Standing(waiting: seq<ReadRequest>, confirmed: seq<ReadState>)

  function StandingOf(n: Node, id: nat): Standing {
    Standing(Waiting(n.pendingReads, id), Confirmed(n.readStates, id))
  }

  /** What one answer does to the read it is for: it is counted, and confirms the read if that completes a quorum. */
  function Answered(s: Standing, c: Configuration, from: NodeID): Standing {
    if |s.waiting| != 1 then s
    else
      var all := s.waiting[0].acks + {from};
      if Quorum(c, all) then Standing([], s.confirmed + [ReadState(s.waiting[0].id, s.waiting[0].index)])
      else Standing([s.waiting[0].(acks := all)], s.confirmed)
  }

  /** The first request with this number, and there is no other. */
  lemma WaitingAlone(pending: seq<ReadRequest>, k: nat, id: nat)
    requires k < |pending| && pending[k].id == id && |Waiting(pending, id)| <= 1
    requires forall j :: 0 <= j < k ==> pending[j].id != id
    ensures Waiting(pending, id) == [pending[k]]
    ensures Waiting(pending[..k], id) == [] && Waiting(pending[k + 1..], id) == []
  {
    hide Waiting;
    NoneWaiting(pending[..k], id);
    WaitingAround(pending, k, pending[k], id);
    OneWaiting(pending[k], id);
    assert Waiting(pending, id) == [pending[k]] + Waiting(pending[k + 1..], id);
  }

  lemma AckCounts(n: Node, from: NodeID, id: nat)
    requires |Waiting(n.pendingReads, id)| <= 1
    ensures StandingOf(AckRead(n, from, id), id) == Answered(StandingOf(n, id), n.conf, from)
  {
    hide Quorum, Waiting, Confirmed, FindRead;
    var pending := n.pendingReads;
    var k := FindRead(pending, id);
    if k == |pending| {
      NoneWaiting(pending, id);
    } else {
      var req := pending[k].(acks := pending[k].acks + {from});
      WaitingAlone(pending, k, id);
      WaitingAround(pending, k, req, id);
      OneWaiting(req, id);
      ConfirmedAppend(n.readStates, [ReadState(req.id, req.index)], id);
      OneConfirmed(ReadState(req.id, req.index), id);
    }
  }

  lemma OthersStand(n: Node, from: NodeID, other: nat, id: nat)
    requires other != id
    ensures StandingOf(AckRead(n, from, other), id) == StandingOf(n, id)
  {
    hide Quorum, Waiting, Confirmed, FindRead;
    var pending := n.pendingReads;
    var k := FindRead(pending, other);
    if k < |pending| {
      var req := pending[k].(acks := pending[k].acks + {from});
      WaitingAround(pending, k, req, id);
      OneWaiting(pending[k], id);
      OneWaiting(req, id);
      ConfirmedAppend(n.readStates, [ReadState(req.id, req.index)], id);
      OneConfirmed(ReadState(req.id, req.index), id);
    }
  }

  /** A node that answers reads: it leads, and has committed an entry of its own term. */
  predicate Serves(n: Node) {
    n.role == Leader && 0 < n.committed <= |n.log| && n.log[n.committed - 1].term == n.term
  }

  /** What asking does: the read is confirmed at once if the node alone is a quorum, and otherwise begins to wait. */
  lemma AskedStands(n: Node, id: nat)
    requires Serves(n) && n.floor <= n.committed && StandingOf(n, id) == Standing([], [])
    ensures StandingOf(ReadIndex(n, id), id)
         == if Quorum(n.conf, {n.id}) then Standing([], [ReadState(id, n.committed)])
            else Standing([ReadRequest(id, n.committed, {n.id})], [])
  {
    hide Quorum, SendAll;
    var req := ReadRequest(id, n.committed, {n.id});
    WaitingAppend(n.pendingReads, [req], id);
    OneWaiting(req, id);
    ConfirmedAppend(n.readStates, [ReadState(id, n.committed)], id);
    OneConfirmed(ReadState(id, n.committed), id);
  }

  lemma AskingOther(n: Node, other: nat, id: nat)
    requires other != id
    ensures StandingOf(ReadIndex(n, other), id) == StandingOf(n, id)
  {
    hide Quorum, SendAll, Waiting, Confirmed;
    var req := ReadRequest(other, n.committed, {n.id});
    WaitingAppend(n.pendingReads, [req], id);
    OneWaiting(req, id);
    ConfirmedAppend(n.readStates, [ReadState(other, n.committed)], id);
    OneConfirmed(ReadState(other, n.committed), id);
  }

  // ---------------------------------------------------------------------------
  // One step of a cluster
  // ---------------------------------------------------------------------------

  /** Is this event an answer to the read, in the leader's term and from a node it keeps track of? */
  predicate IsAnswer(n: Node, e: Event, id: nat) {
    && e.Receives? && e.m.AppendResp? && e.m.readId == id && e.m.term == n.term && e.m.from in n.progress
  }

  lemma CountedStands(n: Node, m: Message, id: nat)
    requires id != 0 && n.role == Leader && |Waiting(n.pendingReads, id)| <= 1
    ensures StandingOf(if m.term == n.term then Counted(n, m) else n, id)
         == if IsAnswer(n, Receives(m), id) then Answered(StandingOf(n, id), n.conf, m.from) else StandingOf(n, id)
  {
    hide StandingOf, Answered, AckRead;
    if m.AppendResp? && m.from in n.progress && m.readId != 0 {
      if m.readId == id { AckCounts(n, m.from, id); } else { OthersStand(n, m.from, m.readId, id); }
    }
  }

  lemma SameReads(n: Node, r: Node, id: nat)
    requires r.pendingReads == n.pendingReads && r.readStates == n.readStates
    ensures StandingOf(r, id) == StandingOf(n, id)
  {}

  /** While a node leads, a read changes where it stands only when it is answered, or when the caller collects the
      confirmations. */
  lemma LeaderTurn(h: Hist, c: Cluster, a: NodeID, e: Event, id: nat)
    requires ClusterOK(h, c) && Enabled(c, a, e) && LeadsItself(c.members[a].node)
    requires id != 0 && |Waiting(c.members[a].node.pendingReads, id)| <= 1
    requires !(e.Reads? && c.members[a].readSeq + 1 == id)
    ensures var n, r := c.members[a].node, After(c.members[a], e).node;
            n.role == Leader && r.role == Leader ==>
              StandingOf(r, id) == if IsAnswer(n, e, id) then Answered(StandingOf(n, id), n.conf, e.m.from)
                                   else if e.Confirms? then Standing(StandingOf(n, id).waiting, [])
                                   else StandingOf(n, id)
  {
    hide OK, MsgOK, AppOK, SeqOK, Step, Tick, Campaign, Propose, ReadIndex, ProposeConfChange, CreateSnapshot, Restart;
    hide CleanInstall, CrashPoint, Sized, Consistent, Snapshots, EntriesToApply, StandingOf, Answered, Counted;
    var mem := c.members[a];
    var n, r := mem.node, After(mem, e).node;
    assert MemberOK(h, a, mem);
    OwnVote(h, n);
    if n.role == Leader && r.role == Leader {
      match e {
        case Receives(m) =>
          SentByAnother(h, m);
          StepTenure(n, m);
          CountedStands(n, m, id);
          SameReads(if m.term == n.term then Counted(n, m) else n, r, id);
        case Ticks => TickTenure(n); SameReads(n, r, id);
        case Writes(bytes) => ProposeTenure(n, Command(bytes)); SameReads(n, r, id);
        case Reads => AskingOther(n, mem.readSeq + 1, id);
        case Reconfigures(target) => ChangeTenure(n, target); SameReads(n, r, id);
        case Confirms => Collected(n, id);
        case Compacts => Steady.CreatedShape(n, mem.app); SameReads(n, r, id);
        case Crashes(disk) => RestartRole(disk);
        case _ => SameReads(n, r, id);
      }
    }
  }

  lemma Collected(n: Node, id: nat)
    ensures StandingOf(n.(readStates := []), id) == Standing(StandingOf(n, id).waiting, [])
  {}

  // ---------------------------------------------------------------------------
  // Whole runs
  // ---------------------------------------------------------------------------

  /** At step `l`, does the member receive an answer to the read? */
  predicate AnswerAt(r: Run, l: nat, a: NodeID, id: nat) {
    l < |r.who| && l < |r.what| && At(r, l, a) && r.who[l] == a && IsAnswer(NodeAt(r, l, a), r.what[l], id)
  }

  /** The member itself, and everyone who has answered its read between two moments. */
  function Voices(r: Run, a: NodeID, id: nat, i: nat, j: nat): set<NodeID> {
    {a} + set l | i < l < j && AnswerAt(r, l, a, id) :: r.what[l].m.from
  }

  /** Does step `l` complete a quorum of the configuration then in force, for a read asked at step `i`? */
  predicate Completes(r: Run, a: NodeID, id: nat, i: nat, l: nat) {
    && i <= l && At(r, l, a) && (l == i || AnswerAt(r, l, a, id))
    && Quorum(NodeAt(r, l, a).conf, Voices(r, a, id, i, l + 1))
  }

  ghost predicate Collects(r: Run, a: NodeID, i: nat, j: nat) {
    exists k :: i <= k < j && k < |r.who| && k < |r.what| && r.who[k] == a && r.what[k].Confirms?
  }

  /** At step `i`, a member that serves reads is asked. */
  predicate AsksAt(r: Run, i: nat, a: NodeID) {
    && |r.states| == |r.who| + 1 == |r.what| + 1 && i < |r.who| && At(r, i, a)
    && r.who[i] == a && r.what[i] == Reads && Serves(NodeAt(r, i, a))
  }

  /** The number a read asked at step `i` gets. */
  function NumberAt(r: Run, i: nat, a: NodeID): nat
    requires At(r, i, a)
  {
    r.states[i].members[a].readSeq + 1
  }

  /** A member that leads the same term at two moments has led it all the while. */
  lemma LedBefore(boot: Configuration, r: Run, i: nat, j: nat, a: NodeID)
    requires IsRun(boot, r) && At(r, i, a) && i < j && At(r, j, a)
    requires NodeAt(r, i, a).role == Leader && NodeAt(r, j, a).role == Leader
             && NodeAt(r, i, a).term == NodeAt(r, j, a).term
    ensures At(r, j - 1, a) && NodeAt(r, j - 1, a).role == Leader && NodeAt(r, j - 1, a).term == NodeAt(r, i, a).term
    ensures LeadsItself(NodeAt(r, j - 1, a))
  {
    hide IsRun;
    RunLength(boot, r);
    StandsOnce(boot, r, i, j - 1, a);
    NeverBack(boot, r, i, j - 1, a);
    NeverBack(boot, r, j - 1, j, a);
    AlwaysLeadsItself(boot, r, j - 1, a);
    StepRoles(boot, r, j - 1, a);
  }

  /** One step of a leader, seen from one of its reads. */
  lemma LeaderMoment(boot: Configuration, r: Run, k: nat, a: NodeID, id: nat)
    requires IsRun(boot, r) && |r.states| == |r.who| + 1 == |r.what| + 1
    requires k < |r.who| && At(r, k, a) && At(r, k + 1, a)
    requires LeadsItself(NodeAt(r, k, a)) && NodeAt(r, k, a).role == Leader && NodeAt(r, k + 1, a).role == Leader
    requires 0 < id <= r.states[k].members[a].readSeq && |Waiting(NodeAt(r, k, a).pendingReads, id)| <= 1
    ensures id <= r.states[k + 1].members[a].readSeq
    ensures var n, n' := NodeAt(r, k, a), NodeAt(r, k + 1, a);
            StandingOf(n', id) == if AnswerAt(r, k, a, id) then Answered(StandingOf(n, id), n.conf, r.what[k].m.from)
                                  else if r.who[k] == a && r.what[k].Confirms?
                                  then Standing(StandingOf(n, id).waiting, [])
                                  else StandingOf(n, id)
  {
    hide Init, Enabled, After, ClusterOK, StandingOf, Answered, IsAnswer;
    var hs := Explained(boot, r);
    assert StepAt(r, k);
    if r.who[k] == a {
      EnabledMember(r.states[k], a, r.what[k]);
      LeaderTurn(hs[k], r.states[k], a, r.what[k], id);
      CountStays(r.states[k].members[a], r.what[k]);
    }
  }

  lemma CountStays(mem: Member, e: Event)
    requires Sized(mem.node) && mem.node.committed <= |mem.node.log|
    ensures After(mem, e).readSeq >= mem.readSeq || After(mem, e).node.role == Follower
  {
    hide Step, Tick, Campaign, Propose, ReadIndex, ProposeConfChange, CreateSnapshot, Restart, EntriesToApply, ApplyTo;
    match e {
      case Crashes(disk) => RestartRole(disk);
      case _ =>
    }
  }

  /** A leader's next read has a number that none of its reads has. */
  lemma NextNumberIsNew(h: Hist, mem: Member)
    requires OK(h, mem.node) && SeqOK(h, mem.node, mem.readSeq) && mem.node.role == Leader
    ensures StandingOf(mem.node, mem.readSeq + 1) == Standing([], [])
  {
    hide Consistent, LogPart, VotePart, CandPart, AckPart, LeaderPart, Settled, DiskPart, ConfPart, MsgsPart;
    var n, id := mem.node, mem.readSeq + 1;
    forall i | 0 <= i < |n.pendingReads| ensures n.pendingReads[i].id != id {
      assert n.pendingReads[i] in n.pendingReads;
    }
    forall i | 0 <= i < |n.readStates| ensures n.readStates[i].id != id {
      assert n.readStates[i] in n.readStates;
    }
    NoneWaiting(n.pendingReads, id);
    NoneConfirmed(n.readStates, id);
  }

  lemma AskMoment(boot: Configuration, r: Run, i: nat, a: NodeID)
    requires IsRun(boot, r) && AsksAt(r, i, a)
    ensures At(r, i + 1, a) && r.states[i + 1].members[a].readSeq == NumberAt(r, i, a)
    ensures var n, id := NodeAt(r, i, a), NumberAt(r, i, a);
            StandingOf(NodeAt(r, i + 1, a), id) ==
              if Quorum(n.conf, {a}) then Standing([], [ReadState(id, n.committed)])
              else Standing([ReadRequest(id, n.committed, {a})], [])
  {
    hide Init, ReadIndex, StandingOf, OK, AppOK, SeqOK, Quorum, MsgOK, Consistent;
    var hs := Explained(boot, r);
    assert StepAt(r, i);
    var mem := r.states[i].members[a];
    assert MemberOK(hs[i], a, mem);
    NextNumberIsNew(hs[i], mem);
    OKFacts(hs[i], mem.node);
    AskedStands(mem.node, mem.readSeq + 1);
  }

  /** No step before `j` has completed a quorum for the read. */
  ghost predicate NoneYet(r: Run, a: NodeID, id: nat, i: nat, j: nat) {
    forall l: nat :: i <= l < j ==> !Completes(r, a, id, i, l)
  }

  ghost predicate FirstComplete(r: Run, a: NodeID, id: nat, i: nat, l: nat) {
    Completes(r, a, id, i, l) && NoneYet(r, a, id, i, l)
  }

  /** Where the read should stand at moment `j`: waiting, with every answer counted, until the first step that completes
      a quorum; confirmed from then on, until the caller collects it. */
  ghost predicate AsAnswered(r: Run, a: NodeID, id: nat, index: Index, i: nat, j: nat, s: Standing) {
    && (NoneYet(r, a, id, i, j) ==> s == Standing([ReadRequest(id, index, Voices(r, a, id, i, j))], []))
    && (forall l: nat :: FirstComplete(r, a, id, i, l) && l < j ==>
          s == Standing([], if Collects(r, a, l + 1, j) then [] else [ReadState(id, index)]))
  }

  lemma VoicesStep(r: Run, a: NodeID, id: nat, i: nat, k: nat)
    requires i < k
    ensures Voices(r, a, id, i, k + 1)
         == if AnswerAt(r, k, a, id) then Voices(r, a, id, i, k) + {r.what[k].m.from} else Voices(r, a, id, i, k)
  {
    if AnswerAt(r, k, a, id) { assert r.what[k].m.from in Voices(r, a, id, i, k + 1); }
  }

  lemma NoVoices(r: Run, a: NodeID, id: nat, i: nat)
    ensures Voices(r, a, id, i, i + 1) == {a}
  {}

  lemma {:induction false} SomeFirst(r: Run, a: NodeID, id: nat, i: nat, j: nat) returns (l: nat)
    requires !NoneYet(r, a, id, i, j)
    ensures l < j && FirstComplete(r, a, id, i, l)
    decreases j
  {
    hide Completes;
    l :| i <= l < j && Completes(r, a, id, i, l);
    if !NoneYet(r, a, id, i, l) { l := SomeFirst(r, a, id, i, l); }
  }

  lemma FirstIsOne(r: Run, a: NodeID, id: nat, i: nat, l: nat, k: nat)
    requires FirstComplete(r, a, id, i, l) && FirstComplete(r, a, id, i, k)
    ensures l == k
  {}

  lemma CollectsStep(r: Run, a: NodeID, i: nat, k: nat)
    requires i <= k < |r.who| && k < |r.what|
    ensures Collects(r, a, i, k + 1) <==> Collects(r, a, i, k) || (r.who[k] == a && r.what[k].Confirms?)
    ensures !Collects(r, a, k + 1, k + 1)
  {}

  lemma StillWaiting(r: Run, a: NodeID, id: nat, index: Index, i: nat, k: nat, s: Standing, s': Standing)
    requires i < k < |r.who| && k < |r.what| && At(r, k, a) && NoneYet(r, a, id, i, k)
    requires s == Standing([ReadRequest(id, index, Voices(r, a, id, i, k))], [])
    requires s' == if AnswerAt(r, k, a, id) then Answered(s, NodeAt(r, k, a).conf, r.what[k].m.from) else s
    ensures AsAnswered(r, a, id, index, i, k + 1, s')
  {
    hide Voices, Quorum, AnswerAt, Collects;
    VoicesStep(r, a, id, i, k);
    CollectsStep(r, a, k + 1 - 1, k);
    if Completes(r, a, id, i, k) {
      assert FirstComplete(r, a, id, i, k);
      forall l: nat | FirstComplete(r, a, id, i, l) && l < k + 1 ensures l == k { FirstIsOne(r, a, id, i, l, k); }
    }
  }

  lemma StillConfirmed(r: Run, a: NodeID, id: nat, index: Index, i: nat, k: nat, s: Standing, s': Standing)
    requires i < k < |r.who| && k < |r.what| && At(r, k, a) && !NoneYet(r, a, id, i, k)
    requires AsAnswered(r, a, id, index, i, k, s)
    requires s' == if AnswerAt(r, k, a, id) then Answered(s, NodeAt(r, k, a).conf, r.what[k].m.from)
                   else if r.who[k] == a && r.what[k].Confirms? then Standing(s.waiting, [])
                   else s
    ensures AsAnswered(r, a, id, index, i, k + 1, s')
  {
    hide Voices, Quorum, AnswerAt, Collects, Completes, IsAnswer;
    var l := SomeFirst(r, a, id, i, k);
    AnswersAreMail(r, k, a, id);
    CollectsStep(r, a, l + 1, k);
    forall o: nat | FirstComplete(r, a, id, i, o) && o < k + 1 ensures o == l { FirstIsOne(r, a, id, i, o, l); }
  }

  lemma AnswersAreMail(r: Run, k: nat, a: NodeID, id: nat)
    requires k < |r.what|
    ensures AnswerAt(r, k, a, id) ==> !r.what[k].Confirms?
  {}

  lemma JustAsked(r: Run, a: NodeID, id: nat, index: Index, i: nat, s: Standing)
    requires At(r, i, a)
    requires s == if Quorum(NodeAt(r, i, a).conf, {a}) then Standing([], [ReadState(id, index)])
                  else Standing([ReadRequest(id, index, {a})], [])
    ensures AsAnswered(r, a, id, index, i, i + 1, s)
  {
    hide Voices, Quorum, AnswerAt;
    NoVoices(r, a, id, i);
    assert Completes(r, a, id, i, i) <==> Quorum(NodeAt(r, i, a).conf, {a});
    if Quorum(NodeAt(r, i, a).conf, {a}) {
      assert FirstComplete(r, a, id, i, i);
      forall l: nat | FirstComplete(r, a, id, i, l) && l < i + 1 ensures l == i { FirstIsOne(r, a, id, i, l, i); }
    }
  }

  lemma OneOrNone(r: Run, a: NodeID, id: nat, index: Index, i: nat, k: nat, s: Standing)
    requires AsAnswered(r, a, id, index, i, k, s)
    ensures |s.waiting| <= 1
    ensures NoneYet(r, a, id, i, k) ==> s == Standing([ReadRequest(id, index, Voices(r, a, id, i, k))], [])
  {
    hide Voices, Collects;
    if !NoneYet(r, a, id, i, k) { var l := SomeFirst(r, a, id, i, k); }
  }

  /** In every run, for a read asked of a member that serves reads, at every later moment at which it leads the same
      term: until some step completes a quorum, of the configuration in force at that step, of the member and those
      whose answers have arrived, the read waits. The first step that does confirms it with the commit index of the
      moment it was asked at. No other step confirms it, and it stays confirmed until the caller collects it. */
  lemma {:induction false} ReadsAreConfirmed(boot: Configuration, r: Run, i: nat, j: nat, a: NodeID)
    requires IsRun(boot, r) && AsksAt(r, i, a) && i < j && At(r, j, a)
    requires NodeAt(r, j, a).role == Leader && NodeAt(r, j, a).term == NodeAt(r, i, a).term
    ensures NumberAt(r, i, a) <= r.states[j].members[a].readSeq
    ensures var id := NumberAt(r, i, a);
            AsAnswered(r, a, id, NodeAt(r, i, a).committed, i, j, StandingOf(NodeAt(r, j, a), id))
    decreases j
  {
    hide IsRun, StandingOf, Quorum, Voices, AsAnswered, AnswerAt, NoneYet, Answered;
    var id, index := NumberAt(r, i, a), NodeAt(r, i, a).committed;
    if j == i + 1 {
      AskMoment(boot, r, i, a);
      JustAsked(r, a, id, index, i, StandingOf(NodeAt(r, j, a), id));
    } else {
      LedBefore(boot, r, i, j, a);
      var k := j - 1;
      ReadsAreConfirmed(boot, r, i, k, a);
      var s, s' := StandingOf(NodeAt(r, k, a), id), StandingOf(NodeAt(r, j, a), id);
      OneOrNone(r, a, id, index, i, k, s);
      WaitingIs(NodeAt(r, k, a), id);
      LeaderMoment(boot, r, k, a, id);
      if NoneYet(r, a, id, i, k) {
        StillWaiting(r, a, id, index, i, k, s, s');
      } else {
        StillConfirmed(r, a, id, index, i, k, s, s');
      }
    }
  }

  lemma WaitingIs(n: Node, id: nat)
    ensures StandingOf(n, id).waiting == Waiting(n.pendingReads, id)
  {}

  /** A member that does not serve reads turns them away. */
  lemma OthersTurnAway(boot: Configuration, r: Run, i: nat, a: NodeID)
    requires IsRun(boot, r) && |r.states| == |r.who| + 1 == |r.what| + 1 && i < |r.who| && At(r, i, a)
    requires r.who[i] == a && r.what[i] == Reads && !Serves(NodeAt(r, i, a))
    ensures At(r, i + 1, a) && NodeAt(r, i + 1, a) == NodeAt(r, i, a)
  {
    hide Init, Quorum, SendAll;
    assert StepAt(r, i);
  }
}
