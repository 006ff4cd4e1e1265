/** The loop that drives a node, and the clients waiting on it (node/node.go). */
module Driver {
  import opened Configurations
  import opened RaftTypes
  import opened RaftNode
  import opened RawNodes
  import opened Steady
  import opened Clusters
  import opened Runs

  /** What a client is told about its proposal. */
  datatype Reply = Succeeded(entry: Entry) | Dropped | NotAccepted | Stopped

  datatype Awaiting = Awaiting(term: Term, id: nat)

  datatype Answered = Answered(id: nat, reply: Reply)

  type Waiting = map<Index, Awaiting>

  // ---------------------------------------------------------------------------
  // Keeping the books
  // ---------------------------------------------------------------------------

  predicate Waits(pending: Waiting, id: nat) { exists k :: k in pending && pending[k].id == id }

  predicate HasAnswer(answers: seq<Answered>, id: nat) { exists j :: 0 <= j < |answers| && answers[j].id == id }

  /** Every proposal taken so far either waits, once, or has been answered, once. */
  ghost predicate Balanced(pending: Waiting, answers: seq<Answered>, taken: nat) {
    && (forall j :: 0 <= j < |answers| ==> answers[j].id < taken)
    && (forall i, j :: 0 <= i < j < |answers| ==> answers[i].id != answers[j].id)
    && (forall k :: k in pending ==> pending[k].id < taken && !HasAnswer(answers, pending[k].id))
    && (forall k, l :: k in pending && l in pending && k != l ==> pending[k].id != pending[l].id)
    && (forall id :: 0 <= id < taken ==> Waits(pending, id) || HasAnswer(answers, id))
  }

  /** Who waits, waits at the index and term its entry was given; who was told of success was told of an entry
      at that index and term. */
  ghost predicate Honest(pending: Waiting, answers: seq<Answered>, given: map<nat, Entry>) {
    && (forall k :: k in pending ==> var w := pending[k];
      w.id in given && given[w.id].index == k && given[w.id].term == w.term)
    && (forall j :: 0 <= j < |answers| && answers[j].reply.Succeeded? ==>
          var a := answers[j];
            a.id in given && a.reply.entry.index == given[a.id].index && a.reply.entry.term == given[a.id].term)
  }

  /** Taking a client off the waiting list and answering it. */
  lemma Moved(pending: Waiting, answers: seq<Answered>, taken: nat, k: Index, reply: Reply)
    requires Balanced(pending, answers, taken) && k in pending
    ensures Balanced(pending - {k}, answers + [Answered(pending[k].id, reply)], taken)
  {
    var p, a := pending - {k}, answers + [Answered(pending[k].id, reply)];
    forall l | l in p ensures !HasAnswer(a, p[l].id) {
      StillUnanswered(answers, Answered(pending[k].id, reply), p[l].id);
    }
    forall i, j | 0 <= i < j < |a| ensures a[i].id != a[j].id {
      if j == |answers| { assert !HasAnswer(answers, pending[k].id); }
    }
    forall id | 0 <= id < taken ensures Waits(p, id) || HasAnswer(a, id) {
      if id == pending[k].id {
        assert a[|answers|].id == id;
      } else if HasAnswer(answers, id) {
        var j :| 0 <= j < |answers| && answers[j].id == id;
        assert a[j].id == id;
      } else {
        var l :| l in pending && pending[l].id == id;
        assert l in p && p[l].id == id;
      }
    }
  }

  lemma StillUnanswered(answers: seq<Answered>, x: Answered, id: nat)
    requires !HasAnswer(answers, id) && x.id != id
    ensures !HasAnswer(answers + [x], id)
  {}

  lemma MovedHonestly(pending: Waiting, answers: seq<Answered>, given: map<nat, Entry>, k: Index, reply: Reply)
    requires Honest(pending, answers, given) && k in pending
    requires reply.Succeeded? ==> reply.entry.index == k && reply.entry.term == pending[k].term
    ensures Honest(pending - {k}, answers + [Answered(pending[k].id, reply)], given)
  {}

  /** A new proposal that is refused on the spot. */
  lemma TakenAndAnswered(pending: Waiting, answers: seq<Answered>, taken: nat, reply: Reply)
    requires Balanced(pending, answers, taken)
    ensures Balanced(pending, answers + [Answered(taken, reply)], taken + 1)
  {
    var a := answers + [Answered(taken, reply)];
    forall k | k in pending ensures !HasAnswer(a, pending[k].id) {
      StillUnanswered(answers, Answered(taken, reply), pending[k].id);
    }
    forall id | 0 <= id < taken + 1 ensures Waits(pending, id) || HasAnswer(a, id) {
      if id == taken {
        assert a[|answers|].id == id;
      } else if HasAnswer(answers, id) {
        var j :| 0 <= j < |answers| && answers[j].id == id;
        assert a[j].id == id;
      }
    }
  }

  /** A new proposal that has to wait, at an index nobody waits at. */
  lemma TakenAndWaiting(pending: Waiting, answers: seq<Answered>, taken: nat, k: Index, t: Term)
    requires Balanced(pending, answers, taken) && k !in pending
    ensures Balanced(pending[k := Awaiting(t, taken)], answers, taken + 1)
  {
    var p := pending[k := Awaiting(t, taken)];
    forall id | 0 <= id < taken + 1 ensures Waits(p, id) || HasAnswer(answers, id) {
      if id == taken {
        assert p[k].id == id;
      } else if !HasAnswer(answers, id) {
        var l :| l in pending && pending[l].id == id;
        assert l in p && p[l].id == id;
      }
    }
  }

  lemma AnsweredHonestly(pending: Waiting, answers: seq<Answered>, given: map<nat, Entry>, x: Answered)
    requires Honest(pending, answers, given) && !x.reply.Succeeded?
    ensures Honest(pending, answers + [x], given)
  {}

  lemma WaitingHonestly(pending: Waiting, answers: seq<Answered>, given: map<nat, Entry>, taken: nat, e: Entry)
    requires Balanced(pending, answers, taken) && Honest(pending, answers, given)
    ensures Honest(pending[e.index := Awaiting(e.term, taken)], answers, given[taken := e])
  {}

  lemma SameAfterRefusal(n: Node, bytes: seq<Byte>)
    requires Sized(n) && n.role != Leader
    ensures Propose(n, Command(bytes)) == n
  {
    hide AppendOwn;
  }

  /** An accepted proposal is in the log of the leader that accepted it. */
  lemma ProposeGrows(n: Node, p: Payload)
    requires Sized(n) && n.role == Leader && n.committed <= |n.log| && Propose(n, p).role == Leader
    ensures |n.log| < |Propose(n, p).log|
  {
    hide MaybeAdvanceCommit, SendAll, Rescan;
    var n1 := AppendOwn(n, p);
    MaybeAdvanceCommitOnward(n1);
    MaybeAdvanceCommitTerm(n1);
  }

  lemma AppliedKeeps(n: Node, i: Index)
    requires i <= n.committed
    ensures var r := ApplyTo(n, i);
            r == n.(applied := r.applied) && r.applied == if i > n.applied then i else n.applied
  {}

  /** Everyone told of success from position `from` on was told of an entry the state machine has consumed. */
  ghost predicate Shown(answers: seq<Answered>, from: nat, app: seq<Entry>) {
    forall j :: from <= j < |answers| && answers[j].reply.Succeeded? ==>
      var e := answers[j].reply.entry; 0 < e.index <= |app| && app[e.index - 1] == e
  }

  lemma ShownGrows(answers: seq<Answered>, from: nat, app: seq<Entry>, e: Entry, x: seq<Answered>)
    requires Shown(answers, from, app) && e.index == |app| + 1 && |x| <= 1
    requires x == [] || x[0].reply == Succeeded(e) || !x[0].reply.Succeeded?
    ensures Shown(answers + x, from, app + [e])
  {}

  /** Nobody waits for what has been consumed. */
  predicate Ahead(pending: Waiting, app: seq<Entry>) { forall k :: k in pending ==> k > |app| }

  lemma AheadStill(pending: Waiting, app: seq<Entry>, k: Index, w: Awaiting)
    requires Ahead(pending, app) && k > |app|
    ensures Ahead(pending[k := w], app)
  {}

  /** Of those who were waiting, everyone whose index has been consumed has been told: of success, if the entry there is
      of the term the proposal was given, and otherwise that it was dropped. The others still wait. */
  ghost predicate Informed(was: Waiting, pending: Waiting, answers: seq<Answered>, app: seq<Entry>) {
    forall k :: k in was ==>
      if 0 < k <= |app| then
        Answered(was[k].id, if was[k].term == app[k - 1].term then Succeeded(app[k - 1]) else Dropped) in answers
      else k in pending && pending[k] == was[k]
  }

  lemma NobodyInformed(pending: Waiting, answers: seq<Answered>, app: seq<Entry>)
    requires Ahead(pending, app)
    ensures Informed(pending, pending, answers, app)
  {}

  lemma InformedThen(was: Waiting, mid: Waiting, told: seq<Answered>, app: seq<Entry>, pending: Waiting,
                     answers: seq<Answered>, more: seq<Entry>)
    requires Informed(was, mid, told, app) && Informed(mid, pending, answers, more) && told <= answers && app <= more
    ensures Informed(was, pending, answers, more)
  {
    forall k | k in was && 0 < k <= |app| ensures app[k - 1] == more[k - 1] {}
  }

  lemma InformedLess(was: Waiting, more: Waiting, pending: Waiting, answers: seq<Answered>, app: seq<Entry>)
    requires Informed(more, pending, answers, app) && forall k :: k in was ==> k in more && more[k] == was[k]
    ensures Informed(was, pending, answers, app)
  {}

  lemma InformedStill(was: Waiting, pending: Waiting, told: seq<Answered>, answers: seq<Answered>, app: seq<Entry>)
    requires Informed(was, pending, told, app) && told <= answers
    ensures Informed(was, pending, answers, app)
  {}

  /** One entry consumed, and whoever waited for it answered. */
  lemma InformedOfOne(pending: Waiting, told: seq<Answered>, app: seq<Entry>, e: Entry, answers: seq<Answered>)
    requires Ahead(pending, app) && e.index == |app| + 1
    requires e.index in pending ==>
               var w := pending[e.index];
               answers == told + [Answered(w.id, if w.term == e.term then Succeeded(e) else Dropped)]
    ensures Ahead(pending - {e.index}, app + [e]) && Informed(pending, pending - {e.index}, answers, app + [e])
  {
    if e.index in pending { assert answers[|told|] in answers; }
  }

  lemma NothingShown(answers: seq<Answered>, app: seq<Entry>)
    ensures Shown(answers, |answers|, app)
  {}

  lemma ShownFailures(was: seq<Answered>, answers: seq<Answered>, app: seq<Entry>)
    requires was <= answers && forall j :: |was| <= j < |answers| ==> !answers[j].reply.Succeeded?
    ensures Shown(answers, |was|, app)
  {}

  /** Events of the loop's own making. */
  predicate Housekeeping(es: seq<Event>) {
    forall i :: 0 <= i < |es| ==> es[i].Sends? || es[i].Restores? || es[i].Applies? || es[i].Compacts?
  }

  /** The snapshot waiting to be restored, or else the state machine, covers what counts as applied. */
  predicate Level(n: Node, app: seq<Entry>) {
    n.applied == if n.toRestore.Some? then |n.toRestore.value.image| else |app|
  }

  lemma StepLevel(n: Node, m: Message, app: seq<Entry>)
    requires Sized(n) && n.toRestore.None? && Level(n, app) && (m.SnapReq? ==> WholeImage(m.snap))
    ensures Level(Step(n, m), app)
  {
    hide Step;
    StepOnward(n, m);
    if m.SnapReq? { InstallShape(n, m); }
  }

  /** A proposal a leader accepts is the next entry of its log. */
  function Offered(n: Node, bytes: seq<Byte>): Entry { Entry(|n.log| + 1, n.term, Command(bytes)) }

  /** Who waits once a proposal has been put. */
  function Queued(pending: Waiting, n: Node, bytes: seq<Byte>, id: nat): Waiting {
    if n.role == Leader then pending[Offered(n, bytes).index := Awaiting(n.term, id)] else pending
  }

  /** Only a follower has a snapshot to restore. */
  lemma LeadersRestoreNothing(n: Node, m: Message)
    requires Sized(n) && n.toRestore.None?
    ensures Step(n, m).role == Leader ==> Step(n, m).toRestore.None?
  {
    hide Dispatch, StepHigherTerm, StepLowerTerm, Sized;
    StepOnward(n, m);
    if m.SnapReq? {
      HigherOnward(n, m);
      if m.term > n.term { SnapshotAbove(n, m); }
      if m.term == n.term { MailIsInstalled(n, m); }
    }
  }

  lemma MailIsInstalled(n: Node, m: Message)
    requires Sized(n) && m.SnapReq?
    ensures Dispatch(n, m).role == Follower
  {
    hide HandleSnapshotRequest;
    SnapshotRole(n, m);
  }

  class NodeDriver {
    const rn: RawNode
    const maxApply: nat
    var pending: Waiting
    var answers: seq<Answered>
    var taken: nat
    var app: seq<Entry>
    var lastState: Role
    var lastTerm: Term
    /** The entry each proposal was given in the log. */
    ghost var given: map<nat, Entry>

    ghost predicate Kept()
      reads this
    {
      Balanced(pending, answers, taken) && Honest(pending, answers, given) && forall id :: id in given ==> id < taken
    }

    /** Nobody waits any more, and every proposal has been answered. */
    ghost predicate Abandoned()
      reads this
    {
      Kept() && pending == map[] && forall id :: 0 <= id < taken ==> HasAnswer(answers, id)
    }

    /** The member of a cluster that this process is. */
    ghost function Mem(): Member
      requires rn.Valid()
      reads this, rn, rn.log, rn.log.storage
    {
      Member(rn.View(), app, 0)
    }

    /** Between events: only a leader has clients waiting, all within its log. */
    ghost predicate Ready()
      reads this, rn, rn.log, rn.log.storage
    {
      && rn.Valid() && !rn.failed && Kept()
      && lastState == rn.role && lastTerm == rn.term
      && (pending != map[] ==> rn.role == Leader)
      && (forall k :: k in pending ==> k <= |rn.View().log|)
      && rn.toRestore.None? && Level(rn.View(), app) && Ahead(pending, app)
    }

    /** After an event, before its consequences have been dealt with. */
    ghost predicate Unsettled()
      reads this, rn, rn.log, rn.log.storage
    {
      && rn.Valid() && !rn.failed && Kept()
      && (pending != map[] ==> lastState == Leader)
      && (rn.role == Leader ==> forall k :: k in pending ==> k <= |rn.View().log|)
      && Level(rn.View(), app) && Ahead(pending, app)
    }

    /** Starts the state machine from the snapshot on disk, if there is one. */
    constructor (rn: RawNode, maxApply: nat)
      requires rn.Valid() && !rn.failed && rn.toRestore.None?
      requires rn.log.applied == rn.log.storage.snapshot.lastIndex == |rn.log.storage.snapshot.image|
      ensures Ready() && this.rn == rn && pending == map[] && answers == [] && taken == 0 && given == map[]
      ensures app == rn.log.storage.snapshot.image
    {
      this.rn, this.maxApply, this.app := rn, maxApply, rn.log.storage.snapshot.image;
      pending, answers, taken, given := map[], [], 0, map[];
      lastState, lastTerm := rn.role, rn.term;
    }

    /** Tells everyone who is waiting the same thing. */
    method FailPending(reply: Reply)
      requires Kept() && !reply.Succeeded?
      modifies this`pending, this`answers
      ensures Kept() && pending == map[] && old(answers) <= answers
      ensures forall j :: |old(answers)| <= j < |answers| ==> answers[j].reply == reply
    {
      hide Balanced, Honest;
      while pending != map[]
        invariant Kept() && old(answers) <= answers
        invariant forall j :: |old(answers)| <= j < |answers| ==> answers[j].reply == reply
        decreases |pending|
      {
        var k :| k in pending;
        Moved(pending, answers, taken, k, reply);
        MovedHonestly(pending, answers, given, k, reply);
        var w := pending[k];
        assert |pending - {k}| < |pending| by { assert (pending - {k}).Keys == pending.Keys - {k}; }
        pending, answers := pending - {k}, answers + [Answered(w.id, reply)];
      }
    }

    /** Answers whoever proposed the entry now being applied. */
    method Resolve(e: Entry)
      requires Kept()
      modifies this`pending, this`answers
      ensures Kept() && pending == old(pending) - {e.index}
      ensures e.index in old(pending) ==>
                var w := old(pending)[e.index];
                answers == old(answers) + [Answered(w.id, if w.term == e.term then Succeeded(e) else Dropped)]
      ensures e.index !in old(pending) ==> answers == old(answers)
    {
      hide Balanced, Honest;
      if e.index !in pending {
        return;
      }
      var w := pending[e.index];
      var reply := if w.term != e.term then Dropped else Succeeded(e);
      Moved(pending, answers, taken, e.index, reply);
      MovedHonestly(pending, answers, given, e.index, reply);
      pending, answers := pending - {e.index}, answers + [Answered(w.id, reply)];
    }

    /** Refuses a proposal on the spot, or leaves its client waiting for the entry it has become. */
    method HandlePropose(bytes: seq<Byte>)
      requires Ready()
      modifies this`pending, this`answers, this`taken, this`given, rn, rn.log, rn.log.storage
      ensures Kept() && rn.Valid() && (!rn.failed ==> Unsettled())
      ensures rn.View() == RaftNode.Propose(old(rn.View()), Command(bytes)) && taken == old(taken) + 1
      ensures if old(rn.role) == Leader
              then var e := Offered(old(rn.View()), bytes);
                   && answers == old(answers) && given == old(given)[old(taken) := e]
                   && pending == old(pending)[e.index := Awaiting(e.term, old(taken))]
              else && answers == old(answers) + [Answered(old(taken), NotAccepted)]
                   && given == old(given) && pending == old(pending)
    {
      hide Balanced, Honest, RaftNode.Propose, Ahead;
      ghost var n := rn.View();
      ProposeOnward(n, Command(bytes));
      var index, refused := rn.Propose(Command(bytes));
      if refused {
        TakenAndAnswered(pending, answers, taken, NotAccepted);
        SameAfterRefusal(n, bytes);
        AnsweredHonestly(pending, answers, given, Answered(taken, NotAccepted));
        answers, taken := answers + [Answered(taken, NotAccepted)], taken + 1;
        return;
      }
      ProposeTerm(n, Command(bytes));
      if rn.role == Leader { ProposeGrows(n, Command(bytes)); }
      TakenAndWaiting(pending, answers, taken, index, rn.term);
      AheadStill(pending, app, index, Awaiting(rn.term, taken));
      WaitingHonestly(pending, answers, given, taken, Entry(index, rn.term, Command(bytes)));
      given := given[taken := Entry(index, rn.term, Command(bytes))];
      pending, taken := pending[index := Awaiting(rn.term, taken)], taken + 1;
    }

    /** Feeds everything committed to the state machine, answering its proposers on the way. */
    method ApplyCommitted() returns (ghost steps: seq<Event>)
      requires rn.Valid() && !rn.failed && Kept() && rn.toRestore.None? && Level(rn.View(), app) && Ahead(pending, app)
      modifies this`pending, this`answers, this`app, rn, rn.log
      ensures rn.Valid() && !rn.failed && Kept() && pending.Keys <= old(pending.Keys)
      ensures Ahead(pending, app) && Informed(old(pending), pending, answers, app)
      ensures rn.View() == old(rn.View()).(applied := rn.View().applied) && rn.View().applied == rn.View().committed
      ensures app == old(app) + rn.View().log[old(rn.View()).applied..rn.View().committed] && Level(rn.View(), app)
      ensures old(answers) <= answers && Shown(answers, |old(answers)|, app)
      ensures Plays(old(Mem()), steps, Mem()) && Housekeeping(steps)
    {
      hide Balanced, Honest, After, Shown, Ahead, Informed;
      steps := [];
      NothingShown(answers, app);
      NobodyInformed(pending, answers, app);
      while rn.log.committed > rn.log.applied
        invariant rn.Valid() && !rn.failed && Kept() && pending.Keys <= old(pending.Keys)
        invariant rn.View() == old(rn.View()).(applied := rn.View().applied)
                  && old(rn.View()).applied <= rn.View().applied
        invariant app == old(app) + rn.View().log[old(rn.View()).applied..rn.View().applied] && Level(rn.View(), app)
        invariant old(answers) <= answers && Shown(answers, |old(answers)|, app)
        invariant Ahead(pending, app) && Informed(old(pending), pending, answers, app)
        invariant Plays(old(Mem()), steps, Mem()) && Housekeeping(steps)
        decreases rn.log.committed - rn.log.applied
      {
        ghost var mem, mid, told, fed := Mem(), pending, answers, app;
        ApplyBatch(|old(answers)|);
        InformedThen(old(pending), mid, told, fed, pending, answers, app);
        PlaysOne(mem, Applies(maxApply));
        PlaysOn(old(Mem()), steps, mem, [Applies(maxApply)], Mem());
        steps := steps + [Applies(maxApply)];
      }
    }

    method ApplyBatch(ghost from: nat)
      requires rn.Valid() && !rn.failed && Kept() && rn.toRestore.None? && Level(rn.View(), app)
      requires rn.log.applied < rn.log.committed && Shown(answers, from, app) && Ahead(pending, app)
      modifies this`pending, this`answers, this`app, rn, rn.log
      ensures rn.Valid() && !rn.failed && Kept() && pending.Keys <= old(pending.Keys)
      ensures Ahead(pending, app) && Informed(old(pending), pending, answers, app)
      ensures rn.View() == old(rn.View()).(applied := rn.View().applied)
      ensures old(rn.View()).applied < rn.View().applied <= rn.View().committed
      ensures app == old(app) + rn.View().log[old(rn.View()).applied..rn.View().applied] && Level(rn.View(), app)
      ensures old(answers) <= answers && Shown(answers, from, app)
      ensures Mem() == After(old(Mem()), Applies(maxApply))
    {
      hide Balanced, Honest, EntriesToApply, After, Shown, LogStore.Valid, Ahead, Informed;
      ghost var mem := Mem();
      var ents := rn.CommittedEntries(maxApply);
      BatchShape(mem.node, maxApply);
      ApplyAll(ents, from);
      AppliedKeeps(rn.View(), ents[|ents| - 1].index);
      rn.ApplyTo(ents[|ents| - 1].index);
      BatchApplied(mem, maxApply);
    }

    method ApplyAll(ents: seq<Entry>, ghost from: nat)
      requires Kept() && Shown(answers, from, app) && forall i :: 0 <= i < |ents| ==> ents[i].index == |app| + 1 + i
      requires Ahead(pending, app)
      modifies this`pending, this`answers, this`app
      ensures Kept() && app == old(app) + ents && pending.Keys <= old(pending.Keys)
      ensures old(answers) <= answers && Shown(answers, from, app)
      ensures Ahead(pending, app) && Informed(old(pending), pending, answers, app)
    {
      hide Balanced, Honest, Shown, Ahead, Informed;
      NobodyInformed(pending, answers, app);
      for i := 0 to |ents|
        invariant Kept() && app == old(app) + ents[..i] && pending.Keys <= old(pending.Keys)
        invariant old(answers) <= answers && Shown(answers, from, app)
        invariant Ahead(pending, app) && Informed(old(pending), pending, answers, app)
      {
        ghost var before, fed, mid := answers, app, pending;
        app := app + [ents[i]];
        Resolve(ents[i]);
        InformedOfOne(mid, before, fed, ents[i], answers);
        InformedThen(old(pending), mid, before, fed, pending, answers, app);
        ShownGrows(before, from, fed, ents[i], answers[|before|..]);
        assert before + answers[|before|..] == answers;
      }
      assert ents[..|ents|] == ents;
    }

    /** A snapshot that arrived replaces the state machine, and nobody can be told any more what became of a
        proposal. */
    method RestoreSnapshot()
      requires rn.Valid() && !rn.failed && Kept() && Level(rn.View(), app)
      modifies this`pending, this`answers, this`app, rn
      ensures rn.Valid() && !rn.failed && Kept() && old(answers) <= answers
      ensures forall j :: |old(answers)| <= j < |answers| ==> answers[j].reply == Dropped
      ensures rn.View() == old(rn.View()).(toRestore := None) && Level(rn.View(), app)
      ensures if old(rn.toRestore).Some? then app == old(rn.toRestore).value.image && pending == map[]
              else app == old(app) && pending == old(pending) && answers == old(answers)
    {
      hide Balanced, Honest;
      var snap := rn.SnapshotToApply();
      if snap.Some? {
        app := snap.value.image;
        FailPending(Dropped);
      }
    }

    /** Deals with everything an event brought about. */
    method Flush(wantSnapshot: bool) returns (sent: seq<Message>, ghost steps: seq<Event>)
      requires Unsettled()
      modifies this`pending, this`answers, this`app, this`lastState, this`lastTerm, rn, rn.log, rn.log.storage
      ensures Ready() && old(answers) <= answers && Shown(answers, |old(answers)|, app) && sent == old(rn.msgs)
      ensures old(rn.toRestore).None? && rn.role == Leader ==> Informed(old(pending), pending, answers, app)
      ensures rn.role == old(rn.role)
      ensures Plays(old(Mem()), steps, Mem()) && Housekeeping(steps)
    {
      hide Balanced, Honest, After, Shown, RaftNode.CreateSnapshot, Informed;
      sent, steps := Deliver();
      if wantSnapshot {
        ghost var mem := Mem();
        CreatedShape(rn.View(), app);
        rn.CreateSnapshot(app);
        CompactsIs(mem);
        PlaysOne(mem, Compacts);
        PlaysOn(old(Mem()), steps, mem, [Compacts], Mem());
        steps := steps + [Compacts];
      }
      ghost var told := answers;
      NoticeChange();
      ShownStill(old(answers), told, answers, app);
      if old(rn.toRestore).None? && rn.role == Leader { InformedStill(old(pending), pending, told, answers, app); }
    }

    /** Messages go out, a snapshot comes in, and what is committed is applied. */
    method Deliver() returns (sent: seq<Message>, ghost steps: seq<Event>)
      requires Unsettled()
      modifies this`pending, this`answers, this`app, rn, rn.log
      ensures Unsettled() && rn.toRestore.None? && old(answers) <= answers && Shown(answers, |old(answers)|, app)
              && sent == old(rn.msgs)
      ensures old(rn.toRestore).None? ==> Informed(old(pending), pending, answers, app)
      ensures rn.role == old(rn.role)
      ensures Plays(old(Mem()), steps, Mem()) && Housekeeping(steps)
    {
      hide Balanced, Honest, After, Shown, Informed;
      ghost var start := Mem();
      sent := rn.Messages();
      SendsIs(start);
      ghost var mem := Mem();
      RestoreSnapshot();
      RestoresIs(mem);
      ghost var next, told := Mem(), answers;
      steps := ApplyCommitted();
      PlaysOne(start, Sends);
      PlaysOne(mem, Restores);
      PlaysOn(start, [Sends], mem, [Restores], next);
      PlaysOn(start, [Sends] + [Restores], next, steps, Mem());
      steps := [Sends] + [Restores] + steps;
      ShownTogether(old(answers), told, answers, app);
    }

    /** A node that has stopped leading cannot say what became of the proposals it was holding. */
    method NoticeChange()
      requires Unsettled() && rn.toRestore.None?
      modifies this`pending, this`answers, this`lastState, this`lastTerm
      ensures Ready() && old(answers) <= answers
      ensures forall j :: |old(answers)| <= j < |answers| ==> answers[j].reply == Dropped
      ensures rn.role == Leader ==> pending == old(pending)
    {
      hide Balanced, Honest;
      if rn.role != lastState || rn.term != lastTerm {
        if lastState == Leader && rn.role != Leader {
          FailPending(Dropped);
        }
        lastState, lastTerm := rn.role, rn.term;
      }
    }

    /** A failure the node cannot continue from. */
    method Fatal()
      requires Kept()
      modifies this`pending, this`answers
      ensures Abandoned() && old(answers) <= answers
      ensures forall j :: |old(answers)| <= j < |answers| ==> answers[j].reply == Stopped
    {
      FailPending(Stopped);
      AllAnswered(answers, taken);
    }


    /** One turn of the loop: an event, then its consequences, or a stop. A stop leaves nobody waiting. */
    method OnMessage(m: Message, wantSnapshot: bool) returns (sent: seq<Message>, ghost steps: seq<Event>)
      requires Ready() && (m.SnapReq? ==> WholeImage(m.snap))
      modifies this`pending, this`answers, this`app, this`lastState, this`lastTerm, rn, rn.log, rn.log.storage
      ensures old(answers) <= answers && Shown(answers, |old(answers)|, app)
      ensures if rn.failed then Abandoned() else Ready()
      ensures !rn.failed && rn.role == Leader ==> Informed(old(pending), pending, answers, app)
      ensures rn.Valid() && Plays(old(Mem()), [Receives(m)] + steps, Mem()) && Housekeeping(steps)
    {
      hide Balanced, Honest, RaftNode.Step, After, Shown, Informed;
      ghost var mem := Mem();
      sent, steps := [], [];
      StepLevel(mem.node, m, app);
      rn.Step(m);
      ghost var mid := Mem();
      ReceivesIs(mem, m);
      PlaysOne(mem, Receives(m));
      if rn.failed {
        Fatal();
        ShownFailures(old(answers), answers, app);
        assert [Receives(m)] + steps == [Receives(m)];
        return;
      }
      if mem.node.role == Leader && rn.role == Leader { StepLeadsOn(mem.node, m); }
      LeadersRestoreNothing(mem.node, m);
      sent, steps := Flush(wantSnapshot);
      PlaysOn(mem, [Receives(m)], mid, steps, Mem());
    }

    method OnTick(wantSnapshot: bool) returns (sent: seq<Message>, ghost steps: seq<Event>)
      requires Ready()
      modifies this`pending, this`answers, this`app, this`lastState, this`lastTerm, rn, rn.log, rn.log.storage
      ensures old(answers) <= answers && Shown(answers, |old(answers)|, app)
      ensures if rn.failed then Abandoned() else Ready()
      ensures !rn.failed && rn.role == Leader ==> Informed(old(pending), pending, answers, app)
      ensures rn.Valid() && Plays(old(Mem()), [Ticks] + steps, Mem()) && Housekeeping(steps)
    {
      hide Balanced, Honest, RaftNode.Tick, After, Shown, Informed;
      ghost var mem := Mem();
      sent, steps := [], [];
      TickOnward(mem.node);
      rn.Tick();
      ghost var mid := Mem();
      TicksIs(mem);
      PlaysOne(mem, Ticks);
      if rn.failed {
        Fatal();
        ShownFailures(old(answers), answers, app);
        assert [Ticks] + steps == [Ticks];
        return;
      }
      if mem.node.role == Leader { TickKeepsLeading(mem.node); }
      sent, steps := Flush(wantSnapshot);
      PlaysOn(mem, [Ticks], mid, steps, Mem());
    }

    method OnPropose(bytes: seq<Byte>, wantSnapshot: bool) returns (sent: seq<Message>, ghost steps: seq<Event>)
      requires Ready()
      modifies this, rn, rn.log, rn.log.storage
      ensures old(answers) <= answers && Shown(answers, |old(answers)|, app) && taken == old(taken) + 1
      ensures if old(rn.role) == Leader then given == old(given)[old(taken) := Offered(old(rn.View()), bytes)]
              else given == old(given) && old(answers) + [Answered(old(taken), NotAccepted)] <= answers
      ensures if rn.failed then Abandoned() else Ready()
      ensures !rn.failed && rn.role == Leader ==>
                Informed(Queued(old(pending), old(rn.View()), bytes, old(taken)), pending, answers, app)
      ensures rn.Valid() && Plays(old(Mem()), [Writes(bytes)] + steps, Mem()) && Housekeeping(steps)
    {
      hide Balanced, Honest, RaftNode.Propose, After, Shown, Informed;
      ghost var mem := Mem();
      sent, steps := [], [];
      HandlePropose(bytes);
      ProposeOnward(mem.node, Command(bytes));
      ghost var told, mid, queued := answers, Mem(), pending;
      assert rn.toRestore.None? && queued == Queued(old(pending), old(rn.View()), bytes, old(taken));
      WritesIs(mem, bytes);
      PlaysOne(mem, Writes(bytes));
      if rn.failed {
        Fatal();
        ShownFailures(old(answers), answers, app);
        assert [Writes(bytes)] + steps == [Writes(bytes)];
        return;
      }
      sent, steps := Flush(wantSnapshot);
      PlaysOn(mem, [Writes(bytes)], mid, steps, Mem());
      ShownTogether(old(answers), told, answers, app);
    }

    method Stop()
      requires Ready()
      modifies this`pending, this`answers
      ensures Abandoned() && old(answers) <= answers
      ensures forall j :: |old(answers)| <= j < |answers| ==> answers[j].reply == Stopped
    {
      Fatal();
    }

    /** The loop, from one event to the next until it fails or is stopped. Nothing that was ever answered is taken back;
        each proposal is answered once, and what it was given in the log are its own bytes. What becomes of the process
        is what `steps` make of a member of a cluster: each proposal was given its entry by one of them, and each
        success is about an entry that was in the state machine after some of them. */
    method Loop(inputs: seq<Input>) returns (ghost steps: seq<Event>)
      requires Ready() && forall i :: 0 <= i < |inputs| ==> WellFormed(inputs[i])
      modifies this, rn, rn.log, rn.log.storage
      ensures Abandoned() && old(answers) <= answers
      ensures old(taken) <= taken <= old(taken) + |Offers(inputs)|
      ensures !rn.failed ==> taken == old(taken) + |Offers(inputs)|
      ensures Bound(old(given), given, old(taken), taken, Offers(inputs))
      ensures rn.Valid() && Plays(old(Mem()), steps, Mem()) && Driven(steps)
      ensures Accounted(old(Mem()), steps, |old(answers)|, answers, old(given), given)
    {
      hide Balanced, Honest, Bound, Plays, Accounted, Driven, Offers, Offer, Shown, GivenBy, WellFormed;
      NothingOffered();
      assert inputs[..0] == [];
      var i := 0;
      steps := [];
      NothingBound(given, taken);
      NothingDone(Mem(), answers, given);
      while i < |inputs| && !rn.failed
        invariant i <= |inputs| && old(answers) <= answers && taken == old(taken) + |Offers(inputs[..i])|
        invariant if rn.failed then Abandoned() else Ready()
        invariant Bound(old(given), given, old(taken), taken, Offers(inputs[..i]))
        invariant rn.Valid() && Plays(old(Mem()), steps, Mem()) && Driven(steps)
        invariant Accounted(old(Mem()), steps, |old(answers)|, answers, old(given), given)
      {
        OffersNext(inputs, i);
        ghost var was, id, told, mem := given, taken, answers, Mem();
        ghost var more := Turn(inputs[i]);
        BoundTogether(old(given), was, given, old(taken), taken, Offers(inputs[..i]), Offer(inputs[i]));
        AccountedTurn(old(Mem()), steps, mem, more, Mem(), |old(answers)|, told, answers, old(given), was, id,
                      given);
        PlaysOn(old(Mem()), steps, mem, more, Mem());
        steps := steps + more;
        i := i + 1;
      }
      OffersPrefix(inputs, i);
      BoundMore(old(given), given, old(taken), taken, Offers(inputs[..i]), Offers(inputs));
      if !rn.failed {
        ghost var told := answers;
        Stop();
        AccountedStop(old(Mem()), steps, |old(answers)|, told, answers, old(given), given);
      }
    }

    method Turn(x: Input) returns (ghost steps: seq<Event>)
      requires Ready() && WellFormed(x)
      modifies this, rn, rn.log, rn.log.storage
      ensures old(answers) <= answers && taken == old(taken) + |Offer(x)|
      ensures if rn.failed then Abandoned() else Ready()
      ensures Bound(old(given), given, old(taken), taken, Offer(x))
      ensures rn.Valid() && Plays(old(Mem()), steps, Mem()) && Driven(steps)
      ensures Shown(answers, |old(answers)|, app) && GivenBy(old(rn.View()), steps, old(given), old(taken), given)
      ensures !rn.failed && rn.role == Leader ==> Informed(old(pending), pending, answers, app)
    {
      hide Balanced, Honest, Shown, Plays, Informed;
      var sent;
      match x {
        case Arrives(m, want) =>
          sent, steps := OnMessage(m, want);
          steps := [Receives(m)] + steps;
        case Elapses(want) =>
          sent, steps := OnTick(want);
          steps := [Ticks] + steps;
        case Proposes(bytes, want) =>
          ghost var was, queued := pending, Queued(pending, rn.View(), bytes, taken);
          sent, steps := OnPropose(bytes, want);
          if !rn.failed && rn.role == Leader { InformedLess(was, queued, pending, answers, app); }
          steps := [Writes(bytes)] + steps;
      }
    }
  }

  /** What the loop waits for. */
  datatype Input = Arrives(m: Message, want: bool) | Elapses(want: bool) | Proposes(bytes: seq<Byte>, want: bool)

  predicate WellFormed(x: Input) { x.Arrives? && x.m.SnapReq? ==> WholeImage(x.m.snap) }

  function Offer(x: Input): seq<seq<Byte>> { if x.Proposes? then [x.bytes] else [] }

  /** The commands proposed, in order. */
  function Offers(inputs: seq<Input>): seq<seq<Byte>> {
    if inputs == [] then [] else Offers(inputs[..|inputs| - 1]) + Offer(inputs[|inputs| - 1])
  }

  lemma NothingOffered()
    ensures Offers([]) == []
  {}

  lemma OffersNext(inputs: seq<Input>, i: nat)
    requires i < |inputs|
    ensures Offers(inputs[..i + 1]) == Offers(inputs[..i]) + Offer(inputs[i])
  {
    assert inputs[..i + 1][..i] == inputs[..i] && inputs[..i + 1][i] == inputs[i];
  }

  lemma {:induction false} OffersPrefix(inputs: seq<Input>, i: nat)
    requires i <= |inputs|
    ensures Offers(inputs[..i]) <= Offers(inputs) && (i == |inputs| ==> Offers(inputs[..i]) == Offers(inputs))
    decreases |inputs| - i
  {
    if i == |inputs| {
      assert inputs[..i] == inputs;
    } else {
      OffersPrefix(inputs, i + 1);
      OffersNext(inputs, i);
    }
  }

  /** What proposals were given before stays, and a later one was given an entry with the bytes proposed. */
  ghost predicate Bound(was: map<nat, Entry>, given: map<nat, Entry>, first: nat, taken: nat, offers: seq<seq<Byte>>) {
    && (forall id :: id in was ==> id in given && given[id] == was[id])
    && (forall id :: id in given && id !in was ==>
          first <= id < taken && id - first < |offers| && given[id].payload == Command(offers[id - first]))
  }

  lemma NothingBound(given: map<nat, Entry>, taken: nat)
    ensures Bound(given, given, taken, taken, [])
  {}

  lemma BoundTogether(a: map<nat, Entry>, b: map<nat, Entry>, c: map<nat, Entry>, first: nat, taken: nat,
                      offers: seq<seq<Byte>>, more: seq<seq<Byte>>)
    requires Bound(a, b, first, first + |offers|, offers) && Bound(b, c, first + |offers|, taken, more)
    requires first + |offers| <= taken
    ensures Bound(a, c, first, taken, offers + more)
  {}

  lemma BoundMore(was: map<nat, Entry>, given: map<nat, Entry>, first: nat, taken: nat, offers: seq<seq<Byte>>,
                  more: seq<seq<Byte>>)
    requires Bound(was, given, first, taken, offers) && offers <= more
    ensures Bound(was, given, first, taken, more)
  {}

  // ---------------------------------------------------------------------------
  // The loop's account of itself
  // ---------------------------------------------------------------------------

  /** Events the loop brings about. */
  predicate Driven(es: seq<Event>) {
    forall i :: 0 <= i < |es| ==>
      es[i].Receives? || es[i].Ticks? || es[i].Writes? || es[i].Sends? || es[i].Restores? || es[i].Applies? ||
      es[i].Compacts?
  }

  /** A turn gives out one entry, the one a leader offers for the command it begins with, or none. */
  ghost predicate GivenBy(n: Node, steps: seq<Event>, was: map<nat, Entry>, id: nat, given: map<nat, Entry>) {
    || given == was
    || (steps != [] && steps[0].Writes? && n.role == Leader && given == was[id := Offered(n, steps[0].bytes)])
  }

  /** After `p` steps the member was `mem`, a leader, and the next step gave a command the entry `e`. */
  ghost predicate WroteAfter(start: Member, steps: seq<Event>, p: nat, mem: Member, e: Entry) {
    && p < |steps| && Plays(start, steps[..p], mem)
    && steps[p].Writes? && mem.node.role == Leader && e == Offered(mem.node, steps[p].bytes)
  }

  /** After `p` steps the member was `mem`, and its state machine had consumed `e`. */
  ghost predicate ConsumedAfter(start: Member, steps: seq<Event>, p: nat, mem: Member, e: Entry) {
    p <= |steps| && Plays(start, steps[..p], mem) && 0 < e.index <= |mem.app| && mem.app[e.index - 1] == e
  }

  ghost predicate Wrote(start: Member, steps: seq<Event>, e: Entry) {
    exists p: nat, mem: Member :: WroteAfter(start, steps, p, mem, e)
  }

  ghost predicate Consumed(start: Member, steps: seq<Event>, e: Entry) {
    exists p: nat, mem: Member :: ConsumedAfter(start, steps, p, mem, e)
  }

  /** Every proposal taken since the start was given its entry by one of the steps, and everyone told of success since
      then was told of an entry consumed by one of them. */
  ghost predicate Accounted(start: Member, steps: seq<Event>, from: nat, answers: seq<Answered>,
                            was: map<nat, Entry>, given: map<nat, Entry>)
  {
    && (forall id :: id in given && id !in was ==> Wrote(start, steps, given[id]))
    && (forall j :: from <= j < |answers| && answers[j].reply.Succeeded? ==>
          Consumed(start, steps, answers[j].reply.entry))
  }

  lemma NothingDone(mem: Member, answers: seq<Answered>, given: map<nat, Entry>)
    ensures Plays(mem, [], mem) && Driven([]) && Accounted(mem, [], |answers|, answers, given, given)
  {}

  lemma WroteStill(start: Member, steps: seq<Event>, more: seq<Event>, e: Entry)
    requires Wrote(start, steps, e)
    ensures Wrote(start, steps + more, e)
  {
    var p: nat, mem: Member :| WroteAfter(start, steps, p, mem, e);
    assert (steps + more)[..p] == steps[..p];
    assert WroteAfter(start, steps + more, p, mem, e);
  }

  lemma ConsumedStill(start: Member, steps: seq<Event>, more: seq<Event>, e: Entry)
    requires Consumed(start, steps, e)
    ensures Consumed(start, steps + more, e)
  {
    var p: nat, mem: Member :| ConsumedAfter(start, steps, p, mem, e);
    assert (steps + more)[..p] == steps[..p];
    assert ConsumedAfter(start, steps + more, p, mem, e);
  }

  /** The account after one more turn. */
  lemma AccountedTurn(start: Member, steps: seq<Event>, mem: Member, more: seq<Event>, out: Member, from: nat,
                      told: seq<Answered>, answers: seq<Answered>,
                      was: map<nat, Entry>, before: map<nat, Entry>, id: nat, given: map<nat, Entry>)
    requires Accounted(start, steps, from, told, was, before) && Plays(start, steps, mem) && Plays(mem, more, out)
    requires Driven(steps) && Driven(more) && from <= |told| && told <= answers && Shown(answers, |told|, out.app)
    requires GivenBy(mem.node, more, before, id, given)
    ensures Accounted(start, steps + more, from, answers, was, given) && Driven(steps + more)
  {
    hide Plays, Wrote, Consumed;
    var all := steps + more;
    assert all[..|steps|] == steps && all[..|all|] == all;
    PlaysOn(start, steps, mem, more, out);
    forall x | x in given && x !in was ensures Wrote(start, all, given[x]) {
      if x in before && given[x] == before[x] {
        WroteStill(start, steps, more, given[x]);
      } else {
        WroteNow(start, steps, mem, more, given[x]);
      }
    }
    forall j | from <= j < |answers|
      && answers[j].reply.Succeeded? ensures Consumed(start, all, answers[j].reply.entry) {
      if j < |told| {
        ConsumedStill(start, steps, more, answers[j].reply.entry);
      } else {
        ConsumedNow(start, all, out, answers[j].reply.entry);
      }
    }
  }

  lemma WroteNow(start: Member, steps: seq<Event>, mem: Member, more: seq<Event>, e: Entry)
    requires Plays(start, steps, mem) && more != [] && more[0].Writes? && mem.node.role == Leader
    requires e == Offered(mem.node, more[0].bytes)
    ensures Wrote(start, steps + more, e)
  {
    assert (steps + more)[..|steps|] == steps;
    assert WroteAfter(start, steps + more, |steps|, mem, e);
  }

  lemma ConsumedNow(start: Member, steps: seq<Event>, out: Member, e: Entry)
    requires Plays(start, steps, out) && 0 < e.index <= |out.app| && out.app[e.index - 1] == e
    ensures Consumed(start, steps, e)
  {
    assert steps[..|steps|] == steps;
    assert ConsumedAfter(start, steps, |steps|, out, e);
  }

  lemma AccountedStop(start: Member, steps: seq<Event>, from: nat, told: seq<Answered>, answers: seq<Answered>,
                      was: map<nat, Entry>, given: map<nat, Entry>)
    requires Accounted(start, steps, from, told, was, given) && told <= answers
    requires forall j :: |told| <= j < |answers| ==> !answers[j].reply.Succeeded?
    ensures Accounted(start, steps, from, answers, was, given)
  {
    hide Wrote, Consumed;
  }

  lemma AllAnswered(answers: seq<Answered>, taken: nat)
    requires Balanced(map[], answers, taken)
    ensures forall id :: 0 <= id < taken ==> HasAnswer(answers, id)
  {}

  lemma ShownTogether(was: seq<Answered>, told: seq<Answered>, answers: seq<Answered>, app: seq<Entry>)
    requires was <= told <= answers && Shown(answers, |told|, app)
    requires forall j :: |was| <= j < |told| ==> !told[j].reply.Succeeded?
    ensures Shown(answers, |was|, app)
  {}

  lemma ShownStill(was: seq<Answered>, told: seq<Answered>, answers: seq<Answered>, app: seq<Entry>)
    requires was <= told <= answers && Shown(told, |was|, app)
    requires forall j :: |told| <= j < |answers| ==> !answers[j].reply.Succeeded?
    ensures Shown(answers, |was|, app)
  {}

  lemma BatchShape(n: Node, limit: nat)
    requires Sized(n) && n.floor <= n.applied <= n.committed <= |n.log|
    ensures var ents := EntriesToApply(n, limit);
            n.applied + |ents| <= n.committed && ents == n.log[n.applied..n.applied + |ents|]
  {}

  lemma BatchApplied(mem: Member, limit: nat)
    requires Sized(mem.node) && mem.node.committed <= |mem.node.log| && EntriesToApply(mem.node, limit) != []
    ensures var ents := EntriesToApply(mem.node, limit);
            After(mem, Applies(limit)) == mem.(node := ApplyTo(mem.node, ents[|ents| - 1].index), app := mem.app + ents)
  {
    hide EntriesToApply, ApplyTo;
  }

  lemma ReceivesIs(mem: Member, m: Message)
    requires Sized(mem.node) && mem.node.committed <= |mem.node.log|
    ensures After(mem, Receives(m)) == mem.(node := Step(mem.node, m))
  {
    hide Step;
  }

  lemma TicksIs(mem: Member)
    requires Sized(mem.node) && mem.node.committed <= |mem.node.log|
    ensures After(mem, Ticks) == mem.(node := Tick(mem.node))
  {
    hide Tick;
  }

  lemma TickKeepsLeading(n: Node)
    requires Sized(n) && n.role == Leader
    ensures Tick(n).role == Leader && Tick(n).term == n.term && Tick(n).log == n.log
  {
    hide TickHeartbeat;
    TickLeadsOn(n);
  }

  lemma WritesIs(mem: Member, bytes: seq<Byte>)
    requires Sized(mem.node) && mem.node.committed <= |mem.node.log|
    ensures After(mem, Writes(bytes)) == mem.(node := Propose(mem.node, Command(bytes)))
  {
    hide Propose;
  }

  lemma SendsIs(mem: Member)
    requires Sized(mem.node) && mem.node.committed <= |mem.node.log|
    ensures After(mem, Sends) == mem.(node := mem.node.(msgs := []))
  {}

  lemma RestoresIs(mem: Member)
    requires Sized(mem.node) && mem.node.committed <= |mem.node.log|
    ensures After(mem, Restores) == if mem.node.toRestore.None? then mem
                                    else mem.(node := mem.node.(toRestore := None),
                                      app := mem.node.toRestore.value.image)
  {}

  lemma CompactsIs(mem: Member)
    requires Sized(mem.node) && mem.node.committed <= |mem.node.log|
    ensures After(mem, Compacts) == mem.(node := CreateSnapshot(mem.node, mem.app))
  {
    hide CreateSnapshot;
  }

  // ---------------------------------------------------------------------------
  // The process in a run of its cluster
  // ---------------------------------------------------------------------------

  /** The steps `a` takes between two moments. */
  function Own(r: Run, i: nat, j: nat, a: NodeID): seq<Event>
    requires i <= j <= |r.who| && |r.who| == |r.what|
    decreases j
  {
    if i == j then [] else Own(r, i, j - 1, a) + if r.who[j - 1] == a then [r.what[j - 1]] else []
  }

  /** The same member, for whatever reads it has counted. */
  ghost predicate Same(mem: Member, r: Run, i: nat, a: NodeID) {
    At(r, i, a) && mem.node == NodeAt(r, i, a) && mem.app == AppAt(r, i, a)
  }

  /** What its steps make of the process, they make of the member in a run, whatever other members do in between. */
  lemma {:induction false} PlayedInRun(boot: Configuration, r: Run, i: nat, j: nat, a: NodeID, mem: Member, out: Member)
    requires IsRun(boot, r) && i <= j <= |r.who| == |r.what| && Same(mem, r, i, a)
    requires Driven(Own(r, i, j, a)) && Plays(mem, Own(r, i, j, a), out)
    ensures Same(out, r, j, a)
    decreases j
  {
    hide IsRun, After;
    if i < j {
      var steps := Own(r, i, j - 1, a);
      if r.who[j - 1] == a {
        assert Own(r, i, j, a)[|steps|] == r.what[j - 1] && Own(r, i, j, a)[..|steps|] == steps;
        DrivenPrefix(Own(r, i, j, a), |steps|);
        var mid := PlaysLast(mem, steps, r.what[j - 1], out);
        PlayedInRun(boot, r, i, j - 1, a, mem, mid);
        TakesOne(boot, r, j - 1, a, mid);
      } else {
        assert Own(r, i, j, a) == steps;
        PlayedInRun(boot, r, i, j - 1, a, mem, out);
        LeftAlone(boot, r, j - 1, a);
      }
    }
  }

  lemma {:induction false} PlaysLast(mem: Member, es: seq<Event>, e: Event, out: Member) returns (mid: Member)
    requires Plays(mem, es + [e], out)
    ensures Plays(mem, es, mid) && Sized(mid.node) && mid.node.committed <= |mid.node.log| && out == After(mid, e)
    decreases |es|
  {
    hide After;
    if es == [] {
      mid := mem;
      assert (es + [e])[0] == e && (es + [e])[1..] == [];
    } else {
      assert (es + [e])[0] == es[0] && (es + [e])[1..] == es[1..] + [e];
      mid := PlaysLast(After(mem, es[0]), es[1..], e, out);
    }
  }

  lemma TakesOne(boot: Configuration, r: Run, i: nat, a: NodeID, mem: Member)
    requires IsRun(boot, r) && i < |r.who| == |r.what| && r.who[i] == a && Same(mem, r, i, a)
    requires !r.what[i].Reads? && !r.what[i].Crashes? && Sized(mem.node) && mem.node.committed <= |mem.node.log|
    ensures Same(After(mem, r.what[i]), r, i + 1, a)
  {
    hide Init, Enabled, Step, Tick, Campaign, Propose, ProposeConfChange, CreateSnapshot, Restart, EntriesToApply;
    assert StepAt(r, i);
  }

  lemma LeftAlone(boot: Configuration, r: Run, i: nat, a: NodeID)
    requires IsRun(boot, r) && i < |r.who| && r.who[i] != a && At(r, i, a)
    ensures At(r, i + 1, a) && r.states[i + 1].members[a] == r.states[i].members[a]
  {
    hide Init, Enabled, After;
    assert StepAt(r, i);
  }

  /** The moment after the first `p` of those steps, and, if there are more, right before the next. */
  lemma {:induction false} OwnPrefix(r: Run, i: nat, j: nat, a: NodeID, p: nat) returns (l: nat)
    requires i <= j <= |r.who| == |r.what| && p <= |Own(r, i, j, a)|
    ensures i <= l <= j && Own(r, i, l, a) == Own(r, i, j, a)[..p]
    ensures p < |Own(r, i, j, a)| ==> l < j && r.who[l] == a && r.what[l] == Own(r, i, j, a)[p]
    decreases j
  {
    var all := Own(r, i, j, a);
    if p == |all| {
      l := j;
      assert all[..p] == all;
    } else {
      var before := Own(r, i, j - 1, a);
      if p == |before| {
        l := j - 1;
        assert all[..p] == before;
      } else {
        l := OwnPrefix(r, i, j - 1, a, p);
        assert all[..p] == before[..p];
      }
    }
  }

  lemma DrivenPrefix(es: seq<Event>, p: nat)
    requires Driven(es) && p <= |es|
    ensures Driven(es[..p])
  {}

  /** `e` is what `a` was given, as a leader, for a command proposed before moment `j`. */
  ghost predicate WroteAt(r: Run, i: nat, j: nat, a: NodeID, e: Entry) {
    && i < j && i < |r.who| && i < |r.what| && r.who[i] == a && r.what[i].Writes? && At(r, i, a)
    && NodeAt(r, i, a).role == Leader && e == Offered(NodeAt(r, i, a), r.what[i].bytes)
  }

  ghost predicate Traced(r: Run, j: nat, a: NodeID, given: map<nat, Entry>) {
    forall id :: id in given ==> exists i: nat :: WroteAt(r, i, j, a, given[id])
  }

  /** At some moment from `i` to `j` the state machine of `a` holds `e`, at its index. */
  ghost predicate HeldAt(r: Run, i: nat, j: nat, a: NodeID, l: nat, e: Entry) {
    i <= l <= j && At(r, l, a) && 0 < e.index <= |AppAt(r, l, a)| && AppAt(r, l, a)[e.index - 1] == e
  }

  lemma WroteInRun(boot: Configuration, r: Run, i: nat, j: nat, a: NodeID, start: Member, e: Entry) returns (l: nat)
    requires IsRun(boot, r) && i <= j <= |r.who| == |r.what| && Same(start, r, i, a) && Driven(Own(r, i, j, a))
    requires Wrote(start, Own(r, i, j, a), e)
    ensures WroteAt(r, l, j, a, e)
  {
    hide IsRun, Plays, Driven;
    var steps := Own(r, i, j, a);
    var p: nat, mem: Member :| WroteAfter(start, steps, p, mem, e);
    l := OwnPrefix(r, i, j, a, p);
    DrivenPrefix(steps, p);
    PlayedInRun(boot, r, i, l, a, start, mem);
  }

  lemma ConsumedInRun(boot: Configuration, r: Run, i: nat, j: nat, a: NodeID, start: Member, e: Entry) returns (l: nat)
    requires IsRun(boot, r) && i <= j <= |r.who| == |r.what| && Same(start, r, i, a) && Driven(Own(r, i, j, a))
    requires Consumed(start, Own(r, i, j, a), e)
    ensures HeldAt(r, i, j, a, l, e)
  {
    hide IsRun, Plays, Driven;
    var steps := Own(r, i, j, a);
    var p: nat, mem: Member :| ConsumedAfter(start, steps, p, mem, e);
    l := OwnPrefix(r, i, j, a, p);
    DrivenPrefix(steps, p);
    PlayedInRun(boot, r, i, l, a, start, mem);
  }

  /** Whatever the loop gives out is traced to the step of the run that took the proposal. */
  lemma LoopIsTraced(boot: Configuration, r: Run, i: nat, j: nat, a: NodeID, start: Member, from: nat,
                     answers: seq<Answered>, was: map<nat, Entry>, given: map<nat, Entry>)
    requires IsRun(boot, r) && i <= j <= |r.who| == |r.what| && Same(start, r, i, a) && Driven(Own(r, i, j, a))
    requires Accounted(start, Own(r, i, j, a), from, answers, was, given) && Traced(r, i, a, was)
    requires forall id :: id in was ==> id in given && given[id] == was[id]
    ensures Traced(r, j, a, given)
  {
    hide IsRun, Driven, Wrote, Consumed, WroteAt;
    forall id | id in given ensures exists k: nat :: WroteAt(r, k, j, a, given[id]) {
      if id in was {
        var k: nat :| WroteAt(r, k, i, a, was[id]);
        WroteEarlier(r, k, i, j, a, was[id]);
      } else {
        var k := WroteInRun(boot, r, i, j, a, start, given[id]);
      }
    }
  }

  lemma WroteEarlier(r: Run, k: nat, i: nat, j: nat, a: NodeID, e: Entry)
    requires WroteAt(r, k, i, a, e) && i <= j
    ensures WroteAt(r, k, j, a, e)
  {}

  /** An entry given to a command is the only one a state machine ever holds at its index and term. */
  lemma GivenIsHeld(boot: Configuration, r: Run, k: nat, i: nat, j: nat, a: NodeID, l: nat, given: Entry, e: Entry)
    requires IsRun(boot, r) && WroteAt(r, k, j, a, given) && HeldAt(r, i, j, a, l, e)
    requires e.index == given.index && e.term == given.term
    ensures e == given
  {
    hide IsRun, Init;
    var n := NodeAt(r, k, a);
    RunLength(boot, r);
    AlwaysInOrder(boot, r, k, a);
    ConsumedIsApplied(boot, r, l, a);
    var held := NodeAt(r, l, a).log;
    assert held[e.index - 1] == AppAt(r, l, a)[e.index - 1];
    WrittenThen(boot, r, k, a);
    var wrote := NodeAt(r, k + 1, a).log;
    if l <= k + 1 {
      LogMatching(boot, r, l, a, k + 1, a, e.index);
    } else {
      LogMatching(boot, r, k + 1, a, l, a, e.index);
    }
    assert held[e.index - 1] == held[..e.index][e.index - 1] && wrote[e.index - 1] == wrote[..e.index][e.index - 1];
  }

  lemma WrittenThen(boot: Configuration, r: Run, k: nat, a: NodeID)
    requires IsRun(boot, r) && k < |r.who| == |r.what| && r.who[k] == a && r.what[k].Writes? && At(r, k, a)
    requires NodeAt(r, k, a).role == Leader
    ensures At(r, k + 1, a)
    ensures var e := Offered(NodeAt(r, k, a), r.what[k].bytes);
            e.index <= |NodeAt(r, k + 1, a).log| && NodeAt(r, k + 1, a).log[e.index - 1] == e
  {
    hide Init, Propose;
    var n, bytes := NodeAt(r, k, a), r.what[k].bytes;
    AlwaysInOrder(boot, r, k, a);
    assert StepAt(r, k);
    ProposeTerm(n, Command(bytes));
    assert (n.log + [Offered(n, bytes)])[|n.log|] == Offered(n, bytes);
  }

  /** Over the whole life of the loop, in any run of its cluster: a client told of success was told of its own command.
      The entry is the one its proposal was given, it carries the bytes that were proposed, and at some moment the
      state machine holds it at its index. */
  lemma SuccessIsTrue(boot: Configuration, r: Run, i: nat, j: nat, a: NodeID, start: Member, from: nat,
                      answers: seq<Answered>, was: map<nat, Entry>, given: map<nat, Entry>, first: nat, taken: nat,
                      inputs: seq<Input>, k: nat) returns (l: nat)
    requires IsRun(boot, r) && i <= j <= |r.who| == |r.what| && Same(start, r, i, a) && Traced(r, i, a, was)
    requires Driven(Own(r, i, j, a)) && Accounted(start, Own(r, i, j, a), from, answers, was, given)
    requires Honest(map[], answers, given) && Bound(was, given, first, taken, Offers(inputs))
    requires from <= k < |answers| && answers[k].reply.Succeeded?
    ensures var id, e := answers[k].id, answers[k].reply.entry;
            && id in given && e == given[id] && HeldAt(r, i, j, a, l, e)
            && (id !in was ==>
                  && first <= id < taken && id - first < |Offers(inputs)|
                  && e.payload == Command(Offers(inputs)[id - first]))
  {
    hide IsRun, Driven, Wrote, Consumed, WroteAt, HeldAt, Offers;
    var id, e := answers[k].id, answers[k].reply.entry;
    LoopIsTraced(boot, r, i, j, a, start, from, answers, was, given);
    var w: nat :| WroteAt(r, w, j, a, given[id]);
    l := ConsumedInRun(boot, r, i, j, a, start, e);
    GivenIsHeld(boot, r, w, i, j, a, l, given[id], e);
  }
}
