/** A whole cluster: nodes with their state machines, a network that may lose, duplicate, delay and
reorder messages, and crashes at any moment (node/node.go drives each node this way).

Every member is started with the same bootstrap configuration.
*/
module Clusters {
  import opened Configurations
  import opened RaftTypes
  import opened RaftNode
  import opened History
  import opened HistoryGrowth
  import opened Invariant
  import opened StepSending
  import opened StepCommit
  import opened StepElection
  import opened StepReplication
  import opened StepSnapshot
  import opened StepAny
  import opened Crashing
  import opened Steady

  /** A node, everything its state machine has consumed, and its count of reads. */
  datatype Member = Member(node: Node, app: seq<Entry>, readSeq: nat)

  /** `net` holds every message ever sent, so a message can arrive late, twice or never. */
  datatype Cluster = Cluster(members: map<NodeID, Member>, net: set<Message>)

  datatype Event =
    | Receives(m: Message)
    | Ticks
    | Campaigns
    | Writes(bytes: seq<Byte>)
    | Reads
    | Reconfigures(target: Configuration)
    | Sends
    | Confirms
    | Restores
    | Applies(limit: nat)
    | Compacts
    | Crashes(disk: Node)

  // ---------------------------------------------------------------------------
  // Steps
  // ---------------------------------------------------------------------------

  function ApplyBatch(mem: Member, limit: nat): Member
    requires mem.node.committed <= |mem.node.log|
  {
    var ents := EntriesToApply(mem.node, limit);
    if ents == [] then mem
    else mem.(node := ApplyTo(mem.node, ents[|ents| - 1].index), app := mem.app + ents)
  }

  /** What an event makes of the member it happens to. */
  function After(mem: Member, e: Event): Member
    requires Sized(mem.node) && mem.node.committed <= |mem.node.log|
  {
    var n := mem.node;
    match e
    case Receives(m) => mem.(node := Step(n, m))
    case Ticks => mem.(node := Tick(n))
    case Campaigns => mem.(node := Campaign(n, n.cfg.preVote))
    case Writes(bytes) => mem.(node := Propose(n, Command(bytes)))
    case Reads => mem.(node := ReadIndex(n, mem.readSeq + 1), readSeq := mem.readSeq + 1)
    case Reconfigures(target) => mem.(node := ProposeConfChange(n, target))
    case Sends => mem.(node := n.(msgs := []))
    case Confirms => mem.(node := n.(readStates := []))
    case Restores =>
      if n.toRestore.None? then mem else Member(n.(toRestore := None), n.toRestore.value.image, mem.readSeq)
    case Applies(limit) => ApplyBatch(mem, limit)
    case Compacts => mem.(node := CreateSnapshot(n, mem.app))
    case Crashes(disk) => Member(Restart(disk), disk.snap.image, 0)
  }

  /** Does `mem` become `out` by these events, one after the other? */
  ghost predicate Plays(mem: Member, es: seq<Event>, out: Member)
    decreases |es|
  {
    if es == [] then mem == out
    else Sized(mem.node) && mem.node.committed <= |mem.node.log| && Plays(After(mem, es[0]), es[1..], out)
  }

  /** When an event may happen. Two conditions are not enforced by the code: an installed snapshot must not
      leave a configuration entry above itself, and a snapshot is only taken when the configuration in
      force is that of the entries it covers. */
  ghost predicate Enabled(c: Cluster, id: NodeID, e: Event) {
    && id in c.members
    && var n := c.members[id].node;
       && Sized(n) && n.committed <= |n.log|
       && match e
          case Receives(m) => m in c.net && m.to == id && (m.SnapReq? && m.term >= n.term ==> CleanInstall(n, m.snap))
          case Campaigns => n.role != Leader
          case Applies(_) => n.toRestore.None?
          case Compacts => MaySnapshot(n)
          case Crashes(disk) => CrashPoint(c.net, n, c.members[id].app, disk)
          case _ => true
  }

  ghost predicate Next(c: Cluster, id: NodeID, e: Event, c': Cluster) {
    && Enabled(c, id, e)
    && c'.members == c.members[id := After(c.members[id], e)]
    && c'.net == if e.Sends? then c.net + (set m | m in c.members[id].node.msgs) else c.net
  }

  ghost predicate Init(boot: Configuration, c: Cluster) {
    && Normal(boot) && c.net == {}
    && forall id :: id in c.members ==>
         && id != NONE
         && c.members[id].node.cfg.boot == boot
         && c.members[id] == Member(NewNode(id, c.members[id].node.cfg), [], 0)
  }

  lemma {:induction false} PlaysOn(a: Member, es: seq<Event>, b: Member, fs: seq<Event>, c: Member)
    requires Plays(a, es, b) && Plays(b, fs, c)
    ensures Plays(a, es + fs, c)
    decreases |es|
  {
    hide After;
    if es == [] {
      assert es + fs == fs;
    } else {
      assert (es + fs)[0] == es[0] && (es + fs)[1..] == es[1..] + fs;
      PlaysOn(After(a, es[0]), es[1..], b, fs, c);
    }
  }

  lemma PlaysOne(mem: Member, e: Event)
    requires Sized(mem.node) && mem.node.committed <= |mem.node.log|
    ensures Plays(mem, [e], After(mem, e))
  {
    hide After;
    assert Plays(After(mem, e), [e][1..], After(mem, e));
  }

  // ---------------------------------------------------------------------------
  // The invariant
  // ---------------------------------------------------------------------------

  /** The state machine has consumed exactly the applied prefix, unless a snapshot of that prefix is waiting. */
  ghost predicate AppOK(n: Node, app: seq<Entry>) {
    && n.applied <= |n.log|
    && app <= n.log[..n.applied]
    && (if n.toRestore.None? then app == n.log[..n.applied] else n.toRestore.value.image == n.log[..n.applied])
  }

  /** The reads of the term a node leads are numbered up to its count. */
  ghost predicate SeqOK(h: Hist, n: Node, count: nat) {
    n.role == Leader ==> forall k :: k in h.barriers && k.term == n.term ==> k.id <= count
  }

  ghost predicate MemberOK(h: Hist, id: NodeID, mem: Member) {
    mem.node.id == id && OK(h, mem.node) && AppOK(mem.node, mem.app) && SeqOK(h, mem.node, mem.readSeq)
  }

  ghost predicate ClusterOK(h: Hist, c: Cluster) {
    && Consistent(h) && Normal(h.boot)
    && (forall id :: id in c.members ==> MemberOK(h, id, c.members[id]))
    && (forall m :: m in c.net ==> MsgOK(h, m))
  }

  // ---------------------------------------------------------------------------
  // One step
  // ---------------------------------------------------------------------------

  /** A node that moves on without touching its state machine leaves its applied prefix as it was. */
  lemma AppStays(h: Hist, n: Node, g: Hist, r: Node, app: seq<Entry>)
    requires OK(h, n) && OK(g, r) && Grows(h, g, n.id) && Forward(n, r) && AppOK(n, app)
    ensures AppOK(r, app)
  {
    hide OK, NodeOK, Consistent, Grows, Settled;
    Unpack(h, n);
    Unpack(g, r);
    SettledGrows(h, g, n.id, n.log, n.committed, n.term);
    SettledAgree(g, n.log, n.committed, n.term, r.log, r.committed, r.term);
    PrefixStays(n.log, r.log, n.committed, n.applied);
  }

  lemma PrefixStays(a: seq<Entry>, b: seq<Entry>, i: nat, j: nat)
    requires j <= i <= |a| && i <= |b| && a[..i] == b[..i]
    ensures a[..j] == b[..j]
  {
    assert a[..j] == a[..i][..j] && b[..j] == b[..i][..j];
  }

  /** A node comes to lead only terms that nobody has read in. */
  lemma SeqStays(h: Hist, n: Node, g: Hist, r: Node, count: nat)
    requires OK(h, n) && OK(g, r) && Grows(h, g, n.id) && r.id == n.id && g.barriers == h.barriers
    requires Forward(n, r) && SeqOK(h, n, count)
    ensures SeqOK(g, r, count)
  {
    if r.role == Leader && !(n.role == Leader && r.term == n.term) {
      forall k | k in h.barriers ensures k.term != r.term { NotReadYet(h, n, g, r, k); }
    }
  }

  lemma NotReadYet(h: Hist, n: Node, g: Hist, r: Node, k: ReadKey)
    requires OK(h, n) && OK(g, r) && Grows(h, g, n.id) && r.id == n.id && r.role == Leader && k in h.barriers
    requires Forward(n, r) && !(n.role == Leader && r.term == n.term)
    ensures k.term != r.term
  {
    hide OK, NodeOK, Consistent, Settled, LogPart, VotePart, AckPart, DiskPart, ConfPart, ReadPart, MsgsPart;
    Unpack(h, n);
    Unpack(g, r);
    BarrierLed(h, k);
    if k.term == r.term {
      assert g.reigns[k.term].leader == h.reigns[k.term].leader;
      if r.term > n.term { NotAhead(h, n, r.term); }
    }
  }

  lemma BarrierLed(h: Hist, k: ReadKey)
    requires Consistent(h) && k in h.barriers
    ensures k.term in h.reigns
  {
    assert BarrierOK(h, k);
  }

  lemma NotAhead(h: Hist, n: Node, t: Term)
    requires Consistent(h) && CandPart(h, n.id, n.term) && t in h.reigns && n.term < t
    ensures h.reigns[t].leader != n.id
  {
    assert ReignOK(h, t);
  }

  lemma OnwardOK(h: Hist, mem: Member, g: Hist, r: Node)
    requires MemberOK(h, mem.node.id, mem) && Moves(h, mem.node, g, r) && Onward(mem.node, r)
    ensures MemberOK(g, mem.node.id, mem.(node := r))
  {
    hide OK, Moves, Forward, Quieter, AppOK, SeqOK, Grows;
    MovesOK(h, mem.node, g, r);
    AppStays(h, mem.node, g, r, mem.app);
    SeqStays(h, mem.node, g, r, mem.readSeq);
  }

  /** Delivering a snapshot either installs it, leaving its image for the state machine, or does nothing to it. */
  lemma InstallShape(n: Node, m: Message)
    requires Sized(n) && m.SnapReq?
    ensures Onward(n, Step(n, m)) || FreshlyInstalled(n, Step(n, m), m.snap)
  {
    HigherOnward(n, m);
    var n1 := Adopted(n, m);
    if m.term >= n.term && (m.to == n.id || m.to == NONE) {
      InstallCases(n1, m);
      if Onward(n1, HandleSnapshotRequest(n1, m)) { OnwardTransitive(n, n1, HandleSnapshotRequest(n1, m)); }
    }
  }

  lemma InstallCases(n: Node, m: Message)
    requires m.SnapReq? && n.term <= m.term
    ensures Onward(n, HandleSnapshotRequest(n, m)) || FreshlyInstalled(n, HandleSnapshotRequest(n, m), m.snap)
  {
    hide Installed, FollowLeader, SetConfiguration, SaveSnapshot, Persist;
    var n1 := FollowLeader(n, m);
    FollowShape(n, m);
    if Installs(n1, m.snap) { InstalledFields(n1, m.snap); InstalledIs(n1, m.snap); }
  }

  lemma InstalledIs(n: Node, snap: Snapshot)
    ensures var n2 := SaveSnapshot(n, snap).(committed := snap.lastIndex, applied := snap.lastIndex);
            var n3 := if snap.config.IsEmpty() then n2 else SetConfiguration(n2, snap.config, snap.lastIndex);
            Installed(n, snap) == Persist(n3.(toRestore := Some(snap)))
  {
    hide SetConfiguration, SaveSnapshot, Persist;
  }

  lemma FollowShape(n: Node, m: Message)
    requires n.term <= m.term
    ensures var r := FollowLeader(n, m);
            && Onward(n, r) && r.role == Follower && r.committed == n.committed && r.snap == n.snap
  {
    hide BecomeFollower;
    FollowerShape(n.(electionElapsed := 0), m.term, m.from);
  }

  lemma InstalledFields(n: Node, snap: Snapshot)
    ensures var r := Installed(n, snap);
            && r.committed == r.applied == snap.lastIndex && r.snap == snap && r.toRestore == Some(snap)
            && r.role == n.role && r.term == n.term && r.pendingReads == n.pendingReads && r.readStates == n.readStates
  {
    hide SaveSnapshot, SetConfiguration, Persist;
    SavedKeeps(n, snap);
    var n1 := SaveSnapshot(n, snap).(committed := snap.lastIndex, applied := snap.lastIndex);
    SetKeeps(n1, snap.config, snap.lastIndex);
    var n2 := if snap.config.IsEmpty() then n1 else SetConfiguration(n1, snap.config, snap.lastIndex);
    PersistKeeps(n2.(toRestore := Some(snap)));
  }

  ghost predicate FreshlyInstalled(n: Node, r: Node, snap: Snapshot) {
    && n.committed < r.committed && r.snap == snap && r.applied == r.committed == snap.lastIndex
    && r.toRestore == Some(snap) && r.role == Follower && n.term <= r.term && Quieter(n, r)
  }

  lemma AppInstalled(h: Hist, n: Node, g: Hist, r: Node, app: seq<Entry>, snap: Snapshot)
    requires OK(h, n) && OK(g, r) && Grows(h, g, n.id) && AppOK(n, app) && FreshlyInstalled(n, r, snap)
    ensures AppOK(r, app)
  {
    hide OK, NodeOK, Consistent, Grows, Settled;
    Unpack(h, n);
    Unpack(g, r);
    SettledGrows(h, g, n.id, n.log, n.committed, n.term);
    SettledAgree(g, n.log, n.committed, n.term, r.log, r.committed, r.term);
    PrefixStays(n.log, r.log, n.committed, n.applied);
    assert r.log[..n.applied] <= r.log[..r.applied];
  }

  lemma ReceiveOK(h: Hist, mem: Member, m: Message) returns (g: Hist)
    requires MemberOK(h, mem.node.id, mem) && MsgOK(h, m) && m.to == mem.node.id
    requires m.SnapReq? && m.term >= mem.node.term ==> CleanInstall(mem.node, m.snap)
    ensures Moves(h, mem.node, g, Step(mem.node, m)) && MemberOK(g, mem.node.id, mem.(node := Step(mem.node, m)))
  {
    hide OK, Moves, MsgOK, AppOK, Grows, Step, Sized, Onward, CleanInstall;
    var n := mem.node;
    OKFacts(h, n);
    g := StepOK(h, n, m);
    var r := Step(n, m);
    MovesOK(h, n, g, r);
    StepOnward(n, m);
    if m.SnapReq? { InstallShape(n, m); }
    if Onward(n, r) { OnwardOK(h, mem, g, r); } else { AppInstalled(h, n, g, r, mem.app, m.snap); }
  }

  /** A read is numbered past all earlier reads of its term. */
  lemma ReadOK(h: Hist, mem: Member) returns (g: Hist)
    requires MemberOK(h, mem.node.id, mem)
    ensures Evolves(h, mem.node, g, After(mem, Reads).node) && MemberOK(g, mem.node.id, After(mem, Reads))
    ensures if ReadIndexError(mem.node).None? then BarrierTaken(h, g, mem.node, mem.readSeq + 1) else g == h
    ensures ReadIndexError(mem.node).None? ==>
            mem.node.term in h.reigns && h.reigns[mem.node.term].leader == mem.node.id
  {
    hide OK, Grows, AppOK, Sized, ReadIndex;
    var n, id := mem.node, mem.readSeq + 1;
    OKFacts(h, n);
    ReadFresh(h, n, mem.readSeq);
    g := ReadIndexOK(h, n, id);
    ReadIndexForward(n, id);
    AppStays(h, n, g, ReadIndex(n, id), mem.app);
    ReadRole(n, id);
  }

  lemma ReadRole(n: Node, id: nat)
    ensures ReadIndex(n, id).role == n.role && ReadIndex(n, id).term == n.term
  {
    hide Quorum, SendAll;
  }

  lemma ReadFresh(h: Hist, n: Node, count: nat)
    requires OK(h, n) && SeqOK(h, n, count)
    ensures ReadIndexError(n).None? ==>
              && ReadKey(n.term, count + 1) !in h.barriers
              && n.term in h.reigns && h.reigns[n.term].leader == n.id
  {}

  /** What the driver does with a node's output. */
  lemma OutputOK(h: Hist, mem: Member, e: Event)
    requires MemberOK(h, mem.node.id, mem) && (e.Sends? || e.Confirms? || e.Restores?)
    ensures Sized(mem.node) && mem.node.committed <= |mem.node.log|
    ensures Moves(h, mem.node, h, After(mem, e).node) && MemberOK(h, mem.node.id, After(mem, e))
  {
    hide OK, NodeOK, Grows, Moves, Consistent, Normal, LogPart, VotePart, CandPart, AckPart, CandidatePart, LeaderPart;
    hide Settled, DiskPart, ConfPart, Sized;
    var n := mem.node;
    Unpack(h, n);
    GrowsReflexive(h, n.id);
    Pack(h, n, h, After(mem, e).node);
    MovesOK(h, n, h, After(mem, e).node);
  }

  /** The entries handed to the state machine are the ones right after those it has consumed. */
  lemma BatchIsNext(h: Hist, n: Node, limit: nat)
    requires OK(h, n)
    ensures n.committed <= |n.log|
    ensures var ents := EntriesToApply(n, limit);
            && n.applied + |ents| <= n.committed && ents == n.log[n.applied..n.applied + |ents|]
            && (ents == [] <==> n.applied == n.committed)
            && (ents != [] ==> ents[|ents| - 1].index == n.applied + |ents|)
            && (limit > 0 ==> |ents| <= limit)
  {
    hide Consistent, GoodAt;
    OKFacts(h, n);
    var ents := EntriesToApply(n, limit);
    if ents != [] { IndexAt(h, n, n.applied + |ents| - 1); }
  }

  lemma IndexAt(h: Hist, n: Node, i: nat)
    requires OK(h, n) && i < |n.log|
    ensures n.log[i].index == i + 1
  {
    assert GoodAt(h, n.log, i);
  }

  lemma ApplyOK(h: Hist, mem: Member, limit: nat)
    requires MemberOK(h, mem.node.id, mem) && mem.node.toRestore.None?
    ensures mem.node.committed <= |mem.node.log|
    ensures Moves(h, mem.node, h, ApplyBatch(mem, limit).node) && MemberOK(h, mem.node.id, ApplyBatch(mem, limit))
  {
    hide OK, Moves, Grows, EntriesToApply;
    var n := mem.node;
    BatchIsNext(h, n, limit);
    var ents := EntriesToApply(n, limit);
    TouchOK(h, n, n);
    if ents != [] {
      AppliedOK(h, n, n.applied + |ents|);
      MovesOK(h, n, h, ApplyTo(n, n.applied + |ents|));
      assert n.log[..n.applied] + ents == n.log[..n.applied + |ents|];
    }
  }

  lemma AppliedOK(h: Hist, n: Node, i: Index)
    requires OK(h, n) && i <= n.committed
    ensures Moves(h, n, h, ApplyTo(n, i))
  {
    hide OK, Grows;
    GrowsReflexive(h, n.id);
    ApplyToOK(h, n, i);
  }

  lemma CompactOK(h: Hist, mem: Member)
    requires MemberOK(h, mem.node.id, mem) && MaySnapshot(mem.node)
    ensures var r := CreateSnapshot(mem.node, mem.app);
            Moves(h, mem.node, h, r) && MemberOK(h, mem.node.id, mem.(node := r))
  {
    hide OK, Moves, Grows, Snapshots;
    var n, r := mem.node, CreateSnapshot(mem.node, mem.app);
    SameBootAs(h, n);
    CreateSnapshotOK(h, n, mem.app);
    MovesOK(h, n, h, r);
    Steady.CreatedShape(n, mem.app);
  }

  lemma SameBootAs(h: Hist, n: Node)
    requires OK(h, n)
    ensures n.cfg.boot == h.boot
  {}

  // ---------------------------------------------------------------------------
  // Crashes
  // ---------------------------------------------------------------------------

  lemma RestartedOK(h: Hist, net: set<Message>, mem: Member, disk: Node) returns (g: Hist)
    requires MemberOK(h, mem.node.id, mem) && CrashPoint(net, mem.node, mem.app, disk)
             && forall m :: m in net ==> MsgOK(h, m)
    ensures Moves(h, mem.node, g, Restart(disk)) && Restart(disk).role == Follower
            && AppOK(Restart(disk), disk.snap.image)
  {
    hide OK, MsgOK, DiskOK, Grows, CrashPoint, Restart, SeqOK;
    g := CrashOK(h, net, mem.node, mem.app, disk);
    RestartOK(g, disk);
    RecoveredApp(g, disk);
  }

  lemma RecoveredApp(h: Hist, disk: Node)
    requires DiskOK(h, disk)
    ensures Restart(disk).role == Follower && AppOK(Restart(disk), disk.snap.image)
  {
    hide Restart, Consistent, LogPart, AckPart, VotePart, CandPart, Settled;
    RestartShape(disk);
  }

  // ---------------------------------------------------------------------------
  // One step of the cluster
  // ---------------------------------------------------------------------------

  /** New reads belong to the node that took the step, which leads their term. */
  ghost predicate OwnReads(h: Hist, g: Hist, id: NodeID) {
    forall k :: k in g.barriers && k !in h.barriers ==> k.term in h.reigns && h.reigns[k.term].leader == id
  }

  /** A read that is accepted is recorded together with the commit index and with whoever leads later terms. */
  ghost predicate Asked(h: Hist, g: Hist, mem: Member) {
    ReadIndexError(mem.node).None? ==> BarrierTaken(h, g, mem.node, mem.readSeq + 1)
  }

  lemma TurnOK(h: Hist, c: Cluster, id: NodeID, e: Event) returns (g: Hist)
    requires ClusterOK(h, c) && Enabled(c, id, e)
    ensures id in c.members && Consistent(g) && Grows(h, g, id) && MemberOK(g, id, After(c.members[id], e))
            && OwnReads(h, g, id)
    ensures e.Reads? ==> Asked(h, g, c.members[id])
  {
    hide OK, Grows, Moves, MsgOK, AppOK, SeqOK, Step, Tick, Campaign, Propose, ReadIndex, ProposeConfChange;
    hide CreateSnapshot, Restart, ApplyBatch, CleanInstall, CrashPoint, Onward, Sized, Consistent, Snapshots;
    var mem := c.members[id];
    var n := mem.node;
    assert MemberOK(h, id, mem);
    match e {
      case Receives(m) =>
        g := ReceiveOK(h, mem, m);
        MovesOK(h, n, g, Step(n, m));
      case Ticks =>
        g := TickOK(h, n);
        TickOnward(n);
        OnwardOK(h, mem, g, Tick(n));
        MovesOK(h, n, g, Tick(n));
      case Campaigns =>
        g := CampaignOK(h, n, n.cfg.preVote);
        CampaignOnward(n, n.cfg.preVote);
        OnwardOK(h, mem, g, Campaign(n, n.cfg.preVote));
        MovesOK(h, n, g, Campaign(n, n.cfg.preVote));
      case Writes(bytes) =>
        g := ClientProposeOK(h, n, bytes);
        ProposeOnward(n, Command(bytes));
        OnwardOK(h, mem, g, Propose(n, Command(bytes)));
        MovesOK(h, n, g, Propose(n, Command(bytes)));
      case Reads =>
        g := ReadOK(h, mem);
      case Reconfigures(target) =>
        g := ProposeConfChangeOK(h, n, target);
        ProposeConfChangeOnward(n, target);
        OnwardOK(h, mem, g, ProposeConfChange(n, target));
        MovesOK(h, n, g, ProposeConfChange(n, target));
      case Sends => g := h; OutputOK(h, mem, e); GrowsReflexive(h, id);
      case Confirms => g := h; OutputOK(h, mem, e); GrowsReflexive(h, id);
      case Restores => g := h; OutputOK(h, mem, e); GrowsReflexive(h, id);
      case Applies(limit) => g := h; ApplyOK(h, mem, limit); GrowsReflexive(h, id);
      case Compacts => g := h; CompactOK(h, mem); GrowsReflexive(h, id);
      case Crashes(disk) =>
        g := RestartedOK(h, c.net, mem, disk);
        MovesOK(h, n, g, Restart(disk));
        FollowersIdle(g, Restart(disk));
    }
    OKConsistent(g, After(mem, e).node);
  }

  lemma OKConsistent(h: Hist, n: Node)
    requires OK(h, n)
    ensures Consistent(h)
  {
    hide Consistent, NodeOK;
  }

  lemma FollowersIdle(h: Hist, n: Node)
    requires n.role == Follower
    ensures SeqOK(h, n, 0)
  {}

  /** The step of one member leaves the others in order. */
  lemma OthersOK(h: Hist, g: Hist, id: NodeID, other: NodeID, mem: Member)
    requires Consistent(h) && Normal(h.boot) && Consistent(g) && Grows(h, g, id) && OwnReads(h, g, id)
    requires other != id && MemberOK(h, other, mem)
    ensures MemberOK(g, other, mem)
  {
    hide NodeOK, Consistent, Normal, AppOK;
    NodeGrows(h, g, id, mem.node);
    OthersSeqOK(h, g, id, mem.node, mem.readSeq);
  }

  lemma OthersSeqOK(h: Hist, g: Hist, id: NodeID, n: Node, count: nat)
    requires OK(h, n) && Grows(h, g, id) && OwnReads(h, g, id) && n.id != id && SeqOK(h, n, count)
    ensures SeqOK(g, n, count)
  {
    hide Consistent, GoodLog;
  }

  lemma NextOK(h: Hist, c: Cluster, id: NodeID, e: Event, c': Cluster) returns (g: Hist)
    requires ClusterOK(h, c) && Next(c, id, e, c')
    ensures ClusterOK(g, c') && Grows(h, g, id)
    ensures id in c.members && (e.Reads? ==> Asked(h, g, c.members[id]))
  {
    hide OK, NodeOK, Grows, Consistent, Normal, MemberOK, OwnReads, After, Enabled, MsgOK, Sized, Asked;
    g := TurnOK(h, c, id, e);
    SameBoot(h, g, id);
    forall x | x in c'.members ensures MemberOK(g, x, c'.members[x]) {
      if x != id { OthersOK(h, g, id, x, c.members[x]); }
    }
    forall m | m in c'.net ensures MsgOK(g, m) {
      if m !in c.net { OutgoingOK(h, id, c.members[id], m); }
      MsgGrows(h, g, id, m);
    }
  }

  lemma OutgoingOK(h: Hist, id: NodeID, mem: Member, m: Message)
    requires MemberOK(h, id, mem) && m in mem.node.msgs
    ensures MsgOK(h, m)
  {
    hide MsgOK, Consistent;
  }

  lemma InitOK(boot: Configuration, c: Cluster) returns (h: Hist)
    requires Init(boot, c)
    ensures ClusterOK(h, c) && h.boot == boot
  {
    h := Hist(boot, map[], map[], map[], map[], {}, map[]);
    forall id | id in c.members ensures MemberOK(h, id, c.members[id]) { NewMemberOK(h, id, c.members[id].node.cfg); }
  }

  lemma NewMemberOK(h: Hist, id: NodeID, cfg: Settings)
    requires Normal(h.boot) && cfg.boot == h.boot && id != NONE
    requires h == Hist(h.boot, map[], map[], map[], map[], {}, map[])
    ensures MemberOK(h, id, Member(NewNode(id, cfg), [], 0))
  {
    hide Restart, OK, NodeOK, Moves, AppOK, Normal;
    var blank := Node(id, cfg, HardState(0, NONE, 0), [], 0, NO_SNAPSHOT, 0, NONE, 0, 0, Follower, NONE,
                      cfg.boot, 0, map[], map[], 0, 0, 0, 0, [], [], None, [], false);
    assert DiskOK(h, blank);
    RestartOK(h, blank);
    MovesOK(h, blank, h, Restart(blank));
    RecoveredApp(h, blank);
  }

  // ---------------------------------------------------------------------------
  // What is never taken back
  // ---------------------------------------------------------------------------

  /** Terms survive crashes; between crashes the commit index and the applied index only grow. */
  lemma TurnForward(h: Hist, c: Cluster, id: NodeID, e: Event)
    requires ClusterOK(h, c) && Enabled(c, id, e)
    ensures var n, r := c.members[id].node, After(c.members[id], e).node;
            && n.term <= r.term
            && (!e.Crashes? ==> n.committed <= r.committed && n.applied <= r.applied)
  {
    hide OK, MsgOK, AppOK, SeqOK, Step, Tick, Campaign, Propose, ReadIndex, ProposeConfChange, CreateSnapshot, Restart;
    hide CleanInstall, CrashPoint, Sized, Consistent, Snapshots, EntriesToApply;
    var mem := c.members[id];
    var n := mem.node;
    assert MemberOK(h, id, mem);
    OKFacts(h, n);
    match e {
      case Receives(m) =>
        StepOnward(n, m);
        if m.SnapReq? { InstallShape(n, m); }
      case Ticks => TickOnward(n);
      case Campaigns => CampaignOnward(n, n.cfg.preVote);
      case Writes(bytes) => ProposeOnward(n, Command(bytes));
      case Reads => ReadIndexForward(n, mem.readSeq + 1);
      case Reconfigures(target) => ProposeConfChangeOnward(n, target);
      case Applies(limit) => BatchIsNext(h, n, limit);
      case Compacts => Steady.CreatedShape(n, mem.app);
      case Crashes(disk) => RecoveredTerm(h, c.net, mem, disk);
      case _ =>
    }
  }

  function ReadsOf(n: Node): set<nat> { ReadIds(n.pendingReads, n.readStates) }

  /** Reads are numbered upwards, and none outlives the term it was asked in. */
  ghost predicate ReadsCarryOver(mem: Member, after: Member) {
    && mem.readSeq <= after.readSeq
    && (forall x :: x in ReadsOf(after.node) ==> x in ReadsOf(mem.node) || mem.readSeq < x)
    && (after.node.term != mem.node.term ==> ReadsOf(after.node) == {})
  }

  lemma QuieterCarries(mem: Member, after: Member)
    requires Quieter(mem.node, after.node) && mem.readSeq <= after.readSeq
    ensures ReadsCarryOver(mem, after)
  {}

  lemma ConfirmedGone(n: Node)
    ensures Quieter(n, n.(readStates := []))
  {}

  lemma TurnReads(h: Hist, c: Cluster, id: NodeID, e: Event)
    requires ClusterOK(h, c) && Enabled(c, id, e) && !e.Crashes?
    ensures ReadsCarryOver(c.members[id], After(c.members[id], e))
  {
    hide OK, MsgOK, AppOK, SeqOK, Step, Tick, Campaign, Propose, ReadIndex, ProposeConfChange, CreateSnapshot, Restart;
    hide CleanInstall, CrashPoint, Sized, Consistent, Snapshots, EntriesToApply, ReadIds, Forward;
    var mem := c.members[id];
    var n := mem.node;
    assert MemberOK(h, id, mem);
    OKFacts(h, n);
    match e {
      case Receives(m) =>
        StepOnward(n, m);
        if m.SnapReq? { InstallShape(n, m); }
      case Ticks => TickOnward(n);
      case Campaigns => CampaignOnward(n, n.cfg.preVote);
      case Writes(bytes) => ProposeOnward(n, Command(bytes));
      case Reads => ReadIndexForward(n, mem.readSeq + 1);
      case Reconfigures(target) => ProposeConfChangeOnward(n, target);
      case Confirms => ConfirmedGone(n);
      case Compacts => Steady.CreatedShape(n, mem.app);
      case _ =>
    }
    if !e.Reads? { QuieterCarries(mem, After(mem, e)); }
  }

  lemma RecoveredTerm(h: Hist, net: set<Message>, mem: Member, disk: Node)
    requires MemberOK(h, mem.node.id, mem) && CrashPoint(net, mem.node, mem.app, disk)
             && forall m :: m in net ==> MsgOK(h, m)
    ensures mem.node.term <= Restart(disk).term
  {
    hide OK, MsgOK, DiskOK, CrashPoint, SeqOK, Rescan;
    var g := CrashOK(h, net, mem.node, mem.app, disk);
  }
}
