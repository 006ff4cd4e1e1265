/** What a member makes of what its own process asks of it: writes, changes of membership, and snapshots
(raft/replication.go, raft/confchange.go, raft/snapshot.go). */
module Requests {
  import opened Configurations
  import opened RaftTypes
  import opened RaftNode
  import opened Invariant
  import opened Crashing
  import opened Steady
  import opened Clusters
  import opened Runs
  import opened Tenure
  import opened Protection
  import opened Resting

  /** In every run, a write put to a leader is the next entry of its log, and one put to anyone else changes nothing. */
  lemma WritesAreLogged(boot: Configuration, r: Run, k: nat, a: NodeID)
    requires IsRun(boot, r) && |r.states| == |r.who| + 1 == |r.what| + 1 && k < |r.who| && At(r, k, a)
    requires r.who[k] == a && r.what[k].Writes?
    ensures At(r, k + 1, a)
    ensures var n, n' := NodeAt(r, k, a), NodeAt(r, k + 1, a);
            if n.role == Leader then n.log + [Entry(|n.log| + 1, n.term, Command(r.what[k].bytes))] <= n'.log
            else n' == n
  {
    hide Init, Propose;
    assert StepAt(r, k);
    InOrder(boot, r, k, a);
    var n, p := NodeAt(r, k, a), Command(r.what[k].bytes);
    if n.role == Leader { ProposeTerm(n, p); } else { OnlyLeaders(n, p, 0, n.conf); }
  }

  /** May a change of membership begin: at a leader that commits entries of its term, with none in progress, towards a
      configuration that has voters? */
  predicate MayChange(n: Node, target: Configuration) {
    && n.role == Leader && !n.conf.IsJoint() && n.confIndex <= n.committed && CommitsItsTerm(n) && target.voters != []
  }

  /** The first half of the way from one configuration to another: a quorum of it needs both. */
  ghost predicate Between(c: Configuration, target: Configuration, j: Configuration) {
    && Normal(j)
    && (forall v :: v in j.voters <==> v in target.voters)
    && (forall v :: v in j.oldVoters <==> v in c.voters)
    && (forall v :: v in j.learners <==> v in target.learners && v !in target.voters && v !in c.voters)
  }

  lemma ChangeMeans(n: Node, target: Configuration)
    requires Sized(n) && n.floor <= n.committed <= |n.log|
    ensures var r := ProposeConfChange(n, target);
            if MayChange(n, target) then
              exists j :: && Between(n.conf, target, j)
                          && n.log + [Entry(|n.log| + 1, n.term, ConfEntry(ConfChange(EnterJointKind, j)))] <= r.log
            else r == n
  {
    hide Propose, Normalize;
    if MayChange(n, target) {
      var j := Normalize(Configuration(target.voters, n.conf.voters, target.learners));
      assert EnterJoint(n.conf, target) == Changed(ConfChange(EnterJointKind, j));
      ProposeTerm(n, ConfEntry(ConfChange(EnterJointKind, j)));
      assert Between(n.conf, target, j);
    }
  }

  /** In every run, a change of membership begins exactly when it may, with an entry that joins the two configurations,
      and otherwise changes nothing. */
  lemma ChangesBegin(boot: Configuration, r: Run, k: nat, a: NodeID)
    requires IsRun(boot, r) && |r.states| == |r.who| + 1 == |r.what| + 1 && k < |r.who| && At(r, k, a)
    requires r.who[k] == a && r.what[k].Reconfigures?
    ensures At(r, k + 1, a)
    ensures var n, n', target := NodeAt(r, k, a), NodeAt(r, k + 1, a), r.what[k].target;
            if MayChange(n, target) then
              exists j :: && Between(n.conf, target, j)
                          && n.log + [Entry(|n.log| + 1, n.term, ConfEntry(ConfChange(EnterJointKind, j)))] <= n'.log
            else n' == n
  {
    hide Init, ProposeConfChange;
    assert StepAt(r, k);
    AlwaysInOrder(boot, r, k, a);
    ChangeMeans(NodeAt(r, k, a), r.what[k].target);
  }

  /** What a snapshot leaves behind: it covers everything applied, and compaction keeps the configured number of entries
      before it, and never gives back what it has discarded. */
  ghost predicate Compacted(n: Node, app: seq<Entry>, r: Node) {
    if n.applied <= n.snap.lastIndex then r == n
    else
      && r == n.(snap := r.snap, floor := r.floor)
      && r.snap.lastIndex == n.applied <= |n.log| && r.snap.lastTerm == TermAt(n.log, n.applied)
      && r.snap.config == n.conf && r.snap.image == app == n.log[..n.applied]
      && r.floor == if n.floor + n.cfg.catchUp < n.applied then n.applied - n.cfg.catchUp else n.floor
  }

  lemma CompactionMeans(n: Node, app: seq<Entry>)
    requires n.floor <= n.snap.lastIndex <= n.applied <= |n.log| && app == n.log[..n.applied]
    ensures Compacted(n, app, CreateSnapshot(n, app))
  {}

  /** In every run, taking a snapshot does exactly that. */
  lemma SnapshotsKeepATail(boot: Configuration, r: Run, k: nat, a: NodeID)
    requires IsRun(boot, r) && |r.states| == |r.who| + 1 == |r.what| + 1 && k < |r.who| && At(r, k, a)
    requires r.who[k] == a && r.what[k].Compacts?
    ensures At(r, k + 1, a) && Compacted(NodeAt(r, k, a), AppAt(r, k, a), NodeAt(r, k + 1, a))
  {
    hide Init, CreateSnapshot, Compacted, MaySnapshot;
    assert StepAt(r, k);
    AlwaysInOrder(boot, r, k, a);
    ConsumedAll(boot, r, k, a);
    CompactionMeans(NodeAt(r, k, a), AppAt(r, k, a));
  }

  /** What a process knows that has just started: what is on its disk, and nothing of what it only remembered. It takes
      for committed what the disk says is, as far as its log goes and at least as far as its snapshot. */
  ghost predicate Restarted(disk: Node, r: Node) {
    && r.term == disk.hard.term && r.vote == disk.hard.vote && r.hard == disk.hard
    && r.log == disk.log && r.floor == disk.floor && r.snap == disk.snap
    && r.applied == disk.snap.lastIndex
    && r.committed == (if disk.hard.commit <= disk.snap.lastIndex then disk.snap.lastIndex
                       else if disk.hard.commit <= |disk.log| then disk.hard.commit else |disk.log|)
    && r.role == Follower && r.lead == NONE && r.electionElapsed == 0 && r.msgs == []
    && r.pendingReads == [] && r.readStates == [] && r.progress == map[] && r.votes == map[]
  }

  lemma RestartMeans(disk: Node)
    ensures Restarted(disk, Restart(disk))
  {
    hide RefreshConfiguration;
    RescannedShape(Recovered(disk));
  }

  /** In every run, that is what a crash leaves, with the configuration of the log on disk. */
  lemma CrashesLeaveTheDisk(boot: Configuration, r: Run, k: nat, a: NodeID)
    requires IsRun(boot, r) && |r.states| == |r.who| + 1 == |r.what| + 1 && k < |r.who| && At(r, k, a)
    requires r.who[k] == a && r.what[k].Crashes?
    ensures At(r, k + 1, a) && Restarted(r.what[k].disk, NodeAt(r, k + 1, a))
    ensures NodeAt(r, k + 1, a).conf == ConfOf(boot, r.what[k].disk.log)
    ensures AppAt(r, k + 1, a) == r.what[k].disk.snap.image
  {
    hide Init, Restart, CrashPoint;
    assert StepAt(r, k);
    AlwaysInOrder(boot, r, k + 1, a);
    RestartMeans(r.what[k].disk);
  }

  /** A member that may take a snapshot has handed everything it applied to its state machine. */
  lemma ConsumedAll(boot: Configuration, r: Run, k: nat, a: NodeID)
    requires IsRun(boot, r) && |r.states| == |r.who| + 1 == |r.what| + 1 && k < |r.who| && At(r, k, a)
    requires r.who[k] == a && r.what[k].Compacts?
    ensures NodeAt(r, k, a).applied <= |NodeAt(r, k, a).log|
    ensures AppAt(r, k, a) == NodeAt(r, k, a).log[..NodeAt(r, k, a).applied]
  {
    hide Init, OK, Later, ClusterOK;
    assert StepAt(r, k);
    var h, g := Moments(boot, r, k, a, k, a);
  }
}
