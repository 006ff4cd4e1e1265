/** Snapshots and membership changes: where a configuration goes astray, and exactly when. */
module Gaps {
  import opened Configurations
  import opened RaftTypes
  import opened RaftNode
  import opened History
  import opened Invariant
  import opened StepSending
  import opened StepCommit
  import opened StepReplication
  import opened StepSnapshot

  // ---------------------------------------------------------------------------
  // Configurations that travel with snapshots
  // ---------------------------------------------------------------------------

  /** Every configuration entry changes whether the configuration is joint. */
  lemma EntryChangesConf(h: Hist, log: seq<Entry>)
    requires Consistent(h) && GoodLog(h, log) && LastConfIndex(log) > 0
    ensures ConfOf(h.boot, log) != ConfOf(h.boot, log[..LastConfIndex(log) - 1])
  {
    LastStep(h, log, LastConfIndex(log));
  }

  /** What the entries above an index do to the configuration. */
  lemma ConfAcross(h: Hist, log: seq<Entry>, s: Index)
    requires Consistent(h) && GoodLog(h, log) && s <= |log|
    ensures LastConfIndex(log) <= s ==> ConfOf(h.boot, log) == ConfOf(h.boot, log[..s])
    ensures var k := LastConfIndex(log);
            k > s && LastConfIndex(log[..k - 1]) <= s ==> ConfOf(h.boot, log) != ConfOf(h.boot, log[..s])
  {
    hide Consistent, GoodLog, ConfOf, LastConfIndex;
    var k := LastConfIndex(log);
    if k <= s {
      ConfOfCut(h.boot, log, s);
    } else if LastConfIndex(log[..k - 1]) <= s {
      EntryChangesConf(h, log);
      ConfOfCut(h.boot, log[..k - 1], s);
      assert log[..k - 1][..s] == log[..s];
    }
  }

  lemma CreatedConf(n: Node, image: seq<Entry>)
    requires Snapshots(n)
    ensures CreateSnapshot(n, image).snap.config == n.conf
  {}

  /** The snapshot a node takes carries the configuration in force, which is the one of the entries it covers exactly
      when the entry in force has been applied, or is at least the second above what has been and happens to come back
      to where it started. One configuration entry above what has been applied makes it the wrong one. */
  lemma SnapshotConfExact(h: Hist, n: Node, image: seq<Entry>)
    requires OK(h, n) && Snapshots(n) && image == n.log[..n.applied]
    ensures n.confIndex > n.applied ==> n.confIndex == LastConfIndex(n.log)
    ensures CreateSnapshot(n, image).snap.config == ConfOf(h.boot, image) <==>
              || n.confIndex <= n.applied
              || (LastConfIndex(n.log[..n.confIndex - 1]) > n.applied && n.conf == ConfOf(h.boot, image))
  {
    hide OK, Consistent, GoodLog, CreateSnapshot;
    Unpack(h, n);
    GoodOwn(h, n);
    CreatedConf(n, image);
    ConfAcross(h, n.log, n.applied);
  }

  /** A follower that installs a snapshot and keeps the entries above it takes the snapshot's configuration, which is
      the one of its log exactly when none of those entries changes it, or at least two do and the last one happens to
      come back to where they started. */
  lemma InstallConfExact(h: Hist, n: Node, snap: Snapshot)
    requires OK(h, n) && n.role == Follower && n.term in h.reigns && SnapshotOK(h, snap, n.term) && Installs(n, snap)
    ensures var r, k := Installed(n, snap), LastConfIndex(n.log);
            r.conf == ConfOf(h.boot, r.log) <==>
              || !CoversSnapshot(n, snap)
              || k <= snap.lastIndex
              || (LastConfIndex(n.log[..k - 1]) > snap.lastIndex && n.conf == snap.config)
    ensures CleanInstall(n, snap) ==> Installed(n, snap).conf == ConfOf(h.boot, Installed(n, snap).log)
  {
    hide OK, NodeOK, Consistent, GoodLog, LogPart, AckPart, VotePart, CandPart, Settled, LeaderPart, CandidatePart;
    hide MsgsPart, ReadPart, Installed, SaveSnapshot, ConfOf, LastConfIndex;
    Unpack(h, n);
    GoodOwn(h, n);
    InstalledLog(h, n, snap);
    ImageNotEmpty(h, n, snap);
    InstalledShape(h, n, snap);
    if CoversSnapshot(n, snap) { ConfAcross(h, n.log, snap.lastIndex); }
    assert snap.config == ConfOf(h.boot, snap.image);
  }

  lemma ImageNotEmpty(h: Hist, n: Node, snap: Snapshot)
    requires OK(h, n) && n.term in h.reigns && SnapshotOK(h, snap, n.term)
    ensures !snap.config.IsEmpty()
  {
    assert ReignOK(h, n.term);
    GoodPrefix(h, h.reigns[n.term].log, snap.lastIndex);
    NotEmptyOnceLed(h, n.term, snap.image);
  }
}
