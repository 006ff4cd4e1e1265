/** A cluster caught at a moment: three voters, a leader in term 1 that has committed three entries and has just
appended a fourth, which enters a joint configuration. */
module Cases {
  import opened Configurations
  import opened RaftTypes
  import opened RaftNode
  import opened History
  import opened HistoryGrowth
  import opened Invariant
  import opened StepSending
  import opened StepReplication
  import opened StepSnapshot
  import opened Crashing

  const BOOT := Configuration([1, 2, 3], [], [])

  const JOINT := Configuration([1, 2, 4], [1, 2, 3], [])

  const LOG := [Entry(1, 1, NoOp), Entry(2, 1, Command([7])), Entry(3, 1, Command([8])),
                Entry(4, 1, ConfEntry(ConfChange(EnterJointKind, JOINT)))]

  const SNAP := Snapshot(3, 1, BOOT, LOG[..3])

  ghost const PAST := Hist(
    BOOT,
    map[1 := Reign(1, 0, LOG, {1, 2})],
    map[Key(1, 1) := []],
    map[Key(1, 1) := Ballot(1, []), Key(2, 1) := Ballot(1, [])],
    map[Key(1, 1) := 4, Key(2, 1) := 3, Key(3, 1) := 1],
    {Commit(1, 3, 3)},
    map[])

  // ---------------------------------------------------------------------------
  // The history is consistent
  // ---------------------------------------------------------------------------

  lemma Confs()
    ensures |LOG| == 4 && LastConfIndex(LOG) == 4 && ConfOf(BOOT, LOG) == JOINT
    ensures LastConfIndex(LOG[..3]) == 0 && ConfOf(BOOT, LOG[..3]) == BOOT && ConfOf(BOOT, []) == BOOT
    ensures Normal(BOOT) && Normal(JOINT) && ConfStep(BOOT, ConfChange(EnterJointKind, JOINT))
  {
    assert LOG[3].payload.ConfEntry?;
    assert forall i :: 0 <= i < 3 ==> !LOG[..3][i].payload.ConfEntry?;
  }

  lemma GoodPast(k: nat)
    requires k <= 4
    ensures |LOG| == 4 && GoodLog(PAST, LOG[..k])
  {
    assert LOG[0].term == LOG[1].term == LOG[2].term == LOG[3].term == 1;
    forall i | 0 <= i < k ensures GoodAt(PAST, LOG[..k], i) {
      assert LOG[..k][..i + 1] == LOG[..i + 1] && LOG[..k][i] == LOG[i];
    }
  }

  lemma NothingKept(v: NodeID, b: Term, log: seq<Entry>)
    ensures KeptAll(PAST, v, 1, b, log)
  {}

  lemma ElectedOK()
    ensures ReignOK(PAST, 1)
  {
    hide GoodLog, KeptAll, Quorum;
    Confs();
    GoodPast(4);
    assert LOG[..4] == LOG && LOG[..0] == [];
    Majority();
    forall v | v in {1, 2} ensures VoterOK(PAST, v, 1) { NothingKept(v, 1, []); }
    forall k | 0 <= k < 4 && LOG[k].payload.ConfEntry? ensures ChainAt(PAST, 1, k) {}
  }

  lemma Majority()
    ensures Quorum(BOOT, {1, 2}) && Quorum(BOOT, {2, 1})
  {
    assert Count([1, 2, 3], {1, 2}) == 2;
  }

  lemma VotesOK()
    ensures CandOK(PAST, Key(1, 1)) && BallotOK(PAST, Key(1, 1)) && BallotOK(PAST, Key(2, 1))
  {
    NothingKept(1, 2, []);
    NothingKept(2, 2, []);
  }

  lemma CountedOK()
    ensures CommitOK(PAST, Commit(1, 3, 3))
  {
    hide Quorum;
    Confs();
    Majority();
    assert Key(1, 1) in PAST.acked && Key(2, 1) in PAST.acked;
    assert Ackers(PAST, 1, 3) == {1, 2};
  }

  lemma PastOK()
    ensures Consistent(PAST) && Normal(PAST.boot)
  {
    hide ReignOK, CandOK, BallotOK, CommitOK;
    Confs();
    ElectedOK();
    VotesOK();
    CountedOK();
  }

  // ---------------------------------------------------------------------------
  // The leader
  // ---------------------------------------------------------------------------

  /** It has applied everything committed, and taken no snapshot yet. */
  function Leading(cfg: Settings): Node {
    Node(1, cfg, HardState(1, 1, 3), LOG, 0, NO_SNAPSHOT, 1, 1, 3, 3, Leader, 1, JOINT, 4, map[],
         map[1 := Progress(4, 5, 0, 0), 2 := Progress(3, 4, 0, 0), 3 := Progress(1, 2, 0, 0),
           4 := Progress(0, 5, 0, 0)],
         0, 0, cfg.electionTick, 1, [], [], None, [], false)
  }

  /** The same leader, had it taken a snapshot before it appended the fourth entry. */
  function Compacted(cfg: Settings): Node { Leading(cfg).(snap := SNAP, floor := 3) }

  lemma KeptLog(v: NodeID)
    ensures KeptAll(PAST, v, 2, 2, LOG)
  {
    assert |LOG| == 4;
    forall t: Term, i: Index | t < 2 && 0 < i <= Acked(PAST, v, t) ensures Kept(PAST, t, i, 2, LOG) {
      assert t == 1 && Held(PAST, 1, i, LOG);
    }
  }

  lemma Committed(log: seq<Entry>, i: Index)
    requires i <= 3 && i <= |log| && log[..i] == LOG[..i]
    ensures Settled(PAST, log, i, 1)
  {
    if i > 0 { assert Commit(1, 3, 3) in PAST.commits && Held(PAST, 1, i, log); }
  }

  lemma LeaderOK(cfg: Settings)
    requires cfg.boot == BOOT
    ensures OK(PAST, Leading(cfg)) && OK(PAST, Compacted(cfg))
  {
    hide Consistent, GoodLog, KeptAll, Settled, ConfOf, LastConfIndex;
    Confs();
    PastOK();
    GoodPast(4);
    assert LOG[..4] == LOG;
    KeptLog(1);
    Committed(LOG, 3);
    assert Below(LOG, 2);
    var n := Leading(cfg);
    assert LeaderPart(PAST, 1, 1, LOG, n.progress, 3) by {
      assert Acked(PAST, 1, 1) == 4 && Acked(PAST, 2, 1) == 3 && Acked(PAST, 3, 1) == 1;
    }
  }

  // ---------------------------------------------------------------------------
  // A follower that is behind
  // ---------------------------------------------------------------------------

  /** It has heard of no commit yet when the fourth entry arrives. */
  function Behind(cfg: Settings): Node {
    NewNode(3, cfg).(log := LOG[..3], term := 1, hard := HardState(1, NONE, 0))
  }

  const FOURTH := AppendReq(1, 3, 1, 3, 1, [LOG[3]], 3, 0)

  /** What is on its disk if it goes down between writing the entry and recording the commit index. */
  function Written(cfg: Settings): Node { FollowLeader(Behind(cfg), FOURTH).(log := LOG) }

  lemma NewShape(id: NodeID, cfg: Settings)
    ensures var n := NewNode(id, cfg);
            && n.id == id && n.cfg == cfg && n.floor == 0 && n.snap == NO_SNAPSHOT && n.committed == 0 && n.applied == 0
            && n.role == Follower && n.lead == NONE && n.vote == NONE && !n.fault && n.msgs == []
              && n.pendingReads == []
            && n.readStates == [] && n.toRestore.None? && n.conf == cfg.boot && n.confIndex == 0 && n.log == []
  {}

  lemma BehindOK(cfg: Settings)
    requires cfg.boot == BOOT
    ensures OK(PAST, Behind(cfg)) && MsgOK(PAST, FOURTH)
  {
    hide Consistent, GoodLog, KeptAll, Settled, ConfOf, LastConfIndex, NewNode;
    NewShape(3, cfg);
    Confs();
    PastOK();
    GoodPast(3);
    KeptShort();
    Committed(LOG, 3);
    Committed(LOG[..3], 0);
  }

  lemma KeptShort()
    ensures KeptAll(PAST, 3, 2, 2, LOG[..3])
  {
    assert |LOG| == 4;
    forall t: Term, i: Index | t < 2 && 0 < i <= Acked(PAST, 3, t) ensures Kept(PAST, t, i, 2, LOG[..3]) {
      assert t == 1 && i == 1;
      assert LOG[..3][..1] == LOG[..1];
      assert Held(PAST, 1, 1, LOG[..3]);
    }
  }

  lemma WrittenIsTorn(cfg: Settings)
    ensures Torn(Behind(cfg), FOURTH, Written(cfg))
  {
    hide NewNode;
    NewShape(3, cfg);
    var n := FollowLeader(Behind(cfg), FOURTH);
    assert |LOG| == 4 && n.log == LOG[..3] && LOG[..3][2] == LOG[2];
    assert FindConflict(n, FOURTH.entries) == 4;
    assert LOG[..3] + [LOG[3]] == LOG;
    assert n.log[..3] == LOG[..3];
  }

  lemma WrittenOK(cfg: Settings)
    requires cfg.boot == BOOT
    ensures OK(PAST, Restart(Written(cfg)))
  {
    hide OK, DiskOK, Restart, Written, Behind, Torn;
    BehindOK(cfg);
    WrittenIsTorn(cfg);
    BehindShape(cfg);
    TornOK(PAST, Behind(cfg), FOURTH, Written(cfg));
    RestartOK(PAST, Written(cfg));
  }

  lemma BehindShape(cfg: Settings)
    ensures Behind(cfg).id == 3 && Behind(cfg).term == 1
  {
    hide NewNode;
    NewShape(3, cfg);
  }

  lemma RestartedShape(cfg: Settings)
    requires cfg.boot == BOOT
    ensures var n := Restart(Written(cfg));
            && n.id == 3 && n.log == LOG && n.floor == 0 && n.snap == NO_SNAPSHOT && n.term == 1 && n.role == Follower
            && n.hard == HardState(1, NONE, 0) && n.committed == 0 && n.conf == JOINT && !n.fault && n.cfg == cfg
  {
    hide NewNode, Restart;
    NewShape(3, cfg);
    Confs();
    RestartShape(Written(cfg));
  }

  // ---------------------------------------------------------------------------
  // What goes wrong
  // ---------------------------------------------------------------------------

  /** A leader with one configuration entry above what it has applied stamps its snapshot with the configuration of that
      entry, which the entries the snapshot covers know nothing of. */
  lemma SnapshotConfExample(cfg: Settings)
    requires cfg.boot == BOOT
    ensures var n := Leading(cfg);
            && OK(PAST, n) && Snapshots(n)
            && CreateSnapshot(n, n.log[..n.applied]).snap.config == JOINT && ConfOf(BOOT, n.log[..n.applied]) == BOOT
  {
    hide OK, ConfOf;
    LeaderOK(cfg);
    Confs();
  }

  /** The leader sends the follower its snapshot, which is slow to arrive. Meanwhile the follower receives the entries
      themselves, the fourth included, and goes down before it has recorded that anything is committed. It comes back
      with the joint configuration, as it must, and installs the snapshot: it keeps the fourth entry and takes the
      snapshot's configuration, which its own log contradicts. All these states are in order by one history; that a run
      passes through them is not shown. */
  lemma InstallExample(cfg: Settings)
    requires cfg.boot == BOOT
    ensures OK(PAST, Compacted(cfg)) && SendAppend(Compacted(cfg), 3, 0).msgs == [SnapReq(1, 3, 1, SNAP)]
    ensures OK(PAST, Behind(cfg)) && MsgOK(PAST, FOURTH) && Torn(Behind(cfg), FOURTH, Written(cfg))
    ensures var n := Restart(Written(cfg));
            var r := Step(n, SnapReq(1, 3, 1, SNAP));
            && OK(PAST, n) && n.conf == JOINT && MsgOK(PAST, SnapReq(1, 3, 1, SNAP))
            && r.log == LOG && r.conf == BOOT && ConfOf(BOOT, r.log) == JOINT
  {
    hide OK, MsgOK, Torn, Behind, Written, Restart, SendAppend, Step, ConfOf;
    LeaderOK(cfg);
    BehindOK(cfg);
    WrittenIsTorn(cfg);
    WrittenOK(cfg);
    RestartedShape(cfg);
    SnapshotSent(cfg);
    SentIsOK(cfg);
    Confs();
    Contradicted(Restart(Written(cfg)));
  }

  lemma SnapshotSent(cfg: Settings)
    ensures SendAppend(Compacted(cfg), 3, 0).msgs == [SnapReq(1, 3, 1, SNAP)]
  {
    assert TermOf(Compacted(cfg), 1).None?;
  }

  lemma SentIsOK(cfg: Settings)
    requires cfg.boot == BOOT
    ensures MsgOK(PAST, SnapReq(1, 3, 1, SNAP))
  {
    hide OK, MsgOK, SendAppend;
    LeaderOK(cfg);
    SnapshotSent(cfg);
    SendAppendOK(PAST, Compacted(cfg), 3, 0);
    SentMsgOK(SendAppend(Compacted(cfg), 3, 0), SnapReq(1, 3, 1, SNAP));
  }

  lemma SentMsgOK(n: Node, m: Message)
    requires OK(PAST, n) && m in n.msgs
    ensures MsgOK(PAST, m)
  {
    hide MsgOK, Consistent;
  }

  lemma Contradicted(n: Node)
    requires n.id == 3 && n.log == LOG && n.floor == 0 && n.snap == NO_SNAPSHOT && n.term == 1 && n.role == Follower
    requires n.hard == HardState(1, NONE, 0) && n.committed == 0 && n.conf == JOINT && !n.fault
    ensures var r := Step(n, SnapReq(1, 3, 1, SNAP)); r.log == LOG && r.conf == BOOT
  {
    assert |LOG| == 4 && LOG[2].term == 1;
  }
}
