/** A run of two nodes: one stands, the other's vote elects it, its first entry is replicated and the acknowledgement
commits it. What is proved of every run is proved of runs whose nodes depend on each other's messages. */
module DuoRun {
  import opened Configurations
  import opened RaftTypes
  import opened RaftNode
  import opened Steady
  import opened Clusters
  import opened Runs
  import opened Extending

  const BOTH := Configuration([1, 2], [], [])

  const FIRST := Entry(1, 1, NoOp)

  const ASK := VoteReq(1, 2, 1, false, 0, 0)

  const YES := VoteResp(2, 1, 1, false, true)

  const OFFER := AppendReq(1, 2, 1, 0, 0, [FIRST], 0, 0)

  const DONE := AppendResp(2, 1, 1, true, 1, 0, 0, 0)

  lemma Pairs()
    ensures Quorum(BOTH, {1, 2}) && !Quorum(BOTH, {1}) && !Impossible(BOTH, {}) && Normal(BOTH)
    ensures Members(BOTH) == [1, 2] && Peers(BOTH, 1) == [2]
  {
    assert Count([1, 2], {1, 2}) == 2 && Count([1, 2], {1}) == 1 && Count([1, 2], {}) == 0;
    SortedDetermined(Members(BOTH), [1, 2]);
    SortedDetermined(Peers(BOTH, 1), [2]);
  }

  lemma LowerCommits(m: map<NodeID, Index>)
    requires 1 in m && 2 in m && m[2] <= m[1]
    ensures CommittedIndex(BOTH, m) == m[2]
  {
    hide SortIndexes;
    assert Matches([1, 2], m) == [m[1], m[2]];
    SecondBest(m[1], m[2]);
  }

  lemma SecondBest(x: Index, y: Index)
    requires y <= x
    ensures SortIndexes([x, y])[0] == y
  {}

  // ---------------------------------------------------------------------------
  // The steps
  // ---------------------------------------------------------------------------

  /** A node nothing has happened to but what its term, vote and log say. */
  predicate Young(n: Node, id: NodeID, term: Term, log: seq<Entry>) {
    && n.id == id && n.term == term && n.log == log && n.conf == BOTH && n.confIndex == 0 && n.floor == 0
    && n.committed == 0 && n.hard.term <= term && !n.fault && n.snap == NO_SNAPSHOT && n.cfg.boot == BOTH
  }

  lemma Starts(id: NodeID, cfg: Settings)
    requires cfg.boot == BOTH
    ensures var n := NewNode(id, cfg);
            Young(n, id, 0, []) && n.role == Follower && n.vote == NONE && n.lead == NONE && n.msgs == []
  {}

  lemma StandsUp(n: Node)
    requires Young(n, 1, 0, []) && n.role == Follower && n.msgs == []
    ensures var r := Campaign(n, false);
            Young(r, 1, 1, []) && r.role == Candidate && r.vote == 1 && r.votes == map[1 := true] && r.msgs == [ASK]
  {
    hide Quorum, Impossible, TallyVotes, Members, Peers;
    Pairs();
    var c := RecordVote(Stand(n, false), 1, true);
    assert c.votes == map[1 := true] && Granted(c) == {1} && Rejected(c) == {};
    assert [2][1..] == [];
    assert Canvass(c, false) == SendVoteRequests(c, [2], 1, false) == Send(c, ASK);
  }

  lemma Votes(n: Node)
    requires Young(n, 2, 0, []) && n.role == Follower && n.vote == NONE && n.lead == NONE && n.msgs == []
    ensures var r := Step(n, ASK); Young(r, 2, 1, []) && r.role == Follower && r.msgs == [YES]
  {}

  lemma Wins(n: Node)
    requires Young(n, 1, 1, []) && n.role == Candidate && n.vote == 1 && n.votes == map[1 := true] && n.msgs == []
    ensures var r := Step(n, YES);
            && Young(r, 1, 1, [FIRST]) && r.role == Leader && r.msgs == [OFFER]
            && r.progress == map[1 := Progress(1, 2, 0, 0), 2 := Progress(0, 1, 0, 0)]
  {
    hide Quorum, Impossible, BecomeLeader, Members, Peers;
    Pairs();
    var c := RecordVote(n, 2, true);
    assert c.votes == map[1 := true, 2 := true];
    assert Granted(c) == {1, 2};
    assert Step(n, YES) == HandleVoteResponse(n, YES) == TallyVotes(c) == BecomeLeader(c);
    Leads(c);
  }

  lemma Leads(c: Node)
    requires Young(c, 1, 1, []) && c.role == Candidate && c.vote == 1 && c.msgs == []
    ensures var r := BecomeLeader(c);
            && Young(r, 1, 1, [FIRST]) && r.role == Leader && r.msgs == [OFFER]
            && r.progress == map[1 := Progress(1, 2, 0, 0), 2 := Progress(0, 1, 0, 0)]
  {
    hide MaybeAdvanceCommit, SendAll, Members, Peers;
    Pairs();
    var n := Crowned(c);
    assert n.log == [FIRST];
    assert n.progress == map[1 := Progress(1, 2, 0, 0), 2 := Progress(0, 1, 0, 0)];
    NotYet(n);
    Offers(Persist(n));
  }

  lemma NotYet(n: Node)
    requires n.role == Leader && n.conf == BOTH
             && n.progress == map[1 := Progress(1, 2, 0, 0), 2 := Progress(0, 1, 0, 0)] && Sized(n)
    ensures MaybeAdvanceCommit(n) == n
  {
    hide CommittedIndex;
    LowerCommits(Matched(n));
  }

  lemma Offers(n: Node)
    requires Young(n, 1, 1, [FIRST]) && n.msgs == []
             && n.progress == map[1 := Progress(1, 2, 0, 0), 2 := Progress(0, 1, 0, 0)]
    ensures BroadcastAppend(n) == Send(n, OFFER)
  {
    hide Members, Peers;
    Pairs();
    assert [2][1..] == [];
    assert n.log[0..BatchEnd(n, 0)] == [FIRST];
    assert SendAppend(n, 2, 0) == Send(n, OFFER);
  }

  lemma Accepts(n: Node)
    requires Young(n, 2, 1, []) && n.role == Follower && n.msgs == []
    ensures var r := Step(n, OFFER); r.log == [FIRST] && r.msgs == [DONE] && r.floor == 0 && r.committed == 0
  {
    hide Rescan;
    var n1 := FollowLeader(n, OFFER);
    assert FindConflict(n1, [FIRST]) == 1;
    assert AppendConflicting(n1, 0, [FIRST]) == n1.(log := [FIRST]);
    assert !NeedsRefresh(n1.(log := [FIRST]), [FIRST]);
  }

  lemma Commits(n: Node)
    requires Young(n, 1, 1, [FIRST]) && n.role == Leader && n.msgs == []
    requires n.progress == map[1 := Progress(1, 2, 0, 0), 2 := Progress(0, 1, 0, 0)]
    ensures var r := Step(n, DONE);
            r.role == Leader && r.term == 1 && r.committed == 1 && r.log == [FIRST] && r.floor == 0
  {
    hide MaybeAdvanceCommit, SendAll, Members, Peers;
    var w := WithMatch(n, 2, 1);
    Counts(w);
    assert RecordMatch(n, 2, 1) == Feed(MaybeAdvanceCommit(w), 2, 2, true);
    assert Step(n, DONE) == HandleAppendResponse(n, DONE) == RecordMatch(n, 2, 1);
  }

  lemma Counts(n: Node)
    requires Young(n, 1, 1, [FIRST]) && n.role == Leader
    requires n.progress == map[1 := Progress(1, 2, 0, 0), 2 := Progress(1, 2, 0, 0)]
    ensures MaybeAdvanceCommit(n) == n.(committed := 1, hard := HardState(1, n.vote, 1))
  {
    hide CommittedIndex, Propose;
    LowerCommits(Matched(n));
    var n1 := Persist(CommitTo(n, 1));
    assert n1 == n.(committed := 1, hard := HardState(1, n.vote, 1));
    assert MaybeLeaveJoint(n1) == n1 && StepDownIfRemoved(n1) == n1;
  }

  // ---------------------------------------------------------------------------
  // The run
  // ---------------------------------------------------------------------------

  /** Two nodes that have never run. */
  lemma Opens(cfg: Settings) returns (r: Run)
    requires cfg.boot == BOTH
    ensures IsRun(BOTH, r) && |r.states| == |r.who| + 1
    ensures Last(r) == Cluster(map[1 := Member(NewNode(1, cfg), [], 0), 2 := Member(NewNode(2, cfg), [], 0)], {})
  {
    hide NewNode;
    Pairs();
    StartConfigured(cfg);
    var c := Cluster(map[1 := Member(NewNode(1, cfg), [], 0), 2 := Member(NewNode(2, cfg), [], 0)], {});
    assert Init(BOTH, c);
    r := Run([c], [], []);
  }

  lemma StartConfigured(cfg: Settings)
    ensures NewNode(1, cfg).cfg == cfg && NewNode(2, cfg).cfg == cfg
  {}

  /** There is a run in which a node leads by another's vote and has committed an entry by another's word. */
  lemma DuoRunExists(cfg: Settings)
    requires cfg.boot == BOTH && !cfg.preVote
    ensures exists r, i: nat ::
              && IsRun(BOTH, r) && At(r, i, 1) && At(r, i, 2) && NodeAt(r, i, 1).role == Leader
              && NodeAt(r, i, 1).committed == 1 && NodeAt(r, i, 2).log == NodeAt(r, i, 1).log == [FIRST]
  {
    hide IsRun, NewNode, Campaign, Step;
    Starts(1, cfg);
    Starts(2, cfg);
    StartConfigured(cfg);
    var n1, n2 := NewNode(1, cfg), NewNode(2, cfg);
    StandsUp(n1);
    var r := Opens(cfg);
    r := Acts(BOTH, r, 1, Campaigns, Campaign(n1, false));
    n1 := Campaign(n1, false).(msgs := []);
    Votes(n2);
    r := Hears(BOTH, r, 2, ASK, Step(n2, ASK));
    n2 := Step(n2, ASK).(msgs := []);
    Wins(n1);
    r := Hears(BOTH, r, 1, YES, Step(n1, YES));
    n1 := Step(n1, YES).(msgs := []);
    Accepts(n2);
    r := Hears(BOTH, r, 2, OFFER, Step(n2, OFFER));
    Commits(n1);
    r := Hears(BOTH, r, 1, DONE, Step(n1, DONE));
    assert At(r, |r.who|, 1) && At(r, |r.who|, 2);
  }
}
