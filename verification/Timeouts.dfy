/** What a tick makes of a node that does not lead: nothing but a later timer, until the timer runs out; then a straw
poll, a campaign or, for a node whose own vote decides, an election (raft/raft.go, raft/election.go). */
module Timeouts {
  import opened Configurations
  import opened RaftTypes
  import opened RaftNode
  import opened Invariant
  import opened Steady
  import opened Clusters
  import opened Runs
  import opened Tenure

  // ---------------------------------------------------------------------------
  // Asking for votes
  // ---------------------------------------------------------------------------

  /** The requests a campaign puts to a voter. */
  function Ballot(n: Node, v: NodeID, preVote: bool): Message {
    VoteReq(n.id, v, n.term + 1, preVote, |n.log|, LastTerm(n.log))
  }

  lemma {:induction false} RequestsReach(n: Node, peers: seq<NodeID>, t: Term, preVote: bool, v: NodeID)
    requires v in peers && n.conf.IsVoter(v)
    ensures VoteReq(n.id, v, t, preVote, |n.log|, LastTerm(n.log)) in SendVoteRequests(n, peers, t, preVote).msgs
    decreases |peers|
  {
    var m := VoteReq(n.id, peers[0], t, preVote, |n.log|, LastTerm(n.log));
    var n1 := if n.conf.IsVoter(peers[0]) then Send(n, m) else n;
    if v == peers[0] {
      assert n1.msgs[|n.msgs|] == m;
      RequestsAdd(n1, peers[1..], t, preVote);
    } else {
      assert v in peers[1..];
      RequestsReach(n1, peers[1..], t, preVote, v);
    }
  }

  /** Only voters are asked, and all the same. */
  lemma {:induction false} RequestsAdd(n: Node, peers: seq<NodeID>, t: Term, preVote: bool)
    ensures var msgs := SendVoteRequests(n, peers, t, preVote).msgs;
            && n.msgs <= msgs
            && forall i :: |n.msgs| <= i < |msgs| ==>
                 && n.conf.IsVoter(msgs[i].to) && msgs[i].to in peers
                 && msgs[i] == VoteReq(n.id, msgs[i].to, t, preVote, |n.log|, LastTerm(n.log))
    decreases |peers|
  {
    if peers != [] {
      var n1 := if n.conf.IsVoter(peers[0])
      then Send(n, VoteReq(n.id, peers[0], t, preVote, |n.log|, LastTerm(n.log))) else n;
      RequestsAdd(n1, peers[1..], t, preVote);
    }
  }

  lemma {:induction false} NobodyRejects(voters: seq<NodeID>)
    ensures Count(voters, {}) == 0
  {
    if voters != [] { NobodyRejects(voters[1..]); }
  }

  lemma OwnVotes(n: Node)
    requires n.votes == map[n.id := true]
    ensures Granted(n) == {n.id} && Rejected(n) == {} && !Impossible(n.conf, Rejected(n))
  {
    NobodyRejects(n.conf.voters);
    NobodyRejects(n.conf.oldVoters);
  }

  /** What a node looks like when it has just stood: its own vote is all it has. */
  lemma Stood(n: Node, preVote: bool)
    requires n.role != Leader && !n.fault && n.hard.term == n.term && Sized(n)
    ensures var r := RecordVote(Stand(n, preVote), Stand(n, preVote).id, true);
            && !Stand(n, preVote).fault && r.votes == map[n.id := true] && Sized(r)
            && r.role == (if preVote then PreCandidate else Candidate)
            && r.term == (if preVote then n.term else n.term + 1)
            && r.vote == (if preVote then n.vote else n.id)
            && r.hard == (if preVote then n.hard else HardState(n.term + 1, n.id, n.committed))
            && r.id == n.id && r.conf == n.conf && r.log == n.log && r.committed == n.committed && r.msgs == n.msgs
            && r.lead == NONE && (n.electionElapsed == 0 ==> r.electionElapsed == 0) && !r.fault && r.cfg == n.cfg
  {}

  /** Every other voter has been asked, and nobody else. */
  ghost predicate AskedAll(n: Node, r: Node, preVote: bool) {
    && n.msgs <= r.msgs
    && (forall v :: n.conf.IsVoter(v) && v != n.id ==> Ballot(n, v, preVote) in r.msgs)
    && forall i :: |n.msgs| <= i < |r.msgs| ==>
         n.conf.IsVoter(r.msgs[i].to) && r.msgs[i].to != n.id && r.msgs[i] == Ballot(n, r.msgs[i].to, preVote)
  }

  /** A node whose own vote decides nothing stands and asks every other voter. */
  lemma Polls(n: Node, preVote: bool)
    requires n.role != Leader && !n.fault && n.hard.term == n.term && Sized(n) && n.conf.IsVoter(n.id)
    requires !Quorum(n.conf, {n.id})
    ensures var r := Campaign(n, preVote);
            && r.role == (if preVote then PreCandidate else Candidate)
            && r.term == (if preVote then n.term else n.term + 1)
            && r.vote == (if preVote then n.vote else n.id)
            && r.hard == (if preVote then n.hard else HardState(n.term + 1, n.id, n.committed))
            && r.lead == NONE && r.log == n.log && (n.electionElapsed == 0 ==> r.electionElapsed == 0)
            && AskedAll(n, r, preVote)
  {
    hide Stand, RecordVote, Quorum, SendVoteRequests, Campaign, Peers;
    Stood(n, preVote);
    var r := RecordVote(Stand(n, preVote), Stand(n, preVote).id, true);
    var peers, t := Peers(r.conf, r.id), n.term + 1;
    Asking(n, preVote, r);
    forall v | n.conf.IsVoter(v) && v != n.id
      ensures Ballot(n, v, preVote) in SendVoteRequests(r, peers, t, preVote).msgs
    {
      RequestsReach(r, peers, t, preVote, v);
    }
    RequestsAdd(r, peers, t, preVote);
  }

  lemma Asking(n: Node, preVote: bool, r: Node)
    requires n.conf.IsVoter(n.id) && Sized(n) && !Stand(n, preVote).fault && Sized(r)
    requires r == RecordVote(Stand(n, preVote), Stand(n, preVote).id, true) && r.votes == map[r.id := true]
    requires r.term == (if preVote then n.term else n.term + 1) && !Quorum(r.conf, {r.id})
    ensures Campaign(n, preVote) == SendVoteRequests(r, Peers(r.conf, r.id), n.term + 1, preVote)
  {
    hide Stand, RecordVote, Quorum, Impossible, TallyVotes, SendVoteRequests, Granted, Rejected, Peers;
    OwnVotes(r);
  }

  // ---------------------------------------------------------------------------
  // Electing oneself
  // ---------------------------------------------------------------------------

  lemma {:induction false} CountedIsThere(voters: seq<NodeID>, v: NodeID)
    requires Count(voters, {v}) > 0
    ensures v in voters
  {
    if voters[0] != v { CountedIsThere(voters[1..], v); }
  }

  /** A leader among the new voters stays one, whatever commits. */
  lemma {:induction false} VoterLeadsOn(n: Node)
    requires Sized(n) && n.role == Leader && n.id in n.conf.voters
    ensures var r := MaybeAdvanceCommit(n); r.fault || (r.role == Leader && r.id in r.conf.voters)
    decreases JointRank(n)
  {
    hide MaybeLeaveJoint, CommittedIndex, Matched, Persist;
    var c := CommitTo(n, CommittedIndex(n.conf, Matched(n)));
    PersistKeeps(c);
    if !Persist(c).fault { VoterLeavesJoint(Persist(c)); }
  }

  lemma {:induction false} VoterLeavesJoint(n: Node)
    requires Sized(n) && n.role == Leader && n.id in n.conf.voters
    ensures var r := MaybeLeaveJoint(n); r.fault || (r.role == Leader && r.id in r.conf.voters)
    decreases JointRank(n), 0
  {
    hide Propose, AppendOwn;
    if n.conf.IsJoint() && n.confIndex <= n.committed && LeaveJoint(n.conf).Changed? {
      LeavingIsNotJoint(n);
      var p := ConfEntry(LeaveJoint(n.conf).change);
      OwnVoter(n);
      OwnLog(n, p);
      VoterProposes(n, p);
    }
  }

  lemma OwnVoter(n: Node)
    requires Sized(n) && n.role == Leader && n.id in n.conf.voters && LeaveJoint(n.conf).Changed?
    ensures var r := AppendOwn(n, ConfEntry(LeaveJoint(n.conf).change)); r.role == Leader && r.id in r.conf.voters
  {
    hide Members;
    var e := Entry(|n.log| + 1, n.term, ConfEntry(LeaveJoint(n.conf).change));
    ConfOfAppend(n.cfg.boot, n.log, e);
  }

  lemma {:induction false} VoterProposes(n: Node, p: Payload)
    requires Sized(n) && n.role == Leader
    requires Sized(AppendOwn(n, p)) && AppendOwn(n, p).role == Leader
             && AppendOwn(n, p).id in AppendOwn(n, p).conf.voters
    ensures var r := Propose(n, p); r.fault || (r.role == Leader && r.id in r.conf.voters)
    decreases JointRank(AppendOwn(n, p)) + 1
  {
    hide MaybeAdvanceCommit, AppendOwn, SendAll;
    VoterLeadsOn(AppendOwn(n, p));
  }

  lemma CrownedShape(n: Node)
    requires Sized(n)
    ensures var r := Crowned(n);
            && Sized(r) && r.role == Leader && r.id == n.id && r.conf == n.conf && r.term == n.term
            && r.vote == n.vote && r.electionElapsed == 0
  {}

  /** A node whose own vote is a quorum has won. */
  lemma Wins(n: Node)
    requires Sized(n) && n.role == Candidate && n.vote == n.id && Quorum(n.conf, {n.id})
    ensures var r := BecomeLeader(n);
            r.fault ||
              (r.role == Leader && r.term == n.term && r.vote == n.id && r.hard == HardState(n.term, n.id, r.committed)
                && r.electionElapsed == 0)
  {
    hide MaybeAdvanceCommit, SendAll, Crowned;
    CountedIsThere(n.conf.voters, n.id);
    CrownedShape(n);
    VoterLeadsOn(Crowned(n));
    MaybeAdvanceTenure(Crowned(n));
    MaybeAdvanceCommitTerm(Crowned(n));
  }

  lemma Tallied(n: Node)
    requires Sized(n) && n.role == Candidate && n.vote == n.id && n.votes == map[n.id := true]
    requires Quorum(n.conf, {n.id})
    ensures TallyVotes(n) == BecomeLeader(n) == Canvass(n, false)
  {
    hide BecomeLeader, Quorum, Impossible, SendVoteRequests, Campaign;
    OwnVotes(n);
  }

  lemma StandsAndWins(n: Node)
    requires n.role != Leader && !n.fault && n.hard.term == n.term && Sized(n) && n.conf.IsVoter(n.id)
    requires Quorum(n.conf, {n.id})
    ensures var r := Campaign(n, false);
            r.fault ||
              (r.role == Leader && r.term == n.term + 1 && r.vote == n.id && r.electionElapsed == 0
                && r.hard == HardState(n.term + 1, n.id, r.committed))
  {
    hide Stand, RecordVote, Quorum, Canvass, BecomeLeader;
    Stood(n, false);
    var r := RecordVote(Stand(n, false), Stand(n, false).id, true);
    Tallied(r);
    Wins(r);
  }

  lemma PollsAndWins(n: Node)
    requires n.role != Leader && !n.fault && n.hard.term == n.term && Sized(n) && n.conf.IsVoter(n.id)
    requires Quorum(n.conf, {n.id})
    ensures var r := Campaign(n, true);
            r.fault ||
              (r.role == Leader && r.term == n.term + 1 && r.vote == n.id && r.electionElapsed == 0
                && r.hard == HardState(n.term + 1, n.id, r.committed))
  {
    hide Stand, RecordVote, Quorum, Impossible, TallyVotes, Granted, Rejected;
    Stood(n, true);
    var r := RecordVote(Stand(n, true), Stand(n, true).id, true);
    OwnVotes(r);
    assert Campaign(n, true) == TallyVotes(r);
    PollCarries(r);
    StandsAndWins(r);
  }

  lemma PollCarries(n: Node)
    requires Sized(n) && n.role == PreCandidate && Quorum(n.conf, Granted(n))
    ensures TallyVotes(n) == Campaign(n, false)
  {
    hide Campaign, Quorum, Granted;
  }

  // ---------------------------------------------------------------------------
  // Ticks
  // ---------------------------------------------------------------------------

  /** Is this the tick at which the node stops waiting for a leader? */
  predicate RunsOut(n: Node) { n.conf.IsVoter(n.id) && n.electionElapsed + 1 >= n.timeout }

  /** What a tick makes of a node that does not lead, `alone` saying whether its own vote is a quorum. */
  ghost predicate TickedTo(n: Node, r: Node, alone: bool) {
    if !RunsOut(n) then r == n.(electionElapsed := n.electionElapsed + 1)
    else
      && r.electionElapsed == 0
      && r.role == (if alone then Leader else if n.cfg.preVote then PreCandidate else Candidate)
      && (if !alone && n.cfg.preVote then r.term == n.term && r.vote == n.vote && r.hard == n.hard
          else r.term == n.term + 1 == r.hard.term && r.vote == n.id == r.hard.vote)
      && (!alone ==> r.lead == NONE && r.log == n.log && AskedAll(n, r, n.cfg.preVote))
  }

  lemma TickMeans(n: Node)
    requires Sized(n) && n.role != Leader && !n.fault && n.hard.term == n.term
    ensures Tick(n).fault || TickedTo(n, Tick(n), Quorum(n.conf, {n.id}))
  {
    hide Campaign, Quorum;
    if RunsOut(n) {
      var s := n.(electionElapsed := 0);
      if !Quorum(n.conf, {n.id}) {
        Polls(s, n.cfg.preVote);
        forall v ensures Ballot(s, v, n.cfg.preVote) == Ballot(n, v, n.cfg.preVote) {}
      } else if n.cfg.preVote {
        PollsAndWins(s);
      } else {
        StandsAndWins(s);
      }
    }
  }

  /** In every run, a tick of a member that does not lead moves only its timer; unless it is a voter whose timer runs
      out. Then it becomes a pre-candidate of its term, its vote untouched, or a candidate of the next term with its own
      vote on disk, or the leader of that term if its own vote is a quorum; and unless its own vote decides, it asks
      every other voter, giving the end of its log. */
  lemma TimeoutsStandForElection(boot: Configuration, r: Run, k: nat, a: NodeID)
    requires IsRun(boot, r) && |r.states| == |r.who| + 1 == |r.what| + 1 && k < |r.who| && At(r, k, a)
    requires r.who[k] == a && r.what[k] == Ticks && NodeAt(r, k, a).role != Leader
    ensures At(r, k + 1, a) && NodeAt(r, k, a).id == a
    ensures TickedTo(NodeAt(r, k, a), NodeAt(r, k + 1, a), Quorum(NodeAt(r, k, a).conf, {a}))
  {
    hide Tick, TickedTo, Quorum, IsRun;
    Ticked(boot, r, k, a);
    InOrder(boot, r, k, a);
    InOrder(boot, r, k + 1, a);
    TickMeans(NodeAt(r, k, a));
  }

  lemma Ticked(boot: Configuration, r: Run, k: nat, a: NodeID)
    requires IsRun(boot, r) && |r.states| == |r.who| + 1 == |r.what| + 1 && k < |r.who| && At(r, k, a)
    requires r.who[k] == a && r.what[k] == Ticks
    ensures At(r, k + 1, a) && Sized(NodeAt(r, k, a)) && NodeAt(r, k + 1, a) == Tick(NodeAt(r, k, a))
  {
    hide Tick, Init;
    assert StepAt(r, k);
  }
}
