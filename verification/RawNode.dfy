/** The node as the code has it: an object over a log over a store, updated in place (raft/raft.go,
election.go, replication.go, confchange.go, read.go, snapshot.go). Every method does to the object what
the function of the same name in RaftNode does to the value it stands for. */
module RawNodes {
  import opened Configurations
  import opened RaftTypes
  import opened RaftNode
  import opened LogStore
  import opened MemoryStore
  import opened RaftLogs
  import opened Steady

  class RawNode {
    const id: NodeID
    const cfg: Settings
    const log: RaftLog
    var term: Term
    var vote: NodeID
    var persisted: HardState
    var role: Role
    var lead: NodeID
    var conf: Configuration
    var confIndex: Index
    var votes: map<NodeID, bool>
    var progress: map<NodeID, Progress>
    var electionElapsed: nat
    var heartbeatElapsed: nat
    var timeout: nat
    var draws: nat
    var pendingReads: seq<ReadRequest>
    var readStates: seq<ReadState>
    var toRestore: Option<Snapshot>
    var msgs: seq<Message>
    /** A method has panicked or returned a fatal error; its caller stops the node. */
    var failed: bool

    ghost predicate Valid()
      reads this, log, log.storage
    {
      log.Valid() && persisted == log.storage.hardState
    }

    /** The node this object stands for, with the log it would have had without compaction. */
    ghost function View(): Node
      requires Valid()
      reads this, log, log.storage
    {
      Node(id, cfg, log.storage.hardState, log.Whole(), log.storage.Contents().floor, log.storage.snapshot,
           term, vote, log.committed, log.applied, role, lead, conf, confIndex, votes, progress,
           electionElapsed, heartbeatElapsed, timeout, draws, pendingReads, readStates, toRestore, msgs, failed)
    }

    // -------------------------------------------------------------------------
    // Messages, hard state, roles
    // -------------------------------------------------------------------------

    method Send(m: Message)
      requires Valid()
      modifies this
      ensures Valid() && View() == RaftNode.Send(old(View()), m)
    {
      msgs := msgs + [m];
    }

    method PersistHardState()
      requires Valid()
      modifies this, log.storage
      ensures Valid() && View() == Persist(old(View()))
    {
      var hs := HardState(term, vote, log.committed);
      if failed || hs == persisted {
        return;
      }
      var err := log.storage.SetHardState(hs);
      if err.Some? {
        failed := true;
        return;
      }
      persisted := hs;
    }

    method ResetTimeout()
      requires Valid()
      modifies this
      ensures Valid() && View() == Redraw(old(View()))
    {
      timeout := cfg.electionTick + cfg.jitter(draws);
      draws := draws + 1;
    }

    method Reset(t: Term)
      requires Valid()
      modifies this
      ensures Valid() && View() == RaftNode.Reset(old(View()), t)
    {
      EnterTerm(t);
      ClearTimers();
      ResetTimeout();
      ForgetPeers();
      DropPendingReads();
    }

    method EnterTerm(t: Term)
      requires Valid()
      modifies this
      ensures Valid() && View() == old(View()).(term := t, vote := if old(term) != t then NONE else old(vote))
    {
      if term != t {
        term, vote := t, NONE;
      }
    }

    method ForgetPeers()
      requires Valid()
      modifies this
      ensures Valid() && View() == old(View()).(votes := map[], progress := map[])
    {
      votes, progress := map[], map[];
    }

    method ClearTimers()
      requires Valid()
      modifies this
      ensures Valid() && View() == old(View()).(lead := NONE, electionElapsed := 0, heartbeatElapsed := 0)
    {
      lead, electionElapsed, heartbeatElapsed := NONE, 0, 0;
    }

    method DropPendingReads()
      requires Valid()
      modifies this
      ensures Valid() && View() == old(View()).(pendingReads := [], readStates := [])
    {
      pendingReads, readStates := [], [];
    }

    method BecomeFollower(t: Term, leader: NodeID)
      requires Valid()
      modifies this
      ensures Valid() && View() == RaftNode.BecomeFollower(old(View()), t, leader)
    {
      Reset(t);
      role, lead := Follower, leader;
    }

    method BecomePreCandidate()
      requires Valid()
      modifies this
      ensures Valid() && View() == RaftNode.BecomePreCandidate(old(View()))
    {
      if role == Leader {
        failed := true;
        return;
      }
      role, votes, lead := PreCandidate, map[], NONE;
      ResetTimeout();
    }

    method BecomeCandidate()
      requires Valid()
      modifies this
      ensures Valid() && View() == RaftNode.BecomeCandidate(old(View()))
    {
      if role == Leader {
        failed := true;
        return;
      }
      Reset(term + 1);
      role, vote := Candidate, id;
    }

    // -------------------------------------------------------------------------
    // Sending
    // -------------------------------------------------------------------------

    method SendSnapshot(to: NodeID)
      requires Valid()
      modifies this
      ensures Valid() && View() == RaftNode.SendSnapshot(old(View()), to)
    {
      if to !in progress || progress[to].pendingSnapshot != 0 {
        return;
      }
      var snap := log.storage.snapshot;
      if snap.lastIndex == 0 {
        return;
      }
      progress := progress[to := progress[to].(pendingSnapshot := snap.lastIndex, snapshotTicks := 0)];
      Send(SnapReq(id, to, term, snap));
    }

    method SendAppend(to: NodeID, readId: nat)
      requires Valid()
      modifies this
      ensures Valid() && View() == RaftNode.SendAppend(old(View()), to, readId)
    {
      ghost var n := View();
      if to !in progress || progress[to].pendingSnapshot != 0 {
        return;
      }
      var next: Index := progress[to].next;
      var prevTerm := log.Term(next - 1, n);
      if prevTerm == None {
        SendSnapshot(to);
        return;
      }
      var entries := Batch(next);
      if entries == None {
        return;
      }
      Send(AppendReq(id, to, term, next - 1, prevTerm.value, entries.value, log.committed, readId));
    }

    /** What fits in one message from `next` on, unless it has been compacted away. */
    method Batch(next: Index) returns (r: Option<seq<Entry>>)
      requires Valid() && 0 < next <= |View().log| + 1
      ensures var n := View();
              r == if next - 1 < |n.log| && next - 1 < n.floor then None
                   else Some(n.log[next - 1..BatchEnd(n, next - 1)])
    {
      ghost var n := View();
      if next > log.LastIndex() {
        assert n.log[next - 1..BatchEnd(n, next - 1)] == [];
        return Some([]);
      }
      var hi := if log.LastIndex() + 1 <= next + cfg.maxEntries then log.LastIndex() + 1 else next + cfg.maxEntries;
      r := log.Entries(next, hi, n);
    }

    method SendToAll(readId: nat)
      requires Valid()
      modifies this
      ensures Valid() && View() == SendAll(old(View()), Peers(old(conf), id), readId)
    {
      hide RaftNode.SendAppend, Peers, LogStore.Valid;
      var peers := Peers(conf, id);
      for i := 0 to |peers|
        invariant Valid() && SendAll(View(), peers[i..], readId) == SendAll(old(View()), peers, readId)
      {
        assert peers[i..][0] == peers[i] && peers[i..][1..] == peers[i + 1..];
        SendAppend(peers[i], readId);
      }
    }

    method BroadcastAppend()
      requires Valid()
      modifies this
      ensures Valid() && View() == RaftNode.BroadcastAppend(old(View()))
    {
      SendToAll(0);
    }

    // -------------------------------------------------------------------------
    // Membership
    // -------------------------------------------------------------------------

    /** Searches what is left of the log backwards. */
    method FindConfiguration() returns (found: Configuration, at: Index)
      requires Valid()
      ensures (found, at) == Rescan(View())
    {
      ghost var n := View();
      ghost var k := LastConfIndex(n.log);
      var i := log.LastIndex();
      while i >= log.FirstIndex() && i > 0
        invariant k <= i <= |n.log| || i < n.floor + 1
        invariant k > n.floor ==> k <= i
        decreases i
      {
        var e := log.storage.GetEntry(i);
        assert e == Ok(n.log[i - 1]);
        if e.value.payload.ConfEntry? {
          return e.value.payload.change.config, i;
        }
        i := i - 1;
      }
      if !log.storage.snapshot.config.IsEmpty() {
        return log.storage.snapshot.config, log.storage.snapshot.lastIndex;
      }
      return cfg.boot, 0;
    }

    method RefreshConfiguration()
      requires Valid()
      modifies this
      ensures Valid() && View() == RaftNode.RefreshConfiguration(old(View()))
    {
      var found, at := FindConfiguration();
      SetConfiguration(found, at);
    }

    method SetConfiguration(c: Configuration, at: Index)
      requires Valid()
      modifies this
      ensures Valid() && View() == RaftNode.SetConfiguration(old(View()), c, at)
    {
      if conf == c && confIndex == at {
        return;
      }
      conf := c;
      confIndex := at;
      if role == Leader {
        RefreshProgress();
      }
    }

    /** Starts tracking members it did not track, and drops those that are no longer members. */
    method RefreshProgress()
      requires Valid()
      modifies this
      ensures Valid() && View() == RaftNode.RefreshProgress(old(View()))
    {
      var members, last, tracked := Members(conf), log.LastIndex(), progress;
      for i := 0 to |members|
        invariant forall x :: x in tracked <==> x in progress || x in members[..i]
        invariant forall x :: x in tracked ==> tracked[x] == if x in progress then progress[x] else Fresh(x, last)
      {
        if members[i] !in tracked { tracked := tracked[members[i] := Fresh(members[i], last)]; }
      }
      ghost var spec := RaftNode.RefreshProgress(View()).progress;
      tracked := map x | x in tracked && (x in members || x == id) :: tracked[x];
      assert forall x :: x in tracked <==> x in spec;
      assert tracked == spec;
      progress := tracked;
    }

    function Fresh(x: NodeID, last: Index): Progress { Progress(if x == id then last else 0, last + 1, 0, 0) }

    method RefreshIfNeeded(entries: seq<Entry>)
      requires Valid()
      modifies this
      ensures Valid() && View() == RaftNode.RefreshIfNeeded(old(View()), entries)
    {
      var changed := confIndex > log.LastIndex();
      for i := 0 to |entries|
        invariant changed || forall j :: 0 <= j < i ==>
                  !entries[j].payload.ConfEntry? && !(confIndex > 0 && entries[j].index <= confIndex)
        invariant changed ==> NeedsRefresh(View(), entries)
      {
        if entries[i].payload.ConfEntry? || (confIndex > 0 && entries[i].index <= confIndex) {
          changed := true;
          break;
        }
      }
      if changed {
        RefreshConfiguration();
      }
    }

    method StepDownIfRemoved()
      requires Valid()
      modifies this
      ensures Valid() && View() == RaftNode.StepDownIfRemoved(old(View()))
    {
      if role != Leader || conf.IsJoint() || conf.IsVoter(id) {
        return;
      }
      if confIndex > log.committed {
        return;
      }
      BecomeFollower(term, NONE);
    }

    method CommittedInTerm() returns (yes: bool)
      requires Valid()
      ensures yes == CommittedInCurrentTerm(View())
    {
      if log.committed == 0 {
        return false;
      }
      var t := log.Term(log.committed, View());
      yes := t == Some(term);
    }

    // -------------------------------------------------------------------------
    // Starting
    // -------------------------------------------------------------------------

    /** A node that has read its store and not looked for its configuration yet. `was` is any node that
        left this store behind. */
    constructor Bare(id: NodeID, cfg: Settings, storage: MemoryStorage, draw: nat, ghost was: Node)
      requires storage.Valid() && LeftBehind(was, id, cfg, draw, storage.Contents())
      ensures Valid() && fresh(log) && log.storage == storage && View() == Recovered(was)
    {
      this.id, this.cfg := id, cfg;
      var l := new RaftLog(storage, was.log[..was.floor]);
      this.log := l;
      this.term, this.vote, this.persisted := storage.hardState.term, storage.hardState.vote, storage.hardState;
      this.role, this.lead := Follower, NONE;
      this.conf := if storage.snapshot.config.IsEmpty() then cfg.boot else storage.snapshot.config;
      this.confIndex := if storage.snapshot.config.IsEmpty() then 0 else storage.snapshot.lastIndex;
      this.votes, this.progress := map[], map[];
      this.electionElapsed, this.heartbeatElapsed, this.timeout, this.draws := 0, 0, 0, draw;
      this.pendingReads, this.readStates, this.toRestore, this.msgs, this.failed := [], [], None, [], false;
    }

    // -------------------------------------------------------------------------
    // Proposing and committing
    // -------------------------------------------------------------------------

    method AppendToLog(e: Entry)
      requires Valid() && e.index == |View().log| + 1
      modifies log, log.storage
      ensures Valid() && View() == old(View()).(log := old(View()).log + [e])
    {
      ghost var n := View();
      var bad := log.Append([e], n.(fault := false));
      assert n.log[..|n.log|] == n.log;
    }

    /** A leader matches its own log. */
    method NoteOwn(index: Index)
      requires Valid()
      modifies this
      ensures Valid()
      ensures var n := old(View());
              View() == if n.id in n.progress
                        then n.(progress := n.progress[n.id := n.progress[n.id].(matched := index, next := index + 1)])
                        else n
    {
      if id in progress {
        progress := progress[id := progress[id].(matched := index, next := index + 1)];
      }
    }

    /** Appends an entry of its own and takes note of it, committing nothing yet. */
    method TakeEntry(p: Payload) returns (index: Index)
      requires Valid() && !failed
      modifies this, log, log.storage
      ensures Valid() && !failed && View() == AppendOwn(old(View()), p) && index == |old(View()).log| + 1
    {
      hide RaftNode.RefreshConfiguration;
      index := log.LastIndex() + 1;
      AppendToLog(Entry(index, term, p));
      if p.ConfEntry? {
        RescannedShape(View());
        RefreshConfiguration();
      }
      NoteOwn(index);
    }

    method Propose(p: Payload) returns (index: Index, refused: bool)
      requires Valid() && !failed
      modifies this, log, log.storage
      ensures Valid() && View() == RaftNode.Propose(old(View()), p)
      ensures refused <==> old(role) != Leader
      ensures !refused ==> index == |old(View()).log| + 1
      decreases JointRank(AppendOwn(View(), p)) + 1
    {
      hide AppendOwn, RaftNode.MaybeAdvanceCommit, SendAll;
      if role != Leader {
        return 0, true;
      }
      refused := false;
      index := TakeEntry(p);
      var advanced := MaybeAdvanceCommit();
      if failed {
        return;
      }
      BroadcastAppend();
    }

    method CommitTo(i: Index)
      requires Valid() && !failed && i <= |View().log|
      modifies this, log, log.storage
      ensures Valid() && View() == Persist(RaftNode.CommitTo(old(View()), i))
    {
      hide Persist;
      var beyond := log.CommitsTo(i, View());
      PersistHardState();
    }

    /** The highest index a quorum has, if it is above the commit index and of this leader's own term. */
    method CommitCandidate() returns (candidate: Index, may: bool)
      requires Valid() && !failed && role == Leader
      modifies this
      ensures Valid()
      ensures var n := old(View());
              && candidate == CommittedIndex(n.conf, Matched(n))
              && View() == (if candidate > n.committed && TermOf(n, candidate).None? then Fail(n) else n)
              && may == (candidate > n.committed && TermOf(n, candidate) == Some(n.term))
    {
      hide CommittedIndex;
      candidate := ComputeCommittedIndex(conf, map x | x in progress :: progress[x].matched);
      may := false;
      if candidate > log.committed {
        var t := log.Term(candidate, View());
        failed := t == None;
        may := t == Some(term);
      }
    }

    method MaybeAdvanceCommit() returns (advanced: bool)
      requires Valid() && !failed
      modifies this, log, log.storage
      ensures Valid() && View() == RaftNode.MaybeAdvanceCommit(old(View()))
      ensures !failed ==> advanced == (View().committed > old(View()).committed)
      decreases JointRank(View())
    {
      hide RaftNode.MaybeLeaveJoint, RaftNode.StepDownIfRemoved, CommittedIndex, Matched;
      advanced := false;
      if role != Leader {
        return;
      }
      var candidate, may := CommitCandidate();
      if failed || !may {
        return;
      }
      CommitTo(candidate);
      if failed {
        return;
      }
      MaybeLeaveJointOnward(View());
      MaybeLeaveJoint();
      if failed {
        return;
      }
      StepDownKeeps(View());
      StepDownIfRemoved();
      advanced := true;
    }

    method MaybeLeaveJoint()
      requires Valid() && !failed
      modifies this, log, log.storage
      ensures Valid() && View() == RaftNode.MaybeLeaveJoint(old(View()))
      decreases JointRank(View()), 0
    {
      if role != Leader || !conf.IsJoint() {
        return;
      }
      if confIndex > log.committed {
        return;
      }
      var cc := LeaveJoint(conf);
      if cc.Refused? {
        failed := true;
        return;
      }
      LeavingIsNotJoint(View());
      var index, refused := Propose(ConfEntry(cc.change));
    }

    method ProposeConfChange(target: Configuration) returns (index: Index, err: Option<ProposeError>)
      requires Valid() && !failed
      modifies this, log, log.storage
      ensures Valid() && View() == RaftNode.ProposeConfChange(old(View()), target)
      ensures err == ConfChangeError(old(View()), target)
      ensures err == None ==> index == |old(View()).log| + 1
    {
      hide RaftNode.Propose;
      if role != Leader {
        return 0, Some(NotLeader);
      }
      if conf.IsJoint() || confIndex > log.committed {
        return 0, Some(ConfChangeInProgress);
      }
      var ready := CommittedInTerm();
      if !ready {
        return 0, Some(ReadIndexUnavailable);
      }
      var cc := EnterJoint(conf, target);
      if cc.Refused? {
        return 0, Some(ConfChangeInvalid);
      }
      var refused;
      index, refused := Propose(ConfEntry(cc.change));
      err := None;
    }

    // -------------------------------------------------------------------------
    // Elections
    // -------------------------------------------------------------------------

    /** Takes the lead: tracks every member and appends the no-op entry of its term. */
    method TakeOver()
      requires Valid() && !failed
      modifies this, log, log.storage
      ensures Valid() && !failed && View() == Crowned(old(View()))
    {
      hide RaftNode.Reset, Crowned, FreshProgress, Members;
      CrownedIs(View());
      var last := log.LastIndex();
      Reset(term);
      Track(last);
      AppendToLog(Entry(last + 1, term, NoOp));
    }

    method Track(last: Index)
      requires Valid() && last == |View().log|
      modifies this
      ensures Valid()
      ensures var n := old(View());
              var all := map x | x in Members(n.conf) :: FreshProgress(n, x, last);
              View() == n.(role := Leader, lead := n.id, progress := all[n.id := Progress(last + 1, last + 2, 0, 0)])
    {
      hide LogStore.Valid, Members;
      var all := map x | x in Members(conf) :: Fresh(x, last);
      role, lead, progress := Leader, id, all[id := Progress(last + 1, last + 2, 0, 0)];
    }

    method BecomeLeader()
      requires Valid() && !failed
      modifies this, log, log.storage
      ensures Valid() && View() == RaftNode.BecomeLeader(old(View()))
    {
      hide Crowned, RaftNode.MaybeAdvanceCommit, Persist, SendAll;
      if role == Follower || id !in Members(conf) {
        failed := true;
        return;
      }
      CrownedSized(View());
      TakeOver();
      var advanced := MaybeAdvanceCommit();
      if failed {
        return;
      }
      PersistHardState();
      if failed {
        return;
      }
      BroadcastAppend();
    }

    method RecordVote(from: NodeID, granted: bool)
      requires Valid()
      modifies this
      ensures Valid() && View() == RaftNode.RecordVote(old(View()), from, granted)
    {
      if from in votes {
        return;
      }
      votes := votes[from := granted];
    }

    method Stand(preVote: bool)
      requires Valid() && !failed
      modifies this, log.storage
      ensures Valid() && View() == RaftNode.Stand(old(View()), preVote)
    {
      hide RaftNode.BecomeCandidate, RaftNode.BecomePreCandidate, Persist;
      if preVote {
        BecomePreCandidate();
      } else {
        BecomeCandidate();
        PersistHardState();
      }
    }

    method Campaign(preVote: bool)
      requires Valid() && !failed
      modifies this, log, log.storage
      ensures Valid() && View() == RaftNode.Campaign(old(View()), preVote)
      decreases if preVote then 3 else 1
    {
      hide RaftNode.Stand, RaftNode.TallyVotes, RaftNode.SendVoteRequests, Quorum, Impossible;
      if !conf.IsVoter(id) {
        return;
      }
      StandOnward(View(), preVote);
      Stand(preVote);
      if failed {
        return;
      }
      RecordVote(id, true);
      var done := TallyVotes();
      if failed || done {
        return;
      }
      SendVoteRequests(if preVote then term + 1 else term, preVote);
    }

    method SendVoteRequests(t: Term, preVote: bool)
      requires Valid()
      modifies this
      ensures Valid() && View() == RaftNode.SendVoteRequests(old(View()), Peers(old(conf), id), t, preVote)
    {
      hide Peers, LogStore.Valid, LastTerm;
      var peers := Peers(conf, id);
      var lastIndex := log.LastIndex();
      var lastTerm := log.LastTermOf(View());
      for i := 0 to |peers|
        invariant Valid() && View() == old(View()).(msgs := msgs)
        invariant RaftNode.SendVoteRequests(View(), peers[i..], t, preVote) ==
                  RaftNode.SendVoteRequests(old(View()), peers, t, preVote)
      {
        assert peers[i..][0] == peers[i] && peers[i..][1..] == peers[i + 1..];
        if conf.IsVoter(peers[i]) {
          Send(VoteReq(id, peers[i], t, preVote, lastIndex, lastTerm));
        }
      }
    }

    method TallyVotes() returns (done: bool)
      requires Valid() && !failed
      modifies this, log, log.storage
      ensures Valid() && View() == RaftNode.TallyVotes(old(View()))
      ensures done == (Quorum(old(conf), Granted(old(View()))) || Impossible(old(conf), Rejected(old(View()))))
      ensures !done ==> View() == old(View())
      decreases if role == PreCandidate then 2 else 0, 0
    {
      hide RaftNode.Campaign, RaftNode.BecomeLeader, Quorum, Impossible;
      var won := HasQuorum(conf, set v | v in votes && votes[v]);
      if won {
        done := true;
        if role == PreCandidate {
          Campaign(false);
        } else {
          BecomeLeader();
        }
        return;
      }
      done := QuorumImpossible(conf, set v | v in votes && !votes[v]);
      if done {
        BecomeFollower(term, NONE);
      }
    }

    method MayVote(m: Message) returns (yes: bool)
      requires Valid() && m.VoteReq?
      ensures yes == CanVote(View(), m)
    {
      if m.preVote {
        if m.term <= term {
          return false;
        }
        return lead == NONE || electionElapsed >= timeout;
      }
      yes := vote == m.from || (vote == NONE && lead == NONE);
    }

    method HandleVoteRequest(m: Message)
      requires Valid() && !failed && m.VoteReq?
      modifies this, log.storage
      ensures Valid() && View() == RaftNode.HandleVoteRequest(old(View()), m)
    {
      hide CanVote, UpToDate, Persist;
      ghost var n := View();
      var granted := MayVote(m);
      if granted {
        granted := log.IsUpToDate(m.lastIndex, m.lastTerm, n);
      }
      if granted && !m.preVote {
        vote, electionElapsed := m.from, 0;
        PersistHardState();
        PersistKeeps(n.(vote := m.from, electionElapsed := 0));
        if failed {
          return;
        }
      }
      Send(VoteResp(id, m.from, if m.preVote && granted then m.term else term, m.preVote, granted));
    }

    method HandleVoteResponse(m: Message)
      requires Valid() && !failed && m.VoteResp?
      modifies this, log, log.storage
      ensures Valid() && View() == RaftNode.HandleVoteResponse(old(View()), m)
    {
      hide RaftNode.TallyVotes;
      if (m.preVote && role != PreCandidate) || (!m.preVote && role != Candidate) {
        return;
      }
      RecordVote(m.from, m.granted);
      var done := TallyVotes();
    }

    // -------------------------------------------------------------------------
    // Replication
    // -------------------------------------------------------------------------

    method FollowLeader(m: Message)
      requires Valid()
      modifies this
      ensures Valid() && View() == RaftNode.FollowLeader(old(View()), m)
    {
      hide RaftNode.BecomeFollower;
      electionElapsed := 0;
      if role != Follower {
        BecomeFollower(m.term, m.from);
      }
      lead := m.from;
    }

    method HandleAppendRequest(m: Message)
      requires Valid() && !failed && m.AppendReq?
      modifies this, log, log.storage
      ensures Valid() && View() == RaftNode.HandleAppendRequest(old(View()), m)
    {
      hide RaftNode.FollowLeader, RaftNode.AcceptEntries, ConflictHint, MatchTerm;
      FollowKeeps(View(), m);
      FollowLeader(m);
      if m.prevIndex < log.committed {
        Send(AppendResp(id, m.from, term, true, log.committed, 0, 0, m.readId));
        return;
      }
      var matches := log.MatchesTerm(m.prevIndex, m.prevTerm, View());
      if !matches {
        var ci, ct := log.Hint(m.prevIndex, View());
        Send(AppendResp(id, m.from, term, false, 0, ci, ct, m.readId));
        return;
      }
      AcceptEntries(m);
    }

    method WriteEntries(prev: Index, entries: seq<Entry>)
      requires Valid() && !failed
      modifies this, log, log.storage
      ensures Valid() && View() == AppendConflicting(old(View()), prev, entries)
    {
      hide AppendConflicting;
      WrittenOrFailed(View(), prev, entries);
      WrittenShape(View(), prev, entries);
      failed := log.AppendFrom(prev, entries, View());
    }

    method LearnCommit(i: Index)
      requires Valid() && !failed
      modifies this, log
      ensures Valid() && View() == RaftNode.CommitTo(old(View()), i)
    {
      failed := log.CommitsTo(i, View());
    }

    method AcceptEntries(m: Message)
      requires Valid() && !failed && m.AppendReq?
      modifies this, log, log.storage
      ensures Valid() && View() == RaftNode.AcceptEntries(old(View()), m)
    {
      hide AppendConflicting, RaftNode.CommitTo, RaftNode.RefreshIfNeeded, Persist;
      var lastNew := m.prevIndex + |m.entries|;
      WrittenShape(View(), m.prevIndex, m.entries);
      WriteEntries(m.prevIndex, m.entries);
      if failed {
        return;
      }
      CommitKeeps(View(), if m.commit < lastNew then m.commit else lastNew);
      LearnCommit(if m.commit < lastNew then m.commit else lastNew);
      if failed {
        return;
      }
      RefreshedShape(View(), m.entries);
      RefreshIfNeeded(m.entries);
      PersistKeeps(View());
      PersistHardState();
      if failed {
        return;
      }
      Send(AppendResp(id, m.from, term, true, lastNew, 0, 0, m.readId));
    }

    /** After a match: tell everyone if the commit index moved, else keep feeding the follower. */
    method Feed(from: NodeID, next: pos, advanced: bool)
      requires Valid()
      modifies this
      ensures Valid() && View() == RaftNode.Feed(old(View()), from, next, advanced)
    {
      hide RaftNode.SendAppend, SendAll;
      if failed {
        return;
      }
      if advanced {
        BroadcastAppend();
      } else if next <= log.LastIndex() {
        SendAppend(from, 0);
      }
    }

    method RecordMatch(from: NodeID, i: Index)
      requires Valid() && !failed && from in progress
      modifies this, log, log.storage
      ensures Valid() && View() == RaftNode.RecordMatch(old(View()), from, i)
    {
      hide RaftNode.MaybeAdvanceCommit, RaftNode.Feed;
      if i > progress[from].matched {
        progress := progress[from := progress[from].(matched := i, next := i + 1)];
        assert View() == WithMatch(old(View()), from, i);
        var advanced := MaybeAdvanceCommit();
        FailedFeed(View(), from, i + 1);
        Feed(from, i + 1, advanced);
      } else {
        Feed(from, progress[from].next, false);
      }
    }

    /** Walks back from the end of the log; terms only fall on the way. */
    method LastOfTerm(t: Term) returns (r: Option<Index>)
      requires Valid()
      ensures r == LastIndexOfTerm(View(), t, |View().log|)
    {
      ghost var n := View();
      var i := log.LastIndex();
      while i >= log.FirstIndex() && i > 0
        invariant 0 <= i <= |n.log| && LastIndexOfTerm(n, t, |n.log|) == LastIndexOfTerm(n, t, i)
      {
        var x := log.Term(i, n);
        if x == Some(t) {
          return Some(i);
        }
        if x.value < t {
          return None;
        }
        i := i - 1;
      }
      r := None;
    }

    method NextAfter(pr: Progress, m: Message) returns (next: Index)
      requires Valid() && m.AppendResp?
      ensures next == NextAfterRejection(View(), pr, m)
    {
      if m.conflictTerm > 0 {
        var own := LastOfTerm(m.conflictTerm);
        return if own.Some? then own.value + 1 else m.conflictIndex;
      }
      next := if m.conflictIndex > 0 then m.conflictIndex else pr.next - 1;
    }

    method HandleAppendResponse(m: Message)
      requires Valid() && !failed && m.AppendResp?
      modifies this, log, log.storage
      ensures Valid() && View() == RaftNode.HandleAppendResponse(old(View()), m)
    {
      hide RaftNode.RecordMatch, RaftNode.AckRead, NextAfterRejection, RaftNode.SendAppend;
      if role != Leader || m.from !in progress {
        return;
      }
      if m.readId != 0 {
        AckKeeps(View(), m.from, m.readId);
        AckRead(m.from, m.readId);
      }
      if m.success {
        RecordMatch(m.from, m.matchIndex);
        return;
      }
      var pr := progress[m.from];
      var next := NextAfter(pr, m);
      if next < 1 {
        next := 1;
      }
      if next <= pr.matched {
        next := pr.matched + 1;
      }
      if next < pr.next {
        progress := progress[m.from := pr.(next := next)];
        SendAppend(m.from, 0);
      }
    }

    // -------------------------------------------------------------------------
    // Reads
    // -------------------------------------------------------------------------

    method ReadIndex(rid: nat) returns (err: Option<ProposeError>)
      requires Valid() && !failed
      modifies this
      ensures Valid() && View() == RaftNode.ReadIndex(old(View()), rid) && err == ReadIndexError(old(View()))
    {
      hide SendAll, Quorum, CommittedInCurrentTerm;
      if role != Leader {
        return Some(NotLeader);
      }
      var ready := CommittedInTerm();
      if !ready {
        return Some(ReadIndexUnavailable);
      }
      err := None;
      var alone := HasQuorum(conf, {id});
      if alone {
        readStates := readStates + [ReadState(rid, log.committed)];
        return;
      }
      pendingReads := pendingReads + [ReadRequest(rid, log.committed, {id})];
      SendToAll(rid);
    }

    method AckRead(from: NodeID, rid: nat)
      requires Valid()
      modifies this
      ensures Valid() && View() == RaftNode.AckRead(old(View()), from, rid)
    {
      hide Quorum;
      var i := 0;
      while i < |pendingReads|
        invariant 0 <= i <= |pendingReads|
        invariant forall j :: 0 <= j < i ==> pendingReads[j].id != rid
      {
        if pendingReads[i].id == rid {
          break;
        }
        i := i + 1;
      }
      assert i == FindRead(pendingReads, rid);
      if i == |pendingReads| {
        return;
      }
      var req := pendingReads[i].(acks := pendingReads[i].acks + {from});
      var enough := HasQuorum(conf, req.acks);
      if enough {
        readStates, pendingReads := readStates + [ReadState(req.id, req.index)],
          pendingReads[..i] + pendingReads[i + 1..];
      } else {
        pendingReads := pendingReads[i := req];
      }
    }

    // -------------------------------------------------------------------------
    // Snapshots
    // -------------------------------------------------------------------------

    method HandleSnapshotRequest(m: Message)
      requires Valid() && !failed && m.SnapReq? && WholeImage(m.snap)
      modifies this, log, log.storage
      ensures Valid() && View() == RaftNode.HandleSnapshotRequest(old(View()), m)
    {
      hide RaftNode.FollowLeader, RaftNode.SaveSnapshot, RaftNode.SetConfiguration, Persist;
      FollowKeeps(View(), m);
      FollowLeader(m);
      ghost var n := View();
      var stale := Install(m.snap);
      if stale {
        Send(SnapResp(id, m.from, term, true, log.committed));
        return;
      }
      if !m.snap.config.IsEmpty() {
        SetKeeps(View(), m.snap.config, m.snap.lastIndex);
        SetConfiguration(m.snap.config, m.snap.lastIndex);
      }
      toRestore := Some(m.snap);
      PersistKeeps(View());
      PersistHardState();
      if failed {
        return;
      }
      Send(SnapResp(id, m.from, term, true, m.snap.lastIndex));
    }

    method Install(snap: Snapshot) returns (stale: bool)
      requires Valid() && !failed && WholeImage(snap)
      modifies this, log, log.storage
      ensures Valid()
      ensures var n := old(View());
              && stale == (snap.lastIndex <= n.committed || snap.lastIndex <= n.snap.lastIndex)
              && View() == (if stale then n
                            else RaftNode.SaveSnapshot(n, snap).(committed := snap.lastIndex,
                              applied := snap.lastIndex))
              && View().id == n.id && View().term == n.term && !View().fault
    {
      stale := log.Restore(snap, View());
    }

    method HandleSnapshotResponse(m: Message)
      requires Valid() && !failed && m.SnapResp?
      modifies this, log, log.storage
      ensures Valid() && View() == RaftNode.HandleSnapshotResponse(old(View()), m)
    {
      hide RaftNode.RecordMatch;
      if role != Leader || m.from !in progress {
        return;
      }
      progress := progress[m.from := progress[m.from].(pendingSnapshot := 0, snapshotTicks := 0)];
      if !m.success {
        return;
      }
      RecordMatch(m.from, m.matchIndex);
    }

    /** Folds what has been applied into a snapshot, and discards all but a tail of what it covers. */
    method CreateSnapshot(image: seq<Entry>)
      requires Valid() && !failed
      modifies log, log.storage
      ensures Valid() && View() == RaftNode.CreateSnapshot(old(View()), image)
    {
      ghost var n := View();
      var applied := log.applied;
      if applied == 0 {
        return;
      }
      var t := log.Term(applied, n);
      var snap := Snapshot(applied, t.value, conf, image);
      var err, panicked := log.storage.SaveSnapshot(snap);
      if err.Some? {
        return;
      }
      ghost var n1 := View();
      assert n1 == n.(snap := snap);
      var upto := applied;
      if cfg.catchUp > 0 {
        if applied <= cfg.catchUp {
          return;
        }
        upto := applied - cfg.catchUp;
      }
      if upto <= log.FirstIndex() - 1 {
        return;
      }
      var bad := log.Compact(upto, n1);
    }

    method ExpirePendingSnapshots()
      requires Valid()
      modifies this
      ensures Valid() && View() == RaftNode.ExpirePendingSnapshots(old(View()))
    {
      hide Members, LogStore.Valid;
      ghost var n := View();
      var left := Expired(progress, Members(conf), cfg.retryHeartbeats);
      progress := left;
      assert progress == RaftNode.ExpirePendingSnapshots(n).progress;
    }

    // -------------------------------------------------------------------------
    // The entry points
    // -------------------------------------------------------------------------

    method StepHigherTerm(m: Message)
      requires Valid() && !failed
      modifies this, log.storage
      ensures Valid() && View() == RaftNode.StepHigherTerm(old(View()), m)
    {
      hide RaftNode.BecomeFollower, Persist;
      if (m.VoteReq? && m.preVote) || (m.VoteResp? && m.preVote && m.granted) {
        return;
      }
      BecomeFollower(m.term, if m.AppendReq? || m.SnapReq? then m.from else NONE);
      PersistHardState();
    }

    method StepLowerTerm(m: Message)
      requires Valid()
      modifies this
      ensures Valid() && View() == RaftNode.StepLowerTerm(old(View()), m)
    {
      if m.AppendReq? || m.SnapReq? {
        Send(AppendResp(id, m.from, term, false, 0, 0, 0, 0));
      } else if m.VoteReq? {
        Send(VoteResp(id, m.from, term, m.preVote, false));
      }
    }

    method Dispatch(m: Message)
      requires Valid() && !failed && (m.SnapReq? ==> WholeImage(m.snap))
      modifies this, log, log.storage
      ensures Valid() && View() == RaftNode.Dispatch(old(View()), m)
    {
      hide RaftNode.HandleVoteRequest, RaftNode.HandleVoteResponse, RaftNode.HandleAppendRequest,
        RaftNode.HandleAppendResponse, RaftNode.HandleSnapshotRequest, RaftNode.HandleSnapshotResponse;
      match m {
        case VoteReq(_, _, _, _, _, _) => HandleVoteRequest(m);
        case VoteResp(_, _, _, _, _) => HandleVoteResponse(m);
        case AppendReq(_, _, _, _, _, _, _, _) => HandleAppendRequest(m);
        case AppendResp(_, _, _, _, _, _, _, _) => HandleAppendResponse(m);
        case SnapReq(_, _, _, _) => HandleSnapshotRequest(m);
        case SnapResp(_, _, _, _, _) => HandleSnapshotResponse(m);
      }
    }

    /** Delivers one message. */
    method Step(m: Message)
      requires Valid() && !failed && (m.SnapReq? ==> WholeImage(m.snap))
      modifies this, log, log.storage
      ensures Valid() && View() == RaftNode.Step(old(View()), m)
    {
      hide RaftNode.Dispatch, RaftNode.StepHigherTerm, RaftNode.StepLowerTerm;
      if m.to != id && m.to != NONE {
        return;
      }
      if m.term > term {
        StepHigherTerm(m);
        if failed {
          return;
        }
      } else if m.term < term {
        StepLowerTerm(m);
        return;
      }
      Dispatch(m);
    }

    method CountTick()
      requires Valid()
      modifies `heartbeatElapsed, `electionElapsed
      ensures Valid()
      ensures View() == old(View()).(heartbeatElapsed := old(heartbeatElapsed) + 1,
              electionElapsed := old(electionElapsed) + 1)
    {
      hide LogStore.Valid;
      heartbeatElapsed, electionElapsed := heartbeatElapsed + 1, electionElapsed + 1;
    }

    method TickHeartbeat()
      requires Valid() && !failed
      modifies this
      ensures Valid() && View() == RaftNode.TickHeartbeat(old(View()))
    {
      hide SendAll, RaftNode.ExpirePendingSnapshots, LogStore.Valid;
      CountTick();
      if heartbeatElapsed < cfg.heartbeatTick {
        return;
      }
      heartbeatElapsed := 0;
      assert View() == old(View()).(heartbeatElapsed := 0, electionElapsed := old(electionElapsed) + 1);
      ExpirePendingSnapshots();
      BroadcastAppend();
      RetryReads();
    }

    method RetryReads()
      requires Valid()
      modifies this
      ensures Valid() && View() == RaftNode.RetryReads(old(View()), old(pendingReads))
    {
      hide SendAll, LogStore.Valid;
      var waiting := pendingReads;
      for i := 0 to |waiting|
        invariant Valid() && RaftNode.RetryReads(View(), waiting[i..]) == RaftNode.RetryReads(old(View()), waiting)
      {
        assert waiting[i..][0] == waiting[i] && waiting[i..][1..] == waiting[i + 1..];
        SendToAll(waiting[i].id);
      }
    }

    method TickElection()
      requires Valid() && !failed
      modifies this, log, log.storage
      ensures Valid() && View() == RaftNode.TickElection(old(View()))
    {
      hide RaftNode.Campaign;
      electionElapsed := electionElapsed + 1;
      if !conf.IsVoter(id) || electionElapsed < timeout {
        return;
      }
      electionElapsed := 0;
      Campaign(cfg.preVote);
    }

    method Tick()
      requires Valid() && !failed
      modifies this, log, log.storage
      ensures Valid() && View() == RaftNode.Tick(old(View()))
    {
      hide RaftNode.TickHeartbeat, RaftNode.TickElection;
      if role == Leader {
        TickHeartbeat();
      } else {
        TickElection();
      }
    }

    method ApplyTo(i: Index)
      requires Valid() && !failed
      modifies this, log
      ensures Valid() && View() == RaftNode.ApplyTo(old(View()), i)
    {
      failed := log.AppliedTo(i, View());
    }

    method CommittedEntries(limit: nat) returns (ents: seq<Entry>)
      requires Valid()
      ensures ents == EntriesToApply(View(), limit)
      ensures |ents| <= View().committed - View().applied && (ents == [] <==> View().committed == View().applied)
      ensures forall i :: 0 <= i < |ents| ==> ents[i].index == View().applied + 1 + i
    {
      ents := log.NextToApply(limit, View());
    }

    /** Hands over a snapshot the state machine has to start again from. */
    method SnapshotToApply() returns (snap: Option<Snapshot>)
      requires Valid()
      modifies this
      ensures Valid() && snap == old(toRestore) && View() == old(View()).(toRestore := None)
    {
      snap := toRestore;
      toRestore := None;
    }

    /** Hands over the messages waiting to be sent. */
    method Messages() returns (out: seq<Message>)
      requires Valid()
      modifies this
      ensures Valid() && out == old(msgs) && View() == old(View()).(msgs := [])
    {
      out := msgs;
      msgs := [];
    }
  }

  /** Counts a heartbeat against every pending snapshot, giving up on those that have waited long enough. */
  method Expired(progress: map<NodeID, Progress>, members: seq<NodeID>, retry: nat)
    returns (left: map<NodeID, Progress>)
    requires Sorted(members)
    ensures left.Keys == progress.Keys
    ensures forall x :: x in left ==> left[x] == if x in members then OneBeat(progress[x], retry) else progress[x]
  {
    left := progress;
    for i := 0 to |members|
      invariant left.Keys == progress.Keys
      invariant forall x ::
                x in left ==> left[x] == if x in members[..i] then OneBeat(progress[x], retry) else progress[x]
    {
      MemberOnce(members, i);
      var x := members[i];
      if x in left {
        left := left[x := OneBeat(left[x], retry)];
      }
    }
    assert members[..|members|] == members;
  }

  /** `was` left `s` on its disk. */
  ghost predicate LeftBehind(was: Node, id: NodeID, cfg: Settings, draw: nat, s: Store) {
    && was.id == id && was.cfg == cfg && was.draws == draw
    && was.hard == s.hard && was.snap == s.snap && was.floor == s.floor
    && was.floor <= was.snap.lastIndex <= |was.log|
    && LastTerm(was.log[..was.floor]) == s.floorTerm
    && was.log == was.log[..was.floor] + s.ents
  }

  /** Recovers a node from a store. */
  method NewRawNode(id: NodeID, cfg: Settings, storage: MemoryStorage, draw: nat, ghost was: Node) returns (r: RawNode)
    requires storage.Valid() && LeftBehind(was, id, cfg, draw, storage.Contents())
    ensures fresh(r) && fresh(r.log) && r.log.storage == storage && r.Valid() && r.View() == Restart(was)
  {
    hide RaftNode.BecomeFollower, RaftNode.RefreshConfiguration, LeftBehind;
    r := new RawNode.Bare(id, cfg, storage, draw, was);
    RescannedShape(r.View());
    r.RefreshConfiguration();
    r.BecomeFollower(r.term, NONE);
  }

  lemma MemberOnce(s: seq<NodeID>, i: nat)
    requires Sorted(s) && i < |s|
    ensures s[i] !in s[..i]
  {}

  lemma StepDownKeeps(n: Node)
    ensures RaftNode.StepDownIfRemoved(n).committed == n.committed
  {}

  lemma CrownedSized(n: Node)
    requires Sized(n)
    ensures Sized(Crowned(n))
  {}

  lemma CrownedIs(n: Node)
    ensures var r := RaftNode.Reset(n, n.term);
            var last := |n.log|;
            var all := map x | x in Members(r.conf) :: FreshProgress(r, x, last);
            && r.fault == n.fault && r.log == n.log && r.term == n.term
            && Crowned(n) == r.(role := Leader, lead := r.id,
              progress := all[r.id := Progress(last + 1, last + 2, 0, 0)],
                                log := n.log + [Entry(last + 1, n.term, NoOp)])
  {
    hide Members;
    var r := RaftNode.Reset(n, n.term);
    assert (map x | x in Members(r.conf) :: FreshProgress(r, x, |n.log|)) == map x | x in Members(n.conf) ::
           FreshProgress(n, x, |n.log|);
  }

  lemma FollowKeeps(n: Node, m: Message)
    ensures var r := RaftNode.FollowLeader(n, m); r.fault == n.fault && r.id == n.id && r.committed == n.committed
  {}

  lemma WrittenOrFailed(n: Node, prev: Index, ents: seq<Entry>)
    requires !n.fault
    ensures AppendConflicting(n, prev, ents).fault ==> AppendConflicting(n, prev, ents) == Fail(n)
  {
    hide FindConflict, Contiguous;
  }

  lemma CommitKeeps(n: Node, i: Index)
    ensures var r := RaftNode.CommitTo(n, i); r == n.(committed := r.committed, fault := r.fault)
  {}

  lemma FailedFeed(n: Node, from: NodeID, next: pos)
    ensures n.fault ==> forall b :: RaftNode.Feed(n, from, next, b) == n
  {}

  lemma AckKeeps(n: Node, from: NodeID, rid: nat)
    ensures var r := RaftNode.AckRead(n, from, rid); r == n.(pendingReads := r.pendingReads, readStates := r.readStates)
  {
    hide Quorum;
  }
}
