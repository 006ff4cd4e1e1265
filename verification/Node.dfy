/** One node of the consensus core as a value, and every step it can take as a function
(raft/raft.go, election.go, replication.go, confchange.go, read.go, snapshot.go, log.go).

A node's log is kept whole: `floor` says how many leading entries compaction has discarded, and no
function below reads an entry at or below it. `fault` is raised where the code panics or stops with a
fatal error; an operation that raises it does nothing further.
*/
module RaftNode {
  import opened Configurations
  import opened RaftTypes

  type pos = x: nat | x >= 1 witness 1

  /** What a node is configured with. `jitter(k)` is the k-th draw of the random source. */
  datatype Settings = Settings(
    boot: Configuration, preVote: bool, electionTick: pos, heartbeatTick: pos, maxEntries: pos,
    catchUp: nat, retryHeartbeats: pos, jitter: nat -> nat)

  /** The leader's view of one peer: `matched` is confirmed, `next` is where it will try. */
  datatype Progress = Progress(matched: Index, next: pos, pendingSnapshot: Index, snapshotTicks: nat)

  datatype ReadRequest = ReadRequest(id: nat, index: Index, acks: set<NodeID>)

  datatype ReadState = ReadState(id: nat, index: Index)

  datatype Node = Node(
    id: NodeID, cfg: Settings,
    // durable
    hard: HardState, log: seq<Entry>, floor: Index, snap: Snapshot,
    // volatile
    term: Term, vote: NodeID, committed: Index, applied: Index,
    role: Role, lead: NodeID, conf: Configuration, confIndex: Index,
    votes: map<NodeID, bool>, progress: map<NodeID, Progress>,
    electionElapsed: nat, heartbeatElapsed: nat, timeout: nat, draws: nat,
    pendingReads: seq<ReadRequest>, readStates: seq<ReadState>,
    toRestore: Option<Snapshot>, msgs: seq<Message>, fault: bool)

  predicate Sized(n: Node) { n.floor <= |n.log| }

  function Fail(n: Node): Node { n.(fault := true) }

  function Send(n: Node, m: Message): Node { n.(msgs := n.msgs + [m]) }

  // ---------------------------------------------------------------------------
  // The log
  // ---------------------------------------------------------------------------

  /** The term at an index, where the log can still answer for it. */
  function TermOf(n: Node, i: Index): Option<Term> {
    if i == 0 then Some(0)
    else if i < n.floor || i > |n.log| then None
    else Some(n.log[i - 1].term)
  }

  predicate MatchTerm(n: Node, i: Index, t: Term) { TermOf(n, i) == Some(t) }

  /** The first entry the log does not already hold with the same term, or 0. */
  function FindConflict(n: Node, ents: seq<Entry>): Index {
    if ents == [] then 0
    else if !MatchTerm(n, ents[0].index, ents[0].term) then ents[0].index
    else FindConflict(n, ents[1..])
  }

  /** Writes entries, discarding any conflicting suffix; refuses to touch the committed prefix. */
  function AppendLog(n: Node, ents: seq<Entry>): Node {
    if ents == [] then n
    else if ents[0].index <= n.committed || ents[0].index > |n.log| + 1 || !Contiguous(ents) then Fail(n)
    else n.(log := n.log[..ents[0].index - 1] + ents)
  }

  function AppendConflicting(n: Node, prev: Index, ents: seq<Entry>): Node {
    var c := FindConflict(n, ents);
    if c == 0 then n
    else if c <= n.committed then Fail(n)
    else if c < prev + 1 || c - prev - 1 > |ents| then Fail(n)
    else AppendLog(n, ents[c - prev - 1..])
  }

  function CommitTo(n: Node, i: Index): Node {
    if i <= n.committed then n else if i > |n.log| then Fail(n) else n.(committed := i)
  }

  /** The start of the run of entries that share the term at `i`, not going below the first index. */
  function RunStart(n: Node, i: Index): Index
    requires 0 < i <= |n.log|
  {
    if i > n.floor + 1 && n.log[i - 2].term == n.log[i - 1].term then RunStart(n, i - 1) else i
  }

  /** Where a rejecting follower says its log and the leader's part ways. */
  function ConflictHint(n: Node, prev: Index): (Index, Term) {
    if prev > |n.log| then (|n.log| + 1, 0)
    else if prev == 0 then (0, 0)
    else if TermOf(n, prev).None? then (n.floor + 1, 0)
    else (RunStart(n, prev), n.log[prev - 1].term)
  }

  /** The last entry of a term, found walking back from `i`. */
  function LastIndexOfTerm(n: Node, t: Term, i: Index): Option<Index>
    requires i <= |n.log|
  {
    if i <= n.floor then None
    else if n.log[i - 1].term == t then Some(i)
    else if n.log[i - 1].term < t then None
    else LastIndexOfTerm(n, t, i - 1)
  }

  function Persist(n: Node): Node {
    if n.fault then n
    else if n.term < n.hard.term then Fail(n)
    else n.(hard := HardState(n.term, n.vote, n.committed))
  }

  // ---------------------------------------------------------------------------
  // Roles
  // ---------------------------------------------------------------------------

  function Redraw(n: Node): Node {
    n.(timeout := n.cfg.electionTick + n.cfg.jitter(n.draws), draws := n.draws + 1)
  }

  function Reset(n: Node, t: Term): Node {
    Redraw(n).(term := t, vote := if n.term != t then NONE else n.vote, lead := NONE,
               electionElapsed := 0, heartbeatElapsed := 0, votes := map[], progress := map[],
               pendingReads := [], readStates := [])
  }

  function BecomeFollower(n: Node, t: Term, lead: NodeID): Node {
    Reset(n, t).(role := Follower, lead := lead)
  }

  function BecomePreCandidate(n: Node): Node {
    if n.role == Leader then Fail(n) else Redraw(n).(role := PreCandidate, votes := map[], lead := NONE)
  }

  function BecomeCandidate(n: Node): Node {
    if n.role == Leader then Fail(n) else Reset(n, n.term + 1).(role := Candidate, vote := n.id)
  }

  function FreshProgress(n: Node, id: NodeID, last: Index): Progress {
    Progress(if id == n.id then last else 0, last + 1, 0, 0)
  }

  /** A new leader, with the no-op entry of its term appended and nothing else done yet. */
  function Crowned(n: Node): Node {
    var last := |n.log|;
    var all := map id | id in Members(n.conf) :: FreshProgress(n, id, last);
    Reset(n, n.term).(role := Leader, lead := n.id, log := n.log + [Entry(last + 1, n.term, NoOp)],
                      progress := all[n.id := Progress(last + 1, last + 2, 0, 0)])
  }

  function BecomeLeader(n: Node): Node
    requires Sized(n)
  {
    if n.role == Follower || !(n.id in Members(n.conf)) || |n.log| + 1 <= n.committed then Fail(n)
    else
      var n1 := MaybeAdvanceCommit(Crowned(n));
      if n1.fault then n1
      else
        var n2 := Persist(n1);
        if n2.fault then n2 else BroadcastAppend(n2)
  }

  // ---------------------------------------------------------------------------
  // Elections
  // ---------------------------------------------------------------------------

  function Granted(n: Node): set<NodeID> { set v | v in n.votes && n.votes[v] }

  function Rejected(n: Node): set<NodeID> { set v | v in n.votes && !n.votes[v] }

  function RecordVote(n: Node, from: NodeID, granted: bool): Node {
    if from in n.votes then n else n.(votes := n.votes[from := granted])
  }

  function SendVoteRequests(n: Node, peers: seq<NodeID>, t: Term, preVote: bool): (r: Node)
    ensures r == n.(msgs := r.msgs)
    decreases |peers|
  {
    if peers == [] then n
    else
      var n1 := if n.conf.IsVoter(peers[0])
                then Send(n, VoteReq(n.id, peers[0], t, preVote, |n.log|, LastTerm(n.log))) else n;
      SendVoteRequests(n1, peers[1..], t, preVote)
  }

  /** Takes up the role a campaign starts in; only a real campaign advances and persists the term. */
  function Stand(n: Node, preVote: bool): Node {
    if preVote then BecomePreCandidate(n) else Persist(BecomeCandidate(n))
  }

  function Campaign(n: Node, preVote: bool): Node
    requires Sized(n)
    decreases if preVote then 3 else 1
  {
    if !n.conf.IsVoter(n.id) then n
    else
      var n1 := Stand(n, preVote);
      if n1.fault then n1 else Canvass(RecordVote(n1, n1.id, true), preVote)
  }

  /** Asks every other voter, unless the node's own vote already decides the campaign. */
  function Canvass(n: Node, preVote: bool): Node
    requires Sized(n)
    decreases if n.role == PreCandidate then 2 else 0, 1
  {
    if Quorum(n.conf, Granted(n)) || Impossible(n.conf, Rejected(n)) then TallyVotes(n)
    else SendVoteRequests(n, Peers(n.conf, n.id), if preVote then n.term + 1 else n.term, preVote)
  }

  function TallyVotes(n: Node): Node
    requires Sized(n)
    decreases if n.role == PreCandidate then 2 else 0, 0
  {
    if Quorum(n.conf, Granted(n)) then
      if n.role == PreCandidate then Campaign(n, false) else BecomeLeader(n)
    else if Impossible(n.conf, Rejected(n)) then BecomeFollower(n, n.term, NONE)
    else n
  }

  predicate CanVote(n: Node, m: Message)
    requires m.VoteReq?
  {
    if m.preVote then m.term > n.term && (n.lead == NONE || n.electionElapsed >= n.timeout)
    else n.vote == m.from || (n.vote == NONE && n.lead == NONE)
  }

  function HandleVoteRequest(n: Node, m: Message): Node
    requires m.VoteReq?
  {
    var granted := CanVote(n, m) && UpToDate(m.lastIndex, m.lastTerm, n.log);
    var n1 := if granted && !m.preVote then Persist(n.(vote := m.from, electionElapsed := 0)) else n;
    if n1.fault then n1
    else Send(n1, VoteResp(n.id, m.from, if m.preVote && granted then m.term else n.term, m.preVote, granted))
  }

  function HandleVoteResponse(n: Node, m: Message): Node
    requires Sized(n) && m.VoteResp?
  {
    if (m.preVote && n.role != PreCandidate) || (!m.preVote && n.role != Candidate) then n
    else TallyVotes(RecordVote(n, m.from, m.granted))
  }

  // ---------------------------------------------------------------------------
  // Sending
  // ---------------------------------------------------------------------------

  function SendSnapshot(n: Node, to: NodeID): (r: Node)
    ensures r == n.(msgs := r.msgs, progress := r.progress)
  {
    if to !in n.progress || n.progress[to].pendingSnapshot != 0 || n.snap.lastIndex == 0 then n
    else
      Send(n.(progress := n.progress[to := n.progress[to].(pendingSnapshot := n.snap.lastIndex, snapshotTicks := 0)]),
           SnapReq(n.id, to, n.term, n.snap))
  }

  function SendAppend(n: Node, to: NodeID, readId: nat): (r: Node)
    ensures r == n.(msgs := r.msgs, progress := r.progress)
  {
    if to !in n.progress || n.progress[to].pendingSnapshot != 0 then n
    else
      var lo := n.progress[to].next - 1;
      if TermOf(n, lo).None? then SendSnapshot(n, to)
      else if lo < |n.log| && lo < n.floor then n
      else Send(n, AppendReq(n.id, to, n.term, lo, TermAt(n.log, lo), n.log[lo..BatchEnd(n, lo)], n.committed, readId))
  }

  /** At most `maxEntries` entries ride in one message. */
  function BatchEnd(n: Node, lo: Index): (hi: Index)
    requires lo <= |n.log|
    ensures lo <= hi <= |n.log|
  {
    if |n.log| - lo <= n.cfg.maxEntries then |n.log| else lo + n.cfg.maxEntries
  }

  function SendAll(n: Node, peers: seq<NodeID>, readId: nat): (r: Node)
    ensures r == n.(msgs := r.msgs, progress := r.progress)
    decreases |peers|
  {
    if peers == [] then n else SendAll(SendAppend(n, peers[0], readId), peers[1..], readId)
  }

  function BroadcastAppend(n: Node): Node { SendAll(n, Peers(n.conf, n.id), 0) }

  // ---------------------------------------------------------------------------
  // Membership
  // ---------------------------------------------------------------------------

  /** Searches the log backwards for a configuration, then the snapshot, then the bootstrap. */
  function Rescan(n: Node): (Configuration, Index) {
    var k := LastConfIndex(n.log);
    if k > n.floor then (n.log[k - 1].payload.change.config, k)
    else if !n.snap.config.IsEmpty() then (n.snap.config, n.snap.lastIndex)
    else (n.cfg.boot, 0)
  }

  function RefreshProgress(n: Node): Node {
    var kept := set id | id in Members(n.conf);
    var self := if n.id in n.progress then {n.id} else {};
    n.(progress := map id | id in kept + self ::
         if id in n.progress then n.progress[id] else FreshProgress(n, id, |n.log|))
  }

  function SetConfiguration(n: Node, conf: Configuration, at: Index): Node {
    if n.conf == conf && n.confIndex == at then n
    else
      var n1 := n.(conf := conf, confIndex := at);
      if n.role == Leader then RefreshProgress(n1) else n1
  }

  function RefreshConfiguration(n: Node): Node {
    SetConfiguration(n, Rescan(n).0, Rescan(n).1)
  }

  /** Could an append have changed the configuration: by carrying one, or by overwriting one? */
  predicate NeedsRefresh(n: Node, ents: seq<Entry>) {
    || n.confIndex > |n.log|
    || exists i :: 0 <= i < |ents| && (ents[i].payload.ConfEntry? || (n.confIndex > 0 && ents[i].index <= n.confIndex))
  }

  function RefreshIfNeeded(n: Node, ents: seq<Entry>): Node {
    if NeedsRefresh(n, ents) then RefreshConfiguration(n) else n
  }

  function StepDownIfRemoved(n: Node): Node {
    if n.role != Leader || n.conf.IsJoint() || n.conf.IsVoter(n.id) || n.confIndex > n.committed then n
    else BecomeFollower(n, n.term, NONE)
  }

  predicate CommittedInCurrentTerm(n: Node) {
    n.committed != 0 && TermOf(n, n.committed) == Some(n.term)
  }

  datatype ProposeError = NotLeader | ConfChangeInProgress | ReadIndexUnavailable | ConfChangeInvalid

  function ConfChangeError(n: Node, target: Configuration): Option<ProposeError> {
    if n.role != Leader then Some(NotLeader)
    else if n.conf.IsJoint() || n.confIndex > n.committed then Some(ConfChangeInProgress)
    else if !CommittedInCurrentTerm(n) then Some(ReadIndexUnavailable)
    else if EnterJoint(n.conf, target).Refused? then Some(ConfChangeInvalid)
    else None
  }

  function ProposeConfChange(n: Node, target: Configuration): Node
    requires Sized(n)
  {
    if ConfChangeError(n, target).Some? then n else Propose(n, ConfEntry(EnterJoint(n.conf, target).change))
  }

  // ---------------------------------------------------------------------------
  // Proposing and committing
  // ---------------------------------------------------------------------------

  /** The leader's log and bookkeeping after appending an entry, before anything commits. */
  function AppendOwn(n: Node, p: Payload): Node {
    var e := Entry(|n.log| + 1, n.term, p);
    var n1 := n.(log := n.log + [e]);
    var n2 := if p.ConfEntry? then RefreshConfiguration(n1) else n1;
    if n2.id in n2.progress
    then n2.(progress := n2.progress[n2.id := n2.progress[n2.id].(matched := e.index, next := e.index + 1)])
    else n2
  }

  function JointRank(n: Node): nat { if n.conf.IsJoint() then 2 else 0 }

  function Propose(n: Node, p: Payload): Node
    requires Sized(n)
    decreases JointRank(AppendOwn(n, p)) + 1
  {
    if n.role != Leader then n
    else if |n.log| + 1 <= n.committed then Fail(n)
    else
      var n1 := MaybeAdvanceCommit(AppendOwn(n, p));
      if n1.fault then n1 else BroadcastAppend(n1)
  }

  function Matched(n: Node): map<NodeID, Index> { map id | id in n.progress :: n.progress[id].matched }

  /** The commit rule: only an entry of the leader's own term may be committed by counting. */
  function MaybeAdvanceCommit(n: Node): Node
    requires Sized(n)
    decreases JointRank(n)
  {
    if n.role != Leader then n
    else
      var candidate := CommittedIndex(n.conf, Matched(n));
      if candidate <= n.committed then n
      else if TermOf(n, candidate).None? then Fail(n)
      else if TermOf(n, candidate).value != n.term then n
      else
        var n1 := Persist(CommitTo(n, candidate));
        if n1.fault then n1
        else
          var n2 := MaybeLeaveJoint(n1);
          if n2.fault then n2 else StepDownIfRemoved(n2)
  }

  function MaybeLeaveJoint(n: Node): Node
    requires Sized(n)
    decreases JointRank(n), 0
  {
    if n.role != Leader || !n.conf.IsJoint() || n.confIndex > n.committed then n
    else if LeaveJoint(n.conf).Refused? then Fail(n)
    else
      LeavingIsNotJoint(n);
      Propose(n, ConfEntry(LeaveJoint(n.conf).change))
  }

  /** Appending the entry that leaves a joint configuration leaves it at once. */
  lemma LeavingIsNotJoint(n: Node)
    requires Sized(n) && LeaveJoint(n.conf).Changed?
    ensures !AppendOwn(n, ConfEntry(LeaveJoint(n.conf).change)).conf.IsJoint()
  {
    var e := Entry(|n.log| + 1, n.term, ConfEntry(LeaveJoint(n.conf).change));
    ConfOfAppend(n.cfg.boot, n.log, e);
    SortedDetermined(LeaveJoint(n.conf).change.config.oldVoters, []);
  }

  // ---------------------------------------------------------------------------
  // Replication
  // ---------------------------------------------------------------------------

  function FollowLeader(n: Node, m: Message): Node {
    var n0 := n.(electionElapsed := 0);
    (if n.role != Follower then BecomeFollower(n0, m.term, m.from) else n0).(lead := m.from)
  }

  function HandleAppendRequest(n: Node, m: Message): Node
    requires m.AppendReq?
  {
    var n1 := FollowLeader(n, m);
    if m.prevIndex < n1.committed then
      Send(n1, AppendResp(n.id, m.from, n1.term, true, n1.committed, 0, 0, m.readId))
    else if !MatchTerm(n1, m.prevIndex, m.prevTerm) then
      var hint := ConflictHint(n1, m.prevIndex);
      Send(n1, AppendResp(n.id, m.from, n1.term, false, 0, hint.0, hint.1, m.readId))
    else
      AcceptEntries(n1, m)
  }

  function AcceptEntries(n: Node, m: Message): Node
    requires m.AppendReq?
  {
    var lastNew := m.prevIndex + |m.entries|;
    var n1 := AppendConflicting(n, m.prevIndex, m.entries);
    if n1.fault then n1
    else
      var n2 := CommitTo(n1, if m.commit < lastNew then m.commit else lastNew);
      if n2.fault then n2
      else
        var n3 := Persist(RefreshIfNeeded(n2, m.entries));
        if n3.fault then n3
        else Send(n3, AppendResp(n.id, m.from, n3.term, true, lastNew, 0, 0, m.readId))
  }

  /** Where to resume for a follower that refused. */
  function NextAfterRejection(n: Node, pr: Progress, m: Message): Index
    requires m.AppendResp?
  {
    if m.conflictTerm > 0 then
      var own := LastIndexOfTerm(n, m.conflictTerm, |n.log|);
      if own.Some? then own.value + 1 else m.conflictIndex
    else if m.conflictIndex > 0 then m.conflictIndex
    else pr.next - 1
  }

  /** Never below 1, and never at or below what the follower has confirmed. */
  function BackUp(n: Node, pr: Progress, m: Message): pos
    requires m.AppendResp?
  {
    var next := NextAfterRejection(n, pr, m);
    var raised := if next < 1 then 1 else next;
    if raised <= pr.matched then pr.matched + 1 else raised
  }

  function WithMatch(n: Node, from: NodeID, i: Index): Node
    requires from in n.progress
  {
    n.(progress := n.progress[from := n.progress[from].(matched := i, next := i + 1)])
  }

  /** After a match: tell everyone if the commit index moved, else keep feeding the follower. */
  function Feed(n: Node, from: NodeID, next: pos, advanced: bool): Node {
    if n.fault then n
    else if advanced then BroadcastAppend(n)
    else if next <= |n.log| then SendAppend(n, from, 0)
    else n
  }

  /** Takes a follower's word for how far it matches, and commits what that allows. */
  function RecordMatch(n: Node, from: NodeID, i: Index): Node
    requires Sized(n) && from in n.progress
  {
    if i > n.progress[from].matched then
      var n1 := MaybeAdvanceCommit(WithMatch(n, from, i));
      Feed(n1, from, i + 1, n1.committed > n.committed)
    else Feed(n, from, n.progress[from].next, false)
  }

  function HandleAppendResponse(n: Node, m: Message): Node
    requires Sized(n) && m.AppendResp?
  {
    if n.role != Leader || m.from !in n.progress then n
    else
      var n1 := if m.readId != 0 then AckRead(n, m.from, m.readId) else n;
      if m.success then RecordMatch(n1, m.from, m.matchIndex)
      else
        var pr := n1.progress[m.from];
        var next := BackUp(n1, pr, m);
        if next < pr.next then SendAppend(n1.(progress := n1.progress[m.from := pr.(next := next)]), m.from, 0)
        else n1
  }

  // ---------------------------------------------------------------------------
  // Reads
  // ---------------------------------------------------------------------------

  function ReadIndexError(n: Node): Option<ProposeError> {
    if n.role != Leader then Some(NotLeader)
    else if !CommittedInCurrentTerm(n) then Some(ReadIndexUnavailable)
    else None
  }

  function ReadIndex(n: Node, id: nat): Node {
    if ReadIndexError(n).Some? then n
    else
      var req := ReadRequest(id, n.committed, {n.id});
      if Quorum(n.conf, req.acks) then n.(readStates := n.readStates + [ReadState(id, req.index)])
      else SendAll(n.(pendingReads := n.pendingReads + [req]), Peers(n.conf, n.id), id)
  }

  /** The first pending read with this id, or the number of pending reads. */
  function FindRead(pending: seq<ReadRequest>, id: nat): (k: nat)
    ensures k <= |pending|
    ensures k < |pending| ==> pending[k].id == id
    ensures forall j :: 0 <= j < k ==> pending[j].id != id
  {
    if pending == [] || pending[0].id == id then 0 else 1 + FindRead(pending[1..], id)
  }

  function AckRead(n: Node, from: NodeID, id: nat): Node {
    var k := FindRead(n.pendingReads, id);
    if k == |n.pendingReads| then n
    else
      var req := n.pendingReads[k].(acks := n.pendingReads[k].acks + {from});
      if Quorum(n.conf, req.acks) then
        n.(readStates := n.readStates + [ReadState(req.id, req.index)],
           pendingReads := n.pendingReads[..k] + n.pendingReads[k + 1..])
      else n.(pendingReads := n.pendingReads[k := req])
  }

  // ---------------------------------------------------------------------------
  // Snapshots
  // ---------------------------------------------------------------------------

  /** Does the log already hold the entry at the snapshot's boundary? */
  predicate CoversSnapshot(n: Node, snap: Snapshot) {
    snap.lastIndex <= |n.log| && TermOf(n, snap.lastIndex) == Some(snap.lastTerm)
  }

  /** Records a snapshot; replaces the log only if it does not reach or disagrees with the boundary. */
  function SaveSnapshot(n: Node, snap: Snapshot): Node {
    if CoversSnapshot(n, snap) then n.(snap := snap)
    else n.(snap := snap, log := snap.image, floor := snap.lastIndex)
  }

  function HandleSnapshotRequest(n: Node, m: Message): Node
    requires m.SnapReq?
  {
    var n1 := FollowLeader(n, m);
    if m.snap.lastIndex <= n1.committed || m.snap.lastIndex <= n1.snap.lastIndex then
      Send(n1, SnapResp(n.id, m.from, n1.term, true, n1.committed))
    else
      var n2 := SaveSnapshot(n1, m.snap).(committed := m.snap.lastIndex, applied := m.snap.lastIndex);
      var n3 := if m.snap.config.IsEmpty() then n2 else SetConfiguration(n2, m.snap.config, m.snap.lastIndex);
      var n4 := Persist(n3.(toRestore := Some(m.snap)));
      if n4.fault then n4 else Send(n4, SnapResp(n.id, m.from, n4.term, true, m.snap.lastIndex))
  }

  function HandleSnapshotResponse(n: Node, m: Message): Node
    requires Sized(n) && m.SnapResp?
  {
    if n.role != Leader || m.from !in n.progress then n
    else
      var n1 := n.(progress := n.progress[m.from := n.progress[m.from].(pendingSnapshot := 0, snapshotTicks := 0)]);
      if !m.success then n1 else RecordMatch(n1, m.from, m.matchIndex)
  }

  /** Folds everything applied into a snapshot and compacts the log behind it, keeping a tail. `image` is
      what the state machine hands over. */
  function CreateSnapshot(n: Node, image: seq<Entry>): Node {
    if n.applied == 0 || n.applied > |n.log| || TermOf(n, n.applied).None? || n.applied <= n.snap.lastIndex then n
    else
      var snap := Snapshot(n.applied, n.log[n.applied - 1].term, n.conf, image);
      var n1 := SaveSnapshot(n, snap);
      if n.cfg.catchUp > 0 && n.applied <= n.cfg.catchUp then n1
      else if n.applied - n.cfg.catchUp <= n.floor then n1
      else n1.(floor := n.applied - n.cfg.catchUp)
  }

  /** Counts a heartbeat against a pending snapshot, giving up on one that has waited long enough. */
  function OneBeat(pr: Progress, retry: nat): Progress {
    if pr.pendingSnapshot == 0 then pr
    else if pr.snapshotTicks + 1 >= retry then pr.(pendingSnapshot := 0, snapshotTicks := 0)
    else pr.(snapshotTicks := pr.snapshotTicks + 1)
  }

  function ExpireProgress(n: Node, id: NodeID): Progress
    requires id in n.progress
  {
    if id in Members(n.conf) then OneBeat(n.progress[id], n.cfg.retryHeartbeats) else n.progress[id]
  }

  function ExpirePendingSnapshots(n: Node): Node {
    n.(progress := map id | id in n.progress :: ExpireProgress(n, id))
  }

  // ---------------------------------------------------------------------------
  // The entry points
  // ---------------------------------------------------------------------------

  function StepHigherTerm(n: Node, m: Message): Node {
    if (m.VoteReq? && m.preVote) || (m.VoteResp? && m.preVote && m.granted) then n
    else if m.AppendReq? || m.SnapReq? then Persist(BecomeFollower(n, m.term, m.from))
    else Persist(BecomeFollower(n, m.term, NONE))
  }

  function StepLowerTerm(n: Node, m: Message): Node {
    if m.AppendReq? || m.SnapReq? then Send(n, AppendResp(n.id, m.from, n.term, false, 0, 0, 0, 0))
    else if m.VoteReq? then Send(n, VoteResp(n.id, m.from, n.term, m.preVote, false))
    else n
  }

  function Dispatch(n: Node, m: Message): Node
    requires Sized(n)
  {
    match m
    case VoteReq(_, _, _, _, _, _) => HandleVoteRequest(n, m)
    case VoteResp(_, _, _, _, _) => HandleVoteResponse(n, m)
    case AppendReq(_, _, _, _, _, _, _, _) => HandleAppendRequest(n, m)
    case AppendResp(_, _, _, _, _, _, _, _) => HandleAppendResponse(n, m)
    case SnapReq(_, _, _, _) => HandleSnapshotRequest(n, m)
    case SnapResp(_, _, _, _, _) => HandleSnapshotResponse(n, m)
  }

  /** Delivers one message. */
  function Step(n: Node, m: Message): Node
    requires Sized(n)
  {
    if m.to != n.id && m.to != NONE then n
    else if m.term < n.term then StepLowerTerm(n, m)
    else if m.term > n.term then
      var n1 := StepHigherTerm(n, m);
      if n1.fault then n1 else Dispatch(n1, m)
    else Dispatch(n, m)
  }

  function RetryReads(n: Node, waiting: seq<ReadRequest>): (r: Node)
    ensures r == n.(msgs := r.msgs, progress := r.progress)
    decreases |waiting|
  {
    if waiting == [] then n
    else RetryReads(SendAll(n, Peers(n.conf, n.id), waiting[0].id), waiting[1..])
  }

  function TickHeartbeat(n: Node): Node {
    var n1 := n.(heartbeatElapsed := n.heartbeatElapsed + 1, electionElapsed := n.electionElapsed + 1);
    if n1.heartbeatElapsed < n.cfg.heartbeatTick then n1
    else
      var n2 := BroadcastAppend(ExpirePendingSnapshots(n1.(heartbeatElapsed := 0)));
      RetryReads(n2, n2.pendingReads)
  }

  function TickElection(n: Node): Node
    requires Sized(n)
  {
    var n1 := n.(electionElapsed := n.electionElapsed + 1);
    if !n.conf.IsVoter(n.id) || n1.electionElapsed < n1.timeout then n1
    else Campaign(n1.(electionElapsed := 0), n.cfg.preVote)
  }

  function Tick(n: Node): Node
    requires Sized(n)
  {
    if n.role == Leader then TickHeartbeat(n) else TickElection(n)
  }

  /** Records that the state machine has consumed entries through `i`. */
  function ApplyTo(n: Node, i: Index): Node {
    if i == 0 || i <= n.applied then n else if i > n.committed then Fail(n) else n.(applied := i)
  }

  /** The committed entries the state machine has not yet consumed, at most `limit` of them (0: all). */
  function EntriesToApply(n: Node, limit: nat): seq<Entry>
    requires n.committed <= |n.log|
  {
    var lo := if n.applied < n.floor then n.floor else n.applied;
    if n.committed <= n.applied || n.committed <= lo then []
    else if limit > 0 && n.committed - lo > limit then n.log[lo..lo + limit]
    else n.log[lo..n.committed]
  }

  /** What a new process knows before it has looked for its configuration. */
  function Recovered(n: Node): Node {
    var last := |n.log|;
    var commit := if n.hard.commit <= n.snap.lastIndex then n.snap.lastIndex
                  else if n.hard.commit < last then n.hard.commit else last;
    n.(term := n.hard.term, vote := n.hard.vote, committed := commit, applied := n.snap.lastIndex,
       role := Follower, lead := NONE,
       conf := if n.snap.config.IsEmpty() then n.cfg.boot else n.snap.config,
       confIndex := if n.snap.config.IsEmpty() then 0 else n.snap.lastIndex,
       votes := map[], progress := map[], electionElapsed := 0, heartbeatElapsed := 0, timeout := 0,
       pendingReads := [], readStates := [], toRestore := None, msgs := [], fault := false)
  }

  /** Rebuilds a node from what survived on disk. */
  function Restart(n: Node): Node {
    BecomeFollower(RefreshConfiguration(Recovered(n)), n.hard.term, NONE)
  }

  /** A node that has never run. */
  function NewNode(id: NodeID, cfg: Settings): Node {
    Restart(Node(id, cfg, HardState(0, NONE, 0), [], 0, NO_SNAPSHOT, 0, NONE, 0, 0, Follower, NONE,
                 cfg.boot, 0, map[], map[], 0, 0, 0, 0, [], [], None, [], false))
  }
}
