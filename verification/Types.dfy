/** The vocabulary of the consensus core (raft/types.go). */
module RaftTypes {
  import opened Configurations

  type Term = nat
  type Byte = b: nat | b < 256

  /** The three entry types. A configuration entry carries its decoded change. */
  datatype Payload = Command(bytes: seq<Byte>) | NoOp | ConfEntry(change: ConfChange)

  datatype Entry = Entry(index: Index, term: Term, payload: Payload)

  datatype Option<+T> = None | Some(value: T)

  datatype Role = Follower | PreCandidate | Candidate | Leader

  datatype HardState = HardState(term: Term, vote: NodeID, commit: Index)

  /** A snapshot stands for every entry up to its boundary; here its image is that list of entries. */
  datatype Snapshot = Snapshot(lastIndex: Index, lastTerm: Term, config: Configuration, image: seq<Entry>)

  const NO_SNAPSHOT := Snapshot(0, 0, Configuration([], [], []), [])

  datatype Message =
    | VoteReq(from: NodeID, to: NodeID, term: Term, preVote: bool, lastIndex: Index, lastTerm: Term)
    | VoteResp(from: NodeID, to: NodeID, term: Term, preVote: bool, granted: bool)
    | AppendReq(from: NodeID, to: NodeID, term: Term, prevIndex: Index, prevTerm: Term,
                entries: seq<Entry>, commit: Index, readId: nat)
    | AppendResp(from: NodeID, to: NodeID, term: Term, success: bool, matchIndex: Index,
                 conflictIndex: Index, conflictTerm: Term, readId: nat)
    | SnapReq(from: NodeID, to: NodeID, term: Term, snap: Snapshot)
    | SnapResp(from: NodeID, to: NodeID, term: Term, success: bool, matchIndex: Index)

  // ---------------------------------------------------------------------------
  // Logs
  // ---------------------------------------------------------------------------

  /** The term of the entry at a 1-based index; index 0 has term 0. */
  function TermAt(log: seq<Entry>, i: Index): Term
    requires i <= |log|
  {
    if i == 0 then 0 else log[i - 1].term
  }

  function LastTerm(log: seq<Entry>): Term { TermAt(log, |log|) }

  /** The election restriction: is a log ending in `lastTerm` at `lastIndex` at least as up to date as `log`? */
  predicate UpToDate(lastIndex: Index, lastTerm: Term, log: seq<Entry>) {
    if lastTerm != LastTerm(log) then lastTerm > LastTerm(log) else lastIndex >= |log|
  }

  /** The index of the last configuration entry, or 0. */
  function LastConfIndex(log: seq<Entry>): (r: Index)
    ensures r <= |log|
    ensures r > 0 ==> log[r - 1].payload.ConfEntry?
    ensures forall k :: r <= k < |log| ==> !log[k].payload.ConfEntry?
  {
    if log == [] then 0
    else if log[|log| - 1].payload.ConfEntry? then |log|
    else LastConfIndex(log[..|log| - 1])
  }

  /** The configuration in force after `log`: the one of its last configuration entry. */
  function ConfOf(boot: Configuration, log: seq<Entry>): Configuration {
    var k := LastConfIndex(log);
    if k == 0 then boot else log[k - 1].payload.change.config
  }

  /** Cutting a log above its last configuration entry leaves the configuration alone. */
  lemma {:induction false} ConfOfCut(boot: Configuration, log: seq<Entry>, k: nat)
    requires LastConfIndex(log) <= k <= |log|
    ensures LastConfIndex(log[..k]) == LastConfIndex(log)
    ensures ConfOf(boot, log[..k]) == ConfOf(boot, log)
  {
    var i, j := LastConfIndex(log), LastConfIndex(log[..k]);
    assert j > 0 ==> log[..k][j - 1] == log[j - 1];
    assert i > 0 ==> log[..k][i - 1] == log[i - 1];
  }

  /** Appending an entry changes the configuration only if it is a configuration entry. */
  lemma ConfOfAppend(boot: Configuration, log: seq<Entry>, e: Entry)
    ensures LastConfIndex(log + [e]) == if e.payload.ConfEntry? then |log| + 1 else LastConfIndex(log)
    ensures ConfOf(boot, log + [e]) == if e.payload.ConfEntry? then e.payload.change.config else ConfOf(boot, log)
  {
    assert (log + [e])[..|log|] == log;
    if !e.payload.ConfEntry? { ConfOfCut(boot, log + [e], |log|); }
  }

  /** The length of the longest common prefix. */
  ghost function CommonLength(a: seq<Entry>, b: seq<Entry>): (d: nat)
    ensures d <= |a| && d <= |b| && a[..d] == b[..d]
    ensures forall k: nat :: k <= |a| && k <= |b| && a[..k] == b[..k] ==> k <= d
  {
    if a == [] || b == [] || a[0] != b[0] then
      assert forall k: nat :: 0 < k <= |a| && k <= |b| && a[..k] == b[..k] ==> a[..k][0] == b[..k][0];
      0
    else
      var d := CommonLength(a[1..], b[1..]);
      assert a[..d + 1] == [a[0]] + a[1..][..d] && b[..d + 1] == [b[0]] + b[1..][..d];
      assert forall k: nat :: 0 < k <= |a| && k <= |b| && a[..k] == b[..k] ==>
        a[1..][..k - 1] == a[..k][1..] && b[1..][..k - 1] == b[..k][1..];
      d + 1
  }

  lemma SharedPrefix(pre: seq<Entry>, a: seq<Entry>, b: seq<Entry>)
    requires pre <= a && pre <= b
    ensures |pre| <= CommonLength(a, b)
  {
    assert a[..|pre|] == b[..|pre|];
  }

  lemma PrefixOfCut(pre: seq<Entry>, a: seq<Entry>, k: nat)
    requires pre <= a && |pre| <= k <= |a|
    ensures pre <= a[..k]
  {}

  /** Consecutive indexes, and terms that never decrease. */
  predicate Contiguous(ents: seq<Entry>) {
    forall i :: 0 < i < |ents| ==> ents[i].index == ents[i - 1].index + 1 && ents[i - 1].term <= ents[i].term
  }

  /** The image of a snapshot covers every entry up to its last index. */
  predicate WholeImage(snap: Snapshot) { |snap.image| == snap.lastIndex && LastTerm(snap.image) == snap.lastTerm }
}
