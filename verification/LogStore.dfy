/** The durable log both stores implement (raft/storage.go): entries above a floor, the term of the last
entry discarded below it, the newest snapshot and the hard state. */
module LogStore {
  import opened Configurations
  import opened RaftTypes

  datatype Error = Compacted | Unavailable | OutOfDate | NotContiguous | Gap | PastEnd | TermRegressed

  datatype Result<+T> = Ok(value: T) | Err(error: Error)

  datatype Store = Store(hard: HardState, snap: Snapshot, floor: Index, floorTerm: Term, ents: seq<Entry>) {
    function First(): Index { floor + 1 }

    function Last(): Index { floor + |ents| }
  }

  const EMPTY := Store(HardState(0, NONE, 0), NO_SNAPSHOT, 0, 0, [])

  /** Entries sit at the indexes they carry. */
  predicate Valid(s: Store) {
    && (forall i :: 0 <= i < |s.ents| ==> s.ents[i].index == s.floor + 1 + i)
    && (s.floor == 0 ==> s.floorTerm == 0)
  }

  /** The term at an index, which outlives the entry at the floor. */
  function TermIn(s: Store, i: Index): Result<Term> {
    if i < s.floor then Err(Compacted)
    else if i > s.Last() then Err(Unavailable)
    else if i == s.floor then Ok(s.floorTerm)
    else Ok(s.ents[i - s.floor - 1].term)
  }

  function EntryIn(s: Store, i: Index): Result<Entry> {
    if i < s.First() then Err(Compacted)
    else if i > s.Last() then Err(Unavailable)
    else Ok(s.ents[i - s.floor - 1])
  }

  /** The entries from `lo` up to, not including, `hi`. */
  function EntriesIn(s: Store, lo: Index, hi: Index): Result<seq<Entry>> {
    if lo >= hi then Ok([])
    else if lo < s.First() then Err(Compacted)
    else if hi > s.Last() + 1 then Err(Unavailable)
    else Ok(s.ents[lo - s.First()..hi - s.First()])
  }

  lemma {:induction false} ContiguousIndex(ents: seq<Entry>, i: nat)
    requires Contiguous(ents) && i < |ents|
    ensures ents[i].index == ents[0].index + i
  {
    if i > 0 { ContiguousIndex(ents, i - 1); }
  }

  /** What of a batch lies above the floor. */
  function AboveFloor(s: Store, ents: seq<Entry>): (r: seq<Entry>)
    requires Contiguous(ents) && ents != [] && ents[|ents| - 1].index > s.floor
    ensures r != [] && |r| <= |ents| && r[0].index > s.floor && r == ents[|ents| - |r|..]
    ensures r[0].index == if ents[0].index <= s.floor then s.floor + 1 else ents[0].index
  {
    ContiguousIndex(ents, |ents| - 1);
    if ents[0].index <= s.floor then
      ContiguousIndex(ents, s.floor + 1 - ents[0].index);
      ents[s.floor + 1 - ents[0].index..]
    else ents
  }

  /** Appends entries, discarding whatever they conflict with. */
  function Append(s: Store, ents: seq<Entry>): Result<Store> {
    if ents == [] then Ok(s)
    else if !Contiguous(ents) then Err(NotContiguous)
    else if ents[|ents| - 1].index <= s.floor then Ok(s)
    else
      var new_ := AboveFloor(s, ents);
      if new_[0].index > s.Last() + 1 then Err(Gap)
      else Ok(s.(ents := s.ents[..new_[0].index - s.First()] + new_))
  }

  /** Records a snapshot; the log is replaced only where it does not reach the snapshot or disagrees with it. */
  function SaveSnapshot(s: Store, snap: Snapshot): Result<Store> {
    if snap.lastIndex <= s.snap.lastIndex then Err(OutOfDate)
    else if TermIn(s, snap.lastIndex) == Ok(snap.lastTerm) then Ok(s.(snap := snap))
    else Ok(Store(s.hard, snap, snap.lastIndex, snap.lastTerm, []))
  }

  function Compact(s: Store, upto: Index): Result<Store> {
    if upto <= s.floor then Ok(s)
    else if upto > s.Last() then Err(PastEnd)
    else Ok(s.(floor := upto, floorTerm := s.ents[upto - s.First()].term, ents := s.ents[upto - s.floor..]))
  }

  function SetHardState(s: Store, hard: HardState): Result<Store> {
    if hard.term < s.hard.term then Err(TermRegressed) else Ok(s.(hard := hard))
  }

  // ---------------------------------------------------------------------------
  // Every operation keeps entries where they belong
  // ---------------------------------------------------------------------------

  lemma AppendValid(s: Store, ents: seq<Entry>)
    requires Valid(s)
    ensures Append(s, ents).Ok? ==> Valid(Append(s, ents).value)
  {
    if Append(s, ents).Ok? && Append(s, ents).value != s {
      var new_ := AboveFloor(s, ents);
      forall i | 0 <= i < |new_| ensures new_[i].index == new_[0].index + i {
        ContiguousIndex(ents, |ents| - |new_| + i);
        ContiguousIndex(ents, |ents| - |new_|);
      }
    }
  }

  /** Compaction hides entries and changes no answer about those it keeps. */
  lemma CompactKeeps(s: Store, upto: Index, i: Index)
    requires Valid(s) && Compact(s, upto).Ok? && i >= Compact(s, upto).value.floor
    ensures TermIn(Compact(s, upto).value, i) == TermIn(s, i)
    ensures i > Compact(s, upto).value.floor ==> EntryIn(Compact(s, upto).value, i) == EntryIn(s, i)
    ensures Compact(s, upto).value.Last() == s.Last()
  {}

  /** Where an appended batch starts, everything below stays and everything from there on is the batch. */
  lemma AppendReplacesTail(s: Store, ents: seq<Entry>, i: Index)
    requires Valid(s) && Append(s, ents).Ok? && ents != [] && ents[|ents| - 1].index > s.floor
    ensures var r := Append(s, ents).value;
            && r.Last() == ents[|ents| - 1].index
            && (i < ents[0].index ==> TermIn(r, i) == if i <= r.Last() then TermIn(s, i) else Err(Unavailable))
            && (s.floor < i && ents[0].index <= i < ents[0].index + |ents| ==>
              EntryIn(r, i) == Ok(ents[i - ents[0].index]))
  {
    var new_ := AboveFloor(s, ents);
    ContiguousIndex(ents, |ents| - 1);
    ContiguousIndex(ents, |ents| - |new_|);
  }
}
