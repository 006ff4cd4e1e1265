/** The in-memory store (raft/memory_storage.go). Its first element is a sentinel that stands for the last
entry discarded, so that every index lookup is one subtraction. */
module MemoryStore {
  import opened Configurations
  import opened RaftTypes
  import opened LogStore

  class MemoryStorage {
    var hardState: HardState
    var snapshot: Snapshot
    var ents: seq<Entry>

    ghost predicate Valid()
      reads this
    {
      && ents != []
      && (forall i :: 0 <= i < |ents| ==> ents[i].index == ents[0].index + i)
      && (ents[0].index == 0 ==> ents[0].term == 0)
    }

    /** What the store holds, without the sentinel. */
    ghost function Contents(): (s: Store)
      requires Valid()
      reads this
      ensures LogStore.Valid(s)
    {
      Store(hardState, snapshot, ents[0].index, ents[0].term, ents[1..])
    }

    constructor ()
      ensures Valid() && Contents() == EMPTY
    {
      hardState := HardState(0, NONE, 0);
      snapshot := NO_SNAPSHOT;
      ents := [Entry(0, 0, NoOp)];
    }

    function FirstIndex(): (i: Index)
      requires Valid()
      reads this
      ensures i == Contents().First()
    {
      ents[0].index + 1
    }

    function LastIndex(): (i: Index)
      requires Valid()
      reads this
      ensures i == Contents().Last()
    {
      ents[0].index + |ents| - 1
    }

    method Term(i: Index) returns (r: Result<Term>)
      requires Valid()
      ensures r == TermIn(Contents(), i)
    {
      if i < ents[0].index {
        r := Err(Compacted);
      } else if i > LastIndex() {
        r := Err(Unavailable);
      } else {
        r := Ok(ents[i - ents[0].index].term);
      }
    }

    method GetEntry(i: Index) returns (r: Result<Entry>)
      requires Valid()
      ensures r == EntryIn(Contents(), i)
    {
      var first, last := FirstIndex(), LastIndex();
      if i < first {
        r := Err(Compacted);
      } else if i > last {
        r := Err(Unavailable);
      } else {
        r := Ok(ents[i - ents[0].index]);
      }
    }

    /** Copies the entries out one by one. */
    method Entries(lo: Index, hi: Index) returns (r: Result<seq<Entry>>)
      requires Valid()
      ensures r == EntriesIn(Contents(), lo, hi)
    {
      var first, last := FirstIndex(), LastIndex();
      if lo >= hi {
        return Ok([]);
      } else if lo < first {
        return Err(Compacted);
      } else if hi > last + 1 {
        return Err(Unavailable);
      }
      var offset := ents[0].index;
      var out: seq<Entry> := [];
      for i := lo - offset to hi - offset
        invariant out == ents[lo - offset..i]
      {
        out := out + [ents[i]];
      }
      assert ents[lo - offset..hi - offset] == ents[1..][lo - first..hi - first];
      r := Ok(out);
    }

    method AppendEntries(entries: seq<Entry>) returns (err: Option<Error>)
      requires Valid()
      modifies this
      ensures Valid()
      ensures match Append(old(Contents()), entries)
              case Ok(s) => err == None && Contents() == s
              case Err(e) => err == Some(e) && unchanged(this)
    {
      hide Contiguous, AboveFloor, LogStore.Valid;
      if entries == [] {
        return None;
      }
      var ok := CheckContiguous(entries);
      if !ok {
        return Some(NotContiguous);
      }
      var offset := ents[0].index;
      if entries[|entries| - 1].index <= offset {
        return None;
      }
      var rest := Above(entries, offset);
      ghost var before := Contents();
      assert rest == AboveFloor(before, entries);
      if rest[0].index > LastIndex() + 1 {
        return Some(Gap);
      }
      Spliced(ents, rest[0].index - offset, rest);
      AppendValid(before, entries);
      ents := ents[..rest[0].index - offset] + rest;
      Sentinel(Append(before, entries).value, ents);
      err := None;
    }

    /** Below the sentinel there is nothing to compare with: the code indexes out of range. */
    method SaveSnapshot(snap: Snapshot) returns (err: Option<Error>, panicked: bool)
      requires Valid()
      modifies this
      ensures Valid()
      ensures panicked <==> old(snapshot).lastIndex < snap.lastIndex < old(Contents()).floor
      ensures !panicked ==> match LogStore.SaveSnapshot(old(Contents()), snap)
                            case Ok(s) => err == None && Contents() == s
                            case Err(e) => err == Some(e) && unchanged(this)
    {
      if snap.lastIndex <= snapshot.lastIndex {
        return Some(OutOfDate), false;
      }
      snapshot := snap;
      var last := LastIndex();
      if snap.lastIndex < ents[0].index {
        return None, true;
      }
      err, panicked := None, false;
      if snap.lastIndex <= last && ents[snap.lastIndex - ents[0].index].term == snap.lastTerm {
        return;
      }
      ents := [Entry(snap.lastIndex, snap.lastTerm, NoOp)];
    }

    method Compact(upto: Index) returns (err: Option<Error>)
      requires Valid()
      modifies this
      ensures Valid()
      ensures match LogStore.Compact(old(Contents()), upto)
              case Ok(s) => err == None && Contents() == s
              case Err(e) => err == Some(e) && unchanged(this)
    {
      var last := LastIndex();
      var offset := ents[0].index;
      if upto <= offset {
        return None;
      } else if upto > last {
        return Some(PastEnd);
      }
      var kept := ents[upto - offset..];
      assert kept[1..] == ents[1..][upto - offset..];
      ents := [kept[0].(payload := NoOp)] + kept[1..];
      assert ents[1..] == kept[1..];
      err := None;
    }

    method SetHardState(hs: HardState) returns (err: Option<Error>)
      requires Valid()
      modifies this
      ensures Valid()
      ensures match LogStore.SetHardState(old(Contents()), hs)
              case Ok(s) => err == None && Contents() == s
              case Err(e) => err == Some(e) && unchanged(this)
    {
      if hs.term < hardState.term {
        return Some(TermRegressed);
      }
      hardState := hs;
      err := None;
    }
  }

  /** Drops the part of a batch that lies at or below the sentinel. */
  method Above(entries: seq<Entry>, offset: Index) returns (rest: seq<Entry>)
    requires Contiguous(entries) && entries != [] && entries[|entries| - 1].index > offset
    ensures forall s: Store :: s.floor == offset ==> rest == AboveFloor(s, entries)
  {
    rest := entries;
    ContiguousIndex(entries, |entries| - 1);
    if entries[0].index <= offset {
      ContiguousIndex(entries, offset + 1 - entries[0].index);
      rest := entries[offset + 1 - entries[0].index..];
    }
  }

  lemma Spliced(ents: seq<Entry>, k: nat, rest: seq<Entry>)
    requires 0 < k <= |ents|
    ensures (ents[..k] + rest)[0] == ents[0]
    ensures (ents[..k] + rest)[1..] == ents[1..][..k - 1] + rest
  {}

  /** A sentinel in front of a valid store. */
  lemma Sentinel(s: Store, ents: seq<Entry>)
    requires LogStore.Valid(s) && ents != [] && ents[0].index == s.floor && ents[1..] == s.ents
    ensures forall i :: 0 <= i < |ents| ==> ents[i].index == ents[0].index + i
  {
    forall i | 0 < i < |ents| ensures ents[i].index == ents[0].index + i { assert ents[i] == ents[1..][i - 1]; }
  }

  method CheckContiguous(entries: seq<Entry>) returns (ok: bool)
    ensures ok == Contiguous(entries)
  {
    var i := 1;
    while i < |entries|
      invariant 1 <= i
      invariant forall j :: 0 < j < i && j < |entries| ==>
                entries[j].index == entries[j - 1].index + 1 && entries[j - 1].term <= entries[j].term
    {
      if entries[i].index != entries[i - 1].index + 1 || entries[i].term < entries[i - 1].term {
        return false;
      }
      i := i + 1;
    }
    ok := true;
  }
}
