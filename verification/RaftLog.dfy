/** The node's view of its log: commit and applied indexes over a store (raft/log.go). */
module RaftLogs {
  import opened Configurations
  import opened RaftTypes
  import opened RaftNode
  import opened LogStore
  import opened MemoryStore

  class RaftLog {
    const storage: MemoryStorage
    var committed: Index
    var applied: Index
    /** Everything compaction has discarded, or a snapshot has replaced. */
    ghost var gone: seq<Entry>

    ghost predicate Valid()
      reads this, storage
    {
      && storage.Valid()
      && |gone| == storage.Contents().floor && LastTerm(gone) == storage.Contents().floorTerm
      && storage.Contents().floor <= storage.snapshot.lastIndex <= applied <= committed <= storage.Contents().Last()
    }

    /** The log as if nothing had ever been discarded. */
    ghost function Whole(): seq<Entry>
      requires storage.Valid()
      reads this, storage
    {
      gone + storage.Contents().ents
    }

    /** `n` is a node with this log. */
    ghost predicate Shows(n: Node)
      requires Valid()
      reads this, storage
    {
      && n.log == Whole() && n.floor == storage.Contents().floor
      && n.snap == storage.snapshot && n.hard == storage.hardState
      && n.committed == committed && n.applied == applied
    }

    /** Takes up where the store left off: what a snapshot covers is applied, and the recorded commit index
        is trusted only as far as the log reaches. */
    constructor (storage: MemoryStorage, ghost gone: seq<Entry>)
      requires storage.Valid() && |gone| == storage.Contents().floor && LastTerm(gone) == storage.Contents().floorTerm
      requires storage.Contents().floor <= storage.snapshot.lastIndex <= storage.Contents().Last()
      ensures Valid() && this.storage == storage && this.gone == gone && applied == storage.snapshot.lastIndex
      ensures committed == (if storage.hardState.commit <= applied then applied
                            else if storage.hardState.commit < |Whole()| then storage.hardState.commit else |Whole()|)
    {
      this.storage := storage;
      this.gone := gone;
      this.applied := storage.snapshot.lastIndex;
      var c := storage.snapshot.lastIndex;
      if storage.hardState.commit > c {
        c := if storage.hardState.commit < storage.LastIndex() then storage.hardState.commit else storage.LastIndex();
      }
      this.committed := c;
    }

    function FirstIndex(): (i: Index)
      requires Valid()
      reads this, storage
      ensures forall n: Node {:trigger Shows(n)} :: Shows(n) ==> i == n.floor + 1
    {
      storage.FirstIndex()
    }

    function LastIndex(): (i: Index)
      requires Valid()
      reads this, storage
      ensures i == |Whole()|
    {
      storage.LastIndex()
    }

    method Term(i: Index, ghost n: Node) returns (r: Option<Term>)
      requires Valid() && Shows(n)
      ensures r == TermOf(n, i)
    {
      if i == 0 {
        return Some(0);
      }
      var t := storage.Term(i);
      r := match t case Ok(x) => Some(x) case Err(_) => None;
    }

    method LastTermOf(ghost n: Node) returns (t: Term)
      requires Valid() && Shows(n)
      ensures t == LastTerm(n.log)
    {
      var r := Term(LastIndex(), n);
      t := r.value;
    }

    method MatchesTerm(i: Index, t: Term, ghost n: Node) returns (b: bool)
      requires Valid() && Shows(n)
      ensures b == MatchTerm(n, i, t)
    {
      var r := Term(i, n);
      b := r == Some(t);
    }

    method IsUpToDate(lastIndex: Index, lastTerm: Term, ghost n: Node) returns (b: bool)
      requires Valid() && Shows(n)
      ensures b == UpToDate(lastIndex, lastTerm, n.log)
    {
      var mine := LastTermOf(n);
      b := if lastTerm != mine then lastTerm > mine else lastIndex >= LastIndex();
    }

    method Entries(lo: Index, hi: Index, ghost n: Node) returns (r: Option<seq<Entry>>)
      requires Valid() && Shows(n)
      ensures lo >= hi ==> r == Some([])
      ensures lo < hi && n.floor < lo && hi <= |n.log| + 1 ==> r == Some(n.log[lo - 1..hi - 1])
      ensures lo < hi && (lo <= n.floor || hi > |n.log| + 1) ==> r == None
    {
      if lo >= hi {
        return Some([]);
      } else if hi > LastIndex() + 1 {
        return None;
      }
      var es := storage.Entries(lo, hi);
      assert es.Ok? ==> es.value == n.log[lo - 1..hi - 1];
      r := match es case Ok(x) => Some(x) case Err(_) => None;
    }

    method FirstConflict(ents: seq<Entry>, ghost n: Node) returns (c: Index)
      requires Valid() && Shows(n)
      ensures c == FindConflict(n, ents)
    {
      for k := 0 to |ents|
        invariant FindConflict(n, ents) == FindConflict(n, ents[k..])
      {
        assert ents[k..][1..] == ents[k + 1..];
        var same := MatchesTerm(ents[k].index, ents[k].term, n);
        if !same {
          return ents[k].index;
        }
      }
      c := 0;
    }

    method Append(ents: seq<Entry>, ghost n: Node) returns (failed: bool)
      requires Valid() && Shows(n) && !n.fault
      modifies this, storage
      ensures Valid() && failed == AppendLog(n, ents).fault
      ensures !failed ==> Shows(AppendLog(n, ents))
      ensures failed ==> Shows(n)
    {
      if ents == [] {
        return false;
      }
      if ents[0].index <= committed {
        return true;
      }
      Written(storage.Contents(), gone, ents);
      var err := storage.AppendEntries(ents);
      failed := err.Some?;
    }

    method AppendFrom(prev: Index, ents: seq<Entry>, ghost n: Node) returns (failed: bool)
      requires Valid() && Shows(n) && !n.fault
      modifies this, storage
      ensures Valid() && failed == AppendConflicting(n, prev, ents).fault
      ensures !failed ==> Shows(AppendConflicting(n, prev, ents))
      ensures failed ==> Shows(n)
    {
      hide FindConflict, AppendLog, Valid;
      var c := FirstConflict(ents, n);
      if c == 0 {
        failed := false;
      } else if c <= committed {
        failed := true;
      } else if c < prev + 1 || c - prev - 1 > |ents| {
        failed := true;
      } else {
        failed := Append(ents[c - prev - 1..], n);
      }
    }

    method CommitsTo(i: Index, ghost n: Node) returns (failed: bool)
      requires Valid() && Shows(n) && !n.fault
      modifies this
      ensures Valid() && failed == CommitTo(n, i).fault
      ensures !failed ==> Shows(CommitTo(n, i))
      ensures failed ==> Shows(n)
    {
      failed := false;
      if i <= committed {
        return;
      }
      if i > LastIndex() {
        return true;
      }
      committed := i;
    }

    /** Where a rejected append parted ways: the whole run of the conflicting term, not one index. */
    method Hint(prev: Index, ghost n: Node) returns (i: Index, t: Term)
      requires Valid() && Shows(n)
      ensures (i, t) == ConflictHint(n, prev)
    {
      if prev > LastIndex() {
        return LastIndex() + 1, 0;
      }
      var r := Term(prev, n);
      if r == None {
        return FirstIndex(), 0;
      }
      i, t := prev, r.value;
      while i > FirstIndex()
        invariant prev > 0 ==> 0 < i <= prev && n.log[i - 1].term == t && RunStart(n, i) == RunStart(n, prev)
        invariant prev == 0 ==> i == 0
      {
        var s := Term(i - 1, n);
        if s != Some(t) {
          break;
        }
        i := i - 1;
      }
    }

    method AppliedTo(i: Index, ghost n: Node) returns (failed: bool)
      requires Valid() && Shows(n) && !n.fault
      modifies this
      ensures Valid() && failed == ApplyTo(n, i).fault
      ensures !failed ==> Shows(ApplyTo(n, i))
      ensures failed ==> Shows(n)
    {
      failed := false;
      if i == 0 || i <= applied {
        return;
      }
      if i > committed {
        return true;
      }
      applied := i;
    }

    method NextToApply(limit: nat, ghost n: Node) returns (ents: seq<Entry>)
      requires Valid() && Shows(n)
      ensures ents == EntriesToApply(n, limit)
      ensures |ents| <= n.committed - n.applied && (ents == [] <==> n.committed == n.applied)
      ensures forall i :: 0 <= i < |ents| ==> ents[i].index == n.applied + 1 + i
    {
      if committed <= applied {
        return [];
      }
      var first := FirstIndex();
      var lo := if applied + 1 >= first then applied + 1 else first;
      var hi := committed + 1;
      if limit > 0 && hi - lo > limit {
        hi := lo + limit;
      }
      var r := Entries(lo, hi, n);
      ents := r.value;
    }

    /** Replaces everything a snapshot covers. */
    method Restore(snap: Snapshot, ghost n: Node) returns (stale: bool)
      requires Valid() && Shows(n) && |snap.image| == snap.lastIndex && LastTerm(snap.image) == snap.lastTerm
      modifies this, storage
      ensures Valid() && stale == (snap.lastIndex <= n.committed || snap.lastIndex <= n.snap.lastIndex)
      ensures stale ==> Shows(n)
      ensures !stale ==> Shows(RaftNode.SaveSnapshot(n, snap).(committed := snap.lastIndex, applied := snap.lastIndex))
    {
      if snap.lastIndex <= committed {
        return true;
      }
      ghost var before := storage.Contents();
      Boundary(before, gone, snap.lastIndex);
      var err, panicked := storage.SaveSnapshot(snap);
      if TermIn(before, snap.lastIndex) != Ok(snap.lastTerm) { gone := snap.image; }
      committed, applied := snap.lastIndex, snap.lastIndex;
      stale := false;
    }

    /** Discards entries that a saved snapshot covers. */
    method Compact(upto: Index, ghost n: Node) returns (failed: bool)
      requires Valid() && Shows(n) && (upto <= n.applied ==> upto <= n.snap.lastIndex)
      modifies this, storage
      ensures Valid() && failed == (upto > n.applied)
      ensures failed ==> Shows(n)
      ensures !failed ==> Shows(n.(floor := if upto <= n.floor then n.floor else upto))
    {
      if upto > applied {
        return true;
      }
      Compacts(storage.Contents(), gone, upto);
      ghost var kept := if upto <= storage.Contents().floor then gone else Whole()[..upto];
      var err := storage.Compact(upto);
      gone := kept;
      failed := false;
    }
  }

  /** Compaction discards entries and leaves the whole log as it was. */
  lemma Compacts(s: Store, gone: seq<Entry>, upto: Index)
    requires LogStore.Valid(s) && |gone| == s.floor && LastTerm(gone) == s.floorTerm && upto <= s.Last()
    ensures var r, whole := LogStore.Compact(s, upto), gone + s.ents;
            && r.Ok? && r.value == s.(floor := r.value.floor, floorTerm := r.value.floorTerm, ents := r.value.ents)
            && (upto <= s.floor ==> r.value == s)
            && (upto > s.floor ==> r.value.floor == upto && LastTerm(whole[..upto]) == r.value.floorTerm
                                   && whole[..upto] + r.value.ents == whole)
  {}

  /** Writing to the store is writing to the whole log. */
  lemma Written(s: Store, gone: seq<Entry>, ents: seq<Entry>)
    requires LogStore.Valid(s) && |gone| == s.floor && ents != [] && ents[0].index > s.floor
    ensures var whole := gone + s.ents;
            && (Append(s, ents).Ok? <==> ents[0].index <= |whole| + 1 && Contiguous(ents))
            && (Append(s, ents).Ok? ==>
                  && gone + Append(s, ents).value.ents == whole[..ents[0].index - 1] + ents
                  && Append(s, ents).value == s.(ents := Append(s, ents).value.ents)
                  && Append(s, ents).value.Last() >= ents[0].index)
  {
    if Contiguous(ents) { ContiguousIndex(ents, |ents| - 1); }
  }

  lemma Boundary(s: Store, gone: seq<Entry>, i: Index)
    requires LogStore.Valid(s) && |gone| == s.floor <= i && LastTerm(gone) == s.floorTerm && i > 0
    ensures var whole := gone + s.ents; TermIn(s, i) == if i > |whole| then Err(Unavailable) else Ok(whole[i - 1].term)
  {}
}
