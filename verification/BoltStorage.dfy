/** The store on disk (storage/bolt.go): two buckets, and the bounds cached beside them. A committed
transaction is one update of the buckets; a bucket is a map whose cursor visits keys in order. */
module BoltStore {
  import opened Configurations
  import opened RaftTypes
  import opened LogStore
  import opened MemoryStore

  type Bucket = map<Index, Entry>

  datatype Floor = Floor(index: Index, term: Term)

  /** What survives the process. */
  datatype Disk = Disk(log: Bucket, hard: Option<HardState>, snap: Option<Snapshot>, floor: Option<Floor>)

  // ---------------------------------------------------------------------------
  // Cursors
  // ---------------------------------------------------------------------------

  lemma {:induction false} HasLeast(s: set<Index>, z: Index)
    requires z in s
    ensures exists x :: x in s && forall y :: y in s ==> x <= y
    decreases z
  {
    if y :| y in s && y < z { HasLeast(s, y); }
  }

  predicate Greatest(s: set<Index>, x: Index) { x in s && forall y :: y in s ==> y <= x }

  lemma {:induction false} HasGreatest(s: set<Index>, z: Index)
    requires z in s
    ensures exists x :: Greatest(s, x)
    decreases |s|
  {
    if y :| y in s && z < y {
      var t := s - {z};
      HasGreatest(t, y);
      var x :| Greatest(t, x);
      GreatestOfMore(s, z, y, x);
    } else {
      assert Greatest(s, z);
    }
  }

  lemma GreatestOfMore(s: set<Index>, z: Index, y: Index, x: Index)
    requires Greatest(s - {z}, x) && z < y && y in s
    ensures Greatest(s, x)
  {
    assert y in s - {z};
    forall w | w in s ensures w <= x { assert w == z || w in s - {z}; }
  }

  lemma LeastExists(s: set<Index>)
    requires s != {}
    ensures exists x :: x in s && forall y :: y in s ==> x <= y
  {
    var z :| z in s;
    HasLeast(s, z);
  }

  lemma GreatestExists(s: set<Index>)
    requires s != {}
    ensures exists x :: x in s && forall y :: y in s ==> y <= x
  {
    var z :| z in s;
    HasGreatest(s, z);
  }

  /** The first key at or after `k`. */
  function Seek(b: Bucket, k: Index): (r: Option<Index>)
    ensures r.Some? ==> r.value in b && k <= r.value && forall i :: i in b && k <= i ==> r.value <= i
    ensures r.None? ==> forall i :: i in b ==> i < k
  {
    var from := set i | i in b && k <= i;
    if from == {} then
      assert forall i :: i in b && k <= i ==> i in from;
      None
    else
      LeastExists(from);
      var x :| x in from && forall y :: y in from ==> x <= y;
      assert forall i :: i in b && k <= i ==> i in from;
      Some(x)
  }

  function LastKey(b: Bucket): (r: Option<Index>)
    ensures r.Some? ==> r.value in b && forall i :: i in b ==> i <= r.value
    ensures r.None? ==> b == map[]
  {
    if b.Keys == {} then None
    else
      GreatestExists(b.Keys);
      var x :| x in b.Keys && forall y :: y in b.Keys ==> y <= x;
      Some(x)
  }

  /** Deletes the keys from `lo` up to, not including, `hi`, walking a cursor. */
  method DeleteRange(b: Bucket, lo: Index, hi: Index) returns (r: Bucket)
    ensures r == map i | i in b && !(lo <= i < hi) :: b[i]
  {
    r := b;
    var k := Seek(r, lo);
    ghost var next := lo;
    while k.Some? && k.value < hi
      invariant lo <= next
      invariant r == map i | i in b && !(lo <= i < next) :: b[i]
      invariant k == Seek(r, next)
      invariant next <= hi || next == lo
      decreases |r|
    {
      var gone := r - {k.value};
      assert gone.Keys == r.Keys - {k.value};
      next := k.value + 1;
      r := gone;
      k := Seek(r, k.value + 1);
    }
  }

  function Range(b: Bucket, lo: Index, hi: Index): (s: seq<Entry>)
    requires lo <= hi && forall i :: lo <= i < hi ==> i in b
    ensures |s| == hi - lo && forall i :: 0 <= i < |s| ==> s[i] == b[lo + i]
  {
    seq(hi - lo, i requires 0 <= i < hi - lo => b[lo + i])
  }

  /** Collects what a cursor sees between `lo` and `hi`. */
  method Scan(b: Bucket, lo: Index, hi: Index) returns (out: seq<Entry>)
    requires lo <= hi && forall i :: lo <= i < hi ==> i in b
    ensures out == Range(b, lo, hi)
  {
    out := [];
    var k := Seek(b, lo);
    while k.Some? && k.value < hi
      invariant lo + |out| <= hi
      invariant k == Seek(b, lo + |out|)
      invariant out == Range(b, lo, lo + |out|)
      decreases hi - |out|
    {
      assert lo + |out| in b;
      out := out + [b[k.value]];
      k := Seek(b, k.value + 1);
    }
    assert lo + |out| < hi ==> lo + |out| in b;
  }

  // ---------------------------------------------------------------------------
  // What a disk holds
  // ---------------------------------------------------------------------------

  function FloorOf(d: Disk): Floor { if d.floor.Some? then d.floor.value else Floor(0, 0) }

  function HardOf(d: Disk): HardState { if d.hard.Some? then d.hard.value else HardState(0, NONE, 0) }

  function SnapOf(d: Disk): Snapshot { if d.snap.Some? then d.snap.value else NO_SNAPSHOT }

  /** The log bucket runs from just above the floor to `last` without a hole. */
  ghost predicate OnDisk(d: Disk, last: Index) {
    && FloorOf(d).index <= last
    && (forall i :: i in d.log <==> FloorOf(d).index < i <= last)
    && (forall i :: i in d.log ==> d.log[i].index == i)
    && (d.floor.Some? ==> d.floor.value.index > 0)
  }

  ghost function Stored(d: Disk, last: Index): (s: Store)
    requires OnDisk(d, last)
    ensures LogStore.Valid(s) && s.Last() == last
    ensures s.hard == HardOf(d) && s.snap == SnapOf(d) && s.floor == FloorOf(d).index && s.floorTerm == FloorOf(d).term
  {
    Store(HardOf(d), SnapOf(d), FloorOf(d).index, FloorOf(d).term, Range(d.log, FloorOf(d).index + 1, last + 1))
  }

  class Bolt {
    var disk: Disk
    var first: Index
    var last: Index
    var snapIndex: Index
    var snapTerm: Term
    var floor: Floor
    var hardState: HardState

    /** The caches say what a fresh look at the disk would. */
    ghost predicate Valid()
      reads this
    {
      && OnDisk(disk, last)
      && floor == FloorOf(disk) && first == floor.index + 1
      && snapIndex == SnapOf(disk).lastIndex && snapTerm == SnapOf(disk).lastTerm
      && hardState == HardOf(disk)
    }

    ghost function Contents(): (s: Store)
      requires Valid()
      reads this
      ensures LogStore.Valid(s)
    {
      Stored(disk, last)
    }

    /** Opens what is on a disk, rebuilding every cached value from the buckets alone. */
    constructor Open(disk: Disk, ghost end: Index)
      requires OnDisk(disk, end)
      ensures Valid() && this.disk == disk && last == end
    {
      this.disk := disk;
      this.hardState := HardOf(disk);
      this.snapIndex, this.snapTerm := SnapOf(disk).lastIndex, SnapOf(disk).lastTerm;
      this.floor := FloorOf(disk);
      var last, first := FloorOf(disk).index, FloorOf(disk).index + 1;
      var k := LastKey(disk.log);
      if k.Some? { last := k.value; }
      k := Seek(disk.log, 0);
      if k.Some? { first := k.value; }
      assert FloorOf(disk).index < end ==> end in disk.log && FloorOf(disk).index + 1 in disk.log;
      this.last, this.first := last, first;
    }

    method SetHardState(hs: HardState) returns (err: Option<Error>)
      requires Valid()
      modifies this
      ensures Valid()
      ensures match LogStore.SetHardState(old(Contents()), hs)
              case Ok(s) => err == None && Contents() == s
              case Err(e) => err == Some(e) && unchanged(this)
    {
      if hs.term < hardState.term {
        return Some(TermRegressed);
      }
      disk := disk.(hard := Some(hs));
      hardState := hs;
      err := None;
    }

    method Term(i: Index) returns (r: Result<Term>)
      requires Valid()
      ensures i > 0 ==> r == TermIn(Contents(), i)
      ensures i == 0 ==> r == Err(Compacted)
    {
      if i == floor.index && floor.index > 0 {
        return Ok(floor.term);
      }
      var e := GetEntry(i);
      r := match e case Ok(x) => Ok(x.term) case Err(x) => Err(x);
    }

    method GetEntry(i: Index) returns (r: Result<Entry>)
      requires Valid()
      ensures r == EntryIn(Contents(), i)
    {
      if i < first {
        return Err(Compacted);
      } else if i > last {
        return Err(Unavailable);
      }
      r := Ok(disk.log[i]);
    }

    method Entries(lo: Index, hi: Index) returns (r: Result<seq<Entry>>)
      requires Valid()
      ensures r == EntriesIn(Contents(), lo, hi)
    {
      if lo >= hi {
        return Ok([]);
      } else if lo < first {
        return Err(Compacted);
      } else if hi > last + 1 {
        return Err(Unavailable);
      }
      RangeSlice(disk, last, lo, hi);
      var out := Scan(disk.log, lo, hi);
      r := Ok(out);
    }

    method AppendEntries(entries: seq<Entry>) returns (err: Option<Error>)
      requires Valid()
      modifies this
      ensures Valid()
      ensures match Append(old(Contents()), entries)
              case Ok(s) => err == None && Contents() == s
              case Err(e) => err == Some(e) && unchanged(this)
    {
      hide Contiguous, AboveFloor, LogStore.Valid, OnDisk, Stored;
      if entries == [] {
        return None;
      }
      var ok := CheckContiguous(entries);
      if !ok {
        return Some(NotContiguous);
      }
      if entries[|entries| - 1].index <= floor.index {
        return None;
      }
      var rest := Above(entries, floor.index);
      ghost var before := Contents();
      assert rest == AboveFloor(before, entries);
      if rest[0].index > last + 1 {
        return Some(Gap);
      }
      BatchIndexes(before, entries);
      NoneAbove(disk, last);
      var log := Overwritten(disk.log, rest, last);
      AppendedDisk(disk, last, rest, log);
      disk := disk.(log := log);
      last := rest[|rest| - 1].index;
      assert first <= last; // so the cached first index is never out of step here
      err := None;
    }

    method SaveSnapshot(snap: Snapshot) returns (err: Option<Error>)
      requires Valid()
      modifies this
      ensures Valid()
      ensures match LogStore.SaveSnapshot(old(Contents()), snap)
              case Ok(s) => err == None && Contents() == s
              case Err(e) => err == Some(e) && unchanged(this)
    {
      hide OnDisk, Stored, LogStore.Valid;
      if snap.lastIndex <= snapIndex {
        return Some(OutOfDate);
      }
      SnapshotOnDisk(disk, last, snap);
      var replaceLog := snap.lastIndex > last;
      if !replaceLog {
        var t := Term(snap.lastIndex);
        replaceLog := t != Ok(snap.lastTerm);
      }
      if replaceLog {
        floor := Floor(snap.lastIndex, snap.lastTerm);
        disk := Disk(map[], disk.hard, Some(snap), Some(floor));
        last, first := snap.lastIndex, snap.lastIndex + 1;
      } else {
        disk := disk.(snap := Some(snap));
      }
      snapIndex, snapTerm := snap.lastIndex, snap.lastTerm;
      err := None;
    }

    method Compact(upto: Index) returns (err: Option<Error>)
      requires Valid()
      modifies this
      ensures Valid()
      ensures match LogStore.Compact(old(Contents()), upto)
              case Ok(s) => err == None && Contents() == s
              case Err(e) => err == Some(e) && unchanged(this)
    {
      hide OnDisk, Stored, LogStore.Valid;
      if upto <= floor.index {
        return None;
      } else if upto > last {
        return Some(PastEnd);
      }
      var t := Term(upto);
      assert t.Ok?; // the boundary is within the log, so its term can be read
      var log := DeleteRange(disk.log, 0, upto + 1);
      CompactedDisk(disk, last, upto, t.value, log);
      floor := Floor(upto, t.value);
      disk := disk.(log := log, floor := Some(floor));
      first := upto + 1;
      err := None;
    }
  }

  lemma SnapshotOnDisk(d: Disk, last: Index, snap: Snapshot)
    requires OnDisk(d, last) && snap.lastIndex > 0
    ensures OnDisk(d.(snap := Some(snap)), last)
    ensures Stored(d.(snap := Some(snap)), last) == Stored(d, last).(snap := snap)
    ensures var r := Disk(map[], d.hard, Some(snap), Some(Floor(snap.lastIndex, snap.lastTerm)));
            && OnDisk(r, snap.lastIndex)
            && Stored(r, snap.lastIndex) == Store(Stored(d, last).hard, snap, snap.lastIndex, snap.lastTerm, [])
  {}

  lemma RangeSlice(d: Disk, last: Index, lo: Index, hi: Index)
    requires OnDisk(d, last) && FloorOf(d).index < lo <= hi <= last + 1
    ensures var s := Stored(d, last); s.ents[lo - s.First()..hi - s.First()] == Range(d.log, lo, hi)
  {}

  lemma NoneAbove(d: Disk, last: Index)
    requires OnDisk(d, last)
    ensures forall i :: i in d.log ==> i <= last
  {}

  lemma AppendedDisk(d: Disk, last: Index, rest: seq<Entry>, log: Bucket)
    requires OnDisk(d, last) && rest != [] && FloorOf(d).index < rest[0].index <= last + 1
    requires forall i :: 0 <= i < |rest| ==> rest[i].index == rest[0].index + i
    requires forall i :: i in log <==> (i in d.log && i < rest[0].index) || rest[0].index <= i < rest[0].index + |rest|
    requires forall i :: i in d.log && i < rest[0].index ==> i in log && log[i] == d.log[i]
    requires forall i :: 0 <= i < |rest| ==> rest[0].index + i in log && log[rest[0].index + i] == rest[i]
    ensures var end := rest[|rest| - 1].index;
            var s := Stored(d, last);
            && end >= FloorOf(d).index && OnDisk(d.(log := log), end)
            && Stored(d.(log := log), end) == s.(ents := s.ents[..rest[0].index - s.First()] + rest)
  {
    var end, s := rest[|rest| - 1].index, Stored(d, last);
    assert end == rest[0].index + |rest| - 1;
    forall i | i in log ensures log[i].index == i {
      if i >= rest[0].index { assert log[rest[0].index + (i - rest[0].index)] == rest[i - rest[0].index]; }
    }
    var kept := s.ents[..rest[0].index - s.First()];
    var new_ := Stored(d.(log := log), end).ents;
    forall i | 0 <= i < |new_| ensures new_[i] == (kept + rest)[i] {
      if i >= |kept| { assert log[rest[0].index + (i - |kept|)] == rest[i - |kept|]; }
    }
  }

  lemma CompactedDisk(d: Disk, last: Index, upto: Index, t: Term, log: Bucket)
    requires OnDisk(d, last) && FloorOf(d).index < upto <= last
    requires TermIn(Stored(d, last), upto) == Ok(t)
    requires log == map i | i in d.log && !(0 <= i < upto + 1) :: d.log[i]
    ensures var r := d.(log := log, floor := Some(Floor(upto, t)));
            var s := Stored(d, last);
            && OnDisk(r, last)
            && Stored(r, last) == s.(floor := upto, floorTerm := t, ents := s.ents[upto - s.floor..])
            && t == s.ents[upto - s.First()].term
  {
    var r, s := d.(log := log, floor := Some(Floor(upto, t))), Stored(d, last);
    assert Stored(r, last).ents == s.ents[upto - s.floor..];
  }

  lemma BatchIndexes(s: Store, ents: seq<Entry>)
    requires Contiguous(ents) && ents != [] && ents[|ents| - 1].index > s.floor
    ensures var r := AboveFloor(s, ents); forall i :: 0 <= i < |r| ==> r[i].index == r[0].index + i
  {
    hide Contiguous;
    var r := AboveFloor(s, ents);
    forall i | 0 <= i < |r| ensures r[i].index == r[0].index + i {
      ContiguousIndex(ents, |ents| - |r| + i);
      ContiguousIndex(ents, |ents| - |r|);
    }
  }

  /** Truncates at the first new entry, then writes the new ones. */
  method Overwritten(b: Bucket, rest: seq<Entry>, last: Index) returns (r: Bucket)
    requires rest != [] && forall i :: 0 <= i < |rest| ==> rest[i].index == rest[0].index + i
    requires forall i :: i in b ==> i <= last
    ensures forall i :: i in r <==> (i in b && i < rest[0].index) || rest[0].index <= i < rest[0].index + |rest|
    ensures forall i :: i in b && i < rest[0].index ==> i in r && r[i] == b[i]
    ensures forall i :: 0 <= i < |rest| ==> rest[0].index + i in r && r[rest[0].index + i] == rest[i]
  {
    var lo := rest[0].index;
    r := DeleteRange(b, lo, if last < lo then lo else last + 1);
    for k := 0 to |rest|
      invariant forall i :: i in r <==> (i in b && i < lo) || lo <= i < lo + k
      invariant forall i :: i in b && i < lo ==> r[i] == b[i]
      invariant forall i :: 0 <= i < k ==> r[lo + i] == rest[i]
    {
      r := r[rest[k].index := rest[k]];
    }
  }

  /** Reopening: a second store opened on the same disk is indistinguishable from the first. */
  method Reopen(b: Bolt) returns (c: Bolt)
    requires b.Valid()
    ensures fresh(c) && c.Valid() && c.Contents() == b.Contents()
    ensures c.first == b.first && c.last == b.last && c.floor == b.floor && c.hardState == b.hardState
    ensures c.snapIndex == b.snapIndex && c.snapTerm == b.snapTerm
  {
    c := new Bolt.Open(b.disk, b.last);
  }
}
