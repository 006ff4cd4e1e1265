/** The two stores answer every sequence of operations alike. */
module StoresAgree {
  import opened Configurations
  import opened RaftTypes
  import opened LogStore
  import opened MemoryStore
  import opened BoltStore

  datatype Op =
    | DoAppend(ents: seq<Entry>)
    | DoSave(snap: Snapshot)
    | DoCompact(upto: Index)
    | DoHard(hs: HardState)
    | AskTerm(i: Index)
    | AskEntry(i: Index)
    | AskEntries(lo: Index, hi: Index)

  datatype Answer =
    | Done(err: Option<Error>)
    | TermIs(term: Result<Term>)
    | EntryIs(entry: Result<Entry>)
    | EntriesAre(entries: Result<seq<Entry>>)

  function Settle(s: Store, r: Result<Store>): (Store, Answer) {
    match r case Ok(t) => (t, Done(None)) case Err(e) => (s, Done(Some(e)))
  }

  function Do(s: Store, op: Op): (Store, Answer) {
    match op
    case DoAppend(ents) => Settle(s, Append(s, ents))
    case DoSave(snap) => Settle(s, LogStore.SaveSnapshot(s, snap))
    case DoCompact(upto) => Settle(s, LogStore.Compact(s, upto))
    case DoHard(hs) => Settle(s, LogStore.SetHardState(s, hs))
    case AskTerm(i) => (s, TermIs(TermIn(s, i)))
    case AskEntry(i) => (s, EntryIs(EntryIn(s, i)))
    case AskEntries(lo, hi) => (s, EntriesAre(EntriesIn(s, lo, hi)))
  }

  /** Term 0 is not asked for, and a new snapshot never lies below the floor. */
  predicate Asked(s: Store, op: Op) {
    && (op.AskTerm? ==> op.i > 0)
    && (op.DoSave? && op.snap.lastIndex > s.snap.lastIndex ==> op.snap.lastIndex >= s.floor)
  }

  function DoAll(s: Store, ops: seq<Op>): Store
    decreases |ops|
  {
    if ops == [] then s else DoAll(Do(s, ops[0]).0, ops[1..])
  }

  function Answers(s: Store, ops: seq<Op>): seq<Answer>
    decreases |ops|
  {
    if ops == [] then [] else [Do(s, ops[0]).1] + Answers(Do(s, ops[0]).0, ops[1..])
  }

  predicate AllAsked(s: Store, ops: seq<Op>)
    decreases |ops|
  {
    ops == [] || (Asked(s, ops[0]) && AllAsked(Do(s, ops[0]).0, ops[1..]))
  }

  method MemoryDoes(m: MemoryStorage, op: Op) returns (a: Answer)
    requires m.Valid() && Asked(m.Contents(), op)
    modifies m
    ensures m.Valid() && (m.Contents(), a) == Do(old(m.Contents()), op)
  {
    match op {
      case DoAppend(ents) => var e := m.AppendEntries(ents); a := Done(e);
      case DoSave(snap) => var e, panicked := m.SaveSnapshot(snap); a := Done(e);
      case DoCompact(upto) => var e := m.Compact(upto); a := Done(e);
      case DoHard(hs) => var e := m.SetHardState(hs); a := Done(e);
      case AskTerm(i) => var r := m.Term(i); a := TermIs(r);
      case AskEntry(i) => var r := m.GetEntry(i); a := EntryIs(r);
      case AskEntries(lo, hi) => var r := m.Entries(lo, hi); a := EntriesAre(r);
    }
  }

  method BoltDoes(b: Bolt, op: Op) returns (a: Answer)
    requires b.Valid() && Asked(b.Contents(), op)
    modifies b
    ensures b.Valid() && (b.Contents(), a) == Do(old(b.Contents()), op)
  {
    match op {
      case DoAppend(ents) => var e := b.AppendEntries(ents); a := Done(e);
      case DoSave(snap) => var e := b.SaveSnapshot(snap); a := Done(e);
      case DoCompact(upto) => var e := b.Compact(upto); a := Done(e);
      case DoHard(hs) => var e := b.SetHardState(hs); a := Done(e);
      case AskTerm(i) => var r := b.Term(i); a := TermIs(r);
      case AskEntry(i) => var r := b.GetEntry(i); a := EntryIs(r);
      case AskEntries(lo, hi) => var r := b.Entries(lo, hi); a := EntriesAre(r);
    }
  }

  /** From equal contents, any sequence of operations gets the same answers and leaves equal contents,
      even if the store on disk is closed and reopened before every operation. */
  method Lockstep(m: MemoryStorage, b: Bolt, ops: seq<Op>, reopen: bool)
    returns (fromMemory: seq<Answer>, fromDisk: seq<Answer>, c: Bolt)
    requires m.Valid() && b.Valid() && m.Contents() == b.Contents() && AllAsked(m.Contents(), ops)
    modifies m, b
    ensures m.Valid() && c.Valid() && m.Contents() == c.Contents() == DoAll(old(m.Contents()), ops)
    ensures fromMemory == fromDisk == Answers(old(m.Contents()), ops)
  {
    hide Do, Asked, LogStore.Valid;
    fromMemory, fromDisk, c := [], [], b;
    var i := 0;
    while i < |ops|
      invariant 0 <= i <= |ops| && m.Valid() && c.Valid() && m.Contents() == c.Contents()
      invariant c == b || fresh(c)
      invariant AllAsked(m.Contents(), ops[i..])
      invariant DoAll(m.Contents(), ops[i..]) == DoAll(old(m.Contents()), ops)
      invariant fromMemory == fromDisk
                && fromMemory + Answers(m.Contents(), ops[i..]) == Answers(old(m.Contents()), ops)
    {
      if reopen { c := Reopen(c); }
      assert ops[i..][0] == ops[i] && ops[i..][1..] == ops[i + 1..];
      ghost var was := m.Contents();
      var x := MemoryDoes(m, ops[i]);
      var y := BoltDoes(c, ops[i]);
      fromMemory, fromDisk := fromMemory + [x], fromDisk + [y];
      i := i + 1;
    }
  }

  /** Where they part: the term of index 0, which one answers as long as nothing has been discarded and the other never
      does... */
  method AskBoth(m: MemoryStorage, b: Bolt, i: Index) returns (x: Result<Term>, y: Result<Term>)
    requires m.Valid() && b.Valid() && m.Contents() == b.Contents()
    ensures x == y <==> i > 0 || m.Contents().floor > 0
    ensures x != y ==> x == Ok(0) && y == Err(Compacted)
  {
    x := m.Term(i);
    y := b.Term(i);
  }

  /** ...and a new snapshot below the floor, on which one stops and the other loses everything above it. */
  method SaveBoth(m: MemoryStorage, b: Bolt, snap: Snapshot)
    returns (x: Option<Error>, panicked: bool, y: Option<Error>)
    requires m.Valid() && b.Valid() && m.Contents() == b.Contents()
    modifies m, b
    ensures m.Valid() && b.Valid()
    ensures panicked <==> old(m.Contents()).snap.lastIndex < snap.lastIndex < old(m.Contents()).floor
    ensures !panicked ==> x == y && m.Contents() == b.Contents()
    ensures panicked ==>
            y == None && b.Contents().ents == [] && b.Contents().Last() == snap.lastIndex < old(m.Contents()).floor
  {
    x, panicked := m.SaveSnapshot(snap);
    y := b.SaveSnapshot(snap);
  }
}
