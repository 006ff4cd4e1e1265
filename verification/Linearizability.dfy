/** What the chaos checker decides: whether the answers clients got could have come from one map executing
their operations one at a time (chaos/check.go). It checks each key by itself; this shows that nothing is
lost by doing so. */
module Linearizability {
  type Key = string

  datatype Kind = Get | Put | Delete

  datatype Output = Output(value: string, found: bool, unknown: bool)

  /** An operation as recorded: what was asked, what was answered, when it was called and when it returned. */
  datatype Op = Op(kind: Kind, key: Key, value: string, out: Output, call: int, ret: int)

  // ---------------------------------------------------------------------------
  // The two models
  // ---------------------------------------------------------------------------

  /** The state of one key. */
  datatype Cell = Absent | Present(value: string)

  predicate Fits(st: Cell, op: Op) {
    match op.kind
    case Get => op.out.found == st.Present? && (st.Present? ==> op.out.value == st.value)
    case Put => true
    case Delete => op.out.unknown || op.out.found == st.Present?
  }

  function After(st: Cell, op: Op): Cell {
    match op.kind
    case Get => st
    case Put => Present(op.value)
    case Delete => Absent
  }

  predicate LegalKey(st: Cell, o: seq<Op>)
    decreases |o|
  {
    o == [] || (Fits(st, o[0]) && LegalKey(After(st, o[0]), o[1..]))
  }

  type Map = map<Key, string>

  function CellOf(m: Map, k: Key): Cell { if k in m then Present(m[k]) else Absent }

  function MapAfter(m: Map, op: Op): Map {
    match op.kind
    case Get => m
    case Put => m[op.key := op.value]
    case Delete => m - {op.key}
  }

  /** One map, one operation at a time. */
  predicate LegalMap(m: Map, o: seq<Op>)
    decreases |o|
  {
    o == [] || (Fits(CellOf(m, o[0].key), o[0]) && LegalMap(MapAfter(m, o[0]), o[1..]))
  }

  // ---------------------------------------------------------------------------
  // Linearizability
  // ---------------------------------------------------------------------------

  /** No operation comes after one that was only called after it had returned. */
  predicate RespectsTime(o: seq<Op>) {
    forall i, j :: 0 <= i < j < |o| ==> o[i].call <= o[j].ret
  }

  ghost predicate Orders(o: seq<Op>, h: seq<Op>) { multiset(o) == multiset(h) && RespectsTime(o) }

  ghost predicate LinearizableMap(h: seq<Op>) { exists o :: Orders(o, h) && LegalMap(map[], o) }

  ghost predicate LinearizableKey(h: seq<Op>) { exists o :: Orders(o, h) && LegalKey(Absent, o) }

  /** The operations on one key, in the order they were recorded. */
  function OfKey(s: seq<Op>, k: Key): seq<Op> {
    if s == [] then [] else If(s[0], k) + OfKey(s[1..], k)
  }

  function If(op: Op, k: Key): seq<Op> { if op.key == k then [op] else [] }

  /** Splitting a history by key, as the checker does. */
  method Partition(h: seq<Op>) returns (byKey: map<Key, seq<Op>>)
    ensures forall k :: k in byKey ==> byKey[k] == OfKey(h, k) && byKey[k] != []
    ensures forall op :: op in h ==> op.key in byKey
  {
    hide OfKey;
    byKey := map[];
    OfKeyNone();
    for i := 0 to |h|
      invariant forall k :: k in byKey ==> byKey[k] == OfKey(h[..i], k) && byKey[k] != []
      invariant forall k :: k !in byKey ==> OfKey(h[..i], k) == []
      invariant forall j :: 0 <= j < i ==> h[j].key in byKey
    {
      var k := h[i].key;
      forall x ensures OfKey(h[..i + 1], x) == OfKey(h[..i], x) + if x == k then [h[i]] else [] { OfKeyStep(h, i, x); }
      byKey := byKey[k := (if k in byKey then byKey[k] else []) + [h[i]]];
    }
    assert h[..|h|] == h;
  }

  lemma OfKeyNone()
    ensures forall k :: OfKey([], k) == []
  {}

  lemma OfKeyStep(h: seq<Op>, i: nat, k: Key)
    requires i < |h|
    ensures OfKey(h[..i + 1], k) == OfKey(h[..i], k) + if k == h[i].key then [h[i]] else []
  {
    assert h[..i + 1] == h[..i] + [h[i]];
    OfKeyAppend(h[..i], [h[i]], k);
  }

  lemma {:induction false} OfKeyAppend(a: seq<Op>, b: seq<Op>, k: Key)
    ensures OfKey(a + b, k) == OfKey(a, k) + OfKey(b, k)
    decreases |a|
  {
    if a == [] {
      assert a + b == b;
    } else {
      hide If;
      assert (a + b)[1..] == a[1..] + b;
      OfKeyAppend(a[1..], b, k);
      assert If(a[0], k) + (OfKey(a[1..], k) + OfKey(b, k)) == (If(a[0], k) + OfKey(a[1..], k)) + OfKey(b, k);
    }
  }

  // ---------------------------------------------------------------------------
  // Keys do not interact
  // ---------------------------------------------------------------------------

  /** A run against the map is legal exactly when every key's part of it is legal by itself. */
  lemma {:induction false} LegalByKey(m: Map, o: seq<Op>)
    ensures LegalMap(m, o) <==> forall k :: LegalKey(CellOf(m, k), OfKey(o, k))
    decreases |o|
  {
    if o != [] {
      var op, m' := o[0], MapAfter(m, o[0]);
      LegalByKey(m', o[1..]);
      forall k ensures k != op.key ==> CellOf(m', k) == CellOf(m, k) && OfKey(o, k) == OfKey(o[1..], k) {}
      assert CellOf(m', op.key) == After(CellOf(m, op.key), op);
      assert OfKey(o, op.key) == [op] + OfKey(o[1..], op.key);
      assert OfKey(o, op.key)[1..] == OfKey(o[1..], op.key);
      if forall k :: LegalKey(CellOf(m, k), OfKey(o, k)) {
        assert LegalKey(CellOf(m, op.key), OfKey(o, op.key));
        forall k ensures LegalKey(CellOf(m', k), OfKey(o[1..], k)) {
          assert LegalKey(CellOf(m, k), OfKey(o, k));
        }
      }
      if LegalMap(m, o) {
        forall k ensures LegalKey(CellOf(m, k), OfKey(o, k)) {
          assert LegalKey(CellOf(m', k), OfKey(o[1..], k));
        }
      }
    }
  }

  lemma {:induction false} OfKeyCount(s: seq<Op>, k: Key, x: Op)
    ensures multiset(OfKey(s, k))[x] == if x.key == k then multiset(s)[x] else 0
  {
    if s != [] {
      OfKeyCount(s[1..], k, x);
      assert s == [s[0]] + s[1..];
      if s[0].key == k { assert OfKey(s, k) == [s[0]] + OfKey(s[1..], k); }
    }
  }

  lemma {:induction false} OfKeyRespectsTime(o: seq<Op>, k: Key)
    requires RespectsTime(o)
    ensures RespectsTime(OfKey(o, k))
  {
    if o != [] {
      OfKeyRespectsTime(o[1..], k);
      var rest := OfKey(o[1..], k);
      forall j | 0 <= j < |rest| ensures o[0].call <= rest[j].ret {
        OfKeyIn(o[1..], k, j);
        var i :| 0 <= i < |o[1..]| && o[1..][i] == rest[j];
        assert o[i + 1] == rest[j];
      }
    }
  }

  lemma {:induction false} OfKeyIn(s: seq<Op>, k: Key, j: nat)
    requires j < |OfKey(s, k)|
    ensures OfKey(s, k)[j] in s && OfKey(s, k)[j].key == k
    decreases |s|
  {
    if s[0].key != k {
      OfKeyIn(s[1..], k, j);
    } else if j > 0 {
      OfKeyIn(s[1..], k, j - 1);
    }
  }

  /** Each key of a linearizable history is linearizable. */
  lemma KeysAreLinearizable(h: seq<Op>, k: Key)
    requires LinearizableMap(h)
    ensures LinearizableKey(OfKey(h, k))
  {
    hide OfKey, LegalMap, LegalKey, RespectsTime;
    var o: seq<Op> :| Orders(o, h) && LegalMap(map[], o);
    var p := OfKey(o, k);
    forall x ensures multiset(p)[x] == multiset(OfKey(h, k))[x] {
      OfKeyCount(o, k, x);
      OfKeyCount(h, k, x);
    }
    OfKeyRespectsTime(o, k);
    LegalByKey(map[], o);
    assert LegalKey(CellOf(map[], k), p);
    assert Orders(p, OfKey(h, k));
  }

  // ---------------------------------------------------------------------------
  // Putting the keys back together
  // ---------------------------------------------------------------------------

  /** An operation and a moment between its call and its return at which it may be taken to happen. */
  datatype Timed = Timed(op: Op, at: int)

  predicate InTime(s: seq<Timed>) {
    && (forall i :: 0 <= i < |s| ==> s[i].op.call <= s[i].at <= s[i].op.ret)
    && (forall i, j :: 0 <= i < j < |s| ==> s[i].at <= s[j].at)
  }

  function Ops(s: seq<Timed>): (r: seq<Op>)
    ensures |r| == |s| && forall i :: 0 <= i < |s| ==> r[i] == s[i].op
  {
    seq(|s|, i requires 0 <= i < |s| => s[i].op)
  }

  function Max(a: int, b: int): int { if a < b then b else a }

  /** The latest call so far: a moment for each operation that never goes back. */
  function Points(o: seq<Op>, from: int): seq<Timed> {
    if o == [] then []
    else [Timed(o[0], Max(from, o[0].call))] + Points(o[1..], Max(from, o[0].call))
  }

  lemma {:induction false} PointsInTime(o: seq<Op>, from: int)
    requires RespectsTime(o)
    requires forall i :: 0 <= i < |o| ==> o[i].call <= o[i].ret && from <= o[i].ret
    ensures InTime(Points(o, from)) && Ops(Points(o, from)) == o
    ensures NoneBefore(Points(o, from), from)
    decreases |o|
  {
    if o != [] {
      hide InTime, RespectsTime;
      var at := Max(from, o[0].call);
      TailRespects(o);
      PointsInTime(o[1..], at);
      var rest := Points(o[1..], at);
      ConsInTime(Timed(o[0], at), rest);
      assert Points(o, from) == [Timed(o[0], at)] + rest;
      assert Ops(Points(o, from)) == [o[0]] + Ops(rest) == o;
    }
  }

  lemma TailRespects(o: seq<Op>)
    requires RespectsTime(o) && o != []
    ensures RespectsTime(o[1..]) && forall i :: 0 <= i < |o[1..]| ==> o[0].call <= o[1..][i].ret
  {}

  /** Moments that never go back respect real time. */
  lemma InTimeRespectsTime(s: seq<Timed>)
    requires InTime(s)
    ensures RespectsTime(Ops(s))
  {}

  function Merge(a: seq<Timed>, b: seq<Timed>): seq<Timed>
    decreases |a| + |b|
  {
    if a == [] then b
    else if b == [] then a
    else if a[0].at <= b[0].at then [a[0]] + Merge(a[1..], b)
    else [b[0]] + Merge(a, b[1..])
  }

  predicate NoneBefore(s: seq<Timed>, t: int) { forall i :: 0 <= i < |s| ==> t <= s[i].at }

  lemma ConsInTime(x: Timed, s: seq<Timed>)
    requires x.op.call <= x.at <= x.op.ret && InTime(s) && NoneBefore(s, x.at)
    ensures InTime([x] + s)
  {}

  lemma TailInTime(s: seq<Timed>)
    requires InTime(s) && s != []
    ensures InTime(s[1..]) && NoneBefore(s[1..], s[0].at) && s[0].op.call <= s[0].at <= s[0].op.ret
  {}

  lemma {:induction false} MergeInTime(a: seq<Timed>, b: seq<Timed>, t: int)
    requires InTime(a) && InTime(b) && NoneBefore(a, t) && NoneBefore(b, t)
    ensures InTime(Merge(a, b)) && NoneBefore(Merge(a, b), t)
    decreases |a| + |b|
  {
    if a != [] && b != [] {
      TailInTime(a);
      TailInTime(b);
      if a[0].at <= b[0].at {
        MergeInTime(a[1..], b, a[0].at);
        ConsInTime(a[0], Merge(a[1..], b));
      } else {
        MergeInTime(a, b[1..], b[0].at);
        ConsInTime(b[0], Merge(a, b[1..]));
      }
    }
  }

  /** Merging keeps what each side has of a key that only that side has. */
  lemma {:induction false} MergeOfKey(a: seq<Timed>, b: seq<Timed>, k: Key)
    requires OfKey(Ops(a), k) == [] || OfKey(Ops(b), k) == []
    ensures OfKey(Ops(Merge(a, b)), k) == OfKey(Ops(a), k) + OfKey(Ops(b), k)
    decreases |a| + |b|
  {
    if a != [] && b != [] {
      if a[0].at <= b[0].at {
        ConsOps(a[0], a[1..], k);
        ConsOps(a[0], Merge(a[1..], b), k);
        assert a == [a[0]] + a[1..];
        MergeOfKey(a[1..], b, k);
      } else {
        ConsOps(b[0], b[1..], k);
        ConsOps(b[0], Merge(a, b[1..]), k);
        assert b == [b[0]] + b[1..];
        MergeOfKey(a, b[1..], k);
      }
    }
  }

  lemma ConsOps(x: Timed, s: seq<Timed>, k: Key)
    ensures OfKey(Ops([x] + s), k) == (if x.op.key == k then [x.op] else []) + OfKey(Ops(s), k)
  {
    assert Ops([x] + s)[1..] == Ops(s);
  }

  ghost predicate WellTimed(h: seq<Op>) { forall i :: 0 <= i < |h| ==> h[i].call <= h[i].ret }

  /** A history's part on some keys, given an order for each of those keys, has one order for them all. */
  lemma {:induction false} Interleave(h: seq<Op>, keys: set<Key>) returns (s: seq<Timed>)
    requires WellTimed(h) && forall k :: k in keys ==> LinearizableKey(OfKey(h, k))
    ensures InTime(s)
    ensures forall k :: k in keys ==>
            LegalKey(Absent, OfKey(Ops(s), k)) && multiset(OfKey(Ops(s), k)) == multiset(OfKey(h, k))
    ensures forall k :: k !in keys ==> OfKey(Ops(s), k) == []
    decreases |keys|
  {
    hide InTime, OfKey, Merge, LegalKey, LinearizableKey, WellTimed;
    if keys == {} {
      s := [];
      NothingLeft();
    } else {
      var k :| k in keys;
      var rest := Interleave(h, keys - {k});
      var part := OneKey(h, k);
      s := Merge(rest, part);
      var low := Lowest(rest, part);
      MergeInTime(rest, part, low);
      forall x ensures OfKey(Ops(s), x) == OfKey(Ops(rest), x) + OfKey(Ops(part), x) {
        assert x == k || OfKey(Ops(part), x) == [];
        MergeOfKey(rest, part, x);
      }
      forall x | x in keys
        ensures LegalKey(Absent, OfKey(Ops(s), x)) && multiset(OfKey(Ops(s), x)) == multiset(OfKey(h, x))
      {
        if x == k {
          assert OfKey(Ops(s), x) == OfKey(Ops(part), x);
        } else {
          assert x in keys - {k} && OfKey(Ops(s), x) == OfKey(Ops(rest), x);
        }
      }
    }
  }

  lemma NothingLeft()
    ensures InTime([]) && forall k :: OfKey(Ops([]), k) == []
  {}

  lemma {:induction false} LowBound(s: seq<Timed>) returns (t: int)
    ensures NoneBefore(s, t)
  {
    if s == [] {
      t := 0;
    } else {
      var u := LowBound(s[1..]);
      t := if s[0].at < u then s[0].at else u;
      forall i | 0 <= i < |s| ensures t <= s[i].at { if i > 0 { assert s[i] == s[1..][i - 1]; } }
    }
  }

  lemma Lowest(a: seq<Timed>, b: seq<Timed>) returns (t: int)
    ensures NoneBefore(a, t) && NoneBefore(b, t)
  {
    var x := LowBound(a);
    var y := LowBound(b);
    t := if x < y then x else y;
  }

  lemma OneKey(h: seq<Op>, k: Key) returns (s: seq<Timed>)
    requires WellTimed(h) && LinearizableKey(OfKey(h, k))
    ensures InTime(s) && LegalKey(Absent, OfKey(Ops(s), k)) && multiset(OfKey(Ops(s), k)) == multiset(OfKey(h, k))
    ensures forall x :: x != k ==> OfKey(Ops(s), x) == []
  {
    var o: seq<Op> :| Orders(o, OfKey(h, k)) && LegalKey(Absent, o);
    forall i | 0 <= i < |o| ensures o[i].key == k && o[i].call <= o[i].ret { FromHistory(h, k, o, i); }
    var from := if o == [] then 0 else o[0].call;
    PointsInTime(o, from);
    s := Points(o, from);
    AllOneKey(o, k);
  }

  lemma FromHistory(h: seq<Op>, k: Key, o: seq<Op>, i: nat)
    requires WellTimed(h) && multiset(o) == multiset(OfKey(h, k)) && i < |o|
    ensures o[i].key == k && o[i].call <= o[i].ret
  {
    assert o[i] in multiset(o);
    var j :| 0 <= j < |OfKey(h, k)| && OfKey(h, k)[j] == o[i];
    OfKeyIn(h, k, j);
  }

  lemma {:induction false} AllOneKey(o: seq<Op>, k: Key)
    requires forall i :: 0 <= i < |o| ==> o[i].key == k
    ensures OfKey(o, k) == o && forall x :: x != k ==> OfKey(o, x) == []
  {
    if o != [] { AllOneKey(o[1..], k); }
  }

  /** A history whose keys are each linearizable is linearizable. */
  lemma MapIsLinearizable(h: seq<Op>)
    requires WellTimed(h) && EveryKey(h)
    ensures LinearizableMap(h)
  {
    var keys := set op | op in h :: op.key;
    var s := Interleave(h, keys);
    var o := Ops(s);
    InTimeRespectsTime(s);
    forall x ensures multiset(o)[x] == multiset(h)[x] {
      OfKeyCount(o, x.key, x);
      OfKeyCount(h, x.key, x);
      if x.key !in keys { NotThere(h, x); }
    }
    forall k ensures LegalKey(CellOf(map[], k), OfKey(o, k)) {
      if k !in keys { assert OfKey(o, k) == []; }
    }
    LegalByKey(map[], o);
    assert Orders(o, h);
  }

  lemma NotThere(h: seq<Op>, x: Op)
    requires x.key !in (set op | op in h :: op.key)
    ensures multiset(h)[x] == 0
  {
    assert x !in h;
  }

  ghost predicate EveryKey(h: seq<Op>) { forall k: Key :: LinearizableKey(OfKey(h, k)) }

  /** Locality: checking every key by itself decides exactly what checking the whole map would. */
  lemma Locality(h: seq<Op>)
    requires WellTimed(h)
    ensures LinearizableMap(h) <==> EveryKey(h)
  {
    hide LinearizableMap, LinearizableKey, WellTimed, OfKey;
    if LinearizableMap(h) {
      forall k: Key ensures LinearizableKey(OfKey(h, k)) { KeysAreLinearizable(h, k); }
    }
    if EveryKey(h) { MapIsLinearizable(h); }
  }

  // ---------------------------------------------------------------------------
  // Operations whose outcome is not known
  // ---------------------------------------------------------------------------

  /** A recorded event; one that never returned has no return time. */
  datatype Event = Event(kind: Kind, key: Key, value: string, out: Output, invoked: int, returned: Returned)

  datatype Returned = Never | At(time: int)

  /** An event as an operation, in a history that ends before `end`. */
  function OpOf(e: Event, end: int): Op {
    Op(e.kind, e.key, e.value, e.out, e.invoked, if e.returned.At? then e.returned.time else end)
  }

  predicate OpsOf(events: seq<Event>, end: int, ops: seq<Op>) {
    |ops| == |events| && forall i :: 0 <= i < |ops| ==> ops[i] == OpOf(events[i], end)
  }

  predicate EndsBefore(events: seq<Event>, end: int) {
    forall i :: 0 <= i < |events| ==>
      events[i].invoked < end && (events[i].returned.At? ==> events[i].returned.time < end)
  }

  /** Gives every operation that never returned a return time past the end of the history. */
  method ToOperations(events: seq<Event>) returns (ops: seq<Op>, end: int)
    ensures OpsOf(events, end, ops) && EndsBefore(events, end)
  {
    end := 0;
    for i := 0 to |events|
      invariant forall j :: 0 <= j < i ==>
                events[j].invoked <= end && (events[j].returned.At? ==> events[j].returned.time <= end)
    {
      if events[i].returned.At? && events[i].returned.time > end { end := events[i].returned.time; }
      if events[i].invoked > end { end := events[i].invoked; }
    }
    end := end + 1;
    ops := [];
    for i := 0 to |events|
      invariant |ops| == i && forall j :: 0 <= j < i ==> ops[j] == OpOf(events[j], end)
    {
      var e := events[i];
      ops := ops + [Op(e.kind, e.key, e.value, e.out, e.invoked, if e.returned.At? then e.returned.time else end)];
    }
  }

  function MapAfterAll(m: Map, o: seq<Op>): Map
    decreases |o|
  {
    if o == [] then m else MapAfterAll(MapAfter(m, o[0]), o[1..])
  }

  lemma {:induction false} LegalAppend(m: Map, a: seq<Op>, b: seq<Op>)
    ensures LegalMap(m, a + b) <==> LegalMap(m, a) && LegalMap(MapAfterAll(m, a), b)
    decreases |a|
  {
    if a == [] {
      assert a + b == b;
    } else {
      assert (a + b)[1..] == a[1..] + b;
      LegalAppend(MapAfter(m, a[0]), a[1..], b);
    }
  }

  /** A write whose answer was lost, and which may still take effect after everything else, never makes a
      linearizable history illegal. */
  lemma UnknownWriteIsFree(h: seq<Op>, u: Op)
    requires LinearizableMap(h) && (u.kind == Put || (u.kind == Delete && u.out.unknown))
    requires forall i :: 0 <= i < |h| ==> h[i].call <= u.ret
    ensures LinearizableMap(h + [u])
  {
    var o: seq<Op> :| Orders(o, h) && LegalMap(map[], o);
    LegalAppend(map[], o, [u]);
    CalledInTime(h, u, o);
    assert Orders(o + [u], h + [u]);
  }

  /** A put or a delete that nobody ever heard back from. */
  predicate LostWrite(e: Event) { e.returned.Never? && (e.kind == Put || (e.kind == Delete && e.out.unknown)) }

  /** The operations of the events that are, or are not, lost writes. */
  function Sifted(events: seq<Event>, end: int, lost: bool): seq<Op> {
    if events == [] then []
    else
      var e := events[|events| - 1];
      Sifted(events[..|events| - 1], end, lost) + if LostWrite(e) == lost then [OpOf(e, end)] else []
  }

  lemma {:induction false} SiftedCount(events: seq<Event>, end: int, ops: seq<Op>)
    requires OpsOf(events, end, ops)
    ensures multiset(ops) == multiset(Sifted(events, end, false) + Sifted(events, end, true))
    decreases |events|
  {
    if events != [] {
      var n := |events| - 1;
      SiftedCount(events[..n], end, ops[..n]);
      assert ops == ops[..n] + [ops[n]];
    }
  }

  lemma {:induction false} SiftedIn(events: seq<Event>, end: int, lost: bool, i: nat)
    requires EndsBefore(events, end) && i < |Sifted(events, end, lost)|
    ensures var u := Sifted(events, end, lost)[i];
            u.call < end && (lost ==> u.ret == end && (u.kind == Put || (u.kind == Delete && u.out.unknown)))
    decreases |events|
  {
    var before := events[..|events| - 1];
    assert EndsBefore(before, end);
    if i < |Sifted(before, end, lost)| { SiftedIn(before, end, lost, i); }
  }

  lemma {:induction false} ManyFree(h: seq<Op>, us: seq<Op>, end: int)
    requires LinearizableMap(h) && forall i :: 0 <= i < |h| ==> h[i].call <= end
    requires forall i :: 0 <= i < |us| ==>
               us[i].call <= end == us[i].ret && (us[i].kind == Put || (us[i].kind == Delete && us[i].out.unknown))
    ensures LinearizableMap(h + us)
    decreases |us|
  {
    hide LinearizableMap;
    if us == [] {
      assert h + us == h;
    } else {
      UnknownWriteIsFree(h, us[0]);
      ManyFree(h + [us[0]], us[1..], end);
      assert h + us == h + [us[0]] + us[1..];
    }
  }

  lemma Reordered(h: seq<Op>, g: seq<Op>)
    requires LinearizableMap(h) && multiset(h) == multiset(g)
    ensures LinearizableMap(g)
  {
    var o :| Orders(o, h) && LegalMap(map[], o);
    assert Orders(o, g);
  }

  /** However many writes were lost in a recorded history: if what is left of it is linearizable, all of it is. */
  lemma LostWritesAreFree(events: seq<Event>, end: int, ops: seq<Op>)
    requires OpsOf(events, end, ops) && EndsBefore(events, end) && LinearizableMap(Sifted(events, end, false))
    ensures LinearizableMap(ops)
  {
    hide LinearizableMap, Sifted, EndsBefore, OpsOf;
    var h, us := Sifted(events, end, false), Sifted(events, end, true);
    forall i | 0 <= i < |h| ensures h[i].call <= end { SiftedIn(events, end, false, i); }
    forall i | 0 <= i < |us|
      ensures us[i].call <= end == us[i].ret && (us[i].kind == Put || (us[i].kind == Delete && us[i].out.unknown))
    {
      SiftedIn(events, end, true, i);
    }
    ManyFree(h, us, end);
    SiftedCount(events, end, ops);
    Reordered(h + us, ops);
  }

  /** A read whose answer was lost is held to "absent" all the same. It is harmless exactly when some order of
      the rest has a moment, no earlier than what had returned before the read was called, without the key. */
  lemma UnknownReadIsNot(h: seq<Op>, u: Op)
    requires u.kind == Get && !u.out.found && forall i :: 0 <= i < |h| ==> h[i].call <= u.ret
    ensures LinearizableMap(h + [u]) <==> exists o: seq<Op>, p: nat :: FitsAt(h, u, o, p)
  {
    hide RespectsTime, LegalMap, MapAfterAll;
    if LinearizableMap(h + [u]) {
      var o: seq<Op> :| Orders(o, h + [u]) && LegalMap(map[], o);
      assert u in multiset(h + [u]);
      var p :| 0 <= p < |o| && o[p] == u;
      Removed(h, u, o, p);
      assert FitsAt(h, u, o[..p] + o[p + 1..], p);
    }
    if o: seq<Op>, p: nat :| FitsAt(h, u, o, p) {
      Inserted(h, u, o, p);
      assert Orders(o[..p] + [u] + o[p..], h + [u]);
    }
  }

  ghost predicate FitsAt(h: seq<Op>, u: Op, o: seq<Op>, p: nat) {
    && p <= |o| && Orders(o, h) && LegalMap(map[], o)
    && u.key !in MapAfterAll(map[], o[..p])
    && forall j :: p <= j < |o| ==> u.call <= o[j].ret
  }

  lemma TimeWithout(a: seq<Op>, u: Op, b: seq<Op>)
    ensures RespectsTime(a + [u] + b) <==>
              && RespectsTime(a + b)
              && (forall i :: 0 <= i < |a| ==> a[i].call <= u.ret)
              && (forall j :: 0 <= j < |b| ==> u.call <= b[j].ret)
  {
    var all, rest := a + [u] + b, a + b;
    forall i | 0 <= i < |rest| ensures rest[i] == all[if i < |a| then i else i + 1] {}
    if RespectsTime(all) {
      forall i | 0 <= i < |a| ensures a[i].call <= u.ret { assert all[i] == a[i] && all[|a|] == u; }
      forall j | 0 <= j < |b| ensures u.call <= b[j].ret { assert all[|a| + 1 + j] == b[j] && all[|a|] == u; }
      forall i, j | 0 <= i < j < |rest| ensures rest[i].call <= rest[j].ret {
        assert all[if i < |a| then i else i + 1].call <= all[if j < |a| then j else j + 1].ret;
      }
    }
    if RespectsTime(rest) && (forall i :: 0 <= i < |a| ==> a[i].call <= u.ret)
      && (forall j :: 0 <= j < |b| ==> u.call <= b[j].ret) {
      forall i, j | 0 <= i < j < |all| ensures all[i].call <= all[j].ret {
        if i == |a| {
          assert all[j] == b[j - |a| - 1];
        } else if j == |a| {
          assert all[i] == a[i];
        } else {
          assert rest[if i < |a| then i else i - 1].call <= rest[if j < |a| then j else j - 1].ret;
        }
      }
    }
  }

  lemma LegalWithout(a: seq<Op>, u: Op, b: seq<Op>)
    requires u.kind == Get && !u.out.found
    ensures LegalMap(map[], a + [u] + b) <==> LegalMap(map[], a + b) && u.key !in MapAfterAll(map[], a)
  {
    assert a + [u] + b == a + ([u] + b);
    LegalAppend(map[], a, [u] + b);
    assert ([u] + b)[1..] == b;
    LegalAppend(map[], a, b);
  }

  lemma Removed(h: seq<Op>, u: Op, o: seq<Op>, p: nat)
    requires u.kind == Get && !u.out.found && Orders(o, h + [u]) && LegalMap(map[], o) && p < |o| && o[p] == u
    ensures FitsAt(h, u, o[..p] + o[p + 1..], p)
  {
    hide RespectsTime, LegalMap, MapAfterAll;
    var a, b := o[..p], o[p + 1..];
    assert o == a + [u] + b;
    TimeWithout(a, u, b);
    LegalWithout(a, u, b);
    assert (a + b)[..p] == a && (a + b)[p..] == b;
    assert multiset(o) == multiset(a + b) + multiset{u};
    assert multiset(h + [u]) == multiset(h) + multiset{u};
    Cancel(multiset(a + b), multiset(h), u);
  }

  lemma Cancel(x: multiset<Op>, y: multiset<Op>, u: Op)
    requires x + multiset{u} == y + multiset{u}
    ensures x == y
  {
    assert x == (x + multiset{u}) - multiset{u};
    assert y == (y + multiset{u}) - multiset{u};
  }

  lemma Inserted(h: seq<Op>, u: Op, o: seq<Op>, p: nat)
    requires u.kind == Get && !u.out.found && FitsAt(h, u, o, p) && forall i :: 0 <= i < |h| ==> h[i].call <= u.ret
    ensures Orders(o[..p] + [u] + o[p..], h + [u]) && LegalMap(map[], o[..p] + [u] + o[p..])
  {
    hide RespectsTime, LegalMap, MapAfterAll;
    var a, b := o[..p], o[p..];
    assert o == a + b;
    TimeWithout(a, u, b);
    LegalWithout(a, u, b);
    CalledInTime(h, u, o);
    assert multiset(a + [u] + b) == multiset(o) + multiset{u};
    assert multiset(h + [u]) == multiset(h) + multiset{u};
  }

  lemma CalledInTime(h: seq<Op>, u: Op, o: seq<Op>)
    requires multiset(o) == multiset(h) && forall i :: 0 <= i < |h| ==> h[i].call <= u.ret
    ensures forall i :: 0 <= i < |o| ==> o[i].call <= u.ret
  {
    forall i | 0 <= i < |o| ensures o[i].call <= u.ret {
      assert o[i] in multiset(h);
      var j :| 0 <= j < |h| && h[j] == o[i];
    }
  }

  /** A read that timed out after a write had succeeded makes an innocent history fail. */
  lemma UnknownReadExample()
    ensures var put := Op(Put, "k", "v", Output("", false, false), 0, 1);
            var get := Op(Get, "k", "", Output("", false, true), 2, 3);
            LinearizableMap([put]) && !LinearizableMap([put, get])
  {
    var put := Op(Put, "k", "v", Output("", false, false), 0, 1);
    var get := Op(Get, "k", "", Output("", false, true), 2, 3);
    assert LegalMap(map[], [put]) && Orders([put], [put]);
    assert [put] + [get] == [put, get];
    UnknownReadIsNot([put], get);
    assert [put][..1] == [put] && [put][1..] == [];
    assert MapAfterAll(map[], [put]) == MapAfterAll(map["k" := "v"], []) == map["k" := "v"];
    if o: seq<Op>, p: nat :| FitsAt([put], get, o, p) {
      OnlyOne(o, put);
      assert false;
    }
  }

  lemma OnlyOne(o: seq<Op>, x: Op)
    requires multiset(o) == multiset([x])
    ensures o == [x]
  {
    assert |o| == |multiset(o)| == |multiset([x])| == 1;
    assert o[0] in multiset([x]);
  }

  // ---------------------------------------------------------------------------
  // What it takes to be legal
  // ---------------------------------------------------------------------------

  /** Among the first `p` operations, is the one at `j` the last to put or delete the key? */
  predicate LastWrite(o: seq<Op>, p: nat, k: Key, j: nat)
    requires p <= |o|
  {
    j < p && o[j].key == k && o[j].kind != Get && forall i :: j < i < p && o[i].key == k ==> o[i].kind == Get
  }

  predicate LastPut(o: seq<Op>, p: nat, k: Key, j: nat)
    requires p <= |o|
  {
    LastWrite(o, p, k, j) && o[j].kind == Put
  }

  /** Was a read answered with the last value put, and was a delete told whether there was one? */
  ghost predicate ToldRight(o: seq<Op>, p: nat)
    requires p < |o|
  {
    var op := o[p];
    match op.kind
    case Get =>
      && (op.out.found <==> exists j: nat :: LastPut(o, p, op.key, j))
      && forall j: nat :: LastPut(o, p, op.key, j) ==> op.out.value == o[j].value
    case Put => true
    case Delete => op.out.unknown || (op.out.found <==> exists j: nat :: LastPut(o, p, op.key, j))
  }

  lemma {:induction false} MapAfterLast(m: Map, a: seq<Op>, x: Op)
    ensures MapAfterAll(m, a + [x]) == MapAfter(MapAfterAll(m, a), x)
    decreases |a|
  {
    if a == [] {
      assert a + [x] == [x] && [x][1..] == [];
    } else {
      assert (a + [x])[1..] == a[1..] + [x];
      MapAfterLast(MapAfter(m, a[0]), a[1..], x);
    }
  }

  lemma LastPutThen(a: seq<Op>, x: Op, p: nat, k: Key, j: nat)
    requires p <= |a|
    ensures LastPut(a + [x], p, k, j) <==> LastPut(a, p, k, j)
  {
    assert forall i :: 0 <= i < |a| ==> (a + [x])[i] == a[i];
  }

  /** The map holds, under every key, what was last put there, unless it was deleted since. */
  lemma {:induction false} LastPutIsHeld(o: seq<Op>, k: Key)
    ensures k in MapAfterAll(map[], o) <==> exists j: nat :: LastPut(o, |o|, k, j)
    ensures forall j: nat :: LastPut(o, |o|, k, j) ==>
              k in MapAfterAll(map[], o) && MapAfterAll(map[], o)[k] == o[j].value
    decreases |o|
  {
    if o != [] {
      var n := |o| - 1;
      var a, x := o[..n], o[n];
      assert o == a + [x];
      MapAfterLast(map[], a, x);
      LastPutIsHeld(a, k);
      if x.key == k && x.kind != Get {
        assert LastWrite(o, |o|, k, n);
        assert forall j: nat :: LastWrite(o, |o|, k, j) ==> j == n;
        assert x.kind == Put ==> LastPut(o, |o|, k, n);
      } else {
        forall j: nat ensures LastPut(o, |o|, k, j) <==> LastPut(a, |a|, k, j) {
          LastPutThen(a, x, n, k, j);
          assert LastPut(o, |o|, k, j) <==> LastPut(o, n, k, j);
        }
      }
    }
  }

  /** A run against an empty map is legal exactly when every read is answered with the last value put under its key,
      and every delete whose answer is known is told whether there was one. */
  lemma {:induction false} LegalMeans(o: seq<Op>)
    ensures LegalMap(map[], o) <==> forall p :: 0 <= p < |o| ==> ToldRight(o, p)
    decreases |o|
  {
    if o != [] {
      var n := |o| - 1;
      var a, x := o[..n], o[n];
      assert o == a + [x];
      LegalMeans(a);
      LegalAppend(map[], a, [x]);
      LastPutIsHeld(a, x.key);
      forall p | 0 <= p < n ensures ToldRight(o, p) <==> ToldRight(a, p) {
        forall j: nat ensures LastPut(o, p, o[p].key, j) <==> LastPut(a, p, o[p].key, j) {
          LastPutThen(a, x, p, o[p].key, j);
        }
        assert o[p] == a[p];
      }
      forall j: nat ensures LastPut(o, n, x.key, j) <==> LastPut(a, n, x.key, j) { LastPutThen(a, x, n, x.key, j); }
      LastIsLegal(o, MapAfterAll(map[], a));
      assert LegalMap(MapAfterAll(map[], a), [x]) <==> ToldRight(o, n);
    }
  }

  lemma LastIsLegal(o: seq<Op>, m: Map)
    requires o != []
    requires var k, n := o[|o| - 1].key, |o| - 1;
             && (k in m <==> exists j: nat :: LastPut(o, n, k, j))
             && (forall j: nat :: LastPut(o, n, k, j) ==> k in m && m[k] == o[j].value)
    ensures LegalMap(m, [o[|o| - 1]]) <==> ToldRight(o, |o| - 1)
  {
    hide LastPut;
    var x := o[|o| - 1];
    assert [x][1..] == [];
    assert LegalMap(m, [x]) <==> Fits(CellOf(m, x.key), x);
  }
}
