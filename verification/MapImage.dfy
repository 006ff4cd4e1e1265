/** The image of the key/value map in a snapshot: its entries in key order (kvstore/encoding.go). */
module MapImage {
  import opened Encoding
  import opened Commands

  type Data = map<Bytes, Bytes>

  // ---------------------------------------------------------------------------
  // Key order
  // ---------------------------------------------------------------------------

  /** Byte strings in dictionary order. */
  predicate Less(a: Bytes, b: Bytes)
    decreases |a|
  {
    b != [] && (a == [] || a[0] < b[0] || (a[0] == b[0] && Less(a[1..], b[1..])))
  }

  lemma {:induction false} LessTransitive(a: Bytes, b: Bytes, c: Bytes)
    requires Less(a, b) && Less(b, c)
    ensures Less(a, c)
    decreases |a|
  {
    if a != [] && a[0] == b[0] == c[0] { LessTransitive(a[1..], b[1..], c[1..]); }
  }

  lemma {:induction false} LessTotal(a: Bytes, b: Bytes)
    ensures Less(a, b) || a == b || Less(b, a)
    ensures !(Less(a, b) && Less(b, a)) && !Less(a, a)
    decreases |a|
  {
    if a != [] {
      LessTotal(a[1..], a[1..]);
      if b != [] {
        LessTotal(a[1..], b[1..]);
        if a[0] == b[0] && a[1..] == b[1..] { assert a == [a[0]] + a[1..] && b == [b[0]] + b[1..]; }
      }
    }
  }

  predicate Ascending(s: seq<Bytes>) {
    forall i, j :: 0 <= i < j < |s| ==> Less(s[i], s[j])
  }

  /** Puts a key in its place. */
  method Place(k: Bytes, s: seq<Bytes>) returns (r: seq<Bytes>)
    requires Ascending(s) && k !in s
    ensures Ascending(r) && forall x :: x in r <==> x == k || x in s
  {
    var i := 0;
    while i < |s| && Less(s[i], k)
      invariant 0 <= i <= |s| && forall j :: 0 <= j < i ==> Less(s[j], k)
    {
      i := i + 1;
    }
    r := s[..i] + [k] + s[i..];
    forall j | i <= j < |s| ensures Less(k, s[j]) {
      LessTotal(s[i], k);
      if i < j { LessTransitive(k, s[i], s[j]); }
    }
    assert forall x :: x in s <==> x in s[..i] || x in s[i..];
  }

  /** Sorts the keys of a map, taking them in whatever order they come. */
  method SortKeys(keys: set<Bytes>) returns (s: seq<Bytes>)
    ensures Ascending(s) && forall x :: x in s <==> x in keys
  {
    s := [];
    var left := keys;
    while left != {}
      invariant left <= keys && Ascending(s) && forall x :: x in s <==> x in keys - left
    {
      var k :| k in left;
      s := Place(k, s);
      left := left - {k};
    }
  }

  /** There is only one way to put keys in order. */
  lemma {:induction false} OneOrder(s: seq<Bytes>, t: seq<Bytes>)
    requires Ascending(s) && Ascending(t) && forall x :: x in s <==> x in t
    ensures s == t
    decreases |s|
  {
    if s == [] {
      if t != [] { HasFirst(t); }
    } else {
      HasFirst(s);
      FirstIsLeast(s, t);
      FirstIsLeast(t, s);
      LessTotal(s[0], t[0]);
      forall x ensures x in s[1..] <==> x in t[1..] {
        RestIs(s, x);
        RestIs(t, x);
      }
      OneOrder(s[1..], t[1..]);
      assert s == [s[0]] + s[1..] && t == [t[0]] + t[1..];
    }
  }

  lemma HasFirst(s: seq<Bytes>)
    requires s != []
    ensures s[0] in s
  {}

  lemma FirstIsLeast(s: seq<Bytes>, t: seq<Bytes>)
    requires Ascending(s) && s != [] && t != [] && t[0] in s
    ensures s[0] == t[0] || Less(s[0], t[0])
  {}

  lemma RestIs(s: seq<Bytes>, x: Bytes)
    requires Ascending(s) && s != []
    ensures x in s[1..] <==> x in s && x != s[0]
  {
    LessTotal(s[0], s[0]);
    if x in s[1..] {
      var i :| 0 <= i < |s[1..]| && s[1..][i] == x;
      assert s[i + 1] == x;
      assert Less(s[0], x);
    }
  }

  // ---------------------------------------------------------------------------
  // Images
  // ---------------------------------------------------------------------------

  predicate SmallEnough(m: Data) {
    |m| < LIMIT && forall k :: k in m ==> |k| < LIMIT && |m[k]| < LIMIT
  }

  function Entries(m: Data, keys: seq<Bytes>): Bytes
    requires forall k :: k in keys ==> k in m
  {
    if keys == [] then [] else Prefixed(keys[0]) + (Prefixed(m[keys[0]]) + Entries(m, keys[1..]))
  }

  /** `b` is the image of `m`. */
  ghost predicate IsImage(m: Data, b: Bytes) {
    exists keys :: Ascending(keys) && (forall k :: k in keys <==> k in m) && b == Uvarint(|keys|) + Entries(m, keys)
  }

  /** Writes the entries in key order. */
  method EncodeMap(m: Data) returns (b: Bytes)
    ensures IsImage(m, b)
  {
    var keys := SortKeys(m.Keys);
    b := Uvarint(|keys|);
    for i := 0 to |keys|
      invariant b + Entries(m, keys[i..]) == Uvarint(|keys|) + Entries(m, keys)
    {
      assert keys[i..][0] == keys[i] && keys[i..][1..] == keys[i + 1..];
      ghost var rest := Entries(m, keys[i + 1..]);
      assert b + (Prefixed(keys[i]) + (Prefixed(m[keys[i]]) + rest)) ==
             (b + Prefixed(keys[i]) + Prefixed(m[keys[i]])) + rest;
      b := b + Prefixed(keys[i]) + Prefixed(m[keys[i]]);
    }
    assert b + [] == b;
  }

  /** Reads `count` entries on top of those already in `m`. */
  function ReadEntries(b: Bytes, count: nat, m: Data): Decoding<Data>
    decreases count
  {
    if count == 0 then Ok(m)
    else
      match ReadPrefixed(b)
      case Bad => Failed
      case Got(k, i) =>
        (match ReadPrefixed(b[i..])
         case Bad => Failed
         case Got(v, j) => ReadEntries(b[i..][j..], count - 1, m[k := v]))
  }

  function DecodeMap(b: Bytes): Decoding<Data> {
    match ReadUvarint(b)
    case Bad => Failed
    case Got(count, n) => ReadEntries(b[n..], count, map[])
  }

  function Restricted(m: Data, keys: seq<Bytes>): Data { map k | k in m && k in keys :: m[k] }

  lemma {:induction false} EntriesRoundTrip(m: Data, keys: seq<Bytes>, acc: Data)
    requires SmallEnough(m) && forall k :: k in keys ==> k in m
    ensures ReadEntries(Entries(m, keys), |keys|, acc) == Ok(acc + Restricted(m, keys))
    decreases |keys|
  {
    hide Prefixed, ReadPrefixed, Restricted;
    if keys == [] {
      NothingMore(m, acc);
    } else {
      var k, rest := keys[0], Entries(m, keys[1..]);
      var p, q := Prefixed(k), Prefixed(m[k]);
      PrefixedRoundTrip(k, q + rest);
      Skip(p, q + rest);
      PrefixedRoundTrip(m[k], rest);
      Skip(q, rest);
      EntriesRoundTrip(m, keys[1..], acc[k := m[k]]);
      OneMore(m, keys, acc);
    }
  }

  lemma NothingMore(m: Data, acc: Data)
    ensures acc + Restricted(m, []) == acc
  {}

  lemma OneMore(m: Data, keys: seq<Bytes>, acc: Data)
    requires keys != [] && keys[0] in m
    ensures acc + Restricted(m, keys) == acc[keys[0] := m[keys[0]]] + Restricted(m, keys[1..])
  {
    var a, b := acc + Restricted(m, keys), acc[keys[0] := m[keys[0]]] + Restricted(m, keys[1..]);
    assert keys == [keys[0]] + keys[1..];
    forall k ensures (k in a <==> k in b) && (k in a ==> a[k] == b[k]) {
      assert k in keys <==> k == keys[0] || k in keys[1..];
    }
  }

  lemma {:induction false} DistinctCount(keys: seq<Bytes>, s: set<Bytes>)
    requires Ascending(keys) && forall x :: x in keys <==> x in s
    ensures |keys| == |s|
    decreases |keys|
  {
    if keys == [] {
      assert s == {};
    } else {
      forall x ensures x in keys[1..] <==> x in s - {keys[0]} { RestIs(keys, x); }
      DistinctCount(keys[1..], s - {keys[0]});
    }
  }

  lemma AllOfIt(m: Data, keys: seq<Bytes>)
    requires forall k :: k in keys <==> k in m
    ensures map[] + Restricted(m, keys) == m
  {}

  /** Decoding an image gives the map back. */
  lemma MapRoundTrip(m: Data, b: Bytes)
    requires SmallEnough(m) && IsImage(m, b)
    ensures DecodeMap(b) == Ok(m)
  {
    hide Ascending, Uvarint, ReadFrom, Entries, ReadEntries, Restricted;
    var keys: seq<Bytes> :|
      Ascending(keys) && (forall k :: k in keys <==> k in m) && b == Uvarint(|keys|) + Entries(m, keys);
    DistinctCount(keys, m.Keys);
    UvarintRoundTrip(|keys|, Entries(m, keys));
    Skip(Uvarint(|keys|), Entries(m, keys));
    EntriesRoundTrip(m, keys, map[]);
    AllOfIt(m, keys);
  }

  /** Two replicas hold the same map exactly when their images are the same bytes. */
  lemma ImagesEqualIffMapsAre(m: Data, n: Data, b: Bytes, c: Bytes)
    requires SmallEnough(m) && SmallEnough(n) && IsImage(m, b) && IsImage(n, c)
    ensures b == c <==> m == n
  {
    MapRoundTrip(m, b);
    MapRoundTrip(n, c);
    if m == n {
      var x: seq<Bytes> :| Ascending(x) && (forall k :: k in x <==> k in m) && b == Uvarint(|x|) + Entries(m, x);
      var y: seq<Bytes> :| Ascending(y) && (forall k :: k in y <==> k in n) && c == Uvarint(|y|) + Entries(n, y);
      OneOrder(x, y);
    }
  }
}
