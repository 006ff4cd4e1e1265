/** Variable-length integers and length-prefixed strings, as the commands, snapshots and configuration changes
are written (kvstore/encoding.go, and encoding/binary for the integers). */
module Encoding {
  import opened RaftTypes

  type Bytes = seq<Byte>

  /** A value read from the front of a buffer, and how many bytes it took. */
  datatype Read<+T> = Got(value: T, size: nat) | Bad

  const MAX_VARINT_LEN := 10

  const LIMIT: nat := 0x1_0000_0000_0000_0000

  // ---------------------------------------------------------------------------
  // Integers
  // ---------------------------------------------------------------------------

  /** Seven bits at a time, the lowest first; the high bit says that more follow. */
  function Uvarint(x: nat): (r: Bytes)
    ensures r != []
  {
    if x < 128 then [x] else [128 + x % 128] + Uvarint(x / 128)
  }

  /** Reads an integer at the `i`-th byte of its encoding. An eleventh byte, or a tenth that would not fit in
      64 bits, is an overflow. */
  function ReadFrom(b: Bytes, i: nat): (r: Read<nat>)
    ensures r.Got? ==> 1 <= r.size <= |b|
    decreases |b|
  {
    if b == [] || i == MAX_VARINT_LEN then Bad
    else if b[0] < 128 then (if i == MAX_VARINT_LEN - 1 && b[0] > 1 then Bad else Got(b[0], 1))
    else
      match ReadFrom(b[1..], i + 1)
      case Got(v, n) => Got(b[0] - 128 + 128 * v, n + 1)
      case Bad => Bad
  }

  function ReadUvarint(b: Bytes): (r: Read<nat>)
    ensures r.Got? ==> 1 <= r.size <= |b|
  {
    ReadFrom(b, 0)
  }

  /** What still fits when `i` bytes have been written. */
  function Capacity(i: nat): nat
    requires i < MAX_VARINT_LEN
    decreases MAX_VARINT_LEN - i
  {
    if i == MAX_VARINT_LEN - 1 then 2 else 128 * Capacity(i + 1)
  }

  lemma FullCapacity()
    ensures Capacity(0) == LIMIT
  {
    assert Capacity(8) == 0x100 && Capacity(7) == 0x8000 && Capacity(6) == 0x40_0000 && Capacity(5) == 0x2000_0000;
    assert Capacity(4) == 0x10_0000_0000 && Capacity(3) == 0x800_0000_0000 && Capacity(2) == 0x4_0000_0000_0000;
    assert Capacity(1) == 0x200_0000_0000_0000;
  }

  lemma {:induction false} UvarintInverts(x: nat, rest: Bytes, i: nat)
    requires i < MAX_VARINT_LEN && x < Capacity(i)
    ensures ReadFrom(Uvarint(x) + rest, i) == Got(x, |Uvarint(x)|)
    decreases x
  {
    var b := Uvarint(x) + rest;
    if x >= 128 {
      assert b[1..] == Uvarint(x / 128) + rest;
      assert x / 128 < Capacity(i + 1);
      UvarintInverts(x / 128, rest, i + 1);
    }
  }

  /** Reading what was written gives it back, whatever follows. */
  lemma UvarintRoundTrip(x: nat, rest: Bytes)
    requires x < LIMIT
    ensures ReadUvarint(Uvarint(x) + rest) == Got(x, |Uvarint(x)|)
  {
    FullCapacity();
    UvarintInverts(x, rest, 0);
  }

  /** Nothing shorter can be read. */
  lemma {:induction false} UvarintCut(x: nat, k: nat, i: nat)
    requires k < |Uvarint(x)|
    ensures ReadFrom(Uvarint(x)[..k], i) == Bad
    decreases x
  {
    if x >= 128 && k > 0 && i != MAX_VARINT_LEN {
      assert Uvarint(x)[..k][1..] == Uvarint(x / 128)[..k - 1];
      UvarintCut(x / 128, k - 1, i + 1);
    }
  }

  method AppendUvarint(dst: Bytes, x: nat) returns (r: Bytes)
    ensures r == dst + Uvarint(x)
  {
    r := dst;
    var left := x;
    while left >= 128
      invariant r + Uvarint(left) == dst + Uvarint(x)
    {
      r := r + [128 + left % 128];
      left := left / 128;
    }
    r := r + [left];
  }

  // ---------------------------------------------------------------------------
  // Strings
  // ---------------------------------------------------------------------------

  function Prefixed(b: Bytes): Bytes { Uvarint(|b|) + b }

  function ReadPrefixed(b: Bytes): (r: Read<Bytes>)
    ensures r.Got? ==> 1 <= r.size <= |b|
  {
    match ReadUvarint(b)
    case Got(n, k) => if |b| - k < n then Bad else Got(b[k..k + n], k + n)
    case Bad => Bad
  }

  lemma PrefixedRoundTrip(b: Bytes, rest: Bytes)
    requires |b| < LIMIT
    ensures ReadPrefixed(Prefixed(b) + rest) == Got(b, |Prefixed(b)|)
  {
    var all, k := Prefixed(b) + rest, |Uvarint(|b|)|;
    assert all == Uvarint(|b|) + (b + rest);
    UvarintRoundTrip(|b|, b + rest);
    assert all[k..k + |b|] == b;
  }

  lemma PrefixedCut(b: Bytes, k: nat)
    requires |b| < LIMIT && k < |Prefixed(b)|
    ensures ReadPrefixed(Prefixed(b)[..k]) == Bad
  {
    var n := |Uvarint(|b|)|;
    if k < n {
      assert Prefixed(b)[..k] == Uvarint(|b|)[..k];
      UvarintCut(|b|, k, 0);
    } else {
      assert Prefixed(b)[..k] == Uvarint(|b|) + b[..k - n];
      UvarintRoundTrip(|b|, b[..k - n]);
    }
  }
}
