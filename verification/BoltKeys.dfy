/** Log indexes as keys of the store on disk: big-endian, so that the order of the bytes is the order of the
indexes and a cursor walks the log in order (storage/bolt.go). */
module BoltKeys {
  import opened Encoding
  import opened MapImage

  function Power(n: nat): (p: nat)
    ensures p > 0
  {
    if n == 0 then 1 else 256 * Power(n - 1)
  }

  /** The lowest `width` bytes of an index, the highest first. */
  function BigEndian(i: nat, width: nat): (b: Bytes)
    requires i < Power(width)
    ensures |b| == width
    decreases width
  {
    if width == 0 then [] else [Top(i, width)] + BigEndian(Low(i, width), width - 1)
  }

  function Top(i: nat, width: nat): (b: nat)
    requires width > 0 && i < Power(width)
    ensures b < 256
  {
    TopByte(i, width);
    i / Power(width - 1)
  }

  function Low(i: nat, width: nat): (r: nat)
    requires width > 0
    ensures r < Power(width - 1)
  {
    i % Power(width - 1)
  }

  lemma TopByte(i: nat, width: nat)
    requires width > 0 && i < Power(width)
    ensures i / Power(width - 1) < 256
  {
    var p := Power(width - 1);
    assert i == p * (i / p) + i % p;
    if i / p >= 256 { Scale(p, 256, i / p); }
  }

  lemma Scale(p: nat, a: nat, b: nat)
    requires a <= b
    ensures p * a <= p * b
  {}

  function FromBigEndian(b: Bytes): nat {
    if b == [] then 0 else b[0] * Power(|b| - 1) + FromBigEndian(b[1..])
  }

  /** An index comes back from its key. */
  lemma {:induction false} KeyRoundTrip(i: nat, width: nat)
    requires i < Power(width)
    ensures FromBigEndian(BigEndian(i, width)) == i
    decreases width
  {
    if width > 0 {
      TopByte(i, width);
      var p := Power(width - 1);
      KeyRoundTrip(i % p, width - 1);
      assert BigEndian(i, width)[1..] == BigEndian(i % p, width - 1);
      assert i == p * (i / p) + i % p;
    }
  }

  /** Keys are in the order of the indexes they stand for. */
  lemma {:induction false} KeyOrder(i: nat, j: nat, width: nat)
    requires i < Power(width) && j < Power(width)
    ensures Less(BigEndian(i, width), BigEndian(j, width)) <==> i < j
    decreases width
  {
    if width > 0 {
      TopByte(i, width);
      TopByte(j, width);
      var p := Power(width - 1);
      assert BigEndian(i, width)[1..] == BigEndian(i % p, width - 1);
      assert BigEndian(j, width)[1..] == BigEndian(j % p, width - 1);
      KeyOrder(i % p, j % p, width - 1);
      Digits(i, j, p);
    }
  }

  lemma Digits(i: nat, j: nat, p: nat)
    requires p > 0
    ensures i < j <==> i / p < j / p || (i / p == j / p && i % p < j % p)
  {
    assert i == p * (i / p) + i % p && j == p * (j / p) + j % p;
    if i / p < j / p { Scale(p, i / p + 1, j / p); }
    if j / p < i / p { Scale(p, j / p + 1, i / p); }
  }
}
