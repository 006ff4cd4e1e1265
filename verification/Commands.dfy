/** Commands and snapshots of the key/value store as bytes (kvstore/encoding.go). */
module Commands {
  import opened Encoding

  const OP_SET := 0

  const MAX_KEY_LEN := 0x10_0000

  const MAX_VALUE_LEN := 0x100_0000

  datatype Command = Command(op: nat, key: Bytes, value: Bytes, client: nat, sequence: nat)

  datatype Decoding<+T> = Ok(value: T) | Failed

  /** The types of the fields: an operation is a byte, ids and sequence numbers have 64 bits. */
  predicate Typed(c: Command) { c.op < 256 && c.client < LIMIT && c.sequence < LIMIT }

  function Body(c: Command): Bytes
    requires Typed(c)
  {
    var value := if c.op == OP_SET then Prefixed(c.value) else [];
    [c.op] + (Uvarint(c.client) + (Uvarint(c.sequence) + (Prefixed(c.key) + value)))
  }

  /** Renders a command, or refuses one that is out of bounds. */
  function EncodeCommand(c: Command): Decoding<Bytes>
    requires Typed(c)
  {
    if c.key == [] || |c.key| > MAX_KEY_LEN || |c.value| > MAX_VALUE_LEN then Failed else Ok(Body(c))
  }

  function DecodeCommand(b: Bytes): Decoding<Command> {
    if b == [] then Failed else ReadClient(b[0], b[1..])
  }

  function ReadClient(op: nat, b: Bytes): Decoding<Command> {
    match ReadUvarint(b)
    case Got(client, n) => ReadSequence(op, client, b[n..])
    case Bad => Failed
  }

  function ReadSequence(op: nat, client: nat, b: Bytes): Decoding<Command> {
    match ReadUvarint(b)
    case Got(sequence, n) => ReadKey(op, client, sequence, b[n..])
    case Bad => Failed
  }

  function ReadKey(op: nat, client: nat, sequence: nat, b: Bytes): Decoding<Command> {
    match ReadPrefixed(b)
    case Got(key, n) =>
      if op != OP_SET then Ok(Command(op, key, [], client, sequence))
      else
        (match ReadPrefixed(b[n..])
         case Got(value, _) => Ok(Command(op, key, value, client, sequence))
         case Bad => Failed)
    case Bad => Failed
  }

  /** What a command means: only a set has a value. */
  function Meaning(c: Command): Command { if c.op == OP_SET then c else c.(value := []) }

  // ---------------------------------------------------------------------------
  // Commands invert
  // ---------------------------------------------------------------------------

  lemma Skip(a: Bytes, b: Bytes)
    ensures (a + b)[|a|..] == b
  {}

  lemma KeyRoundTrip(c: Command, rest: Bytes)
    requires |c.key| < LIMIT && |c.value| < LIMIT
    ensures var fields := Prefixed(c.key) + if c.op == OP_SET then Prefixed(c.value) else [];
            ReadKey(c.op, c.client, c.sequence, fields + rest) == Ok(Meaning(c))
  {
    hide ReadPrefixed, Prefixed;
    var k := Prefixed(c.key);
    if c.op == OP_SET {
      var v := Prefixed(c.value);
      assert k + v + rest == k + (v + rest);
      PrefixedRoundTrip(c.key, v + rest);
      Skip(k, v + rest);
      PrefixedRoundTrip(c.value, rest);
    } else {
      assert k + [] + rest == k + rest;
      PrefixedRoundTrip(c.key, rest);
    }
  }

  /** Decoding an encoded command gives it back, whatever follows. */
  lemma CommandRoundTrip(c: Command, rest: Bytes)
    requires Typed(c) && EncodeCommand(c).Ok?
    ensures DecodeCommand(EncodeCommand(c).value + rest) == Ok(Meaning(c))
  {
    hide ReadKey, ReadUvarint, Uvarint, Prefixed;
    var fields := Prefixed(c.key) + if c.op == OP_SET then Prefixed(c.value) else [];
    var s := Uvarint(c.sequence) + fields;
    var all := Body(c) + rest;
    assert all[1..] == Uvarint(c.client) + (s + rest);
    UvarintRoundTrip(c.client, s + rest);
    Skip(Uvarint(c.client), s + rest);
    assert s + rest == Uvarint(c.sequence) + (fields + rest);
    UvarintRoundTrip(c.sequence, fields + rest);
    Skip(Uvarint(c.sequence), fields + rest);
    KeyRoundTrip(c, rest);
  }

  /** A command is rendered exactly when it has a key of at most 1 MiB and a value of at most 16 MiB; and then it
      arrives. */
  lemma BoundedCommandsArrive(c: Command, rest: Bytes)
    requires Typed(c)
    ensures EncodeCommand(c).Ok? <==> 1 <= |c.key| <= 1024 * 1024 && |c.value| <= 16 * 1024 * 1024
    ensures EncodeCommand(c).Ok? ==> DecodeCommand(EncodeCommand(c).value + rest) == Ok(Meaning(c))
  {
    hide DecodeCommand, Body, Meaning;
    if EncodeCommand(c).Ok? { CommandRoundTrip(c, rest); }
  }

  // ---------------------------------------------------------------------------
  // Commands are self-delimiting
  // ---------------------------------------------------------------------------

  lemma KeyCut(c: Command, k: nat)
    requires |c.key| < LIMIT && |c.value| < LIMIT
    requires k < |Prefixed(c.key) + if c.op == OP_SET then Prefixed(c.value) else []|
    ensures var fields := Prefixed(c.key) + if c.op == OP_SET then Prefixed(c.value) else [];
            ReadKey(c.op, c.client, c.sequence, fields[..k]) == Failed
  {
    hide ReadPrefixed, Prefixed;
    var p := Prefixed(c.key);
    var fields := p + if c.op == OP_SET then Prefixed(c.value) else [];
    if k < |p| {
      assert fields[..k] == p[..k];
      PrefixedCut(c.key, k);
    } else {
      var cut := Prefixed(c.value)[..k - |p|];
      assert fields[..k] == p + cut;
      PrefixedRoundTrip(c.key, cut);
      Skip(p, cut);
      PrefixedCut(c.value, k - |p|);
    }
  }

  lemma SequenceCut(c: Command, k: nat)
    requires Typed(c) && |c.key| < LIMIT && |c.value| < LIMIT
    requires k < |Uvarint(c.sequence) + (Prefixed(c.key) + if c.op == OP_SET then Prefixed(c.value) else [])|
    ensures var fields := Uvarint(c.sequence) + (Prefixed(c.key) + if c.op == OP_SET then Prefixed(c.value) else []);
            ReadSequence(c.op, c.client, fields[..k]) == Failed
  {
    hide ReadKey, Uvarint, Prefixed, ReadFrom;
    var u := Uvarint(c.sequence);
    var rest := Prefixed(c.key) + if c.op == OP_SET then Prefixed(c.value) else [];
    if k < |u| {
      assert (u + rest)[..k] == u[..k];
      UvarintCut(c.sequence, k, 0);
    } else {
      assert (u + rest)[..k] == u + rest[..k - |u|];
      UvarintRoundTrip(c.sequence, rest[..k - |u|]);
      Skip(u, rest[..k - |u|]);
      KeyCut(c, k - |u|);
    }
  }

  /** No strict prefix of an encoded command decodes. */
  lemma CommandCut(c: Command, k: nat)
    requires Typed(c) && EncodeCommand(c).Ok? && k < |EncodeCommand(c).value|
    ensures DecodeCommand(EncodeCommand(c).value[..k]) == Failed
  {
    hide ReadSequence, Uvarint, Prefixed, ReadFrom;
    if k > 0 {
      var u := Uvarint(c.client);
      var rest := Uvarint(c.sequence) + (Prefixed(c.key) + if c.op == OP_SET then Prefixed(c.value) else []);
      assert Body(c) == [c.op] + (u + rest);
      assert Body(c)[..k][1..] == (u + rest)[..k - 1];
      if k - 1 < |u| {
        assert (u + rest)[..k - 1] == u[..k - 1];
        UvarintCut(c.client, k - 1, 0);
      } else {
        assert (u + rest)[..k - 1] == u + rest[..k - 1 - |u|];
        UvarintRoundTrip(c.client, rest[..k - 1 - |u|]);
        Skip(u, rest[..k - 1 - |u|]);
        SequenceCut(c, k - 1 - |u|);
      }
    }
  }

  /** So two commands have the same encoding only if they mean the same, and neither's is a prefix of the other's. */
  lemma CommandsDistinct(c: Command, d: Command)
    requires Typed(c) && Typed(d) && EncodeCommand(c).Ok? && EncodeCommand(d).Ok?
             && EncodeCommand(c).value <= EncodeCommand(d).value
    ensures Meaning(c) == Meaning(d) && EncodeCommand(c) == EncodeCommand(d)
  {
    hide EncodeCommand, DecodeCommand;
    var x, y := EncodeCommand(c).value, EncodeCommand(d).value;
    CommandRoundTrip(c, []);
    assert x + [] == x && x == y[..|x|];
    if |x| < |y| { CommandCut(d, |x|); }
    CommandRoundTrip(d, []);
    assert y + [] == y;
  }
}
