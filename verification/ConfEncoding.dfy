/** Configuration changes as bytes (raft/confchange.go). */
module ConfEncoding {
  import opened Configurations
  import opened Encoding
  import opened Commands

  /** A change as it travels: which half of a transition, and the configuration it leads to. */
  datatype Change = Change(kind: nat, config: Configuration)

  predicate Fits(ids: seq<NodeID>) { |ids| < LIMIT && forall i :: 0 <= i < |ids| ==> ids[i] < LIMIT }

  predicate Typed(c: Change) {
    c.kind < 256 && Fits(c.config.voters) && Fits(c.config.oldVoters) && Fits(c.config.learners)
  }

  // ---------------------------------------------------------------------------
  // Lists of ids
  // ---------------------------------------------------------------------------

  function Ids(ids: seq<NodeID>): Bytes { if ids == [] then [] else Uvarint(ids[0]) + Ids(ids[1..]) }

  function Listed(ids: seq<NodeID>): Bytes { Uvarint(|ids|) + Ids(ids) }

  method AppendIDs(dst: Bytes, ids: seq<NodeID>) returns (r: Bytes)
    ensures r == dst + Listed(ids)
  {
    r := AppendUvarint(dst, |ids|);
    for i := 0 to |ids|
      invariant r + Ids(ids[i..]) == dst + Listed(ids)
    {
      assert ids[i..][0] == ids[i] && ids[i..][1..] == ids[i + 1..];
      ghost var was := r;
      r := AppendUvarint(r, ids[i]);
      assert was + (Uvarint(ids[i]) + Ids(ids[i + 1..])) == (was + Uvarint(ids[i])) + Ids(ids[i + 1..]);
    }
    assert r + [] == r;
  }

  function ReadIds(b: Bytes, count: nat): (r: Read<seq<NodeID>>)
    ensures r.Got? ==> r.size <= |b|
    decreases count
  {
    if count == 0 then Got([], 0)
    else
      match ReadUvarint(b)
      case Bad => Bad
      case Got(id, n) =>
        (match ReadIds(b[n..], count - 1)
         case Bad => Bad
         case Got(rest, k) => Got([id] + rest, n + k))
  }

  function ReadListed(b: Bytes): (r: Read<seq<NodeID>>)
    ensures r.Got? ==> r.size <= |b|
  {
    match ReadUvarint(b)
    case Bad => Bad
    case Got(count, n) =>
      (match ReadIds(b[n..], count)
       case Bad => Bad
       case Got(ids, k) => Got(ids, n + k))
  }

  lemma {:induction false} IdsRoundTrip(ids: seq<NodeID>, rest: Bytes)
    requires forall i :: 0 <= i < |ids| ==> ids[i] < LIMIT
    ensures ReadIds(Ids(ids) + rest, |ids|) == Got(ids, |Ids(ids)|)
    decreases |ids|
  {
    if ids != [] {
      hide Uvarint, ReadFrom;
      var u, more := Uvarint(ids[0]), Ids(ids[1..]) + rest;
      assert Ids(ids) + rest == u + more;
      UvarintRoundTrip(ids[0], more);
      Skip(u, more);
      IdsRoundTrip(ids[1..], rest);
      assert [ids[0]] + ids[1..] == ids;
    }
  }

  lemma ListedRoundTrip(ids: seq<NodeID>, rest: Bytes)
    requires Fits(ids)
    ensures ReadListed(Listed(ids) + rest) == Got(ids, |Listed(ids)|)
  {
    hide Uvarint, ReadFrom, ReadIds, Ids;
    var u := Uvarint(|ids|);
    assert Listed(ids) + rest == u + (Ids(ids) + rest);
    UvarintRoundTrip(|ids|, Ids(ids) + rest);
    Skip(u, Ids(ids) + rest);
    IdsRoundTrip(ids, rest);
  }

  lemma {:induction false} IdsCut(ids: seq<NodeID>, k: nat)
    requires k < |Ids(ids)| && forall i :: 0 <= i < |ids| ==> ids[i] < LIMIT
    ensures ReadIds(Ids(ids)[..k], |ids|) == Bad
    decreases |ids|
  {
    hide Uvarint, ReadFrom;
    var u, more := Uvarint(ids[0]), Ids(ids[1..]);
    if k < |u| {
      assert Ids(ids)[..k] == u[..k];
      UvarintCut(ids[0], k, 0);
    } else {
      assert Ids(ids)[..k] == u + more[..k - |u|];
      UvarintRoundTrip(ids[0], more[..k - |u|]);
      Skip(u, more[..k - |u|]);
      IdsCut(ids[1..], k - |u|);
    }
  }

  lemma ListedCut(ids: seq<NodeID>, k: nat)
    requires Fits(ids) && k < |Listed(ids)|
    ensures ReadListed(Listed(ids)[..k]) == Bad
  {
    hide Uvarint, ReadFrom, ReadIds, Ids;
    var u := Uvarint(|ids|);
    if k < |u| {
      assert Listed(ids)[..k] == u[..k];
      UvarintCut(|ids|, k, 0);
    } else {
      assert Listed(ids)[..k] == u + Ids(ids)[..k - |u|];
      UvarintRoundTrip(|ids|, Ids(ids)[..k - |u|]);
      Skip(u, Ids(ids)[..k - |u|]);
      IdsCut(ids, k - |u|);
    }
  }

  // ---------------------------------------------------------------------------
  // Changes
  // ---------------------------------------------------------------------------

  function Encode(c: Change): Bytes
    requires Typed(c)
  {
    [c.kind] + (Listed(c.config.voters) + (Listed(c.config.oldVoters) + Listed(c.config.learners)))
  }

  /** Reads a change; what follows the last list is not looked at. The configuration is put in normal form. */
  function Decode(b: Bytes): Decoding<Change> {
    if b == [] then Failed
    else
      match ReadListed(b[1..])
      case Bad => Failed
      case Got(voters, i) => DecodeRest(b[0], voters, b[1..][i..])
  }

  function DecodeRest(kind: nat, voters: seq<NodeID>, b: Bytes): Decoding<Change> {
    match ReadListed(b)
    case Bad => Failed
    case Got(oldVoters, j) =>
      (match ReadListed(b[j..])
       case Bad => Failed
       case Got(learners, _) => Ok(Change(kind, Normalize(Configuration(voters, oldVoters, learners)))))
  }

  /** Decoding an encoded change gives it back in normal form, and exactly itself if it was in normal form. */
  lemma ChangeRoundTrip(c: Change, rest: Bytes)
    requires Typed(c)
    ensures Decode(Encode(c) + rest) == Ok(c.(config := Normalize(c.config)))
    ensures Normal(c.config) ==> Decode(Encode(c) + rest) == Ok(c)
  {
    hide Listed, ReadListed, Normalize;
    var v, o, l := Listed(c.config.voters), Listed(c.config.oldVoters), Listed(c.config.learners);
    assert (Encode(c) + rest)[1..] == v + (o + l + rest);
    ListedRoundTrip(c.config.voters, o + l + rest);
    Skip(v, o + l + rest);
    assert o + l + rest == o + (l + rest);
    ListedRoundTrip(c.config.oldVoters, l + rest);
    Skip(o, l + rest);
    ListedRoundTrip(c.config.learners, rest);
    if Normal(c.config) { NormalizeIdentity(c.config); }
  }

  lemma RestCut(kind: nat, voters: seq<NodeID>, c: Configuration, k: nat)
    requires Fits(c.oldVoters) && Fits(c.learners) && k < |Listed(c.oldVoters) + Listed(c.learners)|
    ensures DecodeRest(kind, voters, (Listed(c.oldVoters) + Listed(c.learners))[..k]) == Failed
  {
    hide Listed, ReadListed;
    var o, l := Listed(c.oldVoters), Listed(c.learners);
    if k < |o| {
      assert (o + l)[..k] == o[..k];
      ListedCut(c.oldVoters, k);
    } else {
      assert (o + l)[..k] == o + l[..k - |o|];
      ListedRoundTrip(c.oldVoters, l[..k - |o|]);
      Skip(o, l[..k - |o|]);
      ListedCut(c.learners, k - |o|);
    }
  }

  /** No strict prefix of an encoded change decodes. */
  lemma ChangeCut(c: Change, k: nat)
    requires Typed(c) && k < |Encode(c)|
    ensures Decode(Encode(c)[..k]) == Failed
  {
    hide Listed, ReadListed, DecodeRest;
    if k > 0 {
      var v, rest := Listed(c.config.voters), Listed(c.config.oldVoters) + Listed(c.config.learners);
      assert Encode(c)[..k][1..] == (v + rest)[..k - 1];
      if k - 1 < |v| {
        assert (v + rest)[..k - 1] == v[..k - 1];
        ListedCut(c.config.voters, k - 1);
      } else {
        assert (v + rest)[..k - 1] == v + rest[..k - 1 - |v|];
        ListedRoundTrip(c.config.voters, rest[..k - 1 - |v|]);
        Skip(v, rest[..k - 1 - |v|]);
        RestCut(c.kind, c.config.voters, c.config, k - 1 - |v|);
      }
    }
  }
}
