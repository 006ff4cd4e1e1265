/** The replicated key/value store and its sessions (kvstore/kvstore.go, kvstore/session.go). */
module KVStore {
  import opened Encoding
  import opened Commands
  import opened MapImage

  const OP_DELETE := 1

  datatype Result = Result(existed: bool, duplicate: bool)

  /** What is remembered about a client: its last request that took effect, where in the log that was, and
      what was answered. */
  datatype Session = Session(lastSeq: nat, lastIndex: nat, result: Result)

  type Sessions = map<nat, Session>

  datatype State = State(data: Data, sessions: Sessions, applied: nat)

  const EMPTY := State(map[], map[], 0)

  datatype Outcome = Answered(result: Result) | Rejected

  // ---------------------------------------------------------------------------
  // What applying a command does
  // ---------------------------------------------------------------------------

  /** Has this request, or a later one of the same client, taken effect already? */
  predicate Stale(sessions: Sessions, c: Command) {
    c.client != 0 && c.client in sessions && c.sequence <= sessions[c.client].lastSeq
  }

  function Effect(data: Data, c: Command): Data { if c.op == OP_SET then data[c.key := c.value] else data - {c.key} }

  function Answer(data: Data, c: Command): Result { Result(c.op != OP_SET && c.key in data, false) }

  /** Is `x` the least recently effective client? */
  predicate Oldest(s: Sessions, x: nat) {
    x in s && forall y :: y in s ==> s[x].lastIndex < s[y].lastIndex || (s[x].lastIndex == s[y].lastIndex && x <= y)
  }

  lemma {:induction false} HasOldest(s: Sessions, x: nat)
    requires x in s
    ensures exists y :: Oldest(s, y)
    decreases s[x].lastIndex, x
  {
    if y :| y in s && (s[y].lastIndex < s[x].lastIndex || (s[y].lastIndex == s[x].lastIndex && y < x)) {
      HasOldest(s, y);
    } else {
      assert Oldest(s, x);
    }
  }

  ghost function OldestOf(s: Sessions): (x: nat)
    requires s != map[]
    ensures Oldest(s, x)
  {
    var z :| z in s;
    HasOldest(s, z);
    var x :| Oldest(s, x);
    x
  }

  /** Drops the oldest sessions until at most `max` are left. */
  ghost function Evict(s: Sessions, max: nat): Sessions
    decreases |s|
  {
    if |s| <= max then s
    else
      assert s != map[] && |s - {OldestOf(s)}| < |s| by { Smaller(s, OldestOf(s)); }
      Evict(s - {OldestOf(s)}, max)
  }

  lemma Smaller(s: Sessions, x: nat)
    requires x in s
    ensures |s - {x}| == |s| - 1
  {
    assert (s - {x}).Keys == s.Keys - {x};
  }

  ghost function Recorded(s: Sessions, max: nat, c: Command, index: nat, r: Result): Sessions {
    if c.client == 0 then s else Evict(s[c.client := Session(c.sequence, index, r)], max)
  }

  ghost function Applied(st: State, max: nat, index: nat, c: Command): State {
    if Stale(st.sessions, c) then st.(applied := index)
    else if c.op != OP_SET && c.op != OP_DELETE then st
    else State(Effect(st.data, c), Recorded(st.sessions, max, c, index, Answer(st.data, c)), index)
  }

  function Replied(st: State, c: Command): Outcome {
    if Stale(st.sessions, c) then Answered(st.sessions[c.client].result.(duplicate := true))
    else if c.op != OP_SET && c.op != OP_DELETE then Rejected
    else Answered(Answer(st.data, c))
  }

  // ---------------------------------------------------------------------------
  // The store
  // ---------------------------------------------------------------------------

  class Store {
    var data: Data
    var sessions: Sessions
    const maxSessions: nat
    var applied: nat

    ghost function Holds(): State
      reads this
    {
      State(data, sessions, applied)
    }

    constructor (n: int)
      ensures Holds() == EMPTY && maxSessions == if n < 1 then 1 else n
    {
      data, sessions, applied := map[], map[], 0;
      maxSessions := if n < 1 then 1 else n;
    }

    method CheckSession(c: Command) returns (r: Result, duplicate: bool)
      ensures duplicate == Stale(sessions, c)
      ensures duplicate ==> r == sessions[c.client].result.(duplicate := true)
    {
      if c.client == 0 || c.client !in sessions || c.sequence > sessions[c.client].lastSeq {
        return Result(false, false), false;
      }
      return sessions[c.client].result.(duplicate := true), true;
    }

    method FindOldest() returns (x: nat)
      requires sessions != map[]
      ensures Oldest(sessions, x)
    {
      var left := sessions.Keys;
      x :| x in left;
      ghost var seen: set<nat> := {x};
      left := left - {x};
      while left != {}
        invariant left + seen == sessions.Keys && x in seen
        invariant forall y :: y in seen ==>
                  sessions[x].lastIndex < sessions[y].lastIndex
                    || (sessions[x].lastIndex == sessions[y].lastIndex && x <= y)
      {
        var y :| y in left;
        if sessions[y].lastIndex < sessions[x].lastIndex || (sessions[y].lastIndex == sessions[x].lastIndex && y < x) {
          x := y;
        }
        left, seen := left - {y}, seen + {y};
      }
    }

    method EvictSessions()
      modifies this`sessions
      ensures sessions == Evict(old(sessions), maxSessions)
    {
      while |sessions| > maxSessions
        invariant Evict(sessions, maxSessions) == Evict(old(sessions), maxSessions)
        decreases |sessions|
      {
        var x := FindOldest();
        OneOldest(sessions, x, OldestOf(sessions));
        Smaller(sessions, x);
        sessions := sessions - {x};
      }
    }

    method RecordSession(c: Command, index: nat, r: Result)
      modifies this`sessions
      ensures sessions == Recorded(old(sessions), maxSessions, c, index, r)
    {
      if c.client == 0 {
        return;
      }
      sessions := sessions[c.client := Session(c.sequence, index, r)];
      EvictSessions();
    }

    /** Folds one committed entry into the map. */
    method Apply(index: nat, bytes: Bytes) returns (o: Outcome)
      modifies this
      ensures match DecodeCommand(bytes)
              case Ok(c) => Holds() == Applied(old(Holds()), maxSessions, index, c) && o == Replied(old(Holds()), c)
              case Failed => Holds() == old(Holds()) && o == Rejected
    {
      var d := DecodeCommand(bytes);
      if d.Failed? {
        return Rejected;
      }
      var c := d.value;
      var r, duplicate := CheckSession(c);
      if duplicate {
        applied := index;
        return Answered(r);
      }
      r := Result(false, false);
      if c.op == OP_SET {
        data := data[c.key := c.value];
      } else if c.op == OP_DELETE {
        r := Result(c.key in data, false);
        data := data - {c.key};
      } else {
        return Rejected;
      }
      RecordSession(c, index, r);
      applied := index;
      o := Answered(r);
    }

    method Snapshot() returns (image: Bytes)
      ensures IsImage(data, image)
    {
      image := EncodeMap(data);
    }

    /** Replaces the map by that of a snapshot, and leaves the sessions as they are. */
    method Restore(image: Bytes, index: nat) returns (ok: bool)
      modifies this
      ensures ok == DecodeMap(image).Ok?
      ensures Holds() == if ok then old(Holds()).(data := DecodeMap(image).value, applied := index) else old(Holds())
    {
      var d := DecodeMap(image);
      ok := d.Ok?;
      if ok {
        data, applied := d.value, index;
      }
    }
  }

  lemma OneOldest(s: Sessions, x: nat, y: nat)
    requires Oldest(s, x) && Oldest(s, y)
    ensures x == y
  {}
}
