/** What sessions guarantee over whole logs: every request takes effect once, and every replica remembers the
same clients (kvstore/session.go). */
module Sessions {
  import opened Encoding
  import opened Commands
  import opened MapImage
  import opened KVStore
  import opened Sets

  datatype Item = Item(index: nat, cmd: Command)

  type Log = seq<Item>

  ghost function Run(max: nat, log: Log): State {
    if log == [] then EMPTY
    else Applied(Run(max, log[..|log| - 1]), max, log[|log| - 1].index, log[|log| - 1].cmd)
  }

  lemma RunSnoc(max: nat, log: Log, e: Item)
    ensures Run(max, log + [e]) == Applied(Run(max, log), max, e.index, e.cmd)
  {
    assert (log + [e])[..|log|] == log;
  }

  /** What was answered to the entry at position `i`. */
  ghost function ReplyAt(max: nat, log: Log, i: nat): Outcome
    requires i < |log|
  {
    Replied(Run(max, log[..i]), log[i].cmd)
  }

  predicate Known(log: Log) { forall i :: 0 <= i < |log| ==> log[i].cmd.op == OP_SET || log[i].cmd.op == OP_DELETE }

  // ---------------------------------------------------------------------------
  // Eviction
  // ---------------------------------------------------------------------------

  predicate Rising(log: Log) { forall i, j :: 0 <= i < j < |log| ==> log[i].index < log[j].index }

  /** Where each client last had a request take effect, whether or not it is still remembered. */
  ghost function LastEffective(max: nat, log: Log): map<nat, nat> {
    if log == [] then map[]
    else
      var before, e := log[..|log| - 1], log[|log| - 1];
      if e.cmd.client == 0 || Stale(Run(max, before).sessions, e.cmd) || (e.cmd.op != OP_SET && e.cmd.op != OP_DELETE)
      then LastEffective(max, before)
      else LastEffective(max, before)[e.cmd.client := e.index]
  }

  /** Exactly the `max` clients that had a request take effect most recently are remembered. */
  ghost predicate TopClients(max: nat, s: KVStore.Sessions, last: map<nat, nat>) {
    && (forall c :: c in s ==> c in last && last[c] == s[c].lastIndex)
    && (forall c, d :: c in last && c !in s && d in s ==> last[c] < last[d])
    && (forall c, d :: c in last && d in last && c != d ==> last[c] != last[d])
    && |s| == if |last| <= max then |last| else max
  }

  ghost predicate Before(last: map<nat, nat>, index: nat) { forall c :: c in last ==> last[c] < index }

  lemma {:induction false} EvictOne(s: KVStore.Sessions, max: nat)
    requires |s| <= max + 1
    ensures |s| <= max ==> Evict(s, max) == s
    ensures |s| == max + 1 ==> s != map[] && Evict(s, max) == s - {OldestOf(s)}
  {
    if |s| == max + 1 {
      NonEmpty(s);
      Smaller(s, OldestOf(s));
    }
  }

  lemma NonEmpty(s: KVStore.Sessions)
    requires |s| > 0
    ensures s != map[]
  {}

  lemma Size<V>(m: map<nat, V>, k: nat, v: V)
    ensures |m[k := v]| == if k in m then |m| else |m| + 1
  {
    assert m[k := v].Keys == m.Keys + {k};
  }

  /** Recording a client: it is remembered, and of the others the least recent goes if there are too many. */
  lemma RecordKeepsTop(max: nat, s: KVStore.Sessions, last: map<nat, nat>, c: nat, e: Session)
    requires max >= 1 && TopClients(max, s, last) && Before(last, e.lastIndex)
    ensures TopClients(max, Evict(s[c := e], max), last[c := e.lastIndex]) && c in Evict(s[c := e], max)
  {
    hide TopClients, Evict;
    var t, now := s[c := e], last[c := e.lastIndex];
    Updated(max, s, last, c, e);
    EvictOne(t, max);
    if |t| == max + 1 { DropOne(max, t, now, c); }
  }

  /** The clients remembered before eviction: as `TopClients`, but possibly one too many. */
  ghost predicate AlmostTop(max: nat, s: KVStore.Sessions, last: map<nat, nat>) {
    && (forall c :: c in s ==> c in last && last[c] == s[c].lastIndex)
    && (forall c, d :: c in last && c !in s && d in s ==> last[c] < last[d])
    && (forall c, d :: c in last && d in last && c != d ==> last[c] != last[d])
    && |s| <= max + 1 && (|s| <= max ==> |s| == if |last| <= max then |last| else max)
      && (|s| == max + 1 ==> |last| > max)
  }

  lemma Updated(max: nat, s: KVStore.Sessions, last: map<nat, nat>, c: nat, e: Session)
    requires max >= 1 && TopClients(max, s, last) && Before(last, e.lastIndex)
    ensures var t, now := s[c := e], last[c := e.lastIndex];
            && AlmostTop(max, t, now) && |t| <= max + 1 && (|t| <= max ==> TopClients(max, t, now))
            && forall y :: y in t && y != c ==> t[y].lastIndex < t[c].lastIndex
  {
    Size(s, c, e);
    Size(last, c, e.lastIndex);
    if c !in s && c in last { Room(s, last, c); }
  }

  lemma DropOne(max: nat, t: KVStore.Sessions, now: map<nat, nat>, c: nat)
    requires max >= 1 && AlmostTop(max, t, now) && |t| == max + 1 && t != map[] && c in t
    requires forall y :: y in t && y != c ==> t[y].lastIndex < t[c].lastIndex
    ensures TopClients(max, t - {OldestOf(t)}, now) && c in t - {OldestOf(t)}
  {
    var x := OldestOf(t);
    Smaller(t, x);
    NotTheNewest(t, now, c, x);
  }

  lemma Room(s: KVStore.Sessions, last: map<nat, nat>, c: nat)
    requires c in last && c !in s && forall x :: x in s ==> x in last
    ensures |s| < |last|
  {
    assert s.Keys <= last.Keys - {c};
    SubsetSize(s.Keys, last.Keys - {c});
  }

  lemma NotTheNewest(t: KVStore.Sessions, now: map<nat, nat>, c: nat, x: nat)
    requires c in t && Oldest(t, x) && |t| >= 2
    requires forall y :: y in t && y != c ==> t[y].lastIndex < t[c].lastIndex
    ensures x != c
  {
    var y := Another(t, c);
  }

  lemma Another(t: KVStore.Sessions, c: nat) returns (y: nat)
    requires c in t && |t| >= 2
    ensures y in t && y != c
  {
    var rest := t.Keys - {c};
    assert |rest| == |t.Keys| - 1;
    y :| y in rest;
  }

  /** Over rising indexes, the table is always exactly the most recently effective clients. */
  lemma {:induction false} AlwaysTopClients(max: nat, log: Log)
    requires max >= 1 && Rising(log)
    ensures TopClients(max, Run(max, log).sessions, LastEffective(max, log))
    ensures forall c :: c in LastEffective(max, log) ==> log != [] && LastEffective(max, log)[c] <= log[|log| - 1].index
    decreases |log|
  {
    hide Evict, TopClients, Stale, Effect, Answer;
    if log != [] {
      var before, e := log[..|log| - 1], log[|log| - 1];
      AlwaysTopClients(max, before);
      var st, last := Run(max, before), LastEffective(max, before);
      assert before != [] ==> before[|before| - 1].index < e.index;
      if e.cmd.client != 0 {
        RecordKeepsTop(max, st.sessions, last, e.cmd.client, Session(e.cmd.sequence, e.index, Answer(st.data, e.cmd)));
      }
    } else {
      EmptyTop(max);
    }
  }

  lemma EmptyTop(max: nat)
    ensures TopClients(max, map[], map[])
  {}

  /** The client whose request just took effect is never the one forgotten. */
  lemma JustRecordedStays(max: nat, log: Log)
    requires max >= 1 && Rising(log) && log != []
    requires var e := log[|log| - 1].cmd;
             e.client != 0 && (e.op == OP_SET || e.op == OP_DELETE) && !Stale(Run(max, log[..|log| - 1]).sessions, e)
    ensures log[|log| - 1].cmd.client in Run(max, log).sessions
  {
    hide Evict, TopClients;
    var before, e := log[..|log| - 1], log[|log| - 1];
    AlwaysTopClients(max, before);
    var st, last := Run(max, before), LastEffective(max, before);
    assert before != [] ==> before[|before| - 1].index < e.index;
    RecordKeepsTop(max, st.sessions, last, e.cmd.client, Session(e.cmd.sequence, e.index, Answer(st.data, e.cmd)));
  }

  // ---------------------------------------------------------------------------
  // Exactly once
  // ---------------------------------------------------------------------------

  /** Is the entry at position `i` the first of its client's with so high a sequence number? */
  predicate Fresh(log: Log, i: nat)
    requires i < |log|
  {
    log[i].cmd.client == 0 || forall j ::
      0 <= j < i && log[j].cmd.client == log[i].cmd.client ==> log[j].cmd.sequence < log[i].cmd.sequence
  }

  /** The log without retries. */
  function FreshOnly(log: Log): Log {
    if log == [] then []
    else FreshOnly(log[..|log| - 1]) + if Fresh(log, |log| - 1) then [log[|log| - 1]] else []
  }

  /** A map that executes commands one after the other and knows nothing of sessions. */
  function Plain(log: Log): Data {
    if log == [] then map[] else Effect(Plain(log[..|log| - 1]), log[|log| - 1].cmd)
  }

  function Clients(log: Log): set<nat> { set i | 0 <= i < |log| && log[i].cmd.client != 0 :: log[i].cmd.client }

  /** Few enough clients that nobody is forgotten. */
  predicate Roomy(max: nat, log: Log) { Known(log) && |Clients(log)| <= max }

  lemma RoomyPrefix(max: nat, log: Log, i: nat)
    requires Roomy(max, log) && i <= |log|
    ensures Roomy(max, log[..i])
  {
    assert Clients(log[..i]) <= Clients(log);
    SubsetSize(Clients(log[..i]), Clients(log));
  }

  /** With room for every client, a session holds its client's highest sequence number so far. */
  ghost predicate Remembers(s: KVStore.Sessions, log: Log) {
    && s.Keys == Clients(log)
    && (forall i :: 0 <= i < |log| && log[i].cmd.client != 0 ==>
      log[i].cmd.client in s && log[i].cmd.sequence <= s[log[i].cmd.client].lastSeq)
    && (forall c :: c in s ==>
      exists i :: 0 <= i < |log| && log[i].cmd.client == c && log[i].cmd.sequence == s[c].lastSeq)
  }

  /** So an entry is treated as a retry exactly when it is one. */
  lemma StaleIsNotFresh(log: Log, s: KVStore.Sessions)
    requires log != [] && Remembers(s, log[..|log| - 1])
    ensures Stale(s, log[|log| - 1].cmd) <==> !Fresh(log, |log| - 1)
  {
    var before, e := log[..|log| - 1], log[|log| - 1].cmd;
    assert forall j :: 0 <= j < |before| ==> before[j] == log[j];
    if Stale(s, e) {
      var i :| 0 <= i < |before| && before[i].cmd.client == e.client && before[i].cmd.sequence == s[e.client].lastSeq;
      assert log[i].cmd.client == e.client;
    }
  }

  lemma NoEviction(max: nat, s: KVStore.Sessions, log: Log, e: Session)
    requires log != [] && Roomy(max, log) && s.Keys == Clients(log[..|log| - 1]) && log[|log| - 1].cmd.client != 0
    ensures var c := log[|log| - 1].cmd.client;
            Evict(s[c := e], max) == s[c := e] && s[c := e].Keys == Clients(log)
  {
    var before, c := log[..|log| - 1], log[|log| - 1].cmd.client;
    assert s[c := e].Keys == Clients(log) by { ClientsGrow(log); }
    assert |s[c := e]| == |s[c := e].Keys|;
  }

  lemma ClientsGrow(log: Log)
    requires log != []
    ensures var c := log[|log| - 1].cmd.client;
            Clients(log) == Clients(log[..|log| - 1]) + if c != 0 then {c} else {}
  {
    var before, c := log[..|log| - 1], log[|log| - 1].cmd.client;
    assert forall j :: 0 <= j < |before| ==> before[j] == log[j];
    forall x | x in Clients(log) ensures x in Clients(before) || (c != 0 && x == c) {
      var i :| 0 <= i < |log| && log[i].cmd.client != 0 && log[i].cmd.client == x;
      assert i < |before| ==> before[i].cmd.client == x;
    }
    forall x | x in Clients(before) ensures x in Clients(log) {
      var i :| 0 <= i < |before| && before[i].cmd.client != 0 && before[i].cmd.client == x;
      assert log[i].cmd.client == x;
    }
  }

  lemma RememberStep(max: nat, s: KVStore.Sessions, log: Log, r: Result)
    requires log != [] && Roomy(max, log) && Remembers(s, log[..|log| - 1])
    ensures var e := log[|log| - 1];
            Remembers(if Stale(s, e.cmd) then s else Recorded(s, max, e.cmd, e.index, r), log)
  {
    hide Remembers, Evict, Roomy;
    var before, e := log[..|log| - 1], log[|log| - 1];
    if e.cmd.client == 0 || Stale(s, e.cmd) {
      RememberSame(s, log);
    } else {
      RememberedKeys(s, before);
      NoEviction(max, s, log, Session(e.cmd.sequence, e.index, r));
      RememberNew(s, log, Session(e.cmd.sequence, e.index, r));
    }
  }

  lemma RememberSame(s: KVStore.Sessions, log: Log)
    requires log != [] && Remembers(s, log[..|log| - 1])
    requires log[|log| - 1].cmd.client == 0 || Stale(s, log[|log| - 1].cmd)
    ensures Remembers(s, log)
  {
    var before := log[..|log| - 1];
    ClientsGrow(log);
    assert forall j :: 0 <= j < |before| ==> before[j] == log[j];
    forall c | c in s
      ensures exists i :: 0 <= i < |log| && log[i].cmd.client == c && log[i].cmd.sequence == s[c].lastSeq
    {
      var i :| 0 <= i < |before| && before[i].cmd.client == c && before[i].cmd.sequence == s[c].lastSeq;
      assert log[i].cmd.client == c;
    }
  }

  lemma RememberNew(s: KVStore.Sessions, log: Log, e: Session)
    requires log != [] && Remembers(s, log[..|log| - 1])
    requires log[|log| - 1].cmd.client != 0 && !Stale(s, log[|log| - 1].cmd) && e.lastSeq == log[|log| - 1].cmd.sequence
    ensures Remembers(s[log[|log| - 1].cmd.client := e], log)
  {
    var before, c := log[..|log| - 1], log[|log| - 1].cmd.client;
    var t := s[c := e];
    ClientsGrow(log);
    assert t.Keys == s.Keys + {c};
    assert forall j :: 0 <= j < |before| ==> before[j] == log[j];
    forall x | x in t
      ensures exists i :: 0 <= i < |log| && log[i].cmd.client == x && log[i].cmd.sequence == t[x].lastSeq
    {
      if x == c {
        assert log[|log| - 1].cmd.sequence == t[x].lastSeq;
      } else {
        var i :| 0 <= i < |before| && before[i].cmd.client == x && before[i].cmd.sequence == s[x].lastSeq;
        assert log[i].cmd.client == x;
      }
    }
  }

  /** With room for every client, a log with retries leaves the map that the log without them would leave in a
      map that knows nothing of sessions. */
  lemma {:induction false} ExactlyOnce(max: nat, log: Log)
    requires Roomy(max, log)
    ensures Run(max, log).data == Plain(FreshOnly(log))
    ensures Remembers(Run(max, log).sessions, log)
    decreases |log|
  {
    hide Remembers, Roomy, Recorded, Fresh, Stale, Effect, Answer, Plain;
    if log != [] {
      var before, e := log[..|log| - 1], log[|log| - 1];
      RoomyPrefix(max, log, |log| - 1);
      ExactlyOnce(max, before);
      var st := Run(max, before);
      StaleIsNotFresh(log, st.sessions);
      RememberStep(max, st.sessions, log, Answer(st.data, e.cmd));
      LastKnown(max, log);
      PlainStep(FreshOnly(before), e);
      assert FreshOnly(before) + [] == FreshOnly(before);
    } else {
      NothingYet();
    }
  }

  lemma NothingYet()
    ensures Remembers(map[], []) && Plain([]) == map[]
  {}

  lemma LastKnown(max: nat, log: Log)
    requires Roomy(max, log) && log != []
    ensures log[|log| - 1].cmd.op == OP_SET || log[|log| - 1].cmd.op == OP_DELETE
  {}

  lemma PlainStep(log: Log, e: Item)
    ensures Plain(log + [e]) == Effect(Plain(log), e.cmd)
  {
    assert (log + [e])[..|log|] == log;
  }

  /** Is the entry at position `i` the last request for this key that was not a retry? */
  predicate LastRequest(log: Log, k: Bytes, i: nat) {
    && i < |log| && log[i].cmd.key == k && Fresh(log, i)
    && forall j :: i < j < |log| && log[j].cmd.key == k ==> !Fresh(log, j)
  }

  lemma LastRequestThen(log: Log, k: Bytes, i: nat)
    requires log != [] && (log[|log| - 1].cmd.key != k || !Fresh(log, |log| - 1))
    ensures LastRequest(log, k, i) <==> LastRequest(log[..|log| - 1], k, i)
  {
    hide Fresh;
    var n := |log| - 1;
    forall j | 0 <= j < n ensures Fresh(log[..n], j) == Fresh(log, j) && log[..n][j] == log[j] { FreshThen(log, j, n); }
  }

  /** With room for every client, the store holds a value under a key exactly if the last request for that key that
      was not a retry set it to that value. */
  lemma {:induction false} LastSetIsHeld(max: nat, log: Log, k: Bytes)
    requires Roomy(max, log)
    ensures k in Run(max, log).data <==> exists i: nat :: LastRequest(log, k, i) && log[i].cmd.op == OP_SET
    ensures forall i: nat :: LastRequest(log, k, i) && log[i].cmd.op == OP_SET ==>
              k in Run(max, log).data && Run(max, log).data[k] == log[i].cmd.value
    decreases |log|
  {
    hide Remembers, Roomy, Recorded, Fresh, Stale, Answer;
    if log != [] {
      var n := |log| - 1;
      var before, e := log[..n], log[n];
      RoomyPrefix(max, log, n);
      LastSetIsHeld(max, before, k);
      ExactlyOnce(max, before);
      StaleIsNotFresh(log, Run(max, before).sessions);
      LastKnown(max, log);
      if e.cmd.key == k && Fresh(log, n) {
        assert LastRequest(log, k, n);
        assert forall i: nat :: LastRequest(log, k, i) ==> i == n;
      } else {
        forall i: nat ensures LastRequest(log, k, i) <==> LastRequest(before, k, i) { LastRequestThen(log, k, i); }
        assert forall i :: 0 <= i < n ==> before[i] == log[i];
      }
    }
  }

  /** And every request is answered the first time as that map would have answered it. */
  lemma FirstAnswers(max: nat, log: Log, i: nat)
    requires Roomy(max, log) && i < |log| && Fresh(log, i)
    ensures ReplyAt(max, log, i) == Answered(Answer(Plain(FreshOnly(log[..i])), log[i].cmd))
  {
    hide Remembers, Roomy, Fresh;
    RoomyPrefix(max, log, i);
    RoomyPrefix(max, log, i + 1);
    ExactlyOnce(max, log[..i]);
    assert log[..i + 1][..i] == log[..i];
    FreshThen(log, i, i + 1);
    StaleIsNotFresh(log[..i + 1], Run(max, log[..i]).sessions);
    LastKnown(max, log[..i + 1]);
  }

  lemma FreshThen(log: Log, i: nat, n: nat)
    requires i < n <= |log|
    ensures Fresh(log[..n], i) == Fresh(log, i)
  {
    assert forall j :: 0 <= j < n ==> log[..n][j] == log[j];
  }

  /** A session holds the answer to its client's last request that was not a retry. */
  lemma {:induction false} SessionHolds(max: nat, log: Log, j: nat)
    requires Roomy(max, log) && j < |log| && log[j].cmd.client != 0 && Fresh(log, j)
    requires forall k ::
             0 <= k < |log| && log[k].cmd.client == log[j].cmd.client ==> log[k].cmd.sequence <= log[j].cmd.sequence
    ensures var c := log[j].cmd.client;
            && c in Run(max, log).sessions && ReplyAt(max, log, j) == Answered(Run(max, log).sessions[c].result)
            && Run(max, log).sessions[c].lastSeq == log[j].cmd.sequence
    decreases |log|
  {
    hide Remembers, Roomy, Evict, Fresh;
    var n := |log| - 1;
    var before, e, c := log[..n], log[n], log[j].cmd.client;
    RoomyPrefix(max, log, n);
    ExactlyOnce(max, before);
    var st := Run(max, before);
    StaleIsNotFresh(log, st.sessions);
    LastKnown(max, log);
    RememberedKeys(st.sessions, before);
    if e.cmd.client != 0 && !Stale(st.sessions, e.cmd) {
      NoEviction(max, st.sessions, log, Session(e.cmd.sequence, e.index, Answer(st.data, e.cmd)));
    }
    if j < n {
      FreshThen(log, j, n);
      assert before[..j] == log[..j] && before[j] == log[j];
      SessionHolds(max, before, j);
      if e.cmd.client == c { LaterIsStale(log, j); }
    }
  }

  lemma RememberedKeys(s: KVStore.Sessions, log: Log)
    requires Remembers(s, log)
    ensures s.Keys == Clients(log)
  {}

  lemma LaterIsStale(log: Log, j: nat)
    requires j < |log| - 1 && log[j].cmd.client == log[|log| - 1].cmd.client != 0
             && log[|log| - 1].cmd.sequence <= log[j].cmd.sequence
    ensures !Fresh(log, |log| - 1)
  {}

  /** Is `j` the request of its client's, before position `i`, with the highest sequence number? */
  predicate Highest(log: Log, i: nat, j: nat)
    requires i <= |log|
  {
    && j < i && Fresh(log, j)
    && forall k :: 0 <= k < i && log[k].cmd.client == log[j].cmd.client ==> log[k].cmd.sequence <= log[j].cmd.sequence
  }

  /** A retry is answered as the highest request of its client so far was, and marked as a repeat. */
  lemma RetryReplays(max: nat, log: Log, i: nat, j: nat)
    requires Roomy(max, log) && i < |log| && Highest(log, i, j) && log[j].cmd.client == log[i].cmd.client != 0
    requires log[i].cmd.sequence <= log[j].cmd.sequence
    ensures ReplyAt(max, log, j).Answered?
            && ReplyAt(max, log, i) == Answered(ReplyAt(max, log, j).result.(duplicate := true))
  {
    hide Roomy;
    var before := log[..i];
    RoomyPrefix(max, log, i);
    FreshThen(log, j, i);
    assert before[j] == log[j] && before[..j] == log[..j];
    assert forall k :: 0 <= k < i ==> before[k] == log[k];
    SessionHolds(max, before, j);
  }

  lemma {:induction false} HighestExists(log: Log, i: nat, c: nat, k: nat) returns (j: nat)
    requires k < i <= |log| && c != 0 && log[k].cmd.client == c
    ensures Highest(log, i, j) && log[j].cmd.client == c && log[k].cmd.sequence <= log[j].cmd.sequence
    decreases i
  {
    if k < i - 1 {
      j := HighestExists(log, i - 1, c, k);
      if log[i - 1].cmd.client == c && log[j].cmd.sequence < log[i - 1].cmd.sequence { j := i - 1; }
    } else if l :| 0 <= l < i - 1 && log[l].cmd.client == c {
      j := HighestExists(log, i - 1, c, l);
      if log[j].cmd.sequence < log[i - 1].cmd.sequence { j := i - 1; }
    } else {
      j := i - 1;
    }
  }

  /** So every entry that is not the first of its kind is answered with some request's answer: the highest of its
      client's before it, whichever request it repeats. */
  lemma EveryRetry(max: nat, log: Log, i: nat) returns (j: nat)
    requires Roomy(max, log) && i < |log| && !Fresh(log, i)
    ensures Highest(log, i, j) && log[j].cmd.client == log[i].cmd.client && log[i].cmd.sequence <= log[j].cmd.sequence
    ensures ReplyAt(max, log, j).Answered?
            && ReplyAt(max, log, i) == Answered(ReplyAt(max, log, j).result.(duplicate := true))
  {
    hide Roomy;
    var k :| 0 <= k < i && log[k].cmd.client == log[i].cmd.client && log[k].cmd.sequence >= log[i].cmd.sequence;
    j := HighestExists(log, i, log[i].cmd.client, k);
    RetryReplays(max, log, i, j);
  }

  /** Does the request at `i` find something to delete, in a map that knows nothing of sessions? */
  predicate Deletes(log: Log, i: nat)
    requires i < |log|
  {
    log[i].cmd.op != OP_SET && log[i].cmd.key in Plain(FreshOnly(log[..i]))
  }

  /** A retry of the request at `k` gets that request's own answer exactly when the highest request of the client
      before it, `j`, was answered alike; that is always so if no higher request came between. */
  lemma OwnAnswerExactly(max: nat, log: Log, i: nat, j: nat, k: nat)
    requires Roomy(max, log) && i < |log| && Highest(log, i, j) && log[j].cmd.client == log[i].cmd.client != 0
    requires k < i && Fresh(log, k) && log[k].cmd.client == log[i].cmd.client
             && log[k].cmd.sequence == log[i].cmd.sequence
    ensures ReplyAt(max, log, k) == Answered(Result(Deletes(log, k), false))
    ensures ReplyAt(max, log, i) == Answered(Result(Deletes(log, k), true)) <==> Deletes(log, j) == Deletes(log, k)
    ensures (forall l ::
            0 <= l < i && log[l].cmd.client == log[i].cmd.client ==> log[l].cmd.sequence <= log[i].cmd.sequence)
            ==> ReplyAt(max, log, i) == Answered(Result(Deletes(log, k), true))
  {
    hide Roomy, Plain, FreshOnly;
    FirstAnswers(max, log, k);
    FirstAnswers(max, log, j);
    RetryReplays(max, log, i, j);
  }

  /** A retry of an older request is answered with the client's latest answer instead of its own. */
  lemma OlderRetryExample()
    ensures var k := [1];
            var set1 := Item(1, Command(OP_SET, k, [7], 0, 0));
            var del := Item(2, Command(OP_DELETE, k, [], 1, 1));
            var set2 := Item(3, Command(OP_SET, k, [8], 1, 2));
            var log := [set1, del, set2, Item(4, del.cmd)];
            && ReplyAt(8, log, 1) == Answered(Result(true, false))
            && ReplyAt(8, log, 3) == Answered(Result(false, true))
  {
    var k := [1];
    var set1 := Item(1, Command(OP_SET, k, [7], 0, 0));
    var del := Item(2, Command(OP_DELETE, k, [], 1, 1));
    var set2 := Item(3, Command(OP_SET, k, [8], 1, 2));
    var log := [set1, del, set2, Item(4, del.cmd)];
    assert log[..1] == [] + [set1] && log[..3] == ([set1] + [del]) + [set2];
    RunSnoc(8, [], set1);
    RunSnoc(8, [set1], del);
    RunSnoc(8, [set1] + [del], set2);
    assert Run(8, [set1]).data == map[k := [7]] && Run(8, [set1]).sessions == map[];
    var s := map[1 := Session(1, 2, Result(true, false))];
    assert s.Keys == {1} && |s| == |s.Keys| && Evict(s, 8) == s;
    assert Run(8, [set1] + [del]).sessions == s && Run(8, [set1] + [del]).data == map[];
    var t := s[1 := Session(2, 3, Result(false, false))];
    assert t.Keys == {1} && |t| == |t.Keys| && Evict(t, 8) == t;
    assert Run(8, log[..3]).sessions == t;
  }

  // ---------------------------------------------------------------------------
  // Restoring
  // ---------------------------------------------------------------------------

  /** Restoring a snapshot brings the map and leaves the sessions a replica had, `earlier`: none after a start, an
      earlier table in a running one. It then answers a command as the replica that took the snapshot does exactly
      when both, or neither, take it for a retry and remember the same answer; and its map stays the same exactly
      when they agree on that or the command changes nothing. */
  lemma RestoreForgets(st: State, earlier: KVStore.Sessions, max: nat, index: nat, c: Command)
    requires c.op == OP_SET || c.op == OP_DELETE
    ensures var restored := st.(sessions := earlier);
            && (Replied(restored, c) == Replied(st, c) <==>
                  && Stale(earlier, c) == Stale(st.sessions, c)
                  && (Stale(earlier, c) ==> earlier[c.client].result.existed == st.sessions[c.client].result.existed))
            && (Applied(restored, max, index, c).data == Applied(st, max, index, c).data <==>
                  Stale(earlier, c) == Stale(st.sessions, c) || Effect(st.data, c) == st.data)
  {
    hide Evict;
  }

  /** The state after more entries. */
  ghost function Onto(max: nat, st: State, more: Log): State {
    if more == [] then st
    else Applied(Onto(max, st, more[..|more| - 1]), max, more[|more| - 1].index, more[|more| - 1].cmd)
  }

  /** What a replica in state `st` answers to the entry at position `t` of what follows. */
  ghost function ReplyOnto(max: nat, st: State, more: Log, t: nat): Outcome
    requires t < |more|
  {
    Replied(Onto(max, st, more[..t]), more[t].cmd)
  }

  /** A replica that applied the log up to `m` and was then given a snapshot of it up to `k`. */
  ghost function Skipped(max: nat, log: Log, m: nat, k: nat): State
    requires m <= k <= |log|
  {
    Run(max, log[..k]).(sessions := Run(max, log[..m]).sessions)
  }

  /** The entries such a replica has seen. */
  function Seen(log: Log, m: nat, k: nat): Log
    requires m <= k <= |log|
  {
    log[..m] + log[k..]
  }

  predicate Repeat(o: Outcome) { o.Answered? && o.result.duplicate }

  lemma SeenRoomy(max: nat, log: Log, m: nat, k: nat, t: nat)
    requires Roomy(max, log) && m <= k && k + t <= |log|
    ensures Roomy(max, Seen(log, m, k)[..m + t])
  {
    var s := Seen(log, m, k);
    assert forall i :: 0 <= i < |s| ==> s[i] == log[if i < m then i else i - m + k];
    assert Clients(s) <= Clients(log);
    SubsetSize(Clients(s), Clients(log));
    RoomyPrefix(max, s, m + t);
  }

  lemma SeenNext(log: Log, m: nat, k: nat, t: nat)
    requires m <= k && k + t < |log|
    ensures var s := Seen(log, m, k);
            && m + t < |s| && s[..m + t + 1][..m + t] == s[..m + t] && s[..m + t + 1][m + t] == log[k + t]
            && log[k..][..t + 1][..t] == log[k..][..t] && log[k..][..t + 1][t] == log[k + t]
            && log[..k + t + 1][..k + t] == log[..k + t]
  {}

  /** Its sessions are those of the entries it has seen. */
  lemma {:induction false} SkippedRemembers(max: nat, log: Log, m: nat, k: nat, t: nat)
    requires Roomy(max, log) && m <= k && k + t <= |log|
    ensures Remembers(Onto(max, Skipped(max, log, m, k), log[k..][..t]).sessions, Seen(log, m, k)[..m + t])
    decreases t
  {
    hide Remembers, Roomy, Recorded, Stale, Effect, Answer, Run;
    if t == 0 {
      RoomyPrefix(max, log, m);
      ExactlyOnce(max, log[..m]);
      assert Seen(log, m, k)[..m] == log[..m];
    } else {
      SkippedRemembers(max, log, m, k, t - 1);
      SeenNext(log, m, k, t - 1);
      SeenRoomy(max, log, m, k, t);
      var st := Onto(max, Skipped(max, log, m, k), log[k..][..t - 1]);
      RememberStep(max, st.sessions, Seen(log, m, k)[..m + t], Answer(st.data, log[k + t - 1].cmd));
      LastKnown(max, Seen(log, m, k)[..m + t]);
    }
  }

  lemma StaleExactly(max: nat, log: Log, m: nat, k: nat, t: nat)
    requires Roomy(max, log) && m <= k && k + t < |log|
    ensures Stale(Onto(max, Skipped(max, log, m, k), log[k..][..t]).sessions, log[k + t].cmd) <==>
            !Fresh(Seen(log, m, k), m + t)
    ensures Stale(Run(max, log[..k + t]).sessions, log[k + t].cmd) <==> !Fresh(log, k + t)
    ensures log[k + t].cmd.op == OP_SET || log[k + t].cmd.op == OP_DELETE
  {
    hide Remembers, Roomy, Stale, Run, Onto, Fresh;
    SeenNext(log, m, k, t);
    SkippedRemembers(max, log, m, k, t);
    StaleIsNotFresh(Seen(log, m, k)[..m + t + 1], Onto(max, Skipped(max, log, m, k), log[k..][..t]).sessions);
    FreshThen(Seen(log, m, k), m + t, m + t + 1);
    RoomyPrefix(max, log, k + t);
    ExactlyOnce(max, log[..k + t]);
    StaleIsNotFresh(log[..k + t + 1], Run(max, log[..k + t]).sessions);
    FreshThen(log, k + t, k + t + 1);
    RoomyPrefix(max, log, k + t + 1);
    LastKnown(max, log[..k + t + 1]);
  }

  lemma SeenLess(log: Log, m: nat, k: nat, t: nat)
    requires m <= k && k + t < |log| && Fresh(log, k + t)
    ensures Fresh(Seen(log, m, k), m + t)
  {
    var s := Seen(log, m, k);
    assert forall i :: 0 <= i < |s| ==> s[i] == log[if i < m then i else i - m + k];
  }

  /** No entry up to `n` is a retry of something in the part of the log the replica was spared. */
  predicate Unspared(log: Log, m: nat, k: nat, n: nat)
    requires m <= k <= n <= |log|
  {
    forall i :: k <= i < n && Fresh(Seen(log, m, k), m + i - k) ==> Fresh(log, i)
  }

  /** A replica that was given a snapshot marks every later answer as its source does exactly when no later entry
      repeats a request only the source has seen. The two disagree at every entry that does. */
  lemma RestoredMarks(max: nat, log: Log, m: nat, k: nat)
    requires Roomy(max, log) && m <= k <= |log|
    ensures Unspared(log, m, k, |log|) <==>
              forall t :: 0 <= t < |log[k..]| ==>
                Repeat(ReplyOnto(max, Skipped(max, log, m, k), log[k..], t)) == Repeat(ReplyAt(max, log, k + t))
  {
    hide Roomy, Run, Onto, Fresh, Repeat;
    var st, rest := Skipped(max, log, m, k), log[k..];
    forall t | 0 <= t < |rest| && (Unspared(log, m, k, |log|) || Fresh(log, k + t))
      ensures Repeat(ReplyOnto(max, st, rest, t)) == Repeat(ReplyAt(max, log, k + t))
    {
      MarkExactly(max, log, m, k, t);
    }
    if forall t :: 0 <= t < |rest| ==> Repeat(ReplyOnto(max, st, rest, t)) == Repeat(ReplyAt(max, log, k + t)) {
      forall i | k <= i < |log| && Fresh(Seen(log, m, k), m + i - k) ensures Fresh(log, i) {
        MarkExactly(max, log, m, k, i - k);
        assert Repeat(ReplyOnto(max, st, rest, i - k)) == Repeat(ReplyAt(max, log, k + (i - k)));
      }
    }
  }

  lemma MarkExactly(max: nat, log: Log, m: nat, k: nat, t: nat)
    requires Roomy(max, log) && m <= k && k + t < |log|
    ensures Repeat(ReplyOnto(max, Skipped(max, log, m, k), log[k..], t)) <==> !Fresh(Seen(log, m, k), m + t)
    ensures Repeat(ReplyAt(max, log, k + t)) <==> !Fresh(log, k + t)
    ensures Fresh(log, k + t) ==> Fresh(Seen(log, m, k), m + t)
  {
    hide Roomy, Run, Onto, Fresh;
    StaleExactly(max, log, m, k, t);
    if Fresh(log, k + t) { SeenLess(log, m, k, t); }
  }

  /** As long as that is so, it holds the same map. */
  lemma {:induction false} RestoredMap(max: nat, log: Log, m: nat, k: nat, t: nat)
    requires Roomy(max, log) && m <= k && k + t <= |log| && Unspared(log, m, k, k + t)
    ensures Onto(max, Skipped(max, log, m, k), log[k..][..t]).data == Run(max, log[..k + t]).data
    decreases t
  {
    hide Roomy, Fresh, Recorded, Stale, Effect, Answer;
    if t > 0 {
      RestoredMap(max, log, m, k, t - 1);
      SeenNext(log, m, k, t - 1);
      StaleExactly(max, log, m, k, t - 1);
      if Fresh(log, k + t - 1) { SeenLess(log, m, k, t - 1); }
    }
  }

  lemma OntoNext(max: nat, st: State, log: Log, k: nat, t: nat)
    requires k + t < |log|
    ensures var e := log[k + t];
            Onto(max, st, log[k..][..t + 1]) == Applied(Onto(max, st, log[k..][..t]), max, e.index, e.cmd)
  {
    hide Applied;
    SeenNext(log, 0, k, t);
  }

  /** Where in the log the entry at a position of what the replica has seen is. */
  function Place(m: nat, k: nat, j: nat): nat
    requires m <= k
  {
    if j < m then j else j - m + k
  }

  lemma SeenAt(log: Log, m: nat, k: nat, j: nat)
    requires m <= k <= |log| && j < |Seen(log, m, k)|
    ensures Place(m, k, j) < |log| && Seen(log, m, k)[j] == log[Place(m, k, j)]
  {}

  /** The answer such a replica remembers: that of the highest request of the client it has seen. */
  lemma {:induction false} RestoredHolds(max: nat, log: Log, m: nat, k: nat, t: nat, j: nat)
    requires Roomy(max, log) && m <= k && k + t <= |log| && Unspared(log, m, k, k + t)
    requires Highest(Seen(log, m, k), m + t, j) && Seen(log, m, k)[j].cmd.client != 0
    ensures var c, st := Seen(log, m, k)[j].cmd.client, Onto(max, Skipped(max, log, m, k), log[k..][..t]);
            && Place(m, k, j) < |log|
            && c in st.sessions && st.sessions[c].result == Result(Deletes(log, Place(m, k, j)), false)
    decreases t
  {
    hide Roomy, Remembers, Evict, Run, Onto, Plain, FreshOnly, Fresh, Effect;
    SeenAt(log, m, k, j);
    var seen := Seen(log, m, k);
    if t == 0 {
      StartHolds(max, log, m, k, j);
    } else {
      SeenNext(log, m, k, t - 1);
      OntoNext(max, Skipped(max, log, m, k), log, k, t - 1);
      var st, e := Onto(max, Skipped(max, log, m, k), log[k..][..t - 1]), log[k + t - 1];
      StaleExactly(max, log, m, k, t - 1);
      if e.cmd.client != 0 { NothingEvicted(max, log, m, k, t - 1); }
      if j == m + t - 1 {
        NewlyHeld(max, log, m, k, t - 1);
      } else {
        if e.cmd.client == seen[j].cmd.client { NotHigher(seen, m + t, j); }
        RestoredHolds(max, log, m, k, t - 1, j);
      }
    }
  }

  lemma StartHolds(max: nat, log: Log, m: nat, k: nat, j: nat)
    requires Roomy(max, log) && m <= k <= |log| && Highest(Seen(log, m, k), m, j) && Seen(log, m, k)[j].cmd.client != 0
    ensures var c, st := Seen(log, m, k)[j].cmd.client, Onto(max, Skipped(max, log, m, k), log[k..][..0]);
            j < |log| && c in st.sessions && st.sessions[c].result == Result(Deletes(log, j), false)
  {
    hide Roomy, Run, Plain, FreshOnly, Evict;
    var short := log[..m];
    assert forall i :: 0 <= i < m ==> Seen(log, m, k)[i] == log[i] == short[i];
    RoomyPrefix(max, log, m);
    assert Fresh(short, j);
    SessionHolds(max, short, j);
    FreshThen(log, j, m);
    FirstAnswers(max, log, j);
    assert short[..j] == log[..j];
  }

  /** A later entry of the client with no higher number was a retry for this replica. */
  lemma NotHigher(log: Log, n: nat, j: nat)
    requires 0 < n <= |log| && Highest(log, n, j) && j < n - 1 && log[n - 1].cmd.client == log[j].cmd.client != 0
    ensures !Fresh(log, n - 1)
  {}

  lemma NothingEvicted(max: nat, log: Log, m: nat, k: nat, t: nat)
    requires Roomy(max, log) && m <= k && k + t < |log| && log[k + t].cmd.client != 0
    ensures var st, e := Onto(max, Skipped(max, log, m, k), log[k..][..t]), log[k + t];
            forall r: Result :: Recorded(st.sessions, max, e.cmd, e.index, r)
                                == st.sessions[e.cmd.client := Session(e.cmd.sequence, e.index, r)]
  {
    hide Roomy, Remembers, Evict, Run, Onto;
    var st, e := Onto(max, Skipped(max, log, m, k), log[k..][..t]), log[k + t];
    SeenNext(log, m, k, t);
    SeenRoomy(max, log, m, k, t + 1);
    SkippedRemembers(max, log, m, k, t);
    RememberedKeys(st.sessions, Seen(log, m, k)[..m + t]);
    forall r: Result ensures Recorded(st.sessions, max, e.cmd, e.index, r)
                             == st.sessions[e.cmd.client := Session(e.cmd.sequence, e.index, r)]
    {
      NoEviction(max, st.sessions, Seen(log, m, k)[..m + t + 1], Session(e.cmd.sequence, e.index, r));
    }
  }

  lemma NewlyHeld(max: nat, log: Log, m: nat, k: nat, t: nat)
    requires Roomy(max, log) && m <= k && k + t < |log| && Unspared(log, m, k, k + t + 1)
    requires Fresh(Seen(log, m, k), m + t) && log[k + t].cmd.client != 0
    ensures var c, st := log[k + t].cmd.client, Onto(max, Skipped(max, log, m, k), log[k..][..t + 1]);
            c in st.sessions && st.sessions[c].result == Result(Deletes(log, k + t), false)
  {
    hide Roomy, Remembers, Evict, Run, Onto, Plain, FreshOnly, Fresh, Effect, Recorded;
    OntoNext(max, Skipped(max, log, m, k), log, k, t);
    StaleExactly(max, log, m, k, t);
    NothingEvicted(max, log, m, k, t);
    RestoredMap(max, log, m, k, t);
    RoomyPrefix(max, log, k + t);
    ExactlyOnce(max, log[..k + t]);
  }

  /** Do the two remember the same answer for the client of the entry at `i`? They may not if the replica's is from
      before the part it was spared. */
  ghost predicate StoredAlike(log: Log, m: nat, k: nat, i: nat)
    requires m <= k <= i < |log|
  {
    forall j: nat, l: nat :: && Highest(log, i, j) && Highest(Seen(log, m, k), m + i - k, l) && l < m
                   && log[j].cmd.client == log[i].cmd.client == log[l].cmd.client
                   ==> Deletes(log, j) == Deletes(log, l)
  }

  /** The highest request of a client since the snapshot is its highest request. */
  lemma SinceIsHighest(log: Log, m: nat, k: nat, i: nat, l: nat)
    requires m <= k <= i <= |log| && Unspared(log, m, k, i) && Highest(Seen(log, m, k), m + i - k, l) && l >= m
    requires Seen(log, m, k)[l].cmd.client != 0
    ensures Place(m, k, l) < i && Highest(log, i, Place(m, k, l))
  {
    var seen, p := Seen(log, m, k), Place(m, k, l);
    SeenAt(log, m, k, l);
    assert m + p - k == l && Fresh(seen, m + p - k) && Fresh(log, p);
    forall x | 0 <= x < i && log[x].cmd.client == log[p].cmd.client ensures log[x].cmd.sequence <= log[p].cmd.sequence {
      if x < m {
        SeenAt(log, m, k, x);
      } else if x >= k {
        SeenAt(log, m, k, x - k + m);
      }
    }
  }

  lemma OneHighest(log: Log, i: nat, j: nat, l: nat)
    requires i <= |log| && Highest(log, i, j) && Highest(log, i, l) && log[j].cmd.client == log[l].cmd.client != 0
    ensures j == l
  {}

  lemma StaleReplies(max: nat, log: Log, m: nat, k: nat, t: nat) returns (j: nat, l: nat)
    requires Roomy(max, log) && m <= k && k + t < |log| && Unspared(log, m, k, k + t)
    requires !Fresh(log, k + t) && !Fresh(Seen(log, m, k), m + t)
    ensures Highest(log, k + t, j) && Highest(Seen(log, m, k), m + t, l) && Place(m, k, l) < |log|
    ensures log[j].cmd.client == log[k + t].cmd.client == Seen(log, m, k)[l].cmd.client != 0
    ensures ReplyAt(max, log, k + t) == Answered(Result(Deletes(log, j), true))
    ensures ReplyOnto(max, Skipped(max, log, m, k), log[k..], t) == Answered(Result(Deletes(log, Place(m, k, l)), true))
  {
    hide Roomy, Run, Onto, Plain, FreshOnly, Remembers;
    var seen := Seen(log, m, k);
    SeenAt(log, m, k, m + t);
    j := EveryRetry(max, log, k + t);
    FirstAnswers(max, log, j);
    var x :| 0 <= x < m + t && seen[x].cmd.client == seen[m + t].cmd.client
      && seen[x].cmd.sequence >= seen[m + t].cmd.sequence;
    l := HighestExists(seen, m + t, seen[m + t].cmd.client, x);
    RestoredHolds(max, log, m, k, t, l);
    StaleExactly(max, log, m, k, t);
  }

  lemma StoredExactly(max: nat, log: Log, m: nat, k: nat, t: nat)
    requires Roomy(max, log) && m <= k && k + t < |log| && Unspared(log, m, k, k + t)
    requires !Fresh(log, k + t) && !Fresh(Seen(log, m, k), m + t)
    ensures ReplyOnto(max, Skipped(max, log, m, k), log[k..], t) == ReplyAt(max, log, k + t) <==>
            StoredAlike(log, m, k, k + t)
  {
    hide Roomy, Run, Onto, Replied, Deletes, Fresh, Unspared;
    var j, l := StaleReplies(max, log, m, k, t);
    SeenAt(log, m, k, l);
    if l >= m {
      SinceIsHighest(log, m, k, k + t, l);
      OneHighest(log, k + t, j, Place(m, k, l));
    }
    forall x: nat, y: nat | && Highest(log, k + t, x) && Highest(Seen(log, m, k), m + t, y) && y < m
                  && log[x].cmd.client == log[k + t].cmd.client == log[y].cmd.client
      ensures x == j && y == l
    {
      OneHighest(log, k + t, j, x);
      SeenAt(log, m, k, y);
      OneHighest(Seen(log, m, k), m + t, l, y);
    }
  }

  lemma FreshReplies(max: nat, log: Log, m: nat, k: nat, t: nat)
    requires Roomy(max, log) && m <= k && k + t < |log| && Unspared(log, m, k, k + t) && Fresh(log, k + t)
    ensures ReplyOnto(max, Skipped(max, log, m, k), log[k..], t) == ReplyAt(max, log, k + t)
  {
    hide Roomy, Run, Onto, Fresh;
    RestoredMap(max, log, m, k, t);
    StaleExactly(max, log, m, k, t);
    SeenLess(log, m, k, t);
  }

  /** A replica that saw a log up to `m` and was then given a snapshot of it up to `k` gives the same answers to
      everything that follows exactly when no later entry repeats a request only its source has seen, and no later retry
      finds the two remembering different answers. A replica just started, with no sessions, has only the first to
      fear. */
  lemma RestoredAnswers(max: nat, log: Log, m: nat, k: nat)
    requires Roomy(max, log) && m <= k <= |log|
    ensures (forall t :: 0 <= t < |log[k..]| ==>
               ReplyOnto(max, Skipped(max, log, m, k), log[k..], t) == ReplyAt(max, log, k + t)) <==>
            && Unspared(log, m, k, |log|)
            && forall i :: k <= i < |log| && !Fresh(log, i) ==> StoredAlike(log, m, k, i)
    ensures m == 0 ==> forall i :: k <= i < |log| ==> StoredAlike(log, m, k, i)
  {
    hide Roomy, Run, Onto, Fresh, Replied, StoredAlike;
    var st, rest := Skipped(max, log, m, k), log[k..];
    RestoredMarks(max, log, m, k);
    if Unspared(log, m, k, |log|) {
      forall t | 0 <= t < |rest|
        ensures ReplyOnto(max, st, rest, t) == ReplyAt(max, log, k + t) <==>
                Fresh(log, k + t) || StoredAlike(log, m, k, k + t)
      {
        if Fresh(log, k + t) {
          FreshReplies(max, log, m, k, t);
        } else {
          NotFreshEither(log, m, k, t);
          StoredExactly(max, log, m, k, t);
        }
      }
      forall i | k <= i < |log| && !Fresh(log, i)
        && forall t :: 0 <= t < |rest| ==> ReplyOnto(max, st, rest, t) == ReplyAt(max, log, k + t)
        ensures StoredAlike(log, m, k, i)
      {
        assert ReplyOnto(max, st, rest, i - k) == ReplyAt(max, log, k + (i - k));
      }
    }
    NothingEarlier(log, k);
  }

  lemma NotFreshEither(log: Log, m: nat, k: nat, t: nat)
    requires m <= k && k + t < |log| && !Fresh(log, k + t) && Unspared(log, m, k, |log|)
    ensures !Fresh(Seen(log, m, k), m + t)
  {
    var i := k + t;
    assert m + i - k == m + t;
  }

  lemma NothingEarlier(log: Log, k: nat)
    requires k <= |log|
    ensures forall i :: k <= i < |log| ==> StoredAlike(log, 0, k, i)
  {}

  /** A client sets a key, someone else overwrites it, a snapshot is taken, and the client's retry arrives: the two
      replicas end up with different maps. */
  lemma RestoreExample()
    ensures var set1, set2 := Item(1, Command(OP_SET, [1], [7], 5, 1)), Item(2, Command(OP_SET, [1], [8], 0, 0));
            var log := [set1, set2, Item(3, set1.cmd)];
            && Run(8, log).data == map[[1] := [8]]
            && Onto(8, Skipped(8, log, 0, 2), log[2..]).data == map[[1] := [7]]
  {
    var set1, set2 := Item(1, Command(OP_SET, [1], [7], 5, 1)), Item(2, Command(OP_SET, [1], [8], 0, 0));
    var again := Item(3, set1.cmd);
    var log := [set1, set2, again];
    assert log == (([] + [set1]) + [set2]) + [again] && log[..2] == [set1] + [set2] && log[2..] == [again]
           && log[..0] == [];
    RunSnoc(8, [], set1);
    RunSnoc(8, [set1], set2);
    RunSnoc(8, [set1] + [set2], again);
    var s := map[5 := Session(1, 1, Result(false, false))];
    assert s.Keys == {5} && |s| == |s.Keys| && Evict(s, 8) == s;
    assert Run(8, [set1]) == State(map[[1] := [7]], s, 1);
    assert Run(8, log[..2]) == State(map[[1] := [8]], s, 2);
    assert [again][..0] == [];
    assert Onto(8, Skipped(8, log, 0, 2), [again]) == Applied(Skipped(8, log, 0, 2), 8, 3, again.cmd);
  }
}
