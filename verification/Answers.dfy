/** The store's own answers, as the chaos checker would read them: what the log and the sessions make of the requests
is a legal run of one map (kvstore/kvstore.go, chaos/check.go). */
module StoreAnswers {
  import opened Encoding
  import opened Commands
  import opened MapImage
  import opened KVStore
  import opened Sessions
  import L = Linearizability

  /** Bytes as the characters the checker compares. */
  function Text(b: Bytes): string { seq(|b|, i requires 0 <= i < |b| => b[i] as char) }

  lemma TextIsFaithful(a: Bytes, b: Bytes)
    requires Text(a) == Text(b)
    ensures a == b
  {
    assert |a| == |Text(a)| == |b|;
    forall i | 0 <= i < |a| ensures a[i] == b[i] {
      assert Text(a)[i] == a[i] as char && Text(b)[i] == b[i] as char;
    }
  }

  /** The entry at position `i` as an operation, with the answer it got. */
  ghost function OperationAt(max: nat, log: Log, i: nat): L.Op
    requires i < |log|
  {
    var reply := ReplyAt(max, log, i);
    L.Op(if log[i].cmd.op == OP_SET then L.Put else L.Delete, Text(log[i].cmd.key), Text(log[i].cmd.value),
         L.Output("", reply.Answered? && reply.result.existed, false), i, i)
  }

  /** The requests among the first `n` entries that were not retries. */
  ghost function Operations(max: nat, log: Log, n: nat): seq<L.Op>
    requires n <= |log|
  {
    if n == 0 then []
    else Operations(max, log, n - 1) + if Fresh(log, n - 1) then [OperationAt(max, log, n - 1)] else []
  }

  ghost predicate Mirrors(m: L.Map, d: Data) {
    forall k: Bytes :: (Text(k) in m <==> k in d) && (k in d ==> m[Text(k)] == Text(d[k]))
  }

  lemma MirrorsAfter(m: L.Map, d: Data, c: Command, op: L.Op)
    requires Mirrors(m, d) && op.key == Text(c.key) && op.value == Text(c.value)
    requires c.op == OP_SET || c.op == OP_DELETE
    requires op.kind == if c.op == OP_SET then L.Put else L.Delete
    ensures Mirrors(L.MapAfter(m, op), Effect(d, c))
  {
    hide Text;
    forall k: Bytes | k != c.key ensures Text(k) != Text(c.key) {
      if Text(k) == Text(c.key) { TextIsFaithful(k, c.key); }
    }
  }

  /** What one more entry does to the store, told by the log. */
  lemma NextEntry(max: nat, log: Log, i: nat)
    requires Roomy(max, log) && i < |log|
    ensures var st, c := Run(max, log[..i]), log[i].cmd;
            && (c.op == OP_SET || c.op == OP_DELETE)
            && (Fresh(log, i) <==> !Stale(st.sessions, c))
            && Run(max, log[..i + 1]).data == if Fresh(log, i) then Effect(st.data, c) else st.data
  {
    hide Roomy, Remembers, Recorded, Fresh, Stale, Effect, Answer;
    var now := log[..i + 1];
    RoomyPrefix(max, log, i);
    RoomyPrefix(max, log, i + 1);
    assert now[..i] == log[..i];
    ExactlyOnce(max, log[..i]);
    FreshThen(log, i, i + 1);
    StaleIsNotFresh(now, Run(max, log[..i]).sessions);
    LastKnown(max, now);
  }

  lemma {:induction false} RunIsLegal(max: nat, log: Log, n: nat)
    requires Roomy(max, log) && n <= |log|
    ensures L.LegalMap(map[], Operations(max, log, n))
    ensures Mirrors(L.MapAfterAll(map[], Operations(max, log, n)), Run(max, log[..n]).data)
  {
    hide *;
    if n == 0 {
      NothingApplied(max, log);
    } else {
      RunIsLegal(max, log, n - 1);
      NextEntry(max, log, n - 1);
      OperationsStep(max, log, n);
      if Fresh(log, n - 1) { OperationIsLegal(max, log, n - 1); }
    }
  }

  lemma NothingApplied(max: nat, log: Log)
    ensures Operations(max, log, 0) == [] && L.LegalMap(map[], []) && L.MapAfterAll(map[], []) == map[]
    ensures Run(max, log[..0]).data == map[] && Mirrors(map[], map[])
  {}

  lemma OperationsStep(max: nat, log: Log, n: nat)
    requires 0 < n <= |log|
    ensures Operations(max, log, n)
         == if Fresh(log, n - 1) then Operations(max, log, n - 1) + [OperationAt(max, log, n - 1)]
            else Operations(max, log, n - 1)
  {}

  lemma OperationIsLegal(max: nat, log: Log, i: nat)
    requires i < |log| && !Stale(Run(max, log[..i]).sessions, log[i].cmd)
    requires log[i].cmd.op == OP_SET || log[i].cmd.op == OP_DELETE
    requires L.LegalMap(map[], Operations(max, log, i))
    requires Mirrors(L.MapAfterAll(map[], Operations(max, log, i)), Run(max, log[..i]).data)
    ensures var o := Operations(max, log, i) + [OperationAt(max, log, i)];
            && L.LegalMap(map[], o)
            && Mirrors(L.MapAfterAll(map[], o), Effect(Run(max, log[..i]).data, log[i].cmd))
  {
    hide Stale, Text, Effect, Run, Operations, L.MapAfterAll;
    var o, op, d := Operations(max, log, i), OperationAt(max, log, i), Run(max, log[..i]).data;
    var m := L.MapAfterAll(map[], o);
    L.LegalAppend(map[], o, [op]);
    L.MapAfterLast(map[], o, op);
    assert Text(log[i].cmd.key) in m <==> log[i].cmd.key in d;
    assert [op][1..] == [];
    MirrorsAfter(m, d, log[i].cmd, op);
  }

  /** With room for every client, the requests of a log that were not retries, each with the answer it got, are a legal
      run of one map in log order; and a read is legal after them exactly if it returns what the store holds. */
  lemma StoreIsOneMap(max: nat, log: Log, k: Bytes, read: L.Op)
    requires Roomy(max, log) && read.kind == L.Get && read.key == Text(k)
    ensures L.LegalMap(map[], Operations(max, log, |log|))
    ensures var d := Run(max, log).data;
            L.LegalMap(map[], Operations(max, log, |log|) + [read]) <==>
              (read.out.found <==> k in d) && (k in d ==> read.out.value == Text(d[k]))
  {
    hide Roomy, Text, Run, Operations, L.MapAfterAll;
    var o := Operations(max, log, |log|);
    assert log[..|log|] == log;
    RunIsLegal(max, log, |log|);
    L.LegalAppend(map[], o, [read]);
    assert [read][1..] == [];
    assert Text(k) in L.MapAfterAll(map[], o) <==> k in Run(max, log).data;
  }
}
