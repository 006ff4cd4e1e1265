/** Making a run longer, one exchange at a time. */
module Extending {
  import opened Configurations
  import opened RaftTypes
  import opened RaftNode
  import opened Clusters
  import opened Runs

  /** One more step. */
  function More(r: Run, id: NodeID, e: Event, c: Cluster): Run { Run(r.states + [c], r.who + [id], r.what + [e]) }

  lemma MoreIsRun(boot: Configuration, r: Run, id: NodeID, e: Event, c: Cluster)
    requires IsRun(boot, r) && Next(r.states[|r.who|], id, e, c)
    ensures IsRun(boot, More(r, id, e, c))
  {
    hide Init, Next;
    var s := More(r, id, e, c);
    forall i | 0 <= i < |s.who| ensures StepAt(s, i) {
      if i < |r.who| { assert StepAt(r, i); }
    }
  }

  /** `s` begins with `r`. */
  ghost predicate Continues(r: Run, s: Run) { r.states <= s.states && r.who <= s.who && r.what <= s.what }

  function Last(r: Run): Cluster
    requires |r.states| > 0
  {
    r.states[|r.states| - 1]
  }

  /** A member does something, and what it has to say goes out. */
  lemma Acts(boot: Configuration, r: Run, id: NodeID, e: Event, n: Node) returns (s: Run)
    requires IsRun(boot, r) && |r.states| == |r.who| + 1 && Enabled(Last(r), id, e) && !e.Sends?
    requires After(Last(r).members[id], e) == Last(r).members[id].(node := n) && Sized(n) && n.committed <= |n.log|
    ensures IsRun(boot, s) && |s.states| == |s.who| + 1 && Continues(r, s)
    ensures id in Last(r).members
    ensures Last(s) == Cluster(Last(r).members[id := Last(r).members[id].(node := n.(msgs := []))],
            Last(r).net + set m | m in n.msgs)
  {
    hide IsRun, Enabled, Step, Campaign;
    EnabledMember(Last(r), id, e);
    var c, mem := Last(r), Last(r).members[id];
    var d := Cluster(c.members[id := mem.(node := n)], c.net);
    MoreIsRun(boot, r, id, e, d);
    var q := More(r, id, e, d);
    RunLength(boot, q);
    var f := Cluster(c.members[id := mem.(node := n.(msgs := []))], c.net + set m | m in n.msgs);
    assert f.members == d.members[id := After(d.members[id], Sends)];
    SendsEnabled(d, id);
    MoreIsRun(boot, q, id, Sends, f);
    s := More(q, id, Sends, f);
    RunLength(boot, s);
  }

  lemma EnabledMember(c: Cluster, id: NodeID, e: Event)
    requires Enabled(c, id, e)
    ensures id in c.members && Sized(c.members[id].node) && c.members[id].node.committed <= |c.members[id].node.log|
  {}

  lemma SendsEnabled(c: Cluster, id: NodeID)
    requires id in c.members && Sized(c.members[id].node) && c.members[id].node.committed <= |c.members[id].node.log|
    ensures Enabled(c, id, Sends)
  {}

  lemma Hears(boot: Configuration, r: Run, id: NodeID, m: Message, n: Node) returns (s: Run)
    requires IsRun(boot, r) && |r.states| == |r.who| + 1 && id in Last(r).members && m in Last(r).net && m.to == id
             && !m.SnapReq?
    requires Sized(Last(r).members[id].node) && Last(r).members[id].node.committed <= |Last(r).members[id].node.log|
    requires n == Step(Last(r).members[id].node, m) && Sized(n) && n.committed <= |n.log|
    ensures IsRun(boot, s) && |s.states| == |s.who| + 1 && Continues(r, s)
    ensures Last(s) == Cluster(Last(r).members[id := Last(r).members[id].(node := n.(msgs := []))],
            Last(r).net + set x | x in n.msgs)
  {
    hide IsRun, Step;
    s := Acts(boot, r, id, Receives(m), n);
  }
}
