/** Cluster membership and quorum arithmetic (raft/config.go).

A configuration lists the voters counted towards a majority, the voters of the
configuration being left while a change is in flight, and the learners, which are
never counted. The lists are kept sorted and free of duplicates.
*/
module Configurations {

  type NodeID = nat
  type Index = nat

  /** "No node": no vote cast, no leader known. */
  const NONE: NodeID := 0

  datatype Configuration = Configuration(voters: seq<NodeID>, oldVoters: seq<NodeID>, learners: seq<NodeID>) {
    predicate IsJoint() { oldVoters != [] }

    predicate IsEmpty() { voters == [] && oldVoters == [] && learners == [] }

    predicate IsVoter(id: NodeID) { id in voters || id in oldVoters }
  }

  datatype ChangeKind = EnterJointKind | LeaveJointKind

  /** The payload of a configuration entry: the resulting configuration, not a delta. */
  datatype ConfChange = ConfChange(kind: ChangeKind, config: Configuration)

  datatype ChangeError = EmptyConfiguration | AlreadyInProgress | NotJoint

  datatype ChangeResult = Changed(change: ConfChange) | Refused(error: ChangeError)

  // ---------------------------------------------------------------------------
  // Sorted lists of ids
  // ---------------------------------------------------------------------------

  predicate Sorted(s: seq<NodeID>) {
    forall i, j :: 0 <= i < j < |s| ==> s[i] < s[j]
  }

  /** Inserts an id into a sorted list, unless it is there already. */
  function Insert(x: NodeID, s: seq<NodeID>): (r: seq<NodeID>)
    requires Sorted(s)
    ensures Sorted(r)
    ensures forall y :: y in r <==> y == x || y in s
  {
    if s == [] then [x]
    else if x < s[0] then [x] + s
    else if x == s[0] then s
    else
      var t := Insert(x, s[1..]);
      assert forall y :: y in s <==> y == s[0] || y in s[1..];
      assert forall y :: y in t ==> s[0] < y;
      assert forall i :: 0 <= i < |t| ==> t[i] in t;
      [s[0]] + t
  }

  /** Sorts and removes duplicates. */
  function SortedUnique(s: seq<NodeID>): (r: seq<NodeID>)
    ensures Sorted(r)
    ensures forall y :: y in r <==> y in s
  {
    if s == [] then [] else Insert(s[0], SortedUnique(s[1..]))
  }

  lemma HeadIn(s: seq<NodeID>)
    requires s != []
    ensures s[0] in s
  {}

  /** A sorted list is determined by its members, so normalizing is idempotent. */
  lemma {:induction false} SortedDetermined(a: seq<NodeID>, b: seq<NodeID>)
    requires Sorted(a) && Sorted(b)
    requires forall y :: y in a <==> y in b
    ensures a == b
  {
    if a == [] {
      if b != [] { HeadIn(b); }
    } else if b == [] {
      HeadIn(a);
    } else {
      assert a[0] in b && b[0] in a;
      assert a[0] == b[0];
      forall y ensures y in a[1..] <==> y in b[1..] {
        assert y in a <==> y == a[0] || y in a[1..];
        assert y in b <==> y == b[0] || y in b[1..];
        assert a[0] !in a[1..] && b[0] !in b[1..];
      }
      SortedDetermined(a[1..], b[1..]);
    }
  }

  /** The elements of `s` outside `drop`, in order. */
  function Without(s: seq<NodeID>, drop: seq<NodeID>): (r: seq<NodeID>)
    requires Sorted(s)
    ensures Sorted(r)
    ensures forall y :: y in r <==> y in s && y !in drop
  {
    if s == [] then []
    else
      var rest := Without(s[1..], drop);
      assert forall y :: y in s <==> y == s[0] || y in s[1..];
      assert forall y :: y in rest ==> s[0] < y;
      assert forall i :: 0 <= i < |rest| ==> rest[i] in rest;
      if s[0] in drop then rest else [s[0]] + rest
  }

  /** Sorts every list and drops any learner that is also a voter. */
  function Normalize(c: Configuration): (r: Configuration)
    ensures Normal(r)
    ensures forall y :: y in r.voters <==> y in c.voters
    ensures forall y :: y in r.oldVoters <==> y in c.oldVoters
    ensures forall y :: y in r.learners <==> y in c.learners && y !in c.voters && y !in c.oldVoters
  {
    Configuration(SortedUnique(c.voters), SortedUnique(c.oldVoters),
                  Without(Without(SortedUnique(c.learners), c.voters), c.oldVoters))
  }

  ghost predicate Normal(c: Configuration) {
    && Sorted(c.voters) && Sorted(c.oldVoters) && Sorted(c.learners)
    && (forall y :: y in c.learners ==> y !in c.voters && y !in c.oldVoters)
  }

  lemma NormalizeIdentity(c: Configuration)
    requires Normal(c)
    ensures Normalize(c) == c
  {
    SortedDetermined(Normalize(c).voters, c.voters);
    SortedDetermined(Normalize(c).oldVoters, c.oldVoters);
    SortedDetermined(Normalize(c).learners, c.learners);
  }

  /** Every member in any role, sorted. */
  function Members(c: Configuration): (r: seq<NodeID>)
    ensures Sorted(r)
    ensures forall y :: y in r <==> c.IsVoter(y) || y in c.learners
  {
    SortedUnique(c.voters + c.oldVoters + c.learners)
  }

  /** Every member except `self`, sorted. */
  function Peers(c: Configuration, self: NodeID): (r: seq<NodeID>)
    ensures Sorted(r)
    ensures forall y :: y in r <==> (c.IsVoter(y) || y in c.learners) && y != self
  {
    Without(Members(c), [self])
  }

  // ---------------------------------------------------------------------------
  // Majorities
  // ---------------------------------------------------------------------------

  function Count(voters: seq<NodeID>, granted: set<NodeID>): nat {
    if voters == [] then 0
    else (if voters[0] in granted then 1 else 0) + Count(voters[1..], granted)
  }

  predicate Majority(voters: seq<NodeID>, granted: set<NodeID>) {
    voters != [] && Count(voters, granted) * 2 > |voters|
  }

  /** While a change is in flight a quorum needs a majority of both halves. */
  predicate Quorum(c: Configuration, granted: set<NodeID>) {
    Majority(c.voters, granted) && (c.IsJoint() ==> Majority(c.oldVoters, granted))
  }

  predicate Impossible(c: Configuration, rejected: set<NodeID>) {
    Majority(c.voters, rejected) || (c.IsJoint() && Majority(c.oldVoters, rejected))
  }

  lemma {:induction false} CountAppend(a: seq<NodeID>, b: seq<NodeID>, g: set<NodeID>)
    ensures Count(a + b, g) == Count(a, g) + Count(b, g)
  {
    if a == [] {
      assert a + b == b;
    } else {
      CountAppend(a[1..], b, g);
      assert (a + b)[1..] == a[1..] + b;
    }
  }

  lemma {:induction false} CountMonotone(voters: seq<NodeID>, g: set<NodeID>, h: set<NodeID>)
    requires g <= h
    ensures Count(voters, g) <= Count(voters, h) <= |voters|
  {
    if voters != [] { CountMonotone(voters[1..], g, h); }
  }

  lemma QuorumMonotone(c: Configuration, g: set<NodeID>, h: set<NodeID>)
    requires g <= h && Quorum(c, g)
    ensures Quorum(c, h)
  {
    CountMonotone(c.voters, g, h);
    CountMonotone(c.oldVoters, g, h);
  }

  /** Two disjoint sets cannot between them be counted more often than there are voters. */
  lemma {:induction false} CountDisjoint(voters: seq<NodeID>, g: set<NodeID>, h: set<NodeID>)
    requires g !! h
    ensures Count(voters, g) + Count(voters, h) <= |voters|
  {
    if voters != [] { CountDisjoint(voters[1..], g, h); }
  }

  /** A set and the voters outside it are counted exactly once each. */
  lemma {:induction false} CountComplement(voters: seq<NodeID>, g: set<NodeID>, h: set<NodeID>)
    requires g !! h && forall v :: v in voters ==> v in g || v in h
    ensures Count(voters, g) + Count(voters, h) == |voters|
  {
    if voters != [] { CountComplement(voters[1..], g, h); }
  }

  lemma MajoritiesMeet(voters: seq<NodeID>, g: set<NodeID>, h: set<NodeID>)
    requires Majority(voters, g) && Majority(voters, h)
    ensures exists v :: v in g && v in h
  {
    if !exists v :: v in g && v in h { CountDisjoint(voters, g, h); }
  }

  /** Counts the voters that granted, one at a time. */
  method HasMajority(voters: seq<NodeID>, granted: set<NodeID>) returns (yes: bool)
    ensures yes <==> Majority(voters, granted)
  {
    if voters == [] { return false; }
    var n := 0;
    for i := 0 to |voters|
      invariant n == Count(voters[..i], granted)
    {
      CountAppend(voters[..i], [voters[i]], granted);
      assert voters[..i + 1] == voters[..i] + [voters[i]];
      if voters[i] in granted { n := n + 1; }
    }
    assert voters[..|voters|] == voters;
    yes := n * 2 > |voters|;
  }

  method HasQuorum(c: Configuration, granted: set<NodeID>) returns (yes: bool)
    ensures yes <==> Quorum(c, granted)
  {
    yes := HasMajority(c.voters, granted);
    if yes && c.IsJoint() { yes := HasMajority(c.oldVoters, granted); }
  }

  method QuorumImpossible(c: Configuration, rejected: set<NodeID>) returns (yes: bool)
    ensures yes <==> Impossible(c, rejected)
  {
    yes := HasMajority(c.voters, rejected);
    if !yes && c.IsJoint() { yes := HasMajority(c.oldVoters, rejected); }
  }

  /** Once a quorum is reported impossible, no set of nodes that avoids the refusers is a quorum. */
  lemma ImpossibleIsSound(c: Configuration, rejected: set<NodeID>, granted: set<NodeID>)
    requires Impossible(c, rejected) && granted !! rejected
    ensures !Quorum(c, granted)
  {
    CountDisjoint(c.voters, rejected, granted);
    CountDisjoint(c.oldVoters, rejected, granted);
  }

  /** The voters, of either half, that have not refused. */
  function Willing(c: Configuration, rejected: set<NodeID>): set<NodeID> {
    (set v | v in c.voters && v !in rejected) + (set v | v in c.oldVoters && v !in rejected)
  }

  /** The test is exact except at one point: when exactly half of an even half-configuration
      refuses, a quorum is already out of reach and the test does not say so. */
  lemma ImpossibleIsExact(c: Configuration, rejected: set<NodeID>)
    requires c.voters != []
    ensures (exists g :: g !! rejected && Quorum(c, g)) <==>
            && !Impossible(c, rejected)
            && Count(c.voters, rejected) * 2 != |c.voters|
            && (c.IsJoint() ==> Count(c.oldVoters, rejected) * 2 != |c.oldVoters|)
  {
    var w := Willing(c, rejected);
    CountComplement(c.voters, rejected, w);
    CountComplement(c.oldVoters, rejected, w);
    assert w !! rejected && (Quorum(c, w) || !Quorum(c, w));
    if g :| g !! rejected && Quorum(c, g) { WillingIsBest(c, rejected, g); }
  }

  /** No set that avoids the refusers does better than everyone who has not refused. */
  lemma WillingIsBest(c: Configuration, rejected: set<NodeID>, granted: set<NodeID>)
    requires granted !! rejected && Quorum(c, granted)
    ensures Quorum(c, Willing(c, rejected))
  {
    var w := Willing(c, rejected);
    CountOnVoters(c.voters, granted, w);
    CountOnVoters(c.oldVoters, granted, w);
  }

  lemma {:induction false} CountOnVoters(voters: seq<NodeID>, g: set<NodeID>, h: set<NodeID>)
    requires forall v :: v in voters && v in g ==> v in h
    ensures Count(voters, g) <= Count(voters, h)
  {
    if voters != [] { CountOnVoters(voters[1..], g, h); }
  }

  // ---------------------------------------------------------------------------
  // The commit candidate
  // ---------------------------------------------------------------------------

  /** How far a node has confirmed; an untracked node counts as zero. */
  function MatchOf(matched: map<NodeID, Index>, id: NodeID): Index {
    if id in matched then matched[id] else 0
  }

  predicate Ascending(s: seq<Index>) {
    forall i, j :: 0 <= i < j < |s| ==> s[i] <= s[j]
  }

  function AtLeast(s: seq<Index>, i: Index): nat {
    if s == [] then 0 else (if s[0] >= i then 1 else 0) + AtLeast(s[1..], i)
  }

  function InsertIndex(x: Index, s: seq<Index>): (r: seq<Index>)
    requires Ascending(s)
    ensures Ascending(r) && |r| == |s| + 1
    ensures r[0] == if s == [] || x <= s[0] then x else s[0]
    ensures forall i: Index :: AtLeast(r, i) == AtLeast(s, i) + (if x >= i then 1 else 0)
  {
    if s == [] || x <= s[0] then
      assert ([x] + s)[1..] == s;
      [x] + s
    else
      var t := InsertIndex(x, s[1..]);
      assert ([s[0]] + t)[1..] == t;
      assert forall i :: 0 < i < |t| ==> t[0] <= t[i];
      [s[0]] + t
  }

  /** Sorting; that the result is a permutation is said by counting above every bound. */
  function SortIndexes(s: seq<Index>): (r: seq<Index>)
    ensures Ascending(r) && |r| == |s|
    ensures forall i: Index :: AtLeast(r, i) == AtLeast(s, i)
  {
    if s == [] then [] else InsertIndex(s[0], SortIndexes(s[1..]))
  }

  function Matches(voters: seq<NodeID>, matched: map<NodeID, Index>): (r: seq<Index>)
    ensures |r| == |voters|
  {
    seq(|voters|, k requires 0 <= k < |voters| => MatchOf(matched, voters[k]))
  }

  /** The largest index a majority of `voters` has matched. */
  function QuorumIndex(voters: seq<NodeID>, matched: map<NodeID, Index>): Index {
    if voters == [] then 0 else SortIndexes(Matches(voters, matched))[(|voters| - 1) / 2]
  }

  function CommittedIndex(c: Configuration, matched: map<NodeID, Index>): Index {
    var i := QuorumIndex(c.voters, matched);
    var j := QuorumIndex(c.oldVoters, matched);
    if c.IsJoint() && j < i then j else i
  }

  /** The nodes, among those `c` counts, known to have matched index `i`. */
  function Reached(c: Configuration, matched: map<NodeID, Index>, i: Index): set<NodeID> {
    set v | v in c.voters + c.oldVoters && MatchOf(matched, v) >= i
  }

  lemma {:induction false} AtLeastAppend(s: seq<Index>, t: seq<Index>, i: Index)
    ensures AtLeast(s + t, i) == AtLeast(s, i) + AtLeast(t, i)
  {
    if s == [] {
      assert s + t == t;
    } else {
      AtLeastAppend(s[1..], t, i);
      assert (s + t)[1..] == s[1..] + t;
    }
  }

  lemma {:induction false} AtLeastUniform(s: seq<Index>, i: Index)
    ensures (forall k :: 0 <= k < |s| ==> s[k] >= i) ==> AtLeast(s, i) == |s|
    ensures (forall k :: 0 <= k < |s| ==> s[k] < i) ==> AtLeast(s, i) == 0
    ensures AtLeast(s, i) <= |s|
  {
    if s != [] { AtLeastUniform(s[1..], i); }
  }

  lemma {:induction false} AtLeastCounts(voters: seq<NodeID>, matched: map<NodeID, Index>, g: set<NodeID>, i: Index)
    requires forall v :: v in voters ==> (v in g <==> MatchOf(matched, v) >= i)
    ensures AtLeast(Matches(voters, matched), i) == Count(voters, g)
  {
    if voters != [] {
      AtLeastCounts(voters[1..], matched, g, i);
      assert Matches(voters, matched)[1..] == Matches(voters[1..], matched);
    }
  }

  /** Taking the lower median of the sorted matches finds exactly the indexes a majority holds. */
  lemma QuorumIndexIsMajority(voters: seq<NodeID>, matched: map<NodeID, Index>, g: set<NodeID>, i: Index)
    requires i >= 1
    requires forall v :: v in voters ==> (v in g <==> MatchOf(matched, v) >= i)
    ensures QuorumIndex(voters, matched) >= i <==> Majority(voters, g)
  {
    if voters != [] {
      var s := SortIndexes(Matches(voters, matched));
      var mid := (|voters| - 1) / 2;
      AtLeastCounts(voters, matched, g, i);
      LowerMedian(s, mid, i);
    }
  }

  lemma LowerMedian(s: seq<Index>, mid: nat, i: Index)
    requires Ascending(s) && mid < |s|
    ensures s[mid] >= i ==> AtLeast(s, i) >= |s| - mid
    ensures s[mid] < i ==> AtLeast(s, i) < |s| - mid
  {
    if s[mid] >= i {
      assert s == s[..mid] + s[mid..];
      AtLeastAppend(s[..mid], s[mid..], i);
      AtLeastUniform(s[mid..], i);
    } else {
      assert s == s[..mid + 1] + s[mid + 1..];
      AtLeastAppend(s[..mid + 1], s[mid + 1..], i);
      AtLeastUniform(s[..mid + 1], i);
      AtLeastUniform(s[mid + 1..], i);
    }
  }

  /** The two halves of the quorum arithmetic agree: the commit candidate reaches `i`
      exactly when the nodes that matched `i` form a quorum, joint or not. */
  lemma CommittedIndexIsQuorum(c: Configuration, matched: map<NodeID, Index>, i: Index)
    requires i >= 1
    ensures CommittedIndex(c, matched) >= i <==> Quorum(c, Reached(c, matched, i))
  {
    var g := Reached(c, matched, i);
    QuorumIndexIsMajority(c.voters, matched, g, i);
    QuorumIndexIsMajority(c.oldVoters, matched, g, i);
  }

  /** Collects the voters' match indexes, sorts them and takes the lower median. */
  method ComputeQuorumIndex(voters: seq<NodeID>, matched: map<NodeID, Index>) returns (r: Index)
    ensures r == QuorumIndex(voters, matched)
  {
    var n := |voters|;
    if n == 0 { return 0; }
    var idx := [];
    for i := 0 to n
      invariant idx == Matches(voters, matched)[..i]
    {
      idx := idx + [MatchOf(matched, voters[i])];
    }
    assert idx == Matches(voters, matched);
    r := SortIndexes(idx)[(n - 1) / 2];
  }

  method ComputeCommittedIndex(c: Configuration, matched: map<NodeID, Index>) returns (r: Index)
    ensures r == CommittedIndex(c, matched)
    ensures forall i: Index :: i >= 1 ==> (r >= i <==> Quorum(c, Reached(c, matched, i)))
  {
    r := ComputeQuorumIndex(c.voters, matched);
    if c.IsJoint() {
      var other := ComputeQuorumIndex(c.oldVoters, matched);
      if other < r { r := other; }
    }
    forall i: Index | i >= 1 ensures r >= i <==> Quorum(c, Reached(c, matched, i)) {
      CommittedIndexIsQuorum(c, matched, i);
    }
  }

  // ---------------------------------------------------------------------------
  // Changing membership
  // ---------------------------------------------------------------------------

  /** The change that begins a transition from `c` to `target`. */
  function EnterJoint(c: Configuration, target: Configuration): ChangeResult {
    if target.voters == [] then Refused(EmptyConfiguration)
    else if c.IsJoint() then Refused(AlreadyInProgress)
    else Changed(ConfChange(EnterJointKind, Normalize(Configuration(target.voters, c.voters, target.learners))))
  }

  /** The change that completes the transition `c` is in. */
  function LeaveJoint(c: Configuration): ChangeResult {
    if !c.IsJoint() then Refused(NotJoint)
    else
      var final := Normalize(Configuration(c.voters, [], c.learners));
      if final.voters == [] then Refused(EmptyConfiguration)
      else Changed(ConfChange(LeaveJointKind, final))
  }

  /** A legal successor: entering keeps the old voters as one half, leaving keeps the new half. */
  ghost predicate ConfStep(prev: Configuration, cc: ConfChange) {
    && Normal(cc.config)
    && cc.config.voters != []
    && prev.voters != []
    && match cc.kind
       case EnterJointKind => !prev.IsJoint() && cc.config.oldVoters == prev.voters
       case LeaveJointKind => prev.IsJoint() && cc.config.voters == prev.voters && !cc.config.IsJoint()
  }

  lemma EnterJointSteps(c: Configuration, target: Configuration)
    requires Normal(c) && c.voters != []
    ensures EnterJoint(c, target).Changed? <==> target.voters != [] && !c.IsJoint()
    ensures EnterJoint(c, target).Changed? ==> ConfStep(c, EnterJoint(c, target).change)
  {
    if EnterJoint(c, target).Changed? {
      var j := EnterJoint(c, target).change.config;
      SortedDetermined(j.oldVoters, c.voters);
      assert target.voters[0] in j.voters;
    }
  }

  lemma LeaveJointSteps(c: Configuration)
    requires Normal(c) && c.voters != []
    ensures LeaveJoint(c).Changed? <==> c.IsJoint()
    ensures c.IsJoint() ==> ConfStep(c, LeaveJoint(c).change)
  {
    if c.IsJoint() {
      var f := Normalize(Configuration(c.voters, [], c.learners));
      SortedDetermined(f.voters, c.voters);
      SortedDetermined(f.oldVoters, []);
    }
  }

  /** A quorum of a configuration and a quorum of its successor always share a node. */
  lemma SuccessorsMeet(prev: Configuration, cc: ConfChange, g: set<NodeID>, h: set<NodeID>)
    requires ConfStep(prev, cc) && Quorum(prev, g) && Quorum(cc.config, h)
    ensures exists v :: v in g && v in h
  {
    MajoritiesMeet(prev.voters, g, h);
  }

  /** So do quorums of two rival successors of the same configuration. */
  lemma SiblingsMeet(prev: Configuration, a: ConfChange, b: ConfChange, g: set<NodeID>, h: set<NodeID>)
    requires ConfStep(prev, a) && ConfStep(prev, b) && Quorum(a.config, g) && Quorum(b.config, h)
    ensures exists v :: v in g && v in h
  {
    MajoritiesMeet(prev.voters, g, h);
  }

  /** A whole transition ends at the target's voters; of the requested learners it keeps exactly
      those that are voters of neither configuration. A voter cannot be demoted to learner in one
      transition: it is dropped from the cluster instead. */
  lemma TransitionResult(c: Configuration, target: Configuration)
    requires Normal(c) && c.voters != [] && Normal(target) && target.voters != [] && !c.IsJoint()
    ensures EnterJoint(c, target).Changed?
    ensures LeaveJoint(EnterJoint(c, target).change.config).Changed?
    ensures var end := LeaveJoint(EnterJoint(c, target).change.config).change.config;
            && end.voters == target.voters && end.oldVoters == []
            && (forall y :: y in end.learners <==> y in target.learners && y !in c.voters)
            && (end == target <==> target.oldVoters == [] && forall y :: y in target.learners ==> y !in c.voters)
  {
    EnterJointSteps(c, target);
    var j := EnterJoint(c, target).change.config;
    LeaveJointSteps(j);
    var end := LeaveJoint(j).change.config;
    SortedDetermined(end.voters, target.voters);
    if forall y :: y in target.learners ==> y !in c.voters {
      SortedDetermined(end.learners, target.learners);
    }
  }
}
