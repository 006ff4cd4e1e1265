/** Every message a node can receive keeps the node and the history in order. */
module StepAny {
  import opened Configurations
  import opened RaftTypes
  import opened RaftNode
  import opened History
  import opened HistoryGrowth
  import opened Invariant
  import opened StepSending
  import opened StepCommit
  import opened StepElection
  import opened StepReplication
  import opened StepSnapshot

  lemma DispatchOK(h: Hist, n: Node, m: Message) returns (g: Hist)
    requires OK(h, n) && MsgOK(h, m) && m.to == n.id
    requires m.term == n.term || ((m.VoteReq? || m.VoteResp?) && m.preVote)
    requires m.SnapReq? ==> CleanInstall(n, m.snap)
    ensures Moves(h, n, g, Dispatch(n, m))
  {
    hide OK, Moves, MsgOK, Sized, HandleVoteRequest, HandleVoteResponse, HandleAppendRequest, HandleAppendResponse;
    hide HandleSnapshotRequest, HandleSnapshotResponse, CleanInstall;
    OKFacts(h, n);
    match m
    case VoteReq(_, _, _, _, _, _) => g := HandleVoteRequestOK(h, n, m);
    case VoteResp(_, _, _, _, _) => g := HandleVoteResponseOK(h, n, m);
    case AppendReq(_, _, _, _, _, _, _, _) => g := HandleAppendRequestOK(h, n, m);
    case AppendResp(_, _, _, _, _, _, _, _) => g := HandleAppendResponseOK(h, n, m);
    case SnapReq(_, _, _, _) => g := HandleSnapshotRequestOK(h, n, m);
    case SnapResp(_, _, _, _, _) => g := HandleSnapshotResponseOK(h, n, m);
  }

  lemma StepOK(h: Hist, n: Node, m: Message) returns (g: Hist)
    requires OK(h, n) && MsgOK(h, m) && m.to == n.id
    requires m.SnapReq? && m.term >= n.term ==> CleanInstall(n, m.snap)
    ensures Moves(h, n, g, Step(n, m))
  {
    hide OK, Moves, MsgOK, Sized, StepHigherTerm, StepLowerTerm, Dispatch, CleanInstall;
    OKFacts(h, n);
    if m.term < n.term {
      g := h;
      StepLowerTermOK(h, n, m);
    } else if m.term > n.term {
      var n1 := StepHigherTerm(n, m);
      StepHigherTermOK(h, n, m);
      MovesOK(h, n, h, n1);
      OKFacts(h, n1);
      if m.SnapReq? { CleanAfterAdopt(n, m); }
      g := DispatchOK(h, n1, m);
      MovesTransitive(h, n, h, n1, g, Dispatch(n1, m));
    } else {
      g := DispatchOK(h, n, m);
    }
  }

  lemma CleanAfterAdopt(n: Node, m: Message)
    requires m.SnapReq? && CleanInstall(n, m.snap)
    ensures CleanInstall(StepHigherTerm(n, m), m.snap)
  {}

  lemma TickOK(h: Hist, n: Node) returns (g: Hist)
    requires OK(h, n)
    ensures Moves(h, n, g, Tick(n))
  {
    hide OK, Grows, TickHeartbeat, TickElection, Sized;
    OKFacts(h, n);
    if n.role == Leader {
      g := h;
      TickHeartbeatOK(h, n);
      GrowsReflexive(h, n.id);
      BeatStays(n);
    } else {
      g := TickElectionOK(h, n);
    }
  }

  lemma BeatStays(n: Node)
    ensures TickHeartbeat(n).id == n.id && TickHeartbeat(n).cfg == n.cfg
  {
    hide SendAll, RetryReads;
  }

  lemma ClientProposeOK(h: Hist, n: Node, bytes: seq<Byte>) returns (g: Hist)
    requires OK(h, n)
    ensures Moves(h, n, g, Propose(n, Command(bytes)))
  {
    hide OK, Moves, Sized, AppendOwn, MaybeAdvanceCommit;
    OKFacts(h, n);
    if n.role == Leader {
      g := ProposeOK(h, n, Command(bytes));
    } else {
      g := h;
      TouchOK(h, n, n);
    }
  }
}
