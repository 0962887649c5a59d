/** How the code's state stands to the core, for one server and one RPC at a time. */
module ClusterInvariant {
  import opened RaftTypes
  import opened RaftCore
  import opened ServerSpec
  import opened Cluster

  // ---------------------------------------------------------------- one server

  // A leader's knowledge of a peer: it never exceeds what the peer stored in this term.
  ghost predicate PeerOK(c: Core, s: Server, j: nat) {
    && j < |s.peers|
    && (s.role == Leader && j != s.id ==>
          && 1 <= s.peers[j].next <= |s.log| + 1
          && (c.scope.Peers? || c.scope.Commits? ==>
                && s.peers[j].matched <= |s.log|
                && (s.peers[j].matched == 0 || Acked(c, j, s.term, s.peers[j].matched))))
  }

  // A delivered entry is the one some leader committed at that index.
  ghost predicate DeliveryOK(c: Core, d: Delivery) {
    exists t: nat, k: nat :: DeliveredFrom(c, d, t, k)
  }

  ghost predicate DeliveredFrom(c: Core, d: Delivery, t: nat, k: nat) {
    Committed(c, t, k) && 1 <= d.idx <= k && d.entry == c.leaders[t].log[d.idx - 1]
  }

  // Since its last restart a server delivered exactly the entries of its log between the two
  // commit indices, in order.
  ghost predicate InOrder(s: Server, x: nat) {
    && s.bootMark + x < |s.delivered| && s.bootCommit + x < |s.log|
    && s.delivered[s.bootMark + x] == Delivery(s.bootCommit + x + 1, s.log[s.bootCommit + x])
  }

  ghost predicate HistoryOK(c: Core, s: Server) {
    c.scope.Commits? ==>
    && s.bootCommit <= s.commitIdx <= |s.log|
    && s.bootMark + s.commitIdx - s.bootCommit == |s.delivered|
    && (forall x: nat {:trigger InOrder(s, x)} :: x < s.commitIdx - s.bootCommit ==> InOrder(s, x))
    && (forall x: nat {:trigger DeliveryOK(c, s.delivered[x])} :: x < |s.delivered| ==> DeliveryOK(c, s.delivered[x]))
  }

  // What the server knows to be committed.
  function Known(s: Server): seq<Entry> {
    if s.quickCommit <= |s.log| then s.log[..s.quickCommit] else s.log
  }

  ghost predicate VoteOK(c: Core, s: Server) {
    match s.votedFor
    case None => (s.id, s.term) !in c.votes
    case Some(cand) => VotedFor(c, s.id, s.term, cand)
  }

  ghost predicate CommitOK(c: Core, s: Server) {
    c.scope.Commits? ==>
    && s.savedCommit <= s.commitIdx <= s.quickCommit <= |s.log|
    && CommittedLog(c, Known(s), s.term)
  }

  ghost predicate ServerLink(c: Core, s: Server) {
    && s.id < |c.terms| == |c.logs| == |s.peers|
    && !s.halted
    && c.terms[s.id] == s.term
    && c.logs[s.id] == s.log
    && VoteOK(c, s)
    && (s.role == Leader ==> IsLeader(c, s.id) && !s.timerOn)
    && (IsLeader(c, s.id) ==> s.electionDone)
    && CommitOK(c, s)
    && (forall j: nat {:trigger PeerOK(c, s, j)} :: j < |s.peers| ==> PeerOK(c, s, j))
    && HistoryOK(c, s)
  }

  // ---------------------------------------------------------------- one RPC

  // A request for votes shows the candidate's log; a request to append is a piece of the log
  // of its term's leader.
  ghost predicate RequestOK(c: Core, req: Request) {
    && req.src < |c.terms| && req.dst < |c.terms| && req.src != req.dst
    && match req
       case VoteReq(term, src, dst, lastTerm, lastIdx, commit) =>
         && VotedFor(c, src, term, src)
         && lastTerm == LastTerm(c.votes[(src, term)].candLog)
         && lastIdx == |c.votes[(src, term)].candLog|
       case AppendReq(term, src, dst, prevTerm, prevIdx, commit, entries) =>
         && term in c.leaders
         && c.leaders[term].id == src
         && var log := c.leaders[term].log;
         && prevIdx + |entries| <= |log|
         && entries == log[prevIdx..prevIdx + |entries|]
         && prevTerm == TermAt(log, prevIdx)
         && (c.scope.Commits? ==> commit <= |log| && CommittedLog(c, log[..commit], term))
  }

  ghost predicate ReplyOK(c: Core, req: Request, resp: Response) {
    && resp.src == req.dst && resp.dst == req.src
    && match req
       case VoteReq(term, src, dst, _, _, _) =>
         && resp.VoteResp?
         && (resp.accepted ==> resp.term == term && VotedFor(c, dst, term, src))
       case AppendReq(term, src, dst, _, prevIdx, _, entries) =>
         && resp.AppendResp?
         && resp.next >= 1
         && (resp.accepted ==>
               && resp.term == term
               && resp.next == prevIdx + |entries| + 1
               && Acked(c, dst, term, resp.next - 1))
  }

  ghost predicate RpcLink(c: Core, r: Rpc) {
    RequestOK(c, r.req) && (r.reply.Some? ==> ReplyOK(c, r.req, r.reply.value))
  }

  // Only a leader of the current term and incarnation has requests to append outstanding.
  ghost predicate SenderLink(s: Server, r: Rpc) {
    && r.epoch <= s.epoch
    && r.req.term <= s.term
    && (r.req.AppendReq? && r.epoch == s.epoch && r.req.term == s.term ==> s.role == Leader)
  }

  // ---------------------------------------------------------------- steps of one server

  // What one server's step may do to the core.
  ghost predicate Moves(c: Core, d: Core, i: nat) {
    && Grows(c, d)
    && |c.terms| == |c.logs|
    && (forall j: nat :: j < |c.terms| && j != i ==> d.terms[j] == c.terms[j] && d.logs[j] == c.logs[j])
    && (forall v: nat, t: nat :: (v, t) in d.votes && v != i ==> (v, t) in c.votes)
    && (forall t: nat :: t in d.leaders && d.leaders[t].id != i ==> t in c.leaders)
  }

  lemma MovesTransitive(c: Core, d: Core, e: Core, i: nat)
    requires Moves(c, d, i) && Moves(d, e, i)
    ensures Moves(c, e, i)
  {
    GrowsTransitive(c, d, e);
  }

  lemma MovesReflexive(c: Core, i: nat)
    requires |c.terms| == |c.logs|
    ensures Moves(c, c, i)
  {
    assert forall t: nat :: t in c.leaders ==> ReignGrows(c, c, t);
  }

  lemma AckedStays(c: Core, d: Core, v: nat, t: nat, k: nat)
    requires Grows(c, d) && Acked(c, v, t, k)
    ensures Acked(d, v, t, k)
  {
    assert ReignGrows(c, d, t);
  }

  lemma DeliveryStays(c: Core, d: Core, x: Delivery)
    requires Grows(c, d) && DeliveryOK(c, x)
    ensures DeliveryOK(d, x)
  {
    var t: nat, k: nat :| DeliveredFrom(c, x, t, k);
    CommittedStays(c, d, t, k);
    assert c.leaders[t].log[..k][x.idx - 1] == d.leaders[t].log[..k][x.idx - 1];
    assert DeliveredFrom(d, x, t, k);
  }

  lemma HistoryStays(c: Core, d: Core, s: Server)
    requires Grows(c, d) && HistoryOK(c, s)
    ensures HistoryOK(d, s)
  {
    forall x: nat | c.scope.Commits? && x < |s.delivered| ensures DeliveryOK(d, s.delivered[x]) {
      DeliveryStays(c, d, s.delivered[x]);
    }
  }

  // Another server's step leaves this server's link intact.
  lemma OthersStayLinked(c: Core, d: Core, i: nat, s: Server)
    requires Moves(c, d, i) && ServerLink(c, s) && s.id != i
    ensures ServerLink(d, s)
  {
    CommittedLogStays(c, d, Known(s), s.term, s.term);
    HistoryStays(c, d, s);
    assert IsLeader(c, s.id) ==> ReignGrows(c, d, s.term);
    assert IsLeader(d, s.id) ==> IsLeader(c, s.id) by {
      if IsLeader(d, s.id) {
        assert ReignGrows(c, d, s.term);
      }
    }
    forall j: nat | j < |s.peers| ensures PeerOK(d, s, j) {
      PeerStaysOK(c, d, s, j);
    }
  }

  lemma PeerStaysOK(c: Core, d: Core, s: Server, j: nat)
    requires Grows(c, d) && PeerOK(c, s, j)
    ensures PeerOK(d, s, j)
  {
    if (c.scope.Peers? || c.scope.Commits?) && s.role == Leader && j != s.id && s.peers[j].matched != 0 {
      AckedStays(c, d, j, s.term, s.peers[j].matched);
    }
  }

  lemma RequestStaysOK(c: Core, d: Core, req: Request)
    requires Grows(c, d) && RequestOK(c, req)
    ensures RequestOK(d, req)
  {
    if req.AppendReq? {
      var t := req.term;
      assert ReignGrows(c, d, t);
      var g, h := c.leaders[t].log, d.leaders[t].log;
      var m := req.prevIdx + |req.entries|;
      assert g[req.prevIdx..m] == h[req.prevIdx..m];
      assert req.prevIdx > 0 ==> g[req.prevIdx - 1] == h[req.prevIdx - 1];
      if c.scope.Commits? {
        assert g[..req.commit] == h[..req.commit];
        CommittedLogStays(c, d, g[..req.commit], t, t);
      }
    }
  }

  lemma RpcStaysLinked(c: Core, d: Core, r: Rpc)
    requires Grows(c, d) && RpcLink(c, r)
    ensures RpcLink(d, r)
  {
    RequestStaysOK(c, d, r.req);
    if r.reply.Some? && r.req.AppendReq? && r.reply.value.accepted {
      AckedStays(c, d, r.req.dst, r.req.term, r.reply.value.next - 1);
    }
  }
}
