/** The invariant of the whole cluster, kept by every step, as far as the guards allow. */
module ClusterProofs {
  import opened RaftTypes
  import opened Quorum
  import opened RaftCore
  import opened ServerSpec
  import opened Cluster
  import opened ClusterInvariant
  import opened HandlerProofs

  // The servers whose votes server i has counted in its current term.
  type Tally = seq<set<nat>>

  ghost predicate ServerAt(c: Cluster, core: Core, i: nat) {
    i < |c.servers| && c.servers[i].id == i && ServerLink(core, c.servers[i])
  }

  ghost predicate RpcAt(c: Cluster, core: Core, k: nat) {
    && k < |c.rpcs|
    && RpcLink(core, c.rpcs[k])
    && c.rpcs[k].req.src < |c.servers|
    && SenderLink(c.servers[c.rpcs[k].req.src], c.rpcs[k])
  }

  // A counted vote is a vote cast, and the request it answers is closed.
  ghost predicate Counted(core: Core, s: Server, votes: set<nat>) {
    && |votes| == s.granted
    && (forall v :: v in votes ==> v < |core.terms| && VotedFor(core, v, s.term, s.id))
  }

  ghost predicate CountedClosed(s: Server, votes: set<nat>, r: Rpc) {
    r.req.VoteReq? && r.req.src == s.id && r.req.term == s.term && r.req.dst in votes ==> !r.open
  }

  // A counted vote is the server's own, or was given in answer to a request of its current term.
  ghost predicate GrantedBy(s: Server, v: nat, r: Rpc) {
    && r.req.VoteReq? && r.req.src == s.id && r.req.dst == v && r.req.term == s.term
    && r.reply.Some? && r.reply.value.accepted
  }

  ghost predicate GrantedTo(c: Cluster, s: Server, v: nat) {
    v == s.id || exists k: nat :: k < |c.rpcs| && GrantedBy(s, v, c.rpcs[k])
  }

  ghost predicate TallyAt(c: Cluster, core: Core, tally: Tally, i: nat) {
    && i < |c.servers| == |tally|
    && Counted(core, c.servers[i], tally[i])
    && (forall v: nat {:trigger GrantedTo(c, c.servers[i], v)} :: v in tally[i] ==> GrantedTo(c, c.servers[i], v))
    && (forall k: nat {:trigger CountedClosed(c.servers[i], tally[i], c.rpcs[k])} ::
          k < |c.rpcs| ==> CountedClosed(c.servers[i], tally[i], c.rpcs[k]))
  }

  // A candidate asks every server once in a term.
  ghost predicate AskedOnce(q: Rpc, r: Rpc) {
    !(q.req.VoteReq? && r.req.VoteReq? && q.req.src == r.req.src && q.req.dst == r.req.dst && q.req.term == r.req.term)
  }

  ghost predicate Linked(c: Cluster, core: Core, tally: Tally) {
    && CoreInv(core)
    && |core.terms| == |c.servers| == |tally|
    && (forall i: nat {:trigger ServerAt(c, core, i)} :: i < |c.servers| ==> ServerAt(c, core, i))
    && (forall k: nat {:trigger RpcAt(c, core, k)} :: k < |c.rpcs| ==> RpcAt(c, core, k))
    && (forall i: nat {:trigger TallyAt(c, core, tally, i)} :: i < |c.servers| ==> TallyAt(c, core, tally, i))
    && (forall k: nat, l: nat {:trigger AskedOnce(c.rpcs[k], c.rpcs[l])} ::
          k < l < |c.rpcs| ==> AskedOnce(c.rpcs[k], c.rpcs[l]))
  }

  // What each part of the argument needs of the guards.
  predicate Covers(g: Guards, scope: Scope) {
    match scope
    case Elections => g.dropStale
    case Logs => g.dropStale && g.stampClient
    case Peers => g.dropStale && g.stampClient && g.resetMatched
    case Commits => g == GUARDED
  }

  // Some later core fits the cluster.
  ghost predicate Next(core: Core, c: Cluster) {
    exists d: Core, tally: Tally :: Grows(core, d) && Linked(c, d, tally)
  }

  // ---------------------------------------------------------------- one step, in parts

  // The RPCs of a step before its new sends: at most one has changed, in reply or by closing.
  ghost predicate RpcsMove(core: Core, before: seq<Rpc>, after: seq<Rpc>) {
    && |before| == |after|
    && (forall k: nat {:trigger after[k]} :: k < |after| ==> RpcMoves(core, before[k], after[k]))
  }

  ghost predicate RpcMoves(core: Core, before: Rpc, after: Rpc) {
    && after.req == before.req && after.epoch == before.epoch
    && (after.open ==> before.open)
    && (before.reply.Some? ==> after.reply == before.reply)
    && (after == before.(open := after.open) || RpcLink(core, after))
  }

  ghost predicate ServerMoves(s: Server, r: Server) {
    && r.id == s.id && r.epoch >= s.epoch && r.term >= s.term
    && (r.epoch == s.epoch && r.term == s.term && s.role == Leader ==> r.role == Leader)
  }

  // New requests: to append; or, in a new term, one request for a vote to each of some servers.
  ghost predicate NewSends(s: Server, out: Out, votes: set<nat>) {
    || AppendsOnly(out.sends)
    || (&& out.s.term > s.term
        && (forall x: nat {:trigger out.sends[x]} :: x < |out.sends| ==>
             out.sends[x].VoteReq? && out.sends[x].dst !in votes)
        && (forall x: nat, y: nat {:trigger out.sends[x], out.sends[y]} ::
              x < y < |out.sends| ==> out.sends[x].dst != out.sends[y].dst))
  }

  ghost predicate StepParts(c: Cluster, core: Core, tally: Tally, i: nat, d: Core, votes: set<nat>, rpcs: seq<Rpc>,
          out: Out) {
    && i < |c.servers|
    && CoreInv(d) && Moves(core, d, i)
    && ServerMoves(c.servers[i], out.s)
    && OutOK(d, out)
    && RpcsMove(d, c.rpcs, rpcs)
    && NewSends(c.servers[i], out, votes)
    && Counted(d, out.s, votes)
    && (forall v: nat {:trigger GrantedTo(c.(rpcs := rpcs), out.s, v)} :: v in votes ==>
         GrantedTo(c.(rpcs := rpcs), out.s, v))
    && (forall k: nat {:trigger CountedClosed(out.s, votes, rpcs[k])} :: k < |rpcs| ==>
         CountedClosed(out.s, votes, rpcs[k]))
  }

  lemma StepLinked(c: Cluster, core: Core, tally: Tally, i: nat, d: Core, votes: set<nat>, rpcs: seq<Rpc>, out: Out)
    requires Linked(c, core, tally) && StepParts(c, core, tally, i, d, votes, rpcs, out)
    ensures Linked(Emit(c.(rpcs := rpcs), i, out), d, tally[i := votes])
  {
    var e := Emit(c.(rpcs := rpcs), i, out);
    assert ServerAt(c, core, i);
    forall j: nat | j < |e.servers| ensures ServerAt(e, d, j) {
      if j != i {
        assert ServerAt(c, core, j);
        OthersStayLinked(core, d, i, c.servers[j]);
      }
    }
    forall k: nat | k < |e.rpcs| ensures RpcAt(e, d, k) {
      if k < |rpcs| {
        OldRpcAt(c, core, tally, i, d, votes, rpcs, out, k);
      } else {
        assert e.rpcs[k] == Rpc(out.sends[k - |rpcs|], out.s.epoch, None, true);
        assert SendOK(d, out.s, out.sends[k - |rpcs|]);
      }
    }
    var counted := tally[i := votes];
    forall j: nat | j < |e.servers| ensures TallyAt(e, d, counted, j) {
      StepTally(c, core, tally, i, d, votes, rpcs, out, j);
    }
    forall k: nat, l: nat | k < l < |e.rpcs| ensures AskedOnce(e.rpcs[k], e.rpcs[l]) {
      StepAskedOnce(c, core, tally, i, d, votes, rpcs, out, k, l);
    }
  }

  lemma OldRpcAt(c: Cluster, core: Core, tally: Tally, i: nat, d: Core, votes: set<nat>, rpcs: seq<Rpc>, out: Out,
          k: nat)
    requires Linked(c, core, tally) && StepParts(c, core, tally, i, d, votes, rpcs, out) && k < |rpcs|
    ensures RpcAt(Emit(c.(rpcs := rpcs), i, out), d, k)
  {
    var e := Emit(c.(rpcs := rpcs), i, out);
    assert RpcAt(c, core, k);
    RpcStaysLinked(core, d, c.rpcs[k]);
    assert e.rpcs[k] == rpcs[k];
    assert RpcMoves(d, c.rpcs[k], rpcs[k]);
  }

  lemma StepTally(c: Cluster, core: Core, tally: Tally, i: nat, d: Core, votes: set<nat>, rpcs: seq<Rpc>, out: Out,
          j: nat)
    requires Linked(c, core, tally) && StepParts(c, core, tally, i, d, votes, rpcs, out) && j < |c.servers|
    ensures TallyAt(Emit(c.(rpcs := rpcs), i, out), d, tally[i := votes], j)
  {
    var e := Emit(c.(rpcs := rpcs), i, out);
    assert TallyAt(c, core, tally, j);
    assert ServerAt(c, core, i) && ServerAt(c, core, j);
    forall v: nat | v in tally[i := votes][j] ensures GrantedTo(e, e.servers[j], v) {
      if j == i {
        GrantsStay(c.(rpcs := rpcs), e, out.s, v);
      } else {
        assert GrantedTo(c, c.servers[j], v);
        GrantsStay(c, e, c.servers[j], v);
      }
    }
    forall k: nat | k < |e.rpcs| ensures CountedClosed(e.servers[j], tally[i := votes][j], e.rpcs[k]) {
      if k < |rpcs| {
        assert e.rpcs[k] == rpcs[k];
        assert RpcMoves(d, c.rpcs[k], rpcs[k]);
        assert CountedClosed(c.servers[j], tally[j], c.rpcs[k]);
        assert CountedClosed(out.s, votes, rpcs[k]);
      } else {
        assert e.rpcs[k] == Rpc(out.sends[k - |rpcs|], out.s.epoch, None, true);
        assert SendOK(d, out.s, out.sends[k - |rpcs|]);
      }
    }
  }

  lemma GrantsStay(c: Cluster, e: Cluster, s: Server, v: nat)
    requires GrantedTo(c, s, v) && |c.rpcs| <= |e.rpcs|
    requires forall k: nat :: k < |c.rpcs| ==>
               e.rpcs[k].req == c.rpcs[k].req && (c.rpcs[k].reply.Some? ==> e.rpcs[k].reply == c.rpcs[k].reply)
    ensures GrantedTo(e, s, v)
  {
    if v != s.id {
      var k: nat :| k < |c.rpcs| && GrantedBy(s, v, c.rpcs[k]);
      assert GrantedBy(s, v, e.rpcs[k]);
    }
  }

  // A step within a term keeps the grants behind the counted votes.
  lemma GrantsKept(c: Cluster, core: Core, tally: Tally, i: nat, r: Server, d: Core, rpcs: seq<Rpc>)
    requires TallyAt(c, core, tally, i) && RpcsMove(d, c.rpcs, rpcs)
    requires r.id == c.servers[i].id && r.term == c.servers[i].term
    ensures forall v: nat :: v in tally[i] ==> GrantedTo(c.(rpcs := rpcs), r, v)
  {
    forall v: nat | v in tally[i] ensures GrantedTo(c.(rpcs := rpcs), r, v) {
      assert GrantedTo(c, c.servers[i], v);
      if v != r.id {
        var k: nat :| k < |c.rpcs| && GrantedBy(c.servers[i], v, c.rpcs[k]);
        assert RpcMoves(d, c.rpcs[k], rpcs[k]);
        assert GrantedBy(r, v, rpcs[k]);
      }
    }
  }

  lemma StepAskedOnce(c: Cluster, core: Core, tally: Tally, i: nat, d: Core, votes: set<nat>, rpcs: seq<Rpc>,
          out: Out, k: nat, l: nat)
    requires Linked(c, core, tally) && StepParts(c, core, tally, i, d, votes, rpcs, out)
    requires k < l < |Emit(c.(rpcs := rpcs), i, out).rpcs|
    ensures var e := Emit(c.(rpcs := rpcs), i, out); AskedOnce(e.rpcs[k], e.rpcs[l])
  {
    var e := Emit(c.(rpcs := rpcs), i, out);
    var m := |rpcs|;
    assert ServerAt(c, core, i);
    if l < m {
      assert e.rpcs[k] == rpcs[k] && e.rpcs[l] == rpcs[l];
      assert RpcMoves(d, c.rpcs[k], rpcs[k]) && RpcMoves(d, c.rpcs[l], rpcs[l]);
      assert AskedOnce(c.rpcs[k], c.rpcs[l]);
    } else {
      assert e.rpcs[l].req == out.sends[l - m];
      assert SendOK(d, out.s, out.sends[l - m]);
      if k < m {
        assert e.rpcs[k] == rpcs[k];
        assert RpcMoves(d, c.rpcs[k], rpcs[k]);
        assert RpcAt(c, core, k);
      } else {
        assert e.rpcs[k].req == out.sends[k - m];
      }
    }
  }

  // ---------------------------------------------------------------- initially

  lemma InitLinked(scope: Scope, caps: seq<nat>) returns (core: Core, tally: Tally)
    ensures Linked(Init(caps), core, tally) && core.scope == scope
  {
    var c := Init(caps);
    core := InitCore(scope, |caps|);
    tally := seq(|caps|, i => {});
    InitCoreInv(scope, |caps|);
    forall i: nat | i < |c.servers| ensures ServerAt(c, core, i) {
      var s := c.servers[i];
      forall j: nat | j < |s.peers| ensures PeerOK(core, s, j) { }
    }
    forall i: nat | i < |c.servers| ensures TallyAt(c, core, tally, i) { }
    assert Linked(c, core, tally);
  }

  // ---------------------------------------------------------------- the actions

  // A step that neither changes term nor counted votes, and sends only requests to append.
  lemma PlainStep(c: Cluster, core: Core, tally: Tally, i: nat, d: Core, out: Out)
    requires Linked(c, core, tally) && i < |c.servers|
    requires CoreInv(d) && Moves(core, d, i) && OutOK(d, out) && AppendsOnly(out.sends)
    requires ServerMoves(c.servers[i], out.s)
    requires out.s.term == c.servers[i].term && out.s.granted == c.servers[i].granted
    ensures Next(core, Emit(c, i, out))
  {
    assert TallyAt(c, core, tally, i);
    forall k: nat | k < |c.rpcs| ensures CountedClosed(out.s, tally[i], c.rpcs[k]) {
      assert CountedClosed(c.servers[i], tally[i], c.rpcs[k]);
    }
    assert RpcsMove(d, c.rpcs, c.rpcs);
    GrantsKept(c, core, tally, i, out.s, d, c.rpcs);
    assert StepParts(c, core, tally, i, d, tally[i], c.rpcs, out);
    StepLinked(c, core, tally, i, d, tally[i], c.rpcs, out);
    assert c.(rpcs := c.rpcs) == c;
  }

  // A step to a higher term, or a restart: the counted votes are forgotten or just its own.
  lemma FreshStep(c: Cluster, core: Core, tally: Tally, i: nat, d: Core, votes: set<nat>, rpcs: seq<Rpc>, out: Out)
    requires Linked(c, core, tally) && i < |c.servers|
    requires CoreInv(d) && Moves(core, d, i) && OutOK(d, out) && NewSends(c.servers[i], out, votes)
    requires ServerMoves(c.servers[i], out.s) && Counted(d, out.s, votes) && RpcsMove(d, c.rpcs, rpcs)
    requires votes == {} || (votes == {i} && out.s.id == i)
    ensures Next(core, Emit(c.(rpcs := rpcs), i, out))
  {
    forall k: nat | k < |rpcs| ensures CountedClosed(out.s, votes, rpcs[k]) {
      assert RpcMoves(d, c.rpcs[k], rpcs[k]);
      assert RpcAt(c, core, k);
    }
    assert StepParts(c, core, tally, i, d, votes, rpcs, out);
    StepLinked(c, core, tally, i, d, votes, rpcs, out);
  }

  // A server that is alone wins at once.
  lemma SoleTimeout(g: Guards, c: Cluster, core: Core, tally: Tally, i: nat)
    requires Covers(g, core.scope) && Linked(c, core, tally) && Enabled(c, Timeout(i)) && |c.servers[i].peers| <= 1
    requires c.servers[i].role != Leader
    ensures Next(core, Emit(c, i, BecomeLeader(g, StandForElection(c.servers[i]).(electionDone := true))))
  {
    hide BecomeLeader, HistoryOK, PeerOK, CommitOK;
    var s := c.servers[i];
    assert ServerAt(c, core, i);
    var d := StandOK(core, s);
    var s1 := StandForElection(s);
    var s2 := s1.(electionDone := true);
    FlagsOK(d, s1, s2);
    assert Majority({i}, |d.terms|);
    assert s.term + 1 in core.leaders ==> ReignOK(core, s.term + 1);
    var e := BecomeLeaderOK(g, d, s2, {i});
    MovesTransitive(core, d, e, i);
    assert VotedFor(e, i, s1.term, i);
    FreshStep(c, core, tally, i, e, {i}, c.rpcs, BecomeLeader(g, s2));
    assert c.(rpcs := c.rpcs) == c;
  }

  lemma TimeoutKeepsInv(g: Guards, c: Cluster, core: Core, tally: Tally, i: nat)
    requires Covers(g, core.scope)
    requires Linked(c, core, tally) && Enabled(c, Timeout(i))
    ensures Next(core, Step(g, c, Timeout(i)))
  {
    hide BecomeLeader, VoteRequestsFrom, CoreInv;
    var s := c.servers[i];
    assert ServerAt(c, core, i);
    var s1 := StandForElection(s);
    if 1 > |s1.peers| / 2 {
      SoleTimeout(g, c, core, tally, i);
    } else {
      var d := StandOK(core, s);
      var out := Out(s1.(timerOn := true), VoteRequestsFrom(s1, 0));
      FlagsOK(d, s1, out.s);
      VoteRequestsOK(d, out.s, 0);
      VoteRequestsSame(s1, out.s, 0);
      forall x: nat | x < |out.sends| ensures SendOK(d, out.s, out.sends[x]) && out.sends[x].VoteReq? {
        assert SendOK(d, out.s, VoteRequestsFrom(out.s, 0)[x]);
      }
      FreshStep(c, core, tally, i, d, {i}, c.rpcs, out);
      assert c.(rpcs := c.rpcs) == c;
    }
  }

  lemma {:induction false} VoteRequestsSame(s: Server, r: Server, j: nat)
    requires j <= |s.peers| == |r.peers| && s.id == r.id && s.term == r.term && s.log == r.log
            && s.commitIdx == r.commitIdx
    ensures VoteRequestsFrom(s, j) == VoteRequestsFrom(r, j)
    decreases |s.peers| - j
  {
    if j < |s.peers| {
      VoteRequestsSame(s, r, j + 1);
    }
  }

  // A server answers a request for its vote or to append entries.
  lemma DeliverKeepsInv(g: Guards, c: Cluster, core: Core, tally: Tally, k: nat)
    requires Covers(g, core.scope)
    requires Linked(c, core, tally) && Enabled(c, Deliver(k))
    ensures Next(core, Step(g, c, Deliver(k)))
  {
    var r := c.rpcs[k];
    var i := r.req.dst;
    assert ServerAt(c, core, i) && RpcAt(c, core, k);
    var d := ProcessReqOK(g, core, c.servers[i], r.req);
    var ans := ProcessReq(g, c.servers[i], r.req);
    RequestStaysOK(core, d, r.req);
    AnswerStep(c, core, tally, k, d, ans);
  }

  lemma AnswerStep(c: Cluster, core: Core, tally: Tally, k: nat, d: Core, ans: Answer)
    requires Linked(c, core, tally) && Enabled(c, Deliver(k))
    requires CoreInv(d) && Moves(core, d, c.rpcs[k].req.dst) && OutOK(d, ans.out) && AppendsOnly(ans.out.sends)
    requires RequestOK(d, c.rpcs[k].req)
    requires ans.resp.Some? && ReplyOK(d, c.rpcs[k].req, ans.resp.value)
    requires SameStanding(UpdateTerm(c.servers[c.rpcs[k].req.dst], c.rpcs[k].req.term), ans.out.s)
    ensures Next(core, Emit(c.(rpcs := c.rpcs[k := c.rpcs[k].(reply := ans.resp)]), c.rpcs[k].req.dst, ans.out))
  {
    var i := c.rpcs[k].req.dst;
    var s := c.servers[i];
    var rpcs := c.rpcs[k := c.rpcs[k].(reply := ans.resp)];
    assert TallyAt(c, core, tally, i);
    assert RpcsMove(d, c.rpcs, rpcs);
    if ans.out.s.term == s.term {
      forall l: nat | l < |rpcs| ensures CountedClosed(ans.out.s, tally[i], rpcs[l]) {
        assert CountedClosed(s, tally[i], c.rpcs[l]);
      }
      assert Counted(d, ans.out.s, tally[i]);
      GrantsKept(c, core, tally, i, ans.out.s, d, rpcs);
      assert StepParts(c, core, tally, i, d, tally[i], rpcs, ans.out);
      StepLinked(c, core, tally, i, d, tally[i], rpcs, ans.out);
    } else {
      FreshStep(c, core, tally, i, d, {}, rpcs, ans.out);
    }
  }

  lemma FailKeepsInv(g: Guards, c: Cluster, core: Core, tally: Tally, k: nat)
    requires Covers(g, core.scope)
    requires Linked(c, core, tally) && Enabled(c, Fail(k))
    ensures Next(core, Step(g, c, Fail(k)))
  {
    var r := c.rpcs[k];
    var i := r.req.src;
    assert ServerAt(c, core, i);
    FreePeerOK(core, c.servers[i], r.req);
    MovesReflexive(core, i);
    ClosingStep(c, core, tally, k, core, tally[i], Out(FreePeer(c.servers[i], r.req), []));
  }

  // RPC k is closed, and perhaps counted.
  lemma ClosedStay(c: Cluster, core: Core, tally: Tally, k: nat, votes: set<nat>, r: Server)
    requires Linked(c, core, tally) && Awaited(c, k)
    requires var s := c.servers[c.rpcs[k].req.src]; r.id == s.id && r.term == s.term
    requires votes <= tally[c.rpcs[k].req.src] ||
             (GrantedBy(r, c.rpcs[k].req.dst, c.rpcs[k]) && votes == tally[c.rpcs[k].req.src] + {c.rpcs[k].req.dst})
    ensures var rpcs := c.rpcs[k := c.rpcs[k].(open := false)];
            forall l: nat {:trigger CountedClosed(r, votes, rpcs[l])} :: l < |rpcs| ==> CountedClosed(r, votes, rpcs[l])
  {
    hide ServerLink, RpcLink, CoreInv;
    var i := c.rpcs[k].req.src;
    var rpcs := c.rpcs[k := c.rpcs[k].(open := false)];
    assert TallyAt(c, core, tally, i);
    forall l: nat | l < |rpcs| ensures CountedClosed(r, votes, rpcs[l]) {
      assert CountedClosed(c.servers[i], tally[i], c.rpcs[l]);
      assert l < k ==> AskedOnce(c.rpcs[l], c.rpcs[k]);
      assert k < l ==> AskedOnce(c.rpcs[k], c.rpcs[l]);
    }
  }

  lemma ClosedGrants(c: Cluster, core: Core, tally: Tally, k: nat, votes: set<nat>, r: Server, d: Core)
    requires Linked(c, core, tally) && Awaited(c, k)
    requires var s := c.servers[c.rpcs[k].req.src]; r.id == s.id && r.term == s.term
    requires votes <= tally[c.rpcs[k].req.src] ||
             (GrantedBy(r, c.rpcs[k].req.dst, c.rpcs[k]) && votes == tally[c.rpcs[k].req.src] + {c.rpcs[k].req.dst})
    ensures var e := c.(rpcs := c.rpcs[k := c.rpcs[k].(open := false)]);
            forall v: nat {:trigger GrantedTo(e, r, v)} :: v in votes ==> GrantedTo(e, r, v)
  {
    hide ServerLink, RpcLink, CoreInv;
    var i := c.rpcs[k].req.src;
    var rpcs := c.rpcs[k := c.rpcs[k].(open := false)];
    assert TallyAt(c, core, tally, i);
    assert RpcsMove(d, c.rpcs, rpcs);
    GrantsKept(c, core, tally, i, r, d, rpcs);
    assert !(votes <= tally[i]) ==> GrantedBy(r, c.rpcs[k].req.dst, rpcs[k]);
  }

  lemma CountedStays(c: Cluster, core: Core, tally: Tally, i: nat, d: Core, r: Server)
    requires Linked(c, core, tally) && i < |c.servers| && Grows(core, d)
    requires r.id == c.servers[i].id && r.term == c.servers[i].term && r.granted == c.servers[i].granted
    ensures Counted(d, r, tally[i])
  {
    hide ServerLink, CoreInv;
    assert TallyAt(c, core, tally, i);
  }

  // RPC k completes and the sender stays in its term.
  lemma ClosingStep(c: Cluster, core: Core, tally: Tally, k: nat, d: Core, votes: set<nat>, out: Out)
    requires Linked(c, core, tally) && Awaited(c, k)
    requires CoreInv(d) && Moves(core, d, c.rpcs[k].req.src) && OutOK(d, out) && AppendsOnly(out.sends)
    requires ServerMoves(c.servers[c.rpcs[k].req.src], out.s)
    requires out.s.term == c.servers[c.rpcs[k].req.src].term
    requires Counted(d, out.s, votes) || (votes == tally[c.rpcs[k].req.src]
            && out.s.granted == c.servers[c.rpcs[k].req.src].granted)
    requires votes <= tally[c.rpcs[k].req.src] ||
             (GrantedBy(out.s, c.rpcs[k].req.dst, c.rpcs[k]) && votes == tally[c.rpcs[k].req.src] + {c.rpcs[k].req.dst})
    ensures Next(core, Emit(c.(rpcs := c.rpcs[k := c.rpcs[k].(open := false)]), c.rpcs[k].req.src, out))
  {
    hide ServerLink, RpcLink, CoreInv, Counted, CountedClosed, GrantedTo, GrantedBy;
    var i := c.rpcs[k].req.src;
    var rpcs := c.rpcs[k := c.rpcs[k].(open := false)];
    assert ServerAt(c, core, i);
    if !Counted(d, out.s, votes) { CountedStays(c, core, tally, i, d, out.s); }
    ClosedStay(c, core, tally, k, votes, out.s);
    ClosedGrants(c, core, tally, k, votes, out.s, d);
    assert RpcsMove(d, c.rpcs, rpcs);
    assert StepParts(c, core, tally, i, d, votes, rpcs, out);
    StepLinked(c, core, tally, i, d, votes, rpcs, out);
  }

  lemma ReturnKeepsInv(g: Guards, c: Cluster, core: Core, tally: Tally, k: nat)
    requires Covers(g, core.scope)
    requires Linked(c, core, tally) && Enabled(c, Return(k))
    ensures Next(core, Step(g, c, Return(k)))
  {
    hide HandleAppendResp, HandleVotingResp, CoreInv, HistoryOK, PeerOK, CommitOK;
    var r := c.rpcs[k];
    var i := r.req.src;
    var resp := r.reply.value;
    assert ServerAt(c, core, i);
    assert RpcAt(c, core, k);
    var s := FreePeer(c.servers[i], r.req);
    FreePeerOK(core, c.servers[i], r.req);
    MovesReflexive(core, i);
    if resp.term > s.term {
      var d := UpdateTermOK(core, s, resp.term);
      FreshStep(c, core, tally, i, d, {}, c.rpcs[k := r.(open := false)], Out(UpdateTerm(s, resp.term), []));
    } else if resp.term < s.term {
      ClosingStep(c, core, tally, k, core, tally[i], Out(s, []));
    } else if resp.VoteResp? {
      CountVote(g, c, core, tally, k);
    } else {
      AppendAnswered(g, c, core, tally, k);
    }
  }

  // An answer of this term to a request to append.
  lemma AppendAnswered(g: Guards, c: Cluster, core: Core, tally: Tally, k: nat)
    requires Covers(g, core.scope)
    requires Linked(c, core, tally) && Enabled(c, Return(k))
    requires var r := c.rpcs[k]; r.reply.value.AppendResp? && r.reply.value.term == c.servers[r.req.src].term
    ensures Next(core, Step(g, c, Return(k)))
  {
    hide HandleAppendResp, CoreInv;
    var r := c.rpcs[k];
    var i := r.req.src;
    var resp := r.reply.value;
    assert ServerAt(c, core, i);
    assert RpcAt(c, core, k);
    var s := FreePeer(c.servers[i], r.req);
    FreePeerOK(core, c.servers[i], r.req);
    MovesReflexive(core, i);
    if resp.accepted {
      HandleAcceptedOK(g, core, s, resp);
    } else {
      HandleRejectedOK(g, core, s, resp);
    }
    ClosingStep(c, core, tally, k, core, tally[i], HandleAppendResp(g, s, resp));
  }

  // One more answer to a candidate, and perhaps its election.
  lemma VoteHandled(g: Guards, s: Server, r: Rpc)
    requires r.req.VoteReq? && r.reply.Some? && r.reply.value.VoteResp? && r.reply.value.term == s.term
    requires r.req.dst < |s.peers| && r.reply.value.src < |s.peers|
    ensures var out := HandlingOfVote(s, r.reply.value.accepted);
            HandlePeerResp(g, FreePeer(s, r.req), r.reply.value) ==
              if !s.electionDone && out.granted > |s.peers| / 2 then BecomeLeader(g, out.(electionDone := true))
              else Out(out, [])
  {
    hide BecomeLeader;
  }

  // The votes counted once an answer is.
  function VotesWith(s: Server, votes: set<nat>, r: Rpc): set<nat>
    requires r.reply.Some?
  {
    if !s.electionDone && r.reply.value.accepted then votes + {r.req.dst} else votes
  }

  lemma CountedWith(c: Cluster, core: Core, tally: Tally, k: nat)
    requires Linked(c, core, tally) && Enabled(c, Return(k))
    requires c.rpcs[k].reply.value.VoteResp? && c.rpcs[k].reply.value.term == c.servers[c.rpcs[k].req.src].term
    ensures var r := c.rpcs[k];
            var s := c.servers[r.req.src];
            Counted(core, HandlingOfVote(s, r.reply.value.accepted), VotesWith(s, tally[r.req.src], r))
  {
    hide ServerLink, CoreInv;
    var r := c.rpcs[k];
    var i := r.req.src;
    var s := c.servers[i];
    assert ServerAt(c, core, i) && RpcAt(c, core, k) && TallyAt(c, core, tally, i);
    assert s.id == i;
    assert CountedClosed(s, tally[i], r);
    assert !s.electionDone && r.reply.value.accepted ==> r.req.dst !in tally[i];
  }

  lemma CountVote(g: Guards, c: Cluster, core: Core, tally: Tally, k: nat)
    requires Covers(g, core.scope)
    requires Linked(c, core, tally) && Enabled(c, Return(k))
    requires c.rpcs[k].reply.value.VoteResp? && c.rpcs[k].reply.value.term == c.servers[c.rpcs[k].req.src].term
    ensures Next(core, Step(g, c, Return(k)))
  {
    hide BecomeLeader, HandlePeerResp, CoreInv, Counted;
    var r := c.rpcs[k];
    var i := r.req.src;
    var s := c.servers[i];
    assert ServerAt(c, core, i) && RpcAt(c, core, k);
    VoteHandled(g, s, r);
    CountedWith(c, core, tally, k);
    var out := HandlingOfVote(s, r.reply.value.accepted);
    var votes := VotesWith(s, tally[i], r);
    FlagsOK(core, s, out);
    if !s.electionDone && out.granted > |s.peers| / 2 {
      WinElection(g, c, core, tally, k, out, votes);
    } else {
      MovesReflexive(core, i);
      ClosingStep(c, core, tally, k, core, votes, Out(out, []));
    }
  }

  lemma WinElection(g: Guards, c: Cluster, core: Core, tally: Tally, k: nat, s: Server, votes: set<nat>)
    requires Covers(g, core.scope)
    requires Linked(c, core, tally) && Awaited(c, k)
    requires ServerLink(core, s) && ServerMoves(c.servers[c.rpcs[k].req.src], s)
    requires s.term == c.servers[c.rpcs[k].req.src].term && s.epoch == c.servers[c.rpcs[k].req.src].epoch
    requires !IsLeader(core, s.id) && s.id == c.rpcs[k].req.src
    requires Counted(core, s, votes) && s.granted > |s.peers| / 2
    requires votes <= tally[c.rpcs[k].req.src] ||
             (GrantedBy(s, c.rpcs[k].req.dst, c.rpcs[k]) && votes == tally[c.rpcs[k].req.src] + {c.rpcs[k].req.dst})
    ensures Next(core, Emit(c.(rpcs := c.rpcs[k := c.rpcs[k].(open := false)]), c.rpcs[k].req.src,
                     BecomeLeader(g, s.(electionDone := true))))
  {
    Elected(core, s, votes);
    var s2 := s.(electionDone := true);
    FlagsOK(core, s, s2);
    var d := BecomeLeaderOK(g, core, s2, votes);
    var final := BecomeLeader(g, s2);
    assert Counted(d, final.s, votes);
    ClosingStep(c, core, tally, k, d, votes, final);
  }

  // Election safety: with a majority of the votes of a term, nobody else leads that term.
  lemma Elected(core: Core, s: Server, votes: set<nat>)
    requires CoreInv(core) && ServerLink(core, s) && !IsLeader(core, s.id)
    requires 2 * |votes| > |core.terms|
    requires forall v :: v in votes ==> v < |core.terms| && VotedFor(core, v, s.term, s.id)
    ensures Majority(votes, |core.terms|) && s.term !in core.leaders && VotedFor(core, s.id, s.term, s.id)
  {
    if votes != {} {
      var v :| v in votes;
      assert BallotOK(core, v, s.term);
    }
    if s.term in core.leaders {
      assert ReignOK(core, s.term);
      var v := Intersect(votes, core.leaders[s.term].quorum, |core.terms|);
      assert false;
    }
  }

  lemma CrashKeepsInv(g: Guards, c: Cluster, core: Core, tally: Tally, i: nat)
    requires Covers(g, core.scope)
    requires Linked(c, core, tally) && i < |c.servers|
    ensures Next(core, Step(g, c, Crash(i)))
  {
    assert ServerAt(c, core, i);
    RestartOK(core, c.servers[i]);
    MovesReflexive(core, i);
    var out := Out(Restart(c.servers[i]), []);
    FreshStep(c, core, tally, i, core, {}, c.rpcs, out);
    assert c.(rpcs := c.rpcs) == c;
  }

  lemma ClientKeepsInv(g: Guards, c: Cluster, core: Core, tally: Tally, i: nat, payloads: seq<int>)
    requires Covers(g, core.scope)
    requires Linked(c, core, tally) && Enabled(c, ClientCall(i, payloads))
    ensures Next(core, Step(g, c, ClientCall(i, payloads)))
  {
    hide HandleClientReq, CoreInv;
    assert ServerAt(c, core, i);
    var d := HandleClientReqOK(g, core, c.servers[i], payloads);
    PlainStep(c, core, tally, i, d, HandleClientReq(g, c.servers[i], payloads));
  }

  lemma HeartbeatKeepsInv(g: Guards, c: Cluster, core: Core, tally: Tally, i: nat, j: nat)
    requires Linked(c, core, tally) && Enabled(c, Heartbeat(i, j))
    ensures Next(core, Step(g, c, Heartbeat(i, j)))
  {
    hide RequestAppend, CoreInv;
    assert ServerAt(c, core, i);
    RequestAppendOK(core, c.servers[i], j);
    MovesReflexive(core, i);
    PlainStep(c, core, tally, i, core, RequestAppend(c.servers[i], j));
  }

  lemma ApplyKeepsInv(g: Guards, c: Cluster, core: Core, tally: Tally, i: nat)
    requires Linked(c, core, tally) && Enabled(c, ApplyOne(i))
    ensures Next(core, Step(g, c, ApplyOne(i)))
  {
    hide ApplyNext, CoreInv;
    assert ServerAt(c, core, i);
    AppliedFields(c.servers[i]);
    ApplyNextOK(core, c.servers[i]);
    MovesReflexive(core, i);
    PlainStep(c, core, tally, i, core, Out(ApplyNext(c.servers[i]), []));
  }

  lemma StepKeepsInv(g: Guards, c: Cluster, core: Core, tally: Tally, a: Action)
    requires Covers(g, core.scope)
    requires Linked(c, core, tally)
    ensures Next(core, Step(g, c, a))
  {
    hide Linked, Covers;
    if !Enabled(c, a) {
      Shape(c, core, tally);
      MovesReflexive(core, 0);
      assert Grows(core, core) && Linked(c, core, tally);
    } else {
      match a
      case Timeout(i) => TimeoutKeepsInv(g, c, core, tally, i);
      case ClientCall(i, payloads) => ClientKeepsInv(g, c, core, tally, i, payloads);
      case Heartbeat(i, j) => HeartbeatKeepsInv(g, c, core, tally, i, j);
      case Deliver(k) => DeliverKeepsInv(g, c, core, tally, k);
      case Return(k) => ReturnKeepsInv(g, c, core, tally, k);
      case Fail(k) => FailKeepsInv(g, c, core, tally, k);
      case ApplyOne(i) => ApplyKeepsInv(g, c, core, tally, i);
      case Crash(i) => CrashKeepsInv(g, c, core, tally, i);
    }
  }

  lemma Shape(c: Cluster, core: Core, tally: Tally)
    requires Linked(c, core, tally)
    ensures |core.terms| == |core.logs|
  {
  }

  lemma {:induction false} RunKeepsInv(g: Guards, c: Cluster, core: Core, tally: Tally, acts: seq<Action>)
    requires Covers(g, core.scope)
    requires Linked(c, core, tally)
    ensures Next(core, After(g, c, acts))
    decreases |acts|
  {
    if acts == [] {
      MovesReflexive(core, 0);
      assert Grows(core, core);
    } else {
      StepKeepsInv(g, c, core, tally, acts[0]);
      var c1 := Step(g, c, acts[0]);
      var d: Core, t: Tally :| Grows(core, d) && Linked(c1, d, t);
      RunKeepsInv(g, c1, d, t, acts[1..]);
      var e: Core, u: Tally :| Grows(d, e) && Linked(After(g, c1, acts[1..]), e, u);
      GrowsTransitive(core, d, e);
    }
  }
}
