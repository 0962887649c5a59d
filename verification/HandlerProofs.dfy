/** Every handler, run on a server linked to a core, is a chain of core actions: it ends in a
    linked server, and what it sends and answers is right about the new core. */
module HandlerProofs {
  import opened RaftTypes
  import opened Quorum
  import opened Median
  import opened RaftCore
  import opened ServerSpec
  import opened ClusterInvariant

  ghost predicate SendOK(c: Core, s: Server, req: Request) {
    && RequestOK(c, req)
    && req.src == s.id && req.term == s.term
    && (req.AppendReq? ==> s.role == Leader)
  }

  // The handler's end state and messages fit the core.
  ghost predicate OutOK(c: Core, out: Out) {
    && ServerLink(c, out.s)
    && (forall x: nat {:trigger out.sends[x]} :: x < |out.sends| ==> SendOK(c, out.s, out.sends[x]))
  }

  // Nothing but the bookkeeping of peers has changed.
  ghost predicate OnlyPeers(s: Server, r: Server) {
    |r.peers| == |s.peers| && r == s.(peers := r.peers)
  }

  ghost predicate AppendsOnly(reqs: seq<Request>) {
    forall x: nat {:trigger reqs[x]} :: x < |reqs| ==> reqs[x].AppendReq?
  }

  // ---------------------------------------------------------------- changing parts of a server

  lemma HistorySameLog(c: Core, s: Server, r: Server)
    requires HistoryOK(c, s)
    requires r.delivered == s.delivered && r.commitIdx == s.commitIdx
    requires r.bootCommit == s.bootCommit && r.bootMark == s.bootMark
    requires c.scope.Commits? ==> s.commitIdx <= |r.log| && s.log[..s.commitIdx] == r.log[..s.commitIdx]
    ensures HistoryOK(c, r)
  {
    if !c.scope.Commits? { return; }
    forall x: nat | x < r.commitIdx - r.bootCommit ensures InOrder(r, x) {
      assert InOrder(s, x);
      assert s.log[..s.commitIdx][s.bootCommit + x] == r.log[..s.commitIdx][s.bootCommit + x];
    }
    forall x: nat | x < |r.delivered| ensures DeliveryOK(c, r.delivered[x]) {
      assert DeliveryOK(c, s.delivered[x]);
    }
  }

  lemma LinkWithPeers(c: Core, s: Server, r: Server)
    requires ServerLink(c, s) && OnlyPeers(s, r)
    requires forall j: nat :: j < |r.peers| ==> r.peers[j] == s.peers[j] || PeerOK(c, r, j)
    ensures ServerLink(c, r)
  {
    HistorySameLog(c, s, r);
    forall j: nat | j < |r.peers| ensures PeerOK(c, r, j) {
      assert PeerOK(c, s, j);
    }
  }

  // ---------------------------------------------------------------- sending entries

  lemma CreateAppendOK(c: Core, s: Server, j: nat)
    requires CoreInv(c) && ServerLink(c, s) && s.role == Leader && j < |s.peers| && j != s.id
    ensures OutOK(c, CreateAppend(s, j)) && OnlyPeers(s, CreateAppend(s, j).s)
    ensures AppendsOnly(CreateAppend(s, j).sends)
  {
    assert PeerOK(c, s, j);
    assert ReignOK(c, s.term);
    var out := CreateAppend(s, j);
    var prev := s.peers[j].next - 1;
    var m := Min(|s.log|, prev + s.maxAppend);
    assert PeerOK(c, out.s, j);
    LinkWithPeers(c, s, out.s);
    var req := AppendReq(s.term, s.id, j, TermAt(s.log, prev), prev, s.quickCommit, s.log[prev..m]);
    assert out.sends == [req];
    assert RequestOK(c, req);
  }

  lemma JoinSends(c: Core, a: Out, b: Out)
    requires OutOK(c, a) && OutOK(c, b) && OnlyPeers(a.s, b.s)
    requires AppendsOnly(a.sends) && AppendsOnly(b.sends)
    ensures OutOK(c, Out(b.s, a.sends + b.sends)) && AppendsOnly(a.sends + b.sends)
  {
    var r := a.sends + b.sends;
    forall x: nat | x < |r| ensures SendOK(c, b.s, r[x]) && r[x].AppendReq? {
      if x < |a.sends| {
        assert r[x] == a.sends[x];
        assert SendOK(c, a.s, a.sends[x]);
      } else {
        assert r[x] == b.sends[x - |a.sends|];
      }
    }
  }

  lemma RequestAppendOK(c: Core, s: Server, j: nat)
    requires CoreInv(c) && ServerLink(c, s) && s.role == Leader && j < |s.peers| && j != s.id
    ensures OutOK(c, RequestAppend(s, j)) && OnlyPeers(s, RequestAppend(s, j).s)
    ensures AppendsOnly(RequestAppend(s, j).sends)
  {
    if !s.peers[j].busy {
      CreateAppendOK(c, s, j);
    }
  }

  lemma {:induction false} RequestAppendFromOK(c: Core, s: Server, j: nat)
    requires CoreInv(c) && ServerLink(c, s) && s.role == Leader && j <= |s.peers|
    ensures OutOK(c, RequestAppendFrom(s, j)) && OnlyPeers(s, RequestAppendFrom(s, j).s)
    ensures AppendsOnly(RequestAppendFrom(s, j).sends)
    decreases |s.peers| - j
  {
    hide RequestAppend, ServerLink, SendOK, CoreInv;
    if j == |s.peers| {
    } else if j == s.id {
      RequestAppendFromOK(c, s, j + 1);
    } else {
      RequestAppendOK(c, s, j);
      var a := RequestAppend(s, j);
      RequestAppendFromOK(c, a.s, j + 1);
      JoinSends(c, a, RequestAppendFrom(a.s, j + 1));
    }
  }

  lemma MarkPendingOK(c: Core, s: Server, j: nat, pending: bool)
    requires ServerLink(c, s) && j < |s.peers|
    ensures ServerLink(c, SetPeer(s, j, s.peers[j].(pending := pending)))
  {
    var r := SetPeer(s, j, s.peers[j].(pending := pending));
    assert PeerOK(c, s, j);
    assert PeerOK(c, r, j);
    LinkWithPeers(c, s, r);
  }

  lemma {:induction false} NotifyFromOK(c: Core, s: Server, j: nat)
    requires CoreInv(c) && ServerLink(c, s) && s.role == Leader && j <= |s.peers|
    ensures OutOK(c, NotifyFrom(s, j)) && OnlyPeers(s, NotifyFrom(s, j).s)
    ensures AppendsOnly(NotifyFrom(s, j).sends)
    decreases |s.peers| - j
  {
    hide RequestAppend, ServerLink, SendOK, CoreInv;
    if j == |s.peers| {
    } else if j == s.id {
      NotifyFromOK(c, s, j + 1);
    } else if s.peers[j].busy {
      MarkPendingOK(c, s, j, true);
      NotifyFromOK(c, SetPeer(s, j, s.peers[j].(pending := true)), j + 1);
    } else {
      RequestAppendOK(c, s, j);
      var a := RequestAppend(s, j);
      NotifyFromOK(c, a.s, j + 1);
      JoinSends(c, a, NotifyFrom(a.s, j + 1));
    }
  }

  ghost predicate MayRaise(c: Core, s: Server, target: nat) {
    c.scope.Commits? && target > s.quickCommit ==> target <= |s.log| && CommittedLog(c, s.log[..target], s.term)
  }

  lemma CommitRaises(c: Core, s: Server, target: nat)
    requires CoreInv(c) && ServerLink(c, s) && MayRaise(c, s, target)
    ensures OutOK(c, Commit(s, target)) && AppendsOnly(Commit(s, target).sends)
    ensures var r := Commit(s, target).s;
            r == s.(peers := r.peers, quickCommit := r.quickCommit)
  {
    if target > s.quickCommit {
      var s1 := s.(quickCommit := target);
      HistorySameLog(c, s, s1);
      forall j: nat | j < |s1.peers| ensures PeerOK(c, s1, j) {
        assert PeerOK(c, s, j);
      }
      if s1.role == Leader {
        NotifyFromOK(c, s1, 0);
      }
    }
  }

  // In a cluster of one the whole log is committed.
  lemma SoleServerCommits(c: Core, s: Server)
    requires CoreInv(c) && ServerLink(c, s) && s.role == Leader && |s.peers| == 1
    ensures MayRaise(c, s, |s.log|)
  {
    if s.log != [] {
      assert ReignOK(c, s.term);
      assert AckQuorum(c, s.term, |s.log|, {0});
      assert CommittedAs(c, s.log, s.term, |s.log|);
      assert s.log[..|s.log|] == s.log;
    }
  }

  lemma RequestAppendAllOK(c: Core, s: Server)
    requires CoreInv(c) && ServerLink(c, s) && s.role == Leader
    ensures OutOK(c, RequestAppendAll(s)) && AppendsOnly(RequestAppendAll(s).sends)
    ensures var r := RequestAppendAll(s).s;
            r == s.(peers := r.peers, quickCommit := r.quickCommit)
  {
    if |s.peers| == 1 {
      SoleServerCommits(c, s);
      CommitRaises(c, s, |s.log|);
    } else {
      RequestAppendFromOK(c, s, 0);
    }
  }

  // ---------------------------------------------------------------- terms

  lemma UpdateTermOK(c: Core, s: Server, t: nat) returns (d: Core)
    requires CoreInv(c) && ServerLink(c, s)
    ensures CoreInv(d) && Moves(c, d, s.id) && ServerLink(d, UpdateTerm(s, t))
    ensures t <= s.term ==> d == c
  {
    if t <= s.term {
      d := c;
      MovesReflexive(c, s.id);
    } else {
      d := Raise(c, s.id, t);
      RaiseKeepsInv(c, s.id, t);
      var r := UpdateTerm(s, t);
      assert (s.id, t) in c.votes ==> BallotOK(c, s.id, t);
      assert t in c.leaders ==> ReignOK(c, t);
      CommittedLogStays(c, d, Known(s), s.term, t);
      HistoryStays(c, d, s);
      HistorySameLog(d, s, r);
      forall j: nat | j < |r.peers| ensures PeerOK(d, r, j) { }
    }
  }

  // ---------------------------------------------------------------- elections

  lemma StandOK(c: Core, s: Server) returns (d: Core)
    requires CoreInv(c) && ServerLink(c, s) && s.role != Leader
    ensures d == Campaign(c, s.id)
    ensures CoreInv(d) && Moves(c, d, s.id) && ServerLink(d, StandForElection(s))
    ensures s.term + 1 in d.leaders ==> d.leaders[s.term + 1].id != s.id
  {
    d := Campaign(c, s.id);
    CampaignKeepsInv(c, s.id);
    var r := StandForElection(s);
    assert r.term in c.leaders ==> ReignOK(c, r.term);
    CommittedLogStays(c, d, Known(s), s.term, r.term);
    HistoryStays(c, d, s);
    HistorySameLog(d, s, r);
    forall j: nat | j < |r.peers| ensures PeerOK(d, r, j) { }
  }

  lemma FlagsOK(c: Core, s: Server, r: Server)
    requires ServerLink(c, s) && !r.halted
    requires r == s.(timerOn := r.timerOn, granted := r.granted, responded := r.responded,
                     electionDone := r.electionDone, leader := r.leader)
    requires s.role == Leader ==> !r.timerOn
    requires s.electionDone ==> r.electionDone
    ensures ServerLink(c, r)
  {
    HistorySameLog(c, s, r);
    forall j: nat | j < |r.peers| ensures PeerOK(c, r, j) {
      assert PeerOK(c, s, j);
    }
  }

  lemma {:induction false} VoteRequestsOK(c: Core, s: Server, j: nat)
    requires ServerLink(c, s) && j <= |s.peers|
    requires VotedFor(c, s.id, s.term, s.id) && c.votes[(s.id, s.term)].candLog == s.log
    ensures forall x: nat {:trigger VoteRequestsFrom(s, j)[x]} :: x < |VoteRequestsFrom(s, j)| ==>
              var req := VoteRequestsFrom(s, j)[x];
              SendOK(c, s, req) && req.VoteReq? && req.dst >= j
    ensures forall x: nat, y: nat {:trigger VoteRequestsFrom(s, j)[x], VoteRequestsFrom(s, j)[y]} ::
              x < y < |VoteRequestsFrom(s, j)| ==> VoteRequestsFrom(s, j)[x].dst != VoteRequestsFrom(s, j)[y].dst
    decreases |s.peers| - j
  {
    if j < |s.peers| {
      VoteRequestsOK(c, s, j + 1);
      if j != s.id {
        var r := VoteRequestsFrom(s, j);
        var rest := VoteRequestsFrom(s, j + 1);
        assert r == [r[0]] + rest;
        assert forall x: nat :: 1 <= x < |r| ==> r[x] == rest[x - 1];
      }
    }
  }

  // The winner takes office: the election, then the first entry if this server has no
  // configuration in its log yet.
  lemma TakeOfficeOK(g: Guards, c: Core, s: Server, q: set<nat>) returns (d: Core)
    requires CoreInv(c) && ServerLink(c, s) && s.electionDone
    requires c.scope.Peers? || c.scope.Commits? ==> g.resetMatched
    requires s.term !in c.leaders && Majority(q, |c.terms|)
    requires VotedFor(c, s.id, s.term, s.id) && forall v :: v in q ==> VotedFor(c, v, s.term, s.id)
    ensures CoreInv(d) && Moves(c, d, s.id) && ServerLink(d, TakeOffice(g, s))
  {
    var e := Elect(c, s.id, q);
    ElectKeepsInv(c, s.id, q);
    var r := TakeOffice(g, s);
    var conf := Entry(s.term, Conf(|s.log| + 1));
    if s.configIdx == 0 {
      d := LeaderAppend(e, s.id, conf);
      AppendKeepsInv(e, s.id, conf);
      GrowsTransitive(c, e, d);
    } else {
      d := e;
    }
    if c.scope.Commits? {
      assert r.log[..s.quickCommit] == s.log[..s.quickCommit];
      assert r.log[..s.commitIdx] == s.log[..s.commitIdx];
    }
    CommittedLogStays(c, d, Known(s), s.term, s.term);
    HistoryStays(c, d, s);
    HistorySameLog(d, s, r);
    forall j: nat | j < |r.peers| ensures PeerOK(d, r, j) { }
  }

  lemma BecomeLeaderOK(g: Guards, c: Core, s: Server, q: set<nat>) returns (d: Core)
    requires CoreInv(c) && ServerLink(c, s) && s.electionDone
    requires c.scope.Peers? || c.scope.Commits? ==> g.resetMatched
    requires s.term !in c.leaders && Majority(q, |c.terms|)
    requires VotedFor(c, s.id, s.term, s.id) && forall v :: v in q ==> VotedFor(c, v, s.term, s.id)
    ensures CoreInv(d) && Moves(c, d, s.id) && OutOK(d, BecomeLeader(g, s))
    ensures AppendsOnly(BecomeLeader(g, s).sends)
    ensures var r := BecomeLeader(g, s).s;
            r.role == Leader && r.term == s.term && r.id == s.id && r.epoch == s.epoch && r.granted == s.granted
  {
    d := TakeOfficeOK(g, c, s, q);
    RequestAppendAllOK(d, TakeOffice(g, s));
  }

  // ---------------------------------------------------------------- requests

  // Who the server is, its term and the votes it has counted, before and after a handler.
  ghost predicate SameStanding(s: Server, r: Server) {
    && r.id == s.id && r.term == s.term && r.epoch == s.epoch && r.granted == s.granted
    && (s.role == Leader ==> r.role == Leader)
  }

  // A server that gave its vote, or gave it before.
  lemma GrantOK(c: Core, s: Server, cand: nat) returns (d: Core)
    requires CoreInv(c) && ServerLink(c, s) && cand != s.id && VotedFor(c, cand, s.term, cand)
    requires var log := c.votes[(cand, s.term)].candLog; UpToDate(LastTerm(log), |log|, s.log)
    requires s.votedFor == None || s.votedFor == Some(cand)
    ensures CoreInv(d) && Moves(c, d, s.id) && VotedFor(d, s.id, s.term, cand)
    ensures ServerLink(d, s.(votedFor := Some(cand)))
  {
    hide CoreInv, UpToDate, LastTerm;
    var r := s.(votedFor := Some(cand));
    if s.votedFor == None {
      d := Grant(c, s.id, cand);
      GrantKeepsInv(c, s.id, cand);
      CommittedLogStays(c, d, Known(s), s.term, s.term);
      HistoryStays(c, d, s);
    } else {
      d := c;
      MovesReflexive(c, s.id);
    }
    HistorySameLog(d, s, r);
    forall j: nat | j < |r.peers| ensures PeerOK(d, r, j) {
      assert PeerOK(c, s, j);
      PeerStaysOK(c, d, s, j);
    }
  }

  lemma SavedOK(c: Core, s: Server)
    requires ServerLink(c, s)
    ensures ServerLink(c, SaveState(s))
  {
    var r := SaveState(s);
    HistorySameLog(c, s, r);
    forall j: nat | j < |r.peers| ensures PeerOK(c, r, j) {
      assert PeerOK(c, s, j);
    }
  }

  lemma HandleVoteReqOK(c: Core, s: Server, req: Request) returns (d: Core)
    requires CoreInv(c) && ServerLink(c, s) && RequestOK(c, req) && req.VoteReq? && req.dst == s.id
    ensures CoreInv(d) && Moves(c, d, s.id)
    ensures var ans := HandleVoteReq(s, req);
            OutOK(d, ans.out) && ans.resp.Some? && ReplyOK(d, req, ans.resp.value)
            && AppendsOnly(ans.out.sends) && SameStanding(s, ans.out.s)
  {
    hide CoreInv, UpToDate, LastTerm;
    if HandleVoteReq(s, req).resp.value.accepted {
      d := GrantOK(c, s, req.src);
      SavedOK(d, s.(votedFor := Some(req.src)));
    } else {
      d := c;
      MovesReflexive(c, s.id);
    }
  }

  lemma MergeKeepsKnown(c: Core, s: Server, p: nat, m: nat)
    requires CoreInv(c) && ServerLink(c, s) && CanReplicate(c, s.id, p, m) && c.scope.Commits?
    ensures var log := Replicate(c, s.id, p, m).logs[s.id];
            && s.quickCommit <= |log| && log[..s.quickCommit] == s.log[..s.quickCommit]
            && log[..s.commitIdx] == s.log[..s.commitIdx]
  {
    hide Merge, Agreeing, PeerOK;
    ReplicateMerges(c, s.id, p, m);
    var log := Replicate(c, s.id, p, m).logs[s.id];
    var known := s.log[..s.quickCommit];
    CommittedLogReachesLeader(c, known, s.term, s.term);
    assert c.leaders[s.term].log[..s.quickCommit] == known;
    assert log[..s.quickCommit] == known;
    assert known[..s.commitIdx] == s.log[..s.commitIdx] == log[..s.commitIdx];
  }

  // The follower's log after a merge still starts with everything it knows to be committed.
  lemma MergedServerOK(c: Core, s: Server, p: nat, m: nat)
    requires CoreInv(c) && ServerLink(c, s) && s.role == Follower && CanReplicate(c, s.id, p, m)
    ensures var d := Replicate(c, s.id, p, m);
            CoreInv(d) && Moves(c, d, s.id) && ServerLink(d, s.(log := d.logs[s.id]))
  {
    var d := Replicate(c, s.id, p, m);
    ReplicateKeepsInv(c, s.id, p, m);
    var r := s.(log := d.logs[s.id]);
    if c.scope.Commits? { MergeKeepsKnown(c, s, p, m); }
    CommittedLogStays(c, d, Known(s), s.term, s.term);
    HistoryStays(c, d, s);
    HistorySameLog(d, s, r);
    forall j: nat | j < |r.peers| ensures PeerOK(d, r, j) { }
  }

  // The server's log begins as the leader's does up to the end of the request.
  ghost predicate Holds(c: Core, s: Server, req: Request)
    requires req.AppendReq? && RequestOK(c, req)
  {
    var m := req.prevIdx + |req.entries|;
    c.scope.Elections? || (m <= |s.log| && s.log[..m] == c.leaders[req.term].log[..m])
  }

  // The commit index a follower takes, clamped to the request, is known to be committed.
  lemma TargetIsCommitted(g: Guards, c: Core, s: Server, req: Request)
    requires c.scope.Commits? ==> g.clampCommit
    requires req.AppendReq? && RequestOK(c, req) && req.term == s.term && Holds(c, s, req)
    ensures MayRaise(c, s, CommitTarget(g, req))
  {
    if !c.scope.Commits? { return; }
    var m := req.prevIdx + |req.entries|;
    var target := CommitTarget(g, req);
    var log := c.leaders[req.term].log;
    CommittedLogPrefix(c, log[..req.commit], s.term, target);
    assert log[..req.commit][..target] == log[..m][..target] == s.log[..m][..target] == s.log[..target];
  }

  lemma ReplicatedPrefix(c: Core, v: nat, p: nat, m: nat)
    requires CoreInv(c) && CanReplicate(c, v, p, m)
    ensures var d, t := Replicate(c, v, p, m), c.terms[v];
            && (c.scope.Elections? || (m <= |d.logs[v]| && d.logs[v][..m] == c.leaders[t].log[..m]))
            && d.leaders == c.leaders && Acked(d, v, t, m)
  {
    if !c.scope.Elections? { ReplicateMerges(c, v, p, m); }
  }

  lemma AcceptanceIsReplication(c: Core, s: Server, req: Request)
    requires ServerLink(c, s) && s.role == Follower
    requires RequestOK(c, req) && req.AppendReq? && req.dst == s.id && req.term == s.term && LogOkay(s, req)
    ensures var m := req.prevIdx + |req.entries|;
            CanReplicate(c, s.id, req.prevIdx, m) &&
            Replicate(c, s.id, req.prevIdx, m).logs[s.id] == Merge(s.log, req.prevIdx, req.entries)
  {
  }

  lemma AcceptEntriesOK(c: Core, s: Server, req: Request) returns (d: Core)
    requires CoreInv(c) && ServerLink(c, s) && s.role == Follower
    requires RequestOK(c, req) && req.AppendReq? && req.dst == s.id && req.term == s.term && LogOkay(s, req)
    ensures CoreInv(d) && Moves(c, d, s.id) && RequestOK(d, req)
    ensures var r := s.(log := Merge(s.log, req.prevIdx, req.entries));
            var m := req.prevIdx + |req.entries|;
            && ServerLink(d, r) && Holds(d, r, req) && Acked(d, s.id, req.term, m)
  {
    hide Merge, CoreInv;
    var m := req.prevIdx + |req.entries|;
    AcceptanceIsReplication(c, s, req);
    d := Replicate(c, s.id, req.prevIdx, m);
    MergedServerOK(c, s, req.prevIdx, m);
    ReplicatedPrefix(c, s.id, req.prevIdx, m);
    RequestStaysOK(c, d, req);
  }

  // A follower that holds the request's entries takes over its commit index.
  lemma AcceptedCommit(g: Guards, d: Core, s: Server, req: Request)
    requires CoreInv(d) && ServerLink(d, s) && s.role == Follower && (d.scope.Commits? ==> g.clampCommit)
    requires RequestOK(d, req) && req.AppendReq? && req.term == s.term && Holds(d, s, req)
    ensures OutOK(d, Commit(s.(leader := Some(req.src)), CommitTarget(g, req)))
  {
    var r := s.(leader := Some(req.src));
    FlagsOK(d, s, r);
    TargetIsCommitted(g, d, r, req);
    CommitRaises(d, r, CommitTarget(g, req));
  }

  lemma FollowerCommit(s: Server, target: nat)
    requires s.role != Leader
    ensures var out := Commit(s, target);
            out.sends == [] && SameStanding(s, out.s)
  {
  }

  // A leader never receives a request to append of its own term.
  lemma AsFollowerOK(c: Core, s: Server, req: Request)
    requires CoreInv(c) && ServerLink(c, s) && RequestOK(c, req) && req.AppendReq? && req.dst == s.id
    ensures req.term == s.term ==> s.role != Leader
    ensures req.term == s.term ==>
              var s1 := if s.role == Candidate then BecomeFollower(s) else s.(timerOn := true);
              ServerLink(c, s1) && s1.role == Follower
  {
    if req.term == s.term {
      var s1 := if s.role == Candidate then BecomeFollower(s) else s.(timerOn := true);
      HistorySameLog(c, s, s1);
      forall j: nat | j < |s1.peers| ensures PeerOK(c, s1, j) {
        assert PeerOK(c, s, j);
      }
    }
  }

  lemma HandleAppendReqOK(g: Guards, c: Core, s: Server, req: Request) returns (d: Core)
    requires CoreInv(c) && ServerLink(c, s) && (c.scope.Commits? ==> g.clampCommit)
    requires RequestOK(c, req) && req.AppendReq? && req.dst == s.id && req.term <= s.term
    ensures CoreInv(d) && Moves(c, d, s.id)
    ensures var ans := HandleAppendReq(g, s, req);
            OutOK(d, ans.out) && ans.resp.Some? && ReplyOK(d, req, ans.resp.value)
            && AppendsOnly(ans.out.sends) && SameStanding(s, ans.out.s)
  {
    hide Merge, Agreeing, Commit, CoreInv;
    d := c;
    MovesReflexive(c, s.id);
    var s1 := if req.term != s.term then s
              else if s.role == Candidate then BecomeFollower(s) else s.(timerOn := true);
    AsFollowerOK(c, s, req);
    if req.term == s.term && LogOkay(s1, req) {
      var s2 := s1.(log := Merge(s1.log, req.prevIdx, req.entries), leader := Some(req.src));
      FollowerCommit(s2, CommitTarget(g, req));
      d := AcceptEntriesOK(c, s1, req);
      AcceptedCommit(g, d, s1.(log := s2.log), req);
      assert s1.(log := s2.log).(leader := Some(req.src)) == s2;
    }
  }

  lemma ProcessReqOK(g: Guards, c: Core, s: Server, req: Request) returns (d: Core)
    requires CoreInv(c) && ServerLink(c, s) && RequestOK(c, req) && req.dst == s.id
    requires c.scope.Commits? ==> g.clampCommit
    ensures CoreInv(d) && Moves(c, d, s.id)
    ensures var ans := ProcessReq(g, s, req);
            OutOK(d, ans.out) && ans.resp.Some? && ReplyOK(d, req, ans.resp.value)
            && AppendsOnly(ans.out.sends) && SameStanding(UpdateTerm(s, req.term), ans.out.s)
  {
    var e := UpdateTermOK(c, s, req.term);
    RequestStaysOK(c, e, req);
    var s1 := UpdateTerm(s, req.term);
    if req.VoteReq? {
      d := HandleVoteReqOK(e, s1, req);
    } else {
      d := HandleAppendReqOK(g, e, s1, req);
    }
    MovesTransitive(c, e, d, s.id);
  }

  // ---------------------------------------------------------------- client entries

  lemma {:induction false} ClientAppendOK(c: Core, s: Server, t: nat, payloads: seq<int>) returns (d: Core)
    requires CoreInv(c) && ServerLink(c, s) && s.role == Leader && (c.scope.Elections? || t == s.term)
    ensures CoreInv(d) && Moves(c, d, s.id)
    ensures ServerLink(d, s.(log := s.log + Stamped(t, payloads)))
    decreases |payloads|
  {
    if payloads == [] {
      d := c;
      MovesReflexive(c, s.id);
      assert s.log + Stamped(t, payloads) == s.log;
    } else {
      var e := Entry(t, App(payloads[0]));
      var c1 := AppendedServerOK(c, s, e);
      var s1 := s.(log := s.log + [e]);
      d := ClientAppendOK(c1, s1, t, payloads[1..]);
      MovesTransitive(c, c1, d, s.id);
      assert Stamped(t, payloads) == [e] + Stamped(t, payloads[1..]);
      assert s.log + Stamped(t, payloads) == s1.log + Stamped(t, payloads[1..]);
    }
  }

  lemma AppendedServerOK(c: Core, s: Server, e: Entry) returns (d: Core)
    requires CoreInv(c) && ServerLink(c, s) && s.role == Leader && MayAdd(c, s.id, e)
    ensures CoreInv(d) && Moves(c, d, s.id) && ServerLink(d, s.(log := s.log + [e]))
  {
    d := LeaderAppend(c, s.id, e);
    AppendKeepsInv(c, s.id, e);
    var r := s.(log := s.log + [e]);
    if c.scope.Commits? {
      assert r.log[..s.quickCommit] == s.log[..s.quickCommit];
      assert r.log[..s.commitIdx] == s.log[..s.commitIdx];
    }
    CommittedLogStays(c, d, Known(s), s.term, s.term);
    HistoryStays(c, d, s);
    HistorySameLog(d, s, r);
    forall j: nat | j < |r.peers| ensures PeerOK(d, r, j) {
      assert PeerOK(c, s, j);
      PeerStaysOK(c, d, s, j);
    }
  }

  lemma HandleClientReqOK(g: Guards, c: Core, s: Server, payloads: seq<int>) returns (d: Core)
    requires CoreInv(c) && ServerLink(c, s) && (c.scope.Elections? || g.stampClient)
    ensures CoreInv(d) && Moves(c, d, s.id) && OutOK(d, HandleClientReq(g, s, payloads))
    ensures AppendsOnly(HandleClientReq(g, s, payloads).sends)
    ensures var r := HandleClientReq(g, s, payloads).s;
            r.role == s.role && r.id == s.id && r.term == s.term && r.epoch == s.epoch && r.granted == s.granted
  {
    if s.role != Leader {
      d := c;
      MovesReflexive(c, s.id);
    } else {
      var t := if g.stampClient then s.term else CLIENT_TERM;
      d := ClientAppendOK(c, s, t, payloads);
      RequestAppendAllOK(d, s.(log := s.log + Stamped(t, payloads)));
    }
  }

  // ---------------------------------------------------------------- responses

  // Commit evidence: the servers at or beyond the median stored the leader's log up to it.
  lemma MedianIsCommitted(c: Core, s: Server)
    requires CoreInv(c) && ServerLink(c, s) && s.role == Leader
    requires MedianOf(Matches(s)) <= |s.log| && TermAt(s.log, MedianOf(Matches(s))) == s.term
    ensures CommittedLog(c, s.log[..MedianOf(Matches(s))], s.term)
  {
    var ms := Matches(s);
    var m := MedianOf(ms);
    if m > 0 && c.scope.Commits? {
      assert ReignOK(c, s.term);
      var q := HoldersOf(ms, m);
      MedianIsMajority(ms, m);
      HoldersCount(ms, m);
      forall v | v in q ensures Acked(c, v, s.term, m) {
        assert PeerOK(c, s, v);
      }
      assert AckQuorum(c, s.term, m, q);
      assert CommittedAs(c, s.log[..m], s.term, m);
    }
  }

  lemma CommitMedianOK(g: Guards, c: Core, s: Server)
    requires CoreInv(c) && ServerLink(c, s) && s.role == Leader && (c.scope.Commits? ==> g.ownTerm)
    ensures OutOK(c, CommitMedian(g, s)) && AppendsOnly(CommitMedian(g, s).sends)
    ensures var r := CommitMedian(g, s).s;
            r == s.(peers := r.peers, quickCommit := r.quickCommit)
  {
    if MayCommit(g, s, MedianOf(Matches(s))) {
      if c.scope.Commits? { MedianIsCommitted(c, s); }
      CommitRaises(c, s, MedianOf(Matches(s)));
    }
  }

  lemma NotePeerMatchOK(g: Guards, c: Core, s: Server, resp: Response)
    requires CoreInv(c) && ServerLink(c, s) && s.role == Leader && (c.scope.Commits? ==> g.ownTerm)
    requires resp.src < |s.peers| && resp.src != s.id && resp.accepted && resp.next >= 1
    requires Acked(c, resp.src, s.term, resp.next - 1)
    ensures OutOK(c, NotePeerMatch(g, s, resp)) && AppendsOnly(NotePeerMatch(g, s, resp).sends)
    ensures var r := NotePeerMatch(g, s, resp).s;
            r == s.(peers := r.peers, quickCommit := r.quickCommit)
  {
    var j := resp.src;
    var s1 := SetPeer(s, j, s.peers[j].(next := resp.next, matched := Dec(resp.next)));
    assert ReignOK(c, s.term);
    assert (j, s.term) in c.acks ==> AckOK(c, j, s.term);
    assert PeerOK(c, s1, j);
    LinkWithPeers(c, s, s1);
    CommitMedianOK(g, c, s1);
  }

  lemma HandleAcceptedOK(g: Guards, c: Core, s: Server, resp: Response)
    requires CoreInv(c) && ServerLink(c, s) && s.role == Leader && (c.scope.Commits? ==> g.ownTerm)
    requires resp.src < |s.peers| && resp.src != s.id && resp.accepted && resp.next >= 1
    requires Acked(c, resp.src, s.term, resp.next - 1)
    ensures OutOK(c, HandleAppendResp(g, s, resp)) && AppendsOnly(HandleAppendResp(g, s, resp).sends)
    ensures var r := HandleAppendResp(g, s, resp).s;
            r == s.(peers := r.peers, quickCommit := r.quickCommit)
  {
    NotePeerMatchOK(g, c, s, resp);
    var a := NotePeerMatch(g, s, resp);
    var j := resp.src;
    var s1 := SetPeer(a.s, j, a.s.peers[j].(pending := false));
    MarkPendingOK(c, a.s, j, false);
    var a1 := Out(s1, a.sends);
    assert OutOK(c, a1) by {
      forall x: nat | x < |a1.sends| ensures SendOK(c, s1, a1.sends[x]) {
        assert SendOK(c, a.s, a.sends[x]);
      }
    }
    RequestAppendOK(c, s1, j);
    JoinSends(c, a1, RequestAppend(s1, j));
  }

  // A leader that backs off to index 0 starts again from the end of its log.
  lemma BackOffOK(c: Core, s: Server, j: nat, next: nat)
    requires CoreInv(c) && ServerLink(c, s) && s.role == Leader
    requires j < |s.peers| && j != s.id && !s.peers[j].busy && next <= |s.log| + 1
    ensures var s1 := SetPeer(s, j, s.peers[j].(next := next));
            && OutOK(c, RequestAppend(s1, j)) && AppendsOnly(RequestAppend(s1, j).sends)
            && OnlyPeers(s, RequestAppend(s1, j).s)
  {
    assert PeerOK(c, s, j);
    var s1 := SetPeer(s, j, s.peers[j].(next := next));
    var s2 := SetPeer(s, j, s.peers[j].(next := if next == 0 then |s.log| + 1 else next));
    assert PeerOK(c, s2, j);
    LinkWithPeers(c, s, s2);
    CreateAppendOK(c, s2, j);
    assert CreateAppend(s1, j).s.peers == CreateAppend(s2, j).s.peers;
    assert CreateAppend(s1, j) == CreateAppend(s2, j);
  }

  lemma HandleRejectedOK(g: Guards, c: Core, s: Server, resp: Response)
    requires CoreInv(c) && ServerLink(c, s)
    requires resp.src < |s.peers| && resp.src != s.id && !s.peers[resp.src].busy
    requires !resp.accepted && resp.next >= 1
    ensures OutOK(c, HandleAppendResp(g, s, resp)) && AppendsOnly(HandleAppendResp(g, s, resp).sends)
    ensures OnlyPeers(s, HandleAppendResp(g, s, resp).s)
  {
    var j := resp.src;
    var p := s.peers[j];
    assert PeerOK(c, s, j);
    var next := SteppedBack(p.next, resp.next);
    if s.role == Leader {
      BackOffOK(c, s, j, next);
    } else {
      var s1 := SetPeer(s, j, p.(next := next));
      assert PeerOK(c, s1, j);
      LinkWithPeers(c, s, s1);
    }
  }

  lemma FreePeerOK(c: Core, s: Server, req: Request)
    requires ServerLink(c, s) && req.dst < |s.peers|
    ensures ServerLink(c, FreePeer(s, req)) && OnlyPeers(s, FreePeer(s, req))
  {
    var r := FreePeer(s, req);
    assert PeerOK(c, s, req.dst);
    assert PeerOK(c, r, req.dst);
    LinkWithPeers(c, s, r);
  }

  // ---------------------------------------------------------------- applying and restarting

  lemma ApplyNextOK(c: Core, s: Server)
    requires CoreInv(c) && ServerLink(c, s) && CanApply(s)
    ensures ServerLink(c, ApplyNext(s))
  {
    hide ApplyNext, HistoryOK;
    var r := ApplyNext(s);
    AppliedFields(s);
    AppliedHistory(c, s);
    forall j: nat | j < |r.peers| ensures PeerOK(c, r, j) {
      assert PeerOK(c, s, j);
    }
  }

  lemma AppliedHistory(c: Core, s: Server)
    requires ServerLink(c, s) && CanApply(s)
    ensures HistoryOK(c, ApplyNext(s))
  {
    hide ServerLink;
    if c.scope.Commits? {
      assert HistoryOK(c, s) && CommitOK(c, s) by { LinkHistory(c, s); }
      NextIsCommitted(c, s);
      AppliedFields(s);
      AppliedInOrder(c, s);
      AppliedDeliveries(c, s);
    }
  }

  lemma LinkHistory(c: Core, s: Server)
    requires ServerLink(c, s)
    ensures HistoryOK(c, s) && CommitOK(c, s)
  {
  }

  lemma AppliedFields(s: Server)
    requires CanApply(s)
    ensures var r := ApplyNext(s);
            && r.delivered == s.delivered + [Delivery(s.commitIdx + 1, s.log[s.commitIdx])]
            && r.commitIdx == s.commitIdx + 1
            && (r.savedCommit == s.savedCommit || r.savedCommit == r.commitIdx)
            && r == s.(delivered := r.delivered, commitIdx := r.commitIdx, savedCommit := r.savedCommit,
                       configIdx := r.configIdx, savedConfigIdx := r.savedConfigIdx)
  {
  }

  lemma AppliedInOrder(c: Core, s: Server)
    requires c.scope.Commits? && HistoryOK(c, s) && CanApply(s)
    ensures var r := ApplyNext(s);
            forall x: nat {:trigger InOrder(r, x)} :: x < r.commitIdx - r.bootCommit ==> InOrder(r, x)
  {
    hide ApplyNext, DeliveryOK;
    AppliedFields(s);
    var r := ApplyNext(s);
    forall x: nat | x < r.commitIdx - r.bootCommit ensures InOrder(r, x) {
      assert x < s.commitIdx - s.bootCommit ==> InOrder(s, x);
    }
  }

  lemma AppliedDeliveries(c: Core, s: Server)
    requires c.scope.Commits? && HistoryOK(c, s) && CanApply(s)
    requires DeliveryOK(c, Delivery(s.commitIdx + 1, s.log[s.commitIdx]))
    ensures var r := ApplyNext(s);
            forall x: nat {:trigger DeliveryOK(c, r.delivered[x])} ::
              x < |r.delivered| ==> DeliveryOK(c, r.delivered[x])
  {
    hide ApplyNext, DeliveryOK, InOrder;
    AppliedFields(s);
    var r := ApplyNext(s);
    forall x: nat | x < |r.delivered| ensures DeliveryOK(c, r.delivered[x]) {
      assert x < |s.delivered| ==> DeliveryOK(c, s.delivered[x]);
    }
  }

  lemma NextIsCommitted(c: Core, s: Server)
    requires ServerLink(c, s) && CanApply(s) && c.scope.Commits?
    ensures DeliveryOK(c, Delivery(s.commitIdx + 1, s.log[s.commitIdx]))
  {
    var known := s.log[..s.quickCommit];
    var t: nat, k: nat :| t <= s.term && CommittedAs(c, known, t, k);
    assert known[s.commitIdx] == c.leaders[t].log[..k][s.commitIdx];
    assert DeliveredFrom(c, Delivery(s.commitIdx + 1, s.log[s.commitIdx]), t, k);
  }

  lemma RestartOK(c: Core, s: Server)
    requires CoreInv(c) && ServerLink(c, s)
    ensures ServerLink(c, Restart(s))
  {
    var r := Restart(s);
    if c.scope.Commits? {
      CommittedLogPrefix(c, s.log[..s.quickCommit], s.term, s.savedCommit);
      assert s.log[..s.quickCommit][..s.savedCommit] == s.log[..s.savedCommit];
    }
    forall x: nat | c.scope.Commits? && x < |r.delivered| ensures DeliveryOK(c, r.delivered[x]) {
      assert DeliveryOK(c, s.delivered[x]);
    }
    forall j: nat | j < |r.peers| ensures PeerOK(c, r, j) { }
  }
}
