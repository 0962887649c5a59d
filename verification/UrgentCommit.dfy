/** The urgent commit is not lost: whenever a server leads, every peer either is marked for another
    request or was last sent one with the leader's current commit index. This holds of the code as
    it stands and of every guarded variant. */
module UrgentCommit {
  import opened RaftTypes
  import opened Median
  import opened ServerSpec
  import opened Cluster

  // The commit index in the last request to append from i to j.
  function Told(reqs: seq<Request>, i: nat, j: nat): Option<nat> {
    if reqs == [] then None
    else
      var q := reqs[|reqs| - 1];
      if q.AppendReq? && q.src == i && q.dst == j then Some(q.commit) else Told(reqs[..|reqs| - 1], i, j)
  }

  lemma {:induction false} ToldLater(a: seq<Request>, b: seq<Request>, i: nat, j: nat)
    ensures Told(a + b, i, j) == if Told(b, i, j).Some? then Told(b, i, j) else Told(a, i, j)
    decreases |b|
  {
    if b == [] {
      assert a + b == a;
    } else {
      assert (a + b)[..|a + b| - 1] == a + b[..|b| - 1];
      ToldLater(a, b[..|b| - 1], i, j);
    }
  }

  function Requests(rpcs: seq<Rpc>): (reqs: seq<Request>)
    ensures |reqs| == |rpcs|
  {
    seq(|rpcs|, k requires 0 <= k < |rpcs| => rpcs[k].req)
  }

  // Peer j knows, or will be asked again before it could miss, the leader's commit index.
  ghost predicate Reminded(s: Server, told: Option<nat>, j: nat) {
    s.role == Leader && !s.halted && j < |s.peers| && j != s.id ==> s.peers[j].pending || told == Some(s.quickCommit)
  }

  // ---------------------------------------------------------------- the loops that send

  lemma AskTells(s: Server, j: nat, x: nat)
    requires j < |s.peers| && x < |s.peers|
    ensures var out := RequestAppend(s, j);
            && |out.s.peers| == |s.peers| && out.s.id == s.id && out.s.role == s.role
                 && out.s.quickCommit == s.quickCommit
            && out.s.peers[x].pending == s.peers[x].pending && (x != j ==> out.s.peers[x].busy == s.peers[x].busy)
            && (s.halted ==> out.s.halted)
            && (out.s.halted || Told(out.sends, s.id, x) == if x == j
                 && !s.peers[j].busy then Some(s.quickCommit) else None)
  {
  }

  // From peer j on, every free peer is asked with the current commit index.
  lemma {:induction false} AskFromTells(s: Server, j: nat, x: nat)
    requires j <= |s.peers| && x < |s.peers| && x != s.id
    ensures var out := RequestAppendFrom(s, j);
            && out.s.id == s.id && out.s.role == s.role && out.s.quickCommit == s.quickCommit
            && out.s.peers[x].pending == s.peers[x].pending
            && (out.s.halted || Told(out.sends, s.id, x) == if j <= x
                 && !s.peers[x].busy then Some(s.quickCommit) else None)
    decreases |s.peers| - j
  {
    hide RequestAppend;
    if j < |s.peers| && !s.halted {
      if j == s.id {
        AskFromTells(s, j + 1, x);
      } else {
        var a := RequestAppend(s, j);
        AskTells(s, j, x);
        AskFromTells(a.s, j + 1, x);
        ToldLater(a.sends, RequestAppendFrom(a.s, j + 1).sends, s.id, x);
        if a.s.halted {
          assert RequestAppendFrom(a.s, j + 1) == Out(a.s, []);
        }
      }
    }
  }

  // From peer j on, every peer is asked or marked.
  lemma {:induction false} NotifyTells(s: Server, j: nat, x: nat)
    requires j <= |s.peers| && x < |s.peers| && x != s.id
    ensures var out := NotifyFrom(s, j);
            && out.s.id == s.id && out.s.role == s.role && out.s.quickCommit == s.quickCommit
            && (x < j ==> out.s.peers[x].pending == s.peers[x].pending)
            && (out.s.halted || j > x || out.s.peers[x].pending || Told(out.sends, s.id, x) == Some(s.quickCommit))
            && (out.s.halted || j <= x || Told(out.sends, s.id, x) == None)
            && (out.s.halted || s.peers[x].busy || !out.s.peers[x].busy
                 || Told(out.sends, s.id, x) == Some(s.quickCommit))
    decreases |s.peers| - j
  {
    hide RequestAppend;
    if j < |s.peers| && !s.halted {
      if j == s.id {
        NotifyTells(s, j + 1, x);
      } else if s.peers[j].busy {
        NotifyTells(SetPeer(s, j, s.peers[j].(pending := true)), j + 1, x);
      } else {
        var a := RequestAppend(s, j);
        AskTells(s, j, x);
        NotifyTells(a.s, j + 1, x);
        ToldLater(a.sends, NotifyFrom(a.s, j + 1).sends, s.id, x);
        if a.s.halted {
          assert NotifyFrom(a.s, j + 1) == Out(a.s, []);
        }
      }
    }
  }

  // ---------------------------------------------------------------- the handlers

  // What the network knows after a handler's requests.
  function ToldBy(told: Option<nat>, out: Out, x: nat): Option<nat> {
    if Told(out.sends, out.s.id, x).Some? then Told(out.sends, out.s.id, x) else told
  }

  // A free peer of a leader that was made busy was told just now.
  ghost predicate AskedIfBusy(s: Server, out: Out, x: nat)
    requires x < |s.peers| == |out.s.peers|
  {
    s.role == Leader && !out.s.halted && !s.peers[x].busy && out.s.peers[x].busy ==>
      Told(out.sends, s.id, x) == Some(out.s.quickCommit)
  }

  lemma CommitReminds(s: Server, target: nat, told: Option<nat>, x: nat)
    requires Reminded(s, told, x)
    ensures var out := Commit(s, target);
            && out.s.id == s.id && out.s.role == s.role && |out.s.peers| == |s.peers|
                 && Reminded(out.s, ToldBy(told, out, x), x)
            && (x < |s.peers| && x != s.id ==> AskedIfBusy(s, out, x))
  {
    if target > s.quickCommit && s.role == Leader && x < |s.peers| && x != s.id {
      NotifyTells(s.(quickCommit := target), 0, x);
    } else if target > s.quickCommit && s.role == Leader {
      LoopsOnlySend(s.(quickCommit := target), 0);
    }
  }

  lemma AskAllReminds(s: Server, told: Option<nat>, x: nat)
    requires Reminded(s, told, x)
    ensures var out := RequestAppendAll(s);
            out.s.id == s.id && out.s.role == s.role && |out.s.peers| == |s.peers|
                    && Reminded(out.s, ToldBy(told, out, x), x)
  {
    if |s.peers| == 1 {
      CommitReminds(s, |s.log|, told, x);
    } else {
      LoopsOnlySend(s, 0);
      if x < |s.peers| && x != s.id { AskFromTells(s, 0, x); }
    }
  }

  // A new leader asks every peer, so what was told before does not matter.
  lemma OfficeReminds(g: Guards, s: Server, told: Option<nat>, x: nat)
    requires s.id < |s.peers|
    ensures var out := BecomeLeader(g, s);
            out.s.id == s.id && |out.s.peers| == |s.peers| && Reminded(out.s, ToldBy(told, out, x), x)
  {
    var t := TakeOffice(g, s);
    LoopsOnlySend(t, 0);
    LoopsOnlySend(t.(quickCommit := |t.log|), 0);
    if |t.peers| > 1 && x < |t.peers| && x != t.id {
      AskFromTells(t, 0, x);
    }
  }

  // The identity of a server never changes; its peers are all the servers.
  ghost predicate Keeps(s: Server, out: Out) {
    out.s.id == s.id && |out.s.peers| == |s.peers|
  }

  lemma TimeoutReminds(g: Guards, s: Server, told: Option<nat>, x: nat)
    requires s.id < |s.peers|
    ensures var out := ElectionTimeout(g, s); Keeps(s, out) && Reminded(out.s, ToldBy(told, out, x), x)
  {
    hide BecomeLeader;
    OfficeReminds(g, StandForElection(s).(electionDone := true), told, x);
  }

  lemma VoteReminds(g: Guards, s: Server, accepted: bool, told: Option<nat>, x: nat)
    requires s.id < |s.peers| && Reminded(s, told, x)
    ensures var out := HandleVotingResp(g, s, accepted); Keeps(s, out) && Reminded(out.s, ToldBy(told, out, x), x)
  {
    hide BecomeLeader;
    var s1 := s.(responded := s.responded + 1);
    var s2 := if accepted then s1.(granted := s1.granted + 1) else s1;
    OfficeReminds(g, s2.(electionDone := true), told, x);
  }

  lemma RequestReminds(g: Guards, s: Server, req: Request, told: Option<nat>, x: nat)
    requires Reminded(s, told, x)
    ensures var out := ProcessReq(g, s, req).out; Keeps(s, out) && Reminded(out.s, ToldBy(told, out, x), x)
  {
    hide Commit, Merge;
    var s0 := UpdateTerm(s, req.term);
    if req.AppendReq? && !(req.term == s0.term && s0.role == Leader) {
      var s1 := if req.term != s0.term then s0
                else if s0.role == Candidate then BecomeFollower(s0) else s0.(timerOn := true);
      if !(req.term < s1.term || !LogOkay(s1, req)) {
        var s2 := s1.(log := Merge(s1.log, req.prevIdx, req.entries), leader := Some(req.src));
        CommitReminds(s2, CommitTarget(g, req), told, x);
      }
    }
  }

  lemma ClientReminds(g: Guards, s: Server, payloads: seq<int>, told: Option<nat>, x: nat)
    requires Reminded(s, told, x)
    ensures var out := HandleClientReq(g, s, payloads); Keeps(s, out) && Reminded(out.s, ToldBy(told, out, x), x)
  {
    hide RequestAppendAll;
    if s.role == Leader {
      var t := if g.stampClient then s.term else CLIENT_TERM;
      AskAllReminds(s.(log := s.log + Stamped(t, payloads)), told, x);
    }
  }

  lemma AskReminds(s: Server, j: nat, told: Option<nat>, x: nat)
    requires j < |s.peers| && (Reminded(s, told, x) || (x == j && !s.peers[j].busy))
    ensures var out := RequestAppend(s, j); Keeps(s, out) && Reminded(out.s, ToldBy(told, out, x), x)
  {
    AskTells(s, j, if x < |s.peers| then x else j);
  }

  // A mark that is cleared is followed by a request, unless one was just sent.
  lemma Cleared(a: Out, s1: Server, j: nat, told: Option<nat>, x: nat)
    requires j < |a.s.peers| && !a.s.halted && s1 == SetPeer(a.s, j, a.s.peers[j].(pending := false))
    requires Reminded(a.s, ToldBy(told, a, x), x)
    requires j == x && a.s.peers[j].busy ==> Told(a.sends, a.s.id, x) == Some(a.s.quickCommit)
    ensures var b := RequestAppend(s1, j);
            Keeps(s1, b) && Reminded(b.s, ToldBy(ToldBy(told, a, x), b, x), x)
  {
    AskTells(s1, j, if x < |s1.peers| then x else j);
  }

  lemma NoteReminds(g: Guards, s: Server, resp: Response, told: Option<nat>, x: nat)
    requires resp.src < |s.peers| && Reminded(s, told, x)
    ensures var a := NotePeerMatch(g, s, resp);
            && Keeps(s, a) && a.s.role == s.role && Reminded(a.s, ToldBy(told, a, x), x)
            && (x < |s.peers| && x != s.id ==> AskedIfBusy(s, a, x))
  {
    hide Commit, MedianOf, Matches;
    var s0 := SetPeer(s, resp.src, s.peers[resp.src].(next := resp.next, matched := Dec(resp.next)));
    CommitReminds(s0, MedianOf(Matches(s0)), told, x);
  }

  lemma AcceptedReminds(g: Guards, s: Server, resp: Response, told: Option<nat>, x: nat)
    requires resp.src < |s.peers| && !s.peers[resp.src].busy && resp.src != s.id && resp.accepted
            && Reminded(s, told, x)
    ensures var out := HandleAppendResp(g, s, resp); Keeps(s, out) && Reminded(out.s, ToldBy(told, out, x), x)
  {
    hide RequestAppend, NotePeerMatch;
    var j := resp.src;
    NoteReminds(g, s, resp, told, x);
    var a := NotePeerMatch(g, s, resp);
    if !a.s.halted && a.s.role == Leader {
      var s1 := SetPeer(a.s, j, a.s.peers[j].(pending := false));
      Cleared(a, s1, j, told, x);
      ToldLater(a.sends, RequestAppend(s1, j).sends, s1.id, x);
    }
  }

  // A response to a request to append: the peer it comes from was freed before.
  lemma AnswerReminds(g: Guards, s: Server, resp: Response, told: Option<nat>, x: nat)
    requires resp.src < |s.peers| && !s.peers[resp.src].busy && resp.src != s.id && Reminded(s, told, x)
    ensures var out := HandleAppendResp(g, s, resp); Keeps(s, out) && Reminded(out.s, ToldBy(told, out, x), x)
  {
    hide RequestAppend, NotePeerMatch;
    if resp.accepted {
      AcceptedReminds(g, s, resp, told, x);
    } else {
      var p := s.peers[resp.src];
      AskReminds(SetPeer(s, resp.src, p.(next := SteppedBack(p.next, resp.next))), resp.src, told, x);
    }
  }

  lemma ResponseReminds(g: Guards, s: Server, resp: Response, told: Option<nat>, x: nat)
    requires s.id < |s.peers| && resp.src < |s.peers| && Reminded(s, told, x)
    requires resp.AppendResp? ==> !s.peers[resp.src].busy && resp.src != s.id
    ensures var out := HandlePeerResp(g, s, resp); Keeps(s, out) && Reminded(out.s, ToldBy(told, out, x), x)
  {
    hide HandleVotingResp, HandleAppendResp;
    if resp.VoteResp? {
      VoteReminds(g, s, resp.accepted, told, x);
    } else {
      AnswerReminds(g, s, resp, told, x);
    }
  }

  // ---------------------------------------------------------------- every run

  // Servers know who they are, requests name their sender, and a request to append is answered
  // by the server it was sent to.
  ghost predicate Shaped(c: Cluster) {
    && (forall i :: 0 <= i < |c.servers| ==> c.servers[i].id == i && |c.servers[i].peers| == |c.servers|)
    && (forall k :: 0 <= k < |c.rpcs| ==> RpcShaped(c, k))
  }

  ghost predicate RpcShaped(c: Cluster, k: nat)
    requires k < |c.rpcs|
  {
    var r := c.rpcs[k];
    && r.req.src < |c.servers| && r.req.dst < |c.servers| && r.req.src != r.req.dst
    && (r.reply.Some? ==> r.reply.value.src == r.req.dst && (r.reply.value.AppendResp? <==> r.req.AppendReq?))
  }

  ghost predicate SendsShaped(i: nat, n: nat, sends: seq<Request>) {
    forall k :: 0 <= k < |sends| ==> sends[k].src == i && sends[k].dst < n && sends[k].dst != i
  }

  ghost predicate AllReminded(c: Cluster) {
    forall i, j :: 0 <= i < |c.servers| && 0 <= j < |c.servers| ==>
      Reminded(c.servers[i], Told(Requests(c.rpcs), i, j), j)
  }

  lemma {:induction false} AskFromSends(s: Server, j: nat)
    requires j <= |s.peers| && s.id < |s.peers|
    ensures SendsShaped(s.id, |s.peers|, RequestAppendFrom(s, j).sends)
    decreases |s.peers| - j
  {
    if j < |s.peers| {
      AskTells(s, j, j);
      AskFromSends(s, j + 1);
      AskFromSends(RequestAppend(s, j).s, j + 1);
    }
  }

  lemma {:induction false} NotifySends(s: Server, j: nat)
    requires j <= |s.peers| && s.id < |s.peers|
    ensures SendsShaped(s.id, |s.peers|, NotifyFrom(s, j).sends)
    decreases |s.peers| - j
  {
    if j < |s.peers| {
      AskTells(s, j, j);
      NotifySends(s, j + 1);
      NotifySends(SetPeer(s, j, s.peers[j].(pending := true)), j + 1);
      NotifySends(RequestAppend(s, j).s, j + 1);
    }
  }

  lemma {:induction false} BallotSends(s: Server, j: nat)
    requires j <= |s.peers| && s.id < |s.peers|
    ensures SendsShaped(s.id, |s.peers|, VoteRequestsFrom(s, j))
    decreases |s.peers| - j
  {
    if j < |s.peers| { BallotSends(s, j + 1); }
  }

  lemma CommitSends(s: Server, target: nat)
    requires s.id < |s.peers|
    ensures SendsShaped(s.id, |s.peers|, Commit(s, target).sends)
    ensures Commit(s, target).s.id == s.id && |Commit(s, target).s.peers| == |s.peers|
  {
    NotifySends(s.(quickCommit := target), 0);
    LoopsOnlySend(s.(quickCommit := target), 0);
  }

  lemma AskAllSends(s: Server)
    requires s.id < |s.peers|
    ensures SendsShaped(s.id, |s.peers|, RequestAppendAll(s).sends)
  {
    CommitSends(s, |s.log|);
    AskFromSends(s, 0);
  }

  lemma OfficeSends(g: Guards, s: Server)
    requires s.id < |s.peers|
    ensures SendsShaped(s.id, |s.peers|, BecomeLeader(g, s).sends)
  {
    hide RequestAppendAll;
    AskAllSends(TakeOffice(g, s));
  }

  lemma TimeoutSends(g: Guards, s: Server)
    requires s.id < |s.peers|
    ensures SendsShaped(s.id, |s.peers|, ElectionTimeout(g, s).sends)
  {
    hide BecomeLeader, VoteRequestsFrom;
    OfficeSends(g, StandForElection(s).(electionDone := true));
    BallotSends(StandForElection(s), 0);
  }

  lemma RequestSends(g: Guards, s: Server, req: Request)
    requires s.id < |s.peers|
    ensures SendsShaped(s.id, |s.peers|, ProcessReq(g, s, req).out.sends)
    ensures var resp := ProcessReq(g, s, req).resp;
            resp.Some? ==> resp.value.src == s.id && (resp.value.AppendResp? <==> req.AppendReq?)
  {
    hide Commit, Merge;
    var s0 := UpdateTerm(s, req.term);
    if req.AppendReq? && !(req.term == s0.term && s0.role == Leader) {
      var s1 := if req.term != s0.term then s0
                else if s0.role == Candidate then BecomeFollower(s0) else s0.(timerOn := true);
      if !(req.term < s1.term || !LogOkay(s1, req)) {
        CommitSends(s1.(log := Merge(s1.log, req.prevIdx, req.entries), leader := Some(req.src)), CommitTarget(g, req));
      }
    }
  }

  lemma ClientSends(g: Guards, s: Server, payloads: seq<int>)
    requires s.id < |s.peers|
    ensures SendsShaped(s.id, |s.peers|, HandleClientReq(g, s, payloads).sends)
  {
    hide RequestAppendAll;
    AskAllSends(s.(log := s.log + Stamped(if g.stampClient then s.term else CLIENT_TERM, payloads)));
  }

  lemma ResponseSends(g: Guards, s: Server, resp: Response)
    requires s.id < |s.peers| && resp.src < |s.peers| && (resp.AppendResp? ==> resp.src != s.id)
    ensures SendsShaped(s.id, |s.peers|, HandlePeerResp(g, s, resp).sends)
  {
    hide BecomeLeader, NotePeerMatch, RequestAppendAll;
    if resp.VoteResp? {
      var s1 := s.(responded := s.responded + 1);
      OfficeSends(g, (if resp.accepted then s1.(granted := s1.granted + 1) else s1).(electionDone := true));
    } else if resp.accepted {
      NoteSends(g, s, resp);
    }
  }

  lemma NoteSends(g: Guards, s: Server, resp: Response)
    requires s.id < |s.peers| && resp.src < |s.peers|
    ensures var a := NotePeerMatch(g, s, resp);
            SendsShaped(s.id, |s.peers|, a.sends) && a.s.id == s.id && |a.s.peers| == |s.peers|
  {
    hide Commit, MedianOf, Matches;
    var s0 := SetPeer(s, resp.src, s.peers[resp.src].(next := resp.next, matched := Dec(resp.next)));
    CommitSends(s0, MedianOf(Matches(s0)));
  }

  // One server acts: the others keep their requests, its own come last.
  lemma EmitReminds(c: Cluster, rpcs: seq<Rpc>, i: nat, out: Out, j: nat)
    requires Shaped(c) && AllReminded(c) && i < |c.servers| && j < |c.servers| && Requests(rpcs) == Requests(c.rpcs)
    requires SendsShaped(i, |c.servers|, out.sends) && Keeps(c.servers[i], out)
    requires Reminded(out.s, ToldBy(Told(Requests(c.rpcs), i, j), out, j), j)
    ensures var d := Emit(Cluster(c.servers, rpcs), i, out);
            forall x :: 0 <= x < |c.servers| ==> Reminded(d.servers[x], Told(Requests(d.rpcs), x, j), j)
  {
    var d := Emit(Cluster(c.servers, rpcs), i, out);
    assert Requests(d.rpcs) == Requests(c.rpcs) + out.sends;
    forall x | 0 <= x < |c.servers| ensures Reminded(d.servers[x], Told(Requests(d.rpcs), x, j), j) {
      ToldLater(Requests(c.rpcs), out.sends, x, j);
      if x != i {
        NotTold(out.sends, i, |c.servers|, x, j);
        assert Reminded(c.servers[x], Told(Requests(c.rpcs), x, j), j);
      }
    }
  }

  lemma {:induction false} NotTold(sends: seq<Request>, i: nat, n: nat, x: nat, j: nat)
    requires SendsShaped(i, n, sends) && x != i
    ensures Told(sends, x, j) == None
    decreases |sends|
  {
    if sends != [] { NotTold(sends[..|sends| - 1], i, n, x, j); }
  }

  // What the acting server becomes, what it sends and what the RPCs are by then.
  function Acting(g: Guards, c: Cluster, a: Action): (r: (nat, Out, seq<Rpc>))
    requires Enabled(c, a)
    ensures r.0 < |c.servers| && Step(g, c, a) == Emit(Cluster(c.servers, r.2), r.0, r.1)
  {
    match a
    case Timeout(i) => (i, ElectionTimeout(g, c.servers[i]), c.rpcs)
    case ClientCall(i, payloads) => (i, HandleClientReq(g, c.servers[i], payloads), c.rpcs)
    case Heartbeat(i, j) => (i, RequestAppend(c.servers[i], j), c.rpcs)
    case Deliver(k) =>
      var ans := ProcessReq(g, c.servers[c.rpcs[k].req.dst], c.rpcs[k].req);
      (c.rpcs[k].req.dst, ans.out, c.rpcs[k := c.rpcs[k].(reply := ans.resp)])
    case Return(k) =>
      var freed := FreePeer(c.servers[c.rpcs[k].req.src], c.rpcs[k].req);
      (c.rpcs[k].req.src, HandlePeerResp(g, freed, c.rpcs[k].reply.value), c.rpcs[k := c.rpcs[k].(open := false)])
    case Fail(k) =>
      var freed := FreePeer(c.servers[c.rpcs[k].req.src], c.rpcs[k].req);
      (c.rpcs[k].req.src, Out(freed, []), c.rpcs[k := c.rpcs[k].(open := false)])
    case ApplyOne(i) => (i, Out(ApplyNext(c.servers[i]), []), c.rpcs)
    case Crash(i) => (i, Out(Restart(c.servers[i]), []), c.rpcs)
  }

  lemma ActingReminds(g: Guards, c: Cluster, a: Action, j: nat)
    requires Enabled(c, a) && Shaped(c) && AllReminded(c) && j < |c.servers|
    ensures var r := Acting(g, c, a);
            && r.0 < |c.servers| && Requests(r.2) == Requests(c.rpcs)
            && Keeps(c.servers[r.0], r.1) && SendsShaped(r.0, |c.servers|, r.1.sends)
            && Reminded(r.1.s, ToldBy(Told(Requests(c.rpcs), r.0, j), r.1, j), j)
  {
    hide ElectionTimeout, HandleClientReq, RequestAppend, ProcessReq, HandlePeerResp;
    var r := Acting(g, c, a);
    assert Requests(r.2) == Requests(c.rpcs);
    if a.Deliver? || a.Return? || a.Fail? { assert RpcShaped(c, a.k); }
    var i, s := r.0, c.servers[r.0];
    var told := Told(Requests(c.rpcs), i, j);
    assert Reminded(s, told, j);
    match a
    case Timeout(_) => TimeoutReminds(g, s, told, j); TimeoutSends(g, s);
    case ClientCall(_, payloads) => ClientReminds(g, s, payloads, told, j); ClientSends(g, s, payloads);
    case Heartbeat(_, x) => AskReminds(s, x, told, j); AskSends(s, x);
    case Deliver(k) => RequestReminds(g, s, c.rpcs[k].req, told, j); RequestSends(g, s, c.rpcs[k].req);
    case Return(k) =>
      var freed := FreePeer(s, c.rpcs[k].req);
      ResponseReminds(g, freed, c.rpcs[k].reply.value, told, j);
      ResponseSends(g, freed, c.rpcs[k].reply.value);
    case Fail(k) =>
    case ApplyOne(_) =>
    case Crash(_) =>
  }

  lemma AskSends(s: Server, j: nat)
    requires j < |s.peers| && j != s.id
    ensures SendsShaped(s.id, |s.peers|, RequestAppend(s, j).sends)
  {
  }

  lemma StepShaped(g: Guards, c: Cluster, a: Action)
    requires Enabled(c, a) && Shaped(c)
    requires var r := Acting(g, c, a);
             r.0 < |c.servers| && Keeps(c.servers[r.0], r.1) && SendsShaped(r.0, |c.servers|, r.1.sends)
    ensures Shaped(Step(g, c, a))
  {
    hide Step, ElectionTimeout, HandleClientReq, RequestAppend, ProcessReq, HandlePeerResp;
    var r := Acting(g, c, a);
    var d := Step(g, c, a);
    if a.Deliver? {
      assert RpcShaped(c, a.k);
      RequestSends(g, c.servers[r.0], c.rpcs[a.k].req);
    }
    forall k | 0 <= k < |d.rpcs| ensures RpcShaped(d, k) {
      if k < |c.rpcs| { assert RpcShaped(c, k); }
    }
  }

  lemma StepReminds(g: Guards, c: Cluster, a: Action)
    requires Shaped(c) && AllReminded(c)
    ensures Shaped(Step(g, c, a)) && AllReminded(Step(g, c, a))
  {
    if Enabled(c, a) {
      hide Step, Acting;
      var r := Acting(g, c, a);
      var d := Step(g, c, a);
      forall i, j | 0 <= i < |c.servers| && 0 <= j < |c.servers| ensures Reminded(d.servers[i],
              Told(Requests(d.rpcs), i, j), j) {
        ActingReminds(g, c, a, j);
        EmitReminds(c, r.2, r.0, r.1, j);
      }
      if c.servers != [] { ActingReminds(g, c, a, 0); }
      StepShaped(g, c, a);
    }
  }

  lemma {:induction false} RunReminds(g: Guards, c: Cluster, acts: seq<Action>)
    requires Shaped(c) && AllReminded(c)
    ensures Shaped(After(g, c, acts)) && AllReminded(After(g, c, acts))
    decreases |acts|
  {
    if acts != [] {
      hide Step, Shaped, AllReminded;
      StepReminds(g, c, acts[0]);
      RunReminds(g, Step(g, c, acts[0]), acts[1..]);
    }
  }

  // In every reachable state of every variant of the code, each peer of a leader either is
  // marked or was last sent the leader's current commit index.
  lemma UrgentCommitKept(g: Guards, c: Cluster, i: nat, j: nat)
    requires Reachable(g, c) && i < |c.servers| && c.servers[i].role == Leader && !c.servers[i].halted
    requires j < |c.servers[i].peers| && i != j
    ensures c.servers[i].peers[j].pending || Told(Requests(c.rpcs), i, j) == Some(c.servers[i].quickCommit)
  {
    var caps: seq<nat> :| ReachableFrom(g, caps, c);
    var acts: seq<Action> :| c == After(g, Init(caps), acts);
    assert Shaped(Init(caps)) && AllReminded(Init(caps));
    RunReminds(g, Init(caps), acts);
    assert Reminded(c.servers[i], Told(Requests(c.rpcs), i, j), j);
  }
}
