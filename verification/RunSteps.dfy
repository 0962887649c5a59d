/** Single steps of a cluster of three in closed form: what the acting server becomes and which
    RPCs are added. They let modules GuardRuns and ClampRun follow a run without unfolding handlers. */
module RunSteps {
  import opened RaftTypes
  import opened Median
  import opened ServerSpec
  import opened Cluster

  // ---------------------------------------------------------------- the loops, for two peers

  // The peers of server i, in the order of the loops.
  function P(i: nat): nat { if i == 0 then 1 else 0 }
  function Q(i: nat): nat { if i == 2 then 1 else 2 }

  ghost predicate Member(s: Server, i: nat) {
    s.id == i < 3 && |s.peers| == 3 && !s.halted
  }

  // The vote request of a candidate that is about to enter its next term.
  function Ballot(s: Server, j: nat): Request {
    VoteReq(s.term + 1, s.id, j, LastTerm(s.log), |s.log|, s.commitIdx)
  }

  lemma VotesOfThree(s: Server, v: Server)
    requires Member(s, s.id) && s.id == v.id && s.term == v.term + 1 && s.log == v.log && s.commitIdx == v.commitIdx
    ensures VoteRequestsFrom(s, 0) == [Ballot(v, P(s.id)), Ballot(v, Q(s.id))]
  {
    assert VoteRequestsFrom(s, 3) == [];
    assert VoteRequestsFrom(s, 2) == if s.id == 2 then [] else [Ballot(v, 2)];
    assert VoteRequestsFrom(s, 1) == (if s.id == 1 then [] else [Ballot(v, 1)]) + VoteRequestsFrom(s, 2);
    assert VoteRequestsFrom(s, 0) == (if s.id == 0 then [] else [Ballot(v, 0)]) + VoteRequestsFrom(s, 1);
  }

  // The request that brings peer j on from index `prev`.
  function Piece(s: Server, j: nat, prev: nat, commit: nat): Request
    requires prev <= |s.log|
  {
    AppendReq(s.term, s.id, j, TermAt(s.log, prev), prev, commit, s.log[prev..Min(|s.log|, prev + s.maxAppend)])
  }

  lemma AskOne(s: Server, j: nat)
    requires j < |s.peers| && !s.peers[j].busy && 1 <= s.peers[j].next <= |s.log| + 1
    ensures RequestAppend(s, j) == Out(SetPeer(s, j, s.peers[j].(busy := true)), [Piece(s, j, s.peers[j].next - 1,
            s.quickCommit)])
  {
  }

  lemma AskKeeps(s: Server, j: nat)
    requires j < |s.peers|
    ensures RequestAppend(s, j).s.id == s.id && |RequestAppend(s, j).s.peers| == |s.peers|
  {
  }

  lemma AsksOfThree(s: Server)
    requires Member(s, s.id) && !RequestAppend(s, P(s.id)).s.halted
    ensures var a := RequestAppend(s, P(s.id));
            && |a.s.peers| == 3
            && var b := RequestAppend(a.s, Q(s.id));
            RequestAppendFrom(s, 0) == Out(b.s, a.sends + b.sends)
  {
    hide RequestAppend;
    AskKeeps(s, P(s.id));
    var a := RequestAppend(s, P(s.id));
    AskKeeps(a.s, Q(s.id));
    var b := RequestAppend(a.s, Q(s.id));
    assert RequestAppendFrom(b.s, 3) == Out(b.s, []);
    assert b.sends + [] == b.sends;
    if s.id == 2 {
      assert RequestAppendFrom(b.s, 2) == Out(b.s, []);
    } else {
      assert RequestAppendFrom(a.s, 2) == Out(b.s, b.sends);
      if s.id == 1 {
        assert RequestAppendFrom(a.s, 1) == RequestAppendFrom(a.s, 2);
      }
    }
  }

  // Notification when one peer is busy and the other, j, is free.
  lemma TellsOfThree(s: Server, j: nat)
    requires Member(s, s.id) && (j == P(s.id) || j == Q(s.id)) && !s.peers[j].busy
    requires var o := P(s.id) + Q(s.id) - j; s.peers[o].busy
    requires 1 <= s.peers[j].next <= |s.log| + 1
    ensures var o := P(s.id) + Q(s.id) - j;
            NotifyFrom(s, 0) == RequestAppend(SetPeer(s, o, s.peers[o].(pending := true)), j)
  {
    hide RequestAppend, NotifyFrom, SetPeer, Piece;
    var o := P(s.id) + Q(s.id) - j;
    var marked, early := MarkAndAsk(s, j, o);
    AskOne(s, j);
    AskOne(marked, j);
    var q := Piece(s, j, s.peers[j].next - 1, s.quickCommit);
    assert [q] + [] == [q] && [] + [q] == [q];
    if j < o {
      TellLast(early, o);
      TellTo(s, j);
    } else {
      TellLast(marked, j);
      TellTo(s, o);
    }
  }

  // Marking the busy peer and making the other one busy commute.
  lemma MarkAndAsk(s: Server, j: nat, o: nat) returns (marked: Server, early: Server)
    requires Member(s, s.id) && j < 3 && o < 3 && j != o && 1 <= s.peers[j].next <= |s.log| + 1
    ensures marked == SetPeer(s, o, s.peers[o].(pending := true)) && Member(marked, s.id)
            && marked.peers[j] == s.peers[j]
    ensures early == SetPeer(s, j, s.peers[j].(busy := true)) && Member(early, s.id) && early.peers[o] == s.peers[o]
    ensures SetPeer(marked, j, s.peers[j].(busy := true)) == SetPeer(early, o, s.peers[o].(pending := true))
    ensures marked.log == s.log && marked.quickCommit == s.quickCommit
    ensures Piece(marked, j, s.peers[j].next - 1, s.quickCommit) == Piece(s, j, s.peers[j].next - 1, s.quickCommit)
  {
    marked := SetPeer(s, o, s.peers[o].(pending := true));
    early := SetPeer(s, j, s.peers[j].(busy := true));
    assert SetPeer(marked, j, s.peers[j].(busy := true)).peers == SetPeer(early, o, s.peers[o].(pending := true)).peers;
  }

  // From the second peer on.
  lemma TellLast(s: Server, j: nat)
    requires Member(s, s.id) && j == Q(s.id)
    ensures var r := if s.peers[j].busy then Out(SetPeer(s, j, s.peers[j].(pending := true)), [])
                     else RequestAppend(s, j);
            NotifyFrom(s, j) == r
  {
    var r := if s.peers[j].busy then Out(SetPeer(s, j, s.peers[j].(pending := true)), []) else RequestAppend(s, j);
    assert NotifyFrom(r.s, 3) == Out(r.s, []);
    assert r.sends + [] == r.sends;
    if j == 1 {
      assert NotifyFrom(r.s, 2) == Out(r.s, []);
    }
  }

  lemma TellTo(s: Server, j: nat)
    requires Member(s, s.id) && j == P(s.id)
    ensures var a := if s.peers[j].busy then Out(SetPeer(s, j, s.peers[j].(pending := true)), [])
                     else RequestAppend(s, j);
            !a.s.halted ==>
            var b := NotifyFrom(a.s, Q(s.id));
            NotifyFrom(s, 0) == Out(b.s, a.sends + b.sends)
  {
    var a := if s.peers[j].busy then Out(SetPeer(s, j, s.peers[j].(pending := true)), []) else RequestAppend(s, j);
    if !a.s.halted {
      var b := NotifyFrom(a.s, Q(s.id));
      assert [] + b.sends == b.sends;
      if s.id == 0 {
        assert NotifyFrom(s, 0) == NotifyFrom(s, 1);
      } else if s.id == 1 {
        assert NotifyFrom(a.s, 1) == NotifyFrom(a.s, 2);
      }
    }
  }

  function Mid(a: nat, b: nat, c: nat): nat {
    if a >= b then (if b >= c then b else if a >= c then c else a)
    else (if a >= c then a else if b >= c then c else b)
  }

  lemma MedianOfThree(s: Server)
    requires |s.peers| == 3
    ensures MedianOf(Matches(s)) == Mid(Matches(s)[0], Matches(s)[1], Matches(s)[2])
  {
    var m := Matches(s);
    assert m[1..] == [m[1], m[2]] && m[1..][1..] == [m[2]] && m[1..][1..][1..] == [];
    assert SortDescending(m[1..][1..]) == [m[2]];
    var t := SortDescending(m[1..]);
    assert t == Insert(m[1], [m[2]]);
    assert t == if m[1] >= m[2] then [m[1], m[2]] else [m[2], m[1]];
    assert t[1..] == [t[1]] && t[1..][1..] == [];
    assert Insert(m[0], [t[1]]) == if m[0] >= t[1] then [m[0], t[1]] else [t[1], m[0]];
  }

  lemma {:induction false} AgreeingIs(log: seq<Entry>, prev: nat, entries: seq<Entry>, j: nat)
    requires j <= |entries| && prev + j <= |log|
    requires forall x :: 0 <= x < j ==> log[prev + x].term == entries[x].term
    requires j == |entries| || prev + j == |log| || log[prev + j].term != entries[j].term
    ensures Agreeing(log, prev, entries) == j
    decreases j
  {
    if j > 0 {
      assert log[prev + 0].term == entries[0].term;
      forall x | 0 <= x < j - 1 ensures log[prev + 1 + x].term == entries[1..][x].term {
        assert log[prev + (x + 1)].term == entries[x + 1].term;
      }
      AgreeingIs(log, prev + 1, entries[1..], j - 1);
    }
  }

  // ---------------------------------------------------------------- recording a step

  function Call(q: Request, epoch: nat): Rpc {
    Rpc(q, epoch, None, true)
  }

  lemma EmitNone(c: Cluster, i: nat, r: Server)
    requires i < |c.servers|
    ensures Emit(c, i, Out(r, [])) == Cluster(c.servers[i := r], c.rpcs)
  {
    assert Posted([], r.epoch) == [];
  }

  lemma EmitOne(c: Cluster, i: nat, r: Server, q: Request)
    requires i < |c.servers|
    ensures Emit(c, i, Out(r, [q])) == Cluster(c.servers[i := r], c.rpcs + [Call(q, r.epoch)])
  {
    assert Posted([q], r.epoch) == [Call(q, r.epoch)];
  }

  lemma EmitTwo(c: Cluster, i: nat, r: Server, q: Request, p: Request)
    requires i < |c.servers|
    ensures Emit(c, i, Out(r, [q, p])) == Cluster(c.servers[i := r], c.rpcs + [Call(q, r.epoch), Call(p, r.epoch)])
  {
    assert Posted([q, p], r.epoch) == [Call(q, r.epoch), Call(p, r.epoch)];
  }

  // A step in which a response is handled, given what the handler makes of it.
  lemma Returned(g: Guards, c: Cluster, k: nat, r: Server, sends: seq<Request>) returns (d: Cluster)
    requires Enabled(c, Return(k))
    requires HandlePeerResp(g, FreePeer(c.servers[c.rpcs[k].req.src], c.rpcs[k].req),
            c.rpcs[k].reply.value) == Out(r, sends)
    ensures d == Step(g, c, Return(k))
    ensures d == Emit(c.(rpcs := c.rpcs[k := c.rpcs[k].(open := false)]), c.rpcs[k].req.src, Out(r, sends))
  {
    d := Step(g, c, Return(k));
  }

  // ---------------------------------------------------------------- elections

  function Standing(s: Server): Server {
    s.(term := s.term + 1, votedFor := Some(s.id), role := Candidate, granted := 1, responded := 1,
       electionDone := false, savedCommit := s.commitIdx, timerOn := true)
  }

  lemma Stand(g: Guards, caps: seq<nat>, c: Cluster, i: nat) returns (d: Cluster)
    requires ReachableFrom(g, caps, c) && i < |c.servers| && Member(c.servers[i], i)
    requires c.servers[i].timerOn && c.servers[i].role != Leader
    ensures ReachableFrom(g, caps, d)
    ensures var s := c.servers[i];
            d == Cluster(c.servers[i := Standing(s)],
                         c.rpcs + [Call(Ballot(s, P(i)), s.epoch), Call(Ballot(s, Q(i)), s.epoch)])
  {
    hide ReachableFrom;
    ReachStep(g, caps, c, Timeout(i));
    d := Step(g, c, Timeout(i));
    var s := c.servers[i];
    VotesOfThree(StandForElection(s), s);
    assert ElectionTimeout(g, s) == Out(Standing(s), [Ballot(s, P(i)), Ballot(s, Q(i))]);
    EmitTwo(c, i, Standing(s), Ballot(s, P(i)), Ballot(s, Q(i)));
  }

  // A vote requested in a higher term: granted, or refused to a candidate whose log is behind.
  lemma Vote(g: Guards, caps: seq<nat>, c: Cluster, k: nat) returns (d: Cluster)
    requires ReachableFrom(g, caps, c) && k < |c.rpcs| && c.rpcs[k].reply == None && c.rpcs[k].req.VoteReq?
    requires c.rpcs[k].req.dst < |c.servers|
    requires var s := c.servers[c.rpcs[k].req.dst]; Member(s, c.rpcs[k].req.dst) && s.term < c.rpcs[k].req.term
    ensures ReachableFrom(g, caps, d)
    ensures var q := c.rpcs[k].req;
            var s := c.servers[q.dst];
            var yes := UpToDate(q.lastTerm, q.lastIdx, s.log);
            var r := UpdateTerm(s, q.term).(votedFor := if yes then Some(q.src) else None);
            d == Cluster(c.servers[q.dst := r],
                         c.rpcs[k := c.rpcs[k].(reply := Some(VoteResp(q.term, q.dst, q.src,
                                 if yes then |s.log| + 1 else 0, yes)))])
  {
    hide ReachableFrom;
    ReachStep(g, caps, c, Deliver(k));
    d := Step(g, c, Deliver(k));
    var q := c.rpcs[k].req;
    var ans := ProcessReq(g, c.servers[q.dst], q);
    EmitNone(c.(rpcs := c.rpcs[k := c.rpcs[k].(reply := ans.resp)]), q.dst, ans.out.s);
  }

  function WinnerLog(s: Server): seq<Entry> {
    if s.configIdx == 0 then s.log + [Entry(s.term, Conf(|s.log| + 1))] else s.log
  }

  function WinnerPeer(g: Guards, s: Server, j: nat): Peer
    requires j < |s.peers|
  {
    FreshPeer(g, s.peers[j], |s.log| + 1).(busy := j != s.id)
  }

  function Winner(g: Guards, s: Server): Server
    requires |s.peers| == 3
  {
    s.(responded := s.responded + 1, granted := s.granted + 1, electionDone := true, timerOn := false,
       role := Leader, leader := Some(s.id), log := WinnerLog(s),
       configIdx := if s.configIdx == 0 then |s.log| + 1 else s.configIdx,
       peers := [WinnerPeer(g, s, 0), WinnerPeer(g, s, 1), WinnerPeer(g, s, 2)])
  }

  // The first request of a winner, given its state before the last vote.
  function Greeting(s: Server, j: nat): Request {
    var p := |s.log|;
    AppendReq(s.term, s.id, j, LastTerm(s.log), p, s.quickCommit, WinnerLog(s)[p..Min(|WinnerLog(s)|, p + s.maxAppend)])
  }

  function Elected(s: Server): Server {
    s.(responded := s.responded + 1, granted := s.granted + 1, electionDone := true)
  }

  lemma OfficeTaken(g: Guards, s: Server) returns (t: Server)
    requires Member(s, s.id)
    ensures t == TakeOffice(g, Elected(s))
    ensures t.peers == [WinnerPeer(g, s, 0).(busy := false), WinnerPeer(g, s, 1).(busy := false),
                        WinnerPeer(g, s, 2).(busy := false)]
    ensures t == Winner(g, s).(peers := t.peers)
  {
    t := TakeOffice(g, Elected(s));
    assert t.log == WinnerLog(s);
  }

  // Two free peers with a next index are asked in turn.
  lemma AsksBoth(t: Server, next: nat) returns (b: Server)
    requires Member(t, t.id) && 1 <= next <= |t.log| + 1
    requires forall j :: 0 <= j < 3 && j != t.id ==> !t.peers[j].busy && t.peers[j].next == next
    ensures b == t.(peers := b.peers) && |b.peers| == 3
    ensures forall j :: 0 <= j < 3 ==> b.peers[j] == t.peers[j].(busy := j != t.id || t.peers[j].busy)
    ensures RequestAppendAll(t) == Out(b, [Piece(t, P(t.id), next - 1, t.quickCommit),
                                           Piece(t, Q(t.id), next - 1, t.quickCommit)])
  {
    hide RequestAppend, RequestAppendFrom;
    var p, q := P(t.id), Q(t.id);
    AskOne(t, p);
    var a := SetPeer(t, p, t.peers[p].(busy := true));
    AskOne(a, q);
    AsksOfThree(t);
    b := SetPeer(a, q, a.peers[q].(busy := true));
    assert Piece(a, q, next - 1, t.quickCommit) == Piece(t, q, next - 1, t.quickCommit);
    assert RequestAppendAll(t) == RequestAppendFrom(t, 0);
  }

  lemma Inaugurate(g: Guards, s: Server)
    requires Member(s, s.id)
    ensures BecomeLeader(g, Elected(s)) == Out(Winner(g, s), [Greeting(s, P(s.id)), Greeting(s, Q(s.id))])
  {
    hide RequestAppendAll, TakeOffice;
    var t := OfficeTaken(g, s);
    var b := AsksBoth(t, |s.log| + 1);
    assert b.peers == Winner(g, s).peers;
    assert Piece(t, P(s.id), |s.log|, t.quickCommit) == Greeting(s, P(s.id));
    assert Piece(t, Q(s.id), |s.log|, t.quickCommit) == Greeting(s, Q(s.id));
  }

  // A second vote makes a leader, which at once sends to both peers.
  lemma Win(g: Guards, caps: seq<nat>, c: Cluster, k: nat) returns (d: Cluster)
    requires ReachableFrom(g, caps, c) && k < |c.rpcs| && c.rpcs[k].open && c.rpcs[k].req.VoteReq?
    requires c.rpcs[k].reply.Some? && c.rpcs[k].reply.value.VoteResp? && c.rpcs[k].reply.value.accepted
    requires c.rpcs[k].reply.value.src < 3 && c.rpcs[k].req.dst < 3 && c.rpcs[k].req.src < |c.servers|
    requires var s := c.servers[c.rpcs[k].req.src];
             && Member(s, c.rpcs[k].req.src) && s.epoch == c.rpcs[k].epoch && !s.electionDone && s.granted == 1
             && c.rpcs[k].reply.value.term <= s.term
             && (g.dropStale ==> c.rpcs[k].reply.value.term == s.term)
    ensures ReachableFrom(g, caps, d)
    ensures var i := c.rpcs[k].req.src;
            var s := c.servers[i];
            d == Cluster(c.servers[i := Winner(g, s)],
                         c.rpcs[k := c.rpcs[k].(open := false)] +
                         [Call(Greeting(s, P(i)), s.epoch), Call(Greeting(s, Q(i)), s.epoch)])
  {
    hide ReachableFrom;
    ReachStep(g, caps, c, Return(k));
    var i := c.rpcs[k].req.src;
    var s := c.servers[i];
    CountSecond(g, s, c.rpcs[k].reply.value);
    Inaugurate(g, s);
    d := Returned(g, c, k, Winner(g, s), [Greeting(s, P(i)), Greeting(s, Q(i))]);
    EmitTwo(c.(rpcs := c.rpcs[k := c.rpcs[k].(open := false)]), i, Winner(g, s), Greeting(s, P(i)), Greeting(s, Q(i)));
  }

  lemma CountSecond(g: Guards, s: Server, resp: Response)
    requires Member(s, s.id) && !s.electionDone && s.granted == 1
    requires resp.VoteResp? && resp.accepted && resp.src < 3
    requires resp.term <= s.term && (g.dropStale ==> resp.term == s.term)
    ensures HandlePeerResp(g, s, resp) == BecomeLeader(g, Elected(s))
  {
  }

  // ---------------------------------------------------------------- requests to append

  // A follower accepts entries of which it already holds the first j.
  lemma Feed(g: Guards, caps: seq<nat>, c: Cluster, k: nat, j: nat) returns (d: Cluster)
    requires ReachableFrom(g, caps, c) && k < |c.rpcs| && c.rpcs[k].reply == None && c.rpcs[k].req.AppendReq?
    requires c.rpcs[k].req.dst < |c.servers|
    requires var q := c.rpcs[k].req;
             var s := c.servers[q.dst];
             && Member(s, q.dst) && s.term <= q.term && (s.role == Leader ==> s.term < q.term) && LogOkay(s, q)
             && j <= |q.entries| && q.prevIdx + j <= |s.log|
             && (forall x :: 0 <= x < j ==> s.log[q.prevIdx + x].term == q.entries[x].term)
             && (j == |q.entries| || q.prevIdx + j == |s.log| || s.log[q.prevIdx + j].term != q.entries[j].term)
    ensures ReachableFrom(g, caps, d)
    ensures var q := c.rpcs[k].req;
            var s := c.servers[q.dst];
            var target := CommitTarget(g, q);
            var r := BecomeFollower(UpdateTerm(s, q.term)).(
                       log := if j == |q.entries| then s.log else s.log[..q.prevIdx + j] + q.entries[j..],
                       leader := Some(q.src), quickCommit := if target > s.quickCommit then target else s.quickCommit);
            d == Cluster(c.servers[q.dst := r],
                         c.rpcs[k := c.rpcs[k].(reply := Some(AppendResp(q.term, q.dst, q.src,
                                 q.prevIdx + |q.entries| + 1, true)))])
  {
    hide ReachableFrom, ProcessReq, CommitTarget, ElectionTimeout, HandleClientReq, HandlePeerResp, RequestAppend,
         ApplyNext, Restart;
    ReachStep(g, caps, c, Deliver(k));
    d := Step(g, c, Deliver(k));
    var q := c.rpcs[k].req;
    var ans := FeedServer(g, c.servers[q.dst], q, j);
    EmitNone(c.(rpcs := c.rpcs[k := c.rpcs[k].(reply := ans.resp)]), q.dst, ans.out.s);
  }

  lemma FeedServer(g: Guards, s: Server, q: Request, j: nat) returns (ans: Answer)
    requires q.AppendReq? && Member(s, s.id) && s.term <= q.term && (s.role == Leader ==> s.term < q.term)
            && LogOkay(s, q)
    requires j <= |q.entries| && q.prevIdx + j <= |s.log|
    requires forall x :: 0 <= x < j ==> s.log[q.prevIdx + x].term == q.entries[x].term
    requires j == |q.entries| || q.prevIdx + j == |s.log| || s.log[q.prevIdx + j].term != q.entries[j].term
    ensures ans == ProcessReq(g, s, q)
    ensures var target := CommitTarget(g, q);
            ans == Answer(Out(BecomeFollower(UpdateTerm(s, q.term)).(
                                log := if j == |q.entries| then s.log else s.log[..q.prevIdx + j] + q.entries[j..],
                                leader := Some(q.src),
                                quickCommit := if target > s.quickCommit then target else s.quickCommit), []),
                          Some(AppendResp(q.term, s.id, q.src, q.prevIdx + |q.entries| + 1, true)))
  {
    hide Agreeing, NotifyFrom;
    AgreeingIs(s.log, q.prevIdx, q.entries, j);
    ans := ProcessReq(g, s, q);
    var s1 := BecomeFollower(UpdateTerm(s, q.term));
    assert LogOkay(s1, q) && Merge(s1.log, q.prevIdx,
            q.entries) == if j == |q.entries| then s.log else s.log[..q.prevIdx + j] + q.entries[j..];
    var s2 := s1.(log := Merge(s1.log, q.prevIdx, q.entries), leader := Some(q.src));
    assert ans.out == Commit(s2, CommitTarget(g, q));
  }

  // A follower rejects a request that does not fit its log.
  lemma Reject(g: Guards, caps: seq<nat>, c: Cluster, k: nat) returns (d: Cluster)
    requires ReachableFrom(g, caps, c) && k < |c.rpcs| && c.rpcs[k].reply == None && c.rpcs[k].req.AppendReq?
    requires c.rpcs[k].req.dst < |c.servers|
    requires var q := c.rpcs[k].req;
             var s := c.servers[q.dst];
             Member(s, q.dst) && s.term <= q.term && (s.role == Leader ==> s.term < q.term) && !LogOkay(s, q)
    ensures ReachableFrom(g, caps, d)
    ensures var q := c.rpcs[k].req;
            var s := c.servers[q.dst];
            d == Cluster(c.servers[q.dst := BecomeFollower(UpdateTerm(s, q.term))],
                         c.rpcs[k := c.rpcs[k].(reply := Some(AppendResp(q.term, q.dst, q.src, |s.log| + 1, false)))])
  {
    hide ReachableFrom;
    ReachStep(g, caps, c, Deliver(k));
    d := Step(g, c, Deliver(k));
    var q := c.rpcs[k].req;
    var ans := ProcessReq(g, c.servers[q.dst], q);
    EmitNone(c.(rpcs := c.rpcs[k := c.rpcs[k].(reply := ans.resp)]), q.dst, ans.out.s);
  }

  // A request of an earlier term changes nothing; the answer carries the follower's term.
  lemma RejectOld(g: Guards, caps: seq<nat>, c: Cluster, k: nat) returns (d: Cluster)
    requires ReachableFrom(g, caps, c) && k < |c.rpcs| && c.rpcs[k].reply == None && c.rpcs[k].req.AppendReq?
    requires c.rpcs[k].req.dst < |c.servers|
    requires var q := c.rpcs[k].req; Member(c.servers[q.dst], q.dst) && q.term < c.servers[q.dst].term
    ensures ReachableFrom(g, caps, d)
    ensures var q := c.rpcs[k].req;
            var s := c.servers[q.dst];
            d == Cluster(c.servers,
                         c.rpcs[k := c.rpcs[k].(reply := Some(AppendResp(s.term, q.dst, q.src, |s.log| + 1, false)))])
  {
    hide ReachableFrom;
    ReachStep(g, caps, c, Deliver(k));
    d := Step(g, c, Deliver(k));
    var q := c.rpcs[k].req;
    var ans := ProcessReq(g, c.servers[q.dst], q);
    EmitNone(c.(rpcs := c.rpcs[k := c.rpcs[k].(reply := ans.resp)]), q.dst, ans.out.s);
    assert c.servers[q.dst := c.servers[q.dst]] == c.servers;
  }

  // ---------------------------------------------------------------- responses to a leader

  // The matched indices after peer j acknowledged m; o is the other peer.
  function MedianWith(s: Server, j: nat, m: nat): nat
    requires Member(s, s.id) && (j == P(s.id) || j == Q(s.id))
  {
    Mid(|s.log|, m, s.peers[P(s.id) + Q(s.id) - j].matched)
  }

  ghost predicate AckOf(g: Guards, c: Cluster, k: nat) {
    && k < |c.rpcs| && c.rpcs[k].open && c.rpcs[k].req.AppendReq?
    && c.rpcs[k].reply.Some? && c.rpcs[k].reply.value.AppendResp?
    && c.rpcs[k].req.src < |c.servers|
    && var q, s := c.rpcs[k].req, c.servers[c.rpcs[k].req.src];
    && Member(s, q.src) && s.epoch == c.rpcs[k].epoch && s.role == Leader
    && (q.dst == P(q.src) || q.dst == Q(q.src))
    && c.rpcs[k].reply.value.src == q.dst && c.rpcs[k].reply.value.term == s.term
    && 1 <= c.rpcs[k].reply.value.next
  }

  // An acceptance that moves the commit index: the peer is told at once, the busy one is marked.
  lemma AckCommits(g: Guards, caps: seq<nat>, c: Cluster, k: nat, j: nat, m: nat, target: nat) returns (d: Cluster)
    requires ReachableFrom(g, caps, c) && AckOf(g, c, k) && c.rpcs[k].reply.value.accepted
    requires j == c.rpcs[k].req.dst && m == c.rpcs[k].reply.value.next - 1
    requires var s := c.servers[c.rpcs[k].req.src];
             && m <= |s.log| && target == MedianWith(s, j, m) && s.quickCommit < target && MayCommit(g, s, target)
             && s.peers[P(s.id) + Q(s.id) - j].busy
    ensures ReachableFrom(g, caps, d)
    ensures var i := c.rpcs[k].req.src;
            var s := c.servers[i];
            var o := P(i) + Q(i) - j;
            var r := s.(quickCommit := target, peers := s.peers[o := s.peers[o].(pending := true)][j := Peer(m + 1,
                    m, true, false)]);
            d == Cluster(c.servers[i := r], c.rpcs[k := c.rpcs[k].(open := false)] + [Call(Piece(s, j, m, target),
                    s.epoch)])
  {
    hide ReachableFrom;
    ReachStep(g, caps, c, Return(k));
    d := Step(g, c, Return(k));
    var i := c.rpcs[k].req.src;
    var s := c.servers[i];
    var o := P(i) + Q(i) - j;
    var r := s.(quickCommit := target, peers := s.peers[o := s.peers[o].(pending := true)][j := Peer(m + 1, m, true,
            false)]);
    var resp := c.rpcs[k].reply.value;
    var freed := FreePeer(s, c.rpcs[k].req);
    AckCommitsServer(g, s, freed, resp, j, m, target);
    EmitOne(c.(rpcs := c.rpcs[k := c.rpcs[k].(open := false)]), i, r, Piece(s, j, m, target));
  }

  lemma Noted(g: Guards, s: Server, freed: Server, resp: Response, j: nat, m: nat) returns (s1: Server)
    requires Member(s, s.id) && (j == P(s.id) || j == Q(s.id)) && resp.AppendResp? && resp.src == j
    requires freed == SetPeer(s, j, s.peers[j].(busy := false)) && resp.next == m + 1
    ensures s1 == SetPeer(freed, j, freed.peers[j].(next := resp.next, matched := Dec(resp.next)))
    ensures s1.peers == s.peers[j := Peer(m + 1, m, false, s.peers[j].pending)]
    ensures MedianOf(Matches(s1)) == MedianWith(s, j, m)
  {
    s1 := SetPeer(freed, j, freed.peers[j].(next := resp.next, matched := Dec(resp.next)));
    MedianOfThree(s1);
  }

  lemma AckCommitsServer(g: Guards, s: Server, freed: Server, resp: Response, j: nat, m: nat, target: nat)
    requires Member(s, s.id) && s.role == Leader && (j == P(s.id) || j == Q(s.id))
    requires freed == SetPeer(s, j, s.peers[j].(busy := false))
    requires resp.AppendResp? && resp.accepted && resp.term == s.term && resp.src == j && resp.next == m + 1
            && m <= |s.log|
    requires target == MedianWith(s, j, m) && s.quickCommit < target && MayCommit(g, s, target)
    requires s.peers[P(s.id) + Q(s.id) - j].busy
    ensures var o := P(s.id) + Q(s.id) - j;
            HandlePeerResp(g, freed, resp) ==
              Out(s.(quickCommit := target, peers := s.peers[o := s.peers[o].(pending := true)][j := Peer(m + 1, m,
                      true, false)]),
                  [Piece(s, j, m, target)])
  {
    var s1 := Noted(g, s, freed, resp, j, m);
    var a := NotedTells(s, s1, j, m, target);
    assert NotePeerMatch(g, freed, resp) == a;
    assert a.sends + [] == a.sends;
  }

  lemma NotedTells(s: Server, s1: Server, j: nat, m: nat, target: nat) returns (a: Out)
    requires Member(s, s.id) && s.role == Leader && (j == P(s.id) || j == Q(s.id)) && m <= |s.log|
    requires s1 == s.(peers := s.peers[j := Peer(m + 1, m, false, s.peers[j].pending)])
    requires s.quickCommit < target && s.peers[P(s.id) + Q(s.id) - j].busy
    ensures a == Commit(s1, target) && a.sends == [Piece(s, j, m, target)] && !a.s.halted
    ensures var o := P(s.id) + Q(s.id) - j;
            && a.s.peers[j] == Peer(m + 1, m, true, s.peers[j].pending)
            && SetPeer(a.s, j, a.s.peers[j].(pending := false)) ==
               s.(quickCommit := target, peers := s.peers[o := s.peers[o].(pending := true)][j := Peer(m + 1, m,
                       true, false)])
  {
    hide RequestAppend, NotifyFrom, MedianWith, MayCommit, TermAt, Min;
    var o := P(s.id) + Q(s.id) - j;
    var s2 := s1.(quickCommit := target);
    var marked := SetPeer(s2, o, s2.peers[o].(pending := true));
    AskOne(s2, j);
    TellsOfThree(s2, j);
    AskOne(marked, j);
    a := NotifyFrom(s2, 0);
    var fin := SetPeer(a.s, j, a.s.peers[j].(pending := false));
    assert fin.peers == s.peers[o := s.peers[o].(pending := true)][j := Peer(m + 1, m, true, false)];
    assert fin == s.(quickCommit := target, peers := fin.peers);
    assert a.sends == [Piece(marked, j, m, target)] == [Piece(s, j, m, target)];
  }

  // An acceptance that commits nothing: the peer is sent what it lacks, if anything.
  lemma AckQuiet(g: Guards, caps: seq<nat>, c: Cluster, k: nat, j: nat, m: nat) returns (d: Cluster)
    requires ReachableFrom(g, caps, c) && AckOf(g, c, k) && c.rpcs[k].reply.value.accepted
    requires j == c.rpcs[k].req.dst && m == c.rpcs[k].reply.value.next - 1
    requires var s := c.servers[c.rpcs[k].req.src];
             var target := MedianWith(s, j, m);
             target <= s.quickCommit || !MayCommit(g, s, target)
    requires var s := c.servers[c.rpcs[k].req.src]; m <= |s.log| && (s.peers[j].pending || m < |s.log|)
    ensures ReachableFrom(g, caps, d)
    ensures var i := c.rpcs[k].req.src;
            var s := c.servers[i];
            d == Cluster(c.servers[i := SetPeer(s, j, Peer(m + 1, m, true, false))],
                         c.rpcs[k := c.rpcs[k].(open := false)] + [Call(Piece(s, j, m, s.quickCommit), s.epoch)])
  {
    hide ReachableFrom;
    ReachStep(g, caps, c, Return(k));
    d := Step(g, c, Return(k));
    var i := c.rpcs[k].req.src;
    var s := c.servers[i];
    var resp := c.rpcs[k].reply.value;
    var freed := FreePeer(s, c.rpcs[k].req);
    var r := SetPeer(s, j, Peer(m + 1, m, true, false));
    AckQuietServer(g, s, freed, resp, j, m);
    EmitOne(c.(rpcs := c.rpcs[k := c.rpcs[k].(open := false)]), i, r, Piece(s, j, m, s.quickCommit));
  }

  lemma AckQuietServer(g: Guards, s: Server, freed: Server, resp: Response, j: nat, m: nat)
    requires Member(s, s.id) && s.role == Leader && (j == P(s.id) || j == Q(s.id))
    requires freed == SetPeer(s, j, s.peers[j].(busy := false))
    requires resp.AppendResp? && resp.accepted && resp.term == s.term && resp.src == j && resp.next == m + 1
            && m <= |s.log|
    requires var target := MedianWith(s, j, m); target <= s.quickCommit || !MayCommit(g, s, target)
    requires s.peers[j].pending || m < |s.log|
    ensures HandlePeerResp(g, freed, resp) ==
              Out(SetPeer(s, j, Peer(m + 1, m, true, false)), [Piece(s, j, m, s.quickCommit)])
  {
    hide RequestAppend, NotePeerMatch;
    var s1 := QuietlyNoted(g, s, freed, resp, j, m);
    var s2 := SetPeer(s1, j, s1.peers[j].(pending := false));
    assert s2.peers == s.peers[j := Peer(m + 1, m, false, false)];
    AskOne(s2, j);
    var b := RequestAppend(s2, j);
    assert b.s.peers == s.peers[j := Peer(m + 1, m, true, false)];
    assert b.sends == [Piece(s, j, m, s.quickCommit)];
    assert [] + b.sends == b.sends;
  }

  lemma QuietlyNoted(g: Guards, s: Server, freed: Server, resp: Response, j: nat, m: nat) returns (s1: Server)
    requires Member(s, s.id) && (j == P(s.id) || j == Q(s.id)) && resp.AppendResp? && resp.src == j
    requires freed == SetPeer(s, j, s.peers[j].(busy := false)) && resp.next == m + 1
    requires var target := MedianWith(s, j, m); target <= s.quickCommit || !MayCommit(g, s, target)
    ensures NotePeerMatch(g, freed, resp) == Out(s1, [])
    ensures s1 == s.(peers := s.peers[j := Peer(m + 1, m, false, s.peers[j].pending)])
  {
    hide NotifyFrom, MedianOf, Matches, MedianWith;
    s1 := Noted(g, s, freed, resp, j, m);
  }

  // A rejection: the leader backs off to `next` and sends again.
  lemma BackOff(g: Guards, caps: seq<nat>, c: Cluster, k: nat, j: nat, next: nat) returns (d: Cluster)
    requires ReachableFrom(g, caps, c) && AckOf(g, c, k) && !c.rpcs[k].reply.value.accepted && j == c.rpcs[k].req.dst
    requires var s := c.servers[c.rpcs[k].req.src];
             var hint := c.rpcs[k].reply.value.next;
             && 1 < s.peers[j].next <= |s.log| + 1
             && next == (if s.peers[j].next > hint then hint else s.peers[j].next - 1)
    ensures ReachableFrom(g, caps, d)
    ensures var i := c.rpcs[k].req.src;
            var s := c.servers[i];
            d == Cluster(c.servers[i := SetPeer(s, j, s.peers[j].(next := next, busy := true))],
                         c.rpcs[k := c.rpcs[k].(open := false)] + [Call(Piece(s, j, next - 1, s.quickCommit), s.epoch)])
  {
    hide ReachableFrom;
    ReachStep(g, caps, c, Return(k));
    d := Step(g, c, Return(k));
    var i := c.rpcs[k].req.src;
    var s := c.servers[i];
    var resp := c.rpcs[k].reply.value;
    var freed := FreePeer(s, c.rpcs[k].req);
    var r := SetPeer(s, j, s.peers[j].(next := next, busy := true));
    BackOffServer(g, s, freed, resp, j, next);
    EmitOne(c.(rpcs := c.rpcs[k := c.rpcs[k].(open := false)]), i, r, Piece(s, j, next - 1, s.quickCommit));
  }

  lemma BackOffServer(g: Guards, s: Server, freed: Server, resp: Response, j: nat, next: nat)
    requires Member(s, s.id) && s.role == Leader && (j == P(s.id) || j == Q(s.id))
    requires freed == SetPeer(s, j, s.peers[j].(busy := false))
    requires resp.AppendResp? && !resp.accepted && resp.term == s.term && resp.src == j && resp.next >= 1
    requires 1 < s.peers[j].next <= |s.log| + 1
    requires next == (if s.peers[j].next > resp.next then resp.next else s.peers[j].next - 1)
    ensures HandlePeerResp(g, freed, resp) ==
              Out(SetPeer(s, j, s.peers[j].(next := next, busy := true)), [Piece(s, j, next - 1, s.quickCommit)])
  {
    hide RequestAppend;
    var s1 := SetPeer(freed, j, freed.peers[j].(next := next));
    AskOne(s1, j);
    assert SetPeer(s1, j, s1.peers[j].(busy := true)).peers == s.peers[j := s.peers[j].(next := next, busy := true)];
  }

  // An RPC to a busy peer ends in an error; the next heartbeat sends the same piece again.
  lemma Resend(g: Guards, caps: seq<nat>, c: Cluster, k: nat, j: nat) returns (d: Cluster)
    requires ReachableFrom(g, caps, c) && k < |c.rpcs| && c.rpcs[k].open && c.rpcs[k].req.AppendReq?
    requires c.rpcs[k].req.src < |c.servers| && j == c.rpcs[k].req.dst
    requires var i, s := c.rpcs[k].req.src, c.servers[c.rpcs[k].req.src];
             && Member(s, i) && s.epoch == c.rpcs[k].epoch && s.role == Leader && (j == P(i) || j == Q(i))
             && s.peers[j].busy && 1 <= s.peers[j].next <= |s.log| + 1
    ensures ReachableFrom(g, caps, d)
    ensures var s := c.servers[c.rpcs[k].req.src];
            d == Cluster(c.servers, c.rpcs[k := c.rpcs[k].(open := false)] +
                                    [Call(Piece(s, j, s.peers[j].next - 1, s.quickCommit), s.epoch)])
  {
    hide ReachableFrom, ProcessReq, HandlePeerResp, ElectionTimeout, HandleClientReq, RequestAppend, ApplyNext, Restart;
    var i := c.rpcs[k].req.src;
    var s := c.servers[i];
    var freed := FreePeer(s, c.rpcs[k].req);
    ReachStep(g, caps, c, Fail(k));
    var e := Step(g, c, Fail(k));
    EmitNone(c.(rpcs := c.rpcs[k := c.rpcs[k].(open := false)]), i, freed);
    ReachStep(g, caps, e, Heartbeat(i, j));
    d := Step(g, e, Heartbeat(i, j));
    AskOne(freed, j);
    assert SetPeer(freed, j, freed.peers[j].(busy := true)).peers == s.peers;
    EmitOne(e, i, s, Piece(s, j, s.peers[j].next - 1, s.quickCommit));
    assert c.servers[i := freed][i := s] == c.servers;
  }

  // ---------------------------------------------------------------- clients, applying, crashes

  // A client's entry at a leader whose peers are both busy.
  lemma Propose(g: Guards, caps: seq<nat>, c: Cluster, i: nat, x: int) returns (d: Cluster)
    requires ReachableFrom(g, caps, c) && i < |c.servers| && Member(c.servers[i], i) && c.servers[i].role == Leader
    requires c.servers[i].peers[P(i)].busy && c.servers[i].peers[Q(i)].busy
    ensures ReachableFrom(g, caps, d)
    ensures var s := c.servers[i];
            var e := Entry(if g.stampClient then s.term else CLIENT_TERM, App(x));
            d == Cluster(c.servers[i := s.(log := s.log + [e])], c.rpcs)
  {
    hide ReachableFrom;
    ReachStep(g, caps, c, ClientCall(i, [x]));
    d := Step(g, c, ClientCall(i, [x]));
    var s := c.servers[i];
    var t := if g.stampClient then s.term else CLIENT_TERM;
    assert Stamped(t, [x]) == [Entry(t, App(x))];
    var r := s.(log := s.log + [Entry(t, App(x))]);
    AsksOfThree(r);
    assert HandleClientReq(g, s, [x]) == Out(r, []);
    EmitNone(c, i, r);
  }

  lemma Apply(g: Guards, caps: seq<nat>, c: Cluster, i: nat) returns (d: Cluster)
    requires ReachableFrom(g, caps, c) && i < |c.servers| && Member(c.servers[i], i) && CanApply(c.servers[i])
    ensures ReachableFrom(g, caps, d)
    ensures d == Cluster(c.servers[i := ApplyNext(c.servers[i])], c.rpcs)
  {
    hide ReachableFrom;
    ReachStep(g, caps, c, ApplyOne(i));
    d := Step(g, c, ApplyOne(i));
    EmitNone(c, i, ApplyNext(c.servers[i]));
  }

  lemma CrashAndRestart(g: Guards, caps: seq<nat>, c: Cluster, i: nat) returns (d: Cluster)
    requires ReachableFrom(g, caps, c) && i < |c.servers|
    ensures ReachableFrom(g, caps, d)
    ensures d == Cluster(c.servers[i := Restart(c.servers[i])], c.rpcs)
  {
    hide ReachableFrom;
    ReachStep(g, caps, c, Crash(i));
    d := Step(g, c, Crash(i));
    EmitNone(c, i, Restart(c.servers[i]));
  }

  // ---------------------------------------------------------------- a whole election

  function Voted(s: Server, term: nat, i: nat): Server {
    UpdateTerm(s, term).(votedFor := Some(i))
  }

  // Server i times out, gets the vote of server v and takes office. The RPCs numbered from n are
  // two vote requests and two first requests to append.
  lemma Campaign(g: Guards, caps: seq<nat>, c: Cluster, i: nat, v: nat) returns (d: Cluster)
    requires ReachableFrom(g, caps, c) && |c.servers| == 3 && i < 3 && v < 3 && i != v
    requires Member(c.servers[i], i) && Member(c.servers[v], v) && c.servers[i].timerOn && c.servers[i].role != Leader
    requires var s, w := c.servers[i], c.servers[v]; w.term <= s.term && UpToDate(LastTerm(s.log), |s.log|, w.log)
    ensures ReachableFrom(g, caps, d) && |d.servers| == 3
    ensures var s, n := c.servers[i], |c.rpcs|;
            && d.servers == c.servers[i := Winner(g, Standing(s))][v := Voted(c.servers[v], s.term + 1, i)]
            && |d.rpcs| == n + 4 && d.rpcs[..n] == c.rpcs
            && d.rpcs[n + if v == P(i) then 1 else 0] == Call(Ballot(s, P(i) + Q(i) - v), s.epoch)
            && d.rpcs[n + 2] == Call(Greeting(Standing(s), P(i)), s.epoch)
            && d.rpcs[n + 3] == Call(Greeting(Standing(s), Q(i)), s.epoch)
  {
    hide ReachableFrom, Winner, Greeting;
    var n := |c.rpcs|;
    d := Stand(g, caps, c, i);
    var k := n + if v == P(i) then 0 else 1;
    d := Vote(g, caps, d, k);
    d := Win(g, caps, d, k);
  }
}
