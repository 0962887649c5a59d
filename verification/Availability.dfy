/** A cluster never gets into a state in which no leader can be elected any more. */
module Availability {
  import opened RaftTypes
  import opened ServerSpec
  import opened Cluster
  import opened Elections
  import opened RunInvariants

  // A server that can stand for election in a cluster of n.
  ghost predicate Ready(s: Server, i: nat, n: nat) {
    s.id == i && |s.peers| == n && !s.halted && s.timerOn && s.role != Leader
  }

  // ---------------------------------------------------------------- everyone restarts

  lemma {:induction false} RestartSome(g: Guards, caps: seq<nat>, c: Cluster, k: nat) returns (d: Cluster)
    requires ReachableFrom(g, caps, c) && k <= |c.servers|
    requires forall i: nat :: i < |c.servers| ==> c.servers[i].id == i && |c.servers[i].peers| == |c.servers|
    requires forall i: nat :: k <= i < |c.servers| ==> Ready(c.servers[i], i, |c.servers|)
    ensures ReachableFrom(g, caps, d) && |d.servers| == |c.servers|
    ensures forall i: nat :: i < |d.servers| ==> Ready(d.servers[i], i, |d.servers|)
    decreases k
  {
    hide ReachableFrom;
    if k == 0 {
      d := c;
    } else {
      ReachStep(g, caps, c, Crash(k - 1));
      d := RestartSome(g, caps, Step(g, c, Crash(k - 1)), k - 1);
    }
  }

  // ---------------------------------------------------------------- standing

  // A server of several stands, and sends a ballot to each of the others.
  lemma StandsAgain(g: Guards, caps: seq<nat>, c: Cluster, i: nat) returns (d: Cluster)
    requires ReachableFrom(g, caps, c) && i < |c.servers| && |c.servers| > 1 && Ready(c.servers[i], i, |c.servers|)
    ensures ReachableFrom(g, caps, d) && |d.servers| == |c.servers|
    ensures var s, r := c.servers[i], d.servers[i];
            && Ready(r, i, |d.servers|) && Counting(r) && r.granted == r.responded == 1 && r.term == s.term + 1
            && r.log == s.log && d.servers == c.servers[i := r]
            && Balloted(d, i, |c.rpcs|, 0)
  {
    hide ReachableFrom, VoteRequestsFrom, BecomeLeader;
    ReachStep(g, caps, c, Timeout(i));
    d := Step(g, c, Timeout(i));
    EveryoneIsAsked(g, c.servers[i]);
    Stands(g, c.servers[i]);
  }

  // A server stands until it is in term t.
  lemma {:induction false} StandsUntil(g: Guards, caps: seq<nat>, c: Cluster, i: nat, t: nat) returns (d: Cluster)
    requires ReachableFrom(g, caps, c) && i < |c.servers| && |c.servers| > 1 && Ready(c.servers[i], i, |c.servers|)
    ensures ReachableFrom(g, caps, d) && |d.servers| == |c.servers|
    ensures var s, r := c.servers[i], d.servers[i];
            Ready(r, i, |d.servers|) && r.term >= t && r.log == s.log && d.servers == c.servers[i := r]
    decreases t - c.servers[i].term
  {
    hide ReachableFrom, Ready, Counting, Balloted;
    if c.servers[i].term >= t {
      d := c;
    } else {
      var e := StandsAgain(g, caps, c, i);
      d := StandsUntil(g, caps, e, i, t);
    }
  }

  // ---------------------------------------------------------------- the votes

  // From the x-th of the others on, the ballots of candidate i are still on their way.
  ghost predicate Balloted(c: Cluster, i: nat, base: nat, x: nat) {
    && i < |c.servers| && base + |c.servers| - 1 <= |c.rpcs|
    && forall y: nat :: x <= y < |c.servers| - 1 ==> BallotOut(c, i, base + y, Other(i, y))
  }

  ghost predicate BallotOut(c: Cluster, i: nat, k: nat, j: nat) {
    && i < |c.servers| && k < |c.rpcs|
    && var s := c.servers[i];
    c.rpcs[k] == Rpc(VoteReq(s.term, i, j, LastTerm(s.log), |s.log|, s.commitIdx), s.epoch, None, true)
  }

  // A server that will vote for the candidate as soon as it is asked.
  ghost predicate Willing(v: Server, s: Server) {
    !v.halted && v.term < s.term && NotBehind(s.log, v.log)
  }

  ghost predicate AllWilling(c: Cluster, i: nat, x: nat)
    requires i < |c.servers|
  {
    forall y: nat :: x <= y < |c.servers| - 1 ==> Willing(c.servers[Other(i, y)], c.servers[i])
  }

  // No other server leads, or is in a later term.
  ghost predicate NoRivals(c: Cluster, i: nat)
    requires i < |c.servers|
  {
    forall j: nat :: j < |c.servers| && j != i ==>
      c.servers[j].role != Leader && c.servers[j].term <= c.servers[i].term
  }

  // One ballot is delivered and granted, and the answer comes back.
  lemma OneVote(g: Guards, caps: seq<nat>, c: Cluster, i: nat, k: nat, j: nat) returns (d: Cluster)
    requires ReachableFrom(g, caps, c) && i < |c.servers| && j < |c.servers| && i != j && BallotOut(c, i, k, j)
    requires Willing(c.servers[j], c.servers[i]) && !c.servers[i].halted && Counting(c.servers[i])
    requires |c.servers[i].peers| == |c.servers| && c.servers[i].id == i
    ensures ReachableFrom(g, caps, d) && |d.servers| == |c.servers| && |d.rpcs| >= |c.rpcs|
    ensures forall x :: 0 <= x < |c.servers| && x != i && x != j ==> d.servers[x] == c.servers[x]
    ensures d.servers[j].role != Leader && d.servers[j].term == c.servers[i].term
    ensures forall x :: 0 <= x < |c.rpcs| && x != k ==> d.rpcs[x] == c.rpcs[x]
    ensures exists answer: Response ::
              && answer.VoteResp? && answer.accepted && answer.term == c.servers[i].term
              && d.servers[i] == HandlePeerResp(g, c.servers[i], answer).s
  {
    hide ReachableFrom, ProcessReq, HandlePeerResp, Counting;
    var q := c.rpcs[k].req;
    VoteAnswered(g, c.servers[j], q);
    assert q.lastTerm == LastTerm(c.servers[i].log);
    var answer := ProcessReq(g, c.servers[j], q).resp.value;
    ReachStep(g, caps, c, Deliver(k));
    var e := Step(g, c, Deliver(k));
    assert e.servers[i] == c.servers[i] && Awaited(e, k);
    ReachStep(g, caps, e, Return(k));
    d := Step(g, e, Return(k));
  }

  // The votes come in until there are enough of them.
  lemma {:induction false} CollectVotes(g: Guards, caps: seq<nat>, c: Cluster, i: nat, base: nat, x: nat)
    returns (d: Cluster)
    requires ReachableFrom(g, caps, c) && Balloted(c, i, base, x) && AllWilling(c, i, x) && NoRivals(c, i)
    requires var s := c.servers[i];
             && s.id == i && |s.peers| == |c.servers| && !s.halted
             && Counting(s) && s.granted == s.responded == 1 + x
    ensures ReachableFrom(g, caps, d) && |d.servers| == |c.servers| && d.servers[i].role == Leader && NoRivals(d, i)
    decreases |c.servers| - x
  {
    hide ReachableFrom, Willing, HandlePeerResp;
    var s := c.servers[i];
    assert BallotOut(c, i, base + x, Other(i, x));
    var e := OneVote(g, caps, c, i, base + x, Other(i, x));
    var answer: Response :| answer.VoteResp? && answer.accepted && answer.term == s.term
                            && e.servers[i] == HandlePeerResp(g, s, answer).s;
    OneAnswer(g, s, answer);
    if e.servers[i].role == Leader {
      d := e;
    } else {
      AnswerKeeps(g, s, answer);
      forall y: nat | x + 1 <= y < |e.servers| - 1
        ensures BallotOut(e, i, base + y, Other(i, y)) && Willing(e.servers[Other(i, y)], e.servers[i]) {
        assert BallotOut(c, i, base + y, Other(i, y)) && Willing(c.servers[Other(i, y)], s);
        WillingStill(c.servers[Other(i, y)], s, e.servers[i]);
      }
      d := CollectVotes(g, caps, e, i, base, x + 1);
    }
  }

  lemma WillingStill(v: Server, s: Server, r: Server)
    requires Willing(v, s) && r.term == s.term && r.log == s.log
    ensures Willing(v, r)
  {
  }

  // What a counted vote leaves as it is, when it does not decide.
  lemma AnswerKeeps(g: Guards, s: Server, answer: Response)
    requires Counting(s) && answer.VoteResp? && answer.term == s.term
    requires HandlePeerResp(g, s, answer).s.role != Leader
    ensures var r := HandlePeerResp(g, s, answer).s;
            && r.id == s.id && r.log == s.log && r.epoch == s.epoch && r.halted == s.halted
            && r.commitIdx == s.commitIdx
  {
    hide BecomeLeader;
    var v := HandlingOfVote(s, answer.accepted).(electionDone := true);
    assert BecomeLeader(g, v).s.role == Leader by { LeaderStays(g, v); }
  }

  // ---------------------------------------------------------------- an election

  lemma {:induction false} LatestTerm(servers: seq<Server>) returns (t: nat)
    ensures forall k :: 0 <= k < |servers| ==> servers[k].term <= t
    decreases |servers|
  {
    t := 0;
    if servers != [] {
      var m := |servers| - 1;
      t := LatestTerm(servers[..m]);
      assert forall k :: 0 <= k < m ==> servers[..m][k] == servers[k];
      if t < servers[m].term { t := servers[m].term; }
    }
  }

  // From every reachable state of every cluster and every variant of the code, some continuation of the
  // run elects a leader, if need be after everyone has restarted, with no other server ahead of it.
  lemma SomeoneCanLead(g: Guards, caps: seq<nat>, c: Cluster) returns (d: Cluster, i: nat)
    requires ReachableFrom(g, caps, c) && c.servers != []
    ensures ReachableFrom(g, caps, d) && |d.servers| == |c.servers| && i < |d.servers|
    ensures d.servers[i].role == Leader && NoRivals(d, i)
  {
    hide ReachableFrom, Counting, Balloted;
    ReachableOrderly(g, c) by { assert Reachable(g, c); }
    var e := RestartSome(g, caps, c, |c.servers|);
    i := SomeoneIsAhead(e.servers);
    assert Ready(e.servers[i], i, |e.servers|);
    if |e.servers| == 1 {
      Stands(g, e.servers[i]);
      ReachStep(g, caps, e, Timeout(i));
      d := Step(g, e, Timeout(i));
    } else {
      var t := LatestTerm(e.servers);
      var f := StandsUntil(g, caps, e, i, t);
      d := StandsAgain(g, caps, f, i);
      forall y: nat | y < |d.servers| - 1 ensures Willing(d.servers[Other(i, y)], d.servers[i]) {
        assert d.servers[Other(i, y)] == e.servers[Other(i, y)];
        assert Ready(e.servers[Other(i, y)], Other(i, y), |e.servers|);
      }
      assert NoRivals(d, i) by {
        forall j: nat | j < |d.servers| && j != i
          ensures d.servers[j].role != Leader && d.servers[j].term <= d.servers[i].term {
          assert Ready(e.servers[j], j, |e.servers|) && d.servers[j] == e.servers[j];
        }
      }
      d := CollectVotes(g, caps, d, i, |f.rpcs|, 0);
    }
  }
}
