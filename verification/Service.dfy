/** A cluster never gets into a state in which clients can no longer be served: some continuation of the
    run has a client's entries on every server and applied. */
module Service {
  import opened RaftTypes
  import opened ServerSpec
  import opened Cluster
  import opened Replication
  import opened Outcomes
  import opened RaftTheorems
  import opened RunInvariants
  import opened Availability
  import opened SoleServer

  // ---------------------------------------------------------------- one exchange with one server

  // What the theorems about all runs say of a leader and another server.
  lemma Sound(g: Guards, c: Cluster, i: nat, j: nat)
    requires Reachable(g, c) && g.dropStale && g.stampClient && i < |c.servers| && j < |c.servers| && i != j
    requires c.servers[i].role == Leader
    ensures Leads(c.servers[i]) && KnownPeer(c.servers[i], j) && !c.servers[j].halted
    ensures c.servers[i].id == i && c.servers[j].id == j && |c.servers[i].peers| == |c.servers|
    ensures Matching(c.servers[i].log, c.servers[j].log)
  {
    ReachableOrderly(g, c);
    NoFatalExit(g, c, i);
    NoFatalExit(g, c, j);
    var a, b := c.servers[i].log, c.servers[j].log;
    forall k | 0 <= k < |a| && k < |b| && a[k].term == b[k].term ensures a[..k + 1] == b[..k + 1] {
      LogMatching(g, c, i, j, k);
    }
  }

  function Freed(s: Server, j: nat): Server
    requires j < |s.peers|
  {
    SetPeer(s, j, s.peers[j].(busy := false))
  }

  // If the leader waits for an answer of peer j, it gets an error instead.
  lemma FreesPeer(g: Guards, caps: seq<nat>, c: Cluster, i: nat, j: nat) returns (d: Cluster)
    requires ReachableFrom(g, caps, c) && i < |c.servers| && j < |c.servers[i].peers| && !c.servers[i].halted
    ensures ReachableFrom(g, caps, d) && d.servers == c.servers[i := Freed(c.servers[i], j)]
  {
    hide ReachableFrom;
    if c.servers[i].peers[j].busy {
      assert Reachable(g, c);
      var k := NoPeerIsStuck(g, c, i, j);
      ReachStep(g, caps, c, Fail(k));
      d := Step(g, c, Fail(k));
    } else {
      d := c;
      assert Freed(c.servers[i], j).peers == c.servers[i].peers;
    }
  }

  // The leader's heartbeat asks a free peer; the request is the last RPC then.
  lemma AsksPeer(g: Guards, caps: seq<nat>, c: Cluster, i: nat, j: nat) returns (d: Cluster, q: Request)
    requires ReachableFrom(g, caps, c) && i < |c.servers| && i != j && Leads(c.servers[i])
    requires KnownPeer(c.servers[i], j) && !c.servers[i].peers[j].busy
    ensures var a := RequestAppend(c.servers[i], j);
            && ReachableFrom(g, caps, d) && d.servers == c.servers[i := a.s] && SentTo(a.sends, j) == Some(q)
            && d.rpcs == c.rpcs + [Rpc(q, c.servers[i].epoch, None, true)] && q.dst == j && q.src == c.servers[i].id
            && q.AppendReq? && q.term == c.servers[i].term && q.commit == c.servers[i].quickCommit
  {
    hide ReachableFrom;
    var a := RequestAppend(c.servers[i], j);
    q := a.sends[0];
    ReachStep(g, caps, c, Heartbeat(i, j));
    d := Step(g, c, Heartbeat(i, j));
    assert Posted(a.sends, a.s.epoch) == [Rpc(q, c.servers[i].epoch, None, true)];
  }

  // Peer j hears from the leader: it follows it from then on.
  lemma MakesContact(g: Guards, caps: seq<nat>, c: Cluster, i: nat, j: nat) returns (d: Cluster)
    requires ReachableFrom(g, caps, c) && g.dropStale && g.stampClient
    requires i < |c.servers| && j < |c.servers| && i != j && c.servers[i].role == Leader
    requires c.servers[j].term <= c.servers[i].term && c.servers[j].role != Leader
    ensures ReachableFrom(g, caps, d) && |d.servers| == |c.servers|
    ensures var s, r := c.servers[i], d.servers[i];
            && SameLeader(s, r) && r.quickCommit == s.quickCommit
            && (forall x :: 0 <= x < |s.peers| ==> r.peers[x].matched == s.peers[x].matched)
    ensures d.servers[j].role == Follower && d.servers[j].term == c.servers[i].term
    ensures d.servers[i].commitIdx == c.servers[i].commitIdx && d.servers[j].commitIdx == c.servers[j].commitIdx
    ensures forall x :: 0 <= x < |c.servers| && x != i && x != j ==> d.servers[x] == c.servers[x]
  {
    hide ReachableFrom, ProcessReq, RequestAppend, Matching;
    assert Reachable(g, c);
    Sound(g, c, i, j);
    var e := FreesPeer(g, caps, c, i, j);
    var f, q := AsksPeer(g, caps, e, i, j);
    AskChanges(e.servers[i], j);
    var k := |e.rpcs|;
    AppendAnswered(g, f.servers[j], q);
    RequestCommitIdx(g, f.servers[j], q);
    ReachStep(g, caps, f, Deliver(k));
    d := Step(g, f, Deliver(k));
  }

  lemma AskChanges(s: Server, j: nat)
    requires Leads(s) && KnownPeer(s, j)
    ensures var r := RequestAppend(s, j).s;
            && SameLeader(s, r) && r.peers[j].next == s.peers[j].next && r.epoch == s.epoch
            && (forall x :: 0 <= x < |s.peers| ==> r.peers[x].matched == s.peers[x].matched)
            && r.quickCommit == s.quickCommit && r.commitIdx == s.commitIdx
  {
  }

  // The request of a link arrives and its answer comes back.
  lemma GoesRound(g: Guards, caps: seq<nat>, c: Cluster, i: nat, j: nat, k: nat, l: Link) returns (d: Cluster)
    requires ReachableFrom(g, caps, c) && i < |c.servers| && j < |c.servers| && i != j && k < |c.rpcs|
    requires l == Link(c.servers[i], c.servers[j], l.q) && InStep(l) && l.q.Some? && l.f.id == j
    requires c.rpcs[k] == Rpc(l.q.value, l.s.epoch, None, true) && l.q.value.src == i && !l.s.halted && !l.f.halted
    ensures ReachableFrom(g, caps, d) && d.servers == c.servers[i := Round(g, l).s][j := Round(g, l).f]
    ensures Round(g, l).s.commitIdx == l.s.commitIdx && Round(g, l).f.commitIdx == l.f.commitIdx
  {
    hide ReachableFrom, ProcessReq, HandlePeerResp, Carries;
    var q := l.q.value;
    assert q.AppendReq? && q.term == l.s.term by { CarriedTerm(l.s, j, q); }
    AppendAnswered(g, l.f, q);
    RequestCommitIdx(g, l.f, q);
    ResponseCommitIdx(g, FreePeer(l.s, q), ProcessReq(g, l.f, q).resp.value);
    ReachStep(g, caps, c, Deliver(k));
    var h := Step(g, c, Deliver(k));
    assert Awaited(h, k);
    ReachStep(g, caps, h, Return(k));
    d := Step(g, h, Return(k));
  }

  lemma CarriedTerm(s: Server, j: nat, q: Request)
    requires Carries(s, j, q)
    ensures q.AppendReq? && q.term == s.term
  {
  }

  // A whole round with a follower of the leader's term, as Replication has it.
  lemma TakesTurn(g: Guards, caps: seq<nat>, c: Cluster, i: nat, j: nat) returns (d: Cluster, l: Link)
    requires ReachableFrom(g, caps, c) && g.dropStale && g.stampClient
    requires i < |c.servers| && j < |c.servers| && i != j && c.servers[i].role == Leader
    requires c.servers[j].term == c.servers[i].term && c.servers[j].role == Follower
    ensures InStep(l) && l.q.Some? && l.f == c.servers[j] && l.f.id == j && SameLeader(c.servers[i], l.s)
    ensures Matching(l.s.log, l.f.log) && l.s.peers[j].next == c.servers[i].peers[j].next
    ensures forall x :: 0 <= x < |l.s.peers| ==> l.s.peers[x].matched == c.servers[i].peers[x].matched
    ensures l.s.quickCommit == l.q.value.commit == c.servers[i].quickCommit
    ensures ReachableFrom(g, caps, d)
    ensures d.servers == c.servers[i := Round(g, l).s][j := Round(g, l).f]
    ensures Round(g, l).s.commitIdx == c.servers[i].commitIdx && Round(g, l).f.commitIdx == c.servers[j].commitIdx
  {
    hide ReachableFrom, ProcessReq, HandlePeerResp, RequestAppend, Matching, Carries;
    assert Reachable(g, c);
    Sound(g, c, i, j);
    var e := FreesPeer(g, caps, c, i, j);
    FirstRequest(e.servers[i], e.servers[j]);
    AskChanges(e.servers[i], j);
    var f, q := AsksPeer(g, caps, e, i, j);
    l := Link(f.servers[i], f.servers[j], Some(q));
    var k := |e.rpcs|;
    d := GoesRound(g, caps, f, i, j, k, l);
  }

  // ---------------------------------------------------------------- the leader's log on every server

  // The matched index after a round: the end of the request, if it was taken.
  lemma TurnMatches(g: Guards, l: Link, x: nat)
    requires InStep(l) && l.q.Some? && x < |l.s.peers|
    ensures var r, k := Round(g, l), Min(|l.s.log|, l.s.peers[l.f.id].next - 1 + l.s.maxAppend);
            && |r.s.peers| == |l.s.peers| && r.s.quickCommit >= l.s.quickCommit
            && r.s.peers[x].matched == if x == l.f.id && !Rejected(g, l) then k else l.s.peers[x].matched
  {
    hide HandlePeerResp, ProcessReq, Merge, Carries, Taken;
    var ans := FollowerAnswers(g, l.s, l.f, l.q.value);
    MatchedMoves(g, FreePeer(l.s, l.q.value), ans.resp.value, x);
  }

  // What a round leaves of two servers, and how much is left to do.
  ghost function Left(leader: seq<Entry>, log: seq<Entry>, next: nat): nat
    requires 1 <= next <= |leader| + 1
  {
    Rejections(leader, log, next) + |leader| - FirstTaken(leader, log, next)
  }

  lemma TurnHelps(g: Guards, l: Link)
    requires InStep(l) && l.q.Some? && Matching(l.s.log, l.f.log) && l.s.maxAppend >= 1
    ensures var r, next := Round(g, l), l.s.peers[l.f.id].next;
            var k := Min(|l.s.log|, next - 1 + l.s.maxAppend);
            && InStep(r) && SameLeader(l.s, r.s) && r.f.id == l.f.id && 1 <= r.s.peers[l.f.id].next <= |l.s.log| + 1
            && if !Rejected(g, l) && k == |l.s.log| then l.s.log <= r.f.log
               else Left(l.s.log, r.f.log, r.s.peers[l.f.id].next) < Left(l.s.log, l.f.log, next)
  {
    hide Round, Rejected, Carries, Matching, SteppedBack;
    OneRound(g, l);
    if !Rejected(g, l) { TakenNext(g, l); }
  }

  // All others but j hold the leader's log, the end of which is of its own term.
  ghost predicate Decisive(s: Server, j: nat) {
    && s.log != [] && s.log[|s.log| - 1].term == s.term
    && forall x: nat :: x < |s.peers| && x != j && x != s.id ==> s.peers[x].matched == |s.log|
  }

  // The round in which the last peer takes the end of the log commits all of it.
  lemma TurnCommits(g: Guards, l: Link)
    requires InStep(l) && l.q.Some? && !Rejected(g, l) && Decisive(l.s, l.f.id)
    requires |l.s.log| <= l.s.peers[l.f.id].next - 1 + l.s.maxAppend
    ensures Round(g, l).s.quickCommit >= |l.s.log|
  {
    hide HandlePeerResp, ProcessReq, Merge, Carries, Taken;
    var ans := FollowerAnswers(g, l.s, l.f, l.q.value);
    var s, resp := FreePeer(l.s, l.q.value), ans.resp.value;
    EveryoneHolds(s, resp);
    MajorityCommits(g, s, resp, |s.log|);
  }

  lemma EveryoneHolds(s: Server, resp: Response)
    requires Decisive(s, resp.src) && KnownPeer(s, resp.src) && resp.next == |s.log| + 1
    ensures IsTop(s, resp, |s.log|)
  {
    var n := |s.log|;
    var all := Everyone(|s.peers|);
    var more := Holding(s, resp, n + 1);
    forall j: nat | j < |s.peers| ensures j in Holding(s, resp, n) && j !in more {
      if j != resp.src && j != s.id { assert s.peers[j].matched == n; }
      assert Dec(resp.next) == n;
    }
    assert Holding(s, resp, n) == all;
    assert forall j: nat :: j in more ==> j < |s.peers|;
    assert more == {};
  }

  // And a follower that takes the end of the log hears how much of it is committed.
  lemma TurnTells(g: Guards, l: Link)
    requires InStep(l) && l.q.Some? && !Rejected(g, l) && l.q.value.commit >= |l.s.log|
    requires |l.s.log| <= l.s.peers[l.f.id].next - 1 + l.s.maxAppend
    ensures Round(g, l).f.quickCommit >= |l.s.log|
  {
    hide HandlePeerResp, ProcessReq, Merge, Taken;
    var ans := FollowerAnswers(g, l.s, l.f, l.q.value);
    AppendAnswered(g, l.f, l.q.value);
    CommitFollows(g, l.f, l.q.value);
  }

  // A leader's matched indices, but for one peer.
  ghost predicate MatchedBut(s: Server, r: Server, j: nat) {
    |s.peers| == |r.peers| && forall x :: 0 <= x < |s.peers| && x != j ==> r.peers[x].matched == s.peers[x].matched
  }

  // Round after round a follower comes to hold the leader's log, and the leader to know it.
  lemma {:induction false} BringsUp(g: Guards, caps: seq<nat>, c: Cluster, i: nat, j: nat) returns (d: Cluster)
    requires ReachableFrom(g, caps, c) && g.dropStale && g.stampClient
    requires i < |c.servers| && j < |c.servers| && i != j && Leads(c.servers[i]) && KnownPeer(c.servers[i], j)
    requires c.servers[j].term == c.servers[i].term && c.servers[j].role == Follower && c.servers[i].maxAppend >= 1
    ensures ReachableFrom(g, caps, d) && |d.servers| == |c.servers|
    ensures var s, r := c.servers[i], d.servers[i];
            SameLeader(s, r) && MatchedBut(s, r, j) && j < |r.peers| && r.peers[j].matched == |s.log|
    ensures var f := d.servers[j];
            c.servers[i].log <= f.log && f.role == Follower && f.term == c.servers[i].term
    ensures d.servers[i].quickCommit >= c.servers[i].quickCommit
    ensures d.servers[i].commitIdx == c.servers[i].commitIdx && d.servers[j].commitIdx == c.servers[j].commitIdx
    ensures Decisive(c.servers[i], j) ==> d.servers[i].quickCommit >= |c.servers[i].log|
    ensures c.servers[i].quickCommit >= |c.servers[i].log| ==> d.servers[j].quickCommit >= |c.servers[i].log|
    ensures forall x :: 0 <= x < |c.servers| && x != i && x != j ==> d.servers[x] == c.servers[x]
    decreases Left(c.servers[i].log, c.servers[j].log, c.servers[i].peers[j].next)
  {
    hide ReachableFrom, Round, Rejected, Matching, Left, Carries;
    var l: Link;
    d, l := TakesTurn(g, caps, c, i, j);
    TurnHelps(g, l);
    forall x: nat | x < |l.s.peers|
      ensures Round(g, l).s.peers[x].matched ==
              if x == j && !Rejected(g, l) then Min(|l.s.log|, l.s.peers[j].next - 1 + l.s.maxAppend)
              else l.s.peers[x].matched {
      TurnMatches(g, l, x);
    }
    TurnMatches(g, l, j);
    if Rejected(g, l) || Min(|l.s.log|, l.s.peers[j].next - 1 + l.s.maxAppend) < |l.s.log| {
      d := BringsUp(g, caps, d, i, j);
    } else {
      if Decisive(c.servers[i], j) { TurnCommits(g, l); }
      if c.servers[i].quickCommit >= |l.s.log| { TurnTells(g, l); }
    }
  }

  // Server j holds the leader's log, and the leader knows it.
  ghost predicate UpToDateWith(c: Cluster, i: nat, j: nat) {
    && i < |c.servers| && j < |c.servers| && j < |c.servers[i].peers|
    && var s, f := c.servers[i], c.servers[j];
    s.log <= f.log && f.role == Follower && f.term == s.term && s.peers[j].matched == |s.log|
  }

  ghost predicate SameCommits(c: Cluster, d: Cluster) {
    |d.servers| == |c.servers| && forall x :: 0 <= x < |c.servers| ==> d.servers[x].commitIdx == c.servers[x].commitIdx
  }

  // One server after the other.
  lemma {:induction false} BringsAllUp(g: Guards, caps: seq<nat>, c: Cluster, i: nat, x: nat) returns (d: Cluster)
    requires ReachableFrom(g, caps, c) && g.dropStale && g.stampClient && x <= |c.servers|
    requires i < |c.servers| && c.servers[i].role == Leader && c.servers[i].maxAppend >= 1 && NoRivals(c, i)
    requires forall j: nat :: j < x && j != i ==> UpToDateWith(c, i, j)
    ensures ReachableFrom(g, caps, d) && |d.servers| == |c.servers| && SameLeader(c.servers[i], d.servers[i])
    ensures forall j: nat :: j < |d.servers| && j != i ==> UpToDateWith(d, i, j)
    ensures SameCommits(c, d)
    decreases |c.servers| - x
  {
    hide ReachableFrom, Matching;
    assert Reachable(g, c);
    if x == |c.servers| {
      d := c;
      LeadsAlways(g, c, i);
    } else if x == i {
      d := BringsAllUp(g, caps, c, i, x + 1);
    } else {
      var e := MakesContact(g, caps, c, i, x);
      assert Reachable(g, e);
      Sound(g, e, i, x);
      var f := BringsUp(g, caps, e, i, x);
      forall j: nat | j < x + 1 && j != i ensures UpToDateWith(f, i, j) {
        if j < x { assert UpToDateWith(c, i, j); }
      }
      d := BringsAllUp(g, caps, f, i, x + 1);
    }
  }

  lemma LeadsAlways(g: Guards, c: Cluster, i: nat)
    requires Reachable(g, c) && g.dropStale && i < |c.servers| && c.servers[i].role == Leader
    ensures Leads(c.servers[i])
  {
    ReachableOrderly(g, c);
    NoFatalExit(g, c, i);
  }

  // ---------------------------------------------------------------- committing, telling, applying

  // A server that holds a log and knows that it is committed.
  ghost predicate Knows(v: Server, log: seq<Entry>) {
    log <= v.log && v.quickCommit >= |log|
  }

  // Everyone holds a leader's log, which ends with an entry of its term: one more round commits it.
  lemma CommitsLog(g: Guards, caps: seq<nat>, c: Cluster, i: nat) returns (d: Cluster)
    requires ReachableFrom(g, caps, c) && g.dropStale && g.stampClient
    requires i < |c.servers| && Leads(c.servers[i]) && c.servers[i].maxAppend >= 1
    requires c.servers[i].log != [] && c.servers[i].log[|c.servers[i].log| - 1].term == c.servers[i].term
    requires forall j: nat :: j < |c.servers| && j != i ==> UpToDateWith(c, i, j)
    ensures ReachableFrom(g, caps, d) && SameCommits(c, d) && SameLeader(c.servers[i], d.servers[i])
    ensures d.servers[i].quickCommit >= |d.servers[i].log|
    ensures forall j: nat :: j < |d.servers| && j != i ==>
              d.servers[j].role == Follower && d.servers[j].term == d.servers[i].term
  {
    hide ReachableFrom, Matching;
    assert Reachable(g, c);
    ReachableOrderly(g, c);
    if |c.servers| == 1 {
      assert Reachable(g, c);
      CapsStay(g, caps, c);
      assert caps == [caps[0]];
      SoleLeaderHasCommitted(g, caps[0], c);
      d := c;
    } else {
      var j := if i == 0 then 1 else 0;
      assert UpToDateWith(c, i, j);
      assert Decisive(c.servers[i], j) by {
        forall x: nat | x < |c.servers[i].peers| && x != j && x != i
          ensures c.servers[i].peers[x].matched == |c.servers[i].log| {
          assert UpToDateWith(c, i, x);
        }
      }
      d := BringsUp(g, caps, c, i, j);
      forall x: nat | x < |d.servers| && x != i
        ensures d.servers[x].role == Follower && d.servers[x].term == d.servers[i].term {
        assert UpToDateWith(c, i, x);
      }
    }
  }

  // Server after server hears of it.
  lemma {:induction false} TellsAll(g: Guards, caps: seq<nat>, c: Cluster, i: nat, x: nat) returns (d: Cluster)
    requires ReachableFrom(g, caps, c) && g.dropStale && g.stampClient && x <= |c.servers|
    requires i < |c.servers| && Leads(c.servers[i]) && c.servers[i].maxAppend >= 1
    requires c.servers[i].quickCommit >= |c.servers[i].log|
    requires forall j: nat :: j < |c.servers| && j != i ==>
               c.servers[j].role == Follower && c.servers[j].term == c.servers[i].term
    requires forall j: nat :: j < x ==> Knows(c.servers[j], c.servers[i].log)
    ensures ReachableFrom(g, caps, d) && SameCommits(c, d) && SameLeader(c.servers[i], d.servers[i])
    ensures forall j: nat :: j < |d.servers| ==> Knows(d.servers[j], d.servers[i].log)
    decreases |c.servers| - x
  {
    hide ReachableFrom, Matching;
    if x == |c.servers| {
      d := c;
    } else if x == i {
      d := TellsAll(g, caps, c, i, x + 1);
    } else {
      assert Reachable(g, c);
      Sound(g, c, i, x);
      var e := BringsUp(g, caps, c, i, x);
      d := TellsAll(g, caps, e, i, x + 1);
    }
  }

  // A server applies what it knows to be committed, as far as index m.
  lemma {:induction false} AppliesTo(g: Guards, caps: seq<nat>, c: Cluster, j: nat, m: nat) returns (d: Cluster)
    requires ReachableFrom(g, caps, c) && j < |c.servers| && !c.servers[j].halted
    requires c.servers[j].commitIdx <= m <= |c.servers[j].log| && m <= c.servers[j].quickCommit
    ensures ReachableFrom(g, caps, d) && |d.servers| == |c.servers|
    ensures d.servers == c.servers[j := d.servers[j]]
    ensures DeliveredOn(c.servers[j], d.servers[j]) && d.servers[j].commitIdx == m
    decreases m - c.servers[j].commitIdx
  {
    hide ReachableFrom, DeliveredOn;
    var s := c.servers[j];
    if s.commitIdx == m {
      d := c;
      NothingDelivered(s);
    } else {
      ReachStep(g, caps, c, ApplyOne(j));
      var e := Step(g, c, ApplyOne(j));
      AppliedFacts(s);
      d := AppliesTo(g, caps, e, j, m);
      DeliveredThen(s, e.servers[j], d.servers[j]);
    }
  }

  lemma AppliedFacts(s: Server)
    requires CanApply(s)
    ensures var r := ApplyNext(s);
            && r.log == s.log && r.commitIdx == s.commitIdx + 1 && r.quickCommit == s.quickCommit
            && r.halted == s.halted
            && r.delivered == s.delivered + [Delivery(s.commitIdx + 1, s.log[s.commitIdx])]
  {
  }

  // The entries of a log behind index n are among the deliveries of a server.
  ghost predicate Served(v: Server, log: seq<Entry>, n: nat) {
    log <= v.log && forall k :: n <= k < |log| ==> Delivery(k + 1, log[k]) in v.delivered
  }

  lemma DeliveredServes(s: Server, r: Server, log: seq<Entry>, n: nat)
    requires DeliveredOn(s, r) && log <= s.log && s.commitIdx <= n && r.commitIdx == |log|
    ensures Served(r, log, n)
  {
    forall k | n <= k < |log| ensures Delivery(k + 1, log[k]) in r.delivered {
      var x := |s.delivered| + k - s.commitIdx;
      assert r.delivered[x] == Delivery(k + 1, s.log[k]);
    }
  }

  lemma {:induction false} ServesAll(g: Guards, caps: seq<nat>, c: Cluster, log: seq<Entry>, n: nat, x: nat)
    returns (d: Cluster)
    requires ReachableFrom(g, caps, c) && g.dropStale && x <= |c.servers| && n <= |log|
    requires forall j: nat :: x <= j < |c.servers| ==> Knows(c.servers[j], log) && c.servers[j].commitIdx <= n
    requires forall j: nat :: j < x ==> Served(c.servers[j], log, n)
    ensures ReachableFrom(g, caps, d) && |d.servers| == |c.servers|
    ensures forall j: nat :: j < |d.servers| ==> Served(d.servers[j], log, n)
    decreases |c.servers| - x
  {
    hide ReachableFrom, Served;
    if x == |c.servers| {
      d := c;
    } else {
      assert Reachable(g, c);
      NoFatalExit(g, c, x);
      var e := AppliesTo(g, caps, c, x, |log|);
      DeliveredServes(c.servers[x], e.servers[x], log, n);
      d := ServesAll(g, caps, e, log, n, x + 1);
    }
  }

  // ---------------------------------------------------------------- the theorem

  // A leader is elected and takes a client's entries, which lie behind everything that any server
  // has applied so far.
  lemma TakesClient(caps: seq<nat>, c: Cluster, payloads: seq<int>) returns (d: Cluster, i: nat)
    requires ReachableFrom(GUARDED, caps, c) && caps != []
    ensures ReachableFrom(GUARDED, caps, d) && |d.servers| == |caps| && i < |caps| && NoRivals(d, i)
    ensures d.servers[i].role == Leader && EndsWith(d.servers[i].log, d.servers[i].term, payloads)
    ensures forall j: nat :: j < |d.servers| ==> d.servers[j].commitIdx <= |d.servers[i].log| - |payloads|
  {
    hide ReachableFrom, HandleClientReq;
    CapsStay(GUARDED, caps, c);
    var e: Cluster;
    e, i := SomeoneCanLead(GUARDED, caps, c);
    assert Reachable(GUARDED, e);
    LeadsAlways(GUARDED, e, i);
    var s := e.servers[i];
    forall j: nat | j < |e.servers| ensures e.servers[j].commitIdx <= |s.log| {
      ApplyOrder(e, j);
      LeaderCompleteness(e, [], j, i);
    }
    ClientAppends(GUARDED, s, payloads);
    ReachStep(GUARDED, caps, e, ClientCall(i, payloads));
    d := Step(GUARDED, e, ClientCall(i, payloads));
  }

  ghost predicate EndsWith(log: seq<Entry>, t: nat, payloads: seq<int>) {
    && |payloads| <= |log|
    && forall x :: 0 <= x < |payloads| ==> log[|log| - |payloads| + x] == Entry(t, App(payloads[x]))
  }

  // From every reachable state of the guarded code, for any number of servers that may send entries at
  // all, some continuation has a client's entries in every log, behind one another, and every server's
  // state machine has received each of them at its index.
  lemma ClientCanBeServed(caps: seq<nat>, c: Cluster, payloads: seq<int>) returns (d: Cluster, log: seq<Entry>, t: nat)
    requires ReachableFrom(GUARDED, caps, c) && payloads != []
    requires caps != [] && forall k :: 0 <= k < |caps| ==> caps[k] >= 1
    ensures ReachableFrom(GUARDED, caps, d) && |d.servers| == |caps| && EndsWith(log, t, payloads)
    ensures forall j: nat :: j < |d.servers| ==> Served(d.servers[j], log, |log| - |payloads|)
  {
    hide ReachableFrom, Served, Knows, UpToDateWith;
    var i: nat;
    var e: Cluster;
    e, i := TakesClient(caps, c, payloads);
    CapsStay(GUARDED, caps, e);
    log, t := e.servers[i].log, e.servers[i].term;
    assert log[|log| - 1] == Entry(t, App(payloads[|payloads| - 1]));
    var f := BringsAllUp(GUARDED, caps, e, i, 0);
    var h := CommitsLog(GUARDED, caps, f, i);
    var k := TellsAll(GUARDED, caps, h, i, 0);
    d := ServesAll(GUARDED, caps, k, log, |log| - |payloads|, 0);
  }
}
