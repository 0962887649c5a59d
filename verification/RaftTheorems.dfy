/** The safety properties of the Raft paper, for every run of the guarded code: any cluster
    size, any parameters, any order of timeouts, deliveries, losses, errors and crashes. */
module RaftTheorems {
  import opened RaftTypes
  import opened Quorum
  import opened Median
  import opened RaftCore
  import opened ServerSpec
  import opened Cluster
  import opened ClusterInvariant
  import opened ClusterProofs

  lemma ReachableLinked(g: Guards, scope: Scope, c: Cluster) returns (core: Core, tally: Tally)
    requires Reachable(g, c) && Covers(g, scope)
    ensures Linked(c, core, tally) && core.scope == scope
  {
    var caps: seq<nat> :| ReachableFrom(g, caps, c);
    var acts: seq<Action> :| c == After(g, Init(caps), acts);
    var core0, tally0 := InitLinked(scope, caps);
    RunKeepsInv(g, Init(caps), core0, tally0, acts);
    core, tally :| Grows(core0, core) && Linked(c, core, tally);
  }

  // ---------------------------------------------------------------- state machine safety

  lemma StateMachineSafety(c: Cluster)
    requires Reachable(GUARDED, c)
    ensures StateMachineSafe(c)
  {
    var core, tally := ReachableLinked(GUARDED, Commits, c);
    forall i: nat, j: nat, x: nat, y: nat |
      && i < |c.servers| && x < |c.servers[i].delivered|
      && j < |c.servers| && y < |c.servers[j].delivered|
      && c.servers[i].delivered[x].idx == c.servers[j].delivered[y].idx
      ensures c.servers[i].delivered[x].entry == c.servers[j].delivered[y].entry
    {
      assert ServerAt(c, core, i) && ServerAt(c, core, j);
      assert DeliveryOK(core, c.servers[i].delivered[x]);
      assert DeliveryOK(core, c.servers[j].delivered[y]);
      DeliveriesAgree(core, c.servers[i].delivered[x], c.servers[j].delivered[y]);
    }
  }

  lemma DeliveriesAgree(core: Core, a: Delivery, b: Delivery)
    requires core.scope.Commits? && CoreInv(core) && DeliveryOK(core, a) && DeliveryOK(core, b) && a.idx == b.idx
    ensures a.entry == b.entry
  {
    var t: nat, k: nat :| DeliveredFrom(core, a, t, k);
    var u: nat, m: nat :| DeliveredFrom(core, b, u, m);
    var p, q := core.leaders[t].log[..k], core.leaders[u].log[..m];
    assert CommittedAs(core, p, t, k) && CommittedAs(core, q, u, m);
    CommittedLogsAgree(core, p, q, t, u);
    assert p[a.idx - 1] == q[b.idx - 1];
  }

  // ---------------------------------------------------------------- election safety

  // Two leaders of one term, in one state or at any two moments of one run, are the same server.
  lemma ElectionSafety(g: Guards, c: Cluster, acts: seq<Action>, i: nat, j: nat)
    requires Reachable(g, c) && g.dropStale
    requires i < |c.servers| && c.servers[i].role == Leader
    requires var d := After(g, c, acts);
             j < |d.servers| && d.servers[j].role == Leader && d.servers[j].term == c.servers[i].term
    ensures i == j
  {
    var core, tally := ReachableLinked(g, Elections, c);
    RunKeepsInv(g, c, core, tally, acts);
    var d := After(g, c, acts);
    var core': Core, tally': Tally :| Grows(core, core') && Linked(d, core', tally');
    assert ServerAt(c, core, i) && ServerAt(d, core', j);
    assert ReignGrows(core, core', c.servers[i].term);
  }

  // The servers that gave server i their vote in its current term, as the RPCs show.
  ghost function Voters(c: Cluster, i: nat): set<nat>
    requires i < |c.servers|
  {
    set v: nat | v < |c.servers| && GrantedTo(c, c.servers[i], v)
  }

  // The vote counter never runs ahead of the distinct servers that voted.
  lemma VotesAreDistinctServers(g: Guards, c: Cluster, i: nat)
    requires Reachable(g, c) && g.dropStale && i < |c.servers|
    ensures c.servers[i].granted <= |Voters(c, i)|
  {
    var core, tally := ReachableLinked(g, Elections, c);
    assert TallyAt(c, core, tally, i);
    assert tally[i] <= Voters(c, i);
    SubsetCardinality(tally[i], Voters(c, i));
  }

  lemma {:induction false} SubsetCardinality(a: set<nat>, b: set<nat>)
    requires a <= b
    ensures |a| <= |b|
  {
    if a != {} {
      var x :| x in a;
      SubsetCardinality(a - {x}, b - {x});
    }
  }

  // ---------------------------------------------------------------- log matching

  ghost predicate SharedUpTo(a: seq<Entry>, b: seq<Entry>, k: nat) {
    k <= |a| && k <= |b| && a[..k] == b[..k]
  }

  lemma LogMatching(g: Guards, c: Cluster, i: nat, j: nat, k: nat)
    requires Reachable(g, c) && g.dropStale && g.stampClient && i < |c.servers| && j < |c.servers|
    requires k < |c.servers[i].log| && k < |c.servers[j].log|
    requires c.servers[i].log[k].term == c.servers[j].log[k].term
    ensures SharedUpTo(c.servers[i].log, c.servers[j].log, k + 1)
  {
    var core, tally := ReachableLinked(g, Logs, c);
    assert ServerAt(c, core, i) && ServerAt(c, core, j);
    assert ServerOK(core, i) && ServerOK(core, j);
    SameTermSamePrefix(core, c.servers[i].log, c.servers[j].log, k);
  }

  // The same between a log and any request to append ever sent: where the terms at one index
  // agree, the log holds the request's entries up to there and its previous term before them.
  lemma LogMatchesRequest(g: Guards, c: Cluster, i: nat, k: nat, x: nat)
    requires Reachable(g, c) && g.dropStale && g.stampClient
    requires i < |c.servers| && k < |c.rpcs| && c.rpcs[k].req.AppendReq?
    requires x < |c.rpcs[k].req.entries| && c.rpcs[k].req.prevIdx + x < |c.servers[i].log|
    requires c.servers[i].log[c.rpcs[k].req.prevIdx + x].term == c.rpcs[k].req.entries[x].term
    ensures var req, log := c.rpcs[k].req, c.servers[i].log;
            log[req.prevIdx..req.prevIdx + x + 1] == req.entries[..x + 1] && TermAt(log, req.prevIdx) == req.prevTerm
  {
    hide CommitOK, HistoryOK, PeerOK, EntrySourced, CommittedLog;
    var core, tally := ReachableLinked(g, Logs, c);
    assert ServerAt(c, core, i) && RpcAt(c, core, k);
    var req, log := c.rpcs[k].req, c.servers[i].log;
    var leading := core.leaders[req.term].log;
    assert leading[req.prevIdx + x] == leading[req.prevIdx..req.prevIdx + |req.entries|][x];
    assert ServerOK(core, i) && ReignOK(core, req.term);
    PieceMatches(core, req, log, leading, x);
  }

  // A log that has a term of a leader's log at the same index, and a piece of that log.
  lemma PieceMatches(core: Core, req: Request, log: seq<Entry>, leading: seq<Entry>, x: nat)
    requires req.AppendReq? && x < |req.entries| && req.prevIdx + x < |log|
    requires req.prevIdx + |req.entries| <= |leading|
    requires req.entries == leading[req.prevIdx..req.prevIdx + |req.entries|]
    requires req.prevTerm == TermAt(leading, req.prevIdx)
    requires log[req.prevIdx + x].term == req.entries[x].term
    requires EntrySourced(core, log, req.prevIdx + x) && EntrySourced(core, leading, req.prevIdx + x)
    ensures log[req.prevIdx..req.prevIdx + x + 1] == req.entries[..x + 1] && TermAt(log, req.prevIdx) == req.prevTerm
  {
    var p := req.prevIdx;
    SameTermSamePrefix(core, log, leading, p + x);
    hide EntrySourced;
    assert log[p..p + x + 1] == log[..p + x + 1][p..] == leading[..p + x + 1][p..] == req.entries[..x + 1];
    if p > 0 {
      assert log[p - 1] == log[..p + x + 1][p - 1] == leading[..p + x + 1][p - 1];
    }
  }

  // ---------------------------------------------------------------- leader completeness

  // What any server holds as committed at some moment is, from then on, in the log of every
  // leader of that term or a later one.
  lemma LeaderCompleteness(c: Cluster, acts: seq<Action>, i: nat, j: nat)
    requires Reachable(GUARDED, c) && i < |c.servers|
    requires var d := After(GUARDED, c, acts);
             j < |d.servers| && d.servers[j].role == Leader && c.servers[i].term <= d.servers[j].term
    ensures var s, r := c.servers[i], After(GUARDED, c, acts).servers[j];
            s.quickCommit <= |s.log| && s.log[..s.quickCommit] <= r.log
  {
    var core, tally := ReachableLinked(GUARDED, Commits, c);
    RunKeepsInv(GUARDED, c, core, tally, acts);
    var d := After(GUARDED, c, acts);
    var core': Core, tally': Tally :| Grows(core, core') && Linked(d, core', tally');
    assert ServerAt(c, core, i) && ServerAt(d, core', j);
    var s := c.servers[i];
    CommittedLogStays(core, core', s.log[..s.quickCommit], s.term, s.term);
    CommittedLogReachesLeader(core', s.log[..s.quickCommit], s.term, d.servers[j].term);
    assert ReignOK(core', d.servers[j].term);
  }

  // ---------------------------------------------------------------- commit evidence

  // A leader's matched index never exceeds the prefix that a peer shares with it, as long as
  // the peer is not in a later term; a peer still in an earlier one has matched nothing.
  lemma MatchedIsShared(g: Guards, c: Cluster, i: nat, j: nat)
    requires Reachable(g, c) && g.dropStale && g.stampClient && g.resetMatched
    requires i < |c.servers| && j < |c.servers| && i != j
    requires c.servers[i].role == Leader && c.servers[j].term <= c.servers[i].term
    ensures j < |c.servers[i].peers|
    ensures SharedUpTo(c.servers[i].log, c.servers[j].log, c.servers[i].peers[j].matched)
    ensures c.servers[j].term < c.servers[i].term ==> c.servers[i].peers[j].matched == 0
  {
    var core, tally := ReachableLinked(g, Peers, c);
    assert ServerAt(c, core, i) && ServerAt(c, core, j);
    var s, r := c.servers[i], c.servers[j];
    assert PeerOK(core, s, j);
    assert ReignOK(core, s.term);
    if s.peers[j].matched > 0 {
      assert AckOK(core, j, s.term);
      var m, a := s.peers[j].matched, core.acks[(j, s.term)];
      assert s.log[..m] == s.log[..a][..m] == r.log[..a][..m] == r.log[..m];
    }
  }

  // A strict majority of the servers hold a log that starts with these entries.
  ghost predicate OnMajority(c: Cluster, log: seq<Entry>) {
    exists q: set<nat> :: HeldBy(c, log, q)
  }

  ghost predicate HeldBy(c: Cluster, log: seq<Entry>, q: set<nat>) {
    Majority(q, |c.servers|) && forall v :: v in q ==> v < |c.servers| && log <= c.servers[v].log
  }

  // What any server holds as committed at some moment is, from then on, in the logs of a
  // strict majority.
  lemma CommittedStaysOnMajority(c: Cluster, acts: seq<Action>, i: nat)
    requires Reachable(GUARDED, c) && i < |c.servers|
    ensures var s := c.servers[i];
            s.quickCommit <= |s.log| && OnMajority(After(GUARDED, c, acts), s.log[..s.quickCommit])
  {
    var core, tally := ReachableLinked(GUARDED, Commits, c);
    RunKeepsInv(GUARDED, c, core, tally, acts);
    var d := After(GUARDED, c, acts);
    var core': Core, tally': Tally :| Grows(core, core') && Linked(d, core', tally');
    assert ServerAt(c, core, i);
    var s := c.servers[i];
    CommittedLogStays(core, core', s.log[..s.quickCommit], s.term, s.term);
    var q := CommittedLogOnMajority(core', s.log[..s.quickCommit], s.term);
    forall v | v in q ensures v < |d.servers| && s.log[..s.quickCommit] <= d.servers[v].log {
      assert ServerAt(d, core', v);
    }
    assert HeldBy(d, s.log[..s.quickCommit], q);
  }

  ghost predicate Storing(core: Core, log: seq<Entry>, q: set<nat>) {
    Majority(q, |core.terms|) && forall v :: v in q ==> v < |core.logs| && log <= core.logs[v]
  }

  lemma CommittedLogOnMajority(core: Core, log: seq<Entry>, bound: nat) returns (q: set<nat>)
    requires core.scope.Commits?
    requires CoreInv(core) && CommittedLog(core, log, bound) && |core.terms| > 0
    ensures Storing(core, log, q)
  {
    if log == [] {
      q := Everyone(|core.terms|);
    } else {
      var t: nat, k: nat :| t <= bound && CommittedAs(core, log, t, k);
      CommittedIsKept(core, t, k);
      q :| AckQuorum(core, t, k, q);
      forall v | v in q ensures v < |core.logs| && log <= core.logs[v] {
        assert HolderKeeps(core, core.leaders[t].log[..k], t, k, v);
      }
    }
  }

  lemma {:induction false} Everyone(n: nat) returns (q: set<nat>)
    ensures |q| == n && forall v: nat :: v in q <==> v < n
    decreases n
  {
    if n == 0 {
      q := {};
    } else {
      q := Everyone(n - 1);
      q := q + {n - 1};
    }
  }

  // ---------------------------------------------------------------- fatal exits, apply order

  // No server ever takes a fatal exit: on a request to append from another leader of its term, on
  // an election timeout as a leader, on a next index past its log.
  lemma NoFatalExit(g: Guards, c: Cluster, i: nat)
    requires Reachable(g, c) && g.dropStale && i < |c.servers|
    ensures !c.servers[i].halted
    ensures c.servers[i].role == Leader ==> forall j: nat :: j < |c.servers[i].peers| && j != i ==>
              1 <= c.servers[i].peers[j].next <= |c.servers[i].log| + 1
  {
    var core, tally := ReachableLinked(g, Elections, c);
    assert ServerAt(c, core, i);
    var s := c.servers[i];
    forall j: nat | s.role == Leader && j < |s.peers| && j != i ensures 1 <= s.peers[j].next <= |s.log| + 1 {
      assert PeerOK(core, s, j);
    }
  }

  // What a server should have delivered since its restart: the entries of its own log between
  // the commit index it started with and the present one, in order, each once.
  ghost function Expected(s: Server): seq<Delivery>
    requires s.bootCommit <= s.commitIdx <= |s.log|
  {
    seq(s.commitIdx - s.bootCommit,
        x requires 0 <= x < s.commitIdx - s.bootCommit => Delivery(s.bootCommit + x + 1, s.log[s.bootCommit + x]))
  }

  lemma ApplyOrder(c: Cluster, i: nat)
    requires Reachable(GUARDED, c) && i < |c.servers|
    ensures var s := c.servers[i];
            && s.bootCommit <= s.commitIdx <= |s.log| && s.commitIdx <= s.quickCommit
            && s.bootMark <= |s.delivered|
            && s.delivered[s.bootMark..] == Expected(s)
  {
    hide CoreInv, RpcAt, TallyAt, CommittedLog, DeliveryOK;
    var core, tally := ReachableLinked(GUARDED, Commits, c);
    assert ServerAt(c, core, i);
    var s := c.servers[i];
    forall x: nat | x < s.commitIdx - s.bootCommit ensures s.delivered[s.bootMark..][x] == Expected(s)[x] {
      assert InOrder(s, x);
    }
  }

  // The commit index falls only in a restart, whatever the guards.
  lemma CommitIndexNeverFalls(g: Guards, c: Cluster, a: Action, i: nat)
    requires i < |c.servers| && a != Crash(i)
    ensures i < |Step(g, c, a).servers|
    ensures Step(g, c, a).servers[i].commitIdx >= c.servers[i].commitIdx
  {
    if Enabled(c, a) {
      match a
      case Timeout(k) => TimeoutCommitIdx(g, c.servers[k]);
      case ClientCall(k, payloads) =>
        if c.servers[k].role == Leader {
          var t := if g.stampClient then c.servers[k].term else CLIENT_TERM;
          AllOnlySends(c.servers[k].(log := c.servers[k].log + Stamped(t, payloads)));
        }
      case Heartbeat(k, j) =>
      case Deliver(k) => RequestCommitIdx(g, c.servers[c.rpcs[k].req.dst], c.rpcs[k].req);
      case Return(k) =>
        var s := c.servers[c.rpcs[k].req.src];
        ResponseCommitIdx(g, FreePeer(s, c.rpcs[k].req), c.rpcs[k].reply.value);
      case Fail(k) =>
      case ApplyOne(k) =>
      case Crash(k) =>
    }
  }

  lemma TimeoutCommitIdx(g: Guards, s: Server)
    ensures ElectionTimeout(g, s).s.commitIdx == s.commitIdx
  {
    AllOnlySends(TakeOffice(g, StandForElection(s).(electionDone := true)));
  }

  lemma RequestCommitIdx(g: Guards, s: Server, req: Request)
    ensures ProcessReq(g, s, req).out.s.commitIdx == s.commitIdx
  {
    var s0 := UpdateTerm(s, req.term);
    if req.AppendReq? && !(req.term == s0.term && s0.role == Leader) {
      var s1 := if req.term != s0.term then s0
                else if s0.role == Candidate then BecomeFollower(s0) else s0.(timerOn := true);
      if !(req.term < s1.term || !LogOkay(s1, req)) {
        CommitOnlySends(s1.(log := Merge(s1.log, req.prevIdx, req.entries), leader := Some(req.src)),
                CommitTarget(g, req));
      }
    }
  }

  lemma ResponseCommitIdx(g: Guards, s: Server, resp: Response)
    ensures HandlePeerResp(g, s, resp).s.commitIdx == s.commitIdx
  {
    hide Commit, RequestAppendAll, RequestAppend, MedianOf, Matches;
    if resp.VoteResp? {
      AllOnlySends(TakeOffice(g, HandlingOfVote(s, resp.accepted).(electionDone := true)));
    } else if KnownPeer(s, resp.src) {
      PeerResponseSends(g, s, resp);
    }
  }

  // What an answer of a peer changes apart from the commit index and the peers: nothing.
  lemma PeerResponseSends(g: Guards, s: Server, resp: Response)
    requires KnownPeer(s, resp.src)
    ensures var r := HandleAppendResp(g, s, resp).s; OnlySent(s.(quickCommit := r.quickCommit), r)
  {
    hide Commit, RequestAppend, MedianOf, Matches;
    var p := s.peers[resp.src];
    if resp.accepted {
      var s1 := SetPeer(s, resp.src, p.(next := resp.next, matched := Dec(resp.next)));
      CommitOnlySends(s1, MedianOf(Matches(s1)));
      var a := NotePeerMatch(g, s, resp);
      OneOnlySends(SetPeer(a.s, resp.src, a.s.peers[resp.src].(pending := false)), resp.src);
    } else {
      OneOnlySends(SetPeer(s, resp.src, p.(next := SteppedBack(p.next, resp.next))), resp.src);
    }
  }
}
