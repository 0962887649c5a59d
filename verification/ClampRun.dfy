/** The clamp is needed however many entries a server may send at once: with the other four guards on
    and `clampCommit` off, three servers with any positive parameters have a run in which two of them
    apply different entries at one index.

    Server 0 may send m entries at once. It leads m terms, in each of which a request to server 2 is
    still on its way when the next begins. Much later, when server 2 agrees with it on m entries but
    ends in one that was never committed, these requests are delivered and rejected, each rejection
    in the present term. They walk the next index back to 1, and server 0 sends what server 2 holds
    already, with a commit index beyond it. */
module ClampRun {
  import opened RaftTypes
  import opened ServerSpec
  import opened Cluster
  import opened RunSteps
  import opened GuardRuns

  // ---------------------------------------------------------------- requests on their way

  // The x-th leadership of server 0 sent a request to server 2, in a term before t, that did not arrive.
  ghost predicate OnItsWay(c: Cluster, x: nat, t: nat) {
    && 3 + 6 * x < |c.rpcs|
    && var r := c.rpcs[3 + 6 * x];
    && r.open && r.reply == None && r.epoch == 0
    && r.req.AppendReq? && r.req.src == 0 && r.req.dst == 2 && r.req.term < t
  }

  ghost predicate Piled(c: Cluster, from: nat, m: nat, t: nat) {
    forall x: nat :: from <= x < m ==> OnItsWay(c, x, t)
  }

  // Steps that touch only later RPCs leave the pile as it is.
  lemma StillPiled(c: Cluster, d: Cluster, from: nat, m: nat, t: nat, u: nat)
    requires Piled(c, from, m, t) && t <= u && 6 * m - 2 <= |c.rpcs| <= |d.rpcs|
    requires forall k: nat :: 3 + 6 * from <= k < 6 * m - 2 ==> d.rpcs[k] == c.rpcs[k]
    ensures Piled(d, from, m, u)
  {
    forall x: nat | from <= x < m ensures OnItsWay(d, x, u) {
      assert OnItsWay(c, x, t);
    }
  }

  ghost predicate BusyOnly(p: Peer) {
    p.busy && p.matched == 0 && !p.pending
  }

  // Server 0 leads for the m-th time after the first; server 2 has not been reached yet.
  ghost predicate Leading(c: Cluster, caps: seq<nat>, m: nat, log: seq<Entry>)
    requires Trio(caps)
  {
    && |c.servers| == 3 && |c.rpcs| == 6 * m + 4 && |log| >= 1 && LastTerm(log) <= 2 * m + 1
    && Is(c.servers[0], 0, caps[0], 0, 2 * m + 1, Leader, log) && Marks(c.servers[0], 0, 0, 1, [])
    && BusyOnly(c.servers[0].peers[1]) && BusyOnly(c.servers[0].peers[2])
    && Is(c.servers[1], 1, caps[1], 0, 2 * m + 1, Follower, []) && Marks(c.servers[1], 0, 0, 0, [])
    && Knows(c.servers[1], NEW_PEER, NEW_PEER)
    && Untouched(c.servers[2], 2, caps[2])
    && Piled(c, 0, m + 1, 2 * m + 2)
  }

  // What it sent when it took office with this log.
  ghost predicate Greeted(c: Cluster, m: nat, log: seq<Entry>) {
    && |c.servers| == 3 && |c.rpcs| == 6 * m + 4
    && Knows(c.servers[0], Peer(|log| + 1, 0, true, false), Peer(|log| + 1, 0, true, false))
    && c.rpcs[6 * m + 2] == Call(AppendReq(2 * m + 1, 0, 1, LastTerm(log), |log|, 0, []), 0)
    && c.rpcs[6 * m + 3] == Call(AppendReq(2 * m + 1, 0, 2, LastTerm(log), |log|, 0, []), 0)
  }

  lemma FirstOffice(g: Guards, caps: seq<nat>) returns (c: Cluster)
    requires Trio(caps)
    ensures ReachableFrom(g, caps, c) && Leading(c, caps, 0, [Entry(1, Conf(1))])
  {
    hide ReachableFrom;
    c := FirstLeader(g, caps);
    assert OnItsWay(c, 0, 2);
  }

  // Server 1 stands in the next term, and server 0 refuses.
  lemma Deposed(g: Guards, caps: seq<nat>, b: Cluster, m: nat, log: seq<Entry>) returns (c: Cluster)
    requires Trio(caps) && ReachableFrom(g, caps, b) && Leading(b, caps, m, log)
    ensures ReachableFrom(g, caps, c) && |c.servers| == 3 && |c.rpcs| == 6 * m + 6
    ensures Is(c.servers[0], 0, caps[0], 0, 2 * m + 2, Follower, log) && Marks(c.servers[0], 0, 0, 1, [])
    ensures BusyOnly(c.servers[0].peers[1]) && BusyOnly(c.servers[0].peers[2])
    ensures Is(c.servers[1], 1, caps[1], 0, 2 * m + 2, Candidate, []) && Marks(c.servers[1], 0, 0, 0, [])
    ensures Knows(c.servers[1], NEW_PEER, NEW_PEER) && Untouched(c.servers[2], 2, caps[2])
    ensures Piled(c, 0, m + 1, 2 * m + 2)
  {
    hide ReachableFrom;
    c := Stand(g, caps, b, 1);
    c := Vote(g, caps, c, 6 * m + 4);
    StillPiled(b, c, 0, m + 1, 2 * m + 2, 2 * m + 2);
  }

  // It takes office again.
  lemma NextOffice(g: Guards, caps: seq<nat>, b: Cluster, m: nat, log: seq<Entry>) returns (c: Cluster)
    requires Trio(caps) && ReachableFrom(g, caps, b) && Leading(b, caps, m, log)
    ensures ReachableFrom(g, caps, c) && Leading(c, caps, m + 1, log) && Greeted(c, m + 1, log)
  {
    hide ReachableFrom;
    c := Deposed(g, caps, b, m, log);
    var d := c;
    c := Campaign(g, caps, c, 0, 1);
    StillPiled(d, c, 0, m + 1, 2 * m + 2, 2 * m + 4);
    assert c.rpcs[6 * m + 9].req.entries == [];
    assert OnItsWay(c, m + 1, 2 * m + 4);
  }

  // m requests on their way, and a log of m entries.
  lemma {:induction false} PileUp(g: Guards, caps: seq<nat>, m: nat) returns (c: Cluster, log: seq<Entry>)
    requires Trio(caps) && g.stampClient && m >= 1
    ensures ReachableFrom(g, caps, c) && Leading(c, caps, m, log) && Greeted(c, m, log) && |log| == m
  {
    hide ReachableFrom;
    if m == 1 {
      c := FirstOffice(g, caps);
      log := [Entry(1, Conf(1))];
    } else {
      c, log := PileUp(g, caps, m - 1);
      var b := c;
      c := Propose(g, caps, c, 0, 7);
      StillPiled(b, c, 0, m, 2 * m, 2 * m);
      log := c.servers[0].log;
    }
    c := NextOffice(g, caps, c, m - 1, log);
  }

  // ---------------------------------------------------------------- two servers, two last entries

  // Where the last requests find the cluster: server 0 leads with an entry of its own behind the
  // common log, server 2 led before it with another one.

  // Server 2 rejects the last greeting and is sent the common log.
  lemma SentFromTheStart(g: Guards, caps: seq<nat>, m: nat) returns (c: Cluster, log: seq<Entry>)
    requires Trio(caps) && g.stampClient && m == caps[0]
    ensures ReachableFrom(g, caps, c) && |c.servers| == 3 && |c.rpcs| == 6 * m + 5 && |log| == m
    ensures Is(c.servers[0], 0, caps[0], 0, 2 * m + 1, Leader, log) && Marks(c.servers[0], 0, 0, 1, [])
    ensures Knows(c.servers[0], Peer(m + 1, 0, true, false), Peer(1, 0, true, false))
    ensures Is(c.servers[1], 1, caps[1], 0, 2 * m + 1, Follower, []) && Marks(c.servers[1], 0, 0, 0, [])
    ensures Is(c.servers[2], 2, caps[2], 0, 2 * m + 1, Follower, []) && Marks(c.servers[2], 0, 0, 0, [])
    ensures c.rpcs[6 * m + 4] == Call(AppendReq(2 * m + 1, 0, 2, 0, 0, 0, log), 0)
    ensures LastTerm(log) <= 2 * m + 1 && Piled(c, 0, m, 2 * m + 2)
  {
    hide ReachableFrom;
    c, log := PileUp(g, caps, m);
    var b := c;
    c := Reject(g, caps, c, 6 * m + 3);
    c := BackOff(g, caps, c, 6 * m + 3, 2, 1);
    assert c.rpcs[6 * m + 4].req.entries == log;
    assert Piled(b, 0, m, 2 * m + 2);
    StillPiled(b, c, 0, m, 2 * m + 2, 2 * m + 2);
  }

  lemma CommonLog(g: Guards, caps: seq<nat>, m: nat) returns (c: Cluster, log: seq<Entry>)
    requires Trio(caps) && g.stampClient && m == caps[0]
    ensures ReachableFrom(g, caps, c) && |c.servers| == 3 && |c.rpcs| == 6 * m + 5 && |log| == m
    ensures Is(c.servers[0], 0, caps[0], 0, 2 * m + 1, Leader, log) && Marks(c.servers[0], 0, 0, 1, [])
    ensures Knows(c.servers[0], Peer(m + 1, 0, true, false), Peer(1, 0, true, false))
    ensures Is(c.servers[1], 1, caps[1], 0, 2 * m + 1, Follower, []) && Marks(c.servers[1], 0, 0, 0, [])
    ensures Is(c.servers[2], 2, caps[2], 0, 2 * m + 1, Follower, log) && Marks(c.servers[2], 0, 0, 0, [])
    ensures LastTerm(log) <= 2 * m + 1 && Piled(c, 0, m, 2 * m + 2)
  {
    hide ReachableFrom, Piled;
    c, log := SentFromTheStart(g, caps, m);
    var b := c;
    c := Feed(g, caps, c, 6 * m + 4, 0);
    assert c.servers[2].log == log;
    StillPiled(b, c, 0, m, 2 * m + 2, 2 * m + 2);
  }

  // Server 2 leads and appends an entry that nobody else receives.
  lemma SecondLeads(g: Guards, caps: seq<nat>, m: nat) returns (c: Cluster, log: seq<Entry>)
    requires Trio(caps) && g.stampClient && m == caps[0]
    ensures ReachableFrom(g, caps, c) && |c.servers| == 3 && |c.rpcs| == 6 * m + 9 && |log| == m
    ensures Is(c.servers[0], 0, caps[0], 0, 2 * m + 1, Leader, log) && Marks(c.servers[0], 0, 0, 1, [])
    ensures Knows(c.servers[0], Peer(m + 1, 0, true, false), Peer(1, 0, true, false))
    ensures Is(c.servers[1], 1, caps[1], 0, 2 * m + 2, Follower, []) && Marks(c.servers[1], 0, 0, 0, [])
    ensures Is(c.servers[2], 2, caps[2], 0, 2 * m + 2, Leader, log + [Entry(2 * m + 2, Conf(m + 1))])
    ensures Marks(c.servers[2], 0, 0, m + 1, [])
    ensures c.rpcs[6 * m + 5] == Call(VoteReq(2 * m + 2, 2, 0, LastTerm(log), m, 0), 0)
    ensures LastTerm(log) <= 2 * m + 1 && Piled(c, 0, m, 2 * m + 2)
  {
    hide ReachableFrom, Piled;
    c, log := CommonLog(g, caps, m);
    var b := c;
    c := Campaign(g, caps, c, 2, 1);
    StillPiled(b, c, 0, m, 2 * m + 2, 2 * m + 2);
  }

  // Server 0 leads again.
  lemma TwoLeaders(g: Guards, caps: seq<nat>, m: nat) returns (c: Cluster, log: seq<Entry>)
    requires Trio(caps) && g.stampClient && m == caps[0]
    ensures ReachableFrom(g, caps, c) && |c.servers| == 3 && |c.rpcs| == 6 * m + 13 && |log| == m
    ensures Is(c.servers[0], 0, caps[0], 0, 2 * m + 3, Leader, log) && Marks(c.servers[0], 0, 0, 1, [])
    ensures Knows(c.servers[0], Peer(m + 1, 0, true, false), Peer(m + 1, 0, true, false))
    ensures Is(c.servers[1], 1, caps[1], 0, 2 * m + 3, Follower, []) && Marks(c.servers[1], 0, 0, 0, [])
    ensures Is(c.servers[2], 2, caps[2], 0, 2 * m + 2, Leader, log + [Entry(2 * m + 2, Conf(m + 1))])
    ensures Marks(c.servers[2], 0, 0, m + 1, []) && LastTerm(log) <= 2 * m + 1
    ensures c.rpcs[6 * m + 10] == Call(VoteReq(2 * m + 3, 0, 2, LastTerm(log), m, 0), 0)
    ensures c.rpcs[6 * m + 11] == Call(AppendReq(2 * m + 3, 0, 1, LastTerm(log), m, 0, []), 0)
    ensures Piled(c, 0, m, 2 * m + 2)
  {
    hide ReachableFrom, Piled;
    c, log := SecondLeads(g, caps, m);
    var b := c;
    c := Vote(g, caps, c, 6 * m + 5);
    c := Campaign(g, caps, c, 0, 1);
    assert c.rpcs[6 * m + 11].req.entries == [];
    StillPiled(b, c, 0, m, 2 * m + 2, 2 * m + 2);
  }

  // Server 0 appends an entry of its term and sends the common log to server 1, which has nothing.
  lemma SteppedBackTo1(g: Guards, caps: seq<nat>, m: nat) returns (c: Cluster, log: seq<Entry>)
    requires Trio(caps) && g.stampClient && m == caps[0]
    ensures ReachableFrom(g, caps, c) && |c.servers| == 3 && |c.rpcs| == 6 * m + 14 && |log| == m
    ensures Is(c.servers[0], 0, caps[0], 0, 2 * m + 3, Leader, log + [Entry(2 * m + 3, App(9))])
    ensures Marks(c.servers[0], 0, 0, 1, [])
    ensures Knows(c.servers[0], Peer(1, 0, true, false), Peer(m + 1, 0, true, false))
    ensures Is(c.servers[1], 1, caps[1], 0, 2 * m + 3, Follower, []) && Marks(c.servers[1], 0, 0, 0, [])
    ensures Is(c.servers[2], 2, caps[2], 0, 2 * m + 2, Leader, log + [Entry(2 * m + 2, Conf(m + 1))])
    ensures Marks(c.servers[2], 0, 0, m + 1, []) && LastTerm(log) <= 2 * m + 1
    ensures c.rpcs[6 * m + 10] == Call(VoteReq(2 * m + 3, 0, 2, LastTerm(log), m, 0), 0)
    ensures c.rpcs[6 * m + 13] == Call(AppendReq(2 * m + 3, 0, 1, 0, 0, 0, log), 0)
    ensures Piled(c, 0, m, 2 * m + 3)
  {
    hide ReachableFrom, Piled;
    c, log := TwoLeaders(g, caps, m);
    var b := c;
    c := Propose(g, caps, c, 0, 9);
    c := Reject(g, caps, c, 6 * m + 11);
    c := BackOff(g, caps, c, 6 * m + 11, 1, 1);
    assert c.rpcs[6 * m + 13].req.entries == log;
    StillPiled(b, c, 0, m, 2 * m + 2, 2 * m + 3);
  }

  // After x of the requests on their way have been rejected.
  ghost predicate Diverged(c: Cluster, caps: seq<nat>, m: nat, log: seq<Entry>, x: nat)
    requires Trio(caps)
  {
    && |c.servers| == 3 && |c.rpcs| == 6 * m + 16 + x && |log| == m && x <= m
    && Is(c.servers[0], 0, caps[0], 0, 2 * m + 3, Leader, log + [Entry(2 * m + 3, App(9))])
    && Marks(c.servers[0], m + 1, 0, 1, [])
    && Knows(c.servers[0], Peer(m + 2, m + 1, true, false), Peer(m + 1 - x, 0, true, true))
    && Is(c.servers[2], 2, caps[2], 0, 2 * m + 3, Follower, log + [Entry(2 * m + 2, Conf(m + 1))])
    && Marks(c.servers[2], 0, 0, m + 1, [])
    && Piled(c, x, m, 2 * m + 3)
  }

  // Server 1 takes the common log.
  lemma CommonLogTaken(g: Guards, caps: seq<nat>, m: nat) returns (c: Cluster, log: seq<Entry>)
    requires Trio(caps) && g.stampClient && m == caps[0]
    ensures ReachableFrom(g, caps, c) && |c.servers| == 3 && |c.rpcs| == 6 * m + 14 && |log| == m
    ensures Is(c.servers[0], 0, caps[0], 0, 2 * m + 3, Leader, log + [Entry(2 * m + 3, App(9))])
    ensures Marks(c.servers[0], 0, 0, 1, [])
    ensures Knows(c.servers[0], Peer(1, 0, true, false), Peer(m + 1, 0, true, false))
    ensures Is(c.servers[1], 1, caps[1], 0, 2 * m + 3, Follower, log) && Marks(c.servers[1], 0, 0, 0, [])
    ensures Is(c.servers[2], 2, caps[2], 0, 2 * m + 2, Leader, log + [Entry(2 * m + 2, Conf(m + 1))])
    ensures Marks(c.servers[2], 0, 0, m + 1, []) && LastTerm(log) <= 2 * m + 1
    ensures c.rpcs[6 * m + 10] == Call(VoteReq(2 * m + 3, 0, 2, LastTerm(log), m, 0), 0)
    ensures var q := AppendReq(2 * m + 3, 0, 1, 0, 0, 0, log);
            c.rpcs[6 * m + 13] == Rpc(q, 0, Some(AppendResp(2 * m + 3, 1, 0, m + 1, true)), true)
    ensures Piled(c, 0, m, 2 * m + 3)
  {
    hide ReachableFrom, Piled;
    c, log := SteppedBackTo1(g, caps, m);
    var b := c;
    c := Feed(g, caps, c, 6 * m + 13, 0);
    assert c.servers[1].log == log;
    StillPiled(b, c, 0, m, 2 * m + 3, 2 * m + 3);
  }

  // Server 1 acknowledges the common log, of which nothing may be committed yet.
  lemma CommonLogHeld(g: Guards, caps: seq<nat>, m: nat) returns (c: Cluster, log: seq<Entry>)
    requires Trio(caps) && g.stampClient && g.ownTerm && m == caps[0]
    ensures ReachableFrom(g, caps, c) && |c.servers| == 3 && |c.rpcs| == 6 * m + 15 && |log| == m
    ensures Is(c.servers[0], 0, caps[0], 0, 2 * m + 3, Leader, log + [Entry(2 * m + 3, App(9))])
    ensures Marks(c.servers[0], 0, 0, 1, [])
    ensures Knows(c.servers[0], Peer(m + 1, m, true, false), Peer(m + 1, 0, true, false))
    ensures Is(c.servers[1], 1, caps[1], 0, 2 * m + 3, Follower, log) && Marks(c.servers[1], 0, 0, 0, [])
    ensures Is(c.servers[2], 2, caps[2], 0, 2 * m + 2, Leader, log + [Entry(2 * m + 2, Conf(m + 1))])
    ensures Marks(c.servers[2], 0, 0, m + 1, []) && LastTerm(log) <= 2 * m + 1
    ensures c.rpcs[6 * m + 10] == Call(VoteReq(2 * m + 3, 0, 2, LastTerm(log), m, 0), 0)
    ensures var q := AppendReq(2 * m + 3, 0, 1, LastTerm(log), m, 0, [Entry(2 * m + 3, App(9))]);
            c.rpcs[6 * m + 14] == Call(q, 0)
    ensures Piled(c, 0, m, 2 * m + 3)
  {
    hide ReachableFrom, Piled;
    c, log := CommonLogTaken(g, caps, m);
    var b := c;
    c := AckQuiet(g, caps, c, 6 * m + 13, 1, m);
    assert c.rpcs[6 * m + 14].req.entries == [Entry(2 * m + 3, App(9))];
    StillPiled(b, c, 0, m, 2 * m + 3, 2 * m + 3);
  }

  // Server 0 commits its entry; server 2 refuses its vote and steps down.
  lemma Committed(g: Guards, caps: seq<nat>, m: nat) returns (c: Cluster, log: seq<Entry>)
    requires Trio(caps) && g.stampClient && g.ownTerm && m == caps[0]
    ensures ReachableFrom(g, caps, c) && |log| == m && Diverged(c, caps, m, log, 0)
  {
    hide ReachableFrom, Piled;
    c, log := CommonLogHeld(g, caps, m);
    var b := c;
    c := Feed(g, caps, c, 6 * m + 14, 0);
    c := AckCommits(g, caps, c, 6 * m + 14, 1, m + 1, m + 1);
    c := Vote(g, caps, c, 6 * m + 10);
    StillPiled(b, c, 0, m, 2 * m + 3, 2 * m + 3);
  }

  // Each rejection lowers the next index by one; the last one makes it 1.
  lemma {:induction false} WalkBack(g: Guards, caps: seq<nat>, m: nat, x: nat) returns (c: Cluster, log: seq<Entry>)
    requires Trio(caps) && g.stampClient && g.ownTerm && m == caps[0] && x <= m
    ensures ReachableFrom(g, caps, c) && Diverged(c, caps, m, log, x)
    ensures x == m ==> c.rpcs[6 * m + 15 + x] == Call(AppendReq(2 * m + 3, 0, 2, 0, 0, m + 1, log), 0)
    decreases x
  {
    hide ReachableFrom;
    if x == 0 {
      c, log := Committed(g, caps, m);
    } else {
      c, log := WalkBack(g, caps, m, x - 1);
      var b := c;
      assert OnItsWay(b, x - 1, 2 * m + 3);
      c := RejectOld(g, caps, c, 3 + 6 * (x - 1));
      c := BackOff(g, caps, c, 3 + 6 * (x - 1), 2, m + 1 - x);
      if x == m {
        assert c.rpcs[6 * m + 15 + x].req.entries == log;
      }
      assert Piled(b, x, m, 2 * m + 3);
      StillPiled(b, c, x, m, 2 * m + 3, 2 * m + 3);
    }
  }

  // ---------------------------------------------------------------- two deliveries

  // Server i delivers its log up to index k.
  lemma {:induction false} ApplyUpTo(g: Guards, caps: seq<nat>, c: Cluster, i: nat, k: nat) returns (d: Cluster)
    requires ReachableFrom(g, caps, c) && i < |c.servers| && Member(c.servers[i], i)
    requires var s := c.servers[i]; |s.delivered| == s.commitIdx <= k <= s.quickCommit && k <= |s.log|
    ensures ReachableFrom(g, caps, d) && |d.servers| == |c.servers| && d.servers == c.servers[i := d.servers[i]]
    ensures var s, t := c.servers[i], d.servers[i];
            && Member(t, i) && t.role == s.role && t.term == s.term && t.log == s.log
            && t.quickCommit == s.quickCommit && t.commitIdx == |t.delivered| == k
            && (s.commitIdx < k ==> t.delivered[k - 1] == Delivery(k, s.log[k - 1]))
    decreases k
  {
    hide ReachableFrom;
    d := c;
    if c.servers[i].commitIdx < k {
      d := ApplyUpTo(g, caps, c, i, k - 1);
      d := Apply(g, caps, d, i);
    }
  }

  lemma CommitUnclamped(g: Guards, caps: seq<nat>) returns (c: Cluster)
    requires Trio(caps) && g.stampClient && g.ownTerm && !g.clampCommit
    ensures ReachableFrom(g, caps, c) && !StateMachineSafe(c) && Parted(c, 2, 0, caps[0])
  {
    hide ReachableFrom;
    var m := caps[0];
    var log;
    c, log := WalkBack(g, caps, m, m);
    c := Feed(g, caps, c, 7 * m + 15, m);
    c := ApplyUpTo(g, caps, c, 0, m + 1);
    c := ApplyUpTo(g, caps, c, 2, m + 1);
    assert c.servers[0].delivered[m].idx == c.servers[2].delivered[m].idx;
  }
}
