/** Each guard is needed: with one of them off, a cluster of three has a run in which two servers
    apply different entries at one index, whatever number of entries each server may send at once.
    The run for the clamp is in module ClampRun.

    A run is cut into lemmas of a few steps; each states what the next one needs to know of the
    servers and of the RPCs still to be answered. */
module GuardRuns {
  import opened RaftTypes
  import opened ServerSpec
  import opened Cluster
  import opened RunSteps

  // What the runs need to know of a server: who it is, its log, its commit state, its two peers.
  ghost predicate Is(s: Server, i: nat, cap: nat, epoch: nat, term: nat, role: Role, log: seq<Entry>) {
    && Member(s, i) && s.maxAppend == cap && s.epoch == epoch && s.term == term && s.role == role && s.log == log
    && (role != Leader ==> s.timerOn)
  }

  ghost predicate Marks(s: Server, quick: nat, commit: nat, conf: nat, delivered: seq<Delivery>) {
    s.quickCommit == quick && s.commitIdx == commit && s.configIdx == conf && s.delivered == delivered
  }

  ghost predicate Knows(s: Server, p: Peer, q: Peer) {
    s.id < 3 && |s.peers| == 3 && s.peers[P(s.id)] == p && s.peers[Q(s.id)] == q
  }

  ghost predicate Saved(s: Server, commit: nat, conf: nat) {
    s.savedCommit == commit && s.savedConfigIdx == conf
  }

  ghost predicate Untouched(s: Server, i: nat, cap: nat) {
    Is(s, i, cap, 0, 0, Follower, []) && Marks(s, 0, 0, 0, []) && Knows(s, NEW_PEER, NEW_PEER) && Saved(s, 0, 0)
  }

  // Three servers, each of which may send entries.
  ghost predicate Trio(caps: seq<nat>) {
    |caps| == 3 && caps[0] >= 1 && caps[1] >= 1 && caps[2] >= 1
  }

  // Server j leads, in server i's term or a later one, and both take an entry at index x + 1 as
  // committed, but not the same.
  ghost predicate Parted(c: Cluster, i: nat, j: nat, x: nat) {
    && i < |c.servers| && j < |c.servers|
    && c.servers[j].role == Leader && c.servers[i].term <= c.servers[j].term
    && x < c.servers[i].quickCommit && x < |c.servers[i].log|
    && x < c.servers[j].quickCommit && x < |c.servers[j].log|
    && c.servers[i].log[x] != c.servers[j].log[x]
  }

  lemma Begin(g: Guards, caps: seq<nat>) returns (c: Cluster)
    requires Trio(caps)
    ensures ReachableFrom(g, caps, c) && |c.servers| == 3 && c.rpcs == []
    ensures Untouched(c.servers[0], 0, caps[0]) && Untouched(c.servers[1], 1, caps[1])
    ensures Untouched(c.servers[2], 2, caps[2])
  {
    c := Init(caps);
    assert c == After(g, c, []);
  }

  // ---------------------------------------------------------------- client entries keep term 0

  // Servers 0 and 1 each append a client entry of term 0 at index 2. Entries of equal term are
  // taken to be equal, so the next leader's request to append leaves both in place and commits
  // them.

  // A first leader, whatever the guards.
  lemma FirstLeader(g: Guards, caps: seq<nat>) returns (c: Cluster)
    requires Trio(caps)
    ensures ReachableFrom(g, caps, c) && |c.servers| == 3 && |c.rpcs| == 4
    ensures Is(c.servers[0], 0, caps[0], 0, 1, Leader, [Entry(1, Conf(1))])
    ensures Marks(c.servers[0], 0, 0, 1, [])
    ensures Knows(c.servers[0], Peer(1, 0, true, false), Peer(1, 0, true, false))
    ensures Saved(c.servers[0], 0, 0)
    ensures Is(c.servers[1], 1, caps[1], 0, 1, Follower, [])
    ensures Marks(c.servers[1], 0, 0, 0, [])
    ensures Knows(c.servers[1], NEW_PEER, NEW_PEER)
    ensures Saved(c.servers[1], 0, 0)
    ensures Untouched(c.servers[2], 2, caps[2])
    ensures c.rpcs[2] == Call(AppendReq(1, 0, 1, 0, 0, 0, [Entry(1, Conf(1))]), 0)
    ensures c.rpcs[3] == Call(AppendReq(1, 0, 2, 0, 0, 0, [Entry(1, Conf(1))]), 0)
  {
    hide ReachableFrom;
    c := Begin(g, caps);
    c := Campaign(g, caps, c, 0, 1);
    assert c.rpcs[2].req.entries == c.rpcs[3].req.entries == [Entry(1, Conf(1))];
  }

  // A first leader whose first entry reached server 1, whatever the guards.
  lemma FirstEntry(g: Guards, caps: seq<nat>) returns (c: Cluster)
    requires Trio(caps)
    ensures ReachableFrom(g, caps, c) && |c.servers| == 3 && |c.rpcs| == 4
    ensures Is(c.servers[0], 0, caps[0], 0, 1, Leader, [Entry(1, Conf(1))])
    ensures Marks(c.servers[0], 0, 0, 1, [])
    ensures Knows(c.servers[0], Peer(1, 0, true, false), Peer(1, 0, true, false))
    ensures Saved(c.servers[0], 0, 0)
    ensures Is(c.servers[1], 1, caps[1], 0, 1, Follower, [Entry(1, Conf(1))])
    ensures Marks(c.servers[1], 0, 0, 0, [])
    ensures Knows(c.servers[1], NEW_PEER, NEW_PEER)
    ensures Saved(c.servers[1], 0, 0)
    ensures Untouched(c.servers[2], 2, caps[2])
    ensures c.rpcs[2] ==
              Rpc(AppendReq(1, 0, 1, 0, 0, 0, [Entry(1, Conf(1))]), 0, Some(AppendResp(1, 1, 0, 2, true)), true)
    ensures c.rpcs[3] == Rpc(AppendReq(1, 0, 2, 0, 0, 0, [Entry(1, Conf(1))]), 0, None, true)
  {
    hide ReachableFrom;
    c := FirstLeader(g, caps);
    c := Feed(g, caps, c, 2, 0);
    assert c.servers[1].log == [Entry(1, Conf(1))];
  }

  lemma Unstamped1(g: Guards, caps: seq<nat>) returns (c: Cluster)
    requires Trio(caps) && !g.stampClient
    ensures ReachableFrom(g, caps, c) && |c.servers| == 3 && |c.rpcs| == 5
    ensures Is(c.servers[0], 0, caps[0], 0, 1, Leader, [Entry(1, Conf(1)), Entry(0, App(7))])
    ensures Marks(c.servers[0], 1, 0, 1, [])
    ensures Knows(c.servers[0], Peer(2, 1, true, false), Peer(1, 0, true, true))
    ensures Saved(c.servers[0], 0, 0)
    ensures Is(c.servers[1], 1, caps[1], 0, 1, Follower, [Entry(1, Conf(1))])
    ensures Marks(c.servers[1], 1, 1, 1, [Delivery(1, Entry(1, Conf(1)))])
    ensures Knows(c.servers[1], NEW_PEER, NEW_PEER)
    ensures Saved(c.servers[1], 1, 1)
    ensures Untouched(c.servers[2], 2, caps[2])
  {
    hide ReachableFrom;
    c := FirstEntry(g, caps);
    c := AckCommits(g, caps, c, 2, 1, 1, 1);
    c := Feed(g, caps, c, 4, 0);
    c := Apply(g, caps, c, 1);
    c := Propose(g, caps, c, 0, 7);
  }

  lemma Unstamped2(g: Guards, caps: seq<nat>) returns (c: Cluster)
    requires Trio(caps) && !g.stampClient
    ensures ReachableFrom(g, caps, c) && |c.servers| == 3 && |c.rpcs| == 13
    ensures Is(c.servers[0], 0, caps[0], 1, 3, Leader, [Entry(1, Conf(1)), Entry(0, App(7)), Entry(3, Conf(3))])
    ensures Marks(c.servers[0], 0, 0, 3, [])
    ensures Knows(c.servers[0], Peer(3, 0, true, false), Peer(3, 0, true, false))
    ensures Saved(c.servers[0], 0, 0)
    ensures Is(c.servers[1], 1, caps[1], 0, 3, Follower, [Entry(1, Conf(1)), Entry(0, App(8))])
    ensures Marks(c.servers[1], 1, 1, 1, [Delivery(1, Entry(1, Conf(1)))])
    ensures Knows(c.servers[1], Peer(2, 0, true, false), Peer(2, 0, true, false))
    ensures Saved(c.servers[1], 1, 1)
    ensures Untouched(c.servers[2], 2, caps[2])
    ensures c.rpcs[11] == Rpc(AppendReq(3, 0, 1, 0, 2, 0, [Entry(3, Conf(3))]), 1, None, true)
  {
    hide ReachableFrom;
    c := Unstamped1(g, caps);
    c := Campaign(g, caps, c, 1, 0);
    c := Propose(g, caps, c, 1, 8);
    c := CrashAndRestart(g, caps, c, 0);
    c := Campaign(g, caps, c, 0, 1);
    assert c.rpcs[11].req.entries == [Entry(3, Conf(3))];
  }

  lemma Unstamped3(g: Guards, caps: seq<nat>) returns (c: Cluster)
    requires Trio(caps) && !g.stampClient
    ensures ReachableFrom(g, caps, c) && |c.servers| == 3 && |c.rpcs| == 14
    ensures Is(c.servers[0], 0, caps[0], 1, 3, Leader, [Entry(1, Conf(1)), Entry(0, App(7)), Entry(3, Conf(3))])
    ensures Marks(c.servers[0], 3, 0, 3, [])
    ensures Knows(c.servers[0], Peer(4, 3, true, false), Peer(3, 0, true, true))
    ensures Saved(c.servers[0], 0, 0)
    ensures Is(c.servers[1], 1, caps[1], 0, 3, Follower, [Entry(1, Conf(1)), Entry(0, App(8)), Entry(3, Conf(3))])
    ensures Marks(c.servers[1], 3, 1, 1, [Delivery(1, Entry(1, Conf(1)))])
    ensures Knows(c.servers[1], Peer(2, 0, true, false), Peer(2, 0, true, false))
    ensures Saved(c.servers[1], 1, 1)
    ensures Untouched(c.servers[2], 2, caps[2])
  {
    hide ReachableFrom;
    c := Unstamped2(g, caps);
    c := Feed(g, caps, c, 11, 0);
    c := AckCommits(g, caps, c, 11, 1, 3, 3);
    c := Feed(g, caps, c, 13, 0);
  }

  lemma Unstamped(g: Guards, caps: seq<nat>) returns (c: Cluster)
    requires Trio(caps) && !g.stampClient
    ensures ReachableFrom(g, caps, c) && !StateMachineSafe(c) && Parted(c, 1, 0, 1)
  {
    hide ReachableFrom;
    c := Unstamped3(g, caps);
    c := Apply(g, caps, c, 0);
    c := Apply(g, caps, c, 0);
    c := Apply(g, caps, c, 1);
    assert c.servers[0].delivered[1].idx == c.servers[1].delivered[1].idx;
  }

  // ---------------------------------------------------------------- old terms are committed by counting

  // The run of figure 8 of the Raft paper: in term 3 server 0 counts a majority for its entries of
  // term 1 and applies them; server 2, whose last entry is of term 2, then wins and overwrites them.

  lemma OldTermCommitted1(g: Guards, caps: seq<nat>) returns (c: Cluster)
    requires Trio(caps) && g.stampClient && !g.ownTerm
    ensures ReachableFrom(g, caps, c) && |c.servers| == 3 && |c.rpcs| == 8
    ensures Is(c.servers[0], 0, caps[0], 0, 1, Leader, [Entry(1, Conf(1)), Entry(1, App(7))])
    ensures Marks(c.servers[0], 0, 0, 1, [])
    ensures Knows(c.servers[0], Peer(1, 0, true, false), Peer(1, 0, true, false))
    ensures Is(c.servers[1], 1, caps[1], 0, 2, Follower, [Entry(1, Conf(1))])
    ensures Marks(c.servers[1], 0, 0, 0, [])
    ensures Knows(c.servers[1], NEW_PEER, NEW_PEER)
    ensures Is(c.servers[2], 2, caps[2], 0, 2, Leader, [Entry(1, Conf(1)), Entry(2, Conf(2))])
    ensures Marks(c.servers[2], 0, 0, 2, [])
    ensures Knows(c.servers[2], Peer(2, 0, true, false), Peer(2, 0, true, false))
    ensures c.rpcs[4] == Rpc(VoteReq(2, 2, 0, 1, 1, 0), 0, None, true)
  {
    hide ReachableFrom;
    c := FirstEntry(g, caps);
    c := Feed(g, caps, c, 3, 0);
    c := Propose(g, caps, c, 0, 7);
    c := Campaign(g, caps, c, 2, 1);
  }

  lemma OldTermCommitted2(g: Guards, caps: seq<nat>) returns (c: Cluster)
    requires Trio(caps) && g.stampClient && !g.ownTerm
    ensures ReachableFrom(g, caps, c) && |c.servers| == 3 && |c.rpcs| == 13
    ensures Is(c.servers[0], 0, caps[0], 0, 3, Leader, [Entry(1, Conf(1)), Entry(1, App(7))])
    ensures Marks(c.servers[0], 0, 0, 1, [])
    ensures Knows(c.servers[0], Peer(2, 0, true, false), Peer(3, 0, true, false))
    ensures Is(c.servers[1], 1, caps[1], 0, 3, Follower, [Entry(1, Conf(1))])
    ensures Marks(c.servers[1], 0, 0, 0, [])
    ensures Knows(c.servers[1], NEW_PEER, NEW_PEER)
    ensures Is(c.servers[2], 2, caps[2], 0, 2, Leader, [Entry(1, Conf(1)), Entry(2, Conf(2))])
    ensures Marks(c.servers[2], 0, 0, 2, [])
    ensures Knows(c.servers[2], Peer(2, 0, true, false), Peer(2, 0, true, false))
    ensures c.rpcs[9] == Rpc(VoteReq(3, 0, 2, 1, 2, 0), 0, None, true)
    ensures c.rpcs[12] == Rpc(AppendReq(3, 0, 1, 1, 1, 0, [Entry(1, App(7))]), 0, None, true)
  {
    hide ReachableFrom;
    c := OldTermCommitted1(g, caps);
    c := Vote(g, caps, c, 4);
    c := Campaign(g, caps, c, 0, 1);
    c := Reject(g, caps, c, 10);
    c := BackOff(g, caps, c, 10, 1, 2);
    assert c.rpcs[12].req.entries == [Entry(1, App(7))];
  }

  lemma OldTermCommitted3(g: Guards, caps: seq<nat>) returns (c: Cluster)
    requires Trio(caps) && g.stampClient && !g.ownTerm
    ensures ReachableFrom(g, caps, c) && |c.servers| == 3 && |c.rpcs| == 14
    ensures Is(c.servers[0], 0, caps[0], 0, 3, Leader, [Entry(1, Conf(1)), Entry(1, App(7))])
    ensures Marks(c.servers[0], 2, 2, 1, [Delivery(1, Entry(1, Conf(1))), Delivery(2, Entry(1, App(7)))])
    ensures Knows(c.servers[0], Peer(3, 2, true, false), Peer(3, 0, true, true))
    ensures Is(c.servers[1], 1, caps[1], 0, 3, Follower, [Entry(1, Conf(1)), Entry(1, App(7))])
    ensures Marks(c.servers[1], 0, 0, 0, [])
    ensures Knows(c.servers[1], NEW_PEER, NEW_PEER)
    ensures Is(c.servers[2], 2, caps[2], 0, 2, Leader, [Entry(1, Conf(1)), Entry(2, Conf(2))])
    ensures Marks(c.servers[2], 0, 0, 2, [])
    ensures Knows(c.servers[2], Peer(2, 0, true, false), Peer(2, 0, true, false))
    ensures c.rpcs[9] == Rpc(VoteReq(3, 0, 2, 1, 2, 0), 0, None, true)
  {
    hide ReachableFrom;
    c := OldTermCommitted2(g, caps);
    c := Feed(g, caps, c, 12, 0);
    c := AckCommits(g, caps, c, 12, 1, 2, 2);
    c := Apply(g, caps, c, 0);
    c := Apply(g, caps, c, 0);
  }

  lemma OldTermCommitted4(g: Guards, caps: seq<nat>) returns (c: Cluster)
    requires Trio(caps) && g.stampClient && !g.ownTerm
    ensures ReachableFrom(g, caps, c) && |c.servers| == 3 && |c.rpcs| == 19
    ensures Is(c.servers[0], 0, caps[0], 0, 3, Leader, [Entry(1, Conf(1)), Entry(1, App(7))])
    ensures Marks(c.servers[0], 2, 2, 1, [Delivery(1, Entry(1, Conf(1))), Delivery(2, Entry(1, App(7)))])
    ensures Knows(c.servers[0], Peer(3, 2, true, false), Peer(3, 0, true, true))
    ensures Is(c.servers[1], 1, caps[1], 0, 4, Follower, [Entry(1, Conf(1)), Entry(1, App(7))])
    ensures Marks(c.servers[1], 0, 0, 0, [])
    ensures Knows(c.servers[1], NEW_PEER, NEW_PEER)
    ensures Is(c.servers[2], 2, caps[2], 0, 4, Leader, [Entry(1, Conf(1)), Entry(2, Conf(2))])
    ensures Marks(c.servers[2], 0, 0, 2, [])
    ensures Knows(c.servers[2], Peer(3, 0, true, false), Peer(2, 0, true, false))
    ensures c.rpcs[18] == Rpc(AppendReq(4, 2, 1, 1, 1, 0, [Entry(2, Conf(2))]), 0, None, true)
  {
    hide ReachableFrom;
    c := OldTermCommitted3(g, caps);
    c := Vote(g, caps, c, 9);
    c := Campaign(g, caps, c, 2, 1);
    c := Reject(g, caps, c, 17);
    c := BackOff(g, caps, c, 17, 1, 2);
    assert c.rpcs[18].req.entries == [Entry(2, Conf(2))];
  }

  lemma OldTermCommitted(g: Guards, caps: seq<nat>) returns (c: Cluster)
    requires Trio(caps) && g.stampClient && !g.ownTerm
    ensures ReachableFrom(g, caps, c) && !StateMachineSafe(c) && Parted(c, 0, 2, 1)
  {
    hide ReachableFrom;
    c := OldTermCommitted4(g, caps);
    c := Feed(g, caps, c, 18, 0);
    c := AckCommits(g, caps, c, 18, 1, 2, 2);
    c := Apply(g, caps, c, 2);
    c := Apply(g, caps, c, 2);
    assert c.servers[0].delivered[1].idx == c.servers[2].delivered[1].idx;
  }

  // ---------------------------------------------------------------- a new leader keeps its matched indices

  // Server 0 learns in term 3 that server 1 holds two entries. Both lose them to server 2; when
  // server 0 leads again it still counts server 1 for an entry of term 5 that server 1 never saw.

  lemma MatchedKept1(g: Guards, caps: seq<nat>) returns (c: Cluster)
    requires Trio(caps) && g.stampClient && g.ownTerm && !g.resetMatched
    ensures ReachableFrom(g, caps, c) && |c.servers| == 3 && |c.rpcs| == 10
    ensures Is(c.servers[0], 0, caps[0], 0, 1, Leader, [Entry(1, Conf(1)), Entry(1, App(7))])
    ensures Marks(c.servers[0], 0, 0, 1, [])
    ensures Knows(c.servers[0], Peer(1, 0, true, false), Peer(1, 0, true, false))
    ensures Is(c.servers[1], 1, caps[1], 0, 2, Follower, [])
    ensures Marks(c.servers[1], 0, 0, 0, [])
    ensures Knows(c.servers[1], NEW_PEER, NEW_PEER)
    ensures Is(c.servers[2], 2, caps[2], 0, 2, Leader, [Entry(2, Conf(1))])
    ensures Marks(c.servers[2], 0, 0, 1, [])
    ensures Knows(c.servers[2], Peer(1, 0, true, false), Peer(1, 0, true, false))
    ensures c.rpcs[6] == Rpc(VoteReq(2, 2, 0, 0, 0, 0), 0, None, true)
  {
    hide ReachableFrom;
    c := FirstLeader(g, caps);
    c := Propose(g, caps, c, 0, 7);
    c := Stand(g, caps, c, 2);
    c := Campaign(g, caps, c, 2, 1);
  }

  lemma MatchedKept2(g: Guards, caps: seq<nat>) returns (c: Cluster)
    requires Trio(caps) && g.stampClient && g.ownTerm && !g.resetMatched
    ensures ReachableFrom(g, caps, c) && |c.servers| == 3 && |c.rpcs| == 14
    ensures Is(c.servers[0], 0, caps[0], 0, 3, Leader, [Entry(1, Conf(1)), Entry(1, App(7))])
    ensures Marks(c.servers[0], 0, 0, 1, [])
    ensures Knows(c.servers[0], Peer(3, 0, true, false), Peer(3, 0, true, false))
    ensures Is(c.servers[1], 1, caps[1], 0, 3, Follower, [])
    ensures Marks(c.servers[1], 0, 0, 0, [])
    ensures Knows(c.servers[1], NEW_PEER, NEW_PEER)
    ensures Is(c.servers[2], 2, caps[2], 0, 2, Leader, [Entry(2, Conf(1))])
    ensures Marks(c.servers[2], 0, 0, 1, [])
    ensures Knows(c.servers[2], Peer(1, 0, true, false), Peer(1, 0, true, false))
    ensures c.rpcs[11] == Rpc(VoteReq(3, 0, 2, 1, 2, 0), 0, None, true)
    ensures c.rpcs[12] == Rpc(AppendReq(3, 0, 1, 1, 2, 0, []), 0, Some(AppendResp(3, 1, 0, 1, false)), true)
  {
    hide ReachableFrom;
    c := MatchedKept1(g, caps);
    c := Vote(g, caps, c, 6);
    c := Campaign(g, caps, c, 0, 1);
    c := Reject(g, caps, c, 12);
    assert c.rpcs[12].req.entries == [];
  }

  // Server 1 has acknowledged both entries of term 1 to server 0, which leads in term 3.
  ghost predicate BothHeld(c: Cluster, caps: seq<nat>)
    requires Trio(caps)
  {
    && |c.servers| == 3 && |c.rpcs| == 17
    && Is(c.servers[0], 0, caps[0], 0, 3, Leader, [Entry(1, Conf(1)), Entry(1, App(7)), Entry(3, App(6))])
    && Marks(c.servers[0], 0, 0, 1, [])
    && Knows(c.servers[0], Peer(3, 2, true, false), Peer(3, 0, true, false))
    && Is(c.servers[1], 1, caps[1], 0, 3, Follower, [Entry(1, Conf(1)), Entry(1, App(7))])
    && Marks(c.servers[1], 0, 0, 0, [])
    && Knows(c.servers[1], NEW_PEER, NEW_PEER)
    && Is(c.servers[2], 2, caps[2], 0, 2, Leader, [Entry(2, Conf(1))])
    && Marks(c.servers[2], 0, 0, 1, [])
    && Knows(c.servers[2], Peer(1, 0, true, false), Peer(1, 0, true, false))
    && c.rpcs[11] == Rpc(VoteReq(3, 0, 2, 1, 2, 0), 0, None, true)
  }

  // One entry at a time: two requests.
  lemma FirstOfTwo(g: Guards, caps: seq<nat>) returns (c: Cluster)
    requires Trio(caps) && g.stampClient && g.ownTerm && !g.resetMatched && caps[0] == 1
    ensures ReachableFrom(g, caps, c) && |c.servers| == 3 && |c.rpcs| == 16
    ensures Is(c.servers[0], 0, caps[0], 0, 3, Leader, [Entry(1, Conf(1)), Entry(1, App(7))])
    ensures Marks(c.servers[0], 0, 0, 1, [])
    ensures Knows(c.servers[0], Peer(2, 1, true, false), Peer(3, 0, true, false))
    ensures Is(c.servers[1], 1, caps[1], 0, 3, Follower, [Entry(1, Conf(1))])
    ensures Marks(c.servers[1], 0, 0, 0, [])
    ensures Knows(c.servers[1], NEW_PEER, NEW_PEER)
    ensures Is(c.servers[2], 2, caps[2], 0, 2, Leader, [Entry(2, Conf(1))])
    ensures Marks(c.servers[2], 0, 0, 1, [])
    ensures Knows(c.servers[2], Peer(1, 0, true, false), Peer(1, 0, true, false))
    ensures c.rpcs[11] == Rpc(VoteReq(3, 0, 2, 1, 2, 0), 0, None, true)
    ensures c.rpcs[15] == Rpc(AppendReq(3, 0, 1, 1, 1, 0, [Entry(1, App(7))]), 0, None, true)
  {
    hide ReachableFrom;
    c := MatchedKept2(g, caps);
    c := BackOff(g, caps, c, 12, 1, 1);
    assert c.rpcs[14].req.entries == [Entry(1, Conf(1))];
    c := Feed(g, caps, c, 14, 0);
    c := AckQuiet(g, caps, c, 14, 1, 1);
    assert c.rpcs[15].req.entries == [Entry(1, App(7))];
  }

  lemma OneByOne(g: Guards, caps: seq<nat>) returns (c: Cluster)
    requires Trio(caps) && g.stampClient && g.ownTerm && !g.resetMatched && caps[0] == 1
    ensures ReachableFrom(g, caps, c) && BothHeld(c, caps)
  {
    hide ReachableFrom;
    c := FirstOfTwo(g, caps);
    c := Feed(g, caps, c, 15, 0);
    c := Propose(g, caps, c, 0, 6);
    c := AckQuiet(g, caps, c, 15, 1, 2);
  }

  // Both in one request; the first attempt ends in an error.
  lemma SentTwice(g: Guards, caps: seq<nat>) returns (c: Cluster)
    requires Trio(caps) && g.stampClient && g.ownTerm && !g.resetMatched && caps[0] > 1
    ensures ReachableFrom(g, caps, c) && |c.servers| == 3 && |c.rpcs| == 16
    ensures Is(c.servers[0], 0, caps[0], 0, 3, Leader, [Entry(1, Conf(1)), Entry(1, App(7))])
    ensures Marks(c.servers[0], 0, 0, 1, [])
    ensures Knows(c.servers[0], Peer(1, 0, true, false), Peer(3, 0, true, false))
    ensures Is(c.servers[1], 1, caps[1], 0, 3, Follower, [])
    ensures Marks(c.servers[1], 0, 0, 0, [])
    ensures Knows(c.servers[1], NEW_PEER, NEW_PEER)
    ensures Is(c.servers[2], 2, caps[2], 0, 2, Leader, [Entry(2, Conf(1))])
    ensures Marks(c.servers[2], 0, 0, 1, [])
    ensures Knows(c.servers[2], Peer(1, 0, true, false), Peer(1, 0, true, false))
    ensures c.rpcs[11] == Call(VoteReq(3, 0, 2, 1, 2, 0), 0)
    ensures c.rpcs[15] == Call(AppendReq(3, 0, 1, 0, 0, 0, [Entry(1, Conf(1)), Entry(1, App(7))]), 0)
  {
    hide ReachableFrom;
    c := MatchedKept2(g, caps);
    c := BackOff(g, caps, c, 12, 1, 1);
    c := Resend(g, caps, c, 14, 1);
    assert c.rpcs[15].req.entries == [Entry(1, Conf(1)), Entry(1, App(7))];
  }

  lemma BothAtOnce(g: Guards, caps: seq<nat>) returns (c: Cluster)
    requires Trio(caps) && g.stampClient && g.ownTerm && !g.resetMatched && caps[0] > 1
    ensures ReachableFrom(g, caps, c) && BothHeld(c, caps)
  {
    hide ReachableFrom;
    c := SentTwice(g, caps);
    c := Feed(g, caps, c, 15, 0);
    assert c.servers[1].log == [Entry(1, Conf(1)), Entry(1, App(7))];
    c := Propose(g, caps, c, 0, 6);
    c := AckQuiet(g, caps, c, 15, 1, 2);
  }

  lemma MatchedKept3(g: Guards, caps: seq<nat>) returns (c: Cluster)
    requires Trio(caps) && g.stampClient && g.ownTerm && !g.resetMatched
    ensures ReachableFrom(g, caps, c) && BothHeld(c, caps)
  {
    hide ReachableFrom, BothHeld;
    if caps[0] == 1 {
      c := OneByOne(g, caps);
    } else {
      c := BothAtOnce(g, caps);
    }
  }

  lemma MatchedKept4(g: Guards, caps: seq<nat>) returns (c: Cluster)
    requires Trio(caps) && g.stampClient && g.ownTerm && !g.resetMatched
    ensures ReachableFrom(g, caps, c) && |c.servers| == 3 && |c.rpcs| == 21
    ensures Is(c.servers[0], 0, caps[0], 0, 3, Leader, [Entry(1, Conf(1)), Entry(1, App(7)), Entry(3, App(6))])
    ensures Marks(c.servers[0], 0, 0, 1, [])
    ensures Knows(c.servers[0], Peer(3, 2, true, false), Peer(3, 0, true, false))
    ensures Is(c.servers[1], 1, caps[1], 0, 4, Follower, [Entry(1, Conf(1)), Entry(1, App(7))])
    ensures Marks(c.servers[1], 0, 0, 0, [])
    ensures Knows(c.servers[1], NEW_PEER, NEW_PEER)
    ensures Is(c.servers[2], 2, caps[2], 0, 4, Leader, [Entry(2, Conf(1))])
    ensures Marks(c.servers[2], 0, 0, 1, [])
    ensures Knows(c.servers[2], Peer(2, 0, true, false), Peer(2, 0, true, false))
    ensures c.rpcs[19] == Rpc(AppendReq(4, 2, 0, 2, 1, 0, []), 0, None, true)
    ensures c.rpcs[20] == Rpc(AppendReq(4, 2, 1, 2, 1, 0, []), 0, Some(AppendResp(4, 1, 2, 3, false)), true)
  {
    hide ReachableFrom;
    c := MatchedKept3(g, caps);
    c := Vote(g, caps, c, 11);
    c := Campaign(g, caps, c, 2, 1);
    c := Reject(g, caps, c, 20);
    assert c.rpcs[19].req.entries == [];
    assert c.rpcs[20].req.entries == [];
  }

  lemma MatchedKept5(g: Guards, caps: seq<nat>) returns (c: Cluster)
    requires Trio(caps) && g.stampClient && g.ownTerm && !g.resetMatched
    ensures ReachableFrom(g, caps, c) && |c.servers| == 3 && |c.rpcs| == 23
    ensures Is(c.servers[0], 0, caps[0], 0, 4, Follower, [Entry(1, Conf(1)), Entry(1, App(7)), Entry(3, App(6))])
    ensures Marks(c.servers[0], 0, 0, 1, [])
    ensures Knows(c.servers[0], Peer(3, 2, true, false), Peer(3, 0, true, false))
    ensures Is(c.servers[1], 1, caps[1], 0, 4, Follower, [Entry(2, Conf(1))])
    ensures Marks(c.servers[1], 0, 0, 0, [])
    ensures Knows(c.servers[1], NEW_PEER, NEW_PEER)
    ensures Is(c.servers[2], 2, caps[2], 0, 4, Leader, [Entry(2, Conf(1))])
    ensures Marks(c.servers[2], 0, 0, 1, [])
    ensures Knows(c.servers[2], Peer(1, 0, true, false), Peer(1, 0, true, false))
    ensures c.rpcs[22] == Rpc(AppendReq(4, 2, 0, 0, 0, 0, [Entry(2, Conf(1))]), 0, None, true)
  {
    hide ReachableFrom;
    c := MatchedKept4(g, caps);
    c := BackOff(g, caps, c, 20, 1, 1);
    c := Feed(g, caps, c, 21, 0);
    c := Reject(g, caps, c, 19);
    c := BackOff(g, caps, c, 19, 0, 1);
    assert c.rpcs[22].req.entries == [Entry(2, Conf(1))];
  }

  lemma MatchedKept6(g: Guards, caps: seq<nat>) returns (c: Cluster)
    requires Trio(caps) && g.stampClient && g.ownTerm && !g.resetMatched
    ensures ReachableFrom(g, caps, c) && |c.servers| == 3 && |c.rpcs| == 27
    ensures Is(c.servers[0], 0, caps[0], 0, 5, Leader, [Entry(2, Conf(1)), Entry(5, App(9))])
    ensures Marks(c.servers[0], 0, 0, 1, [])
    ensures Knows(c.servers[0], Peer(2, 2, true, false), Peer(2, 0, true, false))
    ensures Is(c.servers[1], 1, caps[1], 0, 5, Follower, [Entry(2, Conf(1))])
    ensures Marks(c.servers[1], 0, 0, 0, [])
    ensures Knows(c.servers[1], NEW_PEER, NEW_PEER)
    ensures Is(c.servers[2], 2, caps[2], 0, 5, Follower, [Entry(2, Conf(1))])
    ensures Marks(c.servers[2], 0, 0, 1, [])
    ensures Knows(c.servers[2], Peer(1, 0, true, false), Peer(1, 0, true, false))
    ensures c.rpcs[26] == Rpc(AppendReq(5, 0, 2, 2, 1, 0, []), 0, Some(AppendResp(5, 2, 0, 2, true)), true)
  {
    hide ReachableFrom;
    c := MatchedKept5(g, caps);
    c := Feed(g, caps, c, 22, 0);
    c := Campaign(g, caps, c, 0, 1);
    c := Propose(g, caps, c, 0, 9);
    c := Feed(g, caps, c, 26, 0);
    assert c.rpcs[26].req.entries == [];
  }

  lemma MatchedKept7(g: Guards, caps: seq<nat>) returns (c: Cluster)
    requires Trio(caps) && g.stampClient && g.ownTerm && !g.resetMatched
    ensures ReachableFrom(g, caps, c) && |c.servers| == 3 && |c.rpcs| == 32
    ensures Is(c.servers[0], 0, caps[0], 0, 5, Leader, [Entry(2, Conf(1)), Entry(5, App(9))])
    ensures Marks(c.servers[0], 2, 2, 1, [Delivery(1, Entry(2, Conf(1))), Delivery(2, Entry(5, App(9)))])
    ensures Knows(c.servers[0], Peer(2, 2, true, true), Peer(2, 1, true, false))
    ensures Is(c.servers[1], 1, caps[1], 0, 6, Follower, [Entry(2, Conf(1))])
    ensures Marks(c.servers[1], 0, 0, 0, [])
    ensures Knows(c.servers[1], NEW_PEER, NEW_PEER)
    ensures Is(c.servers[2], 2, caps[2], 0, 6, Leader, [Entry(2, Conf(1))])
    ensures Marks(c.servers[2], 0, 0, 1, [])
    ensures Knows(c.servers[2], Peer(2, 0, true, false), Peer(2, 0, true, false))
    ensures c.rpcs[31] == Rpc(AppendReq(6, 2, 1, 2, 1, 0, []), 0, None, true)
  {
    hide ReachableFrom;
    c := MatchedKept6(g, caps);
    c := AckCommits(g, caps, c, 26, 2, 1, 2);
    c := Apply(g, caps, c, 0);
    c := Apply(g, caps, c, 0);
    c := Campaign(g, caps, c, 2, 1);
    assert c.rpcs[31].req.entries == [];
  }

  lemma MatchedKept8(g: Guards, caps: seq<nat>) returns (c: Cluster)
    requires Trio(caps) && g.stampClient && g.ownTerm && !g.resetMatched
    ensures ReachableFrom(g, caps, c) && |c.servers| == 3 && |c.rpcs| == 33
    ensures Is(c.servers[0], 0, caps[0], 0, 5, Leader, [Entry(2, Conf(1)), Entry(5, App(9))])
    ensures Marks(c.servers[0], 2, 2, 1, [Delivery(1, Entry(2, Conf(1))), Delivery(2, Entry(5, App(9)))])
    ensures Knows(c.servers[0], Peer(2, 2, true, true), Peer(2, 1, true, false))
    ensures Is(c.servers[1], 1, caps[1], 0, 6, Follower, [Entry(2, Conf(1)), Entry(6, App(10))])
    ensures Marks(c.servers[1], 0, 0, 0, [])
    ensures Knows(c.servers[1], NEW_PEER, NEW_PEER)
    ensures Is(c.servers[2], 2, caps[2], 0, 6, Leader, [Entry(2, Conf(1)), Entry(6, App(10))])
    ensures Marks(c.servers[2], 0, 0, 1, [])
    ensures Knows(c.servers[2], Peer(2, 0, true, false), Peer(2, 1, true, false))
    ensures c.rpcs[32] ==
              Rpc(AppendReq(6, 2, 1, 2, 1, 0, [Entry(6, App(10))]), 0, Some(AppendResp(6, 1, 2, 3, true)), true)
  {
    hide ReachableFrom;
    c := MatchedKept7(g, caps);
    c := Propose(g, caps, c, 2, 10);
    c := Feed(g, caps, c, 31, 0);
    c := AckQuiet(g, caps, c, 31, 1, 1);
    c := Feed(g, caps, c, 32, 0);
    assert c.rpcs[32].req.entries == [Entry(6, App(10))];
  }

  lemma MatchedKept(g: Guards, caps: seq<nat>) returns (c: Cluster)
    requires Trio(caps) && g.stampClient && g.ownTerm && !g.resetMatched
    ensures ReachableFrom(g, caps, c) && !StateMachineSafe(c) && Parted(c, 0, 2, 1)
  {
    hide ReachableFrom;
    c := MatchedKept8(g, caps);
    c := AckCommits(g, caps, c, 32, 1, 2, 2);
    c := Apply(g, caps, c, 2);
    c := Apply(g, caps, c, 2);
    assert c.servers[0].delivered[1].idx == c.servers[2].delivered[1].idx;
  }

  // What server 0 learned of server 2 in term 1 is still there in term 3, which server 2 has not
  // heard of.
  lemma OldEvidence(g: Guards, caps: seq<nat>) returns (c: Cluster)
    requires Trio(caps) && !g.resetMatched
    ensures ReachableFrom(g, caps, c) && |c.servers| == 3
    ensures Is(c.servers[0], 0, caps[0], 0, 3, Leader, [Entry(1, Conf(1))])
    ensures Knows(c.servers[0], Peer(2, 0, true, true), Peer(2, 1, true, false))
    ensures Is(c.servers[2], 2, caps[2], 0, 1, Follower, [Entry(1, Conf(1))])
  {
    hide ReachableFrom;
    c := Evidence(g, caps);
    c := Stand(g, caps, c, 1);
    c := Vote(g, caps, c, 5);
    c := Campaign(g, caps, c, 0, 1);
  }

  lemma Evidence(g: Guards, caps: seq<nat>) returns (c: Cluster)
    requires Trio(caps)
    ensures ReachableFrom(g, caps, c) && |c.servers| == 3 && |c.rpcs| == 5
    ensures Is(c.servers[0], 0, caps[0], 0, 1, Leader, [Entry(1, Conf(1))])
    ensures Marks(c.servers[0], 1, 0, 1, [])
    ensures Knows(c.servers[0], Peer(1, 0, true, true), Peer(2, 1, true, false))
    ensures Is(c.servers[1], 1, caps[1], 0, 1, Follower, [Entry(1, Conf(1))])
    ensures Marks(c.servers[1], 0, 0, 0, [])
    ensures Is(c.servers[2], 2, caps[2], 0, 1, Follower, [Entry(1, Conf(1))])
  {
    hide ReachableFrom;
    c := FirstEntry(g, caps);
    c := Feed(g, caps, c, 3, 0);
    assert c.servers[2].log == [Entry(1, Conf(1))];
    c := AckCommits(g, caps, c, 3, 2, 1, 1);
  }

  // ---------------------------------------------------------------- stale votes are counted

  // Server 0 times out twice and counts the vote of its first candidacy in its second one; server 1
  // votes for server 2 in that term, and two leaders of one term commit different entries.

  lemma StaleWin(g: Guards, caps: seq<nat>) returns (c: Cluster)
    requires Trio(caps) && !g.dropStale
    ensures ReachableFrom(g, caps, c) && |c.servers| == 3 && |c.rpcs| == 6
    ensures Is(c.servers[0], 0, caps[0], 0, 2, Leader, [Entry(2, Conf(1))])
    ensures Marks(c.servers[0], 0, 0, 1, [])
    ensures Knows(c.servers[0], Peer(1, 0, true, false), Peer(1, 0, true, false))
    ensures c.servers[0].granted == 2
    ensures forall k: nat :: k < 6 && c.rpcs[k].req.VoteReq? && c.rpcs[k].req.term == 2 ==> c.rpcs[k].reply == None
    ensures Is(c.servers[1], 1, caps[1], 0, 1, Follower, [])
    ensures Marks(c.servers[1], 0, 0, 0, [])
    ensures Knows(c.servers[1], NEW_PEER, NEW_PEER)
    ensures Untouched(c.servers[2], 2, caps[2])
    ensures c.rpcs[4] == Call(AppendReq(2, 0, 1, 0, 0, 0, [Entry(2, Conf(1))]), 0)
  {
    hide ReachableFrom;
    c := Begin(g, caps);
    c := Stand(g, caps, c, 0);
    c := Vote(g, caps, c, 0);
    c := Stand(g, caps, c, 0);
    c := Win(g, caps, c, 0);
    assert c.rpcs[4].req.entries == [Entry(2, Conf(1))];
  }

  lemma TwoLeaders(g: Guards, caps: seq<nat>) returns (c: Cluster)
    requires Trio(caps) && !g.dropStale
    ensures ReachableFrom(g, caps, c) && |c.servers| == 3 && |c.rpcs| == 12
    ensures Is(c.servers[0], 0, caps[0], 0, 2, Leader, [Entry(2, Conf(1))])
    ensures Marks(c.servers[0], 0, 0, 1, [])
    ensures Knows(c.servers[0], Peer(1, 0, true, false), Peer(1, 0, true, false))
    ensures Is(c.servers[1], 1, caps[1], 0, 2, Follower, [])
    ensures Marks(c.servers[1], 0, 0, 0, [])
    ensures Knows(c.servers[1], NEW_PEER, NEW_PEER)
    ensures Is(c.servers[2], 2, caps[2], 0, 2, Leader, [Entry(2, Conf(1))])
    ensures Marks(c.servers[2], 0, 0, 1, [])
    ensures Knows(c.servers[2], Peer(1, 0, true, false), Peer(1, 0, true, false))
    ensures c.rpcs[4] == Call(AppendReq(2, 0, 1, 0, 0, 0, [Entry(2, Conf(1))]), 0)
    ensures c.rpcs[10] == Call(AppendReq(2, 2, 0, 0, 0, 0, [Entry(2, Conf(1))]), 0)
    ensures c.rpcs[11] == Call(AppendReq(2, 2, 1, 0, 0, 0, [Entry(2, Conf(1))]), 0)
  {
    hide ReachableFrom;
    c := StaleWin(g, caps);
    c := Stand(g, caps, c, 2);
    c := Campaign(g, caps, c, 2, 1);
    assert c.rpcs[10].req.entries == c.rpcs[11].req.entries == [Entry(2, Conf(1))];
  }

  // Each of the two appends an entry of its own at index 2.
  lemma TwoSecondEntries(g: Guards, caps: seq<nat>) returns (c: Cluster)
    requires Trio(caps) && !g.dropStale
    ensures ReachableFrom(g, caps, c) && |c.servers| == 3 && |c.rpcs| == 12
    ensures var t := if g.stampClient then 2 else CLIENT_TERM;
            && Is(c.servers[0], 0, caps[0], 0, 2, Leader, [Entry(2, Conf(1)), Entry(t, App(7))])
            && Is(c.servers[2], 2, caps[2], 0, 2, Leader, [Entry(2, Conf(1)), Entry(t, App(8))])
    ensures Marks(c.servers[0], 0, 0, 1, [])
    ensures Knows(c.servers[0], Peer(1, 0, true, false), Peer(1, 0, true, false))
    ensures Is(c.servers[1], 1, caps[1], 0, 2, Follower, [])
    ensures Marks(c.servers[1], 0, 0, 0, [])
    ensures Knows(c.servers[1], NEW_PEER, NEW_PEER)
    ensures Marks(c.servers[2], 0, 0, 1, [])
    ensures Knows(c.servers[2], Peer(1, 0, true, false), Peer(1, 0, true, false))
    ensures c.rpcs[4] == Call(AppendReq(2, 0, 1, 0, 0, 0, [Entry(2, Conf(1))]), 0)
    ensures c.rpcs[11] == Call(AppendReq(2, 2, 1, 0, 0, 0, [Entry(2, Conf(1))]), 0)
  {
    hide ReachableFrom;
    c := TwoLeaders(g, caps);
    c := Propose(g, caps, c, 0, 7);
    c := Propose(g, caps, c, 2, 8);
  }

  // One of the two receives a request to append from the other, and exits.
  lemma LeaderExits(g: Guards, caps: seq<nat>) returns (c: Cluster)
    requires Trio(caps) && !g.dropStale
    ensures ReachableFrom(g, caps, c) && |c.servers| == 3 && c.servers[0].halted
  {
    hide ReachableFrom;
    c := TwoLeaders(g, caps);
    ReachStep(g, caps, c, Deliver(10));
    c := Step(g, c, Deliver(10));
  }

  // The follower of both has the first entry of server 0.
  lemma FirstTaken(g: Guards, caps: seq<nat>) returns (c: Cluster)
    requires Trio(caps) && g.stampClient && !g.dropStale
    ensures ReachableFrom(g, caps, c) && |c.servers| == 3 && |c.rpcs| == 12
    ensures Is(c.servers[0], 0, caps[0], 0, 2, Leader, [Entry(2, Conf(1)), Entry(2, App(7))])
    ensures Marks(c.servers[0], 0, 0, 1, [])
    ensures Knows(c.servers[0], Peer(1, 0, true, false), Peer(1, 0, true, false))
    ensures Is(c.servers[1], 1, caps[1], 0, 2, Follower, [Entry(2, Conf(1))])
    ensures Marks(c.servers[1], 0, 0, 0, [])
    ensures Knows(c.servers[1], NEW_PEER, NEW_PEER)
    ensures Is(c.servers[2], 2, caps[2], 0, 2, Leader, [Entry(2, Conf(1)), Entry(2, App(8))])
    ensures Marks(c.servers[2], 0, 0, 1, [])
    ensures Knows(c.servers[2], Peer(1, 0, true, false), Peer(1, 0, true, false))
    ensures c.rpcs[4] ==
              Rpc(AppendReq(2, 0, 1, 0, 0, 0, [Entry(2, Conf(1))]), 0, Some(AppendResp(2, 1, 0, 2, true)), true)
    ensures c.rpcs[11] == Call(AppendReq(2, 2, 1, 0, 0, 0, [Entry(2, Conf(1))]), 0)
  {
    hide ReachableFrom;
    c := TwoSecondEntries(g, caps);
    c := Feed(g, caps, c, 4, 0);
    assert c.servers[1].log == [Entry(2, Conf(1))];
  }

  lemma StaleVote1(g: Guards, caps: seq<nat>) returns (c: Cluster)
    requires Trio(caps) && g.stampClient && !g.dropStale
    ensures ReachableFrom(g, caps, c) && |c.servers| == 3 && |c.rpcs| == 13
    ensures Is(c.servers[0], 0, caps[0], 0, 2, Leader, [Entry(2, Conf(1)), Entry(2, App(7))])
    ensures Marks(c.servers[0], 1, 0, 1, [])
    ensures Knows(c.servers[0], Peer(2, 1, true, false), Peer(1, 0, true, true))
    ensures Is(c.servers[1], 1, caps[1], 0, 2, Follower, [Entry(2, Conf(1))])
    ensures Marks(c.servers[1], 0, 0, 0, [])
    ensures Knows(c.servers[1], NEW_PEER, NEW_PEER)
    ensures Is(c.servers[2], 2, caps[2], 0, 2, Leader, [Entry(2, Conf(1)), Entry(2, App(8))])
    ensures Marks(c.servers[2], 0, 0, 1, [])
    ensures Knows(c.servers[2], Peer(1, 0, true, false), Peer(1, 0, true, false))
    ensures c.rpcs[11] == Call(AppendReq(2, 2, 1, 0, 0, 0, [Entry(2, Conf(1))]), 0)
    ensures c.rpcs[12] == Call(AppendReq(2, 0, 1, 2, 1, 1, [Entry(2, App(7))]), 0)
  {
    hide ReachableFrom;
    c := FirstTaken(g, caps);
    c := AckCommits(g, caps, c, 4, 1, 1, 1);
    assert c.rpcs[12].req.entries == [Entry(2, App(7))];
  }

  lemma StaleVote2(g: Guards, caps: seq<nat>) returns (c: Cluster)
    requires Trio(caps) && g.stampClient && !g.dropStale
    ensures ReachableFrom(g, caps, c) && |c.servers| == 3 && |c.rpcs| == 14
    ensures Is(c.servers[0], 0, caps[0], 0, 2, Leader, [Entry(2, Conf(1)), Entry(2, App(7))])
    ensures Marks(c.servers[0], 2, 0, 1, [])
    ensures Knows(c.servers[0], Peer(3, 2, true, false), Peer(1, 0, true, true))
    ensures Is(c.servers[1], 1, caps[1], 0, 2, Follower, [Entry(2, Conf(1)), Entry(2, App(7))])
    ensures Marks(c.servers[1], 1, 0, 0, [])
    ensures Knows(c.servers[1], NEW_PEER, NEW_PEER)
    ensures Is(c.servers[2], 2, caps[2], 0, 2, Leader, [Entry(2, Conf(1)), Entry(2, App(8))])
    ensures Marks(c.servers[2], 0, 0, 1, [])
    ensures Knows(c.servers[2], Peer(1, 0, true, false), Peer(1, 0, true, false))
    ensures c.rpcs[11] ==
              Rpc(AppendReq(2, 2, 1, 0, 0, 0, [Entry(2, Conf(1))]), 0, Some(AppendResp(2, 1, 2, 2, true)), true)
  {
    hide ReachableFrom;
    c := StaleVote1(g, caps);
    c := Feed(g, caps, c, 12, 0);
    c := AckCommits(g, caps, c, 12, 1, 2, 2);
    c := Feed(g, caps, c, 11, 1);
  }

  lemma StaleVote3(g: Guards, caps: seq<nat>) returns (c: Cluster)
    requires Trio(caps) && g.stampClient && !g.dropStale
    ensures ReachableFrom(g, caps, c) && |c.servers| == 3
    ensures Is(c.servers[0], 0, caps[0], 0, 2, Leader, [Entry(2, Conf(1)), Entry(2, App(7))])
    ensures Marks(c.servers[0], 2, 0, 1, [])
    ensures Knows(c.servers[0], Peer(3, 2, true, false), Peer(1, 0, true, true))
    ensures Is(c.servers[1], 1, caps[1], 0, 2, Follower, [Entry(2, Conf(1)), Entry(2, App(7))])
    ensures Is(c.servers[2], 2, caps[2], 0, 2, Leader, [Entry(2, Conf(1)), Entry(2, App(8))])
    ensures Marks(c.servers[2], 2, 0, 1, [])
    ensures Knows(c.servers[2], Peer(1, 0, true, true), Peer(3, 2, true, false))
  {
    hide ReachableFrom;
    c := StaleVote2(g, caps);
    c := AckCommits(g, caps, c, 11, 1, 1, 1);
    c := Feed(g, caps, c, 14, 1);
    c := AckCommits(g, caps, c, 14, 1, 2, 2);
  }

  lemma StaleVote(g: Guards, caps: seq<nat>) returns (c: Cluster)
    requires Trio(caps) && g.stampClient && !g.dropStale
    ensures ReachableFrom(g, caps, c) && !StateMachineSafe(c) && Parted(c, 0, 2, 1)
  {
    hide ReachableFrom;
    c := StaleVote3(g, caps);
    c := Apply(g, caps, c, 0);
    c := Apply(g, caps, c, 0);
    c := Apply(g, caps, c, 2);
    c := Apply(g, caps, c, 2);
    assert c.servers[0].delivered[1].idx == c.servers[2].delivered[1].idx;
  }

  // ---------------------------------------------------------------- every variant makes progress

  // Whatever the guards, two servers can come to apply an entry: the theorems are not empty.
  lemma Progress(g: Guards, caps: seq<nat>) returns (c: Cluster)
    requires Trio(caps)
    ensures ReachableFrom(g, caps, c) && |c.servers| == 3
    ensures c.servers[0].delivered == c.servers[1].delivered == [Delivery(1, Entry(1, Conf(1)))]
  {
    hide ReachableFrom;
    c := FirstEntry(g, caps);
    c := AckCommits(g, caps, c, 2, 1, 1, 1);
    c := Feed(g, caps, c, 4, 0);
    c := Apply(g, caps, c, 0);
    c := Apply(g, caps, c, 1);
  }
}
