/** Exactly the guarded code is safe. The variant with all five guards on is safe in every run of every
    cluster. Each of the other 31, the code as it stands among them, has a run of every cluster of
    three servers that may send entries in which two servers apply different entries at one index.

    The properties that safety rests on need fewer guards, and each of them exactly those. */
module SafetyTheorem {
  import opened RaftTypes
  import opened ServerSpec
  import opened Cluster
  import ClusterProofs
  import ClampRun
  import GuardRuns
  import Quorum
  import RaftTheorems

  // One run for each guard that is off, whatever the later ones are.
  lemma UnsafeRun(g: Guards, caps: seq<nat>) returns (c: Cluster, i: nat, j: nat, x: nat)
    requires GuardRuns.Trio(caps) && g != GUARDED
    ensures ReachableFrom(g, caps, c) && !StateMachineSafe(c) && GuardRuns.Parted(c, i, j, x)
  {
    hide ReachableFrom, StateMachineSafe, GuardRuns.Parted;
    i, j, x := 0, 2, 1;
    if !g.stampClient {
      c := GuardRuns.Unstamped(g, caps);
      i, j := 1, 0;
    } else if !g.ownTerm {
      c := GuardRuns.OldTermCommitted(g, caps);
    } else if !g.resetMatched {
      c := GuardRuns.MatchedKept(g, caps);
    } else if !g.dropStale {
      c := GuardRuns.StaleVote(g, caps);
    } else {
      c := ClampRun.CommitUnclamped(g, caps);
      i, j, x := 2, 0, caps[0];
    }
  }

  // For each choice of parameters on its own.
  lemma TrioSafeExactlyWhenGuarded(g: Guards, caps: seq<nat>)
    requires GuardRuns.Trio(caps)
    ensures (forall c :: ReachableFrom(g, caps, c) ==> StateMachineSafe(c)) <==> g == GUARDED
  {
    hide ReachableFrom, StateMachineSafe;
    if g == GUARDED {
      forall c | ReachableFrom(g, caps, c) ensures StateMachineSafe(c) {
        assert Reachable(g, c);
        RaftTheorems.StateMachineSafety(c);
      }
    } else {
      var c, i, j, x := UnsafeRun(g, caps);
    }
  }

  // Over all clusters.
  lemma SafetyExactlyWhenGuarded(g: Guards)
    ensures (forall c :: Reachable(g, c) ==> StateMachineSafe(c)) <==> g == GUARDED
  {
    hide ReachableFrom, StateMachineSafe;
    if g == GUARDED {
      forall c | Reachable(g, c) ensures StateMachineSafe(c) {
        RaftTheorems.StateMachineSafety(c);
      }
    } else {
      var c, i, j, x := UnsafeRun(g, [1, 1, 1]);
      assert Reachable(g, c);
    }
  }

  lemma CodeIsUnsafe(caps: seq<nat>) returns (c: Cluster)
    requires GuardRuns.Trio(caps)
    ensures ReachableFrom(AS_WRITTEN, caps, c) && !StateMachineSafe(c)
  {
    var i, j, x;
    c, i, j, x := UnsafeRun(AS_WRITTEN, caps);
  }

  // ---------------------------------------------------------------- elections

  // Server i leads in state c, and server j in the same term at this or a later moment.
  ghost predicate SameReign(g: Guards, caps: seq<nat>, c: Cluster, acts: seq<Action>, i: nat, j: nat) {
    && ReachableFrom(g, caps, c)
    && i < |c.servers| && c.servers[i].role == Leader
    && var d := After(g, c, acts);
    && j < |d.servers| && d.servers[j].role == Leader && d.servers[j].term == c.servers[i].term
  }

  ghost predicate ElectionSafe(g: Guards, caps: seq<nat>) {
    forall c, acts, i: nat, j: nat :: SameReign(g, caps, c, acts, i, j) ==> i == j
  }

  lemma ElectionSafeExactlyWhen(g: Guards, caps: seq<nat>)
    requires GuardRuns.Trio(caps)
    ensures ElectionSafe(g, caps) <==> g.dropStale
  {
    hide ReachableFrom;
    if g.dropStale {
      forall c, acts, i: nat, j: nat | SameReign(g, caps, c, acts, i, j) ensures i == j {
        assert Reachable(g, c);
        RaftTheorems.ElectionSafety(g, c, acts, i, j);
      }
    } else {
      var c := GuardRuns.TwoLeaders(g, caps);
      assert SameReign(g, caps, c, [], 0, 2);
    }
  }

  // No server counts more votes than servers gave it in its term.
  ghost predicate CountsHonest(c: Cluster) {
    forall i: nat :: i < |c.servers| ==> c.servers[i].granted <= |RaftTheorems.Voters(c, i)|
  }

  lemma CountsHonestExactlyWhen(g: Guards, caps: seq<nat>)
    requires GuardRuns.Trio(caps)
    ensures (forall c :: ReachableFrom(g, caps, c) ==> CountsHonest(c)) <==> g.dropStale
  {
    hide ReachableFrom;
    if g.dropStale {
      forall c | ReachableFrom(g, caps, c) ensures CountsHonest(c) {
        assert Reachable(g, c);
        forall i: nat | i < |c.servers| ensures c.servers[i].granted <= |RaftTheorems.Voters(c, i)| {
          RaftTheorems.VotesAreDistinctServers(g, c, i);
        }
      }
    } else {
      var c := GuardRuns.StaleWin(g, caps);
      forall v: nat | v in RaftTheorems.Voters(c, 0) ensures v == 0 {
        assert ClusterProofs.GrantedTo(c, c.servers[0], v);
      }
      RaftTheorems.SubsetCardinality(RaftTheorems.Voters(c, 0), {0});
      assert !CountsHonest(c);
    }
  }

  // ---------------------------------------------------------------- fatal exits

  ghost predicate NobodyHalted(c: Cluster) {
    forall i: nat :: i < |c.servers| ==> !c.servers[i].halted
  }

  lemma NobodyHaltsExactlyWhen(g: Guards, caps: seq<nat>)
    requires GuardRuns.Trio(caps)
    ensures (forall c :: ReachableFrom(g, caps, c) ==> NobodyHalted(c)) <==> g.dropStale
  {
    hide ReachableFrom;
    if g.dropStale {
      forall c | ReachableFrom(g, caps, c) ensures NobodyHalted(c) {
        assert Reachable(g, c);
        forall i: nat | i < |c.servers| ensures !c.servers[i].halted {
          RaftTheorems.NoFatalExit(g, c, i);
        }
      }
    } else {
      var c := GuardRuns.LeaderExits(g, caps);
      assert !NobodyHalted(c);
    }
  }

  // ---------------------------------------------------------------- logs

  // Logs that have the same term at an index are the same up to it.
  ghost predicate LogsMatch(c: Cluster) {
    forall i: nat, j: nat, k: nat :: SameTermAt(c, i, j, k) ==>
      RaftTheorems.SharedUpTo(c.servers[i].log, c.servers[j].log, k + 1)
  }

  ghost predicate SameTermAt(c: Cluster, i: nat, j: nat, k: nat) {
    && i < |c.servers| && j < |c.servers| && k < |c.servers[i].log| && k < |c.servers[j].log|
    && c.servers[i].log[k].term == c.servers[j].log[k].term
  }

  lemma LogsMatchExactlyWhen(g: Guards, caps: seq<nat>)
    requires GuardRuns.Trio(caps)
    ensures (forall c :: ReachableFrom(g, caps, c) ==> LogsMatch(c)) <==> g.dropStale && g.stampClient
  {
    hide ReachableFrom;
    if g.dropStale && g.stampClient {
      forall c | ReachableFrom(g, caps, c) ensures LogsMatch(c) {
        assert Reachable(g, c);
        forall i: nat, j: nat, k: nat | SameTermAt(c, i, j, k)
          ensures RaftTheorems.SharedUpTo(c.servers[i].log, c.servers[j].log, k + 1)
        {
          RaftTheorems.LogMatching(g, c, i, j, k);
        }
      }
    } else {
      var c, j := LogsClash(g, caps);
      assert SameTermAt(c, 0, j, 1);
      assert c.servers[0].log[..2][1] != c.servers[j].log[..2][1];
      assert !LogsMatch(c);
    }
  }

  // Different second entries of one term.
  lemma LogsClash(g: Guards, caps: seq<nat>) returns (c: Cluster, j: nat)
    requires GuardRuns.Trio(caps) && !(g.dropStale && g.stampClient)
    ensures ReachableFrom(g, caps, c) && SameTermAt(c, 0, j, 1)
    ensures c.servers[0].log[1] != c.servers[j].log[1]
  {
    hide ReachableFrom;
    if !g.dropStale {
      c := GuardRuns.TwoSecondEntries(g, caps);
      j := 2;
    } else {
      c := GuardRuns.Unstamped2(g, caps);
      j := 1;
    }
  }

  // ---------------------------------------------------------------- what leaders know

  // A matched index does not exceed what the peer shares, unless the peer is in a later term, and
  // is 0 while the peer is in an earlier one.
  ghost predicate MatchedTrue(s: Server, r: Server, matched: nat) {
    && RaftTheorems.SharedUpTo(s.log, r.log, matched)
    && (r.term < s.term ==> matched == 0)
  }

  ghost predicate IsFollowed(c: Cluster, i: nat, j: nat) {
    && i < |c.servers| && j < |c.servers| && i != j && j < |c.servers[i].peers|
    && c.servers[i].role == Leader && c.servers[j].term <= c.servers[i].term
  }

  ghost predicate LeadersInformed(c: Cluster) {
    forall i: nat, j: nat :: IsFollowed(c, i, j) ==>
      MatchedTrue(c.servers[i], c.servers[j], c.servers[i].peers[j].matched)
  }

  lemma LeadersInformedExactlyWhen(g: Guards, caps: seq<nat>)
    requires GuardRuns.Trio(caps)
    ensures (forall c :: ReachableFrom(g, caps, c) ==> LeadersInformed(c))
            <==> g.dropStale && g.stampClient && g.resetMatched
  {
    hide ReachableFrom;
    if g.dropStale && g.stampClient && g.resetMatched {
      forall c | ReachableFrom(g, caps, c) ensures LeadersInformed(c) {
        assert Reachable(g, c);
        forall i: nat, j: nat | IsFollowed(c, i, j)
          ensures MatchedTrue(c.servers[i], c.servers[j], c.servers[i].peers[j].matched)
        {
          RaftTheorems.MatchedIsShared(g, c, i, j);
        }
      }
    } else {
      var c, i, j := LeaderMisled(g, caps);
      assert !LeadersInformed(c);
    }
  }

  lemma LeaderMisled(g: Guards, caps: seq<nat>) returns (c: Cluster, i: nat, j: nat)
    requires GuardRuns.Trio(caps) && !(g.dropStale && g.stampClient && g.resetMatched)
    ensures ReachableFrom(g, caps, c) && IsFollowed(c, i, j)
    ensures !MatchedTrue(c.servers[i], c.servers[j], c.servers[i].peers[j].matched)
  {
    hide ReachableFrom;
    if !g.resetMatched {
      c := GuardRuns.OldEvidence(g, caps);
      i, j := 0, 2;
    } else if !g.stampClient {
      c := GuardRuns.Unstamped3(g, caps);
      i, j := 0, 1;
      assert c.servers[0].log[..3][1] != c.servers[1].log[..3][1];
    } else {
      c := GuardRuns.StaleVote3(g, caps);
      i, j := 2, 1;
      assert c.servers[2].log[..2][1] != c.servers[1].log[..2][1];
    }
  }

  // ---------------------------------------------------------------- what is committed

  // Server j leads at this or a later moment, in server i's present term or a later one.
  ghost predicate LaterLeader(g: Guards, caps: seq<nat>, c: Cluster, acts: seq<Action>, i: nat, j: nat) {
    && ReachableFrom(g, caps, c) && i < |c.servers|
    && var d := After(g, c, acts);
    && j < |d.servers| && d.servers[j].role == Leader && c.servers[i].term <= d.servers[j].term
  }

  ghost predicate HasCommitted(s: Server, leader: Server) {
    s.quickCommit <= |s.log| && s.log[..s.quickCommit] <= leader.log
  }

  ghost predicate LeadersComplete(g: Guards, caps: seq<nat>) {
    forall c, acts, i: nat, j: nat :: LaterLeader(g, caps, c, acts, i, j) ==>
      HasCommitted(c.servers[i], After(g, c, acts).servers[j])
  }

  lemma LeadersCompleteExactlyWhen(g: Guards, caps: seq<nat>)
    requires GuardRuns.Trio(caps)
    ensures LeadersComplete(g, caps) <==> g == GUARDED
  {
    hide ReachableFrom, StateMachineSafe;
    if g == GUARDED {
      forall c, acts, i: nat, j: nat | LaterLeader(g, caps, c, acts, i, j)
        ensures HasCommitted(c.servers[i], After(g, c, acts).servers[j])
      {
        assert Reachable(g, c);
        RaftTheorems.LeaderCompleteness(c, acts, i, j);
      }
    } else {
      var c, i, j, x := UnsafeRun(g, caps);
      assert After(g, c, []) == c;
      assert LaterLeader(g, caps, c, [], i, j);
      var s := c.servers[i];
      if s.quickCommit <= |s.log| {
        assert s.log[..s.quickCommit][x] != c.servers[j].log[x];
      }
    }
  }

  // What server i takes as committed at some moment is on a majority at this or a later one.
  ghost predicate OnMajorityLater(g: Guards, c: Cluster, acts: seq<Action>, i: nat) {
    i < |c.servers| ==>
      && c.servers[i].quickCommit <= |c.servers[i].log|
      && RaftTheorems.OnMajority(After(g, c, acts), c.servers[i].log[..c.servers[i].quickCommit])
  }

  ghost predicate MajoritiesKeep(g: Guards, caps: seq<nat>) {
    forall c, acts, i: nat :: ReachableFrom(g, caps, c) ==> OnMajorityLater(g, c, acts, i)
  }

  lemma MajoritiesKeepExactlyWhen(g: Guards, caps: seq<nat>)
    requires GuardRuns.Trio(caps)
    ensures MajoritiesKeep(g, caps) <==> g == GUARDED
  {
    hide ReachableFrom, StateMachineSafe;
    if g == GUARDED {
      forall c, acts, i: nat | ReachableFrom(g, caps, c) ensures OnMajorityLater(g, c, acts, i) {
        assert Reachable(g, c);
        if i < |c.servers| { RaftTheorems.CommittedStaysOnMajority(c, acts, i); }
      }
    } else {
      var c, i, j, x := UnsafeRun(g, caps);
      assert After(g, c, []) == c;
      var s, r := c.servers[i], c.servers[j];
      if OnMajorityLater(g, c, [], i) && OnMajorityLater(g, c, [], j) {
        MajoritiesMeet(c, s.log[..s.quickCommit], r.log[..r.quickCommit], x);
      }
    }
  }

  lemma MajoritiesMeet(c: Cluster, a: seq<Entry>, b: seq<Entry>, x: nat)
    requires RaftTheorems.OnMajority(c, a) && RaftTheorems.OnMajority(c, b) && x < |a| && x < |b|
    ensures a[x] == b[x]
  {
    var p :| RaftTheorems.HeldBy(c, a, p);
    var q :| RaftTheorems.HeldBy(c, b, q);
    var v := Quorum.Intersect(p, q, |c.servers|);
    assert a[x] == c.servers[v].log[x] == b[x];
  }
}
