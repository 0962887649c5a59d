/** What the safety argument needs to remember of a run: terms, logs, every ballot cast,
    every reign that began, and what each server acknowledged to each leader.

    `Core` is a proof device. The code's own state is in module Cluster; module ClusterInvariant
    shows that every step of the code is a chain of the six actions below. */
module RaftCore {
  import opened RaftTypes
  import opened Quorum

  // A vote: for whom, with the voter's and the candidate's log at that moment.
  datatype Ballot = Ballot(cand: nat, voterLog: seq<Entry>, candLog: seq<Entry>)

  // A leader of one term: its voters, and the longest log it has had in that term.
  datatype Reign = Reign(id: nat, quorum: set<nat>, log: seq<Entry>)

  /** How much of the argument a core carries: who leads; also what the logs hold; also what a
      leader knows of its peers; also what is committed. Each needs more of the guards than the one
      before (ClusterProofs.Covers). */
  datatype Scope = Elections | Logs | Peers | Commits

  datatype Core = Core(
    scope: Scope,
    terms: seq<nat>,
    logs: seq<seq<Entry>>,
    votes: map<(nat, nat), Ballot>,   // (voter, term)
    leaders: map<nat, Reign>,         // term
    acks: map<(nat, nat), nat>)       // (server, term) -> highest index acknowledged

  // ---------------------------------------------------------------- invariant

  // The entry at k came from the leader of its term, at the same place and after the same entries.
  ghost predicate EntrySourced(c: Core, log: seq<Entry>, k: nat) {
    && k < |log|
    && var t := log[k].term;
    && t >= 1
    && t in c.leaders
    && k < |c.leaders[t].log|
    && log[..k + 1] == c.leaders[t].log[..k + 1]
  }

  ghost predicate Ascending(log: seq<Entry>, j: nat, k: nat) {
    j <= k < |log| ==> log[j].term <= log[k].term
  }

  // The explicit triggers here and below keep the invariant from being unfolded unasked.
  ghost predicate LogOK(c: Core, log: seq<Entry>, bound: int) {
    || c.scope.Elections?
    || (&& (forall k: nat {:trigger EntrySourced(c, log, k)} :: k < |log| ==> EntrySourced(c, log, k))
        && (forall j: nat, k: nat {:trigger Ascending(log, j, k)} :: Ascending(log, j, k))
        && (log != [] ==> LastTerm(log) <= bound))
  }

  ghost predicate BallotOK(c: Core, v: nat, t: nat) {
    && (v, t) in c.votes
    && var b := c.votes[(v, t)];
    && v < |c.terms| && 1 <= t <= c.terms[v]
    && b.cand < |c.terms|
    && (b.cand, t) in c.votes
    && c.votes[(b.cand, t)].cand == b.cand
    && c.votes[(b.cand, t)].candLog == b.candLog
    && (b.cand == v ==> b.voterLog == b.candLog)
    && UpToDate(LastTerm(b.candLog), |b.candLog|, b.voterLog)
    && LogOK(c, b.candLog, t - 1)
    && LogOK(c, b.voterLog, t)
  }

  ghost predicate VotedFor(c: Core, v: nat, t: nat, cand: nat) {
    (v, t) in c.votes && c.votes[(v, t)].cand == cand
  }

  ghost predicate ReignOK(c: Core, t: nat) {
    && t in c.leaders
    && var r := c.leaders[t];
    && t >= 1
    && r.id < |c.terms| && |c.terms| == |c.logs|
    && Majority(r.quorum, |c.terms|)
    && (forall v :: v in r.quorum ==> VotedFor(c, v, t, r.id))
    && VotedFor(c, r.id, t, r.id)
    && t <= c.terms[r.id]
    && (c.terms[r.id] == t ==> c.logs[r.id] == r.log)
    && LogOK(c, r.log, t)
  }

  ghost predicate ServerOK(c: Core, i: nat) {
    && i < |c.terms| == |c.logs|
    && LogOK(c, c.logs[i], c.terms[i])
    && (VotedFor(c, i, c.terms[i], i) && c.terms[i] !in c.leaders ==>
          c.logs[i] == c.votes[(i, c.terms[i])].candLog)
  }

  ghost predicate AckOK(c: Core, v: nat, t: nat) {
    && (v, t) in c.acks
    && v < |c.terms| && t <= c.terms[v]
    && t in c.leaders && c.acks[(v, t)] <= |c.leaders[t].log|
    && v < |c.logs|
    && (!c.scope.Elections? && c.terms[v] == t ==>
          c.acks[(v, t)] <= |c.logs[v]| && c.logs[v][..c.acks[(v, t)]] == c.leaders[t].log[..c.acks[(v, t)]])
  }

  // v stored the first k entries of the leader of term t while in term t.
  ghost predicate Acked(c: Core, v: nat, t: nat, k: nat) {
    && t in c.leaders
    && (c.leaders[t].id == v || ((v, t) in c.acks && k <= c.acks[(v, t)]))
  }

  // An index the leader of term t may commit: an entry of its own term (section 5.4.2 of the
  // Raft paper). A cluster of one needs no such care.
  ghost predicate Pivot(c: Core, t: nat, k: nat) {
    && t in c.leaders
    && 1 <= k <= |c.leaders[t].log|
    && (|c.terms| == 1 || c.leaders[t].log[k - 1].term == t)
  }

  // The later leader u was elected by servers none of which stored (t, k); none ever will.
  ghost predicate BlockedBy(c: Core, t: nat, k: nat, u: nat) {
    && u in c.leaders && t < u
    && forall v :: v in c.leaders[u].quorum ==> !Acked(c, v, t, k)
  }

  ghost predicate Blocked(c: Core, t: nat, k: nat) {
    exists u: nat :: BlockedBy(c, t, k, u)
  }

  ghost predicate LeaderKeeps(c: Core, p: seq<Entry>, t: nat, u: nat) {
    u in c.leaders && t < u ==> p <= c.leaders[u].log
  }

  ghost predicate HolderKeeps(c: Core, p: seq<Entry>, t: nat, k: nat, v: nat) {
    v < |c.logs| && Acked(c, v, t, k) ==> p <= c.logs[v]
  }

  ghost predicate VoterKeeps(c: Core, p: seq<Entry>, t: nat, k: nat, v: nat, u: nat) {
    (v, u) in c.votes && t < u && Acked(c, v, t, k) ==> p <= c.votes[(v, u)].voterLog
  }

  // The first k entries of term t's leader are in every later leader's log, in the log of
  // everyone who stored them, and were in the log of each such server whenever it voted later.
  ghost predicate Kept(c: Core, t: nat, k: nat)
    requires Pivot(c, t, k)
  {
    var p := c.leaders[t].log[..k];
    && (forall u: nat :: LeaderKeeps(c, p, t, u))
    && (forall v: nat :: HolderKeeps(c, p, t, k, v))
    && (forall v: nat, u: nat :: VoterKeeps(c, p, t, k, v, u))
  }

  ghost predicate Completeness(c: Core) {
    forall t: nat, k: nat :: Pivot(c, t, k) ==> Blocked(c, t, k) || Kept(c, t, k)
  }

  ghost predicate StructureOK(c: Core) {
    && |c.terms| == |c.logs|
    && (forall v: nat, t: nat {:trigger BallotOK(c, v, t)} :: (v, t) in c.votes ==> BallotOK(c, v, t))
    && (forall t: nat {:trigger ReignOK(c, t)} :: t in c.leaders ==> ReignOK(c, t))
    && (forall i: nat {:trigger ServerOK(c, i)} :: i < |c.terms| ==> ServerOK(c, i))
    && (forall v: nat, t: nat {:trigger AckOK(c, v, t)} :: (v, t) in c.acks ==> AckOK(c, v, t))
  }

  ghost predicate CoreInv(c: Core) {
    StructureOK(c) && (c.scope.Elections? || Completeness(c))
  }

  function InitCore(scope: Scope, n: nat): Core {
    Core(scope, seq(n, i => 0), seq(n, i => []), map[], map[], map[])
  }

  lemma InitCoreInv(scope: Scope, n: nat)
    ensures CoreInv(InitCore(scope, n))
  {
  }

  // ---------------------------------------------------------------- growth

  // What survives of a core as the run goes on.
  ghost predicate Grows(c: Core, d: Core) {
    && d.scope == c.scope && |d.terms| == |c.terms| && |d.logs| == |c.logs|
    && (forall v: nat, t: nat :: (v, t) in c.votes ==> (v, t) in d.votes && d.votes[(v, t)] == c.votes[(v, t)])
    && (forall t: nat :: t in c.leaders ==> ReignGrows(c, d, t))
    && (forall v: nat, t: nat :: (v, t) in c.acks ==> (v, t) in d.acks && c.acks[(v, t)] <= d.acks[(v, t)])
  }

  ghost predicate ReignGrows(c: Core, d: Core, t: nat)
    requires t in c.leaders
  {
    && t in d.leaders
    && d.leaders[t].id == c.leaders[t].id
    && d.leaders[t].quorum == c.leaders[t].quorum
    && c.leaders[t].log <= d.leaders[t].log
  }

  lemma GrowsTransitive(c: Core, d: Core, e: Core)
    requires Grows(c, d) && Grows(d, e)
    ensures Grows(c, e)
  {
    forall t: nat | t in c.leaders ensures ReignGrows(c, e, t) {
      assert ReignGrows(c, d, t);
      assert ReignGrows(d, e, t);
    }
  }

  lemma LogStaysOK(c: Core, d: Core, log: seq<Entry>, bound: int, bound': int)
    requires Grows(c, d) && LogOK(c, log, bound) && bound <= bound'
    ensures LogOK(d, log, bound')
  {
    forall k: nat | !c.scope.Elections? && k < |log| ensures EntrySourced(d, log, k) {
      assert EntrySourced(c, log, k);
      var t := log[k].term;
      assert ReignGrows(c, d, t);
      assert d.leaders[t].log[..k + 1] == c.leaders[t].log[..k + 1];
    }
  }

  lemma LogPrefixOK(c: Core, log: seq<Entry>, bound: int, m: nat)
    requires LogOK(c, log, bound) && m <= |log|
    ensures LogOK(c, log[..m], bound)
  {
    if c.scope.Elections? { return; }
    forall k: nat | k < m ensures EntrySourced(c, log[..m], k) {
      assert EntrySourced(c, log, k);
      assert log[..m][..k + 1] == log[..k + 1];
    }
    forall j: nat, k: nat ensures Ascending(log[..m], j, k) {
      assert Ascending(log, j, k);
    }
    if m > 0 {
      assert Ascending(log, m - 1, |log| - 1);
    }
  }

  lemma BallotStaysOK(c: Core, d: Core, v: nat, t: nat)
    requires Grows(c, d) && (v, t) in c.votes && BallotOK(c, v, t)
    requires d.terms[v] >= c.terms[v]
    ensures BallotOK(d, v, t)
  {
    var b := c.votes[(v, t)];
    LogStaysOK(c, d, b.candLog, t - 1, t - 1);
    LogStaysOK(c, d, b.voterLog, t, t);
  }

  // ---------------------------------------------------------------- log matching

  // Section 5.3: logs that agree on the term at an index are identical up to it.
  lemma SameTermSamePrefix(c: Core, a: seq<Entry>, b: seq<Entry>, k: nat)
    requires k < |a| && k < |b| && a[k].term == b[k].term
    requires EntrySourced(c, a, k) && EntrySourced(c, b, k)
    ensures a[..k + 1] == b[..k + 1]
  {
  }

  // Merging a piece of the leader's log g into f: the result is f itself, or g cut at the end
  // of the piece; it holds the piece; and it keeps whatever f and g shared.
  lemma MergeFollowsLeader(f: seq<Entry>, g: seq<Entry>, p: nat, m: nat)
    requires p <= m <= |g| && p <= |f| && f[..p] == g[..p]
    requires forall k: nat :: k < |f| && k < |g| && f[k].term == g[k].term ==> f[..k + 1] == g[..k + 1]
    ensures var r := Merge(f, p, g[p..m]);
            && m <= |r| && r[..m] == g[..m]
            && (r == f || r == g[..m])
            && (forall k: nat :: k <= |f| && k <= |g| && f[..k] == g[..k] ==> k <= |r| && r[..k] == f[..k])
  {
    AgreeingIsPrefix(f, g, p, m);
    var j := Agreeing(f, p, g[p..m]);
    var r := Merge(f, p, g[p..m]);
    if j == m - p {
      assert r == f;
    } else {
      assert r == f[..p + j] + g[p..m][j..];
      assert r == g[..m];
      forall k: nat | k <= |f| && k <= |g| && f[..k] == g[..k] ensures k <= |r| && r[..k] == f[..k] {
        PrefixAt(f, g, k);
      }
    }
  }

  lemma PrefixAt(f: seq<Entry>, g: seq<Entry>, k: nat)
    requires k <= |f| && k <= |g| && f[..k] == g[..k]
    ensures forall x: nat :: x < k ==> f[x] == g[x]
  {
    forall x: nat | x < k ensures f[x] == g[x] {
      assert f[..k][x] == f[x];
    }
  }

  lemma {:induction false} AgreeingIsPrefix(f: seq<Entry>, g: seq<Entry>, p: nat, m: nat)
    requires p <= m <= |g| && p <= |f| && f[..p] == g[..p]
    requires forall k: nat :: k < |f| && k < |g| && f[k].term == g[k].term ==> f[..k + 1] == g[..k + 1]
    ensures var j := Agreeing(f, p, g[p..m]);
            && p + j <= |f| && p + j <= m && f[..p + j] == g[..p + j]
            && (p + j < m && p + j < |f| ==> f[p + j].term != g[p + j].term)
    decreases m - p
  {
    if p < m && p < |f| && f[p].term == g[p].term {
      assert g[p..m][1..] == g[p + 1..m];
      AgreeingIsPrefix(f, g, p + 1, m);
    }
  }

  // ---------------------------------------------------------------- the five actions

  // A server learns of a higher term.
  function Raise(c: Core, i: nat, t: nat): Core
    requires i < |c.terms|
  {
    c.(terms := c.terms[i := t])
  }

  // A server starts an election: next term, and its own vote.
  function Campaign(c: Core, i: nat): Core
    requires i < |c.terms| == |c.logs|
  {
    var t := c.terms[i] + 1;
    c.(terms := c.terms[i := t], votes := c.votes[(i, t) := Ballot(i, c.logs[i], c.logs[i])])
  }

  // A server votes for another one.
  function Grant(c: Core, v: nat, cand: nat): Core
    requires v < |c.terms| == |c.logs|
    requires (cand, c.terms[v]) in c.votes
  {
    var t := c.terms[v];
    c.(votes := c.votes[(v, t) := Ballot(cand, c.logs[v], c.votes[(cand, t)].candLog)])
  }

  // A candidate with a majority of votes begins its reign.
  function Elect(c: Core, i: nat, q: set<nat>): Core
    requires i < |c.terms| == |c.logs|
  {
    c.(leaders := c.leaders[c.terms[i] := Reign(i, q, c.logs[i])])
  }

  // The leader adds an entry of its term.
  function LeaderAppend(c: Core, i: nat, e: Entry): Core
    requires i < |c.terms| == |c.logs|
    requires c.terms[i] in c.leaders
  {
    var t := c.terms[i];
    var log := c.logs[i] + [e];
    c.(logs := c.logs[i := log], leaders := c.leaders[t := c.leaders[t].(log := log)])
  }

  // A follower merges entries p+1 .. m of its leader's log and acknowledges m.
  function Replicate(c: Core, v: nat, p: nat, m: nat): Core
    requires v < |c.terms| == |c.logs|
    requires c.terms[v] in c.leaders && p <= m <= |c.leaders[c.terms[v]].log| && p <= |c.logs[v]|
  {
    var t := c.terms[v];
    var had := if (v, t) in c.acks then c.acks[(v, t)] else 0;
    c.(logs := c.logs[v := Merge(c.logs[v], p, c.leaders[t].log[p..m])],
       acks := c.acks[(v, t) := if m > had then m else had])
  }

  // ---------------------------------------------------------------- Raise

  lemma RaiseKeepsInv(c: Core, i: nat, t: nat)
    requires CoreInv(c) && i < |c.terms| && c.terms[i] < t
    ensures CoreInv(Raise(c, i, t)) && Grows(c, Raise(c, i, t))
  {
    var d := Raise(c, i, t);
    RaiseGrows(c, i, t);
    RecordsStayOK(c, d);
    forall j: nat | j < |d.terms| ensures ServerOK(d, j) {
      RaiseServerOK(c, i, t, j);
    }
    forall u: nat | u in d.leaders ensures ReignOK(d, u) {
      assert ReignOK(c, u);
      LogStaysOK(c, d, c.leaders[u].log, u, u);
    }
    if !c.scope.Elections? { CompletenessSameLogs(c, d); }
  }

  lemma RaiseGrows(c: Core, i: nat, t: nat)
    requires i < |c.terms|
    ensures Grows(c, Raise(c, i, t))
  {
    assert forall u: nat :: u in c.leaders ==> ReignGrows(c, Raise(c, i, t), u);
  }

  lemma RaiseServerOK(c: Core, i: nat, t: nat, j: nat)
    requires StructureOK(c) && i < |c.terms| && c.terms[i] < t && j < |c.terms|
    ensures ServerOK(Raise(c, i, t), j)
  {
    var d := Raise(c, i, t);
    RaiseGrows(c, i, t);
    assert ServerOK(c, j);
    LogStaysOK(c, d, c.logs[j], c.terms[j], d.terms[j]);
    assert (i, t) in c.votes ==> BallotOK(c, i, t);
  }

  // Ballots are records: they stay right as the core grows.
  lemma BallotsStayOK(c: Core, d: Core)
    requires StructureOK(c) && Grows(c, d)
    requires forall i: nat :: i < |c.terms| ==> c.terms[i] <= d.terms[i]
    ensures forall v: nat, t: nat :: (v, t) in c.votes ==> BallotOK(d, v, t)
  {
    forall v: nat, t: nat | (v, t) in c.votes ensures BallotOK(d, v, t) {
      assert BallotOK(c, v, t);
      BallotStaysOK(c, d, v, t);
    }
  }

  // So are acknowledgements, while no log loses entries within a term.
  lemma RecordsStayOK(c: Core, d: Core)
    requires StructureOK(c) && Grows(c, d)
    requires forall i: nat :: i < |c.terms| ==> c.terms[i] <= d.terms[i]
    requires forall i: nat :: i < |c.terms| ==> c.logs[i] <= d.logs[i]
    ensures forall v: nat, t: nat :: (v, t) in c.votes ==> BallotOK(d, v, t)
    ensures forall v: nat, t: nat :: (v, t) in c.acks && c.acks[(v, t)] == d.acks[(v, t)] ==> AckOK(d, v, t)
  {
    BallotsStayOK(c, d);
    forall v: nat, t: nat | (v, t) in c.acks && c.acks[(v, t)] == d.acks[(v, t)] ensures AckOK(d, v, t) {
      AckStaysOK(c, d, v, t);
    }
  }

  lemma AckStaysOK(c: Core, d: Core, v: nat, t: nat)
    requires StructureOK(c) && Grows(c, d)
    requires (v, t) in c.acks && c.acks[(v, t)] == d.acks[(v, t)]
    requires v < |c.terms| ==> c.terms[v] <= d.terms[v]
    requires v < |c.terms| && t == d.terms[v] ==> c.logs[v] <= d.logs[v]
    ensures AckOK(d, v, t)
  {
    assert AckOK(c, v, t);
    assert ReignGrows(c, d, t);
    var m := c.acks[(v, t)];
    assert d.leaders[t].log[..m] == c.leaders[t].log[..m];
    if !c.scope.Elections? && d.terms[v] == t {
      assert d.logs[v][..m] == c.logs[v][..m];
    }
  }

  // Completeness survives any step that changes no log: new ballots record the voter's log as it is.
  lemma CompletenessSameLogs(c: Core, d: Core)
    requires Completeness(c)
    requires |c.terms| == |d.terms| && c.logs == d.logs && c.leaders == d.leaders && c.acks == d.acks
    requires forall v: nat, u: nat :: (v, u) in d.votes ==> BallotKnown(c, d, v, u)
    ensures Completeness(d)
  {
    forall t: nat, k: nat | Pivot(d, t, k) ensures Blocked(d, t, k) || Kept(d, t, k) {
      assert Pivot(c, t, k);
      if Blocked(c, t, k) {
        var u :| BlockedBy(c, t, k, u);
        assert BlockedBy(d, t, k, u);
      } else {
        KeptSameLogs(c, d, t, k);
      }
    }
  }

  ghost predicate BallotKnown(c: Core, d: Core, v: nat, u: nat)
    requires (v, u) in d.votes
  {
    || ((v, u) in c.votes && c.votes[(v, u)] == d.votes[(v, u)])
    || (v < |c.logs| && d.votes[(v, u)].voterLog == c.logs[v])
  }

  lemma KeptSameLogs(c: Core, d: Core, t: nat, k: nat)
    requires Pivot(c, t, k) && Pivot(d, t, k) && Kept(c, t, k)
    requires c.logs == d.logs && c.leaders == d.leaders && c.acks == d.acks
    requires forall v: nat, u: nat :: (v, u) in d.votes ==> BallotKnown(c, d, v, u)
    ensures Kept(d, t, k)
  {
    var p := c.leaders[t].log[..k];
    forall u: nat ensures LeaderKeeps(d, p, t, u) { assert LeaderKeeps(c, p, t, u); }
    forall v: nat ensures HolderKeeps(d, p, t, k, v) { assert HolderKeeps(c, p, t, k, v); }
    forall v: nat, u: nat ensures VoterKeeps(d, p, t, k, v, u) {
      assert VoterKeeps(c, p, t, k, v, u);
      assert HolderKeeps(c, p, t, k, v);
      assert (v, u) in d.votes ==> BallotKnown(c, d, v, u);
    }
  }

  // ---------------------------------------------------------------- Campaign and Grant

  lemma BallotStructure(c: Core, d: Core, v: nat, t: nat)
    requires StructureOK(c) && Grows(c, d) && v < |c.terms|
    requires d.logs == c.logs && d.leaders == c.leaders && d.acks == c.acks
    requires d.terms == c.terms[v := t] && c.terms[v] <= t
    requires (v, t) !in c.votes && (v, t) in d.votes && d.votes == c.votes[(v, t) := d.votes[(v, t)]]
    requires BallotOK(d, v, t)
    requires d.votes[(v, t)].cand == v ==> d.votes[(v, t)].candLog == c.logs[v]
    ensures StructureOK(d)
  {
    RecordsStayOK(c, d);
    forall j: nat | j < |d.terms| ensures ServerOK(d, j) {
      assert ServerOK(c, j);
      LogStaysOK(c, d, c.logs[j], c.terms[j], d.terms[j]);
    }
    forall u: nat | u in d.leaders ensures ReignOK(d, u) {
      assert ReignOK(c, u);
      LogStaysOK(c, d, c.leaders[u].log, u, u);
    }
  }

  lemma BallotGrows(c: Core, d: Core, v: nat, t: nat)
    requires v < |c.terms| && d.terms == c.terms[v := t]
    requires d.scope == c.scope
    requires d.logs == c.logs && d.leaders == c.leaders && d.acks == c.acks
    requires (v, t) !in c.votes && (v, t) in d.votes && d.votes == c.votes[(v, t) := d.votes[(v, t)]]
    ensures Grows(c, d)
  {
    assert forall u: nat :: u in c.leaders ==> ReignGrows(c, d, u);
  }

  lemma CampaignKeepsInv(c: Core, i: nat)
    requires CoreInv(c) && i < |c.terms|
    ensures CoreInv(Campaign(c, i)) && Grows(c, Campaign(c, i))
  {
    var d := Campaign(c, i);
    var t := c.terms[i] + 1;
    assert (i, t) in c.votes ==> BallotOK(c, i, t);
    BallotGrows(c, d, i, t);
    assert ServerOK(c, i);
    LogStaysOK(c, d, c.logs[i], t - 1, t - 1);
    LogStaysOK(c, d, c.logs[i], t - 1, t);
    BallotStructure(c, d, i, t);
    if !c.scope.Elections? { CompletenessSameLogs(c, d); }
  }

  lemma GrantKeepsInv(c: Core, v: nat, cand: nat)
    requires CoreInv(c) && v < |c.terms| && v != cand
    requires (v, c.terms[v]) !in c.votes && VotedFor(c, cand, c.terms[v], cand)
    requires var log := c.votes[(cand, c.terms[v])].candLog;
             UpToDate(LastTerm(log), |log|, c.logs[v])
    ensures CoreInv(Grant(c, v, cand)) && Grows(c, Grant(c, v, cand))
  {
    var d := Grant(c, v, cand);
    var t := c.terms[v];
    assert d.terms == c.terms[v := t];
    BallotGrows(c, d, v, t);
    assert ServerOK(c, v);
    assert BallotOK(c, cand, t);
    LogStaysOK(c, d, c.logs[v], t, t);
    LogStaysOK(c, d, c.votes[(cand, t)].candLog, t - 1, t - 1);
    BallotStructure(c, d, v, t);
    if !c.scope.Elections? { CompletenessSameLogs(c, d); }
  }

  // ---------------------------------------------------------------- Elect

  // The heart of section 5.4: a voter that stored (t, k) only votes for a candidate whose log
  // holds the same k entries.
  lemma CandidateHasPrefix(c: Core, t: nat, k: nat, v: nat, u: nat)
    requires StructureOK(c) && !c.scope.Elections? && Pivot(c, t, k) && Kept(c, t, k) && t < u
    requires (v, u) in c.votes && Acked(c, v, t, k)
    ensures c.leaders[t].log[..k] <= c.votes[(v, u)].candLog
  {
    var p := c.leaders[t].log[..k];
    var b := c.votes[(v, u)];
    assert BallotOK(c, v, u);
    assert VoterKeeps(c, p, t, k, v, u);
    if |c.terms| > 1 {
      var vl, cl := b.voterLog, b.candLog;
      assert p[k - 1] == vl[k - 1];
      assert EntrySourced(c, vl, |vl| - 1);
      assert Ascending(vl, k - 1, |vl| - 1);
      assert t <= LastTerm(vl) <= LastTerm(cl);
      var w := LastTerm(cl);
      assert EntrySourced(c, cl, |cl| - 1);
      assert cl == cl[..|cl|] == c.leaders[w].log[..|cl|];
      if w == LastTerm(vl) {
        assert vl == vl[..|vl|] == c.leaders[w].log[..|vl|];
      } else {
        assert LeaderKeeps(c, p, t, w);
        LongerThanPrefix(c, t, k, cl);
      }
    } else {
      assert b.cand == v;
    }
  }

  // A log ending in a later term than t, with p a prefix of that term's leader, is at least as long as p.
  lemma LongerThanPrefix(c: Core, t: nat, k: nat, log: seq<Entry>)
    requires StructureOK(c) && !c.scope.Elections? && Pivot(c, t, k) && log != [] && t < LastTerm(log)
    requires EntrySourced(c, log, |log| - 1)
    requires c.leaders[t].log[..k] <= c.leaders[LastTerm(log)].log
    ensures k <= |log|
  {
    var w := LastTerm(log);
    var g := c.leaders[w].log;
    assert log == log[..|log|] == g[..|log|];
    assert ReignOK(c, t);
    assert Ascending(c.leaders[t].log, |log| - 1, |c.leaders[t].log| - 1);
    assert g[|log| - 1] == log[|log| - 1];
    PrefixAt(c.leaders[t].log, g, k);
  }

  lemma ElectKeepsInv(c: Core, i: nat, q: set<nat>)
    requires CoreInv(c) && i < |c.terms| && c.terms[i] !in c.leaders
    requires Majority(q, |c.terms|) && VotedFor(c, i, c.terms[i], i)
    requires forall v :: v in q ==> VotedFor(c, v, c.terms[i], i)
    ensures CoreInv(Elect(c, i, q)) && Grows(c, Elect(c, i, q))
  {
    ElectStructure(c, i, q);
    var d := Elect(c, i, q);
    forall t: nat, k: nat | !c.scope.Elections? && Pivot(d, t, k) ensures Blocked(d, t, k) || Kept(d, t, k) {
      if t == c.terms[i] {
        ElectOwnTerm(c, i, q, k);
      } else {
        ElectOtherTerm(c, i, q, t, k);
      }
    }
  }

  lemma ElectStructure(c: Core, i: nat, q: set<nat>)
    requires StructureOK(c) && i < |c.terms| && c.terms[i] !in c.leaders
    requires Majority(q, |c.terms|) && VotedFor(c, i, c.terms[i], i)
    requires forall v :: v in q ==> VotedFor(c, v, c.terms[i], i)
    ensures StructureOK(Elect(c, i, q)) && Grows(c, Elect(c, i, q))
    ensures c.terms[i] >= 1 && LogOK(c, c.logs[i], c.terms[i] - 1)
  {
    var d := Elect(c, i, q);
    assert forall u: nat :: u in c.leaders ==> ReignGrows(c, d, u);
    RecordsStayOK(c, d);
    assert ServerOK(c, i);
    assert BallotOK(c, i, c.terms[i]);
    forall j: nat | j < |d.terms| ensures ServerOK(d, j) {
      assert ServerOK(c, j);
      LogStaysOK(c, d, c.logs[j], c.terms[j], d.terms[j]);
    }
    forall u: nat | u in d.leaders ensures ReignOK(d, u) {
      if u == c.terms[i] {
        LogStaysOK(c, d, c.logs[i], u, u);
      } else {
        assert ReignOK(c, u);
        LogStaysOK(c, d, c.leaders[u].log, u, u);
      }
    }
  }

  // A fresh leader has no entry of its own term yet, so only a cluster of one has pivots here.
  lemma ElectOwnTerm(c: Core, i: nat, q: set<nat>, k: nat)
    requires !c.scope.Elections?
    requires StructureOK(c) && i < |c.terms| && c.terms[i] !in c.leaders
    requires StructureOK(Elect(c, i, q))
    requires c.terms[i] >= 1 && LogOK(c, c.logs[i], c.terms[i] - 1)
    requires Pivot(Elect(c, i, q), c.terms[i], k)
    ensures Kept(Elect(c, i, q), c.terms[i], k)
  {
    var d := Elect(c, i, q);
    var t := c.terms[i];
    var p := d.leaders[t].log[..k];
    assert Ascending(c.logs[i], k - 1, |c.logs[i]| - 1);
    assert |c.terms| == 1;
    forall u: nat ensures LeaderKeeps(d, p, t, u) {
      assert u in d.leaders ==> ReignOK(d, u);
    }
    forall v: nat ensures HolderKeeps(d, p, t, k, v) {
    }
    forall v: nat, u: nat ensures VoterKeeps(d, p, t, k, v, u) {
      assert (v, u) in d.votes ==> BallotOK(d, v, u);
    }
  }

  lemma ElectOtherTerm(c: Core, i: nat, q: set<nat>, t: nat, k: nat)
    requires !c.scope.Elections?
    requires CoreInv(c) && i < |c.terms| && c.terms[i] !in c.leaders && t != c.terms[i]
    requires VotedFor(c, i, c.terms[i], i)
    requires forall v :: v in q ==> VotedFor(c, v, c.terms[i], i)
    requires Pivot(Elect(c, i, q), t, k)
    ensures Blocked(Elect(c, i, q), t, k) || Kept(Elect(c, i, q), t, k)
  {
    var d := Elect(c, i, q);
    var u := c.terms[i];
    assert Pivot(c, t, k);
    if Blocked(c, t, k) {
      var w :| BlockedBy(c, t, k, w);
      assert BlockedBy(d, t, k, w);
    } else if t < u && (forall v :: v in q ==> !Acked(c, v, t, k)) {
      assert BlockedBy(d, t, k, u);
    } else {
      if t < u {
        var v :| v in q && Acked(c, v, t, k);
        CandidateHasPrefix(c, t, k, v, u);
        assert BallotOK(c, v, u);
        assert ServerOK(c, i);
      }
      ElectKept(c, i, q, t, k);
    }
  }

  lemma ElectKept(c: Core, i: nat, q: set<nat>, t: nat, k: nat)
    requires i < |c.terms| == |c.logs| && c.terms[i] !in c.leaders && t != c.terms[i]
    requires Pivot(c, t, k) && Pivot(Elect(c, i, q), t, k) && Kept(c, t, k)
    requires t < c.terms[i] ==> c.leaders[t].log[..k] <= c.logs[i]
    ensures Kept(Elect(c, i, q), t, k)
  {
    var d := Elect(c, i, q);
    var p := c.leaders[t].log[..k];
    forall w: nat ensures LeaderKeeps(d, p, t, w) { assert LeaderKeeps(c, p, t, w); }
    forall v: nat ensures HolderKeeps(d, p, t, k, v) { assert HolderKeeps(c, p, t, k, v); }
    forall v: nat, w: nat ensures VoterKeeps(d, p, t, k, v, w) { assert VoterKeeps(c, p, t, k, v, w); }
  }

  // ---------------------------------------------------------------- LeaderAppend

  ghost predicate IsLeader(c: Core, i: nat) {
    i < |c.terms| && c.terms[i] in c.leaders && c.leaders[c.terms[i]].id == i
  }

  // A leader adds entries of its own term.
  ghost predicate MayAdd(c: Core, i: nat, e: Entry)
    requires i < |c.terms|
  {
    c.scope.Elections? || e.term == c.terms[i]
  }

  lemma AppendKeepsInv(c: Core, i: nat, e: Entry)
    requires CoreInv(c) && IsLeader(c, i) && MayAdd(c, i, e)
    ensures CoreInv(LeaderAppend(c, i, e)) && Grows(c, LeaderAppend(c, i, e))
  {
    AppendGrows(c, i, e);
    AppendStructure(c, i, e);
    var d := LeaderAppend(c, i, e);
    forall t: nat, k: nat | !c.scope.Elections? && Pivot(d, t, k) ensures Blocked(d, t, k) || Kept(d, t, k) {
      if t == c.terms[i] && k == |d.leaders[t].log| {
        AppendNewIndex(c, i, e);
      } else {
        assert ReignOK(c, c.terms[i]);
        AppendOldIndex(c, i, e, t, k);
      }
    }
  }

  lemma AppendGrows(c: Core, i: nat, e: Entry)
    requires StructureOK(c) && IsLeader(c, i)
    ensures Grows(c, LeaderAppend(c, i, e))
  {
    var d := LeaderAppend(c, i, e);
    forall u: nat | u in c.leaders ensures ReignGrows(c, d, u) {
      assert ReignOK(c, u);
    }
  }

  lemma AppendStructure(c: Core, i: nat, e: Entry)
    requires StructureOK(c) && IsLeader(c, i) && MayAdd(c, i, e)
    ensures StructureOK(LeaderAppend(c, i, e))
  {
    var d := LeaderAppend(c, i, e);
    var t := c.terms[i];
    AppendGrows(c, i, e);
    RecordsStayOK(c, d);
    assert ReignOK(c, t);
    AppendLogOK(c, i, e);
    forall j: nat | j < |d.terms| ensures ServerOK(d, j) {
      assert ServerOK(c, j);
      if j != i {
        LogStaysOK(c, d, c.logs[j], c.terms[j], d.terms[j]);
      }
    }
    forall u: nat | u in d.leaders ensures ReignOK(d, u) {
      assert ReignOK(c, u);
      if u != t {
        LogStaysOK(c, d, c.leaders[u].log, u, u);
      }
    }
  }

  lemma AppendLogOK(c: Core, i: nat, e: Entry)
    requires StructureOK(c) && IsLeader(c, i) && MayAdd(c, i, e)
    ensures LogOK(LeaderAppend(c, i, e), c.logs[i] + [e], c.terms[i])
  {
    var d := LeaderAppend(c, i, e);
    var t := c.terms[i];
    var log := c.logs[i] + [e];
    AppendGrows(c, i, e);
    assert ReignOK(c, t);
    LogStaysOK(c, d, c.logs[i], t, t);
    if c.scope.Elections? { return; }
    forall k: nat | k < |log| ensures EntrySourced(d, log, k) {
      if k < |c.logs[i]| {
        assert EntrySourced(d, c.logs[i], k);
        assert log[..k + 1] == c.logs[i][..k + 1];
      }
    }
    forall j: nat, k: nat ensures Ascending(log, j, k) {
      assert Ascending(c.logs[i], j, k);
      if c.logs[i] != [] {
        assert Ascending(c.logs[i], j, |c.logs[i]| - 1);
      }
    }
  }

  // A later leader that already exists was elected without the new entry, so it blocks it.
  lemma AppendNewIndex(c: Core, i: nat, e: Entry)
    requires !c.scope.Elections?
    requires StructureOK(c) && IsLeader(c, i) && MayAdd(c, i, e)
    requires StructureOK(LeaderAppend(c, i, e))
    ensures var d := LeaderAppend(c, i, e);
            var k := |d.leaders[c.terms[i]].log|;
            Pivot(d, c.terms[i], k) && (Blocked(d, c.terms[i], k) || Kept(d, c.terms[i], k))
  {
    var d := LeaderAppend(c, i, e);
    var t := c.terms[i];
    var k := |d.leaders[t].log|;
    var p := d.leaders[t].log[..k];
    assert ReignOK(c, t);
    forall v: nat | v != i ensures !Acked(d, v, t, k) {
      assert (v, t) in c.acks ==> AckOK(c, v, t);
    }
    if u: nat :| u in d.leaders && t < u {
      assert ReignOK(c, u);
      assert forall v :: v in c.leaders[u].quorum ==> BallotOK(c, v, u);
      assert BlockedBy(d, t, k, u);
    } else {
      forall v: nat, u: nat ensures VoterKeeps(d, p, t, k, v, u) {
        assert (v, u) in d.votes ==> BallotOK(d, v, u);
      }
      forall v: nat ensures HolderKeeps(d, p, t, k, v) {
      }
      forall u: nat ensures LeaderKeeps(d, p, t, u) {
      }
    }
  }

  lemma AppendOldIndex(c: Core, i: nat, e: Entry, t: nat, k: nat)
    requires !c.scope.Elections?
    requires CoreInv(c) && IsLeader(c, i) && MayAdd(c, i, e)
    requires Grows(c, LeaderAppend(c, i, e))
    requires Pivot(LeaderAppend(c, i, e), t, k) && k <= |c.leaders[t].log|
    ensures Blocked(LeaderAppend(c, i, e), t, k) || Kept(LeaderAppend(c, i, e), t, k)
  {
    var d := LeaderAppend(c, i, e);
    assert ReignOK(c, c.terms[i]);
    assert ReignGrows(c, d, t);
    var p := c.leaders[t].log[..k];
    assert d.leaders[t].log[..k] == p;
    assert k >= 1 ==> d.leaders[t].log[k - 1] == c.leaders[t].log[k - 1];
    assert Pivot(c, t, k);
    if Blocked(c, t, k) {
      var w :| BlockedBy(c, t, k, w);
      assert BlockedBy(d, t, k, w);
    } else {
      forall w: nat ensures LeaderKeeps(d, p, t, w) {
        assert LeaderKeeps(c, p, t, w);
        assert w in c.leaders ==> ReignGrows(c, d, w);
      }
      forall v: nat ensures HolderKeeps(d, p, t, k, v) { assert HolderKeeps(c, p, t, k, v); }
      forall v: nat, w: nat ensures VoterKeeps(d, p, t, k, v, w) { assert VoterKeeps(c, p, t, k, v, w); }
    }
  }

  // ---------------------------------------------------------------- Replicate

  ghost predicate CanReplicate(c: Core, v: nat, p: nat, m: nat) {
    && v < |c.terms| == |c.logs|
    && c.terms[v] in c.leaders && c.leaders[c.terms[v]].id != v
    && p <= m <= |c.leaders[c.terms[v]].log| && p <= |c.logs[v]|
    && TermAt(c.logs[v], p) == TermAt(c.leaders[c.terms[v]].log, p)
  }

  // What the merge makes of the follower's log.
  lemma ReplicateMerges(c: Core, v: nat, p: nat, m: nat)
    requires !c.scope.Elections?
    requires StructureOK(c) && CanReplicate(c, v, p, m)
    ensures var f, g, r := c.logs[v], c.leaders[c.terms[v]].log, Replicate(c, v, p, m).logs[v];
            && m <= |r| && r[..m] == g[..m]
            && (r == f || r == g[..m])
            && (forall k: nat :: k <= |f| && k <= |g| && f[..k] == g[..k] ==> k <= |r| && r[..k] == f[..k])
  {
    var f, g := c.logs[v], c.leaders[c.terms[v]].log;
    assert ServerOK(c, v);
    assert ReignOK(c, c.terms[v]);
    forall k: nat | k < |f| && k < |g| && f[k].term == g[k].term ensures f[..k + 1] == g[..k + 1] {
      SameTermSamePrefix(c, f, g, k);
    }
    MergeFollowsLeader(f, g, p, m);
  }

  lemma ReplicateAck(c: Core, v: nat, p: nat, m: nat)
    requires StructureOK(c) && CanReplicate(c, v, p, m)
    ensures AckOK(Replicate(c, v, p, m), v, c.terms[v])
  {
    var t := c.terms[v];
    if !c.scope.Elections? { ReplicateMerges(c, v, p, m); }
    if (v, t) in c.acks {
      assert AckOK(c, v, t);
    }
  }

  lemma ReplicateGrows(c: Core, v: nat, p: nat, m: nat)
    requires StructureOK(c) && CanReplicate(c, v, p, m)
    ensures Grows(c, Replicate(c, v, p, m))
  {
    hide Merge, LogOK, EntrySourced;
    var d := Replicate(c, v, p, m);
    assert (v, c.terms[v]) in c.acks ==> AckOK(c, v, c.terms[v]);
    assert forall u: nat :: u in c.leaders ==> ReignGrows(c, d, u);
  }

  lemma ReplicateLogs(c: Core, v: nat, p: nat, m: nat, j: nat)
    requires StructureOK(c) && CanReplicate(c, v, p, m) && Grows(c, Replicate(c, v, p, m)) && j < |c.terms|
    ensures LogOK(Replicate(c, v, p, m), Replicate(c, v, p, m).logs[j], c.terms[j])
  {
    hide Merge;
    var d := Replicate(c, v, p, m);
    assert ServerOK(c, j);
    if c.scope.Elections? { return; }
    if j == v {
      ReplicateMerges(c, v, p, m);
      assert ReignOK(c, c.terms[v]);
      LogPrefixOK(c, c.leaders[c.terms[v]].log, c.terms[v], m);
    }
    LogStaysOK(c, d, d.logs[j], c.terms[j], c.terms[j]);
  }

  lemma ReplicateStructure(c: Core, v: nat, p: nat, m: nat)
    requires StructureOK(c) && CanReplicate(c, v, p, m)
    ensures StructureOK(Replicate(c, v, p, m)) && Grows(c, Replicate(c, v, p, m))
  {
    hide Merge, LogOK, EntrySourced, Ascending, UpToDate, LastTerm, TermAt;
    var d := Replicate(c, v, p, m);
    var t := c.terms[v];
    ReplicateGrows(c, v, p, m);
    BallotsStayOK(c, d);
    ReplicateAck(c, v, p, m);
    forall x: nat, w: nat | (x, w) in d.acks ensures AckOK(d, x, w) {
      if (x, w) != (v, t) {
        AckStaysOK(c, d, x, w);
      }
    }
    forall j: nat | j < |d.terms| ensures ServerOK(d, j) {
      assert ServerOK(c, j);
      assert j == v && VotedFor(c, v, t, v) ==> ReignOK(c, t);
      ReplicateLogs(c, v, p, m, j);
    }
    forall u: nat | u in d.leaders ensures ReignOK(d, u) {
      assert ReignOK(c, u);
      LogStaysOK(c, d, c.leaders[u].log, u, u);
    }
  }

  lemma ReplicateKeepsInv(c: Core, v: nat, p: nat, m: nat)
    requires CoreInv(c) && CanReplicate(c, v, p, m)
    ensures CoreInv(Replicate(c, v, p, m)) && Grows(c, Replicate(c, v, p, m))
  {
    ReplicateStructure(c, v, p, m);
    var d := Replicate(c, v, p, m);
    forall t: nat, k: nat | !c.scope.Elections? && Pivot(d, t, k) ensures Blocked(d, t, k) || Kept(d, t, k) {
      assert Pivot(c, t, k);
      if Blocked(c, t, k) {
        var w :| BlockedBy(c, t, k, w);
        ReplicateBlocked(c, v, p, m, t, k, w);
      } else {
        ReplicateKept(c, v, p, m, t, k);
      }
    }
  }

  lemma ReplicateBlocked(c: Core, v: nat, p: nat, m: nat, t: nat, k: nat, w: nat)
    requires StructureOK(c) && CanReplicate(c, v, p, m) && BlockedBy(c, t, k, w)
    ensures BlockedBy(Replicate(c, v, p, m), t, k, w)
  {
    assert ReignOK(c, w);
    assert v in c.leaders[w].quorum ==> BallotOK(c, v, w);
  }

  lemma ReplicateKept(c: Core, v: nat, p: nat, m: nat, t: nat, k: nat)
    requires !c.scope.Elections?
    requires StructureOK(c) && CanReplicate(c, v, p, m)
    requires Pivot(c, t, k) && Kept(c, t, k)
    ensures Kept(Replicate(c, v, p, m), t, k)
  {
    hide Merge, Agreeing, LogOK, Majority;
    var d := Replicate(c, v, p, m);
    var q := c.leaders[t].log[..k];
    var u := c.terms[v];
    forall w: nat ensures LeaderKeeps(d, q, t, w) { assert LeaderKeeps(c, q, t, w); }
    ReplicateMerges(c, v, p, m);
    forall x: nat ensures HolderKeeps(d, q, t, k, x) {
      assert HolderKeeps(c, q, t, k, x);
      if x == v && Acked(d, v, t, k) {
        assert LeaderKeeps(c, q, t, u);
        assert (v, t) in c.acks ==> AckOK(c, v, t);
        assert ReignOK(c, t);
        if Acked(c, v, t, k) {
          assert q == c.logs[v][..k];
        } else {
          assert t == u && k <= m;
          assert q == c.leaders[u].log[..m][..k] == d.logs[v][..m][..k];
        }
      }
    }
    forall x: nat, w: nat ensures VoterKeeps(d, q, t, k, x, w) {
      assert VoterKeeps(c, q, t, k, x, w);
      assert (x, w) in c.votes ==> BallotOK(c, x, w);
    }
  }

  // ---------------------------------------------------------------- what is committed

  ghost predicate AckQuorum(c: Core, t: nat, k: nat, q: set<nat>) {
    Majority(q, |c.terms|) && forall v :: v in q ==> Acked(c, v, t, k)
  }

  // The leader of term t may take index k as committed.
  ghost predicate Committed(c: Core, t: nat, k: nat) {
    Pivot(c, t, k) && exists q: set<nat> :: AckQuorum(c, t, k, q)
  }

  lemma CommittedIsKept(c: Core, t: nat, k: nat)
    requires !c.scope.Elections?
    requires CoreInv(c) && Committed(c, t, k)
    ensures Kept(c, t, k)
  {
    var q :| AckQuorum(c, t, k, q);
    if Blocked(c, t, k) {
      var u :| BlockedBy(c, t, k, u);
      assert ReignOK(c, u);
      var v := Intersect(q, c.leaders[u].quorum, |c.terms|);
      assert false;
    }
  }

  // Section 5.4: what is committed in a term is in the log of every later leader.
  lemma CommittedReachesLeaders(c: Core, t: nat, k: nat, u: nat)
    requires !c.scope.Elections?
    requires CoreInv(c) && Committed(c, t, k) && u in c.leaders && t <= u
    ensures c.leaders[t].log[..k] <= c.leaders[u].log
  {
    CommittedIsKept(c, t, k);
    assert LeaderKeeps(c, c.leaders[t].log[..k], t, u);
  }

  lemma CommittedStays(c: Core, d: Core, t: nat, k: nat)
    requires Grows(c, d) && Committed(c, t, k)
    ensures Committed(d, t, k) && d.leaders[t].log[..k] == c.leaders[t].log[..k]
  {
    assert ReignGrows(c, d, t);
    var q :| AckQuorum(c, t, k, q);
    assert d.leaders[t].log[k - 1] == c.leaders[t].log[k - 1];
    assert AckQuorum(d, t, k, q);
  }

  // A log prefix that is known to be committed in some term up to `bound`.
  ghost predicate CommittedLog(c: Core, log: seq<Entry>, bound: nat) {
    c.scope.Commits? && log != [] ==> exists t: nat, k: nat :: t <= bound && CommittedAs(c, log, t, k)
  }

  ghost predicate CommittedAs(c: Core, log: seq<Entry>, t: nat, k: nat) {
    Committed(c, t, k) && log <= c.leaders[t].log[..k]
  }

  lemma CommittedLogStays(c: Core, d: Core, log: seq<Entry>, bound: nat, bound': nat)
    requires Grows(c, d) && CommittedLog(c, log, bound) && bound <= bound'
    ensures CommittedLog(d, log, bound')
  {
    if c.scope.Commits? && log != [] {
      var t: nat, k: nat :| t <= bound && CommittedAs(c, log, t, k);
      CommittedStays(c, d, t, k);
      assert CommittedAs(d, log, t, k);
    }
  }

  lemma CommittedLogPrefix(c: Core, log: seq<Entry>, bound: nat, m: nat)
    requires CommittedLog(c, log, bound) && m <= |log|
    ensures CommittedLog(c, log[..m], bound)
  {
    if c.scope.Commits? && log != [] && m > 0 {
      var t: nat, k: nat :| t <= bound && CommittedAs(c, log, t, k);
      assert CommittedAs(c, log[..m], t, k);
    }
  }

  lemma CommittedLogReachesLeader(c: Core, log: seq<Entry>, bound: nat, u: nat)
    requires c.scope.Commits?
    requires CoreInv(c) && CommittedLog(c, log, bound) && u in c.leaders && bound <= u
    ensures log <= c.leaders[u].log
  {
    if log != [] {
      var t: nat, k: nat :| t <= bound && CommittedAs(c, log, t, k);
      CommittedReachesLeaders(c, t, k, u);
    }
  }

  // Section 5.4.3: committed prefixes, whoever holds them, never disagree.
  lemma CommittedLogsAgree(c: Core, a: seq<Entry>, b: seq<Entry>, x: nat, y: nat)
    requires c.scope.Commits?
    requires CoreInv(c) && CommittedLog(c, a, x) && CommittedLog(c, b, y)
    ensures a <= b || b <= a
  {
    if a != [] && b != [] {
      var t: nat, k: nat :| t <= x && CommittedAs(c, a, t, k);
      var u: nat, m: nat :| u <= y && CommittedAs(c, b, u, m);
      if t <= u {
        CommittedReachesLeaders(c, t, k, u);
      } else {
        CommittedReachesLeaders(c, u, m, t);
      }
    }
  }
}
