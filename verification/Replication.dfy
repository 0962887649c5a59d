/** How a leader and one follower find where their logs agree, and what happens from there: the
    follower's merge and the leader's backtracking, for any two logs that obey Log Matching. */
module Replication {
  import opened RaftTypes
  import opened Median
  import opened ServerSpec

  // Log Matching, section 5.3 of the Raft paper, for two logs (proved of all reachable ones in
  // RaftTheorems.LogMatching).
  ghost predicate Matching(a: seq<Entry>, b: seq<Entry>) {
    forall k :: 0 <= k < |a| && k < |b| && a[k].term == b[k].term ==> a[..k + 1] == b[..k + 1]
  }

  // The logs agree on their first k entries.
  ghost predicate AgreeTo(a: seq<Entry>, b: seq<Entry>, k: nat) {
    k <= |a| && k <= |b| && a[..k] == b[..k]
  }

  // ---------------------------------------------------------------- the merge

  lemma {:induction false} AgreeingMeans(log: seq<Entry>, prev: nat, entries: seq<Entry>)
    ensures var j := Agreeing(log, prev, entries);
            && (j == 0 || prev + j <= |log|)
            && (forall x :: 0 <= x < j ==> log[prev + x].term == entries[x].term)
            && (j < |entries| && prev + j < |log| ==> log[prev + j].term != entries[j].term)
    decreases |entries|
  {
    if entries != [] && prev < |log| && log[prev].term == entries[0].term {
      AgreeingMeans(log, prev + 1, entries[1..]);
      var j := Agreeing(log, prev + 1, entries[1..]);
      forall x | 0 <= x < j + 1 ensures log[prev + x].term == entries[x].term {
        if x > 0 { assert log[prev + 1 + (x - 1)].term == entries[1..][x - 1].term; }
      }
    }
  }

  // Entries of a leader's log, laid over a log that matches it: afterwards the log holds them;
  // it is cut at the first conflict and nowhere else, and kept whole when nothing conflicts.
  lemma MergeHoldsEntries(leader: seq<Entry>, log: seq<Entry>, prev: nat, k: nat)
    requires Matching(leader, log) && AgreeTo(leader, log, prev) && prev <= k <= |leader|
    ensures AgreeTo(leader, Merge(log, prev, leader[prev..k]), k)
    ensures Merge(log, prev, leader[prev..k]) == if AgreeTo(leader, log, k) then log else leader[..k]
  {
    hide Agreeing;
    var entries := leader[prev..k];
    AgreeingMeans(log, prev, entries);
    var j := Agreeing(log, prev, entries);
    if j > 0 {
      assert log[prev + (j - 1)].term == entries[j - 1].term;
      assert leader[prev + j - 1].term == log[prev + j - 1].term;
      assert leader[..prev + j] == log[..prev + j];
    }
    if j < |entries| {
      assert log[..prev + j] + entries[j..] == leader[..k];
    }
  }

  // Delivered twice, a request changes nothing the second time.
  lemma MergeIsIdempotent(log: seq<Entry>, prev: nat, entries: seq<Entry>)
    requires prev <= |log|
    ensures prev <= |Merge(log, prev, entries)|
    ensures Merge(Merge(log, prev, entries), prev, entries) == Merge(log, prev, entries)
  {
    AgreeingMeans(log, prev, entries);
    var merged, j := Merge(log, prev, entries), Agreeing(log, prev, entries);
    AgreeingMeans(merged, prev, entries);
  }

  // Any request of a leader, however old, any piece of its log: what the follower's log has in
  // common with the leader's is never removed, and nothing at all when the logs agree to the end
  // of the request.
  lemma StaleRequestRemovesNothing(leader: seq<Entry>, log: seq<Entry>, prev: nat, k: nat, n: nat)
    requires prev <= |log| && prev <= k <= |leader| && AgreeTo(leader, log, n)
    ensures log[..n] <= Merge(log, prev, leader[prev..k])
    ensures k <= n ==> Merge(log, prev, leader[prev..k]) == log
  {
    var entries := leader[prev..k];
    AgreeingMeans(log, prev, entries);
    assert forall x :: 0 <= x < n ==> log[..n][x] == leader[..n][x];
    assert forall x :: 0 <= x < n ==> log[x] == leader[x];
  }

  // ---------------------------------------------------------------- backtracking

  // A follower takes a request whose previous entry is index prev of the leader's log.
  ghost predicate Taken(leader: seq<Entry>, log: seq<Entry>, prev: nat)
    requires prev <= |leader|
  {
    prev == 0 || (prev <= |log| && TermAt(leader, prev) == TermAt(log, prev))
  }

  lemma TakenMeansAgree(leader: seq<Entry>, log: seq<Entry>, prev: nat)
    requires Matching(leader, log) && prev <= |leader|
    ensures Taken(leader, log, prev) <==> AgreeTo(leader, log, prev)
  {
    if prev > 0 && AgreeTo(leader, log, prev) {
      assert leader[..prev][prev - 1] == log[..prev][prev - 1];
    }
  }

  // A rejection strictly lowers the next index, and not below 1.
  lemma RejectionLowers(leader: seq<Entry>, log: seq<Entry>, next: nat)
    requires 1 <= next <= |leader| + 1 && !Taken(leader, log, next - 1)
    ensures 1 <= SteppedBack(next, |log| + 1) < next
  {
  }

  ghost function Rejections(leader: seq<Entry>, log: seq<Entry>, next: nat): (n: nat)
    requires 1 <= next <= |leader| + 1
    decreases next
  {
    if Taken(leader, log, next - 1) then 0 else 1 + Rejections(leader, log, SteppedBack(next, |log| + 1))
  }

  // The previous index of the first request that is taken.
  ghost function FirstTaken(leader: seq<Entry>, log: seq<Entry>, next: nat): (prev: nat)
    requires 1 <= next <= |leader| + 1
    ensures prev <= |leader|
    decreases next
  {
    if Taken(leader, log, next - 1) then next - 1 else FirstTaken(leader, log, SteppedBack(next, |log| + 1))
  }

  // It is the largest index, below where the leader started, up to which the logs agree.
  lemma {:induction false} FirstTakenIsLargest(leader: seq<Entry>, log: seq<Entry>, next: nat, k: nat)
    requires Matching(leader, log) && 1 <= next <= |leader| + 1
    ensures var prev := FirstTaken(leader, log, next);
            prev < next && AgreeTo(leader, log, prev) && (k < next && AgreeTo(leader, log, k) ==> k <= prev)
    decreases next
  {
    TakenMeansAgree(leader, log, next - 1);
    if !Taken(leader, log, next - 1) {
      var back := SteppedBack(next, |log| + 1);
      FirstTakenIsLargest(leader, log, back, k);
      if back <= k < next && AgreeTo(leader, log, k) {
        TakenMeansAgree(leader, log, k);
      }
    }
  }

  lemma {:induction false} RejectionsBelow(leader: seq<Entry>, log: seq<Entry>, next: nat)
    requires 1 <= next <= |leader| + 1 && next <= |log| + 1
    ensures Rejections(leader, log, next) <= next - 1
    decreases next
  {
    if !Taken(leader, log, next - 1) {
      RejectionsBelow(leader, log, SteppedBack(next, |log| + 1));
    }
  }

  // A new leader starts behind its own log: it is rejected at most once more than the shorter
  // log has entries.
  lemma FewRejections(leader: seq<Entry>, log: seq<Entry>, next: nat)
    requires 1 <= next <= |leader| + 1
    ensures Rejections(leader, log, next) <= (if |leader| < |log| then |leader| else |log|) + 1
  {
    if next <= |log| + 1 {
      RejectionsBelow(leader, log, next);
    } else {
      RejectionsBelow(leader, log, |log| + 1);
    }
  }

  // ---------------------------------------------------------------- rounds of the handlers

  /** A leader, a follower of its term and the request between the two, if one is on its way. */
  datatype Link = Link(s: Server, f: Server, q: Option<Request>)

  // The request to peer j among those a handler sent.
  function SentTo(qs: seq<Request>, j: nat): Option<Request> {
    if qs == [] then None else if qs[0].dst == j then Some(qs[0]) else SentTo(qs[1..], j)
  }

  // The request arrives, the answer comes back, and the leader may have sent again.
  function Round(g: Guards, l: Link): Link
    requires l.q.Some? && l.q.value.dst < |l.s.peers|
  {
    var ans := ProcessReq(g, l.f, l.q.value);
    if ans.resp == None then Link(l.s, ans.out.s, None)
    else
      var out := HandlePeerResp(g, FreePeer(l.s, l.q.value), ans.resp.value);
      Link(out.s, ans.out.s, SentTo(out.sends, l.f.id))
  }

  // A leader with its next indices in range, as RaftTheorems.NoFatalExit has them.
  ghost predicate Leads(s: Server) {
    s.role == Leader && !s.halted && forall j: nat :: KnownPeer(s, j) ==> 1 <= s.peers[j].next <= |s.log| + 1
  }

  // The request is what the leader's next index for peer j calls for.
  ghost predicate Carries(s: Server, j: nat, q: Request) {
    && KnownPeer(s, j) && 1 <= s.peers[j].next <= |s.log| + 1
    && var prev := s.peers[j].next - 1;
    && q.AppendReq? && q.term == s.term && q.src == s.id && q.dst == j
    && q.prevIdx == prev && q.prevTerm == TermAt(s.log, prev)
    && q.entries == s.log[prev..Min(|s.log|, prev + s.maxAppend)]
  }

  ghost predicate InStep(l: Link) {
    && Leads(l.s) && l.f.role == Follower && l.f.term == l.s.term && KnownPeer(l.s, l.f.id)
    && match l.q
       case Some(q) => l.s.peers[l.f.id].busy && q.dst == l.f.id && Carries(l.s, l.f.id, q)
       case None => !l.s.peers[l.f.id].busy && l.s.log <= l.f.log
  }

  ghost predicate SameLeader(s: Server, t: Server) {
    && s.id == t.id && s.term == t.term && s.log == t.log && s.maxAppend == t.maxAppend
    && |s.peers| == |t.peers| && Leads(t)
  }

  // A leader that has just asked a free peer is in step with it.
  lemma FirstRequest(s: Server, f: Server)
    requires Leads(s) && f.role == Follower && f.term == s.term && KnownPeer(s, f.id) && !s.peers[f.id].busy
    ensures var a := RequestAppend(s, f.id);
            InStep(Link(a.s, f, SentTo(a.sends, f.id))) && SameLeader(s, a.s)
            && a.s.peers[f.id].next == s.peers[f.id].next && SentTo(a.sends, f.id).Some?
  {
  }

  lemma {:induction false} SentToConcat(a: seq<Request>, b: seq<Request>, j: nat)
    ensures SentTo(a + b, j) == if SentTo(a, j).Some? then SentTo(a, j) else SentTo(b, j)
    decreases |a|
  {
    if a == [] {
      assert a + b == b;
    } else {
      assert (a + b)[1..] == a[1..] + b;
      SentToConcat(a[1..], b, j);
    }
  }

  // What asking peer x means for peer j.
  lemma Asked(s: Server, x: nat, j: nat)
    requires Leads(s) && KnownPeer(s, x) && KnownPeer(s, j)
    ensures var a := RequestAppend(s, x);
            && SameLeader(s, a.s) && a.s.quickCommit == s.quickCommit && a.s.peers[j].next == s.peers[j].next
            && (x == j && !s.peers[j].busy ==>
                  a.s.peers[j].busy && SentTo(a.sends, j).Some? && Carries(s, j, SentTo(a.sends, j).value))
            && (x != j || s.peers[j].busy ==> SentTo(a.sends, j) == None && a.s.peers[j].busy == s.peers[j].busy)
  {
    hide TermAt, Min;
  }

  lemma CarriedBySame(s: Server, t: Server, j: nat, q: Request)
    requires SameLeader(s, t) && KnownPeer(s, j) && s.peers[j].next == t.peers[j].next && Carries(t, j, q)
    ensures Carries(s, j, q)
  {
  }

  // Telling all peers of a new commit index asks peer j if it is free.
  lemma {:induction false} Told(s: Server, x: nat, j: nat)
    requires Leads(s) && x <= |s.peers| && KnownPeer(s, j)
    ensures var a := NotifyFrom(s, x);
            && SameLeader(s, a.s) && a.s.peers[j].next == s.peers[j].next
            && (x <= j && !s.peers[j].busy ==>
                  a.s.peers[j].busy && SentTo(a.sends, j).Some? && Carries(s, j, SentTo(a.sends, j).value))
            && (x > j || s.peers[j].busy ==> SentTo(a.sends, j) == None && a.s.peers[j].busy == s.peers[j].busy)
    decreases |s.peers| - x
  {
    hide RequestAppend, Carries;
    if x < |s.peers| {
      if x == s.id {
        Told(s, x + 1, j);
      } else if s.peers[x].busy {
        var b := SetPeer(s, x, s.peers[x].(pending := true));
        Told(b, x + 1, j);
        if x + 1 <= j && !s.peers[j].busy {
          CarriedBySame(s, b, j, SentTo(NotifyFrom(b, x + 1).sends, j).value);
        }
      } else {
        Asked(s, x, j);
        var a := RequestAppend(s, x);
        Told(a.s, x + 1, j);
        SentToConcat(a.sends, NotifyFrom(a.s, x + 1).sends, j);
        if x + 1 <= j && !s.peers[j].busy {
          CarriedBySame(s, a.s, j, SentTo(NotifyFrom(a.s, x + 1).sends, j).value);
        }
      }
    }
  }

  // An answer to a peer that is free again: the leader goes on at the next index it calls for, and
  // asks again unless everything was taken.
  ghost predicate GoesOn(s: Server, j: nat, next: nat, out: Out) {
    && SameLeader(s, out.s) && KnownPeer(out.s, j) && out.s.peers[j].next == next
    && match SentTo(out.sends, j)
       case Some(q) => out.s.peers[j].busy && q.dst == j && Carries(out.s, j, q)
       case None => !out.s.peers[j].busy && next == |s.log| + 1
  }

  lemma AfterAcceptance(g: Guards, s: Server, resp: Response)
    requires Leads(s) && KnownPeer(s, resp.src) && !s.peers[resp.src].busy
    requires resp.AppendResp? && resp.accepted && resp.term == s.term && 1 <= resp.next <= |s.log| + 1
    ensures GoesOn(s, resp.src, resp.next, HandlePeerResp(g, s, resp))
  {
    hide NotifyFrom, RequestAppend, MedianOf, Matches, Carries;
    var j := resp.src;
    var s0 := SetPeer(s, j, s.peers[j].(next := resp.next, matched := Dec(resp.next)));
    var m := MedianOf(Matches(s0));
    Told(s0.(quickCommit := m), 0, j);
    var a := NotePeerMatch(g, s, resp);
    var p := a.s.peers[j];
    var s1 := SetPeer(a.s, j, p.(pending := false));
    Asked(s1, j, j);
    var b := RequestAppend(s1, j);
    SentToConcat(a.sends, b.sends, j);
    var out := HandlePeerResp(g, s, resp);
    if SentTo(a.sends, j).Some? {
      CarriedBySame(out.s, s0.(quickCommit := m), j, SentTo(a.sends, j).value);
    } else if SentTo(out.sends, j).Some? {
      CarriedBySame(out.s, s1, j, SentTo(b.sends, j).value);
    }
  }

  lemma AfterRejection(g: Guards, s: Server, resp: Response)
    requires Leads(s) && KnownPeer(s, resp.src) && !s.peers[resp.src].busy
    requires resp.AppendResp? && !resp.accepted && resp.term == s.term
    requires 1 <= SteppedBack(s.peers[resp.src].next, resp.next) <= |s.log| + 1
    ensures var next := SteppedBack(s.peers[resp.src].next, resp.next);
            var out := HandlePeerResp(g, s, resp);
            GoesOn(s, resp.src, next, out) && SentTo(out.sends, resp.src).Some?
  {
    var j := resp.src;
    Asked(SetPeer(s, j, s.peers[j].(next := SteppedBack(s.peers[j].next, resp.next))), j, j);
  }

  predicate Rejected(g: Guards, l: Link)
    requires l.q.Some?
  {
    var ans := ProcessReq(g, l.f, l.q.value);
    ans.resp.Some? && !ans.resp.value.accepted
  }

  lemma CarriedRequest(s: Server, f: Server, req: Request)
    requires Carries(s, f.id, req)
    ensures req.AppendReq? && req.dst == f.id && req.src == s.id && req.term == s.term
    ensures var prev := s.peers[f.id].next - 1;
            var k := Min(|s.log|, prev + s.maxAppend);
            && prev <= k <= |s.log| && req.prevIdx == prev && req.entries == s.log[prev..k]
            && LogOkay(f, req) == Taken(s.log, f.log, prev)
  {
  }

  // How a follower of the leader's term answers what the leader's next index calls for.
  lemma FollowerAnswers(g: Guards, s: Server, f: Server, req: Request) returns (ans: Answer)
    requires f.role == Follower && s.term == f.term && Carries(s, f.id, req)
    ensures ans == ProcessReq(g, f, req) && req.AppendReq? && req.dst == f.id
    ensures var prev := s.peers[f.id].next - 1;
            var k := Min(|s.log|, prev + s.maxAppend);
            var taken := Taken(s.log, f.log, prev);
            && ans.resp == Some(AppendResp(f.term, f.id, s.id, if taken then k + 1 else |f.log| + 1, taken))
            && ans.out.s.log == if taken then Merge(f.log, prev, s.log[prev..k]) else f.log
    ensures ans.out.s.id == f.id && ans.out.s.role == Follower && ans.out.s.term == f.term
  {
    hide Merge, Agreeing, NotifyFrom, CommitTarget, HandleVoteReq, Carries, LogOkay, Taken, Min;
    CarriedRequest(s, f, req);
    CarriedRequest(s, f.(timerOn := true), req);
    ans := ProcessReq(g, f, req);
  }

  lemma TakenRound(g: Guards, l: Link)
    requires InStep(l) && l.q.Some? && Matching(l.s.log, l.f.log)
    requires Taken(l.s.log, l.f.log, l.s.peers[l.f.id].next - 1)
    ensures var next, r := l.s.peers[l.f.id].next, Round(g, l);
            var k := Min(|l.s.log|, next - 1 + l.s.maxAppend);
            && InStep(r) && SameLeader(l.s, r.s) && r.f.id == l.f.id && !Rejected(g, l)
            && r.f.log == (if AgreeTo(l.s.log, l.f.log, k) then l.f.log else l.s.log[..k])
            && r.s.peers[r.f.id].next == k + 1
  {
    hide HandlePeerResp, ProcessReq, Merge, Matching, Carries;
    var q, next := l.q.value, l.s.peers[l.f.id].next;
    var ans := FollowerAnswers(g, l.s, l.f, q);
    TakenMeansAgree(l.s.log, l.f.log, next - 1);
    MergeHoldsEntries(l.s.log, l.f.log, next - 1, Min(|l.s.log|, next - 1 + l.s.maxAppend));
    AfterAcceptance(g, FreePeer(l.s, q), ans.resp.value);
  }

  lemma RejectedRound(g: Guards, l: Link)
    requires InStep(l) && l.q.Some?
    requires !Taken(l.s.log, l.f.log, l.s.peers[l.f.id].next - 1)
    ensures var next, r := l.s.peers[l.f.id].next, Round(g, l);
            && InStep(r) && SameLeader(l.s, r.s) && r.f.id == l.f.id && Rejected(g, l)
            && r.f.log == l.f.log && r.q.Some? && r.s.peers[r.f.id].next == SteppedBack(next, |l.f.log| + 1)
  {
    hide HandlePeerResp, ProcessReq, Merge, Carries;
    var q, next := l.q.value, l.s.peers[l.f.id].next;
    var ans := FollowerAnswers(g, l.s, l.f, q);
    RejectionLowers(l.s.log, l.f.log, next);
    AfterRejection(g, FreePeer(l.s, q), ans.resp.value);
  }

  // One round of the handlers: the request is taken exactly when Taken says so; then the follower's
  // log is cut or extended to what the request reaches, unless it agrees so far already, and the
  // leader goes on behind it; else the follower's log stays and the leader steps back.
  lemma OneRound(g: Guards, l: Link)
    requires InStep(l) && l.q.Some? && Matching(l.s.log, l.f.log)
    ensures var next, r := l.s.peers[l.f.id].next, Round(g, l);
            var k := Min(|l.s.log|, next - 1 + l.s.maxAppend);
            && InStep(r) && SameLeader(l.s, r.s) && r.f.id == l.f.id && Matching(r.s.log, r.f.log)
            && Rejected(g, l) == !Taken(l.s.log, l.f.log, next - 1)
            && (!Rejected(g, l) ==>
                  && r.f.log == (if AgreeTo(l.s.log, l.f.log, k) then l.f.log else l.s.log[..k])
                  && r.s.peers[r.f.id].next == k + 1)
            && (Rejected(g, l) ==>
                  && r.f.log == l.f.log && r.q.Some?
                  && r.s.peers[r.f.id].next == SteppedBack(next, |l.f.log| + 1))
  {
    hide Round, Rejected, Carries;
    if Taken(l.s.log, l.f.log, l.s.peers[l.f.id].next - 1) {
      TakenRound(g, l);
    } else {
      RejectedRound(g, l);
    }
  }

  // What follows when round follows round, n times or until nothing is left to send.
  ghost function Rounds(g: Guards, l: Link, n: nat): (r: Link)
    requires InStep(l) && Matching(l.s.log, l.f.log)
    ensures InStep(r) && SameLeader(l.s, r.s) && Matching(r.s.log, r.f.log)
    decreases n
  {
    if n == 0 || l.q == None then l
    else
      OneRound(g, l);
      Rounds(g, Round(g, l), n - 1)
  }

  ghost function Refusals(g: Guards, l: Link, n: nat): nat
    requires InStep(l) && Matching(l.s.log, l.f.log)
    decreases n
  {
    if n == 0 || l.q == None then 0
    else
      OneRound(g, l);
      (if Rejected(g, l) then 1 else 0) + Refusals(g, Round(g, l), n - 1)
  }

  // However long the exchange goes on, the leader is refused at most min of the two lengths + 1 times.
  lemma {:induction false} FewRefusals(g: Guards, l: Link, n: nat)
    requires InStep(l) && Matching(l.s.log, l.f.log)
    ensures Refusals(g, l, n) <= Rejections(l.s.log, l.f.log, l.s.peers[l.f.id].next)
    ensures Refusals(g, l, n) <= (if |l.s.log| < |l.f.log| then |l.s.log| else |l.f.log|) + 1
    decreases n
  {
    hide Round, Rejected, Carries, Matching;
    FewRejections(l.s.log, l.f.log, l.s.peers[l.f.id].next);
    if n > 0 && l.q.Some? {
      OneRound(g, l);
      FewRefusals(g, Round(g, l), n - 1);
      if !Rejected(g, l) {
        TakenNext(g, l);
      }
    }
  }

  // Behind entries that it took, a follower takes the next ones as well.
  lemma TakenNext(g: Guards, l: Link)
    requires InStep(l) && l.q.Some? && Matching(l.s.log, l.f.log) && !Rejected(g, l)
    ensures var r := Round(g, l);
            InStep(r) && Taken(r.s.log, r.f.log, r.s.peers[r.f.id].next - 1)
  {
    hide Round, Rejected, Carries, Matching;
    OneRound(g, l);
    var r := Round(g, l);
    var k := r.s.peers[r.f.id].next - 1;
    assert AgreeTo(l.s.log, r.f.log, k);
    TakenMeansAgree(r.s.log, r.f.log, k);
  }

  // What a round leaves of the follower's log does not change what the exchange is to reach.
  lemma SameGoal(leader: seq<Entry>, log: seq<Entry>, k: nat)
    requires k <= |leader|
    ensures var log' := if AgreeTo(leader, log, k) then log else leader[..k];
            (if leader <= log' then log' else leader) == if leader <= log then log else leader
  {
  }

  // Enough rounds, and no more than the lengths of the logs call for, leave the follower with the
  // leader's log, or with its own if that already began with the leader's.
  lemma {:induction false} RoundsBringLeaderLog(g: Guards, l: Link, n: nat)
    requires InStep(l) && Matching(l.s.log, l.f.log) && l.s.maxAppend >= 1
    requires var next := l.s.peers[l.f.id].next;
             n >= Rejections(l.s.log, l.f.log, next) + |l.s.log| - FirstTaken(l.s.log, l.f.log, next)
    ensures Rounds(g, l, n).f.log == if l.s.log <= l.f.log then l.f.log else l.s.log
    decreases n
  {
    hide Round, Rejected, Carries, Matching, SteppedBack, AgreeTo, Taken;
    var next := l.s.peers[l.f.id].next;
    FirstTakenIsLargest(l.s.log, l.f.log, next, 0);
    if n > 0 && l.q.Some? {
      OneRound(g, l);
      if !Rejected(g, l) {
        TakenNext(g, l);
        SameGoal(l.s.log, l.f.log, Min(|l.s.log|, next - 1 + l.s.maxAppend));
      }
      RoundsBringLeaderLog(g, Round(g, l), n - 1);
    }
  }

  // A leader that may send no entries leaves the follower's log as it is, however long it goes on.
  lemma {:induction false} NothingSent(g: Guards, l: Link, n: nat)
    requires InStep(l) && Matching(l.s.log, l.f.log) && l.s.maxAppend == 0
    ensures Rounds(g, l, n).f.log == l.f.log
    decreases n
  {
    hide Round, Rejected, Carries, Matching, SteppedBack;
    if n > 0 && l.q.Some? {
      OneRound(g, l);
      TakenMeansAgree(l.s.log, l.f.log, l.s.peers[l.f.id].next - 1);
      NothingSent(g, Round(g, l), n - 1);
    }
  }

  // So the exchange serves its purpose exactly when entries may be sent at all.
  lemma FollowerCatchesUp(g: Guards, l: Link, n: nat)
    requires InStep(l) && Matching(l.s.log, l.f.log)
    requires n >= (if |l.s.log| < |l.f.log| then |l.s.log| else |l.f.log|) + 1 + |l.s.log|
    ensures l.s.log <= Rounds(g, l, n).f.log <==> l.s.maxAppend >= 1 || l.s.log <= l.f.log
    ensures l.s.maxAppend >= 1 ==>
              Rounds(g, l, n).f.log == if l.s.log <= l.f.log then l.f.log else l.s.log
  {
    if l.s.maxAppend >= 1 {
      FewRejections(l.s.log, l.f.log, l.s.peers[l.f.id].next);
      RoundsBringLeaderLog(g, l, n);
    } else {
      NothingSent(g, l, n);
    }
  }
}
