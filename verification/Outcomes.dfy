/** What the handlers bring about, in terms of a server's fields and of what it sends, for any state
    of a server and any number of peers. */
module Outcomes {
  import opened RaftTypes
  import opened Median
  import opened ServerSpec
  import opened Replication

  // ---------------------------------------------------------------- stepping down

  // Nothing is left of a candidacy or an office in an earlier term; a restart finds the new term,
  // without a vote, and the commit index.
  ghost predicate Deposed(s: Server, r: Server, t: nat) {
    && r.role == Follower && r.timerOn && r.term == t && r.votedFor == None
    && r.granted == 0 && r.responded == 0 && !r.electionDone
    && Restart(r).term == t && Restart(r).votedFor == None && Restart(r).commitIdx == s.commitIdx
    && r.log == s.log && r.commitIdx == s.commitIdx && r.quickCommit == s.quickCommit
    && r.delivered == s.delivered && r.peers == s.peers && r.configIdx == s.configIdx && r.halted == s.halted
  }

  // A response of a higher term, of either kind, ends a server's term and nothing else happens.
  lemma HigherTermDeposes(g: Guards, s: Server, resp: Response)
    requires resp.term > s.term
    ensures var out := HandlePeerResp(g, s, resp); out.sends == [] && Deposed(s, out.s, resp.term)
  {
  }

  // ---------------------------------------------------------------- client entries

  // A leader appends a client's entries in the client's order; any other server does nothing.
  lemma ClientAppends(g: Guards, s: Server, payloads: seq<int>)
    ensures var out := HandleClientReq(g, s, payloads);
            var n, t := |s.log|, if g.stampClient then s.term else 0;
            if s.role == Leader then
              && |out.s.log| == n + |payloads| && out.s.log[..n] == s.log
              && (forall i :: 0 <= i < |payloads| ==> out.s.log[n + i] == Entry(t, App(payloads[i])))
              && out.s.role == Leader && out.s.term == s.term && out.s.commitIdx == s.commitIdx
            else out == Out(s, [])
  {
    hide RequestAppendAll;
    if s.role == Leader {
      AllOnlySends(s.(log := s.log + Stamped(if g.stampClient then s.term else CLIENT_TERM, payloads)));
    }
  }

  // A request that carries at most as many entries as may be sent, from one behind start on.
  ghost predicate StartsBehind(s: Server, j: nat, start: nat, q: Request) {
    && start <= |s.log| && q.AppendReq? && q.dst == j && q.src == s.id && q.term == s.term && q.commit == s.quickCommit
    && q.prevIdx == start && q.prevTerm == (if start == 0 then 0 else s.log[start - 1].term)
    && |q.entries| == (if |s.log| - start < s.maxAppend then |s.log| - start else s.maxAppend)
    && forall x :: 0 <= x < |q.entries| ==> q.entries[x] == s.log[start + x]
  }

  // Asking one peer: a busy one is left alone; a free one is sent what lies behind its next index, or
  // behind the end of the log if it has none; a next index past the end is fatal.
  lemma AskingOne(s: Server, j: nat)
    requires j < |s.peers|
    ensures var out := RequestAppend(s, j);
            var start := if s.peers[j].next == 0 then |s.log| else s.peers[j].next - 1;
            if s.peers[j].busy then out == Out(s, [])
            else if start > |s.log| then out.s.halted && out.sends == []
            else
              && out.s == s.(peers := s.peers[j := s.peers[j].(next := start + 1, busy := true)])
              && |out.sends| == 1 && StartsBehind(s, j, start, out.sends[0])
  {
    var start := if s.peers[j].next == 0 then |s.log| else s.peers[j].next - 1;
    if !s.peers[j].busy && start <= |s.log| {
      var entries := s.log[start..Min(|s.log|, start + s.maxAppend)];
      Slice(s.log, start, Min(|s.log|, start + s.maxAppend));
      var q := AppendReq(s.term, s.id, j, TermAt(s.log, start), start, s.quickCommit, entries);
      assert StartsBehind(s, j, start, q);
      hide StartsBehind;
      assert RequestAppend(s, j).sends == [q];
    }
  }

  lemma Slice(log: seq<Entry>, a: nat, b: nat)
    requires a <= b <= |log|
    ensures |log[a..b]| == b - a && forall x :: 0 <= x < b - a ==> log[a..b][x] == log[a + x]
  {
  }

  // A leader asks everyone: each other server is busy afterwards, and each that was free was sent
  // the request its next index calls for.
  ghost predicate AskedAll(s: Server, out: Out) {
    && SameLeader(s, out.s)
    && forall j: nat :: KnownPeer(s, j) ==>
         && out.s.peers[j].busy && out.s.peers[j].next == s.peers[j].next
         && (!s.peers[j].busy ==> SentTo(out.sends, j).Some? && Carries(s, j, SentTo(out.sends, j).value))
         && (s.peers[j].busy ==> SentTo(out.sends, j) == None)
  }

  lemma {:induction false} AskedFrom(s: Server, x: nat, j: nat)
    requires Leads(s) && x <= |s.peers| && KnownPeer(s, j)
    ensures var a := RequestAppendFrom(s, x);
            && SameLeader(s, a.s) && a.s.peers[j].next == s.peers[j].next
            && (x <= j && !s.peers[j].busy ==>
                  a.s.peers[j].busy && SentTo(a.sends, j).Some? && Carries(s, j, SentTo(a.sends, j).value))
            && (x > j || s.peers[j].busy ==> SentTo(a.sends, j) == None && a.s.peers[j].busy == s.peers[j].busy)
    decreases |s.peers| - x
  {
    hide RequestAppend, Carries;
    if x < |s.peers| {
      if x == s.id {
        AskedFrom(s, x + 1, j);
      } else {
        Asked(s, x, j);
        var a := RequestAppend(s, x);
        AskedFrom(a.s, x + 1, j);
        SentToConcat(a.sends, RequestAppendFrom(a.s, x + 1).sends, j);
        if x + 1 <= j && !s.peers[j].busy {
          CarriedBySame(s, a.s, j, SentTo(RequestAppendFrom(a.s, x + 1).sends, j).value);
        }
      }
    }
  }

  lemma AsksAll(s: Server)
    requires Leads(s) && |s.peers| > 1
    ensures AskedAll(s, RequestAppendAll(s))
  {
    hide RequestAppendFrom, Carries, SameLeader;
    var out := RequestAppendFrom(s, 0);
    forall j: nat | KnownPeer(s, j)
      ensures && out.s.peers[j].busy && out.s.peers[j].next == s.peers[j].next
              && (!s.peers[j].busy ==> SentTo(out.sends, j).Some? && Carries(s, j, SentTo(out.sends, j).value))
              && (s.peers[j].busy ==> SentTo(out.sends, j) == None) {
      AskedFrom(s, 0, j);
      PeersStay(s, out.s);
    }
    var p := if s.id == 0 then 1 else 0;
    AskedFrom(s, 0, p);
  }

  lemma PeersStay(s: Server, r: Server)
    requires SameLeader(s, r)
    ensures |s.peers| == |r.peers|
  {
  }

  // The client's entries do not wait for a heartbeat.
  lemma ClientEntriesGoOut(g: Guards, s: Server, payloads: seq<int>)
    requires Leads(s) && |s.peers| > 1
    ensures var out := HandleClientReq(g, s, payloads); AskedAll(s.(log := out.s.log), out)
  {
    hide RequestAppendAll;
    ClientAppends(g, s, payloads);
    var t := if g.stampClient then s.term else CLIENT_TERM;
    AsksAll(s.(log := s.log + Stamped(t, payloads)));
    assert HandleClientReq(g, s, payloads).s.log == s.log + Stamped(t, payloads);
  }

  // A winner's log and first requests: to everyone, from the end of its log as a candidate.
  lemma OfficeBegins(g: Guards, s: Server)
    requires !s.halted && |s.peers| > 1
    ensures var out := BecomeLeader(g, s);
            var n := |s.log|;
            && out.s.role == Leader && out.s.leader == Some(s.id) && !out.s.timerOn && out.s.term == s.term
            && out.s.log == (if s.configIdx == 0 then s.log + [Entry(s.term, Conf(n + 1))] else s.log)
            && out.s.configIdx == (if s.configIdx == 0 then n + 1 else s.configIdx) && |out.s.peers| == |s.peers|
            && (forall j: nat :: KnownPeer(s, j) ==> Welcomed(g, s, out, j))
  {
    hide RequestAppendAll, Carries;
    var t := TakeOffice(g, s);
    AsksAll(t);
    AllOnlySends(t);
    forall j: nat | KnownPeer(s, j) ensures Welcomed(g, s, BecomeLeader(g, s), j) {
      FirstOf(g, s, j);
    }
  }

  // A winner's peer: free whatever it was before, and asked at once.
  ghost predicate Welcomed(g: Guards, s: Server, out: Out, j: nat)
    requires KnownPeer(s, j) && |out.s.peers| == |s.peers|
  {
    && out.s.peers[j].busy && out.s.peers[j].next == |s.log| + 1
    && out.s.peers[j].matched == (if g.resetMatched then 0 else s.peers[j].matched)
    && SentTo(out.sends, j).Some? && Carries(out.s, j, SentTo(out.sends, j).value)
  }

  lemma FirstOf(g: Guards, s: Server, j: nat)
    requires !s.halted && |s.peers| > 1 && KnownPeer(s, j)
    ensures var out := BecomeLeader(g, s); |out.s.peers| == |s.peers| && Welcomed(g, s, out, j)
  {
    hide RequestAppendFrom, Carries;
    var t := TakeOffice(g, s);
    assert KnownPeer(t, j) && Leads(t);
    AskedFrom(t, 0, j);
    MatchedStays(t, 0, j);
    var out := RequestAppendFrom(t, 0);
    CarriedBySame(out.s, t, j, SentTo(out.sends, j).value);
  }

  // Asking never touches a matched index.
  lemma {:induction false} MatchedStays(s: Server, x: nat, j: nat)
    requires x <= |s.peers| && j < |s.peers|
    ensures RequestAppendFrom(s, x).s.peers[j].matched == s.peers[j].matched
    decreases |s.peers| - x
  {
    hide RequestAppend;
    if x < |s.peers| {
      AskKeepsMatched(s, x, j);
      MatchedStays(s, x + 1, j);
      MatchedStays(RequestAppend(s, x).s, x + 1, j);
    }
  }

  lemma AskKeepsMatched(s: Server, x: nat, j: nat)
    requires x < |s.peers| && j < |s.peers|
    ensures var r := RequestAppend(s, x).s; |r.peers| == |s.peers| && r.peers[j].matched == s.peers[j].matched
  {
  }

  // ---------------------------------------------------------------- requests to append

  // What a merge leaves, for any log and any entries: the log up to them, their terms where they
  // lie; and if anything changed, the log ends with them, from the first differing term on.
  lemma MergeLays(log: seq<Entry>, prev: nat, entries: seq<Entry>)
    requires prev <= |log|
    ensures var r := Merge(log, prev, entries);
            && prev + |entries| <= |r| && r[..prev] == log[..prev]
            && (forall x :: 0 <= x < |entries| ==> r[prev + x].term == entries[x].term)
            && (forall x :: 0 <= x < |entries| ==>
                  r[prev + x] == entries[x] || (prev + x < |log| && r[prev + x] == log[prev + x]))
            && (r == log || |r| == prev + |entries|)
            && (r == log <==> prev + |entries| <= |log| &&
                              forall x :: 0 <= x < |entries| ==> log[prev + x].term == entries[x].term)
  {
    hide Agreeing, Merge;
    AgreeingMeans(log, prev, entries);
    var j, r := Agreeing(log, prev, entries), Merge(log, prev, entries);
    if j < |entries| {
      CutAt(log, prev, entries, j);
      assert r[..prev] == log[..prev];
      assert prev + j < |log| ==> log[prev + j].term != entries[j].term;
    } else {
      NothingCut(log, prev, entries);
    }
  }

  lemma CutAt(log: seq<Entry>, prev: nat, entries: seq<Entry>, j: nat)
    requires j == Agreeing(log, prev, entries) < |entries| && prev + j <= |log|
    ensures var r := Merge(log, prev, entries);
            && |r| == prev + |entries| && r[..prev + j] == log[..prev + j]
            && (forall x :: j <= x < |entries| ==> r[prev + x] == entries[x])
            && (forall x :: 0 <= x < prev + j ==> r[x] == log[x])
  {
    hide Agreeing;
  }

  lemma NothingCut(log: seq<Entry>, prev: nat, entries: seq<Entry>)
    requires prev <= |log| && Agreeing(log, prev, entries) == |entries|
    ensures Merge(log, prev, entries) == log
  {
  }

  // The previous entry of a request is in the log, or there is none.
  ghost predicate HoldsPrevious(log: seq<Entry>, req: Request)
    requires req.AppendReq?
  {
    req.prevIdx == 0 || (req.prevIdx <= |log| && log[req.prevIdx - 1].term == req.prevTerm)
  }

  // A request to append, unless its receiver leads that term: it is taken exactly when it is not of
  // an earlier term and the log holds its previous entry; one that is not of an earlier term makes
  // a follower of its term, with a fresh timer, in any case.
  lemma AppendAnswered(g: Guards, s: Server, req: Request)
    requires req.AppendReq? && !(req.term == s.term && s.role == Leader)
    ensures var ans := ProcessReq(g, s, req);
            var r := ans.out.s;
            var taken := req.term >= s.term && HoldsPrevious(s.log, req);
            && ans.resp == Some(AppendResp(r.term, s.id, req.src,
                                           if taken then req.prevIdx + |req.entries| + 1 else |s.log| + 1, taken))
            && ans.out.sends == [] && r.term == (if req.term > s.term then req.term else s.term)
            && (req.term < s.term ==> r == s)
            && (req.term >= s.term ==> r.role == Follower && r.timerOn)
            && (!taken ==> r.log == s.log && r.leader == s.leader && r.quickCommit == s.quickCommit)
            && (taken ==>
                  && req.prevIdx <= |s.log| && r.log == Merge(s.log, req.prevIdx, req.entries)
                  && r.leader == Some(req.src))
  {
    hide Merge, NotifyFrom;
    var s0 := UpdateTerm(s, req.term);
    assert LogOkay(s0, req) == HoldsPrevious(s.log, req);
  }

  // How far a taken request moves the commit index.
  lemma CommitFollows(g: Guards, s: Server, req: Request)
    requires req.AppendReq? && !(req.term == s.term && s.role == Leader)
    requires req.term >= s.term && HoldsPrevious(s.log, req)
    ensures var r := ProcessReq(g, s, req).out.s;
            var end := req.prevIdx + |req.entries|;
            var target := if g.clampCommit && end < req.commit then end else req.commit;
            r.quickCommit == if target > s.quickCommit then target else s.quickCommit
  {
    hide Merge, NotifyFrom;
    var s0 := UpdateTerm(s, req.term);
    assert LogOkay(s0, req) == HoldsPrevious(s.log, req);
  }

  // Two leaders of one term cannot both go on.
  lemma LeaderMeetsLeader(g: Guards, s: Server, req: Request)
    requires req.AppendReq? && req.term == s.term && s.role == Leader
    ensures var ans := ProcessReq(g, s, req); ans.resp == None && ans.out == Out(s.(halted := true), [])
  {
  }

  // ---------------------------------------------------------------- commit by counting

  // The servers known to hold the log up to v once a response was noted: the leader itself, the
  // peer that answered, and those with a matched index as high.
  ghost function Holding(s: Server, resp: Response, v: nat): set<nat> {
    set j: nat | j < |s.peers| &&
      v <= if j == s.id then |s.log| else if j == resp.src then Dec(resp.next) else s.peers[j].matched
  }

  // The greatest index that a strict majority is known to hold.
  ghost predicate IsTop(s: Server, resp: Response, m: nat) {
    2 * |Holding(s, resp, m)| > |s.peers| && 2 * |Holding(s, resp, m + 1)| <= |s.peers|
  }

  // The indices that the median is taken of.
  function Noted(s: Server, resp: Response): (ms: seq<nat>)
    requires resp.src < |s.peers|
    ensures |ms| == |s.peers|
  {
    Matches(SetPeer(s, resp.src, s.peers[resp.src].(next := resp.next, matched := Dec(resp.next))))
  }

  lemma HoldingCounts(s: Server, resp: Response, v: nat)
    requires KnownPeer(s, resp.src)
    ensures 2 * |Holding(s, resp, v)| > |s.peers| <==> MedianOf(Noted(s, resp)) >= v
  {
    var ms := Noted(s, resp);
    assert HoldersOf(ms, v) == Holding(s, resp, v);
    HoldersCount(ms, v);
    MedianIsMajority(ms, v);
  }

  // There is such an index, whatever the peers hold.
  lemma TopExists(s: Server, resp: Response) returns (m: nat)
    requires KnownPeer(s, resp.src)
    ensures IsTop(s, resp, m)
  {
    m := MedianOf(Noted(s, resp));
    HoldingCounts(s, resp, m);
    HoldingCounts(s, resp, m + 1);
  }

  lemma TopIsMedian(s: Server, resp: Response, m: nat)
    requires KnownPeer(s, resp.src) && IsTop(s, resp, m)
    ensures MedianOf(Noted(s, resp)) == m
  {
    HoldingCounts(s, resp, m);
    HoldingCounts(s, resp, m + 1);
  }

  // An acceptance that is handled moves the commit index to the greatest index that a strict majority
  // of the cluster, of any size, is known to hold, unless that is no higher or, in the guarded code,
  // the entry there is of another term; and it moves it nowhere else.
  lemma MajorityCommits(g: Guards, s: Server, resp: Response, m: nat)
    requires KnownPeer(s, resp.src) && resp.AppendResp? && resp.accepted && resp.term == s.term && IsTop(s, resp, m)
    ensures var r := HandlePeerResp(g, s, resp).s;
            var allowed := !g.ownTerm || (m == 0 && s.term == 0) || (0 < m <= |s.log| && s.log[m - 1].term == s.term);
            r.quickCommit == if allowed && m > s.quickCommit then m else s.quickCommit
  {
    hide NotifyFrom, RequestAppend, MedianOf, Matches;
    TopIsMedian(s, resp, m);
    var s1 := SetPeer(s, resp.src, s.peers[resp.src].(next := resp.next, matched := Dec(resp.next)));
    CommitOnlySends(s1, m);
    var a := NotePeerMatch(g, s, resp);
    LoopsOnlySend(s1.(quickCommit := m), 0);
    if !a.s.halted {
      OneOnlySends(SetPeer(a.s, resp.src, a.s.peers[resp.src].(pending := false)), resp.src);
    }
  }

  // So whatever a strict majority holds is committed once the entry at its end is of the leader's term.
  lemma MajorityReaches(g: Guards, s: Server, resp: Response, v: nat, m: nat)
    requires KnownPeer(s, resp.src) && resp.AppendResp? && resp.accepted && resp.term == s.term
    requires 2 * |Holding(s, resp, v)| > |s.peers| && IsTop(s, resp, m)
    requires g.ownTerm ==> 0 < m <= |s.log| && s.log[m - 1].term == s.term
    ensures HandlePeerResp(g, s, resp).s.quickCommit >= v
  {
    hide HandlePeerResp;
    MajorityCommits(g, s, resp, m);
    HoldingCounts(s, resp, v);
    TopIsMedian(s, resp, m);
  }

  lemma {:induction false} TellingKeepsMatched(s: Server, x: nat, j: nat)
    requires x <= |s.peers| && j < |s.peers|
    ensures NotifyFrom(s, x).s.peers[j].matched == s.peers[j].matched
    decreases |s.peers| - x
  {
    hide RequestAppend;
    if x < |s.peers| {
      AskKeepsMatched(s, x, j);
      TellingKeepsMatched(s, x + 1, j);
      TellingKeepsMatched(SetPeer(s, x, s.peers[x].(pending := true)), x + 1, j);
      TellingKeepsMatched(RequestAppend(s, x).s, x + 1, j);
    }
  }

  lemma NotingMoves(g: Guards, s: Server, resp: Response, x: nat)
    requires KnownPeer(s, resp.src) && x < |s.peers|
    ensures var r := NotePeerMatch(g, s, resp).s;
            && |r.peers| == |s.peers| && r.quickCommit >= s.quickCommit
            && r.peers[x].matched == if x == resp.src then Dec(resp.next) else s.peers[x].matched
  {
    hide NotifyFrom, MedianOf, Matches;
    var s1 := SetPeer(s, resp.src, s.peers[resp.src].(next := resp.next, matched := Dec(resp.next)));
    var m := MedianOf(Matches(s1));
    TellingKeepsMatched(s1.(quickCommit := m), 0, x);
    LoopsOnlySend(s1.(quickCommit := m), 0);
  }

  // A response moves the matched index of the peer that sent it, to where its log was accepted, and no
  // other; a rejection moves none. Neither lowers the commit index.
  lemma MatchedMoves(g: Guards, s: Server, resp: Response, x: nat)
    requires KnownPeer(s, resp.src) && resp.AppendResp? && resp.term == s.term && x < |s.peers|
    ensures var r := HandlePeerResp(g, s, resp).s;
            && |r.peers| == |s.peers| && r.quickCommit >= s.quickCommit
            && r.peers[x].matched == if resp.accepted && x == resp.src then Dec(resp.next) else s.peers[x].matched
  {
    hide RequestAppend, NotePeerMatch;
    var s1: Server;
    if resp.accepted {
      NotingMoves(g, s, resp, x);
      var a := NotePeerMatch(g, s, resp);
      s1 := SetPeer(a.s, resp.src, a.s.peers[resp.src].(pending := false));
    } else {
      var p := s.peers[resp.src];
      s1 := SetPeer(s, resp.src, p.(next := SteppedBack(p.next, resp.next)));
    }
    OneOnlySends(s1, resp.src);
    AskKeepsMatched(s1, resp.src, x);
  }

  // ---------------------------------------------------------------- applying, restarting

  // The commit index reaches the disk exactly when nothing more can be applied.
  lemma SavedWhenCaughtUp(s: Server)
    requires CanApply(s) && s.savedCommit <= s.commitIdx
    ensures var r := ApplyNext(s);
            && (r.savedCommit == r.commitIdx <==> !(r.commitIdx < r.quickCommit && r.commitIdx < |r.log|))
            && (r.savedCommit != r.commitIdx ==> r.savedCommit == s.savedCommit)
  {
  }

  // What a server delivered between two states, each entry of its log in turn.
  ghost predicate DeliveredOn(s: Server, r: Server) {
    && r.log == s.log && s.commitIdx <= r.commitIdx <= |s.log|
    && |r.delivered| == |s.delivered| + r.commitIdx - s.commitIdx
    && (forall x :: 0 <= x < |s.delivered| ==> r.delivered[x] == s.delivered[x])
    && (forall x :: |s.delivered| <= x < |r.delivered| ==>
          var idx := s.commitIdx + 1 + x - |s.delivered|; r.delivered[x] == Delivery(idx, s.log[idx - 1]))
  }

  lemma NothingDelivered(s: Server)
    requires s.commitIdx <= |s.log|
    ensures DeliveredOn(s, s)
  {
  }

  lemma DeliveredThen(s: Server, r: Server, t: Server)
    requires s.commitIdx < |s.log| && r.log == s.log && r.commitIdx == s.commitIdx + 1
    requires r.delivered == s.delivered + [Delivery(s.commitIdx + 1, s.log[s.commitIdx])]
    requires DeliveredOn(r, t)
    ensures DeliveredOn(s, t)
  {
    assert t.delivered[|s.delivered|] == r.delivered[|s.delivered|];
    assert forall x :: 0 <= x < |s.delivered| ==> t.delivered[x] == r.delivered[x];
  }

  // A restart depends on what is on disk and on nothing else: two servers that differ only in what a
  // process keeps in memory come back the same.
  lemma RestartReadsDisk(s: Server, t: Server)
    requires s.id == t.id && s.maxAppend == t.maxAppend && |s.peers| == |t.peers|
    requires s.term == t.term && s.votedFor == t.votedFor && s.log == t.log
    requires s.savedCommit == t.savedCommit && s.savedConfigIdx == t.savedConfigIdx
    requires s.epoch == t.epoch && s.delivered == t.delivered
    ensures Restart(s) == Restart(t)
  {
    assert Restart(s).peers == Restart(t).peers;
  }

  // A restarted server follows, with its term, vote and log, and has nothing to apply that it does
  // not hear of; with a configuration on disk it adds none when it is elected.
  lemma RestartKeeps(g: Guards, s: Server)
    ensures var r := Restart(s);
            && r.role == Follower && r.timerOn && !r.halted && r.leader == None && !CanApply(r)
            && r.term == s.term && r.votedFor == s.votedFor && r.log == s.log && r.delivered == s.delivered
            && r.commitIdx == r.quickCommit == s.savedCommit
            && (forall j :: 0 <= j < |r.peers| ==> r.peers[j] == Peer(0, 0, false, false))
            && (BecomeLeader(g, r).s.log == s.log <==> s.savedConfigIdx != 0)
  {
    AllOnlySends(TakeOffice(g, Restart(s)));
  }
}
