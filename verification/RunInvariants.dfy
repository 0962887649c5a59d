/** What every run keeps, of the code as it stands and of every guarded variant: timers, vote counts,
    the saved commit index, configuration entries, terms, and requests that busy peers wait for. */
module RunInvariants {
  import opened RaftTypes
  import opened Median
  import opened ServerSpec
  import opened Cluster
  import opened UrgentCommit
  import opened Outcomes

  // ---------------------------------------------------------------- what a server keeps

  /** A server between two handlers: its election timer runs unless it leads; a candidate has no
      majority, and its count is over exactly when everyone has answered; the commit index is on disk
      unless the server knows of more to apply; a leader gives its own name to clients. */
  ghost predicate Settled(s: Server) {
    && (s.timerOn <==> s.role != Leader)
    && (s.role == Candidate ==> 2 * s.granted <= |s.peers| && (s.electionDone <==> s.responded >= |s.peers|))
    && s.savedCommit <= s.commitIdx && (s.savedCommit < s.commitIdx ==> s.commitIdx < s.quickCommit)
    && (s.role == Leader ==> s.leader == Some(s.id) && s.electionDone)
    && s.peers != []
  }

  // A configuration records the index it lies at.
  predicate ConfAt(e: Entry, k: nat) {
    e.value.Conf? ==> e.value.idx == k && k > 0
  }

  // Configurations lie at their own index, and one that was applied is remembered, on disk too.
  ghost predicate ConfsRight(s: Server) {
    && (forall x: nat :: x < |s.log| ==> ConfAt(s.log[x], x + 1))
    && (forall x: nat :: x < |s.delivered| ==> ConfAt(s.delivered[x].entry, s.delivered[x].idx))
    && (forall x: nat :: x < |s.delivered| && s.delivered[x].entry.value.Conf? ==> s.savedConfigIdx > 0)
    && s.savedConfigIdx <= s.configIdx
  }

  // A request as its sender writes it: its term, and entries that lie in its log where it says.
  ghost predicate Written(s: Server, q: Request) {
    && q.src == s.id && q.term == s.term
    && (q.AppendReq? ==> q.prevIdx + |q.entries| <= |s.log| && q.entries == s.log[q.prevIdx..q.prevIdx + |q.entries|])
  }

  ghost predicate Asks(sends: seq<Request>, j: nat) {
    exists x: nat :: x < |sends| && sends[x].AppendReq? && sends[x].dst == j
  }

  // Peers become busy only by requests.
  ghost predicate BusyAsked(s: Server, out: Out) {
    && |out.s.peers| == |s.peers|
    && forall j: nat :: j < |s.peers| && out.s.peers[j].busy && !out.s.halted && !s.peers[j].busy ==> Asks(out.sends, j)
  }

  ghost predicate AllWritten(s: Server, sends: seq<Request>) {
    forall x: nat :: x < |sends| ==> Written(s, sends[x])
  }

  // ---------------------------------------------------------------- sending

  ghost predicate Sending(s: Server, out: Out) {
    && OnlySent(s.(quickCommit := out.s.quickCommit), out.s) && out.s.quickCommit >= s.quickCommit
    && AllWritten(s, out.sends) && BusyAsked(s, out) && (s.halted ==> out.s.halted)
  }

  lemma SendingOne(s: Server, j: nat)
    requires j < |s.peers|
    ensures Sending(s, RequestAppend(s, j))
  {
    var out := RequestAppend(s, j);
    if !s.peers[j].busy && !out.s.halted {
      assert out.sends[0].dst == j;
    }
  }

  lemma SendingBoth(s: Server, a: Out, b: Out)
    requires Sending(s, a) && Sending(a.s, b)
    ensures Sending(s, Out(b.s, a.sends + b.sends))
  {
    var sends := a.sends + b.sends;
    forall x: nat | x < |sends| ensures Written(s, sends[x]) {
      if x >= |a.sends| { assert Written(a.s, b.sends[x - |a.sends|]); }
    }
    forall j: nat | j < |s.peers| && b.s.peers[j].busy && !b.s.halted && !s.peers[j].busy ensures Asks(sends, j) {
      if a.s.peers[j].busy {
        var x: nat :| x < |a.sends| && a.sends[x].AppendReq? && a.sends[x].dst == j;
        assert sends[x].dst == j;
      } else {
        var x: nat :| x < |b.sends| && b.sends[x].AppendReq? && b.sends[x].dst == j;
        assert sends[|a.sends| + x].dst == j;
      }
    }
  }

  // A server whose peers changed, but for none that became busy, and whose marks do not matter.
  lemma SendingFrom(s: Server, s1: Server, out: Out)
    requires Sending(s1, out) && OnlySent(s, s1) && s1.halted == s.halted
    requires forall j: nat :: j < |s.peers| && s1.peers[j].busy ==> s.peers[j].busy
    ensures Sending(s, out)
  {
    forall x: nat | x < |out.sends| ensures Written(s, out.sends[x]) {
      assert Written(s1, out.sends[x]);
    }
  }

  lemma {:induction false} SendingLoops(s: Server, j: nat)
    requires j <= |s.peers|
    ensures Sending(s, RequestAppendFrom(s, j)) && Sending(s, NotifyFrom(s, j))
    decreases |s.peers| - j
  {
    hide RequestAppend, Sending;
    if j == |s.peers| || s.halted {
      NothingSent(s);
    } else if j == s.id {
      SendingLoops(s, j + 1);
    } else {
      SendingOne(s, j);
      OneOnlySends(s, j);
      var a := RequestAppend(s, j);
      SendingLoops(a.s, j + 1);
      SendingBoth(s, a, RequestAppendFrom(a.s, j + 1));
      SendingBoth(s, a, NotifyFrom(a.s, j + 1));
      var marked := SetPeer(s, j, s.peers[j].(pending := true));
      SendingLoops(marked, j + 1);
      SendingFrom(s, marked, NotifyFrom(marked, j + 1));
    }
  }

  lemma NothingSent(s: Server)
    ensures Sending(s, Out(s, []))
  {
  }

  lemma SendingCommit(s: Server, target: nat)
    ensures Sending(s, Commit(s, target))
  {
    hide NotifyFrom;
    SendingLoops(s.(quickCommit := target), 0);
    var out := Commit(s, target);
    if target > s.quickCommit {
      forall x: nat | x < |out.sends| ensures Written(s, out.sends[x]) {
        assert Written(s.(quickCommit := target), out.sends[x]);
      }
    }
  }

  lemma SendingAll(s: Server)
    ensures Sending(s, RequestAppendAll(s))
  {
    hide Sending, Commit, RequestAppendFrom;
    SendingCommit(s, |s.log|);
    SendingLoops(s, 0);
  }

  // ---------------------------------------------------------------- the handlers

  /** What any handler does: it keeps what a server keeps, its term does not fall, its requests are
      true of its log, and peers become busy only by them. */
  ghost predicate Proper(s: Server, out: Out) {
    && out.s.term >= s.term && out.s.id == s.id && out.s.epoch == s.epoch && out.s.maxAppend == s.maxAppend
    && AllWritten(out.s, out.sends) && BusyAsked(s, out)
    && (Settled(s) ==> Settled(out.s)) && (ConfsRight(s) ==> ConfsRight(out.s))
  }

  // A change of a server's own fields, and requests after it.
  lemma ProperThen(s: Server, s1: Server, out: Out)
    requires Sending(s1, out) && s1.term >= s.term && s1.id == s.id && s1.epoch == s.epoch && |s1.peers| == |s.peers|
            && s1.maxAppend == s.maxAppend
    requires forall j: nat :: j < |s.peers| && s1.peers[j].busy ==> s.peers[j].busy
    requires (Settled(s) ==> Settled(s1)) && (ConfsRight(s) ==> ConfsRight(s1))
    ensures Proper(s, out)
  {
    forall x: nat | x < |out.sends| ensures Written(out.s, out.sends[x]) {
      assert Written(s1, out.sends[x]);
    }
    if Settled(s) {
      assert Settled(out.s);
    }
    if ConfsRight(s) {
      assert ConfsRight(out.s);
    }
  }

  lemma ProperOffice(g: Guards, s: Server, v: Server)
    requires v.term >= s.term && v.id == s.id && v.epoch == s.epoch && |v.peers| == |s.peers|
            && v.maxAppend == s.maxAppend
    requires Settled(s) ==>
               v.savedCommit <= v.commitIdx && (v.savedCommit < v.commitIdx ==> v.commitIdx < v.quickCommit)
    requires ConfsRight(s) ==> ConfsRight(v)
    requires v.electionDone
    ensures Proper(s, BecomeLeader(g, v))
  {
    hide RequestAppendAll, Sending, Proper;
    var t := TakeOffice(g, v);
    SendingAll(t);
    assert Settled(s) ==> Settled(t);
    assert ConfsRight(s) ==> ConfsRight(t);
    ProperThen(s, t, RequestAppendAll(t));
  }

  lemma {:induction false} BallotsWritten(s: Server, j: nat)
    requires j <= |s.peers|
    ensures AllWritten(s, VoteRequestsFrom(s, j))
    ensures forall x: nat :: x < |VoteRequestsFrom(s, j)| ==> VoteRequestsFrom(s, j)[x].VoteReq?
    decreases |s.peers| - j
  {
    if j < |s.peers| { BallotsWritten(s, j + 1); }
  }

  lemma ProperTimeout(g: Guards, s: Server)
    ensures Proper(s, ElectionTimeout(g, s))
  {
    hide BecomeLeader, VoteRequestsFrom, AllWritten;
    if s.role == Leader {
      NothingSent(s.(timerOn := false, halted := true));
      ProperThen(s, s.(timerOn := false, halted := true), ElectionTimeout(g, s));
    } else {
      var s1 := StandForElection(s);
      ProperOffice(g, s, s1.(electionDone := true));
      BallotsWritten(s1, 0);
      if 1 <= |s.peers| / 2 {
        BallotsOf(s1.(timerOn := true), s1);
      }
    }
  }

  lemma BallotsOf(s: Server, s1: Server)
    requires s == s1.(timerOn := true)
    ensures AllWritten(s, VoteRequestsFrom(s1, 0))
  {
    hide VoteRequestsFrom;
    BallotsWritten(s1, 0);
  }

  lemma ProperVote(g: Guards, s: Server, accepted: bool)
    ensures Proper(s, HandleVotingResp(g, s, accepted))
  {
    hide BecomeLeader;
    ProperOffice(g, s, HandlingOfVote(s, accepted).(electionDone := true));
  }

  lemma ProperUpdate(s: Server, t: nat)
    ensures var r := UpdateTerm(s, t);
            && r.term >= s.term && r.term >= t && r.id == s.id && r.epoch == s.epoch && r.peers == s.peers
            && r.log == s.log && r.halted == s.halted && r.maxAppend == s.maxAppend
            && (Settled(s) ==> Settled(r)) && (ConfsRight(s) ==> ConfsRight(r))
  {
  }

  lemma ProperClient(g: Guards, s: Server, payloads: seq<int>)
    ensures Proper(s, HandleClientReq(g, s, payloads))
  {
    hide RequestAppendAll, Sending;
    if s.role == Leader {
      var t := if g.stampClient then s.term else CLIENT_TERM;
      var s1 := s.(log := s.log + Stamped(t, payloads));
      assert ConfsRight(s) ==> ConfsRight(s1);
      SendingAll(s1);
      ProperThen(s, s1, RequestAppendAll(s1));
    }
  }

  // Entries whose configurations lie at their own index.
  ghost predicate EntriesRight(q: Request) {
    q.AppendReq? ==> forall x: nat :: x < |q.entries| ==> ConfAt(q.entries[x], q.prevIdx + x + 1)
  }

  lemma MergeRight(log: seq<Entry>, q: Request)
    requires q.AppendReq? && q.prevIdx <= |log| && EntriesRight(q)
    requires forall x: nat :: x < |log| ==> ConfAt(log[x], x + 1)
    ensures var r := Merge(log, q.prevIdx, q.entries); forall x: nat :: x < |r| ==> ConfAt(r[x], x + 1)
  {
    hide Merge;
    MergeLays(log, q.prevIdx, q.entries);
    var r := Merge(log, q.prevIdx, q.entries);
    forall x: nat | x < |r| ensures ConfAt(r[x], x + 1) {
      if x < q.prevIdx {
        assert r[..q.prevIdx][x] == log[..q.prevIdx][x];
      } else if r != log {
        assert ConfAt(q.entries[x - q.prevIdx], x + 1);
        assert r[q.prevIdx + (x - q.prevIdx)] == r[x];
      }
    }
  }

  lemma ProperAppend(g: Guards, s: Server, q: Request)
    requires q.AppendReq? && EntriesRight(q) && q.term <= s.term
    ensures Proper(s, HandleAppendReq(g, s, q).out)
    ensures var resp := HandleAppendReq(g, s, q).resp; resp.Some? ==> resp.value.term == s.term
  {
    hide Commit, Merge, Sending, ConfsRight;
    if q.term == s.term && s.role == Leader {
      var r := s.(halted := true);
      NothingSent(r);
      HaltedConfs(s, r);
      ProperThen(s, r, Out(r, []));
    } else {
      var s1 := if q.term != s.term then s
                else if s.role == Candidate then BecomeFollower(s) else s.(timerOn := true);
      HaltedConfs(s, s1);
      if q.term < s1.term || !LogOkay(s1, q) {
        NothingSent(s1);
        ProperThen(s, s1, Out(s1, []));
      } else {
        var s2 := s1.(log := Merge(s1.log, q.prevIdx, q.entries), leader := Some(q.src));
        if ConfsRight(s) { MergedConfs(s1, s2, q); }
        ProperMerge(g, s, s1, s2, q);
      }
    }
  }

  lemma HaltedConfs(s: Server, r: Server)
    requires r.log == s.log && r.delivered == s.delivered && r.savedConfigIdx == s.savedConfigIdx
            && r.configIdx == s.configIdx
    ensures ConfsRight(s) ==> ConfsRight(r)
  {
  }

  lemma MergedConfs(s: Server, r: Server, q: Request)
    requires q.AppendReq? && q.prevIdx <= |s.log| && EntriesRight(q) && ConfsRight(s)
    requires r == s.(log := Merge(s.log, q.prevIdx, q.entries), leader := Some(q.src))
    ensures ConfsRight(r)
  {
    hide Merge;
    MergeRight(s.log, q);
  }

  lemma ProperMerge(g: Guards, s: Server, s1: Server, s2: Server, q: Request)
    requires q.AppendReq? && q.prevIdx <= |s1.log| && q.term == s.term && s.role != Leader
    requires s1 == if s.role == Candidate then BecomeFollower(s) else s.(timerOn := true)
    requires s2 == s1.(log := Merge(s1.log, q.prevIdx, q.entries), leader := Some(q.src))
    requires ConfsRight(s) ==> ConfsRight(s2)
    ensures Proper(s, Commit(s2, CommitTarget(g, q)))
  {
    hide Commit, Merge, Sending, ConfsRight;
    SendingCommit(s2, CommitTarget(g, q));
    ProperThen(s, s2, Commit(s2, CommitTarget(g, q)));
  }

  lemma ProperRequest(g: Guards, s: Server, q: Request)
    requires EntriesRight(q)
    ensures Proper(s, ProcessReq(g, s, q).out) && ProcessReq(g, s, q).out.s.term >= q.term
    ensures var resp := ProcessReq(g, s, q).resp;
            resp.Some? ==> q.term <= resp.value.term <= ProcessReq(g, s, q).out.s.term
  {
    hide HandleAppendReq, UpdateTerm, Settled, ConfsRight;
    ProperUpdate(s, q.term);
    var s1 := UpdateTerm(s, q.term);
    if q.VoteReq? {
      ProperBallot(s1, q);
    } else {
      ProperAppend(g, s1, q);
    }
  }

  lemma ProperBallot(s: Server, q: Request)
    requires q.VoteReq?
    ensures Proper(s, HandleVoteReq(s, q).out) && HandleVoteReq(s, q).out.s.term == s.term
    ensures var resp := HandleVoteReq(s, q).resp; resp.Some? && resp.value.term == s.term
  {
  }

  lemma ProperNote(g: Guards, s: Server, resp: Response)
    requires resp.src < |s.peers|
    ensures Sending(SetPeer(s, resp.src, s.peers[resp.src].(next := resp.next, matched := Dec(resp.next))),
                    NotePeerMatch(g, s, resp))
  {
    hide Commit, MedianOf, Matches, Sending;
    var s1 := SetPeer(s, resp.src, s.peers[resp.src].(next := resp.next, matched := Dec(resp.next)));
    SendingCommit(s1, MedianOf(Matches(s1)));
    NothingSent(s1);
  }

  lemma ProperAnswer(g: Guards, s: Server, resp: Response)
    ensures Proper(s, HandleAppendResp(g, s, resp))
  {
    hide RequestAppend, NotePeerMatch, Sending;
    var j := resp.src;
    if !KnownPeer(s, j) {
      NothingSent(s);
      ProperThen(s, s, Out(s, []));
    } else if resp.accepted {
      ProperAcceptance(g, s, resp);
    } else {
      var s1 := SetPeer(s, j, s.peers[j].(next := SteppedBack(s.peers[j].next, resp.next)));
      SendingOne(s1, j);
      NothingSent(s1);
      ProperThen(s, s1, HandleAppendResp(g, s, resp));
    }
  }

  lemma ProperAcceptance(g: Guards, s: Server, resp: Response)
    requires KnownPeer(s, resp.src) && resp.accepted
    ensures Proper(s, HandleAppendResp(g, s, resp))
  {
    hide RequestAppend, NotePeerMatch, Sending, Proper, Settled, ConfsRight;
    var j := resp.src;
    var s1 := SetPeer(s, j, s.peers[j].(next := resp.next, matched := Dec(resp.next)));
    var a := NotePeerMatch(g, s, resp);
    ProperNote(g, s, resp);
    SamePeers(s, s1);
    if a.s.halted {
      ProperThen(s, s1, a);
    } else {
      var s2 := SetPeer(a.s, j, a.s.peers[j].(pending := false));
      SendingOne(s2, j);
      NothingSent(s2);
      var b := RequestAppend(s2, j);
      SendingFrom(a.s, s2, b);
      SendingFrom(a.s, s2, Out(s2, []));
      SendingBoth(s1, a, b);
      SendingBoth(s1, a, Out(s2, []));
      assert a.sends + [] == a.sends;
      ProperThen(s, s1, HandleAppendResp(g, s, resp));
    }
  }

  lemma SamePeers(s: Server, s1: Server)
    requires OnlySent(s, s1) && s1.halted == s.halted
    ensures (Settled(s) ==> Settled(s1)) && (ConfsRight(s) ==> ConfsRight(s1))
  {
  }

  lemma ProperResponse(g: Guards, s: Server, resp: Response)
    ensures Proper(s, HandlePeerResp(g, s, resp)) && HandlePeerResp(g, s, resp).s.term >= resp.term
  {
    hide HandleVotingResp, HandleAppendResp, UpdateTerm;
    ProperUpdate(s, resp.term);
    ProperVote(g, s, resp.accepted);
    ProperAnswer(g, s, resp);
  }

  lemma ProperApply(s: Server)
    requires CanApply(s)
    ensures Proper(s, Out(ApplyNext(s), []))
  {
    var r := ApplyNext(s);
    if ConfsRight(s) {
      assert ConfAt(s.log[s.commitIdx], s.commitIdx + 1);
      forall x: nat | x < |r.delivered|
        ensures ConfAt(r.delivered[x].entry, r.delivered[x].idx)
        ensures r.delivered[x].entry.value.Conf? ==> r.savedConfigIdx > 0 {
        if x < |s.delivered| { assert r.delivered[x] == s.delivered[x]; }
      }
    }
  }

  lemma ProperHeartbeat(s: Server, j: nat)
    requires j < |s.peers|
    ensures Proper(s, RequestAppend(s, j))
  {
    hide RequestAppend, Sending;
    SendingOne(s, j);
    ProperThen(s, s, RequestAppend(s, j));
  }

  lemma ProperFree(s: Server, q: Request)
    requires q.dst < |s.peers|
    ensures var r := FreePeer(s, q);
            && OnlySent(s, r) && r.halted == s.halted
            && (Settled(s) ==> Settled(r)) && (ConfsRight(s) ==> ConfsRight(r))
            && (forall j: nat :: j < |s.peers| ==> r.peers[j] == s.peers[j] || (q.AppendReq? && j == q.dst))
            && (q.AppendReq? ==> !r.peers[q.dst].busy)
  {
  }

  lemma RestartSettled(s: Server)
    requires Settled(s) && ConfsRight(s)
    ensures Settled(Restart(s)) && ConfsRight(Restart(s))
  {
  }

  // ---------------------------------------------------------------- the cluster

  // The RPC that a busy peer's next turn waits for: its outcome frees the peer.
  ghost predicate Outstanding(c: Cluster, k: nat, i: nat, j: nat) {
    && k < |c.rpcs| && i < |c.servers| && c.rpcs[k].open && c.rpcs[k].epoch == c.servers[i].epoch
    && c.rpcs[k].req.AppendReq? && c.rpcs[k].req.src == i && c.rpcs[k].req.dst == j
  }

  ghost predicate BusyWaits(c: Cluster, i: nat, j: nat)
    requires i < |c.servers| && j < |c.servers[i].peers|
  {
    c.servers[i].peers[j].busy && !c.servers[i].halted ==> exists k :: Outstanding(c, k, i, j)
  }

  // Nobody falls behind what it was told: senders are in the term of their requests or a later one,
  // and so are receivers, who answer with it.
  ghost predicate TermsKnown(c: Cluster, k: nat)
    requires k < |c.rpcs|
  {
    var r := c.rpcs[k];
    && r.req.src < |c.servers| && r.req.dst < |c.servers| && r.req.term <= c.servers[r.req.src].term
    && (r.reply.Some? ==> r.req.term <= r.reply.value.term <= c.servers[r.req.dst].term)
  }

  ghost predicate Orderly(c: Cluster) {
    && (forall i: nat :: i < |c.servers| ==>
          Settled(c.servers[i]) && ConfsRight(c.servers[i]) && c.servers[i].id == i)
    && (forall k: nat :: k < |c.rpcs| ==> TermsKnown(c, k) && EntriesRight(c.rpcs[k].req))
    && (forall i: nat, j: nat :: i < |c.servers| && j < |c.servers[i].peers| ==> BusyWaits(c, i, j))
  }

  // Every request names servers of the cluster.
  ghost predicate Addressed(c: Cluster) {
    forall k: nat :: k < |c.rpcs| ==> c.rpcs[k].req.src < |c.servers| && c.rpcs[k].req.dst < |c.servers|
  }

  lemma EmitOrderly(c: Cluster, i: nat, out: Out)
    requires Orderly(c) && i < |c.servers| && Proper(c.servers[i], out) && !c.servers[i].halted
            && Addressed(Emit(c, i, out))
    ensures Orderly(Emit(c, i, out))
  {
    hide Settled, ConfsRight;
    var d := Emit(c, i, out);
    var n := |c.rpcs|;
    forall k: nat | k < |d.rpcs| ensures TermsKnown(d, k) && EntriesRight(d.rpcs[k].req) {
      if k < n {
        assert TermsKnown(c, k) && d.rpcs[k] == c.rpcs[k];
      } else {
        assert Written(out.s, out.sends[k - n]);
        WrittenRight(out.s, out.sends[k - n]);
      }
    }
    forall x: nat, j: nat | x < |d.servers| && j < |d.servers[x].peers| ensures BusyWaits(d, x, j) {
      if x != i || c.servers[i].peers[j].busy {
        StillWaits(c, i, out, x, j);
      } else if out.s.peers[j].busy && !out.s.halted {
        var y: nat :| y < |out.sends| && out.sends[y].AppendReq? && out.sends[y].dst == j;
        assert Written(out.s, out.sends[y]);
        assert Outstanding(d, n + y, i, j);
      }
    }
  }

  lemma WrittenRight(s: Server, q: Request)
    requires Written(s, q) && ConfsRight(s)
    ensures EntriesRight(q)
  {
    if q.AppendReq? {
      forall x: nat | x < |q.entries| ensures ConfAt(q.entries[x], q.prevIdx + x + 1) {
        assert ConfAt(s.log[q.prevIdx + x], q.prevIdx + x + 1);
      }
    }
  }

  lemma StillWaits(c: Cluster, i: nat, out: Out, x: nat, j: nat)
    requires i < |c.servers| && out.s.epoch == c.servers[i].epoch && |out.s.peers| == |c.servers[i].peers|
    requires x < |c.servers| && j < |c.servers[x].peers| && BusyWaits(c, x, j)
    requires x == i ==> c.servers[i].peers[j].busy && !c.servers[i].halted
    ensures BusyWaits(Emit(c, i, out), x, j)
  {
    var d := Emit(c, i, out);
    if d.servers[x].peers[j].busy && !d.servers[x].halted {
      var k :| Outstanding(c, k, x, j);
      assert Outstanding(d, k, x, j);
    }
  }

  // An RPC gets its answer, given after the receiver has seen the request.
  lemma AnswerOrderly(c: Cluster, k: nat, resp: Option<Response>)
    requires Orderly(c) && k < |c.rpcs|
    requires resp.Some? ==> c.rpcs[k].req.term <= resp.value.term <= c.servers[c.rpcs[k].req.dst].term
    ensures Orderly(c.(rpcs := c.rpcs[k := c.rpcs[k].(reply := resp)]))
  {
    hide Settled, ConfsRight, EntriesRight;
    var d := c.(rpcs := c.rpcs[k := c.rpcs[k].(reply := resp)]);
    forall x: nat | x < |d.rpcs| ensures TermsKnown(d, x) && EntriesRight(d.rpcs[x].req) {
      assert TermsKnown(c, x);
    }
    forall x: nat, j: nat | x < |d.servers| && j < |d.servers[x].peers| ensures BusyWaits(d, x, j) {
      assert BusyWaits(c, x, j);
      if d.servers[x].peers[j].busy && !d.servers[x].halted {
        var y :| Outstanding(c, y, x, j);
        assert Outstanding(d, y, x, j);
      }
    }
  }

  // An RPC ends, which frees its peer.
  lemma CloseOrderly(c: Cluster, k: nat)
    requires Orderly(c) && Awaited(c, k)
    ensures var i := c.rpcs[k].req.src;
            Orderly(Cluster(c.servers[i := FreePeer(c.servers[i], c.rpcs[k].req)],
                            c.rpcs[k := c.rpcs[k].(open := false)]))
  {
    hide Settled, ConfsRight, EntriesRight, FreePeer;
    var i, q := c.rpcs[k].req.src, c.rpcs[k].req;
    var d := Cluster(c.servers[i := FreePeer(c.servers[i], q)], c.rpcs[k := c.rpcs[k].(open := false)]);
    ProperFree(c.servers[i], q);
    forall x: nat | x < |d.rpcs| ensures TermsKnown(d, x) && EntriesRight(d.rpcs[x].req) {
      assert TermsKnown(c, x);
    }
    forall x: nat, j: nat | x < |d.servers| && j < |d.servers[x].peers| ensures BusyWaits(d, x, j) {
      assert BusyWaits(c, x, j);
      if d.servers[x].peers[j].busy && !d.servers[x].halted {
        var y :| Outstanding(c, y, x, j);
        assert y != k;
        assert Outstanding(d, y, x, j);
      }
    }
  }

  lemma CrashOrderly(c: Cluster, i: nat)
    requires Orderly(c) && i < |c.servers|
    ensures Orderly(Emit(c, i, Out(Restart(c.servers[i]), [])))
  {
    hide Settled, ConfsRight, EntriesRight;
    var d := Emit(c, i, Out(Restart(c.servers[i]), []));
    assert d.rpcs == c.rpcs;
    RestartSettled(c.servers[i]);
    forall x: nat | x < |d.rpcs| ensures TermsKnown(d, x) && EntriesRight(d.rpcs[x].req) {
      assert TermsKnown(c, x);
    }
    forall x: nat, j: nat | x < |d.servers| && j < |d.servers[x].peers| ensures BusyWaits(d, x, j) {
      if x != i && d.servers[x].peers[j].busy && !d.servers[x].halted {
        assert BusyWaits(c, x, j);
        var y :| Outstanding(c, y, x, j);
        assert Outstanding(d, y, x, j);
      }
    }
  }

  lemma StepOrderly(g: Guards, c: Cluster, a: Action)
    requires Orderly(c) && Shaped(Step(g, c, a))
    ensures Orderly(Step(g, c, a))
  {
    if !Enabled(c, a) { return; }
    hide Orderly, Proper, Settled, ElectionTimeout, HandleClientReq, RequestAppend, ProcessReq, HandlePeerResp,
         ApplyNext, Restart;
    var d := Step(g, c, a);
    assert Addressed(d) by { ShapedAddressed(d); }
    match a
    case Timeout(i) => ProperTimeout(g, c.servers[i]); EmitOrderly(c, i, ElectionTimeout(g, c.servers[i]));
    case ClientCall(i, payloads) =>
      ProperClient(g, c.servers[i], payloads);
      EmitOrderly(c, i, HandleClientReq(g, c.servers[i], payloads));
    case Heartbeat(i, j) => ProperHeartbeat(c.servers[i], j); EmitOrderly(c, i, RequestAppend(c.servers[i], j));
    case Deliver(k) => DeliverOrderly(g, c, k);
    case Return(k) => ReturnOrderly(g, c, k);
    case Fail(k) => FailOrderly(g, c, k);
    case ApplyOne(i) => ProperApply(c.servers[i]); EmitOrderly(c, i, Out(ApplyNext(c.servers[i]), []));
    case Crash(i) => CrashOrderly(c, i);
  }

  lemma ShapedAddressed(d: Cluster)
    requires Shaped(d)
    ensures Addressed(d)
  {
    forall k: nat | k < |d.rpcs| ensures d.rpcs[k].req.src < |d.servers| && d.rpcs[k].req.dst < |d.servers| {
      assert RpcShaped(d, k);
    }
  }

  lemma DeliverOrderly(g: Guards, c: Cluster, k: nat)
    requires Orderly(c) && Enabled(c, Deliver(k)) && Addressed(Step(g, c, Deliver(k)))
    ensures Orderly(Step(g, c, Deliver(k)))
  {
    hide Orderly, Proper, Settled, ProcessReq;
    var i, q := c.rpcs[k].req.dst, c.rpcs[k].req;
    var ans := ProcessReq(g, c.servers[i], q);
    assert EntriesRight(q) by { RpcOrderly(c, k); }
    ProperRequest(g, c.servers[i], q);
    var e := Emit(c, i, ans.out);
    var d := Step(g, c, Deliver(k));
    assert d == e.(rpcs := e.rpcs[k := e.rpcs[k].(reply := ans.resp)]);
    assert forall x :: 0 <= x < |e.rpcs| ==> e.rpcs[x].req == d.rpcs[x].req;
    EmitOrderly(c, i, ans.out);
    AnswerOrderly(e, k, ans.resp);
  }

  lemma RpcOrderly(c: Cluster, k: nat)
    requires Orderly(c) && k < |c.rpcs|
    ensures TermsKnown(c, k) && EntriesRight(c.rpcs[k].req)
  {
  }

  lemma ReturnOrderly(g: Guards, c: Cluster, k: nat)
    requires Orderly(c) && Enabled(c, Return(k)) && Addressed(Step(g, c, Return(k)))
    ensures Orderly(Step(g, c, Return(k)))
  {
    hide Orderly, Proper, Settled, HandlePeerResp, FreePeer;
    var i := c.rpcs[k].req.src;
    var freed := FreePeer(c.servers[i], c.rpcs[k].req);
    var out := HandlePeerResp(g, freed, c.rpcs[k].reply.value);
    ProperFree(c.servers[i], c.rpcs[k].req);
    ProperResponse(g, freed, c.rpcs[k].reply.value);
    CloseOrderly(c, k);
    var e := Cluster(c.servers[i := freed], c.rpcs[k := c.rpcs[k].(open := false)]);
    assert Step(g, c, Return(k)) == Emit(e, i, out);
    EmitOrderly(e, i, out);
  }

  lemma FailOrderly(g: Guards, c: Cluster, k: nat)
    requires Orderly(c) && Enabled(c, Fail(k))
    ensures Orderly(Step(g, c, Fail(k)))
  {
    hide Orderly, FreePeer;
    var i := c.rpcs[k].req.src;
    CloseOrderly(c, k);
    var freed := FreePeer(c.servers[i], c.rpcs[k].req);
    assert Posted([], freed.epoch) == [];
    assert Step(g, c, Fail(k)).rpcs == c.rpcs[k := c.rpcs[k].(open := false)];
  }

  // What a step does to the terms of the servers and to their parameters.
  lemma StepTerms(g: Guards, c: Cluster, a: Action, i: nat)
    requires Orderly(c) && i < |c.servers|
    ensures var d := Step(g, c, a);
            && |d.servers| == |c.servers| && d.servers[i].term >= c.servers[i].term
            && d.servers[i].maxAppend == c.servers[i].maxAppend
            && (a.Deliver? && Enabled(c, a) && i == c.rpcs[a.k].req.dst ==> d.servers[i].term >= c.rpcs[a.k].req.term)
            && (a.Return? && Enabled(c, a) && i == c.rpcs[a.k].req.src ==>
                  d.servers[i].term >= c.rpcs[a.k].reply.value.term)
  {
    if !Enabled(c, a) { return; }
    hide Orderly, Settled, ConfsRight, ElectionTimeout, HandleClientReq, RequestAppend, ProcessReq, HandlePeerResp;
    match a
    case Timeout(x) => ProperTimeout(g, c.servers[x]);
    case ClientCall(x, payloads) => ProperClient(g, c.servers[x], payloads);
    case Heartbeat(x, j) => ProperHeartbeat(c.servers[x], j);
    case Deliver(k) => RpcOrderly(c, k); ProperRequest(g, c.servers[c.rpcs[k].req.dst], c.rpcs[k].req);
    case Return(k) =>
      var s := c.servers[c.rpcs[k].req.src];
      ProperFree(s, c.rpcs[k].req);
      ProperResponse(g, FreePeer(s, c.rpcs[k].req), c.rpcs[k].reply.value);
    case Fail(k) => ProperFree(c.servers[c.rpcs[k].req.src], c.rpcs[k].req);
    case ApplyOne(x) => ProperApply(c.servers[x]);
    case Crash(x) =>
  }

  ghost predicate SameCaps(c: Cluster, d: Cluster) {
    |d.servers| == |c.servers| && forall i :: 0 <= i < |c.servers| ==> d.servers[i].maxAppend == c.servers[i].maxAppend
  }

  lemma {:induction false} RunOrderly(g: Guards, c: Cluster, acts: seq<Action>)
    requires Orderly(c) && Shaped(c) && AllReminded(c)
    ensures Orderly(After(g, c, acts)) && Shaped(After(g, c, acts)) && SameCaps(c, After(g, c, acts))
    decreases |acts|
  {
    if acts != [] {
      hide Step, Shaped, AllReminded, Orderly;
      var d := Step(g, c, acts[0]);
      StepReminds(g, c, acts[0]);
      StepOrderly(g, c, acts[0]);
      assert |d.servers| == |c.servers| by { StepSize(g, c, acts[0]); }
      forall i | 0 <= i < |c.servers| ensures d.servers[i].maxAppend == c.servers[i].maxAppend {
        StepTerms(g, c, acts[0], i);
      }
      RunOrderly(g, d, acts[1..]);
    }
  }

  lemma StepSize(g: Guards, c: Cluster, a: Action)
    ensures |Step(g, c, a).servers| == |c.servers|
  {
  }

  lemma ReachableOrderly(g: Guards, c: Cluster)
    requires Reachable(g, c)
    ensures Orderly(c) && Shaped(c)
  {
    var caps: seq<nat> :| ReachableFrom(g, caps, c);
    CapsStay(g, caps, c);
  }

  // Each server keeps its parameter, and there are as many servers as parameters.
  lemma CapsStay(g: Guards, caps: seq<nat>, c: Cluster)
    requires ReachableFrom(g, caps, c)
    ensures Orderly(c) && Shaped(c)
    ensures |c.servers| == |caps| && forall i :: 0 <= i < |caps| ==> c.servers[i].maxAppend == caps[i]
  {
    var acts: seq<Action> :| c == After(g, Init(caps), acts);
    assert Shaped(Init(caps)) && AllReminded(Init(caps)) && Orderly(Init(caps));
    RunOrderly(g, Init(caps), acts);
  }

  // ---------------------------------------------------------------- what follows for every run

  // The election timer of a server is off exactly while it leads; a leader that runs has no timer to
  // make it exit, and every other server will stand for election again.
  lemma TimerUnlessLeads(g: Guards, c: Cluster, i: nat)
    requires Reachable(g, c) && i < |c.servers|
    ensures c.servers[i].timerOn <==> c.servers[i].role != Leader
  {
    ReachableOrderly(g, c);
  }

  // No candidate sits on a majority of the votes, and none gives up before everyone has answered.
  lemma CandidatesCount(g: Guards, c: Cluster, i: nat)
    requires Reachable(g, c) && i < |c.servers| && c.servers[i].role == Candidate
    ensures var s := c.servers[i];
            2 * s.granted <= |c.servers| && (s.electionDone <==> s.responded >= |c.servers|)
  {
    ReachableOrderly(g, c);
  }

  // A commit index that is not on disk belongs to a server that knows of more to apply.
  lemma CommitIndexIsSaved(g: Guards, c: Cluster, i: nat)
    requires Reachable(g, c) && i < |c.servers|
    ensures var s := c.servers[i];
            s.savedCommit <= s.commitIdx && (s.savedCommit < s.commitIdx ==> s.commitIdx < s.quickCommit)
  {
    ReachableOrderly(g, c);
  }

  // Clients of a leader are told its own name.
  lemma LeaderIsNamed(g: Guards, c: Cluster, i: nat)
    requires Reachable(g, c) && i < |c.servers| && c.servers[i].role == Leader
    ensures c.servers[i].leader == Some(i)
  {
    ReachableOrderly(g, c);
  }

  // Every configuration entry records the index at which it lies, in every log and request, and was
  // delivered at that index.
  lemma ConfigurationsKnowTheirIndex(g: Guards, c: Cluster, i: nat, x: nat)
    requires Reachable(g, c) && i < |c.servers|
    ensures x < |c.servers[i].log| && c.servers[i].log[x].value.Conf? ==> c.servers[i].log[x].value.idx == x + 1
    ensures x < |c.servers[i].delivered| && c.servers[i].delivered[x].entry.value.Conf? ==>
              c.servers[i].delivered[x].entry.value.idx == c.servers[i].delivered[x].idx
  {
    ReachableOrderly(g, c);
    var s := c.servers[i];
    if x < |s.log| { assert ConfAt(s.log[x], x + 1); }
    if x < |s.delivered| { assert ConfAt(s.delivered[x].entry, s.delivered[x].idx); }
  }

  // A server that has applied a configuration, before or after any restarts, adds none when it takes
  // office, at this moment or after one more restart.
  lemma ConfiguredOnce(g: Guards, c: Cluster, i: nat, x: nat)
    requires Reachable(g, c) && i < |c.servers|
    requires x < |c.servers[i].delivered| && c.servers[i].delivered[x].entry.value.Conf?
    ensures BecomeLeader(g, c.servers[i]).s.log == c.servers[i].log
    ensures BecomeLeader(g, Restart(c.servers[i])).s.log == c.servers[i].log
  {
    ReachableOrderly(g, c);
    assert ConfsRight(c.servers[i]);
    AllOnlySends(TakeOffice(g, c.servers[i]));
    AllOnlySends(TakeOffice(g, Restart(c.servers[i])));
  }

  // A busy peer waits for an RPC that can still fail or be answered; when it fails, the peer is free.
  lemma NoPeerIsStuck(g: Guards, c: Cluster, i: nat, j: nat) returns (k: nat)
    requires Reachable(g, c) && i < |c.servers| && !c.servers[i].halted
    requires j < |c.servers[i].peers| && c.servers[i].peers[j].busy
    ensures k < |c.rpcs| && c.rpcs[k].req.AppendReq? && c.rpcs[k].req.src == i && c.rpcs[k].req.dst == j
    ensures Enabled(c, Fail(k)) && (c.rpcs[k].reply.Some? ==> Enabled(c, Return(k)))
    ensures var d := Step(g, c, Fail(k));
            !d.servers[i].peers[j].busy && d.rpcs == c.rpcs[k := c.rpcs[k].(open := false)]
  {
    ReachableOrderly(g, c);
    assert BusyWaits(c, i, j);
    k :| Outstanding(c, k, i, j);
    assert Posted([], c.servers[i].epoch) == [];
  }

  // A leader's heartbeat leaves no peer unasked.
  lemma HeartbeatAsks(g: Guards, c: Cluster, i: nat, j: nat)
    requires Enabled(c, Heartbeat(i, j))
    ensures Step(g, c, Heartbeat(i, j)).servers[i].peers[j].busy
  {
  }

  // Terms: no step lowers one, a crash included; a server that was sent a request or an answer is
  // afterwards in its term or a later one, and in the meantime nobody falls behind what it said.
  lemma TermsNeverFall(g: Guards, c: Cluster, a: Action, i: nat)
    requires Reachable(g, c) && i < |c.servers|
    ensures i < |Step(g, c, a).servers| && Step(g, c, a).servers[i].term >= c.servers[i].term
    ensures a.Deliver? && Enabled(c, a) && i == c.rpcs[a.k].req.dst ==>
              Step(g, c, a).servers[i].term >= c.rpcs[a.k].req.term
    ensures a.Return? && Enabled(c, a) && i == c.rpcs[a.k].req.src ==>
              Step(g, c, a).servers[i].term >= c.rpcs[a.k].reply.value.term
  {
    hide Orderly;
    ReachableOrderly(g, c);
    StepTerms(g, c, a, i);
  }

  lemma TermsSpread(g: Guards, c: Cluster, k: nat)
    requires Reachable(g, c) && k < |c.rpcs|
    ensures TermsKnown(c, k)
  {
    ReachableOrderly(g, c);
  }

  // A server that hears of a later term is in it afterwards, as a follower without a vote.
  lemma AnswerDeposes(g: Guards, c: Cluster, k: nat)
    requires Reachable(g, c) && Enabled(c, Return(k))
    requires c.rpcs[k].reply.value.term > c.servers[c.rpcs[k].req.src].term
    ensures var i := c.rpcs[k].req.src;
            var d := Step(g, c, Return(k));
            Deposed(FreePeer(c.servers[i], c.rpcs[k].req), d.servers[i], c.rpcs[k].reply.value.term)
            && |d.rpcs| == |c.rpcs|
  {
    hide HandlePeerResp;
    HigherTermDeposes(g, FreePeer(c.servers[c.rpcs[k].req.src], c.rpcs[k].req), c.rpcs[k].reply.value);
  }
}
