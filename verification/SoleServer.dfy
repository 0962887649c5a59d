/** A cluster of one server: it elects itself, commits what it appends at once, and never waits. */
module SoleServer {
  import opened RaftTypes
  import opened ServerSpec
  import opened Cluster
  import opened Outcomes

  /** The only server of a cluster: as a leader it has committed all of its log, and it never knows
      of more to apply than its log holds. */
  ghost predicate Alone(s: Server) {
    && s.id == 0 && |s.peers| == 1 && !s.halted
    && (s.role == Leader ==> s.quickCommit == |s.log|)
    && s.savedCommit <= s.commitIdx <= s.quickCommit <= |s.log|
    && (s.timerOn <==> s.role != Leader)
  }

  ghost predicate AllAlone(c: Cluster) {
    |c.servers| == 1 && Alone(c.servers[0]) && c.rpcs == []
  }

  // Committing asks nobody.
  lemma CommitsAlone(s: Server, target: nat)
    requires s.id == 0 && |s.peers| == 1
    ensures Commit(s, target) == Out(s.(quickCommit := if target > s.quickCommit then target else s.quickCommit), [])
  {
    var s1 := s.(quickCommit := target);
    assert NotifyFrom(s1, 1) == Out(s1, []);
    assert NotifyFrom(s1, 0) == if s1.halted then Out(s1, []) else NotifyFrom(s1, 1);
  }

  // A sole server that times out leads in the next term, and its log is committed.
  lemma TakesOffice(g: Guards, s: Server)
    requires Alone(s) && s.timerOn
    ensures var out := ElectionTimeout(g, s);
            && out.sends == [] && Alone(out.s) && out.s.role == Leader && out.s.term == s.term + 1
            && s.log <= out.s.log && out.s.quickCommit == |out.s.log|
            && out.s.commitIdx == s.commitIdx && out.s.delivered == s.delivered && out.s.epoch == s.epoch
  {
    hide Commit;
    var t := TakeOffice(g, StandForElection(s).(electionDone := true));
    CommitsAlone(t, |t.log|);
  }

  // A client's entries are committed by the time its request is handled.
  lemma TakesEntries(g: Guards, s: Server, payloads: seq<int>)
    requires Alone(s) && s.role == Leader
    ensures var out := HandleClientReq(g, s, payloads);
            && out.sends == [] && Alone(out.s) && out.s.role == Leader && out.s.quickCommit == |out.s.log|
            && |out.s.log| == |s.log| + |payloads| && out.s.log[..|s.log|] == s.log
            && (forall i :: 0 <= i < |payloads| ==> out.s.log[|s.log| + i].value == App(payloads[i]))
            && out.s.commitIdx == s.commitIdx && out.s.delivered == s.delivered && out.s.epoch == s.epoch
  {
    hide Commit;
    ClientAppends(g, s, payloads);
    var s1 := s.(log := s.log + Stamped(if g.stampClient then s.term else CLIENT_TERM, payloads));
    CommitsAlone(s1, |s1.log|);
  }

  lemma StepAlone(g: Guards, c: Cluster, a: Action)
    requires AllAlone(c)
    ensures AllAlone(Step(g, c, a))
  {
    hide ElectionTimeout, HandleClientReq, ProcessReq, HandlePeerResp;
    if Enabled(c, a) {
      match a
      case Timeout(_) => TakesOffice(g, c.servers[0]);
      case ClientCall(_, payloads) =>
        if c.servers[0].role == Leader {
          TakesEntries(g, c.servers[0], payloads);
        } else {
          ClientAppends(g, c.servers[0], payloads);
        }
      case Heartbeat(_, _) =>
      case ApplyOne(_) =>
      case Crash(_) =>
    }
  }

  lemma {:induction false} RunAlone(g: Guards, c: Cluster, acts: seq<Action>)
    requires AllAlone(c)
    ensures AllAlone(After(g, c, acts))
    decreases |acts|
  {
    if acts != [] {
      hide Step, AllAlone;
      StepAlone(g, c, acts[0]);
      RunAlone(g, Step(g, c, acts[0]), acts[1..]);
    }
  }

  // In every run of a cluster of one, whatever the guards, a leader's commit index is the end of its
  // log; nothing was sent, and the server never exits.
  lemma SoleLeaderHasCommitted(g: Guards, cap: nat, c: Cluster)
    requires ReachableFrom(g, [cap], c)
    ensures AllAlone(c)
    ensures c.servers[0].role == Leader ==> c.servers[0].quickCommit == |c.servers[0].log|
  {
    var acts: seq<Action> :| c == After(g, Init([cap]), acts);
    RunAlone(g, Init([cap]), acts);
  }

  // One step of its only server.
  lemma Moves(g: Guards, cap: nat, c: Cluster, a: Action, r: Server) returns (d: Cluster)
    requires ReachableFrom(g, [cap], c) && AllAlone(c) && Enabled(c, a)
    requires Step(g, c, a) == Emit(c, 0, Out(r, []))
    ensures ReachableFrom(g, [cap], d) && d == Cluster([r], [])
  {
    d := Step(g, c, a);
    ReachStep(g, [cap], c, a);
    assert Posted([], r.epoch) == [];
  }

  lemma AppliesOne(s: Server) returns (r: Server)
    requires Alone(s) && s.quickCommit == |s.log| && s.commitIdx < |s.log|
    ensures CanApply(s) && r == ApplyNext(s) && Alone(r) && r.quickCommit == |r.log| && r.epoch == s.epoch
    ensures r.log == s.log && r.commitIdx == s.commitIdx + 1
    ensures r.delivered == s.delivered + [Delivery(s.commitIdx + 1, s.log[s.commitIdx])]
    ensures r.commitIdx == |s.log| ==> r.savedCommit == |s.log|
  {
    r := ApplyNext(s);
  }

  // What is committed can be applied to the end, each entry once and in order.
  lemma {:induction false} AppliesAll(g: Guards, cap: nat, c: Cluster) returns (d: Cluster)
    requires ReachableFrom(g, [cap], c) && AllAlone(c)
    requires c.servers[0].quickCommit == |c.servers[0].log|
    ensures ReachableFrom(g, [cap], d) && AllAlone(d)
    ensures DeliveredOn(c.servers[0], d.servers[0]) && d.servers[0].commitIdx == |c.servers[0].log|
    ensures c.servers[0].commitIdx < |c.servers[0].log| ==> d.servers[0].savedCommit == |c.servers[0].log|
    decreases |c.servers[0].log| - c.servers[0].commitIdx
  {
    hide ReachableFrom, ApplyNext, DeliveredOn;
    var s := c.servers[0];
    if s.commitIdx == |s.log| {
      d := c;
      NothingDelivered(s);
    } else {
      var r := AppliesOne(s);
      var e := Moves(g, cap, c, ApplyOne(0), r);
      if r.commitIdx == |s.log| {
        d := e;
        NothingDelivered(r);
      } else {
        d := AppliesAll(g, cap, e);
      }
      DeliveredThen(s, r, d.servers[0]);
    }
  }

  // From every reachable state of a cluster of one, a client's entries can come to be applied: after
  // an election, if the server does not lead, the request, and one turn of the background loop
  // for each entry; and the last index is on disk then.
  lemma ClientIsServed(g: Guards, cap: nat, c: Cluster, payloads: seq<int>) returns (d: Cluster)
    requires ReachableFrom(g, [cap], c) && payloads != []
    ensures ReachableFrom(g, [cap], d) && |d.servers| == 1
    ensures var r := d.servers[0];
            var m, n := |r.delivered| - |payloads|, |r.log| - |payloads|;
            && m >= 0 && n >= 0 && r.commitIdx == r.savedCommit == |r.log|
            && forall i :: 0 <= i < |payloads| ==>
                 r.delivered[m + i].idx == n + i + 1 && r.delivered[m + i].entry.value == App(payloads[i])
  {
    hide ReachableFrom;
    SoleLeaderHasCommitted(g, cap, c);
    var e := c;
    if c.servers[0].role != Leader {
      TakesOffice(g, c.servers[0]);
      e := Moves(g, cap, c, Timeout(0), ElectionTimeout(g, c.servers[0]).s);
    }
    var s := e.servers[0];
    TakesEntries(g, s, payloads);
    var f := Moves(g, cap, e, ClientCall(0, payloads), HandleClientReq(g, s, payloads).s);
    d := AppliesAll(g, cap, f);
  }
}
