/** The classes of srv_state.hxx, peer.hxx and raft_server.cxx: the handlers as the code executes
    them, field by field and loop by loop. Each is proved to do to the server's state, and to send,
    what the function of the same purpose in module ServerSpec says. */
module RaftServerClass {
  import opened RaftTypes
  import opened Median
  import opened ServerSpec

  // srv_state.hxx.
  class SrvState {
    var term: nat
    var commitIdx: nat
    var votedFor: Option<nat>

    constructor (t: nat, c: nat, v: Option<nat>)
      ensures term == t && commitIdx == c && votedFor == v
    {
      term, commitIdx, votedFor := t, c, v;
    }

    // The commit index never falls.
    method SetCommitIdx(c: nat)
      modifies this`commitIdx
      ensures commitIdx == if c > old(commitIdx) then c else old(commitIdx)
    {
      if c > commitIdx { commitIdx := c; }
    }
  }

  // peer.hxx, as far as it takes part in replication.
  class PeerNode {
    var nextLogIdx: nat
    var matchedIdx: nat
    var busyFlag: bool
    var pendingCommitFlag: bool

    function View(): Peer
      reads this
    {
      Peer(nextLogIdx, matchedIdx, busyFlag, pendingCommitFlag)
    }

    constructor ()
      ensures View() == NEW_PEER
    {
      nextLogIdx, matchedIdx, busyFlag, pendingCommitFlag := 0, 0, false, false;
    }

    // Compare and exchange: only a free peer is made busy.
    method MakeBusy() returns (ok: bool)
      modifies this`busyFlag
      ensures ok == !old(busyFlag) && busyFlag
    {
      ok := !busyFlag;
      busyFlag := true;
    }

    method ClearPendingCommit() returns (was: bool)
      modifies this`pendingCommitFlag
      ensures was == old(pendingCommitFlag) && !pendingCommitFlag
    {
      was := pendingCommitFlag;
      pendingCommitFlag := false;
    }
  }

  // What the state manager holds of srv_state, and the configuration it saved last.
  datatype Disk = Disk(term: nat, votedFor: Option<nat>, commitIdx: nat, configIdx: nat)

  // What a client hears.
  datatype ClientResp = ClientResp(term: nat, leader: Option<nat>, next: nat, accepted: bool)

  class RaftServer {
    const guards: Guards
    const id: nat
    const maxAppendSize: nat
    const state: SrvState
    const peers: seq<PeerNode>
    var log: seq<Entry>
    var role: Role
    var leader: Option<nat>
    var votesGranted: nat
    var votesResponded: nat
    var electionCompleted: bool
    var quickCommitIdx: nat
    var configIdx: nat
    var timerOn: bool
    var halted: bool
    var configChanging: bool
    var disk: Disk
    // the network and the state machine
    var outbox: seq<Request>
    var delivered: seq<Delivery>
    const epoch: nat
    const bootMark: nat
    const bootCommit: nat

    // Peers are distinct objects, and between handlers the term and the vote are on disk.
    ghost predicate Wired() {
      forall i, j :: 0 <= i < j < |peers| ==> peers[i] != peers[j]
    }

    ghost predicate Valid()
      reads this`disk, state`term, state`votedFor
    {
      Wired() && disk.term == state.term && disk.votedFor == state.votedFor
    }

    ghost function Views(): (ps: seq<Peer>)
      reads peers
      ensures |ps| == |peers| && forall j :: 0 <= j < |peers| ==> ps[j] == peers[j].View()
    {
      seq(|peers|, j requires 0 <= j < |peers| reads peers => peers[j].View())
    }

    ghost function Abs(): Server
      reads this, state, peers
    {
      Server(id, maxAppendSize, state.term, state.votedFor, log, role, leader, votesGranted, votesResponded,
             electionCompleted, quickCommitIdx, state.commitIdx, configIdx, Views(), timerOn, halted,
             disk.commitIdx, disk.configIdx, epoch, bootMark, bootCommit, delivered)
    }

    // What a handler did is what the specification says.
    twostate predicate Did(out: Out)
      reads this, state, peers
    {
      Abs() == out.s && outbox == old(outbox) + out.sends && (old(Valid()) ==> Valid())
    }

    // The constructor's scan for a configuration that is not committed yet.
    static method UncommittedConfig(log: seq<Entry>, commitIdx: nat) returns (found: bool)
      ensures found <==> exists k :: commitIdx <= k < |log| && log[k].value.Conf?
    {
      var i := commitIdx + 1;
      while i < |log| + 1
        invariant commitIdx < i && forall k :: commitIdx <= k < i - 1 && k < |log| ==> !log[k].value.Conf?
      {
        if log[i - 1].value.Conf? { return true; }
        i := i + 1;
      }
      found := false;
    }

    static method NewPeers(n: nat) returns (ps: seq<PeerNode>)
      ensures |ps| == n && forall j :: 0 <= j < n ==> fresh(ps[j]) && ps[j].View() == NEW_PEER
      ensures forall j, k :: 0 <= j < k < n ==> ps[j] != ps[k]
    {
      ps := [];
      while |ps| < n
        invariant |ps| <= n && forall j :: 0 <= j < |ps| ==> fresh(ps[j]) && ps[j].View() == NEW_PEER
        invariant forall j, k :: 0 <= j < k < |ps| ==> ps[j] != ps[k]
      {
        var p := new PeerNode();
        ps := ps + [p];
      }
    }

    // The constructor: what is on disk is all that a restarted server keeps. `s` is the server
    // as it was before the crash, or a server that has never run.
    constructor (g: Guards, id: nat, n: nat, maxAppendSize: nat, disk: Disk, log: seq<Entry>,
                 delivered: seq<Delivery>, epoch: nat, ghost s: Server)
      requires s.id == id && s.maxAppend == maxAppendSize && |s.peers| == n && s.delivered == delivered
              && s.epoch + 1 == epoch
      requires s.term == disk.term && s.votedFor == disk.votedFor && s.log == log
      requires s.savedCommit == disk.commitIdx && s.savedConfigIdx == disk.configIdx
      ensures Valid() && fresh(state) && (forall j :: 0 <= j < |peers| ==> fresh(peers[j]))
      ensures Abs() == Restart(s) && outbox == [] && guards == g
      ensures configChanging <==> exists k :: disk.commitIdx <= k < |log| && log[k].value.Conf?
    {
      guards, this.id, this.maxAppendSize, this.disk, this.log, this.epoch := g, id, maxAppendSize, disk, log, epoch;
      this.delivered, bootMark, bootCommit := delivered, |delivered|, disk.commitIdx;
      role, leader, votesGranted, votesResponded, electionCompleted := Follower, None, 0, 0, true;
      quickCommitIdx, configIdx, timerOn, halted, outbox := disk.commitIdx, disk.configIdx, true, false, [];
      var found := RaftServer.UncommittedConfig(log, disk.commitIdx);
      configChanging := found;
      state := new SrvState(disk.term, disk.commitIdx, disk.votedFor);
      var ps := RaftServer.NewPeers(n);
      peers := ps;
      new;
      assert Views() == seq(|s.peers|, j => NEW_PEER);
    }

    // ---------------------------------------------------------------- sending entries

    // request_append_entries(peer): a busy peer is skipped.
    method RequestAppendEntriesTo(j: nat) returns (sent: bool)
      requires Wired() && j < |peers|
      modifies this`outbox, this`halted, peers
      ensures sent == !old(peers[j].busyFlag)
      ensures Did(RequestAppend(old(Abs()), j))
    {
      hide CreateAppend;
      sent := peers[j].MakeBusy();
      if sent {
        MadeBusy(j);
        CreateAppendEntriesReq(j, peers[j], old(Abs()));
      } else {
        assert Views() == old(Views());
      }
    }

    twostate lemma MadeBusy(j: nat)
      requires Wired() && j < |peers| && unchanged(this, state)
      requires peers[j].View() == old(peers[j].View()).(busy := true)
      requires forall i :: 0 <= i < |peers| && i != j ==> peers[i].View() == old(peers[i].View())
      ensures Abs() == SetPeer(old(Abs()), j, old(peers[j].View()).(busy := true))
    {
      assert Views() == old(Views())[j := old(peers[j].View()).(busy := true)];
    }

    method EntriesFrom(j: nat, lastLogIdx: nat) returns (req: Request)
      requires lastLogIdx <= |log|
      ensures req == AppendReq(state.term, id, j, TermAt(log, lastLogIdx), lastLogIdx, quickCommitIdx,
                               log[lastLogIdx..Min(|log|, lastLogIdx + maxAppendSize)])
    {
      var lastLogTerm := TermAt(log, lastLogIdx);
      var endIdx := if |log| + 1 < lastLogIdx + 1 + maxAppendSize then |log| + 1 else lastLogIdx + 1 + maxAppendSize;
      var entries := if lastLogIdx + 1 >= |log| + 1 then [] else log[lastLogIdx..endIdx - 1];
      req := AppendReq(state.term, id, j, lastLogTerm, lastLogIdx, quickCommitIdx, entries);
    }

    // A peer that has no next index yet starts at the leader's next slot.
    method LastIdxFor(j: nat, p: PeerNode, ghost s: Server) returns (lastLogIdx: nat)
      requires Wired() && j < |peers| && p == peers[j] && j < |s.peers|
              && Abs() == SetPeer(s, j, s.peers[j].(busy := true))
      modifies p`nextLogIdx
      ensures lastLogIdx == (if s.peers[j].next == 0 then |s.log| + 1 else s.peers[j].next) - 1
      ensures Abs() == SetPeer(s, j, s.peers[j].(next := lastLogIdx + 1, busy := true))
    {
      if p.nextLogIdx == 0 { p.nextLogIdx := |log| + 1; }
      lastLogIdx := p.nextLogIdx - 1;
      assert Views() == s.peers[j := s.peers[j].(next := lastLogIdx + 1, busy := true)];
    }

    // create_append_entries_req, for a peer that was just made busy; s is the state before that.
    method CreateAppendEntriesReq(j: nat, p: PeerNode, ghost s: Server)
      requires Wired() && j < |peers| && p == peers[j] && j < |s.peers|
              && Abs() == SetPeer(s, j, s.peers[j].(busy := true))
      modifies this`outbox, this`halted, p`nextLogIdx
      ensures Did(CreateAppend(s, j))
    {
      hide RaftServer.Views, RaftServer.Valid;
      var lastLogIdx := LastIdxFor(j, p, s);
      SendFrom(j, lastLogIdx);
    }

    // A next index past the log stops the server; otherwise the request goes out.
    method SendFrom(j: nat, lastLogIdx: nat)
      modifies this`outbox, this`halted
      ensures |log| < lastLogIdx ==> Did(Out(old(Abs()).(halted := true), []))
      ensures lastLogIdx <= |log| ==>
                Did(Out(old(Abs()), [AppendReq(state.term, id, j, TermAt(log, lastLogIdx), lastLogIdx, quickCommitIdx,
                                               log[lastLogIdx..Min(|log|, lastLogIdx + maxAppendSize)])]))
    {
      if lastLogIdx >= |log| + 1 {
        halted := true;
        return;
      }
      var req := EntriesFrom(j, lastLogIdx);
      outbox := outbox + [req];
    }

    // The loop of request_append_entries() from peer j on.
    method RequestAppendEntries()
      requires Wired()
      modifies this`outbox, this`halted, this`quickCommitIdx, peers
      ensures Did(RequestAppendAll(old(Abs())))
    {
      if |peers| == 1 { Commit(|log|); } else { RequestPeers(); }
    }

    method RequestPeers()
      requires Wired()
      modifies this`outbox, this`halted, peers
      ensures Did(RequestAppendFrom(old(Abs()), 0))
    {
      hide RequestAppend, RequestAppendFrom, Views;
      ghost var total := RequestAppendFrom(Abs(), 0);
      ghost var sent: seq<Request> := [];
      var j := 0;
      while j < |peers| && !halted
        invariant j <= |peers| && outbox == old(outbox) + sent
        invariant Follows(total, RequestAppendFrom(Abs(), j), sent)
      {
        RequestOne(Abs(), j);
        if j != id {
          ghost var a := RequestAppend(Abs(), j);
          var ok := RequestAppendEntriesTo(j);
          Joined(old(outbox), sent, a.sends, RequestAppendFrom(a.s, j + 1).sends);
          sent := sent + a.sends;
        }
        j := j + 1;
      }
      RequestOne(Abs(), j);
      Joined(old(outbox), sent, [], []);
    }

    // commit: a leader sends to every free peer and marks the busy ones.
    method Commit(targetIdx: nat)
      requires Wired()
      modifies this`outbox, this`halted, this`quickCommitIdx, peers
      ensures Did(ServerSpec.Commit(old(Abs()), targetIdx))
    {
      if targetIdx > quickCommitIdx {
        quickCommitIdx := targetIdx;
        assert Abs() == old(Abs()).(quickCommit := targetIdx);
        if role == Leader { NotifyPeers(); }
      }
    }

    method NotifyPeers()
      requires Wired()
      modifies this`outbox, this`halted, peers
      ensures Did(NotifyFrom(old(Abs()), 0))
    {
      hide Notify, NotifyFrom, Views;
      ghost var total := NotifyFrom(Abs(), 0);
      ghost var sent: seq<Request> := [];
      var j := 0;
      while j < |peers| && !halted
        invariant j <= |peers| && outbox == old(outbox) + sent
        invariant Follows(total, NotifyFrom(Abs(), j), sent)
      {
        NotifyOne(Abs(), j);
        if j != id {
          ghost var a := Notify(Abs(), j);
          NotifyPeer(j);
          Joined(old(outbox), sent, a.sends, NotifyFrom(a.s, j + 1).sends);
          sent := sent + a.sends;
        }
        j := j + 1;
      }
      NotifyOne(Abs(), j);
      Joined(old(outbox), sent, [], []);
    }

    method NotifyPeer(j: nat)
      requires Wired() && j < |peers|
      modifies this`outbox, this`halted, peers
      ensures Did(Notify(old(Abs()), j))
    {
      hide CreateAppend;
      var ok := RequestAppendEntriesTo(j);
      if !ok {
        var p := peers[j];
        p.pendingCommitFlag := true;
        assert Views() == old(Views())[j := old(Views())[j].(pending := true)];
      }
    }

    // ---------------------------------------------------------------- terms and roles

    method SaveState()
      modifies this`disk
      ensures Abs() == ServerSpec.SaveState(old(Abs())) && outbox == old(outbox)
      ensures disk.term == state.term && disk.votedFor == state.votedFor
    {
      disk := disk.(term := state.term, votedFor := state.votedFor, commitIdx := state.commitIdx);
    }

    method BecomeFollower()
      modifies this`role, this`timerOn
      ensures Did(Out(ServerSpec.BecomeFollower(old(Abs())), []))
    {
      role, timerOn := Follower, true;
    }

    // update_term: the new term is saved before the server acts on it.
    method UpdateTerm(t: nat) returns (updated: bool)
      requires Valid()
      modifies this, state
      ensures updated == (t > old(state.term)) && Valid()
      ensures Did(Out(ServerSpec.UpdateTerm(old(Abs()), t), []))
    {
      hide Views;
      if t > state.term {
        state.term, state.votedFor := t, None;
        electionCompleted, votesGranted, votesResponded := false, 0, 0;
        SaveState();
        BecomeFollower();
        return true;
      }
      updated := false;
    }

    // ---------------------------------------------------------------- elections

    method BecomeLeader()
      requires Wired()
      modifies this, peers
      ensures Did(ServerSpec.BecomeLeader(guards, old(Abs())))
      ensures disk == old(disk)
    {
      hide RequestAppendAll;
      Inaugurate();
      RequestAppendEntries();
    }

    method Inaugurate()
      requires Wired()
      modifies this`timerOn, this`role, this`leader, this`log, this`configIdx, this`configChanging, peers
      ensures Abs() == TakeOffice(guards, old(Abs()))
    {
      Lead();
      assert Views() == TakeOffice(guards, old(Abs())).peers;
      if configIdx == 0 {
        configIdx := |log| + 1;
        log := log + [Entry(state.term, Conf(configIdx))];
        configChanging := true;
      }
    }

    method Lead()
      requires Wired()
      modifies this`timerOn, this`role, this`leader, peers
      ensures Abs() == old(Abs()).(timerOn := false, role := Leader, leader := Some(id), peers := Views())
      ensures forall k :: 0 <= k < |peers| ==> Views()[k] == FreshPeer(guards, old(Views())[k], |log| + 1)
    {
      timerOn := false;
      role, leader := Leader, Some(id);
      FreshenPeers(|log| + 1);
    }

    method FreshenPeers(slot: nat)
      requires Wired()
      modifies peers
      ensures forall k :: 0 <= k < |peers| ==> peers[k].View() == FreshPeer(guards, old(peers[k].View()), slot)
    {
      var j := 0;
      while j < |peers|
        invariant j <= |peers|
        invariant forall k :: 0 <= k < j ==> peers[k].View() == FreshPeer(guards, old(peers[k].View()), slot)
        invariant forall k :: j <= k < |peers| ==> peers[k].View() == old(peers[k].View())
      {
        var p := peers[j];
        p.nextLogIdx := slot;
        if guards.resetMatched { p.matchedIdx := 0; }
        p.busyFlag := false;
        j := j + 1;
      }
    }

    // The timer fires: it is off until it is started again.
    method HandleElectionTimeout()
      requires Valid()
      modifies this, state, peers
      ensures Valid() && Did(ElectionTimeout(guards, old(Abs())))
    {
      hide ServerSpec.BecomeLeader, VoteRequestsFrom;
      timerOn := false;
      if role == Leader {
        halted := true;
        return;
      }
      Stand(old(Abs()));
      RequestVote();
      if role != Leader { timerOn := true; }
    }

    // A new term, and the candidate's vote for itself, each saved in turn.
    method Stand(ghost s: Server)
      requires Wired() && Abs() == s.(timerOn := false)
      modifies this`role, this`votesGranted, this`votesResponded, this`electionCompleted, this`disk, state
      ensures Valid() && Abs() == StandForElection(s) && role == Candidate && votesGranted == 1
    {
      EnterTerm();
      state.votedFor := Some(id);
      SaveState();
      votesGranted, votesResponded := votesGranted + 1, votesResponded + 1;
    }

    method EnterTerm()
      modifies this`role, this`votesGranted, this`votesResponded, this`electionCompleted, this`disk, state
      ensures Abs() == ServerSpec.SaveState(old(Abs()).(term := old(state.term) + 1, votedFor := None,
              role := Candidate,
                                                        granted := 0, responded := 0, electionDone := false))
    {
      state.term, state.votedFor := state.term + 1, None;
      role, votesGranted, votesResponded, electionCompleted := Candidate, 0, 0, false;
      SaveState();
    }

    // The rest of request_vote, once the candidate has voted for itself.
    method RequestVote()
      requires Wired() && role == Candidate && votesGranted == 1
      modifies this, peers
      ensures disk == old(disk) && (role == Leader <==> 1 > |peers| / 2)
      ensures Did(if 1 > |peers| / 2 then ServerSpec.BecomeLeader(guards, old(Abs()).(electionDone := true))
                  else Out(old(Abs()), VoteRequestsFrom(old(Abs()), 0)))
    {
      if votesGranted > |peers| / 2 {
        electionCompleted := true;
        assert Abs() == old(Abs()).(electionDone := true);
        BecomeLeader();
        LeaderStays(guards, old(Abs()).(electionDone := true));
        return;
      }
      SendBallots();
    }

    method SendBallots()
      requires Wired()
      modifies this`outbox
      ensures Did(Out(old(Abs()), VoteRequestsFrom(old(Abs()), 0)))
    {
      hide Views, VoteRequestsFrom;
      ghost var s := Abs();
      var j := 0;
      ghost var sent: seq<Request> := [];
      while j < |peers|
        invariant j <= |peers| && outbox == old(outbox) + sent && Abs() == s
        invariant sent + VoteRequestsFrom(s, j) == VoteRequestsFrom(s, 0)
        modifies this`outbox
      {
        BallotsOne(s, j);
        if j != id {
          var req := VoteReq(state.term, id, j, TermAt(log, |log|), |log|, state.commitIdx);
          outbox := outbox + [req];
          Joined(old(outbox), sent, [req], VoteRequestsFrom(s, j + 1));
          sent := sent + [req];
        }
        j := j + 1;
      }
      BallotsOne(s, j);
      Joined(old(outbox), sent, [], []);
    }

    method HandleVotingResp(accepted: bool)
      requires Wired()
      modifies this, peers
      ensures disk == old(disk) && Did(ServerSpec.HandleVotingResp(guards, old(Abs()), accepted))
    {
      hide ServerSpec.BecomeLeader, HandlingOfVote, Views;
      var done := electionCompleted;
      CountVote(accepted);
      if done { return; }
      if votesGranted > |peers| / 2 {
        electionCompleted := true;
        BecomeLeader();
      }
    }

    // Nothing but the number of responses changes once the election is over.
    method CountVote(accepted: bool)
      requires Wired()
      modifies this`votesResponded, this`votesGranted, this`electionCompleted
      ensures Did(Out(HandlingOfVote(old(Abs()), accepted), []))
    {
      hide Views;
      votesResponded := votesResponded + 1;
      if electionCompleted { return; }
      if accepted { votesGranted := votesGranted + 1; }
      if votesResponded >= |peers| { electionCompleted := true; }
    }

    method HandleVoteReq(req: Request) returns (resp: Response)
      requires Valid() && req.VoteReq?
      modifies this, state
      ensures Valid()
      ensures var ans := ServerSpec.HandleVoteReq(old(Abs()), req); Did(ans.out) && Some(resp) == ans.resp
    {
      resp := VoteResp(state.term, id, req.src, 0, false);
      var lastTerm := TermAt(log, |log|);
      var logOkay := req.lastTerm > lastTerm || (req.lastTerm == lastTerm && |log| <= req.lastIdx);
      var grant := req.term == state.term && logOkay && (state.votedFor == Some(req.src) || state.votedFor == None);
      if grant {
        resp := resp.(accepted := true, next := |log| + 1);
        state.votedFor := Some(req.src);
        SaveState();
      }
    }

    // ---------------------------------------------------------------- entries

    // The first loop of handle_append_entries: how many entries the log holds already.
    method SkipAgreeing(prev: nat, entries: seq<Entry>) returns (logIdx: nat)
      requires prev <= |log|
      ensures logIdx == Agreeing(log, prev, entries) && prev + logIdx <= |log|
    {
      var idx := prev + 1;
      logIdx := 0;
      while idx < |log| + 1 && logIdx < |entries|
        invariant idx == prev + 1 + logIdx && idx <= |log| + 1 && logIdx <= |entries|
        invariant Agreeing(log, prev, entries) == logIdx + Agreeing(log, prev + logIdx, entries[logIdx..])
        decreases |entries| - logIdx
      {
        assert entries[logIdx..][1..] == entries[logIdx + 1..];
        if log[idx - 1].term == entries[logIdx].term {
          idx, logIdx := idx + 1, logIdx + 1;
        } else {
          break;
        }
      }
    }

    // The second loop: write_at drops what follows the entry it overwrites, so there is at most
    // one turn.
    method Overwrite(idx0: nat, entries: seq<Entry>, logIdx0: nat) returns (logIdx: nat)
      requires 1 <= idx0 <= |log| + 1 && logIdx0 <= |entries|
      modifies this`log, this`configChanging
      ensures if idx0 <= old(|log|) && logIdx0 < |entries|
              then logIdx == logIdx0 + 1 && log == old(log)[..idx0 - 1] + [entries[logIdx0]]
              else logIdx == logIdx0 && log == old(log)
    {
      var idx := idx0;
      logIdx := logIdx0;
      while idx < |log| + 1 && logIdx < |entries|
        invariant logIdx <= |entries|
        invariant if logIdx == logIdx0 then idx == idx0 && log == old(log)
                  else logIdx == logIdx0 + 1 && idx0 <= old(|log|) && idx == |log| + 1
                       && log == old(log)[..idx0 - 1] + [entries[logIdx0]]
        decreases |entries| - logIdx
      {
        if log[idx - 1].value.Conf? { configChanging := false; }
        log := log[..idx - 1] + [entries[logIdx]];
        idx, logIdx := idx + 1, logIdx + 1;
      }
    }

    // The third loop: what is left is appended.
    method AppendRest(entries: seq<Entry>, logIdx0: nat)
      requires logIdx0 <= |entries|
      modifies this`log, this`configChanging
      ensures log == old(log) + entries[logIdx0..]
    {
      var logIdx := logIdx0;
      while logIdx < |entries|
        invariant logIdx0 <= logIdx <= |entries| && log == old(log) + entries[logIdx0..logIdx]
      {
        assert entries[logIdx0..logIdx + 1] == entries[logIdx0..logIdx] + [entries[logIdx]];
        Longer(old(log), entries[logIdx0..logIdx], entries[logIdx]);
        log := log + [entries[logIdx]];
        if entries[logIdx].value.Conf? { configChanging := true; }
        logIdx := logIdx + 1;
      }
    }

    // The three loops together cut at the first conflict and append the rest.
    method MergeEntries(prev: nat, entries: seq<Entry>)
      requires prev <= |log|
      modifies this`log, this`configChanging
      ensures log == Merge(old(log), prev, entries)
    {
      hide Agreeing;
      var agreed := SkipAgreeing(prev, entries);
      var logIdx := Overwrite(prev + agreed + 1, entries, agreed);
      AppendRest(entries, logIdx);
      assert agreed == |entries| || log == old(log)[..prev + agreed] + entries[agreed..];
    }

    // A request of the current term: false if it comes from another leader.
    method HeardFrom(req: Request) returns (ok: bool)
      requires req.AppendReq?
      modifies this`role, this`timerOn, this`halted
      ensures ok == !(req.term == old(state.term) && old(role) == Leader)
      ensures !ok ==> Did(Out(old(Abs()).(halted := true), []))
      ensures ok ==> Did(Out(if req.term != old(state.term) then old(Abs())
                             else if old(role) == Candidate then ServerSpec.BecomeFollower(old(Abs()))
                             else old(Abs()).(timerOn := true), []))
    {
      if req.term == state.term {
        if role == Candidate {
          BecomeFollower();
        } else if role == Leader {
          halted := true;
          return false;
        } else {
          timerOn := true;
        }
      }
      ok := true;
    }

    method HandleAppendEntries(req: Request) returns (resp: Option<Response>)
      requires Wired() && req.AppendReq?
      modifies this, peers
      ensures disk == old(disk)
      ensures var ans := HandleAppendReq(guards, old(Abs()), req); Did(ans.out) && resp == ans.resp
    {
      hide Merge, ServerSpec.Commit;
      var ok := HeardFrom(req);
      if !ok { return None; }
      var logOkay := req.prevIdx == 0 || (req.prevIdx < |log| + 1 && req.prevTerm == TermAt(log, req.prevIdx));
      if req.term < state.term || !logOkay {
        return Some(AppendResp(state.term, id, req.src, |log| + 1, false));
      }
      Accept(req);
      resp := Some(AppendResp(state.term, id, req.src, req.prevIdx + |req.entries| + 1, true));
    }

    method Accept(req: Request)
      requires Wired() && req.AppendReq? && req.prevIdx <= |log|
      modifies this, peers
      ensures disk == old(disk)
      ensures var s := old(Abs()).(log := Merge(old(log), req.prevIdx, req.entries), leader := Some(req.src));
              Did(ServerSpec.Commit(s, CommitTarget(guards, req)))
    {
      hide Merge, ServerSpec.Commit, Views;
      MergeEntries(req.prevIdx, req.entries);
      leader := Some(req.src);
      assert Abs() == old(Abs()).(log := Merge(old(log), req.prevIdx, req.entries), leader := Some(req.src));
      var target := if guards.clampCommit then Min(req.commit, req.prevIdx + |req.entries|) else req.commit;
      assert target == CommitTarget(guards, req);
      hide CommitTarget, Abs, Min;
      Commit(target);
    }

    // process_req, for the two requests between servers.
    method ProcessReq(req: Request) returns (resp: Option<Response>)
      requires Valid()
      modifies this, state, peers
      ensures Valid()
      ensures var ans := ServerSpec.ProcessReq(guards, old(Abs()), req); Did(ans.out) && resp == ans.resp
    {
      hide ServerSpec.HandleVoteReq, HandleAppendReq, ServerSpec.UpdateTerm;
      var updated := UpdateTerm(req.term);
      if req.VoteReq? {
        var r := HandleVoteReq(req);
        resp := Some(r);
      } else {
        resp := HandleAppendEntries(req);
      }
    }

    // handle_cli_req. The client hears whether its entries were taken, where the log ends then, and
    // else which server to ask.
    method HandleCliReq(payloads: seq<int>) returns (resp: ClientResp)
      requires Wired()
      modifies this, peers
      ensures disk == old(disk) && Did(HandleClientReq(guards, old(Abs()), payloads))
      ensures old(role) == Leader ==>
                resp == ClientResp(old(state.term), old(leader), old(|log|) + |payloads| + 1, true)
      ensures old(role) != Leader ==> resp == ClientResp(old(state.term), old(leader), 0, false)
    {
      hide RequestAppendAll, RaftServer.Views;
      resp := ClientResp(state.term, leader, 0, false);
      if role != Leader { return; }
      AppendForClient(payloads);
      ghost var s := Abs();
      RequestAppendEntries();
      AllOnlySends(s);
      resp := resp.(next := |log| + 1, accepted := true);
    }

    method AppendForClient(payloads: seq<int>)
      modifies this`log
      ensures log == old(log) + Stamped(if guards.stampClient then state.term else CLIENT_TERM, payloads)
    {
      var t := if guards.stampClient then state.term else CLIENT_TERM;
      var i := 0;
      while i < |payloads|
        invariant i <= |payloads| && log == old(log) + Stamped(t, payloads[..i])
      {
        assert Stamped(t, payloads[..i + 1]) == Stamped(t, payloads[..i]) + [Entry(t, App(payloads[i]))];
        log := log + [Entry(t, App(payloads[i]))];
        i := i + 1;
      }
      assert payloads[..|payloads|] == payloads;
    }

    // ---------------------------------------------------------------- responses

    // The matched indices, the leader's own last index among them.
    method MatchedIndexes() returns (ms: seq<nat>)
      requires Wired()
      ensures ms == Matches(Abs())
    {
      ms := [];
      while |ms| < |peers|
        invariant |ms| <= |peers| && forall k :: 0 <= k < |ms| ==> ms[k] == Matches(Abs())[k]
      {
        ms := ms + [if |ms| == id then |log| else peers[|ms|].matchedIdx];
      }
    }

    // The median of the matched indices, after std::sort, is committed.
    method CommitByCounting()
      requires Wired() && peers != []
      modifies this`outbox, this`halted, this`quickCommitIdx, peers
      ensures Did(CommitMedian(guards, old(Abs())))
    {
      hide ServerSpec.Commit, Matches;
      var ms := MatchedIndexes();
      var m := SortDescending(ms)[|peers| / 2];
      if !guards.ownTerm || (m <= |log| && TermAt(log, m) == state.term) { Commit(m); }
    }

    // handle_append_entries_resp: peers_ holds the other servers of the cluster.
    method HandleAppendEntriesResp(resp: Response)
      requires Wired() && resp.AppendResp?
      modifies this, peers
      ensures disk == old(disk) && Did(HandleAppendResp(guards, old(Abs()), resp))
    {
      hide RequestAppend, NotePeerMatch, Views;
      if resp.src >= |peers| || resp.src == id { return; }
      if resp.accepted {
        GoOn(peers[resp.src], resp);
      } else {
        StepBack(peers[resp.src], resp);
        if role == Leader {
          var sent := RequestAppendEntriesTo(resp.src);
        }
      }
    }

    // The accepted half: commit by counting, then more entries if the peer lacks any.
    method GoOn(p: PeerNode, resp: Response)
      requires Wired() && resp.AppendResp? && resp.accepted && resp.src < |peers| && resp.src != id
      requires p == peers[resp.src]
      modifies this`outbox, this`halted, this`quickCommitIdx, peers
      ensures Did(HandleAppendResp(guards, old(Abs()), resp))
    {
      hide RequestAppend, NotePeerMatch, Views;
      NoteMatch(p, resp);
      if halted { return; }
      var pending := ClearPending(resp.src);
      if role == Leader && (pending || resp.next < |log| + 1) {
        var sent := RequestAppendEntriesTo(resp.src);
      }
    }

    method StepBack(p: PeerNode, resp: Response)
      requires Wired() && resp.src < |peers| && p == peers[resp.src]
      modifies p
      ensures Abs() == SetPeer(old(Abs()), resp.src, old(p.View()).(next := SteppedBack(old(p.nextLogIdx), resp.next)))
    {
      var further := resp.next > 0 && p.nextLogIdx > resp.next;
      p.nextLogIdx := if further then resp.next else Dec(p.nextLogIdx);
      assert Views() == old(Views())[resp.src := p.View()];
    }

    method NoteMatch(p: PeerNode, resp: Response)
      requires Wired() && resp.src < |peers| && p == peers[resp.src]
      modifies this`outbox, this`halted, this`quickCommitIdx, peers
      ensures Did(NotePeerMatch(guards, old(Abs()), resp))
    {
      hide CommitMedian;
      p.nextLogIdx := resp.next;
      p.matchedIdx := Dec(resp.next);
      assert Views() == old(Views())[resp.src := p.View()];
      CommitByCounting();
    }

    method ClearPending(j: nat) returns (was: bool)
      requires Wired() && j < |peers|
      modifies peers
      ensures was == old(peers[j].pendingCommitFlag)
      ensures Abs() == SetPeer(old(Abs()), j, old(peers[j].View()).(pending := false))
    {
      was := peers[j].ClearPendingCommit();
      assert Views() == old(Views())[j := peers[j].View()];
    }

    // handle_peer_resp, when there is no error.
    method HandlePeerResp(resp: Response)
      requires Valid()
      modifies this, state, peers
      ensures Valid() && Did(ServerSpec.HandlePeerResp(guards, old(Abs()), resp))
    {
      hide ServerSpec.HandleVotingResp, HandleAppendResp, ServerSpec.UpdateTerm;
      if resp.term > state.term {
        var updated := UpdateTerm(resp.term);
        return;
      }
      if guards.dropStale && resp.term < state.term { return; }
      if resp.VoteResp? { HandleVotingResp(resp.accepted); } else { HandleAppendEntriesResp(resp); }
    }

    // handle_rpc_result of peer.cxx: the peer is free before the response is handled, and
    // becomes so on an error too.
    method HandleRpcResult(req: Request, resp: Option<Response>)
      requires Valid() && req.dst < |peers|
      modifies this, state, peers
      ensures Valid()
      ensures var freed := FreePeer(old(Abs()), req);
              Did(if resp.None? then Out(freed, []) else ServerSpec.HandlePeerResp(guards, freed, resp.value))
    {
      hide ServerSpec.HandlePeerResp;
      if req.AppendReq? {
        var p := peers[req.dst];
        p.busyFlag := false;
        assert Views() == old(Views())[req.dst := p.View()];
      }
      assert Abs() == FreePeer(old(Abs()), req);
      if resp.Some? { HandlePeerResp(resp.value); }
    }

    // handle_hb_timeout.
    method HandleHbTimeout(j: nat)
      requires Wired() && j < |peers|
      modifies this`outbox, this`halted, peers
      ensures Did(if role == Leader then RequestAppend(old(Abs()), j) else Out(old(Abs()), []))
    {
      hide RequestAppend;
      if role == Leader { var sent := RequestAppendEntriesTo(j); }
    }

    // ---------------------------------------------------------------- applying

    // One turn of the loop of commit_in_bg; on the way out of it the state is saved.
    method CommitInBg()
      requires Valid() && CanApply(Abs())
      modifies this, state
      ensures Valid() && Did(Out(ApplyNext(old(Abs())), []))
    {
      ApplyEntry();
      if !(state.commitIdx < quickCommitIdx && state.commitIdx < |log|) { SaveState(); }
    }

    // The inner loop of commit_in_bg: everything up to the commit index or the end of the log.
    method CommitLoop()
      requires Valid()
      modifies this, state
      ensures Valid() && Abs() == AllApplied(old(Abs())) && outbox == old(outbox)
    {
      hide ApplyNext;
      while state.commitIdx < quickCommitIdx && state.commitIdx < |log|
        invariant Valid() && outbox == old(outbox) && AllApplied(Abs()) == AllApplied(old(Abs()))
        decreases |log| - state.commitIdx
      {
        NextApplied(Abs());
        CommitInBg();
        assert outbox + [] == outbox;
      }
    }

    method ApplyEntry()
      requires Valid() && CanApply(Abs())
      modifies this`delivered, this`disk, this`configIdx, this`configChanging, state`commitIdx
      ensures Valid() && Abs() == Applied(old(Abs()))
    {
      var idx := state.commitIdx + 1;
      var e := log[idx - 1];
      delivered := delivered + [Delivery(idx, e)];
      if e.value.Conf? {
        disk := disk.(configIdx := e.value.idx);
        configChanging := false;
        if configIdx < e.value.idx { configIdx := e.value.idx; }
      }
      state.SetCommitIdx(idx);
    }
  }

  function AllApplied(s: Server): Server
    decreases |s.log| - s.commitIdx
  {
    if CanApply(s) then
      NextApplied(s);
      AllApplied(ApplyNext(s))
    else s
  }

  lemma NextApplied(s: Server)
    requires CanApply(s)
    ensures var r := ApplyNext(s);
            && r.commitIdx == s.commitIdx + 1 && r.log == s.log && r.quickCommit == s.quickCommit && r.term == s.term
            && (!CanApply(r) ==> r.savedCommit == r.commitIdx)
            && r.delivered == s.delivered + [Delivery(s.commitIdx + 1, s.log[s.commitIdx])]
  {
  }

  // The entries of a stretch of a log, as they are handed to the state machine.
  function Stretch(log: seq<Entry>, from: nat, to: nat): seq<Delivery>
    requires from <= to <= |log|
  {
    seq(to - from, x requires 0 <= x < to - from => Delivery(from + x + 1, log[from + x]))
  }

  lemma StretchFirst(before: seq<Delivery>, log: seq<Entry>, from: nat, to: nat)
    requires from < to <= |log|
    ensures before + Stretch(log, from, to) == before + [Delivery(from + 1, log[from])] + Stretch(log, from + 1, to)
    ensures Stretch(log, to, to) == []
    ensures from + 1 == to ==> before + Stretch(log, from, to) == before + [Delivery(from + 1, log[from])]
  {
    assert Stretch(log, from, to) == [Delivery(from + 1, log[from])] + Stretch(log, from + 1, to);
  }

  // The state machine receives the entries between the old commit index and the new one,
  // ascending, each once, never past the commit index or the end of the log; if there were any, the
  // new commit index is on disk, so that a restart delivers none of them again.
  lemma {:induction false} AllAppliedMeans(s: Server)
    ensures var top := Min(s.quickCommit, |s.log|);
            var r := AllApplied(s);
            && r.commitIdx == (if top > s.commitIdx then top else s.commitIdx)
            && r.delivered == (if top > s.commitIdx then s.delivered + Stretch(s.log, s.commitIdx,
                 top) else s.delivered)
            && r.log == s.log && r.quickCommit == s.quickCommit && r.term == s.term
            && r.savedCommit == (if top > s.commitIdx then r.commitIdx else s.savedCommit)
            && Restart(r).commitIdx == r.savedCommit
    decreases |s.log| - s.commitIdx
  {
    hide ApplyNext, Stretch;
    if CanApply(s) {
      var top := Min(s.quickCommit, |s.log|);
      NextApplied(s);
      AllAppliedMeans(ApplyNext(s));
      StretchFirst(s.delivered, s.log, s.commitIdx, top);
    }
  }

  // One turn of the loop in commit.
  function Notify(s: Server, j: nat): Out
    requires j < |s.peers|
  {
    if s.peers[j].busy then Out(SetPeer(s, j, s.peers[j].(pending := true)), []) else RequestAppend(s, j)
  }

  lemma BallotsOne(s: Server, j: nat)
    requires j <= |s.peers|
    ensures j == |s.peers| ==> VoteRequestsFrom(s, j) == []
    ensures j < |s.peers| && j == s.id ==> VoteRequestsFrom(s, j) == VoteRequestsFrom(s, j + 1)
    ensures j < |s.peers| && j != s.id ==>
              VoteRequestsFrom(s, j) ==
              [VoteReq(s.term, s.id, j, LastTerm(s.log), |s.log|, s.commitIdx)] + VoteRequestsFrom(s, j + 1)
  {
    if j < |s.peers| && j == s.id {
      assert [] + VoteRequestsFrom(s, j + 1) == VoteRequestsFrom(s, j + 1);
    }
  }

  lemma RequestOne(s: Server, j: nat)
    requires j <= |s.peers|
    ensures j == |s.peers| || s.halted ==> RequestAppendFrom(s, j) == Out(s, [])
    ensures j < |s.peers| && !s.halted && j == s.id ==> RequestAppendFrom(s, j) == RequestAppendFrom(s, j + 1)
    ensures j < |s.peers| && !s.halted && j != s.id ==>
              var a := RequestAppend(s, j);
              |a.s.peers| == |s.peers| &&
              RequestAppendFrom(s, j) == Out(RequestAppendFrom(a.s, j + 1).s,
                                             a.sends + RequestAppendFrom(a.s, j + 1).sends)
  {
    hide RequestAppend;
    if j < |s.peers| && !s.halted && j != s.id {
      OneOnlySends(s, j);
    }
  }

  lemma NotifyOne(s: Server, j: nat)
    requires j <= |s.peers|
    ensures j == |s.peers| || s.halted ==> NotifyFrom(s, j) == Out(s, [])
    ensures j < |s.peers| && !s.halted && j == s.id ==> NotifyFrom(s, j) == NotifyFrom(s, j + 1)
    ensures j < |s.peers| && !s.halted && j != s.id ==>
              var a := Notify(s, j);
              |a.s.peers| == |s.peers| &&
              NotifyFrom(s, j) == Out(NotifyFrom(a.s, j + 1).s, a.sends + NotifyFrom(a.s, j + 1).sends)
  {
    hide RequestAppend;
    if j < |s.peers| && !s.halted && j != s.id {
      OneOnlySends(s, j);
      var b := NotifyFrom(Notify(s, j).s, j + 1);
      assert [] + b.sends == b.sends;
    }
  }

  // What is still to come completes what was sent so far.
  ghost predicate Follows(total: Out, left: Out, sent: seq<Request>) {
    left.s == total.s && sent + left.sends == total.sends
  }

  lemma Longer(a: seq<Entry>, b: seq<Entry>, e: Entry)
    ensures a + b + [e] == a + (b + [e])
  {
  }

  lemma Joined(before: seq<Request>, sent: seq<Request>, a: seq<Request>, b: seq<Request>)
    ensures before + sent + a == before + (sent + a)
    ensures sent + (a + b) == sent + a + b
    ensures sent + [] == sent && [] + a == a
  {
  }
}
