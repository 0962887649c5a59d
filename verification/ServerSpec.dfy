/** One server: its state and what each handler of raft_server.cxx makes of it.

    The functions follow the code branch by branch. Class RaftServer in module RaftServerClass
    executes the same handlers in place and is proved against them.

    A fatal exit of the process is the field `halted`: from then on the server does nothing
    until it is restarted. Server ids are 0 .. |peers|-1; the slot of a server in its own
    `peers` is not used. */
module ServerSpec {
  import opened RaftTypes
  import opened Median

  /** The five places where the code as it stands departs from the algorithm it implements.
      A guard that is off gives the code of the repository; one that is on gives what the
      Raft paper asks for at that place. */
  datatype Guards = Guards(
    stampClient: bool,   // client entries get the leader's term, not the client's
    dropStale: bool,     // responses of a lower term are ignored
    resetMatched: bool,  // a new leader starts with matched index 0 for every peer
    ownTerm: bool,       // a leader commits by counting only at entries of its own term
    clampCommit: bool)   // a follower takes the commit index only as far as the request reaches

  const AS_WRITTEN := Guards(false, false, false, false, false)
  const GUARDED := Guards(true, true, true, true, true)

  // The term that a client's request gives its entries.
  const CLIENT_TERM: nat := 0

  const ULONG_MAX: nat := 0xFFFF_FFFF_FFFF_FFFF

  // Unsigned decrement.
  function Dec(x: nat): nat {
    if x == 0 then ULONG_MAX else x - 1
  }

  datatype Peer = Peer(next: nat, matched: nat, busy: bool, pending: bool)

  const NEW_PEER := Peer(0, 0, false, false)

  // An entry handed to the state machine (or, for a configuration entry, to the configuration).
  datatype Delivery = Delivery(idx: nat, entry: Entry)

  datatype Server = Server(
    id: nat,
    maxAppend: nat,             // the parameter max_append_size_
    // persisted, together with savedCommit and savedConfigIdx
    term: nat,
    votedFor: Option<nat>,
    log: seq<Entry>,
    // volatile
    role: Role,
    leader: Option<nat>,
    granted: nat,
    responded: nat,
    electionDone: bool,
    quickCommit: nat,
    commitIdx: nat,
    configIdx: nat,
    peers: seq<Peer>,
    timerOn: bool,
    halted: bool,
    savedCommit: nat,
    savedConfigIdx: nat,
    // bookkeeping of the environment: restarts, and all that was ever delivered
    epoch: nat,
    bootMark: nat,              // |delivered| at the last restart
    bootCommit: nat,            // commit index at the last restart
    delivered: seq<Delivery>)

  // A handler's effect: the new state and the requests it sends, in order.
  datatype Out = Out(s: Server, sends: seq<Request>)

  // ---------------------------------------------------------------- terms and roles

  function SaveState(s: Server): Server {
    s.(savedCommit := s.commitIdx)
  }

  function BecomeFollower(s: Server): Server {
    s.(role := Follower, timerOn := true)
  }

  function UpdateTerm(s: Server, t: nat): Server {
    if t > s.term then
      BecomeFollower(SaveState(
        s.(term := t, votedFor := None, electionDone := false, granted := 0, responded := 0)))
    else s
  }

  // ---------------------------------------------------------------- sending entries

  function SetPeer(s: Server, j: nat, p: Peer): Server
    requires j < |s.peers|
  {
    s.(peers := s.peers[j := p])
  }

  function Min(a: nat, b: nat): nat {
    if a < b then a else b
  }

  // create_append_entries_req, for a peer that was just made busy.
  function CreateAppend(s: Server, j: nat): Out
    requires j < |s.peers|
  {
    var next := if s.peers[j].next == 0 then |s.log| + 1 else s.peers[j].next;
    var s1 := SetPeer(s, j, s.peers[j].(next := next, busy := true));
    var prev := next - 1;
    if prev > |s.log| then Out(s1.(halted := true), [])
    else
      var entries := s.log[prev..Min(|s.log|, prev + s.maxAppend)];
      Out(s1, [AppendReq(s.term, s.id, j, TermAt(s.log, prev), prev, s.quickCommit, entries)])
  }

  // request_append_entries for one peer: nothing is sent to a busy peer.
  function RequestAppend(s: Server, j: nat): Out
    requires j < |s.peers|
  {
    if s.peers[j].busy then Out(s, []) else CreateAppend(s, j)
  }

  function RequestAppendFrom(s: Server, j: nat): Out
    requires j <= |s.peers|
    ensures |RequestAppendFrom(s, j).s.peers| == |s.peers|
    decreases |s.peers| - j
  {
    if j == |s.peers| || s.halted then Out(s, [])
    else if j == s.id then RequestAppendFrom(s, j + 1)
    else
      var a := RequestAppend(s, j);
      var b := RequestAppendFrom(a.s, j + 1);
      Out(b.s, a.sends + b.sends)
  }

  // The notifications of `commit`: a free peer is sent a request, a busy one is marked.
  function NotifyFrom(s: Server, j: nat): Out
    requires j <= |s.peers|
    ensures |NotifyFrom(s, j).s.peers| == |s.peers|
    decreases |s.peers| - j
  {
    if j == |s.peers| || s.halted then Out(s, [])
    else if j == s.id then NotifyFrom(s, j + 1)
    else if s.peers[j].busy then NotifyFrom(SetPeer(s, j, s.peers[j].(pending := true)), j + 1)
    else
      var a := RequestAppend(s, j);
      var b := NotifyFrom(a.s, j + 1);
      Out(b.s, a.sends + b.sends)
  }

  // Sending changes nothing but the peers, and may end in a fatal exit.
  ghost predicate OnlySent(s: Server, r: Server) {
    r == s.(peers := r.peers, halted := r.halted) && |r.peers| == |s.peers|
  }

  lemma OneOnlySends(s: Server, j: nat)
    requires j < |s.peers|
    ensures OnlySent(s, RequestAppend(s, j).s)
  {
  }

  lemma {:induction false} LoopsOnlySend(s: Server, j: nat)
    requires j <= |s.peers|
    ensures OnlySent(s, RequestAppendFrom(s, j).s) && OnlySent(s, NotifyFrom(s, j).s)
    decreases |s.peers| - j
  {
    hide RequestAppend;
    if j < |s.peers| {
      OneOnlySends(s, j);
      LoopsOnlySend(s, j + 1);
      LoopsOnlySend(SetPeer(s, j, s.peers[j].(pending := true)), j + 1);
      LoopsOnlySend(RequestAppend(s, j).s, j + 1);
    }
  }

  function Commit(s: Server, target: nat): Out
    ensures |Commit(s, target).s.peers| == |s.peers|
  {
    if target <= s.quickCommit then Out(s, [])
    else
      var s1 := s.(quickCommit := target);
      if s1.role == Leader then NotifyFrom(s1, 0) else Out(s1, [])
  }

  function RequestAppendAll(s: Server): Out {
    if |s.peers| == 1 then Commit(s, |s.log|) else RequestAppendFrom(s, 0)
  }

  lemma CommitOnlySends(s: Server, target: nat)
    ensures var r := Commit(s, target).s; OnlySent(s.(quickCommit := r.quickCommit), r)
  {
    LoopsOnlySend(s.(quickCommit := target), 0);
  }

  lemma AllOnlySends(s: Server)
    ensures var r := RequestAppendAll(s).s; OnlySent(s.(quickCommit := r.quickCommit), r)
  {
    CommitOnlySends(s, |s.log|);
    LoopsOnlySend(s, 0);
  }

  // ---------------------------------------------------------------- elections

  function FreshPeer(g: Guards, p: Peer, next: nat): Peer {
    p.(next := next, busy := false, matched := if g.resetMatched then 0 else p.matched)
  }

  // The state a winner has before it sends its first requests.
  function TakeOffice(g: Guards, s: Server): Server {
    var slot := |s.log| + 1;
    var s1 := s.(timerOn := false, role := Leader, leader := Some(s.id),
                 peers := seq(|s.peers|, j requires 0 <= j < |s.peers| => FreshPeer(g, s.peers[j], slot)));
    if s1.configIdx == 0
    then s1.(configIdx := slot, log := s1.log + [Entry(s1.term, Conf(slot))])
    else s1
  }

  function BecomeLeader(g: Guards, s: Server): Out {
    RequestAppendAll(TakeOffice(g, s))
  }

  // A server that takes office is a leader afterwards, whatever it sends first.
  lemma LeaderStays(g: Guards, s: Server)
    ensures BecomeLeader(g, s).s.role == Leader
  {
    AllOnlySends(TakeOffice(g, s));
  }

  function VoteRequestsFrom(s: Server, j: nat): seq<Request>
    requires j <= |s.peers|
    decreases |s.peers| - j
  {
    if j == |s.peers| then []
    else
      (if j == s.id then []
       else [VoteReq(s.term, s.id, j, LastTerm(s.log), |s.log|, s.commitIdx)]) + VoteRequestsFrom(s, j + 1)
  }

  // The candidate's state once it has voted for itself.
  function StandForElection(s: Server): Server {
    SaveState(s.(timerOn := false, term := s.term + 1, role := Candidate, votedFor := Some(s.id),
                 granted := 1, responded := 1, electionDone := false))
  }

  function ElectionTimeout(g: Guards, s: Server): Out {
    if s.role == Leader then Out(s.(timerOn := false, halted := true), [])
    else
      var s1 := StandForElection(s);
      if 1 > |s1.peers| / 2 then BecomeLeader(g, s1.(electionDone := true))
      else Out(s1.(timerOn := true), VoteRequestsFrom(s1, 0))
  }

  // The state after counting an answer, before a possible change of role.
  function HandlingOfVote(s: Server, accepted: bool): Server {
    var s1 := s.(responded := s.responded + 1);
    if s1.electionDone then s1
    else
      var s2 := if accepted then s1.(granted := s1.granted + 1) else s1;
      if s2.responded >= |s2.peers| then s2.(electionDone := true) else s2
  }

  function HandleVotingResp(g: Guards, s: Server, accepted: bool): Out {
    var r := HandlingOfVote(s, accepted);
    if !s.electionDone && r.granted > |r.peers| / 2 then BecomeLeader(g, r.(electionDone := true)) else Out(r, [])
  }

  // ---------------------------------------------------------------- requests

  // Answer to a request; None when the process exited instead.
  datatype Answer = Answer(out: Out, resp: Option<Response>)

  function HandleVoteReq(s: Server, req: Request): Answer
    requires req.VoteReq?
  {
    var grant := req.term == s.term && UpToDate(req.lastTerm, req.lastIdx, s.log)
                 && (s.votedFor == None || s.votedFor == Some(req.src));
    if grant then
      Answer(Out(SaveState(s.(votedFor := Some(req.src))), []),
             Some(VoteResp(s.term, s.id, req.src, |s.log| + 1, true)))
    else
      Answer(Out(s, []), Some(VoteResp(s.term, s.id, req.src, 0, false)))
  }

  predicate LogOkay(s: Server, req: Request)
    requires req.AppendReq?
  {
    req.prevIdx == 0 || (req.prevIdx <= |s.log| && req.prevTerm == TermAt(s.log, req.prevIdx))
  }

  // How far a follower takes the leader's commit index.
  function CommitTarget(g: Guards, req: Request): nat
    requires req.AppendReq?
  {
    if g.clampCommit then Min(req.commit, req.prevIdx + |req.entries|) else req.commit
  }

  function HandleAppendReq(g: Guards, s: Server, req: Request): Answer
    requires req.AppendReq?
  {
    if req.term == s.term && s.role == Leader then Answer(Out(s.(halted := true), []), None)
    else
      var s1 := if req.term != s.term then s
                else if s.role == Candidate then BecomeFollower(s) else s.(timerOn := true);
      if req.term < s1.term || !LogOkay(s1, req) then
        Answer(Out(s1, []), Some(AppendResp(s1.term, s1.id, req.src, |s1.log| + 1, false)))
      else
        var s2 := s1.(log := Merge(s1.log, req.prevIdx, req.entries), leader := Some(req.src));
        Answer(Commit(s2, CommitTarget(g, req)),
               Some(AppendResp(s1.term, s1.id, req.src, req.prevIdx + |req.entries| + 1, true)))
  }

  function ProcessReq(g: Guards, s: Server, req: Request): Answer {
    var s1 := UpdateTerm(s, req.term);
    if req.VoteReq? then HandleVoteReq(s1, req) else HandleAppendReq(g, s1, req)
  }

  function Stamped(term: nat, payloads: seq<int>): seq<Entry> {
    seq(|payloads|, i requires 0 <= i < |payloads| => Entry(term, App(payloads[i])))
  }

  function HandleClientReq(g: Guards, s: Server, payloads: seq<int>): Out {
    if s.role != Leader then Out(s, [])
    else
      var t := if g.stampClient then s.term else CLIENT_TERM;
      RequestAppendAll(s.(log := s.log + Stamped(t, payloads)))
  }

  // ---------------------------------------------------------------- responses

  // The highest index each server is known to hold; for itself, the end of the log.
  function Matches(s: Server): (ms: seq<nat>)
    ensures |ms| == |s.peers|
  {
    seq(|s.peers|, j requires 0 <= j < |s.peers| => if j == s.id then |s.log| else s.peers[j].matched)
  }

  predicate MayCommit(g: Guards, s: Server, idx: nat) {
    !g.ownTerm || (idx <= |s.log| && TermAt(s.log, idx) == s.term)
  }

  function CommitMedian(g: Guards, s: Server): Out
    requires s.peers != []
    ensures |CommitMedian(g, s).s.peers| == |s.peers|
  {
    var m := MedianOf(Matches(s));
    if MayCommit(g, s, m) then Commit(s, m) else Out(s, [])
  }

  // An accepted response, up to the point where more entries may be sent to the same peer.
  function NotePeerMatch(g: Guards, s: Server, resp: Response): Out
    requires resp.src < |s.peers|
    ensures |NotePeerMatch(g, s, resp).s.peers| == |s.peers|
  {
    var p := s.peers[resp.src];
    CommitMedian(g, SetPeer(s, resp.src, p.(next := resp.next, matched := Dec(resp.next))))
  }

  // Where to try next after a rejection: at the follower's end if that is further back, else
  // one entry earlier.
  function SteppedBack(next: nat, hint: nat): nat {
    if hint > 0 && next > hint then hint else Dec(next)
  }

  // A response from a server that is not a peer is ignored.
  predicate KnownPeer(s: Server, j: nat) {
    j < |s.peers| && j != s.id
  }

  function HandleAppendResp(g: Guards, s: Server, resp: Response): Out {
    var j := resp.src;
    if !KnownPeer(s, j) then Out(s, [])
    else if resp.accepted then
      var a := NotePeerMatch(g, s, resp);
      if a.s.halted then a
      else
        var p := a.s.peers[j];
        var s1 := SetPeer(a.s, j, p.(pending := false));
        var catchUp := p.pending || resp.next < |s1.log| + 1;
        if s1.role == Leader && catchUp then
          var b := RequestAppend(s1, j);
          Out(b.s, a.sends + b.sends)
        else Out(s1, a.sends)
    else
      var p := s.peers[j];
      var s1 := SetPeer(s, j, p.(next := SteppedBack(p.next, resp.next)));
      if s1.role == Leader then RequestAppend(s1, j) else Out(s1, [])
  }

  function HandlePeerResp(g: Guards, s: Server, resp: Response): Out {
    if resp.term > s.term then Out(UpdateTerm(s, resp.term), [])
    else if g.dropStale && resp.term < s.term then Out(s, [])
    else if resp.VoteResp? then HandleVotingResp(g, s, resp.accepted)
    else HandleAppendResp(g, s, resp)
  }

  // The peer becomes free when its request completes, with a response or an error.
  function FreePeer(s: Server, req: Request): Server
    requires req.dst < |s.peers|
  {
    if req.AppendReq? then SetPeer(s, req.dst, s.peers[req.dst].(busy := false)) else s
  }

  // ---------------------------------------------------------------- applying, crashing

  predicate CanApply(s: Server) {
    s.commitIdx < s.quickCommit && s.commitIdx < |s.log|
  }

  // The next entry goes to the state machine, a configuration entry to the configuration.
  function Applied(s: Server): Server
    requires CanApply(s)
  {
    var idx := s.commitIdx + 1;
    var e := s.log[idx - 1];
    var s1 := s.(delivered := s.delivered + [Delivery(idx, e)], commitIdx := idx);
    if e.value.Conf?
    then s1.(savedConfigIdx := e.value.idx,
            configIdx := if s1.configIdx < e.value.idx then e.value.idx else s1.configIdx)
    else s1
  }

  // One turn of the background loop; the state is saved when the loop has caught up.
  function ApplyNext(s: Server): Server
    requires CanApply(s)
  {
    if CanApply(Applied(s)) then Applied(s) else SaveState(Applied(s))
  }

  function Restart(s: Server): Server {
    s.(role := Follower, leader := None, granted := 0, responded := 0, electionDone := true,
       quickCommit := s.savedCommit, commitIdx := s.savedCommit, configIdx := s.savedConfigIdx,
       peers := seq(|s.peers|, j => NEW_PEER), timerOn := true, halted := false,
       epoch := s.epoch + 1, bootMark := |s.delivered|, bootCommit := s.savedCommit)
  }

  function InitServer(id: nat, n: nat, maxAppend: nat): Server {
    Server(id, maxAppend, 0, None, [], Follower, None, 0, 0, true, 0, 0, 0, seq(n, j => NEW_PEER),
           true, false, 0, 0, 0, 0, 0, [])
  }
}
