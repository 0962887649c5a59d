/** A fixed cluster of servers and every RPC they ever made.

    The network delivers a request at most once, in any order or never; the caller sees at most
    one outcome of an RPC, its response or an error, at any time or never; an error says nothing
    about whether the request arrived. A server may crash at any point between two handlers. */
module Cluster {
  import opened RaftTypes
  import opened ServerSpec

  // `epoch` is the sender's incarnation: a response never reaches a later one.
  datatype Rpc = Rpc(req: Request, epoch: nat, reply: Option<Response>, open: bool)

  datatype Cluster = Cluster(servers: seq<Server>, rpcs: seq<Rpc>)

  datatype Action =
    | Timeout(i: nat)
    | ClientCall(i: nat, payloads: seq<int>)
    | Heartbeat(i: nat, j: nat)
    | Deliver(k: nat)
    | Return(k: nat)
    | Fail(k: nat)
    | ApplyOne(i: nat)
    | Crash(i: nat)

  // A cluster starts with empty logs; caps[i] is max_append_size_ of server i.
  function Init(caps: seq<nat>): Cluster {
    Cluster(seq(|caps|, i requires 0 <= i < |caps| => InitServer(i, |caps|, caps[i])), [])
  }

  predicate Alive(c: Cluster, i: nat) {
    i < |c.servers| && !c.servers[i].halted
  }

  // The sender of RPC k is still the process that made it and has not yet seen its outcome.
  predicate Awaited(c: Cluster, k: nat) {
    && k < |c.rpcs|
    && var r := c.rpcs[k];
    && r.open
    && Alive(c, r.req.src)
    && c.servers[r.req.src].epoch == r.epoch
    && r.req.dst < |c.servers[r.req.src].peers|
  }

  predicate Enabled(c: Cluster, a: Action) {
    match a
    case Timeout(i) => Alive(c, i) && c.servers[i].timerOn
    case ClientCall(i, _) => Alive(c, i)
    case Heartbeat(i, j) =>
      Alive(c, i) && c.servers[i].role == Leader && j < |c.servers[i].peers| && i != j
    case Deliver(k) => k < |c.rpcs| && c.rpcs[k].reply == None && Alive(c, c.rpcs[k].req.dst)
    case Return(k) => Awaited(c, k) && c.rpcs[k].reply.Some?
    case Fail(k) => Awaited(c, k)
    case ApplyOne(i) => Alive(c, i) && CanApply(c.servers[i])
    case Crash(i) => i < |c.servers|
  }

  function Posted(reqs: seq<Request>, epoch: nat): seq<Rpc> {
    seq(|reqs|, x requires 0 <= x < |reqs| => Rpc(reqs[x], epoch, None, true))
  }

  // Server i ends in out.s and has sent out.sends.
  function Emit(c: Cluster, i: nat, out: Out): Cluster
    requires i < |c.servers|
  {
    Cluster(c.servers[i := out.s], c.rpcs + Posted(out.sends, out.s.epoch))
  }

  // A step that is not enabled changes nothing.
  function Step(g: Guards, c: Cluster, a: Action): Cluster {
    if !Enabled(c, a) then c
    else
      match a
      case Timeout(i) => Emit(c, i, ElectionTimeout(g, c.servers[i]))
      case ClientCall(i, payloads) => Emit(c, i, HandleClientReq(g, c.servers[i], payloads))
      case Heartbeat(i, j) => Emit(c, i, RequestAppend(c.servers[i], j))
      case Deliver(k) =>
        var i := c.rpcs[k].req.dst;
        var ans := ProcessReq(g, c.servers[i], c.rpcs[k].req);
        Emit(c.(rpcs := c.rpcs[k := c.rpcs[k].(reply := ans.resp)]), i, ans.out)
      case Return(k) =>
        var i := c.rpcs[k].req.src;
        var freed := FreePeer(c.servers[i], c.rpcs[k].req);
        var out := HandlePeerResp(g, freed, c.rpcs[k].reply.value);
        Emit(c.(rpcs := c.rpcs[k := c.rpcs[k].(open := false)]), i, out)
      case Fail(k) =>
        var i := c.rpcs[k].req.src;
        var freed := FreePeer(c.servers[i], c.rpcs[k].req);
        Emit(c.(rpcs := c.rpcs[k := c.rpcs[k].(open := false)]), i, Out(freed, []))
      case ApplyOne(i) => Emit(c, i, Out(ApplyNext(c.servers[i]), []))
      case Crash(i) => Emit(c, i, Out(Restart(c.servers[i]), []))
  }

  // A run: any actions in any order.
  function After(g: Guards, c: Cluster, acts: seq<Action>): Cluster
    decreases |acts|
  {
    if acts == [] then c else After(g, Step(g, c, acts[0]), acts[1..])
  }

  // The state of the cluster with these parameters after some actions.
  ghost predicate ReachableFrom(g: Guards, caps: seq<nat>, c: Cluster) {
    exists acts: seq<Action> :: c == After(g, Init(caps), acts)
  }

  // The state of some cluster after some actions.
  ghost predicate Reachable(g: Guards, c: Cluster) {
    exists caps: seq<nat> :: ReachableFrom(g, caps, c)
  }

  lemma {:induction false} AfterOneMore(g: Guards, c: Cluster, acts: seq<Action>, a: Action)
    ensures After(g, c, acts + [a]) == Step(g, After(g, c, acts), a)
    decreases |acts|
  {
    if acts == [] {
      assert (acts + [a])[1..] == [];
    } else {
      assert (acts + [a])[1..] == acts[1..] + [a];
      AfterOneMore(g, Step(g, c, acts[0]), acts[1..], a);
    }
  }

  lemma ReachStep(g: Guards, caps: seq<nat>, c: Cluster, a: Action)
    requires ReachableFrom(g, caps, c)
    ensures ReachableFrom(g, caps, Step(g, c, a))
  {
    var acts: seq<Action> :| c == After(g, Init(caps), acts);
    AfterOneMore(g, Init(caps), acts, a);
    assert Step(g, c, a) == After(g, Init(caps), acts + [a]);
  }

  // Section 5.4.3 of the Raft paper, over everything any server ever delivered: whatever two
  // servers, or one server before and after restarts, delivered at one index is the same entry.
  ghost predicate StateMachineSafe(c: Cluster) {
    forall i: nat, j: nat, x: nat, y: nat ::
      i < |c.servers| && x < |c.servers[i].delivered| &&
      j < |c.servers| && y < |c.servers[j].delivered| &&
      c.servers[i].delivered[x].idx == c.servers[j].delivered[y].idx ==>
        c.servers[i].delivered[x].entry == c.servers[j].delivered[y].entry
  }
}
