/** A snapshot sent block by block to a peer that has fallen behind the log (raft_server.cxx), one
    request in flight: what the peer receives, and for which snapshots the transfer ends. */
module SnapshotTransfer {
  import opened RaftTypes
  import opened Bytes

  const DEFAULT_BLOCK_SIZE: int32 := 4096

  function BlockSize(parameter: int32): int32 {
    if parameter == 0 then DEFAULT_BLOCK_SIZE else parameter
  }

  // The length of the block at an offset: what is left is counted in an int32. None when it
  // comes out negative, which no buffer can be allocated for.
  function BlockLength(size: nat, offset: nat, block: int32): (n: Option<nat>)
    requires offset <= size
  {
    var left := Signed(size - offset);
    var n := if block < left then block else left;
    if n < 0 then None else Some(n)
  }

  datatype Block = Block(offset: nat, data: seq<byte>, done: bool)

  // create_sync_snapshot_req, for a snapshot whose transfer has reached an offset.
  method CreateBlock(snapshot: seq<byte>, offset: nat, block: int32) returns (b: Option<Block>)
    requires offset <= |snapshot|
    ensures b.None? <==> BlockLength(|snapshot|, offset, block).None?
    ensures b.Some? ==> var n := BlockLength(|snapshot|, offset, block).value;
                        && offset + n <= |snapshot|
                        && b.value == Block(offset, snapshot[offset..offset + n], offset + n >= |snapshot|)
  {
    LengthFits(|snapshot| - offset);
    var szLeft := Signed(|snapshot| - offset);
    var sz := if block < szLeft then block else szLeft;
    if sz < 0 { return None; }
    b := Some(Block(offset, snapshot[offset..offset + sz], offset + sz >= |snapshot|));
  }

  lemma LengthFits(left: nat)
    ensures Signed(left) <= left
    ensures left < U32 / 2 ==> Signed(left) == left
    ensures left >= U32 / 2 && Signed(left) >= 0 ==> left - Signed(left) >= U32
  {
    var q, u := left / U32, left % U32;
    assert left == q * U32 + u;
  }

  // The blocks from offset `from` on cover the rest of the snapshot, each starting where the one
  // before it ended, none of them empty, only the last one marked done.
  ghost predicate Tile(blocks: seq<Block>, snapshot: seq<byte>, from: nat, to: nat)
    decreases |blocks|
  {
    if blocks == [] then from == to
    else
      var b := blocks[0];
      && b.offset == from && b.data != [] && from + |b.data| <= to <= |snapshot|
      && b.data == snapshot[from..from + |b.data|]
      && (b.done <==> from + |b.data| == |snapshot|)
      && Tile(blocks[1..], snapshot, from + |b.data|, to)
  }

  lemma {:induction false} TileOneMore(blocks: seq<Block>, snapshot: seq<byte>, from: nat, to: nat, b: Block)
    requires Tile(blocks, snapshot, from, to) && b.offset == to && b.data != [] && to + |b.data| <= |snapshot|
    requires b.data == snapshot[to..to + |b.data|] && (b.done <==> to + |b.data| == |snapshot|)
    ensures Tile(blocks + [b], snapshot, from, to + |b.data|)
    decreases |blocks|
  {
    if blocks == [] {
      assert (blocks + [b])[1..] == [];
    } else {
      TileOneMore(blocks[1..], snapshot, from + |blocks[0].data|, to, b);
      assert (blocks + [b])[1..] == blocks[1..] + [b];
    }
  }

  // Put together, the blocks are the snapshot.
  function Joined(blocks: seq<Block>): seq<byte> {
    if blocks == [] then [] else blocks[0].data + Joined(blocks[1..])
  }

  lemma {:induction false} TilesJoin(blocks: seq<Block>, snapshot: seq<byte>, from: nat, to: nat)
    requires Tile(blocks, snapshot, from, to)
    ensures from <= to && (blocks != [] ==> to <= |snapshot|)
    ensures blocks != [] ==> Joined(blocks) == snapshot[from..to]
    decreases |blocks|
  {
    if blocks != [] {
      var m, rest := from + |blocks[0].data|, blocks[1..];
      TilesJoin(rest, snapshot, m, to);
      assert Joined(rest) == if rest == [] then [] else snapshot[m..to];
      assert snapshot[from..to] == snapshot[from..m] + snapshot[m..to];
    }
  }

  // ---------------------------------------------------------------- losses, retries and restarts

  // What becomes of one round: does the block arrive, does the peer's log store compact when it
  // is the last one, does the answer arrive?
  datatype Outcome = Outcome(delivered: bool, compacts: bool, answered: bool)

  const GOOD := Outcome(true, true, true)

  /** One round, or a start from offset 0: the leader has a newer snapshot, or there is a new
      leader, which has forgotten how far its predecessor came. */
  datatype Event = Try(o: Outcome) | Restart(snapshot: seq<byte>, lastIdx: nat)

  /** Both ends of a transfer: the snapshot and its last index, the leader's offset and the blocks
      it got an acceptance for, every block of this snapshot the peer saved since it began, the
      peer's commit index, whether the peer installed the snapshot and whether the leader knows. */
  datatype Session = Session(snapshot: seq<byte>, lastIdx: nat, offset: nat, accepted: seq<Block>, saved: seq<Block>,
                             peerCommit: nat, installed: bool, done: bool)

  function Begin(snapshot: seq<byte>, lastIdx: nat, peerCommit: nat): Session {
    Session(snapshot, lastIdx, 0, [], [], peerCommit, false, false)
  }

  // A size an int32 can hold.
  predicate Fits(snapshot: seq<byte>) {
    1 <= |snapshot| < U32 / 2
  }

  predicate AllFit(events: seq<Event>) {
    forall e :: e in events && e.Restart? ==> Fits(e.snapshot)
  }

  ghost function BlockAt(snapshot: seq<byte>, offset: nat, block: int32): Block
    requires offset < |snapshot| && block > 0
  {
    var n := if block < |snapshot| - offset then block else |snapshot| - offset;
    Block(offset, snapshot[offset..offset + n], offset + n >= |snapshot|)
  }

  // A round that fails leaves the offset, so the same block is sent again. A peer whose commit
  // index has reached the snapshot's last one declines all its blocks.
  ghost function Turn(block: int32, t: Session, o: Outcome): (r: Session)
    requires block > 0 && t.offset < |t.snapshot|
    ensures r.offset < |r.snapshot| && r.snapshot == t.snapshot && r.lastIdx == t.lastIdx
  {
    if t.done || !o.delivered || t.lastIdx <= t.peerCommit then t
    else
      var b := BlockAt(t.snapshot, t.offset, block);
      var t1 := t.(saved := t.saved + [b]);
      if b.done && !o.compacts then t1
      else
        var t2 := if b.done then t1.(installed := true, peerCommit := t.lastIdx) else t1;
        if !o.answered then t2
        else if b.done then t2.(accepted := t.accepted + [b], done := true)
        else t2.(accepted := t.accepted + [b], offset := t.offset + |b.data|)
  }

  ghost function Happens(block: int32, t: Session, e: Event): (r: Session)
    requires block > 0 && t.offset < |t.snapshot| && (e.Restart? ==> Fits(e.snapshot))
    ensures r.offset < |r.snapshot|
  {
    match e
    case Try(o) => Turn(block, t, o)
    case Restart(snapshot, lastIdx) => Begin(snapshot, lastIdx, t.peerCommit)
  }

  ghost function After(block: int32, t: Session, events: seq<Event>): (r: Session)
    requires block > 0 && t.offset < |t.snapshot| && AllFit(events)
    ensures r.offset < |r.snapshot|
    decreases |events|
  {
    if events == [] then t
    else
      var last := |events| - 1;
      Happens(block, After(block, t, events[..last]), events[last])
  }

  // One round: the leader creates the block, the peer saves or declines it, the leader goes on.
  method OneRound(t: Session, parameter: int32, o: Outcome) returns (r: Session)
    requires Fits(t.snapshot) && t.offset < |t.snapshot| && !t.done && 0 <= parameter
    ensures r == Turn(BlockSize(parameter), t, o)
  {
    LengthFits(|t.snapshot| - t.offset);
    var b := CreateBlock(t.snapshot, t.offset, BlockSize(parameter));
    assert b.value == BlockAt(t.snapshot, t.offset, BlockSize(parameter));
    r := t;
    if !o.delivered || t.lastIdx <= t.peerCommit { return; }
    var accept := true;
    r := r.(saved := t.saved + [b.value]);
    if b.value.done {
      accept := o.compacts;
      if accept { r := r.(installed := true, peerCommit := t.lastIdx); }
    }
    var answer := b.value.offset + |b.value.data|;
    if o.answered && accept {
      r := r.(accepted := t.accepted + [b.value]);
      r := if answer >= |t.snapshot| then r.(done := true) else r.(offset := answer);
    }
  }

  // The exchange from its beginning, one event at a time.
  method Transfer(snapshot: seq<byte>, lastIdx: nat, peerCommit: nat, parameter: int32, events: seq<Event>)
    returns (t: Session, nextLogIdx: nat, matchedIdx: nat)
    requires Fits(snapshot) && AllFit(events) && 0 <= parameter
    ensures t == After(BlockSize(parameter), Begin(snapshot, lastIdx, peerCommit), events)
    ensures t.done ==> nextLogIdx == t.lastIdx + 1 && matchedIdx == t.lastIdx
  {
    hide Turn;
    t, nextLogIdx, matchedIdx := Begin(snapshot, lastIdx, peerCommit), 0, 0;
    for i := 0 to |events|
      invariant t == After(BlockSize(parameter), Begin(snapshot, lastIdx, peerCommit), events[..i])
      invariant Fits(t.snapshot) && (t.done ==> nextLogIdx == t.lastIdx + 1 && matchedIdx == t.lastIdx)
    {
      assert events[..i + 1][..i] == events[..i];
      match events[i]
      case Restart(newer, newerIdx) =>
        t := Begin(newer, newerIdx, t.peerCommit);
      case Try(o) =>
        if t.done {
          DoneStays(BlockSize(parameter), t, o);
        } else {
          t := OneRound(t, parameter, o);
          if t.done { nextLogIdx, matchedIdx := t.lastIdx + 1, t.lastIdx; }
        }
    }
    assert events[..|events|] == events;
  }

  lemma DoneStays(block: int32, t: Session, o: Outcome)
    requires block > 0 && t.offset < |t.snapshot| && t.done
    ensures Turn(block, t, o) == t
  {
  }

  // What the peer's state machine holds when every block was written at its offset.
  function Written(blocks: seq<Block>): seq<byte>
    decreases |blocks|
  {
    if blocks == [] then []
    else
      var last := |blocks| - 1;
      Overwritten(Written(blocks[..last]), blocks[last].offset, blocks[last].data)
  }

  function Overwritten(file: seq<byte>, offset: nat, data: seq<byte>): seq<byte> {
    var end := offset + |data|;
    if offset > |file| then file + seq(offset - |file|, _ => 0) + data
    else file[..offset] + data + if end < |file| then file[end..] else []
  }

  // The accepted blocks tile the snapshot up to the offset, and all of it at the end.
  ghost predicate Tiled(t: Session) {
    && Tile(t.accepted, t.snapshot, 0, if t.done then |t.snapshot| else t.offset)
    && (t.done ==> t.installed && Joined(t.accepted) == t.snapshot)
  }

  // What was written, repeats included, is the snapshot as far as it goes, and all of it once installed.
  ghost predicate Stored(t: Session) {
    && Written(t.saved) <= t.snapshot && t.offset <= |Written(t.saved)|
    && (t.installed ==> Written(t.saved) == t.snapshot && t.lastIdx <= t.peerCommit)
  }

  lemma TurnKeepsTiled(block: int32, t: Session, o: Outcome)
    requires block > 0 && t.offset < |t.snapshot| && Tiled(t)
    ensures Tiled(Turn(block, t, o))
  {
    hide Tile, Joined;
    var r, b := Turn(block, t, o), BlockAt(t.snapshot, t.offset, block);
    if r.accepted != t.accepted {
      TileOneMore(t.accepted, t.snapshot, 0, t.offset, b);
      TilesJoin(r.accepted, t.snapshot, 0, t.offset + |b.data|);
      assert t.snapshot[0..|t.snapshot|] == t.snapshot;
    }
  }

  lemma TurnKeepsStored(block: int32, t: Session, o: Outcome)
    requires block > 0 && t.offset < |t.snapshot| && Stored(t)
    ensures Stored(Turn(block, t, o))
  {
    hide Written, Overwritten;
    var r, b := Turn(block, t, o), BlockAt(t.snapshot, t.offset, block);
    if r.saved != t.saved {
      WrittenOneMore(t.saved, b);
      PieceWritten(t.snapshot, Written(t.saved), t.offset, t.offset + |b.data|);
    }
  }

  lemma WrittenOneMore(blocks: seq<Block>, b: Block)
    ensures Written(blocks + [b]) == Overwritten(Written(blocks), b.offset, b.data)
  {
    assert (blocks + [b])[..|blocks|] == blocks;
  }

  lemma PieceWritten(snapshot: seq<byte>, file: seq<byte>, from: nat, to: nat)
    requires file <= snapshot && from <= |file| && from <= to <= |snapshot|
    ensures var w := Overwritten(file, from, snapshot[from..to]);
            w <= snapshot && |w| == if to < |file| then |file| else to
  {
    var w := Overwritten(file, from, snapshot[from..to]);
    assert w == snapshot[..|w|];
  }

  lemma FreshIsFine(snapshot: seq<byte>, lastIdx: nat, peerCommit: nat)
    ensures Tiled(Begin(snapshot, lastIdx, peerCommit)) && Stored(Begin(snapshot, lastIdx, peerCommit))
  {
  }

  // However many rounds fail, and wherever the transfer starts over.
  lemma {:induction false} SavedIsSnapshot(block: int32, t: Session, events: seq<Event>)
    requires block > 0 && t.offset < |t.snapshot| && AllFit(events) && Tiled(t) && Stored(t)
    ensures Tiled(After(block, t, events)) && Stored(After(block, t, events))
    decreases |events|
  {
    hide Tiled, Stored, Turn;
    if events != [] {
      var last := |events| - 1;
      SavedIsSnapshot(block, t, events[..last]);
      var r := After(block, t, events[..last]);
      match events[last]
      case Try(o) =>
        TurnKeepsTiled(block, r, o);
        TurnKeepsStored(block, r, o);
      case Restart(snapshot, lastIdx) => FreshIsFine(snapshot, lastIdx, r.peerCommit);
    }
  }

  lemma Continued(block: int32, t: Session, events: seq<Event>, e: Event)
    requires block > 0 && t.offset < |t.snapshot| && AllFit(events) && (e.Restart? ==> Fits(e.snapshot))
    ensures AllFit(events + [e])
    ensures After(block, t, events + [e]) == Happens(block, After(block, t, events), e)
  {
    assert (events + [e])[..|events|] == events;
  }

  function Tries(os: seq<Outcome>): seq<Event> {
    seq(|os|, i requires 0 <= i < |os| => Try(os[i]))
  }

  lemma GoodTurn(block: int32, t: Session)
    requires block > 0 && t.offset < |t.snapshot| && !t.done && t.peerCommit < t.lastIdx
    ensures var r := Turn(block, t, GOOD);
            r.done || (t.offset < r.offset && r.peerCommit < r.lastIdx)
  {
  }

  // Good rounds end a transfer whose snapshot the peer still wants.
  lemma {:induction false} GoodRoundsEnd(block: int32, t: Session, os: seq<Outcome>) returns (rest: seq<Outcome>)
    requires block > 0 && t.offset < |t.snapshot|
    requires var r := After(block, t, Tries(os)); !r.done && r.peerCommit < r.lastIdx
    ensures After(block, t, Tries(os + rest)).done
    decreases |After(block, t, Tries(os)).snapshot| - After(block, t, Tries(os)).offset
  {
    hide After, Turn;
    Continued(block, t, Tries(os), Try(GOOD));
    GoodTurn(block, After(block, t, Tries(os)));
    assert Tries(os + [GOOD]) == Tries(os) + [Try(GOOD)];
    if After(block, t, Tries(os + [GOOD])).done {
      rest := [GOOD];
    } else {
      rest := GoodRoundsEnd(block, t, os + [GOOD]);
      assert os + ([GOOD] + rest) == (os + [GOOD]) + rest;
      rest := [GOOD] + rest;
    }
  }

  // Once the peer's commit index has reached the snapshot, rounds change nothing any more.
  lemma {:induction false} DeclinedStays(block: int32, t: Session, os: seq<Outcome>)
    requires block > 0 && t.offset < |t.snapshot| && t.lastIdx <= t.peerCommit
    ensures After(block, t, Tries(os)) == t
    decreases |os|
  {
    if os != [] {
      var last := |os| - 1;
      DeclinedStays(block, t, os[..last]);
      assert Tries(os)[..last] == Tries(os[..last]);
    } else {
      assert Tries(os) == [];
    }
  }

  // Rounds alone can still end a transfer exactly as long as the peer wants the snapshot. Once it
  // installed it and the answer was lost, the leader sends the last block in vain until the
  // transfer starts over.
  lemma CanEndExactlyWhen(block: int32, t: Session)
    requires block > 0 && t.offset < |t.snapshot|
    ensures (exists os :: After(block, t, Tries(os)).done) <==> t.done || t.peerCommit < t.lastIdx
  {
    assert Tries([]) == [];
    assert After(block, t, Tries([])) == t;
    if t.lastIdx <= t.peerCommit {
      forall os ensures After(block, t, Tries(os)) == t {
        DeclinedStays(block, t, os);
      }
    } else if !t.done {
      var rest := GoodRoundsEnd(block, t, []);
      assert [] + rest == rest;
    }
  }

  // Such a loss, for a snapshot of one block: only a start with a snapshot the peer does not have
  // ends it.
  lemma LastAnswerLost(block: int32, snapshot: seq<byte>, lastIdx: nat, newer: seq<byte>, newerIdx: nat)
    requires Fits(snapshot) && Fits(newer) && |snapshot| <= block && lastIdx > 0
    ensures var t := Happens(block, Begin(snapshot, lastIdx, 0), Try(Outcome(true, true, false)));
            && t.installed && (forall os :: !After(block, t, Tries(os)).done)
            && ((exists os :: After(block, Happens(block, t, Restart(newer, newerIdx)), Tries(os)).done) <==>
                  newerIdx > lastIdx)
  {
    var t := Happens(block, Begin(snapshot, lastIdx, 0), Try(Outcome(true, true, false)));
    CanEndExactlyWhen(block, t);
    CanEndExactlyWhen(block, Happens(block, t, Restart(newer, newerIdx)));
  }

  // ---------------------------------------------------------------- when it ends

  datatype State = Sending(offset: nat) | Installed | Failed

  // An empty snapshot stops the server.
  function Start(size: nat): State {
    if size < 1 then Failed else Sending(0)
  }

  function Round(size: nat, block: int32, t: State): State
    requires t.Sending? ==> t.offset <= size
  {
    match t
    case Sending(offset) =>
      (match BlockLength(size, offset, block)
       case None => Failed
       case Some(n) => if offset + n >= size then Installed else Sending(offset + n))
    case _ => t
  }

  function AfterRounds(size: nat, block: int32, rounds: nat): (t: State)
    ensures t.Sending? ==> t.offset <= size
    decreases rounds
  {
    if rounds == 0 then Start(size) else Round(size, block, AfterRounds(size, block, rounds - 1))
  }

  lemma {:induction false} SmallOnesAdvance(size: nat, block: int32, rounds: nat)
    requires 1 <= size < U32 / 2 && block > 0
    ensures AfterRounds(size, block, rounds).Installed? ||
            (AfterRounds(size, block, rounds).Sending? && rounds <= AfterRounds(size, block, rounds).offset < size)
    decreases rounds
  {
    if rounds > 0 {
      SmallOnesAdvance(size, block, rounds - 1);
      var t := AfterRounds(size, block, rounds - 1);
      if t.Sending? { LengthFits(size - t.offset); }
    }
  }

  lemma {:induction false} LargeOnesNeverEnd(size: nat, block: int32, rounds: nat)
    requires size < 1 || size >= U32 / 2 || block < 0
    ensures !AfterRounds(size, block, rounds).Installed?
    ensures AfterRounds(size, block, rounds).Sending? && block >= 0 ==>
              size - AfterRounds(size, block, rounds).offset >= U32 / 2
    decreases rounds
  {
    if rounds > 0 {
      LargeOnesNeverEnd(size, block, rounds - 1);
      var t := AfterRounds(size, block, rounds - 1);
      if t.Sending? { LengthFits(size - t.offset); }
    }
  }

  // A transfer ends exactly for snapshots of at least one byte whose size an int32 can hold,
  // and a block size that is not negative.
  lemma EndsExactlyWhen(size: nat, parameter: int32)
    ensures (exists rounds: nat :: AfterRounds(size, BlockSize(parameter), rounds).Installed?)
            <==> 1 <= size < U32 / 2 && parameter >= 0
  {
    if 1 <= size < U32 / 2 && parameter >= 0 {
      SmallOnesAdvance(size, BlockSize(parameter), size);
    } else {
      forall rounds: nat ensures !AfterRounds(size, BlockSize(parameter), rounds).Installed? {
        LargeOnesNeverEnd(size, BlockSize(parameter), rounds);
      }
    }
  }
}
