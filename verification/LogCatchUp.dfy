/** The catch-up of a joining server by log packs (raft_server.cxx): the leader sends pack after
    pack until the gap to its commit index is small; the new server applies each one and answers
    with its next slot, which is where the next pack starts. */
module LogCatchUp {
  import opened RaftTypes
  import opened Bytes
  import opened LogImages
  import opened FsLogStoreClass

  // The first entries of a log.
  function Upto(log: Log, index: nat): Log
    requires log.start <= index <= log.Next()
  {
    Log(log.start, log.entries[..index - log.start])
  }

  // Files of a prefix are prefixes of the files.
  lemma PrefixFiles(log: Log, index: nat)
    requires log.start <= index <= log.Next()
    ensures IdxImage(Upto(log, index).entries) <= IdxImage(log.entries)
    ensures DataImage(Upto(log, index).entries) <= DataImage(log.entries)
    ensures Fits(log) ==> Fits(Upto(log, index))
  {
    hide DataImage, IdxImage;
    IdxPrefix(log.entries, index - log.start);
    DataSplit(log.entries, index - log.start);
  }

  ghost predicate Apart(a: FsLogStore, b: FsLogStore)
    reads a, b
  {
    && a != b && a.cache != b.cache
    && {a.idx, a.data, a.sti} !! {b.idx, b.data, b.sti}
  }

  // A pack behind an equal prefix starts at the same byte, leaves nothing behind it, and
  // makes a longer prefix.
  lemma Extends(log: Log, k: nat, n: nat)
    requires k + n <= |log.entries| && 1 <= n
    ensures var upto := Upto(log, log.start + k);
            && Offset(log.entries, k) == Offset(upto.entries, k)
            && !PackLeavesBytes(upto, upto.Next(), PackOf(log.entries, k, n))
            && PutAll(upto, upto.Next(), log.entries[k..k + n]) == Upto(log, log.start + k + n)
  {
    hide DataImage;
    var es := log.entries[..k];
    assert es[..k] == es;
    assert es + log.entries[k..k + n] == log.entries[..k + n];
  }

  // One exchange: the pack that starts at index and takes cnt entries, and handle_log_sync_req on
  // the target. None is a failure of the leader.
  method SyncBatch(source: FsLogStore, target: FsLogStore, index: nat, cnt: int32, ghost log: Log)
    returns (next: Option<nat>)
    requires Apart(source, target) && source.Valid(log) && log.start <= index <= log.Next()
    requires target.Valid(Upto(log, index)) && target.bufSize >= 1
    modifies source.idx`pos, source.idx`bad, source.data`pos, source.data`bad
    modifies target`entriesInStore, target.idx, target.data, target.cache
    ensures source.Valid(log)
    ensures next == Sent(log, index, cnt)
    ensures target.Valid(Upto(log, if next.Some? then next.value else index))
  {
    hide DataImage, IdxImage, IsSuffix, PackOf, Offset, Lands, FsLogStore.Laid, PackSize, PackLeavesBytes, Le;
    var ok, p := source.MakePack(index, cnt, log);
    if !ok || p.None? { return None; }
    ghost var k, n := index - log.start, PackSize(index - log.start, cnt, |log.entries|);
    PrefixFiles(log, index + n);
    Extends(log, k, n);
    ok := target.ApplyPack(index, p.value, Upto(log, index), log.entries, k, n);
    next := Some(target.NextSlot());
  }

  // The target's next slot after one pack; None when there is nothing to pack.
  function Sent(log: Log, index: nat, cnt: int32): (next: Option<nat>)
    requires log.start <= index <= log.Next()
    ensures next.Some? ==> index < next.value <= log.Next()
  {
    if index == log.Next() || PackSize(index - log.start, cnt, |log.entries|) == 0 then None
    else Some(index + PackSize(index - log.start, cnt, |log.entries|))
  }

  // The gap to the commit index, counted in an int32.
  function Gap(commit: nat, index: nat): int32 {
    Signed(commit - index)
  }

  function Smaller(a: int32, b: int32): int32 {
    if b < a then b else a
  }

  // How the exchange goes on from index: where it stops, or None when the leader fails.
  function Outcome(log: Log, index: nat, commit: nat, stopGap: int32, batch: int32): (r: Option<nat>)
    requires log.start <= index <= log.Next()
    ensures r.Some? ==> index <= r.value <= log.Next() && Gap(commit, r.value) < stopGap
    decreases log.Next() - index
  {
    var gap := Gap(commit, index);
    if gap < stopGap then Some(index)
    else
      match Sent(log, index, Smaller(gap, batch))
      case None => None
      case Some(next) => Outcome(log, next, commit, stopGap, batch)
  }

  // sync_log_to_new_srv, for any parameters: after every batch the target's files are a prefix
  // of the source's, and what is left to send shrinks.
  method CatchUp(source: FsLogStore, target: FsLogStore, start: nat, commit: nat, stopGap: int32, batch: int32,
                 ghost log: Log) returns (ok: bool, next: nat)
    requires Apart(source, target) && source.Valid(log) && log.start <= start <= log.Next()
    requires target.Valid(Upto(log, start)) && target.bufSize >= 1
    modifies source.idx`pos, source.idx`bad, source.data`pos, source.data`bad
    modifies target`entriesInStore, target.idx, target.data, target.cache
    ensures source.Valid(log) && start <= next <= log.Next()
    ensures Outcome(log, start, commit, stopGap, batch) == if ok then Some(next) else None
    ensures target.Valid(Upto(log, next))
    ensures target.idx.bytes <= source.idx.bytes && target.data.bytes <= source.data.bytes
  {
    hide DataImage, IdxImage, IsSuffix;
    ok, next := true, start;
    while ok && Gap(commit, next) >= stopGap
      invariant source.Valid(log) && start <= next <= log.Next() && Apart(source, target)
      invariant target.Valid(Upto(log, next)) && target.cache == old(target.cache) && source.cache == old(source.cache)
      invariant Outcome(log, start, commit, stopGap, batch) ==
                if ok then Outcome(log, next, commit, stopGap, batch) else None
      decreases ok, log.Next() - next
    {
      var sent := SyncBatch(source, target, next, Smaller(Gap(commit, next), batch), log);
      if sent.Some? { next := sent.value; } else { ok := false; }
    }
    PrefixFiles(log, next);
  }

  // A negative count reaches below 0 from here, so that the pack takes all the rest.
  predicate TakesAll(log: Log, index: nat, cnt: int32)
    requires log.start <= index
  {
    cnt < 0 && index < log.Next() && index - log.start + cnt < 0
  }

  // An int32 reading of a gap never overstates it, and counts down with it.
  lemma GapCounts(gap: int, n: nat)
    requires gap >= -1 && 0 <= n <= Signed(gap)
    ensures n <= gap && Signed(gap - n) == Signed(gap) - n
  {
    var q, u := gap / U32, gap % U32;
    assert gap == q * U32 + u;
    ModIs(gap - n, U32, q, u - n);
  }

  // What a pack takes, without the wrap-around.
  lemma PackTakes(offset: nat, cnt: int32, count: nat)
    requires offset <= count < U64 / 2
    ensures cnt >= 0 ==> PackSize(offset, cnt, count) == if cnt < count - offset then cnt else count - offset
    ensures cnt < 0 <= offset + cnt ==> PackSize(offset, cnt, count) == 0
    ensures offset + cnt < 0 ==> PackSize(offset, cnt, count) == count - offset
  {
    if offset + cnt < 0 {
      ModIs(offset + cnt, U64, -1, offset + cnt + U64);
    } else {
      ModIs(offset + cnt, U64, 0, offset + cnt);
    }
  }

  lemma SentIs(log: Log, index: nat, cnt: int32)
    requires Fits(log) && log.start <= index < log.Next()
    ensures cnt > 0 ==> Sent(log, index, cnt) == Some(if index + cnt < log.Next() then index + cnt else log.Next())
    ensures cnt <= 0 ==> Sent(log, index, cnt) == if TakesAll(log, index, cnt) then Some(log.Next()) else None
  {
    hide PackSize, DataImage;
    EntriesTakeSpace(log.entries);
    PackTakes(index - log.start, cnt, |log.entries|);
  }

  // A positive count is taken in full as long as it stays within the gap.
  lemma PositiveCount(log: Log, index: nat, commit: nat, cnt: int32)
    requires Fits(log) && log.start <= index <= commit + 1 && commit < log.Next() && 1 <= cnt <= Gap(commit, index)
    ensures Sent(log, index, cnt) == Some(index + cnt) && index + cnt <= commit
    ensures Gap(commit, index + cnt) == Gap(commit, index) - cnt
  {
    hide Sent, Signed, DataImage, PackSize, TakesAll;
    GapCounts(commit - index, cnt);
    SentIs(log, index, cnt);
  }

  lemma {:induction false} Closes(log: Log, index: nat, commit: nat, stopGap: int32, batch: int32)
    requires Fits(log) && log.start <= index <= commit + 1 && commit < log.Next() && stopGap >= 1 && batch >= 1
    ensures Outcome(log, index, commit, stopGap, batch).Some?
    decreases log.Next() - index
  {
    hide Sent, Gap;
    var gap := Gap(commit, index);
    if gap >= stopGap {
      var cnt := Smaller(gap, batch);
      PositiveCount(log, index, commit, cnt);
      Closes(log, index + cnt, commit, stopGap, batch);
    }
  }

  lemma {:induction false} Starves(log: Log, index: nat, commit: nat, stopGap: int32, batch: int32)
    requires Fits(log) && log.start <= index <= commit + 1 && commit < log.Next()
    requires stopGap <= 0 <= Gap(commit, index) && batch >= 1
    ensures Outcome(log, index, commit, stopGap, batch) == None
    decreases log.Next() - index
  {
    hide Sent, Gap, DataImage;
    var gap := Gap(commit, index);
    if gap > 0 {
      var cnt := Smaller(gap, batch);
      PositiveCount(log, index, commit, cnt);
      Starves(log, index + cnt, commit, stopGap, batch);
    } else if index < log.Next() {
      SentIs(log, index, 0);
    } else {
      AtTheEnd(log, index);
    }
  }

  lemma AtTheEnd(log: Log, index: nat)
    requires log.start <= index == log.Next()
    ensures forall cnt: int32 :: Sent(log, index, cnt) == None
  {
  }

  // A count that is not positive is asked for at most once.
  lemma OnePack(log: Log, index: nat, commit: nat, stopGap: int32, batch: int32)
    requires Fits(log) && log.start <= index <= log.Next()
    requires stopGap <= Gap(commit, index) && Smaller(Gap(commit, index), batch) <= 0
    ensures Outcome(log, index, commit, stopGap, batch).Some? <==>
              TakesAll(log, index, Smaller(Gap(commit, index), batch)) && Gap(commit, log.Next()) < stopGap
  {
    hide Sent, Gap;
    AtTheEnd(log, log.Next());
    if index < log.Next() {
      SentIs(log, index, Smaller(Gap(commit, index), batch));
    }
  }

  // The exchange ends exactly when the gap is small enough to begin with, when stop gap and batch
  // size are both at least 1, or when a negative count makes the first pack take everything and
  // that closes the gap. Otherwise the leader comes to pack nothing, and fails.
  lemma EndsExactlyWhen(log: Log, start: nat, commit: nat, stopGap: int32, batch: int32)
    requires Fits(log) && log.start <= start <= log.Next() && start <= commit + 1 && commit < log.Next()
    ensures var gap := Gap(commit, start);
            Outcome(log, start, commit, stopGap, batch).Some? <==>
              || gap < stopGap
              || (stopGap >= 1 && batch >= 1)
              || (TakesAll(log, start, Smaller(gap, batch)) && Gap(commit, log.Next()) < stopGap)
  {
    var gap := Gap(commit, start);
    if gap >= stopGap {
      if stopGap >= 1 && batch >= 1 {
        Closes(log, start, commit, stopGap, batch);
      } else if gap >= 0 && batch >= 1 {
        Starves(log, start, commit, stopGap, batch);
      } else {
        OnePack(log, start, commit, stopGap, batch);
      }
    }
  }
}
