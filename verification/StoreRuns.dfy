/** Whole runs of the log store: any sequence of appends, overwrites, packs, compactions and
    reopenings, each of them one of the cases in which the code keeps its contract. */
module StoreRuns {
  import opened Bytes
  import opened Codecs
  import opened LogImages
  import opened FsLogStoreClass

  // The ghost arguments of ApplyPack are the entries the pack was made of.
  datatype Op =
    | Append(e: LogEntry)
    | WriteAt(index: nat, e: LogEntry)
    | ApplyPack(index: nat, src: seq<LogEntry>, off: nat, n: nat)
    | Compact(last: nat)
    | Reopen(size: int)

  // What a run has made of the log; the first index that is cached; the size of the cache.
  datatype View = View(log: Log, cached: nat, size: nat)

  // The log after an operation, whether or not the files follow.
  function LogAfter(log: Log, op: Op): Log {
    match op
    case Append(e) => Appended(log, e)
    case WriteAt(index, e) => if log.start <= index <= log.Next() then Put(log, index, e) else log
    case ApplyPack(index, src, off, n) =>
      if log.start <= index <= log.Next() && off + n <= |src| then PutAll(log, index, src[off..off + n]) else log
    case Compact(last) => if log.start <= last then Compacted(log, last) else log
    case Reopen(_) => log
  }

  function After(v: View, op: Op): View {
    var log := LogAfter(v.log, op);
    var size := if op.Reopen? then CacheSize(op.size) else v.size;
    View(log,
         match op
         case Append(_) => StartAfterPut(v.cached, v.size, v.log.Next())
         case WriteAt(index, _) => StartAfterPut(v.cached, v.size, index)
         case _ => StartAfterFill(log, size),
         size)
  }

  // The cases in which the code does what LogAfter says: see the contracts of FsLogStore.
  ghost predicate Kept(v: View, op: Op) {
    && Fits(LogAfter(v.log, op))
    && match op
       case Append(_) => v.size >= 1
       case WriteAt(index, e) =>
         && v.log.start <= index <= v.log.Next() && v.size >= 1
         && (index == v.log.Next() || v.cached <= index) && !LeavesBytes(v.log, index, e)
       case ApplyPack(index, src, off, n) =>
         && v.log.start <= index <= v.log.Next() && v.size >= 1
         && 1 <= n && off + n <= |src| && |DataImage(src)| < U64
         && Offset(src, off) == Offset(v.log.entries, index - v.log.start)
         && !PackLeavesBytes(v.log, index, PackOf(src, off, n))
       case Compact(last) => v.log.start <= last && last + 1 < U64 && v.log.Next() > 0
       case Reopen(size) => v.log.entries == [] || size != 0
  }

  ghost predicate AllKept(v: View, ops: seq<Op>)
    decreases |ops|
  {
    ops == [] || (Kept(v, ops[0]) && AllKept(After(v, ops[0]), ops[1..]))
  }

  function Final(v: View, ops: seq<Op>): View
    decreases |ops|
  {
    if ops == [] then v else Final(After(v, ops[0]), ops[1..])
  }

  ghost predicate Shows(store: FsLogStore, v: View)
    reads store, store.idx, store.data, store.sti, store.cache
  {
    store.Valid(v.log) && store.cache.startIdx == v.cached && store.bufSize == v.size
  }

  method Perform(store: FsLogStore, op: Op, ghost v: View) returns (after: FsLogStore)
    requires Shows(store, v) && Kept(v, op)
    modifies store, store.idx, store.data, store.sti, store.cache
    ensures Shows(after, After(v, op))
    ensures after.idx == store.idx && after.data == store.data && after.sti == store.sti
    ensures (after == store && after.cache == old(store.cache)) || (fresh(after) && fresh(after.cache))
  {
    hide IsSuffix, DataImage, IdxImage, Le, LeavesBytes, PackLeavesBytes, PackOf;
    after := store;
    match op
    case Append(e) =>
      var index := store.Append(e, v.log);
    case WriteAt(index, e) =>
      var ok := store.WriteAt(index, e, v.log);
    case ApplyPack(index, src, off, n) =>
      var ok := store.ApplyPack(index, PackOf(src, off, n), v.log, src, off, n);
    case Compact(last) =>
      var ok := store.Compact(last, v.log);
    case Reopen(size) =>
      var r := FsLogStore.Open(store.idx, store.data, store.sti, size, v.log);
      after := r.value;
  }

  // Every run keeps the files a faithful image of its log and the cache a suffix of it.
  method Run(store: FsLogStore, ops: seq<Op>, ghost v: View) returns (after: FsLogStore)
    requires Shows(store, v) && AllKept(v, ops)
    modifies store, store.idx, store.data, store.sti, store.cache
    ensures Shows(after, Final(v, ops))
    ensures after.idx == store.idx && after.data == store.data && after.sti == store.sti
  {
    after := store;
    var i := 0;
    ghost var w := v;
    while i < |ops|
      invariant i <= |ops| && Shows(after, w) && AllKept(w, ops[i..]) && Final(w, ops[i..]) == Final(v, ops)
      invariant after.idx == store.idx && after.data == store.data && after.sti == store.sti
      invariant (after == store && after.cache == old(store.cache)) || (fresh(after) && fresh(after.cache))
    {
      assert ops[i..][1..] == ops[i + 1..];
      after := Perform(after, ops[i], w);
      w := After(w, ops[i]);
      i := i + 1;
    }
  }
}
