/** fs_log_store.cxx: an index file, a data file, a start-index file and a suffix cache, all changed
    in place, against the log they stand for.

    Every operation takes that log as a ghost argument. Where the code falls short of the contract
    of log_store.hxx, the operation is kept as it is and its contract says exactly when the new
    files and the new cache are those of the new log. */
module FsLogStoreClass {
  import opened RaftTypes
  import opened Bytes
  import opened Codecs
  import opened LogImages
  import opened LogStoreBufferClass

  // ---------------------------------------------------------------- what the operations mean

  function Appended(log: Log, e: LogEntry): Log {
    Log(log.start, log.entries + [e])
  }

  // write_at: the entry at index is replaced and the ones after it are dropped.
  function Put(log: Log, index: nat, e: LogEntry): Log
    requires log.start <= index <= log.Next()
  {
    Log(log.start, log.entries[..index - log.start] + [e])
  }

  // apply_pack: as write_at, with several entries.
  function PutAll(log: Log, index: nat, es: seq<LogEntry>): Log
    requires log.start <= index <= log.Next()
  {
    Log(log.start, log.entries[..index - log.start] + es)
  }

  // compact: the entries up to last are dropped, even when there are none so far.
  function Compacted(log: Log, last: nat): Log
    requires log.start <= last
  {
    Log(last + 1, if last + 1 >= log.Next() then [] else log.entries[last + 1 - log.start..])
  }

  // The answer of log_entries, and how it fails: an index before the log, or a write past the
  // end of its result.
  datatype Fetched = OutOfRange | Nothing | WildWrite | Entries(es: seq<LogEntry>)

  // The entries of [start, end), as far as there are any.
  function Fetch(log: Log, start: nat, end: nat): Fetched {
    if start < log.start then OutOfRange
    else if start >= end || start >= log.Next() then Nothing
    else Entries(log.entries[start - log.start..(if end < log.Next() then end else log.Next()) - log.start])
  }

  // The answer of term_at: right within the cache, and before it as long as an int counts that far.
  function TermFound(log: Log, cached: nat, index: nat): Option<nat> {
    if index < log.start then None
    else if cached <= index < log.Next() then Some(log.entries[index - log.start].term)
    else
      var local := Signed(index - log.start);
      if 0 <= local < |log.entries| then Some(log.entries[local].term) else None
  }

  // A pack: a stretch of the index file and one of the data file.
  datatype Pack = Pack(idx: seq<byte>, data: seq<byte>)

  function PackOf(es: seq<LogEntry>, off: nat, n: nat): Pack
    requires off + n <= |es|
  {
    DataBetween(es, off, off + n);
    Pack(IdxImage(es)[8 * off..8 * (off + n)], DataImage(es)[Offset(es, off)..Offset(es, off + n)])
  }

  ghost predicate IsPack(p: Pack, src: seq<LogEntry>, off: nat, n: nat) {
    1 <= n && off + n <= |src| && |DataImage(src)| < U64 && p == PackOf(src, off, n)
  }

  // The position computed for an index lies within the index file or at its end.
  predicate Lands(log: Log, index: ulong) {
    var local := (index - log.start) % U64;
    local == |log.entries| || (local * 8) % U64 < 8 * |log.entries|
  }

  lemma EightTimes(x: nat)
    ensures ((x * 8) % U64) % 8 == 0
  {
    var k := (x * 8) / U64;
    assert (x * 8) % U64 == 8 * (x - k * (U64 / 8));
  }

  lemma LocalIndex(log: Log, index: ulong)
    requires Fits(log) && 9 * |log.entries| < U64
    ensures var local := (index - log.start) % U64;
            && (Lands(log, index) <==> local == |log.entries| || (local * 8) % U64 < 8 * |log.entries|)
            && ((local * 8) % U64) % 8 == 0
            && (log.start <= index <= log.Next() ==> local == index - log.start && (local * 8) % U64 == local * 8)
            && (!(log.start <= index <= log.Next()) ==> local > |log.entries|)
  {
    var local := (index - log.start) % U64;
    if log.start <= index {
      ModIs(index - log.start, U64, 0, index - log.start);
    } else {
      ModIs(index - log.start, U64, -1, index - log.start + U64);
    }
    EightTimes(local);
    if local <= |log.entries| {
      ModIs(local * 8, U64, 0, local * 8);
    }
  }

  lemma LandsInside(log: Log, index: ulong)
    requires Fits(log) && log.start <= index <= log.Next()
    ensures Lands(log, index)
  {
    hide DataImage;
    EntriesTakeSpace(log.entries);
    LocalIndex(log, index);
  }

  lemma EndOffset(es: seq<LogEntry>)
    ensures Offset(es, |es|) == |DataImage(es)|
  {
    assert es[..|es|] == es;
  }

  // The cache is a suffix of the log, no longer than its size and empty only when the log is.
  ghost predicate IsSuffix(buf: seq<LogEntry>, start: nat, size: nat, log: Log) {
    && |buf| <= size && log.start <= start && start + |buf| == log.Next()
    && buf == log.entries[start - log.start..]
    && (log.entries == [] || buf != [])
  }

  lemma NoSuffix(start: nat, size: nat)
    ensures IsSuffix([], start, size, Log(start, []))
  {
  }

  lemma RoomToFill(buf: seq<LogEntry>, start: nat, size: nat, log: Log)
    requires IsSuffix(buf, start, size, log)
    ensures size >= 1 || log.entries == []
  {
  }

  // The unsigned last index of a store, to which compact compares.
  lemma LastIndex(log: Log, last: ulong)
    requires Fits(log) && 9 * |log.entries| < U64 && log.start <= last
    ensures last >= (log.start + |log.entries| - 1) % U64 <==>
              last + 1 >= log.Next() && (log.Next() > 0 || last + 1 == U64)
    ensures last + 1 < log.Next() ==> (last + 1 - log.start) * 8 % U64 == (last + 1 - log.start) * 8
  {
    hide DataImage;
    if log.Next() > 0 {
      ModIs(log.Next() - 1, U64, 0, log.Next() - 1);
    }
    if last + 1 < log.Next() {
      ModIs((last + 1 - log.start) * 8, U64, 0, (last + 1 - log.start) * 8);
    }
  }

  // The new record is shorter than the last one, which it replaces: the index file keeps its
  // length, and with it the data file.
  ghost predicate LeavesBytes(log: Log, index: nat, e: LogEntry) {
    index + 1 == log.Next() && log.entries != [] && |e.payload| < |log.entries[|log.entries| - 1].payload|
  }

  // Old bytes stay behind a pack that reaches the end of the index but not that of the data.
  ghost predicate PackLeavesBytes(log: Log, index: nat, p: Pack)
    requires log.start <= index <= log.Next()
  {
    var k := index - log.start;
    8 * k + |p.idx| >= 8 * |log.entries| && Offset(log.entries, k) + |p.data| < |DataImage(log.entries)|
  }

  // How many entries a pack takes from an offset. The count is an int32 added to an unsigned
  // offset: a negative one takes nothing, or, if it goes below 0, all the rest.
  function PackSize(offset: nat, cnt: int32, count: nat): (n: nat)
    requires offset <= count
    ensures offset + n <= count
  {
    var end := (offset + cnt) % U64;
    var endOffset := if end < count then end else count;
    if endOffset < offset then 0 else endOffset - offset
  }

  const INT_MAX: nat := 0x7FFF_FFFF

  // A negative cache size asks for as many entries as an int can count.
  function CacheSize(size: int): nat {
    if size < 0 then INT_MAX else size
  }

  // The first cached index once the cache was filled afresh, and once an entry was written at
  // an index no lower than the old one.
  function StartAfterFill(log: Log, size: nat): nat {
    if |log.entries| > size then log.Next() - size else log.start
  }

  function StartAfterPut(first: nat, size: nat, index: nat): nat {
    if index + 1 > first + size then first + 1 else first
  }

  class FsLogStore {
    const idx: File
    const data: File
    const sti: File
    var entriesInStore: nat
    var startIdx: nat
    var cache: LogStoreBuffer
    const bufSize: nat

    ghost predicate FilesHold(log: Log)
      reads this, idx, data, sti
    {
      && idx != data && idx != sti && data != sti && !idx.bad && !data.bad && !sti.bad
      && idx.bytes == IdxImage(log.entries) && data.bytes == DataImage(log.entries) && sti.bytes == Le(log.start, 8)
      && Fits(log) && startIdx == log.start && entriesInStore == |log.entries|
    }

    ghost predicate CacheHolds(log: Log)
      reads this, cache
    {
      cache.maxSize == bufSize && IsSuffix(cache.buf, cache.startIdx, bufSize, log)
    }

    ghost predicate Valid(log: Log)
      reads this, idx, data, sti, cache
    {
      FilesHold(log) && CacheHolds(log)
    }

    function NextSlot(): nat
      reads this
    {
      startIdx + entriesInStore
    }

    // ---------------------------------------------------------------- opening

    // The fields as the constructor sets them before it fills the cache.
    constructor Bind(idx: File, data: File, sti: File, start: nat, count: nat, size: nat)
      ensures this.idx == idx && this.data == data && this.sti == sti && startIdx == start && entriesInStore == count
      ensures bufSize == size && fresh(cache) && cache.buf == [] && cache.maxSize == size
      ensures cache.startIdx == if count > size then count - size + start else start
    {
      this.idx, this.data, this.sti := idx, data, sti;
      startIdx, entriesInStore, bufSize := start, count, size;
      cache := new LogStoreBuffer(if count > size then count - size + start else start, size);
    }

    // The constructor: what it finds on disk is the files of a log, or three empty files. It
    // fails exactly when there are entries and no room to cache one.
    static method Open(idx: File, data: File, sti: File, size: int, ghost log: Log) returns (r: Option<FsLogStore>)
      requires idx != data && idx != sti && data != sti && Fits(log)
      requires idx.bytes == IdxImage(log.entries) && data.bytes == DataImage(log.entries)
      requires sti.bytes == Le(log.start, 8) || (sti.bytes == [] && log == Log(1, []))
      modifies idx, data, sti
      ensures r.Some? <==> log.entries == [] || size != 0
      ensures r.Some? ==> fresh(r.value) && fresh(r.value.cache) && r.value.Valid(log)
      ensures r.Some? ==> r.value.idx == idx && r.value.data == data && r.value.sti == sti
      ensures r.Some? ==>
                r.value.bufSize == CacheSize(size) && r.value.cache.startIdx == StartAfterFill(log, CacheSize(size))
      ensures idx.bytes == old(idx.bytes) && data.bytes == old(data.bytes)
    {
      hide DataImage, IdxImage, EntryBytes, UnLe, Le, ParseEntry;
      idx.Reopen();
      data.Reopen();
      sti.Reopen();
      var start, count := 1, 0;
      if |sti.bytes| > 0 {
        sti.Seek(0);
        var v := sti.ReadUlong();
        Le64ReadBack(log.start);
        assert sti.bytes[0..8] == sti.bytes;
        start, count := v.value, |idx.bytes| / 8;
      } else {
        sti.Seek(0);
        sti.Write(Le(start, 8));
      }
      var store := new FsLogStore.Bind(idx, data, sti, start, count, CacheSize(size));
      var ok := store.FillBuffer(log);
      r := if ok then Some(store) else None;
    }

    // fill_buffer: the records from the cache's first index on go into the cache, each one's end
    // being the next one's start, the last one's the end of the file. On files that hold no log,
    // nothing is promised.
    method FillBuffer(ghost log: Log) returns (ok: bool)
      requires idx != data && cache.buf == [] && cache.maxSize == bufSize
      modifies idx`pos, idx`bad, data`pos, data`bad, cache`buf, cache`startIdx
      ensures old(FilesHold(log)) && log.start <= old(cache.startIdx) <= log.Next() <= old(cache.startIdx) + bufSize ==>
                && FilesHold(log) && (ok <==> log.entries == [] || old(cache.startIdx) < log.Next())
                && (ok ==> Valid(log) && cache.startIdx == old(cache.startIdx))
    {
      hide DataImage, IdxImage, EntryBytes, UnLe, Le, ParseEntry;
      var firstIdx := cache.FirstIdx();
      if |idx.bytes| == 0 { return true; }
      if firstIdx < startIdx || |idx.bytes| < (firstIdx - startIdx) * 8 { return false; }
      var idxPos := (firstIdx - startIdx) * 8;
      idx.Seek(idxPos);
      var idxBuf := idx.Read(|idx.bytes| - idxPos);
      if idxBuf.None? || |idxBuf.value| < 8 { return false; }
      ok := LoadRecords(idxBuf.value, firstIdx, log);
    }

    // A log whose files are in place and whose entries from firstIdx on fit the cache.
    ghost predicate Fillable(log: Log, firstIdx: nat)
      reads this, idx, data, sti
    {
      FilesHold(log) && log.start <= firstIdx < log.Next() <= firstIdx + bufSize
    }

    method LoadRecords(idxBuf: seq<byte>, firstIdx: nat, ghost log: Log) returns (ok: bool)
      requires cache.buf == [] && cache.maxSize == bufSize && cache.startIdx == firstIdx && |idxBuf| >= 8
      requires startIdx <= firstIdx && (firstIdx - startIdx) * 8 <= |idx.bytes|
              && idxBuf == idx.bytes[(firstIdx - startIdx) * 8..]
      modifies data`pos, data`bad, cache`buf, cache`startIdx
      ensures old(Fillable(log, firstIdx)) ==> ok && Valid(log) && cache.startIdx == firstIdx
    {
      hide DataImage, IdxImage, EntryBytes, UnLe, Le, ParseEntry;
      ghost var good := Fillable(log, firstIdx);
      ghost var x: nat := firstIdx - startIdx;
      var dataStart := UnLe(idxBuf[..8]);
      if good { OffsetInBuffer(log, idxBuf, x, 0); }
      data.Seek(dataStart);
      var p := 8;
      while p < |idxBuf|
        invariant good ==>
                  FilesHold(log) && Loaded(log, firstIdx, x) && p == 8 * (x - (firstIdx - log.start)) + 8 <= |idxBuf|
        invariant good ==> data.pos == dataStart == Offset(log.entries, x)
        modifies data`pos, data`bad, cache`buf, cache`startIdx
      {
        if p + 8 > |idxBuf| { return false; }
        var dataEnd := UnLe(idxBuf[p..p + 8]);
        if good {
          OffsetInBuffer(log, idxBuf, firstIdx - log.start, x + 1 - (firstIdx - log.start));
          OffsetsIncrease(log.entries, x, x + 1);
        }
        if dataEnd < dataStart { return false; }
        ok := LoadRecord(dataEnd - dataStart, log, firstIdx, x, good);
        if !ok { return false; }
        dataStart := dataEnd;
        p, x := p + 8, x + 1;
      }
      if good {
        assert log.entries[..x + 1] == log.entries;
        OffsetRead(log.entries, x);
      }
      if |data.bytes| < dataStart { return false; }
      ok := LoadRecord(|data.bytes| - dataStart, log, firstIdx, x, good);
    }

    // The bytes of one record go into the cache as an entry.
    method LoadRecord(size: nat, ghost log: Log, ghost firstIdx: nat, ghost x: nat, ghost good: bool) returns (ok: bool)
      requires good ==> FilesHold(log) && Fillable(log, firstIdx) && Loaded(log, firstIdx, x)
      requires good ==> data.pos == Offset(log.entries, x) && data.pos + size == Offset(log.entries, x + 1)
      modifies data`pos, data`bad, cache`buf, cache`startIdx
      ensures good ==> ok && FilesHold(log) && data.pos == Offset(log.entries, x + 1)
      ensures good ==> cache.startIdx == firstIdx && cache.buf == log.entries[firstIdx - log.start..x + 1]
    {
      hide DataImage, IdxImage, EntryBytes, UnLe, Le, ParseEntry;
      if good {
        RecordAt(log.entries, x);
        EntryRoundTrip(log.entries[x]);
      }
      var s := data.Read(size);
      if s.None? { return false; }
      var e := ParseEntry(s.value);
      if e.None? { return false; }
      cache.Append(e.value);
      ok := true;
    }

    // Records firstIdx .. x of the log are in the cache, which has never been full.
    ghost predicate Loaded(log: Log, firstIdx: nat, x: nat)
      reads this, cache
    {
      && cache.startIdx == firstIdx && cache.maxSize == bufSize && log.start <= firstIdx
      && firstIdx - log.start <= x < |log.entries|
      && cache.buf == log.entries[firstIdx - log.start..x]
    }

    // ---------------------------------------------------------------- reading

    // A null entry stands for the constant entry of term 0.
    method LastEntry(ghost log: Log) returns (e: Option<LogEntry>)
      requires Valid(log)
      ensures e == if log.entries == [] then None else Some(log.entries[|log.entries| - 1])
    {
      hide DataImage, IdxImage, EntryBytes, UnLe, Le, ParseEntry;
      e := cache.LastEntry();
    }

    // The term and the bytes of record k, off the files.
    method ReadRecord(k: nat, ghost log: Log) returns (s: Option<seq<byte>>)
      requires FilesHold(log) && k < |log.entries|
      modifies idx`pos, idx`bad, data`pos, data`bad
      ensures s == if k + 1 < |log.entries| then Some(EntryBytes(log.entries[k])) else None
      ensures s.Some? ==> FilesHold(log)
    {
      hide DataImage, IdxImage, EntryBytes, UnLe, Le, ParseEntry;
      RecordAt(log.entries, k);
      OffsetRead(log.entries, k);
      idx.Seek(8 * k);
      var dPos := idx.ReadUlong();
      var endPos := idx.ReadUlong();
      if endPos.None? { return None; }
      OffsetRead(log.entries, k + 1);
      data.Seek(dPos.value);
      s := data.Read(endPos.value - dPos.value);
    }

    // entry_at: from the cache, else from the files; the last entry is always cached.
    method EntryAt(index: nat, ghost log: Log) returns (ok: bool, e: Option<LogEntry>)
      requires Valid(log)
      modifies idx`pos, idx`bad, data`pos, data`bad
      ensures Valid(log)
      ensures ok <==> log.start <= index
      ensures ok ==> e == if index < log.Next() then Some(log.entries[index - log.start]) else None
    {
      hide DataImage, IdxImage, EntryBytes, UnLe, Le, ParseEntry;
      e := cache.Get(index);
      if e.Some? { return true, e; }
      if index < startIdx { return false, None; }
      if index >= startIdx + entriesInStore { return true, None; }
      var s := ReadRecord(index - startIdx, log);
      EntryRoundTrip(log.entries[index - log.start]);
      return true, ParseEntry(s.value);
    }

    // term_at, whose first test only spares the files. The offset is cut to an int before it is
    // looked up; a lookup that finds no record leaves a stream bad.
    method TermAt(index: nat, ghost log: Log) returns (t: Option<nat>)
      requires Valid(log)
      modifies idx`pos, idx`bad, data`pos, data`bad
      ensures t == TermFound(log, cache.startIdx, index)
      ensures Valid(log) <==> index < log.start || t.Some?
    {
      hide DataImage, IdxImage, EntryBytes, UnLe, Le, ParseEntry;
      if index >= cache.FirstIdx() && index < cache.LastIdx() {
        var c := cache.GetTerm(index);
        return Some(c);
      }
      if index < startIdx { return None; }
      var local := Signed(index - startIdx);
      IdxLength(log.entries);
      EntriesTakeSpace(log.entries);
      idx.Seek(if local >= 0 then local * 8 else U64 + local * 8);
      var pos := idx.ReadUlong();
      if pos.None? { return None; }
      OffsetRead(log.entries, local);
      RecordAt(log.entries, local);
      data.Seek(pos.value);
      t := data.ReadUlong();
      DataSplit(log.entries, local);
      FirstTerm(log.entries, local);
    }

    // The entries before the cache, off the files, into the places left empty for them. None
    // is the write past the end of the results.
    method ReadBefore(start: nat, first: nat, places: seq<Option<LogEntry>>, ghost log: Log)
      returns (r: Option<seq<Option<LogEntry>>>)
      requires FilesHold(log) && log.start <= start < first < log.Next()
      requires places == [] || first - start <= |places|
      modifies idx`pos, idx`bad, data`pos, data`bad
      ensures FilesHold(log) && (r.None? <==> places == [])
      ensures r.Some? ==> |r.value| == |places| && forall x :: 0 <= x < |places| ==>
                r.value[x] == if start + x < first then Some(log.entries[start + x - log.start]) else places[x]
    {
      hide DataImage, IdxImage, EntryBytes, UnLe, Le, ParseEntry;
      ghost var k := start - startIdx;
      OffsetRead(log.entries, k);
      idx.Seek((start - startIdx) * 8);
      var dataStart := idx.ReadUlong();
      var results := places;
      var i := 0;
      while i < first - start
        invariant i <= first - start && FilesHold(log) && idx.pos == 8 * (k + i + 1)
        invariant dataStart == Some(Offset(log.entries, k + i)) && |results| == |places| && (places == [] ==> i == 0)
        invariant forall x :: 0 <= x < |places| ==> results[x] == if x < i then Some(log.entries[k + x]) else places[x]
        modifies idx`pos, idx`bad, data`pos, data`bad
      {
        RecordAt(log.entries, k + i);
        OffsetRead(log.entries, k + i + 1);
        EntryRoundTrip(log.entries[k + i]);
        var dataEnd := idx.ReadUlong();
        data.Seek(dataStart.value);
        var s := data.Read(dataEnd.value - dataStart.value);
        if i >= |results| { return None; }
        results := results[i := ParseEntry(s.value)];
        dataStart := dataEnd;
        i := i + 1;
      }
      r := Some(results);
    }

    // log_entries is right exactly when the range reaches the cache.
    method LogEntries(start: nat, end: nat, ghost log: Log) returns (r: Fetched)
      requires Valid(log)
      modifies idx`pos, idx`bad, data`pos, data`bad
      ensures Valid(log)
      ensures r == Fetch(log, start, end) || r == WildWrite
      ensures r == WildWrite <==> Fetch(log, start, end).Entries? && end < cache.startIdx
    {
      hide DataImage, IdxImage, EntryBytes, UnLe, Le, ParseEntry;
      if start < startIdx { return OutOfRange; }
      if start >= end || start >= startIdx + entriesInStore { return Nothing; }
      var goodEnd := if end - startIdx > entriesInStore then entriesInStore + startIdx else end;
      var first, results := cache.Fill(start, goodEnd);
      if start < first {
        var filled := ReadBefore(start, first, results, log);
        if filled.None? { return WildWrite; }
        results := filled.value;
      }
      var es := seq(|results|, k requires 0 <= k < |results| && results[k].Some? => results[k].value);
      assert es == log.entries[start - log.start..goodEnd - log.start];
      r := Entries(es);
    }

    // ---------------------------------------------------------------- appending and overwriting

    // append keeps the log as long as the cache has room for one entry.
    method Append(e: LogEntry, ghost log: Log) returns (index: nat)
      requires Valid(log) && Fits(Appended(log, e))
      modifies this`entriesInStore, idx, data, cache
      ensures index == log.Next()
      ensures FilesHold(Appended(log, e))
      ensures Valid(Appended(log, e)) <==> bufSize >= 1
      ensures cache.startIdx == StartAfterPut(old(cache.startIdx), bufSize, log.Next())
    {
      hide DataImage, IdxImage, EntryBytes, Le;
      ImageSnoc(log.entries, e);
      idx.Seek(|idx.bytes|);
      data.Seek(|data.bytes|);
      idx.Write(Le(data.pos, 8));
      data.Write(EntryBytes(e));
      cache.Append(e);
      entriesInStore := entriesInStore + 1;
      index := startIdx + entriesInStore - 1;
    }

    // The writes of write_at and apply_pack, each at the position of its file; both files are
    // cut, but only when the index file reaches past what was written.
    method WriteFiles(idxBytes: seq<byte>, dataBytes: seq<byte>)
      requires idx != data && idx.pos <= |idx.bytes| && data.pos <= |data.bytes| && !idx.bad && !data.bad
      modifies idx, data
      ensures !idx.bad && !data.bad
      ensures idx.bytes == old(idx.bytes[..idx.pos]) + idxBytes
      ensures data.bytes == if old(idx.pos) + |idxBytes| < old(|idx.bytes|)
                            then old(data.bytes[..data.pos]) + dataBytes
                            else Splice(old(data.bytes), old(data.pos), dataBytes)
    {
      idx.Write(idxBytes);
      data.Write(dataBytes);
      var ndataLen, nidxLen := data.pos, idx.pos;
      idx.Seek(|idx.bytes|);
      if idx.pos > nidxLen {
        idx.Truncate(nidxLen);
        data.Truncate(ndataLen);
      }
    }

    // write_at fails outside [start, next]. Inside, the files are right exactly when no old bytes
    // are left behind, and the cache exactly when the index does not lie before it.
    method WriteAt(index: nat, e: LogEntry, ghost log: Log) returns (ok: bool)
      requires Valid(log) && (log.start <= index <= log.Next() ==> Fits(Put(log, index, e)))
      modifies this`entriesInStore, idx, data, cache
      ensures ok <==> log.start <= index <= log.Next()
      ensures !ok ==> Valid(log)
      ensures ok ==> (FilesHold(Put(log, index, e)) <==> !LeavesBytes(log, index, e))
      ensures ok ==> (CacheHolds(Put(log, index, e)) <==>
                bufSize >= 1 && (index == log.Next() || old(cache.startIdx) <= index))
      ensures ok && CacheHolds(Put(log, index, e)) ==> cache.startIdx == StartAfterPut(old(cache.startIdx), bufSize,
              index)
    {
      hide DataImage, IdxImage, Le, UnLe, IsSuffix;
      if index < startIdx || index > startIdx + entriesInStore { return false; }
      var localIdx := index - startIdx + 1;
      var idxPos := (localIdx - 1) * 8;
      ghost var k := localIdx - 1;
      CutAndPut(log.entries, k, e);
      if localIdx <= entriesInStore {
        OffsetRead(log.entries, k);
        idx.Seek(idxPos);
        var pos := idx.ReadUlong();
        data.Seek(pos.value);
      } else {
        data.Seek(|data.bytes|);
      }
      idx.Seek(idxPos);
      WriteFiles(Le(data.pos, 8), EntryBytes(e));
      PutInCache(index, localIdx <= entriesInStore, e, log);
      entriesInStore := localIdx;
      ok := true;
    }

    method PutInCache(index: nat, inside: bool, e: LogEntry, ghost log: Log)
      requires CacheHolds(log) && log.start <= index <= log.Next() && inside == (index < log.Next())
      modifies cache
      ensures cache.maxSize == bufSize
      ensures IsSuffix(cache.buf, cache.startIdx, bufSize, Put(log, index, e)) <==>
                bufSize >= 1 && (index == log.Next() || old(cache.startIdx) <= index)
      ensures index == log.Next() || old(cache.startIdx) <= index ==>
                cache.startIdx == StartAfterPut(old(cache.startIdx), bufSize, index)
    {
      ghost var kept := cache.buf;
      if inside { cache.Trim(index); }
      if index == log.Next() || cache.startIdx <= index {
        kept := kept[..index - cache.startIdx];
        assert cache.buf == kept == log.entries[cache.startIdx - log.start..index - log.start];
        SuffixPlusOne(log, index, e, cache.startIdx, kept);
      }
      cache.Append(e);
    }

    // ---------------------------------------------------------------- packs

    // pack(index, cnt): the pieces of both files that hold cnt entries, or as many as there are.
    // It fails before the log, and when the count takes nothing.
    method MakePack(index: nat, cnt: int32, ghost log: Log) returns (ok: bool, p: Option<Pack>)
      requires Valid(log)
      modifies idx`pos, idx`bad, data`pos, data`bad
      ensures Valid(log)
      ensures ok <==>
                && log.start <= index
                && (index < log.Next() ==> PackSize(index - log.start, cnt, |log.entries|) > 0)
      ensures ok && index >= log.Next() ==> p == None
      ensures ok && index < log.Next() ==>
                p == Some(PackOf(log.entries, index - log.start, PackSize(index - log.start, cnt, |log.entries|)))
    {
      hide DataImage, IdxImage, EntryBytes, Le, UnLe;
      if index < startIdx { return false, None; }
      var offset := index - startIdx;
      if offset >= entriesInStore { return true, None; }
      var end := (offset + cnt) % U64;
      var endOffset := if end < entriesInStore then end else entriesInStore;
      if endOffset < offset { return false, None; }
      var q := CutPack(offset, endOffset, log);
      ok, p := q.Some?, q;
    }

    // The pieces from one offset to another; None is the read of a first offset that is not there.
    method CutPack(offset: nat, endOffset: nat, ghost log: Log) returns (p: Option<Pack>)
      requires FilesHold(log) && offset < entriesInStore && offset <= endOffset <= entriesInStore
      modifies idx`pos, idx`bad, data`pos, data`bad
      ensures FilesHold(log)
      ensures p == if offset == endOffset then None else Some(PackOf(log.entries, offset, endOffset - offset))
    {
      hide DataImage, IdxImage, EntryBytes, Le, UnLe;
      IdxLength(log.entries);
      DataBetween(log.entries, offset, endOffset);
      idx.Seek(offset * 8);
      var idxBuf := idx.Read((endOffset - offset) * 8);
      var endOfData := |data.bytes|;
      if endOffset == entriesInStore {
        assert log.entries[..endOffset] == log.entries;
      } else {
        OffsetRead(log.entries, endOffset);
        var v := idx.ReadUlong();
        endOfData := v.value;
      }
      if |idxBuf.value| < 8 { return None; }
      FirstOffset(log.entries, offset, endOffset, idxBuf.value);
      var startOfData := UnLe(idxBuf.value[..8]);
      data.Seek(startOfData);
      var dataBuf := data.Read(endOfData - startOfData);
      return Some(Pack(idxBuf.value, dataBuf.value));
    }

    // The pieces of a pack lie in both files behind the first k records.
    ghost predicate Laid(log: Log, k: nat, p: Pack)
      reads this, idx, data
      requires k <= |log.entries|
    {
      IdxLength(log.entries);
      DataSplit(log.entries, k);
      var at := Offset(log.entries, k);
      && idx.bytes == IdxImage(log.entries)[..8 * k] + p.idx
      && data.bytes == (if k + |p.idx| / 8 < |log.entries| then DataImage(log.entries)[..at] + p.data
                        else Splice(DataImage(log.entries), at, p.data))
      && entriesInStore == k + |p.idx| / 8
    }

    // Both files go to where a pack for the index is to be written, which checks no bounds. None is
    // a read that finds no record there.
    method SeekPack(index: ulong, ghost log: Log) returns (local: Option<nat>)
      requires FilesHold(log)
      modifies idx`pos, idx`bad, data`pos
      ensures local.Some? <==> Lands(log, index)
      ensures local.None? ==> idx.bad
      ensures local.Some? ==> !idx.bad && idx.pos <= |idx.bytes| && data.pos <= |data.bytes|
      ensures local.Some? ==> if log.start <= index <= log.Next() then local.value == index - log.start
                              else local.value > |log.entries|
      ensures local.Some? && log.start <= index <= log.Next() ==>
                idx.pos == 8 * local.value && data.pos == Offset(log.entries, local.value)
    {
      hide DataImage, IdxImage, EntryBytes, Le, UnLe, Offset, Lands;
      var localIdx := (index - startIdx) % U64;
      IdxLength(log.entries);
      EntriesTakeSpace(log.entries);
      LocalIndex(log, index);
      if localIdx == entriesInStore {
        idx.Seek(|idx.bytes|);
        data.Seek(|data.bytes|);
        EndOffset(log.entries);
      } else {
        idx.Seek((localIdx * 8) % U64);
        var pos := idx.ReadUlong();
        if pos.None? { return None; }
        OffsetRead(log.entries, (localIdx * 8) % U64 / 8);
        DataSplit(log.entries, (localIdx * 8) % U64 / 8);
        idx.Seek((localIdx * 8) % U64);
        data.Seek(pos.value);
      }
      local := Some(localIdx);
    }

    // The writes of apply_pack.
    method LayPack(index: ulong, p: Pack, ghost log: Log) returns (ok: bool)
      requires FilesHold(log)
      modifies this`entriesInStore, idx, data
      ensures ok <==> Lands(log, index)
      ensures !ok ==> idx.bad && idx.bytes == old(idx.bytes) && data.bytes == old(data.bytes)
      ensures ok ==> !idx.bad && !data.bad
      ensures ok && !(log.start <= index <= log.Next()) ==> entriesInStore > |log.entries|
      ensures log.start <= index <= log.Next() ==> ok && Laid(log, index - log.start, p)
    {
      hide DataImage, IdxImage, EntryBytes, Le, UnLe, Lands, Offset;
      var local := SeekPack(index, log);
      if log.start <= index <= log.Next() { LandsInside(log, index); }
      if local.None? { return false; }
      IdxLength(log.entries);
      WriteFiles(p.idx, p.data);
      entriesInStore := local.value + |p.idx| / 8;
      ok := true;
    }

    lemma LaidFiles(index: nat, p: Pack, log: Log, src: seq<LogEntry>, off: nat, n: nat)
      requires log.start <= index <= log.Next() && Laid(log, index - log.start, p) && IsPack(p, src, off, n)
      requires Fits(log) && Fits(PutAll(log, index, src[off..off + n]))
      requires idx != data && idx != sti && data != sti && !idx.bad && !data.bad && !sti.bad
      requires sti.bytes == Le(log.start, 8) && startIdx == log.start
      ensures var after := PutAll(log, index, src[off..off + n]);
              && entriesInStore == |after.entries|
              && (FilesHold(after) <==>
                   Offset(src, off) == Offset(log.entries, index - log.start) && !PackLeavesBytes(log, index, p))
    {
      hide DataImage, IdxImage, EntryBytes, Le, UnLe, Offset;
      PackImages(log.entries, index - log.start, src, off, n);
    }

    // apply_pack: outside [start, next] it ruins the store, if only by a short read. Inside, any
    // pack is laid behind the records before the index; when it was made of n entries of some
    // log, files and cache are right exactly when it starts at the same byte in both logs and no
    // old bytes are left behind.
    method ApplyPack(index: ulong, p: Pack, ghost log: Log, ghost src: seq<LogEntry>, ghost off: nat, ghost n: nat)
      returns (ok: bool)
      requires Valid(log)
      modifies this`entriesInStore, idx, data, cache
      ensures !(log.start <= index <= log.Next()) ==> !Valid(log)
      ensures !Lands(log, index) ==> !ok && idx.bytes == old(idx.bytes) && data.bytes == old(data.bytes)
      ensures log.start <= index <= log.Next() ==> Lands(log, index) && Laid(log, index - log.start, p)
      ensures log.start <= index <= log.Next() && IsPack(p, src, off, n) && Fits(PutAll(log, index, src[off..off + n]))
              ==>
                var after := PutAll(log, index, src[off..off + n]);
                && (FilesHold(after) <==>
                     Offset(src, off) == Offset(log.entries, index - log.start) && !PackLeavesBytes(log, index, p))
                && (FilesHold(after) && bufSize >= 1 ==>
                     ok && Valid(after) && cache.startIdx == StartAfterFill(after, bufSize))
    {
      hide DataImage, IdxImage, EntryBytes, Le, UnLe, IsSuffix, Offset, Lands, PackOf, PackLeavesBytes;
      var laid := LayPack(index, p, log);
      if !laid { return false; }
      cache.Reset(if entriesInStore > bufSize then entriesInStore + startIdx - bufSize else startIdx);
      ghost var inside := log.start <= index <= log.Next() && IsPack(p, src, off, n);
      if inside && Fits(PutAll(log, index, src[off..off + n])) { LaidFiles(index, p, log, src, off, n); }
      ok := FillBuffer(if inside then PutAll(log, index, src[off..off + n]) else log);
    }

    // ---------------------------------------------------------------- compaction

    // compact fails before the log; otherwise it leaves the files and the cache of the rest. The
    // greatest index of all makes 0 the start index; without entries the unsigned last index of
    // such a store is the greatest one, and compacting anything else takes it for a partial
    // compaction, whose first read is short.
    method Compact(last: ulong, ghost log: Log) returns (ok: bool)
      requires Valid(log)
      modifies this, idx, data, sti, cache
      ensures ok <==> log.start <= last && (log.Next() > 0 || last + 1 == U64)
      ensures ok ==> (Valid(Compacted(log, last)) <==> last + 1 < U64)
      ensures ok && last + 1 < U64 ==> cache.startIdx == StartAfterFill(Compacted(log, last), bufSize)
      ensures ok && last + 1 == U64 ==> Valid(Log(0, []))
      ensures !ok ==> (Valid(log) <==> last < log.start)
      ensures cache == old(cache)
    {
      hide DataImage, IdxImage, EntryBytes, Le, UnLe, Offset, IsSuffix;
      if last < startIdx { return false; }
      IdxLength(log.entries);
      EntriesTakeSpace(log.entries);
      LastIndex(log, last);
      RoomToFill(cache.buf, cache.startIdx, bufSize, log);
      if last >= (startIdx + entriesInStore - 1) % U64 {
        Clear(last, log);
        cache.Reset(startIdx);
        NoSuffix(startIdx, bufSize);
        return true;
      }
      idx.Seek((last + 1 - startIdx) * 8 % U64);
      var dataPos := idx.ReadUlong();
      if dataPos.None? { return false; }
      OffsetRead(log.entries, last + 1 - startIdx);
      CutFront(last, dataPos.value, log);
      cache.Reset(if entriesInStore > bufSize then entriesInStore + startIdx - bufSize else startIdx);
      ok := FillBuffer(Compacted(log, last));
    }

    // What a partial compaction does to the files, the record after the last one being at dataPos.
    method CutFront(last: nat, dataPos: nat, ghost log: Log)
      requires FilesHold(log) && log.start <= last && last + 1 < log.Next()
      requires dataPos == Offset(log.entries, last + 1 - log.start)
      modifies this`startIdx, this`entriesInStore, idx, data, sti
      ensures FilesHold(Compacted(log, last))
    {
      hide DataImage, IdxImage, EntryBytes, Le, UnLe, Offset;
      DataSplit(log.entries, last + 1 - startIdx);
      ShrinkFiles(last + 1 - startIdx, dataPos, log);
      SaveStart(last + 1);
      entriesInStore := entriesInStore - (last - startIdx + 1);
      startIdx := last + 1;
    }

    // Both files are made anew, empty.
    method Clear(last: ulong, ghost log: Log)
      requires FilesHold(log)
      modifies this`startIdx, this`entriesInStore, idx, data, sti
      ensures FilesHold(Log(if last + 1 < U64 then last + 1 else 0, []))
    {
      hide DataImage, IdxImage, Le;
      ImageEmpty();
      LeWraps();
      idx.Truncate(0);
      data.Truncate(0);
      SaveStart(last + 1);
      startIdx, entriesInStore := (last + 1) % U64, 0;
    }

    method SaveStart(start: nat)
      requires |sti.bytes| <= 8 && !sti.bad
      modifies sti
      ensures sti.bytes == Le(start, 8) && !sti.bad
    {
      sti.Seek(0);
      sti.Write(Le(start, 8));
    }

    // The first k records leave both files: the data is copied down, every offset is rebased by
    // the position of record k, and both files are cut.
    method ShrinkFiles(k: nat, dataPos: nat, ghost log: Log)
      requires FilesHold(log) && k < |log.entries| && dataPos == Offset(log.entries, k)
      modifies idx, data
      ensures idx.bytes == IdxImage(log.entries[k..]) && data.bytes == DataImage(log.entries[k..])
      ensures !idx.bad && !data.bad
    {
      hide DataImage, IdxImage, EntryBytes, Le, UnLe;
      var idxBak := new File(idx.bytes);
      var dataBak := new File(data.bytes);
      DataSplit(log.entries, k);
      var dataLen := |data.bytes| - dataPos;
      data.Seek(0);
      data.Write(dataBak.bytes[dataPos..]);
      data.Truncate(dataLen);
      Rebase(k, dataPos, idxBak, log.entries);
    }

    method Rebase(k: nat, dataPos: nat, idxBak: File, ghost es: seq<LogEntry>)
      requires k <= |es| && |DataImage(es)| < U64 && dataPos == Offset(es, k)
      requires idxBak != idx && idxBak.bytes == idx.bytes == IdxImage(es) && !idx.bad && !idxBak.bad
      modifies idx, idxBak
      ensures idx.bytes == IdxImage(es[k..]) && !idx.bad
    {
      hide DataImage, IdxImage, Le, UnLe, Offset, Splice;
      IdxLength(es);
      IdxLength(es[k..]);
      var idxLen := |idx.bytes| - k * 8;
      idxBak.Seek(k * 8);
      idx.Seek(0);
      var i := 0;
      while i < idxLen / 8
        invariant i <= |es| - k && |idx.bytes| == 8 * |es| && !idx.bad && !idxBak.bad
        invariant idxBak.bytes == IdxImage(es) && idxBak.pos == 8 * (k + i) && idx.pos == 8 * i
        invariant idx.bytes[..8 * i] == IdxImage(es[k..])[..8 * i]
      {
        RebasedOffset(es, k, i);
        var v := idxBak.ReadUlong();
        SpliceOne(idx.bytes, IdxImage(es[k..]), i, Le(v.value - dataPos, 8));
        idx.Write(Le(v.value - dataPos, 8));
        i := i + 1;
      }
      idx.Truncate(idxLen);
    }
  }

  lemma FirstTerm(es: seq<LogEntry>, k: nat)
    requires k < |es|
    ensures Offset(es, k) + 8 <= |DataImage(es)|
    ensures UnLe(DataImage(es)[Offset(es, k)..Offset(es, k) + 8]) == es[k].term
  {
    hide DataImage, IdxImage, UnLe, Le;
    RecordAt(es, k);
    TermComesFirst(es[k], []);
    assert EntryBytes(es[k]) + [] == EntryBytes(es[k]);
    var d, o := DataImage(es), Offset(es, k);
    TakeOf(d, o, Offset(es, k + 1), 8);
  }

  lemma EntryLength(es: seq<LogEntry>, k: nat)
    ensures k < |es| ==> |EntryBytes(es[k])| == 9 + |es[k].payload|
  {
  }

  // The files with record k replaced and the rest dropped.
  lemma CutAndPut(es: seq<LogEntry>, k: nat, e: LogEntry)
    requires k <= |es|
    ensures |IdxImage(es)| == 8 * |es| && Offset(es, k) <= |DataImage(es)|
    ensures IdxImage(es[..k] + [e]) == IdxImage(es)[..8 * k] + Le(Offset(es, k), 8)
    ensures DataImage(es[..k] + [e]) == DataImage(es)[..Offset(es, k)] + EntryBytes(e)
    ensures k == |es| ==> Offset(es, k) == |DataImage(es)|
    ensures k + 1 == |es| ==> |DataImage(es)| == Offset(es, k) + 9 + |es[k].payload|
  {
    hide DataImage, IdxImage, Le, EntryBytes;
    IdxLength(es);
    EntryLength(es, k);
    ImageSnoc(es[..k], e);
    IdxPrefix(es, k);
    DataSplit(es, k);
    assert es[..|es|] == es;
    if k + 1 == |es| { RecordAt(es, k); }
  }

  // The files with the records from k on replaced by a pack.
  lemma PackImages(es: seq<LogEntry>, k: nat, src: seq<LogEntry>, off: nat, n: nat)
    requires k <= |es| && 1 <= n && off + n <= |src| && |DataImage(src)| < U64 && |DataImage(es)| < U64
    ensures |IdxImage(es)| == 8 * |es| && Offset(es, k) <= |DataImage(es)|
    ensures |PackOf(src, off, n).idx| == 8 * n && (k == |es| ==> Offset(es, k) == |DataImage(es)|)
    ensures IdxImage(es[..k] + src[off..off + n]) == IdxImage(es)[..8 * k] + PackOf(src, off, n).idx
            <==> Offset(src, off) == Offset(es, k)
    ensures DataImage(es[..k] + src[off..off + n]) == DataImage(es)[..Offset(es, k)] + PackOf(src, off, n).data
  {
    hide DataImage, IdxImage, Le;
    var after := es[..k] + src[off..off + n];
    IdxLength(es);
    IdxLength(src);
    IdxPrefix(es, k);
    DataSplit(es, k);
    DataBetween(src, off, off + n);
    DataConcat(es[..k], src[off..off + n]);
    assert es[..|es|] == es;
    if Offset(src, off) == Offset(es, k) {
      IdxConcat(es[..k], src, off, n);
    } else {
      PackMisaligned(es, k, src, off, n);
    }
  }

  lemma PackMisaligned(es: seq<LogEntry>, k: nat, src: seq<LogEntry>, off: nat, n: nat)
    requires k <= |es| && 1 <= n && off + n <= |src| && |DataImage(src)| < U64 && |DataImage(es)| < U64
    requires Offset(src, off) != Offset(es, k)
    ensures IdxImage(es[..k] + src[off..off + n]) != IdxImage(es[..k]) + PackOf(src, off, n).idx
  {
    hide DataImage, IdxImage, Le;
    var all, idx := es[..k] + src[off..off + n], PackOf(src, off, n).idx;
    IdxLength(es[..k]);
    IdxLength(src);
    RecordAt(src, off);
    RecordAt(all, k);
    assert all[..k] == es[..k];
    DataSplit(es, k);
    assert idx[..8] == Le(Offset(src, off), 8);
    if IdxImage(all) == IdxImage(es[..k]) + idx {
      assert IdxImage(all)[8 * k..8 * k + 8] == idx[..8];
      Le64Injective(Offset(src, off), Offset(es, k));
    }
  }

  lemma FirstOffset(es: seq<LogEntry>, j: nat, k: nat, piece: seq<byte>)
    requires j < k <= |es| && |DataImage(es)| < U64 && |IdxImage(es)| == 8 * |es| && piece == IdxImage(es)[8 * j..8 * k]
    ensures |piece| >= 8 && UnLe(piece[..8]) == Offset(es, j)
  {
    hide DataImage, IdxImage, UnLe;
    OffsetRead(es, j);
    TakeOf(IdxImage(es), 8 * j, 8 * k, 8);
  }

  lemma SuffixPlusOne(log: Log, index: nat, e: LogEntry, first: nat, kept: seq<LogEntry>)
    requires log.start <= first <= index <= log.Next() && kept == log.entries[first - log.start..index - log.start]
    ensures kept + [e] == Put(log, index, e).entries[first - log.start..]
    ensures (kept + [e])[1..] == Put(log, index, e).entries[first + 1 - log.start..]
  {
  }

  lemma SpliceOne(bytes: seq<byte>, image: seq<byte>, i: nat, w: seq<byte>)
    requires 8 * i + 8 <= |bytes| && 8 * i + 8 <= |image| && |w| == 8
    requires bytes[..8 * i] == image[..8 * i] && image[8 * i..8 * i + 8] == w
    ensures |Splice(bytes, 8 * i, w)| == |bytes| && Splice(bytes, 8 * i, w)[..8 * (i + 1)] == image[..8 * (i + 1)]
  {
    Glue(image, 0, 8 * i, 8 * i + 8);
    assert Splice(bytes, 8 * i, w)[..8 * i + 8] == bytes[..8 * i] + w;
  }

  lemma RebasedOffset(es: seq<LogEntry>, k: nat, i: nat)
    requires k + i < |es| && |DataImage(es)| < U64
    ensures |IdxImage(es)| == 8 * |es| && |IdxImage(es[k..])| == 8 * (|es| - k)
    ensures Offset(es, k) <= UnLe(IdxImage(es)[8 * (k + i)..8 * (k + i) + 8])
    ensures IdxImage(es[k..])[8 * i..8 * i + 8] == Le(UnLe(IdxImage(es)[8 * (k + i)..8 * (k + i) + 8]) - Offset(es,
            k), 8)
  {
    hide DataImage, IdxImage, Le, UnLe;
    IdxLength(es);
    IdxLength(es[k..]);
    OffsetRead(es, k + i);
    OffsetShift(es, k, i);
    RecordAt(es[k..], i);
  }

  // Element y of a piece of the index file that starts at record k.
  lemma OffsetInBuffer(log: Log, idxBuf: seq<byte>, k: nat, y: nat)
    requires Fits(log) && k + y < |log.entries| && idxBuf == IdxImage(log.entries)[8 * k..]
    ensures 8 * y + 8 <= |idxBuf| && UnLe(idxBuf[8 * y..8 * y + 8]) == Offset(log.entries, k + y)
    ensures |idxBuf| == 8 * (|log.entries| - k)
  {
    hide DataImage, IdxImage, UnLe;
    OffsetRead(log.entries, k + y);
    var idx := IdxImage(log.entries);
    assert |idx| == 8 * |log.entries| by { IdxLength(log.entries); }
    assert idxBuf[8 * y..8 * y + 8] == idx[8 * (k + y)..8 * (k + y) + 8];
  }
}
