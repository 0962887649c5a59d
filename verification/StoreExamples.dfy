/** Concrete runs in which the log store falls short of its contract, one for each case that the
    contracts in FsLogStore and the predicate StoreRuns.Kept exclude. */
module StoreExamples {
  import opened RaftTypes
  import opened Bytes
  import opened Codecs
  import opened LogImages
  import opened LogStoreBufferClass
  import opened FsLogStoreClass

  const A := LogEntry(1, 1, [7, 7])
  const B := LogEntry(1, 1, [8, 8])
  const C := LogEntry(2, 1, [9, 9])
  const SHORT := LogEntry(2, 1, [])

  lemma FewBytes(es: seq<LogEntry>)
    requires |es| <= 3 && forall e :: e in es ==> |e.payload| <= 2
    ensures |DataImage(es)| <= 11 * |es|
  {
    if es != [] { FewBytes(es[..|es| - 1]); }
  }

  // A new store over three empty files.
  method Fresh(size: int) returns (store: FsLogStore)
    ensures fresh(store) && fresh(store.idx) && fresh(store.data) && fresh(store.sti) && fresh(store.cache)
    ensures store.Valid(Log(1, [])) && store.bufSize == CacheSize(size) && store.cache.startIdx == 1
  {
    hide DataImage, IdxImage, Le;
    ImageEmpty();
    var idx := new File([]);
    var data := new File([]);
    var sti := new File([]);
    var r := FsLogStore.Open(idx, data, sti, size, Log(1, []));
    store := r.value;
  }

  method OneEntry() returns (store: FsLogStore)
    ensures fresh(store) && fresh(store.idx) && fresh(store.data) && fresh(store.sti) && fresh(store.cache)
    ensures store.Valid(Log(1, [A])) && store.cache.startIdx == 1
  {
    hide DataImage, IdxImage, Le, FsLogStore.Valid, FsLogStore.FilesHold, FsLogStore.CacheHolds;
    store := Fresh(-1);
    FewBytes([A]);
    assert Appended(Log(1, []), A) == Log(1, [A]);
    var i := store.Append(A, Log(1, []));
  }

  // A record replaced by a shorter one at the end of the log: bytes of the old one stay.
  method ShorterRecord() returns (store: FsLogStore)
    ensures fresh(store) && fresh(store.idx) && fresh(store.data) && fresh(store.sti) && fresh(store.cache)
    ensures !store.FilesHold(Put(Log(1, [A]), 1, SHORT))
  {
    hide DataImage, IdxImage, Le, FsLogStore.Valid, FsLogStore.FilesHold, FsLogStore.CacheHolds;
    store := OneEntry();
    FewBytes([SHORT]);
    assert [A][..0] + [SHORT] == [SHORT];
    var ok := store.WriteAt(1, SHORT, Log(1, [A]));
  }

  // An entry replaced that is no longer cached: the cache takes the new one for a later index.
  method BeforeTheCache() returns (store: FsLogStore)
    ensures fresh(store) && fresh(store.idx) && fresh(store.data) && fresh(store.sti) && fresh(store.cache)
    ensures !store.CacheHolds(Put(Log(1, [A, B]), 1, C))
  {
    hide DataImage, IdxImage, Le, FsLogStore.Valid, FsLogStore.FilesHold, FsLogStore.CacheHolds;
    store := TwoEntries();
    FewBytes([C]);
    assert [A, B][..0] + [C] == [C];
    var ok := store.WriteAt(1, C, Log(1, [A, B]));
  }

  method TwoEntries() returns (store: FsLogStore)
    ensures fresh(store) && fresh(store.idx) && fresh(store.data) && fresh(store.sti) && fresh(store.cache)
    ensures store.Valid(Log(1, [A, B])) && store.bufSize == 1 && store.cache.startIdx == 2
  {
    hide DataImage, IdxImage, Le, FsLogStore.Valid, FsLogStore.FilesHold, FsLogStore.CacheHolds;
    store := Fresh(1);
    FewBytes([A]);
    FewBytes([A, B]);
    assert Appended(Log(1, []), A) == Log(1, [A]) && Appended(Log(1, [A]), B) == Log(1, [A, B]);
    var i := store.Append(A, Log(1, []));
    i := store.Append(B, Log(1, [A]));
  }

  // A range that ends before the cache: the entries read from disk have no place to go.
  method RangeBeforeTheCache() returns (r: Fetched)
    ensures r == WildWrite
  {
    hide DataImage, IdxImage, Le;
    var store := TwoEntries();
    FewBytes([A, B, C]);
    assert [A, B] + [C] == [A, B, C];
    var i := store.Append(C, Log(1, [A, B]));
    r := store.LogEntries(1, 2, Log(1, [A, B, C]));
  }

  // A cache of size 0 forgets the last entry.
  method NoCache() returns (store: FsLogStore)
    ensures fresh(store) && fresh(store.idx) && fresh(store.data) && fresh(store.sti) && fresh(store.cache)
    ensures store.FilesHold(Log(1, [A])) && !store.Valid(Log(1, [A]))
  {
    hide DataImage, IdxImage, Le, FsLogStore.Valid, FsLogStore.FilesHold, FsLogStore.CacheHolds;
    store := Fresh(0);
    FewBytes([A]);
    assert Appended(Log(1, []), A) == Log(1, [A]);
    var i := store.Append(A, Log(1, []));
  }

  // Nor can a store with entries be opened with such a cache.
  method NoCacheAgain() returns (again: Option<FsLogStore>)
    ensures again == None
  {
    hide DataImage, IdxImage, Le;
    var store := NoCache();
    again := FsLogStore.Open(store.idx, store.data, store.sti, 0, Log(1, [A]));
  }

  // A pack whose first record lies at another byte than in the store it is applied to.
  method MisalignedPack() returns (store: FsLogStore)
    ensures fresh(store) && fresh(store.idx) && fresh(store.data) && fresh(store.sti) && fresh(store.cache)
    ensures !store.FilesHold(PutAll(Log(1, [A]), 2, [C]))
  {
    hide DataImage, IdxImage, Le, FsLogStore.Valid, FsLogStore.FilesHold, FsLogStore.CacheHolds;
    store := OneEntry();
    FewBytes([SHORT, C]);
    FewBytes([A, C]);
    assert [A][..1] + [C] == [A, C] && [SHORT, C][1..2] == [C];
    FirstLengths();
    var ok := store.ApplyPack(2, PackOf([SHORT, C], 1, 1), Log(1, [A]), [SHORT, C], 1, 1);
  }

  lemma FirstLengths()
    ensures Offset([SHORT, C], 1) == Offset([SHORT], 1) == 9
    ensures Offset([A], 1) == |DataImage([A])| == 11
    ensures forall e :: Offset([e], 0) == 0
  {
    hide DataImage;
    ImageSnoc([], A);
    ImageSnoc([], SHORT);
    ImageEmpty();
    assert [SHORT, C][..1] == [] + [SHORT] && [SHORT][..1] == [] + [SHORT] && [A][..1] == [] + [A];
    assert forall e: LogEntry :: [e][..0] == [];
  }

  // A pack that replaces the last entry by a shorter one: bytes of the old one stay.
  method ShorterPack() returns (store: FsLogStore)
    ensures fresh(store) && fresh(store.idx) && fresh(store.data) && fresh(store.sti) && fresh(store.cache)
    ensures !store.FilesHold(PutAll(Log(1, [A]), 1, [SHORT]))
  {
    hide DataImage, IdxImage, Le, FsLogStore.Valid, FsLogStore.FilesHold, FsLogStore.CacheHolds;
    store := OneEntry();
    FewBytes([SHORT]);
    assert [A][..0] + [SHORT] == [SHORT] && [SHORT][0..1] == [SHORT];
    FirstLengths();
    IdxLength([SHORT]);
    var ok := store.ApplyPack(1, PackOf([SHORT], 0, 1), Log(1, [A]), [SHORT], 0, 1);
  }

  // A pack that would leave a gap: its first read is short, and the index file stays bad.
  method GapPack() returns (store: FsLogStore)
    ensures fresh(store) && fresh(store.idx) && fresh(store.data) && fresh(store.sti) && fresh(store.cache)
    ensures !store.Valid(Log(1, []))
  {
    hide DataImage, IdxImage, Le, IsPack, FsLogStore.Valid, FsLogStore.FilesHold, FsLogStore.CacheHolds;
    store := Fresh(-1);
    var ok := store.ApplyPack(3, Pack([], []), Log(1, []), [], 0, 0);
  }

  // The term of the next slot is not there, and asking for it leaves the index file bad.
  method TermOfNextSlot() returns (store: FsLogStore, t: Option<nat>)
    ensures fresh(store) && fresh(store.idx) && fresh(store.data) && fresh(store.sti) && fresh(store.cache)
    ensures t == None && !store.Valid(Log(1, [A]))
  {
    hide DataImage, IdxImage, Le, FsLogStore.Valid, FsLogStore.FilesHold, FsLogStore.CacheHolds;
    store := OneEntry();
    t := store.TermAt(2, Log(1, [A]));
  }

  // An index 2^32 further on has the term of the first entry.
  method TermFarAway() returns (t: Option<nat>)
    ensures t == Some(A.term)
  {
    hide DataImage, IdxImage, Le, FsLogStore.Valid, FsLogStore.FilesHold, FsLogStore.CacheHolds;
    var store := OneEntry();
    t := store.TermAt(1 + U32, Log(1, [A]));
  }

  // A compaction up to the greatest index: the start index comes round to 0.
  method GreatestIndex() returns (store: FsLogStore)
    ensures fresh(store) && fresh(store.idx) && fresh(store.data) && fresh(store.sti) && fresh(store.cache)
    ensures !store.Valid(Compacted(Log(1, []), U64 - 1)) && store.Valid(Log(0, []))
  {
    hide DataImage, IdxImage, Le;
    store := Fresh(-1);
    var ok := store.Compact(U64 - 1, Log(1, []));
  }

  // From there no other compaction works.
  method FromIndexZero() returns (store: FsLogStore, ok: bool)
    ensures fresh(store) && fresh(store.idx) && fresh(store.data) && fresh(store.sti) && fresh(store.cache)
    ensures !ok && !store.Valid(Log(0, []))
  {
    hide DataImage, IdxImage, Le;
    store := GreatestIndex();
    ok := store.Compact(3, Log(0, []));
  }
}
