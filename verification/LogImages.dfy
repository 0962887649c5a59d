/** The two files of the log store as functions of the entries: the data file is their records one
    after the other, the index file the 8-byte offset of each record. */
module LogImages {
  import opened Bytes
  import opened Codecs

  // A store as its users see it: entry k has index start + k.
  datatype Log = Log(start: nat, entries: seq<LogEntry>) {
    function Next(): nat { start + |entries| }
  }

  function DataImage(es: seq<LogEntry>): (s: seq<byte>)
    ensures es == [] ==> s == []
  {
    if es == [] then [] else DataImage(es[..|es| - 1]) + EntryBytes(es[|es| - 1])
  }

  // Where record k starts; for k == |es|, where the next one will.
  function Offset(es: seq<LogEntry>, k: nat): nat
    requires k <= |es|
  {
    |DataImage(es[..k])|
  }

  function IdxImage(es: seq<LogEntry>): (s: seq<byte>)
    ensures |s| == 8 * |es|
  {
    if es == [] then [] else IdxImage(es[..|es| - 1]) + Le(|DataImage(es[..|es| - 1])|, 8)
  }

  lemma IdxLength(es: seq<LogEntry>)
    ensures |IdxImage(es)| == 8 * |es|
  {
  }

  // Offsets are 64-bit numbers.
  predicate Fits(log: Log) {
    |DataImage(log.entries)| < U64 && log.Next() < U64
  }

  function U64At(s: seq<byte>, k: nat): nat
    requires 8 * k + 8 <= |s|
  {
    UnLe(s[8 * k..8 * k + 8])
  }

  lemma ImageEmpty()
    ensures DataImage([]) == [] && IdxImage([]) == []
  {
  }

  lemma ImageSnoc(es: seq<LogEntry>, e: LogEntry)
    ensures DataImage(es + [e]) == DataImage(es) + EntryBytes(e)
    ensures IdxImage(es + [e]) == IdxImage(es) + Le(|DataImage(es)|, 8)
  {
    assert (es + [e])[..|es|] == es;
  }

  lemma {:induction false} DataConcat(a: seq<LogEntry>, b: seq<LogEntry>)
    ensures DataImage(a + b) == DataImage(a) + DataImage(b)
    decreases |b|
  {
    hide DataImage, IdxImage, EntryBytes;
    if b == [] {
      assert a + b == a;
    } else {
      var c := b[..|b| - 1];
      var e := b[|b| - 1];
      assert a + b == (a + c) + [e] && b == c + [e];
      DataConcat(a, c);
      ImageSnoc(a + c, e);
      ImageSnoc(c, e);
    }
  }

  // The data file cut at an offset.
  lemma DataSplit(es: seq<LogEntry>, k: nat)
    requires k <= |es|
    ensures Offset(es, k) <= |DataImage(es)|
    ensures DataImage(es)[..Offset(es, k)] == DataImage(es[..k])
    ensures DataImage(es)[Offset(es, k)..] == DataImage(es[k..])
  {
    hide DataImage, IdxImage, EntryBytes;
    assert es == es[..k] + es[k..];
    DataConcat(es[..k], es[k..]);
  }

  lemma {:induction false} IdxPrefix(es: seq<LogEntry>, k: nat)
    requires k <= |es|
    ensures IdxImage(es)[..8 * k] == IdxImage(es[..k])
    decreases |es| - k
  {
    hide DataImage, IdxImage, EntryBytes;
    if k == |es| {
      assert es[..k] == es;
    } else {
      IdxPrefix(es, k + 1);
      ImageSnoc(es[..k], es[k]);
      assert es[..k + 1] == es[..k] + [es[k]];
      assert IdxImage(es)[..8 * k] == IdxImage(es)[..8 * (k + 1)][..8 * k];
    }
  }

  // Record k and its offset, read from the files.
  lemma RecordAt(es: seq<LogEntry>, k: nat)
    requires k < |es|
    ensures Offset(es, k + 1) == Offset(es, k) + |EntryBytes(es[k])| && Offset(es, k + 1) <= |DataImage(es)|
    ensures DataImage(es)[Offset(es, k)..Offset(es, k + 1)] == EntryBytes(es[k])
    ensures IdxImage(es)[8 * k..8 * k + 8] == Le(Offset(es, k), 8)
  {
    hide DataImage, IdxImage, EntryBytes;
    assert es[..k + 1] == es[..k] + [es[k]];
    ImageSnoc(es[..k], es[k]);
    DataSplit(es, k + 1);
    var d := DataImage(es);
    assert d[Offset(es, k)..Offset(es, k + 1)] == d[..Offset(es, k + 1)][Offset(es, k)..];
    IdxPrefix(es, k + 1);
    assert IdxImage(es)[8 * k..8 * k + 8] == IdxImage(es)[..8 * (k + 1)][8 * k..];
  }

  lemma OffsetRead(es: seq<LogEntry>, k: nat)
    requires k < |es| && |DataImage(es)| < U64
    ensures U64At(IdxImage(es), k) == Offset(es, k) && Offset(es, k) <= |DataImage(es)|
  {
    hide DataImage, IdxImage, EntryBytes;
    RecordAt(es, k);
    Le64ReadBack(Offset(es, k));
  }

  lemma {:induction false} OffsetsIncrease(es: seq<LogEntry>, j: nat, k: nat)
    requires j < k <= |es|
    ensures Offset(es, j) + 9 <= Offset(es, k)
    decreases k - j
  {
    hide DataImage, IdxImage, EntryBytes;
    RecordAt(es, k - 1);
    if j < k - 1 {
      OffsetsIncrease(es, j, k - 1);
    }
  }

  // The files determine the log: offsets start at 0, strictly increase, and the bytes between
  // them are the records, so no two logs have the same files.
  lemma {:induction false} FilesDetermineLog(a: seq<LogEntry>, b: seq<LogEntry>)
    requires IdxImage(a) == IdxImage(b) && DataImage(a) == DataImage(b) && |DataImage(a)| < U64
    ensures a == b
    decreases |a|
  {
    hide DataImage, IdxImage, EntryBytes;
    if a != [] {
      var n := |a| - 1;
      RecordAt(a, n);
      RecordAt(b, n);
      OffsetRead(a, n);
      OffsetRead(b, n);
      assert a[..n + 1] == a && b[..n + 1] == b;
      EntryBytesInjective(a[n], b[n]);
      IdxPrefix(a, n);
      IdxPrefix(b, n);
      DataSplit(a, n);
      DataSplit(b, n);
      FilesDetermineLog(a[..n], b[..n]);
      assert a == a[..n] + [a[n]] && b == b[..n] + [b[n]];
    }
  }

  // ---------------------------------------------------------------- a part moved to another place

  // Offsets in a part of a log are those of the whole, less the part's own start.
  lemma OffsetShift(es: seq<LogEntry>, k: nat, j: nat)
    requires k + j <= |es|
    ensures Offset(es[k..], j) == Offset(es, k + j) - Offset(es, k)
  {
    hide DataImage, IdxImage, EntryBytes;
    assert es[..k + j] == es[..k] + es[k..][..j];
    DataConcat(es[..k], es[k..][..j]);
  }

  // The records of es[j..k].
  lemma DataBetween(es: seq<LogEntry>, j: nat, k: nat)
    requires j <= k <= |es|
    ensures Offset(es, j) <= Offset(es, k) <= |DataImage(es)|
    ensures DataImage(es)[Offset(es, j)..Offset(es, k)] == DataImage(es[j..k])
  {
    hide DataImage, IdxImage, EntryBytes;
    DataSplit(es, k);
    DataSplit(es[..k], j);
    assert es[..k][..j] == es[..j] && es[..k][j..] == es[j..k];
    var d := DataImage(es);
    assert d[..Offset(es, k)][Offset(es, j)..] == d[Offset(es, j)..Offset(es, k)];
  }

  lemma TakeOf(s: seq<byte>, x: nat, y: nat, n: nat)
    requires x + n <= y <= |s|
    ensures s[x..y][..n] == s[x..x + n]
  {
  }

  lemma Glue(s: seq<byte>, x: nat, y: nat, z: nat)
    requires x <= y <= z <= |s|
    ensures s[x..z] == s[x..y] + s[y..z]
  {
  }

  lemma SameOffset(a: seq<LogEntry>, src: seq<LogEntry>, off: nat, m: nat)
    requires off + m <= |src| && Offset(src, off) == |DataImage(a)|
    ensures Offset(src, off + m) == |DataImage(a + src[off..off + m])|
  {
    hide DataImage;
    DataConcat(a, src[off..off + m]);
    DataConcat(src[..off], src[off..off + m]);
    assert src[..off] + src[off..off + m] == src[..off + m];
  }

  lemma IdxStep(b: seq<LogEntry>, src: seq<LogEntry>, p: nat)
    requires p < |src| && Offset(src, p) == |DataImage(b)|
    ensures IdxImage(b + [src[p]]) == IdxImage(b) + IdxImage(src)[8 * p..8 * p + 8]
  {
    hide DataImage, IdxImage, EntryBytes;
    ImageSnoc(b, src[p]);
    RecordAt(src, p);
  }

  // Offsets of the pieces laid behind other entries.
  lemma {:induction false} IdxConcat(a: seq<LogEntry>, src: seq<LogEntry>, off: nat, n: nat)
    requires off + n <= |src| && Offset(src, off) == |DataImage(a)|
    ensures IdxImage(a + src[off..off + n]) == IdxImage(a) + IdxImage(src)[8 * off..8 * (off + n)]
    decreases n
  {
    hide DataImage, IdxImage, Offset;
    var idx := IdxImage(src);
    if n == 0 {
      assert a + src[off..off] == a && idx[8 * off..8 * off] == [];
    } else {
      var p := off + n - 1;
      IdxConcat(a, src, off, n - 1);
      SameOffset(a, src, off, n - 1);
      IdxStep(a + src[off..p], src, p);
      assert a + src[off..off + n] == a + src[off..p] + [src[p]];
      Glue(idx, 8 * off, 8 * p, 8 * p + 8);
      Regroup(IdxImage(a), idx[8 * off..8 * p], idx[8 * p..8 * p + 8]);
    }
  }

  lemma Regroup(x: seq<byte>, y: seq<byte>, z: seq<byte>)
    ensures x + y + z == x + (y + z)
  {
  }

  // Every record has at least nine bytes.
  lemma {:induction false} EntriesTakeSpace(es: seq<LogEntry>)
    ensures 9 * |es| <= |DataImage(es)|
    decreases |es|
  {
    if es != [] { EntriesTakeSpace(es[..|es| - 1]); }
  }
}
