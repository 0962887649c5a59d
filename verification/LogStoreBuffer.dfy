/** The in-memory suffix cache of fs_log_store.cxx and the file streams the store works on. */
module LogStoreBufferClass {
  import opened RaftTypes
  import opened Bytes
  import opened Codecs

  // A binary stream over one file: one position for reading and writing. After a short read the
  // stream is bad, and stays so until it is opened again.
  class File {
    var bytes: seq<byte>
    var pos: nat
    var bad: bool

    constructor (content: seq<byte>)
      ensures bytes == content && pos == |content| && !bad
    {
      bytes, pos, bad := content, |content|, false;
    }

    // Opened again, at the end.
    method Reopen()
      modifies this`pos, this`bad
      ensures pos == |bytes| && !bad
    {
      pos, bad := |bytes|, false;
    }

    method Seek(p: nat)
      modifies this`pos
      ensures pos == p
    {
      pos := p;
    }

    // None is the exception of a short read, or of any read after one.
    method Read(n: nat) returns (s: Option<seq<byte>>)
      modifies this`pos, this`bad
      ensures s == if !old(bad) && old(pos) + n <= |bytes| then Some(bytes[old(pos)..old(pos) + n]) else None
      ensures s.Some? ==> pos == old(pos) + n
      ensures bad == s.None?
    {
      bad := bad || pos + n > |bytes|;
      if bad { return None; }
      s := Some(bytes[pos..pos + n]);
      pos := pos + n;
    }

    method ReadUlong() returns (v: Option<nat>)
      modifies this`pos, this`bad
      ensures v == if !old(bad) && old(pos) + 8 <= |bytes| then Some(UnLe(bytes[old(pos)..old(pos) + 8])) else None
      ensures v.Some? ==> pos == old(pos) + 8
      ensures bad == v.None?
    {
      var s := Read(8);
      v := if s.Some? then Some(UnLe(s.value)) else None;
    }

    method Write(s: seq<byte>)
      requires pos <= |bytes| && !bad
      modifies this
      ensures pos == old(pos) + |s| && bytes == Splice(old(bytes), old(pos), s) && !bad
    {
      bytes := Splice(bytes, pos, s);
      pos := pos + |s|;
    }

    // truncate(path, n), after which the file is opened again at its end.
    method Truncate(n: nat)
      requires n <= |bytes|
      modifies this
      ensures bytes == old(bytes)[..n] && pos == n && !bad
    {
      bytes, pos, bad := bytes[..n], n, false;
    }
  }

  // Bytes laid over a file from a position on.
  function Splice(bytes: seq<byte>, pos: nat, s: seq<byte>): seq<byte>
    requires pos <= |bytes|
  {
    bytes[..pos] + s + if pos + |s| < |bytes| then bytes[pos + |s|..] else []
  }

  class LogStoreBuffer {
    var buf: seq<LogEntry>
    var startIdx: nat
    const maxSize: nat

    constructor (start: nat, size: nat)
      ensures buf == [] && startIdx == start && maxSize == size
    {
      buf, startIdx, maxSize := [], start, size;
    }

    // One past the last cached index.
    function LastIdx(): nat
      reads this
    {
      startIdx + |buf|
    }

    function FirstIdx(): nat
      reads this
    {
      startIdx
    }

    method LastEntry() returns (e: Option<LogEntry>)
      ensures e == if buf == [] then None else Some(buf[|buf| - 1])
    {
      if |buf| > 0 { return Some(buf[|buf| - 1]); }
      e := None;
    }

    method Get(idx: nat) returns (e: Option<LogEntry>)
      ensures e == if FirstIdx() <= idx < LastIdx() then Some(buf[idx - startIdx]) else None
    {
      if idx < startIdx || idx - startIdx >= |buf| { return None; }
      e := Some(buf[idx - startIdx]);
    }

    method GetTerm(index: nat) returns (t: ulong)
      ensures t == if FirstIdx() <= index < LastIdx() then buf[index - startIdx].term else 0
    {
      if index < startIdx || index >= startIdx + |buf| { return 0; }
      t := buf[index - startIdx].term;
    }

    // The entries of [start, end), empty places for those before the cache; nothing at all when
    // the whole range ends before the cache.
    method Fill(start: nat, end: nat) returns (first: nat, result: seq<Option<LogEntry>>)
      requires start <= end <= LastIdx()
      ensures first == startIdx
      ensures end < startIdx ==> result == []
      ensures startIdx <= end ==> |result| == end - start && forall k :: 0 <= k < end - start ==>
                result[k] == if start + k < startIdx then None else Some(buf[start + k - startIdx])
    {
      result := [];
      if end < startIdx { return startIdx, result; }
      var offset: int := start - startIdx;
      if offset > 0 {
        var i := 0;
        while i < end - start
          invariant i <= end - start && offset == start - startIdx + i && |result| == i
          invariant forall k :: 0 <= k < i ==> result[k] == Some(buf[start + k - startIdx])
        {
          result := result + [Some(buf[offset])];
          i, offset := i + 1, offset + 1;
        }
      } else {
        offset := -offset;
        var i := 0;
        while i < offset
          invariant i <= offset && result == seq(i, _ => None)
        {
          result := result + [None];
          i := i + 1;
        }
        i := 0;
        while i < end - startIdx
          invariant i <= end - startIdx && |result| == startIdx - start + i
          invariant forall k :: 0 <= k < |result| ==>
                      result[k] == if start + k < startIdx then None else Some(buf[start + k - startIdx])
        {
          result := result + [Some(buf[i])];
          i := i + 1;
        }
      }
      first := startIdx;
    }

    // trim(start) drops the entries from start on, unless start lies before the cache.
    method Trim(start: nat)
      modifies this`buf
      ensures buf == if FirstIdx() <= start < old(LastIdx()) then old(buf)[..start - startIdx] else old(buf)
    {
      if start < startIdx { return; }
      var index := start - startIdx;
      if index < |buf| { buf := buf[..index]; }
    }

    method Append(e: LogEntry)
      modifies this`buf, this`startIdx
      ensures var all := old(buf) + [e];
              if maxSize < |all| then buf == all[1..] && startIdx == old(startIdx) + 1
              else buf == all && startIdx == old(startIdx)
    {
      buf := buf + [e];
      if maxSize < |buf| {
        buf, startIdx := buf[1..], startIdx + 1;
      }
    }

    method Reset(start: nat)
      modifies this`buf, this`startIdx
      ensures buf == [] && startIdx == start
    {
      buf, startIdx := [], start;
    }
  }
}
