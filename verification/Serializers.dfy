/** The serializers themselves: puts into a buffer of the right size, gets that advance one. Each is
    proved against the layout or the reader of module Codecs. None stands for an exception. */
module Serializers {
  import opened RaftTypes
  import opened Bytes
  import opened BufferClass
  import opened Codecs

  // A buffer rewound to its start.
  ghost predicate Holds(b: Buffer, bytes: seq<byte>)
    reads b, b.raw
  {
    b.Valid() && b.Done() == [] && b.Rest() == bytes
  }

  // A reader's outcome on a buffer is what the functional reader makes of its rest.
  ghost predicate Yields<T>(p: Option<Parsed<T>>, r: Option<T>, rest: seq<byte>) {
    match p
    case None => r.None?
    case Some(q) => r == Some(q.value) && rest == q.rest
  }

  method Rewound(b: Buffer, ghost bytes: seq<byte>)
    requires b.Valid() && b.Done() == bytes && b.Rest() == []
    modifies b.raw
    ensures Holds(b, bytes)
  {
    hide Buffer.Valid, Buffer.Done, Buffer.Rest, Buffer.Size, Buffer.Pos, Buffer.Big, Buffer.Head, Le;
    assert b.Done() + b.Rest() == bytes;
    b.SetPos(0);
    assert b.Done() + b.Rest() == b.Rest();
  }

  // The puts into a buffer of the right size: none of them can fail.
  method Number(b: Buffer, v: int, n: nat)
    requires b.Valid() && n <= |b.Rest()|
    modifies b.raw
    ensures b.Valid() && b.Done() == old(b.Done()) + Le(v, n) && |b.Rest()| == old(|b.Rest()|) - n
  {
    var ok := b.PutNumber(v, n);
  }

  // Two numbers of eight bytes and one of n.
  method Numbers(b: Buffer, v: int, w: int, x: int, n: nat)
    requires b.Valid() && 16 + n <= |b.Rest()|
    modifies b.raw
    ensures b.Valid() && b.Done() == old(b.Done()) + Le(v, 8) + Le(w, 8) + Le(x, n)
    ensures |b.Rest()| == old(|b.Rest()|) - 16 - n
  {
    hide Buffer.Valid, Buffer.Done, Buffer.Rest, Buffer.Size, Buffer.Pos, Buffer.Big, Buffer.Head, Le;
    Number(b, v, 8);
    Number(b, w, 8);
    Number(b, x, n);
  }

  method One(b: Buffer, v: byte)
    requires b.Valid() && 1 <= |b.Rest()|
    modifies b.raw
    ensures b.Valid() && b.Done() == old(b.Done()) + [v] && |b.Rest()| == old(|b.Rest()|) - 1
  {
    var ok := b.PutByte(v);
  }

  method All(b: Buffer, other: Buffer)
    requires b.Valid() && other.Valid() && other.raw != b.raw && |other.Rest()| <= |b.Rest()|
    modifies b.raw
    ensures b.Valid() && b.Done() == old(b.Done()) + old(other.Rest())
    ensures |b.Rest()| == old(|b.Rest()|) - old(|other.Rest()|)
  {
    var ok := b.PutBuffer(other);
  }

  // ---------------------------------------------------------------- srv_config

  method SerializeSrv(c: SrvConfig) returns (b: Option<Buffer>)
    ensures b.Some? <==> |SrvBytes(c)| < BIG_TAG
    ensures b.Some? ==> fresh(b.value) && fresh(b.value.raw) && Holds(b.value, SrvBytes(c))
  {
    hide Buffer.Valid, Buffer.Done, Buffer.Rest, Buffer.Size, Buffer.Pos, Buffer.Big, Buffer.Head, Le;
    b := Buffer.Alloc(4 + |c.endpoint| + 1);
    if b.None? { return; }
    var ok := b.value.PutNumber(c.id, 4);
    ok := b.value.PutStr(c.endpoint);
    Rewound(b.value, SrvBytes(c));
  }

  method DeserializeSrv(buf: Buffer) returns (r: Option<SrvConfig>)
    requires buf.Valid()
    modifies buf.raw
    ensures buf.Valid() && Yields(ParseSrv(old(buf.Rest())), r, buf.Rest())
  {
    hide Buffer.Valid, Buffer.Done, Buffer.Rest, Buffer.Size, Buffer.Pos, Buffer.Big, Buffer.Head, Le;
    var id := buf.GetInt();
    if id.None? { return None; }
    var endpoint := buf.GetStr();
    if endpoint.None? { return None; }
    r := Some(SrvConfig(id.value, endpoint.value));
  }

  // ---------------------------------------------------------------- cluster_config

  ghost predicate AllHold(bs: seq<Buffer>, cs: seq<SrvConfig>)
    requires |bs| <= |cs|
    reads bs, set b | b in bs :: b.raw
  {
    forall k :: 0 <= k < |bs| ==> Holds(bs[k], SrvBytes(cs[k]))
  }

  lemma {:induction false} ServersBytesSplit(cs: seq<SrvConfig>, k: nat)
    requires k < |cs|
    ensures ServersBytes(cs[..k + 1]) == ServersBytes(cs[..k]) + SrvBytes(cs[k])
    ensures |ServersBytes(cs[..k + 1])| <= |ServersBytes(cs)|
    decreases k
  {
    hide SrvBytes;
    var c := cs[0];
    assert cs[..k + 1][1..] == cs[1..][..k];
    if k == 0 {
      assert cs[..1][1..] == [];
    } else {
      ServersBytesSplit(cs[1..], k - 1);
      assert cs[..k][1..] == cs[1..][..k - 1];
      Regroup(SrvBytes(c), ServersBytes(cs[1..][..k - 1]), SrvBytes(cs[k]));
    }
  }

  lemma Regroup(x: seq<byte>, y: seq<byte>, z: seq<byte>)
    ensures x + y + z == x + (y + z)
  {
  }

  lemma {:induction false} NoMoreServersThanBytes(cs: seq<SrvConfig>)
    ensures |cs| <= |ServersBytes(cs)|
    decreases |cs|
  {
    if cs != [] { NoMoreServersThanBytes(cs[1..]); }
  }

  method SerializeServers(cs: seq<SrvConfig>) returns (bs: Option<seq<Buffer>>, size: nat)
    ensures bs.None? ==> BIG_TAG <= |ServersBytes(cs)|
    ensures bs.Some? ==> |bs.value| == |cs| && AllHold(bs.value, cs) && size == |ServersBytes(cs)|
    ensures bs.Some? ==> forall b :: b in bs.value ==> fresh(b) && fresh(b.raw)
  {
    hide Buffer.Valid, Buffer.Done, Buffer.Rest, Buffer.Size, Buffer.Pos, Buffer.Big, Buffer.Head, Le;
    var list: seq<Buffer> := [];
    size := 0;
    while |list| < |cs|
      invariant |list| <= |cs| && AllHold(list, cs) && size == |ServersBytes(cs[..|list|])|
      invariant forall b :: b in list ==> fresh(b) && fresh(b.raw)
    {
      var k := |list|;
      ServersBytesSplit(cs, k);
      var b := SerializeSrv(cs[k]);
      if b.None? { return None, 0; }
      list := list + [b.value];
      size := size + b.value.Size();
    }
    assert cs[..|cs|] == cs;
    return Some(list), size;
  }

  method PutConfig(b: Buffer, c: ClusterConfig, bs: seq<Buffer>)
    requires b.Valid() && b.Done() == [] && |bs| == |c.servers| && AllHold(bs, c.servers)
    requires |b.Rest()| == |ConfigBytes(c)| < BIG_TAG && forall x :: x in bs ==> x.raw != b.raw
    modifies b.raw
    ensures Holds(b, ConfigBytes(c))
  {
    hide Buffer.Valid, Buffer.Done, Buffer.Rest, Buffer.Size, Buffer.Pos, Buffer.Big, Buffer.Head, Le;
    NoMoreServersThanBytes(c.servers);
    Numbers(b, c.logIdx, c.prevLogIdx, Signed(|c.servers|), 4);
    PutServers(b, bs, c.servers);
    Rewound(b, ConfigBytes(c));
  }

  method SerializeConfig(c: ClusterConfig) returns (result: Option<Buffer>)
    ensures result.Some? <==> |ConfigBytes(c)| < BIG_TAG
    ensures result.Some? ==> fresh(result.value) && fresh(result.value.raw) && Holds(result.value, ConfigBytes(c))
  {
    hide Buffer.Valid, Buffer.Done, Buffer.Rest, Buffer.Size, Buffer.Pos, Buffer.Big, Buffer.Head, Le;
    var bs, size := SerializeServers(c.servers);
    if bs.None? { return None; }
    result := Buffer.Alloc(20 + size);
    if result.None? { return; }
    PutConfig(result.value, c, bs.value);
  }

  method PutServers(b: Buffer, bs: seq<Buffer>, cs: seq<SrvConfig>)
    requires b.Valid() && |bs| == |cs| && AllHold(bs, cs) && |b.Rest()| == |ServersBytes(cs)|
    requires forall x :: x in bs ==> x.raw != b.raw
    modifies b.raw
    ensures b.Valid() && b.Size() == old(b.Size()) && b.Rest() == [] && b.Done() == old(b.Done()) + ServersBytes(cs)
  {
    hide Buffer.Valid, Buffer.Done, Buffer.Rest, Buffer.Size, Buffer.Pos, Buffer.Big, Buffer.Head, Le;
    var i := 0;
    while i < |bs|
      invariant i <= |bs| && b.Valid() && b.Size() == old(b.Size()) && AllHold(bs, cs)
      invariant b.Done() == old(b.Done()) + ServersBytes(cs[..i])
    {
      ServersBytesSplit(cs, i);
      All(b, bs[i]);
      assert old(b.Done()) + ServersBytes(cs[..i + 1]) == old(b.Done()) + ServersBytes(cs[..i]) + SrvBytes(cs[i]);
      i := i + 1;
    }
    assert cs[..|cs|] == cs;
  }

  method DeserializeConfig(buf: Buffer) returns (r: Option<ClusterConfig>)
    requires buf.Valid()
    modifies buf.raw
    ensures buf.Valid() && Yields(ParseConfig(old(buf.Rest())), r, buf.Rest())
  {
    hide Buffer.Valid, Buffer.Done, Buffer.Rest, Buffer.Size, Buffer.Pos, Buffer.Big, Buffer.Head, Le;
    ghost var s := buf.Rest();
    var logIdx := buf.GetUlong();
    if logIdx.None? { return None; }
    var prevLogIdx := buf.GetUlong();
    if prevLogIdx.None? { return None; }
    assert buf.Rest() == s[16..];
    var cnt := buf.GetInt();
    if cnt.None? { return None; }
    assert buf.Rest() == s[20..] && s[16..][..4] == s[16..20];
    var servers := DeserializeServers(buf, cnt.value);
    if servers.None? { return None; }
    r := Some(ClusterConfig(logIdx.value, prevLogIdx.value, servers.value));
  }

  lemma PrependNone(p: Option<Parsed<seq<SrvConfig>>>)
    ensures Prepend([], p) == p
  {
    if p.Some? { assert [] + p.value.value == p.value.value; }
  }

  lemma NoServer(servers: seq<SrvConfig>, s: seq<byte>, cnt: int)
    requires cnt <= 0
    ensures Prepend(servers, ParseServers(s, cnt)) == Some(Parsed(servers, s))
  {
    assert servers + [] == servers;
  }

  // The reader of several servers, one server on.
  lemma OneServer(servers: seq<SrvConfig>, s: seq<byte>, cnt: nat, c: Option<SrvConfig>, rest: seq<byte>)
    requires cnt > 0 && Yields(ParseSrv(s), c, rest)
    ensures Prepend(servers, ParseServers(s, cnt)) ==
            if c.None? then None else Prepend(servers + [c.value], ParseServers(rest, cnt - 1))
  {
    hide ParseSrv;
    if c.Some? {
      var after := ParseServers(rest, cnt - 1);
      if after.Some? {
        assert servers + ([c.value] + after.value.value) == servers + [c.value] + after.value.value;
      }
    }
  }

  method DeserializeServers(buf: Buffer, cnt: int) returns (r: Option<seq<SrvConfig>>)
    requires buf.Valid()
    modifies buf.raw
    ensures buf.Valid() && Yields(ParseServers(old(buf.Rest()), cnt), r, buf.Rest())
  {
    hide Buffer.Valid, Buffer.Done, Buffer.Rest, Buffer.Size, Buffer.Pos, Buffer.Big, Buffer.Head, Le, ParseSrv,
      ParseServers, Prepend;
    var servers: seq<SrvConfig> := [];
    var left := cnt;
    ghost var parsed := ParseServers(buf.Rest(), cnt);
    PrependNone(parsed);
    while left > 0
      invariant buf.Valid()
      invariant parsed == Prepend(servers, ParseServers(buf.Rest(), left))
    {
      ghost var rest := buf.Rest();
      var c := DeserializeSrv(buf);
      OneServer(servers, rest, left, c, buf.Rest());
      if c.None? { return None; }
      servers := servers + [c.value];
      left := left - 1;
    }
    NoServer(servers, buf.Rest(), left);
    r := Some(servers);
  }

  // ---------------------------------------------------------------- snapshot, snapshot_sync_req

  method SerializeSnapshot(s: Snapshot) returns (result: Option<Buffer>)
    ensures result.Some? <==> |SnapshotBytes(s)| < BIG_TAG
    ensures result.Some? ==> fresh(result.value) && fresh(result.value.raw) && Holds(result.value, SnapshotBytes(s))
  {
    hide Buffer.Valid, Buffer.Done, Buffer.Rest, Buffer.Size, Buffer.Pos, Buffer.Big, Buffer.Head, Le;
    var conf := SerializeConfig(s.config);
    if conf.None? { return None; }
    result := Buffer.Alloc(conf.value.Size() + 24);
    if result.None? { return; }
    var b := result.value;
    Numbers(b, s.lastIdx, s.lastTerm, s.size, 8);
    All(b, conf.value);
    Rewound(b, SnapshotBytes(s));
  }

  method DeserializeSnapshot(buf: Buffer) returns (r: Option<Snapshot>)
    requires buf.Valid()
    modifies buf.raw
    ensures buf.Valid() && Yields(ParseSnapshot(old(buf.Rest())), r, buf.Rest())
  {
    hide Buffer.Valid, Buffer.Done, Buffer.Rest, Buffer.Size, Buffer.Pos, Buffer.Big, Buffer.Head, Le;
    var lastIdx := buf.GetUlong();
    if lastIdx.None? { return None; }
    var lastTerm := buf.GetUlong();
    if lastTerm.None? { return None; }
    var size := buf.GetUlong();
    if size.None? { return None; }
    var conf := DeserializeConfig(buf);
    if conf.None? { return None; }
    r := Some(Snapshot(lastIdx.value, lastTerm.value, size.value, conf.value));
  }

  method PutSync(b: Buffer, snp: Buffer, offset: ulong, data: Buffer, done: bool)
    requires b.Valid() && b.Done() == [] && snp.Valid() && snp.raw != b.raw && data.Valid() && data.raw != b.raw
    requires |b.Rest()| == |snp.Rest()| + 9 + |data.Rest()|
    modifies b.raw
    ensures Holds(b, old(snp.Rest()) + Le64(offset) + [if done then 1 else 0] + old(data.Rest()))
  {
    hide Buffer.Valid, Buffer.Done, Buffer.Rest, Buffer.Size, Buffer.Pos, Buffer.Big, Buffer.Head, Le;
    ghost var bytes := snp.Rest() + Le64(offset) + [if done then 1 else 0] + data.Rest();
    All(b, snp);
    Number(b, offset, 8);
    One(b, if done then 1 else 0);
    All(b, data);
    Rewound(b, bytes);
  }

  // The payload is a buffer; what lies before its position is not written.
  method SerializeSync(s: Snapshot, offset: ulong, data: Buffer, done: bool) returns (result: Option<Buffer>)
    requires data.Valid()
    ensures data.Valid()
    ensures var r := SyncReq(s, offset, Chunk(data.Done() + data.Rest(), data.Pos()), done);
            && (result.Some? <==> |SyncBytes(r)| < BIG_TAG)
            && (result.Some? ==> fresh(result.value) && fresh(result.value.raw) && Holds(result.value, SyncBytes(r)))
  {
    hide Buffer.Valid, Buffer.Done, Buffer.Rest, Buffer.Size, Buffer.Pos, Buffer.Big, Buffer.Head, Le;
    ghost var r := SyncReq(s, offset, Chunk(data.Done() + data.Rest(), data.Pos()), done);
    assert r.data.bytes[r.data.pos..] == data.Rest();
    var snp := SerializeSnapshot(s);
    if snp.None? { return None; }
    result := Buffer.Alloc(snp.value.Size() + 9 + (data.Size() - data.Pos()));
    if result.None? { return; }
    PutSync(result.value, snp.value, offset, data, done);
    assert Holds(result.value, SyncBytes(r));
  }

  method DeserializeSync(buf: Buffer) returns (r: Option<(Snapshot, ulong, Buffer, bool)>)
    requires buf.Valid()
    modifies buf.raw
    ensures buf.Valid()
    ensures r.Some? ==> fresh(r.value.2) && fresh(r.value.2.raw) && r.value.2.Valid() && r.value.2.Pos() == 0
    ensures ParseSync(old(buf.Rest())) ==
            if r.None? then None
            else Some(SyncReq(r.value.0, r.value.1, Chunk(r.value.2.Rest(), 0), r.value.3))
  {
    hide Buffer.Valid, Buffer.Done, Buffer.Rest, Buffer.Size, Buffer.Pos, Buffer.Big, Buffer.Head, Le;
    var snp := DeserializeSnapshot(buf);
    if snp.None? { return None; }
    ghost var rest := buf.Rest();
    var offset := buf.GetUlong();
    if offset.None? { return None; }
    var done := buf.GetByte();
    if done.None? { return None; }
    var data := Buffer.Copy(buf);
    assert data.Rest() == rest[9..];
    r := Some((snp.value, offset.value, data, done.value == 1));
  }

  // ---------------------------------------------------------------- log_entry

  method PutEntry(b: Buffer, term: ulong, kind: byte, buff: Buffer)
    requires b.Valid() && b.Done() == [] && buff.Valid() && buff.raw != b.raw && |b.Rest()| == 9 + |buff.Rest()|
    modifies b.raw
    ensures Holds(b, EntryBytes(LogEntry(term, kind, old(buff.Rest()))))
  {
    hide Buffer.Valid, Buffer.Done, Buffer.Rest, Buffer.Size, Buffer.Pos, Buffer.Big, Buffer.Head, Le;
    ghost var payload := buff.Rest();
    Number(b, term, 8);
    One(b, kind);
    All(b, buff);
    Rewound(b, EntryBytes(LogEntry(term, kind, payload)));
  }

  // Writing an entry rewinds the entry's own buffer.
  method SerializeEntry(term: ulong, kind: byte, buff: Buffer) returns (result: Option<Buffer>)
    requires buff.Valid()
    modifies buff.raw
    ensures Holds(buff, old(buff.Done() + buff.Rest()))
    ensures var e := LogEntry(term, kind, old(buff.Done() + buff.Rest()));
            && (result.Some? <==> |EntryBytes(e)| < BIG_TAG)
            && (result.Some? ==> fresh(result.value) && fresh(result.value.raw) && Holds(result.value, EntryBytes(e)))
  {
    hide Buffer.Valid, Buffer.Done, Buffer.Rest, Buffer.Size, Buffer.Pos, Buffer.Big, Buffer.Head, Le;
    ghost var payload := buff.Done() + buff.Rest();
    buff.SetPos(0);
    assert buff.Done() + buff.Rest() == buff.Rest();
    result := Buffer.Alloc(9 + buff.Size());
    if result.None? { return; }
    PutEntry(result.value, term, kind, buff);
  }

  method DeserializeEntry(buf: Buffer) returns (r: Option<(ulong, byte, Buffer)>)
    requires buf.Valid()
    modifies buf.raw
    ensures buf.Valid()
    ensures r.Some? ==> fresh(r.value.2) && fresh(r.value.2.raw) && r.value.2.Valid() && r.value.2.Pos() == 0
    ensures ParseEntry(old(buf.Rest())) == if r.None? then None else Some(LogEntry(r.value.0, r.value.1,
            r.value.2.Rest()))
  {
    hide Buffer.Valid, Buffer.Done, Buffer.Rest, Buffer.Size, Buffer.Pos, Buffer.Big, Buffer.Head, Le;
    ghost var rest := buf.Rest();
    var term := buf.GetUlong();
    if term.None? { return None; }
    var kind := buf.GetByte();
    if kind.None? { return None; }
    var data := Buffer.Copy(buf);
    assert data.Rest() == rest[9..];
    r := Some((term.value, kind.value, data));
  }

  // term_in_buffer: the eight bytes at the position; the position then goes to the start, wherever
  // it was. Too few bytes are an exception.
  method TermInBuffer(buf: Buffer) returns (term: Option<ulong>)
    requires buf.Valid()
    modifies buf.raw
    ensures term.Some? <==> 8 <= old(|buf.Rest()|)
    ensures forall e, rest :: old(buf.Rest()) == EntryBytes(e) + rest ==> term == Some(e.term)
    ensures term.Some? ==> Holds(buf, old(buf.Done() + buf.Rest()))
  {
    hide Buffer.Valid, Buffer.Done, Buffer.Rest, Buffer.Size, Buffer.Pos, Buffer.Big, Buffer.Head, Le;
    ghost var done, all := buf.Done(), buf.Rest();
    term := buf.GetUlong();
    forall e, rest | all == EntryBytes(e) + rest ensures term == Some(e.term) {
      TermComesFirst(e, rest);
    }
    if term.Some? {
      assert buf.Done() + buf.Rest() == done + all;
      buf.SetPos(0);
      assert buf.Done() + buf.Rest() == buf.Rest();
    }
  }
}
