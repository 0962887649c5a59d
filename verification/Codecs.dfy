/** What the serializers of srv_config.cxx, cluster_config.cxx, snapshot.cxx, snapshot_sync_req.cxx
    and log_entry.hxx write, what their readers make of any bytes, and exactly which values survive
    the way there and back. */
module Codecs {
  import opened RaftTypes
  import opened Bytes
  import opened BufferClass

  datatype SrvConfig = SrvConfig(id: int32, endpoint: seq<byte>)

  datatype ClusterConfig = ClusterConfig(logIdx: ulong, prevLogIdx: ulong, servers: seq<SrvConfig>)

  datatype Snapshot = Snapshot(lastIdx: ulong, lastTerm: ulong, size: ulong, config: ClusterConfig)

  // A chunk is a buffer: its bytes and its position.
  datatype Chunk = Chunk(bytes: seq<byte>, pos: nat)

  datatype SyncReq = SyncReq(snapshot: Snapshot, offset: ulong, data: Chunk, done: bool)

  datatype LogEntry = LogEntry(term: ulong, kind: byte, payload: seq<byte>)

  // What a reader found, and the bytes it left.
  datatype Parsed<+T> = Parsed(value: T, rest: seq<byte>)

  // ---------------------------------------------------------------- layouts

  function SrvBytes(c: SrvConfig): seq<byte> {
    Le(c.id, 4) + c.endpoint + [0]
  }

  function ServersBytes(cs: seq<SrvConfig>): seq<byte> {
    if cs == [] then [] else SrvBytes(cs[0]) + ServersBytes(cs[1..])
  }

  function ConfigBytes(c: ClusterConfig): seq<byte>
  {
    Le64(c.logIdx) + Le64(c.prevLogIdx) + Le(|c.servers|, 4) + ServersBytes(c.servers)
  }

  function SnapshotBytes(s: Snapshot): seq<byte> {
    Le64(s.lastIdx) + Le64(s.lastTerm) + Le64(s.size) + ConfigBytes(s.config)
  }

  function SyncBytes(r: SyncReq): seq<byte>
    requires r.data.pos <= |r.data.bytes|
  {
    SnapshotBytes(r.snapshot) + Le64(r.offset) + [if r.done then 1 else 0] + r.data.bytes[r.data.pos..]
  }

  function EntryBytes(e: LogEntry): (s: seq<byte>)
    ensures |s| == 9 + |e.payload|
  {
    Le64(e.term) + [e.kind] + e.payload
  }

  // ---------------------------------------------------------------- readers

  function ReadU64(s: seq<byte>): Option<Parsed<ulong>> {
    if |s| < 8 then None
    else
      Bounded(s[..8]); EightBytes();
      Some(Parsed(UnLe(s[..8]), s[8..]))
  }

  function ParseSrv(s: seq<byte>): Option<Parsed<SrvConfig>> {
    if |s| < 4 then None
    else
      match ReadStr(s[4..])
      case None => None
      case Some(e) => Some(Parsed(SrvConfig(Signed(UnLe(s[..4])), e), s[4..][|e| + 1..]))
  }

  function ParseServers(s: seq<byte>, cnt: int): Option<Parsed<seq<SrvConfig>>>
    decreases cnt
  {
    if cnt <= 0 then Some(Parsed([], s))
    else
      match ParseSrv(s)
      case None => None
      case Some(p) => Prepend([p.value], ParseServers(p.rest, cnt - 1))
  }

  function Prepend(cs: seq<SrvConfig>, p: Option<Parsed<seq<SrvConfig>>>): Option<Parsed<seq<SrvConfig>>> {
    match p
    case None => None
    case Some(q) => Some(Parsed(cs + q.value, q.rest))
  }

  function ParseConfig(s: seq<byte>): Option<Parsed<ClusterConfig>> {
    if |s| < 20 then None
    else
      var a, b := ReadU64(s), ReadU64(s[8..]);
      match ParseServers(s[20..], Signed(UnLe(s[16..20])))
      case None => None
      case Some(p) => Some(Parsed(ClusterConfig(a.value.value, b.value.value, p.value), p.rest))
  }

  function ParseSnapshot(s: seq<byte>): Option<Parsed<Snapshot>> {
    if |s| < 24 then None
    else
      var a, b, c := ReadU64(s), ReadU64(s[8..]), ReadU64(s[16..]);
      match ParseConfig(s[24..])
      case None => None
      case Some(p) => Some(Parsed(Snapshot(a.value.value, b.value.value, c.value.value, p.value), p.rest))
  }

  function ParseSync(s: seq<byte>): Option<SyncReq> {
    match ParseSnapshot(s)
    case None => None
    case Some(p) =>
      if |p.rest| < 9 then None
      else Some(SyncReq(p.value, ReadU64(p.rest).value.value, Chunk(p.rest[9..], 0), p.rest[8] == 1))
  }

  function ParseEntry(s: seq<byte>): Option<LogEntry> {
    if |s| < 9 then None else Some(LogEntry(ReadU64(s).value.value, s[8], s[9..]))
  }

  // ---------------------------------------------------------------- round trips

  lemma ReadU64Back(v: ulong, rest: seq<byte>)
    ensures ReadU64(Le64(v) + rest) == Some(Parsed(v, rest))
  {
    assert (Le64(v) + rest)[..8] == Le64(v) && (Le64(v) + rest)[8..] == rest;
    Le64ReadBack(v);
  }

  // Endpoints that survive: get_str stops at the first NUL, and takes an empty string for nil.
  predicate PlainEndpoint(e: seq<byte>) {
    e != [] && 0 !in e
  }

  predicate PlainServers(cs: seq<SrvConfig>) {
    forall c :: c in cs ==> PlainEndpoint(c.endpoint)
  }

  lemma SrvRoundTrip(c: SrvConfig, rest: seq<byte>)
    ensures ParseSrv(SrvBytes(c) + rest) == Some(Parsed(c, rest)) <==> PlainEndpoint(c.endpoint)
    ensures !PlainEndpoint(c.endpoint) ==>
              forall p :: ParseSrv(SrvBytes(c) + rest) == Some(p) ==> p.value != c
  {
    hide Le, UnLe, Signed, NulAt;
    var s := SrvBytes(c) + rest;
    assert s[..4] == Le(c.id, 4) && s[4..] == c.endpoint + [0] + rest;
    Le32ReadBack(c.id);
    var t := s[4..];
    if 0 !in c.endpoint {
      NulIs(t, |c.endpoint|);
      assert t[..|c.endpoint|] == c.endpoint && t[|c.endpoint| + 1..] == rest;
    } else {
      var k :| 0 <= k < |c.endpoint| && c.endpoint[k] == 0;
      assert t[k] == 0;
      assert NulAt(t) <= k;
    }
  }

  lemma {:induction false} ServersRoundTrip(cs: seq<SrvConfig>, rest: seq<byte>)
    ensures ParseServers(ServersBytes(cs) + rest, |cs|) == Some(Parsed(cs, rest)) <==> PlainServers(cs)
    ensures !PlainServers(cs) ==> forall p :: ParseServers(ServersBytes(cs) + rest, |cs|) == Some(p) ==> p.value != cs
    decreases |cs|
  {
    if cs == [] {
      assert ServersBytes(cs) + rest == rest;
    } else {
      var tail := ServersBytes(cs[1..]) + rest;
      assert ServersBytes(cs) + rest == SrvBytes(cs[0]) + tail;
      SrvRoundTrip(cs[0], tail);
      ServersRoundTrip(cs[1..], rest);
      assert PlainServers(cs) <==> PlainEndpoint(cs[0].endpoint) && PlainServers(cs[1..]);
      assert cs == [cs[0]] + cs[1..];
      forall p | ParseServers(ServersBytes(cs) + rest, |cs|) == Some(p) && p.value == cs
        ensures PlainServers(cs) && p.rest == rest
      {
        assert p.value[0] == cs[0] && p.value[1..] == cs[1..];
      }
    }
  }

  // The count of servers is written as an int32.
  lemma ConfigRoundTrip(c: ClusterConfig, rest: seq<byte>)
    requires |c.servers| < U32 / 2
    ensures ParseConfig(ConfigBytes(c) + rest) == Some(Parsed(c, rest)) <==> PlainServers(c.servers)
    ensures !PlainServers(c.servers) ==> forall p :: ParseConfig(ConfigBytes(c) + rest) == Some(p) ==> p.value != c
  {
    hide Le, Le64, UnLe, ReadU64, ParseServers, ServersBytes, Signed;
    var s := ConfigLayout(c, rest);
    ReadU64Back(c.logIdx, s[8..]);
    ReadU64Back(c.prevLogIdx, s[16..]);
    Le32ReadBack(|c.servers|);
    ServersRoundTrip(c.servers, rest);
  }

  lemma ConfigLayout(c: ClusterConfig, rest: seq<byte>) returns (s: seq<byte>)
    ensures s == ConfigBytes(c) + rest && |s| >= 20
    ensures s == Le64(c.logIdx) + s[8..] && s[8..] == Le64(c.prevLogIdx) + s[16..]
    ensures s[16..20] == Le(|c.servers|, 4) && s[20..] == ServersBytes(c.servers) + rest
  {
    hide Le, ServersBytes;
    s := ConfigBytes(c) + rest;
  }

  lemma SnapshotRoundTrip(x: Snapshot, rest: seq<byte>)
    requires |x.config.servers| < U32 / 2
    ensures ParseSnapshot(SnapshotBytes(x) + rest) == Some(Parsed(x, rest)) <==> PlainServers(x.config.servers)
    ensures !PlainServers(x.config.servers) ==> forall p :: ParseSnapshot(SnapshotBytes(x) + rest) == Some(p) ==>
            p.value != x
  {
    hide Le64, ReadU64, ParseConfig, ConfigBytes;
    var s := SnapshotLayout(x, rest);
    ReadU64Back(x.lastIdx, s[8..]);
    ReadU64Back(x.lastTerm, s[16..]);
    ReadU64Back(x.size, s[24..]);
    ConfigRoundTrip(x.config, rest);
  }

  lemma SnapshotLayout(x: Snapshot, rest: seq<byte>) returns (s: seq<byte>)
    ensures s == SnapshotBytes(x) + rest && |s| >= 24
    ensures s == Le64(x.lastIdx) + s[8..] && s[8..] == Le64(x.lastTerm) + s[16..]
    ensures s[16..] == Le64(x.size) + s[24..] && s[24..] == ConfigBytes(x.config) + rest
  {
    hide Le64, ConfigBytes;
    s := SnapshotBytes(x) + rest;
  }

  // The outermost reader takes all that is left for the payload, with its position at 0.
  lemma SyncRoundTrip(r: SyncReq)
    requires |r.snapshot.config.servers| < U32 / 2 && r.data.pos <= |r.data.bytes|
    ensures ParseSync(SyncBytes(r)) == Some(r) <==> PlainServers(r.snapshot.config.servers) && r.data.pos == 0
  {
    var payload := r.data.bytes[r.data.pos..];
    var tail := Le64(r.offset) + [if r.done then 1 else 0] + payload;
    assert SyncBytes(r) == SnapshotBytes(r.snapshot) + tail;
    SnapshotRoundTrip(r.snapshot, tail);
    assert tail == Le64(r.offset) + tail[8..] && tail[9..] == payload;
    ReadU64Back(r.offset, tail[8..]);
  }

  lemma EntryRoundTrip(e: LogEntry)
    ensures ParseEntry(EntryBytes(e)) == Some(e)
  {
    var s := EntryBytes(e);
    assert s == Le64(e.term) + s[8..] && s[9..] == e.payload;
    ReadU64Back(e.term, s[8..]);
  }

  // Two entries never share a record, and no record is a proper prefix of the bytes of the same length.
  lemma EntryBytesInjective(e: LogEntry, f: LogEntry)
    requires EntryBytes(e) == EntryBytes(f)
    ensures e == f
  {
    EntryRoundTrip(e);
    EntryRoundTrip(f);
  }

  // The term comes first: term_at reads it without the rest of the record.
  lemma TermComesFirst(e: LogEntry, rest: seq<byte>)
    ensures UnLe((EntryBytes(e) + rest)[..8]) == e.term
  {
    assert (EntryBytes(e) + rest)[..8] == Le64(e.term);
    Le64ReadBack(e.term);
  }

  // ---------------------------------------------------------------- where the fields lie

  // A piece of a record that holds a 64-bit number.
  ghost predicate HoldsU64(s: seq<byte>, at: nat, v: ulong) {
    at + 8 <= |s| && UnLe(s[at..at + 8]) == v
  }

  lemma U64LiesAt(before: seq<byte>, v: ulong, after: seq<byte>)
    ensures HoldsU64(before + Le64(v) + after, |before|, v)
  {
    var s := before + Le64(v) + after;
    assert s[|before|..|before| + 8] == Le64(v);
    Le64ReadBack(v);
  }

  // Type of the entry behind the term, then the payload to the end.
  lemma EntryFieldsLie(e: LogEntry)
    ensures var s := EntryBytes(e); HoldsU64(s, 0, e.term) && s[8] == e.kind && s[9..] == e.payload
  {
    U64LiesAt([], e.term, [e.kind] + e.payload);
    assert [] + Le64(e.term) + ([e.kind] + e.payload) == EntryBytes(e);
  }

  // The id in four bytes, the endpoint behind it, and a NUL at the end.
  lemma SrvFieldsLie(c: SrvConfig)
    ensures var s := SrvBytes(c);
            && |s| == |c.endpoint| + 5 && Signed(UnLe(s[..4])) == c.id && s[4..4 + |c.endpoint|] == c.endpoint
            && s[|s| - 1] == 0
  {
    assert SrvBytes(c)[..4] == Le(c.id, 4);
    Le32ReadBack(c.id);
  }

  // Both indices, then the number of servers in four bytes.
  lemma ConfigFieldsLie(c: ClusterConfig)
    requires |c.servers| < U32 / 2
    ensures var s := ConfigBytes(c);
            && HoldsU64(s, 0, c.logIdx) && HoldsU64(s, 8, c.prevLogIdx) && |s| >= 20
            && Signed(UnLe(s[16..20])) == |c.servers| && s[20..] == ServersBytes(c.servers)
  {
    hide Le, UnLe;
    var n, rest := Le(|c.servers|, 4), ServersBytes(c.servers);
    var s := ConfigBytes(c);
    assert s == [] + Le64(c.logIdx) + (Le64(c.prevLogIdx) + n + rest);
    U64LiesAt([], c.logIdx, Le64(c.prevLogIdx) + n + rest);
    assert s == Le64(c.logIdx) + Le64(c.prevLogIdx) + (n + rest);
    U64LiesAt(Le64(c.logIdx), c.prevLogIdx, n + rest);
    assert s[16..20] == n;
    Le32ReadBack(|c.servers|);
  }

  // Last index, last term and size, then the configuration.
  lemma SnapshotFieldsLie(s: Snapshot)
    ensures var b := SnapshotBytes(s);
            && HoldsU64(b, 0, s.lastIdx) && HoldsU64(b, 8, s.lastTerm) && HoldsU64(b, 16, s.size)
            && b[24..] == ConfigBytes(s.config)
  {
    hide Le, UnLe, ConfigBytes;
    var i, t, z, c := Le64(s.lastIdx), Le64(s.lastTerm), Le64(s.size), ConfigBytes(s.config);
    var b := SnapshotBytes(s);
    assert b == [] + i + (t + z + c) == i + t + (z + c) == (i + t) + z + c;
    U64LiesAt([], s.lastIdx, t + z + c);
    U64LiesAt(i, s.lastTerm, z + c);
    U64LiesAt(i + t, s.size, c);
  }

  // The snapshot, the offset, one byte for the end of the transfer, and what is left of the payload.
  lemma SyncFieldsLie(r: SyncReq)
    requires r.data.pos <= |r.data.bytes|
    ensures var b, n := SyncBytes(r), |SnapshotBytes(r.snapshot)|;
            && b[..n] == SnapshotBytes(r.snapshot) && HoldsU64(b, n, r.offset) && |b| >= n + 9
            && (b[n + 8] == 1 <==> r.done) && b[n + 9..] == r.data.bytes[r.data.pos..]
  {
    hide Le, UnLe, SnapshotBytes;
    var done: seq<byte> := [if r.done then 1 else 0];
    var s, o, d := SnapshotBytes(r.snapshot), Le64(r.offset), r.data.bytes[r.data.pos..];
    assert SyncBytes(r) == s + o + (done + d);
    U64LiesAt(s, r.offset, done + d);
  }
}
