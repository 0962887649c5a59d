/** buffer.cxx: a block of bytes that carries its own size and position in a header of two 16-bit
    or two 32-bit words. The top bit of byte 3 says which: it is the top bit of a large block's
    size word, and, in a small block, of the position, which never reaches it. */
module BufferClass {
  import opened Bytes
  import opened RaftTypes

  const SMALL_LIMIT: nat := 0x8000
  const BIG_TAG: nat := 0x8000_0000

  // The position after the NUL that ends a string at the start of s; None when there is no
  // NUL or nothing before it.
  function NulAt(s: seq<byte>): (k: nat)
    ensures k <= |s| && (k < |s| ==> s[k] == 0) && (forall i :: 0 <= i < k ==> s[i] != 0)
  {
    if s == [] || s[0] == 0 then 0 else 1 + NulAt(s[1..])
  }

  function ReadStr(s: seq<byte>): Option<seq<byte>> {
    var k := NulAt(s);
    if k == |s| || k == 0 then None else Some(s[..k])
  }

  function Word16(a: byte, b: byte): nat { a + 256 * b }

  function Word32(a: byte, b: byte, c: byte, d: byte): nat {
    a + 256 * b + 65536 * c + 16777216 * d
  }

  lemma Digits(p: nat)
    requires p < U32
    ensures var q := p / 256; var r := q / 256; var s := r / 256;
            s < 256 && Word32(p % 256, q % 256, r % 256, s) == p
            && (p < 65536 ==> Word16(p % 256, q % 256) == p && q < 256)
            && (p < 0x8000 ==> q < 128) && (p < BIG_TAG ==> s < 128)
  {
  }

  class Buffer {
    const raw: array<byte>

    ghost predicate Valid()
      reads this, raw
      ensures Valid() ==> raw.Length >= 4 && (Big() ==> raw.Length >= 8)
    {
      && raw.Length >= 4
      && (Big() ==> raw.Length >= 8)
      && raw.Length == Head() + Size()
      && Pos() <= Size()
      && (Big() <==> Size() >= SMALL_LIMIT)
      && Size() < BIG_TAG
    }

    predicate Big()
      requires raw.Length >= 4
      reads raw
    {
      raw[3] >= 128
    }

    function Head(): nat
      requires raw.Length >= 4
      reads raw
    {
      if Big() then 8 else 4
    }

    function Size(): nat
      requires raw.Length >= 4
      reads raw
    {
      if Big() then Word32(raw[0], raw[1], raw[2], raw[3] - 128) else Word16(raw[0], raw[1])
    }

    function Pos(): nat
      requires raw.Length >= 4 && (Big() ==> raw.Length >= 8)
      reads raw
    {
      if Big() then Word32(raw[4], raw[5], raw[6], raw[7]) else Word16(raw[2], raw[3])
    }

    // What lies before and after the position: the abstract value of a buffer.
    ghost function Done(): (s: seq<byte>)
      requires Valid()
      reads this, raw
      ensures |s| == Pos() && |s| <= Size()
    {
      raw[Head()..Head() + Pos()]
    }

    ghost function Rest(): (s: seq<byte>)
      requires Valid()
      reads this, raw
      ensures |s| == Size() - Pos()
    {
      raw[Head() + Pos()..]
    }

    // alloc(size); a size of 2^31 or more is refused by Alloc below.
    constructor (size: nat)
      requires size < BIG_TAG
      ensures Valid() && fresh(raw)
      ensures Size() == size && Pos() == 0
    {
      raw := new byte[(if size >= SMALL_LIMIT then 8 else 4) + size](_ => 0);
      new;
      if size >= SMALL_LIMIT { StampBig(size); } else { StampSmall(size); }
    }

    method StampSmall(size: nat)
      requires size < SMALL_LIMIT && raw.Length == 4 + size && raw[2] == raw[3] == 0
      modifies raw
      ensures Valid() && Size() == size && Pos() == 0
    {
      Digits(size);
      raw[0], raw[1] := size % 256, (size / 256) % 256;
    }

    method StampBig(size: nat)
      requires SMALL_LIMIT <= size < BIG_TAG && raw.Length == 8 + size && raw[4] == raw[5] == raw[6] == raw[7] == 0
      modifies raw
      ensures Valid() && Size() == size && Pos() == 0
    {
      Digits(size);
      var q := size / 256;
      var r := q / 256;
      raw[0], raw[1], raw[2], raw[3] := size % 256, q % 256, r % 256, r / 256 + 128;
    }

    static method Alloc(size: nat) returns (b: Option<Buffer>)
      ensures b.Some? <==> size < BIG_TAG
      ensures b.Some? ==> b.value.Valid() && fresh(b.value) && fresh(b.value.raw)
      ensures b.Some? ==>
                b.value.Size() == size && b.value.Pos() == 0 && b.value.Done() == [] && |b.value.Rest()| == size
    {
      if size >= BIG_TAG { return None; }
      var n := new Buffer(size);
      b := Some(n);
    }

    // pos(p): a position past the end is taken back to the end.
    method SetPos(p: nat)
      requires Valid()
      modifies raw
      ensures Valid() && Size() == old(Size())
      ensures Pos() == if p > Size() then Size() else p
      ensures Done() + Rest() == old(Done() + Rest())
    {
      var position := if p > Size() then Size() else p;
      Place(position);
      assert raw[Head()..] == Done() + Rest();
      assert old(raw[Head()..]) == old(Done() + Rest());
    }

    method Place(p: nat)
      requires Valid() && p <= Size()
      modifies raw
      ensures Valid() && Head() == old(Head()) && Size() == old(Size()) && Pos() == p
      ensures raw[Head()..] == old(raw[Head()..])
    {
      Digits(p);
      var q := p / 256;
      if Big() {
        var r := q / 256;
        raw[4], raw[5], raw[6], raw[7] := p % 256, q % 256, r % 256, r / 256;
      } else {
        raw[2], raw[3] := p % 256, q % 256;
      }
      assert raw[Head()..] == old(raw[Head()..]);
    }

    lemma Halves()
      requires Valid()
      ensures Done() == raw[Head()..][..Pos()] && Rest() == raw[Head()..][Pos()..]
    {
    }

    method Advance(n: nat)
      requires Valid() && Pos() + n <= Size()
      modifies raw
      ensures Valid() && Head() == old(Head()) && Size() == old(Size()) && Pos() == old(Pos()) + n
      ensures raw[Head()..] == old(raw[Head()..])
      ensures Done() == old(Done()) + old(Rest())[..n] && Rest() == old(Rest())[n..]
    {
      hide Valid, Done, Rest, Word16, Word32;
      var p := Pos();
      Halves();
      Place(p + n);
      Halves();
      Moved(old(raw[Head()..]), p, n);
    }

    // ---------------------------------------------------------------- writing

    // The copying loops: bytes go to raw[d..], nothing else changes.
    method Fill(d: nat, bytes: seq<byte>)
      requires d + |bytes| <= raw.Length
      modifies raw
      ensures forall k :: 0 <= k < raw.Length && !(d <= k < d + |bytes|) ==> raw[k] == old(raw[k])
      ensures raw[d..d + |bytes|] == bytes
    {
      var i := 0;
      while i < |bytes|
        invariant i <= |bytes| && raw[d..d + i] == bytes[..i]
        invariant forall k :: 0 <= k < raw.Length && !(d <= k < d + i) ==> raw[k] == old(raw[k])
      {
        raw[d + i] := bytes[i];
        i := i + 1;
      }
    }

    // The loops of put(int32) and put(ulong): the number byte by byte, lowest first.
    method FillNumber(d: nat, v: int, n: nat)
      requires d + n <= raw.Length
      modifies raw
      ensures forall k :: 0 <= k < raw.Length && !(d <= k < d + n) ==> raw[k] == old(raw[k])
      ensures raw[d..d + n] == Le(v, n)
    {
      hide Shifted;
      var i := 0;
      while i < n
        invariant i <= n && raw[d..d + i] == Le(v, n)[..i]
        invariant forall k :: 0 <= k < raw.Length && !(d <= k < d + i) ==> raw[k] == old(raw[k])
      {
        ByteIsShift(v, n, i);
        raw[d + i] := Shifted(v, i);
        i := i + 1;
      }
    }

    // After bytes went to the position, the position moves over them.
    twostate lemma Filled(n: nat)
      requires old(Valid()) && n <= old(Size() - Pos())
      requires var d := old(Head() + Pos());
               forall k :: 0 <= k < raw.Length && !(d <= k < d + n) ==> raw[k] == old(raw[k])
      ensures Valid() && Head() == old(Head()) && Size() == old(Size()) && Pos() == old(Pos())
      ensures Done() == old(Done()) && Rest()[n..] == old(Rest())[n..]
      ensures Rest()[..n] == raw[Head() + Pos()..Head() + Pos() + n]
    {
    }

    method PutNumber(v: int, n: nat) returns (ok: bool)
      requires Valid()
      modifies raw
      ensures Valid() && Size() == old(Size())
      ensures ok <==> n <= old(Size() - Pos())
      ensures ok ==> Done() == old(Done()) + Le(v, n) && Rest() == old(Rest())[n..]
      ensures !ok ==> raw[..] == old(raw[..])
    {
      if Size() - Pos() < n { return false; }
      FillNumber(Head() + Pos(), v, n);
      Filled(n);
      Advance(n);
      return true;
    }

    method PutByte(b: byte) returns (ok: bool)
      requires Valid()
      modifies raw
      ensures Valid() && Size() == old(Size())
      ensures ok <==> 1 <= old(Size() - Pos())
      ensures ok ==> Done() == old(Done()) + [b] && Rest() == old(Rest())[1..]
      ensures !ok ==> raw[..] == old(raw[..])
    {
      ok := PutBytes([b]);
    }

    // put(string) writes the characters and a NUL.
    method PutStr(str: seq<byte>) returns (ok: bool)
      requires Valid()
      modifies raw
      ensures Valid() && Size() == old(Size())
      ensures ok <==> |str| + 1 <= old(Size() - Pos())
      ensures ok ==> Done() == old(Done()) + str + [0] && Rest() == old(Rest())[|str| + 1..]
      ensures !ok ==> raw[..] == old(raw[..])
    {
      ok := PutBytes(str + [0]);
      assert ok ==> old(Done()) + (str + [0]) == old(Done()) + str + [0];
    }

    // put(buffer) copies what lies after the other buffer's position, which does not move.
    method PutBuffer(other: Buffer) returns (ok: bool)
      requires Valid() && other.Valid() && other.raw != raw
      modifies raw
      ensures Valid() && Size() == old(Size()) && other.Valid()
      ensures ok <==> old(|other.Rest()|) <= old(Size() - Pos())
      ensures ok ==> Done() == old(Done()) + old(other.Rest()) && Rest() == old(Rest())[old(|other.Rest()|)..]
      ensures !ok ==> raw[..] == old(raw[..])
    {
      ok := PutBytes(other.raw[other.Head() + other.Pos()..]);
    }

    method PutBytes(bytes: seq<byte>) returns (ok: bool)
      requires Valid()
      modifies raw
      ensures Valid() && Size() == old(Size())
      ensures ok <==> |bytes| <= old(Size() - Pos())
      ensures ok ==> Done() == old(Done()) + bytes && Rest() == old(Rest())[|bytes|..]
      ensures !ok ==> raw[..] == old(raw[..])
    {
      if Size() - Pos() < |bytes| { return false; }
      Fill(Head() + Pos(), bytes);
      Filled(|bytes|);
      Advance(|bytes|);
      return true;
    }

    // ---------------------------------------------------------------- reading

    // The loops of get_int and get_ulong, before the sum is cut to the width of its type.
    method GetNumber(n: nat) returns (v: Option<nat>)
      requires Valid()
      modifies raw
      ensures Valid() && Size() == old(Size())
      ensures v.Some? <==> n <= old(Size() - Pos())
      ensures v.Some? ==>
                && v.value == UnLe(old(Rest())[..n])
                && Done() == old(Done()) + old(Rest())[..n] && Rest() == old(Rest())[n..]
      ensures v.None? ==> raw[..] == old(raw[..])
    {
      if Size() - Pos() < n { return None; }
      var sum := Sum(Head() + Pos(), n);
      assert raw[Head() + Pos()..][..n] == raw[Head() + Pos()..Head() + Pos() + n];
      Advance(n);
      return Some(sum);
    }

    method Sum(d: nat, n: nat) returns (sum: nat)
      requires d + n <= raw.Length
      ensures sum == UnLe(raw[d..d + n])
    {
      var i := 0;
      sum := 0;
      while i < n
        invariant i <= n && sum == UnLe(raw[d..d + i])
      {
        assert raw[d..d + i + 1] == raw[d..d + i] + [raw[d + i]];
        ReadOneMore(raw[d..d + i], raw[d + i]);
        sum := sum + raw[d + i] * Pow256(i);
        i := i + 1;
      }
    }

    // get_ulong.
    method GetUlong() returns (v: Option<ulong>)
      requires Valid()
      modifies raw
      ensures Valid() && Size() == old(Size())
      ensures v.Some? <==> 8 <= old(Size() - Pos())
      ensures v.Some? ==> v.value == UnLe(old(Rest())[..8])
      ensures v.Some? ==> Done() == old(Done()) + old(Rest())[..8] && Rest() == old(Rest())[8..]
      ensures v.None? ==> raw[..] == old(raw[..])
    {
      var n := GetNumber(8);
      if n.None? { return None; }
      Bounded(old(Rest())[..8]);
      EightBytes();
      v := Some(n.value);
    }

    // get_int: bytes are added up as signed 32-bit integers.
    method GetInt() returns (v: Option<int32>)
      requires Valid()
      modifies raw
      ensures Valid() && Size() == old(Size())
      ensures v.Some? <==> 4 <= old(Size() - Pos())
      ensures v.Some? ==> v.value == Signed(UnLe(old(Rest())[..4]))
      ensures v.Some? ==> Done() == old(Done()) + old(Rest())[..4] && Rest() == old(Rest())[4..]
      ensures v.None? ==> raw[..] == old(raw[..])
    {
      var n := GetNumber(4);
      v := if n.Some? then Some(Signed(n.value)) else None;
    }

    method GetByte() returns (v: Option<byte>)
      requires Valid()
      modifies raw
      ensures Valid() && Size() == old(Size())
      ensures v.Some? <==> 1 <= old(Size() - Pos())
      ensures v.Some? ==>
                v.value == old(Rest())[0] && Done() == old(Done()) + old(Rest())[..1] && Rest() == old(Rest())[1..]
      ensures v.None? ==> raw[..] == old(raw[..])
    {
      if Size() - Pos() < 1 { return None; }
      v := Some(raw[Head() + Pos()]);
      Advance(1);
    }

    // get_str: nil for an empty string, or when no NUL follows; then the position stays.
    method GetStr() returns (str: Option<seq<byte>>)
      requires Valid()
      modifies raw
      ensures Valid() && Size() == old(Size())
      ensures str == ReadStr(old(Rest()))
      ensures str.Some? ==> var n := |str.value| + 1;
                            n <= old(|Rest()|) && Done() == old(Done()) + old(Rest())[..n] && Rest() == old(Rest())[n..]
      ensures str.None? ==> raw[..] == old(raw[..])
    {
      hide NulAt;
      var p, s, h := Pos(), Size(), Head();
      ghost var rest := Rest();
      var i := 0;
      while p + i < s && raw[h + p + i] != 0
        invariant p + i <= s
        invariant forall k :: 0 <= k < i ==> rest[k] != 0
        modifies {}
      {
        i := i + 1;
      }
      NulIs(rest, i);
      if p + i >= s || i == 0 { return None; }
      str := Some(raw[h + p..h + p + i]);
      assert str.value == rest[..i];
      Advance(i + 1);
    }

    // copy(buf): a new buffer holding what lies after buf's position.
    static method Copy(buf: Buffer) returns (other: Buffer)
      requires buf.Valid()
      ensures other.Valid() && fresh(other) && fresh(other.raw)
      ensures other.Pos() == 0 && other.Rest() == buf.Rest() && buf.Valid()
    {
      hide Buffer.Done, Buffer.Rest, Buffer.Size, Buffer.Pos, Buffer.Big, Buffer.Head;
      other := new Buffer(buf.Size() - buf.Pos());
      var ok := other.PutBuffer(buf);
      assert other.Done() + other.Rest() == buf.Rest();
      other.SetPos(0);
      assert other.Done() + other.Rest() == other.Rest();
    }
  }

  // The two halves of a block once the position has moved by n.
  lemma Moved(s: seq<byte>, p: nat, n: nat)
    requires p + n <= |s|
    ensures s[..p + n] == s[..p] + s[p..][..n] && s[p + n..] == s[p..][n..]
  {
  }

  lemma {:induction false} NulIs(s: seq<byte>, k: nat)
    requires k <= |s| && (forall i :: 0 <= i < k ==> s[i] != 0) && (k < |s| ==> s[k] == 0)
    ensures NulAt(s) == k
  {
    if k > 0 {
      assert s[0] != 0;
      NulIs(s[1..], k - 1);
    }
  }
}
