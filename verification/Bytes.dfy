/** Bytes and little-endian integers, the layout of every number in a buffer or a log file. */
module Bytes {

  type byte = x: int | 0 <= x < 256

  const U64: nat := 0x1_0000_0000_0000_0000
  const U32: nat := 0x1_0000_0000

  function Pow256(n: nat): (p: nat)
    ensures p > 0
  {
    if n == 0 then 1 else 256 * Pow256(n - 1)
  }

  // The low n bytes of v, lowest first; v may be negative (two's complement).
  function Le(v: int, n: nat): (s: seq<byte>)
    ensures |s| == n
    decreases n
  {
    if n == 0 then [] else [v % 256] + Le(v / 256, n - 1)
  }

  function UnLe(s: seq<byte>): nat {
    if s == [] then 0 else s[0] + 256 * UnLe(s[1..])
  }

  function Le64(v: ulong): (s: seq<byte>)
    ensures |s| == 8
  {
    Le(v, 8)
  }

  // A 32-bit sum as a signed integer.
  function Signed(v: int): int32 {
    var u := v % U32;
    if u >= U32 / 2 then u - U32 else u
  }

  type ulong = x: int | 0 <= x < U64

  type int32 = x: int | -(U32 / 2) <= x < U32 / 2

  lemma {:induction false} ReadBack(v: int, n: nat)
    ensures UnLe(Le(v, n)) == v % Pow256(n)
    decreases n
  {
    if n > 0 {
      ReadBack(v / 256, n - 1);
      assert Le(v, n)[1..] == Le(v / 256, n - 1);
      var p, q := Pow256(n - 1), v / 256;
      SplitMod(v, p);
    }
  }

  lemma SplitMod(v: int, p: nat)
    requires p > 0
    ensures v % 256 + 256 * ((v / 256) % p) == v % (256 * p)
    ensures (v / 256) / p == v / (256 * p)
  {
    var q := v / 256;
    var a := q / p;
    assert v == 256 * (a * p + q % p) + v % 256;
    assert 256 * (a * p) == a * (256 * p) by {
      assert a * (256 * p) == 256 * (a * p);
    }
    ModIs(v, 256 * p, a, 256 * (q % p) + v % 256);
  }

  lemma ModIs(v: int, m: nat, k: int, r: int)
    requires m > 0 && v == k * m + r && 0 <= r < m
    ensures v % m == r && v / m == k
  {
    var d := v / m - k;
    assert (v / m) * m + v % m == k * m + r;
    assert (v / m) * m - k * m == d * m;
    assert d * m == r - v % m;
    if d >= 1 {
      AtLeast(d, m);
    } else if d <= -1 {
      AtLeast(-d, m);
    }
  }

  lemma AtLeast(d: int, m: int)
    requires d >= 1 && m > 0
    ensures d * m >= m && (-d) * m <= 0 - m
  {
    assert d * m == m + (d - 1) * m;
  }

  lemma {:induction false} Bounded(s: seq<byte>)
    ensures UnLe(s) < Pow256(|s|)
    decreases |s|
  {
    if s != [] {
      Bounded(s[1..]);
    }
  }

  lemma {:induction false} WriteBack(s: seq<byte>)
    ensures Le(UnLe(s), |s|) == s
    decreases |s|
  {
    if s != [] {
      WriteBack(s[1..]);
      assert UnLe(s) % 256 == s[0] && UnLe(s) / 256 == UnLe(s[1..]);
    }
  }

  lemma EightBytes()
    ensures Pow256(8) == U64 && Pow256(4) == U32
  {
    assert Pow256(4) == 256 * (256 * (256 * 256)) by {
      assert Pow256(2) == 65536;
      assert Pow256(3) == 256 * Pow256(2);
    }
    assert Pow256(6) == 256 * Pow256(5) && Pow256(5) == 256 * Pow256(4);
    assert Pow256(8) == 256 * Pow256(7) && Pow256(7) == 256 * Pow256(6);
  }

  lemma Le64ReadBack(v: ulong)
    ensures UnLe(Le64(v)) == v
  {
    hide UnLe, Le, Pow256;
    ReadBack(v, 8);
    EightBytes();
  }

  // The greatest ulong plus one is written as 0.
  lemma LeWraps()
    ensures Le(U64, 8) == Le(0, 8)
  {
    hide Le, UnLe, Pow256;
    EightBytes();
    ReadBack(U64, 8);
    ReadBack(0, 8);
    WriteBack(Le(U64, 8));
    WriteBack(Le(0, 8));
  }

  lemma Le64Injective(v: ulong, w: ulong)
    requires Le64(v) == Le64(w)
    ensures v == w
  {
    Le64ReadBack(v);
    Le64ReadBack(w);
  }

  lemma Le32ReadBack(v: int32)
    ensures Signed(UnLe(Le(v, 4))) == v
  {
    hide UnLe, Le, Pow256;
    ReadBack(v, 4);
    EightBytes();
    ModIs(v, U32, if v < 0 then -1 else 0, if v < 0 then v + U32 else v);
  }

  // Byte i of v: a shift by 8*i and a cast to a byte.
  function Shifted(v: int, i: nat): byte {
    (v / Pow256(i)) % 256
  }

  lemma {:induction false} ByteIsShift(v: int, n: nat, i: nat)
    requires i < n
    ensures Le(v, n)[i] == Shifted(v, i)
    decreases n
  {
    if i > 0 {
      ByteIsShift(v / 256, n - 1, i - 1);
      var p := Pow256(i - 1);
      var q := v / 256;
      SplitMod(v, p);
    }
  }

  // Adding byte by byte, each shifted to its place, reads the number.
  lemma {:induction false} ReadOneMore(s: seq<byte>, b: byte)
    ensures UnLe(s + [b]) == UnLe(s) + b * Pow256(|s|)
    decreases |s|
  {
    if s == [] {
      assert s + [b] == [b];
    } else {
      assert (s + [b])[1..] == s[1..] + [b];
      ReadOneMore(s[1..], b);
      var p := Pow256(|s| - 1);
      assert 256 * (b * p) == b * (256 * p);
    }
  }
}
