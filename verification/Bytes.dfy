/** Big-endian integers, as `to_be_bytes` and `from_be_bytes` write and read them. */
module Bytes {
  import opened Wrappers

  type Buffer = seq<byte>

  function Pow256(width: nat): (p: nat)
    ensures p > 0
  {
    if width == 0 then 1 else 256 * Pow256(width - 1)
  }

  function ToBigEndian(n: nat, width: nat): (b: Buffer)
    ensures |b| == width
  {
    if width == 0 then [] else ToBigEndian(n / 256, width - 1) + [n % 256]
  }

  function FromBigEndian(b: Buffer): nat {
    if b == [] then 0 else 256 * FromBigEndian(b[..|b| - 1]) + b[|b| - 1]
  }

  lemma {:induction false} BigEndianRoundTrip(n: nat, width: nat)
    requires n < Pow256(width)
    ensures FromBigEndian(ToBigEndian(n, width)) == n
  {
    if width > 0 {
      BigEndianRoundTrip(n / 256, width - 1);
      assert ToBigEndian(n, width)[..width - 1] == ToBigEndian(n / 256, width - 1);
    }
  }

  /** The bytes of an ASCII literal. */
  function Ascii(s: string): (b: Buffer)
    ensures |b| == |s|
  {
    seq(|s|, i requires 0 <= i < |s| => if s[i] < '\U{80}' then s[i] as int else 63)
  }

  lemma Widths()
    ensures Pow256(2) == 0x1_0000 && Pow256(4) == 0x1_0000_0000 && Pow256(8) == U64_MAX + 1
  {
    assert Pow256(1) == 256 && Pow256(2) == 0x1_0000 && Pow256(3) == 0x100_0000 && Pow256(4) == 0x1_0000_0000;
    assert Pow256(5) == 256 * Pow256(4) && Pow256(6) == 256 * Pow256(5) && Pow256(7) == 256 * Pow256(6)
      && Pow256(8) == 256 * Pow256(7);
  }

  lemma Split<T>(a: seq<T>, b: seq<T>, x: seq<T>, y: seq<T>)
    requires |a| == |b| && a + x == b + y
    ensures a == b && x == y
  {
    assert a == (a + x)[..|a|] && b == (b + y)[..|b|];
    assert x == (a + x)[|a|..] && y == (b + y)[|b|..];
  }

  /** The most significant byte comes first. */
  lemma {:induction false} BigEndianDigit(n: nat, width: nat, i: nat)
    requires i < width
    ensures ToBigEndian(n, width)[i] == n / Pow256(width - 1 - i) % 256
  {
    if i < width - 1 {
      BigEndianDigit(n / 256, width - 1, i);
      DivideTwice(n, Pow256(width - 2 - i));
    }
  }

  lemma DivideTwice(n: nat, d: nat)
    requires d > 0
    ensures n / 256 / d == n / (256 * d)
  {
    var q := n / (256 * d);
    var r := n % (256 * d);
    assert n == 256 * d * q + r;
    assert n / 256 == d * q + r / 256;
    assert r / 256 < d;
    Quotient(n / 256, d, q, r / 256);
  }

  lemma Quotient(n: int, d: int, q: int, r: int)
    requires 0 <= n && 0 <= r && d > 0 && r < d && n == d * q + r
    ensures n / d == q
  {
    var k := q - n / d;
    assert d * k == d * q - d * (n / d) == n % d - r;
    assert (k >= 1 ==> d * k >= d) && (k <= -1 ==> d * k <= -d);
  }

  /** The number four bytes make, the first the most significant. */
  function Word(a: nat, b: nat, c: nat, d: nat): nat {
    0x100_0000 * a + 0x1_0000 * b + 0x100 * c + d
  }

  /** Two bytes and four bytes, as headers hold them. */
  lemma BigEndianValues(b: Buffer)
    ensures |b| == 2 ==> FromBigEndian(b) == Word(0, 0, b[0], b[1])
    ensures |b| == 4 ==> FromBigEndian(b) == Word(b[0], b[1], b[2], b[3])
  {
    if |b| == 4 {
      var c, d, e := b[..3], b[..2], b[..1];
      assert c[..2] == d && d[..1] == e && e[..0] == [];
      assert FromBigEndian(c) == 256 * FromBigEndian(d) + b[2] && FromBigEndian(d) == 256 * FromBigEndian(e) + b[1];
    } else if |b| == 2 {
      var e := b[..1];
      assert e[..0] == [] && e[0] == b[0];
      assert FromBigEndian(e) == 256 * FromBigEndian(e[..0]) + e[0];
      assert FromBigEndian(b) == 256 * FromBigEndian(e) + b[1];
    }
  }

  /** An ASCII literal is spelled by its own code points. */
  lemma AsciiSpells(s: string, i: nat)
    requires i < |s| && s[i] as int < 0x80
    ensures Ascii(s)[i] == s[i] as int
  {}
}
