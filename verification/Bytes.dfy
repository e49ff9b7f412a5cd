/** Byte strings: fixed-width integers, CompactSize, byte order and the hash function. */
module Bytes {

  type byte = b: nat | b < 256

  type Digest = d: seq<byte> | |d| == 32 witness seq(32, _ => 0)

  /** SHA-256: any function from byte strings to 32 bytes. */
  const Sha256: seq<byte> -> Digest

  function Pow256(n: nat): nat
    ensures Pow256(n) > 0
  {
    if n == 0 then 1 else 256 * Pow256(n - 1)
  }

  // ----- integers as bytes -----

  /** `n.to_bytes(len, "little")`, for n below 256^len. */
  function LE(n: nat, len: nat): (b: seq<byte>)
    ensures |b| == len
  {
    if len == 0 then [] else [n % 256] + LE(n / 256, len - 1)
  }

  /** `n.to_bytes(len, "big")` */
  function BE(n: nat, len: nat): (b: seq<byte>)
    ensures |b| == len
  {
    if len == 0 then [] else BE(n / 256, len - 1) + [n % 256]
  }

  function FromLE(b: seq<byte>): nat {
    if b == [] then 0 else b[0] + 256 * FromLE(b[1..])
  }

  /** `int.from_bytes(b, "big")` */
  function FromBE(b: seq<byte>): nat {
    if b == [] then 0 else FromBE(b[..|b| - 1]) * 256 + b[|b| - 1]
  }

  lemma {:induction false} FromLEInverse(n: nat, len: nat)
    requires n < Pow256(len)
    ensures FromLE(LE(n, len)) == n
  {
    if len > 0 {
      FromLEInverse(n / 256, len - 1);
      assert LE(n, len)[1..] == LE(n / 256, len - 1);
    }
  }

  lemma {:induction false} FromBEInverse(n: nat, len: nat)
    requires n < Pow256(len)
    ensures FromBE(BE(n, len)) == n
  {
    if len > 0 {
      FromBEInverse(n / 256, len - 1);
      assert BE(n, len)[..len - 1] == BE(n / 256, len - 1);
    }
  }

  lemma {:induction false} BEOfFromBE(b: seq<byte>)
    ensures BE(FromBE(b), |b|) == b
  {
    if b != [] {
      var n := |b| - 1;
      BEOfFromBE(b[..n]);
      assert b == b[..n] + [b[n]];
      LastByte(FromBE(b[..n]), b[n]);
    }
  }

  lemma LastByte(q: nat, r: byte)
    ensures (q * 256 + r) / 256 == q && (q * 256 + r) % 256 == r
  {
  }

  /** Byte i of the little-endian form counts 256^i. */
  lemma {:induction false} LEByte(n: nat, len: nat, i: nat)
    requires i < len
    ensures LE(n, len)[i] == n / Pow256(i) % 256
  {
    if i > 0 {
      LEByte(n / 256, len - 1, i - 1);
      DivByPowers(n, i);
    }
  }

  lemma DivByPowers(n: nat, i: nat)
    requires i > 0
    ensures n / 256 / Pow256(i - 1) == n / Pow256(i)
  {
    var m := Pow256(i - 1);
    var q, r := n / 256, n % 256;
    var u, v := q / m, q % m;
    assert q == m * u + v && n == 256 * q + r;
    Nested256(m, u, v, r);
    DivUnique(n, 256 * m, u, 256 * v + r);
  }

  lemma Nested256(m: nat, u: nat, v: nat, r: nat)
    requires v < m && r < 256
    ensures 256 * (m * u + v) + r == (256 * m) * u + (256 * v + r) && 256 * v + r < 256 * m
  {
  }

  lemma DivUnique(n: nat, d: nat, q: nat, r: nat)
    requires d > 0 && n == d * q + r && r < d
    ensures n / d == q
  {
    var q', r' := n / d, n % d;
    assert n == d * q' + r';
    if q' < q {
      MoreThan(d, q', q, r');
    } else if q < q' {
      MoreThan(d, q, q', r);
    }
  }

  lemma MoreThan(d: nat, q: nat, q': nat, r: nat)
    requires q < q' && r < d
    ensures d * q + r < d * q'
  {
    assert d * (q + 1) <= d * q';
  }

  /** The big-endian form is the little-endian one backwards. */
  lemma {:induction false} BEByte(n: nat, len: nat, i: nat)
    requires i < len
    ensures BE(n, len)[len - 1 - i] == n / Pow256(i) % 256
  {
    if i > 0 {
      BEByte(n / 256, len - 1, i - 1);
      DivByPowers(n, i);
    }
  }

  /** Reading big-endian: the bytes in front count 256 for each byte behind them. */
  lemma {:induction false} FromBEConcat(a: seq<byte>, b: seq<byte>)
    ensures FromBE(a + b) == FromBE(a) * Pow256(|b|) + FromBE(b)
  {
    if b == [] {
      assert a + b == a;
    } else {
      var c := b[..|b| - 1];
      FromBEConcat(a, c);
      assert (a + b)[..|a + b| - 1] == a + c;
      assert FromBE(a) * (256 * Pow256(|c|)) == FromBE(a) * Pow256(|c|) * 256;
    }
  }

  /** Reading little-endian is reading big-endian backwards. */
  lemma {:induction false} FromLEBackwards(b: seq<byte>)
    ensures FromLE(b) == FromBE(Reverse(b))
  {
    if b != [] {
      FromLEBackwards(b[1..]);
      assert Reverse(b)[..|b| - 1] == Reverse(b[1..]);
    }
  }

  lemma Pow256Values()
    ensures Pow256(1) == 0x100 && Pow256(2) == 0x1_0000 && Pow256(4) == 0x1_0000_0000
    ensures Pow256(8) == 0x1_0000_0000_0000_0000
    ensures Pow256(32) == 0x1_0000_0000_0000_0000_0000_0000_0000_0000_0000_0000_0000_0000_0000_0000_0000_0000
  {
    assert Pow256(2) == 0x1_0000;
    Pow256Add(2, 2);
    Pow256Add(4, 4);
    Pow256Add(8, 8);
    Pow256Add(16, 16);
  }

  lemma {:induction false} Pow256Add(m: nat, n: nat)
    ensures Pow256(m + n) == Pow256(m) * Pow256(n)
  {
    if m > 0 {
      Pow256Add(m - 1, n);
      assert 256 * (Pow256(m - 1) * Pow256(n)) == (256 * Pow256(m - 1)) * Pow256(n);
    }
  }

  // ----- byte order -----

  /** `a <= b` on Python bytes. */
  predicate LexLeq(a: seq<byte>, b: seq<byte>) {
    a == [] || (b != [] && (a[0] < b[0] || (a[0] == b[0] && LexLeq(a[1..], b[1..]))))
  }

  ghost predicate SmallerAt(a: seq<byte>, b: seq<byte>, i: int) {
    0 <= i < |a| && i < |b| && a[..i] == b[..i] && a[i] < b[i]
  }

  /** b goes on where a ends, or the first byte in which they differ is smaller in a. */
  ghost predicate FirstSmaller(a: seq<byte>, b: seq<byte>) {
    a <= b || exists i :: SmallerAt(a, b, i)
  }

  /** Python's order on bytes is the dictionary order. */
  lemma {:induction false} LexIsDictionary(a: seq<byte>, b: seq<byte>)
    ensures LexLeq(a, b) <==> FirstSmaller(a, b)
  {
    if a != [] && b != [] {
      LexIsDictionary(a[1..], b[1..]);
      if a[0] == b[0] {
        if FirstSmaller(a, b) && !(a[1..] <= b[1..]) {
          TailSmaller(a, b);
        }
        HeadSame(a[0], a[1..], b[1..]);
        assert a == [a[0]] + a[1..] && b == [b[0]] + b[1..];
      } else if a[0] < b[0] {
        assert SmallerAt(a, b, 0);
      } else {
        LargerHead(a, b);
      }
    }
  }

  lemma LargerHead(a: seq<byte>, b: seq<byte>)
    requires a != [] && b != [] && b[0] < a[0]
    ensures !FirstSmaller(a, b)
  {
    forall i ensures !SmallerAt(a, b, i) {
      if 0 < i < |a| && i < |b| {
        assert a[..i][0] != b[..i][0];
      }
    }
  }

  lemma TailSmaller(a: seq<byte>, b: seq<byte>)
    requires a != [] && b != [] && a[0] == b[0] && FirstSmaller(a, b) && !(a[1..] <= b[1..])
    ensures FirstSmaller(a[1..], b[1..])
  {
    var i :| SmallerAt(a, b, i);
    assert a[1..][..i - 1] == a[..i][1..] && b[1..][..i - 1] == b[..i][1..];
    assert SmallerAt(a[1..], b[1..], i - 1);
  }

  lemma HeadSame(x: byte, a: seq<byte>, b: seq<byte>)
    ensures FirstSmaller(a, b) ==> FirstSmaller([x] + a, [x] + b)
  {
    if !(a <= b) && FirstSmaller(a, b) {
      var i :| SmallerAt(a, b, i);
      assert ([x] + a)[..i + 1] == [x] + a[..i] && ([x] + b)[..i + 1] == [x] + b[..i];
      assert SmallerAt([x] + a, [x] + b, i + 1);
    }
  }

  /** Of two strings, the one that is returned first comes first in the dictionary. */
  lemma MinMaxOrdered(a: seq<byte>, b: seq<byte>)
    ensures FirstSmaller(Min(a, b), Max(a, b)) && multiset{Min(a, b), Max(a, b)} == multiset{a, b}
  {
    LexTotal(a, b);
    LexIsDictionary(a, b);
    LexIsDictionary(b, a);
  }

  lemma {:induction false} LexTotal(a: seq<byte>, b: seq<byte>)
    ensures LexLeq(a, b) || LexLeq(b, a)
    ensures LexLeq(a, b) && LexLeq(b, a) ==> a == b
  {
    if a != [] && b != [] {
      LexTotal(a[1..], b[1..]);
      assert a == [a[0]] + a[1..] && b == [b[0]] + b[1..];
    }
  }

  lemma {:induction false} LexTransitive(a: seq<byte>, b: seq<byte>, c: seq<byte>)
    requires LexLeq(a, b) && LexLeq(b, c)
    ensures LexLeq(a, c)
  {
    if a != [] && a[0] == b[0] == c[0] {
      LexTransitive(a[1..], b[1..], c[1..]);
    }
  }

  function Min(a: seq<byte>, b: seq<byte>): seq<byte> {
    if LexLeq(a, b) then a else b
  }

  function Max(a: seq<byte>, b: seq<byte>): seq<byte> {
    if LexLeq(a, b) then b else a
  }

  function Reverse(b: seq<byte>): (r: seq<byte>)
    ensures |r| == |b|
  {
    seq(|b|, i requires 0 <= i < |b| => b[|b| - 1 - i])
  }

  // ----- CompactSize -----

  /** `_varint` */
  function VarInt(n: nat): seq<byte>
    requires n < Pow256(8)
  {
    if n < 0xFD then [n]
    else if n <= 0xFFFF then [0xFD] + LE(n, 2)
    else if n <= 0xFFFF_FFFF then [0xFE] + LE(n, 4)
    else [0xFF] + LE(n, 8)
  }

  /** The shortest of the four forms: one byte, or a marker and two, four or eight bytes, low byte first. */
  lemma VarIntForm(n: nat)
    requires n < Pow256(8)
    ensures n <= 252 ==> VarInt(n) == [n]
    ensures 253 <= n < 0x1_0000 ==> VarInt(n) == [253, n % 256, n / 256]
    ensures 0x1_0000 <= n < 0x1_0000_0000 ==> |VarInt(n)| == 5 && VarInt(n)[0] == 254 && FromLE(VarInt(n)[1..]) == n
    ensures 0x1_0000_0000 <= n ==> |VarInt(n)| == 9 && VarInt(n)[0] == 255 && FromLE(VarInt(n)[1..]) == n
  {
    Pow256Values();
    if 253 <= n < 0x1_0000 {
      TwoBytes(n);
    } else if 0x1_0000 <= n < 0x1_0000_0000 {
      FromLEInverse(n, 4);
      assert VarInt(n)[1..] == LE(n, 4);
    } else if 0x1_0000_0000 <= n {
      FromLEInverse(n, 8);
      assert VarInt(n)[1..] == LE(n, 8);
    }
  }

  lemma TwoBytes(n: nat)
    requires n < 0x1_0000
    ensures LE(n, 2) == [n % 256, n / 256]
  {
    assert LE(n / 256, 1) == [n / 256 % 256] + LE(n / 256 / 256, 0);
  }

  // ----- tagged hashes -----

  /** `tag.encode()`; every tag in use is ASCII. */
  function Encode(tag: string): seq<byte> {
    seq(|tag|, i requires 0 <= i < |tag| => tag[i] as int % 256)
  }

  /** `_tagged` */
  function Tagged(tag: string, m: seq<byte>): Digest {
    var t := Sha256(Encode(tag));
    Sha256(t + t + m)
  }

  /** h is the hash BIP-340 tags: of a 64-byte block, both halves of which are the hash of the tag's letters,
      and the message after it. */
  ghost predicate IsTaggedHash(h: Digest, tag: string, m: seq<byte>) {
    exists block: seq<byte>, letters: seq<byte> ::
      && |letters| == |tag| && (forall i :: 0 <= i < |tag| ==> letters[i] == tag[i] as int)
      && |block| == 64 && block[..32] == Sha256(letters) && block[32..] == Sha256(letters)
      && h == Sha256(block + m)
  }

  lemma TaggedIsTagged(tag: string, m: seq<byte>)
    requires forall i :: 0 <= i < |tag| ==> tag[i] as int < 256
    ensures IsTaggedHash(Tagged(tag, m), tag, m)
  {
    var t: seq<byte> := Sha256(Encode(tag));
    var block := t + t;
    assert block[..32] == t && block[32..] == t;
    assert |Encode(tag)| == |tag| && |block| == 64;
  }

  /** There is only one. */
  lemma TaggedHashUnique(h: Digest, h': Digest, tag: string, m: seq<byte>)
    requires IsTaggedHash(h, tag, m) && IsTaggedHash(h', tag, m)
    ensures h == h'
  {
    var block: seq<byte>, letters: seq<byte> :|
      && |letters| == |tag| && (forall i :: 0 <= i < |tag| ==> letters[i] == tag[i] as int)
      && |block| == 64 && block[..32] == Sha256(letters) && block[32..] == Sha256(letters)
      && h == Sha256(block + m);
    var block': seq<byte>, letters': seq<byte> :|
      && |letters'| == |tag| && (forall i :: 0 <= i < |tag| ==> letters'[i] == tag[i] as int)
      && |block'| == 64 && block'[..32] == Sha256(letters') && block'[32..] == Sha256(letters')
      && h' == Sha256(block' + m);
    assert letters == letters';
    assert block == block[..32] + block[32..] && block' == block'[..32] + block'[32..];
  }
}
