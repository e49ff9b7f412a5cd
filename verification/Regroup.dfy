/** `_convertbits`: reading a list of small numbers as one string of bits and cutting the string
    into groups of another width. */
module Regroup {
  import opened Bits

  ghost predicate Fits(data: seq<nat>, w: nat) {
    forall i :: 0 <= i < |data| ==> data[i] < Pow2(w)
  }

  /** How many bits k numbers of w bits take. */
  function Span(k: nat, w: nat): nat {
    if k == 0 then 0 else Span(k - 1, w) + w
  }

  lemma {:induction false} SpanIsProduct(k: nat, w: nat)
    ensures Span(k, w) == k * w
  {
    if k > 0 {
      SpanIsProduct(k - 1, w);
      assert k * w == (k - 1) * w + w;
    }
  }

  lemma {:induction false} GroupBound(w: nat, i: nat, k: nat)
    requires i < k
    ensures Span(i, w) + w == Span(i + 1, w) <= Span(k, w)
  {
    if i + 1 < k {
      GroupBound(w, i, k - 1);
    }
  }

  /** How many whole groups n bits hold, and what is left over. */
  lemma SpanDivMod(n: nat, w: nat, k: nat, r: nat)
    requires r < w && n == Span(k, w) + r
    ensures n / w == k && n % w == r
  {
    SpanIsProduct(k, w);
    DivModUnique(w, k, r, n);
  }

  lemma FloorFits(n: nat, w: nat)
    requires w > 0
    ensures Span(n / w, w) <= n < Span(n / w, w) + w && n % w == n - Span(n / w, w)
  {
    SpanIsProduct(n / w, w);
    assert n == n / w * w + n % w;
  }

  /** The numbers written one after the other, w bits each. */
  function Unpack(data: seq<nat>, w: nat): (s: seq<bool>)
    ensures |s| == Span(|data|, w)
  {
    if data == [] then []
    else
      Unpack(data[..|data| - 1], w) + ToBits(data[|data| - 1], w)
  }

  /** The i-th group of w bits. */
  function Group(s: seq<bool>, w: nat, i: nat): (g: seq<bool>)
    requires Span(i + 1, w) <= |s|
    ensures |g| == w
  {
    s[Span(i, w)..Span(i + 1, w)]
  }

  /** The first k groups of w bits, as numbers. */
  function Groups(s: seq<bool>, w: nat, k: nat): (r: seq<nat>)
    requires Span(k, w) <= |s|
    ensures |r| == k
  {
    seq(k, i requires 0 <= i < k => (GroupBound(w, i, k); OfBits(Group(s, w, i))))
  }

  function Zeros(n: nat): (s: seq<bool>)
    ensures |s| == n
  {
    seq(n, _ => false)
  }

  function Padding(n: nat, w: nat): (r: nat)
    requires w > 0
    ensures r < w
  {
    (w - n % w) % w
  }

  /** n bits and their padding fill whole groups. */
  lemma PaddingFills(n: nat, w: nat)
    requires w > 0
    ensures Span((n + Padding(n, w)) / w, w) == n + Padding(n, w)
  {
    var q, r := n / w, n % w;
    FloorFits(n, w);
    if r == 0 {
      SpanDivMod(w, w, 1, 0);
    } else {
      SpanDivMod(w - r, w, 0, w - r);
      SpanDivMod(n + (w - r), w, q + 1, 0);
    }
  }

  /** What `_convertbits` returns. */
  function Regrouped(data: seq<nat>, frm: nat, to: nat, pad: bool): (r: seq<nat>)
    requires to > 0
  {
    var s := Unpack(data, frm) + (if pad then Zeros(Padding(Span(|data|, frm), to)) else []);
    FloorFits(|s|, to);
    Groups(s, to, |s| / to)
  }

  // ----- the loop -----

  lemma UnpackPush(data: seq<nat>, v: nat, w: nat)
    ensures Unpack(data + [v], w) == Unpack(data, w) + ToBits(v, w)
  {
    assert (data + [v])[..|data|] == data;
  }

  lemma UnpackNext(data: seq<nat>, k: nat, w: nat)
    requires k < |data|
    ensures Unpack(data[..k + 1], w) == Unpack(data[..k], w) + ToBits(data[k], w)
  {
    UnpackPush(data[..k], data[k], w);
    assert data[..k + 1] == data[..k] + [data[k]];
  }

  lemma GroupsExtend(s: seq<bool>, t: seq<bool>, w: nat, k: nat)
    requires Span(k, w) <= |s|
    ensures Groups(s + t, w, k) == Groups(s, w, k)
  {
    forall i | 0 <= i < k
      ensures Span(i + 1, w) <= |s| && Group(s + t, w, i) == Group(s, w, i)
    {
      GroupBound(w, i, k);
    }
  }

  /** The group a full accumulator yields: `(acc >> bits) & mv`. */
  lemma GroupRead(s: seq<bool>, acc: nat, w: nat, k: nat, bits: nat)
    requires acc == OfBits(s) && |s| == Span(k + 1, w) + bits
    ensures Groups(s, w, k + 1) == Groups(s, w, k) + [acc / Pow2(bits) % Pow2(w)]
  {
    var a, b, c := s[..Span(k, w)], Group(s, w, k), s[Span(k + 1, w)..];
    assert s == (a + b) + c;
    OfBitsDivMod(a + b, c);
    OfBitsDivMod(a, b);
  }

  /** Shifting a number of frm bits into the accumulator. */
  lemma Feed(all: seq<bool>, acc: nat, v: nat, frm: nat, to: nat, k: nat)
    requires v < Pow2(frm) && acc == OfBits(all) && Span(k, to) <= |all|
    ensures OfBits(all + ToBits(v, frm)) == acc * Pow2(frm) + v
    ensures Groups(all + ToBits(v, frm), to, k) == Groups(all, to, k)
  {
    OfBitsConcat(all, ToBits(v, frm));
    OfToBits(v, frm);
    GroupsExtend(all, ToBits(v, frm), to, k);
  }

  /** The last, padded group: `(acc << (to - bits)) & mv`. */
  lemma FinishPadded(data: seq<nat>, acc: nat, frm: nat, to: nat, k: nat, bits: nat)
    requires 0 < bits < to && |Unpack(data, frm)| == Span(k, to) + bits && acc == OfBits(Unpack(data, frm))
    ensures acc * Pow2(to - bits) >= 0
    ensures Regrouped(data, frm, to, true)
      == Groups(Unpack(data, frm), to, k) + [acc * Pow2(to - bits) % Pow2(to)]
  {
    var all := Unpack(data, frm);
    var z := to - bits;
    SpanDivMod(|all|, to, k, bits);
    assert Padding(|all|, to) == z by { SpanDivMod(z, to, 0, z); }
    PadOut(all, acc, z);
    GroupsExtend(all, Zeros(z), to, k);
    GroupRead(all + Zeros(z), acc * Pow2(z), to, k, 0);
    assert Pow2(0) == 1;
    SpanDivMod(|all + Zeros(z)|, to, k + 1, 0);
  }

  lemma PadOut(all: seq<bool>, acc: nat, z: nat)
    requires acc == OfBits(all)
    ensures acc * Pow2(z) >= 0
    ensures OfBits(all + Zeros(z)) == acc * Pow2(z)
  {
    OfBitsConcat(all, Zeros(z));
    OfZeros(z);
  }

  lemma FinishExact(data: seq<nat>, frm: nat, to: nat, k: nat, bits: nat, pad: bool)
    requires bits < to && |Unpack(data, frm)| == Span(k, to) + bits && (pad ==> bits == 0)
    ensures Regrouped(data, frm, to, pad) == Groups(Unpack(data, frm), to, k)
  {
    var all := Unpack(data, frm);
    SpanDivMod(|all|, to, k, bits);
    if pad {
      assert Padding(|all|, to) == 0 by { SpanDivMod(to, to, 1, 0); }
      assert all + Zeros(0) == all;
    } else {
      assert all + [] == all;
    }
  }

  method ConvertBits(data: seq<nat>, frm: nat, to: nat, pad: bool) returns (ret: seq<nat>)
    requires to > 0 && Fits(data, frm)
    ensures ret == Regrouped(data, frm, to, pad)
  {
    var acc: nat, bits: nat := 0, 0;
    ret := [];
    ghost var all: seq<bool> := [];
    for k := 0 to |data|
      invariant all == Unpack(data[..k], frm)
      invariant acc == OfBits(all)
      invariant bits < to && |all| == Span(|ret|, to) + bits
      invariant ret == Groups(all, to, |ret|)
    {
      var v := data[k];
      UnpackNext(data, k, frm);
      Feed(all, acc, v, frm, to, |ret|);
      all := all + ToBits(v, frm);
      acc := acc * Pow2(frm) + v;
      bits := bits + frm;
      while bits >= to
        invariant |all| == Span(|ret|, to) + bits
        invariant ret == Groups(all, to, |ret|)
        decreases bits
      {
        bits := bits - to;
        GroupRead(all, acc, to, |ret|, bits);
        var group := (acc / Pow2(bits)) % Pow2(to);
        ret := ret + [group];
      }
    }
    assert data[..|data|] == data;
    if pad && bits != 0 {
      FinishPadded(data, acc, frm, to, |ret|, bits);
      ret := ret + [(acc * Pow2(to - bits)) % Pow2(to)];
    } else {
      FinishExact(data, frm, to, |ret|, bits, pad);
    }
  }

  lemma {:induction false} OfZeros(n: nat)
    ensures OfBits(Zeros(n)) == 0
  {
    if n > 0 {
      OfZeros(n - 1);
      assert Zeros(n)[..n - 1] == Zeros(n - 1);
    }
  }

  // ----- the round trip -----

  lemma {:induction false} UnpackGroup(data: seq<nat>, w: nat, i: nat)
    requires i < |data|
    ensures Span(i + 1, w) <= Span(|data|, w)
    ensures Group(Unpack(data, w), w, i) == ToBits(data[i], w)
  {
    GroupBound(w, i, |data|);
    var n := |data| - 1;
    var init, last := Unpack(data[..n], w), ToBits(data[n], w);
    assert Unpack(data, w) == init + last;
    if i < n {
      UnpackGroup(data[..n], w, i);
      assert Group(init + last, w, i) == Group(init, w, i);
    } else {
      assert Group(init + last, w, i) == last;
    }
  }

  /** Cutting a string into whole groups loses nothing. */
  lemma {:induction false} UnpackGroups(s: seq<bool>, w: nat, k: nat)
    requires Span(k, w) == |s|
    ensures Unpack(Groups(s, w, k), w) == s
    decreases k
  {
    if k == 0 {
      assert s == [];
    } else {
      var init := s[..Span(k - 1, w)];
      UnpackGroups(init, w, k - 1);
      var last := Group(s, w, k - 1);
      assert s == init + last;
      GroupsExtend(init, last, w, k - 1);
      LastGroup(s, w, k - 1);
      UnpackPush(Groups(init, w, k - 1), OfBits(last), w);
      ToOfBits(last);
    }
  }

  lemma LastGroup(s: seq<bool>, w: nat, k: nat)
    requires Span(k + 1, w) <= |s|
    ensures Groups(s, w, k + 1) == Groups(s, w, k) + [OfBits(Group(s, w, k))]
  {
  }

  lemma GroupsFit(s: seq<bool>, w: nat, k: nat)
    requires Span(k, w) <= |s|
    ensures Fits(Groups(s, w, k), w)
  {
    forall i | 0 <= i < k ensures Groups(s, w, k)[i] < Pow2(w) {
      GroupBound(w, i, k);
      OfBitsBound(Group(s, w, i));
    }
  }

  lemma RegroupedFits(data: seq<nat>, frm: nat, to: nat, pad: bool)
    requires to > 0
    ensures Fits(Regrouped(data, frm, to, pad), to)
  {
    var s := Unpack(data, frm) + (if pad then Zeros(Padding(Span(|data|, frm), to)) else []);
    FloorFits(|s|, to);
    GroupsFit(s, to, |s| / to);
  }

  /** Regrouped, the bits are the same, with zeros behind them. */
  lemma UnpackRegrouped(data: seq<nat>, frm: nat, to: nat)
    requires to > 0
    ensures Unpack(Regrouped(data, frm, to, true), to) == Unpack(data, frm) + Zeros(Padding(Span(|data|, frm), to))
  {
    var s := Unpack(data, frm) + Zeros(Padding(Span(|data|, frm), to));
    PaddingFills(Span(|data|, frm), to);
    UnpackGroups(s, to, |s| / to);
  }

  /** Regrouped without padding, the bits are cut where no further group fits. */
  lemma UnpackCut(data: seq<nat>, frm: nat, to: nat)
    requires to > 0
    ensures var s := Unpack(data, frm); var r := Regrouped(data, frm, to, false);
      |s| - to < |Unpack(r, to)| <= |s| && Unpack(r, to) == s[..|Unpack(r, to)|]
  {
    var s := Unpack(data, frm) + [];
    var k := |s| / to;
    FloorFits(|s|, to);
    var head, rest := s[..Span(k, to)], s[Span(k, to)..];
    assert s == head + rest;
    GroupsExtend(head, rest, to, k);
    UnpackGroups(head, to, k);
  }

  /** Regrouping into narrower groups with padding, and back without, is the identity. */
  lemma RegroupRoundTrip(data: seq<nat>, frm: nat, to: nat)
    requires 0 < to <= frm && Fits(data, frm)
    ensures Regrouped(Regrouped(data, frm, to, true), to, frm, false) == data
  {
    var n := Span(|data|, frm);
    var z := Padding(n, to);
    var s := Unpack(data, frm) + Zeros(z);
    var k := |s| / to;
    PaddingFills(n, to);
    UnpackGroups(s, to, k);
    var narrow := Groups(s, to, k);
    assert Regrouped(data, frm, to, true) == narrow;
    SpanDivMod(|s|, frm, |data|, z);
    assert Unpack(narrow, to) + [] == s;
    var back := Regrouped(narrow, to, frm, false);
    assert back == Groups(s, frm, |data|);
    GroupsExtend(Unpack(data, frm), Zeros(z), frm, |data|);
    forall i | 0 <= i < |data| ensures back[i] == data[i] {
      UnpackGroup(data, frm, i);
      OfToBits(data[i], frm);
    }
  }
}
