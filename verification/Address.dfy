/** The Bech32m address encoder and the segwit address decoder of boltz_refund.py. */
module Address {
  import opened Bits
  import opened Bytes
  import opened Results
  import opened Bech32
  import opened Regroup

  datatype Error = BadCharacter | NoData | ProgramTooLong

  /** `_CH` */
  const CHARSET: string := "qpzry9x8gf2tvdw0s3jn54khce6mua7l"

  function FindFrom(c: char, i: nat): int
    requires i <= |CHARSET|
    decreases |CHARSET| - i
  {
    if i == |CHARSET| then -1 else if CHARSET[i] == c then i else FindFrom(c, i + 1)
  }

  /** `_CH.find(c)` */
  function Find(c: char): int {
    FindFrom(c, 0)
  }

  /** `s.rfind(c)` */
  function RFind(s: string, c: char): (r: int)
    ensures -1 <= r < |s|
  {
    if s == [] then -1 else if s[|s| - 1] == c then |s| - 1 else RFind(s[..|s| - 1], c)
  }

  function Letters(d: seq<nat>): (s: string)
    requires Symbols(d)
    ensures |s| == |d|
  {
    seq(|d|, i requires 0 <= i < |d| => CHARSET[d[i]])
  }

  function Lookup(s: string): (d: seq<int>)
    ensures |d| == |s|
  {
    seq(|s|, i requires 0 <= i < |s| => Find(s[i]))
  }

  // ----- the code -----

  /** `_bech32m_addr`; a witness version is a symbol. */
  function Bech32mAddr(hrp: string, witver: nat, prog: seq<byte>): string
    requires witver < 32
  {
    var data := AddressData(witver, prog);
    AddressDataSymbols(witver, prog);
    hrp + "1" + Letters(data + Checksum(hrp, data))
  }

  function AddressData(witver: nat, prog: seq<byte>): seq<nat> {
    [witver] + Regrouped(prog, 8, 5, true)
  }

  lemma AddressDataSymbols(witver: nat, prog: seq<byte>)
    requires witver < 32
    ensures Symbols(AddressData(witver, prog))
  {
    Pow2Values();
    RegroupedFits(prog, 8, 5, true);
  }

  /** Python's `data[1:-6]` */
  function Middle(data: seq<nat>): seq<nat> {
    if |data| < 7 then [] else data[1..|data| - 6]
  }

  /** `_spk_from_address` */
  function SpkFromAddress(addr: string): Result<seq<byte>, Error> {
    var data := Lookup(addr[RFind(addr, '1') + 1..]);
    if exists i :: 0 <= i < |data| && data[i] == -1 then Err(BadCharacter)
    else if data == [] then Err(NoData)
    else
      LookupRange(addr[RFind(addr, '1') + 1..]);
      ScriptFromSymbols(data)
  }

  function ScriptFromSymbols(data: seq<nat>): Result<seq<byte>, Error>
    requires data != [] && data[0] < 32
  {
    var prog := ToProgram(Middle(data));
    if |prog| > 255 then Err(ProgramTooLong)
    else if data[0] == 0 then Ok([0x00, |prog|] + prog)
    else Ok([0x50 + data[0], |prog|] + prog)
  }

  lemma SpkLength(addr: string)
    requires SpkFromAddress(addr).Ok?
    ensures |SpkFromAddress(addr).value| <= 257
  {
    LookupRange(addr[RFind(addr, '1') + 1..]);
  }

  function ToProgram(groups: seq<nat>): (prog: seq<byte>)
    ensures prog == Regrouped(groups, 5, 8, false)
  {
    RegroupedFits(groups, 5, 8, false);
    Pow2Eight();
    var r := Regrouped(groups, 5, 8, false);
    assert forall i :: 0 <= i < |r| ==> r[i] < 256;
    seq(|r|, i requires 0 <= i < |r| => r[i])
  }

  lemma Pow2Eight()
    ensures Pow2(8) == 256
  {
  }

  // ----- symbols and letters -----

  lemma CharsetDistinct()
    ensures forall i, j :: 0 <= i < j < |CHARSET| ==> CHARSET[i] != CHARSET[j]
    ensures '1' !in CHARSET && |CHARSET| == 32
  {
  }

  lemma {:induction false} FindFromHits(i: nat, d: nat)
    requires i <= d < 32
    ensures FindFrom(CHARSET[d], i) == d
    decreases d - i
  {
    CharsetDistinct();
    if i < d {
      FindFromHits(i + 1, d);
    }
  }

  lemma {:induction false} FindFromRange(c: char, i: nat)
    requires i <= 32
    ensures -1 <= FindFrom(c, i) < 32
    decreases 32 - i
  {
    if i < 32 && CHARSET[i] != c {
      FindFromRange(c, i + 1);
    }
  }

  lemma LookupRange(s: string)
    ensures forall i :: 0 <= i < |s| ==> -1 <= Lookup(s)[i] < 32
  {
    forall i | 0 <= i < |s| ensures -1 <= Lookup(s)[i] < 32 {
      FindFromRange(s[i], 0);
    }
  }

  lemma LookupLetters(d: seq<nat>)
    requires Symbols(d)
    ensures Lookup(Letters(d)) == d
  {
    forall i | 0 <= i < |d| ensures Lookup(Letters(d))[i] == d[i] {
      FindFromHits(0, d[i]);
    }
  }

  /** The separator is found because no letter of the alphabet is a '1', whatever the prefix holds. */
  lemma {:induction false} RFindSeparator(hrp: string, tail: string)
    requires '1' !in tail
    ensures RFind(hrp + "1" + tail, '1') == |hrp|
  {
    var s := hrp + "1" + tail;
    if tail == [] {
      assert s == hrp + "1";
    } else {
      var t := tail[..|tail| - 1];
      RFindSeparator(hrp, t);
      assert s[..|s| - 1] == hrp + "1" + t;
      assert s[|s| - 1] == tail[|tail| - 1];
    }
  }

  lemma LettersNoSeparator(d: seq<nat>)
    requires Symbols(d)
    ensures '1' !in Letters(d)
  {
    CharsetDistinct();
  }

  lemma SplitAddress(hrp: string, d: seq<nat>)
    requires Symbols(d)
    ensures var addr := hrp + "1" + Letters(d);
      RFind(addr, '1') == |hrp| && Lookup(addr[RFind(addr, '1') + 1..]) == d
  {
    LettersNoSeparator(d);
    RFindSeparator(hrp, Letters(d));
    LookupLetters(d);
    var addr := hrp + "1" + Letters(d);
    assert addr[|hrp| + 1..] == Letters(d);
  }

  // ----- what the encoder and the decoder promise together -----

  /** BIP-350's check of a whole address string: the part before the last '1' is the prefix, the
      rest are symbols, and their checksum is the Bech32m constant. */
  ghost predicate Verifies(addr: string) {
    var sep := RFind(addr, '1');
    && sep >= 0
    && exists d: seq<nat> :: d == Lookup(addr[sep + 1..]) && Valid(addr[..sep], d)
  }

  lemma VerifiesMeans(hrp: string, d: seq<nat>)
    requires Symbols(d)
    ensures Verifies(hrp + "1" + Letters(d)) <==> Valid(hrp, d)
  {
    SplitAddress(hrp, d);
    assert (hrp + "1" + Letters(d))[..|hrp|] == hrp;
  }

  lemma DecodeMeans(hrp: string, d: seq<nat>)
    requires Symbols(d) && d != []
    ensures SpkFromAddress(hrp + "1" + Letters(d)) == ScriptFromSymbols(d)
  {
    SplitAddress(hrp, d);
  }

  lemma EncodedVerifies(hrp: string, witver: nat, prog: seq<byte>)
    requires witver < 32
    ensures Verifies(Bech32mAddr(hrp, witver, prog))
  {
    var data := AddressData(witver, prog);
    var d := data + Checksum(hrp, data);
    AddressDataSymbols(witver, prog);
    VerifiesMeans(hrp, d);
    ChecksumVerifies(hrp, data);
  }

  /** The numbers w bits wide, read as one number. */
  lemma {:induction false} BytesAsBits(prog: seq<byte>)
    ensures OfBits(Unpack(prog, 8)) == FromBE(prog)
  {
    if prog != [] {
      var n := |prog| - 1;
      BytesAsBits(prog[..n]);
      Pow2Eight();
      OfToBits(prog[n], 8);
      OfBitsConcat(Unpack(prog[..n], 8), ToBits(prog[n], 8));
    }
  }

  lemma {:induction false} SymbolsAsBits(d: seq<nat>)
    requires Symbols(d)
    ensures OfBits(Unpack(d, 5)) == Concat(d)
  {
    if d != [] {
      var n := |d| - 1;
      SymbolsAsBits(d[..n]);
      Pow2Values();
      OfToBits(d[n], 5);
      OfBitsConcat(Unpack(d[..n], 5), ToBits(d[n], 5));
    }
  }

  lemma {:induction false} ZerosAsBits(n: nat)
    ensures OfBits(Zeros(n)) == 0
  {
    if n > 0 {
      ZerosAsBits(n - 1);
      assert Zeros(n)[..n - 1] == Zeros(n - 1);
    }
  }

  /** d is the program in base 32, with fewer than five zero bits behind it. */
  ghost predicate InBase32(d: seq<nat>, prog: seq<byte>) {
    match 5 * |d| - 8 * |prog|
    case z => 0 <= z < 5 && Symbols(d) && Concat(d) == FromBE(prog) * Pow2(z)
  }

  lemma Lengths(prog: seq<byte>, d: seq<nat>, z: nat)
    requires |Unpack(d, 5)| == |Unpack(prog, 8)| + z
    ensures 5 * |d| - 8 * |prog| == z
  {
    SpanIsProduct(|prog|, 8);
    SpanIsProduct(|d|, 5);
  }

  lemma SameNumber(prog: seq<byte>, d: seq<nat>, z: nat)
    requires Symbols(d) && Unpack(d, 5) == Unpack(prog, 8) + Zeros(z)
    ensures Concat(d) == FromBE(prog) * Pow2(z)
  {
    SymbolsAsBits(d);
    OfBitsConcat(Unpack(prog, 8), Zeros(z));
    ZerosAsBits(z);
    BytesAsBits(prog);
  }

  lemma RegroupedSymbols(prog: seq<byte>)
    ensures Symbols(Regrouped(prog, 8, 5, true))
  {
    Pow2Values();
    RegroupedFits(prog, 8, 5, true);
  }

  lemma InBase32By(prog: seq<byte>, d: seq<nat>, z: nat)
    requires Symbols(d) && z < 5 && Unpack(d, 5) == Unpack(prog, 8) + Zeros(z)
    ensures InBase32(d, prog)
  {
    Lengths(prog, d, z);
    SameNumber(prog, d, z);
  }

  lemma ProgramInBase32(prog: seq<byte>)
    ensures InBase32(Regrouped(prog, 8, 5, true), prog)
  {
    RegroupedSymbols(prog);
    UnpackRegrouped(prog, 8, 5);
    InBase32By(prog, Regrouped(prog, 8, 5, true), Padding(Span(|prog|, 8), 5));
  }

  /** What an address is: the prefix, a 1, and the letters of the version, of the program in base 32, and of
      six symbols with which BIP-350's check holds. */
  lemma AddressSpells(hrp: string, witver: nat, prog: seq<byte>) returns (d: seq<nat>, chk: seq<nat>)
    requires witver < 32
    ensures Symbols([witver] + d + chk) && |chk| == 6 && InBase32(d, prog) && Valid(hrp, [witver] + d + chk)
    ensures Bech32mAddr(hrp, witver, prog) == hrp + "1" + Letters([witver] + d + chk)
  {
    d := Regrouped(prog, 8, 5, true);
    chk := Checksum(hrp, AddressData(witver, prog));
    AddressDataSymbols(witver, prog);
    ProgramInBase32(prog);
    ChecksumVerifies(hrp, AddressData(witver, prog));
    assert AddressData(witver, prog) == [witver] + d;
  }

  /** The alphabet of BIP-173, by rows of eight. */
  lemma Alphabet()
    ensures Letters([0, 1, 2, 3, 4, 5, 6, 7]) == "qpzry9x8" && Letters([8, 9, 10, 11, 12, 13, 14, 15]) == "gf2tvdw0"
    ensures Letters([16, 17, 18, 19, 20, 21, 22, 23]) == "s3jn54kh" && Letters([24, 25, 26, 27, 28, 29, 30, 31]) == "ce6mua7l"
  {
  }

  // ----- what the decoder makes of any string -----

  /** The program is the symbols' number in base 32 with its last bits cut off, fewer than eight of them. */
  ghost predicate IsCut(prog: seq<byte>, d: seq<nat>) {
    match 5 * |d| - 8 * |prog|
    case z => 0 <= z < 8 && Symbols(d) && FromBE(prog) * Pow2(z) <= Concat(d) < FromBE(prog) * Pow2(z) + Pow2(z)
  }

  lemma CutNumber(prog: seq<byte>, d: seq<nat>, rest: seq<bool>)
    requires Symbols(d) && Unpack(d, 5) == Unpack(prog, 8) + rest
    ensures FromBE(prog) * Pow2(|rest|) <= Concat(d) < FromBE(prog) * Pow2(|rest|) + Pow2(|rest|)
  {
    SymbolsAsBits(d);
    OfBitsConcat(Unpack(prog, 8), rest);
    OfBitsBound(rest);
    BytesAsBits(prog);
  }

  lemma ProgramIsCut(d: seq<nat>)
    requires Symbols(d)
    ensures IsCut(ToProgram(d), d)
  {
    var prog := ToProgram(d);
    UnpackCut(d, 5, 8);
    var s, n := Unpack(d, 5), |Unpack(prog, 8)|;
    assert s == Unpack(prog, 8) + s[n..];
    Lengths(prog, d, |s| - n);
    CutNumber(prog, d, s[n..]);
  }

  /** The version's opcode, the length of the program and the program, if its length fits one byte; the last six
      symbols do not matter. */
  ghost predicate IsDecoded(d: seq<nat>, r: Result<seq<byte>, Error>)
    requires Symbols(d) && |d| > 0
  {
    exists prog :: IsCut(prog, if |d| < 7 then [] else d[1..|d| - 6]) && r == ScriptOrError(d[0], prog)
  }

  ghost function ScriptOrError(version: nat, prog: seq<byte>): Result<seq<byte>, Error>
    requires version < 32
  {
    if |prog| > 255 then Err(ProgramTooLong)
    else Ok([if version == 0 then 0x00 else 0x50 + version, |prog|] + prog)
  }

  /** What follows the last 1 of a string, or all of it if it has none. */
  ghost predicate IsTail(addr: string, tail: string) {
    '1' !in tail && (addr == tail || exists head: string :: addr == head + "1" + tail)
  }

  lemma {:induction false} NoSeparator(s: string)
    requires '1' !in s
    ensures RFind(s, '1') == -1
  {
    if s != [] {
      NoSeparator(s[..|s| - 1]);
    }
  }

  lemma TailFound(addr: string, tail: string)
    requires IsTail(addr, tail)
    ensures addr[RFind(addr, '1') + 1..] == tail
  {
    if addr == tail {
      NoSeparator(addr);
    } else {
      var head: string :| addr == head + "1" + tail;
      RFindSeparator(head, tail);
    }
  }

  lemma {:induction false} FindMisses(c: char, i: nat)
    requires i <= 32
    ensures FindFrom(c, i) == -1 <==> c !in CHARSET[i..]
    decreases 32 - i
  {
    if i < 32 {
      FindMisses(c, i + 1);
      FindFromRange(c, i + 1);
      assert CHARSET[i..] == [CHARSET[i]] + CHARSET[i + 1..];
    }
  }

  lemma Misses(c: char)
    ensures Find(c) == -1 <==> c !in CHARSET
  {
    FindMisses(c, 0);
    assert CHARSET[0..] == CHARSET;
  }

  lemma RefusesBy(addr: string, tail: string, bad: char -> bool)
    requires IsTail(addr, tail)
    requires forall i :: 0 <= i < |tail| ==> (Find(tail[i]) == -1 <==> bad(tail[i]))
    ensures SpkFromAddress(addr) == Err(BadCharacter) <==> exists i :: 0 <= i < |tail| && bad(tail[i])
    ensures SpkFromAddress(addr) == Err(NoData) <==> tail == ""
  {
    TailFound(addr, tail);
    LookupRange(tail);
    if i :| 0 <= i < |tail| && bad(tail[i]) {
      assert Lookup(tail)[i] == -1;
    }
  }

  lemma DecodesLetters(addr: string, d: seq<nat>)
    requires Symbols(d) && |d| > 0 && IsTail(addr, Letters(d))
    ensures IsDecoded(d, SpkFromAddress(addr))
  {
    TailFound(addr, Letters(d));
    LookupLetters(d);
    ProgramIsCut(Middle(d));
    assert SpkFromAddress(addr) == ScriptFromSymbols(d);
    assert ScriptFromSymbols(d) == ScriptOrError(d[0], ToProgram(Middle(d)));
  }

  /** The decoder refuses a string exactly for a letter that is not in the alphabet, for having nothing after its
      last 1, and for a program too long; and it takes no notice of anything else. */
  lemma DecodesExactly(addr: string, tail: string)
    requires IsTail(addr, tail)
    ensures SpkFromAddress(addr) == Err(BadCharacter) <==> exists c :: c in tail && c !in "qpzry9x8gf2tvdw0s3jn54khce6mua7l"
    ensures SpkFromAddress(addr) == Err(NoData) <==> tail == ""
    ensures forall d: seq<nat> :: Symbols(d) && |d| > 0 && tail == Letters(d) ==> IsDecoded(d, SpkFromAddress(addr))
  {
    forall i | 0 <= i < |tail| ensures Find(tail[i]) == -1 <==> tail[i] !in "qpzry9x8gf2tvdw0s3jn54khce6mua7l" {
      Misses(tail[i]);
    }
    RefusesBy(addr, tail, c => c !in "qpzry9x8gf2tvdw0s3jn54khce6mua7l");
    forall d: seq<nat> | Symbols(d) && |d| > 0 && tail == Letters(d) ensures IsDecoded(d, SpkFromAddress(addr)) {
      DecodesLetters(addr, d);
    }
  }

  /** An address with up to six consecutive letters of its data replaced no longer verifies. */
  lemma TypoFailsVerification(hrp: string, u: seq<nat>, s: seq<nat>, t: seq<nat>, w: seq<nat>)
    requires Symbols(u) && Symbols(s) && Symbols(t) && Symbols(w)
    requires |s| == |t| <= 6 && s != t
    requires Verifies(hrp + "1" + Letters(u + s + w))
    ensures !Verifies(hrp + "1" + Letters(u + t + w))
  {
    VerifiesMeans(hrp, u + s + w);
    VerifiesMeans(hrp, u + t + w);
    ValidMeans(hrp, u + s + w);
    ValidMeans(hrp, u + t + w);
    var h := HrpExpand(hrp);
    HrpWithin30(hrp);
    BurstDetected(h + u, s, t, w);
    Prepend(h, u, s, w);
    Prepend(h, u, t, w);
  }

  lemma Prepend(h: seq<nat>, u: seq<nat>, s: seq<nat>, w: seq<nat>)
    ensures h + (u + s + w) == h + u + s + w
  {
  }

  lemma HrpWithin30(h: string)
    ensures Within30(HrpExpand(h))
  {
  }

  /** `bytes([op, len(prog)]) + prog`: the script for a witness program. */
  function WitnessScript(witver: nat, prog: seq<byte>): seq<byte>
    requires witver < 32 && |prog| <= 255
  {
    [if witver == 0 then 0x00 else 0x50 + witver, |prog|] + prog
  }

  /** Encoding and decoding an address gives the script of the encoded program, exactly when the
      program's length fits the byte the decoder stores it in. */
  lemma AddressRoundTrip(hrp: string, witver: nat, prog: seq<byte>)
    requires witver < 32
    ensures SpkFromAddress(Bech32mAddr(hrp, witver, prog))
         == if |prog| <= 255 then Ok(WitnessScript(witver, prog)) else Err(ProgramTooLong)
  {
    var data := AddressData(witver, prog);
    var d := data + Checksum(hrp, data);
    AddressDataSymbols(witver, prog);
    DecodeMeans(hrp, d);
    assert Middle(d) == Regrouped(prog, 8, 5, true);
    Pow2Eight();
    RegroupRoundTrip(prog, 8, 5);
  }

  lemma ScriptFromMiddle(d: seq<nat>, d': seq<nat>)
    requires d != [] && d' != [] && d[0] == d'[0] < 32 && Middle(d) == Middle(d')
    ensures ScriptFromSymbols(d) == ScriptFromSymbols(d')
  {
  }

  lemma MiddleOf(data: seq<nat>, chk: seq<nat>)
    requires |data| > 0 && |chk| == 6
    ensures Middle(data + chk) == data[1..] && (data + chk)[0] == data[0]
  {
  }

  /** The decoder never looks at the six checksum letters: any others give the same script. */
  lemma DecoderIgnoresChecksum(hrp: string, data: seq<nat>, chk: seq<nat>, chk': seq<nat>)
    requires Symbols(data) && Symbols(chk) && Symbols(chk') && |data| > 0 && |chk| == |chk'| == 6
    ensures SpkFromAddress(hrp + "1" + Letters(data + chk)) == SpkFromAddress(hrp + "1" + Letters(data + chk'))
  {
    DecodeMeans(hrp, data + chk);
    DecodeMeans(hrp, data + chk');
    MiddleOf(data, chk);
    MiddleOf(data, chk');
    ScriptFromMiddle(data + chk, data + chk');
  }

  /** Two taproot programs with the same address are the same program. */
  lemma AddressInjective(hrp: string, prog: seq<byte>, prog': seq<byte>)
    requires |prog| <= 255 && |prog'| <= 255 && Bech32mAddr(hrp, 1, prog) == Bech32mAddr(hrp, 1, prog')
    ensures prog == prog'
  {
    AddressRoundTrip(hrp, 1, prog);
    AddressRoundTrip(hrp, 1, prog');
    assert WitnessScript(1, prog)[2..] == prog && WitnessScript(1, prog')[2..] == prog';
  }
}
