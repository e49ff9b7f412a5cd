/** Transactions as the Bitcoin documents define them, independently of the code: a parser of
    BIP-144's "Serialization" format, and BIP-341's "Common signature message" with the BIP-342
    extension. */
module TxFormat {
  import opened Results
  import opened Bytes

  datatype TxIn = TxIn(prevHash: seq<byte>, prevIndex: nat, scriptSig: seq<byte>, sequence: nat)
  datatype TxOut = TxOut(amount: nat, script: seq<byte>)
  datatype Tx = Tx(version: nat, ins: seq<TxIn>, outs: seq<TxOut>, witnesses: seq<seq<seq<byte>>>, lockTime: nat)

  // ----- parsing -----

  /** A parsed value and the bytes after it. */
  type Parsed<T> = Option<(T, seq<byte>)>

  function TakeBytes(b: seq<byte>, n: nat): Parsed<seq<byte>> {
    if |b| < n then None else Some((b[..n], b[n..]))
  }

  function TakeInt(b: seq<byte>, n: nat): Parsed<nat> {
    if |b| < n then None else Some((FromLE(b[..n]), b[n..]))
  }

  function TakeVarInt(b: seq<byte>): Parsed<nat> {
    if b == [] then None
    else if b[0] < 0xFD then Some((b[0], b[1..]))
    else TakeInt(b[1..], if b[0] == 0xFD then 2 else if b[0] == 0xFE then 4 else 8)
  }

  function TakeVarBytes(b: seq<byte>): Parsed<seq<byte>> {
    match TakeVarInt(b)
    case None => None
    case Some((n, rest)) => TakeBytes(rest, n)
  }

  function TakeMany<T>(f: seq<byte> -> Parsed<T>, n: nat, b: seq<byte>): Parsed<seq<T>> {
    if n == 0 then Some(([], b))
    else match TakeMany(f, n - 1, b)
      case None => None
      case Some((xs, rest)) => match f(rest)
        case None => None
        case Some((x, rest')) => Some((xs + [x], rest'))
  }

  function TakeIn(b: seq<byte>): Parsed<TxIn> {
    match TakeBytes(b, 32)
    case None => None
    case Some((hash, r1)) => match TakeInt(r1, 4)
      case None => None
      case Some((index, r2)) => match TakeVarBytes(r2)
        case None => None
        case Some((sig, r3)) => match TakeInt(r3, 4)
          case None => None
          case Some((sequence, r4)) => Some((TxIn(hash, index, sig, sequence), r4))
  }

  function TakeOut(b: seq<byte>): Parsed<TxOut> {
    match TakeInt(b, 8)
    case None => None
    case Some((amount, r1)) => match TakeVarBytes(r1)
      case None => None
      case Some((script, r2)) => Some((TxOut(amount, script), r2))
  }

  /** A CompactSize count and that many values. */
  function TakeList<T>(f: seq<byte> -> Parsed<T>, b: seq<byte>): Parsed<seq<T>> {
    match TakeVarInt(b)
    case None => None
    case Some((n, rest)) => TakeMany(f, n, rest)
  }

  function TakeStack(b: seq<byte>): Parsed<seq<seq<byte>>> {
    TakeList(TakeVarBytes, b)
  }

  /** nVersion | marker | flag | inputs | outputs | one witness stack for each input | nLockTime,
      and nothing more. */
  function ParseTx(b: seq<byte>): Option<Tx> {
    match TakeInt(b, 4)
    case None => None
    case Some((version, r)) =>
      if |r| < 2 || r[0] != 0x00 || r[1] != 0x01 then None else ParseIns(version, r[2..])
  }

  function ParseIns(version: nat, b: seq<byte>): Option<Tx> {
    match TakeList(TakeIn, b)
    case None => None
    case Some((ins, r)) => ParseOuts(version, ins, r)
  }

  function ParseOuts(version: nat, ins: seq<TxIn>, b: seq<byte>): Option<Tx> {
    match TakeList(TakeOut, b)
    case None => None
    case Some((outs, r)) => ParseRest(version, ins, outs, r)
  }

  function ParseRest(version: nat, ins: seq<TxIn>, outs: seq<TxOut>, b: seq<byte>): Option<Tx> {
    match TakeMany(TakeStack, |ins|, b)
    case None => None
    case Some((witnesses, r)) => match TakeInt(r, 4)
      case None => None
      case Some((lockTime, r')) =>
        if r' == [] then Some(Tx(version, ins, outs, witnesses, lockTime)) else None
  }

  // ----- serialising -----

  ghost predicate Sized(b: seq<byte>) {
    |b| < Pow256(8)
  }

  function PutVarBytes(b: seq<byte>): seq<byte>
    requires Sized(b)
  {
    VarInt(|b|) + b
  }

  ghost predicate GoodIn(i: TxIn) {
    |i.prevHash| == 32 && i.prevIndex < Pow256(4) && Sized(i.scriptSig) && i.sequence < Pow256(4)
  }

  ghost predicate GoodOut(o: TxOut) {
    o.amount < Pow256(8) && Sized(o.script)
  }

  lemma TakeIntPut(n: nat, len: nat, rest: seq<byte>)
    requires n < Pow256(len)
    ensures TakeInt(LE(n, len) + rest, len) == Some((n, rest))
  {
    FromLEInverse(n, len);
    assert (LE(n, len) + rest)[..len] == LE(n, len);
    assert (LE(n, len) + rest)[len..] == rest;
  }

  lemma TakeVarIntPut(n: nat, rest: seq<byte>)
    requires n < Pow256(8)
    ensures TakeVarInt(VarInt(n) + rest) == Some((n, rest))
  {
    Pow256Values();
    if n < 0xFD {
      assert ([n] + rest)[1..] == rest;
    } else if n <= 0xFFFF {
      TakeWide(0xFD, n, 2, rest);
    } else if n <= 0xFFFF_FFFF {
      TakeWide(0xFE, n, 4, rest);
    } else {
      TakeWide(0xFF, n, 8, rest);
    }
  }

  lemma TakeWide(tag: byte, n: nat, len: nat, rest: seq<byte>)
    requires tag >= 0xFD && len == (if tag == 0xFD then 2 else if tag == 0xFE then 4 else 8) && n < Pow256(len)
    ensures TakeVarInt([tag] + LE(n, len) + rest) == Some((n, rest))
  {
    var b := [tag] + LE(n, len) + rest;
    assert b[1..] == LE(n, len) + rest;
    TakeIntPut(n, len, rest);
  }

  lemma TakeVarBytesPut(v: seq<byte>, rest: seq<byte>)
    requires Sized(v)
    ensures TakeVarBytes(PutVarBytes(v) + rest) == Some((v, rest))
  {
    assert PutVarBytes(v) + rest == VarInt(|v|) + (v + rest);
    TakeVarIntPut(|v|, v + rest);
    assert (v + rest)[..|v|] == v && (v + rest)[|v|..] == rest;
  }

  function PutIn(i: TxIn): seq<byte>
    requires GoodIn(i)
  {
    i.prevHash + LE(i.prevIndex, 4) + PutVarBytes(i.scriptSig) + LE(i.sequence, 4)
  }

  lemma TakeInPut(i: TxIn, rest: seq<byte>)
    requires GoodIn(i)
    ensures TakeIn(PutIn(i) + rest) == Some((i, rest))
  {
    var r3 := LE(i.sequence, 4) + rest;
    var r2 := PutVarBytes(i.scriptSig) + r3;
    var r1 := LE(i.prevIndex, 4) + r2;
    assert PutIn(i) + rest == i.prevHash + r1;
    assert (i.prevHash + r1)[..32] == i.prevHash && (i.prevHash + r1)[32..] == r1;
    TakeIntPut(i.prevIndex, 4, r2);
    TakeVarBytesPut(i.scriptSig, r3);
    TakeIntPut(i.sequence, 4, rest);
  }

  function PutOut(o: TxOut): seq<byte>
    requires GoodOut(o)
  {
    LE(o.amount, 8) + PutVarBytes(o.script)
  }

  lemma TakeOutPut(o: TxOut, rest: seq<byte>)
    requires GoodOut(o)
    ensures TakeOut(PutOut(o) + rest) == Some((o, rest))
  {
    var r1 := PutVarBytes(o.script) + rest;
    assert PutOut(o) + rest == LE(o.amount, 8) + r1;
    TakeIntPut(o.amount, 8, r1);
    TakeVarBytesPut(o.script, rest);
  }

  ghost predicate GoodIns(ins: seq<TxIn>) {
    |ins| < Pow256(8) && forall i :: 0 <= i < |ins| ==> GoodIn(ins[i])
  }

  ghost predicate GoodOuts(outs: seq<TxOut>) {
    |outs| < Pow256(8) && forall i :: 0 <= i < |outs| ==> GoodOut(outs[i])
  }

  ghost predicate GoodStack(st: seq<seq<byte>>) {
    |st| < Pow256(8) && forall i :: 0 <= i < |st| ==> Sized(st[i])
  }

  function Flatten(parts: seq<seq<byte>>): seq<byte> {
    if parts == [] then [] else Flatten(parts[..|parts| - 1]) + parts[|parts| - 1]
  }

  ghost function PutIns(ins: seq<TxIn>): seq<byte>
    requires GoodIns(ins)
  {
    Flatten(seq(|ins|, i requires 0 <= i < |ins| => PutIn(ins[i])))
  }

  ghost function PutOuts(outs: seq<TxOut>): seq<byte>
    requires GoodOuts(outs)
  {
    Flatten(seq(|outs|, i requires 0 <= i < |outs| => PutOut(outs[i])))
  }

  ghost function PutStack(st: seq<seq<byte>>): seq<byte>
    requires GoodStack(st)
  {
    VarInt(|st|) + Flatten(seq(|st|, i requires 0 <= i < |st| => PutVarBytes(st[i])))
  }

  ghost function PutStacks(sts: seq<seq<seq<byte>>>): seq<byte>
    requires forall i :: 0 <= i < |sts| ==> GoodStack(sts[i])
  {
    Flatten(seq(|sts|, i requires 0 <= i < |sts| => PutStack(sts[i])))
  }

  lemma PutInsParts(ins: seq<TxIn>, parts: seq<seq<byte>>)
    requires GoodIns(ins) && |parts| == |ins| && forall i :: 0 <= i < |ins| ==> parts[i] == PutIn(ins[i])
    ensures PutIns(ins) == Flatten(parts)
  {
    assert parts == seq(|ins|, i requires 0 <= i < |ins| => PutIn(ins[i]));
  }

  lemma PutOutsParts(outs: seq<TxOut>, parts: seq<seq<byte>>)
    requires GoodOuts(outs) && |parts| == |outs| && forall i :: 0 <= i < |outs| ==> parts[i] == PutOut(outs[i])
    ensures PutOuts(outs) == Flatten(parts)
  {
    assert parts == seq(|outs|, i requires 0 <= i < |outs| => PutOut(outs[i]));
  }

  lemma PutStacksParts(sts: seq<seq<seq<byte>>>, parts: seq<seq<byte>>)
    requires (forall i :: 0 <= i < |sts| ==> GoodStack(sts[i])) && |parts| == |sts|
    requires forall i :: 0 <= i < |sts| ==> parts[i] == PutStack(sts[i])
    ensures PutStacks(sts) == Flatten(parts)
  {
    assert parts == seq(|sts|, i requires 0 <= i < |sts| => PutStack(sts[i]));
  }

  ghost predicate GoodTx(tx: Tx) {
    && tx.version < Pow256(4) && tx.lockTime < Pow256(4)
    && GoodIns(tx.ins) && GoodOuts(tx.outs) && |tx.witnesses| == |tx.ins|
    && forall i :: 0 <= i < |tx.witnesses| ==> GoodStack(tx.witnesses[i])
  }

  ghost function PutFromOuts(tx: Tx): seq<byte>
    requires GoodTx(tx)
  {
    VarInt(|tx.outs|) + PutOuts(tx.outs) + (PutStacks(tx.witnesses) + LE(tx.lockTime, 4))
  }

  ghost function PutFromIns(tx: Tx): seq<byte>
    requires GoodTx(tx)
  {
    VarInt(|tx.ins|) + PutIns(tx.ins) + PutFromOuts(tx)
  }

  /** The reference serialiser. */
  ghost function PutTx(tx: Tx): seq<byte>
    requires GoodTx(tx)
  {
    LE(tx.version, 4) + ([0x00, 0x01] + PutFromIns(tx))
  }

  /** f reads each x back from its encoding, whatever follows. */
  ghost predicate Reads<T>(f: seq<byte> -> Parsed<T>, code: seq<byte>, x: T) {
    forall rest :: f(code + rest) == Some((x, rest))
  }

  lemma {:induction false} TakeManyPut<T>(f: seq<byte> -> Parsed<T>, codes: seq<seq<byte>>, xs: seq<T>, rest: seq<byte>)
    requires |codes| == |xs| && forall i :: 0 <= i < |xs| ==> Reads(f, codes[i], xs[i])
    ensures TakeMany(f, |xs|, Flatten(codes) + rest) == Some((xs, rest))
  {
    if xs == [] {
      assert Flatten(codes) + rest == rest;
    } else {
      var n := |xs| - 1;
      var code := codes[n];
      assert Flatten(codes) + rest == Flatten(codes[..n]) + (code + rest);
      TakeManyPut(f, codes[..n], xs[..n], code + rest);
      assert Reads(f, code, xs[n]);
      assert xs[..n] + [xs[n]] == xs;
    }
  }

  lemma TakeListPut<T>(f: seq<byte> -> Parsed<T>, n: nat, body: seq<byte>, xs: seq<T>, rest: seq<byte>)
    requires n < Pow256(8) && TakeMany(f, n, body + rest) == Some((xs, rest))
    ensures TakeList(f, VarInt(n) + body + rest) == Some((xs, rest))
  {
    assert VarInt(n) + body + rest == VarInt(n) + (body + rest);
    TakeVarIntPut(n, body + rest);
  }

  lemma TakeInsPut(ins: seq<TxIn>, rest: seq<byte>)
    requires GoodIns(ins)
    ensures TakeMany(TakeIn, |ins|, PutIns(ins) + rest) == Some((ins, rest))
  {
    var codes := seq(|ins|, i requires 0 <= i < |ins| => PutIn(ins[i]));
    forall i | 0 <= i < |ins| ensures Reads(TakeIn, codes[i], ins[i]) {
      ReadsIn(ins[i]);
    }
    TakeManyPut(TakeIn, codes, ins, rest);
  }

  lemma ReadsIn(i: TxIn)
    requires GoodIn(i)
    ensures Reads(TakeIn, PutIn(i), i)
  {
    forall rest ensures TakeIn(PutIn(i) + rest) == Some((i, rest)) {
      TakeInPut(i, rest);
    }
  }

  lemma TakeOutsPut(outs: seq<TxOut>, rest: seq<byte>)
    requires GoodOuts(outs)
    ensures TakeMany(TakeOut, |outs|, PutOuts(outs) + rest) == Some((outs, rest))
  {
    var codes := seq(|outs|, i requires 0 <= i < |outs| => PutOut(outs[i]));
    forall i | 0 <= i < |outs| ensures Reads(TakeOut, codes[i], outs[i]) {
      ReadsOut(outs[i]);
    }
    TakeManyPut(TakeOut, codes, outs, rest);
  }

  lemma ReadsOut(o: TxOut)
    requires GoodOut(o)
    ensures Reads(TakeOut, PutOut(o), o)
  {
    forall rest ensures TakeOut(PutOut(o) + rest) == Some((o, rest)) {
      TakeOutPut(o, rest);
    }
  }

  lemma ReadsStack(st: seq<seq<byte>>)
    requires GoodStack(st)
    ensures Reads(TakeStack, PutStack(st), st)
  {
    var codes := seq(|st|, i requires 0 <= i < |st| => PutVarBytes(st[i]));
    forall i | 0 <= i < |st| ensures Reads(TakeVarBytes, codes[i], st[i]) {
      forall rest ensures TakeVarBytes(codes[i] + rest) == Some((st[i], rest)) {
        TakeVarBytesPut(st[i], rest);
      }
    }
    forall rest ensures TakeStack(PutStack(st) + rest) == Some((st, rest)) {
      TakeManyPut(TakeVarBytes, codes, st, rest);
      TakeListPut(TakeVarBytes, |st|, Flatten(codes), st, rest);
    }
  }

  lemma TakeStacksPut(sts: seq<seq<seq<byte>>>, rest: seq<byte>)
    requires forall i :: 0 <= i < |sts| ==> GoodStack(sts[i])
    ensures TakeMany(TakeStack, |sts|, PutStacks(sts) + rest) == Some((sts, rest))
  {
    var codes := seq(|sts|, i requires 0 <= i < |sts| => PutStack(sts[i]));
    forall i | 0 <= i < |sts| ensures Reads(TakeStack, codes[i], sts[i]) {
      ReadsStack(sts[i]);
    }
    TakeManyPut(TakeStack, codes, sts, rest);
  }

  lemma ParseRestPut(tx: Tx)
    requires GoodTx(tx)
    ensures ParseRest(tx.version, tx.ins, tx.outs, PutStacks(tx.witnesses) + LE(tx.lockTime, 4)) == Some(tx)
  {
    TakeStacksPut(tx.witnesses, LE(tx.lockTime, 4));
    TakeIntPut(tx.lockTime, 4, []);
    assert LE(tx.lockTime, 4) + [] == LE(tx.lockTime, 4);
  }

  lemma ParseOutsPut(tx: Tx)
    requires GoodTx(tx)
    ensures ParseOuts(tx.version, tx.ins, PutFromOuts(tx)) == Some(tx)
  {
    var r := PutStacks(tx.witnesses) + LE(tx.lockTime, 4);
    TakeOutsPut(tx.outs, r);
    TakeListPut(TakeOut, |tx.outs|, PutOuts(tx.outs), tx.outs, r);
    ParseRestPut(tx);
  }

  lemma ParseInsPut(tx: Tx)
    requires GoodTx(tx)
    ensures ParseIns(tx.version, PutFromIns(tx)) == Some(tx)
  {
    TakeInsPut(tx.ins, PutFromOuts(tx));
    TakeListPut(TakeIn, |tx.ins|, PutIns(tx.ins), tx.ins, PutFromOuts(tx));
    ParseOutsPut(tx);
  }

  /** Parsing recovers every well-formed transaction, with any number of inputs, outputs and witness
      items. */
  lemma ParsePut(tx: Tx)
    requires GoodTx(tx)
    ensures ParseTx(PutTx(tx)) == Some(tx)
  {
    var r := [0x00, 0x01] + PutFromIns(tx);
    TakeIntPut(tx.version, 4, r);
    assert r[2..] == PutFromIns(tx);
    ParseInsPut(tx);
  }

  // ----- signature messages -----

  function Prevouts(ins: seq<TxIn>): seq<byte> {
    if ins == [] then []
    else Prevouts(ins[..|ins| - 1]) + ins[|ins| - 1].prevHash + LE(ins[|ins| - 1].prevIndex, 4)
  }

  function Sequences(ins: seq<TxIn>): seq<byte> {
    if ins == [] then [] else Sequences(ins[..|ins| - 1]) + LE(ins[|ins| - 1].sequence, 4)
  }

  function Amounts(spent: seq<TxOut>): seq<byte> {
    if spent == [] then [] else Amounts(spent[..|spent| - 1]) + LE(spent[|spent| - 1].amount, 8)
  }

  ghost function Scripts(spent: seq<TxOut>): seq<byte>
    requires GoodOuts(spent)
  {
    if spent == [] then [] else Scripts(spent[..|spent| - 1]) + PutVarBytes(spent[|spent| - 1].script)
  }

  /** The digest a signature for tapscript input `index` commits to, with SIGHASH_DEFAULT and no
      annex: SigMsg(0x00, 1) and the extension, hashed with tag "TapSighash" after the epoch. */
  ghost function TapscriptSighash(tx: Tx, spent: seq<TxOut>, index: nat, leaf: Digest): Digest
    requires GoodTx(tx) && GoodOuts(spent)
  {
    Tagged("TapSighash",
      [0x00] + [0x00]
      + LE(tx.version, 4) + LE(tx.lockTime, 4)
      + Sha256(Prevouts(tx.ins)) + Sha256(Amounts(spent)) + Sha256(Scripts(spent)) + Sha256(Sequences(tx.ins))
      + Sha256(PutOuts(tx.outs))
      + [0x02] + LE(index, 4)
      + leaf + [0x00] + [0xFF, 0xFF, 0xFF, 0xFF])
  }
}
