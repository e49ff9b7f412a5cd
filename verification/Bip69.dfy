/** The input and output order of helpers/payjoin_sp.py and helpers/tango.py: Python's `sorted`, and
    why a sorted list says nothing about the order it was built in. */
module Bip69 {
  import opened Bytes
  import opened Sequences

  ghost predicate TotalOrder<T(!new)>(leq: (T, T) -> bool) {
    && (forall a, b :: leq(a, b) || leq(b, a))
    && (forall a, b, c :: leq(a, b) && leq(b, c) ==> leq(a, c))
  }

  ghost predicate Ordered<T>(leq: (T, T) -> bool, s: seq<T>) {
    forall i, j :: 0 <= i < j < |s| ==> leq(s[i], s[j])
  }

  /** x goes after every element that does not exceed it, so equal elements keep their order. */
  function Insert<T>(leq: (T, T) -> bool, s: seq<T>, x: T): (r: seq<T>)
    ensures multiset(r) == multiset(s) + multiset{x}
  {
    if s == [] then [x]
    else if leq(s[|s| - 1], x) then s + [x]
    else
      assert s == s[..|s| - 1] + [s[|s| - 1]];
      Insert(leq, s[..|s| - 1], x) + [s[|s| - 1]]
  }

  function Sort<T>(leq: (T, T) -> bool, s: seq<T>): (r: seq<T>)
    ensures multiset(r) == multiset(s)
  {
    if s == [] then []
    else
      assert s == s[..|s| - 1] + [s[|s| - 1]];
      Insert(leq, Sort(leq, s[..|s| - 1]), s[|s| - 1])
  }

  lemma MemberOf<T>(s: seq<T>, t: seq<T>, x: T, i: nat)
    requires multiset(t) == multiset(s) + multiset{x} && i < |t|
    ensures t[i] == x || t[i] in s
  {
    assert t[i] in multiset(t);
  }

  lemma {:induction false} InsertOrdered<T(!new)>(leq: (T, T) -> bool, s: seq<T>, x: T)
    requires TotalOrder(leq) && Ordered(leq, s)
    ensures Ordered(leq, Insert(leq, s, x))
  {
    if s != [] {
      var n := |s| - 1;
      if leq(s[n], x) {
        forall i | 0 <= i < n + 1 ensures leq(s[i], x) {
          assert i == n || leq(s[i], s[n]);
        }
      } else {
        var init := s[..n];
        InsertOrdered(leq, init, x);
        var r := Insert(leq, init, x);
        forall i | 0 <= i < |r| ensures leq(r[i], s[n]) {
          MemberOf(init, r, x, i);
        }
      }
    }
  }

  lemma {:induction false} SortOrdered<T(!new)>(leq: (T, T) -> bool, s: seq<T>)
    requires TotalOrder(leq)
    ensures Ordered(leq, Sort(leq, s))
  {
    if s != [] {
      SortOrdered(leq, s[..|s| - 1]);
      InsertOrdered(leq, Sort(leq, s[..|s| - 1]), s[|s| - 1]);
    }
  }

  /** Elements of s that compare equal are equal. */
  ghost predicate Antisymmetric<T(!new)>(leq: (T, T) -> bool, s: seq<T>) {
    forall a, b :: a in s && b in s && leq(a, b) && leq(b, a) ==> a == b
  }

  lemma {:induction false} OrderedUnique<T(!new)>(leq: (T, T) -> bool, s: seq<T>, t: seq<T>)
    requires Antisymmetric(leq, s) && Ordered(leq, s) && Ordered(leq, t)
    requires multiset(s) == multiset(t)
    ensures s == t
    decreases |s|
  {
    SameLength(s, t);
    if s != [] {
      var n := |s| - 1;
      SameLast(leq, s, t, n);
      PrefixMultisets(s, t, n);
      AntisymmetricPrefix(leq, s, n);
      OrderedPrefix(leq, s, n);
      OrderedPrefix(leq, t, n);
      OrderedUnique(leq, s[..n], t[..n]);
      SplitEqual(s, t, n);
    }
  }

  lemma SplitEqual<T>(s: seq<T>, t: seq<T>, n: nat)
    requires |s| == |t| == n + 1 && s[..n] == t[..n] && s[n] == t[n]
    ensures s == t
  {
    assert s == s[..n] + [s[n]] && t == t[..n] + [t[n]];
  }

  lemma PrefixMultisets<T>(s: seq<T>, t: seq<T>, n: nat)
    requires multiset(s) == multiset(t) && |s| == |t| == n + 1 && s[n] == t[n]
    ensures multiset(s[..n]) == multiset(t[..n])
  {
    InitMultiset(s, n);
    InitMultiset(t, n);
  }

  lemma AntisymmetricPrefix<T(!new)>(leq: (T, T) -> bool, s: seq<T>, n: nat)
    requires Antisymmetric(leq, s) && n <= |s|
    ensures Antisymmetric(leq, s[..n])
  {
    forall a, b | a in s[..n] && b in s[..n] && leq(a, b) && leq(b, a) ensures a == b {
      assert a in s && b in s;
    }
  }

  lemma OrderedPrefix<T>(leq: (T, T) -> bool, s: seq<T>, n: nat)
    requires Ordered(leq, s) && n <= |s|
    ensures Ordered(leq, s[..n])
  {
  }

  lemma InitMultiset<T>(s: seq<T>, n: nat)
    requires |s| == n + 1
    ensures multiset(s[..n]) == multiset(s) - multiset{s[n]}
  {
    assert s == s[..n] + [s[n]];
  }

  lemma SameLast<T(!new)>(leq: (T, T) -> bool, s: seq<T>, t: seq<T>, n: nat)
    requires Antisymmetric(leq, s) && Ordered(leq, s) && Ordered(leq, t)
    requires multiset(s) == multiset(t) && |s| == |t| == n + 1
    ensures s[n] == t[n]
  {
    var i := FindIn(s, t, s[n]);
    var j := FindIn(t, s, t[n]);
    assert i == n || leq(t[i], t[n]);
    assert j == n || leq(s[j], s[n]);
  }

  /** Sorting forgets the order of its argument. */
  lemma SortPermuted<T(!new)>(leq: (T, T) -> bool, s: seq<T>, t: seq<T>)
    requires TotalOrder(leq) && Antisymmetric(leq, s) && multiset(s) == multiset(t)
    ensures Sort(leq, s) == Sort(leq, t)
  {
    SortOrdered(leq, s);
    SortOrdered(leq, t);
    var u := Sort(leq, s);
    forall a, b | a in u && b in u && leq(a, b) && leq(b, a) ensures a == b {
      assert a in multiset(s) && b in multiset(s);
    }
    OrderedUnique(leq, u, Sort(leq, t));
  }

  // ----- outputs: by value, then by script -----

  datatype Output = Output(value: int, script: seq<byte>)

  predicate OutputLeq(a: Output, b: Output) {
    a.value < b.value || (a.value == b.value && LexLeq(a.script, b.script))
  }

  lemma OutputOrder()
    ensures TotalOrder(OutputLeq)
    ensures forall s :: Antisymmetric(OutputLeq, s)
  {
    forall a, b ensures OutputLeq(a, b) || OutputLeq(b, a) {
      LexTotal(a.script, b.script);
    }
    forall a, b, c | OutputLeq(a, b) && OutputLeq(b, c) ensures OutputLeq(a, c) {
      if LexLeq(a.script, b.script) && LexLeq(b.script, c.script) {
        LexTransitive(a.script, b.script, c.script);
      }
    }
    forall a, b | OutputLeq(a, b) && OutputLeq(b, a) ensures a == b {
      LexTotal(a.script, b.script);
    }
  }

  // ----- inputs: by transaction id, then by index -----

  datatype Coin = Coin(txid: seq<byte>, vout: nat, amount: nat, pubKey: seq<byte>)

  datatype Outpoint = Outpoint(txid: seq<byte>, vout: nat)

  function At(c: Coin): Outpoint {
    Outpoint(c.txid, c.vout)
  }

  predicate CoinLeq(a: Coin, b: Coin) {
    if a.txid == b.txid then a.vout <= b.vout else LexLeq(a.txid, b.txid)
  }

  /** `canonical` */
  function Canonical(coins: seq<Coin>): (r: seq<Coin>)
    ensures multiset(r) == multiset(coins)
  {
    Sort(CoinLeq, coins)
  }

  ghost predicate DistinctCoins(s: seq<Coin>) {
    forall i, j :: 0 <= i < j < |s| ==> At(s[i]) != At(s[j])
  }

  lemma CoinOrder()
    ensures TotalOrder(CoinLeq)
  {
    forall a, b ensures CoinLeq(a, b) || CoinLeq(b, a) {
      LexTotal(a.txid, b.txid);
    }
    forall a, b, c | CoinLeq(a, b) && CoinLeq(b, c) ensures CoinLeq(a, c) {
      if a.txid != b.txid && b.txid != c.txid {
        LexTransitive(a.txid, b.txid, c.txid);
        LexTotal(a.txid, b.txid);
      }
    }
  }

  lemma CoinAntisymmetric(s: seq<Coin>)
    requires DistinctCoins(s)
    ensures Antisymmetric(CoinLeq, s)
  {
    forall a, b | a in s && b in s && CoinLeq(a, b) && CoinLeq(b, a) ensures a == b {
      LexTotal(a.txid, b.txid);
      var i :| 0 <= i < |s| && s[i] == a;
      var j :| 0 <= j < |s| && s[j] == b;
      assert At(s[i]) == At(s[j]);
    }
  }

  /** Whichever side lists its coins first, the transaction spends them in one order. */
  lemma CanonicalPermuted(s: seq<Coin>, t: seq<Coin>)
    requires DistinctCoins(s) && multiset(s) == multiset(t)
    ensures Canonical(s) == Canonical(t)
  {
    CoinOrder();
    CoinAntisymmetric(s);
    SortPermuted(CoinLeq, s, t);
  }
}
