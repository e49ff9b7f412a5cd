/** Lists as Python loops build them, and what reordering a list keeps. */
module Sequences {
  import opened Results

  /** The values f gives one by one, or None at the first exception. */
  function Collect<T, U>(f: T -> Option<U>, s: seq<T>): Option<seq<U>> {
    if s == [] then Some([])
    else
      match (Collect(f, s[..|s| - 1]), f(s[|s| - 1]))
      case (Some(r), Some(x)) => Some(r + [x])
      case _ => None
  }

  lemma {:induction false} CollectPrefix<T, U>(f: T -> Option<U>, s: seq<T>, k: nat)
    requires k <= |s| && Collect(f, s[..k]).None?
    ensures Collect(f, s).None?
    decreases |s| - k
  {
    if k < |s| {
      assert s[..k + 1][..k] == s[..k];
      CollectPrefix(f, s, k + 1);
    } else {
      assert s[..k] == s;
    }
  }

  lemma {:induction false} CollectValues<T, U>(f: T -> Option<U>, s: seq<T>)
    ensures Collect(f, s).Some? <==> forall i :: 0 <= i < |s| ==> f(s[i]).Some?
    ensures Collect(f, s).Some? ==> |Collect(f, s).value| == |s|
    ensures Collect(f, s).Some? ==> forall i :: 0 <= i < |s| ==> Some(Collect(f, s).value[i]) == f(s[i])
  {
    if s != [] {
      CollectValues(f, s[..|s| - 1]);
    }
  }

  lemma {:induction false} CollectSame<S, T, U>(f: S -> Option<U>, s: seq<S>, g: T -> Option<U>, t: seq<T>)
    requires |s| == |t| && forall i :: 0 <= i < |s| ==> f(s[i]) == g(t[i])
    ensures Collect(f, s) == Collect(g, t)
  {
    if s != [] {
      CollectSame(f, s[..|s| - 1], g, t[..|t| - 1]);
    }
  }

  lemma CollectWithout<T, U>(f: T -> Option<U>, t: seq<T>, i: nat)
    requires i < |t| && Collect(f, t).Some?
    ensures |Collect(f, t).value| == |t| && Collect(f, t[..i] + t[i + 1..]).Some?
    ensures Collect(f, t[..i] + t[i + 1..]).value == Collect(f, t).value[..i] + Collect(f, t).value[i + 1..]
  {
    CollectValues(f, t);
    CollectValues(f, t[..i] + t[i + 1..]);
  }

  lemma FindIn<T>(s: seq<T>, t: seq<T>, x: T) returns (i: nat)
    requires multiset(s) == multiset(t) && x in s
    ensures i < |t| && t[i] == x
  {
    assert x in multiset(s);
    assert x in multiset(t);
    i :| 0 <= i < |t| && t[i] == x;
  }

  lemma Without<T>(t: seq<T>, i: nat)
    requires i < |t|
    ensures multiset(t[..i] + t[i + 1..]) == multiset(t) - multiset{t[i]}
  {
    assert t == t[..i] + [t[i]] + t[i + 1..];
  }

  lemma SameLength<T>(s: seq<T>, t: seq<T>)
    requires multiset(s) == multiset(t)
    ensures |s| == |t|
  {
    assert |s| == |multiset(s)| == |multiset(t)| == |t|;
  }

  /** Reordering the arguments reorders the values. */
  lemma {:induction false} CollectPermuted<T, U>(f: T -> Option<U>, s: seq<T>, t: seq<T>)
    requires multiset(s) == multiset(t) && Collect(f, s).Some? && Collect(f, t).Some?
    ensures multiset(Collect(f, s).value) == multiset(Collect(f, t).value)
    decreases |s|
  {
    SameLength(s, t);
    if s != [] {
      var n := |s| - 1;
      var i := FindIn(s, t, s[n]);
      assert s == s[..n] + [s[n]];
      Without(t, i);
      CollectWithout(f, t, i);
      CollectPermuted(f, s[..n], t[..i] + t[i + 1..]);
      CollectValues(f, t);
      Without(Collect(f, t).value, i);
    }
  }
}
