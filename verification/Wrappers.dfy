/** The stock option type and a few small helpers shared by the modules. */
module Wrappers {
  datatype Option<+T> = None | Some(value: T)

  /** The sequence without its k-th element. */
  function RemoveAt<T>(s: seq<T>, k: nat): (r: seq<T>)
    requires k < |s|
    ensures |r| == |s| - 1
    ensures forall x :: x in r ==> x in s
  {
    s[..k] + s[k + 1..]
  }

  ghost predicate Distinct<T>(s: seq<T>) {
    forall i, j :: 0 <= i < j < |s| ==> s[i] != s[j]
  }

  lemma SubsetSize<T>(a: set<T>, b: set<T>)
    requires a <= b
    ensures |a| <= |b|
  {
    assert b == a + (b - a);
  }

  /** How often `x` occurs. */
  function Times<T(==)>(s: seq<T>, x: T): nat {
    if s == [] then 0 else Times(s[..|s| - 1], x) + if s[|s| - 1] == x then 1 else 0
  }

  lemma {:induction false} TimesConcat<T>(a: seq<T>, b: seq<T>, x: T)
    ensures Times(a + b, x) == Times(a, x) + Times(b, x)
  {
    if b == [] {
      assert a + b == a;
    } else {
      var n := |b| - 1;
      assert (a + b)[..|a| + n] == a + b[..n];
      TimesConcat(a, b[..n], x);
    }
  }

  lemma TimesOne<T>(y: T, x: T)
    ensures Times([y], x) == if y == x then 1 else 0
  {
    assert [y][..0] == [];
  }

  lemma TimesAdd<T>(s: seq<T>, y: T, x: T)
    ensures Times(s + [y], x) == Times(s, x) + if y == x then 1 else 0
  {
    TimesConcat(s, [y], x);
    TimesOne(y, x);
  }

  lemma {:induction false} TimesRemove<T>(s: seq<T>, k: nat, x: T)
    requires k < |s|
    ensures Times(RemoveAt(s, k), x) == Times(s, x) - if s[k] == x then 1 else 0
  {
    var n := |s| - 1;
    if k < n {
      assert RemoveAt(s, k)[..n - 1] == RemoveAt(s[..n], k);
      TimesRemove(s[..n], k, x);
    } else {
      assert RemoveAt(s, k) == s[..n];
    }
  }

  lemma {:induction false} TimesSet<T>(s: seq<T>, k: nat, y: T, x: T)
    requires k < |s|
    ensures Times(s[k := y], x) == Times(s, x) + (if y == x then 1 else 0) - (if s[k] == x then 1 else 0)
  {
    var n := |s| - 1;
    if k < n {
      assert s[k := y][..n] == s[..n][k := y];
      TimesSet(s[..n], k, y, x);
    } else {
      assert s[k := y][..n] == s[..n];
    }
  }

  lemma TimesFront<T>(s: seq<T>, x: T)
    requires s != []
    ensures Times(s[1..], x) == Times(s, x) - if s[0] == x then 1 else 0
  {
    assert RemoveAt(s, 0) == s[1..];
    TimesRemove(s, 0, x);
  }

  lemma {:induction false} TimesIsMultiset<T>(s: seq<T>, x: T)
    ensures multiset(s)[x] == Times(s, x)
  {
    if s != [] {
      TimesIsMultiset(s[..|s| - 1], x);
      assert s == s[..|s| - 1] + [s[|s| - 1]];
    }
  }
}
