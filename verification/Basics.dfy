/** Shared vocabulary: optional values, weighted sums over sequences, and duplicate-freedom. */
module Basics {

  datatype Option<+T> = None | Some(value: T)

  /** The sum of `f` over the elements of `s`. */
  function Sum<T(!new)>(f: T -> nat, s: seq<T>): nat {
    if s == [] then 0 else Sum(f, s[..|s| - 1]) + f(s[|s| - 1])
  }

  lemma SumAppend<T(!new)>(f: T -> nat, s: seq<T>, x: T)
    ensures Sum(f, s + [x]) == Sum(f, s) + f(x)
  {
    assert (s + [x])[..|s|] == s;
  }

  lemma {:induction false} SumConcat<T(!new)>(f: T -> nat, s: seq<T>, t: seq<T>)
    ensures Sum(f, s + t) == Sum(f, s) + Sum(f, t)
  {
    if t == [] {
      assert s + t == s;
    } else {
      var u := t[..|t| - 1];
      SumConcat(f, s, u);
      assert s + t == (s + u) + [t[|t| - 1]];
      SumAppend(f, s + u, t[|t| - 1]);
    }
  }

  lemma {:induction false} SumUpdate<T(!new)>(f: T -> nat, s: seq<T>, k: nat, x: T)
    requires k < |s|
    ensures Sum(f, s[k := x]) + f(s[k]) == Sum(f, s) + f(x)
  {
    var n := |s| - 1;
    if k == n {
      assert s[k := x][..n] == s[..n];
    } else {
      SumUpdate(f, s[..n], k, x);
      assert s[k := x][..n] == s[..n][k := x];
    }
  }

  lemma {:induction false} SumAtMost<T(!new)>(f: T -> nat, s: seq<T>, bound: nat)
    requires forall x <- s :: f(x) <= bound
    ensures Sum(f, s) <= bound * |s|
  {
    if s != [] {
      var n := |s| - 1;
      forall x | x in s[..n] ensures f(x) <= bound {
        assert x in s;
      }
      SumAtMost(f, s[..n], bound);
      assert s[n] in s;
      assert bound * |s| == bound * n + bound;
    }
  }

  lemma {:induction false} SumZero<T(!new)>(f: T -> nat, s: seq<T>)
    ensures Sum(f, s) == 0 <==> forall k :: 0 <= k < |s| ==> f(s[k]) == 0
  {
    if s != [] {
      var n := |s| - 1;
      SumZero(f, s[..n]);
      assert forall k :: 0 <= k < n ==> s[..n][k] == s[k];
    }
  }

  lemma {:induction false} SumContains<T(!new)>(f: T -> nat, s: seq<T>, k: nat)
    requires k < |s|
    ensures f(s[k]) <= Sum(f, s)
  {
    var n := |s| - 1;
    if k < n {
      SumContains(f, s[..n], k);
    }
  }

  ghost predicate NoDuplicates<T(!new)>(s: seq<T>) {
    forall j, k :: 0 <= j < k < |s| ==> s[j] != s[k]
  }

  /** The numbers below `n`. */
  ghost function Below(n: nat): (r: set<nat>)
    ensures forall k: nat :: k in r <==> k < n
    ensures |r| == n
  {
    if n == 0 then {} else Below(n - 1) + {n - 1}
  }

  lemma NoElements<T(!new)>(s: set<T>)
    requires forall x :: x !in s
    ensures |s| == 0
  {
    assert s == {};
  }

  lemma {:induction false} SubsetSize<T>(a: set<T>, b: set<T>)
    requires a <= b
    ensures |a| <= |b|
  {
    if a != {} {
      var x :| x in a;
      SubsetSize(a - {x}, b - {x});
    }
  }
}
