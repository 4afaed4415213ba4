/** Shared vocabulary: optional values, filtering and the subsequence order on
    sequences. Nothing here is specific to the proxy. */
module Prelude {

  datatype Option<+T> = None | Some(value: T)

  datatype Direction = ChargerToCentral | CentralToCharger

  function MinReal(a: real, b: real): real {
    if a <= b then a else b
  }

  function MaxReal(a: real, b: real): real {
    if a >= b then a else b
  }

  function MinNat(a: nat, b: nat): nat {
    if a <= b then a else b
  }

  lemma ConcatAssociates<T>(a: seq<T>, b: seq<T>, c: seq<T>)
    ensures a + (b + c) == a + b + c
  {}

  /** The elements of `s` that satisfy `keep`, in order. */
  function Filter<T(!new)>(keep: T -> bool, s: seq<T>): (r: seq<T>)
    ensures |r| <= |s|
    ensures forall x :: x in r <==> x in s && keep(x)
  {
    if s == [] then []
    else
      var n := |s| - 1;
      assert forall x :: x in s <==> x in s[..n] || x == s[n];
      Filter(keep, s[..n]) + (if keep(s[n]) then [s[n]] else [])
  }

  lemma {:induction false} FilterConcat<T(!new)>(keep: T -> bool, a: seq<T>, b: seq<T>)
    ensures Filter(keep, a + b) == Filter(keep, a) + Filter(keep, b)
  {
    if b == [] {
      assert a + b == a;
    } else {
      var n := |b| - 1;
      assert (a + b)[..|a + b| - 1] == a + b[..n];
      FilterConcat(keep, a, b[..n]);
    }
  }

  lemma SplitOneMore<T>(s: seq<T>, a: seq<T>, b: seq<T>, x: T)
    requires multiset(s) == multiset(a) + multiset(b)
    ensures multiset(s + [x]) == multiset(a + [x]) + multiset(b + [])
    ensures multiset(s + [x]) == multiset(a + []) + multiset(b + [x])
  {
    assert a + [] == a && b + [] == b;
  }

  /** Splitting a sequence by a predicate and its complement loses nothing. */
  lemma {:induction false} FilterSplits<T(!new)>(keep: T -> bool, drop: T -> bool, s: seq<T>)
    requires forall x :: keep(x) != drop(x)
    ensures multiset(s) == multiset(Filter(keep, s)) + multiset(Filter(drop, s))
  {
    if s != [] {
      var n := |s| - 1;
      FilterSplits(keep, drop, s[..n]);
      SplitOneMore(s[..n], Filter(keep, s[..n]), Filter(drop, s[..n]), s[n]);
      assert s == s[..n] + [s[n]];
      assert Filter(keep, s) == Filter(keep, s[..n]) + (if keep(s[n]) then [s[n]] else []);
      assert Filter(drop, s) == Filter(drop, s[..n]) + (if drop(s[n]) then [s[n]] else []);
    }
  }

  /** `a` is obtained from `b` by deleting elements. */
  ghost predicate Subsequence<T(!new)>(a: seq<T>, b: seq<T>)
    decreases |b|
  {
    || a == []
    || (b != [] && a[|a| - 1] == b[|b| - 1] && Subsequence(a[..|a| - 1], b[..|b| - 1]))
    || (b != [] && Subsequence(a, b[..|b| - 1]))
  }

  lemma SubsequenceSkip<T(!new)>(a: seq<T>, b: seq<T>, x: T)
    requires Subsequence(a, b)
    ensures Subsequence(a, b + [x])
  {
    assert (b + [x])[..|b + [x]| - 1] == b;
  }

  lemma SubsequenceKeep<T(!new)>(a: seq<T>, b: seq<T>, x: T)
    requires Subsequence(a, b)
    ensures Subsequence(a + [x], b + [x])
  {
    assert (b + [x])[..|b + [x]| - 1] == b;
    assert (a + [x])[..|a + [x]| - 1] == a;
  }

  lemma {:induction false} SubsequenceSelf<T(!new)>(s: seq<T>)
    ensures Subsequence(s, s)
  {
    if s != [] {
      SubsequenceSelf(s[..|s| - 1]);
    }
  }

  lemma {:induction false} SubsequenceTrans<T(!new)>(a: seq<T>, b: seq<T>, c: seq<T>)
    requires Subsequence(a, b) && Subsequence(b, c)
    ensures Subsequence(a, c)
    decreases |c|
  {
    if a != [] && b != [] {
      var c' := c[..|c| - 1];
      if Subsequence(b, c') {
        SubsequenceTrans(a, b, c');
      } else {
        var b' := b[..|b| - 1];
        if a[|a| - 1] == b[|b| - 1] && Subsequence(a[..|a| - 1], b') {
          SubsequenceTrans(a[..|a| - 1], b', c');
        } else {
          SubsequenceTrans(a, b', c');
        }
      }
    }
  }

  lemma {:induction false} FilterIsSubsequence<T(!new)>(keep: T -> bool, s: seq<T>)
    ensures Subsequence(Filter(keep, s), s)
  {
    if s != [] {
      var n := |s| - 1;
      FilterIsSubsequence(keep, s[..n]);
      assert s == s[..n] + [s[n]];
      if keep(s[n]) {
        SubsequenceKeep(Filter(keep, s[..n]), s[..n], s[n]);
      } else {
        assert Filter(keep, s) == Filter(keep, s[..n]);
        SubsequenceSkip(Filter(keep, s[..n]), s[..n], s[n]);
      }
    }
  }

  lemma {:induction false} TailIsSubsequence<T(!new)>(s: seq<T>)
    requires s != []
    ensures Subsequence(s[1..], s)
  {
    var n, tail := |s| - 1, s[1..];
    if n > 0 {
      TailIsSubsequence(s[..n]);
      assert tail[..|tail| - 1] == s[..n][1..];
      assert tail[|tail| - 1] == s[n];
    }
  }
}
