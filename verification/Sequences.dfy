/** Facts about sequences that several models need. */
module Sequences {

  ghost predicate Distinct<T>(s: seq<T>) {
    forall i, j :: 0 <= i < j < |s| ==> s[i] != s[j]
  }

  lemma DistinctJoin<T>(a: seq<T>, b: seq<T>)
    requires Distinct(a) && Distinct(b) && forall x :: x in a ==> x !in b
    ensures Distinct(a + b)
  {
    forall i, j | 0 <= i < j < |a + b| ensures (a + b)[i] != (a + b)[j] {
      if i < |a| && j >= |a| {
        assert a[i] in a;
      }
    }
  }

  /** The elements of `s` that are not in `gone`, in their order. */
  function Without<T(==)>(s: seq<T>, gone: set<T>): (r: seq<T>)
    ensures forall x :: x in r ==> x in s && x !in gone
    ensures forall x :: x in s ==> x in gone || x in r
    ensures |r| <= |s|
  {
    if s == [] then []
    else if s[0] in gone then Without(s[1..], gone)
    else [s[0]] + Without(s[1..], gone)
  }

  lemma {:induction false} WithoutAppend<T>(a: seq<T>, b: seq<T>, gone: set<T>)
    ensures Without(a + b, gone) == Without(a, gone) + Without(b, gone)
  {
    if a == [] {
      assert a + b == b;
    } else {
      assert (a + b)[1..] == a[1..] + b;
      WithoutAppend(a[1..], b, gone);
    }
  }

  lemma {:induction false} WithoutNothing<T>(s: seq<T>, gone: set<T>)
    requires forall x :: x in s ==> x !in gone
    ensures Without(s, gone) == s
  {
    if s != [] {
      WithoutNothing(s[1..], gone);
    }
  }

  lemma {:induction false} WithoutTwice<T>(s: seq<T>, first: set<T>, second: set<T>)
    ensures Without(Without(s, first), second) == Without(s, first + second)
  {
    if s != [] {
      WithoutTwice(s[1..], first, second);
    }
  }

  /** Taking one occurring element out of a duplicate-free sequence shortens it by one. */
  lemma {:induction false} WithoutOne<T>(s: seq<T>, x: T)
    requires Distinct(s)
    ensures Distinct(Without(s, {x}))
    ensures |Without(s, {x})| == if x in s then |s| - 1 else |s|
  {
    if s != [] {
      WithoutOne(s[1..], x);
      if s[0] == x {
        assert x !in s[1..];
        WithoutNothing(s[1..], {x});
      }
    }
  }

  function IndexOf<T(==)>(s: seq<T>, x: T): (i: nat)
    requires x in s
    ensures i < |s| && s[i] == x
    ensures forall j :: 0 <= j < i ==> s[j] != x
  {
    if s[0] == x then 0 else 1 + IndexOf(s[1..], x)
  }

  /** One for each thing that holds. */
  function Tally(p: bool): nat {
    if p then 1 else 0
  }

  /** How many times `x` occurs in `s`. */
  function Count<T(==)>(s: seq<T>, x: T): nat {
    if s == [] then 0 else Tally(s[0] == x) + Count(s[1..], x)
  }

  /** Removing elements never moves a survivor further back. */
  lemma {:induction false} WithoutMovesForward<T>(s: seq<T>, gone: set<T>, x: T)
    requires x in s && x !in gone
    ensures IndexOf(Without(s, gone), x) <= IndexOf(s, x)
  {
    if s[0] != x {
      WithoutMovesForward(s[1..], gone, x);
    }
  }

  lemma {:induction false} IndexOfAppend<T>(a: seq<T>, b: seq<T>, x: T)
    requires x in a
    ensures IndexOf(a + b, x) == IndexOf(a, x)
  {
    assert (a + b)[0] == a[0];
    if a[0] != x {
      assert (a + b)[1..] == a[1..] + b;
      IndexOfAppend(a[1..], b, x);
    }
  }

  /** How many flags are set before `i`, and one place further. */
  lemma OneMoreCounted(counted: seq<bool>, i: nat)
    requires i < |counted|
    ensures |set k | 0 <= k < i + 1 && counted[k]| == |set k | 0 <= k < i && counted[k]| + Tally(counted[i])
  {
    var earlier := set k | 0 <= k < i && counted[k];
    assert (set k | 0 <= k < i + 1 && counted[k]) == if counted[i] then earlier + {i} else earlier;
  }
}
