/** Cutting a sequence into contiguous parts greedily, and why no cut does with fewer parts. */
module Packing {
  function Flatten<T>(parts: seq<seq<T>>): seq<T> {
    if parts == [] then [] else parts[0] + Flatten(parts[1..])
  }

  lemma {:induction false} FlattenJoin<T>(a: seq<seq<T>>, b: seq<seq<T>>)
    ensures Flatten(a + b) == Flatten(a) + Flatten(b)
  {
    if a == [] {
      assert a + b == b;
    } else {
      assert (a + b)[1..] == a[1..] + b;
      FlattenJoin(a[1..], b);
    }
  }

  /** A limit that a part of a part keeps whenever the whole keeps it. */
  ghost predicate Hereditary<T(!new)>(fits: seq<T> -> bool) {
    forall a, b :: a != [] && b != [] && fits(a + b) ==> fits(a) && fits(b)
  }

  ghost predicate Cut<T>(fits: seq<T> -> bool, parts: seq<seq<T>>, whole: seq<T>) {
    Flatten(parts) == whole && forall i :: 0 <= i < |parts| ==> parts[i] != [] && fits(parts[i])
  }

  /** Closes the current part only when the next item no longer fits in it. */
  function Pack<T>(fits: seq<T> -> bool, current: seq<T>, rest: seq<T>): seq<seq<T>>
    decreases |rest|
  {
    if rest == [] then if current == [] then [] else [current]
    else if current == [] || fits(current + [rest[0]]) then Pack(fits, current + [rest[0]], rest[1..])
    else [current] + Pack(fits, [rest[0]], rest[1..])
  }

  lemma PackNext<T>(fits: seq<T> -> bool, current: seq<T>, whole: seq<T>, i: nat)
    requires i < |whole|
    ensures current == [] || fits(current + [whole[i]]) ==>
      Pack(fits, current, whole[i..]) == Pack(fits, current + [whole[i]], whole[i + 1..])
    ensures current != [] && !fits(current + [whole[i]]) ==>
      Pack(fits, current, whole[i..]) == [current] + Pack(fits, [whole[i]], whole[i + 1..])
  {
    assert whole[i..][1..] == whole[i + 1..];
  }

  /** Nothing is lost, doubled or reordered, and every part is within the limit. */
  lemma {:induction false} PackIsACut<T>(fits: seq<T> -> bool, current: seq<T>, rest: seq<T>)
    requires forall i :: 0 <= i < |rest| ==> fits([rest[i]])
    requires current != [] ==> fits(current)
    ensures Cut(fits, Pack(fits, current, rest), current + rest)
    decreases |rest|
  {
    if rest == [] {
      assert current + rest == current;
    } else if current == [] || fits(current + [rest[0]]) {
      if current == [] {
        assert current + [rest[0]] == [rest[0]];
      }
      PackIsACut(fits, current + [rest[0]], rest[1..]);
      assert current + [rest[0]] + rest[1..] == current + rest;
    } else {
      PackIsACut(fits, [rest[0]], rest[1..]);
      assert [rest[0]] + rest[1..] == rest;
    }
  }

  /** What is left of a cut when the first `n` items go away. */
  function DropItems<T>(parts: seq<seq<T>>, n: nat): seq<seq<T>> {
    if n == 0 || parts == [] then parts
    else if |parts[0]| <= n then DropItems(parts[1..], n - |parts[0]|)
    else [parts[0][n..]] + parts[1..]
  }

  lemma {:induction false} DropItemsCuts<T(!new)>(fits: seq<T> -> bool, parts: seq<seq<T>>, whole: seq<T>, n: nat)
    requires Hereditary(fits) && Cut(fits, parts, whole) && n <= |whole|
    ensures Cut(fits, DropItems(parts, n), whole[n..]) && |DropItems(parts, n)| <= |parts|
    decreases |parts|
  {
    if n > 0 && parts != [] {
      var first, others := parts[0], Flatten(parts[1..]);
      assert whole == first + others;
      if |first| <= n {
        DropItemsCuts(fits, parts[1..], others, n - |first|);
        assert whole[n..] == others[n - |first|..];
      } else {
        assert first == first[..n] + first[n..];
        assert whole[n..] == first[n..] + others;
      }
    }
  }

  lemma PrefixFits<T(!new)>(fits: seq<T> -> bool, part: seq<T>, n: nat)
    requires Hereditary(fits) && fits(part) && 0 < n <= |part|
    ensures fits(part[..n])
  {
    assert part[..n] + part[n..] == part;
    if n == |part| {
      assert part[..n] == part;
    }
  }

  /** No cut within the same limit has fewer parts. */
  lemma {:induction false} PackIsShortest<T(!new)>(fits: seq<T> -> bool, current: seq<T>, rest: seq<T>, parts: seq<seq<T>>)
    requires Hereditary(fits) && Cut(fits, parts, current + rest)
    requires current == [] ==> rest == []
    ensures |Pack(fits, current, rest)| <= |parts|
    decreases |rest|
  {
    if rest == [] {
      assert current + rest == current;
    } else if fits(current + [rest[0]]) {
      assert current + [rest[0]] + rest[1..] == current + rest;
      PackIsShortest(fits, current + [rest[0]], rest[1..], parts);
    } else {
      var first, others, next := parts[0], Flatten(parts[1..]), current + [rest[0]];
      assert current + rest == first + others && next == (current + rest)[..|next|];
      forall n | 0 < n <= |first| ensures fits((first + others)[..n]) {
        assert (first + others)[..n] == first[..n];
        PrefixFits(fits, first, n);
      }
      assert |first| < |next|;
      var n := |current| - |first|;
      assert (first + others)[|current|..] == others[n..] && (current + rest)[|current|..] == rest;
      assert [rest[0]] + rest[1..] == rest;
      DropItemsCuts(fits, parts[1..], others, n);
      PackIsShortest(fits, [rest[0]], rest[1..], DropItems(parts[1..], n));
    }
  }

  lemma PackOptimal<T(!new)>(fits: seq<T> -> bool, whole: seq<T>, parts: seq<seq<T>>)
    requires Hereditary(fits) && Cut(fits, parts, whole)
    ensures |Pack(fits, [], whole)| <= |parts|
  {
    if whole != [] {
      assert [] + [whole[0]] == [whole[0]] && [whole[0]] + whole[1..] == whole;
      PackIsShortest(fits, [whole[0]], whole[1..], parts);
    }
  }
}
