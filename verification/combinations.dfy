/**
 The Cartesian product `itertools.product(*values)`: every way of drawing one element from each
 list, in lexicographic order of positions (the first list varies slowest).
 */
module Combinations {

  /** `c` draws its `k`-th element from `lists[k]`, for every `k`. */
  ghost predicate Drawn<T>(c: seq<T>, lists: seq<seq<T>>)
  {
    |c| == |lists| && forall k :: 0 <= k < |c| ==> c[k] in lists[k]
  }

  /** `[x] + t` for every tuple `t` of `rests`, in order. */
  function Cons<T>(x: T, rests: seq<seq<T>>): (r: seq<seq<T>>)
    ensures |r| == |rests|
    ensures forall n :: 0 <= n < |r| ==> r[n] == [x] + rests[n]
  {
    seq(|rests|, n requires 0 <= n < |rests| => [x] + rests[n])
  }

  /** For each `x` of `firsts` in turn, every tuple of `rests` prefixed by `x`. */
  function Spread<T>(firsts: seq<T>, rests: seq<seq<T>>): seq<seq<T>>
    decreases |firsts|
  {
    if |firsts| == 0 then [] else Cons(firsts[0], rests) + Spread(firsts[1..], rests)
  }

  /** `itertools.product(*lists)`; the product of no lists is the single empty tuple. */
  function Product<T>(lists: seq<seq<T>>): seq<seq<T>>
    decreases |lists|
  {
    if |lists| == 0 then [[]] else Spread(lists[0], Product(lists[1..]))
  }

  lemma {:induction false} SpreadMembership<T>(firsts: seq<T>, rests: seq<seq<T>>, c: seq<T>)
    ensures c in Spread(firsts, rests) <==> |c| > 0 && c[0] in firsts && c[1..] in rests
    decreases |firsts|
  {
    if |firsts| > 0 {
      SpreadMembership(firsts[1..], rests, c);
      var head := Cons(firsts[0], rests);
      if c in head {
        var n :| 0 <= n < |head| && head[n] == c;
        assert c[1..] == rests[n];
      }
      if |c| > 0 && c[0] == firsts[0] && c[1..] in rests {
        var n :| 0 <= n < |rests| && rests[n] == c[1..];
        assert head[n] == [c[0]] + c[1..] == c;
      }
      if |c| > 0 && c[0] in firsts && c[0] != firsts[0] {
        var n :| 0 <= n < |firsts| && firsts[n] == c[0];
        assert firsts[1..][n - 1] == c[0];
      }
    }
  }

  /** A tuple is produced exactly when it draws each element from the corresponding list. */
  lemma {:induction false} ProductMembership<T>(lists: seq<seq<T>>, c: seq<T>)
    ensures c in Product(lists) <==> Drawn(c, lists)
    decreases |lists|
  {
    if |lists| == 0 {
    } else {
      SpreadMembership(lists[0], Product(lists[1..]), c);
      if |c| > 0 {
        ProductMembership(lists[1..], c[1..]);
        if Drawn(c[1..], lists[1..]) && c[0] in lists[0] {
          forall k | 0 <= k < |c|
            ensures c[k] in lists[k]
          {
            if k > 0 { assert c[1..][k - 1] == c[k]; }
          }
        }
        if Drawn(c, lists) {
          forall k | 0 <= k < |c[1..]|
            ensures c[1..][k] in lists[1..][k]
          {
            assert c[1..][k] == c[k + 1];
          }
        }
      }
    }
  }

  /** `ProductMembership` for every tuple at once. */
  lemma ProductIsDrawn<T>(lists: seq<seq<T>>)
    ensures forall c :: c in Product(lists) <==> Drawn(c, lists)
  {
    forall c
      ensures c in Product(lists) <==> Drawn(c, lists)
    {
      ProductMembership(lists, c);
    }
  }
}
