/** Sequence helpers: the `list.extend` loop as a function, Python's
    `list.index`, and counting. */
module Seqs {

  /** The concatenation of `f(x)` over `s`, in order: what a loop of
      `args.extend(f(x))` over `s` builds. Defined from the back so that one
      loop step is one unfolding. */
  function FlatMap<A, B>(s: seq<A>, f: A -> seq<B>): seq<B>
  {
    if s == [] then [] else FlatMap(s[..|s| - 1], f) + f(s[|s| - 1])
  }

  lemma FlatMapSnoc<A, B>(s: seq<A>, x: A, f: A -> seq<B>)
    ensures FlatMap(s + [x], f) == FlatMap(s, f) + f(x)
  {
    assert (s + [x])[..|s|] == s;
  }

  lemma FlatMapThree<A, B>(a: A, b: A, c: A, f: A -> seq<B>)
    ensures FlatMap([a, b, c], f) == f(a) + f(b) + f(c)
  {
    FlatMapSnoc([], a, f);
    assert [] + [a] == [a];
    FlatMapSnoc([a], b, f);
    assert [a] + [b] == [a, b];
    FlatMapSnoc([a, b], c, f);
    assert [a, b] + [c] == [a, b, c];
  }

  /** When every `f(x)` has `k` elements, the result has `k` elements per
      input and the `j`-th element of block `i` is `f(s[i])[j]`. */
  lemma {:induction false} FlatMapUniform<A, B>(s: seq<A>, f: A -> seq<B>, k: nat)
    requires forall i :: 0 <= i < |s| ==> |f(s[i])| == k
    ensures |FlatMap(s, f)| == k * |s|
    ensures forall i, j :: 0 <= i < |s| && 0 <= j < k && k * i + j < |FlatMap(s, f)| ==>
      FlatMap(s, f)[k * i + j] == f(s[i])[j]
  {
    if s != [] {
      var p := s[..|s| - 1];
      FlatMapUniform(p, f, k);
      var r := FlatMap(s, f);
      assert r == FlatMap(p, f) + f(s[|s| - 1]);
      assert |r| == k * |p| + k == k * |s|;
      forall i, j | 0 <= i < |s| && 0 <= j < k
        ensures r[k * i + j] == f(s[i])[j]
      {
        if i < |p| {
          assert k * i + j < k * i + k == k * (i + 1) <= k * |p| by {
            assert i + 1 <= |p|;
            MulMono(k, i + 1, |p|);
          }
          assert p[i] == s[i];
        } else {
          assert k * i == k * |p|;
        }
      }
    }
  }

  lemma FlatMapLength<A, B>(s: seq<A>, f: A -> seq<B>, k: nat)
    requires forall i :: 0 <= i < |s| ==> |f(s[i])| == k
    ensures |FlatMap(s, f)| == k * |s|
  {
    FlatMapUniform(s, f, k);
  }

  /** One element of a uniform `FlatMap`. */
  lemma FlatMapAt<A, B>(s: seq<A>, f: A -> seq<B>, k: nat, i: nat, j: nat)
    requires forall i :: 0 <= i < |s| ==> |f(s[i])| == k
    requires i < |s| && j < k
    ensures k * i + j < |FlatMap(s, f)| && FlatMap(s, f)[k * i + j] == f(s[i])[j]
  {
    FlatMapUniform(s, f, k);
    MulMono(k, i + 1, |s|);
  }

  lemma MulMono(k: nat, a: nat, b: nat)
    requires a <= b
    ensures k * a <= k * b
  {
  }

  lemma FlatMapEmpty<A, B>(s: seq<A>, f: A -> seq<B>)
    requires forall i :: 0 <= i < |s| ==> f(s[i]) == []
    ensures FlatMap(s, f) == []
  {
    if s != [] {
      FlatMapEmpty(s[..|s| - 1], f);
    }
  }

  /** `[f(x) for x in s]`. */
  function Map<A, B>(s: seq<A>, f: A -> B): seq<B>
  {
    if s == [] then [] else Map(s[..|s| - 1], f) + [f(s[|s| - 1])]
  }

  lemma {:induction false} MapAt<A, B>(s: seq<A>, f: A -> B)
    ensures |Map(s, f)| == |s|
    ensures forall i :: 0 <= i < |s| ==> Map(s, f)[i] == f(s[i])
  {
    if s != [] {
      MapAt(s[..|s| - 1], f);
    }
  }

  /** Python's `s.index(x)`: the first position of `x`. */
  function IndexOf<T(==)>(s: seq<T>, x: T): (i: nat)
    requires x in s
    ensures i < |s| && s[i] == x && x !in s[..i]
  {
    if s[0] == x then 0 else 1 + IndexOf(s[1..], x)
  }

  /** The first position of `x` in `a + b` lies in `a` when `x` is in `a`,
      and is `|a|` plus its position in `b` otherwise. */
  lemma IndexOfAppend<T>(a: seq<T>, b: seq<T>, x: T)
    requires x in a + b
    ensures x in a ==> IndexOf(a + b, x) == IndexOf(a, x)
    ensures x !in a ==> x in b && IndexOf(a + b, x) == |a| + IndexOf(b, x)
  {
    if x in a {
      var j := IndexOf(a, x);
      assert (a + b)[..j] == a[..j];
      IndexOfUnique(a + b, x, j);
    } else {
      assert x in b;
      var j := IndexOf(b, x);
      assert (a + b)[..|a| + j] == a + b[..j];
      IndexOfUnique(a + b, x, |a| + j);
    }
  }

  /** A position holding `x` with no `x` before it is the first position. */
  lemma IndexOfUnique<T>(s: seq<T>, x: T, k: nat)
    requires k < |s| && s[k] == x && x !in s[..k]
    ensures IndexOf(s, x) == k
  {
  }

  /** The number of occurrences of `x` in `s`. */
  function Count<T(==)>(s: seq<T>, x: T): nat
  {
    if s == [] then 0 else Count(s[..|s| - 1], x) + (if s[|s| - 1] == x then 1 else 0)
  }

  lemma {:induction false} CountAppend<T>(a: seq<T>, b: seq<T>, x: T)
    ensures Count(a + b, x) == Count(a, x) + Count(b, x)
  {
    if b != [] {
      assert (a + b)[..|a + b| - 1] == a + b[..|b| - 1];
      CountAppend(a, b[..|b| - 1], x);
    } else {
      assert a + b == a;
    }
  }
}
