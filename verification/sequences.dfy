/** Laws of sequences that several proofs share, stated for any elements. */
module Sequences {

  lemma TakeNext<T>(s: seq<T>, n: nat)
    requires 0 < n <= |s|
    ensures s[..n] == s[..n - 1] + [s[n - 1]]
  {
  }

  lemma Assoc<T>(a: seq<T>, b: seq<T>, c: seq<T>)
    ensures (a + b) + c == a + (b + c)
  {
  }

  /** What `f` makes of the first `n` elements, one after the other. */
  function FlatMap<A, B>(f: A -> seq<B>, xs: seq<A>, n: nat): seq<B>
    requires n <= |xs|
  {
    if n == 0 then [] else FlatMap(f, xs, n - 1) + f(xs[n - 1])
  }

  lemma {:induction false} FlatMapPrefix<A, B>(f: A -> seq<B>, a: seq<A>, b: seq<A>, n: nat)
    requires n <= |a|
    ensures FlatMap(f, a + b, n) == FlatMap(f, a, n)
  {
    if n > 0 { FlatMapPrefix(f, a, b, n - 1); }
  }

  lemma {:induction false} FlatMapConcat<A, B>(f: A -> seq<B>, a: seq<A>, b: seq<A>, n: nat)
    requires n <= |b|
    ensures FlatMap(f, a + b, |a| + n) == FlatMap(f, a, |a|) + FlatMap(f, b, n)
  {
    if n == 0 {
      FlatMapPrefix(f, a, b, |a|);
    } else {
      FlatMapConcat(f, a, b, n - 1);
      assert (a + b)[|a| + n - 1] == b[n - 1];
      Assoc(FlatMap(f, a, |a|), FlatMap(f, b, n - 1), f(b[n - 1]));
    }
  }

  lemma FlatMapPush<A, B>(f: A -> seq<B>, xs: seq<A>, x: A)
    ensures FlatMap(f, xs + [x], |xs| + 1) == FlatMap(f, xs, |xs|) + f(x)
  {
    FlatMapPrefix(f, xs, [x], |xs|);
  }

  /** Two ways through a nested sequence that agree on each part agree on the whole. */
  lemma {:induction false} NestedAgree<G, W, P, Q>(
      outer: G -> seq<W>, f: W -> seq<Q>, inner: G -> seq<P>, g: P -> seq<Q>, groups: seq<G>, n: nat)
    requires n <= |groups|
    requires forall i | 0 <= i < |groups| ::
               FlatMap(f, outer(groups[i]), |outer(groups[i])|) == FlatMap(g, inner(groups[i]), |inner(groups[i])|)
    ensures FlatMap(f, FlatMap(outer, groups, n), |FlatMap(outer, groups, n)|) ==
            FlatMap(g, FlatMap(inner, groups, n), |FlatMap(inner, groups, n)|)
  {
    if n > 0 {
      NestedAgree(outer, f, inner, g, groups, n - 1);
      var a, b := FlatMap(outer, groups, n - 1), outer(groups[n - 1]);
      var c, d := FlatMap(inner, groups, n - 1), inner(groups[n - 1]);
      FlatMapConcat(f, a, b, |b|);
      FlatMapConcat(g, c, d, |d|);
    }
  }
}
