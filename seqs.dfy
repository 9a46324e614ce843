/** Sequence helpers: repetition, mapping, and mapping that drops what does not parse. */
module Seqs {
  import opened Wrappers

  /** `n` copies of `x` (for strings, Go's `strings.Repeat`). */
  function Repeat<T>(x: T, n: nat): (xs: seq<T>)
    ensures |xs| == n
    ensures forall k :: 0 <= k < n ==> xs[k] == x
  {
    seq(n, _ => x)
  }

  /** `f` applied to every element, in order. */
  function Map<A, B>(f: A -> B, xs: seq<A>): (ys: seq<B>)
    ensures |ys| == |xs|
  {
    if |xs| == 0 then [] else Map(f, xs[..|xs| - 1]) + [f(xs[|xs| - 1])]
  }

  /** Each element of the map is `f` of the element at the same place. */
  lemma {:induction false} MapAt<A, B>(f: A -> B, xs: seq<A>, i: nat)
    requires i < |xs|
    ensures Map(f, xs)[i] == f(xs[i])
  {
    var n := |xs| - 1;
    if i < n {
      MapAt(f, xs[..n], i);
      assert xs[..n][i] == xs[i];
    }
  }

  /** Helper for the timestamp examples: mapping over two elements. */
  lemma MapTwo<A, B>(f: A -> B, a: A, b: A)
    ensures Map(f, [a, b]) == [f(a), f(b)]
  {
    MapAt(f, [a, b], 0);
    MapAt(f, [a, b], 1);
  }

  /** Helper for the timestamp examples: mapping over three elements. */
  lemma MapThree<A, B>(f: A -> B, a: A, b: A, c: A)
    ensures Map(f, [a, b, c]) == [f(a), f(b), f(c)]
  {
    MapAt(f, [a, b, c], 0);
    MapAt(f, [a, b, c], 1);
    MapAt(f, [a, b, c], 2);
  }

  /** The values of `f` that are present, in order (a filter and a map in one). */
  function Keep<A, B>(f: A -> Option<B>, xs: seq<A>): (ys: seq<B>)
    ensures |ys| <= |xs|
  {
    if |xs| == 0 then []
    else
      var init := Keep(f, xs[..|xs| - 1]);
      match f(xs[|xs| - 1])
      case None => init
      case Some(y) => init + [y]
  }

  /** Keeping over a concatenation keeps over each part. */
  lemma {:induction false} KeepAppend<A, B>(f: A -> Option<B>, a: seq<A>, b: seq<A>)
    ensures Keep(f, a + b) == Keep(f, a) + Keep(f, b)
    decreases |b|
  {
    if |b| == 0 {
      assert a + b == a;
    } else {
      var n := |b| - 1;
      assert (a + b)[..|a + b| - 1] == a + b[..n];
      assert (a + b)[|a + b| - 1] == b[n];
      KeepAppend(f, a, b[..n]);
    }
  }

  /** Keeping over one element. */
  lemma KeepOne<A, B>(f: A -> Option<B>, x: A)
    ensures Keep(f, [x]) == if f(x).Some? then [f(x).value] else []
  {
    assert [x][..0] == [];
  }

  /** What holds of every value `f` gives holds of every value kept. */
  lemma {:induction false} KeepAll<A, B>(f: A -> Option<B>, xs: seq<A>, p: B -> bool)
    requires forall i :: 0 <= i < |xs| && f(xs[i]).Some? ==> p(f(xs[i]).value)
    ensures forall j :: 0 <= j < |Keep(f, xs)| ==> p(Keep(f, xs)[j])
  {
    if |xs| > 0 {
      var init := xs[..|xs| - 1];
      assert forall i :: 0 <= i < |init| ==> init[i] == xs[i];
      KeepAll(f, init, p);
    }
  }
}
