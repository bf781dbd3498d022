/** Cutting a list into consecutive slices of bounded size, as the
    `for i in range(0, len(xs), n): xs[i:i + n]` loops of the core do. */
module Batching {

  /** The slices `xs[0:n], xs[n:2n], ...` in order. */
  function Chunks<T>(xs: seq<T>, n: nat): seq<seq<T>>
    requires n > 0
    decreases |xs|
  {
    if |xs| == 0 then []
    else if |xs| <= n then [xs]
    else [xs[..n]] + Chunks(xs[n..], n)
  }

  function Flatten<T>(xss: seq<seq<T>>): seq<T> {
    if |xss| == 0 then [] else xss[0] + Flatten(xss[1..])
  }

  lemma {:induction false} FlattenAppend<T>(a: seq<seq<T>>, b: seq<seq<T>>)
    ensures Flatten(a + b) == Flatten(a) + Flatten(b)
  {
    if |a| == 0 {
      assert a + b == b;
    } else {
      assert (a + b)[1..] == a[1..] + b;
      FlattenAppend(a[1..], b);
    }
  }

  /** `[f(x) for x in xs]` */
  function MapEach<A, B>(f: A -> B, xs: seq<A>): (r: seq<B>)
    ensures |r| == |xs| && forall i :: 0 <= i < |xs| ==> r[i] == f(xs[i])
  {
    seq(|xs|, i requires 0 <= i < |xs| => f(xs[i]))
  }

  /** Mapping two lists joined maps each, one after the other. */
  lemma MapEachAppend<A, B>(f: A -> B, a: seq<A>, b: seq<A>)
    ensures MapEach(f, a + b) == MapEach(f, a) + MapEach(f, b)
  {
    var l, r := MapEach(f, a + b), MapEach(f, a) + MapEach(f, b);
    forall i | 0 <= i < |l|
      ensures l[i] == r[i]
    {
      if i < |a| {
        assert (a + b)[i] == a[i];
      } else {
        assert (a + b)[i] == b[i - |a|];
      }
    }
  }

  /** One more batch at the end adds its items at the end. */
  lemma FlattenSnoc<T>(xss: seq<seq<T>>, x: seq<T>)
    ensures Flatten(xss + [x]) == Flatten(xss) + x
  {
    FlattenAppend(xss, [x]);
    assert [x][1..] == [];
    assert x + [] == x;
  }

  /** Concatenating the batches gives back the list: nothing is lost, duplicated or reordered. */
  lemma {:induction false} ChunksFlatten<T>(xs: seq<T>, n: nat)
    requires n > 0
    ensures Flatten(Chunks(xs, n)) == xs
    decreases |xs|
  {
    if |xs| == 0 {
    } else if |xs| <= n {
      assert Flatten([xs]) == xs + Flatten([xs][1..]);
    } else {
      ChunksFlatten(xs[n..], n);
      FlattenAppend([xs[..n]], Chunks(xs[n..], n));
      assert Flatten([xs[..n]]) == xs[..n] + Flatten([xs[..n]][1..]);
      assert xs == xs[..n] + xs[n..];
    }
  }

  /** Every batch is non-empty and holds at most n items, and all but the last hold exactly n. */
  lemma {:induction false} ChunksSizes<T>(xs: seq<T>, n: nat)
    requires n > 0
    ensures forall k :: 0 <= k < |Chunks(xs, n)| ==> 0 < |Chunks(xs, n)[k]| <= n
    ensures forall k :: 0 <= k < |Chunks(xs, n)| - 1 ==> |Chunks(xs, n)[k]| == n
    decreases |xs|
  {
    if |xs| == 0 {
    } else if |xs| <= n {
    } else {
      ChunksSizes(xs[n..], n);
      var c := Chunks(xs, n);
      assert c == [xs[..n]] + Chunks(xs[n..], n);
      forall k | 0 <= k < |c|
        ensures 0 < |c[k]| <= n
        ensures k < |c| - 1 ==> |c[k]| == n
      {
        if k > 0 { assert c[k] == Chunks(xs[n..], n)[k - 1]; }
      }
    }
  }

  /** The number of batches depends only on the number of items. */
  lemma {:induction false} ChunksCount<T, U>(xs: seq<T>, ys: seq<U>, n: nat)
    requires n > 0 && |xs| == |ys|
    ensures |Chunks(xs, n)| == |Chunks(ys, n)|
    decreases |xs|
  {
    if |xs| > n {
      ChunksCount(xs[n..], ys[n..], n);
    }
  }

  /** Appending a slice of at most n items to a list of k full batches appends exactly
      one batch: the shape of one iteration of the batching loops. */
  lemma {:induction false} ChunksSnoc<T>(a: seq<T>, b: seq<T>, n: nat, k: nat)
    requires n > 0 && |a| == k * n && 0 < |b| <= n
    ensures Chunks(a + b, n) == Chunks(a, n) + [b]
    decreases k
  {
    if k == 0 {
      assert a + b == b;
    } else {
      assert |a| >= n;
      assert (a + b)[..n] == a[..n];
      assert (a + b)[n..] == a[n..] + b;
      assert |a[n..]| == (k - 1) * n;
      ChunksSnoc(a[n..], b, n, k - 1);
      if k == 1 {
        assert a[n..] == [];
        assert Chunks(a, n) == [a];
      }
    }
  }

  /** 137 items in batches of 50 go out as three batches of 50, 50 and 37. */
  lemma BatchesOf137(xs: seq<int>)
    requires |xs| == 137
    ensures |Chunks(xs, 50)| == 3
    ensures |Chunks(xs, 50)[0]| == 50 && |Chunks(xs, 50)[1]| == 50 && |Chunks(xs, 50)[2]| == 37
  {
    assert Chunks(xs, 50) == [xs[..50]] + Chunks(xs[50..], 50);
    assert Chunks(xs[50..], 50) == [xs[50..][..50]] + Chunks(xs[50..][50..], 50);
    assert Chunks(xs[50..][50..], 50) == [xs[50..][50..]];
  }
}
