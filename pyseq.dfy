/**
  Python list operations used by the core: the slices `xs[k:]` and `xs[:k]`
  (negative bounds count from the end), flattening, and cutting a list into
  consecutive batches of a fixed size.
 */
module PySeq {

  /** A value, or Python's `None`. */
  datatype Option<T> = None | Some(value: T)

  /** The position a slice bound `k` denotes in a list of length `n`. */
  function SliceIndex(n: nat, k: int): (r: nat)
    ensures r <= n
    ensures 0 <= k <= n ==> r == k
    ensures k > n ==> r == n
    ensures k < 0 && 0 <= n + k ==> r == n + k
    ensures n + k < 0 ==> r == 0
  {
    if k < 0 then (if n + k < 0 then 0 else n + k) else if k > n then n else k
  }

  /** `xs[k:]` */
  function From<T>(xs: seq<T>, k: int): seq<T> {
    xs[SliceIndex(|xs|, k)..]
  }

  /** `xs[:k]` */
  function Upto<T>(xs: seq<T>, k: int): seq<T> {
    xs[..SliceIndex(|xs|, k)]
  }

  /** `xs[-k:]`, the window a count of recent items selects. A count of 0 selects
      the whole list, because `-0 == 0`; a negative count drops items from the front. */
  function Last<T>(xs: seq<T>, k: int): (r: seq<T>)
    ensures k == 0 ==> r == xs
    ensures 0 < k <= |xs| ==> r == xs[|xs| - k..]
    ensures k > |xs| ==> r == xs
    ensures k < 0 ==> r == xs[if -k <= |xs| then -k else |xs|..]
  {
    From(xs, -k)
  }

  function Flatten<T>(xss: seq<seq<T>>): seq<T>
    decreases |xss|
  {
    if |xss| == 0 then [] else xss[0] + Flatten(xss[1..])
  }

  lemma {:induction false} FlattenAppend<T>(a: seq<seq<T>>, b: seq<seq<T>>)
    ensures Flatten(a + b) == Flatten(a) + Flatten(b)
    decreases |a|
  {
    if |a| > 0 {
      assert (a + b)[1..] == a[1..] + b;
      FlattenAppend(a[1..], b);
    } else {
      assert a + b == b;
    }
  }

  lemma FlattenSnoc<T>(a: seq<seq<T>>, x: seq<T>)
    ensures Flatten(a + [x]) == Flatten(a) + x
  {
    FlattenAppend(a, [x]);
    assert Flatten([x]) == x + Flatten([x][1..]);
  }

  function Min(a: int, b: int): int {
    if a <= b then a else b
  }

  /** `[xs[i:i + size] for i in range(0, len(xs), size)]` */
  function Partition<T>(xs: seq<T>, size: nat): seq<seq<T>>
    requires size > 0
    decreases |xs|
  {
    if |xs| == 0 then []
    else if |xs| <= size then [xs]
    else [xs[..size]] + Partition(xs[size..], size)
  }

  /** `k * size`, built up by repeated addition so that proofs about batch
      offsets stay within linear arithmetic. */
  function Offset(k: nat, size: nat): nat {
    if k == 0 then 0 else Offset(k - 1, size) + size
  }

  lemma {:induction false} OffsetIsProduct(k: nat, size: nat)
    ensures Offset(k, size) == k * size
  {
    if k > 0 {
      OffsetIsProduct(k - 1, size);
      assert (k - 1) * size + size == k * size;
    }
  }

  /** The batches are consecutive slices of `size` items (the last one possibly
      shorter), none is empty, there are ceil(|xs| / size) of them (the least count
      whose batches of `size` can hold `xs`), and together they are exactly `xs`,
      in order. */
  lemma PartitionSpec<T>(xs: seq<T>, size: nat)
    requires size > 0
    ensures var p := Partition(xs, size);
      Flatten(p) == xs &&
      (|p| == 0 <==> |xs| == 0) &&
      (|p| > 0 ==> Offset(|p| - 1, size) < |xs| <= Offset(|p|, size))
    ensures forall k :: 0 <= k < |Partition(xs, size)| ==> IsBatch(xs, size, k, Partition(xs, size)[k])
  {
    PartitionFlatten(xs, size);
    PartitionCount(xs, size);
    forall k | 0 <= k < |Partition(xs, size)|
      ensures IsBatch(xs, size, k, Partition(xs, size)[k])
    {
      PartitionAt(xs, size, k);
    }
  }

  /** Batch number `k` of `xs`: the `size` items from offset `k * size` on (fewer
      at the end of `xs`), and at least one. */
  ghost predicate IsBatch<T>(xs: seq<T>, size: nat, k: nat, b: seq<T>) {
    1 <= |b| <= size &&
    Offset(k, size) < |xs| &&
    b == xs[Offset(k, size)..Min(Offset(k, size) + size, |xs|)]
  }

  lemma {:induction false} PartitionFlatten<T>(xs: seq<T>, size: nat)
    requires size > 0
    ensures Flatten(Partition(xs, size)) == xs
    decreases |xs|
  {
    var p := Partition(xs, size);
    if 0 < |xs| <= size {
      assert Flatten(p) == xs + Flatten(p[1..]);
    } else if |xs| > size {
      PartitionFlatten(xs[size..], size);
      assert p[1..] == Partition(xs[size..], size);
      assert xs == xs[..size] + xs[size..];
    }
  }

  lemma {:induction false} PartitionCount<T>(xs: seq<T>, size: nat)
    requires size > 0
    ensures |Partition(xs, size)| == 0 <==> |xs| == 0
    ensures |Partition(xs, size)| > 0 ==>
              Offset(|Partition(xs, size)| - 1, size) < |xs| <= Offset(|Partition(xs, size)|, size)
    decreases |xs|
  {
    if |xs| > size {
      var q := Partition(xs[size..], size);
      PartitionCount(xs[size..], size);
      assert |Partition(xs, size)| == |q| + 1;
    }
  }

  lemma {:induction false} PartitionAt<T>(xs: seq<T>, size: nat, k: nat)
    requires size > 0 && k < |Partition(xs, size)|
    ensures IsBatch(xs, size, k, Partition(xs, size)[k])
    decreases |xs|
  {
    var p := Partition(xs, size);
    if k == 0 {
      assert Offset(0, size) == 0;
      if |xs| <= size {
        assert p[0] == xs == xs[0..|xs|];
      } else {
        assert p[0] == xs[..size] == xs[0..size];
      }
    } else {
      assert |xs| > size;
      var rest := xs[size..];
      PartitionAt(rest, size, k - 1);
      assert p[k] == Partition(rest, size)[k - 1];
      var o := Offset(k - 1, size);
      assert Offset(k, size) == o + size;
      assert Min(o + size, |rest|) + size == Min(o + size + size, |xs|);
      SliceOfDrop(xs, size, o, Min(o + size, |rest|));
    }
  }

  lemma SliceOfDrop<T>(xs: seq<T>, d: nat, i: nat, j: nat)
    requires d <= |xs| && i <= j <= |xs| - d
    ensures xs[d..][i..j] == xs[d + i..d + j]
  {
  }

  /** The items of `f(x)` for each `x` of `xs` in turn, as a loop that extends
      a list once per item builds it. */
  function FlatMap<T, U>(xs: seq<T>, f: T -> seq<U>): seq<U>
    decreases |xs|
  {
    if |xs| == 0 then []
    else FlatMap(xs[..|xs| - 1], f) + f(xs[|xs| - 1])
  }

  /** The lists of two runs of items follow each other. */
  lemma {:induction false} FlatMapAppend<T, U>(a: seq<T>, b: seq<T>, f: T -> seq<U>)
    ensures FlatMap(a + b, f) == FlatMap(a, f) + FlatMap(b, f)
    decreases |b|
  {
    if |b| > 0 {
      var b' := b[..|b| - 1];
      assert (a + b)[..|a + b| - 1] == a + b';
      assert (a + b)[|a + b| - 1] == b[|b| - 1];
      FlatMapAppend(a, b', f);
    } else {
      assert a + b == a;
    }
  }

  /** The list after one more item. */
  lemma FlatMapSnoc<T, U>(xs: seq<T>, i: nat, f: T -> seq<U>)
    requires i < |xs|
    ensures FlatMap(xs[..i + 1], f) == FlatMap(xs[..i], f) + f(xs[i])
  {
    assert xs[..i + 1][..i] == xs[..i];
  }
}
