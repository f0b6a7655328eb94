/**
  List comprehensions (`[f(x) for x in xs]`, `[x for x in xs if p(x)]`), flattening, and
  range-step batching: the slices `items[i:i+size]` for `i` in `range(0, len(items), size)`.
  The scripts batch rows in tens, twenties and thirties and group JSON entries in
  pairs; all of them cut the input this way.
 */
module Chunking {

  function Min(a: int, b: int): int {
    if a <= b then a else b
  }

  /** Concatenation of a list of lists, in order. */
  function Flatten<T>(xss: seq<seq<T>>): seq<T> {
    if |xss| == 0 then [] else xss[0] + Flatten(xss[1..])
  }

  lemma {:induction false} FlattenAppend<T>(xss: seq<seq<T>>, ys: seq<T>)
    ensures Flatten(xss + [ys]) == Flatten(xss) + ys
  {
    if |xss| == 0 {
      assert xss + [ys] == [ys];
      assert Flatten([ys]) == ys + Flatten([ys][1..]);
    } else {
      assert (xss + [ys])[1..] == xss[1..] + [ys];
      FlattenAppend(xss[1..], ys);
    }
  }

  /** `[f(x) for x in xs]`. */
  function MapSeq<A, B>(f: A -> B, xs: seq<A>): (ys: seq<B>)
    ensures |ys| == |xs|
    ensures forall j :: 0 <= j < |xs| ==> ys[j] == f(xs[j])
    decreases |xs|
  {
    if |xs| == 0 then [] else MapSeq(f, xs[..|xs| - 1]) + [f(xs[|xs| - 1])]
  }

  lemma MapSeqSnoc<A, B>(f: A -> B, xs: seq<A>, x: A)
    ensures MapSeq(f, xs + [x]) == MapSeq(f, xs) + [f(x)]
  {
    assert (xs + [x])[..|xs|] == xs;
  }

  /** `[x for x in xs if p(x)]`: the elements that pass `p`, in their original order. */
  function Filter<T>(p: T -> bool, xs: seq<T>): (ys: seq<T>)
    ensures |ys| <= |xs|
    ensures forall i :: 0 <= i < |ys| ==> p(ys[i]) && ys[i] in xs
    decreases |xs|
  {
    if |xs| == 0 then []
    else Filter(p, xs[..|xs| - 1]) + (if p(xs[|xs| - 1]) then [xs[|xs| - 1]] else [])
  }

  lemma FilterSnoc<T>(p: T -> bool, xs: seq<T>, x: T)
    ensures Filter(p, xs + [x]) == Filter(p, xs) + (if p(x) then [x] else [])
  {
    assert (xs + [x])[..|xs|] == xs;
  }

  /** An element survives the filter exactly when it is in the list and passes the test. */
  lemma {:induction false} FilterMember<T>(p: T -> bool, xs: seq<T>, x: T)
    ensures x in Filter(p, xs) <==> x in xs && p(x)
    decreases |xs|
  {
    if |xs| > 0 {
      var init, last := xs[..|xs| - 1], xs[|xs| - 1];
      assert xs == init + [last];
      FilterMember(p, init, x);
    }
  }

  /** Filtering a concatenation filters each part, keeping the parts in order. */
  lemma {:induction false} FilterAppend<T>(p: T -> bool, xs: seq<T>, ys: seq<T>)
    ensures Filter(p, xs + ys) == Filter(p, xs) + Filter(p, ys)
    decreases |ys|
  {
    if |ys| == 0 {
      assert xs + ys == xs;
    } else {
      var init, last := ys[..|ys| - 1], ys[|ys| - 1];
      assert ys == init + [last];
      assert xs + ys == (xs + init) + [last];
      FilterSnoc(p, xs + init, last);
      FilterSnoc(p, init, last);
      FilterAppend(p, xs, init);
    }
  }

  /** A filter that every element passes keeps the whole list. */
  lemma {:induction false} FilterAll<T>(p: T -> bool, xs: seq<T>)
    requires forall i :: 0 <= i < |xs| ==> p(xs[i])
    ensures Filter(p, xs) == xs
    decreases |xs|
  {
    if |xs| > 0 {
      FilterAll(p, xs[..|xs| - 1]);
      assert xs[..|xs| - 1] + [xs[|xs| - 1]] == xs;
    }
  }

  /** Python's `items[lo:lo+size]` for `0 <= lo <= len(items)`: the end is clamped to the length. */
  function Slice<T>(s: seq<T>, lo: nat, size: nat): (r: seq<T>)
    requires lo <= |s|
    ensures |r| == Min(size, |s| - lo)
    ensures forall k :: 0 <= k < |r| ==> r[k] == s[lo + k]
  {
    s[lo..Min(lo + size, |s|)]
  }

  /** The chunks cut from `s` front to back, `size` elements at a time. */
  function Chunks<T>(s: seq<T>, size: nat): seq<seq<T>>
    requires size > 0
    decreases |s|
  {
    if |s| == 0 then []
    else if |s| <= size then [s]
    else [s[..size]] + Chunks(s[size..], size)
  }

  /**
    The chunks partition `s`: together they are exactly `s`, in order; each holds
    between 1 and `size` elements, and every one but the last holds exactly `size`.
   */
  lemma {:induction false} ChunksPartition<T>(s: seq<T>, size: nat)
    requires size > 0
    ensures Flatten(Chunks(s, size)) == s
    ensures forall j :: 0 <= j < |Chunks(s, size)| ==> 0 < |Chunks(s, size)[j]| <= size
    ensures forall j :: 0 <= j < |Chunks(s, size)| - 1 ==> |Chunks(s, size)[j]| == size
    ensures |s| == 0 <==> |Chunks(s, size)| == 0
    decreases |s|
  {
    if |s| == 0 {
    } else if |s| <= size {
      assert Flatten([s]) == s + Flatten([s][1..]);
    } else {
      var rest := Chunks(s[size..], size);
      ChunksPartition(s[size..], size);
      var cs := [s[..size]] + rest;
      assert Chunks(s, size) == cs;
      assert cs[1..] == rest;
      assert s == s[..size] + s[size..];
      assert Flatten(cs) == s[..size] + Flatten(rest);
      forall j | 0 < j < |cs| ensures cs[j] == rest[j - 1] {
      }
    }
  }

  /** One step of the range-step loop: the chunks of `s[lo:]` are the slice at `lo` followed by the chunks after it. */
  lemma ChunksStep<T>(s: seq<T>, size: nat, lo: nat)
    requires size > 0 && lo < |s|
    ensures Chunks(s[lo..], size) == [Slice(s, lo, size)] + Chunks(s[Min(lo + size, |s|)..], size)
  {
    var t := s[lo..];
    if |t| <= size {
      assert Slice(s, lo, size) == t;
      assert s[Min(lo + size, |s|)..] == [];
    } else {
      assert t[..size] == Slice(s, lo, size);
      assert t[size..] == s[lo + size..];
    }
  }

  /** Chunk `j` is the Python slice `s[j*size : j*size+size]`, whose start lies inside `s`. */
  lemma {:induction false} ChunkAt<T>(s: seq<T>, size: nat, j: nat)
    requires size > 0 && j < |Chunks(s, size)|
    ensures j * size < |s|
    ensures Chunks(s, size)[j] == Slice(s, j * size, size)
    decreases j
  {
    if j > 0 {
      var t := s[size..];
      var jt: nat := j - 1;
      assert Chunks(s, size) == [s[..size]] + Chunks(t, size);
      ChunkAt(t, size, jt);
      var lo := jt * size;
      MulStep(jt, size);
      assert lo + size == j * size;
      SliceShift(s, size, lo, size);
    }
  }

  lemma MulStep(a: nat, b: nat)
    ensures a * b + b == (a + 1) * b
  {
  }

  lemma SliceShift<T>(s: seq<T>, d: nat, lo: nat, size: nat)
    requires d <= |s| && lo <= |s| - d
    ensures Slice(s[d..], lo, size) == Slice(s, d + lo, size)
  {
  }

  /** There are ceil(n/size) chunks: the last one starts below n and the chunks reach n. */
  lemma {:induction false} ChunkCountBounds<T>(s: seq<T>, size: nat)
    requires size > 0
    ensures (|Chunks(s, size)| - 1) * size < |s| || |s| == 0
    ensures |s| <= |Chunks(s, size)| * size
    decreases |s|
  {
    if |s| > size {
      var t := s[size..];
      ChunkCountBounds(t, size);
      var m := |Chunks(t, size)|;
      assert |Chunks(s, size)| == m + 1;
      MulStep(m, size);
      if m > 0 {
        MulStep(m - 1, size);
      }
    }
  }

  /** The loop `for i in range(0, len(items), size): chunks.append(items[i:i + size])`. */
  method ChunkSlices<T>(items: seq<T>, size: nat) returns (chunks: seq<seq<T>>)
    requires size > 0
    ensures chunks == Chunks(items, size)
  {
    chunks := [];
    var i: nat := 0;
    assert items[0..] == items;
    while i < |items|
      invariant chunks + Chunks(items[Min(i, |items|)..], size) == Chunks(items, size)
      decreases |items| - i
    {
      ChunksStep(items, size, i);
      var chunk := Slice(items, i, size);
      AppendAssoc(chunks, chunk, Chunks(items[Min(i + size, |items|)..], size));
      chunks := chunks + [chunk];
      i := i + size;
    }
    assert items[Min(i, |items|)..] == [];
  }

  /** The range-step loop's invariant: the chunks taken so far, then the chunks of what is left, are all the chunks. */
  lemma ChunksAdvance<T>(s: seq<T>, size: nat, lo: nat, done: seq<seq<T>>)
    requires size > 0 && lo < |s|
    requires done + Chunks(s[Min(lo, |s|)..], size) == Chunks(s, size)
    ensures (done + [Slice(s, lo, size)]) + Chunks(s[Min(lo + size, |s|)..], size) == Chunks(s, size)
  {
    ChunksStep(s, size, lo);
    AppendAssoc(done, Slice(s, lo, size), Chunks(s[Min(lo + size, |s|)..], size));
  }

  /**
    The same step, counting the chunks taken: after `b` chunks the loop index is
    `b*size`, and after one more it is `(b+1)*size`.
   */
  lemma ChunksCounted<T>(s: seq<T>, size: nat, lo: nat, done: seq<seq<T>>)
    requires size > 0 && lo < |s| && lo == |done| * size
    requires done + Chunks(s[Min(lo, |s|)..], size) == Chunks(s, size)
    ensures lo + size == |done + [Slice(s, lo, size)]| * size
    ensures (done + [Slice(s, lo, size)]) + Chunks(s[Min(lo + size, |s|)..], size) == Chunks(s, size)
  {
    ChunksAdvance(s, size, lo, done);
    MulStep(|done|, size);
  }

  lemma TakeSnoc<T>(s: seq<T>, i: nat)
    requires i < |s|
    ensures s[..i + 1] == s[..i] + [s[i]]
  {
  }

  lemma ConcatAssoc<T>(a: seq<T>, b: seq<T>, c: seq<T>)
    ensures (a + b) + c == a + (b + c)
  {
  }

  lemma AppendAssoc<T>(xs: seq<T>, x: T, ys: seq<T>)
    ensures xs + ([x] + ys) == (xs + [x]) + ys
  {
  }
}
