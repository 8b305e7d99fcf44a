/** Order-preserving filter-and-project over sequences: the shape of every
    "for x in xs: if keep(x): out.append(f(x))" loop in the services. */
module Seqs {

  /** The images under `f` of the elements of `xs` that `keep` accepts, in
      order. */
  function Select<T, U>(xs: seq<T>, keep: T -> bool, f: T -> U): (r: seq<U>)
    ensures |r| <= |xs|
    decreases |xs|
  {
    if xs == [] then []
    else
      var x := xs[|xs| - 1];
      Select(xs[..|xs| - 1], keep, f) + (if keep(x) then [f(x)] else [])
  }

  /** One more element handled by the loop. */
  lemma SelectStep<T, U>(xs: seq<T>, i: nat, keep: T -> bool, f: T -> U)
    requires i < |xs|
    ensures Select(xs[..i + 1], keep, f) ==
      Select(xs[..i], keep, f) + (if keep(xs[i]) then [f(xs[i])] else [])
  {
    assert xs[..i + 1][..i] == xs[..i];
  }

  /** An element is selected iff it is the image of an accepted element. */
  lemma {:induction false} SelectMembers<T, U>(xs: seq<T>, keep: T -> bool, f: T -> U)
    ensures forall y :: y in Select(xs, keep, f) <==>
      exists i :: 0 <= i < |xs| && keep(xs[i]) && f(xs[i]) == y
    decreases |xs|
  {
    if xs != [] {
      var init := xs[..|xs| - 1];
      SelectMembers(init, keep, f);
      forall i | 0 <= i < |init| ensures init[i] == xs[i] { }
    }
  }

  /** Nothing is selected iff no element is accepted. */
  lemma {:induction false} SelectEmpty<T, U>(xs: seq<T>, keep: T -> bool, f: T -> U)
    ensures Select(xs, keep, f) == [] <==> forall i :: 0 <= i < |xs| ==> !keep(xs[i])
    decreases |xs|
  {
    if xs != [] {
      var init := xs[..|xs| - 1];
      SelectEmpty(init, keep, f);
      forall i | 0 <= i < |init| ensures init[i] == xs[i] { }
    }
  }

  /** When every element is accepted, every element is kept. */
  lemma {:induction false} SelectAll<T, U>(xs: seq<T>, keep: T -> bool, f: T -> U)
    requires forall i :: 0 <= i < |xs| ==> keep(xs[i])
    ensures Select(xs, keep, f) == MapSeq(xs, f)
    decreases |xs|
  {
    if xs != [] {
      var init := xs[..|xs| - 1];
      SelectAll(init, keep, f);
      assert MapSeq(xs, f) == MapSeq(init, f) + [f(xs[|xs| - 1])];
    }
  }

  function MapSeq<T, U>(xs: seq<T>, f: T -> U): (r: seq<U>)
    ensures |r| == |xs|
  {
    seq(|xs|, i requires 0 <= i < |xs| => f(xs[i]))
  }

  /** What `keep` accepts and what `reject` (its negation) accepts split the
      images between them. */
  lemma {:induction false} SelectSplit<T, U>(xs: seq<T>, keep: T -> bool, reject: T -> bool, f: T -> U)
    requires forall x :: reject(x) == !keep(x)
    ensures |Select(xs, keep, f)| + |Select(xs, reject, f)| == |xs|
    ensures multiset(Select(xs, keep, f)) + multiset(Select(xs, reject, f)) == multiset(MapSeq(xs, f))
    decreases |xs|
  {
    if xs != [] {
      var init := xs[..|xs| - 1];
      SelectSplit(init, keep, reject, f);
      assert MapSeq(xs, f) == MapSeq(init, f) + [f(xs[|xs| - 1])];
    }
  }

  /** The sum of `f` over `xs`. */
  function SumMap<T>(xs: seq<T>, f: T -> nat): nat
    decreases |xs|
  {
    if xs == [] then 0 else SumMap(xs[..|xs| - 1], f) + f(xs[|xs| - 1])
  }

  /** One more element added to a running sum. */
  lemma SumMapStep<T>(xs: seq<T>, i: nat, f: T -> nat)
    requires i < |xs|
    ensures SumMap(xs[..i + 1], f) == SumMap(xs[..i], f) + f(xs[i])
  {
    assert xs[..i + 1][..i] == xs[..i];
  }

  /** A sum of terms bounded by `b` is at most `b` times their number. */
  lemma {:induction false} SumMapBound<T>(xs: seq<T>, f: T -> nat, b: nat)
    requires forall i :: 0 <= i < |xs| ==> f(xs[i]) <= b
    ensures SumMap(xs, f) <= b * |xs|
    decreases |xs|
  {
    if xs != [] {
      var init := xs[..|xs| - 1];
      forall i | 0 <= i < |init| ensures f(init[i]) <= b {
        assert init[i] == xs[i];
      }
      SumMapBound(init, f, b);
      assert b * |xs| == b * |init| + b;
    }
  }

  /** How many elements of `xs` satisfy `p`. */
  function Count<T>(xs: seq<T>, p: T -> bool): (n: nat)
    ensures n <= |xs|
    decreases |xs|
  {
    if xs == [] then 0 else Count(xs[..|xs| - 1], p) + (if p(xs[|xs| - 1]) then 1 else 0)
  }

  /** One more element looked at by a counting loop. */
  lemma CountStep<T>(xs: seq<T>, i: nat, p: T -> bool)
    requires i < |xs|
    ensures Count(xs[..i + 1], p) == Count(xs[..i], p) + (if p(xs[i]) then 1 else 0)
  {
    assert xs[..i + 1][..i] == xs[..i];
  }

  /** The count is zero iff no element satisfies `p`. */
  lemma {:induction false} CountZero<T>(xs: seq<T>, p: T -> bool)
    ensures Count(xs, p) == 0 <==> forall i :: 0 <= i < |xs| ==> !p(xs[i])
    decreases |xs|
  {
    if xs != [] {
      var init := xs[..|xs| - 1];
      CountZero(init, p);
      forall i | 0 <= i < |init| ensures init[i] == xs[i] { }
    }
  }
  /** `idx` picks the elements of `a` out of `b`, in increasing positions. */
  ghost predicate Embeds<T>(idx: seq<nat>, a: seq<T>, b: seq<T>) {
    && |idx| == |a|
    && (forall k :: 0 <= k < |idx| ==> idx[k] < |b| && a[k] == b[idx[k]])
    && (forall k, l :: 0 <= k < l < |idx| ==> idx[k] < idx[l])
  }

  /** `a` is `b` with some elements left out, the rest kept in order. */
  ghost predicate SubsequenceOf<T>(a: seq<T>, b: seq<T>) {
    exists idx :: Embeds(idx, a, b)
  }

  /** An embedding into `b` is one into any extension of `b`. */
  lemma EmbedsWiden<T>(idx: seq<nat>, a: seq<T>, b: seq<T>, y: T)
    requires Embeds(idx, a, b)
    ensures Embeds(idx, a, b + [y])
  {
  }

  /** Appending the same element to both sides extends an embedding. */
  lemma EmbedsAppend<T>(idx: seq<nat>, a: seq<T>, b: seq<T>, y: T)
    requires Embeds(idx, a, b)
    ensures Embeds(idx + [|b|], a + [y], b + [y])
  {
  }

  /** The positions of the elements `keep` accepts, in order. */
  function SelectIndices<T>(xs: seq<T>, keep: T -> bool): seq<nat>
    decreases |xs|
  {
    if xs == [] then []
    else SelectIndices(xs[..|xs| - 1], keep) + (if keep(xs[|xs| - 1]) then [|xs| - 1] else [])
  }

  /** The selected images sit at the selected positions of all images. */
  lemma {:induction false} SelectEmbeds<T, U>(xs: seq<T>, keep: T -> bool, f: T -> U)
    ensures Embeds(SelectIndices(xs, keep), Select(xs, keep, f), MapSeq(xs, f))
    decreases |xs|
  {
    if xs != [] {
      var init := xs[..|xs| - 1];
      var last := xs[|xs| - 1];
      SelectEmbeds(init, keep, f);
      assert MapSeq(xs, f) == MapSeq(init, f) + [f(last)];
      if keep(last) {
        EmbedsAppend(SelectIndices(init, keep), Select(init, keep, f), MapSeq(init, f), f(last));
      } else {
        EmbedsWiden(SelectIndices(init, keep), Select(init, keep, f), MapSeq(init, f), f(last));
      }
    }
  }

  /** Selecting keeps the images in their original order. */
  lemma SelectSubsequence<T, U>(xs: seq<T>, keep: T -> bool, f: T -> U)
    ensures SubsequenceOf(Select(xs, keep, f), MapSeq(xs, f))
  {
    SelectEmbeds(xs, keep, f);
  }

  /** The images under `f` of blocks 0 .. n-1, one block after the other. */
  function ConcatMap<T, U>(blocks: nat -> seq<T>, n: nat, f: T -> U): seq<U>
    decreases n
  {
    if n == 0 then [] else ConcatMap(blocks, n - 1, f) + MapSeq(blocks(n - 1), f)
  }

  /** The total length of blocks 0 .. n-1. */
  function BlockLengths<T>(blocks: nat -> seq<T>, n: nat): nat
    decreases n
  {
    if n == 0 then 0 else BlockLengths(blocks, n - 1) + |blocks(n - 1)|
  }

  /** An element is in the concatenation iff it is the image of an element
      of one of the blocks; the length is the blocks' total length. */
  lemma {:induction false} ConcatMapMembers<T, U>(blocks: nat -> seq<T>, n: nat, f: T -> U)
    ensures forall y :: y in ConcatMap(blocks, n, f) <==>
      exists i, x :: 0 <= i < n && x in blocks(i) && f(x) == y
    ensures |ConcatMap(blocks, n, f)| == BlockLengths(blocks, n)
    decreases n
  {
    if n > 0 {
      ConcatMapMembers(blocks, n - 1, f);
      var last := blocks(n - 1);
      forall y | y in MapSeq(last, f)
        ensures exists x :: x in last && f(x) == y
      {
        var k :| 0 <= k < |last| && MapSeq(last, f)[k] == y;
        assert last[k] in last;
      }
      forall x | x in last ensures f(x) in MapSeq(last, f) {
        var k :| 0 <= k < |last| && last[k] == x;
        assert MapSeq(last, f)[k] == f(x);
      }
    }
  }
}
