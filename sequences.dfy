/** Order-preserving selection over sequences: the `push` inside an `if` of a `for` loop. */
module Sequences {

  /** The elements of `xs` whose tag is `want`, in their original order, duplicates kept. */
  function Keep<T, L(==)>(xs: seq<T>, tag: T -> L, want: L): (r: seq<T>)
    ensures |r| <= |xs|
  {
    if xs == [] then []
    else
      var init, last := xs[..|xs| - 1], xs[|xs| - 1];
      assert xs == init + [last];
      Keep(init, tag, want) + (if tag(last) == want then [last] else [])
  }

  /** An element is selected exactly when it occurs in the input with the wanted label. */
  lemma {:induction false} KeepMembers<T, L>(xs: seq<T>, tag: T -> L, want: L, x: T)
    ensures x in Keep(xs, tag, want) <==> x in xs && tag(x) == want
  {
    if xs != [] {
      var init, last := xs[..|xs| - 1], xs[|xs| - 1];
      assert xs == init + [last];
      KeepMembers(init, tag, want, x);
    }
  }

  /** One more input element: it is appended to the selection exactly when its label is the wanted one. */
  lemma KeepSnoc<T, L>(xs: seq<T>, x: T, tag: T -> L, want: L)
    ensures Keep(xs + [x], tag, want) == Keep(xs, tag, want) + (if tag(x) == want then [x] else [])
  {
    assert (xs + [x])[..|xs|] == xs;
  }

  /** Selection keeps every element with the wanted tag as often as it occurs, and no other. */
  lemma {:induction false} KeepCount<T, L>(xs: seq<T>, tag: T -> L, want: L, x: T)
    ensures multiset(Keep(xs, tag, want))[x] == if tag(x) == want then multiset(xs)[x] else 0
  {
    if xs != [] {
      var init, last := xs[..|xs| - 1], xs[|xs| - 1];
      assert xs == init + [last];
      KeepCount(init, tag, want, x);
    }
  }

  /** When every element carries the wanted tag, nothing is dropped. */
  lemma {:induction false} KeepAll<T, L>(xs: seq<T>, tag: T -> L, want: L)
    requires forall i :: 0 <= i < |xs| ==> tag(xs[i]) == want
    ensures Keep(xs, tag, want) == xs
  {
    if xs != [] {
      var init, last := xs[..|xs| - 1], xs[|xs| - 1];
      assert xs == init + [last];
      KeepAll(init, tag, want);
    }
  }

  /** When no element carries the wanted tag, the selection is empty. */
  lemma {:induction false} KeepNone<T, L>(xs: seq<T>, tag: T -> L, want: L)
    requires forall i :: 0 <= i < |xs| ==> tag(xs[i]) != want
    ensures Keep(xs, tag, want) == []
  {
    if xs != [] {
      KeepNone(xs[..|xs| - 1], tag, want);
    }
  }

  /** A two-way split by a boolean tag is a partition of the input, multiplicities included. */
  lemma {:induction false} SplitTwoWays<T>(xs: seq<T>, tag: T -> bool)
    ensures multiset(Keep(xs, tag, true)) + multiset(Keep(xs, tag, false)) == multiset(xs)
  {
    if xs != [] {
      var init, last := xs[..|xs| - 1], xs[|xs| - 1];
      assert xs == init + [last];
      SplitTwoWays(init, tag);
      assert multiset(xs) == multiset(init) + multiset{last};
      if tag(last) {
        assert Keep(xs, tag, true) == Keep(init, tag, true) + [last];
        assert Keep(xs, tag, false) == Keep(init, tag, false);
      } else {
        assert Keep(xs, tag, true) == Keep(init, tag, true);
        assert Keep(xs, tag, false) == Keep(init, tag, false) + [last];
      }
    }
  }

  /**
   * The elements of `xs` whose flag in the parallel sequence `flags` is `want`, in their
   * original order: the two complementary picks together hold the same elements as `xs`.
   */
  function Pick<T>(xs: seq<T>, flags: seq<bool>, want: bool): (r: seq<T>)
    requires |flags| == |xs|
    ensures |r| <= |xs|
  {
    if xs == [] then []
    else Pick(xs[..|xs| - 1], flags[..|xs| - 1], want) + (if flags[|xs| - 1] == want then [xs[|xs| - 1]] else [])
  }

  /** Two complementary picks together hold every element exactly as often as `xs` does. */
  lemma {:induction false} PickSplit<T>(xs: seq<T>, flags: seq<bool>)
    requires |flags| == |xs|
    ensures multiset(Pick(xs, flags, true)) + multiset(Pick(xs, flags, false)) == multiset(xs)
  {
    if xs != [] {
      PickSplit(xs[..|xs| - 1], flags[..|xs| - 1]);
      MultisetSnoc(xs);
    }
  }

  /** Concatenation is associative. */
  lemma AppendAssoc<T>(a: seq<T>, b: seq<T>, c: seq<T>)
    ensures a + (b + c) == (a + b) + c
  {
  }

  /** Peeling off the last element splits the multiset of a non-empty sequence. */
  lemma MultisetSnoc<T>(xs: seq<T>)
    requires xs != []
    ensures multiset(xs) == multiset(xs[..|xs| - 1]) + multiset{xs[|xs| - 1]}
  {
    assert xs == xs[..|xs| - 1] + [xs[|xs| - 1]];
  }

  /** The element-wise image of a sequence. */
  function MapSeq<T, U>(xs: seq<T>, f: T -> U): (r: seq<U>)
    ensures |r| == |xs| && forall i :: 0 <= i < |xs| ==> r[i] == f(xs[i])
  {
    seq(|xs|, i requires 0 <= i < |xs| => f(xs[i]))
  }

  /** The image of a non-empty sequence is the image of its prefix followed by the image of its last element. */
  lemma MapSeqSnoc<T, U>(xs: seq<T>, f: T -> U)
    requires xs != []
    ensures MapSeq(xs, f) == MapSeq(xs[..|xs| - 1], f) + [f(xs[|xs| - 1])]
  {
  }
}
