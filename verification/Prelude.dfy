/** Option and Result types, and the subsequence relation used for event logs and artifact tables. */
module Prelude {
  datatype Option<+T> = None | Some(value: T)

  datatype Result<+T, +E> = Ok(value: T) | Err(error: E)

  /** `a` can be obtained from `b` by leaving elements out. */
  predicate Subseq<T(==)>(a: seq<T>, b: seq<T>)
    decreases |b|
  {
    a == [] ||
    (b != [] &&
     (Subseq(a, b[..|b| - 1]) ||
      (a[|a| - 1] == b[|b| - 1] && Subseq(a[..|a| - 1], b[..|b| - 1]))))
  }

  lemma SubseqSkip<T>(a: seq<T>, b: seq<T>, x: T)
    requires Subseq(a, b)
    ensures Subseq(a, b + [x])
  {
    assert (b + [x])[..|b|] == b;
  }

  lemma SubseqTake<T>(a: seq<T>, b: seq<T>, x: T)
    requires Subseq(a, b)
    ensures Subseq(a + [x], b + [x])
  {
    assert (b + [x])[..|b|] == b;
    assert (a + [x])[..|a|] == a;
  }

  lemma {:induction false} SubseqTail<T>(a: seq<T>, b: seq<T>)
    requires Subseq(a, b) && a != []
    ensures Subseq(a[1..], b)
    decreases |b|
  {
    var b0, a0 := b[..|b| - 1], a[..|a| - 1];
    if Subseq(a, b0) {
      SubseqTail(a, b0);
    } else if |a| > 1 {
      SubseqTail(a0, b0);
      assert a[1..][..|a| - 2] == a0[1..];
    }
  }

  lemma {:induction false} SubseqMembers<T>(a: seq<T>, b: seq<T>)
    requires Subseq(a, b)
    ensures |a| <= |b|
    ensures forall x :: x in a ==> x in b
    decreases |b|
  {
    if a != [] {
      var b0 := b[..|b| - 1];
      if Subseq(a, b0) {
        SubseqMembers(a, b0);
      } else {
        SubseqMembers(a[..|a| - 1], b0);
        assert a == a[..|a| - 1] + [a[|a| - 1]];
      }
      assert b == b0 + [b[|b| - 1]];
    }
  }

  /** An element that occurs in `b` only at the end occurs in a subsequence only at the end. */
  lemma SubseqLast<T>(a: seq<T>, b: seq<T>, i: nat)
    requires Subseq(a, b) && b != [] && i < |a|
    requires a[i] !in b[..|b| - 1]
    ensures i == |a| - 1
  {
    var b0 := b[..|b| - 1];
    if Subseq(a, b0) {
      SubseqMembers(a, b0);
    } else {
      SubseqMembers(a[..|a| - 1], b0);
    }
  }
}
