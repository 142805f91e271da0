/** Order-preserving selections from a sequence. */
module Sequences {
  /** a can be obtained from b by leaving out elements. */
  predicate IsSubsequence<T(==)>(a: seq<T>, b: seq<T>)
    decreases |b|
  {
    || a == []
    || (b != [] && a[0] == b[0] && IsSubsequence(a[1..], b[1..]))
    || (b != [] && IsSubsequence(a, b[1..]))
  }

  /** Leaving out more elements in front. */
  lemma {:induction false} SubsequenceOfTail<T>(a: seq<T>, b: seq<T>, n: nat)
    requires n <= |b| && IsSubsequence(a, b[n..])
    ensures IsSubsequence(a, b)
    decreases n
  {
    if n == 0 {
      assert b[0..] == b;
    } else {
      assert b[1..][n - 1..] == b[n..];
      SubsequenceOfTail(a, b[1..], n - 1);
    }
  }

  /** One more element at the end, left out or taken. */
  lemma {:induction false} LongerSubsequence<T>(a: seq<T>, b: seq<T>, x: T)
    requires IsSubsequence(a, b)
    ensures IsSubsequence(a, b + [x]) && IsSubsequence(a + [x], b + [x])
    decreases |b|
  {
    if a == [] {
      assert (b + [x])[|b|..] == [x] && a + [x] == [x];
      assert IsSubsequence([x][1..], [x][1..]);
      SubsequenceOfTail([x], b + [x], |b|);
    } else {
      assert (b + [x])[1..] == b[1..] + [x] && (a + [x])[1..] == a[1..] + [x];
      if a[0] == b[0] && IsSubsequence(a[1..], b[1..]) {
        LongerSubsequence(a[1..], b[1..], x);
      } else {
        LongerSubsequence(a, b[1..], x);
      }
    }
  }
}
