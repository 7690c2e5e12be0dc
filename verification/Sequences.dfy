/** Facts about finite sequences shared by the models. */
module Sequences {

  /** a can be obtained from b by dropping elements. */
  predicate IsSubsequence<T(==)>(a: seq<T>, b: seq<T>)
    decreases |b|
  {
    if a == [] then true
    else if b == [] then false
    else
      || (a[|a| - 1] == b[|b| - 1] && IsSubsequence(a[..|a| - 1], b[..|b| - 1]))
      || IsSubsequence(a, b[..|b| - 1])
  }

  lemma SubsequenceSnoc<T>(a: seq<T>, b: seq<T>, x: T)
    requires IsSubsequence(a, b)
    ensures IsSubsequence(a + [x], b + [x])
  {
    assert (a + [x])[..|a|] == a && (b + [x])[..|b|] == b;
  }

  lemma {:induction false} SubsequenceDropLast<T>(a: seq<T>, b: seq<T>)
    requires a != [] && IsSubsequence(a, b)
    ensures IsSubsequence(a[..|a| - 1], b)
    decreases |b|
  {
    var c := b[..|b| - 1];
    if a[|a| - 1] == b[|b| - 1] && IsSubsequence(a[..|a| - 1], c) {
    } else {
      SubsequenceDropLast(a, c);
    }
  }

  lemma {:induction false} SubsequencePrefix<T>(a: seq<T>, rest: seq<T>, b: seq<T>)
    requires IsSubsequence(a + rest, b)
    ensures IsSubsequence(a, b)
    decreases |rest|
  {
    if rest == [] {
      assert a + rest == a;
    } else {
      SubsequenceDropLast(a + rest, b);
      assert (a + rest)[..|a + rest| - 1] == a + rest[..|rest| - 1];
      SubsequencePrefix(a, rest[..|rest| - 1], b);
    }
  }
}
