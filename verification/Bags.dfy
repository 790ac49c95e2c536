/** Parts of bags that come from sequences. */
module Bags {

  /** An occurrence of an element, as a decomposition. */
  lemma Pick<T>(items: seq<T>, x: T) returns (before: seq<T>, after: seq<T>)
    requires x in items
    ensures items == before + [x] + after
  {
    var i :| 0 <= i < |items| && items[i] == x;
    before, after := items[..i], items[i + 1..];
  }

  /** Taking the same element out of a bag and out of one that it is a part of. */
  lemma LessOne<T>(a: seq<T>, x: T, rest: seq<T>, b: seq<T>, before: seq<T>, after: seq<T>)
    requires a == [x] + rest && b == before + [x] + after && multiset(a) <= multiset(b)
    ensures multiset(rest) <= multiset(before + after)
  {
    assert multiset(a) == multiset{x} + multiset(rest);
    assert multiset(before + [x]) == multiset(before) + multiset{x};
    assert multiset(b) == multiset(before + [x]) + multiset(after);
    assert multiset(before + after) == multiset(before) + multiset(after);
    forall y ensures multiset(rest)[y] <= multiset(before + after)[y] {
      assert multiset(a)[y] <= multiset(b)[y];
    }
  }
}
