/** Small value types and facts shared by every module. */
module Base {
  datatype Option<+T> = None | Some(value: T)

  /** A list without repetition is no longer than a set that contains it. */
  lemma {:induction false} DistinctBound<T>(xs: seq<T>, s: set<T>)
    requires forall i, j :: 0 <= i < j < |xs| ==> xs[i] != xs[j]
    requires forall x :: x in xs ==> x in s
    ensures |xs| <= |s|
  {
    if xs != [] {
      var last := xs[|xs| - 1];
      DistinctBound(xs[..|xs| - 1], s - {last});
    }
  }

  predicate Int64(x: int) { -0x8000_0000_0000_0000 <= x < 0x8000_0000_0000_0000 }

  /** 64-bit wrap-around. */
  function Wrap(x: int): int { (x + 0x8000_0000_0000_0000) % 0x1_0000_0000_0000_0000 - 0x8000_0000_0000_0000 }

  lemma WrapIsInt64(x: int)
    ensures Int64(Wrap(x)) && (Int64(x) <==> Wrap(x) == x)
  {
  }

  /** Wrapping on the way does not change the wrapped sum. */
  lemma WrapSum(a: int, b: int)
    ensures Wrap(Wrap(a) + b) == Wrap(a + b)
  {
  }
}
