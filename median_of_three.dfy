/** `median_of_three`: the fixed version sorts the three values with three
    compare-and-swap steps and returns the middle one; the buggy version
    stops after two steps and returns the last one, which is the maximum. */
module Medians {

  function Ind(b: bool): nat
  {
    if b then 1 else 0
  }

  /** `m` is one of a, b, c with at least two of them <= m and at least two >= m. */
  predicate IsMedian(m: int, a: int, b: int, c: int)
  {
    (m == a || m == b || m == c) &&
    Ind(a <= m) + Ind(b <= m) + Ind(c <= m) >= 2 &&
    Ind(a >= m) + Ind(b >= m) + Ind(c >= m) >= 2
  }

  /** Three values have exactly one median. */
  lemma MedianUnique(m1: int, m2: int, a: int, b: int, c: int)
    requires IsMedian(m1, a, b, c) && IsMedian(m2, a, b, c)
    ensures m1 == m2
  {
  }

  /** The median, by cases. */
  function Median(a: int, b: int, c: int): (m: int)
    ensures IsMedian(m, a, b, c)
  {
    if a <= b then (if b <= c then b else if a <= c then c else a)
    else (if a <= c then a else if b <= c then c else b)
  }

  /** The median does not depend on the order of the arguments. */
  lemma MedianSymmetric(a: int, b: int, c: int)
    ensures Median(a, b, c) == Median(b, a, c) == Median(a, c, b)
    ensures Median(a, b, c) == Median(c, b, a) == Median(b, c, a) == Median(c, a, b)
  {
  }

  /** Of a repeated value and another, the repeated value is the median. */
  lemma MedianOfPair(x: int, y: int)
    ensures Median(x, x, y) == x
  {
  }

  /** The fixed `median_of_three`: after the three swaps the locals are
      sorted and are a permutation of the arguments, so `b` is the median. */
  method MedianOfThree(a: int, b: int, c: int) returns (r: int)
    ensures IsMedian(r, a, b, c)
    ensures r == Median(a, b, c)
  {
    var x, y, z := a, b, c;
    if x > y {
      x, y := y, x;
    }
    if y > z {
      y, z := z, y;
    }
    if x > y {
      x, y := y, x;
    }
    assert x <= y <= z;
    assert multiset{x, y, z} == multiset{a, b, c};
    r := y;
    MedianUnique(r, Median(a, b, c), a, b, c);
  }

  /** The buggy `median_of_three`: after two swaps the last local is the
      largest of the three, and that is what it returns. */
  method MedianOfThreeBuggy(a: int, b: int, c: int) returns (r: int)
    ensures r == a || r == b || r == c
    ensures r >= a && r >= b && r >= c
  {
    var x, y, z := a, b, c;
    if x > y {
      x, y := y, x;
    }
    if y > z {
      y, z := z, y;
    }
    assert z >= y && z >= x;
    r := z;
  }

  /** The buggy result, the maximum, differs from the median exactly when the
      largest value is strictly greater than the middle one; (1, 2, 3) shows it. */
  lemma MaximumIsNotMedian(a: int, b: int, c: int, r: int)
    requires r == a || r == b || r == c
    requires r >= a && r >= b && r >= c
    ensures r != Median(a, b, c) <==> r > Median(a, b, c)
    ensures r == Median(a, b, c) <==> Ind(a == r) + Ind(b == r) + Ind(c == r) >= 2
  {
  }

  /** The arguments (1, 2, 3): the buggy version's maximum is 3, the median 2. */
  lemma MedianCounterexample(r: int)
    requires r == 1 || r == 2 || r == 3
    requires r >= 1 && r >= 2 && r >= 3
    ensures r == 3 && Median(1, 2, 3) == 2
  {
  }
}
