/** `count_occurrences`: how many elements of a list equal the target. */
module Counting {

  /** Occurrences of `target` in `values`, counted from the front. */
  function Occurrences<T(==)>(values: seq<T>, target: T): nat
  {
    if values == [] then 0
    else (if values[0] == target then 1 else 0) + Occurrences(values[1..], target)
  }

  /** The count is the multiplicity of `target` in the multiset of values. */
  lemma {:induction false} OccurrencesIsMultiplicity<T>(values: seq<T>, target: T)
    ensures Occurrences(values, target) == multiset(values)[target]
  {
    if values != [] {
      OccurrencesIsMultiplicity(values[1..], target);
      assert values == [values[0]] + values[1..];
    }
  }

  /** Counts over a concatenation add up. */
  lemma {:induction false} OccurrencesAppend<T>(s: seq<T>, t: seq<T>, target: T)
    ensures Occurrences(s + t, target) == Occurrences(s, target) + Occurrences(t, target)
  {
    if s != [] {
      assert (s + t)[0] == s[0] && (s + t)[1..] == s[1..] + t;
      OccurrencesAppend(s[1..], t, target);
    } else {
      assert s + t == t;
    }
  }

  /** The count never exceeds the length, and is zero when the target is absent. */
  lemma {:induction false} OccurrencesBounds<T>(values: seq<T>, target: T)
    ensures Occurrences(values, target) <= |values|
    ensures target !in values ==> Occurrences(values, target) == 0
    ensures target in values ==> Occurrences(values, target) > 0
  {
    if values != [] {
      OccurrencesBounds(values[1..], target);
      assert target in values ==> values[0] == target || target in values[1..];
    }
  }

  /** `count_occurrences`: the loop adds one per element equal to the target. */
  method CountOccurrences<T(==)>(values: seq<T>, target: T) returns (count: nat)
    ensures count == Occurrences(values, target)
    ensures count == multiset(values)[target]
    ensures count <= |values|
    ensures count == 0 <==> target !in values
  {
    count := 0;
    for i := 0 to |values|
      invariant count == multiset(values[..i])[target]
    {
      assert values[..i + 1] == values[..i] + [values[i]];
      if values[i] == target {
        count := count + 1;
      }
    }
    assert values[..|values|] == values;
    OccurrencesIsMultiplicity(values, target);
  }
}
