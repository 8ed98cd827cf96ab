/** `remove_duplicates`: a new list holding each element once, at its first
    occurrence, in the original order. */
module Dedup {

  /** No element occurs twice. */
  ghost predicate NoDuplicates(s: seq<int>)
  {
    forall i, j :: 0 <= i < j < |s| ==> s[i] != s[j]
  }

  /** The elements of `items` at their first occurrences, in order. */
  function FirstOccurrences(items: seq<int>): (r: seq<int>)
    ensures forall i :: 0 <= i < |r| ==> r[i] in items
    ensures forall i :: 0 <= i < |items| ==> items[i] in r
    ensures |r| <= |items|
  {
    if items == [] then []
    else
      var kept := FirstOccurrences(items[..|items| - 1]);
      var x := items[|items| - 1];
      assert items == items[..|items| - 1] + [x];
      if x in kept then kept else kept + [x]
  }

  /** The position of the first occurrence of `x` in `s`. */
  function FirstIndex(s: seq<int>, x: int): (k: nat)
    requires x in s
    ensures k < |s| && s[k] == x && x !in s[..k]
  {
    if s[0] == x then 0 else 1 + FirstIndex(s[1..], x)
  }

  /** No element is kept twice. */
  lemma {:induction false} FirstOccurrencesFacts(items: seq<int>)
    ensures NoDuplicates(FirstOccurrences(items))
  {
    if items != [] {
      var front := items[..|items| - 1];
      FirstOccurrencesFacts(front);
      assert items == front + [items[|items| - 1]];
    }
  }

  /** Elements keep the order of their first occurrences in `items`. */
  lemma {:induction false} FirstOccurrencesOrdered(items: seq<int>)
    ensures forall i, j :: 0 <= i < j < |FirstOccurrences(items)| ==>
      FirstIndex(items, FirstOccurrences(items)[i]) < FirstIndex(items, FirstOccurrences(items)[j])
  {
    if items != [] {
      var front := items[..|items| - 1];
      var x := items[|items| - 1];
      assert items == front + [x];
      var kept := FirstOccurrences(front);
      var r := FirstOccurrences(items);
      FirstOccurrencesOrdered(front);
      forall i, j | 0 <= i < j < |r|
        ensures FirstIndex(items, r[i]) < FirstIndex(items, r[j])
      {
        assert r[i] == kept[i];
        FirstIndexAppend(front, [x], r[i]);
        if j < |kept| {
          assert r[j] == kept[j];
          FirstIndexAppend(front, [x], r[j]);
        } else {
          assert r[j] == x && x !in front;
          FirstIndexNew(front, x);
        }
      }
    }
  }

  /** An element new to `front` first occurs at the end of `front + [y]`. */
  lemma FirstIndexNew(front: seq<int>, y: int)
    requires y !in front
    ensures FirstIndex(front + [y], y) == |front|
  {
  }

  lemma {:induction false} FirstIndexAppend(s: seq<int>, t: seq<int>, x: int)
    requires x in s
    ensures FirstIndex(s + t, x) == FirstIndex(s, x)
  {
    if s[0] != x {
      assert (s + t)[1..] == s[1..] + t;
      FirstIndexAppend(s[1..], t, x);
    }
  }

  /** Removing duplicates twice is removing them once. */
  lemma {:induction false} FirstOccurrencesIdempotent(items: seq<int>)
    ensures FirstOccurrences(FirstOccurrences(items)) == FirstOccurrences(items)
  {
    FirstOccurrencesFacts(items);
    NoDuplicatesFixed(FirstOccurrences(items));
  }

  /** A list without duplicates is left as it is. */
  lemma {:induction false} NoDuplicatesFixed(s: seq<int>)
    requires NoDuplicates(s)
    ensures FirstOccurrences(s) == s
  {
    if s != [] {
      var front := s[..|s| - 1];
      NoDuplicatesFixed(front);
      assert s == front + [s[|s| - 1]];
    }
  }

  /** `remove_duplicates`: `seen` and `result` grow together; an element is
      appended only when it has not been seen. */
  method RemoveDuplicates(items: seq<int>) returns (result: seq<int>)
    ensures result == FirstOccurrences(items)
    ensures NoDuplicates(result)
    ensures forall x :: x in result <==> x in items
    ensures |result| <= |items|
  {
    var seen: seq<int> := [];
    result := [];
    for i := 0 to |items|
      invariant seen == result
      invariant result == FirstOccurrences(items[..i])
    {
      var x := items[i];
      assert items[..i + 1][..i] == items[..i];
      if x !in seen {
        seen := seen + [x];
        result := result + [x];
      }
    }
    assert items[..|items|] == items;
    FirstOccurrencesFacts(items);
  }
}
