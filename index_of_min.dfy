/** `index_of_min`: the index of the first minimum of a non-empty list. */
module ListMin {
  import opened Wrappers

  /** `k` is the first index holding the least value of `values`. */
  ghost predicate IsFirstMinIndex(values: seq<int>, k: int)
  {
    0 <= k < |values| &&
    (forall j :: 0 <= j < |values| ==> values[k] <= values[j]) &&
    (forall j :: 0 <= j < k ==> values[j] > values[k])
  }

  /** `index_of_min`: raises on an empty list; otherwise the scan replaces the
      candidate only on a strictly smaller value, so the first minimum wins. */
  method IndexOfMin(values: seq<int>) returns (r: Result<nat, string>)
    ensures |values| == 0 <==> r.Err?
    ensures r.Err? ==> r.error == "list must not be empty"
    ensures r.Ok? ==> r.value < |values|
    ensures r.Ok? ==> forall j :: 0 <= j < |values| ==> values[r.value] <= values[j]
    ensures r.Ok? ==> forall j :: 0 <= j < r.value ==> values[j] > values[r.value]
  {
    if |values| == 0 {
      return Err("list must not be empty");
    }
    var minIndex := 0;
    for i := 1 to |values|
      invariant minIndex < i
      invariant forall j :: 0 <= j < i ==> values[minIndex] <= values[j]
      invariant forall j :: 0 <= j < minIndex ==> values[j] > values[minIndex]
    {
      if values[i] < values[minIndex] {
        minIndex := i;
      }
    }
    return Ok(minIndex);
  }

  /** At most one index is the first minimum, so the result is determined. */
  lemma FirstMinIndexUnique(values: seq<int>, k1: int, k2: int)
    requires IsFirstMinIndex(values, k1) && IsFirstMinIndex(values, k2)
    ensures k1 == k2
  {
    assert values[k1] <= values[k2] && values[k2] <= values[k1];
  }
}
