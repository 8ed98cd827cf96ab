/** `max_in_list`: the running maximum of a non-empty list. */
module ListMax {
  import opened Wrappers

  /** `max_in_list`: raises on an empty list; otherwise returns an element of
      the list that no element exceeds. */
  method MaxInList(values: seq<int>) returns (r: Result<int, string>)
    ensures |values| == 0 <==> r.Err?
    ensures r.Err? ==> r.error == "list must not be empty"
    ensures r.Ok? ==> r.value in values
    ensures r.Ok? ==> forall j :: 0 <= j < |values| ==> values[j] <= r.value
    ensures |values| == 1 ==> r == Ok(values[0])
  {
    if |values| == 0 {
      return Err("list must not be empty");
    }
    var currentMax := values[0];
    for i := 1 to |values|
      invariant currentMax in values[..i]
      invariant forall j :: 0 <= j < i ==> values[j] <= currentMax
    {
      if values[i] > currentMax {
        currentMax := values[i];
      }
    }
    return Ok(currentMax);
  }
}
