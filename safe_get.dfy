/** `safe_get`: indexing that returns a default instead of raising. The fixed
    version follows Python's negative indices; the buggy one rejects them. */
module SafeIndex {

  /** The fixed `safe_get`: any index in [-len, len) selects an element, a
      negative one counting from the end; any other index gives `default`. */
  function SafeGet<T>(lst: seq<T>, index: int, default: T): (r: T)
    ensures -|lst| <= index < |lst| ==> r == lst[index % |lst|]
    ensures !(-|lst| <= index < |lst|) ==> r == default
  {
    if -|lst| <= index < |lst| then
      if index >= 0 then lst[index] else lst[|lst| + index]
    else default
  }

  /** The buggy `safe_get`: only indices in [0, len) select an element. */
  function SafeGetBuggy<T>(lst: seq<T>, index: int, default: T): (r: T)
    ensures 0 <= index < |lst| ==> r == lst[index]
    ensures index < 0 || index >= |lst| ==> r == default
  {
    if index < 0 || index >= |lst| then default else lst[index]
  }

  /** On a non-empty list, index -1 is the last element. */
  lemma LastElement<T>(lst: seq<T>, default: T)
    requires |lst| > 0
    ensures SafeGet(lst, -1, default) == lst[|lst| - 1]
  {
  }

  /** An empty list always gives the default. */
  lemma EmptyGivesDefault<T>(index: int, default: T)
    ensures SafeGet([], index, default) == default
    ensures SafeGetBuggy([], index, default) == default
  {
  }

  /** The two versions agree on every non-negative index; on [-len, 0) the
      buggy one gives `default` where the fixed one gives an element. */
  lemma BuggyVersusFixed<T>(lst: seq<T>, index: int, default: T)
    ensures index >= 0 ==> SafeGetBuggy(lst, index, default) == SafeGet(lst, index, default)
    ensures -|lst| <= index < 0 ==>
      SafeGetBuggy(lst, index, default) == default &&
      SafeGet(lst, index, default) == lst[|lst| + index]
  {
  }
}
