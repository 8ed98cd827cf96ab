/** `sum_first_n`: the sum of the first `n` elements, or of the whole list
    when it is shorter. */
module PrefixSum {
  import opened Wrappers

  function Sum(s: seq<int>): int
  {
    if s == [] then 0 else Sum(s[..|s| - 1]) + s[|s| - 1]
  }

  function Min(x: int, y: int): int
  {
    if x <= y then x else y
  }

  /** What `sum_first_n(nums, n)` returns for `n >= 0`. */
  function SumFirst(nums: seq<int>, n: nat): int
  {
    Sum(nums[..Min(n, |nums|)])
  }

  /** `sum_first_n`: raises for a negative `n`; otherwise adds elements in
      index order and stops at `n` or at the end of the list. */
  method SumFirstN(nums: seq<int>, n: int) returns (r: Result<int, string>)
    ensures n < 0 <==> r.Err?
    ensures r.Err? ==> r.error == "n must be non-negative"
    ensures r.Ok? ==> r.value == Sum(nums[..Min(n, |nums|)])
  {
    if n < 0 {
      return Err("n must be non-negative");
    }
    var total := 0;
    var i := 0;
    while i < n
      invariant 0 <= i <= n && i <= |nums|
      invariant total == Sum(nums[..i])
    {
      if i >= |nums| {
        break;
      }
      assert nums[..i + 1][..i] == nums[..i];
      total := total + nums[i];
      i := i + 1;
    }
    return Ok(total);
  }

  /** Nothing is summed when `n` is zero. */
  lemma SumFirstZero(nums: seq<int>)
    ensures SumFirst(nums, 0) == 0
  {
  }

  /** Once `n` reaches the length, the whole list is summed. */
  lemma SumFirstAll(nums: seq<int>, n: nat)
    requires n >= |nums|
    ensures SumFirst(nums, n) == Sum(nums)
  {
    assert nums[..|nums|] == nums;
  }

  /** One more element inside the list adds exactly that element. */
  lemma SumFirstStep(nums: seq<int>, n: nat)
    requires n < |nums|
    ensures SumFirst(nums, n + 1) == SumFirst(nums, n) + nums[n]
  {
    assert nums[..n + 1] == nums[..n] + [nums[n]];
    SumAppend(nums[..n], [nums[n]]);
  }

  /** Sums over a concatenation add up. */
  lemma {:induction false} SumAppend(s: seq<int>, t: seq<int>)
    ensures Sum(s + t) == Sum(s) + Sum(t)
    decreases |t|
  {
    if t != [] {
      var u := t[..|t| - 1];
      assert (s + t)[..|s + t| - 1] == s + u;
      assert (s + t)[|s + t| - 1] == t[|t| - 1];
      SumAppend(s, u);
    } else {
      assert s + t == s;
    }
  }
}
