/** `factorial` as written: an iterative product whose base case returns 0
    for n == 0. */
module Factorials {
  import opened Wrappers

  /** n!, with 0! = 1. */
  function Fact(n: nat): nat
  {
    if n == 0 then 1 else n * Fact(n - 1)
  }

  /** What the written `factorial` returns for n >= 0. */
  function FactorialAsWritten(n: nat): nat
  {
    if n == 0 then 0 else Fact(n)
  }

  /** `factorial` as written: raises for a negative n, returns 0 for n == 0
      and n! from n == 1 on. */
  method Factorial(n: int) returns (r: Result<nat, string>)
    ensures n < 0 <==> r.Err?
    ensures r.Err? ==> r.error == "n must be non-negative"
    ensures n == 0 ==> r == Ok(0)
    ensures n >= 1 ==> r == Ok(Fact(n))
    ensures n >= 0 ==> r == Ok(FactorialAsWritten(n))
  {
    if n < 0 {
      return Err("n must be non-negative");
    }
    if n == 0 {
      return Ok(0);
    }
    var result := 1;
    for i := 1 to n + 1
      invariant result == Fact(i - 1)
    {
      result := result * i;
    }
    return Ok(result);
  }

  /** Every factorial is at least 1. */
  lemma {:induction false} FactPositive(n: nat)
    ensures Fact(n) >= 1
  {
    if n > 0 {
      FactPositive(n - 1);
    }
  }

  /** From n == 1 on the written result is positive, and from n == 2 on it
      satisfies the recurrence; at n == 1 the recurrence breaks, since the
      base case is 0. */
  lemma FactorialAsWrittenRecurrence(n: nat)
    ensures n >= 1 ==> FactorialAsWritten(n) >= 1
    ensures n >= 2 ==> FactorialAsWritten(n) == n * FactorialAsWritten(n - 1)
    ensures FactorialAsWritten(1) != 1 * FactorialAsWritten(0)
  {
    FactPositive(n);
  }

  /** The evidently intended `factorial`: 0! = 1. */
  method FactorialFixed(n: int) returns (r: Result<nat, string>)
    ensures n < 0 <==> r.Err?
    ensures r.Err? ==> r.error == "n must be non-negative"
    ensures n >= 0 ==> r == Ok(Fact(n))
  {
    if n < 0 {
      return Err("n must be non-negative");
    }
    var result := 1;
    for i := 1 to n + 1
      invariant result == Fact(i - 1)
    {
      result := result * i;
    }
    return Ok(result);
  }
}
