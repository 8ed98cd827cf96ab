/** `fib` as written: an iterative Fibonacci whose base case returns 0 for
    both n == 0 and n == 1. */
module Fibonacci {
  import opened Wrappers

  /** The Fibonacci numbers, F(0) = 0 and F(1) = 1. */
  function F(n: nat): nat
  {
    if n < 2 then n else F(n - 1) + F(n - 2)
  }

  /** `fib` as written: raises for a negative n, returns 0 for n == 0 and for
      n == 1, and F(n) from n == 2 on. */
  method Fib(n: int) returns (r: Result<nat, string>)
    ensures n < 0 <==> r.Err?
    ensures r.Err? ==> r.error == "n must be non-negative"
    ensures n == 0 || n == 1 ==> r == Ok(0)
    ensures n >= 2 ==> r == Ok(F(n))
  {
    if n < 0 {
      return Err("n must be non-negative");
    }
    if n == 0 || n == 1 {
      return Ok(0);
    }
    var a, b := 0, 1;
    for k := 2 to n + 1
      invariant a == F(k - 2) && b == F(k - 1)
    {
      a, b := b, a + b;
    }
    return Ok(b);
  }

  /** The departure from the docstring: the written code gives 0 at n == 1,
      where F(1) == 1. */
  lemma FibOneDeparts()
    ensures F(1) == 1
  {
  }

  /** The evidently intended `fib`: base cases 0 and 1. */
  method FibFixed(n: int) returns (r: Result<nat, string>)
    ensures n < 0 <==> r.Err?
    ensures r.Err? ==> r.error == "n must be non-negative"
    ensures n >= 0 ==> r == Ok(F(n))
  {
    if n < 0 {
      return Err("n must be non-negative");
    }
    if n == 0 || n == 1 {
      return Ok(n);
    }
    var a, b := 0, 1;
    for k := 2 to n + 1
      invariant a == F(k - 2) && b == F(k - 1)
    {
      a, b := b, a + b;
    }
    return Ok(b);
  }
}
