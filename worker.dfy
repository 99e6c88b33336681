/** The offloaded computation of the worker script: for `input`, the sum over
    `i < input` of the naive recursive Fibonacci number of `i % 20`. */
module Worker {

  /** The worker's `fibonacci`: `n` itself below 2, otherwise the sum of the two previous values. */
  function Fibonacci(n: nat): nat
  {
    if n <= 1 then n else Fibonacci(n - 1) + Fibonacci(n - 2)
  }

  /** The term the loop adds in iteration `i`. */
  function Term(i: nat): nat
  {
    Fibonacci(i % 20)
  }

  /** The value of `result` after `n` iterations of the accumulating loop. */
  function PartialSum(n: nat): nat
  {
    if n == 0 then 0 else PartialSum(n - 1) + Term(n - 1)
  }

  /** What the message handler computes for `input`: the loop body never runs when `input <= 0`. */
  function Total(input: int): nat
  {
    if input <= 0 then 0 else PartialSum(input)
  }

  /** The two messages the worker posts back: the success reply echoes the input,
      the error reply carries only the error text and a timestamp. */
  datatype Reply =
    | Done(input: int, result: nat, timestamp: string)
    | Failed(error: string, timestamp: string)

  /** The accumulating `for` loop of the message handler. */
  method Compute(input: int) returns (result: nat)
    ensures result == Total(input)
  {
    result := 0;
    var i: nat := 0;
    while i < input
      invariant i <= if input < 0 then 0 else input
      invariant result == PartialSum(i)
    {
      result := result + Fibonacci(i % 20);
      i := i + 1;
    }
  }

  /** The `message` listener: computes and posts the success reply; the timestamp is supplied. */
  method HandleMessage(input: int, timestamp: string) returns (reply: Reply)
    ensures reply.Done? && reply.input == input && reply.timestamp == timestamp
    ensures reply.result == Total(input)
  {
    var result := Compute(input);
    reply := Done(input, result, timestamp);
  }

  /** The `error` listener: posts the error text and a timestamp, and no result or input. */
  method HandleError(message: string, timestamp: string) returns (reply: Reply)
    ensures reply.Failed? && reply.error == message && reply.timestamp == timestamp
  {
    reply := Failed(message, timestamp);
  }

  lemma FibonacciRecurrence(n: nat)
    ensures Fibonacci(0) == 0 && Fibonacci(1) == 1
    ensures n >= 2 ==> Fibonacci(n) == Fibonacci(n - 1) + Fibonacci(n - 2)
  {
  }

  lemma {:induction false} FibonacciMonotone(m: nat, n: nat)
    requires m <= n
    ensures Fibonacci(m) <= Fibonacci(n)
  {
    if m < n {
      FibonacciMonotone(m, n - 1);
    }
  }

  lemma Fibonacci19()
    ensures Fibonacci(19) == 4181
  {
    assert Fibonacci(2) == 1;
    assert Fibonacci(3) == 2;
    assert Fibonacci(4) == 3;
    assert Fibonacci(5) == 5;
    assert Fibonacci(6) == 8;
    assert Fibonacci(7) == 13;
    assert Fibonacci(8) == 21;
    assert Fibonacci(9) == 34;
    assert Fibonacci(10) == 55;
    assert Fibonacci(11) == 89;
    assert Fibonacci(12) == 144;
    assert Fibonacci(13) == 233;
    assert Fibonacci(14) == 377;
    assert Fibonacci(15) == 610;
    assert Fibonacci(16) == 987;
    assert Fibonacci(17) == 1597;
    assert Fibonacci(18) == 2584;
  }

  /** No term exceeds `fibonacci(19)`. */
  lemma TermBound(i: nat)
    ensures Term(i) <= 4181
  {
    FibonacciMonotone(i % 20, 19);
    Fibonacci19();
  }

  lemma {:induction false} PartialSumBound(n: nat)
    ensures PartialSum(n) <= 4181 * n
  {
    if n > 0 {
      PartialSumBound(n - 1);
      TermBound(n - 1);
    }
  }

  lemma {:induction false} PartialSumMonotone(m: nat, n: nat)
    requires m <= n
    ensures PartialSum(m) <= PartialSum(n)
  {
    if m < n {
      PartialSumMonotone(m, n - 1);
    }
  }

  /** The result lies between 0 and `4181 * input`, and is 0 for every `input <= 0`. */
  lemma TotalBounds(input: int)
    ensures input <= 0 ==> Total(input) == 0
    ensures input > 0 ==> Total(input) <= 4181 * input
  {
    if input > 0 {
      PartialSumBound(input);
    }
  }

  /** A larger input never gives a smaller result. */
  lemma TotalMonotone(a: int, b: int)
    requires a <= b
    ensures Total(a) <= Total(b)
  {
    if a > 0 {
      PartialSumMonotone(a, b);
    }
  }

  /** Input 5 gives 0 + 1 + 1 + 2 + 3. */
  lemma TotalOfFive()
    ensures Total(5) == 7
  {
    assert Term(0) == 0 && Term(1) == 1 && Term(2) == 1 && Term(3) == 2 && Term(4) == 3;
    assert PartialSum(1) == 0;
    assert PartialSum(2) == 1;
    assert PartialSum(3) == 2;
    assert PartialSum(4) == 4;
    assert PartialSum(5) == 7;
  }

  /** One full cycle of twenty terms: fibonacci(0) + ... + fibonacci(19). */
  lemma PartialSumTwenty()
    ensures PartialSum(20) == 10945
  {
    assert Term(0) == 0 && Term(1) == 1 && Term(2) == 1 && Term(3) == 2 && Term(4) == 3;
    assert PartialSum(1) == 0;
    assert PartialSum(2) == 1;
    assert PartialSum(3) == 2;
    assert PartialSum(4) == 4;
    assert PartialSum(5) == 7;
    assert Term(5) == 5;
    assert PartialSum(6) == 12;
    assert Term(6) == 8;
    assert PartialSum(7) == 20;
    assert Term(7) == 13;
    assert PartialSum(8) == 33;
    assert Term(8) == 21;
    assert PartialSum(9) == 54;
    assert Term(9) == 34;
    assert PartialSum(10) == 88;
    assert Term(10) == 55;
    assert PartialSum(11) == 143;
    assert Term(11) == 89;
    assert PartialSum(12) == 232;
    assert Term(12) == 144;
    assert PartialSum(13) == 376;
    assert Term(13) == 233;
    assert PartialSum(14) == 609;
    assert Term(14) == 377;
    assert PartialSum(15) == 986;
    assert Term(15) == 610;
    assert PartialSum(16) == 1596;
    assert Term(16) == 987;
    assert PartialSum(17) == 2583;
    assert Term(17) == 1597;
    assert PartialSum(18) == 4180;
    assert Term(18) == 2584;
    assert PartialSum(19) == 6764;
    assert Term(19) == 4181;
    assert PartialSum(20) == 10945;
  }

  /** Iteration `i + 20` adds the same term as iteration `i`. */
  lemma TermPeriodic(i: nat)
    ensures Term(i + 20) == Term(i)
  {
    assert (i + 20) % 20 == i % 20;
  }

  /** Iteration `m + 20` raises the sum by as much as iteration `m`. */
  lemma PeriodicIncrement(m: nat)
    ensures PartialSum(m + 21) - PartialSum(m + 20) == PartialSum(m + 1) - PartialSum(m)
  {
    TermPeriodic(m);
  }

  /** The `% 20` wrap: twenty more iterations add exactly one more cycle. */
  lemma {:induction false} PartialSumPeriodic(n: nat)
    ensures PartialSum(n + 20) == PartialSum(n) + 10945
  {
    if n == 0 {
      PartialSumTwenty();
      assert n + 20 == 20;
    } else {
      var m := n - 1;
      PartialSumPeriodic(m);
      PeriodicIncrement(m);
      assert m + 21 == n + 20 && m + 1 == n;
    }
  }

  /** Input 25 wraps: terms 20..24 reuse fibonacci(0)..fibonacci(4). */
  lemma TotalOfTwentyFive()
    ensures Total(25) == 10945 + 7
  {
    PartialSumPeriodic(5);
    TotalOfFive();
  }
}
