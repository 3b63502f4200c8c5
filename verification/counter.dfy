/** The counter module: one private integer behind `increment` and `reset`. */
module Counter {

  /** The module singleton; `counter` is the private variable. */
  class CounterModule {
    var counter: int

    /** The counter only starts at 0, grows by one or is set to 0. */
    ghost predicate Valid()
      reads this
    {
      counter >= 0
    }

    /** Module load: the counter starts at 0. */
    constructor ()
      ensures Valid() && counter == 0
    {
      counter := 0;
    }

    /** `increment`: `counter++`, so the value before the call is returned. */
    method Increment() returns (previous: int)
      requires Valid()
      modifies this
      ensures Valid()
      ensures previous == old(counter) && counter == old(counter) + 1
    {
      previous := counter;
      counter := counter + 1;
    }

    /** `reset`: reports (logs) the value held just before, then zeroes it. */
    method Reset() returns (logged: int)
      requires Valid()
      modifies this
      ensures Valid()
      ensures logged == old(counter) && counter == 0
    {
      logged := counter;
      counter := 0;
    }
  }

  /** From a fresh module, `k` consecutive increments return 0, 1, ..., k-1:
      the i-th call (from 1) returns i - 1. */
  method ConsecutiveIncrements(k: nat) returns (results: seq<int>)
    ensures |results| == k
    ensures forall i :: 0 <= i < k ==> results[i] == i
  {
    var c := new CounterModule();
    results := [];
    while |results| < k
      invariant c.Valid() && c.counter == |results| <= k
      invariant forall i :: 0 <= i < |results| ==> results[i] == i
    {
      var r := c.Increment();
      results := results + [r];
    }
  }

  /** After `k` increments, `reset` reports `k`, and the next increment
      returns 0 again. */
  method ResetRestarts(k: nat) returns (logged: int, next: int)
    ensures logged == k && next == 0
  {
    var c := new CounterModule();
    var i := 0;
    while i < k
      invariant 0 <= i <= k
      invariant c.Valid() && c.counter == i
    {
      var _ := c.Increment();
      i := i + 1;
    }
    logged := c.Reset();
    next := c.Increment();
  }
}
