/** Occurrences in a sequence of numbers. */
module Counting {
  function Count(log: seq<nat>, x: nat): nat
    decreases |log|
  {
    if log == [] then 0
    else Count(log[..|log| - 1], x) + if log[|log| - 1] == x then 1 else 0
  }

  lemma {:induction false} CountSnoc(log: seq<nat>, o: nat, x: nat)
    ensures Count(log + [o], x) == Count(log, x) + if o == x then 1 else 0
  {
    assert (log + [o])[..|log + [o]| - 1] == log;
  }

  lemma {:induction false} CountConcat(a: seq<nat>, b: seq<nat>, x: nat)
    ensures Count(a + b, x) == Count(a, x) + Count(b, x)
    decreases |b|
  {
    if b == [] {
      assert a + b == a;
    } else {
      CountConcat(a, b[..|b| - 1], x);
      assert (a + b)[..|a + b| - 1] == a + b[..|b| - 1];
    }
  }

  /** `x` occurs exactly when its count is positive. */
  lemma {:induction false} CountPositive(log: seq<nat>, x: nat)
    ensures Count(log, x) > 0 <==> x in log
    decreases |log|
  {
    if log != [] {
      var rest := log[..|log| - 1];
      CountPositive(rest, x);
      assert log == rest + [log[|log| - 1]];
    }
  }
}
