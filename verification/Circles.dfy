/** Positions on a circle of `n` places, for everything that is picked in turn. */
module Circles {
  import opened BitFields

  /** The place of a counter value among `n` places. */
  function Slot(counter: nat, n: nat): (i: nat)
    requires n > 0
    ensures i < n
  {
    counter % n
  }

  /** Numbers less than `n` apart fall into different slots. */
  lemma CloseNumbersDiffer(x: nat, y: nat, n: nat)
    requires x < y < x + n
    ensures Slot(x, n) != Slot(y, n)
  {
    if x % n == y % n {
      var d := y / n - x / n;
      assert n * d == y - x by { assert y == n * (y / n) + y % n && x == n * (x / n) + x % n; }
      MultipleIsFar(n, d);
    }
  }

  /** After `n` places the circle starts again. */
  lemma FullCircle(i: nat, n: nat)
    requires n > 0
    ensures Slot(i + n, n) == Slot(i, n)
  {
    var q := i / n;
    Divide(i % n, n, q + 1);
    assert i + n == i % n + n * (q + 1) by { assert i == n * q + i % n; }
  }
}
