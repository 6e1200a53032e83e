/** Remainders by a variable modulus, as the ring buffer takes them. */
module Modular {

  type Positive = x: nat | x > 0 witness 1

  lemma SmallMod(x: nat, m: Positive)
    ensures x < m ==> x % m == x
    ensures m <= x < m + m ==> x % m == x - m
  {
  }

  lemma NextRemainder(x: nat, m: Positive)
    ensures (x + 1) % m == if x % m + 1 == m then 0 else x % m + 1
  {
    var q, r := x / m, x % m;
    assert x == m * q + r;
    if r + 1 == m {
      assert x + 1 == m * (q + 1);
      MultipleOf(q + 1, 0, m);
    } else {
      MultipleOf(q, r + 1, m);
    }
  }

  lemma MultipleOf(q: nat, r: nat, m: Positive)
    requires r < m
    ensures (m * q + r) % m == r
  {
    var x := m * q + r;
    var d := x / m - q;
    assert m * d == m * (x / m) - m * q;
    assert m * d == r - x % m;
  }

  /** Two numbers have the same remainder exactly when their distance has none. */
  lemma {:induction false} SameRemainder(x: nat, y: nat, m: Positive)
    requires y <= x
    ensures x % m == y % m <==> (x - y) % m == 0
    decreases y
  {
    if y == 0 {
      SmallMod(0, m);
    } else {
      SameRemainder(x - 1, y - 1, m);
      NextRemainder(x - 1, m);
      NextRemainder(y - 1, m);
    }
  }
}
