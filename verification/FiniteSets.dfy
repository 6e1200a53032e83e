/** The pigeonhole facts about thread ids that the protocols need. */
module FiniteSets {

  function Below(n: nat): set<nat>
  {
    if n == 0 then {} else Below(n - 1) + {n - 1}
  }

  lemma {:induction false} InBelow(i: nat, n: nat)
    ensures i in Below(n) <==> i < n
  {
    if n > 0 { InBelow(i, n - 1); }
  }

  lemma {:induction false} BelowSize(n: nat)
    ensures |Below(n)| == n
  {
    if n > 0 {
      BelowSize(n - 1);
      InBelow(n - 1, n - 1);
    }
  }

  lemma {:induction false} SubsetSize<T>(a: set<T>, b: set<T>)
    requires a <= b
    ensures |a| <= |b|
    ensures |a| == |b| ==> a == b
    decreases a
  {
    if a != {} {
      var x :| x in a;
      SubsetSize(a - {x}, b - {x});
      assert b == b - {x} + {x} && a == a - {x} + {x};
    }
  }

  /** At most n ids are below n, and n of them are all of them. */
  lemma AllBelow(ids: set<nat>, n: nat)
    requires forall i | i in ids :: i < n
    ensures |ids| <= n
    ensures |ids| == n <==> forall i: nat | i < n :: i in ids
  {
    forall i: nat ensures i in Below(n) <==> i < n { InBelow(i, n); }
    BelowSize(n);
    SubsetSize(ids, Below(n));
    if forall i: nat | i < n :: i in ids {
      assert ids == Below(n);
    }
  }
}
