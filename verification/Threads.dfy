/** Counting over the threads of a protocol, and the effect of a condition variable on them. */
module Threads {
  import opened Machines

  function Sum<T>(s: seq<T>, weight: T -> nat): nat
  {
    if s == [] then 0 else weight(s[0]) + Sum(s[1..], weight)
  }

  lemma {:induction false} SumUpdate<T>(s: seq<T>, i: nat, x: T, weight: T -> nat)
    requires i < |s|
    ensures Sum(s[i := x], weight) + weight(s[i]) == Sum(s, weight) + weight(x)
    decreases |s|
  {
    if i == 0 {
      assert s[i := x][1..] == s[1..];
    } else {
      assert s[i := x][1..] == s[1..][i - 1 := x];
      SumUpdate(s[1..], i - 1, x, weight);
    }
  }

  lemma {:induction false} SumConcat<T>(s: seq<T>, t: seq<T>, weight: T -> nat)
    ensures Sum(s + t, weight) == Sum(s, weight) + Sum(t, weight)
    decreases |s|
  {
    if s == [] {
      assert s + t == t;
    } else {
      assert (s + t)[1..] == s[1..] + t;
      SumConcat(s[1..], t, weight);
    }
  }

  lemma {:induction false} SumMember<T>(s: seq<T>, i: nat, weight: T -> nat)
    requires i < |s|
    ensures weight(s[i]) <= Sum(s, weight)
    decreases |s|
  {
    if i > 0 { SumMember(s[1..], i - 1, weight); }
  }

  /** Two different threads that both count, count twice. */
  lemma {:induction false} SumTwo<T>(s: seq<T>, i: nat, j: nat, weight: T -> nat)
    requires i < j < |s|
    ensures weight(s[i]) + weight(s[j]) <= Sum(s, weight)
    decreases |s|
  {
    if i == 0 { SumMember(s[1..], j - 1, weight); } else { SumTwo(s[1..], i - 1, j - 1, weight); }
  }

  /** A positive sum has a positive summand. */
  lemma {:induction false} SumWitness<T>(s: seq<T>, weight: T -> nat) returns (i: nat)
    requires Sum(s, weight) > 0
    ensures i < |s| && weight(s[i]) > 0
    decreases |s|
  {
    if weight(s[0]) > 0 { i := 0; } else { i := SumWitness(s[1..], weight); i := i + 1; }
  }

  lemma {:induction false} SumZero<T>(s: seq<T>, weight: T -> nat)
    requires forall i | 0 <= i < |s| :: weight(s[i]) == 0
    ensures Sum(s, weight) == 0
    decreases |s|
  {
    if s != [] { SumZero(s[1..], weight); }
  }

  /** The items that the elements of `s` hold, together. */
  function Gather<T, U>(s: seq<T>, held: T -> multiset<U>): multiset<U>
  {
    if s == [] then multiset{} else held(s[0]) + Gather(s[1..], held)
  }

  lemma {:induction false} GatherUpdate<T, U>(s: seq<T>, i: nat, x: T, held: T -> multiset<U>)
    requires i < |s|
    ensures Gather(s[i := x], held) + held(s[i]) == Gather(s, held) + held(x)
    decreases |s|
  {
    if i == 0 {
      assert s[i := x][1..] == s[1..];
    } else {
      assert s[i := x][1..] == s[1..][i - 1 := x];
      GatherUpdate(s[1..], i - 1, x, held);
      var rest, rest' := Gather(s[1..], held), Gather(s[1..][i - 1 := x], held);
      assert held(s[0]) + rest' + held(s[i]) == held(s[0]) + (rest' + held(s[i]));
      assert held(s[0]) + rest + held(x) == held(s[0]) + (rest + held(x));
    }
  }

  /** An element that starts, stops or goes on holding what it holds. */
  lemma GatherChange<T, U>(s: seq<T>, i: nat, x: T, held: T -> multiset<U>)
    requires i < |s|
    ensures held(s[i]) == multiset{} ==> Gather(s[i := x], held) == Gather(s, held) + held(x)
    ensures held(x) == multiset{} ==> Gather(s, held) == Gather(s[i := x], held) + held(s[i])
    ensures held(x) == held(s[i]) ==> Gather(s[i := x], held) == Gather(s, held)
  {
    GatherUpdate(s, i, x, held);
    var before, after := Gather(s, held), Gather(s[i := x], held);
    assert after + held(s[i]) == before + held(x);
    assert after == (before + held(x)) - held(s[i]);
    assert before == (after + held(s[i])) - held(x);
  }

  lemma {:induction false} GatherConcat<T, U>(s: seq<T>, t: seq<T>, held: T -> multiset<U>)
    ensures Gather(s + t, held) == Gather(s, held) + Gather(t, held)
    decreases |s|
  {
    if s == [] {
      assert s + t == t;
    } else {
      assert (s + t)[1..] == s[1..] + t;
      GatherConcat(s[1..], t, held);
    }
  }

  lemma {:induction false} GatherEmpty<T, U>(s: seq<T>, held: T -> multiset<U>)
    requires forall i | 0 <= i < |s| :: held(s[i]) == multiset{}
    ensures Gather(s, held) == multiset{}
    decreases |s|
  {
    if s != [] { GatherEmpty(s[1..], held); }
  }

  /** Whatever has been taken is in some thread's hand or done: nothing is lost, nothing done twice. */
  ghost predicate Conserved<T, U>(taken: seq<U>, done: seq<U>, threads: seq<T>, held: T -> multiset<U>)
  {
    multiset(taken) == multiset(done) + Gather(threads, held)
  }

  lemma TakeConserves<T, U>(taken: seq<U>, done: seq<U>, threads: seq<T>, held: T -> multiset<U>, i: nat, t: T, u: U)
    requires Conserved(taken, done, threads, held) && i < |threads|
    requires held(threads[i]) == multiset{} && held(t) == multiset{u}
    ensures Conserved(taken + [u], done, threads[i := t], held)
  {
    GatherChange(threads, i, t, held);
  }

  lemma FinishConserves<T, U>(taken: seq<U>, done: seq<U>, threads: seq<T>, held: T -> multiset<U>, i: nat, t: T, u: U)
    requires Conserved(taken, done, threads, held) && i < |threads|
    requires held(threads[i]) == multiset{u} && held(t) == multiset{}
    ensures Conserved(taken, done + [u], threads[i := t], held)
  {
    GatherChange(threads, i, t, held);
    var after := Gather(threads[i := t], held);
    assert multiset(done + [u]) + after == multiset(done) + (after + multiset{u});
  }

  lemma MoveConserves<T, U>(taken: seq<U>, done: seq<U>, threads: seq<T>, held: T -> multiset<U>, i: nat, t: T)
    requires Conserved(taken, done, threads, held) && i < |threads| && held(threads[i]) == held(t)
    ensures Conserved(taken, done, threads[i := t], held)
  {
    GatherChange(threads, i, t, held);
  }

  /** pthread_cond_broadcast: `wake` changes the sleepers and leaves every other thread as it is. */
  function Broadcast<T>(threads: seq<T>, wake: T -> T): (r: seq<T>)
    ensures |r| == |threads|
    ensures forall i | 0 <= i < |threads| :: r[i] == wake(threads[i])
  {
    seq(|threads|, i requires 0 <= i < |threads| => wake(threads[i]))
  }

  /** pthread_cond_signal: when a thread sleeps on the condition one of them, `pick`, wakes up;
      the signal is lost when none does. Waking more than one is a signal and a spurious wakeup. */
  function Signal<T>(threads: seq<T>, asleep: T -> bool, wake: T -> T, pick: nat): Option<seq<T>>
  {
    if pick < |threads| && asleep(threads[pick]) then
      Some(threads[pick := wake(threads[pick])])
    else if forall i | 0 <= i < |threads| :: !asleep(threads[i]) then
      Some(threads)
    else
      None
  }

  /** A broadcast changes a count in the way that waking changes one thread's weight. */
  lemma {:induction false} SumBroadcast<T>(threads: seq<T>, wake: T -> T, after: T -> nat, before: T -> nat)
    requires forall i | 0 <= i < |threads| :: after(wake(threads[i])) == before(threads[i])
    ensures Sum(Broadcast(threads, wake), after) == Sum(threads, before)
    decreases |threads|
  {
    if threads != [] {
      assert Broadcast(threads, wake)[1..] == Broadcast(threads[1..], wake);
      SumBroadcast(threads[1..], wake, after, before);
    }
  }

  lemma {:induction false} GatherBroadcast<T, U>(threads: seq<T>, wake: T -> T, held: T -> multiset<U>)
    requires forall i | 0 <= i < |threads| :: held(wake(threads[i])) == held(threads[i])
    ensures Gather(Broadcast(threads, wake), held) == Gather(threads, held)
    decreases |threads|
  {
    if threads != [] {
      assert Broadcast(threads, wake)[1..] == Broadcast(threads[1..], wake);
      GatherBroadcast(threads[1..], wake, held);
    }
  }
}
