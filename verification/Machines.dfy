/** Runs of a labelled transition system, and the induction principle that every
    protocol of this project uses to lift a step invariant to all of its runs. */
module Machines {

  datatype Option<+T> = None | Some(value: T)

  /** The state reached from `s` by `steps`, or None when one of them is not enabled.
      A machine is given by `next`, which answers None for a step that is not enabled. */
  function Run<S, A>(next: (S, A) -> Option<S>, s: S, steps: seq<A>): Option<S>
  {
    if steps == [] then Some(s) else
    match next(s, steps[0])
    case None => None
    case Some(t) => Run(next, t, steps[1..])
  }

  /** A property that every step keeps holds at the end of every run from a state that has it. */
  lemma {:induction false} Invariance<S(!new), A(!new)>(
    next: (S, A) -> Option<S>, inv: S -> bool, s: S, steps: seq<A>)
    requires inv(s)
    requires forall t, a :: inv(t) && next(t, a).Some? ==> inv(next(t, a).value)
    ensures Run(next, s, steps).Some? ==> inv(Run(next, s, steps).value)
    decreases |steps|
  {
    if steps != [] && next(s, steps[0]).Some? {
      Invariance(next, inv, next(s, steps[0]).value, steps[1..]);
    }
  }

  /** Two runs, one after the other, are one run. */
  lemma {:induction false} RunConcat<S, A>(next: (S, A) -> Option<S>, s: S, first: seq<A>, second: seq<A>)
    requires Run(next, s, first).Some?
    ensures Run(next, s, first + second) == Run(next, Run(next, s, first).value, second)
    decreases |first|
  {
    if first == [] {
      assert first + second == second;
    } else {
      assert (first + second)[1..] == first[1..] + second;
      RunConcat(next, next(s, first[0]).value, first[1..], second);
    }
  }

  /** One step more at the beginning of a run. */
  lemma RunCons<S, A>(next: (S, A) -> Option<S>, s: S, a: A, t: S, steps: seq<A>)
    requires next(s, a) == Some(t)
    ensures Run(next, s, [a] + steps) == Run(next, t, steps)
  {
    assert ([a] + steps)[1..] == steps;
  }

  /** One step more at the end of a run. */
  lemma RunSnoc<S, A>(next: (S, A) -> Option<S>, s: S, steps: seq<A>, t: S, a: A)
    requires Run(next, s, steps) == Some(t)
    ensures Run(next, s, steps + [a]) == next(t, a)
  {
    RunConcat(next, s, steps, [a]);
    assert next(t, a).Some? ==> Run(next, next(t, a).value, [a][1..]) == next(t, a);
  }

  /** The first k steps of a run are a run, and its step k goes on from there. */
  lemma {:induction false} RunPrefix<S, A>(next: (S, A) -> Option<S>, s: S, steps: seq<A>, k: nat)
    requires k <= |steps| && Run(next, s, steps).Some?
    ensures Run(next, s, steps[..k]).Some?
    ensures k < |steps| ==> Run(next, s, steps[..k + 1]) == next(Run(next, s, steps[..k]).value, steps[k])
    decreases k
  {
    if k < |steps| { assert steps[..k + 1][1..] == steps[1..][..k]; }
    if k > 0 {
      assert steps[..k][1..] == steps[1..][..k - 1];
      RunPrefix(next, next(s, steps[0]).value, steps[1..], k - 1);
    }
  }

  /** A run given by all the states that it goes through. */
  lemma {:induction false} RunAlong<S, A>(next: (S, A) -> Option<S>, states: seq<S>, steps: seq<A>)
    requires |states| == |steps| + 1
    requires forall i | 0 <= i < |steps| :: next(states[i], steps[i]) == Some(states[i + 1])
    ensures Run(next, states[0], steps) == Some(states[|steps|])
    decreases |steps|
  {
    if steps != [] {
      assert states[1] == states[1..][0];
      RunAlong(next, states[1..], steps[1..]);
    }
  }
}
