/** The client of the barrier, chap7-RealCode/barrier/main.cxx: threads that alternate between a
    working phase and a phase in which the barrier's leader changes every thread's increment. */
module BarrierClient {
  import opened Machines
  import opened Modular
  import opened Threads
  import opened FiniteSets
  import B = Barrier

  /** As written, barrier_wait overwrites the leader's -1 with the result of the unlock;
      repaired, it keeps it. */
  datatype Variant = AsWritten | Repaired

  /** What barrier_wait returns: the leader's -1, or the 0 of the last wait, unless the result of the
      unlock takes its place. */
  function Returns(variant: Variant, leads: bool): int
  {
    var status := if leads then -1 else 0;
    var unlocked := 0;
    match variant
    case AsWritten => unlocked
    case Repaired => if unlocked != 0 then unlocked else status
  }

  /** `starts` is what each thread's uninitialised `out_loop` holds when the thread begins. */
  datatype Sizes = Sizes(columns: nat, inLoops: nat, outLoops: int, starts: seq<int>, variant: Variant)

  /** The `out_loop` of thread `t` once it has been through `k` rounds. */
  function OutLoop(sizes: Sizes, t: nat, k: nat): int
  {
    (if t < |sizes.starts| then sizes.starts[t] else 0) + k
  }

  /** Where a thread is in thread_routine, in its round `k` (out_loop is its start and k): before or in the first
      call of barrier_wait, at one addition, before or in the second call, or as leader about to
      change the increment of thread `index`. */
  datatype Pc =
    | First(k: nat)
    | Work(k: nat, inner: nat, column: nat)
    | Second(k: nat)
    | Bump(k: nat, index: nat)

  /** `statuses` records what barrier_wait has returned to each thread, in order. */
  datatype State = State(
    sizes: Sizes,
    barrier: B.State,
    pcs: seq<Pc>,
    increment: seq<int>,
    arr: seq<seq<int>>,
    statuses: seq<seq<int>>)

  datatype Action = Barrier(action: B.Action) | Local(thread: nat)

  function Initial(threads: nat, sizes: Sizes, start: nat, modulus: Positive): State
  {
    State(sizes, B.Initial(threads, threads, start, modulus), seq(threads, _ => First(0)),
          seq(threads, t => t),
          seq(threads, _ => seq(sizes.columns, c => c + 1)), seq(threads, _ => []))
  }

  /** Where a thread goes on when barrier_wait returns `status` to it. */
  function AfterWait(pc: Pc, status: int): Pc
  {
    match pc
    case First(k) => Work(k, 0, 0)
    case Second(k) => if status == -1 then Bump(k, 0) else First(k + 1)
    case _ => pc
  }

  predicate AtBarrier(sizes: Sizes, t: nat, pc: Pc)
  {
    match pc
    case First(k) => OutLoop(sizes, t, k) < sizes.outLoops
    case Second(_) => true
    case _ => false
  }

  function Next(s: State, a: Action): Option<State>
  {
    match a
    case Barrier(action) =>
      var t := action.thread;
      if !(t < |s.pcs| && |s.pcs| == |s.barrier.threads| && AtBarrier(s.sizes, t, s.pcs[t])
           && |s.statuses| == |s.pcs|) then None else
      (match B.Next(s.barrier, action)
       case None => None
       case Some(barrier) =>
         if action.Spurious? || !(|barrier.threads| == |s.pcs| && barrier.threads[t].place.Outside?) then
           Some(s.(barrier := barrier))
         else
           var status := Returns(s.sizes.variant, action.Arrive?);
           Some(s.(barrier := barrier, pcs := s.pcs[t := AfterWait(s.pcs[t], status)],
                   statuses := s.statuses[t := s.statuses[t] + [status]])))
    case Local(t) =>
      if !(t < |s.pcs| && |s.arr| == |s.increment| == |s.pcs|) then None else
      match s.pcs[t]
      case Work(k, inner, column) =>
        if inner < s.sizes.inLoops then
          if column < s.sizes.columns && column < |s.arr[t]| then
            Some(s.(arr := s.arr[t := s.arr[t][column := s.arr[t][column] + s.increment[t]]],
                    pcs := s.pcs[t := Work(k, inner, column + 1)]))
          else
            Some(s.(pcs := s.pcs[t := Work(k, inner + 1, 0)]))
        else
          Some(s.(pcs := s.pcs[t := Second(k)]))
      case Bump(k, index) =>
        if index < |s.increment| then
          Some(s.(increment := s.increment[index := s.increment[index] + 1], pcs := s.pcs[t := Bump(k, index + 1)]))
        else
          Some(s.(pcs := s.pcs[t := First(k + 1)]))
      case _ => None
  }

  // ---------------------------------------------------------------- the loops of main and thread_routine

  /** main: the increments and columns that the threads start with. */
  method Setup(threads: nat, columns: nat) returns (increment: array<int>, arr: array2<int>)
    ensures increment[..] == seq(threads, t => t)
    ensures arr.Length0 == threads && arr.Length1 == columns
    ensures forall t, c | 0 <= t < threads && 0 <= c < columns :: arr[t, c] == c + 1
  {
    increment := new int[threads];
    arr := new int[threads, columns];
    for t := 0 to threads
      invariant forall u | 0 <= u < t :: increment[u] == u
      invariant forall u, c | 0 <= u < t && 0 <= c < columns :: arr[u, c] == c + 1
    {
      increment[t] := t;
      for column := 0 to columns
        invariant increment[t] == t && forall u | 0 <= u < t :: increment[u] == u
        invariant forall u, c | 0 <= u < t && 0 <= c < columns :: arr[u, c] == c + 1
        invariant forall c | 0 <= c < column :: arr[t, c] == c + 1
      {
        arr[t, column] := column + 1;
      }
    }
  }

  /** The working phase of one round. */
  method WorkPhase(arr: array<int>, increment: int, inLoops: nat)
    modifies arr
    ensures forall c | 0 <= c < arr.Length :: arr[c] == old(arr[c]) + inLoops * increment
  {
    for inner := 0 to inLoops
      invariant forall c | 0 <= c < arr.Length :: arr[c] == old(arr[c]) + inner * increment
    {
      assert (inner + 1) * increment == inner * increment + increment;
      for column := 0 to arr.Length
        invariant forall c | column <= c < arr.Length :: arr[c] == old(arr[c]) + inner * increment
        invariant forall c | 0 <= c < column :: arr[c] == old(arr[c]) + (inner + 1) * increment
      {
        arr[column] := arr[column] + increment;
      }
    }
  }

  /** The leader's phase: every thread's increment grows by one. */
  method LeaderPhase(increment: array<int>)
    modifies increment
    ensures forall t | 0 <= t < increment.Length :: increment[t] == old(increment[t]) + 1
  {
    for t := 0 to increment.Length
      invariant forall u | 0 <= u < increment.Length ::
        increment[u] == if u < t then old(increment[u]) + 1 else old(increment[u])
    {
      increment[t] := increment[t] + 1;
    }
  }

  // ---------------------------------------------------------------- what the phases compute

  /** The rounds that thread `t` goes through. */
  function Rounds(sizes: Sizes, t: nat): nat
  {
    var start := OutLoop(sizes, t, 0);
    if start < sizes.outLoops then sizes.outLoops - start else 0
  }

  /** The increment of thread `t` in round `k`. */
  function IncrementIn(variant: Variant, t: nat, k: nat): int
  {
    if variant.Repaired? then t + k else t
  }

  /** The sum of the increments of thread `t` over the first `k` rounds. */
  function Total(variant: Variant, t: nat, k: nat): int
  {
    if k == 0 then 0 else Total(variant, t, k - 1) + IncrementIn(variant, t, k - 1)
  }

  function ColumnAfter(sizes: Sizes, t: nat, c: nat, k: nat): int
  {
    c + 1 + sizes.inLoops * Total(sizes.variant, t, k)
  }

  function Column(sizes: Sizes, t: nat, c: nat, pc: Pc): int
  {
    match pc
    case First(k) => ColumnAfter(sizes, t, c, k)
    case Work(k, inner, column) =>
      ColumnAfter(sizes, t, c, k) + (if c < column then inner + 1 else inner) * IncrementIn(sizes.variant, t, k)
    case Second(k) => ColumnAfter(sizes, t, c, k + 1)
    case Bump(k, _) => ColumnAfter(sizes, t, c, k + 1)
  }

  /** The calls of barrier_wait that a thread has returned from. */
  function Returned(pc: Pc): nat
  {
    match pc
    case First(k) => 2 * k
    case Work(k, _, _) => 2 * k + 1
    case Second(k) => 2 * k + 1
    case Bump(k, _) => 2 * k + 2
  }

  /** Control: where thread `t` can be, given how often it has called barrier_wait. */
  predicate PcOk(sizes: Sizes, rounds: nat, arrivals: nat, waiting: bool, pc: Pc)
  {
    && arrivals == Returned(pc) + (if waiting then 1 else 0)
    && (waiting && pc.First? ==> pc.k < rounds)
    && (waiting ==> pc.First? || pc.Second?)
    && (if pc.First? then pc.k <= rounds else pc.k < rounds)
    && (pc.Work? ==> pc.inner <= sizes.inLoops && pc.column <= sizes.columns
                     && (pc.inner == sizes.inLoops ==> pc.column == 0))
    && (pc.Bump? ==> sizes.variant.Repaired?)
  }

  /** Data: every column of thread `t` holds what its position says. */
  ghost predicate ColumnsOk(sizes: Sizes, t: nat, pc: Pc, columns: seq<int>)
  {
    && |columns| == sizes.columns
    && forall c | 0 <= c < |columns| :: columns[c] == Column(sizes, t, c, pc)
  }

  ghost predicate ThreadInv(s: State, t: nat)
    requires t < |s.pcs| && t < |s.barrier.threads| && t < |s.arr|
  {
    && PcOk(s.sizes, Rounds(s.sizes, t), s.barrier.threads[t].arrivals, s.barrier.threads[t].place.Waiting?, s.pcs[t])
    && ColumnsOk(s.sizes, t, s.pcs[t], s.arr[t])
  }

  predicate NobodyBumps(pcs: seq<Pc>)
  {
    forall t | 0 <= t < |pcs| :: !pcs[t].Bump?
  }

  /** The increments are those of one round, or one leader is between two rounds. */
  ghost predicate IncrementsOk(variant: Variant, pcs: seq<Pc>, increment: seq<int>, generation: nat)
  {
    && (NobodyBumps(pcs) ==>
          forall u | 0 <= u < |increment| :: increment[u] == IncrementIn(variant, u, generation / 2))
    && (forall t | 0 <= t < |pcs| && pcs[t].Bump? ::
          && pcs[t].index <= |increment|
          && (forall u | 0 <= u < |pcs| && pcs[u].Bump? :: u == t)
          && forall u | 0 <= u < |increment| ::
               increment[u] == IncrementIn(variant, u, if u < pcs[t].index then pcs[t].k + 1 else pcs[t].k))
  }

  ghost predicate Inv(s: State)
  {
    && B.Exact(s.barrier)
    && |s.barrier.threads| == s.barrier.fields.threshold
    && |s.pcs| == |s.arr| == |s.increment| == |s.statuses| == |s.barrier.threads|
    && (forall t | 0 <= t < |s.pcs| :: ThreadInv(s, t))
    && IncrementsOk(s.sizes.variant, s.pcs, s.increment, s.barrier.Generation())
  }

  /** A thread outside the barrier has returned from as many calls as there are completed generations. */
  lemma OutsideIsCurrent(s: State, t: nat)
    requires Inv(s) && t < |s.pcs| && s.barrier.threads[t].place.Outside?
    ensures Returned(s.pcs[t]) == s.barrier.Generation()
  {
    assert ThreadInv(s, t) && B.ThreadInv(s.barrier, t);
  }

  /** While a thread works nobody changes the increments: its own is the one of its round. */
  lemma WorkerSeesItsRound(s: State, t: nat)
    requires Inv(s) && t < |s.pcs| && s.pcs[t].Work?
    ensures s.increment[t] == IncrementIn(s.sizes.variant, t, s.pcs[t].k)
  {
    assert ThreadInv(s, t);
    OutsideIsCurrent(s, t);
    forall u | 0 <= u < |s.pcs| ensures !s.pcs[u].Bump? {
      assert ThreadInv(s, u);
      if s.pcs[u].Bump? { OutsideIsCurrent(s, u); }
    }
  }

  lemma LeadKeepsThreads(s: State, t: nat, u: nat)
    requires Inv(s) && s.barrier.fields.counter == 1 && Next(s, Barrier(B.Arrive(t))).Some? && u < |s.pcs|
    ensures var r := Next(s, Barrier(B.Arrive(t))).value;
      && |r.pcs| == |r.arr| == |r.increment| == |r.barrier.threads| == |s.pcs|
      && ThreadInv(r, u) && !s.pcs[u].Bump? && (r.pcs[u].Bump? ==> u == t)
  {
    B.LastArrival(s.barrier, t);
    assert ThreadInv(s, t) && ThreadInv(s, u);
    assert t < |s.barrier.threads|;
    B.PlacesAfterLead(s.barrier, t, u);
  }

  /** The leader of a second call starts to bump; the leader of a first call changes no increment. */
  lemma LeadKeepsIncrements(sizes: Sizes, pcs: seq<Pc>, increment: seq<int>, t: nat)
    requires t < |pcs| && AtBarrier(sizes, t, pcs[t])
    requires NobodyBumps(pcs) && IncrementsOk(sizes.variant, pcs, increment, Returned(pcs[t]))
    ensures IncrementsOk(sizes.variant, pcs[t := AfterWait(pcs[t], Returns(sizes.variant, true))], increment,
                         Returned(pcs[t]) + 1)
  {
    var pcs' := pcs[t := AfterWait(pcs[t], Returns(sizes.variant, true))];
    assert pcs'[t] == AfterWait(pcs[t], Returns(sizes.variant, true));
    forall u | 0 <= u < |pcs| && u != t ensures !pcs'[u].Bump? {
      assert pcs'[u] == pcs[u];
    }
  }

  lemma LeadKeepsInv(s: State, t: nat)
    requires Inv(s) && s.barrier.fields.counter == 1 && Next(s, Barrier(B.Arrive(t))).Some?
    ensures Inv(Next(s, Barrier(B.Arrive(t))).value)
  {
    var r := Next(s, Barrier(B.Arrive(t))).value;
    B.ExactStep(s.barrier, B.Arrive(t));
    OutsideIsCurrent(s, t);
    forall u: nat | u < |s.pcs| ensures ThreadInv(r, u) && !s.pcs[u].Bump? {
      LeadKeepsThreads(s, t, u);
    }
    LeadKeepsIncrements(s.sizes, s.pcs, s.increment, t);
  }

  lemma BarrierKeepsThreads(s: State, a: B.Action, u: nat)
    requires Inv(s) && Next(s, Barrier(a)).Some? && u < |s.pcs|
    requires !(a.Arrive? && s.barrier.fields.counter == 1)
    ensures var r := Next(s, Barrier(a)).value;
      && |r.pcs| == |r.arr| == |r.barrier.threads| == |s.pcs|
      && ThreadInv(r, u) && (s.pcs[u].Bump? || r.pcs[u].Bump? ==> r.pcs[u] == s.pcs[u])
      && r.barrier.Generation() == s.barrier.Generation()
  {
    hide B.Exact;
    assert ThreadInv(s, a.thread) && ThreadInv(s, u);
  }

  lemma SameBumps(variant: Variant, pcs: seq<Pc>, pcs': seq<Pc>, increment: seq<int>, generation: nat)
    requires IncrementsOk(variant, pcs, increment, generation) && |pcs'| == |pcs|
    requires forall u | 0 <= u < |pcs| :: pcs[u].Bump? || pcs'[u].Bump? ==> pcs[u] == pcs'[u]
    ensures IncrementsOk(variant, pcs', increment, generation)
  {
    if NobodyBumps(pcs') {
      assert NobodyBumps(pcs);
    }
  }

  lemma BarrierKeepsInv(s: State, a: B.Action)
    requires Inv(s) && Next(s, Barrier(a)).Some?
    requires !(a.Arrive? && s.barrier.fields.counter == 1)
    ensures Inv(Next(s, Barrier(a)).value)
  {
    var r := Next(s, Barrier(a)).value;
    B.ExactStep(s.barrier, a);
    forall u: nat | u < |s.pcs|
      ensures ThreadInv(r, u) && (s.pcs[u].Bump? || r.pcs[u].Bump? ==> r.pcs[u] == s.pcs[u])
    {
      BarrierKeepsThreads(s, a, u);
    }
    SameBumps(s.sizes.variant, s.pcs, r.pcs, s.increment, s.barrier.Generation());
  }

  lemma Distribute(a: int, x: int, y: int)
    ensures a * (x + y) == a * x + a * y
  {
  }

  /** One step of the working phase moves the columns from what its old position says to what
      its new position says. */
  lemma WorkKeepsColumns(s: State, t: nat)
    requires Inv(s) && Next(s, Local(t)).Some? && s.pcs[t].Work?
    ensures var r := Next(s, Local(t)).value;
      |r.arr| == |r.pcs| == |s.pcs| && ColumnsOk(r.sizes, t, r.pcs[t], r.arr[t])
  {
    var r := Next(s, Local(t)).value;
    WorkerSeesItsRound(s, t);
    assert ThreadInv(s, t);
    var Work(k, inner, column) := s.pcs[t];
    var x := s.increment[t];
    assert (inner + 1) * x == inner * x + x;
    Distribute(s.sizes.inLoops, Total(s.sizes.variant, t, k), x);
    forall c | 0 <= c < |r.arr[t]| ensures r.arr[t][c] == Column(r.sizes, t, c, r.pcs[t]) {
      assert s.arr[t][c] == Column(s.sizes, t, c, s.pcs[t]);
    }
  }

  lemma LocalKeepsOwn(s: State, t: nat)
    requires Inv(s) && Next(s, Local(t)).Some?
    ensures var r := Next(s, Local(t)).value;
      |r.pcs| == |r.arr| == |r.barrier.threads| == |s.pcs| && ThreadInv(r, t)
  {
    hide B.Exact, IncrementsOk;
    assert ThreadInv(s, t);
    if s.pcs[t].Work? { WorkKeepsColumns(s, t); }
  }

  lemma LocalKeepsThreads(s: State, t: nat, u: nat)
    requires Inv(s) && Next(s, Local(t)).Some? && u < |s.pcs|
    ensures var r := Next(s, Local(t)).value;
      && |r.pcs| == |r.arr| == |r.barrier.threads| == |s.pcs|
      && ThreadInv(r, u) && (u != t ==> r.pcs[u] == s.pcs[u])
  {
    if u == t {
      LocalKeepsOwn(s, t);
    } else {
      hide B.Exact, IncrementsOk, PcOk, ColumnsOk;
      assert ThreadInv(s, u);
    }
  }

  /** The leader's changes: one increment at a time, then on to the next round. */
  lemma BumpKeepsIncrements(sizes: Sizes, pcs: seq<Pc>, increment: seq<int>, t: nat)
    requires t < |pcs| && pcs[t].Bump? && sizes.variant.Repaired?
    requires IncrementsOk(sizes.variant, pcs, increment, Returned(pcs[t]))
    ensures var Bump(k, index) := pcs[t];
      if index < |increment| then
        IncrementsOk(sizes.variant, pcs[t := Bump(k, index + 1)], increment[index := increment[index] + 1], 2 * k + 2)
      else
        IncrementsOk(sizes.variant, pcs[t := First(k + 1)], increment, 2 * k + 2)
  {
    var Bump(k, index) := pcs[t];
    var pcs' := pcs[t := if index < |increment| then Bump(k, index + 1) else First(k + 1)];
    assert pcs'[t] == if index < |increment| then Bump(k, index + 1) else First(k + 1);
    forall u | 0 <= u < |pcs| && u != t ensures !pcs'[u].Bump? {
      assert pcs'[u] == pcs[u];
    }
  }

  lemma LocalKeepsInv(s: State, t: nat)
    requires Inv(s) && Next(s, Local(t)).Some?
    ensures Inv(Next(s, Local(t)).value)
  {
    hide B.Exact, ColumnsOk;
    var r := Next(s, Local(t)).value;
    OutsideIsCurrent(s, t) by { assert ThreadInv(s, t); }
    forall u: nat | u < |s.pcs| ensures ThreadInv(r, u) && (u != t ==> r.pcs[u] == s.pcs[u]) {
      LocalKeepsThreads(s, t, u);
    }
    if s.pcs[t].Bump? {
      assert ThreadInv(s, t);
      BumpKeepsIncrements(s.sizes, s.pcs, s.increment, t);
    } else {
      SameBumps(s.sizes.variant, s.pcs, r.pcs, s.increment, s.barrier.Generation());
    }
  }

  lemma InvStep(s: State, a: Action)
    requires Inv(s) && Next(s, a).Some?
    ensures Inv(Next(s, a).value)
  {
    match a
    case Barrier(action) =>
      if action.Arrive? && s.barrier.fields.counter == 1 {
        LeadKeepsInv(s, action.thread);
      } else {
        BarrierKeepsInv(s, action);
      }
    case Local(t) =>
      LocalKeepsInv(s, t);
  }

  lemma InvHolds(threads: nat, sizes: Sizes, start: nat, modulus: Positive, steps: seq<Action>)
    requires threads >= 1 && start < modulus && modulus >= 2
    ensures var r := Run(Next, Initial(threads, sizes, start, modulus), steps); r.Some? ==> Inv(r.value)
  {
    var s := Initial(threads, sizes, start, modulus);
    forall t | 0 <= t < threads ensures ThreadInv(s, t) {}
    assert B.Exact(s.barrier);
    forall t, a | Inv(t) && Next(t, a).Some? ensures Inv(Next(t, a).value) { InvStep(t, a); }
    Invariance(Next, Inv, s, steps);
  }

  // ---------------------------------------------------------------- the results

  /** The thread has left the outer loop. */
  predicate Finished(s: State, t: nat)
    requires t < |s.pcs|
  {
    s.pcs[t].First? && !(OutLoop(s.sizes, t, s.pcs[t].k) < s.sizes.outLoops)
  }

  /** What a thread i that has left the loop has done: k rounds, which take out_loop from its start to
      outLoops (or none, when it starts there or beyond), that have left c + 1 + inLoops * (i + (i + 1) +
      ... + (i + k - 1)) in column c when the leader's -1 is kept, and c + 1 + inLoops * k * i as written. */
  ghost predicate Outcome(s: State, i: nat, c: nat)
    requires i < |s.pcs| && i < |s.sizes.starts|
  {
    var start, k := s.sizes.starts[i], Returned(s.pcs[i]) / 2;
    && (if start < s.sizes.outLoops then start + k == s.sizes.outLoops else k == 0)
    && i < |s.arr| && c < |s.arr[i]|
    && s.arr[i][c] ==
         c + 1 + s.sizes.inLoops * (if s.sizes.variant.Repaired? then k * i + k * (k - 1) / 2 else k * i)
  }

  lemma FinishedOutcome(s: State, i: nat, c: nat)
    requires Inv(s) && i < |s.pcs| && i < |s.sizes.starts| && c < s.sizes.columns && Finished(s, i)
    ensures Outcome(s, i, c)
  {
    assert ThreadInv(s, i);
    hide B.Exact, IncrementsOk;
    TotalClosedForm(i, s.pcs[i].k);
  }

  /** Deterministic under every interleaving, whatever the threads' out_loop starts with. */
  lemma Deterministic(threads: nat, sizes: Sizes, start: nat, modulus: Positive, steps: seq<Action>, i: nat, c: nat)
    requires threads >= 1 && start < modulus && modulus >= 2
    requires i < threads && i < |sizes.starts| && c < sizes.columns
    requires Run(Next, Initial(threads, sizes, start, modulus), steps).Some?
    ensures var s := Run(Next, Initial(threads, sizes, start, modulus), steps).value;
      && |s.pcs| == threads && s.sizes == sizes
      && (Finished(s, i) ==> Outcome(s, i, c))
  {
    InvHolds(threads, sizes, start, modulus, steps);
    SetupHolds(threads, sizes, start, modulus, steps);
    hide Inv, Next, Outcome;
    var s := Run(Next, Initial(threads, sizes, start, modulus), steps).value;
    if Finished(s, i) { FinishedOutcome(s, i, c); }
  }

  lemma SetupHolds(threads: nat, sizes: Sizes, start: nat, modulus: Positive, steps: seq<Action>)
    ensures var r := Run(Next, Initial(threads, sizes, start, modulus), steps);
      r.Some? ==> |r.value.pcs| == threads && r.value.sizes == sizes
  {
    Invariance(Next, (s: State) => |s.pcs| == threads && s.sizes == sizes,
               Initial(threads, sizes, start, modulus), steps);
  }

  /** What the call of barrier_wait in generation g returns to thread t. */
  ghost predicate StatusesOk(s: State)
  {
    && |s.statuses| == |s.pcs|
    && forall t | 0 <= t < |s.pcs| :: ThreadStatusesOk(s.sizes.variant, s.barrier.leaders, t, s.statuses[t])
  }

  ghost predicate ThreadStatusesOk(variant: Variant, leaders: seq<nat>, t: nat, statuses: seq<int>)
  {
    && |statuses| <= |leaders|
    && forall g | 0 <= g < |statuses| :: statuses[g] == if variant.Repaired? && leaders[g] == t then -1 else 0
  }

  ghost predicate StatusInv(s: State)
  {
    && Inv(s) && B.LeadersLeft(s.barrier) && StatusesOk(s)
    && forall t | 0 <= t < |s.pcs| :: |s.statuses[t]| == Returned(s.pcs[t])
  }

  lemma ThreadsStay(s: State, a: Action)
    requires Next(s, a).Some?
    ensures |Next(s, a).value.pcs| == |s.pcs| && Next(s, a).value.sizes == s.sizes
  {
  }

  /** The barrier lets thread `a.thread` return. */
  predicate LetsReturn(s: State, a: B.Action)
    requires Next(s, Barrier(a)).Some?
  {
    var b := B.Next(s.barrier, a).value;
    !a.Spurious? && |b.threads| == |s.pcs| && b.threads[a.thread].place.Outside?
  }

  /** The call that a thread returns from is that of the generation it has arrived in, and it leads there
      just when it returns at once. */
  lemma ReturnsFromOwn(s: State, a: B.Action)
    requires Inv(s) && B.LeadersLeft(s.barrier) && Next(s, Barrier(a)).Some? && LetsReturn(s, a)
    ensures var b, g := Next(s, Barrier(a)).value.barrier, Returned(s.pcs[a.thread]);
      g < |b.leaders| && (b.leaders[g] == a.thread <==> a.Arrive?)
  {
    assert ThreadInv(s, a.thread) && B.ThreadInv(s.barrier, a.thread);
    hide ColumnsOk, IncrementsOk;
    if a.Resume? { B.TestIsExact(s.barrier, a.thread); }
  }

  lemma OneMoreStatus(variant: Variant, leaders: seq<nat>, t: nat, statuses: seq<int>, status: int)
    requires ThreadStatusesOk(variant, leaders, t, statuses) && |statuses| < |leaders|
    requires status == if variant.Repaired? && leaders[|statuses|] == t then -1 else 0
    ensures ThreadStatusesOk(variant, leaders, t, statuses + [status])
  {
  }

  lemma MoreLeaders(variant: Variant, leaders: seq<nat>, more: seq<nat>, t: nat, statuses: seq<int>)
    requires ThreadStatusesOk(variant, leaders, t, statuses) && leaders <= more
    ensures ThreadStatusesOk(variant, more, t, statuses)
  {
  }

  /** What a step does to the positions and the statuses. */
  lemma StatusEffect(s: State, a: Action, u: nat)
    requires Inv(s) && Next(s, a).Some? && u < |s.pcs| && (a.Local? || u != a.action.thread || !LetsReturn(s, a.action))
    ensures var r := Next(s, a).value;
      && |r.pcs| == |r.statuses| == |s.pcs| && s.barrier.leaders <= r.barrier.leaders
      && r.statuses[u] == s.statuses[u] && Returned(r.pcs[u]) == Returned(s.pcs[u])
  {
    hide B.Exact, ThreadInv, IncrementsOk;
  }

  lemma ReturnEffect(s: State, a: B.Action)
    requires Inv(s) && Next(s, Barrier(a)).Some? && LetsReturn(s, a)
    ensures var r, t := Next(s, Barrier(a)).value, a.thread;
      && |r.pcs| == |r.statuses| == |s.pcs| && s.barrier.leaders <= r.barrier.leaders
      && r.statuses[t] == s.statuses[t] + [Returns(s.sizes.variant, a.Arrive?)]
      && Returned(r.pcs[t]) == Returned(s.pcs[t]) + 1
  {
    assert ThreadInv(s, a.thread);
    hide B.Exact, ColumnsOk, IncrementsOk;
  }

  lemma ThreadStatusStep(s: State, a: Action, u: nat)
    requires StatusInv(s) && Next(s, a).Some? && u < |s.pcs|
    ensures var r := Next(s, a).value;
      && |r.pcs| == |r.statuses| == |s.pcs| && r.sizes == s.sizes && |r.statuses[u]| == Returned(r.pcs[u])
      && ThreadStatusesOk(s.sizes.variant, r.barrier.leaders, u, r.statuses[u])
  {
    var r := Next(s, a).value;
    hide Inv, ThreadStatusesOk, LetsReturn;
    if a.Local? || u != a.action.thread || !LetsReturn(s, a.action) {
      StatusEffect(s, a, u);
      MoreLeaders(s.sizes.variant, s.barrier.leaders, r.barrier.leaders, u, s.statuses[u]);
    } else {
      ReturnEffect(s, a.action);
      ReturnsFromOwn(s, a.action);
      MoreLeaders(s.sizes.variant, s.barrier.leaders, r.barrier.leaders, u, s.statuses[u]);
      OneMoreStatus(s.sizes.variant, r.barrier.leaders, u, s.statuses[u], Returns(s.sizes.variant, a.action.Arrive?));
    }
  }

  lemma StatusStep(s: State, a: Action)
    requires StatusInv(s) && Next(s, a).Some?
    ensures StatusInv(Next(s, a).value)
  {
    InvStep(s, a);
    if a.Barrier? { B.LeadersLeftStep(s.barrier, a.action); }
    var r := Next(s, a).value;
    ThreadsStay(s, a);
    hide Inv, B.LeadersLeft, ThreadStatusesOk;
    forall u: nat | u < |s.pcs|
      ensures |r.statuses| == |r.pcs| && |r.statuses[u]| == Returned(r.pcs[u])
      ensures ThreadStatusesOk(s.sizes.variant, r.barrier.leaders, u, r.statuses[u])
    {
      ThreadStatusStep(s, a, u);
    }
  }

  /** In every run: a thread has been given one status for each call that it has returned from, -1 just
      for the calls in which it led, when the leader's -1 is kept, and otherwise 0. */
  lemma StatusesAreExact(
    threads: nat, sizes: Sizes, start: nat, modulus: Positive, steps: seq<Action>, i: nat, g: nat)
    requires threads >= 1 && start < modulus && modulus >= 2 && i < threads
    requires Run(Next, Initial(threads, sizes, start, modulus), steps).Some?
    ensures var s := Run(Next, Initial(threads, sizes, start, modulus), steps).value;
      && |s.pcs| == |s.statuses| == threads && |s.statuses[i]| == Returned(s.pcs[i]) <= |s.barrier.leaders|
      && (g < |s.statuses[i]| ==>
            s.statuses[i][g] == if sizes.variant.Repaired? && s.barrier.leaders[g] == i then -1 else 0)
  {
    var s := Initial(threads, sizes, start, modulus);
    InvHolds(threads, sizes, start, modulus, []);
    assert Run(Next, s, []) == Some(s);
    assert StatusInv(s);
    hide Next, StatusInv;
    forall t, a | StatusInv(t) && Next(t, a).Some? ensures StatusInv(Next(t, a).value) { StatusStep(t, a); }
    Invariance(Next, StatusInv, s, steps);
    SetupHolds(threads, sizes, start, modulus, steps);
    var r := Run(Next, s, steps).value;
    assert StatusInv(r);
    StatusInvSays(r, i);
  }

  lemma StatusInvSays(s: State, i: nat)
    requires StatusInv(s) && i < |s.pcs|
    ensures |s.statuses| == |s.pcs| && |s.statuses[i]| == Returned(s.pcs[i])
    ensures ThreadStatusesOk(s.sizes.variant, s.barrier.leaders, i, s.statuses[i])
  {
  }

  /** As written the leader is never told that it leads: no increment ever changes. */
  lemma AsWrittenNeverBumps(threads: nat, sizes: Sizes, start: nat, modulus: Positive, steps: seq<Action>, i: nat)
    requires threads >= 1 && start < modulus && modulus >= 2 && i < threads && sizes.variant.AsWritten?
    requires Run(Next, Initial(threads, sizes, start, modulus), steps).Some?
    ensures var s := Run(Next, Initial(threads, sizes, start, modulus), steps).value;
      |s.increment| == threads && s.increment[i] == i
  {
    InvHolds(threads, sizes, start, modulus, steps);
    SetupHolds(threads, sizes, start, modulus, steps);
    var s := Run(Next, Initial(threads, sizes, start, modulus), steps).value;
    forall t | 0 <= t < |s.pcs| ensures !s.pcs[t].Bump? { assert ThreadInv(s, t); }
  }

  lemma {:induction false} TotalClosedForm(t: nat, k: nat)
    ensures 2 * Total(Repaired, t, k) == 2 * (k * t) + k * (k - 1)
    ensures Total(AsWritten, t, k) == k * t
  {
    if k > 0 {
      TotalClosedForm(t, k - 1);
      Distribute(t, k - 1, 1);
      assert k * (k - 1) == (k - 1) * (k - 2) + 2 * (k - 1);
    }
  }

  /** Of two runs of the same program, one of each variant, in states `w` and `r`: a thread that has finished
      in both holds different columns exactly when it went through two rounds or more, each of which
      adds something. */
  lemma VariantsDiffer(w: State, r: State, i: nat, c: nat)
    requires Inv(w) && Inv(r) && w.sizes == r.sizes.(variant := AsWritten) && r.sizes.variant.Repaired?
    requires i < |w.pcs| && i < |r.pcs| && Finished(w, i) && Finished(r, i) && c < r.sizes.columns
    ensures |w.arr[i]| == |r.arr[i]| == r.sizes.columns
    ensures w.arr[i][c] != r.arr[i][c] <==> r.sizes.inLoops >= 1 && r.sizes.outLoops >= OutLoop(r.sizes, i, 2)
  {
    hide B.Exact, IncrementsOk;
    assert ThreadInv(w, i) && ThreadInv(r, i);
    TotalsDiffer(r.sizes.inLoops, i, Rounds(r.sizes, i));
  }

  lemma TotalsDiffer(inLoops: nat, t: nat, k: nat)
    ensures inLoops * Total(AsWritten, t, k) != inLoops * Total(Repaired, t, k) <==> inLoops >= 1 && k >= 2
  {
    var a, r := Total(AsWritten, t, k), Total(Repaired, t, k);
    RepairedTotalIsMore(t, k);
    Distribute(inLoops, a, r - a);
    if inLoops >= 1 && k >= 2 { PositiveProduct(inLoops, r - a); }
  }

  lemma PositiveProduct(x: int, y: int)
    requires x > 0 && y > 0
    ensures x * y > 0
  {
  }

  lemma {:induction false} RepairedTotalIsMore(t: nat, k: nat)
    ensures k >= 2 ==> Total(Repaired, t, k) > Total(AsWritten, t, k)
    ensures k < 2 ==> Total(Repaired, t, k) == Total(AsWritten, t, k)
  {
    if k > 0 { RepairedTotalIsMore(t, k - 1); }
  }

  /** Every thread has finished. */
  ghost predicate AllFinished(s: State)
  {
    forall t | 0 <= t < |s.pcs| :: Finished(s, t)
  }

  predicate CanAdvance(s: State, t: nat)
    requires t < |s.pcs|
  {
    Next(s, Local(t)).Some? || (AtBarrier(s.sizes, t, s.pcs[t]) && B.CanMove(s.barrier, t))
  }

  /** Every thread goes through the same number of rounds. */
  ghost predicate SameRounds(sizes: Sizes, threads: nat)
  {
    forall t: nat, u: nat | t < threads && u < threads :: Rounds(sizes, t) == Rounds(sizes, u)
  }

  /** Until every thread has finished some thread can take a step other than a vain wakeup. */
  lemma NoDeadlock(s: State)
    requires Inv(s) && SameRounds(s.sizes, |s.pcs|) && exists t :: 0 <= t < |s.pcs| && !Finished(s, t)
    ensures exists t: nat :: t < |s.pcs| && CanAdvance(s, t)
  {
    var t := Straggler(s);
    assert ThreadInv(s, t) && B.ThreadInv(s.barrier, t);
    if s.barrier.threads[t].place.Waiting? {
      B.TestIsExact(s.barrier, t);
    }
    assert CanAdvance(s, t);
  }

  /** A thread that is not waiting for others: it has work to do, or is free to arrive or to leave. */
  lemma Straggler(s: State) returns (t: nat)
    requires Inv(s) && SameRounds(s.sizes, |s.pcs|) && exists t :: 0 <= t < |s.pcs| && !Finished(s, t)
    ensures t < |s.pcs| && !Finished(s, t) && t !in s.barrier.arriving
  {
    var u: nat :| u < |s.pcs| && !Finished(s, u);
    AllBelow(s.barrier.arriving, |s.pcs|);
    var v: nat :| v < |s.pcs| && v !in s.barrier.arriving;
    assert ThreadInv(s, u) && ThreadInv(s, v) && B.ThreadInv(s.barrier, u) && B.ThreadInv(s.barrier, v);
    assert Rounds(s.sizes, u) == Rounds(s.sizes, v);
    t := if u in s.barrier.arriving then v else u;
  }

  // ---------------------------------------------------------------- termination

  /** The steps of a working phase from here on. */
  function Ticks(sizes: Sizes, inner: nat, column: nat): nat
    decreases sizes.inLoops - inner
  {
    if inner >= sizes.inLoops then 0
    else (if column < sizes.columns then sizes.columns - column else 0) + 1 + Ticks(sizes, inner + 1, 0)
  }

  function Rest(sizes: Sizes, threads: nat, rounds: nat, k: nat): nat
    decreases rounds - k
  {
    if k >= rounds then 0 else Ticks(sizes, 0, 0) + threads + 8 + Rest(sizes, threads, rounds, k + 1)
  }

  /** A thread's position: its place in thread_routine, whether it is outside the barrier, and the
      rounds that it goes through. */
  datatype Position = Position(pc: Pc, outside: bool, rounds: nat)

  function Left(sizes: Sizes, threads: nat, p: Position): nat
  {
    (if p.outside then 1 else 0) +
    (match p.pc
     case First(k) => Rest(sizes, threads, p.rounds, k)
     case Work(k, inner, column) => Ticks(sizes, inner, column) + threads + 6 + Rest(sizes, threads, p.rounds, k + 1)
     case Second(k) => threads + 4 + Rest(sizes, threads, p.rounds, k + 1)
     case Bump(k, index) =>
       (if index < threads then threads - index else 0) + 1 + Rest(sizes, threads, p.rounds, k + 1))
  }

  function Weight(sizes: Sizes, threads: nat): Position -> nat
  {
    p => Left(sizes, threads, p)
  }

  function Positions(s: State): (r: seq<Position>)
    requires |s.pcs| == |s.barrier.threads|
    ensures |r| == |s.pcs|
  {
    seq(|s.pcs|, t requires 0 <= t < |s.pcs| =>
      Position(s.pcs[t], s.barrier.threads[t].place.Outside?, Rounds(s.sizes, t)))
  }

  /** What is left of the whole program. */
  function Remaining(s: State): nat
    requires |s.pcs| == |s.barrier.threads|
  {
    Sum(Positions(s), Weight(s.sizes, |s.pcs|))
  }

  lemma OneMoves(s: State, r: State, t: nat)
    requires |s.pcs| == |s.barrier.threads| == |r.pcs| == |r.barrier.threads| && t < |s.pcs| && r.sizes == s.sizes
    requires Positions(r) == Positions(s)[t := Positions(r)[t]]
    requires Left(s.sizes, |s.pcs|, Positions(r)[t]) < Left(s.sizes, |s.pcs|, Positions(s)[t])
    ensures Remaining(r) < Remaining(s)
  {
    SumUpdate(Positions(s), t, Positions(r)[t], Weight(s.sizes, |s.pcs|));
  }

  lemma LocalProgresses(s: State, t: nat)
    requires Inv(s) && Next(s, Local(t)).Some?
    ensures var r := Next(s, Local(t)).value; |r.pcs| == |r.barrier.threads| && Remaining(r) < Remaining(s)
  {
    hide B.Exact, IncrementsOk, ColumnsOk;
    assert ThreadInv(s, t);
    OneMoves(s, Next(s, Local(t)).value, t);
  }

  lemma BarrierProgresses(s: State, a: B.Action)
    requires Inv(s) && Next(s, Barrier(a)).Some?
    requires a.Arrive? || (a.Resume? && B.Next(s.barrier, a).value.threads[a.thread].place.Outside?)
    ensures var r := Next(s, Barrier(a)).value; |r.pcs| == |r.barrier.threads| && Remaining(r) < Remaining(s)
  {
    hide B.Exact, IncrementsOk, ColumnsOk;
    var r := Next(s, Barrier(a)).value;
    assert ThreadInv(s, a.thread);
    forall u: nat | u < |s.pcs| && u != a.thread ensures Positions(r)[u] == Positions(s)[u] {}
    OneMoves(s, r, a.thread);
  }

  /** A step that brings the end nearer, until every thread has finished. */
  lemma SomeProgress(s: State) returns (a: Action)
    requires Inv(s) && SameRounds(s.sizes, |s.pcs|) && exists t :: 0 <= t < |s.pcs| && !Finished(s, t)
    ensures Next(s, a).Some?
    ensures var r := Next(s, a).value; |r.pcs| == |r.barrier.threads| && Remaining(r) < Remaining(s)
  {
    NoDeadlock(s);
    var t: nat :| t < |s.pcs| && CanAdvance(s, t);
    if Next(s, Local(t)).Some? {
      a := Local(t);
      LocalProgresses(s, t);
    } else {
      var b := if B.Next(s.barrier, B.Arrive(t)).Some? then B.Arrive(t) else B.Resume(t);
      a := Barrier(b);
      BarrierProgresses(s, b);
    }
  }

  /** From every reachable state the program can run to its end: no interleaving leads astray. */
  lemma {:induction false} RunsToEnd(s: State) returns (steps: seq<Action>)
    requires Inv(s) && SameRounds(s.sizes, |s.pcs|)
    ensures var r := Run(Next, s, steps);
      r.Some? && AllFinished(r.value)
    decreases Remaining(s)
  {
    hide B.Exact, ThreadInv, IncrementsOk;
    steps := [];
    if t :| 0 <= t < |s.pcs| && !Finished(s, t) {
      var a := SomeProgress(s);
      InvStep(s, a);
      ThreadsStay(s, a);
      var more := RunsToEnd(Next(s, a).value);
      steps := [a] + more;
      assert steps[1..] == more;
    }
  }

  /** Threads that have all finished have called barrier_wait equally often. */
  lemma FinishedTogether(s: State)
    requires Inv(s) && AllFinished(s)
    ensures SameRounds(s.sizes, |s.pcs|)
  {
    forall t: nat | t < |s.pcs| ensures 2 * Rounds(s.sizes, t) == s.barrier.Generation() {
      assert ThreadInv(s, t) && Finished(s, t);
      OutsideIsCurrent(s, t);
    }
  }

  /** Whatever `out_loop` starts with: all threads can finish exactly when they all go through the same
      number of rounds; otherwise some thread waits for ever for one that has finished. */
  lemma AllFinishIff(threads: nat, sizes: Sizes, start: nat, modulus: Positive)
    requires threads >= 1 && start < modulus && modulus >= 2
    ensures
      (exists steps :: var r := Run(Next, Initial(threads, sizes, start, modulus), steps);
         r.Some? && AllFinished(r.value))
      <==> SameRounds(sizes, threads)
  {
    var s := Initial(threads, sizes, start, modulus);
    hide Next, Inv, AllFinished, SameRounds;
    if SameRounds(sizes, threads) {
      InvHolds(threads, sizes, start, modulus, []);
      assert Run(Next, s, []) == Some(s);
      var steps := RunsToEnd(s);
      assert AllFinished(Run(Next, s, steps).value);
    }
    forall steps | Run(Next, s, steps).Some? && AllFinished(Run(Next, s, steps).value)
      ensures SameRounds(sizes, threads)
    {
      InvHolds(threads, sizes, start, modulus, steps);
      SetupHolds(threads, sizes, start, modulus, steps);
      FinishedTogether(Run(Next, s, steps).value);
    }
  }
}
