/** The reusable barrier of chap7-RealCode/barrier/barrier.cxx. */
module Barrier {
  import opened Machines
  import opened Threads
  import opened FiniteSets
  import opened Modular

  /** The fields of barrier_t; `modulus` is the range of the unsigned long `cycle`. */
  datatype Fields = Fields(threshold: int, counter: int, cycle: nat, modulus: Positive)

  /** What barrier_wait does before it first releases the mutex: pass as leader, or wait for
      the cycle that it read to end. */
  datatype Entry = Lead | Block(cycle: nat)

  /** `cycle++` on an unsigned integer of range `modulus`. */
  function Increment(cycle: nat, modulus: Positive): nat
  {
    if cycle + 1 == modulus then 0 else cycle + 1
  }

  function Enter(b: Fields): (Fields, Entry)
  {
    if b.counter - 1 == 0 then
      (b.(counter := b.threshold, cycle := Increment(b.cycle, b.modulus)), Lead)
    else
      (b.(counter := b.counter - 1), Block(b.cycle))
  }

  /** The value of `cycle` after `g` generations. */
  function CycleAt(start: nat, g: nat, modulus: Positive): nat
  {
    if g == 0 then start else Increment(CycleAt(start, g - 1, modulus), modulus)
  }

  lemma {:induction false} CycleIsRemainder(start: nat, g: nat, modulus: Positive)
    requires start < modulus
    ensures CycleAt(start, g, modulus) == (start + g) % modulus
  {
    if g == 0 {
      SmallMod(start, modulus);
    } else {
      CycleIsRemainder(start, g - 1, modulus);
      NextRemainder(start + (g - 1), modulus);
    }
  }

  /** The barrier object, with barrier_wait cut at the points where it releases the mutex. `arrived`
      are the threads that have arrived in the current generation, the one after `generation` others. */
  class BarrierObject {
    const modulus: Positive
    var threshold: int
    var counter: int
    var cycle: nat
    ghost const start: nat
    ghost var generation: nat
    ghost var arrived: set<nat>

    function View(): Fields
      reads this
    {
      Fields(threshold, counter, cycle, modulus)
    }

    ghost predicate Valid()
      reads this
    {
      counter + |arrived| == threshold && start < modulus && cycle == CycleAt(start, generation, modulus)
    }

    /** barrier_init does not set `cycle`: it keeps whatever the memory held, any value of its type. */
    constructor (count: int, modulus: Positive, memory: nat)
      requires memory < modulus
      ensures Valid() && View() == Fields(count, count, memory, modulus)
      ensures arrived == {} && generation == 0 && start == memory
    {
      this.modulus := modulus;
      threshold, counter := count, count;
      cycle, start := memory, memory;
      generation, arrived := 0, {};
    }

    /** From locking the mutex to unlocking it as leader or waiting: the thread whose arrival makes up
        the threshold leads and begins a new generation; every other one saves its own's cycle. */
    method Arrive(ghost me: nat) returns (entry: Entry)
      requires Valid() && me !in arrived
      modifies this
      ensures Valid() && (View(), entry) == Enter(old(View()))
      ensures threshold == old(threshold) && (entry == Lead <==> |old(arrived)| + 1 == threshold)
      ensures entry == Lead ==> arrived == {} && generation == old(generation) + 1
      ensures entry != Lead ==>
        && arrived == old(arrived) + {me} && generation == old(generation)
        && entry == Block(CycleAt(start, generation, modulus))
    {
      var saved := cycle;
      counter := counter - 1;
      if counter == 0 {
        cycle := if cycle + 1 == modulus then 0 else cycle + 1;
        counter := threshold;
        generation, arrived := generation + 1, {};
        entry := Lead;
      } else {
        arrived := arrived + {me};
        entry := Block(saved);
      }
    }

    /** barrier_destroy's test: somebody has arrived in the current generation. */
    method InUse() returns (busy: bool)
      requires Valid()
      ensures busy <==> arrived != {}
    {
      busy := counter != threshold;
    }

    /** The test of the wait loop, made each time the wait returns, by a thread that arrived in
        generation `mine`: it waits on exactly when the generations since are a multiple of `modulus`,
        be it none, as it should, or one or more wraps of `cycle`. */
    method MustWait(saved: nat, ghost mine: nat) returns (again: bool)
      requires Valid() && mine <= generation && saved == CycleAt(start, mine, modulus)
      ensures again <==> (generation - mine) % modulus == 0
    {
      again := saved == cycle;
      CycleIsRemainder(start, generation, modulus);
      CycleIsRemainder(start, mine, modulus);
      SameRemainder(start + generation, start + mine, modulus);
    }
  }

  // ---------------------------------------------------------------- the protocol

  /** A thread is outside barrier_wait, or waits in it: it saved `cycle` on arrival, in generation
      `generation` (a history variable, never reduced), and is awake once its wait has returned. */
  datatype Place = Outside | Waiting(cycle: nat, generation: nat, awake: bool)

  /** `arrivals` counts the calls of barrier_wait that the thread has begun. */
  datatype Thread = Thread(place: Place, arrivals: nat)

  /** `completed` and `leaders` record the threads, and the thread that broadcast, of every
      completed generation; `arriving` those that arrived in the current one. */
  datatype State = State(
    fields: Fields,
    threads: seq<Thread>,
    start: nat,
    completed: seq<set<nat>>,
    leaders: seq<nat>,
    arriving: set<nat>)
  {
    function Generation(): nat { |completed| }
  }

  datatype Action = Arrive(thread: nat) | Resume(thread: nat) | Spurious(thread: nat)

  function Initial(threads: nat, threshold: int, start: nat, modulus: Positive): State
  {
    State(Fields(threshold, threshold, start, modulus), seq(threads, _ => Thread(Outside, 0)), start, [], [], {})
  }

  function Wake(t: Thread): Thread
  {
    if t.place.Waiting? then t.(place := t.place.(awake := true)) else t
  }

  function Next(s: State, a: Action): Option<State>
  {
    if a.thread >= |s.threads| then None else
    var t := s.threads[a.thread];
    match a
    case Arrive(i) =>
      if !t.place.Outside? then None else
      var (fields, entry) := Enter(s.fields);
      (match entry
       case Lead =>
         Some(s.(fields := fields,
                 threads := Broadcast(s.threads[i := Thread(Outside, t.arrivals + 1)], Wake),
                 completed := s.completed + [s.arriving + {i}],
                 leaders := s.leaders + [i],
                 arriving := {}))
       case Block(saved) =>
         Some(s.(fields := fields,
                 threads := s.threads[i := Thread(Waiting(saved, s.Generation(), false), t.arrivals + 1)],
                 arriving := s.arriving + {i})))
    case Resume(i) =>
      if !(t.place.Waiting? && t.place.awake) then None else
      if t.place.cycle == s.fields.cycle then
        Some(s.(threads := s.threads[i := t.(place := t.place.(awake := false))]))
      else
        Some(s.(threads := s.threads[i := t.(place := Outside)]))
    case Spurious(i) =>
      if !(t.place.Waiting? && !t.place.awake) then None else
      Some(s.(threads := s.threads[i := Wake(t)]))
  }

  // ---------------------------------------------------------------- any number of threads

  ghost predicate ThreadInv(s: State, i: nat)
    requires i < |s.threads|
  {
    var g := s.Generation();
    match s.threads[i].place
    case Outside => i !in s.arriving
    case Waiting(cycle, generation, awake) =>
      && generation <= g
      && cycle == CycleAt(s.start, generation, s.fields.modulus)
      && (generation == g <==> i in s.arriving)
      && (generation < g ==> i in s.completed[generation])
      && (!awake ==> cycle == s.fields.cycle)
  }

  /** Holds whatever the number of threads and the range of `cycle`. */
  ghost predicate Inv(s: State)
  {
    && 1 <= s.fields.counter
    && s.fields.counter + |s.arriving| == s.fields.threshold
    && s.fields.cycle == CycleAt(s.start, s.Generation(), s.fields.modulus)
    && (forall i | i in s.arriving :: i < |s.threads|)
    && (forall i | 0 <= i < |s.threads| :: ThreadInv(s, i))
    && |s.leaders| == |s.completed|
    && (forall g | 0 <= g < |s.completed| ::
          |s.completed[g]| == s.fields.threshold && s.leaders[g] in s.completed[g])
  }

  lemma LeadKeepsInv(s: State, i: nat)
    requires Inv(s) && Next(s, Arrive(i)).Some? && s.fields.counter == 1
    ensures Inv(Next(s, Arrive(i)).value)
  {
    var r := Next(s, Arrive(i)).value;
    assert ThreadInv(s, i);
    assert |s.arriving + {i}| == s.fields.threshold;
    assert CycleAt(s.start, r.Generation(), s.fields.modulus) == r.fields.cycle;
    forall j | 0 <= j < |r.threads| ensures ThreadInv(r, j) {
      assert ThreadInv(s, j);
      assert j != i ==> r.threads[j] == Wake(s.threads[j]);
    }
  }

  lemma BlockKeepsInv(s: State, i: nat)
    requires Inv(s) && Next(s, Arrive(i)).Some? && s.fields.counter != 1
    ensures Inv(Next(s, Arrive(i)).value)
  {
    var r := Next(s, Arrive(i)).value;
    assert ThreadInv(s, i);
    assert |r.arriving| == |s.arriving| + 1;
    forall j | 0 <= j < |r.threads| ensures ThreadInv(r, j) {
      assert ThreadInv(s, j);
    }
  }

  lemma InvStep(s: State, a: Action)
    requires Inv(s) && Next(s, a).Some?
    ensures Inv(Next(s, a).value)
  {
    var i, r := a.thread, Next(s, a).value;
    if a.Arrive? {
      if s.fields.counter == 1 { LeadKeepsInv(s, i); } else { BlockKeepsInv(s, i); }
    } else {
      forall j | 0 <= j < |r.threads| ensures ThreadInv(r, j) {
        assert ThreadInv(s, j);
      }
    }
  }

  lemma InvHolds(threads: nat, threshold: int, start: nat, modulus: Positive, steps: seq<Action>)
    requires threshold >= 1 && start < modulus
    ensures var r := Run(Next, Initial(threads, threshold, start, modulus), steps); r.Some? ==> Inv(r.value)
  {
    var s := Initial(threads, threshold, start, modulus);
    forall t, a | Inv(t) && Next(t, a).Some? ensures Inv(Next(t, a).value) { InvStep(t, a); }
    Invariance(Next, Inv, s, steps);
  }

  /** In every run, with any number of threads and any range of `cycle`: a waiter that leaves
      does so after its own generation, of exactly `threshold` threads, has completed. */
  lemma NoEarlyRelease(threads: nat, threshold: int, start: nat, modulus: Positive, steps: seq<Action>, i: nat)
    requires threshold >= 1 && start < modulus
    requires var r := Run(Next, Initial(threads, threshold, start, modulus), steps);
      r.Some? && Next(r.value, Resume(i)).Some? && Next(r.value, Resume(i)).value.threads[i].place.Outside?
    ensures var s := Run(Next, Initial(threads, threshold, start, modulus), steps).value;
      var g := s.threads[i].place.generation;
      g < s.Generation() && i in s.completed[g] && |s.completed[g]| == s.fields.threshold
  {
    InvHolds(threads, threshold, start, modulus, steps);
    var s := Run(Next, Initial(threads, threshold, start, modulus), steps).value;
    assert ThreadInv(s, i);
  }

  /** The waiters of the generation that is not complete. */
  function CurrentWaiters(s: State): set<nat>
  {
    set i | 0 <= i < |s.threads| && s.threads[i].place.Waiting? && s.threads[i].place.generation == s.Generation()
  }

  /** In every run: the counter and the waiters of the current generation make up the threshold,
      and every completed generation has `threshold` arrivals and one leader among them. */
  lemma GenerationsAreFull(threads: nat, threshold: int, start: nat, modulus: Positive, steps: seq<Action>)
    requires threshold >= 1 && start < modulus
    requires Run(Next, Initial(threads, threshold, start, modulus), steps).Some?
    ensures var s := Run(Next, Initial(threads, threshold, start, modulus), steps).value;
      && s.fields.counter >= 1
      && s.fields.counter + |CurrentWaiters(s)| == s.fields.threshold
      && |s.leaders| == s.Generation()
      && forall g | 0 <= g < s.Generation() ::
           |s.completed[g]| == s.fields.threshold && s.leaders[g] in s.completed[g]
  {
    InvHolds(threads, threshold, start, modulus, steps);
    var s := Run(Next, Initial(threads, threshold, start, modulus), steps).value;
    assert CurrentWaiters(s) == s.arriving by {
      forall i: nat | i < |s.threads| ensures i in CurrentWaiters(s) <==> i in s.arriving {
        assert ThreadInv(s, i);
      }
    }
  }

  /** How many of the generations thread `i` took part in. */
  function TimesIn(generations: seq<set<nat>>, i: nat): nat
  {
    if generations == [] then 0
    else TimesIn(generations[..|generations| - 1], i) + (if i in generations[|generations| - 1] then 1 else 0)
  }

  /** Every call of barrier_wait is one arrival in one generation. */
  ghost predicate Counted(s: State)
  {
    forall i | 0 <= i < |s.threads| ::
      s.threads[i].arrivals == TimesIn(s.completed, i) + (if i in s.arriving then 1 else 0)
  }

  lemma CountedStep(s: State, a: Action)
    requires Inv(s) && Counted(s) && Next(s, a).Some?
    ensures Counted(Next(s, a).value)
  {
    var r := Next(s, a).value;
    assert ThreadInv(s, a.thread);
    if a.Arrive? && s.fields.counter == 1 {
      assert r.completed[..|r.completed| - 1] == s.completed;
    }
  }

  /** In every run the calls a thread has begun are the completed generations it is recorded in, and
      the current one if it has arrived: no thread arrives twice in one generation. */
  lemma ArrivalsAreCounted(threads: nat, threshold: int, start: nat, modulus: Positive, steps: seq<Action>, i: nat)
    requires threshold >= 1 && start < modulus
    requires Run(Next, Initial(threads, threshold, start, modulus), steps).Some?
    ensures var s := Run(Next, Initial(threads, threshold, start, modulus), steps).value;
      i < |s.threads| ==> s.threads[i].arrivals == TimesIn(s.completed, i) + (if i in s.arriving then 1 else 0)
  {
    var s, inv := Initial(threads, threshold, start, modulus), (s: State) => Inv(s) && Counted(s);
    assert inv(s);
    hide Inv, Next;
    forall t, a | inv(t) && Next(t, a).Some? ensures inv(Next(t, a).value) {
      InvStep(t, a);
      CountedStep(t, a);
    }
    Invariance(Next, inv, s, steps);
  }

  /** barrier_init accepts a count of zero or less, but then no generation ever completes and no
      waiter can leave. */
  lemma NeverOpensWithoutThreshold(threads: nat, threshold: int, start: nat, modulus: Positive, steps: seq<Action>)
    requires threshold <= 0
    ensures var r := Run(Next, Initial(threads, threshold, start, modulus), steps);
      r.Some? ==>
        && r.value.Generation() == 0
        && forall i | 0 <= i < |r.value.threads| && r.value.threads[i].place.Waiting? ::
             r.value.threads[i].place.cycle == r.value.fields.cycle
  {
    var inv := (s: State) => s.fields.counter <= 0 && s.completed == [] && s.fields.cycle == start
      && forall i | 0 <= i < |s.threads| && s.threads[i].place.Waiting? :: s.threads[i].place.cycle == start;
    Invariance(Next, inv, Initial(threads, threshold, start, modulus), steps);
  }

  /** barrier_destroy reports EBUSY exactly when some thread waits in the current generation;
      waiters of completed generations that have not left yet do not count, as FreeTooSoonRun shows. */
  lemma BusyIffSomebodyWaits(s: State)
    requires Inv(s)
    ensures s.fields.counter != s.fields.threshold <==> CurrentWaiters(s) != {}
  {
    forall i: nat | i < |s.threads| ensures i in CurrentWaiters(s) <==> i in s.arriving {
      assert ThreadInv(s, i);
    }
    assert CurrentWaiters(s) == s.arriving;
  }

  // ---------------------------------------------------------------- at most `threshold` threads

  /** With at most `threshold` threads every waiter is of the current generation or the one before,
      and every thread has arrived once in each completed generation. */
  ghost predicate Exact(s: State)
  {
    && Inv(s)
    && |s.threads| <= s.fields.threshold
    && s.fields.modulus >= 2
    && (s.Generation() > 0 ==> |s.threads| == s.fields.threshold)
    && s.start < s.fields.modulus
    && forall i | 0 <= i < |s.threads| ::
         && s.threads[i].arrivals == s.Generation() + (if i in s.arriving then 1 else 0)
         && (s.threads[i].place.Waiting? ==> s.threads[i].place.generation >= s.Generation() - 1)
  }

  /** When one arrival is missing, every other thread waits in the current generation. */
  lemma LastArrival(s: State, i: nat)
    requires Exact(s) && i < |s.threads| && s.threads[i].place.Outside? && s.fields.counter == 1
    ensures |s.threads| == s.fields.threshold
    ensures forall j: nat | j < |s.threads| && j != i ::
      j in s.arriving && s.threads[j].place.Waiting? && s.threads[j].place.generation == s.Generation()
  {
    assert ThreadInv(s, i);
    var ids := s.arriving + {i};
    assert |ids| == s.fields.threshold;
    AllBelow(ids, |s.threads|);
    forall j: nat | j < |s.threads| && j != i
      ensures j in s.arriving && s.threads[j].place.Waiting? && s.threads[j].place.generation == s.Generation()
    {
      assert ThreadInv(s, j) && j in ids;
    }
  }

  lemma ExactStep(s: State, a: Action)
    requires Exact(s) && Next(s, a).Some?
    ensures Exact(Next(s, a).value)
  {
    InvStep(s, a);
    assert ThreadInv(s, a.thread);
    if a.Arrive? && s.fields.counter == 1 { LastArrival(s, a.thread); }
  }

  lemma ExactHolds(threads: nat, threshold: int, start: nat, modulus: Positive, steps: seq<Action>)
    requires 1 <= threshold && threads <= threshold && start < modulus && modulus >= 2
    ensures var r := Run(Next, Initial(threads, threshold, start, modulus), steps); r.Some? ==> Exact(r.value)
  {
    var s := Initial(threads, threshold, start, modulus);
    forall t, a | Exact(t) && Next(t, a).Some? ensures Exact(Next(t, a).value) { ExactStep(t, a); }
    Invariance(Next, Exact, s, steps);
  }

  /** Two successive generations have different cycles. */
  lemma CycleChanges(start: nat, g: nat, modulus: Positive)
    requires start < modulus && modulus >= 2
    ensures CycleAt(start, g + 1, modulus) != CycleAt(start, g, modulus)
  {
  }

  /** The waiter's own generation is complete, yet its test would send it back to sleep. */
  ghost predicate Trapped(s: State, i: nat)
  {
    && i < |s.threads|
    && s.threads[i].place.Waiting?
    && s.threads[i].place.generation < s.Generation()
    && s.threads[i].place.cycle == s.fields.cycle
  }

  /** The wait loop's test is exact: it holds just while the waiter's own generation is incomplete. */
  lemma TestIsExact(s: State, i: nat)
    requires Exact(s) && i < |s.threads| && s.threads[i].place.Waiting?
    ensures s.threads[i].place.cycle == s.fields.cycle <==> s.threads[i].place.generation == s.Generation()
    ensures !Trapped(s, i)
  {
    assert ThreadInv(s, i);
    var g := s.threads[i].place.generation;
    if g < s.Generation() { CycleChanges(s.start, g, s.fields.modulus); }
  }

  /** In every run with `threshold` threads, a thread leaves the barrier only after every thread
      has arrived as often as it has, and no two threads are ever more than one arrival apart. */
  lemma PhasesAreSeparated(threads: nat, start: nat, modulus: Positive, steps: seq<Action>, i: nat, j: nat)
    requires 1 <= threads && start < modulus && modulus >= 2
    requires Run(Next, Initial(threads, threads, start, modulus), steps).Some?
    ensures var s := Run(Next, Initial(threads, threads, start, modulus), steps).value;
      i < |s.threads| && j < |s.threads| ==>
        && s.threads[i].arrivals <= s.threads[j].arrivals + 1
        && (s.threads[i].place.Outside? ==> s.threads[i].arrivals <= s.threads[j].arrivals)
        && (s.threads[i].place.Waiting? && s.threads[i].place.cycle != s.fields.cycle ==>
              s.threads[i].arrivals <= s.threads[j].arrivals)
  {
    ExactHolds(threads, threads, start, modulus, steps);
    var s := Run(Next, Initial(threads, threads, start, modulus), steps).value;
    if i < |s.threads| && j < |s.threads| {
      assert ThreadInv(s, i);
      if s.threads[i].place.Waiting? { TestIsExact(s, i); }
    }
  }

  predicate CanMove(s: State, i: nat)
  {
    && i < |s.threads|
    && (Next(s, Arrive(i)).Some?
        || (Next(s, Resume(i)).Some? && Next(s, Resume(i)).value.threads[i].place.Outside?))
  }

  /** The barrier never deadlocks: some thread can arrive, or leave. */
  lemma SomeThreadMoves(s: State)
    requires Exact(s) && |s.threads| == s.fields.threshold
    ensures exists i :: CanMove(s, i)
  {
    AllBelow(s.arriving, |s.threads|);
    var i: nat :| i < |s.threads| && i !in s.arriving;
    assert ThreadInv(s, i);
    if s.threads[i].place.Outside? {
      assert CanMove(s, i);
    } else {
      TestIsExact(s, i);
      assert CanMove(s, i);
    }
  }

  /** The leader of a generation does not wait in it. */
  ghost predicate LeadersLeft(s: State)
  {
    && |s.leaders| == |s.completed|
    && forall i | 0 <= i < |s.threads| && s.threads[i].place.Waiting? && s.threads[i].place.generation < |s.leaders| ::
         s.leaders[s.threads[i].place.generation] != i
  }

  lemma LeadersLeftStep(s: State, a: Action)
    requires LeadersLeft(s) && Next(s, a).Some?
    ensures LeadersLeft(Next(s, a).value)
  {
  }

  // ---------------------------------------------------------------- more than `threshold` threads

  /** Thread 0 has waited, unscheduled, since generation 0 while threads 1 .. threshold go round:
      the first k of them have arrived in the current generation. */
  ghost predicate GoingRound(s: State, k: nat, first: bool)
  {
    && Inv(s)
    && 2 <= s.fields.threshold < |s.threads|
    && s.fields.modulus >= 2
    && s.start < s.fields.modulus
    && k <= s.fields.threshold
    && s.threads[0].place == Waiting(s.start, 0, !first)
    && (first <==> s.Generation() == 0)
    && |s.arriving| == (if first then k + 1 else k)
    && (forall i: nat :: i in s.arriving <==> i <= k && (first || i > 0))
    && forall i | k < i <= s.fields.threshold ::
         s.threads[i].place.Outside? ||
         (s.threads[i].place.awake && s.threads[i].place.generation == s.Generation() - 1)
  }

  ghost predicate SameSetup(s: State, r: State)
  {
    && r.start == s.start && |r.threads| == |s.threads|
    && r.fields.threshold == s.fields.threshold && r.fields.modulus == s.fields.modulus
  }

  /** Thread k + 1 leaves the previous generation, unless it has already. */
  lemma NextLeaves(s: State, k: nat, first: bool) returns (steps: seq<Action>, r: State)
    requires GoingRound(s, k, first)
    ensures k + 1 <= s.fields.threshold
    ensures Run(Next, s, steps) == Some(r)
    ensures SameSetup(s, r) && r.Generation() == s.Generation() && r.fields == s.fields
    ensures GoingRound(r, k, first) && r.threads[k + 1].place.Outside?
  {
    steps, r := [], s;
    if s.threads[k + 1].place.Waiting? {
      assert ThreadInv(s, k + 1);
      CycleChanges(s.start, s.Generation() - 1, s.fields.modulus);
      steps, r := [Resume(k + 1)], Next(s, Resume(k + 1)).value;
      InvStep(s, Resume(k + 1));
      assert Run(Next, r, steps[1..]) == Some(r);
    }
  }

  lemma NextBlocks(s: State, k: nat, first: bool)
    requires GoingRound(s, k, first) && k + 1 <= s.fields.threshold && s.threads[k + 1].place.Outside?
    requires s.fields.counter > 1
    ensures var r := Next(s, Arrive(k + 1)); r.Some? && GoingRound(r.value, k + 1, first)
  {
    InvStep(s, Arrive(k + 1));
  }

  /** After the leader's broadcast nobody sleeps, and this generation's waiters are still of it. */
  lemma PlacesAfterLead(s: State, i: nat, j: nat)
    requires Inv(s) && Next(s, Arrive(i)).Some? && s.fields.counter == 1 && j < |s.threads|
    ensures var place := Next(s, Arrive(i)).value.threads[j].place;
      if s.threads[j].place.Outside? then place.Outside? else
      place == s.threads[j].place.(awake := true) && (j in s.arriving ==> place.generation == s.Generation())
  {
    assert ThreadInv(s, j);
  }

  lemma NextLeads(s: State, k: nat, first: bool)
    requires GoingRound(s, k, first) && k + 1 <= s.fields.threshold && s.threads[k + 1].place.Outside?
    requires s.fields.counter == 1
    ensures var r := Next(s, Arrive(k + 1)); r.Some? && GoingRound(r.value, 0, false)
  {
    var r := Next(s, Arrive(k + 1)).value;
    InvStep(s, Arrive(k + 1));
    PlacesAfterLead(s, k + 1, 0);
    forall i | 0 < i <= s.fields.threshold
      ensures r.threads[i].place.Outside? ||
              (r.threads[i].place.awake && r.threads[i].place.generation == s.Generation())
    {
      PlacesAfterLead(s, k + 1, i);
    }
  }

  /** Thread k + 1 arrives; the last arrival completes the generation. */
  lemma NextArrives(s: State, k: nat, first: bool) returns (r: State)
    requires GoingRound(s, k, first) && k + 1 <= s.fields.threshold && s.threads[k + 1].place.Outside?
    ensures Next(s, Arrive(k + 1)) == Some(r) && SameSetup(s, r)
    ensures s.fields.counter > 1 ==>
      GoingRound(r, k + 1, first) && r.Generation() == s.Generation() && r.fields.counter == s.fields.counter - 1
    ensures s.fields.counter == 1 ==> GoingRound(r, 0, false) && r.Generation() == s.Generation() + 1
  {
    r := Next(s, Arrive(k + 1)).value;
    if s.fields.counter > 1 { NextBlocks(s, k, first); } else { NextLeads(s, k, first); }
  }

  lemma FinishRound(s: State, k: nat, first: bool) returns (steps: seq<Action>, r: State)
    requires GoingRound(s, k, first)
    ensures Run(Next, s, steps) == Some(r) && SameSetup(s, r)
    ensures GoingRound(r, 0, false) && r.Generation() == s.Generation() + 1
    decreases s.fields.counter
  {
    var leave, mid := NextLeaves(s, k, first);
    r := NextArrives(mid, k, first);
    steps := leave + [Arrive(k + 1)];
    RunConcat(Next, s, leave, [Arrive(k + 1)]);
    if s.fields.counter > 1 {
      var more, end := FinishRound(r, k + 1, first);
      RunConcat(Next, s, steps, more);
      steps, r := steps + more, end;
    }
  }

  lemma GoRounds(s: State, generation: nat) returns (steps: seq<Action>, r: State)
    requires GoingRound(s, 0, false) && s.Generation() <= generation
    ensures Run(Next, s, steps) == Some(r) && SameSetup(s, r)
    ensures GoingRound(r, 0, false) && r.Generation() == generation
    decreases generation - s.Generation()
  {
    steps, r := [], s;
    if s.Generation() < generation {
      var one, mid := FinishRound(s, 0, false);
      var more, end := GoRounds(mid, generation);
      RunConcat(Next, s, one, more);
      steps, r := one + more, end;
    }
  }

  lemma FirstWaits(threads: nat, threshold: int, start: nat, modulus: Positive) returns (s: State)
    requires 2 <= threshold < threads && start < modulus && modulus >= 2
    ensures Next(Initial(threads, threshold, start, modulus), Arrive(0)) == Some(s)
    ensures SameSetup(Initial(threads, threshold, start, modulus), s) && GoingRound(s, 0, true)
  {
    s := Next(Initial(threads, threshold, start, modulus), Arrive(0)).value;
    InvStep(Initial(threads, threshold, start, modulus), Arrive(0));
  }

  /** Once `cycle` has wrapped it is what thread 0 saved. */
  lemma WrappedIsTrapped(s: State)
    requires GoingRound(s, 0, false) && s.Generation() == s.fields.modulus
    ensures Trapped(s, 0)
  {
    CycleIsRemainder(s.start, s.fields.modulus, s.fields.modulus);
    SmallMod(s.start + s.fields.modulus, s.fields.modulus);
  }

  /** With one thread more than the threshold, a waiter that is not scheduled while `cycle` wraps
      once is trapped, however large the range of `cycle`. */
  lemma TrapRun(threads: nat, threshold: int, start: nat, modulus: Positive) returns (steps: seq<Action>)
    requires 2 <= threshold < threads && start < modulus && modulus >= 2
    ensures var r := Run(Next, Initial(threads, threshold, start, modulus), steps); r.Some? && Trapped(r.value, 0)
  {
    var one := FirstWaits(threads, threshold, start, modulus);
    hide Next, GoingRound, Trapped;
    var round, two := FinishRound(one, 0, true);
    assert two.Generation() <= modulus by { assert one.Generation() == 0 by { AtFirst(one); } }
    var more, end := GoRounds(two, modulus);
    RunConcat(Next, one, round, more);
    steps := [Arrive(0)] + (round + more);
    assert steps[1..] == round + more;
    WrappedIsTrapped(end);
  }

  lemma AtFirst(s: State)
    requires GoingRound(s, 0, true)
    ensures s.Generation() == 0
  {
  }

  /** No run traps a waiter exactly when no more threads than the threshold use the barrier
      (or when the threshold is 1, so that nobody waits). */
  lemma TrapFreeIffThreadsFit(threads: nat, threshold: int, start: nat, modulus: Positive)
    requires 1 <= threshold && start < modulus && modulus >= 2
    ensures (forall steps, i: nat ::
        var r := Run(Next, Initial(threads, threshold, start, modulus), steps);
        r.Some? ==> !Trapped(r.value, i))
      <==> threads <= threshold || threshold == 1
  {
    var s := Initial(threads, threshold, start, modulus);
    if threads <= threshold {
      forall steps, i: nat | Run(Next, s, steps).Some? ensures !Trapped(Run(Next, s, steps).value, i) {
        ExactHolds(threads, threshold, start, modulus, steps);
        var r := Run(Next, s, steps).value;
        if i < |r.threads| && r.threads[i].place.Waiting? { TestIsExact(r, i); }
      }
    } else if threshold == 1 {
      forall steps, i: nat | Run(Next, s, steps).Some? ensures !Trapped(Run(Next, s, steps).value, i) {
        NobodyWaits(threads, start, modulus, steps, i);
      }
    } else {
      var steps := TrapRun(threads, threshold, start, modulus);
      assert !(var r := Run(Next, s, steps); r.Some? ==> !Trapped(r.value, 0));
    }
  }

  ghost predicate AllOutside(s: State)
  {
    s.fields.counter == s.fields.threshold == 1 && forall i | 0 <= i < |s.threads| :: s.threads[i].place.Outside?
  }

  lemma NobodyWaits(threads: nat, start: nat, modulus: Positive, steps: seq<Action>, i: nat)
    ensures var r := Run(Next, Initial(threads, 1, start, modulus), steps); r.Some? ==> !Trapped(r.value, i)
  {
    Invariance(Next, AllOutside, Initial(threads, 1, start, modulus), steps);
  }

  // ---------------------------------------------------------------- destroying the barrier

  /** The test of barrier_destroy finds the barrier free, while a thread is still in barrier_wait. */
  ghost predicate FreeTooSoon(s: State)
  {
    s.fields.counter == s.fields.threshold && exists i: nat :: i < |s.threads| && s.threads[i].place.Waiting?
  }

  lemma FewNeverFree(s: State)
    requires Exact(s) && |s.threads| < s.fields.threshold
    ensures !FreeTooSoon(s)
  {
    forall i: nat | i < |s.threads| && s.threads[i].place.Waiting? ensures i in s.arriving { assert ThreadInv(s, i); }
  }

  lemma FewNeverFreeHolds(threads: nat, threshold: int, start: nat, modulus: Positive, steps: seq<Action>)
    requires threads < threshold && start < modulus && modulus >= 2
    ensures var r := Run(Next, Initial(threads, threshold, start, modulus), steps); r.Some? ==> !FreeTooSoon(r.value)
  {
    var s := Initial(threads, threshold, start, modulus);
    var inv := (t: State) => Exact(t) && |t.threads| < t.fields.threshold;
    assert inv(s);
    hide Exact, FreeTooSoon;
    forall t, a | inv(t) && Next(t, a).Some? ensures inv(Next(t, a).value) {
      ExactStep(t, a);
      SetupStays(t, a);
    }
    hide Next;
    Invariance(Next, inv, s, steps);
    if Run(Next, s, steps).Some? { FewNeverFree(Run(Next, s, steps).value); }
  }

  lemma SetupStays(s: State, a: Action)
    requires Next(s, a).Some?
    ensures SameSetup(s, Next(s, a).value)
  {
  }

  /** The first k threads have arrived, one after the other, in the first generation. */
  ghost predicate FirstIn(s: State, k: nat)
  {
    && s.fields.counter == s.fields.threshold - k
    && 2 <= s.fields.threshold <= |s.threads| && k < s.fields.threshold
    && forall i | 0 <= i < |s.threads| :: s.threads[i].place.Waiting? <==> i < k
  }

  /** The rest of them arrive: the last leads, and has let the others go before they leave. */
  lemma RestArrive(s: State, k: nat) returns (steps: seq<Action>)
    requires FirstIn(s, k) && k >= 1
    ensures var r := Run(Next, s, steps); r.Some? && FreeTooSoon(r.value)
    decreases s.fields.threshold - k
  {
    var r := Next(s, Arrive(k)).value;
    steps := [Arrive(k)];
    assert Run(Next, r, steps[1..]) == Some(r);
    if k + 1 < s.fields.threshold {
      var more := RestArrive(r, k + 1);
      steps := [Arrive(k)] + more;
      assert steps[1..] == more;
    } else {
      assert r.threads[0].place.Waiting?;
    }
  }

  lemma FreeTooSoonRun(threads: nat, threshold: int, start: nat, modulus: Positive) returns (steps: seq<Action>)
    requires 2 <= threshold <= threads
    ensures var r := Run(Next, Initial(threads, threshold, start, modulus), steps); r.Some? && FreeTooSoon(r.value)
  {
    var s := Next(Initial(threads, threshold, start, modulus), Arrive(0)).value;
    var more := RestArrive(s, 1);
    steps := [Arrive(0)] + more;
    assert steps[1..] == more;
  }

  /** barrier_destroy never finds a barrier free that a thread is still inside, exactly when the threshold
      is 1, so that nobody waits, or no generation can complete for want of threads. */
  lemma NeverFreeTooSoonIff(threads: nat, threshold: int, start: nat, modulus: Positive)
    requires 1 <= threshold && start < modulus && modulus >= 2
    ensures (forall steps :: var r := Run(Next, Initial(threads, threshold, start, modulus), steps);
               r.Some? ==> !FreeTooSoon(r.value))
      <==> threshold == 1 || threads < threshold
  {
    var s := Initial(threads, threshold, start, modulus);
    if threshold == 1 {
      forall steps ensures var r := Run(Next, s, steps); r.Some? ==> !FreeTooSoon(r.value) {
        Invariance(Next, AllOutside, s, steps);
      }
    } else if threads < threshold {
      forall steps ensures var r := Run(Next, s, steps); r.Some? ==> !FreeTooSoon(r.value) {
        FewNeverFreeHolds(threads, threshold, start, modulus, steps);
      }
    } else {
      var steps := FreeTooSoonRun(threads, threshold, start, modulus);
    }
  }

  // ---------------------------------------------------------------- what a thread can do

  /** A thread outside can always arrive; one inside moves on only when its wait has returned, and that
      may return at any time. */
  lemma ThreadCanStep(s: State, i: nat)
    requires i < |s.threads|
    ensures Next(s, Arrive(i)).Some? <==> s.threads[i].place.Outside?
    ensures Next(s, Resume(i)).Some? <==> s.threads[i].place.Waiting? && s.threads[i].place.awake
    ensures Next(s, Spurious(i)).Some? <==> s.threads[i].place.Waiting? && !s.threads[i].place.awake
  {
  }

  /** A wakeup for nothing changes nothing: a waiter that slept goes back to sleep. */
  lemma VainWakeup(s: State, i: nat)
    requires Inv(s) && i < |s.threads| && s.threads[i].place.Waiting? && !s.threads[i].place.awake
    ensures Run(Next, s, [Spurious(i), Resume(i)]) == Some(s)
  {
    assert ThreadInv(s, i);
    var awake := Next(s, Spurious(i)).value;
    assert awake.threads[i := s.threads[i]] == s.threads;
    RunAlong(Next, [s, awake, s], [Spurious(i), Resume(i)]);
  }
}
