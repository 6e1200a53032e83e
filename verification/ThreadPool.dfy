/** The thread pool of chap4-pattern/crew_gpt.cc, shut down gracefully. */
module ThreadPool {
  import opened Machines
  import opened Modular
  import opened Threads

  /** A task is a function and its argument; here only its identity matters. */
  type Task = int

  /** The pool as its critical regions see it: the tasks pending in order of acceptance. */
  datatype Fields = Fields(size: Positive, pending: seq<Task>, shutdown: bool)

  /** thread_pool_add: refused when the queue is full or the pool is shutting down. */
  function Add(p: Fields, task: Task): (Fields, bool)
  {
    if |p.pending| == p.size then (p, false)
    else if p.shutdown then (p, false)
    else (p.(pending := p.pending + [task]), true)
  }

  /** What a worker does each time it holds the lock. */
  datatype Fetched = Wait | Exit | Got(task: Task)

  function Fetch(p: Fields): (Fields, Fetched)
  {
    if |p.pending| == 0 && !p.shutdown then (p, Wait)
    else if p.shutdown && |p.pending| == 0 then (p, Exit)
    else (p.(pending := p.pending[1..]), Got(p.pending[0]))
  }

  /** The slot i places after `head` in a ring of `size` slots. */
  function Slot(head: nat, i: nat, size: Positive): (r: nat)
    requires head < size && i <= size
    ensures r < size
  {
    if head + i < size then head + i else head + i - size
  }

  lemma SlotIsRemainder(head: nat, i: nat, size: Positive)
    requires head < size && i <= size
    ensures Slot(head, i, size) == (head + i) % size
  {
    SmallMod(head + i, size);
  }

  /** The pool object: a ring buffer of `size` slots. */
  class Pool {
    const size: Positive
    const tasks: array<Task>
    var head: nat
    var tail: nat
    var count: nat
    var shutdown: bool

    ghost predicate Valid()
      reads this
    {
      && tasks.Length == size
      && head < size && tail < size && count <= size
      && tail == Slot(head, count, size)
    }

    /** Slot i places after the head holds the i-th pending task. */
    ghost function Pending(): (r: seq<Task>)
      requires Valid()
      reads this, tasks
      ensures |r| == count
    {
      seq(count, i requires 0 <= i < count reads this, tasks requires Valid() =>
        tasks[Slot(head, i, size)])
    }

    ghost function View(): Fields
      requires Valid()
      reads this, tasks
    {
      Fields(size, Pending(), shutdown)
    }

    /** thread_pool_init. */
    constructor (size: Positive)
      ensures Valid() && fresh(tasks)
      ensures View() == Fields(size, [], false)
    {
      this.size := size;
      tasks := new Task[size];
      head, tail, count := 0, 0, 0;
      shutdown := false;
    }

    method AddTask(task: Task) returns (accepted: bool)
      requires Valid()
      modifies this, tasks
      ensures Valid()
      ensures (View(), accepted) == Add(old(View()), task)
      ensures accepted <==> !shutdown && |old(Pending())| < size
      ensures Pending() == if accepted then old(Pending()) + [task] else old(Pending())
      ensures shutdown == old(shutdown)
    {
      var next := (tail + 1) % size;
      if count == size { return false; }
      if shutdown { return false; }
      ghost var before := Pending();
      SmallMod(tail + 1, size);
      tasks[tail] := task;
      tail := next;
      count := count + 1;
      assert Pending() == before + [task];
      accepted := true;
    }

    method FetchTask() returns (f: Fetched)
      requires Valid()
      modifies this
      ensures Valid()
      ensures (View(), f) == Fetch(old(View()))
      ensures f == if old(Pending()) != [] then Got(old(Pending())[0]) else if shutdown then Exit else Wait
      ensures Pending() == if f.Got? then old(Pending())[1..] else old(Pending())
      ensures shutdown == old(shutdown)
    {
      if count == 0 && !shutdown { return Wait; }
      if shutdown && count == 0 { return Exit; }
      ghost var before := Pending();
      SmallMod(head + 1, size);
      var task := tasks[head];
      head := (head + 1) % size;
      count := count - 1;
      assert Pending() == before[1..];
      f := Got(task);
    }

    /** The first part of thread_pool_destroy; a second caller changes nothing. */
    method Shutdown() returns (first: bool)
      requires Valid()
      modifies this`shutdown
      ensures Valid() && first == !old(shutdown)
      ensures View() == old(View()).(shutdown := true)
    {
      first := !shutdown;
      shutdown := true;
    }
  }

  // ---------------------------------------------------------------- the protocol

  /** A worker is about to lock the pool for its next task, asleep on `notify`, woken but not yet
      looking, running a task, or gone. */
  datatype Worker = Ready | Asleep | Woken | Running(task: Task) | Gone

  datatype Destroyer = NotCalled | Joining | Joined

  /** `accepted`, `taken` and `done` record the tasks accepted, taken by a worker and run, in order. */
  datatype State = State(
    pool: Fields,
    workers: seq<Worker>,
    destroyer: Destroyer,
    accepted: seq<Task>,
    taken: seq<Task>,
    done: seq<Task>)

  /** `pick` is the sleeping worker that a signal wakes up. */
  datatype Action =
    | AddTask(task: Task, pick: nat)
    | FetchTask(worker: nat)
    | Finish(worker: nat)
    | Spurious(worker: nat)
    | Destroy
    | Join

  function Initial(workers: nat, size: Positive): State
  {
    State(Fields(size, [], false), seq(workers, _ => Ready), NotCalled, [], [], [])
  }

  function IsAsleep(w: Worker): bool { w.Asleep? }

  function Wake(w: Worker): Worker { if w.Asleep? then Woken else w }

  function Next(s: State, a: Action): Option<State>
  {
    match a
    case AddTask(task, pick) =>
      if s.destroyer.Joined? then None else
      var (pool, accepted) := Add(s.pool, task);
      if !accepted then Some(s) else
      (match Signal(s.workers, IsAsleep, Wake, pick)
       case None => None
       case Some(workers) => Some(s.(pool := pool, workers := workers, accepted := s.accepted + [task])))
    case FetchTask(i) =>
      if !(i < |s.workers| && (s.workers[i].Ready? || s.workers[i].Woken?)) then None else
      var (pool, f) := Fetch(s.pool);
      (match f
       case Wait => Some(s.(workers := s.workers[i := Asleep]))
       case Exit => Some(s.(workers := s.workers[i := Gone]))
       case Got(task) =>
         Some(s.(pool := pool, workers := s.workers[i := Running(task)], taken := s.taken + [task])))
    case Finish(i) =>
      if !(i < |s.workers| && s.workers[i].Running?) then None else
      Some(s.(workers := s.workers[i := Ready], done := s.done + [s.workers[i].task]))
    case Spurious(i) =>
      if !(i < |s.workers| && s.workers[i].Asleep?) then None else
      Some(s.(workers := s.workers[i := Woken]))
    case Destroy =>
      if !s.destroyer.NotCalled? then None else
      Some(s.(pool := s.pool.(shutdown := true), workers := Broadcast(s.workers, Wake), destroyer := Joining))
    case Join =>
      if !(s.destroyer.Joining? && forall i | 0 <= i < |s.workers| :: s.workers[i].Gone?) then None else
      Some(s.(destroyer := Joined))
  }

  function IsWoken(w: Worker): nat { if w.Woken? then 1 else 0 }

  function InHand(w: Worker): multiset<Task> { if w.Running? then multiset{w.task} else multiset{} }

  lemma WakeConserves(taken: seq<Task>, done: seq<Task>, workers: seq<Worker>)
    requires Conserved(taken, done, workers, InHand)
    ensures Conserved(taken, done, Broadcast(workers, Wake), InHand)
  {
    GatherBroadcast(workers, Wake, InHand);
  }

  ghost predicate Inv(s: State)
  {
    && |s.pool.pending| <= s.pool.size
    && s.accepted == s.taken + s.pool.pending
    && Conserved(s.taken, s.done, s.workers, InHand)
    && (forall i | 0 <= i < |s.workers| && s.workers[i].Asleep? ::
          !s.pool.shutdown && |s.pool.pending| <= Sum(s.workers, IsWoken))
    && (forall i | 0 <= i < |s.workers| && s.workers[i].Gone? :: s.pool.shutdown && s.pool.pending == [])
    && (s.pool.shutdown <==> !s.destroyer.NotCalled?)
    && (s.destroyer.Joined? ==> forall i | 0 <= i < |s.workers| :: s.workers[i].Gone?)
  }

  lemma AddKeepsInv(s: State, task: Task, pick: nat)
    requires Inv(s) && Next(s, AddTask(task, pick)).Some?
    ensures Inv(Next(s, AddTask(task, pick)).value)
  {
    hide Conserved, Sum;
    var r := Next(s, AddTask(task, pick)).value;
    if r != s {
      assert s.accepted + [task] == s.taken + (s.pool.pending + [task]);
      if pick < |s.workers| && s.workers[pick].Asleep? {
        MoveConserves(s.taken, s.done, s.workers, InHand, pick, Woken);
        SumUpdate(s.workers, pick, Woken, IsWoken);
      }
    }
  }

  lemma FetchConserves(s: State, i: nat)
    requires Conserved(s.taken, s.done, s.workers, InHand) && Next(s, FetchTask(i)).Some?
    ensures var r := Next(s, FetchTask(i)).value; Conserved(r.taken, r.done, r.workers, InHand)
  {
    hide Conserved;
    match Fetch(s.pool).1
    case Wait => MoveConserves(s.taken, s.done, s.workers, InHand, i, Asleep);
    case Exit => MoveConserves(s.taken, s.done, s.workers, InHand, i, Gone);
    case Got(task) => TakeConserves(s.taken, s.done, s.workers, InHand, i, Running(task), task);
  }

  lemma FetchKeepsInv(s: State, i: nat)
    requires Inv(s) && Next(s, FetchTask(i)).Some?
    ensures Inv(Next(s, FetchTask(i)).value)
  {
    hide Conserved, Sum;
    FetchConserves(s, i);
    var r := Next(s, FetchTask(i)).value;
    SumUpdate(s.workers, i, r.workers[i], IsWoken);
    if s.pool.pending != [] {
      assert s.taken + s.pool.pending == s.taken + [s.pool.pending[0]] + s.pool.pending[1..];
    }
  }

  lemma FinishKeepsInv(s: State, i: nat)
    requires Inv(s) && Next(s, Finish(i)).Some?
    ensures Inv(Next(s, Finish(i)).value)
  {
    hide Conserved, Sum;
    FinishConserves(s.taken, s.done, s.workers, InHand, i, Ready, s.workers[i].task);
    SumUpdate(s.workers, i, Ready, IsWoken);
  }

  lemma SpuriousKeepsInv(s: State, i: nat)
    requires Inv(s) && Next(s, Spurious(i)).Some?
    ensures Inv(Next(s, Spurious(i)).value)
  {
    hide Conserved, Sum;
    MoveConserves(s.taken, s.done, s.workers, InHand, i, Woken);
    SumUpdate(s.workers, i, Woken, IsWoken);
  }

  lemma DestroyKeepsInv(s: State)
    requires Inv(s) && Next(s, Destroy).Some?
    ensures Inv(Next(s, Destroy).value)
  {
    hide Conserved, Sum;
    WakeConserves(s.taken, s.done, s.workers);
  }

  lemma InvStep(s: State, a: Action)
    requires Inv(s) && Next(s, a).Some?
    ensures Inv(Next(s, a).value)
  {
    hide Conserved, Sum;
    match a
    case AddTask(task, pick) => AddKeepsInv(s, task, pick);
    case FetchTask(i) => FetchKeepsInv(s, i);
    case Finish(i) => FinishKeepsInv(s, i);
    case Spurious(i) => SpuriousKeepsInv(s, i);
    case Destroy => DestroyKeepsInv(s);
    case Join =>
  }

  lemma InvHolds(workers: nat, size: Positive, steps: seq<Action>)
    ensures var r := Run(Next, Initial(workers, size), steps); r.Some? ==> Inv(r.value)
  {
    var s := Initial(workers, size);
    GatherEmpty(s.workers, InHand);
    forall t, a | Inv(t) && Next(t, a).Some? ensures Inv(Next(t, a).value) { InvStep(t, a); }
    Invariance(Next, Inv, s, steps);
  }

  // ---------------------------------------------------------------- the results

  /** Work conserving: in every run, while some worker sleeps, every pending task has a woken
      worker of its own that has not yet looked. */
  lemma WorkConserving(workers: nat, size: Positive, steps: seq<Action>, i: nat)
    requires Run(Next, Initial(workers, size), steps).Some?
    ensures var s := Run(Next, Initial(workers, size), steps).value;
      i < |s.workers| && s.workers[i].Asleep? ==> |s.pool.pending| <= Sum(s.workers, IsWoken)
  {
    InvHolds(workers, size, steps);
  }

  /** Tasks are taken in the order in which they were accepted, none skipped and none repeated,
      and the queue is never over-full. */
  lemma TakenInOrder(workers: nat, size: Positive, steps: seq<Action>)
    requires Run(Next, Initial(workers, size), steps).Some?
    ensures var s := Run(Next, Initial(workers, size), steps).value;
      s.taken <= s.accepted && s.accepted[|s.taken|..] == s.pool.pending && |s.pool.pending| <= s.pool.size
  {
    InvHolds(workers, size, steps);
  }

  /** When thread_pool_destroy has joined the workers, every accepted task has been run once. */
  lemma ShutdownDrains(workers: nat, size: Positive, steps: seq<Action>)
    requires workers > 0 && Run(Next, Initial(workers, size), steps).Some?
    ensures var s := Run(Next, Initial(workers, size), steps).value;
      s.destroyer.Joined? ==> s.pool.pending == [] && multiset(s.done) == multiset(s.accepted)
  {
    InvHolds(workers, size, steps);
    WorkersStay(workers, size, steps);
    var s := Run(Next, Initial(workers, size), steps).value;
    if s.destroyer.Joined? {
      assert s.workers[0].Gone?;
      GatherEmpty(s.workers, InHand);
      assert s.accepted == s.taken;
    }
  }

  lemma WorkersStay(workers: nat, size: Positive, steps: seq<Action>)
    ensures var r := Run(Next, Initial(workers, size), steps); r.Some? ==> |r.value.workers| == workers
  {
    Invariance(Next, (s: State) => |s.workers| == workers, Initial(workers, size), steps);
  }

  function Effort(w: Worker): nat
  {
    match w
    case Running(_) => 2
    case Gone => 0
    case _ => 1
  }

  /** What is left to do before the pool is joined. */
  function Remaining(s: State): nat
  {
    2 * |s.pool.pending| + Sum(s.workers, Effort) + (if s.destroyer.Joined? then 0 else 1)
  }

  /** After shutdown nobody sleeps, nothing is accepted, and every step that changes anything
      brings the end nearer. */
  lemma ShutdownProgresses(s: State, a: Action)
    requires Inv(s) && s.pool.shutdown && Next(s, a).Some?
    ensures !a.Spurious? && !a.Destroy?
    ensures Next(s, a).value.accepted == s.accepted
    ensures Next(s, a).value == s || Remaining(Next(s, a).value) < Remaining(s)
    ensures Next(s, a).value == s ==> a.AddTask?
  {
    var r := Next(s, a).value;
    match a
    case FetchTask(i) => SumUpdate(s.workers, i, r.workers[i], Effort);
    case Finish(i) => SumUpdate(s.workers, i, Ready, Effort);
    case _ =>
  }

  /** After shutdown some such step is always possible, until the workers have been joined. */
  lemma ShutdownIsNeverStuck(s: State)
    requires Inv(s) && s.pool.shutdown && !s.destroyer.Joined?
    ensures exists a: Action :: !a.AddTask? && Next(s, a).Some?
  {
    if i: nat :| i < |s.workers| && !s.workers[i].Gone? {
      assert Next(s, if s.workers[i].Running? then Finish(i) else FetchTask(i)).Some?;
    } else {
      assert Next(s, Join).Some?;
    }
  }

  // ---------------------------------------------------------------- what is accepted, and that it is run

  /** In every run: a task is refused exactly when task_queue_size tasks are accepted and not yet taken, or
      the pool has been shut down. */
  lemma RefusedIffFull(workers: nat, size: Positive, steps: seq<Action>, task: Task, pick: nat)
    requires Run(Next, Initial(workers, size), steps).Some?
    requires Next(Run(Next, Initial(workers, size), steps).value, AddTask(task, pick)).Some?
    ensures var s := Run(Next, Initial(workers, size), steps).value;
      Next(s, AddTask(task, pick)).value.accepted ==
        if |s.accepted| - |s.taken| == size || !s.destroyer.NotCalled? then s.accepted else s.accepted + [task]
  {
    InvHolds(workers, size, steps);
    SizeStays(workers, size, steps);
  }

  lemma SizeStays(workers: nat, size: Positive, steps: seq<Action>)
    ensures var r := Run(Next, Initial(workers, size), steps); r.Some? ==> r.value.pool.size == size
  {
    Invariance(Next, (s: State) => s.pool.size == size, Initial(workers, size), steps);
  }

  /** What a worker does by itself. */
  predicate OwnStep(a: Action) { a.FetchTask? || a.Finish? }

  function Toil(w: Worker): nat
  {
    match w
    case Ready => 1
    case Woken => 1
    case Running(_) => 2
    case _ => 0
  }

  function AllToil(s: State): nat { 2 * |s.pool.pending| + Sum(s.workers, Toil) }

  lemma OwnStepToils(s: State, a: Action)
    requires Next(s, a).Some? && OwnStep(a)
    ensures AllToil(Next(s, a).value) < AllToil(s) && Next(s, a).value.accepted == s.accepted
    ensures |Next(s, a).value.workers| == |s.workers|
  {
    match a
    case FetchTask(i) => SumUpdate(s.workers, i, Next(s, a).value.workers[i], Toil);
    case Finish(i) => SumUpdate(s.workers, i, Ready, Toil);
  }

  lemma NobodyBusy(s: State)
    requires Inv(s) && s.workers != []
    requires forall i | 0 <= i < |s.workers| :: s.workers[i].Asleep? || s.workers[i].Gone?
    ensures s.pool.pending == [] && multiset(s.done) == multiset(s.accepted)
  {
    SumZero(s.workers, IsWoken);
    GatherEmpty(s.workers, InHand);
    assert s.workers[0].Asleep? || s.workers[0].Gone?;
    assert s.accepted == s.taken;
  }

  /** From every state that a run reaches, shut down or not, the workers' own steps run every accepted task
      once; and they cannot go on for ever without it, as each of them lowers AllToil. */
  lemma {:induction false} WorkersFinish(s: State) returns (steps: seq<Action>)
    requires Inv(s) && s.workers != []
    ensures forall a | a in steps :: OwnStep(a)
    ensures var r := Run(Next, s, steps);
      && r.Some? && r.value.accepted == s.accepted
      && r.value.pool.pending == [] && multiset(r.value.done) == multiset(s.accepted)
    decreases AllToil(s)
  {
    steps := [];
    if i: nat :| i < |s.workers| && !s.workers[i].Asleep? && !s.workers[i].Gone? {
      var a := if s.workers[i].Running? then Finish(i) else FetchTask(i);
      assert Next(s, a).Some?;
      OwnStepToils(s, a);
      InvStep(s, a);
      hide Inv, Next, AllToil;
      var more := WorkersFinish(Next(s, a).value);
      steps := [a] + more;
      assert steps[1..] == more;
    } else {
      NobodyBusy(s);
    }
  }

  // ---------------------------------------------------------------- what each thread can do

  /** A task can be offered until the pool is joined; a worker moves unless it sleeps or is gone; and the pool
      can be shut down once, and joined when all workers are gone. */
  lemma WhoCanStep(s: State, task: Task, i: nat)
    requires i < |s.workers|
    ensures (exists pick :: Next(s, AddTask(task, pick)).Some?) <==> !s.destroyer.Joined?
    ensures Next(s, FetchTask(i)).Some? <==> s.workers[i].Ready? || s.workers[i].Woken?
    ensures Next(s, Finish(i)).Some? <==> s.workers[i].Running?
    ensures Next(s, Spurious(i)).Some? <==> s.workers[i].Asleep?
    ensures Next(s, Destroy).Some? <==> s.destroyer.NotCalled?
    ensures Next(s, Join).Some? <==> s.destroyer.Joining? && forall j | 0 <= j < |s.workers| :: s.workers[j].Gone?
  {
    if j: nat :| j < |s.workers| && IsAsleep(s.workers[j]) {
      assert Next(s, AddTask(task, j)).Some? <==> !s.destroyer.Joined?;
    } else {
      assert Next(s, AddTask(task, 0)).Some? <==> !s.destroyer.Joined?;
    }
  }

  /** A wakeup for nothing changes nothing. */
  lemma VainWakeup(s: State, i: nat)
    requires Inv(s) && i < |s.workers| && s.workers[i].Asleep? && s.pool.pending == []
    ensures Run(Next, s, [Spurious(i), FetchTask(i)]) == Some(s)
  {
    var awake := Next(s, Spurious(i)).value;
    assert awake.workers[i := Asleep] == s.workers;
    RunAlong(Next, [s, awake, s], [Spurious(i), FetchTask(i)]);
  }
}
