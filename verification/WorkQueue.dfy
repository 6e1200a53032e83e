/** The elastic work queue of chap7-RealCode/workqueue/workq.cxx. */
module WorkQueue {
  import opened Machines
  import opened Threads
  import opened LinkedFifo

  /** The data of a work item: an opaque pointer. */
  type Element = int

  /** workq_t as its critical regions see it. */
  datatype Fields = Fields(items: seq<Element>, quit: bool, parallelism: int, counter: int, idle: int)

  /** Whom workq_add tells about the new item. */
  datatype Added = Nobody | Signalled | NewWorker

  function Add(q: Fields, e: Element): (Fields, Added)
  {
    var r := q.(items := q.items + [e]);
    if r.idle > 0 then (r, Signalled)
    else if r.counter < r.parallelism then (r.(counter := r.counter + 1), NewWorker)
    else (r, Nobody)
  }

  /** How a worker comes to hold the mutex: it has just been created, its timed wait has returned
      (at its time limit or not), or the engine has (`timedout` as it was when it took the item). */
  datatype Entry = Start | Woken | TimedOut | Return(timedout: bool)

  /** How a worker gives it up again. */
  datatype Exit = Wait | Call(element: Element, timedout: bool) | Leave(broadcast: bool)

  /** The top of the loop: wait while there is nothing to do and nobody has called workq_destroy. */
  function ServeTop(q: Fields): (Fields, Exit)
  {
    if q.items == [] && !q.quit then (q, Wait) else ServeTake(q, false)
  }

  function ServeTake(q: Fields, timedout: bool): (Fields, Exit)
  {
    if q.items != [] then (q.(items := q.items[1..]), Call(q.items[0], timedout))
    else if q.quit then (q.(counter := q.counter - 1), Leave(q.counter - 1 == 0))
    else if timedout then (q.(counter := q.counter - 1), Leave(false))
    else (q, Wait)
  }

  function Serve(q: Fields, entry: Entry): (Fields, Exit)
  {
    match entry
    case Start => ServeTop(q)
    case Woken => ServeTop(q)
    case TimedOut => ServeTake(q, true)
    case Return(timedout) =>
      if q.items == [] && (q.quit || timedout) then ServeTake(q, timedout) else ServeTop(q)
  }

  /** The first region of workq_destroy, and whether it goes on to wait. */
  function Destroy(q: Fields): (Fields, bool)
  {
    if q.counter > 0 then (q.(quit := true), true) else (q, false)
  }

  /** The queue object: a linked list and the worker counts. */
  class Queue {
    var first: Node?<Element>
    var last: Node?<Element>
    var quit: bool
    var parallelism: int
    var counter: int
    var idle: int
    ghost var chain: seq<Node<Element>>

    ghost predicate Valid()
      reads this, chain
    {
      IsChain(first, last, chain)
    }

    ghost function View(): Fields
      reads this
    {
      Fields(Items(chain), quit, parallelism, counter, idle)
    }

    /** workq_init. */
    constructor (threads: int)
      ensures Valid() && chain == []
      ensures View() == Fields([], false, threads, 0, 0)
    {
      quit := false;
      first, last := null, null;
      parallelism := threads;
      counter, idle := 0, 0;
      chain := [];
    }

    /** The tail insertion of workq_add. */
    method Append(e: Element)
      requires Valid()
      modifies this`first, this`last, this`chain, chain
      ensures Valid() && |chain| == |old(chain)| + 1
      ensures chain[..|old(chain)|] == old(chain) && fresh(chain[|old(chain)|])
      ensures Items(chain) == old(Items(chain)) + [e]
    {
      if chain != [] { OnlyAt(chain, |chain| - 1); }
      var item := new Node(e);
      if first == null {
        first := item;
      } else {
        last.next := item;
      }
      last := item;
      LinkedIn(first, chain, |chain|, item);
      assert chain[..|chain|] + [item] + chain[|chain|..] == chain + [item];
      ItemsSnoc(chain, item);
      chain := chain + [item];
    }

    /** workq_add, from locking the mutex to unlocking it. */
    method AddItem(e: Element) returns (added: Added)
      requires Valid()
      modifies this, chain
      ensures Valid() && |chain| == |old(chain)| + 1
      ensures chain[..|old(chain)|] == old(chain) && fresh(chain[|old(chain)|])
      ensures (View(), added) == Add(old(View()), e)
      ensures Items(chain) == old(Items(chain)) + [e]
      ensures added.Signalled? <==> old(idle) > 0
      ensures added.NewWorker? <==> old(idle) <= 0 && old(counter) < parallelism
      ensures counter == old(counter) + (if added.NewWorker? then 1 else 0)
    {
      hide IsList;
      Append(e);
      if idle > 0 {
        added := Signalled;
      } else if counter < parallelism {
        counter := counter + 1;
        added := NewWorker;
      } else {
        added := Nobody;
      }
    }

    /** workq_server, from one acquisition of the mutex to the next release: what is queued is taken; with
        nothing queued the worker leaves when the queue quits or its wait has timed out, now or before it
        called the engine, and else it waits. */
    method ServeItem(entry: Entry) returns (exit: Exit)
      requires Valid()
      modifies this
      ensures Valid() && (chain == old(chain) || (old(chain) != [] && chain == old(chain)[1..]))
      ensures (View(), exit) == Serve(old(View()), entry)
      ensures exit ==
        if old(Items(chain)) != [] then Call(old(Items(chain))[0], entry.TimedOut?)
        else if quit || entry.TimedOut? || entry == Return(true) then Leave(quit && counter == 0)
        else Wait
      ensures Items(chain) == if exit.Call? then old(Items(chain))[1..] else old(Items(chain))
      ensures counter == old(counter) - (if exit.Leave? then 1 else 0)
      ensures quit == old(quit) && idle == old(idle) && parallelism == old(parallelism)
    {
      var timedout := entry == TimedOut;
      if entry.Return? {
        if first == null && quit {
          exit := LeaveQuitting();
          return;
        }
        if first == null && entry.timedout {
          counter := counter - 1;
          return Leave(false);
        }
      }
      if !timedout && first == null && !quit {
        return Wait;
      }
      var we := first;
      if we != null {
        ItemsRest(chain);
        ChainRest(first, last, chain);
        first := we.next;
        if last == we {
          last := null;
        }
        chain := chain[1..];
        return Call(we.data, timedout);
      }
      if quit {
        exit := LeaveQuitting();
        return;
      }
      counter := counter - 1;
      exit := Leave(false);
    }

    method LeaveQuitting() returns (exit: Exit)
      modifies this`counter
      ensures counter == old(counter) - 1 && exit == Leave(counter == 0)
    {
      counter := counter - 1;
      exit := Leave(counter == 0);
    }

    /** workq_destroy, up to its wait loop. */
    method BeginDestroy() returns (wait: bool)
      requires Valid()
      modifies this`quit
      ensures Valid()
      ensures (View(), wait) == Destroy(old(View()))
      ensures (wait <==> counter > 0) && (quit <==> old(quit) || counter > 0)
    {
      wait := counter > 0;
      if wait {
        quit := true;
      }
    }
  }

  // ---------------------------------------------------------------- the protocol

  datatype Worker = Starting | Waiting | Calling(element: Element, timedout: bool) | Returning(timedout: bool) | Gone

  datatype Destroyer = NotCalled | Asleep | Awake | Finished

  /** `added`, `taken` and `done` record the elements added, taken by a worker, and handed back by
      the engine, in order. */
  datatype State = State(
    queue: Fields,
    workers: seq<Worker>,
    destroyer: Destroyer,
    added: seq<Element>,
    taken: seq<Element>,
    done: seq<Element>)

  /** A worker's timed wait may return at any time, for its time limit or for none. */
  datatype Action =
    | AddItem(element: Element)
    | Begin(worker: nat)
    | Wake(worker: nat, timedout: bool)
    | EngineReturns(worker: nat)
    | Relock(worker: nat)
    | CallDestroy
    | SpuriousDestroyer
    | CheckDestroyer

  function Initial(threads: int): State
  {
    State(Fields([], false, threads, 0, 0), [], NotCalled, [], [], [])
  }

  /** Worker `i` holds the mutex from `entry` to the exit that Serve says. */
  function ServeStep(s: State, i: nat, entry: Entry): State
    requires i < |s.workers|
  {
    var (queue, exit) := Serve(s.queue, entry);
    match exit
    case Wait => s.(workers := s.workers[i := Waiting])
    case Call(e, timedout) =>
      s.(queue := queue, workers := s.workers[i := Calling(e, timedout)], taken := s.taken + [e])
    case Leave(broadcast) =>
      s.(queue := queue, workers := s.workers[i := Gone],
         destroyer := if broadcast && s.destroyer.Asleep? then Awake else s.destroyer)
  }

  function Next(s: State, a: Action): Option<State>
  {
    match a
    case AddItem(e) =>
      if s.destroyer.Finished? then None else
      var (queue, added) := Add(s.queue, e);
      Some(s.(queue := queue, added := s.added + [e],
              workers := if added.NewWorker? then s.workers + [Starting] else s.workers))
    case Begin(i) =>
      if i < |s.workers| && s.workers[i].Starting? then Some(ServeStep(s, i, Start)) else None
    case Wake(i, timedout) =>
      if i < |s.workers| && s.workers[i].Waiting? then Some(ServeStep(s, i, if timedout then TimedOut else Woken))
      else None
    case EngineReturns(i) =>
      if i < |s.workers| && s.workers[i].Calling? then
        Some(s.(workers := s.workers[i := Returning(s.workers[i].timedout)], done := s.done + [s.workers[i].element]))
      else
        None
    case Relock(i) =>
      if i < |s.workers| && s.workers[i].Returning? then Some(ServeStep(s, i, Return(s.workers[i].timedout))) else None
    case CallDestroy =>
      if !s.destroyer.NotCalled? then None else
      var (queue, wait) := Destroy(s.queue);
      Some(s.(queue := queue, destroyer := if wait then Asleep else Finished))
    case SpuriousDestroyer =>
      if s.destroyer.Asleep? then Some(s.(destroyer := Awake)) else None
    case CheckDestroyer =>
      if s.destroyer.Awake? then Some(s.(destroyer := if s.queue.counter > 0 then Asleep else Finished)) else None
  }

  function IsLive(w: Worker): nat { if w.Gone? then 0 else 1 }

  function InHand(w: Worker): multiset<Element> { if w.Calling? then multiset{w.element} else multiset{} }

  lemma CreateConserves(taken: seq<Element>, done: seq<Element>, workers: seq<Worker>)
    requires Conserved(taken, done, workers, InHand)
    ensures Conserved(taken, done, workers + [Starting], InHand)
  {
    GatherConcat(workers, [Starting], InHand);
  }

  ghost predicate Inv(s: State)
  {
    && s.queue.idle == 0
    && 0 <= s.queue.counter == Sum(s.workers, IsLive) <= s.queue.parallelism
    && s.queue.parallelism >= 1
    && (s.queue.items != [] ==> s.queue.counter >= 1)
    && s.added == s.taken + s.queue.items
    && Conserved(s.taken, s.done, s.workers, InHand)
    && (match s.destroyer
        case NotCalled => !s.queue.quit
        case Asleep => s.queue.quit && s.queue.counter > 0
        case Awake => s.queue.quit
        case Finished => s.queue.counter == 0)
  }

  lemma AddKeepsInv(s: State, e: Element)
    requires Inv(s) && Next(s, AddItem(e)).Some?
    ensures Inv(Next(s, AddItem(e)).value)
  {
    assert s.added + [e] == s.taken + (s.queue.items + [e]);
    SumConcat(s.workers, [Starting], IsLive);
    CreateConserves(s.taken, s.done, s.workers);
  }

  lemma ServeConserves(s: State, i: nat, entry: Entry)
    requires Conserved(s.taken, s.done, s.workers, InHand)
    requires i < |s.workers| && InHand(s.workers[i]) == multiset{}
    ensures var r := ServeStep(s, i, entry); Conserved(r.taken, r.done, r.workers, InHand)
  {
    hide Conserved;
    match Serve(s.queue, entry).1
    case Call(e, timedout) => TakeConserves(s.taken, s.done, s.workers, InHand, i, Calling(e, timedout), e);
    case Wait => MoveConserves(s.taken, s.done, s.workers, InHand, i, Waiting);
    case Leave(_) => MoveConserves(s.taken, s.done, s.workers, InHand, i, Gone);
  }

  lemma ServeKeepsInv(s: State, i: nat, entry: Entry)
    requires Inv(s) && i < |s.workers| && !s.workers[i].Gone? && !s.workers[i].Calling?
    ensures Inv(ServeStep(s, i, entry))
  {
    hide Conserved;
    var r := ServeStep(s, i, entry);
    SumUpdate(s.workers, i, r.workers[i], IsLive);
    SumMember(s.workers, i, IsLive);
    ServeConserves(s, i, entry);
    if s.queue.items != [] {
      assert s.taken + s.queue.items == s.taken + [s.queue.items[0]] + s.queue.items[1..];
    }
  }

  lemma InvStep(s: State, a: Action)
    requires Inv(s) && Next(s, a).Some?
    ensures Inv(Next(s, a).value)
  {
    hide Conserved, Sum;
    match a
    case AddItem(e) => AddKeepsInv(s, e);
    case Begin(i) => ServeKeepsInv(s, i, Start);
    case Wake(i, timedout) => ServeKeepsInv(s, i, if timedout then TimedOut else Woken);
    case EngineReturns(i) =>
      FinishConserves(s.taken, s.done, s.workers, InHand, i, Returning(s.workers[i].timedout), s.workers[i].element);
      SumUpdate(s.workers, i, Returning(s.workers[i].timedout), IsLive);
    case Relock(i) => ServeKeepsInv(s, i, Return(s.workers[i].timedout));
    case _ =>
  }

  lemma InvHolds(threads: int, steps: seq<Action>)
    requires threads >= 1
    ensures var r := Run(Next, Initial(threads), steps); r.Some? ==> Inv(r.value)
  {
    forall t, a | Inv(t) && Next(t, a).Some? ensures Inv(Next(t, a).value) { InvStep(t, a); }
    Invariance(Next, Inv, Initial(threads), steps);
  }

  // ---------------------------------------------------------------- the results

  /** In every run: the counter counts the live workers, never more than `parallelism`, and there
      is one whenever there is an item; and items are taken in the order of their addition. */
  lemma QueueIsServed(threads: int, steps: seq<Action>)
    requires threads >= 1 && Run(Next, Initial(threads), steps).Some?
    ensures var s := Run(Next, Initial(threads), steps).value;
      && s.queue.counter == Sum(s.workers, IsLive) <= s.queue.parallelism
      && (s.queue.items != [] ==> exists i :: 0 <= i < |s.workers| && !s.workers[i].Gone?)
      && s.taken <= s.added && s.added[|s.taken|..] == s.queue.items
  {
    InvHolds(threads, steps);
    var s := Run(Next, Initial(threads), steps).value;
    if s.queue.items != [] {
      var i := SumWitness(s.workers, IsLive);
      assert !s.workers[i].Gone?;
    }
  }

  /** No worker is alive, nothing is queued, and the engine has returned exactly once for every
      element ever added. */
  ghost predicate Drained(s: State)
  {
    && (forall i | 0 <= i < |s.workers| :: s.workers[i].Gone?)
    && s.queue.items == []
    && multiset(s.done) == multiset(s.added)
  }

  /** When workq_destroy has left its wait loop the work queue is drained. */
  lemma DestroyDrains(threads: int, steps: seq<Action>)
    requires threads >= 1 && Run(Next, Initial(threads), steps).Some?
    ensures var s := Run(Next, Initial(threads), steps).value;
      s.destroyer.Finished? ==> Drained(s)
  {
    InvHolds(threads, steps);
    var s := Run(Next, Initial(threads), steps).value;
    if s.destroyer.Finished? {
      forall i | 0 <= i < |s.workers| ensures s.workers[i].Gone? { SumMember(s.workers, i, IsLive); }
      GatherEmpty(s.workers, InHand);
      assert s.added == s.taken;
    }
  }

  /** workq_init accepts any number of threads; with none, nothing is ever served. So the queue is
      drained in every run exactly when at least one thread is allowed. */
  lemma DrainsIffSomeThreadAllowed(threads: int)
    ensures (forall steps :: var r := Run(Next, Initial(threads), steps);
               r.Some? && r.value.destroyer.Finished? ==> Drained(r.value))
      <==> threads >= 1
  {
    if threads >= 1 {
      forall steps | Run(Next, Initial(threads), steps).Some?
        ensures var s := Run(Next, Initial(threads), steps).value; s.destroyer.Finished? ==> Drained(s)
      {
        DestroyDrains(threads, steps);
      }
    } else {
      var s0 := Initial(threads);
      var s1 := Next(s0, AddItem(7)).value;
      assert s1.queue.items == [7];
      var s2 := Next(s1, CallDestroy).value;
      RunSnoc(Next, s0, [], s0, AddItem(7));
      RunSnoc(Next, s0, [] + [AddItem(7)], s1, CallDestroy);
      assert Run(Next, s0, [] + [AddItem(7)] + [CallDestroy]) == Some(s2);
    }
  }

  /** The destroyer is never stranded: while it sleeps a worker is alive. */
  lemma DestroyerIsNotStranded(threads: int, steps: seq<Action>)
    requires threads >= 1 && Run(Next, Initial(threads), steps).Some?
    ensures var s := Run(Next, Initial(threads), steps).value;
      s.destroyer.Asleep? ==> s.queue.counter > 0 && exists i :: 0 <= i < |s.workers| && !s.workers[i].Gone?
  {
    InvHolds(threads, steps);
    var s := Run(Next, Initial(threads), steps).value;
    if s.destroyer.Asleep? {
      var i := SumWitness(s.workers, IsLive);
      assert !s.workers[i].Gone?;
    }
  }

  /** Once `quit` is set no worker waits again, and the one that leaves last wakes the destroyer up:
      a worker that leaves while the destroyer sleeps does so exactly when no other is alive. */
  lemma LastToLeaveBroadcasts(s: State, a: Action)
    requires Inv(s) && s.queue.quit && Next(s, a).Some? && (a.Begin? || a.Wake? || a.Relock?)
    ensures var r := Next(s, a).value;
      && a.worker < |r.workers| && !r.workers[a.worker].Waiting?
      && (r.workers[a.worker].Gone? && s.destroyer.Asleep? ==>
            (r.destroyer.Awake? <==> forall i | 0 <= i < |r.workers| :: r.workers[i].Gone?))
  {
    hide Sum, Conserved;
    var i, r := a.worker, Next(s, a).value;
    SumUpdate(s.workers, i, r.workers[i], IsLive);
    if Sum(r.workers, IsLive) == 0 {
      forall j | 0 <= j < |r.workers| ensures r.workers[j].Gone? { SumMember(r.workers, j, IsLive); }
    } else {
      var j := SumWitness(r.workers, IsLive);
      assert !r.workers[j].Gone?;
    }
  }

  function Effort(w: Worker): nat
  {
    match w
    case Calling(_, _) => 3
    case Gone => 0
    case _ => 2
  }

  /** What is left to do before workq_destroy returns. */
  function Remaining(s: State): nat
  {
    2 * |s.queue.items| + Sum(s.workers, Effort)
    + (match s.destroyer case Finished => 0 case Awake => 2 case _ => 1)
  }

  lemma ServeProgresses(s: State, i: nat, entry: Entry)
    requires s.queue.quit && i < |s.workers| && Effort(s.workers[i]) == 2
    ensures Remaining(ServeStep(s, i, entry)) < Remaining(s) && ServeStep(s, i, entry).queue.quit
  {
    SumUpdate(s.workers, i, ServeStep(s, i, entry).workers[i], Effort);
  }

  /** Once workq_destroy waits, every step except a further add and a spurious wakeup brings its
      return nearer. */
  lemma DestroyProgresses(s: State, a: Action)
    requires Inv(s) && s.queue.quit && Next(s, a).Some? && !a.AddItem? && !a.SpuriousDestroyer?
    ensures Remaining(Next(s, a).value) < Remaining(s) && Next(s, a).value.queue.quit
  {
    match a
    case Begin(i) => ServeProgresses(s, i, Start);
    case Wake(i, timedout) => ServeProgresses(s, i, if timedout then TimedOut else Woken);
    case EngineReturns(i) => SumUpdate(s.workers, i, Returning(s.workers[i].timedout), Effort);
    case Relock(i) => ServeProgresses(s, i, Return(s.workers[i].timedout));
    case _ =>
  }

  /** And until it returns some such step is possible. */
  lemma DestroyIsNeverStuck(s: State)
    requires Inv(s) && s.queue.quit && !s.destroyer.Finished?
    ensures exists a: Action :: !a.AddItem? && !a.SpuriousDestroyer? && Next(s, a).Some?
  {
    if s.destroyer.Awake? {
      assert Next(s, CheckDestroyer).Some?;
    } else {
      var i := SumWitness(s.workers, IsLive);
      var a := match s.workers[i]
        case Starting => Begin(i)
        case Waiting => Wake(i, true)
        case Calling(_, _) => EngineReturns(i)
        case _ => Relock(i);
      assert Next(s, a).Some?;
    }
  }

  // ---------------------------------------------------------------- how soon an item is served

  /** Alive and not in its timed wait. */
  function IsBusy(w: Worker): nat { if w.Gone? || w.Waiting? then 0 else 1 }

  /** While another worker may be created, there is a busy worker for every queued item. */
  ghost predicate Attended(s: State)
  {
    s.queue.counter < s.queue.parallelism ==> |s.queue.items| <= Sum(s.workers, IsBusy)
  }

  lemma AddKeepsAttended(s: State, e: Element)
    requires Inv(s) && Attended(s) && Next(s, AddItem(e)).Some?
    ensures Attended(Next(s, AddItem(e)).value)
  {
    SumConcat(s.workers, [Starting], IsBusy);
  }

  lemma ServeKeepsAttended(s: State, i: nat, entry: Entry)
    requires Inv(s) && Attended(s) && i < |s.workers| && !s.workers[i].Gone? && !s.workers[i].Calling?
    ensures Attended(ServeStep(s, i, entry))
  {
    hide Inv, Sum;
    SumUpdate(s.workers, i, ServeStep(s, i, entry).workers[i], IsBusy);
  }

  lemma AttendedStep(s: State, a: Action)
    requires Inv(s) && Attended(s) && Next(s, a).Some?
    ensures Attended(Next(s, a).value)
  {
    hide Sum;
    match a
    case AddItem(e) => AddKeepsAttended(s, e);
    case Begin(i) => ServeKeepsAttended(s, i, Start);
    case Wake(i, timedout) => ServeKeepsAttended(s, i, if timedout then TimedOut else Woken);
    case EngineReturns(i) => SumUpdate(s.workers, i, Returning(s.workers[i].timedout), IsBusy);
    case Relock(i) => ServeKeepsAttended(s, i, Return(s.workers[i].timedout));
    case _ =>
  }

  /** An item is queued, and every worker that is alive sleeps through it, to the end of its timed wait. */
  ghost predicate Overslept(s: State)
  {
    && s.queue.items != [] && s.queue.counter >= 1
    && forall i | 0 <= i < |s.workers| :: s.workers[i].Waiting? || s.workers[i].Gone?
  }

  /** In every run: workq_add never signals a worker, `idle` being 0; and an item is overslept only when
      no more workers may be created. */
  lemma OversleptMeansFull(threads: int, steps: seq<Action>, e: Element)
    requires threads >= 1 && Run(Next, Initial(threads), steps).Some?
    ensures var s := Run(Next, Initial(threads), steps).value;
      && !Add(s.queue, e).1.Signalled?
      && (Overslept(s) ==> s.queue.counter == s.queue.parallelism)
  {
    var inv := (s: State) => Inv(s) && Attended(s);
    forall t, a | inv(t) && Next(t, a).Some? ensures inv(Next(t, a).value) {
      InvStep(t, a);
      AttendedStep(t, a);
    }
    Invariance(Next, inv, Initial(threads), steps);
    var s := Run(Next, Initial(threads), steps).value;
    if Overslept(s) { SumZero(s.workers, IsBusy); }
  }

  /** k workers have been created, have served an item each, and wait. */
  ghost predicate AllWait(s: State, k: nat)
  {
    && s.queue == Fields([], false, s.queue.parallelism, k, 0)
    && |s.workers| == k <= s.queue.parallelism
    && s.destroyer.NotCalled?
    && forall i | 0 <= i < k :: s.workers[i].Waiting?
  }

  /** One more worker is created, serves its item, and waits. */
  lemma OneMoreWaits(s: State, k: nat) returns (steps: seq<Action>, r: State)
    requires AllWait(s, k) && k < s.queue.parallelism
    ensures Run(Next, s, steps) == Some(r)
    ensures AllWait(r, k + 1) && r.queue.parallelism == s.queue.parallelism
  {
    steps := [AddItem(0), Begin(k), EngineReturns(k), Relock(k)];
    var s1 := Next(s, AddItem(0)).value;
    var s2 := Next(s1, Begin(k)).value;
    var s3 := Next(s2, EngineReturns(k)).value;
    r := Next(s3, Relock(k)).value;
    assert s1.queue.items == [0] && s2.queue.items == [];
    RunAlong(Next, [s, s1, s2, s3, r], steps);
  }

  lemma EverybodyWaits(s: State, k: nat) returns (steps: seq<Action>, r: State)
    requires AllWait(s, k)
    ensures Run(Next, s, steps) == Some(r)
    ensures AllWait(r, s.queue.parallelism) && r.queue.parallelism == s.queue.parallelism
    decreases s.queue.parallelism - k
  {
    steps, r := [], s;
    if k < s.queue.parallelism {
      var one, mid := OneMoreWaits(s, k);
      var more, end := EverybodyWaits(mid, k + 1);
      RunConcat(Next, s, one, more);
      steps, r := one + more, end;
    }
  }

  /** So an item can be overslept, whatever the number of threads, if there may be any. */
  lemma CanOversleepIff(threads: int)
    ensures (exists steps :: var r := Run(Next, Initial(threads), steps); r.Some? && Overslept(r.value))
      <==> threads >= 1
  {
    var s := Initial(threads);
    if threads >= 1 {
      var steps, r := EverybodyWaits(s, 0);
      RunSnoc(Next, s, steps, r, AddItem(0));
      assert Overslept(Next(r, AddItem(0)).value);
    } else {
      forall steps ensures var r := Run(Next, s, steps); r.Some? ==> !Overslept(r.value) {
        Invariance(Next, (t: State) => t.workers == [] && t.queue.counter == 0 && t.queue.parallelism <= 0, s, steps);
      }
    }
  }

  // ---------------------------------------------------------------- elasticity

  /** In every run: a worker that holds the mutex takes the first item when there is one; when there is none
      it is gone, and the counter falls by one, if the queue quits or the worker's wait has timed out, at once
      or before it called the engine; else it waits. */
  lemma WorkerDoesExactly(threads: int, steps: seq<Action>, i: nat, a: Action)
    requires a == Begin(i) || a == Wake(i, true) || a == Wake(i, false) || a == Relock(i)
    requires Run(Next, Initial(threads), steps).Some?
    requires Next(Run(Next, Initial(threads), steps).value, a).Some?
    ensures var s := Run(Next, Initial(threads), steps).value;
      var r := Next(s, a).value;
      var late := a == Wake(i, true) || (a == Relock(i) && s.workers[i].timedout);
      && i < |s.workers| == |r.workers|
      && r.workers[i] == (
           if s.queue.items != [] then Calling(s.queue.items[0], a == Wake(i, true))
           else if s.queue.quit || late then Gone
           else Waiting)
      && r.queue.counter == s.queue.counter - (if r.workers[i].Gone? then 1 else 0)
  {
  }

  /** The engine is done with the element, and the worker remembers whether it took it late. */
  lemma EngineHandsBack(s: State, i: nat)
    requires i < |s.workers| && s.workers[i].Calling?
    ensures Next(s, EngineReturns(i)) == Some(s.(
      workers := s.workers[i := Returning(s.workers[i].timedout)], done := s.done + [s.workers[i].element]))
  {
  }

  /** So a worker that took its item at the end of its timed wait leaves after the engine, unless more is
      queued, and does not wait once more. */
  lemma LateWorkerLeaves(s: State, i: nat)
    requires i < |s.workers| && s.workers[i].Waiting? && |s.queue.items| == 1
    ensures var r := Run(Next, s, [Wake(i, true), EngineReturns(i), Relock(i)]);
      && r.Some? && i < |r.value.workers| && r.value.workers[i].Gone?
      && r.value.queue.counter == s.queue.counter - 1 && r.value.done == s.done + s.queue.items
  {
    var s1 := Next(s, Wake(i, true)).value;
    EngineHandsBack(s1, i);
    var s2 := Next(s1, EngineReturns(i)).value;
    var s3 := Next(s2, Relock(i)).value;
    assert s.queue.items == [s.queue.items[0]];
    RunAlong(Next, [s, s1, s2, s3], [Wake(i, true), EngineReturns(i), Relock(i)]);
  }

  /** What a worker does by itself: it starts, comes to the end of its timed wait, and goes on when the
      engine returns. */
  predicate OwnStep(a: Action)
  {
    a.Begin? || (a.Wake? && a.timedout) || a.EngineReturns? || a.Relock?
  }

  function Toil(w: Worker): nat
  {
    match w
    case Starting => 2
    case Waiting => 1
    case Calling(_, _) => 3
    case Returning(_) => 2
    case Gone => 0
  }

  function AllToil(s: State): nat { 3 * |s.queue.items| + Sum(s.workers, Toil) }

  lemma ServeToils(s: State, i: nat, entry: Entry)
    requires i < |s.workers|
    requires match entry
      case Start => s.workers[i].Starting?
      case Woken => false
      case TimedOut => s.workers[i].Waiting?
      case Return(timedout) => s.workers[i] == Returning(timedout)
    ensures AllToil(ServeStep(s, i, entry)) < AllToil(s) && ServeStep(s, i, entry).added == s.added
  {
    SumUpdate(s.workers, i, ServeStep(s, i, entry).workers[i], Toil);
  }

  lemma OwnStepToils(s: State, a: Action)
    requires Next(s, a).Some? && OwnStep(a)
    ensures AllToil(Next(s, a).value) < AllToil(s) && Next(s, a).value.added == s.added
  {
    match a
    case Begin(i) => ServeToils(s, i, Start);
    case Wake(i, _) => ServeToils(s, i, TimedOut);
    case EngineReturns(i) => SumUpdate(s.workers, i, Returning(s.workers[i].timedout), Toil);
    case Relock(i) => ServeToils(s, i, Return(s.workers[i].timedout));
  }

  lemma CanStepAlone(s: State, i: nat) returns (a: Action)
    requires i < |s.workers| && !s.workers[i].Gone?
    ensures OwnStep(a) && Next(s, a).Some?
  {
    a := match s.workers[i]
      case Starting => Begin(i)
      case Waiting => Wake(i, true)
      case Calling(_, _) => EngineReturns(i)
      case _ => Relock(i);
  }

  lemma NobodyLeft(s: State)
    requires Inv(s) && forall i | 0 <= i < |s.workers| :: s.workers[i].Gone?
    ensures s.queue.counter == 0 && s.queue.items == [] && multiset(s.done) == multiset(s.added)
  {
    SumZero(s.workers, IsLive);
    GatherEmpty(s.workers, InHand);
    assert s.added == s.taken;
  }

  /** From every state that a run reaches, whether or not workq_destroy has been called, the workers' own
      steps serve everything that has been added and end with no worker left; and they cannot go on for
      ever without it, as each of them lowers AllToil. */
  lemma {:induction false} WorkersFinish(s: State) returns (steps: seq<Action>)
    requires Inv(s)
    ensures forall a | a in steps :: OwnStep(a)
    ensures var r := Run(Next, s, steps);
      && r.Some? && r.value.added == s.added && r.value.queue.counter == 0
      && r.value.queue.items == [] && multiset(r.value.done) == multiset(s.added)
      && forall i | 0 <= i < |r.value.workers| :: r.value.workers[i].Gone?
    decreases AllToil(s)
  {
    steps := [];
    if i: nat :| i < |s.workers| && !s.workers[i].Gone? {
      var a := CanStepAlone(s, i);
      OwnStepToils(s, a);
      InvStep(s, a);
      hide Inv, Next, AllToil;
      var more := WorkersFinish(Next(s, a).value);
      steps := [a] + more;
      assert steps[1..] == more;
    } else {
      NobodyLeft(s);
    }
  }

  // ---------------------------------------------------------------- what each thread can do

  /** An item can be added until workq_destroy has returned; a worker starts, comes to the end of its wait,
      and goes on after the engine; workq_destroy is called once, and looks again whenever it is awake. */
  lemma WhoCanStep(s: State, e: Element, i: nat, timedout: bool)
    requires i < |s.workers|
    ensures Next(s, AddItem(e)).Some? <==> !s.destroyer.Finished?
    ensures Next(s, Begin(i)).Some? <==> s.workers[i].Starting?
    ensures Next(s, Wake(i, timedout)).Some? <==> s.workers[i].Waiting?
    ensures Next(s, EngineReturns(i)).Some? <==> s.workers[i].Calling?
    ensures Next(s, Relock(i)).Some? <==> s.workers[i].Returning?
    ensures Next(s, CallDestroy).Some? <==> s.destroyer.NotCalled?
    ensures Next(s, SpuriousDestroyer).Some? <==> s.destroyer.Asleep?
    ensures Next(s, CheckDestroyer).Some? <==> s.destroyer.Awake?
  {
  }

  /** workq_destroy waits, from when it is called, just while workers are alive; a wakeup for nothing changes
      nothing. */
  lemma DestroyerWaits(s: State)
    requires Inv(s)
    ensures s.destroyer.NotCalled? ==>
      Next(s, CallDestroy).value.destroyer == if s.queue.counter > 0 then Asleep else Finished
    ensures s.destroyer.Asleep? ==> Run(Next, s, [SpuriousDestroyer, CheckDestroyer]) == Some(s)
  {
    if s.destroyer.Asleep? {
      RunAlong(Next, [s, Next(s, SpuriousDestroyer).value, s], [SpuriousDestroyer, CheckDestroyer]);
    }
  }

  /** A worker that is woken for nothing goes on waiting. */
  lemma VainWakeup(s: State, i: nat)
    requires i < |s.workers| && s.workers[i].Waiting? && s.queue.items == [] && !s.queue.quit
    ensures Next(s, Wake(i, false)) == Some(s)
  {
    assert s.workers[i := Waiting] == s.workers;
  }
}
