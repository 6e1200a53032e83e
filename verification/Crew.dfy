/** The work crew of chap4-pattern/crew.cc: workers that traverse a directory tree in parallel and
    detect its end by counting. */
module Crew {
  import opened Machines
  import opened Threads
  import opened LinkedFifo
  import opened FileTree

  /** A work item: a path, and what is found there. */
  datatype Item = Item(path: Path, entry: Entry)

  /** crew_t as its critical regions see it. */
  datatype Fields = Fields(workCount: int, queue: seq<Item>)

  /** The item is queued and counted (crew_start and, for a directory's entries, the workers). */
  function Push(c: Fields, item: Item): Fields
  {
    Fields(c.workCount + 1, c.queue + [item])
  }

  /** A worker looks for work: its wait goes on while the queue is empty. */
  function Take(c: Fields): (Fields, Option<Item>)
  {
    if c.queue == [] then (c, None) else (c.(queue := c.queue[1..]), Some(c.queue[0]))
  }

  /** An item is done; the result says whether it was the last. */
  function FinishItem(c: Fields): (Fields, bool)
  {
    (c.(workCount := c.workCount - 1), c.workCount - 1 <= 0)
  }

  /** The crew object: a linked queue and a counter. */
  class CrewObject {
    var workCount: int
    var first: Node?<Item>
    var last: Node?<Item>
    ghost var chain: seq<Node<Item>>

    ghost predicate Valid()
      reads this, chain
    {
      IsChain(first, last, chain)
    }

    ghost function View(): Fields
      reads this
    {
      Fields(workCount, Items(chain))
    }

    /** crew_create. */
    constructor ()
      ensures Valid() && chain == []
      ensures View() == Fields(0, [])
    {
      workCount := 0;
      first, last := null, null;
      chain := [];
    }

    method PushItem(item: Item)
      requires Valid()
      modifies this, chain
      ensures Valid() && |chain| == |old(chain)| + 1
      ensures chain[..|old(chain)|] == old(chain) && fresh(chain[|old(chain)|])
      ensures View() == Push(old(View()), item)
      ensures Items(chain) == old(Items(chain)) + [item] && workCount == old(workCount) + 1
    {
      if chain != [] { OnlyAt(chain, |chain| - 1); }
      var work := new Node(item);
      if first == null {
        first := work;
        last := work;
      } else {
        last.next := work;
        last := work;
      }
      ItemsSnoc(chain, work);
      NoRepeatsInsert(chain, |chain|, work);
      assert chain[..|chain|] + [work] + chain[|chain|..] == chain + [work];
      chain := chain + [work];
      workCount := workCount + 1;
    }

    method TakeItem() returns (r: Option<Item>)
      requires Valid()
      modifies this
      ensures Valid() && (chain == old(chain) || (old(chain) != [] && chain == old(chain)[1..]))
      ensures (View(), r) == Take(old(View()))
      ensures r == if old(Items(chain)) == [] then None else Some(old(Items(chain))[0])
      ensures Items(chain) == (if r.None? then [] else old(Items(chain))[1..]) && workCount == old(workCount)
    {
      if first == null { return None; }
      var work := first;
      ItemsRest(chain);
      ChainRest(first, last, chain);
      first := work.next;
      if first == null {
        last := null;
      }
      chain := chain[1..];
      r := Some(work.data);
    }

    method Finish() returns (finished: bool)
      requires Valid()
      modifies this`workCount
      ensures Valid()
      ensures (View(), finished) == FinishItem(old(View()))
      ensures workCount == old(workCount) - 1 && (finished <==> workCount <= 0)
    {
      workCount := workCount - 1;
      finished := workCount <= 0;
    }
  }

  // ---------------------------------------------------------------- the protocol

  /** Two waits share the condition `go`: a worker's first, for any work at all, and the one at the
      top of its loop, for a queued item. In between a worker holds an item: it is about to open it,
      is listing a directory (the next entry is the i-th), or is about to report it done. */
  datatype Worker =
    | New
    | WaitGo(awake: bool)
    | Ready
    | WaitItem(awake: bool)
    | Opening(item: Item)
    | Listing(path: Path, entries: seq<Entry>, next: nat)
    | Closing(path: Path)
    | Gone

  /** The caller of crew_start. */
  datatype Starter = NotCalled | WaitDone(awake: bool) | Returned

  /** `log` records the items done, and the directories that could not be opened. */
  datatype State = State(crew: Fields, workers: seq<Worker>, starter: Starter, root: Entry, log: seq<Visit>)

  datatype Action =
    | Begin(worker: nat)
    | TakeItem(worker: nat)
    | Open(worker: nat)
    | ListNext(worker: nat, pick: nat)
    | Finish(worker: nat)
    | Start(pick: nat)
    | CheckDone
    | Spurious(worker: nat)
    | SpuriousStarter

  function Initial(workers: nat, root: Entry): State
  {
    State(Fields(0, []), seq(workers, _ => New), NotCalled, root, [])
  }

  function AsleepOnGo(w: Worker): bool { w == WaitGo(false) || w == WaitItem(false) }

  function Wake(w: Worker): Worker
  {
    if w == WaitGo(false) then WaitGo(true) else if w == WaitItem(false) then WaitItem(true) else w
  }

  /** Queue an item and signal `go`. */
  function PushAndSignal(s: State, item: Item, pick: nat): Option<State>
  {
    match Signal(s.workers, AsleepOnGo, Wake, pick)
    case None => None
    case Some(workers) => Some(s.(crew := Push(s.crew, item), workers := workers))
  }

  /** What a worker does with an item once it has left the mutex. */
  function AfterOpen(item: Item): Worker
  {
    match item.entry
    case Leaf => Closing(item.path)
    case Directory(opens, entries) => if opens then Listing(item.path, entries, 0) else Ready
  }

  function Next(s: State, a: Action): Option<State>
  {
    match a
    case Begin(i) =>
      if !(i < |s.workers| && (s.workers[i] == New || s.workers[i] == WaitGo(true))) then None else
      Some(s.(workers := s.workers[i := if s.crew.workCount == 0 then WaitGo(false) else Ready]))
    case TakeItem(i) =>
      if !(i < |s.workers| && (s.workers[i] == Ready || s.workers[i] == WaitItem(true))) then None else
      var (crew, r) := Take(s.crew);
      Some(s.(crew := crew, workers := s.workers[i := if r.Some? then Opening(r.value) else WaitItem(false)]))
    case Open(i) =>
      if !(i < |s.workers| && s.workers[i].Opening?) then None else
      var item := s.workers[i].item;
      var failed := item.entry.Directory? && !item.entry.opens;
      Some(s.(workers := s.workers[i := AfterOpen(item)],
              log := if failed then s.log + [Visit(item.path, false)] else s.log))
    case ListNext(i, pick) =>
      if !(i < |s.workers| && s.workers[i].Listing?) then None else
      var Listing(path, entries, next) := s.workers[i];
      if next < |entries| then
        PushAndSignal(s.(workers := s.workers[i := Listing(path, entries, next + 1)]),
                      Item(path + [next], entries[next]), pick)
      else
        Some(s.(workers := s.workers[i := Closing(path)]))
    case Finish(i) =>
      if !(i < |s.workers| && s.workers[i].Closing?) then None else
      var (crew, finished) := FinishItem(s.crew);
      Some(s.(crew := crew,
              workers := s.workers[i := if finished then Gone else Ready],
              starter := if finished && s.starter.WaitDone? then WaitDone(true) else s.starter,
              log := s.log + [Visit(s.workers[i].path, true)]))
    case Start(pick) =>
      if s.starter.NotCalled? && s.crew.workCount <= 0 then
        PushAndSignal(s.(starter := WaitDone(false)), Item([], s.root), pick)
      else
        None
    case CheckDone =>
      if s.starter != WaitDone(true) then None else
      Some(s.(starter := if s.crew.workCount > 0 then WaitDone(false) else Returned))
    case Spurious(i) =>
      if !(i < |s.workers| && AsleepOnGo(s.workers[i])) then None else
      Some(s.(workers := s.workers[i := Wake(s.workers[i])]))
    case SpuriousStarter =>
      if s.starter == WaitDone(false) then Some(s.(starter := WaitDone(true))) else None
  }

  // ---------------------------------------------------------------- the ledger

  ghost function ItemDue(item: Item): multiset<Visit> { Visits(item.path, item.entry) }

  /** The visits that the item in a worker's hand is still due. */
  ghost function WorkerDue(w: Worker): multiset<Visit>
  {
    match w
    case Opening(item) => ItemDue(item)
    case Listing(path, entries, next) => multiset{Visit(path, true)} + VisitsBelow(path, entries, next)
    case Closing(path) => multiset{Visit(path, true)}
    case _ => multiset{}
  }

  /** Queued, in hand, and logged. */
  ghost function Ledger(queue: seq<Item>, workers: seq<Worker>, log: seq<Visit>): multiset<Visit>
  {
    Gather(queue, ItemDue) + Gather(workers, WorkerDue) + multiset(log)
  }

  lemma PushLedger(queue: seq<Item>, workers: seq<Worker>, log: seq<Visit>, item: Item)
    ensures Ledger(queue + [item], workers, log) == Ledger(queue, workers, log) + ItemDue(item)
  {
    GatherConcat(queue, [item], ItemDue);
    assert Gather([item], ItemDue) == ItemDue(item) by { assert [item][1..] == []; }
  }

  /** A worker changes what it holds. */
  lemma WorkerLedger(queue: seq<Item>, workers: seq<Worker>, log: seq<Visit>, i: nat, w: Worker)
    requires i < |workers|
    ensures Ledger(queue, workers[i := w], log) + WorkerDue(workers[i]) == Ledger(queue, workers, log) + WorkerDue(w)
    ensures WorkerDue(workers[i]) == WorkerDue(w) ==> Ledger(queue, workers[i := w], log) == Ledger(queue, workers, log)
  {
    GatherUpdate(workers, i, w, WorkerDue);
    GatherChange(workers, i, w, WorkerDue);
    var q, l := Gather(queue, ItemDue), multiset(log);
    var before, after := Gather(workers, WorkerDue), Gather(workers[i := w], WorkerDue);
    Reassociate(q, after, l, WorkerDue(workers[i]));
    Reassociate(q, before, l, WorkerDue(w));
  }

  lemma Reassociate<T>(a: multiset<T>, b: multiset<T>, c: multiset<T>, d: multiset<T>)
    ensures a + b + c + d == a + c + (b + d)
  {
  }

  lemma TakeLedger(queue: seq<Item>, workers: seq<Worker>, log: seq<Visit>, i: nat)
    requires i < |workers| && WorkerDue(workers[i]) == multiset{} && queue != []
    ensures Ledger(queue[1..], workers[i := Opening(queue[0])], log) == Ledger(queue, workers, log)
  {
    GatherChange(workers, i, Opening(queue[0]), WorkerDue);
    var rest, hands, l := Gather(queue[1..], ItemDue), Gather(workers, WorkerDue), multiset(log);
    assert rest + (hands + ItemDue(queue[0])) + l == (ItemDue(queue[0]) + rest) + hands + l;
  }

  lemma ListLedger(queue: seq<Item>, workers: seq<Worker>, log: seq<Visit>, i: nat)
    requires i < |workers| && workers[i].Listing? && workers[i].next < |workers[i].entries|
    ensures var Listing(path, entries, next) := workers[i];
      Ledger(queue + [Item(path + [next], entries[next])], workers[i := Listing(path, entries, next + 1)], log)
        == Ledger(queue, workers, log)
  {
    hide Ledger, Visits, VisitsBelow;
    var Listing(path, entries, next) := workers[i];
    var w, item := Listing(path, entries, next + 1), Item(path + [next], entries[next]);
    PushLedger(queue, workers[i := w], log, item);
    WorkerLedger(queue, workers, log, i, w);
    ListingDue(path, entries, next);
    Cancel(Ledger(queue, workers[i := w], log), Ledger(queue, workers, log), WorkerDue(w), ItemDue(item));
  }

  lemma ListingDue(path: Path, entries: seq<Entry>, next: nat)
    requires next < |entries|
    ensures WorkerDue(Listing(path, entries, next))
      == WorkerDue(Listing(path, entries, next + 1)) + ItemDue(Item(path + [next], entries[next]))
  {
  }

  lemma Cancel<T>(a: multiset<T>, b: multiset<T>, common: multiset<T>, item: multiset<T>)
    requires a + (common + item) == b + common
    ensures a + item == b
  {
    assert a + item == a + (common + item) - common;
    assert b == b + common - common;
  }

  /** What a worker holds is one visit, and it logs it. */
  lemma LogLedger(queue: seq<Item>, workers: seq<Worker>, log: seq<Visit>, i: nat, w: Worker, v: Visit)
    requires i < |workers| && WorkerDue(workers[i]) == multiset{v} && WorkerDue(w) == multiset{}
    ensures Ledger(queue, workers[i := w], log + [v]) == Ledger(queue, workers, log)
  {
    GatherChange(workers, i, w, WorkerDue);
    var q, l, after := Gather(queue, ItemDue), multiset(log), Gather(workers[i := w], WorkerDue);
    assert multiset(log + [v]) == l + multiset{v};
    assert q + after + (l + multiset{v}) == q + (after + multiset{v}) + l;
  }

  lemma SignalLedger(queue: seq<Item>, workers: seq<Worker>, log: seq<Visit>, pick: nat)
    requires Signal(workers, AsleepOnGo, Wake, pick).Some?
    ensures Ledger(queue, Signal(workers, AsleepOnGo, Wake, pick).value, log) == Ledger(queue, workers, log)
  {
    if pick < |workers| { WorkerLedger(queue, workers, log, pick, Wake(workers[pick])); }
  }

  // ---------------------------------------------------------------- the invariant

  function HasItem(w: Worker): nat { if w.Opening? || w.Listing? || w.Closing? then 1 else 0 }

  /** Awake, and certain to look at the queue before it sleeps again. */
  function WillLook(w: Worker): nat
  {
    if w.New? || w == WaitGo(true) || w.Ready? || w == WaitItem(true) then 1 else 0
  }

  function HasFailed(v: Visit): nat { if v.readable then 0 else 1 }

  /** Control: what the counter counts, and who is awake. */
  ghost predicate Counts(s: State)
  {
    && s.crew.workCount == |s.crew.queue| + Sum(s.workers, HasItem) + Sum(s.log, HasFailed)
    && (s.starter.NotCalled? ==> s.crew.workCount == 0)
    && (forall i | 0 <= i < |s.workers| && AsleepOnGo(s.workers[i]) :: |s.crew.queue| <= Sum(s.workers, WillLook))
    && (forall i | 0 <= i < |s.workers| && s.workers[i].Gone? :: !s.starter.NotCalled? && s.crew.workCount == 0)
    && (s.starter == WaitDone(false) ==> s.crew.workCount > 0)
    && (s.starter.Returned? ==> s.crew.workCount == 0)
  }

  /** Data: the visits the root is due are queued, in hand or logged. */
  ghost predicate LedgerOk(s: State)
  {
    Ledger(s.crew.queue, s.workers, s.log) == (if s.starter.NotCalled? then multiset{} else Visits([], s.root))
  }

  ghost predicate Inv(s: State)
  {
    Counts(s) && LedgerOk(s)
  }

  lemma CountsUpdate(workers: seq<Worker>, i: nat, w: Worker)
    requires i < |workers|
    ensures Sum(workers[i := w], HasItem) == Sum(workers, HasItem) - HasItem(workers[i]) + HasItem(w)
    ensures Sum(workers[i := w], WillLook) == Sum(workers, WillLook) - WillLook(workers[i]) + WillLook(w)
  {
    SumUpdate(workers, i, w, HasItem);
    SumUpdate(workers, i, w, WillLook);
  }

  lemma SignalCounts(workers: seq<Worker>, pick: nat)
    requires Signal(workers, AsleepOnGo, Wake, pick).Some?
    ensures var r := Signal(workers, AsleepOnGo, Wake, pick).value;
      && |r| == |workers|
      && Sum(r, HasItem) == Sum(workers, HasItem)
      && (forall i: nat | i < |r| :: r[i].Gone? <==> workers[i].Gone?)
      && (forall i: nat | i < |r| && AsleepOnGo(r[i]) ::
            AsleepOnGo(workers[i]) && Sum(r, WillLook) == Sum(workers, WillLook) + 1)
  {
    if pick < |workers| { CountsUpdate(workers, pick, Wake(workers[pick])); }
  }

  lemma NobodyWorksAtZero(s: State)
    requires Counts(s) && s.crew.workCount == 0
    ensures s.crew.queue == [] && Sum(s.workers, HasItem) == 0 && Sum(s.log, HasFailed) == 0
  {
  }

  lemma MoveKeepsCounts(s: State, i: nat, w: Worker)
    requires Counts(s) && i < |s.workers| && HasItem(s.workers[i]) == HasItem(w)
    requires AsleepOnGo(w) ==> s.crew.queue == []
    requires !s.workers[i].Gone? && !w.Gone?
    requires AsleepOnGo(w) || WillLook(s.workers[i]) <= WillLook(w)
    ensures Counts(s.(workers := s.workers[i := w]))
  {
    CountsUpdate(s.workers, i, w);
  }

  lemma TakeKeepsCounts(s: State, i: nat)
    requires Counts(s) && Next(s, TakeItem(i)).Some?
    ensures Counts(Next(s, TakeItem(i)).value)
  {
    if s.crew.queue == [] {
      MoveKeepsCounts(s, i, WaitItem(false));
    } else {
      CountsUpdate(s.workers, i, Opening(s.crew.queue[0]));
    }
  }

  lemma OpenKeepsCounts(s: State, i: nat)
    requires Counts(s) && Next(s, Open(i)).Some?
    ensures Counts(Next(s, Open(i)).value)
  {
    var item := s.workers[i].item;
    if AfterOpen(item).Ready? {
      SumMember(s.workers, i, HasItem);
      CountsUpdate(s.workers, i, Ready);
      SumConcat(s.log, [Visit(item.path, false)], HasFailed);
    } else {
      MoveKeepsCounts(s, i, AfterOpen(item));
    }
  }

  lemma ListKeepsCounts(s: State, i: nat, pick: nat)
    requires Counts(s) && Next(s, ListNext(i, pick)).Some?
    ensures Counts(Next(s, ListNext(i, pick)).value)
  {
    var Listing(path, entries, next) := s.workers[i];
    SumMember(s.workers, i, HasItem);
    if next < |entries| {
      MoveKeepsCounts(s, i, Listing(path, entries, next + 1));
      SignalCounts(s.workers[i := Listing(path, entries, next + 1)], pick);
    } else {
      MoveKeepsCounts(s, i, Closing(path));
    }
  }

  lemma FinishKeepsCounts(s: State, i: nat)
    requires Counts(s) && Next(s, Finish(i)).Some?
    ensures Counts(Next(s, Finish(i)).value)
  {
    SumMember(s.workers, i, HasItem);
    CountsUpdate(s.workers, i, Next(s, Finish(i)).value.workers[i]);
    SumConcat(s.log, [Visit(s.workers[i].path, true)], HasFailed);
  }

  lemma CountsStep(s: State, a: Action)
    requires Counts(s) && Next(s, a).Some?
    ensures Counts(Next(s, a).value)
  {
    match a
    case Begin(i) => MoveKeepsCounts(s, i, if s.crew.workCount == 0 then WaitGo(false) else Ready);
    case TakeItem(i) => TakeKeepsCounts(s, i);
    case Open(i) => OpenKeepsCounts(s, i);
    case ListNext(i, pick) => ListKeepsCounts(s, i, pick);
    case Finish(i) => FinishKeepsCounts(s, i);
    case Start(pick) => SignalCounts(s.workers, pick);
    case Spurious(i) => MoveKeepsCounts(s, i, Wake(s.workers[i]));
    case _ =>
  }

  lemma PushKeepsLedger(s: State, item: Item, pick: nat)
    requires PushAndSignal(s, item, pick).Some?
    ensures var r := PushAndSignal(s, item, pick).value;
      Ledger(r.crew.queue, r.workers, r.log) == Ledger(s.crew.queue + [item], s.workers, s.log)
  {
    SignalLedger(s.crew.queue + [item], s.workers, s.log, pick);
  }

  lemma ListKeepsLedger(s: State, i: nat, pick: nat)
    requires LedgerOk(s) && Next(s, ListNext(i, pick)).Some?
    ensures LedgerOk(Next(s, ListNext(i, pick)).value)
  {
    hide Ledger;
    var Listing(path, entries, next) := s.workers[i];
    if next < |entries| {
      PushKeepsLedger(s.(workers := s.workers[i := Listing(path, entries, next + 1)]),
                      Item(path + [next], entries[next]), pick);
      ListLedger(s.crew.queue, s.workers, s.log, i);
    } else {
      WorkerLedger(s.crew.queue, s.workers, s.log, i, Closing(path));
    }
  }

  lemma MoveKeepsLedger(s: State, i: nat, w: Worker)
    requires LedgerOk(s) && i < |s.workers| && WorkerDue(s.workers[i]) == WorkerDue(w)
    ensures LedgerOk(s.(workers := s.workers[i := w]))
  {
    WorkerLedger(s.crew.queue, s.workers, s.log, i, w);
  }

  lemma TakeKeepsLedger(s: State, i: nat)
    requires LedgerOk(s) && Next(s, TakeItem(i)).Some?
    ensures LedgerOk(Next(s, TakeItem(i)).value)
  {
    hide Ledger;
    if s.crew.queue == [] {
      MoveKeepsLedger(s, i, WaitItem(false));
    } else {
      TakeLedger(s.crew.queue, s.workers, s.log, i);
    }
  }

  lemma OpenKeepsLedger(s: State, i: nat)
    requires LedgerOk(s) && Next(s, Open(i)).Some?
    ensures LedgerOk(Next(s, Open(i)).value)
  {
    hide Ledger;
    var item := s.workers[i].item;
    if AfterOpen(item).Ready? {
      LogLedger(s.crew.queue, s.workers, s.log, i, Ready, Visit(item.path, false));
    } else {
      MoveKeepsLedger(s, i, AfterOpen(item));
    }
  }

  lemma FinishKeepsLedger(s: State, i: nat)
    requires Counts(s) && LedgerOk(s) && Next(s, Finish(i)).Some?
    ensures LedgerOk(Next(s, Finish(i)).value)
  {
    hide Ledger;
    var r := Next(s, Finish(i)).value;
    LogLedger(s.crew.queue, s.workers, s.log, i, r.workers[i], Visit(s.workers[i].path, true));
  }

  lemma StartKeepsLedger(s: State, pick: nat)
    requires LedgerOk(s) && Next(s, Start(pick)).Some?
    ensures LedgerOk(Next(s, Start(pick)).value)
  {
    hide Ledger, Visits;
    PushKeepsLedger(s.(starter := WaitDone(false)), Item([], s.root), pick);
    PushLedger(s.crew.queue, s.workers, s.log, Item([], s.root));
    assert multiset{} + ItemDue(Item([], s.root)) == Visits([], s.root);
  }

  lemma LedgerStep(s: State, a: Action)
    requires Counts(s) && LedgerOk(s) && Next(s, a).Some?
    ensures LedgerOk(Next(s, a).value)
  {
    hide Ledger;
    match a
    case Begin(i) => MoveKeepsLedger(s, i, if s.crew.workCount == 0 then WaitGo(false) else Ready);
    case TakeItem(i) => TakeKeepsLedger(s, i);
    case Open(i) => OpenKeepsLedger(s, i);
    case ListNext(i, pick) => ListKeepsLedger(s, i, pick);
    case Finish(i) => FinishKeepsLedger(s, i);
    case Start(pick) => StartKeepsLedger(s, pick);
    case Spurious(i) => MoveKeepsLedger(s, i, Wake(s.workers[i]));
    case _ =>
  }

  lemma InvStep(s: State, a: Action)
    requires Inv(s) && Next(s, a).Some?
    ensures Inv(Next(s, a).value)
  {
    CountsStep(s, a);
    LedgerStep(s, a);
  }

  lemma InitialInv(workers: nat, root: Entry)
    ensures Inv(Initial(workers, root))
  {
    var s := Initial(workers, root);
    SumZero(s.workers, HasItem);
    GatherEmpty(s.workers, WorkerDue);
  }

  lemma InvHolds(workers: nat, root: Entry, steps: seq<Action>)
    ensures var r := Run(Next, Initial(workers, root), steps);
      r.Some? ==> Inv(r.value) && r.value.root == root && |r.value.workers| == workers
  {
    hide Counts, LedgerOk;
    var inv := (s: State) => Inv(s) && s.root == root && |s.workers| == workers;
    InitialInv(workers, root);
    forall t, a | inv(t) && Next(t, a).Some? ensures inv(Next(t, a).value) { InvStep(t, a); }
    Invariance(Next, inv, Initial(workers, root), steps);
  }

  // ---------------------------------------------------------------- termination detection

  /** In every run work_count is the queued items, the items in hand, and the directories that
      could not be opened (whose count is never taken back). */
  lemma WorkCountIsExact(workers: nat, root: Entry, steps: seq<Action>)
    requires Run(Next, Initial(workers, root), steps).Some?
    ensures var s := Run(Next, Initial(workers, root), steps).value;
      s.crew.workCount == |s.crew.queue| + Sum(s.workers, HasItem) + Sum(s.log, HasFailed)
  {
    InvHolds(workers, root, steps);
  }

  /** When crew_start returns, every directory could be opened, nothing is queued or in hand, and
      every node of the tree has been processed exactly once. */
  lemma ReturnMeansAllProcessed(workers: nat, root: Entry, steps: seq<Action>, path: Path)
    requires Run(Next, Initial(workers, root), steps).Some?
    ensures var s := Run(Next, Initial(workers, root), steps).value;
      s.starter.Returned? ==>
        && AllOpen(root)
        && s.crew.queue == [] && Sum(s.workers, HasItem) == 0
        && multiset(s.log)[Visit(path, true)] == (if IsNode(root, path) then 1 else 0)
        && multiset(s.log)[Visit(path, false)] == 0
  {
    InvHolds(workers, root, steps);
    var s := Run(Next, Initial(workers, root), steps).value;
    if s.starter.Returned? {
      NobodyWorksAtZero(s);
      forall i | 0 <= i < |s.workers| ensures WorkerDue(s.workers[i]) == multiset{} {
        SumMember(s.workers, i, HasItem);
      }
      GatherEmpty(s.workers, WorkerDue);
      assert multiset(s.log) == Visits([], root);
      forall v | v in Visits([], root) ensures v.readable { LoggedReadable(s.log, v); }
      OpenIffNoFailure([], root);
      VisitsAreNodes([], root, Visit(path, true));
      VisitsAreNodes([], root, Visit(path, false));
      assert path[0..] == path;
    }
  }

  lemma LoggedReadable(log: seq<Visit>, v: Visit)
    requires Sum(log, HasFailed) == 0 && v in multiset(log)
    ensures v.readable
  {
    var i :| 0 <= i < |log| && log[i] == v;
    SumMember(log, i, HasFailed);
  }

  // ---------------------------------------------------------------- progress

  predicate IsAwake(w: Worker) { !AsleepOnGo(w) && !w.Gone? }

  /** A worker that reports an item done leaves exactly when that was the last of the work, and then
      wakes crew_start up; else it looks for more. */
  lemma LastFinisherLeaves(s: State, i: nat)
    requires Inv(s) && Next(s, Finish(i)).Some?
    ensures var r := Next(s, Finish(i)).value;
      && |r.workers| == |s.workers|
      && r.workers[i] == (if r.crew.workCount == 0 then Gone else Ready)
      && (r.crew.workCount == 0 ==> !s.starter.Returned? && r.starter == WaitDone(true) && r.crew.queue == [])
  {
    hide LedgerOk;
    FinishKeepsCounts(s, i);
    SumMember(s.workers, i, HasItem);
  }

  /** While there is work other than the directories that failed to open, a worker is awake, although
      two different waits share `go`. */
  lemma WorkKeepsAWorkerAwake(s: State)
    requires Inv(s) && s.workers != [] && s.crew.workCount > Sum(s.log, HasFailed)
    ensures exists i: nat :: i < |s.workers| && IsAwake(s.workers[i])
  {
    hide LedgerOk;
    if s.crew.queue == [] {
      var i := SumWitness(s.workers, HasItem);
      assert IsAwake(s.workers[i]);
    } else if AsleepOnGo(s.workers[0]) {
      var i := SumWitness(s.workers, WillLook);
      assert IsAwake(s.workers[i]);
    } else {
      assert IsAwake(s.workers[0]);
    }
  }

  lemma NoFailures(s: State)
    requires Inv(s) && AllOpen(s.root)
    ensures Sum(s.log, HasFailed) == 0
  {
    if Sum(s.log, HasFailed) > 0 {
      var i := SumWitness(s.log, HasFailed);
      assert s.log[i] in multiset(s.log);
      assert s.log[i] in Ledger(s.crew.queue, s.workers, s.log);
      OpenIffNoFailure([], s.root);
    }
  }

  /** The effort that an item takes, in steps: every entry below it is queued, taken and reported. */
  function Effort(e: Entry): nat
    decreases e, 0
  {
    match e
    case Leaf => 3
    case Directory(_, entries) => EffortBelow(entries, 0) + 1
  }

  function EffortBelow(entries: seq<Entry>, i: nat): (r: nat)
    ensures r >= 3
    decreases entries, |entries| - i
  {
    if i >= |entries| then 3 else Effort(entries[i]) + 3 + EffortBelow(entries, i + 1)
  }

  function ItemEffort(item: Item): nat { Effort(item.entry) }

  function WorkerEffort(w: Worker): nat
  {
    match w
    case New => 2
    case WaitGo(awake) => if awake then 2 else 0
    case Ready => 1
    case WaitItem(awake) => if awake then 1 else 0
    case Opening(item) => Effort(item.entry)
    case Listing(_, entries, next) => EffortBelow(entries, next)
    case Closing(_) => 2
    case Gone => 0
  }

  function StarterEffort(s: State): nat
  {
    match s.starter
    case NotCalled => Effort(s.root) + 3
    case WaitDone(awake) => if awake then 1 else 0
    case Returned => 0
  }

  /** The total size of what has not been processed. */
  function Remaining(s: State): nat
  {
    Sum(s.crew.queue, ItemEffort) + Sum(s.workers, WorkerEffort) + StarterEffort(s)
  }

  lemma PushEffort(s: State, item: Item, pick: nat)
    requires PushAndSignal(s, item, pick).Some?
    ensures var r := PushAndSignal(s, item, pick).value;
      Sum(r.crew.queue, ItemEffort) == Sum(s.crew.queue, ItemEffort) + ItemEffort(item)
      && Sum(r.workers, WorkerEffort) <= Sum(s.workers, WorkerEffort) + 2
  {
    SumConcat(s.crew.queue, [item], ItemEffort);
    assert Sum([item], ItemEffort) == ItemEffort(item) by { assert [item][1..] == []; }
    if pick < |s.workers| { SumUpdate(s.workers, pick, Wake(s.workers[pick]), WorkerEffort); }
  }

  lemma EffortIsPositive(e: Entry)
    ensures Effort(e) >= 3
  {
  }

  /** A worker goes on to something that takes less. */
  lemma WorkerProgresses(s: State, r: State, i: nat)
    requires i < |s.workers| == |r.workers| && r.workers == s.workers[i := r.workers[i]]
    requires r.crew.queue == s.crew.queue
    requires WorkerEffort(r.workers[i]) + StarterEffort(r) < WorkerEffort(s.workers[i]) + StarterEffort(s)
    ensures Remaining(r) < Remaining(s)
  {
    SumUpdate(s.workers, i, r.workers[i], WorkerEffort);
  }

  lemma TakeProgresses(s: State, i: nat)
    requires Next(s, TakeItem(i)).Some?
    ensures Remaining(Next(s, TakeItem(i)).value) < Remaining(s)
  {
    SumUpdate(s.workers, i, Next(s, TakeItem(i)).value.workers[i], WorkerEffort);
  }

  /** Every step but a spurious wakeup brings the end of the traversal nearer. */
  lemma StepsProgress(s: State, a: Action)
    requires Next(s, a).Some? && !a.Spurious? && !a.SpuriousStarter?
    ensures Remaining(Next(s, a).value) < Remaining(s)
  {
    hide PushAndSignal, Sum;
    var r := Next(s, a).value;
    match a
    case Begin(i) => WorkerProgresses(s, r, i);
    case TakeItem(i) => TakeProgresses(s, i);
    case Open(i) =>
      EffortIsPositive(s.workers[i].item.entry);
      WorkerProgresses(s, r, i);
    case ListNext(i, pick) => ListingProgresses(s, i, pick);
    case Finish(i) => WorkerProgresses(s, r, i);
    case Start(pick) => StartProgresses(s, pick);
    case _ =>
  }

  lemma StartProgresses(s: State, pick: nat)
    requires Next(s, Start(pick)).Some?
    ensures Remaining(Next(s, Start(pick)).value) < Remaining(s)
  {
    PushEffort(s.(starter := WaitDone(false)), Item([], s.root), pick);
  }

  lemma ListingProgresses(s: State, i: nat, pick: nat)
    requires Next(s, ListNext(i, pick)).Some?
    ensures Remaining(Next(s, ListNext(i, pick)).value) < Remaining(s)
  {
    var Listing(path, entries, next) := s.workers[i];
    var w := if next < |entries| then Listing(path, entries, next + 1) else Closing(path);
    SumUpdate(s.workers, i, w, WorkerEffort);
    if next < |entries| {
      PushEffort(s.(workers := s.workers[i := w]), Item(path + [next], entries[next]), pick);
    }
  }

  /** A signal can always be sent: to a sleeper, or to nobody. */
  lemma SomePick(workers: seq<Worker>) returns (pick: nat)
    ensures Signal(workers, AsleepOnGo, Wake, pick).Some?
  {
    if i: nat :| i < |workers| && AsleepOnGo(workers[i]) { pick := i; } else { pick := 0; }
  }

  lemma AwakeCanStep(s: State, i: nat) returns (a: Action)
    requires i < |s.workers| && IsAwake(s.workers[i])
    ensures Next(s, a).Some? && !a.Spurious? && !a.SpuriousStarter?
  {
    match s.workers[i]
    case New => a := Begin(i);
    case WaitGo(_) => a := Begin(i);
    case Ready => a := TakeItem(i);
    case WaitItem(_) => a := TakeItem(i);
    case Opening(_) => a := Open(i);
    case Listing(path, entries, next) =>
      var pick := SomePick(s.workers[i := Listing(path, entries, next + 1)]);
      a := ListNext(i, pick);
    case Closing(_) => a := Finish(i);
  }

  /** While every directory opens, the traversal is never stuck before crew_start returns. */
  lemma NeverStuck(s: State) returns (a: Action)
    requires Inv(s) && AllOpen(s.root) && s.workers != [] && !s.starter.Returned?
    ensures Next(s, a).Some? && !a.Spurious? && !a.SpuriousStarter?
  {
    match s.starter
    case NotCalled =>
      var pick := SomePick(s.workers);
      a := Start(pick);
    case WaitDone(awake) =>
      if awake {
        a := CheckDone;
      } else {
        NoFailures(s);
        WorkKeepsAWorkerAwake(s);
        var i: nat :| i < |s.workers| && IsAwake(s.workers[i]);
        a := AwakeCanStep(s, i);
      }
  }

  lemma {:induction false} RunsToReturn(s: State) returns (steps: seq<Action>)
    requires Inv(s) && AllOpen(s.root) && s.workers != []
    ensures var r := Run(Next, s, steps); r.Some? && r.value.starter.Returned?
    decreases Remaining(s)
  {
    hide Counts, LedgerOk;
    steps := [];
    if !s.starter.Returned? {
      var a := NeverStuck(s);
      InvStep(s, a);
      StepsProgress(s, a);
      RootStays(s, a);
      var more := RunsToReturn(Next(s, a).value);
      steps := [a] + more;
      assert steps[1..] == more;
    }
  }

  lemma RootStays(s: State, a: Action)
    requires Next(s, a).Some?
    ensures Next(s, a).value.root == s.root && |Next(s, a).value.workers| == |s.workers|
  {
  }

  /** Without workers nothing is ever processed. */
  lemma NobodyLogs(root: Entry, steps: seq<Action>)
    ensures var r := Run(Next, Initial(0, root), steps); r.Some? ==> r.value.log == []
  {
    Invariance(Next, (s: State) => s.workers == [] && s.log == [], Initial(0, root), steps);
  }

  /** crew_start can return exactly when there is a worker and every directory of the tree can be
      opened: one that cannot leaves work_count above zero for ever. */
  lemma ReturnsIffAllOpen(workers: nat, root: Entry)
    ensures (exists steps :: var r := Run(Next, Initial(workers, root), steps); r.Some? && r.value.starter.Returned?)
      <==> workers > 0 && AllOpen(root)
  {
    var s := Initial(workers, root);
    if workers > 0 && AllOpen(root) {
      InitialInv(workers, root);
      var steps := RunsToReturn(s);
    }
    forall steps | Run(Next, s, steps).Some? && Run(Next, s, steps).value.starter.Returned?
      ensures workers > 0 && AllOpen(root)
    {
      ReturnMeansAllProcessed(workers, root, steps, []);
      if workers == 0 { NobodyLogs(root, steps); }
    }
  }

  // ---------------------------------------------------------------- what each thread can do

  /** A worker moves unless it sleeps on `go` or is gone, the same way whichever of the two waits it was in;
      crew_start is called once, and looks again whenever it is awake. */
  lemma WhoCanStep(s: State, i: nat)
    requires i < |s.workers|
    ensures Next(s, Begin(i)).Some? <==> s.workers[i] == New || s.workers[i] == WaitGo(true)
    ensures Next(s, TakeItem(i)).Some? <==> s.workers[i] == Ready || s.workers[i] == WaitItem(true)
    ensures Next(s, Open(i)).Some? <==> s.workers[i].Opening?
    ensures (exists pick :: Next(s, ListNext(i, pick)).Some?) <==> s.workers[i].Listing?
    ensures Next(s, Finish(i)).Some? <==> s.workers[i].Closing?
    ensures Next(s, Spurious(i)).Some? <==> s.workers[i] == WaitGo(false) || s.workers[i] == WaitItem(false)
    ensures Next(s, CheckDone).Some? <==> s.starter == WaitDone(true)
    ensures Next(s, SpuriousStarter).Some? <==> s.starter == WaitDone(false)
  {
    if s.workers[i].Listing? {
      var Listing(path, entries, next) := s.workers[i];
      var pick := SomePick(s.workers[i := Listing(path, entries, next + 1)]);
      assert Next(s, ListNext(i, pick)).Some?;
    }
  }

  lemma CanStart(s: State)
    ensures (exists pick :: Next(s, Start(pick)).Some?) <==> s.starter.NotCalled? && s.crew.workCount <= 0
  {
    var pick := SomePick(s.workers);
    assert Next(s, Start(pick)).Some? <==> s.starter.NotCalled? && s.crew.workCount <= 0;
  }

  /** A worker that is woken for nothing goes back to the wait that it was in: the first for any work at all,
      the other for a queued item. */
  lemma VainWakeup(s: State, i: nat)
    requires i < |s.workers|
    ensures s.workers[i] == WaitGo(false) && s.crew.workCount == 0 ==>
      Run(Next, s, [Spurious(i), Begin(i)]) == Some(s)
    ensures s.workers[i] == WaitItem(false) && s.crew.queue == [] ==>
      Run(Next, s, [Spurious(i), TakeItem(i)]) == Some(s)
  {
    if s.workers[i] == WaitGo(false) && s.crew.workCount == 0 {
      var awake := Next(s, Spurious(i)).value;
      assert awake.workers[i := WaitGo(false)] == s.workers;
      RunAlong(Next, [s, awake, s], [Spurious(i), Begin(i)]);
    }
    if s.workers[i] == WaitItem(false) && s.crew.queue == [] {
      var awake := Next(s, Spurious(i)).value;
      assert awake.workers[i := WaitItem(false)] == s.workers;
      RunAlong(Next, [s, awake, s], [Spurious(i), TakeItem(i)]);
    }
  }

  lemma StarterVainWakeup(s: State)
    requires Inv(s) && s.starter == WaitDone(false)
    ensures Run(Next, s, [SpuriousStarter, CheckDone]) == Some(s)
  {
    hide LedgerOk;
    RunAlong(Next, [s, Next(s, SpuriousStarter).value, s], [SpuriousStarter, CheckDone]);
  }
}
