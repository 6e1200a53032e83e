/** The pipeline of chap4-pattern/pipe.cc: stages joined by one-place cells. */
module Pipeline {
  import opened Machines
  import opened Threads

  /** As written, a stage waits while its data is ready; repaired, while it is not. */
  datatype Variant = AsWritten | Repaired

  /** `data_ready` and `data` of a stage_t. */
  datatype Cell = Cell(ready: bool, data: int)

  /** pipe_send, with the cell's mutex held: wait while the cell is full, else fill it. */
  function Send(c: Cell, value: int): (Cell, bool)
  {
    if c.ready then (c, false) else (Cell(true, value), true)
  }

  /** The test of pipe_stage's wait loop. */
  predicate MustWait(v: Variant, c: Cell)
  {
    if v.AsWritten? then c.ready else !c.ready
  }

  /** The cell is empty again. */
  function Clear(c: Cell): Cell { c.(ready := false) }

  /** pipe_result, with the tail's mutex held. */
  function Receive(c: Cell): (Cell, Option<int>)
  {
    if !c.ready then (c, None) else (Clear(c), Some(c.data))
  }

  /** A stage object: a cell, and the link to the next one. The cell is a buffer of one place: `sent`
      and `taken` record the values put into it and those taken out. */
  class Stage {
    var dataReady: bool
    var data: int
    var next: Stage?
    ghost var sent: seq<int>
    ghost var taken: seq<int>

    function View(): Cell
      reads this
    {
      Cell(dataReady, data)
    }

    ghost predicate Valid()
      reads this
    {
      sent == taken + (if dataReady then [data] else [])
    }

    /** pipe_create leaves `data` as it finds it. */
    constructor (memory: int)
      ensures Valid() && View() == Cell(false, memory) && next == null
      ensures sent == taken == []
    {
      dataReady := false;
      data := memory;
      next := null;
      sent, taken := [], [];
    }

    /** pipe_send: sent when everything sent before has been taken. */
    method SendTo(value: int) returns (ok: bool)
      requires Valid()
      modifies this`dataReady, this`data, this`sent
      ensures Valid() && (View(), ok) == Send(old(View()), value)
      ensures ok <==> old(sent) == taken
      ensures sent == if ok then old(sent) + [value] else old(sent)
    {
      if dataReady { return false; }
      data := value;
      dataReady := true;
      sent := sent + [value];
      ok := true;
    }

    /** The test of pipe_stage, on whether a value has been sent and not yet taken. */
    method WaitsForData(variant: Variant) returns (wait: bool)
      requires Valid()
      ensures wait <==> MustWait(variant, View())
      ensures wait <==> (variant.Repaired? <==> sent == taken)
    {
      match variant {
        case AsWritten => wait := dataReady;
        case Repaired => wait := !dataReady;
      }
    }

    /** The stage has passed its value on, if it had one: nothing is left to take. */
    method ClearData()
      requires Valid()
      modifies this`dataReady, this`taken
      ensures Valid() && View() == Clear(old(View()))
      ensures taken == sent
    {
      dataReady := false;
      taken := sent;
    }

    /** pipe_result, at the tail: the oldest value not yet taken, if there is one. */
    method ReceiveFrom() returns (result: Option<int>)
      requires Valid()
      modifies this`dataReady, this`taken
      ensures Valid() && (View(), result) == Receive(old(View()))
      ensures taken == sent
      ensures result == if |old(taken)| < |sent| then Some(sent[|old(taken)|]) else None
    {
      if !dataReady { return None; }
      result := Some(data);
      dataReady := false;
      taken := sent;
    }
  }

  /** Distinct stages, linked in order, none of which has data ready. */
  ghost predicate IsPipe(chain: seq<Stage>, memory: nat -> int)
    reads chain
  {
    && (forall i | 0 <= i < |chain| ::
          chain[i].View() == Cell(false, memory(i)) && chain[i].sent == chain[i].taken == [])
    && (forall i | 0 <= i < |chain| :: chain[i].next == if i + 1 < |chain| then chain[i + 1] else null)
    && (forall i | 0 <= i < |chain| :: chain[i] !in chain[..i])
  }

  /** One turn of pipe_create's loop: a new stage, and the last one's link to it. */
  method AddStage(last: Stage?, index: nat, memory: nat -> int, ghost chain: seq<Stage>) returns (stage: Stage)
    requires IsPipe(chain, memory) && index == |chain| && last == if index == 0 then null else chain[index - 1]
    modifies if last == null then {} else {last}
    ensures fresh(stage) && IsPipe(chain + [stage], memory)
  {
    stage := new Stage(memory(index));
    if last != null {
      forall i | 0 <= i < index - 1 ensures chain[i] != last { assert chain[i] in chain[..index - 1]; }
      last.next := stage;
    }
    ghost var longer := chain + [stage];
    forall i | 0 <= i < |longer| ensures longer[i] !in longer[..i] {
      assert i < index ==> longer[i] == chain[i] && longer[..i] == chain[..i];
    }
  }

  /** pipe_create: `stages` + 1 stages; the last one is the tail, and has no thread of its own. */
  method PipeCreate(stages: nat, memory: nat -> int) returns (head: Stage, tail: Stage, ghost chain: seq<Stage>)
    ensures IsPipe(chain, memory) && forall i | 0 <= i < |chain| :: fresh(chain[i])
    ensures |chain| == stages + 1 && head == chain[0] && tail == chain[stages]
  {
    var first: Stage?, last: Stage? := null, null;
    chain := [];
    for index := 0 to stages + 1
      invariant |chain| == index && IsPipe(chain, memory) && forall i | 0 <= i < index :: fresh(chain[i])
      invariant if index == 0 then first == null && last == null else first == chain[0] && last == chain[index - 1]
    {
      var stage := AddStage(last, index, memory, chain);
      if last == null { first := stage; }
      last := stage;
      chain := chain + [stage];
    }
    head, tail := first, last;
  }

  // ---------------------------------------------------------------- the protocol

  /** A stage's thread holds its own mutex except before it starts and while it waits for data; it
      keeps it while it sends to the next stage. */
  datatype Thread =
    | Starting
    | WaitData(awake: bool)
    | SendLock(value: int)
    | SendWait(value: int, awake: bool)
    | Sent

  /** A caller of pipe_start and pipe_result. */
  datatype Caller =
    | Idle
    | StartLock(value: int)
    | StartWait(value: int, awake: bool)
    | ResultLock
    | ResultWait(awake: bool)

  /** `inputs` records the values given to pipe_start, in the order of the calls; `entered` those that are
      in the first cell or have left it, in that order; `delivered` those got from pipe_result. */
  datatype State = State(
    variant: Variant,
    cells: seq<Cell>,
    threads: seq<Thread>,
    callers: seq<Caller>,
    active: int,
    inputs: seq<int>,
    entered: seq<int>,
    delivered: seq<int>)
  {
    function Stages(): nat { |threads| }
  }

  /** `pick` is the sleeping caller that a signal wakes up. */
  datatype Action =
    | Enter(stage: nat)
    | SendOn(stage: nat, pick: nat)
    | ClearOwn(stage: nat, pick: nat)
    | CallStart(caller: nat, value: int)
    | StartSend(caller: nat, pick: nat)
    | CallResult(caller: nat)
    | TakeResult(caller: nat, pick: nat)
    | SpuriousStage(stage: nat)
    | SpuriousCaller(caller: nat)

  /** `memory` is what each cell's `data` holds before it is first set. */
  function Initial(variant: Variant, callers: nat, stages: nat, memory: nat -> int): State
  {
    State(variant, seq(stages + 1, i requires 0 <= i <= stages => Cell(false, memory(i))),
          seq(stages, _ => Starting), seq(callers, _ => Idle), 0, [], [], [])
  }

  /** The cell's mutex is held by its own stage. */
  predicate MutexHeld(s: State, i: nat)
  {
    i < |s.threads| && (s.threads[i].SendLock? || s.threads[i].SendWait? || s.threads[i].Sent?)
  }

  function WakeThread(t: Thread): Thread
  {
    match t
    case WaitData(_) => WaitData(true)
    case SendWait(value, _) => SendWait(value, true)
    case _ => t
  }

  function WakeCaller(c: Caller): Caller
  {
    match c
    case StartWait(value, _) => StartWait(value, true)
    case ResultWait(_) => ResultWait(true)
    case _ => c
  }

  predicate AsleepStart(c: Caller) { c.StartWait? && !c.awake }

  predicate AsleepResult(c: Caller) { c.ResultWait? && !c.awake }

  function SignalCallers(s: State, asleep: Caller -> bool, pick: nat): Option<State>
  {
    match Signal(s.callers, asleep, WakeCaller, pick)
    case None => None
    case Some(callers) => Some(s.(callers := callers))
  }

  /** Signal `avail` of cell i: its stage waits there, or callers of pipe_result when it is the tail. */
  function SignalAvail(s: State, i: nat, pick: nat): Option<State>
  {
    if i < |s.threads| then
      Some(if s.threads[i].WaitData? then s.(threads := s.threads[i := WakeThread(s.threads[i])]) else s)
    else
      SignalCallers(s, AsleepResult, pick)
  }

  /** Signal `ready` of cell i: the stage before waits there, or callers of pipe_start when it is the head. */
  function SignalReady(s: State, i: nat, pick: nat): Option<State>
  {
    if 0 < i <= |s.threads| then
      Some(if s.threads[i - 1].SendWait? then s.(threads := s.threads[i - 1 := WakeThread(s.threads[i - 1])]) else s)
    else
      SignalCallers(s, AsleepStart, pick)
  }

  /** A stage tests its cell, and goes to wait or to send. */
  function Tested(v: Variant, c: Cell): Thread
  {
    if MustWait(v, c) then WaitData(false) else SendLock(c.data + 1)
  }

  function Next(s: State, a: Action): Option<State>
  {
    if |s.cells| != s.Stages() + 1 then None else
    match a
    case Enter(i) =>
      if !(i < s.Stages() && (s.threads[i].Starting? || s.threads[i] == WaitData(true))) then None else
      Some(s.(threads := s.threads[i := Tested(s.variant, s.cells[i])]))
    case SendOn(i, pick) =>
      if !(i < s.Stages() && !MutexHeld(s, i + 1)) then None else
      var t := s.threads[i];
      if !(t.SendLock? || (t.SendWait? && t.awake)) then None else
      var (cell, sent) := Send(s.cells[i + 1], t.value);
      if sent then
        SignalAvail(s.(cells := s.cells[i + 1 := cell], threads := s.threads[i := Sent]), i + 1, pick)
      else
        Some(s.(threads := s.threads[i := SendWait(t.value, false)]))
    case ClearOwn(i, pick) =>
      if !(i < s.Stages() && s.threads[i].Sent?) then None else
      var cell := Clear(s.cells[i]);
      SignalReady(s.(cells := s.cells[i := cell], threads := s.threads[i := Tested(s.variant, cell)]), i, pick)
    case CallStart(c, value) =>
      if !(c < |s.callers| && s.callers[c].Idle?) then None else
      Some(s.(callers := s.callers[c := StartLock(value)], active := s.active + 1, inputs := s.inputs + [value]))
    case StartSend(c, pick) =>
      if !(c < |s.callers| && !MutexHeld(s, 0)) then None else
      var t := s.callers[c];
      if !(t.StartLock? || (t.StartWait? && t.awake)) then None else
      var (cell, sent) := Send(s.cells[0], t.value);
      if sent then
        SignalAvail(s.(cells := s.cells[0 := cell], callers := s.callers[c := Idle],
                       entered := s.entered + [t.value]), 0, pick)
      else
        Some(s.(callers := s.callers[c := StartWait(t.value, false)]))
    case CallResult(c) =>
      if !(c < |s.callers| && s.callers[c].Idle?) then None
      else if s.active <= 0 then Some(s)
      else Some(s.(callers := s.callers[c := ResultLock], active := s.active - 1))
    case TakeResult(c, pick) =>
      if !(c < |s.callers| && (s.callers[c].ResultLock? || s.callers[c] == ResultWait(true))) then None else
      var n := s.Stages();
      var (cell, value) := Receive(s.cells[n]);
      (match value
       case None => Some(s.(callers := s.callers[c := ResultWait(false)]))
       case Some(v) =>
         SignalReady(s.(cells := s.cells[n := cell], callers := s.callers[c := Idle],
                        delivered := s.delivered + [v]), n, pick))
    case SpuriousStage(i) =>
      if i < s.Stages() && (s.threads[i].WaitData? || s.threads[i].SendWait?) then
        Some(s.(threads := s.threads[i := WakeThread(s.threads[i])]))
      else
        None
    case SpuriousCaller(c) =>
      if c < |s.callers| && (s.callers[c].StartWait? || s.callers[c].ResultWait?) then
        Some(s.(callers := s.callers[c := WakeCaller(s.callers[c])]))
      else
        None
  }

  // ---------------------------------------------------------------- the callers

  /** The value that a caller is about to send. */
  function Pending(c: Caller): seq<int> { if c.StartLock? || c.StartWait? then [c.value] else [] }

  function PendingBag(c: Caller): multiset<int> { multiset(Pending(c)) }

  predicate WantsStart(c: Caller) { c.StartLock? || c.StartWait? }

  predicate WantsResult(c: Caller) { c.ResultLock? || c.ResultWait? }

  function StartOne(c: Caller): nat { if WantsStart(c) then 1 else 0 }

  function ResultOne(c: Caller): nat { if WantsResult(c) then 1 else 0 }

  /** Nothing has happened to the callers but that some have been woken up. */
  ghost predicate OnlyWoken(before: seq<Caller>, after: seq<Caller>)
  {
    |after| == |before| && forall i | 0 <= i < |before| :: after[i] == before[i] || after[i] == WakeCaller(before[i])
  }

  lemma {:induction false} WokenCount(before: seq<Caller>, after: seq<Caller>)
    requires OnlyWoken(before, after)
    ensures Sum(after, StartOne) == Sum(before, StartOne)
    ensures Sum(after, ResultOne) == Sum(before, ResultOne)
    decreases |before|
  {
    if before != [] { WokenCount(before[1..], after[1..]); }
  }

  lemma {:induction false} WokenGather(before: seq<Caller>, after: seq<Caller>)
    requires OnlyWoken(before, after)
    ensures Gather(after, PendingBag) == Gather(before, PendingBag)
    decreases |before|
  {
    if before != [] {
      assert Pending(after[0]) == Pending(before[0]);
      WokenGather(before[1..], after[1..]);
    }
  }

  lemma CallersUpdate(callers: seq<Caller>, c: nat, x: Caller)
    requires c < |callers|
    ensures Sum(callers[c := x], StartOne) == Sum(callers, StartOne) - StartOne(callers[c]) + StartOne(x)
    ensures Sum(callers[c := x], ResultOne) == Sum(callers, ResultOne) - ResultOne(callers[c]) + ResultOne(x)
  {
    SumUpdate(callers, c, x, StartOne);
    SumUpdate(callers, c, x, ResultOne);
  }

  /** A caller that sleeps in pipe_start has an awake companion. */
  ghost predicate StartersHeard(callers: seq<Caller>)
  {
    forall i: nat | i < |callers| && AsleepStart(callers[i]) :: SomeStartAwake(callers)
  }

  ghost predicate SomeStartAwake(callers: seq<Caller>)
  {
    exists j: nat :: j < |callers| && callers[j].StartWait? && callers[j].awake
  }

  /** A caller that sleeps in pipe_result has an awake companion. */
  ghost predicate ResultsHeard(callers: seq<Caller>)
  {
    forall i: nat | i < |callers| && AsleepResult(callers[i]) :: SomeResultAwake(callers)
  }

  ghost predicate SomeResultAwake(callers: seq<Caller>)
  {
    exists j: nat :: j < |callers| && callers[j] == ResultWait(true)
  }

  lemma StartersUpdate(callers: seq<Caller>, c: nat, x: Caller)
    requires c < |callers| && StartersHeard(callers) && !AsleepStart(x) && (callers[c].StartWait? ==> x.StartWait?)
    ensures StartersHeard(callers[c := x])
  {
    var r := callers[c := x];
    if i: nat :| i < |r| && AsleepStart(r[i]) {
      assert AsleepStart(callers[i]);
      var j: nat :| j < |callers| && callers[j].StartWait? && callers[j].awake;
      assert r[j].StartWait? && r[j].awake;
    }
  }

  lemma ResultsUpdate(callers: seq<Caller>, c: nat, x: Caller)
    requires c < |callers| && ResultsHeard(callers) && !AsleepResult(x) && (callers[c].ResultWait? ==> x.ResultWait?)
    ensures ResultsHeard(callers[c := x])
  {
    var r := callers[c := x];
    if i: nat :| i < |r| && AsleepResult(r[i]) {
      assert AsleepResult(callers[i]);
      var j: nat :| j < |callers| && callers[j] == ResultWait(true);
      assert r[j] == ResultWait(true);
    }
  }

  /** A caller moves on without going to sleep, and is not the awake one that others rely on. */
  lemma HeardUpdate(callers: seq<Caller>, c: nat, x: Caller)
    requires c < |callers|
    ensures StartersHeard(callers) && !AsleepStart(x) && (callers[c].StartWait? ==> x.StartWait?) ==>
      StartersHeard(callers[c := x])
    ensures ResultsHeard(callers) && !AsleepResult(x) && (callers[c].ResultWait? ==> x.ResultWait?) ==>
      ResultsHeard(callers[c := x])
  {
    hide StartersHeard, ResultsHeard;
    if StartersHeard(callers) && !AsleepStart(x) && (callers[c].StartWait? ==> x.StartWait?) {
      StartersUpdate(callers, c, x);
    }
    if ResultsHeard(callers) && !AsleepResult(x) && (callers[c].ResultWait? ==> x.ResultWait?) {
      ResultsUpdate(callers, c, x);
    }
  }

  lemma WokenHeard(before: seq<Caller>, after: seq<Caller>)
    requires OnlyWoken(before, after)
    ensures StartersHeard(before) ==> StartersHeard(after)
    ensures ResultsHeard(before) ==> ResultsHeard(after)
  {
    if j: nat :| j < |before| && before[j].StartWait? && before[j].awake { assert after[j] == before[j]; }
    if j: nat :| j < |before| && before[j] == ResultWait(true) { assert after[j] == before[j]; }
    assert forall i: nat | i < |after| && AsleepStart(after[i]) :: AsleepStart(before[i]);
    assert forall i: nat | i < |after| && AsleepResult(after[i]) :: AsleepResult(before[i]);
  }

  lemma SignalWakes(callers: seq<Caller>, asleep: Caller -> bool, pick: nat)
    requires Signal(callers, asleep, WakeCaller, pick).Some?
    ensures OnlyWoken(callers, Signal(callers, asleep, WakeCaller, pick).value)
  {
  }

  lemma StartSignalHeard(callers: seq<Caller>, pick: nat)
    requires Signal(callers, AsleepStart, WakeCaller, pick).Some?
    ensures StartersHeard(Signal(callers, AsleepStart, WakeCaller, pick).value)
  {
    var r := Signal(callers, AsleepStart, WakeCaller, pick).value;
    if pick < |callers| && AsleepStart(callers[pick]) { assert r[pick].StartWait? && r[pick].awake; }
  }

  lemma ResultSignalHeard(callers: seq<Caller>, pick: nat)
    requires Signal(callers, AsleepResult, WakeCaller, pick).Some?
    ensures ResultsHeard(Signal(callers, AsleepResult, WakeCaller, pick).value)
  {
    var r := Signal(callers, AsleepResult, WakeCaller, pick).value;
    if pick < |callers| && AsleepResult(callers[pick]) { assert r[pick] == ResultWait(true); }
  }

  /** A signal always finds somebody to wake up, or nobody asleep. */
  lemma PickFor(callers: seq<Caller>, asleep: Caller -> bool) returns (pick: nat)
    ensures Signal(callers, asleep, WakeCaller, pick).Some?
  {
    if i: nat :| i < |callers| && asleep(callers[i]) { pick := i; } else { pick := 0; }
  }

  /** A signal changes nothing but who is awake. */
  ghost predicate SameButWoken(s: State, r: State)
  {
    && r == s.(threads := r.threads, callers := r.callers)
    && |r.threads| == |s.threads| && OnlyWoken(s.callers, r.callers)
    && forall i | 0 <= i < |s.threads| :: r.threads[i] == s.threads[i] || r.threads[i] == WakeThread(s.threads[i])
  }

  lemma AvailWakes(s: State, i: nat, pick: nat)
    requires SignalAvail(s, i, pick).Some?
    ensures SameButWoken(s, SignalAvail(s, i, pick).value)
    ensures i >= |s.threads| ==> ResultsHeard(SignalAvail(s, i, pick).value.callers)
    ensures i < |s.threads| && s.threads[i].WaitData? ==> SignalAvail(s, i, pick).value.threads[i] == WaitData(true)
  {
    if i >= |s.threads| {
      SignalWakes(s.callers, AsleepResult, pick);
      ResultSignalHeard(s.callers, pick);
    }
  }

  lemma ReadyWakes(s: State, i: nat, pick: nat)
    requires i <= |s.threads| && SignalReady(s, i, pick).Some?
    ensures SameButWoken(s, SignalReady(s, i, pick).value)
    ensures i == 0 ==> StartersHeard(SignalReady(s, i, pick).value.callers)
    ensures i > 0 && s.threads[i - 1].SendWait? ==> 
      SignalReady(s, i, pick).value.threads[i - 1] == WakeThread(s.threads[i - 1])
  {
    if i == 0 {
      SignalWakes(s.callers, AsleepStart, pick);
      StartSignalHeard(s.callers, pick);
    }
  }

  // ---------------------------------------------------------------- the values in flight

  /** What a cell holds for the stages after it, as the input it came from: nothing when it is empty
      or when its stage has already sent it on. */
  function Slot(s: State, i: nat): Option<int>
    requires i < |s.cells|
  {
    if s.cells[i].ready && !(i < |s.threads| && s.threads[i].Sent?) then Some(s.cells[i].data - i) else None
  }

  function Slots(s: State): (r: seq<Option<int>>)
    ensures |r| == |s.cells|
  {
    seq(|s.cells|, i requires 0 <= i < |s.cells| => Slot(s, i))
  }

  function Value(slot: Option<int>): seq<int> { if slot.Some? then [slot.value] else [] }

  /** The values in the slots, those nearest the tail first. */
  function Flight(slots: seq<Option<int>>): seq<int>
  {
    if slots == [] then [] else Flight(slots[1..]) + Value(slots[0])
  }

  lemma {:induction false} FlightMove(slots: seq<Option<int>>, i: nat)
    requires i + 1 < |slots| && slots[i + 1].None?
    ensures Flight(slots[i := None][i + 1 := slots[i]]) == Flight(slots)
    decreases i
  {
    var moved := slots[i := None][i + 1 := slots[i]];
    if i == 0 {
      assert moved[1..][1..] == slots[1..][1..];
      assert Flight(moved) == Flight(moved[1..][1..]) + Value(slots[0]) + [];
      assert Flight(slots) == Flight(slots[1..][1..]) + [] + Value(slots[0]);
    } else {
      assert moved[1..] == slots[1..][i - 1 := None][i := slots[1..][i - 1]];
      FlightMove(slots[1..], i - 1);
    }
  }

  lemma {:induction false} FlightSnoc(front: seq<Option<int>>, slot: Option<int>)
    ensures Flight(front + [slot]) == Value(slot) + Flight(front)
    decreases |front|
  {
    var slots := front + [slot];
    if front == [] {
      assert slots[1..] == [];
      assert [] + Value(slot) == Value(slot) + [];
    } else {
      FlightSnoc(front[1..], slot);
      assert slots[1..] == front[1..] + [slot];
      var first, last, rest := Value(front[0]), Value(slot), Flight(front[1..]);
      assert (last + rest) + first == last + (rest + first);
    }
  }

  lemma FlightPop(slots: seq<Option<int>>)
    requires slots != []
    ensures Flight(slots) == Value(slots[|slots| - 1]) + Flight(slots[|slots| - 1 := None])
  {
    var n := |slots| - 1;
    FlightSnoc(slots[..n], slots[n]);
    FlightSnoc(slots[..n], None);
    assert slots == slots[..n] + [slots[n]];
    assert slots[n := None] == slots[..n] + [None];
  }

  lemma {:induction false} FlightSize(slots: seq<Option<int>>)
    ensures |Flight(slots)| <= |slots|
    ensures |Flight(slots)| == |slots| <==> forall i | 0 <= i < |slots| :: slots[i].Some?
    ensures |Flight(slots)| == 0 <==> forall i | 0 <= i < |slots| :: slots[i].None?
    decreases |slots|
  {
    if slots != [] {
      FlightSize(slots[1..]);
      assert forall i | 1 <= i < |slots| :: slots[i] == slots[1..][i - 1];
    }
  }

  // ---------------------------------------------------------------- the invariant

  predicate ThreadOk(t: Thread, own: Cell, next: Cell)
  {
    match t
    case Starting => true
    case WaitData(awake) => !awake ==> !own.ready
    case SendLock(value) => own.ready && value == own.data + 1
    case SendWait(value, awake) => own.ready && value == own.data + 1 && (!awake ==> next.ready)
    case Sent => own.ready
  }

  /** A stage that sends has its own data to send, and none sleeps through a signal. */
  ghost predicate StagesOk(s: State)
  {
    && (s.variant.Repaired? || s.threads == [])
    && |s.cells| == s.Stages() + 1
    && forall i | 0 <= i < s.Stages() :: ThreadOk(s.threads[i], s.cells[i], s.cells[i + 1])
  }

  /** No caller sleeps on when there is something for it to do and nobody else is on the way to do it. */
  ghost predicate CallersOk(s: State)
  {
    && |s.cells| == s.Stages() + 1
    && (!s.cells[0].ready ==> StartersHeard(s.callers))
    && (s.cells[s.Stages()].ready ==> ResultsHeard(s.callers))
  }

  ghost predicate Control(s: State) { StagesOk(s) && CallersOk(s) }

  /** The state before the signal, of a stage that has sent its value on. */
  function Passed(s: State, i: nat): State
    requires i < |s.threads| && i + 1 < |s.cells| && (s.threads[i].SendLock? || s.threads[i].SendWait?)
  {
    s.(cells := s.cells[i + 1 := Cell(true, s.threads[i].value)], threads := s.threads[i := Sent])
  }

  /** Of a stage that has cleared its own cell. */
  function Cleared(s: State, i: nat): State
    requires i < |s.threads| && i < |s.cells|
  {
    s.(cells := s.cells[i := Clear(s.cells[i])], threads := s.threads[i := Tested(s.variant, Clear(s.cells[i]))])
  }

  /** Of a caller that has put its value into the first cell. */
  function Started(s: State, c: nat): State
    requires c < |s.callers| && WantsStart(s.callers[c]) && s.cells != []
  {
    s.(cells := s.cells[0 := Cell(true, s.callers[c].value)], callers := s.callers[c := Idle],
       entered := s.entered + [s.callers[c].value])
  }

  /** Of a caller that has taken a value from the tail. */
  function Taken(s: State, c: nat): State
    requires c < |s.callers| && |s.cells| == s.Stages() + 1
  {
    var n := s.Stages();
    s.(cells := s.cells[n := Clear(s.cells[n])], callers := s.callers[c := Idle],
       delivered := s.delivered + [s.cells[n].data])
  }

  lemma SendKeepsStages(s: State, i: nat, pick: nat)
    requires StagesOk(s) && Next(s, SendOn(i, pick)).Some?
    ensures StagesOk(Next(s, SendOn(i, pick)).value)
  {
    var r := Next(s, SendOn(i, pick)).value;
    assert ThreadOk(s.threads[i], s.cells[i], s.cells[i + 1]);
    if !s.cells[i + 1].ready { AvailWakes(Passed(s, i), i + 1, pick); }
    hide Signal;
    forall j | 0 <= j < r.Stages() ensures ThreadOk(r.threads[j], r.cells[j], r.cells[j + 1]) {
      assert ThreadOk(s.threads[j], s.cells[j], s.cells[j + 1]);
    }
  }

  lemma ClearKeepsStages(s: State, i: nat, pick: nat)
    requires StagesOk(s) && Next(s, ClearOwn(i, pick)).Some?
    ensures StagesOk(Next(s, ClearOwn(i, pick)).value)
  {
    var r := Next(s, ClearOwn(i, pick)).value;
    ReadyWakes(Cleared(s, i), i, pick);
    hide Signal;
    forall j | 0 <= j < r.Stages() ensures ThreadOk(r.threads[j], r.cells[j], r.cells[j + 1]) {
      assert ThreadOk(s.threads[j], s.cells[j], s.cells[j + 1]);
    }
  }

  lemma StartKeepsStages(s: State, c: nat, pick: nat)
    requires StagesOk(s) && Next(s, StartSend(c, pick)).Some?
    ensures StagesOk(Next(s, StartSend(c, pick)).value)
  {
    var r := Next(s, StartSend(c, pick)).value;
    if !s.cells[0].ready { AvailWakes(Started(s, c), 0, pick); }
    hide Signal;
    forall j | 0 <= j < r.Stages() ensures ThreadOk(r.threads[j], r.cells[j], r.cells[j + 1]) {
      assert ThreadOk(s.threads[j], s.cells[j], s.cells[j + 1]);
    }
  }

  lemma TakeKeepsStages(s: State, c: nat, pick: nat)
    requires StagesOk(s) && Next(s, TakeResult(c, pick)).Some?
    ensures StagesOk(Next(s, TakeResult(c, pick)).value)
  {
    var r := Next(s, TakeResult(c, pick)).value;
    if s.cells[s.Stages()].ready { ReadyWakes(Taken(s, c), s.Stages(), pick); }
    hide Signal;
    forall j | 0 <= j < r.Stages() ensures ThreadOk(r.threads[j], r.cells[j], r.cells[j + 1]) {
      assert ThreadOk(s.threads[j], s.cells[j], s.cells[j + 1]);
    }
  }

  lemma StagesStep(s: State, a: Action)
    requires StagesOk(s) && Next(s, a).Some?
    ensures StagesOk(Next(s, a).value)
  {
    hide Signal;
    match a
    case SendOn(i, pick) => SendKeepsStages(s, i, pick);
    case ClearOwn(i, pick) => ClearKeepsStages(s, i, pick);
    case StartSend(c, pick) => StartKeepsStages(s, c, pick);
    case TakeResult(c, pick) => TakeKeepsStages(s, c, pick);
    case _ =>
  }

  lemma SendKeepsCallers(s: State, i: nat, pick: nat)
    requires CallersOk(s) && Next(s, SendOn(i, pick)).Some?
    ensures CallersOk(Next(s, SendOn(i, pick)).value)
  {
    hide Signal, StartersHeard, ResultsHeard;
    if !s.cells[i + 1].ready {
      AvailWakes(Passed(s, i), i + 1, pick);
      WokenHeard(s.callers, Next(s, SendOn(i, pick)).value.callers);
    }
  }

  lemma ClearKeepsCallers(s: State, i: nat, pick: nat)
    requires CallersOk(s) && Next(s, ClearOwn(i, pick)).Some?
    ensures CallersOk(Next(s, ClearOwn(i, pick)).value)
  {
    hide Signal, StartersHeard, ResultsHeard;
    ReadyWakes(Cleared(s, i), i, pick);
    WokenHeard(s.callers, Next(s, ClearOwn(i, pick)).value.callers);
  }

  lemma StartKeepsCallers(s: State, c: nat, pick: nat)
    requires CallersOk(s) && Next(s, StartSend(c, pick)).Some?
    ensures CallersOk(Next(s, StartSend(c, pick)).value)
  {
    hide Signal, StartersHeard, ResultsHeard;
    if s.cells[0].ready {
      HeardUpdate(s.callers, c, StartWait(s.callers[c].value, false));
    } else {
      HeardUpdate(s.callers, c, Idle);
      AvailWakes(Started(s, c), 0, pick);
      WokenHeard(Started(s, c).callers, Next(s, StartSend(c, pick)).value.callers);
    }
  }

  lemma TakeKeepsCallers(s: State, c: nat, pick: nat)
    requires CallersOk(s) && Next(s, TakeResult(c, pick)).Some?
    ensures CallersOk(Next(s, TakeResult(c, pick)).value)
  {
    hide Signal, StartersHeard, ResultsHeard;
    var n := s.Stages();
    if !s.cells[n].ready {
      HeardUpdate(s.callers, c, ResultWait(false));
    } else {
      HeardUpdate(s.callers, c, Idle);
      ReadyWakes(Taken(s, c), n, pick);
      WokenHeard(Taken(s, c).callers, Next(s, TakeResult(c, pick)).value.callers);
    }
  }

  lemma CallersStep(s: State, a: Action)
    requires CallersOk(s) && Next(s, a).Some?
    ensures CallersOk(Next(s, a).value)
  {
    hide Signal, StartersHeard, ResultsHeard;
    match a
    case SendOn(i, pick) => SendKeepsCallers(s, i, pick);
    case ClearOwn(i, pick) => ClearKeepsCallers(s, i, pick);
    case StartSend(c, pick) => StartKeepsCallers(s, c, pick);
    case TakeResult(c, pick) => TakeKeepsCallers(s, c, pick);
    case CallStart(c, value) => HeardUpdate(s.callers, c, StartLock(value));
    case CallResult(c) => HeardUpdate(s.callers, c, ResultLock);
    case SpuriousCaller(c) => HeardUpdate(s.callers, c, WakeCaller(s.callers[c]));
    case _ =>
  }

  lemma ControlStep(s: State, a: Action)
    requires Control(s) && Next(s, a).Some?
    ensures Control(Next(s, a).value)
  {
    StagesStep(s, a);
    CallersStep(s, a);
  }

  /** The values delivered, as they were when they entered. */
  function Originals(delivered: seq<int>, stages: nat): (r: seq<int>)
    ensures |r| == |delivered|
  {
    seq(|delivered|, i requires 0 <= i < |delivered| => delivered[i] - stages)
  }

  /** What has entered, in order: delivered, and in flight from tail to head. `active` is what is in
      flight or about to be sent, without what is already promised to a caller of pipe_result. */
  ghost predicate Balanced(
    entered: seq<int>, delivered: seq<int>, slots: seq<Option<int>>, active: int, starts: nat, results: nat)
  {
    && slots != [] && entered == Originals(delivered, |slots| - 1) + Flight(slots)
    && active >= 0 && active + results == |Flight(slots)| + starts
  }

  ghost predicate Flow(s: State)
  {
    && |s.cells| == s.Stages() + 1
    && Balanced(s.entered, s.delivered, Slots(s), s.active, Sum(s.callers, StartOne), Sum(s.callers, ResultOne))
  }

  /** What has been given to pipe_start has entered or is about to; in the order of the calls, when there
      is one caller. */
  ghost predicate Given(s: State)
  {
    && Conserved(s.inputs, s.entered, s.callers, PendingBag)
    && (|s.callers| == 1 ==> s.inputs == s.entered + Pending(s.callers[0]))
  }

  lemma SentMovesSlot(s: State, i: nat, pick: nat)
    requires Control(s) && Next(s, SendOn(i, pick)).Some? && !s.cells[i + 1].ready
    ensures var r := Next(s, SendOn(i, pick)).value;
      |r.cells| == |s.cells| && Slots(s)[i + 1].None? && Slots(r) == Slots(s)[i := None][i + 1 := Slots(s)[i]]
  {
    hide Signal;
    var r := Next(s, SendOn(i, pick)).value;
    AvailWakes(Passed(s, i), i + 1, pick);
    assert ThreadOk(s.threads[i], s.cells[i], s.cells[i + 1]);
    assert Slot(r, i).None? && Slot(r, i + 1) == Slot(s, i);
    forall j: nat | j < |s.cells| && j != i && j != i + 1 ensures Slot(r, j) == Slot(s, j) {}
  }

  /** The counts and the values that have come in and gone out stay. */
  ghost predicate SameBooks(s: State, r: State)
  {
    && |r.cells| == |s.cells| && r.Stages() == s.Stages()
    && r.active == s.active && r.entered == s.entered && r.delivered == s.delivered
  }

  /** A stage that sends moves its value on by one slot; one that finds the next cell full does not. */
  lemma SendMovesSlot(s: State, i: nat, pick: nat)
    requires Control(s) && Next(s, SendOn(i, pick)).Some?
    ensures var r := Next(s, SendOn(i, pick)).value;
      && SameBooks(s, r) && OnlyWoken(s.callers, r.callers)
      && (if s.cells[i + 1].ready then Slots(r) == Slots(s)
          else Slots(s)[i + 1].None? && Slots(r) == Slots(s)[i := None][i + 1 := Slots(s)[i]])
  {
    hide Signal;
    if s.cells[i + 1].ready {
      var r := Next(s, SendOn(i, pick)).value;
      forall j: nat | j < |s.cells| ensures Slot(r, j) == Slot(s, j) {}
    } else {
      AvailWakes(Passed(s, i), i + 1, pick);
      SentMovesSlot(s, i, pick);
    }
  }

  lemma StartFillsSlot(s: State, c: nat, pick: nat)
    requires Control(s) && Next(s, StartSend(c, pick)).Some?
    ensures var r := Next(s, StartSend(c, pick)).value;
      if s.cells[0].ready then
        && SameBooks(s, r) && Slots(r) == Slots(s)
        && r.callers == s.callers[c := StartWait(s.callers[c].value, false)]
      else
        && SameBooks(s, r.(entered := s.entered)) && r.entered == s.entered + [s.callers[c].value]
        && Slots(s)[0].None? && Slots(r) == Slots(s)[0 := Some(s.callers[c].value)]
        && OnlyWoken(s.callers[c := Idle], r.callers)
  {
    hide Signal;
    var r := Next(s, StartSend(c, pick)).value;
    if !s.cells[0].ready { AvailWakes(Started(s, c), 0, pick); }
    forall j: nat | 0 < j < |s.cells| ensures Slot(r, j) == Slot(s, j) {}
  }

  lemma TakeEmptiesSlot(s: State, c: nat, pick: nat)
    requires Control(s) && Next(s, TakeResult(c, pick)).Some?
    ensures var r, n := Next(s, TakeResult(c, pick)).value, s.Stages();
      if s.cells[n].ready then
        && SameBooks(s, r.(delivered := s.delivered))
        && Slots(s)[n].Some? && r.delivered == s.delivered + [Slots(s)[n].value + n]
        && Slots(r) == Slots(s)[n := None] && OnlyWoken(s.callers[c := Idle], r.callers)
      else
        SameBooks(s, r) && Slots(r) == Slots(s) && r.callers == s.callers[c := ResultWait(false)]
  {
    hide Signal;
    var r, n := Next(s, TakeResult(c, pick)).value, s.Stages();
    if s.cells[n].ready { ReadyWakes(Taken(s, c), n, pick); }
    forall j: nat | j < n ensures Slot(r, j) == Slot(s, j) {}
  }

  lemma ClearKeepsSlots(s: State, i: nat, pick: nat)
    requires Control(s) && Next(s, ClearOwn(i, pick)).Some?
    ensures var r := Next(s, ClearOwn(i, pick)).value;
      SameBooks(s, r) && Slots(r) == Slots(s) && OnlyWoken(s.callers, r.callers)
  {
    hide Signal;
    var r := Next(s, ClearOwn(i, pick)).value;
    ReadyWakes(Cleared(s, i), i, pick);
    forall j: nat | j < |s.cells| ensures Slot(r, j) == Slot(s, j) {}
  }

  predicate MovesValue(a: Action) { a.SendOn? || a.StartSend? || a.TakeResult? }

  lemma OthersKeepSlots(s: State, a: Action)
    requires Control(s) && Next(s, a).Some? && !MovesValue(a)
    ensures var r := Next(s, a).value; |r.cells| == |s.cells| && Slots(r) == Slots(s)
  {
    if a.ClearOwn? {
      ClearKeepsSlots(s, a.stage, a.pick);
    } else {
      var r := Next(s, a).value;
      forall j: nat | j < |s.cells| ensures Slot(r, j) == Slot(s, j) {}
    }
  }

  lemma FlightPush(slots: seq<Option<int>>, value: int)
    requires slots != [] && slots[0].None?
    ensures Flight(slots[0 := Some(value)]) == Flight(slots) + [value]
  {
    assert slots[0 := Some(value)][1..] == slots[1..];
    assert Flight(slots) == Flight(slots[1..]) + [];
  }

  lemma OriginalsSnoc(delivered: seq<int>, stages: nat, value: int)
    ensures Originals(delivered + [value + stages], stages) == Originals(delivered, stages) + [value]
  {
  }

  lemma SendKeepsFlow(s: State, i: nat, pick: nat)
    requires Control(s) && Flow(s) && Next(s, SendOn(i, pick)).Some?
    ensures Flow(Next(s, SendOn(i, pick)).value)
  {
    SendMovesSlot(s, i, pick);
    var r := Next(s, SendOn(i, pick)).value;
    WokenCount(s.callers, r.callers);
    hide Slots, Flight, Next, Sum, Originals;
    if !s.cells[i + 1].ready { FlightMove(Slots(s), i); }
  }

  lemma ValueEnters(
    entered: seq<int>, delivered: seq<int>, slots: seq<Option<int>>, active: int, starts: nat, results: nat, value: int)
    requires Balanced(entered, delivered, slots, active, starts, results) && slots[0].None? && starts >= 1
    ensures Balanced(entered + [value], delivered, slots[0 := Some(value)], active, starts - 1, results)
  {
    FlightPush(slots, value);
    var out := Originals(delivered, |slots| - 1);
    assert out + Flight(slots) + [value] == out + (Flight(slots) + [value]);
  }

  lemma ValueLeaves(
    entered: seq<int>, delivered: seq<int>, slots: seq<Option<int>>, active: int, starts: nat, results: nat)
    requires Balanced(entered, delivered, slots, active, starts, results) && results >= 1
    requires slots[|slots| - 1].Some?
    ensures var n := |slots| - 1;
      Balanced(entered, delivered + [slots[n].value + n], slots[n := None], active, starts, results - 1)
  {
    var n := |slots| - 1;
    var x, rest, d := slots[n].value, Flight(slots[n := None]), Originals(delivered, n);
    FlightPop(slots);
    OriginalsSnoc(delivered, n, x);
    assert d + ([x] + rest) == (d + [x]) + rest;
  }

  lemma StartKeepsFlow(s: State, c: nat, pick: nat)
    requires Control(s) && Flow(s) && Next(s, StartSend(c, pick)).Some?
    ensures Flow(Next(s, StartSend(c, pick)).value)
  {
    StartFillsSlot(s, c, pick);
    var t, r := s.callers[c], Next(s, StartSend(c, pick)).value;
    CallersUpdate(s.callers, c, if s.cells[0].ready then StartWait(t.value, false) else Idle);
    assert WantsStart(t);
    hide Slots, Next, Sum, Balanced, OnlyWoken, Control;
    if !s.cells[0].ready {
      WokenCount(s.callers[c := Idle], r.callers);
      ValueEnters(s.entered, s.delivered, Slots(s), s.active, Sum(s.callers, StartOne), Sum(s.callers, ResultOne),
                  t.value);
    }
  }

  lemma TakenKeepsFlow(s: State, c: nat, pick: nat)
    requires Control(s) && Flow(s) && Next(s, TakeResult(c, pick)).Some? && s.cells[s.Stages()].ready
    ensures Flow(Next(s, TakeResult(c, pick)).value)
  {
    TakeEmptiesSlot(s, c, pick);
    assert WantsResult(s.callers[c]);
    hide Slots, Next, Sum, Balanced, OnlyWoken, Control;
    CallersUpdate(s.callers, c, Idle);
    WokenCount(s.callers[c := Idle], Next(s, TakeResult(c, pick)).value.callers);
    ValueLeaves(s.entered, s.delivered, Slots(s), s.active, Sum(s.callers, StartOne), Sum(s.callers, ResultOne));
  }

  lemma TakeKeepsFlow(s: State, c: nat, pick: nat)
    requires Control(s) && Flow(s) && Next(s, TakeResult(c, pick)).Some?
    ensures Flow(Next(s, TakeResult(c, pick)).value)
  {
    if s.cells[s.Stages()].ready {
      TakenKeepsFlow(s, c, pick);
    } else {
      TakeEmptiesSlot(s, c, pick);
      CallersUpdate(s.callers, c, ResultWait(false));
      hide Slots, Next, Sum, Balanced;
    }
  }

  lemma CallKeepsFlow(s: State, a: Action)
    requires Control(s) && Flow(s) && Next(s, a).Some? && (a.CallStart? || a.CallResult? || a.SpuriousCaller?)
    ensures Flow(Next(s, a).value)
  {
    hide Slots, Signal, Sum, Flight, Originals;
    OthersKeepSlots(s, a);
    match a
    case CallStart(c, value) => CallersUpdate(s.callers, c, StartLock(value));
    case CallResult(c) => CallersUpdate(s.callers, c, ResultLock);
    case SpuriousCaller(c) => CallersUpdate(s.callers, c, WakeCaller(s.callers[c]));
  }

  lemma StageKeepsFlow(s: State, a: Action)
    requires Control(s) && Flow(s) && Next(s, a).Some? && (a.Enter? || a.ClearOwn? || a.SpuriousStage?)
    ensures Flow(Next(s, a).value)
  {
    hide Slots, Signal, Sum, Balanced;
    if a.ClearOwn? {
      ClearKeepsSlots(s, a.stage, a.pick);
      WokenCount(s.callers, Next(s, a).value.callers);
    } else {
      OthersKeepSlots(s, a);
    }
  }

  lemma FlowStep(s: State, a: Action)
    requires Control(s) && Flow(s) && Next(s, a).Some?
    ensures Flow(Next(s, a).value)
  {
    hide Control, Flow, Next;
    match a
    case SendOn(i, pick) => SendKeepsFlow(s, i, pick);
    case StartSend(c, pick) => StartKeepsFlow(s, c, pick);
    case TakeResult(c, pick) => TakeKeepsFlow(s, c, pick);
    case Enter(_) => StageKeepsFlow(s, a);
    case ClearOwn(_, _) => StageKeepsFlow(s, a);
    case SpuriousStage(_) => StageKeepsFlow(s, a);
    case _ => CallKeepsFlow(s, a);
  }

  /** Waking callers up changes nothing about what they have been given. */
  lemma WokenGiven(s: State, callers: seq<Caller>)
    requires Given(s) && OnlyWoken(s.callers, callers)
    ensures Given(s.(callers := callers))
  {
    WokenGather(s.callers, callers);
  }

  /** So does a caller that goes on with the same value, or with none. */
  lemma UpdateGiven(s: State, c: nat, x: Caller)
    requires Given(s) && c < |s.callers| && Pending(x) == Pending(s.callers[c])
    ensures Given(s.(callers := s.callers[c := x]))
  {
    MoveConserves(s.inputs, s.entered, s.callers, PendingBag, c, x);
  }

  lemma EnteringGiven(s: State, c: nat)
    requires Given(s) && c < |s.callers| && WantsStart(s.callers[c]) && s.cells != []
    ensures Given(Started(s, c))
  {
    hide Conserved;
    var v := s.callers[c].value;
    FinishConserves(s.inputs, s.entered, s.callers, PendingBag, c, Idle, v);
    assert s.entered + [v] + [] == s.entered + [v];
  }

  lemma StartKeepsGiven(s: State, c: nat, pick: nat)
    requires Given(s) && Next(s, StartSend(c, pick)).Some?
    ensures Given(Next(s, StartSend(c, pick)).value)
  {
    hide Signal, Conserved, OnlyWoken;
    if s.cells[0].ready {
      UpdateGiven(s, c, StartWait(s.callers[c].value, false));
    } else {
      EnteringGiven(s, c);
      AvailWakes(Started(s, c), 0, pick);
      WokenGiven(Started(s, c), Next(s, StartSend(c, pick)).value.callers);
    }
  }

  lemma TakeKeepsGiven(s: State, c: nat, pick: nat)
    requires Given(s) && Next(s, TakeResult(c, pick)).Some?
    ensures Given(Next(s, TakeResult(c, pick)).value)
  {
    hide Signal, Conserved, OnlyWoken;
    var n := s.Stages();
    if s.cells[n].ready {
      UpdateGiven(s, c, Idle);
      ReadyWakes(Taken(s, c), n, pick);
      WokenGiven(Taken(s, c), Next(s, TakeResult(c, pick)).value.callers);
    } else {
      UpdateGiven(s, c, ResultWait(false));
    }
  }

  lemma StageKeepsGiven(s: State, a: Action)
    requires Given(s) && Next(s, a).Some? && (a.SendOn? || a.ClearOwn?)
    ensures Given(Next(s, a).value)
  {
    hide Signal, Conserved, OnlyWoken;
    var i := a.stage;
    if a.ClearOwn? {
      ReadyWakes(Cleared(s, i), i, a.pick);
      WokenGiven(s, Next(s, a).value.callers);
    } else if !s.cells[i + 1].ready {
      AvailWakes(Passed(s, i), i + 1, a.pick);
      WokenGiven(s, Next(s, a).value.callers);
    }
  }

  lemma CallKeepsGiven(s: State, c: nat, value: int)
    requires Given(s) && Next(s, CallStart(c, value)).Some?
    ensures Given(Next(s, CallStart(c, value)).value)
  {
    hide Conserved;
    TakeConserves(s.inputs, s.entered, s.callers, PendingBag, c, StartLock(value), value);
    assert s.entered + [] + [value] == s.entered + [value];
  }

  lemma GivenStep(s: State, a: Action)
    requires Given(s) && Next(s, a).Some?
    ensures Given(Next(s, a).value)
  {
    hide Signal, Conserved, OnlyWoken;
    match a
    case SendOn(_, _) => StageKeepsGiven(s, a);
    case ClearOwn(_, _) => StageKeepsGiven(s, a);
    case StartSend(c, pick) => StartKeepsGiven(s, c, pick);
    case TakeResult(c, pick) => TakeKeepsGiven(s, c, pick);
    case CallStart(c, value) => CallKeepsGiven(s, c, value);
    case CallResult(c) => UpdateGiven(s, c, ResultLock);
    case SpuriousCaller(c) => UpdateGiven(s, c, WakeCaller(s.callers[c]));
    case _ =>
  }

  ghost predicate Inv(s: State) { Control(s) && Flow(s) && Given(s) }

  lemma InvStep(s: State, a: Action)
    requires Inv(s) && Next(s, a).Some?
    ensures Inv(Next(s, a).value)
  {
    hide Control, Flow, Given, Next;
    ControlStep(s, a);
    FlowStep(s, a);
    GivenStep(s, a);
  }

  lemma InitialInv(v: Variant, callers: nat, stages: nat, memory: nat -> int)
    requires v.Repaired? || stages == 0
    ensures Inv(Initial(v, callers, stages, memory))
  {
    var s := Initial(v, callers, stages, memory);
    FlightSize(Slots(s));
    SumZero(s.callers, StartOne);
    SumZero(s.callers, ResultOne);
    GatherEmpty(s.callers, PendingBag);
  }

  /** As written too when there are no stages, and so no stage's test. */
  lemma InvHolds(v: Variant, callers: nat, stages: nat, memory: nat -> int, steps: seq<Action>)
    requires v.Repaired? || stages == 0
    ensures var r := Run(Next, Initial(v, callers, stages, memory), steps);
      r.Some? ==> Inv(r.value) && r.value.Stages() == stages && |r.value.callers| == callers
  {
    var s := Initial(v, callers, stages, memory);
    InitialInv(v, callers, stages, memory);
    var inv := (s: State) => Inv(s) && s.Stages() == stages && |s.callers| == callers;
    hide Inv, Next;
    forall t, a | inv(t) && Next(t, a).Some? ensures inv(Next(t, a).value) {
      InvStep(t, a);
      SizesStay(t, a);
    }
    Invariance(Next, inv, s, steps);
  }

  lemma SizesStay(s: State, a: Action)
    requires Next(s, a).Some?
    ensures var r := Next(s, a).value;
      r.Stages() == s.Stages() && |r.callers| == |s.callers| && |r.cells| == |s.cells| && r.variant == s.variant
  {
  }

  // ---------------------------------------------------------------- the results

  /** The results so far are the first values that entered, in order, each increased by the number of stages. */
  ghost predicate ResultsOk(s: State)
  {
    |s.delivered| <= |s.entered| && forall k | 0 <= k < |s.delivered| :: s.delivered[k] == s.entered[k] + s.Stages()
  }

  /** And what is in flight is the rest of them, in order, each increased by the number of cells that it
      has crossed. */
  ghost predicate Functional(s: State)
  {
    ResultsOk(s) && s.entered[|s.delivered|..] == Flight(Slots(s))
  }

  lemma FlowIsFunctional(s: State)
    requires Flow(s)
    ensures Functional(s)
  {
    var d := Originals(s.delivered, s.Stages());
    forall k | 0 <= k < |s.delivered| ensures s.delivered[k] == s.entered[k] + s.Stages() {
      assert s.entered[k] == d[k];
    }
  }

  /** The pipeline is functional, in every run and with any number of callers. */
  lemma PipelineIsFunctional(callers: nat, stages: nat, memory: nat -> int, steps: seq<Action>)
    ensures var r := Run(Next, Initial(Repaired, callers, stages, memory), steps); r.Some? ==> Functional(r.value)
  {
    InvHolds(Repaired, callers, stages, memory, steps);
    var r := Run(Next, Initial(Repaired, callers, stages, memory), steps);
    if r.Some? { FlowIsFunctional(r.value); }
  }

  /** In every run, of either variant: what has been given to pipe_start has entered, or is about to. */
  lemma InputsEnter(v: Variant, callers: nat, stages: nat, memory: nat -> int, steps: seq<Action>)
    requires Run(Next, Initial(v, callers, stages, memory), steps).Some?
    ensures var s := Run(Next, Initial(v, callers, stages, memory), steps).value;
      && multiset(s.inputs) == multiset(s.entered) + Gather(s.callers, PendingBag)
      && (|s.callers| == 1 ==> s.inputs == s.entered + Pending(s.callers[0]))
  {
    var s := Initial(v, callers, stages, memory);
    GatherEmpty(s.callers, PendingBag);
    forall t, a | Given(t) && Next(t, a).Some? ensures Given(Next(t, a).value) { GivenStep(t, a); }
    Invariance(Next, Given, s, steps);
  }

  /** So with one caller, as in `main`, the k-th result is the k-th input increased by the number of stages. */
  lemma OneCallerInOrder(stages: nat, memory: nat -> int, steps: seq<Action>, k: nat)
    requires Run(Next, Initial(Repaired, 1, stages, memory), steps).Some?
    ensures var s := Run(Next, Initial(Repaired, 1, stages, memory), steps).value;
      k < |s.delivered| ==> k < |s.inputs| && s.delivered[k] == s.inputs[k] + stages
  {
    InvHolds(Repaired, 1, stages, memory, steps);
    PipelineIsFunctional(1, stages, memory, steps);
    InputsEnter(Repaired, 1, stages, memory, steps);
  }

  function IsReady(c: Cell): nat { if c.ready then 1 else 0 }

  function IsSent(t: Thread): nat { if t.Sent? then 1 else 0 }

  lemma {:induction false} ReadyCells(slots: seq<Option<int>>, cells: seq<Cell>, threads: seq<Thread>)
    requires |slots| == |cells| == |threads| + 1
    requires forall i | 0 <= i < |threads| :: threads[i].Sent? ==> cells[i].ready
    requires forall i | 0 <= i < |cells| ::
      slots[i].Some? <==> cells[i].ready && (i < |threads| ==> !threads[i].Sent?)
    ensures Sum(cells, IsReady) == |Flight(slots)| + Sum(threads, IsSent)
    decreases |threads|
  {
    if threads == [] {
      assert slots[1..] == [] && cells[1..] == [];
    } else {
      ReadyCells(slots[1..], cells[1..], threads[1..]);
    }
  }

  /** `active` and the callers in pipe_result make up what is in flight and the callers in pipe_start, so
      that between calls it is the number of values in flight. The cells with data ready are those that
      hold one, and those whose stage has sent its value on and not yet cleared its cell. */
  lemma ActiveIsOccupancy(callers: nat, stages: nat, memory: nat -> int, steps: seq<Action>)
    requires Run(Next, Initial(Repaired, callers, stages, memory), steps).Some?
    ensures var s := Run(Next, Initial(Repaired, callers, stages, memory), steps).value;
      && |Flight(Slots(s))| <= stages + 1
      && s.active + Sum(s.callers, ResultOne) == |Flight(Slots(s))| + Sum(s.callers, StartOne)
      && ((forall c | 0 <= c < |s.callers| :: s.callers[c].Idle?) ==> s.active == |Flight(Slots(s))|)
      && Sum(s.cells, IsReady) == |Flight(Slots(s))| + Sum(s.threads, IsSent)
  {
    InvHolds(Repaired, callers, stages, memory, steps);
    var s := Run(Next, Initial(Repaired, callers, stages, memory), steps).value;
    FlightSize(Slots(s));
    CellsOfFlight(s);
    if forall c | 0 <= c < |s.callers| :: s.callers[c].Idle? {
      SumZero(s.callers, ResultOne);
      SumZero(s.callers, StartOne);
    }
  }

  lemma CellsOfFlight(s: State)
    requires StagesOk(s)
    ensures Sum(s.cells, IsReady) == |Flight(Slots(s))| + Sum(s.threads, IsSent)
  {
    forall i | 0 <= i < |s.threads| ensures s.threads[i].Sent? ==> s.cells[i].ready {
      assert ThreadOk(s.threads[i], s.cells[i], s.cells[i + 1]);
    }
    ReadyCells(Slots(s), s.cells, s.threads);
  }

  // ---------------------------------------------------------------- progress

  /** Neither a call nor a spurious wakeup. */
  predicate IsWork(a: Action)
  {
    a.Enter? || a.SendOn? || a.ClearOwn? || a.StartSend? || a.TakeResult?
  }

  predicate IsStageWork(a: Action) { a.Enter? || a.SendOn? || a.ClearOwn? }

  /** A stage can clear its cell, once it has sent its value on. */
  lemma CanClear(s: State, i: nat) returns (a: Action)
    requires |s.cells| == s.Stages() + 1 && i < s.Stages() && s.threads[i].Sent?
    ensures a.ClearOwn? && Next(s, a).Some?
  {
    var pick := PickFor(s.callers, AsleepStart);
    a := ClearOwn(i, pick);
  }

  /** A value with an empty slot ahead of it can come nearer to it. */
  lemma ValueMoves(s: State, j: nat) returns (a: Action)
    requires Control(s) && j < s.Stages() && Slot(s, j).Some? && Slot(s, j + 1).None?
    ensures IsStageWork(a) && Next(s, a).Some?
  {
    assert ThreadOk(s.threads[j], s.cells[j], s.cells[j + 1]);
    var t := s.threads[j];
    if t.Starting? || t.WaitData? {
      a := Enter(j);
    } else if !MutexHeld(s, j + 1) && (t.SendLock? || (t.SendWait? && t.awake)) {
      var pick := PickFor(s.callers, AsleepResult);
      a := SendOn(j, pick);
    } else {
      assert j + 1 < s.Stages() ==> ThreadOk(s.threads[j + 1], s.cells[j + 1], s.cells[j + 2]);
      a := CanClear(s, j + 1);
    }
  }

  /** A caller that is not asleep sends its value into the first cell, when it can lock that. */
  lemma CanStart(s: State, c: nat) returns (a: Action)
    requires |s.cells| == s.Stages() + 1 && c < |s.callers| && WantsStart(s.callers[c]) && !AsleepStart(s.callers[c])
    requires !MutexHeld(s, 0) && !s.cells[0].ready
    ensures a.StartSend? && a.caller == c && Next(s, a).Some? && Next(s, a).value.callers[c].Idle?
  {
    var pick := PickFor(s.callers[c := Idle], AsleepResult);
    a := StartSend(c, pick);
    AvailWakes(Started(s, c), 0, pick);
  }

  /** One that is not asleep takes a value from the tail. */
  lemma CanTake(s: State, c: nat) returns (a: Action)
    requires |s.cells| == s.Stages() + 1 && c < |s.callers| && WantsResult(s.callers[c])
    requires !AsleepResult(s.callers[c]) && s.cells[s.Stages()].ready
    ensures a.TakeResult? && a.caller == c && Next(s, a).Some?
  {
    var pick := PickFor(s.callers[c := Idle], AsleepStart);
    a := TakeResult(c, pick);
  }

  lemma AwakeStarter(callers: seq<Caller>) returns (c: nat)
    requires StartersHeard(callers) && exists c: nat :: c < |callers| && WantsStart(callers[c])
    ensures c < |callers| && WantsStart(callers[c]) && !AsleepStart(callers[c])
  {
    c :| c < |callers| && WantsStart(callers[c]);
    if AsleepStart(callers[c]) {
      assert SomeStartAwake(callers);
      c :| c < |callers| && callers[c].StartWait? && callers[c].awake;
    }
  }

  lemma AwakeTaker(callers: seq<Caller>) returns (c: nat)
    requires ResultsHeard(callers) && exists c: nat :: c < |callers| && WantsResult(callers[c])
    ensures c < |callers| && WantsResult(callers[c]) && !AsleepResult(callers[c])
  {
    c :| c < |callers| && WantsResult(callers[c]);
    if AsleepResult(callers[c]) {
      assert SomeResultAwake(callers);
      c :| c < |callers| && callers[c] == ResultWait(true);
    }
  }

  /** The first slot is empty, and a caller wants to start: some caller does, or the first stage clears
      its cell. */
  lemma SomeStarts(s: State) returns (a: Action)
    requires Control(s) && Slot(s, 0).None? && exists c: nat :: c < |s.callers| && WantsStart(s.callers[c])
    ensures IsWork(a) && Next(s, a).Some?
  {
    if s.Stages() > 0 { assert ThreadOk(s.threads[0], s.cells[0], s.cells[1]); }
    if MutexHeld(s, 0) {
      a := CanClear(s, 0);
    } else {
      var c := AwakeStarter(s.callers);
      a := CanStart(s, c);
    }
  }

  lemma SomeTakes(s: State) returns (a: Action)
    requires Control(s) && s.cells[s.Stages()].ready
    requires exists c: nat :: c < |s.callers| && WantsResult(s.callers[c])
    ensures IsWork(a) && Next(s, a).Some?
  {
    var c := AwakeTaker(s.callers);
    a := CanTake(s, c);
  }

  /** While some pipe_result that has not reported empty waits, a step can be taken: a value is on its way,
      or a pipe_start is. */
  lemma ResultNotStuck(s: State) returns (a: Action)
    requires Inv(s) && exists c: nat :: c < |s.callers| && WantsResult(s.callers[c])
    ensures IsWork(a) && Next(s, a).Some?
  {
    var n := s.Stages();
    FlightSize(Slots(s));
    if exists i :: 0 <= i <= n && Slots(s)[i].Some? {
      var j := LastValue(s, n);
      if j == n { a := SomeTakes(s); } else { a := ValueMoves(s, j); }
    } else {
      var c: nat :| c < |s.callers| && WantsResult(s.callers[c]);
      SumMember(s.callers, c, ResultOne);
      var d := SumWitness(s.callers, StartOne);
      assert WantsStart(s.callers[d]) && Slots(s)[0].None?;
      a := SomeStarts(s);
    }
  }

  /** The occupied slot nearest the tail, at or before slot k. */
  lemma LastValue(s: State, k: nat) returns (j: nat)
    requires Control(s) && k <= s.Stages() && exists i :: 0 <= i <= k && Slots(s)[i].Some?
    ensures j <= k && Slot(s, j).Some? && forall i | j < i <= k :: Slot(s, i).None?
    decreases k
  {
    if Slots(s)[k].Some? { j := k; } else { j := LastValue(s, k - 1); }
  }

  /** The empty slot nearest the head, at or after slot k. */
  lemma FirstGap(s: State, k: nat) returns (j: nat)
    requires Control(s) && k <= s.Stages() && exists i :: k <= i <= s.Stages() && Slots(s)[i].None?
    ensures k <= j <= s.Stages() && Slot(s, j).None? && forall i | k <= i < j :: Slot(s, i).Some?
    decreases s.Stages() - k
  {
    if Slots(s)[k].None? { j := k; } else { j := FirstGap(s, k + 1); }
  }

  /** The summed distance of the values to the tail, weighted to pay for the steps it takes. */
  function Distance(slots: seq<Option<int>>): nat
  {
    if slots == [] then 0
    else Distance(slots[1..]) + (if slots[0].Some? then 4 * (|slots| - 1) + 2 else 0)
  }

  lemma {:induction false} DistanceMove(slots: seq<Option<int>>, i: nat)
    requires i + 1 < |slots| && slots[i].Some? && slots[i + 1].None?
    ensures Distance(slots[i := None][i + 1 := slots[i]]) == Distance(slots) - 4
    decreases i
  {
    var moved := slots[i := None][i + 1 := slots[i]];
    if i == 0 {
      assert moved[1..][1..] == slots[1..][1..];
    } else {
      assert moved[1..] == slots[1..][i - 1 := None][i := slots[1..][i - 1]];
      DistanceMove(slots[1..], i - 1);
    }
  }

  lemma {:induction false} DistancePop(slots: seq<Option<int>>)
    requires slots != [] && slots[|slots| - 1].Some?
    ensures Distance(slots[|slots| - 1 := None]) == Distance(slots) - 2
    decreases |slots|
  {
    var n := |slots| - 1;
    if n > 0 {
      assert slots[n := None][1..] == slots[1..][n - 1 := None];
      DistancePop(slots[1..]);
    }
  }

  lemma DistancePush(slots: seq<Option<int>>, value: int)
    requires slots != [] && slots[0].None?
    ensures Distance(slots[0 := Some(value)]) == Distance(slots) + 4 * (|slots| - 1) + 2
  {
    assert slots[0 := Some(value)][1..] == slots[1..];
  }

  function ThreadEffort(t: Thread): nat
  {
    match t
    case Starting => 2
    case WaitData(awake) => if awake then 2 else 0
    case SendLock(_) => 1
    case SendWait(_, awake) => if awake then 1 else 0
    case Sent => 2
  }

  function CallerEffort(c: Caller, stages: nat): nat
  {
    match c
    case Idle => 0
    case StartLock(_) => 4 * stages + 6
    case StartWait(_, awake) => if awake then 4 * stages + 6 else 4 * stages + 5
    case ResultLock => 1
    case ResultWait(awake) => if awake then 1 else 0
  }

  function Weight(stages: nat): Caller -> nat { c => CallerEffort(c, stages) }

  /** What the threads and the callers have yet to do. */
  function Toil(s: State): nat
  {
    Sum(s.threads, ThreadEffort) + Sum(s.callers, Weight(s.Stages()))
  }

  function Remaining(s: State): nat { Distance(Slots(s)) + Toil(s) }

  lemma SignalCallersEffort(s: State, asleep: Caller -> bool, pick: nat)
    requires SignalCallers(s, asleep, pick).Some?
    ensures Toil(SignalCallers(s, asleep, pick).value) <= Toil(s) + 1
  {
    if pick < |s.callers| { SumUpdate(s.callers, pick, WakeCaller(s.callers[pick]), Weight(s.Stages())); }
  }

  lemma AvailEffort(s: State, i: nat, pick: nat)
    requires SignalAvail(s, i, pick).Some?
    ensures Toil(SignalAvail(s, i, pick).value) <= Toil(s) + 2
  {
    if i < |s.threads| {
      SumUpdate(s.threads, i, WakeThread(s.threads[i]), ThreadEffort);
    } else {
      SignalCallersEffort(s, AsleepResult, pick);
    }
  }

  lemma ReadyEffort(s: State, i: nat, pick: nat)
    requires SignalReady(s, i, pick).Some?
    ensures Toil(SignalReady(s, i, pick).value) <= Toil(s) + 1
  {
    if 0 < i <= |s.threads| {
      SumUpdate(s.threads, i - 1, WakeThread(s.threads[i - 1]), ThreadEffort);
    } else {
      SignalCallersEffort(s, AsleepStart, pick);
    }
  }

  lemma SenderHasValue(s: State, i: nat)
    requires Control(s) && i < s.Stages() && (s.threads[i].SendLock? || s.threads[i].SendWait?)
    ensures Slots(s)[i].Some?
  {
    assert ThreadOk(s.threads[i], s.cells[i], s.cells[i + 1]);
  }

  lemma SendProgresses(s: State, i: nat, pick: nat)
    requires Control(s) && Next(s, SendOn(i, pick)).Some?
    ensures Remaining(Next(s, SendOn(i, pick)).value) < Remaining(s)
  {
    hide Slots, Distance, Signal, Sum;
    SendMovesSlot(s, i, pick);
    if s.cells[i + 1].ready {
      SumUpdate(s.threads, i, SendWait(s.threads[i].value, false), ThreadEffort);
    } else {
      SenderHasValue(s, i);
      DistanceMove(Slots(s), i);
      SumUpdate(s.threads, i, Sent, ThreadEffort);
      AvailEffort(Passed(s, i), i + 1, pick);
    }
  }

  lemma ClearProgresses(s: State, i: nat, pick: nat)
    requires Control(s) && Next(s, ClearOwn(i, pick)).Some?
    ensures Remaining(Next(s, ClearOwn(i, pick)).value) < Remaining(s)
  {
    hide Slots, Distance, Signal, Sum;
    ClearKeepsSlots(s, i, pick);
    SumUpdate(s.threads, i, WaitData(false), ThreadEffort);
    ReadyEffort(Cleared(s, i), i, pick);
  }

  lemma StartProgresses(s: State, c: nat, pick: nat)
    requires Control(s) && Next(s, StartSend(c, pick)).Some?
    ensures Remaining(Next(s, StartSend(c, pick)).value) < Remaining(s)
  {
    hide Slots, Distance, Signal, Sum;
    StartFillsSlot(s, c, pick);
    var t := s.callers[c];
    SumUpdate(s.callers, c, if s.cells[0].ready then StartWait(t.value, false) else Idle, Weight(s.Stages()));
    if !s.cells[0].ready {
      DistancePush(Slots(s), t.value);
      AvailEffort(Started(s, c), 0, pick);
    }
  }

  lemma TakeProgresses(s: State, c: nat, pick: nat)
    requires Control(s) && Next(s, TakeResult(c, pick)).Some?
    ensures Remaining(Next(s, TakeResult(c, pick)).value) < Remaining(s)
  {
    hide Slots, Distance, Signal, Sum;
    TakeEmptiesSlot(s, c, pick);
    var n := s.Stages();
    SumUpdate(s.callers, c, if s.cells[n].ready then Idle else ResultWait(false), Weight(n));
    if s.cells[n].ready {
      DistancePop(Slots(s));
      ReadyEffort(Taken(s, c), n, pick);
    }
  }

  /** Every step but a call and a spurious wakeup brings the values in flight nearer to the tail,
      or a thread nearer to moving one. */
  lemma WorkProgresses(s: State, a: Action)
    requires Control(s) && IsWork(a) && Next(s, a).Some?
    ensures Remaining(Next(s, a).value) < Remaining(s)
  {
    hide Slots, Distance, Signal, Sum;
    match a
    case Enter(i) =>
      OthersKeepSlots(s, a);
      SumUpdate(s.threads, i, Tested(s.variant, s.cells[i]), ThreadEffort);
    case SendOn(i, pick) => SendProgresses(s, i, pick);
    case ClearOwn(i, pick) => ClearProgresses(s, i, pick);
    case StartSend(c, pick) => StartProgresses(s, c, pick);
    case TakeResult(c, pick) => TakeProgresses(s, c, pick);
  }

  /** Work goes on with the same call until it is complete, and a pipe_result completes with a result. */
  lemma WorkKeepsCall(s: State, a: Action, c: nat)
    requires IsWork(a) && Next(s, a).Some? && c < |s.callers|
    ensures var r := Next(s, a).value;
      && |r.callers| == |s.callers| && s.delivered <= r.delivered
      && (WantsResult(s.callers[c]) ==>
            WantsResult(r.callers[c]) || (r.callers[c].Idle? && |s.delivered| < |r.delivered|))
      && (WantsStart(s.callers[c]) ==> r.callers[c].Idle? || WantsStart(r.callers[c]))
  {
  }

  /** A pipe_result that does not report empty always gets a value, with any number of callers; and it does
      so on every schedule, since no step but a call undoes the progress of another, and ResultNotStuck. */
  lemma {:induction false} ResultArrives(s: State, c: nat) returns (steps: seq<Action>)
    requires Inv(s) && c < |s.callers| && WantsResult(s.callers[c])
    ensures forall i | 0 <= i < |steps| :: IsWork(steps[i])
    ensures var r := Run(Next, s, steps);
      && r.Some? && |r.value.callers| == |s.callers| && r.value.callers[c].Idle?
      && s.delivered <= r.value.delivered && |s.delivered| < |r.value.delivered| && Functional(r.value)
    decreases Remaining(s)
  {
    hide Control, Flow, Given, Next, Functional;
    var a := ResultNotStuck(s);
    var r := Next(s, a).value;
    WorkProgresses(s, a);
    WorkKeepsCall(s, a, c);
    InvStep(s, a);
    if r.callers[c].Idle? {
      steps := [a];
      assert Run(Next, r, steps[1..]) == Some(r);
      FlowIsFunctional(r);
    } else {
      var more := ResultArrives(r, c);
      steps := [a] + more;
      assert steps[1..] == more;
    }
  }

  // ---------------------------------------------------------------- when pipe_start completes

  /** What the stages do by themselves keeps the calls and the number of values in flight. */
  lemma StageWorkKeeps(s: State, a: Action)
    requires Inv(s) && IsStageWork(a) && Next(s, a).Some?
    ensures var r := Next(s, a).value;
      Inv(r) && OnlyWoken(s.callers, r.callers) && |Flight(Slots(r))| == |Flight(Slots(s))| && r.Stages() == s.Stages()
  {
    hide Flow, Given, Flight, Signal;
    InvStep(s, a);
    SizesStay(s, a);
    match a
    case SendOn(i, pick) =>
      SendMovesSlot(s, i, pick);
      if !s.cells[i + 1].ready { FlightMove(Slots(s), i); }
    case ClearOwn(i, pick) => ClearKeepsSlots(s, i, pick);
    case _ => OthersKeepSlots(s, a);
  }

  /** With room in the pipeline, the stages can make the first cell free. */
  lemma {:induction false} HeadFrees(s: State) returns (steps: seq<Action>, r: State)
    requires Inv(s) && |Flight(Slots(s))| <= s.Stages()
    ensures Run(Next, s, steps) == Some(r)
    ensures Inv(r) && OnlyWoken(s.callers, r.callers) && !r.cells[0].ready && !MutexHeld(r, 0)
    decreases Remaining(s)
  {
    hide Flow, Given, Next, Flight;
    FlightSize(Slots(s));
    var j := FirstGap(s, 0);
    if s.Stages() > 0 { assert ThreadOk(s.threads[0], s.cells[0], s.cells[1]); }
    if j == 0 && !MutexHeld(s, 0) {
      steps, r := [], s;
    } else {
      var a: Action;
      if j > 0 { a := ValueMoves(s, j - 1); } else { a := CanClear(s, 0); }
      StageWorkKeeps(s, a);
      WorkProgresses(s, a);
      var mid := Next(s, a).value;
      var more, end := HeadFrees(mid);
      steps, r := [a] + more, end;
      assert steps[1..] == more;
      WokenTwice(s.callers, mid.callers, end.callers);
    }
  }

  lemma WokenTwice(a: seq<Caller>, b: seq<Caller>, c: seq<Caller>)
    requires OnlyWoken(a, b) && OnlyWoken(b, c)
    ensures OnlyWoken(a, c)
  {
  }

  lemma FreeHeadIsFilled(s: State, c: nat) returns (steps: seq<Action>)
    requires |s.cells| == s.Stages() + 1 && !s.cells[0].ready && !MutexHeld(s, 0)
    requires c < |s.callers| && WantsStart(s.callers[c])
    ensures var r := Run(Next, s, steps); r.Some? && c < |r.value.callers| && r.value.callers[c].Idle?
  {
    if AsleepStart(s.callers[c]) {
      var r := Next(s, SpuriousCaller(c)).value;
      var a := CanStart(r, c);
      SizesStay(r, a);
      RunAlong(Next, [s, r, Next(r, a).value], [SpuriousCaller(c), a]);
      steps := [SpuriousCaller(c), a];
    } else {
      var a := CanStart(s, c);
      SizesStay(s, a);
      RunAlong(Next, [s, Next(s, a).value], [a]);
      steps := [a];
    }
  }

  lemma StartArrives(s: State, c: nat) returns (steps: seq<Action>)
    requires Inv(s) && c < |s.callers| && WantsStart(s.callers[c]) && |Flight(Slots(s))| <= s.Stages()
    ensures var r := Run(Next, s, steps); r.Some? && c < |r.value.callers| && r.value.callers[c].Idle?
  {
    var before, r := HeadFrees(s);
    var more := FreeHeadIsFilled(r, c);
    RunConcat(Next, s, before, more);
    steps := before + more;
  }

  ghost predicate StartersStay(before: seq<Caller>, after: seq<Caller>)
  {
    |after| == |before| && forall i | 0 <= i < |before| && WantsStart(before[i]) :: WantsStart(after[i])
  }

  ghost predicate Full(s: State) { |Flight(Slots(s))| == s.Stages() + 1 }

  /** In a full pipeline a caller of pipe_result can make room ... */
  lemma TakeMakesRoom(s: State, d: nat) returns (steps: seq<Action>, r: State)
    requires Inv(s) && Full(s) && d < |s.callers| && WantsResult(s.callers[d])
    ensures Run(Next, s, steps) == Some(r)
    ensures Inv(r) && |Flight(Slots(r))| <= r.Stages() && StartersStay(s.callers, r.callers)
  {
    hide Flow, Given, Flight, Signal;
    FlightSize(Slots(s));
    assert Slots(s)[s.Stages()].Some?;
    var awake, mid := [], s;
    if AsleepResult(s.callers[d]) {
      mid := Next(s, SpuriousCaller(d)).value;
      RunSnoc(Next, s, [], s, SpuriousCaller(d));
      awake := [] + [SpuriousCaller(d)];
      InvStep(s, SpuriousCaller(d));
      OthersKeepSlots(s, SpuriousCaller(d));
    }
    var a := CanTake(mid, d);
    RunSnoc(Next, s, awake, mid, a);
    steps, r := awake + [a], Next(mid, a).value;
    InvStep(mid, a);
    SizesStay(mid, a);
    TakeEmptiesSlot(mid, d, a.pick);
    FlightPop(Slots(mid));
  }

  /** ... and so can a caller of nothing, which calls pipe_result. */
  lemma RoomIsMade(s: State, c: nat) returns (steps: seq<Action>, r: State)
    requires Inv(s) && Full(s) && c < |s.callers| && !WantsStart(s.callers[c])
    ensures Run(Next, s, steps) == Some(r)
    ensures Inv(r) && |Flight(Slots(r))| <= r.Stages() && StartersStay(s.callers, r.callers)
  {
    if d: nat :| d < |s.callers| && WantsResult(s.callers[d]) {
      steps, r := TakeMakesRoom(s, d);
    } else {
      SumZero(s.callers, ResultOne);
      var mid := Next(s, CallResult(c)).value;
      InvStep(s, CallResult(c));
      OthersKeepSlots(s, CallResult(c));
      var more, end := TakeMakesRoom(mid, c);
      steps, r := [CallResult(c)] + more, end;
      assert steps[1..] == more;
    }
  }

  /** Every slot is occupied, and every caller is in pipe_start. */
  ghost predicate Jammed(s: State)
  {
    Inv(s) && Full(s) && forall c | 0 <= c < |s.callers| :: WantsStart(s.callers[c])
  }

  lemma JammedStaysJammed(s: State, a: Action)
    requires Jammed(s) && Next(s, a).Some?
    ensures Jammed(Next(s, a).value) && |Next(s, a).value.callers| == |s.callers|
  {
    hide Flow, Given, Flight, Signal;
    FlightSize(Slots(s));
    assert Slots(s)[0].Some?;
    SizesStay(s, a);
    if IsStageWork(a) {
      StageWorkKeeps(s, a);
    } else {
      InvStep(s, a);
      if a.StartSend? { StartFillsSlot(s, a.caller, a.pick); } else { OthersKeepSlots(s, a); }
    }
  }

  lemma JammedForEver(s: State, steps: seq<Action>)
    requires Jammed(s)
    ensures var r := Run(Next, s, steps); r.Some? ==> Jammed(r.value) && |r.value.callers| == |s.callers|
  {
    var inv := (t: State) => Jammed(t) && |t.callers| == |s.callers|;
    hide Jammed, Next;
    forall t, a | inv(t) && Next(t, a).Some? ensures inv(Next(t, a).value) { JammedStaysJammed(t, a); }
    Invariance(Next, inv, s, steps);
  }

  lemma StartArrivesAfterRoom(s: State, c: nat, d: nat) returns (steps: seq<Action>)
    requires Inv(s) && Full(s) && c < |s.callers| && WantsStart(s.callers[c])
    requires d < |s.callers| && !WantsStart(s.callers[d])
    ensures var r := Run(Next, s, steps); r.Some? && c < |r.value.callers| && r.value.callers[c].Idle?
  {
    hide Inv, Full, Next;
    var room, mid := RoomIsMade(s, d);
    var more := StartArrives(mid, c);
    RunConcat(Next, s, room, more);
    steps := room + more;
  }

  /** pipe_start can complete exactly when one of the stages + 1 cells is free, or some caller is not in
      pipe_start: callers that are all in it when every cell is full wait for ever. */
  lemma StartCompletesIffRoom(s: State, c: nat)
    requires Inv(s) && c < |s.callers| && WantsStart(s.callers[c])
    ensures
      (exists steps :: var r := Run(Next, s, steps); r.Some? && c < |r.value.callers| && r.value.callers[c].Idle?)
      <==> |Flight(Slots(s))| <= s.Stages() || exists d: nat :: d < |s.callers| && !WantsStart(s.callers[d])
  {
    assert |Flight(Slots(s))| <= s.Stages() || Full(s) by { FlightSize(Slots(s)); }
    if |Flight(Slots(s))| <= s.Stages() {
      var steps := StartArrives(s, c);
    } else if d: nat :| d < |s.callers| && !WantsStart(s.callers[d]) {
      var steps := StartArrivesAfterRoom(s, c, d);
    } else {
      hide Control, Flow, Given, Full, Next;
      assert Jammed(s);
      forall steps ensures var r := Run(Next, s, steps);
          r.Some? ==> c < |r.value.callers| && WantsStart(r.value.callers[c])
      {
        JammedForEver(s, steps);
      }
    }
  }

  // ---------------------------------------------------------------- the pipeline as written

  /** As written a stage that finds no data goes on with what its memory held, and keeps its mutex for
      ever; one that finds data before it has started waits for ever. */
  predicate StaleThread(t: Thread, own: Cell, memory: int)
  {
    match t
    case Starting => !own.ready ==> own.data == memory
    case WaitData(_) => own.ready
    case Sent => !own.ready && own.data == memory
    case _ => !own.ready && own.data == memory && t.value == memory + 1
  }

  ghost predicate StaleThreads(memory: nat -> int, s: State)
  {
    && s.variant.AsWritten?
    && |s.cells| == s.Stages() + 1
    && forall i | 0 <= i < s.Stages() :: StaleThread(s.threads[i], s.cells[i], memory(i))
  }

  /** All that the last stage sends, and so all that is delivered, comes from its memory. */
  ghost predicate StaleTail(memory: nat -> int, s: State)
  {
    var n := s.Stages();
    && 1 <= n < |s.cells|
    && (s.cells[n].ready ==> s.cells[n].data == memory(n - 1) + 1)
    && forall k | 0 <= k < |s.delivered| :: s.delivered[k] == memory(n - 1) + 1
  }

  /** A value that has entered is in the first cell. */
  ghost predicate StaleHead(s: State)
  {
    s.cells != [] && |s.entered| == if s.cells[0].ready then 1 else 0
  }

  /** `active` counts the calls as it should. */
  ghost predicate CallsCounted(s: State)
  {
    s.active >= 0 && |s.entered| + Sum(s.callers, StartOne) == s.active + |s.delivered| + Sum(s.callers, ResultOne)
  }

  ghost predicate Stale(memory: nat -> int, s: State)
  {
    s.Stages() >= 1 && StaleThreads(memory, s) && StaleTail(memory, s) && StaleHead(s) && CallsCounted(s)
  }

  /** The state before the signal of a step that ends with one, else the state after the step. */
  function Silent(s: State, a: Action): State
    requires Next(s, a).Some?
  {
    match a
    case SendOn(i, _) => if s.cells[i + 1].ready then Next(s, a).value else Passed(s, i)
    case ClearOwn(i, _) => Cleared(s, i)
    case StartSend(c, _) => if s.cells[0].ready then Next(s, a).value else Started(s, c)
    case TakeResult(c, _) => if s.cells[s.Stages()].ready then Taken(s, c) else Next(s, a).value
    case _ => Next(s, a).value
  }

  lemma StepIsSilent(s: State, a: Action)
    requires Next(s, a).Some?
    ensures SameButWoken(Silent(s, a), Next(s, a).value)
  {
    hide Signal;
    match a
    case SendOn(i, pick) => if !s.cells[i + 1].ready { AvailWakes(Passed(s, i), i + 1, pick); }
    case ClearOwn(i, pick) => ReadyWakes(Cleared(s, i), i, pick);
    case StartSend(c, pick) => if !s.cells[0].ready { AvailWakes(Started(s, c), 0, pick); }
    case TakeResult(c, pick) => if s.cells[s.Stages()].ready { ReadyWakes(Taken(s, c), s.Stages(), pick); }
    case _ =>
  }

  lemma ThreadStaysStale(memory: nat -> int, s: State, a: Action, j: nat)
    requires s.variant.AsWritten? && j < s.Stages() && Next(s, a).Some?
    requires StaleThread(s.threads[j], s.cells[j], memory(j))
    ensures var r := Next(s, a).value;
      j < |r.threads| && j < |r.cells| && StaleThread(r.threads[j], r.cells[j], memory(j))
  {
    StepIsSilent(s, a);
    hide Signal, OnlyWoken;
  }

  lemma ThreadsStayStale(memory: nat -> int, s: State, a: Action)
    requires StaleThreads(memory, s) && Next(s, a).Some?
    ensures StaleThreads(memory, Next(s, a).value)
  {
    SizesStay(s, a);
    hide StaleThread, Next;
    var r := Next(s, a).value;
    forall j | 0 <= j < s.Stages() ensures StaleThread(r.threads[j], r.cells[j], memory(j)) {
      ThreadStaysStale(memory, s, a, j);
    }
  }

  lemma TailStaysStale(memory: nat -> int, s: State, a: Action)
    requires StaleTail(memory, s) && Next(s, a).Some?
    requires StaleThread(s.threads[s.Stages() - 1], s.cells[s.Stages() - 1], memory(s.Stages() - 1))
    ensures StaleTail(memory, Next(s, a).value)
  {
    StepIsSilent(s, a);
    SizesStay(s, a);
    hide Signal, OnlyWoken;
  }

  lemma HeadStaysStale(memory: nat -> int, s: State, a: Action)
    requires s.Stages() >= 1 && StaleHead(s) && StaleThread(s.threads[0], s.cells[0], memory(0)) && Next(s, a).Some?
    ensures StaleHead(Next(s, a).value)
  {
    StepIsSilent(s, a);
    hide Signal, OnlyWoken;
  }

  lemma CallsStayCounted(s: State, a: Action)
    requires CallsCounted(s) && Next(s, a).Some?
    ensures CallsCounted(Next(s, a).value)
  {
    hide Signal, Sum;
    var r := Next(s, a).value;
    StepIsSilent(s, a);
    WokenCount(Silent(s, a).callers, r.callers);
    match a
    case CallStart(c, value) => CallersUpdate(s.callers, c, StartLock(value));
    case StartSend(c, _) => CallersUpdate(s.callers, c, Silent(s, a).callers[c]);
    case CallResult(c) => CallersUpdate(s.callers, c, ResultLock);
    case TakeResult(c, _) => CallersUpdate(s.callers, c, Silent(s, a).callers[c]);
    case SpuriousCaller(c) => CallersUpdate(s.callers, c, WakeCaller(s.callers[c]));
    case _ =>
  }

  lemma StaleStep(memory: nat -> int, s: State, a: Action)
    requires Stale(memory, s) && Next(s, a).Some?
    ensures Stale(memory, Next(s, a).value)
  {
    SizesStay(s, a);
    ThreadsStayStale(memory, s, a);
    hide Next, StaleThread, StaleTail, StaleHead, CallsCounted;
    TailStaysStale(memory, s, a);
    HeadStaysStale(memory, s, a);
    CallsStayCounted(s, a);
  }

  lemma InitiallyStale(callers: nat, stages: nat, memory: nat -> int)
    requires stages >= 1
    ensures Stale(memory, Initial(AsWritten, callers, stages, memory))
  {
    SumZero(Initial(AsWritten, callers, stages, memory).callers, StartOne);
    SumZero(Initial(AsWritten, callers, stages, memory).callers, ResultOne);
  }

  lemma StaleHolds(callers: nat, stages: nat, memory: nat -> int, steps: seq<Action>)
    requires stages >= 1
    ensures var r := Run(Next, Initial(AsWritten, callers, stages, memory), steps);
      r.Some? ==> Stale(memory, r.value) && r.value.Stages() == stages && |r.value.callers| == callers
  {
    var inv := (s: State) => Stale(memory, s) && s.Stages() == stages && |s.callers| == callers;
    InitiallyStale(callers, stages, memory);
    hide Next, Stale;
    forall t, a | inv(t) && Next(t, a).Some? ensures inv(Next(t, a).value) {
      StaleStep(memory, t, a);
      SizesStay(t, a);
    }
    Invariance(Next, inv, Initial(AsWritten, callers, stages, memory), steps);
  }

  /** As written a value never leaves the first cell: in every run with at least one stage, all that is
      delivered is what the last stage's memory held, increased by one; and at most one pipe_start ever
      gets its value into the pipeline. */
  lemma AsWrittenDeliversMemory(callers: nat, stages: nat, memory: nat -> int, steps: seq<Action>)
    requires stages >= 1 && Run(Next, Initial(AsWritten, callers, stages, memory), steps).Some?
    ensures var s := Run(Next, Initial(AsWritten, callers, stages, memory), steps).value;
      && (forall k | 0 <= k < |s.delivered| :: s.delivered[k] == memory(stages - 1) + 1)
      && |s.entered| <= 1
  {
    StaleHolds(callers, stages, memory, steps);
  }

  /** The first cell is full, or its stage has started and holds its mutex for ever; and a caller waits. */
  ghost predicate HeadTaken(memory: nat -> int, c: nat, value: int, s: State)
  {
    && Stale(memory, s) && (s.cells[0].ready || MutexHeld(s, 0))
    && c < |s.callers| && Pending(s.callers[c]) == [value]
  }

  lemma HeadStaysTaken(memory: nat -> int, c: nat, value: int, s: State, a: Action)
    requires HeadTaken(memory, c, value, s) && Next(s, a).Some?
    ensures HeadTaken(memory, c, value, Next(s, a).value)
  {
    assert StaleThread(s.threads[0], s.cells[0], memory(0));
    StaleStep(memory, s, a);
    StepIsSilent(s, a);
    hide Signal, Stale;
  }

  lemma StartNeverCompletes(memory: nat -> int, s: State, c: nat, steps: seq<Action>)
    requires c < |s.callers| && WantsStart(s.callers[c]) && HeadTaken(memory, c, s.callers[c].value, s)
    ensures var r := Run(Next, s, steps);
      r.Some? ==> c < |r.value.callers| && Pending(r.value.callers[c]) == [s.callers[c].value]
  {
    var inv := (t: State) => HeadTaken(memory, c, s.callers[c].value, t);
    assert inv(s);
    hide Next;
    forall t, a | inv(t) && Next(t, a).Some? ensures inv(Next(t, a).value) {
      HeadStaysTaken(memory, c, s.callers[c].value, t, a);
    }
    Invariance(Next, inv, s, steps);
  }

  /** As written a pipe_start that finds the first stage started, or its cell full, waits for ever:
      it completes exactly when neither is so, whatever the other threads do. */
  lemma AsWrittenStartCompletesIff(memory: nat -> int, s: State, c: nat)
    requires Stale(memory, s) && c < |s.callers| && WantsStart(s.callers[c])
    ensures
      (exists steps :: var r := Run(Next, s, steps); r.Some? && c < |r.value.callers| && r.value.callers[c].Idle?)
      <==> s.threads[0].Starting? && !s.cells[0].ready
  {
    assert StaleThread(s.threads[0], s.cells[0], memory(0));
    if s.threads[0].Starting? && !s.cells[0].ready {
      var steps := FreeHeadIsFilled(s, c);
    } else {
      assert HeadTaken(memory, c, s.callers[c].value, s);
      forall steps ensures var r := Run(Next, s, steps);
          r.Some? ==> c < |r.value.callers| && !r.value.callers[c].Idle?
      {
        StartNeverCompletes(memory, s, c, steps);
      }
    }
  }

  /** As written, with any number of stages and callers: once the first stage has started, the first
      pipe_start waits for ever. */
  lemma AsWrittenJams(
    callers: nat, stages: nat, memory: nat -> int, c: nat, value: int, more: seq<Action>)
    requires stages >= 1 && c < callers
    ensures var r := Run(Next, Initial(AsWritten, callers, stages, memory), [Enter(0), CallStart(c, value)] + more);
      r.Some? ==> c < |r.value.callers| && Pending(r.value.callers[c]) == [value]
  {
    var s, steps := Initial(AsWritten, callers, stages, memory), [Enter(0), CallStart(c, value)];
    var s2 := JamRun(callers, stages, memory, c, value);
    hide Next;
    RunConcat(Next, s, steps, more);
    StartNeverCompletes(memory, s2, c, more);
  }

  lemma JamRun(callers: nat, stages: nat, memory: nat -> int, c: nat, value: int) returns (s: State)
    requires stages >= 1 && c < callers
    ensures Run(Next, Initial(AsWritten, callers, stages, memory), [Enter(0), CallStart(c, value)]) == Some(s)
    ensures c < |s.callers| && s.callers[c] == StartLock(value) && HeadTaken(memory, c, value, s)
  {
    var s0, steps := Initial(AsWritten, callers, stages, memory), [Enter(0), CallStart(c, value)];
    var s1 := Next(s0, Enter(0)).value;
    s := Next(s1, CallStart(c, value)).value;
    RunAlong(Next, [s0, s1, s], steps);
    StaleHolds(callers, stages, memory, steps);
  }

  /** As written the last stage sends before it has received: the tail holds a value, and none has entered. */
  lemma GarbageRun(callers: nat, stages: nat, memory: nat -> int) returns (s: State)
    requires stages >= 1
    ensures Run(Next, Initial(AsWritten, callers, stages, memory),
                [Enter(stages - 1), SendOn(stages - 1, 0)]) == Some(s)
    ensures s == Initial(AsWritten, callers, stages, memory).(
      cells := Initial(AsWritten, callers, stages, memory).cells[stages := Cell(true, memory(stages - 1) + 1)],
      threads := Initial(AsWritten, callers, stages, memory).threads[stages - 1 := Sent])
  {
    var s0 := Initial(AsWritten, callers, stages, memory);
    var s1 := s0.(threads := s0.threads[stages - 1 := SendLock(memory(stages - 1) + 1)]);
    s := s1.(cells := s0.cells[stages := Cell(true, memory(stages - 1) + 1)],
             threads := s0.threads[stages - 1 := Sent]);
    assert s1.threads[stages - 1 := Sent] == s.threads;
    RunAlong(Next, [s0, s1, s], [Enter(stages - 1), SendOn(stages - 1, 0)]);
  }

  /** The pipeline is functional in every run exactly when it is repaired, or has no stages. */
  lemma FunctionalIff(v: Variant, callers: nat, stages: nat, memory: nat -> int)
    ensures
      (forall steps ::
         var r := Run(Next, Initial(v, callers, stages, memory), steps); r.Some? ==> Functional(r.value))
      <==> v.Repaired? || stages == 0
  {
    if v.Repaired? || stages == 0 {
      forall steps | Run(Next, Initial(v, callers, stages, memory), steps).Some?
        ensures Functional(Run(Next, Initial(v, callers, stages, memory), steps).value)
      {
        InvHolds(v, callers, stages, memory, steps);
        FlowIsFunctional(Run(Next, Initial(v, callers, stages, memory), steps).value);
      }
    } else {
      var s := GarbageRun(callers, stages, memory);
      FlightSize(Slots(s));
      assert Slots(s)[stages].Some?;
      assert !Functional(s);
    }
  }

  // ---------------------------------------------------------------- when the results are right

  /** A single stage that starts first keeps the values out; one that does not never sends. With a single
      caller, or none, either leaves pipe_result without a result. */
  ghost predicate NoResult(memory: nat -> int, s: State)
  {
    && Stale(memory, s) && s.delivered == []
    && (s.callers == [] || (|s.callers| == 1 && s.Stages() == 1 && (s.cells[1].ready ==> MutexHeld(s, 0))))
  }

  lemma NoResultStep(memory: nat -> int, s: State, a: Action)
    requires NoResult(memory, s) && Next(s, a).Some?
    ensures NoResult(memory, Next(s, a).value)
  {
    StaleStep(memory, s, a);
    SizesStay(s, a);
    StepIsSilent(s, a);
    assert StaleThread(s.threads[0], s.cells[0], memory(0));
    if s.callers != [] {
      assert s.callers[1..] == [];
      assert Sum(s.callers, StartOne) == StartOne(s.callers[0]) && Sum(s.callers, ResultOne) == ResultOne(s.callers[0]);
    }
    hide Signal;
  }

  lemma CallResultRun(s: State, c: nat) returns (r: State)
    requires |s.cells| == s.Stages() + 1 && s.Stages() >= 1 && s.threads[s.Stages() - 1].Sent?
    requires s.cells[s.Stages()].ready && c < |s.callers| && s.callers[c].Idle? && s.active > 0
    ensures Run(Next, s, [CallResult(c), TakeResult(c, 0)]) == Some(r)
    ensures r.entered == s.entered && r.delivered == s.delivered + [s.cells[s.Stages()].data]
    ensures r.Stages() == s.Stages()
  {
    var mid := s.(callers := s.callers[c := ResultLock], active := s.active - 1);
    r := Next(mid, TakeResult(c, 0)).value;
    RunAlong(Next, [s, mid, r], [CallResult(c), TakeResult(c, 0)]);
  }

  /** As written with two callers: one is in pipe_start, and the other gets a result before any value has
      entered. */
  lemma EarlyResultRun(callers: nat, stages: nat, memory: nat -> int) returns (steps: seq<Action>)
    requires stages >= 1 && callers >= 2
    ensures var r := Run(Next, Initial(AsWritten, callers, stages, memory), steps); r.Some? && !ResultsOk(r.value)
  {
    var s0, first := Initial(AsWritten, callers, stages, memory), [Enter(stages - 1), SendOn(stages - 1, 0)];
    var s1 := GarbageRun(callers, stages, memory);
    var s2 := Next(s1, CallStart(0, 0)).value;
    RunSnoc(Next, s0, first, s1, CallStart(0, 0));
    var s3 := CallResultRun(s2, 1);
    hide Next;
    RunConcat(Next, s0, first + [CallStart(0, 0)], [CallResult(1), TakeResult(1, 0)]);
    steps := first + [CallStart(0, 0)] + [CallResult(1), TakeResult(1, 0)];
  }

  lemma ValueGoesIn(s: State, c: nat, value: int) returns (r: State)
    requires |s.cells| == s.Stages() + 1 && s.Stages() >= 1 && s.threads[0].Starting? && !s.cells[0].ready
    requires c < |s.callers| && s.callers[c].Idle?
    ensures Run(Next, s, [CallStart(c, value), StartSend(c, 0)]) == Some(r)
    ensures r == s.(cells := s.cells[0 := Cell(true, value)], active := s.active + 1,
                    inputs := s.inputs + [value], entered := s.entered + [value])
  {
    var mid := s.(callers := s.callers[c := StartLock(value)], active := s.active + 1, inputs := s.inputs + [value]);
    r := mid.(cells := s.cells[0 := Cell(true, value)], callers := s.callers, entered := s.entered + [value]);
    assert mid.callers[c := Idle] == s.callers;
    RunAlong(Next, [s, mid, r], [CallStart(c, value), StartSend(c, 0)]);
  }

  /** As written with two stages or more: a value goes in, and what comes out is not it. */
  lemma WrongResultRun(callers: nat, stages: nat, memory: nat -> int) returns (steps: seq<Action>)
    requires stages >= 2 && callers >= 1
    ensures var r := Run(Next, Initial(AsWritten, callers, stages, memory), steps); r.Some? && !ResultsOk(r.value)
  {
    var result := memory(stages - 1) + 1;
    var value := result - stages - 1;
    var s0, first := Initial(AsWritten, callers, stages, memory), [Enter(stages - 1), SendOn(stages - 1, 0)];
    var s1 := GarbageRun(callers, stages, memory);
    assert !s1.cells[0].ready;
    var s2 := ValueGoesIn(s1, 0, value);
    var s3 := CallResultRun(s2, 0);
    hide Next;
    var second, third := [CallStart(0, value), StartSend(0, 0)], [CallResult(0), TakeResult(0, 0)];
    RunConcat(Next, s1, second, third);
    RunConcat(Next, s0, first, second + third);
    steps := first + (second + third);
    assert s3.entered[0] == value && s3.delivered[0] == result;
  }

  lemma NoResultHolds(callers: nat, stages: nat, memory: nat -> int, steps: seq<Action>)
    requires stages >= 1 && (callers == 0 || (callers == 1 && stages == 1))
    ensures var r := Run(Next, Initial(AsWritten, callers, stages, memory), steps); r.Some? ==> r.value.delivered == []
  {
    var s, inv := Initial(AsWritten, callers, stages, memory), (t: State) => NoResult(memory, t);
    InitiallyStale(callers, stages, memory);
    assert inv(s);
    hide Next;
    forall t, a | inv(t) && Next(t, a).Some? ensures inv(Next(t, a).value) { NoResultStep(memory, t, a); }
    Invariance(Next, inv, s, steps);
  }

  /** The results alone are right in every run exactly when the pipeline is repaired, has no stages, or nobody
      can ever get one: without callers, and as written with one caller and one stage. */
  lemma ResultsOkIff(v: Variant, callers: nat, stages: nat, memory: nat -> int)
    ensures
      (forall steps ::
         var r := Run(Next, Initial(v, callers, stages, memory), steps); r.Some? ==> ResultsOk(r.value))
      <==> v.Repaired? || stages == 0 || callers == 0 || (callers == 1 && stages == 1)
  {
    if v.Repaired? || stages == 0 {
      FunctionalIff(v, callers, stages, memory);
    } else if callers == 0 || (callers == 1 && stages == 1) {
      forall steps
        ensures var r := Run(Next, Initial(v, callers, stages, memory), steps); r.Some? ==> ResultsOk(r.value)
      {
        NoResultHolds(callers, stages, memory, steps);
      }
    } else if callers >= 2 {
      var steps := EarlyResultRun(callers, stages, memory);
    } else {
      var steps := WrongResultRun(callers, stages, memory);
    }
  }

  // ---------------------------------------------------------------- what each thread can do

  /** A stage moves unless it sleeps, or wants a mutex that is held. */
  lemma StageCanStep(s: State, i: nat)
    requires |s.cells| == s.Stages() + 1 && i < s.Stages()
    ensures Next(s, Enter(i)).Some? <==> s.threads[i].Starting? || s.threads[i] == WaitData(true)
    ensures (exists pick :: Next(s, SendOn(i, pick)).Some?) <==>
      !MutexHeld(s, i + 1) && (s.threads[i].SendLock? || (s.threads[i].SendWait? && s.threads[i].awake))
    ensures (exists pick :: Next(s, ClearOwn(i, pick)).Some?) <==> s.threads[i].Sent?
    ensures Next(s, SpuriousStage(i)).Some? <==> s.threads[i].WaitData? || s.threads[i].SendWait?
  {
    var avail := PickFor(s.callers, AsleepResult);
    var ready := PickFor(s.callers, AsleepStart);
    hide Signal;
    assert Next(s, SendOn(i, avail)).Some? <==>
      !MutexHeld(s, i + 1) && (s.threads[i].SendLock? || (s.threads[i].SendWait? && s.threads[i].awake));
    assert Next(s, ClearOwn(i, ready)).Some? <==> s.threads[i].Sent?;
  }

  /** A caller that is in no call can make either; one in a call moves unless it sleeps, or wants the mutex
      of the first cell while it is held. */
  lemma CallerCanStep(s: State, c: nat, value: int)
    requires |s.cells| == s.Stages() + 1 && c < |s.callers|
    ensures Next(s, CallStart(c, value)).Some? <==> s.callers[c].Idle?
    ensures Next(s, CallResult(c)).Some? <==> s.callers[c].Idle?
    ensures (exists pick :: Next(s, StartSend(c, pick)).Some?) <==>
      !MutexHeld(s, 0) && WantsStart(s.callers[c]) && !AsleepStart(s.callers[c])
    ensures (exists pick :: Next(s, TakeResult(c, pick)).Some?) <==>
      WantsResult(s.callers[c]) && !AsleepResult(s.callers[c])
    ensures Next(s, SpuriousCaller(c)).Some? <==> s.callers[c].StartWait? || s.callers[c].ResultWait?
  {
    var avail := PickFor(s.callers[c := Idle], AsleepResult);
    var ready := PickFor(s.callers[c := Idle], AsleepStart);
    hide Signal;
    assert Next(s, StartSend(c, avail)).Some? <==>
      !MutexHeld(s, 0) && WantsStart(s.callers[c]) && !AsleepStart(s.callers[c]);
    assert Next(s, TakeResult(c, ready)).Some? <==> WantsResult(s.callers[c]) && !AsleepResult(s.callers[c]);
  }

  /** pipe_result reports empty exactly when everything in flight or about to be sent is promised to others. */
  lemma ReportsEmptyIff(s: State, c: nat)
    requires Inv(s) && c < |s.callers| && s.callers[c].Idle?
    ensures Next(s, CallResult(c)).Some?
    ensures var r := Next(s, CallResult(c)).value;
      if |Flight(Slots(s))| + Sum(s.callers, StartOne) > Sum(s.callers, ResultOne)
      then r.callers == s.callers[c := ResultLock] else r == s
  {
    hide Control, Given, Slots, Flight, Sum;
  }

  /** A wakeup for nothing changes nothing: a stage goes back to the wait that it was in. */
  lemma StageVainWakeup(s: State, i: nat)
    requires Control(s) && i < s.Stages()
    ensures s.threads[i] == WaitData(false) ==> Run(Next, s, [SpuriousStage(i), Enter(i)]) == Some(s)
    ensures s.threads[i].SendWait? && !s.threads[i].awake && !MutexHeld(s, i + 1) ==>
      Run(Next, s, [SpuriousStage(i), SendOn(i, 0)]) == Some(s)
  {
    assert ThreadOk(s.threads[i], s.cells[i], s.cells[i + 1]);
    if s.threads[i].WaitData? || s.threads[i].SendWait? {
      var awake := Next(s, SpuriousStage(i)).value;
      assert awake.threads[i := s.threads[i]] == s.threads;
      if s.threads[i] == WaitData(false) {
        RunAlong(Next, [s, awake, s], [SpuriousStage(i), Enter(i)]);
      } else if !s.threads[i].awake && !MutexHeld(s, i + 1) {
        RunAlong(Next, [s, awake, s], [SpuriousStage(i), SendOn(i, 0)]);
      }
    }
  }

  /** And so does a caller. */
  lemma CallerVainWakeup(s: State, c: nat)
    requires |s.cells| == s.Stages() + 1 && c < |s.callers|
    ensures AsleepStart(s.callers[c]) && s.cells[0].ready && !MutexHeld(s, 0) ==>
      Run(Next, s, [SpuriousCaller(c), StartSend(c, 0)]) == Some(s)
    ensures AsleepResult(s.callers[c]) && !s.cells[s.Stages()].ready ==>
      Run(Next, s, [SpuriousCaller(c), TakeResult(c, 0)]) == Some(s)
  {
    if AsleepStart(s.callers[c]) && s.cells[0].ready && !MutexHeld(s, 0) {
      var awake := Next(s, SpuriousCaller(c)).value;
      assert awake.callers[c := s.callers[c]] == s.callers;
      RunAlong(Next, [s, awake, s], [SpuriousCaller(c), StartSend(c, 0)]);
    }
    if AsleepResult(s.callers[c]) && !s.cells[s.Stages()].ready {
      var awake := Next(s, SpuriousCaller(c)).value;
      assert awake.callers[c := s.callers[c]] == s.callers;
      RunAlong(Next, [s, awake, s], [SpuriousCaller(c), TakeResult(c, 0)]);
    }
  }
}
