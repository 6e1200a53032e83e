/** The alarm scheduler of chap3-sync/alarm_cond.cc. */
module Alarm {
  import opened Machines
  import opened LinkedFifo

  /** An alarm: when it is due, and what its message identifies it by. */
  datatype Alarm = Alarm(time: int, id: int)

  /** `alarm_list` and `current_alarm`. */
  datatype Fields = Fields(list: seq<Alarm>, current: int)

  /** Before the first alarm that is not earlier. */
  function InsertSorted(list: seq<Alarm>, a: Alarm): (r: seq<Alarm>)
    ensures |r| == |list| + 1
  {
    if list == [] then [a]
    else if list[0].time >= a.time then [a] + list
    else [list[0]] + InsertSorted(list[1..], a)
  }

  /** alarm_insert, and whether it signals `alarm_cond`. */
  function Insert(f: Fields, a: Alarm): (Fields, bool)
  {
    var list := InsertSorted(f.list, a);
    if f.current == 0 || a.time < f.current then (Fields(list, list[0].time), true) else (f.(list := list), false)
  }

  /** What the alarm thread does with the list: wait for an insertion, hold the first alarm until
      it is due, or let it go off at once. */
  datatype Taken = Nothing | Hold(alarm: Alarm) | Fire(alarm: Alarm)

  function TakeFirst(f: Fields, now: nat): (Fields, Taken)
  {
    if f.list == [] then (f, Nothing)
    else if f.list[0].time > now then (Fields(f.list[1..], f.list[0].time), Hold(f.list[0]))
    else (f.(list := f.list[1..]), Fire(f.list[0]))
  }

  // ---------------------------------------------------------------- sorted insertion

  ghost predicate Sorted(list: seq<Alarm>)
  {
    forall i, j | 0 <= i < j < |list| :: list[i].time <= list[j].time
  }

  /** How many alarms the walk of alarm_insert passes. */
  function InsertionIndex(list: seq<Alarm>, time: int): (i: nat)
    ensures i <= |list|
    ensures forall j | 0 <= j < i :: list[j].time < time
    ensures i < |list| ==> list[i].time >= time
  {
    if list == [] || list[0].time >= time then 0 else InsertionIndex(list[1..], time) + 1
  }

  /** The insertion point: every earlier alarm is before it, every equal or later one after it. */
  ghost predicate InsertionPoint(list: seq<Alarm>, a: Alarm, i: nat)
  {
    && i <= |list|
    && (forall j | 0 <= j < i :: list[j].time < a.time)
    && (i < |list| ==> list[i].time >= a.time)
  }

  lemma {:induction false} InsertionIndexIs(list: seq<Alarm>, a: Alarm, i: nat)
    requires InsertionPoint(list, a, i)
    ensures i == InsertionIndex(list, a.time)
    decreases |list|
  {
    if i > 0 {
      forall j | 0 <= j < i - 1 ensures list[1..][j].time < a.time { assert list[1..][j] == list[j + 1]; }
      InsertionIndexIs(list[1..], a, i - 1);
    }
  }

  lemma ConsInsert(first: Alarm, rest: seq<Alarm>, a: Alarm, i: nat)
    requires i <= |rest|
    ensures var list := [first] + rest;
      list[..i + 1] + [a] + list[i + 1..] == [first] + (rest[..i] + [a] + rest[i..])
  {
  }

  lemma {:induction false} InsertSortedAt(list: seq<Alarm>, a: Alarm)
    ensures var i := InsertionIndex(list, a.time); InsertSorted(list, a) == list[..i] + [a] + list[i..]
    decreases |list|
  {
    if list != [] && list[0].time < a.time {
      InsertSortedAt(list[1..], a);
      ConsInsert(list[0], list[1..], a, InsertionIndex(list[1..], a.time));
      assert list == [list[0]] + list[1..];
    }
  }

  /** Insertion adds just the new alarm, and puts the earliest first. */
  lemma {:induction false} InsertSortedShape(list: seq<Alarm>, a: Alarm)
    ensures var r := InsertSorted(list, a);
      && |r| == |list| + 1
      && multiset(r) == multiset(list) + multiset{a}
      && r[0] == (if list == [] || list[0].time >= a.time then a else list[0])
    decreases |list|
  {
    if list != [] && list[0].time < a.time {
      var rest := InsertSorted(list[1..], a);
      InsertSortedShape(list[1..], a);
      assert list == [list[0]] + list[1..];
      assert multiset([list[0]] + rest) == multiset{list[0]} + multiset(rest);
    } else {
      assert multiset([a] + list) == multiset{a} + multiset(list);
    }
  }

  /** Insertion keeps the list sorted. */
  lemma {:induction false} InsertKeepsSorted(list: seq<Alarm>, a: Alarm)
    requires Sorted(list)
    ensures Sorted(InsertSorted(list, a))
    decreases |list|
  {
    if list != [] && list[0].time < a.time {
      InsertKeepsSorted(list[1..], a);
      var rest := InsertSorted(list[1..], a);
      forall i | 0 <= i < |rest| ensures list[0].time <= rest[i].time {
        InsertSortedShape(list[1..], a);
        assert rest[0].time <= rest[i].time;
      }
    }
  }

  /** The scheduler object: a linked list of alarms, and the deadline. */
  class Scheduler {
    var alarms: Node?<Alarm>
    var current: int
    ghost var chain: seq<Node<Alarm>>

    ghost predicate Valid()
      reads this, chain
    {
      IsList(alarms, chain)
    }

    ghost function View(): Fields
      reads this
    {
      Fields(Items(chain), current)
    }

    constructor ()
      ensures Valid() && chain == []
      ensures View() == Fields([], 0)
    {
      alarms := null;
      current := 0;
      chain := [];
    }

    /** The walk of alarm_insert: `before` is the node whose link `last` points to, null for
        the head of the list. */
    method FindLink(time: int) returns (before: Node?<Alarm>, next: Node?<Alarm>)
      requires Valid()
      ensures var i := InsertionIndex(Items(chain), time);
        next == Nth(chain, i) && before == if i == 0 then null else chain[i - 1]
    {
      before, next := null, alarms;
      ghost var i := 0;
      while next != null
        invariant i <= |chain|
        invariant before == if i == 0 then null else chain[i - 1]
        invariant next == Nth(chain, i)
        invariant forall j | 0 <= j < i :: chain[j].data.time < time
        decreases |chain| - i
      {
        if next.data.time >= time { break; }
        before := next;
        next := next.next;
        i := i + 1;
      }
      InsertionIndexIs(Items(chain), Alarm(time, 0), i);
    }

    /** Relinks in place: the link found now leads to `alarm`, and that to `next`. */
    method Link(alarm: Node<Alarm>, before: Node?<Alarm>, next: Node?<Alarm>, ghost i: nat)
      requires Valid() && alarm !in chain && i <= |chain|
      requires before == if i == 0 then null else chain[i - 1]
      requires next == Nth(chain, i)
      modifies this`alarms, this`chain, chain, alarm
      ensures Valid() && chain == old(chain)[..i] + [alarm] + old(chain)[i..]
    {
      if i > 0 { OnlyAt(chain, i - 1); }
      alarm.next := next;
      if before == null { alarms := alarm; } else { before.next := alarm; }
      LinkedIn(alarms, chain, i, alarm);
      chain := chain[..i] + [alarm] + chain[i..];
    }

    /** alarm_insert. */
    method InsertAlarm(alarm: Node<Alarm>) returns (signal: bool)
      requires Valid() && alarm !in chain
      modifies this, chain, alarm
      ensures Valid() && alarm in chain
      ensures (View(), signal) == Insert(old(View()), alarm.data)
      ensures Items(chain) == InsertSorted(old(Items(chain)), alarm.data)
      ensures signal <==> old(current) == 0 || alarm.data.time < old(current)
      ensures current == if signal then Items(chain)[0].time else old(current)
    {
      hide InsertSorted, InsertionIndex;
      var before, next := FindLink(alarm.data.time);
      ghost var i := InsertionIndex(Items(chain), alarm.data.time);
      InsertSortedAt(Items(chain), alarm.data);
      ItemsInsert(chain, alarm, i);
      InsertSortedShape(Items(chain), alarm.data);
      Link(alarm, before, next, i);
      assert alarm == chain[i];
      signal := false;
      if current == 0 || alarm.data.time < current {
        current := alarms.data.time;
        signal := true;
      }
    }

    /** alarm_thread: from the test of the list to the wait, or to the next turn of the loop. At
        the top of the loop the deadline is cleared first. */
    method TakeAlarm(top: bool, now: nat) returns (taken: Taken, ghost node: Node?<Alarm>)
      requires Valid()
      modifies this
      ensures Valid()
      ensures (View(), taken) == TakeFirst(if top then old(View()).(current := 0) else old(View()), now)
      ensures taken != Nothing ==> node != null && node == old(chain)[0] && node !in chain && node.data == taken.alarm
      ensures taken ==
        if old(Items(chain)) == [] then Nothing
        else if old(Items(chain))[0].time > now then Hold(old(Items(chain))[0])
        else Fire(old(Items(chain))[0])
      ensures Items(chain) == if taken == Nothing then [] else old(Items(chain))[1..]
      ensures current == if taken.Hold? then taken.alarm.time else if top then 0 else old(current)
    {
      if top { current := 0; }
      node := null;
      if alarms == null { return Nothing, null; }
      var alarm := alarms;
      node := alarm;
      ItemsRest(chain);
      ListRest(alarms, chain);
      alarms := alarm.next;
      chain := chain[1..];
      if alarm.data.time > now {
        current := alarm.data.time;
        taken := Hold(alarm.data);
      } else {
        taken := Fire(alarm.data);
      }
    }
  }

  lemma ItemsInsert(chain: seq<Node<Alarm>>, n: Node<Alarm>, i: nat)
    requires i <= |chain|
    ensures Items(chain[..i] + [n] + chain[i..]) == Items(chain)[..i] + [n.data] + Items(chain)[i..]
  {
  }

  // ---------------------------------------------------------------- the protocol

  /** The alarm thread has not started, holds the mutex at the top of its loop, waits for any alarm,
      or waits for the alarm it holds to be due. It is `awake` once its wait has returned. */
  datatype Pc = Starting | Top | Empty(awake: bool) | Holding(alarm: Alarm, awake: bool)

  /** What a user asked for: an alarm `seconds` from the moment `at`. */
  datatype Request = Request(id: int, seconds: int, at: nat)

  /** `requests` records what users asked for, `inserted` the alarms that were set for it, and `fired` those
      that went off and when. */
  datatype State = State(
    fields: Fields,
    pc: Pc,
    now: nat,
    requests: seq<Request>,
    inserted: seq<Alarm>,
    fired: seq<(Alarm, nat)>)

  datatype Action =
    | Tick
    | SetAlarm(id: int, seconds: int)
    | Proceed
    | TimeOut
    | Spurious

  const INITIAL := State(Fields([], 0), Starting, 0, [], [], [])

  function Signalled(pc: Pc): Pc
  {
    match pc
    case Empty(_) => Empty(true)
    case Holding(a, _) => Holding(a, true)
    case _ => pc
  }

  /** The alarm thread goes on with what it took from the list. */
  function AfterTake(s: State, fields: Fields): State
  {
    var (f, taken) := TakeFirst(fields, s.now);
    match taken
    case Nothing => s.(fields := f, pc := Empty(false))
    case Hold(a) => s.(fields := f, pc := Holding(a, false))
    case Fire(a) => s.(fields := f, pc := Top, fired := s.fired + [(a, s.now)])
  }

  function Next(s: State, a: Action): Option<State>
  {
    match a
    case Tick => Some(s.(now := s.now + 1))
    case SetAlarm(id, seconds) =>
      if s.pc.Top? then None else
      var alarm := Alarm(s.now + seconds, id);
      var (f, signal) := Insert(s.fields, alarm);
      Some(s.(fields := f, pc := if signal then Signalled(s.pc) else s.pc, inserted := s.inserted + [alarm],
              requests := s.requests + [Request(id, seconds, s.now)]))
    case Proceed =>
      (match s.pc
       case Starting => Some(s.(pc := Top))
       case Top => Some(AfterTake(s, s.fields.(current := 0)))
       case Empty(awake) => if awake then Some(AfterTake(s, s.fields)) else None
       case Holding(alarm, awake) =>
         if !awake then None
         else if s.fields.current == alarm.time then Some(s.(pc := Holding(alarm, false)))
         else Some(s.(fields := Insert(s.fields, alarm).0, pc := Top)))
    case TimeOut =>
      if s.pc.Holding? && s.now >= s.pc.alarm.time then
        Some(s.(pc := Top, fired := s.fired + [(s.pc.alarm, s.now)]))
      else
        None
    case Spurious =>
      if s.pc.Empty? || s.pc.Holding? then Some(s.(pc := Signalled(s.pc))) else None
  }

  function Held(pc: Pc): multiset<Alarm> { if pc.Holding? then multiset{pc.alarm} else multiset{} }

  function FiredAlarms(fired: seq<(Alarm, nat)>): multiset<Alarm>
  {
    if fired == [] then multiset{} else FiredAlarms(fired[..|fired| - 1]) + multiset{fired[|fired| - 1].0}
  }

  /** Set alarms are pending or have gone off: none is lost, none goes off twice. */
  ghost predicate Balanced(inserted: seq<Alarm>, fired: seq<(Alarm, nat)>, list: seq<Alarm>, held: multiset<Alarm>)
  {
    multiset(inserted) == FiredAlarms(fired) + multiset(list) + held
  }

  ghost predicate Conserved(s: State)
  {
    Balanced(s.inserted, s.fired, s.fields.list, Held(s.pc))
  }

  ghost predicate OnTime(s: State)
  {
    forall i | 0 <= i < |s.fired| :: s.fired[i].0.time <= s.fired[i].1 <= s.now
  }

  /** The deadline is the earliest of the held alarm and the list, and the thread has been signalled
      when that is not the alarm it holds. */
  ghost predicate DeadlineOk(s: State)
  {
    var list := s.fields.list;
    match s.pc
    case Empty(awake) => (list == [] ==> s.fields.current == 0) && (!awake ==> list == [])
    case Holding(a, awake) =>
      && a.time > 0
      && s.fields.current == (if list != [] && list[0].time < a.time then list[0].time else a.time)
      && (!awake ==> s.fields.current == a.time)
    case _ => true
  }

  ghost predicate Control(s: State)
  {
    Sorted(s.fields.list) && DeadlineOk(s) && OnTime(s)
  }

  ghost predicate Inv(s: State)
  {
    Control(s) && Conserved(s)
  }

  lemma InsertBalances(
    inserted: seq<Alarm>, fired: seq<(Alarm, nat)>, list: seq<Alarm>, held: multiset<Alarm>, a: Alarm)
    requires Balanced(inserted, fired, list, held)
    ensures Balanced(inserted + [a], fired, InsertSorted(list, a), held)
  {
    InsertSortedShape(list, a);
    var f := FiredAlarms(fired);
    assert f + (multiset(list) + multiset{a}) + held == f + multiset(list) + held + multiset{a};
  }

  lemma HoldBalances(inserted: seq<Alarm>, fired: seq<(Alarm, nat)>, list: seq<Alarm>)
    requires Balanced(inserted, fired, list, multiset{}) && list != []
    ensures Balanced(inserted, fired, list[1..], multiset{list[0]})
  {
    assert list == [list[0]] + list[1..];
  }

  lemma ReinsertBalances(inserted: seq<Alarm>, fired: seq<(Alarm, nat)>, list: seq<Alarm>, a: Alarm)
    requires Balanced(inserted, fired, list, multiset{a})
    ensures Balanced(inserted, fired, InsertSorted(list, a), multiset{})
  {
    InsertSortedShape(list, a);
  }

  lemma FireBalances(inserted: seq<Alarm>, fired: seq<(Alarm, nat)>, list: seq<Alarm>, a: Alarm, now: nat)
    requires Balanced(inserted, fired, list, multiset{a})
    ensures Balanced(inserted, fired + [(a, now)], list, multiset{})
  {
    assert (fired + [(a, now)])[..|fired|] == fired;
  }

  lemma TakeConserves(s: State, fields: Fields)
    requires Conserved(s) && Held(s.pc) == multiset{} && fields.list == s.fields.list
    ensures Conserved(AfterTake(s, fields))
  {
    hide Balanced, FiredAlarms;
    var list := s.fields.list;
    if list != [] {
      HoldBalances(s.inserted, s.fired, list);
      FireBalances(s.inserted, s.fired, list[1..], list[0], s.now);
    }
  }

  lemma SetConserves(s: State, id: int, seconds: int)
    requires Conserved(s) && Next(s, SetAlarm(id, seconds)).Some?
    ensures Conserved(Next(s, SetAlarm(id, seconds)).value)
  {
    hide Balanced, InsertSorted;
    InsertBalances(s.inserted, s.fired, s.fields.list, Held(s.pc), Alarm(s.now + seconds, id));
  }

  lemma ReinsertConserves(s: State)
    requires Conserved(s) && s.pc.Holding? && Next(s, Proceed).Some?
    ensures Conserved(Next(s, Proceed).value)
  {
    hide Balanced, InsertSorted;
    ReinsertBalances(s.inserted, s.fired, s.fields.list, s.pc.alarm);
  }

  lemma StepConserves(s: State, a: Action)
    requires Conserved(s) && Next(s, a).Some?
    ensures Conserved(Next(s, a).value)
  {
    hide Balanced, Insert;
    match a
    case SetAlarm(id, seconds) => SetConserves(s, id, seconds);
    case Proceed =>
      match s.pc {
        case Starting =>
        case Top => TakeConserves(s, s.fields.(current := 0));
        case Empty(_) => TakeConserves(s, s.fields);
        case Holding(_, _) => ReinsertConserves(s);
      }
    case TimeOut => FireBalances(s.inserted, s.fired, s.fields.list, s.pc.alarm, s.now);
    case _ =>
  }

  lemma SetKeepsControl(s: State, id: int, seconds: int)
    requires Control(s) && Next(s, SetAlarm(id, seconds)).Some?
    ensures Control(Next(s, SetAlarm(id, seconds)).value)
  {
    hide InsertSorted, Sorted;
    InsertSortedShape(s.fields.list, Alarm(s.now + seconds, id));
    InsertKeepsSorted(s.fields.list, Alarm(s.now + seconds, id));
  }

  lemma ReinsertKeepsControl(s: State)
    requires Control(s) && s.pc.Holding? && Next(s, Proceed).Some?
    ensures Control(Next(s, Proceed).value)
  {
    hide InsertSorted, Sorted;
    InsertKeepsSorted(s.fields.list, s.pc.alarm);
  }

  lemma TakeKeepsControl(s: State, fields: Fields)
    requires Control(s) && fields.list == s.fields.list && (fields.list == [] ==> fields.current == 0)
    ensures Control(AfterTake(s, fields))
  {
  }

  lemma StepKeepsControl(s: State, a: Action)
    requires Control(s) && Next(s, a).Some?
    ensures Control(Next(s, a).value)
  {
    match a
    case SetAlarm(id, seconds) => SetKeepsControl(s, id, seconds);
    case Proceed =>
      match s.pc {
        case Starting =>
        case Top => TakeKeepsControl(s, s.fields.(current := 0));
        case Empty(_) => TakeKeepsControl(s, s.fields);
        case Holding(_, _) => ReinsertKeepsControl(s);
      }
    case _ =>
  }

  lemma InvStep(s: State, a: Action)
    requires Inv(s) && Next(s, a).Some?
    ensures Inv(Next(s, a).value)
  {
    StepConserves(s, a);
    StepKeepsControl(s, a);
  }

  lemma InvHolds(steps: seq<Action>)
    ensures var r := Run(Next, INITIAL, steps); r.Some? ==> Inv(r.value)
  {
    forall t, a | Inv(t) && Next(t, a).Some? ensures Inv(Next(t, a).value) { InvStep(t, a); }
    Invariance(Next, Inv, INITIAL, steps);
  }

  // ---------------------------------------------------------------- the results

  predicate IsPending(s: State, a: Alarm)
  {
    a in s.fields.list || (s.pc.Holding? && a == s.pc.alarm)
  }

  predicate Blocked(s: State)
  {
    (s.pc.Empty? || s.pc.Holding?) && !s.pc.awake
  }

  /** The alarm thread never oversleeps: in every run, when it is blocked and no signal is on its way,
      it holds an alarm no later than any other that is pending, or none is pending. */
  lemma NeverOversleeps(steps: seq<Action>, a: Alarm)
    requires Run(Next, INITIAL, steps).Some?
    ensures var s := Run(Next, INITIAL, steps).value;
      Blocked(s) && IsPending(s, a) ==> s.pc.Holding? && s.pc.alarm.time <= a.time
  {
    InvHolds(steps);
    var s := Run(Next, INITIAL, steps).value;
    if Blocked(s) && a in s.fields.list { FirstIsEarliest(s.fields.list, a); }
  }

  /** So once a pending alarm is due, the thread can move without another signal. */
  lemma DueMeansEnabled(steps: seq<Action>, a: Alarm)
    requires Run(Next, INITIAL, steps).Some?
    ensures var s := Run(Next, INITIAL, steps).value;
      IsPending(s, a) && a.time <= s.now ==> Next(s, Proceed).Some? || Next(s, TimeOut).Some?
  {
    NeverOversleeps(steps, a);
  }

  /** An alarm that goes off is no later than any that is still pending, except exactly when the held
      alarm's time limit is reached while the deadline is that of another. */
  lemma EarliestGoesFirstIff(s: State, a: Action)
    requires Inv(s) && Next(s, a).Some? && |Next(s, a).value.fired| > |s.fired|
    ensures var r := Next(s, a).value;
      (forall b | IsPending(r, b) :: r.fired[|s.fired|].0.time <= b.time)
        <==> (a.TimeOut? ==> s.fields.current == s.pc.alarm.time)
  {
    var r, list := Next(s, a).value, s.fields.list;
    forall b | b in list ensures list[0].time <= b.time { FirstIsEarliest(list, b); }
    if a.TimeOut? {
      if s.fields.current != s.pc.alarm.time { assert IsPending(r, list[0]); }
    } else {
      forall b | IsPending(r, b) ensures b in list { assert b in list[1..]; }
    }
  }

  /** It does happen: an alarm for time 2 is held, one for time 1 is set, and the thread does not run
      again until both are due. */
  lemma LaterGoesFirstRun() returns (steps: seq<Action>)
    ensures Run(Next, INITIAL, steps) == Some(State(
      Fields([Alarm(1, 2)], 1), Top, 2, [Request(1, 2, 0), Request(2, 1, 0)],
      [Alarm(2, 1), Alarm(1, 2)], [(Alarm(2, 1), 2)]))
  {
    var a, b := Alarm(2, 1), Alarm(1, 2);
    var p, q := Request(1, 2, 0), Request(2, 1, 0);
    var s1 := State(Fields([a], 2), Starting, 0, [p], [a], []);
    var s2 := s1.(pc := Top);
    var s3 := s2.(fields := Fields([], 2), pc := Holding(a, false));
    var s4 := s3.(fields := Fields([b], 1), pc := Holding(a, true), requests := [p, q], inserted := [a, b]);
    var s5 := s4.(now := 1);
    var s6 := s5.(now := 2);
    var s7 := s6.(pc := Top, fired := [(a, 2)]);
    steps := [SetAlarm(1, 2), Proceed, Proceed, SetAlarm(2, 1), Tick, Tick, TimeOut];
    assert INITIAL.inserted + [a] == s1.inserted && s3.inserted + [b] == s4.inserted && [a][1..] == [];
    assert INITIAL.requests + [p] == s1.requests && s3.requests + [q] == s4.requests;
    assert s6.fired + [(a, 2)] == s7.fired;
    RunAlong(Next, [INITIAL, s1, s2, s3, s4, s5, s6, s7], steps);
  }

  function Effort(s: State): nat
  {
    3 * |s.fields.list| + (match s.pc case Starting => 1 case Holding(_, _) => 5 case _ => 0)
  }

  /** A step that lets `a` go off, or brings it nearer to that. */
  ghost predicate Nearer(s: State, r: State, a: Alarm)
  {
    && r.now == s.now && s.fired <= r.fired
    && ((a, s.now) in r.fired[|s.fired|..] || (IsPending(r, a) && Effort(r) < Effort(s)))
  }

  lemma FiredLast(fired: seq<(Alarm, nat)>, a: Alarm, now: nat)
    ensures fired <= fired + [(a, now)] && (fired + [(a, now)])[|fired|..] == [(a, now)]
  {
  }

  /** The held alarm is due: it goes off, be it `a` or not. */
  lemma HeldGoesOff(s: State, a: Alarm)
    requires s.pc.Holding? && s.pc.alarm.time <= s.now && IsPending(s, a)
    ensures Next(s, TimeOut).Some? && Nearer(s, Next(s, TimeOut).value, a)
  {
    FiredLast(s.fired, s.pc.alarm, s.now);
  }

  /** The held alarm is not due, so it is not the earliest: it is put back. */
  lemma HeldGoesBack(s: State, a: Alarm)
    requires Inv(s) && s.pc.Holding? && s.pc.alarm.time > s.now && IsPending(s, a) && a.time <= s.now
    ensures Next(s, Proceed).Some? && Nearer(s, Next(s, Proceed).value, a)
  {
    hide InsertSorted, Balanced;
    var list := s.fields.list;
    FirstIsEarliest(list, a);
    InsertSortedShape(list, s.pc.alarm);
    assert a in multiset(InsertSorted(list, s.pc.alarm));
  }

  lemma FirstIsEarliest(list: seq<Alarm>, a: Alarm)
    requires Sorted(list) && a in list
    ensures list[0].time <= a.time
  {
    var i :| 0 <= i < |list| && list[i] == a;
    assert list[0].time <= list[i].time;
  }

  /** Nothing is held: the first alarm of the list is due, and goes off, be it `a` or not. */
  lemma FirstGoesOff(s: State, a: Alarm)
    requires Inv(s) && !s.pc.Holding? && IsPending(s, a) && a.time <= s.now
    ensures Next(s, Proceed).Some? && Nearer(s, Next(s, Proceed).value, a)
  {
    hide Balanced;
    var list := s.fields.list;
    FirstIsEarliest(list, a);
    assert list == [list[0]] + list[1..];
    FiredLast(s.fired, list[0], s.now);
  }

  lemma DueComesNearer(s: State, a: Alarm) returns (step: Action)
    requires Inv(s) && IsPending(s, a) && a.time <= s.now
    ensures (step.Proceed? || step.TimeOut?) && Next(s, step).Some? && Nearer(s, Next(s, step).value, a)
  {
    hide Inv, Nearer;
    if !s.pc.Holding? {
      step := Proceed;
      FirstGoesOff(s, a);
    } else if s.pc.alarm.time <= s.now {
      step := TimeOut;
      HeldGoesOff(s, a);
    } else {
      step := Proceed;
      HeldGoesBack(s, a);
    }
  }

  /** Once a pending alarm is due the thread can make it go off, before time moves on, by its own steps:
      no alarm is set, and no signal or spurious wakeup comes to its help. */
  lemma {:induction false} DueAlarmGoesOff(s: State, a: Alarm) returns (steps: seq<Action>)
    requires Inv(s) && IsPending(s, a) && a.time <= s.now
    ensures forall step | step in steps :: step.Proceed? || step.TimeOut?
    ensures var r := Run(Next, s, steps);
      r.Some? && s.fired <= r.value.fired && (a, s.now) in r.value.fired[|s.fired|..]
    decreases Effort(s)
  {
    hide Inv, IsPending, Effort, Next;
    var step := DueComesNearer(s, a);
    var r := Next(s, step).value;
    InvStep(s, step);
    steps := [step];
    assert Run(Next, r, steps[1..]) == Some(r);
    if (a, s.now) !in r.fired[|s.fired|..] {
      var more := DueAlarmGoesOff(r, a);
      steps := [step] + more;
      assert steps[1..] == more;
      var end := Run(Next, r, more).value;
      assert end.fired[|s.fired|..] == end.fired[|s.fired|..|r.fired|] + end.fired[|r.fired|..];
    }
  }

  /** In every run: alarms set = alarms gone off + list + held, the list is sorted, and no alarm has
      gone off before its time. */
  lemma AlarmsAreConserved(steps: seq<Action>, i: nat)
    requires Run(Next, INITIAL, steps).Some?
    ensures var s := Run(Next, INITIAL, steps).value;
      && multiset(s.inserted) == FiredAlarms(s.fired) + multiset(s.fields.list) + Held(s.pc)
      && Sorted(s.fields.list)
      && (i < |s.fired| ==> s.fired[i].0.time <= s.fired[i].1)
  {
    InvHolds(steps);
  }

  /** Each alarm is set for `seconds` after the moment of its request. */
  ghost predicate Requested(s: State)
  {
    && |s.requests| == |s.inserted|
    && forall k | 0 <= k < |s.requests| ::
         s.requests[k].at <= s.now &&
         s.inserted[k] == Alarm(s.requests[k].at + s.requests[k].seconds, s.requests[k].id)
  }

  lemma RequestedHolds(steps: seq<Action>)
    ensures var r := Run(Next, INITIAL, steps); r.Some? ==> Requested(r.value)
  {
    hide InsertSorted;
    Invariance(Next, Requested, INITIAL, steps);
  }

  lemma {:induction false} FiredIsIn(fired: seq<(Alarm, nat)>, i: nat)
    requires i < |fired|
    ensures fired[i].0 in FiredAlarms(fired)
    decreases |fired|
  {
    var n := |fired| - 1;
    if i < n {
      FiredIsIn(fired[..n], i);
      assert fired[..n][i] == fired[i];
    }
  }

  /** In every run each alarm that has gone off was asked for, and has gone off no earlier than `seconds`
      after that. */
  lemma NoneGoesOffEarly(steps: seq<Action>, i: nat)
    requires Run(Next, INITIAL, steps).Some?
    ensures var s := Run(Next, INITIAL, steps).value;
      i < |s.fired| ==>
        exists k ::
          && 0 <= k < |s.requests| && s.requests[k].id == s.fired[i].0.id
          && s.requests[k].at + s.requests[k].seconds <= s.fired[i].1
  {
    InvHolds(steps);
    RequestedHolds(steps);
    var s := Run(Next, INITIAL, steps).value;
    if i < |s.fired| {
      FiredIsIn(s.fired, i);
      assert s.fired[i].0 in multiset(s.inserted);
      var k :| 0 <= k < |s.inserted| && s.inserted[k] == s.fired[i].0;
      assert s.requests[k].at + s.requests[k].seconds <= s.fired[i].1;
    }
  }

  /** Time passes, and nothing else happens. */
  lemma {:induction false} TicksRun(s: State, n: nat) returns (steps: seq<Action>)
    requires Inv(s)
    ensures forall step | step in steps :: step.Tick?
    ensures Run(Next, s, steps) == Some(s.(now := s.now + n)) && Inv(s.(now := s.now + n))
    decreases n
  {
    steps := [];
    if n > 0 {
      InvStep(s, Tick);
      var more := TicksRun(s.(now := s.now + 1), n - 1);
      steps := [Tick] + more;
      assert steps[1..] == more;
    }
  }

  lemma SetIsPending(s: State, id: int, seconds: int)
    requires !s.pc.Top?
    ensures Next(s, SetAlarm(id, seconds)).Some?
    ensures var r := Next(s, SetAlarm(id, seconds)).value;
      r.now == s.now && r.fired == s.fired && IsPending(r, Alarm(s.now + seconds, id))
  {
    var alarm := Alarm(s.now + seconds, id);
    InsertSortedShape(s.fields.list, alarm);
    assert alarm in multiset(InsertSorted(s.fields.list, alarm));
  }

  /** A pending alarm goes off after `wait` ticks, when it is due then. */
  lemma PendingGoesOff(s: State, a: Alarm, wait: nat) returns (steps: seq<Action>)
    requires Inv(s) && IsPending(s, a) && a.time <= s.now + wait
    ensures forall step | step in steps :: step.Tick? || step.Proceed? || step.TimeOut?
    ensures var r := Run(Next, s, steps);
      r.Some? && s.fired <= r.value.fired && (a, s.now + wait) in r.value.fired[|s.fired|..]
  {
    var ticks := TicksRun(s, wait);
    hide Inv, Next, IsPending;
    assert IsPending(s.(now := s.now + wait), a) by { StillPending(s, a, wait); }
    var own := DueAlarmGoesOff(s.(now := s.now + wait), a);
    RunConcat(Next, s, ticks, own);
    steps := ticks + own;
  }

  lemma StillPending(s: State, a: Alarm, wait: nat)
    requires IsPending(s, a)
    ensures IsPending(s.(now := s.now + wait), a)
  {
  }

  /** From every state that a run reaches: an alarm that is set goes off just `seconds` later, by the
      thread's own steps, if they are taken then. */
  lemma SetGoesOffOnTime(s: State, id: int, seconds: nat) returns (steps: seq<Action>)
    requires Inv(s) && !s.pc.Top?
    ensures forall step | step in steps :: step.Tick? || step.Proceed? || step.TimeOut?
    ensures var r := Run(Next, s, [SetAlarm(id, seconds)] + steps);
      && r.Some? && s.fired <= r.value.fired
      && (Alarm(s.now + seconds, id), s.now + seconds) in r.value.fired[|s.fired|..]
  {
    hide Inv, Next, IsPending, Run;
    var ask := SetAlarm(id, seconds);
    SetIsPending(s, id, seconds);
    InvStep(s, ask);
    var r := Next(s, ask).value;
    steps := PendingGoesOff(r, Alarm(s.now + seconds, id), seconds);
    RunCons(Next, s, ask, r, steps);
  }

  /** Users can set alarms whenever the thread does not hold the mutex; the thread goes on unless it is
      blocked, and a held alarm can reach its time limit when it is due. */
  lemma WhoCanStep(s: State, id: int, seconds: int)
    ensures Next(s, SetAlarm(id, seconds)).Some? <==> !s.pc.Top?
    ensures Next(s, Proceed).Some? <==> !Blocked(s)
    ensures Next(s, TimeOut).Some? <==> s.pc.Holding? && s.now >= s.pc.alarm.time
    ensures Next(s, Spurious).Some? <==> s.pc.Empty? || s.pc.Holding?
  {
  }

  /** Setting an alarm wakes the blocked thread up exactly when it holds none, or a later one. */
  lemma SetWakesIff(s: State, id: int, seconds: int)
    requires Inv(s) && Blocked(s)
    ensures Next(s, SetAlarm(id, seconds)).Some?
    ensures Blocked(Next(s, SetAlarm(id, seconds)).value) <==>
      s.pc.Holding? && s.pc.alarm.time <= s.now + seconds
  {
  }

  /** The thread keeps the mutex, so that nobody sets an alarm meanwhile, from letting an alarm go off or
      putting one back to the next wait. */
  lemma KeepsMutex(s: State, a: Action)
    requires Inv(s) && Next(s, a).Some? && (a.Proceed? || a.TimeOut?)
    ensures var r := Next(s, a).value;
      |r.fired| > |s.fired| || (s.pc.Holding? && !r.pc.Holding?) ==> r.pc.Top?
  {
  }

  /** A wakeup for nothing changes nothing: the thread goes back to wait for the same. */
  lemma VainWakeup(s: State)
    requires Inv(s) && Blocked(s)
    ensures Run(Next, s, [Spurious, Proceed]) == Some(s)
  {
    var awake := Next(s, Spurious).value;
    RunAlong(Next, [s, awake, s], [Spurious, Proceed]);
  }

  /** Putting a held alarm back into the list, for an earlier one to be held, leaves the deadline
      as it is: at that earlier alarm. */
  lemma ReinsertionKeepsDeadline(s: State)
    requires Inv(s) && s.pc.Holding? && s.fields.current != s.pc.alarm.time
    ensures var f := Insert(s.fields, s.pc.alarm).0;
      f.current == s.fields.current && f.list[0] == s.fields.list[0] && f.list[0].time == f.current
  {
    InsertSortedShape(s.fields.list, s.pc.alarm);
  }
}
