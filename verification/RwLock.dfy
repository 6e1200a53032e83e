/** The read/write lock of chap7-RealCode/rwlock/rwlock.cxx. */
module RwLock {
  import opened Machines
  import opened Threads

  /** As written, rwl_writelock does not set `w_active`, and rwl_readlock does not take its caller
      out of `r_wait`; repaired, both do. */
  datatype Variant = AsWritten | Repaired

  /** The counters of rwlock_t. */
  datatype Fields = Fields(rActive: int, wActive: int, rWait: int, wWait: int)

  datatype Outcome = Granted | Blocked | Busy

  /** Whom an unlock wakes up. */
  datatype Wakeup = Nobody | AllReaders | OneWriter

  function ReadLock(l: Fields): (Fields, Outcome)
  {
    if l.wActive != 0 then (l.(rWait := l.rWait + 1), Blocked) else (l.(rActive := l.rActive + 1), Granted)
  }

  /** The wait of a reader has returned. */
  function ReadRecheck(v: Variant, l: Fields): (Fields, Outcome)
  {
    if l.wActive != 0 then (l, Blocked)
    else (l.(rActive := l.rActive + 1, rWait := if v.Repaired? then l.rWait - 1 else l.rWait), Granted)
  }

  function ReadTryLock(l: Fields): (Fields, Outcome)
  {
    if l.wActive != 0 then (l, Busy) else (l.(rActive := l.rActive + 1), Granted)
  }

  function ReadUnlock(l: Fields): (Fields, Wakeup)
  {
    var m := l.(rActive := l.rActive - 1);
    (m, if m.rActive == 0 && m.wWait > 0 then OneWriter else Nobody)
  }

  function WriteLock(v: Variant, l: Fields): (Fields, Outcome)
  {
    if l.wActive > 0 || l.rActive > 0 then (l.(wWait := l.wWait + 1), Blocked)
    else (if v.Repaired? then l.(wActive := 1) else l, Granted)
  }

  /** The wait of a writer has returned. */
  function WriteRecheck(v: Variant, l: Fields): (Fields, Outcome)
  {
    if l.wActive > 0 || l.rActive > 0 then (l, Blocked)
    else (l.(wWait := l.wWait - 1, wActive := if v.Repaired? then 1 else l.wActive), Granted)
  }

  function WriteTryLock(l: Fields): (Fields, Outcome)
  {
    if l.wActive > 0 || l.rActive > 0 then (l, Busy) else (l.(wActive := l.wActive + 1), Granted)
  }

  function WriteUnlock(l: Fields): (Fields, Wakeup)
  {
    var m := l.(wActive := 0);
    (m, if m.rWait > 0 then AllReaders else if m.wWait > 0 then OneWriter else Nobody)
  }

  /** The cleanup handlers, run when a wait is cancelled. */
  function ReadCleanup(l: Fields): Fields { l.(rWait := l.rWait - 1) }

  function WriteCleanup(l: Fields): Fields { l.(wWait := l.wWait - 1) }

  /** Who is inside the lock and who waits for it, as its clients know it. Of the writers, `counted` are
      those that `w_active` accounts for; and `r_wait` also counts `stale` readers that wait no more. */
  datatype Clients = Clients(
    readers: set<nat>,
    writers: set<nat>,
    readWaiters: set<nat>,
    writeWaiters: set<nat>,
    counted: set<nat>,
    stale: nat)
  {
    function All(): set<nat> { readers + writers + readWaiters + writeWaiters }
    function WithReader(me: nat): Clients { this.(readers := readers + {me}) }
    function WithWriter(me: nat, counts: bool): Clients
    {
      this.(writers := writers + {me}, counted := if counts then counted + {me} else counted)
    }
    function WithReadWaiter(me: nat): Clients { this.(readWaiters := readWaiters + {me}) }
    function WithWriteWaiter(me: nat): Clients { this.(writeWaiters := writeWaiters + {me}) }
    function WithoutReadWaiter(me: nat, forgets: bool): Clients
    {
      this.(readWaiters := readWaiters - {me}, stale := if forgets then stale + 1 else stale)
    }
    function WithoutWriteWaiter(me: nat): Clients { this.(writeWaiters := writeWaiters - {me}) }
  }

  /** What the counters say about the clients: repaired, all there is to know. */
  ghost predicate Counted(v: Variant, l: Fields, c: Clients)
  {
    && c.readers !! c.writers !! c.readWaiters !! c.writeWaiters
    && c.counted <= c.writers
    && l.rActive == |c.readers| && l.wActive == |c.counted| <= 1
    && l.rWait == |c.readWaiters| + c.stale && l.wWait == |c.writeWaiters|
    && (c.counted != {} ==> c.readers == {})
    && (v.Repaired? ==> c.counted == c.writers && c.stale == 0)
  }

  lemma CountsMean(v: Variant, l: Fields, c: Clients)
    requires Counted(v, l, c)
    ensures l.rActive >= 0 && (l.rActive == 0 <==> c.readers == {})
    ensures 0 <= l.wActive <= 1 && (l.wActive == 0 <==> c.counted == {})
    ensures l.wWait >= 0 && (l.wWait == 0 <==> c.writeWaiters == {})
    ensures l.rWait >= 0 && (l.rWait == 0 <==> c.readWaiters == {} && c.stale == 0)
    ensures v.Repaired? ==> c.counted == c.writers && c.stale == 0
  {
  }

  lemma ReaderEnters(v: Variant, l: Fields, c: Clients, me: nat)
    requires Counted(v, l, c) && me !in c.All() && l.wActive == 0
    ensures Counted(v, l.(rActive := l.rActive + 1), c.WithReader(me))
  {
  }

  lemma ReaderQueues(v: Variant, l: Fields, c: Clients, me: nat)
    requires Counted(v, l, c) && me !in c.All()
    ensures Counted(v, l.(rWait := l.rWait + 1), c.WithReadWaiter(me))
  {
  }

  lemma WriterQueues(v: Variant, l: Fields, c: Clients, me: nat)
    requires Counted(v, l, c) && me !in c.All()
    ensures Counted(v, l.(wWait := l.wWait + 1), c.WithWriteWaiter(me))
  {
  }

  lemma WriterEnters(v: Variant, l: Fields, c: Clients, me: nat, counts: bool)
    requires Counted(v, l, c) && me !in c.All() && l.wActive == 0 && l.rActive == 0 && (v.Repaired? ==> counts)
    ensures Counted(v, l.(wActive := if counts then 1 else 0), c.WithWriter(me, counts))
  {
  }

  /** A waiter stops waiting; as written, a reader may go on being counted. */
  lemma ReadWaiterGoes(v: Variant, l: Fields, c: Clients, me: nat, forgets: bool)
    requires Counted(v, l, c) && me in c.readWaiters && (forgets ==> v.AsWritten?)
    ensures Counted(v, l.(rWait := if forgets then l.rWait else l.rWait - 1), c.WithoutReadWaiter(me, forgets))
    ensures me !in c.WithoutReadWaiter(me, forgets).All()
  {
    assert |c.readWaiters - {me}| == |c.readWaiters| - 1;
  }

  lemma WriteWaiterGoes(v: Variant, l: Fields, c: Clients, me: nat)
    requires Counted(v, l, c) && me in c.writeWaiters
    ensures Counted(v, l.(wWait := l.wWait - 1), c.WithoutWriteWaiter(me))
    ensures me !in c.WithoutWriteWaiter(me).All()
  {
    assert |c.writeWaiters - {me}| == |c.writeWaiters| - 1;
  }

  lemma ReadWaiterEnters(v: Variant, l: Fields, c: Clients, me: nat, forgets: bool)
    requires Counted(v, l, c) && me in c.readWaiters && l.wActive == 0 && (forgets ==> v.AsWritten?)
    ensures Counted(v, l.(rActive := l.rActive + 1, rWait := if forgets then l.rWait else l.rWait - 1),
                    c.WithoutReadWaiter(me, forgets).WithReader(me))
  {
    hide Counted, Clients.All;
    ReadWaiterGoes(v, l, c, me, forgets);
    ReaderEnters(v, l.(rWait := if forgets then l.rWait else l.rWait - 1), c.WithoutReadWaiter(me, forgets), me);
  }

  lemma WriteWaiterEnters(v: Variant, l: Fields, c: Clients, me: nat, counts: bool)
    requires Counted(v, l, c) && me in c.writeWaiters && l.wActive == 0 && l.rActive == 0 && (v.Repaired? ==> counts)
    ensures Counted(v, l.(wActive := if counts then 1 else 0, wWait := l.wWait - 1),
                    c.WithoutWriteWaiter(me).WithWriter(me, counts))
  {
    hide Counted, Clients.All;
    WriteWaiterGoes(v, l, c, me);
    WriterEnters(v, l.(wWait := l.wWait - 1), c.WithoutWriteWaiter(me), me, counts);
  }

  lemma ReaderLeaves(v: Variant, l: Fields, c: Clients, me: nat)
    requires Counted(v, l, c) && me in c.readers
    ensures Counted(v, l.(rActive := l.rActive - 1), c.(readers := c.readers - {me}))
  {
    assert |c.readers - {me}| == |c.readers| - 1;
  }

  /** Repaired, the writer that leaves is the only client inside; as written, another may be the one that
      was counted. */
  lemma WriterLeaves(v: Variant, l: Fields, c: Clients, me: nat)
    requires Counted(v, l, c) && me in c.writers
    ensures Counted(v, l.(wActive := 0), c.(writers := c.writers - {me}, counted := {}))
    ensures v.Repaired? ==> c.writers == {me} && c.readers == {}
  {
    assert |c.writers - {me}| == |c.writers| - 1;
    assert c.writers - {me} == {} ==> c.writers == {me};
  }

  /** The lock object, with each function cut at the points where it releases the mutex. `clients`
      is what the counters stand for. */
  class RwLockObject {
    const variant: Variant
    var rActive: int
    var wActive: int
    var rWait: int
    var wWait: int
    ghost var clients: Clients

    function View(): Fields
      reads this
    {
      Fields(rActive, wActive, rWait, wWait)
    }

    ghost predicate Valid()
      reads this
    {
      Counted(variant, View(), clients)
    }

    constructor (variant: Variant)
      ensures Valid() && View() == Fields(0, 0, 0, 0) && this.variant == variant
      ensures clients == Clients({}, {}, {}, {}, {}, 0)
    {
      this.variant := variant;
      rActive, wActive, rWait, wWait := 0, 0, 0, 0;
      clients := Clients({}, {}, {}, {}, {}, 0);
    }

    /** rwl_destroy's test: a client is inside or waits, or is counted as if it did. */
    method InUse() returns (busy: bool)
      requires Valid()
      ensures busy <==>
        clients.readers + clients.counted + clients.readWaiters + clients.writeWaiters != {} || clients.stale > 0
      ensures variant.Repaired? ==> (busy <==> clients.All() != {})
    {
      CountsMean(variant, View(), clients);
      if rActive > 0 || wActive > 0 { return true; }
      if rWait > 0 || wWait > 0 { return true; }
      return false;
    }

    method LockRead(ghost me: nat) returns (o: Outcome)
      requires Valid() && me !in clients.All()
      modifies this
      ensures Valid()
      ensures (View(), o) == ReadLock(old(View()))
      ensures o == if old(clients.counted) == {} then Granted else Blocked
      ensures clients == if o == Granted then old(clients).WithReader(me) else old(clients).WithReadWaiter(me)
    {
      hide Counted, Clients.All, Clients.WithReader, Clients.WithReadWaiter;
      CountsMean(variant, View(), clients);
      if wActive != 0 {
        ReaderQueues(variant, View(), clients, me);
        rWait := rWait + 1;
        clients := clients.WithReadWaiter(me);
        o := Blocked;
      } else {
        ReaderEnters(variant, View(), clients, me);
        rActive := rActive + 1;
        clients := clients.WithReader(me);
        o := Granted;
      }
    }

    /** As written, the reader that goes on is not taken out of `r_wait`. */
    method RecheckRead(ghost me: nat) returns (o: Outcome)
      requires Valid() && me in clients.readWaiters
      modifies this
      ensures Valid()
      ensures (View(), o) == ReadRecheck(variant, old(View()))
      ensures o == if old(clients.counted) == {} then Granted else Blocked
      ensures clients ==
        if o == Blocked then old(clients)
        else old(clients).WithoutReadWaiter(me, variant.AsWritten?).WithReader(me)
    {
      hide Counted, Clients.All, Clients.WithReader, Clients.WithoutReadWaiter;
      CountsMean(variant, View(), clients);
      if wActive != 0 { return Blocked; }
      ReadWaiterEnters(variant, View(), clients, me, variant.AsWritten?);
      if variant.Repaired? { rWait := rWait - 1; }
      rActive := rActive + 1;
      clients := clients.WithoutReadWaiter(me, variant.AsWritten?).WithReader(me);
      o := Granted;
    }

    method TryLockRead(ghost me: nat) returns (o: Outcome)
      requires Valid() && me !in clients.All()
      modifies this
      ensures Valid()
      ensures (View(), o) == ReadTryLock(old(View()))
      ensures o == if old(clients.counted) == {} then Granted else Busy
      ensures clients == if o == Busy then old(clients) else old(clients).WithReader(me)
    {
      hide Counted, Clients.All, Clients.WithReader;
      CountsMean(variant, View(), clients);
      if wActive != 0 {
        o := Busy;
      } else {
        ReaderEnters(variant, View(), clients, me);
        rActive := rActive + 1;
        clients := clients.WithReader(me);
        o := Granted;
      }
    }

    method UnlockRead(ghost me: nat) returns (w: Wakeup)
      requires Valid() && me in clients.readers
      modifies this
      ensures Valid()
      ensures (View(), w) == ReadUnlock(old(View()))
      ensures clients == old(clients).(readers := old(clients.readers) - {me})
      ensures w == if clients.readers == {} && clients.writeWaiters != {} then OneWriter else Nobody
    {
      hide Counted, Clients.All;
      ReaderLeaves(variant, View(), clients, me);
      rActive := rActive - 1;
      clients := clients.(readers := clients.readers - {me});
      CountsMean(variant, View(), clients);
      w := Nobody;
      if rActive == 0 && wWait > 0 { w := OneWriter; }
    }

    /** As written, the writer that is let in is not counted in `w_active`. */
    method LockWrite(ghost me: nat) returns (o: Outcome)
      requires Valid() && me !in clients.All()
      modifies this
      ensures Valid()
      ensures (View(), o) == WriteLock(variant, old(View()))
      ensures o == if old(clients.counted) == {} && old(clients.readers) == {} then Granted else Blocked
      ensures clients ==
        if o == Granted then old(clients).WithWriter(me, variant.Repaired?) else old(clients).WithWriteWaiter(me)
    {
      hide Counted, Clients.All, Clients.WithWriter, Clients.WithWriteWaiter;
      CountsMean(variant, View(), clients);
      if wActive > 0 || rActive > 0 {
        WriterQueues(variant, View(), clients, me);
        wWait := wWait + 1;
        clients := clients.WithWriteWaiter(me);
        return Blocked;
      }
      WriterEnters(variant, View(), clients, me, variant.Repaired?);
      if variant.Repaired? { wActive := 1; }
      clients := clients.WithWriter(me, variant.Repaired?);
      o := Granted;
    }

    method RecheckWrite(ghost me: nat) returns (o: Outcome)
      requires Valid() && me in clients.writeWaiters
      modifies this
      ensures Valid()
      ensures (View(), o) == WriteRecheck(variant, old(View()))
      ensures o == if old(clients.counted) == {} && old(clients.readers) == {} then Granted else Blocked
      ensures clients ==
        if o == Blocked then old(clients)
        else old(clients).WithoutWriteWaiter(me).WithWriter(me, variant.Repaired?)
    {
      hide Counted, Clients.All, Clients.WithWriter, Clients.WithoutWriteWaiter;
      CountsMean(variant, View(), clients);
      if wActive > 0 || rActive > 0 { return Blocked; }
      WriteWaiterEnters(variant, View(), clients, me, variant.Repaired?);
      wWait := wWait - 1;
      if variant.Repaired? { wActive := 1; }
      clients := clients.WithoutWriteWaiter(me).WithWriter(me, variant.Repaired?);
      o := Granted;
    }

    /** A writer that is let in here is counted, in both variants. */
    method TryLockWrite(ghost me: nat) returns (o: Outcome)
      requires Valid() && me !in clients.All()
      modifies this
      ensures Valid()
      ensures (View(), o) == WriteTryLock(old(View()))
      ensures o == if old(clients.counted) == {} && old(clients.readers) == {} then Granted else Busy
      ensures clients == if o == Busy then old(clients) else old(clients).WithWriter(me, true)
    {
      hide Counted, Clients.All, Clients.WithWriter;
      CountsMean(variant, View(), clients);
      if wActive > 0 || rActive > 0 {
        o := Busy;
      } else {
        WriterEnters(variant, View(), clients, me, true);
        wActive := wActive + 1;
        clients := clients.WithWriter(me, true);
        o := Granted;
      }
    }

    /** As written, this may be another writer than the one that is counted. */
    method UnlockWrite(ghost me: nat) returns (w: Wakeup)
      requires Valid() && me in clients.writers
      modifies this
      ensures Valid()
      ensures (View(), w) == WriteUnlock(old(View()))
      ensures clients == old(clients).(writers := old(clients.writers) - {me}, counted := {})
      ensures variant.Repaired? ==> clients.writers == {} && clients.readers == {}
      ensures w ==
        if clients.readWaiters != {} || clients.stale > 0 then AllReaders
        else if clients.writeWaiters != {} then OneWriter
        else Nobody
    {
      hide Counted, Clients.All;
      WriterLeaves(variant, View(), clients, me);
      wActive := 0;
      clients := clients.(writers := clients.writers - {me}, counted := {});
      CountsMean(variant, View(), clients);
      w := Nobody;
      if rWait > 0 {
        w := AllReaders;
      } else if wWait > 0 {
        w := OneWriter;
      }
    }

    /** rwl_readcleanup and rwl_writecleanup: the cancelled waiter is gone, and nobody is told. */
    method CleanUpRead(ghost me: nat)
      requires Valid() && me in clients.readWaiters
      modifies this
      ensures Valid()
      ensures View() == ReadCleanup(old(View()))
      ensures clients == old(clients).WithoutReadWaiter(me, false)
    {
      hide Counted, Clients.All, Clients.WithoutReadWaiter;
      ReadWaiterGoes(variant, View(), clients, me, false);
      rWait := rWait - 1;
      clients := clients.WithoutReadWaiter(me, false);
    }

    method CleanUpWrite(ghost me: nat)
      requires Valid() && me in clients.writeWaiters
      modifies this
      ensures Valid()
      ensures View() == WriteCleanup(old(View()))
      ensures clients == old(clients).WithoutWriteWaiter(me)
    {
      hide Counted, Clients.All, Clients.WithoutWriteWaiter;
      WriteWaiterGoes(variant, View(), clients, me);
      wWait := wWait - 1;
      clients := clients.WithoutWriteWaiter(me);
    }
  }

  // ---------------------------------------------------------------- the protocol

  datatype Pc = Idle | Reading | Writing | ReadWait(awake: bool) | WriteWait(awake: bool)

  datatype State = State(variant: Variant, lock: Fields, threads: seq<Pc>)

  /** `pick` is the sleeping writer that a signal wakes up. Cancel delivers a cancellation request
      to a thread in a wait, the only cancellation point of the lock. */
  datatype Action =
    | LockRead(thread: nat)
    | TryRead(thread: nat)
    | UnlockRead(thread: nat, pick: nat)
    | LockWrite(thread: nat)
    | TryWrite(thread: nat)
    | UnlockWrite(thread: nat, pick: nat)
    | Recheck(thread: nat)
    | Spurious(thread: nat)
    | Cancel(thread: nat)

  function Initial(variant: Variant, threads: nat): State
  {
    State(variant, Fields(0, 0, 0, 0), seq(threads, _ => Idle))
  }

  function AsleepWriter(pc: Pc): bool { pc == WriteWait(false) }

  function WakeWriter(pc: Pc): Pc { if pc == WriteWait(false) then WriteWait(true) else pc }

  function WakeReader(pc: Pc): Pc { if pc == ReadWait(false) then ReadWait(true) else pc }

  function Deliver(w: Wakeup, threads: seq<Pc>, pick: nat): Option<seq<Pc>>
  {
    match w
    case Nobody => Some(threads)
    case AllReaders => Some(Broadcast(threads, WakeReader))
    case OneWriter => Signal(threads, AsleepWriter, WakeWriter, pick)
  }

  function AfterLock(o: Outcome, granted: Pc, blocked: Pc): Pc
  {
    match o
    case Granted => granted
    case Blocked => blocked
    case Busy => Idle
  }

  /** Clients are disciplined: a thread locks when it holds nothing, and unlocks what it holds. */
  function Next(s: State, a: Action): Option<State>
  {
    if a.thread >= |s.threads| then None else
    var pc := s.threads[a.thread];
    match a
    case LockRead(i) =>
      if pc != Idle then None else
      var (lock, o) := ReadLock(s.lock);
      Some(s.(lock := lock, threads := s.threads[i := AfterLock(o, Reading, ReadWait(false))]))
    case TryRead(i) =>
      if pc != Idle then None else
      var (lock, o) := ReadTryLock(s.lock);
      Some(s.(lock := lock, threads := s.threads[i := AfterLock(o, Reading, Idle)]))
    case UnlockRead(i, pick) =>
      if pc != Reading then None else
      var (lock, w) := ReadUnlock(s.lock);
      (match Deliver(w, s.threads[i := Idle], pick)
       case None => None
       case Some(threads) => Some(s.(lock := lock, threads := threads)))
    case LockWrite(i) =>
      if pc != Idle then None else
      var (lock, o) := WriteLock(s.variant, s.lock);
      Some(s.(lock := lock, threads := s.threads[i := AfterLock(o, Writing, WriteWait(false))]))
    case TryWrite(i) =>
      if pc != Idle then None else
      var (lock, o) := WriteTryLock(s.lock);
      Some(s.(lock := lock, threads := s.threads[i := AfterLock(o, Writing, Idle)]))
    case UnlockWrite(i, pick) =>
      if pc != Writing then None else
      var (lock, w) := WriteUnlock(s.lock);
      (match Deliver(w, s.threads[i := Idle], pick)
       case None => None
       case Some(threads) => Some(s.(lock := lock, threads := threads)))
    case Recheck(i) =>
      if pc == ReadWait(true) then
        var (lock, o) := ReadRecheck(s.variant, s.lock);
        Some(s.(lock := lock, threads := s.threads[i := AfterLock(o, Reading, ReadWait(false))]))
      else if pc == WriteWait(true) then
        var (lock, o) := WriteRecheck(s.variant, s.lock);
        Some(s.(lock := lock, threads := s.threads[i := AfterLock(o, Writing, WriteWait(false))]))
      else
        None
    case Spurious(i) =>
      if pc == ReadWait(false) || pc == WriteWait(false) then
        Some(s.(threads := s.threads[i := WakeReader(WakeWriter(pc))]))
      else
        None
    case Cancel(i) =>
      if pc.ReadWait? then Some(s.(lock := ReadCleanup(s.lock), threads := s.threads[i := Idle]))
      else if pc.WriteWait? then Some(s.(lock := WriteCleanup(s.lock), threads := s.threads[i := Idle]))
      else None
  }

  // ---------------------------------------------------------------- exclusion, with exact counters

  function IsReading(pc: Pc): nat { if pc.Reading? then 1 else 0 }
  function IsWriting(pc: Pc): nat { if pc.Writing? then 1 else 0 }
  function IsReadWaiting(pc: Pc): nat { if pc.ReadWait? then 1 else 0 }
  function IsWriteWaiting(pc: Pc): nat { if pc.WriteWait? then 1 else 0 }

  /** The active counters count, and nobody reads or writes beside a writer. */
  ghost predicate InsideExact(s: State)
  {
    && s.lock.rActive == Sum(s.threads, IsReading)
    && s.lock.wActive == Sum(s.threads, IsWriting)
    && s.lock.wActive <= 1
    && (s.lock.wActive == 1 ==> s.lock.rActive == 0)
  }

  /** All four counters count. */
  ghost predicate Exact(s: State)
  {
    && InsideExact(s)
    && s.lock.rWait == Sum(s.threads, IsReadWaiting)
    && s.lock.wWait == Sum(s.threads, IsWriteWaiting)
  }

  lemma CountsUpdate(threads: seq<Pc>, i: nat, pc: Pc)
    requires i < |threads|
    ensures Sum(threads[i := pc], IsReading) == Sum(threads, IsReading) - IsReading(threads[i]) + IsReading(pc)
    ensures Sum(threads[i := pc], IsWriting) == Sum(threads, IsWriting) - IsWriting(threads[i]) + IsWriting(pc)
    ensures Sum(threads[i := pc], IsReadWaiting)
         == Sum(threads, IsReadWaiting) - IsReadWaiting(threads[i]) + IsReadWaiting(pc)
    ensures Sum(threads[i := pc], IsWriteWaiting)
         == Sum(threads, IsWriteWaiting) - IsWriteWaiting(threads[i]) + IsWriteWaiting(pc)
  {
    SumUpdate(threads, i, pc, IsReading);
    SumUpdate(threads, i, pc, IsWriting);
    SumUpdate(threads, i, pc, IsReadWaiting);
    SumUpdate(threads, i, pc, IsWriteWaiting);
  }

  /** Waking threads up does not change what they are counted as. */
  lemma CountsDeliver(w: Wakeup, threads: seq<Pc>, pick: nat)
    requires Deliver(w, threads, pick).Some?
    ensures var r := Deliver(w, threads, pick).value;
      && |r| == |threads|
      && Sum(r, IsReading) == Sum(threads, IsReading) && Sum(r, IsWriting) == Sum(threads, IsWriting)
      && Sum(r, IsReadWaiting) == Sum(threads, IsReadWaiting)
      && Sum(r, IsWriteWaiting) == Sum(threads, IsWriteWaiting)
  {
    match w
    case Nobody =>
    case AllReaders =>
      SumBroadcast(threads, WakeReader, IsReading, IsReading);
      SumBroadcast(threads, WakeReader, IsWriting, IsWriting);
      SumBroadcast(threads, WakeReader, IsReadWaiting, IsReadWaiting);
      SumBroadcast(threads, WakeReader, IsWriteWaiting, IsWriteWaiting);
    case OneWriter =>
      if pick < |threads| { CountsUpdate(threads, pick, WakeWriter(threads[pick])); }
  }

  lemma UnlockKeepsExact(s: State, a: Action)
    requires s.variant.Repaired? && Exact(s) && Next(s, a).Some? && (a.UnlockRead? || a.UnlockWrite?)
    ensures Exact(Next(s, a).value)
  {
    hide Deliver;
    SumMember(s.threads, a.thread, IsReading);
    SumMember(s.threads, a.thread, IsWriting);
    CountsUpdate(s.threads, a.thread, Idle);
    var w := if a.UnlockRead? then ReadUnlock(s.lock).1 else WriteUnlock(s.lock).1;
    CountsDeliver(w, s.threads[a.thread := Idle], a.pick);
  }

  lemma ExactStep(s: State, a: Action)
    requires s.variant.Repaired? && Exact(s) && Next(s, a).Some?
    ensures Exact(Next(s, a).value)
  {
    hide Deliver, Sum;
    var i, r := a.thread, Next(s, a).value;
    if a.UnlockRead? || a.UnlockWrite? {
      UnlockKeepsExact(s, a);
    } else {
      CountsUpdate(s.threads, i, r.threads[i]);
      assert r.threads == s.threads[i := r.threads[i]];
    }
  }

  ghost predicate ExactRepaired(s: State) { s.variant.Repaired? && Exact(s) }

  /** Over every run of the repaired lock, cancelled waits included. */
  lemma CountersAreExact(threads: nat, steps: seq<Action>)
    ensures var r := Run(Next, Initial(Repaired, threads), steps); r.Some? ==> ExactRepaired(r.value)
  {
    var s := Initial(Repaired, threads);
    SumZero(s.threads, IsReading);
    SumZero(s.threads, IsWriting);
    SumZero(s.threads, IsReadWaiting);
    SumZero(s.threads, IsWriteWaiting);
    forall t, a | ExactRepaired(t) && Next(t, a).Some? ensures ExactRepaired(Next(t, a).value) { ExactStep(t, a); }
    Invariance(Next, ExactRepaired, s, steps);
  }

  /** A thread that writes is alone inside. */
  ghost predicate Exclusive(s: State)
  {
    forall i: nat, j: nat | i < |s.threads| && j < |s.threads| && i != j && s.threads[i].Writing? ::
      !s.threads[j].Writing? && !s.threads[j].Reading?
  }

  lemma InsideExcludes(s: State)
    requires InsideExact(s)
    ensures Exclusive(s)
  {
    forall i: nat, j: nat | i < |s.threads| && j < |s.threads| && i != j && s.threads[i].Writing?
      ensures !s.threads[j].Writing? && !s.threads[j].Reading?
    {
      SumMember(s.threads, i, IsWriting);
      SumMember(s.threads, j, IsReading);
      SumTwo(s.threads, if i < j then i else j, if i < j then j else i, IsWriting);
    }
  }

  /** A writer is alone: no second writer, and no reader, in any run. */
  lemma WriterExcludes(threads: nat, steps: seq<Action>)
    ensures var r := Run(Next, Initial(Repaired, threads), steps); r.Some? ==> Exclusive(r.value)
  {
    CountersAreExact(threads, steps);
    var r := Run(Next, Initial(Repaired, threads), steps);
    if r.Some? { InsideExcludes(r.value); }
  }

  /** rwl_destroy's test is exact: it finds the lock in use just when some thread is inside. */
  lemma InUseIffSomebodyInside(s: State)
    requires ExactRepaired(s)
    ensures (s.lock.rActive > 0 || s.lock.wActive > 0 || s.lock.rWait > 0 || s.lock.wWait > 0) <==>
      exists i: nat :: i < |s.threads| && !s.threads[i].Idle?
  {
    if i: nat :| i < |s.threads| && !s.threads[i].Idle? {
      SumMember(s.threads, i, IsReading);
      SumMember(s.threads, i, IsWriting);
      SumMember(s.threads, i, IsReadWaiting);
      SumMember(s.threads, i, IsWriteWaiting);
    } else {
      SumZero(s.threads, IsReading);
      SumZero(s.threads, IsWriting);
      SumZero(s.threads, IsReadWaiting);
      SumZero(s.threads, IsWriteWaiting);
    }
  }

  // ---------------------------------------------------------------- no lost wakeup

  predicate Awake(pc: Pc) { pc == ReadWait(true) || pc == WriteWait(true) }

  predicate Waits(pc: Pc) { pc.ReadWait? || pc.WriteWait? }

  /** Some waiter has been woken and has not yet looked again. */
  ghost predicate SomebodyAwake(s: State) { exists i: nat :: i < |s.threads| && Awake(s.threads[i]) }

  /** Some thread sleeps, nobody holds the lock, and nobody has been woken to take it. */
  ghost predicate Stranded(s: State)
  {
    && (exists i: nat :: i < |s.threads| && Waits(s.threads[i]))
    && (forall i: nat | i < |s.threads| :: !s.threads[i].Reading? && !s.threads[i].Writing? && !Awake(s.threads[i]))
  }

  /** No reader sleeps while no writer is active; a writer sleeps only while somebody is active,
      or a woken waiter will be. */
  ghost predicate Handover(s: State)
  {
    && (forall i: nat | i < |s.threads| && s.threads[i] == ReadWait(false) :: s.lock.wActive > 0)
    && (forall i: nat | i < |s.threads| && s.threads[i] == WriteWait(false) ::
          s.lock.wActive > 0 || s.lock.rActive > 0 || SomebodyAwake(s))
  }

  /** A thread that has been woken is cancelled while nobody is active, and of the others that are
      counted as waiting none has been woken: the cleanup handlers signal nobody. */
  ghost predicate Loses(s: State, a: Action)
  {
    && a.Cancel? && a.thread < |s.threads| && Awake(s.threads[a.thread])
    && s.lock.rActive == 0 && s.lock.wActive == 0
    && s.lock.rWait + s.lock.wWait > 1
    && forall j: nat | j < |s.threads| && j != a.thread :: !Awake(s.threads[j])
  }

  /** A signal sent while a writer waits leaves a writer awake, or no writer asleep. */
  lemma SignalWakesAWriter(threads: seq<Pc>, pick: nat)
    requires Deliver(OneWriter, threads, pick).Some?
    ensures var r := Deliver(OneWriter, threads, pick).value;
      |r| == |threads| && forall i: nat | i < |r| && r[i] == WriteWait(false) :: pick < |r| && Awake(r[pick])
  {
  }

  lemma ReadUnlockHandsOver(s: State, i: nat, pick: nat)
    requires ExactRepaired(s) && Handover(s) && Next(s, UnlockRead(i, pick)).Some?
    ensures Handover(Next(s, UnlockRead(i, pick)).value)
  {
    hide Sum;
    var (lock, w) := ReadUnlock(s.lock);
    var threads := s.threads[i := Idle];
    SumMember(s.threads, i, IsReading);
    CountsUpdate(s.threads, i, Idle);
    if w == OneWriter {
      SignalWakesAWriter(threads, pick);
    } else if lock.rActive == 0 {
      forall j: nat | j < |threads| ensures threads[j] != WriteWait(false) {
        SumMember(threads, j, IsWriteWaiting);
      }
    }
  }

  lemma WriteUnlockHandsOver(s: State, i: nat, pick: nat)
    requires ExactRepaired(s) && Handover(s) && Next(s, UnlockWrite(i, pick)).Some?
    ensures Handover(Next(s, UnlockWrite(i, pick)).value)
  {
    hide Sum;
    var (lock, w) := WriteUnlock(s.lock);
    var threads, r := s.threads[i := Idle], Next(s, UnlockWrite(i, pick)).value;
    SumMember(s.threads, i, IsWriting);
    CountsUpdate(s.threads, i, Idle);
    if w == AllReaders {
      var j := SumWitness(threads, IsReadWaiting);
      assert Awake(r.threads[j]);
    } else {
      forall j: nat | j < |threads| ensures !threads[j].ReadWait? {
        SumMember(threads, j, IsReadWaiting);
      }
      if w == OneWriter {
        SignalWakesAWriter(threads, pick);
      } else {
        forall j: nat | j < |threads| ensures !threads[j].WriteWait? {
          SumMember(threads, j, IsWriteWaiting);
        }
      }
    }
  }

  /** While two are counted as waiting, a waiter is not the only one ... */
  lemma OtherWaiter(s: State, i: nat) returns (j: nat)
    requires Exact(s) && i < |s.threads| && Waits(s.threads[i]) && s.lock.rWait + s.lock.wWait > 1
    ensures j < |s.threads| && j != i && Waits(s.threads[j])
  {
    CountsUpdate(s.threads, i, Idle);
    var rest := s.threads[i := Idle];
    j := SumWitness(rest, if Sum(rest, IsReadWaiting) > 0 then IsReadWaiting else IsWriteWaiting);
  }

  /** ... and two that wait are counted. */
  lemma TwoWaiters(s: State, i: nat, j: nat)
    requires Exact(s) && i < j < |s.threads| && Waits(s.threads[i]) && Waits(s.threads[j])
    ensures s.lock.rWait + s.lock.wWait > 1
  {
    SumTwo(s.threads, i, j, IsReadWaiting);
    SumTwo(s.threads, i, j, IsWriteWaiting);
    SumMember(s.threads, i, IsReadWaiting);
    SumMember(s.threads, j, IsReadWaiting);
    SumMember(s.threads, i, IsWriteWaiting);
    SumMember(s.threads, j, IsWriteWaiting);
  }

  lemma CancelHandsOver(s: State, i: nat)
    requires ExactRepaired(s) && Handover(s) && Next(s, Cancel(i)).Some?
    ensures Handover(Next(s, Cancel(i)).value) <==> !Loses(s, Cancel(i))
  {
    hide Sum;
    var r := Next(s, Cancel(i)).value;
    forall j: nat | j < |s.threads| ensures Awake(r.threads[j]) <==> j != i && Awake(s.threads[j]) {}
    if Loses(s, Cancel(i)) {
      var j := OtherWaiter(s, i);
      assert r.threads[j] == s.threads[j] && !SomebodyAwake(r);
    } else if SomebodyAwake(s) {
      forall j: nat | j < |s.threads| && r.threads[j] == WriteWait(false)
        ensures r.lock.wActive > 0 || r.lock.rActive > 0 || SomebodyAwake(r)
      {
        if r.lock.wActive <= 0 && r.lock.rActive <= 0 {
          TwoWaiters(s, if i < j then i else j, if i < j then j else i);
          var k: nat :| k < |s.threads| && k != i && Awake(s.threads[k]);
          assert Awake(r.threads[k]);
        }
      }
    }
  }

  lemma OthersHandOver(s: State, a: Action)
    requires ExactRepaired(s) && Handover(s) && Next(s, a).Some?
    requires !a.UnlockRead? && !a.UnlockWrite? && !a.Cancel?
    ensures Handover(Next(s, a).value)
  {
    hide Sum;
    var i, r := a.thread, Next(s, a).value;
    SumMember(s.threads, i, IsReading);
    SumMember(s.threads, i, IsWriting);
    if SomebodyAwake(s) {
      var j: nat :| j < |s.threads| && Awake(s.threads[j]);
      if j != i { assert Awake(r.threads[j]); }
    }
  }

  /** Every step hands the lock over, except exactly a cancellation that loses the wakeup. */
  lemma HandoverStep(s: State, a: Action)
    requires ExactRepaired(s) && Handover(s) && Next(s, a).Some?
    ensures Handover(Next(s, a).value) <==> !Loses(s, a)
  {
    hide Exact, Handover, Deliver;
    match a
    case UnlockRead(i, pick) => ReadUnlockHandsOver(s, i, pick);
    case UnlockWrite(i, pick) => WriteUnlockHandsOver(s, i, pick);
    case Cancel(i) => CancelHandsOver(s, i);
    case _ => OthersHandOver(s, a);
  }

  /** In the counters' terms: nobody active, somebody counted as waiting, and no waiter woken. */
  lemma StrandedIffCounted(s: State)
    requires ExactRepaired(s)
    ensures Stranded(s) <==>
      s.lock.rActive == 0 && s.lock.wActive == 0 && s.lock.rWait + s.lock.wWait > 0 && !SomebodyAwake(s)
  {
    if i: nat :| i < |s.threads| && Waits(s.threads[i]) {
      SumMember(s.threads, i, IsReadWaiting);
      SumMember(s.threads, i, IsWriteWaiting);
    } else {
      SumZero(s.threads, IsReadWaiting);
      SumZero(s.threads, IsWriteWaiting);
    }
    if forall i: nat | i < |s.threads| :: !s.threads[i].Reading? && !s.threads[i].Writing? {
      SumZero(s.threads, IsReading);
      SumZero(s.threads, IsWriting);
    } else {
      var i: nat :| i < |s.threads| && (s.threads[i].Reading? || s.threads[i].Writing?);
      SumMember(s.threads, i, IsReading);
      SumMember(s.threads, i, IsWriting);
    }
  }

  lemma HandoverStrandsNobody(s: State)
    requires ExactRepaired(s) && Handover(s)
    ensures !Stranded(s)
  {
    StrandedIffCounted(s);
  }

  lemma LosingStrands(s: State, a: Action)
    requires ExactRepaired(s) && Next(s, a).Some? && Loses(s, a)
    ensures Stranded(Next(s, a).value)
  {
    hide Sum;
    ExactStep(s, a);
    var r := Next(s, a).value;
    StrandedIffCounted(r);
    forall j: nat | j < |r.threads| ensures !Awake(r.threads[j]) {}
  }

  /** The state that the first k steps of a run lead to. */
  function After(threads: nat, steps: seq<Action>, k: nat): State
    requires k <= |steps| && Run(Next, Initial(Repaired, threads), steps).Some?
  {
    RunPrefix(Next, Initial(Repaired, threads), steps, k);
    Run(Next, Initial(Repaired, threads), steps[..k]).value
  }

  lemma {:induction false} HandoverUntilLost(threads: nat, steps: seq<Action>, k: nat)
    requires k <= |steps| && Run(Next, Initial(Repaired, threads), steps).Some?
    requires forall j | 0 <= j < k :: !Loses(After(threads, steps, j), steps[j])
    ensures ExactRepaired(After(threads, steps, k)) && Handover(After(threads, steps, k))
    decreases k
  {
    hide Exact, Handover, Loses;
    CountersAreExact(threads, steps[..k]);
    RunPrefix(Next, Initial(Repaired, threads), steps, k);
    if k == 0 {
      NewLockHandsOver(threads);
    } else {
      HandoverUntilLost(threads, steps, k - 1);
      RunPrefix(Next, Initial(Repaired, threads), steps, k - 1);
      HandoverStep(After(threads, steps, k - 1), steps[k - 1]);
    }
  }

  lemma NewLockHandsOver(threads: nat)
    ensures ExactRepaired(Initial(Repaired, threads)) && Handover(Initial(Repaired, threads))
  {
    CountersAreExact(threads, []);
    assert Run(Next, Initial(Repaired, threads), []) == Some(Initial(Repaired, threads));
  }

  lemma LostThenStranded(threads: nat, steps: seq<Action>, k: nat)
    requires k < |steps| && Run(Next, Initial(Repaired, threads), steps).Some?
    requires Loses(After(threads, steps, k), steps[k])
    ensures Stranded(After(threads, steps, k + 1))
  {
    hide Stranded, Loses, Exact, Next;
    CountersAreExact(threads, steps[..k]);
    RunPrefix(Next, Initial(Repaired, threads), steps, k);
    RunPrefix(Next, Initial(Repaired, threads), steps, k + 1);
    LosingStrands(After(threads, steps, k), steps[k]);
  }

  /** A run strands nobody, from beginning to end, exactly when none of its steps is a cancellation
      that loses the wakeup. */
  lemma StrandsNobodyIffNoneLost(threads: nat, steps: seq<Action>)
    requires Run(Next, Initial(Repaired, threads), steps).Some?
    ensures (forall k | 0 <= k <= |steps| :: !Stranded(After(threads, steps, k)))
      <==> (forall k | 0 <= k < |steps| :: !Loses(After(threads, steps, k), steps[k]))
  {
    hide Stranded, Loses, Handover, Exact, Next, After;
    if forall k | 0 <= k < |steps| :: !Loses(After(threads, steps, k), steps[k]) {
      forall k | 0 <= k <= |steps| ensures !Stranded(After(threads, steps, k)) {
        HandoverUntilLost(threads, steps, k);
        HandoverStrandsNobody(After(threads, steps, k));
      }
    } else {
      var k :| 0 <= k < |steps| && Loses(After(threads, steps, k), steps[k]);
      LostThenStranded(threads, steps, k);
    }
  }

  // ---------------------------------------------------------------- progress

  /** The steps a thread still needs: to be let in, and to unlock. */
  function Need(pc: Pc): nat
  {
    match pc
    case Idle => 0
    case Reading => 1
    case Writing => 1
    case _ => 2
  }

  lemma DeliverNeeds(w: Wakeup, threads: seq<Pc>, pick: nat)
    requires Deliver(w, threads, pick).Some?
    ensures var r := Deliver(w, threads, pick).value; |r| == |threads| && Sum(r, Need) == Sum(threads, Need)
  {
    match w
    case Nobody =>
    case AllReaders => SumBroadcast(threads, WakeReader, Need, Need);
    case OneWriter => if pick < |threads| { SumUpdate(threads, pick, WakeWriter(threads[pick]), Need); }
  }

  lemma UnlockProgresses(s: State, i: nat) returns (a: Action)
    requires i < |s.threads| && (s.threads[i].Reading? || s.threads[i].Writing?)
    ensures (a.UnlockRead? || a.UnlockWrite?) && Next(s, a).Some?
    ensures var r := Next(s, a).value; |r.threads| == |s.threads| && Sum(r.threads, Need) < Sum(s.threads, Need)
  {
    hide Sum;
    var threads := s.threads[i := Idle];
    var pick: nat := 0;
    if j: nat :| j < |threads| && AsleepWriter(threads[j]) { pick := j; }
    a := if s.threads[i].Reading? then UnlockRead(i, pick) else UnlockWrite(i, pick);
    SumUpdate(s.threads, i, Idle, Need);
    DeliverNeeds(if a.UnlockRead? then ReadUnlock(s.lock).1 else WriteUnlock(s.lock).1, threads, pick);
  }

  /** While some thread is inside or waits, a step lets one in or lets one go. */
  lemma SomebodyIsServed(s: State) returns (a: Action)
    requires ExactRepaired(s) && Handover(s) && exists i: nat :: i < |s.threads| && !s.threads[i].Idle?
    ensures (a.UnlockRead? || a.UnlockWrite? || a.Recheck?) && Next(s, a).Some?
    ensures var r := Next(s, a).value; |r.threads| == |s.threads| && Sum(r.threads, Need) < Sum(s.threads, Need)
  {
    if i: nat :| i < |s.threads| && (s.threads[i].Reading? || s.threads[i].Writing?) {
      a := UnlockProgresses(s, i);
    } else {
      SumZero(s.threads, IsReading);
      SumZero(s.threads, IsWriting);
      assert SomebodyAwake(s);
      var k: nat :| k < |s.threads| && Awake(s.threads[k]);
      a := Recheck(k);
      SumUpdate(s.threads, k, if s.threads[k].ReadWait? then Reading else Writing, Need);
    }
  }

  /** From every state of a run that loses no wakeup, the threads that hold the repaired lock can
      unlock it and those that wait can be let in and unlock it in turn, until nobody is left. */
  lemma {:induction false} EverybodyIsServed(s: State) returns (steps: seq<Action>)
    requires ExactRepaired(s) && Handover(s)
    ensures forall a | a in steps :: a.UnlockRead? || a.UnlockWrite? || a.Recheck?
    ensures var r := Run(Next, s, steps);
      r.Some? && |r.value.threads| == |s.threads| && forall i | 0 <= i < |s.threads| :: r.value.threads[i].Idle?
    decreases Sum(s.threads, Need)
  {
    hide Exact, Handover;
    steps := [];
    if i: nat :| i < |s.threads| && !s.threads[i].Idle? {
      var a := SomebodyIsServed(s);
      ExactStep(s, a);
      HandoverStep(s, a);
      var more := EverybodyIsServed(Next(s, a).value);
      steps := [a] + more;
      assert steps[1..] == more;
    }
  }

  // ---------------------------------------------------------------- both variants

  /** What the counters of either variant count: all that read and wait to write, of those that write at most
      one, and of those that wait to read at least all. */
  ghost predicate Accounted(s: State)
  {
    && s.lock.rActive == Sum(s.threads, IsReading)
    && 0 <= s.lock.wActive <= 1 && s.lock.wActive <= Sum(s.threads, IsWriting)
    && s.lock.rWait >= Sum(s.threads, IsReadWaiting)
    && s.lock.wWait == Sum(s.threads, IsWriteWaiting)
  }

  lemma AccountedUnlock(s: State, a: Action)
    requires Accounted(s) && Next(s, a).Some? && (a.UnlockRead? || a.UnlockWrite?)
    ensures Accounted(Next(s, a).value)
  {
    hide Deliver, Sum;
    SumMember(s.threads, a.thread, IsReading);
    SumMember(s.threads, a.thread, IsWriting);
    CountsUpdate(s.threads, a.thread, Idle);
    var w := if a.UnlockRead? then ReadUnlock(s.lock).1 else WriteUnlock(s.lock).1;
    CountsDeliver(w, s.threads[a.thread := Idle], a.pick);
  }

  lemma AccountedStep(s: State, a: Action)
    requires Accounted(s) && Next(s, a).Some?
    ensures Accounted(Next(s, a).value)
  {
    hide Deliver, Sum;
    var i, r := a.thread, Next(s, a).value;
    if a.UnlockRead? || a.UnlockWrite? {
      AccountedUnlock(s, a);
    } else {
      CountsUpdate(s.threads, i, r.threads[i]);
      assert r.threads == s.threads[i := r.threads[i]];
    }
  }

  lemma AccountedHolds(v: Variant, threads: nat, steps: seq<Action>)
    ensures var r := Run(Next, Initial(v, threads), steps); r.Some? ==> Accounted(r.value)
  {
    var s := Initial(v, threads);
    SumZero(s.threads, IsReading);
    SumZero(s.threads, IsWriting);
    SumZero(s.threads, IsReadWaiting);
    SumZero(s.threads, IsWriteWaiting);
    forall t, a | Accounted(t) && Next(t, a).Some? ensures Accounted(Next(t, a).value) { AccountedStep(t, a); }
    Invariance(Next, Accounted, s, steps);
  }

  ghost predicate SomebodyReads(s: State) { exists i: nat :: i < |s.threads| && s.threads[i].Reading? }

  lemma ReadersCounted(s: State)
    requires Accounted(s)
    ensures SomebodyReads(s) <==> s.lock.rActive > 0
  {
    if i: nat :| i < |s.threads| && s.threads[i].Reading? {
      SumMember(s.threads, i, IsReading);
    } else {
      SumZero(s.threads, IsReading);
    }
  }

  /** In every run of either variant: a thread that asks for the lock, or looks again after a wait, is let in
      exactly when no counted writer is inside and, if it wants to write, nobody reads; else it waits on,
      or is told that the lock is busy. A writer that rwl_writelock lets in is counted only when repaired, and
      one that rwl_writetrylock lets in always. */
  lemma LetInExactly(v: Variant, threads: nat, steps: seq<Action>, a: Action)
    requires Run(Next, Initial(v, threads), steps).Some?
    requires Next(Run(Next, Initial(v, threads), steps).value, a).Some?
    ensures var s := Run(Next, Initial(v, threads), steps).value;
      var r, i := Next(s, a).value, a.thread;
      var mayRead := s.lock.wActive == 0;
      var mayWrite := mayRead && !SomebodyReads(s);
      && i < |s.threads| == |r.threads| && s.variant == v
      && (a.LockRead? ==> r.threads[i] == if mayRead then Reading else ReadWait(false))
      && (a.TryRead? ==> r.threads[i] == if mayRead then Reading else Idle)
      && (a.LockWrite? ==> r.threads[i] == if mayWrite then Writing else WriteWait(false))
      && (a.TryWrite? ==> r.threads[i] == if mayWrite then Writing else Idle)
      && (a.Recheck? && s.threads[i].ReadWait? ==> r.threads[i] == if mayRead then Reading else ReadWait(false))
      && (a.Recheck? && s.threads[i].WriteWait? ==> r.threads[i] == if mayWrite then Writing else WriteWait(false))
      && (r.threads[i].Writing? ==> r.lock.wActive == if a.TryWrite? || v.Repaired? then 1 else 0)
  {
    AccountedHolds(v, threads, steps);
    VariantStays(v, threads, steps);
    var s := Run(Next, Initial(v, threads), steps).value;
    ReadersCounted(s);
    hide Sum, SomebodyReads;
    if a.UnlockRead? || a.UnlockWrite? {
      var w := if a.UnlockRead? then ReadUnlock(s.lock).1 else WriteUnlock(s.lock).1;
      DeliverKeepsHolders(w, s.threads[a.thread := Idle], a.pick);
    }
  }

  lemma DeliverKeepsHolders(w: Wakeup, threads: seq<Pc>, pick: nat)
    requires Deliver(w, threads, pick).Some?
    ensures var r := Deliver(w, threads, pick).value;
      |r| == |threads| && forall i | 0 <= i < |threads| && !Waits(threads[i]) :: r[i] == threads[i]
  {
  }

  lemma VariantStays(v: Variant, threads: nat, steps: seq<Action>)
    ensures var r := Run(Next, Initial(v, threads), steps); r.Some? ==> r.value.variant == v
  {
    Invariance(Next, (s: State) => s.variant == v, Initial(v, threads), steps);
  }

  // ---------------------------------------------------------------- which clients are safe

  /** What the clients of a lock do: whether they call rwl_writelock (they may always call
      rwl_writetrylock), and whether a thread may be cancelled while it waits. */
  datatype Usage = Usage(writeLock: bool, cancel: bool)
  {
    predicate Allows(a: Action) { (a.LockWrite? ==> writeLock) && (a.Cancel? ==> cancel) }
  }

  function NextFor(u: Usage): (State, Action) -> Option<State>
  {
    (s, a) => if u.Allows(a) then Next(s, a) else None
  }

  /** As written, while nobody calls rwl_writelock: `w_active` is exact, no writer waits, and no
      reader sleeps while no writer is active. */
  ghost predicate OnlyTryWrites(s: State)
  {
    && s.variant.AsWritten?
    && InsideExact(s)
    && s.lock.wWait == 0
    && s.lock.rWait >= Sum(s.threads, IsReadWaiting)
    && (forall i: nat | i < |s.threads| :: !s.threads[i].WriteWait?)
    && (forall i: nat | i < |s.threads| && s.threads[i] == ReadWait(false) :: s.lock.wActive > 0)
  }

  lemma OnlyTryWritesReadUnlock(s: State, i: nat, pick: nat)
    requires OnlyTryWrites(s) && Next(s, UnlockRead(i, pick)).Some?
    ensures OnlyTryWrites(Next(s, UnlockRead(i, pick)).value)
  {
    SumMember(s.threads, i, IsReading);
    SumMember(s.threads, i, IsWriting);
    CountsUpdate(s.threads, i, Idle);
  }

  lemma OnlyTryWritesWriteUnlock(s: State, i: nat, pick: nat)
    requires OnlyTryWrites(s) && Next(s, UnlockWrite(i, pick)).Some?
    ensures OnlyTryWrites(Next(s, UnlockWrite(i, pick)).value)
  {
    hide Deliver, Sum;
    var threads, w := s.threads[i := Idle], WriteUnlock(s.lock).1;
    SumMember(s.threads, i, IsWriting);
    CountsUpdate(s.threads, i, Idle);
    CountsDeliver(w, threads, pick);
    OnlyReadersWoken(w, threads, pick);
    if w == Nobody {
      forall j: nat | j < |threads| ensures !threads[j].ReadWait? { SumMember(threads, j, IsReadWaiting); }
    }
  }

  lemma OnlyReadersWoken(w: Wakeup, threads: seq<Pc>, pick: nat)
    requires Deliver(w, threads, pick).Some?
    requires forall i: nat | i < |threads| :: !threads[i].WriteWait?
    ensures var r := Deliver(w, threads, pick).value;
      && |r| == |threads|
      && forall i: nat | i < |r| :: r[i] == if w == AllReaders then WakeReader(threads[i]) else threads[i]
  {
  }

  lemma OnlyTryWritesStep(s: State, a: Action)
    requires OnlyTryWrites(s) && Next(s, a).Some? && !a.LockWrite?
    ensures OnlyTryWrites(Next(s, a).value)
  {
    hide Sum, Deliver;
    var i, r := a.thread, Next(s, a).value;
    if a.UnlockRead? {
      OnlyTryWritesReadUnlock(s, i, a.pick);
    } else if a.UnlockWrite? {
      OnlyTryWritesWriteUnlock(s, i, a.pick);
    } else {
      CountsUpdate(s.threads, i, r.threads[i]);
      SumMember(s.threads, i, IsReading);
      SumMember(s.threads, i, IsWriting);
    }
  }

  /** A single thread never waits. */
  ghost predicate Alone(s: State)
  {
    && |s.threads| <= 1
    && s.lock.rActive == (if |s.threads| == 1 && s.threads[0].Reading? then 1 else 0)
    && s.lock.wActive >= 0
    && (s.lock.wActive > 0 ==> |s.threads| == 1 && s.threads[0].Writing?)
    && (forall i: nat | i < |s.threads| :: !Waits(s.threads[i]))
  }

  lemma AloneIsSafe(threads: nat, u: Usage, steps: seq<Action>)
    requires threads <= 1
    ensures var r := Run(NextFor(u), Initial(AsWritten, threads), steps);
      r.Some? ==> Exclusive(r.value) && !Stranded(r.value)
  {
    Invariance(NextFor(u), Alone, Initial(AsWritten, threads), steps);
  }

  lemma OnlyTryWritesHolds(threads: nat, u: Usage, steps: seq<Action>)
    requires !u.writeLock
    ensures var r := Run(NextFor(u), Initial(AsWritten, threads), steps); r.Some? ==> OnlyTryWrites(r.value)
  {
    var s, next := Initial(AsWritten, threads), NextFor(u);
    SumZero(s.threads, IsReading);
    SumZero(s.threads, IsWriting);
    SumZero(s.threads, IsReadWaiting);
    assert OnlyTryWrites(s);
    hide OnlyTryWrites, Next;
    forall t, a | OnlyTryWrites(t) && next(t, a).Some? ensures OnlyTryWrites(next(t, a).value) {
      OnlyTryWritesStep(t, a);
    }
    Invariance(next, OnlyTryWrites, s, steps);
  }

  lemma AsWrittenIsSafe(threads: nat, u: Usage, steps: seq<Action>)
    requires threads <= 1 || !u.writeLock
    ensures var r := Run(NextFor(u), Initial(AsWritten, threads), steps);
      r.Some? ==> Exclusive(r.value) && !Stranded(r.value)
  {
    hide Exclusive, Stranded;
    if threads <= 1 {
      AloneIsSafe(threads, u, steps);
    } else {
      OnlyTryWritesHolds(threads, u, steps);
      var r := Run(NextFor(u), Initial(AsWritten, threads), steps);
      if r.Some? {
        InsideExcludes(r.value);
        OnlyTryWritesStrandsNobody(r.value);
      }
    }
  }

  lemma OnlyTryWritesStrandsNobody(s: State)
    requires OnlyTryWrites(s)
    ensures !Stranded(s)
  {
    if s.lock.wActive > 0 { var j := SumWitness(s.threads, IsWriting); }
  }

  /** At most one thread waits. */
  ghost predicate OneWaits(s: State)
  {
    forall i: nat, j: nat | i < |s.threads| && j < |s.threads| && i != j && Waits(s.threads[i]) ::
      !Waits(s.threads[j])
  }

  /** Of two threads, one waits only for the other. */
  lemma BlockedByOther(s: State, i: nat)
    requires ExactRepaired(s) && |s.threads| <= 2 && i < |s.threads| && s.threads[i].Idle?
    requires s.lock.rActive > 0 || s.lock.wActive > 0
    ensures forall j: nat | j < |s.threads| :: !Waits(s.threads[j])
  {
    var k := SumWitness(s.threads, if s.lock.wActive > 0 then IsWriting else IsReading);
    assert k != i;
  }

  lemma OthersWaitAsBefore(s: State, a: Action)
    requires Next(s, a).Some?
    ensures var r := Next(s, a).value;
      && |r.threads| == |s.threads|
      && forall j: nat | j < |r.threads| && j != a.thread :: Waits(r.threads[j]) ==> Waits(s.threads[j])
  {
  }

  lemma OneWaitsStep(s: State, a: Action)
    requires ExactRepaired(s) && OneWaits(s) && |s.threads| <= 2 && Next(s, a).Some?
    ensures OneWaits(Next(s, a).value)
  {
    var i, r := a.thread, Next(s, a).value;
    hide Exact, Sum;
    OthersWaitAsBefore(s, a);
    if Waits(r.threads[i]) && !Waits(s.threads[i]) { BlockedByOther(s, i); }
  }

  ghost predicate NeverLoses(u: Usage, threads: nat, s: State)
  {
    && ExactRepaired(s) && Handover(s) && |s.threads| == threads
    && (threads <= 2 ==> OneWaits(s))
    && (!u.writeLock ==> forall i: nat | i < |s.threads| :: !s.threads[i].WriteWait?)
  }

  lemma NeverLosesStep(u: Usage, threads: nat, s: State, a: Action)
    requires threads <= 2 || !u.cancel || !u.writeLock
    requires NeverLoses(u, threads, s) && u.Allows(a) && Next(s, a).Some?
    ensures NeverLoses(u, threads, Next(s, a).value)
  {
    hide Sum;
    ExactStep(s, a);
    if Loses(s, a) {
      var j := OtherWaiter(s, a.thread);
      assert false;
    }
    HandoverStep(s, a);
    if threads <= 2 { OneWaitsStep(s, a); }
  }

  lemma RepairedIsSafe(threads: nat, u: Usage, steps: seq<Action>)
    requires threads <= 2 || !u.cancel || !u.writeLock
    ensures var r := Run(NextFor(u), Initial(Repaired, threads), steps);
      r.Some? ==> ExactRepaired(r.value) && !Stranded(r.value)
  {
    hide ExactRepaired, Handover, Stranded;
    var s, next := Initial(Repaired, threads), NextFor(u);
    NewLockHandsOver(threads);
    var inv := (t: State) => NeverLoses(u, threads, t);
    forall t, a | inv(t) && next(t, a).Some? ensures inv(next(t, a).value) { NeverLosesStep(u, threads, t, a); }
    Invariance(next, inv, s, steps);
    var r := Run(next, s, steps);
    if r.Some? { HandoverStrandsNobody(r.value); }
  }

  /** Without cancellation: in every run, while nobody is active and somebody is counted as waiting,
      a waiter has been woken. */
  lemma NoLostWakeup(threads: nat, writeLock: bool, steps: seq<Action>)
    ensures var r := Run(NextFor(Usage(writeLock, false)), Initial(Repaired, threads), steps);
      r.Some? && r.value.lock.rActive == 0 && r.value.lock.wActive == 0
        && r.value.lock.rWait + r.value.lock.wWait > 0 ==>
          SomebodyAwake(r.value)
  {
    RepairedIsSafe(threads, Usage(writeLock, false), steps);
    var r := Run(NextFor(Usage(writeLock, false)), Initial(Repaired, threads), steps);
    if r.Some? { StrandedIffCounted(r.value); }
  }

  /** `front`, and as many idle threads as make up `n`. */
  function Padded(n: nat, front: seq<Pc>): (r: seq<Pc>)
    requires |front| <= n
    ensures |r| == n
  {
    front + seq(n - |front|, _ => Idle)
  }

  function Widened(n: nat, s: State): State
    requires |s.threads| <= n
  {
    s.(threads := Padded(n, s.threads))
  }

  lemma PaddedUpdate(n: nat, front: seq<Pc>, i: nat, pc: Pc)
    requires i < |front| <= n
    ensures Padded(n, front)[i := pc] == Padded(n, front[i := pc])
  {
  }

  lemma PaddedDeliver(n: nat, front: seq<Pc>, w: Wakeup, pick: nat)
    requires |front| <= n && Deliver(w, front, pick).Some?
    ensures Deliver(w, Padded(n, front), pick) == Some(Padded(n, Deliver(w, front, pick).value))
  {
    match w
    case Nobody =>
    case AllReaders =>
      assert Broadcast(Padded(n, front), WakeReader) == Padded(n, Broadcast(front, WakeReader));
    case OneWriter =>
      if pick < |front| { PaddedUpdate(n, front, pick, WakeWriter(front[pick])); }
  }

  /** A step of the first threads is a step while others stay idle. */
  lemma WidenedStep(n: nat, s: State, a: Action, r: State)
    requires a.thread < |s.threads| == |r.threads| <= n && Next(s, a) == Some(r)
    ensures Next(Widened(n, s), a) == Some(Widened(n, r))
  {
    var i := a.thread;
    assert Padded(n, s.threads)[i] == s.threads[i];
    match a
    case UnlockRead(_, pick) =>
      PaddedUpdate(n, s.threads, i, Idle);
      PaddedDeliver(n, s.threads[i := Idle], ReadUnlock(s.lock).1, pick);
    case UnlockWrite(_, pick) =>
      PaddedUpdate(n, s.threads, i, Idle);
      PaddedDeliver(n, s.threads[i := Idle], WriteUnlock(s.lock).1, pick);
    case _ => PaddedUpdate(n, s.threads, i, r.threads[i]);
  }

  /** One step more at the end of a run in which only the first threads move. */
  lemma Extend(n: nat, u: Usage, init: State, steps: seq<Action>, s: State, a: Action, r: State)
    requires a.thread < |s.threads| == |r.threads| <= n && u.Allows(a)
    requires Run(NextFor(u), init, steps) == Some(Widened(n, s))
    requires Next(s, a) == Some(r)
    ensures Run(NextFor(u), init, steps + [a]) == Some(Widened(n, r))
  {
    WidenedStep(n, s, a, r);
    RunSnoc(NextFor(u), init, steps, Widened(n, s), a);
  }

  /** As written: a second writer is let in beside the first. */
  lemma TwoWritersRun(n: nat, u: Usage) returns (steps: seq<Action>)
    requires n >= 2 && u.writeLock
    ensures var r := Run(NextFor(u), Initial(AsWritten, n), steps);
      r.Some? && |r.value.threads| == n && r.value.threads[0].Writing? && r.value.threads[1].Writing?
  {
    var init, s0 := Initial(AsWritten, n), Initial(AsWritten, 2);
    var s1 := s0.(threads := [Writing, Idle]);
    var s2 := s0.(threads := [Writing, Writing]);
    assert s0.threads[0 := Writing] == s1.threads && s1.threads[1 := Writing] == s2.threads;
    assert Widened(n, s0) == init;
    Extend(n, u, init, [], s0, LockWrite(0), s1);
    Extend(n, u, init, [LockWrite(0)], s1, LockWrite(1), s2);
    steps := [LockWrite(0)] + [LockWrite(1)];
  }

  lemma WriteUnlockWakes(s: State, r: State)
    requires s.threads != [] && s.threads[0].Writing? && s.lock.rWait > 0
    requires r == State(s.variant, s.lock.(wActive := 0), r.threads) && |r.threads| == |s.threads|
    requires r.threads[0].Idle? && forall i | 1 <= i < |s.threads| :: r.threads[i] == WakeReader(s.threads[i])
    ensures Next(s, UnlockWrite(0, 0)) == Some(r)
  {
    assert Broadcast(s.threads[0 := Idle], WakeReader) == r.threads;
  }

  /** As written: a reader waits for a writer and is woken ... */
  lemma ReaderWokenRun(n: nat, u: Usage) returns (steps: seq<Action>)
    requires n >= 2
    ensures forall a | a in steps :: !a.Cancel?
    ensures Run(NextFor(u), Initial(AsWritten, n), steps) ==
      Some(Widened(n, State(AsWritten, Fields(0, 0, 1, 0), [Idle, ReadWait(true)])))
  {
    var init := Initial(AsWritten, n);
    var s0 := State(AsWritten, Fields(0, 0, 0, 0), [Idle, Idle]);
    var s1 := State(AsWritten, Fields(0, 1, 0, 0), [Writing, Idle]);
    var s2 := State(AsWritten, Fields(0, 1, 1, 0), [Writing, ReadWait(false)]);
    var s3 := State(AsWritten, Fields(0, 0, 1, 0), [Idle, ReadWait(true)]);
    assert s0.threads[0 := Writing] == s1.threads && s1.threads[1 := ReadWait(false)] == s2.threads;
    WriteUnlockWakes(s2, s3);
    assert Widened(n, s0) == init;
    Extend(n, u, init, [], s0, TryWrite(0), s1);
    Extend(n, u, init, [TryWrite(0)], s1, LockRead(1), s2);
    Extend(n, u, init, [TryWrite(0)] + [LockRead(1)], s2, UnlockWrite(0, 0), s3);
    steps := [TryWrite(0)] + [LockRead(1)] + [UnlockWrite(0, 0)];
  }

  /** ... and is still counted in `r_wait` when it has come and gone. */
  lemma StaleReaderRun(n: nat, u: Usage) returns (steps: seq<Action>)
    requires n >= 2
    ensures forall a | a in steps :: !a.Cancel?
    ensures Run(NextFor(u), Initial(AsWritten, n), steps) ==
      Some(Widened(n, State(AsWritten, Fields(0, 0, 1, 0), [Idle, Idle])))
  {
    var init := Initial(AsWritten, n);
    var s0 := State(AsWritten, Fields(0, 0, 1, 0), [Idle, ReadWait(true)]);
    var s1 := State(AsWritten, Fields(1, 0, 1, 0), [Idle, Reading]);
    var s2 := State(AsWritten, Fields(0, 0, 1, 0), [Idle, Idle]);
    assert s0.threads[1 := Reading] == s1.threads && s1.threads[1 := Idle] == s2.threads;
    steps := ReaderWokenRun(n, u);
    Extend(n, u, init, steps, s0, Recheck(1), s1);
    Extend(n, u, init, steps + [Recheck(1)], s1, UnlockRead(1, 0), s2);
    steps := steps + [Recheck(1)] + [UnlockRead(1, 0)];
  }

  /** So a later unlock, in a run without a cancellation, broadcasts to no readers instead of
      signalling the writer that sleeps. */
  lemma WriterLeftAsleepRun(n: nat, u: Usage) returns (steps: seq<Action>)
    requires n >= 2 && u.writeLock
    ensures forall a | a in steps :: !a.Cancel?
    ensures var r := Run(NextFor(u), Initial(AsWritten, n), steps); r.Some? && Stranded(r.value)
  {
    var init := Initial(AsWritten, n);
    var s0 := State(AsWritten, Fields(0, 0, 1, 0), [Idle, Idle]);
    var s1 := State(AsWritten, Fields(0, 1, 1, 0), [Writing, Idle]);
    var s2 := State(AsWritten, Fields(0, 1, 1, 1), [Writing, WriteWait(false)]);
    var s3 := State(AsWritten, Fields(0, 0, 1, 1), [Idle, WriteWait(false)]);
    assert s0.threads[0 := Writing] == s1.threads && s1.threads[1 := WriteWait(false)] == s2.threads;
    WriteUnlockWakes(s2, s3);
    steps := StaleReaderRun(n, u);
    Extend(n, u, init, steps, s0, TryWrite(0), s1);
    Extend(n, u, init, steps + [TryWrite(0)], s1, LockWrite(1), s2);
    Extend(n, u, init, steps + [TryWrite(0)] + [LockWrite(1)], s2, UnlockWrite(0, 0), s3);
    steps := steps + [TryWrite(0)] + [LockWrite(1)] + [UnlockWrite(0, 0)];
    assert Waits(Widened(n, s3).threads[1]);
  }

  /** Repaired: a reader and a writer wait for a writer. */
  lemma ReaderAndWriterWaitRun(n: nat, u: Usage) returns (steps: seq<Action>)
    requires n >= 3 && u.writeLock
    ensures Run(NextFor(u), Initial(Repaired, n), steps) ==
      Some(Widened(n, State(Repaired, Fields(0, 1, 1, 1), [Writing, ReadWait(false), WriteWait(false)])))
  {
    var init := Initial(Repaired, n);
    var s0 := State(Repaired, Fields(0, 0, 0, 0), [Idle, Idle, Idle]);
    var s1 := State(Repaired, Fields(0, 1, 0, 0), [Writing, Idle, Idle]);
    var s2 := State(Repaired, Fields(0, 1, 1, 0), [Writing, ReadWait(false), Idle]);
    var s3 := State(Repaired, Fields(0, 1, 1, 1), [Writing, ReadWait(false), WriteWait(false)]);
    assert s0.threads[0 := Writing] == s1.threads && s1.threads[1 := ReadWait(false)] == s2.threads;
    assert s2.threads[2 := WriteWait(false)] == s3.threads;
    assert Widened(n, s0) == init;
    Extend(n, u, init, [], s0, LockWrite(0), s1);
    Extend(n, u, init, [LockWrite(0)], s1, LockRead(1), s2);
    Extend(n, u, init, [LockWrite(0)] + [LockRead(1)], s2, LockWrite(2), s3);
    steps := [LockWrite(0)] + [LockRead(1)] + [LockWrite(2)];
  }

  /** The reader is woken and cancelled, and the writer is left asleep on a free lock. */
  lemma CancelledReaderRun(n: nat, u: Usage) returns (steps: seq<Action>)
    requires n >= 3 && u.writeLock && u.cancel
    ensures var r := Run(NextFor(u), Initial(Repaired, n), steps); r.Some? && Stranded(r.value)
  {
    var init := Initial(Repaired, n);
    var s0 := State(Repaired, Fields(0, 1, 1, 1), [Writing, ReadWait(false), WriteWait(false)]);
    var s1 := State(Repaired, Fields(0, 0, 1, 1), [Idle, ReadWait(true), WriteWait(false)]);
    var s2 := State(Repaired, Fields(0, 0, 0, 1), [Idle, Idle, WriteWait(false)]);
    WriteUnlockWakes(s0, s1);
    assert s1.threads[1 := Idle] == s2.threads;
    steps := ReaderAndWriterWaitRun(n, u);
    Extend(n, u, init, steps, s0, UnlockWrite(0, 0), s1);
    Extend(n, u, init, steps + [UnlockWrite(0, 0)], s1, Cancel(1), s2);
    steps := steps + [UnlockWrite(0, 0)] + [Cancel(1)];
    assert Waits(Widened(n, s2).threads[2]);
  }

  /** A writer is alone inside, in every run: always when the lock is repaired; as written, exactly
      with clients that do not call rwl_writelock, or with no more than one thread. */
  lemma ExcludesIff(v: Variant, threads: nat, u: Usage)
    ensures (forall steps :: var r := Run(NextFor(u), Initial(v, threads), steps); r.Some? ==> Exclusive(r.value))
      <==> v.Repaired? || threads <= 1 || !u.writeLock
  {
    if v.Repaired? {
      forall steps | Run(NextFor(u), Initial(v, threads), steps).Some?
        ensures Exclusive(Run(NextFor(u), Initial(v, threads), steps).value)
      {
        AllowedRunIsRun(u, Initial(v, threads), steps);
        WriterExcludes(threads, steps);
      }
    } else if threads <= 1 || !u.writeLock {
      forall steps ensures var r := Run(NextFor(u), Initial(v, threads), steps); r.Some? ==> Exclusive(r.value) {
        AsWrittenIsSafe(threads, u, steps);
      }
    } else {
      var steps := TwoWritersRun(threads, u);
      assert Run(NextFor(u), Initial(v, threads), steps).Some?;
    }
  }

  lemma {:induction false} AllowedRunIsRun(u: Usage, s: State, steps: seq<Action>)
    requires Run(NextFor(u), s, steps).Some?
    ensures Run(Next, s, steps) == Run(NextFor(u), s, steps)
    decreases |steps|
  {
    if steps != [] { AllowedRunIsRun(u, Next(s, steps[0]).value, steps[1..]); }
  }

  /** No run leaves a thread asleep on a free lock with nobody woken to take it: repaired, exactly
      with no more than two threads, without cancellation, or without rwl_writelock; as written, exactly
      with no more than one thread, or without rwl_writelock. */
  lemma StrandsNobodyIff(v: Variant, threads: nat, u: Usage)
    ensures (forall steps :: var r := Run(NextFor(u), Initial(v, threads), steps); r.Some? ==> !Stranded(r.value))
      <==> !u.writeLock || (if v.Repaired? then threads <= 2 || !u.cancel else threads <= 1)
  {
    if v.Repaired? {
      if threads <= 2 || !u.cancel || !u.writeLock {
        forall steps ensures var r := Run(NextFor(u), Initial(v, threads), steps); r.Some? ==> !Stranded(r.value) {
          RepairedIsSafe(threads, u, steps);
        }
      } else {
        var steps := CancelledReaderRun(threads, u);
      }
    } else if threads <= 1 || !u.writeLock {
      forall steps ensures var r := Run(NextFor(u), Initial(v, threads), steps); r.Some? ==> !Stranded(r.value) {
        AsWrittenIsSafe(threads, u, steps);
      }
    } else {
      var steps := WriterLeftAsleepRun(threads, u);
    }
  }

  // ---------------------------------------------------------------- what each thread can do

  lemma SomePick(threads: seq<Pc>, w: Wakeup) returns (pick: nat)
    ensures Deliver(w, threads, pick).Some?
  {
    if j: nat :| j < |threads| && AsleepWriter(threads[j]) { pick := j; } else { pick := 0; }
  }

  /** A thread that holds nothing can ask for the lock, one that holds it can give it up, one that has been
      woken can look again, and one that waits can be cancelled, or be woken for nothing if it sleeps. */
  lemma WhoCanStep(s: State, i: nat)
    requires i < |s.threads|
    ensures Next(s, LockRead(i)).Some? <==> s.threads[i].Idle?
    ensures Next(s, TryRead(i)).Some? <==> s.threads[i].Idle?
    ensures Next(s, LockWrite(i)).Some? <==> s.threads[i].Idle?
    ensures Next(s, TryWrite(i)).Some? <==> s.threads[i].Idle?
    ensures (exists pick :: Next(s, UnlockRead(i, pick)).Some?) <==> s.threads[i].Reading?
    ensures (exists pick :: Next(s, UnlockWrite(i, pick)).Some?) <==> s.threads[i].Writing?
    ensures Next(s, Recheck(i)).Some? <==> Awake(s.threads[i])
    ensures Next(s, Spurious(i)).Some? <==> Waits(s.threads[i]) && !Awake(s.threads[i])
    ensures Next(s, Cancel(i)).Some? <==> Waits(s.threads[i])
  {
    hide Deliver;
    if s.threads[i].Reading? {
      var pick := SomePick(s.threads[i := Idle], ReadUnlock(s.lock).1);
      assert Next(s, UnlockRead(i, pick)).Some?;
    }
    if s.threads[i].Writing? {
      var pick := SomePick(s.threads[i := Idle], WriteUnlock(s.lock).1);
      assert Next(s, UnlockWrite(i, pick)).Some?;
    }
  }

  /** A wakeup for nothing changes nothing: the thread goes back to the wait that it was in. */
  lemma VainWakeup(s: State, i: nat)
    requires i < |s.threads| && Waits(s.threads[i]) && !Awake(s.threads[i])
    requires s.lock.wActive > 0 || (s.threads[i].WriteWait? && s.lock.rActive > 0)
    ensures Run(Next, s, [Spurious(i), Recheck(i)]) == Some(s)
  {
    var awake := Next(s, Spurious(i)).value;
    assert awake.threads[i := s.threads[i]] == s.threads;
    RunAlong(Next, [s, awake, s], [Spurious(i), Recheck(i)]);
  }
}
