/** thread_multijoin.c: the older form of the reaper.  Its scan marks every slot as joined and counts it,
    whether or not the thread had terminated; only terminated threads are joined. */
module Multijoin {
  import opened Counting
  import opened Pthreads
  import opened Runs

  datatype Status = Alive | Terminated | Joined

  datatype WorkerPc = WUnborn | WLock | WIncrement | WStore | WUnlock | WSignal | WExited

  datatype MainPc =
    | MCreate(idx: nat)
    | MSetLive                    // numLive gets the number of threads
    | MTest                       // the test of the outer loop, without the mutex
    | MLock
    | MTestUnjoined               // the test of the inner loop
    | MWait
    | MWaiting
    | MScan(idx: nat)
    | MJoin(idx: nat)
    | MStore(idx: nat)            // marking the slot
    | MCount(idx: nat)            // taking it off both counters
    | MUnlock
    | MExited

  datatype Act = Main | Worker(idx: nat) | Spurious

  datatype Config = Config(n: nat, spurious: bool)

  /** The last three fields only record history: completed passes, the table when the last scan began, and
      how often each thread was joined. */
  datatype State = State(
    main: MainPc, workers: seq<WorkerPc>, status: seq<Status>, numLive: int, numUnjoined: int, mon: Monitor,
    passes: nat, snapshot: seq<Status>, joins: seq<nat>)

  /** Worker i is thread i of the mutex, main is thread n. */
  predicate Shaped(n: nat, s: State) {
    |s.workers| == n && |s.status| == n && |s.snapshot| == n && |s.joins| == n
  }

  function Init(n: nat): State {
    State(MCreate(0), seq(n, _ => WUnborn), seq(n, _ => Alive), 0, 0, IDLE,
          0, seq(n, _ => Alive), seq(n, _ => 0))
  }

  function WorkerNext(n: nat, s: State, i: nat): Option<State>
    requires Shaped(n, s) && i < n
  {
    if s.main == MExited then None    // exit ends the process
    else match s.workers[i]
    case WUnborn => None
    case WLock =>
      (match Lock(s.mon, i)
       case None => None
       case Some(m) => Some(s.(workers := s.workers[i := WIncrement], mon := m)))
    case WIncrement => Some(s.(workers := s.workers[i := WStore], numUnjoined := s.numUnjoined + 1))
    case WStore => Some(s.(workers := s.workers[i := WUnlock], status := s.status[i := Terminated]))
    case WUnlock =>
      (match Unlock(s.mon, i)
       case None => None
       case Some(m) => Some(s.(workers := s.workers[i := WSignal], mon := m)))
    case WSignal => Some(s.(workers := s.workers[i := WExited], mon := Signal(s.mon)))
    case WExited => None
  }

  function MainNext(n: nat, s: State): Option<State>
    requires Shaped(n, s)
  {
    match s.main
    case MCreate(k) =>
      if k < n
      then Some(s.(main := MCreate(k + 1), workers := s.workers[k := WLock], status := s.status[k := Alive]))
      else Some(s.(main := MSetLive))
    case MSetLive => Some(s.(main := MTest, numLive := n))
    case MTest => Some(s.(main := if s.numLive > 0 then MLock else MExited))
    case MLock =>
      (match Lock(s.mon, n)
       case None => None
       case Some(m) => Some(s.(main := MTestUnjoined, mon := m)))
    case MTestUnjoined =>
      if s.numUnjoined == 0 then Some(s.(main := MWait))
      else Some(s.(main := MScan(0), snapshot := s.status))
    case MWait =>
      (match Wait(s.mon, n)
       case None => None
       case Some(m) => Some(s.(main := MWaiting, mon := m)))
    case MWaiting =>
      (match Relock(s.mon, n)
       case None => None
       case Some(m) => Some(s.(main := MTestUnjoined, mon := m)))
    case MScan(k) =>
      if k >= n then Some(s.(main := MUnlock))
      else Some(s.(main := if s.status[k] == Terminated then MJoin(k) else MStore(k)))
    case MJoin(k) =>
      if k < n && s.workers[k] == WExited
      then Some(s.(main := MStore(k), joins := s.joins[k := s.joins[k] + 1])) else None
    case MStore(k) => if k < n then Some(s.(main := MCount(k), status := s.status[k := Joined])) else None
    case MCount(k) => Some(s.(main := MScan(k + 1), numLive := s.numLive - 1, numUnjoined := s.numUnjoined - 1))
    case MUnlock =>
      (match Unlock(s.mon, n)
       case None => None
       case Some(m) => Some(s.(main := MTest, mon := m, passes := s.passes + 1)))
    case MExited => None
  }

  function Next(c: Config, s: State, a: Act): Option<State> {
    if !Shaped(c.n, s) then None
    else match a
      case Main => MainNext(c.n, s)
      case Worker(i) => if i < c.n then WorkerNext(c.n, s, i) else None
      case Spurious =>
        if !c.spurious then None
        else match WakeSpuriously(s.mon, c.n) case None => None case Some(m) => Some(s.(mon := m))
  }

  function System(c: Config): (State, Act) -> Option<State> {
    (s, a) => Next(c, s, a)
  }

  ghost predicate Reachable(c: Config, s: State) { Reaches(System(c), Init(c.n), s) }

  // ---------------------------------------------------------------------------------------------
  // The invariant
  // ---------------------------------------------------------------------------------------------

  predicate Asleep(n: nat, s: State) { s.mon.sleeper == Some(n) }

  predicate Scanning(m: MainPc) { m.MScan? || m.MJoin? || m.MStore? || m.MCount? || m == MUnlock }

  predicate MainOwns(m: MainPc) { m == MTestUnjoined || m == MWait || Scanning(m) }

  predicate WorkerOwns(w: WorkerPc) { w == WIncrement || w == WStore || w == WUnlock }

  ghost predicate OwnerInv(n: nat, s: State)
    requires Shaped(n, s)
  {
    && (s.mon.owner == Some(n) <==> MainOwns(s.main))
    && (forall i | 0 <= i < n :: s.mon.owner == Some(i) <==> WorkerOwns(s.workers[i]))
    && (s.mon.owner.Some? ==> s.mon.owner.value <= n)
    && (s.mon.sleeper.Some? ==> Asleep(n, s) && s.main == MWaiting)
  }

  function Created(n: nat, m: MainPc): nat {
    if m.MCreate? then m.idx else n
  }

  /** No pass is over: the program runs its only scan, or has not come to it. */
  predicate FirstPass(s: State) { s.passes == 0 && s.main != MExited }

  /** Slots scanned so far. */
  function Scanned(n: nat, m: MainPc): nat {
    match m
    case MScan(k) => k case MJoin(k) => k case MStore(k) => k case MCount(k) => k case MUnlock => n case _ => 0
  }

  ghost predicate PhaseInv(n: nat, s: State)
    requires Shaped(n, s)
  {
    && Created(n, s.main) <= n && Scanned(n, s.main) <= n
    && (forall i | 0 <= i < n :: s.workers[i] == WUnborn <==> i >= Created(n, s.main))
    && (s.main.MJoin? || s.main.MStore? || s.main.MCount? ==> s.main.idx < n)
    && (s.passes > 0 ==> s.main == MTest || s.main == MExited)
    && s.passes <= 1 && (s.passes > 0 ==> n > 0)
    && s.numLive == (if s.passes > 0 || s.main.MCreate? || s.main == MSetLive then 0 else n - Scanned(n, s.main))
    && (s.main == MLock || MainOwns(s.main) || s.main == MWaiting ==> n > 0)
    && (s.main == MExited ==> s.passes == if n > 0 then 1 else 0)
  }

  predicate StatusFits(w: WorkerPc, x: Status) {
    x == if w == WUnlock || w == WSignal || w == WExited then Terminated else Alive
  }

  predicate Marked(s: State, i: nat) {
    (s.main.MCount? && i == s.main.idx)
  }

  /** The scan leaves Joined behind it and, until it gets there, every slot tells what its thread did. */
  ghost predicate TableInv(n: nat, s: State)
    requires Shaped(n, s)
  {
    && (FirstPass(s) ==> forall i | 0 <= i < n ::
          if i < Scanned(n, s.main) || Marked(s, i) then s.status[i] == Joined
          else StatusFits(s.workers[i], s.status[i]))
    && (Scanning(s.main) ==> forall i | 0 <= i < n :: StatusFits(s.workers[i], s.snapshot[i]))
    && (s.main.MJoin? ==> s.main.idx < n && s.status[s.main.idx] == Terminated)
  }

  /** The scan has decided about slot i. */
  predicate Handled(n: nat, s: State, i: nat) {
    s.passes > 0 || i < Scanned(n, s.main) || ((s.main.MStore? || s.main.MCount?) && i == s.main.idx)
  }

  /** Exactly the threads that were terminated when the scan began are joined, each once. */
  ghost predicate JoinsInv(n: nat, s: State)
    requires Shaped(n, s)
  {
    forall i | 0 <= i < n :: s.joins[i] == if Handled(n, s, i) && s.snapshot[i] == Terminated then 1 else 0
  }

  /** There was somebody to join. */
  ghost predicate WorkInv(s: State) {
    Scanning(s.main) || s.passes > 0 ==> Terminated in s.snapshot
  }

  function Unstored(n: nat, s: State): int
    requires Shaped(n, s)
  {
    if s.mon.owner.Some? && s.mon.owner.value < n && s.workers[s.mon.owner.value] == WStore then 1 else 0
  }

  /** Before the scan the counter counts the table, but for a thread between its count and its store. */
  ghost predicate CounterInv(n: nat, s: State)
    requires Shaped(n, s)
  {
    && (FirstPass(s) && !Scanning(s.main) ==> s.numUnjoined == multiset(s.status)[Terminated] + Unstored(n, s))
    && (s.main == MWait ==> s.numUnjoined == 0)
  }

  /** The scan takes one off for every slot, terminated or not. */
  ghost predicate ScanInv(n: nat, s: State)
    requires Shaped(n, s)
  {
    Scanning(s.main) ==> s.numUnjoined == (multiset(s.snapshot)[Terminated] as int) - Scanned(n, s.main)
  }

  ghost predicate NoLostWakeup(n: nat, s: State)
    requires Shaped(n, s)
  {
    Asleep(n, s) ==> forall i | 0 <= i < n :: s.workers[i] != WExited
  }

  ghost predicate Inv(n: nat, s: State) {
    Shaped(n, s) && OwnerInv(n, s) && PhaseInv(n, s) && TableInv(n, s) && JoinsInv(n, s) && WorkInv(s)
    && CounterInv(n, s) && ScanInv(n, s) && NoLostWakeup(n, s)
  }

  lemma NextKeepsShape(c: Config, s: State, a: Act)
    requires Next(c, s, a).Some?
    ensures Shaped(c.n, s) && Shaped(c.n, Next(c, s, a).value)
  {
  }

  lemma WorkerKeepsOwnerInv(n: nat, s: State, i: nat)
    requires Shaped(n, s) && OwnerInv(n, s)
    requires i < n && WorkerNext(n, s, i).Some?
    ensures OwnerInv(n, WorkerNext(n, s, i).value)
  {
  }

  lemma MainKeepsOwnerInv(n: nat, s: State)
    requires Shaped(n, s) && OwnerInv(n, s) && PhaseInv(n, s)
    requires MainNext(n, s).Some?
    ensures OwnerInv(n, MainNext(n, s).value)
  {
  }

  lemma KeepsOwnerInv(c: Config, s: State, a: Act)
    requires Shaped(c.n, s) && OwnerInv(c.n, s) && PhaseInv(c.n, s)
    requires Next(c, s, a).Some?
    ensures OwnerInv(c.n, Next(c, s, a).value)
  {
    match a
    case Worker(i) => { hide OwnerInv, PhaseInv, WorkerNext; WorkerKeepsOwnerInv(c.n, s, i); }
    case Main => { hide OwnerInv, PhaseInv, MainNext; MainKeepsOwnerInv(c.n, s); }
    case Spurious =>
  }

  lemma WorkerKeepsPhaseInv(n: nat, s: State, i: nat)
    requires Shaped(n, s) && PhaseInv(n, s)
    requires i < n && WorkerNext(n, s, i).Some?
    ensures PhaseInv(n, WorkerNext(n, s, i).value)
  {
  }

  lemma MainKeepsPhaseInv(n: nat, s: State)
    requires Shaped(n, s) && PhaseInv(n, s)
    requires MainNext(n, s).Some?
    ensures PhaseInv(n, MainNext(n, s).value)
  {
  }

  lemma KeepsPhaseInv(c: Config, s: State, a: Act)
    requires Shaped(c.n, s) && PhaseInv(c.n, s)
    requires Next(c, s, a).Some?
    ensures PhaseInv(c.n, Next(c, s, a).value)
  {
    match a
    case Worker(i) => { hide PhaseInv, WorkerNext; WorkerKeepsPhaseInv(c.n, s, i); }
    case Main => { hide PhaseInv, MainNext; MainKeepsPhaseInv(c.n, s); }
    case Spurious =>
  }

  lemma WorkerKeepsTableInv(n: nat, s: State, i: nat)
    requires Shaped(n, s) && OwnerInv(n, s) && PhaseInv(n, s) && TableInv(n, s)
    requires i < n && WorkerNext(n, s, i).Some?
    ensures TableInv(n, WorkerNext(n, s, i).value)
  {
  }

  lemma MainKeepsTableInv(n: nat, s: State)
    requires Shaped(n, s) && OwnerInv(n, s) && PhaseInv(n, s) && TableInv(n, s)
    requires MainNext(n, s).Some?
    ensures TableInv(n, MainNext(n, s).value)
  {
    hide OwnerInv, Lock, Unlock, Wait, Relock;
    match s.main
    case MCreate(_) =>
    case MTestUnjoined => hide StatusFits;
    case MScan(_) => hide StatusFits;
    case MStore(_) => hide StatusFits;
    case _ => hide StatusFits;
  }

  /** What the scan reads in a slot is what the slot held when the scan began. */
  predicate ReadsSnapshot(n: nat, s: State)
    requires Shaped(n, s)
  {
    && (s.main.MScan? && s.main.idx < n ==> s.status[s.main.idx] == s.snapshot[s.main.idx])
    && (s.main.MJoin? ==> s.main.idx < n && s.snapshot[s.main.idx] == Terminated)
  }

  lemma ScanReadsSnapshot(n: nat, s: State)
    requires Shaped(n, s) && PhaseInv(n, s) && TableInv(n, s)
    ensures ReadsSnapshot(n, s)
  {
    if (s.main.MScan? || s.main.MJoin?) && s.main.idx < n {
      assert StatusFits(s.workers[s.main.idx], s.snapshot[s.main.idx]);
    }
  }

  lemma MainKeepsJoinsInv(n: nat, s: State)
    requires Shaped(n, s) && (s.passes > 0 ==> s.main == MTest || s.main == MExited) && ReadsSnapshot(n, s)
    requires JoinsInv(n, s) && MainNext(n, s).Some?
    ensures JoinsInv(n, MainNext(n, s).value)
  {
  }

  lemma KeepsJoinsInv(c: Config, s: State, a: Act)
    requires Shaped(c.n, s) && PhaseInv(c.n, s) && TableInv(c.n, s) && JoinsInv(c.n, s) && Next(c, s, a).Some?
    ensures JoinsInv(c.n, Next(c, s, a).value)
  {
    if a == Main {
      ScanReadsSnapshot(c.n, s);
      hide TableInv, JoinsInv;
      MainKeepsJoinsInv(c.n, s);
    } else {
      hide TableInv, PhaseInv;
    }
  }

  lemma KeepsWorkInv(c: Config, s: State, a: Act)
    requires Shaped(c.n, s) && OwnerInv(c.n, s) && PhaseInv(c.n, s) && CounterInv(c.n, s) && WorkInv(s)
    requires Next(c, s, a).Some?
    ensures WorkInv(Next(c, s, a).value)
  {
  }

  lemma WorkerKeepsCounterInv(n: nat, s: State, i: nat)
    requires Shaped(n, s) && OwnerInv(n, s) && TableInv(n, s) && CounterInv(n, s)
    requires i < n && WorkerNext(n, s, i).Some?
    ensures CounterInv(n, WorkerNext(n, s, i).value)
  {
  }

  lemma MainKeepsCounterInv(n: nat, s: State)
    requires Shaped(n, s) && CounterInv(n, s) && CreatesNext(n, s)
    requires MainNext(n, s).Some?
    ensures CounterInv(n, MainNext(n, s).value)
  {
    if s.main.MCreate? {
      var t := MainNext(n, s).value;
      assert t.status == s.status;
      assert Unstored(n, t) == Unstored(n, s);
    }
  }

  /** The thread that main is about to create has done nothing yet. */
  predicate CreatesNext(n: nat, s: State)
    requires Shaped(n, s)
  {
    s.main.MCreate? && s.main.idx < n ==> s.workers[s.main.idx] == WUnborn && s.status[s.main.idx] == Alive
  }

  lemma WorkerKeepsScanInv(n: nat, s: State, i: nat)
    requires Shaped(n, s) && OwnerInv(n, s) && ScanInv(n, s)
    requires i < n && WorkerNext(n, s, i).Some?
    ensures ScanInv(n, WorkerNext(n, s, i).value)
  {
  }

  lemma MainKeepsScanInv(n: nat, s: State)
    requires Shaped(n, s) && OwnerInv(n, s) && PhaseInv(n, s) && CounterInv(n, s) && ScanInv(n, s)
    requires MainNext(n, s).Some?
    ensures ScanInv(n, MainNext(n, s).value)
  {
  }

  lemma KeepsScanInv(c: Config, s: State, a: Act)
    requires Shaped(c.n, s) && OwnerInv(c.n, s) && PhaseInv(c.n, s) && CounterInv(c.n, s) && ScanInv(c.n, s)
    requires Next(c, s, a).Some?
    ensures ScanInv(c.n, Next(c, s, a).value)
  {
    match a
    case Worker(i) => { hide OwnerInv, PhaseInv, CounterInv, ScanInv, WorkerNext; WorkerKeepsScanInv(c.n, s, i); }
    case Main => { hide OwnerInv, PhaseInv, CounterInv, ScanInv, MainNext; MainKeepsScanInv(c.n, s); }
    case Spurious =>
  }

  lemma KeepsNoLostWakeup(c: Config, s: State, a: Act)
    requires Shaped(c.n, s) && OwnerInv(c.n, s) && PhaseInv(c.n, s) && TableInv(c.n, s) && CounterInv(c.n, s)
    requires NoLostWakeup(c.n, s) && Next(c, s, a).Some?
    ensures NoLostWakeup(c.n, Next(c, s, a).value)
  {
  }

  lemma KeepsTableInv(c: Config, s: State, a: Act)
    requires Shaped(c.n, s) && OwnerInv(c.n, s) && PhaseInv(c.n, s) && TableInv(c.n, s) && Next(c, s, a).Some?
    ensures TableInv(c.n, Next(c, s, a).value)
  {
    match a
    case Worker(i) => { hide OwnerInv, PhaseInv, TableInv; WorkerKeepsTableInv(c.n, s, i); }
    case Main => { hide OwnerInv, PhaseInv, TableInv; MainKeepsTableInv(c.n, s); }
    case Spurious =>
  }

  lemma KeepsCounterInv(c: Config, s: State, a: Act)
    requires Shaped(c.n, s) && OwnerInv(c.n, s) && PhaseInv(c.n, s) && TableInv(c.n, s) && CounterInv(c.n, s)
    requires Next(c, s, a).Some?
    ensures CounterInv(c.n, Next(c, s, a).value)
  {
    match a
    case Worker(i) => { hide OwnerInv, PhaseInv, TableInv, CounterInv; WorkerKeepsCounterInv(c.n, s, i); }
    case Main => {
      NextCreatedIsAlive(c.n, s);
      hide OwnerInv, PhaseInv, TableInv, CounterInv, CreatesNext, MainNext;
      MainKeepsCounterInv(c.n, s);
    }
    case Spurious =>
  }

  lemma NextCreatedIsAlive(n: nat, s: State)
    requires Shaped(n, s) && PhaseInv(n, s) && TableInv(n, s)
    ensures CreatesNext(n, s)
  {
    if s.main.MCreate? && s.main.idx < n {
      assert s.workers[s.main.idx] == WUnborn;
    }
  }

  lemma KeepsInv(c: Config, s: State, a: Act)
    requires Inv(c.n, s) && Next(c, s, a).Some?
    ensures Inv(c.n, Next(c, s, a).value)
  {
    hide Next, OwnerInv, PhaseInv, TableInv, JoinsInv, WorkInv, CounterInv, ScanInv, NoLostWakeup;
    NextKeepsShape(c, s, a);
    KeepsOwnerInv(c, s, a);
    KeepsPhaseInv(c, s, a);
    KeepsTableInv(c, s, a);
    KeepsJoinsInv(c, s, a);
    KeepsWorkInv(c, s, a);
    KeepsCounterInv(c, s, a);
    KeepsScanInv(c, s, a);
    KeepsNoLostWakeup(c, s, a);
  }

  /** Without spurious wakeups a woken main has somebody to join. */
  ghost predicate FairInv(n: nat, s: State) {
    Inv(n, s) && (s.main == MWaiting && !Asleep(n, s) ==> s.numUnjoined > 0)
  }

  lemma FairIsInv(n: nat, s: State)
    requires FairInv(n, s)
    ensures Inv(n, s)
  {
  }

  lemma SignallerIsCounted(n: nat, s: State, i: nat)
    requires Inv(n, s) && i < n && s.workers[i] == WSignal && s.main == MWaiting
    ensures s.numUnjoined > 0
  {
    hide JoinsInv, WorkInv, ScanInv, NoLostWakeup;
    assert StatusFits(s.workers[i], s.status[i]);
    assert s.status[i] in s.status;
  }

  lemma KeepsFairInv(c: Config, s: State, a: Act)
    requires FairInv(c.n, s) && !c.spurious && Next(c, s, a).Some?
    ensures FairInv(c.n, Next(c, s, a).value)
  {
    KeepsInv(c, s, a);
    if a.Worker? && s.workers[a.idx] == WSignal && s.main == MWaiting {
      SignallerIsCounted(c.n, s, a.idx);
    }
    MainStillHasWork(c, s, a);
  }

  lemma MainStillHasWork(c: Config, s: State, a: Act)
    requires FairInv(c.n, s) && !c.spurious && Next(c, s, a).Some?
    requires a.Worker? && s.workers[a.idx] == WSignal && s.main == MWaiting ==> s.numUnjoined > 0
    ensures var t := Next(c, s, a).value; t.main == MWaiting && !Asleep(c.n, t) ==> t.numUnjoined > 0
  {
    hide OwnerInv, PhaseInv, TableInv, JoinsInv, WorkInv, CounterInv, ScanInv, NoLostWakeup;
  }

  lemma InitInv(n: nat)
    ensures FairInv(n, Init(n))
  {
    var st := Init(n).status;
    assert forall x | x in st :: x == Alive;
    assert multiset(st)[Terminated] == 0;
  }

  lemma RunKeepsInv(c: Config, s: State, t: State)
    requires Inv(c.n, s) && Reaches(System(c), s, t)
    ensures Inv(c.n, t)
  {
    hide Inv, Next;
    var sched: seq<Act> :| Exec(System(c), s, sched) == Some(t);
    forall u: State, a: Act | Inv(c.n, u) && System(c)(u, a).Some? ensures Inv(c.n, System(c)(u, a).value) {
      KeepsInv(c, u, a);
    }
    InvariantHolds(System(c), u => Inv(c.n, u), s, sched);
  }

  lemma ReachableInv(c: Config, s: State)
    requires Reachable(c, s)
    ensures Inv(c.n, s)
  {
    InitInv(c.n);
    FairIsInv(c.n, Init(c.n));
    RunKeepsInv(c, Init(c.n), s);
  }

  // ---------------------------------------------------------------------------------------------
  // What holds over every run
  // ---------------------------------------------------------------------------------------------

  /** A completed run made exactly one pass (none without threads), and joined, once each, exactly the
      threads that were terminated when its scan began; there was at least one. */
  lemma CompletedRun(c: Config, s: State)
    requires Reachable(c, s) && s.main == MExited
    ensures s.passes == (if c.n > 0 then 1 else 0) && s.numLive == 0 && Shaped(c.n, s)
    ensures c.n > 0 ==> Terminated in s.snapshot
    ensures forall i | 0 <= i < c.n :: s.joins[i] == if s.snapshot[i] == Terminated then 1 else 0
  {
    ReachableInv(c, s);
    hide OwnerInv, TableInv, CounterInv, ScanInv, NoLostWakeup;
  }

  function NeverJoined(s: State): set<nat> { set i: nat | i < |s.joins| && s.joins[i] == 0 }

  /** At the end of the scan nobody counts as live, and the other counter has gone below zero by one for
      every thread that was not joined. */
  lemma CountersAfterScan(c: Config, s: State)
    requires Reachable(c, s) && s.main == MUnlock
    ensures s.numLive == 0 && -s.numUnjoined == |NeverJoined(s)| < c.n
  {
    ReachableInv(c, s);
    OtherPositions(s.snapshot, Terminated);
    hide OwnerInv, TableInv, CounterInv, NoLostWakeup;
    assert NeverJoined(s) == PositionsOfOthers(s.snapshot, Terminated);
    assert multiset(s.snapshot)[Terminated] > 0;
  }

  predicate HasTerminated(w: WorkerPc) { w == WUnlock || w == WSignal || w == WExited }

  function TerminatedNotJoined(s: State): set<nat> {
    set i: nat | i < |s.joins| && s.joins[i] == 0 && i < |s.workers| && HasTerminated(s.workers[i])
  }

  /** What the comments at the two declarations say the counters count. */
  predicate CommentsHold(s: State) {
    s.numLive == |NeverJoined(s)| && s.numUnjoined == |TerminatedNotJoined(s)|
  }

  /** They stay true through the scan only when every thread had terminated by then. */
  lemma CommentsHoldIff(c: Config, s: State)
    requires Reachable(c, s) && s.main == MUnlock
    ensures CommentsHold(s) <==> forall i | 0 <= i < |s.snapshot| :: s.snapshot[i] == Terminated
  {
    CountersAfterScan(c, s);
    ReachableInv(c, s);
    hide OwnerInv, CounterInv, NoLostWakeup, ScanInv;
    if forall i | 0 <= i < |s.snapshot| :: s.snapshot[i] == Terminated {
      assert NeverJoined(s) == {};
      assert TerminatedNotJoined(s) == {};
    } else {
      var i: nat :| i < |s.snapshot| && s.snapshot[i] != Terminated;
      assert i in NeverJoined(s);
    }
  }

  /** Before the scan, whenever the mutex is free, both comments are true. */
  lemma CountersBeforeScan(c: Config, s: State)
    requires Reachable(c, s) && s.mon.owner == None && s.passes == 0 && s.main != MExited
    ensures s.numUnjoined == multiset(s.status)[Terminated]
    ensures !s.main.MCreate? && s.main != MSetLive ==> s.numLive == c.n
  {
    ReachableInv(c, s);
    hide TableInv, JoinsInv, WorkInv, ScanInv, NoLostWakeup;
  }

  /** And at every moment: a thread is counted before its status is stored, and the scan marks a slot before
      it counts it. */
  lemma CountersAlways(c: Config, s: State)
    requires Reachable(c, s) && s.passes == 0 && s.main != MExited
    ensures var storing := s.mon.owner.Some? && s.mon.owner.value < |s.workers|
                           && s.workers[s.mon.owner.value] == WStore;
      !Scanning(s.main) ==> s.numUnjoined == multiset(s.status)[Terminated] + if storing then 1 else 0
    ensures Scanning(s.main) ==> s.numUnjoined == (multiset(s.snapshot)[Terminated] as int) - (c.n - s.numLive)
    ensures s.main.MCount? ==> s.main.idx < |s.status| && s.status[s.main.idx] == Joined
    ensures s.main.MCount? ==> s.numLive == c.n - s.main.idx
  {
    ReachableInv(c, s);
    hide JoinsInv, WorkInv, NoLostWakeup;
  }

  /** Threads are created one by one, all before numLive is set. */
  lemma CreatedOneByOne(c: Config, s: State)
    requires Reachable(c, s)
    ensures Shaped(c.n, s)
    ensures forall i | 0 <= i < c.n :: s.workers[i] == WUnborn <==> i >= Created(c.n, s.main)
    ensures s.main.MCreate? || s.main == MSetLive ==> s.numLive == 0
  {
    ReachableInv(c, s);
    hide OwnerInv, TableInv, JoinsInv, WorkInv, CounterInv, ScanInv, NoLostWakeup;
  }

  /** Nobody waits except for the mutex while another has it, for a signal, or for the end of a thread that
      is joined; and who waited for the mutex has it then. */
  lemma WhoCanMove(c: Config, s: State, a: Act)
    requires Reachable(c, s)
    ensures Shaped(c.n, s)
    ensures Next(c, s, a).Some? <==>
      match a
      case Main =>
        && s.main != MExited && (s.main == MLock || s.main == MWaiting ==> s.mon.owner == None)
        && (s.main == MWaiting ==> !Asleep(c.n, s))
        && (s.main.MJoin? ==> s.main.idx < c.n && s.workers[s.main.idx] == WExited)
      case Worker(i) =>
        && i < c.n && s.main != MExited && s.workers[i] != WUnborn && s.workers[i] != WExited
        && (s.workers[i] == WLock ==> s.mon.owner == None)
      case Spurious => c.spurious && Asleep(c.n, s)
    ensures a == Main && (s.main == MLock || s.main == MWaiting) && Next(c, s, a).Some? ==>
      Next(c, s, a).value.mon.owner == Some(c.n)
    ensures a.Worker? && a.idx < c.n && s.workers[a.idx] == WLock && Next(c, s, a).Some? ==>
      Next(c, s, a).value.mon.owner == Some(a.idx)
    ensures a == Spurious && Next(c, s, a).Some? ==> Next(c, s, a).value == s.(mon := s.mon.(sleeper := None))
  {
    ReachableInv(c, s);
    hide TableInv, JoinsInv, WorkInv, CounterInv, ScanInv, NoLostWakeup;
    match a
    case Main => hide WorkerNext;
    case Worker(i) => hide MainNext, PhaseInv;
    case Spurious => hide MainNext, WorkerNext;
  }

  /** Notes of an observer: completed passes; the table when a scan began; and calls of pthread_join that
      returned, for each thread. */
  function NotePass(passes: nat, s: State, a: Act): nat {
    if a == Main && s.main == MUnlock then passes + 1 else passes
  }

  function NoteStart(start: seq<Status>, s: State, a: Act): seq<Status> {
    if a == Main && s.main == MTestUnjoined && s.numUnjoined != 0 then s.status else start
  }

  function NoteJoin(joins: seq<nat>, s: State, a: Act): seq<nat> {
    if a == Main && s.main.MJoin? && s.main.idx < |joins|
    then joins[s.main.idx := joins[s.main.idx] + 1] else joins
  }

  /** What the theorems say of passes, joins and the start of the scan is about what happened in the run. */
  lemma HistoryIsTrue(c: Config, sched: seq<Act>)
    requires Exec(System(c), Init(c.n), sched).Some?
    ensures var s, t := Init(c.n), Exec(System(c), Init(c.n), sched).value;
      && t.passes == Recorded(System(c), NotePass, 0, s, sched)
      && t.snapshot == Recorded(System(c), NoteStart, s.status, s, sched)
      && t.joins == Recorded(System(c), NoteJoin, seq(c.n, _ => 0), s, sched)
  {
    var next := System(c);
    var shaped := (s: State) => Shaped(c.n, s);
    forall s: State, a: Act | next(s, a).Some?
      ensures Shaped(c.n, next(s, a).value)
      ensures next(s, a).value.passes == NotePass(s.passes, s, a)
      ensures next(s, a).value.snapshot == NoteStart(s.snapshot, s, a)
      ensures next(s, a).value.joins == NoteJoin(s.joins, s, a)
    {
    }
    hide Next, NotePass, NoteStart, NoteJoin;
    IsRecord(next, shaped, (s: State) => s.passes, NotePass, Init(c.n), sched);
    IsRecord(next, shaped, (s: State) => s.snapshot, NoteStart, Init(c.n), sched);
    IsRecord(next, shaped, (s: State) => s.joins, NoteJoin, Init(c.n), sched);
  }

  // ---------------------------------------------------------------------------------------------
  // Never stuck, and every run ends
  // ---------------------------------------------------------------------------------------------

  lemma OwnerCanMove(c: Config, s: State) returns (a: Act)
    requires Inv(c.n, s) && s.main != MExited && s.mon.owner.Some?
    ensures a != Spurious && Next(c, s, a).Some?
  {
    hide JoinsInv, WorkInv, CounterInv, ScanInv, NoLostWakeup;
    var k := s.mon.owner.value;
    if k < c.n {
      a := Worker(k);
    } else if s.main.MJoin? && s.workers[s.main.idx] != WExited {
      var i := s.main.idx;
      assert StatusFits(s.workers[i], s.status[i]);
      assert s.mon.owner == Some(i) <==> WorkerOwns(s.workers[i]);
      a := Worker(i);
    } else {
      a := Main;
    }
  }

  /** Until main exits some thread can step, without the help of a spurious wakeup. */
  lemma SomeThreadCanMove(c: Config, s: State) returns (a: Act)
    requires Inv(c.n, s) && s.main != MExited
    ensures a != Spurious && Next(c, s, a).Some?
  {
    hide TableInv, JoinsInv, WorkInv, CounterInv, ScanInv;
    if s.mon.owner.Some? {
      a := OwnerCanMove(c, s);
    } else if i: nat :| i < c.n && s.workers[i] != WUnborn && s.workers[i] != WExited {
      assert s.mon.owner == Some(i) <==> WorkerOwns(s.workers[i]);
      a := Worker(i);
    } else {
      assert s.main == MWaiting ==> s.workers[0] == WExited;
      a := Main;
    }
  }

  lemma NeverStuck(c: Config, s: State)
    requires Reachable(c, s)
    ensures s.main == MExited || exists a :: a != Spurious && Next(c, s, a).Some?
  {
    ReachableInv(c, s);
    hide Inv, Next;
    if s.main != MExited {
      var a := SomeThreadCanMove(c, s);
    }
  }

  function WorkerRank(w: WorkerPc): nat {
    match w
    case WUnborn => 6 case WLock => 5 case WIncrement => 4 case WStore => 3 case WUnlock => 2 case WSignal => 1
    case WExited => 0
  }

  function Left(n: nat, k: nat): nat { if k <= n then 4 * (n - k) else 0 }

  function MainRank(n: nat, s: State): nat {
    match s.main
    case MCreate(k) => 4 * n + 13 + Left(n, k)
    case MSetLive => 4 * n + 12
    case MTest => if s.numLive > 0 then 4 * n + 11 else 1
    case MLock => 4 * n + 10
    case MTestUnjoined => if s.numUnjoined == 0 then 4 * n + 9 else 4 * n + 5
    case MWait => 4 * n + 8
    case MWaiting => if Asleep(n, s) then 4 * n + 7 else 4 * n + 6
    case MScan(k) => Left(n, k) + 3
    case MJoin(k) => Left(n, k) + 2
    case MStore(k) => Left(n, k) + 1
    case MCount(k) => Left(n, k)
    case MUnlock => 2
    case MExited => 0
  }

  function Measure(n: nat, s: State): nat { MainRank(n, s) + Worth(s.workers, WorkerRank) }

  lemma MainDecreases(n: nat, s: State)
    requires Shaped(n, s) && PhaseInv(n, s) && MainNext(n, s).Some?
    requires s.main == MWaiting && !Asleep(n, s) ==> s.numUnjoined > 0
    ensures Measure(n, MainNext(n, s).value) < Measure(n, s)
  {
    hide Worth;
    if s.main.MCreate? && s.main.idx < n {
      WorthUpdate(s.workers, WorkerRank, s.main.idx, WLock);
    }
  }

  lemma WorkerDecreases(n: nat, s: State, i: nat)
    requires Shaped(n, s) && OwnerInv(n, s) && i < n && WorkerNext(n, s, i).Some?
    ensures Measure(n, WorkerNext(n, s, i).value) < Measure(n, s)
  {
    hide Worth;
    assert s.mon.owner == Some(i) <==> WorkerOwns(s.workers[i]);
    WorthUpdate(s.workers, WorkerRank, i, WorkerNext(n, s, i).value.workers[i]);
  }

  lemma MeasureDecreases(c: Config, s: State, a: Act)
    requires FairInv(c.n, s) && !c.spurious && Next(c, s, a).Some?
    ensures Measure(c.n, Next(c, s, a).value) < Measure(c.n, s)
  {
    hide OwnerInv, PhaseInv, TableInv, JoinsInv, WorkInv, CounterInv, ScanInv, NoLostWakeup, Measure;
    match a
    case Main => { hide MainNext; MainDecreases(c.n, s); }
    case Worker(i) => { hide WorkerNext; WorkerDecreases(c.n, s, i); }
    case Spurious =>
  }

  lemma InitMeasure(n: nat)
    ensures Measure(n, Init(n)) == 14 * n + 13
  {
    WorthOfConstant(n, WorkerRank, WUnborn);
  }

  /** Without spurious wakeups no run is longer than this, whatever the interleaving. */
  lemma RunsAreFinite(n: nat, sched: seq<Act>)
    requires Exec(System(Config(n, false)), Init(n), sched).Some?
    ensures |sched| <= 14 * n + 13
  {
    var c := Config(n, false);
    InitInv(n);
    InitMeasure(n);
    hide FairInv, Measure, Next, Init;
    forall s: State, a: Act | FairInv(n, s) && System(c)(s, a).Some?
      ensures FairInv(n, System(c)(s, a).value) && Measure(n, System(c)(s, a).value) < Measure(n, s)
    {
      KeepsFairInv(c, s, a);
      MeasureDecreases(c, s, a);
    }
    ScheduleIsBounded(System(c), s => FairInv(n, s), s => Measure(n, s), Init(n), sched);
  }

  // ---------------------------------------------------------------------------------------------
  // Which threads a run may join, and when the comments fail
  // ---------------------------------------------------------------------------------------------

  /** The threads in J have exited, the others wait to take the mutex, and nobody has it. */
  ghost predicate Exited(n: nat, s: State, J: set<nat>) {
    && Inv(n, s) && s.main == MLock && s.mon == IDLE && s.passes == 0
    && forall i: nat | i < n :: s.workers[i] == if i in J then WExited else WLock
  }

  lemma MainMoves(c: Config, s: State) returns (t: State)
    requires Inv(c.n, s) && MainNext(c.n, s).Some? && (s.main == MWaiting && !Asleep(c.n, s) ==> s.numUnjoined > 0)
    ensures t == MainNext(c.n, s).value && Inv(c.n, t) && Measure(c.n, t) < Measure(c.n, s)
    ensures Reaches(System(c), s, t)
  {
    t := MainNext(c.n, s).value;
    assert Next(c, s, Main) == Some(t);
    ReachesStep(System(c), s, Main, t);
    MainDecreases(c.n, s);
    hide Inv;
    KeepsInv(c, s, Main);
  }

  /** Main creates all threads before any of them moves. */
  lemma {:induction false} CreatesAll(c: Config, s: State) returns (t: State)
    requires Inv(c.n, s) && c.n > 0 && s.mon == IDLE && s.passes == 0
    requires s.main.MCreate? || s.main == MSetLive || s.main == MTest || s.main == MLock
    requires forall i: nat | i < c.n :: s.workers[i] == WUnborn || s.workers[i] == WLock
    ensures Reaches(System(c), s, t) && Exited(c.n, t, {})
    decreases Measure(c.n, s)
  {
    hide OwnerInv, TableInv, JoinsInv, WorkInv, CounterInv, ScanInv, NoLostWakeup, Measure;
    if s.main == MLock {
      t := s;
      ReachesSelf(System(c), s);
    } else {
      var u := MainMoves(c, s);
      t := CreatesAll(c, u);
      ReachesTrans(System(c), s, u, t);
    }
  }

  /** Thread i runs from its lock to its signal. */
  lemma OneStores(c: Config, s: State, i: nat) returns (t: State)
    requires Inv(c.n, s) && i < c.n && s.workers[i] == WLock && s.mon.owner == None && s.main != MExited
    ensures Reaches(System(c), s, t) && Inv(c.n, t) && Shaped(c.n, t) && t.workers == s.workers[i := WSignal]
    ensures t.main == s.main && t.mon == s.mon && t.passes == s.passes && t.numUnjoined == s.numUnjoined + 1
  {
    var next := System(c);
    var s1 := s.(workers := s.workers[i := WIncrement], mon := s.mon.(owner := Some(i)));
    var s2 := s1.(workers := s1.workers[i := WStore], numUnjoined := s.numUnjoined + 1);
    var s3 := s2.(workers := s2.workers[i := WUnlock], status := s2.status[i := Terminated]);
    t := s3.(workers := s3.workers[i := WSignal], mon := s.mon);
    hide OwnerInv, PhaseInv, TableInv, JoinsInv, WorkInv, CounterInv, ScanInv, NoLostWakeup;
    ReachesStep(next, s, Worker(i), s1);
    ReachesThen(next, s, s1, Worker(i), s2);
    ReachesThen(next, s, s2, Worker(i), s3);
    ReachesThen(next, s, s3, Worker(i), t);
    RunKeepsInv(c, s, t);
    assert t.workers == s.workers[i := WSignal];
  }

  /** And to its end. */
  lemma OneExits(c: Config, s: State, J: set<nat>, i: nat) returns (t: State)
    requires Exited(c.n, s, J) && i < c.n && i !in J
    ensures Reaches(System(c), s, t) && Exited(c.n, t, J + {i})
  {
    var u := OneStores(c, s, i);
    hide OwnerInv, PhaseInv, TableInv, JoinsInv, WorkInv, CounterInv, ScanInv, NoLostWakeup;
    t := u.(workers := u.workers[i := WExited]);
    ReachesThen(System(c), s, u, Worker(i), t);
    RunKeepsInv(c, s, t);
  }

  lemma {:induction false} SomeExit(c: Config, s: State, J: set<nat>) returns (t: State)
    requires Exited(c.n, s, {}) && forall i | i in J :: i < c.n
    ensures Reaches(System(c), s, t) && Exited(c.n, t, J)
    decreases |J|
  {
    hide Exited;
    if i :| i in J {
      var u := SomeExit(c, s, J - {i});
      t := OneExits(c, u, J - {i}, i);
      ReachesTrans(System(c), s, u, t);
      assert J - {i} + {i} == J;
    } else {
      t := s;
      ReachesSelf(System(c), s);
      assert J == {};
    }
  }

  /** Main scans while nobody else moves. */
  lemma {:induction false} ScansAlone(c: Config, s: State) returns (t: State)
    requires Inv(c.n, s) && s.passes == 0 && (Scanning(s.main) || s.main == MTestUnjoined)
    requires forall i: nat | i < c.n :: s.workers[i] == WExited || s.workers[i] == WLock
    requires s.main == MTestUnjoined ==> s.numUnjoined > 0
    ensures Reaches(System(c), s, t) && Inv(c.n, t) && t.main == MUnlock && t.passes == 0 && t.workers == s.workers
    decreases Measure(c.n, s)
  {
    hide OwnerInv, JoinsInv, WorkInv, CounterInv, ScanInv, NoLostWakeup, Measure;
    if s.main == MUnlock {
      t := s;
      ReachesSelf(System(c), s);
    } else {
      var u := MainMoves(c, s);
      t := ScansAlone(c, u);
      ReachesTrans(System(c), s, u, t);
    }
  }

  /** Every nonempty set of threads is joined by some run: s is its state at the end of the scan, t at the
      end of the process. */
  lemma AnySetCanBeJoined(n: nat, J: set<nat>) returns (s: State, t: State)
    requires J != {} && forall i | i in J :: i < n
    ensures Reachable(Config(n, false), s) && s.main == MUnlock && Shaped(n, s)
    ensures forall i: nat | i < n :: s.joins[i] == if i in J then 1 else 0
    ensures Reaches(System(Config(n, false)), s, t) && t.main == MExited && t.joins == s.joins
  {
    var c := Config(n, false);
    var s0 := AllCreated(c);
    hide Inv, Init, Exited;
    var s1 := SomeExit(c, s0, J);
    ReachesTrans(System(c), Init(n), s0, s1);
    s := ScansAfter(c, s1, J);
    ReachesTrans(System(c), Init(n), s1, s);
    JoinedAre(n, s, J);
    CountersAfterScan(c, s);
    t := ExitsAfter(c, s);
  }

  lemma ScansAfter(c: Config, s: State, J: set<nat>) returns (t: State)
    requires Exited(c.n, s, J) && J != {} && forall i | i in J :: i < c.n
    ensures Reaches(System(c), s, t) && Inv(c.n, t) && t.main == MUnlock && t.passes == 0
    ensures Shaped(c.n, t) && forall i: nat | i < c.n :: t.workers[i] == if i in J then WExited else WLock
  {
    SomebodyCounted(c.n, s, J);
    hide OwnerInv, PhaseInv, TableInv, JoinsInv, WorkInv, CounterInv, ScanInv, NoLostWakeup, Measure;
    var u := MainMoves(c, s);
    t := ScansAlone(c, u);
    ReachesTrans(System(c), s, u, t);
  }

  lemma ExitsAfter(c: Config, s: State) returns (t: State)
    requires Inv(c.n, s) && s.main == MUnlock && s.numLive == 0
    ensures Reaches(System(c), s, t) && t.main == MExited && t.joins == s.joins
  {
    hide PhaseInv, TableInv, JoinsInv, WorkInv, CounterInv, ScanInv, NoLostWakeup, Measure;
    var u := MainMoves(c, s);
    t := MainMoves(c, u);
    ReachesTrans(System(c), s, u, t);
  }

  lemma SomebodyCounted(n: nat, s: State, J: set<nat>)
    requires Exited(n, s, J) && J != {} && forall i | i in J :: i < n
    ensures s.numUnjoined > 0
  {
    hide JoinsInv, WorkInv, ScanInv, NoLostWakeup;
    var i :| i in J;
    assert StatusFits(s.workers[i], s.status[i]);
    assert Terminated in multiset(s.status);
  }

  lemma JoinedAre(n: nat, s: State, J: set<nat>)
    requires Inv(n, s) && s.main == MUnlock && s.passes == 0
    requires forall i: nat | i < n :: s.workers[i] == if i in J then WExited else WLock
    ensures forall i: nat | i < n :: s.joins[i] == if i in J then 1 else 0
  {
    hide OwnerInv, WorkInv, CounterInv, ScanInv, NoLostWakeup;
    assert forall i | 0 <= i < n :: StatusFits(s.workers[i], s.snapshot[i]);
  }

  /** Main alone comes to join thread i, which has still to signal while the others wait for the mutex. */
  lemma {:induction false} MainReachesJoin(c: Config, s: State, i: nat) returns (t: State)
    requires Inv(c.n, s) && i < c.n && s.passes == 0 && s.mon.owner == if s.main == MLock then None else Some(c.n)
    requires forall k: nat | k < c.n :: s.workers[k] == if k == i then WSignal else WLock
    requires
      || ((s.main == MLock || s.main == MTestUnjoined) && s.numUnjoined > 0)
      || (Scanning(s.main) && Scanned(c.n, s.main) <= i && (s.main.MStore? || s.main.MCount? ==> s.main.idx < i))
    ensures Reaches(System(c), s, t) && t.main == MJoin(i) && t.workers == s.workers && t.mon.owner == Some(c.n)
    ensures Shaped(c.n, t)
    decreases Measure(c.n, s)
  {
    hide OwnerInv, JoinsInv, WorkInv, CounterInv, ScanInv, NoLostWakeup, Measure;
    if s.main == MJoin(i) {
      t := s;
      ReachesSelf(System(c), s);
    } else {
      assert s.main.MJoin? ==> StatusFits(s.workers[s.main.idx], s.status[s.main.idx]);
      var u := MainMoves(c, s);
      t := MainReachesJoin(c, u, i);
      ReachesTrans(System(c), s, u, t);
    }
  }

  /** For every thread some run has main in pthread_join for it, with the mutex, while it has still to signal. */
  lemma JoinMeetsSignaller(n: nat, i: nat) returns (s: State)
    requires i < n
    ensures Reachable(Config(n, false), s) && Shaped(n, s)
    ensures s.main == MJoin(i) && s.mon.owner == Some(n) && s.workers[i] == WSignal
  {
    var c := Config(n, false);
    var s0 := AllCreated(c);
    NothingCounted(n, s0);
    var s1 := OneStores(c, s0, i);
    hide Inv, Init, Exited;
    ReachesTrans(System(c), Init(n), s0, s1);
    s := MainReachesJoin(c, s1, i);
    ReachesTrans(System(c), Init(n), s1, s);
  }

  lemma AllCreated(c: Config) returns (t: State)
    requires c.n > 0
    ensures Reachable(c, t) && Exited(c.n, t, {})
  {
    InitInv(c.n);
    FairIsInv(c.n, Init(c.n));
    t := CreatesAll(c, Init(c.n));
  }

  /** For every thread some run has main asleep while it, terminated and counted, is at its signal; which wakes
      main. */
  lemma SleepsUntilSignalled(n: nat, i: nat) returns (s: State, t: State)
    requires i < n
    ensures Reachable(Config(n, false), s) && Shaped(n, s) && s.numUnjoined == 1
    ensures s.main == MWaiting && Asleep(n, s) && s.workers[i] == WSignal && s.mon.owner == None
    ensures Next(Config(n, false), s, Worker(i)) == Some(t) && !Asleep(n, t)
  {
    var c := Config(n, false);
    var s0 := AllCreated(c);
    NothingCounted(n, s0);
    var s1 := FallsAsleep(c, s0);
    ReachesTrans(System(c), Init(n), s0, s1);
    s := OneStores(c, s1, i);
    hide Inv, Init, Exited;
    ReachesTrans(System(c), Init(n), s1, s);
    t := s.(workers := s.workers[i := WExited], mon := IDLE);
  }

  lemma FallsAsleep(c: Config, s: State) returns (t: State)
    requires Exited(c.n, s, {}) && s.numUnjoined == 0
    ensures Reaches(System(c), s, t) && Inv(c.n, t) && t.main == MWaiting && t.mon == Monitor(None, Some(c.n))
    ensures Shaped(c.n, t) && t.workers == s.workers && t.numUnjoined == 0
  {
    var held := Monitor(Some(c.n), None);
    var s1 := s.(main := MTestUnjoined, mon := held);
    var s2 := s.(main := MWait, mon := held);
    t := s.(main := MWaiting, mon := Monitor(None, Some(c.n)));
    hide OwnerInv, PhaseInv, TableInv, JoinsInv, WorkInv, CounterInv, ScanInv, NoLostWakeup;
    ReachesStep(System(c), s, Main, s1);
    ReachesThen(System(c), s, s1, Main, s2);
    ReachesThen(System(c), s, s2, Main, t);
    RunKeepsInv(c, s, t);
  }

  lemma NothingCounted(n: nat, s: State)
    requires Exited(n, s, {})
    ensures s.numUnjoined == 0
  {
    hide JoinsInv, WorkInv, ScanInv, NoLostWakeup;
    assert forall i | 0 <= i < n :: StatusFits(s.workers[i], s.status[i]);
    assert forall x | x in s.status :: x == Alive;
    assert Terminated !in multiset(s.status);
  }

  /** The comments at the counters can be made false by some run if and only if there are two threads. */
  lemma CommentsCanFailIff(n: nat)
    ensures (exists s :: Reachable(Config(n, false), s) && s.main == MUnlock && !CommentsHold(s)) <==> n >= 2
  {
    var c := Config(n, false);
    if s :| Reachable(c, s) && s.main == MUnlock && !CommentsHold(s) {
      CommentsHoldIff(c, s);
      CountersAfterScan(c, s);
      ReachableInv(c, s);
      hide OwnerInv, TableInv, JoinsInv, CounterInv, ScanInv, NoLostWakeup;
    }
    if n >= 2 {
      var s, t := AnySetCanBeJoined(n, {0});
      CountersAfterScan(c, s);
      assert 1 in NeverJoined(s);
    }
  }

  // ---------------------------------------------------------------------------------------------
  // The program on its own variables
  // ---------------------------------------------------------------------------------------------

  /** The globals, the thread table, and one program counter per thread. */
  class Process {
    const n: nat
    var main: MainPc
    var workers: array<WorkerPc>
    var status: array<Status>
    var numLive: int
    var numUnjoined: int
    var mon: Monitor
    ghost var passes: nat
    ghost var snapshot: seq<Status>
    ghost var joins: seq<nat>

    ghost predicate Valid() reads this {
      workers.Length == n && status.Length == n && |snapshot| == n && |joins| == n
    }

    ghost function View(): (s: State)
      reads this, workers, status
      ensures Valid() ==> Shaped(n, s)
    {
      State(main, workers[..], status[..], numLive, numUnjoined, mon, passes, snapshot, joins)
    }

    constructor (n: nat)
      ensures Valid() && fresh(workers) && fresh(status) && this.n == n && View() == Init(n)
    {
      this.n := n;
      main := MCreate(0);
      workers := new WorkerPc[n](_ => WUnborn);
      status := new Status[n](_ => Alive);
      numLive, numUnjoined, mon := 0, 0, IDLE;
      passes, snapshot, joins := 0, seq(n, _ => Alive), seq(n, _ => 0);
      new;
      assert workers[..] == Init(n).workers && status[..] == Init(n).status;
    }

    method WorkerStep(i: nat) returns (moved: bool)
      requires Valid() && i < n
      modifies this`numUnjoined, this`mon, workers, status
      ensures Valid() && moved == WorkerNext(n, old(View()), i).Some?
      ensures View() == if moved then WorkerNext(n, old(View()), i).value else old(View())
    {
      if main == MExited { return false; }
      moved := true;
      match workers[i]
      case WUnborn => moved := false;
      case WLock =>
        if mon.owner == None { mon := mon.(owner := Some(i)); workers[i] := WIncrement; } else { moved := false; }
      case WIncrement => numUnjoined := numUnjoined + 1; workers[i] := WStore;
      case WStore => status[i] := Terminated; workers[i] := WUnlock;
      case WUnlock =>
        if mon.owner == Some(i) { mon := mon.(owner := None); workers[i] := WSignal; } else { moved := false; }
      case WSignal => mon := mon.(sleeper := None); workers[i] := WExited;
      case WExited => moved := false;
    }

    method MainStep() returns (moved: bool)
      requires Valid()
      modifies this, workers, status
      ensures Valid() && workers == old(workers) && status == old(status)
      ensures moved == MainNext(n, old(View())).Some?
      ensures View() == if moved then MainNext(n, old(View())).value else old(View())
    {
      moved := true;
      match main
      case MCreate(k) =>
        if k < n { status[k] := Alive; workers[k] := WLock; main := MCreate(k + 1); } else { main := MSetLive; }
      case MSetLive => numLive, main := n, MTest;
      case MTest => main := if numLive > 0 then MLock else MExited;
      case MLock =>
        if mon.owner == None { mon, main := mon.(owner := Some(n)), MTestUnjoined; } else { moved := false; }
      case MTestUnjoined =>
        if numUnjoined == 0 { main := MWait; } else { main := MScan(0); snapshot := status[..]; }
      case MWait =>
        if mon.owner == Some(n) { mon, main := Monitor(None, Some(n)), MWaiting; } else { moved := false; }
      case MWaiting =>
        if mon.sleeper != Some(n) && mon.owner == None {
          mon, main := mon.(owner := Some(n)), MTestUnjoined;
        } else { moved := false; }
      case MScan(k) =>
        if k >= n { main := MUnlock; } else { main := if status[k] == Terminated then MJoin(k) else MStore(k); }
      case MJoin(k) =>
        if k < n && workers[k] == WExited {
          main := MStore(k);
          joins := joins[k := joins[k] + 1];
        } else { moved := false; }
      case MStore(k) =>
        if k < n { status[k] := Joined; main := MCount(k); } else { moved := false; }
      case MCount(k) => numLive, numUnjoined, main := numLive - 1, numUnjoined - 1, MScan(k + 1);
      case MUnlock =>
        if mon.owner == Some(n) {
          mon, main := mon.(owner := None), MTest;
          passes := passes + 1;
        } else { moved := false; }
      case MExited => moved := false;
    }
  }
}
