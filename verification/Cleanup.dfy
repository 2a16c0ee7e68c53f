/** t_thread_cleanup.c: a thread waits on a condition variable under a cleanup handler that frees its
    buffer and unlocks the mutex; main either cancels it or signals it and then sets the condition.

    Cancellation is deferred (System Interfaces volume of POSIX.1-2017, section 2.9.5): a request stays
    pending until the thread is in pthread_cond_wait, the only cancellation point of its code, and the
    mutex is taken again before the first handler runs. */
module Cleanup {
  import opened Runs
  import opened Pthreads

  datatype MainPc =
    | MCreate
    | MCancel                     // the cancellation request
    | MSignal                     // the one signal
    | MStore                      // setting the condition, without the mutex
    | MJoin
    | MExited

  datatype WorkerPc =
    | WUnborn
    | WAllocate                   // malloc
    | WLock
    | WPush                       // pthread_cleanup_push
    | WTest                       // the test of the condition
    | WWait                       // about to call pthread_cond_wait
    | WWaiting
    | WPop                        // the pop that runs the handler
    | WFree                       // the handler: free
    | WUnlock                     // the handler: unlock
    | WExited

  /** `Cancel` is the worker acting on a pending request. */
  datatype Act = Main | Worker | Cancel | Spurious

  /** Whether main cancels (argc == 1) or signals, and whether spurious wakeups happen. */
  datatype Config = Config(cancels: bool, spurious: bool)

  /** `pushed` is the handler stack, which holds at most this one handler.  `mallocs`, `frees` and
      `unownedFrees` count calls of malloc and free, and handler runs without the mutex. */
  datatype State = State(
    main: MainPc, worker: WorkerPc, glob: int, mon: Monitor, pending: bool, pushed: bool, cancelled: bool,
    mallocs: nat, frees: nat, unownedFrees: nat)

  const INIT := State(MCreate, WUnborn, 0, IDLE, false, false, false, 0, 0, 0)

  const WORKER: nat := 0

  predicate Asleep(s: State) { s.mon.sleeper == Some(WORKER) }

  function MainNext(c: Config, s: State): Option<State> {
    match s.main
    case MCreate => Some(s.(main := if c.cancels then MCancel else MSignal, worker := WAllocate))
    case MCancel => Some(s.(main := MJoin, pending := true))
    case MSignal => Some(s.(main := MStore, mon := Signal(s.mon)))
    case MStore => Some(s.(main := MJoin, glob := 1))
    case MJoin => if s.worker == WExited then Some(s.(main := MExited)) else None
    case MExited => None
  }

  function WorkerNext(s: State): Option<State> {
    match s.worker
    case WUnborn => None
    case WAllocate => Some(s.(worker := WLock, mallocs := s.mallocs + 1))
    case WLock =>
      (match Lock(s.mon, WORKER) case None => None case Some(m) => Some(s.(worker := WPush, mon := m)))
    case WPush => Some(s.(worker := WTest, pushed := true))
    case WTest => Some(s.(worker := if s.glob == 0 then WWait else WPop))
    case WWait =>
      if s.pending then None
      else (match Wait(s.mon, WORKER) case None => None case Some(m) => Some(s.(worker := WWaiting, mon := m)))
    case WWaiting =>
      (match Relock(s.mon, WORKER) case None => None case Some(m) => Some(s.(worker := WTest, mon := m)))
    case WPop => if s.pushed then Some(s.(worker := WFree, pushed := false)) else None
    case WFree =>
      Some(s.(worker := WUnlock, frees := s.frees + 1,
              unownedFrees := s.unownedFrees + if s.mon.owner == Some(WORKER) then 0 else 1))
    case WUnlock =>
      (match Unlock(s.mon, WORKER) case None => None case Some(m) => Some(s.(worker := WExited, mon := m)))
    case WExited => None
  }

  /** The handler is popped and run, with the mutex: it is held at the call, and taken again in the wait. */
  function CancelNext(s: State): Option<State> {
    if !s.pending || !s.pushed then None
    else if s.worker == WWait && s.mon.owner == Some(WORKER) then
      Some(s.(worker := WFree, pushed := false, cancelled := true))
    else if s.worker == WWaiting && s.mon.owner == None then
      Some(s.(worker := WFree, pushed := false, cancelled := true, mon := Monitor(Some(WORKER), None)))
    else None
  }

  function Next(c: Config, s: State, a: Act): Option<State> {
    match a
    case Main => MainNext(c, s)
    case Worker => WorkerNext(s)
    case Cancel => CancelNext(s)
    case Spurious =>
      if !c.spurious then None
      else match WakeSpuriously(s.mon, WORKER) case None => None case Some(m) => Some(s.(mon := m))
  }

  function System(c: Config): (State, Act) -> Option<State> {
    (s, a) => Next(c, s, a)
  }

  ghost predicate Reachable(c: Config, s: State) { Reaches(System(c), INIT, s) }

  predicate Owns(w: WorkerPc) {
    w == WPush || w == WTest || w == WWait || w == WPop || w == WFree || w == WUnlock
  }

  predicate Inv(c: Config, s: State) {
    && (s.mon.owner == if Owns(s.worker) then Some(WORKER) else None)
    && (s.mon.sleeper.Some? ==> Asleep(s) && s.worker == WWaiting)
    && (s.main == MCreate <==> s.worker == WUnborn)
    && (s.pushed <==> s.worker == WTest || s.worker == WWait || s.worker == WWaiting || s.worker == WPop)
    && s.mallocs == (if s.worker == WUnborn || s.worker == WAllocate then 0 else 1)
    && s.frees == (if s.worker == WUnlock || s.worker == WExited then 1 else 0)
    && s.unownedFrees == 0
    && (s.main == MCancel ==> c.cancels) && (s.main == MSignal || s.main == MStore ==> !c.cancels)
    && (s.main == MExited ==> s.worker == WExited)
    && s.pending == (c.cancels && (s.main == MJoin || s.main == MExited))
    && s.glob == (if !c.cancels && (s.main == MJoin || s.main == MExited) then 1 else 0)
    && (s.worker == WPop ==> s.glob == 1)
    && (!c.cancels && (s.worker == WFree || s.worker == WUnlock || s.worker == WExited) ==> s.glob == 1)
    && s.cancelled == (c.cancels && (s.worker == WFree || s.worker == WUnlock || s.worker == WExited))
  }

  lemma KeepsInv(c: Config, s: State, a: Act)
    requires Inv(c, s) && Next(c, s, a).Some?
    ensures Inv(c, Next(c, s, a).value)
  {
    match a
    case Main => hide WorkerNext, CancelNext;
    case Worker => hide MainNext, CancelNext;
    case Cancel => hide MainNext, WorkerNext;
    case Spurious => hide MainNext, WorkerNext, CancelNext;
  }

  lemma RunKeepsInv(c: Config, s: State, t: State)
    requires Inv(c, s) && Reaches(System(c), s, t)
    ensures Inv(c, t)
  {
    hide Inv, Next;
    var sched: seq<Act> :| Exec(System(c), s, sched) == Some(t);
    forall u: State, a: Act | Inv(c, u) && System(c)(u, a).Some? ensures Inv(c, System(c)(u, a).value) {
      KeepsInv(c, u, a);
    }
    InvariantHolds(System(c), u => Inv(c, u), s, sched);
  }

  // ---------------------------------------------------------------------------------------------
  // What holds over every run
  // ---------------------------------------------------------------------------------------------

  /** On every completed run the handler ran exactly once, with the mutex held by the worker: the buffer
      was freed once and the mutex ends free.  The thread ends cancelled exactly when main cancelled it. */
  lemma HandlerRunsExactlyOnce(c: Config, s: State)
    requires Reachable(c, s) && s.main == MExited
    ensures s.mallocs == s.frees == 1 && s.unownedFrees == 0 && !s.pushed && s.mon == IDLE
    ensures s.cancelled <==> c.cancels
  {
    RunKeepsInv(c, INIT, s);
  }

  /** The buffer is never freed before it is allocated, twice, or without the mutex, on any run at all. */
  lemma NeverFreedTwice(c: Config, s: State)
    requires Reachable(c, s)
    ensures s.frees <= s.mallocs <= 1 && s.unownedFrees == 0
  {
    RunKeepsInv(c, INIT, s);
  }

  /** Whenever the handler may run, on the handler stack or popped, what it does is in order: the buffer is
      allocated and not freed, and the worker has the mutex or is in the wait, which takes it first. */
  lemma HandlerIsSafe(c: Config, s: State)
    requires Reachable(c, s) && (s.pushed || s.worker == WFree)
    ensures s.mallocs == 1 && s.frees == 0
    ensures s.mon.owner == Some(WORKER) || (s.worker == WWaiting && s.mon.owner == None)
    ensures s.worker == WFree ==> s.mon.owner == Some(WORKER) && !s.pushed
  {
    RunKeepsInv(c, INIT, s);
  }

  /** Nobody waits except for a signal, for the end of the thread that is joined, or, with a request pending,
      for nothing: a cancelled wait ends without a signal. */
  lemma WhoCanMove(c: Config, s: State, a: Act)
    requires Reachable(c, s)
    ensures Next(c, s, a).Some? <==>
      match a
      case Main => s.main != MExited && (s.main == MJoin ==> s.worker == WExited)
      case Worker =>
        && s.worker != WUnborn && s.worker != WExited && (s.worker == WWait ==> !s.pending)
        && (s.worker == WWaiting ==> !Asleep(s))
      case Cancel => s.pending && (s.worker == WWait || s.worker == WWaiting)
      case Spurious => c.spurious && Asleep(s)
    ensures a == Spurious && Next(c, s, a).Some? ==> Next(c, s, a).value == s.(mon := s.mon.(sleeper := None))
  {
    RunKeepsInv(c, INIT, s);
  }

  /** Notes of an observer: calls of malloc and of free, calls of the handler without the mutex, and whether a
      request was acted on. */
  function NoteMalloc(mallocs: nat, s: State, a: Act): nat {
    if a == Worker && s.worker == WAllocate then mallocs + 1 else mallocs
  }

  function NoteFree(frees: nat, s: State, a: Act): nat {
    if a == Worker && s.worker == WFree then frees + 1 else frees
  }

  function NoteUnowned(frees: nat, s: State, a: Act): nat {
    if a == Worker && s.worker == WFree && s.mon.owner != Some(WORKER) then frees + 1 else frees
  }

  function NoteCancel(cancelled: bool, s: State, a: Act): bool { cancelled || a == Cancel }

  lemma StepIsNoted(c: Config, s: State, a: Act)
    requires Next(c, s, a).Some?
    ensures var t := Next(c, s, a).value;
      && t.mallocs == NoteMalloc(s.mallocs, s, a) && t.frees == NoteFree(s.frees, s, a)
      && t.unownedFrees == NoteUnowned(s.unownedFrees, s, a) && t.cancelled == NoteCancel(s.cancelled, s, a)
  {
  }

  /** What the theorems say of allocations, handler runs and cancellation is about what happened in the run. */
  lemma HistoryIsTrue(c: Config, sched: seq<Act>)
    requires Exec(System(c), INIT, sched).Some?
    ensures var t := Exec(System(c), INIT, sched).value;
      && t.mallocs == Recorded(System(c), NoteMalloc, 0, INIT, sched)
      && t.frees == Recorded(System(c), NoteFree, 0, INIT, sched)
      && t.unownedFrees == Recorded(System(c), NoteUnowned, 0, INIT, sched)
      && t.cancelled == Recorded(System(c), NoteCancel, false, INIT, sched)
  {
    var any := (s: State) => true;
    hide Next, NoteMalloc, NoteFree, NoteUnowned, NoteCancel;
    forall s: State, a: Act | System(c)(s, a).Some?
      ensures System(c)(s, a).value.mallocs == NoteMalloc(s.mallocs, s, a)
      ensures System(c)(s, a).value.frees == NoteFree(s.frees, s, a)
      ensures System(c)(s, a).value.unownedFrees == NoteUnowned(s.unownedFrees, s, a)
      ensures System(c)(s, a).value.cancelled == NoteCancel(s.cancelled, s, a)
    {
      StepIsNoted(c, s, a);
    }
    IsRecord(System(c), any, (s: State) => s.mallocs, NoteMalloc, INIT, sched);
    IsRecord(System(c), any, (s: State) => s.frees, NoteFree, INIT, sched);
    IsRecord(System(c), any, (s: State) => s.unownedFrees, NoteUnowned, INIT, sched);
    IsRecord(System(c), any, (s: State) => s.cancelled, NoteCancel, INIT, sched);
  }

  /** No thread can take a step of its own, and main has not exited. */
  predicate Stuck(c: Config, s: State) {
    s.main != MExited && MainNext(c, s) == None && WorkerNext(s) == None && CancelNext(s) == None
  }

  /** Cancelling can never get stuck; signalling is stuck exactly when main waits for a worker that went to
      sleep after the only signal, whatever the condition says by now. */
  lemma StuckIff(c: Config, s: State)
    requires Reachable(c, s)
    ensures Stuck(c, s) <==> !c.cancels && s.main == MJoin && Asleep(s)
    ensures Stuck(c, s) ==> s.worker == WWaiting && s.glob == 1 && s.mallocs == 1 && s.frees == 0
  {
    RunKeepsInv(c, INIT, s);
  }

  /** Such a run exists, because the signal precedes the store. */
  lemma SignalCanGetStuck() returns (s: State)
    ensures Reachable(Config(false, false), s) && Stuck(Config(false, false), s)
  {
    ReachesSelf(System(Config(false, false)), INIT);
    s := SignalCanStillGetStuck(INIT);
  }

  // ---------------------------------------------------------------------------------------------
  // Every run ends, and how
  // ---------------------------------------------------------------------------------------------

  function MainRank(m: MainPc): nat {
    match m case MCreate => 4 case MCancel => 3 case MSignal => 3 case MStore => 2 case MJoin => 1 case MExited => 0
  }

  function WorkerRank(s: State): nat {
    match s.worker
    case WUnborn => 12 case WAllocate => 11 case WLock => 10 case WPush => 9 case WTest => 8 case WWait => 7
    case WWaiting => if Asleep(s) then 6 else 9
    case WPop => 3 case WFree => 2 case WUnlock => 1 case WExited => 0
  }

  function Measure(s: State): nat { 4 * MainRank(s.main) + WorkerRank(s) }

  lemma MeasureDecreases(c: Config, s: State, a: Act)
    requires Inv(c, s) && !c.spurious && Next(c, s, a).Some?
    ensures Measure(Next(c, s, a).value) < Measure(s)
  {
  }

  /** Without spurious wakeups no run has more than 28 steps. */
  lemma RunsAreFinite(c: Config, sched: seq<Act>)
    requires !c.spurious && Exec(System(c), INIT, sched).Some?
    ensures |sched| <= 28
  {
    assert Inv(c, INIT) && Measure(INIT) == 28;
    hide Inv, Next, Measure;
    forall s: State, a: Act | Inv(c, s) && System(c)(s, a).Some?
      ensures Inv(c, System(c)(s, a).value) && Measure(System(c)(s, a).value) < Measure(s)
    {
      KeepsInv(c, s, a);
      MeasureDecreases(c, s, a);
    }
    ScheduleIsBounded(System(c), s => Inv(c, s), s => Measure(s), INIT, sched);
  }

  /** The worker has tested the condition for the last time and found it false. */
  predicate Missed(s: State) { s.worker == WWait || Asleep(s) }

  /** Once main has sent its signal, the run can complete if and only if the worker has not already decided
      to sleep. */
  lemma SignalFate(s: State)
    requires Reachable(Config(false, false), s) && (s.main == MStore || s.main == MJoin)
    ensures (exists t :: Reaches(System(Config(false, false)), s, t) && t.main == MExited) <==> !Missed(s)
  {
    var c := Config(false, false);
    RunKeepsInv(c, INIT, s);
    if Missed(s) {
      if t :| Reaches(System(c), s, t) && t.main == MExited {
        MissedForEver(c, s, t);
      }
    } else {
      var s1 := if s.main == MStore then s.(main := MJoin, glob := 1) else s;
      ReachesSelf(System(c), s);
      if s.main == MStore {
        ReachesThen(System(c), s, s, Main, s1);
      }
      RunKeepsInv(c, s, s1);
      var t := CompletesFrom(c, s1);
      ReachesTrans(System(c), s, s1, t);
    }
  }

  /** And once main has set the condition too, the end is settled: all the ways in which the run can end are
      complete, or none is. */
  lemma SignalSettled(s: State, t: State)
    requires Reachable(Config(false, false), s) && s.main == MJoin
    requires Reaches(System(Config(false, false)), s, t) && Blocked(System(Config(false, false)), t)
    ensures t.main == MExited <==> !Missed(s)
    ensures Stuck(Config(false, false), t) <==> Missed(s)
  {
    var c := Config(false, false);
    RunKeepsInv(c, INIT, s);
    assert System(c)(t, Main) == None && System(c)(t, Worker) == None && System(c)(t, Cancel) == None;
    if Missed(s) {
      MissedForEver(c, s, t);
    } else {
      HopefulForEver(c, s, t);
      HopefulEnd(c, t);
    }
  }

  lemma MissedForEver(c: Config, s: State, t: State)
    requires !c.cancels && !c.spurious && Inv(c, s) && (s.main == MStore || s.main == MJoin) && Missed(s)
    requires Reaches(System(c), s, t)
    ensures (t.main == MStore || t.main == MJoin) && Missed(t)
  {
    var sched: seq<Act> :| Exec(System(c), s, sched) == Some(t);
    InvariantHolds(System(c), u => Inv(c, u) && (u.main == MStore || u.main == MJoin) && Missed(u), s, sched);
  }

  predicate Hopeful(c: Config, s: State) {
    Inv(c, s) && !c.cancels && (s.main == MJoin || s.main == MExited) && !Missed(s)
  }

  lemma HopefulStep(c: Config, s: State, a: Act)
    requires Hopeful(c, s) && !c.spurious && Next(c, s, a).Some?
    ensures Hopeful(c, Next(c, s, a).value) && Measure(Next(c, s, a).value) < Measure(s)
  {
    KeepsInv(c, s, a);
    MeasureDecreases(c, s, a);
  }

  lemma HopefulForEver(c: Config, s: State, t: State)
    requires !c.spurious && Hopeful(c, s) && Reaches(System(c), s, t)
    ensures Hopeful(c, t)
  {
    hide Hopeful, Measure, Next;
    var sched: seq<Act> :| Exec(System(c), s, sched) == Some(t);
    forall u: State, a: Act | Hopeful(c, u) && System(c)(u, a).Some? ensures Hopeful(c, System(c)(u, a).value) {
      HopefulStep(c, u, a);
    }
    InvariantHolds(System(c), u => Hopeful(c, u), s, sched);
  }

  lemma HopefulEnd(c: Config, s: State)
    requires Hopeful(c, s) && Blocked(System(c), s)
    ensures s.main == MExited
  {
    assert System(c)(s, Main) == None && System(c)(s, Worker) == None;
  }

  lemma CompletesFrom(c: Config, s: State) returns (t: State)
    requires !c.spurious && Hopeful(c, s)
    ensures Reaches(System(c), s, t) && t.main == MExited
  {
    hide Hopeful, Measure, Next;
    forall u: State, a: Act | Hopeful(c, u) && System(c)(u, a).Some?
      ensures Hopeful(c, System(c)(u, a).value) && Measure(System(c)(u, a).value) < Measure(u)
    {
      HopefulStep(c, u, a);
    }
    t := RunsToTheEnd(System(c), u => Hopeful(c, u), u => Measure(u), s);
    HopefulEnd(c, t);
  }

  /** Main up to its signal. */
  lemma MainSignals(s: State) returns (t: State)
    requires Reachable(Config(false, false), s) && (s.main == MCreate || s.main == MSignal || s.main == MStore)
    ensures Reaches(System(Config(false, false)), s, t) && t.main == MStore && Inv(Config(false, false), t)
    ensures s.main == MCreate || s.main == MSignal ==> !Asleep(t)
    ensures s.worker == t.worker || (s.worker == WUnborn && t.worker == WAllocate)
  {
    var next := System(Config(false, false));
    RunKeepsInv(Config(false, false), INIT, s);
    var s1 := if s.main == MCreate then s.(main := MSignal, worker := WAllocate) else s;
    t := if s.main == MStore then s else s1.(main := MStore, mon := Signal(s.mon));
    ReachesSelf(next, s);
    if s.main == MCreate {
      ReachesThen(next, s, s, Main, s1);
    }
    if s.main != MStore {
      ReachesThen(next, s, s1, Main, t);
    }
    RunKeepsInv(Config(false, false), s, t);
  }

  /** Until main signals no run is lost: wherever the worker is, asleep included, some continuation
      completes, with the signal and the store right behind each other. */
  lemma SignalCanComplete(s: State) returns (t: State)
    requires Reachable(Config(false, false), s) && (s.main == MCreate || s.main == MSignal)
    ensures Reaches(System(Config(false, false)), s, t) && t.main == MExited
  {
    var next := System(Config(false, false));
    var s1 := s;
    ReachesSelf(next, s);
    if s.worker == WWait {
      RunKeepsInv(Config(false, false), INIT, s);
      s1 := s.(worker := WWaiting, mon := Monitor(None, Some(WORKER)));
      ReachesThen(next, s, s, Worker, s1);
    }
    ReachesTrans(next, INIT, s, s1);
    var s2 := MainSignals(s1);
    ReachesTrans(next, s, s1, s2);
    ReachesTrans(next, INIT, s, s2);
    SignalFate(s2);
    t :| Reaches(next, s2, t) && t.main == MExited;
    ReachesTrans(next, s, s2, t);
  }

  /** The worker alone, while the condition is not set, falls asleep. */
  lemma {:induction false} FallsAsleep(c: Config, s: State) returns (t: State)
    requires !c.cancels && Inv(c, s) && s.main == MStore
    ensures Reaches(System(c), s, t) && Inv(c, t) && t.main == MStore && Asleep(t)
    decreases WorkerRank(s)
  {
    if Asleep(s) {
      t := s;
      ReachesSelf(System(c), s);
    } else {
      assert WorkerNext(s).Some?;
      var u := WorkerNext(s).value;
      assert Next(c, s, Worker) == Some(u);
      KeepsInv(c, s, Worker);
      t := FallsAsleep(c, u);
      ReachesStep(System(c), s, Worker, u);
      ReachesTrans(System(c), s, u, t);
    }
  }

  /** And until main sets the condition no run is safe: from every reachable state before the store some
      continuation gets stuck. */
  lemma SignalCanStillGetStuck(s: State) returns (t: State)
    requires Reachable(Config(false, false), s) && (s.main == MCreate || s.main == MSignal || s.main == MStore)
    ensures Reaches(System(Config(false, false)), s, t) && Stuck(Config(false, false), t)
  {
    var c := Config(false, false);
    var s1 := MainSignals(s);
    var s2 := FallsAsleep(c, s1);
    ReachesTrans(System(c), s, s1, s2);
    t := s2.(main := MJoin, glob := 1);
    ReachesThen(System(c), s, s2, Main, t);
  }

  // ---------------------------------------------------------------------------------------------
  // The program on its own variables
  // ---------------------------------------------------------------------------------------------

  class Process {
    const config: Config
    var main: MainPc
    var worker: WorkerPc
    var glob: int
    var mon: Monitor
    var pending: bool
    var pushed: bool
    var cancelled: bool
    var mallocs: nat
    var frees: nat
    ghost var unownedFrees: nat

    ghost function View(): State reads this {
      State(main, worker, glob, mon, pending, pushed, cancelled, mallocs, frees, unownedFrees)
    }

    constructor (c: Config)
      ensures config == c && View() == INIT
    {
      config := c;
      main, worker, glob, mon := MCreate, WUnborn, 0, IDLE;
      pending, pushed, cancelled, mallocs, frees, unownedFrees := false, false, false, 0, 0, 0;
    }

    method MainStep() returns (moved: bool)
      modifies this
      ensures moved == MainNext(config, old(View())).Some?
      ensures View() == if moved then MainNext(config, old(View())).value else old(View())
    {
      moved := true;
      match main
      case MCreate => worker := WAllocate; main := if config.cancels then MCancel else MSignal;
      case MCancel => pending, main := true, MJoin;
      case MSignal => mon, main := mon.(sleeper := None), MStore;
      case MStore => glob, main := 1, MJoin;
      case MJoin =>
        if worker == WExited { main := MExited; } else { moved := false; }
      case MExited => moved := false;
    }

    method WorkerStep() returns (moved: bool)
      modifies this
      ensures moved == WorkerNext(old(View())).Some?
      ensures View() == if moved then WorkerNext(old(View())).value else old(View())
    {
      moved := true;
      match worker
      case WUnborn => moved := false;
      case WAllocate => mallocs, worker := mallocs + 1, WLock;
      case WLock =>
        if mon.owner == None { mon, worker := mon.(owner := Some(WORKER)), WPush; } else { moved := false; }
      case WPush => pushed, worker := true, WTest;
      case WTest => worker := if glob == 0 then WWait else WPop;
      case WWait =>
        if !pending && mon.owner == Some(WORKER) {
          mon, worker := Monitor(None, Some(WORKER)), WWaiting;
        } else { moved := false; }
      case WWaiting =>
        if mon.sleeper != Some(WORKER) && mon.owner == None {
          mon, worker := mon.(owner := Some(WORKER)), WTest;
        } else { moved := false; }
      case WPop =>
        if pushed { pushed, worker := false, WFree; } else { moved := false; }
      case WFree => FreeStep();
      case WUnlock =>
        if mon.owner == Some(WORKER) { mon, worker := mon.(owner := None), WExited; } else { moved := false; }
      case WExited => moved := false;
    }

    method FreeStep()
      requires worker == WFree
      modifies this`frees, this`worker, this`unownedFrees
      ensures WorkerNext(old(View())) == Some(View())
    {
      unownedFrees := unownedFrees + if mon.owner == Some(WORKER) then 0 else 1;
      frees, worker := frees + 1, WUnlock;
    }

    method CancelStep() returns (moved: bool)
      modifies this
      ensures moved == CancelNext(old(View())).Some?
      ensures View() == if moved then CancelNext(old(View())).value else old(View())
    {
      moved := pending && pushed
        && ((worker == WWait && mon.owner == Some(WORKER)) || (worker == WWaiting && mon.owner == None));
      if moved {
        if worker == WWaiting { mon := Monitor(Some(WORKER), None); }
        pushed, cancelled, worker := false, true, WFree;
      }
    }
  }
}
