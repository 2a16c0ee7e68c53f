/** producer_consumer_model.c (with USE_COND_VAR): one producer of n units that signals only for every
    period-th of them, and one consumer that sleeps while nothing is available. */
module ProducerConsumer {
  import opened Runs
  import opened Pthreads

  datatype ProducerPc =
    | PTest(j: nat)               // the test of the loop
    | PLock(j: nat)
    | PIncrement(j: nat)          // one more available
    | PUnlock(j: nat)
    | PSignal(j: nat)             // the signal, if unit j has one
    | PExited

  datatype ConsumerPc =
    | CTest                       // the test of the outer loop, without the mutex
    | CLock
    | CTestAvailable              // the test of the waiting loop
    | CWait
    | CWaiting
    | CDrain                      // the test of the draining loop
    | CConsume                    // one more consumed
    | CTake                       // one fewer available
    | CUnlock
    | CExited

  datatype Act = Producer | Consumer | Spurious

  type Period = p: nat | p > 0 witness 1

  /** TOTAL_COUNT, the signalling period, and whether spurious wakeups happen. */
  datatype Config = Config(n: nat, period: Period, spurious: bool)

  const PRODUCER: nat := 0
  const CONSUMER: nat := 1

  /** The last two fields only record history: how many times the consumer's outer loop was completed, and
      `consumed` when the current pass took the mutex. */
  datatype State = State(
    prod: ProducerPc, cons: ConsumerPc, available: int, consumed: int, mon: Monitor, passes: nat, passBase: int)

  const INIT := State(PTest(0), CTest, 0, 0, IDLE, 0, 0)

  predicate Signals(c: Config, j: nat) { j % c.period == 0 }

  function ProducerNext(c: Config, s: State): Option<State> {
    match s.prod
    case PTest(j) => Some(s.(prod := if j < c.n then PLock(j) else PExited))
    case PLock(j) =>
      (match Lock(s.mon, PRODUCER)
       case None => None
       case Some(m) => Some(s.(prod := PIncrement(j), mon := m)))
    case PIncrement(j) => Some(s.(prod := PUnlock(j), available := s.available + 1))
    case PUnlock(j) =>
      (match Unlock(s.mon, PRODUCER)
       case None => None
       case Some(m) => Some(s.(prod := PSignal(j), mon := m)))
    case PSignal(j) => Some(s.(prod := PTest(j + 1), mon := if Signals(c, j) then Signal(s.mon) else s.mon))
    case PExited => None
  }

  function ConsumerNext(c: Config, s: State): Option<State> {
    match s.cons
    case CTest => Some(s.(cons := if s.consumed != c.n then CLock else CExited))
    case CLock =>
      (match Lock(s.mon, CONSUMER)
       case None => None
       case Some(m) => Some(s.(cons := CTestAvailable, mon := m, passBase := s.consumed)))
    case CTestAvailable => Some(s.(cons := if s.available == 0 then CWait else CDrain))
    case CWait =>
      (match Wait(s.mon, CONSUMER)
       case None => None
       case Some(m) => Some(s.(cons := CWaiting, mon := m)))
    case CWaiting =>
      (match Relock(s.mon, CONSUMER)
       case None => None
       case Some(m) => Some(s.(cons := CTestAvailable, mon := m)))
    case CDrain => Some(s.(cons := if s.available > 0 then CConsume else CUnlock))
    case CConsume => Some(s.(cons := CTake, consumed := s.consumed + 1))
    case CTake => Some(s.(cons := CDrain, available := s.available - 1))
    case CUnlock =>
      (match Unlock(s.mon, CONSUMER)
       case None => None
       case Some(m) => Some(s.(cons := CTest, mon := m, passes := s.passes + 1)))
    case CExited => None
  }

  function Next(c: Config, s: State, a: Act): Option<State> {
    match a
    case Producer => ProducerNext(c, s)
    case Consumer => ConsumerNext(c, s)
    case Spurious =>
      if !c.spurious then None
      else match WakeSpuriously(s.mon, CONSUMER) case None => None case Some(m) => Some(s.(mon := m))
  }

  function System(c: Config): (State, Act) -> Option<State> {
    (s, a) => Next(c, s, a)
  }

  ghost predicate Reachable(c: Config, s: State) { Reaches(System(c), INIT, s) }

  predicate AllExited(s: State) { s.prod == PExited && s.cons == CExited }

  predicate Asleep(s: State) { s.mon.sleeper == Some(CONSUMER) }

  /** No thread can take a step of its own, and somebody is left. */
  predicate Stuck(c: Config, s: State) {
    !AllExited(s) && ProducerNext(c, s) == None && ConsumerNext(c, s) == None
  }

  // ---------------------------------------------------------------------------------------------
  // The invariant
  // ---------------------------------------------------------------------------------------------

  /** Units added to `available` so far. */
  function Produced(n: nat, p: ProducerPc): nat {
    match p
    case PTest(j) => j case PLock(j) => j case PIncrement(j) => j
    case PUnlock(j) => j + 1 case PSignal(j) => j + 1 case PExited => n
  }

  /** Units whose signal, if they have one, was sent. */
  function Sent(n: nat, p: ProducerPc): nat {
    if p.PExited? then n else p.j
  }

  predicate ConsumerOwns(q: ConsumerPc) {
    q == CTestAvailable || q == CWait || q == CDrain || q == CConsume || q == CTake || q == CUnlock
  }

  ghost predicate ControlInv(c: Config, s: State) {
    && (s.prod.PTest? ==> s.prod.j <= c.n)
    && (!s.prod.PTest? && !s.prod.PExited? ==> s.prod.j < c.n)
    && (s.mon.owner == Some(PRODUCER) <==> s.prod.PIncrement? || s.prod.PUnlock?)
    && (s.mon.owner == Some(CONSUMER) <==> ConsumerOwns(s.cons))
    && (s.mon.owner.Some? ==> s.mon.owner.value <= CONSUMER)
    && (s.mon.sleeper.Some? ==> Asleep(s) && s.cons == CWaiting)
  }

  ghost predicate UnitsInv(c: Config, s: State) {
    && s.available + s.consumed == Produced(c.n, s.prod) + (if s.cons == CTake then 1 else 0)
    && 0 <= s.available
    && (s.cons == CConsume || s.cons == CTake ==> s.available > 0)
    && (s.cons == CWait ==> s.available == 0)
    && (s.cons == CLock || s.cons == CTestAvailable || s.cons == CWait || s.cons == CWaiting ==> s.consumed < c.n)
    && (s.cons == CExited ==> s.consumed == c.n)
  }

  /** A pass starts with something to consume, and ends having consumed it. */
  ghost predicate PassInv(s: State) {
    && s.passes <= s.consumed
    && (ConsumerOwns(s.cons) || s.cons == CWaiting ==> s.passes <= s.passBase <= s.consumed)
    && (s.cons == CDrain ==> s.passBase < s.consumed || s.available > 0)
    && (s.cons == CTake ==> s.passBase < s.consumed)
    && (s.cons == CUnlock ==> s.passBase < s.consumed && s.available == 0)
  }

  /** A sleeping consumer has missed no signal: none of the units it has not consumed had one that was sent. */
  ghost predicate SleepInv(c: Config, s: State) {
    Asleep(s) ==> forall j: nat | s.consumed <= j < Sent(c.n, s.prod) :: !Signals(c, j)
  }

  ghost predicate Inv(c: Config, s: State) {
    ControlInv(c, s) && UnitsInv(c, s) && PassInv(s) && SleepInv(c, s)
  }

  /** Also true when only signals wake the consumer: a woken one has had a signal. */
  ghost predicate FairInv(c: Config, s: State) {
    Inv(c, s) && (s.cons == CWaiting && !Asleep(s) ==> Sent(c.n, s.prod) > 0)
  }

  lemma KeepsControlInv(c: Config, s: State, a: Act)
    requires ControlInv(c, s) && Next(c, s, a).Some?
    ensures ControlInv(c, Next(c, s, a).value)
  {
  }

  lemma KeepsUnitsInv(c: Config, s: State, a: Act)
    requires ControlInv(c, s) && UnitsInv(c, s) && Next(c, s, a).Some?
    ensures UnitsInv(c, Next(c, s, a).value)
  {
  }

  lemma KeepsPassInv(c: Config, s: State, a: Act)
    requires ControlInv(c, s) && UnitsInv(c, s) && PassInv(s) && Next(c, s, a).Some?
    ensures PassInv(Next(c, s, a).value)
  {
  }

  lemma KeepsSleepInv(c: Config, s: State, a: Act)
    requires ControlInv(c, s) && UnitsInv(c, s) && SleepInv(c, s) && Next(c, s, a).Some?
    ensures SleepInv(c, Next(c, s, a).value)
  {
  }

  lemma KeepsInv(c: Config, s: State, a: Act)
    requires Inv(c, s) && Next(c, s, a).Some?
    ensures Inv(c, Next(c, s, a).value)
  {
    hide ControlInv, UnitsInv, PassInv, SleepInv, Next;
    KeepsControlInv(c, s, a);
    KeepsUnitsInv(c, s, a);
    KeepsPassInv(c, s, a);
    KeepsSleepInv(c, s, a);
  }

  lemma KeepsFairInv(c: Config, s: State, a: Act)
    requires FairInv(c, s) && !c.spurious && Next(c, s, a).Some?
    ensures FairInv(c, Next(c, s, a).value)
  {
    KeepsInv(c, s, a);
    hide Inv, UnitsInv, SleepInv;
  }

  lemma ReachableInv(c: Config, s: State)
    requires Reachable(c, s)
    ensures Inv(c, s) && (!c.spurious ==> FairInv(c, s))
  {
    assert FairInv(c, INIT);
    hide FairInv, Inv, Next;
    var sched: seq<Act> :| Exec(System(c), INIT, sched) == Some(s);
    forall t: State, a: Act | Inv(c, t) && System(c)(t, a).Some? ensures Inv(c, System(c)(t, a).value) {
      KeepsInv(c, t, a);
    }
    InvariantHolds(System(c), t => Inv(c, t), INIT, sched);
    if !c.spurious {
      forall t: State, a: Act | FairInv(c, t) && System(c)(t, a).Some? ensures FairInv(c, System(c)(t, a).value) {
        KeepsFairInv(c, t, a);
      }
      InvariantHolds(System(c), t => FairInv(c, t), INIT, sched);
    }
  }

  // ---------------------------------------------------------------------------------------------
  // What holds over every run
  // ---------------------------------------------------------------------------------------------

  /** Nothing is lost or duplicated, and the consumer's exact test cannot step over the total. */
  lemma UnitsAreConserved(c: Config, s: State)
    requires Reachable(c, s)
    ensures s.mon.owner == None ==> s.available + s.consumed == Produced(c.n, s.prod)
    ensures s.consumed <= c.n
    ensures AllExited(s) ==> s.consumed == c.n && s.available == 0
  {
    ReachableInv(c, s);
    hide SleepInv;
  }

  /** And at every moment, inside the critical sections too: a unit is counted as consumed before it is taken
      off the available ones. */
  lemma UnitsAlways(c: Config, s: State)
    requires Reachable(c, s)
    ensures s.available + s.consumed == Produced(c.n, s.prod) + if s.cons == CTake then 1 else 0
    ensures s.available >= 0
  {
    ReachableInv(c, s);
    hide SleepInv;
  }

  /** Nobody waits except for the mutex while the other has it, or for a signal; and who waited for the mutex
      has it then. */
  lemma WhoCanMove(c: Config, s: State, a: Act)
    requires Reachable(c, s)
    ensures Next(c, s, a).Some? <==>
      match a
      case Producer => s.prod != PExited && (s.prod.PLock? ==> s.mon.owner == None)
      case Consumer =>
        && s.cons != CExited && (s.cons == CLock || s.cons == CWaiting ==> s.mon.owner == None)
        && (s.cons == CWaiting ==> !Asleep(s))
      case Spurious => c.spurious && Asleep(s)
    ensures a == Producer && s.prod.PLock? && Next(c, s, a).Some? ==> Next(c, s, a).value.mon.owner == Some(PRODUCER)
    ensures a == Consumer && (s.cons == CLock || s.cons == CWaiting) && Next(c, s, a).Some? ==>
      Next(c, s, a).value.mon.owner == Some(CONSUMER)
    ensures a == Spurious && Next(c, s, a).Some? ==> Next(c, s, a).value == s.(mon := s.mon.(sleeper := None))
  {
    ReachableInv(c, s);
    hide SleepInv, UnitsInv, PassInv;
  }

  /** Notes of an observer: completed passes, and `consumed` when a pass took the mutex. */
  function NotePass(passes: nat, s: State, a: Act): nat {
    if a == Consumer && s.cons == CUnlock then passes + 1 else passes
  }

  function NoteBase(base: int, s: State, a: Act): int {
    if a == Consumer && s.cons == CLock then s.consumed else base
  }

  /** What the theorems say of passes is about what happened in the run. */
  lemma HistoryIsTrue(c: Config, sched: seq<Act>)
    requires Exec(System(c), INIT, sched).Some?
    ensures Exec(System(c), INIT, sched).value.passes == Recorded(System(c), NotePass, 0, INIT, sched)
    ensures Exec(System(c), INIT, sched).value.passBase == Recorded(System(c), NoteBase, 0, INIT, sched)
  {
    var any := (s: State) => true;
    IsRecord(System(c), any, (s: State) => s.passes, NotePass, INIT, sched);
    IsRecord(System(c), any, (s: State) => s.passBase, NoteBase, INIT, sched);
  }

  /** A pass that reaches its unlock has consumed at least one unit since it took the mutex and left none;
      so no run makes more passes than there are units. */
  lemma PassesConsume(c: Config, s: State)
    requires Reachable(c, s)
    ensures s.passes <= s.consumed <= c.n
    ensures s.cons == CUnlock ==> s.passes <= s.passBase < s.consumed && s.available == 0
  {
    ReachableInv(c, s);
    hide SleepInv;
  }

  /** Any period-many consecutive numbers hold one that signals. */
  lemma SignalWithin(c: Config, lo: nat) returns (j: nat)
    ensures lo <= j < lo + c.period && Signals(c, j)
  {
    var r := lo % c.period;
    if r == 0 {
      j := lo;
    } else {
      j := lo + (c.period - r);
      assert j == (lo / c.period + 1) * c.period;
      MultipleSignals(c, lo / c.period + 1);
    }
  }

  lemma SmallMultiple(p: int, d: int)
    requires p > 0
    ensures d > 0 ==> p * d >= p
    ensures d < 0 ==> p * d <= -p
  {
    if d > 0 {
      assert p * (d - 1) >= 0;
    } else if d < 0 {
      assert p * (-d - 1) >= 0;
    }
  }

  lemma MultipleSignals(c: Config, q: nat)
    ensures q * c.period >= 0 && Signals(c, q * c.period)
  {
    var p: int := c.period;
    var a := q * p;
    var k, r := a / p, a % p;
    assert a == p * k + r;
    assert p * (q - k) == r;
    SmallMultiple(p, q - k);
  }

  /** A sleeping consumer lags by at most one period, and by a whole one only while the producer has
      still to send the signal for the last unit. */
  lemma SleeperLag(c: Config, s: State)
    requires Reachable(c, s) && Asleep(s)
    ensures 0 <= s.available <= c.period
    ensures s.available == c.period ==> (s.prod.PUnlock? || s.prod.PSignal?) && Signals(c, s.prod.j)
  {
    ReachableInv(c, s);
    var j := SignalWithin(c, s.consumed);
    assert Sent(c.n, s.prod) <= j;
  }

  /** Whatever the interleaving, a stuck run has a finished producer, a sleeping consumer, and at most
      (n-1) % period units that nobody will consume. */
  lemma StuckShape(c: Config, s: State)
    requires Reachable(c, s) && Stuck(c, s)
    ensures s.prod == PExited && s.cons == CWaiting && Asleep(s)
    ensures c.n > 0 && 1 <= s.available <= (c.n - 1) % c.period && s.available + s.consumed == c.n
  {
    ReachableInv(c, s);
    var last := c.n - 1 - (c.n - 1) % c.period;
    assert last == (c.n - 1) / c.period * c.period;
    MultipleSignals(c, (c.n - 1) / c.period);
    assert Signals(c, last);
  }

  // ---------------------------------------------------------------------------------------------
  // Stuck runs exist, and exactly for which totals
  // ---------------------------------------------------------------------------------------------

  /** The producer alone makes one unit while the consumer is away from the mutex. */
  lemma ProduceOne(c: Config, s: State, j: nat)
    requires s.prod == PTest(j) && j < c.n && s.mon.owner == None
    requires s.mon.sleeper == None || !Signals(c, j)
    ensures Reaches(System(c), s, s.(prod := PTest(j + 1), available := s.available + 1))
  {
    var s1 := s.(prod := PLock(j));
    var s2 := s.(prod := PIncrement(j), mon := s.mon.(owner := Some(PRODUCER)));
    var s3 := s2.(prod := PUnlock(j), available := s.available + 1);
    var s4 := s.(prod := PSignal(j), available := s.available + 1);
    var s5 := s.(prod := PTest(j + 1), available := s.available + 1);
    ReachesStep(System(c), s, Producer, s1);
    ReachesThen(System(c), s, s1, Producer, s2);
    ReachesThen(System(c), s, s2, Producer, s3);
    ReachesThen(System(c), s, s3, Producer, s4);
    ReachesThen(System(c), s, s4, Producer, s5);
  }

  lemma {:induction false} ProduceMany(c: Config, s: State, i: nat, j: nat)
    requires s.prod == PTest(i) && i <= j <= c.n && s.mon.owner == None
    requires s.mon.sleeper == None || forall k | i <= k < j :: !Signals(c, k)
    ensures Reaches(System(c), s, s.(prod := PTest(j), available := s.available + (j - i)))
    decreases j - i
  {
    if i == j {
      ReachesSelf(System(c), s);
    } else {
      var t := s.(prod := PTest(i + 1), available := s.available + 1);
      ProduceOne(c, s, i);
      ProduceMany(c, t, i + 1, j);
      ReachesTrans(System(c), s, t, t.(prod := PTest(j), available := t.available + (j - (i + 1))));
    }
  }

  /** The consumer with the mutex takes everything there is. */
  lemma {:induction false} DrainAll(c: Config, s: State)
    requires s.cons == CDrain && s.available >= 0
    ensures Reaches(System(c), s, s.(consumed := s.consumed + s.available, available := 0))
    decreases s.available
  {
    if s.available == 0 {
      ReachesSelf(System(c), s);
    } else {
      var s1 := s.(cons := CConsume);
      var s2 := s.(cons := CTake, consumed := s.consumed + 1);
      var t := s.(consumed := s.consumed + 1, available := s.available - 1);
      ReachesStep(System(c), s, Consumer, s1);
      ReachesThen(System(c), s, s1, Consumer, s2);
      ReachesThen(System(c), s, s2, Consumer, t);
      DrainAll(c, t);
      ReachesTrans(System(c), s, t, t.(consumed := t.consumed + t.available, available := 0));
    }
  }

  /** The consumer alone consumes what is there, finds nothing more, and falls asleep. */
  lemma ConsumeAndSleep(c: Config, s: State)
    requires s.cons == CTest && s.mon == IDLE && s.available > 0 && s.consumed >= 0
    requires s.consumed + s.available < c.n
    ensures Reaches(System(c), s, s.(cons := CWaiting, consumed := s.consumed + s.available, available := 0,
                                     mon := Monitor(None, Some(CONSUMER)), passes := s.passes + 1,
                                     passBase := s.consumed + s.available))
  {
    var held := Monitor(Some(CONSUMER), None);
    var s1 := s.(cons := CLock);
    var s2 := s.(cons := CTestAvailable, mon := held, passBase := s.consumed);
    var s3 := s2.(cons := CDrain);
    var s4 := s3.(consumed := s.consumed + s.available, available := 0);
    ReachesStep(System(c), s, Consumer, s1);
    ReachesThen(System(c), s, s1, Consumer, s2);
    ReachesThen(System(c), s, s2, Consumer, s3);
    DrainAll(c, s3);
    ReachesTrans(System(c), s, s3, s4);
    var s5 := s4.(cons := CUnlock);
    var s6 := s4.(cons := CTest, mon := IDLE, passes := s.passes + 1);
    ReachesThen(System(c), s, s4, Consumer, s5);
    ReachesThen(System(c), s, s5, Consumer, s6);
    FallAsleep(c, s6);
    ReachesTrans(System(c), s, s6,
                 s6.(cons := CWaiting, mon := Monitor(None, Some(CONSUMER)), passBase := s6.consumed));
  }

  lemma FallAsleep(c: Config, s: State)
    requires s.cons == CTest && s.mon == IDLE && s.available == 0 && s.consumed != c.n
    ensures Reaches(System(c), s, s.(cons := CWaiting, mon := Monitor(None, Some(CONSUMER)), passBase := s.consumed))
  {
    var s1 := s.(cons := CLock);
    var s2 := s.(cons := CTestAvailable, mon := Monitor(Some(CONSUMER), None), passBase := s.consumed);
    var s3 := s2.(cons := CWait);
    ReachesStep(System(c), s, Consumer, s1);
    ReachesThen(System(c), s, s1, Consumer, s2);
    ReachesThen(System(c), s, s2, Consumer, s3);
    ReachesThen(System(c), s, s3, Consumer, s3.(cons := CWaiting, mon := Monitor(None, Some(CONSUMER))));
  }

  /** After the last signalling unit come (n-1) % period units without a signal. */
  lemma QuietTail(c: Config, k: nat)
    requires c.n > 0 && c.n - (c.n - 1) % c.period <= k < c.n
    ensures !Signals(c, k)
  {
    var p: int, last: int := c.period, c.n - 1;
    var d := k / p - last / p;
    assert p * d == p * (k / p) - p * (last / p);
    assert k == p * (k / p) + k % p && last == p * (last / p) + last % p;
    SmallMultiple(p, d);
  }

  /** Every number of stranded units that the shape allows is stranded by some run: the consumer takes
      all but the last k units in one pass and sleeps through the rest. */
  lemma StuckRunExists(c: Config, k: nat) returns (s: State)
    requires c.n > 0 && 1 <= k <= (c.n - 1) % c.period
    ensures Reachable(c, s) && Stuck(c, s) && s.available == k
  {
    var m := c.n - k;
    assert (c.n - 1) % c.period <= c.n - 1 by { ModAtMost(c.n - 1, c.period); }
    var s1 := INIT.(prod := PTest(m), available := m);
    ProduceMany(c, INIT, 0, m);
    var s2 := s1.(cons := CWaiting, consumed := m, available := 0, mon := Monitor(None, Some(CONSUMER)),
                  passes := 1, passBase := m);
    ConsumeAndSleep(c, s1);
    ReachesTrans(System(c), INIT, s1, s2);
    forall j | m <= j < c.n ensures !Signals(c, j) {
      QuietTail(c, j);
    }
    ProduceMany(c, s2, m, c.n);
    var s3 := s2.(prod := PTest(c.n), available := k);
    ReachesTrans(System(c), INIT, s2, s3);
    s := s3.(prod := PExited);
    ReachesThen(System(c), INIT, s3, Producer, s);
  }

  lemma ModAtMost(a: nat, p: nat)
    requires p > 0
    ensures a % p <= a
  {
    assert a == p * (a / p) + a % p;
  }

  /** The program can get stuck if and only if the last unit produced is not one that signals. */
  lemma CanGetStuckIff(c: Config)
    ensures (exists s :: Reachable(c, s) && Stuck(c, s)) <==> c.n > 0 && (c.n - 1) % c.period != 0
  {
    if s :| Reachable(c, s) && Stuck(c, s) {
      StuckShape(c, s);
    }
    if c.n > 0 && (c.n - 1) % c.period != 0 {
      var s := StuckRunExists(c, 1);
    }
  }

  /** The producer up to the unlock after unit j. */
  lemma ProduceToUnlock(c: Config, s: State, j: nat) returns (t: State)
    requires s.prod == PTest(j) && j < c.n && s.mon.owner == None
    ensures Reaches(System(c), s, t)
    ensures t == s.(prod := PUnlock(j), available := s.available + 1, mon := s.mon.(owner := Some(PRODUCER)))
  {
    var s1 := s.(prod := PLock(j));
    var s2 := s.(prod := PIncrement(j), mon := s.mon.(owner := Some(PRODUCER)));
    t := s2.(prod := PUnlock(j), available := s.available + 1);
    ReachesStep(System(c), s, Producer, s1);
    ReachesThen(System(c), s, s1, Producer, s2);
    ReachesThen(System(c), s, s2, Producer, t);
  }

  /** The consumer takes the first unit and sleeps while a whole period is produced. */
  lemma FullLag(c: Config) returns (s: State)
    requires 1 < c.period < c.n
    ensures Reachable(c, s) && Asleep(s) && s.available == c.period
  {
    ReachesSelf(System(c), INIT);
    ProduceOne(c, INIT, 0);
    var s1 := INIT.(prod := PTest(1), available := 1);
    ConsumeAndSleep(c, s1);
    var s2 := s1.(cons := CWaiting, consumed := 1, available := 0, mon := Monitor(None, Some(CONSUMER)),
                  passes := 1, passBase := 1);
    ReachesTrans(System(c), INIT, s1, s2);
    ProduceMany(c, s2, 1, c.period);
    var s3 := s2.(prod := PTest(c.period), available := c.period - 1);
    ReachesTrans(System(c), INIT, s2, s3);
    s := ProduceToUnlock(c, s3, c.period);
    ReachesTrans(System(c), INIT, s3, s);
  }

  /** With a signal for every unit, the lag is reached by the first one. */
  lemma FullLagOfOne(c: Config) returns (s: State)
    requires c.period == 1 && c.n > 0
    ensures Reachable(c, s) && Asleep(s) && s.available == c.period
  {
    FallAsleep(c, INIT);
    var s1 := INIT.(cons := CWaiting, mon := Monitor(None, Some(CONSUMER)));
    s := ProduceToUnlock(c, s1, 0);
    ReachesTrans(System(c), INIT, s1, s);
  }

  /** The lag of a whole period is reached by some run if and only if there is a signal to come after the
      first unit, or, when every unit has one, any unit at all. */
  lemma FullLagIff(c: Config)
    ensures (exists s :: Reachable(c, s) && Asleep(s) && s.available == c.period)
            <==> c.n > if c.period == 1 then 0 else c.period
  {
    if s :| Reachable(c, s) && Asleep(s) && s.available == c.period {
      SleeperLag(c, s);
      ReachableInv(c, s);
      hide SleepInv;
    }
    if c.period > 1 && c.n > c.period {
      var s := FullLag(c);
    }
    if c.period == 1 && c.n > 0 {
      var s := FullLagOfOne(c);
    }
  }

  const TOTAL_COUNT: nat := 20000

  /** For the constants in the file, stuck runs exist and strand one to nine units. */
  lemma FileConstantsGetStuck(k: nat)
    ensures (exists s :: Reachable(Config(TOTAL_COUNT, 10, false), s) && Stuck(Config(TOTAL_COUNT, 10, false), s)
                         && s.available == k)
            <==> 1 <= k <= 9
  {
    var c := Config(TOTAL_COUNT, 10, false);
    if s :| Reachable(c, s) && Stuck(c, s) && s.available == k {
      StuckShape(c, s);
    }
    if 1 <= k <= 9 {
      var s := StuckRunExists(c, k);
    }
  }

  /** The consumer's next step ends a wait: it was signalled, takes the mutex, and finds nothing available. */
  predicate FindsNothing(c: Config, s: State) {
    && s.cons == CWaiting && ConsumerNext(c, s).Some?
    && ConsumerNext(c, s).value.cons == CTestAvailable && ConsumerNext(c, s).value.available == 0
  }

  /** Unlike in a protocol that signals for work still to be done, a signalled consumer may find nothing
      when it has the mutex again: it consumed the unit before its signal was sent.  That takes a second
      unit to wait for. */
  lemma WokenForNothingIff(n: nat, period: Period)
    ensures (exists s :: Reachable(Config(n, period, false), s) && FindsNothing(Config(n, period, false), s))
            <==> n >= 2
  {
    var c := Config(n, period, false);
    if s :| Reachable(c, s) && FindsNothing(c, s) {
      ReachableInv(c, s);
    }
    if n >= 2 {
      var s := WokenForNothing(c);
    }
  }

  lemma WokenForNothing(c: Config) returns (s: State)
    requires c.n >= 2
    ensures Reachable(c, s) && FindsNothing(c, s)
  {
    var s1 := INIT.(prod := PLock(0));
    var s2 := INIT.(prod := PIncrement(0), mon := Monitor(Some(PRODUCER), None));
    var s3 := s2.(prod := PUnlock(0), available := 1);
    var s4 := s3.(prod := PSignal(0), mon := IDLE);
    ReachesStep(System(c), INIT, Producer, s1);
    ReachesThen(System(c), INIT, s1, Producer, s2);
    ReachesThen(System(c), INIT, s2, Producer, s3);
    ReachesThen(System(c), INIT, s3, Producer, s4);
    ConsumeAndSleep(c, s4);
    var s5 := s4.(cons := CWaiting, consumed := 1, available := 0, mon := Monitor(None, Some(CONSUMER)),
                  passes := 1, passBase := 1);
    ReachesTrans(System(c), INIT, s4, s5);
    s := s5.(prod := PTest(1), mon := IDLE);
    ReachesThen(System(c), INIT, s5, Producer, s);
  }

  // ---------------------------------------------------------------------------------------------
  // Every run ends
  // ---------------------------------------------------------------------------------------------

  function ProducerRank(n: nat, p: ProducerPc): nat {
    match p
    case PTest(j) => if j <= n then 5 * (n - j) + 1 else 1
    case PLock(j) => if j < n then 5 * (n - j) else 0
    case PIncrement(j) => if j < n then 5 * (n - j) - 1 else 0
    case PUnlock(j) => if j < n then 5 * (n - j) - 2 else 0
    case PSignal(j) => if j < n then 5 * (n - j) - 3 else 0
    case PExited => 0
  }

  /** A signal puts the consumer three steps back, at most; a unit consumed is worth eight. */
  function ConsumerRank(s: State): nat {
    match s.cons
    case CTest => 10
    case CLock => 9
    case CTestAvailable => 8
    case CWait => 7
    case CWaiting => if Asleep(s) then 6 else 9
    case CDrain => if s.available > 0 then 7 else 12
    case CConsume => 6
    case CTake => 13
    case CUnlock => 11
    case CExited => 0
  }

  function Measure(n: nat, s: State): nat {
    4 * ProducerRank(n, s.prod) + (if s.consumed <= n then 8 * (n - s.consumed) else 0) + ConsumerRank(s)
  }

  lemma MeasureDecreases(c: Config, s: State, a: Act)
    requires Inv(c, s) && !c.spurious && Next(c, s, a).Some?
    ensures Measure(c.n, Next(c, s, a).value) < Measure(c.n, s)
  {
    hide SleepInv;
  }

  /** Without spurious wakeups no run is longer than this, whatever the interleaving. */
  lemma RunsAreFinite(c: Config, sched: seq<Act>)
    requires !c.spurious && Exec(System(c), INIT, sched).Some?
    ensures |sched| <= 28 * c.n + 14
  {
    assert FairInv(c, INIT) && Measure(c.n, INIT) == 28 * c.n + 14;
    hide FairInv, Inv, Next, Measure;
    forall s: State, a: Act | Inv(c, s) && System(c)(s, a).Some?
      ensures Inv(c, System(c)(s, a).value) && Measure(c.n, System(c)(s, a).value) < Measure(c.n, s)
    {
      KeepsInv(c, s, a);
      MeasureDecreases(c, s, a);
    }
    InitInv(c);
    ScheduleIsBounded(System(c), s => Inv(c, s), s => Measure(c.n, s), INIT, sched);
  }

  lemma InitInv(c: Config)
    ensures FairInv(c, INIT) && Inv(c, INIT)
  {
  }

  /** So a run that cannot go on has consumed all n units or is one of the stuck ones; when the last unit
      signals, it is the former. */
  lemma MaximalRunsConsumeEverything(c: Config, s: State)
    requires Reachable(c, s) && Blocked(System(c), s)
    ensures (AllExited(s) && s.consumed == c.n && s.available == 0) || Stuck(c, s)
    ensures c.n == 0 || (c.n - 1) % c.period == 0 ==> AllExited(s)
  {
    UnitsAreConserved(c, s);
    assert System(c)(s, Producer) == None && System(c)(s, Consumer) == None;
    if Stuck(c, s) {
      StuckShape(c, s);
    }
  }

  // ---------------------------------------------------------------------------------------------
  // The program on its own variables
  // ---------------------------------------------------------------------------------------------

  /** The globals of the program and the program counters of its two threads; a method executes the next
      atomic step of one thread in place, or reports that the thread cannot move. */
  class Process {
    const config: Config
    var prod: ProducerPc
    var cons: ConsumerPc
    var available: int
    var consumed: int
    var mon: Monitor
    ghost var passes: nat
    ghost var passBase: int

    ghost function View(): State reads this {
      State(prod, cons, available, consumed, mon, passes, passBase)
    }

    constructor (c: Config)
      ensures config == c && View() == INIT
    {
      config := c;
      prod, cons, available, consumed, mon, passes, passBase := PTest(0), CTest, 0, 0, IDLE, 0, 0;
    }

    method ProducerStep() returns (moved: bool)
      modifies this`prod, this`available, this`mon
      ensures moved == ProducerNext(config, old(View())).Some?
      ensures View() == if moved then ProducerNext(config, old(View())).value else old(View())
    {
      moved := true;
      match prod
      case PTest(j) => prod := if j < config.n then PLock(j) else PExited;
      case PLock(j) =>
        if mon.owner == None { mon, prod := mon.(owner := Some(PRODUCER)), PIncrement(j); } else { moved := false; }
      case PIncrement(j) => available, prod := available + 1, PUnlock(j);
      case PUnlock(j) =>
        if mon.owner == Some(PRODUCER) { mon, prod := mon.(owner := None), PSignal(j); } else { moved := false; }
      case PSignal(j) =>
        if j % config.period == 0 { mon := mon.(sleeper := None); }
        prod := PTest(j + 1);
      case PExited => moved := false;
    }

    method ConsumerStep() returns (moved: bool)
      modifies this`cons, this`available, this`consumed, this`mon, this`passes, this`passBase
      ensures moved == ConsumerNext(config, old(View())).Some?
      ensures View() == if moved then ConsumerNext(config, old(View())).value else old(View())
    {
      moved := true;
      match cons
      case CTest => cons := if consumed != config.n then CLock else CExited;
      case CLock =>
        if mon.owner == None {
          mon, cons := mon.(owner := Some(CONSUMER)), CTestAvailable;
          passBase := consumed;
        } else { moved := false; }
      case CTestAvailable => cons := if available == 0 then CWait else CDrain;
      case CWait =>
        if mon.owner == Some(CONSUMER) {
          mon, cons := Monitor(None, Some(CONSUMER)), CWaiting;
        } else { moved := false; }
      case CWaiting =>
        if mon.sleeper != Some(CONSUMER) && mon.owner == None {
          mon, cons := mon.(owner := Some(CONSUMER)), CTestAvailable;
        } else { moved := false; }
      case CDrain => cons := if available > 0 then CConsume else CUnlock;
      case CConsume => consumed, cons := consumed + 1, CTake;
      case CTake => available, cons := available - 1, CDrain;
      case CUnlock =>
        if mon.owner == Some(CONSUMER) {
          mon, cons := mon.(owner := None), CTest;
          passes := passes + 1;
        } else { moved := false; }
      case CExited => moved := false;
    }

    /** The two threads in turn, until neither can move: everything was consumed, or the tail was stranded. */
    method RunToTheEnd()
      requires View() == INIT && !config.spurious
      modifies this
      ensures (AllExited(View()) && consumed == config.n && available == 0) || Stuck(config, View())
      ensures config.n == 0 || (config.n - 1) % config.period == 0 ==> AllExited(View())
    {
      hide Inv, Measure;
      var moved := true;
      ReachesSelf(System(config), INIT);
      while moved
        invariant Reachable(config, View())
        invariant moved || Blocked(System(config), View())
        decreases Measure(config.n, View()) + (if moved then 1 else 0)
      {
        ghost var s := View();
        ReachableInv(config, s);
        moved := ProducerStep();
        if moved {
          MeasureDecreases(config, s, Producer);
          ReachesThen(System(config), INIT, s, Producer, View());
        } else {
          moved := ConsumerStep();
          if moved {
            MeasureDecreases(config, s, Consumer);
            ReachesThen(System(config), INIT, s, Consumer, View());
          }
        }
      }
      MaximalRunsConsumeEverything(config, View());
    }
  }
}
