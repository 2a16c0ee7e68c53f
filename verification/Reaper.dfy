/** thread_joinTerm.c: N workers mark themselves terminated and signal; one joiner sleeps until a worker
    has terminated, then scans the table and joins every terminated worker while it holds the mutex. */
module Reaper {
  import opened Counting
  import opened Pthreads
  import opened Runs

  datatype Status = Alive | Terminated | Joined

  datatype WorkerPc =
    WUnborn | WStoreAlive | WLock | WStoreTerminated | WIncrement | WUnlock | WSignal | WExited

  datatype JoinerPc =
    | JUnborn
    | JTest                       // the test of the outer loop, without the mutex
    | JLock
    | JTestTerm                   // the test of the waiting loop
    | JWait                       // about to call pthread_cond_wait
    | JWaiting                    // inside it: asleep, or woken and taking the mutex again
    | JScan(idx: nat)             // the loop head and the test of the slot's status
    | JJoin(idx: nat)             // inside pthread_join
    | JStore(idx: nat)            // marking the slot
    | JCount(idx: nat)            // moving it from one counter to the other
    | JUnlock
    | JExited

  datatype MainPc = MCreateJoiner | MCreate(idx: nat) | MJoin | MExited

  datatype Act = Main | Joiner | Worker(idx: nat) | Spurious

  /** The number of workers, and whether the condition variable may wake its sleeper for no reason. */
  datatype Config = Config(n: nat, spurious: bool)

  /** The shared variables and the program counters.  The last four fields only record history: completed
      passes of the joiner, `joinedNum` at the start of the current pass, how often each worker was joined,
      and the table when the last scan began.  No action depends on them. */
  datatype State = State(
    main: MainPc, joiner: JoinerPc, workers: seq<WorkerPc>,
    status: seq<Status>, termNum: int, joinedNum: int, mon: Monitor,
    passes: nat, passBase: int, joins: seq<nat>, start: seq<Status>)

  /** Worker i is thread i of the mutex, the joiner is thread n. */
  predicate Shaped(n: nat, s: State) {
    |s.workers| == n && |s.status| == n && |s.joins| == n && |s.start| == n
  }

  function Init(n: nat): State {
    State(MCreateJoiner, JUnborn, seq(n, _ => WUnborn), seq(n, _ => Alive), 0, 0, IDLE,
          0, 0, seq(n, _ => 0), seq(n, _ => Alive))
  }

  function MainNext(n: nat, s: State): Option<State>
    requires Shaped(n, s)
  {
    match s.main
    case MCreateJoiner => Some(s.(main := MCreate(0), joiner := JTest))
    case MCreate(k) =>
      if k < n then Some(s.(main := MCreate(k + 1), workers := s.workers[k := WStoreAlive]))
      else Some(s.(main := MJoin))
    case MJoin => if s.joiner == JExited then Some(s.(main := MExited)) else None
    case MExited => None
  }

  function WorkerNext(n: nat, s: State, i: nat): Option<State>
    requires Shaped(n, s) && i < n
  {
    match s.workers[i]
    case WUnborn => None
    case WStoreAlive => Some(s.(workers := s.workers[i := WLock], status := s.status[i := Alive]))
    case WLock =>
      (match Lock(s.mon, i)
       case None => None
       case Some(m) => Some(s.(workers := s.workers[i := WStoreTerminated], mon := m)))
    case WStoreTerminated =>
      Some(s.(workers := s.workers[i := WIncrement], status := s.status[i := Terminated]))
    case WIncrement => Some(s.(workers := s.workers[i := WUnlock], termNum := s.termNum + 1))
    case WUnlock =>
      (match Unlock(s.mon, i)
       case None => None
       case Some(m) => Some(s.(workers := s.workers[i := WSignal], mon := m)))
    case WSignal => Some(s.(workers := s.workers[i := WExited], mon := Signal(s.mon)))
    case WExited => None
  }

  function JoinerNext(n: nat, s: State): Option<State>
    requires Shaped(n, s)
  {
    match s.joiner
    case JUnborn => None
    case JTest => Some(s.(joiner := if s.joinedNum != n then JLock else JExited))
    case JLock =>
      (match Lock(s.mon, n)
       case None => None
       case Some(m) => Some(s.(joiner := JTestTerm, mon := m, passBase := s.joinedNum)))
    case JTestTerm =>
      if s.termNum == 0 then Some(s.(joiner := JWait)) else Some(s.(joiner := JScan(0), start := s.status))
    case JWait =>
      (match Wait(s.mon, n)
       case None => None
       case Some(m) => Some(s.(joiner := JWaiting, mon := m)))
    case JWaiting =>
      (match Relock(s.mon, n)
       case None => None
       case Some(m) => Some(s.(joiner := JTestTerm, mon := m)))
    case JScan(k) =>
      if k >= n then Some(s.(joiner := JUnlock))
      else Some(s.(joiner := if s.status[k] == Terminated then JJoin(k) else JScan(k + 1)))
    case JJoin(k) =>
      if k < n && s.workers[k] == WExited
      then Some(s.(joiner := JStore(k), joins := s.joins[k := s.joins[k] + 1])) else None
    case JStore(k) =>
      if k < n then Some(s.(joiner := JCount(k), status := s.status[k := Joined])) else None
    case JCount(k) =>
      Some(s.(joiner := JScan(k + 1), termNum := s.termNum - 1, joinedNum := s.joinedNum + 1))
    case JUnlock =>
      (match Unlock(s.mon, n)
       case None => None
       case Some(m) => Some(s.(joiner := JTest, mon := m, passes := s.passes + 1)))
    case JExited => None
  }

  function Next(c: Config, s: State, a: Act): Option<State> {
    if !Shaped(c.n, s) then None
    else match a
      case Main => MainNext(c.n, s)
      case Joiner => JoinerNext(c.n, s)
      case Worker(i) => if i < c.n then WorkerNext(c.n, s, i) else None
      case Spurious =>
        if !c.spurious then None
        else match WakeSpuriously(s.mon, c.n) case None => None case Some(m) => Some(s.(mon := m))
  }

  function System(c: Config): (State, Act) -> Option<State> {
    (s, a) => Next(c, s, a)
  }

  // ---------------------------------------------------------------------------------------------
  // The invariant
  // ---------------------------------------------------------------------------------------------

  predicate WorkerOwns(w: WorkerPc) { w == WStoreTerminated || w == WIncrement || w == WUnlock }

  predicate JoinerOwns(j: JoinerPc) {
    j == JTestTerm || j == JWait || j.JScan? || j.JJoin? || j.JStore? || j.JCount? || j == JUnlock
  }

  predicate Asleep(n: nat, s: State) { s.mon.sleeper == Some(n) }

  ghost predicate OwnerInv(n: nat, s: State)
    requires Shaped(n, s)
  {
    && (s.mon.owner == Some(n) <==> JoinerOwns(s.joiner))
    && (forall i | 0 <= i < n :: s.mon.owner == Some(i) <==> WorkerOwns(s.workers[i]))
    && (s.mon.owner.Some? ==> s.mon.owner.value <= n)
    && (s.mon.sleeper.Some? ==> Asleep(n, s) && s.joiner == JWaiting)
  }

  function Created(n: nat, m: MainPc): nat {
    match m case MCreateJoiner => 0 case MCreate(k) => k case _ => n
  }

  ghost predicate BirthInv(n: nat, s: State)
    requires Shaped(n, s)
  {
    && Created(n, s.main) <= n
    && (s.main == MCreateJoiner <==> s.joiner == JUnborn)
    && (s.main == MExited ==> s.joiner == JExited)
    && (forall i | 0 <= i < n :: s.workers[i] == WUnborn <==> i >= Created(n, s.main))
  }

  /** The worker's program counter determines its status, except that only an exited one may be joined. */
  predicate StatusFits(w: WorkerPc, x: Status) {
    match x
    case Alive => w == WUnborn || w == WStoreAlive || w == WLock || w == WStoreTerminated
    case Terminated => w == WIncrement || w == WUnlock || w == WSignal || w == WExited
    case Joined => w == WExited
  }

  function Uncounted(n: nat, s: State): int
    requires Shaped(n, s)
  {
    if s.mon.owner.Some? && s.mon.owner.value < n && s.workers[s.mon.owner.value] == WIncrement then 1 else 0
  }

  ghost predicate TableInv(n: nat, s: State)
    requires Shaped(n, s)
  {
    forall i | 0 <= i < n :: StatusFits(s.workers[i], s.status[i])
  }

  /** A worker has been joined once if its slot says so, or is about to; otherwise never. */
  ghost predicate JoinsInv(n: nat, s: State)
    requires Shaped(n, s)
  {
    forall i | 0 <= i < n :: s.joins[i] == if s.status[i] == Joined || s.joiner == JStore(i) then 1 else 0
  }

  /** termNum counts the terminated slots, but for a store whose count is still to come. */
  ghost predicate TermInv(n: nat, s: State)
    requires Shaped(n, s)
  {
    s.termNum == (multiset(s.status)[Terminated] as int) - Uncounted(n, s) + (if s.joiner.JCount? then 1 else 0)
  }

  ghost predicate JoinedInv(n: nat, s: State)
    requires Shaped(n, s)
  {
    s.joinedNum == (multiset(s.status)[Joined] as int) - (if s.joiner.JCount? then 1 else 0)
  }

  /** How far the scan has come: everything before the index is done. */
  function ScanIndex(n: nat, j: JoinerPc): nat {
    match j
    case JScan(k) => k case JJoin(k) => k case JStore(k) => k case JCount(k) => k case JUnlock => n case _ => 0
  }

  ghost predicate ScanInv(n: nat, s: State)
    requires Shaped(n, s)
  {
    var k := ScanIndex(n, s.joiner);
    && k <= n
    && (forall i | 0 <= i < k :: s.status[i] != Terminated)
    && (s.joiner.JJoin? || s.joiner.JStore? ==> k < n && s.status[k] == Terminated)
    && (s.joiner.JStore? ==> s.workers[k] == WExited)
    && (s.joiner.JCount? ==> k < n && s.status[k] == Joined)
  }

  /** Every slot is as it was when the scan began, but for the terminated ones that the scan has marked. */
  ghost predicate StartInv(n: nat, s: State)
    requires Shaped(n, s)
  {
    s.joiner.JScan? || s.joiner.JJoin? || s.joiner.JStore? || s.joiner.JCount? || s.joiner == JUnlock ==>
      forall i | 0 <= i < n ::
        s.status[i] == if s.start[i] == Terminated && (i < ScanIndex(n, s.joiner) || s.joiner == JCount(i))
                       then Joined else s.start[i]
  }

  /** A pass starts with something to join, and ends having joined it. */
  ghost predicate PassInv(n: nat, s: State) {
    && s.passes <= s.joinedNum <= n
    && (JoinerOwns(s.joiner) || s.joiner == JWaiting ==> s.passes <= s.passBase <= s.joinedNum)
    && (s.joiner.JScan? ==> s.passBase < s.joinedNum || s.termNum > 0)
    && (s.joiner == JUnlock ==> s.passBase < s.joinedNum && s.termNum == 0)
    && (s.joiner == JLock || s.joiner == JTestTerm || s.joiner == JWait || s.joiner == JWaiting ==> s.joinedNum < n)
    && (s.joiner == JTestTerm ==> s.termNum >= 0)
    && (s.joiner == JWait ==> s.termNum == 0)
    && (s.joiner == JExited ==> s.joinedNum == n)
  }

  /** While the joiner sleeps, every terminated worker still has its signal to send. */
  ghost predicate NoLostWakeup(n: nat, s: State)
    requires Shaped(n, s)
  {
    Asleep(n, s) ==> forall i | 0 <= i < n :: s.status[i] == Terminated ==> s.workers[i] != WExited
  }

  ghost predicate Inv(n: nat, s: State) {
    Shaped(n, s) && OwnerInv(n, s) && BirthInv(n, s) && TableInv(n, s) && JoinsInv(n, s) && TermInv(n, s)
    && JoinedInv(n, s) && ScanInv(n, s) && StartInv(n, s) && PassInv(n, s) && NoLostWakeup(n, s)
  }

  /** Also true when nothing wakes the joiner but a signal. */
  ghost predicate FairInv(n: nat, s: State) {
    Inv(n, s) && (s.joiner == JWaiting && !Asleep(n, s) ==> s.termNum > 0)
  }

  lemma InitInv(n: nat)
    ensures FairInv(n, Init(n))
  {
    var st := Init(n).status;
    assert forall x | x in st :: x == Alive;
    assert multiset(st)[Terminated] == 0 && multiset(st)[Joined] == 0;
  }

  lemma NextKeepsShape(c: Config, s: State, a: Act)
    requires Next(c, s, a).Some?
    ensures Shaped(c.n, s) && Shaped(c.n, Next(c, s, a).value)
  {
  }

  lemma WorkerKeepsOwnerInv(n: nat, s: State, i: nat)
    requires Shaped(n, s) && OwnerInv(n, s) && i < n && WorkerNext(n, s, i).Some?
    ensures OwnerInv(n, WorkerNext(n, s, i).value)
  {
    hide JoinerOwns;
  }

  lemma JoinerKeepsOwnerInv(n: nat, s: State)
    requires Shaped(n, s) && OwnerInv(n, s) && JoinerNext(n, s).Some?
    ensures OwnerInv(n, JoinerNext(n, s).value)
  {
    hide WorkerOwns;
  }

  lemma MainKeepsOwnerInv(n: nat, s: State)
    requires Shaped(n, s) && OwnerInv(n, s) && BirthInv(n, s) && MainNext(n, s).Some?
    ensures OwnerInv(n, MainNext(n, s).value)
  {
  }

  lemma KeepsOwnerInv(c: Config, s: State, a: Act)
    requires Shaped(c.n, s) && OwnerInv(c.n, s) && BirthInv(c.n, s) && Next(c, s, a).Some?
    ensures OwnerInv(c.n, Next(c, s, a).value)
  {
    match a
    case Worker(i) => { hide OwnerInv, BirthInv, WorkerNext; WorkerKeepsOwnerInv(c.n, s, i); }
    case Joiner => { hide OwnerInv, BirthInv, JoinerNext; JoinerKeepsOwnerInv(c.n, s); }
    case Main => { hide OwnerInv, BirthInv, MainNext; MainKeepsOwnerInv(c.n, s); }
    case Spurious =>
  }

  lemma KeepsBirthInv(c: Config, s: State, a: Act)
    requires Shaped(c.n, s) && BirthInv(c.n, s)
    requires Next(c, s, a).Some?
    ensures BirthInv(c.n, Next(c, s, a).value)
  {
  }

  lemma WorkerKeepsTableInv(n: nat, s: State, i: nat)
    requires Shaped(n, s) && TableInv(n, s)
    requires i < n && WorkerNext(n, s, i).Some?
    ensures TableInv(n, WorkerNext(n, s, i).value)
  {
  }

  lemma JoinerKeepsTableInv(n: nat, s: State)
    requires Shaped(n, s) && TableInv(n, s) && ScanInv(n, s)
    requires JoinerNext(n, s).Some?
    ensures TableInv(n, JoinerNext(n, s).value)
  {
  }

  lemma MainKeepsTableInv(n: nat, s: State)
    requires Shaped(n, s) && BirthInv(n, s) && TableInv(n, s)
    requires MainNext(n, s).Some?
    ensures TableInv(n, MainNext(n, s).value)
  {
  }

  lemma KeepsTableInv(c: Config, s: State, a: Act)
    requires Shaped(c.n, s) && BirthInv(c.n, s) && TableInv(c.n, s) && ScanInv(c.n, s)
    requires Next(c, s, a).Some?
    ensures TableInv(c.n, Next(c, s, a).value)
  {
    match a
    case Worker(i) => { hide BirthInv, TableInv, ScanInv, WorkerNext; WorkerKeepsTableInv(c.n, s, i); }
    case Joiner => { hide BirthInv, TableInv, ScanInv, JoinerNext; JoinerKeepsTableInv(c.n, s); }
    case Main => { hide BirthInv, TableInv, ScanInv, MainNext; MainKeepsTableInv(c.n, s); }
    case Spurious =>
  }

  lemma WorkerKeepsJoinsInv(n: nat, s: State, i: nat)
    requires Shaped(n, s) && TableInv(n, s) && JoinsInv(n, s)
    requires i < n && WorkerNext(n, s, i).Some?
    ensures JoinsInv(n, WorkerNext(n, s, i).value)
  {
  }

  lemma JoinerKeepsJoinsInv(n: nat, s: State)
    requires Shaped(n, s) && TableInv(n, s) && JoinsInv(n, s) && ScanInv(n, s)
    requires JoinerNext(n, s).Some?
    ensures JoinsInv(n, JoinerNext(n, s).value)
  {
  }

  lemma MainKeepsJoinsInv(n: nat, s: State)
    requires Shaped(n, s) && BirthInv(n, s) && JoinsInv(n, s)
    requires MainNext(n, s).Some?
    ensures JoinsInv(n, MainNext(n, s).value)
  {
  }

  lemma KeepsJoinsInv(c: Config, s: State, a: Act)
    requires Shaped(c.n, s) && BirthInv(c.n, s) && TableInv(c.n, s) && JoinsInv(c.n, s) && ScanInv(c.n, s)
    requires Next(c, s, a).Some?
    ensures JoinsInv(c.n, Next(c, s, a).value)
  {
    match a
    case Worker(i) => { hide BirthInv, TableInv, JoinsInv, ScanInv, WorkerNext; WorkerKeepsJoinsInv(c.n, s, i); }
    case Joiner => { hide BirthInv, TableInv, JoinsInv, ScanInv, JoinerNext; JoinerKeepsJoinsInv(c.n, s); }
    case Main => { hide BirthInv, TableInv, JoinsInv, ScanInv, MainNext; MainKeepsJoinsInv(c.n, s); }
    case Spurious =>
  }

  lemma WorkerKeepsTermInv(n: nat, s: State, i: nat)
    requires Shaped(n, s) && OwnerInv(n, s) && TableInv(n, s) && TermInv(n, s)
    requires i < n && WorkerNext(n, s, i).Some?
    ensures TermInv(n, WorkerNext(n, s, i).value)
  {
    assert StatusFits(s.workers[i], s.status[i]);
    assert s.mon.owner == Some(i) <==> WorkerOwns(s.workers[i]);
  }

  lemma KeepsTermInv(c: Config, s: State, a: Act)
    requires Shaped(c.n, s) && OwnerInv(c.n, s) && BirthInv(c.n, s) && TableInv(c.n, s)
    requires TermInv(c.n, s) && ScanInv(c.n, s)
    requires Next(c, s, a).Some?
    ensures TermInv(c.n, Next(c, s, a).value)
  {
    if a.Worker? {
      hide OwnerInv, BirthInv, TermInv, ScanInv;
      WorkerKeepsTermInv(c.n, s, a.idx);
    }
  }

  lemma WorkerKeepsJoinedInv(n: nat, s: State, i: nat)
    requires Shaped(n, s) && TableInv(n, s) && JoinedInv(n, s)
    requires i < n && WorkerNext(n, s, i).Some?
    ensures JoinedInv(n, WorkerNext(n, s, i).value)
  {
  }

  lemma JoinerKeepsJoinedInv(n: nat, s: State)
    requires Shaped(n, s) && JoinedInv(n, s) && ScanInv(n, s)
    requires JoinerNext(n, s).Some?
    ensures JoinedInv(n, JoinerNext(n, s).value)
  {
  }

  lemma MainKeepsJoinedInv(n: nat, s: State)
    requires Shaped(n, s) && BirthInv(n, s) && JoinedInv(n, s)
    requires MainNext(n, s).Some?
    ensures JoinedInv(n, MainNext(n, s).value)
  {
  }

  lemma KeepsJoinedInv(c: Config, s: State, a: Act)
    requires Shaped(c.n, s) && BirthInv(c.n, s) && TableInv(c.n, s) && JoinedInv(c.n, s) && ScanInv(c.n, s)
    requires Next(c, s, a).Some?
    ensures JoinedInv(c.n, Next(c, s, a).value)
  {
    match a
    case Worker(i) => { hide BirthInv, TableInv, JoinedInv, ScanInv, WorkerNext; WorkerKeepsJoinedInv(c.n, s, i); }
    case Joiner => { hide BirthInv, TableInv, JoinedInv, ScanInv, JoinerNext; JoinerKeepsJoinedInv(c.n, s); }
    case Main => { hide BirthInv, TableInv, JoinedInv, ScanInv, MainNext; MainKeepsJoinedInv(c.n, s); }
    case Spurious =>
  }

  lemma WorkerKeepsScanInv(n: nat, s: State, i: nat)
    requires Shaped(n, s) && OwnerInv(n, s) && TableInv(n, s) && ScanInv(n, s)
    requires i < n && WorkerNext(n, s, i).Some?
    ensures ScanInv(n, WorkerNext(n, s, i).value)
  {
  }

  lemma JoinerKeepsScanInv(n: nat, s: State)
    requires Shaped(n, s) && TableInv(n, s) && ScanInv(n, s)
    requires JoinerNext(n, s).Some?
    ensures ScanInv(n, JoinerNext(n, s).value)
  {
  }

  lemma MainKeepsScanInv(n: nat, s: State)
    requires Shaped(n, s) && BirthInv(n, s) && ScanInv(n, s)
    requires MainNext(n, s).Some?
    ensures ScanInv(n, MainNext(n, s).value)
  {
  }

  lemma KeepsScanInv(c: Config, s: State, a: Act)
    requires Shaped(c.n, s) && OwnerInv(c.n, s) && BirthInv(c.n, s) && TableInv(c.n, s) && ScanInv(c.n, s)
    requires Next(c, s, a).Some?
    ensures ScanInv(c.n, Next(c, s, a).value)
  {
    match a
    case Worker(i) => { hide OwnerInv, BirthInv, TableInv, ScanInv, WorkerNext; WorkerKeepsScanInv(c.n, s, i); }
    case Joiner => { hide OwnerInv, BirthInv, TableInv, ScanInv, JoinerNext; JoinerKeepsScanInv(c.n, s); }
    case Main => { hide OwnerInv, BirthInv, TableInv, ScanInv, MainNext; MainKeepsScanInv(c.n, s); }
    case Spurious =>
  }

  lemma WorkerKeepsStartInv(n: nat, s: State, i: nat)
    requires Shaped(n, s) && OwnerInv(n, s) && TableInv(n, s) && StartInv(n, s)
    requires i < n && WorkerNext(n, s, i).Some?
    ensures StartInv(n, WorkerNext(n, s, i).value)
  {
    assert s.mon.owner == Some(i) <==> WorkerOwns(s.workers[i]);
    assert StatusFits(s.workers[i], s.status[i]);
  }

  lemma JoinerKeepsStartInv(n: nat, s: State)
    requires Shaped(n, s) && ScanInv(n, s) && StartInv(n, s) && JoinerNext(n, s).Some?
    ensures StartInv(n, JoinerNext(n, s).value)
  {
  }

  lemma KeepsStartInv(c: Config, s: State, a: Act)
    requires Shaped(c.n, s) && OwnerInv(c.n, s) && BirthInv(c.n, s) && TableInv(c.n, s)
    requires ScanInv(c.n, s) && StartInv(c.n, s)
    requires Next(c, s, a).Some?
    ensures StartInv(c.n, Next(c, s, a).value)
  {
    match a
    case Worker(i) => {
      hide OwnerInv, BirthInv, TableInv, ScanInv, StartInv, WorkerNext;
      WorkerKeepsStartInv(c.n, s, i);
    }
    case Joiner => {
      hide OwnerInv, BirthInv, TableInv, ScanInv, StartInv, JoinerNext;
      JoinerKeepsStartInv(c.n, s);
    }
    case Main => hide OwnerInv, TableInv, ScanInv;
    case Spurious =>
  }

  lemma WorkerKeepsPassInv(n: nat, s: State, i: nat)
    requires Shaped(n, s) && OwnerInv(n, s) && PassInv(n, s)
    requires i < n && WorkerNext(n, s, i).Some?
    ensures PassInv(n, WorkerNext(n, s, i).value)
  {
  }

  lemma JoinerKeepsPassInv(n: nat, s: State)
    requires Shaped(n, s) && OwnerInv(n, s) && TermInv(n, s) && JoinedInv(n, s) && ScanInv(n, s) && PassInv(n, s)
    requires JoinerNext(n, s).Some?
    ensures PassInv(n, JoinerNext(n, s).value)
  {
  }

  lemma MainKeepsPassInv(n: nat, s: State)
    requires Shaped(n, s) && BirthInv(n, s) && PassInv(n, s)
    requires MainNext(n, s).Some?
    ensures PassInv(n, MainNext(n, s).value)
  {
  }

  lemma KeepsPassInv(c: Config, s: State, a: Act)
    requires Shaped(c.n, s) && OwnerInv(c.n, s) && BirthInv(c.n, s) && TermInv(c.n, s)
    requires JoinedInv(c.n, s) && ScanInv(c.n, s) && PassInv(c.n, s)
    requires Next(c, s, a).Some?
    ensures PassInv(c.n, Next(c, s, a).value)
  {
    match a
    case Worker(i) => {
      hide OwnerInv, BirthInv, TermInv, JoinedInv, ScanInv, PassInv, WorkerNext;
      WorkerKeepsPassInv(c.n, s, i);
    }
    case Joiner => {
      hide OwnerInv, BirthInv, TermInv, JoinedInv, ScanInv, PassInv, JoinerNext;
      JoinerKeepsPassInv(c.n, s);
    }
    case Main => { hide OwnerInv, BirthInv, TermInv, JoinedInv, ScanInv, PassInv, MainNext; MainKeepsPassInv(c.n, s); }
    case Spurious =>
  }

  lemma KeepsNoLostWakeup(c: Config, s: State, a: Act)
    requires Shaped(c.n, s) && OwnerInv(c.n, s) && BirthInv(c.n, s) && TableInv(c.n, s)
    requires TermInv(c.n, s) && PassInv(c.n, s) && NoLostWakeup(c.n, s)
    requires Next(c, s, a).Some?
    ensures NoLostWakeup(c.n, Next(c, s, a).value)
  {
  }

  lemma KeepsInv(c: Config, s: State, a: Act)
    requires Inv(c.n, s) && Next(c, s, a).Some?
    ensures Inv(c.n, Next(c, s, a).value)
  {
    hide Next, OwnerInv, BirthInv, TableInv, JoinsInv, TermInv, JoinedInv, ScanInv, StartInv, PassInv, NoLostWakeup;
    NextKeepsShape(c, s, a);
    KeepsOwnerInv(c, s, a);
    KeepsBirthInv(c, s, a);
    KeepsTableInv(c, s, a);
    KeepsJoinsInv(c, s, a);
    KeepsTermInv(c, s, a);
    KeepsJoinedInv(c, s, a);
    KeepsScanInv(c, s, a);
    KeepsStartInv(c, s, a);
    KeepsPassInv(c, s, a);
    KeepsNoLostWakeup(c, s, a);
  }

  /** A worker about to signal is terminated and unjoined, so a joiner it wakes has something to do. */
  lemma KeepsFairInv(c: Config, s: State, a: Act)
    requires FairInv(c.n, s) && !c.spurious && Next(c, s, a).Some?
    ensures FairInv(c.n, Next(c, s, a).value)
  {
    hide Inv, Next;
    NextKeepsShape(c, s, a);
    KeepsInv(c, s, a);
    if a.Worker? && a.idx < c.n && s.workers[a.idx] == WSignal {
      SignallerIsCounted(c.n, s, a.idx);
    }
    JoinerStillHasWork(c, s, a);
  }

  lemma JoinerStillHasWork(c: Config, s: State, a: Act)
    requires !c.spurious && Next(c, s, a).Some?
    requires s.joiner == JWaiting && !Asleep(c.n, s) ==> s.termNum > 0
    requires a.Worker? && a.idx < |s.workers| && s.workers[a.idx] == WSignal ==> s.termNum > 0
    ensures var t := Next(c, s, a).value; t.joiner == JWaiting && !Asleep(c.n, t) ==> t.termNum > 0
  {
  }

  lemma SignallerIsCounted(n: nat, s: State, i: nat)
    requires Inv(n, s) && i < n && s.workers[i] == WSignal
    ensures s.status[i] == Terminated && s.joins[i] == 0 && s.termNum > 0
  {
    hide BirthInv, PassInv, NoLostWakeup;
    assert StatusFits(s.workers[i], s.status[i]);
    if Uncounted(n, s) == 1 {
      var k := s.mon.owner.value;
      assert StatusFits(s.workers[k], s.status[k]);
      assert multiset(s.status)[Terminated] >= 2 by {
        TwoOccurrences(s.status, i, k, Terminated);
      }
    }
  }

  // ---------------------------------------------------------------------------------------------
  // Never stuck
  // ---------------------------------------------------------------------------------------------

  ghost predicate AllDone(n: nat, s: State) {
    && Shaped(n, s)
    && s.main == MExited && s.joiner == JExited
    && (forall i | 0 <= i < n :: s.workers[i] == WExited && s.status[i] == Joined && s.joins[i] == 1)
    && s.joinedNum == n && s.termNum == 0 && s.mon == IDLE
  }

  /** When main returns from the last pthread_join nobody is left behind. */
  lemma MainExitsLast(n: nat, s: State)
    requires Inv(n, s) && (s.main == MExited || s.joiner == JExited)
    ensures s.joiner == JExited && AllDone(n, s.(main := MExited))
  {
    hide PassInv, NoLostWakeup;
    assert s.joinedNum == n by { JoinerExit(n, s); }
    OnlyOccurrences(s.status, Joined);
    assert forall i | 0 <= i < n :: StatusFits(s.workers[i], s.status[i]);
    assert forall x | x in s.status :: x == Joined;
  }

  lemma JoinerExit(n: nat, s: State)
    requires Inv(n, s) && (s.main == MExited || s.joiner == JExited)
    ensures s.joiner == JExited && s.joinedNum == n
  {
    hide OwnerInv, TableInv, JoinsInv, TermInv, JoinedInv, ScanInv, NoLostWakeup;
  }

  /** The owner of the mutex can move, or the worker it waits for in pthread_join can. */
  lemma OwnerCanMove(c: Config, s: State) returns (a: Act)
    requires Inv(c.n, s) && s.mon.owner.Some?
    ensures a != Spurious && Next(c, s, a).Some?
  {
    hide BirthInv, JoinsInv, TermInv, JoinedInv, PassInv, NoLostWakeup;
    var k := s.mon.owner.value;
    if k < c.n {
      a := Worker(k);
    } else if s.joiner.JJoin? && s.workers[s.joiner.idx] != WExited {
      var i := s.joiner.idx;
      assert StatusFits(s.workers[i], s.status[i]);
      assert s.mon.owner == Some(i) <==> WorkerOwns(s.workers[i]);
      a := Worker(i);
    } else {
      a := Joiner;
    }
  }

  lemma SleeperIsNeeded(n: nat, s: State)
    requires Inv(n, s) && Asleep(n, s)
    ensures exists i | 0 <= i < n :: s.workers[i] != WExited
  {
    hide BirthInv, JoinsInv, TermInv, ScanInv;
    OnlyOccurrences(s.status, Joined);
    assert forall i | 0 <= i < n :: StatusFits(s.workers[i], s.status[i]);
  }

  /** In every state but the last some thread can take a step of its own. */
  lemma SomeThreadCanMove(c: Config, s: State) returns (a: Act)
    requires Inv(c.n, s) && !AllDone(c.n, s)
    ensures a != Spurious && Next(c, s, a).Some?
  {
    hide TableInv, JoinsInv, TermInv, JoinedInv, ScanInv, StartInv, PassInv, NoLostWakeup, AllDone;
    if s.mon.owner.Some? {
      a := OwnerCanMove(c, s);
    } else if i: nat :| i < c.n && s.workers[i] != WUnborn && s.workers[i] != WExited {
      assert s.mon.owner == Some(i) <==> WorkerOwns(s.workers[i]);
      a := Worker(i);
    } else if s.main == MCreateJoiner || s.main.MCreate? {
      a := Main;
    } else if s.joiner == JExited {
      MainExitsLast(c.n, s);
      assert s.main == MExited ==> s == s.(main := MExited);
      a := Main;
    } else {
      if Asleep(c.n, s) {
        SleeperIsNeeded(c.n, s);
      }
      a := Joiner;
    }
  }

  // ---------------------------------------------------------------------------------------------
  // Every run ends
  // ---------------------------------------------------------------------------------------------

  function WorkerRank(w: WorkerPc): nat {
    match w
    case WUnborn => 7 case WStoreAlive => 6 case WLock => 5 case WStoreTerminated => 4
    case WIncrement => 3 case WUnlock => 2 case WSignal => 1 case WExited => 0
  }

  function MainRank(n: nat, m: MainPc): nat {
    match m
    case MCreateJoiner => n + 3
    case MCreate(k) => if k <= n then n - k + 2 else 2
    case MJoin => 1
    case MExited => 0
  }

  function PassLength(n: nat): nat { 4 * n + 12 }

  /** The steps left in the current pass; a woken joiner is one step closer than a sleeping one. */
  function JoinerRank(n: nat, s: State): nat {
    match s.joiner
    case JUnborn => PassLength(n) - 1
    case JTest => PassLength(n) - 1
    case JLock => PassLength(n) - 2
    case JTestTerm => PassLength(n) - (if s.termNum == 0 then 3 else 7)
    case JWait => PassLength(n) - 4
    case JWaiting => PassLength(n) - (if Asleep(n, s) then 5 else 6)
    case JScan(k) => if k <= n then 4 * (n - k) + 2 else 2
    case JJoin(k) => if k < n then 4 * (n - k) + 1 else 0
    case JStore(k) => if k < n then 4 * (n - k) else 0
    case JCount(k) => if k < n then 4 * (n - k) - 1 else 0
    case JUnlock => 1
    case JExited => 0
  }

  function PassesRank(n: nat, passes: nat): nat {
    if passes <= n then (n - passes) * PassLength(n) else 0
  }

  function Measure(n: nat, s: State): nat {
    MainRank(n, s.main) + Worth(s.workers, WorkerRank) + PassesRank(n, s.passes) + JoinerRank(n, s)
  }

  lemma PassesRankStep(n: nat, p: nat)
    requires p < n
    ensures PassesRank(n, p + 1) + PassLength(n) == PassesRank(n, p)
  {
    assert (n - p) * PassLength(n) == (n - (p + 1)) * PassLength(n) + PassLength(n);
  }

  lemma MainDecreases(n: nat, s: State)
    requires Shaped(n, s) && BirthInv(n, s) && MainNext(n, s).Some?
    ensures Measure(n, MainNext(n, s).value) < Measure(n, s)
  {
    hide Worth, PassesRank;
    if s.main.MCreate? && s.main.idx < n {
      WorthUpdate(s.workers, WorkerRank, s.main.idx, WStoreAlive);
    }
  }

  lemma JoinerDecreases(n: nat, s: State)
    requires Shaped(n, s) && ScanInv(n, s) && PassInv(n, s) && JoinerNext(n, s).Some?
    requires s.joiner == JWaiting && !Asleep(n, s) ==> s.termNum > 0
    ensures Measure(n, JoinerNext(n, s).value) < Measure(n, s)
  {
    hide Worth, PassesRank;
    if s.joiner == JUnlock {
      PassesRankStep(n, s.passes);
    }
  }

  lemma WorkerDecreases(n: nat, s: State, i: nat)
    requires Shaped(n, s) && OwnerInv(n, s) && i < n && WorkerNext(n, s, i).Some?
    ensures Measure(n, WorkerNext(n, s, i).value) < Measure(n, s)
  {
    hide Worth, PassesRank;
    assert s.mon.owner == Some(i) <==> WorkerOwns(s.workers[i]);
    WorthUpdate(s.workers, WorkerRank, i, WorkerNext(n, s, i).value.workers[i]);
  }

  lemma MeasureDecreases(c: Config, s: State, a: Act)
    requires FairInv(c.n, s) && !c.spurious && Next(c, s, a).Some?
    ensures Measure(c.n, Next(c, s, a).value) < Measure(c.n, s)
  {
    hide OwnerInv, BirthInv, TableInv, JoinsInv, TermInv, JoinedInv, ScanInv, StartInv, PassInv, NoLostWakeup, Measure;
    match a
    case Main => { hide MainNext; MainDecreases(c.n, s); }
    case Joiner => { hide JoinerNext; JoinerDecreases(c.n, s); }
    case Worker(i) => { hide WorkerNext; WorkerDecreases(c.n, s, i); }
    case Spurious =>
  }

  // ---------------------------------------------------------------------------------------------
  // What holds over every run
  // ---------------------------------------------------------------------------------------------

  ghost predicate Reachable(c: Config, s: State) { Reaches(System(c), Init(c.n), s) }

  lemma ReachableInv(c: Config, s: State)
    requires Reachable(c, s)
    ensures Inv(c.n, s) && (!c.spurious ==> FairInv(c.n, s))
  {
    hide Inv, FairInv, Next, Init;
    InitInv(c.n);
    FairIsInv(c.n, Init(c.n));
    var sched: seq<Act> :| Exec(System(c), Init(c.n), sched) == Some(s);
    forall t: State, a: Act | Inv(c.n, t) && System(c)(t, a).Some? ensures Inv(c.n, System(c)(t, a).value) {
      KeepsInv(c, t, a);
    }
    InvariantHolds(System(c), t => Inv(c.n, t), Init(c.n), sched);
    if !c.spurious {
      forall t: State, a: Act | FairInv(c.n, t) && System(c)(t, a).Some? ensures FairInv(c.n, System(c)(t, a).value) {
        KeepsFairInv(c, t, a);
      }
      InvariantHolds(System(c), t => FairInv(c.n, t), Init(c.n), sched);
    }
  }

  lemma FairIsInv(n: nat, s: State)
    requires FairInv(n, s)
    ensures Inv(n, s)
  {
  }

  /** Whenever the mutex is free the two counters count the table exactly. */
  lemma CountersAgreeWhenFree(c: Config, s: State)
    requires Reachable(c, s) && s.mon.owner == None
    ensures s.termNum == multiset(s.status)[Terminated] && s.joinedNum == multiset(s.status)[Joined]
  {
    ReachableInv(c, s);
  }

  /** And at every moment, inside the critical sections too: a status is stored before it is counted. */
  lemma CountersAlways(c: Config, s: State)
    requires Reachable(c, s)
    ensures var storing := s.mon.owner.Some? && s.mon.owner.value < |s.workers|
                           && s.workers[s.mon.owner.value] == WIncrement;
      s.termNum + (if storing then 1 else 0) == multiset(s.status)[Terminated] + if s.joiner.JCount? then 1 else 0
    ensures s.joinedNum + (if s.joiner.JCount? then 1 else 0) == multiset(s.status)[Joined]
  {
    ReachableInv(c, s);
  }

  /** The joiner is created first, then the workers one by one. */
  lemma CreatedOneByOne(c: Config, s: State)
    requires Reachable(c, s)
    ensures Shaped(c.n, s)
    ensures s.main == MCreateJoiner <==> s.joiner == JUnborn
    ensures forall i | 0 <= i < c.n :: s.workers[i] == WUnborn <==> i >= Created(c.n, s.main)
  {
    ReachableInv(c, s);
    hide OwnerInv, TableInv, JoinsInv, TermInv, JoinedInv, ScanInv, StartInv, PassInv, NoLostWakeup;
  }

  /** Nobody waits except for the mutex while another has it, for a signal, or for the end of a thread that
      is joined; and who waited for the mutex has it then. */
  lemma WhoCanMove(c: Config, s: State, a: Act)
    requires Reachable(c, s)
    ensures Shaped(c.n, s)
    ensures Next(c, s, a).Some? <==>
      match a
      case Main => s.main != MExited && (s.main == MJoin ==> s.joiner == JExited)
      case Joiner =>
        && s.joiner != JUnborn && s.joiner != JExited
        && (s.joiner == JLock || s.joiner == JWaiting ==> s.mon.owner == None)
        && (s.joiner == JWaiting ==> !Asleep(c.n, s))
        && (s.joiner.JJoin? ==> s.joiner.idx < c.n && s.workers[s.joiner.idx] == WExited)
      case Worker(i) =>
        && i < c.n && s.workers[i] != WUnborn && s.workers[i] != WExited
        && (s.workers[i] == WLock ==> s.mon.owner == None)
      case Spurious => c.spurious && Asleep(c.n, s)
    ensures a == Joiner && (s.joiner == JLock || s.joiner == JWaiting) && Next(c, s, a).Some? ==>
      Next(c, s, a).value.mon.owner == Some(c.n)
    ensures a.Worker? && a.idx < c.n && s.workers[a.idx] == WLock && Next(c, s, a).Some? ==>
      Next(c, s, a).value.mon.owner == Some(a.idx)
    ensures a == Spurious && Next(c, s, a).Some? ==> Next(c, s, a).value == s.(mon := s.mon.(sleeper := None))
  {
    ReachableInv(c, s);
    hide TableInv, JoinsInv, TermInv, JoinedInv, StartInv, PassInv, NoLostWakeup;
    match a
    case Main => hide WorkerNext, JoinerNext;
    case Joiner => hide WorkerNext, MainNext;
    case Worker(i) => hide MainNext, JoinerNext;
    case Spurious => hide MainNext, WorkerNext, JoinerNext;
  }

  /** Notes of an observer: completed passes; `joinedNum` when a pass took the mutex; calls of pthread_join that
      returned, for each worker; and the table when a scan began. */
  function NotePass(passes: nat, s: State, a: Act): nat {
    if a == Joiner && s.joiner == JUnlock then passes + 1 else passes
  }

  function NoteBase(base: int, s: State, a: Act): int {
    if a == Joiner && s.joiner == JLock then s.joinedNum else base
  }

  function NoteJoin(joins: seq<nat>, s: State, a: Act): seq<nat> {
    if a == Joiner && s.joiner.JJoin? && s.joiner.idx < |joins|
    then joins[s.joiner.idx := joins[s.joiner.idx] + 1] else joins
  }

  function NoteStart(start: seq<Status>, s: State, a: Act): seq<Status> {
    if a == Joiner && s.joiner == JTestTerm && s.termNum != 0 then s.status else start
  }

  /** What the theorems say of passes and joins is about what happened in the run. */
  lemma HistoryIsTrue(c: Config, sched: seq<Act>)
    requires Exec(System(c), Init(c.n), sched).Some?
    ensures var s, t := Init(c.n), Exec(System(c), Init(c.n), sched).value;
      && t.passes == Recorded(System(c), NotePass, 0, s, sched)
      && t.passBase == Recorded(System(c), NoteBase, 0, s, sched)
      && t.joins == Recorded(System(c), NoteJoin, seq(c.n, _ => 0), s, sched)
      && t.start == Recorded(System(c), NoteStart, s.status, s, sched)
  {
    var next := System(c);
    var shaped := (s: State) => Shaped(c.n, s);
    forall s: State, a: Act | next(s, a).Some?
      ensures Shaped(c.n, next(s, a).value)
      ensures next(s, a).value.passes == NotePass(s.passes, s, a)
      ensures next(s, a).value.passBase == NoteBase(s.passBase, s, a)
      ensures next(s, a).value.joins == NoteJoin(s.joins, s, a)
      ensures next(s, a).value.start == NoteStart(s.start, s, a)
    {
    }
    hide Next, NotePass, NoteBase, NoteJoin, NoteStart;
    IsRecord(next, shaped, (s: State) => s.passes, NotePass, Init(c.n), sched);
    IsRecord(next, shaped, (s: State) => s.passBase, NoteBase, Init(c.n), sched);
    IsRecord(next, shaped, (s: State) => s.joins, NoteJoin, Init(c.n), sched);
    IsRecord(next, shaped, (s: State) => s.start, NoteStart, Init(c.n), sched);
  }

  function StatusRank(x: Status): nat {
    match x case Alive => 0 case Terminated => 1 case Joined => 2
  }

  predicate MovesForward(x: seq<Status>, y: seq<Status>) {
    |x| == |y| && forall i | 0 <= i < |x| :: StatusRank(x[i]) <= StatusRank(y[i]) <= StatusRank(x[i]) + 1
  }

  lemma WorkerMovesForward(n: nat, s: State, i: nat)
    requires Shaped(n, s) && TableInv(n, s) && i < n && WorkerNext(n, s, i).Some?
    ensures MovesForward(s.status, WorkerNext(n, s, i).value.status)
  {
    assert StatusFits(s.workers[i], s.status[i]);
  }

  lemma JoinerMovesForward(n: nat, s: State)
    requires Shaped(n, s) && ScanInv(n, s) && JoinerNext(n, s).Some?
    ensures MovesForward(s.status, JoinerNext(n, s).value.status)
  {
  }

  /** No action moves a status back, not even the store of TS_ALIVE outside the mutex. */
  lemma StatusesOnlyMoveForward(c: Config, s: State, a: Act)
    requires Reachable(c, s) && Next(c, s, a).Some?
    ensures MovesForward(s.status, Next(c, s, a).value.status)
  {
    ReachableInv(c, s);
    hide OwnerInv, BirthInv, TableInv, JoinsInv, TermInv, JoinedInv, ScanInv, StartInv, PassInv;
    hide NoLostWakeup, WorkerNext, JoinerNext;
    match a
    case Worker(i) => { WorkerMovesForward(c.n, s, i); }
    case Joiner => { JoinerMovesForward(c.n, s); }
    case Main =>
    case Spurious =>
  }

  /** No worker is joined twice, a joined one has left its thread function, and whatever the slots say
      the joiner has joined nobody it did not record. */
  lemma JoinedAtMostOnce(c: Config, s: State, i: nat)
    requires Reachable(c, s) && i < c.n
    ensures |s.joins| == |s.workers| == |s.status| == c.n && s.joins[i] <= 1
    ensures s.joins[i] == 1 ==> s.workers[i] == WExited
    ensures s.joins[i] == 1 <==> s.status[i] == Joined || s.joiner == JStore(i)
  {
    ReachableInv(c, s);
    hide OwnerInv, BirthInv, TermInv, JoinedInv, PassInv, NoLostWakeup;
    assert StatusFits(s.workers[i], s.status[i]);
  }

  /** A pass that reaches the unlock has joined at least one worker and left none terminated; so no run
      makes more passes than there are workers. */
  lemma PassesJoin(c: Config, s: State)
    requires Reachable(c, s)
    ensures s.passes <= s.joinedNum <= c.n
    ensures s.joiner == JUnlock ==> s.passBase < s.joinedNum && s.termNum == 0 && Terminated !in s.status
    ensures s.joiner == JUnlock ==> s.passes <= s.passBase
  {
    ReachableInv(c, s);
    hide OwnerInv, BirthInv, TableInv, JoinsInv, TermInv, JoinedInv, NoLostWakeup;
  }

  /** The table after a scan: the terminated slots are marked as joined, the others are as they were. */
  function Scanned(table: seq<Status>): (r: seq<Status>)
    ensures |r| == |table|
  {
    seq(|table|, i requires 0 <= i < |table| => if table[i] == Terminated then Joined else table[i])
  }

  /** The scan is atomic although it is many steps and other threads move in between: at its end the table
      is exactly the one it started from with the terminated slots joined, each of these workers has left
      its function, and both counters count that table. */
  lemma ScanIsAtomic(c: Config, s: State)
    requires Reachable(c, s) && s.joiner == JUnlock
    ensures s.status == Scanned(s.start)
    ensures s.joinedNum == multiset(Scanned(s.start))[Joined] && s.termNum == multiset(Scanned(s.start))[Terminated]
    ensures |s.workers| == |s.start|
    ensures forall i | 0 <= i < |s.start| :: s.start[i] == Terminated ==> s.workers[i] == WExited
  {
    ReachableInv(c, s);
    hide Inv;
    ScanEffect(c.n, s);
  }

  lemma ScanEffect(n: nat, s: State)
    requires Inv(n, s) && s.joiner == JUnlock
    ensures s.status == Scanned(s.start) && Shaped(n, s)
    ensures s.joinedNum == multiset(s.status)[Joined] && s.termNum == multiset(s.status)[Terminated]
    ensures forall i | 0 <= i < n :: s.start[i] == Terminated ==> s.workers[i] == WExited
  {
    hide BirthInv, JoinsInv, PassInv, NoLostWakeup;
    assert s.status == Scanned(s.start);
    assert forall i | 0 <= i < n :: StatusFits(s.workers[i], s.status[i]);
  }

  lemma {:induction false} ScannedCounts(table: seq<Status>)
    ensures multiset(Scanned(table))[Terminated] == 0
    ensures multiset(Scanned(table))[Joined] == multiset(table)[Joined] + multiset(table)[Terminated]
  {
    if table != [] {
      var m := |table| - 1;
      ScannedCounts(table[..m]);
      assert table == table[..m] + [table[m]];
      assert Scanned(table) == Scanned(table[..m]) + [if table[m] == Terminated then Joined else table[m]];
    }
  }

  lemma CountsAtStart(n: nat, s: State)
    requires Inv(n, s) && s.joiner == JScan(0)
    ensures s.joinedNum == multiset(s.status)[Joined] && s.termNum == multiset(s.status)[Terminated]
  {
    hide BirthInv, TableInv, JoinsInv, ScanInv, StartInv, PassInv, NoLostWakeup;
  }

  /** One more step of a run. */
  lemma RunOn(c: Config, s: State, t: State, a: Act)
    requires Inv(c.n, t) && Reaches(System(c), s, t) && Next(c, t, a).Some?
    ensures Inv(c.n, Next(c, t, a).value) && Reaches(System(c), s, Next(c, t, a).value)
  {
    hide Inv, Next;
    KeepsInv(c, t, a);
    ReachesThen(System(c), s, t, a, Next(c, t, a).value);
  }

  /** A worker that is being joined has nothing left but its signal. */
  lemma JoinedWorkerMoves(n: nat, s: State, i: nat)
    requires Inv(n, s) && i < n && s.joiner == JJoin(i) && s.workers[i] != WExited
    ensures s.workers[i] == WSignal
  {
    hide BirthInv, JoinsInv, TermInv, JoinedInv, PassInv, NoLostWakeup;
    assert StatusFits(s.workers[i], s.status[i]);
    assert s.mon.owner == Some(i) <==> WorkerOwns(s.workers[i]);
  }

  /** Without spurious wakeups a woken joiner finds work when it has the mutex again. */
  lemma WokenJoinerFindsWork(n: nat, s: State, t: State)
    requires Reachable(Config(n, false), s) && s.joiner == JWaiting
    requires Next(Config(n, false), s, Joiner) == Some(t)
    ensures t.joiner == JTestTerm && t.termNum > 0
  {
    ReachableInv(Config(n, false), s);
    hide Inv;
  }

  /** A worker that has still to signal is terminated and not joined: the join waits out its signal. */
  lemma SignallerIsUnjoined(c: Config, s: State, i: nat)
    requires Reachable(c, s) && i < |s.workers| && s.workers[i] == WSignal
    ensures |s.status| == |s.joins| == |s.workers| && s.status[i] == Terminated && s.joins[i] == 0 && s.termNum > 0
  {
    ReachableInv(c, s);
    hide OwnerInv, BirthInv, TableInv, JoinsInv, TermInv, JoinedInv, ScanInv, StartInv, PassInv, NoLostWakeup;
    SignallerIsCounted(c.n, s, i);
  }

  /** No reachable state is stuck: until main has exited some thread can step, without the help of a
      spurious wakeup, although the joiner joins with the mutex held. */
  lemma NeverStuck(c: Config, s: State)
    requires Reachable(c, s)
    ensures AllDone(c.n, s) || exists a :: a != Spurious && Next(c, s, a).Some?
  {
    ReachableInv(c, s);
    hide Inv, Next;
    if !AllDone(c.n, s) {
      var a := SomeThreadCanMove(c, s);
    }
  }

  function RunBound(n: nat): nat { n * (4 * n + 12) + 12 * n + 14 }

  /** Without spurious wakeups no run, whatever the interleaving, is longer than a fixed polynomial in n. */
  lemma RunsAreFinite(n: nat, sched: seq<Act>)
    requires Exec(System(Config(n, false)), Init(n), sched).Some?
    ensures |sched| <= RunBound(n)
  {
    var c := Config(n, false);
    MeasureProves(c);
    InitMeasure(n);
    hide FairInv, Next, Measure, Init, RunBound;
    ScheduleIsBounded(System(c), s => FairInv(n, s), s => Measure(n, s), Init(n), sched);
  }

  lemma InitMeasure(n: nat)
    ensures Measure(n, Init(n)) == RunBound(n)
  {
    WorthOfConstant(n, WorkerRank, WUnborn);
  }

  lemma MeasureProves(c: Config)
    requires !c.spurious
    ensures FairInv(c.n, Init(c.n))
    ensures forall s: State, a: Act :: FairInv(c.n, s) && System(c)(s, a).Some? ==>
      FairInv(c.n, System(c)(s, a).value) && Measure(c.n, System(c)(s, a).value) < Measure(c.n, s)
  {
    hide FairInv, Measure, Next;
    InitInv(c.n);
    forall s: State, a: Act | FairInv(c.n, s) && System(c)(s, a).Some?
      ensures FairInv(c.n, System(c)(s, a).value) && Measure(c.n, System(c)(s, a).value) < Measure(c.n, s)
    {
      KeepsFairInv(c, s, a);
      MeasureDecreases(c, s, a);
    }
  }

  /** A run that cannot go on has joined every worker exactly once and everybody has exited. */
  lemma MaximalRunsJoinEveryone(c: Config, s: State)
    requires Reachable(c, s) && Blocked(System(c), s)
    ensures AllDone(c.n, s)
  {
    hide AllDone, Next;
    NeverStuck(c, s);
    assert forall a: Act :: System(c)(s, a) == Next(c, s, a);
  }

  /** And every run, wherever it stands, can go on to such an end. */
  lemma EveryRunCanComplete(n: nat, s: State) returns (t: State)
    requires Reachable(Config(n, false), s)
    ensures Reaches(System(Config(n, false)), s, t) && AllDone(n, t)
  {
    var c := Config(n, false);
    ReachableInv(c, s);
    MeasureProves(c);
    t := RunsToTheEnd(System(c), u => FairInv(n, u), u => Measure(n, u), s);
    ReachesTrans(System(c), Init(n), s, t);
    MaximalRunsJoinEveryone(c, t);
  }

  // ---------------------------------------------------------------------------------------------
  // What the joiner may meet
  // ---------------------------------------------------------------------------------------------

  /** One step of a run without spurious wakeups. */
  lemma Moves(c: Config, s: State, a: Act) returns (t: State)
    requires FairInv(c.n, s) && !c.spurious && Next(c, s, a).Some?
    ensures t == Next(c, s, a).value && FairInv(c.n, t) && Measure(c.n, t) < Measure(c.n, s) && Reaches(System(c), s, t)
  {
    hide FairInv, Measure, Next;
    t := Next(c, s, a).value;
    KeepsFairInv(c, s, a);
    MeasureDecreases(c, s, a);
    ReachesStep(System(c), s, a, t);
  }

  /** Worker i alone, up to `last`. */
  lemma {:induction false} WorkerAlone(c: Config, s: State, i: nat, last: WorkerPc) returns (t: State)
    requires FairInv(c.n, s) && !c.spurious && i < c.n && (last == WSignal || last == WExited)
    requires s.workers[i] != WUnborn && WorkerRank(s.workers[i]) >= WorkerRank(last)
    requires s.mon.owner == None || s.mon.owner == Some(i)
    ensures Reaches(System(c), s, t) && FairInv(c.n, t) && t.mon.owner == None && t.workers == s.workers[i := last]
    ensures t.main == s.main && t.joiner == s.joiner
    decreases Measure(c.n, s)
  {
    hide TableInv, JoinsInv, TermInv, JoinedInv, ScanInv, StartInv, PassInv, NoLostWakeup, Measure;
    assert s.mon.owner == Some(i) <==> WorkerOwns(s.workers[i]);
    if s.workers[i] == last {
      t := s;
      ReachesSelf(System(c), s);
    } else {
      assert WorkerNext(c.n, s, i).Some?;
      var u := Moves(c, s, Worker(i));
      t := WorkerAlone(c, u, i, last);
      ReachesTrans(System(c), s, u, t);
    }
  }

  /** Main has created the first k workers, and the joiner sleeps, having joined them all. */
  ghost predicate SleepsAfter(n: nat, s: State, k: nat) {
    && FairInv(n, s) && s.main == MCreate(k) && s.joiner == JWaiting && Asleep(n, s) && s.joinedNum == k
    && s.termNum == 0
    && forall i: nat | i < n :: s.workers[i] == if i < k then WExited else WUnborn
  }

  /** The joiner alone, while no worker is about to do anything and some are not created: it joins who has
      terminated and sleeps. */
  lemma {:induction false} JoinerAlone(c: Config, s: State, k: nat) returns (t: State)
    requires FairInv(c.n, s) && !c.spurious && k < c.n && s.main == MCreate(k) && s.joiner != JUnborn
    requires forall i: nat | i < c.n :: s.workers[i] == if i < k then WExited else WUnborn
    ensures Reaches(System(c), s, t) && SleepsAfter(c.n, t, k)
    decreases Measure(c.n, s)
  {
    AllJoined(c.n, s, k);
    hide JoinsInv, TermInv, JoinedInv, StartInv, NoLostWakeup, Measure;
    if s.joiner == JWaiting && Asleep(c.n, s) {
      t := s;
      ReachesSelf(System(c), s);
    } else {
      NobodyOwns(c.n, s);
      var u := Moves(c, s, Joiner);
      t := JoinerAlone(c, u, k);
      ReachesTrans(System(c), s, u, t);
    }
  }

  lemma NobodyOwns(n: nat, s: State)
    requires Inv(n, s) && forall i: nat | i < n :: s.workers[i] == WExited || s.workers[i] == WUnborn
    ensures s.mon.owner == if JoinerOwns(s.joiner) then Some(n) else None
  {
    hide BirthInv, TableInv, JoinsInv, TermInv, JoinedInv, ScanInv, StartInv, PassInv, NoLostWakeup;
  }

  /** The joiner does not end before all workers are created, and when it sleeps it has joined all that have
      exited. */
  lemma AllJoined(n: nat, s: State, k: nat)
    requires FairInv(n, s) && k < n && forall i: nat | i < n :: s.workers[i] == if i < k then WExited else WUnborn
    ensures s.joiner != JExited
    ensures s.joiner == JWaiting && Asleep(n, s) ==> s.joinedNum == k && s.termNum == 0
  {
    hide JoinsInv, ScanInv, StartInv;
    OnlyOccurrences(s.status, Joined);
    assert StatusFits(s.workers[k], s.status[k]);
    if s.joiner == JWaiting && Asleep(n, s) {
      forall i: nat | i < n ensures s.status[i] == Joined <==> i < k {
        assert StatusFits(s.workers[i], s.status[i]);
      }
      OtherPositions(s.status, Joined);
      PositionsFrom(n, k, PositionsOfOthers(s.status, Joined));
    }
  }

  lemma {:induction false} PositionsFrom(n: nat, k: nat, positions: set<nat>)
    requires k <= n && forall i: nat :: i in positions <==> k <= i < n
    ensures |positions| == n - k
    decreases n - k
  {
    if k < n {
      PositionsFrom(n, k + 1, positions - {k});
    } else {
      assert positions == {};
    }
  }

  /** For every k < n some run has the joiner asleep with exactly the first k workers joined, before any other
      is created; with k = 0, before there is any worker. */
  lemma {:induction false} JoinerCanSleep(n: nat, k: nat) returns (s: State)
    requires k < n
    ensures Reachable(Config(n, false), s) && SleepsAfter(n, s, k)
  {
    var c := Config(n, false);
    var r: State;
    hide OwnerInv, BirthInv, TableInv, JoinsInv, TermInv, JoinedInv, ScanInv, StartInv, PassInv, NoLostWakeup;
    if k == 0 {
      InitInv(n);
      r := Moves(c, Init(n), Main);
    } else {
      var s0 := JoinerCanSleep(n, k - 1);
      var s1 := Moves(c, s0, Main);
      ReachesTrans(System(c), Init(n), s0, s1);
      FreeWhenAsleep(n, s0);
      r := WorkerAlone(c, s1, k - 1, WExited);
      ReachesTrans(System(c), Init(n), s1, r);
    }
    s := JoinerAlone(c, r, k);
    ReachesTrans(System(c), Init(n), r, s);
  }

  lemma FreeWhenAsleep(n: nat, s: State)
    requires Inv(n, s) && s.joiner == JWaiting
    requires forall i: nat | i < n :: s.workers[i] == WExited || s.workers[i] == WUnborn
    ensures s.mon.owner == None
  {
    hide Inv;
    NobodyOwns(n, s);
  }

  /** And it sleeps until the signal itself: for every k < n some run has it asleep after the first k were
      joined while worker k, terminated and counted, is at its signal; which wakes it. */
  lemma SleepsUntilSignalled(n: nat, k: nat) returns (s: State, t: State)
    requires k < n
    ensures Reachable(Config(n, false), s) && Shaped(n, s) && s.joinedNum == k && s.termNum == 1
    ensures s.joiner == JWaiting && Asleep(n, s) && s.workers[k] == WSignal && s.mon.owner == None
    ensures Next(Config(n, false), s, Worker(k)) == Some(t) && !Asleep(n, t)
  {
    var c := Config(n, false);
    var s0 := JoinerCanSleep(n, k);
    FreeWhenAsleep(n, s0);
    var s1 := Moves(c, s0, Main);
    ReachesTrans(System(c), Init(n), s0, s1);
    var s2 := StillAsleep(c, s1, k);
    ReachesTrans(System(c), Init(n), s1, s2);
    s := s2;
    hide Inv;
    t := Moves(c, s, Worker(k));
  }

  /** Worker k up to its signal, which leaves a sleeper asleep. */
  lemma {:induction false} StillAsleep(c: Config, s: State, k: nat) returns (t: State)
    requires FairInv(c.n, s) && !c.spurious && k < c.n && s.joiner == JWaiting && Asleep(c.n, s)
    requires s.workers[k] != WUnborn && s.workers[k] != WExited
    requires s.mon.owner == None || s.mon.owner == Some(k)
    requires s.termNum == if WorkerRank(s.workers[k]) >= WorkerRank(WIncrement) then 0 else 1
    ensures Reaches(System(c), s, t) && FairInv(c.n, t) && t.mon.owner == None && t.workers[k] == WSignal
    ensures t.joiner == JWaiting && Asleep(c.n, t) && t.joinedNum == s.joinedNum && t.termNum == 1
    decreases Measure(c.n, s)
  {
    hide TableInv, JoinsInv, TermInv, JoinedInv, ScanInv, StartInv, PassInv, NoLostWakeup, Measure;
    assert s.mon.owner == Some(k) <==> WorkerOwns(s.workers[k]);
    if s.workers[k] == WSignal {
      t := s;
      ReachesSelf(System(c), s);
    } else {
      var u := Moves(c, s, Worker(k));
      t := StillAsleep(c, u, k);
      ReachesTrans(System(c), s, u, t);
    }
  }

  /** All workers are created and not yet at their locks, but for worker i, which has still to signal. */
  ghost predicate OnlySignaller(n: nat, s: State, i: nat) {
    && FairInv(n, s) && i < n && s.workers[i] == WSignal
    && forall k: nat | k < n && k != i :: s.workers[k] == WStoreAlive
  }

  /** The joiner alone comes to join worker i. */
  lemma {:induction false} JoinerReachesJoin(c: Config, s: State, i: nat) returns (t: State)
    requires OnlySignaller(c.n, s, i) && !c.spurious && s.joiner != JUnborn && !Asleep(c.n, s)
    ensures Reaches(System(c), s, t) && t.joiner == JJoin(i) && t.workers == s.workers
    decreases Measure(c.n, s)
  {
    SignallerKeepsJoiner(c.n, s, i);
    hide JoinsInv, TermInv, JoinedInv, StartInv, NoLostWakeup, Measure;
    if s.joiner == JJoin(i) {
      t := s;
      ReachesSelf(System(c), s);
    } else {
      var u := Moves(c, s, Joiner);
      t := JoinerReachesJoin(c, u, i);
      ReachesTrans(System(c), s, u, t);
    }
  }

  lemma SignallerKeepsJoiner(n: nat, s: State, i: nat)
    requires OnlySignaller(n, s, i)
    ensures s.termNum > 0 && s.joiner != JExited && s.joiner != JUnlock
    ensures s.mon.owner == if JoinerOwns(s.joiner) then Some(n) else None
    ensures s.joiner.JJoin? || s.joiner.JStore? || s.joiner.JCount? ==> s.joiner == JJoin(i)
    ensures s.joiner.JScan? ==> s.joiner.idx <= i
  {
    SignallerIsCounted(n, s, i);
    OnlyOccurrences(s.status, Joined);
    hide TermInv, JoinsInv, StartInv, NoLostWakeup;
    assert forall k | 0 <= k < n :: StatusFits(s.workers[k], s.status[k]);
  }

  lemma {:induction false} CreatesAll(c: Config, s: State) returns (t: State)
    requires FairInv(c.n, s) && !c.spurious && s.main.MCreate? && s.joiner == JTest && s.mon == IDLE
    requires forall i: nat | i < c.n :: s.workers[i] == WUnborn || s.workers[i] == WStoreAlive
    ensures Reaches(System(c), s, t) && FairInv(c.n, t) && t.main == MJoin && t.joiner == JTest && t.mon == IDLE
    ensures forall i: nat | i < c.n :: t.workers[i] == WStoreAlive
    decreases Measure(c.n, s)
  {
    hide TableInv, OwnerInv, JoinsInv, TermInv, JoinedInv, ScanInv, StartInv, PassInv, NoLostWakeup, Measure;
    var u := Moves(c, s, Main);
    if u.main == MJoin {
      t := u;
    } else {
      t := CreatesAll(c, u);
      ReachesTrans(System(c), s, u, t);
    }
  }

  /** For every worker some run has the joiner in pthread_join for it, with the mutex, while it has still to
      signal: that is what the join waits out. */
  lemma JoinMeetsSignaller(n: nat, i: nat) returns (s: State)
    requires i < n
    ensures Reachable(Config(n, false), s) && Shaped(n, s)
    ensures s.joiner == JJoin(i) && s.mon.owner == Some(n) && s.workers[i] == WSignal
  {
    var c := Config(n, false);
    InitInv(n);
    var s0 := Moves(c, Init(n), Main);
    var s1 := CreatesAll(c, s0);
    ReachesTrans(System(c), Init(n), s0, s1);
    var s2 := WorkerAlone(c, s1, i, WSignal);
    ReachesTrans(System(c), Init(n), s1, s2);
    assert !Asleep(n, s2) by { hide TableInv; }
    s := JoinerReachesJoin(c, s2, i);
    ReachesTrans(System(c), Init(n), s2, s);
    ReachableInv(c, s);
    hide TableInv, BirthInv, JoinsInv, TermInv, JoinedInv, ScanInv, StartInv, PassInv, NoLostWakeup;
  }

  // ---------------------------------------------------------------------------------------------
  // The program on its own variables
  // ---------------------------------------------------------------------------------------------

  /** The process: global variables, the thread table, and one program counter per thread.  Each method
      executes the next atomic step of one thread in place, or reports that the thread cannot move. */
  class Process {
    const n: nat
    var main: MainPc
    var joiner: JoinerPc
    var workers: array<WorkerPc>
    var status: array<Status>
    var termNum: int
    var joinedNum: int
    var mon: Monitor
    ghost var passes: nat
    ghost var passBase: int
    ghost var joins: seq<nat>
    ghost var start: seq<Status>

    ghost predicate Valid() reads this, workers, status {
      workers.Length == n && status.Length == n && |joins| == n && |start| == n
    }

    ghost function View(): (s: State)
      requires Valid()
      reads this, workers, status
      ensures Shaped(n, s)
    {
      State(main, joiner, workers[..], status[..], termNum, joinedNum, mon, passes, passBase, joins, start)
    }

    /** The table is allocated with every status zero; no thread exists yet. */
    constructor (n: nat)
      ensures Valid() && fresh(workers) && fresh(status) && this.n == n && View() == Init(n)
    {
      this.n := n;
      main, joiner := MCreateJoiner, JUnborn;
      workers := new WorkerPc[n](_ => WUnborn);
      status := new Status[n](_ => Alive);
      termNum, joinedNum, mon := 0, 0, IDLE;
      passes, passBase, joins, start := 0, 0, seq(n, _ => 0), seq(n, _ => Alive);
      new;
      assert workers[..] == Init(n).workers;
      assert status[..] == Init(n).status;
    }

    method MainStep() returns (moved: bool)
      requires Valid()
      modifies this`main, this`joiner, workers
      ensures Valid() && moved == MainNext(n, old(View())).Some?
      ensures View() == if moved then MainNext(n, old(View())).value else old(View())
    {
      moved := true;
      match main
      case MCreateJoiner => joiner := JTest; main := MCreate(0);
      case MCreate(k) =>
        if k < n { workers[k] := WStoreAlive; main := MCreate(k + 1); } else { main := MJoin; }
      case MJoin =>
        if joiner == JExited { main := MExited; } else { moved := false; }
      case MExited => moved := false;
    }

    method WorkerStep(i: nat) returns (moved: bool)
      requires Valid() && i < n
      modifies this`termNum, this`mon, workers, status
      ensures Valid() && moved == WorkerNext(n, old(View()), i).Some?
      ensures View() == if moved then WorkerNext(n, old(View()), i).value else old(View())
    {
      moved := true;
      match workers[i]
      case WUnborn => moved := false;
      case WStoreAlive => status[i] := Alive; workers[i] := WLock;
      case WLock =>
        if mon.owner == None { mon := mon.(owner := Some(i)); workers[i] := WStoreTerminated; } else { moved := false; }
      case WStoreTerminated => status[i] := Terminated; workers[i] := WIncrement;
      case WIncrement => termNum := termNum + 1; workers[i] := WUnlock;
      case WUnlock =>
        if mon.owner == Some(i) { mon := mon.(owner := None); workers[i] := WSignal; } else { moved := false; }
      case WSignal => mon := mon.(sleeper := None); workers[i] := WExited;
      case WExited => moved := false;
    }

    method JoinerStep() returns (moved: bool)
      requires Valid()
      modifies this, status
      ensures Valid() && workers == old(workers) && status == old(status)
      ensures moved == JoinerNext(n, old(View())).Some?
      ensures View() == if moved then JoinerNext(n, old(View())).value else old(View())
    {
      moved := true;
      match joiner
      case JUnborn => moved := false;
      case JTest => joiner := if joinedNum != n then JLock else JExited;
      case JLock =>
        if mon.owner == None {
          mon, joiner := mon.(owner := Some(n)), JTestTerm;
          passBase := joinedNum;
        } else { moved := false; }
      case JTestTerm =>
        if termNum == 0 { joiner := JWait; } else {
          joiner := JScan(0);
          start := status[..];
        }
      case JWait =>
        if mon.owner == Some(n) { mon, joiner := Monitor(None, Some(n)), JWaiting; } else { moved := false; }
      case JWaiting =>
        if mon.sleeper != Some(n) && mon.owner == None {
          mon, joiner := mon.(owner := Some(n)), JTestTerm;
        } else { moved := false; }
      case JScan(k) =>
        if k >= n { joiner := JUnlock; }
        else if status[k] == Terminated { joiner := JJoin(k); }
        else { joiner := JScan(k + 1); }
      case JJoin(k) =>
        if k < n && workers[k] == WExited {
          joiner := JStore(k);
          joins := joins[k := joins[k] + 1];
        } else { moved := false; }
      case JStore(k) =>
        if k < n { status[k] := Joined; joiner := JCount(k); } else { moved := false; }
      case JCount(k) =>
        termNum, joinedNum, joiner := termNum - 1, joinedNum + 1, JScan(k + 1);
      case JUnlock =>
        if mon.owner == Some(n) {
          mon, joiner := mon.(owner := None), JTest;
          passes := passes + 1;
        } else { moved := false; }
      case JExited => moved := false;
    }

    /** Any of these workers take their next step, if they can. */
    method LetMove(c: Config, ws: seq<nat>)
      requires Valid() && c.n == n && Inv(n, View())
      modifies this`termNum, this`mon, workers, status
      ensures Valid() && Inv(n, View()) && Reaches(System(c), old(View()), View())
    {
      hide Inv, Next, WorkerNext, Reaches;
      ReachesSelf(System(c), View());
      for k := 0 to |ws|
        invariant Valid() && Inv(n, View()) && Reaches(System(c), old(View()), View())
      {
        if ws[k] < n {
          MoveWorker(c, old(View()), ws[k]);
        }
      }
    }

    method MoveWorker(c: Config, ghost s0: State, i: nat)
      requires Valid() && c.n == n && i < n && Inv(n, View()) && Reaches(System(c), s0, View())
      modifies this`termNum, this`mon, workers, status
      ensures Valid() && Inv(n, View()) && Reaches(System(c), s0, View())
      ensures old(workers[i]) == WSignal ==> workers[i] == WExited
    {
      hide Inv, Reaches;
      ghost var s := View();
      var moved := WorkerStep(i);
      if moved {
        RunOn(c, s0, s, Worker(i));
      }
    }

    /** pthread_join, called with the mutex held: other workers move, and so does the one waited for. */
    method Join(c: Config, i: nat, ws: seq<nat>)
      requires Valid() && c.n == n && i < n && Inv(n, View()) && joiner == JJoin(i)
      modifies this`termNum, this`mon, workers, status
      ensures Valid() && Inv(n, View()) && Reaches(System(c), old(View()), View()) && workers[i] == WExited
    {
      hide Inv, Reaches, WorkerNext, MainNext;
      LetMove(c, ws);
      if workers[i] != WExited {
        JoinedWorkerMoves(n, View(), i);
        MoveWorker(c, old(View()), i);
      }
    }

    /** What the scan does to a slot whose worker it has joined. */
    method MarkJoined(c: Config, i: nat)
      requires Valid() && c.n == n && i < n && Inv(n, View()) && joiner == JJoin(i) && workers[i] == WExited
      modifies this`joiner, this`termNum, this`joinedNum, this`joins, status
      ensures Valid() && Inv(n, View()) && Reaches(System(c), old(View()), View()) && joiner == JScan(i + 1)
    {
      hide Inv, Reaches, WorkerNext, MainNext;
      ghost var s := View();
      ReachesSelf(System(c), s);
      joiner := JStore(i);
      joins := joins[i := joins[i] + 1];
      RunOn(c, s, s, Joiner);
      ghost var stored := View();
      status[i] := Joined;
      joiner := JCount(i);
      RunOn(c, s, stored, Joiner);
      Count(c, s, i);
    }

    method Count(c: Config, ghost s0: State, i: nat)
      requires Valid() && c.n == n && Inv(n, View()) && joiner == JCount(i) && Reaches(System(c), s0, View())
      modifies this`joiner, this`termNum, this`joinedNum
      ensures Valid() && Inv(n, View()) && Reaches(System(c), s0, View()) && joiner == JScan(i + 1)
    {
      hide Inv, Reaches, WorkerNext, MainNext;
      ghost var s := View();
      termNum, joinedNum, joiner := termNum - 1, joinedNum + 1, JScan(i + 1);
      RunOn(c, s0, s, Joiner);
    }

    /** The scan as the loop of the program, in place on the table and with the joins in it, while the
        workers go on: turns[k] are those that move before slot k, and while its worker is waited for.  The
        effect is the same whatever they do. */
    method Scan(c: Config, turns: seq<seq<nat>>)
      requires Valid() && c.n == n && Inv(n, View()) && joiner == JScan(0) && start == status[..] && |turns| == n
      modifies this`joiner, this`termNum, this`joinedNum, this`mon, this`joins, workers, status
      ensures Valid() && Reaches(System(c), old(View()), View()) && joiner == JUnlock
      ensures status[..] == Scanned(old(status[..]))
      ensures joinedNum - old(joinedNum) == old(termNum) - termNum == multiset(old(status[..]))[Terminated]
      ensures forall i | 0 <= i < n :: old(status[i]) == Terminated ==> workers[i] == WExited
    {
      hide Inv, Reaches, WorkerNext, MainNext;
      ghost var before := View();
      CountsAtStart(n, before);
      ReachesSelf(System(c), before);
      var idx := 0;
      while idx < n
        invariant idx <= n && joiner == JScan(idx)
        invariant Valid() && Inv(n, View()) && Reaches(System(c), before, View())
      {
        ScanSlot(c, before, idx, turns[idx]);
        idx := idx + 1;
      }
      ghost var s := View();
      joiner := JUnlock;
      RunOn(c, before, s, Joiner);
      ScanEffect(n, View());
      ScannedCounts(start);
    }

    method ScanSlot(c: Config, ghost s0: State, idx: nat, ws: seq<nat>)
      requires Valid() && c.n == n && idx < n && joiner == JScan(idx) && Inv(n, View())
      requires Reaches(System(c), s0, View())
      modifies this`joiner, this`termNum, this`joinedNum, this`mon, this`joins, workers, status
      ensures Valid() && Inv(n, View()) && Reaches(System(c), s0, View()) && joiner == JScan(idx + 1)
    {
      hide Inv, Reaches, WorkerNext, MainNext;
      LetMove(c, ws);
      ghost var s := View();
      ReachesTrans(System(c), s0, old(View()), s);
      if status[idx] == Terminated {
        joiner := JJoin(idx);
        RunOn(c, s0, s, Joiner);
        s := View();
        Join(c, idx, ws);
        ReachesTrans(System(c), s0, s, View());
        s := View();
        MarkJoined(c, idx);
        ReachesTrans(System(c), s0, s, View());
      } else {
        joiner := JScan(idx + 1);
        RunOn(c, s0, s, Joiner);
      }
    }

    /** Let the threads take turns: the program ends, and it ends with everybody joined. */
    method RunToTheEnd()
      requires Valid() && View() == Init(n)
      modifies this, workers, status
      ensures Valid() && AllDone(n, View())
    {
      var c := Config(n, false);
      InitInv(n);
      while main != MExited
        invariant Valid() && workers == old(workers) && status == old(status) && FairInv(n, View())
        decreases Measure(n, View())
      {
        Turn();
      }
      MainExitsLast(n, View());
      assert View() == View().(main := MExited);
    }

    method Turn()
      requires Valid() && FairInv(n, View()) && main != MExited
      modifies this, workers, status
      ensures Valid() && workers == old(workers) && status == old(status) && FairInv(n, View())
      ensures Measure(n, View()) < Measure(n, old(View()))
    {
      hide MainNext, JoinerNext, WorkerNext, FairInv, Measure;
      ghost var c, s := Config(n, false), View();
      SomeoneMoves(n, s);
      var moved := MainStep();
      if moved {
        StepIsFair(c, s, Main);
        return;
      }
      moved := JoinerStep();
      if moved {
        StepIsFair(c, s, Joiner);
        return;
      }
      var i := 0;
      while i < n
        invariant i <= n && Valid() && View() == s && workers == old(workers) && status == old(status)
        invariant forall k: nat | k < i :: WorkerNext(n, s, k) == None
      {
        moved := WorkerStep(i);
        if moved {
          StepIsFair(c, s, Worker(i));
          return;
        }
        i := i + 1;
      }
    }
  }

  lemma SomeoneMoves(n: nat, s: State)
    requires FairInv(n, s) && s.main != MExited
    ensures Shaped(n, s)
    ensures MainNext(n, s).Some? || JoinerNext(n, s).Some? || exists i: nat | i < n :: WorkerNext(n, s, i).Some?
  {
    hide Inv, MainNext, JoinerNext, WorkerNext;
    FairIsInv(n, s);
    var a := SomeThreadCanMove(Config(n, false), s);
  }

  lemma StepIsFair(c: Config, s: State, a: Act)
    requires FairInv(c.n, s) && !c.spurious && Next(c, s, a).Some?
    ensures FairInv(c.n, Next(c, s, a).value) && Measure(c.n, Next(c, s, a).value) < Measure(c.n, s)
  {
    hide FairInv, Next, Measure;
    KeepsFairInv(c, s, a);
    MeasureDecreases(c, s, a);
  }
}
