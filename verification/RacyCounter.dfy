/** thread_inc.c: two threads increment one global n times each.  `glob++` is a load and a later store;
    with USE_LOCK each thread holds the mutex for the whole of its loop. */
module RacyCounter {
  import opened Runs
  import opened Pthreads

  datatype Pc =
    | Start
    | Loop(i: nat)                // loop head, and the load of glob
    | Store(i: nat, tmp: int)     // the store of tmp + 1
    | Finish
    | Exited

  datatype Act = Left | Right

  /** Iterations of each thread, and whether USE_LOCK is defined. */
  datatype Config = Config(n: nat, locked: bool)

  datatype State = State(glob: int, left: Pc, right: Pc, mon: Monitor)

  const INIT := State(0, Start, Start, IDLE)

  function PcOf(s: State, a: Act): Pc { if a == Left then s.left else s.right }

  function With(s: State, a: Act, p: Pc): State {
    if a == Left then s.(left := p) else s.(right := p)
  }

  function Id(a: Act): nat { if a == Left then 0 else 1 }

  function Next(c: Config, s: State, a: Act): Option<State> {
    match PcOf(s, a)
    case Start =>
      if !c.locked then Some(With(s, a, Loop(0)))
      else (match Lock(s.mon, Id(a)) case None => None case Some(m) => Some(With(s, a, Loop(0)).(mon := m)))
    case Loop(i) => Some(With(s, a, if i < c.n then Store(i, s.glob) else Finish))
    case Store(i, tmp) => Some(With(s, a, Loop(i + 1)).(glob := tmp + 1))
    case Finish =>
      if !c.locked then Some(With(s, a, Exited))
      else (match Unlock(s.mon, Id(a)) case None => None case Some(m) => Some(With(s, a, Exited).(mon := m)))
    case Exited => None
  }

  function System(c: Config): (State, Act) -> Option<State> {
    (s, a) => Next(c, s, a)
  }

  ghost predicate Reachable(c: Config, s: State) { Reaches(System(c), INIT, s) }

  /** Both threads were joined, so this is the value that main prints. */
  predicate Final(s: State) { s.left == Exited && s.right == Exited }

  // ---------------------------------------------------------------------------------------------
  // Bounds
  // ---------------------------------------------------------------------------------------------

  /** Completed increments. */
  function Count(n: nat, p: Pc): nat {
    match p case Start => 0 case Loop(i) => i case Store(i, _) => i case _ => n
  }

  predicate PcInv(n: nat, p: Pc) {
    match p case Loop(i) => i <= n case Store(i, _) => i < n case _ => true
  }

  function AtLeast(n: nat): nat { if n < 2 then n else 2 }

  /** What a thread has loaded lies between the bounds, and is not the initial zero in a later iteration. */
  predicate LoadInv(sum: nat, p: Pc) {
    p.Store? ==> 0 <= p.tmp <= sum && (p.i > 0 ==> p.tmp > 0)
  }

  /** The global and the two threads, in either order. */
  predicate PairInv(n: nat, glob: int, p: Pc, q: Pc) {
    var sum := Count(n, p) + Count(n, q);
    && PcInv(n, p) && PcInv(n, q) && LoadInv(sum, p) && LoadInv(sum, q)
    && 0 <= glob <= sum && (sum > 0 ==> glob > 0)
    && (Count(n, p) == n && Count(n, q) == n ==> glob >= AtLeast(n))
  }

  predicate RaceInv(c: Config, s: State) { PairInv(c.n, s.glob, s.left, s.right) }

  predicate Holds(p: Pc) { p.Loop? || p.Store? || p == Finish }

  predicate LockInv(c: Config, s: State) {
    && (s.mon.owner == Some(0) <==> c.locked && Holds(s.left))
    && (s.mon.owner == Some(1) <==> c.locked && Holds(s.right))
    && (s.mon.owner.Some? ==> s.mon.owner.value <= 1)
  }

  /** Under the mutex nothing that was loaded is out of date. */
  predicate ExactInv(c: Config, s: State) {
    c.locked ==>
      && s.glob == Count(c.n, s.left) + Count(c.n, s.right)
      && (s.left.Store? ==> s.left.tmp == s.glob)
      && (s.right.Store? ==> s.right.tmp == s.glob)
  }

  predicate Inv(c: Config, s: State) { RaceInv(c, s) && LockInv(c, s) && ExactInv(c, s) }

  lemma PairIsSymmetric(n: nat, glob: int, p: Pc, q: Pc)
    ensures PairInv(n, glob, p, q) <==> PairInv(n, glob, q, p)
  {
  }

  lemma MoveKeepsPair(n: nat, glob: int, p: Pc, q: Pc)
    requires PairInv(n, glob, p, q) && (p == Start || p == Finish)
    ensures PairInv(n, glob, if p == Start then Loop(0) else Exited, q)
  {
  }

  lemma LoadKeepsPair(n: nat, glob: int, p: Pc, q: Pc)
    requires PairInv(n, glob, p, q) && p.Loop?
    ensures PairInv(n, glob, if p.i < n then Store(p.i, glob) else Finish, q)
  {
  }

  lemma StoreKeepsPair(n: nat, glob: int, p: Pc, q: Pc)
    requires PairInv(n, glob, p, q) && p.Store?
    ensures PairInv(n, p.tmp + 1, Loop(p.i + 1), q)
  {
  }

  lemma KeepsRaceInv(c: Config, s: State, a: Act)
    requires RaceInv(c, s) && Next(c, s, a).Some?
    ensures RaceInv(c, Next(c, s, a).value)
  {
    hide PairInv;
    var t := Next(c, s, a).value;
    var p, q := PcOf(s, a), PcOf(s, if a == Left then Right else Left);
    PairIsSymmetric(c.n, s.glob, s.left, s.right);
    match p {
      case Loop(i) => LoadKeepsPair(c.n, s.glob, p, q);
      case Store(i, tmp) => StoreKeepsPair(c.n, s.glob, p, q);
      case _ => MoveKeepsPair(c.n, s.glob, p, q);
    }
    PairIsSymmetric(c.n, t.glob, t.left, t.right);
  }

  lemma KeepsLockInv(c: Config, s: State, a: Act)
    requires LockInv(c, s) && Next(c, s, a).Some?
    ensures LockInv(c, Next(c, s, a).value)
  {
  }

  lemma KeepsExactInv(c: Config, s: State, a: Act)
    requires RaceInv(c, s) && LockInv(c, s) && ExactInv(c, s) && Next(c, s, a).Some?
    ensures ExactInv(c, Next(c, s, a).value)
  {
    assert c.locked && PcOf(s, a).Store? ==> s.mon.owner == Some(Id(a));
  }

  lemma KeepsInv(c: Config, s: State, a: Act)
    requires Inv(c, s) && Next(c, s, a).Some?
    ensures Inv(c, Next(c, s, a).value)
  {
    hide RaceInv, LockInv, ExactInv, Next;
    KeepsRaceInv(c, s, a);
    KeepsLockInv(c, s, a);
    KeepsExactInv(c, s, a);
  }

  lemma ReachableInv(c: Config, s: State)
    requires Reachable(c, s)
    ensures Inv(c, s)
  {
    assert Inv(c, INIT);
    hide Inv, Next;
    var sched: seq<Act> :| Exec(System(c), INIT, sched) == Some(s);
    forall t: State, a: Act | Inv(c, t) && System(c)(t, a).Some? ensures Inv(c, System(c)(t, a).value) {
      KeepsInv(c, t, a);
    }
    InvariantHolds(System(c), t => Inv(c, t), INIT, sched);
  }

  /** With USE_LOCK every run prints 2n. */
  lemma LockedRunsAreExact(n: nat, s: State)
    requires Reachable(Config(n, true), s) && Final(s)
    ensures s.glob == 2 * n
  {
    ReachableInv(Config(n, true), s);
  }

  // ---------------------------------------------------------------------------------------------
  // Every run ends, and not before both threads are done
  // ---------------------------------------------------------------------------------------------

  function Rank(n: nat, p: Pc): nat {
    match p
    case Start => 2 * n + 3
    case Loop(i) => if i <= n then 2 * (n - i) + 2 else 2
    case Store(i, _) => if i < n then 2 * (n - i) + 1 else 2
    case Finish => 1
    case Exited => 0
  }

  function Measure(n: nat, s: State): nat { Rank(n, s.left) + Rank(n, s.right) }

  lemma MeasureDecreases(c: Config, s: State, a: Act)
    requires Inv(c, s) && Next(c, s, a).Some?
    ensures Measure(c.n, Next(c, s, a).value) < Measure(c.n, s)
  {
    hide LockInv, ExactInv;
  }

  lemma RunsAreFinite(c: Config, sched: seq<Act>)
    requires Exec(System(c), INIT, sched).Some?
    ensures |sched| <= 4 * c.n + 6
  {
    assert Inv(c, INIT) && Measure(c.n, INIT) == 4 * c.n + 6;
    hide Inv, Measure, Next;
    forall s: State, a: Act | Inv(c, s) && System(c)(s, a).Some?
      ensures Inv(c, System(c)(s, a).value) && Measure(c.n, System(c)(s, a).value) < Measure(c.n, s)
    {
      KeepsInv(c, s, a);
      MeasureDecreases(c, s, a);
    }
    ScheduleIsBounded(System(c), s => Inv(c, s), s => Measure(c.n, s), INIT, sched);
  }

  /** With and without the mutex a thread can always move until both have exited. */
  lemma NeverStuck(c: Config, s: State)
    requires Reachable(c, s)
    ensures Final(s) || Next(c, s, Left).Some? || Next(c, s, Right).Some?
  {
    ReachableInv(c, s);
  }

  /** And each of them can, but for its lock while the other has the mutex, which it then takes. */
  lemma WhoCanMove(c: Config, s: State, a: Act)
    requires Reachable(c, s)
    ensures Next(c, s, a).Some? <==>
      PcOf(s, a) != Exited && (c.locked && PcOf(s, a) == Start ==> s.mon.owner == None)
    ensures c.locked && PcOf(s, a) == Start && Next(c, s, a).Some? ==> Next(c, s, a).value.mon.owner == Some(Id(a))
  {
    ReachableInv(c, s);
  }

  // ---------------------------------------------------------------------------------------------
  // A schedule for every value
  // ---------------------------------------------------------------------------------------------

  /** One thread runs k whole iterations alone. */
  lemma {:induction false} RunAlone(c: Config, s: State, a: Act, i: nat, k: nat)
    requires PcOf(s, a) == Loop(i) && i + k <= c.n
    ensures Reaches(System(c), s, With(s, a, Loop(i + k)).(glob := s.glob + k))
    decreases k
  {
    if k == 0 {
      ReachesSelf(System(c), s);
    } else {
      var s1 := With(s, a, Store(i, s.glob));
      var s2 := With(s, a, Loop(i + 1)).(glob := s.glob + 1);
      ReachesStep(System(c), s, a, s1);
      ReachesThen(System(c), s, s1, a, s2);
      RunAlone(c, s2, a, i + 1, k - 1);
      ReachesTrans(System(c), s, s2, With(s, a, Loop(i + k)).(glob := s.glob + k));
    }
  }

  function Other(a: Act): Act { if a == Left then Right else Left }

  /** The race itself, in any iteration of either thread: k increments that the other makes between a load
      and its store are overwritten, whatever their number. */
  lemma LostUpdate(c: Config, s: State, a: Act, i: nat, j: nat, k: nat)
    requires PcOf(s, a) == Loop(i) && i < c.n && PcOf(s, Other(a)) == Loop(j) && j + k <= c.n
    ensures Reaches(System(c), s, With(With(s, a, Loop(i + 1)), Other(a), Loop(j + k)).(glob := s.glob + 1))
  {
    var next := System(c);
    var s1 := With(s, a, Store(i, s.glob));
    var s2 := With(s1, Other(a), Loop(j + k)).(glob := s.glob + k);
    ReachesStep(next, s, a, s1);
    RunAlone(c, s1, Other(a), j, k);
    ReachesTrans(next, s, s1, s2);
    ReachesThen(next, s, s2, a, With(With(s, a, Loop(i + 1)), Other(a), Loop(j + k)).(glob := s.glob + 1));
  }

  /** Left loads the initial zero; right runs k iterations; left's store then overwrites them all. */
  lemma OverwriteFirst(c: Config, k: nat)
    requires !c.locked && k <= c.n && c.n > 0
    ensures Reachable(c, State(1, Loop(1), Loop(k), IDLE))
  {
    var next := System(c);
    var s1 := INIT.(left := Loop(0));
    var s2 := s1.(right := Loop(0));
    var s3 := s2.(left := Store(0, 0));
    var s4 := s3.(right := Loop(k), glob := k);
    ReachesStep(next, INIT, Left, s1);
    ReachesThen(next, INIT, s1, Right, s2);
    ReachesThen(next, INIT, s2, Left, s3);
    RunAlone(c, s3, Right, 0, k);
    ReachesTrans(next, INIT, s3, s4);
    ReachesThen(next, INIT, s4, Left, State(1, Loop(1), Loop(k), IDLE));
  }

  lemma Exit(c: Config, v: int)
    requires !c.locked && Reachable(c, State(v, Loop(c.n), Loop(c.n), IDLE))
    ensures Reachable(c, State(v, Exited, Exited, IDLE))
  {
    var next := System(c);
    var s := State(v, Loop(c.n), Loop(c.n), IDLE);
    ReachesThen(next, INIT, s, Left, s.(left := Finish));
    ReachesThen(next, INIT, s.(left := Finish), Left, s.(left := Exited));
    ReachesThen(next, INIT, s.(left := Exited), Right, s.(left := Exited, right := Finish));
    ReachesThen(next, INIT, s.(left := Exited, right := Finish), Right, s.(left := Exited, right := Exited));
  }

  /** The values from n up: lose k of right's increments at the start, and nothing after. */
  lemma LoseSome(c: Config, k: nat)
    requires !c.locked && k <= c.n && c.n > 0
    ensures Reachable(c, State(2 * c.n - k, Exited, Exited, IDLE))
  {
    var s := State(1, Loop(1), Loop(k), IDLE);
    var t := State(c.n, Loop(c.n), Loop(k), IDLE);
    var u := State(2 * c.n - k, Loop(c.n), Loop(c.n), IDLE);
    OverwriteFirst(c, k);
    RunAlone(c, s, Left, 1, c.n - 1);
    ReachesTrans(System(c), INIT, s, t);
    RunAlone(c, t, Right, k, c.n - k);
    ReachesTrans(System(c), INIT, t, u);
    Exit(c, 2 * c.n - k);
  }

  /** The values below: right's last load sees v - 1, and its last store overwrites the rest of left's work. */
  lemma LoseMost(c: Config, v: nat)
    requires !c.locked && 2 <= v <= c.n + 1 && c.n > 0
    ensures Reachable(c, State(v, Exited, Exited, IDLE))
  {
    var n, next := c.n, System(c);
    var s := State(1, Loop(1), Loop(n - 1), IDLE);
    var t := State(v - 1, Loop(v - 1), Loop(n - 1), IDLE);
    var u := t.(right := Store(n - 1, v - 1));
    var w := State(n, Loop(n), Store(n - 1, v - 1), IDLE);
    OverwriteFirst(c, n - 1);
    RunAlone(c, s, Left, 1, v - 2);
    ReachesTrans(next, INIT, s, t);
    ReachesThen(next, INIT, t, Right, u);
    RunAlone(c, u, Left, v - 1, n - (v - 1));
    ReachesTrans(next, INIT, u, w);
    ReachesThen(next, INIT, w, Right, State(v, Loop(n), Loop(n), IDLE));
    Exit(c, v);
  }

  lemma NoIterations(c: Config)
    requires !c.locked && c.n == 0
    ensures Reachable(c, State(0, Exited, Exited, IDLE))
  {
    var s1 := INIT.(left := Loop(0));
    ReachesStep(System(c), INIT, Left, s1);
    ReachesThen(System(c), INIT, s1, Right, s1.(right := Loop(0)));
    Exit(c, 0);
  }

  /** Without the mutex, the values that some run prints are exactly those from 2 (from n, when n < 2)
      to 2n. */
  lemma FinalValues(n: nat, v: int)
    ensures (exists s :: Reachable(Config(n, false), s) && Final(s) && s.glob == v) <==> AtLeast(n) <= v <= 2 * n
  {
    var c := Config(n, false);
    if s :| Reachable(c, s) && Final(s) && s.glob == v {
      ReachableInv(c, s);
    }
    if AtLeast(n) <= v <= 2 * n {
      if n == 0 {
        NoIterations(c);
      } else if v >= n {
        LoseSome(c, 2 * n - v);
      } else {
        LoseMost(c, v);
      }
      assert Reachable(c, State(v, Exited, Exited, IDLE));
    }
  }

  // ---------------------------------------------------------------------------------------------
  // The program on its own variables
  // ---------------------------------------------------------------------------------------------

  class Process {
    const config: Config
    var glob: int
    var left: Pc
    var right: Pc
    var mon: Monitor

    ghost function View(): State reads this { State(glob, left, right, mon) }

    constructor (c: Config)
      ensures config == c && View() == INIT
    {
      config := c;
      glob, left, right, mon := 0, Start, Start, IDLE;
    }

    /** The next load, store or mutex operation of one thread, in place. */
    method Step(a: Act) returns (moved: bool)
      modifies this
      ensures moved == Next(config, old(View()), a).Some?
      ensures View() == if moved then Next(config, old(View()), a).value else old(View())
    {
      moved := true;
      var pc := if a == Left then left else right;
      match pc {
      case Start =>
        if config.locked && mon.owner != None { return false; }
        if config.locked { mon := mon.(owner := Some(Id(a))); }
        pc := Loop(0);
      case Loop(i) => pc := if i < config.n then Store(i, glob) else Finish;
      case Store(i, tmp) => glob, pc := tmp + 1, Loop(i + 1);
      case Finish =>
        if config.locked && mon.owner != Some(Id(a)) { return false; }
        if config.locked { mon := mon.(owner := None); }
        pc := Exited;
      case Exited => return false;
      }
      if a == Left { left := pc; } else { right := pc; }
    }

    /** One thread function from start to return with USE_LOCK: the loop of increments that the mutex
        makes atomic. */
    method ThreadFunc(a: Act)
      requires config.locked && mon.owner == None && PcOf(View(), a) == Start
      modifies this
      ensures View() == With(old(View()), a, Exited).(glob := old(glob) + config.n)
    {
      var moved := Step(a);
      var i := 0;
      while i < config.n
        invariant 0 <= i <= config.n
        invariant View()
               == With(old(View()), a, Loop(i)).(glob := old(glob) + i, mon := old(mon).(owner := Some(Id(a))))
      {
        moved := Step(a);
        moved := Step(a);
        i := i + 1;
      }
      moved := Step(a);
      moved := Step(a);
    }
  }
}
