/** prod_no_condvar.c: one producer thread per command-line count, and a main thread that polls under the
    mutex until it has consumed as many units as the counts add up to.

    The counts are whatever atoi returned, so they may be zero or negative. */
module PollingConsumer {
  import opened Counting
  import opened Pthreads
  import opened Runs

  datatype ProducerPc =
    | TUnborn
    | TTest(j: nat)               // the test of the loop
    | TLock(j: nat)
    | TIncrement(j: nat)          // one more unit available
    | TUnlock(j: nat)
    | TExited

  datatype MainPc =
    | MAdd(k: nat)                // the loop over the arguments, adding up the counts
    | MCreate(k: nat)
    | MLock
    | MDrain                      // the test of the draining loop
    | MConsume                    // one more consumed
    | MTake                       // one fewer available
    | MSetDone                    // whether enough was consumed
    | MUnlock
    | MTestDone                   // the test after the unlock
    | MExited

  datatype Act = Main | Producer(i: nat)

  datatype State = State(
    main: MainPc, producers: seq<ProducerPc>, avail: int, numConsumed: int, totalRequired: int, done: bool,
    mon: Monitor)

  function Init(counts: seq<int>): State {
    State(MAdd(0), seq(|counts|, _ => TUnborn), 0, 0, 0, false, IDLE)
  }

  /** Producer i is thread i of the mutex and main is thread |counts|. */
  function ProducerNext(counts: seq<int>, s: State, i: nat): Option<State>
    requires |s.producers| == |counts| && i < |counts|
  {
    if s.main == MExited then None    // the return of main ends the process
    else match s.producers[i]
    case TUnborn => None
    case TTest(j) => Some(s.(producers := s.producers[i := if j < counts[i] then TLock(j) else TExited]))
    case TLock(j) =>
      (match Lock(s.mon, i)
       case None => None
       case Some(m) => Some(s.(producers := s.producers[i := TIncrement(j)], mon := m)))
    case TIncrement(j) => Some(s.(producers := s.producers[i := TUnlock(j)], avail := s.avail + 1))
    case TUnlock(j) =>
      (match Unlock(s.mon, i)
       case None => None
       case Some(m) => Some(s.(producers := s.producers[i := TTest(j + 1)], mon := m)))
    case TExited => None
  }

  function MainNext(counts: seq<int>, s: State): Option<State>
    requires |s.producers| == |counts|
  {
    match s.main
    case MAdd(k) =>
      if k < |counts| then Some(s.(main := MCreate(k), totalRequired := s.totalRequired + counts[k]))
      else Some(s.(main := MLock))
    case MCreate(k) =>
      if k < |counts| then Some(s.(main := MAdd(k + 1), producers := s.producers[k := TTest(0)])) else None
    case MLock =>
      (match Lock(s.mon, |counts|)
       case None => None
       case Some(m) => Some(s.(main := MDrain, mon := m)))
    case MDrain => Some(s.(main := if s.avail > 0 then MConsume else MUnlock))
    case MConsume => Some(s.(main := MTake, numConsumed := s.numConsumed + 1))
    case MTake => Some(s.(main := MSetDone, avail := s.avail - 1))
    case MSetDone => Some(s.(main := MDrain, done := s.numConsumed >= s.totalRequired))
    case MUnlock =>
      (match Unlock(s.mon, |counts|)
       case None => None
       case Some(m) => Some(s.(main := MTestDone, mon := m)))
    case MTestDone => Some(s.(main := if s.done then MExited else MLock))
    case MExited => None
  }

  function Next(counts: seq<int>, s: State, a: Act): Option<State> {
    if |s.producers| != |counts| then None
    else match a
      case Main => MainNext(counts, s)
      case Producer(i) => if i < |counts| then ProducerNext(counts, s, i) else None
  }

  function System(counts: seq<int>): (State, Act) -> Option<State> {
    (s, a) => Next(counts, s, a)
  }

  ghost predicate Reachable(counts: seq<int>, s: State) { Reaches(System(counts), Init(counts), s) }

  // ---------------------------------------------------------------------------------------------
  // Sums over the producers
  // ---------------------------------------------------------------------------------------------

  function Goal(count: int): nat { if count > 0 then count else 0 }

  /** The increments a producer has completed. */
  function Made(count: int, p: ProducerPc): nat {
    match p
    case TUnborn => 0
    case TTest(j) => j case TLock(j) => j case TIncrement(j) => j
    case TUnlock(j) => j + 1
    case TExited => Goal(count)
  }

  function MadeBy(counts: seq<int>, ps: seq<ProducerPc>): seq<nat>
    requires |counts| == |ps|
  {
    seq(|ps|, i requires 0 <= i < |ps| => Made(counts[i], ps[i]))
  }

  function TotalMade(counts: seq<int>, ps: seq<ProducerPc>): nat
    requires |counts| == |ps|
  {
    Total(MadeBy(counts, ps))
  }

  function Sum(counts: seq<int>): int {
    if counts == [] then 0 else counts[0] + Sum(counts[1..])
  }

  function Goals(counts: seq<int>): seq<nat> {
    seq(|counts|, i requires 0 <= i < |counts| => Goal(counts[i]))
  }

  function TotalGoal(counts: seq<int>): nat {
    Total(Goals(counts))
  }

  lemma TotalMadeUpdate(counts: seq<int>, ps: seq<ProducerPc>, i: nat, p: ProducerPc)
    requires |counts| == |ps| && i < |ps|
    ensures TotalMade(counts, ps[i := p]) == TotalMade(counts, ps) - Made(counts[i], ps[i]) + Made(counts[i], p)
  {
    assert MadeBy(counts, ps[i := p]) == MadeBy(counts, ps)[i := Made(counts[i], p)];
    TotalUpdate(MadeBy(counts, ps), i, Made(counts[i], p));
  }

  /** Nobody makes more than its goal; the goals are all reached if and only if their sum is. */
  lemma TotalMadeBound(counts: seq<int>, ps: seq<ProducerPc>)
    requires |counts| == |ps|
    requires forall i | 0 <= i < |ps| :: Made(counts[i], ps[i]) <= Goal(counts[i])
    ensures TotalMade(counts, ps) <= TotalGoal(counts)
    ensures TotalMade(counts, ps) == TotalGoal(counts) <==>
              forall i | 0 <= i < |ps| :: Made(counts[i], ps[i]) == Goal(counts[i])
  {
    var made, goals := MadeBy(counts, ps), Goals(counts);
    TotalBound(made, goals);
    assert forall i | 0 <= i < |ps| :: made[i] == Made(counts[i], ps[i]) && goals[i] == Goal(counts[i]);
    if made == goals {
      forall i | 0 <= i < |ps| ensures Made(counts[i], ps[i]) == Goal(counts[i]) {
        assert made[i] == goals[i];
      }
    }
  }

  lemma {:induction false} GoalsOfCounts(counts: seq<int>)
    ensures Sum(counts) <= TotalGoal(counts)
    ensures (forall i | 0 <= i < |counts| :: counts[i] >= 0) <==> Sum(counts) == TotalGoal(counts)
    ensures TotalGoal(counts) > 0 <==> exists i | 0 <= i < |counts| :: counts[i] > 0
  {
    if counts != [] {
      GoalsOfCounts(counts[1..]);
      assert Goals(counts)[1..] == Goals(counts[1..]);
      assert forall i | 0 < i < |counts| :: counts[i] == counts[1..][i - 1];
      assert forall i | 0 <= i < |counts| - 1 :: counts[1..][i] == counts[i + 1];
      if counts[0] >= 0 && Sum(counts[1..]) == TotalGoal(counts[1..]) {
        forall i | 0 <= i < |counts| ensures counts[i] >= 0 {
          assert i > 0 ==> counts[1..][i - 1] >= 0;
        }
      }
    }
  }

  lemma {:induction false} SumOfPrefix(counts: seq<int>, k: nat)
    requires k < |counts|
    ensures Sum(counts[..k + 1]) == Sum(counts[..k]) + counts[k]
  {
    if k > 0 {
      assert counts[..k + 1][1..] == counts[1..][..k] && counts[..k][1..] == counts[1..][..k - 1];
      SumOfPrefix(counts[1..], k - 1);
    }
  }

  // ---------------------------------------------------------------------------------------------
  // The invariant
  // ---------------------------------------------------------------------------------------------

  predicate MainOwns(m: MainPc) {
    m == MDrain || m == MConsume || m == MTake || m == MSetDone || m == MUnlock
  }

  function Added(counts: seq<int>, m: MainPc): nat {
    match m case MAdd(k) => k case MCreate(k) => k + 1 case _ => |counts|
  }

  function Created(counts: seq<int>, m: MainPc): nat {
    match m case MAdd(k) => k case MCreate(k) => k case _ => |counts|
  }

  predicate ProducerFits(count: int, p: ProducerPc) {
    match p
    case TTest(j) => j <= Goal(count)
    case TLock(j) => j < count
    case TIncrement(j) => j < count
    case TUnlock(j) => j < count
    case _ => true
  }

  ghost predicate ControlInv(counts: seq<int>, s: State)
    requires |s.producers| == |counts|
  {
    && Added(counts, s.main) <= |counts|
    && s.totalRequired == Sum(counts[..Added(counts, s.main)])
    && (forall i | 0 <= i < |counts| :: s.producers[i] == TUnborn <==> i >= Created(counts, s.main))
    && (forall i | 0 <= i < |counts| :: ProducerFits(counts[i], s.producers[i]))
  }

  ghost predicate OwnerInv(counts: seq<int>, s: State)
    requires |s.producers| == |counts|
  {
    && (s.mon.owner == Some(|counts|) <==> MainOwns(s.main))
    && (forall i | 0 <= i < |counts| ::
          s.mon.owner == Some(i) <==> s.producers[i].TIncrement? || s.producers[i].TUnlock?)
    && (s.mon.owner.Some? ==> s.mon.owner.value <= |counts|)
  }

  predicate Enough(s: State) { s.numConsumed > 0 && s.numConsumed >= s.totalRequired }

  ghost predicate UnitsInv(counts: seq<int>, s: State)
    requires |s.producers| == |counts|
  {
    && s.avail + s.numConsumed == TotalMade(counts, s.producers) + (if s.main == MTake then 1 else 0)
    && 0 <= s.avail && 0 <= s.numConsumed
    && (s.main == MConsume || s.main == MTake ==> s.avail > 0)
    && (s.main == MTake || s.main == MSetDone ==> s.numConsumed > 0)
    && (s.main == MUnlock ==> s.avail == 0)
    && (s.main.MAdd? || s.main.MCreate? ==> s.numConsumed == 0 && !s.done)
    && (s.main != MTake && s.main != MSetDone && !s.main.MAdd? && !s.main.MCreate? ==> s.done == Enough(s))
    && (s.main == MLock ==> !s.done)
    && (s.main == MExited ==> s.done)
  }

  ghost predicate Inv(counts: seq<int>, s: State) {
    |s.producers| == |counts| && ControlInv(counts, s) && OwnerInv(counts, s) && UnitsInv(counts, s)
  }

  lemma InitInv(counts: seq<int>)
    ensures Inv(counts, Init(counts))
  {
    assert MadeBy(counts, Init(counts).producers) == seq(|counts|, _ => 0);
    TotalOfConstant(|counts|, 0);
  }

  lemma ProducerKeepsControlInv(counts: seq<int>, s: State, i: nat)
    requires |s.producers| == |counts| && ControlInv(counts, s) && i < |counts| && ProducerNext(counts, s, i).Some?
    ensures ControlInv(counts, ProducerNext(counts, s, i).value)
  {
    hide Sum;
  }

  lemma MainKeepsControlInv(counts: seq<int>, s: State)
    requires |s.producers| == |counts| && ControlInv(counts, s) && MainNext(counts, s).Some?
    ensures ControlInv(counts, MainNext(counts, s).value)
  {
    hide Sum;
    if s.main.MAdd? && s.main.k < |counts| {
      SumOfPrefix(counts, s.main.k);
    }
  }

  lemma KeepsControlInv(counts: seq<int>, s: State, a: Act)
    requires |s.producers| == |counts| && ControlInv(counts, s) && Next(counts, s, a).Some?
    ensures |Next(counts, s, a).value.producers| == |counts| && ControlInv(counts, Next(counts, s, a).value)
  {
    hide ControlInv;
    match a
    case Main => MainKeepsControlInv(counts, s);
    case Producer(i) => ProducerKeepsControlInv(counts, s, i);
  }

  lemma ProducerKeepsOwnerInv(counts: seq<int>, s: State, i: nat)
    requires |s.producers| == |counts| && OwnerInv(counts, s) && i < |counts| && ProducerNext(counts, s, i).Some?
    ensures OwnerInv(counts, ProducerNext(counts, s, i).value)
  {
    hide MainOwns;
  }

  lemma MainKeepsOwnerInv(counts: seq<int>, s: State)
    requires |s.producers| == |counts| && ControlInv(counts, s) && OwnerInv(counts, s) && MainNext(counts, s).Some?
    ensures OwnerInv(counts, MainNext(counts, s).value)
  {
  }

  lemma KeepsOwnerInv(counts: seq<int>, s: State, a: Act)
    requires |s.producers| == |counts| && ControlInv(counts, s) && OwnerInv(counts, s) && Next(counts, s, a).Some?
    ensures |Next(counts, s, a).value.producers| == |counts| && OwnerInv(counts, Next(counts, s, a).value)
  {
    hide ControlInv, OwnerInv;
    match a
    case Main => MainKeepsOwnerInv(counts, s);
    case Producer(i) => ProducerKeepsOwnerInv(counts, s, i);
  }

  lemma KeepsUnitsInv(counts: seq<int>, s: State, a: Act)
    requires |s.producers| == |counts| && ControlInv(counts, s) && OwnerInv(counts, s) && UnitsInv(counts, s)
    requires Next(counts, s, a).Some?
    ensures |Next(counts, s, a).value.producers| == |counts| && UnitsInv(counts, Next(counts, s, a).value)
  {
    hide TotalMade, Sum;
    if a.Producer? {
      TotalMadeUpdate(counts, s.producers, a.i, Next(counts, s, a).value.producers[a.i]);
    } else if s.main.MCreate? && s.main.k < |counts| {
      TotalMadeUpdate(counts, s.producers, s.main.k, TTest(0));
    }
  }

  lemma KeepsInv(counts: seq<int>, s: State, a: Act)
    requires Inv(counts, s) && Next(counts, s, a).Some?
    ensures Inv(counts, Next(counts, s, a).value)
  {
    hide ControlInv, OwnerInv, UnitsInv, Next;
    KeepsControlInv(counts, s, a);
    KeepsOwnerInv(counts, s, a);
    KeepsUnitsInv(counts, s, a);
  }

  lemma ReachableInv(counts: seq<int>, s: State)
    requires Reachable(counts, s)
    ensures Inv(counts, s)
  {
    InitInv(counts);
    hide Inv, Next, Init;
    var sched: seq<Act> :| Exec(System(counts), Init(counts), sched) == Some(s);
    forall t: State, a: Act | Inv(counts, t) && System(counts)(t, a).Some?
      ensures Inv(counts, System(counts)(t, a).value)
    {
      KeepsInv(counts, t, a);
    }
    InvariantHolds(System(counts), t => Inv(counts, t), Init(counts), sched);
  }

  // ---------------------------------------------------------------------------------------------
  // What holds over every run
  // ---------------------------------------------------------------------------------------------

  /** Whenever the mutex is free the two counters account for every increment the producers completed. */
  lemma UnitsAreConserved(counts: seq<int>, s: State)
    requires Reachable(counts, s)
    ensures |s.producers| == |counts|
    ensures s.mon.owner == None ==> s.avail + s.numConsumed == TotalMade(counts, s.producers)
    ensures 0 <= s.numConsumed <= TotalGoal(counts)
  {
    ReachableInv(counts, s);
    hide TotalMade, TotalGoal, Sum;
    TotalMadeBound(counts, s.producers);
  }

  /** And at every moment, inside the critical sections too: a unit is counted as consumed before it is taken
      off the available ones. */
  lemma UnitsAlways(counts: seq<int>, s: State)
    requires Reachable(counts, s)
    ensures |s.producers| == |counts|
    ensures s.avail + s.numConsumed == TotalMade(counts, s.producers) + if s.main == MTake then 1 else 0
    ensures s.avail >= 0
  {
    ReachableInv(counts, s);
    hide TotalMade, TotalGoal, Sum;
  }

  /** The producers are created one by one, each after its count was added; main does not leave its loop with
      the mutex. */
  lemma CreatedOneByOne(counts: seq<int>, s: State)
    requires Reachable(counts, s)
    ensures |s.producers| == |counts|
    ensures forall i | 0 <= i < |counts| :: s.producers[i] == TUnborn <==> i >= Created(counts, s.main)
    ensures Added(counts, s.main) <= |counts| && s.totalRequired == Sum(counts[..Added(counts, s.main)])
    ensures s.main == MExited ==> s.mon.owner != Some(|counts|)
  {
    ReachableInv(counts, s);
    hide UnitsInv, Sum;
  }

  /** Main stops polling as soon as it has consumed enough, and not before. */
  lemma LeavesAsSoonAsEnough(counts: seq<int>, s: State)
    requires Reachable(counts, s)
    ensures s.main == MLock ==> !Enough(s)
    ensures s.main == MTestDone ==>
      |s.producers| == |counts| && MainNext(counts, s) == Some(s.(main := if Enough(s) then MExited else MLock))
  {
    ReachableInv(counts, s);
    hide TotalMade, TotalGoal, Sum;
  }

  /** Nobody waits except for the mutex while another has it; and who waited for it has it then. */
  lemma WhoCanMove(counts: seq<int>, s: State, a: Act)
    requires Reachable(counts, s)
    ensures |s.producers| == |counts|
    ensures Next(counts, s, a).Some? <==>
      match a
      case Main => s.main != MExited && (s.main == MLock ==> s.mon.owner == None)
      case Producer(i) =>
        && i < |counts| && s.main != MExited && s.producers[i] != TUnborn && s.producers[i] != TExited
        && (s.producers[i].TLock? ==> s.mon.owner == None)
    ensures a == Main && s.main == MLock && Next(counts, s, a).Some? ==>
      Next(counts, s, a).value.mon.owner == Some(|counts|)
    ensures a.Producer? && a.i < |counts| && s.producers[a.i].TLock? && Next(counts, s, a).Some? ==>
      Next(counts, s, a).value.mon.owner == Some(a.i)
  {
    ReachableInv(counts, s);
    hide UnitsInv, Sum;
  }

  /** The loop is left with at least one unit and at least the required total consumed, for any counts. */
  lemma LeavesWithEnough(counts: seq<int>, s: State)
    requires Reachable(counts, s) && s.main == MExited
    ensures s.totalRequired == Sum(counts)
    ensures 0 < s.numConsumed && Sum(counts) <= s.numConsumed <= TotalGoal(counts)
  {
    ReachableInv(counts, s);
    hide TotalMade, TotalGoal, Sum;
    assert counts[..|counts|] == counts;
    UnitsAreConserved(counts, s);
  }

  /** All units the threads were asked for were produced and consumed, and that is the required total. */
  ghost predicate EverythingDone(counts: seq<int>, s: State) {
    && s.numConsumed == s.totalRequired == Sum(counts) && s.avail == 0 && |s.producers| == |counts|
    && forall i | 0 <= i < |counts| :: Made(counts[i], s.producers[i]) == Goal(counts[i])
  }

  /** The loop is left with everything done if no count is negative, and never so if one is: a negative
      count lowers the total but takes nothing back from the other producers. */
  lemma LeavesWithEverythingIff(counts: seq<int>, s: State)
    requires Reachable(counts, s) && s.main == MExited
    ensures EverythingDone(counts, s) <==> forall i | 0 <= i < |counts| :: counts[i] >= 0
  {
    ReachableInv(counts, s);
    hide TotalMade, TotalGoal, Sum;
    LeavesWithEnough(counts, s);
    GoalsOfCounts(counts);
    TotalMadeBound(counts, s.producers);
  }

  // ---------------------------------------------------------------------------------------------
  // Whether the loop can be left
  // ---------------------------------------------------------------------------------------------

  /** main takes the mutex and will find nothing. */
  predicate PollsInVain(s: State, a: Act) { a == Main && s.main == MLock && s.avail == 0 }

  /** The same program under a scheduler that lets main poll only when something is available. */
  function PatientNext(counts: seq<int>, s: State, a: Act): Option<State> {
    if PollsInVain(s, a) then None else Next(counts, s, a)
  }

  function Patient(counts: seq<int>): (State, Act) -> Option<State> {
    (s, a) => PatientNext(counts, s, a)
  }

  function ProducerRank(count: int, p: ProducerPc): nat {
    var g := Goal(count);
    match p
    case TUnborn => 4 * g + 2
    case TTest(j) => if j <= g then 4 * (g - j) + 1 else 0
    case TLock(j) => if j < g then 4 * (g - j) else 0
    case TIncrement(j) => if j < g then 4 * (g - j) - 1 else 0
    case TUnlock(j) => if j < g then 4 * (g - j) - 2 else 0
    case TExited => 0
  }

  function Ranks(counts: seq<int>, ps: seq<ProducerPc>): seq<nat>
    requires |counts| == |ps|
  {
    seq(|ps|, i requires 0 <= i < |ps| => ProducerRank(counts[i], ps[i]))
  }

  function ProducersRank(counts: seq<int>, ps: seq<ProducerPc>): nat
    requires |counts| == |ps|
  {
    Total(Ranks(counts, ps))
  }

  lemma ProducersRankUpdate(counts: seq<int>, ps: seq<ProducerPc>, i: nat, p: ProducerPc)
    requires |counts| == |ps| && i < |ps|
    ensures ProducersRank(counts, ps[i := p])
         == ProducersRank(counts, ps) - ProducerRank(counts[i], ps[i]) + ProducerRank(counts[i], p)
  {
    assert Ranks(counts, ps[i := p]) == Ranks(counts, ps)[i := ProducerRank(counts[i], p)];
    TotalUpdate(Ranks(counts, ps), i, ProducerRank(counts[i], p));
  }

  function MainRank(counts: seq<int>, s: State): nat {
    match s.main
    case MAdd(k) => if k <= |counts| then 2 * (|counts| - k) + 11 else 11
    case MCreate(k) => if k < |counts| then 2 * (|counts| - k) + 10 else 10
    case MLock => 6
    case MDrain => if s.avail > 0 then 5 else 9
    case MConsume => 4
    case MTake => 11
    case MSetDone => 10
    case MUnlock => 8
    case MTestDone => 7
    case MExited => 0
  }

  function Measure(counts: seq<int>, s: State): nat {
    (if |s.producers| == |counts| then ProducersRank(counts, s.producers) else 0)
    + (if s.numConsumed <= TotalGoal(counts) then 8 * (TotalGoal(counts) - s.numConsumed) else 0)
    + MainRank(counts, s)
  }

  lemma MeasureDecreases(counts: seq<int>, s: State, a: Act)
    requires Inv(counts, s) && PatientNext(counts, s, a).Some?
    ensures Inv(counts, PatientNext(counts, s, a).value)
    ensures Measure(counts, PatientNext(counts, s, a).value) < Measure(counts, s)
  {
    var t := PatientNext(counts, s, a).value;
    KeepsInv(counts, s, a);
    ConsumedAtMostGoal(counts, t);
    RankDecreases(counts, s, a);
  }

  lemma ConsumedAtMostGoal(counts: seq<int>, s: State)
    requires Inv(counts, s)
    ensures s.numConsumed <= TotalGoal(counts)
  {
    hide TotalMade, TotalGoal, Sum;
    TotalMadeBound(counts, s.producers);
  }

  lemma RankDecreases(counts: seq<int>, s: State, a: Act)
    requires Inv(counts, s) && PatientNext(counts, s, a).Some?
    requires PatientNext(counts, s, a).value.numConsumed <= TotalGoal(counts)
    ensures Measure(counts, PatientNext(counts, s, a).value) < Measure(counts, s)
  {
    hide TotalMade, TotalGoal, Sum, ProducersRank;
    if a.Producer? {
      ProducersRankUpdate(counts, s.producers, a.i, Next(counts, s, a).value.producers[a.i]);
    } else if s.main.MCreate? && s.main.k < |counts| {
      ProducersRankUpdate(counts, s.producers, s.main.k, TTest(0));
    }
  }

  lemma VainPollCosts(counts: seq<int>, s: State, a: Act)
    requires PollsInVain(s, a) && Next(counts, s, a).Some?
    ensures Measure(counts, Next(counts, s, a).value) == Measure(counts, s) + 3
  {
  }

  /** How many actions of the schedule are polls in vain. */
  ghost function VainPolls(counts: seq<int>, s: State, sched: seq<Act>): nat
    decreases |sched|
  {
    if sched == [] then 0
    else match Next(counts, s, sched[0])
      case None => 0
      case Some(t) => (if PollsInVain(s, sched[0]) then 1 else 0) + VainPolls(counts, t, sched[1..])
  }

  lemma {:induction false} StepsBetweenPolls(counts: seq<int>, s: State, sched: seq<Act>)
    requires Inv(counts, s) && Exec(System(counts), s, sched).Some?
    ensures |sched| + Measure(counts, Exec(System(counts), s, sched).value)
         <= Measure(counts, s) + 4 * VainPolls(counts, s, sched)
    decreases |sched|
  {
    if sched != [] {
      hide Inv, Measure, Next, PollsInVain;
      var a := sched[0];
      assert System(counts)(s, a) == Next(counts, s, a);
      var t := Next(counts, s, a).value;
      KeepsInv(counts, s, a);
      StepsBetweenPolls(counts, t, sched[1..]);
      if PollsInVain(s, a) {
        VainPollCosts(counts, s, a);
      } else {
        MeasureDecreases(counts, s, a);
      }
    }
  }

  lemma {:induction false} UnbornRanks(counts: seq<int>)
    ensures ProducersRank(counts, seq(|counts|, _ => TUnborn)) == 4 * TotalGoal(counts) + 2 * |counts|
  {
    var ps := seq(|counts|, _ => TUnborn);
    if counts != [] {
      var rest := counts[1..];
      UnbornRanks(rest);
      assert Ranks(counts, ps)[1..] == Ranks(rest, seq(|rest|, _ => TUnborn));
      assert Goals(counts)[1..] == Goals(rest);
    }
  }

  /** Polling in vain is all that can make a run long: every schedule, for any counts and whatever the
      interleaving, has at most so many steps besides the four that each poll in vain takes. */
  lemma OnlyPollsAreUnbounded(counts: seq<int>, sched: seq<Act>)
    requires Exec(System(counts), Init(counts), sched).Some?
    ensures |sched| <= 12 * TotalGoal(counts) + 4 * |counts| + 11 + 4 * VainPolls(counts, Init(counts), sched)
  {
    InitInv(counts);
    UnbornRanks(counts);
    hide ProducersRank, TotalGoal;
    assert Measure(counts, Init(counts)) == 12 * TotalGoal(counts) + 4 * |counts| + 11;
    StepsBetweenPolls(counts, Init(counts), sched);
  }

  lemma {:induction false} PatientRunsAreRuns(counts: seq<int>, s: State, sched: seq<Act>)
    requires Exec(Patient(counts), s, sched).Some?
    ensures Exec(System(counts), s, sched) == Exec(Patient(counts), s, sched)
    decreases |sched|
  {
    if sched != [] {
      assert System(counts)(s, sched[0]) == Patient(counts)(s, sched[0]);
      PatientRunsAreRuns(counts, Patient(counts)(s, sched[0]).value, sched[1..]);
    }
  }

  /** When no producer can move and main polls in vain, nobody was to produce anything. */
  lemma NothingToWaitFor(counts: seq<int>, s: State)
    requires Inv(counts, s) && s.mon.owner != Some(|counts|)
    requires forall i: nat | i < |counts| :: ProducerNext(counts, s, i) == None
    ensures s.main == MLock ==> s.mon.owner == None && (s.avail == 0 ==> TotalGoal(counts) == 0)
  {
    hide TotalMade, TotalGoal, Sum;
    if s.main == MLock {
      forall i: nat | i < |counts| ensures s.mon.owner != Some(i) {
        assert ProducerNext(counts, s, i) == None;
      }
      forall i: nat | i < |counts| ensures s.producers[i] == TExited {
        assert ProducerNext(counts, s, i) == None;
      }
      TotalMadeBound(counts, s.producers);
      GoalsOfCounts(counts);
      assert counts[..|counts|] == counts;
    }
  }

  /** A patient scheduler comes to rest only when main has left its loop. */
  lemma PatientEnd(counts: seq<int>, s: State)
    requires Inv(counts, s) && Blocked(Patient(counts), s) && TotalGoal(counts) > 0
    ensures s.main == MExited
  {
    hide UnitsInv;
    assert Patient(counts)(s, Main) == None;
    assert s.mon.owner != Some(|counts|);
    forall i: nat | i < |counts| ensures ProducerNext(counts, s, i) == None {
      assert Patient(counts)(s, Producer(i)) == None;
    }
    NothingToWaitFor(counts, s);
  }

  /** From every point of every run the loop can still be left, if some count is positive. */
  lemma LoopCanBeLeft(counts: seq<int>, s: State) returns (t: State)
    requires Reachable(counts, s) && exists i | 0 <= i < |counts| :: counts[i] > 0
    ensures Reaches(System(counts), s, t) && t.main == MExited
  {
    ReachableInv(counts, s);
    GoalsOfCounts(counts);
    hide Inv, Measure, TotalGoal, PatientNext;
    forall u: State, a: Act | Inv(counts, u) && Patient(counts)(u, a).Some?
      ensures Inv(counts, Patient(counts)(u, a).value)
      ensures Measure(counts, Patient(counts)(u, a).value) < Measure(counts, u)
    {
      MeasureDecreases(counts, u, a);
    }
    t := RunsToTheEnd(Patient(counts), u => Inv(counts, u), u => Measure(counts, u), s);
    PatientEnd(counts, t);
    var sched: seq<Act> :| Exec(Patient(counts), s, sched) == Some(t);
    PatientRunsAreRuns(counts, s, sched);
  }

  /** Exactly: some run leaves the loop if and only if some count is positive; with none, main polls for
      ever, also when the total of the counts is zero or less. */
  lemma LoopCanBeLeftIff(counts: seq<int>)
    ensures (exists s :: Reachable(counts, s) && s.main == MExited) <==> exists i | 0 <= i < |counts| :: counts[i] > 0
  {
    GoalsOfCounts(counts);
    if s :| Reachable(counts, s) && s.main == MExited {
      LeavesWithEnough(counts, s);
    }
    if exists i | 0 <= i < |counts| :: counts[i] > 0 {
      ReachesSelf(System(counts), Init(counts));
      var t := LoopCanBeLeft(counts, Init(counts));
    }
  }

  // ---------------------------------------------------------------------------------------------
  // Which totals a run may leave the loop with
  // ---------------------------------------------------------------------------------------------

  /** One more action of a run. */
  lemma RunOn(counts: seq<int>, s: State, a: Act) returns (t: State)
    requires Inv(counts, s) && Next(counts, s, a).Some?
    ensures t == Next(counts, s, a).value && Inv(counts, t) && Reaches(System(counts), s, t)
  {
    hide Inv, Next;
    t := Next(counts, s, a).value;
    KeepsInv(counts, s, a);
    ReachesStep(System(counts), s, a, t);
  }

  /** Main is about to poll for the first time, with v units made and nobody in the middle of one. */
  ghost predicate Offers(counts: seq<int>, s: State, v: int) {
    && Inv(counts, s) && s.main == MLock && s.mon == IDLE && s.numConsumed == 0 && s.avail == v
    && forall i: nat | i < |counts| :: s.producers[i].TTest?
  }

  /** Main creates all producers before any of them moves; it has not polled then. */
  lemma {:induction false} CreatesAll(counts: seq<int>, s: State) returns (t: State, sched: seq<Act>)
    requires Inv(counts, s) && s.mon == IDLE && s.numConsumed == 0 && s.avail == 0
    requires s.main.MAdd? || s.main.MCreate? || s.main == MLock
    requires forall i: nat | i < |counts| :: s.producers[i] == TUnborn || s.producers[i].TTest?
    ensures Reaches(System(counts), s, t) && Offers(counts, t, 0)
    ensures Exec(System(counts), s, sched) == Some(t) && VainPolls(counts, s, sched) == 0
    decreases MainRank(counts, s)
  {
    hide UnitsInv, OwnerInv, Sum;
    if s.main == MLock {
      t, sched := s, [];
    } else {
      var u := RunOn(counts, s, Main);
      var rest;
      t, rest := CreatesAll(counts, u);
      sched := [Main] + rest;
      assert sched[1..] == rest;
    }
    assert Exec(System(counts), s, sched) == Some(t);
  }

  /** Producer i, which has not reached its goal, makes one more. */
  lemma ProducesOne(counts: seq<int>, s: State, v: int, i: nat) returns (t: State)
    requires Offers(counts, s, v) && i < |counts| && s.producers[i].j < counts[i]
    ensures Reaches(System(counts), s, t) && Offers(counts, t, v + 1)
  {
    hide ControlInv, OwnerInv, UnitsInv;
    var s1 := RunOn(counts, s, Producer(i));
    var s2 := RunOn(counts, s1, Producer(i));
    ReachesTrans(System(counts), s, s1, s2);
    var s3 := RunOn(counts, s2, Producer(i));
    ReachesTrans(System(counts), s, s2, s3);
    t := RunOn(counts, s3, Producer(i));
    ReachesTrans(System(counts), s, s3, t);
  }

  /** As long as fewer units were made than asked for, some producer has one to make. */
  lemma SomeoneIsBehind(counts: seq<int>, s: State, v: int) returns (i: nat)
    requires Offers(counts, s, v) && v < TotalGoal(counts)
    ensures i < |counts| && s.producers[i].j < counts[i]
  {
    hide TotalMade, TotalGoal, Sum, OwnerInv;
    TotalMadeBound(counts, s.producers);
    i :| i < |counts| && Made(counts[i], s.producers[i]) != Goal(counts[i]);
    assert ProducerFits(counts[i], s.producers[i]);
  }

  lemma {:induction false} ProducesMany(counts: seq<int>, s: State, v: int, w: int) returns (t: State)
    requires Offers(counts, s, v) && v <= w <= TotalGoal(counts)
    ensures Reaches(System(counts), s, t) && Offers(counts, t, w)
    decreases w - v
  {
    hide Offers, TotalGoal;
    if v == w {
      t := s;
      ReachesSelf(System(counts), s);
    } else {
      var i := SomeoneIsBehind(counts, s, v);
      var u := ProducesOne(counts, s, v, i);
      t := ProducesMany(counts, u, v + 1, w);
      ReachesTrans(System(counts), s, u, t);
    }
  }

  /** The units consumed when the current drain is over. */
  function AfterDrain(s: State): int { s.numConsumed + s.avail - if s.main == MTake then 1 else 0 }

  /** Main drains what is there, and leaves when that is enough. */
  lemma {:induction false} DrainsAndLeaves(counts: seq<int>, s: State) returns (t: State)
    requires Inv(counts, s) && (MainOwns(s.main) || ((s.main == MTestDone || s.main == MExited) && s.avail == 0))
    requires AfterDrain(s) > 0 && AfterDrain(s) >= s.totalRequired
    ensures Reaches(System(counts), s, t) && t.main == MExited && t.numConsumed == AfterDrain(s)
    decreases Measure(counts, s)
  {
    hide ControlInv, Measure;
    if s.main == MExited {
      t := s;
      ReachesSelf(System(counts), s);
    } else {
      var u := RunOn(counts, s, Main);
      MeasureDecreases(counts, s, Main);
      t := DrainsAndLeaves(counts, u);
      ReachesTrans(System(counts), s, u, t);
    }
  }

  /** Every total that satisfies LeavesWithEnough is the one with which some run leaves the loop: the
      producers make so many units before main polls. */
  lemma LeavesWith(counts: seq<int>, v: int) returns (t: State)
    requires 0 < v && Sum(counts) <= v <= TotalGoal(counts)
    ensures Reachable(counts, t) && t.main == MExited && t.numConsumed == v
  {
    InitInv(counts);
    var s0, sched := CreatesAll(counts, Init(counts));
    var s1 := ProducesMany(counts, s0, 0, v);
    ReachesTrans(System(counts), Init(counts), s0, s1);
    assert s1.totalRequired == Sum(counts) by {
      assert counts[..|counts|] == counts;
    }
    hide ControlInv, OwnerInv, UnitsInv, Sum, TotalGoal, Init;
    var s2 := RunOn(counts, s1, Main);
    ReachesTrans(System(counts), Init(counts), s1, s2);
    t := DrainsAndLeaves(counts, s2);
    ReachesTrans(System(counts), Init(counts), s2, t);
  }

  /** The totals with which the loop can be left are exactly these; for counts without a negative one there
      is just one. */
  lemma FinalTotals(counts: seq<int>, v: int)
    ensures (exists s :: Reachable(counts, s) && s.main == MExited && s.numConsumed == v)
            <==> 0 < v && Sum(counts) <= v <= TotalGoal(counts)
  {
    if s :| Reachable(counts, s) && s.main == MExited && s.numConsumed == v {
      LeavesWithEnough(counts, s);
    }
    if 0 < v && Sum(counts) <= v <= TotalGoal(counts) {
      var s := LeavesWith(counts, v);
    }
  }

  /** Main polls p times in vain and is where it was. */
  lemma {:induction false} PollsInVainOften(counts: seq<int>, s: State, p: nat) returns (sched: seq<Act>)
    requires Offers(counts, s, 0)
    ensures Exec(System(counts), s, sched) == Some(s) && VainPolls(counts, s, sched) == p
    decreases p
  {
    sched := [];
    if p > 0 {
      hide ControlInv, OwnerInv;
      var next := System(counts);
      var rest := PollsInVainOften(counts, s, p - 1);
      var s1 := s.(main := MDrain, mon := s.mon.(owner := Some(|counts|)));
      var s2 := s1.(main := MUnlock);
      var s3 := s.(main := MTestDone);
      assert next(s, Main) == Some(s1) && next(s1, Main) == Some(s2);
      assert next(s2, Main) == Some(s3) && next(s3, Main) == Some(s);
      OneCheaper(counts, s3, s, Main, rest);
      OneCheaper(counts, s2, s3, Main, [Main] + rest);
      OneCheaper(counts, s1, s2, Main, [Main] + ([Main] + rest));
      OneCheaper(counts, s, s1, Main, [Main] + ([Main] + ([Main] + rest)));
      sched := [Main] + ([Main] + ([Main] + ([Main] + rest)));
    }
  }

  lemma OneCheaper(counts: seq<int>, s: State, t: State, a: Act, rest: seq<Act>)
    requires Next(counts, s, a) == Some(t)
    ensures Exec(System(counts), s, [a] + rest) == Exec(System(counts), t, rest)
    ensures VainPolls(counts, s, [a] + rest) == VainPolls(counts, t, rest) + if PollsInVain(s, a) then 1 else 0
  {
    assert ([a] + rest)[1..] == rest;
  }

  lemma {:induction false} VainPollsConcat(counts: seq<int>, s: State, x: seq<Act>, y: seq<Act>)
    requires Exec(System(counts), s, x).Some?
    ensures VainPolls(counts, s, x + y)
         == VainPolls(counts, s, x) + VainPolls(counts, Exec(System(counts), s, x).value, y)
    decreases |x|
  {
    if x == [] {
      assert x + y == y;
    } else {
      hide Next, PollsInVain;
      assert (x + y)[0] == x[0] && (x + y)[1..] == x[1..] + y;
      assert System(counts)(s, x[0]) == Next(counts, s, x[0]);
      VainPollsConcat(counts, Next(counts, s, x[0]).value, x[1..], y);
    }
  }

  /** Whatever the counts, main may poll in vain any number of times. */
  lemma AnyNumberOfVainPolls(counts: seq<int>, p: nat) returns (sched: seq<Act>)
    ensures Exec(System(counts), Init(counts), sched).Some? && VainPolls(counts, Init(counts), sched) == p
  {
    InitInv(counts);
    var s, x := CreatesAll(counts, Init(counts));
    var y := PollsInVainOften(counts, s, p);
    hide Init, Offers, Inv;
    ExecConcat(System(counts), Init(counts), x, y);
    VainPollsConcat(counts, Init(counts), x, y);
    sched := x + y;
  }

  /** Without a positive count main polls for ever: it never leaves, and nothing can be available. */
  lemma PollsForEver(counts: seq<int>, s: State)
    requires Reachable(counts, s) && forall i | 0 <= i < |counts| :: counts[i] <= 0
    ensures s.avail == 0 && s.main != MExited && Next(counts, s, Main).Some?
  {
    ReachableInv(counts, s);
    UnitsAreConserved(counts, s);
    GoalsOfCounts(counts);
    TotalMadeBound(counts, s.producers);
    if s.main == MExited {
      LeavesWithEnough(counts, s);
    }
    hide TotalMade, TotalGoal, Sum;
    assert forall i | 0 <= i < |counts| :: ProducerFits(counts[i], s.producers[i]);
  }

  // ---------------------------------------------------------------------------------------------
  // The program on its own variables
  // ---------------------------------------------------------------------------------------------

  /** The globals, the locals of main, and one program counter per producer thread. */
  class Process {
    const counts: seq<int>
    var main: MainPc
    var producers: array<ProducerPc>
    var avail: int
    var numConsumed: int
    var totalRequired: int
    var done: bool
    var mon: Monitor

    ghost predicate Valid() reads this { producers.Length == |counts| }

    ghost function View(): (s: State)
      reads this, producers
      ensures Valid() ==> |s.producers| == |counts|
    {
      State(main, producers[..], avail, numConsumed, totalRequired, done, mon)
    }

    constructor (counts: seq<int>)
      ensures Valid() && fresh(producers) && this.counts == counts && View() == Init(counts)
    {
      this.counts := counts;
      main := MAdd(0);
      producers := new ProducerPc[|counts|](_ => TUnborn);
      avail, numConsumed, totalRequired, done, mon := 0, 0, 0, false, IDLE;
      new;
      assert producers[..] == Init(counts).producers;
    }

    method ProducerStep(i: nat) returns (moved: bool)
      requires Valid() && i < |counts|
      modifies this`avail, this`mon, producers
      ensures Valid() && moved == ProducerNext(counts, old(View()), i).Some?
      ensures View() == if moved then ProducerNext(counts, old(View()), i).value else old(View())
    {
      if main == MExited { return false; }
      moved := true;
      match producers[i]
      case TUnborn => moved := false;
      case TTest(j) => producers[i] := if j < counts[i] then TLock(j) else TExited;
      case TLock(j) =>
        if mon.owner == None { mon := mon.(owner := Some(i)); producers[i] := TIncrement(j); } else { moved := false; }
      case TIncrement(j) => avail := avail + 1; producers[i] := TUnlock(j);
      case TUnlock(j) =>
        if mon.owner == Some(i) { mon := mon.(owner := None); producers[i] := TTest(j + 1); } else { moved := false; }
      case TExited => moved := false;
    }

    method MainStep() returns (moved: bool)
      requires Valid()
      modifies this, producers
      ensures Valid() && producers == old(producers) && moved == MainNext(counts, old(View())).Some?
      ensures View() == if moved then MainNext(counts, old(View())).value else old(View())
    {
      moved := true;
      match main
      case MAdd(k) =>
        if k < |counts| { totalRequired, main := totalRequired + counts[k], MCreate(k); } else { main := MLock; }
      case MCreate(k) =>
        if k < |counts| { producers[k] := TTest(0); main := MAdd(k + 1); } else { moved := false; }
      case MLock =>
        if mon.owner == None { mon, main := mon.(owner := Some(|counts|)), MDrain; } else { moved := false; }
      case MDrain => main := if avail > 0 then MConsume else MUnlock;
      case MConsume => numConsumed, main := numConsumed + 1, MTake;
      case MTake => avail, main := avail - 1, MSetDone;
      case MSetDone => done, main := numConsumed >= totalRequired, MDrain;
      case MUnlock =>
        if mon.owner == Some(|counts|) { mon, main := mon.(owner := None), MTestDone; } else { moved := false; }
      case MTestDone => main := if done then MExited else MLock;
      case MExited => moved := false;
    }
  }
}
