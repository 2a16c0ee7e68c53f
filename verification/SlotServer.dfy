/** webprogramming/multi_thread_server.c: main hands each accepted connection to a new detached thread
    through a slot of a fixed table.  The slot's `on` flag, set by main after the thread was created and
    cleared by the thread when it is done, is the only synchronisation. */
module SlotServer {
  import opened Runs

  datatype MainPc =
    | MScan(i: nat)               // the search for a slot that is off
    | MAccept(i: nat)             // accepting a connection into the slot
    | MCreate(i: nat)             // pthread_create
    | MSetOn(i: nat)              // marking the slot
    | MDetach(i: nat)
    | MBusy                       // no slot free: suspended until some signal

  /** A thread with the slot it was given.  It serves until it clears the slot's flag, after which it does
      not look at the slot again.  `cfd` records the connection it was created for. */
  datatype Worker = Worker(slot: nat, cfd: int, serving: bool)

  /** main takes a step, in which accept would return fd; a worker reads its socket; a worker clears its flag. */
  datatype Act = Main(fd: int) | Read(w: nat) | Clear(w: nat)

  /** The last three fields only record history: the slots whose flag main set after the thread had already
      cleared it, the flags when the current scan began, and the threads that cleared one since then. */
  datatype State = State(
    main: MainPc, on: seq<bool>, cfd: seq<int>, workers: seq<Worker>,
    lost: set<nat>, start: seq<bool>, gone: set<nat>)

  function Init(limit: nat): State {
    State(MScan(0), seq(limit, _ => false), seq(limit, _ => 0), [], {}, seq(limit, _ => false), {})
  }

  predicate Shaped(limit: nat, s: State) { |s.on| == |s.cfd| == limit }

  /** The thread that main created last has cleared its flag already. */
  predicate NewestGone(s: State) { |s.workers| > 0 && !s.workers[|s.workers| - 1].serving }

  function MainNext(limit: nat, s: State, fd: int): Option<State>
    requires Shaped(limit, s)
  {
    match s.main
    case MScan(i) => Some(s.(main := if i >= limit then MBusy else if s.on[i] then MScan(i + 1) else MAccept(i)))
    case MAccept(i) => if i < limit then Some(s.(main := MCreate(i), cfd := s.cfd[i := fd])) else None
    case MCreate(i) =>
      if i < limit then Some(s.(main := MSetOn(i), workers := s.workers + [Worker(i, s.cfd[i], true)])) else None
    case MSetOn(i) =>
      if i < limit
      then Some(s.(main := MDetach(i), on := s.on[i := true], lost := if NewestGone(s) then s.lost + {i} else s.lost))
      else None
    case MDetach(_) => Some(NewScan(s))
    case MBusy => Some(NewScan(s))
  }

  function NewScan(s: State): State { s.(main := MScan(0), start := s.on, gone := {}) }

  predicate IsServing(s: State, w: nat) { w < |s.workers| && s.workers[w].serving }

  function Next(limit: nat, s: State, a: Act): Option<State> {
    if !Shaped(limit, s) then None
    else match a
      case Main(fd) => MainNext(limit, s, fd)
      case Read(w) => if IsServing(s, w) then Some(s) else None
      case Clear(w) =>
        if IsServing(s, w) && s.workers[w].slot < limit
        then Some(s.(workers := s.workers[w := s.workers[w].(serving := false)],
                     on := s.on[s.workers[w].slot := false], gone := s.gone + {w}))
        else None
  }

  function System(limit: nat): (State, Act) -> Option<State> {
    (s, a) => Next(limit, s, a)
  }

  ghost predicate Reachable(limit: nat, s: State) { Reaches(System(limit), Init(limit), s) }

  // ---------------------------------------------------------------------------------------------
  // The invariant
  // ---------------------------------------------------------------------------------------------

  predicate Newest(s: State, w: nat) { s.main.MSetOn? && w == |s.workers| - 1 }

  ghost predicate WorkersInv(limit: nat, s: State)
    requires Shaped(limit, s)
  {
    && (forall w: nat | w < |s.workers| :: s.workers[w].slot < limit)
    && (forall w: nat | IsServing(s, w) :: Newest(s, w) || s.on[s.workers[w].slot])
    && (forall w: nat | IsServing(s, w) :: s.cfd[s.workers[w].slot] == s.workers[w].cfd)
  }

  /** No two serving threads share a slot. */
  ghost predicate DistinctInv(s: State) {
    (forall v: nat, w: nat | IsServing(s, v) && IsServing(s, w) && v != w :: s.workers[v].slot != s.workers[w].slot)
  }

  ghost predicate MainInv(limit: nat, s: State)
    requires Shaped(limit, s)
  {
    match s.main
    case MAccept(i) => i < limit && !s.on[i]
    case MCreate(i) => i < limit && !s.on[i]
    case MSetOn(i) => i < limit && !s.on[i] && |s.workers| > 0 && s.workers[|s.workers| - 1].slot == i
    case _ => true
  }

  ghost predicate Served(s: State, i: nat) {
    exists w: nat :: IsServing(s, w) && s.workers[w].slot == i
  }

  ghost predicate LostInv(limit: nat, s: State)
    requires Shaped(limit, s)
  {
    && (forall i | i in s.lost :: i < limit && s.on[i] && !Served(s, i))
    && (forall i: nat | i < limit && s.on[i] && i !in s.lost :: Served(s, i))
  }

  /** From the start of a scan until the thread for the slot it found is created. */
  predicate Searching(m: MainPc) { m.MScan? || m.MAccept? || m.MCreate? || m.MBusy? }

  /** The slots before this one were read by the current scan, and found on. */
  function Passed(limit: nat, m: MainPc): nat {
    match m case MScan(i) => i case MAccept(i) => i case MCreate(i) => i case _ => limit
  }

  /** The slot was given back since the current scan began. */
  predicate LeftSince(s: State, i: nat) {
    exists w :: w in s.gone && w < |s.workers| && s.workers[w].slot == i
  }

  /** A thread that left during a scan cleared a slot that was on when the scan began, and no other thread
      cleared the same one. */
  ghost predicate GoneInv(limit: nat, s: State)
    requires Shaped(limit, s)
  {
    && |s.start| == limit
    && (Searching(s.main) ==>
          && (forall w | w in s.gone :: w < |s.workers| && !s.workers[w].serving && s.workers[w].slot < limit
                && s.start[s.workers[w].slot] && !s.on[s.workers[w].slot])
          && (forall v, w | v in s.gone && w in s.gone && v != w :: s.workers[v].slot != s.workers[w].slot))
  }

  /** Nobody sets a flag during a scan: what is on was on when the scan began, and what is off by now and
      was on then is what some thread cleared. */
  ghost predicate ScanInv(limit: nat, s: State)
    requires Shaped(limit, s)
  {
    && |s.start| == limit
    && (Searching(s.main) ==>
          && (forall i | 0 <= i < limit && s.on[i] :: s.start[i])
          && (forall i: nat | i < limit && s.start[i] && !s.on[i] :: LeftSince(s, i))
          && (forall i | 0 <= i < limit && i < Passed(limit, s.main) :: s.start[i]))
  }

  ghost predicate Inv(limit: nat, s: State) {
    Shaped(limit, s) && WorkersInv(limit, s) && DistinctInv(s) && MainInv(limit, s) && LostInv(limit, s)
    && GoneInv(limit, s) && ScanInv(limit, s)
  }

  lemma MainKeepsWorkersInv(limit: nat, s: State, fd: int)
    requires Shaped(limit, s) && WorkersInv(limit, s) && MainInv(limit, s) && MainNext(limit, s, fd).Some?
    ensures Shaped(limit, MainNext(limit, s, fd).value) && WorkersInv(limit, MainNext(limit, s, fd).value)
  {
  }

  lemma ClearKeepsWorkersInv(limit: nat, s: State, w: nat)
    requires Shaped(limit, s) && WorkersInv(limit, s) && DistinctInv(s) && Next(limit, s, Clear(w)).Some?
    ensures Shaped(limit, Next(limit, s, Clear(w)).value) && WorkersInv(limit, Next(limit, s, Clear(w)).value)
  {
  }

  lemma KeepsWorkersInv(limit: nat, s: State, a: Act)
    requires Shaped(limit, s) && WorkersInv(limit, s) && DistinctInv(s) && MainInv(limit, s) && Next(limit, s, a).Some?
    ensures Shaped(limit, Next(limit, s, a).value) && WorkersInv(limit, Next(limit, s, a).value)
  {
    match a
    case Main(fd) => { hide WorkersInv, DistinctInv, MainInv, MainNext; MainKeepsWorkersInv(limit, s, fd); }
    case Clear(w) => { hide WorkersInv, DistinctInv, MainInv, Next; ClearKeepsWorkersInv(limit, s, w); }
    case Read(_) =>
  }

  lemma KeepsDistinctInv(limit: nat, s: State, a: Act)
    requires Shaped(limit, s) && WorkersInv(limit, s) && DistinctInv(s) && MainInv(limit, s) && Next(limit, s, a).Some?
    ensures DistinctInv(Next(limit, s, a).value)
  {
  }

  lemma KeepsMainInv(limit: nat, s: State, a: Act)
    requires Shaped(limit, s) && WorkersInv(limit, s) && MainInv(limit, s) && Next(limit, s, a).Some?
    ensures Shaped(limit, Next(limit, s, a).value) && MainInv(limit, Next(limit, s, a).value)
  {
  }

  lemma OnSlotsStayAccountedFor(limit: nat, s: State, a: Act, i: nat)
    requires Inv(limit, s) && Next(limit, s, a).Some?
    requires i < limit == |Next(limit, s, a).value.on| && Next(limit, s, a).value.on[i]
    ensures i in Next(limit, s, a).value.lost || Served(Next(limit, s, a).value, i)
  {
    var t := Next(limit, s, a).value;
    if s.on[i] {
      if i !in s.lost {
        var w: nat :| IsServing(s, w) && s.workers[w].slot == i;
        assert IsServing(t, w) && t.workers[w].slot == i;
      }
    } else if !NewestGone(s) {
      var w := |s.workers| - 1;
      assert IsServing(t, w) && t.workers[w].slot == i;
    }
  }

  lemma LostSlotsStayLost(limit: nat, s: State, a: Act, i: nat)
    requires Inv(limit, s) && Next(limit, s, a).Some? && i in Next(limit, s, a).value.lost
    ensures i < limit == |Next(limit, s, a).value.on| && Next(limit, s, a).value.on[i]
    ensures !Served(Next(limit, s, a).value, i)
  {
    var t := Next(limit, s, a).value;
    if w: nat :| IsServing(t, w) && t.workers[w].slot == i {
      assert w < |s.workers| ==> IsServing(s, w);
    }
  }

  lemma KeepsLostInv(limit: nat, s: State, a: Act)
    requires Inv(limit, s) && Next(limit, s, a).Some?
    ensures Shaped(limit, Next(limit, s, a).value) && LostInv(limit, Next(limit, s, a).value)
  {
    hide WorkersInv, DistinctInv, MainInv, Served;
    var t := Next(limit, s, a).value;
    forall i: nat | i < limit && t.on[i] && i !in t.lost ensures Served(t, i) {
      OnSlotsStayAccountedFor(limit, s, a, i);
    }
    forall i | i in t.lost ensures i < limit && t.on[i] && !Served(t, i) {
      LostSlotsStayLost(limit, s, a, i);
    }
  }

  /** A thread that clears a flag finds it on, and so it was on when the scan began. */
  lemma ClearsOn(limit: nat, s: State, w: nat)
    requires Shaped(limit, s) && WorkersInv(limit, s) && ScanInv(limit, s) && Next(limit, s, Clear(w)).Some?
    requires Searching(s.main)
    ensures s.on[s.workers[w].slot] && |s.start| == limit && s.start[s.workers[w].slot]
  {
  }

  lemma MainKeepsGoneInv(limit: nat, s: State, fd: int)
    requires Shaped(limit, s) && GoneInv(limit, s) && MainNext(limit, s, fd).Some?
    ensures Shaped(limit, MainNext(limit, s, fd).value) && GoneInv(limit, MainNext(limit, s, fd).value)
  {
  }

  lemma ClearKeepsGoneInv(limit: nat, s: State, w: nat)
    requires Shaped(limit, s) && WorkersInv(limit, s) && GoneInv(limit, s) && ScanInv(limit, s)
    requires Next(limit, s, Clear(w)).Some?
    ensures Shaped(limit, Next(limit, s, Clear(w)).value) && GoneInv(limit, Next(limit, s, Clear(w)).value)
  {
    if Searching(s.main) {
      ClearsOn(limit, s, w);
    }
    hide WorkersInv, ScanInv;
  }

  lemma KeepsGoneInv(limit: nat, s: State, a: Act)
    requires Shaped(limit, s) && WorkersInv(limit, s) && GoneInv(limit, s) && ScanInv(limit, s)
    requires Next(limit, s, a).Some?
    ensures Shaped(limit, Next(limit, s, a).value) && GoneInv(limit, Next(limit, s, a).value)
  {
    match a
    case Main(fd) => { hide WorkersInv, GoneInv, ScanInv, MainNext; MainKeepsGoneInv(limit, s, fd); }
    case Clear(w) => { hide WorkersInv, GoneInv, ScanInv, Next; ClearKeepsGoneInv(limit, s, w); }
    case Read(_) =>
  }

  lemma MainKeepsScanInv(limit: nat, s: State, fd: int)
    requires Shaped(limit, s) && ScanInv(limit, s) && MainNext(limit, s, fd).Some?
    ensures Shaped(limit, MainNext(limit, s, fd).value) && ScanInv(limit, MainNext(limit, s, fd).value)
  {
    var t := MainNext(limit, s, fd).value;
    assert t.workers == s.workers && t.gone == s.gone ==> forall i: nat | LeftSince(s, i) :: LeftSince(t, i);
  }

  lemma ClearKeepsScanInv(limit: nat, s: State, w: nat)
    requires Shaped(limit, s) && ScanInv(limit, s) && Next(limit, s, Clear(w)).Some?
    ensures Shaped(limit, Next(limit, s, Clear(w)).value) && ScanInv(limit, Next(limit, s, Clear(w)).value)
  {
    var t := Next(limit, s, Clear(w)).value;
    forall i: nat | LeftSince(s, i) || i == s.workers[w].slot ensures LeftSince(t, i) {
      var v :| (v in s.gone || v == w) && v < |s.workers| && s.workers[v].slot == i;
      assert v in t.gone && t.workers[v].slot == i;
    }
  }

  lemma KeepsScanInv(limit: nat, s: State, a: Act)
    requires Shaped(limit, s) && ScanInv(limit, s) && Next(limit, s, a).Some?
    ensures Shaped(limit, Next(limit, s, a).value) && ScanInv(limit, Next(limit, s, a).value)
  {
    match a
    case Main(fd) => { hide ScanInv, MainNext; MainKeepsScanInv(limit, s, fd); }
    case Clear(w) => { hide ScanInv, Next; ClearKeepsScanInv(limit, s, w); }
    case Read(_) =>
  }

  lemma KeepsInv(limit: nat, s: State, a: Act)
    requires Inv(limit, s) && Next(limit, s, a).Some?
    ensures Inv(limit, Next(limit, s, a).value)
  {
    hide WorkersInv, DistinctInv, MainInv, LostInv, GoneInv, ScanInv;
    KeepsGoneInv(limit, s, a);
    KeepsScanInv(limit, s, a);
    KeepsWorkersInv(limit, s, a);
    KeepsDistinctInv(limit, s, a);
    KeepsMainInv(limit, s, a);
    KeepsLostInv(limit, s, a);
  }

  lemma RunKeepsInv(limit: nat, s: State, t: State)
    requires Inv(limit, s) && Reaches(System(limit), s, t)
    ensures Inv(limit, t)
  {
    hide Inv, Next;
    var sched: seq<Act> :| Exec(System(limit), s, sched) == Some(t);
    forall u: State, a: Act | Inv(limit, u) && System(limit)(u, a).Some? ensures Inv(limit, System(limit)(u, a).value) {
      KeepsInv(limit, u, a);
    }
    InvariantHolds(System(limit), u => Inv(limit, u), s, sched);
  }

  lemma ReachableInv(limit: nat, s: State)
    requires Reachable(limit, s)
    ensures Inv(limit, s)
  {
    assert Inv(limit, Init(limit));
    RunKeepsInv(limit, Init(limit), s);
  }

  // ---------------------------------------------------------------------------------------------
  // What holds over every run
  // ---------------------------------------------------------------------------------------------

  /** A slot that the scan finds free has no thread still serving it. */
  lemma FreeSlotIsNotServed(limit: nat, s: State, i: nat)
    requires Reachable(limit, s) && s.main == MScan(i) && i < limit
    ensures i < |s.on| && (!s.on[i] ==> !Served(s, i))
  {
    ReachableInv(limit, s);
  }

  /** The connections handed to threads so far, and the one main is about to hand over. */
  function HandedOver(s: State): seq<int> {
    seq(|s.workers|, i requires 0 <= i < |s.workers| => s.workers[i].cfd)
    + if s.main.MCreate? && s.main.i < |s.cfd| then [s.cfd[s.main.i]] else []
  }

  /** An observer of accept writes down what it returns. */
  function NoteAccepted(seen: seq<int>, s: State, a: Act): seq<int> {
    if a.Main? && s.main.MAccept? then seen + [a.fd] else seen
  }

  lemma StepHandsOver(limit: nat, s: State, a: Act)
    requires Inv(limit, s) && Next(limit, s, a).Some?
    ensures HandedOver(Next(limit, s, a).value) == NoteAccepted(HandedOver(s), s, a)
  {
    hide WorkersInv, DistinctInv, LostInv, GoneInv, ScanInv;
  }

  /** Over every run: the threads serve, in the order of their creation, exactly the connections that accept
      returned, in the order it did. */
  lemma ThreadsServeWhatWasAccepted(limit: nat, sched: seq<Act>)
    requires Exec(System(limit), Init(limit), sched).Some?
    ensures HandedOver(Exec(System(limit), Init(limit), sched).value)
         == Recorded(System(limit), NoteAccepted, [], Init(limit), sched)
  {
    assert Inv(limit, Init(limit)) && HandedOver(Init(limit)) == [];
    hide Inv, Next, HandedOver, NoteAccepted, Init;
    forall s: State, a: Act | Inv(limit, s) && System(limit)(s, a).Some?
      ensures Inv(limit, System(limit)(s, a).value)
      ensures HandedOver(System(limit)(s, a).value) == NoteAccepted(HandedOver(s), s, a)
    {
      KeepsInv(limit, s, a);
      StepHandsOver(limit, s, a);
    }
    IsRecord(System(limit), s => Inv(limit, s), HandedOver, NoteAccepted, Init(limit), sched);
  }

  /** Main is never blocked, and a thread that serves can go on or end at any time; nobody else moves. */
  lemma WhoCanMove(limit: nat, s: State, a: Act)
    requires Reachable(limit, s)
    ensures Next(limit, s, a).Some? <==> a.Main? || IsServing(s, a.w)
  {
    ReachableInv(limit, s);
    hide DistinctInv, LostInv, GoneInv, ScanInv;
  }

  /** Notes of an observer: the slots marked too late; and the flags when the last scan began, with the threads
      that ended since. */
  function NoteLost(lost: set<nat>, s: State, a: Act): set<nat> {
    if MarksTooLate(s, a) then lost + {s.main.i} else lost
  }

  function NoteScan(scan: (seq<bool>, set<nat>), s: State, a: Act): (seq<bool>, set<nat>) {
    match a
    case Main(_) => if s.main.MDetach? || s.main.MBusy? then (s.on, {}) else scan
    case Clear(w) => (scan.0, scan.1 + {w})
    case Read(_) => scan
  }

  function NoteEnded(ended: set<nat>, s: State, a: Act): set<nat> {
    if a.Clear? then ended + {a.w} else ended
  }

  function Ended(s: State): set<nat> { set w: nat | w < |s.workers| && !s.workers[w].serving }

  lemma StepEnds(limit: nat, s: State, a: Act)
    requires Next(limit, s, a).Some?
    ensures Ended(Next(limit, s, a).value) == NoteEnded(Ended(s), s, a)
  {
  }

  /** A thread serves from its creation until it ends itself. */
  lemma ThreadsEndThemselves(limit: nat, sched: seq<Act>)
    requires Exec(System(limit), Init(limit), sched).Some?
    ensures Ended(Exec(System(limit), Init(limit), sched).value)
         == Recorded(System(limit), NoteEnded, {}, Init(limit), sched)
  {
    assert Ended(Init(limit)) == {};
    forall s: State, a: Act | System(limit)(s, a).Some?
      ensures Ended(System(limit)(s, a).value) == NoteEnded(Ended(s), s, a)
    {
      StepEnds(limit, s, a);
    }
    hide Next, Ended, NoteEnded;
    IsRecord(System(limit), (s: State) => true, Ended, NoteEnded, Init(limit), sched);
  }

  /** What the theorems call the lost slots, the start of the scan and the threads gone since is what happened
      in the run. */
  lemma HistoryIsTrue(limit: nat, sched: seq<Act>)
    requires Exec(System(limit), Init(limit), sched).Some?
    ensures var s, t := Init(limit), Exec(System(limit), Init(limit), sched).value;
      && t.lost == Recorded(System(limit), NoteLost, {}, s, sched)
      && (t.start, t.gone) == Recorded(System(limit), NoteScan, (s.on, {}), s, sched)
  {
    var next := System(limit);
    var any := (s: State) => true;
    IsRecord(next, any, (s: State) => s.lost, NoteLost, Init(limit), sched);
    IsRecord(next, any, (s: State) => (s.start, s.gone), NoteScan, Init(limit), sched);
  }

  /** Throughout its service a thread finds in its slot the connection it was created for. */
  lemma WorkerKeepsItsConnection(limit: nat, s: State, w: nat)
    requires Reachable(limit, s) && IsServing(s, w)
    ensures s.workers[w].slot < |s.cfd| && s.cfd[s.workers[w].slot] == s.workers[w].cfd
  {
    ReachableInv(limit, s);
  }

  ghost function Serving(s: State): set<nat> { set w: nat | w < |s.workers| && IsServing(s, w) }

  function OnSlots(s: State): set<nat> { set i: nat | i < |s.on| && s.on[i] }

  ghost function ServedSlots(s: State): set<nat> { set w: nat | w in Serving(s) :: s.workers[w].slot }

  /** The image of an injective map is as large as its domain. */
  lemma {:induction false} ImageSize(s: State, ws: set<nat>)
    requires forall w | w in ws :: w < |s.workers|
    requires forall v, w | v in ws && w in ws && v != w :: s.workers[v].slot != s.workers[w].slot
    ensures |set w: nat | w in ws :: s.workers[w].slot| == |ws|
    decreases |ws|
  {
    var image := set w: nat | w in ws :: s.workers[w].slot;
    if ws != {} {
      var w :| w in ws;
      var rest := set v: nat | v in ws - {w} :: s.workers[v].slot;
      ImageSize(s, ws - {w});
      assert image == rest + {s.workers[w].slot};
    }
  }

  function Below(n: nat): (r: set<nat>)
    ensures |r| == n && forall i: nat :: i in r <==> i < n
  {
    if n == 0 then {} else Below(n - 1) + {n - 1}
  }

  lemma {:induction false} SubsetSize<T>(x: set<T>, y: set<T>)
    requires x <= y
    ensures |x| <= |y|
  {
    assert y == x + (y - x);
  }

  /** At most as many threads serve at the same time as there are slots, and no two of them share one. */
  lemma AtMostLimitServe(limit: nat, s: State)
    requires Reachable(limit, s)
    ensures |Serving(s)| <= limit
    ensures forall v: nat, w: nat | IsServing(s, v) && IsServing(s, w) && v != w ::
      s.workers[v].slot != s.workers[w].slot
  {
    ReachableInv(limit, s);
    ImageSize(s, Serving(s));
    SubsetSize(ServedSlots(s), Below(limit));
  }

  /** Except between creating a thread and marking its slot, so whenever main scans, the slots that are on
      are the served ones and the lost ones, and no others. */
  lemma SlotsAreConserved(limit: nat, s: State)
    requires Reachable(limit, s) && !s.main.MSetOn?
    ensures |OnSlots(s)| == |Serving(s)| + |s.lost|
    ensures forall i: nat | i < |s.on| :: i in s.lost <==> s.on[i] && !Served(s, i)
  {
    ReachableInv(limit, s);
    OnSlotsAreConserved(limit, s);
  }

  lemma OnSlotsAreConserved(limit: nat, s: State)
    requires Inv(limit, s) && !s.main.MSetOn?
    ensures |OnSlots(s)| == |Serving(s)| + |s.lost|
  {
    hide GoneInv, ScanInv;
    ImageSize(s, Serving(s));
    assert OnSlots(s) == ServedSlots(s) + s.lost by {
      forall i: nat | i < limit && s.on[i] && i !in s.lost ensures i in ServedSlots(s) {
        var w: nat :| IsServing(s, w) && s.workers[w].slot == i;
        assert w in Serving(s);
      }
    }
    assert ServedSlots(s) * s.lost == {};
  }

  function StartSlots(s: State): set<nat> { set i: nat | i < |s.start| && s.start[i] }

  /** Over one scan, whatever the threads do meanwhile: the slots that were on when it began are those of the
      threads still serving, of the threads gone since, and the lost ones. */
  lemma StartIsConserved(limit: nat, s: State)
    requires Inv(limit, s) && Searching(s.main)
    ensures |StartSlots(s)| == |Serving(s)| + |s.gone| + |s.lost|
  {
    OnSlotsAreConserved(limit, s);
    LeftSlots(limit, s);
    hide Inv;
    ImageSize(s, s.gone);
    var left := set w: nat | w in s.gone :: s.workers[w].slot;
    assert StartSlots(s) == OnSlots(s) + left;
    assert OnSlots(s) * left == {};
  }

  lemma LeftSlots(limit: nat, s: State)
    requires Inv(limit, s) && Searching(s.main)
    ensures forall w | w in s.gone :: w < |s.workers|
    ensures forall v, w | v in s.gone && w in s.gone && v != w :: s.workers[v].slot != s.workers[w].slot
    ensures StartSlots(s) == OnSlots(s) + set w: nat | w in s.gone :: s.workers[w].slot
    ensures OnSlots(s) !! set w: nat | w in s.gone :: s.workers[w].slot
  {
    hide WorkersInv, DistinctInv, MainInv, LostInv;
    var left := set w: nat | w in s.gone :: s.workers[w].slot;
    forall i: nat | i < limit && s.start[i] && !s.on[i] ensures i in left {
      assert LeftSince(s, i);
    }
  }

  /** The scan takes no lock, so when it finds no slot some may be free by now: exactly those whose threads
      left since it began.  But when it began there was none: every slot was on, with a thread that serves,
      one that has left since, or lost. */
  lemma BusyWasFull(limit: nat, s: State)
    requires Reachable(limit, s) && s.main == MBusy
    ensures |s.start| == |s.on| == limit && forall i | 0 <= i < limit :: s.start[i]
    ensures |Serving(s)| + |s.gone| + |s.lost| == limit
    ensures forall i: nat | i < limit :: !s.on[i] <==> LeftSince(s, i)
  {
    ReachableInv(limit, s);
    StartIsConserved(limit, s);
    assert StartSlots(s) == Below(limit);
    hide WorkersInv, DistinctInv, MainInv, LostInv;
  }

  /** The slot that the scan takes is off and nobody is served through it, and no slot before it was free
      when the scan began, though it may be by now. */
  lemma ChosenSlotWasFirst(limit: nat, s: State, i: nat)
    requires Reachable(limit, s) && s.main == MAccept(i)
    ensures i < limit == |s.on| == |s.start| && !s.on[i] && !Served(s, i)
    ensures forall k: nat | k < i :: s.start[k] && (!s.on[k] <==> LeftSince(s, k))
  {
    ReachableInv(limit, s);
    hide DistinctInv, LostInv;
  }

  /** The slot main is about to mark is marked too late: its thread has come and gone. */
  predicate MarksTooLate(s: State, a: Act) { a.Main? && s.main.MSetOn? && NewestGone(s) }

  /** No action gives a lost slot back, and the one that loses a slot is exactly main's store to `on`
      after the thread's. */
  lemma LostSlotsGrow(limit: nat, s: State, a: Act)
    requires Reachable(limit, s) && Next(limit, s, a).Some?
    ensures s.lost <= Next(limit, s, a).value.lost
    ensures |Next(limit, s, a).value.lost| == |s.lost| + if MarksTooLate(s, a) then 1 else 0
  {
    ReachableInv(limit, s);
  }

  /** A lost slot stays on for ever, and nobody is ever served through it again. */
  lemma LostForEver(limit: nat, s: State, t: State, i: nat)
    requires Reachable(limit, s) && Reaches(System(limit), s, t) && i in s.lost
    ensures i in t.lost && i < |t.on| && t.on[i] && !Served(t, i)
  {
    ReachableInv(limit, s);
    var sched: seq<Act> :| Exec(System(limit), s, sched) == Some(t);
    forall u: State, a: Act | Inv(limit, u) && i in u.lost && System(limit)(u, a).Some?
      ensures Inv(limit, System(limit)(u, a).value) && i in System(limit)(u, a).value.lost
    {
      KeepsInv(limit, u, a);
    }
    InvariantHolds(System(limit), u => Inv(limit, u) && i in u.lost, s, sched);
  }

  /** The scan over slots that are on. */
  lemma {:induction false} ScanPast(limit: nat, s: State, i: nat, k: nat)
    requires Shaped(limit, s) && s.main == MScan(i) && i <= k <= limit && forall j | i <= j < k :: s.on[j]
    ensures Reaches(System(limit), s, s.(main := MScan(k)))
    decreases k - i
  {
    if i == k {
      ReachesSelf(System(limit), s);
    } else {
      var t := s.(main := MScan(i + 1));
      ReachesStep(System(limit), s, Main(0), t);
      ScanPast(limit, t, i + 1, k);
      ReachesTrans(System(limit), s, t, t.(main := MScan(k)));
    }
  }

  /** The first k slots are lost, the others are free, and nobody is served. */
  ghost predicate LostBelow(limit: nat, s: State, k: nat) {
    && Shaped(limit, s) && s.main == MScan(0) && s.lost == Below(k) && k <= limit
    && forall i | 0 <= i < limit :: s.on[i] <==> i < k
  }

  /** One more slot is lost when its thread is done before main marks it. */
  lemma LoseOne(limit: nat, s: State, k: nat) returns (t: State)
    requires LostBelow(limit, s, k) && k < limit
    ensures Reaches(System(limit), s, t) && LostBelow(limit, t, k + 1)
  {
    var next, w := System(limit), |s.workers|;
    var s1 := s.(main := MScan(k));
    var s2 := s.(main := MAccept(k));
    var s3 := s.(main := MCreate(k), cfd := s.cfd[k := 5]);
    var s4 := s3.(main := MSetOn(k), workers := s.workers + [Worker(k, 5, true)]);
    var s5 := s4.(workers := s.workers + [Worker(k, 5, false)], on := s.on[k := false], gone := s.gone + {w});
    var s6 := s5.(main := MDetach(k), on := s5.on[k := true], lost := s.lost + {k});
    t := NewScan(s6);
    ScanPast(limit, s, 0, k);
    ReachesThen(next, s, s1, Main(5), s2);
    ReachesThen(next, s, s2, Main(5), s3);
    ReachesThen(next, s, s3, Main(5), s4);
    assert s4.workers[w := s4.workers[w].(serving := false)] == s5.workers;
    ReachesThen(next, s, s4, Clear(w), s5);
    ReachesThen(next, s, s5, Main(5), s6);
    ReachesThen(next, s, s6, Main(5), t);
    assert Below(k + 1) == Below(k) + {k};
  }

  /** Any number of slots can be lost, the whole table included. */
  lemma {:induction false} SlotsCanBeLost(limit: nat, k: nat) returns (s: State)
    requires k <= limit
    ensures Reachable(limit, s) && LostBelow(limit, s, k) && |s.lost| == k
  {
    if k == 0 {
      s := Init(limit);
      ReachesSelf(System(limit), s);
    } else {
      var r := SlotsCanBeLost(limit, k - 1);
      s := LoseOne(limit, r, k - 1);
      ReachesTrans(System(limit), Init(limit), r, s);
    }
  }

  /** Thread i serves through slot i for every i from `from` to below m; all flags from m on are off. */
  ghost predicate Serves(limit: nat, s: State, from: nat, m: nat) {
    && Shaped(limit, s) && |s.workers| == m <= limit
    && (forall i: nat | i < m :: s.workers[i].slot == i && (s.workers[i].serving <==> from <= i))
    && (forall i | 0 <= i < limit :: s.on[i] <==> from <= i < m)
  }

  /** One more thread, which stays. */
  lemma ServeOne(limit: nat, s: State, m: nat) returns (t: State)
    requires Serves(limit, s, 0, m) && m < limit && s.main == MScan(0)
    ensures Reaches(System(limit), s, t) && Serves(limit, t, 0, m + 1) && t.main == MScan(0)
  {
    var next := System(limit);
    var s1 := s.(main := MScan(m));
    var s2 := s.(main := MAccept(m));
    var s3 := s.(main := MCreate(m), cfd := s.cfd[m := 5]);
    var s4 := s3.(main := MSetOn(m), workers := s.workers + [Worker(m, 5, true)]);
    var s5 := s4.(main := MDetach(m), on := s.on[m := true]);
    t := NewScan(s5);
    ScanPast(limit, s, 0, m);
    ReachesThen(next, s, s1, Main(5), s2);
    ReachesThen(next, s, s2, Main(5), s3);
    ReachesThen(next, s, s3, Main(5), s4);
    ReachesThen(next, s, s4, Main(5), s5);
    ReachesThen(next, s, s5, Main(5), t);
  }

  lemma {:induction false} ServeMany(limit: nat, m: nat) returns (s: State)
    requires m <= limit
    ensures Reachable(limit, s) && Serves(limit, s, 0, m) && s.main == MScan(0)
  {
    if m == 0 {
      s := Init(limit);
      ReachesSelf(System(limit), s);
    } else {
      var r := ServeMany(limit, m - 1);
      s := ServeOne(limit, r, m - 1);
      ReachesTrans(System(limit), Init(limit), r, s);
    }
  }

  /** The first k threads leave, wherever main is. */
  lemma {:induction false} FirstLeave(limit: nat, s: State, k: nat) returns (t: State)
    requires Serves(limit, s, 0, limit) && k <= limit
    ensures Reaches(System(limit), s, t) && Serves(limit, t, k, limit) && t.main == s.main
  {
    if k == 0 {
      t := s;
      ReachesSelf(System(limit), s);
    } else {
      var u := FirstLeave(limit, s, k - 1);
      t := u.(workers := u.workers[k - 1 := u.workers[k - 1].(serving := false)],
              on := u.on[u.workers[k - 1].slot := false], gone := u.gone + {k - 1});
      ReachesThen(System(limit), s, u, Clear(k - 1), t);
    }
  }

  /** Main can find the server busy with any number of slots free, the whole table included: their threads
      left behind the scan. */
  lemma BusyWithFreeSlots(limit: nat, k: nat) returns (s: State)
    requires k <= limit
    ensures Reachable(limit, s) && s.main == MBusy && |s.on| == limit && |OnSlots(s)| == limit - k
  {
    var s1 := ServeMany(limit, limit);
    var s2 := s1.(main := MScan(limit));
    ScanPast(limit, s1, 0, limit);
    ReachesTrans(System(limit), Init(limit), s1, s2);
    var s3 := FirstLeave(limit, s2, k);
    ReachesTrans(System(limit), Init(limit), s2, s3);
    s := s3.(main := MBusy);
    ReachesThen(System(limit), Init(limit), s3, Main(0), s);
    assert OnSlots(s) == Below(limit) - Below(k);
    assert Below(k) <= Below(limit);
  }

  // ---------------------------------------------------------------------------------------------
  // Whether the server can ever accept again
  // ---------------------------------------------------------------------------------------------

  /** The lost slots and the one that is about to be. */
  function Doomed(s: State): set<nat> {
    if s.main.MSetOn? && NewestGone(s) then s.lost + {s.main.i} else s.lost
  }

  lemma DoomedGrows(limit: nat, s: State, a: Act)
    requires Inv(limit, s) && Next(limit, s, a).Some?
    ensures Doomed(s) <= Doomed(Next(limit, s, a).value)
    ensures a.Main? ==> Doomed(s) == Doomed(Next(limit, s, a).value)
  {
    hide DistinctInv, LostInv, GoneInv, ScanInv;
  }

  lemma DoomedIsBelow(limit: nat, s: State)
    requires Inv(limit, s)
    ensures Doomed(s) <= Below(limit)
    ensures |Doomed(s)| == limit ==> Doomed(s) == Below(limit)
  {
    hide WorkersInv, DistinctInv, GoneInv, ScanInv;
    SubsetSize(Doomed(s), Below(limit));
    if i :| i in Below(limit) && i !in Doomed(s) {
      SubsetSize(Doomed(s), Below(limit) - {i});
    }
  }

  /** Main goes on alone until it accepts or starts a scan. */
  lemma {:induction false} MainComesRound(limit: nat, s: State) returns (t: State)
    requires Inv(limit, s)
    ensures Reaches(System(limit), s, t) && Inv(limit, t) && Doomed(t) == Doomed(s)
    ensures t.main == MScan(0) || t.main.MAccept?
    decreases match s.main
              case MScan(i) => if i == 0 then 0 else if i < limit then limit - i + 2 else 2
              case MCreate(_) => 3 case MSetOn(_) => 2 case _ => 1
  {
    if s.main == MScan(0) || s.main.MAccept? {
      t := s;
      ReachesSelf(System(limit), s);
    } else {
      assert MainNext(limit, s, 0).Some?;
      var u := MainNext(limit, s, 0).value;
      assert Next(limit, s, Main(0)) == Some(u);
      KeepsInv(limit, s, Main(0));
      DoomedGrows(limit, s, Main(0));
      t := MainComesRound(limit, u);
      ReachesStep(System(limit), s, Main(0), u);
      ReachesTrans(System(limit), s, u, t);
    }
  }

  lemma OneLeaves(limit: nat, s: State, w: nat) returns (t: State)
    requires Inv(limit, s) && w in Serving(s)
    ensures Next(limit, s, Clear(w)) == Some(t) && Inv(limit, t) && Serving(t) == Serving(s) - {w}
    ensures t.main == s.main && t.lost == s.lost
  {
    t := s.(workers := s.workers[w := s.workers[w].(serving := false)],
            on := s.on[s.workers[w].slot := false], gone := s.gone + {w});
    KeepsInv(limit, s, Clear(w));
  }

  /** All threads end while main is at its scan. */
  lemma {:induction false} AllLeave(limit: nat, s: State) returns (t: State)
    requires Inv(limit, s) && s.main == MScan(0)
    ensures Reaches(System(limit), s, t) && Inv(limit, t) && t.main == MScan(0) && t.lost == s.lost && Serving(t) == {}
    decreases |Serving(s)|
  {
    if w :| w in Serving(s) {
      var u := OneLeaves(limit, s, w);
      hide Inv, Next, Serving;
      t := AllLeave(limit, u);
      ReachesStep(System(limit), s, Clear(w), u);
      ReachesTrans(System(limit), s, u, t);
    } else {
      t := s;
      ReachesSelf(System(limit), s);
    }
  }

  /** As long as some slot is not lost, the threads may end and the scan find it. */
  lemma AcceptsAgain(limit: nat, s: State) returns (t: State)
    requires Inv(limit, s) && |Doomed(s)| < limit
    ensures Reaches(System(limit), s, t) && t.main.MAccept?
  {
    t := MainComesRound(limit, s);
    if t.main == MScan(0) {
      var u := AllLeave(limit, t);
      ReachesTrans(System(limit), s, t, u);
      OnSlotsAreConserved(limit, u);
      var k := FirstOff(limit, u.on);
      assert k == limit ==> OnSlots(u) == Below(limit);
      hide Inv;
      ScanPast(limit, u, 0, k);
      ReachesTrans(System(limit), s, u, u.(main := MScan(k)));
      t := u.(main := MAccept(k));
      ReachesThen(System(limit), s, u.(main := MScan(k)), Main(0), t);
    }
  }

  lemma FirstOff(limit: nat, on: seq<bool>) returns (k: nat)
    requires |on| == limit
    ensures k <= limit && (forall i | 0 <= i < k :: on[i]) && (k < limit ==> !on[k])
  {
    k := 0;
    while k < limit && on[k]
      invariant k <= limit && forall i | 0 <= i < k :: on[i]
    {
      k := k + 1;
    }
  }

  lemma DoomedForEver(limit: nat, s: State, t: State)
    requires Inv(limit, s) && |Doomed(s)| == limit && Reaches(System(limit), s, t)
    ensures Inv(limit, t) && |Doomed(t)| == limit
  {
    hide Inv, Next, Doomed;
    var sched: seq<Act> :| Exec(System(limit), s, sched) == Some(t);
    forall u: State, a: Act | Inv(limit, u) && |Doomed(u)| == limit && System(limit)(u, a).Some?
      ensures Inv(limit, System(limit)(u, a).value) && |Doomed(System(limit)(u, a).value)| == limit
    {
      var v := System(limit)(u, a).value;
      KeepsInv(limit, u, a);
      DoomedGrows(limit, u, a);
      DoomedIsBelow(limit, v);
      SubsetSize(Doomed(u), Doomed(v));
      SubsetSize(Doomed(v), Below(limit));
    }
    InvariantHolds(System(limit), u => Inv(limit, u) && |Doomed(u)| == limit, s, sched);
  }

  /** From any point of any run the server can come to accept a connection again if and only if some slot
      is neither lost nor about to be.  So a server that has lost all its slots is suspended for ever. */
  lemma CanAcceptAgainIff(limit: nat, s: State)
    requires Reachable(limit, s)
    ensures (exists t :: Reaches(System(limit), s, t) && t.main.MAccept?) <==> |Doomed(s)| < limit
  {
    ReachableInv(limit, s);
    DoomedIsBelow(limit, s);
    SubsetSize(Doomed(s), Below(limit));
    if |Doomed(s)| < limit {
      var t := AcceptsAgain(limit, s);
    } else if t :| Reaches(System(limit), s, t) && t.main.MAccept? {
      DoomedForEver(limit, s, t);
      DoomedIsBelow(limit, t);
      assert false;
    }
  }

  lemma ScanStep(limit: nat, s: State, t: State)
    requires Inv(limit, t) && t.main.MScan? && Reaches(System(limit), s, t)
    ensures Shaped(limit, t) && MainNext(limit, t, 0).Some?
    ensures Inv(limit, MainNext(limit, t, 0).value) && Reaches(System(limit), s, MainNext(limit, t, 0).value)
  {
    KeepsInv(limit, t, Main(0));
    ReachesThen(System(limit), s, t, Main(0), MainNext(limit, t, 0).value);
  }

  lemma FullTable(limit: nat, s: State)
    requires Inv(limit, s) && s.main.MScan? && forall i | 0 <= i < limit && i < |s.on| :: s.on[i]
    ensures |Serving(s)| + |s.lost| == limit
  {
    OnSlotsAreConserved(limit, s);
    assert OnSlots(s) == Below(limit);
  }

  lemma OffIsUnserved(limit: nat, s: State, i: nat)
    requires Inv(limit, s) && s.main.MScan? && i < |s.on| && !s.on[i]
    ensures !Served(s, i) && !Served(s.(main := MAccept(i)), i)
  {
  }

  // ---------------------------------------------------------------------------------------------
  // The program on its own variables
  // ---------------------------------------------------------------------------------------------

  /** The table `socks` as two arrays, the program counter of main, and the threads created so far. */
  class Process {
    const limit: nat
    var main: MainPc
    var on: array<bool>
    var cfd: array<int>
    var workers: seq<Worker>
    ghost var lost: set<nat>
    ghost var start: seq<bool>
    ghost var gone: set<nat>

    ghost predicate Valid() reads this { on.Length == limit && cfd.Length == limit }

    ghost function View(): (s: State)
      reads this, on, cfd
      ensures Valid() ==> Shaped(limit, s)
    {
      State(main, on[..], cfd[..], workers, lost, start, gone)
    }

    constructor (limit: nat)
      ensures Valid() && fresh(on) && fresh(cfd) && this.limit == limit && View() == Init(limit)
    {
      this.limit := limit;
      main := MScan(0);
      on := new bool[limit](_ => false);
      cfd := new int[limit](_ => 0);
      workers, lost, start, gone := [], {}, seq(limit, _ => false), {};
      new;
      assert on[..] == Init(limit).on && cfd[..] == Init(limit).cfd;
    }

    method MainStep(fd: int) returns (moved: bool)
      requires Valid()
      modifies this, on, cfd
      ensures Valid() && on == old(on) && cfd == old(cfd) && moved == MainNext(limit, old(View()), fd).Some?
      ensures View() == if moved then MainNext(limit, old(View()), fd).value else old(View())
    {
      moved := true;
      match main
      case MScan(i) =>
        if i >= limit { main := MBusy; } else if on[i] { main := MScan(i + 1); } else { main := MAccept(i); }
      case MAccept(i) =>
        if i < limit { cfd[i] := fd; main := MCreate(i); } else { moved := false; }
      case MCreate(i) =>
        if i < limit { workers, main := workers + [Worker(i, cfd[i], true)], MSetOn(i); } else { moved := false; }
      case MSetOn(i) =>
        if i < limit {
          lost := if NewestGone(View()) then lost + {i} else lost;
          on[i] := true;
          main := MDetach(i);
        } else { moved := false; }
      case MDetach(_) => main, start, gone := MScan(0), on[..], {};
      case MBusy => main, start, gone := MScan(0), on[..], {};
    }

    /** The end of a worker's service, on the paths of a read error, a disconnection and a stop request. */
    method ClearStep(w: nat) returns (moved: bool)
      requires Valid()
      modifies this`workers, this`gone, on
      ensures Valid() && moved == Next(limit, old(View()), Clear(w)).Some?
      ensures View() == if moved then Next(limit, old(View()), Clear(w)).value else old(View())
    {
      moved := w < |workers| && workers[w].serving && workers[w].slot < limit;
      if moved {
        on[workers[w].slot] := false;
        workers := workers[w := workers[w].(serving := false)];
        gone := gone + {w};
      }
    }

    /** Any of these threads that still serve end, one after the other. */
    method Leave(ws: seq<nat>)
      requires Valid() && Inv(limit, View()) && Searching(main)
      modifies this`workers, this`gone, on
      ensures Valid() && Inv(limit, View()) && Reaches(System(limit), old(View()), View())
      ensures forall k | 0 <= k < limit && on[k] :: old(on[k])
    {
      ReachesSelf(System(limit), View());
      hide Inv, Reaches;
      for k := 0 to |ws|
        invariant Valid() && Inv(limit, View()) && Reaches(System(limit), old(View()), View())
        invariant forall j | 0 <= j < limit && on[j] :: old(on[j])
      {
        ghost var before := View();
        var moved := ClearStep(ws[k]);
        if moved {
          KeepsInv(limit, before, Clear(ws[k]));
          ReachesThen(System(limit), old(View()), before, Clear(ws[k]), View());
        }
      }
    }

    /** The scan as the loop that main runs while threads end: leaving[k] are those that do so just before
        slot k is read (what else they do changes nothing here).  The slot found is off and nobody is served
        through it; the slots before it were on when the scan began.  When none is found, serving threads and
        lost slots made up the table then. */
    method FindSlot(leaving: seq<seq<nat>>) returns (i: nat)
      requires Valid() && Inv(limit, View()) && main == MScan(0) && |leaving| == limit + 1
      modifies this`main, this`workers, this`gone, on
      ensures Valid() && Reaches(System(limit), old(View()), View())
      ensures i <= limit && main == if i < limit then MAccept(i) else MBusy
      ensures forall k | 0 <= k < i :: old(on[k])
      ensures i < limit ==> !on[i] && !Served(View(), i)
      ensures i == limit ==> |Serving(old(View()))| + |old(lost)| == limit
    {
      hide Inv, Next, Served, Serving, Reaches, NewestGone;
      ghost var before := View();
      i := 0;
      Leave(leaving[0]);
      while i < limit && on[i]
        invariant i <= limit && main == MScan(i) && Valid() && Inv(limit, View())
        invariant Reaches(System(limit), before, View())
        invariant forall k | 0 <= k < limit && on[k] :: old(on[k])
        invariant forall k | 0 <= k < i :: old(on[k])
      {
        ghost var s := View();
        i := i + 1;
        main := MScan(i);
        ScanStep(limit, before, s);
        s := View();
        Leave(leaving[i]);
        ReachesTrans(System(limit), before, s, View());
      }
      ghost var s := View();
      main := if i < limit then MAccept(i) else MBusy;
      ScanStep(limit, before, s);
      if i == limit {
        FullTable(limit, before);
      } else {
        OffIsUnserved(limit, s, i);
      }
    }
  }
}
