/** myEpollReactor.c: a table of event slots, each with a descriptor, an event mask, a status flag and a
    callback, kept in step with the kernel's interest set while batches of ready entries are dispatched. */
module Reactor {
  import opened Runs

  /** event->events: zero, EPOLLIN or EPOLLOUT. */
  datatype Mask = Zero | In | Out

  datatype Callback = Null | OnAccept | OnRecv | OnSend

  /** struct Event; `arg` is left out, since it only ever points back to the slot and is never read. */
  datatype Slot = Slot(fd: int, events: Mask, status: bool, callback: Callback)

  /** What the kernel keeps for a registered descriptor: the mask and data.ptr. */
  datatype Registration = Registration(mask: Mask, slot: nat)

  datatype Op = Add | Mod | Del

  /** Where the process exited, if it did. */
  datatype Exit = Running | WaitFailed | AcceptFailed | AddFailed | DeleteFailed | NullCalled

  datatype Io = Received | Sent

  datatype Fate = Registered(slot: nat) | Closed | Dropped

  /** History of one accepted connection: what became of it, and its successful transfers in order. */
  datatype Conn = Conn(fd: int, fate: Fate, log: seq<Io>)

  /** The slot table, whose last slot is the listener's; the interest set and the open descriptors of the
      kernel; and history: every connection so far, and which of them each slot was last used for. */
  datatype State = State(
    slots: seq<Slot>, interest: map<int, Registration>, open: set<int>, exit: Exit,
    conns: seq<Conn>, owner: seq<nat>)

  /** MAXEVENT, the listening descriptor, and the descriptors that have nothing to do with the reactor. */
  datatype Config = Config(max: nat, lfd: int, others: set<int>)

  /** A ready entry: the descriptor the kernel reports, its data.ptr, and whether the events hold EPOLLIN
      and EPOLLOUT; errors and hang-ups set neither. */
  datatype Entry = Entry(fd: int, slot: nat, readyIn: bool, readyOut: bool)

  /** What the calls of one callback return: the length of a transfer, and the descriptor from accept. */
  datatype Answer = Answer(len: int, fd: int)

  const EMPTY := Slot(0, Zero, false, Null)

  predicate Shaped(c: Config, s: State) { |s.slots| == c.max + 1 && |s.owner| == c.max + 1 }

  /** After the listener was added to the interest set. */
  function Init(c: Config): State {
    State(seq(c.max, _ => EMPTY) + [Slot(c.lfd, In, true, OnAccept)],
          map[c.lfd := Registration(In, c.max)], c.others + {c.lfd}, Running, [], seq(c.max + 1, _ => 0))
  }

  /** epoll_ctl: None is an error.  MOD fails for a NULL event. */
  function Control(interest: map<int, Registration>, op: Op, fd: int, event: Option<Registration>)
    : Option<map<int, Registration>>
  {
    match op
    case Add => if fd !in interest && event.Some? then Some(interest[fd := event.value]) else None
    case Mod => if fd in interest && event.Some? then Some(interest[fd := event.value]) else None
    case Del => if fd in interest then Some(interest - {fd}) else None
  }

  function Added(s: State, i: nat): State
    requires i < |s.slots|
  {
    var e := s.slots[i];
    var op := if e.status then Mod else Add;
    var s1 := s.(slots := s.slots[i := e.(status := true)]);
    match Control(s.interest, op, e.fd, Some(Registration(e.events, i)))
    case None => s1.(exit := AddFailed)
    case Some(m) => s1.(interest := m)
  }

  function Deleted(s: State, i: nat): State
    requires i < |s.slots|
  {
    var e := s.slots[i];
    var op := if e.status then Del else Mod;
    var s1 := s.(slots := s.slots[i := e.(status := false)]);
    match Control(s.interest, op, e.fd, None)
    case None => s1.(exit := DeleteFailed)
    case Some(m) => s1.(interest := m)
  }

  /** Closing a descriptor also takes it out of the interest set. */
  function Close(s: State, fd: int): State {
    s.(open := s.open - {fd}, interest := s.interest - {fd})
  }

  function Log(s: State, i: nat, io: Io): State
    requires i < |s.owner|
  {
    var k := s.owner[i];
    if k < |s.conns| then s.(conns := s.conns[k := s.conns[k].(log := s.conns[k].log + [io])]) else s
  }

  function MarkClosed(s: State, i: nat): State
    requires i < |s.owner|
  {
    var k := s.owner[i];
    if k < |s.conns| then s.(conns := s.conns[k := s.conns[k].(fate := Closed)]) else s
  }

  function Recv(s: State, i: nat, len: int): State
    requires i < |s.slots| == |s.owner|
  {
    var s1 := Deleted(s, i);
    if s1.exit != Running then s1
    else if len > 0 then
      Added(Log(s1.(slots := s1.slots[i := s1.slots[i].(callback := OnSend, events := Out)]), i, Received), i)
    else MarkClosed(Close(s1, s1.slots[i].fd), i)
  }

  function Send(s: State, i: nat, len: int): State
    requires i < |s.slots| == |s.owner|
  {
    var s1 := Deleted(s, i);
    if s1.exit != Running then s1
    else if len > 0 then
      Added(Log(s1.(slots := s1.slots[i := s1.slots[i].(callback := OnRecv, events := In)]), i, Sent), i)
    else
      var s2 := Deleted(s1, i);
      if s2.exit != Running then s2
      else MarkClosed(Close(s2, s2.slots[i].fd), i)
  }

  /** The first slot from i on with status 0, or max. */
  function FirstFree(slots: seq<Slot>, i: nat, max: nat): (r: nat)
    requires i <= max <= |slots|
    ensures i <= r <= max
    ensures forall k | i <= k < r :: slots[k].status
    ensures r < max ==> !slots[r].status
    decreases max - i
  {
    if i == max || !slots[i].status then i else FirstFree(slots, i + 1, max)
  }

  function Accept(c: Config, s: State, fd: int): State
    requires Shaped(c, s)
  {
    if fd < 0 then s.(exit := AcceptFailed)
    else
      var k := FirstFree(s.slots, 0, c.max);
      var s1 := s.(open := s.open + {fd});
      if k == c.max then s1.(conns := s1.conns + [Conn(fd, Dropped, [])])
      else
        var s2 := Added(s1.(slots := s1.slots[k := s1.slots[k].(fd := fd, events := In, status := false)]), k);
        if s2.exit != Running then s2
        else s2.(slots := s2.slots[k := s2.slots[k].(callback := OnRecv)],
                 conns := s2.conns + [Conn(fd, Registered(k), [])], owner := s2.owner[k := |s2.conns|])
  }

  function Call(c: Config, s: State, i: nat, a: Answer): (r: State)
    requires Shaped(c, s) && i <= c.max
    ensures Shaped(c, r)
  {
    match s.slots[i].callback
    case Null => s.(exit := NullCalled)
    case OnAccept => Accept(c, s, a.fd)
    case OnRecv => Recv(s, i, a.len)
    case OnSend => Send(s, i, a.len)
  }

  predicate CallsFirst(s: State, e: Entry) {
    e.slot < |s.slots| && s.slots[e.slot].events == In && e.readyIn
  }

  predicate CallsSecond(s: State, e: Entry) {
    e.slot < |s.slots| && s.slots[e.slot].events == Out && e.readyOut
  }

  /** The first test of the loop body. */
  function HandleIn(c: Config, s: State, e: Entry, a: Answer): (r: State)
    requires Shaped(c, s) && e.slot <= c.max
    ensures Shaped(c, r)
  {
    if CallsFirst(s, e) then Call(c, s, e.slot, a) else s
  }

  /** The body of the dispatch loop.  event->events is read again for the second test; b is what the calls
      of a second callback would return. */
  function Handle(c: Config, s: State, e: Entry, a: Answer, b: Answer): (r: State)
    requires Shaped(c, s) && e.slot <= c.max
    ensures Shaped(c, r)
  {
    var s1 := HandleIn(c, s, e, a);
    if s1.exit == Running && CallsSecond(s1, e) then Call(c, s1, e.slot, b) else s1
  }

  // ---------------------------------------------------------------------------------------------
  // The invariant of a live process
  // ---------------------------------------------------------------------------------------------

  predicate Client(x: Slot) {
    (x.events == In && x.callback == OnRecv) || (x.events == Out && x.callback == OnSend)
  }

  /** The table and the interest set say the same. */
  ghost predicate TableInv(c: Config, s: State) {
    && Shaped(c, s)
    && s.slots[c.max] == Slot(c.lfd, In, true, OnAccept)
    && (forall i | 0 <= i < c.max && s.slots[i].status :: Client(s.slots[i]))
    && (forall i: nat | i <= c.max && s.slots[i].status ::
          s.slots[i].fd in s.interest && s.interest[s.slots[i].fd] == Registration(s.slots[i].events, i))
    && (forall fd | fd in s.interest ::
          s.interest[fd].slot <= c.max && s.slots[s.interest[fd].slot].status && s.slots[s.interest[fd].slot].fd == fd)
    && s.interest.Keys <= s.open
  }

  predicate Alternates(log: seq<Io>) {
    forall k | 0 <= k < |log| :: log[k] == if k % 2 == 0 then Received else Sent
  }

  /** Slots in use and registered connections correspond, and the callback is the connection's next transfer. */
  ghost predicate ConnInv(c: Config, s: State)
    requires Shaped(c, s)
  {
    && (forall i: nat | i < c.max && s.slots[i].status ::
          && s.owner[i] < |s.conns|
          && s.conns[s.owner[i]].fate == Registered(i) && s.conns[s.owner[i]].fd == s.slots[i].fd
          && (s.slots[i].callback == OnRecv <==> |s.conns[s.owner[i]].log| % 2 == 0))
    && (forall k: nat | k < |s.conns| && s.conns[k].fate.Registered? ::
          s.conns[k].fate.slot < c.max && s.slots[s.conns[k].fate.slot].status && s.owner[s.conns[k].fate.slot] == k)
    && (forall k | 0 <= k < |s.conns| :: Alternates(s.conns[k].log))
  }

  predicate Live(x: Conn) { x.fate != Closed }

  /** The open descriptors are the listener, the unrelated ones, and one for each connection not closed. */
  ghost predicate Carried(s: State, fd: int) {
    exists k :: 0 <= k < |s.conns| && Live(s.conns[k]) && s.conns[k].fd == fd
  }

  ghost predicate FdInv(c: Config, s: State) {
    && (forall k | 0 <= k < |s.conns| && Live(s.conns[k]) ::
          s.conns[k].fd in s.open && s.conns[k].fd != c.lfd && s.conns[k].fd !in c.others)
    && (forall j, k | 0 <= j < k < |s.conns| && Live(s.conns[j]) && Live(s.conns[k]) :: s.conns[j].fd != s.conns[k].fd)
    && (forall fd | fd in s.open ::
          fd == c.lfd || fd in c.others || Carried(s, fd))
    && c.lfd in s.open && c.others <= s.open
  }

  ghost predicate Inv(c: Config, s: State) {
    TableInv(c, s) && ConnInv(c, s) && FdInv(c, s)
  }

  /** accept never returns a descriptor that is open. */
  predicate AnswerOk(s: State, a: Answer) { a.fd >= 0 ==> a.fd !in s.open }

  // ---------------------------------------------------------------------------------------------
  // What the callbacks do
  // ---------------------------------------------------------------------------------------------

  predicate InUse(c: Config, s: State, i: nat) {
    Shaped(c, s) && i < c.max && s.slots[i].status
  }

  /** The state after a successful transfer on slot i. */
  function Turned(s: State, i: nat, x: Slot, io: Io): State
    requires i < |s.slots| == |s.owner|
  {
    Log(s.(slots := s.slots[i := x], interest := s.interest[x.fd := Registration(x.events, i)]), i, io)
  }

  /** The state after slot i was given up and its descriptor closed. */
  function Freed(s: State, i: nat): State
    requires i < |s.slots| == |s.owner|
  {
    var fd := s.slots[i].fd;
    MarkClosed(s.(slots := s.slots[i := s.slots[i].(status := false)], interest := s.interest - {fd},
                  open := s.open - {fd}), i)
  }

  lemma ReAdd(m: map<int, Registration>, fd: int, r: Registration)
    ensures (m - {fd})[fd := r] == m[fd := r]
  {
  }

  lemma RecvEffect(c: Config, s: State, i: nat, len: int)
    requires Inv(c, s) && InUse(c, s, i) && s.exit == Running
    ensures len > 0 ==> Recv(s, i, len) == Turned(s, i, Slot(s.slots[i].fd, Out, true, OnSend), Received)
    ensures len <= 0 ==> Recv(s, i, len) == Freed(s, i)
  {
    hide ConnInv, FdInv;
    var fd := s.slots[i].fd;
    ReAdd(s.interest, fd, Registration(Out, i));
    assert s.interest - {fd} - {fd} == s.interest - {fd};
  }

  lemma SendEffect(c: Config, s: State, i: nat, len: int)
    requires Inv(c, s) && InUse(c, s, i) && s.exit == Running
    ensures len > 0 ==> Send(s, i, len) == Turned(s, i, Slot(s.slots[i].fd, In, true, OnRecv), Sent)
    ensures Deleted(s, i).exit == Running
    ensures len <= 0 ==> Send(s, i, len) == Deleted(Deleted(s, i), i) && Send(s, i, len).exit == DeleteFailed
  {
    hide ConnInv, FdInv;
    var fd := s.slots[i].fd;
    ReAdd(s.interest, fd, Registration(In, i));
  }

  /** The state after fd was accepted into slot k. */
  function Placed(s: State, fd: int, k: nat): State
    requires k < |s.slots| == |s.owner|
  {
    s.(slots := s.slots[k := Slot(fd, In, true, OnRecv)], interest := s.interest[fd := Registration(In, k)],
       open := s.open + {fd}, conns := s.conns + [Conn(fd, Registered(k), [])], owner := s.owner[k := |s.conns|])
  }

  lemma AcceptEffect(c: Config, s: State, fd: int)
    requires Inv(c, s) && s.exit == Running && fd >= 0 && fd !in s.open
    ensures var k := FirstFree(s.slots, 0, c.max);
      Accept(c, s, fd) == if k < c.max then Placed(s, fd, k)
                          else s.(open := s.open + {fd}, conns := s.conns + [Conn(fd, Dropped, [])])
  {
    hide ConnInv, FdInv;
  }

  lemma TurnedKeepsTable(c: Config, s: State, i: nat, x: Slot, io: Io)
    requires TableInv(c, s) && InUse(c, s, i) && Client(x) && x.fd == s.slots[i].fd && x.status
    ensures TableInv(c, Turned(s, i, x, io))
  {
  }

  lemma LogKeepsAlternation(log: seq<Io>, io: Io)
    requires Alternates(log) && (io == Received <==> |log| % 2 == 0)
    ensures Alternates(log + [io]) && (|log + [io]| % 2 == 0 <==> io == Sent)
  {
  }

  lemma TurnedKeepsConns(c: Config, s: State, i: nat, x: Slot, io: Io)
    requires TableInv(c, s) && ConnInv(c, s) && InUse(c, s, i) && Client(x) && x.fd == s.slots[i].fd && x.status
    requires x.callback != s.slots[i].callback && (io == Received <==> x.callback == OnSend)
    ensures ConnInv(c, Turned(s, i, x, io))
  {
    assert Client(s.slots[i]);
    var k := s.owner[i];
    LogKeepsAlternation(s.conns[k].log, io);
    var t := Turned(s, i, x, io);
    assert t.conns == s.conns[k := s.conns[k].(log := s.conns[k].log + [io])];
    assert t.slots == s.slots[i := x] && t.owner == s.owner;
    assert forall j: nat | j < c.max && j != i && s.slots[j].status :: s.owner[j] != k;
    hide TableInv, Turned, Alternates;
  }

  lemma TurnedKeepsFds(c: Config, s: State, i: nat, x: Slot, io: Io)
    requires Shaped(c, s) && FdInv(c, s) && i <= c.max
    ensures FdInv(c, Turned(s, i, x, io))
  {
    var t := Turned(s, i, x, io);
    forall fd | Carried(s, fd) ensures Carried(t, fd) {
      var k :| 0 <= k < |s.conns| && Live(s.conns[k]) && s.conns[k].fd == fd;
      assert Live(t.conns[k]) && t.conns[k].fd == fd;
    }
  }

  lemma FreedKeepsTable(c: Config, s: State, i: nat)
    requires TableInv(c, s) && InUse(c, s, i)
    ensures TableInv(c, Freed(s, i))
  {
  }

  lemma FreedKeepsConns(c: Config, s: State, i: nat)
    requires TableInv(c, s) && ConnInv(c, s) && InUse(c, s, i)
    ensures ConnInv(c, Freed(s, i))
  {
  }

  lemma FreedKeepsFds(c: Config, s: State, i: nat)
    requires TableInv(c, s) && ConnInv(c, s) && FdInv(c, s) && InUse(c, s, i)
    ensures FdInv(c, Freed(s, i))
  {
    var t := Freed(s, i);
    forall fd | Carried(s, fd) && fd != s.slots[i].fd ensures Carried(t, fd) {
      var k :| 0 <= k < |s.conns| && Live(s.conns[k]) && s.conns[k].fd == fd;
      assert Live(t.conns[k]) && t.conns[k].fd == fd;
    }
  }

  lemma PlacedKeepsTable(c: Config, s: State, fd: int, k: nat)
    requires TableInv(c, s) && k < c.max && !s.slots[k].status && fd !in s.open
    ensures TableInv(c, Placed(s, fd, k))
  {
  }

  lemma PlacedKeepsConns(c: Config, s: State, fd: int, k: nat)
    requires TableInv(c, s) && ConnInv(c, s) && k < c.max && !s.slots[k].status && fd !in s.open
    ensures ConnInv(c, Placed(s, fd, k))
  {
  }

  lemma AddedKeepsFds(c: Config, s: State, x: Conn)
    requires FdInv(c, s) && x.fd !in s.open && Live(x)
    ensures FdInv(c, s.(open := s.open + {x.fd}, conns := s.conns + [x]))
  {
    var t := s.(open := s.open + {x.fd}, conns := s.conns + [x]);
    forall fd | Carried(s, fd) ensures Carried(t, fd) {
      var k :| 0 <= k < |s.conns| && Live(s.conns[k]) && s.conns[k].fd == fd;
      assert Live(t.conns[k]) && t.conns[k].fd == fd;
    }
    assert Live(t.conns[|s.conns|]) && t.conns[|s.conns|].fd == x.fd;
  }

  lemma DroppedKeepsInv(c: Config, s: State, fd: int)
    requires Inv(c, s) && fd !in s.open
    ensures Inv(c, s.(open := s.open + {fd}, conns := s.conns + [Conn(fd, Dropped, [])]))
  {
    hide FdInv;
    AddedKeepsFds(c, s, Conn(fd, Dropped, []));
    DroppedKeepsTable(c, s, fd);
    hide TableInv;
  }

  lemma DroppedKeepsTable(c: Config, s: State, fd: int)
    requires TableInv(c, s)
    ensures TableInv(c, s.(open := s.open + {fd}, conns := s.conns + [Conn(fd, Dropped, [])]))
  {
  }

  lemma PlacedKeepsInv(c: Config, s: State, fd: int, k: nat)
    requires Inv(c, s) && k < c.max && !s.slots[k].status && fd !in s.open
    ensures Inv(c, Placed(s, fd, k))
  {
    PlacedKeepsTable(c, s, fd, k);
    PlacedKeepsConns(c, s, fd, k);
    AddedKeepsFds(c, s, Conn(fd, Registered(k), []));
    SameFds(c, s.(open := s.open + {fd}, conns := s.conns + [Conn(fd, Registered(k), [])]), Placed(s, fd, k));
    hide FdInv, TableInv, ConnInv;
  }

  lemma SameFds(c: Config, s: State, t: State)
    requires FdInv(c, s) && s.open == t.open && s.conns == t.conns
    ensures FdInv(c, t)
  {
    assert forall fd | Carried(s, fd) :: Carried(t, fd);
  }

  lemma TurnedKeepsInv(c: Config, s: State, i: nat, x: Slot, io: Io)
    requires Inv(c, s) && InUse(c, s, i) && Client(x) && x.fd == s.slots[i].fd && x.status
    requires x.callback != s.slots[i].callback && (io == Received <==> x.callback == OnSend)
    ensures Inv(c, Turned(s, i, x, io))
  {
    hide TableInv, ConnInv, FdInv, Client;
    TurnedKeepsTable(c, s, i, x, io);
    TurnedKeepsConns(c, s, i, x, io);
    TurnedKeepsFds(c, s, i, x, io);
  }

  lemma FreedKeepsInv(c: Config, s: State, i: nat)
    requires Inv(c, s) && InUse(c, s, i)
    ensures Inv(c, Freed(s, i))
  {
    hide TableInv, ConnInv, FdInv;
    FreedKeepsTable(c, s, i);
    FreedKeepsConns(c, s, i);
    FreedKeepsFds(c, s, i);
  }

  /** A callback keeps the invariant unless the process exits. */
  lemma CallKeepsInv(c: Config, s: State, i: nat, a: Answer)
    requires Inv(c, s) && s.exit == Running && AnswerOk(s, a) && i <= c.max && s.slots[i].status
    ensures Call(c, s, i, a).exit == Running ==> Inv(c, Call(c, s, i, a))
  {
    if i == c.max {
      if a.fd >= 0 {
        AcceptEffect(c, s, a.fd);
        hide Inv;
        var k := FirstFree(s.slots, 0, c.max);
        if k < c.max {
          PlacedKeepsInv(c, s, a.fd, k);
        } else {
          DroppedKeepsInv(c, s, a.fd);
        }
      }
    } else {
      assert Client(s.slots[i]);
      hide TableInv, ConnInv, FdInv;
      var fd := s.slots[i].fd;
      if s.slots[i].callback == OnRecv {
        RecvEffect(c, s, i, a.len);
        if a.len > 0 {
          TurnedKeepsInv(c, s, i, Slot(fd, Out, true, OnSend), Received);
        } else {
          FreedKeepsInv(c, s, i);
        }
      } else {
        SendEffect(c, s, i, a.len);
        if a.len > 0 {
          TurnedKeepsInv(c, s, i, Slot(fd, In, true, OnRecv), Sent);
        }
      }
    }
  }

  /** And it exits only when accept fails, or when a send fails: by the second eventdel, since the first one
      succeeds.  No callback is ever null, and no other epoll_ctl fails. */
  lemma CallExitsIff(c: Config, s: State, i: nat, a: Answer)
    requires Inv(c, s) && s.exit == Running && AnswerOk(s, a) && i <= c.max && s.slots[i].status
    ensures var t := Call(c, s, i, a);
      && (t.exit == AcceptFailed <==> i == c.max && a.fd < 0)
      && (t.exit == DeleteFailed <==> s.slots[i].callback == OnSend && a.len <= 0)
      && (t.exit == Running || t.exit == AcceptFailed || t.exit == DeleteFailed)
    ensures i < c.max ==> Deleted(s, i).exit == Running
  {
    if i == c.max {
      if a.fd >= 0 {
        AcceptEffect(c, s, a.fd);
      }
    } else {
      assert Client(s.slots[i]);
      RecvEffect(c, s, i, a.len);
      SendEffect(c, s, i, a.len);
    }
    hide ConnInv, FdInv;
  }

  // ---------------------------------------------------------------------------------------------
  // One batch
  // ---------------------------------------------------------------------------------------------

  /** The entry is what the kernel keeps now, and reports no more than the mask asks for. */
  predicate Fresh(c: Config, s: State, e: Entry) {
    && Shaped(c, s) && e.slot <= c.max
    && e.fd in s.interest && s.interest[e.fd].slot == e.slot
    && s.slots[e.slot].fd == e.fd && s.slots[e.slot].status
    && (e.readyIn ==> s.interest[e.fd].mask == In && s.slots[e.slot].events == In)
    && (e.readyOut ==> s.interest[e.fd].mask == Out && s.slots[e.slot].events == Out)
  }

  /** What epoll_wait may return. */
  predicate BatchOk(s: State, es: seq<Entry>) {
    && (forall k | 0 <= k < |es| :: es[k].fd in s.interest && s.interest[es[k].fd].slot == es[k].slot
          && (es[k].readyIn ==> s.interest[es[k].fd].mask == In)
          && (es[k].readyOut ==> s.interest[es[k].fd].mask == Out))
    && (forall j, k | 0 <= j < k < |es| :: es[j].fd != es[k].fd)
  }

  type Answers = seq<(Answer, Answer)>

  predicate Fits(c: Config, s: State, es: seq<Entry>, answers: Answers) {
    Shaped(c, s) && |answers| == |es| && forall j | 0 <= j < |es| :: es[j].slot <= c.max
  }

  /** The state after the first k entries of the batch. */
  function After(c: Config, s: State, es: seq<Entry>, answers: Answers, k: nat): (r: State)
    requires Fits(c, s, es, answers) && k <= |es|
    ensures Shaped(c, r)
  {
    if k == 0 then s
    else
      var t := After(c, s, es, answers, k - 1);
      if t.exit != Running then t else Handle(c, t, es[k - 1], answers[k - 1].0, answers[k - 1].1)
  }

  ghost predicate AnswersOk(c: Config, s: State, es: seq<Entry>, answers: Answers) {
    && Fits(c, s, es, answers)
    && forall k: nat | k < |es| :: AnswerOk(After(c, s, es, answers, k), answers[k].0)
                                && AnswerOk(After(c, s, es, answers, k), answers[k].1)
  }

  /** A fresh entry causes at most one call, although the mask is read again after the first. */
  lemma AtMostOneCall(c: Config, s: State, e: Entry, a: Answer, b: Answer)
    requires Inv(c, s) && s.exit == Running && Fresh(c, s, e)
    ensures !(CallsFirst(s, e) && CallsSecond(HandleIn(c, s, e, a), e))
    ensures Handle(c, s, e, a, b) ==
      if CallsFirst(s, e) then Call(c, s, e.slot, a) else if CallsSecond(s, e) then Call(c, s, e.slot, b) else s
  {
  }

  lemma HandleKeepsInv(c: Config, s: State, e: Entry, a: Answer, b: Answer)
    requires Inv(c, s) && s.exit == Running && Fresh(c, s, e) && AnswerOk(s, a) && AnswerOk(s, b)
    ensures Handle(c, s, e, a, b).exit == Running ==> Inv(c, Handle(c, s, e, a, b))
  {
    AtMostOneCall(c, s, e, a, b);
    CallKeepsInv(c, s, e.slot, a);
    CallKeepsInv(c, s, e.slot, b);
    hide Inv, Call, Handle, HandleIn;
  }

  lemma TurnedKeepsOthers(c: Config, s: State, i: nat, x: Slot, io: Io, e: Entry)
    requires TableInv(c, s) && InUse(c, s, i) && x.fd == s.slots[i].fd && Fresh(c, s, e) && e.slot != i
    ensures Unchanged(c, s, Turned(s, i, x, io), e)
  {
  }

  lemma FreedKeepsOthers(c: Config, s: State, i: nat, e: Entry)
    requires TableInv(c, s) && InUse(c, s, i) && Fresh(c, s, e) && e.slot != i
    ensures Unchanged(c, s, Freed(s, i), e)
  {
  }

  lemma PlacedKeepsOthers(c: Config, s: State, fd: int, k: nat, e: Entry)
    requires TableInv(c, s) && k < c.max && !s.slots[k].status && fd !in s.open && Fresh(c, s, e)
    ensures Unchanged(c, s, Placed(s, fd, k), e)
  {
  }

  /** Entry o is still what it was in s: same registration, and the slot serves the same connection. */
  predicate Unchanged(c: Config, s: State, t: State, o: Entry) {
    && Fresh(c, s, o) && Fresh(c, t, o)
    && t.interest[o.fd] == s.interest[o.fd] && t.owner[o.slot] == s.owner[o.slot]
  }

  /** A callback on one slot leaves every other registered descriptor as it was, slot, mask and connection. */
  lemma CallKeepsOthers(c: Config, s: State, i: nat, a: Answer, e: Entry)
    requires Inv(c, s) && s.exit == Running && AnswerOk(s, a) && i <= c.max && s.slots[i].status
    requires Fresh(c, s, e) && e.slot != i && Call(c, s, i, a).exit == Running
    ensures Unchanged(c, s, Call(c, s, i, a), e)
  {
    CallExitsIff(c, s, i, a);
    hide ConnInv, FdInv, Recv, Send, Accept, Turned, Freed, Placed, Unchanged, Fresh, Deleted;
    if i == c.max {
      if a.fd >= 0 {
        AcceptEffect(c, s, a.fd);
        var k := FirstFree(s.slots, 0, c.max);
        if k < c.max {
          PlacedKeepsOthers(c, s, a.fd, k, e);
        } else {
          SameTable(c, s, Accept(c, s, a.fd), e);
        }
      }
    } else {
      assert Client(s.slots[i]);
      var fd := s.slots[i].fd;
      RecvEffect(c, s, i, a.len);
      SendEffect(c, s, i, a.len);
      TurnedKeepsOthers(c, s, i, Slot(fd, Out, true, OnSend), Received, e);
      TurnedKeepsOthers(c, s, i, Slot(fd, In, true, OnRecv), Sent, e);
      FreedKeepsOthers(c, s, i, e);
    }
  }

  lemma SameTable(c: Config, s: State, t: State, e: Entry)
    requires Fresh(c, s, e) && t.slots == s.slots && t.interest == s.interest && t.owner == s.owner
    ensures Unchanged(c, s, t, e)
  {
  }

  lemma HandleKeepsOthers(c: Config, s: State, e: Entry, a: Answer, b: Answer, o: Entry)
    requires Inv(c, s) && s.exit == Running && AnswerOk(s, a) && AnswerOk(s, b) && Fresh(c, s, e)
    requires Fresh(c, s, o) && o.fd != e.fd && Handle(c, s, e, a, b).exit == Running
    ensures Unchanged(c, s, Handle(c, s, e, a, b), o)
  {
    AtMostOneCall(c, s, e, a, b);
    hide Inv, Call, Handle, HandleIn;
    if CallsFirst(s, e) {
      CallKeepsOthers(c, s, e.slot, a, o);
    } else if CallsSecond(s, e) {
      CallKeepsOthers(c, s, e.slot, b, o);
    }
  }

  /** The batch as reported: every entry is what the kernel keeps. */
  lemma BatchIsFresh(c: Config, s: State, es: seq<Entry>, j: nat)
    requires Inv(c, s) && BatchOk(s, es) && j < |es|
    ensures Fresh(c, s, es[j])
  {
    hide ConnInv, FdInv;
  }

  lemma HandleKeepsEntry(c: Config, s: State, t: State, e: Entry, a: Answer, b: Answer, o: Entry)
    requires Inv(c, t) && t.exit == Running && Unchanged(c, s, t, e) && AnswerOk(t, a) && AnswerOk(t, b)
    requires Unchanged(c, s, t, o) && o.fd != e.fd && Handle(c, t, e, a, b).exit == Running
    ensures Unchanged(c, s, Handle(c, t, e, a, b), o)
  {
    hide Inv, Handle;
    HandleKeepsOthers(c, t, e, a, b, o);
  }

  lemma EntriesDiffer(s: State, es: seq<Entry>, j: nat, k: nat)
    requires BatchOk(s, es) && j < k < |es|
    ensures es[j].fd != es[k].fd
  {
  }

  lemma AnswersAt(c: Config, s: State, es: seq<Entry>, answers: Answers, k: nat)
    requires AnswersOk(c, s, es, answers) && k < |es|
    ensures Fits(c, s, es, answers)
    ensures AnswerOk(After(c, s, es, answers, k), answers[k].0) && AnswerOk(After(c, s, es, answers, k), answers[k].1)
  {
  }

  /** In the middle of a batch the invariant holds, and the entries still to come are as reported. */
  lemma {:induction false} BatchPrefix(c: Config, s: State, es: seq<Entry>, answers: Answers, k: nat)
    requires Inv(c, s) && s.exit == Running && Fits(c, s, es, answers) && k <= |es|
    requires BatchOk(s, es) && AnswersOk(c, s, es, answers)
    requires After(c, s, es, answers, k).exit == Running
    ensures Inv(c, After(c, s, es, answers, k))
    ensures forall j | k <= j < |es| :: Unchanged(c, s, After(c, s, es, answers, k), es[j])
    decreases k
  {
    hide Inv, BatchOk, AnswersOk, AnswerOk, Handle, Fresh;
    if k == 0 {
      forall j | 0 <= j < |es| ensures Unchanged(c, s, s, es[j]) {
        BatchIsFresh(c, s, es, j);
      }
    } else {
      BatchPrefix(c, s, es, answers, k - 1);
      var t := After(c, s, es, answers, k - 1);
      var e, a, b := es[k - 1], answers[k - 1].0, answers[k - 1].1;
      AnswersAt(c, s, es, answers, k - 1);
      assert Unchanged(c, s, t, e);
      HandleKeepsInv(c, t, e, a, b);
      forall j | k <= j < |es| ensures Unchanged(c, s, After(c, s, es, answers, k), es[j]) {
        EntriesDiffer(s, es, k - 1, j);
        HandleKeepsEntry(c, s, t, e, a, b, es[j]);
      }
    }
  }

  // ---------------------------------------------------------------------------------------------
  // Runs
  // ---------------------------------------------------------------------------------------------

  /** One turn of the outer loop: a batch and what the calls made for it return, or epoll_wait fails. */
  datatype Act = Turn(es: seq<Entry>, answers: Answers) | WaitFails

  ghost function Next(c: Config, s: State, a: Act): Option<State> {
    if s.exit != Running || !Shaped(c, s) then None
    else match a
      case WaitFails => Some(s.(exit := WaitFailed))
      case Turn(es, answers) =>
        if BatchOk(s, es) && AnswersOk(c, s, es, answers) then Some(After(c, s, es, answers, |es|)) else None
  }

  ghost function System(c: Config): (State, Act) -> Option<State> {
    (s, a) => Next(c, s, a)
  }

  ghost predicate Reachable(c: Config, s: State) {
    c.lfd !in c.others && Reaches(System(c), Init(c), s)
  }

  lemma InitInv(c: Config)
    requires c.lfd !in c.others
    ensures Inv(c, Init(c))
  {
  }

  ghost predicate LiveInv(c: Config, s: State) { s.exit == Running ==> Inv(c, s) }

  lemma NextKeepsLive(c: Config, s: State, a: Act)
    requires LiveInv(c, s) && Next(c, s, a).Some?
    ensures LiveInv(c, Next(c, s, a).value)
  {
    hide Inv, BatchOk, AnswerOk, After;
    if a.Turn? && Next(c, s, a).value.exit == Running {
      BatchPrefix(c, s, a.es, a.answers, |a.es|);
    }
  }

  lemma ReachableInv(c: Config, s: State)
    requires Reachable(c, s)
    ensures LiveInv(c, s)
  {
    InitInv(c);
    hide Inv, Next, Init;
    var sched: seq<Act> :| Exec(System(c), Init(c), sched) == Some(s);
    forall t: State, a: Act | LiveInv(c, t) && System(c)(t, a).Some? ensures LiveInv(c, System(c)(t, a).value) {
      NextKeepsLive(c, t, a);
    }
    InvariantHolds(System(c), t => LiveInv(c, t), Init(c), sched);
  }

  /** t is the state of a live run in which k entries of the current batch have been dispatched. */
  ghost predicate InBatch(c: Config, s: State, es: seq<Entry>, answers: Answers, k: nat, t: State) {
    && Reachable(c, s) && s.exit == Running && BatchOk(s, es) && AnswersOk(c, s, es, answers) && k <= |es|
    && t == After(c, s, es, answers, k) && t.exit == Running
  }

  /** No entry is dispatched stale: when its turn comes, its slot is registered for the descriptor and the
      connection it was reported for, with the mask it was reported under, whatever the callbacks before
      it closed, freed or took. */
  lemma NoStaleEntry(c: Config, s: State, es: seq<Entry>, answers: Answers, k: nat, t: State)
    requires InBatch(c, s, es, answers, k, t) && k < |es|
    ensures es[k].fd in s.interest && es[k].fd in t.interest && t.interest[es[k].fd] == s.interest[es[k].fd]
    ensures Fresh(c, t, es[k]) && Shaped(c, s) && t.owner[es[k].slot] == s.owner[es[k].slot]
  {
    ReachableInv(c, s);
    hide Inv, Fresh, After;
    BatchPrefix(c, s, es, answers, k);
    assert Unchanged(c, s, t, es[k]);
    BatchIsFresh(c, s, es, k);
    assert Fresh(c, s, es[k]);
    FreshIsRegistered(c, s, es[k]);
    FreshIsRegistered(c, t, es[k]);
  }

  lemma FreshIsRegistered(c: Config, s: State, e: Entry)
    requires Fresh(c, s, e)
    ensures e.fd in s.interest && Shaped(c, s)
  {
  }

  /** What one entry is for: a new connection on the listener, the next receive or the next send of the
      slot's connection, or nothing (an error or a hang-up alone). */
  function EntryEffect(c: Config, s: State, e: Entry, a: Answer, b: Answer): State
    requires Shaped(c, s) && e.slot <= c.max
  {
    if e.readyIn then (if e.slot == c.max then Accept(c, s, a.fd) else Recv(s, e.slot, a.len))
    else if e.readyOut then Send(s, e.slot, b.len)
    else s
  }

  lemma HandleEffect(c: Config, s: State, e: Entry, a: Answer, b: Answer)
    requires Inv(c, s) && s.exit == Running && Fresh(c, s, e)
    ensures Handle(c, s, e, a, b) == EntryEffect(c, s, e, a, b)
    ensures !(CallsFirst(s, e) && CallsSecond(HandleIn(c, s, e, a), e))
  {
    AtMostOneCall(c, s, e, a, b);
    FreshCallback(c, s, e);
    hide Inv, Handle, HandleIn, Accept, Recv, Send;
  }

  lemma FreshCallback(c: Config, s: State, e: Entry)
    requires Inv(c, s) && Fresh(c, s, e)
    ensures if e.slot == c.max then s.slots[e.slot] == Slot(e.fd, In, true, OnAccept) else Client(s.slots[e.slot])
  {
    hide ConnInv, FdInv;
  }

  /** Each entry triggers at most one callback, although the mask is read again after the first, and it is
      the one that the readiness reported for the entry calls for. */
  lemma OneCallPerEntry(c: Config, s: State, es: seq<Entry>, answers: Answers, k: nat, t: State)
    requires InBatch(c, s, es, answers, k, t) && k < |es|
    ensures Shaped(c, t) && es[k].slot <= c.max
    ensures !(CallsFirst(t, es[k]) && CallsSecond(HandleIn(c, t, es[k], answers[k].0), es[k]))
    ensures After(c, s, es, answers, k + 1) == EntryEffect(c, t, es[k], answers[k].0, answers[k].1)
  {
    NoStaleEntry(c, s, es, answers, k, t);
    InBatchInv(c, s, es, answers, k, t);
    FreshHasSlot(c, t, es[k]);
    hide Inv, Fresh, EntryEffect, Handle, HandleIn, BatchOk;
    HandleEffect(c, t, es[k], answers[k].0, answers[k].1);
  }

  lemma FreshHasSlot(c: Config, s: State, e: Entry)
    requires Fresh(c, s, e)
    ensures Shaped(c, s) && e.slot <= c.max
  {
  }

  /** The descriptors of the slots in use and of the listener. */
  function WatchedFds(c: Config, s: State): set<int>
    requires Shaped(c, s)
  {
    (set i: nat | i < c.max && s.slots[i].status :: s.slots[i].fd) + {c.lfd}
  }

  /** The interest set is exactly the listener and the slots with status 1: registered under the slot's own
      mask, no two slots on one descriptor, EPOLLIN with recvData and EPOLLOUT with sendData. */
  ghost predicate Exact(c: Config, s: State) {
    && Shaped(c, s) && s.interest.Keys == WatchedFds(c, s)
    && (forall i: nat | i <= c.max && s.slots[i].status ::
          s.slots[i].fd in s.interest && s.interest[s.slots[i].fd] == Registration(s.slots[i].events, i))
    && (forall i, j | 0 <= i < j <= c.max && s.slots[i].status && s.slots[j].status :: s.slots[i].fd != s.slots[j].fd)
    && (forall i | 0 <= i < c.max && s.slots[i].status :: Client(s.slots[i]))
  }

  lemma TableIsExact(c: Config, s: State)
    requires TableInv(c, s)
    ensures Exact(c, s)
  {
    forall i: nat, j: nat | i < j <= c.max && s.slots[i].status && s.slots[j].status
      ensures s.slots[i].fd != s.slots[j].fd {
      assert s.interest[s.slots[i].fd].slot == i && s.interest[s.slots[j].fd].slot == j;
    }
    forall fd | fd in s.interest ensures fd in WatchedFds(c, s) {
      var i := s.interest[fd].slot;
      assert s.slots[i].status && s.slots[i].fd == fd;
    }
  }

  /** After every dispatched entry of a live run the interest set is exact, and the listener's slot is what
      it was at the start. */
  lemma InterestIsExact(c: Config, s: State, es: seq<Entry>, answers: Answers, k: nat, t: State)
    requires InBatch(c, s, es, answers, k, t)
    ensures Exact(c, t) && Shaped(c, t) && t.slots[c.max] == Slot(c.lfd, In, true, OnAccept)
  {
    InBatchInv(c, s, es, answers, k, t);
    TableIsExact(c, t);
    hide InBatch, Exact, ConnInv, FdInv;
  }

  lemma InBatchInv(c: Config, s: State, es: seq<Entry>, answers: Answers, k: nat, t: State)
    requires InBatch(c, s, es, answers, k, t)
    ensures Inv(c, t)
  {
    hide Inv, After;
    ReachableInv(c, s);
    BatchPrefix(c, s, es, answers, k);
  }

  /** What the fate of a connection means for the table and the kernel: while it is registered, one slot
      has it, on its descriptor; a closed one has given its descriptor back (another connection may have it
      by now); a dropped one keeps its descriptor open and is in no slot. */
  ghost predicate FateHolds(c: Config, s: State, x: Conn) {
    match x.fate
    case Registered(i) =>
      i < c.max < |s.slots| && s.slots[i].status && s.slots[i].fd == x.fd
      && x.fd in s.interest && s.interest[x.fd].slot == i
    case Closed => x.fd in s.open ==> x.fd == c.lfd || x.fd in c.others || Carried(s, x.fd)
    case Dropped => x.fd in s.open && x.fd !in s.interest
  }

  lemma FateOf(c: Config, s: State, n: nat)
    requires Inv(c, s) && n < |s.conns|
    ensures FateHolds(c, s, s.conns[n])
  {
    if s.conns[n].fd in s.interest {
      var m := WatchedIsRegistered(c, s, s.conns[n].fd);
    }
    hide Carried;
  }

  /** Every accepted connection has exactly one fate, and no two that are not closed share a descriptor. */
  lemma ConnectionsAreAccountedFor(c: Config, s: State, es: seq<Entry>, answers: Answers, k: nat, t: State, n: nat)
    requires InBatch(c, s, es, answers, k, t) && n < |t.conns|
    ensures FateHolds(c, t, t.conns[n])
    ensures forall m | 0 <= m < |t.conns| && m != n && Live(t.conns[m]) && Live(t.conns[n]) ::
      t.conns[m].fd != t.conns[n].fd
  {
    InBatchInv(c, s, es, answers, k, t);
    FateOf(c, t, n);
    hide InBatch, TableInv, ConnInv, FateHolds;
  }

  /** The same connection later: a registered one stays in its slot or is closed, and its log grows; to a
      closed or a dropped one nothing happens any more. */
  predicate Later(x: Conn, y: Conn) {
    && x.fd == y.fd && x.log <= y.log
    && (x.fate.Registered? ==> y.fate == x.fate || y.fate == Closed)
    && (!x.fate.Registered? ==> y == x)
  }

  ghost predicate Continues(s: State, t: State) {
    |s.conns| <= |t.conns| && forall n | 0 <= n < |s.conns| :: Later(s.conns[n], t.conns[n])
  }

  lemma ContinuesTrans(s: State, t: State, u: State)
    requires Continues(s, t) && Continues(t, u)
    ensures Continues(s, u)
  {
    forall n | 0 <= n < |s.conns| ensures Later(s.conns[n], u.conns[n]) {
      assert Later(s.conns[n], t.conns[n]) && Later(t.conns[n], u.conns[n]);
    }
  }

  lemma TurnedContinues(c: Config, s: State, i: nat, x: Slot, io: Io)
    requires Shaped(c, s) && ConnInv(c, s) && InUse(c, s, i)
    ensures Continues(s, Turned(s, i, x, io))
  {
  }

  lemma FreedContinues(c: Config, s: State, i: nat)
    requires Shaped(c, s) && ConnInv(c, s) && InUse(c, s, i)
    ensures Continues(s, Freed(s, i))
  {
  }

  lemma CallContinues(c: Config, s: State, i: nat, a: Answer)
    requires Inv(c, s) && s.exit == Running && AnswerOk(s, a) && i <= c.max && s.slots[i].status
    ensures Continues(s, Call(c, s, i, a))
  {
    if i == c.max {
      if a.fd >= 0 {
        AcceptEffect(c, s, a.fd);
      }
      hide ConnInv, FdInv, Recv, Send, Accept;
    } else {
      assert Client(s.slots[i]);
      RecvEffect(c, s, i, a.len);
      SendEffect(c, s, i, a.len);
      TurnedContinues(c, s, i, Slot(s.slots[i].fd, Out, true, OnSend), Received);
      TurnedContinues(c, s, i, Slot(s.slots[i].fd, In, true, OnRecv), Sent);
      FreedContinues(c, s, i);
      hide Inv, Recv, Send, Accept, Turned, Freed;
    }
  }

  lemma HandleContinues(c: Config, s: State, e: Entry, a: Answer, b: Answer)
    requires Inv(c, s) && s.exit == Running && Fresh(c, s, e) && AnswerOk(s, a) && AnswerOk(s, b)
    ensures Continues(s, Handle(c, s, e, a, b))
  {
    AtMostOneCall(c, s, e, a, b);
    CallContinues(c, s, e.slot, a);
    CallContinues(c, s, e.slot, b);
    hide Inv, Call, Handle, HandleIn, Continues;
    ContinuesSelf(s);
  }

  /** From any point of a batch to any later one. */
  lemma {:induction false} BatchContinues(c: Config, s: State, es: seq<Entry>, answers: Answers, j: nat, k: nat)
    requires Inv(c, s) && s.exit == Running && BatchOk(s, es) && AnswersOk(c, s, es, answers) && j <= k <= |es|
    ensures Fits(c, s, es, answers) && Continues(After(c, s, es, answers, j), After(c, s, es, answers, k))
    decreases k - j
  {
    hide Inv, BatchOk, AnswerOk, Handle, Fresh, Continues;
    if k == j {
      ContinuesSelf(After(c, s, es, answers, k));
    } else {
      var t := After(c, s, es, answers, k - 1);
      BatchContinues(c, s, es, answers, j, k - 1);
      if t.exit == Running {
        BatchPrefix(c, s, es, answers, k - 1);
        AnswersAt(c, s, es, answers, k - 1);
        assert Unchanged(c, s, t, es[k - 1]);
        HandleContinues(c, t, es[k - 1], answers[k - 1].0, answers[k - 1].1);
        ContinuesTrans(After(c, s, es, answers, j), t, After(c, s, es, answers, k));
      }
    }
  }

  lemma ContinuesSelf(s: State)
    ensures Continues(s, s)
  {
  }

  lemma NextContinues(c: Config, s: State, a: Act)
    requires LiveInv(c, s) && Next(c, s, a).Some?
    ensures Continues(s, Next(c, s, a).value)
  {
    hide Inv, BatchOk, AnswersOk;
    match a
    case WaitFails =>
    case Turn(es, answers) => BatchContinues(c, s, es, answers, 0, |es|);
  }

  lemma RunContinues(c: Config, r: State, s: State)
    requires Reachable(c, r) && Reaches(System(c), r, s)
    ensures Continues(r, s) && Reachable(c, s)
  {
    ReachableInv(c, r);
    ReachesTrans(System(c), Init(c), r, s);
    ContinuesSelf(r);
    hide Inv, Next, Init, Continues, LiveInv;
    var sched: seq<Act> :| Exec(System(c), r, sched) == Some(s);
    forall u: State, a: Act | LiveInv(c, u) && Continues(r, u) && System(c)(u, a).Some?
      ensures LiveInv(c, System(c)(u, a).value) && Continues(r, System(c)(u, a).value)
    {
      NextKeepsLive(c, u, a);
      NextContinues(c, u, a);
      ContinuesTrans(r, u, System(c)(u, a).value);
    }
    InvariantHolds(System(c), u => LiveInv(c, u) && Continues(r, u), r, sched);
  }

  /** Over a run a connection is closed at most once, and for good; one that was dropped stays so, with its
      descriptor open and unwatched for ever; a registered one never changes its slot.  No transfer that was
      made is forgotten, and none is made for a connection that is not registered. */
  lemma FatesAreFinal(
    c: Config, r: State, s: State, es: seq<Entry>, answers: Answers, k: nat, t: State, n: nat)
    requires Reachable(c, r) && Reaches(System(c), r, s) && InBatch(c, s, es, answers, k, t) && n < |r.conns|
    ensures n < |t.conns| && Later(r.conns[n], t.conns[n])
    ensures r.conns[n].fate == Dropped ==> r.conns[n].fd in t.open && r.conns[n].fd !in t.interest
  {
    RunContinues(c, r, s);
    ReachableInv(c, s);
    BatchContinues(c, s, es, answers, 0, k);
    ContinuesTrans(r, s, t);
    InBatchInv(c, s, es, answers, k, t);
    hide InBatch, Inv;
    assert n < |t.conns| && Later(r.conns[n], t.conns[n]);
    FateOf(c, t, n);
  }

  lemma WatchedIsRegistered(c: Config, s: State, fd: int) returns (m: nat)
    requires Inv(c, s) && fd in s.interest
    ensures fd == c.lfd || (m < |s.conns| && s.conns[m].fd == fd && s.conns[m].fate.Registered?)
  {
    m := s.owner[s.interest[fd].slot];
    hide FdInv;
  }

  /** What accept leaves behind: one more connection, dropped exactly when every client slot is in use. */
  lemma AcceptDropsIffFull(c: Config, s: State, fd: int)
    requires Inv(c, s) && s.exit == Running && fd >= 0 && fd !in s.open
    ensures var t := Accept(c, s, fd);
      && |t.conns| == |s.conns| + 1 && t.conns[..|s.conns|] == s.conns && t.conns[|s.conns|].fd == fd
      && (t.conns[|s.conns|].fate == Dropped <==> forall i | 0 <= i < c.max :: s.slots[i].status)
      && (t.conns[|s.conns|].fate != Dropped ==>
            exists i: nat :: i < c.max && !s.slots[i].status && t.conns[|s.conns|].fate == Registered(i)
                          && forall j | 0 <= j < i :: s.slots[j].status)
  {
    AcceptEffect(c, s, fd);
    hide Inv;
  }

  /** The entry is for the listener, and accept gives a connection. */
  predicate Accepts(c: Config, e: Entry, a: Answer) { e.slot == c.max && e.readyIn && a.fd >= 0 }

  lemma OnlyAcceptAdds(c: Config, s: State, e: Entry, a: Answer, b: Answer)
    requires Inv(c, s) && s.exit == Running && Fresh(c, s, e) && !Accepts(c, e, a)
    ensures Shaped(c, s) && e.slot <= c.max && |EntryEffect(c, s, e, a, b).conns| == |s.conns|
  {
    FreshCallback(c, s, e);
    hide Inv;
  }

  /** A connection is dropped exactly when it is accepted while every client slot is in use; otherwise it
      goes to the first slot that was free.  No other entry adds a connection. */
  lemma DroppedIffFull(c: Config, s: State, es: seq<Entry>, answers: Answers, k: nat, t: State)
    requires InBatch(c, s, es, answers, k, t) && k < |es|
    ensures Shaped(c, t)
    ensures var u, n, a := After(c, s, es, answers, k + 1), |t.conns|, answers[k].0;
      if !Accepts(c, es[k], a) then |u.conns| == n
      else
        && |u.conns| == n + 1 && u.conns[..n] == t.conns && u.conns[n].fd == a.fd
        && (u.conns[n].fate == Dropped <==> forall i | 0 <= i < c.max :: t.slots[i].status)
        && (u.conns[n].fate != Dropped ==>
              exists i: nat :: i < c.max && !t.slots[i].status && u.conns[n].fate == Registered(i)
                            && forall j | 0 <= j < i :: t.slots[j].status)
  {
    NoStaleEntry(c, s, es, answers, k, t);
    InBatchInv(c, s, es, answers, k, t);
    OneCallPerEntry(c, s, es, answers, k, t);
    assert AnswerOk(t, answers[k].0);
    hide InBatch, Inv, Fresh, After, Accept, Recv, Send;
    if Accepts(c, es[k], answers[k].0) {
      AcceptDropsIffFull(c, t, answers[k].0.fd);
    } else {
      OnlyAcceptAdds(c, t, es[k], answers[k].0, answers[k].1);
    }
  }

  lemma {:induction false} AlternatingCounts(log: seq<Io>)
    requires Alternates(log)
    ensures multiset(log)[Received] == (|log| + 1) / 2 && multiset(log)[Sent] == |log| / 2
  {
    if log != [] {
      var m := |log| - 1;
      AlternatingCounts(log[..m]);
      assert log == log[..m] + [log[m]];
    }
  }

  /** Every connection receives and sends in turn, beginning with a receive; so it has received as often
      as it has sent, or once more. */
  lemma ConnectionsAlternate(c: Config, s: State, es: seq<Entry>, answers: Answers, k: nat, t: State, n: nat)
    requires InBatch(c, s, es, answers, k, t) && n < |t.conns|
    ensures Alternates(t.conns[n].log)
    ensures multiset(t.conns[n].log)[Sent] <= multiset(t.conns[n].log)[Received] <= multiset(t.conns[n].log)[Sent] + 1
  {
    InBatchInv(c, s, es, answers, k, t);
    hide TableInv, FdInv;
    AlternatingCounts(t.conns[n].log);
  }

  /** What an entry does to the connection of its slot: one transfer, or the end of it. */
  function Transferred(x: Conn, e: Entry, a: Answer, b: Answer): Conn {
    if e.readyIn then (if a.len > 0 then x.(log := x.log + [Received]) else x.(fate := Closed))
    else if e.readyOut && b.len > 0 then x.(log := x.log + [Sent])
    else x
  }

  /** And to its slot: it turns to the other direction, or is freed. */
  function TurnedSlot(x: Slot, e: Entry, a: Answer, b: Answer): Slot {
    if e.readyIn then (if a.len > 0 then Slot(x.fd, Out, true, OnSend) else x.(status := false))
    else if e.readyOut && b.len > 0 then Slot(x.fd, In, true, OnRecv)
    else x
  }

  lemma ClientEffect(c: Config, s: State, e: Entry, a: Answer, b: Answer)
    requires Inv(c, s) && s.exit == Running && Fresh(c, s, e) && e.slot < c.max
    requires EntryEffect(c, s, e, a, b).exit == Running
    ensures var n, t := s.owner[e.slot], EntryEffect(c, s, e, a, b);
      && n < |s.conns| && s.conns[n].fate == Registered(e.slot)
      && t.conns == s.conns[n := Transferred(s.conns[n], e, a, b)]
      && t.slots == s.slots[e.slot := TurnedSlot(s.slots[e.slot], e, a, b)]
      && t.open == s.open - (if e.readyIn && a.len <= 0 then {e.fd} else {})
  {
    FreshCallback(c, s, e);
    RecvEffect(c, s, e.slot, a.len);
    SendEffect(c, s, e.slot, b.len);
    assert s.conns == s.conns[s.owner[e.slot] := s.conns[s.owner[e.slot]]];
    hide FdInv, Recv, Send, Accept;
  }

  /** Every entry of a live batch makes exactly the transfer it is ready for: on a client slot the connection's
      log gets one Received, or one Sent, or the connection is closed, and the slot turns with it; nothing
      happens to any other connection or slot.  On the listener all connections are left as they are, and so
      are all slots but the one that the new connection goes to. */
  lemma EntryMakesItsTransfer(c: Config, s: State, es: seq<Entry>, answers: Answers, k: nat, t: State)
    requires InBatch(c, s, es, answers, k, t) && k < |es| && After(c, s, es, answers, k + 1).exit == Running
    ensures Shaped(c, s) && Shaped(c, t) && es[k].slot <= c.max
    ensures var u, e, a, b := After(c, s, es, answers, k + 1), es[k], answers[k].0, answers[k].1;
      if e.slot == c.max then OnlyAccepted(t, u, if e.readyIn then {a.fd} else {})
      else
        var n := s.owner[e.slot];
        && n == t.owner[e.slot] && n < |t.conns|
        && u.conns == t.conns[n := Transferred(t.conns[n], e, a, b)]
        && u.slots == t.slots[e.slot := TurnedSlot(t.slots[e.slot], e, a, b)]
        && u.open == t.open - (if e.readyIn && a.len <= 0 then {e.fd} else {})
  {
    NoStaleEntry(c, s, es, answers, k, t);
    InBatchInv(c, s, es, answers, k, t);
    OneCallPerEntry(c, s, es, answers, k, t);
    FreshHasSlot(c, t, es[k]);
    if es[k].slot < c.max {
      hide InBatch, Inv, Fresh, After, EntryEffect;
      ClientEffect(c, t, es[k], answers[k].0, answers[k].1);
    } else {
      ListenerOnlyAccepts(c, t, es[k], answers[k].0, answers[k].1);
    }
  }

  /** A descriptor was opened for a connection that is new, and nothing else changed but its slot. */
  ghost predicate OnlyAccepted(s: State, t: State, fds: set<int>) {
    && |s.conns| <= |t.conns| && t.conns[..|s.conns|] == s.conns && t.open == s.open + fds && |s.slots| == |t.slots|
    && forall i: nat | i < |s.slots| && t.slots[i] != s.slots[i] ::
         !s.slots[i].status && |t.conns| == |s.conns| + 1 && t.conns[|s.conns|].fate == Registered(i)
  }

  lemma ListenerOnlyAccepts(c: Config, s: State, e: Entry, a: Answer, b: Answer)
    requires Inv(c, s) && s.exit == Running && Fresh(c, s, e) && e.slot == c.max && AnswerOk(s, a)
    requires EntryEffect(c, s, e, a, b).exit == Running
    ensures OnlyAccepted(s, EntryEffect(c, s, e, a, b), if e.readyIn then {a.fd} else {})
  {
    FreshCallback(c, s, e);
    if a.fd >= 0 {
      AcceptEffect(c, s, a.fd);
    }
    hide ConnInv, FdInv;
  }

  /** The entry is for the slot that has connection n. */
  predicate IsFor(c: Config, s: State, e: Entry, n: nat) {
    Shaped(c, s) && e.slot < c.max && s.owner[e.slot] == n
  }

  /** No two entries of a batch are for one connection. */
  lemma OneEntryEach(c: Config, s: State, es: seq<Entry>, i: nat, j: nat, n: nat)
    requires Inv(c, s) && BatchOk(s, es) && i < |es| && j < |es| && IsFor(c, s, es[i], n) && IsFor(c, s, es[j], n)
    ensures i == j
  {
    BatchIsFresh(c, s, es, i);
    BatchIsFresh(c, s, es, j);
    hide FdInv;
    assert s.conns[n].fate == Registered(es[i].slot) && s.conns[n].fate == Registered(es[j].slot);
  }

  /** Connection n after the first k entries: what its entry made of it, if it was among them. */
  ghost predicate ConnAfter(c: Config, s: State, es: seq<Entry>, answers: Answers, k: nat, n: nat, x: Conn)
    requires |answers| == |es| && n < |s.conns| && k <= |es|
  {
    && (forall j | 0 <= j < k && IsFor(c, s, es[j], n) ::
          x == Transferred(s.conns[n], es[j], answers[j].0, answers[j].1))
    && ((forall j | 0 <= j < k :: !IsFor(c, s, es[j], n)) ==> x == s.conns[n])
  }

  lemma ConnAfterOneMore(c: Config, s: State, es: seq<Entry>, answers: Answers, k: nat, n: nat, x: Conn, y: Conn)
    requires Inv(c, s) && BatchOk(s, es) && |answers| == |es| && n < |s.conns| && k < |es|
    requires ConnAfter(c, s, es, answers, k, n, x)
    requires y == if IsFor(c, s, es[k], n) then Transferred(x, es[k], answers[k].0, answers[k].1) else x
    ensures ConnAfter(c, s, es, answers, k + 1, n, y)
  {
    hide Inv, BatchOk, IsFor, Transferred;
    if IsFor(c, s, es[k], n) {
      forall j | 0 <= j < k ensures !IsFor(c, s, es[j], n) {
        if IsFor(c, s, es[j], n) {
          OneEntryEach(c, s, es, j, k, n);
        }
      }
    }
  }

  /** One entry, seen from connection n. */
  lemma EntryOnConn(c: Config, s: State, es: seq<Entry>, answers: Answers, k: nat, t: State, u: State, n: nat)
    requires InBatch(c, s, es, answers, k, t) && k < |es| && InBatch(c, s, es, answers, k + 1, u) && n < |t.conns|
    ensures |answers| == |es| && n < |u.conns|
    ensures u.conns[n] ==
      if IsFor(c, s, es[k], n) then Transferred(t.conns[n], es[k], answers[k].0, answers[k].1) else t.conns[n]
  {
    EntryMakesItsTransfer(c, s, es, answers, k, t);
    hide Reachable, BatchOk, AnswerOk, Transferred, TurnedSlot;
  }

  lemma BatchBefore(c: Config, s: State, es: seq<Entry>, answers: Answers, k: nat, u: State) returns (t: State)
    requires InBatch(c, s, es, answers, k + 1, u)
    ensures InBatch(c, s, es, answers, k, t) && k < |es| == |answers| && Inv(c, s) && BatchOk(s, es)
  {
    hide Inv, BatchOk, AnswerOk, Handle;
    ReachableInv(c, s);
    t := After(c, s, es, answers, k);
  }

  lemma NoneBefore(c: Config, s: State, es: seq<Entry>, answers: Answers, t: State, n: nat)
    requires InBatch(c, s, es, answers, 0, t) && n < |s.conns|
    ensures |answers| == |es| && t == s && ConnAfter(c, s, es, answers, 0, n, t.conns[n])
  {
    NothingYet(c, s, es, answers, t);
    hide InBatch, IsFor, Transferred;
  }

  lemma {:induction false} ConnsAfter(
    c: Config, s: State, es: seq<Entry>, answers: Answers, k: nat, t: State, n: nat)
    requires InBatch(c, s, es, answers, k, t) && n < |s.conns|
    ensures |answers| == |es| && n < |t.conns| && k <= |es| && ConnAfter(c, s, es, answers, k, n, t.conns[n])
    decreases k
  {
    hide Inv, InBatch, BatchOk, ConnAfter, IsFor, Transferred;
    if k == 0 {
      NoneBefore(c, s, es, answers, t, n);
    } else {
      var r := BatchBefore(c, s, es, answers, k - 1, t);
      ConnsAfter(c, s, es, answers, k - 1, r, n);
      EntryOnConn(c, s, es, answers, k - 1, r, t, n);
      ConnAfterOneMore(c, s, es, answers, k - 1, n, r.conns[n], t.conns[n]);
    }
  }

  /** A turn of the outer loop dispatches the whole batch: if the process runs on, every connection there was
      has made exactly the transfer its entry was ready for, and those without an entry made none. */
  lemma TurnMakesAllTransfers(c: Config, s: State, es: seq<Entry>, answers: Answers, t: State, n: nat)
    requires Reachable(c, s) && Next(c, s, Turn(es, answers)) == Some(t) && t.exit == Running && n < |s.conns|
    ensures |answers| == |es| && n < |t.conns| && ConnAfter(c, s, es, answers, |es|, n, t.conns[n])
  {
    ConnsAfter(c, s, es, answers, |es|, t, n);
  }

  /** How many of the first k entries bring a connection. */
  function Accepted(c: Config, es: seq<Entry>, answers: Answers, k: nat): nat
    requires |answers| == |es| && k <= |es|
  {
    if k == 0 then 0
    else Accepted(c, es, answers, k - 1) + if Accepts(c, es[k - 1], answers[k - 1].0) then 1 else 0
  }

  lemma {:induction false} AcceptedAfter(c: Config, s: State, es: seq<Entry>, answers: Answers, k: nat, t: State)
    requires InBatch(c, s, es, answers, k, t)
    ensures |answers| == |es| && k <= |es| && |t.conns| == |s.conns| + Accepted(c, es, answers, k)
    decreases k
  {
    hide Inv, InBatch, BatchOk, Accepts;
    if k == 0 {
      NothingYet(c, s, es, answers, t);
    } else {
      var r := BatchBefore(c, s, es, answers, k - 1, t);
      AcceptedAfter(c, s, es, answers, k - 1, r);
      EntryAccepts(c, s, es, answers, k - 1, r, t);
    }
  }

  lemma EntryAccepts(c: Config, s: State, es: seq<Entry>, answers: Answers, k: nat, t: State, u: State)
    requires InBatch(c, s, es, answers, k, t) && k < |es| && InBatch(c, s, es, answers, k + 1, u)
    ensures |answers| == |es|
    ensures |u.conns| == |t.conns| + if Accepts(c, es[k], answers[k].0) then 1 else 0
  {
    DroppedIffFull(c, s, es, answers, k, t);
    hide Reachable, BatchOk, AnswerOk, Accepts;
  }

  lemma NothingYet(c: Config, s: State, es: seq<Entry>, answers: Answers, t: State)
    requires InBatch(c, s, es, answers, 0, t)
    ensures |answers| == |es| && t == s
  {
    hide Reachable, BatchOk, AnswerOk;
  }

  /** And it has taken every connection that accept returned, dropped or not. */
  lemma TurnAcceptsAll(c: Config, s: State, es: seq<Entry>, answers: Answers, t: State)
    requires Reachable(c, s) && Next(c, s, Turn(es, answers)) == Some(t) && t.exit == Running
    ensures |answers| == |es| && |t.conns| == |s.conns| + Accepted(c, es, answers, |es|)
  {
    AcceptedAfter(c, s, es, answers, |es|, t);
  }

  /** The outer loop takes whatever epoll_wait may return, and stops only with the process. */
  lemma WhoCanMove(c: Config, s: State, a: Act)
    requires Reachable(c, s)
    ensures Next(c, s, a).Some? <==>
      s.exit == Running && (a.Turn? ==> BatchOk(s, a.es) && AnswersOk(c, s, a.es, a.answers))
    ensures Next(c, s, a).Some? ==>
      Next(c, s, a).value == if a.Turn? then After(c, s, a.es, a.answers, |a.es|) else s.(exit := WaitFailed)
  {
    ReachableInv(c, s);
    hide ConnInv, FdInv;
  }

  /** Does handling this entry fail, and how: only accept failing, or sending failing, ends the process. */
  lemma ExitsIff(c: Config, s: State, es: seq<Entry>, answers: Answers, k: nat, t: State)
    requires InBatch(c, s, es, answers, k, t) && k < |es|
    ensures Shaped(c, t) && es[k].slot <= c.max
    ensures var i := es[k].slot; var u := After(c, s, es, answers, k + 1);
      && (u.exit == AcceptFailed <==> i == c.max && CallsFirst(t, es[k]) && answers[k].0.fd < 0)
      && (u.exit == DeleteFailed <==> i < c.max && CallsSecond(t, es[k]) && answers[k].1.len <= 0)
      && (u.exit == Running || u.exit == AcceptFailed || u.exit == DeleteFailed)
  {
    NoStaleEntry(c, s, es, answers, k, t);
    InBatchInv(c, s, es, answers, k, t);
    FreshHasSlot(c, t, es[k]);
    assert AnswerOk(t, answers[k].0) && AnswerOk(t, answers[k].1);
    HandleExitsIff(c, t, es[k], answers[k].0, answers[k].1);
  }

  /** When a send fails the first eventdel succeeds, and the second, which asks for a modification with a null
      event, is the call that ends the process: before the close, so the descriptor is still open. */
  lemma FailedSendExits(c: Config, s: State, es: seq<Entry>, answers: Answers, k: nat, t: State)
    requires InBatch(c, s, es, answers, k, t) && k < |es| && After(c, s, es, answers, k + 1).exit == DeleteFailed
    ensures var i, u := es[k].slot, After(c, s, es, answers, k + 1);
      && Shaped(c, t) && i < c.max && t.slots[i].status && t.slots[i].callback == OnSend
      && Deleted(t, i).exit == Running && u == Deleted(Deleted(t, i), i)
      && t.slots[i].fd in u.open && t.slots[i].fd !in u.interest
  {
    NoStaleEntry(c, s, es, answers, k, t);
    InBatchInv(c, s, es, answers, k, t);
    OneCallPerEntry(c, s, es, answers, k, t);
    ExitsIff(c, s, es, answers, k, t);
    FreshCallback(c, t, es[k]);
    SendEffect(c, t, es[k].slot, answers[k].1.len);
    hide InBatch, After, Accept, Recv, Send, ConnInv, FdInv;
  }

  lemma HandleExitsIff(c: Config, s: State, e: Entry, a: Answer, b: Answer)
    requires Inv(c, s) && s.exit == Running && Fresh(c, s, e) && AnswerOk(s, a) && AnswerOk(s, b)
    ensures var u := Handle(c, s, e, a, b);
      && (u.exit == AcceptFailed <==> e.slot == c.max && CallsFirst(s, e) && a.fd < 0)
      && (u.exit == DeleteFailed <==> e.slot < c.max && CallsSecond(s, e) && b.len <= 0)
      && (u.exit == Running || u.exit == AcceptFailed || u.exit == DeleteFailed)
  {
    AtMostOneCall(c, s, e, a, b);
    assert e.slot < c.max ==> Client(s.slots[e.slot]);
    CallExitsIff(c, s, e.slot, a);
    CallExitsIff(c, s, e.slot, b);
    hide ConnInv, FdInv, Call, Handle, HandleIn;
  }

  // ---------------------------------------------------------------------------------------------
  // What every live run may still come to
  // ---------------------------------------------------------------------------------------------

  lemma {:induction false} UnusedFd(open: set<int>) returns (fd: int)
    ensures fd >= 0 && forall x | x in open :: x < fd
    decreases |open|
  {
    if x :| x in open {
      var below := UnusedFd(open - {x});
      fd := if x >= below then x + 1 else below;
      assert forall y | y in open :: y == x || y in open - {x};
    } else {
      fd := 0;
    }
  }

  /** A batch of one entry. */
  lemma OneTurn(c: Config, s: State, e: Entry, a: Answer) returns (t: State)
    requires Reachable(c, s) && s.exit == Running && BatchOk(s, [e]) && AnswerOk(s, a)
    ensures Shaped(c, s) && e.slot <= c.max && t == EntryEffect(c, s, e, a, a)
    ensures Reaches(System(c), s, t) && Reachable(c, t) && (t.exit == Running ==> Inv(c, t))
  {
    ReachableInv(c, s);
    BatchIsFresh(c, s, [e], 0);
    FreshHasSlot(c, s, e);
    HandleEffect(c, s, e, a, a);
    hide Inv, Fresh, BatchOk, AnswerOk, EntryEffect, Handle;
    var answers := [(a, a)];
    assert After(c, s, [e], answers, 0) == s;
    t := After(c, s, [e], answers, 1);
    assert AnswersOk(c, s, [e], answers);
    ReachesStep(System(c), s, Turn([e], answers), t);
    ReachesTrans(System(c), Init(c), s, t);
    ReachableInv(c, t);
  }

  /** A connection comes in, on any descriptor that is not open. */
  lemma AcceptTurn(c: Config, s: State) returns (t: State, fd: int)
    requires Reachable(c, s) && s.exit == Running
    ensures Reaches(System(c), s, t) && Reachable(c, t) && Inv(c, s) && Inv(c, t) && fd >= 0 && fd !in s.open
    ensures t.exit == Running && t == Accept(c, s, fd)
  {
    ReachableInv(c, s);
    fd := UnusedFd(s.open);
    t := OneTurn(c, s, Entry(c.lfd, c.max, true, false), Answer(0, fd));
    AcceptEffect(c, s, fd);
    hide ConnInv, FdInv, Reachable;
  }

  /** The connection of slot i can receive. */
  lemma RecvTurn(c: Config, s: State, i: nat) returns (t: State)
    requires Reachable(c, s) && s.exit == Running && InUse(c, s, i) && s.slots[i].callback == OnRecv
    ensures Reaches(System(c), s, t) && Reachable(c, t)
    ensures t.exit == Running && InUse(c, t, i) && t.slots[i].callback == OnSend
  {
    ReachableInv(c, s);
    assert Client(s.slots[i]);
    t := OneTurn(c, s, Entry(s.slots[i].fd, i, true, false), Answer(1, -1));
    RecvEffect(c, s, i, 1);
    hide ConnInv, FdInv, Reachable, Recv;
  }

  /** And its send can fail. */
  lemma FailedSendTurn(c: Config, s: State, i: nat) returns (t: State)
    requires Reachable(c, s) && s.exit == Running && InUse(c, s, i) && s.slots[i].callback == OnSend
    ensures Reaches(System(c), s, t) && t.exit == DeleteFailed
  {
    ReachableInv(c, s);
    assert Client(s.slots[i]);
    t := OneTurn(c, s, Entry(s.slots[i].fd, i, false, true), Answer(-1, -1));
    SendEffect(c, s, i, -1);
    hide ConnInv, FdInv, Reachable, Send;
  }

  /** From every point between two batches of a live run, unless there are no client slots, a send may fail
      and so the process exit: of a connection there is, or of one that comes. */
  lemma SendCanFail(c: Config, s: State) returns (t: State)
    requires Reachable(c, s) && s.exit == Running && c.max > 0
    ensures Reaches(System(c), s, t) && t.exit == DeleteFailed
  {
    ReachableInv(c, s);
    ReachesSelf(System(c), s);
    var u, i := s, 0;
    if k: nat :| k < c.max && s.slots[k].status {
      i := k;
    } else {
      var fd;
      u, fd := AcceptTurn(c, s);
      AcceptEffect(c, s, fd);
    }
    ClientCallback(c, u, i);
    hide Inv, Reachable;
    if u.slots[i].callback == OnRecv {
      var v := RecvTurn(c, u, i);
      ReachesTrans(System(c), s, u, v);
      u := v;
    }
    t := FailedSendTurn(c, u, i);
    ReachesTrans(System(c), s, u, t);
  }

  lemma ClientCallback(c: Config, s: State, i: nat)
    requires Inv(c, s) && InUse(c, s, i)
    ensures s.slots[i].callback == OnRecv || s.slots[i].callback == OnSend
  {
    assert Client(s.slots[i]);
  }

  function FreeSlots(c: Config, s: State): set<nat>
    requires Shaped(c, s)
  {
    set i: nat | i < c.max && !s.slots[i].status
  }

  /** A connection that comes is dropped, or there is one free slot less. */
  lemma OneMore(c: Config, s: State) returns (t: State)
    requires Reachable(c, s) && s.exit == Running
    ensures Reaches(System(c), s, t) && Reachable(c, t) && t.exit == Running && Shaped(c, s) && Shaped(c, t)
    ensures |t.conns| == |s.conns| + 1
    ensures t.conns[|s.conns|].fate == Dropped || |FreeSlots(c, t)| < |FreeSlots(c, s)|
  {
    var fd;
    t, fd := AcceptTurn(c, s);
    AcceptEffect(c, s, fd);
    assert Shaped(c, s) && Shaped(c, t);
    hide Inv, Reachable, Accept, FreeSlots, Reaches;
    var k := FirstFree(s.slots, 0, c.max);
    if k < c.max {
      PlacedFillsSlot(c, s, fd, k);
    }
  }

  lemma PlacedFillsSlot(c: Config, s: State, fd: int, k: nat)
    requires Shaped(c, s) && k < c.max && !s.slots[k].status
    ensures Shaped(c, Placed(s, fd, k)) && |FreeSlots(c, Placed(s, fd, k))| < |FreeSlots(c, s)|
  {
    assert FreeSlots(c, Placed(s, fd, k)) == FreeSlots(c, s) - {k};
  }

  /** And from every such point connections may come until the table is full and one more is dropped. */
  lemma {:induction false} CanDrop(c: Config, s: State) returns (t: State)
    requires Reachable(c, s) && s.exit == Running && Shaped(c, s)
    ensures Reaches(System(c), s, t) && t.exit == Running && |t.conns| > |s.conns|
    ensures t.conns[|t.conns| - 1].fate == Dropped
    decreases |FreeSlots(c, s)|
  {
    hide Reachable, FreeSlots;
    t := OneMore(c, s);
    if t.conns[|s.conns|].fate != Dropped {
      var u := t;
      t := CanDrop(c, u);
      ReachesTrans(System(c), s, u, t);
    }
  }

  // ---------------------------------------------------------------------------------------------
  // The program on its own variables
  // ---------------------------------------------------------------------------------------------

  /** The globals of the process.  The functions of the file are methods; one that calls errExit leaves
      the object with `exit` set, and its callers return. */
  class Process {
    const c: Config
    var events: array<Slot>
    var interest: map<int, Registration>
    var open: set<int>
    var exit: Exit
    ghost var conns: seq<Conn>
    ghost var owner: seq<nat>

    ghost predicate Valid() reads this { events.Length == c.max + 1 && |owner| == c.max + 1 }

    ghost function View(): (s: State)
      reads this, events
      ensures Valid() ==> Shaped(c, s)
    {
      State(events[..], interest, open, exit, conns, owner)
    }

    constructor (c: Config)
      ensures Valid() && fresh(events) && this.c == c && View() == Init(c)
    {
      this.c := c;
      events := new Slot[c.max + 1](i => if i == c.max then Slot(c.lfd, In, true, OnAccept) else EMPTY);
      interest, open, exit := map[c.lfd := Registration(In, c.max)], c.others + {c.lfd}, Running;
      conns, owner := [], seq(c.max + 1, _ => 0);
      new;
      assert events[..] == Init(c).slots;
    }

    method EventAdd(i: nat)
      requires Valid() && i <= c.max
      modifies this`interest, this`exit, events
      ensures Valid() && View() == Added(old(View()), i)
    {
      var op := Mod;
      if !events[i].status {
        op := Add;
        events[i] := events[i].(status := true);
      }
      var ret := Control(interest, op, events[i].fd, Some(Registration(events[i].events, i)));
      if ret == None { exit := AddFailed; } else { interest := ret.value; }
      assert events[..] == old(events[..])[i := old(events[i]).(status := true)];
    }

    method EventDel(i: nat)
      requires Valid() && i <= c.max
      modifies this`interest, this`exit, events
      ensures Valid() && View() == Deleted(old(View()), i)
    {
      var op := Mod;
      if events[i].status {
        events[i] := events[i].(status := false);
        op := Del;
      }
      var ret := Control(interest, op, events[i].fd, None);
      if ret == None { exit := DeleteFailed; } else { interest := ret.value; }
      assert events[..] == old(events[..])[i := old(events[i]).(status := false)];
    }

    method CloseOf(i: nat)
      requires Valid() && i <= c.max
      modifies this`open, this`interest, this`conns
      ensures View() == MarkClosed(Close(old(View()), old(events[i]).fd), i)
    {
      var fd := events[i].fd;
      open, interest := open - {fd}, interest - {fd};
      conns := MarkClosed(View(), i).conns;
    }

    method RecvData(i: nat, len: int)
      requires Valid() && i <= c.max && exit == Running
      modifies this`interest, this`exit, this`open, this`conns, events
      ensures Valid() && View() == Recv(old(View()), i, len)
    {
      EventDel(i);
      if exit != Running { return; }
      if len > 0 {
        events[i] := events[i].(callback := OnSend);
        events[i] := events[i].(events := Out);
        assert events[..] == Deleted(old(View()), i).slots[i := events[i]];
        conns := Log(View(), i, Received).conns;
        EventAdd(i);
      } else {
        CloseOf(i);
      }
    }

    method SendData(i: nat, len: int)
      requires Valid() && i <= c.max && exit == Running
      modifies this`interest, this`exit, this`open, this`conns, events
      ensures Valid() && View() == Send(old(View()), i, len)
    {
      EventDel(i);
      if exit != Running { return; }
      if len > 0 {
        events[i] := events[i].(callback := OnRecv);
        events[i] := events[i].(events := In);
        assert events[..] == Deleted(old(View()), i).slots[i := events[i]];
        conns := Log(View(), i, Sent).conns;
        EventAdd(i);
      } else {
        EventDel(i);
        if exit != Running { return; }
        CloseOf(i);
      }
    }

    method AcceptConnection(fd: int)
      requires Valid() && exit == Running
      modifies this`interest, this`exit, this`open, this`conns, this`owner, events
      ensures Valid() && View() == Accept(c, old(View()), fd)
    {
      if fd < 0 {
        exit := AcceptFailed;
        return;
      }
      open := open + {fd};
      var i := 0;
      while i < c.max && events[i].status
        invariant i <= c.max && events[..] == old(events[..])
        invariant FirstFree(events[..], 0, c.max) == FirstFree(events[..], i, c.max)
      {
        i := i + 1;
      }
      if i < c.max {
        events[i] := events[i].(fd := fd, events := In, status := false);
        EventAdd(i);
        if exit != Running { return; }
        events[i] := events[i].(callback := OnRecv);
        owner := owner[i := |conns|];
        conns := conns + [Conn(fd, Registered(i), [])];
      } else {
        conns := conns + [Conn(fd, Dropped, [])];
      }
    }

    method CallBack(i: nat, a: Answer)
      requires Valid() && i <= c.max && exit == Running
      modifies this`interest, this`exit, this`open, this`conns, this`owner, events
      ensures Valid() && View() == Call(c, old(View()), i, a)
    {
      match events[i].callback
      case Null => exit := NullCalled;
      case OnAccept => AcceptConnection(a.fd);
      case OnRecv => RecvData(i, a.len);
      case OnSend => SendData(i, a.len);
    }

    /** The dispatch loop of main over one batch. */
    method Dispatch(es: seq<Entry>, answers: Answers)
      requires Valid() && exit == Running && |answers| == |es| && forall j | 0 <= j < |es| :: es[j].slot <= c.max
      modifies this`interest, this`exit, this`open, this`conns, this`owner, events
      ensures Valid() && View() == After(c, old(View()), es, answers, |es|)
    {
      var i := 0;
      while i < |es| && exit == Running
        invariant i <= |es| && Valid()
        invariant View() == After(c, old(View()), es, answers, i)
      {
        DispatchEntry(es[i], answers[i].0, answers[i].1);
        i := i + 1;
      }
      if i < |es| {
        ExitEndsTheBatch(c, old(View()), es, answers, i);
      }
    }

    method DispatchEntry(e: Entry, a: Answer, b: Answer)
      requires Valid() && exit == Running && e.slot <= c.max
      modifies this`interest, this`exit, this`open, this`conns, this`owner, events
      ensures Valid() && View() == Handle(c, old(View()), e, a, b)
    {
      hide Call;
      if events[e.slot].events == In && e.readyIn {
        CallBack(e.slot, a);
        if exit != Running { return; }
      }
      if events[e.slot].events == Out && e.readyOut {
        CallBack(e.slot, b);
      }
    }
  }

  lemma {:induction false} ExitEndsTheBatch(c: Config, s: State, es: seq<Entry>, answers: Answers, k: nat)
    requires Fits(c, s, es, answers) && k <= |es|
    requires After(c, s, es, answers, k).exit != Running
    ensures After(c, s, es, answers, |es|) == After(c, s, es, answers, k)
    decreases |es| - k
  {
    if k < |es| {
      assert After(c, s, es, answers, k + 1) == After(c, s, es, answers, k);
      ExitEndsTheBatch(c, s, es, answers, k + 1);
    }
  }
}
