/** webprogramming/HSocket.c: WriteN at one end of a stream and ReadN at the other at the same time.  One step
    is one call of write or read with the loop body around it; FullTransfer has the loops in place.

    What the kernel makes of each call is part of the step, so a schedule gives the interleaving, the
    fragmentation at both ends and the interruptions.  A read that finds the stream empty waits for the
    writer, until that end is closed. */
module ConcurrentTransfer {
  import opened FullTransfer
  import opened Runs

  /** The written buffer, and what the read buffer holds before. */
  datatype Config = Config(data: seq<Byte>, buf: seq<Byte>)

  datatype Act = Write(o: Outcome) | Read(o: Outcome) | Close

  /** `sent` and `got` are how far the two loops are, `bytes` what is in between; `ended` says that read
      returned zero. */
  datatype State = State(
    sent: nat, writeFailed: bool, closed: bool, bytes: seq<Byte>,
    buf: seq<Byte>, got: nat, ended: bool, readFailed: bool)

  function Init(c: Config): State { State(0, false, false, [], c.buf, 0, false, false) }

  predicate WriterDone(c: Config, s: State) { s.writeFailed || s.sent >= |c.data| }

  predicate ReaderDone(s: State) { s.readFailed || s.ended || s.got >= |s.buf| }

  function WriteNext(c: Config, s: State, o: Outcome): Option<State> {
    if WriterDone(c, s) then None
    else
      var r := WriteCall([o], |c.data| - s.sent);
      if r.n <= 0 then
        if r.n < 0 && r.eintr then Some(s) else Some(s.(writeFailed := true))
      else
        Some(s.(sent := s.sent + r.n, bytes := s.bytes + c.data[s.sent..s.sent + r.n]))
  }

  /** The next n bytes are stored behind the filled part of the read buffer. */
  function Arrived(s: State, n: nat): (t: State)
    requires n <= |s.bytes| && s.got + n <= |s.buf|
    ensures t.got == s.got + n && |t.bytes| == |s.bytes| - n && |t.buf| == |s.buf|
    ensures t.sent == s.sent && t.writeFailed == s.writeFailed && t.closed == s.closed && t.ended == s.ended
  {
    s.(got := s.got + n, bytes := s.bytes[n..], buf := Patched(s.buf, s.got, s.bytes[..n]))
  }

  function ReadNext(s: State, o: Outcome): Option<State> {
    if ReaderDone(s) || (s.bytes == [] && !s.closed && o.Moves?) then None
    else
      var r := ReadCall([o], |s.bytes|, |s.buf| - s.got);
      if r.n < 0 then
        if r.eintr then Some(s) else Some(s.(readFailed := true))
      else if r.n == 0 then Some(s.(ended := true))
      else Some(Arrived(s, r.n))
  }

  function Next(c: Config, s: State, a: Act): Option<State> {
    match a
    case Write(o) => WriteNext(c, s, o)
    case Read(o) => ReadNext(s, o)
    case Close => if WriterDone(c, s) && !s.closed then Some(s.(closed := true)) else None
  }

  function System(c: Config): (State, Act) -> Option<State> {
    (s, a) => Next(c, s, a)
  }

  ghost predicate Reachable(c: Config, s: State) { Reaches(System(c), Init(c), s) }

  // ---------------------------------------------------------------------------------------------
  // What holds at every moment
  // ---------------------------------------------------------------------------------------------

  ghost predicate BytesInv(c: Config, s: State) {
    && s.got <= s.sent <= |c.data| && s.got <= |c.buf| == |s.buf| && |s.bytes| == s.sent - s.got
    && s.bytes == c.data[s.got..s.sent]
    && s.buf == c.data[..s.got] + c.buf[s.got..]
  }

  ghost predicate Inv(c: Config, s: State) {
    && BytesInv(c, s) && s.got <= s.sent <= |c.data| && s.got <= |c.buf| == |s.buf| && |s.bytes| == s.sent - s.got
    && (s.writeFailed ==> s.sent < |c.data|)
    && (s.closed ==> WriterDone(c, s))
    && (s.ended ==> s.closed && s.got == s.sent)
  }

  /** n more bytes are on the way. */
  lemma PieceLeaves(c: Config, s: State, n: nat)
    requires BytesInv(c, s) && s.sent + n <= |c.data|
    ensures BytesInv(c, s.(sent := s.sent + n, bytes := s.bytes + c.data[s.sent..s.sent + n]))
  {
    assert c.data[s.got..s.sent + n] == c.data[s.got..s.sent] + c.data[s.sent..s.sent + n];
  }

  lemma PieceArrives(c: Config, s: State, n: nat)
    requires BytesInv(c, s) && n <= |s.bytes| && s.got + n <= |s.buf|
    ensures BytesInv(c, Arrived(s, n))
  {
    assert c.data[s.got..s.sent][..n] == c.data[s.got..s.got + n];
    assert c.data[..s.got] + c.data[s.got..s.got + n] == c.data[..s.got + n];
    assert c.data[s.got..s.sent][n..] == c.data[s.got + n..s.sent];
  }

  lemma WriteKeepsInv(c: Config, s: State, o: Outcome)
    requires Inv(c, s) && WriteNext(c, s, o).Some?
    ensures Inv(c, WriteNext(c, s, o).value)
  {
    var t := WriteNext(c, s, o).value;
    PieceLeaves(c, s, t.sent - s.sent);
    hide BytesInv, WriteCall;
    if t.sent == s.sent {
      SameBytes(c, s, t);
    }
  }

  /** A read moves n bytes, or fails, or finds the end of a closed stream, or is interrupted. */
  lemma ReadMoves(s: State, o: Outcome) returns (n: nat)
    requires ReadNext(s, o).Some?
    ensures !s.ended && n <= |s.bytes| && s.got + n <= |s.buf|
    ensures var t := ReadNext(s, o).value;
      if n > 0 then t == Arrived(s, n)
      else t == s || t == s.(readFailed := true) || (t == s.(ended := true) && s.closed && |s.bytes| == 0)
  {
    ZeroIsTheEnd(o, |s.bytes|, |s.buf| - s.got);
    hide ReadCall, Arrived;
    var r := ReadCall([o], |s.bytes|, |s.buf| - s.got);
    n := if r.n > 0 then r.n else 0;
  }

  lemma ReadKeepsInv(c: Config, s: State, o: Outcome)
    requires Inv(c, s) && ReadNext(s, o).Some?
    ensures Inv(c, ReadNext(s, o).value)
  {
    var t := ReadNext(s, o).value;
    var n := ReadMoves(s, o);
    hide BytesInv, Arrived, ReadNext;
    if n > 0 {
      PieceArrives(c, s, n);
    } else {
      SameBytes(c, s, t);
    }
  }

  lemma SameBytes(c: Config, s: State, t: State)
    requires t.sent == s.sent && t.got == s.got && t.bytes == s.bytes && t.buf == s.buf
    ensures BytesInv(c, s) == BytesInv(c, t)
  {
  }

  lemma ZeroIsTheEnd(o: Outcome, avail: nat, count: nat)
    ensures ReadCall([o], avail, count).n >= 0 ==> o.Moves?
    ensures ReadCall([o], avail, count).n == 0 ==> avail == 0 || count == 0
  {
  }

  lemma KeepsInv(c: Config, s: State, a: Act)
    requires Inv(c, s) && Next(c, s, a).Some?
    ensures Inv(c, Next(c, s, a).value)
  {
    match a
    case Write(o) => WriteKeepsInv(c, s, o);
    case Read(o) => ReadKeepsInv(c, s, o);
    case Close =>
  }

  lemma ReachableInv(c: Config, s: State)
    requires Reachable(c, s)
    ensures Inv(c, s)
  {
    assert Inv(c, Init(c));
    hide Inv, Next;
    var sched: seq<Act> :| Exec(System(c), Init(c), sched) == Some(s);
    forall t: State, a: Act | Inv(c, t) && System(c)(t, a).Some? ensures Inv(c, System(c)(t, a).value) {
      KeepsInv(c, t, a);
    }
    InvariantHolds(System(c), t => Inv(c, t), Init(c), sched);
  }

  /** At every moment of every interleaving the read buffer holds a prefix of what was written, its rest is
      as it was, and the bytes on the way are the ones in between. */
  lemma ReadsAreWritten(c: Config, s: State)
    requires Reachable(c, s)
    ensures s.got <= s.sent <= |c.data| && s.got <= |c.buf|
    ensures s.buf == c.data[..s.got] + c.buf[s.got..] && s.bytes == c.data[s.got..s.sent]
  {
    ReachableInv(c, s);
  }

  /** A call made by a loop that is not left moves as many bytes as the kernel offers and there are, and fails
      exactly when the kernel fails it or takes nothing; an interrupted one changes nothing. */
  lemma WritesMove(c: Config, s: State, o: Outcome)
    requires Reachable(c, s)
    ensures Next(c, s, Write(o)).Some? <==> !WriterDone(c, s)
    ensures s.sent <= |c.data|
    ensures !WriterDone(c, s) ==>
      var t := Next(c, s, Write(o)).value;
      && t.sent == s.sent + (if o.Moves? then Min(o.n, |c.data| - s.sent) else 0)
      && (t.writeFailed <==> WriteFault(o)) && (t.readFailed <==> s.readFailed) && t.ended == s.ended
      && t.got == s.got && t.buf == s.buf && t.closed == s.closed
  {
    ReachableInv(c, s);
    hide BytesInv;
  }

  lemma ReadsMove(c: Config, s: State, o: Outcome)
    requires Reachable(c, s)
    ensures Next(c, s, Read(o)).Some? <==> !ReaderDone(s) && (s.bytes == [] && !s.closed ==> !o.Moves?)
    ensures s.got <= |s.buf|
    ensures Next(c, s, Read(o)).Some? ==>
      var t := Next(c, s, Read(o)).value;
      && t.got == s.got + (if o.Moves? then Min(AtLeastOne(o.n), Min(|s.bytes|, |s.buf| - s.got)) else 0)
      && (t.readFailed <==> o == Fails) && (t.ended <==> o.Moves? && s.bytes == [])
      && t.sent == s.sent && t.writeFailed == s.writeFailed && t.closed == s.closed
  {
    ReachableInv(c, s);
    hide BytesInv;
  }

  /** The writer's end can be closed exactly once it is through, and that moves nothing. */
  lemma CloseMovesNothing(c: Config, s: State)
    requires Reachable(c, s)
    ensures Next(c, s, Close).Some? <==> WriterDone(c, s) && !s.closed
    ensures Next(c, s, Close).Some? ==> Next(c, s, Close).value == s.(closed := true)
  {
  }

  /** ReadN returns fewer bytes than it was asked for only when the writer is through and closed its end, and
      then it has all that was sent. */
  lemma ShortReadsAreAtTheEnd(c: Config, s: State)
    requires Reachable(c, s) && ReaderDone(s) && !s.readFailed && s.got < |c.buf|
    ensures s.closed && WriterDone(c, s) && s.got == s.sent && s.bytes == []
  {
    ReachableInv(c, s);
  }

  /** When both have succeeded the read buffer holds as much of the written one as fits. */
  lemma Delivered(c: Config, s: State)
    requires Reachable(c, s) && WriterDone(c, s) && ReaderDone(s) && !s.writeFailed && !s.readFailed
    ensures s.got == Min(|c.data|, |c.buf|) && s.buf == c.data[..s.got] + c.buf[s.got..]
    ensures |c.data| == |c.buf| ==> s.buf == c.data && s.bytes == []
  {
    ReachableInv(c, s);
  }

  lemma {:induction false} FailuresFrom(c: Config, s: State, sched: seq<Act>)
    requires Exec(System(c), s, sched).Some?
    ensures var t := Exec(System(c), s, sched).value;
      && (t.readFailed <==> s.readFailed || Read(Fails) in sched)
      && (t.writeFailed <==> s.writeFailed || exists o :: WriteFault(o) && Write(o) in sched)
    decreases |sched|
  {
    if sched != [] {
      var u := Next(c, s, sched[0]).value;
      assert System(c)(s, sched[0]) == Next(c, s, sched[0]);
      StepFails(c, s, sched[0]);
      hide Next;
      FailuresFrom(c, u, sched[1..]);
      assert sched == [sched[0]] + sched[1..];
    }
  }

  lemma StepFails(c: Config, s: State, a: Act)
    requires Next(c, s, a).Some?
    ensures Next(c, s, a).value.readFailed <==> s.readFailed || a == Read(Fails)
    ensures Next(c, s, a).value.writeFailed <==> s.writeFailed || (a.Write? && WriteFault(a.o))
  {
  }

  /** ReadN fails in a run exactly when some read of it failed, WriteN exactly when some write failed or
      took nothing. */
  lemma FailuresAreTheKernels(c: Config, sched: seq<Act>)
    requires Exec(System(c), Init(c), sched).Some?
    ensures var t := Exec(System(c), Init(c), sched).value;
      && (t.readFailed <==> Read(Fails) in sched)
      && (t.writeFailed <==> exists o :: WriteFault(o) && Write(o) in sched)
  {
    FailuresFrom(c, Init(c), sched);
  }

  // ---------------------------------------------------------------------------------------------
  // Every run ends
  // ---------------------------------------------------------------------------------------------

  function Measure(c: Config, s: State): nat {
    (if WriterDone(c, s) then 0 else |c.data| - s.sent) + (if ReaderDone(s) then 0 else |s.buf| - s.got)
    + if s.closed then 0 else 1
  }

  predicate IsInterruption(a: Act) { a == Write(Interrupted) || a == Read(Interrupted) }

  function Interruptions(sched: seq<Act>): nat {
    if sched == [] then 0 else (if IsInterruption(sched[0]) then 1 else 0) + Interruptions(sched[1..])
  }

  lemma StepDecreases(c: Config, s: State, a: Act)
    requires Inv(c, s) && Next(c, s, a).Some?
    ensures if IsInterruption(a) then Next(c, s, a).value == s else Measure(c, Next(c, s, a).value) < Measure(c, s)
  {
  }

  lemma {:induction false} StepsFrom(c: Config, s: State, sched: seq<Act>)
    requires Inv(c, s) && Exec(System(c), s, sched).Some?
    ensures |sched| + Measure(c, Exec(System(c), s, sched).value) <= Measure(c, s) + Interruptions(sched)
    decreases |sched|
  {
    if sched != [] {
      hide Inv, Next, Measure;
      assert System(c)(s, sched[0]) == Next(c, s, sched[0]);
      KeepsInv(c, s, sched[0]);
      StepDecreases(c, s, sched[0]);
      StepsFrom(c, Next(c, s, sched[0]).value, sched[1..]);
    }
  }

  /** However the stream is cut up, and whoever goes first, both loops make at most one call for each byte
      besides the interrupted ones. */
  lemma RunsAreFinite(c: Config, sched: seq<Act>)
    requires Exec(System(c), Init(c), sched).Some?
    ensures |sched| <= |c.data| + |c.buf| + 1 + Interruptions(sched)
  {
    StepsFrom(c, Init(c), sched);
  }

  /** Nobody waits for ever: until both loops are left one of them can move a byte, or the writer's end can be
      closed, which is what the reader waits for. */
  lemma NeverStuck(c: Config, s: State) returns (a: Act)
    requires Reachable(c, s) && !(WriterDone(c, s) && ReaderDone(s))
    ensures a == Write(Moves(1)) || a == Close || a == Read(Moves(1))
    ensures Next(c, s, a).Some? && Measure(c, Next(c, s, a).value) < Measure(c, s)
    ensures var t := Next(c, s, a).value; t.writeFailed == s.writeFailed && t.readFailed == s.readFailed
  {
    ReachableInv(c, s);
    a := if !WriterDone(c, s) then Write(Moves(1)) else if !s.closed then Close else Read(Moves(1));
    StepDecreases(c, s, a);
  }

  /** From every state without a failure the transfer can still be completed. */
  lemma {:induction false} CanDeliver(c: Config, s: State) returns (t: State)
    requires Reachable(c, s) && !s.writeFailed && !s.readFailed
    ensures Reaches(System(c), s, t) && WriterDone(c, t) && ReaderDone(t)
    ensures t.got == Min(|c.data|, |c.buf|) && t.buf == c.data[..t.got] + c.buf[t.got..]
    decreases Measure(c, s)
  {
    hide Measure, Next;
    if WriterDone(c, s) && ReaderDone(s) {
      t := s;
      ReachesSelf(System(c), s);
      Delivered(c, s);
    } else {
      var a := NeverStuck(c, s);
      var u := Next(c, s, a).value;
      ReachesStep(System(c), s, a, u);
      ReachesTrans(System(c), Init(c), s, u);
      t := CanDeliver(c, u);
      ReachesTrans(System(c), s, u, t);
    }
  }

  // ---------------------------------------------------------------------------------------------
  // The writer does not notice the reader
  // ---------------------------------------------------------------------------------------------

  /** What the kernel made of the writer's calls, in order. */
  function Writes(sched: seq<Act>): seq<Outcome> {
    if sched == [] then []
    else if sched[0].Write? then [sched[0].o] + Writes(sched[1..])
    else Writes(sched[1..])
  }

  lemma DoneWriterStops(c: Config, s: State, a: Act)
    requires WriterDone(c, s) && Next(c, s, a).Some?
    ensures !a.Write? && WriterDone(c, Next(c, s, a).value)
    ensures Next(c, s, a).value.sent == s.sent && Next(c, s, a).value.writeFailed == s.writeFailed
  {
  }

  lemma {:induction false} DoneWriterIsIdle(c: Config, s: State, sched: seq<Act>)
    requires WriterDone(c, s) && Exec(System(c), s, sched).Some?
    ensures var t := Exec(System(c), s, sched).value;
      Writes(sched) == [] && t.sent == s.sent && t.writeFailed == s.writeFailed
    decreases |sched|
  {
    if sched != [] {
      hide Next, WriterDone;
      assert System(c)(s, sched[0]) == Next(c, s, sched[0]);
      DoneWriterStops(c, s, sched[0]);
      DoneWriterIsIdle(c, Next(c, s, sched[0]).value, sched[1..]);
    }
  }

  lemma OthersDoNotWrite(c: Config, s: State, a: Act)
    requires !a.Write? && Next(c, s, a).Some?
    ensures Next(c, s, a).value.sent == s.sent && Next(c, s, a).value.writeFailed == s.writeFailed
  {
  }

  /** The writer's share of a step is one call of WriteAll. */
  lemma WriteStepIsCall(c: Config, s: State, o: Outcome, rest: seq<Outcome>)
    requires s.sent <= |c.data| && Next(c, s, Write(o)).Some?
    ensures var t := Next(c, s, Write(o)).value; var left := |c.data| - s.sent;
      && s.sent <= t.sent <= |c.data| && (t.writeFailed ==> t.sent == s.sent < |c.data|)
      && WriteAll([o] + rest, left) ==
           if t.writeFailed then Transfer(false, 0, rest)
           else var w := WriteAll(rest, |c.data| - t.sent); w.(moved := w.moved + (t.sent - s.sent))
  {
    assert ([o] + rest)[1..] == rest;
  }

  /** Whatever the reader does in between, a writer that gets through has done what WriteAll does with the
      outcomes of its own calls. */
  lemma {:induction false} WriterIsOblivious(c: Config, s: State, sched: seq<Act>)
    requires s.sent <= |c.data| && !s.writeFailed && Exec(System(c), s, sched).Some?
    requires WriterDone(c, Exec(System(c), s, sched).value)
    ensures var t := Exec(System(c), s, sched).value;
      t.sent >= s.sent && WriteAll(Writes(sched), |c.data| - s.sent) == Transfer(!t.writeFailed, t.sent - s.sent, [])
    decreases |sched|
  {
    hide Next, WriteAll;
    if WriterDone(c, s) {
      DoneWriterIsIdle(c, s, sched);
      NothingLeft([]);
    } else if sched != [] {
      var a, rest := sched[0], sched[1..];
      assert System(c)(s, a) == Next(c, s, a);
      var u := Next(c, s, a).value;
      if a.Write? {
        WriteStepIsCall(c, s, a.o, Writes(rest));
      } else {
        OthersDoNotWrite(c, s, a);
      }
      if u.writeFailed {
        DoneWriterIsIdle(c, u, rest);
      } else {
        WriterIsOblivious(c, u, rest);
      }
    }
  }

  lemma NothingLeft(script: seq<Outcome>)
    ensures WriteAll(script, 0) == Transfer(true, 0, script)
  {
  }

  /** So WriteN returns, and sends, the same in every interleaving. */
  lemma WriterReturnsAsAlone(c: Config, sched: seq<Act>)
    requires Exec(System(c), Init(c), sched).Some? && WriterDone(c, Exec(System(c), Init(c), sched).value)
    ensures var t := Exec(System(c), Init(c), sched).value;
      WriteAll(Writes(sched), |c.data|) == Transfer(!t.writeFailed, t.sent, [])
  {
    WriterIsOblivious(c, Init(c), sched);
  }
}
