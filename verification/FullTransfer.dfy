/** webprogramming/HSocket.c: WriteN and ReadN repeat write and read until all bytes are through, whatever
    pieces the kernel moves at a time and however often a signal interrupts it; Write and Read only hide
    the interruptions.

    The kernel is a channel with a script: the list of what its next calls do.  Every call that returns
    uses up finitely many of them, so the scripts cover every fragmentation and every finite pattern of
    EINTR. */
module FullTransfer {

  newtype Byte = x: int | 0 <= x < 256

  /** One call of write or read: move at most n bytes, fail with EINTR, or fail otherwise. */
  datatype Outcome = Moves(n: nat) | Interrupted | Fails

  /** What a call returns, -1 with errno == EINTR or not, and the script after it. */
  datatype Result = Result(n: int, eintr: bool, rest: seq<Outcome>)

  function Min(a: nat, b: nat): nat { if a < b then a else b }

  function AtLeastOne(n: nat): nat { if n == 0 then 1 else n }

  /** write of count bytes.  After its script the kernel takes everything. */
  function WriteCall(script: seq<Outcome>, count: nat): (r: Result)
    ensures -1 <= r.n <= count && (r.n <= 0 < count || r.n < 0 ==> |r.rest| < |script|) && |r.rest| <= |script|
  {
    if script == [] then Result(count, false, [])
    else match script[0]
      case Moves(n) => Result(Min(n, count), false, script[1..])
      case Interrupted => Result(-1, true, script[1..])
      case Fails => Result(-1, false, script[1..])
  }

  /** read of count bytes with `avail` left before the end of the stream: zero bytes only at the end. */
  function ReadCall(script: seq<Outcome>, avail: nat, count: nat): (r: Result)
    ensures -1 <= r.n <= avail && r.n <= count && (r.n < 0 ==> |r.rest| < |script|) && |r.rest| <= |script|
  {
    if script == [] then Result(Min(avail, count), false, [])
    else match script[0]
      case Moves(n) => Result(Min(AtLeastOne(n), Min(avail, count)), false, script[1..])
      case Interrupted => Result(-1, true, script[1..])
      case Fails => Result(-1, false, script[1..])
  }

  /** Whether a transfer ran to its end, how many bytes it moved, and the script after it. */
  datatype Transfer = Transfer(ok: bool, moved: nat, rest: seq<Outcome>)

  /** The calls that WriteN makes for `left` bytes. */
  function WriteAll(script: seq<Outcome>, left: nat): (t: Transfer)
    ensures t.moved <= left && (t.ok <==> t.moved == left)
    decreases |script| + left
  {
    if left == 0 then Transfer(true, 0, script)
    else
      var r := WriteCall(script, left);
      if r.n <= 0 then
        if r.n < 0 && r.eintr then WriteAll(r.rest, left) else Transfer(false, 0, r.rest)
      else
        var t := WriteAll(r.rest, left - r.n);
        t.(moved := t.moved + r.n)
  }

  /** The calls that ReadN makes for `left` bytes. */
  function ReadAll(script: seq<Outcome>, avail: nat, left: nat): (t: Transfer)
    ensures t.moved <= Min(avail, left) && (t.ok ==> t.moved == Min(avail, left))
    decreases |script| + left
  {
    if left == 0 then Transfer(true, 0, script)
    else
      var r := ReadCall(script, avail, left);
      if r.n < 0 then
        if r.eintr then ReadAll(r.rest, avail, left) else Transfer(false, 0, r.rest)
      else if r.n == 0 then Transfer(true, 0, r.rest)
      else
        var t := ReadAll(r.rest, avail - r.n, left - r.n);
        t.(moved := t.moved + r.n)
  }

  // ---------------------------------------------------------------------------------------------
  // When a transfer succeeds
  // ---------------------------------------------------------------------------------------------

  /** write gives up at a failure that is no interruption, and at a call that moves nothing. */
  predicate WriteFault(o: Outcome) { o == Fails || o == Moves(0) }

  function FirstFault(script: seq<Outcome>): (k: nat)
    ensures k <= |script| && (k < |script| ==> WriteFault(script[k]))
    ensures forall j | 0 <= j < k :: !WriteFault(script[j])
  {
    if script == [] || WriteFault(script[0]) then 0 else 1 + FirstFault(script[1..])
  }

  /** The bytes that a script without faults is willing to move. */
  function Offered(script: seq<Outcome>): nat {
    if script == [] then 0 else (if script[0].Moves? then script[0].n else 0) + Offered(script[1..])
  }

  /** WriteN succeeds exactly when no fault comes before the kernel has offered to take enough; otherwise
      it has written what was offered before the fault.  Interruptions play no part. */
  lemma {:induction false} WriteAllIff(script: seq<Outcome>, left: nat)
    ensures var k := FirstFault(script);
      && (WriteAll(script, left).ok <==> left == 0 || k == |script| || Offered(script[..k]) >= left)
      && (!WriteAll(script, left).ok ==> WriteAll(script, left).moved == Offered(script[..k]))
    decreases |script|
  {
    if left > 0 && script != [] && !WriteFault(script[0]) {
      var k := FirstFault(script);
      assert script[..k][1..] == script[1..][..k - 1];
      if script[0] == Interrupted {
        WriteAllIff(script[1..], left);
      } else {
        WriteAllIff(script[1..], left - Min(script[0].n, left));
      }
    }
  }

  /** A read script without failures never makes ReadN fail, so it reads up to the end of the stream. */
  lemma {:induction false} ReadAllSucceeds(script: seq<Outcome>, avail: nat, left: nat)
    requires Fails !in script
    ensures ReadAll(script, avail, left).ok
    decreases |script| + left
  {
    if left > 0 {
      var r := ReadCall(script, avail, left);
      if r.n < 0 {
        ReadAllSucceeds(r.rest, avail, left);
      } else if r.n > 0 {
        ReadAllSucceeds(r.rest, avail - r.n, left - r.n);
      }
    }
  }

  /** What a read script is willing to move: a read that is not at the end moves at least one byte. */
  function Readable(script: seq<Outcome>): nat {
    if script == [] then 0
    else (if script[0].Moves? then AtLeastOne(script[0].n) else 0) + Readable(script[1..])
  }

  function FirstFailure(script: seq<Outcome>): (k: nat)
    ensures k <= |script| && (k < |script| ==> script[k] == Fails) && Fails !in script[..k]
  {
    if script == [] || script[0] == Fails then 0 else 1 + FirstFailure(script[1..])
  }

  /** The script without failures gets `left` bytes through, or one more read after the last byte there is,
      which is how the end of the stream is noticed. */
  predicate ReadsEnough(script: seq<Outcome>, avail: nat, left: nat) {
    if left <= avail then Readable(script) >= left
    else exists j :: 0 <= j < |script| && script[j].Moves? && Readable(script[..j]) >= avail
  }

  lemma ReadsEnoughStep(script: seq<Outcome>, avail: nat, left: nat)
    requires script != [] && script[0] != Fails && left > 0
    ensures var r := ReadCall(script, avail, left);
      ReadsEnough(script, avail, left) <==>
        if script[0] == Interrupted then ReadsEnough(script[1..], avail, left)
        else r.n == 0 || ReadsEnough(script[1..], avail - r.n, left - r.n)
  {
    var rest := script[1..];
    forall j | 0 <= j < |rest| ensures Readable(script[..j + 1]) == Readable([script[0]]) + Readable(rest[..j]) {
      assert script[..j + 1][1..] == rest[..j];
    }
    if left > avail {
      if script[0].Moves? && avail == 0 {
        assert script[..0] == [];
      }
      var r := ReadCall(script, avail, left);
      var m := if script[0] == Interrupted then 0 else r.n;
      forall j | 0 <= j < |rest| && rest[j].Moves? && Readable(rest[..j]) >= avail - m
        ensures script[j + 1].Moves? && Readable(script[..j + 1]) >= avail
      {
      }
      forall j | 0 < j < |script| && script[j].Moves? && Readable(script[..j]) >= avail
        ensures rest[j - 1].Moves? && Readable(rest[..j - 1]) >= avail - m
      {
      }
    }
  }

  /** ReadN succeeds exactly when no failure comes before the script has moved sz bytes or found the end of
      the stream; if it fails it has moved what was readable before the failure. */
  lemma {:induction false} ReadAllIff(script: seq<Outcome>, avail: nat, left: nat)
    ensures var k := FirstFailure(script);
      && (ReadAll(script, avail, left).ok <==> left == 0 || k == |script| || ReadsEnough(script[..k], avail, left))
      && (!ReadAll(script, avail, left).ok ==> ReadAll(script, avail, left).moved == Min(avail, Readable(script[..k])))
    decreases |script|
  {
    var k := FirstFailure(script);
    if left > 0 && script != [] && script[0] != Fails {
      assert script[..k][1..] == script[1..][..k - 1];
      ReadsEnoughStep(script[..k], avail, left);
      var r := ReadCall(script, avail, left);
      if script[0] == Interrupted {
        ReadAllIff(script[1..], avail, left);
      } else if r.n > 0 {
        ReadAllIff(script[1..], avail - r.n, left - r.n);
      }
    }
  }

  /** Removing the interruptions from a script changes nothing that the callers of WriteN and ReadN can see. */
  function Calm(script: seq<Outcome>): seq<Outcome> {
    if script == [] then []
    else if script[0] == Interrupted then Calm(script[1..])
    else [script[0]] + Calm(script[1..])
  }

  /** The first call of a calm script is the first call that is not interrupted. */
  lemma CalmRead(script: seq<Outcome>, avail: nat, left: nat)
    requires script != []
    ensures var r := ReadCall(script, avail, left);
      && r.rest == script[1..]
      && (if script[0] == Interrupted then r.n == -1 && r.eintr && Calm(script) == Calm(script[1..])
          else !r.eintr && ReadCall(Calm(script), avail, left) == r.(rest := Calm(script[1..])))
  {
    assert script[0] != Interrupted ==> Calm(script)[1..] == Calm(script[1..]);
  }

  lemma {:induction false} ReadsIgnoreInterruptions(script: seq<Outcome>, avail: nat, left: nat)
    ensures ReadAll(Calm(script), avail, left).ok == ReadAll(script, avail, left).ok
    ensures ReadAll(Calm(script), avail, left).moved == ReadAll(script, avail, left).moved
    decreases |script|
  {
    if left > 0 && script != [] {
      hide ReadCall, Calm, Min;
      CalmRead(script, avail, left);
      var r := ReadCall(script, avail, left);
      if script[0] == Interrupted {
        ReadsIgnoreInterruptions(r.rest, avail, left);
      } else if r.n > 0 {
        ReadsIgnoreInterruptions(r.rest, avail - r.n, left - r.n);
      }
    }
  }

  lemma {:induction false} WritesIgnoreInterruptions(script: seq<Outcome>, left: nat)
    ensures WriteAll(Calm(script), left).ok == WriteAll(script, left).ok
    ensures WriteAll(Calm(script), left).moved == WriteAll(script, left).moved
    decreases |script|
  {
    if left > 0 && script != [] {
      var r := WriteCall(script, left);
      if script[0] == Interrupted {
        WritesIgnoreInterruptions(script[1..], left);
      } else {
        assert Calm(script)[1..] == Calm(script[1..]);
        if r.n > 0 {
          WritesIgnoreInterruptions(script[1..], left - r.n);
        }
      }
    }
  }

  /** The script from its first outcome that is no interruption, which is what Write and Read go by. */
  function AfterInterrupts(script: seq<Outcome>): seq<Outcome> {
    if script != [] && script[0] == Interrupted then AfterInterrupts(script[1..]) else script
  }

  lemma {:induction false} AfterInterruptsIsCalm(script: seq<Outcome>)
    ensures Calm(AfterInterrupts(script)) == Calm(script)
    ensures AfterInterrupts(script) == [] <==> Calm(script) == []
    ensures AfterInterrupts(script) != [] ==>
      && AfterInterrupts(script)[0] == Calm(script)[0] != Interrupted
      && Calm(AfterInterrupts(script)[1..]) == Calm(script)[1..]
  {
    if script != [] && script[0] == Interrupted {
      AfterInterruptsIsCalm(script[1..]);
    }
  }

  lemma InterruptedWrite(script: seq<Outcome>, count: nat)
    ensures var r := WriteCall(script, count);
      AfterInterrupts(script) == if r.n == -1 && r.eintr then AfterInterrupts(r.rest) else script
  {
  }

  lemma InterruptedRead(script: seq<Outcome>, avail: nat, count: nat)
    ensures var r := ReadCall(script, avail, count);
      AfterInterrupts(script) == if r.n == -1 && r.eintr then AfterInterrupts(r.rest) else script
  {
  }

  // ---------------------------------------------------------------------------------------------
  // The functions on buffers
  // ---------------------------------------------------------------------------------------------

  /** The buffer after `piece` was stored at position `from`. */
  function Patched(buf: seq<Byte>, from: nat, piece: seq<Byte>): (r: seq<Byte>)
    requires from + |piece| <= |buf|
    ensures |r| == |buf|
  {
    buf[..from] + piece + buf[from + |piece|..]
  }

  /** One byte stream: what was written and not yet read, and the scripts of its two ends. */
  class Channel {
    var bytes: seq<Byte>
    var writeScript: seq<Outcome>
    var readScript: seq<Outcome>

    constructor (writeScript: seq<Outcome>, readScript: seq<Outcome>)
      ensures bytes == [] && this.writeScript == writeScript && this.readScript == readScript
    {
      bytes, this.writeScript, this.readScript := [], writeScript, readScript;
    }

    /** write(2) */
    method SysWrite(buf: array<Byte>, from: nat, count: nat) returns (n: int, eintr: bool)
      requires from + count <= buf.Length
      modifies this`bytes, this`writeScript
      ensures WriteCall(old(writeScript), count) == Result(n, eintr, writeScript)
      ensures bytes == old(bytes) + if n > 0 then buf[from..from + n] else []
    {
      var r := WriteCall(writeScript, count);
      n, eintr, writeScript := r.n, r.eintr, r.rest;
      if n > 0 {
        bytes := bytes + buf[from..from + n];
      }
    }

    /** read(2) */
    method SysRead(buf: array<Byte>, from: nat, count: nat) returns (n: int, eintr: bool)
      requires from + count <= buf.Length
      modifies this`bytes, this`readScript, buf
      ensures ReadCall(old(readScript), |old(bytes)|, count) == Result(n, eintr, readScript)
      ensures if n > 0 then bytes == old(bytes)[n..] && buf[..] == Patched(old(buf[..]), from, old(bytes)[..n])
              else bytes == old(bytes) && buf[..] == old(buf[..])
    {
      var r := ReadCall(readScript, |bytes|, count);
      n, eintr, readScript := r.n, r.eintr, r.rest;
      if n > 0 {
        for k := 0 to n
          modifies buf
          invariant forall j | 0 <= j < buf.Length ::
            buf[j] == if from <= j < from + k then bytes[j - from] else old(buf[j])
        {
          buf[from + k] := bytes[k];
        }
        bytes := bytes[n..];
      }
    }

    /** Writes the whole buffer: sz means that exactly its bytes were appended, in order; -1 that a proper
        prefix of them was. */
    method WriteN(buf: array<Byte>, sz: nat) returns (r: int)
      requires sz <= buf.Length
      modifies this`bytes, this`writeScript
      ensures var t := WriteAll(old(writeScript), sz);
        && r == (if t.ok then sz else -1)
        && bytes == old(bytes) + buf[..t.moved] && writeScript == t.rest
      ensures r == sz ==> bytes == old(bytes) + buf[..sz]
      ensures r == -1 <==> |bytes| < |old(bytes)| + sz
    {
      hide WriteCall;
      var nleft, ptr := sz, 0;
      while nleft > 0
        invariant 0 <= nleft && 0 <= ptr && nleft + ptr == sz && bytes == old(bytes) + buf[..ptr]
        invariant WriteAll(old(writeScript), sz)
               == WriteAll(writeScript, nleft).(moved := WriteAll(writeScript, nleft).moved + ptr)
        decreases |writeScript| + nleft
      {
        var nwritten, eintr := SysWrite(buf, ptr, nleft);
        if nwritten <= 0 {
          if nwritten < 0 && eintr {
            nwritten := 0;
          } else {
            return -1;
          }
        }
        assert buf[..ptr] + buf[ptr..ptr + nwritten] == buf[..ptr + nwritten];
        nleft := nleft - nwritten;
        ptr := ptr + nwritten;
      }
      return sz;
    }

    /** Reads sz bytes, fewer only at the end of the stream: fills exactly the returned prefix of the
        buffer with the next bytes and leaves the rest of it alone. */
    method ReadN(buf: array<Byte>, sz: nat) returns (r: int)
      requires sz <= buf.Length
      modifies this`bytes, this`readScript, buf
      ensures var t := ReadAll(old(readScript), |old(bytes)|, sz);
        && r == (if t.ok then t.moved else -1) && readScript == t.rest
        && bytes == old(bytes)[t.moved..] && buf[..] == Patched(old(buf[..]), 0, old(bytes)[..t.moved])
      ensures 0 <= r < sz ==> r == |old(bytes)| && bytes == []
      ensures r >= 0 ==> buf[..r] == old(bytes)[..r] && buf[r..] == old(buf[..])[r..] && bytes == old(bytes)[r..]
    {
      hide ReadCall, Patched;
      NothingPatched(buf[..]);
      var nleft, ptr := sz, 0;
      while nleft > 0
        invariant 0 <= nleft && 0 <= ptr && nleft + ptr == sz && ptr <= |old(bytes)| && bytes == old(bytes)[ptr..]
        invariant buf[..] == Patched(old(buf[..]), 0, old(bytes)[..ptr])
        invariant ReadAll(old(readScript), |old(bytes)|, sz)
               == ReadAll(readScript, |bytes|, nleft).(moved := ReadAll(readScript, |bytes|, nleft).moved + ptr)
        decreases |readScript| + nleft
      {
        var nread, eintr := SysRead(buf, ptr, nleft);
        if nread < 0 {
          if eintr {
            continue;
          } else {
            return -1;
          }
        } else if nread == 0 {
          break;
        }
        NextPiece(old(bytes), old(buf[..]), ptr, nread);
        nleft := nleft - nread;
        ptr := ptr + nread;
      }
      PatchedPrefix(old(buf[..]), old(bytes)[..ptr]);
      return sz - nleft;
    }

    /** write with the interruptions hidden: it answers to the first outcome that is no interruption. */
    method Write(buf: array<Byte>, sz: nat) returns (len: int)
      requires sz <= buf.Length
      modifies this`bytes, this`writeScript
      ensures var r := WriteCall(AfterInterrupts(old(writeScript)), sz);
        len == r.n && writeScript == r.rest && bytes == old(bytes) + if len > 0 then buf[..len] else []
      ensures var calm := Calm(old(writeScript));
        if calm == [] then len == sz && writeScript == []
        else Calm(writeScript) == calm[1..] && len == if calm[0].Moves? then Min(calm[0].n, sz) else -1
    {
      AfterInterruptsIsCalm(writeScript);
      hide AfterInterrupts, Calm;
      while true
        invariant bytes == old(bytes) && AfterInterrupts(old(writeScript)) == AfterInterrupts(writeScript)
        decreases |writeScript|
      {
        InterruptedWrite(writeScript, sz);
        var eintr;
        len, eintr := SysWrite(buf, 0, sz);
        if len != -1 || !eintr {
          return len;
        }
      }
    }

    /** read with the interruptions hidden, likewise. */
    method Read(buf: array<Byte>, sz: nat) returns (len: int)
      requires sz <= buf.Length
      modifies this`bytes, this`readScript, buf
      ensures var r := ReadCall(AfterInterrupts(old(readScript)), |old(bytes)|, sz);
        len == r.n && readScript == r.rest
      ensures var calm, most := Calm(old(readScript)), Min(|old(bytes)|, sz);
        if calm == [] then len == most && readScript == []
        else Calm(readScript) == calm[1..] && len == if calm[0].Moves? then Min(AtLeastOne(calm[0].n), most) else -1
      ensures if len > 0 then bytes == old(bytes)[len..] && buf[..] == Patched(old(buf[..]), 0, old(bytes)[..len])
              else bytes == old(bytes) && buf[..] == old(buf[..])
    {
      AfterInterruptsIsCalm(readScript);
      hide AfterInterrupts, Calm, Patched;
      while true
        invariant bytes == old(bytes) && buf[..] == old(buf[..])
        invariant AfterInterrupts(old(readScript)) == AfterInterrupts(readScript)
        decreases |readScript|
      {
        InterruptedRead(readScript, |bytes|, sz);
        var eintr;
        len, eintr := SysRead(buf, 0, sz);
        if len != -1 || !eintr {
          return len;
        }
      }
    }

    /** What one side writes in full the other side, if its ReadN succeeds, has read back byte for byte,
        however differently the two ends cut the stream up; and when each of them succeeds. */
    method RoundTrip(a: array<Byte>, b: array<Byte>) returns (w: int, r: int)
      requires a != b && a.Length == b.Length && bytes == []
      modifies this, b
      ensures w == (if WriteAll(old(writeScript), a.Length).ok then a.Length else -1)
      ensures w >= 0 && r >= 0 ==> r == a.Length && b[..] == a[..] && bytes == []
      ensures w >= 0 ==> (r >= 0 <==> ReadAll(old(readScript), a.Length, b.Length).ok)
      ensures w >= 0 && Fails !in old(readScript) ==> r >= 0
      ensures w < 0 ==> r == -1 && b[..] == old(b[..])
    {
      r := -1;
      w := WriteN(a, a.Length);
      if w == a.Length {
        if Fails !in readScript {
          ReadAllSucceeds(readScript, |bytes|, b.Length);
        }
        assert bytes == a[..];
        r := ReadN(b, b.Length);
      }
    }
  }

  lemma NothingPatched(buf: seq<Byte>)
    ensures Patched(buf, 0, []) == buf
  {
  }

  lemma PatchedPrefix(buf: seq<Byte>, piece: seq<Byte>)
    requires |piece| <= |buf|
    ensures Patched(buf, 0, piece)[..|piece|] == piece && Patched(buf, 0, piece)[|piece|..] == buf[|piece|..]
  {
  }

  /** Storing the next piece of the stream behind the filled part of the buffer. */
  lemma NextPiece(stream: seq<Byte>, buf: seq<Byte>, ptr: nat, n: nat)
    requires ptr + n <= |stream| && ptr + n <= |buf|
    ensures stream[ptr..][n..] == stream[ptr + n..]
    ensures Patched(Patched(buf, 0, stream[..ptr]), ptr, stream[ptr..][..n]) == Patched(buf, 0, stream[..ptr + n])
  {
  }
}
