/** The double-buffered sender of a connection. At most one asynchronous write
    is under way; data appended meanwhile is collected in the other buffer. */
module SendBuffers {
  class SendBuffers {
    var sendBuffer: string
    var fillBuffer: string
    var current: nat        // current_send_state, as an offset into sendBuffer
    var running: bool       // send_job_running

    // the socket's side: writes handed over and not yet completed, and the
    // bytes the latest of them offers
    var outstanding: nat
    var offered: string

    // what has been passed to append, and what has been written, in this session
    ghost var appended: string
    ghost var wire: string

    constructor ()
      ensures Valid() && appended == wire == "" && !running
    {
      sendBuffer, fillBuffer, current, running := "", "", 0, false;
      outstanding, offered := 0, "";
      appended, wire := "", "";
    }

    /** No byte is lost, duplicated or reordered; a job is running exactly while
        one write is outstanding, and that write offers all of the buffer that
        is not written yet; without a job nothing is left to send, and the
        cursor stands at the beginning. */
    ghost predicate Valid()
      reads this
    {
      && current <= |sendBuffer|
      && wire + Unsent() == appended
      && outstanding == (if running then 1 else 0)
      && (running ==> offered == sendBuffer[current..] != "")
      && (!running ==> Unsent() == "" && current == 0)
    }

    ghost function Unsent(): string
      reads this
    {
      (if current <= |sendBuffer| then sendBuffer[current..] else "") + fillBuffer
    }

    method Swap()
      modifies `sendBuffer, `fillBuffer, `current
      ensures sendBuffer == old(fillBuffer) && fillBuffer == "" && current == 0
    {
      sendBuffer, fillBuffer := fillBuffer, sendBuffer;
      current := 0;
      fillBuffer := "";
    }

    /** What Send relies on. */
    ghost predicate Ready()
      reads this
    {
      running && outstanding == 0 && current <= |sendBuffer| && wire + Unsent() == appended
    }

    /** Hands the unsent bytes to the socket, or ends the job. Behind the end of
        the buffer the cursor denotes nothing, and the write is undefined. */
    method Send() returns (defined: bool)
      modifies `sendBuffer, `fillBuffer, `current, `running, `outstanding, `offered
      ensures defined <==> old(current) <= |old(sendBuffer)|
      ensures !defined ==> unchanged(this)
      ensures defined ==> current == if old(current) == |old(sendBuffer)| then 0 else old(current)
      ensures defined ==> sendBuffer == if old(current) == |old(sendBuffer)| then old(fillBuffer) else old(sendBuffer)
      ensures old(Ready()) ==> Valid() && Unsent() == old(Unsent()) && (running <==> old(Unsent()) != "")
    {
      defined := true;
      if current == |sendBuffer| {
        Swap();
      }
      if current == |sendBuffer| {
        running := false;
        return;
      }
      if current > |sendBuffer| {
        return false;
      }
      outstanding := outstanding + 1;
      offered := sendBuffer[current..];
    }

    /** append(data): does not touch what an outstanding write is reading. It is
        undefined exactly if it starts a job with the cursor behind the end. */
    method Append(data: string) returns (defined: bool)
      modifies this
      ensures defined <==> old(running) || data == "" || old(current) <= |old(sendBuffer)|
      ensures old(Valid()) ==>
        && Valid() && appended == old(appended) + data && wire == old(wire)
        && Unsent() == old(Unsent()) + data && (running <==> old(running) || data != "")
      ensures old(Valid()) && !old(running) && data != "" ==> current == 0 && offered == data
      ensures old(Valid()) && old(running) ==>
        sendBuffer == old(sendBuffer) && current == old(current) && offered == old(offered)
    {
      ghost var valid, before := Valid(), Unsent();
      appended := appended + data;
      fillBuffer := fillBuffer + data;
      assert Unsent() == before + data;
      defined := true;
      if !running && 0 < |data| {
        running := true;
        assert valid ==> Ready();
        defined := Send();
      }
    }

    /** The completion of the outstanding write, which took the first n bytes it
        was offered. */
    method Completed(n: nat)
      requires Valid() && running && n <= |offered|
      modifies this
      ensures Valid() && appended == old(appended)
      ensures wire == old(wire) + old(offered)[..n]
      ensures n <= |old(Unsent())| && Unsent() == old(Unsent())[n..]
      ensures running <==> Unsent() != ""
      ensures n < |old(offered)| ==> current == old(current) + n
    {
      outstanding := outstanding - 1;
      ghost var before := Unsent();
      wire := wire + offered[..n];
      current := current + n;
      assert before == offered[..n] + Unsent();
      var _ := Send();
    }

    /** clear(): the cursor and the outstanding write are left alone. */
    method Clear()
      modifies this
      ensures sendBuffer == fillBuffer == "" && !running && appended == wire == ""
      ensures current == old(current) && outstanding == old(outstanding)
    {
      sendBuffer, fillBuffer, running := "", "", false;
      appended, wire := "", "";
    }

    /** The completion of a write cancelled by a disconnect: it finds that the
        state is not connected. */
    method Dropped()
      requires outstanding > 0
      modifies `outstanding
      ensures outstanding == old(outstanding) - 1
    {
      outstanding := outstanding - 1;
    }
  }

  /** From a disconnect to the next session: the buffers are cleared, a write
      still outstanding is dropped, and the buffers are cleared again. They are
      fit for the new session exactly if the write had not got anywhere in the
      send buffer: the cursor is not reset, and else stands behind the end. */
  method Reconnect(b: SendBuffers)
    requires b.Valid()
    modifies b
    ensures b.Unsent() == b.appended == b.wire == ""
    ensures b.Valid() <==> old(b.current) == 0
    ensures !b.running && b.current == old(b.current) && b.sendBuffer == ""
  {
    b.Clear();
    if b.outstanding > 0 {
      b.Dropped();
    }
    b.Clear();
  }

  /** The first data of the next session: it is offered to the socket as it is
      exactly if the cursor stood at the beginning, and otherwise the write has no
      meaning. */
  method NextSession(b: SendBuffers, data: string) returns (defined: bool)
    requires b.Valid() && data != ""
    modifies b
    ensures defined <==> old(b.current) == 0
    ensures defined ==> b.Valid() && b.running && b.offered == data
  {
    Reconnect(b);
    defined := b.Append(data);
  }

  /** The failing family is not empty: a disconnect after a partial write. */
  method PartialWriteSpoils() returns (defined: bool)
    ensures !defined
  {
    var b := new SendBuffers();
    var _ := b.Append("ab");
    b.Completed(1);
    defined := NextSession(b, "c");
  }

  /** If every write takes at least one byte, everything appended is written
      after finitely many completions. `sizes` are the sizes of the partial
      writes. */
  method Flush(b: SendBuffers, sizes: nat -> nat)
    requires b.Valid() && forall k :: sizes(k) > 0
    modifies b
    ensures b.Valid() && !b.running
    ensures b.wire == b.appended == old(b.appended)
  {
    var k := 0;
    while b.running
      invariant b.Valid() && b.appended == old(b.appended)
      decreases |b.Unsent()|
    {
      b.Completed(if sizes(k) <= |b.offered| then sizes(k) else |b.offered|);
      k := k + 1;
    }
    assert b.wire + "" == b.wire;
  }

  datatype Op = Append(data: string) | Complete(n: nat)

  function AppendedBy(ops: seq<Op>): string {
    if ops == [] then ""
    else (if ops[0].Append? then ops[0].data else "") + AppendedBy(ops[1..])
  }

  lemma AppendedByConcat(a: seq<Op>, b: seq<Op>)
    ensures AppendedBy(a + b) == AppendedBy(a) + AppendedBy(b)
  {
    if a == [] {
      assert a + b == b;
    } else {
      AppendedByConcat(a[1..], b);
      assert (a + b)[1..] == a[1..] + b;
    }
  }

  /** A session: any interleaving of appends and partial completions. A
      completion without an outstanding write does not happen. */
  method Session(ops: seq<Op>) returns (b: SendBuffers)
    ensures fresh(b) && b.Valid() && b.wire + b.Unsent() == AppendedBy(ops)
  {
    b := new SendBuffers();
    var i := 0;
    while i < |ops|
      invariant 0 <= i <= |ops| && fresh(b) && b.Valid()
      invariant b.appended == AppendedBy(ops[..i])
    {
      AppendedByConcat(ops[..i], [ops[i]]);
      assert ops[..i + 1] == ops[..i] + [ops[i]];
      assert AppendedBy([ops[i]]) == if ops[i].Append? then ops[i].data else "";
      match ops[i] {
        case Append(data) => var _ := b.Append(data);
        case Complete(n) =>
          if b.running && n <= |b.offered| {
            b.Completed(n);
          }
      }
      i := i + 1;
    }
    assert ops[..i] == ops;
  }
}
