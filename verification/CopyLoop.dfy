/** speedy_main.c: stdin goes to the backend, its output and errors to stdout and stderr. */
module CopyLoop {
  import opened Circular
  import opened Streams

  datatype Kind = In | Out | Err

  /** What went in has come out, in order: first a byte for the protocol, if any, then what
      the sink took, what was dropped after an error and what is still in the buffer. */
  ghost predicate Flows(inward: seq<Byte>, proto: seq<Byte>, taken: seq<Byte>, dropped: seq<Byte>, data: seq<Byte>) {
    inward == proto + (taken + (dropped + data))
  }

  lemma FlowsIn(inward: seq<Byte>, proto: seq<Byte>, taken: seq<Byte>, dropped: seq<Byte>, data: seq<Byte>,
      bytes: seq<Byte>)
    requires Flows(inward, proto, taken, dropped, data)
    ensures Flows(inward + bytes, proto, taken, dropped, data + bytes)
  {
    assert inward + bytes == proto + (taken + (dropped + (data + bytes)));
  }

  lemma FlowsOut(inward: seq<Byte>, proto: seq<Byte>, taken: seq<Byte>, dropped: seq<Byte>,
                 out: seq<Byte>, lost: seq<Byte>, data: seq<Byte>)
    requires Flows(inward, proto, taken, dropped, out + lost + data) && (dropped == [] || out == [])
    ensures Flows(inward, proto, taken + out, dropped + lost, data)
  {
    if dropped == [] {
      assert taken + (dropped + (out + lost + data)) == (taken + out) + ((dropped + lost) + data);
    } else {
      assert dropped + (out + lost + data) == (dropped + lost) + data;
      assert taken + out == taken;
    }
  }

  /** The very first byte that comes in is taken for the protocol. */
  lemma FlowsFirst(data: seq<Byte>)
    requires data != []
    ensures Flows(data, [data[0]], [], [], data[1..])
  {
    assert data == [data[0]] + ([] + ([] + data[1..]));
  }

  /** A read, with whether it brought bytes or the end of the file and whether the buffer could be
      written then, or a write. */
  datatype Io = Asked(news: bool, writable: bool) | Offered

  /** From place n on every read that brought something for a buffer that can be written is followed
      by a write. */
  ghost predicate Answered(io: seq<Io>, n: nat) {
    forall i :: n <= i < |io| && io[i].Asked? && io[i].news && io[i].writable ==> i + 1 < |io| && io[i + 1].Offered?
  }

  /** A write has been tried, at first with data that begin with d, of which the sink has got as much
      as it has taken. */
  ghost predicate Tries(a0: seq<Attempt>, a: seq<Attempt>, t0: seq<Byte>, t: seq<Byte>, d: seq<Byte>) {
    && |a0| < |a| && d <= a[|a0|].data && a[|a0|].n <= |a[|a0|].data|
    && t0 + a[|a0|].data[..a[|a0|].n] <= t
  }

  /** A copy buffer with its two descriptors. The first byte of the output is for the protocol:
      it goes to `proto` and never to stdout. */
  class Channel {
    const kind: Kind
    const b: CopyBuf
    const src: Source
    const sink: Sink
    var gotStdout: bool
    var readStopped: bool
    var closed: bool
    ghost var initial: seq<Byte>
    ghost var proto: seq<Byte>
    ghost var io: seq<Io>
    /** The buffer was full once when realloc failed. */
    ghost var starved: bool

    /** Everything the buffer started with and the source gave has reached the sink, or was
        dropped after a write error, or is in the buffer, in that order. */
    ghost predicate Valid()
      reads this, b, b.circ, b.circ.buf, src, sink
    {
      && Sound()
      && (kind == Out && !gotStdout ==> initial == src.given == sink.taken == b.dropped == b.Data() == [])
    }

    ghost predicate Sound()
      reads this, b, b.circ, b.circ.buf, src, sink
    {
      && b.Valid() && (kind == Out ==> |proto| == if gotStdout then 1 else 0) && (kind != Out ==> proto == [])
      && Flows(initial + src.given, proto, sink.taken, b.dropped, b.Data())
      && (b.eof ==> src.rest == [] || src.broken || starved) && (kind == Out ==> initial == [])
    }

    /** A channel whose buffer holds `contents` to begin with. Of a process whose own descriptor, 0 for
        the input, 1 and 2 for the others, is closed the input is at its end, and the others count as
        failed; there is nothing to read from a closed one. */
    constructor (kind: Kind, maxsz: nat, contents: array<Byte>, len: nat, src: Source, sink: Sink, open: bool)
      requires len <= contents.Length <= maxsz && 0 < maxsz && src.given == [] && sink.taken == []
      requires kind == Out ==> len == 0
      requires kind == In && !open ==> src.broken
      ensures Valid() && initial == contents[..len] && !gotStdout && this.kind == kind
      ensures b.eof == (!open && kind == In) && b.writeErr == (!open && kind != In)
    {
      var buf := new CopyBuf(maxsz, contents, len);
      if !open {
        if kind == In { buf.eof := true; } else { buf.writeErr := true; }
      }
      this.kind, b, this.src, this.sink := kind, buf, src, sink;
      gotStdout, readStopped, closed, starved := false, false, false, false;
      initial, proto, io := contents[..len], [], [];
    }

    predicate CanRead(stop: bool)
      reads this, b, b.circ
    {
      !(kind != In && stop && readStopped) && (b.CanRead() || (kind == Out && !gotStdout && !b.eof))
    }

    predicate CopyDone()
      reads this, b, b.circ
    {
      b.CopyDone() && (kind != Out || gotStdout || b.eof)
    }

    /** Read once. */
    method ReadIn() returns (dataRead: bool, ghost bytes: seq<Byte>)
      requires Sound()
      modifies this`starved, this`readStopped, b`eof, b.circ, b.circ.buf, src
      ensures Sound() && (b.circ.buf == old(b.circ.buf) || fresh(b.circ.buf)) && dataRead == (bytes != [])
      ensures b.Data() == old(b.Data()) + bytes && src.given == old(src.given) + bytes
      ensures |src.rest| == |old(src.rest)| - |bytes| && b.circ.dataLen == old(b.circ.dataLen) + |bytes|
      ensures !dataRead ==> src.rest == old(src.rest)
      ensures src.asks == old(src.asks) + if b.maxsz != old(b.circ.dataLen) then 1 else 0
    {
      hide Flows;
      ghost var g0, d0 := src.given, b.Data();
      var sz := b.circ.dataLen;
      var memory: bool := *;
      starved := starved || (!memory && b.circ.bufLen == b.circ.dataLen);
      bytes := b.Read(src, memory);
      FlowsIn(initial + g0, proto, sink.taken, b.dropped, d0, bytes);
      assert initial + (g0 + bytes) == (initial + g0) + bytes;
      dataRead := b.circ.dataLen > sz;
      if !dataRead { readStopped := true; }
    }

    /** Read once; the first byte of the output is taken out. */
    method Fetch() returns (dataRead: bool)
      requires Valid()
      modifies this`starved, this`readStopped, this`gotStdout, this`proto, b`eof, b.circ, b.circ.buf, src
      ensures Valid() && (b.circ.buf == old(b.circ.buf) || fresh(b.circ.buf)) && (old(gotStdout) ==> gotStdout)
      ensures if dataRead then |src.rest| < |old(src.rest)|
        else src.rest == old(src.rest) && b.circ.dataLen == old(b.circ.dataLen)
      ensures src.asks == old(src.asks) + if b.maxsz != old(b.circ.dataLen) then 1 else 0
      ensures old(Held()) != [] ==> old(Held()) <= Held()
    {
      hide Flows;
      ghost var bytes;
      dataRead, bytes := ReadIn();
      if !gotStdout && kind == Out && dataRead { TakeFirst(); }
    }

    /** That, noted down. */
    method ReadOnce() returns (dataRead: bool)
      requires Valid()
      modifies this, b`eof, b.circ, b.circ.buf, src
      ensures Valid() && (b.circ.buf == old(b.circ.buf) || fresh(b.circ.buf))
      ensures initial == old(initial) && (old(gotStdout) ==> gotStdout)
      ensures if dataRead then |src.rest| < |old(src.rest)|
        else src.rest == old(src.rest) && b.circ.dataLen == old(b.circ.dataLen)
      ensures io == old(io) + [Asked(dataRead || b.eof, b.CanWrite())]
      ensures src.asks == old(src.asks) + if b.maxsz != old(b.circ.dataLen) then 1 else 0
      ensures old(Held()) != [] ==> old(Held()) <= Held()
    {
      hide Valid;
      dataRead := Fetch();
      Noted(Asked(dataRead || b.eof, b.CanWrite()));
    }

    ghost method Noted(e: Io)
      requires Valid()
      modifies this`io
      ensures Valid() && io == old(io) + [e] && Held() == old(Held())
    {
      io := io + [e];
    }

    /** What is in the buffer. */
    ghost function Held(): (d: seq<Byte>)
      requires Valid()
      reads this, b, b.circ, b.circ.buf, src, sink
    {
      b.Data()
    }

    lemma HeldNone()
      requires Valid()
      ensures |Held()| == b.circ.dataLen && (b.CanWrite() ==> Held() != [])
      ensures kind == Out && !gotStdout ==> b.circ.dataLen == 0
      ensures b.maxsz > 0
    {
    }

    /** The first byte of the output goes to speedy_frontend_proto2. */
    method TakeFirst()
      requires b.Valid() && kind == Out && !gotStdout && initial + src.given == b.Data() != []
      requires sink.taken == [] && b.dropped == [] && initial == []
      requires b.eof ==> src.rest == [] || src.broken || starved
      modifies this`gotStdout, this`proto, b.circ
      ensures Valid() && gotStdout && b.circ.buf == old(b.circ.buf)
      ensures b.circ.dataLen == old(b.circ.dataLen) - 1 && proto == [old(b.Data())[0]]
    {
      hide Flows;
      FlowsFirst(b.Data());
      gotStdout := true;
      proto := [b.Data()[0]];
      var signed: bool := *;
      var _ := b.Shift(signed);
    }

    /** Write once. */
    method WriteOnce()
      requires Valid()
      modifies this`io, b`writeErr, b`dropped, b.circ, sink
      ensures Valid() && (b.circ.buf == old(b.circ.buf) || fresh(b.circ.buf)) && b.circ.dataLen <= old(b.circ.dataLen)
      ensures io == old(io) + [Offered] && old(sink.attempts) <= sink.attempts && old(sink.taken) <= sink.taken
      ensures !old(b.writeErr) ==> Tries(old(sink.attempts), sink.attempts, old(sink.taken), sink.taken, old(Held()))
    {
      hide Flows;
      ghost var t0, x0, d0 := sink.taken, b.dropped, b.Data();
      ghost var out, lost := b.Write(sink);
      FlowsOut(initial + src.given, proto, t0, x0, out, lost, b.Data());
      assert out == d0[..|out|];
      io := io + [Offered];
    }

    method TryClose()
      requires Valid()
      modifies this`closed
      ensures Valid() && closed == (old(closed) || CopyDone())
    {
      if CopyDone() { closed := true; }
    }

    /** The channel has not stopped giving, as far as the loop knows. */
    method Restart()
      requires Valid()
      modifies this`readStopped
      ensures Valid()
    {
      readStopped := false;
    }

    /** One round of the inner loop. */
    method Once(doRead: bool, doWrite: bool, stop: bool, tty: bool) returns (again: bool)
      requires Valid() && (doRead ==> CanRead(stop)) && (doRead || doWrite)
      modifies this, b, b.circ, b.circ.buf, src, sink
      ensures Valid() && initial == old(initial) && (old(gotStdout) ==> gotStdout)
      ensures b.circ.buf == old(b.circ.buf) || fresh(b.circ.buf)
      ensures again ==> CanRead(stop)
      ensures |src.rest| == |old(src.rest)| ==>
        b.circ.dataLen <= old(b.circ.dataLen) && (again ==> b.circ.dataLen < old(b.circ.dataLen))
      ensures |src.rest| <= |old(src.rest)| && old(src.asks) <= src.asks && (doRead ==> old(src.asks) < src.asks)
      ensures old(sink.attempts) <= sink.attempts && old(sink.taken) <= sink.taken
      ensures doWrite && old(b.CanWrite()) ==>
        Tries(old(sink.attempts), sink.attempts, old(sink.taken), sink.taken, old(Held()))
      ensures old(io) <= io && Answered(io, |old(io)|)
    {
      hide Flows, Valid;
      again := false;
      HeldNone();
      var writing := doWrite;
      if doRead {
        var dataRead := ReadOnce();
        if b.CanWrite() && (b.eof || dataRead) { writing := true; }
      }
      if writing {
        var sz := b.circ.dataLen;
        WriteOnce();
        again := CanRead(stop) && b.circ.dataLen < sz && !(kind == In && tty);
      }
      if !again { TryClose(); }
    }

    /** The inner loop: it ends, because each further read follows either bytes that came in or
        bytes that went out. What can be read is asked for, what can be written is offered, with the
        oldest bytes first, and what a read brings is offered after it. */
    method Pump(readable: bool, writable: bool, stop: bool, tty: bool)
      requires Valid()
      modifies this, b, b.circ, b.circ.buf, src, sink
      ensures Valid() && initial == old(initial) && (old(gotStdout) ==> gotStdout)
      ensures b.circ.buf == old(b.circ.buf) || fresh(b.circ.buf)
      ensures old(CanRead(stop)) && readable ==> old(src.asks) < src.asks
      ensures old(b.CanWrite()) && writable ==>
        Tries(old(sink.attempts), sink.attempts, old(sink.taken), sink.taken, old(Held()))
      ensures old(io) <= io && Answered(io, |old(io)|)
    {
      hide Flows, Valid, Tries, Answered;
      var doRead, doWrite := CanRead(stop) && readable, b.CanWrite() && writable;
      NoneAnswered(io);
      ghost var first := true;
      while doRead || doWrite
        invariant Valid() && initial == old(initial) && (old(gotStdout) ==> gotStdout)
        invariant b.circ.buf == old(b.circ.buf) || fresh(b.circ.buf)
        invariant (doRead ==> CanRead(stop)) && (!first ==> !doWrite)
        invariant first ==> Held() == old(Held())
        invariant first ==> sink.attempts == old(sink.attempts) && sink.taken == old(sink.taken)
        invariant first ==> b.CanWrite() == old(b.CanWrite()) && src.asks == old(src.asks) && io == old(io)
        invariant first ==> doRead == (old(CanRead(stop)) && readable) && doWrite == (old(b.CanWrite()) && writable)
        invariant !first && old(CanRead(stop)) && readable ==> old(src.asks) < src.asks
        invariant !first && old(b.CanWrite()) && writable ==>
          Tries(old(sink.attempts), sink.attempts, old(sink.taken), sink.taken, old(Held()))
        invariant old(io) <= io && Answered(io, |old(io)|)
        decreases |src.rest|, b.circ.dataLen, doWrite, doRead
      {
        ghost var l, a, t := io, sink.attempts, sink.taken;
        doRead := Once(doRead, doWrite, stop, tty);
        doWrite := false;
        AnsweredMore(old(io), l, io);
        if !first && old(b.CanWrite()) && writable {
          TriesStays(old(sink.attempts), a, sink.attempts, old(sink.taken), t, sink.taken, old(Held()));
        }
        first := false;
      }
    }
  }

  lemma NoneAnswered(l: seq<Io>)
    ensures Answered(l, |l|)
  {
  }

  lemma AnsweredMore(l0: seq<Io>, l: seq<Io>, l1: seq<Io>)
    requires l0 <= l <= l1 && Answered(l, |l0|) && Answered(l1, |l|)
    ensures Answered(l1, |l0|)
  {
    forall i | |l0| <= i < |l1| && l1[i].Asked? && l1[i].news && l1[i].writable
      ensures i + 1 < |l1| && l1[i + 1].Offered?
    {
      if i < |l| { assert l1[i] == l[i] && l1[i + 1] == l[i + 1]; }
    }
  }

  lemma TriesStays(a0: seq<Attempt>, a: seq<Attempt>, a1: seq<Attempt>, t0: seq<Byte>, t: seq<Byte>, t1: seq<Byte>,
                   d: seq<Byte>)
    requires Tries(a0, a, t0, t, d) && a <= a1 && t <= t1
    ensures Tries(a0, a1, t0, t1, d)
  {
    assert a1[|a0|] == a[|a0|];
  }

  /** Nothing is left that could still be delivered. */
  ghost predicate Settled(c: Channel)
    requires c.Valid()
    reads c, c.b, c.b.circ, c.b.circ.buf, c.src, c.sink
  {
    c.b.Data() == [] || c.b.writeErr
  }

  /** What a turn of the outer loop learns: which descriptors are ready, whether a signal came,
      whether the backend's exit status was there, and what fork returned. */
  datatype Turn = Turn(canRead: Kind -> bool, canWrite: Kind -> bool, signal: bool, status: bool, fork: int)

  /** The state of the outer loop besides the buffers. */
  datatype Stage = Stage(exited: bool, child: bool, stop: bool)

  /** The end of a turn, when the backend has exited before: the process leaves, goes on, or,
      forked from the one that leaves, goes on in the background. `handed` says that it leaves
      because it has called fork, for the child to go on, if there is one. */
  method AfterExit(out: Channel, err: Channel, g: Stage, fork: int) returns (left: bool, handed: bool, g1: Stage)
    requires out.Valid() && err.Valid() && g.exited
    ensures left ==> Settled(out) && Settled(err) && g1 == g
    ensures left && !handed <==> out.CopyDone() && err.CopyDone()
    ensures handed ==> left && !g.child && fork != 0 && out.readStopped && err.readStopped
    ensures !g.child && Settled(out) && Settled(err) && out.readStopped && err.readStopped && fork != 0 ==> left
    ensures g1.exited && (g1 != g ==> g1 == Stage(true, true, false) && fork == 0)
  {
    left, handed, g1 := false, false, g;
    if g.child {
      left := out.CopyDone() && err.CopyDone();
    } else if !out.b.CanWrite() && !err.b.CanWrite() {
      if out.CopyDone() && err.CopyDone() { return true, false, g; }
      if out.readStopped && err.readStopped {
        if fork != 0 { return true, true, g; }
        g1 := Stage(true, true, false);
      }
    } else {
      DoneCannotWrite(out);
      DoneCannotWrite(err);
    }
  }

  /** The objects of a channel, which no other channel shares. */
  ghost function Objects(c: Channel): set<object>
    reads c, c.b, c.b.circ
  {
    {c, c.b, c.b.circ, c.b.circ.buf, c.src, c.sink}
  }

  ghost predicate Apart(i: Channel, out: Channel, err: Channel)
    reads i, i.b, i.b.circ, out, out.b, out.b.circ, err, err.b, err.b.circ
  {
    Objects(i) !! Objects(out) && Objects(i) !! Objects(err) && Objects(out) !! Objects(err)
  }

  /** What could be read has been asked for, and what could be written has been offered. */
  ghost predicate Served(c: Channel, asking: bool, offering: bool, asks0: nat, a0: seq<Attempt>, t0: seq<Byte>,
                         d0: seq<Byte>)
    reads c, c.src, c.sink
  {
    (asking ==> asks0 < c.src.asks) && (offering ==> Tries(a0, c.sink.attempts, t0, c.sink.taken, d0))
  }

  /** The reads and writes of one channel leave the objects of the others alone. */
  method PumpApart(c: Channel, t: Turn, stop: bool, tty: bool, ghost others: set<object>)
    requires c.Valid() && Objects(c) !! others
    modifies Objects(c)
    ensures c.Valid() && c.initial == old(c.initial)
    ensures Objects(c) !! others && fresh(Objects(c) - old(Objects(c)))
    ensures Served(c, old(c.CanRead(stop)) && t.canRead(c.kind), old(c.b.CanWrite()) && t.canWrite(c.kind),
                   old(c.src.asks), old(c.sink.attempts), old(c.sink.taken), old(c.Held()))
    ensures old(c.io) <= c.io && Answered(c.io, |old(c.io)|)
  {
    hide Channel.Valid, Tries, Answered;
    c.Pump(t.canRead(c.kind), t.canWrite(c.kind), stop, tty);
  }

  /** The reads and writes of one turn. */
  method Pass(i: Channel, out: Channel, err: Channel, t: Turn, stop: bool, tty: bool)
    requires i.Valid() && out.Valid() && err.Valid() && Apart(i, out, err)
    modifies Objects(i), Objects(out), Objects(err)
    ensures i.Valid() && out.Valid() && err.Valid() && Apart(i, out, err)
    ensures i.initial == old(i.initial) && out.initial == old(out.initial) && err.initial == old(err.initial)
    ensures fresh(Objects(i) + Objects(out) + Objects(err) - old(Objects(i) + Objects(out) + Objects(err)))
    ensures Served(i, old(i.CanRead(stop)) && t.canRead(i.kind), old(i.b.CanWrite()) && t.canWrite(i.kind),
                   old(i.src.asks), old(i.sink.attempts), old(i.sink.taken), old(i.Held()))
    ensures Served(out, old(out.CanRead(stop)) && t.canRead(out.kind), old(out.b.CanWrite()) && t.canWrite(out.kind),
                   old(out.src.asks), old(out.sink.attempts), old(out.sink.taken), old(out.Held()))
    ensures Served(err, old(err.CanRead(stop)) && t.canRead(err.kind), old(err.b.CanWrite()) && t.canWrite(err.kind),
                   old(err.src.asks), old(err.sink.attempts), old(err.sink.taken), old(err.Held()))
    ensures Answered(i.io, |old(i.io)|) && Answered(out.io, |old(out.io)|) && Answered(err.io, |old(err.io)|)
  {
    hide Channel.Valid, Tries, Answered, Channel.Held;
    PumpApart(i, t, stop, tty, Objects(out) + Objects(err));
    PumpApart(out, t, stop, tty, Objects(i) + Objects(err));
    PumpApart(err, t, stop, tty, Objects(i) + Objects(out));
  }

  /** The end of a turn: after the backend has exited as AfterExit says; before, a signal makes
      the process ask for the exit status. */
  method EndOfTurn(i: Channel, out: Channel, err: Channel, t: Turn, g: Stage)
    returns (left: bool, handed: bool, g1: Stage)
    requires i.Valid() && out.Valid() && err.Valid() && Apart(i, out, err)
    modifies i`readStopped, out`readStopped, err`readStopped
    ensures i.Valid() && out.Valid() && err.Valid()
    ensures left ==> g1.exited && Settled(out) && Settled(err)
    ensures left ==> (handed <==> !(out.CopyDone() && err.CopyDone()))
    ensures handed ==> left && !g1.child && t.fork != 0 && out.readStopped && err.readStopped
    ensures g1.exited == (g.exited || (t.signal && t.status))
  {
    hide Channel.Valid;
    left, handed, g1 := false, false, g;
    if g.exited {
      left, handed, g1 := AfterExit(out, err, g, t.fork);
    } else if t.signal && t.status {
      left, g1 := Exits(out, err);
      handed := false;
      if !left { Restart(i, out, err); }
    }
  }

  method Restart(i: Channel, out: Channel, err: Channel)
    requires i.Valid() && out.Valid() && err.Valid() && Apart(i, out, err)
    modifies i`readStopped, out`readStopped, err`readStopped
    ensures i.Valid() && out.Valid() && err.Valid()
  {
    hide Channel.Valid;
    i.Restart();
    out.Restart();
    err.Restart();
  }

  /** The exit status is there. */
  method Exits(out: Channel, err: Channel) returns (left: bool, g: Stage)
    requires out.Valid() && err.Valid()
    ensures left <==> out.CopyDone() && err.CopyDone()
    ensures g == Stage(true, false, !left) && (left ==> Settled(out) && Settled(err))
  {
    left := out.CopyDone() && err.CopyDone();
    g := Stage(true, false, !left);
  }

  /** One turn of the loop. */
  method TakeTurn(i: Channel, out: Channel, err: Channel, t: Turn, g: Stage, tty: bool)
    returns (left: bool, handed: bool, g1: Stage)
    requires i.Valid() && out.Valid() && err.Valid() && Apart(i, out, err)
    modifies Objects(i), Objects(out), Objects(err)
    ensures i.Valid() && out.Valid() && err.Valid() && Apart(i, out, err)
    ensures i.initial == old(i.initial) && out.initial == old(out.initial) && err.initial == old(err.initial)
    ensures fresh(Objects(i) + Objects(out) + Objects(err) - old(Objects(i) + Objects(out) + Objects(err)))
    ensures left ==> g1.exited && Settled(out) && Settled(err) && (handed <==> !(out.CopyDone() && err.CopyDone()))
    ensures handed ==> left && !g1.child && out.readStopped && err.readStopped
    ensures Served(i, old(i.CanRead(g.stop)) && t.canRead(i.kind), old(i.b.CanWrite()) && t.canWrite(i.kind),
                   old(i.src.asks), old(i.sink.attempts), old(i.sink.taken), old(i.Held()))
    ensures Served(out, old(out.CanRead(g.stop)) && t.canRead(out.kind), old(out.b.CanWrite()) && t.canWrite(out.kind),
                   old(out.src.asks), old(out.sink.attempts), old(out.sink.taken), old(out.Held()))
    ensures Served(err, old(err.CanRead(g.stop)) && t.canRead(err.kind), old(err.b.CanWrite()) && t.canWrite(err.kind),
                   old(err.src.asks), old(err.sink.attempts), old(err.sink.taken), old(err.Held()))
    ensures Answered(i.io, |old(i.io)|) && Answered(out.io, |old(out.io)|) && Answered(err.io, |old(err.io)|)
  {
    hide Channel.Valid, Settled, Tries, Answered, Channel.Held;
    Pass(i, out, err, t, g.stop, tty);
    left, handed, g1 := EndOfTurn(i, out, err, t, g);
  }

  /** The loop of doit, for any number of turns that go in any way. Whenever it is left, stdout
      has got everything that was read from the backend but the protocol byte, and stderr
      everything, unless writing to it failed. Unless it is left to a forked process, all there
      was to read has been read, except that reading or realloc may have failed. */
  method Copy(i: Channel, out: Channel, err: Channel, turns: seq<Turn>, tty: bool)
    returns (left: bool, handed: bool, g: Stage)
    requires i.Valid() && out.Valid() && err.Valid() && Apart(i, out, err)
    requires i.kind == In && out.kind == Out && err.kind == Err && err.initial == []
    modifies Objects(i), Objects(out), Objects(err)
    ensures i.Valid() && out.Valid() && err.Valid() && i.initial == old(i.initial)
    ensures left ==> g.exited && Settled(out) && Settled(err)
    ensures left && !out.b.writeErr ==> out.src.given == out.proto + out.sink.taken && |out.proto| <= 1
    ensures left && !err.b.writeErr ==> err.src.given == err.sink.taken
    ensures handed ==> left && !g.child && out.readStopped && err.readStopped
    ensures left && !handed ==> Finished(out) && Finished(err)
  {
    hide Channel.Valid, Settled, Finished;
    left, handed, g := false, false, Stage(false, false, false);
    var n := 0;
    while n < |turns| && !left
      invariant 0 <= n <= |turns| && i.Valid() && out.Valid() && err.Valid() && Apart(i, out, err)
      invariant i.initial == old(i.initial) && err.initial == []
      invariant fresh(Objects(i) + Objects(out) + Objects(err) - old(Objects(i) + Objects(out) + Objects(err)))
      invariant left ==> g.exited && Settled(out) && Settled(err) && (handed <==> !(out.CopyDone() && err.CopyDone()))
      invariant handed ==> left && !g.child && out.readStopped && err.readStopped
      decreases |turns| - n, left
    {
      left, handed, g := TakeTurn(i, out, err, turns[n], g, tty);
      n := n + 1;
    }
    if left { Delivered(out, err, handed); }
  }

  /** The end of what there was to read has been seen, or the writer failed; it was the real end
      unless reading or realloc had failed. */
  ghost predicate Finished(c: Channel)
    requires c.Valid()
    reads c, c.b, c.b.circ, c.b.circ.buf, c.src, c.sink
  {
    && (c.b.eof || c.b.writeErr)
    && (c.b.writeErr || c.src.broken || c.starved || c.src.rest == [])
  }

  lemma Delivered(out: Channel, err: Channel, handed: bool)
    requires out.Valid() && err.Valid() && Settled(out) && Settled(err) && out.kind == Out && err.kind == Err
        && err.initial == []
    requires handed <==> !(out.CopyDone() && err.CopyDone())
    ensures !out.b.writeErr ==> out.src.given == out.proto + out.sink.taken && |out.proto| <= 1
    ensures !err.b.writeErr ==> err.src.given == err.sink.taken
    ensures !handed ==> Finished(out) && Finished(err)
  {
    if !out.b.writeErr { NothingUndelivered(out); }
    if !err.b.writeErr { NothingUndelivered(err); }
  }

  lemma DoneCannotWrite(c: Channel)
    ensures c.CopyDone() ==> !c.b.CanWrite()
  {
  }

  /** When the sink did not fail and nothing is left in the buffer, the sink has got everything
      that came in, in order, apart from the protocol byte. */
  lemma NothingUndelivered(c: Channel)
    requires c.Valid() && Settled(c) && !c.b.writeErr
    ensures c.initial + c.src.given == c.proto + c.sink.taken
    ensures c.initial == [] ==> c.src.given == c.proto + c.sink.taken
    ensures if c.kind == Out then c.initial == [] && |c.proto| <= 1 else c.proto + c.sink.taken == c.sink.taken
  {
    assert c.sink.taken + ([] + []) == c.sink.taken;
    assert c.initial == [] ==> c.initial + c.src.given == c.src.given;
  }
}
