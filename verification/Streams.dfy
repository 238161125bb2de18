/** speedy_cb.c: a copy buffer between a source and a sink. Bytes come out as they went in. */
module Streams {
  import opened Circular

  const MIN_READ := 1024

  /** What readv comes to. */
  datatype ReadResult = ReadBlocked | ReadFailed | Got(bytes: seq<Byte>)

  /** What writev comes to. */
  datatype WriteResult = WriteBlocked | WriteFailed | Took(n: nat)

  /** A descriptor that is read from: what it has still to give, and what it has given. */
  class Source {
    var rest: seq<Byte>
    ghost var given: seq<Byte>
    ghost var broken: bool
    /** How often it has been asked. */
    ghost var asks: nat

    /** Any result is possible that room and rest allow; 0 bytes mean the end, except when
        there was no room to read into. */
    method Readv(room: nat) returns (r: ReadResult)
      modifies this
      ensures asks == old(asks) + 1
      ensures !r.Got? ==> rest == old(rest) && given == old(given)
      ensures broken == (old(broken) || r.ReadFailed?)
      ensures r.Got? ==> |r.bytes| <= room && old(rest) == r.bytes + rest && given == old(given) + r.bytes
      ensures r == Got([]) && room > 0 ==> old(rest) == []
    {
      asks := asks + 1;
      if * { return ReadBlocked; }
      if * {
        broken := true;
        return ReadFailed;
      }
      var most := if |rest| <= room then |rest| else room;
      var n: nat := 0;
      if most > 0 {
        n :| 0 < n <= most;
      }
      r := Got(rest[..n]);
      given := given + rest[..n];
      rest := rest[n..];
    }
  }

  /** What was offered in one call of writev, and how much of it was taken. */
  datatype Attempt = Attempt(data: seq<Byte>, n: nat)

  /** A descriptor that is written to. */
  class Sink {
    ghost var taken: seq<Byte>
    ghost var attempts: seq<Attempt>

    method Writev(bytes: seq<Byte>) returns (r: WriteResult)
      modifies this
      ensures !r.Took? ==> taken == old(taken)
      ensures r.Took? ==> r.n <= |bytes| && taken == old(taken) + bytes[..r.n]
      ensures attempts == old(attempts) + [Attempt(bytes, if r.Took? then r.n else 0)]
    {
      attempts := attempts + [Attempt(bytes, 0)];
      if * { return WriteBlocked; }
      if * { return WriteFailed; }
      var n: nat :| n <= |bytes|;
      taken := taken + bytes[..n];
      attempts := attempts[..|attempts| - 1] + [Attempt(bytes, n)];
      r := Took(n);
    }
  }

  /** A byte as a char, which may be signed; 0 is 0 either way, and 255 may be -1. */
  function AsChar(b: Byte, signed: bool): (c: int)
    ensures c == 0 <==> b == 0
    ensures (c - b) % 256 == 0
  {
    if signed && b >= 128 then b - 256 else b
  }

  /** The larger buffer that speedy_cb_read asks for. */
  function NewLen(bufLen: nat, dataLen: nat, maxsz: nat): (n: nat)
    requires dataLen <= bufLen <= maxsz
    ensures n <= maxsz && (bufLen < maxsz && bufLen - dataLen < MIN_READ ==> n > bufLen)
  {
    var shortfall := MIN_READ - (bufLen - dataLen);
    var n := bufLen + if shortfall > bufLen then shortfall else bufLen;
    if n > maxsz then maxsz else n
  }

  /** The room speedy_cb_read reads into. It is none, so that a full buffer is mistaken for the
      end of the file, exactly when the buffer is full and could not be made larger. */
  function ReadRoom(bufLen: nat, dataLen: nat, maxsz: nat, memory: bool): (room: nat)
    requires dataLen <= bufLen <= maxsz && dataLen != maxsz
    ensures room == 0 <==> bufLen == dataLen && !memory
  {
    (if bufLen - dataLen < MIN_READ && bufLen < maxsz && memory then NewLen(bufLen, dataLen, maxsz)
        else bufLen) - dataLen
  }

  class CopyBuf {
    const circ: Circ
    const maxsz: nat
    var eof: bool
    var writeErr: bool
    /** The bytes that were thrown away because the sink failed. */
    ghost var dropped: seq<Byte>

    ghost predicate Valid()
      reads this, circ
    {
      circ.Valid() && circ.bufLen <= maxsz && 0 < maxsz && (!writeErr ==> dropped == [])
    }

    ghost function Data(): (d: seq<Byte>)
      requires Valid()
      reads this, circ, circ.buf
    {
      circ.Data()
    }

    constructor (maxsz: nat, contents: array<Byte>, len: nat)
      requires len <= contents.Length <= maxsz && 0 < maxsz
      ensures Valid() && Data() == contents[..len] && !eof && !writeErr && this.maxsz == maxsz && fresh(circ)
          && dropped == []
    {
      circ := new Circ(contents, len);
      this.maxsz, eof, writeErr, dropped := maxsz, false, false, [];
    }

    predicate CanRead() reads this, circ { maxsz != circ.dataLen && !eof && !writeErr }
    predicate CanWrite() reads this, circ { circ.dataLen != 0 && !writeErr }
    predicate CopyDone() reads this, circ { (eof && circ.dataLen == 0) || writeErr }

    /** speedy_cb_free. */
    method Free()
      requires Valid() && circ.dataLen == 0
      modifies circ
      ensures Valid() && Data() == [] && circ.dataLen == 0 && fresh(circ.buf)
    {
      var none := new Byte[0];
      circ.Realloc(none);
    }

    /** Grow the buffer, if realloc gives one. */
    method Enlarge(memory: bool)
      requires Valid() && circ.bufLen < maxsz && circ.bufLen - circ.dataLen < MIN_READ
      modifies circ
      ensures Valid() && Data() == old(Data()) && circ.dataLen == old(circ.dataLen)
      ensures if memory then fresh(circ.buf)
          && circ.bufLen == NewLen(old(circ.bufLen), circ.dataLen, maxsz) > old(circ.bufLen)
              else circ.buf == old(circ.buf) && circ.bufLen == old(circ.bufLen)
    {
      if memory {
        var buf := new Byte[NewLen(circ.bufLen, circ.dataLen, maxsz)];
        var i := 0;
        while i < circ.bufLen
          invariant 0 <= i <= circ.bufLen && unchanged(circ) && circ.bufLen <= buf.Length && circ.Valid()
          invariant forall k :: 0 <= k < i ==> buf[k] == circ.buf[k]
        {
          buf[i] := circ.buf[i];
          i := i + 1;
        }
        circ.Realloc(buf);
      }
    }

    /** The call of readv and what speedy_cb_read makes of its result. */
    method Fill(src: Source) returns (ghost bytes: seq<Byte>)
      requires Valid()
      modifies this`eof, circ, circ.buf, src
      ensures Valid() && (circ.buf == old(circ.buf) || fresh(circ.buf)) && circ.dataLen == old(circ.dataLen) + |bytes|
      ensures Data() == old(Data()) + bytes && old(src.rest) == bytes + src.rest && src.given == old(src.given) + bytes
      ensures eof && !old(eof) ==> src.broken || src.rest == [] || old(circ.bufLen == circ.dataLen)
      ensures (old(eof) ==> eof) && (old(src.broken) ==> src.broken) && src.asks == old(src.asks) + 1
    {
      bytes := [];
      assert src.given + [] == src.given && [] + src.rest == src.rest && Data() + [] == Data();
      var r := src.Readv(circ.bufLen - circ.dataLen);
      match r
      case ReadBlocked =>
      case ReadFailed =>
        eof := true;
        if circ.dataLen == 0 { Free(); }
      case Got(got) =>
        bytes := got;
        if got == [] {
          eof := true;
          if circ.dataLen == 0 { Free(); }
        } else {
          circ.Scatter(got);
          circ.AdjLen(|got|, got);
        }
    }

    /** speedy_cb_read; `memory` says whether realloc succeeds if it is called. Once it has, or
        when it was not called for, the read is never one of no bytes, so that the end of file
        that is noticed is a real one. */
    method Read(src: Source, memory: bool) returns (ghost bytes: seq<Byte>)
      requires Valid()
      modifies this`eof, circ, circ.buf, src
      ensures Valid() && (circ.buf == old(circ.buf) || fresh(circ.buf)) && circ.dataLen == old(circ.dataLen) + |bytes|
      ensures Data() == old(Data()) + bytes && old(src.rest) == bytes + src.rest && src.given == old(src.given) + bytes
      ensures eof && !old(eof) ==> src.broken || src.rest == [] || (!memory && old(circ.bufLen == circ.dataLen))
      ensures (old(eof) ==> eof) && (old(src.broken) ==> src.broken)
      ensures src.asks == old(src.asks) + if maxsz != old(circ.dataLen) then 1 else 0
    {
      bytes := [];
      assert src.given + [] == src.given && [] + src.rest == src.rest && Data() + [] == Data();
      if maxsz != circ.dataLen {
        if circ.bufLen - circ.dataLen < MIN_READ && circ.bufLen < maxsz { Enlarge(memory); }
        assert circ.bufLen - circ.dataLen == ReadRoom(old(circ.bufLen), circ.dataLen, maxsz, memory);
        bytes := Fill(src);
      }
    }

    /** The call of writev. */
    method Offer(sink: Sink) returns (n: nat)
      requires Valid() && !writeErr
      modifies this`writeErr, sink
      ensures Valid() && n <= circ.dataLen && sink.taken == old(sink.taken) + Data()[..n] && (writeErr ==> n == 0)
      ensures sink.attempts == old(sink.attempts) + [Attempt(Data(), n)]
    {
      SegsAreRing(circ.buf[..], circ.dataBeg, circ.dataLen);
      var r := sink.Writev(Gathered(circ.buf[..], circ.DataSegs()));
      n := 0;
      assert sink.taken + [] == sink.taken;
      match r
      case WriteBlocked =>
      case WriteFailed => writeErr := true;
      case Took(k) => n := k;
    }

    /** n bytes are done with. */
    method Discard(n: nat)
      requires Valid() && n <= circ.dataLen
      modifies circ
      ensures Valid() && (circ.buf == old(circ.buf) || fresh(circ.buf))
      ensures Data() == old(Data())[n..] && circ.dataLen == old(circ.dataLen) - n
    {
      if n > 0 {
        circ.AdjLen(0 - n, []);
        if eof && circ.dataLen == 0 { Free(); }
      }
    }

    /** speedy_cb_write: `out` reaches the sink; after an error what is left is thrown away. */
    method Write(sink: Sink) returns (ghost out: seq<Byte>, ghost lost: seq<Byte>)
      requires Valid()
      modifies this`writeErr, this`dropped, circ, sink
      ensures Valid() && (circ.buf == old(circ.buf) || fresh(circ.buf))
      ensures old(Data()) == out + lost + Data() && circ.dataLen == old(circ.dataLen) - |out| - |lost|
      ensures sink.taken == old(sink.taken) + out && dropped == old(dropped) + lost
      ensures (!writeErr ==> lost == []) && (writeErr ==> circ.dataLen == 0)
          && (old(writeErr) ==> writeErr && out == [])
      ensures sink.attempts == old(sink.attempts) + if old(writeErr) then [] else [Attempt(old(Data()), |out|)]
    {
      ghost var d := Data();
      var n: nat := 0;
      assert sink.taken + [] == sink.taken;
      if !writeErr { n := Offer(sink); }
      out, lost := d[..n], [];
      if writeErr {
        lost := d;
        dropped := dropped + d;
        n := circ.dataLen;
      }
      assert d == out + lost + d[n..];
      Discard(n);
    }

    /** speedy_cb_shift: the oldest byte, as a char, or -1. */
    method Shift(signed: bool) returns (c: int)
      requires Valid()
      modifies circ
      ensures Valid() && circ.buf == old(circ.buf)
      ensures old(Data()) == [] ==> c == -1 && Data() == []
      ensures old(Data()) != [] ==>
        c == AsChar(old(Data())[0], signed) && Data() == old(Data())[1..] && circ.dataLen == old(circ.dataLen) - 1
    {
      if circ.dataLen == 0 { return -1; }
      var segs := circ.DataSegs();
      SegsAreRing(circ.buf[..], circ.dataBeg, circ.dataLen);
      circ.AdjLen(-1, []);
      c := AsChar(circ.buf[segs[0].beg], signed);
    }
  }
}
