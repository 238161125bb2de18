/** speedy_circ.c: a circular buffer of at most two segments that grows in place. */
module Circular {

  type Byte = x: int | 0 <= x < 256

  /** A stretch of the buffer. */
  datatype Seg = Seg(beg: nat, len: nat)

  /** get_segs: the at most two stretches that `len` bytes from position `beg` on take up. */
  function GetSegs(bufLen: nat, beg: nat, len: nat): (segs: seq<Seg>)
    requires len <= bufLen && (len > 0 ==> beg < bufLen)
    ensures |segs| <= 2 && forall s :: s in segs ==> s.len > 0 && s.beg + s.len <= bufLen
  {
    if len == 0 then []
    else if len <= bufLen - beg then [Seg(beg, len)]
    else [Seg(beg, bufLen - beg), Seg(0, len - (bufLen - beg))]
  }

  /** What stands in the stretches, in order. */
  function Gathered(b: seq<Byte>, segs: seq<Seg>): (r: seq<Byte>)
    requires |segs| <= 2 && forall s :: s in segs ==> s.beg + s.len <= |b|
  {
    if |segs| == 0 then []
    else if |segs| == 1 then b[segs[0].beg..segs[0].beg + segs[0].len]
    else b[segs[0].beg..segs[0].beg + segs[0].len] + b[segs[1].beg..segs[1].beg + segs[1].len]
  }

  function Wrap(n: nat, i: nat): nat { if i < n then i else i - n }

  /** The bytes from position beg on, going round the end. */
  function Ring(b: seq<Byte>, beg: nat, len: nat): (r: seq<Byte>)
    requires len <= |b| && (len > 0 ==> beg < |b|)
    ensures |r| == len && forall i :: 0 <= i < len ==> r[i] == b[Wrap(|b|, beg + i)]
  {
    seq(len, i requires 0 <= i < len => b[Wrap(|b|, beg + i)])
  }

  /** The segments hold exactly the ring, in order. */
  lemma SegsAreRing(b: seq<Byte>, beg: nat, len: nat)
    requires len <= |b| && (len > 0 ==> beg < |b|)
    ensures Gathered(b, GetSegs(|b|, beg, len)) == Ring(b, beg, len)
  {
    var g := Gathered(b, GetSegs(|b|, beg, len));
    assert |g| == len;
    forall i | 0 <= i < len ensures g[i] == b[Wrap(|b|, beg + i)] {
      if len > |b| - beg && i >= |b| - beg { assert g[i] == b[i - (|b| - beg)]; }
    }
  }

  class Circ {
    var buf: array<Byte>
    var bufLen: nat
    var dataBeg: nat
    var dataLen: nat

    ghost predicate Valid()
      reads this
    {
      buf.Length == bufLen && dataLen <= bufLen && if dataLen == 0 then dataBeg == 0 else dataBeg < bufLen
    }

    /** The bytes in the buffer, oldest first. */
    ghost function Data(): (d: seq<Byte>)
      requires Valid()
      reads this, buf
    {
      Ring(buf[..], dataBeg, dataLen)
    }

    constructor (contents: array<Byte>, len: nat)
      requires len <= contents.Length
      ensures Valid() && Data() == contents[..len] && bufLen == contents.Length && buf == contents && dataLen == len
    {
      buf, bufLen, dataBeg, dataLen := contents, contents.Length, 0, len;
    }

    function DataSegs(): (segs: seq<Seg>)
      requires Valid()
      reads this
    {
      GetSegs(bufLen, dataBeg, dataLen)
    }

    function FreeSegs(): (segs: seq<Seg>)
      requires Valid()
      reads this
    {
      if bufLen == 0 then [] else GetSegs(bufLen, (dataBeg + dataLen) % bufLen, bufLen - dataLen)
    }

    /** The next n bytes are the ones now in the ring behind the data. */
    ghost predicate Ready(bytes: seq<Byte>)
      requires Valid()
      reads this, buf
    {
      |bytes| <= bufLen - dataLen && forall i :: 0 <= i < |bytes| ==>
          buf[Wrap(bufLen, dataBeg + dataLen + i)] == bytes[i]
    }

    /** readv puts bytes into the free segments, the first one first. */
    method Scatter(bytes: seq<Byte>)
      requires Valid() && |bytes| <= bufLen - dataLen
      modifies buf
      ensures Data() == old(Data()) && Ready(bytes)
    {
      if bytes == [] { return; }
      var segs := FreeSegs();
      FreeTwo(bufLen, dataBeg, dataLen);
      Fill(segs, bytes);
    }

    method Fill(segs: seq<Seg>, bytes: seq<Byte>)
      requires Valid() && |bytes| <= bufLen - dataLen && Behind(segs, bufLen, dataBeg, dataLen)
      modifies buf
      ensures Data() == old(Data()) && Ready(bytes)
    {
      ghost var b0 := buf[..];
      var n := if |bytes| <= segs[0].len then |bytes| else segs[0].len;
      Copy(segs[0].beg, bytes, 0, n);
      if n < |bytes| { Copy(0, bytes, n, |bytes| - n); }
      forall i | 0 <= i < dataLen ensures Data()[i] == Ring(b0, dataBeg, dataLen)[i] {
        BehindApart(segs, bufLen, dataBeg, dataLen, i);
      }
    }

    method Copy(at: nat, bytes: seq<Byte>, from: nat, n: nat)
      requires at + n <= buf.Length && from + n <= |bytes|
      modifies buf
      ensures forall i :: at <= i < at + n ==> buf[i] == bytes[from + i - at]
      ensures forall i :: 0 <= i < buf.Length && !(at <= i < at + n) ==> buf[i] == old(buf[i])
    {
      var i := 0;
      while i < n
        invariant 0 <= i <= n
        invariant forall k :: at <= k < at + i ==> buf[k] == bytes[from + k - at]
        invariant forall k :: 0 <= k < buf.Length && !(at <= k < at + i) ==> buf[k] == old(buf[k])
      {
        buf[at + i] := bytes[from + i];
        i := i + 1;
      }
    }

    /** speedy_circ_adj_len: bytes were read in, or the oldest ones were written out. */
    method AdjLen(adjust: int, ghost bytes: seq<Byte>)
      requires Valid() && -adjust <= dataLen && (adjust >= 0 ==> adjust == |bytes| && Ready(bytes))
      modifies this`dataLen, this`dataBeg
      ensures Valid() && dataLen == old(dataLen) + adjust
      ensures Data() == if adjust < 0 then old(Data())[-adjust..] else old(Data()) + bytes
    {
      dataLen := dataLen + adjust;
      if adjust < 0 {
        if dataLen == 0 {
          dataBeg := 0;
        } else {
          WrapIsMod(bufLen, dataBeg - adjust);
          dataBeg := (dataBeg - adjust) % bufLen;
        }
      }
    }

    /** memmove within the buffer. */
    method Move(dst: nat, src: nat, len: nat)
      requires dst + len <= buf.Length && src + len <= buf.Length
      modifies buf
      ensures forall i :: dst <= i < dst + len ==> buf[i] == old(buf[src + i - dst])
      ensures forall i :: 0 <= i < buf.Length && !(dst <= i < dst + len) ==> buf[i] == old(buf[i])
    {
      if dst <= src {
        var i := 0;
        while i < len
          invariant i <= len
          invariant forall k :: dst <= k < dst + i ==> buf[k] == old(buf[src + k - dst])
          invariant forall k :: 0 <= k < buf.Length && !(dst <= k < dst + i) ==> buf[k] == old(buf[k])
        {
          buf[dst + i] := buf[src + i];
          i := i + 1;
        }
      } else {
        var i := len;
        while i > 0
          invariant 0 <= i <= len
          invariant forall k :: dst + i <= k < dst + len ==> buf[k] == old(buf[src + k - dst])
          invariant forall k :: 0 <= k < buf.Length && !(dst + i <= k < dst + len) ==> buf[k] == old(buf[k])
        {
          i := i - 1;
          buf[dst + i] := buf[src + i];
        }
      }
    }

    /** memcpy within the buffer, of stretches that do not overlap. */
    method MoveApart(dst: nat, src: nat, len: nat)
      requires dst + len <= buf.Length && src + len <= buf.Length && (src + len <= dst || dst + len <= src)
      modifies buf
      ensures forall i :: dst <= i < dst + len ==> buf[i] == old(buf[src + i - dst])
      ensures forall i :: 0 <= i < buf.Length && !(dst <= i < dst + len) ==> buf[i] == old(buf[i])
    {
      var i := 0;
      while i < len
        invariant i <= len
        invariant forall k :: dst <= k < dst + i ==> buf[k] == old(buf[src + k - dst])
        invariant forall k :: 0 <= k < buf.Length && !(dst <= k < dst + i) ==> buf[k] == old(buf[k])
      {
        buf[dst + i] := buf[src + i];
        i := i + 1;
      }
    }

    /** speedy_circ_realloc: newBuf is what realloc gave, with the old bytes at its beginning.
        When the data goes round the end, the shorter of its two parts is moved. */
    method Realloc(newBuf: array<Byte>)
      requires Valid() && (newBuf.Length > bufLen || dataLen == 0)
      requires newBuf != buf && forall i :: 0 <= i < bufLen && i < newBuf.Length ==> newBuf[i] == buf[i]
      modifies this, newBuf
      ensures Valid() && Data() == old(Data()) && buf == newBuf && bufLen == newBuf.Length && dataLen == old(dataLen)
    {
      var newLen := newBuf.Length;
      ghost var b0, beg, len := buf[..], dataBeg, dataLen;
      var data := GetSegs(bufLen, dataBeg, dataLen);
      buf := newBuf;
      if newLen > bufLen && |data| == 2 {
        if data[0].len <= data[1].len {
          dataBeg := newLen - data[0].len;
          Move(dataBeg, data[0].beg, data[0].len);
        } else {
          MoveSecond(newLen, data[1].len);
        }
      }
      bufLen := newLen;
    }

    /** The second part of the data, which is at the beginning of the buffer, goes behind the
        first, round the new end. */
    method MoveSecond(newLen: nat, second: nat)
      requires bufLen < newLen == buf.Length && 0 < second <= bufLen
      modifies buf
      ensures forall j :: bufLen <= j < bufLen + second ==> buf[Wrap(newLen, j)] == old(buf[j - bufLen])
      ensures forall i :: second <= i < bufLen ==> buf[i] == old(buf[i])
    {
      var fr := GetSegs(newLen, bufLen, second);
      MoveApart(fr[0].beg, 0, fr[0].len);
      if |fr| > 1 { Move(fr[1].beg, fr[0].len, fr[1].len); }
    }
  }

  lemma WrapIsMod(n: nat, i: nat)
    requires i < 2 * n
    ensures i % n == Wrap(n, i)
  {
    if i >= n { assert i == n + (i - n); }
  }

  /** The segments follow the data round the buffer, up to where it begins. */
  ghost predicate Behind(segs: seq<Seg>, n: nat, beg: nat, len: nat) {
    && 1 <= |segs| <= 2 && len < n && beg < n && segs[0].beg == Wrap(n, beg + len)
    && segs[0].beg + segs[0].len <= n && segs[0].len <= n - len
    && (if |segs| == 1 then segs[0].len == n - len
        else segs[0].beg + segs[0].len == n && segs[1] == Seg(0, n - len - segs[0].len))
  }

  lemma FreeTwo(n: nat, beg: nat, len: nat)
    requires len < n && beg < n
    ensures Behind(GetSegs(n, (beg + len) % n, n - len), n, beg, len)
  {
    WrapIsMod(n, beg + len);
  }

  lemma BehindApart(segs: seq<Seg>, n: nat, beg: nat, len: nat, i: nat)
    requires Behind(segs, n, beg, len) && i < len
    ensures !(segs[0].beg <= Wrap(n, beg + i) < segs[0].beg + segs[0].len)
    ensures |segs| > 1 ==> Wrap(n, beg + i) >= segs[1].len
  {
  }
}
