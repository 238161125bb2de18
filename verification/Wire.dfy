/** The header of a request: the encoder of the frontend and the decoder of the backend. */
module Wire {
  import opened Circular

  const MAX_SHORT_STR := 255
  const INT_SIZE := 4
  const INT_LIMIT := 0x8000_0000
  const DEVINO_SIZE := 16
  const CWD_IN_SCRIPT: Byte := 0
  const CWD_DEVINO: Byte := 1
  const CWD_UNKNOWN: Byte := 2

  type Bytes = seq<Byte>

  /** Where the working directory is said to be. */
  datatype Cwd = InScript | At(devino: Bytes) | Unknown

  datatype Header = Header(env: seq<Bytes>, args: seq<Bytes>, script: Bytes, devino: Bytes, cwd: Cwd)

  /** An int as it lies in memory; both processes run on the same machine. */
  function IntBytes(n: nat): (b: Bytes)
    requires n < INT_LIMIT
    ensures |b| == INT_SIZE
  {
    [n % 256, n / 256 % 256, n / 65536 % 256, n / 16777216]
  }

  function IntOf(b: Bytes): (n: nat)
    requires |b| == INT_SIZE
  {
    b[0] as int + 256 * (b[1] as int) + 65536 * (b[2] as int) + 16777216 * (b[3] as int)
  }

  lemma IntRoundTrip(n: nat)
    requires n < INT_LIMIT
    ensures IntOf(IntBytes(n)) == n
  {
    assert n == n % 256 + 256 * (n / 256);
    assert n / 256 == n / 256 % 256 + 256 * (n / 65536);
    assert n / 65536 == n / 65536 % 256 + 256 * (n / 16777216);
  }

  /** Strings whose length fits an int. */
  predicate Short(s: Bytes) { |s| < INT_LIMIT }

  function Str(s: Bytes): (b: Bytes)
    requires Short(s)
  {
    (if |s| >= MAX_SHORT_STR then [MAX_SHORT_STR as Byte] + IntBytes(|s|) else [|s|]) + s
  }

  /** add_strings: the strings that are not empty, and an empty one at the end. */
  function Strs(l: seq<Bytes>): (b: Bytes)
    requires forall s :: s in l ==> Short(s)
  {
    if l == [] then [0] else (if l[0] == [] then [] else Str(l[0])) + Strs(l[1..])
  }

  function CwdBytes(c: Cwd): Bytes {
    match c
    case InScript => [CWD_IN_SCRIPT]
    case At(devino) => [CWD_DEVINO] + devino
    case Unknown => [CWD_UNKNOWN]
  }

  predicate Sendable(h: Header) {
    && (forall s :: s in h.env ==> Short(s)) && (forall s :: s in h.args ==> Short(s)) && Short(h.script)
    && |h.devino| == DEVINO_SIZE && (h.cwd.At? ==> |h.cwd.devino| == DEVINO_SIZE)
  }

  function Encode(h: Header): Bytes
    requires Sendable(h)
  {
    Strs(h.env) + (Strs(h.args) + (Str(h.script) + (h.devino + CwdBytes(h.cwd))))
  }

  // ---- the decoder ----

  /** What was read and what follows it; Bad when the stream ends before. */
  datatype Parsed<T> = Bad | Parsed(value: T, rest: Bytes)

  /** A string that get_string returns: NULL for the length byte 0, and only for that. An int that
      says 0 gives a string without bytes, which the encoder never sends. */
  datatype Text = Null | Text(bytes: Bytes)

  function BytesOf(t: Text): Bytes { if t.Null? then [] else t.bytes }

  /** What the encoder sends for a string. */
  function Sent(s: Bytes): Text { if s == [] then Null else Text(s) }

  function TakeText(s: Bytes, n: nat): Parsed<Text> {
    match Take(s, n) case Bad => Bad case Parsed(b, rest) => Parsed(Text(b), rest)
  }

  function Take(s: Bytes, n: nat): Parsed<Bytes> {
    if n <= |s| then Parsed(s[..n], s[n..]) else Bad
  }

  /** get_string. */
  function ParseString(s: Bytes): Parsed<Text> {
    if s == [] then Bad
    else if s[0] == 0 then Parsed(Null, s[1..])
    else if s[0] != MAX_SHORT_STR then TakeText(s[1..], s[0])
    else match Take(s[1..], INT_SIZE)
      case Bad => Bad
      case Parsed(b, rest) => TakeText(rest, IntOf(b))
  }

  /** Strings up to the first NULL. */
  function ParseStrings(s: Bytes): Parsed<seq<Bytes>>
    decreases |s|
  {
    match ParseString(s)
    case Bad => Bad
    case Parsed(text, rest) =>
      if text.Null? then Parsed([], rest)
      else if |rest| >= |s| then Bad
      else match ParseStrings(rest)
        case Bad => Bad
        case Parsed(more, rest2) => Parsed([text.bytes] + more, rest2)
  }

  function GetCwd(s: Bytes): Parsed<Cwd> {
    if s == [] then Bad
    else if s[0] == CWD_IN_SCRIPT then Parsed(InScript, s[1..])
    else if s[0] == CWD_DEVINO then
      (match Take(s[1..], DEVINO_SIZE)
       case Bad => Bad
       case Parsed(d, rest) => Parsed(At(d), rest))
    else Parsed(Unknown, s[1..])
  }

  /** The part of onerun that reads the header. */
  function Decode(s: Bytes): Parsed<Header> {
    var env := ParseStrings(s);
    if env.Bad? then Bad else
    var args := ParseStrings(env.rest);
    if args.Bad? then Bad else
    var script := ParseString(args.rest);
    if script.Bad? then Bad else
    var devino := Take(script.rest, DEVINO_SIZE);
    if devino.Bad? then Bad else
    var cwd := GetCwd(devino.rest);
    if cwd.Bad? then Bad else
    Parsed(Header(env.value, args.value, BytesOf(script.value), devino.value, cwd.value), cwd.rest)
  }

  // ---- the round trip ----

  lemma StringRoundTrip(s: Bytes, tail: Bytes)
    requires Short(s)
    ensures ParseString(Str(s) + tail) == Parsed(Sent(s), tail)
  {
    var b := Str(s) + tail;
    if |s| >= MAX_SHORT_STR {
      IntRoundTrip(|s|);
      assert b[1..] == IntBytes(|s|) + (s + tail);
      assert (IntBytes(|s|) + (s + tail))[..INT_SIZE] == IntBytes(|s|);
      assert (IntBytes(|s|) + (s + tail))[INT_SIZE..] == s + tail;
    } else {
      assert b[1..] == s + tail;
    }
    assert (s + tail)[..|s|] == s && (s + tail)[|s|..] == tail;
  }

  function NonEmpty(l: seq<Bytes>): seq<Bytes> {
    if l == [] then [] else (if l[0] == [] then [] else [l[0]]) + NonEmpty(l[1..])
  }

  lemma {:induction false} StringsRoundTrip(l: seq<Bytes>, tail: Bytes)
    requires forall s :: s in l ==> Short(s)
    ensures ParseStrings(Strs(l) + tail) == Parsed(NonEmpty(l), tail)
  {
    if l == [] {
      assert ([0] + tail)[1..] == tail;
    } else {
      StringsRoundTrip(l[1..], tail);
      if l[0] != [] {
        StringRoundTrip(l[0], Strs(l[1..]) + tail);
        assert Strs(l) + tail == Str(l[0]) + (Strs(l[1..]) + tail);
      } else {
        assert Strs(l) == Strs(l[1..]) && NonEmpty(l) == NonEmpty(l[1..]);
      }
    }
  }

  /** The backend reads back what the frontend sent, without the empty strings, and finds the
      rest of the stream untouched. */
  lemma HeaderRoundTrip(h: Header, tail: Bytes)
    requires Sendable(h)
    ensures Decode(Encode(h) + tail) == Parsed(h.(env := NonEmpty(h.env), args := NonEmpty(h.args)), tail)
  {
    var c := CwdBytes(h.cwd) + tail;
    var d := h.devino + c;
    var e := Str(h.script) + d;
    var f := Strs(h.args) + e;
    assert Encode(h) + tail == Strs(h.env) + f;
    StringsRoundTrip(h.env, f);
    StringsRoundTrip(h.args, e);
    StringRoundTrip(h.script, d);
    assert Take(d, DEVINO_SIZE) == Parsed(h.devino, c);
    CwdRoundTrip(h.cwd, tail);
  }

  lemma CwdRoundTrip(c: Cwd, tail: Bytes)
    requires c.At? ==> |c.devino| == DEVINO_SIZE
    ensures GetCwd(CwdBytes(c) + tail) == Parsed(c, tail)
  {
    match c
    case At(devino) =>
      assert (CwdBytes(c) + tail)[1..] == devino + tail;
      assert Take(devino + tail, DEVINO_SIZE) == Parsed(devino, tail);
    case _ =>
      assert (CwdBytes(c) + tail)[1..] == tail;
  }

  /** SpeedyBuf: the buffer the header is put together in, made larger when it is full. */
  class Buffer {
    var buf: array<Byte>
    var len: nat

    ghost predicate Valid()
      reads this
    {
      len <= buf.Length
    }

    ghost function Contents(): (c: Bytes)
      requires Valid()
      reads this, buf
    {
      buf[..len]
    }

    constructor (bytes: nat)
      ensures Valid() && Contents() == [] && fresh(buf)
    {
      buf, len := new Byte[bytes], 0;
    }

    /** BUF_ENLARGE with enlarge_buf: twice the size, or more if that is not enough. */
    method Enlarge(add: nat)
      requires Valid()
      modifies this`buf
      ensures Valid() && len + add <= buf.Length && Contents() == old(Contents()) && (buf == old(buf) || fresh(buf))
    {
      if len + add > buf.Length {
        var size := buf.Length * 2;
        if size < len + add { size := len + add; }
        var larger := new Byte[size];
        var i := 0;
        while i < len
          invariant 0 <= i <= len <= larger.Length && len == old(len) && buf == old(buf) && larger[..i] == buf[..i]
        {
          larger[i] := buf[i];
          i := i + 1;
        }
        buf := larger;
      }
    }

    method Put(s: Bytes)
      requires Valid() && len + |s| <= buf.Length
      modifies this`len, buf
      ensures Valid() && Contents() == old(Contents()) + s
    {
      var i := 0;
      while i < |s|
        invariant 0 <= i <= |s| && len == old(len) && buf[..len] == old(buf[..len]) && buf[len..len + i] == s[..i]
      {
        buf[len + i] := s[i];
        i := i + 1;
      }
      assert buf[..len + |s|] == buf[..len] + buf[len..len + |s|];
      len := len + |s|;
    }

    method Add(s: Bytes)
      requires Valid()
      modifies this, buf
      ensures Valid() && Contents() == old(Contents()) + s && (buf == old(buf) || fresh(buf))
    {
      Enlarge(|s|);
      Put(s);
    }

    method AddString(s: Bytes)
      requires Valid() && Short(s)
      modifies this, buf
      ensures Valid() && Contents() == old(Contents()) + Str(s) && (buf == old(buf) || fresh(buf))
    {
      ghost var c := Contents();
      if |s| >= MAX_SHORT_STR {
        Enlarge(INT_SIZE + 1);
        Put([MAX_SHORT_STR]);
        Put(IntBytes(|s|));
      } else {
        Add([|s|]);
      }
      assert Contents() + s == c + Str(s);
      Add(s);
    }

    method AddStrings(l: seq<Bytes>)
      requires Valid() && forall s :: s in l ==> Short(s)
      modifies this, buf
      ensures Valid() && Contents() == old(Contents()) + Strs(l) && (buf == old(buf) || fresh(buf))
    {
      hide Str, Strs;
      ghost var c, done := Contents(), [];
      var i := 0;
      StrsStart(l);
      assert c + done == c;
      while i < |l|
        invariant 0 <= i <= |l| && Valid() && (buf == old(buf) || fresh(buf))
        invariant Contents() == c + done && StrsLeft(done, l, i)
      {
        StrsStep(done, l, i);
        if |l[i]| != 0 {
          AddString(l[i]);
          assert (c + done) + Str(l[i]) == c + (done + Str(l[i]));
          done := done + Str(l[i]);
        }
        i := i + 1;
      }
      Add([0]);
      StrsEnd(done, l);
      assert c + (done + [0]) == (c + done) + [0];
    }

    /** speedy_frontend_mkenv. */
    method MakeEnv(h: Header)
      requires Valid() && Sendable(h) && len == 0
      modifies this, buf
      ensures Valid() && Contents() == Encode(h)
    {
      hide Str, Strs, CwdBytes;
      AddStrings(h.env);
      AddStrings(h.args);
      AddString(h.script);
      Add(h.devino);
      AddCwd(h.cwd);
      Joins(Strs(h.env), Strs(h.args), Str(h.script), h.devino, CwdBytes(h.cwd));
    }

    method AddCwd(c: Cwd)
      requires Valid()
      modifies this, buf
      ensures Valid() && Contents() == old(Contents()) + CwdBytes(c) && (buf == old(buf) || fresh(buf))
    {
      match c {
        case InScript => Add([CWD_IN_SCRIPT]);
        case At(devino) =>
          ghost var d := Contents();
          Add([CWD_DEVINO]);
          Add(devino);
          assert (d + [CWD_DEVINO]) + devino == d + ([CWD_DEVINO] + devino);
        case Unknown => Add([CWD_UNKNOWN]);
      }
    }
  }

  lemma Joins(a: Bytes, b: Bytes, c: Bytes, d: Bytes, e: Bytes)
    ensures [] + a + b + c + d + e == a + (b + (c + (d + e)))
  {
  }

  /** What is still to be added to `done` is the encoding of the strings from i on. */
  ghost predicate StrsLeft(done: Bytes, l: seq<Bytes>, i: int)
    requires forall s :: s in l ==> Short(s)
  {
    0 <= i <= |l| && done + Strs(l[i..]) == Strs(l)
  }

  lemma StrsStart(l: seq<Bytes>)
    requires forall s :: s in l ==> Short(s)
    ensures StrsLeft([], l, 0)
  {
    assert l[0..] == l && [] + Strs(l) == Strs(l);
  }

  lemma StrsStep(done: Bytes, l: seq<Bytes>, i: nat)
    requires (forall s :: s in l ==> Short(s)) && i < |l| && StrsLeft(done, l, i)
    ensures StrsLeft(if l[i] == [] then done else done + Str(l[i]), l, i + 1)
  {
    hide Str;
    assert l[i..][1..] == l[i + 1..];
    if l[i] == [] { assert [] + Strs(l[i + 1..]) == Strs(l[i + 1..]); }
    else { assert done + (Str(l[i]) + Strs(l[i + 1..])) == (done + Str(l[i])) + Strs(l[i + 1..]); }
  }

  lemma StrsEnd(done: Bytes, l: seq<Bytes>)
    requires (forall s :: s in l ==> Short(s)) && StrsLeft(done, l, |l|)
    ensures done + [0] == Strs(l)
  {
  }

  /** The stream the backend reads. */
  class Input {
    var rest: Bytes

    method Getc() returns (c: int)
      modifies this
      ensures if old(rest) == [] then c == -1 && rest == [] else c == old(rest)[0] && rest == old(rest)[1..]
    {
      if rest == [] { return -1; }
      c := rest[0];
      rest := rest[1..];
    }

    method Read(n: nat) returns (b: Bytes, ok: bool)
      modifies this
      ensures ok <==> n <= |old(rest)|
      ensures ok ==> Take(old(rest), n) == Parsed(b, rest)
    {
      b, ok := [], false;
      if n <= |rest| {
        b, rest, ok := rest[..n], rest[n..], true;
      }
    }

    method GetString() returns (s: Text, ok: bool)
      modifies this
      ensures ok <==> ParseString(old(rest)).Parsed?
      ensures ok ==> ParseString(old(rest)) == Parsed(s, rest)
    {
      s := Null;
      var sz := Getc();
      if sz == -1 { return Null, false; }
      if sz == 0 { return Null, true; }
      if sz == MAX_SHORT_STR {
        var b;
        b, ok := Read(INT_SIZE);
        if !ok { return; }
        sz := IntOf(b);
      }
      var text;
      text, ok := Read(sz);
      s := Text(text);
    }

    /** The loops of onerun that read the environment and the arguments. */
    method GetStrings() returns (l: seq<Bytes>, ok: bool)
      modifies this
      ensures ok <==> ParseStrings(old(rest)).Parsed?
      ensures ok ==> ParseStrings(old(rest)) == Parsed(l, rest)
    {
      l, ok := [], false;
      JoinedNone(ParseStrings(rest));
      while true
        invariant Joined(l, ParseStrings(rest)) == ParseStrings(old(rest))
        decreases |rest|
      {
        ParseStep(l, rest);
        var s;
        s, ok := GetString();
        if !ok || s.Null? { break; }
        l := l + [s.bytes];
      }
    }
  }

  /** The part of onerun that reads the header. */
  method ReadHeader(input: Input) returns (h: Header, ok: bool)
    modifies input
    ensures ok <==> Decode(old(input.rest)).Parsed?
    ensures ok ==> Decode(old(input.rest)) == Parsed(h, input.rest)
  {
    hide ParseStrings, ParseString;
    h, ok := Header([], [], [], [], Unknown), false;
    var env, args, devino, script: Text;
    env, ok := input.GetStrings();
    if !ok { return; }
    args, ok := input.GetStrings();
    if !ok { return; }
    script, ok := input.GetString();
    if !ok { return; }
    devino, ok := input.Read(DEVINO_SIZE);
    if !ok { return; }
    var whence := input.Getc();
    var cwd := Unknown;
    if whence == -1 { return h, false; }
    if whence == CWD_IN_SCRIPT {
      cwd := InScript;
    } else if whence == CWD_DEVINO {
      var d;
      d, ok := input.Read(DEVINO_SIZE);
      if !ok { return; }
      cwd := At(d);
    }
    h := Header(env, args, BytesOf(script), devino, cwd);
  }

  /** The strings read so far before those still to be read. */
  function Joined(l: seq<Bytes>, p: Parsed<seq<Bytes>>): Parsed<seq<Bytes>> {
    match p case Bad => Bad case Parsed(more, rest) => Parsed(l + more, rest)
  }

  lemma JoinedNone(p: Parsed<seq<Bytes>>)
    ensures Joined([], p) == p
  {
    if p.Parsed? { assert [] + p.value == p.value; }
  }

  /** One more string off the stream. */
  lemma ParseStep(l: seq<Bytes>, s: Bytes)
    ensures var p := ParseString(s);
      if p.Bad? then Joined(l, ParseStrings(s)) == Bad
      else |p.rest| < |s| && Joined(l, ParseStrings(s)) ==
           if p.value.Null? then Parsed(l, p.rest) else Joined(l + [p.value.bytes], ParseStrings(p.rest))
  {
    var p := ParseString(s);
    assert l + [] == l;
    if p.Parsed? && p.value.Text? {
      var q := ParseStrings(p.rest);
      if q.Parsed? { assert l + ([p.value.bytes] + q.value) == (l + [p.value.bytes]) + q.value; }
    }
  }
}
