/** A request from end to end: encoded, carried in whatever pieces, decoded. */
module Transport {
  import opened Circular
  import opened Streams
  import opened CopyLoop
  import opened Wire

  /** As soon as the whole header has gone out, the backend decodes exactly what was encoded,
      and what it finds after the header is a prefix of what the frontend read from stdin. */
  lemma RequestArrives(c: Channel, h: Header)
    requires c.Valid() && c.kind == In && Sendable(h) && c.initial == Encode(h) && |c.sink.taken| >= |Encode(h)|
    ensures var p := Decode(c.sink.taken);
      && p.Parsed? && p.value == h.(env := NonEmpty(h.env), args := NonEmpty(h.args))
      && p.rest <= c.src.given && c.src.given == p.rest + (c.b.dropped + c.b.Data())
  {
    hide Decode, Encode;
    var t, later := c.sink.taken, c.b.dropped + c.b.Data();
    var n := |Encode(h)|;
    assert Flows(c.initial + c.src.given, c.proto, t, c.b.dropped, c.b.Data());
    assert c.initial + c.src.given == t + later by { assert [] + (t + later) == t + later; }
    Split(c.initial, c.src.given, t, later);
    HeaderRoundTrip(h, t[n..]);
  }

  lemma Split(a: Bytes, b: Bytes, t: Bytes, later: Bytes)
    requires a + b == t + later && |t| >= |a|
    ensures t == a + t[|a|..] && b == t[|a|..] + later
  {
    assert t == (t + later)[..|t|];
    assert a == (a + b)[..|a|];
    assert b == (a + b)[|a|..];
    assert (t + later)[|a|..] == t[|a|..] + later;
  }
}
