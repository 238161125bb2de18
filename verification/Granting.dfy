/** Signalling frontends, granting a backend and taking one back keep the invariant, and respect
    the other processes. A granted backend is out of order in its list until it is linked or goes;
    a returned one is put where the order wants it. */
module Granting {
  import opened Lists
  import opened Store
  import opened Conservation
  import opened Invariants
  import opened Respect
  import opened Keeping
  import opened Sections
  import opened Joining

  lemma SentFlagFrames(s: Store, f: nat, sent: bool, y: nat, self: nat, L: set<nat>, A: set<nat>)
    requires IsQueued(s, f)
    ensures var t := s.PutFe(f, s.Fe(f).(sent := sent));
      Respects(s, t, y, self, L, A) && SameBackends(s, t) && SameRunning(s, t) && SameIndex(s, t)
  {
  }

  lemma SentFlagSent(s: Store, f: nat, sent: bool)
    requires Wf(s) && SentAtHead(s) && IsQueued(s, f)
    requires sent ==> exists g :: s.Gr(g).fes != [] && s.Gr(g).fes[0] == f
    ensures SentAtHead(s.PutFe(f, s.Fe(f).(sent := sent)))
  {
    var t := s.PutFe(f, s.Fe(f).(sent := sent));
    forall h, a, c | Precedes(t.Gr(h).fes, a, c) ensures !t.Fe(c).sent {
      assert Precedes(s.Gr(h).fes, a, c);
      if c == f && sent {
        var g :| s.Gr(g).fes != [] && s.Gr(g).fes[0] == f;
        PrecedesIn(s.Gr(h).fes, a, c);
        QueuedFe(s, h, f);
        QueuedFe(s, g, f);
        assert ListOf(s, FeList(g)) == s.Gr(g).fes;
        PrecedesAsym(s.Gr(g).fes, a, c);
      }
    }
  }

  lemma SentFlagInv(s: Store, f: nat, sent: bool, x: nat, max: nat)
    requires Inv(s, x, max) && IsQueued(s, f)
    requires sent ==> exists g :: s.Gr(g).fes != [] && s.Gr(g).fes[0] == f
    ensures Inv(s.PutFe(f, s.Fe(f).(sent := sent)), x, max)
  {
    var t := s.PutFe(f, s.Fe(f).(sent := sent));
    PutFeWf(s, f, s.Fe(f).(sent := sent));
    SentFlagFrames(s, f, sent, 0, 0, {}, {});
    SentFlagSent(s, f, sent);
    BoundFrame(s, t); SortedFrame(s, t, x); WithinMaxFrame(s, t, max); IndexedFrame(s, t);
  }

  lemma SendSigsKeeps(s: Store, g: nat, x: nat, max: nat, f: nat, self: nat, L: set<nat>, A: set<nat>)
    requires Inv(s, x, max) && L <= s.live
    ensures var t := SendSigs(s, g);
      Inv(t, x, max) && Respects(s, t, f, self, L, A) && SameBackends(s, t) && SameIndex(s, t) && t.live == s.live
  {
    hide Respects, Bound, Sorted, SentAtHead, WithinMax, Indexed;
    RespectsRefl(s, f, self, L, A);
    SameRefl(s);
    DropDeadKeeps(s, g, x, max, f, self, L, A);
    var s1 := DropDead(s, g);
    var l := s1.Gr(g).fes;
    if l != [] {
      QueuedFe(s1, g, l[0]);
      SentFlagInv(s1, l[0], true, x, max);
      SentFlagFrames(s1, l[0], true, f, self, L, A);
      RespectsTrans(s, s1, s1.PutFe(l[0], s1.Fe(l[0]).(sent := true)), f, self, L, A);
    }
  }

  /** A group's be_starting may be set anew when the process it names is dead, unset or the
      lock holder. */
  lemma StartingFrames(s: Store, g: nat, pid: nat, f: nat, self: nat, L: set<nat>, A: set<nat>)
    requires IsGr(s, g) && (s.Gr(g).starting !in L || s.Gr(g).starting == self)
    ensures var t := s.PutGr(g, s.Gr(g).(starting := pid));
      Respects(s, t, f, self, L, A) && SameBackends(s, t) && SameIndex(s, t)
      && SameQueues(s, t) && SameRunning(s, t)
  {
  }

  lemma FramesInv(s: Store, t: Store, x: nat, max: nat)
    requires Inv(s, x, max) && Wf(t)
    requires SameBackends(s, t) && SameIndex(s, t) && SameQueues(s, t) && SameRunning(s, t)
    ensures Inv(t, x, max)
  {
    BoundFrame(s, t); SortedFrame(s, t, x); WithinMaxFrame(s, t, max); IndexedFrame(s, t); SentFrame(s, t);
  }

  lemma StartingKeeps(s: Store, g: nat, pid: nat, x: nat, max: nat, f: nat, self: nat, L: set<nat>, A: set<nat>)
    requires Inv(s, x, max) && IsGr(s, g) && (s.Gr(g).starting !in L || s.Gr(g).starting == self)
    ensures var t := s.PutGr(g, s.Gr(g).(starting := pid));
      Inv(t, x, max) && Respects(s, t, f, self, L, A) && SameBackends(s, t) && SameIndex(s, t)
      && SameQueues(s, t) && SameRunning(s, t)
  {
    PutGrWf(s, g, s.Gr(g).(starting := pid));
    StartingFrames(s, g, pid, f, self, L, A);
    FramesInv(s, s.PutGr(g, s.Gr(g).(starting := pid)), x, max);
  }

  lemma BeStartingKeeps(s: Store, g: nat, x: nat, max: nat, f: nat, self: nat, L: set<nat>, A: set<nat>)
    requires Inv(s, x, max) && IsGr(s, g) && L <= s.live && 0 !in s.live
    ensures var (t, p) := BeStarting(s, g);
      Inv(t, x, max) && Respects(s, t, f, self, L, A) && SameBackends(s, t) && SameIndex(s, t)
      && SameQueues(s, t) && SameRunning(s, t) && t.live == s.live && IsGr(t, g)
      && t.Gr(g) == s.Gr(g).(starting := p) && (p != 0 ==> p in s.live) && (p == 0 ==> s.Gr(g).starting !in s.live)
  {
    if s.Gr(g).starting !in s.live { StartingKeeps(s, g, 0, x, max, f, self, L, A); }
  }

  lemma MoveTailPrecedes(l: seq<nat>, x: nat, a: nat, b: nat)
    requires NoDup(l) && x in l
    ensures a != x && b != x && Precedes(MoveTail(l, x), a, b) ==> Precedes(l, a, b)
  {
    PrecedesWithout(l, x, a, b);
    PrecedesSnoc(Without(l, x), x, a, b);
  }

  lemma GrabSorted(s: Store, g: nat)
    requires Sorted(s, 0) && IsGr(s, g) && s.Gr(g).bes != [] && NoDup(s.Gr(g).bes)
    requires forall h :: 0 !in s.Gr(h).bes
    ensures var b := s.Gr(g).bes[0]; Sorted(s.PutGr(g, s.Gr(g).(bes := MoveTail(s.Gr(g).bes, b))), b)
  {
    var l := s.Gr(g).bes;
    var b := l[0];
    var t := s.PutGr(g, s.Gr(g).(bes := MoveTail(l, b)));
    forall h, a, c | Precedes(t.Gr(h).bes, a, c) && a != b && c != b ensures Ordered(t, a, c) {
      if h == g { MoveTailPrecedes(l, b, a, c); }
      PrecedesIn(s.Gr(h).bes, a, c);
      assert Ordered(s, a, c);
    }
  }

  lemma GrabFrames(s: Store, g: nat, f: nat, self: nat, L: set<nat>, A: set<nat>)
    requires IsGr(s, g) && s.Gr(g).bes != [] && s.Gr(g).starting !in L
    ensures var t := s.PutGr(g, s.Gr(g).(bes := MoveTail(s.Gr(g).bes, s.Gr(g).bes[0])));
      Respects(s, t, f, self, L, A) && SameIndex(s, t) && SameQueues(s, t) && SameRunning(s, t)
  {
  }

  lemma NoZero(s: Store)
    requires Wf(s)
    ensures 0 !in s.m && forall h :: 0 !in s.Gr(h).bes
  {
    forall h ensures 0 !in s.Gr(h).bes {
      assert ListOf(s, BeList(h)) == s.Gr(h).bes && Home(s, 0) == Nowhere;
    }
  }

  /** The head of the backend list goes to the tail: it is grabbed. */
  lemma GrabKeeps(s: Store, g: nat, max: nat, f: nat, self: nat, L: set<nat>, A: set<nat>)
    requires Inv(s, 0, max) && IsGr(s, g) && s.Gr(g).bes != [] && s.Gr(g).starting !in L
    ensures var b := s.Gr(g).bes[0]; var t := s.PutGr(g, s.Gr(g).(bes := MoveTail(s.Gr(g).bes, b)));
      Inv(t, b, max) && Respects(s, t, f, self, L, A)
      && SameIndex(s, t) && SameQueues(s, t) && SameRunning(s, t)
  {
    var l := s.Gr(g).bes;
    var t := s.PutGr(g, s.Gr(g).(bes := MoveTail(l, l[0])));
    assert l == ListOf(s, BeList(g));
    MoveTailEffect(l, l[0]);
    ReorderBesWf(s, g, MoveTail(l, l[0]));
    GrabBound(s, g, MoveTail(l, l[0]));
    GrabFrames(s, g, f, self, L, A);
    SentFrame(s, t); IndexedFrame(s, t);
    WithoutNoDup(l, l[0]);
    NoZero(s);
    GrabSorted(s, g);
  }

  lemma GrabBound(s: Store, g: nat, l: seq<nat>)
    requires Bound(s) && IsGr(s, g)
    ensures Bound(s.PutGr(g, s.Gr(g).(bes := l)))
  {
  }

  lemma BeWaitGetKeeps(s: Store, g: nat, max: nat, f: nat, self: nat, L: set<nat>, A: set<nat>)
    requires Inv(s, 0, max) && IsGr(s, g) && L <= s.live && 0 !in s.live
    ensures var (t, b) := BeWaitGet(s, g);
      Inv(t, b, max) && Respects(s, t, f, self, L, A)
      && SameIndex(s, t) && SameQueues(s, t) && SameRunning(s, t) && t.live == s.live && IsGr(t, g)
      && (b != 0 ==> IsBe(t, b) && t.m[b].be == s.Be(b) && t.m[b].be.feRunning == 0 && t.m[b].be.grp == g
                     && t.Gr(g).starting == 0 && s.Gr(g).starting !in s.live)
  {
    hide Respects,Bound,Sorted,SentAtHead,WithinMax,Indexed;
    BeStartingKeeps(s, g, 0, max, f, self, L, A);
    var (s1, p) := BeStarting(s, g);
    var l := s1.Gr(g).bes;
    if p == 0 && l != [] && s1.Be(l[0]).feRunning == 0 {
      GrabKeeps(s1, g, max, f, self, L, A);
      assert l[0] in ListOf(s1, BeList(g)) && Home(s1, l[0]) == BeList(g);
      RespectsTrans(s, s1, BeWaitGet(s, g).0, f, self, L, A);
    }
  }

  // ---- be_wait_put ----

  /** The list of be_wait_put is sorted: the backend goes before every backend that is busy
      or not more mature, and after every waiting one that is more mature. */
  lemma PutSorted(s: Store, g: nat, b: nat)
    requires Sorted(s, 0) && IsGr(s, g) && IsBe(s, b) && s.m[b].be.feRunning == 0
    requires forall h :: 0 !in s.Gr(h).bes && (h != g ==> b !in s.Gr(h).bes)
    ensures b !in s.Gr(g).bes ==>
      Sorted(s.PutGr(g, s.Gr(g).(bes :=
        InsertBefore(s.Gr(g).bes, b, (c: nat) => GoesBefore(s, s.Be(b).maturity, c)))), 0)
  {
    if b !in s.Gr(g).bes {
      var stop := (c: nat) => GoesBefore(s, s.Be(b).maturity, c);
      var t := s.PutGr(g, s.Gr(g).(bes := InsertBefore(s.Gr(g).bes, b, stop)));
      forall h, a, c | Precedes(t.Gr(h).bes, a, c) ensures Ordered(t, a, c) {
        if h != g {
          PrecedesIn(s.Gr(h).bes, a, c);
          assert Ordered(s, a, c);
        } else {
          PutOrdered(s, g, b, a, c);
        }
      }
    }
  }

  lemma PutOrdered(s: Store, g: nat, b: nat, a: nat, c: nat)
    requires Sorted(s, 0) && s.Be(b).feRunning == 0 && 0 !in s.Gr(g).bes && b !in s.Gr(g).bes
    requires Precedes(InsertBefore(s.Gr(g).bes, b, (c: nat) => GoesBefore(s, s.Be(b).maturity, c)), a, c)
    ensures Ordered(s, a, c)
  {
    var stop := (c: nat) => GoesBefore(s, s.Be(b).maturity, c);
    var l := s.Gr(g).bes;
    PrecedesInsertBefore(l, b, stop, a, c);
    if a == b {
      InsertBeforeAfter(l, b, stop, c);
      var d :| d in l && stop(d) && (d == c || Precedes(l, d, c));
      if d != c {
        PrecedesIn(l, d, c);
        assert Ordered(s, d, c);
      }
    } else if c != b {
      PrecedesIn(l, a, c);
      assert Ordered(s, a, c);
    }
  }

  /** Taking b off its list and making it wait keeps the rest sorted. */
  lemma PulledSorted(s: Store, g: nat, b: nat, v: Backend)
    requires Sorted(s, 0) && IsGr(s, g) && IsBe(s, b) && v.feRunning == 0
    requires forall h :: 0 !in s.Gr(h).bes && (h != g ==> b !in s.Gr(h).bes)
    ensures Sorted(s.PutBe(b, v).PutGr(g, s.Gr(g).(bes := Without(s.Gr(g).bes, b))), 0)
  {
    var t := s.PutBe(b, v).PutGr(g, s.Gr(g).(bes := Without(s.Gr(g).bes, b)));
    forall h, a, c | Precedes(t.Gr(h).bes, a, c) ensures Ordered(t, a, c) {
      if h == g { PrecedesWithout(s.Gr(g).bes, b, a, c); }
      PrecedesIn(s.Gr(h).bes, a, c);
      assert Ordered(s, a, c);
    }
  }

  lemma PutFrames(s: Store, g: nat, b: nat, l: seq<nat>)
    requires IsGr(s, g) && IsBe(s, b)
    ensures var t := s.PutBe(b, s.m[b].be.(feRunning := 0)).PutGr(g, s.Gr(g).(bes := l));
      SameIndex(s, t) && SameQueues(s, t) && SameRunning(s, t)
  {
  }

  lemma PutRespects(s: Store, g: nat, b: nat, l: seq<nat>, self: nat, L: set<nat>, A: set<nat>)
    requires IsGr(s, g) && IsBe(s, b) && s.m[b].be.feRunning != 0
    requires forall c :: c in l ==> c in s.Gr(g).bes
    ensures var t := s.PutBe(b, s.m[b].be.(feRunning := 0)).PutGr(g, s.Gr(g).(bes := l)); Respects(s, t, b, self, L, A)
  {
  }

  lemma PutBound(s: Store, g: nat, b: nat, l: seq<nat>)
    requires 0 !in s.m && Bound(s) && IsGr(s, g) && IsBe(s, b) && s.m[b].be.feRunning == b
    ensures Bound(s.PutBe(b, s.m[b].be.(feRunning := 0)).PutGr(g, s.Gr(g).(bes := l)))
  {
  }

  lemma BeWaitPutKeeps(s: Store, g: nat, b: nat, max: nat, self: nat, L: set<nat>, A: set<nat>)
    requires Inv(s, 0, max) && IsBe(s, b) && s.m[b].be.grp == g && s.m[b].be.feRunning == b
    ensures var t := BeWaitPut(s, g, b);
      Inv(t, 0, max) && Respects(s, t, b, self, L, A)
      && SameIndex(s, t) && SameQueues(s, t) && SameRunning(s, t) && t.live == s.live
      && IsBe(t, b) && t.m[b].be == s.m[b].be.(feRunning := 0)
      && t.Gr(g) == s.Gr(g).(bes := t.Gr(g).bes)
  {
    OnOneList(s, g, b);
    NoZero(s);
    BeWaitPutWf(s, g, b);
    var s1 := s.PutBe(b, s.Be(b).(feRunning := 0));
    var l := Without(s1.Gr(g).bes, b);
    var l2 := InsertBefore(l, b, (c: nat) => GoesBefore(s1, s1.Be(b).maturity, c));
    var t := BeWaitPut(s, g, b);
    assert t == s1.PutGr(g, s.Gr(g).(bes := l2));
    PutFrames(s, g, b, l2);
    PutRespects(s, g, b, l2, self, L, A);
    PutBound(s, g, b, l2);
    SentFrame(s, t); IndexedFrame(s, t);
    assert ListOf(s, BeList(g)) == s.Gr(g).bes;
    WithoutNoDup(s.Gr(g).bes, b);
    BeWaitPutSorted(s, g, b);
  }

  lemma BeWaitPutSorted(s: Store, g: nat, b: nat)
    requires Sorted(s, 0) && IsGr(s, g) && IsBe(s, b)
    requires forall h :: 0 !in s.Gr(h).bes && (h != g ==> b !in s.Gr(h).bes)
    ensures Sorted(BeWaitPut(s, g, b), 0)
  {
    var v := s.Be(b).(feRunning := 0);
    PulledSorted(s, g, b, v);
    var s1 := s.PutBe(b, v);
    var s2 := s1.PutGr(g, s.Gr(g).(bes := Without(s.Gr(g).bes, b)));
    assert forall h :: s2.Gr(h).bes == if h == g then Without(s.Gr(g).bes, b) else s.Gr(h).bes;
    PutSorted(s2, g, b);
    var l := Without(s.Gr(g).bes, b);
    SameInsert(s1, s2, l, b);
    var t := s2.PutGr(g, s2.Gr(g).(bes := InsertBefore(l, b, (c: nat) => GoesBefore(s2, s2.Be(b).maturity, c))));
    assert t.m == BeWaitPut(s, g, b).m;
  }

  lemma {:induction false} SameInsert(s: Store, t: Store, l: seq<nat>, b: nat)
    requires forall c :: s.Be(c) == t.Be(c)
    ensures InsertBefore(l, b, (c: nat) => GoesBefore(s, s.Be(b).maturity, c))
         == InsertBefore(l, b, (c: nat) => GoesBefore(t, t.Be(b).maturity, c))
  {
    if l != [] {
      SameInsert(s, t, l[1..], b);
    }
  }
}
