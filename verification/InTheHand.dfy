/** The frontend's own slot: allocated, queued, taken out of the queue, linked to a backend
    or jettisoned. Between these it is in the hand of the lock holder, on no list of the file,
    and nobody else counts on it. */
module InTheHand {
  import opened Lists
  import opened Store
  import opened Conservation
  import opened Invariants
  import opened Respect
  import opened Keeping
  import opened Granting
  import opened Groups
  import opened Sections
  import opened Joining

  /** Slot f belongs to the lock holder and is on no list. */
  predicate Held(s: Store, f: nat, self: nat) {
    f in s.m && s.m[f].Fro? && s.m[f].fe.loc == Hand && s.m[f].fe.pid == self
  }

  lemma FreshFrames(s: Store, v: Frontend, t: Store, n: nat)
    requires Fresh(s, Fro(v), t, n) && v.loc == Hand
    ensures SameBackends(s, t) && SameQueues(s, t) && SameRunning(s, t) && SameIndex(s, t)
  {
    assert n in s.m ==> s.m[n].Free? || s.m[n].Nil?;
  }

  lemma FreshRespects(s: Store, v: Frontend, t: Store, n: nat, f: nat, self: nat, L: set<nat>, A: set<nat>)
    requires Fresh(s, Fro(v), t, n) && v.loc == Hand
    ensures Respects(s, t, f, self, L, A)
  {
    assert n in s.m ==> s.m[n].Free? || s.m[n].Nil?;
  }

  lemma AllocFrontendKeeps(s: Store, self: nat, max: nat, f: nat, L: set<nat>, A: set<nat>)
    requires Inv(s, 0, max)
    ensures var (t, n) := AllocFrontend(s, self);
      Inv(t, 0, max) && Respects(s, t, f, self, L, A) && t.live == s.live && t.groups == s.groups
      && Held(t, n, self) && t.m[n].fe == NO_FRONTEND.(pid := self) && n != 0
      && t.alloced <= s.alloced + 1 && Home(s, n) in {FreeList, Nowhere}
  {
    var v := NO_FRONTEND.(pid := self);
    AllocFrontendWf(s, v);
    AllocFrom(s, Fro(v));
    var (t, n) := AllocFrontend(s, self);
    FreshFrames(s, v, t, n);
    FreshRespects(s, v, t, n, f, self, L, A);
    FramesInv(s, t, 0, max);
  }

  lemma JoinFrames(s: Store, g: nat, f: nat, self: nat)
    requires Held(s, f, self) && IsGr(s, g)
    ensures var t := Join(s, g, f);
      && SameBackends(s, t) && SameRunning(s, t) && SameIndex(s, t)
      && (forall k :: IsQueued(t, k) ==> k == f || (IsQueued(s, k) && t.m[k].fe == s.m[k].fe))
  {
  }

  lemma JoinFair(s: Store, g: nat, f: nat, self: nat, L: set<nat>, A: set<nat>)
    requires Held(s, f, self) && IsGr(s, g) && f !in s.Gr(g).fes
    ensures Fair(s, Join(s, g, f), f, self, L, A) && SameGroups(s, Join(s, g, f))
  {
    var t := Join(s, g, f);
    forall h, a, b | Precedes(t.Gr(h).fes, a, b) && b in s.Gr(h).fes ensures Precedes(s.Gr(h).fes, a, b) {
      if h == g { PrecedesSnoc(s.Gr(g).fes, f, a, b); }
    }
  }

  lemma JoinInv(s: Store, g: nat, f: nat, self: nat, max: nat)
    requires Inv(s, 0, max) && Held(s, f, self) && IsGr(s, g) && s.m[f].fe.backend == 0 && !s.m[f].fe.sent
    ensures var t := Join(s, g, f);
      Inv(t, 0, max) && IsQueued(t, f) && t.m[f].fe == s.m[f].fe.(loc := Queue(g)) && f in t.Gr(g).fes && IsGr(t, g)
  {
    var t := Join(s, g, f);
    assert Home(s, f) == InHand;
    assert f !in s.Gr(g).fes by { assert ListOf(s, FeList(g)) == s.Gr(g).fes; }
    JoinWf(s, g, f);
    JoinFrames(s, g, f, self);
    JoinBound(s, t, f);
    SortedFrame(s, t, 0); WithinMaxFrame(s, t, max); IndexedFrame(s, t);
    forall h, a, c | Precedes(t.Gr(h).fes, a, c) ensures !t.Fe(c).sent {
      if h == g { PrecedesSnoc(s.Gr(g).fes, f, a, c); }
      if c != f {
        PrecedesIn(s.Gr(h).fes, a, c);
        QueuedFe(s, h, c);
        assert !s.Fe(c).sent;
      }
    }
  }

  lemma JoinBound(s: Store, t: Store, f: nat)
    requires Bound(s) && SameBackends(s, t) && SameRunning(s, t) && IsQueued(t, f) && t.m[f].fe.backend == 0
    requires forall k :: IsQueued(t, k) ==> k == f || (IsQueued(s, k) && t.m[k].fe == s.m[k].fe)
    ensures Bound(t)
  {
  }

  lemma LeaveFrames(s: Store, g: nat, f: nat, self: nat, L: set<nat>, A: set<nat>)
    requires IsQueued(s, f) && s.m[f].fe.pid == self && IsGr(s, g)
    ensures var t := Leave(s, g, f);
      && SameBackends(s, t) && SameRunning(s, t) && SameIndex(s, t) && Held(t, f, self)
      && (forall k :: IsQueued(t, k) ==> IsQueued(s, k) && t.m[k].fe == s.m[k].fe)
  {
  }

  lemma LeaveRespects(s: Store, g: nat, f: nat, self: nat, L: set<nat>, A: set<nat>)
    requires IsQueued(s, f) && IsGr(s, g)
    ensures Respects(s, Leave(s, g, f), f, self, L, A)
  {
    forall a, c | Precedes(Without(s.Gr(g).fes, f), a, c) ensures Precedes(s.Gr(g).fes, a, c) {
      PrecedesWithout(s.Gr(g).fes, f, a, c);
    }
  }

  lemma LeaveKeeps(s: Store, g: nat, f: nat, self: nat, x: nat, max: nat, L: set<nat>, A: set<nat>)
    requires Inv(s, x, max) && IsQueued(s, f) && s.m[f].fe.pid == self && s.m[f].fe.loc == Queue(g)
    ensures var t := Leave(s, g, f);
      Inv(t, x, max) && Respects(s, t, f, self, L, A) && Held(t, f, self) && IsGr(t, g)
      && SameBackends(s, t) && SameRunning(s, t) && SameIndex(s, t)
      && t.Gr(g) == s.Gr(g).(fes := Without(s.Gr(g).fes, f)) && t.live == s.live
  {
    var t := Leave(s, g, f);
    assert Home(s, f) == FeList(g) && f in ListOf(s, FeList(g));
    assert IsGr(s, g);
    LeaveWf(s, g, f);
    LeaveFrames(s, g, f, self, L, A);
    LeaveRespects(s, g, f, self, L, A);
    BoundFrame(s, t); SortedFrame(s, t, x); WithinMaxFrame(s, t, max); IndexedFrame(s, t);
    forall h, a, c | Precedes(t.Gr(h).fes, a, c) ensures !t.Fe(c).sent {
      if h == g { PrecedesWithout(s.Gr(g).fes, f, a, c); }
      assert Precedes(s.Gr(h).fes, a, c);
      PrecedesIn(t.Gr(h).fes, a, c);
      QueuedFe(t, h, c);
    }
  }

  lemma HeldFrames(s: Store, f: nat, v: Frontend, self: nat, L: set<nat>, A: set<nat>)
    requires Held(s, f, self) && v == s.m[f].fe.(backend := v.backend)
    ensures var t := s.PutFe(f, v);
      Respects(s, t, f, self, L, A) && Held(t, f, self)
      && SameBackends(s, t) && SameQueues(s, t) && SameRunning(s, t) && SameIndex(s, t)
  {
  }

  lemma HeldKeeps(s: Store, f: nat, b: nat, self: nat, x: nat, max: nat, L: set<nat>, A: set<nat>)
    requires Inv(s, x, max) && Held(s, f, self)
    ensures var t := s.PutFe(f, s.Fe(f).(backend := b));
      Inv(t, x, max) && Respects(s, t, f, self, L, A) && Held(t, f, self)
      && SameBackends(s, t) && SameQueues(s, t) && SameRunning(s, t) && SameIndex(s, t)
  {
    PutFeWf(s, f, s.Fe(f).(backend := b));
    HeldFrames(s, f, s.Fe(f).(backend := b), self, L, A);
    FramesInv(s, s.PutFe(f, s.Fe(f).(backend := b)), x, max);
  }

  lemma JettisonFrames(s: Store, f: nat, self: nat, L: set<nat>, A: set<nat>)
    requires Held(s, f, self)
    ensures var t := SlotFree(s, f);
      Respects(s, t, f, self, L, A)
      && SameBackends(s, t) && SameQueues(s, t) && SameRunning(s, t) && SameIndex(s, t)
  {
  }

  lemma JettisonKeeps(s: Store, f: nat, self: nat, x: nat, max: nat, L: set<nat>, A: set<nat>)
    requires Inv(s, x, max) && Held(s, f, self)
    ensures Inv(SlotFree(s, f), x, max) && Respects(s, SlotFree(s, f), f, self, L, A)
  {
    SlotFreeWf(s, f);
    JettisonFrames(s, f, self, L, A);
    FramesInv(s, SlotFree(s, f), x, max);
  }

  // ---- the granted backend ----

  /** Backend b waits, is the tail of the list of g and belongs to nobody: it is grabbed. */
  predicate Grabbed(s: Store, g: nat, b: nat) {
    && IsGr(s, g) && IsBe(s, b) && s.m[b].be.grp == g && s.m[b].be.feRunning == 0 && b != 0
    && s.Gr(g).bes != [] && s.Gr(g).bes[|s.Gr(g).bes| - 1] == b
  }

  lemma BusyTailSorted(s: Store, t: Store, g: nat, b: nat, v: Backend)
    requires Wf(s) && Sorted(s, b) && Grabbed(s, g, b) && v.feRunning != 0
    requires forall c :: t.Be(c) == if c == b then v else s.Be(c)
    requires forall h :: t.Gr(h).bes == s.Gr(h).bes
    ensures Sorted(t, 0)
  {
    forall h, a, c | Precedes(t.Gr(h).bes, a, c) ensures Ordered(t, a, c) {
      assert ListOf(s, BeList(h)) == s.Gr(h).bes && ListOf(s, BeList(g)) == s.Gr(g).bes;
      PrecedesIn(s.Gr(h).bes, a, c);
      if a == b {
        assert Home(s, b) == BeList(h) && Home(s, b) == BeList(g);
        PrecedesLast(s.Gr(g).bes, b, c);
      } else if c != b {
        assert Ordered(s, a, c);
      }
    }
  }

  /** The store once frontend f is connected to b and joins the running list. */
  function LinkKept(s: Store, g: nat, f: nat, b: nat): Store {
    var s2 := s.PutBe(b, s.Be(b).(feRunning := f));
    var s3 := s2.PutFe(f, s2.Fe(f).(loc := Run)).(running := [f] + s2.running);
    s3.PutGr(g, s3.Gr(g).(starting := s3.Be(b).pid))
  }

  lemma LinkMoves(s: Store, g: nat, f: nat, b: nat, self: nat)
    requires Held(s, f, self) && Grabbed(s, g, b)
    ensures Moved(s, LinkKept(s, g, f, b), f, RunList)
  {
    assert forall n :: n in s.m <==> n in LinkKept(s, g, f, b).m;
  }

  lemma LinkFrames(s: Store, g: nat, f: nat, b: nat, self: nat)
    requires Held(s, f, self) && Grabbed(s, g, b) && f != 0
    ensures var t := LinkKept(s, g, f, b);
      && SameQueues(s, t) && SameIndex(s, t)
      && (forall c :: t.Be(c) == if c == b then s.Be(b).(feRunning := f) else s.Be(c))
      && (forall h :: t.Gr(h).bes == s.Gr(h).bes)
      && IsRun(t, f) && t.m[f].fe == s.m[f].fe.(loc := Run) && t.live == s.live
  {
  }

  lemma LinkBound(s: Store, g: nat, f: nat, b: nat, self: nat)
    requires Bound(s) && Held(s, f, self) && Grabbed(s, g, b) && s.m[f].fe.backend == b && 0 !in s.m
    ensures Bound(LinkKept(s, g, f, b))
  {
  }

  lemma LinkRespects(s: Store, g: nat, f: nat, b: nat, self: nat, L: set<nat>, A: set<nat>)
    requires Held(s, f, self) && Grabbed(s, g, b) && s.Gr(g).starting !in L && f != 0
    requires forall h :: h != g ==> b !in s.Gr(h).bes
    ensures Respects(s, LinkKept(s, g, f, b), f, self, L, A)
  {
  }

  lemma LinkKeeps(s: Store, g: nat, f: nat, b: nat, self: nat, max: nat, L: set<nat>, A: set<nat>)
    requires Inv(s, b, max) && Held(s, f, self) && Grabbed(s, g, b) && s.m[f].fe.backend == b && s.Gr(g).starting !in L
    ensures var t := LinkKept(s, g, f, b);
      && Inv(t, 0, max) && Respects(s, t, f, self, L, A) && IsRun(t, f)
      && t.m[f].fe == s.m[f].fe.(loc := Run) && t.live == s.live
  {
    var t := LinkKept(s, g, f, b);
    NoZero(s);
    LinkMoves(s, g, f, b, self);
    assert Numbered(t);
    MovedWf(s, t, f, RunList);
    LinkFrames(s, g, f, b, self);
    LinkBound(s, g, f, b, self);
    OnOneList(s, g, b);
    LinkRespects(s, g, f, b, self, L, A);
    BusyTailSorted(s, t, g, b, s.Be(b).(feRunning := f));
    SentFrame(s, t); IndexedFrame(s, t);
  }

  /** The store once a frontend that will not wait for the exit status is connected to b. */
  function LinkDetached(s: Store, g: nat, b: nat): Store {
    var s2 := s.PutBe(b, s.Be(b).(feRunning := b));
    s2.PutGr(g, s2.Gr(g).(starting := s2.Be(b).pid))
  }

  lemma DetachedFrames(s: Store, g: nat, b: nat, f: nat, self: nat, L: set<nat>, A: set<nat>)
    requires Grabbed(s, g, b) && s.Gr(g).starting !in L
    requires forall h :: h != g ==> b !in s.Gr(h).bes
    ensures var t := LinkDetached(s, g, b);
      && SameQueues(s, t) && SameIndex(s, t) && SameRunning(s, t) && Respects(s, t, f, self, L, A)
      && (forall c :: t.Be(c) == if c == b then s.Be(b).(feRunning := b) else s.Be(c))
      && (forall h :: t.Gr(h).bes == s.Gr(h).bes)
      && (forall k {:trigger Held(t, k, self)} :: Held(s, k, self) ==> Held(t, k, self))
  {
  }

  lemma DetachedKeeps(s: Store, g: nat, b: nat, f: nat, self: nat, max: nat, L: set<nat>, A: set<nat>)
    requires Inv(s, b, max) && Grabbed(s, g, b) && s.Gr(g).starting !in L
    ensures var t := LinkDetached(s, g, b);
      && Inv(t, 0, max) && Respects(s, t, f, self, L, A)
      && forall k {:trigger Held(t, k, self)} :: Held(s, k, self) ==> Held(t, k, self)
  {
    var t := LinkDetached(s, g, b);
    NoZero(s);
    PutBeWf(s, b, s.Be(b).(feRunning := b));
    var s2 := s.PutBe(b, s.Be(b).(feRunning := b));
    PutGrWf(s2, g, s2.Gr(g).(starting := s2.Be(b).pid));
    OnOneList(s, g, b);
    DetachedFrames(s, g, b, f, self, L, A);
    DetachedBound(s, g, b);
    BusyTailSorted(s, t, g, b, s.Be(b).(feRunning := b));
    SentFrame(s, t); IndexedFrame(s, t);
  }

  lemma DetachedBound(s: Store, g: nat, b: nat)
    requires Bound(s) && Grabbed(s, g, b) && 0 !in s.m
    ensures Bound(LinkDetached(s, g, b))
  {
  }

  /** speedy_frontend_connect after get_a_backend. A connection only fails when the backend
      does not serve any more. */
  lemma FinishKeeps(s: Store, g: nat, f: nat, b: nat, c: Connect, self: nat, max: nat, L: set<nat>, A: set<nat>)
    requires Inv(s, b, max) && Held(s, f, self) && L <= s.live
    requires b != 0 ==> Grabbed(s, g, b) && s.Gr(g).starting !in L && (c == Failed ==> s.Be(b).pid !in A)
    ensures var t := Finish(s, g, f, b, c);
      Inv(t, 0, max) && Respects(s, t, f, self, L, A)
      && (b != 0 && c == Kept ==> IsRun(t, f) && t.m[f].fe.pid == self)
  {
    hide Respects,Inv;
    var s1 := s.PutFe(f, s.Fe(f).(backend := b));
    HeldKeeps(s, f, b, self, b, max, L, A);
    assert s1.Gr(g) == s.Gr(g) && s1.Be(b) == s.Be(b);
    if b == 0 {
      JettisonKeeps(s1, f, self, b, max, L, A);
      RespectsTrans(s, s1, SlotFree(s1, f), f, self, L, A);
    } else if c == Failed {
      var s2 := BackendDispose(s1, g, b);
      BackendDisposeInv(s1, g, b, b, max);
      BackendDisposeRespects(s1, g, b, f, self, L, A);
      assert s2.At(f) == s1.At(f);
      JettisonKeeps(s2, f, self, 0, max, L, A);
      RespectsTrans(s, s1, s2, f, self, L, A);
      RespectsTrans(s, s2, SlotFree(s2, f), f, self, L, A);
    } else if c == Kept {
      LinkKeeps(s1, g, f, b, self, max, L, A);
      RespectsTrans(s, s1, LinkKept(s1, g, f, b), f, self, L, A);
    } else {
      var s2 := LinkDetached(s1, g, b);
      DetachedKeeps(s1, g, b, f, self, max, L, A);
      assert Held(s2, f, self);
      JettisonKeeps(s2, f, self, 0, max, L, A);
      RespectsTrans(s, s1, s2, f, self, L, A);
      RespectsTrans(s, s2, SlotFree(s2, f), f, self, L, A);
    }
  }
}
