/** Every operation on backends, on the frontends they serve and on queued frontends keeps the
    invariant: a backend exits or is disposed of, a running frontend is removed, a queued one is
    dropped. Each also respects the slots of the other processes. */
module Keeping {
  import opened Lists
  import opened Store
  import opened Conservation
  import opened Invariants
  import opened Respect

  // ---- backends and the frontends they serve ----

  lemma RemoveRunningFrames(s: Store, f: nat)
    requires IsRun(s, f) && f != 0
    ensures var t := RemoveRunning(s, f); SameQueues(s, t) && SameIndex(s, t) && SameIdle(s, t)
  {
    var b := s.Fe(f).backend;
    if b != 0 && s.Be(b).feRunning == f {
      assert IsBe(s, b);
    }
  }

  lemma RemoveRunningBound(s: Store, f: nat)
    requires 0 !in s.m && Bound(s) && IsRun(s, f)
    ensures Bound(RemoveRunning(s, f))
  {
  }

  lemma RemoveRunningInv(s: Store, f: nat, x: nat, max: nat)
    requires Inv(s, x, max) && IsRun(s, f)
    ensures Inv(RemoveRunning(s, f), x, max)
  {
    var t := RemoveRunning(s, f);
    assert Home(s, f) == RunList;
    RemoveRunningWf(s, f);
    RemoveRunningFrames(s, f);
    RemoveRunningBound(s, f);
    SortedFrame(s, t, x); WithinMaxFrame(s, t, max); SentFrame(s, t); IndexedFrame(s, t);
  }

  lemma RemoveRunningRespects(s: Store, f: nat, x: nat, self: nat, L: set<nat>, A: set<nat>)
    requires f != 0 && Bound(s) && IsRun(s, f) && (s.Fe(f).pid !in L || f == x)
    ensures Respects(s, RemoveRunning(s, f), x, self, L, A)
  {
    RemoveRunningFrames(s, f);
    assert s.Fe(f).backend != 0 ==> IsBe(s, s.Fe(f).backend);
  }

  /** The three shapes of speedy_backend_exited under the binding invariant. */
  lemma ExitedShape(s: Store, b: nat, onSig: bool, val: int)
    requires Wf(s) && Bound(s) && IsBe(s, b)
    ensures var f := s.Be(b).feRunning;
      && b != 0
      && (f == 0 ==> Exited(s, b, onSig, val) == s)
      && (f == b ==> Exited(s, b, onSig, val) == s.PutBe(b, s.Be(b).(feRunning := b)))
      && (f != 0 && f != b ==>
            IsRun(s, f) && s.Fe(f).backend == b
            && var s1 := s.PutBe(b, s.Be(b).(feRunning := b));
               var s2 := s1.PutFe(f, s.Fe(f).(backend := 0, onSig := onSig, val := val));
               Exited(s, b, onSig, val) ==
               if s.Fe(f).pid in s.live then s2 else SlotFree(s2.(running := Without(s2.running, f)), f))
  {
    var f := s.Be(b).feRunning;
    if f != 0 && f != b {
      assert IsRun(s, f) && s.m[b].be.feRunning == f;
    }
  }

  lemma ToldFrames(s: Store, b: nat, f: nat, v: Frontend)
    requires IsBe(s, b) && IsRun(s, f) && b != 0 && f != 0 && s.m[b].be.feRunning == f && v.loc == Run
    ensures var t := s.PutBe(b, s.Be(b).(feRunning := b)).PutFe(f, v);
      SameQueues(s, t) && SameIndex(s, t) && SameIdle(s, t)
  {
  }

  lemma GoneFrames(s: Store, f: nat, l: seq<nat>)
    requires IsRun(s, f)
    ensures var t := SlotFree(s.(running := l), f); SameQueues(s, t) && SameIndex(s, t) && SameIdle(s, t)
  {
  }

  lemma SameAgain(s: Store, t: Store, u: Store)
    requires SameQueues(s, t) && SameIndex(s, t) && SameIdle(s, t) && SameQueues(t, u) && SameIndex(t, u)
        && SameIdle(t, u)
    ensures SameQueues(s, u) && SameIndex(s, u) && SameIdle(s, u)
  {
  }

  lemma BusyFrames(s: Store, b: nat)
    requires IsBe(s, b) && b != 0 && s.m[b].be.feRunning == b
    ensures var t := s.PutBe(b, s.Be(b).(feRunning := b)); SameQueues(s, t) && SameIndex(s, t) && SameIdle(s, t)
  {
  }

  lemma ExitedFrames(s: Store, b: nat, onSig: bool, val: int)
    requires Wf(s) && Bound(s) && IsBe(s, b)
    ensures var t := Exited(s, b, onSig, val); SameQueues(s, t) && SameIndex(s, t) && SameIdle(s, t)
  {
    ExitedShape(s, b, onSig, val);
    hide Wf, Bound, Exited, SameQueues, SameIndex, SameIdle;
    var f := s.Be(b).feRunning;
    if f == b {
      BusyFrames(s, b);
    } else if f != 0 {
      var v := s.Fe(f).(backend := 0, onSig := onSig, val := val);
      var s2 := s.PutBe(b, s.Be(b).(feRunning := b)).PutFe(f, v);
      ToldFrames(s, b, f, v);
      GoneFrames(s2, f, Without(s2.running, f));
      SameAgain(s, s2, SlotFree(s2.(running := Without(s2.running, f)), f));
    } else {
      SameToo(s);
    }
  }

  lemma SameToo(s: Store)
    ensures SameQueues(s, s) && SameIndex(s, s) && SameIdle(s, s)
  {
  }

  /** The frontend f that backend b serves is told, or taken off the running list if dead. */
  lemma UnboundBound(s: Store, b: nat, f: nat, v: Frontend)
    requires 0 !in s.m && Bound(s) && IsBe(s, b) && IsRun(s, f) && b != f
    requires s.m[b].be.feRunning == f && v.backend == 0 && v.loc == Run
    ensures Bound(s.PutBe(b, s.m[b].be.(feRunning := b)).PutFe(f, v))
  {
  }

  /** A running frontend that no backend serves may go. */
  lemma LoneFrontendBound(s: Store, f: nat, l: seq<nat>)
    requires Bound(s) && IsRun(s, f) && s.m[f].fe.backend == 0 && 0 !in s.m
    ensures Bound(SlotFree(s.(running := l), f))
  {
  }

  lemma ExitedBound(s: Store, b: nat, onSig: bool, val: int)
    requires Wf(s) && Bound(s) && IsBe(s, b)
    ensures Bound(Exited(s, b, onSig, val))
  {
    ExitedShape(s, b, onSig, val);
    var f := s.Be(b).feRunning;
    if f != 0 && f != b {
      var v := s.Fe(f).(backend := 0, onSig := onSig, val := val);
      UnboundBound(s, b, f, v);
      LoneFrontendBound(s.PutBe(b, s.Be(b).(feRunning := b)).PutFe(f, v), f, Without(s.running, f));
    } else {
      assert Exited(s, b, onSig, val).m == s.m;
    }
  }

  /** What speedy_backend_exited leaves of the backend, the groups and everything else. */
  lemma ExitedEffect(s: Store, b: nat, onSig: bool, val: int)
    requires Wf(s) && Bound(s) && IsBe(s, b)
    ensures var t := Exited(s, b, onSig, val);
      && IsBe(t, b) && t.m[b].be == s.m[b].be.(feRunning := if s.m[b].be.feRunning == 0 then 0 else b)
      && (forall k :: k != b && k != s.m[b].be.feRunning ==> t.At(k) == s.At(k))
      && t.live == s.live
  {
    ExitedShape(s, b, onSig, val);
  }

  lemma ExitedInv(s: Store, b: nat, onSig: bool, val: int, x: nat, max: nat)
    requires Inv(s, x, max) && IsBe(s, b)
    ensures Inv(Exited(s, b, onSig, val), x, max)
  {
    var t := Exited(s, b, onSig, val);
    ExitedShape(s, b, onSig, val);
    ExitedWf(s, b, onSig, val);
    ExitedFrames(s, b, onSig, val);
    ExitedBound(s, b, onSig, val);
    SortedFrame(s, t, x); WithinMaxFrame(s, t, max); SentFrame(s, t); IndexedFrame(s, t);
  }

  lemma ExitedRespects(s: Store, b: nat, onSig: bool, val: int, x: nat, self: nat, L: set<nat>, A: set<nat>)
    requires Wf(s) && Bound(s) && IsBe(s, b) && L <= s.live
    ensures Respects(s, Exited(s, b, onSig, val), x, self, L, A)
  {
    ExitedShape(s, b, onSig, val);
    ExitedFrames(s, b, onSig, val);
  }

  lemma UnlinkSorted(s: Store, g: nat, b: nat, x: nat)
    requires Sorted(s, x) && IsGr(s, g) && IsBe(s, b)
    requires forall h :: h != g ==> b !in s.Gr(h).bes
    ensures Sorted(SlotFree(s.PutGr(g, s.Gr(g).(bes := Without(s.Gr(g).bes, b))), b), x)
  {
    var t := SlotFree(s.PutGr(g, s.Gr(g).(bes := Without(s.Gr(g).bes, b))), b);
    forall h, a, c | Precedes(t.Gr(h).bes, a, c) && a != x && c != x ensures Ordered(t, a, c) {
      if h == g {
        PrecedesWithout(s.Gr(g).bes, b, a, c);
      } else {
        PrecedesIn(s.Gr(h).bes, a, c);
      }
      assert Precedes(s.Gr(h).bes, a, c) && Ordered(s, a, c);
    }
  }

  lemma UnlinkFrames(s: Store, g: nat, b: nat)
    requires IsGr(s, g) && IsBe(s, b)
    ensures var t := SlotFree(s.PutGr(g, s.Gr(g).(bes := Without(s.Gr(g).bes, b))), b);
      SameQueues(s, t) && SameIndex(s, t) && SameRunning(s, t)
  {
  }

  lemma UnlinkBound(s: Store, g: nat, b: nat)
    requires 0 !in s.m && Bound(s) && IsGr(s, g) && IsBe(s, b) && s.m[b].be.feRunning in {0, b}
    ensures Bound(SlotFree(s.PutGr(g, s.Gr(g).(bes := Without(s.Gr(g).bes, b))), b))
  {
  }

  lemma OnOneList(s: Store, g: nat, b: nat)
    requires Wf(s) && IsBe(s, b) && s.m[b].be.grp == g
    ensures b != 0 && IsGr(s, g) && b in s.Gr(g).bes
    ensures forall h :: h != g ==> b !in s.Gr(h).bes
  {
    assert Home(s, b) == BeList(g);
    assert forall h :: ListOf(s, BeList(h)) == s.Gr(h).bes;
  }

  lemma BackendDisposeInv(s: Store, g: nat, b: nat, x: nat, max: nat)
    requires Inv(s, x, max) && IsBe(s, b) && s.m[b].be.grp == g
    ensures Inv(BackendDispose(s, g, b), x, max)
    ensures Inv(BackendDispose(s, g, b), 0, max) || x != b
  {
    var s1 := Exited(s, b, true, SIGKILL);
    ExitedInv(s, b, true, SIGKILL, x, max);
    ExitedEffect(s, b, true, SIGKILL);
    OnOneList(s1, g, b);
    var t := BackendDispose(s, g, b);
    BackendUnlinkWf(s1, g, b);
    UnlinkSorted(s1, g, b, x); UnlinkBound(s1, g, b); UnlinkFrames(s1, g, b);
    SentFrame(s1, t); IndexedFrame(s1, t);
    if x == b { UnlinkGrabbed(s1, g, b); }
  }

  /** With the grabbed backend gone, the whole list is sorted. */
  lemma UnlinkGrabbed(s: Store, g: nat, b: nat)
    requires Sorted(s, b) && IsGr(s, g) && IsBe(s, b)
    requires forall h :: h != g ==> b !in s.Gr(h).bes
    ensures Sorted(SlotFree(s.PutGr(g, s.Gr(g).(bes := Without(s.Gr(g).bes, b))), b), 0)
  {
    var t := SlotFree(s.PutGr(g, s.Gr(g).(bes := Without(s.Gr(g).bes, b))), b);
    forall h, a, c | Precedes(t.Gr(h).bes, a, c) ensures Ordered(t, a, c) {
      if h == g {
        PrecedesWithout(s.Gr(g).bes, b, a, c);
      } else {
        PrecedesIn(s.Gr(h).bes, a, c);
      }
      assert Precedes(s.Gr(h).bes, a, c) && Ordered(s, a, c);
    }
  }

  lemma BackendDisposeRespects(s: Store, g: nat, b: nat, x: nat, self: nat, L: set<nat>, A: set<nat>)
    requires Wf(s) && Bound(s) && IsBe(s, b) && s.m[b].be.grp == g && L <= s.live
    requires s.m[b].be.pid !in A
    ensures Respects(s, BackendDispose(s, g, b), x, self, L, A)
  {
    var s1 := Exited(s, b, true, SIGKILL);
    ExitedRespects(s, b, true, SIGKILL, x, self, L, A);
    ExitedEffect(s, b, true, SIGKILL);
    OnOneList(s, g, b);
    UnlinkFrames(s1, g, b);
    UnlinkRespects(s1, g, b, x, self, L, A);
    RespectsTrans(s, s1, BackendDispose(s, g, b), x, self, L, A);
  }

  lemma UnlinkRespects(s: Store, g: nat, b: nat, x: nat, self: nat, L: set<nat>, A: set<nat>)
    requires IsGr(s, g) && IsBe(s, b) && s.m[b].be.pid !in A
    ensures Respects(s, SlotFree(s.PutGr(g, s.Gr(g).(bes := Without(s.Gr(g).bes, b))), b), x, self, L, A)
  {
    hide Bound, Wf;
    var t := SlotFree(s.PutGr(g, s.Gr(g).(bes := Without(s.Gr(g).bes, b))), b);
    UnlinkShape(s, g, b);
    assert InOrder(s, t);
  }

  lemma UnlinkShape(s: Store, g: nat, b: nat)
    requires IsGr(s, g) && IsBe(s, b)
    ensures var t := SlotFree(s.PutGr(g, s.Gr(g).(bes := Without(s.Gr(g).bes, b))), b);
      && (forall h :: t.Gr(h) == if h == g then s.Gr(g).(bes := Without(s.Gr(g).bes, b)) else s.Gr(h))
      && (forall c :: t.Be(c) == if c == b then NO_BACKEND else s.Be(c)) && b !in t.Gr(g).bes
  {
  }

  // ---- queued frontends ----

  lemma FrontendDisposeFrames(s: Store, g: nat, f: nat)
    requires IsGr(s, g) && IsQueued(s, f)
    ensures var t := FrontendDispose(s, g, f);
      SameBackends(s, t) && SameIndex(s, t) && SameRunning(s, t)
      && (forall k :: IsQueued(t, k) ==> IsQueued(s, k) && t.m[k].fe == s.m[k].fe)
  {
  }

  lemma FrontendDisposeInv(s: Store, g: nat, f: nat, x: nat, max: nat)
    requires Inv(s, x, max) && f in s.Gr(g).fes
    ensures Inv(FrontendDispose(s, g, f), x, max)
  {
    var t := FrontendDispose(s, g, f);
    assert f in ListOf(s, FeList(g)) && Home(s, f) == FeList(g);
    FrontendDisposeWf(s, g, f);
    FrontendDisposeFrames(s, g, f);
    BoundFrame(s, t); SortedFrame(s, t, x); WithinMaxFrame(s, t, max); IndexedFrame(s, t);
    forall h, a, c | Precedes(t.Gr(h).fes, a, c) ensures !t.Fe(c).sent {
      if h == g { PrecedesWithout(s.Gr(g).fes, f, a, c); }
      assert Precedes(s.Gr(h).fes, a, c);
      PrecedesIn(t.Gr(h).fes, a, c);
      QueuedFe(t, h, c);
    }
  }

  lemma FrontendDisposeRespects(s: Store, g: nat, f: nat, x: nat, self: nat, L: set<nat>, A: set<nat>)
    requires IsGr(s, g) && IsQueued(s, f) && s.m[f].fe.pid !in L
    ensures Respects(s, FrontendDispose(s, g, f), x, self, L, A)
  {
    FrontendDisposeFrames(s, g, f);
    assert forall a, c :: Precedes(Without(s.Gr(g).fes, f), a, c) ==> Precedes(s.Gr(g).fes, a, c) by {
      forall a, c | Precedes(Without(s.Gr(g).fes, f), a, c) ensures Precedes(s.Gr(g).fes, a, c) {
        PrecedesWithout(s.Gr(g).fes, f, a, c);
      }
    }
  }

  lemma DropDeadKeeps(s: Store, g: nat, x: nat, max: nat, f: nat, self: nat, L: set<nat>, A: set<nat>)
    requires Inv(s, x, max) && L <= s.live
    ensures var t := DropDead(s, g);
      Inv(t, x, max) && Respects(s, t, f, self, L, A) && SameBackends(s, t) && SameIndex(s, t) && t.live == s.live
      && (t.Gr(g).fes != [] ==> t.Fe(t.Gr(g).fes[0]).pid in s.live)
    decreases |s.Gr(g).fes|
  {
    var l := s.Gr(g).fes;
    if l != [] && s.Fe(l[0]).pid !in s.live {
      QueuedFe(s, g, l[0]);
      var s1 := FrontendDispose(s, g, l[0]);
      assert IsGr(s, g);
      FrontendDisposeFrames(s, g, l[0]);
      FrontendDisposeInv(s, g, l[0], x, max);
      FrontendDisposeRespects(s, g, l[0], f, self, L, A);
      DropDeadKeeps(s1, g, x, max, f, self, L, A);
      RespectsTrans(s, s1, DropDead(s1, g), f, self, L, A);
    }
  }
}
