/** What a process does to a file in which it takes a slot of another file for its own. */
module Straying {
  import opened Lists
  import opened Store
  import opened Conservation
  import opened Sections
  import opened Invariants
  import opened Respect
  import opened Footprint
  import opened CrashSafety
  import Keeping
  import Granting
  import Joining
  import BackendSide
  import Protocol

  // ---- a frontend that asks for the exit status again ----

  /** Slot f is that of a running frontend, of which the death of its backend can be noticed. */
  predicate Askable(s: Store, f: nat) {
    && IsRun(s, f)
    && (s.Fe(f).backend == 0 || s.Be(s.Fe(f).backend).pid in s.live || s.Fe(f).pid in s.live)
  }

  /** Asking for the exit status with slot number f leaves a good store good exactly if f is such a
      slot there. */
  lemma CollectGoodExactly(s: Store, f: nat, max: nat)
    requires Good(s, max)
    ensures Good(CollectStatus(s, f).0, max) <==> Askable(s, f)
  {
    if Askable(s, f) {
      CollectOfOther(s, f, max);
    } else if IsRun(s, f) {
      BothGone(s, f);
    } else {
      NotRunning(s, f);
      FreedTwice(s, f);
    }
  }

  lemma NotRunning(s: Store, f: nat)
    requires Wf(s) && Bound(s) && NoHand(s) && !IsRun(s, f)
    ensures CollectStatus(s, f).0 == SlotFree(s.(running := Without(s.running, f)), f)
  {
    assert !IsHand(s, f);
    if s.At(f).Fro? { assert IsQueued(s, f); }
  }

  /** A slot that is on another list, or no slot, is freed. */
  lemma FreedTwice(s: Store, f: nat)
    requires Wf(s) && NoHand(s) && !IsRun(s, f)
    ensures !Wf(SlotFree(s.(running := Without(s.running, f)), f))
  {
    var t := SlotFree(s.(running := Without(s.running, f)), f);
    var id := Home(s, f);
    assert !IsHand(s, f);
    if id == Nowhere {
      assert f in t.m && !(0 < f <= t.alloced);
    } else if id == FreeList {
      assert f in ListOf(s, id);
      TwiceFree(s.free, f);
      assert !NoDup(ListOf(t, FreeList));
    } else {
      assert f in ListOf(s, id) && f in ListOf(t, id) && Home(t, f) == FreeList;
    }
  }

  lemma TwiceFree(l: seq<nat>, f: nat)
    requires f in l
    ensures !NoDup([f] + l)
  {
    var i :| 0 <= i < |l| && l[i] == f;
    assert ([f] + l)[0] == ([f] + l)[i + 1];
  }

  /** The backend and the frontend have both died: the frontend's slot is freed with the backend,
      and then once more. */
  lemma BothGone(s: Store, f: nat)
    requires Wf(s) && Bound(s) && IsRun(s, f) && !Askable(s, f)
    ensures !Wf(CollectStatus(s, f).0)
  {
    var b := s.Fe(f).backend;
    assert IsBe(s, b);
    Keeping.ExitedShape(s, b, true, SIGKILL);
    var s1 := Exited(s, b, true, SIGKILL);
    assert s1.At(f) == Free && f in s1.free;
    TwiceFree(s1.free, f);
    assert !NoDup(ListOf(CollectStatus(s, f).0, FreeList));
  }

  /** The slot is freed exactly when the answer is that the backend is done; then the frontend that it
      belongs to has lost it. */
  lemma CollectOfOther(s: Store, f: nat, max: nat)
    requires Good(s, max) && Askable(s, f)
    ensures var (t, done, _, _) := CollectStatus(s, f);
      Good(t, max) && (Protocol.Holds(t, s.m[f].fe.pid, Protocol.FRunning(f)) <==> !done)
  {
    var b := s.Fe(f).backend;
    var dead := b != 0 && s.Be(b).pid !in s.live;
    var s1 := if dead then Exited(s, b, true, SIGKILL) else s;
    if dead {
      Keeping.ExitedInv(s, b, true, SIGKILL, 0, max);
      Keeping.ExitedShape(s, b, true, SIGKILL);
    }
    if s1.Fe(f).backend == 0 { Keeping.RemoveRunningInv(s1, f, 0, max); }
    CollectStatusTakes(s, f);
    StillNoHand(s, CollectStatus(s, f).0);
  }

  lemma StillNoHand(s: Store, t: Store)
    requires NoHand(s) && Quiet(s, t)
    ensures NoHand(t)
  {
    forall n ensures !IsHand(t, n) { assert !IsHand(s, n); }
  }

  // ---- a backend before its first run ----

  /** Slot b is that of a backend of group g which serves no running frontend. */
  predicate Idlable(s: Store, g: nat, b: nat) {
    IsBe(s, b) && s.m[b].be.grp == g && s.m[b].be.feRunning in {0, b}
  }

  /** Of a queue only slots of its own frontends are freed. */
  lemma {:induction false} DropDeadLeaves(s: Store, g: nat, x: nat)
    requires g !in s.Gr(g).fes && s.At(g).Grp?
    ensures var t := DropDead(s, g);
      && t.At(g).Grp? && t.Gr(g).bes == s.Gr(g).bes && (forall n :: n in t.Gr(g).fes ==> n in s.Gr(g).fes)
      && (x != g && x !in s.Gr(g).fes ==> t.At(x) == s.At(x)) && (x != g ==> t.At(x) == s.At(x) || t.At(x) == Free)
    decreases |s.Gr(g).fes|
  {
    var l := s.Gr(g).fes;
    if l != [] && s.Fe(l[0]).pid !in s.live {
      var s1 := FrontendDispose(s, g, l[0]);
      if |s1.Gr(g).fes| < |l| { DropDeadLeaves(s1, g, x); }
    }
  }

  lemma SignalLeaves(s: Store, g: nat, x: nat)
    requires g !in s.Gr(g).fes && s.At(g).Grp?
    ensures var t := SendSigs(s, g);
      && t.At(g).Grp? && t.Gr(g).bes == s.Gr(g).bes
      && (x != g && x !in s.Gr(g).fes ==> t.At(x) == s.At(x)) && (x != g && t.At(x).Bck? ==> t.At(x) == s.At(x))
  {
    DropDeadLeaves(s, g, x);
  }

  lemma IdleFrames(s: Store, g: nat, b: nat, v: Backend, l: seq<nat>)
    requires IsGr(s, g) && Idlable(s, g, b)
    ensures var t := s.PutBe(b, v).PutGr(g, s.Gr(g).(bes := l));
      SameIndex(s, t) && SameQueues(s, t) && SameRunning(s, t) && (forall n :: IsHand(t, n) ==> IsHand(s, n))
  {
  }

  lemma IdleBound(s: Store, g: nat, b: nat, v: Backend, l: seq<nat>)
    requires 0 !in s.m && Bound(s) && IsGr(s, g) && Idlable(s, g, b) && v.feRunning == 0
    ensures Bound(s.PutBe(b, v).PutGr(g, s.Gr(g).(bes := l)))
  {
  }

  lemma IdleSorted(s: Store, g: nat, b: nat, v: Backend)
    requires Sorted(s, 0) && IsGr(s, g) && IsBe(s, b) && v.feRunning == 0
    requires forall h :: 0 !in s.Gr(h).bes && (h != g ==> b !in s.Gr(h).bes)
    ensures Sorted(BeWaitPut(s.PutBe(b, v), g, b), 0)
  {
    Granting.PulledSorted(s, g, b, v);
    var s1 := s.PutBe(b, v);
    var s2 := s1.PutGr(g, s.Gr(g).(bes := Without(s.Gr(g).bes, b)));
    assert forall h :: s2.Gr(h).bes == if h == g then Without(s.Gr(g).bes, b) else s.Gr(h).bes;
    Granting.PutSorted(s2, g, b);
    var l := Without(s.Gr(g).bes, b);
    Granting.SameInsert(s1.PutBe(b, v), s2, l, b);
    var t := s2.PutGr(g, s2.Gr(g).(bes := InsertBefore(l, b, (c: nat) => GoesBefore(s2, s2.Be(b).maturity, c))));
    assert t.m == BeWaitPut(s1, g, b).m;
  }

  /** What be_wait_put comes to for a backend of this maturity. */
  lemma PutAs(s: Store, g: nat, b: nat, m: nat)
    requires IsGr(s, g) && IsBe(s, b)
    ensures var v := s.Be(b).(maturity := m, feRunning := 0); var s1 := s.PutBe(b, v);
      var l := InsertBefore(Without(s1.Gr(g).bes, b), b, (c: nat) => GoesBefore(s1, s1.Be(b).maturity, c));
      var t := BeWaitPut(s.PutBe(b, s.Be(b).(maturity := m)), g, b);
      t == s1.PutGr(g, s.Gr(g).(bes := l)) && t == BeWaitPut(s1, g, b)
  {
    var v := s.Be(b).(maturity := m, feRunning := 0);
    var s1 := s.PutBe(b, v);
    assert s.PutBe(b, s.Be(b).(maturity := m)).PutBe(b, v) == s1 by {
      assert s.PutBe(b, s.Be(b).(maturity := m)).PutBe(b, v).m == s1.m;
    }
    assert s1.PutBe(b, v) == s1 by { assert s1.PutBe(b, v).m == s1.m; }
  }

  /** A backend that waits, or serves nobody, is put on the wait list. */
  lemma IdlePut(s: Store, g: nat, b: nat, m: nat, max: nat)
    requires Good(s, max) && Idlable(s, g, b)
    ensures var t := BeWaitPut(s.PutBe(b, s.Be(b).(maturity := m)), g, b);
      Good(t, max) && IsGr(t, g) && t.live == s.live
  {
    Keeping.OnOneList(s, g, b);
    Granting.NoZero(s);
    PutAs(s, g, b, m);
    var v := s.Be(b).(maturity := m, feRunning := 0);
    var s1 := s.PutBe(b, v);
    var l := InsertBefore(Without(s1.Gr(g).bes, b), b, (c: nat) => GoesBefore(s1, s1.Be(b).maturity, c));
    var t := s1.PutGr(g, s.Gr(g).(bes := l));
    PutBeWf(s, b, v);
    Joining.BeWaitPutWf(s1, g, b);
    IdleFrames(s, g, b, v, l);
    IdleBound(s, g, b, v, l);
    IdleSorted(s, g, b, v);
    SentFrame(s, t);
    IndexedFrame(s, t);
    assert ListOf(s, BeList(g)) == s.Gr(g).bes;
    WithoutNoDup(s.Gr(g).bes, b);
    forall n ensures !IsHand(t, n) { assert !IsHand(s, n); }
  }

  lemma SignalGood(s: Store, g: nat, self: nat, max: nat)
    requires Good(s, max) && IsGr(s, g)
    ensures Good(SendSigs(ClearStarting(s, g, self), g), max)
  {
    hide Respects;
    BackendSide.ClearStartingKeeps(s, g, self, max, 0, {}, {});
    var s1 := ClearStarting(s, g, self);
    Granting.SendSigsKeeps(s1, g, 0, max, 0, self, {}, {});
    SendSigsQuiet(s1, g, max);
    forall n ensures !IsHand(SendSigs(s1, g), n) { assert !IsHand(s, n); }
  }

  /** The store before the frontends are signalled. */
  lemma PutShape(s: Store, g: nat, b: nat, self: nat, m: nat)
    requires s.At(g).Grp?
    ensures var t := ClearStarting(BeWaitPut(s.PutBe(b, s.Be(b).(maturity := m)), g, b), g, self);
      && t.At(g).Grp? && b in t.Gr(g).bes && GoIdle(s, g, b, self, m) == SendSigs(t, g)
      && (b != g ==> t.Gr(g).fes == s.Gr(g).fes && t.At(b) == Bck(s.Be(b).(maturity := m, feRunning := 0)))
      && (b == g ==> t.Gr(g).fes == [])
      && (forall n :: n != g && n != b ==> t.At(n) == s.At(n))
  {
  }

  lemma NotQueued(s: Store, g: nat, x: nat)
    requires Wf(s) && (s.At(x).Grp? || IsRun(s, x) || IsBe(s, x))
    ensures x !in s.Gr(g).fes
  {
    assert Home(s, x) != FeList(g) && ListOf(s, FeList(g)) == s.Gr(g).fes;
  }

  lemma Misplaced(s: Store, g: nat, b: nat)
    requires b in s.Gr(g).bes && (s.At(b).Bck? ==> s.At(b).be.grp != g)
    ensures !Wf(s)
  {
    assert b in ListOf(s, BeList(g)) && Home(s, b) != BeList(g);
  }

  /** Slot number b is in the list of g, and is not a backend of g. */
  lemma ForeignBreaks(s: Store, g: nat, b: nat, self: nat, m: nat)
    requires Wf(s) && s.Valid(g) && !(IsBe(s, b) && s.m[b].be.grp == g)
    ensures !Wf(GoIdle(s, g, b, self, m))
  {
    hide BeWaitPut, SendSigs, GoIdle, ClearStarting, Wf;
    PutShape(s, g, b, self, m);
    NotQueued(s, g, g);
    NotZero(s, g);
    var s1 := ClearStarting(BeWaitPut(s.PutBe(b, s.Be(b).(maturity := m)), g, b), g, self);
    SignalLeaves(s1, g, b);
    Misplaced(SendSigs(s1, g), g, b);
  }

  lemma NotZero(s: Store, g: nat)
    requires Wf(s) && s.At(g).Grp?
    ensures g != 0
  {
  }

  lemma Unbound(s: Store, t: Store, b: nat, f: nat)
    requires IsRun(s, f) && s.m[f].fe.backend == b && t.At(f) == s.At(f) && f != 0
    requires t.At(b).Bck? && t.At(b).be.feRunning == 0
    ensures !Bound(t)
  {
    assert IsRun(t, f) && IsBe(t, b);
  }

  /** Backend b of g serves a running frontend. */
  lemma ServingBreaks(s: Store, g: nat, b: nat, self: nat, m: nat)
    requires Wf(s) && Bound(s) && s.Valid(g) && IsBe(s, b) && s.m[b].be.grp == g && s.m[b].be.feRunning !in {0, b}
    ensures !Bound(GoIdle(s, g, b, self, m))
  {
    hide BeWaitPut, SendSigs, GoIdle, ClearStarting, Wf;
    PutShape(s, g, b, self, m);
    var f := s.m[b].be.feRunning;
    assert IsRun(s, f);
    NotQueued(s, g, g);
    NotQueued(s, g, f);
    NotQueued(s, g, b);
    var s1 := ClearStarting(BeWaitPut(s.PutBe(b, s.Be(b).(maturity := m)), g, b), g, self);
    SignalLeaves(s1, g, b);
    SignalLeaves(s1, g, f);
    Unbound(s, SendSigs(s1, g), b, f);
  }

  /** The first section of a backend with slot numbers g and b leaves a good store good exactly if it
      does nothing, since group g is not valid, or b is a backend of g without a frontend. */
  lemma ReadyGoodExactly(s: Store, g: nat, b: nat, self: nat, max: nat)
    requires Good(s, max)
    ensures Good(Protocol.Loop(s, g, b, self, false, 1).0, max) <==> !s.Valid(g) || Idlable(s, g, b)
  {
    if s.Valid(g) && Idlable(s, g, b) {
      IdlePut(s, g, b, 1, max);
      SignalGood(BeWaitPut(s.PutBe(b, s.Be(b).(maturity := 1)), g, b), g, self, max);
    } else if s.Valid(g) {
      if IsBe(s, b) && s.m[b].be.grp == g { ServingBreaks(s, g, b, self, 1); } else { ForeignBreaks(s, g, b, self, 1); }
    }
  }
}
