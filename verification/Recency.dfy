/** In which order waiting backends are used, over whole runs. */
module Recency {
  import opened Lists
  import opened Store
  import opened Conservation
  import opened Sections
  import opened Invariants
  import opened Respect
  import opened Keeping
  import opened Granting
  import opened Groups
  import opened InTheHand
  import opened Scripts
  import opened Sweeping
  import opened FrontendSide
  import opened BackendSide
  import opened Footprint
  import opened Protocol
  import opened Safety
  import opened Choosing
  import opened Runs

  /** Backend b waits in the list of group g. */
  predicate WaitsIn(s: Store, g: nat, b: nat) { b in s.Gr(g).bes && s.Be(b).feRunning == 0 }

  /** Apart from backend x, nobody begins to wait, changes its maturity or overtakes another. */
  ghost predicate IdleOrder(s: Store, t: Store, x: nat) {
    && (forall g, b {:trigger WaitsIn(t, g, b)} :: b != x && WaitsIn(t, g, b) ==>
          WaitsIn(s, g, b) && t.Be(b).maturity == s.Be(b).maturity)
    && (forall g, a, b {:trigger Precedes(t.Gr(g).bes, a, b)} ::
          a != x && b != x && WaitsIn(t, g, a) && WaitsIn(t, g, b) && Precedes(t.Gr(g).bes, a, b) ==>
              Precedes(s.Gr(g).bes, a, b))
  }

  lemma OrderTrans(s: Store, t: Store, u: Store, x: nat)
    requires IdleOrder(s, t, x) && IdleOrder(t, u, x)
    ensures IdleOrder(s, u, x)
  {
  }

  lemma StillInOrder(s: Store, t: Store, x: nat)
    requires SameIdle(s, t)
    ensures IdleOrder(s, t, x)
  {
    forall g, b | WaitsIn(t, g, b) ensures WaitsIn(s, g, b) { }
  }

  /** A backend that does not wait in the end needs no exception. */
  lemma NoException(s: Store, t: Store, x: nat)
    requires IdleOrder(s, t, x) && forall g :: !WaitsIn(t, g, x)
    ensures IdleOrder(s, t, 0)
  {
  }

  // ---- operations on the backend list ----

  lemma UnlinkOrder(s: Store, g: nat, b: nat, x: nat)
    requires IsGr(s, g) && IsBe(s, b) && forall h :: h != g ==> b !in s.Gr(h).bes
    ensures var t := SlotFree(s.PutGr(g, s.Gr(g).(bes := Without(s.Gr(g).bes, b))), b);
      IdleOrder(s, t, x) && forall h :: !WaitsIn(t, h, b)
  {
    var t := SlotFree(s.PutGr(g, s.Gr(g).(bes := Without(s.Gr(g).bes, b))), b);
    forall h ensures t.Gr(h).bes == if h == g then Without(s.Gr(g).bes, b) else s.Gr(h).bes { }
    forall h, c | WaitsIn(t, h, c) ensures c != b && WaitsIn(s, h, c) && t.Be(c) == s.Be(c) { }
    forall h, a, c | Precedes(t.Gr(h).bes, a, c) ensures Precedes(s.Gr(h).bes, a, c) {
      if h == g { PrecedesWithout(s.Gr(g).bes, b, a, c); }
    }
  }

  lemma DisposeOrder(s: Store, g: nat, b: nat, x: nat)
    requires Wf(s) && Bound(s) && IsBe(s, b) && s.m[b].be.grp == g
    ensures var t := BackendDispose(s, g, b); IdleOrder(s, t, x) && forall h :: !WaitsIn(t, h, b)
  {
    hide IdleOrder, SameIdle;
    var s1 := Exited(s, b, true, SIGKILL);
    ExitedFrames(s, b, true, SIGKILL);
    ExitedWf(s, b, true, SIGKILL);
    ExitedEffect(s, b, true, SIGKILL);
    StillInOrder(s, s1, x);
    OnOneList(s1, g, b);
    UnlinkOrder(s1, g, b, x);
    OrderTrans(s, s1, BackendDispose(s, g, b), x);
  }

  lemma GetOrder(s: Store, g: nat, max: nat)
    requires Inv(s, 0, max) && IsGr(s, g) && 0 !in s.live
    ensures var (t, b) := BeWaitGet(s, g); IdleOrder(s, t, b)
  {
    hide IdleOrder, Respects, Bound, Sorted, SentAtHead, WithinMax, Indexed, SameIdle;
    BeStartingKeeps(s, g, 0, max, 0, 0, {}, {});
    var s1 := BeStarting(s, g).0;
    var (t, b) := BeWaitGet(s, g);
    NoZero(s1);
    StillInOrder(s, s1, b);
    if b != 0 {
      GrabOrder(s1, g, s1.Gr(g).bes[0]);
      OrderTrans(s, s1, t, b);
    }
  }

  lemma GrabOrder(s: Store, g: nat, b: nat)
    requires Wf(s) && IsGr(s, g) && b in s.Gr(g).bes
    ensures IdleOrder(s, s.PutGr(g, s.Gr(g).(bes := MoveTail(s.Gr(g).bes, b))), b)
  {
    var t := s.PutGr(g, s.Gr(g).(bes := MoveTail(s.Gr(g).bes, b)));
    assert s.Gr(g).bes == ListOf(s, BeList(g));
    forall h ensures t.Gr(h).bes == if h == g then MoveTail(s.Gr(g).bes, b) else s.Gr(h).bes { }
    forall h, c | WaitsIn(t, h, c) ensures WaitsIn(s, h, c) && t.Be(c) == s.Be(c) { }
    forall h, a, c | Precedes(t.Gr(h).bes, a, c) && a != b && c != b ensures Precedes(s.Gr(h).bes, a, c) {
      if h == g { MoveTailPrecedes(s.Gr(g).bes, b, a, c); }
    }
  }

  lemma PutOrder(s: Store, g: nat, b: nat)
    requires Wf(s) && IsBe(s, b) && s.m[b].be.grp == g
    ensures IdleOrder(s, BeWaitPut(s, g, b), b)
  {
    OnOneList(s, g, b);
    var t := BeWaitPut(s, g, b);
    var s1 := s.PutBe(b, s.Be(b).(feRunning := 0));
    var stop := (c: nat) => GoesBefore(s1, s1.Be(b).maturity, c);
    var l := Without(s.Gr(g).bes, b);
    assert t == s1.PutGr(g, s.Gr(g).(bes := InsertBefore(l, b, stop)));
    forall h ensures t.Gr(h).bes == if h == g then InsertBefore(l, b, stop) else s.Gr(h).bes { }
    forall h, c | WaitsIn(t, h, c) && c != b ensures WaitsIn(s, h, c) && t.Be(c) == s.Be(c) { }
    forall h, a, c | Precedes(t.Gr(h).bes, a, c) && a != b && c != b ensures Precedes(s.Gr(h).bes, a, c) {
      if h == g {
        PrecedesInsertBefore(l, b, stop, a, c);
        PrecedesWithout(s.Gr(g).bes, b, a, c);
      }
    }
  }

  lemma CreateOrder(s: Store, g: nat)
    requires Wf(s) && IsGr(s, g)
    ensures IdleOrder(s, CreateSlot(s, g).0, 0)
  {
    var v := Bck(Backend(0, 0, 0, g));
    AllocFrom(s, v);
    var (t, n) := CreateSlot(s, g);
    assert n != g;
    forall h ensures n !in s.Gr(h).bes { assert ListOf(s, BeList(h)) == s.Gr(h).bes; }
    forall h ensures t.Gr(h).bes == if h == g then s.Gr(g).bes + [n] else s.Gr(h).bes { }
    forall h, c | WaitsIn(t, h, c) ensures c != n && WaitsIn(s, h, c) && t.Be(c) == s.Be(c) { }
    forall h, a, c | Precedes(t.Gr(h).bes, a, c) && c != n ensures Precedes(s.Gr(h).bes, a, c) {
      if h == g { PrecedesSnoc(s.Gr(g).bes, n, a, c); }
    }
  }

  // ---- the frontend's sections ----

  /** The granted backend is not left waiting. */
  lemma FinishOrder(s: Store, g: nat, f: nat, b: nat, c: Connect, self: nat, max: nat)
    requires Inv(s, b, max) && Held(s, f, self) && (b != 0 ==> Grabbed(s, g, b))
    ensures var t := Finish(s, g, f, b, c); IdleOrder(s, t, b) && (b != 0 ==> forall h :: !WaitsIn(t, h, b))
  {
    hide Inv, Respects;
    var s1 := s.PutFe(f, s.Fe(f).(backend := b));
    HeldKeeps(s, f, b, self, b, max, {}, {});
    NoZeroHand(s1, f, b, max, self);
    if b == 0 {
      JettisonFrames(s1, f, self, {}, {});
      SameIdleTrans(s, s1, SlotFree(s1, f));
      StillInOrder(s, SlotFree(s1, f), b);
    } else if c == Failed {
      FailedOrder(s1, g, f, b, self, max);
      StillInOrder(s, s1, b);
      OrderTrans(s, s1, Finish(s, g, f, b, c), b);
    } else {
      LinkOrder(s1, Finish(s, g, f, b, c), b);
      StillInOrder(s, s1, b);
      OrderTrans(s, s1, Finish(s, g, f, b, c), b);
    }
  }

  lemma NoZeroHand(s: Store, f: nat, x: nat, max: nat, self: nat)
    requires Inv(s, x, max) && Held(s, f, self)
    ensures f != 0
  {
    NoZero(s);
  }

  lemma SameIdleTrans(s: Store, t: Store, u: Store)
    requires SameIdle(s, t) && SameIdle(t, u)
    ensures SameIdle(s, u)
  {
  }

  lemma FailedOrder(s: Store, g: nat, f: nat, b: nat, self: nat, max: nat)
    requires Inv(s, b, max) && Held(s, f, self) && Grabbed(s, g, b)
    ensures var t := SlotFree(BackendDispose(s, g, b), f); IdleOrder(s, t, b) && forall h :: !WaitsIn(t, h, b)
  {
    var t := BackendDispose(s, g, b);
    DisposeOrder(s, g, b, b);
    assert t.At(f) == s.At(f);
    JettisonFrames(t, f, self, {}, {});
    StillInOrder(t, SlotFree(t, f), b);
    OrderTrans(s, t, SlotFree(t, f), b);
    forall h ensures !WaitsIn(SlotFree(t, f), h, b) { assert !WaitsIn(t, h, b); }
  }

  /** The backend turns busy, and nothing else changes in the lists. */
  lemma LinkOrder(s: Store, t: Store, b: nat)
    requires forall h :: t.Gr(h).bes == s.Gr(h).bes
    requires forall c :: c != b ==> t.Be(c) == s.Be(c)
    requires t.Be(b).feRunning != 0
    ensures IdleOrder(s, t, b) && forall h :: !WaitsIn(t, h, b)
  {
    forall h, c | c != b && WaitsIn(t, h, c) ensures WaitsIn(s, h, c) { }
  }

  lemma TryGetOrder(s: Store, g: nat, f: nat, self: nat, max: nat)
    requires Inv(s, 0, max) && IsQueued(s, f) && s.m[f].fe.loc == Queue(g) && s.m[f].fe.pid == self
    requires self in s.live && 0 !in s.live
    ensures var (t, b) := TryGet(s, g, f); IdleOrder(s, t, b)
  {
    hide IdleOrder, Respects, Inv;
    SignalIdle(s, g, f, self, max);
    SignalKeeps(s, g, f, self, max, {self}, {});
    var s1 := ClearSent(SendSigs(s, g), f);
    var (t, b) := TryGet(s, g, f);
    StillInOrder(s, s1, b);
    if SendSigs(s, g).Fe(f).sent {
      GetOrder(s1, g, max);
      OrderTrans(s, s1, t, b);
    }
  }

  lemma SignalIdle(s: Store, g: nat, f: nat, self: nat, max: nat)
    requires Inv(s, 0, max) && IsQueued(s, f) && s.m[f].fe.loc == Queue(g) && s.m[f].fe.pid == self && self in s.live
    ensures SameIdle(s, ClearSent(SendSigs(s, g), f))
  {
    NoZero(s);
    SendSigsKeeps(s, g, 0, max, 0, self, {self}, {});
    var s1 := SendSigs(s, g);
    assert IsFe(s, f);
    assert IsQueued(s1, f);
    SentFlagFrames(s1, f, false, 0, self, {}, {});
    SameIdleTrans(s, s1, ClearSent(s1, f));
  }

  /** The last part of a turn, the slot taken out of the queue and settled. */
  lemma LeaveOrder(s: Store, g: nat, f: nat, self: nat, b: nat, c: Connect, max: nat)
    requires Inv(s, b, max) && IsQueued(s, f) && s.m[f].fe.loc == Queue(g) && s.m[f].fe.pid == self
    requires b != 0 ==> Grabbed(s, g, b)
    ensures var t := Settle(Leave(s, g, f), g, f, self, b, c);
      IdleOrder(s, t, b) && (b != 0 ==> forall h :: !WaitsIn(t, h, b))
  {
    hide IdleOrder, Respects, Inv;
    LeaveKeeps(s, g, f, self, b, max, {}, {});
    if b != 0 { LeaveGrabbed(s, g, f, b); }
    var s1 := Leave(s, g, f);
    StillInOrder(s, s1, b);
    SettleOrder(s1, g, f, self, b, c, max);
    OrderTrans(s, s1, Settle(s1, g, f, self, b, c), b);
  }

  lemma SettleOrder(s: Store, g: nat, f: nat, self: nat, b: nat, c: Connect, max: nat)
    requires Inv(s, b, max) && IsGr(s, g) && Held(s, f, self) && (b != 0 ==> Grabbed(s, g, b))
    ensures var t := Settle(s, g, f, self, b, c); IdleOrder(s, t, b) && (b != 0 ==> forall h :: !WaitsIn(t, h, b))
  {
    hide IdleOrder, Respects;
    CleanupKeeps(s, g, b, max, g, self, {}, {});
    CleanupHeld(s, g, f, self);
    var s1 := Cleanup(s, g, self);
    assert b != 0 ==> s1 == s;
    StillInOrder(s, s1, b);
    FinishOrder(s1, g, f, b, c, self, max);
    OrderTrans(s, s1, Settle(s, g, f, self, b, c), b);
  }

  lemma TurnOrder(s: Store, g: nat, f: nat, self: nat, did: bool, max: nat, child: nat, c: Connect)
    requires Inv(s, 0, max) && IsQueued(s, f) && s.m[f].fe.loc == Queue(g) && s.m[f].fe.pid == self
    requires self in s.live && 0 !in s.live && child !in s.live
    ensures IdleOrder(s, QueueTurn(s, g, f, self, did, max, child, c).0, 0)
  {
    hide IdleOrder, Respects, Inv;
    TryGetOrder(s, g, f, self, max);
    TryGetKeeps(s, g, f, self, max, {self}, {});
    var (s1, b) := TryGet(s, g, f);
    var t := QueueTurn(s, g, f, self, did, max, child, c).0;
    if b != 0 {
      LeaveOrder(s1, g, f, self, b, c, max);
      OrderTrans(s, s1, t, b);
      NoException(s, t, b);
    } else {
      PingLive(s1, g, f, self, did, max, child);
      PingKeeps(s1, g, f, self, did, max, child, {self}, {});
      var s2 := Ping(s1, g, f, self, did, max, child).0;
      StillInOrder(s1, s2, 0);
      OrderTrans(s, s1, s2, 0);
      LeaveOrder(s2, g, f, self, 0, c, max);
      OrderTrans(s, s2, Settle(Leave(s2, g, f), g, f, self, 0, c), 0);
    }
  }

  lemma {:induction false} CleanRunningIdle(s: Store, max: nat)
    requires Inv(s, 0, max)
    ensures SameIdle(s, CleanRunning(s))
    decreases |s.running|
  {
    hide Inv, Respects, SameIdle;
    SameToo(s);
    if s.running != [] {
      var f := s.running[|s.running| - 1];
      if s.Fe(f).pid !in s.live {
        CleanOneKeeps(s, max, 0, 0, {}, {});
        LastRuns(s, f, max);
        RemoveRunningFrames(s, f);
        CleanRunningIdle(RemoveRunning(s, f), max);
        SameIdleTrans(s, RemoveRunning(s, f), CleanRunning(s));
      }
    }
  }

  lemma LastRuns(s: Store, f: nat, max: nat)
    requires Inv(s, 0, max) && f in s.running
    ensures IsRun(s, f) && f != 0
  {
    assert f in ListOf(s, RunList) && Home(s, f) == RunList;
  }

  lemma ArriveIdle(s: Store, self: nat, cleaned: bool, key: Key, opt: GroupOpt, max: nat)
    requires Inv(s, 0, max)
    ensures SameIdle(s, Arrive(s, self, cleaned, key, opt).0)
  {
    hide Inv, Respects, Grown;
    CleanRunningIdle(s, max);
    CleanedKeeps(s, cleaned, max, 0, self, {}, {});
    var s0 := if cleaned then s else CleanRunning(s);
    AllocFrontendKeeps(s0, self, max, 0, {}, {});
    AllocIdle(s0, self, max);
    var s1 := AllocFrontend(s0, self).0;
    ScriptFindIdle(s1, key, opt, max);
    SameIdleTrans(s, s0, s1);
    SameIdleTrans(s, s1, ScriptFind(s1, key, opt).0);
  }

  lemma AllocIdle(s: Store, self: nat, max: nat)
    requires Inv(s, 0, max)
    ensures SameIdle(s, AllocFrontend(s, self).0)
  {
    var v := NO_FRONTEND.(pid := self);
    AllocFrom(s, Fro(v));
    var (t, n) := AllocFrontend(s, self);
    FreshFrames(s, v, t, n);
  }

  lemma ScriptFindIdle(s: Store, key: Key, opt: GroupOpt, max: nat)
    requires Inv(s, 0, max)
    ensures SameIdle(s, ScriptFind(s, key, opt).0)
  {
    ScriptFindKeeps(s, key, opt, max);
  }

  lemma QuickOrder(s: Store, g: nat, max: nat)
    requires Inv(s, 0, max) && IsGr(s, g) && 0 !in s.live
    ensures var (t, b) := QuickGet(s, g); IdleOrder(s, t, b)
  {
    GetOrder(s, g, max);
  }

  lemma JoinIdle(s: Store, g: nat, f: nat, self: nat)
    requires Held(s, f, self) && IsGr(s, g)
    ensures SameIdle(s, Join(s, g, f))
  {
    JoinFrames(s, g, f, self);
  }

  lemma ConnectOrder(s: Store, self: nat, cleaned: bool, key: Key, opt: GroupOpt, max: nat, child: nat, c: Connect)
    requires Inv(s, 0, max) && 0 !in s.live && self in s.live && child !in s.live
    ensures IdleOrder(s, ConnectSection(s, self, cleaned, key, opt, max, child, c).0, 0)
  {
    hide IdleOrder, Fair, Respects, Inv, Arrive, QuickGet, Settle, QueueTurn, Join, ConnectSection;
    RequestShape(s, self, cleaned, key, opt, max, child, c);
    ArriveKeeps(s, self, cleaned, key, opt, max, {}, {});
    ArriveIdle(s, self, cleaned, key, opt, max);
    var (s2, g, f) := Arrive(s, self, cleaned, key, opt);
    QuickGetKeeps(s2, g, f, self, max, {}, {});
    QuickOrder(s2, g, max);
    var (s3, b) := QuickGet(s2, g);
    var t := ConnectSection(s, self, cleaned, key, opt, max, child, c).0;
    StillInOrder(s, s2, b);
    OrderTrans(s, s2, s3, b);
    if b != 0 {
      SettleOrder(s3, g, f, self, b, c, max);
      OrderTrans(s, s3, t, b);
      NoException(s, t, b);
    } else {
      JoinInv(s3, g, f, self, max);
      JoinLive(s3, g, f);
      JoinIdle(s3, g, f, self);
      var s4 := Join(s3, g, f);
      StillInOrder(s3, s4, 0);
      TurnOrder(s4, g, f, self, false, max, child, c);
      OrderTrans(s, s3, s4, 0);
      OrderTrans(s, s4, t, 0);
    }
  }

  lemma WakeOrder(s: Store, g: nat, f: nat, self: nat, did: bool, changed: bool, max: nat, child: nat, c: Connect)
    requires Inv(s, 0, max) && IsQueued(s, f) && s.m[f].fe.loc == Queue(g) && s.m[f].fe.pid == self
    requires self in s.live && 0 !in s.live && child !in s.live
    ensures IdleOrder(s, WakeSection(s, g, f, self, did, changed, max, child, c).0, 0)
  {
    hide IdleOrder, Inv, Settle, QueueTurn;
    LeaveOrder(s, g, f, self, 0, c, max);
    TurnOrder(s, g, f, self, did, max, child, c);
  }

  lemma CollectOrder(s: Store, f: nat, max: nat)
    requires Inv(s, 0, max) && IsRun(s, f) && s.m[f].fe.pid in s.live
    ensures IdleOrder(s, CollectStatus(s, f).0, 0)
  {
    hide IdleOrder;
    NoZero(s);
    var b := s.Fe(f).backend;
    var dead := b != 0 && s.Be(b).pid !in s.live;
    var s1 := if dead then Exited(s, b, true, SIGKILL) else s;
    var t := CollectStatus(s, f).0;
    if dead {
      ExitedFrames(s, b, true, SIGKILL);
      ExitedShape(s, b, true, SIGKILL);
      assert s.m[b].be.feRunning == f;
    }
    StillInOrder(s, s1, 0);
    assert IsRun(s1, f);
    if s1.Fe(f).backend == 0 {
      RemoveRunningFrames(s1, f);
      StillInOrder(s1, t, 0);
      OrderTrans(s, s1, t, 0);
    }
  }

  // ---- the backend's sections ----

  lemma MaturityOrder(s: Store, b: nat, m: nat)
    requires IsBe(s, b)
    ensures IdleOrder(s, s.PutBe(b, s.Be(b).(maturity := m)), b)
  {
    var t := s.PutBe(b, s.Be(b).(maturity := m));
    forall h ensures t.Gr(h).bes == s.Gr(h).bes { }
    forall h, c | c != b && WaitsIn(t, h, c) ensures WaitsIn(s, h, c) { }
  }

  lemma SignalledIdle(s: Store, g: nat, self: nat, max: nat)
    requires Inv(s, 0, max) && IsGr(s, g)
    ensures SameIdle(s, SendSigs(ClearStarting(s, g, self), g))
  {
    hide Inv, Respects;
    ClearStartingKeeps(s, g, self, max, 0, {}, {});
    var s1 := ClearStarting(s, g, self);
    SendSigsKeeps(s1, g, 0, max, 0, self, {}, {});
    SameIdleTrans(s, s1, SendSigs(s1, g));
  }

  /** A backend that goes idle stands before all that wait and are not more mature. */
  lemma GoIdleOrder(s: Store, g: nat, b: nat, self: nat, m: nat, max: nat)
    requires Inv(s, 0, max) && IsBe(s, b) && s.m[b].be.grp == g && s.m[b].be.feRunning == b
    ensures var t := GoIdle(s, g, b, self, m);
      && IdleOrder(s, t, b)
      && forall c :: c != b && WaitsIn(t, g, c) && t.Be(c).maturity <= m ==> Precedes(t.Gr(g).bes, b, c)
  {
    hide Inv, Respects, BeWaitPut, ClearStarting, SendSigs;
    MaturityOrder(s, b, m);
    MaturityKeeps(s, b, m, self, max, {}, {});
    var s1 := s.PutBe(b, s.Be(b).(maturity := m));
    PutFirst(s1, g, b, max);
    BeWaitPutKeeps(s1, g, b, max, self, {}, {});
    var s2 := BeWaitPut(s1, g, b);
    Grouped(s2, g, b, max);
    SignalledIdle(s2, g, self, max);
    var t := SendSigs(ClearStarting(s2, g, self), g);
    OrderTrans(s, s1, s2, b);
    StillInOrder(s2, t, b);
    OrderTrans(s, s2, t, b);
    forall c | c != b && WaitsIn(t, g, c) && t.Be(c).maturity <= m ensures Precedes(t.Gr(g).bes, b, c) {
      assert WaitsIn(s2, g, c);
    }
  }

  lemma Grouped(s: Store, g: nat, b: nat, max: nat)
    requires Inv(s, 0, max) && IsBe(s, b) && s.m[b].be.grp == g
    ensures IsGr(s, g) && b in s.Gr(g).bes
  {
    OnOneList(s, g, b);
  }

  lemma PutFirst(s: Store, g: nat, b: nat, max: nat)
    requires Inv(s, 0, max) && IsBe(s, b) && s.m[b].be.grp == g && s.m[b].be.feRunning == b
    ensures var t := BeWaitPut(s, g, b);
      && IdleOrder(s, t, b)
      && forall c :: c != b && WaitsIn(t, g, c) && t.Be(c).maturity <= s.m[b].be.maturity ==>
          Precedes(t.Gr(g).bes, b, c)
  {
    hide Bound, Sorted, SentAtHead, WithinMax, Indexed, BeWaitPut;
    PutOrder(s, g, b);
    var t := BeWaitPut(s, g, b);
    forall c | c != b && WaitsIn(t, g, c) && t.Be(c).maturity <= s.m[b].be.maturity
      ensures Precedes(t.Gr(g).bes, b, c)
    {
      assert WaitsIn(s, g, c);
      BeWaitPutPlace(s, g, b, c, max);
    }
  }

  // ---- the sections of the parent process ----

  lemma CollectOneOrder(s: Store, g: nat, e: Exit, max: nat)
    requires Inv(s, 0, max)
    ensures IdleOrder(s, CollectOne(s, g, e), 0)
  {
    hide IdleOrder, Respects;
    SameToo(s);
    StillInOrder(s, s, 0);
    var b := FindPid(s, s.Gr(g).bes, e.pid);
    FindPidFinds(s, s.Gr(g).bes, e.pid);
    if b != 0 {
      ListedBe(s, g, b);
      var s1 := Exited(s, b, e.onSig, e.val);
      ExitedInv(s, b, e.onSig, e.val, 0, max);
      ExitedEffect(s, b, e.onSig, e.val);
      ExitedFrames(s, b, e.onSig, e.val);
      StillInOrder(s, s1, 0);
      DisposeOrder(s1, g, b, 0);
      OrderTrans(s, s1, CollectOne(s, g, e), 0);
    }
  }

  lemma {:induction false} CollectAllOrder(s: Store, g: nat, es: seq<Exit>, max: nat)
    requires Inv(s, 0, max) && forall e :: e in es ==> e.pid !in s.live
    ensures IdleOrder(s, CollectAll(s, g, es), 0)
    decreases |es|
  {
    hide IdleOrder, Respects, Inv, SameIdle, CollectOne;
    SameToo(s);
    StillInOrder(s, s, 0);
    if es != [] {
      CollectOneKeeps(s, g, es[0], 0, 0, max, {}, {});
      CollectOneOrder(s, g, es[0], max);
      var s1 := CollectOne(s, g, es[0]);
      CollectAllOrder(s1, g, es[1..], max);
      OrderTrans(s, s1, CollectAll(s, g, es), 0);
    }
  }

  lemma NewChildOrder(s: Store, g: nat, self: nat, max: nat, child: nat)
    requires Inv(s, 0, max) && IsGr(s, g) && BelowMax(s, g, max)
    ensures IdleOrder(s, NewChild(s, g, child).0, 0)
  {
    hide IdleOrder, Respects, Bound, Sorted, SentAtHead, WithinMax, Indexed, SameIdle;
    CreateOrder(s, g);
    CreateSlotKeeps(s, g, max, 0, 0, {}, {});
    var (s2, b) := CreateSlot(s, g);
    var t := NewChild(s, g, child).0;
    if child == 0 {
      StartingKeeps(s2, g, 0, 0, max, 0, 0, {}, {});
      var s3 := s2.PutGr(g, s2.Gr(g).(starting := 0));
      BackendsIdle(s2, s3);
      StillInOrder(s2, s3, 0);
      NotTheGroup(s2, g, b);
      DisposeOrder(s3, g, b, 0);
      OrderTrans(s, s2, s3, 0);
      OrderTrans(s, s3, t, 0);
    } else {
      ForkedSame(s2, g, b, child);
      StillInOrder(s2, t, 0);
      OrderTrans(s, s2, t, 0);
    }
  }

  lemma NotTheGroup(s: Store, g: nat, b: nat)
    requires IsGr(s, g) && IsBe(s, b)
    ensures var t := s.PutGr(g, s.Gr(g).(starting := 0)); IsBe(t, b) && t.m[b] == s.m[b]
  {
  }

  lemma BackendsIdle(s: Store, t: Store)
    requires SameBackends(s, t)
    ensures SameIdle(s, t)
  {
  }

  lemma StartChildOrder(s: Store, g: nat, self: nat, max: nat, child: nat)
    requires Inv(s, 0, max) && IsGr(s, g) && 0 !in s.live
    ensures IdleOrder(s, StartChild(s, g, self, max, child).0, 0)
  {
    hide IdleOrder, Respects, Inv, NewChild;
    BeStartingKeeps(s, g, 0, max, 0, 0, {}, {});
    var (s1, p) := BeStarting(s, g);
    StillInOrder(s, s1, 0);
    if (p == 0 || p == self) && BelowMax(s1, g, max) {
      NewChildOrder(s1, g, self, max, child);
      OrderTrans(s, s1, StartChild(s, g, self, max, child).0, 0);
    }
  }

  lemma {:induction false} DisposeDeadOrder(s: Store, g: nat, l: seq<nat>, max: nat)
    requires Inv(s, 0, max) && NoDup(l) && forall b :: b in l ==> b in s.Gr(g).bes
    ensures IdleOrder(s, DisposeDead(s, g, l), 0)
    decreases |l|
  {
    hide IdleOrder, SameIdle, Sorted, SentAtHead, WithinMax, Indexed;
    SameToo(s);
    StillInOrder(s, s, 0);
    if l != [] {
      ListedBe(s, g, l[0]);
      var s1 := if s.Be(l[0]).pid in s.live then s else BackendDispose(s, g, l[0]);
      DisposeOrder(s, g, l[0], 0);
      BackendDisposeInv(s, g, l[0], 0, max);
      DisposedList(s, g, l[0]);
      forall b | b in l[1..] ensures b in s1.Gr(g).bes { assert b in l && b != l[0]; }
      DisposeDeadOrder(s1, g, l[1..], max);
      OrderTrans(s, s1, DisposeDead(s, g, l), 0);
    }
  }

  lemma DoCleanupOrder(s: Store, g: nat, self: nat, max: nat)
    requires Inv(s, 0, max) && IsGr(s, g)
    ensures IdleOrder(s, DoCleanup(s, g, self), 0)
  {
    hide IdleOrder, Respects, Bound, Sorted, SentAtHead, WithinMax, Indexed;
    SameToo(s);
    StillInOrder(s, s, 0);
    GroupPrevFinds(s, g);
    var p := GroupPrev(s, g);
    if p != g {
      ParentSigKeeps(s, p, 0, max, 0, 0, {}, {});
      var (s1, alive) := ParentSig(s, p);
      StillInOrder(s, s1, 0);
      if !alive {
        OrphanOrder(s1, p, self, max);
        OrderTrans(s, s1, DoCleanup(s, g, self), 0);
      }
    }
  }

  lemma OrphanOrder(s: Store, p: nat, self: nat, max: nat)
    requires Inv(s, 0, max) && IsGr(s, p)
    ensures var s2 := Invalidate(s, p); IdleOrder(s, Cleanup(DisposeDead(s2, p, s2.Gr(p).bes), p, self), 0)
  {
    hide IdleOrder, Respects, Bound, Sorted, SentAtHead, WithinMax, Indexed;
    InvalidateKeeps(s, p, 0, max, 0, 0, {}, {});
    var s2 := Invalidate(s, p);
    StillInOrder(s, s2, 0);
    assert ListOf(s2, BeList(p)) == s2.Gr(p).bes;
    DisposeDeadOrder(s2, p, s2.Gr(p).bes, max);
    DisposeDeadKeeps(s2, p, s2.Gr(p).bes, 0, 0, max, {}, {});
    var s3 := DisposeDead(s2, p, s2.Gr(p).bes);
    CleanupKeeps(s3, p, 0, max, p, self, {}, {});
    var t := Cleanup(s3, p, self);
    StillInOrder(s3, t, 0);
    OrderTrans(s, s2, s3, 0);
    OrderTrans(s, s3, t, 0);
  }

  lemma StartOrder(s: Store, self: nat, key: Key, opt: GroupOpt, max: nat, child: nat)
    requires Inv(s, 0, max) && 0 !in s.live
    ensures IdleOrder(s, ParentStart(s, self, key, opt, max, child).0, 0)
  {
    hide IdleOrder, Respects, Inv, StartChild, TakeOver, ScriptFind;
    ScriptFindIdle(s, key, opt, max);
    ScriptFindKeeps(s, key, opt, max);
    var (s1, g) := ScriptFind(s, key, opt);
    StillInOrder(s, s1, 0);
    TakeOverKeeps(s1, g, self, max, 0, {}, {});
    TakeOverIdle(s1, g, self, max);
    var (s2, ours) := TakeOver(s1, g, self);
    StillInOrder(s1, s2, 0);
    OrderTrans(s, s1, s2, 0);
    if ours {
      StartChildOrder(s2, g, self, max, child);
      OrderTrans(s, s2, ParentStart(s, self, key, opt, max, child).0, 0);
    }
  }

  lemma TakeOverIdle(s: Store, g: nat, self: nat, max: nat)
    requires Inv(s, 0, max) && IsGr(s, g)
    ensures SameIdle(s, TakeOver(s, g, self).0)
  {
    hide Respects, Inv;
    SameRefl(s);
    StartBeKeeps(s, g, 0, max, 0, 0, {}, {});
    var p := s.Gr(g).parent;
    var (s2, other) := if p != 0 && p != self then StartBe(s, g) else (s, false);
    ParentFrames(s2, g, self, 0, 0, {}, {});
    SameIdleTrans(s, s2, s2.PutGr(g, s2.Gr(g).(parent := self)));
  }

  lemma ParentWakeOrder(s: Store, g: nat, self: nat, es: seq<Exit>, usr1: bool, alrm: bool, max: nat, child: nat)
    requires Inv(s, 0, max) && IsGr(s, g) && s.m[g].gr.parent == self && 0 !in s.live && self in s.live
    requires child !in s.live && forall e :: e in es ==> e.pid !in s.live
    ensures IdleOrder(s, ParentWake(s, g, self, es, usr1, alrm, max, child).0, 0)
  {
    hide IdleOrder, Respects, Inv, StartChild, CollectAll, DoCleanup;
    CollectAllKeeps(s, g, es, 0, self, max, {}, {});
    CollectAllOrder(s, g, es, max);
    var s1 := CollectAll(s, g, es);
    StartChildOrder(s1, g, self, max, child);
    StartChildKeeps(s1, g, self, max, child, 0, {}, {});
    var s2 := if s1.Valid(g) && usr1 then StartChild(s1, g, self, max, child).0 else s1;
    OrderTrans(s, s1, s2, 0);
    DoCleanupOrder(s2, g, self, max);
    var s3 := DoCleanup(s2, g, self);
    OrderTrans(s, s2, s3, 0);
    TendKeeps(s, g, self, es, usr1, max, child, {self}, {self});
    CleanupKeeps(s3, g, 0, max, g, self, {}, {});
    StillInOrder(s3, Cleanup(s3, g, self), 0);
    OrderTrans(s, s3, Cleanup(s3, g, self), 0);
  }

  // ---- every event ----

  /** The backend slot that the event may put on the wait list. */
  function Idler(y: Sys, e: Event): nat {
    if e.Ready? || e.Finished? then OwnSlot(Pc(y, e.pid)) else 0
  }

  lemma LoopOrder(s: Store, g: nat, b: nat, p: nat, orphan: bool, m: nat, max: nat)
    requires Inv(s, 0, max) && Holds(s, p, BFresh(g, b))
    ensures IdleOrder(s, Loop(s, g, b, p, orphan, m).0, b)
  {
    hide IdleOrder, Inv, GoIdle;
    SameToo(s);
    StillInOrder(s, s, b);
    GoIdleOrder(s, g, b, p, m, max);
  }

  lemma RunOverOrder(s: Store, g: nat, b: nat, p: nat, val: int, again: bool, orphan: bool, max: nat)
    requires Inv(s, 0, max) && Holds(s, p, BBusy(g, b))
    ensures IdleOrder(s, RunOver(s, g, b, p, val, again, orphan).0, b)
  {
    hide IdleOrder, Inv, Respects, Quiet, Exited, Loop, StartBe;
    ServedKeeps(s, b, val, p, max, {}, {});
    ServedIdle(s, b, val, max);
    var s1 := Exited(s, b, false, val);
    StillInOrder(s, s1, b);
    if again {
      LoopOrder(s1, g, b, p, orphan, 2, max);
      OrderTrans(s, s1, Loop(s1, g, b, p, orphan, 2).0, b);
    } else if s1.Valid(g) {
      Grouped(s1, g, b, max);
      StartBeKeeps(s1, g, 0, max, 0, 0, {}, {});
      StillInOrder(s1, StartBe(s1, g).0, b);
      OrderTrans(s, s1, StartBe(s1, g).0, b);
    }
  }

  lemma ServedIdle(s: Store, b: nat, val: int, max: nat)
    requires Inv(s, 0, max) && IsBe(s, b)
    ensures SameIdle(s, Exited(s, b, false, val))
  {
    ExitedFrames(s, b, false, val);
  }

  lemma EventOrder(y: Sys, e: Event, max: nat)
    requires SysInv(y, max) && Enabled(y, e, max)
    ensures IdleOrder(y.s, Effect(y, e, max).0, Idler(y, e))
  {
    hide IdleOrder, Inv, NoHand, ConnectSection, WakeSection, CollectStatus, ParentStart, ParentWake, Loop, RunOver,
        Accepted, MayConnect;
    var s, p := y.s, e.pid;
    if e.Come? || e.Die? || e.Quit? {
      LiveRespects(s, Effect(y, e, max).0.live, 0, 0, {}, {});
      StillInOrder(s, Effect(y, e, max).0, 0);
    } else {
      assert Holds(s, p, Pc(y, p));
      SectionOrder(y, e, max);
    }
  }

  lemma SectionOrder(y: Sys, e: Event, max: nat)
    requires SysInv(y, max) && Enabled(y, e, max) && !e.Come? && !e.Die? && !e.Quit? && Holds(y.s, e.pid, Pc(y, e.pid))
    ensures IdleOrder(y.s, Effect(y, e, max).0, Idler(y, e))
  {
    hide IdleOrder, Inv, NoHand, ConnectSection, WakeSection, CollectStatus, ParentStart, ParentWake, Loop, RunOver,
        Accepted, MayConnect;
    var s, pc := y.s, Pc(y, e.pid);
    match e
    case Request(p, key, opt, child, c) => ConnectOrder(s, p, pc.cleaned, key, opt, max, child, c);
    case Wake(p, changed, child, c) => WakeOrder(s, pc.g, pc.f, p, pc.didSpawn, changed, max, child, c);
    case Collect(p) => CollectOrder(s, pc.f, max);
    case Start(p, key, opt, child) => StartOrder(s, p, key, opt, max, child);
    case Tended(p, es, usr1, alrm, child) => ParentWakeOrder(s, pc.g, p, es, usr1, alrm, max, child);
    case Ready(p, orphan) => LoopOrder(s, pc.g, pc.b, p, orphan, 1, max);
    case Accept(p) => AcceptOrder(s, pc.g, pc.b, p, max);
    case Finished(p, val, again, orphan) => RunOverOrder(s, pc.g, pc.b, p, val, again, orphan, max);
  }

  lemma AcceptOrder(s: Store, g: nat, b: nat, self: nat, max: nat)
    requires Inv(s, 0, max) && IsBe(s, b) && s.m[b].be.grp == g
    ensures IdleOrder(s, s, 0) && IdleOrder(s, Accepted(s, g, self), 0)
  {
    hide IdleOrder, Inv;
    SameToo(s);
    StillInOrder(s, s, 0);
    Grouped(s, g, b, max);
    SignalledIdle(s, g, self, max);
    StillInOrder(s, Accepted(s, g, self), 0);
  }

  /** In the event backend b of group g goes idle. */
  predicate GoesIdle(y: Sys, e: Event, max: nat, g: nat, b: nat) {
    (e.Ready? || e.Finished?) && Effect(y, e, max).1 == BWaiting(g, b)
  }

  lemma IdleFirst(y: Sys, e: Event, max: nat, g: nat, b: nat, c: nat)
    requires SysInv(y, max) && Enabled(y, e, max) && GoesIdle(y, e, max, g, b)
    ensures var t := Next(y, e, max).s;
      b != c && WaitsIn(t, g, c) && t.Be(c).maturity <= t.Be(b).maturity ==> Precedes(t.Gr(g).bes, b, c)
  {
    hide Inv, NoHand, GoIdle, Exited, StartBe, IdleOrder, Respects;
    var s, p := y.s, e.pid;
    var m := if e.Ready? then 1 else 2;
    assert Holds(s, p, Pc(y, p));
    var s1 := if e.Ready? then s else Exited(s, b, false, e.val);
    if e.Finished? { ServedKeeps(s, b, e.val, p, max, {}, {}); }
    GoIdleOrder(s1, g, b, p, m, max);
    GoIdleKeeps(s1, g, b, p, m, max, {}, {});
    assert Next(y, e, max).s == GoIdle(s1, g, b, p, m);
  }

  /** Two backends that wait before and after an event keep their order. */
  lemma StepAhead(y: Sys, e: Event, max: nat, g: nat, b: nat, c: nat)
    requires SysInv(y, max) && Enabled(y, e, max) && Precedes(y.s.Gr(g).bes, b, c)
    requires WaitsIn(y.s, g, b) && WaitsIn(y.s, g, c)
    requires WaitsIn(Next(y, e, max).s, g, b) && WaitsIn(Next(y, e, max).s, g, c)
    ensures Precedes(Next(y, e, max).s.Gr(g).bes, b, c)
  {
    hide NoHand, Bound, Sorted, SentAtHead, WithinMax, Indexed, Effect, MayConnect;
    EventOrder(y, e, max);
    EventSound(y, e, max);
    var t := Next(y, e, max).s;
    NoZero(y.s);
    assert Idler(y, e) != b && Idler(y, e) != c by {
      if e.pid in y.s.live { assert Holds(y.s, e.pid, Pc(y, e.pid)); }
    }
    NotBehind(y.s, t, g, b, c);
    PrecedesTotal(t.Gr(g).bes, b, c);
  }

  lemma NotBehind(s: Store, t: Store, g: nat, b: nat, c: nat)
    requires Wf(s) && Precedes(s.Gr(g).bes, b, c)
    ensures b != c && !Precedes(s.Gr(g).bes, c, b)
  {
    assert ListOf(s, BeList(g)) == s.Gr(g).bes;
    PrecedesAsym(s.Gr(g).bes, b, c);
  }

  // ---- whole runs ----

  /** Backend b waits in the list of g in all states from i to k. */
  ghost predicate Idles(tr: seq<Sys>, g: nat, b: nat, i: nat, k: nat)
    requires k < |tr|
  {
    forall j :: i <= j <= k ==> WaitsIn(tr[j].s, g, b)
  }

  lemma {:induction false} StaysAhead(tr: seq<Sys>, es: seq<Event>, max: nat, g: nat, b: nat, c: nat, i: nat, k: nat)
    requires History(tr, es, max) && i < k < |tr| && b != c && GoesIdle(tr[i], es[i], max, g, b)
    requires Idles(tr, g, b, i + 1, k) && Idles(tr, g, c, i + 1, k)
    requires tr[i + 1].s.Be(c).maturity <= tr[i + 1].s.Be(b).maturity
    ensures Precedes(tr[k].s.Gr(g).bes, b, c)
    decreases k
  {
    hide SysInv, Enabled, Next, GoesIdle, Precedes, WaitsIn;
    assert WaitsIn(tr[k].s, g, b) && WaitsIn(tr[k].s, g, c);
    Safe(tr, es, max, k - 1);
    assert Enabled(tr[k - 1], es[k - 1], max) && tr[k] == Next(tr[k - 1], es[k - 1], max);
    if i + 1 == k {
      IdleFirst(tr[i], es[i], max, g, b, c);
    } else {
      assert WaitsIn(tr[k - 1].s, g, b) && WaitsIn(tr[k - 1].s, g, c);
      StaysAhead(tr, es, max, g, b, c, i, k - 1);
      StepAhead(tr[k - 1], es[k - 1], max, g, b, c);
    }
  }

  lemma GetHead(s: Store, g: nat)
    ensures var b := BeWaitGet(s, g).1; b != 0 ==> s.Gr(g).bes != [] && s.Gr(g).bes[0] == b && s.Be(b).feRunning == 0
  {
  }

  lemma TryGetHead(s: Store, g: nat, f: nat, self: nat, max: nat)
    requires Inv(s, 0, max) && IsQueued(s, f) && s.m[f].fe.loc == Queue(g) && s.m[f].fe.pid == self && self in s.live
    ensures var b := TryGet(s, g, f).1; b != 0 ==> s.Gr(g).bes != [] && s.Gr(g).bes[0] == b && s.Be(b).feRunning == 0
  {
    hide Inv, BeWaitGet;
    SignalIdle(s, g, f, self, max);
    GetHead(ClearSent(SendSigs(s, g), f), g);
  }

  lemma RequestHead(s: Store, self: nat, cleaned: bool, key: Key, opt: GroupOpt, max: nat)
    requires Inv(s, 0, max) && 0 !in s.live && self in s.live
    ensures var b := ConnectGets(s, self, cleaned, key, opt).1; var l := s.Gr(Arrive(s, self, cleaned, key, opt).1).bes;
      b != 0 ==> l != [] && l[0] == b && s.Be(b).feRunning == 0
  {
    hide Inv, Arrive, BeWaitGet, TryGet, Join, Fair;
    ArriveKeeps(s, self, cleaned, key, opt, max, {}, {});
    ArriveIdle(s, self, cleaned, key, opt, max);
    var (s2, g, f) := Arrive(s, self, cleaned, key, opt);
    QuickGetKeeps(s2, g, f, self, max, {}, {});
    QuickOrder(s2, g, max);
    GetHead(s2, g);
    var (s3, b) := QuickGet(s2, g);
    if b == 0 {
      GetNone(s2, g, max);
      JoinInv(s3, g, f, self, max);
      JoinLive(s3, g, f);
      JoinIdle(s3, g, f, self);
      TryGetHead(Join(s3, g, f), g, f, self, max);
    }
  }

  lemma GetNone(s: Store, g: nat, max: nat)
    requires Inv(s, 0, max) && IsGr(s, g) && 0 !in s.live
    ensures QuickGet(s, g).1 == 0 ==> SameIdle(s, QuickGet(s, g).0)
  {
    hide Respects, Bound, Sorted, SentAtHead, WithinMax, Indexed, SameIdle;
    SameToo(s);
    NoZero(s);
    BeStartingKeeps(s, g, 0, max, 0, 0, {}, {});
    BackendsIdle(s, BeStarting(s, g).0);
  }

  /** Who is granted stands at the head of the backend list before the section. */
  lemma GrantIsHead(y: Sys, e: Event, max: nat)
    requires SysInv(y, max) && Enabled(y, e, max) && Granted(y, e).1 != 0
    ensures var b := Granted(y, e).1; var g := GrantGroup(y, e);
      WaitsIn(y.s, g, b) && forall c :: !Precedes(y.s.Gr(g).bes, c, b)
  {
    hide NoHand, Bound, Sorted, SentAtHead, WithinMax, Indexed, Effect, MayConnect, ConnectGets, TryGet, Arrive;
    assert Holds(y.s, e.pid, Pc(y, e.pid));
    if e.Request? {
      RequestHead(y.s, e.pid, Pc(y, e.pid).cleaned, e.key, e.opt, max);
    } else {
      TryGetHead(y.s, Pc(y, e.pid).g, Pc(y, e.pid).f, e.pid, max);
    }
    var l := y.s.Gr(GrantGroup(y, e)).bes;
    assert l == ListOf(y.s, BeList(GrantGroup(y, e)));
    forall c ensures !Precedes(l, c, l[0]) {
      if Precedes(l, c, l[0]) { PrecedesAsym(l, c, l[0]); }
    }
  }

  /** In any run, a backend is granted that waits and that no other waiting one of its group
      surpasses in maturity. */
  lemma MostMatureFirst(tr: seq<Sys>, es: seq<Event>, max: nat, k: nat, c: nat)
    requires History(tr, es, max) && k < |es| && Granted(tr[k], es[k]).1 != 0
    ensures var b := Granted(tr[k], es[k]).1; var g := GrantGroup(tr[k], es[k]);
      WaitsIn(tr[k].s, g, b) && (WaitsIn(tr[k].s, g, c) ==> tr[k].s.Be(c).maturity <= tr[k].s.Be(b).maturity)
  {
    var s, b, g := tr[k].s, Granted(tr[k], es[k]).1, GrantGroup(tr[k], es[k]);
    hide Enabled, Next, Granted, GrantGroup, Wf, Bound, SentAtHead, Indexed, NoHand, Owned;
    Safe(tr, es, max, k);
    assert Enabled(tr[k], es[k], max);
    GrantIsHead(tr[k], es[k], max);
    if WaitsIn(s, g, c) && c != b { AheadOf(s, g, b, c, max); }
  }

  lemma AheadOf(s: Store, g: nat, b: nat, c: nat, max: nat)
    requires Inv(s, 0, max) && b in s.Gr(g).bes && c in s.Gr(g).bes && b != c && !Precedes(s.Gr(g).bes, c, b)
    requires s.Be(c).feRunning == 0
    ensures s.Be(c).maturity <= s.Be(b).maturity
  {
    NoZero(s);
    PrecedesTotal(s.Gr(g).bes, b, c);
    assert Ordered(s, b, c);
  }

  /** Last in, first out, over any run: while backend b waits, having gone idle
      after c did, c is granted only if it was the more mature of the two. */
  lemma LastInFirstOut(tr: seq<Sys>, es: seq<Event>, max: nat, g: nat, b: nat, c: nat, i: nat, k: nat)
    requires History(tr, es, max) && i < k < |es| && b != c && GoesIdle(tr[i], es[i], max, g, b)
    requires Idles(tr, g, b, i + 1, k) && Idles(tr, g, c, i + 1, k)
    requires tr[i + 1].s.Be(c).maturity <= tr[i + 1].s.Be(b).maturity
    ensures GrantGroup(tr[k], es[k]) == g ==> Granted(tr[k], es[k]).1 != c
  {
    hide SysInv, Enabled, Next, Granted, GrantGroup, GoesIdle, Precedes;
    if GrantGroup(tr[k], es[k]) == g && Granted(tr[k], es[k]).1 == c {
      assert WaitsIn(tr[k].s, g, c);
      Safe(tr, es, max, k);
      NotZero(tr[k], max, g, c);
      assert Enabled(tr[k], es[k], max);
      GrantIsHead(tr[k], es[k], max);
      StaysAhead(tr, es, max, g, b, c, i, k);
    }
  }

  lemma NotZero(y: Sys, max: nat, g: nat, c: nat)
    requires SysInv(y, max) && c in y.s.Gr(g).bes
    ensures c != 0
  {
    NoZero(y.s);
  }
}
