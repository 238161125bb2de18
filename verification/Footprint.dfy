/** A critical section takes at most four new slots, and leaves none off all lists. */
module Footprint {
  import opened Lists
  import opened Store
  import opened Conservation
  import opened Invariants
  import opened Respect
  import opened Keeping
  import opened Granting
  import opened Groups
  import opened InTheHand
  import opened Scripts
  import opened Sections
  import opened Sweeping
  import FrontendSide
  import BackendSide

  predicate IsHand(s: Store, n: nat) { n in s.m && s.m[n].Fro? && s.m[n].fe.loc == Hand }

  /** No slot comes into the hand, and none is taken from beyond slots_alloced. */
  ghost predicate Quiet(s: Store, t: Store) {
    t.alloced == s.alloced && forall n :: IsHand(t, n) ==> IsHand(s, n)
  }

  /** No slot of the file is on no list. */
  ghost predicate NoHand(s: Store) { forall n :: !IsHand(s, n) }

  // ---- operations that allocate nothing ----

  lemma ExitedQuiet(s: Store, b: nat, onSig: bool, val: int)
    requires s.Be(b).feRunning in {0, b} || s.At(s.Be(b).feRunning).Fro?
    ensures Quiet(s, Exited(s, b, onSig, val))
  {
  }

  lemma BackendDisposeQuiet(s: Store, g: nat, b: nat)
    requires s.Be(b).feRunning in {0, b} || s.At(s.Be(b).feRunning).Fro?
    ensures Quiet(s, BackendDispose(s, g, b))
  {
    ExitedQuiet(s, b, true, SIGKILL);
  }

  lemma {:induction false} FreeAllQuiet(s: Store, l: seq<nat>)
    ensures Quiet(s, FreeAll(s, l))
    decreases |l|
  {
    if l != [] { FreeAllQuiet(SlotFree(s, l[0]), l[1..]); }
  }

  lemma InvalidateQuiet(s: Store, g: nat)
    ensures Quiet(s, Invalidate(s, g))
  {
    FreeAllQuiet(s, s.Gr(g).scripts);
  }

  lemma CleanupQuiet(s: Store, g: nat, self: nat)
    ensures Quiet(s, Cleanup(s, g, self))
  {
    var s1 := s.(live := s.live - ({s.Gr(g).parent} - {self}));
    InvalidateQuiet(s1, g);
    forall n | IsHand(Cleanup(s, g, self), n) ensures IsHand(s, n) {
      assert IsHand(Invalidate(s1, g), n) || IsHand(s, n);
    }
  }

  lemma StartBeQuiet(s: Store, g: nat)
    ensures Quiet(s, ParentSig(s, g).0) && Quiet(s, StartBe(s, g).0)
  {
    InvalidateQuiet(s, g);
  }

  lemma {:induction false} DropDeadQuiet(s: Store, g: nat)
    ensures Quiet(s, DropDead(s, g))
    decreases |s.Gr(g).fes|
  {
    var l := s.Gr(g).fes;
    if l != [] && s.Fe(l[0]).pid !in s.live {
      var s1 := FrontendDispose(s, g, l[0]);
      if |s1.Gr(g).fes| < |l| { DropDeadQuiet(s1, g); }
    }
  }

  lemma SendSigsQuiet(s: Store, g: nat, max: nat)
    requires Inv(s, 0, max)
    ensures Quiet(s, SendSigs(s, g))
  {
    DropDeadQuiet(s, g);
    DropDeadKeeps(s, g, 0, max, 0, 0, {}, {});
    var s1 := DropDead(s, g);
    if s1.Gr(g).fes != [] { QueuedFe(s1, g, s1.Gr(g).fes[0]); }
  }

  lemma TryGetQuiet(s: Store, g: nat, f: nat, self: nat, max: nat)
    requires Inv(s, 0, max) && IsQueued(s, f) && s.m[f].fe.loc == Queue(g) && s.m[f].fe.pid == self && self in s.live
    ensures Quiet(s, TryGet(s, g, f).0)
  {
    SendSigsQuiet(s, g, max);
    SendSigsKeeps(s, g, 0, max, 0, self, s.live, {});
    assert IsFe(s, f);
    var s1 := SendSigs(s, g);
    assert IsFe(s1, f);
    ClearSentQuiet(s1, g, f);
    forall n | IsHand(TryGet(s, g, f).0, n) ensures IsHand(s, n) { assert IsHand(s1, n); }
  }

  lemma ClearSentQuiet(s: Store, g: nat, f: nat)
    requires s.At(f).Fro?
    ensures Quiet(s, ClearSent(s, f)) && Quiet(s, BeWaitGet(ClearSent(s, f), g).0)
  {
  }

  lemma {:induction false} SweepQuiet(s: Store, g: nat, f: nat, self: nat)
    ensures Quiet(s, Sweep(s, g, f, self))
    decreases |Frontends(s)|
  {
    if s.Fe(f).pid !in s.live && s.At(f).Fro? {
      var (h, e) := FePrev(s, g, f);
      var s1 := SweepOne(s, g, f, self);
      CleanupQuiet(FrontendDispose(s, g, f), g, self);
      if e != f && |Frontends(s1)| < |Frontends(s)| { SweepQuiet(s1, h, e, self); }
    }
  }

  lemma BackendCheckQuiet(s: Store, g: nat, did: bool, max: nat, child: nat)
    ensures Quiet(s, BackendCheck(s, g, did, max, child).0)
  {
    var s1 := BeStarting(s, g).0;
    var s2 := SpawnIfNone(s1, g, child);
    StartBeQuiet(s2, g);
  }

  lemma PingQuiet(s: Store, g: nat, f: nat, self: nat, did: bool, max: nat, child: nat)
    ensures Quiet(s, Ping(s, g, f, self, did, max, child).0)
  {
    var (h, e) := FePrev(s, g, f);
    SweepQuiet(s, h, e, self);
    BackendCheckQuiet(CheckPrev(s, g, f, self), g, did, max, child);
  }

  lemma {:induction false} CleanRunningQuiet(s: Store)
    ensures Quiet(s, CleanRunning(s))
    decreases |s.running|
  {
    if s.running != [] {
      var f := s.running[|s.running| - 1];
      var t := RemoveRunning(s, f);
      if s.Fe(f).pid !in s.live && |t.running| < |s.running| { CleanRunningQuiet(t); }
    }
  }

  lemma {:induction false} ScanQuiet(s: Store, gs: seq<nat>, key: Key, opt: GroupOpt, nameMatch: nat)
    ensures Quiet(s, Scan(s, gs, key, opt, nameMatch).0)
    decreases |gs|
  {
    if gs != [] {
      var m := if opt.Named? then gs[0] else nameMatch;
      InvalidateQuiet(s, gs[0]);
      ScanQuiet(s, gs[1..], key, opt, nameMatch);
      ScanQuiet(s, gs[1..], key, opt, m);
      ScanQuiet(Invalidate(s, gs[0]), gs[1..], key, opt, m);
    }
  }

  /** The script lookup takes up to three slots and leaves the hand as it is. */
  lemma ScriptFindTakes(s: Store, key: Key, opt: GroupOpt)
    ensures var t := ScriptFind(s, key, opt).0;
      t.alloced <= s.alloced + 3 && forall n :: IsHand(t, n) ==> IsHand(s, n)
  {
    ScanQuiet(s, s.groups, key, opt, 0);
    var (s1, g, nameMatch) := Scan(s, s.groups, key, opt, 0);
    AddScriptTakes(s1, nameMatch, key, opt);
  }

  lemma AddScriptTakes(s: Store, nameMatch: nat, key: Key, opt: GroupOpt)
    ensures var t := AddScript(s, nameMatch, key, opt).0;
      t.alloced <= s.alloced + 3 && forall n :: IsHand(t, n) ==> IsHand(s, n)
  {
    var (s1, g) := if nameMatch == 0 || !s.Valid(nameMatch) then GroupCreate(s, opt) else (s, nameMatch);
    assert s1.alloced <= s.alloced + 2;
    assert forall n :: IsHand(s1, n) ==> IsHand(s, n);
  }

  lemma FinishHand(s: Store, g: nat, f: nat, b: nat, c: Connect)
    requires s.At(f).Fro? && f != g && (b != 0 ==> s.Be(b).feRunning == 0 && f != b)
    ensures var t := Finish(s, g, f, b, c); t.alloced == s.alloced && forall n :: IsHand(t, n) ==>
        IsHand(s, n) && n != f
  {
  }

  /** Settling disposes of the hand. */
  lemma SettleHand(s: Store, g: nat, f: nat, self: nat, b: nat, c: Connect)
    requires Wf(s) && IsGr(s, g) && Held(s, f, self) && (b != 0 ==> Grabbed(s, g, b))
    ensures var t := Settle(s, g, f, self, b, c); t.alloced == s.alloced && forall n :: IsHand(t, n) ==>
        IsHand(s, n) && n != f
  {
    CleanupQuiet(s, g, self);
    FrontendSide.CleanupHeld(s, g, f, self);
    var s1 := Cleanup(s, g, self);
    assert b != 0 ==> s1 == s;
    FinishHand(s1, g, f, b, c);
  }

  // ---- whole sections ----

  lemma LeaveSettleHand(s: Store, g: nat, f: nat, self: nat, b: nat, c: Connect, max: nat)
    requires Inv(s, b, max) && IsQueued(s, f) && s.m[f].fe.loc == Queue(g) && s.m[f].fe.pid == self
    requires b != 0 ==> Grabbed(s, g, b)
    ensures Quiet(s, Settle(Leave(s, g, f), g, f, self, b, c))
  {
    LeaveKeeps(s, g, f, self, b, max, {}, {});
    var s1 := Leave(s, g, f);
    if b != 0 { FrontendSide.LeaveGrabbed(s, g, f, b); }
    SettleHand(s1, g, f, self, b, c);
    forall n | IsHand(s1, n) && n != f ensures IsHand(s, n) { }
  }

  lemma QueueTurnQuiet(s: Store, g: nat, f: nat, self: nat, did: bool, max: nat, child: nat, c: Connect)
    requires Inv(s, 0, max) && IsQueued(s, f) && s.m[f].fe.loc == Queue(g) && s.m[f].fe.pid == self
    requires self in s.live && 0 !in s.live && child !in s.live
    ensures Quiet(s, QueueTurn(s, g, f, self, did, max, child, c).0)
  {
    hide Inv, IsQueued, Respects, TryGet, Ping, Leave, Settle;
    TryGetKeeps(s, g, f, self, max, {self}, {});
    TryGetQuiet(s, g, f, self, max);
    var (s1, b) := TryGet(s, g, f);
    if b != 0 {
      LeaveSettleHand(s1, g, f, self, b, c, max);
    } else {
      PingTurnQuiet(s1, g, f, self, did, max, child, c);
    }
  }

  lemma PingTurnQuiet(s: Store, g: nat, f: nat, self: nat, did: bool, max: nat, child: nat, c: Connect)
    requires Inv(s, 0, max) && IsQueued(s, f) && s.m[f].fe.loc == Queue(g) && s.m[f].fe.pid == self
    requires self in s.live && 0 !in s.live && child !in s.live
    ensures var t := Ping(s, g, f, self, did, max, child).0;
      Quiet(s, t) && Quiet(t, Settle(Leave(t, g, f), g, f, self, 0, c))
  {
    hide Inv, IsQueued, Respects, Ping, Leave, Settle;
    PingLive(s, g, f, self, did, max, child);
    PingKeeps(s, g, f, self, did, max, child, {self}, {});
    PingQuiet(s, g, f, self, did, max, child);
    LeaveSettleHand(Ping(s, g, f, self, did, max, child).0, g, f, self, 0, c, max);
  }

  lemma ArrivesReady(s: Store, self: nat, cleaned: bool, key: Key, opt: GroupOpt, max: nat)
    requires Inv(s, 0, max) && NoHand(s)
    ensures var (t, g, f) := FrontendSide.Arrive(s, self, cleaned, key, opt);
      && Inv(t, 0, max) && IsGr(t, g) && Held(t, f, self) && t.m[f].fe == NO_FRONTEND.(pid := self)
      && t.live == s.live && t.alloced <= s.alloced + 4 && forall n :: IsHand(t, n) ==> n == f
  {
    FrontendSide.ArriveKeeps(s, self, cleaned, key, opt, max, {}, {});
    ArriveHand(s, self, cleaned, key, opt);
  }

  lemma QuickGetReady(s: Store, g: nat, f: nat, self: nat, max: nat)
    requires Inv(s, 0, max) && IsGr(s, g) && 0 !in s.live && Held(s, f, self)
    requires forall n :: IsHand(s, n) ==> n == f
    ensures var (t, b) := FrontendSide.QuickGet(s, g);
      && Inv(t, b, max) && IsGr(t, g) && Held(t, f, self) && t.m[f].fe == s.m[f].fe && t.live == s.live
      && t.alloced == s.alloced && (b != 0 ==> Grabbed(t, g, b)) && forall n :: IsHand(t, n) ==> n == f
  {
    FrontendSide.QuickGetKeeps(s, g, f, self, max, {}, {});
    var t := FrontendSide.QuickGet(s, g).0;
    forall n | IsHand(t, n) ensures n == f { assert IsHand(s, n); }
  }

  /** A request takes at most four new slots and leaves none in the hand. */
  lemma ConnectTakes(s: Store, self: nat, cleaned: bool, key: Key, opt: GroupOpt, max: nat, child: nat, c: Connect)
    requires Inv(s, 0, max) && NoHand(s) && 0 !in s.live && self in s.live && child !in s.live
    ensures var t := ConnectSection(s, self, cleaned, key, opt, max, child, c).0;
      NoHand(t) && t.alloced <= s.alloced + 4
  {
    ArrivesReady(s, self, cleaned, key, opt, max);
    var (s2, g, f) := FrontendSide.Arrive(s, self, cleaned, key, opt);
    QuickGetReady(s2, g, f, self, max);
    var (s3, b) := FrontendSide.QuickGet(s2, g);
    Placed(s3, g, f, self, b, max, child, c);
  }

  lemma Placed(s: Store, g: nat, f: nat, self: nat, b: nat, max: nat, child: nat, c: Connect)
    requires Inv(s, b, max) && IsGr(s, g) && Held(s, f, self) && s.m[f].fe == NO_FRONTEND.(pid := self)
    requires 0 !in s.live && self in s.live && child !in s.live && (b != 0 ==> Grabbed(s, g, b))
    requires forall n :: IsHand(s, n) ==> n == f
    ensures var t := if b != 0 then Settle(s, g, f, self, b, c)
        else QueueTurn(Join(s, g, f), g, f, self, false, max, child, c).0;
      NoHand(t) && t.alloced == s.alloced
  {
    if b != 0 {
      SettleHand(s, g, f, self, b, c);
    } else {
      JoinInv(s, g, f, self, max);
      var s4 := Join(s, g, f);
      QueueTurnQuiet(s4, g, f, self, false, max, child, c);
      forall n ensures !IsHand(s4, n) { assert IsHand(s4, n) ==> IsHand(s, n); }
    }
  }

  lemma ArriveHand(s: Store, self: nat, cleaned: bool, key: Key, opt: GroupOpt)
    requires NoHand(s)
    ensures var (t, g, f) := FrontendSide.Arrive(s, self, cleaned, key, opt); forall n :: IsHand(t, n) ==> n == f
  {
    CleanRunningQuiet(s);
    var s0 := if cleaned then s else CleanRunning(s);
    var (s1, f) := AllocFrontend(s0, self);
    ScriptFindTakes(s1, key, opt);
    forall n | IsHand(s1, n) ensures n == f { assert n != f ==> IsHand(s0, n); }
  }

  lemma WakeTakes(s: Store, g: nat, f: nat, self: nat, did: bool, changed: bool, max: nat, child: nat, c: Connect)
    requires Inv(s, 0, max) && IsQueued(s, f) && s.m[f].fe.loc == Queue(g) && s.m[f].fe.pid == self
    requires self in s.live && 0 !in s.live && child !in s.live
    ensures Quiet(s, WakeSection(s, g, f, self, did, changed, max, child, c).0)
  {
    LeaveSettleHand(s, g, f, self, 0, c, max);
    QueueTurnQuiet(s, g, f, self, did, max, child, c);
  }

  lemma CollectStatusTakes(s: Store, f: nat)
    requires Wf(s) && Bound(s) && IsRun(s, f)
    ensures Quiet(s, CollectStatus(s, f).0)
  {
    var b := s.Fe(f).backend;
    if b != 0 { ExitedQuiet(s, b, true, SIGKILL); }
  }

  lemma GoIdleTakes(s: Store, g: nat, b: nat, self: nat, m: nat, max: nat)
    requires Inv(s, 0, max) && IsBe(s, b) && s.m[b].be.grp == g && s.m[b].be.feRunning == b && s.m[b].be.pid == self
    ensures Quiet(s, GoIdle(s, g, b, self, m))
  {
    hide Respects,Wf,Bound,Sorted,SentAtHead,WithinMax,Indexed;
    BackendSide.MaturityKeeps(s, b, m, self, max, {}, {});
    var s1 := s.PutBe(b, s.Be(b).(maturity := m));
    BeWaitPutKeeps(s1, g, b, max, self, {}, {});
    var s2 := BeWaitPut(s1, g, b);
    OnOneList(s2, g, b);
    BackendSide.ClearStartingKeeps(s2, g, self, max, b, {}, {});
    SendSigsQuiet(ClearStarting(s2, g, self), g, max);
    forall n | IsHand(ClearStarting(s2, g, self), n) ensures IsHand(s, n) { }
  }

  lemma AcceptedTakes(s: Store, g: nat, self: nat, max: nat)
    requires Inv(s, 0, max) && IsGr(s, g)
    ensures Quiet(s, Accepted(s, g, self))
  {
    BackendSide.ClearStartingKeeps(s, g, self, max, 0, {}, {});
    SendSigsQuiet(ClearStarting(s, g, self), g, max);
    forall n | IsHand(ClearStarting(s, g, self), n) ensures IsHand(s, n) { }
  }

  lemma {:induction false} CollectAllQuiet(s: Store, g: nat, es: seq<Exit>, max: nat)
    requires Inv(s, 0, max) && forall e :: e in es ==> e.pid !in s.live
    ensures Quiet(s, CollectAll(s, g, es))
    decreases |es|
  {
    if es != [] {
      BackendSide.CollectOneKeeps(s, g, es[0], 0, 0, max, {}, {});
      BackendSide.FindPidFinds(s, s.Gr(g).bes, es[0].pid);
      var b := FindPid(s, s.Gr(g).bes, es[0].pid);
      if b != 0 {
        BackendSide.ListedBe(s, g, b);
        ExitedQuiet(s, b, es[0].onSig, es[0].val);
        ExitedEffect(s, b, es[0].onSig, es[0].val);
        BackendDisposeQuiet(Exited(s, b, es[0].onSig, es[0].val), g, b);
      }
      CollectAllQuiet(CollectOne(s, g, es[0]), g, es[1..], max);
    }
  }

  /** The slot that would be allocated next is not g. */
  predicate Spares(s: Store, g: nat) {
    (if s.free != [] then s.free[0] else s.alloced + 1) != g
  }

  lemma GroupSpared(s: Store, g: nat)
    requires Wf(s) && IsGr(s, g)
    ensures Spares(s, g)
  {
    if s.free != [] { assert s.free[0] in ListOf(s, FreeList) && Home(s, s.free[0]) == FreeList; }
  }

  lemma StartChildTakes(s: Store, g: nat, self: nat, max: nat, child: nat)
    requires Spares(s, g)
    ensures var t := StartChild(s, g, self, max, child).0;
      t.alloced <= s.alloced + 1 && forall n :: IsHand(t, n) ==> IsHand(s, n)
  {
    var s1 := BeStarting(s, g).0;
    var (s2, b) := CreateSlot(s1, g);
    CreateSlotHand(s1, g);
    forall n | IsHand(s2, n) ensures IsHand(s, n) { }
    if child == 0 {
      var s3 := s2.PutGr(g, s2.Gr(g).(starting := 0));
      BackendDisposeQuiet(s3, g, b);
    }
  }

  lemma CreateSlotHand(s: Store, g: nat)
    requires Spares(s, g)
    ensures var (t, b) := CreateSlot(s, g);
      t.alloced <= s.alloced + 1 && (forall n :: IsHand(t, n) ==> IsHand(s, n)) && b != g && t.Be(b).feRunning == b
  {
  }

  lemma {:induction false} DisposeDeadQuiet(s: Store, g: nat, l: seq<nat>, max: nat)
    requires Inv(s, 0, max) && NoDup(l) && forall b :: b in l ==> b in s.Gr(g).bes
    ensures Quiet(s, DisposeDead(s, g, l))
    decreases |l|
  {
    if l != [] {
      BackendSide.ListedBe(s, g, l[0]);
      var s1 := if s.Be(l[0]).pid in s.live then s else BackendDispose(s, g, l[0]);
      BackendDisposeQuiet(s, g, l[0]);
      BackendDisposeInv(s, g, l[0], 0, max);
      BackendSide.DisposedList(s, g, l[0]);
      forall b | b in l[1..] ensures b in s1.Gr(g).bes { assert b in l && b != l[0]; }
      DisposeDeadQuiet(s1, g, l[1..], max);
    }
  }

  lemma DoCleanupTakes(s: Store, g: nat, self: nat, max: nat)
    requires Inv(s, 0, max) && IsGr(s, g)
    ensures Quiet(s, DoCleanup(s, g, self))
  {
    hide Respects,Fair,Grown,SameBackends,SameQueues,SameRunning,Sorted,Bound,Indexed;
    BackendSide.GroupPrevFinds(s, g);
    var p := GroupPrev(s, g);
    if p != g {
      StartBeQuiet(s, p);
      ParentSigKeeps(s, p, 0, max, 0, 0, {}, {});
      var s1 := ParentSig(s, p).0;
      InvalidateQuiet(s1, p);
      InvalidateKeeps(s1, p, 0, max, 0, 0, {}, {});
      var s2 := Invalidate(s1, p);
      assert ListOf(s2, BeList(p)) == s2.Gr(p).bes;
      DisposeDeadQuiet(s2, p, s2.Gr(p).bes, max);
      CleanupQuiet(DisposeDead(s2, p, s2.Gr(p).bes), p, self);
    }
  }

  lemma ParentStartReady(s: Store, self: nat, key: Key, opt: GroupOpt, max: nat)
    requires Inv(s, 0, max) && 0 !in s.live && NoHand(s)
    ensures var (t, g) := ScriptFind(s, key, opt);
      NoHand(t) && t.alloced <= s.alloced + 3 && Spares(TakeOver(t, g, self).0, g)
  {
    ScriptFindTakes(s, key, opt);
    ScriptFindKeeps(s, key, opt, max);
    var (s1, g) := ScriptFind(s, key, opt);
    TakeOverSpares(s1, g, self, max);
  }

  lemma TakeOverSpares(s: Store, g: nat, self: nat, max: nat)
    requires Inv(s, 0, max) && IsGr(s, g) && 0 !in s.live
    ensures Spares(TakeOver(s, g, self).0, g)
  {
    BackendSide.TakeOverKeeps(s, g, self, max, 0, {}, {});
    GroupSpared(TakeOver(s, g, self).0, g);
  }

  lemma ParentStartTakes(s: Store, self: nat, key: Key, opt: GroupOpt, max: nat, child: nat)
    requires Inv(s, 0, max) && 0 !in s.live && NoHand(s)
    ensures var t := ParentStart(s, self, key, opt, max, child).0; NoHand(t) && t.alloced <= s.alloced + 4
  {
    ParentStartReady(s, self, key, opt, max);
    ParentStartSum(s, self, key, opt, max, child);
  }

  lemma ParentStartSum(s: Store, self: nat, key: Key, opt: GroupOpt, max: nat, child: nat)
    requires var (s1, g) := ScriptFind(s, key, opt);
      NoHand(s1) && s1.alloced <= s.alloced + 3 && Spares(TakeOver(s1, g, self).0, g)
    ensures var t := ParentStart(s, self, key, opt, max, child).0; NoHand(t) && t.alloced <= s.alloced + 4
  {
    var (s1, g) := ScriptFind(s, key, opt);
    TakenOver(s1, g, self, max, child);
    var t := ParentStart(s, self, key, opt, max, child).0;
    forall n ensures !IsHand(t, n) { assert IsHand(t, n) ==> IsHand(s1, n); }
  }

  lemma TakenOver(s: Store, g: nat, self: nat, max: nat, child: nat)
    requires Spares(TakeOver(s, g, self).0, g)
    ensures var (s2, ok) := TakeOver(s, g, self); var t := if ok then StartChild(s2, g, self, max, child).0 else s2;
      t.alloced <= s.alloced + 1 && forall n :: IsHand(t, n) ==> IsHand(s, n)
  {
    StartBeQuiet(s, g);
    var (s2, ok) := TakeOver(s, g, self);
    forall n | IsHand(s2, n) ensures IsHand(s, n) { assert IsHand(StartBe(s, g).0, n) || IsHand(s, n); }
    StartChildTakes(s2, g, self, max, child);
  }

  lemma ParentWakeTakes(s: Store, g: nat, self: nat, es: seq<Exit>, usr1: bool, alrm: bool, max: nat, child: nat)
    requires Inv(s, 0, max) && IsGr(s, g) && 0 !in s.live && self in s.live && child !in s.live
    requires forall e :: e in es ==> e.pid !in s.live
    ensures var t := ParentWake(s, g, self, es, usr1, alrm, max, child).0;
      t.alloced <= s.alloced + 1 && forall n :: IsHand(t, n) ==> IsHand(s, n)
  {
    CollectAllQuiet(s, g, es, max);
    BackendSide.CollectAllKeeps(s, g, es, 0, self, max, {}, {});
    var s1 := CollectAll(s, g, es);
    GroupSpared(s1, g);
    StartChildTakes(s1, g, self, max, child);
    BackendSide.StartChildKeeps(s1, g, self, max, child, 0, {}, {});
    var s2 := if s1.Valid(g) && usr1 then StartChild(s1, g, self, max, child).0 else s1;
    DoCleanupTakes(s2, g, self, max);
    CleanupQuiet(DoCleanup(s2, g, self), g, self);
  }
}
