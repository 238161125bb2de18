/** Which exit status a frontend finds: the one that its backend, or waitpid, has reported. */
module ExitStatus {
  import opened Lists
  import opened Store
  import opened Conservation
  import opened Sections
  import opened Invariants
  import opened Respect
  import opened Keeping
  import opened Granting
  import opened Groups
  import opened InTheHand
  import opened Scripts
  import opened Sweeping
  import opened FrontendSide
  import opened BackendSide
  import opened Footprint
  import opened Protocol
  import opened Safety
  import opened Runs
  import opened Recency

  /** What may be recorded of a process: what is said of it, or, if it does not live, that SIGKILL
      ended it. */
  predicate Credible(e: Exit, live: set<nat>, said: set<Exit>) {
    e in said || (e.pid !in live && e.onSig && e.val == SIGKILL)
  }

  /** Running frontend f has the same backend process and the same exit status as before, or it has lost
      the backend and something credible is recorded of that process. */
  predicate Told(s: Store, t: Store, f: nat, live: set<nat>, said: set<Exit>) {
    var v, w := s.Fe(f), t.Fe(f);
    && IsRun(t, f) && w.pid == v.pid
    && if w.backend == v.backend
       then w.onSig == v.onSig && w.val == v.val && t.Be(v.backend).pid == s.Be(v.backend).pid
       else w.backend == 0 && Credible(Exit(s.Be(v.backend).pid, w.onSig, w.val), live, said)
  }

  /** So it is with every running frontend that lives, apart from x. */
  ghost predicate AllTold(s: Store, t: Store, x: nat, live: set<nat>, said: set<Exit>) {
    forall f :: f != x && IsRun(s, f) && s.m[f].fe.pid in live ==> Told(s, t, f, live, said)
  }

  lemma ToldTrans(s: Store, t: Store, u: Store, x: nat, live: set<nat>, said: set<Exit>)
    requires AllTold(s, t, x, live, said) && AllTold(t, u, x, live, said)
    ensures AllTold(s, u, x, live, said)
  {
    forall f | f != x && IsRun(s, f) && s.m[f].fe.pid in live ensures Told(s, u, f, live, said) {
      assert Told(s, t, f, live, said) && Told(t, u, f, live, said);
    }
  }

  lemma ToldStill(s: Store, t: Store, x: nat, live: set<nat>, said: set<Exit>)
    requires SameRunning(s, t) && SameBackends(s, t)
    ensures AllTold(s, t, x, live, said)
  {
    forall f | IsRun(s, f) ensures Told(s, t, f, live, said) {
      assert t.m[f].fe == s.m[f].fe;
      SamePid(s, t, s.m[f].fe.backend);
    }
  }

  lemma SamePid(s: Store, t: Store, b: nat)
    requires SameBackends(s, t)
    ensures t.Be(b).pid == s.Be(b).pid
  {
    if IsBe(s, b) { assert t.m[b].be == s.m[b].be; }
  }

  /** The backends that serve somebody keep their process. */
  lemma ToldPids(s: Store, t: Store, x: nat, live: set<nat>, said: set<Exit>)
    requires Bound(s) && SameRunning(s, t) && 0 !in s.m && 0 !in t.m
    requires forall b :: IsBe(s, b) && s.m[b].be.feRunning != b ==> t.Be(b).pid == s.Be(b).pid
    ensures AllTold(s, t, x, live, said)
  {
    forall f | f != x && IsRun(s, f) && s.m[f].fe.pid in live ensures Told(s, t, f, live, said) {
      var b := s.m[f].fe.backend;
      assert t.m[f].fe == s.m[f].fe;
      if b != 0 { assert IsBe(s, b) && s.m[b].be.feRunning == f; }
    }
  }

  // ---- operations ----

  lemma ExitedTold(s: Store, b: nat, onSig: bool, val: int, x: nat, live: set<nat>, said: set<Exit>)
    requires Wf(s) && Bound(s) && IsBe(s, b) && live <= s.live
    requires s.m[b].be.feRunning !in {0, b} ==> Credible(Exit(s.m[b].be.pid, onSig, val), live, said)
    ensures AllTold(s, Exited(s, b, onSig, val), x, live, said)
  {
    ExitedShape(s, b, onSig, val);
    NoZero(s);
    var t := Exited(s, b, onSig, val);
    forall f | f != x && IsRun(s, f) && s.m[f].fe.pid in live ensures Told(s, t, f, live, said) {
      var c := s.m[f].fe.backend;
      if c != 0 { assert IsBe(s, c) && s.m[c].be.feRunning == f; }
    }
  }

  lemma DisposeTold(s: Store, g: nat, b: nat, x: nat, live: set<nat>, said: set<Exit>)
    requires Wf(s) && Bound(s) && IsBe(s, b) && s.m[b].be.grp == g && live <= s.live
    requires s.m[b].be.feRunning !in {0, b} ==> Credible(Exit(s.m[b].be.pid, true, SIGKILL), live, said)
    ensures AllTold(s, BackendDispose(s, g, b), x, live, said)
  {
    hide AllTold;
    var s1 := Exited(s, b, true, SIGKILL);
    ExitedTold(s, b, true, SIGKILL, x, live, said);
    ExitedWf(s, b, true, SIGKILL);
    ExitedBound(s, b, true, SIGKILL);
    ExitedEffect(s, b, true, SIGKILL);
    OnOneList(s1, g, b);
    UnlinkTold(s1, g, b, x, live, said);
    ToldTrans(s, s1, BackendDispose(s, g, b), x, live, said);
  }

  lemma UnlinkTold(s: Store, g: nat, b: nat, x: nat, live: set<nat>, said: set<Exit>)
    requires Wf(s) && Bound(s) && IsGr(s, g) && IsBe(s, b) && s.m[b].be.feRunning in {0, b}
    ensures AllTold(s, SlotFree(s.PutGr(g, s.Gr(g).(bes := Without(s.Gr(g).bes, b))), b), x, live, said)
  {
    hide Bound, Wf;
    var t := SlotFree(s.PutGr(g, s.Gr(g).(bes := Without(s.Gr(g).bes, b))), b);
    UnlinkFrames(s, g, b);
    UnlinkShape(s, g, b);
    NotServed(s, b);
    forall f | f != x && IsRun(s, f) && s.m[f].fe.pid in live ensures Told(s, t, f, live, said) {
      assert t.m[f].fe == s.m[f].fe;
    }
  }

  lemma NotServed(s: Store, b: nat)
    requires Wf(s) && Bound(s) && IsBe(s, b) && s.m[b].be.feRunning in {0, b}
    ensures forall f :: IsRun(s, f) ==> s.m[f].fe.backend != b && f != b
  {
    NoZero(s);
  }

  /** A running frontend goes that is dead, or is the one not spoken of. */
  lemma RemoveTold(s: Store, f: nat, x: nat, live: set<nat>, said: set<Exit>)
    requires Wf(s) && Bound(s) && IsRun(s, f) && (s.m[f].fe.pid !in live || f == x)
    ensures AllTold(s, RemoveRunning(s, f), x, live, said)
  {
    NoZero(s);
    var t := RemoveRunning(s, f);
    forall k | k != x && IsRun(s, k) && s.m[k].fe.pid in live ensures Told(s, t, k, live, said) {
      var c := s.m[k].fe.backend;
      if c != 0 { assert IsBe(s, c); }
    }
  }

  // ---- operations that leave the running frontends alone ----

  lemma RunningTrans(s: Store, t: Store, u: Store)
    requires SameRunning(s, t) && SameRunning(t, u)
    ensures SameRunning(s, u)
  {
  }

  lemma {:induction false} DropDeadRunning(s: Store, g: nat, max: nat)
    requires Inv(s, 0, max)
    ensures SameRunning(s, DropDead(s, g))
    decreases |s.Gr(g).fes|
  {
    hide Inv, SameBackends, SameIndex;
    SameRefl(s);
    var l := s.Gr(g).fes;
    if l != [] && s.Fe(l[0]).pid !in s.live {
      Queueing(s, g, l[0], max);
      FrontendDisposeFrames(s, g, l[0]);
      FrontendDisposeInv(s, g, l[0], 0, max);
      DropDeadRunning(FrontendDispose(s, g, l[0]), g, max);
      RunningTrans(s, FrontendDispose(s, g, l[0]), DropDead(s, g));
    }
  }

  lemma Queueing(s: Store, g: nat, f: nat, max: nat)
    requires Inv(s, 0, max) && f in s.Gr(g).fes
    ensures IsQueued(s, f) && IsGr(s, g) && s.m[f].fe.loc == Queue(g)
  {
    QueuedFe(s, g, f);
  }

  lemma SendSigsRunning(s: Store, g: nat, max: nat)
    requires Inv(s, 0, max)
    ensures SameRunning(s, SendSigs(s, g))
  {
    hide Inv, SameRunning;
    SameRefl(s);
    DropDeadRunning(s, g, max);
    DropDeadKeeps(s, g, 0, max, 0, 0, {}, {});
    var s1 := DropDead(s, g);
    if s1.Gr(g).fes != [] {
      var f := s1.Gr(g).fes[0];
      Queueing(s1, g, f, max);
      SentFlagFrames(s1, f, true, 0, 0, {}, {});
      RunningTrans(s, s1, s1.PutFe(f, s1.Fe(f).(sent := true)));
    }
  }

  lemma {:induction false} SweepRunning(s: Store, g: nat, f: nat, self: nat, max: nat)
    requires Inv(s, 0, max) && f in s.Gr(g).fes && self != 0
    ensures SameRunning(s, Sweep(s, g, f, self))
    decreases |Frontends(s)|
  {
    hide FePrev, Wf, Bound, Sorted, SentAtHead, WithinMax, SameBackends, SameRunning;
    SameRefl(s);
    QueuedFe(s, g, f);
    if s.Fe(f).pid !in s.live {
      FePrevFinds(s, g, f);
      var (h, e) := FePrev(s, g, f);
      SweepOneFewer(s, g, f, self);
      SweepOneKeeps(s, g, f, self, max, 0, {}, {});
      SweepOneRunning(s, g, f, self, max);
      if e != f {
        SweepOneNext(s, g, f, self, h, e);
        SweepRunning(SweepOne(s, g, f, self), h, e, self, max);
        RunningTrans(s, SweepOne(s, g, f, self), Sweep(s, g, f, self));
      }
    }
  }

  lemma SweepOneRunning(s: Store, g: nat, f: nat, self: nat, max: nat)
    requires Inv(s, 0, max) && f in s.Gr(g).fes
    ensures SameRunning(s, SweepOne(s, g, f, self))
  {
    hide Inv, SameRunning, SameBackends, Respects;
    Queueing(s, g, f, max);
    FrontendDisposeInv(s, g, f, 0, max);
    FrontendDisposeFrames(s, g, f);
    CleanupKeeps(FrontendDispose(s, g, f), g, 0, max, g, self, {}, {});
    RunningTrans(s, FrontendDispose(s, g, f), SweepOne(s, g, f, self));
  }

  lemma CheckPrevRunning(s: Store, g: nat, f: nat, self: nat, max: nat)
    requires Inv(s, 0, max) && f in s.Gr(g).fes && self != 0
    ensures SameRunning(s, CheckPrev(s, g, f, self))
  {
    FePrevFinds(s, g, f);
    var (h, e) := FePrev(s, g, f);
    SweepRunning(s, h, e, self, max);
  }

  lemma PingRunning(s: Store, g: nat, f: nat, self: nat, did: bool, max: nat, child: nat)
    requires Inv(s, 0, max) && IsQueued(s, f) && s.m[f].fe.loc == Queue(g) && s.m[f].fe.pid == self
    requires self in s.live && 0 !in s.live
    ensures SameRunning(s, Ping(s, g, f, self, did, max, child).0)
  {
    hide Inv, SameRunning, SameBackends, CheckPrev, BackendCheck;
    PingLive(s, g, f, self, did, max, child);
    Joined(s, g, f, max);
    CheckPrevRunning(s, g, f, self, max);
    CheckPrevKeeps(s, g, f, self, max, 0, {self}, {});
    var s1 := CheckPrev(s, g, f, self);
    assert IsFe(s, f);
    Joined(s1, g, f, max);
    if s1.Gr(g).fes[0] == f {
      BackendCheckKeeps(s1, g, did, max, child, 0, self, {}, {});
      RunningTrans(s, s1, BackendCheck(s1, g, did, max, child).0);
    }
  }

  lemma Joined(s: Store, g: nat, f: nat, max: nat)
    requires Inv(s, 0, max) && IsQueued(s, f) && s.m[f].fe.loc == Queue(g)
    ensures IsGr(s, g) && f in s.Gr(g).fes && f != 0
  {
    QueuedInGroup(s, g, f);
    NoZero(s);
  }

  // ---- the frontend's sections ----

  lemma GetTold(s: Store, g: nat, max: nat, x: nat, live: set<nat>, said: set<Exit>)
    requires Inv(s, 0, max) && IsGr(s, g) && 0 !in s.live
    ensures AllTold(s, BeWaitGet(s, g).0, x, live, said)
  {
    hide Bound, Sorted, SentAtHead, WithinMax, Indexed;
    var t := BeWaitGet(s, g).0;
    assert forall k :: k != g ==> t.At(k) == s.At(k);
    forall f | IsRun(s, f) && s.m[f].fe.pid in live ensures Told(s, t, f, live, said) {
      assert t.At(f) == s.At(f);
      var b := s.m[f].fe.backend;
      assert t.Be(b) == s.Be(b);
    }
  }

  lemma TryGetTold(s: Store, g: nat, f: nat, self: nat, max: nat, x: nat, live: set<nat>, said: set<Exit>)
    requires Inv(s, 0, max) && IsQueued(s, f) && s.m[f].fe.loc == Queue(g) && s.m[f].fe.pid == self
    requires self in s.live && 0 !in s.live
    ensures AllTold(s, TryGet(s, g, f).0, x, live, said)
  {
    hide Inv, AllTold, SendSigs, ClearSent, SameBackends, SameRunning, BeWaitGet;
    SignalKeeps(s, g, f, self, max, {self}, {});
    SignalSame(s, g, f, self, max);
    var s1 := ClearSent(SendSigs(s, g), f);
    ToldStill(s, s1, x, live, said);
    GetTold(s1, g, max, x, live, said);
    ToldTrans(s, s1, BeWaitGet(s1, g).0, x, live, said);
  }

  lemma SignalSame(s: Store, g: nat, f: nat, self: nat, max: nat)
    requires Inv(s, 0, max) && IsQueued(s, f) && s.m[f].fe.loc == Queue(g) && s.m[f].fe.pid == self && self in s.live
    ensures var t := ClearSent(SendSigs(s, g), f); SameRunning(s, t) && SameBackends(s, t)
  {
    hide Inv, SendSigs, SameBackends, SameRunning;
    SendSigsKeeps(s, g, 0, max, 0, self, {self}, {});
    SendSigsRunning(s, g, max);
    Joined(s, g, f, max);
    var s1 := SendSigs(s, g);
    assert IsFe(s, f);
    SentFlagFrames(s1, f, false, 0, self, {}, {});
    RunningTrans(s, s1, ClearSent(s1, f));
    BackendsTrans(s, s1, ClearSent(s1, f));
  }

  lemma BackendsTrans(s: Store, t: Store, u: Store)
    requires SameBackends(s, t) && SameBackends(t, u)
    ensures SameBackends(s, u)
  {
  }

  lemma LinkTold(s: Store, g: nat, f: nat, b: nat, c: Connect, self: nat, max: nat, x: nat, live: set<nat>,
      said: set<Exit>)
    requires Inv(s, b, max) && Held(s, f, self) && Grabbed(s, g, b) && c != Failed
    ensures AllTold(s, Finish(s, g, f, b, c), x, live, said)
  {
    hide Wf, Sorted, SentAtHead, WithinMax, Indexed;
    var t := Finish(s, g, f, b, c);
    NotServed(s, b) by { assert Wf(s); }
    forall k | IsRun(s, k) && s.m[k].fe.pid in live ensures Told(s, t, k, live, said) {
      assert k != f && k != g && t.At(k) == s.At(k);
    }
  }

  lemma FinishTold(s: Store, g: nat, f: nat, b: nat, c: Connect, self: nat, max: nat, x: nat, live: set<nat>,
      said: set<Exit>)
    requires Inv(s, b, max) && Held(s, f, self) && (b != 0 ==> Grabbed(s, g, b))
    ensures AllTold(s, Finish(s, g, f, b, c), x, live, said)
  {
    hide Inv, AllTold, SameBackends, SameRunning, SameQueues;
    var s1 := s.PutFe(f, s.Fe(f).(backend := b));
    HeldKeeps(s, f, b, self, b, max, {}, {});
    ToldStill(s, s1, x, live, said);
    if b == 0 {
      JettisonFrames(s1, f, self, {}, {});
      ToldStill(s1, SlotFree(s1, f), x, live, said);
      ToldTrans(s, s1, SlotFree(s1, f), x, live, said);
    } else if c == Failed {
      FailedTold(s1, g, f, b, self, max, x, live, said);
      ToldTrans(s, s1, Finish(s, g, f, b, c), x, live, said);
    } else {
      LinkTold(s, g, f, b, c, self, max, x, live, said);
    }
  }

  lemma FailedTold(s: Store, g: nat, f: nat, b: nat, self: nat, max: nat, x: nat, live: set<nat>, said: set<Exit>)
    requires Inv(s, b, max) && Held(s, f, self) && Grabbed(s, g, b)
    ensures AllTold(s, SlotFree(BackendDispose(s, g, b), f), x, live, said)
  {
    hide AllTold, SameBackends, SameRunning;
    var t := BackendDispose(s, g, b);
    UnlinkTold(s, g, b, x, live, said);
    assert t == SlotFree(s.PutGr(g, s.Gr(g).(bes := Without(s.Gr(g).bes, b))), b);
    assert t.At(f) == s.At(f);
    JettisonFrames(t, f, self, {}, {});
    ToldStill(t, SlotFree(t, f), x, live, said);
    ToldTrans(s, t, SlotFree(t, f), x, live, said);
  }

  lemma SettleTold(s: Store, g: nat, f: nat, self: nat, b: nat, c: Connect, max: nat, x: nat, live: set<nat>,
      said: set<Exit>)
    requires Inv(s, b, max) && IsGr(s, g) && Held(s, f, self) && (b != 0 ==> Grabbed(s, g, b))
    ensures AllTold(s, Settle(s, g, f, self, b, c), x, live, said)
  {
    hide AllTold, Respects, SameBackends, SameRunning, SameQueues;
    CleanupKeeps(s, g, b, max, g, self, {}, {});
    CleanupHeld(s, g, f, self);
    var s1 := Cleanup(s, g, self);
    assert b != 0 ==> s1 == s;
    ToldStill(s, s1, x, live, said);
    FinishTold(s1, g, f, b, c, self, max, x, live, said);
    ToldTrans(s, s1, Settle(s, g, f, self, b, c), x, live, said);
  }

  lemma LeaveTold(s: Store, g: nat, f: nat, self: nat, b: nat, c: Connect, max: nat, x: nat, live: set<nat>,
      said: set<Exit>)
    requires Inv(s, b, max) && IsQueued(s, f) && s.m[f].fe.loc == Queue(g) && s.m[f].fe.pid == self
    requires b != 0 ==> Grabbed(s, g, b)
    ensures AllTold(s, Settle(Leave(s, g, f), g, f, self, b, c), x, live, said)
  {
    hide AllTold, Respects, Inv, SameBackends, SameRunning;
    LeaveKeeps(s, g, f, self, b, max, {}, {});
    if b != 0 { LeaveGrabbed(s, g, f, b); }
    var s1 := Leave(s, g, f);
    ToldStill(s, s1, x, live, said);
    SettleTold(s1, g, f, self, b, c, max, x, live, said);
    ToldTrans(s, s1, Settle(s1, g, f, self, b, c), x, live, said);
  }

  lemma TurnTold(s: Store, g: nat, f: nat, self: nat, did: bool, max: nat, child: nat, c: Connect, x: nat,
      live: set<nat>, said: set<Exit>)
    requires Inv(s, 0, max) && IsQueued(s, f) && s.m[f].fe.loc == Queue(g) && s.m[f].fe.pid == self
    requires self in s.live && 0 !in s.live && child !in s.live
    ensures AllTold(s, QueueTurn(s, g, f, self, did, max, child, c).0, x, live, said)
  {
    hide AllTold, Respects, Inv, SameBackends, SameRunning, TryGet, Ping, Settle, Leave;
    TryGetTold(s, g, f, self, max, x, live, said);
    TryGetKeeps(s, g, f, self, max, {self}, {});
    var (s1, b) := TryGet(s, g, f);
    var t := QueueTurn(s, g, f, self, did, max, child, c).0;
    if b != 0 {
      LeaveTold(s1, g, f, self, b, c, max, x, live, said);
      ToldTrans(s, s1, t, x, live, said);
    } else {
      PingLive(s1, g, f, self, did, max, child);
      PingKeeps(s1, g, f, self, did, max, child, {self}, {});
      PingRunning(s1, g, f, self, did, max, child);
      var s2 := Ping(s1, g, f, self, did, max, child).0;
      ToldStill(s1, s2, x, live, said);
      ToldTrans(s, s1, s2, x, live, said);
      LeaveTold(s2, g, f, self, 0, c, max, x, live, said);
      ToldTrans(s, s2, Settle(Leave(s2, g, f), g, f, self, 0, c), x, live, said);
    }
  }

  lemma {:induction false} CleanRunningTold(s: Store, max: nat, x: nat, live: set<nat>, said: set<Exit>)
    requires Inv(s, 0, max) && live <= s.live
    ensures AllTold(s, CleanRunning(s), x, live, said)
    decreases |s.running|
  {
    hide AllTold, Inv, Respects;
    SameRefl(s);
    ToldStill(s, s, x, live, said);
    if s.running != [] {
      var f := s.running[|s.running| - 1];
      if s.Fe(f).pid !in s.live {
        LastRuns(s, f, max);
        LoneTold(s, f, max, x, live, said);
        CleanOneKeeps(s, max, 0, 0, {}, {});
        CleanRunningTold(RemoveRunning(s, f), max, x, live, said);
        ToldTrans(s, RemoveRunning(s, f), CleanRunning(s), x, live, said);
      }
    }
  }

  lemma LoneTold(s: Store, f: nat, max: nat, x: nat, live: set<nat>, said: set<Exit>)
    requires Inv(s, 0, max) && IsRun(s, f) && (s.m[f].fe.pid !in live || f == x)
    ensures AllTold(s, RemoveRunning(s, f), x, live, said)
  {
    RemoveTold(s, f, x, live, said);
  }

  lemma ArriveTold(s: Store, self: nat, cleaned: bool, key: Key, opt: GroupOpt, max: nat, x: nat, live: set<nat>,
      said: set<Exit>)
    requires Inv(s, 0, max) && live <= s.live
    ensures AllTold(s, Arrive(s, self, cleaned, key, opt).0, x, live, said)
  {
    hide AllTold, Inv, Respects, SameBackends, SameRunning, SameQueues, CleanRunning, AllocFrontend, ScriptFind;
    CleanRunningTold(s, max, x, live, said);
    SameRefl(s);
    ToldStill(s, s, x, live, said);
    CleanedKeeps(s, cleaned, max, 0, self, {}, {});
    var s0 := if cleaned then s else CleanRunning(s);
    AllocFrontendKeeps(s0, self, max, 0, {}, {});
    var s1 := AllocFrontend(s0, self).0;
    AllocRunning(s0, self, max);
    ScriptFindKeeps(s1, key, opt, max);
    var s2 := ScriptFind(s1, key, opt).0;
    ToldStill(s0, s1, x, live, said);
    ToldStill(s1, s2, x, live, said);
    ToldTrans(s, s0, s1, x, live, said);
    ToldTrans(s, s1, s2, x, live, said);
  }

  lemma AllocRunning(s: Store, self: nat, max: nat)
    requires Inv(s, 0, max)
    ensures var t := AllocFrontend(s, self).0; SameRunning(s, t) && SameBackends(s, t)
  {
    var v := NO_FRONTEND.(pid := self);
    AllocFrom(s, Fro(v));
    var (t, n) := AllocFrontend(s, self);
    FreshFrames(s, v, t, n);
  }

  lemma ConnectTold(s: Store, self: nat, cleaned: bool, key: Key, opt: GroupOpt, max: nat, child: nat, c: Connect,
      x: nat, live: set<nat>, said: set<Exit>)
    requires Inv(s, 0, max) && 0 !in s.live && self in s.live && child !in s.live && live <= s.live
    ensures AllTold(s, ConnectSection(s, self, cleaned, key, opt, max, child, c).0, x, live, said)
  {
    hide AllTold, Fair, Respects, Inv, Arrive, BeWaitGet, Settle, QueueTurn, Join, ConnectSection, SameBackends,
        SameRunning, SameQueues;
    RequestShape(s, self, cleaned, key, opt, max, child, c);
    ArriveKeeps(s, self, cleaned, key, opt, max, {}, {});
    ArriveTold(s, self, cleaned, key, opt, max, x, live, said);
    var (s2, g, f) := Arrive(s, self, cleaned, key, opt);
    QuickGetKeeps(s2, g, f, self, max, {}, {});
    QuickTold(s2, g, max, x, live, said);
    var (s3, b) := QuickGet(s2, g);
    var t := ConnectSection(s, self, cleaned, key, opt, max, child, c).0;
    ToldTrans(s, s2, s3, x, live, said);
    if b != 0 {
      SettleTold(s3, g, f, self, b, c, max, x, live, said);
      ToldTrans(s, s3, t, x, live, said);
    } else {
      JoinInv(s3, g, f, self, max);
      JoinLive(s3, g, f);
      JoinFrames(s3, g, f, self);
      var s4 := Join(s3, g, f);
      ToldStill(s3, s4, x, live, said);
      TurnTold(s4, g, f, self, false, max, child, c, x, live, said);
      ToldTrans(s, s3, s4, x, live, said);
      ToldTrans(s, s4, t, x, live, said);
    }
  }

  lemma QuickTold(s: Store, g: nat, max: nat, x: nat, live: set<nat>, said: set<Exit>)
    requires Inv(s, 0, max) && IsGr(s, g) && 0 !in s.live
    ensures AllTold(s, QuickGet(s, g).0, x, live, said)
  {
    hide AllTold, Inv, BeWaitGet;
    SameRefl(s);
    ToldStill(s, s, x, live, said);
    GetTold(s, g, max, x, live, said);
  }

  lemma WakeTold(s: Store, g: nat, f: nat, self: nat, did: bool, changed: bool, max: nat, child: nat, c: Connect,
      x: nat, live: set<nat>, said: set<Exit>)
    requires Inv(s, 0, max) && IsQueued(s, f) && s.m[f].fe.loc == Queue(g) && s.m[f].fe.pid == self
    requires self in s.live && 0 !in s.live && child !in s.live
    ensures AllTold(s, WakeSection(s, g, f, self, did, changed, max, child, c).0, x, live, said)
  {
    hide AllTold, Inv, Settle, QueueTurn;
    LeaveTold(s, g, f, self, 0, c, max, x, live, said);
    TurnTold(s, g, f, self, did, max, child, c, x, live, said);
  }

  /** The frontend that asks finds what is recorded, or, if its backend has died without a word, SIGKILL;
      until then nothing changes. */
  lemma CollectFinds(s: Store, f: nat, max: nat, live: set<nat>, said: set<Exit>)
    requires Inv(s, 0, max) && IsRun(s, f) && s.m[f].fe.pid in s.live && live <= s.live
    ensures var (t, done, onSig, val) := CollectStatus(s, f); var v := s.m[f].fe;
      && AllTold(s, t, if done then f else 0, live, said)
      && (done <==> v.backend == 0 || s.Be(v.backend).pid !in s.live)
      && (done ==> if v.backend == 0 then onSig == v.onSig && val == v.val else onSig && val == SIGKILL)
  {
    hide AllTold, Wf, Sorted, SentAtHead, WithinMax, Indexed;
    var b := s.Fe(f).backend;
    var t := CollectStatus(s, f).0;
    SameRefl(s);
    ToldStill(s, s, 0, live, said);
    ToldStill(s, s, f, live, said);
    if b != 0 && s.Be(b).pid !in s.live {
      ExitedInv(s, b, true, SIGKILL, 0, max);
      ExitedShape(s, b, true, SIGKILL) by { assert Wf(s); }
      NoZero(s);
      assert s.m[b].be.feRunning == f && f != 0;
      var s1 := Exited(s, b, true, SIGKILL);
      assert IsRun(s1, f) && s1.m[f].fe == s.m[f].fe.(backend := 0, onSig := true, val := SIGKILL);
      assert CollectStatus(s, f) == (RemoveRunning(s1, f), true, true, SIGKILL);
      ExitedTold(s, b, true, SIGKILL, f, live, said);
      LoneTold(s1, f, max, f, live, said);
      ToldTrans(s, s1, t, f, live, said);
    } else if b == 0 {
      LoneTold(s, f, max, f, live, said);
    }
  }

  // ---- the backend's sections ----

  lemma MaturityRunning(s: Store, b: nat, m: nat)
    requires IsBe(s, b)
    ensures var t := s.PutBe(b, s.Be(b).(maturity := m)); SameRunning(s, t) && forall c :: t.Be(c).pid == s.Be(c).pid
  {
  }

  lemma PutRunning(s: Store, g: nat, b: nat)
    requires IsBe(s, b) && IsGr(s, g)
    ensures var t := BeWaitPut(s, g, b); SameRunning(s, t) && forall c :: t.Be(c).pid == s.Be(c).pid
  {
    var s1 := s.PutBe(b, s.Be(b).(feRunning := 0));
    var l := InsertBefore(Without(s1.Gr(g).bes, b), b, (c: nat) => GoesBefore(s1, s1.Be(b).maturity, c));
    assert BeWaitPut(s, g, b) == s1.PutGr(g, s1.Gr(g).(bes := l));
  }

  lemma SignalledTold(s: Store, g: nat, self: nat, max: nat, x: nat, live: set<nat>, said: set<Exit>)
    requires Inv(s, 0, max) && IsGr(s, g)
    ensures AllTold(s, SendSigs(ClearStarting(s, g, self), g), x, live, said)
  {
    hide Inv, Respects, AllTold, SameBackends, SameRunning, SendSigs;
    ClearStartingKeeps(s, g, self, max, 0, {}, {});
    ClearStartingRunning(s, g, self);
    var s1 := ClearStarting(s, g, self);
    SendSigsKeeps(s1, g, 0, max, 0, self, {}, {});
    SendSigsRunning(s1, g, max);
    ToldStill(s, s1, x, live, said);
    ToldStill(s1, SendSigs(s1, g), x, live, said);
    ToldTrans(s, s1, SendSigs(s1, g), x, live, said);
  }

  lemma ClearStartingRunning(s: Store, g: nat, self: nat)
    requires IsGr(s, g)
    ensures SameRunning(s, ClearStarting(s, g, self))
  {
  }

  lemma GoIdleTold(s: Store, g: nat, b: nat, self: nat, m: nat, max: nat, x: nat, live: set<nat>, said: set<Exit>)
    requires Inv(s, 0, max) && IsBe(s, b) && s.m[b].be.grp == g && s.m[b].be.feRunning == b
    ensures AllTold(s, GoIdle(s, g, b, self, m), x, live, said)
  {
    hide Inv, Respects, AllTold, SameRunning, BeWaitPut, ClearStarting, SendSigs;
    Grouped(s, g, b, max);
    MaturityKeeps(s, b, m, self, max, {}, {});
    MaturityRunning(s, b, m);
    var s1 := s.PutBe(b, s.Be(b).(maturity := m));
    BeWaitPutKeeps(s1, g, b, max, self, {}, {});
    Grouped(s1, g, b, max);
    PutRunning(s1, g, b);
    var s2 := BeWaitPut(s1, g, b);
    Grouped(s2, g, b, max);
    SameToldPids(s, s1, max, x, live, said);
    SameToldPids(s1, s2, max, x, live, said);
    SignalledTold(s2, g, self, max, x, live, said);
    ToldTrans(s, s1, s2, x, live, said);
    ToldTrans(s, s2, GoIdle(s, g, b, self, m), x, live, said);
  }

  lemma SameToldPids(s: Store, t: Store, max: nat, x: nat, live: set<nat>, said: set<Exit>)
    requires Inv(s, 0, max) && Inv(t, 0, max) && SameRunning(s, t)
    requires forall c :: t.Be(c).pid == s.Be(c).pid
    ensures AllTold(s, t, x, live, said)
  {
    NoZero(s);
    NoZero(t);
    ToldPids(s, t, x, live, said);
  }

  lemma LoopTold(s: Store, g: nat, b: nat, p: nat, orphan: bool, m: nat, max: nat, x: nat, live: set<nat>,
      said: set<Exit>)
    requires Inv(s, 0, max) && Holds(s, p, BFresh(g, b))
    ensures AllTold(s, Loop(s, g, b, p, orphan, m).0, x, live, said)
  {
    hide AllTold, Inv, GoIdle;
    SameRefl(s);
    ToldStill(s, s, x, live, said);
    GoIdleTold(s, g, b, p, m, max, x, live, said);
  }

  lemma RunOverTold(s: Store, g: nat, b: nat, p: nat, val: int, again: bool, orphan: bool, max: nat, live: set<nat>)
    requires Inv(s, 0, max) && Holds(s, p, BBusy(g, b)) && live <= s.live
    ensures AllTold(s, RunOver(s, g, b, p, val, again, orphan).0, 0, live, {Exit(p, false, val)})
  {
    hide AllTold, Inv, Respects, Quiet, Exited, Loop, StartBe, SameBackends, SameRunning;
    ServedKeeps(s, b, val, p, max, {}, {});
    ServedTold(s, b, val, p, max, live);
    var s1 := Exited(s, b, false, val);
    if again {
      LoopTold(s1, g, b, p, orphan, 2, max, 0, live, {Exit(p, false, val)});
      ToldTrans(s, s1, Loop(s1, g, b, p, orphan, 2).0, 0, live, {Exit(p, false, val)});
    } else if s1.Valid(g) {
      Grouped(s1, g, b, max);
      StartBeKeeps(s1, g, 0, max, 0, 0, {}, {});
      ToldStill(s1, StartBe(s1, g).0, 0, live, {Exit(p, false, val)});
      ToldTrans(s, s1, StartBe(s1, g).0, 0, live, {Exit(p, false, val)});
    }
  }

  lemma ServedTold(s: Store, b: nat, val: int, p: nat, max: nat, live: set<nat>)
    requires Inv(s, 0, max) && IsBe(s, b) && s.m[b].be.pid == p && live <= s.live
    ensures AllTold(s, Exited(s, b, false, val), 0, live, {Exit(p, false, val)})
  {
    ExitedTold(s, b, false, val, 0, live, {Exit(p, false, val)});
  }

  lemma AcceptTold(s: Store, g: nat, b: nat, self: nat, max: nat, x: nat, live: set<nat>, said: set<Exit>)
    requires Inv(s, 0, max) && IsBe(s, b) && s.m[b].be.grp == g
    ensures AllTold(s, s, x, live, said) && AllTold(s, Accepted(s, g, self), x, live, said)
  {
    hide AllTold, Inv;
    SameRefl(s);
    ToldStill(s, s, x, live, said);
    Grouped(s, g, b, max);
    SignalledTold(s, g, self, max, x, live, said);
  }

  // ---- the sections of the parent process ----

  lemma CollectOneTold(s: Store, g: nat, e: Exit, max: nat, x: nat, live: set<nat>, said: set<Exit>)
    requires Inv(s, 0, max) && live <= s.live && e in said
    ensures AllTold(s, CollectOne(s, g, e), x, live, said)
  {
    hide AllTold, Wf, Sorted, SentAtHead, WithinMax, Indexed;
    SameRefl(s);
    ToldStill(s, s, x, live, said);
    var b := FindPid(s, s.Gr(g).bes, e.pid);
    FindPidFinds(s, s.Gr(g).bes, e.pid);
    if b != 0 {
      ListedBe(s, g, b);
      var s1 := Exited(s, b, e.onSig, e.val);
      ExitedInv(s, b, e.onSig, e.val, 0, max);
      ExitedEffect(s, b, e.onSig, e.val);
      ExitedTold(s, b, e.onSig, e.val, x, live, said) by { assert Exit(e.pid, e.onSig, e.val) == e; }
      DisposeTold(s1, g, b, x, live, said);
      ToldTrans(s, s1, CollectOne(s, g, e), x, live, said);
    }
  }

  lemma {:induction false} CollectAllTold(s: Store, g: nat, es: seq<Exit>, max: nat, x: nat, live: set<nat>,
      said: set<Exit>)
    requires Inv(s, 0, max) && live <= s.live && forall e :: e in es ==> e.pid !in s.live && e in said
    ensures AllTold(s, CollectAll(s, g, es), x, live, said)
    decreases |es|
  {
    hide AllTold, Inv, CollectOne;
    SameRefl(s);
    ToldStill(s, s, x, live, said);
    if es != [] {
      CollectOneKeeps(s, g, es[0], 0, 0, max, {}, {});
      CollectOneTold(s, g, es[0], max, x, live, said);
      var s1 := CollectOne(s, g, es[0]);
      CollectAllTold(s1, g, es[1..], max, x, live, said);
      ToldTrans(s, s1, CollectAll(s, g, es), x, live, said);
    }
  }

  lemma CreateTold(s: Store, g: nat, max: nat, x: nat, live: set<nat>, said: set<Exit>)
    requires Inv(s, 0, max) && IsGr(s, g)
    ensures AllTold(s, CreateSlot(s, g).0, x, live, said)
  {
    hide Sorted, SentAtHead, WithinMax, Indexed;
    var v := Bck(Backend(0, 0, 0, g));
    AllocFrom(s, v);
    var (s1, n) := SlotAlloc(s, v);
    CreateSlotFrames(s, g, s1, n);
    NoZero(s);
    var t := CreateSlot(s, g).0;
    forall f | IsRun(s, f) && s.m[f].fe.pid in live ensures Told(s, t, f, live, said) {
      assert t.m[f].fe == s.m[f].fe;
      var b := s.m[f].fe.backend;
      if b != 0 { assert IsBe(s, b) && t.At(b) == s.At(b); }
    }
  }

  lemma NewChildTold(s: Store, g: nat, max: nat, child: nat, x: nat, live: set<nat>, said: set<Exit>)
    requires Inv(s, 0, max) && IsGr(s, g) && BelowMax(s, g, max) && live <= s.live
    ensures AllTold(s, NewChild(s, g, child).0, x, live, said)
  {
    hide AllTold, Respects, Wf, Sorted, SentAtHead, WithinMax, Indexed, SameBackends, SameRunning;
    CreateTold(s, g, max, x, live, said);
    CreateSlotKeeps(s, g, max, 0, 0, {}, {});
    var (s2, b) := CreateSlot(s, g);
    var t := NewChild(s, g, child).0;
    if child == 0 {
      StartingKeeps(s2, g, 0, 0, max, 0, 0, {}, {});
      var s3 := s2.PutGr(g, s2.Gr(g).(starting := 0));
      NotTheGroup(s2, g, b);
      ToldStill(s2, s3, x, live, said);
      DisposeTold(s3, g, b, x, live, said);
      ToldTrans(s, s2, s3, x, live, said);
      ToldTrans(s, s3, t, x, live, said);
    } else {
      ForkedTold(s2, g, b, child, max, x, live, said);
      ToldTrans(s, s2, t, x, live, said);
    }
  }

  lemma ForkedTold(s: Store, g: nat, b: nat, child: nat, max: nat, x: nat, live: set<nat>, said: set<Exit>)
    requires Inv(s, 0, max) && IsGr(s, g) && IsBe(s, b) && s.m[b].be.feRunning == b
    ensures AllTold(s, Forked(s, g, b, child), x, live, said)
  {
    NoZero(s);
    ForkedSame(s, g, b, child);
    ToldPids(s, Forked(s, g, b, child), x, live, said);
  }

  lemma StartChildTold(s: Store, g: nat, self: nat, max: nat, child: nat, x: nat, live: set<nat>, said: set<Exit>)
    requires Inv(s, 0, max) && IsGr(s, g) && 0 !in s.live && live <= s.live
    ensures AllTold(s, StartChild(s, g, self, max, child).0, x, live, said)
  {
    hide AllTold, Respects, Inv, NewChild, SameBackends, SameRunning;
    BeStartingKeeps(s, g, 0, max, 0, 0, {}, {});
    var (s1, p) := BeStarting(s, g);
    ToldStill(s, s1, x, live, said);
    if (p == 0 || p == self) && BelowMax(s1, g, max) {
      NewChildTold(s1, g, max, child, x, live, said);
      ToldTrans(s, s1, StartChild(s, g, self, max, child).0, x, live, said);
    }
  }

  lemma {:induction false} DisposeDeadTold(s: Store, g: nat, l: seq<nat>, max: nat, x: nat, live: set<nat>,
      said: set<Exit>)
    requires Inv(s, 0, max) && live <= s.live && NoDup(l) && forall b :: b in l ==> b in s.Gr(g).bes
    ensures AllTold(s, DisposeDead(s, g, l), x, live, said)
    decreases |l|
  {
    hide AllTold, SameBackends, SameRunning, Sorted, SentAtHead, WithinMax, Indexed;
    SameRefl(s);
    ToldStill(s, s, x, live, said);
    if l != [] {
      var b := l[0];
      ListedBe(s, g, b);
      var s1 := if s.Be(b).pid in s.live then s else BackendDispose(s, g, b);
      if s.Be(b).pid !in s.live {
        DisposeTold(s, g, b, x, live, said);
        BackendDisposeInv(s, g, b, 0, max);
        BackendDisposeParents(s, g, b);
        DisposedList(s, g, b);
      }
      forall c | c in l[1..] ensures c in s1.Gr(g).bes { assert c in l && c != b; }
      DisposeDeadTold(s1, g, l[1..], max, x, live, said);
      ToldTrans(s, s1, DisposeDead(s, g, l), x, live, said);
    }
  }

  lemma OrphanTold(s: Store, p: nat, self: nat, max: nat, x: nat, live: set<nat>, said: set<Exit>)
    requires Inv(s, 0, max) && IsGr(s, p) && live <= s.live
    ensures var s2 := Invalidate(s, p);
      AllTold(s, Cleanup(DisposeDead(s2, p, s2.Gr(p).bes), p, self), x, live, said)
  {
    hide AllTold, Respects, Bound, Sorted, SentAtHead, WithinMax, Indexed, SameBackends, SameRunning;
    InvalidateKeeps(s, p, 0, max, 0, 0, {}, {});
    var s2 := Invalidate(s, p);
    assert ListOf(s2, BeList(p)) == s2.Gr(p).bes;
    ToldStill(s, s2, x, live, said);
    DisposeDeadTold(s2, p, s2.Gr(p).bes, max, x, live, said);
    DisposeDeadKeeps(s2, p, s2.Gr(p).bes, 0, 0, max, {}, {});
    var s3 := DisposeDead(s2, p, s2.Gr(p).bes);
    CleanupKeeps(s3, p, 0, max, p, self, {}, {});
    var t := Cleanup(s3, p, self);
    ToldStill(s3, t, x, live, said);
    ToldTrans(s, s2, s3, x, live, said);
    ToldTrans(s, s3, t, x, live, said);
  }

  lemma DoCleanupTold(s: Store, g: nat, self: nat, max: nat, x: nat, live: set<nat>, said: set<Exit>)
    requires Inv(s, 0, max) && IsGr(s, g) && live <= s.live
    ensures AllTold(s, DoCleanup(s, g, self), x, live, said)
  {
    hide AllTold, Respects, Bound, Sorted, SentAtHead, WithinMax, Indexed, SameBackends, SameRunning;
    SameRefl(s);
    ToldStill(s, s, x, live, said);
    GroupPrevFinds(s, g);
    var p := GroupPrev(s, g);
    if p != g {
      ParentSigKeeps(s, p, 0, max, 0, 0, {}, {});
      var (s1, alive) := ParentSig(s, p);
      ToldStill(s, s1, x, live, said);
      if !alive {
        OrphanTold(s1, p, self, max, x, live, said);
        ToldTrans(s, s1, DoCleanup(s, g, self), x, live, said);
      }
    }
  }

  lemma TakeOverTold(s: Store, g: nat, self: nat, max: nat, x: nat, live: set<nat>, said: set<Exit>)
    requires Inv(s, 0, max) && IsGr(s, g)
    ensures AllTold(s, TakeOver(s, g, self).0, x, live, said)
  {
    hide AllTold, Respects, Inv, SameBackends, SameRunning;
    SameRefl(s);
    ToldStill(s, s, x, live, said);
    StartBeKeeps(s, g, 0, max, 0, 0, {}, {});
    var p := s.Gr(g).parent;
    var (s2, other) := if p != 0 && p != self then StartBe(s, g) else (s, false);
    var t := s2.PutGr(g, s2.Gr(g).(parent := self));
    ParentFrames(s2, g, self, 0, 0, {}, {});
    ToldStill(s, s2, x, live, said);
    ToldStill(s2, t, x, live, said);
    ToldTrans(s, s2, t, x, live, said);
  }

  lemma StartTold(s: Store, self: nat, key: Key, opt: GroupOpt, max: nat, child: nat, x: nat, live: set<nat>,
      said: set<Exit>)
    requires Inv(s, 0, max) && 0 !in s.live && live <= s.live
    ensures AllTold(s, ParentStart(s, self, key, opt, max, child).0, x, live, said)
  {
    hide AllTold, Respects, Inv, StartChild, TakeOver, ScriptFind, SameBackends, SameRunning, SameQueues;
    ScriptFindKeeps(s, key, opt, max);
    var (s1, g) := ScriptFind(s, key, opt);
    ToldStill(s, s1, x, live, said);
    TakeOverKeeps(s1, g, self, max, 0, {}, {});
    TakeOverTold(s1, g, self, max, x, live, said);
    var (s2, ours) := TakeOver(s1, g, self);
    ToldTrans(s, s1, s2, x, live, said);
    if ours {
      StartChildTold(s2, g, self, max, child, x, live, said);
      ToldTrans(s, s2, ParentStart(s, self, key, opt, max, child).0, x, live, said);
    }
  }

  lemma ParentWakeTold(s: Store, g: nat, self: nat, es: seq<Exit>, usr1: bool, alrm: bool, max: nat, child: nat,
      x: nat, live: set<nat>, said: set<Exit>)
    requires Inv(s, 0, max) && IsGr(s, g) && s.m[g].gr.parent == self && 0 !in s.live && self in s.live
    requires child !in s.live && live <= s.live && forall e :: e in es ==> e.pid !in s.live && e in said
    ensures AllTold(s, ParentWake(s, g, self, es, usr1, alrm, max, child).0, x, live, said)
  {
    hide AllTold, Respects, Inv, StartChild, CollectAll, DoCleanup, SameBackends, SameRunning;
    CollectAllKeeps(s, g, es, 0, self, max, {}, {});
    CollectAllTold(s, g, es, max, x, live, said);
    var s1 := CollectAll(s, g, es);
    StartChildTold(s1, g, self, max, child, x, live, said);
    StartChildKeeps(s1, g, self, max, child, 0, {}, {});
    SameRefl(s1);
    ToldStill(s1, s1, x, live, said);
    var s2 := if s1.Valid(g) && usr1 then StartChild(s1, g, self, max, child).0 else s1;
    ToldTrans(s, s1, s2, x, live, said);
    DoCleanupTold(s2, g, self, max, x, live, said);
    var s3 := DoCleanup(s2, g, self);
    ToldTrans(s, s2, s3, x, live, said);
    TendKeeps(s, g, self, es, usr1, max, child, {self}, {self});
    CleanupKeeps(s3, g, 0, max, g, self, {}, {});
    ToldStill(s3, Cleanup(s3, g, self), x, live, said);
    ToldTrans(s, s3, Cleanup(s3, g, self), x, live, said);
  }

  // ---- every event ----

  /** What the event says of the end of processes: what the backend itself reports, or what waitpid
      reports to its parent process. */
  function Said(e: Event): set<Exit> {
    match e
    case Finished(p, val, _, _) => {Exit(p, false, val)}
    case Tended(_, es, _, _, _) => set x | x in es
    case _ => {}
  }

  /** The slot that is given back with the exit status. */
  function Finder(y: Sys, e: Event, max: nat): nat {
    if e.Collect? && Pc(y, e.pid).FRunning? && Effect(y, e, max).1 == FDone then Pc(y, e.pid).f else 0
  }

  lemma CollectTold(y: Sys, e: Event, max: nat)
    requires SysInv(y, max) && Enabled(y, e, max) && e.Collect?
    ensures AllTold(y.s, Effect(y, e, max).0, Finder(y, e, max), y.s.live, Said(e))
  {
    hide AllTold, Inv, NoHand, CollectStatus;
    assert Holds(y.s, e.pid, Pc(y, e.pid));
    CollectFinds(y.s, Pc(y, e.pid).f, max, y.s.live, Said(e));
  }

  lemma SectionTold(y: Sys, e: Event, max: nat)
    requires SysInv(y, max) && Enabled(y, e, max) && !e.Come? && !e.Die? && !e.Quit? && Holds(y.s, e.pid, Pc(y, e.pid))
    ensures AllTold(y.s, Effect(y, e, max).0, Finder(y, e, max), y.s.live, Said(e))
  {
    hide AllTold, Inv, NoHand, ConnectSection, WakeSection, CollectStatus, ParentStart, ParentWake, Loop, RunOver,
        Accepted, MayConnect;
    var s, pc, live, said := y.s, Pc(y, e.pid), y.s.live, Said(e);
    match e
    case Request(p, key, opt, child, c) => ConnectTold(s, p, pc.cleaned, key, opt, max, child, c, 0, live, said);
    case Wake(p, changed, child, c) =>
      WakeTold(s, pc.g, pc.f, p, pc.didSpawn, changed, max, child, c, 0, live, said);
    case Collect(p) => CollectTold(y, e, max);
    case Start(p, key, opt, child) => StartTold(s, p, key, opt, max, child, 0, live, said);
    case Tended(p, es, usr1, alrm, child) => ParentWakeTold(s, pc.g, p, es, usr1, alrm, max, child, 0, live, said);
    case Ready(p, orphan) => LoopTold(s, pc.g, pc.b, p, orphan, 1, max, 0, live, said);
    case Accept(p) => AcceptTold(s, pc.g, pc.b, p, max, 0, live, said);
    case Finished(p, val, again, orphan) => RunOverTold(s, pc.g, pc.b, p, val, again, orphan, max, live);
  }

  /** In every event a running frontend keeps its backend and its exit status, or loses the backend and
      has recorded for it what is said of that very process. */
  lemma EventTold(y: Sys, e: Event, max: nat)
    requires SysInv(y, max) && Enabled(y, e, max)
    ensures AllTold(y.s, Effect(y, e, max).0, Finder(y, e, max), y.s.live, Said(e))
  {
    hide AllTold, Inv, NoHand, ConnectSection, WakeSection, CollectStatus, ParentStart, ParentWake, Loop, RunOver,
        Accepted, MayConnect, SameBackends, SameRunning, SameQueues;
    if e.Come? || e.Die? || e.Quit? {
      var t := Effect(y, e, max).0;
      LiveRespects(y.s, t.live, 0, 0, {}, {});
      ToldStill(y.s, t, 0, y.s.live, Said(e));
    } else {
      assert Holds(y.s, e.pid, Pc(y, e.pid));
      SectionTold(y, e, max);
    }
  }

  // ---- the reports arrive ----

  lemma FreedAfter(s: Store, g: nat, b: nat, p: nat, val: int, again: bool, orphan: bool, max: nat)
    requires Inv(s, 0, max) && Holds(s, p, BBusy(g, b))
    ensures RunOver(s, g, b, p, val, again, orphan).0.Be(b).feRunning in {0, b}
  {
    hide Inv, Respects, Quiet, Exited, GoIdle, StartBe;
    ServedKeeps(s, b, val, p, max, {}, {});
    var s1 := Exited(s, b, false, val);
    if again {
      if !orphan && s1.Valid(g) { GoIdleKeeps(s1, g, b, p, 2, max, {}, {}); }
    } else if s1.Valid(g) {
      Grouped(s1, g, b, max);
      StartBeKeeps(s1, g, 0, max, 0, 0, {}, {});
      assert IsBe(StartBe(s1, g).0, b);
    }
  }

  /** The live frontend that a backend serves has the backend's exit status when the backend has run,
      and is not bound to it any more. */
  lemma FinishedReports(y: Sys, e: Event, max: nat, f: nat)
    requires SysInv(y, max) && Enabled(y, e, max) && e.Finished?
    requires IsRun(y.s, f) && y.s.Fe(f).pid in y.s.live && y.s.Fe(f).backend == Pc(y, e.pid).b
    ensures var t := Next(y, e, max).s;
      IsRun(t, f) && t.Fe(f).pid == y.s.Fe(f).pid && t.Fe(f).backend == 0 && !t.Fe(f).onSig && t.Fe(f).val == e.val
  {
    hide NoHand, Inv, RunOver, MayConnect;
    var s, p, pc := y.s, e.pid, Pc(y, e.pid);
    assert Holds(s, p, pc);
    EventTold(y, e, max);
    EventSound(y, e, max);
    var t := Next(y, e, max).s;
    NotZeroRun(s, f, max);
    assert Told(s, t, f, s.live, Said(e));
    FreedAfter(s, pc.g, pc.b, p, e.val, e.again, e.orphan, max);
    assert t == RunOver(s, pc.g, pc.b, p, e.val, e.again, e.orphan).0;
    NotZeroBe(s, pc.b, max);
    NotBound(t, f, pc.b, max);
  }

  lemma NotBound(s: Store, f: nat, b: nat, max: nat)
    requires Inv(s, 0, max) && IsRun(s, f) && s.Be(b).feRunning in {0, b} && b != 0
    ensures s.Fe(f).backend != b
  {
    NoZero(s);
  }

  lemma NotZeroRun(s: Store, f: nat, max: nat)
    requires Inv(s, 0, max) && IsRun(s, f)
    ensures f != 0
  {
    NoZero(s);
  }

  lemma NotZeroBe(s: Store, b: nat, max: nat)
    requires Inv(s, 0, max) && IsBe(s, b)
    ensures b != 0
  {
    NoZero(s);
  }

  /** Backend b, which serves frontend f, is the first of its group with process q. */
  ghost predicate ServedBy(s: Store, g: nat, b: nat, q: nat, f: nat) {
    && IsRun(s, f) && s.Fe(f).backend == b && s.Fe(f).pid in s.live
    && b in s.Gr(g).bes && s.Be(b).pid == q && forall c :: Precedes(s.Gr(g).bes, c, b) ==> s.Be(c).pid != q
  }

  lemma {:induction false} FindPidFirst(s: Store, l: seq<nat>, b: nat, q: nat)
    requires b in l && s.Be(b).pid == q && forall c :: Precedes(l, c, b) ==> s.Be(c).pid != q
    ensures FindPid(s, l, q) == b
  {
    if l[0] != b {
      assert Precedes(l, l[0], b);
      FindPidFirst(s, l[1..], b, q);
    }
  }

  /** The report of another child leaves the two alone. */
  lemma CollectOther(s: Store, g: nat, e: Exit, b: nat, q: nat, f: nat, max: nat)
    requires Inv(s, 0, max) && ServedBy(s, g, b, q, f) && e.pid != q
    ensures var t := CollectOne(s, g, e); Inv(t, 0, max) && ServedBy(t, g, b, q, f) && t.live == s.live
  {
    hide Sorted, SentAtHead, WithinMax, Indexed;
    NoZero(s);
    var c := FindPid(s, s.Gr(g).bes, e.pid);
    FindPidFinds(s, s.Gr(g).bes, e.pid);
    if c != 0 {
      ListedBe(s, g, c);
      ListedBe(s, g, b);
      assert s.m[b].be.feRunning == f && s.m[c].be.feRunning != f;
      var s1 := Exited(s, c, e.onSig, e.val);
      ExitedInv(s, c, e.onSig, e.val, 0, max);
      ExitedEffect(s, c, e.onSig, e.val);
      OtherUnlinked(s, s1, g, b, c, q, f, max);
    }
  }

  lemma OtherUnlinked(s: Store, s1: Store, g: nat, b: nat, c: nat, q: nat, f: nat, max: nat)
    requires Wf(s) && Inv(s1, 0, max) && ServedBy(s, g, b, q, f) && b != c && IsBe(s, c) && IsBe(s, b) && IsGr(s, g)
    requires IsBe(s1, c) && s1.m[c].be == s.m[c].be.(feRunning := s1.m[c].be.feRunning) && s1.m[c].be.grp == g
    requires s1.m[c].be.feRunning in {0, c} && s1.live == s.live && c != f
    requires forall k :: k != c && k != s.m[c].be.feRunning ==> s1.At(k) == s.At(k)
    requires s.m[c].be.feRunning != f && (s.m[c].be.feRunning !in {0, c} ==> IsRun(s, s.m[c].be.feRunning))
    requires 0 !in s.m
    ensures var t := BackendDispose(s1, g, c);
      Inv(t, 0, max) && ServedBy(t, g, b, q, f) && t.live == s.live
  {
    hide Bound, Wf, Sorted, SentAtHead, WithinMax, Indexed;
    BackendDisposeInv(s1, g, c, 0, max);
    var t := BackendDispose(s1, g, c);
    assert s1.At(g) == s.At(g) && s1.At(b) == s.At(b) && s1.At(f) == s.At(f);
    var l := s.Gr(g).bes;
    assert t.Gr(g).bes == Without(l, c);
    forall d | Precedes(t.Gr(g).bes, d, b) ensures t.Be(d).pid != q {
      PrecedesWithout(l, c, d, b);
      PrecedesIn(l, d, b);
      ListedBe(s, g, d);
      assert s.Be(d).pid != q && t.At(d) == s.At(d);
    }
  }

  /** Frontend f has no backend any more and this exit status. */
  predicate Recorded(s: Store, f: nat, onSig: bool, val: int) {
    IsRun(s, f) && s.Fe(f).backend == 0 && s.Fe(f).onSig == onSig && s.Fe(f).val == val
  }

  lemma CollectThis(s: Store, g: nat, e: Exit, b: nat, f: nat, max: nat)
    requires Inv(s, 0, max) && ServedBy(s, g, b, e.pid, f)
    ensures var t := CollectOne(s, g, e); Recorded(t, f, e.onSig, e.val) && t.Fe(f).pid == s.Fe(f).pid
    ensures b !in CollectOne(s, g, e).Gr(g).bes
  {
    hide Sorted, SentAtHead, WithinMax, Indexed;
    NoZero(s);
    ListedBe(s, g, b);
    FindPidFirst(s, s.Gr(g).bes, b, e.pid);
    assert s.m[b].be.feRunning == f && f != b;
    ExitedShape(s, b, e.onSig, e.val);
    ExitedInv(s, b, e.onSig, e.val, 0, max);
    ExitedEffect(s, b, e.onSig, e.val);
    var s1 := Exited(s, b, e.onSig, e.val);
    DisposedList(s1, g, b);
    DisposeTold(s1, g, b, 0, s.live, {});
    assert Told(s1, CollectOne(s, g, e), f, s.live, {});
  }

  /** Whatever is recorded stays until the frontend asks. */
  lemma StaysRecorded(s: Store, t: Store, f: nat, x: nat, live: set<nat>, said: set<Exit>, onSig: bool, val: int)
    requires AllTold(s, t, x, live, said) && Recorded(s, f, onSig, val) && s.Fe(f).pid in live && f != x
    ensures Recorded(t, f, onSig, val) && t.Fe(f).pid == s.Fe(f).pid
  {
    assert Told(s, t, f, live, said);
  }

  /** What waitpid reports first of a child is what its frontend gets. */
  lemma {:induction false} CollectReports(s: Store, g: nat, es: seq<Exit>, m: nat, b: nat, f: nat, max: nat)
    requires Inv(s, 0, max) && m < |es| && ServedBy(s, g, b, es[m].pid, f)
    requires (forall i :: 0 <= i < m ==> es[i].pid != es[m].pid) && forall e :: e in es ==> e.pid !in s.live
    ensures var t := CollectAll(s, g, es); Recorded(t, f, es[m].onSig, es[m].val) && t.Fe(f).pid == s.Fe(f).pid
    decreases m
  {
    hide Inv, AllTold, ServedBy, CollectOne, Respects;
    ServedLives(s, g, b, es[m].pid, f, max);
    CollectOneKeeps(s, g, es[0], 0, 0, max, {}, {});
    var s1, rest := CollectOne(s, g, es[0]), es[1..];
    var said := set e | e in rest;
    if m == 0 {
      CollectThis(s, g, es[0], b, f, max);
      CollectAllTold(s1, g, rest, max, 0, s.live, said);
      StaysRecorded(s1, CollectAll(s, g, es), f, 0, s.live, said, es[0].onSig, es[0].val);
    } else {
      CollectOther(s, g, es[0], b, es[m].pid, f, max);
      SameFrontend(s, g, es[0], b, es[m].pid, f, max);
      assert forall i :: 0 <= i < m - 1 ==> rest[i] == es[i + 1];
      CollectReports(s1, g, rest, m - 1, b, f, max);
    }
  }

  lemma ServedLives(s: Store, g: nat, b: nat, q: nat, f: nat, max: nat)
    requires Inv(s, 0, max) && ServedBy(s, g, b, q, f)
    ensures f != 0 && s.Fe(f).pid in s.live
  {
    NoZero(s);
  }

  lemma SameFrontend(s: Store, g: nat, e: Exit, b: nat, q: nat, f: nat, max: nat)
    requires Inv(s, 0, max) && ServedBy(s, g, b, q, f)
    ensures CollectOne(s, g, e).Fe(f).pid == s.Fe(f).pid
  {
    ServedLives(s, g, b, q, f, max);
    CollectOneTold(s, g, e, max, 0, s.live, {e});
    assert Told(s, CollectOne(s, g, e), f, s.live, {e});
  }

  /** So it is at the end of the event. */
  lemma TendedReports(y: Sys, e: Event, max: nat, m: nat, b: nat, f: nat)
    requires SysInv(y, max) && Enabled(y, e, max) && e.Tended? && m < |e.es|
    requires ServedBy(y.s, Pc(y, e.pid).g, b, e.es[m].pid, f) && forall i :: 0 <= i < m ==> e.es[i].pid != e.es[m].pid
    ensures Recorded(Next(y, e, max).s, f, e.es[m].onSig, e.es[m].val)
  {
    hide Inv, NoHand, AllTold, ServedBy, Recorded, ParentWake, CollectAll, MayConnect;
    var s, g, p := y.s, Pc(y, e.pid).g, e.pid;
    assert Holds(s, p, Pc(y, p));
    ServedLives(s, g, b, e.es[m].pid, f, max);
    CollectReports(s, g, e.es, m, b, f, max);
    CollectAllKeeps(s, g, e.es, 0, p, max, {}, {});
    var s1 := CollectAll(s, g, e.es);
    assert IsGr(s1, g) && s1.m[g].gr.parent == p;
    ParentWakeTold(s1, g, p, [], e.usr1, e.alrm, max, e.child, 0, s.live, {});
    AfterCollect(s, g, p, e.es, e.usr1, e.alrm, max, e.child);
    var t := ParentWake(s, g, p, e.es, e.usr1, e.alrm, max, e.child).0;
    StaysRecorded(s1, t, f, 0, s.live, {}, e.es[m].onSig, e.es[m].val);
    assert Effect(y, e, max).0 == t;
  }

  lemma AfterCollect(s: Store, g: nat, self: nat, es: seq<Exit>, usr1: bool, alrm: bool, max: nat, child: nat)
    ensures ParentWake(s, g, self, es, usr1, alrm, max, child) ==
            ParentWake(CollectAll(s, g, es), g, self, [], usr1, alrm, max, child)
  {
    hide StartChild, DoCleanup;
  }

  // ---- whole runs ----

  /** Process p waits with running slot f for its exit status in all states from i to k. */
  ghost predicate Awaits(tr: seq<Sys>, p: nat, f: nat, i: nat, k: nat)
    requires k < |tr|
  {
    forall j :: i <= j <= k ==> p in tr[j].s.live && Pc(tr[j], p) == FRunning(f)
  }

  /** In event e of state y the end of process q is reported. */
  predicate Reports(y: Sys, e: Event, q: nat, onSig: bool, val: int) {
    Credible(Exit(q, onSig, val), y.s.live, Said(e))
  }

  lemma StepTold(tr: seq<Sys>, es: seq<Event>, max: nat, p: nat, f: nat, j: nat)
    requires History(tr, es, max) && j < |es| && Awaits(tr, p, f, j, j + 1)
    ensures Told(tr[j].s, tr[j + 1].s, f, tr[j].s.live, Said(es[j])) && tr[j].s.Fe(f).pid == p && IsRun(tr[j].s, f)
  {
    hide Inv, NoHand, Next, Told;
    var y, e, z := tr[j], es[j], tr[j + 1];
    Safe(tr, es, max, j);
    assert Enabled(y, e, max) && z == Next(y, e, max);
    assert Holds(y.s, p, Pc(y, p));
    NotZeroRun(y.s, f, max);
    EventTold(y, e, max);
    NotFound(y, e, max, p, f);
  }

  /** Only who asks gives the slot back. */
  lemma NotFound(y: Sys, e: Event, max: nat, p: nat, f: nat)
    requires SysInv(y, max) && Enabled(y, e, max) && p in y.s.live && Pc(y, p) == FRunning(f) && f != 0
    requires Pc(Next(y, e, max), p) == FRunning(f)
    ensures Next(y, e, max).s == Effect(y, e, max).0 && Finder(y, e, max) != f
  {
    hide Inv, NoHand, CollectStatus;
    assert Holds(y.s, p, Pc(y, p));
    if e.Collect? { assert Holds(y.s, e.pid, Pc(y, e.pid)); }
  }

  /** A frontend that waits has the backend process that it was connected to, or its loss was reported in
      some event since: by that backend itself, by waitpid, or because the process was dead. */
  lemma {:induction false} LostOrReported(tr: seq<Sys>, es: seq<Event>, max: nat, p: nat, f: nat, i: nat, k: nat)
    returns (j: nat)
    requires History(tr, es, max) && i <= k < |es| && Awaits(tr, p, f, i, k) && tr[i].s.Fe(f).backend != 0
    ensures var v, w, q := tr[i].s.Fe(f), tr[k].s.Fe(f), tr[i].s.Be(tr[i].s.Fe(f).backend).pid;
      if w.backend != 0 then w.backend == v.backend && tr[k].s.Be(w.backend).pid == q
      else i <= j < k && Reports(tr[j], es[j], q, w.onSig, w.val)
    decreases k
  {
    hide Enabled, Next, Pc;
    j := i;
    if i < k {
      j := LostOrReported(tr, es, max, p, f, i, k - 1);
      StepTold(tr, es, max, p, f, k - 1);
      if tr[k - 1].s.Fe(f).backend != 0 && tr[k].s.Fe(f).backend == 0 { j := k - 1; }
    }
  }

  /** What a frontend that asks is told. */
  lemma AskerFinds(tr: seq<Sys>, es: seq<Event>, max: nat, p: nat, f: nat, k: nat)
    requires History(tr, es, max) && k < |es| && es[k].Collect? && es[k].pid == p
    requires p in tr[k].s.live && Pc(tr[k], p) == FRunning(f)
    ensures var (_, done, onSig, val) := CollectStatus(tr[k].s, f); var v := tr[k].s.Fe(f);
      && (done <==> v.backend == 0 || tr[k].s.Be(v.backend).pid !in tr[k].s.live)
      && (done ==> if v.backend == 0 then onSig == v.onSig && val == v.val else onSig && val == SIGKILL)
      && (Pc(tr[k + 1], p) == if done then FDone else FRunning(f))
  {
    hide Inv, NoHand, CollectStatus;
    Safe(tr, es, max, k);
    assert Enabled(tr[k], es[k], max) && tr[k + 1] == Next(tr[k], es[k], max);
    assert Holds(tr[k].s, p, Pc(tr[k], p));
    CollectFinds(tr[k].s, f, max, {}, {});
  }

  /** A frontend that a backend process q serves and that asks for the exit status is told, once it is
      told anything, what was reported of q in one of the events since. */
  lemma StatusIsReported(tr: seq<Sys>, es: seq<Event>, max: nat, p: nat, f: nat, i: nat, k: nat) returns (j: nat)
    requires History(tr, es, max) && i <= k < |es| && Awaits(tr, p, f, i, k) && tr[i].s.Fe(f).backend != 0
    requires es[k].Collect? && es[k].pid == p
    ensures var (_, done, onSig, val) := CollectStatus(tr[k].s, f); var q := tr[i].s.Be(tr[i].s.Fe(f).backend).pid;
      done ==> i <= j <= k && Reports(tr[j], es[j], q, onSig, val)
  {
    hide Enabled, Next, CollectStatus;
    assert p in tr[k].s.live && Pc(tr[k], p) == FRunning(f);
    AskerFinds(tr, es, max, p, f, k);
    j := LostOrReported(tr, es, max, p, f, i, k);
    if tr[k].s.Fe(f).backend != 0 { j := k; }
  }

  /** A status that is recorded is the one that the frontend finds, however long it takes to ask. */
  lemma {:induction false} RecordedIsFound(tr: seq<Sys>, es: seq<Event>, max: nat, p: nat, f: nat, i: nat, k: nat,
      onSig: bool, val: int)
    requires History(tr, es, max) && i <= k < |es| && Awaits(tr, p, f, i, k) && Recorded(tr[i].s, f, onSig, val)
    ensures Recorded(tr[k].s, f, onSig, val)
    decreases k
  {
    hide Enabled, Next, Pc;
    if i < k {
      RecordedIsFound(tr, es, max, p, f, i, k - 1, onSig, val);
      StepTold(tr, es, max, p, f, k - 1);
    }
  }

  /** The exit status of the script reaches the caller: when the backend that serves a frontend has run
      the script, the frontend is told exactly the status with which the script ended. */
  lemma ExitStatusArrives(tr: seq<Sys>, es: seq<Event>, max: nat, p: nat, f: nat, i: nat, k: nat)
    requires History(tr, es, max) && i < k < |es| && Awaits(tr, p, f, i, k) && es[k].Collect? && es[k].pid == p
    requires es[i].Finished? && tr[i].s.Fe(f).backend == Pc(tr[i], es[i].pid).b
    ensures var (_, done, onSig, val) := CollectStatus(tr[k].s, f); done && !onSig && val == es[i].val
  {
    hide Inv, NoHand, Next, CollectStatus;
    StepTold(tr, es, max, p, f, i);
    Safe(tr, es, max, i);
    assert Enabled(tr[i], es[i], max) && tr[i + 1] == Next(tr[i], es[i], max);
    FinishedReports(tr[i], es[i], max, f);
    RecordedIsFound(tr, es, max, p, f, i + 1, k, false, es[i].val);
    assert p in tr[k].s.live && Pc(tr[k], p) == FRunning(f);
    AskerFinds(tr, es, max, p, f, k);
  }

  /** So does what waitpid reports first of a child that has died while it served a frontend. */
  lemma WaitStatusArrives(tr: seq<Sys>, es: seq<Event>, max: nat, p: nat, f: nat, b: nat, m: nat, i: nat, k: nat)
    requires History(tr, es, max) && i < k < |es| && Awaits(tr, p, f, i, k) && es[k].Collect? && es[k].pid == p
    requires es[i].Tended? && m < |es[i].es| && forall n :: 0 <= n < m ==> es[i].es[n].pid != es[i].es[m].pid
    requires ServedBy(tr[i].s, Pc(tr[i], es[i].pid).g, b, es[i].es[m].pid, f)
    ensures var (_, done, onSig, val) := CollectStatus(tr[k].s, f);
      done && onSig == es[i].es[m].onSig && val == es[i].es[m].val
  {
    hide Inv, NoHand, Next, CollectStatus;
    Safe(tr, es, max, i);
    assert Enabled(tr[i], es[i], max) && tr[i + 1] == Next(tr[i], es[i], max);
    TendedReports(tr[i], es[i], max, m, b, f);
    RecordedIsFound(tr, es, max, p, f, i + 1, k, es[i].es[m].onSig, es[i].es[m].val);
    assert p in tr[k].s.live && Pc(tr[k], p) == FRunning(f);
    AskerFinds(tr, es, max, p, f, k);
  }
}
