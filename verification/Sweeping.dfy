/** The sweep over dead frontends, the check on backends and one turn of the frontend's
    queueing loop. */
module Sweeping {
  import opened Lists
  import opened Store
  import opened Conservation
  import opened Invariants
  import opened Respect
  import opened Keeping
  import opened Granting
  import opened Groups
  import opened InTheHand
  import opened Sections

  // ---- fe_prev ----

  lemma {:induction false} LastQueuedFinds(s: Store, gs: seq<nat>, h: nat)
    requires h in gs && s.Gr(h).fes != []
    ensures var (g, f) := LastQueued(s, gs); g in gs && s.Gr(g).fes != [] && f == s.Gr(g).fes[|s.Gr(g).fes| - 1]
  {
    if s.Gr(gs[0]).fes == [] { LastQueuedFinds(s, gs[1..], h); }
  }

  /** fe_prev always ends at a queued frontend: at worst it wraps around to where it began. */
  lemma FePrevFinds(s: Store, g: nat, f: nat)
    requires Wf(s) && f in s.Gr(g).fes
    ensures var (h, e) := FePrev(s, g, f); IsGr(s, h) && e in s.Gr(h).fes
  {
    var l := s.Gr(g).fes;
    IndexIn(l, f);
    if Index(l, f) == 0 {
      assert s.groups == ListOf(s, GroupList) && Home(s, g) == GroupList;
      IndexIn(s.groups, g);
      var r := Rotation(s.groups, g);
      assert r[|r| - 1] == g;
      LastQueuedFinds(s, r, g);
      var (h, e) := LastQueued(s, r);
      assert h in s.groups;
      assert Home(s, h) == GroupList;
    } else {
      assert IsGr(s, g);
    }
  }

  // ---- the sweep ----

  /** Removing one dead frontend, and its group if that was the last one in it. */
  function SweepOne(s: Store, g: nat, f: nat, self: nat): Store {
    Cleanup(FrontendDispose(s, g, f), g, self)
  }

  lemma SweepOneKeeps(s: Store, g: nat, f: nat, self: nat, max: nat, x: nat, L: set<nat>, A: set<nat>)
    requires Inv(s, 0, max) && f in s.Gr(g).fes && s.Fe(f).pid !in s.live
    requires A <= L <= SweepOne(s, g, f, self).live && L <= s.live && self !in A
    ensures var t := SweepOne(s, g, f, self);
      Inv(t, 0, max) && Respects(s, t, x, self, L, A) && SameBackends(s, t)
  {
    QueuedFe(s, g, f);
    var s1 := FrontendDispose(s, g, f);
    assert IsGr(s, g);
    FrontendDisposeInv(s, g, f, 0, max);
    FrontendDisposeFrames(s, g, f);
    FrontendDisposeRespects(s, g, f, x, self, L, A);
    CleanupKeeps(s1, g, 0, max, x, self, L, A);
    RespectsTrans(s, s1, SweepOne(s, g, f, self), x, self, L, A);
  }

  /** The neighbour found before the removal is still there after it, unless it was the very
      frontend that was removed. */
  lemma SweepOneNext(s: Store, g: nat, f: nat, self: nat, h: nat, e: nat)
    requires Wf(s) && f in s.Gr(g).fes && e in s.Gr(h).fes && e != f && (!s.Valid(g) ==> s.Gr(g).name == 0)
    ensures var t := SweepOne(s, g, f, self); e in t.Gr(h).fes && IsGr(t, h) && t.At(e) == s.At(e)
  {
    QueuedFe(s, g, f);
    QueuedFe(s, h, e);
    var s1 := FrontendDispose(s, g, f);
    assert f in ListOf(s, FeList(g)) && Home(s, f) == FeList(g);
    FrontendDisposeWf(s, g, f);
    assert IsGr(s, g) && IsGr(s, h);
    assert e in s1.Gr(h).fes;
    CleanupEffect(s1, g, self);
    CleanupFe(s1, g, self, e);
  }

  lemma CleanupFe(s: Store, g: nat, self: nat, e: nat)
    requires Wf(s) && IsGr(s, g) && s.At(e).Fro?
    ensures Cleanup(s, g, self).At(e) == s.At(e)
  {
    if s.Gr(g).bes == [] && s.Gr(g).fes == [] {
      var s1 := s.(live := s.live - ({s.Gr(g).parent} - {self}));
      LiveWf(s, s1.live);
      InvalidateEffect(s1, g);
    }
  }

  lemma SweepOneFewer(s: Store, g: nat, f: nat, self: nat)
    requires Wf(s) && f in s.Gr(g).fes && (!s.Valid(g) ==> s.Gr(g).name == 0)
    ensures |Frontends(SweepOne(s, g, f, self))| < |Frontends(s)|
    ensures SweepOne(s, g, f, self).live <= s.live
    ensures self in s.live ==> self in SweepOne(s, g, f, self).live
  {
    QueuedFe(s, g, f);
    var s1 := FrontendDispose(s, g, f);
    assert f in ListOf(s, FeList(g)) && Home(s, f) == FeList(g);
    FrontendDisposeWf(s, g, f);
    assert IsGr(s, g);
    CleanupEffect(s1, g, self);
    var t := SweepOne(s, g, f, self);
    forall n | n in Frontends(t) ensures n in Frontends(s) && n != f {
      CleanupNoFe(s1, g, self, n);
    }
    assert Frontends(t) <= Frontends(s) - {f};
    Smaller(Frontends(t), Frontends(s) - {f});
  }

  lemma Smaller(a: set<nat>, b: set<nat>)
    requires a <= b
    ensures |a| <= |b|
  {
    if a != {} {
      var x :| x in a;
      Smaller(a - {x}, b - {x});
    }
  }

  lemma CleanupNoFe(s: Store, g: nat, self: nat, n: nat)
    requires Wf(s) && IsGr(s, g)
    ensures Cleanup(s, g, self).At(n).Fro? ==> s.At(n).Fro?
  {
    if s.Gr(g).bes == [] && s.Gr(g).fes == [] {
      var s1 := s.(live := s.live - ({s.Gr(g).parent} - {self}));
      LiveWf(s, s1.live);
      InvalidateEffect(s1, g);
      var s2 := Invalidate(s1, g);
      assert n == g || s2.At(n) == s1.At(n) || s2.At(n) == Free;
    }
  }

  lemma {:induction false} SweepLive(s: Store, g: nat, f: nat, self: nat, max: nat)
    requires Inv(s, 0, max) && f in s.Gr(g).fes && self != 0
    ensures Sweep(s, g, f, self).live <= s.live
    ensures self in s.live ==> self in Sweep(s, g, f, self).live
    decreases |Frontends(s)|
  {
    QueuedFe(s, g, f);
    if s.Fe(f).pid !in s.live {
      FePrevFinds(s, g, f);
      var (h, e) := FePrev(s, g, f);
      var s1 := SweepOne(s, g, f, self);
      SweepOneFewer(s, g, f, self);
      if e != f {
        SweepOneKeeps(s, g, f, self, max, 0, {}, {});
        SweepOneNext(s, g, f, self, h, e);
        SweepLive(s1, h, e, self, max);
      }
    }
  }

  /** The whole sweep keeps the invariant and takes nothing from a live process; in
      particular the caller and its group stay. */
  lemma {:induction false} SweepKeeps(s: Store, g: nat, f: nat, self: nat, max: nat, x: nat, L: set<nat>, A: set<nat>)
    requires Inv(s, 0, max) && f in s.Gr(g).fes && self != 0
    requires A <= L <= Sweep(s, g, f, self).live && L <= s.live && self !in A
    ensures var t := Sweep(s, g, f, self);
      Inv(t, 0, max) && Respects(s, t, x, self, L, A) && SameBackends(s, t)
    decreases |Frontends(s)|
  {
    QueuedFe(s, g, f);
    RespectsRefl(s, x, self, L, A);
    SameRefl(s);
    if s.Fe(f).pid !in s.live {
      FePrevFinds(s, g, f);
      var (h, e) := FePrev(s, g, f);
      var s1 := SweepOne(s, g, f, self);
      SweepOneFewer(s, g, f, self);
      if e != f {
        SweepOneKeeps(s, g, f, self, max, 0, {}, {});
        SweepOneNext(s, g, f, self, h, e);
        SweepLive(s1, h, e, self, max);
      }
      SweepOneKeeps(s, g, f, self, max, x, L, A);
      if e != f {
        SweepKeeps(s1, h, e, self, max, x, L, A);
        RespectsTrans(s, s1, Sweep(s, g, f, self), x, self, L, A);
      }
    }
  }

  lemma CheckPrevKeeps(s: Store, g: nat, f: nat, self: nat, max: nat, x: nat, L: set<nat>, A: set<nat>)
    requires Inv(s, 0, max) && f in s.Gr(g).fes && self != 0
    requires A <= L <= CheckPrev(s, g, f, self).live && L <= s.live && self !in A
    ensures var t := CheckPrev(s, g, f, self);
      Inv(t, 0, max) && Respects(s, t, x, self, L, A) && SameBackends(s, t) && t.live <= s.live
      && (self in s.live ==> self in t.live)
  {
    FePrevFinds(s, g, f);
    var (h, e) := FePrev(s, g, f);
    SweepKeeps(s, h, e, self, max, x, L, A);
    SweepLive(s, h, e, self, max);
  }

  // ---- backend_check ----

  lemma SpawnFrames(s: Store, g: nat, child: nat, x: nat, self: nat, L: set<nat>, A: set<nat>)
    requires IsGr(s, g) && s.Gr(g).starting !in L && s.Gr(g).parent !in A
    ensures var t := Spawn(s, g, child);
      Respects(s, t, x, self, L, A) && SameBackends(s, t) && SameIndex(s, t) && SameQueues(s, t) && SameRunning(s, t)
  {
  }

  lemma SpawnKeeps(s: Store, g: nat, child: nat, max: nat, x: nat, self: nat, L: set<nat>, A: set<nat>)
    requires Inv(s, 0, max) && IsGr(s, g) && s.Gr(g).starting !in L && s.Gr(g).parent !in A
    ensures var t := Spawn(s, g, child);
      Inv(t, 0, max) && Respects(s, t, x, self, L, A) && SameBackends(s, t) && SameQueues(s, t) && SameRunning(s, t)
      && IsGr(t, g) && t.Gr(g) == s.Gr(g).(parent := child, starting := child) && t.live == s.live + {child}
  {
    var s1 := s.(live := s.live + {child});
    LiveFrames(s, s1.live, 0, max);
    PutGrWf(s1, g, s1.Gr(g).(parent := child, starting := child));
    SpawnFrames(s, g, child, x, self, L, A);
    FramesInv(s, Spawn(s, g, child), 0, max);
  }

  /** The last part of backend_check: ask the parent for a backend, or only ping it. */
  function CheckStart(s: Store, g: nat, max: nat): Store {
    if BelowMax(s, g, max) then
      var (t, ok) := StartBe(s, g);
      if ok then t.PutGr(g, t.Gr(g).(starting := t.Gr(g).parent)) else t
    else ParentSig(s, g).0
  }

  lemma CheckStartKeeps(s: Store, g: nat, max: nat, x: nat, self: nat, L: set<nat>, A: set<nat>)
    requires Inv(s, 0, max) && IsGr(s, g) && A <= L <= s.live && s.Gr(g).starting !in L
    ensures var t := CheckStart(s, g, max);
      Inv(t, 0, max) && Respects(s, t, x, self, L, A) && SameBackends(s, t) && SameQueues(s, t) && SameRunning(s, t)
      && IsGr(t, g) && t.live == s.live && t.Gr(g).starting in {s.Gr(g).starting, t.Gr(g).parent}
      && t.Gr(g).parent in {0, s.Gr(g).parent}
      && (s.Gr(g).parent in s.live ==> t.Gr(g).parent == s.Gr(g).parent)
  {
    if BelowMax(s, g, max) {
      StartBeKeeps(s, g, 0, max, x, self, L, A);
      var (t, ok) := StartBe(s, g);
      if ok {
        StartingKeeps(t, g, t.Gr(g).parent, 0, max, x, self, L, A);
        RespectsTrans(s, t, CheckStart(s, g, max), x, self, L, A);
      }
    } else {
      ParentSigKeeps(s, g, 0, max, x, self, L, A);
    }
  }

  function SpawnIfNone(s: Store, g: nat, child: nat): Store {
    if s.Gr(g).parent == 0 && child != 0 then Spawn(s, g, child) else s
  }

  lemma SpawnAndStartKeeps(s: Store, g: nat, max: nat, child: nat, x: nat, self: nat, L: set<nat>, A: set<nat>)
    requires Inv(s, 0, max) && IsGr(s, g) && A <= L <= s.live && 0 !in s.live && s.Gr(g).starting !in L && child !in L
    ensures var t := CheckStart(SpawnIfNone(s, g, child), g, max);
      Inv(t, 0, max) && Respects(s, t, x, self, L, A) && SameBackends(s, t) && SameQueues(s, t) && SameRunning(s, t)
      && IsGr(t, g) && s.live <= t.live <= s.live + ({child} - {0})
  {
    var s2 := SpawnIfNone(s, g, child);
    RespectsRefl(s, x, self, L, A);
    SameRefl(s);
    if s.Gr(g).parent == 0 && child != 0 { SpawnKeeps(s, g, child, max, x, self, L, A); }
    CheckStartKeeps(s2, g, max, x, self, L, A);
    RespectsTrans(s, s2, CheckStart(s2, g, max), x, self, L, A);
    FramesTrans(s, s2, CheckStart(s2, g, max));
  }

  /** backend_check starts a backend only when none is starting, and only below the limit. */
  lemma BackendCheckKeeps(s: Store, g: nat, did: bool, max: nat, child: nat, x: nat, self: nat, L: set<nat>,
      A: set<nat>)
    requires Inv(s, 0, max) && IsGr(s, g) && A <= L <= s.live && 0 !in s.live && child !in L
    ensures var t := BackendCheck(s, g, did, max, child).0;
      Inv(t, 0, max) && Respects(s, t, x, self, L, A) && SameBackends(s, t) && SameQueues(s, t) && SameRunning(s, t)
      && IsGr(t, g) && s.live <= t.live <= s.live + ({child} - {0})
  {
    hide Respects,Inv;
    BeStartingKeeps(s, g, 0, max, x, self, L, A);
    var (s1, p) := BeStarting(s, g);
    if p == 0 && !did {
      SpawnAndStartKeeps(s1, g, max, child, x, self, L, A);
      var t := CheckStart(SpawnIfNone(s1, g, child), g, max);
      RespectsTrans(s, s1, t, x, self, L, A);
      FramesTrans(s, s1, t);
      assert t == BackendCheck(s, g, did, max, child).0;
    }
  }

  // ---- one turn of the loop of get_a_backend_hard ----

  lemma SignalKeeps(s: Store, g: nat, f: nat, self: nat, max: nat, L: set<nat>, A: set<nat>)
    requires Inv(s, 0, max) && IsQueued(s, f) && s.m[f].fe.loc == Queue(g) && s.m[f].fe.pid == self
    requires A <= L <= s.live && self in L
    ensures var s1 := SendSigs(s, g); var t := ClearSent(s1, f);
      Inv(t, 0, max) && Respects(s, t, 0, self, L, A) && t.live == s.live
      && IsQueued(t, f) && t.m[f].fe.loc == Queue(g) && t.m[f].fe.pid == self && IsGr(t, g)
      && f in t.Gr(g).fes && (s1.Fe(f).sent ==> t.Gr(g).fes[0] == f)
  {
    SendSigsKeeps(s, g, 0, max, 0, self, L, A);
    var s1 := SendSigs(s, g);
    assert IsFe(s, f);
    assert IsQueued(s1, f) && s1.m[f].fe.loc == Queue(g) && s1.m[f].fe.pid == self;
    QueuedInGroup(s1, g, f);
    SentFlagInv(s1, f, false, 0, max);
    SentFlagFrames(s1, f, false, 0, self, L, A);
    RespectsTrans(s, s1, ClearSent(s1, f), 0, self, L, A);
    if s1.Fe(f).sent { SentIsHead(s1, g, f); }
  }

  /** A frontend is granted a backend only at the head of its queue. */
  lemma TryGetKeeps(s: Store, g: nat, f: nat, self: nat, max: nat, L: set<nat>, A: set<nat>)
    requires Inv(s, 0, max) && IsQueued(s, f) && s.m[f].fe.loc == Queue(g) && s.m[f].fe.pid == self
    requires A <= L <= s.live && 0 !in s.live && self in L
    ensures var (t, b) := TryGet(s, g, f);
      Inv(t, b, max) && Respects(s, t, 0, self, L, A) && t.live == s.live
      && IsQueued(t, f) && t.m[f].fe.loc == Queue(g) && t.m[f].fe.pid == self && IsGr(t, g) && f in t.Gr(g).fes
      && (b != 0 ==> Grabbed(t, g, b) && t.Gr(g).starting !in L && t.Gr(g).fes[0] == f)
  {
    SignalKeeps(s, g, f, self, max, L, A);
    var s1 := SendSigs(s, g);
    var s2 := ClearSent(s1, f);
    if s1.Fe(f).sent {
      BeWaitGetKeeps(s2, g, max, 0, self, L, A);
      BeWaitGetGrabs(s2, g);
      RespectsTrans(s, s2, BeWaitGet(s2, g).0, 0, self, L, A);
    }
  }

  lemma QueuedInGroup(s: Store, g: nat, f: nat)
    requires Wf(s) && IsQueued(s, f) && s.m[f].fe.loc == Queue(g)
    ensures IsGr(s, g) && f in s.Gr(g).fes
  {
    assert Home(s, f) == FeList(g) && f in ListOf(s, FeList(g));
  }

  lemma SentIsHead(s: Store, g: nat, f: nat)
    requires SentAtHead(s) && f in s.Gr(g).fes && s.Fe(f).sent
    ensures s.Gr(g).fes[0] == f
  {
    var l := s.Gr(g).fes;
    if l[0] != f { assert Precedes(l, l[0], f); }
  }

  lemma BeWaitGetGrabs(s: Store, g: nat)
    requires Wf(s) && IsGr(s, g) && 0 !in s.live
    ensures var (t, b) := BeWaitGet(s, g); b != 0 ==> Grabbed(t, g, b)
  {
    var (s1, x) := BeStarting(s, g);
    if x == 0 && s.Gr(g).starting !in s.live { PutGrWf(s, g, s.Gr(g).(starting := 0)); }
    var l := s1.Gr(g).bes;
    if l != [] && x == 0 && s1.Be(l[0]).feRunning == 0 {
      assert l[0] in ListOf(s1, BeList(g)) && Home(s1, l[0]) == BeList(g);
      assert MoveTail(l, l[0])[|MoveTail(l, l[0])| - 1] == l[0];
    }
  }

  lemma PingLive(s: Store, g: nat, f: nat, self: nat, did: bool, max: nat, child: nat)
    requires Inv(s, 0, max) && IsQueued(s, f) && s.m[f].fe.loc == Queue(g) && s.m[f].fe.pid == self
    requires self in s.live && 0 !in s.live
    ensures CheckPrev(s, g, f, self).live <= s.live && self in CheckPrev(s, g, f, self).live
    ensures Ping(s, g, f, self, did, max, child).0.live <= CheckPrev(s, g, f, self).live + ({child} - {0})
    ensures CheckPrev(s, g, f, self).live <= Ping(s, g, f, self, did, max, child).0.live
  {
    QueuedInGroup(s, g, f);
    CheckPrevKeeps(s, g, f, self, max, 0, {}, {});
    CheckPrevKeeps(s, g, f, self, max, 0, {self}, {});
    var s1 := CheckPrev(s, g, f, self);
    assert IsFe(s, f);
    assert IsQueued(s1, f) && s1.m[f].fe.loc == Queue(g);
    QueuedInGroup(s1, g, f);
    BackendCheckKeeps(s1, g, did, max, child, 0, self, {}, {});
  }

  lemma PingKeeps(s: Store, g: nat, f: nat, self: nat, did: bool, max: nat, child: nat, L: set<nat>, A: set<nat>)
    requires Inv(s, 0, max) && IsQueued(s, f) && s.m[f].fe.loc == Queue(g) && s.m[f].fe.pid == self
    requires A <= L <= Ping(s, g, f, self, did, max, child).0.live && L <= s.live && 0 !in s.live
    requires self in L && self !in A && child !in s.live
    ensures var t := Ping(s, g, f, self, did, max, child).0;
      Inv(t, 0, max) && Respects(s, t, 0, self, L, A) && SameBackends(s, t) && t.live <= s.live + ({child} - {0})
      && IsQueued(t, f) && t.m[f].fe.loc == Queue(g) && t.m[f].fe.pid == self
  {
    QueuedInGroup(s, g, f);
    var s1 := CheckPrev(s, g, f, self);
    PingLive(s, g, f, self, did, max, child);
    CheckPrevKeeps(s, g, f, self, max, 0, L, A);
    assert IsFe(s, f);
    assert IsQueued(s1, f) && s1.m[f].fe.loc == Queue(g) && s1.m[f].fe.pid == self;
    QueuedInGroup(s1, g, f);
    if s1.Gr(g).fes[0] == f {
      BackendCheckKeeps(s1, g, did, max, child, 0, self, L, A);
      var t := BackendCheck(s1, g, did, max, child).0;
      RespectsTrans(s, s1, t, 0, self, L, A);
    }
  }
}
