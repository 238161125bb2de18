/** The frontend's critical sections keep the invariant and respect the other processes. */
module FrontendSide {
  import opened Lists
  import opened Store
  import opened Conservation
  import opened Invariants
  import opened Respect
  import opened Keeping
  import opened Granting
  import opened Groups
  import opened Scripts
  import opened InTheHand
  import opened Sections
  import opened Sweeping

  /** What the outcome says of the frontend's slot. */
  predicate Stands(t: Store, o: Outcome, self: nat) {
    match o
    case Queued(g, f, _) => IsQueued(t, f) && t.m[f].fe.loc == Queue(g) && t.m[f].fe.pid == self
    case Running(f) => IsRun(t, f) && t.m[f].fe.pid == self
    case Retry => true
    case Done => true
  }

  lemma FinishLive(s: Store, g: nat, f: nat, b: nat, c: Connect)
    ensures Finish(s, g, f, b, c).live == s.live
  {
  }

  lemma CleanupHeld(s: Store, g: nat, f: nat, self: nat)
    requires Wf(s) && IsGr(s, g) && Held(s, f, self)
    ensures Held(Cleanup(s, g, self), f, self)
  {
    CleanupFe(s, g, self, f);
  }

  /** Settling without a backend. */
  lemma SettleNone(s: Store, g: nat, f: nat, c: Connect, self: nat, max: nat, L: set<nat>, A: set<nat>)
    requires Inv(s, 0, max) && IsGr(s, g) && Held(s, f, self)
    requires A <= L <= Settle(s, g, f, self, 0, c).live && L <= s.live && self !in A
    ensures var t := Settle(s, g, f, self, 0, c);
      Inv(t, 0, max) && Respects(s, t, f, self, L, A) && t.live <= s.live
  {
    var s1 := Cleanup(s, g, self);
    FinishLive(s1, g, f, 0, c);
    CleanupKeeps(s, g, 0, max, f, self, L, A);
    CleanupHeld(s, g, f, self);
    CleanupEffect(s, g, self);
    FinishKeeps(s1, g, f, 0, c, self, max, L, A);
    RespectsTrans(s, s1, Settle(s, g, f, self, 0, c), f, self, L, A);
  }

  /** Settling with a grabbed backend: the clean-up does nothing. */
  lemma SettleGranted(s: Store, g: nat, f: nat, b: nat, c: Connect, self: nat, max: nat, L: set<nat>, A: set<nat>)
    requires Inv(s, b, max) && Held(s, f, self) && Grabbed(s, g, b) && s.Gr(g).starting !in L && L <= s.live
    requires MayFail(s, b, c, A)
    ensures var t := Settle(s, g, f, self, b, c);
      Inv(t, 0, max) && Respects(s, t, f, self, L, A) && t.live == s.live && Stands(t, Settled(f, b, c, true), self)
  {
    assert Cleanup(s, g, self) == s;
    FinishLive(s, g, f, b, c);
    FinishKeeps(s, g, f, b, c, self, max, L, A);
  }

  lemma RespectsWeaken(s: Store, t: Store, x: nat, self: nat, L: set<nat>, A: set<nat>)
    requires Respects(s, t, 0, self, L, A)
    requires x in s.m ==> !IsBe(s, x) && !IsGr(s, x)
    requires 0 !in s.m
    ensures Respects(s, t, x, self, L, A)
  {
  }

  /** The hypotheses under which a connection may be reported to fail: the backend at the
      head of the list of g, if it is waiting, does not serve any more. */
  predicate MayFail(s: Store, b: nat, c: Connect, A: set<nat>) {
    b != 0 && c == Failed ==> s.Be(b).pid !in A
  }

  lemma LeaveGrabbed(s: Store, g: nat, f: nat, b: nat)
    requires Grabbed(s, g, b) && IsQueued(s, f)
    ensures var t := Leave(s, g, f);
      Grabbed(t, g, b) && t.Be(b) == s.Be(b) && t.Gr(g).starting == s.Gr(g).starting
  {
  }

  lemma QueueTurnGranted(s: Store, g: nat, f: nat, self: nat, b: nat, c: Connect, max: nat, L: set<nat>, A: set<nat>)
    requires Inv(s, b, max) && IsQueued(s, f) && s.m[f].fe.loc == Queue(g) && s.m[f].fe.pid == self
    requires Grabbed(s, g, b) && s.Gr(g).starting !in L && L <= s.live && MayFail(s, b, c, A)
    ensures var t := Settle(Leave(s, g, f), g, f, self, b, c);
      Inv(t, 0, max) && Respects(s, t, f, self, L, A) && t.live == s.live && Stands(t, Settled(f, b, c, true), self)
  {
    LeaveKeeps(s, g, f, self, b, max, L, A);
    LeaveGrabbed(s, g, f, b);
    var s1 := Leave(s, g, f);
    SettleGranted(s1, g, f, b, c, self, max, L, A);
    RespectsTrans(s, s1, Settle(s1, g, f, self, b, c), f, self, L, A);
  }

  lemma QueueTurnNone(s: Store, g: nat, f: nat, self: nat, c: Connect, max: nat, L: set<nat>, A: set<nat>)
    requires Inv(s, 0, max) && IsQueued(s, f) && s.m[f].fe.loc == Queue(g) && s.m[f].fe.pid == self
    requires A <= L <= Settle(Leave(s, g, f), g, f, self, 0, c).live && L <= s.live && self !in A
    ensures var t := Settle(Leave(s, g, f), g, f, self, 0, c);
      Inv(t, 0, max) && Respects(s, t, f, self, L, A) && t.live <= s.live
  {
    LeaveKeeps(s, g, f, self, 0, max, L, A);
    var s1 := Leave(s, g, f);
    SettleNone(s1, g, f, c, self, max, L, A);
    RespectsTrans(s, s1, Settle(s1, g, f, self, 0, c), f, self, L, A);
  }

  lemma QueueTurnKeeps(s: Store, g: nat, f: nat, self: nat, did: bool, max: nat, child: nat, c: Connect,
                       L: set<nat>, A: set<nat>)
    requires Inv(s, 0, max) && IsQueued(s, f) && s.m[f].fe.loc == Queue(g) && s.m[f].fe.pid == self
    requires A <= L <= QueueTurn(s, g, f, self, did, max, child, c).0.live && L <= s.live && 0 !in s.live
    requires self in L && self !in A && child !in s.live
    requires var (t, b) := TryGet(s, g, f); MayFail(t, b, c, A)
    ensures var (t, o) := QueueTurn(s, g, f, self, did, max, child, c);
      Inv(t, 0, max) && Respects(s, t, f, self, L, A) && t.live <= s.live + ({child} - {0}) && Stands(t, o, self)
  {
    hide Respects,Bound,Sorted,SentAtHead,WithinMax,Indexed;
    TryGetKeeps(s, g, f, self, max, L, A);
    var (s1, b) := TryGet(s, g, f);
    NoZero(s);
    NoZero(s1);
    RespectsWeaken(s, s1, f, self, L, A);
    var (t, o) := QueueTurn(s, g, f, self, did, max, child, c);
    if b != 0 {
      QueueTurnGranted(s1, g, f, self, b, c, max, L, A);
    } else {
      QueueTurnPing(s1, g, f, self, did, max, child, c, L, A);
    }
    RespectsTrans(s, s1, t, f, self, L, A);
  }

  /** The turn after no backend was granted. */
  function AfterPing(s: Store, g: nat, f: nat, self: nat, did: bool, max: nat, child: nat, c: Connect)
    : (Store, Outcome)
  {
    var (t, working, did2) := Ping(s, g, f, self, did, max, child);
    if !working || !t.Valid(g) then (Settle(Leave(t, g, f), g, f, self, 0, c), Settled(f, 0, c, working))
    else (t, Queued(g, f, did2))
  }

  lemma QueueTurnPing(s: Store, g: nat, f: nat, self: nat, did: bool, max: nat, child: nat, c: Connect,
                      L: set<nat>, A: set<nat>)
    requires Inv(s, 0, max) && IsQueued(s, f) && s.m[f].fe.loc == Queue(g) && s.m[f].fe.pid == self
    requires A <= L <= AfterPing(s, g, f, self, did, max, child, c).0.live && L <= s.live && 0 !in s.live
    requires self in L && self !in A && child !in s.live
    ensures var (t, o) := AfterPing(s, g, f, self, did, max, child, c);
      Inv(t, 0, max) && Respects(s, t, f, self, L, A) && t.live <= s.live + ({child} - {0}) && Stands(t, o, self)
  {
    var (t, working, did2) := Ping(s, g, f, self, did, max, child);
    if !working || !t.Valid(g) { SettleLive(Leave(t, g, f), g, f, self, c); }
    PingKeeps(s, g, f, self, did, max, child, L, A);
    NoZero(s);
    RespectsWeaken(s, t, f, self, L, A);
    if !working || !t.Valid(g) {
      QueueTurnNone(t, g, f, self, c, max, L, A);
      RespectsTrans(s, t, Settle(Leave(t, g, f), g, f, self, 0, c), f, self, L, A);
    }
  }

  lemma SettleLive(s: Store, g: nat, f: nat, self: nat, c: Connect)
    ensures Settle(s, g, f, self, 0, c).live <= s.live
    ensures self in s.live ==> self in Settle(s, g, f, self, 0, c).live
  {
    FinishLive(Cleanup(s, g, self), g, f, 0, c);
    CleanupLive(s, g, self);
  }

  lemma CleanupLive(s: Store, g: nat, self: nat)
    ensures Cleanup(s, g, self).live <= s.live
    ensures self in s.live ==> self in Cleanup(s, g, self).live
  {
    InvalidateLive(s.(live := s.live - ({s.Gr(g).parent} - {self})), g);
  }

  lemma InvalidateLive(s: Store, g: nat)
    ensures Invalidate(s, g).live == s.live
  {
    FreeAllLive(s, s.Gr(g).scripts);
  }

  lemma {:induction false} FreeAllLive(s: Store, l: seq<nat>)
    ensures FreeAll(s, l).live == s.live
    decreases |l|
  {
    if l != [] { FreeAllLive(SlotFree(s, l[0]), l[1..]); }
  }

  // ---- speedy_frontend_clean_running ----

  /** Taking one dead frontend off the running list. */
  lemma CleanOneKeeps(s: Store, max: nat, x: nat, self: nat, L: set<nat>, A: set<nat>)
    requires Inv(s, 0, max) && L <= s.live && s.running != []
    requires s.Fe(s.running[|s.running| - 1]).pid !in s.live
    ensures var t := RemoveRunning(s, s.running[|s.running| - 1]);
      Inv(t, 0, max) && Respects(s, t, x, self, L, A) && SameGroups(s, t) && SameQueues(s, t)
      && t.live == s.live && t.alloced == s.alloced && |t.running| < |s.running|
  {
    var f := s.running[|s.running| - 1];
    assert f in ListOf(s, RunList) && Home(s, f) == RunList;
    assert f != 0;
    RemoveRunningInv(s, f, 0, max);
    RemoveRunningRespects(s, f, x, self, L, A);
    RemoveRunningFrames(s, f);
  }

  lemma {:induction false} CleanRunningKeeps(s: Store, max: nat, x: nat, self: nat, L: set<nat>, A: set<nat>)
    requires Inv(s, 0, max) && L <= s.live
    ensures var t := CleanRunning(s);
      Inv(t, 0, max) && Respects(s, t, x, self, L, A) && SameGroups(s, t) && SameQueues(s, t)
      && t.live == s.live && t.alloced == s.alloced
    decreases |s.running|
  {
    hide Inv, Respects, SameQueues;
    RespectsRefl(s, x, self, L, A);
    SameRefl(s);
    if s.running != [] {
      var f := s.running[|s.running| - 1];
      if s.Fe(f).pid !in s.live {
        CleanOneKeeps(s, max, x, self, L, A);
        var t := RemoveRunning(s, f);
        CleanRunningKeeps(t, max, x, self, L, A);
        RespectsTrans(s, t, CleanRunning(t), x, self, L, A);
        SameQueuesTrans(s, t, CleanRunning(t));
      }
    }
  }

  lemma SameQueuesTrans(s: Store, t: Store, u: Store)
    requires SameQueues(s, t) && SameQueues(t, u)
    ensures SameQueues(s, u)
  {
  }

  // ---- a new request ----

  /** The first part of a request: the running list cleaned, a slot allocated, the group found. */
  function Arrive(s: Store, self: nat, cleaned: bool, key: Key, opt: GroupOpt): (Store, nat, nat) {
    var s0 := if cleaned then s else CleanRunning(s);
    var (s1, f) := AllocFrontend(s0, self);
    var (s2, g) := ScriptFind(s1, key, opt);
    (s2, g, f)
  }

  lemma CleanedKeeps(s: Store, cleaned: bool, max: nat, x: nat, self: nat, L: set<nat>, A: set<nat>)
    requires Inv(s, 0, max) && L <= s.live
    ensures var t := if cleaned then s else CleanRunning(s);
      Inv(t, 0, max) && Respects(s, t, x, self, L, A) && SameGroups(s, t) && SameQueues(s, t)
      && t.live == s.live && t.alloced == s.alloced
  {
    if cleaned { RespectsRefl(s, x, self, L, A); SameRefl(s); } else { CleanRunningKeeps(s, max, x, self, L, A); }
  }

  lemma AllocatedFair(s: Store, s0: Store, self: nat, max: nat, L: set<nat>, A: set<nat>)
    requires Inv(s0, 0, max) && Respects(s, s0, 0, self, L, A) && SameGroups(s, s0) && SameQueues(s, s0) && 0 !in s.m
    ensures var (s1, f) := AllocFrontend(s0, self);
      Inv(s1, 0, max) && Fair(s, s1, f, self, L, A) && SameGroups(s, s1) && Unowned(s, f, L, A)
      && Held(s1, f, self) && s1.m[f].fe == NO_FRONTEND.(pid := self) && s1.live == s0.live
      && s1.alloced <= s0.alloced + 1
      && (forall h :: s1.Gr(h).fes == s.Gr(h).fes && f !in s.Gr(h).fes)
  {
    var (s1, f) := AllocFrontend(s0, self);
    AllocFrontendKeeps(s0, self, max, f, L, A);
    AllocFrom(s0, Fro(NO_FRONTEND.(pid := self)));
    FreshFrames(s0, NO_FRONTEND.(pid := self), s1, f);
    Unused(s0, f);
    assert !IsFe(s0, f) && !IsBe(s0, f) && !IsGr(s0, f);
    assert Unowned(s, f, L, A);
    ExceptMore(s, s0, f, self, L, A);
    RespectsFair(s, s0, f, self, L, A);
    FairTrans(s, s0, s1, f, self, L, A);
    forall h ensures f !in s.Gr(h).fes {
      assert ListOf(s0, FeList(h)) == s0.Gr(h).fes;
    }
    assert SameGroups(s0, s1) by {
      assert forall k :: k != f ==> s1.At(k) == s0.At(k);
      forall k | IsGr(s0, k) ensures IsGr(s1, k) { assert s1.At(k) == s0.At(k); }
    }
  }

  /** An exception more is a weaker claim. */
  lemma ExceptMore(s: Store, t: Store, x: nat, self: nat, L: set<nat>, A: set<nat>)
    requires Respects(s, t, 0, self, L, A) && 0 !in s.m
    ensures Respects(s, t, x, self, L, A)
  {
  }

  lemma ArriveKeeps(s: Store, self: nat, cleaned: bool, key: Key, opt: GroupOpt, max: nat, L: set<nat>, A: set<nat>)
    requires Inv(s, 0, max) && L <= s.live
    ensures var (t, g, f) := Arrive(s, self, cleaned, key, opt);
      Inv(t, 0, max) && Fair(s, t, f, self, L, A) && SameGroups(s, t) && Unowned(s, f, L, A)
      && Held(t, f, self) && t.m[f].fe == NO_FRONTEND.(pid := self) && t.live == s.live && t.alloced <= s.alloced + 4
      && IsGr(t, g) && t.Valid(g) && (forall h :: t.Gr(h).fes == s.Gr(h).fes && f !in s.Gr(h).fes)
  {
    NoZero(s);
    CleanedKeeps(s, cleaned, max, 0, self, L, A);
    var s0 := if cleaned then s else CleanRunning(s);
    AllocatedFair(s, s0, self, max, L, A);
    var (s1, f) := AllocFrontend(s0, self);
    ScriptFindKeeps(s1, key, opt, max);
    var (s2, g) := ScriptFind(s1, key, opt);
    GrownFair(s1, s2, f, self, L, A);
    FairTransGrow(s, s1, s2, f, self, L, A);
    assert s2.At(f) == s1.At(f);
  }

  /** The quick path: a backend without queueing, when nobody is queued. */
  function QuickGet(s: Store, g: nat): (Store, nat) {
    if s.Gr(g).fes == [] then BeWaitGet(s, g) else (s, 0)
  }

  lemma QuickGetKeeps(s: Store, g: nat, f: nat, self: nat, max: nat, L: set<nat>, A: set<nat>)
    requires Inv(s, 0, max) && IsGr(s, g) && L <= s.live && 0 !in s.live && Held(s, f, self)
    ensures var (t, b) := QuickGet(s, g);
      Inv(t, b, max) && Respects(s, t, f, self, L, A) && SameGroups(s, t) && t.live == s.live
      && Held(t, f, self) && t.m[f].fe == s.m[f].fe && IsGr(t, g) && SameQueues(s, t)
      && (b != 0 ==> Grabbed(t, g, b) && t.Gr(g).starting !in L && s.Gr(g).fes == [])
  {
    RespectsRefl(s, f, self, L, A);
    SameRefl(s);
    BeWaitGetKeeps(s, g, max, f, self, L, A);
    BeWaitGetGrabs(s, g);
    var t := BeWaitGet(s, g).0;
    assert forall k :: k != g ==> t.At(k) == s.At(k);
    forall k | IsGr(s, k) ensures IsGr(t, k) { assert k == g || t.At(k) == s.At(k); }
    assert t.At(f) == s.At(f);
  }

  /** Which backend a new request could be granted in this section, and in which store. */
  function ConnectGets(s: Store, self: nat, cleaned: bool, key: Key, opt: GroupOpt): (Store, nat) {
    var (s2, g, f) := Arrive(s, self, cleaned, key, opt);
    var (s3, b) := QuickGet(s2, g);
    if b != 0 then (s3, b) else TryGet(Join(s3, g, f), g, f)
  }

  lemma JoinQueue(s: Store, t: Store, g: nat, f: nat, self: nat, max: nat, L: set<nat>, A: set<nat>)
    requires Inv(t, 0, max) && Held(t, f, self) && t.m[f].fe == NO_FRONTEND.(pid := self) && IsGr(t, g)
    requires Fair(s, t, f, self, L, A) && SameGroups(s, t)
    requires forall h :: t.Gr(h).fes == s.Gr(h).fes && f !in s.Gr(h).fes
    ensures var u := Join(t, g, f);
      Inv(u, 0, max) && Fair(s, u, f, self, L, A) && SameGroups(s, u)
      && IsQueued(u, f) && u.m[f].fe.loc == Queue(g) && u.m[f].fe.pid == self
  {
    JoinInv(t, g, f, self, max);
    JoinFair(t, g, f, self, L, A);
    FairTransGrow(s, t, Join(t, g, f), f, self, L, A);
  }

  lemma ConnectKeeps(s: Store, self: nat, cleaned: bool, key: Key, opt: GroupOpt, max: nat, child: nat, c: Connect,
                     L: set<nat>, A: set<nat>)
    requires Inv(s, 0, max) && 0 !in s.live && self in L && self !in A && child !in s.live && L <= s.live
    requires A <= L <= ConnectSection(s, self, cleaned, key, opt, max, child, c).0.live
    requires var (t, b) := ConnectGets(s, self, cleaned, key, opt); MayFail(t, b, c, A)
    ensures var (t, o) := ConnectSection(s, self, cleaned, key, opt, max, child, c);
      Inv(t, 0, max) && Fair(s, t, 0, self, L, A) && t.live <= s.live + ({child} - {0}) && Stands(t, o, self)
  {
    ArriveKeeps(s, self, cleaned, key, opt, max, L, A);
    var (s2, g, f) := Arrive(s, self, cleaned, key, opt);
    QuickGetKeeps(s2, g, f, self, max, L, A);
    var (s3, b) := QuickGet(s2, g);
    var (t, o) := ConnectSection(s, self, cleaned, key, opt, max, child, c);
    FairTrans(s, s2, s3, f, self, L, A);
    assert SameGroups(s, s3);
    if b != 0 {
      SettleGranted(s3, g, f, b, c, self, max, L, A);
      FairTrans(s, s3, t, f, self, L, A);
    } else {
      JoinQueue(s, s3, g, f, self, max, L, A);
      QueueTurnKeeps(Join(s3, g, f), g, f, self, false, max, child, c, L, A);
      FairTrans(s, Join(s3, g, f), t, f, self, L, A);
    }
    FairNoException(s, t, f, self, L, A);
  }

  lemma WakeKeeps(s: Store, g: nat, f: nat, self: nat, did: bool, changed: bool, max: nat, child: nat, c: Connect,
                  L: set<nat>, A: set<nat>)
    requires Inv(s, 0, max) && IsQueued(s, f) && s.m[f].fe.loc == Queue(g) && s.m[f].fe.pid == self
    requires A <= L <= WakeSection(s, g, f, self, did, changed, max, child, c).0.live && L <= s.live
    requires 0 !in s.live && self in L && self !in A && child !in s.live
    requires s.Valid(g) && !changed ==> var (t, b) := TryGet(s, g, f); MayFail(t, b, c, A)
    ensures var (t, o) := WakeSection(s, g, f, self, did, changed, max, child, c);
      Inv(t, 0, max) && Fair(s, t, f, self, L, A) && t.live <= s.live + ({child} - {0}) && Stands(t, o, self)
  {
    if !s.Valid(g) || changed {
      QueueTurnNone(s, g, f, self, c, max, L, A);
    } else {
      QueueTurnKeeps(s, g, f, self, did, max, child, c, L, A);
    }
    RespectsFair(s, WakeSection(s, g, f, self, did, changed, max, child, c).0, f, self, L, A);
  }

  /** speedy_frontend_collect_status. */
  lemma CollectStatusKeeps(s: Store, f: nat, self: nat, max: nat, L: set<nat>, A: set<nat>)
    requires Inv(s, 0, max) && IsRun(s, f) && s.m[f].fe.pid == self && L <= s.live && self in s.live
    ensures var (t, done, _, _) := CollectStatus(s, f);
      Inv(t, 0, max) && Fair(s, t, f, self, L, A) && t.live == s.live
      && (!done ==> IsRun(t, f) && t.m[f].fe.pid == self)
  {
    var b := s.Fe(f).backend;
    var dead := b != 0 && s.Be(b).pid !in s.live;
    var s1 := if dead then Exited(s, b, true, SIGKILL) else s;
    RespectsRefl(s, f, self, L, A);
    if dead {
      ExitedInv(s, b, true, SIGKILL, 0, max);
      ExitedRespects(s, b, true, SIGKILL, f, self, L, A);
      ExitedShape(s, b, true, SIGKILL);
      assert s.m[b].be.feRunning == f;
    }
    assert IsRun(s1, f) && s1.m[f].fe.pid == self;
    if s1.Fe(f).backend == 0 {
      NoZero(s1);
      RemoveRunningInv(s1, f, 0, max);
      RemoveRunningRespects(s1, f, f, self, L, A);
      RespectsTrans(s, s1, RemoveRunning(s1, f), f, self, L, A);
    }
    RespectsFair(s, CollectStatus(s, f).0, f, self, L, A);
  }

  // ---- the lock holder stays alive ----

  lemma QueueTurnLive(s: Store, g: nat, f: nat, self: nat, did: bool, max: nat, child: nat, c: Connect)
    requires Inv(s, 0, max) && IsQueued(s, f) && s.m[f].fe.loc == Queue(g) && s.m[f].fe.pid == self
    requires self in s.live && 0 !in s.live && child !in s.live
    ensures self in QueueTurn(s, g, f, self, did, max, child, c).0.live
  {
    hide Respects,Inv;
    TryGetKeeps(s, g, f, self, max, {self}, {});
    var (s1, b) := TryGet(s, g, f);
    if b != 0 {
      FinishLive(Cleanup(Leave(s1, g, f), g, self), g, f, b, c);
      CleanupLive(Leave(s1, g, f), g, self);
    } else {
      PingLive(s1, g, f, self, did, max, child);
      var s2 := Ping(s1, g, f, self, did, max, child).0;
      SettleLive(Leave(s2, g, f), g, f, self, c);
    }
  }

  lemma ConnectLive(s: Store, self: nat, cleaned: bool, key: Key, opt: GroupOpt, max: nat, child: nat, c: Connect)
    requires Inv(s, 0, max) && 0 !in s.live && self in s.live && child !in s.live
    ensures self in ConnectSection(s, self, cleaned, key, opt, max, child, c).0.live
  {
    ArriveKeeps(s, self, cleaned, key, opt, max, {}, {});
    var (s2, g, f) := Arrive(s, self, cleaned, key, opt);
    QuickGetKeeps(s2, g, f, self, max, {}, {});
    var (s3, b) := QuickGet(s2, g);
    if b != 0 {
      FinishLive(Cleanup(s3, g, self), g, f, b, c);
      CleanupLive(s3, g, self);
    } else {
      JoinInv(s3, g, f, self, max);
      QueueTurnLive(Join(s3, g, f), g, f, self, false, max, child, c);
    }
  }

  lemma WakeLive(s: Store, g: nat, f: nat, self: nat, did: bool, changed: bool, max: nat, child: nat, c: Connect)
    requires Inv(s, 0, max) && IsQueued(s, f) && s.m[f].fe.loc == Queue(g) && s.m[f].fe.pid == self
    requires self in s.live && 0 !in s.live && child !in s.live
    ensures self in WakeSection(s, g, f, self, did, changed, max, child, c).0.live
  {
    SettleLive(Leave(s, g, f), g, f, self, c);
    QueueTurnLive(s, g, f, self, did, max, child, c);
  }
}
