/** The invariant of the whole system, and that every event keeps it. */
module Safety {
  import opened Lists
  import opened Store
  import opened Conservation
  import opened Sections
  import opened Invariants
  import opened Respect
  import opened Keeping
  import opened Granting
  import opened Groups
  import opened Sweeping
  import opened FrontendSide
  import opened BackendSide
  import opened Footprint
  import opened Protocol

  ghost predicate Owned(y: Sys) {
    forall p {:trigger Pc(y, p)} :: p in y.s.live ==> Holds(y.s, p, Pc(y, p))
  }

  ghost predicate SysInv(y: Sys, max: nat) {
    && Inv(y.s, 0, max) && NoHand(y.s) && Owned(y)
    && 0 !in y.s.live && y.s.live <= y.proc.Keys && y.s.alloced < MAX_SLOTS
  }

  /** The slot a process owns between its sections. */
  function OwnSlot(pc: Proc): nat {
    match pc
    case FQueued(_, f, _) => f
    case FRunning(f) => f
    case PServing(g) => g
    case BFresh(_, b) => b
    case BWaiting(_, b) => b
    case BBusy(_, b) => b
    case _ => 0
  }

  /** Those alive from before the event until after it, and those among them that serve. */
  function Lasting(y: Sys, t: Store): set<nat> { y.s.live * t.live }
  function Lastingly(y: Sys, t: Store): set<nat> { Serving(y) * t.live }

  function ChildOf(e: Event): nat { if Forks(e) then e.child else 0 }

  /** What is to be shown of the effect of one event. */
  ghost predicate Sound(y: Sys, e: Event, max: nat) {
    var (t, pc, born) := Effect(y, e, max);
    && Inv(t, 0, max) && NoHand(t) && t.alloced <= y.s.alloced + 4
    && Fair(y.s, t, OwnSlot(Pc(y, e.pid)), e.pid, Lasting(y, t), Lastingly(y, t))
    && (e.pid in t.live ==> Holds(t, e.pid, pc))
    && 0 !in t.live && t.live <= y.s.live + {e.pid, ChildOf(e)}
    && (ChildOf(e) in t.live - y.s.live ==> Holds(t, ChildOf(e), born))
  }

  lemma HandStays(s: Store, t: Store)
    requires NoHand(s) && forall n :: IsHand(t, n) ==> IsHand(s, n)
    ensures NoHand(t)
  {
    forall n ensures !IsHand(t, n) { assert !IsHand(s, n); }
  }

  lemma LiveSound(y: Sys, e: Event, max: nat)
    requires SysInv(y, max) && Possible(y, e) && (e.Come? || e.Die? || e.Quit?)
    ensures Sound(y, e, max)
  {
    var t := Effect(y, e, max).0;
    LiveFrames(y.s, t.live, 0, max);
    LiveRespects(y.s, t.live, OwnSlot(Pc(y, e.pid)), e.pid, Lasting(y, t), Lastingly(y, t));
    HandStays(y.s, t);
  }

  lemma RequestSound(y: Sys, e: Event, max: nat)
    requires SysInv(y, max) && Possible(y, e) && e.Request?
    ensures Sound(y, e, max)
  {
    hide Inv, Fair, NoHand, ConnectSection, ConnectGets;
    var s, p, cleaned := y.s, e.pid, Pc(y, e.pid).cleaned;
    var t := Effect(y, e, max).0;
    ConnectLive(s, p, cleaned, e.key, e.opt, max, e.child, e.c);
    ConnectTakes(s, p, cleaned, e.key, e.opt, max, e.child, e.c);
    ConnectKeeps(s, p, cleaned, e.key, e.opt, max, e.child, e.c, Lasting(y, t), Lastingly(y, t));
  }

  lemma WakeSound(y: Sys, e: Event, max: nat)
    requires SysInv(y, max) && Possible(y, e) && e.Wake?
    ensures Sound(y, e, max)
  {
    hide Inv, Fair, NoHand, WakeSection, TryGet;
    var s, p, pc := y.s, e.pid, Pc(y, e.pid);
    var t := Effect(y, e, max).0;
    assert Holds(s, p, pc);
    WakeLive(s, pc.g, pc.f, p, pc.didSpawn, e.changed, max, e.child, e.c);
    WakeTakes(s, pc.g, pc.f, p, pc.didSpawn, e.changed, max, e.child, e.c);
    HandStays(s, t);
    WakeKeeps(s, pc.g, pc.f, p, pc.didSpawn, e.changed, max, e.child, e.c, Lasting(y, t), Lastingly(y, t));
  }

  lemma CollectSound(y: Sys, e: Event, max: nat)
    requires SysInv(y, max) && Possible(y, e) && e.Collect?
    ensures Sound(y, e, max)
  {
    hide Fair, NoHand, CollectStatus;
    var s, p, pc := y.s, e.pid, Pc(y, e.pid);
    var t := Effect(y, e, max).0;
    assert Holds(s, p, pc);
    CollectStatusTakes(s, pc.f);
    HandStays(s, t);
    CollectStatusKeeps(s, pc.f, p, max, s.live, Serving(y));
    assert Lasting(y, t) == s.live && Lastingly(y, t) == Serving(y);
  }

  lemma StartSound(y: Sys, e: Event, max: nat)
    requires SysInv(y, max) && Possible(y, e) && e.Start?
    ensures Sound(y, e, max)
  {
    hide Inv, Fair, NoHand, ParentStart;
    var s, p := y.s, e.pid;
    var t := Effect(y, e, max).0;
    ParentStartKeeps(s, p, e.key, e.opt, max, e.child, s.live, Serving(y));
    ParentStartTakes(s, p, e.key, e.opt, max, e.child);
    assert Lasting(y, t) == s.live && Lastingly(y, t) == Serving(y);
  }

  lemma TendedSound(y: Sys, e: Event, max: nat)
    requires SysInv(y, max) && Possible(y, e) && e.Tended?
    ensures Sound(y, e, max)
  {
    hide Inv, Fair, NoHand, ParentWake;
    var s, p, pc := y.s, e.pid, Pc(y, e.pid);
    var t := Effect(y, e, max).0;
    assert Holds(s, p, pc);
    ParentWakeTakes(s, pc.g, p, e.es, e.usr1, e.alrm, max, e.child);
    HandStays(s, t);
    ParentWakeKeeps(s, pc.g, p, e.es, e.usr1, e.alrm, max, e.child, s.live, Serving(y));
    assert Lasting(y, t) == s.live && Lastingly(y, t) == Serving(y);
  }

  /** The backend is done with a request: it is unlinked from its frontend. */
  lemma ServedKeeps(s: Store, b: nat, val: int, self: nat, max: nat, L: set<nat>, A: set<nat>)
    requires Inv(s, 0, max) && IsBe(s, b) && s.m[b].be.pid == self && s.m[b].be.feRunning != 0 && L <= s.live
    ensures var t := Exited(s, b, false, val);
      && Inv(t, 0, max) && Respects(s, t, b, self, L, A) && Quiet(s, t) && t.live == s.live
      && IsBe(t, b) && t.m[b].be == s.m[b].be.(feRunning := b)
  {
    ExitedInv(s, b, false, val, 0, max);
    ExitedRespects(s, b, false, val, b, self, L, A);
    ExitedEffect(s, b, false, val);
    ExitedQuiet(s, b, false, val);
  }

  lemma LoopKeeps(s: Store, g: nat, b: nat, p: nat, orphan: bool, m: nat, max: nat, L: set<nat>, A: set<nat>)
    requires Inv(s, 0, max) && Holds(s, p, BFresh(g, b)) && L <= s.live
    ensures var (t, next) := Loop(s, g, b, p, orphan, m);
      Inv(t, 0, max) && Respects(s, t, b, p, L, A) && Quiet(s, t) && t.live == s.live && Holds(t, p, next)
  {
    hide Inv, Respects, GoIdle;
    RespectsRefl(s, b, p, L, A);
    if !orphan && s.Valid(g) {
      GoIdleTakes(s, g, b, p, m, max);
      GoIdleKeeps(s, g, b, p, m, max, L, A);
    }
  }

  lemma LastRunKeeps(s: Store, g: nat, b: nat, p: nat, max: nat, L: set<nat>, A: set<nat>)
    requires Inv(s, 0, max) && Holds(s, p, BFresh(g, b)) && A <= L <= s.live
    ensures var t := if s.Valid(g) then StartBe(s, g).0 else s;
      Inv(t, 0, max) && Respects(s, t, b, p, L, A) && Quiet(s, t) && t.live == s.live
  {
    hide Respects, StartBe;
    RespectsRefl(s, b, p, L, A);
    OnOneList(s, g, b);
    StartBeQuiet(s, g);
    StartBeKeeps(s, g, 0, max, b, p, L, A);
  }

  lemma RunOverKeeps(s: Store, g: nat, b: nat, p: nat, val: int, again: bool, orphan: bool, max: nat, L: set<nat>,
      A: set<nat>)
    requires Inv(s, 0, max) && Holds(s, p, BBusy(g, b)) && A <= L <= s.live
    ensures var (t, next) := RunOver(s, g, b, p, val, again, orphan);
      Inv(t, 0, max) && Respects(s, t, b, p, L, A) && Quiet(s, t) && t.live == s.live && Holds(t, p, next)
  {
    hide Inv, Respects, Quiet, Exited, Loop, StartBe;
    ServedKeeps(s, b, val, p, max, L, A);
    var s1 := Exited(s, b, false, val);
    var t := RunOver(s, g, b, p, val, again, orphan).0;
    if again { LoopKeeps(s1, g, b, p, orphan, 2, max, L, A); } else { LastRunKeeps(s1, g, b, p, max, L, A); }
    RespectsTrans(s, s1, t, b, p, L, A);
    QuietTrans(s, s1, t);
  }

  lemma QuietTrans(s: Store, t: Store, u: Store)
    requires Quiet(s, t) && Quiet(t, u)
    ensures Quiet(s, u)
  {
    forall n | IsHand(u, n) ensures IsHand(s, n) { assert IsHand(t, n); }
  }

  lemma ReadySound(y: Sys, e: Event, max: nat)
    requires SysInv(y, max) && Possible(y, e) && e.Ready?
    ensures Sound(y, e, max)
  {
    hide Inv, Fair, NoHand, Loop;
    var s, p, pc := y.s, e.pid, Pc(y, e.pid);
    var t := Effect(y, e, max).0;
    assert Holds(s, p, pc);
    LoopKeeps(s, pc.g, pc.b, p, e.orphan, 1, max, s.live, Serving(y));
    HandStays(s, t);
    RespectsFair(s, t, pc.b, p, s.live, Serving(y));
    assert Lasting(y, t) == s.live && Lastingly(y, t) == Serving(y);
  }

  lemma AcceptSound(y: Sys, e: Event, max: nat)
    requires SysInv(y, max) && Possible(y, e) && e.Accept?
    ensures Sound(y, e, max)
  {
    hide Fair, NoHand, Accepted;
    var s, p, pc := y.s, e.pid, Pc(y, e.pid);
    var t := Effect(y, e, max).0;
    assert Holds(s, p, pc);
    RespectsRefl(s, pc.b, p, s.live, Serving(y));
    if s.Valid(pc.g) {
      OnOneList(s, pc.g, pc.b);
      AcceptedTakes(s, pc.g, p, max);
      AcceptedKeeps(s, pc.g, pc.b, p, max, s.live, Serving(y));
    }
    HandStays(s, t);
    RespectsFair(s, t, pc.b, p, s.live, Serving(y));
    assert Lasting(y, t) == s.live && Lastingly(y, t) == Serving(y);
  }

  lemma FinishedSound(y: Sys, e: Event, max: nat)
    requires SysInv(y, max) && Possible(y, e) && e.Finished?
    ensures Sound(y, e, max)
  {
    hide Inv, Fair, NoHand, RunOver;
    var s, p, pc := y.s, e.pid, Pc(y, e.pid);
    var t := Effect(y, e, max).0;
    assert Holds(s, p, pc);
    RunOverKeeps(s, pc.g, pc.b, p, e.val, e.again, e.orphan, max, s.live, Serving(y));
    HandStays(s, t);
    RespectsFair(s, t, pc.b, p, s.live, Serving(y));
    assert Lasting(y, t) == s.live && Lastingly(y, t) == Serving(y);
  }

  lemma EventSound(y: Sys, e: Event, max: nat)
    requires SysInv(y, max) && Possible(y, e)
    ensures Sound(y, e, max)
  {
    match e
    case Come(_) => LiveSound(y, e, max);
    case Die(_) => LiveSound(y, e, max);
    case Quit(_) => LiveSound(y, e, max);
    case Request(_, _, _, _, _) => RequestSound(y, e, max);
    case Wake(_, _, _, _) => WakeSound(y, e, max);
    case Collect(_) => CollectSound(y, e, max);
    case Start(_, _, _, _) => StartSound(y, e, max);
    case Tended(_, _, _, _, _) => TendedSound(y, e, max);
    case Ready(_, _) => ReadySound(y, e, max);
    case Accept(_) => AcceptSound(y, e, max);
    case Finished(_, _, _, _) => FinishedSound(y, e, max);
  }

  // ---- ownership ----

  /** The slot is the process's own. */
  predicate Mine(s: Store, x: nat, p: nat) {
    && (IsFe(s, x) ==> s.m[x].fe.pid == p)
    && (IsBe(s, x) ==> s.m[x].be.pid == p)
    && (IsGr(s, x) ==> s.m[x].gr.parent == p)
  }

  /** What a process counts on survives a fair section of another one. */
  lemma HoldsStill(s: Store, t: Store, x: nat, self: nat, L: set<nat>, A: set<nat>, p: nat, pc: Proc)
    requires Fair(s, t, x, self, L, A) && Mine(s, x, self) && p != self && p in L && (Serves(pc) ==> p in A)
    requires Holds(s, p, pc)
    ensures Holds(t, p, pc)
  {
    match pc
    case FQueued(g, f, _) => assert IsFe(s, f);
    case FRunning(f) => assert IsFe(s, f);
    case _ =>
  }

  lemma OwnedStill(y: Sys, e: Event, max: nat)
    requires SysInv(y, max) && Possible(y, e) && Sound(y, e, max)
    ensures Owned(Next(y, e, max))
  {
    var (t, pc, born) := Effect(y, e, max);
    var z := Next(y, e, max);
    NoZero(y.s);
    assert Mine(y.s, OwnSlot(Pc(y, e.pid)), e.pid) by {
      if e.pid in y.s.live { assert Holds(y.s, e.pid, Pc(y, e.pid)); }
    }
    forall p | p in t.live ensures Holds(t, p, Pc(z, p)) {
      if p != e.pid && p in y.s.live {
        assert Pc(z, p) == Pc(y, p);
        assert Holds(y.s, p, Pc(y, p));
        HoldsStill(y.s, t, OwnSlot(Pc(y, e.pid)), e.pid, Lasting(y, t), Lastingly(y, t), p, Pc(y, p));
      }
    }
  }

  /** Every event keeps the invariant of the system. */
  lemma StepKeeps(y: Sys, e: Event, max: nat)
    requires SysInv(y, max) && Enabled(y, e, max)
    ensures SysInv(Next(y, e, max), max)
  {
    EventSound(y, e, max);
    OwnedStill(y, e, max);
    NextLive(y, e, max);
  }

  lemma NextLive(y: Sys, e: Event, max: nat)
    requires y.s.live <= y.proc.Keys && Enabled(y, e, max)
    requires var t := Effect(y, e, max).0; t.live <= y.s.live + {e.pid, ChildOf(e)}
    requires 0 !in Effect(y, e, max).0.live
    ensures Next(y, e, max).s.live <= Next(y, e, max).proc.Keys
  {
  }
}
