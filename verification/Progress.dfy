/** What a turn of a queued frontend brings about: when a backend is asked for, when one is
    granted, and what stands for those who go on waiting. */
module Progress {
  import opened Lists
  import opened Store
  import opened Conservation
  import opened Sections
  import opened Invariants
  import opened Respect
  import opened Keeping
  import opened Granting
  import opened Groups
  import opened Choosing
  import opened InTheHand
  import opened Scripts
  import opened Sweeping
  import opened Neighbours
  import opened FrontendSide
  import opened BackendSide
  import opened Footprint
  import opened Protocol
  import opened Safety
  import opened Runs
  import opened Recency

  // ---- when a backend is asked for ----

  /** A parent process is there, or none was recorded and one can be forked. */
  predicate CanAsk(s: Store, g: nat, child: nat) {
    s.Gr(g).parent in s.live || (s.Gr(g).parent == 0 && child != 0)
  }

  /** The check looks further: nobody is starting, and this frontend has not asked yet. */
  predicate Checks(s: Store, g: nat, did: bool) {
    s.Gr(g).starting !in s.live && !did
  }

  /** The answer of backend_check is no exactly when this frontend has asked before and no starting
      process lives; a backend is asked for exactly when none is starting, this frontend has not
      asked, the group is below the limit and there is a parent process or one can be forked. */
  lemma CheckDecides(s: Store, g: nat, did: bool, max: nat, child: nat)
    requires Inv(s, 0, max) && IsGr(s, g) && 0 !in s.live && child !in s.live
    ensures var (t, ok, asked) := BackendCheck(s, g, did, max, child);
      && (!ok <==> did && s.Gr(g).starting !in s.live)
      && (asked <==> did || (Checks(s, g, did) && CanAsk(s, g, child) && (max == 0 || |s.Gr(g).bes| < max)))
  {
    hide Bound, Sorted, SentAtHead, WithinMax, Indexed;
    InvalidateEffect(s, g);
  }

  /** Asking the parent process, or only pinging it. */
  lemma StartLeaves(s: Store, g: nat, max: nat)
    requires Inv(s, 0, max) && IsGr(s, g) && 0 !in s.live
    requires s.Gr(g).parent in s.live || s.Gr(g).starting == 0
    ensures var t := CheckStart(s, g, max); var v := s.Gr(g);
      && t.live == s.live
      && (v.parent in s.live ==> t.groups == s.groups)
      && (v.parent in s.live ==> t.Gr(g) == v.(starting := if BelowMax(s, g, max) then v.parent else v.starting))
      && (v.parent !in s.live ==> !t.Valid(g) && t.Gr(g).parent == 0 && t.Gr(g).starting == 0)
  {
    hide Inv, Invalidate;
    InvalidateKeeps(s, g, 0, max, 0, 0, {}, {});
  }

  /** What backend_check leaves: whom it asks lives, is the parent process and is recorded as starting;
      without a parent process the group is invalid. */
  lemma CheckLeaves(s: Store, g: nat, did: bool, max: nat, child: nat)
    requires Inv(s, 0, max) && IsGr(s, g) && 0 !in s.live && child !in s.live
    ensures var (t, ok, asked) := BackendCheck(s, g, did, max, child);
      && (s.Gr(g).starting in s.live ==> t == s)
      && (did && s.Gr(g).starting !in s.live ==> t.groups == s.groups && t.Gr(g) == s.Gr(g).(starting := 0))
      && (Checks(s, g, did) && CanAsk(s, g, child) ==>
            && t.groups == s.groups && t.Gr(g).parent in t.live && t.Gr(g).starting in {0, t.Gr(g).parent}
            && t.Gr(g) == s.Gr(g).(parent := t.Gr(g).parent, starting := t.Gr(g).starting)
            && t.Gr(g).parent == (if s.Gr(g).parent == 0 then child else s.Gr(g).parent)
            && (asked ==> t.Gr(g).starting == t.Gr(g).parent))
      && (Checks(s, g, did) && !CanAsk(s, g, child) ==>
            !t.Valid(g) && t.Gr(g).parent == 0 && t.Gr(g).starting == 0)
      && t.live == s.live + if Checks(s, g, did) && s.Gr(g).parent == 0 && child != 0 then {child} else {}
  {
    hide Inv, CheckStart, BackendCheck;
    if s.Gr(g).starting in s.live || did { CheckIdle(s, g, did, max, child); }
    if Checks(s, g, did) {
      BeStartingKeeps(s, g, 0, max, 0, 0, {}, {});
      var s1 := BeStarting(s, g).0;
      var s2 := SpawnIfNone(s1, g, child);
      if s1.Gr(g).parent == 0 && child != 0 { SpawnKeeps(s1, g, child, max, 0, 0, {}, {}); }
      StartLeaves(s2, g, max);
      CheckTail(s, g, child, max);
      CheckDecides(s, g, did, max, child);
    }
  }

  lemma CheckIdle(s: Store, g: nat, did: bool, max: nat, child: nat)
    requires IsGr(s, g) && 0 !in s.live && (s.Gr(g).starting in s.live || did)
    ensures var t := BackendCheck(s, g, did, max, child).0;
      if s.Gr(g).starting in s.live then t == s else t == s.PutGr(g, s.Gr(g).(starting := 0))
  {
  }

  lemma CheckTail(s: Store, g: nat, child: nat, max: nat)
    requires s.Gr(g).starting !in s.live
    ensures BackendCheck(s, g, false, max, child).0 ==
            CheckStart(SpawnIfNone(BeStarting(s, g).0, g, child), g, max)
  {
    hide Invalidate;
  }

  // ---- when a backend is granted ----

  /** All that stand before f in its queue are dead. */
  ghost predicate FirstAlive(s: Store, g: nat, f: nat) {
    f in s.Gr(g).fes && s.Fe(f).pid in s.live && forall e :: Precedes(s.Gr(g).fes, e, f) ==> s.Fe(e).pid !in s.live
  }

  predicate SomeWaits(s: Store, g: nat) {
    exists b :: b in s.Gr(g).bes && s.Be(b).feRunning == 0
  }

  lemma DisposeHead(s: Store, g: nat, f: nat, max: nat)
    requires Inv(s, 0, max) && f in s.Gr(g).fes && s.Fe(f).pid in s.live
    requires s.Fe(s.Gr(g).fes[0]).pid !in s.live
    ensures var t := FrontendDispose(s, g, s.Gr(g).fes[0]);
      && Inv(t, 0, max) && f in t.Gr(g).fes && t.Fe(f) == s.Fe(f) && t.live == s.live
      && t.Gr(g) == s.Gr(g).(fes := t.Gr(g).fes) && |t.Gr(g).fes| < |s.Gr(g).fes|
      && (FirstAlive(t, g, f) <==> FirstAlive(s, g, f))
  {
    hide Bound, Sorted, SentAtHead, WithinMax, Indexed;
    var l := s.Gr(g).fes;
    var x := l[0];
    QueuedFe(s, g, x);
    QueuedFe(s, g, f);
    FrontendDisposeInv(s, g, x, 0, max);
    var t := FrontendDispose(s, g, x);
    assert IsGr(s, g) && t.Gr(g).fes == Without(l, x);
    forall e ensures Precedes(t.Gr(g).fes, e, f) <==> Precedes(l, e, f) && e != x { PrecedesWithout(l, x, e, f); }
    forall e | Precedes(l, e, f) && e != x ensures t.Fe(e) == s.Fe(e) { }
  }

  lemma {:induction false} DropDeadFirst(s: Store, g: nat, f: nat, max: nat)
    requires Inv(s, 0, max) && f in s.Gr(g).fes && s.Fe(f).pid in s.live
    ensures var t := DropDead(s, g);
      && t.Gr(g).fes != [] && (t.Gr(g).fes[0] == f <==> FirstAlive(s, g, f))
      && t.Gr(g) == s.Gr(g).(fes := t.Gr(g).fes) && t.Fe(f) == s.Fe(f)
    decreases |s.Gr(g).fes|
  {
    hide Inv, FirstAlive;
    var l := s.Gr(g).fes;
    if s.Fe(l[0]).pid in s.live {
      HeadFirst(s, g, f, max);
    } else {
      DisposeHead(s, g, f, max);
      DropDeadFirst(FrontendDispose(s, g, l[0]), g, f, max);
    }
  }

  lemma HeadFirst(s: Store, g: nat, f: nat, max: nat)
    requires Inv(s, 0, max) && f in s.Gr(g).fes && s.Fe(f).pid in s.live && s.Fe(s.Gr(g).fes[0]).pid in s.live
    ensures s.Gr(g).fes[0] == f <==> FirstAlive(s, g, f)
  {
    var l := s.Gr(g).fes;
    assert l == ListOf(s, FeList(g));
    if l[0] == f {
      forall e | Precedes(l, e, f) ensures false { PrecedesAsym(l, e, f); }
    } else {
      assert Precedes(l, l[0], f);
    }
  }

  /** In an ordered list some backend waits exactly if the first one does. */
  lemma HeadWaits(s: Store, g: nat, max: nat)
    requires Inv(s, 0, max)
    ensures SomeWaits(s, g) <==> s.Gr(g).bes != [] && s.Be(s.Gr(g).bes[0]).feRunning == 0
  {
    var l := s.Gr(g).bes;
    NoZero(s);
    if SomeWaits(s, g) {
      var b :| b in l && s.Be(b).feRunning == 0;
      if l[0] != b {
        assert Precedes(l, l[0], b);
        assert Ordered(s, l[0], b);
      }
    }
  }

  /** speedy_group_sendsigs marks the first live frontend of the queue if a backend waits, and nobody
      otherwise. */
  lemma SendSigsMarks(s: Store, g: nat, f: nat, max: nat)
    requires Inv(s, 0, max) && f in s.Gr(g).fes && s.Fe(f).pid in s.live
    ensures var t := SendSigs(s, g);
      && (t.Fe(f).sent <==> s.Fe(f).sent || (FirstAlive(s, g, f) && SomeWaits(s, g)))
      && t.Gr(g) == s.Gr(g).(fes := t.Gr(g).fes)
  {
    hide Inv, FirstAlive;
    HeadWaits(s, g, max);
    DropDeadFirst(s, g, f, max);
    DropDeadKeeps(s, g, 0, max, 0, 0, {}, {});
    HeadQueued(DropDead(s, g), g, max);
  }

  lemma HeadQueued(s: Store, g: nat, max: nat)
    requires Inv(s, 0, max) && s.Gr(g).fes != []
    ensures IsQueued(s, s.Gr(g).fes[0])
  {
    QueuedFe(s, g, s.Gr(g).fes[0]);
  }

  /** A queued frontend is granted a backend in its turn exactly if it is the first live one in the
      queue, a backend of the group waits and none is starting. */
  lemma TryGetExact(s: Store, g: nat, f: nat, self: nat, max: nat)
    requires Inv(s, 0, max) && IsQueued(s, f) && s.m[f].fe.loc == Queue(g) && s.m[f].fe.pid == self
    requires self in s.live && 0 !in s.live
    ensures TryGet(s, g, f).1 != 0 <==> FirstAlive(s, g, f) && SomeWaits(s, g) && s.Gr(g).starting !in s.live
  {
    hide Inv, FirstAlive, Respects, BeWaitGet, SendSigs;
    GroupOf(s, g, f, max);
    SendSigsMarks(s, g, f, max);
    SignalKeeps(s, g, f, self, max, {self}, {});
    Marked(s, g, f, self, max);
    var s2 := ClearSent(SendSigs(s, g), f);
    BeWaitGetExact(s2, g, max);
    if s.Fe(f).sent { MarkedFirst(s, g, f, max); }
  }

  lemma Marked(s: Store, g: nat, f: nat, self: nat, max: nat)
    requires Inv(s, 0, max) && IsQueued(s, f) && s.m[f].fe.loc == Queue(g) && s.m[f].fe.pid == self && self in s.live
    ensures var s1 := SendSigs(s, g); var t := ClearSent(s1, f);
      && t.live == s.live && t.Gr(g) == s1.Gr(g) && forall b :: t.Be(b).feRunning == 0 <==> s.Be(b).feRunning == 0
  {
    hide Inv, SendSigs;
    SendSigsKeeps(s, g, 0, max, 0, self, {self}, {});
    assert IsFe(s, f);
  }

  lemma GroupOf(s: Store, g: nat, f: nat, max: nat)
    requires Inv(s, 0, max) && IsQueued(s, f) && s.m[f].fe.loc == Queue(g)
    ensures IsGr(s, g) && f in s.Gr(g).fes && f != g
  {
    QueuedInGroup(s, g, f);
  }

  /** Who is marked already is the first one alive. */
  lemma MarkedFirst(s: Store, g: nat, f: nat, max: nat)
    requires Inv(s, 0, max) && f in s.Gr(g).fes && s.Fe(f).pid in s.live && s.Fe(f).sent
    ensures FirstAlive(s, g, f)
  {
    SentIsHead(s, g, f);
    HeadFirst(s, g, f, max);
  }

  lemma {:induction false} CleanRunningGroups(s: Store, max: nat)
    requires Inv(s, 0, max)
    ensures forall k :: IsGr(s, k) ==> CleanRunning(s).At(k) == s.At(k)
    decreases |s.running|
  {
    hide Inv, Respects;
    if s.running != [] {
      var f := s.running[|s.running| - 1];
      if s.Fe(f).pid !in s.live {
        LastRuns(s, f, max);
        RemoveGroups(s, f, max);
        CleanOneKeeps(s, max, 0, 0, {}, {});
        CleanRunningGroups(RemoveRunning(s, f), max);
      }
    }
  }

  lemma RemoveGroups(s: Store, f: nat, max: nat)
    requires Inv(s, 0, max) && IsRun(s, f)
    ensures forall k :: IsGr(s, k) ==> RemoveRunning(s, f).At(k) == s.At(k)
  {
  }

  lemma AllocatedSame(s: Store, self: nat, cleaned: bool, max: nat)
    requires Inv(s, 0, max)
    ensures var t := AllocFrontend(if cleaned then s else CleanRunning(s), self).0;
      && Inv(t, 0, max) && (forall k :: IsGr(s, k) ==> t.At(k) == s.At(k))
      && (forall e :: IsQueued(s, e) ==> t.At(e) == s.At(e))
  {
    hide Inv, Respects, CleanRunning, AllocFrontend, SameQueues;
    CleanRunningGroups(s, max);
    CleanedKeeps(s, cleaned, max, 0, self, {}, {});
    var s0 := if cleaned then s else CleanRunning(s);
    StillQueued(s, s0);
    AllocFrontendKeeps(s0, self, max, 0, {}, {});
    AllocSame(s0, self, max);
  }

  lemma StillQueued(s: Store, t: Store)
    requires SameQueues(s, t)
    ensures forall e :: IsQueued(s, e) ==> IsQueued(t, e) && t.At(e) == s.At(e)
  {
    forall e | IsQueued(s, e) ensures IsQueued(t, e) && t.At(e) == s.At(e) { assert t.m[e].fe == s.m[e].fe; }
  }

  /** Arriving leaves all queues and the records of starting processes alone. */
  lemma ArriveSame(s: Store, self: nat, cleaned: bool, key: Key, opt: GroupOpt, max: nat, g: nat)
    requires Inv(s, 0, max)
    ensures var t := Arrive(s, self, cleaned, key, opt).0;
      && (IsGr(s, g) ==> t.Gr(g).starting == s.Gr(g).starting)
      && (forall e :: IsQueued(s, e) ==> t.Fe(e) == s.Fe(e))
  {
    hide Inv, CleanRunning, AllocFrontend, ScriptFind, SameBackends, SameQueues, SameRunning;
    AllocatedSame(s, self, cleaned, max);
    var s1 := AllocFrontend(if cleaned then s else CleanRunning(s), self).0;
    ScriptFindKeeps(s1, key, opt, max);
    if IsGr(s, g) { assert s1.At(g) == s.At(g) && IsGr(s1, g); }
  }

  lemma AllocSame(s: Store, self: nat, max: nat)
    requires Inv(s, 0, max)
    ensures forall n :: n in s.m && !s.m[n].Free? ==> AllocFrontend(s, self).0.At(n) == s.At(n)
  {
    AllocFrom(s, Fro(NO_FRONTEND.(pid := self)));
  }

  /** All that queue at g are dead. */
  ghost predicate NoneAlive(s: Store, g: nat) {
    forall e :: e in s.Gr(g).fes ==> s.Fe(e).pid !in s.live
  }

  lemma SameOffers(s: Store, t: Store, g: nat, max: nat)
    requires Inv(s, 0, max) && SameIdle(s, t) && t.Gr(g).fes == s.Gr(g).fes && t.live == s.live
    requires forall e :: IsQueued(s, e) ==> t.Fe(e) == s.Fe(e)
    ensures (NoneAlive(t, g) <==> NoneAlive(s, g)) && (SomeWaits(t, g) <==> SomeWaits(s, g))
    ensures SomeWaits(s, g) ==> IsGr(s, g)
  {
    forall e | e in s.Gr(g).fes ensures t.Fe(e) == s.Fe(e) { QueuedFe(s, g, e); }
    if SomeWaits(s, g) {
      var b :| b in s.Gr(g).bes && s.Be(b).feRunning == 0;
      assert b in t.Gr(g).bes && t.Be(b).feRunning == 0;
    }
    if SomeWaits(t, g) {
      var b :| b in t.Gr(g).bes && t.Be(b).feRunning == 0;
      assert b in s.Gr(g).bes && s.Be(b).feRunning == 0;
    }
  }

  /** The queue with a frontend in the hand at its end. */
  lemma JoinedFirst(s: Store, g: nat, f: nat, self: nat)
    requires Held(s, f, self) && IsGr(s, g) && f !in s.Gr(g).fes && self in s.live
    ensures var t := Join(s, g, f);
      && (FirstAlive(t, g, f) <==> NoneAlive(s, g)) && (SomeWaits(t, g) <==> SomeWaits(s, g))
      && t.Gr(g).starting == s.Gr(g).starting && t.live == s.live
      && IsQueued(t, f) && t.m[f].fe.loc == Queue(g) && t.m[f].fe.pid == self
  {
    var t, l := Join(s, g, f), s.Gr(g).fes;
    forall e ensures Precedes(t.Gr(g).fes, e, f) <==> e in l {
      PrecedesSnoc(l, f, e, f);
      if Precedes(l, e, f) { PrecedesIn(l, e, f); }
    }
    forall e | e in l ensures t.Fe(e) == s.Fe(e) { }
    forall b ensures t.Be(b) == s.Be(b) { }
  }

  /** A quick look that grants nothing changes nothing but the record of a dead starting process. */
  lemma NothingGot(s: Store, g: nat, max: nat)
    requires Inv(s, 0, max) && IsGr(s, g) && 0 !in s.live && QuickGet(s, g).1 == 0
    ensures var t := QuickGet(s, g).0;
      && (NoneAlive(t, g) <==> NoneAlive(s, g)) && (SomeWaits(t, g) <==> SomeWaits(s, g))
      && (t.Gr(g).starting in s.live <==> s.Gr(g).starting in s.live) && t.live == s.live
      && t.Gr(g).fes == s.Gr(g).fes
  {
    hide Bound, Sorted, SentAtHead, WithinMax, Indexed;
    NoZero(s);
    var t := QuickGet(s, g).0;
    assert t.Gr(g) == s.Gr(g).(starting := t.Gr(g).starting);
    forall k ensures t.Fe(k) == s.Fe(k) && t.Be(k) == s.Be(k) { }
  }

  /** A new request is granted a backend at once exactly if nobody alive queues at its group, a backend
      of the group waits and none is starting. */
  lemma ConnectGetsExact(s: Store, self: nat, cleaned: bool, key: Key, opt: GroupOpt, max: nat)
    requires Inv(s, 0, max) && 0 !in s.live && self in s.live
    ensures var g := Arrive(s, self, cleaned, key, opt).1;
      ConnectGets(s, self, cleaned, key, opt).1 != 0 <==>
        NoneAlive(s, g) && SomeWaits(s, g) && s.Gr(g).starting !in s.live
  {
    hide Inv, Arrive, TryGet, Join, Fair, SameIdle, FirstAlive, BeWaitGet;
    ArriveKeeps(s, self, cleaned, key, opt, max, {}, {});
    ArriveIdle(s, self, cleaned, key, opt, max);
    var (s2, g, f) := Arrive(s, self, cleaned, key, opt);
    ArriveSame(s, self, cleaned, key, opt, max, g);
    SameOffers(s, s2, g, max);
    BeWaitGetExact(s2, g, max);
    if QuickGet(s2, g).1 == 0 {
      QuickGetKeeps(s2, g, f, self, max, {}, {});
      var s3 := QuickGet(s2, g).0;
      JoinInv(s3, g, f, self, max);
      NothingGot(s2, g, max);
      JoinedFirst(s3, g, f, self);
      TryGetExact(Join(s3, g, f), g, f, self, max);
    }
  }

  // ---- what stands for those who wait ----

  /** A frontend that goes on waiting: its group is valid, the frontend before it (itself, if it is
      alone) lives, and at the head of the queue a process is starting, or, if the frontend has not asked
      for one, the group has all the backends it may have and a live parent process. */
  ghost predicate Provided(s: Store, g: nat, f: nat, asked: bool, max: nat) {
    && s.Valid(g) && f in s.Gr(g).fes && s.Fe(FePrev(s, g, f).1).pid in s.live
    && (s.Gr(g).fes[0] == f ==>
          s.Gr(g).starting in s.live || (!asked && s.Gr(g).parent in s.live && 0 < max <= |s.Gr(g).bes|))
  }

  lemma CheckedPrev(s: Store, g: nat, f: nat, did: bool, max: nat, child: nat)
    requires Inv(s, 0, max) && f in s.Gr(g).fes && 0 !in s.live && child !in s.live
    requires var (t, ok, asked) := BackendCheck(s, g, did, max, child); ok && t.Valid(g)
    ensures var t := BackendCheck(s, g, did, max, child).0;
      FePrev(t, g, f) == FePrev(s, g, f) && t.Gr(g).fes == s.Gr(g).fes && t.live >= s.live
  {
    hide Inv, BackendCheck, Respects;
    HeadGroup(s, g, f, max);
    CheckDecides(s, g, did, max, child);
    CheckLeaves(s, g, did, max, child);
    BackendCheckKeeps(s, g, did, max, child, 0, 0, {}, {});
    LastSame(s, BackendCheck(s, g, did, max, child).0, Rotation(s.groups, g));
  }

  lemma HeadGroup(s: Store, g: nat, f: nat, max: nat)
    requires Inv(s, 0, max) && f in s.Gr(g).fes
    ensures IsGr(s, g)
  {
    QueuedFe(s, g, f);
  }

  /** The head of the queue after the check, if the check lets it wait. */
  lemma CheckedHead(s: Store, g: nat, did: bool, max: nat, child: nat)
    requires Inv(s, 0, max) && IsGr(s, g) && 0 !in s.live && child !in s.live
    requires var (t, ok, asked) := BackendCheck(s, g, did, max, child); ok && t.Valid(g)
    ensures var (t, _, asked) := BackendCheck(s, g, did, max, child);
      t.Gr(g).starting in t.live || (!asked && t.Gr(g).parent in t.live && 0 < max <= |t.Gr(g).bes|)
  {
    hide Inv, BackendCheck;
    CheckDecides(s, g, did, max, child);
    CheckLeaves(s, g, did, max, child);
  }

  lemma PingProvides(s: Store, g: nat, f: nat, self: nat, did: bool, max: nat, child: nat)
    requires Inv(s, 0, max) && IsQueued(s, f) && s.m[f].fe.loc == Queue(g) && s.m[f].fe.pid == self
    requires self in s.live && 0 !in s.live && child !in s.live
    requires var (t, ok, asked) := Ping(s, g, f, self, did, max, child); ok && t.Valid(g)
    ensures var (t, _, asked) := Ping(s, g, f, self, did, max, child);
      Provided(t, g, f, asked, max)
  {
    hide Inv, BackendCheck, CheckPrev, Respects, FePrev;
    GroupOf(s, g, f, max);
    PrevAlive(s, g, f, self, max);
    CheckPrevKeeps(s, g, f, self, max, 0, {}, {});
    var s1 := CheckPrev(s, g, f, self);
    HeadGroup(s1, g, f, max);
    if s1.Gr(g).fes[0] == f {
      CheckedPrev(s1, g, f, did, max, child);
      CheckedHead(s1, g, did, max, child);
      BackendCheckKeeps(s1, g, did, max, child, 0, 0, {}, {});
      PrevSame(s1, BackendCheck(s1, g, did, max, child).0, g, f, max);
    }
  }

  lemma PrevSame(s: Store, t: Store, g: nat, f: nat, max: nat)
    requires Inv(s, 0, max) && f in s.Gr(g).fes && SameQueues(s, t)
    ensures t.Fe(FePrev(s, g, f).1) == s.Fe(FePrev(s, g, f).1)
  {
    FePrevFinds(s, g, f);
    var (h, e) := FePrev(s, g, f);
    QueuedFe(s, h, e);
    assert IsQueued(t, e);
  }

  lemma TurnProvides(s: Store, g: nat, f: nat, self: nat, did: bool, max: nat, child: nat, c: Connect)
    requires Inv(s, 0, max) && IsQueued(s, f) && s.m[f].fe.loc == Queue(g) && s.m[f].fe.pid == self
    requires self in s.live && 0 !in s.live && child !in s.live
    ensures var (t, o) := QueueTurn(s, g, f, self, did, max, child, c);
      o.Queued? ==> o.g == g && o.f == f && Provided(t, g, f, o.didSpawn, max)
  {
    hide Inv, TryGet, Ping, Settle, Leave, Provided, Respects;
    TryGetKeeps(s, g, f, self, max, {self}, {});
    var (s1, b) := TryGet(s, g, f);
    var (t, working, _) := Ping(s1, g, f, self, did, max, child);
    if b == 0 && working && t.Valid(g) { PingProvides(s1, g, f, self, did, max, child); }
  }

  lemma RequestProvides(s: Store, self: nat, cleaned: bool, key: Key, opt: GroupOpt, max: nat, child: nat, c: Connect)
    requires Inv(s, 0, max) && 0 !in s.live && self in s.live && child !in s.live
    ensures var (t, o) := ConnectSection(s, self, cleaned, key, opt, max, child, c);
      o.Queued? ==> Provided(t, o.g, o.f, o.didSpawn, max)
  {
    hide Inv, Arrive, QuickGet, QueueTurn, Settle, Join, Provided, ConnectSection;
    RequestShape(s, self, cleaned, key, opt, max, child, c);
    ArriveKeeps(s, self, cleaned, key, opt, max, {}, {});
    var (s2, g, f) := Arrive(s, self, cleaned, key, opt);
    QuickGetKeeps(s2, g, f, self, max, {}, {});
    var (s3, b) := QuickGet(s2, g);
    if b == 0 {
      JoinInv(s3, g, f, self, max);
      JoinLive(s3, g, f);
      TurnProvides(Join(s3, g, f), g, f, self, false, max, child, c);
    }
  }

  /** Whenever a frontend has looked and goes on waiting, in any run, it is provided for: nobody waits
      behind a dead frontend, and nobody waits at the head of a queue with nothing under way. */
  lemma WaitersProvided(tr: seq<Sys>, es: seq<Event>, max: nat, i: nat)
    requires History(tr, es, max) && i < |es| && (es[i].Request? || es[i].Wake?)
    ensures var pc := Pc(tr[i + 1], es[i].pid);
      pc.FQueued? ==> Provided(tr[i + 1].s, pc.g, pc.f, pc.didSpawn, max)
  {
    hide Inv, NoHand, ConnectSection, QueueTurn, Settle, Provided;
    var y, e := tr[i], es[i];
    Safe(tr, es, max, i);
    assert Enabled(y, e, max) && tr[i + 1] == Next(y, e, max);
    ActorPc(y, e, max);
    assert Holds(y.s, e.pid, Pc(y, e.pid));
    NewChildFresh(y, e, max);
    if e.Wake? {
      TurnProvides(y.s, Pc(y, e.pid).g, Pc(y, e.pid).f, e.pid, Pc(y, e.pid).didSpawn, max, e.child, e.c);
    } else {
      RequestProvides(y.s, e.pid, Pc(y, e.pid).cleaned, e.key, e.opt, max, e.child, e.c);
    }
  }

  lemma NewChildFresh(y: Sys, e: Event, max: nat)
    requires SysInv(y, max) && Enabled(y, e, max) && Forks(e)
    ensures e.child !in y.s.live
  {
  }

  /** In any run, who looks for a backend is granted one exactly if nobody alive is before it in the
      queue, a backend of the group waits and none is starting. */
  lemma GrantedExactly(tr: seq<Sys>, es: seq<Event>, max: nat, i: nat)
    requires History(tr, es, max) && i < |es| && (es[i].Request? || es[i].Wake?)
    ensures var y, e := tr[i], es[i]; var s, g := y.s, GrantGroup(y, e);
      Granted(y, e).1 != 0 <==>
        && SomeWaits(s, g) && s.Gr(g).starting !in s.live
        && if e.Request? then NoneAlive(s, g) else s.Valid(g) && !e.changed && FirstAlive(s, g, Pc(y, e.pid).f)
  {
    hide Inv, NoHand, Arrive, ConnectGets, TryGet, FirstAlive, NoneAlive;
    var y, e := tr[i], es[i];
    Safe(tr, es, max, i);
    assert Enabled(y, e, max);
    assert Holds(y.s, e.pid, Pc(y, e.pid));
    if e.Wake? {
      TryGetExact(y.s, Pc(y, e.pid).g, Pc(y, e.pid).f, e.pid, max);
    } else {
      ConnectGetsExact(y.s, e.pid, Pc(y, e.pid).cleaned, e.key, e.opt, max);
    }
  }

  // ---- who does not wait any more ----

  lemma CleanedUp(s: Store, g: nat, self: nat, max: nat)
    requires Inv(s, 0, max) && IsGr(s, g)
    ensures var t := Cleanup(s, g, self);
      (!s.Valid(g) ==> !t.Valid(g)) && (s.Gr(g).starting == 0 ==> t.Gr(g).starting == 0)
  {
  }

  /** The slot is given back. */
  lemma SettledNone(s: Store, g: nat, f: nat, self: nat, c: Connect, max: nat)
    requires Inv(s, 0, max) && IsQueued(s, f) && s.m[f].fe.loc == Queue(g) && s.m[f].fe.pid == self
    ensures var t := Settle(Leave(s, g, f), g, f, self, 0, c);
      && t.At(f) == Free && (!s.Valid(g) ==> !t.Valid(g)) && (s.Gr(g).starting == 0 ==> t.Gr(g).starting == 0)
  {
    hide Inv, Respects, Cleanup, SameBackends, SameRunning, SameIndex;
    GroupOf(s, g, f, max);
    LeaveKeeps(s, g, f, self, 0, max, {}, {});
    CleanedUp(Leave(s, g, f), g, self, max);
  }

  lemma CheckGivesUp(s: Store, g: nat, did: bool, max: nat, child: nat)
    requires Inv(s, 0, max) && IsGr(s, g) && 0 !in s.live && child !in s.live
    ensures var (t, ok, asked) := BackendCheck(s, g, did, max, child); !ok ==> did && t.Gr(g).starting == 0
  {
    hide Inv, BackendCheck;
    CheckDecides(s, g, did, max, child);
    CheckLeaves(s, g, did, max, child);
  }

  lemma PingGivesUp(s: Store, g: nat, f: nat, self: nat, did: bool, max: nat, child: nat)
    requires Inv(s, 0, max) && IsQueued(s, f) && s.m[f].fe.loc == Queue(g) && s.m[f].fe.pid == self
    requires self in s.live && 0 !in s.live && child !in s.live
    ensures var (t, ok, asked) := Ping(s, g, f, self, did, max, child); !ok ==> did && t.Gr(g).starting == 0
  {
    hide Inv, BackendCheck, CheckPrev, Respects, SameBackends, FePrev;
    GroupOf(s, g, f, max);
    PrevAlive(s, g, f, self, max);
    CheckPrevKeeps(s, g, f, self, max, 0, {}, {});
    var s1 := CheckPrev(s, g, f, self);
    HeadGroup(s1, g, f, max);
    CheckGivesUp(s1, g, did, max, child);
  }

  /** How a frontend leaves that is not granted a backend: to try again if its group is invalid, for good
      if it has asked for a backend before and no process is starting. Its slot is free then. */
  ghost predicate GoesFor(t: Store, next: Proc, g: nat, f: nat, did: bool) {
    match next
    case FQueued(h, e, _) => h == g && e == f
    case FIdle(cleaned) => cleaned && !t.Valid(g) && t.At(f) == Free
    case FDone => did && t.Gr(g).starting == 0 && t.At(f) == Free
    case _ => false
  }

  lemma TurnGoes(s: Store, g: nat, f: nat, self: nat, did: bool, max: nat, child: nat, c: Connect)
    requires Inv(s, 0, max) && IsQueued(s, f) && s.m[f].fe.loc == Queue(g) && s.m[f].fe.pid == self
    requires self in s.live && 0 !in s.live && child !in s.live && TryGet(s, g, f).1 == 0
    ensures var (t, o) := QueueTurn(s, g, f, self, did, max, child, c); GoesFor(t, AfterOutcome(o), g, f, did)
  {
    hide Inv, TryGet, Ping, Settle, Leave, Respects, SameBackends;
    TryGetKeeps(s, g, f, self, max, {self}, {});
    var s1 := TryGet(s, g, f).0;
    PingGivesUp(s1, g, f, self, did, max, child);
    PingLive(s1, g, f, self, did, max, child);
    PingKeeps(s1, g, f, self, did, max, child, {self}, {});
    SettledNone(Ping(s1, g, f, self, did, max, child).0, g, f, self, c, max);
  }

  /** A queued frontend that wakes up and is granted nothing: it leaves the queue to try again if its group
      is invalid or the script has changed, gives up if it has asked in vain, and waits otherwise. */
  lemma WakesUp(tr: seq<Sys>, es: seq<Event>, max: nat, i: nat)
    requires History(tr, es, max) && i < |es| && es[i].Wake? && Granted(tr[i], es[i]).1 == 0
    ensures var e, pc := es[i], Pc(tr[i], es[i].pid); var z, next := tr[i + 1].s, Pc(tr[i + 1], es[i].pid);
      if !tr[i].s.Valid(pc.g) || e.changed then next == FIdle(true) && z.At(pc.f) == Free
      else GoesFor(z, next, pc.g, pc.f, pc.didSpawn)
  {
    hide Inv, NoHand, QueueTurn, Settle, Leave, TryGet, GoesFor;
    var y, e := tr[i], es[i];
    Safe(tr, es, max, i);
    assert Enabled(y, e, max) && tr[i + 1] == Next(y, e, max);
    ActorPc(y, e, max);
    assert Holds(y.s, e.pid, Pc(y, e.pid));
    NewChildFresh(y, e, max);
    var pc := Pc(y, e.pid);
    if !y.s.Valid(pc.g) || e.changed {
      SettledNone(y.s, pc.g, pc.f, e.pid, e.c, max);
    } else {
      TurnGoes(y.s, pc.g, pc.f, e.pid, pc.didSpawn, max, e.child, e.c);
    }
  }

  // ---- only the head asks ----

  lemma PingAsksFirst(s: Store, g: nat, f: nat, self: nat, did: bool, max: nat, child: nat)
    requires Inv(s, 0, max) && IsQueued(s, f) && s.m[f].fe.loc == Queue(g) && s.m[f].fe.pid == self
    requires self in s.live && 0 !in s.live && child !in s.live
    ensures var (t, _, asked) := Ping(s, g, f, self, did, max, child);
      asked && !did ==> t.Gr(g).fes != [] && t.Gr(g).fes[0] == f
  {
    hide Inv, BackendCheck, CheckPrev, Respects, SameBackends, FePrev;
    GroupOf(s, g, f, max);
    PrevAlive(s, g, f, self, max);
    CheckPrevKeeps(s, g, f, self, max, 0, {}, {});
    var s1 := CheckPrev(s, g, f, self);
    HeadGroup(s1, g, f, max);
    BackendCheckKeeps(s1, g, did, max, child, 0, 0, {}, {});
  }

  lemma TurnAsksFirst(s: Store, g: nat, f: nat, self: nat, did: bool, max: nat, child: nat, c: Connect)
    requires Inv(s, 0, max) && IsQueued(s, f) && s.m[f].fe.loc == Queue(g) && s.m[f].fe.pid == self
    requires self in s.live && 0 !in s.live && child !in s.live
    ensures var (t, o) := QueueTurn(s, g, f, self, did, max, child, c);
      o.Queued? && o.didSpawn && !did ==> t.Gr(g).fes != [] && t.Gr(g).fes[0] == f
  {
    hide Inv, TryGet, Ping, Settle, Leave, Respects;
    TryGetKeeps(s, g, f, self, max, {self}, {});
    if TryGet(s, g, f).1 == 0 { PingAsksFirst(TryGet(s, g, f).0, g, f, self, did, max, child); }
  }

  lemma RequestAsksFirst(s: Store, self: nat, cleaned: bool, key: Key, opt: GroupOpt, max: nat, child: nat, c: Connect)
    requires Inv(s, 0, max) && 0 !in s.live && self in s.live && child !in s.live
    ensures var (t, o) := ConnectSection(s, self, cleaned, key, opt, max, child, c);
      o.Queued? && o.didSpawn ==> t.Gr(o.g).fes != [] && t.Gr(o.g).fes[0] == o.f
  {
    hide Inv, Arrive, QuickGet, QueueTurn, Settle, Join, ConnectSection, Fair, Respects;
    RequestShape(s, self, cleaned, key, opt, max, child, c);
    ArriveKeeps(s, self, cleaned, key, opt, max, {}, {});
    var (s2, g, f) := Arrive(s, self, cleaned, key, opt);
    QuickGetKeeps(s2, g, f, self, max, {}, {});
    var (s3, b) := QuickGet(s2, g);
    if b == 0 {
      JoinInv(s3, g, f, self, max);
      JoinLive(s3, g, f);
      TurnAsksFirst(Join(s3, g, f), g, f, self, false, max, child, c);
      TurnProvides(Join(s3, g, f), g, f, self, false, max, child, c);
    }
  }

  /** In any run, only who stands at the head of a queue asks for a backend to be started. */
  lemma OnlyHeadAsks(tr: seq<Sys>, es: seq<Event>, max: nat, i: nat)
    requires History(tr, es, max) && i < |es| && (es[i].Request? || es[i].Wake?)
    requires Pc(tr[i], es[i].pid).FQueued? ==> !Pc(tr[i], es[i].pid).didSpawn
    ensures var pc := Pc(tr[i + 1], es[i].pid);
      pc.FQueued? && pc.didSpawn ==> tr[i + 1].s.Gr(pc.g).fes != [] && tr[i + 1].s.Gr(pc.g).fes[0] == pc.f
  {
    hide Inv, NoHand, ConnectSection, QueueTurn, Settle;
    var y, e := tr[i], es[i];
    Safe(tr, es, max, i);
    assert Enabled(y, e, max) && tr[i + 1] == Next(y, e, max);
    ActorPc(y, e, max);
    assert Holds(y.s, e.pid, Pc(y, e.pid));
    NewChildFresh(y, e, max);
    if e.Wake? {
      TurnAsksFirst(y.s, Pc(y, e.pid).g, Pc(y, e.pid).f, e.pid, Pc(y, e.pid).didSpawn, max, e.child, e.c);
      TurnProvides(y.s, Pc(y, e.pid).g, Pc(y, e.pid).f, e.pid, Pc(y, e.pid).didSpawn, max, e.child, e.c);
    } else {
      RequestAsksFirst(y.s, e.pid, Pc(y, e.pid).cleaned, e.key, e.opt, max, e.child, e.c);
    }
  }
}
