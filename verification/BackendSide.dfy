/** The critical sections of backends and parent processes keep the invariant and respect the
    other processes: a backend goes idle, is connected to, has run; a parent process takes its
    group over, collects its children, starts one, cleans up its neighbour. */
module BackendSide {
  import opened Lists
  import opened Store
  import opened Conservation
  import opened Invariants
  import opened Respect
  import opened Keeping
  import opened Granting
  import opened Groups
  import opened Scripts
  import opened Sections
  import opened Sweeping

  // ---- the backend ----

  lemma ClearStartingKeeps(s: Store, g: nat, self: nat, max: nat, x: nat, L: set<nat>, A: set<nat>)
    requires Inv(s, 0, max) && IsGr(s, g)
    ensures var t := ClearStarting(s, g, self);
      Inv(t, 0, max) && Respects(s, t, x, self, L, A) && SameBackends(s, t) && t.live == s.live
  {
    RespectsRefl(s, x, self, L, A);
    SameRefl(s);
    if s.Gr(g).starting == self { StartingKeeps(s, g, 0, 0, max, x, self, L, A); }
  }

  lemma MaturityFrames(s: Store, b: nat, m: nat, self: nat, L: set<nat>, A: set<nat>)
    requires IsBe(s, b)
    ensures var t := s.PutBe(b, s.m[b].be.(maturity := m));
      Respects(s, t, b, self, L, A) && SameIndex(s, t) && SameQueues(s, t) && SameRunning(s, t)
  {
  }

  lemma MaturityKeeps(s: Store, b: nat, m: nat, self: nat, max: nat, L: set<nat>, A: set<nat>)
    requires Inv(s, 0, max) && IsBe(s, b) && s.m[b].be.feRunning == b
    ensures var t := s.PutBe(b, s.Be(b).(maturity := m));
      Inv(t, 0, max) && Respects(s, t, b, self, L, A)
  {
    var t := s.PutBe(b, s.Be(b).(maturity := m));
    assert Home(s, b) == BeList(s.Be(b).grp);
    PutBeWf(s, b, s.Be(b).(maturity := m));
    MaturityFrames(s, b, m, self, L, A);
    MaturityBound(s, b, m);
    SentFrame(s, t); IndexedFrame(s, t);
    NoZero(s);
    forall g, a, c | Precedes(t.Gr(g).bes, a, c) && a != 0 && c != 0 ensures Ordered(t, a, c) {
      assert Precedes(s.Gr(g).bes, a, c) && Ordered(s, a, c);
    }
  }

  lemma MaturityBound(s: Store, b: nat, m: nat)
    requires Bound(s) && IsBe(s, b)
    ensures Bound(s.PutBe(b, s.m[b].be.(maturity := m)))
  {
  }

  /** speedy_perl_run: the backend goes on the wait list. */
  lemma GoIdleKeeps(s: Store, g: nat, b: nat, self: nat, m: nat, max: nat, L: set<nat>, A: set<nat>)
    requires Inv(s, 0, max) && IsBe(s, b) && s.m[b].be.grp == g && s.m[b].be.feRunning == b && s.m[b].be.pid == self
    requires L <= s.live
    ensures var t := GoIdle(s, g, b, self, m);
      Inv(t, 0, max) && Respects(s, t, b, self, L, A) && t.live == s.live
      && IsBe(t, b) && t.m[b].be == Backend(self, 0, m, g)
  {
    MaturityKeeps(s, b, m, self, max, L, A);
    var s1 := s.PutBe(b, s.Be(b).(maturity := m));
    BeWaitPutKeeps(s1, g, b, max, self, L, A);
    var s2 := BeWaitPut(s1, g, b);
    OnOneList(s1, g, b);
    assert IsGr(s2, g) by { OnOneList(s2, g, b); }
    ClearStartingKeeps(s2, g, self, max, b, L, A);
    var s3 := ClearStarting(s2, g, self);
    SendSigsKeeps(s3, g, 0, max, b, self, L, A);
    var t := SendSigs(s3, g);
    RespectsTrans(s, s1, s2, b, self, L, A);
    RespectsTrans(s, s2, s3, b, self, L, A);
    RespectsTrans(s, s3, t, b, self, L, A);
  }

  lemma AcceptedKeeps(s: Store, g: nat, b: nat, self: nat, max: nat, L: set<nat>, A: set<nat>)
    requires Inv(s, 0, max) && IsBe(s, b) && s.m[b].be.grp == g && L <= s.live
    ensures var t := Accepted(s, g, self);
      Inv(t, 0, max) && Respects(s, t, b, self, L, A) && t.live == s.live && IsBe(t, b) && t.m[b].be == s.m[b].be
  {
    OnOneList(s, g, b);
    ClearStartingKeeps(s, g, self, max, b, L, A);
    var s1 := ClearStarting(s, g, self);
    SendSigsKeeps(s1, g, 0, max, b, self, L, A);
    RespectsTrans(s, s1, SendSigs(s1, g), b, self, L, A);
  }

  // ---- the parent process ----

  lemma {:induction false} FindPidFinds(s: Store, l: seq<nat>, pid: nat)
    ensures var b := FindPid(s, l, pid); b != 0 ==> b in l && s.Be(b).pid == pid
  {
    if l != [] { FindPidFinds(s, l[1..], pid); }
  }

  lemma ListedBe(s: Store, g: nat, b: nat)
    requires Wf(s) && b in s.Gr(g).bes
    ensures IsBe(s, b) && s.m[b].be.grp == g && IsGr(s, g)
  {
    assert b in ListOf(s, BeList(g)) && Home(s, b) == BeList(g);
  }

  lemma CollectOneKeeps(s: Store, g: nat, e: Exit, x: nat, self: nat, max: nat, L: set<nat>, A: set<nat>)
    requires Inv(s, 0, max) && L <= s.live && A <= L && e.pid !in s.live
    ensures var t := CollectOne(s, g, e);
      Inv(t, 0, max) && Respects(s, t, x, self, L, A) && t.live == s.live && SameParents(s, t)
  {
    RespectsRefl(s, x, self, L, A);
    var b := FindPid(s, s.Gr(g).bes, e.pid);
    FindPidFinds(s, s.Gr(g).bes, e.pid);
    if b != 0 {
      ListedBe(s, g, b);
      var s1 := Exited(s, b, e.onSig, e.val);
      ExitedInv(s, b, e.onSig, e.val, 0, max);
      ExitedRespects(s, b, e.onSig, e.val, x, self, L, A);
      ExitedEffect(s, b, e.onSig, e.val);
      ExitedParents(s, b, e.onSig, e.val);
      BackendDisposeInv(s1, g, b, 0, max);
      BackendDisposeRespects(s1, g, b, x, self, L, A);
      BackendDisposeParents(s1, g, b);
      RespectsTrans(s, s1, BackendDispose(s1, g, b), x, self, L, A);
    }
  }

  /** No group goes or changes its parent process or its be_starting. */
  ghost predicate SameParents(s: Store, t: Store) {
    forall g {:trigger IsGr(t, g)} {:trigger s.m[g].gr} :: IsGr(s, g) ==>
      IsGr(t, g) && t.m[g].gr.parent == s.m[g].gr.parent && t.m[g].gr.starting == s.m[g].gr.starting
  }

  lemma ExitedParents(s: Store, b: nat, onSig: bool, val: int)
    requires Wf(s) && Bound(s) && IsBe(s, b)
    ensures SameParents(s, Exited(s, b, onSig, val))
  {
    ExitedShape(s, b, onSig, val);
  }

  lemma BackendDisposeParents(s: Store, g: nat, b: nat)
    requires Wf(s) && Bound(s) && IsBe(s, b) && s.m[b].be.grp == g
    ensures SameParents(s, BackendDispose(s, g, b)) && BackendDispose(s, g, b).live == s.live
  {
    ExitedParents(s, b, true, SIGKILL);
    ExitedEffect(s, b, true, SIGKILL);
    OnOneList(s, g, b);
    var s1 := Exited(s, b, true, SIGKILL);
    assert IsGr(s1, g);
  }

  lemma {:induction false} CollectAllKeeps(s: Store, g: nat, es: seq<Exit>, x: nat, self: nat, max: nat, L: set<nat>,
      A: set<nat>)
    requires Inv(s, 0, max) && L <= s.live && A <= L && forall e :: e in es ==> e.pid !in s.live
    ensures var t := CollectAll(s, g, es);
      Inv(t, 0, max) && Respects(s, t, x, self, L, A) && t.live == s.live && SameParents(s, t)
    decreases |es|
  {
    RespectsRefl(s, x, self, L, A);
    if es != [] {
      CollectOneKeeps(s, g, es[0], x, self, max, L, A);
      var s1 := CollectOne(s, g, es[0]);
      CollectAllKeeps(s1, g, es[1..], x, self, max, L, A);
      RespectsTrans(s, s1, CollectAll(s1, g, es[1..]), x, self, L, A);
    }
  }

  // ---- start_child ----

  lemma CreateSlotFrames(s: Store, g: nat, s1: Store, n: nat)
    requires IsGr(s, g) && Fresh(s, Bck(Backend(0, 0, 0, g)), s1, n)
    ensures var s2 := s1.PutBe(n, s1.Be(n).(feRunning := n));
      var t := s2.PutGr(g, s2.Gr(g).(bes := s2.Gr(g).bes + [n]));
      SameQueues(s, t) && SameIndex(s, t) && SameRunning(s, t) && SameParents(s, t)
      && (forall k :: k != g && k != n ==> t.At(k) == s.At(k))
  {
    assert n in s.m ==> s.m[n].Free? || s.m[n].Nil?;
  }

  lemma CreateSlotRespects(s: Store, g: nat, s1: Store, n: nat, x: nat, self: nat, L: set<nat>, A: set<nat>)
    requires IsGr(s, g) && Fresh(s, Bck(Backend(0, 0, 0, g)), s1, n)
    requires s.Gr(g).starting !in L || s.Gr(g).starting == self
    requires forall h :: n !in s.Gr(h).bes
    ensures var s2 := s1.PutBe(n, s1.Be(n).(feRunning := n));
      Respects(s, s2.PutGr(g, s2.Gr(g).(bes := s2.Gr(g).bes + [n])), x, self, L, A)
  {
    assert n in s.m ==> s.m[n].Free? || s.m[n].Nil?;
  }

  lemma CreateSlotBound(s: Store, g: nat, s1: Store, n: nat)
    requires Bound(s) && IsGr(s, g) && Fresh(s, Bck(Backend(0, 0, 0, g)), s1, n) && n != 0 && 0 !in s.m
    ensures var s2 := s1.PutBe(n, s1.Be(n).(feRunning := n));
      Bound(s2.PutGr(g, s2.Gr(g).(bes := s2.Gr(g).bes + [n])))
  {
    assert n in s.m ==> s.m[n].Free? || s.m[n].Nil?;
  }

  lemma CreateSlotKeeps(s: Store, g: nat, max: nat, x: nat, self: nat, L: set<nat>, A: set<nat>)
    requires Inv(s, 0, max) && IsGr(s, g) && BelowMax(s, g, max)
    requires s.Gr(g).starting !in L || s.Gr(g).starting == self
    ensures var (t, n) := CreateSlot(s, g);
      Inv(t, 0, max) && Respects(s, t, x, self, L, A) && t.live == s.live && SameParents(s, t)
          && t.alloced <= s.alloced + 1
      && IsBe(t, n) && t.m[n].be == Backend(0, n, 0, g) && IsGr(t, g) && t.Gr(g).starting == s.Gr(g).starting
  {
    hide Respects,Fair,Grown,SameBackends,SameQueues,SameRunning,Sorted,Bound,Indexed;
    var v := Bck(Backend(0, 0, 0, g));
    AllocFrom(s, v);
    var (s1, n) := SlotAlloc(s, v);
    var t := CreateSlot(s, g).0;
    forall h ensures n !in s.Gr(h).bes {
      assert ListOf(s, BeList(h)) == s.Gr(h).bes;
    }
    NoZero(s);
    CreateSlotWf(s, g);
    CreateSlotFrames(s, g, s1, n);
    CreateSlotRespects(s, g, s1, n, x, self, L, A);
    CreateSlotBound(s, g, s1, n);
    CreateSlotSorted(s, t, g, n);
    SentFrame(s, t); IndexedFrame(s, t);
  }

  lemma CreateSlotSorted(s: Store, t: Store, g: nat, n: nat)
    requires Sorted(s, 0) && t.Gr(g).bes == s.Gr(g).bes + [n] && t.Be(n).feRunning != 0
    requires forall h :: n !in s.Gr(h).bes && 0 !in s.Gr(h).bes
    requires forall k :: k != g && k != n ==> t.At(k) == s.At(k)
    requires IsGr(s, g) && IsGr(t, g) && IsBe(t, n) && !IsGr(s, n)
    ensures Sorted(t, 0)
  {
    forall h, a, c | Precedes(t.Gr(h).bes, a, c) ensures Ordered(t, a, c) {
      assert h == g || h == n || t.At(h) == s.At(h);
      if h == g { PrecedesSnoc(s.Gr(g).bes, n, a, c); }
      if c != n {
        PrecedesIn(s.Gr(h).bes, a, c);
        assert Ordered(s, a, c);
        assert a == g || t.At(a) == s.At(a);
        assert c == g || t.At(c) == s.At(c);
      }
    }
  }

  /** No group goes or changes its parent process. */
  ghost predicate SameStarts(s: Store, t: Store) {
    forall h {:trigger IsGr(t, h)} {:trigger s.m[h].gr} :: IsGr(s, h) ==>
        IsGr(t, h) && t.m[h].gr.parent == s.m[h].gr.parent
  }

  lemma ForkedRespects(s: Store, g: nat, b: nat, child: nat, x: nat, self: nat, L: set<nat>, A: set<nat>)
    requires IsGr(s, g) && IsBe(s, b) && s.m[b].be.pid == 0 && 0 !in A
    requires s.Gr(g).starting !in L || s.Gr(g).starting == self
    ensures Respects(s, Forked(s, g, b, child), x, self, L, A)
  {
  }

  lemma ForkedSame(s: Store, g: nat, b: nat, child: nat)
    requires IsGr(s, g) && IsBe(s, b)
    ensures var t := Forked(s, g, b, child); SameIndex(s, t) && SameQueues(s, t) && SameRunning(s, t) && SameIdle(s, t)
  {
  }

  lemma ForkedBound(s: Store, g: nat, b: nat, child: nat)
    requires Bound(s) && IsGr(s, g) && IsBe(s, b)
    ensures Bound(Forked(s, g, b, child))
  {
  }

  lemma ForkedKeeps(s: Store, g: nat, b: nat, child: nat, max: nat, x: nat, self: nat, L: set<nat>, A: set<nat>)
    requires Inv(s, 0, max) && IsGr(s, g) && IsBe(s, b) && s.m[b].be.pid == 0 && 0 !in A
    requires s.Gr(g).starting !in L || s.Gr(g).starting == self
    ensures var t := Forked(s, g, b, child);
      Inv(t, 0, max) && Respects(s, t, x, self, L, A) && t.live == s.live + {child}
      && IsBe(t, b) && t.m[b].be == s.m[b].be.(pid := child) && t.alloced == s.alloced
      && (forall h :: h != g && IsGr(s, h) ==> IsGr(t, h) && t.m[h] == s.m[h])
      && IsGr(t, g) && t.m[g].gr == s.m[g].gr.(starting := child)
  {
    var s1 := s.(live := s.live + {child});
    var s2 := s1.PutGr(g, s1.Gr(g).(starting := child));
    var t := Forked(s, g, b, child);
    LiveWf(s, s1.live);
    PutGrWf(s1, g, s1.Gr(g).(starting := child));
    assert Home(s2, b) == BeList(s2.Be(b).grp);
    PutBeWf(s2, b, s2.Be(b).(pid := child));
    ForkedRespects(s, g, b, child, x, self, L, A);
    ForkedSame(s, g, b, child);
    ForkedBound(s, g, b, child);
    SortedFrame(s, t, 0); WithinMaxFrame(s, t, max); SentFrame(s, t); IndexedFrame(s, t);
  }

  lemma ForkFailedKeeps(s: Store, g: nat, b: nat, max: nat, x: nat, self: nat, L: set<nat>, A: set<nat>)
    requires Inv(s, 0, max) && IsGr(s, g) && IsBe(s, b) && s.m[b].be == Backend(0, b, 0, g) && 0 !in A && L <= s.live
    requires s.Gr(g).starting !in L || s.Gr(g).starting == self
    ensures var t := BackendDispose(s.PutGr(g, s.Gr(g).(starting := 0)), g, b);
      Inv(t, 0, max) && Respects(s, t, x, self, L, A) && t.live == s.live && t.alloced == s.alloced
      && SameStarts(s, t)
  {
    StartingKeeps(s, g, 0, 0, max, x, self, L, A);
    var s1 := s.PutGr(g, s.Gr(g).(starting := 0));
    BackendDisposeInv(s1, g, b, 0, max);
    BackendDisposeRespects(s1, g, b, x, self, L, A);
    BackendDisposeParents(s1, g, b);
    RespectsTrans(s, s1, BackendDispose(s1, g, b), x, self, L, A);
    assert SameStarts(s, s1);
  }

  lemma NewChildKeeps(s: Store, g: nat, self: nat, max: nat, child: nat, x: nat, L: set<nat>, A: set<nat>)
    requires Inv(s, 0, max) && IsGr(s, g) && L <= s.live && 0 !in s.live && A <= L
    requires (s.Gr(g).starting !in L || s.Gr(g).starting == self) && BelowMax(s, g, max)
    ensures var (t, b) := NewChild(s, g, child);
      Inv(t, 0, max) && Respects(s, t, x, self, L, A) && t.alloced <= s.alloced + 1 && SameStarts(s, t)
      && (b == 0 ==> t.live == s.live)
      && (b != 0 ==> child != 0 && IsBe(t, b) && t.m[b].be == Backend(child, b, 0, g)
                     && t.Gr(g).starting == child && t.live == s.live + {child})
      && (child != 0 ==> b != 0)
  {
    hide Respects,Wf,Bound,Sorted,SentAtHead,WithinMax,Indexed;
    hide Respects;
    CreateSlotKeeps(s, g, max, x, self, L, A);
    var (s2, b) := CreateSlot(s, g);
    NoZero(s2);
    if child == 0 {
      ForkFailedKeeps(s2, g, b, max, x, self, L, A);
    } else {
      ForkedKeeps(s2, g, b, child, max, x, self, L, A);
    }
    RespectsTrans(s, s2, NewChild(s, g, child).0, x, self, L, A);
  }

  /** start_child: a backend is started only when no other process is starting and the group
      is below the limit. */
  lemma StartChildKeeps(s: Store, g: nat, self: nat, max: nat, child: nat, x: nat, L: set<nat>, A: set<nat>)
    requires Inv(s, 0, max) && IsGr(s, g) && L <= s.live && 0 !in s.live && A <= L
    ensures var (t, b) := StartChild(s, g, self, max, child);
      Inv(t, 0, max) && Respects(s, t, x, self, L, A) && t.alloced <= s.alloced + 1 && SameStarts(s, t)
      && (b == 0 ==> t.live == s.live)
      && (b != 0 ==> child != 0 && IsBe(t, b) && t.m[b].be == Backend(child, b, 0, g)
                     && t.Gr(g).starting == child && t.live == s.live + {child})
  {
    hide Respects, Inv;
    BeStartingKeeps(s, g, 0, max, x, self, L, A);
    var (s1, p) := BeStarting(s, g);
    assert SameStarts(s, s1);
    if (p == 0 || p == self) && BelowMax(s1, g, max) {
      NewChildKeeps(s1, g, self, max, child, x, L, A);
      RespectsTrans(s, s1, StartChild(s, g, self, max, child).0, x, self, L, A);
    }
  }

  // ---- do_cleanup ----

  lemma RespectsMono(s: Store, t: Store, x: nat, self: nat, L: set<nat>, A: set<nat>, L1: set<nat>, A1: set<nat>)
    requires Respects(s, t, x, self, L1, A1) && L <= L1 && A <= A1
    ensures Respects(s, t, x, self, L, A)
  {
  }

  lemma {:induction false} DisposeDeadKeeps(s: Store, g: nat, l: seq<nat>, x: nat, self: nat, max: nat, L: set<nat>,
      A: set<nat>)
    requires Inv(s, 0, max) && L <= s.live && A <= L && NoDup(l) && forall b :: b in l ==> b in s.Gr(g).bes
    ensures var t := DisposeDead(s, g, l);
      Inv(t, 0, max) && Respects(s, t, x, self, L, A) && t.live == s.live && SameParents(s, t)
    decreases |l|
  {
    RespectsRefl(s, x, self, L, A);
    if l != [] {
      var s1 := if s.Be(l[0]).pid in s.live then s else BackendDispose(s, g, l[0]);
      ListedBe(s, g, l[0]);
      if s.Be(l[0]).pid !in s.live {
        BackendDisposeInv(s, g, l[0], 0, max);
        BackendDisposeRespects(s, g, l[0], x, self, L, A);
        BackendDisposeParents(s, g, l[0]);
        DisposedList(s, g, l[0]);
      }
      forall b | b in l[1..] ensures b in s1.Gr(g).bes { assert b in l && b != l[0]; }
      DisposeDeadKeeps(s1, g, l[1..], x, self, max, L, A);
      RespectsTrans(s, s1, DisposeDead(s1, g, l[1..]), x, self, L, A);
    }
  }

  lemma DisposedList(s: Store, g: nat, b: nat)
    requires Wf(s) && Bound(s) && IsBe(s, b) && s.m[b].be.grp == g
    ensures BackendDispose(s, g, b).Gr(g).bes == Without(s.Gr(g).bes, b)
  {
    ExitedEffect(s, b, true, SIGKILL);
    ExitedShape(s, b, true, SIGKILL);
    OnOneList(s, g, b);
  }

  lemma GroupPrevFinds(s: Store, g: nat)
    requires Wf(s) && IsGr(s, g)
    ensures IsGr(s, GroupPrev(s, g))
  {
    assert Home(s, g) == GroupList && g in ListOf(s, GroupList);
    forall h | h in s.groups ensures IsGr(s, h) { assert h in ListOf(s, GroupList) && Home(s, h) == GroupList; }
  }

  /** do_cleanup takes nothing from a live process: the group before ours only goes when its
      parent process is dead and no backend and no frontend is left in it. */
  lemma DoCleanupKeeps(s: Store, g: nat, x: nat, self: nat, max: nat, L: set<nat>, A: set<nat>)
    requires Inv(s, 0, max) && IsGr(s, g) && L <= s.live && A <= L && self != 0 && 0 !in s.live
    ensures var t := DoCleanup(s, g, self);
      Inv(t, 0, max) && Respects(s, t, x, self, L, A) && t.live == s.live
  {
    hide Respects,Bound,Sorted,SentAtHead,WithinMax,Indexed;
    RespectsRefl(s, x, self, L, A);
    GroupPrevFinds(s, g);
    var p := GroupPrev(s, g);
    if p != g {
      ParentSigKeeps(s, p, 0, max, x, self, L, A);
      var (s1, alive) := ParentSig(s, p);
      if !alive { SweepGroupKeeps(s, s1, p, x, self, max, L, A); }
    }
  }

  lemma SweepGroupKeeps(s: Store, s1: Store, p: nat, x: nat, self: nat, max: nat, L: set<nat>, A: set<nat>)
    requires Inv(s1, 0, max) && Respects(s, s1, x, self, L, A) && s1.live == s.live
    requires IsGr(s1, p) && s1.Gr(p).parent == 0 && L <= s.live && A <= L && self != 0 && 0 !in s.live
    ensures var s2 := Invalidate(s1, p); var t := Cleanup(DisposeDead(s2, p, s2.Gr(p).bes), p, self);
      Inv(t, 0, max) && Respects(s, t, x, self, L, A) && t.live == s.live
  {
    hide Respects,Bound,Sorted,SentAtHead,WithinMax,Indexed;
    InvalidateKeeps(s1, p, 0, max, x, self, L, A);
    var s2 := Invalidate(s1, p);
    RespectsTrans(s, s1, s2, x, self, L, A);
    assert ListOf(s2, BeList(p)) == s2.Gr(p).bes;
    DisposeDeadKeeps(s2, p, s2.Gr(p).bes, x, self, max, L, A);
    var s3 := DisposeDead(s2, p, s2.Gr(p).bes);
    RespectsTrans(s, s2, s3, x, self, L, A);
    assert IsGr(s3, p) && s3.m[p].gr.parent == 0;
    CleanupEffect(s3, p, self);
    CleanupKeeps(s3, p, 0, max, x, self, L, A);
    RespectsTrans(s, s3, Cleanup(s3, p, self), x, self, L, A);
  }

  // ---- the sections of the parent process ----

  lemma TakeOverKeeps(s: Store, g: nat, self: nat, max: nat, x: nat, L: set<nat>, A: set<nat>)
    requires Inv(s, 0, max) && IsGr(s, g) && A <= L <= s.live && 0 !in s.live && self !in A
    ensures var (t, ok) := TakeOver(s, g, self);
      Inv(t, 0, max) && Respects(s, t, x, self, L, A) && t.live == s.live && IsGr(t, g) && SameGroups(s, t)
      && (ok ==> t.Gr(g).parent == self)
  {
    hide Respects,Wf,Bound,Sorted,SentAtHead,WithinMax,Indexed;
    var p := s.Gr(g).parent;
    RespectsRefl(s, x, self, L, A);
    var (s2, other) := if p != 0 && p != self then StartBe(s, g) else (s, false);
    if p != 0 && p != self { StartBeKeeps(s, g, 0, max, x, self, L, A); StartBeGroups(s, g); }
    if !other {
      ParentKeeps(s2, g, self, 0, max, x, self, L, A);
      RespectsTrans(s, s2, s2.PutGr(g, s2.Gr(g).(parent := self)), x, self, L, A);
    }
  }

  lemma StartBeGroups(s: Store, g: nat)
    requires Wf(s) && IsGr(s, g)
    ensures SameGroups(s, StartBe(s, g).0)
  {
    InvalidateEffect(s, g);
  }

  lemma ParentStartKeeps(s: Store, self: nat, key: Key, opt: GroupOpt, max: nat, child: nat, L: set<nat>, A: set<nat>)
    requires Inv(s, 0, max) && A <= L <= s.live && 0 !in s.live && self !in A
    ensures var (t, o) := ParentStart(s, self, key, opt, max, child);
      Inv(t, 0, max) && Fair(s, t, 0, self, L, A)
      && (o.Leaves? || o.b == 0 ==> t.live == s.live)
      && (o.Leads? ==> IsGr(t, o.g) && t.m[o.g].gr.parent == self)
      && (o.Leads? && o.b != 0 ==>
          child != 0 && Newborn(t, o.g, o.b, child) && t.Gr(o.g).starting == child && t.live == s.live + {child})
  {
    ScriptFindKeeps(s, key, opt, max);
    var (s1, g) := ScriptFind(s, key, opt);
    GrownFair(s, s1, 0, self, L, A);
    TakeOverKeeps(s1, g, self, max, 0, L, A);
    var (s2, ok) := TakeOver(s1, g, self);
    if ok {
      StartChildKeeps(s2, g, self, max, child, 0, L, A);
      RespectsTrans(s1, s2, StartChild(s2, g, self, max, child).0, 0, self, L, A);
    }
    FairTrans(s, s1, ParentStart(s, self, key, opt, max, child).0, 0, self, L, A);
  }

  /** Slot b is that of a backend which has not run yet. */
  predicate Newborn(s: Store, g: nat, b: nat, pid: nat) {
    IsBe(s, b) && s.m[b].be.pid == pid && s.m[b].be.grp == g && s.m[b].be.feRunning == b
  }

  lemma TendKeeps(s: Store, g: nat, self: nat, es: seq<Exit>, usr1: bool, max: nat, child: nat, L: set<nat>,
      A: set<nat>)
    requires Inv(s, 0, max) && IsGr(s, g) && s.m[g].gr.parent == self && A <= L <= s.live && 0 !in s.live
    requires self in A && child !in s.live && forall e :: e in es ==> e.pid !in s.live
    ensures var (t, b) := Tend(s, g, self, es, usr1, max, child);
      Inv(t, 0, max) && Respects(s, t, 0, self, L, A) && IsGr(t, g) && t.m[g].gr.parent == self
      && (b == 0 ==> t.live == s.live)
      && (b != 0 ==> child != 0 && Newborn(t, g, b, child) && t.Gr(g).starting == child && t.live == s.live + {child})
  {
    NoZero(s);
    CollectAllKeeps(s, g, es, 0, self, max, L, A);
    var s1 := CollectAll(s, g, es);
    var (s2, b) := if s1.Valid(g) && usr1 then StartChild(s1, g, self, max, child) else (s1, 0);
    if s1.Valid(g) && usr1 {
      StartChildKeeps(s1, g, self, max, child, 0, L, A);
      RespectsTrans(s, s1, s2, 0, self, L, A);
    }
    var born := if b == 0 then {} else {child};
    DoCleanupKeeps(s2, g, 0, self, max, L + born, A + born);
    var t := DoCleanup(s2, g, self);
    NoZero(s2);
    assert IsGr(t, g) && t.m[g].gr.parent == self;
    assert b != 0 ==> s2.Gr(g).starting in L + born && child != self;
    RespectsMono(s2, t, 0, self, L, A, L + born, A + born);
    RespectsTrans(s, s2, t, 0, self, L, A);
  }

  lemma ParentWakeKeeps(s: Store, g: nat, self: nat, es: seq<Exit>, usr1: bool, alrm: bool, max: nat, child: nat,
                        L: set<nat>, A: set<nat>)
    requires Inv(s, 0, max) && IsGr(s, g) && s.m[g].gr.parent == self && A <= L <= s.live && 0 !in s.live
    requires self in A && child !in s.live && forall e :: e in es ==> e.pid !in s.live
    ensures var (t, leaves, b) := ParentWake(s, g, self, es, usr1, alrm, max, child);
      Inv(t, 0, max) && Fair(s, t, g, self, L, A)
      && (!leaves ==> IsGr(t, g) && t.m[g].gr.parent == self)
      && (b == 0 ==> t.live == s.live)
      && (b != 0 ==> child != 0 && Newborn(t, g, b, child) && t.Gr(g).starting == child && t.live == s.live + {child})
  {
    hide Respects,Wf,Bound,Sorted,SentAtHead,WithinMax,Indexed;
    TendKeeps(s, g, self, es, usr1, max, child, L, A);
    var (s3, b) := Tend(s, g, self, es, usr1, max, child);
    NoZero(s);
    ExceptGroup(s, s3, g, self, L, A);
    var (t, leaves, _) := ParentWake(s, g, self, es, usr1, alrm, max, child);
    if leaves {
      CleanupEffect(s3, g, self);
      CleanupKeeps(s3, g, 0, max, g, self, L, A);
      if b != 0 { OnOneList(s3, g, b); }
      RespectsTrans(s, s3, t, g, self, L, A);
    }
    RespectsFair(s, t, g, self, L, A);
  }

  lemma ExceptGroup(s: Store, t: Store, g: nat, self: nat, L: set<nat>, A: set<nat>)
    requires Respects(s, t, 0, self, L, A) && 0 !in s.m
    ensures Respects(s, t, g, self, L, A)
  {
  }
}
