/** Invalidating, cleaning up, starting and signalling groups keeps the invariant, and respects
    the other processes. Only a group without backends and frontends goes, and with it at most its
    parent process. */
module Groups {
  import opened Lists
  import opened Store
  import opened Conservation
  import opened Invariants
  import opened Respect
  import opened Keeping
  import opened Granting
  import opened Sections

  lemma LiveFrames(s: Store, live: set<nat>, x: nat, max: nat)
    requires Inv(s, x, max)
    ensures Inv(s.(live := live), x, max)
  {
    LiveWf(s, live);
    FramesInv(s, s.(live := live), x, max);
  }

  /** Group g loses its scripts and name, whose slots become free; nothing else changes. */
  ghost predicate Stripped(s: Store, t: Store, g: nat) {
    && IsGr(s, g) && t.At(g) == Grp(s.Gr(g).(scripts := [], name := 0))
    && (forall n :: n != g ==> t.At(n) == s.At(n) || (t.At(n) == Free && Home(s, n) in {ScrList(g), NameOf(g)}))
  }

  lemma StrippedFrames(s: Store, t: Store, g: nat)
    requires Stripped(s, t, g)
    ensures SameBackends(s, t) && SameQueues(s, t) && SameRunning(s, t)
  {
    forall n
      ensures (IsBe(t, n) <==> IsBe(s, n)) && (IsQueued(t, n) <==> IsQueued(s, n))
              && (IsRun(t, n) <==> IsRun(s, n))
    {
      assert n == g || t.At(n) == s.At(n) || t.At(n) == Free;
    }
    forall n | IsBe(t, n) ensures t.m[n].be == s.m[n].be { assert t.At(n) == s.At(n); }
    forall n | IsQueued(t, n) || IsRun(t, n) ensures t.m[n].fe == s.m[n].fe { assert t.At(n) == s.At(n); }
  }

  lemma StrippedRespects(s: Store, t: Store, g: nat, f: nat, self: nat, L: set<nat>, A: set<nat>)
    requires Stripped(s, t, g)
    ensures Respects(s, t, f, self, L, A)
  {
    forall n | IsFe(s, n) || IsBe(s, n) || (IsGr(s, n) && n != g) ensures n in t.m && t.m[n] == s.m[n] {
      assert t.At(n) == s.At(n);
    }
    forall n | IsGr(t, n) ensures IsGr(s, n) { assert n == g || t.At(n) == s.At(n); }
  }

  lemma InvalidateStrips(s: Store, g: nat)
    requires Wf(s) && IsGr(s, g) && s.Valid(g)
    ensures Stripped(s, Invalidate(s, g), g)
  {
    InvalidateEffect(s, g);
  }

  lemma TailOrder(s: Store, g: nat, a: nat, b: nat)
    requires Wf(s) && IsGr(s, g) && Precedes(MoveTail(s.groups, g), a, b) && b != g
    ensures a != g && Precedes(s.groups, a, b)
  {
    var l := s.groups;
    assert l == ListOf(s, GroupList) && Home(s, g) == GroupList;
    if l[|l| - 1] != g {
      PrecedesWithout(l, g, a, b);
      PrecedesSnoc(Without(l, g), g, a, b);
    } else {
      PrecedesLast(l, a, b);
    }
  }

  lemma InvalidateIndexed(s: Store, g: nat)
    requires Wf(s) && Indexed(s) && IsGr(s, g) && s.Valid(g)
    ensures Indexed(Invalidate(s, g))
  {
    InvalidateEffect(s, g);
    InvalidateStrips(s, g);
    var t := Invalidate(s, g);
    forall a, b | Precedes(t.groups, a, b) && t.Valid(b) ensures t.Valid(a) {
      TailOrder(s, g, a, b);
      assert b != g && s.Valid(b) && s.Valid(a);
      assert t.Gr(a).scripts == s.Gr(a).scripts;
    }
    StrippedIndex(s, t, g);
  }

  /** The part of the index invariant that does not speak of the order of the groups. */
  lemma StrippedIndex(s: Store, t: Store, g: nat)
    requires Wf(s) && Indexed(s) && Stripped(s, t, g)
    requires forall a, b :: Precedes(t.groups, a, b) && t.Valid(b) ==> t.Valid(a)
    ensures Indexed(t)
  {
    forall h | h != g ensures t.Gr(h) == s.Gr(h) { assert t.At(h) == s.At(h) || t.At(h) == Free; }
    assert t.Gr(g) == s.Gr(g).(scripts := [], name := 0);
    forall h | t.Gr(h).name != 0 ensures h != g && t.Gr(h).name == s.Gr(h).name && NameText(t, h) == NameText(s, h) {
      NameSlot(s, h);
      NameKept(s, t, g, h);
    }
    forall h, x, y | x in t.Gr(h).scripts && y in t.Gr(h).scripts && x != y ensures !SameFile(t, x, y) {
      assert h != g;
      assert !SameFile(s, x, y);
      ListedScr(s, h, x);
      ListedScr(s, h, y);
      assert t.At(x) == s.At(x) || t.At(x) == Free;
      assert t.At(y) == s.At(y) || t.At(y) == Free;
    }
  }

  lemma NameKept(s: Store, t: Store, g: nat, h: nat)
    requires Wf(s) && Stripped(s, t, g) && h != g && t.Gr(h).name != 0
    ensures t.Gr(h).name == s.Gr(h).name && NameText(t, h) == NameText(s, h)
  {
    assert t.At(h) == s.At(h);
    NameSlot(s, h);
    assert Home(s, s.Gr(h).name) == NameOf(h);
  }

  lemma {:induction false} PrecedesLast(l: seq<nat>, a: nat, b: nat)
    requires NoDup(l) && Precedes(l, a, b)
    ensures a != l[|l| - 1]
  {
    if l[0] == a && b in l[1..] {
      assert l[|l| - 1] in l[1..];
    } else {
      PrecedesLast(l[1..], a, b);
    }
  }

  lemma InvalidateKeeps(s: Store, g: nat, x: nat, max: nat, f: nat, self: nat, L: set<nat>, A: set<nat>)
    requires Inv(s, x, max) && IsGr(s, g)
    ensures var t := Invalidate(s, g);
      Inv(t, x, max) && Respects(s, t, f, self, L, A)
      && SameBackends(s, t) && SameQueues(s, t) && SameRunning(s, t) && t.live == s.live
      && IsGr(t, g) && t.Gr(g) == s.Gr(g).(scripts := [], name := 0)
  {
    var t := Invalidate(s, g);
    InvalidateWf(s, g);
    InvalidateEffect(s, g);
    if s.Valid(g) {
      InvalidateStrips(s, g);
      StrippedFrames(s, t, g);
      StrippedRespects(s, t, g, f, self, L, A);
      InvalidateIndexed(s, g);
    }
    BoundFrame(s, t); SortedFrame(s, t, x); WithinMaxFrame(s, t, max); SentFrame(s, t);
  }

  lemma ParentFrames(s: Store, g: nat, pid: nat, f: nat, self: nat, L: set<nat>, A: set<nat>)
    requires IsGr(s, g) && s.Gr(g).parent !in A
    ensures var t := s.PutGr(g, s.Gr(g).(parent := pid));
      Respects(s, t, f, self, L, A) && SameBackends(s, t) && SameIndex(s, t) && SameQueues(s, t) && SameRunning(s, t)
  {
  }

  lemma ParentKeeps(s: Store, g: nat, pid: nat, x: nat, max: nat, f: nat, self: nat, L: set<nat>, A: set<nat>)
    requires Inv(s, x, max) && IsGr(s, g) && s.Gr(g).parent !in A
    ensures var t := s.PutGr(g, s.Gr(g).(parent := pid));
      Inv(t, x, max) && Respects(s, t, f, self, L, A)
      && SameBackends(s, t) && SameIndex(s, t) && SameQueues(s, t) && SameRunning(s, t)
  {
    PutGrWf(s, g, s.Gr(g).(parent := pid));
    ParentFrames(s, g, pid, f, self, L, A);
    FramesInv(s, s.PutGr(g, s.Gr(g).(parent := pid)), x, max);
  }

  lemma ParentSigKeeps(s: Store, g: nat, x: nat, max: nat, f: nat, self: nat, L: set<nat>, A: set<nat>)
    requires Inv(s, x, max) && IsGr(s, g) && A <= L <= s.live
    ensures var (t, ok) := ParentSig(s, g);
      Inv(t, x, max) && Respects(s, t, f, self, L, A)
      && SameBackends(s, t) && SameQueues(s, t) && SameRunning(s, t) && t.live == s.live
      && IsGr(t, g) && t.Gr(g).starting == s.Gr(g).starting
      && (ok ==> t == s) && (!ok ==> s.Gr(g).parent !in s.live && t.Gr(g).parent == 0)
  {
    if s.Gr(g).parent !in s.live {
      InvalidateKeeps(s, g, x, max, f, self, L, A);
      ParentKeeps(Invalidate(s, g), g, 0, x, max, f, self, L, A);
      RespectsTrans(s, Invalidate(s, g), ParentSig(s, g).0, f, self, L, A);
    }
  }

  lemma StartBeKeeps(s: Store, g: nat, x: nat, max: nat, f: nat, self: nat, L: set<nat>, A: set<nat>)
    requires Inv(s, x, max) && IsGr(s, g) && A <= L <= s.live
    ensures var (t, ok) := StartBe(s, g);
      Inv(t, x, max) && Respects(s, t, f, self, L, A)
      && SameBackends(s, t) && SameQueues(s, t) && SameRunning(s, t) && t.live == s.live
      && IsGr(t, g) && t.Gr(g).starting == s.Gr(g).starting
      && (ok ==> t == s) && (!ok ==> s.Gr(g).parent !in s.live && t.Gr(g).parent == 0)
  {
    ParentSigKeeps(s, g, x, max, f, self, L, A);
    RespectsRefl(s, f, self, L, A);
    SameRefl(s);
  }

  // ---- cleaning up ----

  lemma UnlinkGroupFrames(s: Store, g: nat, l: seq<nat>)
    requires IsGr(s, g) && s.Gr(g) == NO_GROUP.(starting := s.Gr(g).starting, parent := s.Gr(g).parent)
    ensures var t := SlotFree(s.(groups := l), g);
      SameBackends(s, t) && SameQueues(s, t) && SameRunning(s, t)
      && (forall h :: h != g ==> t.At(h) == s.At(h))
  {
  }

  lemma UnlinkGroupRespects(s: Store, g: nat, l: seq<nat>, f: nat, self: nat, L: set<nat>, A: set<nat>)
    requires IsGr(s, g) && s.Gr(g) == NO_GROUP.(starting := s.Gr(g).starting, parent := s.Gr(g).parent)
    requires s.Gr(g).parent !in A || f == g
    ensures Respects(s, SlotFree(s.(groups := l), g), f, self, L, A)
  {
  }

  lemma UnlinkGroupIndexed(s: Store, g: nat)
    requires Wf(s) && Indexed(s) && IsGr(s, g) && s.Gr(g).scripts == [] && s.Gr(g).name == 0
    ensures Indexed(SlotFree(s.(groups := Without(s.groups, g)), g))
  {
    var t := SlotFree(s.(groups := Without(s.groups, g)), g);
    forall a, b | Precedes(t.groups, a, b) && t.Valid(b) ensures t.Valid(a) {
      PrecedesWithout(s.groups, g, a, b);
    }
    forall h | t.Gr(h).name != 0 ensures h != g && NameText(t, h) == NameText(s, h) { NameSlot(s, h); }
    forall h, x, y | x in t.Gr(h).scripts && y in t.Gr(h).scripts && x != y ensures !SameFile(t, x, y) {
      ListedScr(s, h, x);
      ListedScr(s, h, y);
      assert !SameFile(s, x, y);
    }
  }

  lemma LiveRespects(s: Store, live: set<nat>, f: nat, self: nat, L: set<nat>, A: set<nat>)
    ensures var t := s.(live := live);
      Respects(s, t, f, self, L, A) && SameBackends(s, t) && SameQueues(s, t) && SameRunning(s, t)
  {
  }

  lemma FramesTrans(s: Store, t: Store, u: Store)
    requires SameBackends(s, t) && SameQueues(s, t) && SameRunning(s, t)
    requires SameBackends(t, u) && SameQueues(t, u) && SameRunning(t, u)
    ensures SameBackends(s, u) && SameQueues(s, u) && SameRunning(s, u)
  {
  }

  /** speedy_group_cleanup of a group with no backend and no frontend: a live parent process
      loses its group only if it is the lock holder itself; any other is killed. */
  lemma CleanupEmpty(s: Store, g: nat, x: nat, max: nat, f: nat, self: nat, L: set<nat>, A: set<nat>)
    requires Inv(s, x, max) && IsGr(s, g) && s.Gr(g).bes == [] && s.Gr(g).fes == []
    requires A <= L <= Cleanup(s, g, self).live && (s.Gr(g).parent == self ==> f == g || self !in A)
    ensures var t := Cleanup(s, g, self);
      Inv(t, x, max) && Respects(s, t, f, self, L, A)
      && SameBackends(s, t) && SameQueues(s, t) && SameRunning(s, t)
  {
    var s1 := s.(live := s.live - ({s.Gr(g).parent} - {self}));
    LiveFrames(s, s1.live, x, max);
    LiveRespects(s, s1.live, f, self, L, A);
    InvalidateKeeps(s1, g, x, max, f, self, L, A);
    var s2 := Invalidate(s1, g);
    var t := Cleanup(s, g, self);
    assert t == SlotFree(s2.(groups := Without(s2.groups, g)), g) && t.live == s1.live;
    CleanupTail(s2, g, x, max, f, self, L, A);
    FramesTrans(s, s1, s2);
    FramesTrans(s, s2, t);
    RespectsTrans(s, s1, s2, f, self, L, A);
    RespectsTrans(s, s2, t, f, self, L, A);
  }

  lemma CleanupKeeps(s: Store, g: nat, x: nat, max: nat, f: nat, self: nat, L: set<nat>, A: set<nat>)
    requires Inv(s, x, max) && IsGr(s, g)
    requires A <= L <= Cleanup(s, g, self).live && (s.Gr(g).parent == self ==> f == g || self !in A)
    ensures var t := Cleanup(s, g, self);
      Inv(t, x, max) && Respects(s, t, f, self, L, A)
      && SameBackends(s, t) && SameQueues(s, t) && SameRunning(s, t)
  {
    if s.Gr(g).bes == [] && s.Gr(g).fes == [] {
      CleanupEmpty(s, g, x, max, f, self, L, A);
    } else {
      RespectsRefl(s, f, self, L, A);
      SameRefl(s);
    }
  }

  /** Which groups are left by a cleanup, and who was killed. */
  lemma CleanupEffect(s: Store, g: nat, self: nat)
    requires Wf(s) && IsGr(s, g)
    ensures var t := Cleanup(s, g, self);
      && t.live == (if s.Gr(g).bes == [] && s.Gr(g).fes == [] then s.live - ({s.Gr(g).parent} - {self}) else s.live)
      && (s.Gr(g).bes != [] || s.Gr(g).fes != [] ==> t == s)
      && (forall h :: h != g && IsGr(s, h) ==> t.At(h) == s.At(h))
      && t.running == s.running && t.alloced == s.alloced
  {
    if s.Gr(g).bes == [] && s.Gr(g).fes == [] {
      var s1 := s.(live := s.live - ({s.Gr(g).parent} - {self}));
      LiveWf(s, s1.live);
      InvalidateEffect(s1, g);
    }
  }

  lemma CleanupTail(s: Store, g: nat, x: nat, max: nat, f: nat, self: nat, L: set<nat>, A: set<nat>)
    requires Inv(s, x, max) && IsGr(s, g) && (s.Gr(g).parent !in A || f == g)
    requires s.Gr(g) == NO_GROUP.(starting := s.Gr(g).starting, parent := s.Gr(g).parent)
    ensures var t := SlotFree(s.(groups := Without(s.groups, g)), g);
      Inv(t, x, max) && Respects(s, t, f, self, L, A)
      && SameBackends(s, t) && SameQueues(s, t) && SameRunning(s, t)
      && (forall h :: h != g ==> t.At(h) == s.At(h))
  {
    var l := Without(s.groups, g);
    var t := SlotFree(s.(groups := l), g);
    GroupUnlinkMoves(s, g);
    MovedWf(s, t, g, FreeList);
    UnlinkGroupFrames(s, g, l);
    UnlinkGroupRespects(s, g, l, f, self, L, A);
    UnlinkGroupIndexed(s, g);
    BoundFrame(s, t); SortedFrame(s, t, x); WithinMaxFrame(s, t, max); SentFrame(s, t);
  }
}
