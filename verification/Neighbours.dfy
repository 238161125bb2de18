/** The sweep of a queued frontend over the dead frontends before it: whom it leaves there. */
module Neighbours {
  import opened Lists
  import opened Store
  import opened Conservation
  import opened Invariants
  import opened Respect
  import opened Keeping
  import opened Groups
  import opened Granting
  import opened Sections
  import opened Sweeping

  // ---- lists and rotations ----

  lemma {:induction false} WithoutJoin(a: seq<nat>, b: seq<nat>, x: nat)
    ensures Without(a + b, x) == Without(a, x) + Without(b, x)
  {
    if a == [] {
      assert a + b == b;
    } else {
      assert (a + b)[1..] == a[1..] + b;
      WithoutJoin(a[1..], b, x);
    }
  }

  lemma RotationOf(a: seq<nat>, g: nat, b: seq<nat>)
    requires NoDup(a + [g] + b)
    ensures Rotation(a + [g] + b, g) == b + (a + [g])
  {
    var l := a + [g] + b;
    IndexAt(l, |a|);
    assert l[|a|] == g && l[|a| + 1..] == b && l[..|a| + 1] == a + [g];
  }

  lemma Parts(l: seq<nat>, g: nat) returns (a: seq<nat>, b: seq<nat>)
    requires NoDup(l) && g in l
    ensures l == a + [g] + b && Rotation(l, g) == b + (a + [g])
  {
    IndexIn(l, g);
    a, b := l[..Index(l, g)], l[Index(l, g) + 1..];
    assert l == a + [g] + b;
    RotationOf(a, g, b);
  }

  /** Taking another group off the list takes it out of the rotation. */
  lemma RotationWithout(l: seq<nat>, g: nat, h: nat)
    requires NoDup(l) && g in l && h != g
    ensures Rotation(Without(l, h), g) == Without(Rotation(l, g), h)
  {
    hide Rotation, NoDup, Without;
    var a, b := Parts(l, g);
    WithoutNoDup(l, h);
    WithoutThree(a, g, b, h);
    RotationOf(Without(a, h), g, Without(b, h));
  }

  lemma WithoutThree(a: seq<nat>, g: nat, b: seq<nat>, h: nat)
    requires h != g
    ensures Without(a + [g] + b, h) == Without(a, h) + [g] + Without(b, h)
    ensures Without(b + (a + [g]), h) == Without(b, h) + (Without(a, h) + [g])
  {
    WithoutJoin(a, [g], h);
    WithoutJoin(a + [g], b, h);
    WithoutJoin(b, a + [g], h);
    assert Without([g], h) == [g];
  }

  /** From a group of the rotation on, the rotation goes on in the same order. */
  lemma RotationTurns(l: seq<nat>, g: nat, k: nat)
    requires NoDup(l) && g in l && k < |Rotation(l, g)|
    ensures var r := Rotation(l, g); Rotation(l, r[k]) == r[k + 1..] + r[..k + 1]
  {
    hide Rotation, NoDup;
    var a, b := Parts(l, g);
    var c, r := a + [g], b + (a + [g]);
    if k < |b| {
      var x, b1, b2 := b[k], b[..k], b[k + 1..];
      assert l == (c + b1) + [x] + b2;
      RotationOf(c + b1, x, b2);
      assert r[k] == x && r[k + 1..] == b2 + c && r[..k + 1] == b1 + [x];
      assert (b2 + c) + (b1 + [x]) == b2 + (c + b1 + [x]);
    } else {
      var j := k - |b|;
      var x, c1, c2 := c[j], c[..j], c[j + 1..];
      assert c == c1 + [x] + c2 && l == c1 + [x] + (c2 + b);
      RotationOf(c1, x, c2 + b);
      assert r[k] == x && r[k + 1..] == c2 && r[..k + 1] == b + (c1 + [x]);
      assert c2 + (b + (c1 + [x])) == (c2 + b) + (c1 + [x]);
    }
  }

  // ---- the last frontend of the first group that has one ----

  lemma {:induction false} LastSame(s: Store, t: Store, gs: seq<nat>)
    requires forall h :: h in gs ==> (s.Gr(h).fes == [] <==> t.Gr(h).fes == [])
    requires forall h :: h in gs && s.Gr(h).fes != [] ==>
      s.Gr(h).fes[|s.Gr(h).fes| - 1] == t.Gr(h).fes[|t.Gr(h).fes| - 1]
    ensures LastQueued(s, gs) == LastQueued(t, gs)
  {
    if gs != [] { LastSame(s, t, gs[1..]); }
  }

  lemma {:induction false} LastWithout(s: Store, gs: seq<nat>, h: nat)
    requires s.Gr(h).fes == []
    ensures LastQueued(s, Without(gs, h)) == LastQueued(s, gs)
  {
    if gs != [] {
      LastWithout(s, gs[1..], h);
      if gs[0] != h { assert Without(gs, h)[1..] == Without(gs[1..], h); }
    }
  }

  lemma {:induction false} LastJoin(s: Store, a: seq<nat>, b: seq<nat>)
    ensures LastQueued(s, a + b) ==
      if exists h :: h in a && s.Gr(h).fes != [] then LastQueued(s, a) else LastQueued(s, b)
  {
    if a == [] {
      assert a + b == b;
    } else {
      assert (a + b)[0] == a[0] && (a + b)[1..] == a[1..] + b;
      LastJoin(s, a[1..], b);
      assert forall h :: h in a <==> h == a[0] || h in a[1..];
    }
  }

  /** Where in the list the group stands that is found. */
  lemma {:induction false} LastPlace(s: Store, gs: seq<nat>, g: nat) returns (k: nat)
    requires g in gs && s.Gr(g).fes != []
    ensures k < |gs| && s.Gr(gs[k]).fes != [] && forall i :: 0 <= i < k ==> s.Gr(gs[i]).fes == []
    ensures LastQueued(s, gs) == (gs[k], s.Gr(gs[k]).fes[|s.Gr(gs[k]).fes| - 1])
  {
    if s.Gr(gs[0]).fes != [] {
      k := 0;
    } else {
      var k1 := LastPlace(s, gs[1..], g);
      k := k1 + 1;
    }
  }

  lemma QueueOf(s: Store, g: nat, f: nat)
    requires Wf(s) && f in s.Gr(g).fes
    ensures NoDup(s.Gr(g).fes) && NoDup(s.groups) && g in s.groups && Index(s.Gr(g).fes, f) < |s.Gr(g).fes|
    ensures var r := Rotation(s.groups, g); r != [] && r[|r| - 1] == g
  {
    QueuedFe(s, g, f);
    assert s.Gr(g).fes == ListOf(s, FeList(g)) && s.groups == ListOf(s, GroupList);
    assert Home(s, g) == GroupList;
    IndexIn(s.Gr(g).fes, f);
    IndexIn(s.groups, g);
  }

  /** Going down the list from place j and round its end one comes past place m before place k. */
  predicate Passed(j: nat, m: nat, k: nat) {
    if j < k then j < m < k else j < m || m < k
  }

  /** Whom fe_prev finds: the next one up the queue; from the head of a queue, the last one in the queue
      of the first group after this one, round the list of groups, that has a queue. */
  lemma FePrevIs(s: Store, g: nat, f: nat, i: nat) returns (j: nat, k: nat)
    requires Wf(s) && i < |s.Gr(g).fes| && s.Gr(g).fes[i] == f
    ensures i > 0 ==> FePrev(s, g, f) == (g, s.Gr(g).fes[i - 1])
    ensures j < |s.groups| && s.groups[j] == g && k < |s.groups|
    ensures i == 0 ==>
      var h := s.groups[k];
      && s.Gr(h).fes != [] && FePrev(s, g, f) == (h, s.Gr(h).fes[|s.Gr(h).fes| - 1])
      && forall m :: 0 <= m < |s.groups| && Passed(j, m, k) ==> s.Gr(s.groups[m]).fes == []
  {
    hide Wf;
    QueueOf(s, g, f);
    IndexAt(s.Gr(g).fes, i);
    var gs := s.groups;
    IndexIn(gs, g);
    j, k := Index(gs, g), 0;
    if i == 0 {
      var r := Rotation(gs, g);
      assert g in r;
      var q := LastPlace(s, r, g);
      var n := |gs| - 1 - j;
      k := if q < n then j + 1 + q else q - n;
      forall m | 0 <= m < |gs| && Passed(j, m, k) ensures s.Gr(gs[m]).fes == [] {
        var p := if m > j then m - j - 1 else n + m;
        assert r[p] == gs[m];
      }
    }
  }

  // ---- one frontend fewer ----

  /** Frontend e of group h is gone, and with it perhaps its group. */
  ghost predicate Gone(s: Store, t: Store, h: nat, e: nat) {
    && (forall k :: t.Gr(k).fes == if k == h then Without(s.Gr(h).fes, e) else s.Gr(k).fes)
    && (t.groups == s.groups || (t.groups == Without(s.groups, h) && t.Gr(h).fes == []))
  }

  lemma SweepOneGone(s: Store, h: nat, e: nat, self: nat)
    requires Wf(s) && e in s.Gr(h).fes && (!s.Valid(h) ==> s.Gr(h).name == 0)
    ensures Gone(s, SweepOne(s, h, e, self), h, e)
  {
    QueuedFe(s, h, e);
    assert e in ListOf(s, FeList(h)) && Home(s, e) == FeList(h);
    var s1 := FrontendDispose(s, h, e);
    FrontendDisposeWf(s, h, e);
    assert IsGr(s, h) && IsGr(s1, h);
    forall k ensures s1.Gr(k).fes == if k == h then Without(s.Gr(h).fes, e) else s.Gr(k).fes { }
    CleanupGone(s1, h, self);
  }

  lemma CleanupGone(s: Store, h: nat, self: nat)
    requires Wf(s) && IsGr(s, h)
    ensures var t := Cleanup(s, h, self);
      && (forall k :: t.Gr(k).fes == s.Gr(k).fes)
      && (t.groups == s.groups || (t.groups == Without(s.groups, h) && t.Gr(h).fes == []))
  {
    if s.Gr(h).bes == [] && s.Gr(h).fes == [] {
      CleanupEffect(s, h, self);
      var s1 := s.(live := s.live - ({s.Gr(h).parent} - {self}));
      LiveWf(s, s1.live);
      InvalidateEffect(s1, h);
      var s2 := Invalidate(s1, h);
      WithoutTail(s.groups, h);
      forall k ensures Cleanup(s, h, self).Gr(k).fes == s.Gr(k).fes {
        if k != h { assert s2.At(k) == s1.At(k) || !s1.At(k).Grp?; }
      }
    }
  }

  lemma WithoutTail(l: seq<nat>, x: nat)
    ensures Without(MoveTail(l, x), x) == Without(l, x)
  {
    WithoutJoin(Without(l, x), [x], x);
    WithoutAbsent(Without(l, x), x);
  }

  lemma TakeBefore(l: seq<nat>, i: nat)
    requires NoDup(l) && 0 < i < |l|
    ensures var l1 := Without(l, l[i - 1]);
      && Index(l, l[i - 1]) == i - 1 && Index(l1, l[i]) == i - 1 < |l1| && l1[|l1| - 1] == l[|l| - 1]
      && (i > 1 ==> l1[i - 2] == l[i - 2])
  {
    hide NoDup, Without, Index;
    NoDupDistinct(l);
    WithoutAt(l, i - 1);
    WithoutNoDup(l, l[i - 1]);
    var l1 := Without(l, l[i - 1]);
    assert l1 == l[..i - 1] + l[i..];
    assert l1[i - 1] == l[i];
    IndexAt(l1, i - 1);
    IndexAt(l, i - 1);
  }

  /** Up the queue one comes to the one before, and at its head to the next group that has a queue. */
  lemma PrevAt(s: Store, g: nat, i: nat)
    requires NoDup(s.Gr(g).fes) && i < |s.Gr(g).fes|
    ensures var l := s.Gr(g).fes;
      FePrev(s, g, l[i]) == if i > 0 then (g, l[i - 1]) else LastQueued(s, Rotation(s.groups, g))
  {
    hide NoDup, Rotation, LastQueued;
    IndexAt(s.Gr(g).fes, i);
  }

  /** e stands before f in the same queue. */
  lemma PrevInQueue(s: Store, t: Store, g: nat, f: nat)
    requires Wf(s) && f in s.Gr(g).fes && Index(s.Gr(g).fes, f) > 0
    requires var (h, e) := FePrev(s, g, f); Gone(s, t, h, e) && t.groups == s.groups
    ensures var (h, e) := FePrev(s, g, f); h == g && FePrev(t, g, f) == FePrev(s, g, e)
  {
    hide NoDup, Wf, Rotation, LastQueued, FePrev;
    QueueOf(s, g, f);
    var l := s.Gr(g).fes;
    var i := Index(l, f);
    PrevAt(s, g, i);
    PrevAt(s, g, i - 1);
    TakeBefore(l, i);
    WithoutNoDup(l, l[i - 1]);
    assert t.Gr(g).fes == Without(l, l[i - 1]);
    PrevAt(t, g, i - 1);
    if i == 1 { LastSame(s, t, Rotation(s.groups, g)); }
  }

  lemma DropLast(l: seq<nat>)
    requires NoDup(l) && l != []
    ensures Without(l, l[|l| - 1]) == l[..|l| - 1] && NoDup(l[..|l| - 1])
  {
    NoDupDistinct(l);
    WithoutAt(l, |l| - 1);
    WithoutNoDup(l, l[|l| - 1]);
  }

  /** e is the last in the queue of the next group that has one, and not the only one. */
  lemma PrevOfMany(s: Store, t: Store, g: nat, f: nat)
    requires Wf(s) && f in s.Gr(g).fes && Index(s.Gr(g).fes, f) == 0
    requires var (h, e) := FePrev(s, g, f); e != f && Gone(s, t, h, e) && t.groups == s.groups && |s.Gr(h).fes| > 1
    ensures var (h, e) := FePrev(s, g, f); FePrev(t, g, f) == FePrev(s, h, e)
  {
    hide NoDup, Wf, Rotation, LastQueued, FePrev;
    QueueOf(s, g, f);
    PrevAt(s, g, 0);
    var r := Rotation(s.groups, g);
    assert g in r;
    var k := LastPlace(s, r, g);
    var (h, e) := FePrev(s, g, f);
    var l := s.Gr(h).fes;
    QueueOf(s, h, e);
    PrevAt(s, h, |l| - 1);
    DropLast(l);
    assert t.Gr(h).fes == l[..|l| - 1] && t.Gr(g).fes[0] == f;
    PrevAt(t, g, 0);
    var k1 := LastPlace(t, r, g);
    assert k1 == k;
  }

  /** e is alone in its queue: the one before it is found in the groups after its own. */
  lemma BeforeAlone(s: Store, g: nat, f: nat) returns (k: nat)
    requires Wf(s) && f in s.Gr(g).fes && Index(s.Gr(g).fes, f) == 0
    requires var (h, e) := FePrev(s, g, f); e != f && s.Gr(h).fes == [e]
    ensures var r := Rotation(s.groups, g); var (h, e) := FePrev(s, g, f);
      && k < |r| && h == r[k] != g && (forall i :: 0 <= i < k ==> s.Gr(r[i]).fes == [])
      && FePrev(s, h, e) == LastQueued(s, r[k + 1..])
  {
    hide NoDup, Wf, Rotation;
    QueueOf(s, g, f);
    var l, r := s.groups, Rotation(s.groups, g);
    assert g in r;
    k := LastPlace(s, r, g);
    RotationTurns(l, g, k);
    LastJoin(s, r[k + 1..], r[..k + 1]);
    assert r[k + 1..][|r[k + 1..]| - 1] == g && g in r[k + 1..];
  }

  lemma AfterAlone(s: Store, t: Store, r: seq<nat>, k: nat, h: nat)
    requires k < |r| && h == r[k] && t.Gr(h).fes == [] && (forall i :: 0 <= i < k ==> s.Gr(r[i]).fes == [])
    requires forall j :: j != h ==> t.Gr(j).fes == s.Gr(j).fes
    requires h !in r[k + 1..]
    ensures LastQueued(t, r) == LastQueued(s, r[k + 1..])
  {
    LastJoin(t, r[..k + 1], r[k + 1..]);
    assert r == r[..k + 1] + r[k + 1..];
    LastSame(s, t, r[k + 1..]);
  }

  lemma OnceIn(l: seq<nat>, g: nat, k: nat)
    requires NoDup(l) && g in l && k < |Rotation(l, g)|
    ensures Rotation(l, g)[k] !in Rotation(l, g)[k + 1..]
  {
    hide Rotation, NoDup;
    var a, b := Parts(l, g);
    var r := Rotation(l, g);
    NoDupDistinct(l);
    assert l == (a + [g]) + b;
    forall j | k < j < |r| ensures r[j] != r[k] {
      var k1 := if k < |b| then |a| + 1 + k else k - |b|;
      var j1 := if j < |b| then |a| + 1 + j else j - |b|;
      assert l[k1] == r[k] && l[j1] == r[j];
    }
  }

  lemma PrevOfOne(s: Store, t: Store, g: nat, f: nat)
    requires Wf(s) && f in s.Gr(g).fes && Index(s.Gr(g).fes, f) == 0
    requires var (h, e) := FePrev(s, g, f); e != f && Gone(s, t, h, e) && s.Gr(h).fes == [e]
    ensures var (h, e) := FePrev(s, g, f); FePrev(t, g, f) == FePrev(s, h, e)
  {
    hide NoDup, Wf, Rotation, LastQueued;
    QueueOf(s, g, f);
    var r := Rotation(s.groups, g);
    var k := BeforeAlone(s, g, f);
    var (h, e) := FePrev(s, g, f);
    OnceIn(s.groups, g, k);
    assert t.Gr(h).fes == [];
    AfterAlone(s, t, r, k, h);
    if t.groups != s.groups {
      RotationWithout(s.groups, g, h);
      LastWithout(t, r, h);
    }
    assert t.Gr(g).fes == s.Gr(g).fes;
  }

  /** The neighbour found before the removal is the neighbour after it. */
  lemma PrevStays(s: Store, t: Store, g: nat, f: nat)
    requires Wf(s) && f in s.Gr(g).fes
    requires var (h, e) := FePrev(s, g, f); e != f && Gone(s, t, h, e)
    ensures var (h, e) := FePrev(s, g, f); FePrev(t, g, f) == FePrev(s, h, e)
  {
    hide Wf, Rotation, LastQueued;
    FePrevFinds(s, g, f);
    var (h, e) := FePrev(s, g, f);
    QueueOf(s, g, f);
    QueueOf(s, h, e);
    WithoutNoDup(s.Gr(h).fes, e);
    if Index(s.Gr(g).fes, f) > 0 {
      assert h == g && f in t.Gr(h).fes;
      PrevInQueue(s, t, g, f);
    } else if |s.Gr(h).fes| > 1 {
      PrevOfMany(s, t, g, f);
    } else {
      assert s.Gr(h).fes == [e];
      PrevOfOne(s, t, g, f);
    }
  }

  lemma Absent(s: Store, t: Store, h: nat, e: nat, k: nat)
    requires Wf(s) && e in s.Gr(h).fes && Gone(s, t, h, e)
    ensures e !in t.Gr(k).fes
  {
    QueuedFe(s, h, e);
    if k != h && e in s.Gr(k).fes { QueuedFe(s, k, e); }
  }

  // ---- the sweep ----

  /** Once the sweep is over, the frontend before f in the cyclic order is alive or f itself. */
  lemma {:induction false} SweepFinds(s: Store, h: nat, e: nat, g: nat, f: nat, self: nat, max: nat)
    requires Inv(s, 0, max) && self != 0 && f in s.Gr(g).fes && s.Fe(f).pid in s.live && FePrev(s, g, f) == (h, e)
    requires s.Fe(f).pid == self
    ensures var t := Sweep(s, h, e, self);
      f in t.Gr(g).fes && t.At(f) == s.At(f) && t.Fe(FePrev(t, g, f).1).pid in t.live
    decreases |Frontends(s)|
  {
    hide FePrev, Wf, Bound, Sorted, SentAtHead, WithinMax;
    FePrevFinds(s, g, f);
    QueuedFe(s, h, e);
    if s.Fe(e).pid !in s.live {
      FePrevFinds(s, h, e);
      var (h1, e1) := FePrev(s, h, e);
      var s1 := SweepOne(s, h, e, self);
      SweepOneFewer(s, h, e, self);
      SweepOneKeeps(s, h, e, self, max, 0, {}, {});
      SweepOneGone(s, h, e, self);
      PrevStays(s, s1, g, f);
      SweepOneNext(s, h, e, self, g, f);
      FePrevFinds(s1, g, f);
      Absent(s, s1, h, e, h1);
      SweepFinds(s1, h1, e1, g, f, self, max);
    }
  }

  /** After frontend_check_prev the frontend before the caller, in its queue or round the groups, is
      alive. */
  lemma PrevAlive(s: Store, g: nat, f: nat, self: nat, max: nat)
    requires Inv(s, 0, max) && f in s.Gr(g).fes && s.Fe(f).pid == self && self in s.live && self != 0
    ensures var t := CheckPrev(s, g, f, self);
      f in t.Gr(g).fes && t.At(f) == s.At(f) && t.Fe(FePrev(t, g, f).1).pid in t.live
  {
    var (h, e) := FePrev(s, g, f);
    SweepFinds(s, h, e, g, f, self, max);
  }

  /** Every queued frontend that it has removed was dead. */
  lemma GoneWereDead(s: Store, g: nat, f: nat, self: nat, max: nat, k: nat)
    requires Inv(s, 0, max) && f in s.Gr(g).fes && s.Fe(f).pid == self && self in s.live && self != 0 && IsQueued(s, k)
    ensures var t := CheckPrev(s, g, f, self);
      s.m[k].fe.pid in t.live ==> IsQueued(t, k) && t.m[k].fe.loc == s.m[k].fe.loc
  {
    hide CheckPrev, Bound, Sorted, SentAtHead, WithinMax, Indexed;
    NoZero(s);
    CheckPrevKeeps(s, g, f, self, max, 0, {}, {});
    var t := CheckPrev(s, g, f, self);
    CheckPrevKeeps(s, g, f, self, max, 0, t.live, {});
    assert KeepsFrontends(s, t, 0, t.live) && IsFe(s, k);
  }

  /** Those that stay queued are as they were. */
  lemma {:induction false} SweepSame(s: Store, h: nat, e: nat, self: nat, max: nat, k: nat)
    requires Inv(s, 0, max) && e in s.Gr(h).fes && self != 0
    ensures var t := Sweep(s, h, e, self); IsQueued(t, k) ==> IsQueued(s, k) && t.m[k].fe == s.m[k].fe
    decreases |Frontends(s)|
  {
    hide FePrev, Wf, Bound, Sorted, SentAtHead, WithinMax;
    QueuedFe(s, h, e);
    if s.Fe(e).pid !in s.live {
      FePrevFinds(s, h, e);
      var (h1, e1) := FePrev(s, h, e);
      SweepOneFewer(s, h, e, self);
      SweepOneKeeps(s, h, e, self, max, 0, {}, {});
      SweepOneSame(s, h, e, self, max, k);
      if e1 != e {
        SweepOneNext(s, h, e, self, h1, e1);
        SweepSame(SweepOne(s, h, e, self), h1, e1, self, max, k);
      }
    }
  }

  lemma SweepOneSame(s: Store, h: nat, e: nat, self: nat, max: nat, k: nat)
    requires Inv(s, 0, max) && e in s.Gr(h).fes
    ensures var t := SweepOne(s, h, e, self); IsQueued(t, k) ==> IsQueued(s, k) && t.m[k].fe == s.m[k].fe
  {
    hide Bound, Sorted, SentAtHead, WithinMax, Respects;
    QueuedFe(s, h, e);
    assert IsGr(s, h);
    FrontendDisposeInv(s, h, e, 0, max);
    FrontendDisposeFrames(s, h, e);
    CleanupKeeps(FrontendDispose(s, h, e), h, 0, max, h, self, {}, {});
  }

  /** A caller with only dead frontends before it stands at the head of its queue afterwards. */
  lemma HeadAfterDead(s: Store, g: nat, f: nat, self: nat, max: nat)
    requires Inv(s, 0, max) && f in s.Gr(g).fes && s.Fe(f).pid == self && self in s.live && self != 0
    requires forall e :: Precedes(s.Gr(g).fes, e, f) ==> s.Fe(e).pid !in s.live
    ensures var t := CheckPrev(s, g, f, self); t.Gr(g).fes != [] && t.Gr(g).fes[0] == f
  {
    hide Inv, FePrev, CheckPrev;
    var t := CheckPrev(s, g, f, self);
    PrevAlive(s, g, f, self, max);
    CheckPrevKeeps(s, g, f, self, max, 0, {}, {});
    if t.Gr(g).fes[0] != f {
      PrevPrecedes(t, g, f, max);
      var e := FePrev(t, g, f).1;
      assert Precedes(s.Gr(g).fes, e, f);
      CheckPrevSame(s, g, f, self, max, e);
    }
  }

  lemma CheckPrevSame(s: Store, g: nat, f: nat, self: nat, max: nat, k: nat)
    requires Inv(s, 0, max) && f in s.Gr(g).fes && self != 0
    ensures var t := CheckPrev(s, g, f, self); IsQueued(t, k) ==> IsQueued(s, k) && t.Fe(k) == s.Fe(k)
  {
    FePrevFinds(s, g, f);
    var (h, e) := FePrev(s, g, f);
    SweepSame(s, h, e, self, max, k);
  }

  lemma PrevPrecedes(t: Store, g: nat, f: nat, max: nat)
    requires Inv(t, 0, max) && f in t.Gr(g).fes && t.Gr(g).fes[0] != f
    ensures var e := FePrev(t, g, f).1; Precedes(t.Gr(g).fes, e, f) && IsQueued(t, e)
  {
    QueueOf(t, g, f);
    var l := t.Gr(g).fes;
    var i := Index(l, f);
    PrecedesAt(l, i - 1, i);
    QueuedFe(t, g, l[i - 1]);
  }
}
