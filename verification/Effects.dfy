/** What the sections of backends and parent processes bring about, besides keeping the invariant:
    who is woken, started, collected, disposed of and given up. */
module Effects {
  import opened Lists
  import opened Store
  import opened Conservation
  import opened Sections
  import opened Invariants
  import opened Respect
  import opened Keeping
  import opened Granting
  import opened Groups
  import opened InTheHand
  import opened Scripts
  import opened Sweeping
  import opened FrontendSide
  import opened BackendSide
  import opened Footprint
  import opened Protocol
  import opened Safety
  import opened Runs
  import opened Recency
  import opened Progress
  import opened ExitStatus

  // ---- the backend ----

  lemma SameFirst(s: Store, t: Store, g: nat, f: nat, max: nat)
    requires Inv(s, 0, max) && SameQueues(s, t) && t.live == s.live && FirstAlive(s, g, f)
    ensures FirstAlive(t, g, f)
  {
    forall e | e in s.Gr(g).fes ensures t.Fe(e) == s.Fe(e) { QueuedFe(s, g, e); }
    forall e | Precedes(t.Gr(g).fes, e, f) ensures t.Fe(e).pid !in t.live { PrecedesIn(s.Gr(g).fes, e, f); }
  }

  /** The first live frontend of the queue of g, if there is one, has been signalled. */
  ghost predicate FirstSignalled(s: Store, t: Store, g: nat) {
    forall f :: FirstAlive(s, g, f) ==> t.Fe(f).sent
  }

  lemma SignalsFirst(s: Store, g: nat, self: nat, max: nat)
    requires Inv(s, 0, max) && IsGr(s, g)
    ensures var t := SendSigs(ClearStarting(s, g, self), g);
      && (SomeWaits(s, g) ==> FirstSignalled(s, t, g))
      && t.Gr(g).starting == if s.Gr(g).starting == self then 0 else s.Gr(g).starting
  {
    hide Inv, FirstAlive, SendSigs, Respects, SameBackends;
    var s1 := ClearStarting(s, g, self);
    ClearStartingKeeps(s, g, self, max, 0, {}, {});
    ClearedSame(s, g, self);
    StartingKept(s1, g, max);
    if SomeWaits(s, g) {
      forall f | FirstAlive(s, g, f) ensures SendSigs(s1, g).Fe(f).sent {
        SameFirst(s, s1, g, f, max);
        FirstIn(s1, g, f);
        SendSigsMarks(s1, g, f, max);
      }
    }
  }

  lemma FirstIn(s: Store, g: nat, f: nat)
    requires FirstAlive(s, g, f)
    ensures f in s.Gr(g).fes && s.Fe(f).pid in s.live
  {
  }

  lemma ClearedSame(s: Store, g: nat, self: nat)
    requires IsGr(s, g)
    ensures var t := ClearStarting(s, g, self);
      && SameQueues(s, t) && t.live == s.live && (SomeWaits(s, g) ==> SomeWaits(t, g))
      && t.Gr(g).starting == if s.Gr(g).starting == self then 0 else s.Gr(g).starting
  {
    var t := ClearStarting(s, g, self);
    if SomeWaits(s, g) {
      var b :| b in s.Gr(g).bes && s.Be(b).feRunning == 0;
      assert b in t.Gr(g).bes && t.Be(b).feRunning == 0;
    }
  }

  lemma {:induction false} DropDeadStarting(s: Store, g: nat, max: nat)
    requires Inv(s, 0, max)
    ensures DropDead(s, g).Gr(g).starting == s.Gr(g).starting
    decreases |s.Gr(g).fes|
  {
    hide Inv;
    var l := s.Gr(g).fes;
    if l != [] && s.Fe(l[0]).pid !in s.live {
      Queueing(s, g, l[0], max);
      FrontendDisposeInv(s, g, l[0], 0, max);
      DropDeadStarting(FrontendDispose(s, g, l[0]), g, max);
    }
  }

  lemma StartingKept(s: Store, g: nat, max: nat)
    requires Inv(s, 0, max)
    ensures SendSigs(s, g).Gr(g).starting == s.Gr(g).starting
  {
    hide Inv;
    DropDeadStarting(s, g, max);
    DropDeadKeeps(s, g, 0, max, 0, 0, {}, {});
    var s1 := DropDead(s, g);
    if s1.Gr(g).fes != [] { Queueing(s1, g, s1.Gr(g).fes[0], max); }
  }

  /** A backend that goes idle waits in the list of its group, with this maturity, is not recorded as
      starting, and the first live frontend of the queue is woken. */
  lemma GoIdleEffect(s: Store, g: nat, b: nat, self: nat, m: nat, max: nat)
    requires Inv(s, 0, max) && IsBe(s, b) && s.m[b].be.grp == g && s.m[b].be.feRunning == b && s.m[b].be.pid == self
    requires self != 0
    ensures var t := GoIdle(s, g, b, self, m);
      && WaitsIn(t, g, b) && t.Be(b) == Backend(self, 0, m, g) && t.Gr(g).starting != self && FirstSignalled(s, t, g)
  {
    hide Inv, Respects, FirstAlive, SameBackends, BeWaitPut, SendSigs, ClearStarting;
    Grouped(s, g, b, max);
    MaturityKeeps(s, b, m, self, max, {}, {});
    var s1 := s.PutBe(b, s.Be(b).(maturity := m));
    MaturityFrames(s, b, m, self, {}, {});
    BeWaitPutKeeps(s1, g, b, max, self, {}, {});
    var s2 := BeWaitPut(s1, g, b);
    Grouped(s2, g, b, max);
    SignalsFirst(s2, g, self, max);
    GoIdleKeeps(s, g, b, self, m, max, {}, {});
    var t := GoIdle(s, g, b, self, m);
    Grouped(t, g, b, max);
    assert s2.Be(b).feRunning == 0 && b in s2.Gr(g).bes;
    forall f | FirstAlive(s, g, f) ensures FirstAlive(s2, g, f) {
      SameFirst(s, s1, g, f, max);
      SameFirst(s1, s2, g, f, max);
    }
  }

  /** Where a backend stands that has come to the head of its loop: it leaves if its parent is gone or its
      group invalid; else it waits and has woken the next frontend. */
  ghost predicate Looped(s: Store, t: Store, next: Proc, g: nat, b: nat, p: nat, orphan: bool, m: nat) {
    if orphan || !s.Valid(g) then next == Leaving
    else
      && next == BWaiting(g, b) && WaitsIn(t, g, b) && t.Be(b) == Backend(p, 0, m, g)
      && t.Gr(g).starting != p && FirstSignalled(s, t, g)
  }

  lemma LoopEffect(s: Store, g: nat, b: nat, p: nat, orphan: bool, m: nat, max: nat)
    requires Inv(s, 0, max) && Holds(s, p, BFresh(g, b)) && p != 0
    ensures var (t, next) := Loop(s, g, b, p, orphan, m); Looped(s, t, next, g, b, p, orphan, m)
  {
    hide Inv, GoIdle, FirstSignalled;
    if !orphan && s.Valid(g) { GoIdleEffect(s, g, b, p, m, max); }
  }

  lemma RanEffect(s: Store, g: nat, b: nat, p: nat, val: int, orphan: bool, max: nat)
    requires Inv(s, 0, max) && Holds(s, p, BBusy(g, b)) && p != 0
    ensures var (t, next) := RunOver(s, g, b, p, val, true, orphan); Looped(s, t, next, g, b, p, orphan, 2)
  {
    hide Inv, Respects, Exited, Loop, FirstAlive;
    ServedKeeps(s, b, val, p, max, {}, {});
    RanSame(s, b, val, max, g);
    var s1 := Exited(s, b, false, val);
    LoopEffect(s1, g, b, p, orphan, 2, max);
    forall f | FirstAlive(s, g, f) ensures FirstAlive(s1, g, f) { SameFirst(s, s1, g, f, max); }
  }

  lemma RanSame(s: Store, b: nat, val: int, max: nat, g: nat)
    requires Inv(s, 0, max) && IsBe(s, b)
    ensures var t := Exited(s, b, false, val); SameQueues(s, t) && t.live == s.live && t.Valid(g) == s.Valid(g)
  {
    ExitedFrames(s, b, false, val);
    ExitedEffect(s, b, false, val);
  }

  /** In every run, a backend that is ready, or that has run a script and may run another, waits from then
      on, is not starting any more and has woken the first live frontend of its queue; it leaves exactly
      if its parent process is gone or its group is invalid. */
  lemma IdleAgain(tr: seq<Sys>, es: seq<Event>, max: nat, i: nat)
    requires History(tr, es, max) && i < |es| && (es[i].Ready? || (es[i].Finished? && es[i].again))
    ensures var e, pc := es[i], Pc(tr[i], es[i].pid);
      Looped(tr[i].s, tr[i + 1].s, Pc(tr[i + 1], e.pid), pc.g, pc.b, e.pid, e.orphan, if e.Ready? then 1 else 2)
  {
    hide Inv, NoHand, Loop, RunOver, Looped;
    var y, e, pc := tr[i], es[i], Pc(tr[i], es[i].pid);
    Safe(tr, es, max, i);
    assert Enabled(y, e, max) && tr[i + 1] == Next(y, e, max);
    assert Holds(y.s, e.pid, pc);
    if e.Ready? {
      LoopEffect(y.s, pc.g, pc.b, e.pid, e.orphan, 1, max);
    } else {
      RanEffect(y.s, pc.g, pc.b, e.pid, e.val, e.orphan, max);
    }
  }

  /** A backend that has been connected to is not starting any more, and if another one waits the first
      live frontend of the queue is woken; in an invalid group it leaves. */
  lemma AcceptedWakes(tr: seq<Sys>, es: seq<Event>, max: nat, i: nat)
    requires History(tr, es, max) && i < |es| && es[i].Accept?
    ensures var e, g, b, s, t := es[i], Pc(tr[i], es[i].pid).g, Pc(tr[i], es[i].pid).b, tr[i].s, tr[i + 1].s;
      if !s.Valid(g) then Pc(tr[i + 1], e.pid) == Leaving && t == s
      else
        && Pc(tr[i + 1], e.pid) == BBusy(g, b) && t.Gr(g).starting != e.pid
        && (SomeWaits(s, g) ==> FirstSignalled(s, t, g))
  {
    hide Inv, NoHand, Accepted, FirstSignalled;
    var y, e, pc := tr[i], es[i], Pc(tr[i], es[i].pid);
    Safe(tr, es, max, i);
    assert Enabled(y, e, max) && tr[i + 1] == Next(y, e, max);
    assert Holds(y.s, e.pid, pc);
    Grouped(y.s, pc.g, pc.b, max);
    AcceptedEffect(y.s, pc.g, e.pid, max);
  }

  lemma AcceptedEffect(s: Store, g: nat, self: nat, max: nat)
    requires Inv(s, 0, max) && IsGr(s, g) && self != 0
    ensures var t := Accepted(s, g, self); t.Gr(g).starting != self && (SomeWaits(s, g) ==> FirstSignalled(s, t, g))
  {
    hide Inv, FirstSignalled, SendSigs;
    SignalsFirst(s, g, self, max);
  }

  // ---- the parent process ----

  /** start_child starts a backend exactly if no process but the caller is starting, the group is below the
      limit and the fork succeeds; it is the last of the list then, busy until it is ready. */
  lemma StartChildExact(s: Store, g: nat, self: nat, max: nat, child: nat)
    requires Inv(s, 0, max) && IsGr(s, g) && 0 !in s.live
    ensures var (t, b) := StartChild(s, g, self, max, child); var x := s.Gr(g).starting;
      && (b != 0 <==> (x !in s.live || x == self) && (max == 0 || |s.Gr(g).bes| < max) && child != 0)
      && (b != 0 ==> t.Gr(g).bes == s.Gr(g).bes + [b] && b !in s.Gr(g).bes && t.Be(b) == Backend(child, b, 0, g))
      && (b == 0 ==> t.Gr(g).bes == s.Gr(g).bes && t.live == s.live)
  {
    hide Inv, Respects, NewChild, SameQueues, SameRunning;
    BeStartingKeeps(s, g, 0, max, 0, 0, {}, {});
    var (s1, p) := BeStarting(s, g);
    if (p == 0 || p == self) && BelowMax(s1, g, max) { NewChildLast(s1, g, max, child); }
  }

  lemma NewChildLast(s: Store, g: nat, max: nat, child: nat)
    requires Inv(s, 0, max) && IsGr(s, g) && BelowMax(s, g, max)
    ensures var (t, b) := NewChild(s, g, child);
      && (b != 0 <==> child != 0)
      && (b != 0 ==> t.Gr(g).bes == s.Gr(g).bes + [b] && b !in s.Gr(g).bes && t.Be(b) == Backend(child, b, 0, g))
      && (b == 0 ==> t.Gr(g).bes == s.Gr(g).bes && t.live == s.live)
  {
    hide Bound, Sorted, SentAtHead, WithinMax, Indexed;
    var v := Bck(Backend(0, 0, 0, g));
    AllocFrom(s, v);
    var (s2, b) := CreateSlot(s, g);
    assert b != g && b !in s.Gr(g).bes by { assert ListOf(s, BeList(g)) == s.Gr(g).bes; }
    if child == 0 {
      WithoutAbsent(s.Gr(g).bes, b);
      WithoutLast(s.Gr(g).bes, b);
    }
  }

  lemma {:induction false} WithoutLast(l: seq<nat>, x: nat)
    requires x !in l
    ensures Without(l + [x], x) == l
  {
    if l == [] {
      assert l + [x] == [x];
    } else {
      assert (l + [x])[0] == l[0] && (l + [x])[1..] == l[1..] + [x];
      WithoutLast(l[1..], x);
    }
  }

  /** A group with neither backends nor frontends goes with all it has, and its parent process is killed
      unless it is the caller; any other stays as it is. */
  lemma CleanupExact(s: Store, g: nat, self: nat, n: nat)
    requires Wf(s) && IsGr(s, g)
    ensures var t := Cleanup(s, g, self);
      if s.Gr(g).bes != [] || s.Gr(g).fes != [] then t == s
      else
        && t.At(g) == Free && g in t.free && g !in t.groups
        && (s.Gr(g).parent in t.live ==> s.Gr(g).parent == self)
        && (s.Valid(g) && (n in s.Gr(g).scripts || n == s.Gr(g).name != 0) ==> t.At(n) == Free)
  {
    if s.Gr(g).bes == [] && s.Gr(g).fes == [] {
      var s1 := s.(live := s.live - ({s.Gr(g).parent} - {self}));
      LiveWf(s, s1.live);
      InvalidateEffect(s1, g);
      InvalidateWf(s1, g);
      var s2 := Invalidate(s1, g);
      if s.Valid(g) && (n in s.Gr(g).scripts || n == s.Gr(g).name != 0) { StrippedSlots(s1, g, n); }
    }
  }

  lemma StrippedSlots(s: Store, g: nat, n: nat)
    requires Wf(s) && IsGr(s, g) && s.Valid(g) && (n in s.Gr(g).scripts || n == s.Gr(g).name != 0)
    ensures Invalidate(s, g).At(n) == Free && n != g
  {
    InvalidateEffect(s, g);
    InvalidateWf(s, g);
    var t := Invalidate(s, g);
    assert n in ListOf(s, Home(s, n)) by {
      if n in s.Gr(g).scripts { assert n in ListOf(s, ScrList(g)); } else { assert n in ListOf(s, NameOf(g)); }
    }
    assert n in t.m && Home(t, n) != InHand ==> n in ListOf(t, Home(t, n));
  }

  // ---- dead backends ----

  lemma DisposedOnly(s: Store, g: nat, b: nat, max: nat)
    requires Inv(s, 0, max) && b in s.Gr(g).bes
    ensures var t := BackendDispose(s, g, b);
      && Inv(t, 0, max) && t.Gr(g).bes == Without(s.Gr(g).bes, b) && t.live == s.live
      && t.Gr(g).fes == s.Gr(g).fes && t.Valid(g) == s.Valid(g) && IsGr(t, g)
      && forall c :: c in t.Gr(g).bes ==> t.Be(c).pid == s.Be(c).pid
  {
    hide Sorted, SentAtHead, WithinMax, Indexed;
    ListedBe(s, g, b);
    DisposedList(s, g, b);
    BackendDisposeInv(s, g, b, 0, max);
    ExitedEffect(s, b, true, SIGKILL);
    var s1 := Exited(s, b, true, SIGKILL);
    NotItsGroup(s, g, b);
    UnlinkShape(s1, g, b);
    forall c | c in s.Gr(g).bes ensures s1.Be(c).pid == s.Be(c).pid { OtherBackend(s, g, b, c); }
  }

  lemma NotItsGroup(s: Store, g: nat, b: nat)
    requires Wf(s) && Bound(s) && IsBe(s, b) && IsGr(s, g)
    ensures g != b && g != s.m[b].be.feRunning
  {
    NoZero(s);
  }

  lemma OtherBackend(s: Store, g: nat, b: nat, c: nat)
    requires Wf(s) && Bound(s) && IsBe(s, b) && c in s.Gr(g).bes
    ensures IsBe(s, c) && (c == b || c != s.m[b].be.feRunning)
  {
    NoZero(s);
    ListedBe(s, g, c);
  }

  /** Of the backends of the list exactly the live ones stay. */
  lemma {:induction false} DisposeDeadExact(s: Store, g: nat, l: seq<nat>, max: nat, b: nat)
    requires Inv(s, 0, max) && NoDup(l) && (forall c :: c in l ==> c in s.Gr(g).bes) && IsGr(s, g)
    ensures var t := DisposeDead(s, g, l);
      && (b in t.Gr(g).bes <==> b in s.Gr(g).bes && (b !in l || s.Be(b).pid in s.live))
      && (b in t.Gr(g).bes ==> t.Be(b).pid == s.Be(b).pid)
      && t.Gr(g).fes == s.Gr(g).fes && t.Valid(g) == s.Valid(g) && t.live == s.live && IsGr(t, g)
    decreases |l|
  {
    hide Inv;
    if l != [] {
      var c := l[0];
      DisposedOnly(s, g, c, max);
      var s1 := if s.Be(c).pid in s.live then s else BackendDispose(s, g, c);
      forall d | d in l[1..] ensures d in s1.Gr(g).bes { assert d in l && d != c; }
      assert b in l <==> b == c || b in l[1..];
      DisposeDeadExact(s1, g, l[1..], max, b);
    }
  }

  /** The list after one report. */
  lemma CollectOneList(s: Store, g: nat, e: Exit, b: nat, max: nat)
    requires Inv(s, 0, max) && IsGr(s, g)
    ensures var t := CollectOne(s, g, e); var c := FindPid(s, s.Gr(g).bes, e.pid);
      && Inv(t, 0, max) && IsGr(t, g) && t.Gr(g).bes == (if c == 0 then s.Gr(g).bes else Without(s.Gr(g).bes, c))
      && (forall d :: d in t.Gr(g).bes ==> t.Be(d).pid == s.Be(d).pid) && t.live == s.live
  {
    hide Sorted, SentAtHead, WithinMax, Indexed;
    var c := FindPid(s, s.Gr(g).bes, e.pid);
    FindPidFinds(s, s.Gr(g).bes, e.pid);
    if c != 0 {
      ListedBe(s, g, c);
      ExitedInv(s, c, e.onSig, e.val, 0, max);
      ExitedEffect(s, c, e.onSig, e.val);
      NotItsGroup(s, g, c);
      var s1 := Exited(s, c, e.onSig, e.val);
      forall d | d in s.Gr(g).bes ensures s1.Be(d).pid == s.Be(d).pid { OtherBackend(s, g, c, d); }
      DisposedOnly(s1, g, c, max);
    }
  }

  lemma {:induction false} FindPidNone(s: Store, l: seq<nat>, b: nat, pid: nat)
    requires b in l && s.Be(b).pid == pid && 0 !in l
    ensures FindPid(s, l, pid) != 0
  {
    if l[0] != b && s.Be(l[0]).pid != pid { FindPidNone(s, l[1..], b, pid); }
  }

  /** Exactly the children that waitpid reports leave the list: a reported one that is the first of its
      pid goes, and who is not reported stays. */
  lemma {:induction false} Reaped(s: Store, g: nat, es: seq<Exit>, b: nat, max: nat)
    requires Inv(s, 0, max) && IsGr(s, g) && b in s.Gr(g).bes
    requires forall c :: Precedes(s.Gr(g).bes, c, b) ==> s.Be(c).pid != s.Be(b).pid
    ensures b in CollectAll(s, g, es).Gr(g).bes <==> forall e :: e in es ==> e.pid != s.Be(b).pid
    decreases |es|
  {
    hide Inv, CollectOne;
    if es != [] {
      CollectOneList(s, g, es[0], b, max);
      var s1, l, c := CollectOne(s, g, es[0]), s.Gr(g).bes, FindPid(s, s.Gr(g).bes, es[0].pid);
      FindPidFinds(s, l, es[0].pid);
      assert forall e :: e in es <==> e == es[0] || e in es[1..];
      if es[0].pid == s.Be(b).pid {
        FindPidFirst(s, l, b, es[0].pid);
        NotZeroIn(s, g, b, max);
        StaysAway(s1, g, es[1..], b, max);
      } else {
        forall d | Precedes(s1.Gr(g).bes, d, b) ensures s1.Be(d).pid != s.Be(b).pid {
          PrecedesWithout(l, c, d, b);
          PrecedesIn(s1.Gr(g).bes, d, b);
        }
        Reaped(s1, g, es[1..], b, max);
      }
    }
  }

  lemma NotZeroIn(s: Store, g: nat, b: nat, max: nat)
    requires Inv(s, 0, max) && b in s.Gr(g).bes
    ensures b != 0
  {
    NoZero(s);
  }

  lemma {:induction false} StaysAway(s: Store, g: nat, es: seq<Exit>, b: nat, max: nat)
    requires Inv(s, 0, max) && IsGr(s, g) && b !in s.Gr(g).bes
    ensures b !in CollectAll(s, g, es).Gr(g).bes
    decreases |es|
  {
    hide Inv, CollectOne;
    if es != [] {
      CollectOneList(s, g, es[0], b, max);
      StaysAway(CollectOne(s, g, es[0]), g, es[1..], b, max);
    }
  }

  /** do_cleanup looks at the group before ours, from the first one at the last. If its parent process is
      gone, it is invalid from then on, its dead backends go and no others, and it goes itself exactly if no
      backend is left and no frontend queues there; otherwise nothing changes. */
  lemma DoCleanupExact(s: Store, g: nat, self: nat, max: nat, i: nat, b: nat)
    requires Inv(s, 0, max) && i < |s.groups| && s.groups[i] == g && IsGr(s, g) && 0 !in s.live && self != 0
    ensures var p := s.groups[if i > 0 then i - 1 else |s.groups| - 1]; var t := DoCleanup(s, g, self);
      if p == g || s.Gr(p).parent in s.live then t == s
      else
        && !t.Valid(p) && (b in t.Gr(p).bes <==> b in s.Gr(p).bes && s.Be(b).pid in s.live)
        && (IsGr(t, p) <==> t.Gr(p).bes != [] || s.Gr(p).fes != [])
  {
    hide Inv, Respects, GroupPrev, SameBackends, SameQueues, SameRunning;
    GroupBefore(s, g, i, max);
    var p := GroupPrev(s, g);
    if p != g && s.Gr(p).parent !in s.live {
      ParentSigKeeps(s, p, 0, max, 0, 0, {}, {});
      OrphanExact(ParentSig(s, p).0, p, self, max, b);
      OrphanSame(s, p, b, max);
    }
  }

  lemma GroupBefore(s: Store, g: nat, i: nat, max: nat)
    requires Inv(s, 0, max) && i < |s.groups| && s.groups[i] == g && IsGr(s, g)
    ensures GroupPrev(s, g) == s.groups[if i > 0 then i - 1 else |s.groups| - 1]
    ensures IsGr(s, GroupPrev(s, g)) && GroupPrev(s, g) != 0
  {
    hide Bound, Sorted, SentAtHead, WithinMax, Indexed;
    assert s.groups == ListOf(s, GroupList);
    IndexAt(s.groups, i);
    GroupPrevFinds(s, g);
    NoZero(s);
  }

  lemma OrphanSame(s: Store, p: nat, b: nat, max: nat)
    requires Inv(s, 0, max) && IsGr(s, p)
    ensures var t := ParentSig(s, p).0; t.Gr(p).bes == s.Gr(p).bes && t.Gr(p).fes == s.Gr(p).fes
    ensures b in s.Gr(p).bes ==> ParentSig(s, p).0.Be(b).pid == s.Be(b).pid
  {
    hide Inv, Respects, SameQueues, SameRunning;
    ParentSigKeeps(s, p, 0, max, 0, 0, {}, {});
    SamePid(s, ParentSig(s, p).0, b);
    InvalidateKeeps(s, p, 0, max, 0, 0, {}, {});
  }

  lemma OrphanExact(s: Store, p: nat, self: nat, max: nat, b: nat)
    requires Inv(s, 0, max) && IsGr(s, p) && s.Gr(p).parent == 0 && 0 !in s.live && self != 0
    ensures var s2 := Invalidate(s, p); var t := Cleanup(DisposeDead(s2, p, s2.Gr(p).bes), p, self);
      && !t.Valid(p) && (b in t.Gr(p).bes <==> b in s.Gr(p).bes && s.Be(b).pid in s.live)
      && (IsGr(t, p) <==> t.Gr(p).bes != [] || s.Gr(p).fes != [])
  {
    hide Bound, Sorted, SentAtHead, WithinMax, Indexed, Respects, SameBackends, SameRunning, SameQueues;
    InvalidateKeeps(s, p, 0, max, 0, 0, {}, {});
    var s2 := Invalidate(s, p);
    SamePid(s, s2, b);
    assert ListOf(s2, BeList(p)) == s2.Gr(p).bes;
    DisposeDeadExact(s2, p, s2.Gr(p).bes, max, b);
    DisposeDeadKeeps(s2, p, s2.Gr(p).bes, 0, 0, max, {}, {});
    CleanupExact(DisposeDead(s2, p, s2.Gr(p).bes), p, self, 0);
  }

  /** A parent process takes the group over unless another one has it that lives or is about to start;
      from a dead one it takes an invalid group. */
  lemma TakeOverExact(s: Store, g: nat, self: nat, max: nat)
    requires Inv(s, 0, max) && IsGr(s, g)
    ensures var (t, ok) := TakeOver(s, g, self); var p := s.Gr(g).parent;
      && (ok <==> p == 0 || p == self || (p !in s.live && p != s.Gr(g).starting))
      && (!ok ==> t == s)
      && (ok ==> t.Gr(g).parent == self && t.Valid(g) == (s.Valid(g) && p in {0, self}))
  {
    hide Inv, Respects;
    StartBeKeeps(s, g, 0, max, 0, 0, {}, {});
    InvalidateKeeps(s, g, 0, max, 0, 0, {}, {});
  }

  /** A parent process leaves exactly if its alarm has come and no backend is in its group any more. */
  lemma LeavesWhenIdle(tr: seq<Sys>, es: seq<Event>, max: nat, i: nat)
    requires History(tr, es, max) && i < |es| && es[i].Tended?
    ensures var g := Pc(tr[i], es[i].pid).g;
      if es[i].alrm && tr[i + 1].s.Gr(g).bes == [] then Pc(tr[i + 1], es[i].pid) == Leaving
      else Pc(tr[i + 1], es[i].pid) == PServing(g)
  {
    hide Inv, NoHand, Tend, Holds;
    var y, e := tr[i], es[i];
    Safe(tr, es, max, i);
    assert Enabled(y, e, max) && tr[i + 1] == Next(y, e, max);
    TendedHolds(y, e, max);
    var g := Pc(y, e.pid).g;
    TendKeeps(y.s, g, e.pid, e.es, e.usr1, max, e.child, {e.pid}, {e.pid});
    var s1 := Tend(y.s, g, e.pid, e.es, e.usr1, max, e.child).0;
    CleanupLists(s1, g, e.pid, max);
    TenderPc(y, e, max);
  }

  lemma TendedHolds(y: Sys, e: Event, max: nat)
    requires SysInv(y, max) && Enabled(y, e, max) && e.Tended?
    ensures var g := Pc(y, e.pid).g;
      && Inv(y.s, 0, max) && IsGr(y.s, g) && y.s.m[g].gr.parent == e.pid && e.child !in y.s.live && 0 !in y.s.live
  {
    assert Holds(y.s, e.pid, Pc(y, e.pid));
  }

  lemma CleanupLists(s: Store, g: nat, self: nat, max: nat)
    requires Inv(s, 0, max) && IsGr(s, g)
    ensures Cleanup(s, g, self).Gr(g).bes == s.Gr(g).bes
  {
    hide Inv, Respects, SameQueues, SameRunning;
    CleanupKeeps(s, g, 0, max, g, self, {}, {});
  }

  lemma TenderPc(y: Sys, e: Event, max: nat)
    requires SysInv(y, max) && Enabled(y, e, max) && e.Tended?
    ensures Pc(Next(y, e, max), e.pid) == Effect(y, e, max).1
  {
    hide Effect, Inv, NoHand, Owned;
  }

  /** It starts a backend exactly if it was asked to, the group is valid, no process but itself is starting,
      the group is below the limit once the dead have been collected, and the fork succeeds. */
  lemma StartsWhenAsked(tr: seq<Sys>, es: seq<Event>, max: nat, i: nat)
    requires History(tr, es, max) && i < |es| && es[i].Tended?
    ensures var y, e, g := tr[i], es[i], Pc(tr[i], es[i].pid).g; var x := y.s.Gr(g).starting;
      e.child in tr[i + 1].s.live <==>
        && e.usr1 && y.s.Valid(g) && (x !in y.s.live || x == e.pid) && e.child != 0
        && (max == 0 || |CollectAll(y.s, g, e.es).Gr(g).bes| < max)
  {
    hide Inv, NoHand, CollectAll, StartChild, Respects;
    var y, e := tr[i], es[i];
    Safe(tr, es, max, i);
    assert Enabled(y, e, max) && tr[i + 1] == Next(y, e, max);
    TendedHolds(y, e, max);
    var s, g, p := y.s, Pc(y, e.pid).g, e.pid;
    CollectAllKeeps(s, g, e.es, 0, p, max, {}, {});
    CollectAllValid(s, g, e.es, max);
    var s1 := CollectAll(s, g, e.es);
    StartChildExact(s1, g, p, max, e.child);
    assert Holds(s, p, Pc(y, p));
    ParentWakeKeeps(s, g, p, e.es, e.usr1, e.alrm, max, e.child, s.live, Serving(y));
    TendedStarts(s, g, p, e.es, e.usr1, e.alrm, max, e.child);
  }

  lemma TendedStarts(s: Store, g: nat, self: nat, es: seq<Exit>, usr1: bool, alrm: bool, max: nat, child: nat)
    ensures ParentWake(s, g, self, es, usr1, alrm, max, child).2 ==
      var s1 := CollectAll(s, g, es); if s1.Valid(g) && usr1 then StartChild(s1, g, self, max, child).1 else 0
  {
    hide StartChild, DoCleanup, CollectAll;
  }

  lemma {:induction false} CollectAllValid(s: Store, g: nat, es: seq<Exit>, max: nat)
    requires Inv(s, 0, max) && IsGr(s, g)
    ensures CollectAll(s, g, es).Valid(g) == s.Valid(g)
    decreases |es|
  {
    hide Inv, CollectOne;
    if es != [] {
      CollectOneList(s, g, es[0], 0, max);
      CollectOneValid(s, g, es[0], max);
      CollectAllValid(CollectOne(s, g, es[0]), g, es[1..], max);
    }
  }

  lemma CollectOneValid(s: Store, g: nat, e: Exit, max: nat)
    requires Inv(s, 0, max) && IsGr(s, g)
    ensures CollectOne(s, g, e).Valid(g) == s.Valid(g)
  {
    hide Sorted, SentAtHead, WithinMax, Indexed;
    var c := FindPid(s, s.Gr(g).bes, e.pid);
    FindPidFinds(s, s.Gr(g).bes, e.pid);
    if c != 0 {
      ListedBe(s, g, c);
      ExitedInv(s, c, e.onSig, e.val, 0, max);
      ExitedEffect(s, c, e.onSig, e.val);
      NotItsGroup(s, g, c);
      DisposedOnly(Exited(s, c, e.onSig, e.val), g, c, max);
    }
  }

  // ---- the frontend ----

  /** Afterwards the last running frontend, if there is one, lives. */
  lemma {:induction false} CleanedEnd(s: Store, max: nat)
    requires Inv(s, 0, max)
    ensures var t := CleanRunning(s); t.running != [] ==> t.Fe(t.running[|t.running| - 1]).pid in t.live
    decreases |s.running|
  {
    hide Inv, Respects, SameQueues, RemoveRunning;
    if s.running != [] {
      var f := s.running[|s.running| - 1];
      if s.Fe(f).pid !in s.live {
        CleanOneKeeps(s, max, 0, 0, {}, {});
        var s1 := RemoveRunning(s, f);
        CleanedEnd(s1, max);
        assert CleanRunning(s) == CleanRunning(s1);
      }
    }
  }

  /** A backend that could not be connected to goes, and so does the slot of the frontend, which begins
      anew. */
  ghost predicate Dropped(t: Store, g: nat, b: nat, next: Proc) {
    next == FIdle(true) && b !in t.Gr(g).bes
  }

  lemma SettleFails(s: Store, g: nat, f: nat, self: nat, b: nat, max: nat)
    requires Inv(s, b, max) && Held(s, f, self) && Grabbed(s, g, b)
    ensures Dropped(Settle(s, g, f, self, b, Failed), g, b, AfterOutcome(Settled(f, b, Failed, true)))
  {
    hide Bound, Sorted, SentAtHead, WithinMax, Indexed;
    var s1 := s.PutFe(f, s.Fe(f).(backend := b));
    assert Cleanup(s, g, self) == s;
    UnlinkShape(s1, g, b);
  }

  lemma TurnFails(s: Store, g: nat, f: nat, self: nat, did: bool, max: nat, child: nat)
    requires Inv(s, 0, max) && IsQueued(s, f) && s.m[f].fe.loc == Queue(g) && s.m[f].fe.pid == self
    requires self in s.live && 0 !in s.live && TryGet(s, g, f).1 != 0
    ensures var (t, o) := QueueTurn(s, g, f, self, did, max, child, Failed);
      Dropped(t, g, TryGet(s, g, f).1, AfterOutcome(o))
  {
    hide Inv, TryGet, Ping, Settle, Leave, Dropped, Respects, SameBackends, SameRunning, SameIndex;
    TryGetKeeps(s, g, f, self, max, {self}, {});
    var (s1, b) := TryGet(s, g, f);
    LeaveKeeps(s1, g, f, self, b, max, {}, {});
    LeaveGrabbed(s1, g, f, b);
    SettleFails(Leave(s1, g, f), g, f, self, b, max);
  }

  lemma RequestFails(s: Store, self: nat, cleaned: bool, key: Key, opt: GroupOpt, max: nat, child: nat)
    requires Inv(s, 0, max) && 0 !in s.live && self in s.live && ConnectGets(s, self, cleaned, key, opt).1 != 0
    ensures var (t, o) := ConnectSection(s, self, cleaned, key, opt, max, child, Failed);
      Dropped(t, Arrive(s, self, cleaned, key, opt).1, ConnectGets(s, self, cleaned, key, opt).1, AfterOutcome(o))
  {
    hide Inv, Arrive, QuickGet, TryGet, QueueTurn, Dropped, Settle, Join, Respects, Fair, SameQueues;
    ArriveKeeps(s, self, cleaned, key, opt, max, {}, {});
    var (s2, g, f) := Arrive(s, self, cleaned, key, opt);
    QuickGetKeeps(s2, g, f, self, max, {}, {});
    var (s3, b) := QuickGet(s2, g);
    RequestShape(s, self, cleaned, key, opt, max, child, Failed);
    if b != 0 {
      SettleFails(s3, g, f, self, b, max);
    } else {
      JoinInv(s3, g, f, self, max);
      JoinLive(s3, g, f);
      TurnFails(Join(s3, g, f), g, f, self, false, max, child);
    }
  }

  /** In any run, when the connection to a granted backend fails the backend is disposed of and the
      frontend tries again. */
  lemma FailureRetries(tr: seq<Sys>, es: seq<Event>, max: nat, i: nat)
    requires History(tr, es, max) && i < |es| && Granted(tr[i], es[i]).1 != 0 && es[i].c == Failed
    ensures Dropped(tr[i + 1].s, GrantGroup(tr[i], es[i]), Granted(tr[i], es[i]).1, Pc(tr[i + 1], es[i].pid))
  {
    hide Inv, NoHand, TryGet, QueueTurn, Dropped, ConnectGets, ConnectSection, Arrive;
    var y, e := tr[i], es[i];
    Safe(tr, es, max, i);
    assert Enabled(y, e, max) && tr[i + 1] == Next(y, e, max);
    ActorPc(y, e, max);
    assert Holds(y.s, e.pid, Pc(y, e.pid));
    if e.Wake? {
      TurnFails(y.s, Pc(y, e.pid).g, Pc(y, e.pid).f, e.pid, Pc(y, e.pid).didSpawn, max, e.child);
    } else {
      RequestFails(y.s, e.pid, Pc(y, e.pid).cleaned, e.key, e.opt, max, e.child);
    }
  }

  // ---- the first section of a parent process, and the last one of a backend ----

  /** What a parent process finds when it has looked its group up: of the old groups the records are as
      they were, and a new one has none. */
  lemma LookedUp(s: Store, key: Key, opt: GroupOpt, max: nat)
    requires Inv(s, 0, max) && 0 !in s.live
    ensures var (t, g) := ScriptFind(s, key, opt); var v, w := s.Gr(g), t.Gr(g);
      && Inv(t, 0, max) && IsGr(t, g) && t.live == s.live && w.bes == v.bes
      && (IsGr(s, g) ==> w.starting == v.starting && w.parent == v.parent)
      && (!IsGr(s, g) ==> w.starting == 0 && w.parent == 0)
  {
    hide Inv, SameQueues, SameRunning, ScriptFind;
    ScriptFindKeeps(s, key, opt, max);
    var (t, g) := ScriptFind(s, key, opt);
    if IsGr(s, g) { assert t.m[g].gr.parent == s.m[g].gr.parent; } else { BlankWhenNew(s, key, opt, max); }
  }

  lemma {:induction false} SearchAddsNone(s: Store, gs: seq<nat>, key: Key, opt: GroupOpt, nameMatch: nat, max: nat)
    requires Inv(s, 0, max) && Searching(s, gs, key, opt, nameMatch)
    ensures NoNewGroups(s, Scan(s, gs, key, opt, nameMatch).0)
    decreases |gs|
  {
    hide Bound, Sorted, SentAtHead, WithinMax;
    if gs != [] && s.Valid(gs[0]) {
      var g := gs[0];
      if opt.Named? && !NameMatch(s, g, opt.text) {
        SearchingPass(s, gs, key, opt, nameMatch, nameMatch);
        SearchAddsNone(s, gs[1..], key, opt, nameMatch, max);
      } else {
        var match1 := if opt.Named? then g else nameMatch;
        var y := FindScript(s, s.Gr(g).scripts, key);
        NoZeroScript(s, g);
        FindScriptFinds(s, s.Gr(g).scripts, key);
        if y == 0 {
          SearchingPass(s, gs, key, opt, nameMatch, match1);
          SearchAddsNone(s, gs[1..], key, opt, match1, max);
        } else if s.At(y).key.mtime != key.mtime {
          InvalidateKeeps(s, g, 0, max, 0, 0, {}, {});
          InvalidateStrips(s, g);
          StrippedRespects(s, Invalidate(s, g), g, 0, 0, {}, {});
          SearchingStripped(s, Invalidate(s, g), gs, key, opt, nameMatch, match1);
          InvalidateEffect(s, g);
          SearchAddsNone(Invalidate(s, g), gs[1..], key, opt, match1, max);
        }
      }
    }
  }

  lemma BlankWhenNew(s: Store, key: Key, opt: GroupOpt, max: nat)
    requires Inv(s, 0, max) && !IsGr(s, ScriptFind(s, key, opt).1)
    ensures var (t, g) := ScriptFind(s, key, opt); t.Gr(g).starting == 0 && t.Gr(g).parent == 0
  {
    hide Bound, Sorted, SentAtHead, WithinMax, SameBackends, SameQueues, SameRunning, Scan;
    SearchStarts(s, key, opt);
    ScanKeeps(s, s.groups, key, opt, 0, max);
    SearchAddsNone(s, s.groups, key, opt, 0, max);
    var (s1, g, m) := Scan(s, s.groups, key, opt, 0);
    NewGroupShape(s1, key, opt);
    assert m != 0 && s1.Valid(m) ==> IsGr(s1, m);
  }

  /** The first section of a parent process: it leaves exactly if another one has the group that lives or
      is about to start; else it is the parent process of the group, and has started a backend exactly if
      none but itself is starting, the group is below the limit and the fork has succeeded. */
  ghost predicate Began(s: Store, t: Store, next: Proc, p: nat, child: nat, max: nat, g: nat) {
    var v := s.Gr(g);
    if v.parent == 0 || v.parent == p || (v.parent !in s.live && v.parent != v.starting)
    then
      && next == PServing(g) && t.Gr(g).parent == p
      && (child in t.live <==>
            (v.starting !in s.live || v.starting == p) && (max == 0 || |v.bes| < max) && child != 0)
    else next == Leaving && t.live == s.live
  }

  lemma StartBegins(s: Store, p: nat, key: Key, opt: GroupOpt, max: nat, child: nat)
    requires Inv(s, 0, max) && 0 !in s.live && p in s.live && child !in s.live
    ensures var (t, o) := ParentStart(s, p, key, opt, max, child);
      Began(s, t, if o.Leaves? then Leaving else PServing(o.g), p, child, max, ScriptFind(s, key, opt).1)
  {
    hide Inv, ScriptFind, TakeOver, StartChild, Respects;
    LookedUp(s, key, opt, max);
    var (s1, g) := ScriptFind(s, key, opt);
    TakeOverExact(s1, g, p, max);
    TakeOverKeeps(s1, g, p, max, 0, {}, {});
    TakenSame(s1, g, p, max);
    var (s2, ours) := TakeOver(s1, g, p);
    if ours {
      StartChildExact(s2, g, p, max, child);
      StartChildKeeps(s2, g, p, max, child, 0, {}, {});
    }
  }

  lemma TakenSame(s: Store, g: nat, self: nat, max: nat)
    requires Inv(s, 0, max) && IsGr(s, g)
    ensures var v := TakeOver(s, g, self).0.Gr(g); v.starting == s.Gr(g).starting && v.bes == s.Gr(g).bes
  {
    hide Inv, Respects, SameQueues, SameRunning, StartBe;
    StartBeKeeps(s, g, 0, max, 0, 0, {}, {});
  }

  /** So it is in every run. */
  lemma FirstSection(tr: seq<Sys>, es: seq<Event>, max: nat, i: nat)
    requires History(tr, es, max) && i < |es| && es[i].Start?
    ensures var e := es[i];
      Began(tr[i].s, tr[i + 1].s, Pc(tr[i + 1], e.pid), e.pid, e.child, max, ScriptFind(tr[i].s, e.key, e.opt).1)
  {
    hide Inv, NoHand, ParentStart, ScriptFind, Began;
    var y, e := tr[i], es[i];
    Safe(tr, es, max, i);
    assert Enabled(y, e, max) && tr[i + 1] == Next(y, e, max);
    ForkFresh(y, e, max);
    StartBegins(y.s, e.pid, e.key, e.opt, max, e.child);
  }

  lemma ForkFresh(y: Sys, e: Event, max: nat)
    requires SysInv(y, max) && Enabled(y, e, max) && e.Start?
    ensures e.child !in y.s.live && (e.child == e.pid ==> e.child == 0)
  {
  }

  /** A backend that has made its last run leaves, and in a group whose parent process is gone nobody is
      left to start another: it is invalid then. */
  lemma LastRun(tr: seq<Sys>, es: seq<Event>, max: nat, i: nat)
    requires History(tr, es, max) && i < |es| && es[i].Finished? && !es[i].again
    ensures var g := Pc(tr[i], es[i].pid).g; var v := tr[i].s.Gr(g);
      && Pc(tr[i + 1], es[i].pid) == Leaving
      && tr[i + 1].s.Valid(g) ==
           (tr[i].s.Valid(g) && (v.parent in tr[i].s.live || (v.parent != 0 && v.parent == v.starting)))
  {
    hide Inv, NoHand, Exited, StartBe;
    var y, e, pc := tr[i], es[i], Pc(tr[i], es[i].pid);
    Safe(tr, es, max, i);
    assert Enabled(y, e, max) && tr[i + 1] == Next(y, e, max);
    assert Holds(y.s, e.pid, pc);
    ServedKeeps(y.s, pc.b, e.val, e.pid, max, {}, {});
    var s1 := Exited(y.s, pc.b, false, e.val);
    Grouped(s1, pc.g, pc.b, max);
    RanGroup(y.s, pc.g, pc.b, e.val, max);
    AskedValid(s1, pc.g, max);
  }

  lemma RanGroup(s: Store, g: nat, b: nat, val: int, max: nat)
    requires Inv(s, 0, max) && IsBe(s, b) && s.m[b].be.grp == g
    ensures var t := Exited(s, b, false, val); t.Gr(g) == s.Gr(g) && t.live == s.live
  {
    OnOneList(s, g, b);
    ExitedEffect(s, b, false, val);
    NotItsGroup(s, g, b);
  }

  lemma AskedValid(s: Store, g: nat, max: nat)
    requires Inv(s, 0, max) && IsGr(s, g)
    ensures var v := s.Gr(g); var valid := StartBe(s, g).0.Valid(g);
      valid == (s.Valid(g) && (v.parent in s.live || (v.parent != 0 && v.parent == v.starting)))
  {
    hide Inv, Respects;
    InvalidateKeeps(s, g, 0, max, 0, 0, {}, {});
  }
}
