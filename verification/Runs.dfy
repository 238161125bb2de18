/** What holds in every state of every run of the system. */
module Runs {
  import opened Lists
  import opened Store
  import opened Conservation
  import opened Sections
  import opened Invariants
  import opened Respect
  import opened Granting
  import opened InTheHand
  import opened Sweeping
  import opened FrontendSide
  import opened BackendSide
  import opened Footprint
  import opened Protocol
  import opened Safety

  lemma BootSafe(max: nat)
    ensures SysInv(BOOT, max)
  {
    var s := BOOT.s;
    assert forall n :: Home(s, n) == Nowhere;
    assert forall id :: ListOf(s, id) == [];
  }

  /** Every state of every run satisfies the invariant of the system. */
  lemma {:induction false} Safe(tr: seq<Sys>, es: seq<Event>, max: nat, i: nat)
    requires History(tr, es, max) && i < |tr|
    ensures SysInv(tr[i], max)
  {
    if i == 0 { BootSafe(max); } else {
      Safe(tr, es, max, i - 1);
      assert Enabled(tr[i - 1], es[i - 1], max) && tr[i] == Next(tr[i - 1], es[i - 1], max);
      StepKeeps(tr[i - 1], es[i - 1], max);
    }
  }

  // ---- conservation ----

  /** At every unlock each slot of the file is on exactly one list, once. */
  lemma EverySlotOnce(tr: seq<Sys>, es: seq<Event>, max: nat, i: nat, n: nat)
    requires History(tr, es, max) && i < |tr| && 0 < n <= tr[i].s.alloced
    ensures var s := tr[i].s;
      && n in ListOf(s, Home(s, n)) && NoDup(ListOf(s, Home(s, n)))
      && forall id :: n in ListOf(s, id) ==> id == Home(s, n)
  {
    Safe(tr, es, max, i);
    assert n in tr[i].s.m && !IsHand(tr[i].s, n);
  }

  /** The file is removed only when no slot in it is used any more. */
  lemma RemovableWhenEmpty(tr: seq<Sys>, es: seq<Event>, max: nat, i: nat)
    requires History(tr, es, max) && i < |tr|
    ensures tr[i].s.groups == [] && tr[i].s.running == [] ==>
      forall n :: 0 < n <= tr[i].s.alloced ==> n in tr[i].s.free
  {
    Safe(tr, es, max, i);
    var s := tr[i].s;
    if s.groups == [] && s.running == [] {
      forall n | 0 < n <= s.alloced ensures n in s.free { OnlyFree(s, n); }
    }
  }

  lemma OnlyFree(s: Store, n: nat)
    requires Wf(s) && NoHand(s) && s.groups == [] && s.running == [] && 0 < n <= s.alloced
    ensures n in s.free
  {
    assert !IsHand(s, n);
    forall g ensures !s.At(g).Grp? {
      assert Home(s, g) == GroupList ==> g in ListOf(s, GroupList);
    }
    assert n in ListOf(s, Home(s, n));
  }

  /** The slots a process counts on are on their lists, and so is the group they belong to. */
  predicate Listed(s: Store, pc: Proc) {
    match pc
    case FQueued(g, f, _) => f in s.Gr(g).fes && g in s.groups
    case FRunning(f) => f in s.running
    case PServing(g) => g in s.groups
    case BFresh(g, b) => b in s.Gr(g).bes && g in s.groups
    case BWaiting(g, b) => b in s.Gr(g).bes && g in s.groups
    case BBusy(g, b) => b in s.Gr(g).bes && g in s.groups
    case _ => true
  }

  lemma HeldListed(s: Store, p: nat, pc: Proc)
    requires Wf(s) && Holds(s, p, pc)
    ensures Listed(s, pc)
  {
    var x := OwnSlot(pc);
    if x != 0 {
      assert x in ListOf(s, Home(s, x));
      if pc.FQueued? || pc.BFresh? || pc.BWaiting? || pc.BBusy? {
        assert Home(s, pc.g) == GroupList && pc.g in ListOf(s, GroupList);
      }
    } else {
      assert Home(s, 0) == Nowhere;
    }
  }

  /** What a live process counts on is as it left it, on its list, in a group that is still there. */
  lemma FindsItsSlot(tr: seq<Sys>, es: seq<Event>, max: nat, i: nat, p: nat)
    requires History(tr, es, max) && i < |tr| && p in tr[i].s.live
    ensures Holds(tr[i].s, p, Pc(tr[i], p)) && Listed(tr[i].s, Pc(tr[i], p))
  {
    Safe(tr, es, max, i);
    assert Holds(tr[i].s, p, Pc(tr[i], p));
    HeldListed(tr[i].s, p, Pc(tr[i], p));
  }

  /** No slot is used twice: two live processes never count on the same one, and each finds its own. */
  lemma NeverShared(tr: seq<Sys>, es: seq<Event>, max: nat, i: nat, p: nat, q: nat)
    requires History(tr, es, max) && i < |tr| && p != q && p in tr[i].s.live && q in tr[i].s.live
    ensures OwnSlot(Pc(tr[i], p)) != 0 ==> OwnSlot(Pc(tr[i], p)) != OwnSlot(Pc(tr[i], q))
    ensures Holds(tr[i].s, p, Pc(tr[i], p)) && Listed(tr[i].s, Pc(tr[i], p))
  {
    Safe(tr, es, max, i);
    FindsItsSlot(tr, es, max, i, p);
    FindsItsSlot(tr, es, max, i, q);
    NoZero(tr[i].s);
  }

  /** A section takes at most four slots from beyond slots_alloced. */
  lemma FourSlots(tr: seq<Sys>, es: seq<Event>, max: nat, i: nat)
    requires History(tr, es, max) && i < |es|
    ensures tr[i + 1].s.alloced <= tr[i].s.alloced + 4
  {
    Safe(tr, es, max, i);
    EventSound(tr[i], es[i], max);
  }

  /** A backend list never grows beyond a limit that is set. */
  lemma MaxBackends(tr: seq<Sys>, es: seq<Event>, max: nat, i: nat, g: nat)
    requires History(tr, es, max) && i < |tr| && max != 0
    ensures |tr[i].s.Gr(g).bes| <= max
  {
    Safe(tr, es, max, i);
  }

  /** A backend serves at most one frontend, the two point at each other, and no link leads to
      a slot of another kind. */
  lemma OneFrontendEach(tr: seq<Sys>, es: seq<Event>, max: nat, i: nat, b: nat, f: nat, f2: nat)
    requires History(tr, es, max) && i < |tr| && IsBe(tr[i].s, b) && IsRun(tr[i].s, f) && IsRun(tr[i].s, f2)
    ensures var m := tr[i].s.m;
      && (m[b].be.feRunning == f <==> m[f].fe.backend == b)
      && (m[f].fe.backend == b && m[f2].fe.backend == b ==> f == f2)
      && (m[f].fe.backend != 0 ==> IsBe(tr[i].s, m[f].fe.backend))
      && (m[b].be.feRunning in {0, b} || IsRun(tr[i].s, m[b].be.feRunning))
  {
    Safe(tr, es, max, i);
  }

  // ---- first come, first served ----

  lemma {:induction false} PrecedesTotal(l: seq<nat>, a: nat, b: nat)
    requires a in l && b in l && a != b
    ensures Precedes(l, a, b) || Precedes(l, b, a)
  {
    if l[0] != a && l[0] != b { PrecedesTotal(l[1..], a, b); }
  }

  /** Process p waits in the queue of g with slot f. */
  predicate Queues(y: Sys, p: nat, g: nat, f: nat) {
    p in y.s.live && Pc(y, p).FQueued? && Pc(y, p).g == g && Pc(y, p).f == f
  }

  /** The group whose backend is granted. */
  function GrantGroup(y: Sys, e: Event): nat {
    match e
    case Request(p, key, opt, _, _) => if Pc(y, p).FIdle? then Arrive(y.s, p, Pc(y, p).cleaned, key, opt).1 else 0
    case Wake(p, _, _, _) => if Pc(y, p).FQueued? then Pc(y, p).g else 0
    case _ => 0
  }

  /** Who is granted a backend precedes everybody who still waits. */
  lemma HeadIsServed(s: Store, g: nat, f: nat, self: nat, max: nat, p: nat, fp: nat)
    requires Inv(s, 0, max) && IsQueued(s, f) && s.m[f].fe.loc == Queue(g) && s.m[f].fe.pid == self
    requires IsQueued(s, fp) && s.m[fp].fe.loc == Queue(g) && s.m[fp].fe.pid == p
    requires self in s.live && p in s.live && p != self && 0 !in s.live
    ensures TryGet(s, g, f).1 != 0 ==> Precedes(s.Gr(g).fes, f, fp)
  {
    var (t, b) := TryGet(s, g, f);
    if b != 0 {
      TryGetKeeps(s, g, f, self, max, {self, p}, {});
      assert IsFe(s, fp);
      assert IsQueued(t, fp);
      QueuedInGroup(t, g, fp);
      assert Precedes(t.Gr(g).fes, f, fp);
    }
  }

  lemma WakeServes(y: Sys, e: Event, max: nat, p: nat, fp: nat)
    requires SysInv(y, max) && Enabled(y, e, max) && e.Wake? && p != e.pid && Queues(y, p, GrantGroup(y, e), fp)
    ensures Granted(y, e).1 != 0 ==> Precedes(y.s.Gr(GrantGroup(y, e)).fes, Pc(y, e.pid).f, fp)
  {
    hide Inv, TryGet, WakeSection;
    assert Holds(y.s, p, Pc(y, p));
    assert Holds(y.s, e.pid, Pc(y, e.pid));
    HeadIsServed(y.s, Pc(y, e.pid).g, Pc(y, e.pid).f, e.pid, max, p, fp);
  }

  /** The queue a request comes to, with the request's slot at its end. */
  lemma ArriveLast(s: Store, self: nat, cleaned: bool, key: Key, opt: GroupOpt, max: nat, p: nat, fp: nat)
    requires Inv(s, 0, max) && 0 !in s.live && self in s.live && p in s.live && p != self
    requires var (_, g, _) := Arrive(s, self, cleaned, key, opt);
      IsQueued(s, fp) && s.m[fp].fe.loc == Queue(g) && s.m[fp].fe.pid == p
    ensures var (t, g, f) := Arrive(s, self, cleaned, key, opt); var u := Join(t, g, f);
      && QuickGet(t, g) == (t, 0) && Inv(u, 0, max) && u.live == s.live && 0 !in u.live
      && IsQueued(u, f) && u.m[f].fe.loc == Queue(g) && u.m[f].fe.pid == self
      && IsQueued(u, fp) && u.m[fp].fe.loc == Queue(g) && u.m[fp].fe.pid == p
      && Precedes(u.Gr(g).fes, fp, f) && !Precedes(u.Gr(g).fes, f, fp)
  {
    hide Respects, Bound, Sorted, SentAtHead, WithinMax, Indexed;
    ArriveKeeps(s, self, cleaned, key, opt, max, {p}, {});
    var (t, g, f) := Arrive(s, self, cleaned, key, opt);
    QueuedInGroup(s, g, fp);
    assert IsFe(s, fp) && fp != f;
    assert IsQueued(t, fp) && t.m[fp].fe.loc == Queue(g) && t.m[fp].fe.pid == p;
    JoinInv(t, g, f, self, max);
    hide Arrive, Fair, Inv;
    JoinsLast(t, g, f, self, max, fp);
  }

  lemma JoinsLast(t: Store, g: nat, f: nat, self: nat, max: nat, fp: nat)
    requires Inv(Join(t, g, f), 0, max) && Held(t, f, self) && IsGr(t, g) && fp in t.Gr(g).fes && fp != f
        && IsQueued(t, fp)
    ensures var u := Join(t, g, f);
      && u.live == t.live && u.At(fp) == t.At(fp) && IsQueued(u, f) && u.m[f].fe.loc == Queue(g)
      && u.m[f].fe.pid == self
      && Precedes(u.Gr(g).fes, fp, f) && !Precedes(u.Gr(g).fes, f, fp)
  {
    hide Bound, Sorted, SentAtHead, WithinMax, Indexed;
    var u := Join(t, g, f);
    PrecedesSnoc(t.Gr(g).fes, f, fp, f);
    assert u.Gr(g).fes == t.Gr(g).fes + [f];
    assert NoDup(ListOf(u, FeList(g)));
    if Precedes(u.Gr(g).fes, f, fp) { PrecedesAsym(u.Gr(g).fes, f, fp); }
  }

  /** A new request is not granted a backend while a live frontend waits in the queue. */
  lemma RequestServes(y: Sys, e: Event, max: nat, p: nat, fp: nat)
    requires SysInv(y, max) && Enabled(y, e, max) && e.Request? && p != e.pid && Queues(y, p, GrantGroup(y, e), fp)
    ensures Granted(y, e).1 == 0
  {
    hide Inv, TryGet, Arrive, ConnectSection, QuickGet, Join;
    assert Holds(y.s, p, Pc(y, p));
    ArriveLast(y.s, e.pid, Pc(y, e.pid).cleaned, e.key, e.opt, max, p, fp);
    var (t, g, f) := Arrive(y.s, e.pid, Pc(y, e.pid).cleaned, e.key, e.opt);
    HeadIsServed(Join(t, g, f), g, f, e.pid, max, p, fp);
  }

  /** A request that has to wait waits behind everybody alive who waits already. */
  lemma JoinsBehind(s: Store, self: nat, cleaned: bool, key: Key, opt: GroupOpt, max: nat, child: nat, c: Connect,
      p: nat, fp: nat)
    requires Inv(s, 0, max) && 0 !in s.live && self in s.live && p in s.live && p != self && child !in s.live
    requires var (t, o) := ConnectSection(s, self, cleaned, key, opt, max, child, c);
      && o.Queued? && p in t.live && Inv(t, 0, max) && Stands(t, o, self)
      && IsQueued(s, fp) && s.m[fp].fe.loc == Queue(o.g) && s.m[fp].fe.pid == p
      && IsQueued(t, fp) && t.m[fp].fe.loc == Queue(o.g)
    ensures var (t, o) := ConnectSection(s, self, cleaned, key, opt, max, child, c);
      Precedes(t.Gr(o.g).fes, fp, o.f)
  {
    hide Inv, Arrive, ConnectSection, QuickGet, QueueTurn, Join, Stands;
    var (t, o) := ConnectSection(s, self, cleaned, key, opt, max, child, c);
    var (s2, g, f) := Arrive(s, self, cleaned, key, opt);
    ConnectShape(s, self, cleaned, key, opt, max, child, c);
    ArriveLast(s, self, cleaned, key, opt, max, p, fp);
    var u := Join(s2, g, f);
    QueueTurnLive(u, g, f, self, false, max, child, c);
    StaysBehind(u, g, f, self, max, child, c, fp);
  }

  lemma ConnectShape(s: Store, self: nat, cleaned: bool, key: Key, opt: GroupOpt, max: nat, child: nat, c: Connect)
    requires ConnectSection(s, self, cleaned, key, opt, max, child, c).1.Queued?
    ensures var (s2, g, f) := Arrive(s, self, cleaned, key, opt);
      var (s3, b) := QuickGet(s2, g);
      && ConnectSection(s, self, cleaned, key, opt, max, child, c)
          == QueueTurn(Join(s3, g, f), g, f, self, false, max, child, c)
      && ConnectSection(s, self, cleaned, key, opt, max, child, c).1.g == g
      && ConnectSection(s, self, cleaned, key, opt, max, child, c).1.f == f
  {
    hide ScriptFind, CleanRunning, Ping, TryGet, Settle, BeWaitGet, Join;
  }

  lemma StaysBehind(u: Store, g: nat, f: nat, self: nat, max: nat, child: nat, c: Connect, fp: nat)
    requires Inv(u, 0, max) && 0 !in u.live && self in u.live && child !in u.live
    requires IsQueued(u, f) && u.m[f].fe.loc == Queue(g) && u.m[f].fe.pid == self
    requires IsQueued(u, fp) && fp != f && !Precedes(u.Gr(g).fes, f, fp)
    requires var (t, o) := QueueTurn(u, g, f, self, false, max, child, c);
      self in t.live && o.Queued? && Inv(t, 0, max) && Stands(t, o, self) && o.g == g && o.f == f
      && IsQueued(t, fp) && t.m[fp].fe.loc == Queue(g)
    ensures Precedes(QueueTurn(u, g, f, self, false, max, child, c).0.Gr(g).fes, fp, f)
  {
    hide QueueTurn, TryGet;
    var t := QueueTurn(u, g, f, self, false, max, child, c).0;
    QueueTurnKeeps(u, g, f, self, false, max, child, c, {self}, {});
    QueuedInGroup(t, g, fp);
    QueuedInGroup(t, g, f);
    PrecedesTotal(t.Gr(g).fes, f, fp);
  }

  /** Only a request puts a frontend into a queue. */
  lemma QueuedBefore(y: Sys, e: Event, max: nat, q: nat)
    requires Enabled(y, e, max) && Sound(y, e, max) && !(e.Request? && e.pid == q)
    requires q in Next(y, e, max).s.live && Pc(Next(y, e, max), q).FQueued?
    ensures q in y.s.live && Pc(y, q).FQueued?
    ensures Pc(Next(y, e, max), q).g == Pc(y, q).g && Pc(Next(y, e, max), q).f == Pc(y, q).f
  {
    hide Inv, Fair, NoHand, ConnectSection, CollectStatus, ParentStart, ParentWake, GoIdle, Accepted, Exited, StartBe;
    if e.Wake? && e.pid == q { WakeStays(y, e, max); }
  }

  lemma WakeStays(y: Sys, e: Event, max: nat)
    requires Enabled(y, e, max) && e.Wake?
    ensures var (t, pc, born) := Effect(y, e, max); pc.FQueued? ==> pc.g == Pc(y, e.pid).g && pc.f == Pc(y, e.pid).f
  {
    hide Try, Settle, Leave;
  }

  lemma SameOrder(s: Store, t: Store, g: nat, a: nat, b: nat)
    requires Wf(s) && Wf(t) && NoOvertaking(s, t) && Precedes(s.Gr(g).fes, a, b)
    requires IsQueued(s, a) && s.m[a].fe.loc == Queue(g)
    requires IsQueued(t, a) && t.m[a].fe.loc == Queue(g) && IsQueued(t, b) && t.m[b].fe.loc == Queue(g)
    ensures Precedes(t.Gr(g).fes, a, b)
  {
    QueuedInGroup(s, g, a);
    QueuedInGroup(t, g, a);
    QueuedInGroup(t, g, b);
    assert NoDup(ListOf(s, FeList(g)));
    PrecedesAsym(s.Gr(g).fes, a, b);
    PrecedesTotal(t.Gr(g).fes, a, b);
    assert Precedes(t.Gr(g).fes, b, a) ==> Precedes(s.Gr(g).fes, b, a);
  }

  /** Who joins the queue of p, or stays in it, is behind p as long as p waits. */
  lemma StepBehind(y: Sys, e: Event, max: nat, p: nat, q: nat, g: nat, fp: nat, fq: nat)
    requires SysInv(y, max) && Enabled(y, e, max) && p != q
    requires Queues(y, p, g, fp) && Queues(Next(y, e, max), p, g, fp) && Queues(Next(y, e, max), q, g, fq)
    requires Queues(y, q, g, fq) ==> Precedes(y.s.Gr(g).fes, fp, fq)
    ensures Precedes(Next(y, e, max).s.Gr(g).fes, fp, fq)
  {
    hide Inv, Fair, NoHand, ConnectSection;
    EventSound(y, e, max);
    StepKeeps(y, e, max);
    var z := Next(y, e, max);
    assert Holds(y.s, p, Pc(y, p)) && Holds(z.s, p, Pc(z, p)) && Holds(z.s, q, Pc(z, q));
    if e.Request? && e.pid == q {
      JoinsBehind(y.s, q, Pc(y, q).cleaned, e.key, e.opt, max, e.child, e.c, p, fp);
    } else {
      QueuedBefore(y, e, max, q);
      StepOrder(y, e, max, g, fp, fq);
    }
  }

  lemma StepOrder(y: Sys, e: Event, max: nat, g: nat, a: nat, b: nat)
    requires SysInv(y, max) && Sound(y, e, max) && Precedes(y.s.Gr(g).fes, a, b)
    requires IsQueued(y.s, a) && y.s.m[a].fe.loc == Queue(g)
    requires var t := Effect(y, e, max).0;
      IsQueued(t, a) && t.m[a].fe.loc == Queue(g) && IsQueued(t, b) && t.m[b].fe.loc == Queue(g)
    ensures Precedes(Effect(y, e, max).0.Gr(g).fes, a, b)
  {
    hide Effect, Wf, Bound, Sorted, SentAtHead, Indexed, KeepsFrontends, KeepsBackends, KeepsGroups, HandsOff, NoHand,
        NoOvertaking;
    SameOrder(y.s, Effect(y, e, max).0, g, a, b);
  }

  /** p waits in the queue of g with slot fp in all states from i to k. */
  ghost predicate WaitsOn(tr: seq<Sys>, p: nat, g: nat, fp: nat, i: nat, k: nat)
    requires i <= k < |tr|
  {
    forall j :: i <= j <= k ==> Queues(tr[j], p, g, fp)
  }

  lemma {:induction false} StaysInOrder(tr: seq<Sys>, es: seq<Event>, max: nat, p: nat, q: nat, g: nat, fp: nat,
      i: nat, k: nat)
    requires History(tr, es, max) && i <= k < |tr| && p != q && WaitsOn(tr, p, g, fp, i, k)
    requires !(q in tr[i].s.live && Pc(tr[i], q).FQueued? && Pc(tr[i], q).g == g)
    ensures forall fq :: Queues(tr[k], q, g, fq) ==> Precedes(tr[k].s.Gr(g).fes, fp, fq)
    decreases k
  {
    hide SysInv, Enabled, Next;
    if i < k {
      StaysInOrder(tr, es, max, p, q, g, fp, i, k - 1);
      Safe(tr, es, max, k - 1);
      assert Enabled(tr[k - 1], es[k - 1], max) && tr[k] == Next(tr[k - 1], es[k - 1], max);
      forall fq | Queues(tr[k], q, g, fq) ensures Precedes(tr[k].s.Gr(g).fes, fp, fq) {
        StepBehind(tr[k - 1], es[k - 1], max, p, q, g, fp, fq);
      }
    }
  }

  /** First come, first served, over any run: while a live frontend p waits in the queue of a
      group, no frontend that came to that queue later, and none that comes with a new request,
      is granted a backend of the group. */
  lemma FirstComeFirstServed(tr: seq<Sys>, es: seq<Event>, max: nat, p: nat, q: nat, g: nat, fp: nat, i: nat, k: nat)
    requires History(tr, es, max) && i <= k < |es| && p != q && WaitsOn(tr, p, g, fp, i, k)
    requires !(q in tr[i].s.live && Pc(tr[i], q).FQueued? && Pc(tr[i], q).g == g)
    ensures es[k].pid == q && GrantGroup(tr[k], es[k]) == g ==> Granted(tr[k], es[k]).1 == 0
  {
    var y, e := tr[k], es[k];
    if e.pid == q && GrantGroup(y, e) == g {
      Safe(tr, es, max, k);
      assert Enabled(y, e, max);
      assert Queues(y, p, g, fp);
      if e.Request? {
        RequestServes(y, e, max, p, fp);
      } else if e.Wake? {
        StaysInOrder(tr, es, max, p, q, g, fp, i, k);
        WakeServes(y, e, max, p, fp);
        NotBoth(y.s, g, fp, Pc(y, q).f);
      }
    }
  }

  lemma NotBoth(s: Store, g: nat, a: nat, b: nat)
    requires Wf(s) && Precedes(s.Gr(g).fes, a, b)
    ensures !Precedes(s.Gr(g).fes, b, a)
  {
    assert NoDup(ListOf(s, FeList(g)));
    PrecedesAsym(s.Gr(g).fes, a, b);
  }

  // ---- one hand-off at a time ----

  /** Between s and t a backend is granted in group g, or a new one is started there. */
  ghost predicate HandsOut(s: Store, t: Store, g: nat) {
    exists b :: b in t.Gr(g).bes && (b !in s.Gr(g).bes || (s.Be(b).feRunning == 0 && t.Be(b).feRunning != 0))
  }

  /** Process w is recorded as starting in group g in state i and lives, and does nothing
      itself, in the states from i to k; the group stays. */
  ghost predicate Pending(tr: seq<Sys>, es: seq<Event>, g: nat, w: nat, i: nat, k: nat)
    requires |tr| == |es| + 1 && i <= k < |tr|
  {
    && tr[i].s.Gr(g).starting == w && w != 0
    && (forall j :: i <= j <= k ==> w in tr[j].s.live && IsGr(tr[j].s, g))
    && (forall j :: i <= j < k ==> es[j].pid != w)
  }

  lemma StepPending(y: Sys, e: Event, max: nat, g: nat, w: nat)
    requires SysInv(y, max) && Enabled(y, e, max) && e.pid != w
    requires IsGr(y.s, g) && y.s.Gr(g).starting == w && w in y.s.live
    requires IsGr(Next(y, e, max).s, g) && w in Next(y, e, max).s.live
    ensures Next(y, e, max).s.Gr(g).starting == w && !HandsOut(y.s, Next(y, e, max).s, g)
  {
    hide Inv, NoHand, Effect;
    EventSound(y, e, max);
    assert w in Lasting(y, Effect(y, e, max).0);
  }

  /** No event of another process grants a backend of the group, not even one whose connection
      fails, while a starting one is recorded. */
  lemma WakeGrantsNone(y: Sys, e: Event, max: nat, g: nat, w: nat)
    requires SysInv(y, max) && Enabled(y, e, max) && e.Wake? && e.pid != w && GrantGroup(y, e) == g
    requires IsGr(y.s, g) && y.s.Gr(g).starting == w && w in y.s.live
    ensures Granted(y, e).1 == 0
  {
    hide Inv, NoHand, TryGet, WakeSection;
    var p := e.pid;
    assert Holds(y.s, p, Pc(y, p));
    TurnGrantsNone(y.s, g, Pc(y, p).f, p, max, w);
  }

  lemma TurnGrantsNone(s: Store, g: nat, f: nat, self: nat, max: nat, w: nat)
    requires Inv(s, 0, max) && IsQueued(s, f) && s.m[f].fe.loc == Queue(g) && s.m[f].fe.pid == self && self in s.live
    requires 0 !in s.live && IsGr(s, g) && s.Gr(g).starting == w && w in s.live && w != self
    ensures TryGet(s, g, f).1 == 0
  {
    hide Inv, TryGet;
    TryGetKeeps(s, g, f, self, max, {self, w}, {});
  }

  lemma RequestGrantsNone(s: Store, self: nat, cleaned: bool, key: Key, opt: GroupOpt, max: nat, g: nat, w: nat)
    requires Inv(s, 0, max) && 0 !in s.live && self in s.live && Arrive(s, self, cleaned, key, opt).1 == g
    requires IsGr(s, g) && s.Gr(g).starting == w && w in s.live && w != self
    ensures ConnectGets(s, self, cleaned, key, opt).1 == 0
  {
    hide Inv, TryGet, Arrive, QuickGet, Join;
    ArriveKeeps(s, self, cleaned, key, opt, max, {self, w}, {});
    var (t, _, f) := Arrive(s, self, cleaned, key, opt);
    assert t.Gr(g).starting == w;
    QuickGetKeeps(t, g, f, self, max, {self, w}, {});
    var (u, b) := QuickGet(t, g);
    if b == 0 {
      assert u.Gr(g).starting == w;
      JoinInv(u, g, f, self, max);
      JoinStarting(u, g, f);
      TurnGrantsNone(Join(u, g, f), g, f, self, max, w);
    }
  }

  lemma JoinStarting(s: Store, g: nat, f: nat)
    requires IsGr(s, g) && f in s.m && !IsGr(s, f)
    ensures IsGr(Join(s, g, f), g) && Join(s, g, f).Gr(g).starting == s.Gr(g).starting && Join(s, g, f).live == s.live
  {
  }

  /** Nor does one start a backend there. */
  lemma StartsNone(y: Sys, e: Event, max: nat, g: nat, w: nat)
    requires SysInv(y, max) && Enabled(y, e, max) && e.pid != w && (e.Start? || e.Tended?)
    requires IsGr(y.s, g) && y.s.Gr(g).starting == w && w in y.s.live
    requires IsGr(Next(y, e, max).s, g) && w in Next(y, e, max).s.live
    ensures e.child in Next(y, e, max).s.live - y.s.live ==>
        Pc(Next(y, e, max), e.child).BFresh? && Pc(Next(y, e, max), e.child).g != g
  {
    hide Inv, NoHand, Effect, Fair, HandsOut;
    StepPending(y, e, max, g, w);
    if e.child in Next(y, e, max).s.live - y.s.live {
      if e.Start? { StartRecords(y, e, max); } else { TendedRecords(y, e, max); }
    }
  }

  /** What an event does not do in group g: grant a backend, start one, or make one busy or new. */
  ghost predicate NoHandOff(y: Sys, e: Event, z: Sys, g: nat) {
    && (GrantGroup(y, e) == g ==> Granted(y, e).1 == 0)
    && (e.Start? || e.Tended? ==> e.child in z.s.live - y.s.live ==> Pc(z, e.child).BFresh? && Pc(z, e.child).g != g)
    && !HandsOut(y.s, z.s, g)
  }

  lemma StepHandsOff(y: Sys, e: Event, max: nat, g: nat, w: nat)
    requires SysInv(y, max) && Enabled(y, e, max) && e.pid != w
    requires IsGr(y.s, g) && y.s.Gr(g).starting == w && w in y.s.live
    requires IsGr(Next(y, e, max).s, g) && w in Next(y, e, max).s.live
    ensures Next(y, e, max).s.Gr(g).starting == w && NoHandOff(y, e, Next(y, e, max), g)
  {
    hide Inv, NoHand, Next, HandsOut, ConnectGets, TryGet, Arrive;
    StepPending(y, e, max, g, w);
    if e.Start? || e.Tended? { StartsNone(y, e, max, g, w); }
    if GrantGroup(y, e) == g {
      if e.Wake? { WakeGrantsNone(y, e, max, g, w); }
      if e.Request? { RequestGrantsNone(y.s, e.pid, Pc(y, e.pid).cleaned, e.key, e.opt, max, g, w); }
    }
  }

  /** A single hand-off is in flight: as long as the process recorded as starting lives and has
      not run, no backend is granted and none is started in the group, whatever else happens. */
  lemma {:induction false} OneHandOff(tr: seq<Sys>, es: seq<Event>, max: nat, g: nat, w: nat, i: nat, k: nat)
    requires History(tr, es, max) && i <= k < |tr| && Pending(tr, es, g, w, i, k)
    ensures tr[k].s.Gr(g).starting == w
    ensures forall j :: i <= j < k ==> NoHandOff(tr[j], es[j], tr[j + 1], g)
    decreases k
  {
    hide SysInv, Enabled, Next, NoHandOff;
    if i < k {
      assert w in tr[k - 1].s.live && IsGr(tr[k - 1].s, g);
      OneHandOff(tr, es, max, g, w, i, k - 1);
      Safe(tr, es, max, k - 1);
      assert Enabled(tr[k - 1], es[k - 1], max) && tr[k] == Next(tr[k - 1], es[k - 1], max);
      StepHandsOff(tr[k - 1], es[k - 1], max, g, w);
    }
  }

  /** A successful connection leaves backend b busy and recorded as starting; if the frontend
      waits for the exit status the two point at each other. */
  predicate Connected(t: Store, g: nat, b: nat, pid: nat, o: Proc, c: Connect) {
    && t.Gr(g).starting == pid && b in t.Gr(g).bes && t.Be(b).pid == pid
    && (c == Kept ==> o.FRunning? && t.Fe(o.f).backend == b && t.Be(b).feRunning == o.f)
    && (c == Detached ==> o == FDone && t.Be(b).feRunning == b)
  }

  lemma SettleConnects(s: Store, g: nat, f: nat, self: nat, b: nat, c: Connect)
    requires Held(s, f, self) && Grabbed(s, g, b) && c != Failed
    ensures Connected(Settle(s, g, f, self, b, c), g, b, s.Be(b).pid, AfterOutcome(Settled(f, b, c, true)), c)
  {
  }

  lemma TurnConnects(s: Store, g: nat, f: nat, self: nat, did: bool, max: nat, child: nat, c: Connect)
    requires Inv(s, 0, max) && IsQueued(s, f) && s.m[f].fe.loc == Queue(g) && s.m[f].fe.pid == self
    requires self in s.live && 0 !in s.live && c != Failed && TryGet(s, g, f).1 != 0
    ensures var (t, o) := QueueTurn(s, g, f, self, did, max, child, c); var (s1, b) := TryGet(s, g, f);
      Connected(t, g, b, s1.Be(b).pid, AfterOutcome(o), c)
  {
    TryGetKeeps(s, g, f, self, max, {self}, {});
    var (s1, b) := TryGet(s, g, f);
    LeaveGrabbed(s1, g, f, b);
    SettleConnects(Leave(s1, g, f), g, f, self, b, c);
  }

  lemma WakeConnects(y: Sys, e: Event, max: nat)
    requires SysInv(y, max) && Enabled(y, e, max) && e.Wake? && Granted(y, e).1 != 0 && e.c != Failed
    ensures var (t, b) := Granted(y, e); var z := Effect(y, e, max);
      Connected(z.0, GrantGroup(y, e), b, t.Be(b).pid, z.1, e.c)
  {
    hide Inv, TryGet, QueueTurn, Connected;
    assert Holds(y.s, e.pid, Pc(y, e.pid));
    TurnConnects(y.s, Pc(y, e.pid).g, Pc(y, e.pid).f, e.pid, Pc(y, e.pid).didSpawn, max, e.child, e.c);
  }

  lemma RequestConnects(s: Store, self: nat, cleaned: bool, key: Key, opt: GroupOpt, max: nat, child: nat, c: Connect)
    requires Inv(s, 0, max) && 0 !in s.live && self in s.live && c != Failed
    requires ConnectGets(s, self, cleaned, key, opt).1 != 0
    ensures var (s1, b) := ConnectGets(s, self, cleaned, key, opt);
      var (t, o) := ConnectSection(s, self, cleaned, key, opt, max, child, c);
      Connected(t, Arrive(s, self, cleaned, key, opt).1, b, s1.Be(b).pid, AfterOutcome(o), c)
  {
    hide Inv, Arrive, QuickGet, TryGet, QueueTurn, Connected, Settle, Join;
    ArriveKeeps(s, self, cleaned, key, opt, max, {}, {});
    var (s2, g, f) := Arrive(s, self, cleaned, key, opt);
    QuickGetKeeps(s2, g, f, self, max, {}, {});
    var (s3, b) := QuickGet(s2, g);
    RequestShape(s, self, cleaned, key, opt, max, child, c);
    if b != 0 {
      SettleConnects(s3, g, f, self, b, c);
    } else {
      JoinInv(s3, g, f, self, max);
      JoinLive(s3, g, f);
      TurnConnects(Join(s3, g, f), g, f, self, false, max, child, c);
    }
  }

  lemma JoinLive(s: Store, g: nat, f: nat)
    ensures Join(s, g, f).live == s.live
  {
  }

  lemma RequestShape(s: Store, self: nat, cleaned: bool, key: Key, opt: GroupOpt, max: nat, child: nat, c: Connect)
    ensures var (s2, g, f) := Arrive(s, self, cleaned, key, opt); var (s3, b) := QuickGet(s2, g);
      ConnectSection(s, self, cleaned, key, opt, max, child, c) ==
      if b != 0 then (Settle(s3, g, f, self, b, c), Settled(f, b, c, true))
      else QueueTurn(Join(s3, g, f), g, f, self, false, max, child, c)
  {
    hide ScriptFind, CleanRunning, Settle, BeWaitGet, Join, QueueTurn;
  }

  /** Every successful grant is recorded, which is what OneHandOff starts from. */
  lemma GrantIsRecorded(tr: seq<Sys>, es: seq<Event>, max: nat, i: nat)
    requires History(tr, es, max) && i < |es| && Granted(tr[i], es[i]).1 != 0 && es[i].c != Failed
    ensures var (t, b) := Granted(tr[i], es[i]);
      Connected(tr[i + 1].s, GrantGroup(tr[i], es[i]), b, t.Be(b).pid, Pc(tr[i + 1], es[i].pid), es[i].c)
  {
    var y, e := tr[i], es[i];
    Safe(tr, es, max, i);
    assert Enabled(y, e, max) && tr[i + 1] == Next(y, e, max);
    ActorPc(y, e, max);
    if e.Wake? {
      WakeConnects(y, e, max);
    } else {
      RequestConnects(y.s, e.pid, Pc(y, e.pid).cleaned, e.key, e.opt, max, e.child, e.c);
    }
  }

  lemma ActorPc(y: Sys, e: Event, max: nat)
    requires SysInv(y, max) && Enabled(y, e, max) && (e.Wake? || e.Request?)
    ensures Pc(Next(y, e, max), e.pid) == Effect(y, e, max).1
  {
    hide Effect, Inv, NoHand, Owned;
  }

  /** So is every backend that a parent process starts. */
  lemma StartIsRecorded(tr: seq<Sys>, es: seq<Event>, max: nat, i: nat)
    requires History(tr, es, max) && i < |es| && (es[i].Start? || es[i].Tended?)
    requires es[i].child in tr[i + 1].s.live - tr[i].s.live
    ensures var pc := Pc(tr[i + 1], es[i].child);
      pc.BFresh? && tr[i + 1].s.Gr(pc.g).starting == es[i].child && pc.b in tr[i + 1].s.Gr(pc.g).bes
  {
    var y, e := tr[i], es[i];
    Safe(tr, es, max, i);
    Safe(tr, es, max, i + 1);
    assert Enabled(y, e, max) && tr[i + 1] == Next(y, e, max);
    if e.Start? { StartRecords(y, e, max); } else { TendedRecords(y, e, max); }
    ListedBack(tr[i + 1], e.child);
  }

  lemma StartRecords(y: Sys, e: Event, max: nat)
    requires SysInv(y, max) && Enabled(y, e, max) && e.Start? && e.child in Next(y, e, max).s.live - y.s.live
    ensures var pc := Pc(Next(y, e, max), e.child); pc.BFresh? && Next(y, e, max).s.Gr(pc.g).starting == e.child
  {
    hide Inv, Fair, NoHand, ParentStart;
    ParentStartKeeps(y.s, e.pid, e.key, e.opt, max, e.child, y.s.live, Serving(y));
    var (t, o) := ParentStart(y.s, e.pid, e.key, e.opt, max, e.child);
    assert o.Leads? && o.b != 0 && Effect(y, e, max) == (t, PServing(o.g), BFresh(o.g, o.b));
  }

  lemma TendedRecords(y: Sys, e: Event, max: nat)
    requires SysInv(y, max) && Enabled(y, e, max) && e.Tended? && e.child in Next(y, e, max).s.live - y.s.live
    ensures var pc := Pc(Next(y, e, max), e.child); pc.BFresh? && Next(y, e, max).s.Gr(pc.g).starting == e.child
  {
    hide Inv, Fair, NoHand, ParentWake;
    assert Holds(y.s, e.pid, Pc(y, e.pid));
    ParentWakeKeeps(y.s, Pc(y, e.pid).g, e.pid, e.es, e.usr1, e.alrm, max, e.child, y.s.live, Serving(y));
  }

  lemma ListedBack(y: Sys, p: nat)
    requires Wf(y.s) && Owned(y) && p in y.s.live && Pc(y, p).BFresh?
    ensures Pc(y, p).b in y.s.Gr(Pc(y, p).g).bes
  {
    assert Holds(y.s, p, Pc(y, p));
    assert Home(y.s, Pc(y, p).b) == BeList(Pc(y, p).g);
    assert Pc(y, p).b in ListOf(y.s, BeList(Pc(y, p).g));
  }

  /** The parent process of g lives, has been asked for a backend and is recorded as starting. */
  predicate Asked(s: Store, g: nat, max: nat) {
    && s.Gr(g).parent in s.live && s.Gr(g).starting == s.Gr(g).parent
    && (max == 0 || |s.Gr(g).bes| < max)
  }

  lemma CheckAsks(s: Store, g: nat, max: nat, child: nat)
    requires Wf(s) && IsGr(s, g) && 0 !in s.live
    ensures var (t, ok, did) := BackendCheck(s, g, false, max, child); did ==>
        Asked(t, g, max) && s.Gr(g).starting !in s.live
  {
  }

  lemma PingAsks(s: Store, g: nat, f: nat, self: nat, max: nat, child: nat)
    requires Inv(s, 0, max) && IsQueued(s, f) && s.m[f].fe.loc == Queue(g) && s.m[f].fe.pid == self
    requires self in s.live && 0 !in s.live
    ensures var (t, ok, did) := Ping(s, g, f, self, false, max, child); did ==> Asked(t, g, max)
  {
    hide Bound, Sorted, SentAtHead, WithinMax, Indexed, BackendCheck, CheckPrev, Asked;
    QueuedInGroup(s, g, f);
    PingLive(s, g, f, self, false, max, child);
    CheckPrevKeeps(s, g, f, self, max, 0, {self}, {});
    var s1 := CheckPrev(s, g, f, self);
    assert IsFe(s, f);
    QueuedInGroup(s1, g, f);
    CheckAsks(s1, g, max, child);
  }

  lemma TurnAsks(s: Store, g: nat, f: nat, self: nat, max: nat, child: nat, c: Connect)
    requires Inv(s, 0, max) && IsQueued(s, f) && s.m[f].fe.loc == Queue(g) && s.m[f].fe.pid == self
    requires self in s.live && 0 !in s.live
    ensures var (t, o) := QueueTurn(s, g, f, self, false, max, child, c); o.Queued? && o.didSpawn ==>
        Asked(t, g, max) && o.g == g
  {
    hide Inv, TryGet, Ping, Settle, Leave, Asked;
    TryGetKeeps(s, g, f, self, max, {self}, {});
    if TryGet(s, g, f).1 == 0 { PingAsks(TryGet(s, g, f).0, g, f, self, max, child); }
  }

  lemma RequestAsks(s: Store, self: nat, cleaned: bool, key: Key, opt: GroupOpt, max: nat, child: nat, c: Connect)
    requires Inv(s, 0, max) && 0 !in s.live && self in s.live
    ensures var (t, o) := ConnectSection(s, self, cleaned, key, opt, max, child, c); o.Queued? && o.didSpawn ==>
        Asked(t, o.g, max)
  {
    hide Inv, Arrive, QuickGet, QueueTurn, Settle, Join, Asked;
    RequestShape(s, self, cleaned, key, opt, max, child, c);
    ArriveKeeps(s, self, cleaned, key, opt, max, {}, {});
    var (s2, g, f) := Arrive(s, self, cleaned, key, opt);
    QuickGetKeeps(s2, g, f, self, max, {}, {});
    var (s3, b) := QuickGet(s2, g);
    if b == 0 {
      JoinInv(s3, g, f, self, max);
      JoinLive(s3, g, f);
      TurnAsks(Join(s3, g, f), g, f, self, max, child, c);
    }
  }

  /** And so is every request of a queued frontend to the parent process to start one. */
  lemma AskIsRecorded(tr: seq<Sys>, es: seq<Event>, max: nat, i: nat)
    requires History(tr, es, max) && i < |es| && (es[i].Request? || es[i].Wake?)
    requires Pc(tr[i], es[i].pid).FQueued? ==> !Pc(tr[i], es[i].pid).didSpawn
    ensures var pc := Pc(tr[i + 1], es[i].pid); pc.FQueued? && pc.didSpawn ==> Asked(tr[i + 1].s, pc.g, max)
  {
    hide Inv, NoHand, ConnectSection, QueueTurn, Settle, Asked;
    var y, e := tr[i], es[i];
    Safe(tr, es, max, i);
    assert Enabled(y, e, max) && tr[i + 1] == Next(y, e, max);
    ActorPc(y, e, max);
    assert Holds(y.s, e.pid, Pc(y, e.pid));
    if e.Wake? {
      TurnAsks(y.s, Pc(y, e.pid).g, Pc(y, e.pid).f, e.pid, max, e.child, e.c);
    } else {
      RequestAsks(y.s, e.pid, Pc(y, e.pid).cleaned, e.key, e.opt, max, e.child, e.c);
    }
  }
}
