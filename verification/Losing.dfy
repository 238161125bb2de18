/** Which process may end up in a file that is not the one its slot is in. */
module Losing {
  import opened Store
  import opened Invariants
  import opened FileLock
  import Protocol
  import opened Safety
  import opened CrashSafety
  import Sections
  import Lists
  import Conservation
  import FrontendSide
  import Runs

  /** The processes that count on a slot: a frontend in a queue, a running one that has not asked
      for the exit status yet, or has, a parent process, a backend that has yet to close the file
      it was forked with, one that has not run yet, one that waits, one that serves. */
  datatype Kind = Queueing | Running | Asking | Parent | Closing | Fresh | Idle | Busy

  function KindOf(u: User): Kind
    requires Counts(u.pc)
  {
    match u.pc
    case FQueued(_, _, _) => Queueing
    case FRunning(_) => if u.asked then Asking else Running
    case PServing(_) => Parent
    case BFresh(_, _) => if u.closing then Closing else Fresh
    case BWaiting(_, _) => Idle
    case BBusy(_, _) => Busy
  }

  predicate Returns(k: Kind) { k != Asking && k != Fresh }

  /** Act i gets the lock for a process of this kind. */
  ghost predicate LocksAs(tr: seq<World>, acts: seq<Act>, max: nat, i: nat, k: Kind) {
    && History(tr, acts, max) && i < |acts| && Gets(tr[i], acts[i])
    && var u := UserOf(tr[i], acts[i].p); Counts(u.pc) && KindOf(u) == k
  }

  lemma ChecksHome(w: World, a: Act, max: nat)
    requires WorldInv(w, max) && Enabled(w, a, max) && Gets(w, a)
    requires var u := UserOf(w, a.p); Counts(u.pc) && Returns(KindOf(u))
    ensures var u := UserOf(w, a.p); u.file == u.home && u.home in w.disks
  {
    hide SysInv, FileInv;
    assert UserInv(w, a.p);
    var u := UserOf(w, a.p);
    assert Remembers(w, u, u.home);
  }

  /** In any run, a process that counts on a slot comes back to the file of this slot, and finds it
      there as it left it, unless it is a backend that has not run yet or a running frontend that
      has asked for the exit status before. */
  lemma ComesHome(tr: seq<World>, acts: seq<Act>, max: nat, i: nat, k: Kind)
    requires LocksAs(tr, acts, max, i, k) && Returns(k)
    ensures var p := acts[i].p; var u := UserOf(tr[i], p);
      && u.file == u.home && u.home in tr[i + 1].disks && UserOf(tr[i + 1], p).file == u.home
      && var d := tr[i + 1].disks[u.home];
         d.r.s == tr[i].disks[u.home].r.s && (!d.spoiled ==> Protocol.Holds(d.r.s, p, u.pc))
  {
    Always(tr, acts, max, i);
    assert Enabled(tr[i], acts[i], max) && tr[i + 1] == Next(tr[i], acts[i]);
    LockSeesGoodStore(tr, acts, max, i);
    ChecksHome(tr[i], acts[i], max);
    hide History, WorldInv, Good, Enabled, Next;
    var p := acts[i].p;
    var f := UserOf(tr[i], p).home;
    if !tr[i].disks[f].spoiled { FindsIt(tr[i], f, p, max); }
  }

  lemma FindsIt(w: World, f: nat, p: nat, max: nat)
    requires f in w.disks && SysInv(SysOf(w, f), max) && p in w.users && w.users[p].home == f
    ensures Protocol.Holds(Content(w, f), p, w.users[p].pc)
  {
    var y := SysOf(w, f);
    assert p in y.s.live && p in y.proc;
    assert Protocol.Pc(y, p) == w.users[p].pc;
    assert Protocol.Holds(y.s, p, Protocol.Pc(y, p));
  }

  /** Process p has not got the lock between acts i and j. */
  predicate Between(tr: seq<World>, acts: seq<Act>, p: nat, i: nat, j: nat)
    requires |acts| <= |tr|
  {
    forall k {:trigger acts[k]} :: i < k < j < |acts| ==> acts[k].p == p ==> !Gets(tr[k], acts[k])
  }

  /** The file that p locked last is its home, if it counts on a slot. */
  predicate LastAt(w: World, p: nat, f: nat) {
    p in w.users ==> var u := w.users[p]; if u.locked then u.file == f else Counts(u.pc) ==> u.home == f
  }

  lemma StaysAt(w: World, a: Act, max: nat, p: nat, f: nat)
    requires WorldInv(w, max) && Enabled(w, a, max) && LastAt(w, p, f) && p in w.born
    requires a.p == p ==> !Gets(w, a)
    ensures LastAt(Next(w, a), p, f) && p in Next(w, a).born
  {
    hide SysInv, FileInv, Underway;
    assert UserInv(w, a.p);
    if a.Finish? { CompletesComes(w, a.p, a.e, a.t, a.pc, a.born, max); }
    hide Completes;
  }

  lemma {:induction false} StaysLast(tr: seq<World>, acts: seq<Act>, max: nat, p: nat, i: nat, j: nat)
    requires History(tr, acts, max) && i < j < |acts| && Gets(tr[i], acts[i]) && acts[i].p == p
        && Between(tr, acts, p, i, j)
    ensures LastAt(tr[j], p, UserOf(tr[i], p).file) && p in tr[j].born
    decreases j
  {
    hide Enabled, Next;
    Always(tr, acts, max, j - 1);
    assert Enabled(tr[j - 1], acts[j - 1], max) && tr[j] == Next(tr[j - 1], acts[j - 1]);
    if i + 1 == j {
      LockedAt(tr[i], acts[i], max, p);
    } else {
      assert Between(tr, acts, p, i, j - 1);
      StaysLast(tr, acts, max, p, i, j - 1);
      StaysAt(tr[j - 1], acts[j - 1], max, p, UserOf(tr[i], p).file);
    }
  }

  lemma LockedAt(w: World, a: Act, max: nat, p: nat)
    requires WorldInv(w, max) && Enabled(w, a, max) && Gets(w, a) && a.p == p
    ensures LastAt(Next(w, a), p, UserOf(w, p).file) && p in Next(w, a).born
  {
    hide SysInv, FileInv;
    assert UserInv(w, p);
  }

  /** A process that counts on a slot gets the same file again that it had locked before. */
  lemma SameFileKept(tr: seq<World>, acts: seq<Act>, max: nat, p: nat, i: nat, j: nat, k: Kind)
    requires History(tr, acts, max) && i < j < |acts| && Gets(tr[i], acts[i]) && acts[i].p == p
        && Between(tr, acts, p, i, j)
    requires LocksAs(tr, acts, max, j, k) && acts[j].p == p && Returns(k)
    ensures UserOf(tr[j], p).file == UserOf(tr[i], p).file
  {
    StaysLast(tr, acts, max, p, i, j);
    ComesHome(tr, acts, max, j, k);
    assert Enabled(tr[j], acts[j], max);
  }

  // ---- reachable worlds ----

  ghost predicate EndsIn(tr: seq<World>, acts: seq<Act>, max: nat, w: World) {
    History(tr, acts, max) && tr[|acts|] == w
  }

  ghost predicate Reachable(w: World, max: nat) { exists tr, acts :: EndsIn(tr, acts, max, w) }

  lemma ReachBlank(max: nat)
    ensures Reachable(BLANK, max)
  {
    assert EndsIn([BLANK], [], max, BLANK);
  }

  lemma Step(w: World, a: Act, max: nat)
    requires Reachable(w, max) && Enabled(w, a, max)
    ensures Reachable(Next(w, a), max)
  {
    hide Enabled, Next;
    var tr, acts :| EndsIn(tr, acts, max, w);
    var tr1, acts1 := tr + [Next(w, a)], acts + [a];
    forall i | 0 <= i < |acts1| ensures Enabled(tr1[i], acts1[i], max) && tr1[i + 1] == Next(tr1[i], acts1[i]) {
      if i < |acts| { assert Enabled(tr[i], acts[i], max) && tr[i + 1] == Next(tr[i], acts[i]); }
    }
    assert EndsIn(tr1, acts1, max, Next(w, a));
  }

  /** A process gets the lock and completes a section. */
  lemma Section(w: World, p: nat, now: Time, e: Protocol.Event, t: Store, pc: Protocol.Proc, born: Protocol.Proc,
      max: nat)
    requires Reachable(w, max) && p in w.users && CanLock(w, p, now) && Gets(w, Round(p, now)) && !w.users[p].closing
    requires e.pid == p && Begins(w.users[p].pc, e) && Sane(w, p) && AllBorn(w)
    requires var y := SysOf(w, w.users[p].file);
      Protocol.Enabled(y, e, max) && (t, pc, born) == Protocol.Effect(y, e, max)
    requires w.users.Keys <= t.live && StateLeft(e, pc) != CLOSED
    ensures Reachable(AfterSection(w, p, now, e, t, pc, born), max)
  {
    hide Reachable, Protocol.Enabled, Protocol.Effect, Begins, Sane;
    SectionLeaves(w, p, now, e, t, pc, born);
    Step(w, Round(p, now), max);
    var w1 := Next(w, Round(p, now));
    SameSystem(w, p, now);
    Step(w1, Finish(p, e, t, pc, born), max);
  }

  /** What the end of a section leaves that kills nobody and after which the process keeps the file open. */
  function AfterEnd(w: World, p: nat, e: Protocol.Event, t: Store, pc: Protocol.Proc, born: Protocol.Proc): World
    requires p in w.users && w.users[p].file in w.disks
  {
    var u, d := w.users[p], w.disks[w.users[p].file];
    var u1 := User(u.file, StateLeft(e, pc), u.mine, false, EMPTY_STORE,
                   pc, if Counts(pc) then u.file else 0, e.Collect? && pc.FRunning?, false);
    World(w.disks[u.file := OnDisk(d.r.(s := t, owner := 0), 0, !Sane(w, p))], w.path,
          if HasChild(w, e, t) then w.users[p := u1][e.child := Child(u, born)] else w.users[p := u1],
          if HasChild(w, e, t) then w.born + {e.child} else w.born)
  }

  lemma FinishLeaves(w: World, p: nat, e: Protocol.Event, t: Store, pc: Protocol.Proc, born: Protocol.Proc)
    requires p in w.users && w.users[p].file in w.disks && w.users.Keys <= t.live && StateLeft(e, pc) != CLOSED
    ensures Next(w, Finish(p, e, t, pc, born)) == AfterEnd(w, p, e, t, pc, born)
  {
    var z, v := Next(w, Finish(p, e, t, pc, born)), AfterEnd(w, p, e, t, pc, born);
    assert w.users.Keys - t.live == {};
    assert z.disks == v.disks && z.users == v.users && z.born == v.born;
  }

  /** What a whole section leaves. */
  function AfterSection(w: World, p: nat, now: Time, e: Protocol.Event, t: Store, pc: Protocol.Proc,
      born: Protocol.Proc): World
    requires p in w.users && w.users[p].file in w.disks
  {
    var u, d := w.users[p], w.disks[w.users[p].file];
    var r := Rec(Extended(d.r.size, d.r.s.alloced), d.r.Created(now), 0, false, d.r.s);
    AfterEnd(w.(disks := w.disks[u.file := d.(r := r, holder := 0)],
                users := w.users[p := u.(mine := if Checks(u) then u.mine else r.ctime)]), p, e, t, pc, born)
  }

  lemma SectionLeaves(w: World, p: nat, now: Time, e: Protocol.Event, t: Store, pc: Protocol.Proc, born: Protocol.Proc)
    requires p in w.users && CanLock(w, p, now) && Gets(w, Round(p, now)) && Sane(w, p) && AllBorn(w)
    requires w.users.Keys <= t.live && StateLeft(e, pc) != CLOSED
    ensures Next(Next(w, Round(p, now)), Finish(p, e, t, pc, born)) == AfterSection(w, p, now, e, t, pc, born)
  {
    SameSystem(w, p, now);
    var w1 := Next(w, Round(p, now));
    FinishLeaves(w1, p, e, t, pc, born);
    assert w1.users.Keys == w.users.Keys;
    assert AfterEnd(w1, p, e, t, pc, born).disks == AfterSection(w, p, now, e, t, pc, born).disks;
  }

  lemma SameSystem(w: World, p: nat, now: Time)
    requires p in w.users && CanLock(w, p, now) && Gets(w, Round(p, now)) && Sane(w, p) && AllBorn(w)
    ensures var w1 := Next(w, Round(p, now)); var f := w.users[p].file;
      && f in w1.disks && SysOf(w1, f) == SysOf(w, f) && Sane(w1, p)
      && UserOf(w1, p) == w.users[p].(locked := true, found := w.disks[f].r.s, mine := UserOf(w1, p).mine)
  {
    var w1, f := Next(w, Round(p, now)), w.users[p].file;
    assert w1.users.Keys == w.users.Keys && w1.born == w.born;
    forall q ensures PcIn(w1, f, q) == PcIn(w, f, q) { }
    assert SysOf(w1, f).proc == SysOf(w, f).proc;
  }

  // ---- the sections of the runs below ----

  const K := Key(0, 0, 0)

  /** A frontend alone in the file: its slot 1 is in the queue of group 2, for which nothing has
      been asked yet. */
  function Joined(p: nat, live: set<nat>): Store {
    Store(map[1 := Fro(Frontend(p, 0, false, false, 0, Queue(2))), 2 := Grp(Group(0, 0, [3], 0, [], [1])),
        3 := Scr(K, 2)],
          3, [], [2], [], live)
  }

  /** Process c is being started for it. */
  function Waits(p: nat, c: nat, live: set<nat>): Store {
    Store(map[1 := Fro(Frontend(p, 0, false, false, 0, Queue(2))), 2 := Grp(Group(c, c, [3], 0, [], [1])),
        3 := Scr(K, 2)],
          3, [], [2], [], live)
  }

  lemma Arrived(p: nat, live: set<nat>)
    requires p in live && 0 !in live
    ensures var (s2, g, f) := FrontendSide.Arrive(EMPTY_STORE.(live := live), p, false, K, Single);
      f == 1 && g == 2 && FrontendSide.QuickGet(s2, g) == (s2, 0) && Sections.Join(s2, g, f) == Joined(p, live)
  {
    var (s1, f) := Sections.AllocFrontend(EMPTY_STORE.(live := live), p);
    assert f == 1 && s1.groups == [] && s1.free == [] && s1.alloced == 1;
    var (s2, g) := ScriptFind(s1, K, Single);
    assert g == 2 && s2.groups == [2] && s2.m[2] == Grp(Group(0, 0, [3], 0, [], []));
    assert BeStarting(s2, 2).0.m == s2.m;
    assert s2.m.Keys == {1, 2, 3} && s2.m[1] == Fro(NO_FRONTEND.(pid := p)) && s2.m[3] == Scr(K, 2);
    assert s2.Gr(2).fes + [1] == [1];
    assert Sections.Join(s2, 2, 1).m == Joined(p, live).m;
  }

  lemma Asked(p: nat, c: nat, live: set<nat>, max: nat)
    requires p in live && 0 !in live && c !in live && c != 0
    ensures Sections.QueueTurn(Joined(p, live), 2, 1, p, false, max, c, Sections.Failed)
            == (Waits(p, c, live + {c}), Sections.Queued(2, 1, true))
  {
    var s := Joined(p, live);
    assert SendSigs(s, 2) == s && Sections.ClearSent(s, 1).m == s.m;
    assert Sections.TryGet(s, 2, 1) == (s, 0);
    assert Lists.Index([1], 1) == 0 && Sections.Rotation([2], 2) == [2];
    assert Sections.FePrev(s, 2, 1) == (2, 1) && Sections.CheckPrev(s, 2, 1, p) == s;
    var (t, ok, did) := Sections.BackendCheck(s, 2, false, max, c);
    assert BeStarting(s, 2).0.m == s.m;
    assert t.m == Waits(p, c, t.live).m && t.live == live + {c} && ok && did;
    hide Sections.BackendCheck, Sections.CheckPrev;
    assert Sections.Ping(s, 2, 1, p, false, max, c) == (t, true, true);
  }

  lemma Requested(y: Protocol.Sys, p: nat, c: nat, max: nat)
    requires y.s.(live := {}) == EMPTY_STORE && p in y.s.live && 0 !in y.s.live && c !in y.s.live && c != 0
    requires c !in y.proc && Protocol.Pc(y, p) == Protocol.FIdle(false)
    ensures var e := Protocol.Request(p, K, Single, c, Sections.Failed);
      && Protocol.Enabled(y, e, max)
      && Protocol.Effect(y, e, max) == (Waits(p, c, y.s.live + {c}), Protocol.FQueued(2, 1, true), Protocol.PSpawned)
  {
    hide FrontendSide.Arrive, FrontendSide.QuickGet, Sections.QueueTurn, Sections.Join, Sections.TryGet,
        Sections.ConnectSection;
    var live := y.s.live;
    assert y.s == EMPTY_STORE.(live := live);
    Arrived(p, live);
    Asked(p, c, live, max);
    NoneGranted(p, live);
    Runs.RequestShape(y.s, p, false, K, Single, max, c, Sections.Failed);
  }

  lemma NoneGranted(p: nat, live: set<nat>)
    requires p in live && 0 !in live
    ensures Sections.TryGet(Joined(p, live), 2, 1).1 == 0
  {
    assert SendSigs(Joined(p, live), 2) == Joined(p, live);
  }

  /** The parent process 2 has started backend 3, which has slot 4. */
  const STARTED := Store(
    map[1 := Fro(Frontend(1, 0, false, false, 0, Queue(2))), 2 := Grp(Group(3, 2, [3], 0, [4], [1])), 3 := Scr(K, 2),
        4 := Bck(Backend(3, 4, 0, 2))],
    4, [], [2], [], {1, 2, 3})

  lemma Starts(y: Protocol.Sys, max: nat)
    requires y.s == Waits(1, 2, {1, 2}) && 3 !in y.proc && Protocol.Pc(y, 2) == Protocol.PSpawned
    ensures var e := Protocol.Start(2, K, Single, 3);
      Protocol.Enabled(y, e, max)
          && Protocol.Effect(y, e, max) == (STARTED, Protocol.PServing(2), Protocol.BFresh(2, 4))
  {
    var s := y.s;
    assert FindScript(s, [3], K) == 3 && Scan(s, [2], K, Single, 0).1 == 2;
    var (s1, g) := ScriptFind(s, K, Single);
    assert g == 2 && s1.m == s.m && s1.groups == [2];
    var (s2, ours) := Sections.TakeOver(s1, 2, 2);
    assert ours && s2.m == s.m;
    var (s3, b) := CreateSlot(s2, 2);
    assert b == 4 && s3.Gr(2).bes == [4];
    assert Sections.Forked(s3, 2, 4, 3).m == STARTED.m && Sections.Forked(s3, 2, 4, 3).live == {1, 2, 3};
    assert Sections.StartChild(s2, 2, 2, max, 3) == (STARTED, 4);
  }

  /** Backend 3 waits, and the frontend has been signalled. */
  const SIGNALLED := Store(
    map[1 := Fro(Frontend(1, 0, true, false, 0, Queue(2))), 2 := Grp(Group(0, 2, [3], 0, [4], [1])), 3 := Scr(K, 2),
        4 := Bck(Backend(3, 0, 1, 2))],
    4, [], [2], [], {1, 2, 3})

  lemma Readies(y: Protocol.Sys, max: nat)
    requires y.s == STARTED && Protocol.Pc(y, 3) == Protocol.BFresh(2, 4)
    ensures var e := Protocol.Ready(3, false);
      Protocol.Enabled(y, e, max) && Protocol.Effect(y, e, max) == (SIGNALLED, Protocol.BWaiting(2, 4), Protocol.FDone)
  {
    var s1 := y.s.PutBe(4, y.s.Be(4).(maturity := 1));
    assert Lists.Without([4], 4) == [];
    var s2 := BeWaitPut(s1, 2, 4);
    assert s2.Gr(2).bes == [4] && s2.Be(4) == Backend(3, 0, 1, 2);
    var s3 := Sections.ClearStarting(s2, 2, 3);
    assert SendSigs(s3, 2).m == SIGNALLED.m;
  }

  /** The frontend is connected to backend 3. */
  const RUNNING := Store(
    map[1 := Fro(Frontend(1, 4, false, false, 0, Run)), 2 := Grp(Group(3, 2, [3], 0, [4], [])), 3 := Scr(K, 2),
        4 := Bck(Backend(3, 1, 1, 2))],
    4, [], [2], [1], {1, 2, 3})

  lemma Wakes(y: Protocol.Sys, max: nat)
    requires y.s == SIGNALLED && Protocol.Pc(y, 1) == Protocol.FQueued(2, 1, true)
    ensures var e := Protocol.Wake(1, false, 0, Sections.Kept);
      Protocol.Enabled(y, e, max) && Protocol.Effect(y, e, max) == (RUNNING, Protocol.FRunning(1), Protocol.PSpawned)
  {
    hide Sections.TryGet, Sections.QueueTurn;
    Granted4();
    Connects(max);
  }

  /** The store when backend 4 is granted. */
  const GRANTED := SIGNALLED.(m := SIGNALLED.m[1 := Fro(Frontend(1, 0, false, false, 0, Queue(2)))])

  lemma Granted4()
    ensures Sections.TryGet(SIGNALLED, 2, 1) == (GRANTED, 4)
  {
    var s := SIGNALLED;
    var s1 := SendSigs(s, 2);
    assert s1.m == s.m;
    assert Lists.Without([4], 4) == [];
    assert Sections.TryGet(s, 2, 1).0.m == GRANTED.m;
  }

  lemma Connects(max: nat)
    ensures Sections.QueueTurn(SIGNALLED, 2, 1, 1, true, max, 0, Sections.Kept) == (RUNNING, Sections.Running(1))
  {
    hide Sections.TryGet;
    Granted4();
    assert Lists.Without([1], 1) == [];
    var s4 := Sections.Leave(GRANTED, 2, 1);
    assert Cleanup(s4, 2, 1) == s4;
    assert s4.Gr(2).fes == [] && [1] + s4.running == [1];
    var t := Sections.Settle(s4, 2, 1, 1, 4, Sections.Kept);
    assert t.m == RUNNING.m && t.running == [1] && t == RUNNING;
    assert Sections.Try(SIGNALLED, 2, 1, 1, true, max, 0) == (GRANTED, Sections.Gets(4));
  }

  lemma Collects(y: Protocol.Sys, max: nat)
    requires y.s == RUNNING && Protocol.Pc(y, 1) == Protocol.FRunning(1)
    ensures var e := Protocol.Collect(1);
      Protocol.Enabled(y, e, max) && Protocol.Effect(y, e, max) == (RUNNING, Protocol.FRunning(1), Protocol.FDone)
  {
  }

  // ---- the runs ----

  const T1 := Time(1, 0)
  const T2 := Time(2, 0)
  const LATER := Time(9, 0)

  /** A process that has nothing locked. */
  function Stands(file: nat, state: int, mine: Time, pc: Protocol.Proc, home: nat): User {
    User(file, state, mine, false, EMPTY_STORE, pc, home, false, false)
  }

  const QUEUED_1 := Stands(1, HAVESLOTS, T1, Protocol.FQueued(2, 1, true), 1)
  const SPAWNED := NEW_USER.(pc := Protocol.PSpawned)
  const SERVING_2 := Stands(1, HAVESLOTS, T1, Protocol.PServing(2), 1)
  const GONE_2 := Stands(0, CLOSED, T1, Protocol.Leaving, 0)
  const FRESH_3 := Stands(0, CLOSED, T1, Protocol.BFresh(2, 4), 1)
  const IDLE_3 := Stands(1, HAVESLOTS, T1, Protocol.BWaiting(2, 4), 1)
  const RUNNING_1 := Stands(1, HAVESLOTS, T1, Protocol.FRunning(1), 1)
  const ASKING_1 := Stands(1, OPEN, T1, Protocol.FRunning(1), 1).(asked := true)

  function Whole(s: Store, ctime: Time): OnDisk { OnDisk(Rec(512, ctime, 0, false, s), 0, false) }
  function Left(s: Store): OnDisk { OnDisk(Rec(512, T1, 2, false, s), 0, false) }
  function Removed(s: Store): OnDisk { OnDisk(Rec(512, T1, 2, true, s), 0, false) }
  const MADE := OnDisk(NEW_FILE, 0, false)

  const W_COME := World(map[1 := MADE], 1, map[1 := NEW_USER.(file := 1)], {1})
  const W_QUEUED := World(map[1 := Whole(Waits(1, 2, {1, 2}), T1)], 1, map[1 := QUEUED_1, 2 := SPAWNED], {1, 2})
  const W_STARTED := World(map[1 := Whole(STARTED, T1)], 1, map[1 := QUEUED_1, 2 := SERVING_2, 3 := FRESH_3], {1, 2, 3})

  lemma ReachCome(max: nat)
    ensures Reachable(W_COME, max)
  {
    hide Reachable;
    ReachBlank(max);
    Step(BLANK, Begin(1), max);
    Step(Next(BLANK, Begin(1)), OpenPath(1, 1), max);
    assert W_COME == Next(Next(BLANK, Begin(1)), OpenPath(1, 1));
  }

  /** Process 1 queues in file 1. */
  lemma ReachQueued(max: nat)
    ensures Reachable(W_QUEUED, max)
  {
    hide Reachable, Protocol.Enabled, Protocol.Effect;
    var w, e, t := W_COME, Protocol.Request(1, K, Single, 2, Sections.Failed), Waits(1, 2, {1, 2});
    ReachCome(max);
    Requested(SysOf(w, 1), 1, 2, max);
    assert w.users.Keys + {2} == {1, 2};
    Section(w, 1, T1, e, t, Protocol.FQueued(2, 1, true), Protocol.PSpawned, max);
    var z := AfterSection(w, 1, T1, e, t, Protocol.FQueued(2, 1, true), Protocol.PSpawned);
    assert z.disks == W_QUEUED.disks && z.users == W_QUEUED.users && z.born == {1, 2};
  }

  const W_COMES := W_QUEUED.(users := map[1 := QUEUED_1, 2 := SPAWNED.(file := 1)])

  lemma ReachComes(max: nat)
    ensures Reachable(W_COMES, max)
  {
    hide Reachable;
    ReachQueued(max);
    Step(W_QUEUED, OpenPath(2, 2), max);
    assert Next(W_QUEUED, OpenPath(2, 2)).users == W_COMES.users;
  }

  lemma ComesSystem()
    ensures var y := SysOf(W_COMES, 1);
      y.s == Waits(1, 2, {1, 2}) && 3 !in y.proc && Protocol.Pc(y, 2) == Protocol.PSpawned
  {
    assert W_COMES.users.Keys == {1, 2};
  }

  /** The parent process 2 starts backend 3, which closes the file. */
  lemma ReachForked(max: nat)
    ensures Reachable(W_FORKED, max)
  {
    hide Reachable, Protocol.Enabled, Protocol.Effect, SysOf;
    ReachComes(max);
    var w, e := W_COMES, Protocol.Start(2, K, Single, 3);
    ComesSystem();
    Starts(SysOf(w, 1), max);
    Section(w, 2, LATER, e, STARTED, Protocol.PServing(2), Protocol.BFresh(2, 4), max);
    var z := AfterSection(w, 2, LATER, e, STARTED, Protocol.PServing(2), Protocol.BFresh(2, 4));
    assert z.disks == W_FORKED.disks && z.users == W_FORKED.users && z.born == {1, 2, 3};
  }

  const W_FORKED :=
    W_STARTED.(users := map[1 := QUEUED_1, 2 := SERVING_2, 3 := FRESH_3.(file := 1, state := HAVESLOTS,
                                                                                  closing := true)])

  lemma ReachStarted(max: nat)
    ensures Reachable(W_STARTED, max)
  {
    hide Reachable;
    var w := W_FORKED;
    ReachForked(max);
    Step(w, Round(3, LATER), max);
    Step(Next(w, Round(3, LATER)), Close(3), max);
    var z := Next(Next(w, Round(3, LATER)), Close(3));
    assert z.disks == W_STARTED.disks && z.users == W_STARTED.users;
  }

  /** A process with the file open gets the lock and dies. */
  lemma DiesLocking(w: World, p: nat, now: Time, max: nat)
    requires Reachable(w, max) && p in w.users && CanLock(w, p, now) && Gets(w, Round(p, now))
    ensures Reachable(AfterDeath(w, p, now), max)
  {
    hide Reachable;
    Step(w, Round(p, now), max);
    Step(Next(w, Round(p, now)), Crash(p), max);
    var z, v := Next(Next(w, Round(p, now)), Crash(p)), AfterDeath(w, p, now);
    assert z.disks == v.disks && z.users == v.users;
  }

  function AfterDeath(w: World, p: nat, now: Time): World
    requires p in w.users && w.users[p].file in w.disks
  {
    var u := w.users[p];
    var d := w.disks[u.file];
    var r := Rec(Extended(d.r.size, d.r.s.alloced), d.r.Created(now), p, false, d.r.s);
    w.(disks := w.disks[u.file := d.(r := r, holder := 0)],
       users := w.users[p := Stands(0, CLOSED, if Checks(u) then u.mine else r.ctime, Protocol.Leaving, 0)])
  }

  const W_DEATH := W_STARTED.(disks := map[1 := Left(STARTED)], users := map[1 := QUEUED_1, 2 := GONE_2, 3 := FRESH_3])
  const W_AWAY := World(map[1 := Removed(STARTED), 2 := MADE], 2,
      map[1 := QUEUED_1, 2 := GONE_2, 3 := FRESH_3.(file := 2)], {1, 2, 3})

  lemma ReachDeath(max: nat)
    ensures Reachable(W_DEATH, max)
  {
    hide Reachable;
    ReachStarted(max);
    DiesLocking(W_STARTED, 2, LATER, max);
    var z := AfterDeath(W_STARTED, 2, LATER);
    assert z.disks == W_DEATH.disks && z.users == W_DEATH.users;
  }

  /** A process that holds no slot, or does not check, finds an abandoned file at the path: it
      removes it and makes another one. */
  lemma OpensAnew(w: World, p: nat, now: Time, spare: nat, max: nat)
    requires Reachable(w, max) && p in w.users && w.path != 0 && w.users[p].file == 0 && w.users[p].state < HAVESLOTS
    requires CanLock(w.(users := w.users[p := w.users[p].(file := w.path)]), p, now)
    requires spare != 0 && spare !in w.disks && w.disks[w.path].r.owner != 0
    ensures Reachable(AfterAnew(w, p, now, spare), max)
  {
    hide Reachable;
    Step(w, OpenPath(p, spare), max);
    var w1 := Next(w, OpenPath(p, spare));
    Step(w1, Round(p, now), max);
    var w2 := Next(w1, Round(p, now));
    Step(w2, OpenPath(p, spare), max);
    var z, v := Next(w2, OpenPath(p, spare)), AfterAnew(w, p, now, spare);
    assert z.disks == v.disks && z.users == v.users;
  }

  function AfterAnew(w: World, p: nat, now: Time, spare: nat): World
    requires p in w.users && w.path in w.disks
  {
    var d := w.disks[w.path];
    var r := Rec(Extended(d.r.size, d.r.s.alloced), d.r.Created(now), d.r.owner, true, d.r.s);
    World(w.disks[w.path := d.(r := r, holder := 0)][spare := MADE], spare,
          w.users[p := w.users[p].(mine := r.ctime, file := spare)], w.born)
  }

  lemma ReachAway(max: nat)
    ensures Reachable(W_AWAY, max)
  {
    hide Reachable;
    var w := W_DEATH;
    ReachDeath(max);
    OpensAnew(w, 3, LATER, 2, max);
    var z := AfterAnew(w, 3, LATER, 2);
    assert z.disks == W_AWAY.disks && z.users == W_AWAY.users;
  }

  /** A backend that has yet to run comes to another file. */
  lemma FreshStrays(max: nat)
    ensures Reachable(W_AWAY, max) && Enabled(W_AWAY, Round(3, T2), max) && Gets(W_AWAY, Round(3, T2))
    ensures var u := UserOf(W_AWAY, 3); Counts(u.pc) && KindOf(u) == Fresh && u.home == 1 && u.file == 2
  {
    hide Reachable;
    ReachAway(max);
  }

  // ---- the frontend that asks again ----

  const W_SIGNALLED :=
      W_STARTED.(disks := map[1 := Whole(SIGNALLED, T1)], users := map[1 := QUEUED_1, 2 := SERVING_2, 3 := IDLE_3])
  const W_RUNNING :=
      W_STARTED.(disks := map[1 := Whole(RUNNING, T1)], users := map[1 := RUNNING_1, 2 := SERVING_2, 3 := IDLE_3])
  const W_ASKING := W_RUNNING.(users := map[1 := ASKING_1, 2 := SERVING_2, 3 := IDLE_3])

  const W_READY := W_STARTED.(users := map[1 := QUEUED_1, 2 := SERVING_2, 3 := FRESH_3.(file := 1)])

  lemma ReachReady(max: nat)
    ensures Reachable(W_READY, max)
  {
    hide Reachable;
    ReachStarted(max);
    Step(W_STARTED, OpenPath(3, 2), max);
    assert Next(W_STARTED, OpenPath(3, 2)).users == W_READY.users;
  }

  /** Backend 3 goes idle. */
  lemma ReachSignalled(max: nat)
    ensures Reachable(W_SIGNALLED, max)
  {
    hide Reachable, Protocol.Enabled, Protocol.Effect;
    ReachReady(max);
    var w, e := W_READY, Protocol.Ready(3, false);
    assert w.users.Keys == {1, 2, 3};
    Readies(SysOf(w, 1), max);
    Section(w, 3, LATER, e, SIGNALLED, Protocol.BWaiting(2, 4), Protocol.FDone, max);
    var z := AfterSection(w, 3, LATER, e, SIGNALLED, Protocol.BWaiting(2, 4), Protocol.FDone);
    assert z.disks == W_SIGNALLED.disks && z.users == W_SIGNALLED.users;
  }

  /** The frontend is connected to it. */
  lemma ReachRunning(max: nat)
    ensures Reachable(W_RUNNING, max)
  {
    hide Reachable, Protocol.Enabled, Protocol.Effect;
    ReachSignalled(max);
    var w, e := W_SIGNALLED, Protocol.Wake(1, false, 0, Sections.Kept);
    assert w.users.Keys == {1, 2, 3};
    Wakes(SysOf(w, 1), max);
    Section(w, 1, LATER, e, RUNNING, Protocol.FRunning(1), Protocol.PSpawned, max);
    var z := AfterSection(w, 1, LATER, e, RUNNING, Protocol.FRunning(1), Protocol.PSpawned);
    assert z.disks == W_RUNNING.disks && z.users == W_RUNNING.users;
  }

  /** The frontend asks for the exit status, which is not there yet. */
  lemma ReachAsking(max: nat)
    ensures Reachable(W_ASKING, max)
  {
    hide Reachable, Protocol.Enabled, Protocol.Effect;
    ReachRunning(max);
    var w, e := W_RUNNING, Protocol.Collect(1);
    assert w.users.Keys == {1, 2, 3};
    Collects(SysOf(w, 1), max);
    Section(w, 1, LATER, e, RUNNING, Protocol.FRunning(1), Protocol.FDone, max);
    var z := AfterSection(w, 1, LATER, e, RUNNING, Protocol.FRunning(1), Protocol.FDone);
    assert z.disks == W_ASKING.disks && z.users == W_ASKING.users;
  }

  const W_LEFT := W_ASKING.(disks := map[1 := Left(RUNNING)], users := map[1 := ASKING_1, 2 := GONE_2, 3 := IDLE_3])
  const W_SECOND := World(map[1 := Removed(RUNNING), 2 := MADE], 2,
                          map[1 := ASKING_1, 2 := GONE_2, 3 := IDLE_3, 5 := NEW_USER.(mine := T1, file := 2)],
                          {1, 2, 3, 5})

  /** The parent process dies under the lock, and another frontend makes a second file. */
  lemma ReachLeft(max: nat)
    ensures Reachable(W_LEFT, max)
  {
    hide Reachable;
    ReachAsking(max);
    DiesLocking(W_ASKING, 2, LATER, max);
    var z := AfterDeath(W_ASKING, 2, LATER);
    assert z.disks == W_LEFT.disks && z.users == W_LEFT.users;
  }

  lemma ReachSecond(max: nat)
    ensures Reachable(W_SECOND, max)
  {
    hide Reachable;
    ReachLeft(max);
    Step(W_LEFT, Begin(5), max);
    var w := Next(W_LEFT, Begin(5));
    assert w.users == map[1 := ASKING_1, 2 := GONE_2, 3 := IDLE_3, 5 := NEW_USER] && w.born == {1, 2, 3, 5};
    OpensAnew(w, 5, LATER, 2, max);
    var z := AfterAnew(w, 5, LATER, 2);
    assert z.disks == W_SECOND.disks && z.users == W_SECOND.users;
  }

  const OTHERS := Waits(5, 6, {1, 2, 3, 5, 6})
  const QUEUED_5 := Stands(2, HAVESLOTS, T2, Protocol.FQueued(2, 1, true), 2)
  const W_OTHER := World(map[1 := Removed(RUNNING), 2 := Whole(OTHERS, T2)], 2,
                         map[1 := ASKING_1, 2 := GONE_2, 3 := IDLE_3, 5 := QUEUED_5, 6 := SPAWNED], {1, 2, 3, 5, 6})

  /** The other frontend queues there. */
  lemma ReachOther(max: nat)
    ensures Reachable(W_OTHER, max)
  {
    hide Reachable, Protocol.Enabled, Protocol.Effect;
    ReachSecond(max);
    var w, e := W_SECOND, Protocol.Request(5, K, Single, 6, Sections.Failed);
    assert w.users.Keys + {6} == {1, 2, 3, 5, 6};
    Requested(SysOf(w, 2), 5, 6, max);
    Section(w, 5, T2, e, OTHERS, Protocol.FQueued(2, 1, true), Protocol.PSpawned, max);
    var z := AfterSection(w, 5, T2, e, OTHERS, Protocol.FQueued(2, 1, true), Protocol.PSpawned);
    assert z.disks == W_OTHER.disks && z.users == W_OTHER.users && z.born == W_OTHER.born;
  }

  const W_STRAY :=
      W_OTHER.(users := map[1 := ASKING_1.(file := 2), 2 := GONE_2, 3 := IDLE_3, 5 := QUEUED_5, 6 := SPAWNED])

  /** The frontend opens the path again before it asks once more. */
  lemma AskingStrays(max: nat)
    ensures Reachable(W_STRAY, max) && Enabled(W_STRAY, Round(1, LATER), max) && Gets(W_STRAY, Round(1, LATER))
    ensures var u := UserOf(W_STRAY, 1); Counts(u.pc) && KindOf(u) == Asking && u.home == 1 && u.file == 2
  {
    hide Reachable;
    ReachOther(max);
    Step(W_OTHER, Shut(1), max);
    Step(Next(W_OTHER, Shut(1)), OpenPath(1, 3), max);
    assert Next(Next(W_OTHER, Shut(1)), OpenPath(1, 3)).users == W_STRAY.users;
  }

  // ---- what holds of whom ----

  lemma LocksOnce(w: World, a: Act, max: nat, k: Kind)
    requires Reachable(w, max) && Enabled(w, a, max) && Gets(w, a) && Counts(UserOf(w, a.p).pc)
        && KindOf(UserOf(w, a.p)) == k
    ensures exists tr, acts, i: nat :: LocksAs(tr, acts, max, i, k) && tr[i] == w && acts[i] == a
  {
    hide Enabled, Next;
    var tr, acts :| EndsIn(tr, acts, max, w);
    var tr1, acts1 := tr + [Next(w, a)], acts + [a];
    forall i | 0 <= i < |acts1| ensures Enabled(tr1[i], acts1[i], max) && tr1[i + 1] == Next(tr1[i], acts1[i]) {
      if i < |acts| { assert Enabled(tr[i], acts[i], max) && tr[i + 1] == Next(tr[i], acts[i]); }
    }
    assert LocksAs(tr1, acts1, max, |acts|, k) && tr1[|acts|] == w && acts1[|acts|] == a;
  }

  /** The process of act i has the file of its slot open. */
  predicate AtHome(tr: seq<World>, acts: seq<Act>, i: nat) {
    i < |acts| && i < |tr| && UserOf(tr[i], acts[i].p).file == UserOf(tr[i], acts[i].p).home
  }

  /** Whoever counts on a slot comes back to its own file in every run exactly if it is neither a
      backend that has not run yet nor a running frontend that has asked before. */
  lemma ComesHomeExactly(k: Kind, max: nat)
    ensures Returns(k) <==> forall tr, acts, i: nat :: LocksAs(tr, acts, max, i, k) ==> AtHome(tr, acts, i)
  {
    hide Reachable, Enabled;
    if Returns(k) {
      forall tr, acts, i: nat | LocksAs(tr, acts, max, i, k) ensures AtHome(tr, acts, i) {
        ComesHome(tr, acts, max, i, k);
      }
    } else if k == Fresh {
      FreshStrays(max);
      LocksOnce(W_AWAY, Round(3, T2), max, k);
    } else {
      AskingStrays(max);
      LocksOnce(W_STRAY, Round(1, LATER), max, k);
    }
  }

  // ---- what a stray does ----

  /** The slot of the other frontend has been freed, and is still in its queue. */
  const BROKEN := OTHERS.(m := OTHERS.m[1 := Free], free := [1])
  const DONE_1 := Stands(2, OPEN, T2, Protocol.FDone, 0)
  const W_BROKEN := W_OTHER.(disks := W_OTHER.disks[2 := Whole(BROKEN, T2).(spoiled := true)],
                             users := map[1 := DONE_1, 2 := GONE_2, 3 := IDLE_3, 5 := QUEUED_5, 6 := SPAWNED])

  const STRAY_1 := User(2, OPEN, T2, true, OTHERS, Protocol.FRunning(1), 1, true, false)
  const W_HELD := W_OTHER.(disks := W_OTHER.disks[2 := OnDisk(Rec(512, T2, 1, false, OTHERS), 1, false)],
                           users := W_STRAY.users[1 := STRAY_1])

  lemma ReachHeld(max: nat)
    ensures Reachable(W_HELD, max)
  {
    hide Reachable;
    AskingStrays(max);
    Step(W_STRAY, Round(1, LATER), max);
    var z := Next(W_STRAY, Round(1, LATER));
    assert z.disks == W_HELD.disks && z.users == W_HELD.users;
  }

  const BREAKS := Finish(1, Protocol.Collect(1), BROKEN, Protocol.FDone, Protocol.FDone)

  lemma BreaksPossible(max: nat)
    ensures Enabled(W_HELD, BREAKS, max)
  {
    hide SysOf, Protocol.Enabled, Protocol.Effect, Underway;
    assert W_HELD.users.Keys == {1, 2, 3, 5, 6};
  }

  lemma BreaksLeaves()
    ensures Next(W_HELD, BREAKS) == W_BROKEN
  {
    assert W_HELD.users.Keys == {1, 2, 3, 5, 6};
    hide Next;
    FinishLeaves(W_HELD, 1, BREAKS.e, BROKEN, Protocol.FDone, Protocol.FDone);
    var z := Next(W_HELD, BREAKS);
    assert z.disks == W_BROKEN.disks && z.users == W_BROKEN.users;
  }

  lemma ReachBroken(max: nat)
    ensures Reachable(W_BROKEN, max)
  {
    hide Reachable, Enabled, Next;
    ReachHeld(max);
    BreaksPossible(max);
    BreaksLeaves();
    Step(W_HELD, BREAKS, max);
  }

  /** What the frontend writes there is what speedy_frontend_collect_status does with slot 1. */
  lemma CollectBreaks(max: nat)
    ensures Sections.CollectStatus(OTHERS, 1).0 == BROKEN && Sections.CollectStatus(OTHERS, 1).1 && !Good(BROKEN, max)
  {
    assert Lists.Without(OTHERS.running, 1) == OTHERS.running && [1] + OTHERS.free == [1];
    assert OTHERS.Fe(1).backend == 0 && RemoveRunning(OTHERS, 1) == BROKEN;
    assert BROKEN.At(1) == Free && 1 in BROKEN.Gr(2).fes;
    if Conservation.Wf(BROKEN) { QueuedFe(BROKEN, 2, 1); }
  }

  /** Once a process has strayed into a file, one that is at home there may find its slot gone. */
  lemma StoreLost(max: nat) returns (tr: seq<World>, acts: seq<Act>, i: nat)
    ensures LocksAs(tr, acts, max, i, Queueing) && AtHome(tr, acts, i)
    ensures var u := UserOf(tr[i], acts[i].p);
      u.file in tr[i].disks && var s := tr[i].disks[u.file].r.s; !Good(s, max) && !Protocol.Holds(s, acts[i].p, u.pc)
  {
    hide Reachable, Good;
    ReachBroken(max);
    CollectBreaks(max);
    LocksOnce(W_BROKEN, Round(5, LATER), max, Queueing);
    tr, acts, i :| LocksAs(tr, acts, max, i, Queueing) && tr[i] == W_BROKEN && acts[i] == Round(5, LATER);
    hide History;
  }
}
