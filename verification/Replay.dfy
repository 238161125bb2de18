/** Whole runs on the mapped file: every event performed by the functions of the C files. */
module Replay {
  import opened Lists
  import opened Store
  import opened Conservation
  import opened Sections
  import opened Invariants
  import opened Respect
  import opened SlotLinks
  import opened Memory
  import opened TempFile
  import opened Footprint
  import opened Protocol
  import opened Safety
  import Runs
  import FileLock

  /** A frontend's section. */
  method FrontendEvent(file: File, ghost y: Sys, pc: Proc, e: Event, max: nat) returns (next: Proc)
    requires file.Valid() && file.State() == y.s && file.Room(4) && pc == Pc(y, e.pid)
    requires SysInv(y, max) && Enabled(y, e, max) && (e.Request? || e.Wake? || e.Collect?)
    modifies file.mem.Objs()
    ensures file.Valid() && file.State() == Effect(y, e, max).0 && next == Effect(y, e, max).1
  {
    hide Mapped.Valid, Inv, NoHand, Granted, MayConnect, ConnectSection, WakeSection, CollectStatus;
    assert Holds(y.s, e.pid, pc);
    NotThere(y, e, max);
    match e {
      case Request(p, key, opt, child, c) =>
        var o := file.Request(p, pc.cleaned, key, opt, max, child, c);
        next := AfterOutcome(o);
      case Wake(p, changed, child, c) =>
        Whole(y, max);
        QueuedHere(y.s, pc.g, pc.f);
        var o := file.Wake(pc.g, pc.f, p, pc.didSpawn, changed, max, child, c);
        next := AfterOutcome(o);
      case Collect(p) =>
        Whole(y, max);
        var done, onSig, val := file.CollectStatus(pc.f);
        next := if done then FDone else pc;
    }
  }

  lemma Whole(y: Sys, max: nat)
    requires SysInv(y, max)
    ensures Wf(y.s) && Bound(y.s)
  {
  }

  lemma QueuedHere(s: Store, g: nat, f: nat)
    requires Wf(s) && IsQueued(s, f) && s.m[f].fe.loc == Queue(g)
    ensures IsFrontendOf(s, g, f)
  {
    assert Home(s, f) == FeList(g) && f in ListOf(s, FeList(g));
  }

  /** The process to be forked is not there yet. */
  lemma NotThere(y: Sys, e: Event, max: nat)
    requires SysInv(y, max) && Enabled(y, e, max)
    ensures Forks(e) ==> e.child !in y.s.live
    ensures e.Come? || e.pid in y.s.live
    ensures Effect(y, e, max).0.alloced < MAX_SLOTS
  {
    hide Effect;
  }

  /** A section of a parent process; `born` is what a child that it forks starts as. */
  method ParentEvent(file: File, ghost y: Sys, pc: Proc, e: Event, max: nat) returns (next: Proc, born: Proc)
    requires file.Valid() && file.State() == y.s && file.Room(4) && pc == Pc(y, e.pid)
    requires SysInv(y, max) && Enabled(y, e, max) && (e.Start? || e.Tended?)
    modifies file.mem.Objs()
    ensures file.Valid() && (file.State(), next, born) == Effect(y, e, max)
  {
    hide Mapped.Valid, Inv, NoHand, ParentStart, ParentWake;
    assert Holds(y.s, e.pid, pc);
    NotThere(y, e, max);
    match e {
      case Start(p, key, opt, child) =>
        var o := file.ParentStart(p, key, opt, max, child);
        match o {
          case Leaves => next, born := Leaving, FDone;
          case Leads(g, b) => next, born := PServing(g), BFresh(g, b);
        }
      case Tended(p, reports, usr1, alrm, child) =>
        var leaves, b := file.ParentWake(pc.g, p, reports, usr1, alrm, max, child);
        next, born := if leaves then Leaving else pc, BFresh(pc.g, b);
    }
  }

  /** A backend's section. */
  method BackendEvent(file: File, ghost y: Sys, pc: Proc, e: Event, max: nat) returns (next: Proc)
    requires file.Valid() && file.State() == y.s && pc == Pc(y, e.pid)
    requires SysInv(y, max) && Enabled(y, e, max) && (e.Ready? || e.Accept? || e.Finished?)
    modifies file.mem.Objs()
    ensures file.Valid() && file.State() == Effect(y, e, max).0 && next == Effect(y, e, max).1
  {
    hide Mapped.Valid, Inv, NoHand, Loop, RunOver, Accepted;
    assert Holds(y.s, e.pid, pc);
    Whole(y, max);
    match e {
      case Ready(p, orphan) =>
        next := file.Loop(pc.g, pc.b, p, orphan, 1, max);
      case Accept(p) =>
        BackendListed(y.s, pc.g, pc.b);
        if file.mem.HeadOf(ScrList(pc.g)) == 0 {
          next := Leaving;
        } else {
          file.Accepted(pc.g, p, max);
          next := BBusy(pc.g, pc.b);
        }
      case Finished(p, val, again, orphan) =>
        next := file.RunOver(pc.g, pc.b, p, val, again, orphan, max);
    }
  }

  lemma BackendListed(s: Store, g: nat, b: nat)
    requires Wf(s) && IsBe(s, b) && s.m[b].be.grp == g
    ensures IsGr(s, g)
  {
    assert Home(s, b) == BeList(g) && b in ListOf(s, BeList(g));
  }

  /** Any event. */
  method Perform(file: File, ghost y: Sys, pc: Proc, e: Event, max: nat) returns (next: Proc, born: Proc)
    requires file.Valid() && file.State() == y.s && file.Room(4) && pc == Pc(y, e.pid) && SysInv(y, max)
        && Enabled(y, e, max)
    modifies file.mem.Objs()
    ensures file.Valid() && (file.State(), next, born) == Effect(y, e, max)
  {
    hide Mapped.Valid, Inv, NoHand, Enabled, ConnectSection, WakeSection, CollectStatus, ParentStart, ParentWake,
        Loop, RunOver, Accepted;
    Possible(y, e, max);
    born := FDone;
    match e {
      case Come(p) =>
        file.mem.Born(p);
        next := FIdle(false);
      case Die(p) =>
        file.mem.Kill(p);
        next := pc;
      case Quit(p) =>
        next := Leaving;
      case Request(_, _, _, _, _) =>
        next := FrontendEvent(file, y, pc, e, max);
        born := PSpawned;
      case Wake(_, _, _, _) =>
        next := FrontendEvent(file, y, pc, e, max);
        born := PSpawned;
      case Collect(_) =>
        next := FrontendEvent(file, y, pc, e, max);
      case Start(_, _, _, _) =>
        next, born := ParentEvent(file, y, pc, e, max);
      case Tended(_, _, _, _, _) =>
        next, born := ParentEvent(file, y, pc, e, max);
      case _ =>
        next := BackendEvent(file, y, pc, e, max);
    }
  }

  /** Where the process stands when the event happens. */
  lemma Possible(y: Sys, e: Event, max: nat)
    requires Enabled(y, e, max)
    ensures match e
      case Request(p, _, _, _, _) => Pc(y, p).FIdle?
      case Wake(p, _, _, _) => Pc(y, p).FQueued?
      case Collect(p) => Pc(y, p).FRunning?
      case Tended(p, _, _, _, _) => Pc(y, p).PServing?
      case Ready(p, _) => Pc(y, p).BFresh?
      case Accept(p) => Pc(y, p).BWaiting?
      case Finished(p, _, _, _) => Pc(y, p).BBusy?
      case _ => true
  {
  }

  /** The file as it is mapped by the next process that locks it: extended so that five more slots
      fit, if they do not fit already. */
  method Map(file: File) returns (again: File)
    requires file.Valid()
    ensures fresh(again) && fresh(again.mem.Objs()) && again.Valid() && again.State() == file.State()
    ensures again.Room(4)
  {
    var slots := file.mem.links.alloced + FileLock.MIN_SLOTS_FREE;
    if slots < file.mem.links.next.Length { slots := file.mem.links.next.Length - 1; }
    var m := new Mapped.Remap(file.mem, slots);
    again := new File(m);
  }

  /** Any run, performed on the file from the empty one on by the functions of the C files. At every
      unlock the file is what the run says it is: every list a chain both ways with the ends its
      header field or its group shows, and every free slot on the free list. */
  method Run(es: seq<Event>, max: nat, ghost tr: seq<Sys>) returns (file: File, procs: map<nat, Proc>)
    requires History(tr, es, max)
    ensures file.Valid() && Sys(file.State(), procs) == tr[|es|]
  {
    hide Mapped.Valid, SysInv, Enabled, Effect;
    var m := new Mapped(0);
    file := new File(m);
    procs := map[];
    var i := 0;
    while i < |es|
      invariant i <= |es| && file.Valid() && Sys(file.State(), procs) == tr[i]
    {
      file := Map(file);
      Runs.Safe(tr, es, max, i);
      var e := es[i];
      assert Enabled(tr[i], e, max) && tr[i + 1] == Next(tr[i], e, max);
      var before := file.mem.Live();
      var next, born := Perform(file, tr[i], if e.pid in procs then procs[e.pid] else FDone, e, max);
      procs := procs[e.pid := next];
      if Forks(e) && e.child in file.mem.Live() && e.child !in before { procs := procs[e.child := born]; }
      i := i + 1;
    }
  }

  // ---- what the links say at every unlock ----

  /** The slot that k steps along the next links lead to. */
  function Follow(nx: seq<nat>, h: nat, k: nat): nat {
    if k == 0 then h else var x := Follow(nx, h, k - 1); if x < |nx| then nx[x] else 0
  }

  lemma {:induction false} FollowChain(nx: seq<nat>, l: seq<nat>, k: nat)
    requires k <= |l| && forall i :: 0 <= i < |l| ==> l[i] < |nx| && nx[l[i]] == After(l, i)
    ensures Follow(nx, First(l), k) == if k < |l| then l[k] else 0
  {
    if k > 0 { FollowChain(nx, l, k - 1); }
  }

  /** Slot n is reached along the next links from the head of one list only, at place i. */
  ghost predicate ReachedOnce(s: Store, nx: seq<nat>, n: nat, at: ListId, i: nat) {
    && i < |ListOf(s, at)| && Follow(nx, First(ListOf(s, at)), i) == n
    && Follow(nx, First(ListOf(s, at)), |ListOf(s, at)|) == 0
    && (forall id, k: nat {:trigger Follow(nx, First(ListOf(s, id)), k)} ::
          k < |ListOf(s, id)| && Follow(nx, First(ListOf(s, id)), k) == n ==> id == at && k == i)
  }

  lemma Once(s: Store, nx: seq<nat>, pv: seq<nat>, n: nat)
    requires Linked(s, nx, pv) && n in ListOf(s, Home(s, n)) && NoDup(ListOf(s, Home(s, n)))
    requires forall id :: n in ListOf(s, id) ==> id == Home(s, n)
    ensures ReachedOnce(s, nx, n, Home(s, n), Index(ListOf(s, Home(s, n)), n))
  {
    var l := ListOf(s, Home(s, n));
    IndexIn(l, n);
    ChainNext(s, nx, pv, Home(s, n));
    FollowChain(nx, l, Index(l, n));
    FollowChain(nx, l, |l|);
    forall id, k: nat | k < |ListOf(s, id)| && Follow(nx, First(ListOf(s, id)), k) == n
      ensures id == Home(s, n) && k == Index(l, n)
    {
      ChainNext(s, nx, pv, id);
      hide Linked, ListOf;
      FollowChain(nx, ListOf(s, id), k);
      assert n in ListOf(s, id);
      IndexAt(l, k);
    }
  }

  lemma ChainNext(s: Store, nx: seq<nat>, pv: seq<nat>, id: ListId)
    requires Linked(s, nx, pv)
    ensures var l := ListOf(s, id); forall i :: 0 <= i < |l| ==> l[i] < |nx| && nx[l[i]] == After(l, i)
  {
    assert id != FreeList ==> Chain(nx, pv, ListOf(s, id));
  }

  /** The neighbours that the links show point back. */
  predicate Mutual(nx: seq<nat>, pv: seq<nat>, n: nat) {
    && n < |nx| && n < |pv|
    && (nx[n] != 0 ==> nx[n] < |pv| && pv[nx[n]] == n)
    && (pv[n] != 0 ==> pv[n] < |nx| && nx[pv[n]] == n)
  }

  lemma BothWays(nx: seq<nat>, pv: seq<nat>, l: seq<nat>, i: nat)
    requires Chain(nx, pv, l) && i < |l|
    ensures Mutual(nx, pv, l[i])
  {
    if i + 1 < |l| { assert nx[l[i]] == l[i + 1] && pv[l[i + 1]] == Prior(l, i + 1); }
    if i > 0 { assert pv[l[i]] == l[i - 1] && nx[l[i - 1]] == After(l, i - 1); }
  }

  lemma Neighbours(s: Store, nx: seq<nat>, pv: seq<nat>, n: nat)
    requires Linked(s, nx, pv) && 0 < n <= s.alloced && n in ListOf(s, Home(s, n))
    ensures n < |pv| && (if n in s.free then pv[n] == n else pv[n] != n && Mutual(nx, pv, n))
  {
    if n !in s.free {
      var l := ListOf(s, Home(s, n));
      IndexIn(l, n);
      assert Home(s, n) != FreeList && Chain(nx, pv, l);
      BothWays(nx, pv, l, Index(l, n));
    }
  }

  /** At every unlock of every run, whatever links stand for the store, each slot is reached along
      the next links from the head of exactly one list, at one place. Its neighbours point back,
      unless it is free, which it is exactly when its prev link is itself. */
  lemma EverySlotLinked(tr: seq<Sys>, es: seq<Event>, max: nat, i: nat, nx: seq<nat>, pv: seq<nat>, n: nat)
    requires History(tr, es, max) && i < |tr| && Linked(tr[i].s, nx, pv) && 0 < n <= tr[i].s.alloced
    ensures var s := tr[i].s; ReachedOnce(s, nx, n, Home(s, n), Index(ListOf(s, Home(s, n)), n))
    ensures n < |pv| && (if n in tr[i].s.free then pv[n] == n else pv[n] != n && Mutual(nx, pv, n))
  {
    hide SysInv, History;
    Runs.EverySlotOnce(tr, es, max, i, n);
    Neighbours(tr[i].s, nx, pv, n);
    Once(tr[i].s, nx, pv, n);
  }
}
