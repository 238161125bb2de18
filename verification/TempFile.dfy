/** The functions of the C files as methods of the shared file, step by step as they are
    written there. Each is proved equal to the function of module Store or Sections of the
    same purpose, and each access to a slot is proved to find a slot of the kind it expects. */
module TempFile {
  import opened Lists
  import opened Store
  import Spec = Store
  import opened Sections
  import Section = Sections
  import opened Conservation
  import opened Invariants
  import opened Keeping
  import opened Granting
  import opened Groups
  import opened Sweeping
  import opened Respect
  import opened Scripts
  import opened InTheHand
  import opened Memory
  import FrontendSide
  import BackendSide
  import Footprint
  import Protocol

  /** The pids of the waiting backends of a list, in order. */
  function Waiters(s: Store, l: seq<nat>): seq<nat> {
    if l == [] then []
    else (if s.Be(l[0]).feRunning == 0 then [s.Be(l[0]).pid] else []) + Waiters(s, l[1..])
  }

  lemma AllBackends(s: Store, g: nat)
    requires Wf(s)
    ensures First(s.Gr(g).bes) == 0 <==> s.Gr(g).bes == []
    ensures NoDup(s.Gr(g).bes) && forall b :: b in s.Gr(g).bes ==> b != 0 && IsBe(s, b) && s.m[b].be.grp == g
  {
    assert s.Gr(g).bes == ListOf(s, BeList(g));
    forall b | b in s.Gr(g).bes ensures b != 0 && IsBe(s, b) && s.m[b].be.grp == g {
      assert Home(s, b) == BeList(g);
    }
    assert s.Gr(g).bes != [] ==> s.Gr(g).bes[0] in s.Gr(g).bes;
  }

  lemma ScriptsDistinct(s: Store, g: nat)
    requires Wf(s) && IsGr(s, g)
    ensures var l := s.Gr(g).scripts; NoDup(l) && Distinct(l) && forall x :: x in l ==> x != 0 && x != g && IsScr(s, x)
  {
    assert s.Gr(g).scripts == ListOf(s, ScrList(g));
    NoDupDistinct(s.Gr(g).scripts);
    forall x | x in s.Gr(g).scripts ensures x != 0 && x != g && IsScr(s, x) { assert Home(s, x) == ScrList(g); }
  }

  lemma WaitersFrom(s: Store, l: seq<nat>, i: nat, sigs: seq<nat>)
    requires i < |l| && s.Be(l[i]).feRunning == 0
    ensures sigs + Waiters(s, l[i..]) == (sigs + [s.Be(l[i]).pid]) + Waiters(s, l[i + 1..])
  {
    assert l[i..][0] == l[i] && l[i..][1..] == l[i + 1..];
  }

  /** Behind a busy backend all are busy. */
  lemma BusyRest(s: Store, g: nat, i: nat)
    requires Wf(s) && Sorted(s, 0) && i < |s.Gr(g).bes| && s.Be(s.Gr(g).bes[i]).feRunning != 0
    ensures Waiters(s, s.Gr(g).bes[i..]) == []
  {
    var l := s.Gr(g).bes;
    AllBackends(s, g);
    forall k | i <= k < |l| ensures s.Be(l[k]).feRunning != 0 {
      if k > i {
        PrecedesAt(l, i, k);
        assert l[i] in l && l[k] in l;
        assert Ordered(s, l[i], l[k]);
      }
    }
    NoWaiters(s, l[i..]);
  }

  lemma {:induction false} NoWaiters(s: Store, l: seq<nat>)
    requires forall b :: b in l ==> s.Be(b).feRunning != 0
    ensures Waiters(s, l) == []
  {
    if l != [] { NoWaiters(s, l[1..]); }
  }

  lemma {:induction false} SameWaiters(s: Store, t: Store, l: seq<nat>)
    requires forall b :: b in l ==> t.Be(b) == s.Be(b)
    ensures Waiters(s, l) == Waiters(t, l)
  {
    if l != [] { SameWaiters(s, t, l[1..]); }
  }

  /** The head of the queue is marked as signalled. */
  function Marked(s: Store, g: nat): Store {
    var l := s.Gr(g).fes;
    if l == [] then s else s.PutFe(l[0], s.Fe(l[0]).(sent := true))
  }

  class File {
    const mem: Mapped

    constructor (mem: Mapped)
      ensures this.mem == mem
    {
      this.mem := mem;
    }

    ghost predicate Valid()
      reads mem.Objs()
    {
      mem.Valid()
    }

    /** The store that the file stands for. */
    ghost function State(): Store
      reads mem
    {
      mem.st
    }

    /** The process finds room for k more slots in the file. */
    ghost predicate Room(k: nat)
      reads mem
    {
      mem.Room(k)
    }

    // ---- backends and the frontends they serve ----

    method RemoveRunning(f: nat)
      requires Valid() && IsRun(State(), f) && f in State().running
      requires State().m[f].fe.backend != 0 ==> IsBe(State(), State().m[f].fe.backend)
      modifies mem.Objs()
      ensures Valid() && State() == Spec.RemoveRunning(old(State()), f)
    {
      hide Mapped.Valid;
      var b := mem.FeRec(f).backend;
      if b != 0 {
        if mem.BeRec(b).feRunning == f { mem.SetFeRunning(b, b); }
      }
      mem.Remove(RunList, f);
      mem.SlotFree(f);
    }

    method Exited(b: nat, onSig: bool, val: int)
      requires Valid() && Wf(State()) && Bound(State()) && IsBe(State(), b)
      modifies mem.Objs()
      ensures Valid() && State() == Spec.Exited(old(State()), b, onSig, val)
    {
      hide Mapped.Valid;
      ExitedShape(State(), b, onSig, val);
      var f := mem.BeRec(b).feRunning;
      RunListed(State(), f);
      hide Wf, Bound;
      if f != 0 {
        mem.SetFeRunning(b, b);
        if f != b {
          mem.SetExit(f, onSig, val);
          if !mem.Exists(mem.FeRec(f).fePid) { RemoveRunning(f); }
        }
      }
    }

    method BackendDispose(g: nat, b: nat)
      requires Valid() && Wf(State()) && Bound(State()) && IsBe(State(), b) && State().m[b].be.grp == g
      modifies mem.Objs()
      ensures Valid() && State() == Spec.BackendDispose(old(State()), g, b)
    {
      hide Mapped.Valid;
      OnOneList(State(), g, b);
      ExitedWf(State(), b, true, SIGKILL);
      ExitedEffect(State(), b, true, SIGKILL);
      ExitedShape(State(), b, true, SIGKILL);
      OnOneList(Spec.Exited(State(), b, true, SIGKILL), g, b);
      hide Wf, Bound;
      if mem.BeRec(b).feRunning != 0 { Exited(b, true, SIGKILL); }
      hide Spec.Exited;
      mem.Remove(BeList(g), b);
      mem.SlotFree(b);
    }

    method FrontendDispose(g: nat, f: nat)
      requires Valid() && IsGr(State(), g) && IsQueued(State(), f) && f in State().Gr(g).fes
      modifies mem.Objs()
      ensures Valid() && State() == Spec.FrontendDispose(old(State()), g, f)
      ensures State().At(f) == Free && f !in State().Gr(g).fes && |State().Gr(g).fes| < |old(State()).Gr(g).fes|
    {
      hide Mapped.Valid;
      mem.Remove(FeList(g), f);
      mem.SlotFree(f);
    }

    // ---- groups ----

    /** The kill loop over the waiting backends, which stops at the first busy one; `sigs` are
        the pids that were sent SIGTERM. */
    method RemoveBeWait(g: nat) returns (sigs: seq<nat>)
      requires Valid() && Wf(State()) && Sorted(State(), 0) && IsGr(State(), g)
      ensures sigs == Waiters(State(), State().Gr(g).bes)
    {
      hide Mapped.Valid, Wf, Sorted;
      ghost var l := State().Gr(g).bes;
      AllBackends(State(), g);
      var b := mem.HeadOf(BeList(g));
      ghost var i: nat := 0;
      sigs := [];
      assert l[0..] == l;
      while b != 0 && mem.BeRec(b).feRunning == 0
        invariant Valid() && i <= |l| && if i < |l| then b == l[i] && b in l && b != 0 && IsBe(State(), b) else b == 0
        invariant sigs + Waiters(State(), l[i..]) == Waiters(State(), l)
        decreases |l| - i
      {
        WaitersFrom(State(), l, i, sigs);
        var pid;
        b, pid := AfterWaiting(g, b, l, i);
        sigs := sigs + [pid];
        i := i + 1;
      }
      if b != 0 { BusyRest(State(), g, i); }
      assert sigs + [] == sigs;
    }

    /** The process id of backend b and the backend after it. */
    method AfterWaiting(g: nat, b: nat, ghost l: seq<nat>, ghost i: nat) returns (next: nat, pid: nat)
      requires Valid() && Wf(State()) && IsGr(State(), g) && l == State().Gr(g).bes && i < |l| && b == l[i] && b in l
      requires IsBe(State(), b)
      ensures Valid() && State() == old(State()) && pid == State().Be(b).pid
      ensures next == if i + 1 < |l| then l[i + 1] else 0
      ensures next != 0 ==> next in l && IsBe(State(), next)
      ensures i + 1 < |l| ==> next != 0
    {
      hide Mapped.Valid, Wf;
      AllBackends(State(), g);
      IndexAt(l, i);
      assert i + 1 < |l| ==> l[i + 1] in l;
      next := mem.Next(BeList(g), b);
      pid := mem.BeRec(b).bePid;
    }

    /** `sigs` are the pids that were sent SIGTERM: those of the waiting backends. */
    method Invalidate(g: nat) returns (sigs: seq<nat>)
      requires Valid() && Wf(State()) && Sorted(State(), 0) && IsGr(State(), g)
      modifies mem.Objs()
      ensures Valid() && State() == Spec.Invalidate(old(State()), g)
      ensures sigs == if old(State()).Valid(g) then Waiters(old(State()), old(State()).Gr(g).bes) else []
    {
      hide Mapped.Valid;
      sigs := [];
      if mem.HeadOf(ScrList(g)) == 0 { return; }
      ghost var s0 := State();
      InvalidateParts(s0, g);
      mem.FreeScripts(g);
      mem.FreeName(g);
      sigs := RemoveBeWait(g);
      mem.ToTail(GroupList, g);
    }

    method BeStarting(g: nat) returns (pid: nat)
      requires Valid() && IsGr(State(), g) && 0 !in State().live
      modifies mem.Objs()
      ensures Valid() && (State(), pid) == Spec.BeStarting(old(State()), g)
    {
      hide Mapped.Valid;
      pid := mem.GrRec(g).starting;
      if pid != 0 {
        if mem.Exists(pid) { return; }
        mem.SetStarting(g, 0);
        pid := 0;
      }
      assert State().m == Spec.BeStarting(old(State()), g).0.m;
    }

    /** The first live frontend of the queue is signalled; the dead ones before it go. */
    method WakeFirst(g: nat)
      requires Valid() && Wf(State()) && IsGr(State(), g)
      modifies mem.Objs()
      ensures Valid() && State() == Marked(DropDead(old(State()), g), g)
    {
      hide Mapped.Valid;
      QueueNonzero(State(), g);
      var f := mem.HeadOf(FeList(g));
      ghost var s0 := State();
      while f != 0
        invariant Valid() && Wf(State()) && IsGr(State(), g) && f == First(State().Gr(g).fes)
        invariant f == 0 ==> State().Gr(g).fes == []
        invariant DropDead(State(), g) == DropDead(s0, g)
        decreases |State().Gr(g).fes|
      {
        QueueNonzero(State(), g);
        assert f in State().Gr(g).fes;
        var next := mem.Next(FeList(g), f);
        if mem.Exists(mem.FeRec(f).fePid) {
          mem.SetSent(f, true);
          return;
        }
        FrontendDisposeWf(State(), g, f);
        DropHead(State().Gr(g).fes);
        FrontendDispose(g, f);
        QueueNonzero(State(), g);
        f := next;
      }
    }

    /** If a backend waits, one frontend is woken up. */
    method SendSigs(g: nat)
      requires Valid() && Wf(State()) && IsGr(State(), g)
      modifies mem.Objs()
      ensures Valid() && State() == Spec.SendSigs(old(State()), g)
    {
      hide Mapped.Valid;
      var f, b := mem.HeadOf(FeList(g)), mem.HeadOf(BeList(g));
      AllBackends(State(), g);
      assert b != 0 ==> b in State().Gr(g).bes;
      if b != 0 && f != 0 && mem.BeRec(b).feRunning == 0 { WakeFirst(g); }
    }

    /** A parent process that is not the caller is killed. */
    method KillParent(pid: nat, self: nat)
      requires Valid() && 0 !in State().live
      modifies mem.Objs()
      ensures Valid() && State() == old(State()).(live := old(State()).live - ({pid} - {self}))
    {
      hide Mapped.Valid;
      if pid != 0 && pid != self { mem.Kill(pid); }
      assert State().live == old(State()).live - ({pid} - {self});
    }

    method Cleanup(g: nat, self: nat)
      requires Valid() && Wf(State()) && Sorted(State(), 0) && IsGr(State(), g) && 0 !in State().live
      requires !State().Valid(g) ==> State().Gr(g).name == 0
      modifies mem.Objs()
      ensures Valid() && State() == Spec.Cleanup(old(State()), g, self)
    {
      hide Mapped.Valid;
      if mem.HeadOf(BeList(g)) != 0 || mem.HeadOf(FeList(g)) != 0 { return; }
      ghost var s0 := State();
      KillParent(mem.GrRec(g).parent, self);
      LiveWf(s0, State().live);
      LiveSorted(s0, State().live);
      InvalidateEffect(State(), g);
      GroupListed(State(), g);
      StillListed(State(), g);
      hide Wf, Sorted, Spec.Invalidate;
      var _ := Invalidate(g);
      mem.Remove(GroupList, g);
      mem.SlotFree(g);
    }

    method GroupCreate(opt: GroupOpt) returns (g: nat)
      requires Valid() && Wf(State()) && Room(2) && Enough(Spec.GroupCreate(State(), opt).0)
      modifies mem.Objs()
      ensures Valid() && (State(), g) == Spec.GroupCreate(old(State()), opt)
    {
      hide Mapped.Valid;
      NewGroupWf(State());
      g := mem.SlotAlloc(GrpRec(0, 0, 0, 0, 0, 0, 0, 0), Grp(NO_GROUP));
      mem.Insert(GroupList, g);
      if opt.Named? {
        NewNameWf(State(), Clip(opt.text), g);
        var n := mem.SlotAlloc(NamRec(Clip(opt.text)), Nam(Clip(opt.text), g));
        mem.SetName(g, n);
      }
    }

    method ParentSig(g: nat) returns (ok: bool)
      requires Valid() && Wf(State()) && Sorted(State(), 0) && IsGr(State(), g)
      modifies mem.Objs()
      ensures Valid() && (State(), ok) == Spec.ParentSig(old(State()), g)
    {
      hide Mapped.Valid;
      ok := mem.Exists(mem.GrRec(g).parent);
      if !ok {
        InvalidateEffect(State(), g);
        hide Spec.Invalidate;
        var _ := Invalidate(g);
        mem.SetParent(g, 0);
      }
    }

    method StartBe(g: nat) returns (ok: bool)
      requires Valid() && Wf(State()) && Sorted(State(), 0) && IsGr(State(), g)
      modifies mem.Objs()
      ensures Valid() && (State(), ok) == Spec.StartBe(old(State()), g)
      ensures if ok then State() == old(State()) else State().Gr(g).parent == 0 && !State().Valid(g)
    {
      hide Mapped.Valid;
      InvalidateEffect(State(), g);
      var r := mem.GrRec(g);
      if r.parent != 0 && r.parent == r.starting { return true; }
      ok := ParentSig(g);
    }

    // ---- the backend list ----

    method BeWaitGet(g: nat) returns (b: nat)
      requires Valid() && Wf(State()) && IsGr(State(), g) && 0 !in State().live
      modifies mem.Objs()
      ensures Valid() && (State(), b) == Spec.BeWaitGet(old(State()), g)
    {
      hide Mapped.Valid;
      AllBackends(State(), g);
      var head := mem.HeadOf(BeList(g));
      assert head != 0 ==> IsBe(State(), head);
      var starting := BeStarting(g);
      if starting != 0 || head == 0 { return 0; }
      if mem.BeRec(head).feRunning != 0 { return 0; }
      mem.ToTail(BeList(g), head);
      b := head;
    }

    method CountBes(g: nat, max: nat) returns (count: nat)
      requires Valid() && Wf(State()) && IsGr(State(), g)
      ensures count == if |State().Gr(g).bes| < max then |State().Gr(g).bes| else max
    {
      hide Mapped.Valid;
      ghost var l := State().Gr(g).bes;
      AllBackends(State(), g);
      var b := mem.HeadOf(BeList(g));
      count := 0;
      while b != 0 && count < max
        invariant Valid() && count <= |l| && count <= max
        invariant if count < |l| then b == l[count] && b in l && b != 0 else b == 0
        decreases |l| - count
      {
        IndexAt(l, count);
        b := mem.Next(BeList(g), b);
        count := count + 1;
      }
    }

    /** The count that stops early decides exactly whether there is room for one more. */
    method BelowMax(g: nat, max: nat) returns (below: bool)
      requires Valid() && Wf(State()) && IsGr(State(), g)
      ensures below == Spec.BelowMax(State(), g, max)
    {
      if max == 0 { return true; }
      var n := CountBes(g, max);
      below := n < max;
    }

    method CreateSlot(g: nat) returns (b: nat)
      requires Valid() && Wf(State()) && IsGr(State(), g) && Room(1) && Enough(Spec.CreateSlot(State(), g).0)
      modifies mem.Objs()
      ensures Valid() && (State(), b) == Spec.CreateSlot(old(State()), g)
    {
      hide Mapped.Valid;
      AllocFrom(State(), Bck(Backend(0, 0, 0, g)));
      b := mem.SlotAlloc(BckRec(0, 0, 0), Bck(Backend(0, 0, 0, g)));
      ghost var s := State();
      mem.SetFeRunning(b, b);
      SameUnlisted(s, State(), b);
      mem.Append(BeList(g), b);
    }

    method BeWaitPut(g: nat, b: nat)
      requires Valid() && Wf(State()) && IsBe(State(), b) && State().m[b].be.grp == g
      modifies mem.Objs()
      ensures Valid() && State() == Spec.BeWaitPut(old(State()), g, b)
    {
      hide Mapped.Valid;
      OnOneList(State(), g, b);
      AllBackends(State(), g);
      mem.SetFeRunning(b, 0);
      ghost var s1 := State();
      ghost var l := Without(s1.Gr(g).bes, b);
      mem.Remove(BeList(g), b);
      var stop := mem.Sorter(b);
      SortGoesBefore(s1, l, b, stop);
      mem.InsertSorted(BeList(g), b, stop);
    }

    method ClearStarting(g: nat, self: nat)
      requires Valid() && IsGr(State(), g)
      modifies mem.Objs()
      ensures Valid() && State() == Section.ClearStarting(old(State()), g, self)
    {
      hide Mapped.Valid;
      if mem.GrRec(g).starting == self { mem.SetStarting(g, 0); }
    }

    // ---- running frontends ----

    method CleanRunning(ghost max: nat)
      requires Valid() && Inv(State(), 0, max)
      modifies mem.Objs()
      ensures Valid() && State() == Section.CleanRunning(old(State()))
    {
      hide Mapped.Valid, Respects, Bound, Sorted, SentAtHead, WithinMax, Indexed;
      ghost var s0 := State();
      RunningOf(State(), max);
      hide Inv;
      var f := mem.TailOf(RunList);
      while f != 0 && !mem.Exists(mem.FeRec(f).fePid)
        invariant Valid() && Inv(State(), 0, max) && f == Last(State().running)
        invariant if f == 0 then State().running == [] else f in State().running && IsRun(State(), f)
        invariant Section.CleanRunning(State()) == Section.CleanRunning(s0)
        decreases |State().running|
      {
        RemoveRunningInv(State(), f, 0, max);
        BackendOf(State(), f, max);
        RemoveRunning(f);
        RunningOf(State(), max);
        f := mem.TailOf(RunList);
      }
    }

    /** The exit status is only set when the backend is done. */
    method CollectStatus(f: nat) returns (done: bool, onSig: bool, val: int)
      requires Valid() && Wf(State()) && Bound(State()) && IsRun(State(), f) && State().m[f].fe.pid in State().live
      modifies mem.Objs()
      ensures Valid() && (State(), done, onSig, val) == Section.CollectStatus(old(State()), f)
    {
      hide Mapped.Valid;
      RunListed(State(), f);
      var b := mem.FeRec(f).backend;
      if b != 0 {
        assert IsBe(State(), b);
        if !mem.Exists(mem.BeRec(b).bePid) {
          assert State().m[b].be.feRunning == f;
          ExitedShape(State(), b, true, SIGKILL);
          ExitedBound(State(), b, true, SIGKILL);
          Exited(b, true, SIGKILL);
        }
      }
      if mem.FeRec(f).backend == 0 {
        done, onSig, val := true, mem.FeRec(f).onSig, mem.FeRec(f).val;
        RemoveRunning(f);
        return;
      }
      done, onSig, val := false, false, 0;
    }

    // ---- the sweep over dead frontends ----

    /** Up the queue of the group, then to the last frontend of the next group that has one,
        going round the group list. */
    method FePrev(g0: nat, f0: nat) returns (g: nat, f: nat)
      requires Valid() && Wf(State()) && f0 in State().Gr(g0).fes
      ensures (g, f) == Section.FePrev(State(), g0, f0)
    {
      hide Mapped.Valid;
      FePrevStart(State(), g0, f0);
      g, f := g0, mem.Prev(FeList(g0), f0);
      if f == 0 { g, f := LastOfNext(g0); }
    }

    /** The walk round the group list, from the group after g0 on. */
    method LastOfNext(g0: nat) returns (g: nat, f: nat)
      requires Valid() && Wf(State()) && IsGr(State(), g0) && State().Gr(g0).fes != []
      ensures (g, f) == LastQueued(State(), Rotation(State().groups, g0))
    {
      hide Mapped.Valid;
      ghost var s := State();
      GroupsNonzero(s);
      GroupListed(s, g0);
      ghost var r := Rotation(s.groups, g0);
      RotationEnds(s.groups, g0);
      ghost var k: nat := 0;
      hide Wf, Rotation, LastQueued, NextIn;
      g, f := g0, 0;
      assert r[0..] == r;
      while f == 0
        invariant Valid() && k <= |r| && g == (if k == 0 then g0 else r[k - 1])
        invariant f != 0 ==> (g, f) == LastQueued(s, r)
        invariant f == 0 ==> k < |r| && LastQueued(s, r[k..]) == LastQueued(s, r)
        decreases |r| - k
      {
        RotationStep(s.groups, g0, k);
        assert g in ListOf(s, GroupList);
        g := mem.Next(GroupList, g);
        if g == 0 { g := mem.HeadOf(GroupList); }
        assert g == r[k] && g in s.groups;
        f := mem.TailOf(FeList(g));
        LastQueuedAt(s, r, k);
        k := k + 1;
      }
    }

    /** A dead frontend goes, and its group if nothing is left in it. */
    method SweepAt(g: nat, f: nat, self: nat, ghost max: nat)
      requires Valid() && Inv(State(), 0, max) && f in State().Gr(g).fes && 0 !in State().live
      modifies mem.Objs()
      ensures Valid() && State() == SweepOne(old(State()), g, f, self)
    {
      hide Mapped.Valid;
      FrontendIn(State(), g, f, max);
      DisposedFits(State(), g, f, max);
      hide Inv;
      FrontendDispose(g, f);
      Cleanup(g, self);
    }

    /** Dispose of the dead frontends before the caller's. */
    method CheckPrev(g0: nat, f0: nat, self: nat, ghost max: nat)
      requires Valid() && Inv(State(), 0, max) && f0 in State().Gr(g0).fes && self != 0 && 0 !in State().live
      modifies mem.Objs()
      ensures Valid() && State() == Section.CheckPrev(old(State()), g0, f0, self)
    {
      hide Mapped.Valid, Sweep;
      FePrevFinds(State(), g0, f0);
      var g, f := FePrev(g0, f0);
      SweepFrom(g, f, self, max);
    }

    /** One round of the sweep. The neighbour is looked up before the dead frontend and perhaps its
        whole group go, and it is still there after. */
    method SweepRound(g: nat, f: nat, self: nat, ghost max: nat) returns (more: bool, g1: nat, f1: nat)
      requires Valid() && Inv(State(), 0, max) && f in State().Gr(g).fes && self != 0 && 0 !in State().live
      requires State().Fe(f).pid !in State().live
      modifies mem.Objs()
      ensures Valid() && 0 !in State().live && |Frontends(State())| < |Frontends(old(State()))|
      ensures Sweep(old(State()), g, f, self) == if more then Sweep(State(), g1, f1, self) else State()
      ensures more ==> Inv(State(), 0, max) && f1 in State().Gr(g1).fes && IsFrontendOf(State(), g1, f1)
    {
      hide Mapped.Valid, Section.FePrev, Inv, Sweep, SweepOne;
      SweepStep(State(), g, f, self, max);
      g1, f1 := FePrev(g, f);
      SweepAt(g, f, self, max);
      more := f1 != f;
    }

    /** The loop of the sweep. */
    method SweepFrom(g0: nat, f0: nat, self: nat, ghost max: nat)
      requires Valid() && Inv(State(), 0, max) && f0 in State().Gr(g0).fes && self != 0 && 0 !in State().live
      modifies mem.Objs()
      ensures Valid() && State() == Sweep(old(State()), g0, f0, self)
    {
      hide Mapped.Valid;
      FrontendIn(State(), g0, f0, max);
      var g, f, more := g0, f0, true;
      hide Inv, Sweep, Frontends;
      while more && !mem.Exists(mem.FeRec(f).fePid)
        invariant Valid() && 0 !in State().live
        invariant more ==> Inv(State(), 0, max) && f in State().Gr(g).fes && IsFrontendOf(State(), g, f)
        invariant Sweep(old(State()), g0, f0, self) == if more then Sweep(State(), g, f, self) else State()
        decreases |Frontends(State())|
      {
        more, g, f := SweepRound(g, f, self, max);
      }
      if more { SweepLiving(State(), g, f, self); }
    }

    // ---- a frontend waits for a backend ----

    /** The parent process of the group is forked, as process `child`. */
    method SpawnParent(g: nat, child: nat)
      requires Valid() && IsGr(State(), g)
      modifies mem.Objs()
      ensures Valid() && State() == Spawn(old(State()), g, child)
    {
      hide Mapped.Valid;
      mem.Born(child);
      mem.SetParent(g, child);
      mem.SetStarting(g, child);
    }

    /** Ask the parent process for a backend, or, at the limit, only see whether it lives. */
    method AskParent(g: nat, max: nat) returns (asked: bool)
      requires Valid() && Inv(State(), 0, max) && IsGr(State(), g)
      modifies mem.Objs()
      ensures Valid() && State() == CheckStart(old(State()), g, max)
      ensures asked == (Spec.BelowMax(old(State()), g, max) && Spec.StartBe(old(State()), g).1)
    {
      hide Mapped.Valid;
      asked := BelowMax(g, max);
      StartBeKeeps(State(), g, 0, max, 0, 0, {}, {});
      hide Inv, Respect.Respects;
      if asked {
        asked := StartBe(g);
        if asked { mem.SetStarting(g, mem.GrRec(g).parent); }
      } else {
        var _ := ParentSig(g);
      }
    }

    /** A `child` of 0 stands for a fork that fails. */
    method BackendCheck(g: nat, didSpawn: bool, max: nat, child: nat) returns (working: bool, did: bool)
      requires Valid() && Inv(State(), 0, max) && IsGr(State(), g) && 0 !in State().live
      modifies mem.Objs()
      ensures Valid() && (State(), working, did) == Section.BackendCheck(old(State()), g, didSpawn, max, child)
    {
      hide Mapped.Valid, Inv, Respect.Respects, Spec.StartBe, Spec.ParentSig;
      BeStartingKeeps(State(), g, 0, max, 0, 0, {}, {});
      did := didSpawn;
      var starting := BeStarting(g);
      if starting != 0 { return true, did; }
      if did { return false, did; }
      if mem.GrRec(g).parent == 0 && child != 0 {
        SpawnKeeps(State(), g, child, max, 0, 0, {}, {});
        SpawnParent(g, child);
      }
      did := AskParent(g, max);
      working := true;
    }

    method Ping(g: nat, f: nat, self: nat, didSpawn: bool, max: nat, child: nat) returns (working: bool, did: bool)
      requires Valid() && Inv(State(), 0, max) && IsFrontendOf(State(), g, f) && State().m[f].fe.pid == self
      requires self in State().live && 0 !in State().live && child !in State().live
      modifies mem.Objs()
      ensures Valid() && (State(), working, did) == Section.Ping(old(State()), g, f, self, didSpawn, max, child)
      ensures Inv(State(), 0, max) && IsFrontendOf(State(), g, f)
    {
      hide Mapped.Valid;
      PingStays(State(), g, f, self, didSpawn, max, child);
      QueuedInGroup(State(), g, f);
      CheckPrevStays(State(), g, f, self, max);
      CheckPrev(g, f, self, max);
      QueuedInGroup(State(), g, f);
      if mem.Prev(FeList(g), f) != 0 { return true, didSpawn; }
      working, did := BackendCheck(g, didSpawn, max, child);
    }

    /** One turn of the loop of get_a_backend_hard, up to the unlock or the break. */
    method Turn(g: nat, f: nat, self: nat, didSpawn: bool, max: nat, child: nat) returns (turn: Sections.Turn)
      requires Valid() && Inv(State(), 0, max) && IsFrontendOf(State(), g, f) && State().m[f].fe.pid == self
      requires self in State().live && 0 !in State().live && child !in State().live
      modifies mem.Objs()
      ensures Valid() && (State(), turn) == Try(old(State()), g, f, self, didSpawn, max, child)
    {
      hide Mapped.Valid, Spec.SendSigs, Spec.BeWaitGet, Section.Ping;
      ghost var s0 := State();
      QueuedInGroup(s0, g, f);
      SignalKeeps(s0, g, f, self, max, {self}, {});
      TryGetKeeps(s0, g, f, self, max, {self}, {});
      SendSigs(g);
      SentStays(s0, g, f, self, max);
      var sent := mem.FeRec(f).sent;
      mem.SetSent(f, false);
      if sent {
        var b := BeWaitGet(g);
        if b != 0 { return Gets(b); }
      }
      assert (State(), 0) == TryGet(s0, g, f);
      var working, did := Ping(g, f, self, didSpawn, max, child);
      turn := if !working || mem.HeadOf(ScrList(g)) == 0 then GaveUp(working) else Waits(did);
    }

    // ---- looking up a script ----

    method FindScript(g: nat, key: Key) returns (x: nat)
      requires Valid() && Wf(State()) && IsGr(State(), g)
      ensures x == Spec.FindScript(State(), State().Gr(g).scripts, key)
    {
      hide Mapped.Valid;
      ghost var l := State().Gr(g).scripts;
      ScriptsDistinct(State(), g);
      x := mem.HeadOf(ScrList(g));
      ghost var i: nat := 0;
      assert l[0..] == l;
      while x != 0 && !(mem.ScriptKey(x).dev == key.dev && mem.ScriptKey(x).ino == key.ino)
        invariant Valid() && i <= |l| && if i < |l| then x == l[i] && x in l && x != 0 else x == 0
        invariant Spec.FindScript(State(), l, key) == Spec.FindScript(State(), l[i..], key)
        decreases |l| - i
      {
        IndexAt(l, i);
        x := mem.Next(ScrList(g), x);
        assert l[i..][1..] == l[i + 1..];
        i := i + 1;
      }
    }

    method NameMatches(g: nat, text: string) returns (same: bool)
      requires Valid() && Wf(State()) && IsGr(State(), g)
      ensures same == NameMatch(State(), g, text)
    {
      hide Mapped.Valid;
      var n := mem.GrRec(g).name;
      if n == 0 { return false; }
      NameSlot(State(), g);
      same := mem.NameAt(n) == Clip(text);
    }

    /** Whether a group may hold the script, and the script slot there with its device and inode. */
    method Candidate(g: nat, key: Key, opt: GroupOpt) returns (named: bool, x: nat)
      requires Valid() && Wf(State()) && IsGr(State(), g)
      ensures named == (opt.Named? ==> NameMatch(State(), g, opt.text))
      ensures x == if named then Spec.FindScript(State(), State().Gr(g).scripts, key) else 0
    {
      named, x := true, 0;
      if opt.Named? { named := NameMatches(g, opt.text); }
      if named { x := FindScript(g, key); }
    }

    /** The search loop. Stale groups go to the tail of the list while it runs: the next group
        is read beforehand, and the ones that moved are met again only as invalid ones. */
    method Search(key: Key, opt: GroupOpt, ghost max: nat) returns (g: nat, nameMatch: nat)
      requires Valid() && Inv(State(), 0, max)
      modifies mem.Objs()
      ensures Valid() && (State(), g, nameMatch) == Scan(old(State()), old(State()).groups, key, opt, 0)
    {
      ghost var s0 := State();
      ghost var rest, moved := State().groups, [];
      hide Mapped.Valid, Walk, Spec.Invalidate, Spec.FindScript, NameMatch, Wf, Sorted, Bound, Indexed, SentAtHead;
      WalkStarts(s0, max);
      g, nameMatch := mem.HeadOf(GroupList), 0;
      while g != 0
        invariant Valid() && Inv(State(), 0, max) && Walk(State(), rest, moved)
        invariant g == First(rest + moved) || (rest == [] && g == 0)
        invariant Scan(State(), rest, key, opt, nameMatch) == Scan(s0, s0.groups, key, opt, 0)
        decreases |rest|
      {
        WalkAt(State(), rest, moved, max);
        assert g in ListOf(State(), GroupList);
        var next := mem.Next(GroupList, g);
        if mem.HeadOf(ScrList(g)) == 0 { g := 0; return; }
        var named, x := Candidate(g, key, opt);
        if opt.Named? && named { nameMatch := g; }
        if x == 0 {
          WalkPasses(State(), rest, moved);
        } else {
          FoundScript(State(), g, key, max);
          if mem.ScriptKey(x).mtime == key.mtime {
            mem.ToHead(ScrList(g), x);
            return;
          }
          WalkMoves(State(), rest, moved, max);
          var _ := Invalidate(g);
          moved := moved + [g];
        }
        rest := rest[1..];
        g := next;
      }
      WalkEnds(State(), rest, moved, max);
    }

    /** The group that takes a new script: the match, or a new one. */
    method GroupFor(nameMatch: nat, opt: GroupOpt) returns (g: nat)
      requires Valid() && Wf(State()) && (nameMatch != 0 ==> IsGr(State(), nameMatch)) && Room(2)
      requires Enough(if nameMatch == 0 || !State().Valid(nameMatch) then Spec.GroupCreate(State(), opt).0 else State())
      modifies mem.Objs()
      ensures Valid()
      ensures (State(), g) ==
        if nameMatch == 0 || !old(State()).Valid(nameMatch) then Spec.GroupCreate(old(State()), opt)
        else (old(State()), nameMatch)
      ensures Wf(State()) && IsGr(State(), g) && State().alloced <= old(State()).alloced + 2
    {
      hide Mapped.Valid;
      g := nameMatch;
      if g != 0 {
        if mem.HeadOf(ScrList(g)) == 0 { g := 0; }
      }
      if g == 0 {
        GroupCreateWf(State(), opt);
        CreateAlloced(State(), opt);
        hide Spec.GroupCreate;
        g := GroupCreate(opt);
      }
    }

    method AddScript(nameMatch: nat, key: Key, opt: GroupOpt) returns (g: nat)
      requires Valid() && Wf(State()) && (nameMatch != 0 ==> IsGr(State(), nameMatch)) && Room(3)
      requires Enough(Spec.AddScript(State(), nameMatch, key, opt).0)
      modifies mem.Objs()
      ensures Valid() && (State(), g) == Spec.AddScript(old(State()), nameMatch, key, opt)
    {
      hide Mapped.Valid, Spec.GroupCreate;
      g := GroupFor(nameMatch, opt);
      AllocFrom(State(), Scr(key, g));
      hide Wf;
      var x := mem.SlotAlloc(ScrRec(key), Scr(key, g));
      mem.Insert(ScrList(g), x);
    }

    method ScriptFind(key: Key, opt: GroupOpt, ghost max: nat) returns (g: nat)
      requires Valid() && Inv(State(), 0, max) && Room(3) && Enough(Spec.ScriptFind(State(), key, opt).0)
      modifies mem.Objs()
      ensures Valid() && (State(), g) == Spec.ScriptFind(old(State()), key, opt)
    {
      SearchReady(State(), key, opt, max);
      hide Mapped.Valid, Spec.AddScript, Scan, Inv;
      var nameMatch;
      g, nameMatch := Search(key, opt, max);
      if g == 0 { g := AddScript(nameMatch, key, opt); }
      mem.ToHead(GroupList, g);
    }

    // ---- the frontend's sections ----

    /** The end of speedy_frontend_connect: a backend that could not be connected to is disposed
        of, one that could is linked and recorded as starting. */
    method Finish(g: nat, f: nat, b: nat, c: Connect, self: nat, ghost max: nat)
      requires Valid() && Inv(State(), b, max) && Held(State(), f, self) && (b != 0 ==> Grabbed(State(), g, b))
      modifies mem.Objs()
      ensures Valid() && State() == Section.Finish(old(State()), g, f, b, c)
    {
      hide Mapped.Valid;
      FinishReady(State(), g, f, b, self, max);
      FinishParts(State(), g, f, b, c);
      hide Inv, Wf, Bound, Unlisted, Grabbed, Section.Finish, Spec.BackendDispose, LinkKept, LinkDetached;
      mem.SetBackend(f, b);
      if b == 0 {
        mem.SlotFree(f);
      } else {
        match c
        case Failed =>
          BackendDispose(g, b);
          mem.SlotFree(f);
        case Kept =>
          Link(g, f, b);
        case Detached =>
          mem.SetFeRunning(b, b);
          mem.SetStarting(g, mem.BeRec(b).bePid);
          mem.SlotFree(f);
      }
    }

    /** Backend and frontend are linked. */
    method Link(g: nat, f: nat, b: nat)
      requires Valid() && Grabbed(State(), g, b) && State().At(f).Fro? && Unlisted(State(), f)
      modifies mem.Objs()
      ensures Valid() && State() == LinkKept(old(State()), g, f, b)
    {
      hide Mapped.Valid, Unlisted;
      ghost var s := State();
      mem.SetFeRunning(b, f);
      mem.SetLoc(f, Run);
      SameUnlisted(s, State(), f);
      mem.Insert(RunList, f);
      mem.SetStarting(g, mem.BeRec(b).bePid);
    }

    /** The end of get_a_backend, with the frontend's slot out of the queue. */
    method Settle(g: nat, f: nat, self: nat, b: nat, c: Connect, ghost max: nat)
      requires Valid() && Inv(State(), b, max) && IsGr(State(), g) && Held(State(), f, self) && 0 !in State().live
      requires b != 0 ==> Grabbed(State(), g, b)
      modifies mem.Objs()
      ensures Valid() && State() == Section.Settle(old(State()), g, f, self, b, c)
    {
      hide Mapped.Valid, Section.Finish;
      FrontendSide.CleanupHeld(State(), g, f, self);
      if mem.HeadOf(BeList(g)) == 0 {
        CleanupKeeps(State(), g, 0, max, f, self, {}, {});
        Cleanup(g, self);
      } else {
        assert Spec.Cleanup(State(), g, self) == State();
      }
      Finish(g, f, b, c, self, max);
    }

    method LeaveQueue(g: nat, f: nat)
      requires Valid() && IsGr(State(), g) && IsQueued(State(), f) && f in State().Gr(g).fes
      modifies mem.Objs()
      ensures Valid() && State() == Leave(old(State()), g, f)
    {
      hide Mapped.Valid;
      mem.SetLoc(f, Hand);
      mem.Remove(FeList(g), f);
    }

    method JoinQueue(g: nat, f: nat, self: nat)
      requires Valid() && Wf(State()) && IsGr(State(), g) && Held(State(), f, self)
      modifies mem.Objs()
      ensures Valid() && State() == Join(old(State()), g, f)
    {
      hide Mapped.Valid;
      ghost var s := State();
      HandUnlisted(s, f);
      hide Wf;
      mem.SetLoc(f, Queue(g));
      SameUnlisted(s, State(), f);
      mem.Append(FeList(g), f);
    }

    /** A queued frontend's turn, up to the next unlock. */
    method QueueTurn(g: nat, f: nat, self: nat, didSpawn: bool, max: nat, child: nat, c: Connect) returns (o: Outcome)
      requires Valid() && Inv(State(), 0, max) && IsFrontendOf(State(), g, f) && State().m[f].fe.pid == self
      requires self in State().live && 0 !in State().live && child !in State().live
      modifies mem.Objs()
      ensures Valid() && (State(), o) == Section.QueueTurn(old(State()), g, f, self, didSpawn, max, child, c)
    {
      TurnStays(State(), g, f, self, didSpawn, max, child);
      hide Mapped.Valid, Try, Inv, Section.Settle;
      var turn := Turn(g, f, self, didSpawn, max, child);
      match turn
      case Waits(did) => o := Queued(g, f, did);
      case Gets(b) =>
        LeaveSettle(g, f, self, b, c, max);
        o := Settled(f, b, c, true);
      case GaveUp(working) =>
        LeaveSettle(g, f, self, 0, c, max);
        o := Settled(f, 0, c, working);
    }

    /** The frontend leaves the queue, with a backend or without. */
    method LeaveSettle(g: nat, f: nat, self: nat, b: nat, c: Connect, ghost max: nat)
      requires Valid() && Inv(State(), b, max) && IsFrontendOf(State(), g, f) && State().m[f].fe.pid == self
      requires 0 !in State().live && (b != 0 ==> Grabbed(State(), g, b))
      modifies mem.Objs()
      ensures Valid() && State() == Section.Settle(Leave(old(State()), g, f), g, f, self, b, c)
    {
      hide Mapped.Valid, Section.Settle;
      LeaveReady(State(), g, f, self, b, max);
      hide Inv;
      LeaveQueue(g, f);
      Settle(g, f, self, b, c, max);
    }

    method Wake(g: nat, f: nat, self: nat, didSpawn: bool, changed: bool, max: nat, child: nat, c: Connect)
      returns (o: Outcome)
      requires Valid() && Inv(State(), 0, max) && IsFrontendOf(State(), g, f) && State().m[f].fe.pid == self
      requires self in State().live && 0 !in State().live && child !in State().live
      modifies mem.Objs()
      ensures Valid() && (State(), o) == WakeSection(old(State()), g, f, self, didSpawn, changed, max, child, c)
    {
      hide Mapped.Valid, Section.QueueTurn, Section.Settle, Inv;
      if mem.HeadOf(ScrList(g)) == 0 || changed {
        LeaveSettle(g, f, self, 0, c, max);
        return Retry;
      }
      o := QueueTurn(g, f, self, didSpawn, max, child, c);
    }

    /** The first part of a request: the running list cleaned, a slot allocated, the group found. */
    method Arrive(self: nat, cleaned: bool, key: Key, opt: GroupOpt, ghost max: nat) returns (g: nat, f: nat)
      requires Valid() && Inv(State(), 0, max) && Room(4)
      requires var s0 := if cleaned then State() else Section.CleanRunning(State());
        Enough(AllocFrontend(s0, self).0) && Enough(Spec.ScriptFind(AllocFrontend(s0, self).0, key, opt).0)
      modifies mem.Objs()
      ensures Valid() && (State(), g, f) == FrontendSide.Arrive(old(State()), self, cleaned, key, opt)
    {
      ArriveReady(State(), self, cleaned, key, opt, max);
      hide Mapped.Valid, Inv, Section.CleanRunning, Spec.ScriptFind, Held;
      if !cleaned { CleanRunning(max); }
      f := mem.SlotAlloc(FroRec(self, 0, false, false, 0), Fro(NO_FRONTEND.(pid := self)));
      g := ScriptFind(key, opt, max);
    }

    /** A request that has not got a backend at once. */
    method GetHard(g: nat, f: nat, self: nat, max: nat, child: nat, c: Connect) returns (o: Outcome)
      requires Valid() && Inv(State(), 0, max) && IsGr(State(), g) && Held(State(), f, self)
      requires State().m[f].fe == NO_FRONTEND.(pid := self)
      requires self in State().live && 0 !in State().live && child !in State().live
      modifies mem.Objs()
      ensures Valid() && (State(), o) == Section.QueueTurn(Join(old(State()), g, f), g, f, self, false, max, child, c)
    {
      hide Mapped.Valid, Bound, Sorted, SentAtHead, WithinMax, Indexed, Section.QueueTurn;
      JoinReady(State(), g, f, self, max);
      JoinQueue(g, f, self);
      o := QueueTurn(g, f, self, false, max, child, c);
    }

    /** The file has room for the four slots that a request may take. */
    method Request(self: nat, cleaned: bool, key: Key, opt: GroupOpt, max: nat, child: nat, c: Connect)
      returns (o: Outcome)
      requires Valid() && Inv(State(), 0, max) && self in State().live && 0 !in State().live && child !in State().live
      requires Room(4) && Enough(ConnectSection(State(), self, cleaned, key, opt, max, child, c).0)
      modifies mem.Objs()
      ensures Valid() && (State(), o) == ConnectSection(old(State()), self, cleaned, key, opt, max, child, c)
    {
      hide Mapped.Valid, Inv, Section.Settle, Section.QueueTurn, Section.CleanRunning, Spec.ScriptFind, Spec.BeWaitGet,
        Held, Join, Grabbed;
      ArriveReady(State(), self, cleaned, key, opt, max);
      RequestQuiet(State(), self, cleaned, key, opt, max, child, c);
      var g, f := Arrive(self, cleaned, key, opt, max);
      var b := 0;
      QuickGetReady(State(), g, f, self, max);
      if mem.HeadOf(FeList(g)) == 0 { b := BeWaitGet(g); }
      if b != 0 {
        Settle(g, f, self, b, c, max);
        return Settled(f, b, c, true);
      }
      o := GetHard(g, f, self, max, child, c);
    }

    // ---- the parent process ----

    method FindPid(g: nat, pid: nat) returns (b: nat)
      requires Valid() && Wf(State()) && IsGr(State(), g)
      ensures b == Section.FindPid(State(), State().Gr(g).bes, pid)
    {
      hide Mapped.Valid;
      ghost var l := State().Gr(g).bes;
      AllBackends(State(), g);
      b := mem.HeadOf(BeList(g));
      ghost var i: nat := 0;
      assert l[0..] == l;
      while b != 0 && mem.BeRec(b).bePid != pid
        invariant Valid() && i <= |l| && if i < |l| then b == l[i] && b in l && b != 0 else b == 0
        invariant Section.FindPid(State(), l, pid) == Section.FindPid(State(), l[i..], pid)
        decreases |l| - i
      {
        IndexAt(l, i);
        b := mem.Next(BeList(g), b);
        assert l[i..][1..] == l[i + 1..];
        i := i + 1;
      }
    }

    /** One dead child that waitpid reports. */
    method CollectChild(g: nat, e: Exit, ghost max: nat)
      requires Valid() && Inv(State(), 0, max) && IsGr(State(), g) && e.pid !in State().live
      modifies mem.Objs()
      ensures Valid() && State() == CollectOne(old(State()), g, e)
    {
      CollectReady(State(), g, e, max);
      hide Mapped.Valid, Inv, Spec.Exited, Spec.BackendDispose;
      var b := FindPid(g, e.pid);
      if b != 0 {
        Exited(b, e.onSig, e.val);
        BackendDispose(g, b);
      }
    }

    /** collect_child; `es` is what waitpid reports, one child after the other. */
    method CollectChildren(g: nat, es: seq<Exit>, ghost max: nat)
      requires Valid() && Inv(State(), 0, max) && IsGr(State(), g) && forall e :: e in es ==> e.pid !in State().live
      modifies mem.Objs()
      ensures Valid() && State() == CollectAll(old(State()), g, es)
    {
      ghost var s0 := State();
      var i := 0;
      assert es[0..] == es;
      hide Mapped.Valid, Inv, CollectOne;
      while i < |es|
        invariant Valid() && i <= |es| && Inv(State(), 0, max) && IsGr(State(), g) && State().live == s0.live
        invariant CollectAll(State(), g, es[i..]) == CollectAll(s0, g, es)
      {
        CollectReady(State(), g, es[i], max);
        CollectChild(g, es[i], max);
        assert es[i..][1..] == es[i + 1..];
        i := i + 1;
      }
    }

    /** start_child once it has been decided to start one. */
    method NewChild(g: nat, child: nat, ghost max: nat) returns (b: nat)
      requires Valid() && Inv(State(), 0, max) && IsGr(State(), g) && Spec.BelowMax(State(), g, max) && Room(1)
      requires Enough(Section.NewChild(State(), g, child).0)
      modifies mem.Objs()
      ensures Valid() && (State(), b) == Section.NewChild(old(State()), g, child)
    {
      NewChildReady(State(), g, max);
      hide Mapped.Valid, Inv, Spec.CreateSlot, Spec.BackendDispose;
      b := CreateSlot(g);
      if child == 0 {
        mem.SetStarting(g, 0);
        BackendDispose(g, b);
        return 0;
      }
      mem.Born(child);
      mem.SetStarting(g, child);
      mem.SetBePid(b, child);
    }

    method StartChild(g: nat, self: nat, max: nat, child: nat) returns (b: nat)
      requires Valid() && Inv(State(), 0, max) && IsGr(State(), g) && 0 !in State().live && Room(1)
      requires Enough(Section.StartChild(State(), g, self, max, child).0)
      modifies mem.Objs()
      ensures Valid() && (State(), b) == Section.StartChild(old(State()), g, self, max, child)
    {
      BeStartingKeeps(State(), g, 0, max, 0, self, {}, {});
      hide Mapped.Valid, Inv, Section.NewChild, Respects;
      var pid := BeStarting(g);
      if pid != 0 && pid != self { return 0; }
      var below := BelowMax(g, max);
      if !below { return 0; }
      b := NewChild(g, child, max);
    }

    /** A backend of a group whose parent process is dead goes if it is dead too; the next one is
        looked up before. */
    method DisposeNext(g: nat, b: nat, ghost l: seq<nat>, ghost i: nat, ghost max: nat) returns (next: nat)
      requires Valid() && Inv(State(), 0, max) && Rest(State(), g, l, i) && i < |l| && b == l[i]
      modifies mem.Objs()
      ensures var s := old(State());
        Valid() && State() == if s.Be(b).pid in s.live then s else Spec.BackendDispose(s, g, b)
      ensures Inv(State(), 0, max) && Rest(State(), g, l, i + 1) && next == if i + 1 < |l| then l[i + 1] else 0
      ensures i + 1 < |l| ==> l[i + 1] != 0
    {
      hide Mapped.Valid;
      RestNext(State(), g, l, i, max);
      hide Inv, Wf, Bound, Spec.BackendDispose, Rest;
      next := mem.Next(BeList(g), b);
      if !mem.Exists(mem.BeRec(b).bePid) { BackendDispose(g, b); }
    }

    method DisposeDead(g: nat, ghost max: nat)
      requires Valid() && Inv(State(), 0, max) && IsGr(State(), g)
      modifies mem.Objs()
      ensures Valid() && State() == Section.DisposeDead(old(State()), g, old(State()).Gr(g).bes)
    {
      hide Mapped.Valid, Section.DisposeDead, Rest;
      AllBackends(State(), g);
      StillAll(State(), g, State().Gr(g).bes);
      hide Inv;
      DisposeRest(g, mem.HeadOf(BeList(g)), State().Gr(g).bes, max);
    }

    method DisposeRest(g: nat, b0: nat, ghost l: seq<nat>, ghost max: nat)
      requires Valid() && Inv(State(), 0, max) && Rest(State(), g, l, 0) && b0 == First(l) && (b0 == 0 ==> l == [])
      modifies mem.Objs()
      ensures Valid() && State() == Section.DisposeDead(old(State()), g, l)
    {
      hide Mapped.Valid, Inv, Spec.BackendDispose, Rest;
      ghost var s0 := State();
      var b := b0;
      ghost var i: nat := 0;
      assert l[0..] == l;
      while b != 0
        invariant Valid() && i <= |l| && if i < |l| then b == l[i] && b != 0 else b == 0
        invariant Inv(State(), 0, max) && Rest(State(), g, l, i)
        invariant Section.DisposeDead(State(), g, l[i..]) == Section.DisposeDead(s0, g, l)
        decreases |l| - i
      {
        assert l[i..][0] == l[i] && l[i..][1..] == l[i + 1..];
        b := DisposeNext(g, b, l, i, max);
        i := i + 1;
      }
    }

    method DoCleanup(g: nat, self: nat, ghost max: nat)
      requires Valid() && Inv(State(), 0, max) && IsGr(State(), g) && 0 !in State().live
      modifies mem.Objs()
      ensures Valid() && State() == Section.DoCleanup(old(State()), g, self)
    {
      hide Mapped.Valid;
      GroupListed(State(), g);
      assert g in ListOf(State(), GroupList);
      var p := mem.Prev(GroupList, g);
      if p == 0 { p := mem.TailOf(GroupList); }
      GroupPrevReady(State(), g);
      if p == 0 || p == g { return; }
      CleanupReady(State(), p, max);
      hide Inv, Spec.ParentSig, Section.DisposeDead, Spec.Invalidate, Spec.Cleanup;
      var alive := ParentSig(p);
      if alive { return; }
      var _ := Invalidate(p);
      DisposeDead(p, max);
      Cleanup(p, self);
    }

    method TakeOver(g: nat, self: nat, ghost max: nat) returns (ours: bool)
      requires Valid() && Inv(State(), 0, max) && IsGr(State(), g)
      modifies mem.Objs()
      ensures Valid() && (State(), ours) == Section.TakeOver(old(State()), g, self)
    {
      hide Mapped.Valid;
      var pid := mem.GrRec(g).parent;
      StartBeKeeps(State(), g, 0, max, 0, self, {}, {});
      hide Inv, Respects, Spec.StartBe;
      if pid != 0 && pid != self {
        var other := StartBe(g);
        if other { return false; }
      }
      mem.SetParent(g, self);
      ours := true;
    }

    /** The first section of a parent process, for which there is room for four slots. */
    method ParentStart(self: nat, key: Key, opt: GroupOpt, max: nat, child: nat) returns (o: Started)
      requires Valid() && Inv(State(), 0, max) && 0 !in State().live && Room(4)
      requires Enough(Section.ParentStart(State(), self, key, opt, max, child).0)
      modifies mem.Objs()
      ensures Valid() && (State(), o) == Section.ParentStart(old(State()), self, key, opt, max, child)
    {
      StartReady(State(), self, key, opt, max);
      StartQuiet(State(), self, key, opt, max, child);
      hide Mapped.Valid, Inv, Spec.ScriptFind, Section.StartChild, Section.TakeOver;
      var g := ScriptFind(key, opt, max);
      var ours := TakeOver(g, self, max);
      if !ours { return Leaves; }
      var b := StartChild(g, self, max, child);
      o := Leads(g, b);
    }

    /** A parent process wakes up: up to the decision whether it leaves. */
    method Tend(g: nat, self: nat, es: seq<Exit>, usr1: bool, max: nat, child: nat) returns (b: nat)
      requires Valid() && Inv(State(), 0, max) && IsGr(State(), g) && State().m[g].gr.parent == self
      requires self in State().live && 0 !in State().live && Room(1)
      requires child !in State().live && forall e :: e in es ==> e.pid !in State().live
      requires Enough(Section.Tend(State(), g, self, es, usr1, max, child).0)
      modifies mem.Objs()
      ensures Valid() && (State(), b) == Section.Tend(old(State()), g, self, es, usr1, max, child)
      ensures DisposedWell(State(), g)
    {
      TendReady(State(), g, self, es, usr1, max, child);
      hide Mapped.Valid, Inv, DisposedWell, Section.StartChild, CollectAll, Section.DoCleanup;
      CollectChildren(g, es, max);
      b := StartIfAsked(g, self, usr1, max, child);
      DoCleanup(g, self, max);
    }

    /** A valid group whose parent process was sent SIGUSR1 gets a backend. */
    method StartIfAsked(g: nat, self: nat, usr1: bool, max: nat, child: nat) returns (b: nat)
      requires Valid() && Inv(State(), 0, max) && IsGr(State(), g) && 0 !in State().live && Room(1)
      requires usr1 && State().Valid(g) ==> Enough(Section.StartChild(State(), g, self, max, child).0)
      modifies mem.Objs()
      ensures Valid()
      ensures (State(), b) ==
        if old(State()).Valid(g) && usr1 then Section.StartChild(old(State()), g, self, max, child)
        else (old(State()), 0)
    {
      hide Mapped.Valid, Inv, Section.StartChild;
      b := 0;
      if mem.HeadOf(ScrList(g)) != 0 && usr1 { b := StartChild(g, self, max, child); }
    }

    /** A parent process wakes up; there is room for one slot. */
    method ParentWake(g: nat, self: nat, es: seq<Exit>, usr1: bool, alrm: bool, max: nat, child: nat)
      returns (leaves: bool, b: nat)
      requires Valid() && Inv(State(), 0, max) && IsGr(State(), g) && State().m[g].gr.parent == self
      requires self in State().live && 0 !in State().live && Room(1)
      requires child !in State().live && forall e :: e in es ==> e.pid !in State().live
      requires Enough(Section.ParentWake(State(), g, self, es, usr1, alrm, max, child).0)
      modifies mem.Objs()
      ensures Valid() && (State(), leaves, b) == Section.ParentWake(old(State()), g, self, es, usr1, alrm, max, child)
    {
      WakeQuiet(State(), g, self, es, usr1, alrm, max, child);
      hide Mapped.Valid, Inv, Section.Tend, Spec.Cleanup;
      b := Tend(g, self, es, usr1, max, child);
      leaves := alrm && mem.HeadOf(BeList(g)) == 0;
      if leaves { Cleanup(g, self); }
    }

    // ---- the backend ----

    method GoIdle(g: nat, b: nat, self: nat, maturity: nat, ghost max: nat)
      requires Valid() && Inv(State(), 0, max) && IsBe(State(), b) && State().m[b].be.grp == g
          && State().m[b].be.feRunning == b
      requires State().m[b].be.pid == self
      modifies mem.Objs()
      ensures Valid() && State() == Section.GoIdle(old(State()), g, b, self, maturity)
      ensures State().live == old(State()).live && State().At(b) == Bck(Backend(self, 0, maturity, g))
    {
      BackendSide.GoIdleKeeps(State(), g, b, self, maturity, max, {}, {});
      IdleReady(State(), g, b, self, maturity, max);
      hide Mapped.Valid, Inv, Spec.BeWaitPut, Spec.SendSigs;
      mem.SetMaturity(b, maturity);
      BeWaitPut(g, b);
      ClearStarting(g, self);
      SendSigs(g);
    }

    method Accepted(g: nat, self: nat, ghost max: nat)
      requires Valid() && Inv(State(), 0, max) && IsGr(State(), g)
      modifies mem.Objs()
      ensures Valid() && State() == Section.Accepted(old(State()), g, self)
      ensures Inv(State(), 0, max) && State().live == old(State()).live
    {
      hide Mapped.Valid, Respects, Bound, Sorted, SentAtHead, WithinMax, Indexed, Spec.SendSigs;
      BackendSide.ClearStartingKeeps(State(), g, self, max, 0, {}, {});
      ClearStarting(g, self);
      SendSigsKeeps(State(), g, 0, max, 0, self, {}, {});
      SendSigs(g);
    }

    /** The head of the loop of speedy_perl_run: the backend goes idle, or it leaves because its
        parent is gone or its group is invalid. */
    method Loop(g: nat, b: nat, self: nat, orphan: bool, maturity: nat, ghost max: nat) returns (next: Protocol.Proc)
      requires Valid() && Inv(State(), 0, max) && IsBe(State(), b) && State().m[b].be.grp == g
          && State().m[b].be.feRunning == b
      requires State().m[b].be.pid == self
      modifies mem.Objs()
      ensures Valid() && (State(), next) == Protocol.Loop(old(State()), g, b, self, orphan, maturity)
    {
      hide Mapped.Valid, Section.GoIdle;
      OnOneList(State(), g, b);
      if orphan || mem.HeadOf(ScrList(g)) == 0 { return Protocol.Leaving; }
      GoIdle(g, b, self, maturity, max);
      next := Protocol.BWaiting(g, b);
    }

    /** The backend has run a script. */
    method RunOver(g: nat, b: nat, self: nat, val: int, again: bool, orphan: bool, ghost max: nat)
      returns (next: Protocol.Proc)
      requires Valid() && Inv(State(), 0, max) && IsBe(State(), b) && State().m[b].be.grp == g
          && State().m[b].be.feRunning != 0
      requires State().m[b].be.pid == self
      modifies mem.Objs()
      ensures Valid() && (State(), next) == Protocol.RunOver(old(State()), g, b, self, val, again, orphan)
    {
      hide Mapped.Valid, Protocol.Loop;
      ExitedInv(State(), b, false, val, 0, max);
      ExitedEffect(State(), b, false, val);
      Exited(b, false, val);
      if again {
        next := Loop(g, b, self, orphan, 2, max);
      } else {
        OnOneList(State(), g, b);
        if mem.HeadOf(ScrList(g)) != 0 { var _ := StartBe(g); }
        next := Protocol.Leaving;
      }
    }
  }

  lemma RunListed(s: Store, f: nat)
    requires Wf(s)
    ensures IsRun(s, f) ==> f in s.running
  {
    if IsRun(s, f) { assert Home(s, f) == RunList && f in ListOf(s, RunList); }
  }

  /** The store between the steps of an invalidation. */
  lemma InvalidateParts(s: Store, g: nat)
    requires Wf(s) && Sorted(s, 0) && IsGr(s, g) && s.Valid(g)
    ensures forall x :: x in s.Gr(g).scripts ==> s.At(x).Scr?
    ensures var s1 := Conservation.FreeScripts(s, g); IsGr(s1, g) && (s1.Gr(g).name != 0 ==> s1.At(s1.Gr(g).name).Nam?)
    ensures var t := Conservation.FreeName(Conservation.FreeScripts(s, g), g);
      && Wf(t) && Sorted(t, 0) && IsGr(t, g) && g in t.groups
      && Waiters(t, t.Gr(g).bes) == Waiters(s, s.Gr(g).bes)
      && Spec.Invalidate(s, g) == t.(groups := MoveTail(t.groups, g))
  {
    ScriptsDistinct(s, g);
    FreeScriptsEffect(s, g);
    FreeScriptsWf(s, g);
    var s1 := Conservation.FreeScripts(s, g);
    FreeNameEffect(s1, g);
    FreeNameWf(s1, g);
    StrippedSorted(s, s1, Conservation.FreeName(s1, g), g);
    InvalidateSteps(s, g);
    if s1.Gr(g).name != 0 { NameSlot(s1, g); }
    GroupListed(Conservation.FreeName(s1, g), g);
  }

  lemma StillListed(s: Store, g: nat)
    requires Wf(s) && IsGr(s, g) && (!s.Valid(g) ==> s.Gr(g).name == 0)
    ensures var t := Spec.Invalidate(s, g); g in t.groups && IsGr(t, g) && t.Gr(g) == s.Gr(g).(scripts := [], name := 0)
  {
    InvalidateEffect(s, g);
    InvalidateWf(s, g);
    GroupListed(Spec.Invalidate(s, g), g);
  }

  lemma SameUnlisted(s: Store, t: Store, n: nat)
    requires Unlisted(s, n) && forall id :: ListOf(t, id) == ListOf(s, id)
    ensures Unlisted(t, n)
  {
    forall id ensures n !in ListOf(t, id) { assert n !in ListOf(s, id); }
  }

  lemma {:induction false} SortGoesBefore(s: Store, l: seq<nat>, b: nat, stop: nat -> bool)
    requires s.Be(b).feRunning == 0 && forall c :: c in l ==> s.At(c).Bck?
    requires forall c :: s.At(c).Bck? ==> stop(c) == (DoSort(s.Be(b), s.Be(c)) <= 0)
    ensures InsertBefore(l, b, stop) == InsertBefore(l, b, (c: nat) => GoesBefore(s, s.Be(b).maturity, c))
  {
    if l != [] { SortGoesBefore(s, l[1..], b, stop); }
  }

  lemma RotationEnds(l: seq<nat>, g: nat)
    requires g in l
    ensures var r := Rotation(l, g); r != [] && r[|r| - 1] == g
  {
    IndexIn(l, g);
  }

  lemma DisposedFits(s: Store, g: nat, f: nat, max: nat)
    requires Inv(s, 0, max) && IsFrontendOf(s, g, f) && f in s.Gr(g).fes
    ensures var t := Spec.FrontendDispose(s, g, f);
      Wf(t) && Sorted(t, 0) && IsGr(t, g) && t.live == s.live && (!t.Valid(g) ==> t.Gr(g).name == 0)
  {
    FrontendDisposeInv(s, g, f, 0, max);
  }

  lemma SweepLiving(s: Store, g: nat, f: nat, self: nat)
    requires s.Fe(f).pid in s.live
    ensures Sweep(s, g, f, self) == s
  {
  }

  lemma TendReady(s: Store, g: nat, self: nat, es: seq<Exit>, usr1: bool, max: nat, child: nat)
    requires Inv(s, 0, max) && IsGr(s, g) && s.m[g].gr.parent == self && self in s.live && 0 !in s.live
    requires child !in s.live && forall e :: e in es ==> e.pid !in s.live
    ensures var s1 := CollectAll(s, g, es);
      Inv(s1, 0, max) && IsGr(s1, g) && s1.live == s.live && s1.alloced == s.alloced
    ensures var s1 := CollectAll(s, g, es); var t := Section.StartChild(s1, g, self, max, child).0;
      Inv(t, 0, max) && IsGr(t, g) && 0 !in t.live
    ensures var t := Section.Tend(s, g, self, es, usr1, max, child).0; DisposedWell(t, g)
    ensures var s1 := CollectAll(s, g, es); s1.Valid(g) && usr1 ==>
      Section.Tend(s, g, self, es, usr1, max, child).0.alloced == Section.StartChild(s1, g, self, max, child).0.alloced
  {
    Footprint.CollectAllQuiet(s, g, es, max);
    BackendSide.CollectAllKeeps(s, g, es, 0, self, max, {}, {});
    BackendSide.StartChildKeeps(CollectAll(s, g, es), g, self, max, child, 0, {}, {});
    BackendSide.TendKeeps(s, g, self, es, usr1, max, child, {self}, {self});
    Footprint.DoCleanupTakes(Section.StartChild(CollectAll(s, g, es), g, self, max, child).0, g, self, max);
  }

  lemma WakeQuiet(s: Store, g: nat, self: nat, es: seq<Exit>, usr1: bool, alrm: bool, max: nat, child: nat)
    ensures Section.ParentWake(s, g, self, es, usr1, alrm, max, child).0.alloced
        == Section.Tend(s, g, self, es, usr1, max, child).0.alloced
  {
    Footprint.CleanupQuiet(Section.Tend(s, g, self, es, usr1, max, child).0, g, self);
  }

  lemma StartQuiet(s: Store, self: nat, key: Key, opt: GroupOpt, max: nat, child: nat)
    ensures var (t, g) := Spec.ScriptFind(s, key, opt); var (u, ours) := Section.TakeOver(t, g, self);
      var v := Section.ParentStart(s, self, key, opt, max, child).0;
      v.alloced >= t.alloced && (ours ==> v.alloced == Section.StartChild(u, g, self, max, child).0.alloced)
  {
    var (t, g) := Spec.ScriptFind(s, key, opt);
    TakeOverQuiet(t, g, self);
    StartChildGrows(Section.TakeOver(t, g, self).0, g, self, max, child);
  }

  lemma StartChildGrows(s: Store, g: nat, self: nat, max: nat, child: nat)
    ensures Section.StartChild(s, g, self, max, child).0.alloced >= s.alloced
  {
  }

  /** The slots of a request are those of its arrival. */
  lemma RequestQuiet(s: Store, self: nat, cleaned: bool, key: Key, opt: GroupOpt, max: nat, child: nat, c: Connect)
    requires Inv(s, 0, max) && self in s.live && 0 !in s.live && child !in s.live
    ensures var s0 := if cleaned then s else Section.CleanRunning(s); var (s1, f) := AllocFrontend(s0, self);
      var t := ConnectSection(s, self, cleaned, key, opt, max, child, c).0;
      t.alloced == Spec.ScriptFind(s1, key, opt).0.alloced && t.alloced >= s1.alloced
  {
    hide Respects, Bound, Sorted, SentAtHead, WithinMax, Indexed, Spec.ScriptFind, Section.QueueTurn, Section.Settle;
    ArriveReady(s, self, cleaned, key, opt, max);
    var s0 := if cleaned then s else Section.CleanRunning(s);
    var (s1, f) := AllocFrontend(s0, self);
    var (s2, g) := Spec.ScriptFind(s1, key, opt);
    FindGrows(s1, key, opt);
    QuickGetReady(s2, g, f, self, max);
    var (s3, b) := FrontendSide.QuickGet(s2, g);
    GetQuiet(s2, g);
    if b != 0 {
      Footprint.SettleHand(s3, g, f, self, b, c);
    } else {
      JoinReady(s3, g, f, self, max);
      JoinQuiet(s3, g, f);
      Footprint.QueueTurnQuiet(Join(s3, g, f), g, f, self, false, max, child, c);
    }
  }

  lemma FindGrows(s: Store, key: Key, opt: GroupOpt)
    ensures Spec.ScriptFind(s, key, opt).0.alloced >= s.alloced
  {
    Footprint.ScanQuiet(s, s.groups, key, opt, 0);
  }

  lemma GetQuiet(s: Store, g: nat)
    ensures FrontendSide.QuickGet(s, g).0.alloced == s.alloced
  {
  }

  lemma JoinQuiet(s: Store, g: nat, f: nat)
    ensures Join(s, g, f).alloced == s.alloced
  {
  }

  lemma IdleReady(s: Store, g: nat, b: nat, self: nat, m: nat, max: nat)
    requires Inv(s, 0, max) && IsBe(s, b) && s.m[b].be.grp == g && s.m[b].be.feRunning == b && s.m[b].be.pid == self
    ensures var s1 := s.PutBe(b, s.Be(b).(maturity := m)); var s2 := Spec.BeWaitPut(s1, g, b);
      && Wf(s1) && IsGr(s2, g) && Wf(Section.ClearStarting(s2, g, self)) && IsGr(Section.ClearStarting(s2, g, self), g)
  {
    BackendSide.MaturityKeeps(s, b, m, self, max, {}, {});
    var s1 := s.PutBe(b, s.Be(b).(maturity := m));
    BeWaitPutKeeps(s1, g, b, max, self, {}, {});
    OnOneList(s1, g, b);
    BackendSide.ClearStartingKeeps(Spec.BeWaitPut(s1, g, b), g, self, max, 0, {}, {});
  }

  lemma CollectReady(s: Store, g: nat, e: Exit, max: nat)
    requires Inv(s, 0, max) && IsGr(s, g) && e.pid !in s.live
    ensures Wf(s) && Bound(s)
    ensures var t := CollectOne(s, g, e); Inv(t, 0, max) && IsGr(t, g) && t.live == s.live
    ensures var b := Section.FindPid(s, s.Gr(g).bes, e.pid); b != 0 ==>
      IsBe(s, b) && var s1 := Spec.Exited(s, b, e.onSig, e.val);
        Wf(s1) && Bound(s1) && IsBe(s1, b) && s1.m[b].be.grp == g
  {
    BackendSide.CollectOneKeeps(s, g, e, 0, 0, max, {}, {});
    BackendSide.FindPidFinds(s, s.Gr(g).bes, e.pid);
    var b := Section.FindPid(s, s.Gr(g).bes, e.pid);
    if b != 0 {
      BackendSide.ListedBe(s, g, b);
      ExitedInv(s, b, e.onSig, e.val, 0, max);
      ExitedEffect(s, b, e.onSig, e.val);
    }
  }

  /** l without what was disposed of before position i is the list of g: what comes next to its
      element i in the list is the element after it. */
  ghost predicate Rest(s: Store, g: nat, l: seq<nat>, i: nat) {
    && i <= |l| && NoDup(l)
    && exists pre: seq<nat> :: s.Gr(g).bes == pre + l[i..]
  }

  lemma StillAll(s: Store, g: nat, l: seq<nat>)
    requires NoDup(l) && s.Gr(g).bes == l
    ensures Rest(s, g, l, 0)
  {
    assert s.Gr(g).bes == [] + l[0..];
  }

  lemma RestNext(s: Store, g: nat, l: seq<nat>, i: nat, max: nat)
    requires Inv(s, 0, max) && Rest(s, g, l, i) && i < |l|
    ensures Wf(s) && Bound(s) && IsBe(s, l[i]) && s.m[l[i]].be.grp == g && l[i] in s.Gr(g).bes
    ensures Inv(Spec.BackendDispose(s, g, l[i]), 0, max)
    ensures Rest(s, g, l, i + 1) && Rest(Spec.BackendDispose(s, g, l[i]), g, l, i + 1)
    ensures NextIn(s.Gr(g).bes, l[i]) == (if i + 1 < |l| then l[i + 1] else 0) && (i + 1 < |l| ==> l[i + 1] != 0)
  {
    var pre: seq<nat> :| s.Gr(g).bes == pre + l[i..];
    var m := s.Gr(g).bes;
    assert m[|pre|] == l[i] && m[|pre|] in m;
    AllBackends(s, g);
    DisposeReady(s, g, l[i], max);
    hide Inv, Spec.BackendDispose, IsBe;
    RestAfter(pre, l, i);
    if i + 1 < |l| { assert m[|pre| + 1] == l[i + 1] && l[i + 1] in m; }
  }

  lemma RestAfter(pre: seq<nat>, l: seq<nat>, i: nat)
    requires i < |l| && NoDup(pre + l[i..])
    ensures var m := pre + l[i..];
      && Without(m, l[i]) == pre + l[i + 1..] && m == (pre + [l[i]]) + l[i + 1..]
      && NextIn(m, l[i]) == if i + 1 < |l| then l[i + 1] else 0
  {
    var m := pre + l[i..];
    assert m[|pre|] == l[i];
    IndexAt(m, |pre|);
    NoDupDistinct(m);
    WithoutAt(m, |pre|);
    assert m[..|pre|] == pre && m[|pre| + 1..] == l[i + 1..];
  }

  lemma DisposeReady(s: Store, g: nat, b: nat, max: nat)
    requires Inv(s, 0, max) && b in s.Gr(g).bes
    ensures Wf(s) && Bound(s) && IsBe(s, b) && s.m[b].be.grp == g
    ensures var t := Spec.BackendDispose(s, g, b); Inv(t, 0, max) && t.Gr(g).bes == Without(s.Gr(g).bes, b)
  {
    BackendSide.ListedBe(s, g, b);
    BackendDisposeInv(s, g, b, 0, max);
    BackendSide.DisposedList(s, g, b);
  }

  lemma GroupPrevReady(s: Store, g: nat)
    requires Wf(s) && IsGr(s, g)
    ensures var p := PrevIn(s.groups, g);
      GroupPrev(s, g) == (if p == 0 then Last(s.groups) else p) && IsGr(s, GroupPrev(s, g))
  {
    BackendSide.GroupPrevFinds(s, g);
    GroupsNonzero(s);
    GroupListed(s, g);
    IndexIn(s.groups, g);
    if Index(s.groups, g) > 0 { assert s.groups[Index(s.groups, g) - 1] in s.groups; }
  }

  lemma NewChildReady(s: Store, g: nat, max: nat)
    requires Inv(s, 0, max) && IsGr(s, g) && Spec.BelowMax(s, g, max)
    ensures Wf(s)
    ensures var (t, b) := Spec.CreateSlot(s, g); IsGr(t, g) && IsBe(t, b) && t.m[b].be.grp == g && b != g
    ensures var (t, b) := Spec.CreateSlot(s, g); var u := t.PutGr(g, t.Gr(g).(starting := 0));
      Wf(u) && Bound(u) && IsBe(u, b) && u.m[b].be.grp == g
    ensures forall child :: Section.NewChild(s, g, child).0.alloced == Spec.CreateSlot(s, g).0.alloced
  {
    var s0 := s.PutGr(g, s.Gr(g).(starting := 0));
    BackendSide.CreateSlotKeeps(s, g, max, 0, 0, {}, {});
    var (t, b) := Spec.CreateSlot(s, g);
    StartingKeeps(t, g, 0, 0, max, 0, 0, {}, {});
  }

  lemma CleanupReady(s: Store, p: nat, max: nat)
    requires Inv(s, 0, max) && IsGr(s, p) && 0 !in s.live
    ensures Wf(s) && Sorted(s, 0)
    ensures var (s1, alive) := Spec.ParentSig(s, p); !alive ==>
        Inv(s1, 0, max) && Wf(s1) && Sorted(s1, 0) && IsGr(s1, p)
    ensures var (s1, alive) := Spec.ParentSig(s, p); var s2 := Spec.Invalidate(s1, p); !alive ==>
      Inv(s2, 0, max) && IsGr(s2, p) && s2.live == s.live
    ensures var (s1, alive) := Spec.ParentSig(s, p); var s2 := Spec.Invalidate(s1, p); !alive ==>
      DisposedWell(Section.DisposeDead(s2, p, s2.Gr(p).bes), p)
  {
    ParentSigKeeps(s, p, 0, max, 0, 0, {}, {});
    hide Respects;
    var (s1, alive) := Spec.ParentSig(s, p);
    if !alive {
      InvalidateKeeps(s1, p, 0, max, 0, 0, {}, {});
      DisposedReady(Spec.Invalidate(s1, p), p, max);
    }
  }

  predicate NoPidZero(s: Store) { 0 !in s.live }

  ghost predicate DisposedWell(s: Store, p: nat) {
    Wf(s) && Sorted(s, 0) && IsGr(s, p) && NoPidZero(s) && (!s.Valid(p) ==> s.Gr(p).name == 0)
  }

  lemma DisposedReady(s: Store, p: nat, max: nat)
    requires Inv(s, 0, max) && IsGr(s, p) && 0 !in s.live
    ensures DisposedWell(Section.DisposeDead(s, p, s.Gr(p).bes), p)
  {
    assert ListOf(s, BeList(p)) == s.Gr(p).bes;
    BackendSide.DisposeDeadKeeps(s, p, s.Gr(p).bes, 0, 0, max, {}, {});
  }

  lemma SearchReady(s: Store, key: Key, opt: GroupOpt, max: nat)
    requires Inv(s, 0, max)
    ensures var (t, g, nameMatch) := Scan(s, s.groups, key, opt, 0);
      Wf(t) && (g == 0 && nameMatch != 0 ==> IsGr(t, nameMatch)) && t.alloced == s.alloced
    ensures var (t, g, nameMatch) := Scan(s, s.groups, key, opt, 0);
      if g == 0 then var (u, h) := Spec.AddScript(t, nameMatch, key, opt); h in u.groups else g in t.groups
  {
    SearchStarts(s, key, opt);
    ScanKeeps(s, s.groups, key, opt, 0, max);
    var (t, g, nameMatch) := Scan(s, s.groups, key, opt, 0);
    if g == 0 {
      AddedListed(t, nameMatch, key, opt);
    } else {
      GroupListed(t, g);
    }
  }

  lemma AddedListed(s: Store, nameMatch: nat, key: Key, opt: GroupOpt)
    requires Wf(s) && (nameMatch != 0 ==> IsGr(s, nameMatch))
    ensures var (t, g) := Spec.AddScript(s, nameMatch, key, opt); g in t.groups
  {
    if nameMatch == 0 || !s.Valid(nameMatch) { GroupCreateEffect(s, opt); } else { GroupListed(s, nameMatch); }
  }

  lemma StartReady(s: Store, self: nat, key: Key, opt: GroupOpt, max: nat)
    requires Inv(s, 0, max) && 0 !in s.live
    ensures var (t, g) := Spec.ScriptFind(s, key, opt);
      && Inv(t, 0, max) && IsGr(t, g) && t.alloced <= s.alloced + 3
      && var u := Section.TakeOver(t, g, self).0; Inv(u, 0, max) && IsGr(u, g) && 0 !in u.live && u.alloced == t.alloced
  {
    ScriptFindKeeps(s, key, opt, max);
    var (t, g) := Spec.ScriptFind(s, key, opt);
    BackendSide.TakeOverKeeps(t, g, self, max, 0, {}, {});
    TakeOverQuiet(t, g, self);
  }

  /** The frontend's slot names the backend. */
  function Named(s: Store, f: nat, b: nat): Store { s.PutFe(f, s.Fe(f).(backend := b)) }

  lemma FinishParts(s: Store, g: nat, f: nat, b: nat, c: Connect)
    requires s.At(f).Fro? && (b != 0 ==> Grabbed(s, g, b))
    ensures b == 0 ==> Section.Finish(s, g, f, b, c) == Spec.SlotFree(Named(s, f, b), f)
    ensures b != 0 && c == Failed ==>
        Section.Finish(s, g, f, b, c) == Spec.SlotFree(Spec.BackendDispose(Named(s, f, b), g, b), f)
    ensures b != 0 && c == Kept ==> Section.Finish(s, g, f, b, c) == LinkKept(Named(s, f, b), g, f, b)
    ensures b != 0 && c == Detached ==>
        Section.Finish(s, g, f, b, c) == Spec.SlotFree(LinkDetached(Named(s, f, b), g, b), f)
    ensures b != 0 ==> DetachedParts(Named(s, f, b), LinkDetached(Named(s, f, b), g, b), g, f, b)
  {
  }

  ghost predicate DetachedParts(s: Store, t: Store, g: nat, f: nat, b: nat) {
    && s.At(g).Grp? && IsBe(s, b) && s.Be(b).grp == g && t.At(f) == s.At(f)
    && t == s.PutBe(b, s.Be(b).(feRunning := b)).PutGr(g, s.Gr(g).(starting := s.Be(b).pid))
    && forall id :: ListOf(t, id) == ListOf(s, id)
  }

  lemma TakeOverQuiet(s: Store, g: nat, self: nat)
    ensures Section.TakeOver(s, g, self).0.alloced == s.alloced
  {
    Footprint.StartBeQuiet(s, g);
  }

  lemma HandUnlisted(s: Store, f: nat)
    requires Wf(s) && Home(s, f) == InHand
    ensures Unlisted(s, f)
  {
  }

  lemma FinishReady(s: Store, g: nat, f: nat, b: nat, self: nat, max: nat)
    requires Inv(s, b, max) && Held(s, f, self) && (b != 0 ==> Grabbed(s, g, b))
    ensures var t := s.PutFe(f, s.Fe(f).(backend := b)); Wf(t) && Bound(t) && Unlisted(t, f) && t.At(f).Fro?
    ensures var t := s.PutFe(f, s.Fe(f).(backend := b)); b != 0 ==>
      Grabbed(t, g, b) && Unlisted(Spec.BackendDispose(t, g, b), f) && Spec.BackendDispose(t, g, b).At(f) == t.At(f)
  {
    HeldKeeps(s, f, b, self, b, max, {}, {});
    var t := s.PutFe(f, s.Fe(f).(backend := b));
    HandUnlisted(t, f);
    if b != 0 {
      NoZero(s);
      BackendDisposeInv(t, g, b, b, max);
      HandUnlisted(Spec.BackendDispose(t, g, b), f);
    }
  }

  lemma LeaveReady(s: Store, g: nat, f: nat, self: nat, b: nat, max: nat)
    requires Inv(s, b, max) && IsFrontendOf(s, g, f) && s.m[f].fe.pid == self && (b != 0 ==> Grabbed(s, g, b))
    ensures f in s.Gr(g).fes
    ensures var t := Leave(s, g, f); Inv(t, b, max) && IsGr(t, g) && Held(t, f, self) && t.live == s.live
    ensures b != 0 ==> Grabbed(Leave(s, g, f), g, b)
  {
    QueuedInGroup(s, g, f);
    LeaveKeeps(s, g, f, self, b, max, {}, {});
    if b != 0 { FrontendSide.LeaveGrabbed(s, g, f, b); }
  }

  lemma TurnStays(s: Store, g: nat, f: nat, self: nat, did: bool, max: nat, child: nat)
    requires Inv(s, 0, max) && IsFrontendOf(s, g, f) && s.m[f].fe.pid == self
    requires self in s.live && 0 !in s.live && child !in s.live
    ensures var (t, turn) := Try(s, g, f, self, did, max, child); var b := if turn.Gets? then turn.b else 0;
      Inv(t, b, max) && IsFrontendOf(t, g, f) && t.m[f].fe.pid == self && (turn.Gets? ==> b != 0 && Grabbed(t, g, b))
          && 0 !in t.live
  {
    TryGetKeeps(s, g, f, self, max, {self}, {});
    var (s1, b) := TryGet(s, g, f);
    if b == 0 {
      PingLive(s1, g, f, self, did, max, child);
      PingKeeps(s1, g, f, self, did, max, child, {self}, {});
      PingStays(s1, g, f, self, did, max, child);
    }
  }

  lemma ArriveReady(s: Store, self: nat, cleaned: bool, key: Key, opt: GroupOpt, max: nat)
    requires Inv(s, 0, max)
    ensures var s0 := if cleaned then s else Section.CleanRunning(s); var (s1, f) := AllocFrontend(s0, self);
      var (s2, g) := Spec.ScriptFind(s1, key, opt);
      && Inv(s1, 0, max) && Inv(s2, 0, max) && IsGr(s2, g) && Held(s2, f, self) && s2.live == s.live
      && s2.m[f].fe == NO_FRONTEND.(pid := self) && s0.alloced == s.alloced
  {
    FrontendSide.ArriveKeeps(s, self, cleaned, key, opt, max, {}, {});
    var s0 := if cleaned then s else Section.CleanRunning(s);
    FrontendSide.CleanedKeeps(s, cleaned, max, 0, self, {}, {});
    AllocFrontendKeeps(s0, self, max, 0, {}, {});
  }

  lemma QuickGetReady(s: Store, g: nat, f: nat, self: nat, max: nat)
    requires Inv(s, 0, max) && IsGr(s, g) && Held(s, f, self) && 0 !in s.live && s.m[f].fe == NO_FRONTEND.(pid := self)
    ensures Wf(s) && var (t, b) := FrontendSide.QuickGet(s, g);
      && Inv(t, b, max) && IsGr(t, g) && Held(t, f, self) && t.live == s.live && (b != 0 ==> Grabbed(t, g, b))
      && t.m[f].fe == s.m[f].fe
  {
    FrontendSide.QuickGetKeeps(s, g, f, self, max, {}, {});
  }

  lemma JoinReady(s: Store, g: nat, f: nat, self: nat, max: nat)
    requires Inv(s, 0, max) && IsGr(s, g) && Held(s, f, self) && s.m[f].fe == NO_FRONTEND.(pid := self)
    ensures var t := Join(s, g, f); Inv(t, 0, max) && IsFrontendOf(t, g, f) && t.m[f].fe.pid == self && t.live == s.live
  {
    JoinInv(s, g, f, self, max);
  }

  /** Where the search stands: behind the groups it has passed come the ones still to be
      looked at, then those it has made invalid. */
  ghost predicate Walk(s: Store, rest: seq<nat>, moved: seq<nat>) {
    && (exists pre :: s.groups == pre + (rest + moved))
    && (forall h :: h in moved ==> !s.Valid(h))
  }

  lemma WalkStarts(s: Store, max: nat)
    requires Inv(s, 0, max)
    ensures Walk(s, s.groups, [])
  {
    assert s.groups == [] + (s.groups + []);
  }

  lemma WalkAt(s: Store, rest: seq<nat>, moved: seq<nat>, max: nat)
    requires Inv(s, 0, max) && Walk(s, rest, moved) && rest + moved != []
    ensures var g := First(rest + moved);
      && g != 0 && IsGr(s, g) && g in s.groups && (rest == [] ==> !s.Valid(g))
      && (rest != [] ==> g == rest[0] && NextIn(s.groups, g) == First(rest[1..] + moved))
  {
    GroupsNonzero(s);
    var pre :| s.groups == pre + (rest + moved);
    var l := rest + moved;
    assert s.groups[|pre|] == l[0] && l[0] in s.groups;
    IndexAt(s.groups, |pre|);
    if rest != [] {
      assert l == [rest[0]] + (rest[1..] + moved);
      if |l| > 1 { assert s.groups[|pre| + 1] == l[1]; }
    } else {
      assert l[0] in moved;
    }
  }

  lemma WalkEnds(s: Store, rest: seq<nat>, moved: seq<nat>, max: nat)
    requires Inv(s, 0, max) && Walk(s, rest, moved)
    ensures rest == [] || First(rest + moved) != 0
  {
    if rest + moved != [] { WalkAt(s, rest, moved, max); }
  }

  lemma WalkPasses(s: Store, rest: seq<nat>, moved: seq<nat>)
    requires Walk(s, rest, moved) && rest != []
    ensures Walk(s, rest[1..], moved)
  {
    var pre :| s.groups == pre + (rest + moved);
    assert s.groups == (pre + [rest[0]]) + (rest[1..] + moved);
  }

  lemma FoundScript(s: Store, g: nat, key: Key, max: nat)
    requires Inv(s, 0, max) && IsGr(s, g) && Spec.FindScript(s, s.Gr(g).scripts, key) != 0
    ensures IsScr(s, Spec.FindScript(s, s.Gr(g).scripts, key))
        && Spec.FindScript(s, s.Gr(g).scripts, key) in s.Gr(g).scripts
  {
    NoZeroScript(s, g);
    FindScriptFinds(s, s.Gr(g).scripts, key);
    ListedScr(s, g, Spec.FindScript(s, s.Gr(g).scripts, key));
  }

  /** Invalidation takes the group out of its place and puts it behind all others. */
  lemma WalkMoves(s: Store, rest: seq<nat>, moved: seq<nat>, max: nat)
    requires Inv(s, 0, max) && Walk(s, rest, moved) && rest != [] && IsGr(s, rest[0]) && s.Valid(rest[0])
    ensures var t := Spec.Invalidate(s, rest[0]); Inv(t, 0, max) && Walk(t, rest[1..], moved + [rest[0]])
  {
    hide Respects,Fair,Grown,SameBackends,SameQueues,SameRunning,Sorted,Bound,Indexed;
    var g, t := rest[0], Spec.Invalidate(s, rest[0]);
    InvalidateKeeps(s, g, 0, max, 0, 0, {}, {});
    InvalidateEffect(s, g);
    GroupsNonzero(s);
    hide Inv, Spec.Invalidate;
    var pre :| s.groups == pre + (rest + moved);
    TailOfThree(pre, rest, moved);
    forall h | h in moved + [g] ensures !t.Valid(h) { StaysInvalid(s, t, g, h); }
  }

  lemma StaysInvalid(s: Store, t: Store, g: nat, h: nat)
    requires (h != g ==> !s.Valid(h)) && t.Gr(g).scripts == []
    requires forall n :: n != g ==> t.At(n) == s.At(n) || t.At(n) == Free
    ensures !t.Valid(h)
  {
  }

  lemma TailOfThree(pre: seq<nat>, rest: seq<nat>, moved: seq<nat>)
    requires rest != [] && NoDup(pre + (rest + moved))
    ensures MoveTail(pre + (rest + moved), rest[0]) == pre + (rest[1..] + (moved + [rest[0]]))
  {
    var l, g := pre + (rest + moved), rest[0];
    assert l[|pre|] == g;
    NoDupDistinct(l);
    WithoutAt(l, |pre|);
    assert l[..|pre|] == pre && l[|pre| + 1..] == rest[1..] + moved;
  }

  /** The sweep leaves the caller where it is in its queue. */
  lemma CheckPrevStays(s: Store, g: nat, f: nat, self: nat, max: nat)
    requires Inv(s, 0, max) && IsFrontendOf(s, g, f) && s.m[f].fe.pid == self && self in s.live && 0 !in s.live
    ensures var t := Section.CheckPrev(s, g, f, self);
      && Inv(t, 0, max) && IsFrontendOf(t, g, f) && 0 !in t.live && t.Gr(g).fes != []
      && (PrevIn(t.Gr(g).fes, f) != 0 <==> t.Gr(g).fes[0] != f)
  {
    QueuedInGroup(s, g, f);
    CheckPrevKeeps(s, g, f, self, max, 0, {}, {});
    CheckPrevKeeps(s, g, f, self, max, 0, {self}, {});
    var t := Section.CheckPrev(s, g, f, self);
    assert IsFe(s, f);
    assert IsFe(t, f);
    QueuedInGroup(t, g, f);
    QueueNonzero(t, g);
    IndexIn(t.Gr(g).fes, f);
    var i := Index(t.Gr(g).fes, f);
    if i > 0 {
      assert t.Gr(g).fes[i - 1] in t.Gr(g).fes;
      NoDupDistinct(t.Gr(g).fes);
    }
  }

  lemma PingStays(s: Store, g: nat, f: nat, self: nat, did: bool, max: nat, child: nat)
    requires Inv(s, 0, max) && IsFrontendOf(s, g, f) && s.m[f].fe.pid == self
    requires self in s.live && 0 !in s.live && child !in s.live
    ensures var t := Section.Ping(s, g, f, self, did, max, child).0; Inv(t, 0, max) && IsFrontendOf(t, g, f)
  {
    PingLive(s, g, f, self, did, max, child);
    PingKeeps(s, g, f, self, did, max, child, {self}, {});
    QueuedInGroup(Section.Ping(s, g, f, self, did, max, child).0, g, f);
  }

  lemma SentStays(s: Store, g: nat, f: nat, self: nat, max: nat)
    requires Inv(s, 0, max) && IsFrontendOf(s, g, f) && s.m[f].fe.pid == self && self in s.live
    ensures IsFrontendOf(Spec.SendSigs(s, g), g, f)
  {
    SendSigsKeeps(s, g, 0, max, 0, self, {self}, {});
    assert IsFe(s, f);
    var t := Spec.SendSigs(s, g);
    assert IsFe(t, f);
    QueuedInGroup(t, g, f);
  }

  predicate IsFrontendOf(s: Store, g: nat, f: nat) {
    IsGr(s, g) && IsQueued(s, f) && s.m[f].fe.loc == Queue(g)
  }

  lemma FrontendIn(s: Store, g: nat, f: nat, max: nat)
    requires Inv(s, 0, max) && f in s.Gr(g).fes
    ensures IsFrontendOf(s, g, f)
  {
    QueuedFe(s, g, f);
    assert f in ListOf(s, FeList(g));
  }

  /** One round of the sweep at a dead frontend. */
  lemma SweepStep(s: Store, g: nat, f: nat, self: nat, max: nat)
    requires Inv(s, 0, max) && f in s.Gr(g).fes && s.Fe(f).pid !in s.live && self != 0
    ensures Wf(s) && var s1 := Spec.FrontendDispose(s, g, f);
      Wf(s1) && Sorted(s1, 0) && IsGr(s1, g) && s1.live == s.live
    ensures var t := SweepOne(s, g, f, self); var (h, e) := Section.FePrev(s, g, f);
      && t.live <= s.live && |Frontends(t)| < |Frontends(s)|
      && (e == f ==> Sweep(s, g, f, self) == t)
      && (e != f ==>
          Sweep(s, g, f, self) == Sweep(t, h, e, self) && Inv(t, 0, max) && e in t.Gr(h).fes && IsFrontendOf(t, h, e))
  {
    QueuedFe(s, g, f);
    FrontendIn(s, g, f, max);
    FrontendDisposeInv(s, g, f, 0, max);
    FePrevFinds(s, g, f);
    var (h, e) := Section.FePrev(s, g, f);
    SweepOneFewer(s, g, f, self);
    if e != f {
      SweepOneKeeps(s, g, f, self, max, 0, {}, {});
      SweepOneNext(s, g, f, self, h, e);
      FrontendIn(SweepOne(s, g, f, self), h, e, max);
    }
  }

  lemma RunningNonzero(s: Store)
    requires Wf(s)
    ensures Last(s.running) == 0 <==> s.running == []
    ensures s.running != [] ==> IsRun(s, Last(s.running))
  {
    assert s.running == ListOf(s, RunList);
    forall f | f in s.running ensures f != 0 && IsRun(s, f) { assert Home(s, f) == RunList; }
    assert s.running != [] ==> s.running[|s.running| - 1] in s.running;
  }

  lemma RunningOf(s: Store, max: nat)
    requires Inv(s, 0, max)
    ensures Last(s.running) == 0 <==> s.running == []
    ensures s.running != [] ==> IsRun(s, Last(s.running))
  {
    RunningNonzero(s);
  }

  lemma BackendOf(s: Store, f: nat, max: nat)
    requires Inv(s, 0, max) && IsRun(s, f)
    ensures s.m[f].fe.backend != 0 ==> IsBe(s, s.m[f].fe.backend)
  {
  }

  lemma GroupsNonzero(s: Store)
    requires Wf(s)
    ensures NoDup(s.groups) && (First(s.groups) == 0 <==> s.groups == []) && forall g :: g in s.groups ==>
        g != 0 && IsGr(s, g)
  {
    assert s.groups == ListOf(s, GroupList);
    forall g | g in s.groups ensures g != 0 && IsGr(s, g) { assert Home(s, g) == GroupList; }
    assert s.groups != [] ==> s.groups[0] in s.groups;
  }

  lemma GroupListed(s: Store, g: nat)
    requires Wf(s) && IsGr(s, g)
    ensures g in s.groups
  {
    assert Home(s, g) == GroupList && g in ListOf(s, GroupList);
  }

  lemma FePrevStart(s: Store, g: nat, f: nat)
    requires Wf(s) && f in s.Gr(g).fes
    ensures IsGr(s, g) && g in s.groups
    ensures var p, r := PrevIn(s.Gr(g).fes, f), Rotation(s.groups, g);
      && Section.FePrev(s, g, f) == (if p != 0 then (g, p) else LastQueued(s, r))
      && r != [] && r[|r| - 1] == g && s.Gr(g).fes != []
  {
    var l := s.Gr(g).fes;
    QueueNonzero(s, g);
    GroupListed(s, g);
    IndexIn(l, f);
    IndexIn(s.groups, g);
    if Index(l, f) > 0 { assert l[Index(l, f) - 1] in l; }
  }

  lemma LastQueuedAt(s: Store, r: seq<nat>, k: nat)
    requires Wf(s) && k < |r| && s.Gr(r[|r| - 1]).fes != []
    ensures var f := Last(s.Gr(r[k]).fes);
      if f != 0 then LastQueued(s, r[k..]) == (r[k], f)
      else k + 1 < |r| && LastQueued(s, r[k..]) == LastQueued(s, r[k + 1..])
  {
    QueueNonzero(s, r[k]);
    assert r[k..][1..] == r[k + 1..];
  }

  lemma RotationAt(l: seq<nat>, g: nat, k: nat)
    requires g in l && k < |Rotation(l, g)|
    ensures |Rotation(l, g)| == |l| && Index(l, g) < |l|
    ensures var j := Index(l, g) + 1 + k; Rotation(l, g)[k] == l[if j < |l| then j else j - |l|]
  {
    IndexIn(l, g);
  }

  /** The walk round the group list from g visits the elements of its rotation. */
  lemma RotationStep(l: seq<nat>, g: nat, k: nat)
    requires NoDup(l) && g in l && 0 !in l && k < |Rotation(l, g)|
    ensures var r := Rotation(l, g); var at := if k == 0 then g else r[k - 1];
      r[k] in l && r[k] == (if NextIn(l, at) == 0 then First(l) else NextIn(l, at))
  {
    hide Rotation, NoDup;
    IndexIn(l, g);
    RotationAt(l, g, k);
    if k > 0 { RotationAt(l, g, k - 1); }
    var i, at, x := Index(l, g), if k == 0 then g else Rotation(l, g)[k - 1], Rotation(l, g)[k];
    var j := if i + k < |l| then i + k else i + k - |l|;
    IndexAt(l, j);
    assert at == l[j] && NextIn(l, at) == After(l, j);
    assert x == (if j + 1 < |l| then l[j + 1] else l[0]) && x in l;
  }

  lemma QueueNonzero(s: Store, g: nat)
    requires Wf(s)
    ensures (First(s.Gr(g).fes) == 0 <==> s.Gr(g).fes == []) && (Last(s.Gr(g).fes) == 0 <==> s.Gr(g).fes == [])
    ensures NoDup(s.Gr(g).fes) && forall f :: f in s.Gr(g).fes ==> f != 0 && IsQueued(s, f) && Home(s, f) == FeList(g)
  {
    assert s.Gr(g).fes == ListOf(s, FeList(g));
    forall f | f in s.Gr(g).fes ensures f != 0 && IsQueued(s, f) { assert Home(s, f) == FeList(g); }
    var l := s.Gr(g).fes;
    assert l != [] ==> l[0] in l && l[|l| - 1] in l;
  }

  lemma DropHead(l: seq<nat>)
    requires NoDup(l) && l != []
    ensures Without(l, l[0]) == l[1..] && NextIn(l, l[0]) == First(l[1..])
  {
    WithoutAbsent(l[1..], l[0]);
  }

  lemma LiveSorted(s: Store, live: set<nat>)
    requires Sorted(s, 0)
    ensures Sorted(s.(live := live), 0)
  {
    SortedFrame(s, s.(live := live), 0);
  }

  lemma StrippedSorted(s: Store, s1: Store, t: Store, g: nat)
    requires Wf(s) && Sorted(s, 0) && IsGr(s, g)
    requires s1 == Conservation.FreeScripts(s, g) && t == Conservation.FreeName(s1, g)
    ensures Sorted(t, 0) && t.Gr(g).bes == s.Gr(g).bes && Waiters(t, t.Gr(g).bes) == Waiters(s, s.Gr(g).bes)
    ensures IsGr(t, g)
  {
    FreeScriptsEffect(s, g);
    FreeScriptsWf(s, g);
    FreeNameEffect(s1, g);
    hide Wf, Conservation.FreeScripts, Conservation.FreeName;
    NoBackendTouched(s, s1, g);
    NoBackendTouched(s1, t, g);
    SortedFrame(s, s1, 0);
    SortedFrame(s1, t, 0);
    SameWaiters(s, t, s.Gr(g).bes);
  }

  lemma NoBackendTouched(s: Store, t: Store, g: nat)
    requires IsGr(s, g) && IsGr(t, g) && t.Gr(g).bes == s.Gr(g).bes
    requires forall n :: n != g ==> t.At(n) == s.At(n) || (t.At(n) == Free && (s.At(n).Scr? || s.At(n).Nam?))
    ensures SameIdle(s, t) && forall b :: t.Be(b) == s.Be(b)
  {
  }
}
