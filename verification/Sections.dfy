/** The critical sections: what each kind of process does to the store between taking the
    file lock and giving it up. `self` is the pid of the lock holder. */
module Sections {
  import opened Lists
  import opened Store

  // ---- speedy_frontend.c: the frontend ----

  function CleanRunning(s: Store): Store
    decreases |s.running|
  {
    if s.running == [] then s
    else
      var f := s.running[|s.running| - 1];
      if s.Fe(f).pid in s.live then s
      else
        var t := RemoveRunning(s, f);
        if |t.running| < |s.running| then CleanRunning(t) else t
  }

  function AllocFrontend(s: Store, self: nat): (Store, nat) {
    SlotAlloc(s, Fro(NO_FRONTEND.(pid := self)))
  }

  /** Put slot f at the end of the queue of g. */
  function Join(s: Store, g: nat, f: nat): Store {
    var s1 := s.PutFe(f, s.Fe(f).(loc := Queue(g)));
    s1.PutGr(g, s1.Gr(g).(fes := s1.Gr(g).fes + [f]))
  }

  /** Take slot f off the queue of g; it stays in the hand of the lock holder. */
  function Leave(s: Store, g: nat, f: nat): Store {
    var s1 := s.PutFe(f, s.Fe(f).(loc := Hand));
    s1.PutGr(g, s1.Gr(g).(fes := Without(s1.Gr(g).fes, f)))
  }

  /** The last frontend queued at the first of the groups that has one. */
  function LastQueued(s: Store, gs: seq<nat>): (nat, nat) {
    if gs == [] then (0, 0)
    else if s.Gr(gs[0]).fes != [] then (gs[0], s.Gr(gs[0]).fes[|s.Gr(gs[0]).fes| - 1])
    else LastQueued(s, gs[1..])
  }

  /** The groups after g, wrapping to the first one, up to g itself. */
  function Rotation(l: seq<nat>, g: nat): seq<nat> {
    var i := Index(l, g);
    if i < |l| then l[i + 1..] + l[..i + 1] else l
  }

  /** fe_prev: up the queue of g, then to the tail of the next group that has a queue. */
  function FePrev(s: Store, g: nat, f: nat): (nat, nat) {
    var l := s.Gr(g).fes;
    var i := Index(l, f);
    if 0 < i < |l| then (g, l[i - 1]) else LastQueued(s, Rotation(s.groups, g))
  }

  function Frontends(s: Store): set<nat> { set n | n in s.m && s.m[n].Fro? }

  /** The loop of frontend_check_prev, standing at (g, f). */
  function Sweep(s: Store, g: nat, f: nat, self: nat): Store
    decreases |Frontends(s)|
  {
    if s.Fe(f).pid in s.live || !s.At(f).Fro? then s
    else
      var (gPrev, fPrev) := FePrev(s, g, f);
      var s1 := Cleanup(FrontendDispose(s, g, f), g, self);
      if fPrev == f then s1
      else if |Frontends(s1)| < |Frontends(s)| then Sweep(s1, gPrev, fPrev, self)
      else s1
  }

  function CheckPrev(s: Store, g: nat, f: nat, self: nat): Store {
    var (gPrev, fPrev) := FePrev(s, g, f);
    Sweep(s, gPrev, fPrev, self)
  }

  /** The frontend forks the parent process of the group, which gets process id `child`; when the
      fork fails, which a `child` of 0 stands for, the group stays as it is. */
  function Spawn(s: Store, g: nat, child: nat): Store {
    s.(live := s.live + {child}).PutGr(g, s.Gr(g).(parent := child, starting := child))
  }

  /** backend_check: the store, whether a start can still work, and the new did_spawn. */
  function BackendCheck(s: Store, g: nat, didSpawn: bool, max: nat, child: nat): (Store, bool, bool) {
    var (s1, x) := BeStarting(s, g);
    if x != 0 then (s1, true, didSpawn)
    else if didSpawn then (s1, false, didSpawn)
    else
      var s2 := if s1.Gr(g).parent == 0 && child != 0 then Spawn(s1, g, child) else s1;
      if BelowMax(s2, g, max) then
        var (s3, ok) := StartBe(s2, g);
        if ok then (s3.PutGr(g, s3.Gr(g).(starting := s3.Gr(g).parent)), true, true)
        else (s3, true, didSpawn)
      else (ParentSig(s2, g).0, true, didSpawn)
  }

  function Ping(s: Store, g: nat, f: nat, self: nat, didSpawn: bool, max: nat, child: nat): (Store, bool, bool) {
    var s1 := CheckPrev(s, g, f, self);
    if s1.Gr(g).fes != [] && s1.Gr(g).fes[0] != f then (s1, true, didSpawn)
    else BackendCheck(s1, g, didSpawn, max, child)
  }

  /** What one turn of the loop of get_a_backend_hard comes to. */
  datatype Turn = Gets(b: nat) | GaveUp(working: bool) | Waits(didSpawn: bool)

  function ClearSent(s: Store, f: nat): Store {
    s.PutFe(f, s.Fe(f).(sent := false))
  }

  /** The part of a turn that looks for a backend. */
  function TryGet(s: Store, g: nat, f: nat): (Store, nat) {
    var s1 := SendSigs(s, g);
    if s1.Fe(f).sent then BeWaitGet(ClearSent(s1, f), g) else (ClearSent(s1, f), 0)
  }

  function Try(s: Store, g: nat, f: nat, self: nat, didSpawn: bool, max: nat, child: nat): (Store, Turn) {
    var (s1, b) := TryGet(s, g, f);
    if b != 0 then (s1, Gets(b))
    else
      var (s2, working, did) := Ping(s1, g, f, self, didSpawn, max, child);
      if !working || !s2.Valid(g) then (s2, GaveUp(working)) else (s2, Waits(did))
  }

  /** How the connection to the granted backend goes. */
  datatype Connect = Failed | Kept | Detached

  /** speedy_frontend_connect after get_a_backend: the frontend slot f is in the hand. */
  function Finish(s: Store, g: nat, f: nat, b: nat, c: Connect): Store {
    var s1 := s.PutFe(f, s.Fe(f).(backend := b));
    if b == 0 then SlotFree(s1, f)
    else match c {
      case Failed => SlotFree(BackendDispose(s1, g, b), f)
      case Kept =>
        var s2 := s1.PutBe(b, s1.Be(b).(feRunning := f));
        var s3 := s2.PutFe(f, s2.Fe(f).(loc := Run)).(running := [f] + s2.running);
        s3.PutGr(g, s3.Gr(g).(starting := s3.Be(b).pid))
      case Detached =>
        var s2 := s1.PutBe(b, s1.Be(b).(feRunning := b));
        SlotFree(s2.PutGr(g, s2.Gr(g).(starting := s2.Be(b).pid)), f)
    }
  }

  /** Where a frontend stands when it gives the lock up. */
  datatype Outcome = Queued(g: nat, f: nat, didSpawn: bool) | Running(f: nat) | Retry | Done

  function Settled(f: nat, b: nat, c: Connect, working: bool): Outcome {
    if !working then Done
    else if b == 0 || c == Failed then Retry
    else if c == Kept then Running(f)
    else Done
  }

  /** The end of get_a_backend, for a frontend whose slot is in the hand. */
  function Settle(s: Store, g: nat, f: nat, self: nat, b: nat, c: Connect): Store {
    Finish(Cleanup(s, g, self), g, f, b, c)
  }

  /** One turn of a queued frontend, up to the next unlock. */
  function QueueTurn(s: Store, g: nat, f: nat, self: nat, didSpawn: bool, max: nat, child: nat, c: Connect)
    : (Store, Outcome)
  {
    var (t, turn) := Try(s, g, f, self, didSpawn, max, child);
    match turn
    case Waits(did) => (t, Queued(g, f, did))
    case Gets(b) => (Settle(Leave(t, g, f), g, f, self, b, c), Settled(f, b, c, true))
    case GaveUp(working) => (Settle(Leave(t, g, f), g, f, self, 0, c), Settled(f, 0, c, working))
  }

  /** A frontend asks for a backend. */
  function ConnectSection(s: Store, self: nat, cleaned: bool, key: Key, opt: GroupOpt, max: nat, child: nat, c: Connect)
    : (Store, Outcome)
  {
    var s0 := if cleaned then s else CleanRunning(s);
    var (s1, f) := AllocFrontend(s0, self);
    var (s2, g) := ScriptFind(s1, key, opt);
    var (s3, b) := if s2.Gr(g).fes == [] then BeWaitGet(s2, g) else (s2, 0);
    if b != 0 then (Settle(s3, g, f, self, b, c), Settled(f, b, c, true))
    else QueueTurn(Join(s3, g, f), g, f, self, false, max, child, c)
  }

  /** A queued frontend wakes up. */
  function WakeSection(s: Store, g: nat, f: nat, self: nat, didSpawn: bool, changed: bool, max: nat, child: nat,
                       c: Connect)
    : (Store, Outcome)
  {
    if !s.Valid(g) || changed then (Settle(Leave(s, g, f), g, f, self, 0, c), Retry)
    else QueueTurn(s, g, f, self, didSpawn, max, child, c)
  }

  /** speedy_frontend_collect_status: the store, whether the backend is done, and the exit status: by
      which signal or with which value. It is not set, which (false, 0) stands for, when it is not done. */
  function CollectStatus(s: Store, f: nat): (Store, bool, bool, int) {
    var b := s.Fe(f).backend;
    var s1 := if b != 0 && s.Be(b).pid !in s.live then Exited(s, b, true, SIGKILL) else s;
    if s1.Fe(f).backend == 0 then (RemoveRunning(s1, f), true, s1.Fe(f).onSig, s1.Fe(f).val) else (s1, false, false, 0)
  }

  // ---- speedy_perl.c: the backend ----

  function ClearStarting(s: Store, g: nat, self: nat): Store {
    if s.Gr(g).starting == self then s.PutGr(g, s.Gr(g).(starting := 0)) else s
  }

  /** The backend puts itself on the wait list. */
  function GoIdle(s: Store, g: nat, b: nat, self: nat, maturity: nat): Store {
    var s1 := s.PutBe(b, s.Be(b).(maturity := maturity));
    SendSigs(ClearStarting(BeWaitPut(s1, g, b), g, self), g)
  }

  /** The backend has been connected to. */
  function Accepted(s: Store, g: nat, self: nat): Store {
    SendSigs(ClearStarting(s, g, self), g)
  }

  // ---- speedy_backend_main.c: the parent process ----

  /** The first backend of l with this pid, or 0. */
  function FindPid(s: Store, l: seq<nat>, pid: nat): nat {
    if l == [] then 0 else if s.Be(l[0]).pid == pid then l[0] else FindPid(s, l[1..], pid)
  }

  /** What waitpid reports of a child. */
  datatype Exit = Exit(pid: nat, onSig: bool, val: int)

  function CollectOne(s: Store, g: nat, e: Exit): Store {
    var b := FindPid(s, s.Gr(g).bes, e.pid);
    if b == 0 then s else BackendDispose(Exited(s, b, e.onSig, e.val), g, b)
  }

  function CollectAll(s: Store, g: nat, es: seq<Exit>): Store
    decreases |es|
  {
    if es == [] then s else CollectAll(CollectOne(s, g, es[0]), g, es[1..])
  }

  /** The forked child: recorded in its slot and as the starting process. */
  function Forked(s: Store, g: nat, b: nat, child: nat): Store {
    var s1 := s.(live := s.live + {child});
    var s2 := s1.PutGr(g, s1.Gr(g).(starting := child));
    s2.PutBe(b, s2.Be(b).(pid := child))
  }

  /** start_child once it has been decided to start one. */
  function NewChild(s: Store, g: nat, child: nat): (Store, nat) {
    var (s2, b) := CreateSlot(s, g);
    if child == 0 then (BackendDispose(s2.PutGr(g, s2.Gr(g).(starting := 0)), g, b), 0)
    else (Forked(s2, g, b, child), b)
  }

  /** start_child; a child pid of 0 means that fork failed. The slot is 0 if none was started. */
  function StartChild(s: Store, g: nat, self: nat, max: nat, child: nat): (Store, nat) {
    var (s1, x) := BeStarting(s, g);
    if (x != 0 && x != self) || !BelowMax(s1, g, max) then (s1, 0) else NewChild(s1, g, child)
  }

  function DisposeDead(s: Store, g: nat, l: seq<nat>): Store
    decreases |l|
  {
    if l == [] then s
    else DisposeDead(if s.Be(l[0]).pid in s.live then s else BackendDispose(s, g, l[0]), g, l[1..])
  }

  /** The group before g, or the last one when g is the first. */
  function GroupPrev(s: Store, g: nat): nat {
    var i := Index(s.groups, g);
    if 0 < i < |s.groups| then s.groups[i - 1]
    else if s.groups == [] then 0 else s.groups[|s.groups| - 1]
  }

  function DoCleanup(s: Store, g: nat, self: nat): Store {
    var p := GroupPrev(s, g);
    if p == 0 || p == g then s
    else
      var (s1, alive) := ParentSig(s, p);
      if alive then s1
      else
        var s2 := Invalidate(s1, p);
        Cleanup(DisposeDead(s2, p, s2.Gr(p).bes), p, self)
  }

  /** What the first section of a parent process comes to: another process serves the group
      already, or this one does, with b the slot of its first backend (0 if none started). */
  datatype Started = Leaves | Leads(g: nat, b: nat)

  /** The parent process takes the group over, unless a live one has it. */
  function TakeOver(s: Store, g: nat, self: nat): (Store, bool) {
    var p := s.Gr(g).parent;
    var (s2, other) := if p != 0 && p != self then StartBe(s, g) else (s, false);
    if other then (s2, false) else (s2.PutGr(g, s2.Gr(g).(parent := self)), true)
  }

  function ParentStart(s: Store, self: nat, key: Key, opt: GroupOpt, max: nat, child: nat): (Store, Started) {
    var (s1, g) := ScriptFind(s, key, opt);
    var (s2, ours) := TakeOver(s1, g, self);
    if !ours then (s2, Leaves)
    else
      var (s3, b) := StartChild(s2, g, self, max, child);
      (s3, Leads(g, b))
  }

  /** The wake-up of a parent process before it decides whether to leave. */
  function Tend(s: Store, g: nat, self: nat, es: seq<Exit>, usr1: bool, max: nat, child: nat): (Store, nat) {
    var s1 := CollectAll(s, g, es);
    var (s2, b) := if s1.Valid(g) && usr1 then StartChild(s1, g, self, max, child) else (s1, 0);
    (DoCleanup(s2, g, self), b)
  }

  /** A parent process wakes up: the store, whether it leaves, the slot of a started backend. */
  function ParentWake(s: Store, g: nat, self: nat, es: seq<Exit>, usr1: bool, alrm: bool, max: nat, child: nat)
    : (Store, bool, nat)
  {
    var (s3, b) := Tend(s, g, self, es, usr1, max, child);
    if alrm && s3.Gr(g).bes == [] then (Cleanup(s3, g, self), true, b) else (s3, false, b)
  }
}
