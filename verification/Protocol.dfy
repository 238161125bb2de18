/** The whole system: the store and the processes that share it. A run is a sequence of
    events; each is one critical section, or a step that leaves the store alone, such as the
    death of a process. What a process remembers between its sections is its `Proc`. */
module Protocol {
  import opened Lists
  import opened Store
  import opened Sections
  import opened Invariants
  import opened Sweeping
  import opened FrontendSide

  datatype Proc =
    | FIdle(cleaned: bool)
    | FQueued(g: nat, f: nat, didSpawn: bool)
    | FRunning(f: nat)
    | FDone
    | PSpawned
    | PServing(g: nat)
    | BFresh(g: nat, b: nat)
    | BWaiting(g: nat, b: nat)
    | BBusy(g: nat, b: nat)
    | Leaving

  datatype Sys = Sys(s: Store, proc: map<nat, Proc>)

  datatype Event =
    | Come(pid: nat)
    | Die(pid: nat)
    | Request(pid: nat, key: Key, opt: GroupOpt, child: nat, c: Connect)
    | Wake(pid: nat, changed: bool, child: nat, c: Connect)
    | Collect(pid: nat)
    | Start(pid: nat, key: Key, opt: GroupOpt, child: nat)
    | Tended(pid: nat, es: seq<Exit>, usr1: bool, alrm: bool, child: nat)
    | Ready(pid: nat, orphan: bool)
    | Accept(pid: nat)
    | Finished(pid: nat, val: int, again: bool, orphan: bool)
    | Quit(pid: nat)

  function Pc(y: Sys, p: nat): Proc { if p in y.proc then y.proc[p] else FDone }

  /** Backends and parent processes that have not decided to leave. */
  predicate Serves(pc: Proc) { pc.PServing? || pc.BFresh? || pc.BWaiting? || pc.BBusy? }

  function Serving(y: Sys): set<nat> { set p | p in y.s.live && Serves(Pc(y, p)) }

  /** What a process counts on between its sections. */
  predicate Holds(s: Store, p: nat, pc: Proc) {
    match pc
    case FQueued(g, f, _) => IsQueued(s, f) && s.m[f].fe.loc == Queue(g) && s.m[f].fe.pid == p
    case FRunning(f) => IsRun(s, f) && s.m[f].fe.pid == p
    case PServing(g) => IsGr(s, g) && s.m[g].gr.parent == p
    case BFresh(g, b) => IsBe(s, b) && s.m[b].be.pid == p && s.m[b].be.grp == g && s.m[b].be.feRunning == b
    case BWaiting(g, b) => IsBe(s, b) && s.m[b].be.pid == p && s.m[b].be.grp == g
    case BBusy(g, b) => IsBe(s, b) && s.m[b].be.pid == p && s.m[b].be.grp == g && s.m[b].be.feRunning != 0
    case _ => true
  }

  function AfterOutcome(o: Outcome): Proc {
    match o
    case Queued(g, f, did) => FQueued(g, f, did)
    case Running(f) => FRunning(f)
    case Retry => FIdle(true)
    case Done => FDone
  }

  /** The backend runs its loop again, in the group it belongs to. */
  function Loop(s: Store, g: nat, b: nat, pid: nat, orphan: bool, maturity: nat): (Store, Proc) {
    if orphan || !s.Valid(g) then (s, Leaving) else (GoIdle(s, g, b, pid, maturity), BWaiting(g, b))
  }

  /** The backend has run a script: it reports the exit status and loops, or, after its last
      run, asks for a replacement and leaves. */
  function RunOver(s: Store, g: nat, b: nat, pid: nat, val: int, again: bool, orphan: bool): (Store, Proc) {
    var s1 := Exited(s, b, false, val);
    if again then Loop(s1, g, b, pid, orphan, 2)
    else (if s1.Valid(g) then StartBe(s1, g).0 else s1, Leaving)
  }

  /** What the event does to the store, where it leaves the process, and what a process
      forked during the event starts as. */
  function Effect(y: Sys, e: Event, max: nat): (Store, Proc, Proc) {
    var s := y.s;
    var pc := Pc(y, e.pid);
    match e
    case Come(p) => (s.(live := s.live + {p}), FIdle(false), FDone)
    case Die(p) => (s.(live := s.live - {p}), pc, FDone)
    case Request(p, key, opt, child, c) =>
      if !pc.FIdle? then (s, pc, FDone) else
      var (t, o) := ConnectSection(s, p, pc.cleaned, key, opt, max, child, c);
      (t, AfterOutcome(o), PSpawned)
    case Wake(p, changed, child, c) =>
      if !pc.FQueued? then (s, pc, FDone) else
      var (t, o) := WakeSection(s, pc.g, pc.f, p, pc.didSpawn, changed, max, child, c);
      (t, AfterOutcome(o), PSpawned)
    case Collect(p) =>
      if !pc.FRunning? then (s, pc, FDone) else
      var (t, done, _, _) := CollectStatus(s, pc.f);
      (t, if done then FDone else pc, FDone)
    case Start(p, key, opt, child) =>
      var (t, o) := ParentStart(s, p, key, opt, max, child);
      (match o case Leaves => (t, Leaving, FDone) case Leads(g, b) => (t, PServing(g), BFresh(g, b)))
    case Tended(p, es, usr1, alrm, child) =>
      if !pc.PServing? then (s, pc, FDone) else
      var (t, leaves, b) := ParentWake(s, pc.g, p, es, usr1, alrm, max, child);
      (t, if leaves then Leaving else pc, BFresh(pc.g, b))
    case Ready(p, orphan) =>
      if !pc.BFresh? then (s, pc, FDone) else
      var (t, next) := Loop(s, pc.g, pc.b, p, orphan, 1);
      (t, next, FDone)
    case Accept(p) =>
      if !pc.BWaiting? then (s, pc, FDone)
      else if !s.Valid(pc.g) then (s, Leaving, FDone)
      else (Accepted(s, pc.g, p), BBusy(pc.g, pc.b), FDone)
    case Finished(p, val, again, orphan) =>
      if !pc.BBusy? then (s, pc, FDone) else
      var (t, next) := RunOver(s, pc.g, pc.b, p, val, again, orphan);
      (t, next, FDone)
    case Quit(p) => (s, Leaving, FDone)
  }

  function Next(y: Sys, e: Event, max: nat): Sys {
    var (t, pc, born) := Effect(y, e, max);
    var rest := y.proc[e.pid := pc];
    Sys(t, if Forks(e) && e.child in t.live - y.s.live then rest[e.child := born] else rest)
  }

  predicate Forks(e: Event) { e.Request? || e.Wake? || e.Start? || e.Tended? }

  /** The backend that is granted in the section of e (0: none) and the store at that moment. */
  function Granted(y: Sys, e: Event): (Store, nat) {
    match e
    case Request(p, key, opt, _, _) =>
      if Pc(y, p).FIdle? then ConnectGets(y.s, p, Pc(y, p).cleaned, key, opt) else (y.s, 0)
    case Wake(p, changed, _, _) =>
      if Pc(y, p).FQueued? && y.s.Valid(Pc(y, p).g) && !changed then TryGet(y.s, Pc(y, p).g, Pc(y, p).f) else (y.s, 0)
    case _ => (y.s, 0)
  }

  /** A connection to the granted backend fails only when it does not serve any more. */
  predicate MayConnect(y: Sys, e: Event) {
    e.Request? || e.Wake? ==> var (t, b) := Granted(y, e); MayFail(t, b, e.c, Serving(y))
  }

  /** When an event can happen: the process is there and stands where the event starts,
      process ids are not used again, waitpid reports only the dead, accept returns only after
      a frontend has connected. */
  predicate Possible(y: Sys, e: Event) {
    && (e.Come? || e.pid in y.s.live)
    && (Forks(e) && e.child != 0 ==> e.child !in y.proc)
    && MayConnect(y, e)
    && match e
       case Come(p) => p != 0 && p !in y.proc
       case Die(_) => true
       case Request(p, _, _, _, _) => Pc(y, p).FIdle?
       case Wake(p, _, _, _) => Pc(y, p).FQueued?
       case Collect(p) => Pc(y, p).FRunning?
       case Start(p, _, _, _) => Pc(y, p).PSpawned?
       case Tended(p, es, _, _, _) => Pc(y, p).PServing? && forall x :: x in es ==> x.pid !in y.s.live
       case Ready(p, _) => Pc(y, p).BFresh?
       case Accept(p) => Pc(y, p).BWaiting? && y.s.Be(Pc(y, p).b).feRunning != 0
       case Finished(p, _, _, _) => Pc(y, p).BBusy?
       case Quit(p) => Serves(Pc(y, p))
  }

  /** A section that runs out of slot numbers does not complete: its process dies in it. */
  predicate Enabled(y: Sys, e: Event, max: nat) {
    Possible(y, e) && Next(y, e, max).s.alloced < MAX_SLOTS
  }

  const BOOT := Sys(EMPTY_STORE, map[])

  /** The states of a run, oldest first. */
  ghost predicate History(tr: seq<Sys>, es: seq<Event>, max: nat) {
    && |tr| == |es| + 1 && tr[0] == BOOT
    && forall i :: 0 <= i < |es| ==> Enabled(tr[i], es[i], max) && tr[i + 1] == Next(tr[i], es[i], max)
  }
}
