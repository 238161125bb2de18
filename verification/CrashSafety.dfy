/** Crashes at any point, of any number of processes, on any number of temp files. */
module CrashSafety {
  import opened Store
  import opened Invariants
  import opened Footprint
  import opened FileLock
  import opened Protocol
  import Sections
  import opened Safety
  import Groups
  import Runs

  /** A temp file, the process that has the system's lock on it (0: none), and whether a process
      has written in it that counted on a slot of another file. */
  datatype OnDisk = OnDisk(r: Rec, holder: nat, spoiled: bool)

  /** A process: the file it has open (0: none), its access state, its copy of the create time,
      and, while it has the file locked, the store it found. `pc` is where it stands and `home`
      the file of the slot it counts on; `asked` says of a running frontend that it has asked for
      the exit status already, `closing` of a forked child that it has yet to close the file. */
  datatype User = User(file: nat, state: int, mine: Time, locked: bool, found: Store,
                       pc: Proc, home: nat, asked: bool, closing: bool)

  /** `users` are the processes that live, `born` all that have ever lived. */
  datatype World = World(disks: map<nat, OnDisk>, path: nat, users: map<nat, User>, born: set<nat>)

  const NO_TIME := Time(0, 0)
  const NEW_USER := User(0, CLOSED, NO_TIME, false, EMPTY_STORE, FIdle(false), 0, false, false)

  datatype Act =
    | Begin(p: nat)
    | Fork(p: nat, child: nat)
    | OpenPath(p: nat, spare: nat)
    | Shut(p: nat)
    | Round(p: nat, now: Time)
    | CutShort(p: nat, now: Time, step: nat)
    | Write(p: nat, s: Store)
    | Finish(p: nat, e: Event, t: Store, pc: Proc, born: Proc)
    | Close(p: nat)
    | Crash(p: nat)
    | Gone(p: nat)

  function UserOf(w: World, p: nat): User { if p in w.users then w.users[p] else NEW_USER }

  function FileOf(w: World, p: nat): OnDisk {
    var f := UserOf(w, p).file;
    if f in w.disks then w.disks[f] else OnDisk(NEW_FILE, 0, false)
  }

  function PutUser(w: World, p: nat, u: User): World { w.(users := w.users[p := u]) }
  function PutFile(w: World, f: nat, d: OnDisk): World { w.(disks := w.disks[f := d]) }

  // ---- one file and its processes ----

  /** The process counts on a slot. */
  predicate Counts(pc: Proc) { pc.FQueued? || pc.FRunning? || Serves(pc) }

  /** Where process p stands as far as file f is concerned: it counts only on a slot of the file
      that it is at home in. */
  function PcIn(w: World, f: nat, p: nat): Proc {
    var u := UserOf(w, p);
    if p in w.users && (Counts(u.pc) ==> u.home == f) then u.pc else FDone
  }

  /** What the last section that is over has left in a file. */
  function Content(w: World, f: nat): Store
    requires f in w.disks
  {
    if w.disks[f].holder != 0 then UserOf(w, w.disks[f].holder).found else w.disks[f].r.s
  }

  /** The system of one file. */
  function SysOf(w: World, f: nat): Sys
    requires f in w.disks
  {
    Sys(Content(w, f).(live := w.users.Keys), map p | p in w.born :: PcIn(w, f, p))
  }

  // ---- the access states ----

  /** The access state in which an event leaves its process, which stands at pc then. */
  function StateLeft(e: Event, pc: Proc): int {
    match e
    case Request(_, _, _, _, _) => if pc.FQueued? || pc.FRunning? then HAVESLOTS else OPEN
    case Wake(_, _, _, _) => if pc.FQueued? || pc.FRunning? then HAVESLOTS else OPEN
    case Collect(_) => OPEN
    case _ => if pc.Leaving? then CLOSED else HAVESLOTS
  }

  /** The access state that goes with where a process stands between its sections. */
  function StateOf(u: User): int {
    if u.closing then HAVESLOTS
    else match u.pc
      case FIdle(cleaned) => if cleaned then OPEN else CLOSED
      case FRunning(_) => if u.asked then OPEN else HAVESLOTS
      case FDone => OPEN
      case PSpawned => CLOSED
      case BFresh(_, _) => CLOSED
      case Leaving => CLOSED
      case _ => HAVESLOTS
  }

  /** The events that are sections of a process that stands at pc. A backend whose parent process
      is gone leaves without a section before its first run. */
  predicate Begins(pc: Proc, e: Event) {
    match e
    case Request(_, _, _, _, _) => pc.FIdle?
    case Wake(_, _, _, _) => pc.FQueued?
    case Collect(_) => pc.FRunning?
    case Start(_, _, _, _) => pc.PSpawned?
    case Tended(_, _, _, _, _) => pc.PServing?
    case Ready(_, orphan) => pc.BFresh? && !orphan
    case Accept(_) => pc.BWaiting?
    case Finished(_, _, _, _) => pc.BBusy?
    case Quit(_) => pc.BWaiting? || pc.BBusy?
    case _ => false
  }

  /** Where such a section can end, whatever it finds. */
  predicate Ends(e: Event, pc: Proc) {
    match e
    case Request(_, _, _, _, _) => pc.FQueued? || pc.FRunning? || pc == FIdle(true) || pc.FDone?
    case Wake(_, _, _, _) => pc.FQueued? || pc.FRunning? || pc == FIdle(true) || pc.FDone?
    case Collect(_) => pc.FRunning? || pc.FDone?
    case Start(_, _, _, _) => pc.PServing? || pc.Leaving?
    case Tended(_, _, _, _, _) => pc.PServing? || pc.Leaving?
    case Ready(_, _) => pc.BWaiting? || pc.Leaving?
    case Accept(_) => pc.BBusy? || pc.Leaving?
    case Finished(_, _, _, _) => pc.BWaiting? || pc.Leaving?
    case _ => pc.Leaving?
  }

  // ---- the acts ----

  /** The process has exited: it does nothing any more and counts on nothing. */
  function Stopped(u: User): User {
    User(0, CLOSED, u.mine, false, EMPTY_STORE, Leaving, 0, false, false)
  }

  /** The version check of file_lock applies to the process. */
  predicate Checks(u: User) { u.state >= HAVESLOTS && u.mine.sec != 0 }

  /** file_lock removes the file, which is done by its name. */
  predicate Removes(d: OnDisk, u: User, now: Time) {
    d.r.owner != 0 || (Checks(u) && d.r.Created(now) != u.mine)
  }

  /** One round of file_lock. A file that was left half-written, or that is not the one the
      process holds slots in, is removed; in a file that is removed already a process that holds
      slots dies. */
  function AfterRound(w: World, p: nat, now: Time): World {
    var u, d := UserOf(w, p), FileOf(w, p);
    var good := Accepts(d.r, now, u.state, u.mine);
    var r := Looked(d.r, now, good);
    var mine := if Checks(u) then u.mine else r.ctime;
    if good then
      PutFile(PutUser(w, p, u.(mine := mine, locked := true, found := r.s)), u.file,
          d.(r := r.(owner := p), holder := p))
    else
      var w1 := PutFile(w, u.file, d.(r := r, holder := 0)).(path := if Removes(d, u, now) then 0 else w.path);
      PutUser(w1, p, if u.state >= HAVESLOTS then Stopped(u) else u.(mine := mine, file := 0))
  }

  /** The death of a process in such a round, after some of its steps: the file is extended, its
      create time is filled in, its name is removed, it is marked as removed. */
  function AfterCut(w: World, p: nat, now: Time, step: nat): World {
    var u, d := UserOf(w, p), FileOf(w, p);
    var size := if step >= 1 then Extended(d.r.size, d.r.s.alloced) else d.r.size;
    var ctime := if step >= 2 then d.r.Created(now) else d.r.ctime;
    var removes := Removes(d, u, now);
    var r := Rec(size, ctime, d.r.owner, d.r.removed || (step >= 4 && removes), d.r.s);
    PutUser(PutFile(w, u.file, d.(r := r)), p, Stopped(u)).(path := if step >= 3 && removes then 0 else w.path)
  }

  /** The death of a process: the system drops its lock, and lock_owner stays as it is. */
  function AfterCrash(w: World, p: nat): World {
    var u := UserOf(w, p);
    PutUser(if u.locked then PutFile(w, u.file, FileOf(w, p).(holder := 0)) else w, p, Stopped(u))
  }

  predicate Empty(s: Store) { s.groups == [] && s.running == [] }

  /** What a child starts as: a parent process is another program, a backend goes on with what
      its parent process had. */
  function Child(u: User, born: Proc): User {
    if born.BFresh? then User(u.file, HAVESLOTS, u.mine, false, EMPTY_STORE, born, u.file, false, true)
    else NEW_USER.(pc := PSpawned)
  }

  function Unheld(disks: map<nat, OnDisk>, killed: set<nat>): map<nat, OnDisk> {
    map f | f in disks :: if disks[f].holder in killed then disks[f].(holder := 0) else disks[f]
  }

  /** What the process counts on is in the file it has locked, and so is what the others count on. */
  predicate Sane(w: World, p: nat) {
    var u := UserOf(w, p);
    u.file in w.disks && !w.disks[u.file].spoiled && (Counts(u.pc) ==> u.home == u.file)
  }

  predicate HasChild(w: World, e: Event, t: Store) { Forks(e) && e.child in t.live - w.users.Keys }

  /** A section is over: t is what it leaves, in the state that the code sets. A process that
      leaves closes the file, and removes it if it is empty. Whom it has killed is gone. */
  function AfterFinish(w: World, p: nat, e: Event, t: Store, pc: Proc, born: Proc): World {
    var u, d := UserOf(w, p), FileOf(w, p);
    var next := StateLeft(e, pc);
    var gone := next == CLOSED && Empty(t);
    var killed := w.users.Keys - t.live;
    var u1 := User(if next == CLOSED then 0 else u.file, next, u.mine, false, EMPTY_STORE,
                   pc, if Counts(pc) then u.file else 0, e.Collect? && pc.FRunning?, false);
    var users := w.users[p := u1] - killed;
    var d1 := OnDisk(d.r.(s := t, owner := 0, removed := d.r.removed || gone), 0, !Sane(w, p));
    World(Unheld(w.disks, killed)[u.file := d1], if gone then 0 else w.path,
          if HasChild(w, e, t) then users[e.child := Child(u, born)] else users,
          if HasChild(w, e, t) then w.born + {e.child} else w.born)
  }

  /** A forked child closes the file that it has inherited. */
  function AfterClose(w: World, p: nat): World {
    var u, d := UserOf(w, p), FileOf(w, p);
    var gone := Empty(u.found);
    var u1 := User(0, CLOSED, u.mine, false, EMPTY_STORE, u.pc, if Counts(u.pc) then u.home else 0, false, false);
    var w1 := PutFile(w, u.file, d.(r := d.r.(s := u.found, owner := 0, removed := d.r.removed || gone), holder := 0));
    PutUser(if gone then w1.(path := 0) else w1, p, u1)
  }

  function Next(w: World, a: Act): World {
    var u, d := UserOf(w, a.p), FileOf(w, a.p);
    match a
    case Begin(p) => PutUser(w, p, NEW_USER).(born := w.born + {p})
    case Fork(p, child) =>
      PutUser(w, child, u.(pc := Leaving, closing := true)).(born := w.born + {child})
    case OpenPath(p, spare) =>
      if w.path != 0 then PutUser(w, p, u.(file := w.path))
      else PutFile(PutUser(w, p, u.(file := spare)), spare, OnDisk(NEW_FILE, 0, false)).(path := spare)
    case Shut(p) => PutUser(w, p, u.(file := 0))
    case Round(p, now) => AfterRound(w, p, now)
    case CutShort(p, now, step) => AfterCut(w, p, now, step)
    case Write(p, s) => PutFile(w, u.file, d.(r := d.r.(s := s)))
    case Finish(p, e, t, pc, born) => AfterFinish(w, p, e, t, pc, born)
    case Close(p) => AfterClose(w, p)
    case Crash(p) => AfterCrash(w, p)
    case Gone(p) => w.(users := w.users - {p})
  }

  /** What a section can come to. If all that the process and the others count on is in this file,
      it is an event of the system of this file, from the store that was found. Otherwise what it
      writes, whom it kills and where it ends is arbitrary, as far as the file has room. */
  ghost predicate Completes(w: World, p: nat, e: Event, t: Store, pc: Proc, born: Proc, max: nat)
    requires UserOf(w, p).file in w.disks
  {
    && e.pid == p && Begins(UserOf(w, p).pc, e)
    && if Sane(w, p) then
         var y := SysOf(w, UserOf(w, p).file);
         Protocol.Enabled(y, e, max) && (t, pc, born) == Effect(y, e, max)
       else
         Comes(w, p, e, t, pc, born)
  }

  /** What holds of the end of any section. */
  predicate Comes(w: World, p: nat, e: Event, t: Store, pc: Proc, born: Proc) {
    && Ends(e, pc) && SizeFor(t.alloced) <= FileOf(w, p).r.size
    && (HasChild(w, e, t) ==> (born.BFresh? <==> e.Start? || e.Tended?))
    && t.live - w.users.Keys <= {ChildOf(e)} - ({0} + w.born)
  }

  /** s is a store in the middle of a section. What is written is arbitrary, except that
      slots_alloced only grows in a section, so that it has not grown beyond what the section
      brings it to, whichever it is. Where nothing is known of the section, slot_alloc still sees
      to it that the file has room. */
  ghost predicate Underway(w: World, p: nat, s: Store, max: nat)
    requires UserOf(w, p).file in w.disks
  {
    if Sane(w, p) then
      var y := SysOf(w, UserOf(w, p).file);
      exists e: Event :: e.pid == p && Possible(y, e) && s.alloced <= Protocol.Next(y, e, max).s.alloced
    else SizeFor(s.alloced) <= FileOf(w, p).r.size
  }

  /** The process still has sections to come. */
  predicate Active(u: User) { u.closing || !(u.pc.Leaving? || u.pc.FDone?) }

  /** A round of file_lock can begin. No two files get the same create time. */
  predicate CanLock(w: World, p: nat, now: Time) {
    var u := UserOf(w, p);
    && !u.locked && Active(u) && u.file in w.disks && w.disks[u.file].holder == 0 && now.sec != 0
    && (w.disks[u.file].r.ctime.sec == 0 ==> forall f :: f in w.disks ==> w.disks[f].r.ctime != now)
  }

  /** The round a gets the lock for its process. */
  predicate Gets(w: World, a: Act) {
    a.Round? && Accepts(FileOf(w, a.p).r, a.now, UserOf(w, a.p).state, UserOf(w, a.p).mine)
  }

  ghost predicate Enabled(w: World, a: Act, max: nat) {
    var u := UserOf(w, a.p);
    && (a.Begin? || a.p in w.users)
    && match a
       case Begin(p) => p != 0 && p !in w.born
       case Fork(_, child) => u.pc.BBusy? && !u.locked && child != 0 && child !in w.born
       case OpenPath(_, spare) => Active(u) && !u.locked && u.file == 0 && spare != 0 && spare !in w.disks
       case Shut(_) => !u.locked
       case Round(p, now) => CanLock(w, p, now)
       case CutShort(p, now, _) => CanLock(w, p, now)
       case Write(p, s) => u.locked && !u.closing && u.file in w.disks && Underway(w, p, s, max)
       case Finish(p, e, t, pc, born) =>
         u.locked && !u.closing && u.file in w.disks && Completes(w, p, e, t, pc, born, max)
       case Close(_) => u.locked && u.closing
       case Crash(_) => true
       case Gone(_) => !u.locked && !Active(u)
  }

  // ---- the invariant ----

  /** The store invariant, with nothing in anybody's hand. */
  ghost predicate Good(s: Store, max: nat) { Inv(s, 0, max) && NoHand(s) }

  /** Nobody has died in a section on the file, and nobody has spoiled it. */
  predicate Known(d: OnDisk) { !d.spoiled && (d.r.owner == 0 || d.holder != 0) }

  predicate Held(w: World, f: nat)
    requires f in w.disks
  {
    var d := w.disks[f];
    && f != 0 && (d.r.owner == 0 ==> d.r.Sized())
    && (d.holder != 0 ==> d.holder in w.users && w.users[d.holder].locked && w.users[d.holder].file == f)
  }

  ghost predicate FileInv(w: World, f: nat, max: nat) {
    f in w.disks ==> Held(w, f) && (Known(w.disks[f]) ==> SysInv(SysOf(w, f), max))
  }

  /** Two files never have the same create time. */
  ghost predicate Dated(w: World) {
    forall f, g {:trigger w.disks[f], w.disks[g]} :: f in w.disks && g in w.disks && f != g ==>
      w.disks[f].r.ctime.sec == 0 || w.disks[f].r.ctime != w.disks[g].r.ctime
  }

  /** The process remembers the create time of this file. */
  predicate Remembers(w: World, u: User, f: nat) {
    f in w.disks && u.mine.sec != 0 && u.mine == w.disks[f].r.ctime
  }

  /** The process has the lock, and the file is as file_lock left it but for what is being written. */
  predicate HasLock(w: World, p: nat) {
    var u := UserOf(w, p);
    && u.file in w.disks && Remembers(w, u, u.file)
    && var d := w.disks[u.file];
       && d.holder == p && d.r.owner == p && !d.r.removed
       && d.r.size >= SizeFor(u.found.alloced + MIN_SLOTS_FREE) && d.r.size >= SizeFor(d.r.s.alloced)
       && (Sane(w, p) ==> d.r.s.alloced <= u.found.alloced + 4)
  }

  ghost predicate UserInv(w: World, p: nat) {
    p in w.users ==>
      var u := w.users[p];
      && p != 0 && p in w.born && u.state == StateOf(u) && (u.closing ==> u.pc.BFresh? || u.pc.Leaving?)
      && (Counts(u.pc) ==> u.home in w.disks)
      && ((Counts(u.pc) || u.closing) && u.state >= HAVESLOTS ==> Remembers(w, u, u.home))
      && (u.locked ==> HasLock(w, p))
  }

  ghost predicate WorldInv(w: World, max: nat) {
    && (w.path != 0 ==> w.path in w.disks) && Dated(w)
    && (forall f :: FileInv(w, f, max)) && (forall p :: UserInv(w, p))
  }

  lemma NewGood(max: nat)
    ensures Good(NEW_FILE.s, max) && NEW_FILE.Sized() && SysInv(BOOT, max)
  {
    Runs.BootSafe(max);
  }

  /** The system invariant depends only on the store and on where the live processes stand. */
  lemma Weaker(y: Sys, z: Sys, max: nat)
    requires SysInv(y, max) && z.s == y.s.(live := z.s.live) && 0 !in z.s.live && z.s.live <= z.proc.Keys
    requires forall p :: p in z.s.live ==> !Counts(Pc(z, p)) || (p in y.s.live && Pc(z, p) == Pc(y, p))
    ensures SysInv(z, max)
  {
    Groups.LiveFrames(y.s, z.s.live, 0, max);
    forall n ensures !IsHand(z.s, n) { assert !IsHand(y.s, n); }
    forall p | p in z.s.live ensures Holds(z.s, p, Pc(z, p)) {
      if Counts(Pc(z, p)) { assert Holds(y.s, p, Pc(y, p)); }
    }
  }

  /** Nobody lives who has not come into being. */
  predicate AllBorn(w: World) { w.users.Keys <= w.born && 0 !in w.users }

  lemma EverybodyBorn(w: World)
    requires forall p :: UserInv(w, p)
    ensures AllBorn(w)
  {
    forall p | p in w.users ensures p in w.born && p != 0 { assert UserInv(w, p); }
  }

  lemma ViewPc(w: World, f: nat, p: nat)
    requires f in w.disks && AllBorn(w) && p in w.users
    ensures Pc(SysOf(w, f), p) == PcIn(w, f, p)
  {
  }

  /** A file on which nothing has been written, with processes that count on no more than before. */
  lemma ViewStays(w: World, z: World, f: nat, max: nat)
    requires f in w.disks && f in z.disks && SysInv(SysOf(w, f), max) && AllBorn(w) && AllBorn(z)
    requires Content(z, f) == Content(w, f)
    requires forall p :: p in z.users ==> !Counts(PcIn(z, f, p)) || (p in w.users && PcIn(z, f, p) == PcIn(w, f, p))
    ensures SysInv(SysOf(z, f), max)
  {
    hide SysInv, PcIn;
    forall p | p in z.users
      ensures !Counts(Pc(SysOf(z, f), p)) || (p in w.users && Pc(SysOf(z, f), p) == Pc(SysOf(w, f), p))
    {
      ViewPc(z, f, p);
      if p in w.users { ViewPc(w, f, p); }
    }
    Weaker(SysOf(w, f), SysOf(z, f), max);
  }

  /** The processes are the same or count on less. */
  ghost predicate Quieter(w: World, z: World) {
    && AllBorn(w) && AllBorn(z)
    && (forall p :: p in z.users ==>
          !Counts(z.users[p].pc)
              || (p in w.users && w.users[p].pc == z.users[p].pc && w.users[p].home == z.users[p].home))
  }

  /** File f is known only if it was, and it is as it was. */
  predicate Same(w: World, z: World, f: nat)
    requires f in w.disks && f in z.disks
  {
    Known(z.disks[f]) ==> Known(w.disks[f]) && Content(z, f) == Content(w, f)
  }

  lemma QuieterView(w: World, z: World, f: nat, max: nat)
    requires Quieter(w, z) && FileInv(w, f, max) && f in w.disks && f in z.disks && Same(w, z, f)
    ensures Known(z.disks[f]) ==> SysInv(SysOf(z, f), max)
  {
    hide SysInv;
    if Known(z.disks[f]) { ViewStays(w, z, f, max); }
  }

  /** What is to be shown of an act that is not the end of a section. */
  lemma QuieterKeeps(w: World, z: World, max: nat)
    requires WorldInv(w, max) && Quieter(w, z) && z.disks.Keys == w.disks.Keys && (z.path == w.path || z.path == 0)
        && Dated(z)
    requires (forall f :: f in z.disks ==> Held(z, f) && Same(w, z, f)) && (forall p :: UserInv(z, p))
    ensures WorldInv(z, max)
  {
    hide SysInv, Quieter, UserInv, Held, Same;
    forall f ensures FileInv(z, f, max) {
      if f in z.disks {
        assert FileInv(w, f, max);
        QuieterView(w, z, f, max);
      }
    }
  }

  lemma UsersBorn(w: World, max: nat)
    requires WorldInv(w, max)
    ensures AllBorn(w)
  {
    hide FileInv, UserInv;
    EverybodyBorn(w);
  }

  /** Only process p and the file f, which nobody else has locked, are written. */
  ghost predicate Local(w: World, z: World, p: nat, f: nat) {
    && f in w.disks && w.disks.Keys == z.disks.Keys && f in z.disks && w.disks[f].holder in {0, p} && w.born <= z.born
    && (forall g {:trigger z.disks[g]} :: g in w.disks && g != f ==> z.disks[g] == w.disks[g])
    && (w.disks[f].r.ctime.sec != 0 ==> z.disks[f].r.ctime == w.disks[f].r.ctime)
    && (forall q {:trigger z.users[q]} :: q in z.users && q != p ==> q in w.users && z.users[q] == w.users[q])
    && (forall q :: q in w.users && q != p ==> q in z.users)
    && (UserOf(w, p).locked ==> UserOf(w, p).file == f)
  }

  lemma OthersKeep(w: World, z: World, p: nat, f: nat, q: nat)
    requires Local(w, z, p, f) && UserInv(w, q) && q != p
    ensures UserInv(z, q)
  {
    if q in z.users {
      var u := w.users[q];
      assert u.locked ==> u.file != f;
      assert u.locked ==> HasLock(z, q);
    }
  }

  lemma FilesKeep(w: World, z: World, p: nat, f: nat, g: nat)
    requires Local(w, z, p, f) && g in w.disks && g != f && Held(w, g)
    ensures Held(z, g) && Same(w, z, g)
  {
  }

  lemma LocalKeeps(w: World, z: World, p: nat, f: nat, max: nat)
    requires WorldInv(w, max) && Local(w, z, p, f) && Quieter(w, z) && (z.path == w.path || z.path == 0)
    requires f in z.disks && Held(z, f) && Same(w, z, f) && UserInv(z, p)
    requires z.disks[f].r.ctime.sec == 0 || z.disks[f].r.ctime == w.disks[f].r.ctime
             || forall g :: g in w.disks ==> w.disks[g].r.ctime != z.disks[f].r.ctime
    ensures WorldInv(z, max)
  {
    hide SysInv, Quieter;
    assert Dated(z) by { hide UserInv, FileInv; }
    forall q ensures UserInv(z, q) {
      if q != p { OthersKeep(w, z, p, f, q); }
    }
    forall g | g in z.disks ensures Held(z, g) && Same(w, z, g) {
      assert FileInv(w, g, max);
      if g != f { FilesKeep(w, z, p, f, g); }
    }
    QuieterKeeps(w, z, max);
  }

  lemma At(w: World, p: nat, max: nat)
    requires WorldInv(w, max) && p in w.users
    ensures UserInv(w, p) && AllBorn(w) && (w.users[p].file in w.disks ==> Held(w, w.users[p].file))
  {
    UsersBorn(w, max);
    assert FileInv(w, w.users[p].file, max);
  }

  lemma RoundGoodKeeps(w: World, a: Act, max: nat)
    requires WorldInv(w, max) && Enabled(w, a, max) && a.Round? && Gets(w, a)
    ensures WorldInv(Next(w, a), max)
  {
    hide WorldInv, SysOf, PcIn;
    At(w, a.p, max);
    var z, u, d := Next(w, a), UserOf(w, a.p), FileOf(w, a.p);
    ExtendedEnough(d.r.size, d.r.s.alloced);
    assert Quieter(w, z) && HasLock(z, a.p);
    LocalKeeps(w, z, a.p, u.file, max);
  }

  lemma RoundBadKeeps(w: World, a: Act, max: nat)
    requires WorldInv(w, max) && Enabled(w, a, max) && a.Round? && !Gets(w, a)
    ensures WorldInv(Next(w, a), max)
  {
    hide WorldInv, SysOf, PcIn;
    At(w, a.p, max);
    var z, u, d := Next(w, a), UserOf(w, a.p), FileOf(w, a.p);
    if d.r.owner == 0 { ExtendedEnough(d.r.size, d.r.s.alloced); }
    assert Quieter(w, z);
    LocalKeeps(w, z, a.p, u.file, max);
  }

  lemma CutKeeps(w: World, a: Act, max: nat)
    requires WorldInv(w, max) && Enabled(w, a, max) && a.CutShort?
    ensures WorldInv(Next(w, a), max)
  {
    hide WorldInv, SysOf, PcIn;
    At(w, a.p, max);
    var z, u, d := Next(w, a), UserOf(w, a.p), FileOf(w, a.p);
    if d.r.owner == 0 { ExtendedEnough(d.r.size, d.r.s.alloced); }
    assert Quieter(w, z);
    LocalKeeps(w, z, a.p, u.file, max);
  }

  lemma CloseKeeps(w: World, a: Act, max: nat)
    requires WorldInv(w, max) && Enabled(w, a, max) && a.Close?
    ensures WorldInv(Next(w, a), max)
  {
    hide WorldInv, UserInv, Held, Same, Local, Quieter, AfterClose;
    At(w, a.p, max);
    var z, u := Next(w, a), UserOf(w, a.p);
    CloseOwn(w, z, a.p, max);
    LocalKeeps(w, z, a.p, u.file, max);
  }

  lemma CloseOwn(w: World, z: World, p: nat, max: nat)
    requires Enabled(w, Close(p), max) && z == AfterClose(w, p) && UserInv(w, p) && AllBorn(w)
    requires UserOf(w, p).file in w.disks ==> Held(w, UserOf(w, p).file)
    ensures var f := UserOf(w, p).file;
      && Local(w, z, p, f) && Quieter(w, z) && (z.path == w.path || z.path == 0) && f in z.disks && f in w.disks
      && Held(z, f) && Same(w, z, f) && UserInv(z, p) && z.disks[f].r.ctime == w.disks[f].r.ctime
  {
    hide SysOf, PcIn, UserInv, Quieter, Held, Same;
    CloseUser(w, z, p);
    CloseFile(w, z, p);
  }

  lemma CloseUser(w: World, z: World, p: nat)
    requires p in w.users && w.users[p].locked && w.users[p].closing && z == AfterClose(w, p)
    requires UserInv(w, p) && AllBorn(w)
    ensures UserInv(z, p) && Quieter(w, z) && w.users[p].file in w.disks
  {
  }

  lemma CloseFile(w: World, z: World, p: nat)
    requires p in w.users && w.users[p].locked && z == AfterClose(w, p) && UserInv(w, p)
    requires var f := w.users[p].file; f in w.disks && Held(w, f)
    ensures var f := w.users[p].file; Held(z, f) && Same(w, z, f) && w.disks[f].holder == p
  {
  }

  /** The room that a section needs is what its completion shows. */
  lemma UnderwayFits(w: World, p: nat, s: Store, max: nat)
    requires WorldInv(w, max) && UserOf(w, p).locked && UserOf(w, p).file in w.disks && Underway(w, p, s, max)
    ensures Sane(w, p) ==> s.alloced <= UserOf(w, p).found.alloced + 4
    ensures SizeFor(s.alloced) <= FileOf(w, p).r.size
  {
    var f := UserOf(w, p).file;
    assert UserInv(w, p) && FileInv(w, f, max);
    if Sane(w, p) {
      var y := SysOf(w, f);
      var e: Event :| e.pid == p && Possible(y, e) && s.alloced <= Protocol.Next(y, e, max).s.alloced;
      hide SysInv, Possible, Protocol.Next;
      Takes(y, e, max);
    }
  }

  lemma Takes(y: Sys, e: Event, max: nat)
    requires SysInv(y, max) && Possible(y, e)
    ensures Protocol.Next(y, e, max).s.alloced <= y.s.alloced + 4
  {
    EventSound(y, e, max);
  }

  lemma WriteKeeps(w: World, a: Act, max: nat)
    requires WorldInv(w, max) && Enabled(w, a, max) && a.Write?
    ensures WorldInv(Next(w, a), max)
  {
    hide WorldInv, Underway;
    At(w, a.p, max);
    UnderwayFits(w, a.p, a.s, max);
    var z, u := Next(w, a), UserOf(w, a.p);
    LocalKeeps(w, z, a.p, u.file, max);
  }

  lemma CrashKeeps(w: World, a: Act, max: nat)
    requires WorldInv(w, max) && Enabled(w, a, max) && a.Crash? && UserOf(w, a.p).locked
    ensures WorldInv(Next(w, a), max)
  {
    hide WorldInv, SysOf, PcIn;
    At(w, a.p, max);
    var z, u := Next(w, a), UserOf(w, a.p);
    LocalKeeps(w, z, a.p, u.file, max);
  }

  /** Nothing but the process itself is written. */
  lemma AloneKeeps(w: World, z: World, p: nat, max: nat)
    requires WorldInv(w, max) && z.disks == w.disks && z.path == w.path && w.born <= z.born && Quieter(w, z)
    requires (p in w.users ==> !w.users[p].locked) && UserInv(z, p)
    requires forall q :: q != p ==> (q in z.users <==> q in w.users) && (q in w.users ==> z.users[q] == w.users[q])
    ensures WorldInv(z, max)
  {
    hide SysInv, Quieter;
    forall q ensures UserInv(z, q) {
      assert UserInv(w, q);
      if q != p && q in z.users { assert w.users[q].locked ==> HasLock(z, q); }
    }
    forall f | f in z.disks ensures Held(z, f) && Same(w, z, f) {
      assert FileInv(w, f, max);
      assert w.disks[f].holder != 0 ==> w.disks[f].holder != p;
    }
    QuieterKeeps(w, z, max);
  }

  lemma DiesKeeps(w: World, a: Act, max: nat)
    requires WorldInv(w, max) && Enabled(w, a, max) && (a.Gone? || (a.Crash? && !UserOf(w, a.p).locked))
    ensures WorldInv(Next(w, a), max)
  {
    hide WorldInv;
    At(w, a.p, max);
    AloneKeeps(w, Next(w, a), a.p, max);
  }

  lemma QuietKeeps(w: World, a: Act, max: nat)
    requires WorldInv(w, max) && Enabled(w, a, max) && (a.Begin? || a.Shut? || (a.OpenPath? && w.path != 0))
    ensures WorldInv(Next(w, a), max)
  {
    hide WorldInv;
    UsersBorn(w, max);
    if a.p in w.users { At(w, a.p, max); }
    AloneKeeps(w, Next(w, a), a.p, max);
  }

  lemma ForkKeeps(w: World, a: Act, max: nat)
    requires WorldInv(w, max) && Enabled(w, a, max) && a.Fork?
    ensures WorldInv(Next(w, a), max)
  {
    hide WorldInv, SysOf, PcIn;
    At(w, a.p, max);
    AloneKeeps(w, Next(w, a), a.child, max);
  }

  lemma MakeUsers(w: World, p: nat, f: nat, q: nat)
    requires UserInv(w, q) && f !in w.disks && p in w.users && !w.users[p].locked && w.path == 0
    ensures UserInv(Next(w, OpenPath(p, f)), q) && (q in w.users && Counts(w.users[q].pc) ==> w.users[q].home != f)
  {
  }

  /** A file is made. */
  lemma MakeKeeps(w: World, a: Act, max: nat)
    requires WorldInv(w, max) && Enabled(w, a, max) && a.OpenPath? && w.path == 0
    ensures WorldInv(Next(w, a), max)
  {
    hide SysInv, UserInv, HasLock;
    At(w, a.p, max);
    var z := Next(w, a);
    forall q ensures UserInv(z, q) { MakeUsers(w, a.p, a.spare, q); }
    forall q | q in z.users && Counts(z.users[q].pc) ensures z.users[q].home != a.spare {
      MakeUsers(w, a.p, a.spare, q);
    }
    forall f ensures FileInv(z, f, max) {
      assert FileInv(w, f, max);
      if f == a.spare { MadeGood(z, f, max); }
      else if f in w.disks { QuieterView(w, z, f, max); }
    }
  }

  lemma MadeGood(z: World, f: nat, max: nat)
    requires f in z.disks && z.disks[f] == OnDisk(NEW_FILE, 0, false) && AllBorn(z)
    requires forall p :: p in z.users && Counts(z.users[p].pc) ==> z.users[p].home != f
    ensures SysInv(SysOf(z, f), max)
  {
    NewGood(max);
    hide SysInv;
    forall p | p in z.users ensures !Counts(Pc(SysOf(z, f), p)) { ViewPc(z, f, p); }
    Weaker(BOOT, SysOf(z, f), max);
  }

  // ---- the end of a section ----

  lemma EffectEnds(y: Sys, e: Event, max: nat)
    requires Begins(Pc(y, e.pid), e)
    ensures Ends(e, Effect(y, e, max).1)
  {
    hide Sections.ConnectSection, Sections.WakeSection, Sections.CollectStatus, Sections.ParentStart,
        Sections.ParentWake, RunOver, Sections.GoIdle, Sections.Accepted;
    if e.Finished? { RunEnds(y.s, Pc(y, e.pid).g, Pc(y, e.pid).b, e.pid, e.val, e.again, e.orphan); }
  }

  lemma RunEnds(s: Store, g: nat, b: nat, pid: nat, val: int, again: bool, orphan: bool)
    ensures var pc := RunOver(s, g, b, pid, val, again, orphan).1; pc.BWaiting? || pc.Leaving?
  {
  }

  lemma EffectBears(y: Sys, e: Event, max: nat)
    requires SysInv(y, max) && Protocol.Enabled(y, e, max) && Begins(Pc(y, e.pid), e)
    requires Forks(e) && e.child in Effect(y, e, max).0.live - y.s.live
    ensures Effect(y, e, max).2.BFresh? <==> e.Start? || e.Tended?
  {
    hide SysInv;
    if e.Start? { Runs.StartRecords(y, e, max); }
    hide Sections.ConnectSection, Sections.WakeSection, Sections.ParentStart, Sections.ParentWake, Protocol.Enabled;
  }

  lemma EffectLive(y: Sys, e: Event, max: nat)
    requires SysInv(y, max) && Protocol.Enabled(y, e, max) && Begins(Pc(y, e.pid), e)
    ensures var t := Effect(y, e, max).0;
      t.alloced <= y.s.alloced + 4 && t.live - y.s.live <= {ChildOf(e)} - ({0} + y.proc.Keys)
  {
    EventSound(y, e, max);
    hide Effect;
  }

  /** Where a section begins in its right place the system invariant holds. */
  lemma SaneSys(w: World, p: nat, max: nat)
    requires WorldInv(w, max) && p in w.users && w.users[p].locked && Sane(w, p)
    ensures SysInv(SysOf(w, w.users[p].file), max) && Pc(SysOf(w, w.users[p].file), p) == w.users[p].pc
    ensures Content(w, w.users[p].file) == w.users[p].found && UserInv(w, p) && AllBorn(w)
  {
    hide SysInv;
    At(w, p, max);
    assert FileInv(w, w.users[p].file, max);
  }

  lemma CompletesComes(w: World, p: nat, e: Event, t: Store, pc: Proc, born: Proc, max: nat)
    requires WorldInv(w, max) && UserOf(w, p).locked && UserOf(w, p).file in w.disks
        && Completes(w, p, e, t, pc, born, max)
    ensures Comes(w, p, e, t, pc, born)
  {
    if Sane(w, p) {
      hide SysInv, WorldInv, Protocol.Enabled, Effect, Begins, Ends;
      var f := UserOf(w, p).file;
      SaneSys(w, p, max);
      EffectEnds(SysOf(w, f), e, max);
      EffectLive(SysOf(w, f), e, max);
      if HasChild(w, e, t) { EffectBears(SysOf(w, f), e, max); }
    }
  }

  /** The processes that do not take part in the section, and the files it is not on. */
  lemma FinishOthers(w: World, z: World, p: nat, e: Event, t: Store, pc: Proc, born: Proc, q: nat)
    requires UserOf(w, p).locked && UserInv(w, p) && UserInv(w, q) && q in w.users && q != p
    requires z == AfterFinish(w, p, e, t, pc, born) && Comes(w, p, e, t, pc, born) && p in w.users
    ensures UserInv(z, q)
  {
    if q in z.users {
      assert z.users[q] == w.users[q];
      if w.users[q].locked {
        assert HasLock(w, q) && w.users[q].file != w.users[p].file;
        assert HasLock(z, q);
      }
    }
  }

  lemma FinishOwn(w: World, z: World, p: nat, e: Event, t: Store, pc: Proc, born: Proc)
    requires p in w.users && w.users[p].locked && UserInv(w, p) && w.users[p].file in w.disks
        && Held(w, w.users[p].file)
    requires z == AfterFinish(w, p, e, t, pc, born) && Comes(w, p, e, t, pc, born)
    ensures UserInv(z, p) && (HasChild(w, e, t) ==> UserInv(z, e.child)) && Held(z, w.users[p].file)
  {
  }

  lemma FinishFiles(w: World, z: World, p: nat, e: Event, t: Store, pc: Proc, born: Proc, g: nat)
    requires p in w.users && w.users[p].locked && UserInv(w, p)
    requires z == AfterFinish(w, p, e, t, pc, born) && Comes(w, p, e, t, pc, born)
    requires g in w.disks && Held(w, g) && g != w.users[p].file && UserInv(w, w.disks[g].holder)
    ensures Held(z, g) && Same(w, z, g)
    ensures forall q :: q in z.users ==> !Counts(PcIn(z, g, q)) || (q in w.users && PcIn(z, g, q) == PcIn(w, g, q))
  {
  }

  /** What the section has done to its file is an event of the system of this file. */
  lemma FinishView(w: World, z: World, p: nat, e: Event, t: Store, pc: Proc, born: Proc, max: nat)
    requires WorldInv(w, max) && p in w.users && w.users[p].locked && UserInv(w, p) && AllBorn(w) && AllBorn(z)
    requires w.users[p].file in w.disks && Completes(w, p, e, t, pc, born, max)
    requires z == AfterFinish(w, p, e, t, pc, born) && Comes(w, p, e, t, pc, born) && Sane(w, p)
    ensures SysInv(SysOf(z, w.users[p].file), max)
  {
    hide SysInv, WorldInv, Effect, Protocol.Enabled, Begins, StateLeft, Ends;
    var f := w.users[p].file;
    SaneSys(w, p, max);
    var y := SysOf(w, f);
    StepKeeps(y, e, max);
    forall q | q in z.users
      ensures !Counts(PcIn(z, f, q)) || (q in t.live && PcIn(z, f, q) == Pc(Protocol.Next(y, e, max), q))
    {
      if q in w.users { ViewPc(w, f, q); }
    }
    NextView(z, f, Protocol.Next(y, e, max), max);
  }

  lemma NextView(z: World, f: nat, y: Sys, max: nat)
    requires f in z.disks && SysInv(y, max) && AllBorn(z) && Content(z, f).(live := y.s.live) == y.s
    requires forall q :: q in z.users ==> !Counts(PcIn(z, f, q)) || (q in y.s.live && PcIn(z, f, q) == Pc(y, q))
    ensures SysInv(SysOf(z, f), max)
  {
    hide SysInv, PcIn;
    forall q | q in z.users ensures !Counts(Pc(SysOf(z, f), q)) || (q in y.s.live && Pc(SysOf(z, f), q) == Pc(y, q)) {
      ViewPc(z, f, q);
    }
    Weaker(y, SysOf(z, f), max);
  }

  lemma FinishKeeps(w: World, a: Act, max: nat)
    requires WorldInv(w, max) && Enabled(w, a, max) && a.Finish?
    ensures WorldInv(Next(w, a), max)
  {
    var p, f, z := a.p, UserOf(w, a.p).file, Next(w, a);
    At(w, p, max);
    CompletesComes(w, p, a.e, a.t, a.pc, a.born, max);
    hide SysInv, Completes, Comes, AfterFinish;
    FinishWorld(w, z, p, a.e, a.t, a.pc, a.born, max);
    forall q ensures UserInv(z, q) {
      FinishOwn(w, z, p, a.e, a.t, a.pc, a.born);
      if q != p && q in w.users { FinishOthers(w, z, p, a.e, a.t, a.pc, a.born, q); }
    }
    EverybodyBorn(z);
    forall g ensures FileInv(z, g, max) {
      FinishOwn(w, z, p, a.e, a.t, a.pc, a.born);
      if g == f {
        if Sane(w, p) { FinishView(w, z, p, a.e, a.t, a.pc, a.born, max); }
      } else if g in w.disks {
        assert FileInv(w, g, max) && UserInv(w, w.disks[g].holder);
        FinishFiles(w, z, p, a.e, a.t, a.pc, a.born, g);
        if Known(z.disks[g]) { ViewStays(w, z, g, max); }
      }
    }
  }

  /** The rest of what the end of a section leaves. */
  lemma FinishWorld(w: World, z: World, p: nat, e: Event, t: Store, pc: Proc, born: Proc, max: nat)
    requires WorldInv(w, max) && p in w.users && UserOf(w, p).file in w.disks && z == AfterFinish(w, p, e, t, pc, born)
    ensures z.disks.Keys == w.disks.Keys && (z.path == w.path || z.path == 0) && Dated(z)
    ensures forall q :: q in z.users ==> q == p || q in w.users || (HasChild(w, e, t) && q == e.child)
    ensures z.disks[UserOf(w, p).file].spoiled == !Sane(w, p)
  {
    hide FileInv, UserInv;
  }

  /** Every act keeps the invariant. */
  lemma ActKeeps(w: World, a: Act, max: nat)
    requires WorldInv(w, max) && Enabled(w, a, max)
    ensures WorldInv(Next(w, a), max)
  {
    hide WorldInv, Next, Completes, Underway;
    match a
    case Begin(_) => QuietKeeps(w, a, max);
    case Fork(_, _) => ForkKeeps(w, a, max);
    case OpenPath(_, _) => if w.path == 0 { MakeKeeps(w, a, max); } else { QuietKeeps(w, a, max); }
    case Shut(_) => QuietKeeps(w, a, max);
    case Round(_, _) => if Gets(w, a) { RoundGoodKeeps(w, a, max); } else { RoundBadKeeps(w, a, max); }
    case CutShort(_, _, _) => CutKeeps(w, a, max);
    case Write(_, _) => WriteKeeps(w, a, max);
    case Finish(_, _, _, _, _) => FinishKeeps(w, a, max);
    case Close(_) => CloseKeeps(w, a, max);
    case Crash(p) => if UserOf(w, p).locked { CrashKeeps(w, a, max); } else { DiesKeeps(w, a, max); }
    case Gone(_) => DiesKeeps(w, a, max);
  }

  // ---- runs ----

  const BLANK := World(map[], 0, map[], {})

  ghost predicate History(tr: seq<World>, acts: seq<Act>, max: nat) {
    && |tr| == |acts| + 1 && tr[0] == BLANK
    && forall i :: 0 <= i < |acts| ==> Enabled(tr[i], acts[i], max) && tr[i + 1] == Next(tr[i], acts[i])
  }

  lemma {:induction false} Always(tr: seq<World>, acts: seq<Act>, max: nat, i: nat)
    requires History(tr, acts, max) && i < |tr|
    ensures WorldInv(tr[i], max)
  {
    hide Enabled, Next;
    if i > 0 {
      Always(tr, acts, max, i - 1);
      assert Enabled(tr[i - 1], acts[i - 1], max) && tr[i] == Next(tr[i - 1], acts[i - 1]);
      ActKeeps(tr[i - 1], acts[i - 1], max);
    }
  }

  /** Crash consistency: whoever returns from file_lock, in any run with any deaths, has a file
      that no section was left unfinished in, with room for the slots its section may take. Unless
      the file has been spoiled, its store satisfies the invariant, and every process that is at
      home there finds there what it counts on. */
  lemma LockSeesGoodStore(tr: seq<World>, acts: seq<Act>, max: nat, i: nat)
    requires History(tr, acts, max) && i < |acts| && Gets(tr[i], acts[i])
    ensures var p := acts[i].p; var f := UserOf(tr[i], p).file;
      && f in tr[i].disks && f in tr[i + 1].disks && UserOf(tr[i + 1], p).file == f
      && var d := tr[i + 1].disks[f];
         && d.r.s == tr[i].disks[f].r.s && d.holder == p && d.r.owner == p && !d.r.removed
         && d.spoiled == tr[i].disks[f].spoiled
         && d.r.size >= SizeFor(d.r.s.alloced + MIN_SLOTS_FREE)
         && (!d.spoiled ==>
             Good(d.r.s, max) && SysInv(SysOf(tr[i], f), max) && SysOf(tr[i], f).s == d.r.s.(live := tr[i].users.Keys))
  {
    hide Good, SysInv, UserInv;
    Always(tr, acts, max, i);
    assert Enabled(tr[i], acts[i], max) && tr[i + 1] == Next(tr[i], acts[i]);
    var f := UserOf(tr[i], acts[i].p).file;
    assert FileInv(tr[i], f, max);
    ExtendedEnough(tr[i].disks[f].r.size, tr[i].disks[f].r.s.alloced);
    if !tr[i].disks[f].spoiled { SysGood(SysOf(tr[i], f), tr[i].disks[f].r.s, max); }
  }

  lemma SysGood(y: Sys, s: Store, max: nat)
    requires SysInv(y, max) && y.s == s.(live := y.s.live)
    ensures Good(s, max)
  {
    Groups.LiveFrames(y.s, s.live, 0, max);
    assert y.s.(live := s.live) == s;
    forall n ensures !IsHand(s, n) { assert !IsHand(y.s, n); }
  }

  /** A file on which a process died in the middle of a section. */
  predicate Abandoned(w: World, f: nat) {
    f in w.disks && w.disks[f].holder == 0 && w.disks[f].r.owner != 0
  }

  lemma StaysAbandoned(w: World, a: Act, f: nat, max: nat)
    requires WorldInv(w, max) && Enabled(w, a, max) && Abandoned(w, f)
    ensures Abandoned(Next(w, a), f) && (Gets(w, a) ==> UserOf(w, a.p).file != f)
  {
    hide SysInv, Completes, Underway;
    assert UserInv(w, a.p);
  }

  /** It is never used again. */
  lemma {:induction false} NeverUsedAgain(tr: seq<World>, acts: seq<Act>, max: nat, f: nat, i: nat, k: nat)
    requires History(tr, acts, max) && i <= k < |acts| && Abandoned(tr[i], f)
    ensures Abandoned(tr[k], f) && (Gets(tr[k], acts[k]) ==> UserOf(tr[k], acts[k].p).file != f)
    decreases k
  {
    hide Enabled, Next, WorldInv;
    if i < k {
      NeverUsedAgain(tr, acts, max, f, i, k - 1);
      Always(tr, acts, max, k - 1);
      assert Enabled(tr[k - 1], acts[k - 1], max) && tr[k] == Next(tr[k - 1], acts[k - 1]);
      StaysAbandoned(tr[k - 1], acts[k - 1], f, max);
    }
    Always(tr, acts, max, k);
    assert Enabled(tr[k], acts[k], max);
    StaysAbandoned(tr[k], acts[k], f, max);
  }

  /** A process that dies while it has a file locked abandons it. */
  lemma DeathAbandons(w: World, p: nat, max: nat)
    requires WorldInv(w, max) && p in w.users && w.users[p].locked
    ensures Abandoned(Next(w, Crash(p)), w.users[p].file)
  {
    assert UserInv(w, p);
  }

  /** How many slots fit in a file of this size. */
  function SlotsIn(size: nat): nat { if size < HEAD_SIZE then 0 else (size - HEAD_SIZE) / SLOT_SIZE }

  /** Whoever gets the lock has room for five more slots than the store has handed out. */
  lemma RoomAtLock(tr: seq<World>, acts: seq<Act>, max: nat, i: nat)
    requires History(tr, acts, max) && i < |acts| && Gets(tr[i], acts[i])
    ensures var r := FileOf(tr[i + 1], acts[i].p).r; r.s.alloced + MIN_SLOTS_FREE <= SlotsIn(r.size)
  {
    LockSeesGoodStore(tr, acts, max, i);
    hide History, Good, SysInv;
    var r := FileOf(tr[i + 1], acts[i].p).r;
    assert r.size - HEAD_SIZE >= SLOT_SIZE * (r.s.alloced + MIN_SLOTS_FREE);
  }

  /** The file is large enough for every slot that a section allocates, at every moment of it; a
      section in its right place does not even depend on what slot_alloc checks. */
  lemma NeverTooSmall(tr: seq<World>, acts: seq<Act>, max: nat, i: nat, p: nat)
    requires History(tr, acts, max) && i < |tr| && p in tr[i].users && tr[i].users[p].locked
    ensures FileOf(tr[i], p).r.size >= SizeFor(FileOf(tr[i], p).r.s.alloced)
    ensures Sane(tr[i], p) ==> FileOf(tr[i], p).r.s.alloced <= UserOf(tr[i], p).found.alloced + 4
  {
    Always(tr, acts, max, i);
    hide History, FileInv;
    assert UserInv(tr[i], p);
  }

  // ---- spoiled files ----

  /** Process p counts on a slot, and has locked a file that this slot is not in. */
  predicate Strays(w: World, p: nat) {
    p in w.users && w.users[p].locked && Counts(w.users[p].pc) && w.users[p].home != w.users[p].file
  }

  lemma SpoilsStraying(w: World, a: Act, f: nat, max: nat)
    requires Enabled(w, a, max) && f in Next(w, a).disks && Next(w, a).disks[f].spoiled
    ensures (f in w.disks && w.disks[f].spoiled) || (a.Finish? && Strays(w, a.p) && w.users[a.p].file == f)
  {
    hide Completes, Underway;
  }

  /** Only a process that strayed into a file has spoiled it. */
  lemma {:induction false} SpoiledByStray(tr: seq<World>, acts: seq<Act>, max: nat, f: nat, i: nat) returns (k: nat)
    requires History(tr, acts, max) && i < |tr| && f in tr[i].disks && tr[i].disks[f].spoiled
    ensures k < i && acts[k].Finish? && Strays(tr[k], acts[k].p) && tr[k].users[acts[k].p].file == f
  {
    hide Enabled, Next;
    assert Enabled(tr[i - 1], acts[i - 1], max) && tr[i] == Next(tr[i - 1], acts[i - 1]);
    SpoilsStraying(tr[i - 1], acts[i - 1], f, max);
    if f in tr[i - 1].disks && tr[i - 1].disks[f].spoiled {
      k := SpoiledByStray(tr, acts, max, f, i - 1);
    } else {
      k := i - 1;
    }
  }

  /** Nobody who strayed into file f has finished a section there before act i. */
  predicate NoStray(tr: seq<World>, acts: seq<Act>, f: nat, i: nat)
    requires i <= |acts| <= |tr|
  {
    forall k {:trigger acts[k]} :: 0 <= k < i && acts[k].Finish? ==>
      !(Strays(tr[k], acts[k].p) && tr[k].users[acts[k].p].file == f)
  }

  /** Where nobody has strayed into the file, whoever locks it sees a store that satisfies the invariant. */
  lemma GoodUnlessStray(tr: seq<World>, acts: seq<Act>, max: nat, i: nat)
    requires History(tr, acts, max) && i < |acts| && Gets(tr[i], acts[i])
    requires NoStray(tr, acts, UserOf(tr[i], acts[i].p).file, i)
    ensures Good(FileOf(tr[i + 1], acts[i].p).r.s, max)
  {
    LockSeesGoodStore(tr, acts, max, i);
    var f := UserOf(tr[i], acts[i].p).file;
    if tr[i].disks[f].spoiled {
      var k := SpoiledByStray(tr, acts, max, f, i);
      assert false;
    }
  }
}
