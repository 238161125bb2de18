/** speedy_file.c: the lock on the temp file. A file whose lock_owner is set is never used again. */
module FileLock {
  import opened Store

  const CLOSED := 0
  const OPEN := 1
  const HAVESLOTS := 2
  const CORRUPT := 3

  const TRIES := 5
  const MIN_SLOTS_FREE := 5
  const FILE_ALLOC_CHUNK := 512

  /** The sizes of the file header and of a slot. */
  const HEAD_SIZE := 40
  const SLOT_SIZE := 32

  /** A time that has not been filled in has sec == 0. */
  datatype Time = Time(sec: int, usec: int)

  /** The size that a file with this many slots needs. */
  function SizeFor(slots: nat): nat { HEAD_SIZE + SLOT_SIZE * slots }

  function Extended(size: nat, alloced: nat): nat {
    if size < HEAD_SIZE || size < SizeFor(alloced + MIN_SLOTS_FREE) then size + FILE_ALLOC_CHUNK else size
  }

  /** A file is either new or large enough for the slots it has. */
  predicate WellSized(size: nat, alloced: nat) {
    (size == 0 && alloced == 0) || size >= SizeFor(alloced)
  }

  /** One extension always leaves room for MIN_SLOTS_FREE more slots. */
  lemma ExtendedEnough(size: nat, alloced: nat)
    requires WellSized(size, alloced)
    ensures Extended(size, alloced) >= SizeFor(alloced + MIN_SLOTS_FREE)
  {
  }

  /** What is in a temp file. */
  datatype Rec = Rec(size: nat, ctime: Time, owner: nat, removed: bool, s: Store) {
    /** No critical section was left unfinished and nobody has removed the file. */
    predicate Fit() { owner == 0 && !removed }

    predicate Sized() { WellSized(size, s.alloced) }

    /** The create time the file has once `now` has been filled in. */
    function Created(now: Time): Time { if ctime.sec == 0 then now else ctime }
  }

  const NEW_FILE := Rec(0, Time(0, 0), 0, false, EMPTY_STORE)

  /** Whether a process in this state, with this copy of the create time, may use the file: one
      that holds slots goes back to the file they are in. */
  predicate Accepts(r: Rec, now: Time, state: int, mine: Time) {
    r.Fit() && (state >= HAVESLOTS && mine.sec != 0 ==> r.Created(now) == mine)
  }

  /** What a round of file_lock leaves of a file, apart from lock_owner when it is good. */
  function Looked(r: Rec, now: Time, good: bool): Rec {
    Rec(Extended(r.size, r.s.alloced), r.Created(now), r.owner, !good, r.s)
  }

  class Disk {
    var r: Rec

    constructor ()
      ensures r == NEW_FILE
    {
      r := NEW_FILE;
    }
  }

  /** The static variables of one process. */
  class Handle {
    const pid: nat
    var state: int
    var locked: bool
    var file: Disk?
    var mine: Time

    constructor (pid: nat)
      ensures this.pid == pid && state == CLOSED && !locked && file == null && mine == Time(0, 0)
    {
      this.pid, state, locked, file, mine := pid, CLOSED, false, null, Time(0, 0);
    }

    /** The files the rounds of file_lock look at: those that opening the path gives, but in the
        first round the one that is open already, if there is one. */
    function Tried(opens: seq<Disk>): (t: seq<Disk>)
      requires |opens| == TRIES
      reads this
    {
      if file == null then opens else opens[0 := file]
    }

    /** What holds of the file on return from file_lock. */
    predicate Granted()
      reads this, file
    {
      && locked && file != null && file.r.owner == pid && !file.r.removed && mine == file.r.ctime
      && file.r.size >= SizeFor(file.r.s.alloced + MIN_SLOTS_FREE)
    }

    /** One round of the loop of file_lock on an open file. */
    method Attempt(now: Time) returns (good: bool)
      requires file != null && now.sec != 0
      modifies this`mine, file
      ensures good <==> Accepts(old(file.r), now, state, old(mine))
      ensures file.r == Looked(old(file.r), now, good)
      ensures good ==> mine == file.r.ctime
    {
      if file.r.size < HEAD_SIZE || file.r.size < SizeFor(file.r.s.alloced + MIN_SLOTS_FREE) {
        file.r := file.r.(size := file.r.size + FILE_ALLOC_CHUNK);
      }
      if file.r.ctime.sec == 0 { file.r := file.r.(ctime := now); }
      if mine.sec == 0 || state < HAVESLOTS {
        mine := file.r.ctime;
      } else if mine != file.r.ctime {
        file.r := file.r.(removed := true);
      }
      if file.r.owner != 0 { file.r := file.r.(removed := true); }
      good := !file.r.removed;
    }

    /** A round, and the end of file_lock when it was good. */
    method Round(now: Time) returns (good: bool)
      requires file != null && now.sec != 0 && pid != 0 && !locked && file.r.Sized()
      modifies this`mine, this`locked, file
      ensures good <==> Accepts(old(file.r), now, state, old(mine))
      ensures file.r.s == old(file.r.s) && (if good then Granted() && old(file.r.Fit()) else !locked)
      ensures !good ==> file.r.Sized() && (state < HAVESLOTS ==> !old(file.r.Fit()) && !file.r.Fit())
    {
      ExtendedEnough(file.r.size, file.r.s.alloced);
      good := Attempt(now);
      if good {
        locked := true;
        file.r := file.r.(owner := pid);
      }
    }

    /** The loop of file_lock. The file is locked while each round looks at it; `opens` are the
        files that opening the path gives in each round; `at` is the round that ended it.
        The result is false if the process dies. */
    method Rounds(opens: seq<Disk>, now: Time, ghost tried: seq<Disk>) returns (ok: bool, ghost at: nat)
      requires |opens| == TRIES && now.sec != 0 && pid != 0 && !locked && tried == Tried(opens)
      requires forall i :: 0 <= i < TRIES ==> tried[i].r.Sized()
      modifies this`mine, this`file, this`locked, tried
      ensures at <= TRIES && forall i :: 0 <= i < TRIES ==> tried[i].r.s == old(tried[i].r.s)
      ensures forall i :: 0 <= i < at ==> !old(tried[i].r.Fit())
      ensures if ok then at < TRIES && file == tried[at] && Granted() && old(tried[at].r.Fit()) else !locked
      ensures if state >= HAVESLOTS then at == 0 && (ok <==> Accepts(old(tried[0].r), now, state, old(mine)))
          else !ok ==> at == TRIES
    {
      hide Accepts, Extended, SizeFor, WellSized;
      var tries := TRIES;
      at := 0;
      while tries > 0
        invariant 0 <= tries <= TRIES && at == TRIES - tries && !locked
        invariant file == if at == 0 then old(file) else null
        invariant at == 0 ==> mine == old(mine) && tried[0].r == old(tried[0].r)
        invariant at > 0 ==> state < HAVESLOTS
        invariant forall i :: 0 <= i < TRIES ==> Same(old(tried[i].r), tried[i].r)
        invariant forall i :: 0 <= i < at ==> !old(tried[i].r.Fit())
        decreases tries
      {
        if file == null { file := opens[TRIES - tries]; }
        assert file == tried[at];
        ok := Round(now);
        if ok || state >= HAVESLOTS { return; }
        file := null;
        tries, at := tries - 1, at + 1;
      }
      ok := false;
    }

    /** file_lock. */
    method Lock(opens: seq<Disk>, now: Time) returns (ok: bool)
      requires |opens| == TRIES && now.sec != 0 && pid != 0
      requires forall d :: d in Tried(opens) ==> d.r.Sized()
      modifies this, Tried(opens)
      ensures state == old(state) && forall d :: d in old(Tried(opens)) ==> d.r.s == old(d.r.s)
      ensures old(locked) ==> ok && locked && file == old(file) && mine == old(mine)
      ensures old(locked) ==> forall d :: d in old(Tried(opens)) ==> d.r == old(d.r)
      ensures ok && !old(locked) ==> Granted() && file in old(Tried(opens))
      ensures ok && !old(locked) ==> forall d :: d in old(Tried(opens)) && d == file ==> old(d.r.Fit())
      ensures !old(locked) && state >= HAVESLOTS ==> (ok <==> old(Accepts(Tried(opens)[0].r, now, state, mine)))
      ensures !old(locked) && state >= HAVESLOTS && ok ==> file == old(Tried(opens)[0])
      ensures !old(locked) && state < HAVESLOTS ==> (ok <==> exists i :: 0 <= i < TRIES && old(Tried(opens)[i].r.Fit()))
    {
      if locked { return true; }
      ghost var tried := Tried(opens);
      ghost var at: nat;
      ok, at := Rounds(opens, now, tried);
    }

    /** file_unlock. */
    method Unlock()
      requires locked ==> file != null
      modifies this`locked, file
      ensures !locked
      ensures file != null ==> file.r == if old(locked) then old(file.r).(owner := 0) else old(file.r)
    {
      if !locked { return; }
      file.r := file.r.(owner := 0);
      locked := false;
    }

    /** file_close: a process that holds slots, or has the file locked, first looks whether
        anything is left in it and removes it if not. */
    method Close(opens: seq<Disk>, now: Time) returns (ok: bool)
      requires |opens| == TRIES && now.sec != 0 && pid != 0 && (locked ==> file != null)
      requires forall d :: d in Tried(opens) ==> d.r.Sized()
      modifies this, Tried(opens)
      ensures ok ==> !locked && file == null && state == old(state)
      ensures forall d :: d in old(Tried(opens)) ==> d.r.s == old(d.r.s)
      ensures state < HAVESLOTS ==> ok && forall d :: d in old(Tried(opens)) && d.r.removed ==> old(d.r.removed)
      ensures state >= HAVESLOTS && ok ==> var d := old(Tried(opens)[0]);
        d.r.removed <==> old(Tried(opens)[0].r.removed) || (d.r.s.groups == [] && d.r.s.running == [])
    {
      ok := true;
      ghost var tried := Tried(opens);
      assert file != null ==> file == tried[0];
      if state >= HAVESLOTS {
        ok := Lock(opens, now);
        if !ok { return; }
        if file.r.s.groups == [] && file.r.s.running == [] { file.r := file.r.(removed := true); }
      }
      Unlock();
      file := null;
    }

    /** speedy_file_set_state. */
    method SetState(next: int, opens: seq<Disk>, now: Time) returns (ok: bool)
      requires |opens| == TRIES && now.sec != 0 && pid != 0 && (locked ==> file != null)
      requires next in {CLOSED, OPEN, HAVESLOTS, CORRUPT} && (locked <==> state == CORRUPT)
      requires forall d :: d in Tried(opens) ==> d.r.Sized()
      modifies this, Tried(opens)
      ensures ok ==> state == next && (locked <==> state == CORRUPT) && (locked ==> file != null)
      ensures forall d :: d in old(Tried(opens)) ==> d.r.s == old(d.r.s)
      ensures ok && next == CORRUPT && old(state) != CORRUPT ==> file in old(Tried(opens)) && Granted()
      ensures next == CORRUPT && old(state) == HAVESLOTS ==>
          (ok <==> old(Accepts(Tried(opens)[0].r, now, HAVESLOTS, mine)))
      ensures next == CORRUPT && old(state) < HAVESLOTS ==>
          (ok <==> exists i :: 0 <= i < TRIES && old(Tried(opens)[i].r.Fit()))
      ensures next in {OPEN, HAVESLOTS} ==> ok && file == old(file) && mine == old(mine)
    {
      ok := true;
      assert file != null ==> file == Tried(opens)[0];
      if next != state {
        if next == CLOSED {
          ok := Close(opens, now);
        } else if next == CORRUPT {
          ok := Lock(opens, now);
        } else {
          Unlock();
        }
        if ok { state := next; }
      }
    }

    /** speedy_file_fork_child: the child does not own the lock, and leaves lock_owner alone. */
    method ForkChild()
      requires (locked <==> state == CORRUPT) && state in {CLOSED, OPEN, HAVESLOTS, CORRUPT}
      modifies this`locked, this`state
      ensures !locked && state == if old(state) == CORRUPT then HAVESLOTS else old(state)
    {
      locked := false;
      if state > HAVESLOTS { state := HAVESLOTS; }
    }
  }

  /** What a failed round leaves of a file. */
  predicate Same(r0: Rec, r: Rec) {
    r.s == r0.s && r.Fit() == r0.Fit() && r.Sized()
  }
}
