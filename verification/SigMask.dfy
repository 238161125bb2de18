/** speedy_sig.c: the signal mask while the file is locked and while handlers are set up. */
module SigMask {

  const MAXSIG := 3

  /** What a SigList remembers: its signals and the mask from before. */
  datatype SigList = SigList(sigs: set<int>, save: set<int>) {
    /** The mask of a wait for its signals. */
    function Unblock(): set<int> { save - sigs }
  }

  datatype How = Block | Unblock

  function Applied(mask: set<int>, sigs: set<int>, how: How): set<int> {
    if how == Block then mask + sigs else mask - sigs
  }

  /** A stretch of time: the mask in force, whether the process has the lock on the file, and the
      signals that are delivered to it meanwhile. */
  datatype Moment = Moment(mask: set<int>, owns: bool, taken: set<int>)

  /** Signals that come during one sigsuspend, and which of the deliverable ones the system would
      deliver first. */
  datatype Nap = Nap(come: set<int>, pick: set<int>)

  function Delivered(ready: set<int>, pick: set<int>): (d: set<int>)
    ensures d <= ready && (ready != {} ==> d != {})
  {
    if ready * pick == {} then ready else ready * pick
  }

  /** The first of these waits. */
  function FirstNap(naps: seq<Nap>): Nap { if naps == [] then Nap({}, {}) else naps[0] }

  predicate Meets(a: set<int>, b: set<int>) { exists x :: x in a && x in b }

  /** From place n of the log on, everything is blocked and nothing delivered while the process has
      the lock. */
  ghost predicate Shut(l: seq<Moment>, n: nat, all: set<int>) {
    forall i :: n <= i < |l| && l[i].owns ==> l[i].mask == all && l[i].taken == {}
  }

  /** From place n of the log on, the mask was opened while the process had the lock. */
  ghost predicate Opened(l: seq<Moment>, n: nat, all: set<int>) {
    exists i :: n <= i < |l| && l[i].owns && l[i].mask != all
  }

  /** From place n of the log on, only these masks were in force. */
  ghost predicate Only(l: seq<Moment>, n: nat, masks: set<set<int>>) {
    forall i :: n <= i < |l| ==> l[i].mask in masks
  }

  predicate Among(naps: seq<Nap>, all: set<int>) { forall n :: n in naps ==> n.come <= all }

  /** The signal state of a process: its mask, the mask that blockall saved, the blocked signals
      that have come, and whether it takes the temp file for locked. A forked child does so until
      file_fork_child, although it has not got the lock. `log` is what has been in force. */
  class Signals {
    const all: set<int>
    var mask: set<int>
    var blockallSave: set<int>
    var allBlocked: bool
    var locked: bool
    var pending: set<int>
    ghost var owns: bool
    ghost var log: seq<Moment>

    /** Everything is blocked exactly while the file is locked. */
    ghost predicate Valid()
      reads this
    {
      && allBlocked == locked && (locked ==> mask == all && blockallSave <= all) && (owns ==> locked)
      && pending <= mask <= all
    }

    /** The mask apart from the lock. */
    function Beneath(): (m: set<int>)
      reads this
    {
      if allBlocked then blockallSave else mask
    }

    constructor (all: set<int>, mask: set<int>)
      requires mask <= all
      ensures Valid() && !locked && Beneath() == mask && this.all == all && pending == {} && log == []
    {
      this.all, this.mask, blockallSave, allBlocked, locked, pending := all, mask, {}, false, false, {};
      owns, log := false, [];
    }

    /** A forked child. It inherits everything but the lock and the pending signals. */
    constructor Forked(from: Signals)
      requires from.Valid()
      ensures Valid() && all == from.all && mask == from.mask && locked == from.locked && Beneath() == from.Beneath()
      ensures pending == {} && !owns && log == []
    {
      all, mask, blockallSave, allBlocked := from.all, from.mask, from.blockallSave, from.allBlocked;
      locked, pending, owns, log := from.locked, {}, false, [];
    }

    /** sigprocmask: what is pending and not blocked any more is delivered. */
    method SetMask(m: set<int>)
      modifies this`mask, this`pending, this`log
      ensures mask == m && pending == old(pending) * m && log == old(log) + [Moment(m, owns, old(pending) - m)]
    {
      mask := m;
      log := log + [Moment(m, owns, pending - m)];
      pending := pending * m;
    }

    /** Signals come in. */
    method Come(sigs: set<int>)
      requires Valid() && sigs <= all
      modifies this`pending, this`log
      ensures Valid() && pending == old(pending) + sigs * mask && log == old(log) + [Moment(mask, owns, sigs - mask)]
    {
      log := log + [Moment(mask, owns, sigs - mask)];
      pending := pending + sigs * mask;
    }

    /** speedy_sig_blockall. */
    method BlockAll()
      modifies this`mask, this`blockallSave, this`allBlocked, this`pending, this`log
      ensures mask == all && blockallSave == old(mask) && allBlocked && pending == old(pending) * all
      ensures log == old(log) + [Moment(all, owns, old(pending) - all)]
    {
      blockallSave := mask;
      SetMask(all);
      allBlocked := true;
    }

    /** speedy_sig_blockall_undo. */
    method BlockAllUndo()
      modifies this`mask, this`allBlocked, this`pending, this`log
      ensures mask == blockallSave && !allBlocked && pending == old(pending) * blockallSave
      ensures log == old(log) + [Moment(blockallSave, owns, old(pending) - blockallSave)]
    {
      SetMask(blockallSave);
      allBlocked := false;
    }

    /** The end of file_lock, as far as signals go; a file that is locked is not locked again. */
    method Lock()
      requires Valid() && (locked ==> owns)
      modifies this
      ensures Valid() && locked && owns && Beneath() == old(Beneath())
      ensures log == old(log) + if old(locked) then [] else [Moment(all, false, {}), Moment(all, true, {})]
    {
      if !locked {
        assert pending - all == {};
        BlockAll();
        locked, owns := true, true;
        log := log + [Moment(all, true, {})];
      }
    }

    /** file_unlock. */
    method Unlock()
      requires Valid() && (locked ==> owns)
      modifies this
      ensures Valid() && !locked && !owns && Beneath() == old(Beneath()) == mask && pending == old(pending) * mask
      ensures log == old(log) + if old(locked) then [Moment(mask, false, old(pending) - mask)] else []
    {
      if locked {
        locked, owns := false, false;
        BlockAllUndo();
      }
    }

    /** speedy_file_fork_child, in the child. */
    method ForkChild()
      requires Valid() && !owns
      modifies this
      ensures Valid() && !locked && !owns && Beneath() == old(Beneath()) == mask
      ensures log == old(log) + if old(locked) then [Moment(mask, false, old(pending) - mask)] else []
    {
      if locked { BlockAllUndo(); }
      locked := false;
    }

    /** sig_init2: under the lock the saved mask is changed in place of the real one. */
    method Init(sigs: set<int>, how: How) returns (sl: SigList)
      requires Valid() && sigs <= all
      modifies this`mask, this`blockallSave, this`pending, this`log
      ensures Valid() && sl == SigList(sigs, old(Beneath())) && Beneath() == Applied(old(Beneath()), sigs, how)
      ensures log == old(log) + if locked then [] else [Moment(mask, owns, old(pending) - mask)]
      ensures pending == old(pending) * mask
    {
      var save := if allBlocked then blockallSave else mask;
      if allBlocked {
        blockallSave := Applied(blockallSave, sigs, how);
      } else {
        SetMask(Applied(mask, sigs, how));
      }
      sl := SigList(sigs, save);
    }

    /** sigsuspend: this mask is in force until a signal has been delivered, then the old one. */
    method Suspend(m: set<int>, nap: Nap) returns (taken: set<int>)
      requires Valid() && nap.come <= all && m <= all
      modifies this`pending, this`log
      ensures Valid() && taken == old(pending) + nap.come - pending
      ensures var first := Delivered(old(pending) + nap.come - m, nap.pick);
        && pending == (old(pending) + nap.come - first) * mask
        && log == old(log) + [Moment(m, owns, first), Moment(mask, owns, old(pending) + nap.come - first - mask)]
    {
      pending := pending + nap.come;
      var first := Delivered(pending - m, nap.pick);
      log := log + [Moment(m, owns, first)];
      pending := pending - first;
      taken := first + (pending - mask);
      log := log + [Moment(mask, owns, pending - mask)];
      pending := pending * mask;
    }

    /** One sigsuspend of a wait. */
    method NapOnce(sl: SigList, nap: Nap) returns (taken: set<int>)
      requires Valid() && sl.save <= all && nap.come <= all
      modifies this`pending, this`log
      ensures Valid() && taken == old(pending) + nap.come - pending && Leaves(old(log), log, owns, mask, sl.Unblock())
      ensures !Meets(taken, sl.sigs) ==> old(pending) * sl.sigs <= pending
      ensures taken == {} ==> old(pending) * sl.sigs == {}
      ensures log[|old(log)|].taken == Delivered(old(pending) + nap.come - sl.Unblock(), nap.pick)
      ensures taken !! pending && (nap.come == {} ==> pending <= old(pending) && taken <= old(pending))
    {
      taken := Suspend(sl.Unblock(), nap);
      if taken == {} {
        ghost var ready := old(pending) + nap.come - sl.Unblock();
        assert Delivered(ready, nap.pick) <= taken && ready == {};
        forall x | x in old(pending) ensures x in sl.Unblock() { assert x !in ready; }
      }
      forall x | x in old(pending) * sl.sigs && !Meets(taken, sl.sigs) ensures x in pending {
        assert x in sl.sigs && (x in pending || x in taken);
      }
    }

    /** sig_wait_basic: sigsuspend until one of the list's own signals has come. It may wait for
        ever, if none of them is pending and none comes. */
    method WaitBasic(sl: SigList, naps: seq<Nap>) returns (woken: bool)
      requires Valid() && sl.save <= all && Among(naps, all)
      modifies this`pending, this`log
      ensures Valid() && Leaves(old(log), log, owns, mask, sl.Unblock())
      ensures Meets(old(pending), sl.sigs) ==> woken
      ensures var nap := FirstNap(naps);
        log[|old(log)|].taken == Delivered(old(pending) + nap.come - sl.Unblock(), nap.pick)
      ensures naps == [] && woken ==> pending * sl.sigs < old(pending) * sl.sigs
    {
      ghost var own := pending * sl.sigs;
      var taken := NapOnce(sl, FirstNap(naps));
      ghost var first := log;
      var i := 1;
      while !Meets(taken, sl.sigs) && (i < |naps| || taken != {})
        invariant 1 <= i && Valid() && Leaves(old(log), log, owns, mask, sl.Unblock())
        invariant first <= log && own <= sl.sigs
        invariant (!Meets(taken, sl.sigs) ==> own <= pending) && (taken == {} ==> own == {})
        invariant taken !! pending && (naps == [] ==> pending <= old(pending) && taken <= old(pending))
        decreases if i < |naps| then |naps| - i else 0, |pending|, if taken == {} then 0 else 1
      {
        ghost var l, before := log, pending;
        taken := NapOnce(sl, if i < |naps| then naps[i] else Nap({}, {}));
        LeavesMore(old(log), l, log, owns, mask, sl.Unblock());
        assert own <= before * sl.sigs;
        if i >= |naps| && taken != {} { Fewer(pending, before, taken); }
        i := i + 1;
      }
      if naps == [] && Meets(taken, sl.sigs) { FewerOwn(pending, old(pending), taken, sl.sigs); }
      woken := Meets(taken, sl.sigs);
    }

    /** speedy_sig_free: as long as signals of the list are pending it waits for them, lock or no
        lock; then the mask from before is put back. */
    method Free(sl: SigList, naps: seq<seq<Nap>>)
      requires Valid() && sl.save <= all && sl.sigs <= all && forall l :: l in naps ==> Among(l, all)
      modifies this`mask, this`blockallSave, this`pending, this`log
      ensures Valid() && Beneath() == sl.save && old(log) <= log
      ensures pending * sl.sigs == {}
      ensures Only(log, |old(log)|, {sl.Unblock(), old(mask), sl.save})
      ensures forall i :: |old(log)| <= i < |log| ==> log[i].owns == owns
      ensures Opened(log, |old(log)|, all) <==> owns && Meets(old(pending), sl.sigs)
      ensures !Meets(old(pending), sl.sigs) ==> |log| == |old(log)| + if locked then 0 else 1
      ensures var nap := FirstNap(if naps == [] then [] else naps[0]);
        Meets(old(pending), sl.sigs) ==>
          && |old(log)| < |log|
          && log[|old(log)|] == Moment(sl.Unblock(), owns, Delivered(old(pending) + nap.come - sl.Unblock(), nap.pick))
    {
      ghost var nap := FirstNap(if naps == [] then [] else naps[0]);
      var i := 0;
      while Meets(pending, sl.sigs)
        invariant 0 <= i && Valid() && mask == old(mask) && (i == 0 ==> log == old(log) && pending == old(pending))
        invariant i > 0 ==> Leaves(old(log), log, owns, mask, sl.Unblock()) && Meets(old(pending), sl.sigs)
        invariant i > 0 ==> log[|old(log)|].taken == Delivered(old(pending) + nap.come - sl.Unblock(), nap.pick)
        decreases if i < |naps| then |naps| - i else 0, |pending * sl.sigs|
      {
        ghost var l, before := log, pending;
        var woken := WaitBasic(sl, if i < |naps| then naps[i] else []);
        if i > 0 { LeavesMore(old(log), l, log, owns, mask, sl.Unblock()); }
        if i >= |naps| { Smaller(pending * sl.sigs, before * sl.sigs); }
        i := i + 1;
      }
      ghost var l := log;
      assert pending * sl.sigs == {} by {
        forall x ensures x !in pending * sl.sigs { assert !(x in pending && x in sl.sigs); }
      }
      if allBlocked { blockallSave := sl.save; } else { SetMask(sl.save); }
      FreeOpens(old(log), l, log, owns, old(mask), all, sl, Meets(old(pending), sl.sigs));
    }
  }

  /** Whether the mask was opened: it was for a wait, and a wait there was. */
  lemma FreeOpens(l0: seq<Moment>, l: seq<Moment>, l1: seq<Moment>, owns: bool, mask: set<int>, all: set<int>,
                  sl: SigList, waited: bool)
    requires if waited then Leaves(l0, l, owns, mask, sl.Unblock()) else l == l0
    requires l <= l1 && (owns ==> l1 == l && mask == all) && sl.sigs <= all && (waited ==> exists x :: x in sl.sigs)
    requires forall i :: |l| <= i < |l1| ==> l1[i].owns == owns && l1[i].mask == sl.save
    ensures l0 <= l1 && Only(l1, |l0|, {sl.Unblock(), mask, sl.save})
    ensures forall i :: |l0| <= i < |l1| ==> l1[i].owns == owns
    ensures Opened(l1, |l0|, all) <==> owns && waited
  {
    forall i | |l0| <= i < |l1| ensures l1[i].owns == owns && l1[i].mask in {sl.Unblock(), mask, sl.save} {
      if i < |l| { assert l1[i] == l[i]; }
    }
    if owns && waited {
      var x :| x in sl.sigs;
      assert l1[|l0|] == l[|l0|] && x !in l1[|l0|].mask;
    }
  }

  /** What a wait leaves in the log: the mask for the wait first, and later perhaps again, and the
      mask from before. */
  ghost predicate Leaves(l0: seq<Moment>, l: seq<Moment>, owns: bool, mask: set<int>, unblock: set<int>) {
    && |l0| < |l| && l[..|l0|] == l0 && l[|l0|].mask == unblock
    && forall i :: |l0| <= i < |l| ==> l[i].owns == owns && l[i].mask in {unblock, mask}
  }

  lemma LeavesMore(l0: seq<Moment>, l: seq<Moment>, l1: seq<Moment>, owns: bool, mask: set<int>, unblock: set<int>)
    requires Leaves(l0, l, owns, mask, unblock) && Leaves(l, l1, owns, mask, unblock)
    ensures Leaves(l0, l1, owns, mask, unblock)
  {
    assert l1[..|l0|] == l1[..|l|][..|l0|];
    forall i | |l0| <= i < |l1| ensures l1[i].owns == owns && l1[i].mask in {unblock, mask} {
      if i < |l| { assert l1[i] == l1[..|l|][i]; }
    }
    assert l1[|l0|] == l1[..|l|][|l0|];
  }

  lemma FewerOwn(a: set<int>, b: set<int>, taken: set<int>, sigs: set<int>)
    requires a <= b && taken <= b && taken !! a && Meets(taken, sigs)
    ensures a * sigs < b * sigs
  {
    var x :| x in taken && x in sigs;
    assert x in b * sigs && x !in a * sigs;
  }

  lemma Fewer(a: set<int>, b: set<int>, taken: set<int>)
    requires a <= b - taken && taken <= b && taken != {}
    ensures |a| < |b|
  {
    assert a <= b && a != b;
    Smaller(a, b);
  }

  lemma Smaller(a: set<int>, b: set<int>)
    requires a < b
    ensures |a| < |b|
  {
    assert b == a + (b - a) && b - a != {};
  }

  // ---- how it is used ----

  /** One round of a loop that gives the lock up, waits for signals and takes the lock again: the
      signals that come in the critical section, those that come before the wait, the wait. */
  datatype Turn = Turn(inside: set<int>, outside: set<int>, naps: seq<Nap>)

  predicate TurnsIn(turns: seq<Turn>, all: set<int>) {
    forall t :: t in turns ==> t.inside <= all && t.outside <= all && Among(t.naps, all)
  }

  /** Whatever comes whenever, everything is blocked while the process has the lock. It may be left
      waiting in one of the rounds. */
  method Rounds(s: Signals, sl: SigList, turns: seq<Turn>) returns (waiting: bool)
    requires s.Valid() && s.owns && sl.save <= s.all && TurnsIn(turns, s.all)
    modifies s
    ensures s.Valid() && s.owns == s.locked == !waiting && s.Beneath() == old(s.Beneath())
    ensures old(s.log) <= s.log && Shut(s.log, |old(s.log)|, s.all)
    ensures Only(s.log, |old(s.log)|, {s.all, s.Beneath(), sl.Unblock()})
  {
    var i := 0;
    while i < |turns|
      invariant 0 <= i <= |turns| && s.Valid() && s.owns && s.Beneath() == old(s.Beneath())
      invariant old(s.log) <= s.log && Shut(s.log, |old(s.log)|, s.all)
      invariant Only(s.log, |old(s.log)|, {s.all, s.Beneath(), sl.Unblock()})
    {
      ghost var l := s.log;
      var woken := OneRound(s, sl, turns[i]);
      LogMore(old(s.log), l, s.log, s.all, {s.all, s.Beneath(), sl.Unblock()});
      if !woken { return true; }
      i := i + 1;
    }
    waiting := false;
  }

  method OneRound(s: Signals, sl: SigList, t: Turn) returns (woken: bool)
    requires s.Valid() && s.owns && sl.save <= s.all && TurnsIn([t], s.all)
    modifies s
    ensures s.Valid() && s.owns == s.locked == woken && s.Beneath() == old(s.Beneath())
    ensures old(s.log) <= s.log && Shut(s.log, |old(s.log)|, s.all)
    ensures Only(s.log, |old(s.log)|, {s.all, s.Beneath(), sl.Unblock()})
  {
    assert t in [t];
    s.Come(t.inside);
    s.Unlock();
    s.Come(t.outside);
    woken := s.WaitBasic(sl, t.naps);
    if woken { s.Lock(); }
  }

  lemma LogMore(l0: seq<Moment>, l: seq<Moment>, l1: seq<Moment>, all: set<int>, masks: set<set<int>>)
    requires l0 <= l <= l1 && Shut(l, |l0|, all) && Only(l, |l0|, masks) && Shut(l1, |l|, all) && Only(l1, |l|, masks)
    ensures Shut(l1, |l0|, all) && Only(l1, |l0|, masks)
  {
    forall i | |l0| <= i < |l1| ensures l1[i].mask in masks && (l1[i].owns ==> l1[i].mask == all && l1[i].taken == {}) {
      if i < |l| { assert l1[i] == l[i]; }
    }
  }

  /** A queued frontend: locked, the handler set up, any rounds, the handler taken down under the
      lock, unlocked. Everything is blocked while it has the lock, except for this: the mask is opened
      in the teardown exactly if one of the list's signals is pending then (`late`). Afterwards the
      mask is the one from before the first lock. */
  method FrontendUse(s: Signals, sigs: set<int>, turns: seq<Turn>, last: set<int>, naps: seq<seq<Nap>>)
    returns (waiting: bool, late: bool)
    requires s.Valid() && !s.locked && sigs <= s.all && last <= s.all && TurnsIn(turns, s.all)
    requires forall l :: l in naps ==> Among(l, s.all)
    modifies s
    ensures s.Valid() && !s.locked && (!waiting ==> s.mask == old(s.mask)) && old(s.log) <= s.log
    ensures Opened(s.log, |old(s.log)|, s.all) <==> late
    ensures (late ==> !waiting) && (!late ==> Shut(s.log, |old(s.log)|, s.all))
  {
    s.Lock();
    var sl := s.Init(sigs, Block);
    waiting := Rounds(s, sl, turns);
    if waiting { return true, false; }
    s.Come(last);
    late := Meets(s.pending, sigs);
    ghost var n, l := |old(s.log)|, s.log;
    assert Shut(l, n, s.all);
    s.Free(sl, naps);
    OpenedParts(l, s.log, n, s.all);
    ghost var l1 := s.log;
    s.Unlock();
    OpenedParts(l1, s.log, n, s.all);
  }

  lemma OpenedParts(l: seq<Moment>, l1: seq<Moment>, n: nat, all: set<int>)
    requires l <= l1 && n <= |l|
    ensures Opened(l1, n, all) <==> Opened(l, n, all) || Opened(l1, |l|, all)
    ensures Shut(l, n, all) ==> !Opened(l, n, all)
  {
    if i :| n <= i < |l| && l[i].owns && l[i].mask != all { assert l1[i] == l[i]; }
    if i :| n <= i < |l1| && l1[i].owns && l1[i].mask != all {
      if i < |l| { assert l1[i] == l[i]; }
    }
  }

  /** The process that a frontend forks in one of its sections, up to the exec: it takes the handler
      down and then forgets the lock. It has the mask from before, and never the lock. */
  method FrontendFork(s: Signals, sl: SigList, come: set<int>, naps: seq<seq<Nap>>) returns (c: Signals)
    requires s.Valid() && sl.save <= s.all && sl.sigs <= s.all && come <= s.all
    requires forall l :: l in naps ==> Among(l, s.all)
    ensures fresh(c) && c.Valid() && !c.locked && c.mask == sl.save
    ensures forall i :: 0 <= i < |c.log| ==> !c.log[i].owns
  {
    c := new Signals.Forked(s);
    c.Come(come);
    c.Free(sl, naps);
    c.ForkChild();
  }

  /** A parent process: handlers are set up before the first lock, then any rounds; the backend it
      forks in a section gives up the lock, locks the file once more to close it, and then takes
      the handlers down. Neither opens the mask while it has the lock, and the backend ends with the
      mask from before. */
  method ParentUse(s: Signals, sigs: set<int>, how: How, turns: seq<Turn>, come: set<int>, naps: seq<seq<Nap>>)
    returns (waiting: bool, c: Signals)
    requires s.Valid() && !s.locked && sigs <= s.all && come <= s.all && TurnsIn(turns, s.all)
    requires forall l :: l in naps ==> Among(l, s.all)
    modifies s
    ensures s.Valid() && old(s.log) <= s.log && Shut(s.log, |old(s.log)|, s.all)
    ensures fresh(c) && c.Valid() && !c.locked && Shut(c.log, 0, s.all) && (!waiting ==> c.mask == old(s.mask))
  {
    var sl := s.Init(sigs, how);
    s.Lock();
    waiting := Rounds(s, sl, turns);
    c := new Signals.Forked(s);
    c.ForkChild();
    if waiting { return; }
    c.Lock();
    c.Come(come);
    c.Unlock();
    c.Free(sl, naps);
  }

  /** A backend that accepts a connection has its signals unblocked meanwhile; taking the handlers
      down then waits for nothing, since nothing of the list can be pending. */
  method AcceptUse(s: Signals, sigs: set<int>, come: set<int>)
    requires s.Valid() && !s.locked && sigs <= s.all && come <= s.all
    modifies s
    ensures s.Valid() && !s.locked && s.mask == old(s.mask) && |s.log| == |old(s.log)| + 3
  {
    var sl := s.Init(sigs, Unblock);
    s.Come(come);
    s.Free(sl, []);
  }

  const SIGALRM := 14
  const SIGTERM := 15

  /** A frontend whose timer has run out while it waited for the lock is told to terminate: the
      signal reaches it in its teardown, while it has the lock. */
  method TerminatedUnderLock() returns (s: Signals)
    ensures exists i :: 0 <= i < |s.log| && s.log[i].owns && SIGTERM in s.log[i].taken
  {
    s := new Signals({SIGALRM, SIGTERM}, {});
    s.Lock();
    var sl := s.Init({SIGALRM}, Block);
    s.Come({SIGALRM, SIGTERM});
    ghost var n := |s.log|;
    assert SIGALRM in s.pending && SIGTERM in s.pending;
    s.Free(sl, [[Nap({}, {SIGTERM})]]);
    assert SIGTERM in s.log[n].taken;
  }

  // ---- which signals came ----

  /** The signals in the table, up to the first 0. */
  function Listed(t: seq<int>): (l: seq<int>)
    ensures |l| <= |t| && (forall i :: 0 <= i < |l| ==> l[i] == t[i] != 0) && (|l| < |t| ==> t[|l|] == 0)
  {
    if t == [] || t[0] == 0 then [] else [t[0]] + Listed(t[1..])
  }

  class Received {
    const got: array<int>

    ghost predicate Valid()
      reads this
    {
      got.Length == MAXSIG
    }

    constructor ()
      ensures Valid() && Listed(got[..]) == [] && fresh(got)
    {
      got := new int[MAXSIG](_ => 0);
    }

    /** sig_find: -1 if the signal is there, else where it may be put. */
    method Find(sig: int) returns (i: int)
      requires Valid() && sig != 0
      ensures i == if sig in Listed(got[..]) then -1 else |Listed(got[..])|
    {
      ghost var l := Listed(got[..]);
      i := 0;
      while i < MAXSIG && got[i] != 0
        invariant 0 <= i <= |l| && forall k :: 0 <= k < i ==> l[k] != sig
      {
        if got[i] == sig {
          assert l[i] == sig;
          return -1;
        }
        i := i + 1;
      }
    }

    /** sig_handler. */
    method Handle(sig: int)
      requires Valid() && sig != 0
      modifies got
      ensures var l := old(Listed(got[..]));
        Listed(got[..]) == if sig in l || |l| == MAXSIG then l else l + [sig]
    {
      ghost var t := got[..];
      var i := Find(sig);
      if 0 <= i < MAXSIG {
        got[i] := sig;
        if i + 1 < MAXSIG { got[i + 1] := 0; }
        ListedPut(t, got[..], sig);
      }
    }
  }

  lemma {:induction false} ListedIs(t: seq<int>, l: seq<int>)
    requires |l| <= |t| && (forall i :: 0 <= i < |l| ==> l[i] == t[i] != 0) && (|l| < |t| ==> t[|l|] == 0)
    ensures Listed(t) == l
  {
    if l != [] { ListedIs(t[1..], l[1..]); }
  }

  lemma ListedPut(t: seq<int>, u: seq<int>, sig: int)
    requires |u| == |t| && |Listed(t)| < |t| && sig != 0 && u[|Listed(t)|] == sig
    requires forall k :: 0 <= k < |Listed(t)| ==> u[k] == t[k]
    requires |Listed(t)| + 1 < |t| ==> u[|Listed(t)| + 1] == 0
    ensures Listed(u) == Listed(t) + [sig]
  {
    ListedIs(u, Listed(t) + [sig]);
  }

  /** After a wait the table lists exactly the signals that came, as long as no more than MAXSIG
      different ones can come, which is what speedy_sig_init sees to. */
  method Wait(r: Received, came: seq<int>, sigs: set<int>)
    requires r.Valid() && |sigs| <= MAXSIG && 0 !in sigs && forall s :: s in came ==> s in sigs
    modifies r.got
    ensures forall s :: s in Listed(r.got[..]) <==> s in came
  {
    r.got[0] := 0;
    ListedIs(r.got[..], []);
    var i := 0;
    while i < |came|
      invariant 0 <= i <= |came|
      invariant forall s :: s in Listed(r.got[..]) <==> s in came[..i]
      invariant forall j, k :: 0 <= j < k < |Listed(r.got[..])| ==> Listed(r.got[..])[j] != Listed(r.got[..])[k]
    {
      assert came[..i + 1] == came[..i] + [came[i]];
      NotFull(Listed(r.got[..]), came[i], sigs);
      r.Handle(came[i]);
      i := i + 1;
    }
    assert came[..|came|] == came;
  }

  lemma {:induction false} NotMore(l: seq<int>, sigs: set<int>)
    requires (forall s :: s in l ==> s in sigs) && forall j, k :: 0 <= j < k < |l| ==> l[j] != l[k]
    ensures |l| <= |sigs|
  {
    if l != [] {
      assert l[0] in l;
      forall s | s in l[1..] ensures s in sigs - {l[0]} { assert s in l; }
      NotMore(l[1..], sigs - {l[0]});
      assert |sigs - {l[0]}| == |sigs| - 1;
    }
  }

  /** There is room for a signal that is not listed yet. */
  lemma NotFull(l: seq<int>, sig: int, sigs: set<int>)
    requires (forall s :: s in l ==> s in sigs) && sig in sigs && |sigs| <= MAXSIG
    requires forall j, k :: 0 <= j < k < |l| ==> l[j] != l[k]
    ensures sig !in l ==> |l| < MAXSIG
  {
    if sig !in l { NotMore(l, sigs - {sig}); }
  }
}
