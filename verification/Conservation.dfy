/** Conservation of slots: every slot of the file is on exactly one list, at every unlock. */
module Conservation {
  import opened Lists
  import opened Store

  /** The lists of the file, the slots in the hand of the lock holder, and the numbers
      beyond slots_alloced. */
  datatype ListId =
    | FreeList | GroupList | RunList
    | BeList(g: nat) | FeList(g: nat) | ScrList(g: nat) | NameOf(g: nat)
    | InHand | Nowhere

  function HomeOf(v: Slot): ListId {
    match v
    case Nil => Nowhere
    case Free => FreeList
    case Grp(_) => GroupList
    case Bck(be) => BeList(be.grp)
    case Fro(fe) => (match fe.loc case Hand => InHand case Queue(g) => FeList(g) case Run => RunList)
    case Scr(_, g) => ScrList(g)
    case Nam(_, g) => NameOf(g)
  }

  function Home(s: Store, n: nat): ListId { HomeOf(s.At(n)) }

  function ListOf(s: Store, id: ListId): seq<nat> {
    match id
    case FreeList => s.free
    case GroupList => s.groups
    case RunList => s.running
    case BeList(g) => s.Gr(g).bes
    case FeList(g) => s.Gr(g).fes
    case ScrList(g) => s.Gr(g).scripts
    case NameOf(g) => if s.Gr(g).name == 0 then [] else [s.Gr(g).name]
    case InHand => []
    case Nowhere => []
  }

  ghost predicate Numbered(s: Store) {
    && (forall n :: n in s.m <==> 0 < n <= s.alloced)
    && (forall n :: n in s.m ==> !s.At(n).Nil?)
  }

  /** Slots 1..slots_alloced are shared out exactly among the lists and the hand. */
  ghost predicate Wf(s: Store) {
    && Numbered(s)
    && (forall id :: NoDup(ListOf(s, id)))
    && (forall id, n :: n in ListOf(s, id) ==> Home(s, n) == id)
    && (forall n :: Home(s, n) != InHand && Home(s, n) != Nowhere ==> n in ListOf(s, Home(s, n)))
  }

  /** From s to t slot n goes to list `to` and leaves the one it was on; no other slot moves. */
  ghost predicate Moved(s: Store, t: Store, n: nat, to: ListId) {
    && Home(s, n) != to && Home(t, n) == to
    && (forall k :: k != n ==> Home(t, k) == Home(s, k))
    && (forall id :: id != to && id != Home(s, n) ==> ListOf(t, id) == ListOf(s, id))
    && ListOf(t, Home(s, n)) == Without(ListOf(s, Home(s, n)), n)
    && (|| (to == InHand && ListOf(t, to) == [])
        || ListOf(t, to) == [n] + ListOf(s, to)
        || ListOf(t, to) == ListOf(s, to) + [n])
  }

  /** No slot changes its list; lists may only be put in another order. */
  ghost predicate Stayed(s: Store, t: Store) {
    && (forall k :: Home(t, k) == Home(s, k))
    && (forall id :: NoDup(ListOf(t, id)))
    && (forall id, k :: k in ListOf(t, id) <==> k in ListOf(s, id))
  }

  lemma MovedWf(s: Store, t: Store, n: nat, to: ListId)
    requires Wf(s) && Moved(s, t, n, to) && Numbered(t) && to != Nowhere
    ensures Wf(t)
  {
    WithoutNoDup(ListOf(s, Home(s, n)), n);
    if to != InHand {
      assert n !in ListOf(s, to);
      ConsNoDup(ListOf(s, to), n);
      SnocNoDup(ListOf(s, to), n);
    }
  }

  lemma StayedWf(s: Store, t: Store)
    requires Wf(s) && Stayed(s, t) && Numbered(t)
    ensures Wf(t)
  {
  }

  // ---- preservation ----

  lemma SlotFreeWf(s: Store, n: nat)
    requires Wf(s) && Home(s, n) == InHand
    ensures Moved(s, SlotFree(s, n), n, FreeList) && Wf(SlotFree(s, n))
  {
    MovedWf(s, SlotFree(s, n), n, FreeList);
  }

  lemma FrontendDisposeMoves(s: Store, g: nat, f: nat)
    requires Home(s, f) == FeList(g) && s.At(g).Grp?
    ensures Moved(s, FrontendDispose(s, g, f), f, FreeList)
  {
  }

  lemma FrontendDisposeWf(s: Store, g: nat, f: nat)
    requires Wf(s) && Home(s, f) == FeList(g)
    ensures Wf(FrontendDispose(s, g, f))
  {
    assert f in ListOf(s, FeList(g));
    FrontendDisposeMoves(s, g, f);
    MovedWf(s, FrontendDispose(s, g, f), f, FreeList);
  }

  /** Taking a backend that serves nobody off its list. */
  lemma BackendUnlinkMoves(s: Store, g: nat, b: nat)
    requires Home(s, b) == BeList(g) && s.At(g).Grp?
    ensures Moved(s, SlotFree(s.PutGr(g, s.Gr(g).(bes := Without(s.Gr(g).bes, b))), b), b, FreeList)
  {
  }

  lemma BackendUnlinkWf(s: Store, g: nat, b: nat)
    requires Wf(s) && Home(s, b) == BeList(g)
    ensures Wf(SlotFree(s.PutGr(g, s.Gr(g).(bes := Without(s.Gr(g).bes, b))), b))
  {
    assert b in ListOf(s, BeList(g));
    BackendUnlinkMoves(s, g, b);
    MovedWf(s, SlotFree(s.PutGr(g, s.Gr(g).(bes := Without(s.Gr(g).bes, b))), b), b, FreeList);
  }

  lemma RunningUnlinkMoves(s: Store, f: nat)
    requires Home(s, f) == RunList
    ensures Moved(s, SlotFree(s.(running := Without(s.running, f)), f), f, FreeList)
  {
  }

  lemma PutBeStays(s: Store, b: nat, v: Backend)
    requires Home(s, b) == BeList(v.grp)
    ensures forall k :: Home(s.PutBe(b, v), k) == Home(s, k)
    ensures forall id :: ListOf(s.PutBe(b, v), id) == ListOf(s, id)
  {
  }

  lemma PutBeWf(s: Store, b: nat, v: Backend)
    requires Wf(s) && Home(s, b) == BeList(v.grp)
    ensures Wf(s.PutBe(b, v))
  {
    PutBeStays(s, b, v);
  }

  lemma PutFeStays(s: Store, f: nat, v: Frontend)
    requires s.At(f).Fro? && v.loc == s.Fe(f).loc
    ensures forall k :: Home(s.PutFe(f, v), k) == Home(s, k)
    ensures forall id :: ListOf(s.PutFe(f, v), id) == ListOf(s, id)
  {
  }

  lemma PutFeWf(s: Store, f: nat, v: Frontend)
    requires Wf(s) && s.At(f).Fro? && v.loc == s.Fe(f).loc
    ensures Wf(s.PutFe(f, v))
  {
    PutFeStays(s, f, v);
  }

  lemma PutGrStays(s: Store, g: nat, v: Group)
    requires s.At(g).Grp? && v == s.Gr(g).(starting := v.starting, parent := v.parent)
    ensures forall k :: Home(s.PutGr(g, v), k) == Home(s, k)
    ensures forall id :: ListOf(s.PutGr(g, v), id) == ListOf(s, id)
  {
  }

  lemma PutGrWf(s: Store, g: nat, v: Group)
    requires Wf(s) && s.At(g).Grp? && v == s.Gr(g).(starting := v.starting, parent := v.parent)
    ensures Wf(s.PutGr(g, v))
  {
    PutGrStays(s, g, v);
  }

  lemma LiveWf(s: Store, live: set<nat>)
    requires Wf(s)
    ensures Wf(s.(live := live))
  {
    assert forall id :: ListOf(s.(live := live), id) == ListOf(s, id);
    assert forall k :: Home(s.(live := live), k) == Home(s, k);
  }

  lemma RemoveRunningWf(s: Store, f: nat)
    requires Wf(s) && Home(s, f) == RunList
    ensures Wf(RemoveRunning(s, f))
  {
    var b := s.Fe(f).backend;
    if b != 0 && s.Be(b).feRunning == f {
      assert s.At(f).Fro?;
      assert f != 0;
      PutBeWf(s, b, s.Be(b).(feRunning := b));
    }
    var s1 := if b != 0 && s.Be(b).feRunning == f then s.PutBe(b, s.Be(b).(feRunning := b)) else s;
    RunningUnlinkMoves(s1, f);
    MovedWf(s1, SlotFree(s1.(running := Without(s1.running, f)), f), f, FreeList);
  }

  lemma ExitedWf(s: Store, b: nat, onSig: bool, val: int)
    requires Wf(s) && s.At(b).Bck?
    requires s.Be(b).feRunning == 0 || s.Be(b).feRunning == b || Home(s, s.Be(b).feRunning) == RunList
    ensures Wf(Exited(s, b, onSig, val))
    ensures forall k :: Home(s, k) != RunList ==> Home(Exited(s, b, onSig, val), k) == Home(s, k)
    ensures forall id :: id != FreeList && id != RunList ==> ListOf(Exited(s, b, onSig, val), id) == ListOf(s, id)
  {
    var f := s.Be(b).feRunning;
    if f != 0 {
      PutBeStays(s, b, s.Be(b).(feRunning := b));
      PutBeWf(s, b, s.Be(b).(feRunning := b));
      if f != b {
        var s1 := s.PutBe(b, s.Be(b).(feRunning := b));
        var v := s1.Fe(f).(backend := 0, onSig := onSig, val := val);
        PutFeStays(s1, f, v);
        PutFeWf(s1, f, v);
        RemoveRunningWf(s1.PutFe(f, v), f);
        RunningUnlinkMoves(s1.PutFe(f, v), f);
      }
    }
  }

  // Allocation

  /** The result of an allocation, as the proofs below use it. */
  ghost predicate Fresh(s: Store, v: Slot, t: Store, n: nat) {
    && Home(s, n) in {FreeList, Nowhere}
    && t.free == Without(s.free, n) && (Home(s, n) == Nowhere ==> t.free == s.free)
    && t == s.(m := s.m[n := v], free := t.free, alloced := t.alloced)
  }

  /** Where an allocated slot comes from. */
  lemma AllocFrom(s: Store, v: Slot)
    requires Wf(s)
    ensures var (t, n) := SlotAlloc(s, v);
      n != 0 && Fresh(s, v, t, n) && (!v.Nil? ==> Numbered(t))
  {
    if s.free != [] {
      assert s.free == ListOf(s, FreeList);
      assert s.free[0] in ListOf(s, FreeList);
      assert Home(s, s.free[0]) == FreeList;
      WithoutAbsent(s.free[1..], s.free[0]);
    } else {
      WithoutAbsent(s.free, s.alloced + 1);
    }
  }

  lemma AllocFrontendWf(s: Store, v: Frontend)
    requires Wf(s) && v.loc == Hand
    ensures var (t, n) := SlotAlloc(s, Fro(v)); Wf(t) && Moved(s, t, n, InHand)
  {
    AllocFrom(s, Fro(v));
    var (t, n) := SlotAlloc(s, Fro(v));
    MovedWf(s, t, n, InHand);
  }

  lemma CreateSlotMoves(s: Store, g: nat, s1: Store, n: nat)
    requires s.At(g).Grp? && Fresh(s, Bck(Backend(0, 0, 0, g)), s1, n) && n !in s.Gr(g).bes
    ensures var s2 := s1.PutBe(n, s1.Be(n).(feRunning := n));
      Moved(s, s2.PutGr(g, s2.Gr(g).(bes := s2.Gr(g).bes + [n])), n, BeList(g))
  {
    var s2 := s1.PutBe(n, s1.Be(n).(feRunning := n));
    var t := s2.PutGr(g, s2.Gr(g).(bes := s2.Gr(g).bes + [n]));
    assert forall h :: t.Gr(h) == if h == g then s.Gr(g).(bes := s.Gr(g).bes + [n]) else s.Gr(h);
  }

  lemma CreateSlotWf(s: Store, g: nat)
    requires Wf(s) && s.At(g).Grp?
    ensures var (t, n) := CreateSlot(s, g); Wf(t) && Moved(s, t, n, BeList(g))
  {
    var v := Bck(Backend(0, 0, 0, g));
    AllocFrom(s, v);
    var (s1, n) := SlotAlloc(s, v);
    assert n !in ListOf(s, BeList(g));
    CreateSlotMoves(s, g, s1, n);
    MovedWf(s, CreateSlot(s, g).0, n, BeList(g));
  }

  lemma NewScriptMoves(s: Store, g: nat, key: Key, s1: Store, n: nat)
    requires s.At(g).Grp? && Fresh(s, Scr(key, g), s1, n) && n !in s.Gr(g).scripts
    ensures Moved(s, s1.PutGr(g, s1.Gr(g).(scripts := [n] + s1.Gr(g).scripts)), n, ScrList(g))
  {
    var t := s1.PutGr(g, s1.Gr(g).(scripts := [n] + s1.Gr(g).scripts));
    assert forall h :: t.Gr(h) == if h == g then s.Gr(g).(scripts := [n] + s.Gr(g).scripts) else s.Gr(h);
  }

  function NewScript(s: Store, g: nat, key: Key): (Store, nat) {
    var (s1, n) := SlotAlloc(s, Scr(key, g));
    (s1.PutGr(g, s1.Gr(g).(scripts := [n] + s1.Gr(g).scripts)), n)
  }

  lemma NewScriptWf(s: Store, g: nat, key: Key)
    requires Wf(s) && s.At(g).Grp?
    ensures var (t, n) := NewScript(s, g, key); Wf(t) && Moved(s, t, n, ScrList(g))
  {
    AllocFrom(s, Scr(key, g));
    var (s1, n) := SlotAlloc(s, Scr(key, g));
    assert n !in ListOf(s, ScrList(g));
    NewScriptMoves(s, g, key, s1, n);
    MovedWf(s, NewScript(s, g, key).0, n, ScrList(g));
  }

  // Whole groups

  lemma FreeAllEffect(s: Store, l: seq<nat>)
    requires NoDup(l) && NoDup(s.free)
    requires forall x :: x in l ==> s.At(x).Scr?
    requires forall n :: n in s.free ==> s.At(n).Free?
    ensures var t := FreeAll(s, l);
      && t == s.(m := t.m, free := t.free) && t.m.Keys == s.m.Keys
      && NoDup(t.free) && (forall n :: n in t.free <==> n in s.free || n in l)
      && (forall n :: t.At(n) == if n in l then Free else s.At(n))
    decreases |l|
  {
    if l != [] {
      ConsNoDup(s.free, l[0]);
      assert forall n :: n in l[1..] ==> n in l && n != l[0];
      FreeAllEffect(SlotFree(s, l[0]), l[1..]);
      assert forall n :: n in l <==> n == l[0] || n in l[1..];
    }
  }

  /** The scripts of a group all go to the free list. */
  function FreeScripts(s: Store, g: nat): Store {
    var s1 := FreeAll(s, s.Gr(g).scripts);
    s1.PutGr(g, s1.Gr(g).(scripts := []))
  }

  function FreeName(s: Store, g: nat): Store {
    var n := s.Gr(g).name;
    if n != 0 then (var t := SlotFree(s, n); t.PutGr(g, t.Gr(g).(name := 0))) else s
  }

  lemma FreeScriptsEffect(s: Store, g: nat)
    requires Wf(s) && s.At(g).Grp?
    ensures var t := FreeScripts(s, g);
      && t == s.(m := t.m, free := t.free) && t.m.Keys == s.m.Keys
      && NoDup(t.free) && (forall n :: n in t.free <==> n in s.free || n in s.Gr(g).scripts)
      && (forall n :: n !in s.Gr(g).scripts && n != g ==> t.At(n) == s.At(n))
      && t.At(g) == Grp(s.Gr(g).(scripts := []))
      && (forall n :: n in s.Gr(g).scripts ==> s.At(n).Scr? && t.At(n) == Free)
  {
    var l := s.Gr(g).scripts;
    assert l == ListOf(s, ScrList(g)) && s.free == ListOf(s, FreeList);
    forall x | x in l ensures s.At(x).Scr? { assert Home(s, x) == ScrList(g); }
    forall x | x in s.free ensures s.At(x).Free? { assert Home(s, x) == FreeList; }
    FreeAllEffect(s, l);
  }

  /** The slots of one list all go to the free list. */
  lemma EmptiedWf(s: Store, t: Store, id: ListId)
    requires Wf(s) && Numbered(t) && id != FreeList
    requires NoDup(t.free) && forall n :: n in t.free <==> n in s.free || n in ListOf(s, id)
    requires forall k :: Home(t, k) == if k in ListOf(s, id) then FreeList else Home(s, k)
    requires forall i :: i != FreeList ==> ListOf(t, i) == if i == id then [] else ListOf(s, i)
    ensures Wf(t)
  {
    assert t.free == ListOf(t, FreeList) && s.free == ListOf(s, FreeList);
    forall i, n | n in ListOf(t, i) ensures Home(t, n) == i {
      if i == FreeList {
        assert n in s.free || n in ListOf(s, id);
        if n !in ListOf(s, id) { assert Home(s, n) == FreeList; }
      } else {
        assert i != id && n in ListOf(s, i);
        assert Home(s, n) == i;
      }
    }
  }

  lemma FreeScriptsShape(s: Store, t: Store, g: nat)
    requires s.At(g).Grp? && t == s.(m := t.m, free := t.free) && g !in s.Gr(g).scripts
    requires forall n :: n !in s.Gr(g).scripts && n != g ==> t.At(n) == s.At(n)
    requires t.At(g) == Grp(s.Gr(g).(scripts := []))
    requires forall n :: n in s.Gr(g).scripts ==> s.At(n).Scr? && t.At(n) == Free
    ensures forall k :: Home(t, k) == if k in s.Gr(g).scripts then FreeList else Home(s, k)
    ensures forall id :: id != FreeList ==> ListOf(t, id) == if id == ScrList(g) then [] else ListOf(s, id)
  {
  }

  lemma FreeScriptsWf(s: Store, g: nat)
    requires Wf(s) && s.At(g).Grp?
    ensures Wf(FreeScripts(s, g))
  {
    var l, t := s.Gr(g).scripts, FreeScripts(s, g);
    assert l == ListOf(s, ScrList(g));
    FreeScriptsEffect(s, g);
    assert g !in l by { assert g in l ==> s.At(g).Scr?; }
    FreeScriptsShape(s, t, g);
    EmptiedWf(s, t, ScrList(g));
  }

  lemma FreeNameEffect(s: Store, g: nat)
    requires Wf(s) && s.At(g).Grp?
    ensures var t := FreeName(s, g);
      && t == s.(m := t.m, free := t.free) && t.m.Keys == s.m.Keys
      && (forall n :: n != s.Gr(g).name && n != g ==> t.At(n) == s.At(n))
      && t.At(g) == Grp(s.Gr(g).(name := 0))
      && (s.Gr(g).name != 0 ==> s.At(s.Gr(g).name).Nam? && t.At(s.Gr(g).name) == Free)
  {
    var n := s.Gr(g).name;
    if n != 0 {
      assert n in ListOf(s, NameOf(g)) && Home(s, n) == NameOf(g);
    }
  }

  lemma FreeNameMoves(s: Store, g: nat)
    requires s.At(g).Grp? && s.Gr(g).name != 0 && Home(s, s.Gr(g).name) == NameOf(g)
    ensures Moved(s, FreeName(s, g), s.Gr(g).name, FreeList)
  {
    assert Without([s.Gr(g).name], s.Gr(g).name) == [];
  }

  lemma FreeNameWf(s: Store, g: nat)
    requires Wf(s) && s.At(g).Grp?
    ensures Wf(FreeName(s, g))
  {
    var n := s.Gr(g).name;
    if n != 0 {
      assert n in ListOf(s, NameOf(g)) && Home(s, n) == NameOf(g);
      FreeNameMoves(s, g);
      MovedWf(s, FreeName(s, g), n, FreeList);
    }
  }

  lemma MoveTailEffect(l: seq<nat>, x: nat)
    requires NoDup(l) && x in l
    ensures NoDup(MoveTail(l, x)) && forall y :: y in MoveTail(l, x) <==> y in l
  {
    WithoutNoDup(l, x);
    SnocNoDup(Without(l, x), x);
  }

  lemma MoveHeadEffect(l: seq<nat>, x: nat)
    requires NoDup(l) && x in l
    ensures NoDup(MoveHead(l, x)) && forall y :: y in MoveHead(l, x) <==> y in l
  {
    WithoutNoDup(l, x);
    ConsNoDup(Without(l, x), x);
  }

  lemma GroupsWf(s: Store, l: seq<nat>)
    requires Wf(s) && NoDup(l) && forall g :: g in l <==> g in s.groups
    ensures Wf(s.(groups := l))
  {
    var t := s.(groups := l);
    assert forall k :: Home(t, k) == Home(s, k);
    assert forall id :: id != GroupList ==> ListOf(t, id) == ListOf(s, id);
    assert ListOf(t, GroupList) == l && ListOf(s, GroupList) == s.groups;
    StayedWf(s, t);
  }

  lemma InvalidateSteps(s: Store, g: nat)
    requires Wf(s) && s.At(g).Grp? && s.Valid(g)
    ensures var t := FreeName(FreeScripts(s, g), g); Invalidate(s, g) == t.(groups := MoveTail(t.groups, g))
  {
    FreeScriptsEffect(s, g);
  }

  lemma InvalidateWf(s: Store, g: nat)
    requires Wf(s) && s.At(g).Grp?
    ensures Wf(Invalidate(s, g))
  {
    if s.Valid(g) {
      InvalidateSteps(s, g);
      FreeScriptsWf(s, g);
      FreeScriptsEffect(s, g);
      FreeNameWf(FreeScripts(s, g), g);
      FreeNameEffect(FreeScripts(s, g), g);
      var t := FreeName(FreeScripts(s, g), g);
      assert ListOf(t, GroupList) == t.groups && Home(t, g) == GroupList;
      MoveTailEffect(t.groups, g);
      GroupsWf(t, MoveTail(t.groups, g));
    }
  }

  /** What invalidation leaves alone and what it takes away. */
  lemma InvalidateEffect(s: Store, g: nat)
    requires Wf(s) && s.At(g).Grp?
    ensures var t := Invalidate(s, g);
      && t == s.(m := t.m, free := t.free, groups := t.groups)
      && (forall n :: n != g && !s.At(n).Scr? && !s.At(n).Nam? ==> t.At(n) == s.At(n))
      && (forall n :: n != g ==> t.At(n) == s.At(n) || (t.At(n) == Free && Home(s, n) in {ScrList(g), NameOf(g)}))
      && t.At(g) == Grp(if s.Valid(g) then s.Gr(g).(scripts := [], name := 0) else s.Gr(g))
      && t.groups == if s.Valid(g) then MoveTail(s.groups, g) else s.groups
  {
    if s.Valid(g) {
      InvalidateSteps(s, g);
      FreeScriptsWf(s, g);
      FreeScriptsEffect(s, g);
      forall n | n in s.Gr(g).scripts ensures Home(s, n) == ScrList(g) {
        assert n in ListOf(s, ScrList(g));
      }
      FreeNameEffect(FreeScripts(s, g), g);
      if s.Gr(g).name != 0 {
        assert s.Gr(g).name in ListOf(s, NameOf(g));
      }
    }
  }

  lemma GroupUnlinkMoves(s: Store, g: nat)
    requires s.At(g).Grp? && s.Gr(g).bes == [] && s.Gr(g).fes == [] && s.Gr(g).scripts == [] && s.Gr(g).name == 0
    ensures Moved(s, SlotFree(s.(groups := Without(s.groups, g)), g), g, FreeList)
  {
  }

  lemma CleanupWf(s: Store, g: nat, self: nat)
    requires Wf(s) && s.At(g).Grp? && (!s.Valid(g) ==> s.Gr(g).name == 0)
    ensures Wf(Cleanup(s, g, self))
  {
    if s.Gr(g).bes == [] && s.Gr(g).fes == [] {
      var s1 := s.(live := s.live - ({s.Gr(g).parent} - {self}));
      LiveWf(s, s1.live);
      InvalidateWf(s1, g);
      InvalidateEffect(s1, g);
      GroupUnlinkMoves(Invalidate(s1, g), g);
      MovedWf(Invalidate(s1, g), Cleanup(s, g, self), g, FreeList);
    }
  }

  lemma NewGroupMoves(s: Store, s1: Store, g: nat)
    requires Fresh(s, Grp(NO_GROUP), s1, g)
    requires g !in s.m || !s.m[g].Grp?
    ensures Moved(s, s1.(groups := [g] + s1.groups), g, GroupList)
  {
  }

  lemma NewNameMoves(s: Store, text: string, g: nat, s1: Store, n: nat)
    requires s.At(g).Grp? && s.Gr(g).name == 0 && n != 0 && Fresh(s, Nam(text, g), s1, n)
    ensures Moved(s, s1.PutGr(g, s1.Gr(g).(name := n)), n, NameOf(g))
  {
    var t := s1.PutGr(g, s1.Gr(g).(name := n));
    assert forall h :: t.Gr(h) == if h == g then s.Gr(g).(name := n) else s.Gr(h);
  }

  lemma NewGroupWf(s: Store)
    requires Wf(s)
    ensures var (s1, g) := SlotAlloc(s, Grp(NO_GROUP)); var t := s1.(groups := [g] + s1.groups);
      Wf(t) && g != 0 && Fresh(s, Grp(NO_GROUP), s1, g) && t.At(g) == Grp(NO_GROUP)
  {
    AllocFrom(s, Grp(NO_GROUP));
    var (s1, g) := SlotAlloc(s, Grp(NO_GROUP));
    NewGroupMoves(s, s1, g);
    MovedWf(s, s1.(groups := [g] + s1.groups), g, GroupList);
  }

  lemma NewNameWf(s: Store, text: string, g: nat)
    requires Wf(s) && s.At(g).Grp? && s.Gr(g).name == 0
    ensures var (s1, n) := SlotAlloc(s, Nam(text, g));
      Wf(s1.PutGr(g, s1.Gr(g).(name := n))) && n != 0 && n != g && Fresh(s, Nam(text, g), s1, n)
  {
    AllocFrom(s, Nam(text, g));
    var (s1, n) := SlotAlloc(s, Nam(text, g));
    NewNameMoves(s, text, g, s1, n);
    MovedWf(s, s1.PutGr(g, s1.Gr(g).(name := n)), n, NameOf(g));
  }

  lemma GroupCreateWf(s: Store, opt: GroupOpt)
    requires Wf(s)
    ensures Wf(GroupCreate(s, opt).0) && GroupCreate(s, opt).0.At(GroupCreate(s, opt).1).Grp?
  {
    NewGroupWf(s);
    var (s1, g) := SlotAlloc(s, Grp(NO_GROUP));
    if opt.Named? { NewNameWf(s1.(groups := [g] + s1.groups), Clip(opt.text), g); }
  }

  /** A new group is empty, heads the group list and took only slots that were not in use. */
  lemma GroupCreateEffect(s: Store, opt: GroupOpt)
    requires Wf(s)
    ensures var (t, g) := GroupCreate(s, opt);
      && g != 0 && t.groups == [g] + s.groups && t.running == s.running && t.live == s.live
      && t.Gr(g) == NO_GROUP.(name := t.Gr(g).name) && (t.Gr(g).name == 0 <==> opt.Single?)
      && Home(s, g) in {FreeList, Nowhere}
      && (forall k :: t.At(k) == s.At(k) || k == g || (opt.Named? && k == t.Gr(g).name))
      && (opt.Named? ==> t.At(t.Gr(g).name) == Nam(Clip(opt.text), g) && Home(s, t.Gr(g).name) in {FreeList, Nowhere})
  {
    NewGroupWf(s);
    var (s1, g) := SlotAlloc(s, Grp(NO_GROUP));
    if opt.Named? { NewNameWf(s1.(groups := [g] + s1.groups), Clip(opt.text), g); }
  }

  // Lists put in another order, slots joining and leaving a queue

  lemma ReorderBesWf(s: Store, g: nat, l: seq<nat>)
    requires Wf(s) && s.At(g).Grp? && NoDup(l) && forall b :: b in l <==> b in s.Gr(g).bes
    ensures Wf(s.PutGr(g, s.Gr(g).(bes := l)))
  {
    var t := s.PutGr(g, s.Gr(g).(bes := l));
    assert forall id :: ListOf(t, id) == if id == BeList(g) then l else ListOf(s, id);
    assert ListOf(s, BeList(g)) == s.Gr(g).bes;
    StayedWf(s, t);
  }

  lemma ReorderScriptsWf(s: Store, g: nat, l: seq<nat>)
    requires Wf(s) && s.At(g).Grp? && NoDup(l) && forall b :: b in l <==> b in s.Gr(g).scripts
    ensures Wf(s.PutGr(g, s.Gr(g).(scripts := l)))
  {
    var t := s.PutGr(g, s.Gr(g).(scripts := l));
    assert forall id :: ListOf(t, id) == if id == ScrList(g) then l else ListOf(s, id);
    assert ListOf(s, ScrList(g)) == s.Gr(g).scripts;
    StayedWf(s, t);
  }
}
