/** The mapped temp file: slots with their links, the records in them, and the header fields.
    The store of module Store is what it stands for. The program's own code reads and writes the
    file; only proofs see the store, which is ghost. */
module Memory {
  import opened Lists
  import opened Store
  import Spec = Store
  import opened Conservation
  import opened SlotLinks

  /** What a slot in use holds besides its two links. */
  datatype Rec =
    | GrpRec(starting: nat, parent: nat, scriptHead: nat, name: nat, beHead: nat, beTail: nat, feHead: nat, feTail: nat)
    | BckRec(bePid: nat, feRunning: nat, maturity: nat)
    | FroRec(fePid: nat, backend: nat, sent: bool, onSig: bool, val: int)
    | ScrRec(key: Key)
    | NamRec(text: string)

  function RecOf(v: Slot): Rec {
    match v
    case Grp(g) => GrpRec(g.starting, g.parent, First(g.scripts), g.name, First(g.bes), Last(g.bes), First(g.fes),
        Last(g.fes))
    case Bck(b) => BckRec(b.pid, b.feRunning, b.maturity)
    case Fro(f) => FroRec(f.pid, f.backend, f.sent, f.onSig, f.val)
    case Scr(key, _) => ScrRec(key)
    case Nam(text, _) => NamRec(text)
    case _ => NamRec("")
  }

  /** The numbers of the slots suffice. */
  predicate Enough(s: Store) { s.alloced < MAX_SLOTS }

  /** do_sort: negative, zero or positive as a goes before b, or not. */
  function SortRecs(a: Rec, b: Rec): int
    requires a.BckRec? && b.BckRec?
  {
    var diff := (if b.feRunning != 0 then 0 else 1) - (if a.feRunning != 0 then 0 else 1);
    if diff != 0 then diff else b.maturity - a.maturity
  }

  ghost function DoSort(a: Backend, b: Backend): int {
    SortRecs(RecOf(Bck(a)), RecOf(Bck(b)))
  }

  /** The lists that are linked both ways and have a head field. */
  predicate Real(id: ListId) { id.GroupList? || id.RunList? || id.BeList? || id.FeList? || id.ScrList? }

  predicate Tailed(id: ListId) { !id.ScrList? }

  /** The list has a place for its head: it is in the header, or its group is there. */
  predicate Placed(s: Store, id: ListId) {
    Real(id) && (id.BeList? || id.FeList? || id.ScrList? ==> s.At(id.g).Grp?)
  }

  function WithList(s: Store, id: ListId, l: seq<nat>): Store {
    match id
    case GroupList => s.(groups := l)
    case RunList => s.(running := l)
    case BeList(g) => s.PutGr(g, s.Gr(g).(bes := l))
    case FeList(g) => s.PutGr(g, s.Gr(g).(fes := l))
    case ScrList(g) => s.PutGr(g, s.Gr(g).(scripts := l))
    case _ => s
  }

  /** Every list of the store is a chain of the links, and the lists share no slot. */
  ghost predicate Linked(s: Store, nx: seq<nat>, pv: seq<nat>) {
    && FreeChain(nx, pv, s.free, s.alloced)
    && (forall id {:trigger ListOf(s, id)} :: id != FreeList ==> Chain(nx, pv, ListOf(s, id)))
    && Separate(s)
  }

  ghost predicate Separate(s: Store) {
    && (forall id, k :: k in ListOf(s, id) ==> 0 < k <= s.alloced)
    && (forall id1, id2, k :: k in ListOf(s, id1) && k in ListOf(s, id2) ==> id1 == id2)
  }

  /** Slot n is on no list. */
  ghost predicate Unlisted(s: Store, n: nat) { forall id :: n !in ListOf(s, id) }

  /** The slots of the file and what the free ones hold. */
  ghost predicate Counted(s: Store) {
    (forall n :: n in s.m <==> 0 < n <= s.alloced) && (forall n :: n in s.free ==> s.At(n) == Free)
  }

  lemma LinkedStays(s: Store, t: Store, nx: seq<nat>, pv: seq<nat>)
    requires Linked(s, nx, pv) && t.alloced == s.alloced && forall id :: ListOf(t, id) == ListOf(s, id)
    ensures Linked(t, nx, pv)
  {
    assert ListOf(t, FreeList) == ListOf(s, FreeList);
    forall id | id != FreeList ensures Chain(nx, pv, ListOf(t, id)) { assert Chain(nx, pv, ListOf(s, id)); }
  }

  lemma ListsWith(s: Store, id: ListId, l: seq<nat>)
    requires Placed(s, id)
    ensures var t := WithList(s, id, l);
      t.alloced == s.alloced && t.free == s.free && t.live == s.live
      && forall k :: ListOf(t, k) == if k == id then l else ListOf(s, k)
  {
  }

  /** One list is relinked: the others stay linked as they are. */
  lemma LinkedWith(s: Store, id: ListId, l: seq<nat>, n: nat, nx: seq<nat>, pv: seq<nat>, nx1: seq<nat>, pv1: seq<nat>)
    requires Linked(s, nx, pv) && Placed(s, id) && 0 < n <= s.alloced && n !in s.free
    requires forall k :: k != id ==> n !in ListOf(s, k)
    requires Chain(nx1, pv1, l) && FreeChain(nx1, pv1, s.free, s.alloced) && Changes(nx, pv, nx1, pv1, ListOf(s, id), n)
    requires forall k :: k in l ==> k == n || k in ListOf(s, id)
    ensures Linked(WithList(s, id, l), nx1, pv1)
  {
    var t := WithList(s, id, l);
    ListsWith(s, id, l);
    hide WithList;
    forall k | k != FreeList ensures Chain(nx1, pv1, ListOf(t, k)) {
      if k != id {
        hide Chain, Changes;
        assert Chain(nx, pv, ListOf(s, k));
        OthersStay(nx, pv, nx1, pv1, ListOf(s, id), n, ListOf(s, k));
      }
    }
    SeparateWith(s, t, id, l, n);
  }

  lemma SeparateWith(s: Store, t: Store, id: ListId, l: seq<nat>, n: nat)
    requires Separate(s) && t.alloced == s.alloced && 0 < n <= s.alloced
    requires forall k :: ListOf(t, k) == if k == id then l else ListOf(s, k)
    requires forall k :: k != id ==> n !in ListOf(s, k)
    requires forall k :: k in l ==> k == n || k in ListOf(s, id)
    ensures Separate(t)
  {
    hide ListOf;
  }

  /** A slot that is on no list is freed. */
  lemma LinkedFreed(s: Store, n: nat, nx: seq<nat>, pv: seq<nat>)
    requires Linked(s, nx, pv) && 0 < n <= s.alloced && Unlisted(s, n)
    requires s.At(n).Grp? ==> s.Gr(n) == NO_GROUP.(starting := s.Gr(n).starting, parent := s.Gr(n).parent)
    ensures Linked(Spec.SlotFree(s, n), nx[n := First(s.free)], pv[n := n])
  {
    var t := Spec.SlotFree(s, n);
    var nx1, pv1 := nx[n := First(s.free)], pv[n := n];
    assert n !in ListOf(s, FreeList);
    assert forall k :: ListOf(t, k) == if k == FreeList then [n] + s.free else ListOf(s, k);
    PushFree(nx, pv, s.free, s.alloced, n);
    forall k | k != FreeList ensures Chain(nx1, pv1, ListOf(t, k)) {
      assert Chain(nx, pv, ListOf(s, k)) && n !in ListOf(s, k);
      ChainElsewhere(nx, pv, n, First(s.free), n, ListOf(s, k));
    }
    SeparateWith(s, t, FreeList, [n] + s.free, n);
  }

  lemma CountedFreed(s: Store, n: nat)
    requires Counted(s) && n in s.m && Unlisted(s, n)
    ensures n !in s.free && 0 < n <= s.alloced && Counted(Spec.SlotFree(s, n))
  {
    assert n !in ListOf(s, FreeList);
  }

  lemma ChainElsewhere(nx: seq<nat>, pv: seq<nat>, n: nat, a: nat, b: nat, l: seq<nat>)
    requires Chain(nx, pv, l) && n !in l && n < |nx|
    ensures Chain(nx[n := a], pv[n := b], l)
  {
    forall i | 0 <= i < |l| ensures l[i] != n { assert l[i] in l; }
  }

  /** A slot is taken into use; its links are cleared. */
  lemma LinkedAlloced(s: Store, v: Slot, t: Store, n: nat, nx: seq<nat>, pv: seq<nat>)
    requires Linked(s, nx, pv) && Counted(s) && (v.Grp? ==> v.gr == NO_GROUP)
    requires (t, n) == Spec.SlotAlloc(s, v) && 0 < n < |nx| && FreeChain(nx[n := 0], pv[n := 0], t.free, t.alloced)
    ensures Linked(t, nx[n := 0], pv[n := 0]) && Unlisted(t, n) && Counted(t)
  {
    AllocedLists(s, v, t, n);
    SeparateTaken(s, t);
    hide Counted, Spec.SlotAlloc;
    forall k | k != FreeList ensures Chain(nx[n := 0], pv[n := 0], ListOf(t, k)) {
      assert Chain(nx, pv, ListOf(s, k));
      ChainElsewhere(nx, pv, n, 0, 0, ListOf(s, k));
    }
  }

  lemma SeparateTaken(s: Store, t: Store)
    requires Separate(s) && t.alloced >= s.alloced && forall k :: k in t.free ==> k in s.free
    requires forall k :: ListOf(t, k) == if k == FreeList then t.free else ListOf(s, k)
    ensures Separate(t)
  {
    assert ListOf(s, FreeList) == s.free;
    hide ListOf;
    forall id, k | k in ListOf(t, id) ensures k in ListOf(s, id) { }
  }

  lemma AllocedLists(s: Store, v: Slot, t: Store, n: nat)
    requires Separate(s) && Counted(s) && Distinct(s.free) && (v.Grp? ==> v.gr == NO_GROUP)
        && (t, n) == Spec.SlotAlloc(s, v)
    ensures forall k :: ListOf(t, k) == if k == FreeList then t.free else ListOf(s, k)
    ensures forall k :: k in t.free ==> k in s.free && k != n
    ensures t.alloced >= s.alloced && Counted(t) && Unlisted(t, n) && forall k :: k != FreeList ==> n !in ListOf(s, k)
  {
    assert s.free != [] ==> s.free[0] in ListOf(s, FreeList);
    assert !s.At(n).Grp?;
  }

  lemma LinkedDetached(s: Store, id: ListId, nx: seq<nat>, pv: seq<nat>)
    requires Linked(s, nx, pv) && Placed(s, id)
    ensures var t := WithList(s, id, []); Linked(t, nx, pv) && forall n :: n in ListOf(s, id) ==> Unlisted(t, n)
  {
    var t := WithList(s, id, []);
    ListsWith(s, id, []);
    hide WithList;
    forall k | k != FreeList ensures Chain(nx, pv, ListOf(t, k)) { assert k != id ==> Chain(nx, pv, ListOf(s, k)); }
  }

  lemma LinkedUnnamed(s: Store, g: nat, nx: seq<nat>, pv: seq<nat>)
    requires Linked(s, nx, pv) && s.At(g).Grp?
    ensures var t := s.PutGr(g, s.Gr(g).(name := 0));
      Linked(t, nx, pv) && (s.Gr(g).name != 0 ==> Unlisted(t, s.Gr(g).name))
  {
    var t := s.PutGr(g, s.Gr(g).(name := 0));
    assert forall k :: ListOf(t, k) == if k == NameOf(g) then [] else ListOf(s, k);
    forall k | k != FreeList ensures Chain(nx, pv, ListOf(t, k)) {
      assert k != NameOf(g) ==> Chain(nx, pv, ListOf(s, k));
    }
    assert s.Gr(g).name != 0 ==> s.Gr(g).name in ListOf(s, NameOf(g));
  }

  lemma LinkedNamed(s: Store, g: nat, n: nat, nx: seq<nat>, pv: seq<nat>)
    requires Linked(s, nx, pv) && s.At(g).Grp? && Unlisted(s, n) && 0 < n <= s.alloced && nx[n] == 0 && pv[n] == 0
    ensures Linked(s.PutGr(g, s.Gr(g).(name := n)), nx, pv)
  {
    var t := s.PutGr(g, s.Gr(g).(name := n));
    assert forall k :: ListOf(t, k) == if k == NameOf(g) then [n] else ListOf(s, k);
    forall k | k != FreeList ensures Chain(nx, pv, ListOf(t, k)) {
      assert k != NameOf(g) ==> Chain(nx, pv, ListOf(s, k));
    }
  }

  lemma NoZeroIn(s: Store, id: ListId)
    requires Separate(s)
    ensures var l := ListOf(s, id); 0 !in l && (First(l) == 0 <==> l == []) && (Last(l) == 0 <==> l == [])
  {
    var l := ListOf(s, id);
    assert l != [] ==> l[0] in l && l[|l| - 1] in l;
  }

  lemma NotFree(s: Store, n: nat)
    requires Unlisted(s, n)
    ensures n !in s.free
  {
    assert n !in ListOf(s, FreeList);
  }

  lemma StaysUnlisted(s: Store, n: nat, k: nat)
    requires Unlisted(s, k) && k != n && !s.At(n).Grp?
    ensures Unlisted(Spec.SlotFree(s, n), k)
  {
    forall id ensures k !in ListOf(Spec.SlotFree(s, n), id) { assert k !in ListOf(s, id); }
  }

  lemma {:induction false} FreeAllAfter(s: Store, l: seq<nat>, g: nat, v: Group)
    requires g !in l
    ensures FreeAll(s.PutGr(g, v), l) == FreeAll(s, l).PutGr(g, v) && FreeAll(s, l).At(g) == s.At(g)
    decreases |l|
  {
    if l != [] {
      assert Spec.SlotFree(s.PutGr(g, v), l[0]) == Spec.SlotFree(s, l[0]).PutGr(g, v);
      FreeAllAfter(Spec.SlotFree(s, l[0]), l[1..], g, v);
    }
  }

  lemma FreeNameIs(s: Store, g: nat)
    requires s.At(g).Grp? && s.Gr(g).name != 0 && s.Gr(g).name != g
    ensures Spec.SlotFree(s.PutGr(g, s.Gr(g).(name := 0)), s.Gr(g).name) == Conservation.FreeName(s, g)
    ensures Conservation.FreeName(s, g).At(g) == Grp(s.Gr(g).(name := 0))
  {
    assert Spec.SlotFree(s.PutGr(g, s.Gr(g).(name := 0)), s.Gr(g).name).m == Conservation.FreeName(s, g).m;
  }

  lemma FreeScriptsIs(s: Store, g: nat)
    requires g !in s.Gr(g).scripts
    ensures FreeAll(s.PutGr(g, s.Gr(g).(scripts := [])), s.Gr(g).scripts) == Conservation.FreeScripts(s, g)
    ensures FreeAll(s.PutGr(g, s.Gr(g).(scripts := [])), s.Gr(g).scripts).At(g) == Grp(s.Gr(g).(scripts := []))
  {
    FreeAllAfter(s, s.Gr(g).scripts, g, s.Gr(g).(scripts := []));
  }

  /** What following the links of a list gives. */
  lemma LinksAt(s: Store, id: ListId, n: nat, nx: seq<nat>, pv: seq<nat>)
    requires Linked(s, nx, pv) && id != FreeList && n in ListOf(s, id)
    ensures |nx| == |pv| && 0 < n < |nx| && nx[n] == NextIn(ListOf(s, id), n) && pv[n] == PrevIn(ListOf(s, id), n)
    ensures n !in s.free && 0 < n <= s.alloced
  {
    var l := ListOf(s, id);
    assert Chain(nx, pv, l);
    IndexIn(l, n);
    assert n in s.free ==> n in ListOf(s, FreeList);
  }

  class Mapped {
    const links: Links
    var recs: map<nat, Rec>
    var groupHead: nat
    var groupTail: nat
    var runHead: nat
    var runTail: nat
    /** The process ids for which kill(pid, 0) succeeds. */
    var live: set<nat>
    /** What the file stands for. */
    ghost var st: Store

    ghost function Objs(): set<object> { {this, links, links.next, links.prev} }

    /** The record of every slot in use, except perhaps that of slot `skip`, holds what the slot holds. */
    ghost predicate Shown(skip: nat)
      reads this
    {
      forall n :: n in st.m && n != skip && st.m[n] != Free ==> n in recs && recs[n] == RecOf(st.m[n])
    }

    ghost predicate Ends()
      reads this
    {
      groupHead == First(st.groups) && groupTail == Last(st.groups) && runHead == First(st.running)
          && runTail == Last(st.running)
    }

    ghost predicate ValidBut(skip: nat)
      reads Objs()
    {
      && links.Valid() && links.free == st.free && links.alloced == st.alloced && live == st.live
      && Counted(st) && Shown(skip) && Ends() && Linked(st, links.next[..], links.prev[..])
    }

    ghost predicate Valid()
      reads Objs()
    {
      ValidBut(0)
    }

    /** The mapped file has room for k more slots. */
    ghost predicate Room(k: nat)
      reads this
    {
      st.alloced + k < links.next.Length
    }

    /** A new file with room for this many slots. */
    constructor (slots: nat)
      ensures Valid() && st == EMPTY_STORE && links.next.Length == slots + 1 && fresh(Objs())
    {
      links := new Links(slots);
      recs, live, groupHead, groupTail, runHead, runTail := map[], {}, 0, 0, 0, 0;
      st := EMPTY_STORE;
      new;
      assert forall id :: ListOf(st, id) == [];
    }

    /** The file mapped anew, with room for this many slots. */
    constructor Remap(from: Mapped, slots: nat)
      requires from.Valid() && from.links.next.Length <= slots + 1
      ensures Valid() && st == from.st && links.next.Length == slots + 1 && fresh(Objs())
    {
      links := new Links.Extended(from.links, slots);
      recs, live := from.recs, from.live;
      groupHead, groupTail, runHead, runTail := from.groupHead, from.groupTail, from.runHead, from.runTail;
      st := from.st;
      new;
      forall id | id != FreeList ensures Chain(links.next[..], links.prev[..], ListOf(st, id)) {
        assert Chain(from.links.next[..], from.links.prev[..], ListOf(st, id));
        ChainExtends(from.links.next[..], from.links.prev[..], links.next[..], links.prev[..], ListOf(st, id));
      }
    }

    // ---- reading ----

    predicate Exists(pid: nat)
      requires Valid()
      reads Objs()
      ensures Exists(pid) == (pid in st.live)
    {
      pid in live
    }

    function Live(): (l: set<nat>)
      requires Valid()
      reads Objs()
      ensures l == st.live
    {
      live
    }

    function GrRec(g: nat): (r: Rec)
      requires Valid() && st.At(g).Grp?
      reads Objs()
      ensures r == RecOf(Grp(st.Gr(g)))
    {
      recs[g]
    }

    function BeRec(b: nat): (r: Rec)
      requires Valid() && st.At(b).Bck?
      reads Objs()
      ensures r == BckRec(st.Be(b).pid, st.Be(b).feRunning, st.Be(b).maturity)
    {
      recs[b]
    }

    function FeRec(f: nat): (r: Rec)
      requires Valid() && st.At(f).Fro?
      reads Objs()
      ensures r == FroRec(st.Fe(f).pid, st.Fe(f).backend, st.Fe(f).sent, st.Fe(f).onSig, st.Fe(f).val)
    {
      recs[f]
    }

    function ScriptKey(x: nat): (k: Key)
      requires Valid() && st.At(x).Scr?
      reads Objs()
      ensures k == st.At(x).key
    {
      recs[x].key
    }

    function NameAt(n: nat): (t: string)
      requires Valid() && st.At(n).Nam?
      reads Objs()
      ensures t == st.At(n).text
    {
      recs[n].text
    }

    function HeadOf(id: ListId): (h: nat)
      requires Valid() && Placed(st, id)
      reads Objs()
      ensures h == First(ListOf(st, id)) && (h == 0 <==> ListOf(st, id) == [])
    {
      NoZeroIn(st, id);
      match id
      case GroupList => groupHead
      case RunList => runHead
      case BeList(g) => GrRec(g).beHead
      case FeList(g) => GrRec(g).feHead
      case ScrList(g) => GrRec(g).scriptHead
    }

    function TailOf(id: ListId): (t: nat)
      requires Valid() && Placed(st, id) && Tailed(id)
      reads Objs()
      ensures t == Last(ListOf(st, id)) && (t == 0 <==> ListOf(st, id) == [])
    {
      NoZeroIn(st, id);
      match id
      case GroupList => groupTail
      case RunList => runTail
      case BeList(g) => GrRec(g).beTail
      case FeList(g) => GrRec(g).feTail
    }

    /** speedy_slot_next of a slot on a list; a slot that is free is on no such list. */
    function Next(ghost id: ListId, n: nat): (x: nat)
      requires Valid() && id != FreeList && n in ListOf(st, id)
      reads Objs()
      ensures x == NextIn(ListOf(st, id), n)
    {
      LinksAt(st, id, n, links.next[..], links.prev[..]);
      links.NextOf(n)
    }

    /** speedy_slot_prev of a slot on a list. */
    function Prev(ghost id: ListId, n: nat): (x: nat)
      requires Valid() && id != FreeList && n in ListOf(st, id)
      reads Objs()
      ensures x == PrevIn(ListOf(st, id), n)
    {
      LinksAt(st, id, n, links.next[..], links.prev[..]);
      links.PrevOf(n)
    }

    /** What do_sort compares the backend b with, as a test of where it goes. */
    function Sorter(b: nat): (stop: nat -> bool)
      requires Valid() && st.At(b).Bck?
      reads Objs()
      ensures forall c :: st.At(c).Bck? ==> stop(c) == (DoSort(st.Be(b), st.Be(c)) <= 0)
    {
      var r := recs;
      (c: nat) => b in r && c in r && r[b].BckRec? && r[c].BckRec? && SortRecs(r[b], r[c]) <= 0
    }

    // ---- records ----

    /** Records change, the lists do not. */
    ghost method Restore(s: Store)
      requires links.Valid() && links.free == s.free && links.alloced == s.alloced && live == s.live
      requires Linked(st, links.next[..], links.prev[..]) && Counted(st) && Ends()
      requires s.m.Keys == st.m.Keys && s == st.(m := s.m, live := s.live)
      requires forall id :: ListOf(s, id) == ListOf(st, id)
      requires forall n :: n in s.free ==> s.At(n) == Free
      requires forall n :: n in s.m && s.m[n] != Free ==> n in recs && recs[n] == RecOf(s.m[n])
      modifies this`st
      ensures Valid() && st == s
    {
      LinkedStays(st, s, links.next[..], links.prev[..]);
      st := s;
    }

    method SetStarting(g: nat, pid: nat)
      requires Valid() && st.At(g).Grp?
      modifies this
      ensures Valid() && st == old(st).PutGr(g, old(st).Gr(g).(starting := pid))
    {
      hide Linked;
      recs := recs[g := recs[g].(starting := pid)];
      Restore(st.PutGr(g, st.Gr(g).(starting := pid)));
    }

    method SetParent(g: nat, pid: nat)
      requires Valid() && st.At(g).Grp?
      modifies this
      ensures Valid() && st == old(st).PutGr(g, old(st).Gr(g).(parent := pid))
    {
      hide Linked;
      recs := recs[g := recs[g].(parent := pid)];
      Restore(st.PutGr(g, st.Gr(g).(parent := pid)));
    }

    method SetFeRunning(b: nat, f: nat)
      requires Valid() && st.At(b).Bck?
      modifies this
      ensures Valid() && st == old(st).PutBe(b, old(st).Be(b).(feRunning := f))
    {
      hide Linked;
      recs := recs[b := recs[b].(feRunning := f)];
      Restore(st.PutBe(b, st.Be(b).(feRunning := f)));
    }

    method SetMaturity(b: nat, m: nat)
      requires Valid() && st.At(b).Bck?
      modifies this
      ensures Valid() && st == old(st).PutBe(b, old(st).Be(b).(maturity := m))
    {
      hide Linked;
      recs := recs[b := recs[b].(maturity := m)];
      Restore(st.PutBe(b, st.Be(b).(maturity := m)));
    }

    method SetBePid(b: nat, pid: nat)
      requires Valid() && st.At(b).Bck?
      modifies this
      ensures Valid() && st == old(st).PutBe(b, old(st).Be(b).(pid := pid))
    {
      hide Linked;
      recs := recs[b := recs[b].(bePid := pid)];
      Restore(st.PutBe(b, st.Be(b).(pid := pid)));
    }

    method SetSent(f: nat, sent: bool)
      requires Valid() && st.At(f).Fro?
      modifies this
      ensures Valid() && st == old(st).PutFe(f, old(st).Fe(f).(sent := sent))
    {
      hide Linked;
      recs := recs[f := recs[f].(sent := sent)];
      Restore(st.PutFe(f, st.Fe(f).(sent := sent)));
    }

    method SetBackend(f: nat, b: nat)
      requires Valid() && st.At(f).Fro?
      modifies this
      ensures Valid() && st == old(st).PutFe(f, old(st).Fe(f).(backend := b))
    {
      hide Linked;
      recs := recs[f := recs[f].(backend := b)];
      Restore(st.PutFe(f, st.Fe(f).(backend := b)));
    }

    /** The frontend loses its backend and gets the exit status. */
    method SetExit(f: nat, onSig: bool, val: int)
      requires Valid() && st.At(f).Fro?
      modifies this
      ensures Valid() && st == old(st).PutFe(f, old(st).Fe(f).(backend := 0, onSig := onSig, val := val))
    {
      hide Linked;
      recs := recs[f := recs[f].(backend := 0)];
      recs := recs[f := recs[f].(onSig := onSig)];
      recs := recs[f := recs[f].(val := val)];
      Restore(st.PutFe(f, st.Fe(f).(backend := 0, onSig := onSig, val := val)));
    }

    /** Only the store records which list a frontend's slot is to be on. */
    ghost method SetLoc(f: nat, loc: Loc)
      requires Valid() && st.At(f).Fro?
      modifies this`st
      ensures Valid() && st == old(st).PutFe(f, old(st).Fe(f).(loc := loc))
    {
      Restore(st.PutFe(f, st.Fe(f).(loc := loc)));
    }

    /** A process comes into being. */
    method Born(pid: nat)
      requires Valid()
      modifies this
      ensures Valid() && st == old(st).(live := old(st).live + {pid})
    {
      live := live + {pid};
      Restore(st.(live := live));
    }

    /** A process is killed. */
    method Kill(pid: nat)
      requires Valid()
      modifies this
      ensures Valid() && st == old(st).(live := old(st).live - {pid})
    {
      live := live - {pid};
      Restore(st.(live := live));
    }

    // ---- lists ----

    /** The head and the tail field of a list. */
    method SetEnds(id: ListId, h: nat, t: nat, ghost l: seq<nat>)
      requires Placed(st, id) && Shown(0) && Ends() && Counted(st) && h == First(l) && (Tailed(id) ==> t == Last(l))
      modifies this
      ensures st == WithList(old(st), id, l) && live == old(live)
      ensures Shown(0) && Ends() && Counted(st)
    {
      ghost var s := WithList(st, id, l);
      match id {
        case GroupList => groupHead, groupTail := h, t;
        case RunList => runHead, runTail := h, t;
        case BeList(g) => recs := recs[g := recs[g].(beHead := h, beTail := t)];
        case FeList(g) => recs := recs[g := recs[g].(feHead := h, feTail := t)];
        case ScrList(g) => recs := recs[g := recs[g].(scriptHead := h)];
      }
      st := s;
    }

    /** What the operations of SlotLinks need to know of a list. */
    lemma IsListOf(id: ListId)
      requires Valid() && Placed(st, id)
      ensures var l := ListOf(st, id); links.Valid() && links.IsList(l, First(l), Last(l), Tailed(id)) && NoDup(l)
    {
      assert Chain(links.next[..], links.prev[..], ListOf(st, id));
      NoDupDistinct(ListOf(st, id));
      forall k | k in ListOf(st, id) ensures k !in st.free && k <= st.alloced {
        assert k in st.free ==> k in ListOf(st, FreeList);
      }
    }

    lemma LooseFor(id: ListId, n: nat)
      requires Valid() && n in st.m && Unlisted(st, n)
      ensures links.Loose(n, ListOf(st, id))
    {
      assert n !in ListOf(st, id) && n !in ListOf(st, FreeList);
    }

    /** The end of an operation on a list: the new ends are stored. */
    method Relink(id: ListId, h: nat, t: nat, ghost l: seq<nat>, ghost n: nat, ghost nx: seq<nat>, ghost pv: seq<nat>)
      requires Placed(st, id) && Shown(0) && Ends() && Counted(st) && live == st.live
      requires links.Valid() && links.free == st.free && links.alloced == st.alloced && Linked(st, nx, pv)
      requires links.IsList(l, h, t, Tailed(id)) && Changes(nx, pv, links.next[..], links.prev[..], ListOf(st, id), n)
      requires n in st.m && n !in st.free && forall k :: k != id ==> n !in ListOf(st, k)
      requires forall k :: k in l ==> k == n || k in ListOf(st, id)
      modifies this
      ensures Valid() && st == WithList(old(st), id, l)
    {
      LinkedWith(st, id, l, n, nx, pv, links.next[..], links.prev[..]);
      ListsWith(st, id, l);
      hide Linked;
      SetEnds(id, h, t, l);
    }

    method Remove(id: ListId, n: nat)
      requires Valid() && Placed(st, id) && n in ListOf(st, id)
      modifies Objs()
      ensures Valid() && st == WithList(old(st), id, Without(ListOf(old(st), id), n)) && Unlisted(st, n)
    {
      ghost var l, nx, pv := ListOf(st, id), links.next[..], links.prev[..];
      IsListOf(id);
      LinksAt(st, id, n, nx, pv);
      ListsWith(st, id, Without(l, n));
      hide Linked, Links.IsList, Changes;
      var h, t := links.Remove(n, HeadOf(id), if Tailed(id) then TailOf(id) else 0, Tailed(id), l);
      Relink(id, h, t, Without(l, n), n, nx, pv);
    }

    method Insert(id: ListId, n: nat)
      requires Valid() && Placed(st, id) && n in st.m && Unlisted(st, n)
      modifies Objs()
      ensures Valid() && st == WithList(old(st), id, [n] + ListOf(old(st), id))
    {
      ghost var l, nx, pv := ListOf(st, id), links.next[..], links.prev[..];
      IsListOf(id);
      LooseFor(id, n);
      assert n !in ListOf(st, FreeList);
      hide Linked, Links.IsList, Changes;
      var h, t := links.Insert(n, HeadOf(id), if Tailed(id) then TailOf(id) else 0, Tailed(id), l);
      Relink(id, h, t, [n] + l, n, nx, pv);
    }

    method Append(id: ListId, n: nat)
      requires Valid() && Placed(st, id) && Tailed(id) && n in st.m && Unlisted(st, n)
      modifies Objs()
      ensures Valid() && st == WithList(old(st), id, ListOf(old(st), id) + [n])
    {
      ghost var l, nx, pv := ListOf(st, id), links.next[..], links.prev[..];
      IsListOf(id);
      LooseFor(id, n);
      assert n !in ListOf(st, FreeList);
      hide Linked, Links.IsList, Changes;
      var h, t := links.Append(n, HeadOf(id), TailOf(id), l);
      Relink(id, h, t, l + [n], n, nx, pv);
    }

    /** `stop` holds of the slots that n is to come before. */
    method InsertSorted(id: ListId, n: nat, stop: nat -> bool)
      requires Valid() && Placed(st, id) && Tailed(id) && n in st.m && Unlisted(st, n)
      modifies Objs()
      ensures Valid() && st == WithList(old(st), id, InsertBefore(ListOf(old(st), id), n, stop))
    {
      ghost var l, nx, pv := ListOf(st, id), links.next[..], links.prev[..];
      IsListOf(id);
      LooseFor(id, n);
      assert n !in ListOf(st, FreeList);
      hide Linked, Links.IsList, Changes;
      var h, t := links.InsertSorted(n, HeadOf(id), TailOf(id), stop, l);
      Relink(id, h, t, InsertBefore(l, n, stop), n, nx, pv);
    }

    method ToHead(id: ListId, n: nat)
      requires Valid() && Placed(st, id) && n in ListOf(st, id)
      modifies Objs()
      ensures Valid() && st == WithList(old(st), id, MoveHead(ListOf(old(st), id), n))
    {
      ghost var l, nx, pv := ListOf(st, id), links.next[..], links.prev[..];
      IsListOf(id);
      LinksAt(st, id, n, nx, pv);
      hide Linked, Links.IsList, Changes;
      var h, t := links.MoveHead(n, HeadOf(id), if Tailed(id) then TailOf(id) else 0, Tailed(id), l);
      Relink(id, h, t, MoveHead(l, n), n, nx, pv);
    }

    method ToTail(id: ListId, n: nat)
      requires Valid() && Placed(st, id) && Tailed(id) && n in ListOf(st, id)
      modifies Objs()
      ensures Valid() && st == WithList(old(st), id, MoveTail(ListOf(old(st), id), n))
    {
      ghost var l, nx, pv := ListOf(st, id), links.next[..], links.prev[..];
      IsListOf(id);
      LinksAt(st, id, n, nx, pv);
      hide Linked, Links.IsList, Changes;
      var h, t := links.MoveTail(n, HeadOf(id), TailOf(id), l);
      Relink(id, h, t, MoveTail(l, n), n, nx, pv);
    }

    // ---- allocation ----

    /** speedy_slot_alloc: with room for one more slot, and numbers left, it does not abort. */
    method SlotAlloc(r: Rec, ghost v: Slot) returns (n: nat)
      requires Valid() && Room(1) && v != Nil && v != Free && (v.Grp? ==> v.gr == NO_GROUP) && r == RecOf(v)
      requires Enough(Spec.SlotAlloc(st, v).0)
      modifies Objs()
      ensures Valid() && (st, n) == Spec.SlotAlloc(old(st), v) && Unlisted(st, n)
      ensures links.next[n] == 0 && links.prev[n] == 0
    {
      TakenSlots(v);
      n := Take(v);
      hide Linked, Unlisted, Counted, Spec.SlotAlloc;
      recs := recs[n := r];
      TakenOver(v, n, Spec.SlotAlloc(st, v).0);
    }

    lemma TakenSlots(v: Slot)
      requires Valid()
      ensures var (t, n) := Spec.SlotAlloc(st, v);
        && n == (if st.free == [] then st.alloced + 1 else st.free[0])
        && t.free == (if st.free == [] then [] else st.free[1..])
        && t.alloced == (if st.free == [] then n else st.alloced)
        && t == st.(m := st.m[n := v], free := t.free, alloced := t.alloced)
    {
    }

    ghost method TakenOver(v: Slot, n: nat, t: Store)
      requires links.Valid() && links.free == t.free && links.alloced == t.alloced && live == st.live && Ends()
      requires t == st.(m := st.m[n := v], free := t.free, alloced := t.alloced)
      requires Counted(t) && Linked(t, links.next[..], links.prev[..])
      requires n in recs && recs[n] == RecOf(v)
      requires forall k :: k in st.m && k != n && st.m[k] != Free ==> k in recs && recs[k] == RecOf(st.m[k])
      modifies this`st
      ensures Valid() && st == t
    {
      hide Linked, Counted;
      st := t;
    }

    /** The slot taken and its links. */
    method Take(ghost v: Slot) returns (n: nat)
      requires Valid() && Room(1) && (v.Grp? ==> v.gr == NO_GROUP) && (st.free != [] || st.alloced + 1 < MAX_SLOTS)
      modifies links, links.next, links.prev
      ensures links.Valid() && n == if st.free == [] then st.alloced + 1 else st.free[0]
      ensures links.free == (if st.free == [] then [] else st.free[1..])
      ensures links.alloced == if st.free == [] then n else st.alloced
      ensures links.next[..] == old(links.next[..])[n := 0] && links.prev[..] == old(links.prev[..])[n := 0]
      ensures var t := Spec.SlotAlloc(st, v).0;
        Linked(t, links.next[..], links.prev[..]) && Unlisted(t, n) && Counted(t)
    {
      ghost var nx, pv := links.next[..], links.prev[..];
      Tidy(st.free);
      assert st.free != [] ==> st.free[0] in ListOf(st, FreeList);
      hide Linked;
      var none;
      n, none := links.Alloc();
      LinkedAlloced(st, v, Spec.SlotAlloc(st, v).0, n, nx, pv);
    }

    lemma Tidy(l: seq<nat>)
      requires Distinct(l)
      ensures l != [] ==> Without(l, l[0]) == l[1..] && forall k :: k in l[1..] ==> k in l && k != l[0]
    {
      if l != [] { WithoutAt(l, 0); }
    }

    /** speedy_slot_free of a slot that is on no list; a group has no list left. */
    method SlotFree(n: nat)
      requires Valid() && n in st.m && Unlisted(st, n)
      requires st.At(n).Grp? ==> st.Gr(n) == NO_GROUP.(starting := st.Gr(n).starting, parent := st.Gr(n).parent)
      modifies Objs()
      ensures Valid() && st == Spec.SlotFree(old(st), n)
    {
      FreeSlot(n, 0);
    }

    method FreeSlot(n: nat, ghost skip: nat)
      requires ValidBut(skip) && n in st.m && Unlisted(st, n)
      requires st.At(n).Grp? ==> st.Gr(n) == NO_GROUP.(starting := st.Gr(n).starting, parent := st.Gr(n).parent)
      modifies links, links.next, links.prev, this`st
      ensures ValidBut(skip) && st == Spec.SlotFree(old(st), n)
      ensures links.next[..] == old(links.next[..])[n := First(old(st).free)]
    {
      LinkedFreed(st, n, links.next[..], links.prev[..]);
      CountedFreed(st, n);
      hide Linked, Unlisted, Counted, ListOf;
      var refused := links.Free(n);
      st := Spec.SlotFree(st, n);
    }

    /** A group without a name slot gets one. */
    method SetName(g: nat, n: nat)
      requires Valid() && st.At(g).Grp? && n in st.m && Unlisted(st, n) && links.next[n] == 0 && links.prev[n] == 0
      modifies this
      ensures Valid() && st == old(st).PutGr(g, old(st).Gr(g).(name := n))
    {
      LinkedNamed(st, g, n, links.next[..], links.prev[..]);
      hide Linked, Unlisted;
      recs := recs[g := recs[g].(name := n)];
      st := st.PutGr(g, st.Gr(g).(name := n));
    }

    method FreeName(g: nat)
      requires Valid() && st.At(g).Grp? && (st.Gr(g).name != 0 ==> st.At(st.Gr(g).name).Nam?)
      modifies Objs()
      ensures Valid() && st == Conservation.FreeName(old(st), g)
    {
      var n := GrRec(g).name;
      if n != 0 {
        FreeNameIs(st, g);
        Unname(g);
        hide Linked, Conservation.FreeName;
        FreeSlot(n, g);
        recs := recs[g := recs[g].(name := 0)];
      }
    }

    /** The name of the group is on no list any more, though its record still shows it. */
    ghost method Unname(g: nat)
      requires Valid() && st.At(g).Grp? && st.Gr(g).name != 0 && st.At(st.Gr(g).name).Nam?
      modifies this`st
      ensures var n := old(st).Gr(g).name;
        && ValidBut(g) && st == old(st).PutGr(g, old(st).Gr(g).(name := 0)) && n in st.m && Unlisted(st, n)
        && !st.At(n).Grp? && g in recs && recs[g].GrpRec? && recs[g].(name := 0) == RecOf(st.At(g))
    {
      LinkedUnnamed(st, g, links.next[..], links.prev[..]);
      hide Linked, Unlisted;
      st := st.PutGr(g, st.Gr(g).(name := 0));
    }

    /** Slots l from position i on are chained, in use and on no list. */
    ghost predicate Pending(l: seq<nat>, i: nat)
      reads Objs()
    {
      i <= |l| && Distinct(l) && forall k :: i <= k < |l| ==>
        l[k] in st.m && st.m[l[k]].Scr? && Unlisted(st, l[k]) && l[k] < links.next.Length
            && links.next[l[k]] == After(l, k)
    }

    /** The scripts of the group are on no list any more, though its record still shows the first. */
    ghost method Detach(g: nat)
      requires Valid() && st.At(g).Grp? && forall x :: x in st.Gr(g).scripts ==> st.At(x).Scr?
      modifies this`st
      ensures ValidBut(g) && st == old(st).PutGr(g, old(st).Gr(g).(scripts := [])) && Pending(old(st).Gr(g).scripts, 0)
    {
      ghost var l := st.Gr(g).scripts;
      LinkedDetached(st, ScrList(g), links.next[..], links.prev[..]);
      assert Chain(links.next[..], links.prev[..], ListOf(st, ScrList(g)));
      hide Linked, Unlisted;
      forall k | 0 <= k < |l| ensures l[k] in l { }
      st := st.PutGr(g, st.Gr(g).(scripts := []));
    }

    /** One script slot is freed. The link to the next one is read before that overwrites it. */
    method FreeScript(g: nat, x: nat, ghost l: seq<nat>, ghost i: nat) returns (next: nat)
      requires ValidBut(g) && Pending(l, i) && i < |l| && x == l[i]
      modifies links, links.next, links.prev, this`st
      ensures ValidBut(g) && Pending(l, i + 1) && st == Spec.SlotFree(old(st), x) && next == After(l, i)
    {
      NotFree(st, x);
      RestUnlisted(l, i);
      hide Linked, Unlisted;
      next := links.NextOf(x);
      FreeSlot(x, g);
    }

    lemma RestUnlisted(l: seq<nat>, i: nat)
      requires Pending(l, i) && i < |l|
      ensures forall k :: i < k < |l| ==> Unlisted(Spec.SlotFree(st, l[i]), l[k])
    {
      forall k | i < k < |l| ensures Unlisted(Spec.SlotFree(st, l[i]), l[k]) { StaysUnlisted(st, l[i], l[k]); }
    }

    /** The loop over the scripts of a group, and the head field cleared after it. */
    method FreeScripts(g: nat)
      requires Valid() && st.At(g).Grp? && forall x :: x in st.Gr(g).scripts ==> st.At(x).Scr?
      modifies Objs()
      ensures Valid() && st == Conservation.FreeScripts(old(st), g)
    {
      ghost var s, l := st, st.Gr(g).scripts;
      var x := HeadOf(ScrList(g));
      ShownAt(g);
      FreeScriptsIs(s, g);
      hide ValidBut, Pending, Conservation.FreeScripts;
      Detach(g);
      FreeRest(g, x, l);
      ClearHead(g, s.Gr(g).(scripts := []));
    }

    lemma ShownAt(g: nat)
      requires Valid() && st.At(g).Grp?
      ensures g in recs && recs[g] == RecOf(Grp(st.Gr(g)))
    {
    }

    method ClearHead(g: nat, ghost v: Group)
      requires ValidBut(g) && st.At(g) == Grp(v) && v.scripts == []
      requires g in recs && recs[g].GrpRec? && recs[g].(scriptHead := 0) == RecOf(Grp(v))
      modifies this`recs
      ensures Valid()
    {
      hide Linked;
      recs := recs[g := recs[g].(scriptHead := 0)];
    }

    method FreeRest(g: nat, x0: nat, ghost l: seq<nat>)
      requires ValidBut(g) && Pending(l, 0) && x0 == First(l) && g !in l
      modifies links, links.next, links.prev, this`st
      ensures ValidBut(g) && st == FreeAll(old(st), l) && st.At(g) == old(st).At(g)
    {
      ghost var s := st;
      var x := x0;
      ghost var i: nat := 0;
      assert l[0..] == l;
      InUse(l);
      hide ValidBut, Pending;
      while x != 0
        invariant i <= |l| && x == if i < |l| then l[i] else 0
        invariant ValidBut(g) && Pending(l, i) && FreeAll(st, l[i..]) == FreeAll(s, l) && st.At(g) == s.At(g)
        decreases |l| - i
      {
        x := FreeScript(g, x, l, i);
        assert l[i..][1..] == l[i + 1..];
        i := i + 1;
      }
    }

    lemma InUse(l: seq<nat>)
      requires Counted(st) && Pending(l, 0)
      ensures forall k :: 0 <= k < |l| ==> l[k] != 0
    {
    }
  }
}
