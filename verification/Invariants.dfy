/** What holds of the store at every unlock, besides conservation, and the frames by which
    an operation that leaves one part of the store alone keeps the invariants of that part. */
module Invariants {
  import opened Lists
  import opened Store
  import opened Conservation

  predicate IsBe(s: Store, b: nat) { b in s.m && s.m[b].Bck? }
  predicate IsRun(s: Store, f: nat) { f in s.m && s.m[f].Fro? && s.m[f].fe.loc == Run }
  predicate IsQueued(s: Store, f: nat) { f in s.m && s.m[f].Fro? && s.m[f].fe.loc.Queue? }
  predicate IsGr(s: Store, g: nat) { g in s.m && s.m[g].Grp? }

  /** A backend serves nobody (0), itself (busy, unobserved) or the running frontend that
      points back; a running frontend points to no backend or to one that points back. */
  ghost predicate Bound(s: Store) {
    && (forall b, f {:trigger s.m[b].be, s.m[f].fe} {:trigger IsBe(s, b), IsRun(s, f)} :: IsBe(s, b) && IsRun(s, f) ==>
          (s.m[b].be.feRunning == f <==> s.m[f].fe.backend == b))
    && (forall b {:trigger s.m[b].be} {:trigger IsBe(s, b)} :: IsBe(s, b) ==>
          s.m[b].be.feRunning == 0 || s.m[b].be.feRunning == b || IsRun(s, s.m[b].be.feRunning))
    && (forall f {:trigger s.m[f].fe} {:trigger IsRun(s, f)} :: IsRun(s, f) ==>
        s.m[f].fe.backend == 0 || IsBe(s, s.m[f].fe.backend))
    && (forall f {:trigger s.m[f].fe} {:trigger IsQueued(s, f)} :: IsQueued(s, f) ==> s.m[f].fe.backend == 0)
  }

  /** a may stand before b in a backend list: waiting ones first, most mature first. */
  predicate Ordered(s: Store, a: nat, b: nat) {
    s.Be(b).feRunning != 0 || (s.Be(a).feRunning == 0 && s.Be(a).maturity >= s.Be(b).maturity)
  }

  /** Every backend list is sorted, not counting backend x, which the lock holder has grabbed. */
  ghost predicate Sorted(s: Store, x: nat) {
    forall g, a, b :: Precedes(s.Gr(g).bes, a, b) && a != x && b != x ==> Ordered(s, a, b)
  }

  /** Only the head of a frontend queue may have been signalled. */
  ghost predicate SentAtHead(s: Store) {
    forall g, a, b :: Precedes(s.Gr(g).fes, a, b) ==> !s.Fe(b).sent
  }

  ghost predicate WithinMax(s: Store, max: nat) {
    max != 0 ==> forall g :: |s.Gr(g).bes| <= max
  }

  // The script index

  predicate IsScr(s: Store, x: nat) { x in s.m && s.m[x].Scr? }

  /** The text of the name slot of a group. */
  function NameText(s: Store, g: nat): string {
    var n := s.Gr(g).name;
    if n != 0 && s.At(n).Nam? then s.At(n).text else ""
  }

  predicate SameFile(s: Store, x: nat, y: nat) {
    IsScr(s, x) && IsScr(s, y) && s.m[x].key.dev == s.m[y].key.dev && s.m[x].key.ino == s.m[y].key.ino
  }

  /** Valid groups come before invalid ones; only valid groups are named and no two alike;
      no group lists a file twice. */
  ghost predicate Indexed(s: Store) {
    && (forall a, b :: Precedes(s.groups, a, b) && s.Valid(b) ==> s.Valid(a))
    && (forall g :: s.Gr(g).name != 0 ==> s.Valid(g))
    && (forall a, b :: a != b && s.Gr(a).name != 0 && s.Gr(b).name != 0 ==> NameText(s, a) != NameText(s, b))
    && (forall g, x, y :: x in s.Gr(g).scripts && y in s.Gr(g).scripts && x != y ==> !SameFile(s, x, y))
  }

  /** The invariant of a critical section in which backend x is grabbed (0: none). */
  ghost predicate Inv(s: Store, x: nat, max: nat) {
    Wf(s) && Bound(s) && Sorted(s, x) && SentAtHead(s) && WithinMax(s, max) && Indexed(s)
  }

  // ---- frames ----

  /** The backends and the lists they are on are the same. */
  ghost predicate SameBackends(s: Store, t: Store) {
    && (forall b {:trigger t.m[b].be} {:trigger s.m[b].be} {:trigger IsBe(t, b)} :: IsBe(t, b) <==> IsBe(s, b))
    && (forall b {:trigger t.m[b].be} {:trigger IsBe(t, b)} :: IsBe(t, b) ==> t.m[b].be == s.m[b].be)
    && SameIdle(s, t)
  }

  /** The backend lists are the same, and which backends wait and how mature they are. */
  ghost predicate SameIdle(s: Store, t: Store) {
    && (forall b :: t.Be(b).feRunning == 0 <==> s.Be(b).feRunning == 0)
    && (forall b :: t.Be(b).maturity == s.Be(b).maturity)
    && (forall g :: t.Gr(g).bes == s.Gr(g).bes)
  }

  /** The running frontends are the same. */
  ghost predicate SameRunning(s: Store, t: Store) {
    && (forall f {:trigger t.m[f].fe} {:trigger s.m[f].fe} {:trigger IsRun(t, f)} :: IsRun(t, f) <==> IsRun(s, f))
    && (forall f {:trigger t.m[f].fe} {:trigger IsRun(t, f)} :: IsRun(t, f) ==> t.m[f].fe == s.m[f].fe)
  }

  /** The queued frontends and their queues are the same. */
  ghost predicate SameQueues(s: Store, t: Store) {
    && (forall f {:trigger t.m[f].fe} {:trigger s.m[f].fe} {:trigger IsQueued(t, f)} :: IsQueued(t, f) <==>
        IsQueued(s, f))
    && (forall f {:trigger t.m[f].fe} {:trigger IsQueued(t, f)} :: IsQueued(t, f) ==> t.m[f].fe == s.m[f].fe)
    && (forall g :: t.Gr(g).fes == s.Gr(g).fes)
  }

  /** The group list, the scripts and the names are the same. */
  ghost predicate SameIndex(s: Store, t: Store) {
    && t.groups == s.groups
    && (forall g :: t.Gr(g).scripts == s.Gr(g).scripts && t.Gr(g).name == s.Gr(g).name)
    && (forall x :: s.At(x).Scr? || s.At(x).Nam? ==> t.At(x) == s.At(x))
  }

  lemma BoundFrame(s: Store, t: Store)
    requires Bound(s) && SameBackends(s, t) && SameRunning(s, t)
    requires forall f :: IsQueued(t, f) ==> IsQueued(s, f) && t.m[f].fe.backend == s.m[f].fe.backend
    ensures Bound(t)
  {
  }

  lemma SortedFrame(s: Store, t: Store, x: nat)
    requires Sorted(s, x) && SameIdle(s, t)
    ensures Sorted(t, x)
  {
    forall g, a, b | Precedes(t.Gr(g).bes, a, b) && a != x && b != x ensures Ordered(t, a, b) {
      assert Precedes(s.Gr(g).bes, a, b);
      assert Ordered(s, a, b);
    }
  }

  lemma WithinMaxFrame(s: Store, t: Store, max: nat)
    requires WithinMax(s, max) && SameIdle(s, t)
    ensures WithinMax(t, max)
  {
  }

  lemma QueuedFe(s: Store, g: nat, f: nat)
    requires Wf(s) && f in s.Gr(g).fes
    ensures IsQueued(s, f) && s.m[f].fe.loc == Queue(g)
  {
    assert f in ListOf(s, FeList(g)) && Home(s, f) == FeList(g);
  }

  lemma SentFrame(s: Store, t: Store)
    requires Wf(s) && SentAtHead(s) && SameQueues(s, t)
    ensures SentAtHead(t)
  {
    forall g, a, b | Precedes(t.Gr(g).fes, a, b) ensures !t.Fe(b).sent {
      PrecedesIn(s.Gr(g).fes, a, b);
      QueuedFe(s, g, b);
    }
  }

  lemma ListedScr(s: Store, g: nat, x: nat)
    requires Wf(s) && x in s.Gr(g).scripts
    ensures IsScr(s, x) && s.m[x].sgrp == g && s.At(g).Grp?
  {
    assert x in ListOf(s, ScrList(g)) && Home(s, x) == ScrList(g);
  }

  lemma NameSlot(s: Store, g: nat)
    requires Wf(s) && s.Gr(g).name != 0
    ensures s.At(s.Gr(g).name).Nam? && s.At(s.Gr(g).name).ngrp == g && s.At(g).Grp?
  {
    assert s.Gr(g).name in ListOf(s, NameOf(g)) && Home(s, s.Gr(g).name) == NameOf(g);
  }

  lemma IndexedFrame(s: Store, t: Store)
    requires Wf(s) && Indexed(s) && SameIndex(s, t)
    ensures Indexed(t)
  {
    forall g | s.Gr(g).name != 0 ensures NameText(t, g) == NameText(s, g) { NameSlot(s, g); }
    forall g, x, y | x in t.Gr(g).scripts && y in t.Gr(g).scripts && x != y ensures !SameFile(t, x, y) {
      ListedScr(s, g, x);
      ListedScr(s, g, y);
      assert t.At(x) == s.At(x) && t.At(y) == s.At(y);
      assert !SameFile(s, x, y);
    }
  }
}
