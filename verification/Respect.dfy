/** What the lock holder owes the other processes. The relations compare the store before
    and after an operation; L is the set of processes that are alive throughout, A (inside L)
    the backends and parent processes among them that still serve, x the slot the lock holder
    owns itself. */
module Respect {
  import opened Lists
  import opened Store
  import opened Conservation
  import opened Invariants

  predicate IsFe(s: Store, f: nat) { f in s.m && s.m[f].Fro? && s.m[f].fe.loc != Hand }

  /** The slot of a live queued or running frontend is neither freed nor moved. */
  ghost predicate KeepsFrontends(s: Store, t: Store, x: nat, L: set<nat>) {
    forall f {:trigger IsFe(s, f)} {:trigger t.m[f].fe} :: f != x && IsFe(s, f) && s.m[f].fe.pid in L ==>
      IsFe(t, f) && t.m[f].fe.pid == s.m[f].fe.pid && t.m[f].fe.loc == s.m[f].fe.loc
  }

  /** The slot of a serving backend is not freed, and a busy one stays busy. */
  ghost predicate KeepsBackends(s: Store, t: Store, x: nat, A: set<nat>) {
    forall b {:trigger IsBe(s, b)} {:trigger t.m[b].be} :: b != x && IsBe(s, b) && s.m[b].be.pid in A ==>
      && IsBe(t, b) && t.m[b].be.pid == s.m[b].be.pid && t.m[b].be.grp == s.m[b].be.grp
      && (s.m[b].be.feRunning != 0 ==> t.m[b].be.feRunning != 0)
      && (s.m[b].be.feRunning == b ==> t.m[b].be.feRunning == b)
  }

  /** The group of a serving parent process is not freed, and the process stays its parent. */
  ghost predicate KeepsGroups(s: Store, t: Store, x: nat, A: set<nat>) {
    forall g {:trigger IsGr(s, g)} {:trigger t.m[g].gr} :: g != x && IsGr(s, g) && s.m[g].gr.parent in A ==>
      IsGr(t, g) && t.m[g].gr.parent == s.m[g].gr.parent
  }

  /** While a starting process other than the lock holder lives, it stays recorded, and in
      its group no backend is granted and none is started. */
  ghost predicate HandsOff(s: Store, t: Store, self: nat, L: set<nat>) {
    forall g {:trigger s.Gr(g).starting} {:trigger t.Gr(g).starting} ::
      IsGr(s, g) && IsGr(t, g) && s.Gr(g).starting in L && s.Gr(g).starting != self ==>
        && t.Gr(g).starting == s.Gr(g).starting
        && (forall b :: b in t.Gr(g).bes ==> b in s.Gr(g).bes)
        && (forall b :: b in t.Gr(g).bes && s.Be(b).feRunning == 0 ==> t.Be(b).feRunning == 0)
  }

  /** Nobody joins a frontend queue, and those who stay keep their order. */
  ghost predicate InOrder(s: Store, t: Store) {
    forall g {:trigger t.Gr(g).fes} ::
      && (forall f :: f in t.Gr(g).fes ==> f in s.Gr(g).fes)
      && (forall a, b :: Precedes(t.Gr(g).fes, a, b) ==> Precedes(s.Gr(g).fes, a, b))
  }

  ghost predicate NoNewGroups(s: Store, t: Store) {
    forall g {:trigger t.m[g].gr} {:trigger IsGr(t, g)} :: IsGr(t, g) ==> IsGr(s, g)
  }

  ghost predicate Respects(s: Store, t: Store, x: nat, self: nat, L: set<nat>, A: set<nat>) {
    && KeepsFrontends(s, t, x, L) && KeepsBackends(s, t, x, A) && KeepsGroups(s, t, x, A)
    && HandsOff(s, t, self, L) && InOrder(s, t) && NoNewGroups(s, t)
  }

  lemma RespectsTrans(s: Store, t: Store, u: Store, x: nat, self: nat, L: set<nat>, A: set<nat>)
    requires Respects(s, t, x, self, L, A) && Respects(t, u, x, self, L, A)
    ensures Respects(s, u, x, self, L, A)
  {
    forall g | IsGr(s, g) && IsGr(u, g) && s.Gr(g).starting in L && s.Gr(g).starting != self
      ensures u.Gr(g).starting == s.Gr(g).starting
        && (forall b :: b in u.Gr(g).bes ==> b in s.Gr(g).bes)
        && (forall b :: b in u.Gr(g).bes && s.Be(b).feRunning == 0 ==> u.Be(b).feRunning == 0)
    {
      assert IsGr(t, g);
      assert t.Gr(g).starting == s.Gr(g).starting;
    }
  }

  /** Groups may be new, but old ones keep everything except their scripts and name. */
  ghost predicate Grown(s: Store, t: Store) {
    && SameBackends(s, t) && SameRunning(s, t) && SameQueues(s, t)
    && (forall g {:trigger IsGr(s, g)} {:trigger t.m[g].gr} :: IsGr(s, g) ==>
          IsGr(t, g) && t.m[g].gr.starting == s.m[g].gr.starting && t.m[g].gr.parent == s.m[g].gr.parent)
    && (forall n :: s.At(n).Fro? ==> t.At(n) == s.At(n))
    && t.live == s.live
  }

  /** Nobody overtakes: whoever is before a frontend that was already queued was before it. */
  ghost predicate NoOvertaking(s: Store, t: Store) {
    forall g, a, b {:trigger Precedes(t.Gr(g).fes, a, b)} ::
      IsGr(s, g) && IsGr(t, g) && Precedes(t.Gr(g).fes, a, b) && b in s.Gr(g).fes ==> Precedes(s.Gr(g).fes, a, b)
  }

  /** What every critical section owes the other processes. */
  ghost predicate Fair(s: Store, t: Store, x: nat, self: nat, L: set<nat>, A: set<nat>) {
    && KeepsFrontends(s, t, x, L) && KeepsBackends(s, t, x, A) && KeepsGroups(s, t, x, A)
    && HandsOff(s, t, self, L) && NoOvertaking(s, t)
  }

  lemma RespectsFair(s: Store, t: Store, x: nat, self: nat, L: set<nat>, A: set<nat>)
    requires Respects(s, t, x, self, L, A)
    ensures Fair(s, t, x, self, L, A)
  {
  }

  ghost predicate SameGroups(s: Store, t: Store) {
    forall g {:trigger IsGr(t, g)} {:trigger s.m[g].gr} :: IsGr(s, g) ==> IsGr(t, g)
  }

  lemma GrownFair(s: Store, t: Store, x: nat, self: nat, L: set<nat>, A: set<nat>)
    requires Grown(s, t)
    ensures Fair(s, t, x, self, L, A) && SameGroups(s, t)
  {
    forall f | IsFe(s, f) ensures IsFe(t, f) && t.m[f].fe == s.m[f].fe {
      assert IsQueued(s, f) || IsRun(s, f);
      assert IsQueued(t, f) || IsRun(t, f);
    }
  }

  /** No group goes in the first part, no group comes and nobody joins in the second. */
  lemma FairTrans(s: Store, t: Store, u: Store, x: nat, self: nat, L: set<nat>, A: set<nat>)
    requires Fair(s, t, x, self, L, A) && SameGroups(s, t) && Respects(t, u, x, self, L, A)
    ensures Fair(s, u, x, self, L, A)
  {
    forall g | IsGr(s, g) && IsGr(u, g) && s.Gr(g).starting in L && s.Gr(g).starting != self
      ensures u.Gr(g).starting == s.Gr(g).starting
        && (forall b :: b in u.Gr(g).bes ==> b in s.Gr(g).bes)
        && (forall b :: b in u.Gr(g).bes && s.Be(b).feRunning == 0 ==> u.Be(b).feRunning == 0)
    {
      assert t.Gr(g).starting == s.Gr(g).starting;
    }
    forall g, a, b | IsGr(s, g) && IsGr(u, g) && Precedes(u.Gr(g).fes, a, b) && b in s.Gr(g).fes
      ensures Precedes(s.Gr(g).fes, a, b)
    {
      assert Precedes(t.Gr(g).fes, a, b);
    }
  }

  /** Two parts in which no group goes. */
  lemma FairTransGrow(s: Store, t: Store, u: Store, x: nat, self: nat, L: set<nat>, A: set<nat>)
    requires Fair(s, t, x, self, L, A) && SameGroups(s, t) && Fair(t, u, x, self, L, A) && SameGroups(t, u)
    requires forall g, b :: IsGr(s, g) && b in s.Gr(g).fes && b in u.Gr(g).fes ==> b in t.Gr(g).fes
    ensures Fair(s, u, x, self, L, A) && SameGroups(s, u)
  {
    forall g, a, b | IsGr(s, g) && IsGr(u, g) && Precedes(u.Gr(g).fes, a, b) && b in s.Gr(g).fes
      ensures Precedes(s.Gr(g).fes, a, b)
    {
      PrecedesIn(u.Gr(g).fes, a, b);
      assert IsGr(t, g) && Precedes(t.Gr(g).fes, a, b);
    }
    forall g | IsGr(s, g) && IsGr(u, g) && s.Gr(g).starting in L && s.Gr(g).starting != self
      ensures u.Gr(g).starting == s.Gr(g).starting
        && (forall b :: b in u.Gr(g).bes ==> b in s.Gr(g).bes)
        && (forall b :: b in u.Gr(g).bes && s.Be(b).feRunning == 0 ==> u.Be(b).feRunning == 0)
    {
      assert t.Gr(g).starting == s.Gr(g).starting;
    }
  }

  /** Nobody that counts owned slot x, so that x need not be excepted. */
  predicate Unowned(s: Store, x: nat, L: set<nat>, A: set<nat>) {
    && (IsFe(s, x) ==> s.m[x].fe.pid !in L)
    && (IsBe(s, x) ==> s.m[x].be.pid !in A)
    && (IsGr(s, x) ==> s.m[x].gr.parent !in A)
  }

  lemma FairNoException(s: Store, t: Store, x: nat, self: nat, L: set<nat>, A: set<nat>)
    requires Fair(s, t, x, self, L, A) && Unowned(s, x, L, A)
    ensures Fair(s, t, 0, self, L, A)
  {
  }

  lemma RespectsRefl(s: Store, f: nat, self: nat, L: set<nat>, A: set<nat>)
    ensures Respects(s, s, f, self, L, A)
  {
  }

  lemma SameRefl(s: Store)
    ensures SameBackends(s, s) && SameQueues(s, s) && SameRunning(s, s) && SameIndex(s, s)
  {
  }
}
