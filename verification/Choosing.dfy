/** Which backend is chosen: the order of the backend list decides. */
module Choosing {
  import opened Lists
  import opened Store
  import opened Conservation
  import opened Invariants
  import opened Granting

  /** With no startup pending, be_wait_get fails exactly when no backend of the group waits;
      otherwise it returns one that no waiting backend of the group surpasses in maturity, and
      that no waiting one precedes. */
  lemma BeWaitGetExact(s: Store, g: nat, max: nat)
    requires Inv(s, 0, max) && IsGr(s, g) && 0 !in s.live
    ensures var (t, b) := BeWaitGet(s, g);
      && (b == 0 <==> s.Gr(g).starting in s.live || forall c :: c in s.Gr(g).bes ==> s.Be(c).feRunning != 0)
      && (b != 0 ==> b in s.Gr(g).bes && s.Be(b).feRunning == 0 && t.Gr(g).starting == 0)
      && (b != 0 ==> forall c :: c in s.Gr(g).bes && s.Be(c).feRunning == 0 ==>
                 s.Be(c).maturity <= s.Be(b).maturity && !Precedes(s.Gr(g).bes, c, b))
  {
    var l := s.Gr(g).bes;
    assert l == ListOf(s, BeList(g));
    var s1 := BeStarting(s, g).0;
    NoZero(s);
    if l != [] {
      var b := l[0];
      assert b != 0 && Home(s, b) == BeList(g);
      assert s1.Be(b) == s.Be(b);
      forall c | c in l && s.Be(c).feRunning == 0
        ensures s.Be(b).feRunning == 0 && s.Be(c).maturity <= s.Be(b).maturity && !Precedes(l, c, b)
      {
        assert Home(s, c) == BeList(g);
        if c != b {
          assert Precedes(l, b, c);
          assert Ordered(s, b, c);
          PrecedesAsym(l, b, c);
        } else if Precedes(l, b, b) {
          PrecedesAsym(l, b, b);
        }
      }
    }
  }

  /** A backend that goes idle stands before every waiting one that is not more mature, so that
      the last to come is the first to go, and behind every waiting one that is. */
  lemma BeWaitPutPlace(s: Store, g: nat, b: nat, c: nat, max: nat)
    requires Inv(s, 0, max) && IsBe(s, b) && s.m[b].be.grp == g && s.m[b].be.feRunning == b
    requires c in s.Gr(g).bes && s.Be(c).feRunning == 0
    ensures var l := BeWaitPut(s, g, b).Gr(g).bes;
      if s.Be(c).maturity <= s.Be(b).maturity then Precedes(l, b, c) else Precedes(l, c, b)
  {
    NoZero(s);
    assert s.Gr(g).bes == ListOf(s, BeList(g));
    assert Home(s, b) == BeList(g) && Home(s, c) == BeList(g);
    PutPlace(s, g, b, c);
  }

  lemma PutPlace(s: Store, g: nat, b: nat, c: nat)
    requires Sorted(s, 0) && IsGr(s, g) && IsBe(s, b) && IsBe(s, c) && 0 !in s.Gr(g).bes && b != c
    requires c in s.Gr(g).bes && s.Be(c).feRunning == 0
    ensures var l := BeWaitPut(s, g, b).Gr(g).bes;
      if s.Be(c).maturity <= s.Be(b).maturity then Precedes(l, b, c) else Precedes(l, c, b)
  {
    var s1 := s.PutBe(b, s.Be(b).(feRunning := 0));
    var l := Without(s.Gr(g).bes, b);
    var stop := (k: nat) => GoesBefore(s1, s1.Be(b).maturity, k);
    WaitingSorted(s, g, b, l, c);
    forall a | Precedes(l, a, c) && !stop(c) ensures !stop(a) {
      PrecedesIn(l, a, c);
      assert s1.Be(a) == s.Be(a);
    }
    Placed(l, b, stop, c);
  }

  lemma WaitingSorted(s: Store, g: nat, b: nat, l: seq<nat>, c: nat)
    requires Sorted(s, 0) && l == Without(s.Gr(g).bes, b) && s.Be(c).feRunning == 0
    requires 0 !in s.Gr(g).bes
    ensures forall a :: Precedes(l, a, c) ==> s.Be(a).feRunning == 0 && s.Be(a).maturity >= s.Be(c).maturity
  {
    forall a | Precedes(l, a, c) ensures Ordered(s, a, c) {
      PrecedesWithout(s.Gr(g).bes, b, a, c);
      PrecedesIn(s.Gr(g).bes, a, c);
    }
  }

  /** Where InsertBefore puts x relative to c. */
  lemma {:induction false} Placed(l: seq<nat>, x: nat, stop: nat -> bool, c: nat)
    requires c in l && x !in l
    requires !stop(c) ==> forall a :: Precedes(l, a, c) ==> !stop(a)
    ensures if stop(c) then Precedes(InsertBefore(l, x, stop), x, c) else Precedes(InsertBefore(l, x, stop), c, x)
  {
    if stop(l[0]) {
      if l[0] != c { assert Precedes(l, l[0], c); }
      PrecedesCons(l, x, x, c);
    } else {
      PrecedesCons(InsertBefore(l[1..], x, stop), l[0], x, c);
      PrecedesCons(InsertBefore(l[1..], x, stop), l[0], c, x);
      if c != l[0] || c in l[1..] { Placed(l[1..], x, stop, c); }
    }
  }
}
