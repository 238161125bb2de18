/** Conservation across the critical sections' own list operations: frontends join and leave a
    queue, backends are granted and come back. */
module Joining {
  import opened Lists
  import opened Store
  import opened Conservation
  import opened Sections

  lemma JoinMoves(s: Store, g: nat, f: nat)
    requires Home(s, f) == InHand && s.At(g).Grp?
    ensures Moved(s, Join(s, g, f), f, FeList(g))
  {
  }

  lemma JoinWf(s: Store, g: nat, f: nat)
    requires Wf(s) && Home(s, f) == InHand && s.At(g).Grp?
    ensures Wf(Join(s, g, f))
  {
    JoinMoves(s, g, f);
    MovedWf(s, Join(s, g, f), f, FeList(g));
  }

  lemma LeaveMoves(s: Store, g: nat, f: nat)
    requires Home(s, f) == FeList(g) && s.At(g).Grp?
    ensures Moved(s, Leave(s, g, f), f, InHand)
  {
  }

  lemma LeaveWf(s: Store, g: nat, f: nat)
    requires Wf(s) && Home(s, f) == FeList(g)
    ensures Wf(Leave(s, g, f))
  {
    assert f in ListOf(s, FeList(g));
    LeaveMoves(s, g, f);
    MovedWf(s, Leave(s, g, f), f, InHand);
  }

  lemma DropDeadWf(s: Store, g: nat)
    requires Wf(s) && s.At(g).Grp?
    ensures Wf(DropDead(s, g)) && DropDead(s, g).At(g).Grp?
    decreases |s.Gr(g).fes|
  {
    var l := s.Gr(g).fes;
    if l != [] && s.Fe(l[0]).pid !in s.live {
      assert l[0] in ListOf(s, FeList(g));
      FrontendDisposeWf(s, g, l[0]);
      DropDeadWf(FrontendDispose(s, g, l[0]), g);
    }
  }

  lemma BeWaitPutWf(s: Store, g: nat, b: nat)
    requires Wf(s) && Home(s, b) == BeList(g)
    ensures Wf(BeWaitPut(s, g, b))
  {
    var s1 := s.PutBe(b, s.Be(b).(feRunning := 0));
    PutBeWf(s, b, s.Be(b).(feRunning := 0));
    assert Home(s1, b) == BeList(g) && b in ListOf(s1, BeList(g)) && ListOf(s1, BeList(g)) == s1.Gr(g).bes;
    var l := Without(s1.Gr(g).bes, b);
    WithoutNoDup(s1.Gr(g).bes, b);
    InsertBeforeNoDup(l, b, (c: nat) => GoesBefore(s1, s1.Be(b).maturity, c));
    ReorderBesWf(s1, g, InsertBefore(l, b, (c: nat) => GoesBefore(s1, s1.Be(b).maturity, c)));
  }
}
