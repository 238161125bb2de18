/** Sequences without repetition, as the intrusive slot lists hold them: taking out, putting in,
    who stands before whom. */
module Lists {

  ghost predicate NoDup(l: seq<nat>) {
    l == [] || (l[0] !in l[1..] && NoDup(l[1..]))
  }

  /** a stands somewhere before b. */
  ghost predicate Precedes(l: seq<nat>, a: nat, b: nat) {
    l != [] && ((l[0] == a && b in l[1..]) || Precedes(l[1..], a, b))
  }

  /** The list with every occurrence of x taken out. */
  function Without(l: seq<nat>, x: nat): (r: seq<nat>)
    ensures forall y :: y in r <==> y in l && y != x
    ensures |r| <= |l|
    ensures x in l ==> |r| < |l|
  {
    if l == [] then []
    else if l[0] == x then Without(l[1..], x)
    else
      var r := [l[0]] + Without(l[1..], x);
      assert forall y :: y in l <==> y == l[0] || y in l[1..];
      r
  }

  /** x placed before the first element that `stop` holds of, or at the end. */
  function InsertBefore(l: seq<nat>, x: nat, stop: nat -> bool): (r: seq<nat>)
    ensures forall y :: y in r <==> y in l || y == x
    ensures |r| == |l| + 1
  {
    if l == [] then [x]
    else if stop(l[0]) then [x] + l
    else
      assert forall y :: y in l <==> y == l[0] || y in l[1..];
      [l[0]] + InsertBefore(l[1..], x, stop)
  }

  lemma {:induction false} WithoutAbsent(l: seq<nat>, x: nat)
    requires x !in l
    ensures Without(l, x) == l
  {
    if l != [] {
      WithoutAbsent(l[1..], x);
    }
  }

  lemma {:induction false} WithoutNoDup(l: seq<nat>, x: nat)
    requires NoDup(l)
    ensures NoDup(Without(l, x))
    ensures x in l ==> |Without(l, x)| == |l| - 1
  {
    if l != [] {
      WithoutNoDup(l[1..], x);
      if l[0] == x {
        WithoutAbsent(l[1..], x);
      } else {
        assert Without(l, x)[1..] == Without(l[1..], x);
      }
    }
  }

  lemma {:induction false} ConsNoDup(l: seq<nat>, x: nat)
    requires NoDup(l) && x !in l
    ensures NoDup([x] + l)
  {
    assert ([x] + l)[1..] == l;
  }

  lemma {:induction false} SnocNoDup(l: seq<nat>, x: nat)
    requires NoDup(l) && x !in l
    ensures NoDup(l + [x])
  {
    if l != [] {
      SnocNoDup(l[1..], x);
      assert (l + [x])[1..] == l[1..] + [x];
    } else {
      assert l + [x] == [x];
    }
  }

  lemma {:induction false} InsertBeforeNoDup(l: seq<nat>, x: nat, stop: nat -> bool)
    requires NoDup(l) && x !in l
    ensures NoDup(InsertBefore(l, x, stop))
  {
    if l == [] {
    } else if stop(l[0]) {
      ConsNoDup(l, x);
    } else {
      InsertBeforeNoDup(l[1..], x, stop);
      assert InsertBefore(l, x, stop)[1..] == InsertBefore(l[1..], x, stop);
    }
  }

  lemma {:induction false} PrecedesIn(l: seq<nat>, a: nat, b: nat)
    requires Precedes(l, a, b)
    ensures a in l && b in l
  {
    if !(l[0] == a && b in l[1..]) {
      PrecedesIn(l[1..], a, b);
    }
  }

  lemma {:induction false} PrecedesCons(l: seq<nat>, x: nat, a: nat, b: nat)
    ensures Precedes([x] + l, a, b) <==> (a == x && b in l) || Precedes(l, a, b)
  {
    assert ([x] + l)[1..] == l;
  }

  lemma {:induction false} PrecedesSnoc(l: seq<nat>, x: nat, a: nat, b: nat)
    ensures Precedes(l + [x], a, b) <==> (a in l && b == x) || Precedes(l, a, b)
  {
    if l == [] {
      assert l + [x] == [x];
    } else {
      PrecedesSnoc(l[1..], x, a, b);
      assert (l + [x])[1..] == l[1..] + [x];
    }
  }

  lemma {:induction false} PrecedesWithout(l: seq<nat>, x: nat, a: nat, b: nat)
    ensures Precedes(Without(l, x), a, b) <==> a != x && b != x && Precedes(l, a, b)
  {
    if l != [] {
      PrecedesWithout(l[1..], x, a, b);
      if l[0] != x {
        assert Without(l, x)[1..] == Without(l[1..], x);
      } else if l[0] == a && b in l[1..] {
        assert a == x;
      }
    }
  }

  /** What InsertBefore does to the order: the old order stays, and the elements before x
      are exactly a prefix none of which `stop` holds of, while the first after x has it. */
  lemma {:induction false} PrecedesInsertBefore(l: seq<nat>, x: nat, stop: nat -> bool, a: nat, b: nat)
    requires x !in l
    ensures Precedes(l, a, b) ==> Precedes(InsertBefore(l, x, stop), a, b)
    ensures a != x && b != x && Precedes(InsertBefore(l, x, stop), a, b) ==> Precedes(l, a, b)
    ensures b == x && Precedes(InsertBefore(l, x, stop), a, b) ==> a in l && !stop(a)
  {
    if l == [] {
      assert InsertBefore(l, x, stop) == [x] && [x][1..] == [];
    } else if stop(l[0]) {
      PrecedesCons(l, x, a, b);
      if b == x && Precedes(l, a, b) { PrecedesIn(l, a, b); }
    } else {
      PrecedesInsertBefore(l[1..], x, stop, a, b);
      PrecedesCons(InsertBefore(l[1..], x, stop), l[0], a, b);
    }
  }

  lemma {:induction false} InsertBeforeAfter(l: seq<nat>, x: nat, stop: nat -> bool, b: nat)
    requires x !in l && Precedes(InsertBefore(l, x, stop), x, b)
    ensures b in l && exists c :: c in l && stop(c) && (c == b || Precedes(l, c, b))
  {
    if l == [] {
    } else if stop(l[0]) {
      PrecedesCons(l, x, x, b);
      if Precedes(l, x, b) { PrecedesIn(l, x, b); }
      assert stop(l[0]) && (l[0] == b || Precedes(l, l[0], b));
    } else {
      PrecedesCons(InsertBefore(l[1..], x, stop), l[0], x, b);
      InsertBeforeAfter(l[1..], x, stop, b);
      var c :| c in l[1..] && stop(c) && (c == b || Precedes(l[1..], c, b));
      assert c in l && (c == b || Precedes(l, c, b));
    }
  }

  /** In a list without repetition, order is antisymmetric and the head comes first. */
  lemma {:induction false} PrecedesAsym(l: seq<nat>, a: nat, b: nat)
    requires NoDup(l) && Precedes(l, a, b)
    ensures a != b && !Precedes(l, b, a) && l[0] != b
  {
    if l[0] == a && b in l[1..] {
      if Precedes(l[1..], b, a) { PrecedesIn(l[1..], b, a); }
    } else {
      PrecedesIn(l[1..], a, b);
      PrecedesAsym(l[1..], a, b);
    }
  }

  // ---- positions ----

  ghost predicate Distinct(l: seq<nat>) {
    forall i, j :: 0 <= i < j < |l| ==> l[i] != l[j]
  }

  lemma {:induction false} NoDupDistinct(l: seq<nat>)
    ensures NoDup(l) <==> Distinct(l)
  {
    if l != [] {
      NoDupDistinct(l[1..]);
      if Distinct(l) { forall i | 0 <= i < |l[1..]| ensures l[1..][i] != l[0] { } }
      if NoDup(l) {
        forall i, j | 0 <= i < j < |l| ensures l[i] != l[j] {
          assert l[j] == l[1..][j - 1];
          if i > 0 { assert l[i] == l[1..][i - 1]; }
        }
      }
      if Distinct(l) { assert forall i, j :: 0 <= i < j < |l[1..]| ==> l[1..][i] == l[i + 1] && l[1..][j] == l[j + 1]; }
    }
  }

  lemma {:induction false} WithoutAt(l: seq<nat>, i: nat)
    requires Distinct(l) && i < |l|
    ensures Without(l, l[i]) == l[..i] + l[i + 1..]
  {
    if i == 0 {
      WithoutAbsent(l[1..], l[0]);
    } else {
      assert Distinct(l[1..]);
      WithoutAt(l[1..], i - 1);
      assert l[1..][..i - 1] == l[1..i] && l[1..][i..] == l[i + 1..];
    }
  }

  /** The position of x, or the length when x is absent. */
  function Index(l: seq<nat>, x: nat): (i: nat)
    ensures i <= |l| && (i < |l| ==> l[i] == x)
  {
    if l == [] || l[0] == x then 0 else 1 + Index(l[1..], x)
  }

  /** The slot after position i, and the one before it; 0 at the ends. */
  function After(l: seq<nat>, i: int): nat { if 0 <= i + 1 < |l| then l[i + 1] else 0 }
  function Prior(l: seq<nat>, i: int): nat { if 0 < i <= |l| then l[i - 1] else 0 }
  function First(l: seq<nat>): nat { if l == [] then 0 else l[0] }
  function Last(l: seq<nat>): nat { if l == [] then 0 else l[|l| - 1] }

  /** The neighbours of slot x in a list, 0 at the ends: what its links hold. */
  function NextIn(l: seq<nat>, x: nat): nat { After(l, Index(l, x)) }
  function PrevIn(l: seq<nat>, x: nat): nat { Prior(l, Index(l, x)) }

  lemma {:induction false} IndexAt(l: seq<nat>, i: nat)
    requires NoDup(l) && i < |l|
    ensures Index(l, l[i]) == i
  {
    if i > 0 { IndexAt(l[1..], i - 1); }
  }

  lemma {:induction false} IndexIn(l: seq<nat>, x: nat)
    requires x in l
    ensures Index(l, x) < |l|
  {
    if l[0] != x { IndexIn(l[1..], x); }
  }

  lemma {:induction false} PrecedesAt(l: seq<nat>, i: nat, j: nat)
    requires i < j < |l|
    ensures Precedes(l, l[i], l[j])
  {
    if i > 0 { PrecedesAt(l[1..], i - 1, j - 1); }
  }

  /** m is l with n put in at position i. */
  ghost predicate Spliced(l: seq<nat>, n: nat, i: nat, m: seq<nat>) {
    && i <= |l| && |m| == |l| + 1 && m[i] == n
    && (forall j {:trigger m[j]} :: 0 <= j < |m| && j != i ==> m[j] == l[if j < i then j else j - 1])
  }

  lemma {:induction false} InsertBeforeAt(l: seq<nat>, x: nat, stop: nat -> bool, i: nat)
    requires i <= |l| && (forall k :: 0 <= k < i ==> !stop(l[k])) && (i < |l| ==> stop(l[i]))
    ensures Spliced(l, x, i, InsertBefore(l, x, stop))
  {
    if i > 0 { InsertBeforeAt(l[1..], x, stop, i - 1); }
  }

}
