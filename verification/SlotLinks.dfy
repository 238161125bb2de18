/** speedy_slot.c: the lists of the file as chains through two arrays that all of them share. */
module SlotLinks {
  import opened Lists
  import Store

  /** The links run through exactly the slots of l, both ways. */
  ghost predicate Chain(nx: seq<nat>, pv: seq<nat>, l: seq<nat>) {
    && |nx| == |pv| && Distinct(l)
    && (forall i :: 0 <= i < |l| ==> 0 < l[i] < |nx|)
    && (forall i {:trigger nx[l[i]]} {:trigger pv[l[i]]} :: 0 <= i < |l| ==>
          nx[l[i]] == After(l, i) && pv[l[i]] == Prior(l, i))
  }

  function Set(s: seq<nat>, i: nat, v: nat): (r: seq<nat>)
    ensures |r| == |s|
  {
    if 0 < i < |s| then s[i := v] else s
  }

  /** Taking out position i. */
  lemma RemoveChain(nx: seq<nat>, pv: seq<nat>, l: seq<nat>, i: nat)
    requires Chain(nx, pv, l) && i < |l|
    ensures Chain(Set(nx, Prior(l, i), After(l, i)), Set(pv, After(l, i), Prior(l, i)), l[..i] + l[i + 1..])
  {
    var m := l[..i] + l[i + 1..];
    var nx1, pv1 := Set(nx, Prior(l, i), After(l, i)), Set(pv, After(l, i), Prior(l, i));
    assert forall j :: 0 <= j < |m| ==> m[j] == l[if j < i then j else j + 1];
    forall j | 0 <= j < |m| ensures 0 < m[j] < |nx| && nx1[m[j]] == After(m, j) && pv1[m[j]] == Prior(m, j) {
      RemovedLink(nx, pv, l, i, m, j);
    }
  }

  lemma RemovedLink(nx: seq<nat>, pv: seq<nat>, l: seq<nat>, i: nat, m: seq<nat>, j: nat)
    requires Chain(nx, pv, l) && i < |l| && j < |m| == |l| - 1
    requires forall k :: 0 <= k < |m| ==> m[k] == l[if k < i then k else k + 1]
    ensures 0 < m[j] < |nx| && Set(nx, Prior(l, i), After(l, i))[m[j]] == After(m, j)
    ensures Set(pv, After(l, i), Prior(l, i))[m[j]] == Prior(m, j)
  {
    var k := if j < i then j else j + 1;
    assert m[j] == l[k] && (k == i - 1 <==> l[k] == Prior(l, i)) && (k == i + 1 <==> l[k] == After(l, i));
  }

  lemma SplicedDistinct(l: seq<nat>, n: nat, i: nat, m: seq<nat>)
    requires Distinct(l) && n !in l && Spliced(l, n, i, m)
    ensures Distinct(m) && forall k :: k in m <==> k in l || k == n
    ensures First(m) == (if i == 0 then n else First(l)) && Last(m) == (if i == |l| then n else Last(l))
  {
    forall k | k in l ensures k in m {
      var j :| 0 <= j < |l| && l[j] == k;
      assert m[if j < i then j else j + 1] == k;
    }
  }

  /** Putting n in at position i. */
  lemma InsertChain(nx: seq<nat>, pv: seq<nat>, l: seq<nat>, n: nat, i: nat, m: seq<nat>)
    requires Chain(nx, pv, l) && n !in l && 0 < n < |nx| && Spliced(l, n, i, m)
    ensures var at := After(l, i - 1); Chain(Set(nx[n := at], Prior(l, i), n), Set(pv[n := Prior(l, i)], at, n), m)
  {
    SplicedDistinct(l, n, i, m);
    var at := After(l, i - 1);
    var nx1, pv1 := Set(nx[n := at], Prior(l, i), n), Set(pv[n := Prior(l, i)], at, n);
    forall j | 0 <= j < |m| ensures 0 < m[j] < |nx| && nx1[m[j]] == After(m, j) && pv1[m[j]] == Prior(m, j) {
      if j != i { InsertedLink(nx, pv, l, n, i, m, j); }
    }
  }

  lemma InsertedLink(nx: seq<nat>, pv: seq<nat>, l: seq<nat>, n: nat, i: nat, m: seq<nat>, j: nat)
    requires Chain(nx, pv, l) && n !in l && 0 < n < |nx| && Spliced(l, n, i, m) && j < |m| && j != i
    ensures var at := After(l, i - 1);
      0 < m[j] < |nx| && Set(nx[n := at], Prior(l, i), n)[m[j]] == After(m, j)
      && Set(pv[n := Prior(l, i)], at, n)[m[j]] == Prior(m, j)
  {
    var k := if j < i then j else j - 1;
    assert m[j] == l[k] && l[k] in l;
    assert i > 0 ==> 0 < l[i - 1];
    assert k != i - 1 ==> m[j] != Prior(l, i);
    assert k != i ==> m[j] != After(l, i - 1);
  }

  /** The free list is linked through next only, and prev of a slot is the slot itself exactly
      when it is free. */
  ghost predicate FreeChain(nx: seq<nat>, pv: seq<nat>, free: seq<nat>, alloced: nat) {
    && |nx| == |pv| && Distinct(free) && alloced < |nx|
    && (forall i :: 0 <= i < |free| ==> 0 < free[i] <= alloced)
    && (forall i {:trigger nx[free[i]]} :: 0 <= i < |free| ==> nx[free[i]] == After(free, i))
    && (forall n {:trigger pv[n]} :: 0 < n <= alloced ==> (pv[n] == n <==> n in free))
  }

  /** Links may change as long as no free slot is touched and none is made to look free. */
  ghost predicate Changes(nx: seq<nat>, pv: seq<nat>, nx1: seq<nat>, pv1: seq<nat>, l: seq<nat>, n: nat) {
    && |nx1| == |pv1| == |nx| == |pv|
    && (forall k :: 0 <= k < |nx| && k !in l && k != n ==> nx1[k] == nx[k] && pv1[k] == pv[k])
    && (forall k :: 0 <= k < |nx| && pv1[k] != pv[k] ==> pv1[k] != k)
  }

  lemma FreeStays(nx: seq<nat>, pv: seq<nat>, nx1: seq<nat>, pv1: seq<nat>, l: seq<nat>, n: nat, free: seq<nat>,
      alloced: nat)
    requires FreeChain(nx, pv, free, alloced) && Changes(nx, pv, nx1, pv1, l, n)
    requires n !in free && forall k :: k in l ==> k !in free
    ensures FreeChain(nx1, pv1, free, alloced)
  {
    forall i | 0 <= i < |free| ensures nx1[free[i]] == After(free, i) { assert free[i] !in l && free[i] != n; }
    forall k: nat | 0 < k <= alloced ensures pv1[k] == k <==> k in free {
      if k in free { assert k !in l && k != n; }
      assert pv[k] == k <==> k in free;
    }
  }

  lemma RemoveChanges(nx: seq<nat>, pv: seq<nat>, l: seq<nat>, i: nat)
    requires Chain(nx, pv, l) && i < |l|
    ensures Changes(nx, pv, Set(nx, Prior(l, i), After(l, i)), Set(pv, After(l, i), Prior(l, i)), l, l[i])
  {
    if 0 < i { assert l[i - 1] in l; }
    if i + 1 < |l| { assert l[i + 1] in l; }
  }

  /** What the links of one slot of a chain say. */
  lemma ChainAt(nx: seq<nat>, pv: seq<nat>, l: seq<nat>, i: nat)
    requires Chain(nx, pv, l) && i < |l|
    ensures |nx| == |pv| && 0 < l[i] < |nx| && nx[l[i]] == After(l, i) && pv[l[i]] == Prior(l, i) && Distinct(l)
    ensures After(l, i) < |nx| && Prior(l, i) < |nx| && After(l, i) != l[i] && Prior(l, i) != l[i]
    ensures (After(l, i) == 0 || After(l, i) in l) && (Prior(l, i) == 0 || Prior(l, i) in l)
    ensures var m := l[..i] + l[i + 1..];
      && First(m) == (if First(l) == l[i] then After(l, i) else First(l))
      && Last(m) == (if Last(l) == l[i] then Prior(l, i) else Last(l))
    ensures Prior(l, i) == 0 <==> i == 0
  {
    if i + 1 < |l| { assert l[i + 1] in l && 0 < l[i + 1]; }
    if i > 0 { assert 0 < l[i - 1]; }
  }

  lemma InsertChanges(nx: seq<nat>, pv: seq<nat>, l: seq<nat>, n: nat, p: nat, at: nat)
    requires |nx| == |pv| && 0 < n < |nx| && n !in l && (p == 0 || p in l) && (at == 0 || at in l)
    requires p != n && at != n
    ensures Changes(nx, pv, Set(nx[n := at], p, n), Set(pv[n := p], at, n), l, n)
  {
  }

  /** Whatever one list goes through, a list that shares no slot with it stays as it is. */
  lemma OthersStay(nx: seq<nat>, pv: seq<nat>, nx1: seq<nat>, pv1: seq<nat>, l: seq<nat>, n: nat, other: seq<nat>)
    requires Chain(nx, pv, other) && Changes(nx, pv, nx1, pv1, l, n)
    requires n !in other && forall k :: k in other ==> k !in l
    ensures Chain(nx1, pv1, other)
  {
    forall i | 0 <= i < |other| ensures nx1[other[i]] == After(other, i) && pv1[other[i]] == Prior(other, i) {
      assert other[i] in other;
    }
  }

  class Links {
    const next: array<nat>
    const prev: array<nat>
    var freeHead: nat
    var alloced: nat
    ghost var free: seq<nat>

    ghost predicate Valid()
      reads this, next, prev
    {
      next != prev && freeHead == First(free) && FreeChain(next[..], prev[..], free, alloced)
    }

    /** The list with these head and tail fields is l; a list without a tail field has no tail
        to agree with. No slot of it is free. */
    ghost predicate IsList(l: seq<nat>, head: nat, tail: nat, tailed: bool)
      reads this, next, prev
    {
      && Chain(next[..], prev[..], l) && head == First(l) && (tailed ==> tail == Last(l))
      && (forall k :: k in l ==> k !in free && k <= alloced)
    }

    /** Slot n is in use and on none of the lists l. */
    ghost predicate Loose(n: nat, l: seq<nat>)
      reads this
    {
      0 < n <= alloced && n !in free && n !in l
    }

    constructor (slots: nat)
      ensures Valid() && fresh(next) && fresh(prev) && free == [] && alloced == 0 && next.Length == slots + 1
    {
      next := new nat[slots + 1](_ => 0);
      prev := new nat[slots + 1](_ => 0);
      freeHead, alloced, free := 0, 0, [];
    }

    /** The same links with room for more slots. */
    constructor Extended(from: Links, slots: nat)
      requires from.Valid() && from.next.Length <= slots + 1
      ensures Valid() && fresh(next) && fresh(prev) && free == from.free && alloced == from.alloced
          && next.Length == slots + 1
      ensures from.next[..] <= next[..] && from.prev[..] <= prev[..]
    {
      var a, b := from.next, from.prev;
      var n := a.Length;
      next := new nat[slots + 1](i reads a => if 0 <= i < n && n <= a.Length then a[i] else 0);
      prev := new nat[slots + 1](i reads b => if 0 <= i < n && n <= b.Length then b[i] else 0);
      freeHead, alloced, free := from.freeHead, from.alloced, from.free;
      new;
      FreeExtends(from.next[..], from.prev[..], next[..], prev[..], free, alloced);
    }

    /** speedy_slot_next and speedy_slot_prev, of slots in use. */
    function NextOf(n: nat): (x: nat)
      requires Valid() && 0 < n <= alloced && n !in free
      reads this, next, prev
      ensures x == next[..][n]
    {
      next[n]
    }

    function PrevOf(n: nat): (x: nat)
      requires Valid() && 0 < n <= alloced && n !in free
      reads this, next, prev
      ensures x == prev[..][n]
    {
      prev[n]
    }

    method Remove(n: nat, head: nat, tail: nat, tailed: bool, ghost l: seq<nat>) returns (h: nat, t: nat)
      requires Valid() && IsList(l, head, tail, tailed) && n in l
      modifies next, prev
      ensures Valid() && IsList(Without(l, n), h, t, tailed) && Loose(n, Without(l, n))
      ensures Changes(old(next[..]), old(prev[..]), next[..], prev[..], l, n)
    {
      hide Chain, FreeChain, Changes, Distinct;
      ghost var i: nat :| i < |l| && l[i] == n;
      ChainAt(next[..], prev[..], l, i);
      WithoutAt(l, i);
      RemoveChain(next[..], prev[..], l, i);
      RemoveChanges(next[..], prev[..], l, i);
      h, t := head, tail;
      var nx, pv := next[n], prev[n];
      if nx != 0 { prev[nx] := pv; }
      if pv != 0 { next[pv] := nx; }
      if h == n { h := nx; }
      if tailed && t == n { t := pv; }
      assert next[..] == Set(old(next[..]), pv, nx) && prev[..] == Set(old(prev[..]), nx, pv);
      FreeStays(old(next[..]), old(prev[..]), next[..], prev[..], l, n, free, alloced);
    }

    /** The writes that link n in between the slots pv and at, of which either may be 0. */
    method Splice(n: nat, pv: nat, at: nat)
      requires next != prev && next.Length == prev.Length && 0 < n < next.Length && pv < next.Length && at < next.Length
      modifies next, prev
      ensures next[..] == Set(old(next[..])[n := at], pv, n) && prev[..] == Set(old(prev[..])[n := pv], at, n)
    {
      next[n] := at;
      prev[n] := pv;
      if at != 0 { prev[at] := n; }
      if pv != 0 { next[pv] := n; }
    }

    method Insert(n: nat, head: nat, tail: nat, tailed: bool, ghost l: seq<nat>) returns (h: nat, t: nat)
      requires Valid() && IsList(l, head, tail, tailed) && Loose(n, l)
      modifies next, prev
      ensures Valid() && IsList([n] + l, h, t, tailed)
      ensures Changes(old(next[..]), old(prev[..]), next[..], prev[..], l, n)
    {
      assert n < next.Length && (head == 0 || (head in l && 0 < head < next.Length));
      hide Chain, FreeChain, Changes;
      ghost var nx0, pv0, m := next[..], prev[..], [n] + l;
      assert Spliced(l, n, 0, m);
      hide Spliced, Distinct;
      InsertChain(nx0, pv0, l, n, 0, m);
      SplicedDistinct(l, n, 0, m);
      InsertChanges(nx0, pv0, l, n, 0, head);
      Splice(n, 0, head);
      h, t := n, tail;
      if tailed && tail == 0 { t := n; }
      FreeStays(nx0, pv0, next[..], prev[..], l, n, free, alloced);
    }

    method Append(n: nat, head: nat, tail: nat, ghost l: seq<nat>) returns (h: nat, t: nat)
      requires Valid() && IsList(l, head, tail, true) && Loose(n, l)
      modifies next, prev
      ensures Valid() && IsList(l + [n], h, t, true)
      ensures Changes(old(next[..]), old(prev[..]), next[..], prev[..], l, n)
    {
      assert n < next.Length && (tail == 0 || (tail in l && 0 < tail < next.Length));
      hide Chain, FreeChain, Changes;
      ghost var nx0, pv0, m := next[..], prev[..], l + [n];
      assert Spliced(l, n, |l|, m);
      hide Spliced, Distinct;
      InsertChain(nx0, pv0, l, n, |l|, m);
      SplicedDistinct(l, n, |l|, m);
      InsertChanges(nx0, pv0, l, n, tail, 0);
      Splice(n, tail, 0);
      h, t := head, n;
      if head == 0 { h := n; }
      FreeStays(nx0, pv0, next[..], prev[..], l, n, free, alloced);
    }

    /** `stop` holds of the slots that n is to come before. */
    method InsertSorted(n: nat, head: nat, tail: nat, stop: nat -> bool, ghost l: seq<nat>) returns (h: nat, t: nat)
      requires Valid() && IsList(l, head, tail, true) && Loose(n, l)
      modifies next, prev
      ensures Valid() && IsList(InsertBefore(l, n, stop), h, t, true)
      ensures Changes(old(next[..]), old(prev[..]), next[..], prev[..], l, n)
    {
      var at := head;
      ghost var i: nat := 0;
      while at != 0
        invariant i <= |l| && (forall k :: 0 <= k < i ==> !stop(l[k]))
        invariant at == if i < |l| then l[i] else 0
        decreases |l| - i
      {
        if stop(at) {
          InsertBeforeAt(l, n, stop, i);
          h, t := InsertAt(n, at, head, tail, l, i, InsertBefore(l, n, stop));
          return;
        }
        at := next[at];
        i := i + 1;
      }
      InsertBeforeAt(l, n, stop, i);
      assert InsertBefore(l, n, stop) == l + [n];
      h, t := Append(n, head, tail, l);
    }

    /** Link n in before `at`, which is at position i; the link to `at` is in the slot before
        it or in the head field. */
    method InsertAt(n: nat, at: nat, head: nat, tail: nat, ghost l: seq<nat>, ghost i: nat, ghost m: seq<nat>)
      returns (h: nat, t: nat)
      requires Valid() && IsList(l, head, tail, true) && Loose(n, l) && i < |l| && at == l[i]
      requires Spliced(l, n, i, m)
      modifies next, prev
      ensures Valid() && IsList(m, h, t, true)
      ensures Changes(old(next[..]), old(prev[..]), next[..], prev[..], l, n)
    {
      assert n < next.Length;
      hide FreeChain, Changes, Chain;
      SplicedDistinct(l, n, i, m);
      ghost var nx0, pv0 := next[..], prev[..];
      InsertChain(nx0, pv0, l, n, i, m);
      ChainAt(nx0, pv0, l, i);
      var pv := prev[at];
      InsertChanges(nx0, pv0, l, n, pv, at);
      h, t := head, tail;
      if pv == 0 { h := n; }
      Splice(n, pv, at);
      FreeStays(nx0, pv0, next[..], prev[..], l, n, free, alloced);
    }

    method MoveHead(n: nat, head: nat, tail: nat, tailed: bool, ghost l: seq<nat>) returns (h: nat, t: nat)
      requires Valid() && IsList(l, head, tail, tailed) && n in l
      modifies next, prev
      ensures Valid() && IsList(if l[0] == n then l else [n] + Without(l, n), h, t, tailed)
      ensures Changes(old(next[..]), old(prev[..]), next[..], prev[..], l, n)
    {
      h, t := head, tail;
      Unchanged(next[..], prev[..], l, n);
      if h != n {
        hide Chain, Changes, FreeChain;
        h, t := Remove(n, h, t, tailed, l);
        ghost var nx, pv := next[..], prev[..];
        h, t := Insert(n, h, t, tailed, Without(l, n));
        ChangesAgain(old(next[..]), old(prev[..]), nx, pv, next[..], prev[..], l, Without(l, n), n);
      }
    }

    method MoveTail(n: nat, head: nat, tail: nat, ghost l: seq<nat>) returns (h: nat, t: nat)
      requires Valid() && IsList(l, head, tail, true) && n in l
      modifies next, prev
      ensures Valid() && IsList(if l[|l| - 1] == n then l else Without(l, n) + [n], h, t, true)
      ensures Changes(old(next[..]), old(prev[..]), next[..], prev[..], l, n)
    {
      h, t := head, tail;
      Unchanged(next[..], prev[..], l, n);
      if t != n {
        hide Chain, Changes, FreeChain;
        h, t := Remove(n, h, t, true, l);
        ghost var nx, pv := next[..], prev[..];
        h, t := Append(n, h, t, Without(l, n));
        ChangesAgain(old(next[..]), old(prev[..]), nx, pv, next[..], prev[..], l, Without(l, n), n);
      }
    }

    /** speedy_slot_alloc; `none` when the numbers run out or the file is too small. */
    method Alloc() returns (n: nat, none: bool)
      requires Valid()
      modifies this, next, prev
      ensures Valid()
      ensures none <==> old(free) == [] && (old(alloced) + 1 >= Store.MAX_SLOTS || old(alloced) + 1 >= next.Length)
      ensures none ==>
          free == old(free) && alloced == old(alloced) && next[..] == old(next[..]) && prev[..] == old(prev[..])
      ensures !none ==> n == if old(free) == [] then old(alloced) + 1 else old(free)[0]
      ensures !none ==> Loose(n, []) && next[..] == old(next[..])[n := 0] && prev[..] == old(prev[..])[n := 0]
      ensures !none ==> free == Without(old(free), n) && alloced == if old(free) == [] then n else old(alloced)
    {
      n, none := freeHead, false;
      if n != 0 {
        WithoutAt(free, 0);
        PopFree(next[..], prev[..], free, alloced);
        freeHead := next[n];
        free := free[1..];
      } else {
        n := alloced + 1;
        if n >= Store.MAX_SLOTS || n >= next.Length {
          none := true;
          return;
        }
        alloced := n;
      }
      next[n], prev[n] := 0, 0;
      assert next[..] == old(next[..])[n := 0] && prev[..] == old(prev[..])[n := 0];
    }

    /** speedy_slot_free; it refuses slot 0 and, exactly, the slots that are free already. */
    method Free(n: nat) returns (refused: bool)
      requires Valid() && n <= alloced
      modifies this, next, prev
      ensures Valid() && alloced == old(alloced)
      ensures refused <==> n == 0 || n in old(free)
      ensures free == if refused then old(free) else [n] + old(free)
      ensures refused ==> next[..] == old(next[..]) && prev[..] == old(prev[..])
      ensures !refused ==> next[..] == old(next[..])[n := First(old(free))] && prev[..] == old(prev[..])[n := n]
    {
      if n == 0 || prev[n] == n { return true; }
      PushFree(next[..], prev[..], free, alloced, n);
      prev[n] := n;
      next[n] := freeHead;
      freeHead := n;
      free := [n] + free;
      refused := false;
      assert next[..] == old(next[..])[n := First(old(free))] && prev[..] == old(prev[..])[n := n];
    }
  }

  lemma FreeExtends(nx: seq<nat>, pv: seq<nat>, nx1: seq<nat>, pv1: seq<nat>, free: seq<nat>, alloced: nat)
    requires FreeChain(nx, pv, free, alloced) && nx <= nx1 && pv <= pv1 && |nx1| == |pv1|
    ensures FreeChain(nx1, pv1, free, alloced)
  {
  }

  lemma ChainExtends(nx: seq<nat>, pv: seq<nat>, nx1: seq<nat>, pv1: seq<nat>, l: seq<nat>)
    requires Chain(nx, pv, l) && nx <= nx1 && pv <= pv1 && |nx1| == |pv1|
    ensures Chain(nx1, pv1, l)
  {
  }

  lemma Unchanged(nx: seq<nat>, pv: seq<nat>, l: seq<nat>, n: nat)
    requires |nx| == |pv|
    ensures Changes(nx, pv, nx, pv, l, n)
  {
  }

  lemma ChangesAgain(nx: seq<nat>, pv: seq<nat>, nx1: seq<nat>, pv1: seq<nat>, nx2: seq<nat>, pv2: seq<nat>,
                     l: seq<nat>, m: seq<nat>, n: nat)
    requires Changes(nx, pv, nx1, pv1, l, n) && Changes(nx1, pv1, nx2, pv2, m, n) && forall k :: k in m ==> k in l
    ensures Changes(nx, pv, nx2, pv2, l, n)
  {
  }

  lemma PopFree(nx: seq<nat>, pv: seq<nat>, free: seq<nat>, alloced: nat)
    requires FreeChain(nx, pv, free, alloced) && free != []
    ensures FreeChain(nx[free[0] := 0], pv[free[0] := 0], free[1..], alloced) && free[0] !in free[1..]
    ensures nx[free[0]] == First(free[1..])
  {
    var n, rest := free[0], free[1..];
    forall i | 0 <= i < |rest| ensures rest[i] != n && nx[rest[i]] == After(rest, i) { assert rest[i] == free[i + 1]; }
    forall k: nat | 0 < k <= alloced && k != n ensures pv[k] == k <==> k in rest {
      assert pv[k] == k <==> k in free;
    }
    assert Distinct(rest) by { assert forall i :: 0 <= i < |rest| ==> rest[i] == free[i + 1]; }
  }

  lemma PushFree(nx: seq<nat>, pv: seq<nat>, free: seq<nat>, alloced: nat, n: nat)
    requires FreeChain(nx, pv, free, alloced) && 0 < n <= alloced && n !in free
    ensures FreeChain(nx[n := First(free)], pv[n := n], [n] + free, alloced)
  {
    var f2, nx2 := [n] + free, nx[n := First(free)];
    forall i | 0 <= i < |f2| ensures 0 < f2[i] <= alloced && nx2[f2[i]] == After(f2, i) {
      if i > 0 { PushedLater(nx, pv, free, alloced, n, i); }
    }
    PushedDistinct(free, n);
    assert forall k :: k in f2 <==> k == n || k in free;
  }

  lemma PushedLater(nx: seq<nat>, pv: seq<nat>, free: seq<nat>, alloced: nat, n: nat, i: nat)
    requires FreeChain(nx, pv, free, alloced) && 0 < n <= alloced && n !in free && 0 < i <= |free|
    ensures var f2 := [n] + free; 0 < f2[i] <= alloced && nx[n := First(free)][f2[i]] == After(f2, i)
  {
    assert ([n] + free)[i] == free[i - 1] && free[i - 1] in free;
  }

  lemma PushedDistinct(l: seq<nat>, n: nat)
    requires Distinct(l) && n !in l
    ensures Distinct([n] + l)
  {
    var m := [n] + l;
    forall i, j | 0 <= i < j < |m| ensures m[i] != m[j] {
      assert m[j] == l[j - 1] && l[j - 1] in l;
      if i > 0 { assert m[i] == l[i - 1]; }
    }
  }
}
