/** The script index: the lookup finds or makes a valid group, and keeps the index sound. */
module Scripts {
  import opened Lists
  import opened Store
  import opened Conservation
  import opened Invariants
  import opened Respect
  import opened Keeping
  import opened Granting
  import opened Groups

  /** The invariant without its index part. */
  ghost predicate Core(s: Store, max: nat) {
    Wf(s) && Bound(s) && Sorted(s, 0) && SentAtHead(s) && WithinMax(s, max)
  }

  lemma CoreFrame(s: Store, t: Store, max: nat)
    requires Core(s, max) && Wf(t) && SameBackends(s, t) && SameQueues(s, t) && SameRunning(s, t)
    ensures Core(t, max)
  {
    BoundFrame(s, t); SortedFrame(s, t, 0); WithinMaxFrame(s, t, max); SentFrame(s, t);
  }

  lemma GrownTrans(s: Store, t: Store, u: Store)
    requires Grown(s, t) && Grown(t, u)
    ensures Grown(s, u)
  {
  }

  lemma StrippedGrown(s: Store, t: Store, g: nat)
    requires Stripped(s, t, g) && t.live == s.live
    ensures Grown(s, t)
  {
    StrippedFrames(s, t, g);
    forall h | IsGr(s, h)
      ensures IsGr(t, h) && t.m[h].gr.starting == s.m[h].gr.starting
              && t.m[h].gr.parent == s.m[h].gr.parent
    {
      assert h == g || t.At(h) == s.At(h);
    }
    forall n | s.At(n).Fro? ensures t.At(n) == s.At(n) { assert n != g; }
  }

  // ---- one group ----

  /** A file of the key's device and inode is among the scripts l. */
  predicate Has(s: Store, l: seq<nat>, key: Key) {
    exists x :: x in l && IsScr(s, x) && s.m[x].key.dev == key.dev && s.m[x].key.ino == key.ino
  }

  lemma {:induction false} FindScriptFinds(s: Store, l: seq<nat>, key: Key)
    requires 0 !in l
    ensures var x := FindScript(s, l, key);
      && (x == 0 <==> !Has(s, l, key))
      && (x != 0 ==> x in l && IsScr(s, x) && s.m[x].key.dev == key.dev && s.m[x].key.ino == key.ino)
  {
    if l != [] {
      FindScriptFinds(s, l[1..], key);
      if FindScript(s, l, key) == l[0] {
        assert l[0] in l;
      } else {
        assert Has(s, l, key) ==> Has(s, l[1..], key) by {
          if Has(s, l, key) {
            var x :| x in l && IsScr(s, x) && s.m[x].key.dev == key.dev && s.m[x].key.ino == key.ino;
            assert x in l[1..];
          }
        }
      }
    }
  }

  /** Moving script x of group g to the front of its list. */
  function Front(s: Store, g: nat, x: nat): Store {
    s.PutGr(g, s.Gr(g).(scripts := MoveHead(s.Gr(g).scripts, x)))
  }

  lemma FrontFrames(s: Store, g: nat, l: seq<nat>)
    requires IsGr(s, g)
    ensures Grown(s, s.PutGr(g, s.Gr(g).(scripts := l)))
  {
  }

  lemma FrontKeeps(s: Store, g: nat, x: nat, max: nat)
    requires Inv(s, 0, max) && IsGr(s, g) && x in s.Gr(g).scripts
    ensures var t := Front(s, g, x);
      Inv(t, 0, max) && Grown(s, t) && t.groups == s.groups && t.alloced == s.alloced
      && (forall n :: n != g ==> t.At(n) == s.At(n)) && IsGr(t, g)
      && t.Gr(g).scripts != [] && t.Gr(g).scripts[0] == x && t.Gr(g).name == s.Gr(g).name
  {
    var t := Front(s, g, x);
    assert s.Gr(g).scripts == ListOf(s, ScrList(g));
    MoveHeadEffect(s.Gr(g).scripts, x);
    ReorderScriptsWf(s, g, MoveHead(s.Gr(g).scripts, x));
    FrontFrames(s, g, MoveHead(s.Gr(g).scripts, x));
    CoreFrame(s, t, max);
    FrontIndexed(s, g, MoveHead(s.Gr(g).scripts, x));
  }

  lemma FrontIndexed(s: Store, g: nat, l: seq<nat>)
    requires Wf(s) && Indexed(s) && IsGr(s, g) && s.Valid(g) && l != []
    requires forall y :: y in l <==> y in s.Gr(g).scripts
    ensures Indexed(s.PutGr(g, s.Gr(g).(scripts := l)))
  {
    var t := s.PutGr(g, s.Gr(g).(scripts := l));
    forall h ensures t.Valid(h) == s.Valid(h) && t.Gr(h).name == s.Gr(h).name && NameText(t, h) == NameText(s, h) {
      if s.Gr(h).name != 0 { NameSlot(s, h); }
    }
    forall h, x, y | x in t.Gr(h).scripts && y in t.Gr(h).scripts && x != y ensures !SameFile(t, x, y) {
      assert x in s.Gr(h).scripts && y in s.Gr(h).scripts;
      ListedScr(s, h, x);
      ListedScr(s, h, y);
      assert !SameFile(s, x, y);
    }
  }

  // ---- the search loop ----

  /** What is left to search: the remaining groups are valid first, and every valid group
      already passed either does not bear the name looked for or is the match noted, which
      does not list the file. */
  ghost predicate Searching(s: Store, gs: seq<nat>, key: Key, opt: GroupOpt, nameMatch: nat) {
    && NoDup(gs) && (forall g :: g in gs ==> IsGr(s, g))
    && (forall a, b :: Precedes(gs, a, b) && s.Valid(b) ==> s.Valid(a))
    && (opt.Single? ==> nameMatch == 0)
    && (opt.Named? ==> forall h :: s.Valid(h) && h !in gs && NameMatch(s, h, opt.text) ==> h == nameMatch)
    && (nameMatch != 0 ==> IsGr(s, nameMatch) && nameMatch !in gs)
    && (nameMatch != 0 && s.Valid(nameMatch) ==>
          opt.Named? && NameMatch(s, nameMatch, opt.text) && !Has(s, s.Gr(nameMatch).scripts, key))
  }

  lemma NameMatchStripped(s: Store, t: Store, g: nat, h: nat, text: string)
    requires Wf(s) && Stripped(s, t, g) && h != g
    ensures NameMatch(t, h, text) ==> NameMatch(s, h, text)
    ensures IsGr(s, h) ==> (NameMatch(t, h, text) <==> NameMatch(s, h, text))
    ensures t.Gr(h).scripts == s.Gr(h).scripts
  {
    assert t.At(h) == s.At(h) || t.At(h) == Free;
    if s.Gr(h).name != 0 {
      NameSlot(s, h);
      assert Home(s, s.Gr(h).name) == NameOf(h);
      assert t.At(s.Gr(h).name) == s.At(s.Gr(h).name);
    }
  }

  lemma RestStripped(s: Store, t: Store, gs: seq<nat>)
    requires NoDup(gs) && gs != [] && Stripped(s, t, gs[0])
    requires forall g :: g in gs ==> IsGr(s, g)
    requires forall a, b :: Precedes(gs, a, b) && s.Valid(b) ==> s.Valid(a)
    ensures forall h :: h in gs[1..] ==> IsGr(t, h)
    ensures forall a, b :: Precedes(gs[1..], a, b) && t.Valid(b) ==> t.Valid(a)
  {
    forall h | h in gs[1..] ensures IsGr(t, h) && t.At(h) == s.At(h) {
      assert h in gs && h != gs[0];
      assert Home(s, h) == GroupList;
    }
    forall a, b | Precedes(gs[1..], a, b) && t.Valid(b) ensures t.Valid(a) {
      PrecedesIn(gs[1..], a, b);
      assert Precedes(gs, a, b);
    }
  }

  lemma SearchingStripped(s: Store, t: Store, gs: seq<nat>, key: Key, opt: GroupOpt, nameMatch: nat, match1: nat)
    requires Wf(s) && Searching(s, gs, key, opt, nameMatch) && gs != [] && Stripped(s, t, gs[0])
    requires match1 == (if opt.Named? then gs[0] else nameMatch)
    requires opt.Named? ==> NameMatch(s, gs[0], opt.text)
    requires Indexed(s)
    ensures Searching(t, gs[1..], key, opt, match1)
  {
    var g := gs[0];
    RestStripped(s, t, gs);
    if opt.Named? {
      forall h | t.Valid(h) && h !in gs[1..] && NameMatch(t, h, opt.text) ensures h == match1 {
        if h != g {
          NameMatchStripped(s, t, g, h, opt.text);
          OneName(s, g, h, opt.text);
        }
      }
    }
    assert !t.Valid(g);
  }

  /** No two groups bear the same name. */
  lemma OneName(s: Store, g: nat, h: nat, text: string)
    requires Indexed(s) && NameMatch(s, g, text) && NameMatch(s, h, text)
    ensures g == h
  {
    assert NameText(s, g) == NameText(s, h);
  }

  lemma SearchingPass(s: Store, gs: seq<nat>, key: Key, opt: GroupOpt, nameMatch: nat, match1: nat)
    requires Indexed(s) && Searching(s, gs, key, opt, nameMatch) && gs != []
    requires if opt.Named? && NameMatch(s, gs[0], opt.text)
             then match1 == gs[0] && !Has(s, s.Gr(gs[0]).scripts, key)
             else match1 == nameMatch
    ensures Searching(s, gs[1..], key, opt, match1)
  {
    var g := gs[0];
    if opt.Named? {
      forall h | s.Valid(h) && h !in gs[1..] && NameMatch(s, h, opt.text) ensures h == match1 {
        if NameMatch(s, g, opt.text) { OneName(s, g, h, opt.text); }
      }
    }
  }

  /** The outcome of the search. */
  ghost predicate Searched(t: Store, g: nat, nameMatch: nat, key: Key, opt: GroupOpt) {
    && (g != 0 ==>
          IsGr(t, g) && t.Valid(g) && t.At(t.Gr(g).scripts[0]) == Scr(key, g)
          && (opt.Named? ==> NameMatch(t, g, opt.text)))
    && (g == 0 ==> Searching(t, [], key, opt, nameMatch))
  }

  lemma {:induction false} ScanKeeps(s: Store, gs: seq<nat>, key: Key, opt: GroupOpt, nameMatch: nat, max: nat)
    requires Inv(s, 0, max) && Searching(s, gs, key, opt, nameMatch)
    ensures var (t, g, m) := Scan(s, gs, key, opt, nameMatch);
      Inv(t, 0, max) && Grown(s, t) && Searched(t, g, m, key, opt) && t.alloced == s.alloced
    decreases |gs|
  {
    hide Bound,Sorted,SentAtHead,WithinMax;
    if gs == [] {
      SameRefl(s);
    } else if !s.Valid(gs[0]) {
      SameRefl(s);
      SearchEnds(s, gs, key, opt, nameMatch);
    } else if opt.Named? && !NameMatch(s, gs[0], opt.text) {
      SearchingPass(s, gs, key, opt, nameMatch, nameMatch);
      ScanKeeps(s, gs[1..], key, opt, nameMatch, max);
    } else {
      var g := gs[0];
      var match1 := if opt.Named? then g else nameMatch;
      var x := FindScript(s, s.Gr(g).scripts, key);
      NoZeroScript(s, g);
      FindScriptFinds(s, s.Gr(g).scripts, key);
      if x == 0 {
        SearchingPass(s, gs, key, opt, nameMatch, match1);
        ScanKeeps(s, gs[1..], key, opt, match1, max);
      } else if s.At(x).key.mtime != key.mtime {
        var t := Invalidate(s, g);
        InvalidateKeeps(s, g, 0, max, 0, 0, {}, {});
        InvalidateStrips(s, g);
        StrippedGrown(s, t, g);
        SearchingStripped(s, t, gs, key, opt, nameMatch, match1);
        InvalidateEffect(s, g);
        ScanKeeps(t, gs[1..], key, opt, match1, max);
        GrownTrans(s, t, Scan(t, gs[1..], key, opt, match1).0);
      } else {
        ListedScr(s, g, x);
        FrontKeeps(s, g, x, max);
        if opt.Named? { NameSlot(s, g); }
      }
    }
  }

  lemma NoZeroScript(s: Store, g: nat)
    requires Wf(s)
    ensures 0 !in s.Gr(g).scripts
  {
    if 0 in s.Gr(g).scripts { ListedScr(s, g, 0); }
  }

  lemma SearchEnds(s: Store, gs: seq<nat>, key: Key, opt: GroupOpt, nameMatch: nat)
    requires Searching(s, gs, key, opt, nameMatch) && gs != [] && !s.Valid(gs[0])
    ensures Searching(s, [], key, opt, nameMatch)
  {
    forall h | s.Valid(h) && h in gs ensures false {
      assert h != gs[0] && Precedes(gs, gs[0], h);
    }
  }

  // ---- a script that was not found ----

  /** Slot k is the same, or a group that kept all but its scripts and name, or was not in
      use and now holds a script, a name or an empty group. */
  ghost predicate IndexChange(s: Store, t: Store, k: nat) {
    || t.At(k) == s.At(k)
    || (s.At(k).Grp? && t.At(k) == Grp(s.Gr(k).(scripts := t.Gr(k).scripts, name := t.Gr(k).name)))
    || ((s.At(k).Free? || s.At(k).Nil?)
        && (t.At(k).Scr? || t.At(k).Nam? || t.At(k) == Grp(NO_GROUP.(name := t.Gr(k).name))))
  }

  lemma IndexChangeGrown(s: Store, t: Store)
    requires t.live == s.live && forall k :: IndexChange(s, t, k)
    ensures Grown(s, t)
  {
    forall k
      ensures (IsBe(t, k) <==> IsBe(s, k)) && (IsQueued(t, k) <==> IsQueued(s, k))
              && (IsRun(t, k) <==> IsRun(s, k))
    {
      assert IndexChange(s, t, k);
    }
    forall k | IsBe(t, k) ensures t.m[k].be == s.m[k].be { assert IndexChange(s, t, k); }
    forall k | IsQueued(t, k) || IsRun(t, k) ensures t.m[k].fe == s.m[k].fe { assert IndexChange(s, t, k); }
    forall k ensures t.Gr(k).bes == s.Gr(k).bes && t.Gr(k).fes == s.Gr(k).fes && t.Be(k) == s.Be(k) {
      assert IndexChange(s, t, k);
    }
    forall k | IsGr(s, k)
      ensures IsGr(t, k) && t.m[k].gr.starting == s.m[k].gr.starting
              && t.m[k].gr.parent == s.m[k].gr.parent
    {
      assert IndexChange(s, t, k);
    }
    forall n | s.At(n).Fro? ensures t.At(n) == s.At(n) { assert IndexChange(s, t, n); }
  }

  lemma Unused(s: Store, k: nat)
    requires Home(s, k) in {FreeList, Nowhere}
    ensures s.At(k).Free? || s.At(k).Nil?
  {
  }

  /** A new script slot joins the list of g. */
  lemma NewScriptEffect(s: Store, g: nat, key: Key)
    requires Wf(s) && IsGr(s, g)
    ensures var (t, n) := NewScript(s, g, key);
      && Wf(t) && Grown(s, t) && n != 0 && t.groups == s.groups && t.alloced <= s.alloced + 1
      && (forall k :: k != g && k != n ==> t.At(k) == s.At(k)) && Home(s, n) in {FreeList, Nowhere}
      && t.At(n) == Scr(key, g) && IsGr(t, g) && t.Gr(g) == s.Gr(g).(scripts := [n] + s.Gr(g).scripts)
  {
    AllocFrom(s, Scr(key, g));
    NewScriptWf(s, g, key);
    var (t, n) := NewScript(s, g, key);
    Unused(s, n);
    assert forall k :: IndexChange(s, t, k);
    IndexChangeGrown(s, t);
  }

  lemma CreateGrown(s: Store, opt: GroupOpt)
    requires Wf(s)
    ensures Grown(s, GroupCreate(s, opt).0)
  {
    GroupCreateEffect(s, opt);
    var (t, g) := GroupCreate(s, opt);
    forall k ensures IndexChange(s, t, k) {
      if t.At(k) != s.At(k) { Unused(s, k); }
    }
    IndexChangeGrown(s, t);
  }

  lemma CreateAlloced(s: Store, opt: GroupOpt)
    ensures GroupCreate(s, opt).0.alloced <= s.alloced + 2
  {
  }

  /** A new group with its first script: three unused slots at most are taken. */
  lemma NewGroupShape(s: Store, key: Key, opt: GroupOpt)
    requires Wf(s)
    ensures var (s1, g) := GroupCreate(s, opt); var (t, x) := NewScript(s1, g, key); var n := s1.Gr(g).name;
      && Wf(t) && Grown(s, t) && t.groups == [g] + s.groups && t.alloced <= s.alloced + 3 && g != 0
      && (s.At(g).Free? || s.At(g).Nil?) && (s.At(x).Free? || s.At(x).Nil?)
      && (n != 0 ==> s.At(n).Free? || s.At(n).Nil?)
      && (forall k :: k != g && k != x && (n == 0 || k != n) ==> t.At(k) == s.At(k))
      && t.At(g) == Grp(NO_GROUP.(scripts := [x], name := n)) && t.At(x) == Scr(key, g)
      && (if opt.Named? then n != 0 && t.At(n) == Nam(Clip(opt.text), g) else n == 0)
  {
    var (s1, g) := GroupCreate(s, opt);
    GroupCreateWf(s, opt);
    GroupCreateEffect(s, opt);
    CreateGrown(s, opt);
    CreateAlloced(s, opt);
    NewScriptEffect(s1, g, key);
    var (t, x) := NewScript(s1, g, key);
    GrownTrans(s, s1, t);
    Unused(s1, x);
    Unused(s, g);
    if opt.Named? { Unused(s, s1.Gr(g).name); }
    assert s1.At(x) == s.At(x);
  }

  lemma NewGroupIndexed(s: Store, key: Key, opt: GroupOpt)
    requires Wf(s) && Indexed(s)
    requires opt.Named? ==> forall h :: s.Valid(h) ==> !NameMatch(s, h, opt.text)
    ensures var (s1, g) := GroupCreate(s, opt); Indexed(NewScript(s1, g, key).0)
  {
    var (s1, g) := GroupCreate(s, opt);
    NewGroupShape(s, key, opt);
    var (t, x) := NewScript(s1, g, key);
    NewGroupRecords(s, t, g, x, s1.Gr(g).name, opt);
    NewGroupFinal(s, t, g, s1.Gr(g).name, opt);
  }

  lemma NewGroupFinal(s: Store, t: Store, g: nat, n: nat, opt: GroupOpt)
    requires Wf(s) && Indexed(s) && t.groups == [g] + s.groups && !IsGr(s, g)
    requires opt.Named? ==> forall h :: s.Valid(h) ==> !NameMatch(s, h, opt.text)
    requires forall h :: h != g ==> t.Gr(h) == s.Gr(h)
    requires forall h :: h != g && s.Gr(h).name != 0 ==> NameText(t, h) == NameText(s, h)
    requires forall k :: s.At(k).Scr? ==> t.At(k) == s.At(k)
    requires |t.Gr(g).scripts| == 1 && (t.Gr(g).name != 0 ==> opt.Named? && NameText(t, g) == Clip(opt.text))
    ensures Indexed(t)
  {
    forall a, b | Precedes(t.groups, a, b) && t.Valid(b) ensures t.Valid(a) {
      PrecedesCons(s.groups, g, a, b);
      if a != g {
        PrecedesIn(s.groups, a, b);
        assert b in ListOf(s, GroupList) && Home(s, b) == GroupList;
        assert s.Valid(b) && s.Valid(a);
      }
    }
    forall a, b | a != b && t.Gr(a).name != 0 && t.Gr(b).name != 0 ensures NameText(t, a) != NameText(t, b) {
      if a == g || b == g {
        var h := if a == g then b else a;
        assert s.Valid(h) && !NameMatch(s, h, opt.text);
        NameSlot(s, h);
      }
    }
    forall h, x, y | x in t.Gr(h).scripts && y in t.Gr(h).scripts && x != y ensures !SameFile(t, x, y) {
      if h != g {
        assert !SameFile(s, x, y);
        ListedScr(s, h, x);
        ListedScr(s, h, y);
        assert t.At(x) == s.At(x) && t.At(y) == s.At(y);
      }
    }
  }

  /** The records of the other groups, their scripts and their names are as before. */
  lemma NewGroupRecords(s: Store, t: Store, g: nat, x: nat, n: nat, opt: GroupOpt)
    requires Wf(s) && (s.At(g).Free? || s.At(g).Nil?) && (s.At(x).Free? || s.At(x).Nil?)
    requires n != 0 ==> s.At(n).Free? || s.At(n).Nil?
    requires forall k :: k != g && k != x && (n == 0 || k != n) ==> t.At(k) == s.At(k)
    requires t.At(g) == Grp(NO_GROUP.(scripts := [x], name := n)) && t.At(x).Scr?
    requires if opt.Named? then n != 0 && t.At(n) == Nam(Clip(opt.text), g) else n == 0
    ensures forall h :: h != g ==> t.Gr(h) == s.Gr(h)
    ensures forall h :: h != g && s.Gr(h).name != 0 ==> NameText(t, h) == NameText(s, h)
    ensures forall k :: s.At(k).Scr? ==> t.At(k) == s.At(k)
    ensures t.Gr(g) == NO_GROUP.(scripts := [x], name := n) && (opt.Named? ==> NameText(t, g) == Clip(opt.text))
  {
    forall h | h != g ensures t.Gr(h) == s.Gr(h) {
      assert h == x || (n != 0 && h == n) || t.At(h) == s.At(h);
    }
    forall h | h != g && s.Gr(h).name != 0 ensures NameText(t, h) == NameText(s, h) {
      NameSlot(s, h);
      assert t.At(s.Gr(h).name) == s.At(s.Gr(h).name);
    }
  }

  lemma MatchIndexed(s: Store, g: nat, key: Key)
    requires Wf(s) && Indexed(s) && IsGr(s, g) && s.Valid(g) && !Has(s, s.Gr(g).scripts, key)
    ensures Indexed(NewScript(s, g, key).0)
  {
    NewScriptEffect(s, g, key);
    var (t, n) := NewScript(s, g, key);
    Unused(s, n);
    forall h ensures t.Valid(h) == s.Valid(h) && t.Gr(h).name == s.Gr(h).name {
      assert h == g || h == n || t.At(h) == s.At(h);
    }
    forall h | s.Gr(h).name != 0 ensures NameText(t, h) == NameText(s, h) {
      NameSlot(s, h);
      assert t.At(s.Gr(h).name) == s.At(s.Gr(h).name);
    }
    forall h, x, y | x in t.Gr(h).scripts && y in t.Gr(h).scripts && x != y ensures !SameFile(t, x, y) {
      assert h == g || h == n || t.At(h) == s.At(h);
      MatchScripts(s, t, g, n, key, h, x, y);
    }
  }

  lemma MatchScripts(s: Store, t: Store, g: nat, n: nat, key: Key, h: nat, x: nat, y: nat)
    requires Wf(s) && Indexed(s) && IsGr(s, g) && !Has(s, s.Gr(g).scripts, key)
    requires forall k :: k != g && k != n ==> t.At(k) == s.At(k)
    requires t.At(n) == Scr(key, g) && t.At(g) == Grp(s.Gr(g).(scripts := [n] + s.Gr(g).scripts))
    requires s.At(n).Free? || s.At(n).Nil?
    requires x in t.Gr(h).scripts && y in t.Gr(h).scripts && x != y
    ensures !SameFile(t, x, y)
  {
    assert h == g || h == n || t.At(h) == s.At(h);
    if x != n { ListedScr(s, h, x); assert t.At(x) == s.At(x); }
    if y != n { ListedScr(s, h, y); assert t.At(y) == s.At(y); }
    if x != n && y != n {
      assert !SameFile(s, x, y);
    } else {
      if h != g && n in s.Gr(h).scripts { ListedScr(s, h, n); }
      assert h == g;
      assert SameFile(t, x, y) ==> Has(s, s.Gr(g).scripts, key);
    }
  }

  lemma AddScriptKeeps(s: Store, nameMatch: nat, key: Key, opt: GroupOpt, max: nat)
    requires Inv(s, 0, max) && Searching(s, [], key, opt, nameMatch)
    ensures var (t, g) := AddScript(s, nameMatch, key, opt);
      && Inv(t, 0, max) && Grown(s, t) && t.alloced <= s.alloced + 3 && g != 0
      && IsGr(t, g) && t.Valid(g) && t.At(t.Gr(g).scripts[0]) == Scr(key, g)
      && (opt.Named? ==> NameMatch(t, g, opt.text))
  {
    hide Bound,Sorted,SentAtHead,WithinMax,SameBackends,SameQueues,SameRunning;
    if nameMatch == 0 || !s.Valid(nameMatch) {
      var (s1, g) := GroupCreate(s, opt);
      NewGroupShape(s, key, opt);
      NewGroupIndexed(s, key, opt);
      CoreFrame(s, NewScript(s1, g, key).0, max);
    } else {
      NewScriptEffect(s, nameMatch, key);
      MatchIndexed(s, nameMatch, key);
      CoreFrame(s, NewScript(s, nameMatch, key).0, max);
      NameSlot(s, nameMatch);
      Unused(s, NewScript(s, nameMatch, key).1);
    }
  }

  lemma MoveHeadOrder(l: seq<nat>, g: nat, a: nat, b: nat)
    requires NoDup(l) && Precedes(MoveHead(l, g), a, b)
    ensures b != g && (a == g || Precedes(l, a, b))
  {
    if l != [] && l[0] == g {
      PrecedesAsym(l, a, b);
    } else {
      PrecedesCons(Without(l, g), g, a, b);
      if Precedes(Without(l, g), a, b) { PrecedesWithout(l, g, a, b); }
    }
  }

  /** A valid group may go to the head of the group list. */
  lemma HeadKeeps(s: Store, g: nat, max: nat)
    requires Inv(s, 0, max) && IsGr(s, g) && s.Valid(g)
    ensures var t := s.(groups := MoveHead(s.groups, g)); Inv(t, 0, max) && Grown(s, t)
  {
    hide Bound,Sorted,SentAtHead,WithinMax;
    var t := s.(groups := MoveHead(s.groups, g));
    assert s.groups == ListOf(s, GroupList) && Home(s, g) == GroupList;
    MoveHeadEffect(s.groups, g);
    GroupsWf(s, MoveHead(s.groups, g));
    CoreFrame(s, t, max);
    forall a, b | Precedes(t.groups, a, b) && t.Valid(b) ensures t.Valid(a) {
      MoveHeadOrder(s.groups, g, a, b);
      assert s.Valid(b);
    }
    forall h ensures NameText(t, h) == NameText(s, h) {}
    forall h, x, y | x in t.Gr(h).scripts && y in t.Gr(h).scripts && x != y ensures !SameFile(t, x, y) {
      assert !SameFile(s, x, y);
    }
  }

  lemma SearchStarts(s: Store, key: Key, opt: GroupOpt)
    requires Wf(s) && Indexed(s)
    ensures Searching(s, s.groups, key, opt, 0)
  {
    assert s.groups == ListOf(s, GroupList);
    forall g | g in s.groups ensures IsGr(s, g) { assert Home(s, g) == GroupList; }
    forall h | s.Valid(h) ensures h in s.groups { assert Home(s, h) == GroupList; }
  }

  /** The search, and the new script when it found nothing. */
  function FindOrAdd(s: Store, key: Key, opt: GroupOpt): (Store, nat) {
    var (s1, g, nameMatch) := Scan(s, s.groups, key, opt, 0);
    if g != 0 then (s1, g) else AddScript(s1, nameMatch, key, opt)
  }

  lemma FindOrAddKeeps(s: Store, key: Key, opt: GroupOpt, max: nat)
    requires Inv(s, 0, max)
    ensures var (t, g) := FindOrAdd(s, key, opt);
      && Inv(t, 0, max) && Grown(s, t) && t.alloced <= s.alloced + 3
      && IsGr(t, g) && t.Valid(g) && t.At(t.Gr(g).scripts[0]) == Scr(key, g)
      && (opt.Named? ==> NameMatch(t, g, opt.text))
  {
    SearchStarts(s, key, opt);
    ScanKeeps(s, s.groups, key, opt, 0, max);
    var (s1, g, nameMatch) := Scan(s, s.groups, key, opt, 0);
    if g == 0 {
      AddScriptKeeps(s1, nameMatch, key, opt, max);
      GrownTrans(s, s1, AddScript(s1, nameMatch, key, opt).0);
    }
  }

  /** speedy_script_find: the group returned is valid, heads the group list, bears the name
      asked for, and its first script is the file asked for at the same modification time.
      At most three slots are taken from beyond slots_alloced. */
  lemma ScriptFindKeeps(s: Store, key: Key, opt: GroupOpt, max: nat)
    requires Inv(s, 0, max)
    ensures var (t, g) := ScriptFind(s, key, opt);
      && Inv(t, 0, max) && Grown(s, t) && t.alloced <= s.alloced + 3
      && IsGr(t, g) && t.Valid(g) && t.At(t.Gr(g).scripts[0]) == Scr(key, g)
      && t.groups != [] && t.groups[0] == g
      && (opt.Named? ==> NameMatch(t, g, opt.text))
  {
    FindOrAddKeeps(s, key, opt, max);
    var (s2, g) := FindOrAdd(s, key, opt);
    HeadKeeps(s2, g, max);
    GrownTrans(s, s2, s2.(groups := MoveHead(s2.groups, g)));
  }

  // ---- a script that is there is found ----

  /** Group h is one that a lookup may use: valid, of the right name, with the very script. */
  predicate Offers(s: Store, h: nat, x: nat, key: Key, opt: GroupOpt) {
    IsGr(s, h) && x in s.Gr(h).scripts && s.At(x) == Scr(key, h) && (opt.Named? ==> NameMatch(s, h, opt.text))
  }

  lemma OffersStill(s: Store, g: nat, h: nat, x: nat, key: Key, opt: GroupOpt, max: nat)
    requires Inv(s, 0, max) && IsGr(s, g) && s.Valid(g) && g != h && Offers(s, h, x, key, opt)
    ensures Offers(Invalidate(s, g), h, x, key, opt)
  {
    var t := Invalidate(s, g);
    InvalidateStrips(s, g);
    if opt.Named? { NameMatchStripped(s, t, g, h, opt.text); }
    InvalidateEffect(s, g);
    assert Home(s, h) == GroupList && Home(s, x) == ScrList(h);
    assert t.At(h) == s.At(h) && t.At(x) == s.At(x);
  }

  /** The one script of this file in the group is found, and its time is right. */
  lemma FindsIt(s: Store, h: nat, x: nat, key: Key, opt: GroupOpt, max: nat)
    requires Inv(s, 0, max) && Offers(s, h, x, key, opt)
    ensures FindScript(s, s.Gr(h).scripts, key) == x && x != 0
  {
    NoZeroScript(s, h);
    FindScriptFinds(s, s.Gr(h).scripts, key);
    var y := FindScript(s, s.Gr(h).scripts, key);
    assert Has(s, s.Gr(h).scripts, key);
    if y != x { assert SameFile(s, x, y); }
  }

  lemma {:induction false} ScanFinds(s: Store, gs: seq<nat>, key: Key, opt: GroupOpt, nameMatch: nat, max: nat,
      h: nat, x: nat)
    requires Inv(s, 0, max) && Searching(s, gs, key, opt, nameMatch) && h in gs && Offers(s, h, x, key, opt)
    ensures Scan(s, gs, key, opt, nameMatch).1 != 0
    decreases |gs|
  {
    var g := gs[0];
    if g != h { assert Precedes(gs, g, h); }
    assert s.Valid(g) && g != 0;
    if g == h {
      FindsIt(s, h, x, key, opt, max);
    } else if opt.Named? && !NameMatch(s, g, opt.text) {
      SearchingPass(s, gs, key, opt, nameMatch, nameMatch);
      ScanFinds(s, gs[1..], key, opt, nameMatch, max, h, x);
    } else {
      ScanFindsLater(s, gs, key, opt, nameMatch, max, h, x);
    }
  }

  lemma ScanFindsLater(s: Store, gs: seq<nat>, key: Key, opt: GroupOpt, nameMatch: nat, max: nat, h: nat, x: nat)
    requires Inv(s, 0, max) && Searching(s, gs, key, opt, nameMatch) && h in gs && Offers(s, h, x, key, opt)
    requires gs[0] != h && gs[0] != 0 && s.Valid(gs[0]) && (opt.Named? ==> NameMatch(s, gs[0], opt.text))
    ensures Scan(s, gs, key, opt, nameMatch).1 != 0
    decreases |gs|, 0
  {
    var g := gs[0];
    var match1 := if opt.Named? then g else nameMatch;
    var y := FindScript(s, s.Gr(g).scripts, key);
    NoZeroScript(s, g);
    FindScriptFinds(s, s.Gr(g).scripts, key);
    if y == 0 {
      SearchingPass(s, gs, key, opt, nameMatch, match1);
      ScanFinds(s, gs[1..], key, opt, match1, max, h, x);
    } else if s.At(y).key.mtime != key.mtime {
      InvalidateKeeps(s, g, 0, max, 0, 0, {}, {});
      InvalidateStrips(s, g);
      SearchingStripped(s, Invalidate(s, g), gs, key, opt, nameMatch, match1);
      OffersStill(s, g, h, x, key, opt, max);
      ScanFinds(Invalidate(s, g), gs[1..], key, opt, match1, max, h, x);
    }
  }

  /** A lookup of a script that some group offers takes no slot: no second group and no second
      record of the script comes to be. */
  lemma ScriptReused(s: Store, key: Key, opt: GroupOpt, max: nat, h: nat, x: nat)
    requires Inv(s, 0, max) && Offers(s, h, x, key, opt)
    ensures var t := ScriptFind(s, key, opt).0; t.alloced == s.alloced && forall n :: n in s.free ==> n in t.free
  {
    SearchStarts(s, key, opt);
    assert Home(s, h) == GroupList && h in ListOf(s, GroupList);
    ScanFinds(s, s.groups, key, opt, 0, max, h, x);
    ScanKeeps(s, s.groups, key, opt, 0, max);
    ScanFrees(s, s.groups, key, opt, 0);
  }

  lemma {:induction false} FreeAllFrees(s: Store, l: seq<nat>)
    ensures forall n :: n in s.free ==> n in FreeAll(s, l).free
    decreases |l|
  {
    if l != [] { FreeAllFrees(SlotFree(s, l[0]), l[1..]); }
  }

  lemma {:induction false} ScanFrees(s: Store, gs: seq<nat>, key: Key, opt: GroupOpt, nameMatch: nat)
    ensures forall n :: n in s.free ==> n in Scan(s, gs, key, opt, nameMatch).0.free
    decreases |gs|
  {
    if gs != [] {
      var m := if opt.Named? then gs[0] else nameMatch;
      FreeAllFrees(s, s.Gr(gs[0]).scripts);
      ScanFrees(s, gs[1..], key, opt, nameMatch);
      ScanFrees(s, gs[1..], key, opt, m);
      ScanFrees(Invalidate(s, gs[0]), gs[1..], key, opt, m);
    }
  }

  // ---- a script that has changed is not used any more ----

  /** Group h has the right name and lists the file, with another modification time. */
  predicate Stale(s: Store, h: nat, x: nat, key: Key, opt: GroupOpt) {
    && IsGr(s, h) && x in s.Gr(h).scripts && s.At(x).Scr? && (opt.Named? ==> NameMatch(s, h, opt.text))
    && s.At(x).key.dev == key.dev && s.At(x).key.ino == key.ino && s.At(x).key.mtime != key.mtime
  }

  lemma StaleStill(s: Store, g: nat, h: nat, x: nat, key: Key, opt: GroupOpt, max: nat)
    requires Inv(s, 0, max) && IsGr(s, g) && s.Valid(g) && g != h && Stale(s, h, x, key, opt)
    ensures Stale(Invalidate(s, g), h, x, key, opt)
  {
    var t := Invalidate(s, g);
    InvalidateStrips(s, g);
    if opt.Named? { NameMatchStripped(s, t, g, h, opt.text); }
    InvalidateEffect(s, g);
    ListedScr(s, h, x);
    assert Home(s, h) == GroupList && Home(s, x) == ScrList(h);
    assert t.At(h) == s.At(h) && t.At(x) == s.At(x);
  }

  lemma StaleFound(s: Store, h: nat, x: nat, key: Key, opt: GroupOpt, max: nat)
    requires Inv(s, 0, max) && Stale(s, h, x, key, opt)
    ensures FindScript(s, s.Gr(h).scripts, key) == x && x != 0
  {
    NoZeroScript(s, h);
    FindScriptFinds(s, s.Gr(h).scripts, key);
    var y := FindScript(s, s.Gr(h).scripts, key);
    assert Has(s, s.Gr(h).scripts, key);
    if y != x { assert SameFile(s, x, y); }
  }

  /** The search makes no group valid. */
  lemma {:induction false} ScanValid(s: Store, gs: seq<nat>, key: Key, opt: GroupOpt, nameMatch: nat, max: nat, h: nat)
    requires Inv(s, 0, max) && Searching(s, gs, key, opt, nameMatch) && !s.Valid(h)
    ensures !Scan(s, gs, key, opt, nameMatch).0.Valid(h)
    decreases |gs|
  {
    hide Bound, Sorted, SentAtHead, WithinMax;
    if gs != [] && s.Valid(gs[0]) {
      var g := gs[0];
      if opt.Named? && !NameMatch(s, g, opt.text) {
        SearchingPass(s, gs, key, opt, nameMatch, nameMatch);
        ScanValid(s, gs[1..], key, opt, nameMatch, max, h);
      } else {
        var match1 := if opt.Named? then g else nameMatch;
        var y := FindScript(s, s.Gr(g).scripts, key);
        NoZeroScript(s, g);
        FindScriptFinds(s, s.Gr(g).scripts, key);
        if y == 0 {
          SearchingPass(s, gs, key, opt, nameMatch, match1);
          ScanValid(s, gs[1..], key, opt, match1, max, h);
        } else if s.At(y).key.mtime != key.mtime {
          InvalidateKeeps(s, g, 0, max, 0, 0, {}, {});
          InvalidateStrips(s, g);
          SearchingStripped(s, Invalidate(s, g), gs, key, opt, nameMatch, match1);
          InvalidateEffect(s, g);
          ScanValid(Invalidate(s, g), gs[1..], key, opt, match1, max, h);
        }
      }
    }
  }

  /** A stale group is invalid after the search, unless the search ended at a group before it. */
  lemma {:induction false} ScanDrops(s: Store, gs: seq<nat>, key: Key, opt: GroupOpt, nameMatch: nat, max: nat,
      h: nat, x: nat)
    requires Inv(s, 0, max) && Searching(s, gs, key, opt, nameMatch) && h in gs && Stale(s, h, x, key, opt)
    ensures var (t, g, _) := Scan(s, gs, key, opt, nameMatch); t.Valid(h) ==> g != 0 && Precedes(gs, g, h)
    decreases |gs|
  {
    hide Bound, Sorted, SentAtHead, WithinMax;
    var g := gs[0];
    var match1 := if opt.Named? then g else nameMatch;
    if g != h { assert Precedes(gs, g, h); }
    assert s.Valid(g) && g != 0;
    var y := FindScript(s, s.Gr(g).scripts, key);
    NoZeroScript(s, g);
    FindScriptFinds(s, s.Gr(g).scripts, key);
    if g == h {
      StaleFound(s, h, x, key, opt, max);
    }
    if opt.Named? && !NameMatch(s, g, opt.text) {
      SearchingPass(s, gs, key, opt, nameMatch, nameMatch);
      ScanDrops(s, gs[1..], key, opt, nameMatch, max, h, x);
    } else if y == 0 {
      SearchingPass(s, gs, key, opt, nameMatch, match1);
      ScanDrops(s, gs[1..], key, opt, match1, max, h, x);
    } else if s.At(y).key.mtime != key.mtime {
      InvalidateKeeps(s, g, 0, max, 0, 0, {}, {});
      InvalidateStrips(s, g);
      SearchingStripped(s, Invalidate(s, g), gs, key, opt, nameMatch, match1);
      if g == h {
        ScanValid(Invalidate(s, g), gs[1..], key, opt, match1, max, h);
      } else {
        StaleStill(s, g, h, x, key, opt, max);
        ScanDrops(Invalidate(s, g), gs[1..], key, opt, match1, max, h, x);
      }
    }
  }

  lemma AddedInvalid(s: Store, nameMatch: nat, key: Key, opt: GroupOpt, h: nat)
    requires Wf(s) && IsGr(s, h) && !s.Valid(h) && (nameMatch != 0 ==> IsGr(s, nameMatch))
    ensures !AddScript(s, nameMatch, key, opt).0.Valid(h)
  {
    if nameMatch == 0 || !s.Valid(nameMatch) {
      NewGroupShape(s, key, opt);
    } else {
      NewScriptEffect(s, nameMatch, key);
      Unused(s, NewScript(s, nameMatch, key).1);
    }
  }

  /** A lookup leaves no group valid that lists the file with another modification time, of those that
      stand before the group found: all of them, when the file was nowhere up to date. */
  lemma StaleGoes(s: Store, key: Key, opt: GroupOpt, max: nat, h: nat, x: nat)
    requires Inv(s, 0, max) && Stale(s, h, x, key, opt)
    ensures var (t, g) := ScriptFind(s, key, opt); t.Valid(h) ==> Precedes(s.groups, g, h)
  {
    hide Bound, Sorted, SentAtHead, WithinMax;
    SearchStarts(s, key, opt);
    assert Home(s, h) == GroupList && h in ListOf(s, GroupList);
    ScanDrops(s, s.groups, key, opt, 0, max, h, x);
    ScanKeeps(s, s.groups, key, opt, 0, max);
    var (s1, g, m) := Scan(s, s.groups, key, opt, 0);
    if g == 0 { AddedInvalid(s1, m, key, opt, h); }
  }

  lemma SparedStill(s: Store, g: nat, h: nat, key: Key, opt: GroupOpt, max: nat)
    requires Inv(s, 0, max) && IsGr(s, g) && s.Valid(g) && g != h && s.Valid(h) && forall x :: !Stale(s, h, x, key, opt)
    ensures var t := Invalidate(s, g); t.Valid(h) && forall x :: !Stale(t, h, x, key, opt)
  {
    var t := Invalidate(s, g);
    InvalidateStrips(s, g);
    if opt.Named? { NameMatchStripped(s, t, g, h, opt.text); }
    InvalidateEffect(s, g);
    assert t.At(h) == s.At(h);
    forall x ensures !Stale(t, h, x, key, opt) {
      assert !Stale(s, h, x, key, opt);
      assert t.At(x) == s.At(x) || t.At(x) == Free || x == g;
    }
  }

  /** The search spares a group that is not stale. */
  lemma {:induction false} ScanSpares(s: Store, gs: seq<nat>, key: Key, opt: GroupOpt, nameMatch: nat, max: nat, h: nat)
    requires Inv(s, 0, max) && Searching(s, gs, key, opt, nameMatch) && s.Valid(h)
    requires forall x :: !Stale(s, h, x, key, opt)
    ensures Scan(s, gs, key, opt, nameMatch).0.Valid(h)
    decreases |gs|
  {
    hide Bound, Sorted, SentAtHead, WithinMax;
    if gs != [] && s.Valid(gs[0]) {
      var g := gs[0];
      if opt.Named? && !NameMatch(s, g, opt.text) {
        SearchingPass(s, gs, key, opt, nameMatch, nameMatch);
        ScanSpares(s, gs[1..], key, opt, nameMatch, max, h);
      } else {
        var match1 := if opt.Named? then g else nameMatch;
        var y := FindScript(s, s.Gr(g).scripts, key);
        NoZeroScript(s, g);
        FindScriptFinds(s, s.Gr(g).scripts, key);
        if y == 0 {
          SearchingPass(s, gs, key, opt, nameMatch, match1);
          ScanSpares(s, gs[1..], key, opt, match1, max, h);
        } else if s.At(y).key.mtime != key.mtime {
          assert Stale(s, g, y, key, opt);
          InvalidateKeeps(s, g, 0, max, 0, 0, {}, {});
          InvalidateStrips(s, g);
          SearchingStripped(s, Invalidate(s, g), gs, key, opt, nameMatch, match1);
          SparedStill(s, g, h, key, opt, max);
          ScanSpares(Invalidate(s, g), gs[1..], key, opt, match1, max, h);
        }
      }
    }
  }

  lemma AddedValid(s: Store, nameMatch: nat, key: Key, opt: GroupOpt, h: nat)
    requires Wf(s) && s.Valid(h) && (nameMatch != 0 ==> IsGr(s, nameMatch))
    ensures AddScript(s, nameMatch, key, opt).0.Valid(h)
  {
    if nameMatch == 0 || !s.Valid(nameMatch) {
      NewGroupShape(s, key, opt);
    } else {
      NewScriptEffect(s, nameMatch, key);
      Unused(s, NewScript(s, nameMatch, key).1);
    }
  }

  /** No other group is invalidated by a lookup. */
  lemma OthersSpared(s: Store, key: Key, opt: GroupOpt, max: nat, h: nat)
    requires Inv(s, 0, max) && s.Valid(h) && forall x :: !Stale(s, h, x, key, opt)
    ensures ScriptFind(s, key, opt).0.Valid(h)
  {
    hide Bound, Sorted, SentAtHead, WithinMax;
    SearchStarts(s, key, opt);
    ScanSpares(s, s.groups, key, opt, 0, max, h);
    ScanKeeps(s, s.groups, key, opt, 0, max);
    var (s1, g, m) := Scan(s, s.groups, key, opt, 0);
    if g == 0 { AddedValid(s1, m, key, opt, h); }
  }
}
