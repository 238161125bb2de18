/** speedy_opt.c: splitting the command line, and putting it together again for the backend. */
module Argv {

  /** isspace in the C locale. */
  predicate IsSpace(c: char) {
    c == ' ' || c == '\t' || c == '\n' || c == '\r' || c == 11 as char || c == 12 as char
  }

  predicate NoSpace(s: string) { forall i :: 0 <= i < |s| ==> !IsSpace(s[i]) }

  function WordLen(s: string): (n: nat)
    ensures n <= |s| && NoSpace(s[..n]) && (n < |s| ==> IsSpace(s[n]))
  {
    if s == [] || IsSpace(s[0]) then 0 else 1 + WordLen(s[1..])
  }

  /** The stretches between white space. */
  function Words(s: string): (w: seq<string>)
    ensures forall x :: x in w ==> x != [] && NoSpace(x)
    decreases |s|
  {
    if s == [] then []
    else if IsSpace(s[0]) then Words(s[1..])
    else [s[..WordLen(s)]] + Words(s[WordLen(s)..])
  }

  lemma {:induction false} WordLenIs(s: string, n: nat)
    requires n <= |s| && NoSpace(s[..n]) && (n < |s| ==> IsSpace(s[n]))
    ensures WordLen(s) == n
  {
    if n > 0 {
      var t := s[..n];
      assert t[0] == s[0] && s[1..][..n - 1] == t[1..] && forall i :: 0 <= i < |t[1..]| ==> t[1..][i] == t[i + 1];
      WordLenIs(s[1..], n - 1);
    }
  }

  lemma OneWord(s: string)
    requires s != [] && NoSpace(s)
    ensures Words(s) == [s]
  {
    WordLenIs(s, |s|);
    assert s[..|s|] == s && s[|s|..] == [];
  }

  // ---- splitting ----

  /** A command line without arg-0. */
  datatype Line = Line(perl: seq<string>, speedy: seq<string>, script: seq<string>)

  predicate IsOpt(w: string) { w != [] && w[0] == '-' }

  /** The options at the beginning of the words, which come after "--" when `doing`; what is left
      and whether a "--" has been seen. */
  function Options(w: seq<string>, doing: bool): (seq<string>, seq<string>, seq<string>, bool) {
    if w == [] || !IsOpt(w[0]) then ([], [], w, doing)
    else if !doing && w[0] == "--" then Options(w[1..], true)
    else
      var (perl, speedy, rest, after) := Options(w[1..], doing);
      if doing then (perl, [w[0]] + speedy, rest, after) else ([w[0]] + perl, speedy, rest, after)
  }

  function Split(args: seq<string>, doing: bool): Line {
    if args == [] then Line([], [], [])
    else
      var w := Words(args[0]);
      if w == [] || !IsOpt(w[0]) then Line([], [], args)
      else
        var (perl, speedy, rest, after) := Options(w, doing);
        if rest != [] then Line(perl, speedy, rest + args[1..])
        else
          var l := Split(args[1..], after);
          Line(perl + l.perl, speedy + l.speedy, l.script)
  }

  // ---- putting together ----

  /** exec_argv, without arg-0. */
  function Assemble(l: Line): seq<string> {
    l.perl + (if l.speedy == [] then [] else ["--"] + l.speedy) + l.script
  }

  predicate PerlWord(w: string) { IsOpt(w) && NoSpace(w) && w != "--" }
  predicate OptWord(w: string) { IsOpt(w) && NoSpace(w) }

  /** The script arguments begin with something that holds no option. */
  predicate ScriptStart(args: seq<string>) {
    args == [] || Words(args[0]) == [] || !IsOpt(Words(args[0])[0])
  }

  predicate Clean(l: Line) {
    && (forall w :: w in l.perl ==> PerlWord(w)) && (forall w :: w in l.speedy ==> OptWord(w)) && ScriptStart(l.script)
  }

  // ---- what splitting gives ----

  lemma {:induction false} OptionsShape(w: seq<string>, doing: bool)
    requires forall x :: x in w ==> x != [] && NoSpace(x)
    ensures var (perl, speedy, rest, after) := Options(w, doing);
      && (forall x :: x in perl ==> PerlWord(x)) && (forall x :: x in speedy ==> OptWord(x))
      && (rest != [] ==> !IsOpt(rest[0]) && rest[0] != [] && NoSpace(rest[0]))
  {
    if w != [] {
      assert w[0] in w && forall x :: x in w[1..] ==> x in w;
    }
    if w != [] && IsOpt(w[0]) {
      OptionsShape(w[1..], true);
      OptionsShape(w[1..], doing);
    }
  }

  lemma {:induction false} SplitShape(args: seq<string>, doing: bool)
    ensures Clean(Split(args, doing))
  {
    if args != [] {
      var w := Words(args[0]);
      if w != [] && IsOpt(w[0]) {
        OptionsShape(w, doing);
        var (perl, speedy, rest, after) := Options(w, doing);
        if rest != [] { OneWord(rest[0]); } else { SplitShape(args[1..], after); }
      }
    }
  }

  // ---- what splitting keeps ----

  /** The words on the two sides of a white space are found apart from each other. With OneWord this
      says what the words of any string are. */
  lemma {:induction false} WordsApart(u: string, c: char, v: string)
    requires IsSpace(c)
    ensures Words(u + [c] + v) == Words(u) + Words(v)
    decreases |u|
  {
    var s := u + [c] + v;
    if u == [] {
      assert s[0] == c && s[1..] == v;
    } else if IsSpace(u[0]) {
      assert s[0] == u[0] && s[1..] == u[1..] + [c] + v;
      WordsApart(u[1..], c, v);
    } else {
      var n := WordLen(u);
      assert forall i :: 0 <= i < |u| ==> s[i] == u[i];
      assert s[..n] == u[..n] && (n < |u| ==> s[n] == u[n]) && (n == |u| ==> s[n] == c);
      WordLenIs(s, n);
      assert s[n..] == u[n..] + [c] + v && n > 0;
      WordsApart(u[n..], c, v);
      assert [u[..n]] + (Words(u[n..]) + Words(v)) == ([u[..n]] + Words(u[n..])) + Words(v);
    }
  }

  /** One after the other: the perl words, "--" if one has been seen, the options, and what is left. */
  function InRow(perl: seq<string>, dash: bool, speedy: seq<string>, rest: seq<string>): seq<string> {
    perl + (if dash then ["--"] else []) + speedy + rest
  }

  lemma RowBegins(x: string, perl: seq<string>, dash: bool, speedy: seq<string>, rest: seq<string>)
    ensures InRow([x] + perl, dash, speedy, rest) == [x] + InRow(perl, dash, speedy, rest)
    ensures InRow([], false, [x] + speedy, rest) == [x] + InRow([], false, speedy, rest)
    ensures InRow([], true, speedy, rest) == ["--"] + InRow([], false, speedy, rest)
    ensures InRow([], false, [], rest) == rest
  {
  }

  /** No word of an argument is lost: one after the other, the perl words, the first "--" if it is
      new, the options and what is left are the words. */
  lemma {:induction false} NoWordLost(w: seq<string>, doing: bool)
    ensures var (perl, speedy, rest, after) := Options(w, doing);
      && w == InRow(perl, after && !doing, speedy, rest)
      && (doing ==> perl == [] && after) && (!after ==> speedy == [])
  {
    hide IsOpt, InRow;
    if w == [] || !IsOpt(w[0]) {
      RowBegins("", [], false, [], w);
    } else {
      assert w == [w[0]] + w[1..];
      var later := doing || w[0] == "--";
      NoWordLost(w[1..], later);
      var (perl, speedy, rest, after) := Options(w[1..], later);
      RowBegins(w[0], perl, after, speedy, rest);
    }
  }

  /** The words of all arguments. */
  function AllWords(args: seq<string>): seq<string> {
    if args == [] then [] else Words(args[0]) + AllWords(args[1..])
  }

  lemma {:induction false} AllWordsOf(a: seq<string>, b: seq<string>)
    ensures AllWords(a + b) == AllWords(a) + AllWords(b)
    ensures (forall x :: x in a ==> x != [] && NoSpace(x)) ==> AllWords(a) == a
  {
    if a == [] {
      assert a + b == b;
    } else {
      AllWordsOf(a[1..], b);
      assert (a + b)[0] == a[0] && (a + b)[1..] == a[1..] + b;
      if forall x :: x in a ==> x != [] && NoSpace(x) {
        assert a[0] in a && forall x :: x in a[1..] ==> x in a;
        OneWord(a[0]);
        assert a == [a[0]] + a[1..];
      }
    }
  }

  /** The words of these parts, one after the other, with a "--" between the first two if there is
      one, are the words of the arguments. */
  predicate Lossless(args: seq<string>, doing: bool, l: Line, dash: bool) {
    && AllWords(args) == l.perl + (if dash then ["--"] else []) + l.speedy + AllWords(l.script)
    && (doing ==> l.perl == [] && !dash) && (l.speedy != [] ==> doing || dash)
  }

  /** No word of a command line is lost. */
  lemma {:induction false} NoneLost(args: seq<string>, doing: bool) returns (dash: bool)
    ensures Lossless(args, doing, Split(args, doing), dash)
  {
    hide Words, Options, Lossless, AllWords;
    if args == [] || Words(args[0]) == [] || !IsOpt(Words(args[0])[0]) {
      Untouched(args, doing);
      dash := false;
    } else {
      var w := Words(args[0]);
      var (perl, speedy, rest, after) := Options(w, doing);
      dash := after && !doing;
      if rest != [] {
        StopsHere(args, doing);
      } else {
        var later := NoneLost(args[1..], after);
        GoesOn(args, doing, Split(args[1..], after), later);
        dash := dash || later;
      }
    }
  }

  lemma Untouched(args: seq<string>, doing: bool)
    ensures Lossless(args, doing, Line([], [], args), false)
  {
    assert [] + [] + [] + AllWords(args) == AllWords(args);
  }

  lemma StopsHere(args: seq<string>, doing: bool)
    requires args != []
    ensures var (perl, speedy, rest, after) := Options(Words(args[0]), doing);
      Lossless(args, doing, Line(perl, speedy, rest + args[1..]), after && !doing)
  {
    hide Words, Options;
    var w := Words(args[0]);
    var (perl, speedy, rest, after) := Options(w, doing);
    NoWordLost(w, doing);
    assert forall x :: x in rest ==> x in w;
    AllWordsOf(rest, args[1..]);
    assert w + AllWords(args[1..])
        == perl + (if after && !doing then ["--"] else []) + speedy + (rest + AllWords(args[1..]));
  }

  lemma GoesOn(args: seq<string>, doing: bool, l: Line, later: bool)
    requires args != [] && var (perl, speedy, rest, after) := Options(Words(args[0]), doing);
      rest == [] && Lossless(args[1..], after, l, later)
    ensures var (perl, speedy, rest, after) := Options(Words(args[0]), doing);
      Lossless(args, doing, Line(perl + l.perl, speedy + l.speedy, l.script), (after && !doing) || later)
  {
    hide Words, Options;
    var (perl, speedy, rest, after) := Options(Words(args[0]), doing);
    NoWordLost(Words(args[0]), doing);
    JoinParts(perl, after && !doing, speedy, l, later, AllWords(l.script));
  }

  lemma JoinParts(perl: seq<string>, dash: bool, speedy: seq<string>, l: Line, later: bool, tail: seq<string>)
    requires (dash ==> !later && l.perl == []) && (!dash ==> speedy == [] || (l.perl == [] && !later))
    ensures (perl + (if dash then ["--"] else []) + speedy + [])
            + (l.perl + (if later then ["--"] else []) + l.speedy + tail)
         == (perl + l.perl) + (if dash || later then ["--"] else []) + (speedy + l.speedy) + tail
  {
  }

  /** An argument of several options, as the kernel passes those of a #! line, is split as if every
      option were an argument of its own. */
  lemma OptionsApart(arg: string, tail: seq<string>, doing: bool)
    requires Words(arg) != [] && forall w :: w in Words(arg) ==> IsOpt(w)
    ensures Split([arg] + tail, doing) == Split(Words(arg) + tail, doing)
  {
    var w := Words(arg);
    EachApart(w, tail, doing);
    assert ([arg] + tail)[0] == arg && ([arg] + tail)[1..] == tail && w[0] in w;
  }

  lemma {:induction false} EachApart(w: seq<string>, tail: seq<string>, doing: bool)
    requires forall x :: x in w ==> IsOpt(x) && NoSpace(x)
    ensures var (perl, speedy, rest, after) := Options(w, doing); var l := Split(tail, after);
      rest == [] && Split(w + tail, doing) == Line(perl + l.perl, speedy + l.speedy, l.script)
  {
    hide Words;
    if w == [] {
      var l := Split(tail, doing);
      assert w + tail == tail && [] + l.perl == l.perl && [] + l.speedy == l.speedy;
    } else {
      assert (w + tail)[0] == w[0] && (w + tail)[1..] == w[1..] + tail && w[0] in w;
      assert forall x :: x in w[1..] ==> x in w;
      OneWord(w[0]);
      OneOption(w[0], doing);
      EachApart(w[1..], tail, doing || w[0] == "--");
    }
  }

  // ---- the round trip ----

  lemma {:induction false} SplitSpeedy(speedy: seq<string>, script: seq<string>)
    requires (forall w :: w in speedy ==> OptWord(w)) && ScriptStart(script)
    ensures Split(speedy + script, true) == Line([], speedy, script)
  {
    if speedy == [] {
      assert speedy + script == script;
    } else {
      var all := speedy + script;
      assert all[0] == speedy[0] && all[1..] == speedy[1..] + script && speedy[0] in speedy;
      OneWord(speedy[0]);
      OneOption(speedy[0], true);
      SplitSpeedy(speedy[1..], script);
      assert [speedy[0]] + speedy[1..] == speedy;
    }
  }

  lemma OneOption(w: string, doing: bool)
    requires IsOpt(w)
    ensures Options([w], doing) ==
      if doing then ([], [w], [], true) else if w == "--" then ([], [], [], true) else ([w], [], [], false)
  {
    assert [w][1..] == [] && [w][0] == w;
    assert Options([w][1..], true) == ([], [], [], true) && Options([w][1..], doing) == ([], [], [], doing);
    assert [w] + [] == [w];
  }

  lemma {:induction false} SplitPerl(perl: seq<string>, tail: seq<string>)
    requires forall w :: w in perl ==> PerlWord(w)
    ensures var l := Split(tail, false); Split(perl + tail, false) == Line(perl + l.perl, l.speedy, l.script)
  {
    if perl == [] {
      assert perl + tail == tail && [] + Split(tail, false).perl == Split(tail, false).perl;
    } else {
      var all := perl + tail;
      assert all[0] == perl[0] && all[1..] == perl[1..] + tail && perl[0] in perl;
      OneWord(perl[0]);
      OneOption(perl[0], false);
      SplitPerl(perl[1..], tail);
      assert [perl[0]] + (perl[1..] + Split(tail, false).perl) == perl + Split(tail, false).perl;
    }
  }

  lemma SplitTail(l: Line)
    requires Clean(l)
    ensures Split((if l.speedy == [] then [] else ["--"] + l.speedy) + l.script, false) == Line([], l.speedy, l.script)
  {
    if l.speedy == [] {
      assert [] + l.script == l.script;
    } else {
      var all := ["--"] + l.speedy + l.script;
      assert all[0] == "--" && all[1..] == l.speedy + l.script;
      OneWord("--");
      OneOption("--", false);
      SplitSpeedy(l.speedy, l.script);
    }
  }

  /** What was put together splits into the same parts exactly when the parts are such as
      splitting can give: every perl argument a single word that begins with '-' and is not
      "--", every option a single word that begins with '-', and no option at the beginning of
      the script arguments. */
  lemma AssembleSplits(l: Line)
    ensures Split(Assemble(l), false) == l <==> Clean(l)
  {
    SplitShape(Assemble(l), false);
    if Clean(l) {
      var tail := (if l.speedy == [] then [] else ["--"] + l.speedy) + l.script;
      assert Assemble(l) == l.perl + tail;
      SplitTail(l);
      SplitPerl(l.perl, tail);
      assert l.perl + [] == l.perl;
    }
  }

  /** An option that was changed before: its letter and its value. */
  datatype Changed = Changed(letter: char, value: string)

  function OptionText(c: Changed): string { ['-', c.letter] + c.value }

  function Texts(cs: seq<Changed>): (r: seq<string>)
    ensures |r| == |cs| && forall i :: 0 <= i < |cs| ==> r[i] == OptionText(cs[i])
  {
    if cs == [] then [] else [OptionText(cs[0])] + Texts(cs[1..])
  }

  /** speedy_opt_init: the line that the frontend makes of its own command line, the PerlArgs
      option ("" when it is unset) and the options changed before. */
  function Inited(args: seq<string>, perlArgs: string, changed: seq<Changed>): Line {
    var l := Split(args, false);
    Line(l.perl + Words(perlArgs), l.speedy + Texts(changed), l.script)
  }

  /** For every command line the backend splits exec_argv into what the frontend put there,
      exactly when no word of PerlArgs is "--" or lacks its '-', and no changed value holds white
      space. In particular it does when PerlArgs is unset and nothing was changed. */
  lemma ExecArgvRoundTrip(args: seq<string>, perlArgs: string, changed: seq<Changed>)
    requires forall c :: c in changed ==> !IsSpace(c.letter)
    ensures var l := Inited(args, perlArgs, changed);
      Split(Assemble(l), false) == l <==>
        (forall w :: w in Words(perlArgs) ==> IsOpt(w) && w != "--") && (forall c :: c in changed ==> NoSpace(c.value))
  {
    hide Assemble, Words;
    AssembleSplits(Inited(args, perlArgs, changed));
    SplitShape(args, false);
    InitedClean(Split(args, false), Words(perlArgs), changed);
  }

  lemma InitedClean(m: Line, words: seq<string>, changed: seq<Changed>)
    requires Clean(m) && (forall w :: w in words ==> NoSpace(w)) && forall c :: c in changed ==> !IsSpace(c.letter)
    ensures Clean(Line(m.perl + words, m.speedy + Texts(changed), m.script)) <==>
      (forall w :: w in words ==> IsOpt(w) && w != "--") && (forall c :: c in changed ==> NoSpace(c.value))
  {
    TextsWords(changed);
    assert (forall w :: w in words ==> PerlWord(w)) <==> forall w :: w in m.perl + words ==> PerlWord(w);
    assert (forall w :: w in Texts(changed) ==> OptWord(w))
      <==> forall w :: w in m.speedy + Texts(changed) ==> OptWord(w);
  }

  lemma {:induction false} TextsWords(changed: seq<Changed>)
    requires forall c :: c in changed ==> !IsSpace(c.letter)
    ensures (forall w :: w in Texts(changed) ==> OptWord(w)) <==> (forall c :: c in changed ==> NoSpace(c.value))
  {
    if changed != [] {
      var t := OptionText(changed[0]);
      assert changed[0] in changed && Texts(changed)[0] == t && t in Texts(changed);
      assert forall i :: 0 <= i < |changed[0].value| ==> t[i + 2] == changed[0].value[i];
      assert Texts(changed)[1..] == Texts(changed[1..]);
      assert forall w :: w in Texts(changed) <==> w == t || w in Texts(changed[1..]);
      assert forall c :: c in changed <==> c == changed[0] || c in changed[1..];
      TextsWords(changed[1..]);
    }
  }

  // ---- the code ----

  const STRLIST_MALLOC := 10

  /** A list of strings that grows. */
  class StrList {
    var ptrs: array<string>
    var len: nat

    ghost predicate Valid()
      reads this
    {
      len <= ptrs.Length
    }

    ghost function List(): (l: seq<string>)
      requires Valid()
      reads this, ptrs
    {
      ptrs[..len]
    }

    constructor ()
      ensures Valid() && List() == [] && fresh(ptrs)
    {
      ptrs, len := new string[0], 0;
    }

    /** strlist_setlen for a larger length. */
    method Grow(newLen: nat)
      requires Valid() && newLen >= len
      modifies this`ptrs
      ensures len <= newLen <= ptrs.Length && ptrs[..len] == old(ptrs[..len]) && (ptrs == old(ptrs) || fresh(ptrs))
    {
      if ptrs.Length < newLen {
        var size := if ptrs.Length != 0 then ptrs.Length * 2 else STRLIST_MALLOC;
        if size < newLen { size := newLen; }
        var larger := new string[size];
        var i := 0;
        while i < len
          invariant 0 <= i <= len <= larger.Length && len == old(len) && ptrs == old(ptrs) && larger[..i] == ptrs[..i]
        {
          larger[i] := ptrs[i];
          i := i + 1;
        }
        ptrs := larger;
      }
    }

    method Append(s: string)
      requires Valid()
      modifies this, ptrs
      ensures Valid() && List() == old(List()) + [s] && (ptrs == old(ptrs) || fresh(ptrs))
    {
      Grow(len + 1);
      ptrs[len] := s;
      len := len + 1;
      assert ptrs[..len] == ptrs[..len - 1] + [s];
    }

    method Concat(l: seq<string>)
      requires Valid()
      modifies this, ptrs
      ensures Valid() && List() == old(List()) + l && (ptrs == old(ptrs) || fresh(ptrs))
    {
      var i := 0;
      assert List() + l[..0] == List();
      while i < |l|
        invariant 0 <= i <= |l| && Valid() && List() == old(List()) + l[..i] && (ptrs == old(ptrs) || fresh(ptrs))
      {
        Append(l[i]);
        assert l[..i + 1] == l[..i] + [l[i]];
        i := i + 1;
      }
      assert l[..|l|] == l;
    }

    method SkipSpace(s: string, beg: nat) returns (at: nat)
      requires beg < |s| && IsSpace(s[beg])
      ensures beg < at <= |s| && Words(s[at..]) == Words(s[beg..])
    {
      at := beg;
      while at < |s| && IsSpace(s[at])
        invariant beg <= at <= |s| && Words(s[at..]) == Words(s[beg..])
      {
        assert s[at..][1..] == s[at + 1..];
        at := at + 1;
      }
    }

    /** strlist_split of one string: `beg` is where the current word begins, if it has begun. */
    method SplitInto(s: string)
      requires Valid()
      modifies this, ptrs
      ensures Valid() && List() == old(List()) + Words(s) && (ptrs == old(ptrs) || fresh(ptrs))
    {
      hide Words, WordLen;
      var at, beg := 0, 0;
      ghost var goal := List() + Words(s);
      assert s[0..] == s;
      while at < |s|
        invariant 0 <= beg <= at <= |s| && NoSpace(s[beg..at])
        invariant Valid() && (ptrs == old(ptrs) || fresh(ptrs)) && List() + Words(s[beg..]) == goal
        decreases |s| - at
      {
        if IsSpace(s[at]) {
          Flush(s, beg, at, goal);
          at := SkipSpace(s, at);
          beg := at;
        } else {
          assert s[beg..at + 1] == s[beg..at] + [s[at]];
          at := at + 1;
        }
      }
      Flush(s, beg, at, goal);
      NoWords(s[at..]);
      assert List() + [] == List();
    }

    /** The word from beg to position at, if it is one. */
    method Flush(s: string, beg: nat, at: nat, ghost goal: seq<string>)
      requires Valid() && beg <= at <= |s| && NoSpace(s[beg..at]) && (at < |s| ==> IsSpace(s[at]))
      requires List() + Words(s[beg..]) == goal
      modifies this, ptrs
      ensures Valid() && List() + Words(s[at..]) == goal && (ptrs == old(ptrs) || fresh(ptrs))
    {
      FirstWord(s, beg, at);
      hide Words;
      if beg < at {
        ghost var l := List();
        Append(s[beg..at]);
        assert l + ([s[beg..at]] + Words(s[at..])) == (l + [s[beg..at]]) + Words(s[at..]);
      } else {
        assert [] + Words(s[at..]) == Words(s[at..]);
      }
    }
  }

  lemma NoWords(s: string)
    requires s == []
    ensures Words(s) == []
  {
  }

  /** The words from beg on, when a word stretches from there to position at. */
  lemma FirstWord(s: string, beg: nat, at: nat)
    requires beg <= at <= |s| && NoSpace(s[beg..at]) && (at < |s| ==> IsSpace(s[at]))
    ensures Words(s[beg..]) == (if beg < at then [s[beg..at]] else []) + Words(s[at..])
  {
    if beg < at {
      var t := s[beg..];
      assert t[..at - beg] == s[beg..at] && t[at - beg..] == s[at..];
      assert t[0] == s[beg..at][0];
      WordLenIs(t, at - beg);
    }
  }

  /** The assembly of exec_argv in speedy_opt_init. */
  method ExecArgv(l: Line) returns (exec: StrList)
    ensures exec.Valid() && exec.List() == Assemble(l)
  {
    exec := new StrList();
    exec.Concat(l.perl);
    assert exec.List() == l.perl;
    ghost var opts := if l.speedy == [] then [] else ["--"] + l.speedy;
    if |l.speedy| != 0 {
      exec.Append("--");
      exec.Concat(l.speedy);
    }
    assert exec.List() == l.perl + opts;
    exec.Concat(l.script);
  }

  /** The loops of cmdline_split. */
  method Parts(args: seq<string>) returns (perl: seq<string>, speedy: seq<string>, script: seq<string>)
    ensures Line(perl, speedy, script) == Split(args, false)
  {
    perl, speedy, script := [], [], [];
    var doing := false;
    var i := 0;
    WholeNone(args);
    ghost var l := Split(args, false);
    while i < |args|
      invariant 0 <= i <= |args| && script == [] && Whole(perl, speedy, Split(args[i..], doing)) == l
    {
      hide Split, Words, Options;
      var w := SplitArg(args[i]);
      ArgStep(perl, speedy, args, i, doing);
      if w == [] || !IsOpt(w[0]) { return perl, speedy, args[i..]; }
      var p, s, rest, after := TakeOptions(w, doing);
      perl, speedy, doing := perl + p, speedy + s, after;
      i := i + 1;
      if rest != [] { return perl, speedy, rest + args[i..]; }
    }
    WholeDone(perl, speedy, args[i..], doing);
  }

  method SplitArg(s: string) returns (w: seq<string>)
    ensures w == Words(s)
  {
    var list := new StrList();
    list.SplitInto(s);
    w := list.ptrs[..list.len];
    assert [] + Words(s) == Words(s);
  }

  /** cmdline_split without arg-0. */
  method CmdlineSplit(args: seq<string>, perl: StrList, speedy: StrList, script: StrList)
    requires perl.Valid() && speedy.Valid() && script.Valid()
    requires perl != speedy && perl != script && speedy != script
    requires perl.ptrs != speedy.ptrs && perl.ptrs != script.ptrs && speedy.ptrs != script.ptrs
    modifies perl, speedy, script, perl.ptrs, speedy.ptrs, script.ptrs
    ensures perl.Valid() && speedy.Valid() && script.Valid()
    ensures var l := Split(args, false);
      && perl.List() == old(perl.List()) + l.perl && speedy.List() == old(speedy.List()) + l.speedy
      && script.List() == old(script.List()) + l.script
  {
    hide Split;
    var perlArgs, speedyOpts, scriptArgs := Parts(args);
    perl.Concat(perlArgs);
    speedy.Concat(speedyOpts);
    script.Concat(scriptArgs);
  }

  /** The loop over the words of one argument. */
  method TakeOptions(w: seq<string>, doing: bool)
    returns (perl: seq<string>, speedy: seq<string>, rest: seq<string>, after: bool)
    ensures (perl, speedy, rest, after) == Options(w, doing)
  {
    perl, speedy, after := [], [], doing;
    var i := 0;
    ghost var (p0, s0, r0, a0) := Options(w, doing);
    assert w[0..] == w && [] + p0 == p0 && [] + s0 == s0;
    while i < |w| && IsOpt(w[i])
      invariant 0 <= i <= |w|
      invariant var (p, s, r, a) := Options(w[i..], after); (perl + p, speedy + s, r, a) == Options(w, doing)
    {
      assert w[i..][1..] == w[i + 1..];
      ghost var (p, s, r, a) := Options(w[i + 1..], after);
      if !after && w[i] == "--" {
        after := true;
      } else if after {
        assert (speedy + [w[i]]) + s == speedy + ([w[i]] + s);
        speedy := speedy + [w[i]];
      } else {
        assert (perl + [w[i]]) + p == perl + ([w[i]] + p);
        perl := perl + [w[i]];
      }
      i := i + 1;
    }
    rest := w[i..];
    assert perl + [] == perl && speedy + [] == speedy;
  }

  /** What has been split off already in front of what is still to come. */
  function Whole(perl: seq<string>, speedy: seq<string>, l: Line): Line {
    Line(perl + l.perl, speedy + l.speedy, l.script)
  }

  lemma WholeNone(args: seq<string>)
    ensures args[0..] == args && Whole([], [], Split(args, false)) == Split(args, false)
  {
    var l := Split(args, false);
    assert [] + l.perl == l.perl && [] + l.speedy == l.speedy;
  }

  lemma WholeDone(perl: seq<string>, speedy: seq<string>, args: seq<string>, doing: bool)
    requires args == []
    ensures Whole(perl, speedy, Split(args, doing)) == Line(perl, speedy, [])
  {
    assert perl + [] == perl && speedy + [] == speedy;
  }

  lemma ArgStep(perl: seq<string>, speedy: seq<string>, args: seq<string>, i: int, doing: bool)
    requires 0 <= i < |args|
    ensures var w := Words(args[i]); var (p, s, rest, after) := Options(w, doing);
      Whole(perl, speedy, Split(args[i..], doing)) ==
      if w == [] || !IsOpt(w[0]) then Line(perl, speedy, args[i..])
      else if rest != [] then Line(perl + p, speedy + s, rest + args[i + 1..])
      else Whole(perl + p, speedy + s, Split(args[i + 1..], after))
  {
    var w := Words(args[i]);
    assert args[i..][1..] == args[i + 1..] && args[i..][0] == args[i];
    assert perl + [] == perl && speedy + [] == speedy;
    var (p, s, rest, after) := Options(w, doing);
    var l := Split(args[i + 1..], after);
    assert perl + (p + l.perl) == (perl + p) + l.perl && speedy + (s + l.speedy) == (speedy + s) + l.speedy;
  }
}
