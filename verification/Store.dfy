/** The shared slot store and what every C function does to it, as values.

    Slot numbers are the file's; 0 is the null link. A slot is a tagged union where the C
    code has an untagged one. The fields `grp` and `loc` record which list a slot is on;
    the program never reads them. Link fields are not here: a list is the sequence of its
    slot numbers (see SlotLinks). `live` is the set of process ids for which
    kill(pid, 0) succeeds. All functions are total: an access to a slot of the wrong kind
    reads a blank one. That no such access happens is what the methods of class TempFile
    prove before each access. */
module Store {
  import opened Lists

  datatype Loc = Hand | Queue(g: nat) | Run

  datatype Group = Group(starting: nat, parent: nat, scripts: seq<nat>, name: nat, bes: seq<nat>, fes: seq<nat>)
  datatype Backend = Backend(pid: nat, feRunning: nat, maturity: nat, grp: nat)
  datatype Frontend = Frontend(pid: nat, backend: nat, sent: bool, onSig: bool, val: int, loc: Loc)

  /** A script as stat(2) describes it. */
  datatype Key = Key(dev: int, ino: int, mtime: int)

  datatype Slot =
    | Nil
    | Free
    | Grp(gr: Group)
    | Bck(be: Backend)
    | Fro(fe: Frontend)
    | Scr(key: Key, sgrp: nat)
    | Nam(text: string, ngrp: nat)

  const SIGKILL := 9
  const MAX_SLOTS := 65530
  const GR_NAMELEN := 12

  /** The Group option: "none" or a name. */
  datatype GroupOpt = Single | Named(text: string)

  /** What strncpy keeps of a name and strncmp compares: its first 12 characters. */
  function Clip(name: string): string {
    if |name| <= GR_NAMELEN then name else name[..GR_NAMELEN]
  }

  const NO_GROUP := Group(0, 0, [], 0, [], [])
  const NO_BACKEND := Backend(0, 0, 0, 0)
  const NO_FRONTEND := Frontend(0, 0, false, false, 0, Hand)

  datatype Store = Store(m: map<nat, Slot>, alloced: nat, free: seq<nat>,
                         groups: seq<nat>, running: seq<nat>, live: set<nat>) {

    function At(n: nat): Slot { if n in m then m[n] else Nil }
    function Gr(g: nat): Group { if At(g).Grp? then At(g).gr else NO_GROUP }
    function Be(b: nat): Backend { if At(b).Bck? then At(b).be else NO_BACKEND }
    function Fe(f: nat): Frontend { if At(f).Fro? then At(f).fe else NO_FRONTEND }
    function PutGr(g: nat, v: Group): Store { this.(m := m[g := Grp(v)]) }
    function PutBe(b: nat, v: Backend): Store { this.(m := m[b := Bck(v)]) }
    function PutFe(f: nat, v: Frontend): Store { this.(m := m[f := Fro(v)]) }

    predicate Valid(g: nat) { Gr(g).scripts != [] }
  }

  /** A file that was just created. */
  const EMPTY_STORE := Store(map[], 0, [], [], [], {})

  // ---- speedy_slot.c ----

  function SlotAlloc(s: Store, v: Slot): (Store, nat) {
    if s.free != [] then (s.(free := s.free[1..], m := s.m[s.free[0] := v]), s.free[0])
    else (s.(alloced := s.alloced + 1, m := s.m[s.alloced + 1 := v]), s.alloced + 1)
  }

  function SlotFree(s: Store, n: nat): Store {
    s.(m := s.m[n := Free], free := [n] + s.free)
  }

  function MoveHead(l: seq<nat>, x: nat): seq<nat> {
    if l != [] && l[0] == x then l else [x] + Without(l, x)
  }

  function MoveTail(l: seq<nat>, x: nat): seq<nat> {
    if l != [] && l[|l| - 1] == x then l else Without(l, x) + [x]
  }

  // ---- speedy_backend.c, speedy_frontend.c: records and links between them ----

  function RemoveRunning(s: Store, f: nat): Store {
    var b := s.Fe(f).backend;
    var s1 := if b != 0 && s.Be(b).feRunning == f then s.PutBe(b, s.Be(b).(feRunning := b)) else s;
    SlotFree(s1.(running := Without(s1.running, f)), f)
  }

  function Exited(s: Store, b: nat, onSig: bool, val: int): Store {
    var f := s.Be(b).feRunning;
    if f == 0 then s else
    var s1 := s.PutBe(b, s.Be(b).(feRunning := b));
    if f == b then s1 else
    var s2 := s1.PutFe(f, s1.Fe(f).(backend := 0, onSig := onSig, val := val));
    if s2.Fe(f).pid in s2.live then s2 else RemoveRunning(s2, f)
  }

  function BackendDispose(s: Store, g: nat, b: nat): Store {
    var s1 := Exited(s, b, true, SIGKILL);
    SlotFree(s1.PutGr(g, s1.Gr(g).(bes := Without(s1.Gr(g).bes, b))), b)
  }

  function FrontendDispose(s: Store, g: nat, f: nat): Store {
    SlotFree(s.PutGr(g, s.Gr(g).(fes := Without(s.Gr(g).fes, f))), f)
  }

  // ---- speedy_group.c ----

  function BeStarting(s: Store, g: nat): (Store, nat) {
    if s.Gr(g).starting in s.live then (s, s.Gr(g).starting)
    else (s.PutGr(g, s.Gr(g).(starting := 0)), 0)
  }

  function FreeAll(s: Store, l: seq<nat>): Store
    decreases |l|
  {
    if l == [] then s else FreeAll(SlotFree(s, l[0]), l[1..])
  }

  function Invalidate(s: Store, g: nat): Store {
    if !s.Valid(g) then s else
    var s1 := FreeAll(s, s.Gr(g).scripts);
    var s2 := s1.PutGr(g, s1.Gr(g).(scripts := []));
    var n := s2.Gr(g).name;
    var s3 := if n != 0 then (var t := SlotFree(s2, n); t.PutGr(g, t.Gr(g).(name := 0))) else s2;
    s3.(groups := MoveTail(s3.groups, g))
  }

  function Cleanup(s: Store, g: nat, self: nat): Store {
    if s.Gr(g).bes != [] || s.Gr(g).fes != [] then s else
    var s1 := s.(live := s.live - ({s.Gr(g).parent} - {self}));
    var s2 := Invalidate(s1, g);
    SlotFree(s2.(groups := Without(s2.groups, g)), g)
  }

  function GroupCreate(s: Store, opt: GroupOpt): (Store, nat) {
    var (s1, g) := SlotAlloc(s, Grp(NO_GROUP));
    var s2 := s1.(groups := [g] + s1.groups);
    match opt
    case Single => (s2, g)
    case Named(text) =>
      var (s3, n) := SlotAlloc(s2, Nam(Clip(text), g));
      (s3.PutGr(g, s3.Gr(g).(name := n)), g)
  }

  function ParentSig(s: Store, g: nat): (Store, bool) {
    if s.Gr(g).parent in s.live then (s, true)
    else
      var s1 := Invalidate(s, g);
      (s1.PutGr(g, s1.Gr(g).(parent := 0)), false)
  }

  function StartBe(s: Store, g: nat): (Store, bool) {
    if s.Gr(g).parent != 0 && s.Gr(g).parent == s.Gr(g).starting then (s, true)
    else ParentSig(s, g)
  }

  /** The frontends at the head of the queue that are dead are disposed of. */
  function DropDead(s: Store, g: nat): Store
    decreases |s.Gr(g).fes|
  {
    var l := s.Gr(g).fes;
    if l == [] || s.Fe(l[0]).pid in s.live then s
    else
      var s1 := FrontendDispose(s, g, l[0]);
      if |s1.Gr(g).fes| < |l| then DropDead(s1, g) else s1
  }

  /** speedy_group_sendsigs: if a backend waits, the first live frontend is signalled. */
  function SendSigs(s: Store, g: nat): Store {
    if s.Gr(g).bes == [] || s.Be(s.Gr(g).bes[0]).feRunning != 0 then s
    else
      var s1 := DropDead(s, g);
      var l := s1.Gr(g).fes;
      if l == [] then s1 else s1.PutFe(l[0], s1.Fe(l[0]).(sent := true))
  }

  // ---- speedy_backend.c: the backend list ----

  function BeWaitGet(s: Store, g: nat): (Store, nat) {
    var (s1, x) := BeStarting(s, g);
    var l := s1.Gr(g).bes;
    if x != 0 || l == [] || s1.Be(l[0]).feRunning != 0 then (s1, 0)
    else (s1.PutGr(g, s1.Gr(g).(bes := MoveTail(l, l[0]))), l[0])
  }

  /** do_sort(a, b) <= 0 for a waiting backend a of the given maturity. */
  predicate GoesBefore(s: Store, maturity: nat, b: nat) {
    s.Be(b).feRunning != 0 || s.Be(b).maturity <= maturity
  }

  function BeWaitPut(s: Store, g: nat, b: nat): Store {
    var s1 := s.PutBe(b, s.Be(b).(feRunning := 0));
    var l := Without(s1.Gr(g).bes, b);
    s1.PutGr(g, s1.Gr(g).(bes := InsertBefore(l, b, (c: nat) => GoesBefore(s1, s1.Be(b).maturity, c))))
  }

  function CreateSlot(s: Store, g: nat): (Store, nat) {
    var (s1, b) := SlotAlloc(s, Bck(Backend(0, 0, 0, g)));
    var s2 := s1.PutBe(b, s1.Be(b).(feRunning := b));
    (s2.PutGr(g, s2.Gr(g).(bes := s2.Gr(g).bes + [b])), b)
  }

  /** No limit when max is 0. */
  predicate BelowMax(s: Store, g: nat, max: nat) {
    max == 0 || |s.Gr(g).bes| < max
  }

  // ---- speedy_script.c ----

  function FindScript(s: Store, l: seq<nat>, key: Key): nat {
    if l == [] then 0
    else if s.At(l[0]).Scr? && s.At(l[0]).key.dev == key.dev && s.At(l[0]).key.ino == key.ino then l[0]
    else FindScript(s, l[1..], key)
  }

  predicate NameMatch(s: Store, g: nat, text: string) {
    s.Gr(g).name != 0 && s.At(s.Gr(g).name).Nam? && s.At(s.Gr(g).name).text == Clip(text)
  }

  /** The search loop over the groups gs: the new store, the group that holds the script
      (or 0) and the last valid group whose name matched (or 0). */
  function Scan(s: Store, gs: seq<nat>, key: Key, opt: GroupOpt, nameMatch: nat): (Store, nat, nat)
    decreases |gs|
  {
    if gs == [] || !s.Valid(gs[0]) then (s, 0, nameMatch)
    else if opt.Named? && !NameMatch(s, gs[0], opt.text) then Scan(s, gs[1..], key, opt, nameMatch)
    else
      var g := gs[0];
      var match1 := if opt.Named? then g else nameMatch;
      var x := FindScript(s, s.Gr(g).scripts, key);
      if x == 0 then Scan(s, gs[1..], key, opt, match1)
      else if s.At(x).Scr? && s.At(x).key.mtime != key.mtime then
        Scan(Invalidate(s, g), gs[1..], key, opt, match1)
      else (s.PutGr(g, s.Gr(g).(scripts := MoveHead(s.Gr(g).scripts, x))), g, match1)
  }

  function AddScript(s: Store, nameMatch: nat, key: Key, opt: GroupOpt): (Store, nat) {
    var (s1, g) := if nameMatch == 0 || !s.Valid(nameMatch) then GroupCreate(s, opt) else (s, nameMatch);
    var (s2, x) := SlotAlloc(s1, Scr(key, g));
    (s2.PutGr(g, s2.Gr(g).(scripts := [x] + s2.Gr(g).scripts)), g)
  }

  function ScriptFind(s: Store, key: Key, opt: GroupOpt): (Store, nat) {
    var (s1, g, nameMatch) := Scan(s, s.groups, key, opt, 0);
    var (s2, g2) := if g != 0 then (s1, g) else AddScript(s1, nameMatch, key, opt);
    (s2.(groups := MoveHead(s2.groups, g2)), g2)
  }
}
