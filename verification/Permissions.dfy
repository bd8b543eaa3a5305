/** Checking and repairing the file modes of a HiddenServiceDir. */
module Permissions {
  import opened Wrappers
  import opened Text
  import opened Sorting

  /** A file mode: nine permission bits, and above them bits that Perm masks out. */
  type Mode = bv16

  const PERM: Mode := 0x1FF
  const DIR_MODE: Mode := 0x1C0
  const SECRET_MODE: Mode := 0x180
  const PUBLIC_MAX_MODE: Mode := 0x1A4

  const SECRET_KEY_FILE := "hs_ed25519_secret_key"
  const AUTHORIZED_CLIENTS := "authorized_clients"

  function Perm(m: Mode): Mode {
    m & PERM
  }

  /** The permission bits beyond those any file may have. */
  function Excess(m: Mode): Mode {
    Perm(m) & !PUBLIC_MAX_MODE
  }

  function Capped(m: Mode): Mode {
    Perm(m) & PUBLIC_MAX_MODE
  }

  /** The bits of `now` that `before` did not have. */
  function Gained(before: Mode, now: Mode): Mode {
    now & !before
  }

  // ---------------------------------------------------------------- file trees and their walk

  /** The names in a file tree without symbolic links; the modes are kept apart, by path. */
  datatype Tree = File | Dir(kids: Kids)
  datatype Kids = Empty | More(name: string, tree: Tree, rest: Kids)

  function Names(k: Kids): set<string> {
    match k
    case Empty => {}
    case More(n, _, rest) => {n} + Names(rest)
  }

  predicate Good(t: Tree)
    decreases t
  {
    t.Dir? ==> GoodKids(t.kids)
  }

  /** What a file system guarantees: names without a slash, no two alike in one directory. */
  predicate GoodKids(k: Kids)
    decreases k
  {
    match k
    case Empty => true
    case More(n, t, rest) => '/' !in n && n !in Names(rest) && Good(t) && GoodKids(rest)
  }

  datatype Item = Item(path: string, name: string, isDir: bool)

  /** The entries in the order a directory walk visits them, a directory before its contents. */
  function Walk(path: string, name: string, t: Tree): (r: seq<Item>)
    ensures r != [] && r[0] == Item(path, name, t.Dir?)
    decreases t
  {
    [Item(path, name, t.Dir?)] + if t.Dir? then WalkAll(path, t.kids) else []
  }

  function WalkAll(path: string, k: Kids): seq<Item>
    decreases k
  {
    match k
    case Empty => []
    case More(n, t, rest) => Walk(path + "/" + n, n, t) + WalkAll(path, rest)
  }

  /** A path at or below another. */
  predicate Under(top: string, p: string) {
    p == top || HasPrefix(p, top + "/")
  }

  predicate AllUnder(top: string, items: seq<Item>) {
    forall it | it in items :: Under(top, it.path)
  }

  predicate Distinct(items: seq<Item>) {
    forall i, j | 0 <= i < j < |items| :: items[i].path != items[j].path
  }

  lemma UnderTransitive(top: string, name: string, p: string)
    requires Under(top + "/" + name, p)
    ensures HasPrefix(p, top + "/")
  {
  }

  /** The text up to the first slash. */
  function Segment(s: string): string {
    if s == "" || s[0] == '/' then "" else [s[0]] + Segment(s[1..])
  }

  lemma {:induction false} SegmentIsName(n: string, t: string)
    requires '/' !in n && (t == "" || t[0] == '/')
    ensures Segment(n + t) == n
  {
    if n == "" {
      assert n + t == t;
    } else {
      assert (n + t)[1..] == n[1..] + t;
      SegmentIsName(n[1..], t);
    }
  }

  lemma SegmentBelow(top: string, n: string, p: string)
    requires '/' !in n && Under(top + "/" + n, p)
    ensures |p| > |top| && Segment(p[|top| + 1..]) == n
  {
    var q := top + "/" + n;
    var t := p[|q|..];
    assert p == q + t;
    assert t == "" || t[0] == (q + "/")[|q|];
    assert p[|top| + 1..] == n + t;
    SegmentIsName(n, t);
  }

  /** Two names of one directory have nothing below them in common. */
  lemma SiblingsApart(top: string, m: string, n: string, p: string)
    requires '/' !in m && '/' !in n && m != n && Under(top + "/" + m, p)
    ensures !Under(top + "/" + n, p)
  {
    SegmentBelow(top, m, p);
    if Under(top + "/" + n, p) {
      SegmentBelow(top, n, p);
    }
  }

  lemma {:induction false} WalkStaysUnder(path: string, name: string, t: Tree)
    ensures AllUnder(path, Walk(path, name, t))
    decreases t
  {
    if t.Dir? {
      WalkAllStaysUnder(path, t.kids);
    }
  }

  lemma {:induction false} WalkAllStaysUnder(path: string, k: Kids)
    ensures forall it | it in WalkAll(path, k) ::
      HasPrefix(it.path, path + "/") && exists n | n in Names(k) :: Under(path + "/" + n, it.path)
    decreases k
  {
    if k.More? {
      WalkStaysUnder(path + "/" + k.name, k.name, k.tree);
      WalkAllStaysUnder(path, k.rest);
      forall it | it in WalkAll(path, k)
        ensures HasPrefix(it.path, path + "/") && exists n | n in Names(k) :: Under(path + "/" + n, it.path)
      {
        if it in Walk(path + "/" + k.name, k.name, k.tree) {
          UnderTransitive(path, k.name, it.path);
          assert k.name in Names(k);
        } else {
          var n :| n in Names(k.rest) && Under(path + "/" + n, it.path);
          assert n in Names(k);
        }
      }
    }
  }

  /** No two entries of a walk have the same path. */
  lemma {:induction false} WalkDistinct(path: string, name: string, t: Tree)
    requires Good(t)
    ensures Distinct(Walk(path, name, t))
    decreases t
  {
    if t.Dir? {
      WalkAllDistinct(path, t.kids);
      WalkAllStaysUnder(path, t.kids);
    }
  }

  lemma {:induction false} WalkAllDistinct(path: string, k: Kids)
    requires GoodKids(k)
    ensures Distinct(WalkAll(path, k))
    decreases k
  {
    if k.More? {
      var first := Walk(path + "/" + k.name, k.name, k.tree);
      var others := WalkAll(path, k.rest);
      WalkDistinct(path + "/" + k.name, k.name, k.tree);
      WalkAllDistinct(path, k.rest);
      WalkStaysUnder(path + "/" + k.name, k.name, k.tree);
      WalkAllStaysUnder(path, k.rest);
      NamesSolid(k.rest);
      forall i, j | 0 <= i < |first| && 0 <= j < |others|
        ensures first[i].path != others[j].path
      {
        assert first[i] in first && others[j] in others;
        var n :| n in Names(k.rest) && Under(path + "/" + n, others[j].path);
        SiblingsApart(path, k.name, n, first[i].path);
      }
    }
  }

  /** The subtree a chain of names leads to. */
  function At(t: Tree, steps: seq<string>): Option<Tree>
    decreases steps
  {
    if steps == [] then Some(t)
    else if t.File? || Child(t.kids, steps[0]).None? then None
    else At(Child(t.kids, steps[0]).value, steps[1..])
  }

  function Child(k: Kids, name: string): Option<Tree> {
    match k
    case Empty => None
    case More(n, t, rest) => if n == name then Some(t) else Child(rest, name)
  }

  /** The entry at the end of a chain of names: "<top>/a/b" is named "b". */
  function Entry(path: string, name: string, t: Tree, steps: seq<string>): Item
    requires At(t, steps).Some?
    decreases steps
  {
    if steps == [] then Item(path, name, t.Dir?)
    else Entry(path + "/" + steps[0], steps[0], Child(t.kids, steps[0]).value, steps[1..])
  }

  /** A walk misses nothing: every entry that a chain of names leads to is visited. */
  lemma {:induction false} WalkVisits(path: string, name: string, t: Tree, steps: seq<string>)
    requires At(t, steps).Some?
    ensures Entry(path, name, t, steps) in Walk(path, name, t)
    decreases steps
  {
    if steps != [] {
      WalkVisits(path + "/" + steps[0], steps[0], Child(t.kids, steps[0]).value, steps[1..]);
      KidIsWalked(path, t.kids, steps[0], Entry(path, name, t, steps));
    }
  }

  lemma {:induction false} KidIsWalked(path: string, k: Kids, name: string, it: Item)
    requires Child(k, name).Some? && it in Walk(path + "/" + name, name, Child(k, name).value)
    ensures it in WalkAll(path, k)
    decreases k
  {
    if k.name != name {
      KidIsWalked(path, k.rest, name, it);
    }
  }

  /** And visits nothing else. */
  lemma {:induction false} WalkOnlyVisits(path: string, name: string, t: Tree, it: Item) returns (steps: seq<string>)
    requires Good(t) && it in Walk(path, name, t)
    ensures At(t, steps).Some? && it == Entry(path, name, t, steps)
    decreases t
  {
    steps := [];
    if it != Item(path, name, t.Dir?) {
      steps := WalkAllOnlyVisits(path, name, t, t.kids, it);
    }
  }

  lemma {:induction false} WalkAllOnlyVisits(path: string, name: string, t: Tree, k: Kids, it: Item)
    returns (steps: seq<string>)
    requires t.Dir? && GoodKids(k) && it in WalkAll(path, k)
    requires forall n | n in Names(k) :: Child(t.kids, n) == Child(k, n)
    ensures At(t, steps).Some? && it == Entry(path, name, t, steps)
    decreases k
  {
    if it in Walk(path + "/" + k.name, k.name, k.tree) {
      var rest := WalkOnlyVisits(path + "/" + k.name, k.name, k.tree, it);
      assert k.name in Names(k);
      steps := [k.name] + rest;
    } else {
      steps := WalkAllOnlyVisits(path, name, t, k.rest, it);
    }
  }

  lemma {:induction false} NamesSolid(k: Kids)
    requires GoodKids(k)
    ensures forall n | n in Names(k) :: '/' !in n
    decreases k
  {
    if k.More? {
      NamesSolid(k.rest);
    }
  }

  // ---------------------------------------------------------------- what is wrong and what is done about it

  datatype Violation = Violation(path: string, got: Mode, want: Mode)

  function PathOf(): Violation -> string {
    (v: Violation) => v.path
  }

  predicate MustBePrivateDir(top: string, it: Item) {
    it.path == top || (it.isDir && it.name == AUTHORIZED_CLIENTS)
  }

  predicate IsSecretKey(top: string, it: Item) {
    it.path != top && !it.isDir && it.name == SECRET_KEY_FILE
  }

  predicate IsOtherFile(top: string, it: Item) {
    it.path != top && !it.isDir && it.name != SECRET_KEY_FILE
  }

  /** Tor's requirement on one entry. */
  predicate Compliant(top: string, it: Item, m: Mode) {
    && (MustBePrivateDir(top, it) ==> Perm(m) == DIR_MODE)
    && (IsSecretKey(top, it) ==> Perm(m) == SECRET_MODE)
    && (IsOtherFile(top, it) ==> Excess(m) == 0)
  }

  function Wanted(top: string, it: Item): Mode {
    if MustBePrivateDir(top, it) then DIR_MODE else if IsSecretKey(top, it) then SECRET_MODE else PUBLIC_MAX_MODE
  }

  /** The mode given to one entry, when the repair sets it at all. */
  function Repair(top: string, it: Item, m: Mode): Option<Mode> {
    if MustBePrivateDir(top, it) then Some(DIR_MODE)
    else if IsSecretKey(top, it) then Some(SECRET_MODE)
    else if IsOtherFile(top, it) && Excess(m) != 0 then Some(Capped(m))
    else None
  }

  function Repaired(top: string, it: Item, m: Mode): Mode {
    var r := Repair(top, it, m);
    if r.Some? then r.value else m
  }

  lemma PermBits(m: Mode)
    ensures Perm(DIR_MODE) == DIR_MODE && Perm(SECRET_MODE) == SECRET_MODE
    ensures Perm(Capped(m)) == Capped(m) && Excess(Capped(m)) == 0
    ensures Gained(m, Capped(m)) == 0 && Gained(m, m) == 0
    ensures Excess(m) != 0 ==> Capped(m) != Perm(m)
  {
  }

  /**
   * One entry after the repair: it complies, a second repair leaves it as it is, its permission bits moved
   * only if it did not comply before, and a file other than the secret key gained no bit.
   */
  lemma RepairedEntry(top: string, it: Item, m: Mode)
    ensures Compliant(top, it, Repaired(top, it, m))
    ensures Repaired(top, it, Repaired(top, it, m)) == Repaired(top, it, m)
    ensures Perm(Repaired(top, it, m)) == Perm(m) <==> Compliant(top, it, m)
    ensures IsOtherFile(top, it) ==> Gained(m, Repaired(top, it, m)) == 0
  {
    hide Perm, Excess, Capped, Gained;
    PermBits(m);
  }

  /** The rules with their numbers: directories 0700, the secret key 0600, and no other file beyond 0644. */
  lemma ModesSpelled(top: string, it: Item, m: Mode)
    ensures it.path == top || (it.isDir && it.name == "authorized_clients") ==>
              (Compliant(top, it, m) <==> m & 0x1FF == 0x1C0)
    ensures it.path != top && it.isDir && it.name != "authorized_clients" ==> Compliant(top, it, m)
    ensures it.path != top && !it.isDir ==>
              (Compliant(top, it, m) <==>
               if it.name == "hs_ed25519_secret_key" then m & 0x1FF == 0x180 else m & 0x05B == 0)
  {
    hide Excess, Perm;
    BitsSpelled(m);
  }

  lemma BitsSpelled(m: Mode)
    ensures Perm(m) == m & 0x1FF && Excess(m) == m & 0x05B
  {
  }

  /**
   * The repaired mode in numbers: the secret key and private directories are closed to group and others, any
   * other file keeps exactly the bits it may have, and other directories are left alone.
   */
  lemma RepairedSpelled(top: string, it: Item, m: Mode)
    ensures it.path == top || (it.isDir && it.name == "authorized_clients") ==> Repaired(top, it, m) == 0x1C0
    ensures it.path != top && it.isDir && it.name != "authorized_clients" ==> Repaired(top, it, m) == m
    ensures it.path != top && !it.isDir && it.name == "hs_ed25519_secret_key" ==> Repaired(top, it, m) == 0x180
    ensures it.path != top && !it.isDir && it.name != "hs_ed25519_secret_key" ==>
              Repaired(top, it, m) & 0x1FF == m & 0x1A4
    ensures IsPrivate(top, it) ==> Repaired(top, it, m) & 0x03F == 0
  {
    hide Excess, Perm, Capped;
    CappedSpelled(m);
  }

  lemma CappedSpelled(m: Mode)
    ensures Capped(m) & 0x1FF == m & 0x1A4 && (Excess(m) == 0 ==> m & 0x1FF == m & 0x1A4)
  {
  }

  predicate IsPrivate(top: string, it: Item) {
    it.path == top || if it.isDir then it.name == "authorized_clients" else it.name == "hs_ed25519_secret_key"
  }

  /** Where a repair stands once the first `done` entries are visited. */
  ghost predicate FixedUpTo(top: string, items: seq<Item>, done: nat, before: map<string, Mode>, now: map<string, Mode>)
    requires done <= |items| && forall it | it in items :: it.path in before
  {
    && now.Keys == before.Keys
    && (forall k | 0 <= k < done :: now[items[k].path] == Repaired(top, items[k], before[items[k].path]))
    && (forall k | done <= k < |items| :: now[items[k].path] == before[items[k].path])
    && forall p | p in now && now[p] != before[p] :: exists k | 0 <= k < |items| :: items[k].path == p
  }

  lemma NothingFixed(top: string, items: seq<Item>, m: map<string, Mode>)
    requires forall it | it in items :: it.path in m
    ensures FixedUpTo(top, items, 0, m, m)
  {
  }

  lemma FixStep(top: string, items: seq<Item>, i: nat, before: map<string, Mode>, now: map<string, Mode>)
    requires i < |items| && Distinct(items) && forall it | it in items :: it.path in before
    requires FixedUpTo(top, items, i, before, now)
    ensures now[items[i].path] == before[items[i].path]
    ensures FixedUpTo(top, items, i + 1, before, now[items[i].path := Repaired(top, items[i], now[items[i].path])])
  {
    hide Repaired;
    assert forall k | 0 <= k < |items| && k != i :: items[k].path != items[i].path;
  }

  class HiddenServiceDir {
    const path: string
    const name: string
    const tree: Tree
    /** Paths whose mode the operating system refuses to change. */
    const refused: set<string>
    var modes: map<string, Mode>

    constructor (path: string, name: string, tree: Tree, refused: set<string>, modes: map<string, Mode>)
      requires Good(tree) && forall it | it in Walk(path, name, tree) :: it.path in modes
      ensures this.path == path && this.name == name && this.tree == tree && this.refused == refused
      ensures Valid() && this.modes == modes
    {
      this.path, this.name, this.tree, this.refused, this.modes := path, name, tree, refused, modes;
    }

    function Items(): seq<Item> {
      Walk(path, name, tree)
    }

    ghost predicate Valid()
      reads this
    {
      Good(tree) && forall it | it in Items() :: it.path in modes
    }

    method Chmod(p: string, m: Mode) returns (ok: bool)
      requires Valid() && p in modes
      modifies this
      ensures Valid() && ok == (p !in refused)
      ensures modes == if ok then old(modes)[p := m] else old(modes)
    {
      ok := p !in refused;
      if ok {
        modes := modes[p := m];
      }
    }

    /** The repair of this entry asks for a mode the operating system refuses to set. */
    ghost predicate Stuck(it: Item, before: map<string, Mode>)
      requires it.path in before
    {
      Repair(path, it, before[it.path]).Some? && it.path in refused
    }

    method FixEntry(it: Item) returns (ok: bool)
      requires Valid() && it.path in modes
      modifies this
      ensures Valid() && ok == !Stuck(it, old(modes))
      ensures modes == if ok then old(modes)[it.path := Repaired(path, it, old(modes[it.path]))] else old(modes)
    {
      ok := true;
      var change := Repair(path, it, modes[it.path]);
      if change.Some? {
        ok := Chmod(it.path, change.value);
      } else {
        assert modes == modes[it.path := modes[it.path]];
      }
    }

    /**
     * The repair succeeds exactly when nothing it has to set is refused, and then it has repaired every
     * entry; when it stops early, the entries visited before are repaired and the rest are as they were.
     * Nothing else is touched.
     */
    method FixPermissions() returns (r: Result<()>, ghost done: nat)
      requires Valid()
      modifies this
      ensures Valid() && done <= |Items()| && FixedUpTo(path, Items(), done, old(modes), modes)
      ensures r.Ok? ==> tree.Dir? && done == |Items()| && forall it | it in Items() :: !Stuck(it, old(modes))
      ensures r.Err? && tree.Dir? ==> done < |Items()| && Stuck(Items()[done], old(modes))
      ensures tree.File? ==> r.Err? && done == 0
    {
      hide Walk, Good, Repaired, Repair, FixedUpTo, Distinct;
      NothingFixed(path, Items(), modes);
      if tree.File? {
        return Err("open HiddenServiceDir"), 0;
      }
      WalkDistinct(path, name, tree);
      var items := Items();
      for i := 0 to |items|
        invariant Valid() && FixedUpTo(path, items, i, old(modes), modes)
        invariant forall it | it in items :: it.path in old(modes)
        invariant modes.Keys == old(modes).Keys
        invariant forall k | 0 <= k < i :: !Stuck(items[k], old(modes))
      {
        FixStep(path, items, i, old(modes), modes);
        var ok := FixEntry(items[i]);
        if !ok {
          return Err("chmod"), i;
        }
      }
      return Ok(()), |items|;
    }

    function ViolationOf(it: Item): Violation
      requires it.path in modes
      reads this
    {
      Violation(it.path, modes[it.path], Wanted(path, it))
    }

    predicate Offends(it: Item)
      requires it.path in modes
      reads this
    {
      !Compliant(path, it, modes[it.path])
    }

    /** The entries visited so far that offend, in the order of the walk. */
    method Collect(items: seq<Item>) returns (found: seq<Violation>)
      requires Distinct(items) && forall it | it in items :: it.path in modes
      ensures forall v :: v in found <==> exists it | it in items :: Offends(it) && v == ViolationOf(it)
      ensures forall i, j | 0 <= i < j < |found| :: found[i].path != found[j].path
    {
      hide Compliant, Wanted;
      found := [];
      for i := 0 to |items|
        invariant forall v | v in found :: exists k | 0 <= k < i :: Offends(items[k]) && v == ViolationOf(items[k])
        invariant forall k | 0 <= k < i && Offends(items[k]) :: ViolationOf(items[k]) in found
        invariant forall k, j | 0 <= k < j < |found| :: found[k].path != found[j].path
      {
        if Offends(items[i]) {
          assert forall v | v in found :: v.path != items[i].path;
          found := found + [ViolationOf(items[i])];
        }
      }
    }

    /** The list names exactly the offending paths, each once, in ascending order; nil is the empty list. */
    method CheckPermissions() returns (r: Result<seq<Violation>>)
      requires Valid()
      ensures r.Ok? <==> tree.Dir?
      ensures r.Ok? ==> forall v :: v in r.value <==> exists it | it in Items() :: Offends(it) && v == ViolationOf(it)
      ensures r.Ok? ==> Ascending(PathOf(), r.value) && NoneTwice(r.value)
    {
      hide Walk, Good;
      if tree.File? {
        return Err("not a directory");
      }
      WalkDistinct(path, name, tree);
      var found := Collect(Items());
      SortedIsAscendingPermutation(PathOf(), found);
      SameMembers(found, Sorted(PathOf(), found));
      PermutedNoneTwice(found, Sorted(PathOf(), found));
      r := Ok(Sorted(PathOf(), found));
    }
  }

  predicate NoneTwice(s: seq<Violation>) {
    forall v | v in s :: multiset(s)[v] == 1
  }

  lemma SomethingIn(s: seq<Violation>)
    ensures s != [] ==> exists v :: v in s
  {
    if s != [] {
      assert s[0] in s;
    }
  }

  lemma {:induction false} DistinctPathsOnce(s: seq<Violation>)
    requires forall i, j | 0 <= i < j < |s| :: s[i].path != s[j].path
    ensures NoneTwice(s)
  {
    if s != [] {
      var t := s[..|s| - 1];
      DistinctPathsOnce(t);
      assert s == t + [s[|s| - 1]];
    }
  }

  lemma PermutedNoneTwice(s: seq<Violation>, t: seq<Violation>)
    requires forall i, j | 0 <= i < j < |s| :: s[i].path != s[j].path
    requires multiset(s) == multiset(t)
    ensures NoneTwice(t)
  {
    DistinctPathsOnce(s);
    SameMembers(s, t);
  }

  /** Two reports about the same entries are the same list, whatever the order of the walk. */
  lemma ReportIsUnique(s: seq<Violation>, t: seq<Violation>)
    requires Ascending(PathOf(), s) && NoneTwice(s) && Ascending(PathOf(), t) && NoneTwice(t)
    requires TellsApart(PathOf(), s)
    requires forall v :: v in s <==> v in t
    ensures s == t
  {
    forall v
      ensures multiset(s)[v] == multiset(t)[v]
    {
      assert v in s || multiset(s)[v] == 0;
      assert v in t || multiset(t)[v] == 0;
    }
    AscendingUnique(PathOf(), s, t);
  }

  /** After a successful repair the check finds nothing, and repairing again changes nothing. */
  method FixThenCheck(d: HiddenServiceDir) returns (r: Result<seq<Violation>>)
    requires d.Valid()
    modifies d
    ensures d.Valid()
    ensures r.Ok? <==> d.tree.Dir? && forall it | it in d.Items() :: !d.Stuck(it, old(d.modes))
    ensures r.Ok? ==> r.value == []
    ensures r.Ok? ==> forall it | it in d.Items() && IsPrivate(d.path, it) :: d.modes[it.path] & 0x03F == 0
    ensures r.Ok? ==> forall it | it in d.Items() :: Repaired(d.path, it, d.modes[it.path]) == d.modes[it.path]
    ensures forall it | it in d.Items() && IsOtherFile(d.path, it) ::
      Gained(old(d.modes[it.path]), d.modes[it.path]) == 0
  {
    hide Walk, Good, Repaired, Repair, Compliant, Gained, IsPrivate;
    var fixed, done := d.FixPermissions();
    forall it | it in d.Items()
      ensures IsOtherFile(d.path, it) ==> Gained(old(d.modes[it.path]), d.modes[it.path]) == 0
      ensures fixed.Ok? ==> !d.Offends(it) && Repaired(d.path, it, d.modes[it.path]) == d.modes[it.path]
      ensures fixed.Ok? && IsPrivate(d.path, it) ==> d.modes[it.path] & 0x03F == 0
    {
      RepairedSpelled(d.path, it, old(d.modes[it.path]));
      RepairedEntry(d.path, it, old(d.modes[it.path]));
      PermBits(old(d.modes[it.path]));
    }
    if fixed.Err? {
      return Err(fixed.error);
    }
    r := d.CheckPermissions();
    assert forall v :: v !in r.value;
    SomethingIn(r.value);
  }
}
