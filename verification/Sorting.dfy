/** Insertion sort by a text key, and the uniqueness of what it returns. */
module Sorting {
  import opened Text

  predicate Before<T>(key: T -> string, a: T, b: T) {
    AtMost(key(a), key(b))
  }

  predicate Ascending<T>(key: T -> string, s: seq<T>) {
    forall i, j | 0 <= i < j < |s| :: Before(key, s[i], s[j])
  }

  function Insert<T>(key: T -> string, s: seq<T>, x: T): (r: seq<T>)
    ensures |r| == |s| + 1
  {
    if s == [] || Before(key, s[|s| - 1], x) then s + [x]
    else Insert(key, s[..|s| - 1], x) + [s[|s| - 1]]
  }

  function Sorted<T>(key: T -> string, s: seq<T>): (r: seq<T>)
    ensures |r| == |s|
  {
    if s == [] then [] else Insert(key, Sorted(key, s[..|s| - 1]), s[|s| - 1])
  }

  lemma SortedStep<T>(key: T -> string, s: seq<T>, i: nat)
    requires i < |s|
    ensures Sorted(key, s[..i + 1]) == Insert(key, Sorted(key, s[..i]), s[i])
  {
    assert s[..i + 1][..i] == s[..i];
  }

  lemma InsertPast<T>(key: T -> string, s: seq<T>, j: nat, x: T)
    requires 0 < j <= |s| && !Before(key, s[j - 1], x)
    ensures Insert(key, s[..j], x) + s[j..] == Insert(key, s[..j - 1], x) + s[j - 1..]
  {
    assert s[..j][..j - 1] == s[..j - 1];
    assert [s[j - 1]] + s[j..] == s[j - 1..];
    assert Insert(key, s[..j - 1], x) + [s[j - 1]] + s[j..] == Insert(key, s[..j - 1], x) + ([s[j - 1]] + s[j..]);
  }

  lemma InsertHere<T>(key: T -> string, s: seq<T>, j: nat, x: T)
    requires j <= |s| && (j == 0 || Before(key, s[j - 1], x))
    ensures Insert(key, s[..j], x) == s[..j] + [x]
  {
  }

  lemma {:induction false} InsertPermutes<T>(key: T -> string, s: seq<T>, x: T)
    ensures multiset(Insert(key, s, x)) == multiset(s) + multiset{x}
  {
    if s != [] && !Before(key, s[|s| - 1], x) {
      InsertPermutes(key, s[..|s| - 1], x);
      assert s == s[..|s| - 1] + [s[|s| - 1]];
    }
  }

  lemma AppendKeepsOrder<T>(key: T -> string, s: seq<T>, x: T)
    requires Ascending(key, s) && (s == [] || Before(key, s[|s| - 1], x))
    ensures Ascending(key, s + [x])
  {
    forall i | 0 <= i < |s|
      ensures Before(key, s[i], x)
    {
      if i < |s| - 1 {
        AtMostTransitive(key(s[i]), key(s[|s| - 1]), key(x));
      }
    }
  }

  lemma {:induction false} InsertKeepsOrder<T>(key: T -> string, s: seq<T>, x: T)
    requires Ascending(key, s)
    ensures Ascending(key, Insert(key, s, x))
    ensures var r := Insert(key, s, x); r[|r| - 1] == x || (s != [] && r[|r| - 1] == s[|s| - 1])
  {
    if s == [] || Before(key, s[|s| - 1], x) {
      AppendKeepsOrder(key, s, x);
    } else {
      InsertKeepsOrder(key, s[..|s| - 1], x);
      LessTrichotomy(key(x), key(s[|s| - 1]));
      AppendKeepsOrder(key, Insert(key, s[..|s| - 1], x), s[|s| - 1]);
    }
  }

  lemma {:induction false} SortedIsAscendingPermutation<T>(key: T -> string, s: seq<T>)
    ensures Ascending(key, Sorted(key, s))
    ensures multiset(Sorted(key, s)) == multiset(s)
  {
    hide Ascending, Insert;
    if s == [] {
      EmptyAscends(key, s);
    } else {
      var t := s[..|s| - 1];
      SortedIsAscendingPermutation(key, t);
      InsertKeepsOrder(key, Sorted(key, t), s[|s| - 1]);
      InsertPermutes(key, Sorted(key, t), s[|s| - 1]);
      assert s == t + [s[|s| - 1]];
    }
  }

  lemma EmptyAscends<T>(key: T -> string, s: seq<T>)
    requires s == []
    ensures Ascending(key, s)
  {
  }

  lemma SameMembers<T>(s: seq<T>, t: seq<T>)
    requires multiset(s) == multiset(t)
    ensures forall x :: x in s <==> x in t
    ensures |s| == |t|
  {
    forall x ensures x in s <==> x in t {
      assert x in multiset(s) <==> x in s;
    }
    assert |multiset(s)| == |s| && |multiset(t)| == |t|;
  }

  lemma SameTails<T>(s: seq<T>, t: seq<T>)
    requires multiset(s) == multiset(t) && s != [] && t != [] && s[0] == t[0]
    ensures multiset(s[1..]) == multiset(t[1..])
  {
    assert s == [s[0]] + s[1..] && t == [t[0]] + t[1..];
    assert multiset(s[1..]) == multiset(s) - multiset{s[0]};
  }

  lemma HeadIsLeast<T>(key: T -> string, s: seq<T>, x: T)
    requires Ascending(key, s) && x in s
    ensures Before(key, s[0], x)
  {
    LessTrichotomy(key(x), key(x));
  }

  ghost predicate TellsApart<T>(key: T -> string, s: seq<T>) {
    forall x, y | x in s && y in s && key(x) == key(y) :: x == y
  }

  lemma SameMembersApart<T>(key: T -> string, s: seq<T>, t: seq<T>)
    requires TellsApart(key, s) && multiset(s) == multiset(t)
    ensures TellsApart(key, t)
  {
    SameMembers(s, t);
  }

  /** When the key tells elements apart, an ascending arrangement is unique. */
  lemma {:induction false} AscendingUnique<T>(key: T -> string, s: seq<T>, t: seq<T>)
    requires TellsApart(key, s)
    requires Ascending(key, s) && Ascending(key, t)
    requires multiset(s) == multiset(t)
    ensures s == t
  {
    SameMembers(s, t);
    if s != [] {
      HeadIsLeast(key, s, t[0]);
      HeadIsLeast(key, t, s[0]);
      LessTrichotomy(key(s[0]), key(t[0]));
      SameTails(s, t);
      assert forall x | x in s[1..] :: x in s;
      AscendingUnique(key, s[1..], t[1..]);
      assert s == [s[0]] + s[1..] && t == [t[0]] + t[1..];
    }
  }

  /** Sorting forgets the order of its input. */
  lemma SortedOfPermutation<T>(key: T -> string, s: seq<T>, t: seq<T>)
    requires TellsApart(key, s)
    requires multiset(s) == multiset(t)
    ensures Sorted(key, s) == Sorted(key, t)
  {
    SortedIsAscendingPermutation(key, s);
    SortedIsAscendingPermutation(key, t);
    SameMembersApart(key, s, Sorted(key, s));
    AscendingUnique(key, Sorted(key, s), Sorted(key, t));
  }

  // ---------------------------------------------------------------- element-wise collection

  /** What the elements contribute, one after another. */
  function Collect<T, U>(f: T -> seq<U>, s: seq<T>): seq<U> {
    if s == [] then [] else Collect(f, s[..|s| - 1]) + f(s[|s| - 1])
  }

  lemma CollectStep<T, U>(f: T -> seq<U>, s: seq<T>, x: T)
    ensures Collect(f, s + [x]) == Collect(f, s) + f(x)
  {
    assert (s + [x])[..|s|] == s;
  }

  lemma {:induction false} CollectConcat<T, U>(f: T -> seq<U>, s: seq<T>, t: seq<T>)
    ensures Collect(f, s + t) == Collect(f, s) + Collect(f, t)
  {
    if t == [] {
      assert s + t == s;
    } else {
      var u, last := t[..|t| - 1], t[|t| - 1];
      assert s + t == (s + u) + [last];
      CollectConcat(f, s, u);
      CollectStep(f, s + u, last);
    }
  }

  lemma CollectWithout<T, U>(f: T -> seq<U>, t: seq<T>, i: nat) returns (rest: seq<T>)
    requires i < |t|
    ensures |rest| == |t| - 1
    ensures multiset(Collect(f, t)) == multiset(f(t[i])) + multiset(Collect(f, rest))
    ensures multiset(t) == multiset{t[i]} + multiset(rest)
  {
    rest := t[..i] + t[i + 1..];
    assert t == t[..i] + [t[i]] + t[i + 1..];
    CollectStep(f, t[..i], t[i]);
    CollectConcat(f, t[..i] + [t[i]], t[i + 1..]);
    CollectConcat(f, t[..i], t[i + 1..]);
  }

  lemma SameRest<T>(x: multiset<T>, u: multiset<T>, v: multiset<T>)
    requires x + u == x + v
    ensures u == v
  {
    assert u == (x + u) - x;
  }

  lemma FindHead<T>(s: seq<T>, t: seq<T>) returns (i: nat)
    requires multiset(s) == multiset(t) && s != []
    ensures i < |t| && t[i] == s[0]
  {
    SameMembers(s, t);
    assert s[0] in t;
    i :| 0 <= i < |t| && t[i] == s[0];
  }

  /** Each element contributes on its own, so the order of the input only reorders the output. */
  lemma {:induction false} CollectOfPermutation<T, U>(f: T -> seq<U>, s: seq<T>, t: seq<T>)
    requires multiset(s) == multiset(t)
    ensures multiset(Collect(f, s)) == multiset(Collect(f, t))
    decreases |s|
  {
    if s == [] {
      assert |multiset(t)| == 0;
    } else {
      var i := FindHead(s, t);
      var u := CollectWithout(f, s, 0);
      var v := CollectWithout(f, t, i);
      SameRest(multiset{s[0]}, multiset(u), multiset(v));
      CollectOfPermutation(f, u, v);
    }
  }

  // ---------------------------------------------------------------- the algorithm

  /** The array while `x` is on its way down through the sorted part `s`. */
  function Arrangement<T>(s: seq<T>, j: nat, x: T, rest: seq<T>): (r: seq<T>)
    requires j <= |s|
    ensures |r| == |s| + 1 + |rest| && r[j] == x && (j > 0 ==> r[j - 1] == s[j - 1])
  {
    s[..j] + [x] + s[j..] + rest
  }

  lemma SwapDown<T>(s: seq<T>, j: nat, x: T, rest: seq<T>, t: seq<T>)
    requires 0 < j <= |s|
    requires t == Arrangement(s, j, x, rest)[j - 1 := x][j := s[j - 1]]
    ensures t == Arrangement(s, j - 1, x, rest)
  {
  }

  /** The program's insertion sort, swapping neighbours in place. */
  method SortInPlace<T>(key: T -> string, a: array<T>)
    modifies a
    ensures a[..] == Sorted(key, old(a[..]))
  {
    ghost var was := a[..];
    var i := 1;
    SortedStart(key, was);
    while i < a.Length
      invariant 1 <= i && (i <= a.Length || a.Length == 0)
      invariant i <= a.Length ==> a[..] == Sorted(key, was[..i]) + was[i..]
      invariant a.Length == 0 ==> a[..] == was
    {
      ghost var s, x, rest := Sorted(key, was[..i]), was[i], was[i + 1..];
      assert was[i..] == [x] + rest && s[..i] == s && s[i..] == [];
      assert a[..] == Arrangement(s, i, x, rest);
      var j := i;
      while j > 0 && Less(key(a[j]), key(a[j - 1]))
        invariant 0 <= j <= i
        invariant a[..] == Arrangement(s, j, x, rest)
        invariant Insert(key, s, x) == Insert(key, s[..j], x) + s[j..]
      {
        assert a[..][j] == x && a[..][j - 1] == s[j - 1];
        ghost var t := a[..];
        InsertPast(key, s, j, x);
        a[j - 1], a[j] := a[j], a[j - 1];
        assert a[..] == t[j - 1 := x][j := s[j - 1]];
        SwapDown(s, j, x, rest, a[..]);
        j := j - 1;
      }
      if j > 0 { assert a[..][j] == x && a[..][j - 1] == s[j - 1]; }
      InsertHere(key, s, j, x);
      SortedStep(key, was, i);
      i := i + 1;
    }
    assert a.Length > 0 ==> was[..i] == was;
  }

  lemma SortedStart<T>(key: T -> string, s: seq<T>)
    ensures s != [] ==> Sorted(key, s[..1]) + s[1..] == s
    ensures s == [] ==> Sorted(key, s) == s
  {
    if s != [] {
      SortedStep(key, s, 0);
    }
  }
}
