/** The Gateway's published addresses in Mode B: one onion address, whatever else others wrote. */
module Status {
  import opened Text

  predicate IsOnion(a: string) {
    HasSuffix(a, ".onion")
  }

  /** The addresses of one kind, in order. */
  function Only(s: seq<string>, onion: bool): seq<string> {
    if s == [] then []
    else Only(s[..|s| - 1], onion) + if IsOnion(s[|s| - 1]) == onion then [s[|s| - 1]] else []
  }

  /** The place of the first onion address, or the end. */
  function FirstOnion(s: seq<string>): (p: nat)
    ensures p <= |s| && (forall k | 0 <= k < p :: !IsOnion(s[k])) && (p < |s| ==> IsOnion(s[p]))
  {
    if s == [] || IsOnion(s[0]) then 0 else 1 + FirstOnion(s[1..])
  }

  /**
   * The master takes the place of the first onion address, or goes to the end when there is none; later onion
   * addresses are dropped, and everything else keeps its order.
   */
  function Merge(s: seq<string>, master: string): seq<string> {
    var p := FirstOnion(s);
    s[..p] + [master] + if p < |s| then Only(s[p + 1..], false) else []
  }

  lemma OnlyStep(s: seq<string>, a: string, onion: bool)
    ensures Only(s + [a], onion) == Only(s, onion) + if IsOnion(a) == onion then [a] else []
  {
    assert (s + [a])[..|s|] == s;
  }

  lemma {:induction false} OnlyConcat(s: seq<string>, t: seq<string>, onion: bool)
    ensures Only(s + t, onion) == Only(s, onion) + Only(t, onion)
  {
    if t == [] {
      assert s + t == s;
    } else {
      var u, a := t[..|t| - 1], t[|t| - 1];
      assert s + t == (s + u) + [a] && t == u + [a];
      OnlyConcat(s, u, onion);
      OnlyStep(s + u, a, onion);
      OnlyStep(u, a, onion);
    }
  }

  lemma {:induction false} OnlyPlain(s: seq<string>)
    requires forall k | 0 <= k < |s| :: !IsOnion(s[k])
    ensures Only(s, false) == s && Only(s, true) == []
  {
    if s != [] {
      OnlyPlain(s[..|s| - 1]);
      assert s == s[..|s| - 1] + [s[|s| - 1]];
    }
  }

  lemma {:induction false} OnlyPlainIsPlain(s: seq<string>)
    ensures forall k | 0 <= k < |Only(s, false)| :: !IsOnion(Only(s, false)[k])
  {
    if s != [] {
      OnlyPlainIsPlain(s[..|s| - 1]);
    }
  }

  /** After the merge the master is the only onion address, and the other addresses are those there were. */
  lemma MergePublishesOne(s: seq<string>, master: string)
    requires IsOnion(master)
    ensures Only(Merge(s, master), true) == [master]
    ensures Only(Merge(s, master), false) == Only(s, false)
  {
    hide IsOnion, HasSuffix, Only, FirstOnion;
    var p := FirstOnion(s);
    var head, tail := s[..p], if p < |s| then Only(s[p + 1..], false) else [];
    OnlyPlain(head);
    if p < |s| { OnlyPlainIsPlain(s[p + 1..]); }
    OnlyPlain(tail);
    OnlyStep(head, master, true);
    OnlyStep(head, master, false);
    OnlyConcat(head + [master], tail, true);
    OnlyConcat(head + [master], tail, false);
    if p < |s| {
      assert s == head + [s[p]] + s[p + 1..];
      OnlyStep(head, s[p], false);
      OnlyConcat(head + [s[p]], s[p + 1..], false);
    } else {
      assert s == head;
    }
  }

  lemma FirstOnionIs(s: seq<string>, p: nat)
    requires p <= |s| && (forall k | 0 <= k < p :: !IsOnion(s[k])) && (p < |s| ==> IsOnion(s[p]))
    ensures FirstOnion(s) == p
  {
    var q := FirstOnion(s);
    assert q < |s| ==> IsOnion(s[q]);
  }

  /** The master stands where the first onion address stood, or last; what was before that is untouched. */
  lemma MergePlacesMaster(s: seq<string>, master: string, p: nat)
    requires p <= |s| && (forall k | 0 <= k < p :: !HasSuffix(s[k], ".onion"))
    requires p < |s| ==> HasSuffix(s[p], ".onion")
    ensures |Merge(s, master)| > p && Merge(s, master)[..p] == s[..p] && Merge(s, master)[p] == master
    ensures p == |s| ==> Merge(s, master) == s + [master]
  {
    FirstOnionIs(s, p);
  }

  lemma {:induction false} NoOnions(s: seq<string>)
    requires Only(s, true) == []
    ensures Only(s, false) == s
  {
    if s != [] {
      NoOnions(s[..|s| - 1]);
      assert s == s[..|s| - 1] + [s[|s| - 1]];
    }
  }

  /** Where the master is the only onion address already, the merge changes nothing. */
  lemma MergeFixed(s: seq<string>, master: string)
    requires Only(s, true) == [master]
    ensures Merge(s, master) == s
  {
    hide IsOnion, HasSuffix, Only;
    var p := FirstOnion(s);
    if p == |s| {
      OnlyPlain(s);
    } else {
      var head, tail := s[..p], s[p + 1..];
      assert s == head + [s[p]] + tail;
      OnlyPlain(head);
      OnlyStep(head, s[p], true);
      OnlyConcat(head + [s[p]], tail, true);
      assert Only(s, true) == [s[p]] + Only(tail, true);
      assert Only(s, true)[0] == s[p];
      NoOnions(tail);
    }
  }

  /** So merging the same master again changes nothing. */
  lemma MergeAgain(s: seq<string>, master: string)
    requires IsOnion(master)
    ensures Merge(Merge(s, master), master) == Merge(s, master)
  {
    MergePublishesOne(s, master);
    MergeFixed(Merge(s, master), master);
  }

  /** The loop over the newest addresses. */
  method MergeAddresses(addresses: seq<string>, master: string) returns (merged: seq<string>)
    requires IsOnion(master)
    ensures merged == Merge(addresses, master)
  {
    hide IsOnion, HasSuffix;
    merged := [];
    var foundOnion := false;
    ghost var p := FirstOnion(addresses);
    for i := 0 to |addresses|
      invariant foundOnion <==> p < i
      invariant merged ==
        if foundOnion then addresses[..p] + [master] + Only(addresses[p + 1..i], false) else addresses[..i]
    {
      if IsOnion(addresses[i]) {
        if !foundOnion {
          merged := merged + [master];
          foundOnion := true;
          assert addresses[p + 1..i + 1] == [];
        } else {
          MergeStep(addresses, p, i);
        }
        continue;
      }
      if foundOnion {
        MergeStep(addresses, p, i);
      }
      merged := merged + [addresses[i]];
    }
    assert p < |addresses| ==> addresses[p + 1..|addresses|] == addresses[p + 1..];
    if !foundOnion {
      merged := merged + [master];
    }
  }

  lemma MergeStep(s: seq<string>, p: nat, i: nat)
    requires p < i < |s|
    ensures Only(s[p + 1..i + 1], false) == Only(s[p + 1..i], false) + if IsOnion(s[i]) then [] else [s[i]]
  {
    assert s[p + 1..i + 1] == s[p + 1..i] + [s[i]];
    OnlyStep(s[p + 1..i], s[i], false);
  }
}
