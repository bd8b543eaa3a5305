/** The condition list of a Kubernetes status: merging by type and the history the timestamps tell. */
module Conditions {
  import opened Wrappers

  datatype Condition = Condition(
    kind: string, status: string, reason: string, message: string, generation: int, transition: int)

  predicate Distinct(s: seq<Condition>) {
    forall i, j | 0 <= i < j < |s| :: s[i].kind != s[j].kind
  }

  function Kinds(s: seq<Condition>): (r: seq<string>)
    ensures |r| == |s|
  {
    seq(|s|, i requires 0 <= i < |s| => s[i].kind)
  }

  function Find(s: seq<Condition>, kind: string): Option<Condition> {
    if s == [] then None else if s[0].kind == kind then Some(s[0]) else Find(s[1..], kind)
  }

  /** What one entry becomes: an unchanged status keeps its transition time. */
  function Update(old_: Condition, c: Condition): Condition {
    if old_.status == c.status then c.(transition := old_.transition) else c
  }

  function Merged(s: seq<Condition>, c: Condition): seq<Condition> {
    if s == [] then [c]
    else if s[0].kind == c.kind then [Update(s[0], c)] + s[1..]
    else [s[0]] + Merged(s[1..], c)
  }

  lemma {:induction false} MergedAt(s: seq<Condition>, c: Condition, i: nat)
    requires i < |s| && s[i].kind == c.kind && forall k | 0 <= k < i :: s[k].kind != c.kind
    ensures Merged(s, c) == s[i := Update(s[i], c)]
  {
    if i > 0 {
      MergedAt(s[1..], c, i - 1);
      assert s == [s[0]] + s[1..];
    }
  }

  lemma {:induction false} MergedMissing(s: seq<Condition>, c: Condition)
    requires forall k | 0 <= k < |s| :: s[k].kind != c.kind
    ensures Merged(s, c) == s + [c]
  {
    if s != [] {
      MergedMissing(s[1..], c);
    }
  }

  class ConditionList {
    var conds: seq<Condition>

    constructor ()
      ensures conds == []
    {
      conds := [];
    }

    /** The flag says exactly whether the list changed. */
    method SetCondition(cond: Condition) returns (changed: bool)
      modifies this
      ensures conds == Merged(old(conds), cond)
      ensures changed <==> conds != old(conds)
    {
      var c := cond;
      for i := 0 to |conds|
        invariant conds == old(conds) && c == cond
        invariant forall k | 0 <= k < i :: conds[k].kind != cond.kind
      {
        var existing := conds[i];
        if existing.kind == c.kind {
          MergedAt(conds, cond, i);
          if && existing.status == c.status
             && existing.reason == c.reason
             && existing.message == c.message
             && existing.generation == c.generation
          {
            return false;
          }
          if existing.status == c.status {
            c := c.(transition := existing.transition);
          }
          conds := conds[i := c];
          assert conds[i] != old(conds)[i];
          return true;
        }
      }
      MergedMissing(conds, cond);
      conds := conds + [c];
      return true;
    }
  }

  // ---------------------------------------------------------------- one merge

  lemma {:induction false} FindMerged(s: seq<Condition>, c: Condition, kind: string)
    ensures Find(Merged(s, c), kind) ==
      if kind != c.kind then Find(s, kind)
      else match Find(s, kind) case None => Some(c) case Some(e) => Some(Update(e, c))
  {
    if s != [] {
      if s[0].kind == c.kind {
        assert ([Update(s[0], c)] + s[1..])[1..] == s[1..];
      } else {
        FindMerged(s[1..], c, kind);
        assert ([s[0]] + Merged(s[1..], c))[1..] == Merged(s[1..], c);
      }
    }
  }

  /** Types stay distinct, and in the order in which they first appeared. */
  lemma {:induction false} MergedKinds(s: seq<Condition>, c: Condition)
    ensures Kinds(Merged(s, c)) == if c.kind in Kinds(s) then Kinds(s) else Kinds(s) + [c.kind]
    ensures Distinct(s) ==> Distinct(Merged(s, c))
  {
    if i :| 0 <= i < |s| && s[i].kind == c.kind && forall k | 0 <= k < i :: s[k].kind != c.kind {
      MergedAt(s, c, i);
      assert Kinds(s)[i] == c.kind;
    } else {
      NoneFound(s, c.kind);
      MergedMissing(s, c);
    }
  }

  lemma {:induction false} NoneFound(s: seq<Condition>, kind: string)
    requires !exists i :: 0 <= i < |s| && s[i].kind == kind && forall k | 0 <= k < i :: s[k].kind != kind
    ensures forall i | 0 <= i < |s| :: s[i].kind != kind
  {
    if s != [] {
      var t := s[..|s| - 1];
      assert forall i | 0 <= i < |t| :: t[i] == s[i];
      NoneFound(t, kind);
    }
  }

  // ---------------------------------------------------------------- whole histories

  /** The list after a sequence of calls on `start`. */
  function RunFrom(start: seq<Condition>, calls: seq<Condition>): seq<Condition> {
    if calls == [] then start else Merged(RunFrom(start, calls[..|calls| - 1]), calls[|calls| - 1])
  }

  function Run(calls: seq<Condition>): seq<Condition> {
    RunFrom([], calls)
  }

  /** A list of distinct types is what calls with its own entries make of the empty list. */
  lemma {:induction false} RunOfDistinct(s: seq<Condition>)
    requires Distinct(s)
    ensures Run(s) == s
  {
    if s != [] {
      var t := s[..|s| - 1];
      RunOfDistinct(t);
      MergedMissing(t, s[|s| - 1]);
    }
  }

  lemma {:induction false} RunFromIsRun(start: seq<Condition>, calls: seq<Condition>)
    requires Distinct(start)
    ensures RunFrom(start, calls) == Run(start + calls)
  {
    if calls == [] {
      assert start + calls == start;
      RunOfDistinct(start);
    } else {
      assert (start + calls)[..|start + calls| - 1] == start + calls[..|calls| - 1];
      RunFromIsRun(start, calls[..|calls| - 1]);
    }
  }

  /** The calls about one type. */
  function About(calls: seq<Condition>, kind: string): seq<Condition> {
    if calls == [] then []
    else
      var last := calls[|calls| - 1];
      About(calls[..|calls| - 1], kind) + if last.kind == kind then [last] else []
  }

  /** Call i opens the latest unbroken run of calls with the current status. */
  predicate OpensCurrentStreak(calls: seq<Condition>, i: nat) {
    && i < |calls|
    && (forall k | i <= k < |calls| :: calls[k].status == calls[|calls| - 1].status)
    && (i > 0 ==> calls[i - 1].status != calls[|calls| - 1].status)
  }

  lemma {:induction false} SomeCallOpens(calls: seq<Condition>) returns (i: nat)
    requires calls != []
    ensures OpensCurrentStreak(calls, i)
  {
    var n := |calls| - 1;
    if n == 0 || calls[n - 1].status != calls[n].status {
      i := n;
    } else {
      i := SomeCallOpens(calls[..n]);
    }
  }

  /**
   * On any list of distinct types and after any calls, the entry of a type is the last call about it, except
   * that its transition time is the one given by the call that opened the current streak of that status. An
   * entry that was there at the start counts as the first call about its type.
   */
  lemma HistoryOfOneType(start: seq<Condition>, calls: seq<Condition>, kind: string, i: nat)
    requires Distinct(start) && OpensCurrentStreak(About(start + calls, kind), i)
    ensures var own := About(start + calls, kind);
      Find(RunFrom(start, calls), kind) == Some(own[|own| - 1].(transition := own[i].transition))
  {
    RunFromIsRun(start, calls);
    HistoryFromNothing(start + calls, kind, i);
  }

  lemma {:induction false} HistoryFromNothing(calls: seq<Condition>, kind: string, i: nat)
    requires OpensCurrentStreak(About(calls, kind), i)
    ensures var own := About(calls, kind);
      Find(Run(calls), kind) == Some(own[|own| - 1].(transition := own[i].transition))
  {
    var before, c := calls[..|calls| - 1], calls[|calls| - 1];
    FindMerged(Run(before), c, kind);
    if c.kind != kind {
      assert About(calls, kind) == About(before, kind);
      HistoryFromNothing(before, kind, i);
    } else if About(before, kind) == [] {
      NeverMentioned(before, kind);
    } else {
      var own, past := About(calls, kind), About(before, kind);
      assert own == past + [c];
      if i < |past| {
        assert forall k | i <= k < |past| :: past[k] == own[k];
        HistoryFromNothing(before, kind, i);
      } else {
        var j := SomeCallOpens(past);
        HistoryFromNothing(before, kind, j);
        assert own[i - 1] == past[|past| - 1];
      }
    }
  }

  /** And a type neither there at the start nor set since has no entry. */
  lemma UnmentionedHasNoEntry(start: seq<Condition>, calls: seq<Condition>, kind: string)
    requires Distinct(start) && About(start + calls, kind) == []
    ensures Find(RunFrom(start, calls), kind) == None
  {
    RunFromIsRun(start, calls);
    NeverMentioned(start + calls, kind);
  }

  lemma {:induction false} NeverMentioned(calls: seq<Condition>, kind: string)
    requires About(calls, kind) == []
    ensures Find(Run(calls), kind) == None
  {
    if calls != [] {
      var before, c := calls[..|calls| - 1], calls[|calls| - 1];
      NeverMentioned(before, kind);
      FindMerged(Run(before), c, kind);
    }
  }

  /** Over any history from a list of distinct types they stay distinct, and later calls only append new ones. */
  lemma {:induction false} OrderIsStable(start: seq<Condition>, calls: seq<Condition>, more: seq<Condition>)
    requires Distinct(start)
    ensures Distinct(RunFrom(start, calls))
    ensures Kinds(RunFrom(start, calls)) <= Kinds(RunFrom(start, calls + more))
    decreases |calls| + |more|, |more|
  {
    if more != [] {
      var m := more[..|more| - 1];
      assert (calls + more)[..|calls + more| - 1] == calls + m;
      OrderIsStable(start, calls, m);
      MergedKinds(RunFrom(start, calls + m), more[|more| - 1]);
    } else {
      assert calls + more == calls;
      if calls != [] {
        OrderIsStable(start, calls[..|calls| - 1], []);
        MergedKinds(RunFrom(start, calls[..|calls| - 1]), calls[|calls| - 1]);
      }
    }
  }
}
