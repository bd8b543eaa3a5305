/** The attached-route counters of a Gateway's listeners, and the two tests for "this parentRef is our Gateway". */
module AttachedRoutes {
  import opened Wrappers
  import opened Router

  /** The route controller's reading of group and kind: absent and empty both mean the default. */
  predicate GroupKindIsGateway(p: ParentRef) {
    && (p.group.Some? && p.group.value != "" ==> p.group.value == GATEWAY_GROUP)
    && (p.kind.Some? && p.kind.value != "" ==> p.kind.value == "Gateway")
  }

  predicate ParentRefMatches(p: ParentRef, routeNs: string, gw: GatewayName) {
    GroupKindIsGateway(p) && ParentNames(p, routeNs, gw)
  }

  /**
   * The controller's test and the router's differ exactly on references that spell out an empty group or
   * kind: those are counted as attached, and never served.
   */
  lemma ParentTestsDiffer(p: ParentRef, routeNs: string, gw: GatewayName)
    ensures RefTargets(p, routeNs, gw) ==> ParentRefMatches(p, routeNs, gw)
    ensures ParentRefMatches(p, routeNs, gw) && !RefTargets(p, routeNs, gw)
       <==> ParentRefMatches(p, routeNs, gw) && (p.group == Some("") || p.kind == Some(""))
  {
  }

  // ---------------------------------------------------------------- counting

  predicate Attaches(p: ParentRef, routeNs: string, gw: GatewayName, listener: string) {
    ParentRefMatches(p, routeNs, gw) && (p.section.None? || p.section.value == listener)
  }

  /** The test spelled out; an absent or empty group or kind is the default one. */
  lemma AttachesExactly(p: ParentRef, routeNs: string, gw: GatewayName, listener: string)
    ensures Attaches(p, routeNs, gw, listener) <==>
            && Named(p, routeNs, gw) && (p.section.None? || p.section.value == listener)
            && p.group in {None, Some(""), Some("gateway.networking.k8s.io")}
            && p.kind in {None, Some(""), Some("Gateway")}
  {
  }

  function RefsAttached(ps: seq<ParentRef>, routeNs: string, gw: GatewayName, listener: string): nat {
    if ps == [] then 0
    else
      var p := ps[|ps| - 1];
      RefsAttached(ps[..|ps| - 1], routeNs, gw, listener) + if Attaches(p, routeNs, gw, listener) then 1 else 0
  }

  /** The number of (route, parentRef) pairs that attach to a listener. */
  function Attached(routes: seq<Route>, gw: GatewayName, listener: string): nat {
    if routes == [] then 0
    else
      var r := routes[|routes| - 1];
      Attached(routes[..|routes| - 1], gw, listener) + RefsAttached(r.parents, r.ns, gw, listener)
  }

  /** The pairs that are counted: parent reference `k` of route `n`. */
  function AttachedPairs(routes: seq<Route>, gw: GatewayName, listener: string): set<(int, int)> {
    set n, k | 0 <= n < |routes| && 0 <= k < |routes[n].parents|
               && Attaches(routes[n].parents[k], routes[n].ns, gw, listener) :: (n, k)
  }

  lemma {:induction false} RefsAttachedCounts(n: int, ps: seq<ParentRef>, ns: string, gw: GatewayName, listener: string)
    returns (pairs: set<(int, int)>)
    ensures |pairs| == RefsAttached(ps, ns, gw, listener)
    ensures forall q :: q in pairs <==> q.0 == n && 0 <= q.1 < |ps| && Attaches(ps[q.1], ns, gw, listener)
  {
    pairs := {};
    if ps != [] {
      pairs := RefsAttachedCounts(n, ps[..|ps| - 1], ns, gw, listener);
      if Attaches(ps[|ps| - 1], ns, gw, listener) {
        assert (n, |ps| - 1) !in pairs;
        pairs := pairs + {(n, |ps| - 1)};
      }
    }
  }

  lemma PairMembers(routes: seq<Route>, gw: GatewayName, listener: string)
    ensures forall q :: q in AttachedPairs(routes, gw, listener) <==>
            && 0 <= q.0 < |routes| && 0 <= q.1 < |routes[q.0].parents|
            && Attaches(routes[q.0].parents[q.1], routes[q.0].ns, gw, listener)
  {
  }

  /** The counter is the size of that set. */
  lemma {:induction false} AttachedCountsPairs(routes: seq<Route>, gw: GatewayName, listener: string)
    ensures Attached(routes, gw, listener) == |AttachedPairs(routes, gw, listener)|
  {
    hide Attaches;
    if routes != [] {
      var init, n := routes[..|routes| - 1], |routes| - 1;
      AttachedCountsPairs(init, gw, listener);
      var own := RefsAttachedCounts(n, routes[n].parents, routes[n].ns, gw, listener);
      var before := AttachedPairs(init, gw, listener);
      PairMembers(init, gw, listener);
      PairMembers(routes, gw, listener);
      hide AttachedPairs;
      assert before !! own;
      assert AttachedPairs(routes, gw, listener) == before + own;
    }
  }

  /** A listener status as far as the counters go; `conditions` stands for the rest. */
  datatype ListenerStatus = ListenerStatus(name: string, attached: int, conditions: int)

  /** Adds one to every counter. */
  method IncrementAll(counts: map<string, nat>) returns (r: map<string, nat>)
    ensures r.Keys == counts.Keys && forall l | l in counts :: r[l] == counts[l] + 1
  {
    r := counts;
    var todo := counts.Keys;
    while todo != {}
      invariant todo <= counts.Keys && r.Keys == counts.Keys
      invariant forall l | l in counts :: r[l] == counts[l] + if l in todo then 0 else 1
      decreases todo
    {
      var l :| l in todo;
      r := r[l := r[l] + 1];
      todo := todo - {l};
    }
  }

  method CountRef(counts: map<string, nat>, p: ParentRef, routeNs: string, gw: GatewayName)
    returns (r: map<string, nat>)
    ensures r.Keys == counts.Keys
    ensures forall l | l in counts :: r[l] == counts[l] + if Attaches(p, routeNs, gw, l) then 1 else 0
  {
    r := counts;
    if !ParentRefMatches(p, routeNs, gw) {
      return;
    }
    if p.section.Some? {
      if p.section.value in counts {
        r := counts[p.section.value := counts[p.section.value] + 1];
      }
      return;
    }
    r := IncrementAll(counts);
  }

  method CountRoutes(listeners: seq<string>, routes: seq<Route>, gw: GatewayName) returns (counts: map<string, nat>)
    ensures counts.Keys == set l | l in listeners
    ensures forall l | l in counts :: counts[l] == Attached(routes, gw, l)
  {
    counts := map l | l in listeners :: 0;
    for n := 0 to |routes|
      invariant counts.Keys == set l | l in listeners
      invariant forall l | l in counts :: counts[l] == Attached(routes[..n], gw, l)
    {
      assert routes[..n + 1][..n] == routes[..n];
      var r := routes[n];
      for k := 0 to |r.parents|
        invariant counts.Keys == set l | l in listeners
        invariant forall l | l in counts ::
          counts[l] == Attached(routes[..n], gw, l) + RefsAttached(r.parents[..k], r.ns, gw, l)
      {
        assert r.parents[..k + 1][..k] == r.parents[..k];
        counts := CountRef(counts, r.parents[k], r.ns, gw);
      }
      assert r.parents[..|r.parents|] == r.parents;
    }
    assert routes[..|routes|] == routes;
  }

  /** Overwrites the counters of the listener statuses in place; a listener no longer in the spec gets zero. */
  method UpdateAttachedRoutes(
    listeners: seq<string>, routes: seq<Route>, gw: GatewayName, statuses: array<ListenerStatus>)
    returns (changed: bool)
    modifies statuses
    ensures forall i | 0 <= i < statuses.Length ::
      statuses[i] == old(statuses[i]).(attached :=
        if old(statuses[i]).name in listeners then Attached(routes, gw, old(statuses[i]).name) else 0)
    ensures changed <==> statuses[..] != old(statuses[..])
  {
    var counts := CountRoutes(listeners, routes, gw);
    changed := false;
    for i := 0 to statuses.Length
      invariant forall k | i <= k < statuses.Length :: statuses[k] == old(statuses[k])
      invariant forall k | 0 <= k < i ::
        statuses[k] == old(statuses[k]).(attached :=
          if old(statuses[k]).name in listeners then Attached(routes, gw, old(statuses[k]).name) else 0)
      invariant changed <==> exists k | 0 <= k < i :: statuses[k] != old(statuses[k])
    {
      var newCount := if statuses[i].name in counts then counts[statuses[i].name] else 0;
      if statuses[i].attached != newCount {
        statuses[i] := statuses[i].(attached := newCount);
        changed := true;
      }
    }
    if changed {
      ghost var k :| 0 <= k < statuses.Length && statuses[k] != old(statuses[k]);
      assert statuses[..][k] != old(statuses[..])[k];
    } else {
      assert forall k | 0 <= k < statuses.Length :: statuses[..][k] == old(statuses[..])[k];
    }
  }

  // ---------------------------------------------------------------- the Gateway controller's rewrite of the same list

  /** The counter carried over: the last existing entry of that name, or zero. */
  function Carried(existing: seq<ListenerStatus>, name: string): int {
    if existing == [] then 0
    else if existing[|existing| - 1].name == name then existing[|existing| - 1].attached
    else Carried(existing[..|existing| - 1], name)
  }

  /** updateStatus builds one status per listener of the spec and preserves the counters it finds. */
  method RebuildListeners(listeners: seq<string>, existing: seq<ListenerStatus>, conditions: int)
    returns (out: seq<ListenerStatus>)
    ensures |out| == |listeners|
    ensures forall i | 0 <= i < |out| ::
      out[i] == ListenerStatus(listeners[i], Carried(existing, listeners[i]), conditions)
  {
    out := [];
    for i := 0 to |listeners|
      invariant |out| == i
      invariant forall k | 0 <= k < i ::
        out[k] == ListenerStatus(listeners[k], Carried(existing, listeners[k]), conditions)
    {
      var ls := ListenerStatus(listeners[i], 0, conditions);
      for k := 0 to |existing|
        invariant ls == ListenerStatus(listeners[i], Carried(existing[..k], listeners[i]), conditions)
      {
        assert existing[..k + 1][..k] == existing[..k];
        if existing[k].name == listeners[i] {
          ls := ls.(attached := existing[k].attached);
        }
      }
      assert existing[..|existing|] == existing;
      out := out + [ls];
    }
  }

  /** Every counter of a listener of the spec is right. */
  predicate Accurate(statuses: seq<ListenerStatus>, listeners: seq<string>, routes: seq<Route>, gw: GatewayName) {
    forall i | 0 <= i < |statuses| && statuses[i].name in listeners ::
      statuses[i].attached == Attached(routes, gw, statuses[i].name)
  }

  predicate Has(statuses: seq<ListenerStatus>, name: string) {
    exists i | 0 <= i < |statuses| :: statuses[i].name == name
  }

  lemma {:induction false} CarriedIsAccurate(
    existing: seq<ListenerStatus>, listeners: seq<string>, routes: seq<Route>, gw: GatewayName, name: string)
    requires Accurate(existing, listeners, routes, gw) && name in listeners && Has(existing, name)
    ensures Carried(existing, name) == Attached(routes, gw, name)
  {
    var init := existing[..|existing| - 1];
    if existing[|existing| - 1].name != name {
      var i :| 0 <= i < |existing| && existing[i].name == name;
      assert init[i].name == name;
      CarriedIsAccurate(init, listeners, routes, gw, name);
    }
  }

  /**
   * A Gateway status update in between keeps the counters right: every listener still in the spec that had
   * an entry keeps an accurate one. A listener new to the spec starts at zero, which is right exactly when
   * nothing attaches to it yet.
   */
  lemma {:induction false} RewriteKeepsCounters(
    listeners: seq<string>, existing: seq<ListenerStatus>, out: seq<ListenerStatus>,
    routes: seq<Route>, gw: GatewayName, i: nat)
    requires i < |listeners| && |out| == |listeners| && Accurate(existing, listeners, routes, gw)
    requires out[i].name == listeners[i] && out[i].attached == Carried(existing, listeners[i])
    ensures out[i].attached == Attached(routes, gw, listeners[i])
       <==> Has(existing, listeners[i]) || Attached(routes, gw, listeners[i]) == 0
  {
    if Has(existing, listeners[i]) {
      CarriedIsAccurate(existing, listeners, routes, gw, listeners[i]);
    } else {
      CarriedNothing(existing, listeners[i]);
    }
  }

  lemma {:induction false} CarriedNothing(existing: seq<ListenerStatus>, name: string)
    requires !Has(existing, name)
    ensures Carried(existing, name) == 0
  {
    if existing != [] {
      var init := existing[..|existing| - 1];
      assert forall i | 0 <= i < |init| :: init[i] == existing[i];
      CarriedNothing(init, name);
    }
  }
}
