/** Two runs of the system that end where the documentation says they cannot. */
module Runs {
  import opened Wrappers
  import opened Names
  import opened Protocol
  import opened Interference
  import Settled

  /** One more event of a run. */
  lemma Then(log: seq<Event>, s: State, e: Event) returns (longer: seq<Event>, t: State)
    requires Legal(log) && s == After(log) && Guard(s, e)
    ensures longer == log + [e] && Legal(longer) && t == After(longer) && t == Apply(s, e)
  {
    hide Guard, Apply;
    Extend(log, e);
    longer, t := log + [e], Apply(s, e);
  }

  /** A Gateway under the finalizer, and nothing else. */
  lemma Begin() returns (log: seq<Event>, s: State)
    ensures Legal(log) && s == After(log)
    ensures s == INIT.(gw := Some(Gateway(0, 1, true, false, false, None, None, [], Unset)), nextUid := 1)
  {
    log, s := [], INIT;
    log, s := Then(log, s, UserCreates(false));
    log, s := Then(log, s, AddFinalizer);
  }

  /** A new backend Secret. */
  lemma ThenSecret(log: seq<Event>, s: State, i: nat, f: KeyFiles) returns (longer: seq<Event>, t: State)
    requires Legal(log) && s == After(log) && Held(s) && Parses(f) && i !in s.secrets
    ensures Legal(longer) && t == After(longer) && t == s.(secrets := s.secrets[i := f])
  {
    hide Parses;
    longer, t := Then(log, s, WriteSecret(i, f));
  }

  lemma ThenReplicas(log: seq<Event>, s: State, n: nat) returns (longer: seq<Event>, t: State)
    requires Legal(log) && s == After(log) && Held(s) && forall i | 0 <= i < n :: i in s.secrets
    ensures Legal(longer) && t == After(longer) && t == s.(replicas := Some(n), tally := s.tally.(licensed := false))
  {
    hide Parses;
    longer, t := Then(log, s, SetReplicas(n));
  }

  // ---------------------------------------------------------------- counts that agree too early

  /** Three replicas, keyed and running. */
  lemma ThreePods(f: KeyFiles) returns (log: seq<Event>, s: State)
    requires Parses(f)
    ensures Legal(log) && s == After(log)
    ensures Held(s) && s.replicas == Some(3) && s.pods == {0, 1, 2} && s.leftover == {}
    ensures s.secrets == map[0 := f, 1 := f, 2 := f]
  {
    hide Parses, Legal, After, EnvGuard, OperatorGuard, EnvApply, OperatorApply;
    log, s := Begin();
    log, s := ThenSecret(log, s, 0, f);
    log, s := ThenSecret(log, s, 1, f);
    log, s := ThenSecret(log, s, 2, f);
    log, s := ThenReplicas(log, s, 3);
    log, s := ThreeStarts(log, s);
  }

  lemma ThreeStarts(log0: seq<Event>, s0: State) returns (log: seq<Event>, s: State)
    requires Legal(log0) && s0 == After(log0) && s0.replicas == Some(3) && s0.pods == {} && s0.leftover == {}
    ensures Legal(log) && s == After(log) && s == s0.(pods := {0, 1, 2})
  {
    log, s := Then(log0, s0, PodStarted(0));
    log, s := Then(log, s, PodStarted(1));
    log, s := Then(log, s, PodStarted(2));
    assert s.pods == {0, 1, 2};
  }

  /** Scaled down to two, with pod 0 gone and pod 2 still running. */
  lemma WrongTwo(f: KeyFiles) returns (log: seq<Event>, s: State)
    requires Parses(f)
    ensures Legal(log) && s == After(log)
    ensures Held(s) && s.replicas == Some(2) && s.pods == {1, 2} && 2 in s.secrets
  {
    hide Parses, Legal, After;
    log, s := ThreePods(f);
    log, s := ThenReplicas(log, s, 2);
    log, s := Then(log, s, PodStopped(0));
  }

  /**
   * Scaling down from three to two: pod 0 goes away while pod 2 still runs. The counts are read and agree, the
   * collection is allowed, and pod 2 is left alive without its key Secret.
   */
  lemma CountsAloneDoNotSettle(f: KeyFiles) returns (log: seq<Event>)
    requires Parses(f)
    ensures Legal(log) && |log| >= 2
    ensures var k := |log| - 2; var s := At(log, k);
      && log[k] == ReadSettled && s.pods == {1, 2} && s.replicas == Some(|s.pods|) && s.pods != Settled.Ordinals(2)
    ensures var k := |log| - 1; log[k] == Delete(BackendSecret(2)) && Robs(At(log, k), log[k])
    ensures 2 in After(log).pods && 2 !in After(log).secrets && After(log).tally.robbed > 0
  {
    hide Parses, Legal, After;
    var before, was := WrongTwo(f);
    var read, seen := Then(before, was, ReadSettled);
    var s;
    log, s := Then(read, seen, Delete(BackendSecret(2)));
    BeforeLast(read, Delete(BackendSecret(2)));
    BeforeLast(before, ReadSettled);
    Earlier(read, Delete(BackendSecret(2)), |before|);
    assert 2 !in Settled.Ordinals(2);
  }

  lemma Earlier(log: seq<Event>, e: Event, k: nat)
    requires Legal(log) && Legal(log + [e]) && k <= |log|
    ensures At(log + [e], k) == At(log, k)
  {
    hide Guard, Apply;
    assert (log + [e])[..|log|] == log;
  }

  lemma BeforeLast(log: seq<Event>, e: Event)
    requires Legal(log + [e])
    ensures Legal(log) && At(log + [e], |log|) == After(log)
  {
    hide Guard, Apply;
    assert (log + [e])[..|log|] == log;
  }

  // ---------------------------------------------------------------- a pair nobody collects

  /** The children of Mode B and of the router, written one after another. */
  lemma {:induction false} PutAll(log0: seq<Event>, s0: State, refs: seq<Ref>, b: Built)
    returns (log: seq<Event>, s: State)
    requires Legal(log0) && s0 == After(log0) && Held(s0) && b.uid == s0.gw.value.uid
    requires forall k | 0 <= k < |refs| :: Rendered(refs[k])
    ensures Legal(log) && s == After(log) && s == s0.(plain := s.plain)
    ensures forall r :: r in s.plain <==> r in s0.plain || r in refs
    ensures forall r | r in refs :: s.plain[r] == b
    ensures forall r | r in s0.plain && r !in refs :: s.plain[r] == s0.plain[r]
  {
    if refs == [] {
      log, s := log0, s0;
    } else {
      var init, last := refs[..|refs| - 1], refs[|refs| - 1];
      assert refs == init + [last];
      var m;
      log, m := PutAll(log0, s0, init, b);
      log, s := Then(log, m, Put(last, b));
    }
  }

  const CHILDREN: seq<Ref> :=
    [Frontend, BackendService, FrontendTorrc, BackendTorrc, FrontendAccount, FrontendRole, FrontendBinding,
     RouterAccount, RouterRole, RouterBinding]

  lemma ChildrenComplete()
    ensures forall r :: r in CHILDREN <==> r in MODE_B_REFS + ROUTER_REFS
    ensures forall k | 0 <= k < |CHILDREN| :: Rendered(CHILDREN[k])
  {
    var l := CHILDREN;
    assert l[0] == Frontend && l[1] == BackendService && l[2] == FrontendTorrc && l[3] == BackendTorrc;
    assert l[4] == FrontendAccount && l[5] == FrontendRole && l[6] == FrontendBinding;
    assert l[7] == RouterAccount && l[8] == RouterRole && l[9] == RouterBinding;
  }

  /** One key Secret and a cross-namespace pair. */
  lemma PairAndKey(f: KeyFiles, ns: string) returns (log: seq<Event>, s: State)
    requires Parses(f)
    ensures Legal(log) && s == After(log) && s.policy == Some(Policy(true, 1, ns))
    ensures OwnedNow(s, 0) && Held(s) && NoModeA(s) && s.plain == map[] && s.rev == 0
    ensures s.secrets == map[0 := f] && s.roles == map[ns := 0] && s.bindings == map[ns := 0]
  {
    hide Parses;
    log, s := Begin();
    log, s := Then(log, s, PolicyEdited(Some(Policy(true, 1, ns))));
    log, s := Then(log, s, PutRole(ns));
    log, s := Then(log, s, PutBinding(ns));
    log, s := ThenSecret(log, s, 0, f);
  }

  /** Mode B with one replica and the master Secret in another namespace, completely provisioned. */
  lemma ServedFrom(f: KeyFiles, ns: string) returns (log: seq<Event>, s: State)
    requires Parses(f)
    ensures Legal(log) && s == After(log) && s.policy == Some(Policy(true, 1, ns))
    ensures ServedByB(s, 0, 1, 0, false, Some(ns))
  {
    hide Parses, NoModeA, ServedByB, Rendered;
    log, s := PairAndKey(f, ns);
    ChildrenComplete();
    var start := s;
    log, s := PutAll(log, s, CHILDREN, Built(0, 0, Some(1)));
    log, s := ThenReplicas(log, s, 1);
    Complete(start, s, ns);
  }

  lemma Complete(s: State, t: State, ns: string)
    requires OwnedNow(s, 0) && Held(s) && NoModeA(s) && s.plain == map[] && s.rev == 0 && 0 in s.secrets
    requires s.roles == map[ns := 0] && s.bindings == map[ns := 0]
    requires t == s.(plain := t.plain, replicas := Some(1), tally := t.tally)
    requires forall r :: r in t.plain <==> r in MODE_B_REFS + ROUTER_REFS
    requires forall r | r in MODE_B_REFS + ROUTER_REFS :: t.plain[r] == Built(0, 0, Some(1))
    ensures ServedByB(t, 0, 1, 0, false, Some(ns))
  {
  }

  /**
   * The policy moves its master Secret to the Gateway's own namespace. The state is exactly what a completed
   * Mode B reconcile for the new policy leaves, and the pair in the old namespace is still there.
   */
  lemma OldPairStays(f: KeyFiles, ns: string) returns (log: seq<Event>)
    requires Parses(f) && ns != ""
    ensures Legal(log)
    ensures var s := After(log);
      && s.policy == Some(Policy(true, 1, "")) && ServedByB(s, 0, 1, 0, false, None)
      && ns in s.roles && ns in s.bindings
  {
    hide Parses, ServedByB;
    var s;
    log, s := ServedFrom(f, ns);
    var served := s;
    log, s := Then(log, s, PolicyEdited(Some(Policy(true, 1, ""))));
    PolicyLeavesServed(served, s, ns);
  }

  lemma PolicyLeavesServed(s: State, t: State, ns: string)
    requires ServedByB(s, 0, 1, 0, false, Some(ns)) && t == s.(policy := t.policy, tally := t.tally)
    ensures ServedByB(t, 0, 1, 0, false, None) && ns in t.roles && ns in t.bindings
  {
  }
}
