/** The Gateway reconciler, call by call. */
module Reconciler {
  import opened Wrappers
  import opened Names
  import opened Protocol
  import opened Interference
  import opened Status
  import Base32
  import Keys
  import Onion
  import Settled

  /** The objects Mode B's reconcile deletes first, in the reconciler's order. */
  const CLEANUP_A: seq<Ref> :=
    [Deployment, Service, Ref.KeySecret, TorrcConfig, NetPolicy, VanityAccount, VanityRole, VanityBinding, VanityOut,
      VanityJob]

  /** The named objects Mode A's reconcile deletes first. */
  const CLEANUP_B: seq<Ref> :=
    [Frontend, BackendSet, BackendService, OnionbalanceConfig, FrontendTorrc, BackendTorrc,
     FrontendAccount, FrontendRole, FrontendBinding]

  datatype Origin = Existing | Random | Harvested

  datatype KeyResult =
    | Ready(files: KeyFiles, origin: Origin)
    | Pending | GaveUp | Awaiting
    | Broken                                  // an error of a call or a parse

  datatype Outcome =
    | Failed                                  // the reconcile returned an error
    | NotFound | Unmanaged | Leaving          // nothing to do
    | Released                                // finalizer removed
    | Waiting(reason: string)                 // Programmed=False was written and the reconcile stopped there
    | DoneB(policy: Policy, settled: bool, master: string)   // the address published
    | DoneA(files: KeyFiles)

  /** The output Secret holds a whole secret key file and a whole public one. */
  predicate Full(out: Option<KeyFiles>) {
    out.Some? && |out.value.secret| == 96 && |out.value.public| == 64
  }

  /** What a harvest for `prefix` comes to, from the Job and the output Secret that were read. */
  predicate HarvestVerdict(r: KeyResult, prefix: string, job: Option<Job>, out: Option<KeyFiles>) {
    match r
    case Broken => true
    case Awaiting => false
    case Pending =>
      job.None? || job.value.prefix != prefix || (!job.value.failed && out.Some? && !Full(out))
    case GaveUp =>
      job.Some? && job.value.prefix == prefix && job.value.failed && out.Some? && !Full(out)
    case Ready(files, origin) =>
      origin == Harvested && job.Some? && job.value.prefix == prefix && Full(out) && out.value == files
  }

  /**
   * What the key step comes to on the copy `g`: a key Secret that is there is taken as it is; otherwise the
   * requested prefix, from the cache or else from the API server, is harvested, unless its failure is already
   * recorded; and without a prefix a random key is made, unless one is waited for.
   */
  predicate KeyVerdict(
    r: KeyResult, g: Gateway, cached: string,
    key: Option<KeySecret>, requested: string, job: Option<Job>, out: Option<KeyFiles>)
  {
    var prefix := if cached != "" then cached else requested;
    if r.Broken? then true
    else if key.Some? then r == Ready(key.value.files, Existing)
    else if prefix == "" then if g.await then r == Awaiting else r.Ready? && r.origin == Random
    else if g.vanityFailed == Some(prefix) then r == GaveUp
    else HarvestVerdict(r, prefix, job, out)
  }

  /** The moments of the log at which the key step read the key Secret, the prefix, the Job and the output. */
  datatype KeyReads = KeyReads(secret: nat, prefix: nat, job: nat, out: nat)

  ghost predicate KeyExplained(log: seq<Event>, since: nat, r: KeyResult, g: Gateway, cached: string, at: KeyReads)
    requires Legal(log)
  {
    && since <= at.secret <= at.prefix <= at.job <= at.out <= |log|
    && KeyVerdict(r, g, cached, At(log, at.secret).key, At(log, at.prefix).prefix,
                  At(log, at.job).job, At(log, at.out).out)
  }

  /** The key step of a Mode A reconcile: its result, the cached prefix, and the moment that was the API server's. */
  datatype KeyStory = KeyStory(result: KeyResult, cached: string, seen: nat, at: KeyReads)

  /** Which outcome of a Mode A reconcile belongs to which result of the key step. */
  predicate FollowsKey(r: Outcome, key: KeyResult) {
    match r
    case Waiting(reason) =>
      || (key == Pending && reason == "VanityHarvestInProgress")
      || (key == GaveUp && reason == "VanityHarvestFailed")
      || (key == Awaiting && reason == "AwaitingVanityPolicy")
    case DoneA(files) => key.Ready? && key.files == files
    case _ => false
  }

  ghost predicate ExplainedInA(log: seq<Event>, since: nat, r: Outcome, g: Gateway, key: KeyStory)
    requires Legal(log)
  {
    && since <= key.seen <= |log| && FollowsKey(r, key.result)
    && (key.cached == "" || key.cached == At(log, key.seen).prefix)
    && KeyExplained(log, key.seen, key.result, g, key.cached, key.at)
  }

  /** The moments at which a reconcile read the Gateway, the policy and the replica counts, and its key step. */
  datatype Readings = Readings(gateway: nat, policy: nat, counts: nat, key: KeyStory)

  /**
   * What a reconcile finds in objects that are others': whether the GatewayClass is ours, whether a
   * ReferenceGrant admits the master's namespace, and the master Secret, if it is there.
   */
  datatype Inputs = Inputs(managed: bool, granted: bool, master: Option<Keys.MasterData>)

  /** `master` is the text of the master's address, None without the Secret. */
  ghost predicate ExplainedHeld(
    log: seq<Event>, since: nat, r: Outcome, g: Gateway, at: Readings, master: Option<string>)
    requires Legal(log)
  {
    && since <= at.policy <= |log|
    && var pol := At(log, at.policy).policy;
       if pol.None? then ExplainedInA(log, at.policy, r, g, at.key)
       else if !pol.value.accepted then r == Waiting("PolicyNotAccepted")
       else if master.None? then r == Waiting("MasterSecretNotFound")
       else ExplainedInB(log, at.policy, r, pol.value, at.counts, master.value)
  }

  ghost predicate ExplainedInB(
    log: seq<Event>, since: nat, r: Outcome, pol: Policy, counts: nat, master: string)
    requires Legal(log)
  {
    && r.DoneB? && r.policy == pol && r.master == master && since <= counts <= |log|
    && (r.settled <==> At(log, counts).replicas == Some(|At(log, counts).pods|))
  }

  /** What a reconcile comes to unless something fails: what it read decides. */
  ghost predicate Explained(
    log: seq<Event>, since: nat, r: Outcome, at: Readings, managed: bool, master: Option<string>)
    requires Legal(log)
  {
    && since <= at.gateway <= |log|
    && match At(log, at.gateway).gw
       case None => r == NotFound
       case Some(g) =>
         if !managed then r == Unmanaged
         else if g.deleting then r == (if g.finalizer then Released else Leaving)
         else ExplainedHeld(log, at.gateway, r, g, at, master)
  }

  /** Between two moments of the log the Job's account, Role and binding were made, and its output Secret was there. */
  ghost predicate Prepared(log: seq<Event>, since: nat, till: nat, uid: nat, rev: nat)
    requires Legal(log)
  {
    till <= |log| && exists k: nat, o: nat ::
      && since <= k <= o <= till
      && Made(At(log, k), VANITY_REFS, uid, rev, None) && At(log, o).out.Some?
  }

  class Controller {
    const sha3: Onion.Hash256
    const sha512: Keys.Hash512
    const derive: Keys.Derive
    const gwNs: string
    const netPolicyEnabled: bool
    var s: State
    ghost var log: seq<Event>
    /** Failed calls, rejected writes and unusable inputs. */
    ghost var faults: nat

    constructor (
      sha3: Onion.Hash256, sha512: Keys.Hash512, derive: Keys.Derive, gwNs: string, netPolicyEnabled: bool)
      ensures Valid() && log == [] && s == INIT && faults == 0
    {
      this.sha3, this.sha512, this.derive := sha3, sha512, derive;
      this.gwNs, this.netPolicyEnabled := gwNs, netPolicyEnabled;
      s, log, faults := INIT, [], 0;
      new;
      EmptyInv();
    }

    /** The log is a legal run and leads to the present state. */
    ghost predicate Valid()
      reads this`s, this`log
    {
      Legal(log) && s == After(log) && Inv(s)
    }

    // -------------------------------------------------------------- API calls

    method Do(e: Event)
      requires Valid() && Guard(s, e)
      modifies this
      ensures faults == old(faults)
      ensures Valid() && s == Apply(old(s), e) && log == old(log) + [e]
    {
      hide Inv, Guard, Apply;
      Extend(log, e);
      StepKeepsInv(s, e);
      s := Apply(s, e);
      log := log + [e];
    }

    /**
     * One API round trip. The environment moves any number of times first. The call may fail (`!ok`), and a
     * failed write may still have taken effect (`applied`).
     */
    method Api() returns (ok: bool, applied: bool)
      requires Valid()
      modifies this
      ensures old(log) <= log && faults == old(faults) + if ok then 0 else 1
      ensures Valid() && Drift(old(s), s, {})
      ensures ok ==> applied
    {
      hide CrossOwned, BackendsKeyed, KeysParse, EnvGuard, OperatorGuard, EnvApply, OperatorApply;
      hide GatewayDrift, CounterDrift, ModeADrift, BackendDrift, CrossDrift, PlainDrift;
      DriftRefl(s);
      var moves: nat := *;
      while moves > 0
        invariant old(log) <= log && faults == old(faults)
        invariant Valid() && Drift(old(s), s, {})
      {
        var e: Event := *;
        if EnvGuard(s, e) {
          ghost var before := s;
          EnvDrifts(s, e);
          Do(e);
          DriftChain(old(s), before, s, {});
        }
        moves := moves - 1;
      }
      ok, applied := *, *;
      applied := applied || ok;
      if !ok { faults := faults + 1; }
    }

    /** A Get or List. */
    method Read() returns (ok: bool)
      requires Valid()
      modifies this
      ensures old(log) <= log && faults >= old(faults) + if ok then 0 else 1
      ensures Valid() && Drift(old(s), s, {})
    {
      var applied;
      ok, applied := Api();
    }

    /** Delete, with NotFound ignored. */
    method DeleteObject(r: Ref) returns (ok: bool, ghost between: State)
      requires Valid() && SafeToDelete(s, r)
      modifies this
      ensures old(log) <= log && faults >= old(faults) + if ok then 0 else 1
      ensures Valid()
      ensures Drift(old(s), between, {}) && (s == between || s == Without(between, r))
      ensures ok ==> !Exists(s, r)
    {
      hide GatewayDrift, CounterDrift, ModeADrift, BackendDrift, CrossDrift, PlainDrift, Inv, SafeToDelete, Without;
      var applied;
      ok, applied := Api();
      between := s;
      StillSafe(old(s), between, r);
      if applied && Exists(s, r) {
        SafeDeletion(s, r);
        Do(Delete(r));
      }
    }

    /** What makes a deletion safe is not undone by the environment. */
    lemma StillSafe(s: State, m: State, r: Ref)
      requires SafeToDelete(s, r) && Drift(s, m, {})
      ensures SafeToDelete(m, r)
    {
    }

    lemma SafeDeletion(s: State, r: Ref)
      requires SafeToDelete(s, r)
      ensures Guard(s, Delete(r)) && Apply(s, Delete(r)) == Without(s, r)
    {
    }

    /** CreateOrUpdate of a child whose content is only rendered. */
    method EnsureRendered(g: Gateway, r: Ref, rev: nat, replicas: Option<nat>) returns (ok: bool)
      requires Valid() && Knows(s, g) && Rendered(r) && rev <= s.rev
      modifies this
      ensures old(log) <= log && faults >= old(faults) + if ok then 0 else 1
      ensures Valid() && Drift(old(s), s, {r}) && Knows(s, g)
      ensures ok ==> Made(s, {r}, g.uid, rev, replicas)
    {
      hide CrossOwned, BackendsKeyed, KeysParse, ModeADrift, BackendDrift, CrossDrift, PlainDrift, EnvGuard, EnvApply;
      var applied;
      ok, applied := Api();
      ghost var first := s;
      KnowsStable(old(s), s, g);
      DriftWidens(old(s), s, {}, {r});
      if !ok { return; }
      ok, applied := Api();
      ghost var second := s;
      KnowsStable(first, s, g);
      DriftWidens(first, s, {}, {r});
      DriftChain(old(s), first, s, {r});
      if applied {
        var b := Built(g.uid, rev, replicas);
        Do(Put(r, b));
        PutDrifts(second, r, b);
        DriftChain(old(s), second, s, {r});
        KnowsStable(second, s, g);
      }
    }

    // -------------------------------------------------------------- cleanup

    method CleanupList(refs: seq<Ref>) returns (ok: bool)
      requires Valid()
      requires forall k | 0 <= k < |refs| :: Listed(refs[k]) && (refs[k].KeySecret? ==> s.tally.accepted)
      modifies this
      ensures old(log) <= log && faults >= old(faults) + if ok then 0 else 1
      ensures Valid() && Shrinks(old(s), s) && CrossDrift(old(s), s)
      ensures (forall k | 0 <= k < |refs| :: !refs[k].KeySecret?) ==> Cleans(old(s), s)
      ensures (forall k | 0 <= k < |refs| :: !refs[k].BackendSet?) ==> s.replicas == old(s).replicas
      ensures ok ==> forall k | 0 <= k < |refs| :: !Exists(s, refs[k])
    {
      hide GatewayDrift, CounterDrift, ModeADrift, PlainDrift, BackendDrift, Shrinks, Exists, KeyKept;
      hide CrossOwned, BackendsKeyed, KeysParse, NoneRobbed, Legal, After;
      DriftRefl(s);
      DeletionShrinks(s, s, VanityOut);
      for n := 0 to |refs|
        invariant old(log) <= log && faults >= old(faults)
        invariant Valid() && Shrinks(old(s), s) && CrossDrift(old(s), s)
        invariant old(s).tally.accepted ==> s.tally.accepted
        invariant (forall k | 0 <= k < |refs| :: !refs[k].KeySecret?) ==> KeyKept(old(s), s)
        invariant (forall k | 0 <= k < |refs| :: !refs[k].BackendSet?) ==> s.replicas == old(s).replicas
        invariant forall k | 0 <= k < n :: !Exists(s, refs[k])
      {
        ghost var before, between := s, s;
        ok, between := DeleteObject(refs[n]);
        DeletionShrinks(before, between, refs[n]);
        DeletionKeepsCross(between, refs[n]);
        ReadingStays(before, between);
        ShrinksTransitive(old(s), before, s);
        AcceptedStays(before, s);
        if !refs[n].KeySecret? && KeyKept(old(s), before) {
          CleansTransitive(old(s), before, s);
        }
        forall k | 0 <= k < n
          ensures !Exists(s, refs[k])
        {
          GoneStaysGone(before, s, refs[k]);
        }
        if !ok { return; }
      }
      ok := true;
    }

    /** What a cleanup list may name. */
    static predicate Listed(r: Ref) {
      !SharedRouter(r) && !r.BackendSecret? && !r.CrossRole? && !r.CrossBinding?
    }

    lemma AcceptedStays(s: State, t: State)
      requires Shrinks(s, t)
      ensures s.tally.accepted ==> t.tally.accepted
    {
    }

    lemma DeletionKeepsCross(m: State, r: Ref)
      requires !r.CrossRole? && !r.CrossBinding?
      ensures CrossDrift(m, Without(m, r)) && (!r.BackendSet? ==> Without(m, r).replicas == m.replicas)
    {
    }

    method CleanupModeA() returns (ok: bool)
      requires Valid() && s.tally.accepted
      modifies this
      ensures old(log) <= log && faults >= old(faults) + if ok then 0 else 1
      ensures Valid() && Shrinks(old(s), s) && CrossDrift(old(s), s) && s.replicas == old(s).replicas
      ensures ok ==> NoModeA(s)
    {
      hide Inv, Shrinks, Exists, NoModeA, KeyKept;
      ok := CleanupList(CLEANUP_A);
      if ok {
        CleanupListA(s);
      }
    }

    lemma CleanupListA(s: State)
      requires forall k | 0 <= k < |CLEANUP_A| :: !Exists(s, CLEANUP_A[k])
      ensures NoModeA(s)
    {
      var l := CLEANUP_A;
      assert l[0] == Deployment && l[1] == Service && l[2] == Ref.KeySecret && l[3] == TorrcConfig;
      assert l[5] == VanityAccount && l[6] == VanityRole && l[7] == VanityBinding;
      assert l[8] == VanityOut && l[9] == VanityJob;
    }

    /** Deletes the cross-namespace Roles labelled with the Gateway's UID, except in `keep`. */
    method DeleteRoles(g: Gateway, keep: set<string>) returns (ok: bool)
      requires Valid() && Knows(s, g)
      modifies this
      ensures old(log) <= log && faults >= old(faults) + if ok then 0 else 1
      ensures Valid() && Knows(s, g) && CrossShrinks(old(s), s, keep)
      ensures ok ==> s.roles.Keys <= keep
    {
      hide GatewayDrift, CounterDrift, ModeADrift, CrossDrift;
      hide PlainDrift, BackendDrift, BackendsKeyed, KeysParse, Knows;
      ok := Read();
      KnowsStable(old(s), s, g);
      DriftIsCrossShrink(old(s), s, keep);
      if !ok { return; }
      var todo := set ns | ns in s.roles && s.roles[ns] == g.uid && ns !in keep;
      KnownRoles(s, g);
      while todo != {}
        invariant old(log) <= log && faults >= old(faults)
        invariant Valid() && Knows(s, g) && CrossShrinks(old(s), s, keep)
        invariant s.roles.Keys <= todo + keep && todo !! keep
        decreases todo
      {
        var ns :| ns in todo;
        ghost var before, between := s, s;
        ok, between := DeleteObject(CrossRole(ns));
        CrossDeletionShrinks(before, between, CrossRole(ns), keep);
        KnowsStable(before, s, g);
        CrossShrinksTransitive(old(s), before, s, keep);
        if !ok { return; }
        todo := todo - {ns};
      }
      ok := true;
    }

    method DeleteBindings(g: Gateway, keep: set<string>) returns (ok: bool)
      requires Valid() && Knows(s, g)
      modifies this
      ensures old(log) <= log && faults >= old(faults) + if ok then 0 else 1
      ensures Valid() && Knows(s, g) && CrossShrinks(old(s), s, keep)
      ensures ok ==> s.bindings.Keys <= keep
    {
      hide GatewayDrift, CounterDrift, ModeADrift, CrossDrift;
      hide PlainDrift, BackendDrift, BackendsKeyed, KeysParse, Knows;
      ok := Read();
      KnowsStable(old(s), s, g);
      DriftIsCrossShrink(old(s), s, keep);
      if !ok { return; }
      var todo := set ns | ns in s.bindings && s.bindings[ns] == g.uid && ns !in keep;
      KnownRoles(s, g);
      while todo != {}
        invariant old(log) <= log && faults >= old(faults)
        invariant Valid() && Knows(s, g) && CrossShrinks(old(s), s, keep)
        invariant s.bindings.Keys <= todo + keep && todo !! keep
        decreases todo
      {
        var ns :| ns in todo;
        ghost var before, between := s, s;
        ok, between := DeleteObject(CrossBinding(ns));
        CrossDeletionShrinks(before, between, CrossBinding(ns), keep);
        KnowsStable(before, s, g);
        CrossShrinksTransitive(old(s), before, s, keep);
        if !ok { return; }
        todo := todo - {ns};
      }
      ok := true;
    }

    /** Every cross-namespace object carries the known Gateway's UID. */
    lemma KnownRoles(s: State, g: Gateway)
      requires CrossOwned(s) && Knows(s, g)
      ensures forall ns | ns in s.roles :: s.roles[ns] == g.uid
      ensures forall ns | ns in s.bindings :: s.bindings[ns] == g.uid
    {
    }

    /** Deletes every backend key Secret; the StatefulSet is gone by now. */
    method DeleteAllSecrets() returns (ok: bool)
      requires Valid() && s.replicas.None?
      modifies this
      ensures old(log) <= log && faults >= old(faults) + if ok then 0 else 1
      ensures Valid() && Cleans(old(s), s)
      ensures ok ==> s.secrets == map[]
    {
      hide GatewayDrift, CounterDrift, ModeADrift, CrossDrift, PlainDrift, CrossOwned, KeysParse, NoneRobbed, KeyKept;
      ok := Read();
      DeletionShrinks(old(s), s, VanityOut);
      if !ok { return; }
      var todo := s.secrets.Keys;
      while todo != {}
        invariant old(log) <= log && faults >= old(faults)
        invariant Valid() && Cleans(old(s), s) && s.replicas.None?
        invariant s.secrets.Keys <= todo
        decreases todo
      {
        var i :| i in todo;
        ghost var before, between := s, s;
        ok, between := DeleteObject(BackendSecret(i));
        DeletionShrinks(before, between, BackendSecret(i));
        CleansTransitive(old(s), before, s);
        if !ok { return; }
        todo := todo - {i};
      }
      ok := true;
    }

    /** Returns the reconcile's copy of the Gateway, refreshed if the cleanup had to write it. */
    method CleanupModeB(g: Gateway) returns (ok: bool, h: Gateway)
      requires Valid() && Knows(s, g) && s.gw.value.vanityFailed == g.vanityFailed
      modifies this
      ensures old(log) <= log && faults >= old(faults) + if ok then 0 else 1
      ensures Valid() && Cleans(old(s), s) && Knows(s, h)
      ensures h.uid == g.uid && h.vanityFailed == g.vanityFailed && h.await == g.await && (g.deleting ==> h.deleting)
      ensures ok ==> NoModeB(s)
    {
      hide GatewayDrift, CounterDrift, ModeADrift, CrossDrift, PlainDrift, BackendDrift, CrossShrinks;
      hide CrossOwned, BackendsKeyed, KeysParse, NoneRobbed, Exists, Later, LaterVersion, Shrinks, Cleans, NoModeB;
      hide Drift, Legal, After;
      h := g;
      ok := CleanupList(CLEANUP_B);
      ghost var s1 := s;
      CleansShrinks(old(s), s1);
      ShrinksKnows(old(s), s, g);
      if !ok { return; }
      CleanupListB(s1);
      ok := DeleteRoles(g, {});
      ghost var s2 := s;
      CrossShrinkIsShrink(s1, s2, {});
      CleansTransitive(old(s), s1, s2);
      if !ok { return; }
      ok := DeleteBindings(g, {});
      ghost var s3 := s;
      CrossShrinkIsShrink(s2, s3, {});
      CleansTransitive(old(s), s2, s3);
      if !ok { return; }
      BackendsGone(s1, s2, s3);
      ok := DeleteAllSecrets();
      ghost var s4 := s;
      CleansTransitive(old(s), s3, s4);
      CleansShrinks(s3, s4);
      ShrinksKnows(s3, s4, g);
      if !ok { return; }
      AllGone(s1, s2, s3, s4);
      if g.lastReplicas.Some? {
        CleansShrinks(old(s), s4);
        ShrinksGateway(old(s), s4);
        SameFailure(old(s), s4, g);
        ok, h := ClearReplicas(g);
        CleansTransitive(old(s), s4, s);
        CleansShrinks(s4, s);
        StaysGone(s4, s);
      }
    }

    lemma CleansShrinks(s: State, t: State)
      requires Cleans(s, t)
      ensures Shrinks(s, t)
    {
    }

    lemma ShrinksGateway(s: State, t: State)
      requires Shrinks(s, t)
      ensures GatewayDrift(s, t)
    {
    }

    lemma BackendsGone(s: State, t: State, u: State)
      requires s.replicas.None? && CrossShrinks(s, t, {}) && CrossShrinks(t, u, {})
      ensures u.replicas.None?
    {
    }

    lemma AllGone(s1: State, s2: State, s3: State, s4: State)
      requires s1.replicas.None? && s1.pods == {} && s1.plain.Keys !! MODE_B_REFS && OnionbalanceConfig !in s1.plain
      requires CrossShrinks(s1, s2, {}) && s2.roles.Keys <= {}
      requires CrossShrinks(s2, s3, {}) && s3.bindings.Keys <= {}
      requires Shrinks(s3, s4) && s4.secrets == map[]
      ensures NoModeB(s4)
    {
      assert s3.plain.Keys <= s2.plain.Keys <= s1.plain.Keys;
    }

    lemma StaysGone(s: State, t: State)
      requires NoModeB(s) && Shrinks(s, t)
      ensures NoModeB(t)
    {
    }

    lemma CleanupListB(s: State)
      requires Inv(s) && forall k | 0 <= k < |CLEANUP_B| :: !Exists(s, CLEANUP_B[k])
      ensures s.replicas.None? && s.pods == {} && s.plain.Keys !! MODE_B_REFS && OnionbalanceConfig !in s.plain
    {
      hide CrossOwned, KeysParse, UidsFresh, PlainRendered, Exists;
      NoneOfListB(s);
      NamedPlain(s, PLAIN_B);
    }

    const PLAIN_B: set<Ref> := MODE_B_REFS + {OnionbalanceConfig}

    lemma NoneOfListB(s: State)
      requires forall k | 0 <= k < |CLEANUP_B| :: !Exists(s, CLEANUP_B[k])
      ensures s.replicas.None?
      ensures forall r | r in PLAIN_B :: !Exists(s, r)
    {
      var l := CLEANUP_B;
      assert l[0] == Frontend && l[1] == BackendSet && l[2] == BackendService && l[3] == OnionbalanceConfig;
      assert l[4] == FrontendTorrc && l[5] == BackendTorrc && l[6] == FrontendAccount && l[7] == FrontendRole;
      assert l[8] == FrontendBinding;
    }

    lemma NamedPlain(s: State, refs: set<Ref>)
      requires forall r | r in refs :: Rendered(r) && !Exists(s, r)
      ensures s.plain.Keys !! refs
    {
    }

    lemma SameFailure(s: State, t: State, g: Gateway)
      requires Knows(s, g) && s.gw.value.vanityFailed == g.vanityFailed && GatewayDrift(s, t)
      ensures t.gw.Some? && t.gw.value.vanityFailed == g.vanityFailed
    {
    }

    lemma ShrinksKnows(s: State, t: State, g: Gateway)
      requires Knows(s, g) && Shrinks(s, t)
      ensures Knows(t, g)
    {
      KnowsStable(s, t, g);
    }

    /** Clears the Mode B annotation with a write based on `g`; fails when the object has changed since. */
    method ClearReplicas(g: Gateway) returns (ok: bool, h: Gateway)
      requires Valid() && Knows(s, g) && s.gw.value.vanityFailed == g.vanityFailed
      modifies this
      ensures old(log) <= log && faults >= old(faults) + if ok then 0 else 1
      ensures Valid() && Cleans(old(s), s) && Knows(s, h)
      ensures h.uid == g.uid && h.vanityFailed == g.vanityFailed && h.await == g.await && (g.deleting ==> h.deleting)
    {
      hide Cleans, KeyKept, CounterDrift, ModeADrift, PlainDrift, BackendDrift, CrossDrift, GatewayDrift, Shrinks;
      hide CrossOwned, BackendsKeyed, KeysParse, NoneRobbed, Knows, Drift;
      h := g;
      var applied;
      ok, applied := Api();
      ghost var m := s;
      KnowsDrift(old(s), m, g);
      DeletionShrinks(old(s), m, VanityOut);
      var current := Current(s, g);
      if applied && current {
        NoteCleans(m, g, None);
        Do(NoteReplicas(None));
        CleansTransitive(old(s), m, s);
        if ok { h := s.gw.value; }
      }
      if !current { faults := faults + 1; }
      ok := ok && current;
    }

    lemma NoteCleans(s: State, g: Gateway, last: Option<nat>)
      requires Knows(s, g) && Current(s, g)
      ensures Guard(s, NoteReplicas(last)) && Cleans(s, Apply(s, NoteReplicas(last)))
      ensures var t := Apply(s, NoteReplicas(last));
        && Knows(t, g) && t.gw == Some(g.(lastReplicas := last, rv := g.rv + 1)) && Knows(t, t.gw.value)
    {
      hide Parses, Populated;
    }

    lemma MayDropFinalizer(s: State)
      requires Held(s) && s.gw.value.deleting && NoModeB(s)
      ensures OperatorGuard(s, DropFinalizer) && Guard(s, DropFinalizer) && !Held(Apply(s, DropFinalizer))
    {
    }

    /** Removes the finalizer, retrying on conflict. */
    method RemoveFinalizer(g: Gateway) returns (ok: bool)
      requires Valid() && Knows(s, g) && g.deleting && NoModeB(s)
      modifies this
      ensures old(log) <= log && faults >= old(faults) + if ok then 0 else 1
      ensures Valid() && Uneventful(old(s), s) && NoneOfA(old(s), s) && NoneOfB(old(s), s)
      ensures ok ==> !Held(s)
    {
      hide Uneventful, NoneOfA, NoneOfB;
      hide GatewayDrift, CounterDrift, ModeADrift, CrossDrift, PlainDrift, BackendDrift, NoModeB;
      hide CrossOwned, BackendsKeyed, KeysParse, NoneRobbed;
      DriftRefl(s);
      for attempt := 0 to 5
        invariant old(log) <= log && faults >= old(faults) + attempt
        invariant Valid() && Knows(s, g) && NoModeB(s) && Drift(old(s), s, {})
      {
        var applied;
        ghost var before := s;
        ok := Read();
        StillKnown(old(s), before, s, g);
        if !ok {
          DriftLeavesNone(old(s), s);
          return;
        }
        var newest := s.gw.value;
        before := s;
        ok, applied := Api();
        StillKnown(old(s), before, s, g);
        DriftLeavesNone(old(s), s);
        var current := Current(s, newest);
        if applied && current {
          MayDropFinalizer(s);
          before := s;
          Do(DropFinalizer);
          DropFinalizerUneventful(before);
          UneventfulChain(old(s), before, s);
          NoneOfAChain(old(s), before, s);
          NoneOfBChain(old(s), before, s);
          return;
        }
        if !ok { return; }
        faults := faults + 1;
      }
      DriftLeavesNone(old(s), s);
      ok := false;
    }

    lemma StillKnown(s: State, t: State, u: State, g: Gateway)
      requires Inv(s) && Drift(s, t, {}) && Drift(t, u, {}) && Knows(t, g) && NoModeB(t)
      ensures Drift(s, u, {}) && Knows(u, g) && NoModeB(u)
    {
      hide NoModeB;
      DriftChain(s, t, u, {});
      KnowsStable(t, u, g);
      NoModeBStable(t, u, {});
    }

    lemma DriftLeavesNone(s: State, t: State)
      requires Drift(s, t, {})
      ensures Uneventful(s, t) && NoneOfA(s, t) && NoneOfB(s, t)
    {
      DriftUneventful(s, t, {});
      DriftMakesNone(s, t, {});
    }

    // -------------------------------------------------------------- rendered children, one after another

    /** The next EnsureRendered of a series that began in `start` and has made `done`. */
    method EnsureNext(g: Gateway, r: Ref, rev: nat, replicas: Option<nat>,
                      ghost start: State, ghost done: set<Ref>, ghost since: nat) returns (ok: bool)
      requires Valid() && Knows(s, g) && Rendered(r) && r !in done && since <= rev <= s.rev
      requires Inv(start) && Drift(start, s, done) && Made(s, done, g.uid, since, replicas)
      modifies this
      ensures old(log) <= log && faults >= old(faults) + if ok then 0 else 1
      ensures Valid() && Knows(s, g) && old(s).rev <= s.rev && Drift(start, s, done + {r})
      ensures ok ==> Made(s, done + {r}, g.uid, since, replicas)
    {
      hide GatewayDrift, CounterDrift, ModeADrift, CrossDrift, PlainDrift, BackendDrift;
      hide CrossOwned, BackendsKeyed, KeysParse, Knows;
      ghost var before := s;
      ok := EnsureRendered(g, r, rev, replicas);
      DriftTransitive(start, before, s, done, {r});
      MadeStable(before, s, {r}, done, g, since, replicas);
      RevGrows(before, s, {r});
    }

    lemma RevGrows(s: State, t: State, w: set<Ref>)
      requires Drift(s, t, w)
      ensures s.rev <= t.rev
    {
    }

    method EnsureRouterRbac(g: Gateway, rev: nat, replicas: Option<nat>) returns (ok: bool)
      requires Valid() && Knows(s, g) && rev <= s.rev
      modifies this
      ensures old(log) <= log && faults >= old(faults) + if ok then 0 else 1
      ensures Valid() && Knows(s, g) && Drift(old(s), s, ROUTER_REFS)
      ensures ok ==> Made(s, ROUTER_REFS, g.uid, rev, replicas)
    {
      hide Drift, Inv, Knows, Made;
      ok := EnsurePair(g, RouterAccount, RouterRole, rev, replicas);
      ghost var s1 := s;
      DriftWidens(old(s), s1, {RouterAccount, RouterRole}, ROUTER_REFS);
      if !ok { return; }
      RevGrows(old(s), s1, ROUTER_REFS);
      ok := EnsureNext(g, RouterBinding, rev, replicas, old(s), {RouterAccount, RouterRole}, rev);
      assert {RouterAccount, RouterRole} + {RouterBinding} == ROUTER_REFS;
    }

    /** With the feature off any stale NetworkPolicy is deleted instead. */
    method EnsureNetworkPolicy(g: Gateway, rev: nat, replicas: Option<nat>) returns (ok: bool)
      requires Valid() && Knows(s, g) && rev <= s.rev
      modifies this
      ensures old(log) <= log && faults >= old(faults) + if ok then 0 else 1
      ensures Valid() && Knows(s, g) && Drift(old(s), s, {NetPolicy})
      ensures ok ==> if netPolicyEnabled then Made(s, {NetPolicy}, g.uid, rev, replicas) else NetPolicy !in s.plain
    {
      if netPolicyEnabled {
        ok := EnsureRendered(g, NetPolicy, rev, replicas);
      } else {
        hide GatewayDrift, CounterDrift, ModeADrift, CrossDrift, BackendDrift, Inv;
        ghost var between;
        ok, between := DeleteObject(NetPolicy);
        PlainDeletionDrifts(old(s), between, NetPolicy);
        KnowsStable(old(s), s, g);
      }
    }

    lemma PlainDeletionDrifts(s: State, m: State, r: Ref)
      requires Drift(s, m, {}) && Rendered(r)
      ensures Drift(s, m, {r}) && Drift(s, Without(m, r), {r})
    {
    }

    // -------------------------------------------------------------- Mode B

    method EnsureCrossNsRbac(g: Gateway, ns: string, granted: bool) returns (ok: bool)
      requires Valid() && Knows(s, g)
      modifies this
      ensures old(log) <= log && faults >= old(faults) + if ok then 0 else 1
      ensures Valid() && Knows(s, g) && CrossPhase(old(s), s)
      ensures ok ==> granted && s.roles == map[ns := g.uid] && s.bindings == map[ns := g.uid]
    {
      hide GatewayDrift, CounterDrift, ModeADrift, CrossDrift, PlainDrift, BackendDrift, CrossPhase;
      hide BackendsKeyed, KeysParse, NoneRobbed, Knows, Drift, Shrinks, Later, CrossShrinks, Legal, After;
      ok := Read();
      ghost var s1 := s;
      DriftIsPhase(old(s), s1, 0);
      KnowsStable(old(s), s1, g);
      if !ok { return; }
      if !granted {
        faults := faults + 1;
        return false;
      }
      ok := PutCross(g, ns, true);
      ghost var s2 := s;
      CrossPhaseChain(old(s), s1, s2);
      if !ok { return; }
      ok := PutCross(g, ns, false);
      ghost var s3 := s;
      CrossPhaseChain(old(s), s2, s3);
      if !ok { return; }
      ok := DeleteRoles(g, {ns});
      ghost var s4 := s;
      CrossShrinkIsPhase(s3, s4, {ns});
      CrossPhaseChain(old(s), s3, s4);
      if !ok { return; }
      ok := DeleteBindings(g, {ns});
      CrossShrinkIsPhase(s4, s, {ns});
      CrossPhaseChain(old(s), s4, s);
      if ok {
        LonePair(s2, s3, s4, s, g, ns);
      }
    }

    /** The pair was written, and nothing outside its namespace is left. */
    lemma LonePair(s2: State, s3: State, s4: State, t: State, g: Gateway, ns: string)
      requires CrossOwned(t) && Knows(t, g) && ns in s2.roles && ns in s3.bindings && s2.roles.Keys <= s3.roles.Keys
      requires CrossShrinks(s3, s4, {ns}) && s4.roles.Keys <= {ns}
      requires CrossShrinks(s4, t, {ns}) && t.bindings.Keys <= {ns}
      ensures t.roles == map[ns := g.uid] && t.bindings == map[ns := g.uid]
    {
      KnownRoles(t, g);
      assert t.roles.Keys == {ns} && t.bindings.Keys == {ns};
    }

    lemma PhaseKnows(s: State, t: State, g: Gateway)
      requires Knows(s, g) && Apart(s, t, {})
      ensures Knows(t, g)
    {
      KnowsStable(s, t, g);
    }

    lemma CrossShrinkIsPhase(s: State, t: State, keep: set<string>)
      requires CrossShrinks(s, t, keep)
      ensures CrossPhase(s, t)
    {
    }

    /** CreateOrUpdate of the cross-namespace Role, or of the RoleBinding. */
    method PutCross(g: Gateway, ns: string, role: bool) returns (ok: bool)
      requires Valid() && Knows(s, g)
      modifies this
      ensures old(log) <= log && faults >= old(faults) + if ok then 0 else 1
      ensures Valid() && Knows(s, g) && CrossPhase(old(s), s)
      ensures old(s).roles.Keys <= s.roles.Keys && old(s).bindings.Keys <= s.bindings.Keys
      ensures ok ==> ns in if role then s.roles else s.bindings
    {
      hide GatewayDrift, CounterDrift, ModeADrift, PlainDrift, BackendDrift, CrossPhase, BackendsKeyed, KeysParse;
      ok := Read();
      ghost var s1 := s;
      DriftIsPhase(old(s), s1, 0);
      KnowsStable(old(s), s1, g);
      if !ok { return; }
      var applied;
      ok, applied := Api();
      ghost var s2 := s;
      DriftIsPhase(s1, s2, 0);
      KnowsStable(s1, s2, g);
      CrossPhaseChain(old(s), s1, s2);
      if applied {
        CrossWrites(s, ns);
        if role {
          Do(PutRole(ns));
        } else {
          Do(PutBinding(ns));
        }
        CrossPhaseChain(old(s), s2, s);
        PhaseKnows(s2, s, g);
      }
    }

    /** Bytes from the entropy source: nothing is known about them. */
    method RandomBytes(n: nat) returns (b: seq<Base32.Byte>)
      ensures |b| == n
    {
      var buffer := new Base32.Byte[n];
      b := buffer[..];
    }

    /** The two files of a key whose scalar is the clamped hash of some seed. */
    ghost predicate Generated(f: KeyFiles) {
      exists pub, seed: seq<Base32.Byte> ::
        |pub| == |seed| == 32 && f == FilesOf(Keys.KeyPair(pub, Keys.Clamp(sha512(seed))))
    }

    /** A fresh key, rendered as its two files. */
    method FreshFiles() returns (f: KeyFiles)
      ensures Parses(f) && Generated(f)
    {
      var pub := RandomBytes(Onion.KEY_SIZE);
      var seed := RandomBytes(Keys.SEED_SIZE);
      var k := Keys.GenerateKeyPair(sha512, pub, seed);
      FilesOfParse(k);
      f := FilesOf(k);
    }

    /** CreateOrUpdate reads, then writes; the data is set only on an object that is not there yet. */
    method WriteBackendSecret(g: Gateway, idx: nat, want: KeyFiles) returns (ok: bool)
      requires Valid() && Knows(s, g) && Parses(want)
      modifies this
      ensures old(log) <= log && faults >= old(faults) + if ok then 0 else 1
      ensures Valid() && Knows(s, g) && SecretPhase(old(s), s)
      ensures ok ==> idx in s.secrets && (idx in old(s).secrets || s.secrets[idx] == want)
    {
      hide GatewayDrift, CounterDrift, ModeADrift, CrossDrift, PlainDrift, BackendDrift, Apart, SecretPhase;
      hide BackendsKeyed, CrossOwned, Parses, Later, LaterVersion, Legal, After;
      ok := Read();
      ghost var s1 := s;
      DriftIsPhase(old(s), s1, 0);
      KnowsStable(old(s), s1, g);
      if !ok { return; }
      var data := if idx in s.secrets then s.secrets[idx] else want;
      var applied;
      ok, applied := Api();
      ghost var s2 := s;
      DriftIsPhase(s1, s2, 0);
      KnowsStable(s1, s2, g);
      SecretPhaseChain(old(s), s1, s2);
      if applied {
        KnowsHeld(s, g);
        SecretWrites(s, idx, data);
        Do(WriteSecret(idx, data));
        SecretPhaseChain(old(s), s2, s);
        SecretPhaseKnows(s2, s, g);
      }
    }

    /** Reuses the key a Secret already has, and makes a fresh one otherwise. */
    method EnsureBackendKeySecretForIndex(g: Gateway, idx: nat) returns (ok: bool)
      requires Valid() && Knows(s, g)
      modifies this
      ensures old(log) <= log && faults >= old(faults) + if ok then 0 else 1
      ensures Valid() && Knows(s, g) && SecretPhase(old(s), s)
      ensures ok ==> idx in s.secrets && (idx in old(s).secrets || Generated(s.secrets[idx]))
    {
      hide GatewayDrift, CounterDrift, ModeADrift, CrossDrift, PlainDrift, BackendDrift, Apart, SecretPhase;
      hide BackendsKeyed, CrossOwned, Parses, Later, Generated, LaterVersion, Legal, After;
      ok := Read();
      ghost var s1 := s;
      DriftIsPhase(old(s), s1, 0);
      KnowsStable(old(s), s1, g);
      if !ok { return; }
      var want;
      if idx in s.secrets && |s.secrets[idx].secret| > 0 {
        want := s.secrets[idx];
      } else {
        want := FreshFiles();
      }
      ok := WriteBackendSecret(g, idx, want);
      SecretPhaseChain(old(s), s1, s);
    }

    lemma SecretPhaseKnows(s: State, t: State, g: Gateway)
      requires Knows(s, g) && SecretPhase(s, t)
      ensures Knows(t, g)
    {
      KnowsStable(s, t, g);
    }

    method EnsureBackendSecrets(g: Gateway, replicas: nat) returns (ok: bool)
      requires Valid() && Knows(s, g)
      modifies this
      ensures old(log) <= log && faults >= old(faults) + if ok then 0 else 1
      ensures Valid() && Knows(s, g) && SecretPhase(old(s), s)
      ensures ok ==> forall i | 0 <= i < replicas :: i in s.secrets
    {
      hide GatewayDrift, CounterDrift, ModeADrift, CrossDrift, PlainDrift, BackendDrift, Apart;
      hide BackendsKeyed, CrossOwned, KeysParse, Knows;
      DriftRefl(s);
      DriftIsPhase(s, s, 0);
      for n := 0 to replicas
        invariant old(log) <= log && faults >= old(faults)
        invariant Valid() && Knows(s, g) && SecretPhase(old(s), s)
        invariant forall i | 0 <= i < n :: i in s.secrets
      {
        ghost var before := s;
        ok := EnsureBackendKeySecretForIndex(g, n);
        SecretPhaseChain(old(s), before, s);
        if !ok { return; }
      }
      ok := true;
    }

    method EnsureStatefulSet(g: Gateway, replicas: nat) returns (ok: bool)
      requires Valid() && Knows(s, g) && forall i | 0 <= i < replicas :: i in s.secrets
      modifies this
      ensures old(log) <= log && faults >= old(faults) + if ok then 0 else 1
      ensures Valid() && Knows(s, g) && ScalePhase(old(s), s)
      ensures ok ==> s.replicas == Some(replicas)
    {
      hide GatewayDrift, CounterDrift, ModeADrift, CrossDrift, PlainDrift, Apart;
      hide BackendsKeyed, CrossOwned, KeysParse, Later, LaterVersion, Legal, After;
      ok := Read();
      ghost var s1 := s;
      DriftIsPhase(old(s), s1, 0);
      KnowsStable(old(s), s1, g);
      if !ok { return; }
      var applied;
      ok, applied := Api();
      ghost var s2 := s;
      DriftIsPhase(s1, s2, 0);
      KnowsStable(s1, s2, g);
      ScalePhaseChain(old(s), s1, s2);
      if applied {
        KnowsHeld(s, g);
        ScaleWrites(s, replicas);
        Do(SetReplicas(replicas));
        ScalePhaseChain(old(s), s2, s);
        KnowsStable(s2, s, g) by { ScaleKeepsGateway(s2, replicas); }
      }
    }

    lemma ScaleKeepsGateway(s: State, n: nat)
      requires Held(s)
      ensures GatewayDrift(s, s.(replicas := Some(n)))
    {
    }

    /**
     * Deletes the backend Secrets from index `replicas` on, but only once the pod count has caught up with
     * the spec, as read at the moment `counted`. When the collection completes, the pods alive at that read
     * all have their Secrets exactly when they were the lowest ordinals; and if they were, so has every later pod.
     */
    method GcBackendSecretsIfSettled(g: Gateway, replicas: nat) returns (ok: bool, settled: bool, ghost counted: nat)
      requires Valid() && Knows(s, g) && s.replicas == Some(replicas)
      modifies this
      ensures old(log) <= log && faults >= old(faults) + if ok then 0 else 1
      ensures Valid() && Knows(s, g) && CollectPhase(old(s), s, replicas)
      ensures PodsSpared(old(s), s)
      ensures !settled ==> s.secrets == old(s).secrets && s.tally.robbed == old(s).tally.robbed
      ensures |old(log)| <= counted <= |log|
      ensures ok ==> (settled <==> At(log, counted).replicas == Some(|At(log, counted).pods|))
      ensures settled ==> At(log, counted).replicas == Some(replicas) && |At(log, counted).pods| == replicas
      ensures ok && settled ==> forall i | i in s.secrets :: i < replicas
      ensures var pods := At(log, counted).pods;
        && (settled && pods == Settled.Ordinals(replicas) ==> PodsKeyed(s) && s.tally.robbed == old(s).tally.robbed)
        && (ok && settled ==> (pods <= s.secrets.Keys <==> pods == Settled.Ordinals(replicas)))
    {
      hide GatewayDrift, CounterDrift, ModeADrift, CrossDrift, PlainDrift, Apart, Lowest, PodsKeyed, CollectPhase;
      hide BackendsKeyed, CrossOwned, KeysParse, NoneRobbed, UidsFresh, PlainRendered, Later, Knows, Drift, PodsSpared;
      hide At, After;
      settled := false;
      ok := Read();
      ghost var seen, was := s, log;
      counted := |log|;
      AtNow(log);
      DriftIsPhase(old(s), seen, replicas);
      KnowsDrift(old(s), seen, g);
      ReadingStays(old(s), seen);
      SparedSoFar(old(s), seen);
      if !ok { return; }
      if s.replicas != Some(|s.pods|) { return; }
      settled := true;
      Do(ReadSettled);
      ghost var noted := s;
      ReadingCollects(old(s), seen, g, replicas);
      ok := Collect(g, replicas);
      AtSame(was, log, counted);
      CollectPhaseChain(old(s), noted, s, replicas);
      LowestKeeps(noted, s, replicas);
      LowestNow(seen, replicas);
      SparedByReading(old(s), seen, noted, s);
      if ok {
        Collected(seen, s, replicas);
      }
    }

    /** Noting the reading changes nothing but the tally. */
    lemma ReadingCollects(s: State, m: State, g: Gateway, n: nat)
      requires OperatorGuard(m, ReadSettled) && Knows(m, g) && CollectPhase(s, m, n)
      ensures var t := Apply(m, ReadSettled);
        && CollectPhase(s, t, n) && Knows(t, g) && t.replicas == m.replicas && t.pods == m.pods
        && t.tally == m.tally.(licensed := true, misread := m.tally.misread + if Lowest(m) then 0 else 1)
        && (Lowest(t) <==> Lowest(m))
    {
    }

    lemma SparedSoFar(s: State, t: State)
      requires SameReadings(s, t)
      ensures PodsSpared(s, t)
    {
    }

    /** The collection spares live pods if the reading found them at the lowest ordinals; otherwise it is on record. */
    lemma SparedByReading(s: State, seen: State, noted: State, t: State)
      requires SameReadings(s, seen) && (Lowest(noted) <==> Lowest(seen))
      requires noted.tally == seen.tally.(licensed := true,
        misread := seen.tally.misread + if Lowest(seen) then 0 else 1)
      requires t.tally.misread == noted.tally.misread && (Lowest(noted) ==> t.tally.robbed == noted.tally.robbed)
      ensures PodsSpared(s, t) && (Lowest(seen) ==> t.tally.robbed == s.tally.robbed)
    {
    }

    lemma LowestNow(s: State, n: nat)
      requires s.replicas == Some(n) && |s.pods| == n
      ensures Lowest(s) <==> s.pods == Settled.Ordinals(n)
    {
      Settled.BelowMeansLowest(s.pods, n);
    }

    /** gcOrphanBackendSecrets: every Secret from the replica count up. */
    method Collect(g: Gateway, replicas: nat) returns (ok: bool)
      requires Valid() && Knows(s, g) && s.replicas == Some(replicas) && s.tally.licensed
      modifies this
      ensures old(log) <= log && faults >= old(faults) + if ok then 0 else 1
      ensures Valid() && Knows(s, g) && CollectPhase(old(s), s, replicas)
      ensures s.tally.misread == old(s).tally.misread
      ensures Lowest(old(s)) ==> s.tally.robbed == old(s).tally.robbed
      ensures ok ==> forall i | i in s.secrets :: i < replicas
    {
      hide GatewayDrift, CounterDrift, ModeADrift, CrossDrift, PlainDrift, Apart, Lowest, BackendDrift;
      hide BackendsKeyed, CrossOwned, KeysParse, NoneRobbed, Later, Knows;
      ok := Read();
      DriftIsPhase(old(s), s, replicas);
      KnowsStable(old(s), s, g);
      ReadingStays(old(s), s);
      if !ok { return; }
      var todo := s.secrets.Keys;
      while todo != {}
        invariant old(log) <= log && faults >= old(faults)
        invariant Valid() && Knows(s, g) && CollectPhase(old(s), s, replicas)
        invariant s.replicas == Some(replicas) && s.tally.licensed && s.tally.misread == old(s).tally.misread
        invariant Lowest(old(s)) ==> Lowest(s) && s.tally.robbed == old(s).tally.robbed
        invariant forall i | i in s.secrets :: i < replicas || i in todo
        decreases todo
      {
        var i :| i in todo;
        todo := todo - {i};
        if i < replicas { continue; }
        ghost var before, between := s, s;
        ok, between := DeleteObject(BackendSecret(i));
        SecretDeletionCollects(before, between, i, replicas);
        ReadingStays(before, between);
        NothingRobbed(between, i, replicas);
        CollectPhaseChain(old(s), before, s, replicas);
        KnowsStable(before, s, g) by { CollectPhaseGateway(before, s, replicas); }
        if !ok { return; }
      }
      ok := true;
    }

    lemma ReadingStays(s: State, m: State)
      requires Drift(s, m, {})
      ensures m.replicas == s.replicas && m.secrets == s.secrets && SameReadings(s, m) && (Lowest(s) ==> Lowest(m))
    {
    }

    /** A Secret beyond the replica count belongs to no pod at the lowest ordinals. */
    lemma NothingRobbed(m: State, i: nat, n: nat)
      requires m.replicas == Some(n) && n <= i
      ensures var t := Without(m, BackendSecret(i));
        && t.replicas == m.replicas && t.secrets == m.secrets - {i} && (Lowest(m) <==> Lowest(t))
        && t.tally == m.tally.(robbed := t.tally.robbed) && (Lowest(m) ==> t.tally == m.tally)
    {
    }

    /** Pods at the lowest ordinals stay there, and those are always keyed. */
    lemma LowestKeeps(seen: State, t: State, n: nat)
      requires CollectPhase(seen, t, n) && seen.replicas == Some(n) && |seen.pods| == n && Inv(t)
      ensures seen.pods == Settled.Ordinals(n) ==> PodsKeyed(t)
    {
      Settled.BelowMeansLowest(seen.pods, n);
    }

    lemma Collected(seen: State, t: State, n: nat)
      requires t.replicas == Some(n) && |seen.pods| == n && Inv(t) && forall i | i in t.secrets :: i < n
      ensures seen.pods <= t.secrets.Keys <==> seen.pods == Settled.Ordinals(n)
    {
      assert t.secrets.Keys == Settled.Ordinals(n);
      Settled.BelowMeansLowest(seen.pods, n);
    }

    lemma CollectPhaseGateway(s: State, t: State, n: nat)
      requires CollectPhase(s, t, n)
      ensures GatewayDrift(s, t)
    {
    }

    // -------------------------------------------------------------- status

    /** Writes Programmed=False with a reason, if that is news; the write is based on `g`. */
    method SetProgrammingCondition(g: Gateway, reason: string) returns (ok: bool)
      requires Valid() && Knows(s, g)
      modifies this
      ensures old(log) <= log && faults >= old(faults) + if ok then 0 else 1
      ensures Valid() && StatusPhase(old(s), s)
      ensures ok ==> OwnedNow(s, g.uid) && s.gw.value.programmed == NotProgrammed(reason)
    {
      hide GatewayDrift, CounterDrift, ModeADrift, CrossDrift, PlainDrift, BackendDrift, StatusPhase;
      hide BackendsKeyed, CrossOwned, KeysParse, Later;
      DriftRefl(s);
      DriftIsStatusPhase(s, s);
      KnowsHeld(s, g);
      var otherNews: bool := *;   // message, generation or the Accepted condition
      if g.programmed == NotProgrammed(reason) && !otherNews { return true; }
      var applied;
      ok, applied := Api();
      ghost var m := s;
      DriftIsStatusPhase(old(s), m);
      KnowsStable(old(s), m, g);
      KnowsHeld(m, g);
      var current := Current(s, g);
      if applied && current {
        StatusWrites(s, g.addresses, NotProgrammed(reason));
        Do(SetStatus(g.addresses, NotProgrammed(reason)));
        StatusPhaseChain(old(s), m, s);
      }
      if !current { faults := faults + 1; }
      ok := ok && current;
    }

    /** One attempt to record the replica count: read the newest version, write based on it. */
    method TryNoteReplicaCount(g: Gateway, n: nat) returns (ok: bool, conflict: bool)
      requires Valid() && Knows(s, g)
      modifies this
      ensures old(log) <= log && faults >= old(faults) + if ok && !conflict then 0 else 1
      ensures Valid() && Knows(s, g) && Drift(old(s), s, {})
      ensures ok && !conflict ==> s.gw.value.lastReplicas == Some(n)
    {
      hide GatewayDrift, CounterDrift, ModeADrift, CrossDrift, PlainDrift, BackendDrift;
      hide BackendsKeyed, CrossOwned, KeysParse, LaterVersion, Legal, After;
      conflict := false;
      ok := Read();
      ghost var s1 := s;
      KnowsStable(old(s), s1, g);
      if !ok { return; }
      var newest := s.gw.value;
      var applied;
      ok, applied := Api();
      ghost var s2 := s;
      KnowsStable(s1, s2, g);
      DriftChain(old(s), s1, s2, {});
      var current := Current(s, newest);
      if applied && current {
        NoteDrifts(s, Some(n));
        Do(NoteReplicas(Some(n)));
        KnowsStable(s2, s, g);
        DriftChain(old(s), s2, s, {});
      }
      conflict := !current;
      if conflict { faults := faults + 1; }
    }

    /** Records the replica count in an annotation, retrying on conflict. */
    method NoteReplicaCount(g: Gateway, n: nat) returns (ok: bool)
      requires Valid() && Knows(s, g)
      modifies this
      ensures old(log) <= log && faults >= old(faults) + if ok then 0 else 1
      ensures Valid() && Knows(s, g) && Drift(old(s), s, {})
      ensures ok ==> s.gw.value.lastReplicas == Some(n)
    {
      hide GatewayDrift, CounterDrift, ModeADrift, CrossDrift, PlainDrift, BackendDrift;
      hide BackendsKeyed, CrossOwned, KeysParse, LaterVersion;
      DriftRefl(s);
      for attempt := 0 to 5
        invariant old(log) <= log && faults >= old(faults) + attempt
        invariant Valid() && Knows(s, g) && Drift(old(s), s, {})
      {
        ghost var before := s;
        var conflict;
        ok, conflict := TryNoteReplicaCount(g, n);
        DriftChain(old(s), before, s, {});
        if !ok || !conflict { return; }
      }
      ok := false;
    }

    method UpdateStatusModeB(g: Gateway, master: string, n: nat) returns (ok: bool)
      requires Valid() && Knows(s, g) && IsOnion(master)
      modifies this
      ensures old(log) <= log && faults >= old(faults) + if ok then 0 else 1
      ensures Valid() && StatusPhase(old(s), s)
      ensures ok ==> OwnedNow(s, g.uid) && s.gw.value.addresses == Merge(g.addresses, master)
    {
      hide GatewayDrift, CounterDrift, ModeADrift, CrossDrift, PlainDrift, BackendDrift, StatusPhase;
      hide BackendsKeyed, CrossOwned, KeysParse, NoneRobbed, Later, Knows, Merge;
      DriftRefl(s);
      DriftIsStatusPhase(s, s);
      if (if g.lastReplicas.Some? then g.lastReplicas.value else 0) != n {
        ok := NoteReplicaCount(g, n);
        DriftIsStatusPhase(old(s), s);
        if !ok { return; }
      }
      var healthy: bool := *;
      var reason: string := *;
      var programmed := if healthy then Programmed.Programmed else NotProgrammed(reason);
      for attempt := 0 to 5
        invariant old(log) <= log && faults >= old(faults) + attempt
        invariant Valid() && Knows(s, g) && Drift(old(s), s, {})
      {
        ghost var before := s;
        var conflict;
        ok, conflict := TryPublish(g, master, programmed);
        DriftIsStatusPhase(old(s), before);
        StatusPhaseChain(old(s), before, s);
        if !ok || !conflict { return; }
        DriftChain(old(s), before, s, {});
      }
      DriftIsStatusPhase(old(s), s);
      ok := false;
    }

    /** One attempt to publish the master: read the newest version, merge, write based on it. */
    method TryPublish(g: Gateway, master: string, programmed: Programmed) returns (ok: bool, conflict: bool)
      requires Valid() && Knows(s, g) && IsOnion(master)
      modifies this
      ensures old(log) <= log && faults >= old(faults) + if ok && !conflict then 0 else 1
      ensures Valid() && StatusPhase(old(s), s)
      ensures conflict ==> Drift(old(s), s, {}) && Knows(s, g)
      ensures ok && !conflict ==> OwnedNow(s, g.uid) && s.gw.value.addresses == Merge(g.addresses, master)
    {
      hide GatewayDrift, CounterDrift, ModeADrift, CrossDrift, PlainDrift, BackendDrift, StatusPhase;
      hide BackendsKeyed, CrossOwned, KeysParse, NoneRobbed, LaterVersion, Merge;
      conflict := false;
      ok := Read();
      ghost var s1 := s;
      KnowsStable(old(s), s1, g);
      KnowsHeld(s1, g);
      DriftIsStatusPhase(old(s), s1);
      if !ok { return; }
      var newest := s.gw.value;
      var merged := MergeAddresses(newest.addresses, master);
      var applied;
      ok, applied := Api();
      ghost var s2 := s;
      KnowsStable(s1, s2, g);
      KnowsHeld(s2, g);
      DriftChain(old(s), s1, s2, {});
      DriftIsStatusPhase(old(s), s2);
      var current := Current(s, newest);
      if applied && current {
        StatusWrites(s, merged, programmed);
        Do(SetStatus(merged, programmed));
        StatusPhaseChain(old(s), s2, s);
      }
      conflict := !current;
      if conflict { faults := faults + 1; }
    }

    // -------------------------------------------------------------- Mode B, put together

    /** The namespace of a master Secret kept elsewhere. */
    function CrossNs(pol: Policy): Option<string> {
      if pol.masterNs != "" && pol.masterNs != gwNs then Some(pol.masterNs) else None
    }

    /** Two children in a row. */
    method EnsurePair(g: Gateway, r: Ref, r': Ref, rev: nat, replicas: Option<nat>) returns (ok: bool)
      requires Valid() && Knows(s, g) && rev <= s.rev && Rendered(r) && Rendered(r') && r != r'
      modifies this
      ensures old(log) <= log && faults >= old(faults) + if ok then 0 else 1
      ensures Valid() && Knows(s, g) && Drift(old(s), s, {r, r'})
      ensures ok ==> Made(s, {r, r'}, g.uid, rev, replicas)
    {
      hide Drift, Inv, Knows, Made;
      DriftRefl(s);
      NothingMade(s, g.uid, rev, replicas);
      ok := EnsureNext(g, r, rev, replicas, old(s), {}, rev);
      if !ok {
        DriftWidens(old(s), s, {} + {r}, {r, r'});
        return;
      }
      ok := EnsureNext(g, r', rev, replicas, old(s), {} + {r}, rev);
      assert {} + {r} + {r'} == {r, r'};
    }

    /** The backend Service, then the frontend's ServiceAccount, Role and RoleBinding. */
    method EnsureModeBNetworkResources(g: Gateway, n: nat) returns (ok: bool)
      requires Valid() && Knows(s, g)
      modifies this
      ensures old(log) <= log && faults >= old(faults) + if ok then 0 else 1
      ensures Valid() && Knows(s, g) && Drift(old(s), s, NETWORK_B)
      ensures ok ==> Made(s, NETWORK_B, g.uid, old(s).rev, Some(n))
    {
      hide Drift, Inv, Knows, Made;
      ok := EnsurePair(g, BackendService, FrontendAccount, s.rev, Some(n));
      ghost var s1 := s;
      if !ok {
        DriftWidens(old(s), s1, {BackendService, FrontendAccount}, NETWORK_B);
        return;
      }
      ok := EnsurePair(g, FrontendRole, FrontendBinding, s.rev, Some(n));
      assert {BackendService, FrontendAccount} + {FrontendRole, FrontendBinding} == NETWORK_B;
      GroupDrifts(old(s), s1, s, {BackendService, FrontendAccount}, {FrontendRole, FrontendBinding});
      if ok {
        NextGroup(old(s), s1, s, {BackendService, FrontendAccount}, {FrontendRole, FrontendBinding}, g, old(s).rev,
          Some(n));
      }
    }

    lemma GroupDrifts(s: State, t: State, u: State, a: set<Ref>, b: set<Ref>)
      requires Inv(s) && Drift(s, t, a) && Drift(t, u, b)
      ensures Drift(s, u, a + b)
    {
      DriftTransitive(s, t, u, a, b);
    }

    lemma NothingMade(s: State, uid: nat, since: nat, replicas: Option<nat>)
      ensures Made(s, {}, uid, since, replicas)
    {
    }

    /** The frontend's torrc, and the backends' from the policies read in between. */
    method EnsureTorrcs(g: Gateway, rev: nat, n: nat) returns (ok: bool)
      requires Valid() && Knows(s, g) && rev <= s.rev
      modifies this
      ensures old(log) <= log && faults >= old(faults) + if ok then 0 else 1
      ensures Valid() && Knows(s, g) && Drift(old(s), s, TORRCS_B)
      ensures ok ==> Made(s, TORRCS_B, g.uid, rev, Some(n))
    {
      hide Drift, Inv, Knows, Made;
      DriftRefl(s);
      NothingMade(s, g.uid, rev, Some(n));
      ok := EnsureNext(g, FrontendTorrc, rev, Some(n), old(s), {}, rev);
      ghost var s1, done := s, {} + {FrontendTorrc};
      DriftWidens(old(s), s1, done, TORRCS_B);
      if !ok { return; }
      ok := Read();
      ReadBetween(old(s), s1, s, done, g, rev, Some(n));
      DriftWidens(old(s), s, done, TORRCS_B);
      if !ok { return; }
      ok := EnsureNext(g, BackendTorrc, s.rev, Some(n), old(s), done, rev);
      assert done + {BackendTorrc} == TORRCS_B;
    }

    lemma ReadBetween(start: State, s: State, t: State, done: set<Ref>, g: Gateway, since: nat, replicas: Option<nat>)
      requires Inv(start) && Drift(start, s, done) && Drift(s, t, {}) && Knows(s, g)
      requires Made(s, done, g.uid, since, replicas) && since <= s.rev
      ensures Drift(start, t, done) && Knows(t, g) && Made(t, done, g.uid, since, replicas) && since <= t.rev
    {
      DriftWidens(s, t, {}, done);
      DriftChain(start, s, t, done);
      KnowsStable(s, t, g);
    }

    const NETWORK_B: set<Ref> := {BackendService, FrontendAccount, FrontendRole, FrontendBinding}
    const TORRCS_B: set<Ref> := {FrontendTorrc, BackendTorrc}

    /** Everything the backend pods need, up to the StatefulSet. */
    method EnsureModeBChildren(g: Gateway, n: nat) returns (ok: bool)
      requires Valid() && Knows(s, g)
      modifies this
      ensures old(log) <= log && faults >= old(faults) + if ok then 0 else 1
      ensures Valid() && Knows(s, g) && Drift(old(s), s, CHILDREN_B)
      ensures ok ==> Made(s, CHILDREN_B, g.uid, old(s).rev, Some(n))
    {
      hide Drift, Inv, Knows, Made, Apart;
      ghost var rev := s.rev;
      ok := EnsureModeBNetworkResources(g, n);
      ghost var s1 := s;
      DriftWidens(old(s), s1, NETWORK_B, CHILDREN_B);
      if !ok { return; }
      ok := EnsureTorrcs(g, s.rev, n);
      ghost var s2 := s;
      GroupDrifts(old(s), s1, s2, NETWORK_B, TORRCS_B);
      DriftWidens(old(s), s2, NETWORK_B + TORRCS_B, CHILDREN_B);
      if !ok { return; }
      NextGroup(old(s), s1, s2, NETWORK_B, TORRCS_B, g, rev, Some(n));
      ok := EnsureRouterRbac(g, s.rev, Some(n));
      GroupDrifts(old(s), s2, s, NETWORK_B + TORRCS_B, ROUTER_REFS);
      if ok {
        NextGroup(old(s), s2, s, NETWORK_B + TORRCS_B, ROUTER_REFS, g, rev, Some(n));
      }
    }

    /** One group of children after another. */
    lemma NextGroup(
      start: State, s: State, t: State, a: set<Ref>, b: set<Ref>, g: Gateway, since: nat, replicas: Option<nat>)
      requires Inv(start) && Drift(start, s, a) && Drift(s, t, b) && Knows(s, g) && a !! b && since == start.rev
      requires Made(s, a, g.uid, since, replicas) && Made(t, b, g.uid, s.rev, replicas)
      ensures Drift(start, t, a + b) && Made(t, a + b, g.uid, since, replicas)
    {
      DriftTransitive(start, s, t, a, b);
      MadeStable(s, t, b, a, g, since, replicas);
      MadeUnion(t, a, b, g.uid, since, s.rev, replicas);
    }

    lemma UneventfulFrom(s: State, t: State, u: State)
      requires Inv(s) && Uneventful(s, t) && Uneventful(t, u)
      ensures Uneventful(s, u)
    {
      UneventfulChain(s, t, u);
    }

    lemma DriftFrom(s: State, t: State, u: State, w: set<Ref>)
      requires Inv(s) && Drift(s, t, w) && Drift(t, u, w)
      ensures Drift(s, u, w)
    {
      DriftChain(s, t, u, w);
    }

    lemma DriftApart(s: State, t: State, w: set<Ref>)
      requires Drift(s, t, w)
      ensures Apart(s, t, w)
    {
    }

    const CHILDREN_B: set<Ref> := NETWORK_B + TORRCS_B + ROUTER_REFS

    /** The backends are provisioned for `n` replicas, and nothing else changed since `start`. */
    ghost predicate BackendsReady(start: State, t: State, g: Gateway, n: nat) {
      && Knows(t, g) && Apart(start, t, CHILDREN_B) && CrossDrift(start, t)
      && Made(t, CHILDREN_B, g.uid, start.rev, Some(n))
      && t.replicas == Some(n) && (forall i | 0 <= i < n :: i in t.secrets)
    }

    lemma BackendsAssembled(s0: State, s1: State, s2: State, s3: State, s4: State, g: Gateway, n: nat)
      requires Inv(s0) && Inv(s1) && Inv(s2) && Inv(s3) && Knows(s0, g) && Knows(s4, g)
      requires SecretPhase(s0, s1) && (forall i | 0 <= i < n :: i in s1.secrets)
      requires Drift(s1, s2, CHILDREN_B) && Made(s2, CHILDREN_B, g.uid, s1.rev, Some(n))
      requires ScalePhase(s2, s3) && s3.replicas == Some(n) && CollectPhase(s3, s4, n)
      ensures BackendsReady(s0, s4, g, n)
    {
      hide Inv, Knows, Made;
      UidsFreshOf(s0);
      UidsFreshOf(s2);
      ApartTransitive(s0, s1, s2, {}, CHILDREN_B);
      ApartChain(s2, s3, s4);
      ApartTransitive(s0, s2, s4, {} + CHILDREN_B, {});
      assert {} + CHILDREN_B + {} == CHILDREN_B;
      KnowsApart(s0, s2, {} + CHILDREN_B, g);
      MadeStable(s2, s4, {}, CHILDREN_B, g, s1.rev, Some(n));
      OlderMade(s4, CHILDREN_B, g.uid, s0.rev, s1.rev, Some(n));
    }

    lemma KnowsApart(s: State, t: State, w: set<Ref>, g: Gateway)
      requires Knows(s, g) && Apart(s, t, w)
      ensures Knows(t, g)
    {
      KnowsStable(s, t, g);
    }

    lemma OlderMade(s: State, w: set<Ref>, uid: nat, since: nat, since': nat, replicas: Option<nat>)
      requires Made(s, w, uid, since', replicas) && since <= since'
      ensures Made(s, w, uid, since, replicas)
    {
    }

    /** Key Secrets, children, StatefulSet, garbage collection: in this order. */
    method ProvisionBackends(g: Gateway, n: nat) returns (ok: bool, settled: bool, ghost counted: nat)
      requires Valid() && Knows(s, g)
      modifies this
      ensures old(log) <= log && faults >= old(faults) + if ok then 0 else 1
      ensures Valid() && WorksInB(old(s), s)
      ensures ok ==> BackendsReady(old(s), s, g, n)
      ensures ok && settled ==> forall i | i in s.secrets :: i < n
      // the pods alive when the counts agreed all have their Secrets exactly if they were the lowest ordinals
      ensures |old(log)| <= counted <= |log|
      ensures ok ==> (settled <==> At(log, counted).replicas == Some(|At(log, counted).pods|))
      ensures var pods := At(log, counted).pods;
        ok && settled ==> (pods <= s.secrets.Keys <==> pods == Settled.Ordinals(n))
    {
      hide Drift, Inv, Knows, Made, Apart, BackendsReady, CollectPhase, CrossDrift, WorksInB;
      hide SecretPhase, ScalePhase, CrossPhase, PodsSpared, PodsKeyed, SameReadings, At, After;
      settled, counted := false, |log|;
      ok := EnsureBackendSecrets(g, n);
      ghost var s1 := s;
      PhasesUneventful(old(s), s1);
      if !ok { return; }
      ok := EnsureModeBChildren(g, n);
      ghost var s2 := s;
      ChildrenStepB(old(s), s1, s2);
      if !ok { return; }
      DriftSecrets(s1, s2, CHILDREN_B);
      ok := EnsureStatefulSet(g, n);
      ghost var s3 := s;
      ScaleStepB(old(s), s2, s3);
      if !ok { return; }
      ok, settled, counted := GcBackendSecretsIfSettled(g, n);
      CollectStepB(old(s), s3, s, n);
      if ok {
        BackendsAssembled(old(s), s1, s2, s3, s, g, n);
      }
    }

    lemma DriftSecrets(s: State, t: State, w: set<Ref>)
      requires Drift(s, t, w)
      ensures t.secrets == s.secrets
    {
    }

    lemma ChildrenStepB(s: State, t: State, u: State)
      requires Inv(s) && WorksInB(s, t) && Drift(t, u, CHILDREN_B)
      ensures WorksInB(s, u)
    {
      DriftStepB(s, t, u, CHILDREN_B);
    }

    lemma ScaleStepB(s: State, t: State, u: State)
      requires Inv(s) && WorksInB(s, t) && ScalePhase(t, u)
      ensures WorksInB(s, u)
    {
      hide WorksInB, ScalePhase;
      PhasesUneventful(t, u);
      StepB(s, t, u);
    }

    lemma CollectStepB(s: State, t: State, u: State, n: nat)
      requires Inv(s) && WorksInB(s, t) && CollectPhase(t, u, n) && PodsSpared(t, u)
      ensures WorksInB(s, u)
    {
      hide WorksInB, CollectPhase;
      CollectUneventful(t, u, n);
      StepB(s, t, u);
    }

    lemma PhasesUneventful(s: State, t: State)
      ensures SecretPhase(s, t) || ScalePhase(s, t) || CrossPhase(s, t) ==> WorksInB(s, t)
    {
    }

    lemma CollectUneventful(s: State, t: State, n: nat)
      requires CollectPhase(s, t, n) && PodsSpared(s, t)
      ensures WorksInB(s, t)
    {
    }

    /** The frontend Deployment and the shared NetworkPolicy. */
    method ProvisionFrontend(g: Gateway, n: nat) returns (ok: bool)
      requires Valid() && Knows(s, g)
      modifies this
      ensures old(log) <= log && faults >= old(faults) + if ok then 0 else 1
      ensures Valid() && Drift(old(s), s, {Frontend, NetPolicy})
      ensures ok ==> Knows(s, g) && Made(s, {Frontend}, g.uid, old(s).rev, Some(n))
      ensures ok ==>
        if netPolicyEnabled then Made(s, {NetPolicy}, g.uid, old(s).rev, Some(n)) else NetPolicy !in s.plain
    {
      hide Drift, Inv, Knows, Made, Apart;
      ok := EnsureRendered(g, Frontend, s.rev, Some(n));
      ghost var s1 := s;
      DriftWidens(old(s), s1, {Frontend}, {Frontend, NetPolicy});
      if !ok { return; }
      ok := Read();
      ghost var s2 := s;
      ReadBetween(old(s), s1, s2, {Frontend}, g, old(s).rev, Some(n)) by { RevGrows(old(s), s1, {Frontend}); }
      DriftWidens(old(s), s2, {Frontend}, {Frontend, NetPolicy});
      if !ok { return; }
      ok := EnsureNetworkPolicy(g, s.rev, Some(n));
      DriftWidens(s2, s, {NetPolicy}, {Frontend, NetPolicy});
      DriftFrom(old(s), s2, s, {Frontend, NetPolicy});
      DriftApart(s2, s, {NetPolicy});
      MadeStable(s2, s, {NetPolicy}, {Frontend}, g, old(s).rev, Some(n));
      if ok && netPolicyEnabled {
        RevGrows(old(s), s2, {Frontend});
        OlderMade(s, {NetPolicy}, g.uid, old(s).rev, s2.rev, Some(n));
      }
    }

    lemma FullyServed(s0: State, s1: State, t: State, g: Gateway, n: nat, since: nat, crossNs: Option<string>)
      requires BackendsReady(s0, s1, g, n) && NoModeA(s0) && Knows(t, g) && since <= s0.rev
      requires crossNs.Some? ==> s0.roles == map[crossNs.value := g.uid] && s0.bindings == map[crossNs.value := g.uid]
      requires Drift(s1, t, {Frontend, NetPolicy}) && Made(t, {Frontend}, g.uid, s1.rev, Some(n))
      requires if netPolicyEnabled then Made(t, {NetPolicy}, g.uid, s1.rev, Some(n)) else NetPolicy !in t.plain
      ensures ServedByB(t, g.uid, n, since, netPolicyEnabled, crossNs)
    {
      hide Made, NoModeA, GatewayDrift, ModeADrift, PlainDrift;
      KnowsHeld(t, g);
      NoModeAStable(s0, s1, CHILDREN_B);
      NoModeAStable(s1, t, {Frontend, NetPolicy});
      MadeStable(s1, t, {Frontend, NetPolicy}, CHILDREN_B, g, s0.rev, Some(n));
      MadeUnion(t, CHILDREN_B, {Frontend}, g.uid, s0.rev, s1.rev, Some(n));
      assert CHILDREN_B + {Frontend} == MODE_B_REFS + ROUTER_REFS;
      OlderMade(t, MODE_B_REFS + ROUTER_REFS, g.uid, since, s0.rev, Some(n));
      if netPolicyEnabled {
        OlderMade(t, {NetPolicy}, g.uid, since, s1.rev, Some(n));
      }
    }

    // -------------------------------------------------------------- Mode A: the key

    /** One write of the harvest, or of the key it leads to. */
    method HarvestDo(g: Gateway, e: Event)
      requires Valid() && Knows(s, g) && OperatorGuard(s, e) && HarvestWrite(e)
      modifies this
      ensures old(log) <= log && faults == old(faults)
      ensures s.tally.randoms == old(s).tally.randoms + if e.CreateKey? && !e.harvested then 1 else 0
      ensures Valid() && Knows(s, g) && HarvestPhase(old(s), s) && old(s).outputs <= s.outputs
      ensures e.CreateKey? ==> s.key == Some(KeySecret.KeySecret(g.uid, e.files))
      ensures !e.CreateKey? ==> s.key == old(s).key
      ensures e.Annotate? ==> s.gw.Some? && s.gw.value.vanityFailed == e.failed
      ensures s.job ==
              if e.CreateJob? then Some(Job(e.prefix, false)) else if e == Delete(VanityJob) then None else old(s).job
      ensures e.CreateOutput? ==> s.out.Some?
    {
      hide HarvestPhase, Inv, Knows, OperatorGuard, EnvGuard, Apply;
      KnowsHeld(s, g);
      HarvestWrites(s, e);
      Do(e);
      HarvestPhaseKnows(old(s), s, g);
    }

    /**
     * A merge patch of the harvest annotation; no resourceVersion is checked. A successful patch refreshes the
     * reconcile's copy, so that later writes are based on the version it made.
     */
    method PatchFailure(g: Gateway, failed: Option<string>) returns (ok: bool, h: Gateway)
      requires Valid() && Knows(s, g)
      modifies this
      ensures old(log) <= log && faults >= old(faults) + if ok then 0 else 1
      ensures s.tally.randoms == old(s).tally.randoms
      ensures Valid() && Knows(s, h) && h.uid == g.uid
      ensures HarvestPhase(old(s), s) && old(s).outputs <= s.outputs
      ensures s.key.Some? ==> s.key == old(s).key
      ensures OwnKey(old(s), g) ==> s.key == old(s).key
      ensures ok ==> h.vanityFailed == failed
      ensures old(s).job.None? ==> s.job.None?
      ensures if g.vanityFailed == failed then ok && h == g && s == old(s) else ok ==> s.gw == Some(h)
    {
      hide GatewayDrift, ModeADrift, CrossDrift, PlainDrift, BackendDrift, HarvestPhase;
      hide BackendsKeyed, CrossOwned, KeysParse, Knows;
      h := g;
      if g.vanityFailed == failed {
        DriftRefl(s);
        DriftIsHarvestPhase(s, s, {});
        return true, g;
      }
      var applied;
      ok, applied := Api();
      ghost var m := s;
      CallHarvests(old(s), m, g);
      if applied {
        KnowsHeld(s, g);
        HarvestDo(g, Annotate(failed));
        HarvestPhaseChain(old(s), m, s);
        KnowsNow(s, g);
        if ok { h := s.gw.value; }
      }
    }

    /** What any one call leaves true during the harvest. */
    lemma CallHarvests(s: State, t: State, g: Gateway)
      requires Knows(s, g) && Drift(s, t, {})
      ensures Knows(t, g) && HarvestPhase(s, t) && s.outputs <= t.outputs && (t.key.Some? ==> t.key == s.key)
      ensures OwnKey(s, g) ==> t.key == s.key
      ensures t.tally.randoms == s.tally.randoms && (s.job.None? ==> t.job.None?)
    {
      KnowsStable(s, t, g);
      DriftIsHarvestPhase(s, t, {});
    }

    method DeleteHarvested(g: Gateway, r: Ref) returns (ok: bool)
      requires Valid() && Knows(s, g) && (r.VanityJob? || r.VanityOut?)
      modifies this
      ensures old(log) <= log && faults >= old(faults) + if ok then 0 else 1
      ensures s.tally.randoms == old(s).tally.randoms
      ensures Valid() && Knows(s, g) && HarvestPhase(old(s), s) && old(s).outputs <= s.outputs
      ensures s.key.Some? ==> s.key == old(s).key
      ensures OwnKey(old(s), g) ==> s.key == old(s).key
      ensures ok && r.VanityJob? ==> s.job.None?
    {
      hide GatewayDrift, ModeADrift, CrossDrift, PlainDrift, BackendDrift, HarvestPhase, Inv, Knows;
      ghost var between;
      ok, between := DeleteObject(r);
      CallHarvests(old(s), between, g);
      HarvestDeletion(old(s), between, r);
      HarvestPhaseKnows(old(s), s, g);
    }

    /**
     * Promotes a harvested key: the canonical Secret first, then best-effort cleanup. When it succeeds the
     * key Secret is there with exactly the harvested bytes.
     */
    method PromoteVanityKey(g: Gateway, output: KeyFiles) returns (r: KeyResult, h: Gateway)
      requires Valid() && Knows(s, g) && output in s.outputs && Populated(output)
      modifies this
      ensures old(log) <= log && faults >= old(faults) + if r.Broken? then 1 else 0
      ensures s.tally.randoms == old(s).tally.randoms
      ensures Valid() && Knows(s, h) && h.uid == g.uid && HarvestPhase(old(s), s)
      ensures r == Broken || r == Ready(output, Harvested)
      ensures r.Ready? ==> Parses(output) && output in s.outputs && s.key == Some(KeySecret.KeySecret(g.uid, output))
    {
      hide GatewayDrift, ModeADrift, CrossDrift, PlainDrift, BackendDrift, HarvestPhase;
      hide BackendsKeyed, CrossOwned, KeysParse, Parses, Keys.ParseFiles, Populated, LaterVersion, Knows;
      h := g;
      match Keys.ParseFiles(output.secret, output.public)
      case Err(_) =>
        DriftRefl(s);
        DriftIsHarvestPhase(s, s, {});
        faults := faults + 1;
        return Broken, g;
      case Ok(kp) =>
        var files := FilesOf(kp);
        PromotionKeepsBytes(output, kp);
        var ok, applied := Api();
        ghost var s1 := s;
        CallHarvests(old(s), s1, g);
        var taken := s.key.Some?;
        if applied && !taken {
          KnowsHeld(s, g);
          HarvestDo(g, CreateKey(files, true));
          HarvestPhaseChain(old(s), s1, s);
        }
        if taken { faults := faults + 1; }
        if !ok || taken { return Broken, g; }
        ghost var s2 := s;
        ok := DeleteHarvested(g, VanityOut);
        ghost var s3 := s;
        HarvestPhaseChain(old(s), s2, s3);
        ok := DeleteHarvested(g, VanityJob);
        ghost var s4 := s;
        HarvestPhaseChain(old(s), s3, s4);
        ok, h := PatchFailure(g, None);
        HarvestPhaseChain(old(s), s4, s);
        return Ready(files, Harvested), h;
    }

    /** Rendering a parsed key gives back the very bytes it was parsed from. */
    lemma PromotionKeepsBytes(output: KeyFiles, kp: Keys.KeyPair)
      requires Keys.ParseFiles(output.secret, output.public) == Ok(kp)
      ensures FilesOf(kp) == output && Parses(output)
    {
      Keys.ParseFilesExactly(output.secret, output.public, kp);
    }

    method EnsureVanityRbac(g: Gateway) returns (ok: bool)
      requires Valid() && Knows(s, g)
      modifies this
      ensures old(log) <= log && faults >= old(faults) + if ok then 0 else 1
      ensures Valid() && Drift(old(s), s, VANITY_REFS) && Knows(s, g)
      ensures ok ==> Made(s, VANITY_REFS, g.uid, old(s).rev, None)
    {
      hide Drift, Inv, Knows, Made;
      ok := EnsurePair(g, VanityAccount, VanityRole, s.rev, None);
      ghost var s1 := s;
      DriftWidens(old(s), s1, {VanityAccount, VanityRole}, VANITY_REFS);
      if !ok { return; }
      RevGrows(old(s), s1, VANITY_REFS);
      ok := EnsureNext(g, VanityBinding, s.rev, None, old(s), {VanityAccount, VanityRole}, old(s).rev);
      assert {VanityAccount, VanityRole} + {VanityBinding} == VANITY_REFS;
    }

    /** Creates the empty output Secret if there is none; never touches one that is there. */
    method EnsureVanityOutSecret(g: Gateway) returns (ok: bool)
      requires Valid() && Knows(s, g)
      modifies this
      ensures old(log) <= log && faults >= old(faults) + if ok then 0 else 1
      ensures s.tally.randoms == old(s).tally.randoms
      ensures Valid() && Knows(s, g) && HarvestPhase(old(s), s)
      ensures ok ==> s.out.Some?
    {
      hide GatewayDrift, ModeADrift, CrossDrift, PlainDrift, BackendDrift, HarvestPhase;
      hide BackendsKeyed, CrossOwned, KeysParse, LaterVersion;
      ok := Read();
      ghost var s1 := s;
      CallHarvests(old(s), s1, g);
      if !ok || s.out.Some? { return; }
      var applied;
      ok, applied := Api();
      ghost var s2 := s;
      CallHarvests(s1, s2, g);
      HarvestPhaseChain(old(s), s1, s2);
      var taken := s.out.Some?;
      if applied && !taken {
        KnowsHeld(s, g);
        HarvestDo(g, CreateOutput);
        HarvestPhaseChain(old(s), s2, s);
      }
      if taken { faults := faults + 1; }
      ok := ok && !taken;
    }

    /** Gets the harvest Job, or creates it and returns None; `read` is the moment of the Get. */
    method FetchOrCreateJob(g: Gateway, prefix: string) returns (ok: bool, job: Option<Job>, ghost read: nat)
      requires Valid() && Knows(s, g)
      modifies this
      ensures old(log) <= log && faults >= old(faults) + if ok then 0 else 1
      ensures s.tally.randoms == old(s).tally.randoms
      ensures Valid() && Knows(s, g) && HarvestPhase(old(s), s)
      ensures |old(log)| <= read <= |log|
      ensures ok ==> At(log, read).job == job && (job.None? ==> s.job == Some(Job(prefix, false)))
    {
      hide GatewayDrift, ModeADrift, CrossDrift, PlainDrift, BackendDrift, HarvestPhase;
      hide BackendsKeyed, CrossOwned, KeysParse, LaterVersion;
      ok := Read();
      ghost var s1, was := s, log;
      read := |log|;
      CallHarvests(old(s), s1, g);
      job := s.job;
      if !ok || job.Some? { return; }
      var applied;
      ok, applied := Api();
      ghost var s2 := s;
      CallHarvests(s1, s2, g);
      HarvestPhaseChain(old(s), s1, s2);
      var taken := s.job.Some?;
      if applied && !taken {
        KnowsHeld(s, g);
        HarvestDo(g, CreateJob(prefix));
        HarvestPhaseChain(old(s), s2, s);
      }
      ok := ok && !taken;
      AtSame(was, log, read);
    }

    /** Account, Role, binding and output Secret come before the Job. */
    method StartHarvest(g: Gateway, prefix: string) returns (ok: bool, job: Option<Job>, ghost read: nat)
      requires Valid() && Knows(s, g)
      modifies this
      ensures old(log) <= log && faults >= old(faults) + if ok then 0 else 1
      ensures s.tally.randoms == old(s).tally.randoms
      ensures Valid() && Knows(s, g) && HarvestPhase(old(s), s)
      ensures |old(log)| <= read <= |log|
      ensures ok ==> Prepared(log, |old(log)|, read, g.uid, old(s).rev)
      ensures ok ==> At(log, read).job == job && (job.None? ==> s.job == Some(Job(prefix, false)))
    {
      hide GatewayDrift, ModeADrift, CrossDrift, PlainDrift, BackendDrift, HarvestPhase, Drift;
      hide BackendsKeyed, CrossOwned, KeysParse, Knows, Made, At, After, Prepared;
      job, read := None, |log|;
      ok := EnsureVanityRbac(g);
      ghost var s1, l1 := s, log;
      AtNow(log);
      DriftIsHarvestPhase(old(s), s1, VANITY_REFS);
      if !ok { return; }
      ok := EnsureVanityOutSecret(g);
      ghost var s2, l2 := s, log;
      AtNow(log);
      AtSame(l1, log, |l1|);
      HarvestPhaseChain(old(s), s1, s2);
      if !ok { return; }
      ok, job, read := FetchOrCreateJob(g, prefix);
      HarvestPhaseChain(old(s), s2, s);
      MomentsStay(l2, log, |l1|, |l2|);
      PreparedAt(log, |old(log)|, read, g.uid, old(s).rev, |l1|, |l2|);
    }

    lemma PreparedAt(log: seq<Event>, since: nat, till: nat, uid: nat, rev: nat, k: nat, o: nat)
      requires Legal(log) && since <= k <= o <= till <= |log|
      requires Made(At(log, k), VANITY_REFS, uid, rev, None) && At(log, o).out.Some?
      ensures Prepared(log, since, till, uid, rev)
    {
    }

    lemma PreparedLater(log: seq<Event>, longer: seq<Event>, since: nat, till: nat, uid: nat, rev: nat)
      requires Legal(log) && Legal(longer) && log <= longer && Prepared(log, since, till, uid, rev)
      ensures Prepared(longer, since, till, uid, rev)
    {
      hide At, After, Made;
      var k: nat, o: nat :|
        since <= k <= o <= till && Made(At(log, k), VANITY_REFS, uid, rev, None) && At(log, o).out.Some?;
      MomentsStay(log, longer, k, o);
    }

    /** `jobRead` and `outRead` are the moments at which the Job and its output Secret were read. */
    method RunVanityHarvest(g: Gateway, prefix: string)
      returns (r: KeyResult, h: Gateway, ghost jobRead: nat, ghost outRead: nat)
      requires Valid() && Knows(s, g)
      modifies this
      ensures old(log) <= log && faults >= old(faults) + if r.Broken? then 1 else 0
      ensures s.tally.randoms == old(s).tally.randoms
      ensures Valid() && Knows(s, h) && h.uid == g.uid && HarvestPhase(old(s), s)
      ensures g.vanityFailed == Some(prefix) ==> r == GaveUp && s == old(s) && h == g
      // otherwise what was read decides, and only a fault stands in for the verdict
      ensures |old(log)| <= jobRead <= outRead <= |log|
      ensures g.vanityFailed != Some(prefix) ==> HarvestVerdict(r, prefix, At(log, jobRead).job, At(log, outRead).out)
      ensures g.vanityFailed != Some(prefix) && !r.Broken? ==>
        Prepared(log, |old(log)|, jobRead, g.uid, old(s).rev)
      // a Job that was not there has been launched; one for another prefix is gone, with the failure it left
      ensures r == Pending && At(log, jobRead).job.None? ==> s.job == Some(Job(prefix, false))
      ensures r == Pending && At(log, jobRead).job.Some? && At(log, jobRead).job.value.prefix != prefix ==>
        s.job.None? && h.vanityFailed == None
      // a failure marked just now is in the reconcile's copy, which is the live object
      ensures r == GaveUp ==> h.vanityFailed == Some(prefix) && (g.vanityFailed != Some(prefix) ==> s.gw == Some(h))
      ensures r.Ready? ==>
        && r.origin == Harvested && Parses(r.files) && r.files in s.outputs && Populated(r.files)
        && s.key == Some(KeySecret.KeySecret(g.uid, r.files))
    {
      hide GatewayDrift, ModeADrift, CrossDrift, PlainDrift, BackendDrift, HarvestPhase;
      hide BackendsKeyed, CrossOwned, LaterVersion, Parses, Populated, Knows, Full, At, After, Legal, Prepared;
      h, jobRead, outRead := g, |log|, |log|;
      if g.vanityFailed == Some(prefix) {
        DriftRefl(s);
        DriftIsHarvestPhase(s, s, {});
        return GaveUp, g, |log|, |log|;
      }
      var ok, job;
      ok, job, jobRead := StartHarvest(g, prefix);
      ghost var s1, was := s, log;
      outRead := jobRead;
      if !ok { return Broken, g, jobRead, outRead; }
      if job.None? { return Pending, g, jobRead, outRead; }
      if job.value.prefix != prefix {
        ok := DeleteHarvested(g, VanityJob);
        ghost var s2 := s;
        HarvestPhaseChain(old(s), s1, s2);
        AtSame(was, log, jobRead);
        if !ok { return Broken, g, jobRead, outRead; }
        ok, h := PatchFailure(g, None);
        HarvestPhaseChain(old(s), s2, s);
        AtSame(was, log, jobRead);
        PreparedLater(was, log, |old(log)|, jobRead, g.uid, old(s).rev);
        r := if ok then Pending else Broken;
        return;
      }
      ok := Read();
      ghost var s3, seen := s, log;
      CallHarvests(s1, s3, g);
      HarvestPhaseChain(old(s), s1, s3);
      AtSame(was, log, jobRead);
      PreparedLater(was, log, |old(log)|, jobRead, g.uid, old(s).rev);
      outRead := |log|;
      AtNow(log);
      if !ok { return Broken, g, jobRead, outRead; }
      if s.out.None? {
        faults := faults + 1;
        return Broken, g, jobRead, outRead;
      }
      FullIsPopulated(s.out.value);
      if Populated(s.out.value) {
        r, h := PromoteVanityKey(g, s.out.value);
        HarvestPhaseChain(old(s), s3, s);
        MomentsStay(seen, log, jobRead, outRead);
        PreparedLater(seen, log, |old(log)|, jobRead, g.uid, old(s).rev);
        return;
      }
      if job.value.failed {
        ok, h := PatchFailure(g, Some(prefix));
        HarvestPhaseChain(old(s), s3, s);
        MomentsStay(seen, log, jobRead, outRead);
        PreparedLater(seen, log, |old(log)|, jobRead, g.uid, old(s).rev);
        r := if ok then GaveUp else Broken;
        return;
      }
      return Pending, g, jobRead, outRead;
    }

    lemma FullIsPopulated(f: KeyFiles)
      ensures Full(Some(f)) <==> Populated(f)
    {
    }

    lemma MomentsStay(log: seq<Event>, longer: seq<Event>, j: nat, k: nat)
      requires Legal(log) && Legal(longer) && log <= longer && j <= k <= |log|
      ensures At(longer, j) == At(log, j) && At(longer, k) == At(log, k)
    {
      AtSame(log, longer, j);
      AtSame(log, longer, k);
    }

    /** A fresh random key; the create fails when a Secret has appeared meanwhile. */
    method CreateRandomKey(g: Gateway) returns (r: KeyResult)
      requires Valid() && Knows(s, g)
      modifies this
      ensures old(log) <= log && faults >= old(faults) + if r.Broken? then 1 else 0
      ensures Valid() && Knows(s, g) && HarvestPhase(old(s), s)
      ensures r == Broken || (r.Ready? && r.origin == Random && s.tally.randoms > old(s).tally.randoms)
      ensures r.Ready? ==> Parses(r.files) && Generated(r.files) && s.key == Some(KeySecret.KeySecret(g.uid, r.files))
    {
      hide GatewayDrift, ModeADrift, CrossDrift, PlainDrift, BackendDrift, HarvestPhase;
      hide BackendsKeyed, CrossOwned, LaterVersion, Parses, Populated, Knows, Generated;
      var files := FreshFiles();
      var ok, applied := Api();
      ghost var s1 := s;
      CallHarvests(old(s), s1, g);
      var taken := s.key.Some?;
      if applied && !taken {
        KnowsHeld(s, g);
        HarvestDo(g, CreateKey(files, false));
        HarvestPhaseChain(old(s), s1, s);
      }
      if taken { faults := faults + 1; }
      r := if !ok || taken then Broken else Ready(files, Random);
    }

    /** There is no key Secret and the cache shows no prefix: the API server is asked. */
    method EnsureUncachedKey(g: Gateway) returns (r: KeyResult, h: Gateway, ghost at: KeyReads)
      requires Valid() && Knows(s, g)
      modifies this
      ensures old(log) <= log && faults >= old(faults) + if r.Broken? then 1 else 0
      ensures Valid() && Knows(s, h) && h.uid == g.uid && HarvestPhase(old(s), s)
      ensures r.Ready? ==> r.origin != Existing && Parses(r.files) && s.key == Some(KeySecret.KeySecret(g.uid, r.files))
      ensures r.Ready? && r.origin == Harvested ==> r.files in s.outputs && Populated(r.files)
      ensures r.Ready? && r.origin == Random ==> s.tally.randoms > old(s).tally.randoms
      ensures s.tally.randoms > old(s).tally.randoms ==>
        !g.await && (s.prefixEdits == old(s).prefixEdits ==> old(s).prefix == "")
      ensures |old(log)| <= at.prefix <= at.job <= at.out <= |log|
      ensures KeyVerdict(r, g, "", None, At(log, at.prefix).prefix, At(log, at.job).job, At(log, at.out).out)
      ensures r == GaveUp ==> h.vanityFailed.Some? && h.vanityFailed != Some("")
      ensures (exists p :: Recorded(old(s), g, "", p)) && s.prefixEdits == old(s).prefixEdits ==> Uneventful(old(s), s)
    {
      hide GatewayDrift, ModeADrift, CrossDrift, PlainDrift, BackendDrift, HarvestPhase;
      hide BackendsKeyed, CrossOwned, LaterVersion, Parses, Populated, Knows, Uneventful;
      hide At, After, Legal, HarvestVerdict;
      h := g;
      var ok := Read();
      ghost var s1, was := s, log;
      AtNow(log);
      at := KeyReads(|log|, |log|, |log|, |log|);
      CallHarvests(old(s), s1, g);
      DriftUneventful(old(s), s1, {});
      if !ok { return Broken, g, at; }
      var authoritative := s.prefix;
      if authoritative != "" {
        ghost var j, o;
        r, h, j, o := RunVanityHarvest(g, authoritative);
        HarvestPhaseChain(old(s), s1, s);
        HarvestCounts(s1, s);
        at := at.(job := j, out := o);
        AtSame(was, log, |was|);
        return;
      }
      if g.await { return Awaiting, g, at; }
      r := CreateRandomKey(g);
      HarvestPhaseChain(old(s), s1, s);
      HarvestCounts(s1, s);
      AtSame(was, log, |was|);
    }

    /** `cached` is the vanityPrefix the informer cache showed; `h` is the reconcile's copy, perhaps refreshed. */
    method EnsureKeySecret(g: Gateway, cached: string) returns (r: KeyResult, h: Gateway, ghost at: KeyReads)
      requires Valid() && Knows(s, g)
      modifies this
      ensures old(log) <= log && faults >= old(faults) + if r.Broken? then 1 else 0
      ensures Valid() && Knows(s, h) && h.uid == g.uid && HarvestPhase(old(s), s)
      ensures r.Ready? ==> Parses(r.files) && KeyHeld(s, g.uid, r.files, old(s).key)
      // a key made by this very reconcile is there
      ensures r.Ready? && r.origin != Existing ==> s.key == Some(KeySecret.KeySecret(g.uid, r.files))
      // a harvested key has exactly the bytes of an output Secret, whole and well-formed
      ensures r.Ready? && r.origin == Harvested ==> r.files in s.outputs && Populated(r.files)
      // a random key is made, even by a call that then fails, only without the wait annotation and when the
      // API server shows no prefix
      ensures r.Ready? && r.origin == Random ==> s.tally.randoms > old(s).tally.randoms
      ensures s.tally.randoms > old(s).tally.randoms ==>
        cached == "" && !g.await && (s.prefixEdits == old(s).prefixEdits ==> old(s).prefix == "")
      // what was read decides, and only a fault stands in for the verdict
      ensures KeyExplained(log, |old(log)|, r, g, cached, at)
      ensures r == GaveUp ==> h.vanityFailed.Some? && h.vanityFailed != Some("")
      // whatever the result, a key of this Gateway that was there stays
      ensures OwnKey(old(s), g) ==> s.key == old(s).key
      // a recorded failure stops everything while the same prefix stays requested
      ensures (exists p :: Recorded(old(s), g, cached, p)) && s.prefixEdits == old(s).prefixEdits ==>
        Uneventful(old(s), s)
    {
      hide GatewayDrift, ModeADrift, CrossDrift, PlainDrift, BackendDrift, HarvestPhase;
      hide BackendsKeyed, CrossOwned, LaterVersion, Parses, Populated, Knows, Uneventful;
      hide At, After, HarvestVerdict, KeyVerdict, KeyExplained;
      h := g;
      var ok := Read();
      ghost var s1, was := s, log;
      AtNow(log);
      at := KeyReads(|log|, |log|, |log|, |log|);
      CallHarvests(old(s), s1, g);
      DriftUneventful(old(s), s1, {});
      r := if ok && s.key.Some? then Ready(s.key.value.files, Existing) else Broken;
      NoHarvestExplained(log, |old(log)|, r, g, cached, at);
      if !ok || s.key.Some? { return; }
      if cached != "" {
        ghost var j, o;
        r, h, j, o := RunVanityHarvest(g, cached);
        HarvestPhaseChain(old(s), s1, s);
        HarvestExplained(was, log, |old(log)|, r, g, cached, at, j, o);
        at := at.(job := j, out := o);
        return;
      }
      r, h, at := EnsureUncachedKey(g);
      HarvestPhaseChain(old(s), s1, s);
      at := at.(secret := |was|);
      AtSame(was, log, |was|);
      UncachedCarries(old(s), s1, s, g);
      UncachedExplained(log, |old(log)|, r, g, at);
    }

    /** What the uncached step keeps from its own start, it keeps from one read earlier. */
    lemma UncachedCarries(s: State, t: State, u: State, g: Gateway)
      requires Inv(s) && Drift(s, t, {}) && HarvestPhase(t, u)
      requires (exists p :: Recorded(t, g, "", p)) && u.prefixEdits == t.prefixEdits ==> Uneventful(t, u)
      ensures (exists p :: Recorded(s, g, "", p)) && u.prefixEdits == s.prefixEdits ==> Uneventful(s, u)
      ensures t.prefixEdits <= u.prefixEdits && s.prefixEdits <= t.prefixEdits
      ensures t.prefixEdits == s.prefixEdits ==> t.prefix == s.prefix
    {
      hide HarvestPhase;
      DriftUneventful(s, t, {});
      HarvestCounts(t, u);
      if (exists p :: Recorded(s, g, "", p)) && u.prefixEdits == s.prefixEdits {
        var p :| Recorded(s, g, "", p);
        assert Recorded(t, g, "", p);
        UneventfulChain(s, t, u);
      }
    }

    lemma UncachedExplained(log: seq<Event>, since: nat, r: KeyResult, g: Gateway, at: KeyReads)
      requires Legal(log) && since <= at.secret <= at.prefix <= at.job <= at.out <= |log|
      requires At(log, at.secret).key.None?
      requires KeyVerdict(r, g, "", None, At(log, at.prefix).prefix, At(log, at.job).job, At(log, at.out).out)
      ensures KeyExplained(log, since, r, g, "", at)
    {
      hide At, After, HarvestVerdict;
    }

    lemma NoHarvestExplained(log: seq<Event>, since: nat, r: KeyResult, g: Gateway, cached: string, at: KeyReads)
      requires Legal(log) && since <= at.secret <= at.prefix == at.job == at.out <= |log|
      requires var key := At(log, at.secret).key;
        || r.Broken?
        || (key.Some? && r == Ready(key.value.files, Existing))
        || (&& key.None? && cached == "" && At(log, at.prefix).prefix == ""
            && if g.await then r == Awaiting else r.Ready? && r.origin == Random)
      ensures KeyExplained(log, since, r, g, cached, at)
    {
    }

    lemma HarvestExplained(
      log: seq<Event>, longer: seq<Event>, since: nat, r: KeyResult, g: Gateway, cached: string, at: KeyReads,
      job: nat, out: nat)
      requires Legal(log) && Legal(longer) && log <= longer
      requires since <= at.secret <= at.prefix <= |log| <= job <= out <= |longer| && At(log, at.secret).key.None?
      requires var prefix := if cached != "" then cached else At(log, at.prefix).prefix;
        && prefix != ""
        && if g.vanityFailed == Some(prefix) then r == GaveUp
           else HarvestVerdict(r, prefix, At(longer, job).job, At(longer, out).out)
      ensures KeyExplained(longer, since, r, g, cached, at.(job := job, out := out))
    {
      hide At, After, HarvestVerdict;
      MomentsStay(log, longer, at.secret, at.prefix);
    }

    lemma HarvestCounts(s: State, t: State)
      requires HarvestPhase(s, t)
      ensures s.prefixEdits <= t.prefixEdits && (s.prefixEdits == t.prefixEdits ==> t.prefix == s.prefix)
    {
    }

    /** The failure annotation names the prefix that is requested, and the cache shows that prefix or lags. */
    static predicate Recorded(s: State, g: Gateway, cached: string, p: string) {
      p != "" && g.vanityFailed == Some(p) && s.prefix == p && (cached == "" || cached == p)
    }

    // -------------------------------------------------------------- Mode A, put together

    /** The address the key files derive. */
    function OnionOf(files: KeyFiles): string
      requires Parses(files)
    {
      Onion.String(sha3, Keys.ParseFiles(files.secret, files.public).value.Address())
    }

    /** It is the one address of the public key in the second file. */
    lemma OnionOfPublicKey(files: KeyFiles)
      requires Parses(files)
      ensures |files.public| == 64 && OnionOf(files) == Onion.String(sha3, Onion.OnionAddress(files.public[32..]))
      ensures Onion.ParseAddress(sha3, OnionOf(files)) == Ok(Onion.OnionAddress(files.public[32..]))
    {
      hide Onion.ParseAddress, Onion.String;
      var a := Onion.OnionAddress(files.public[32..]);
      Onion.ParseOfString(sha3, a, Onion.String(sha3, a));
    }

    /** Writes addresses and conditions if that is news; the write is based on `g`. */
    method UpdateStatus(g: Gateway, files: KeyFiles) returns (ok: bool)
      requires Valid() && Knows(s, g) && Parses(files)
      modifies this
      ensures old(log) <= log && faults >= old(faults) + if ok then 0 else 1
      ensures Valid() && StatusPhase(old(s), s)
      ensures ok ==>
        OwnedNow(s, g.uid) && s.gw.value.addresses == [OnionOf(files)] && s.gw.value.programmed == Programmed.Programmed
    {
      hide GatewayDrift, CounterDrift, ModeADrift, CrossDrift, PlainDrift, BackendDrift, StatusPhase;
      hide BackendsKeyed, CrossOwned, KeysParse, LaterVersion, Parses, OnionOf;
      DriftRefl(s);
      DriftIsStatusPhase(s, s);
      KnowsHeld(s, g);
      var want := [OnionOf(files)];
      var otherNews: bool := *;   // condition details or listener statuses
      if g.addresses == want && g.programmed == Programmed.Programmed && !otherNews { return true; }
      var applied;
      ok, applied := Api();
      ghost var m := s;
      DriftIsStatusPhase(old(s), m);
      KnowsStable(old(s), m, g);
      KnowsHeld(m, g);
      var current := Current(s, g);
      if applied && current {
        StatusWrites(s, want, Programmed.Programmed);
        Do(SetStatus(want, Programmed.Programmed));
        StatusPhaseChain(old(s), m, s);
      }
      if !current { faults := faults + 1; }
      ok := ok && current;
    }

    /** torrc, then router RBAC. */
    method EnsureTorrcAndRouter(g: Gateway) returns (ok: bool)
      requires Valid() && Knows(s, g)
      modifies this
      ensures old(log) <= log && faults >= old(faults) + if ok then 0 else 1
      ensures Valid() && Knows(s, g) && Drift(old(s), s, BASE_A)
      ensures ok ==> Made(s, BASE_A, g.uid, old(s).rev, None)
    {
      hide Drift, Inv, Knows, Made, Apart;
      ok := EnsureRendered(g, TorrcConfig, s.rev, None);
      ghost var s1 := s;
      DriftWidens(old(s), s1, {TorrcConfig}, BASE_A);
      if !ok { return; }
      ok := EnsureRouterRbac(g, s.rev, None);
      GroupDrifts(old(s), s1, s, {TorrcConfig}, ROUTER_REFS);
      if ok {
        NextGroup(old(s), s1, s, {TorrcConfig}, ROUTER_REFS, g, old(s).rev, None);
      }
    }

    const BASE_A: set<Ref> := {TorrcConfig} + ROUTER_REFS
    const CHILDREN_A: set<Ref> := MODE_A_REFS + ROUTER_REFS

    /** torrc, router RBAC, Deployment, Service, NetworkPolicy: in this order. */
    method EnsureModeAChildren(g: Gateway) returns (ok: bool)
      requires Valid() && Knows(s, g)
      modifies this
      ensures old(log) <= log && faults >= old(faults) + if ok then 0 else 1
      ensures Valid() && Knows(s, g) && Drift(old(s), s, CHILDREN_A + {NetPolicy})
      ensures ok ==> Made(s, CHILDREN_A, g.uid, old(s).rev, None)
      ensures ok ==> if netPolicyEnabled then Made(s, {NetPolicy}, g.uid, old(s).rev, None) else NetPolicy !in s.plain
    {
      hide Drift, Inv, Knows, Made, Apart;
      ok := EnsureTorrcAndRouter(g);
      ghost var s1 := s;
      DriftWidens(old(s), s1, BASE_A, CHILDREN_A + {NetPolicy});
      if !ok { return; }
      ok := EnsurePair(g, Deployment, Service, s.rev, None);
      ghost var s2 := s;
      GroupDrifts(old(s), s1, s2, BASE_A, {Deployment, Service});
      assert BASE_A + {Deployment, Service} == CHILDREN_A;
      DriftWidens(old(s), s2, CHILDREN_A, CHILDREN_A + {NetPolicy});
      if !ok { return; }
      NextGroup(old(s), s1, s2, BASE_A, {Deployment, Service}, g, old(s).rev, None);
      RevGrows(old(s), s2, CHILDREN_A);
      ok := EnsureNetworkPolicy(g, s.rev, None);
      GroupDrifts(old(s), s2, s, CHILDREN_A, {NetPolicy});
      if ok {
        LastPolicy(old(s), s2, s, CHILDREN_A, g, old(s).rev);
      }
    }

    lemma LastPolicy(start: State, s: State, t: State, made: set<Ref>, g: Gateway, since: nat)
      requires Inv(start) && Drift(start, s, made) && Drift(s, t, {NetPolicy}) && Knows(s, g) && NetPolicy !in made
      requires Made(s, made, g.uid, since, None) && since <= s.rev
      requires if netPolicyEnabled then Made(t, {NetPolicy}, g.uid, s.rev, None) else NetPolicy !in t.plain
      ensures Drift(start, t, made + {NetPolicy}) && Made(t, made, g.uid, since, None)
      ensures if netPolicyEnabled then Made(t, {NetPolicy}, g.uid, since, None) else NetPolicy !in t.plain
    {
      DriftTransitive(start, s, t, made, {NetPolicy});
      MadeStable(s, t, {NetPolicy}, made, g, since, None);
    }

    /**
     * A Gateway fully provisioned in Mode A, holding the key `files` and publishing its address; `before` is
     * the key Secret there was when the reconcile began.
     */
    ghost predicate ServedByA(t: State, uid: nat, files: KeyFiles, before: Option<KeySecret>, since: nat) {
      && OwnedNow(t, uid) && NoModeB(t)
      && Made(t, MODE_A_REFS + ROUTER_REFS, uid, since, None)
      && (if netPolicyEnabled then Made(t, {NetPolicy}, uid, since, None) else NetPolicy !in t.plain)
      && Parses(files) && KeyHeld(t, uid, files, before)
      && t.gw.value.addresses == [OnionOf(files)] && t.gw.value.programmed == Programmed.Programmed
    }

    lemma ModeAAssembled(
      s0: State, s1: State, t: State, g: Gateway, files: KeyFiles, before: Option<KeySecret>, since: nat)
      requires NoModeB(s0) && Knows(s1, g) && Knows(s0, g) && Parses(files) && since <= s0.rev
      requires Drift(s0, s1, MODE_A_REFS + ROUTER_REFS + {NetPolicy}) && StatusPhase(s1, t)
      requires KeyHeld(s0, g.uid, files, before)
      requires Made(s1, MODE_A_REFS + ROUTER_REFS, g.uid, s0.rev, None)
      requires if netPolicyEnabled then Made(s1, {NetPolicy}, g.uid, s0.rev, None) else NetPolicy !in s1.plain
      requires OwnedNow(t, g.uid) && t.gw.value.addresses == [OnionOf(files)]
        && t.gw.value.programmed == Programmed.Programmed
      ensures ServedByA(t, g.uid, files, before, since)
    {
      hide OnionOf, Parses, NoModeB, Made, GatewayDrift, CounterDrift, PlainDrift, KeyHeld, ModeADrift;
      NoModeBStable(s0, s1, MODE_A_REFS + ROUTER_REFS + {NetPolicy});
      StatusKeepsNoModeB(s1, t);
      KeyHeldStable(s0, s1, g, files, before);
      KeyHeldStable(s1, t, g, files, before);
      StatusKeepsMade(s1, t, MODE_A_REFS + ROUTER_REFS, g, s0.rev);
      OlderMade(t, MODE_A_REFS + ROUTER_REFS, g.uid, since, s0.rev, None);
      if netPolicyEnabled {
        StatusKeepsMade(s1, t, {NetPolicy}, g, s0.rev);
        OlderMade(t, {NetPolicy}, g.uid, since, s0.rev, None);
      } else {
        StatusAddsNothing(s1, t);
      }
    }

    lemma StatusKeepsNoModeB(s: State, t: State)
      requires NoModeB(s) && StatusPhase(s, t)
      ensures NoModeB(t)
    {
    }

    lemma StatusAddsNothing(s: State, t: State)
      requires StatusPhase(s, t)
      ensures t.plain.Keys <= s.plain.Keys
    {
    }

    lemma StatusKeepsMade(s: State, t: State, refs: set<Ref>, g: Gateway, since: nat)
      requires Knows(s, g) && StatusPhase(s, t) && Made(s, refs, g.uid, since, None)
      ensures Made(t, refs, g.uid, since, None)
    {
    }

    /**
     * Two completed Mode A reconciles on the same inputs and the same key leave the same rendered children
     * and publish the same address, whatever happened in between. The harvest's own objects may expire.
     */
    lemma ModeAFixpoint(
      s: State, t: State, uid: nat, files: KeyFiles, was: Option<KeySecret>, was': Option<KeySecret>, rev: nat)
      requires PlainRendered(s) && PlainRendered(t) && s.rev == t.rev == rev
      requires ServedByA(s, uid, files, was, rev) && ServedByA(t, uid, files, was', rev)
      ensures s.plain - VANITY_REFS == t.plain - VANITY_REFS
      ensures s.gw.value.addresses == t.gw.value.addresses && s.gw.value.programmed == t.gw.value.programmed
      ensures s.secrets == t.secrets && s.roles == t.roles && s.bindings == t.bindings && s.replicas == t.replicas
    {
      hide PlainRendered, Made, OnionOf, Parses;
      var a, b := s.plain - VANITY_REFS, t.plain - VANITY_REFS;
      forall r
        ensures r in a <==> r in b
        ensures r in a ==> a[r] == b[r]
      {
        PlainOfModeA(s, uid, files, was, rev, r);
        PlainOfModeA(t, uid, files, was', rev, r);
      }
    }

    lemma PlainOfModeA(s: State, uid: nat, files: KeyFiles, was: Option<KeySecret>, rev: nat, r: Ref)
      requires ServedByA(s, uid, files, was, rev) && s.rev == rev && PlainRendered(s)
      ensures r in s.plain && r !in VANITY_REFS <==>
        r in MODE_A_REFS || r in ROUTER_REFS || (netPolicyEnabled && r == NetPolicy)
      ensures r in s.plain && r !in VANITY_REFS ==> s.plain[r] == Built(uid, rev, None)
    {
      hide OnionOf, Parses, Rendered;
      if r in s.plain {
        RenderedRefs(r);
      }
      assert r in MODE_B_REFS ==> r !in s.plain.Keys;
    }

    /** Children and status, once the key is at hand; `before` is the key Secret the reconcile found. */
    method ServeKey(g: Gateway, files: KeyFiles, ghost before: Option<KeySecret>) returns (ok: bool)
      requires Valid() && Knows(s, g) && NoModeB(s) && Parses(files) && KeyHeld(s, g.uid, files, before)
      modifies this
      ensures old(log) <= log && faults >= old(faults) + if ok then 0 else 1
      ensures Valid() && Uneventful(old(s), s) && KeyKept(old(s), s) && NoneOfB(old(s), s)
      ensures ok ==> ServedByA(s, g.uid, files, before, old(s).rev)
    {
      hide Drift, Inv, Knows, Made, StatusPhase, NoModeB, Parses, ServedByA, OnionOf, Uneventful, KeyHeld, KeyKept;
      hide NoneOfB;
      ok := EnsureModeAChildren(g);
      ghost var s1 := s;
      ChildrenSpareA(old(s), s1);
      if !ok { return; }
      ok := UpdateStatus(g, files);
      StatusSparesA(old(s), s1, s);
      if ok {
        ModeAAssembled(old(s), s1, s, g, files, before, old(s).rev);
      }
    }

    lemma ChildrenSpareA(s: State, t: State)
      requires Drift(s, t, CHILDREN_A + {NetPolicy})
      ensures Uneventful(s, t) && KeyKept(s, t) && NoneOfB(s, t)
    {
      hide Drift, Uneventful, NoneOfB, KeyKept;
      DriftSparesA(s, t, CHILDREN_A + {NetPolicy});
    }

    lemma StatusSparesA(s: State, t: State, u: State)
      requires Inv(s) && Uneventful(s, t) && KeyKept(s, t) && NoneOfB(s, t) && StatusPhase(t, u)
      ensures Uneventful(s, u) && KeyKept(s, u) && NoneOfB(s, u)
    {
      hide NoneOfB;
      StatusMakesNone(t, u);
      StatusUneventful(t, u);
      UneventfulChain(s, t, u);
      NoneOfBChain(s, t, u);
    }

    method ReconcileModeA(g: Gateway) returns (r: Outcome, ghost story: KeyStory)
      requires Valid() && Knows(s, g) && NoModeB(s)
      modifies this
      ensures old(log) <= log && faults >= old(faults) + if r.Failed? then 1 else 0
      ensures Valid() && WorksInA(old(s), s, g)
      ensures r.DoneA? ==> ServedByA(s, g.uid, r.files, old(s).key, old(s).rev)
      ensures r.DoneA? || r.Waiting? || r.Failed?
      ensures r.Waiting? ==> OwnedNow(s, g.uid) && s.gw.value.programmed == NotProgrammed(r.reason)
      // the result of the key step decides, and the readings decide that
      ensures !r.Failed? ==> ExplainedInA(log, |old(log)|, r, g, story)
      ensures r != Waiting("PolicyNotAccepted")
    {
      hide Drift, Inv, Knows, Made, StatusPhase, HarvestPhase, NoModeB, Parses, ServedByA, OnionOf, Uneventful;
      hide KeyHeld, WorksInA, Recorded, At, After, Legal, KeyExplained, ExplainedInA;
      var ok := Read();
      ghost var s1, seen := s, log;
      AtNow(log);
      story := KeyStory(Broken, "", |log|, KeyReads(|log|, |log|, |log|, |log|));
      KnowsDrift(old(s), s1, g);
      NoModeBStable(old(s), s1, {});
      FirstInA(old(s), s1, g);
      if !ok { return Failed, story; }
      // the informer cache may not have seen the policy yet
      var lagging: bool := *;
      var cached := if lagging then "" else s.prefix;
      var key, h;
      ghost var at;
      key, h, at := EnsureKeySecret(g, cached);
      ghost var s2, keyed := s, log;
      story := KeyStory(key, cached, |seen|, at);
      HarvestPhaseKeepsNoModeB(s1, s2);
      HarvestInA(old(s), s1, s2, g, cached);
      if key.Pending? || key.GaveUp? || key.Awaiting? {
        var reason := if key.Pending? then "VanityHarvestInProgress"
                      else if key.GaveUp? then "VanityHarvestFailed" else "AwaitingVanityPolicy";
        ok := SetProgrammingCondition(h, reason);
        StatusInA(old(s), s2, s, g);
        if !ok { return Failed, story; }
        r := Waiting(reason);
        StoryEnds(seen, keyed, log, |old(log)|, r, g, story);
        return;
      }
      if key.Broken? { return Failed, story; }
      KeyBefore(old(s), s1, s2, g.uid, key.files);
      ok := ServeKey(h, key.files, old(s).key);
      UneventfulInA(old(s), s2, s, g);
      if !ok { return Failed, story; }
      RevOf(old(s), s1, s2);
      OlderServedByA(s, g.uid, key.files, old(s).key, old(s).key, old(s).rev, s2.rev);
      r := DoneA(key.files);
      StoryEnds(seen, keyed, log, |old(log)|, r, g, story);
    }

    /** From the first read, in `seen`, over the key step, in `keyed`, to the end. */
    lemma StoryEnds(
      seen: seq<Event>, keyed: seq<Event>, log: seq<Event>, since: nat, r: Outcome, g: Gateway, story: KeyStory)
      requires Legal(seen) && Legal(keyed) && Legal(log) && seen <= keyed <= log && since <= |seen| == story.seen
      requires story.cached == "" || story.cached == At(seen, |seen|).prefix
      requires KeyExplained(keyed, |seen|, story.result, g, story.cached, story.at) && FollowsKey(r, story.result)
      ensures ExplainedInA(log, since, r, g, story)
    {
      hide At, After, KeyVerdict;
      MomentsStay(keyed, log, story.at.secret, story.at.prefix);
      MomentsStay(keyed, log, story.at.job, story.at.out);
      AtSame(seen, log, |seen|);
    }

    /** What every part of a Mode A reconcile leaves alone: the own key, and all that is Mode B's. */
    static predicate SparesA(s: State, t: State) {
      KeyKept(s, t) && NoneOfB(s, t) && SameLine(s, t)
    }

    /** A failure is recorded in the reconcile's copy for the prefix that is requested. */
    static predicate RecordedIn(s: State, g: Gateway) {
      g.vanityFailed.Some? && g.vanityFailed.value != "" && s.prefix == g.vanityFailed.value
    }

    /**
     * What a Mode A reconcile on the copy `g` keeps, however it ends: random keys only when none is waited for
     * or requested, and with a recorded failure no key and no Job.
     */
    static predicate WorksInA(s: State, t: State, g: Gateway) {
      && SparesA(s, t)
      && (t.tally.randoms > s.tally.randoms ==> !g.await && (t.prefixEdits == s.prefixEdits ==> s.prefix == ""))
      && (RecordedIn(s, g) && t.prefixEdits == s.prefixEdits ==> Uneventful(s, t))
    }

    lemma UneventfulInA(s: State, t: State, u: State, g: Gateway)
      requires Inv(s) && WorksInA(s, t, g) && Uneventful(t, u) && KeyKept(t, u) && NoneOfB(t, u)
      ensures WorksInA(s, u, g)
    {
      hide NoneOfB, SameLine;
      SparesAChain(s, t, u);
      LineOf(s, t);
      LineOf(t, u);
      if RecordedIn(s, g) && u.prefixEdits == s.prefixEdits {
        UneventfulChain(s, t, u);
      }
    }

    lemma DriftSparesA(s: State, t: State, w: set<Ref>)
      requires Drift(s, t, w) && w !! MODE_B_REFS
      ensures Uneventful(s, t) && KeyKept(s, t) && NoneOfB(s, t)
    {
      DriftMakesNone(s, t, w);
      DriftUneventful(s, t, w);
    }

    lemma FirstInA(s: State, t: State, g: Gateway)
      requires Inv(s) && Drift(s, t, {})
      ensures WorksInA(s, t, g)
    {
      hide Drift;
      DriftSparesA(s, t, {});
    }

    lemma StatusInA(s: State, t: State, u: State, g: Gateway)
      requires Inv(s) && WorksInA(s, t, g) && StatusPhase(t, u)
      ensures WorksInA(s, u, g)
    {
      hide WorksInA, Uneventful, NoneOfB;
      StatusMakesNone(t, u);
      StatusUneventful(t, u);
      UneventfulInA(s, t, u, g);
    }

    /** The key step: `cached` is the requested prefix, or the cache lags. */
    lemma HarvestInA(s: State, t: State, u: State, g: Gateway, cached: string)
      requires Inv(s) && Drift(s, t, {}) && HarvestPhase(t, u) && (cached == "" || cached == t.prefix)
      requires (exists p :: Recorded(t, g, cached, p)) && u.prefixEdits == t.prefixEdits ==> Uneventful(t, u)
      requires u.tally.randoms > t.tally.randoms ==> !g.await && (u.prefixEdits == t.prefixEdits ==> t.prefix == "")
      ensures WorksInA(s, u, g)
    {
      hide Drift, HarvestPhase, NoneOfB;
      DriftSparesA(s, t, {});
      HarvestMakesNoneOfB(t, u);
      HarvestSameLine(t, u);
      SparesAChain(s, t, u);
      if RecordedIn(s, g) && u.prefixEdits == s.prefixEdits {
        assert Recorded(t, g, cached, g.vanityFailed.value);
        UneventfulChain(s, t, u);
      }
    }

    lemma SparesAChain(s: State, t: State, u: State)
      requires Inv(s) && SparesA(s, t) && SparesA(t, u)
      ensures SparesA(s, u)
    {
      hide NoneOfB;
      NoneOfBChain(s, t, u);
      SameLineChain(s, t, u);
      LineageThroughout(s, t, u);
    }

    lemma KeyBefore(s: State, t: State, u: State, uid: nat, files: KeyFiles)
      requires Drift(s, t, {}) && KeyHeld(u, uid, files, t.key)
      ensures KeyHeld(u, uid, files, s.key)
    {
    }

    lemma KnowsDrift(s: State, t: State, g: Gateway)
      requires Knows(s, g) && Drift(s, t, {})
      ensures Knows(t, g)
    {
      KnowsStable(s, t, g);
    }

    lemma RevOf(s: State, t: State, u: State)
      requires Drift(s, t, {}) && HarvestPhase(t, u)
      ensures s.rev <= u.rev
    {
    }

    // -------------------------------------------------------------- Mode B, from the start

    /** The text of the master's address: None without the Secret, empty for a key that is refused. */
    function MasterText(found: Inputs): Option<string> {
      if found.master.None? then None
      else
        match Keys.ValidateMasterKey(derive, found.master.value)
        case Err(_) => Some("")
        case Ok(k) => Some(Onion.String(sha3, k.Address()))
    }

    /** It names the public key of a pair of files that belong together. */
    lemma MasterTextNamesKey(found: Inputs, text: string)
      requires found.master.Some? && MasterText(found) == Some(text) && text != ""
      ensures var pub := found.master.value.public;
        && |pub| == 64 && Onion.ParseAddress(sha3, text) == Ok(Onion.OnionAddress(pub[32..]))
      ensures exists k: Keys.KeyPair ::
        && k.Valid() && derive(k.expanded[..32]) == k.publicKey
        && found.master.value == Keys.MasterData(k.SecretKeyFile(), k.PublicKeyFile())
    {
      hide Onion.ParseAddress, Onion.String;
      var k := Keys.ValidateMasterKey(derive, found.master.value).value;
      Keys.MasterKeyExactly(derive, found.master.value, k);
      Onion.ParseOfString(sha3, k.Address(), text);
      assert k.PublicKeyFile()[32..] == k.publicKey;
    }

    lemma ValidMaster(data: Keys.MasterData, k: Keys.KeyPair)
      requires Keys.ValidateMasterKey(derive, data) == Ok(k)
      ensures k.Address().Valid()
    {
      Keys.MasterKeyExactly(derive, data, k);
    }

    /** With the master's address at hand: backends, frontend, status. */
    method FinishModeB(g: Gateway, pol: Policy, master: Onion.OnionAddress) returns (r: Outcome, ghost counted: nat)
      requires Valid() && Knows(s, g) && NoModeA(s) && master.Valid()
      requires CrossNs(pol).Some? ==>
        s.roles == map[CrossNs(pol).value := g.uid] && s.bindings == map[CrossNs(pol).value := g.uid]
      modifies this
      ensures old(log) <= log && faults >= old(faults) + if r.Failed? then 1 else 0
      ensures Valid() && WorksInB(old(s), s)
      ensures r.DoneB? || r.Failed?
      ensures r.DoneB? ==> BPublished(s, g.uid, pol, r.settled, r.master, old(s).rev)
      ensures r.DoneB? ==> s.gw.value.addresses == Merge(g.addresses, r.master)
      ensures r.DoneB? ==> CrossNs(pol).Some? || CrossDrift(old(s), s)
      ensures r.DoneB? ==> r.policy == pol && ExplainedInB(log, |old(log)|, r, pol, counted, Onion.String(sha3, master))
    {
      hide Drift, Inv, Knows, Made, StatusPhase, At, After;
      hide NoModeA, Apart, BackendsReady, ServedByB, CrossPhase, WorksInB;
      var ok, settled;
      ok, settled, counted := ProvisionBackends(g, pol.replicas);
      ghost var s3, was := s, log;
      if !ok { return Failed, counted; }
      BackendsKnow(old(s), s3, g, pol.replicas);
      ok := ProvisionFrontend(g, pol.replicas);
      ghost var s4 := s;
      DriftStepB(old(s), s3, s4, {Frontend, NetPolicy});
      if !ok { return Failed, counted; }
      FullyServed(old(s), s3, s4, g, pol.replicas, old(s).rev, CrossNs(pol));
      Onion.StringHasSuffix(sha3, master);
      ok := UpdateStatusModeB(g, Onion.String(sha3, master), pol.replicas);
      StatusStepB(old(s), s4, s);
      if !ok { return Failed, counted; }
      MergePublishesOne(g.addresses, Onion.String(sha3, master));
      ServedByBStable(s4, s, g.uid, pol.replicas, old(s).rev, netPolicyEnabled, CrossNs(pol));
      SecretsKept(s3, s4, s);
      CrossUntouched(old(s), s3, s4, s, g, pol.replicas);
      AtSame(was, log, counted);
      r := DoneB(pol, settled, Onion.String(sha3, master));
    }

    method EnsureModeB(g: Gateway, pol: Policy, found: Inputs) returns (r: Outcome, ghost counted: nat)
      requires Valid() && Knows(s, g) && NoModeA(s)
      modifies this
      ensures old(log) <= log && faults >= old(faults) + if r.Failed? then 1 else 0
      // however it ends, nothing of Mode A appears
      ensures Valid() && WorksInB(old(s), s)
      // short of a fault the master Secret decides, and one elsewhere needs its grant
      ensures r.DoneB? || r == Waiting("MasterSecretNotFound") || r.Failed?
      ensures r.Waiting? ==> found.master.None?
      ensures r.DoneB? ==> MasterText(found).Some? && r.policy == pol
      ensures r.DoneB? ==> ExplainedInB(log, |old(log)|, r, pol, counted, MasterText(found).value)
      ensures !r.Failed? && CrossNs(pol).Some? ==> found.granted
      ensures r.DoneB? ==> BPublished(s, g.uid, pol, r.settled, r.master, old(s).rev)
      ensures r.DoneB? ==> s.gw.value.addresses == Merge(g.addresses, r.master)
      // with a local master the cross-namespace objects are not touched
      ensures r.DoneB? ==> PairsAfter(old(s), s, g.uid, CrossNs(pol))
      ensures r.Waiting? ==> OwnedNow(s, g.uid) && s.gw.value.programmed == NotProgrammed(r.reason)
    {
      hide Drift, Inv, Knows, Made, StatusPhase, ExplainedInB;
      hide NoModeA, Apart, BackendsReady, ServedByB, CrossPhase, WorksInB, BPublished, CrossDrift, Merge;
      counted := |log|;
      var crossNs := CrossNs(pol);
      var ok := true;
      if crossNs.Some? {
        ok := EnsureCrossNsRbac(g, crossNs.value, found.granted);
      } else {
        DriftRefl(s);
        DriftIsPhase(s, s, 0);
      }
      ghost var s1 := s;
      PhasesUneventful(old(s), s1);
      if !ok { return Failed, counted; }
      ok := Read();   // the master Secret
      ghost var s2, was := s, log;
      KnowsDrift(s1, s2, g);
      DriftStepB(old(s), s1, s2, {});
      if !ok { return Failed, counted; }
      if found.master.None? {
        ok := SetProgrammingCondition(g, "MasterSecretNotFound");
        StatusStepB(old(s), s2, s);
        r := if ok then Waiting("MasterSecretNotFound") else Failed;
        return;
      }
      var master := Keys.ValidateMasterKey(derive, found.master.value);
      if master.Err? {
        faults := faults + 1;
        return Failed, counted;
      }
      ValidMaster(found.master.value, master.value);
      CrossCarries(old(s), s1, s2, crossNs);
      r, counted := FinishModeB(g, pol, master.value.Address());
      StepB(old(s), s2, s);
      if r.DoneB? {
        EarlierInB(log, |old(log)|, |was|, r, pol, counted, MasterText(found).value);
        OlderBPublished(s, g.uid, pol, r.settled, r.master, old(s).rev, s2.rev);
        PairsAtEnd(old(s), s2, s, g.uid, pol, r.settled, r.master, old(s).rev);
      }
    }

    lemma EarlierInB(log: seq<Event>, since: nat, later: nat, r: Outcome, pol: Policy, counts: nat, master: string)
      requires Legal(log) && since <= later && ExplainedInB(log, later, r, pol, counts, master)
      ensures ExplainedInB(log, since, r, pol, counts, master)
    {
    }

    /** What every part of a Mode B reconcile keeps, however it ends: the StatefulSet, and all that is Mode A's. */
    static predicate WorksInB(s: State, t: State) {
      Uneventful(s, t) && NoneOfA(s, t) && BackendsStay(s, t)
    }

    lemma StepB(s: State, t: State, u: State)
      requires Inv(s) && WorksInB(s, t) && WorksInB(t, u)
      ensures WorksInB(s, u)
    {
      hide Uneventful, NoneOfA;
      UneventfulFrom(s, t, u);
      NoneOfAChain(s, t, u);
    }

    lemma DriftStepB(s: State, t: State, u: State, w: set<Ref>)
      requires Inv(s) && WorksInB(s, t) && Drift(t, u, w) && w !! MODE_A_REFS && w !! VANITY_REFS
      ensures WorksInB(s, u)
    {
      hide Uneventful, NoneOfA;
      DriftUneventful(t, u, w);
      DriftMakesNone(t, u, w);
      StepB(s, t, u);
    }

    lemma StatusStepB(s: State, t: State, u: State)
      requires Inv(s) && WorksInB(s, t) && StatusPhase(t, u)
      ensures WorksInB(s, u)
    {
      hide Uneventful, NoneOfA;
      StatusUneventful(t, u);
      StatusMakesNone(t, u);
      StepB(s, t, u);
    }

    /** The cross-namespace objects a completed Mode B reconcile leaves: its own pair, or what there was. */
    static predicate PairsAfter(s: State, t: State, uid: nat, crossNs: Option<string>) {
      if crossNs.Some? then t.roles == map[crossNs.value := uid] && t.bindings == map[crossNs.value := uid]
      else CrossDrift(s, t)
    }

    lemma CrossUntouched(s2: State, s3: State, s4: State, t: State, g: Gateway, n: nat)
      requires BackendsReady(s2, s3, g, n) && Drift(s3, s4, {Frontend, NetPolicy}) && StatusPhase(s4, t)
      ensures CrossDrift(s2, t)
    {
    }

    lemma BackendsKnow(s: State, t: State, g: Gateway, n: nat)
      requires BackendsReady(s, t, g, n)
      ensures Knows(t, g)
    {
    }

    lemma SecretsKept(s: State, t: State, u: State)
      requires Drift(s, t, {Frontend, NetPolicy}) && StatusPhase(t, u)
      ensures u.secrets == s.secrets
    {
    }

    lemma PairsAtEnd(
      s: State, t: State, u: State, uid: nat, pol: Policy, settled: bool, master: string, since: nat)
      requires BPublished(u, uid, pol, settled, master, since)
      requires CrossNs(pol).None? ==> Drift(s, t, {}) && CrossDrift(t, u)
      ensures PairsAfter(s, u, uid, CrossNs(pol))
    {
    }

    lemma CrossCarries(s: State, t: State, u: State, crossNs: Option<string>)
      requires CrossPhase(s, t) && Drift(t, u, {}) && NoModeA(s)
      ensures NoModeA(u) && s.rev <= u.rev && u.roles == t.roles && u.bindings == t.bindings
    {
      NoModeAStable(s, t, {});
      NoModeAStable(t, u, {});
    }

    // -------------------------------------------------------------- Reconcile

    /** The Gateway exists, its failure annotation names `p`, and `p` is what is requested. */
    static predicate RecordedNow(s: State, p: string) {
      p != "" && s.gw.Some? && s.gw.value.vanityFailed == Some(p) && s.prefix == p
    }

    /** The object that was there in `s` is still there in `t`, and nobody edited the requested prefix meanwhile. */
    static predicate Undisturbed(s: State, t: State) {
      s.gw.Some? && OwnedNow(t, s.gw.value.uid) && t.prefixEdits == s.prefixEdits
    }

    /** Cleanup, then the finalizer. */
    method ReleaseGateway(g: Gateway) returns (r: Outcome)
      requires Valid() && Knows(s, g) && s.gw.value.vanityFailed == g.vanityFailed && g.deleting
      modifies this
      ensures old(log) <= log && faults >= old(faults) + if r.Failed? then 1 else 0
      ensures Valid() && Uneventful(old(s), s) && NoneOfA(old(s), s) && NoneOfB(old(s), s)
      ensures r == Failed || (r == Released && !Held(s))
    {
      hide Drift, Inv, Knows, Uneventful, NoModeB, Shrinks, Cleans, NoneOfA, NoneOfB;
      var ok, h := CleanupModeB(g);
      ghost var s1 := s;
      CleansUneventful(old(s), s1);
      if !ok { return Failed; }
      ok := RemoveFinalizer(h);
      UneventfulFrom(old(s), s1, s);
      NoneOfAChain(old(s), s1, s);
      NoneOfBChain(old(s), s1, s);
      return if ok then Released else Failed;
    }

    lemma CleansUneventful(s: State, t: State)
      requires Cleans(s, t)
      ensures Uneventful(s, t) && KeyKept(s, t) && NoneOfA(s, t) && NoneOfB(s, t)
    {
      ShrinksUneventful(s, t);
      ShrinksMakesNone(s, t);
    }

    /** The finalizer is on: pick the mode. */
    method ReconcileHeld(g: Gateway, found: Inputs) returns (r: Outcome, ghost at: Readings)
      requires Valid() && Knows(s, g) && s.gw.value.vanityFailed == g.vanityFailed
      modifies this
      ensures old(log) <= log && faults >= old(faults) + if r.Failed? then 1 else 0
      ensures Valid() && KeepsTo(old(s), s, g)
      ensures r.DoneA? || r.DoneB? || r.Waiting? || r.Failed?
      ensures r.DoneA? ==> ServedByA(s, g.uid, r.files, old(s).key, old(s).rev)
      ensures r.DoneB? ==> BPublished(s, g.uid, r.policy, r.settled, r.master, old(s).rev)
      ensures r.DoneB? ==> s.gw.value.addresses == Merge(g.addresses, r.master)
      ensures r.DoneB? ==> PairsAfter(old(s), s, g.uid, CrossNs(r.policy))
      ensures r.Waiting? ==> OwnedNow(s, g.uid) && s.gw.value.programmed == NotProgrammed(r.reason)
      // the policy that was read decides, and then the key or the master
      ensures !r.Failed? ==> ExplainedHeld(log, |old(log)|, r, g, at, MasterText(found))
      ensures r.DoneB? && CrossNs(r.policy).Some? ==> found.granted
      // refusing an unaccepted policy writes a status and nothing else
      ensures r == Waiting("PolicyNotAccepted") ==> StatusPhase(old(s), s)
    {
      hide Drift, Inv, Knows, StatusPhase, ServedByA, Uneventful;
      hide BPublished, NoneOfA, PairsAfter, Merge, KeepsTo, WorksInA;
      hide At, After, ExplainedInA, ExplainedInB;
      var ok := Read();
      ghost var s1, read := s, log;
      AtNow(log);
      at := NoReadings(|log|);
      KnowsDrift(old(s), s1, g);
      FailureDrifts(old(s), s1, g);
      DriftKeepsTo(old(s), s1, g);
      RevGrows(old(s), s1, {});
      if !ok { return Failed, at; }
      if s.policy.None? {
        ghost var story;
        r, story := SwitchToModeA(g);
        at := at.(key := story);
        AtSame(read, log, |read|);
        UnaskedKeepsTo(old(s), s1, s, g);
        if r.DoneA? {
          DriftIsQuiet(old(s), s1, {});
          OlderServedByA(s, g.uid, r.files, s1.key, old(s).key, old(s).rev, s1.rev);
        }
        return;
      }
      var pol := s.policy.value;
      if !pol.accepted {
        ok := SetProgrammingCondition(g, "PolicyNotAccepted");
        RefusedKeepsTo(old(s), s1, s, g);
        AtSame(read, log, |read|);
        r := if ok then Waiting("PolicyNotAccepted") else Failed;
        return;
      }
      ghost var counted;
      r, counted := SwitchToModeB(g, pol, found);
      at := at.(counts := counted);
      AtSame(read, log, |read|);
      AcceptedKeepsTo(old(s), s1, s, g);
      if r.DoneB? {
        OlderBPublished(s, g.uid, pol, r.settled, r.master, old(s).rev, s1.rev);
        PairsCarry(old(s), s1, s, g.uid, CrossNs(pol));
      }
    }

    static ghost function NoReadings(n: nat): Readings {
      Readings(n, n, n, KeyStory(Broken, "", n, KeyReads(n, n, n, n)))
    }

    /** What a reconcile of a held Gateway on the copy `g` keeps, whichever mode it finds and however it ends. */
    static predicate KeepsTo(s: State, t: State, g: Gateway) {
      && SameLine(s, t) && ByPolicy(s, t)
      && (t.tally.randoms > s.tally.randoms ==>
            && !g.await && (t.prefixEdits == s.prefixEdits ==> s.prefix == "")
            && (t.tally.policyEdits == s.tally.policyEdits ==> s.policy.None?))
      && (RecordedIn(s, g) && t.prefixEdits == s.prefixEdits ==> Uneventful(s, t))
    }

    lemma DriftKeepsTo(s: State, t: State, g: Gateway)
      requires Drift(s, t, {})
      ensures KeepsTo(s, t, g)
    {
      DriftUneventful(s, t, {});
      DriftByPolicy(s, t);
    }

    /** With the policy that was read not accepted, only a status is written. */
    lemma RefusedKeepsTo(s: State, t: State, u: State, g: Gateway)
      requires Inv(s) && Drift(s, t, {}) && StatusPhase(t, u)
      requires t.policy.Some? && !t.policy.value.accepted
      ensures StatusPhase(s, u) && KeepsTo(s, u, g)
    {
      DriftIsStatusPhase(s, t);
      StatusPhaseChain(s, t, u);
      StatusMakesNone(s, u);
      StatusUneventful(s, u);
    }

    lemma AcceptedKeepsTo(s: State, t: State, u: State, g: Gateway)
      requires Inv(s) && Drift(s, t, {}) && WorksInB(t, u) && IsAccepted(t.policy)
      ensures KeepsTo(s, u, g)
    {
      hide NoneOfA;
      DriftMakesNone(s, t, {});
      NoneOfAChain(s, t, u);
      DriftUneventful(s, t, {});
      UneventfulChain(s, t, u);
    }

    lemma UnaskedKeepsTo(s: State, t: State, u: State, g: Gateway)
      requires Inv(s) && Drift(s, t, {}) && WorksInA(t, u, g) && t.policy.None?
      ensures KeepsTo(s, u, g)
    {
      hide NoneOfB;
      DriftMakesNone(s, t, {});
      NoneOfBChain(s, t, u);
      DriftUneventful(s, t, {});
      SameLineChain(s, t, u);
      if RecordedIn(s, g) && u.prefixEdits == s.prefixEdits {
        UneventfulChain(s, t, u);
      }
    }

    lemma PairsCarry(s: State, t: State, u: State, uid: nat, crossNs: Option<string>)
      requires Drift(s, t, {}) && PairsAfter(t, u, uid, crossNs)
      ensures PairsAfter(s, u, uid, crossNs)
    {
    }

    /** An accepted policy: what only Mode A uses goes first. */
    method SwitchToModeB(g: Gateway, pol: Policy, found: Inputs) returns (r: Outcome, ghost counted: nat)
      requires Valid() && Knows(s, g) && s.policy == Some(pol) && pol.accepted
      modifies this
      ensures old(log) <= log && faults >= old(faults) + if r.Failed? then 1 else 0
      ensures Valid() && WorksInB(old(s), s)
      ensures r.DoneB? || r == Waiting("MasterSecretNotFound") || r.Failed?
      ensures r.Waiting? ==> found.master.None?
      ensures r.DoneB? ==> MasterText(found).Some? && r.policy == pol
      ensures r.DoneB? ==> ExplainedInB(log, |old(log)|, r, pol, counted, MasterText(found).value)
      ensures r.DoneB? && CrossNs(pol).Some? ==> found.granted
      ensures r.DoneB? ==> BPublished(s, g.uid, pol, r.settled, r.master, old(s).rev)
      ensures r.DoneB? ==> s.gw.value.addresses == Merge(g.addresses, r.master)
      ensures r.DoneB? ==> PairsAfter(old(s), s, g.uid, CrossNs(pol))
      ensures r.Waiting? ==> OwnedNow(s, g.uid) && s.gw.value.programmed == NotProgrammed(r.reason)
    {
      hide Inv, Knows, NoModeA, Shrinks, BPublished, KeyKept, Merge, WorksInB, ExplainedInB, MasterText;
      counted := |log|;
      AcceptedSeen(s);
      var ok := CleanupModeA();
      ghost var s1 := s;
      CleanupInB(old(s), s1);
      if !ok { return Failed, counted; }
      AfterCleanup(old(s), s1, g);
      ShrinksRev(old(s), s1);
      ghost var was := |log|;
      r, counted := EnsureModeB(g, pol, found);
      StepB(old(s), s1, s);
      if r.DoneB? {
        EarlierInB(log, |old(log)|, was, r, pol, counted, MasterText(found).value);
        OlderBPublished(s, g.uid, pol, r.settled, r.master, old(s).rev, s1.rev);
      }
    }

    lemma CleanupInB(s: State, t: State)
      requires Shrinks(s, t) && IsAccepted(s.policy) && t.replicas == s.replicas
      ensures WorksInB(s, t)
    {
      ShrinksUneventful(s, t);
      ShrinksMakesNone(s, t);
    }

    /** No policy: what only Mode B uses goes first. */
    method SwitchToModeA(g: Gateway) returns (r: Outcome, ghost story: KeyStory)
      requires Valid() && Knows(s, g) && s.gw.value.vanityFailed == g.vanityFailed
      modifies this
      ensures old(log) <= log && faults >= old(faults) + if r.Failed? then 1 else 0
      ensures Valid() && WorksInA(old(s), s, g)
      ensures r.DoneA? || r.Waiting? || r.Failed?
      ensures r.DoneA? ==> ServedByA(s, g.uid, r.files, old(s).key, old(s).rev)
      ensures r.Waiting? ==> OwnedNow(s, g.uid) && s.gw.value.programmed == NotProgrammed(r.reason)
      ensures !r.Failed? ==> ExplainedInA(log, |old(log)|, r, g, story)
      ensures r != Waiting("PolicyNotAccepted")
    {
      hide Inv, Knows, NoModeB, ServedByA, Cleans, WorksInA, ExplainedInA;
      story := KeyStory(Broken, "", |log|, KeyReads(|log|, |log|, |log|, |log|));
      var ok, h := CleanupModeB(g);
      ghost var s1 := s;
      CleansInA(old(s), s1, g);
      if !ok { return Failed, story; }
      ghost var was := |log|;
      r, story := ReconcileModeA(h);
      if !r.Failed? {
        SameCopyInA(log, |old(log)|, was, r, g, h, story);
      }
      AfterCleansInA(old(s), s1, s, g, h);
      if r.DoneA? {
        CleansShrinks(old(s), s1);
        ShrinksRev(old(s), s1);
        ShrinksKey(old(s), s1);
        OlderServedByA(s, g.uid, r.files, s1.key, old(s).key, old(s).rev, s1.rev);
      }
    }

    /** Only the wait annotation and the recorded failure of the copy count. */
    lemma SameCopyInA(log: seq<Event>, since: nat, later: nat, r: Outcome, g: Gateway, h: Gateway, story: KeyStory)
      requires Legal(log) && since <= later && h.await == g.await && h.vanityFailed == g.vanityFailed
      requires ExplainedInA(log, later, r, h, story)
      ensures ExplainedInA(log, since, r, g, story)
    {
      hide At, After, HarvestVerdict;
    }

    lemma CleansInA(s: State, t: State, g: Gateway)
      requires Cleans(s, t)
      ensures WorksInA(s, t, g)
    {
      CleansUneventful(s, t);
    }

    lemma AfterCleansInA(s: State, t: State, u: State, g: Gateway, h: Gateway)
      requires Inv(s) && Cleans(s, t) && WorksInA(t, u, h) && h.await == g.await && h.vanityFailed == g.vanityFailed
      ensures WorksInA(s, u, g)
    {
      hide Cleans, NoneOfB;
      CleansUneventful(s, t);
      SparesAChain(s, t, u);
      if RecordedIn(s, g) && u.prefixEdits == s.prefixEdits {
        UneventfulChain(s, t, u);
      }
    }

    lemma DriftByPolicy(s: State, t: State)
      requires Drift(s, t, {})
      ensures ByPolicy(s, t) && t.tally.randoms == s.tally.randoms
    {
      DriftMakesNone(s, t, {});
      DriftIsStatusPhase(s, t);
    }

    lemma AcceptedSeen(s: State)
      requires Inv(s) && IsAccepted(s.policy)
      ensures s.tally.accepted
    {
    }

    /** Mode B's result, as a completed reconcile leaves it. */
    ghost predicate BPublished(t: State, uid: nat, pol: Policy, settled: bool, master: string, since: nat) {
      && ServedByB(t, uid, pol.replicas, since, netPolicyEnabled, CrossNs(pol))
      && OwnedNow(t, uid) && Only(t.gw.value.addresses, true) == [master]
      && (settled ==> forall i | i in t.secrets :: i < pol.replicas)
    }

    lemma FailureDrifts(s: State, t: State, g: Gateway)
      requires Knows(s, g) && s.gw.value.vanityFailed == g.vanityFailed && Drift(s, t, {})
      ensures t.gw.Some? && t.gw.value.vanityFailed == g.vanityFailed
    {
      SameFailure(s, t, g);
    }

    lemma AfterCleanup(s: State, t: State, g: Gateway)
      requires Knows(s, g) && Shrinks(s, t)
      ensures Knows(t, g)
    {
      ShrinksKnows(s, t, g);
    }

    lemma ShrinksRev(s: State, t: State)
      requires Shrinks(s, t)
      ensures s.rev <= t.rev
    {
    }

    lemma OlderServedByB(t: State, uid: nat, n: nat, since: nat, since': nat, crossNs: Option<string>)
      requires ServedByB(t, uid, n, since', netPolicyEnabled, crossNs) && since <= since'
      ensures ServedByB(t, uid, n, since, netPolicyEnabled, crossNs)
    {
      hide NoModeA;
      OlderMade(t, MODE_B_REFS + ROUTER_REFS, uid, since, since', Some(n));
    }

    lemma ShrinksKey(s: State, t: State)
      requires Shrinks(s, t)
      ensures t.key.Some? ==> t.key == s.key
    {
    }

    lemma OlderServedByA(
      t: State, uid: nat, files: KeyFiles, before: Option<KeySecret>, earlier: Option<KeySecret>, since: nat,
        since': nat)
      requires ServedByA(t, uid, files, before, since') && since <= since' && (before.Some? ==> before == earlier)
      ensures ServedByA(t, uid, files, earlier, since)
    {
      hide NoModeB, OnionOf, Parses;
      OlderMade(t, MODE_A_REFS + ROUTER_REFS, uid, since, since', None);
    }

    /** Adds the finalizer with a write based on `g`, which was read in `seen`. */
    method AddFinalizerTo(g: Gateway, ghost seen: State) returns (ok: bool, h: Gateway)
      requires Valid() && Inv(seen) && seen.gw == Some(g) && !g.finalizer && !g.deleting && Drift(seen, s, {})
      modifies this
      ensures old(log) <= log && faults >= old(faults) + if ok then 0 else 1
      ensures Valid() && Drift(old(s), s, {})
      ensures ok ==> Knows(s, h) && h.uid == g.uid && s.gw.value.vanityFailed == h.vanityFailed == g.vanityFailed
      ensures ok ==> h.await == g.await && h.addresses == g.addresses
    {
      hide CounterDrift, ModeADrift, PlainDrift, BackendDrift, CrossDrift, GatewayDrift;
      hide BackendsKeyed, CrossOwned, KeysParse, NoneRobbed;
      h := g;
      var applied;
      ok, applied := Api();
      ghost var m := s;
      DriftChain(seen, old(s), m, {});
      var current := Current(s, g);
      if applied && current {
        StillThat(seen, m, g);
        FinalizerDrifts(m, g);
        Do(AddFinalizer);
        DriftChain(old(s), m, s, {});
        h := s.gw.value;
      }
      if !current { faults := faults + 1; }
      ok := ok && current;
    }

    /** The resourceVersion that was read is still the current one, so the object is the one that was read. */
    lemma StillThat(s: State, t: State, g: Gateway)
      requires s.gw == Some(g) && Drift(s, t, {}) && Current(t, g)
      ensures t.gw == Some(g)
    {
    }

    lemma FinalizerDrifts(s: State, g: Gateway)
      requires s.gw == Some(g) && !g.deleting && !g.finalizer
      ensures Guard(s, AddFinalizer)
      ensures var t := Apply(s, AddFinalizer);
        && Drift(s, t, {}) && t.gw.Some? && Knows(t, t.gw.value) && t.gw.value.uid == g.uid
        && t.gw.value.vanityFailed == g.vanityFailed && t.gw.value.await == g.await
        && t.gw.value.addresses == g.addresses
    {
      hide Parses, Populated;
    }

    /**
     * What holds across any reconcile, completed or aborted: lineage, live pods' keys, the own key, which
     * mode's objects may appear, and when a random key may be made.
     */
    static predicate Safe(s: State, t: State) {
      SameLine(s, t) && ByPolicy(s, t) && RandomAllowed(s, t)
    }

    /** One reconcile, once the Gateway `g`, read in `seen`, turns out to be of a class of ours. */
    method ReconcileManaged(g: Gateway, found: Inputs, ghost seen: State) returns (r: Outcome, ghost at: Readings)
      requires Valid() && Inv(seen) && seen.gw == Some(g) && Drift(seen, s, {})
      modifies this
      ensures old(log) <= log && faults >= old(faults) + if r.Failed? then 1 else 0
      ensures Valid() && Safe(seen, s)
      ensures !r.Failed? ==>
        if g.deleting then r == (if g.finalizer then Released else Leaving)
        else ExplainedHeld(log, |old(log)|, r, g, at, MasterText(found))
      ensures r.DoneB? && CrossNs(r.policy).Some? ==> found.granted
      ensures r.DoneA? ==> ServedByA(s, g.uid, r.files, seen.key, seen.rev)
      ensures r.DoneB? ==> BPublished(s, g.uid, r.policy, r.settled, r.master, seen.rev)
      ensures r.DoneB? ==> s.gw.value.addresses == Merge(g.addresses, r.master)
      ensures r.DoneB? ==> PairsAfter(seen, s, g.uid, CrossNs(r.policy))
      ensures r.Waiting? ==> s.gw.Some? && s.gw.value.programmed == NotProgrammed(r.reason)
      ensures r == Waiting("PolicyNotAccepted") ==> StatusPhase(seen, s)
      ensures r.Leaving? ==> Drift(seen, s, {})
      ensures r.Released? ==> !Held(s)
      ensures r.Failed? || r.Leaving? || r.Released? || r.Waiting? || r.DoneA? || r.DoneB?
      ensures (exists p :: RecordedNow(seen, p)) && Undisturbed(seen, s) ==> Uneventful(seen, s)
    {
      hide Drift, Inv, Knows, Made, Uneventful, StatusPhase, NoModeA, NoModeB, ServedByA, ServedByB, Shrinks, SameLine;
      hide BPublished, ByPolicy, RandomAllowed, NoneOfA, NoneOfB, Safe, KeepsTo, Merge, PairsAfter, ExplainedHeld;
      hide MasterText;
      hide RecordedNow, Undisturbed;
      at := NoReadings(|log|);
      DriftIsSafe(seen, s);
      if g.finalizer { FirstRead(seen, s, g); }
      if g.deleting {
        if !g.finalizer { return Leaving, at; }
        r := ReleaseGateway(g);
        ReleaseIsSafe(seen, old(s), s, g);
        return;
      }
      var h := g;
      if !g.finalizer {
        var ok;
        ok, h := AddFinalizerTo(g, seen);
        DriftFrom(seen, old(s), s, {});
        DriftIsSafe(seen, s);
        if !ok { return Failed, at; }
      }
      ghost var s3, was := s, |log|;
      r, at := ReconcileHeld(h, found);
      DriftRefl(seen);
      HeldIsSafe(seen, seen, s3, s, g, h);
      RecordCarries(seen, seen, s3, s, g, h);
      DriftIsQuiet(seen, s3, {});
      RevGrows(seen, s3, {});
      if !r.Failed? { SameCopyHeld(log, |old(log)|, was, r, g, h, at, MasterText(found)); }
      if r.DoneA? {
        OlderServedByA(s, h.uid, r.files, s3.key, seen.key, seen.rev, s3.rev);
      }
      if r.DoneB? {
        OlderBPublished(s, h.uid, r.policy, r.settled, r.master, seen.rev, s3.rev);
        PairsCarry(seen, s3, s, h.uid, CrossNs(r.policy));
      }
      if r == Waiting("PolicyNotAccepted") {
        DriftThenStatus(seen, s3, s);
      }
    }

    lemma SameCopyHeld(
      log: seq<Event>, since: nat, later: nat, r: Outcome, g: Gateway, h: Gateway, at: Readings, master: Option<string>)
      requires Legal(log) && since <= later && h.await == g.await && h.vanityFailed == g.vanityFailed
      requires ExplainedHeld(log, later, r, h, at, master)
      ensures ExplainedHeld(log, since, r, g, at, master)
    {
      hide At, After, ExplainedInA, ExplainedInB;
      if At(log, at.policy).policy.None? {
        SameCopyInA(log, at.policy, at.policy, r, g, h, at.key);
      }
    }

    method Reconcile(found: Inputs) returns (r: Outcome, ghost at: Readings)
      requires Valid()
      modifies this
      ensures old(log) <= log && faults >= old(faults) + if r.Failed? then 1 else 0
      ensures Valid() && Safe(old(s), s)
      // short of a fault, the outcome is decided by what was read: the Gateway, the policy, the key or the master
      ensures !r.Failed? ==> Explained(log, |old(log)|, r, at, found.managed, MasterText(found))
      ensures r.DoneB? && CrossNs(r.policy).Some? ==> found.granted
      // a completed Mode A reconcile leaves nothing of Mode B, the key in place, and exactly its address published
      ensures r.DoneA? ==> s.gw.Some? && ServedByA(s, s.gw.value.uid, r.files, old(s).key, old(s).rev)
      // a completed Mode B reconcile leaves nothing of Mode A, a keyed StatefulSet and one onion address
      ensures r.DoneB? ==> s.gw.Some? && BPublished(s, s.gw.value.uid, r.policy, r.settled, r.master, old(s).rev)
      ensures r.DoneB? && old(s).gw.Some? && OwnedNow(s, old(s).gw.value.uid) ==>
        s.gw.value.addresses == Merge(old(s).gw.value.addresses, r.master)
      // and a cross-namespace pair elsewhere exactly if the master is local and the pair was there before
      ensures r.DoneB? ==> forall ns | Some(ns) != CrossNs(r.policy) ::
        && (ns in s.roles <==> CrossNs(r.policy).None? && ns in old(s).roles)
        && (ns in s.bindings <==> CrossNs(r.policy).None? && ns in old(s).bindings)
      ensures r.Waiting? ==> s.gw.Some? && s.gw.value.programmed == NotProgrammed(r.reason)
      // an unaccepted policy is refused with a status and nothing else; the first three outcomes write nothing
      ensures r == Waiting("PolicyNotAccepted") ==> StatusPhase(old(s), s)
      ensures r.NotFound? || r.Unmanaged? || r.Leaving? ==> Drift(old(s), s, {})
      ensures r == Released ==> !Held(s)
      // a recorded harvest failure holds
      ensures (exists p :: RecordedNow(old(s), p)) && Undisturbed(old(s), s) ==> Uneventful(old(s), s)
    {
      hide Drift, Inv, Knows, Made, Uneventful, StatusPhase, NoModeA, NoModeB, ServedByA, ServedByB, Shrinks, SameLine;
      hide BPublished, ByPolicy, RandomAllowed, NoneOfA, NoneOfB, Safe, KeepsTo, Merge, ExplainedHeld, At, After;
      hide MasterText, RecordedNow, Undisturbed;
      var ok := Read();
      ghost var s1, read := s, log;
      AtNow(log);
      at := NoReadings(|log|);
      DriftIsSafe(old(s), s1);
      if !ok { return Failed, at; }
      if s.gw.None? { return NotFound, at; }
      var g := s.gw.value;
      ok := Read();   // the GatewayClass
      ghost var s2 := s;
      DriftFrom(old(s), s1, s2, {});
      DriftIsSafe(old(s), s2);
      AtSame(read, log, |read|);
      if !ok { return Failed, at; }
      if !found.managed { return Unmanaged, at; }
      ghost var seen := log;
      r, at := ReconcileManaged(g, found, s1);
      AtSame(read, log, |read|);
      if !r.Failed? && !g.deleting { EarlierHeld(log, |read|, |seen|, r, g, at, MasterText(found)); }
      at := at.(gateway := |read|);
      RecordedOverRead(old(s), s1, s);
      SafeChain(old(s), s1, s);
      DriftIsQuiet(old(s), s1, {});
      RevGrows(old(s), s1, {});
      if r.DoneA? {
        OlderServedByA(s, g.uid, r.files, s1.key, old(s).key, old(s).rev, s1.rev);
        ServedUid(s, g.uid, r.files, old(s).key, old(s).rev);
      }
      if r.DoneB? {
        OlderBPublished(s, g.uid, r.policy, r.settled, r.master, old(s).rev, s1.rev);
        SameAddresses(old(s), s1, g);
        PairsCarry(old(s), s1, s, g.uid, CrossNs(r.policy));
      }
      if r == Waiting("PolicyNotAccepted") {
        DriftThenStatus(old(s), s1, s);
      }
      if r.Leaving? {
        DriftFrom(old(s), s1, s, {});
      }
    }

    lemma EarlierHeld(
      log: seq<Event>, since: nat, later: nat, r: Outcome, g: Gateway, at: Readings, master: Option<string>)
      requires Legal(log) && since <= later && ExplainedHeld(log, later, r, g, at, master)
      ensures ExplainedHeld(log, since, r, g, at.(gateway := since), master)
    {
    }

    lemma RecordedOverRead(s: State, t: State, u: State)
      requires Inv(s) && Drift(s, t, {}) && Safe(t, u)
      requires (exists p :: RecordedNow(t, p)) && Undisturbed(t, u) ==> Uneventful(t, u)
      ensures (exists p :: RecordedNow(s, p)) && Undisturbed(s, u) ==> Uneventful(s, u)
    {
      hide Uneventful, ByPolicy, RandomAllowed;
      DriftIsSafe(s, t);
      RoundCarries(s, t, u);
    }

    lemma DriftIsSafe(s: State, t: State)
      requires Drift(s, t, {})
      ensures Safe(s, t) && Uneventful(s, t)
    {
      DriftUneventful(s, t, {});
      DriftByPolicy(s, t);
    }

    /** A release writes nothing a policy could object to: the Gateway is being deleted. */
    lemma ReleaseIsSafe(s: State, t: State, u: State, g: Gateway)
      requires Inv(s) && Drift(s, t, {}) && Knows(t, g) && g.deleting
      requires Uneventful(t, u) && NoneOfA(t, u) && NoneOfB(t, u)
      ensures Safe(s, u) && Uneventful(s, u)
    {
      DriftIsSafe(s, t);
      UneventfulChain(s, t, u);
      LineageThroughout(s, t, u);
      DriftMakesNone(s, t, {});
      NoneOfAChain(s, t, u);
      NoneOfBChain(s, t, u);
    }

    /** From the first read, in `t`, over the finalizer, in `u`, to the end. */
    lemma HeldIsSafe(s: State, t: State, u: State, v: State, g: Gateway, h: Gateway)
      requires Inv(s) && Inv(t) && t.gw == Some(g) && Drift(s, t, {}) && Drift(t, u, {}) && Drift(s, u, {})
      requires KeepsTo(u, v, h) && h.await == g.await
      ensures Safe(s, v)
    {
      hide ByPolicy, NoneOfA, NoneOfB;
      DriftIsSafe(s, u);
      DriftIsSafe(s, t);
      DriftIsSafe(t, u);
      SameLineChain(s, u, v);
      SameLineChain(t, u, v);
      LineOf(s, u);
      LineOf(u, v);
      ByPolicyChain(s, u, v);
      LineageThroughout(s, t, v);
    }

    /** What was recorded when the reconcile began is what it read, if the object and the prefix stayed. */
    lemma RecordCarries(s: State, t: State, u: State, v: State, g: Gateway, h: Gateway)
      requires Inv(s) && Inv(t) && t.gw == Some(g) && Drift(s, t, {}) && Drift(t, u, {}) && Drift(s, u, {})
      requires KeepsTo(u, v, h) && h.vanityFailed == g.vanityFailed
      ensures (exists p :: RecordedNow(s, p)) && Undisturbed(s, v) ==> Uneventful(s, v)
    {
      hide ByPolicy;
      DriftUneventful(s, t, {});
      DriftUneventful(t, u, {});
      DriftUneventful(s, u, {});
      if p :| RecordedNow(s, p) && Undisturbed(s, v) {
        SameLineChain(t, u, v);
        LineOf(t, v);
        LineOf(s, t);
        LineOf(u, v);
        LineageThroughout(s, t, v);
        assert RecordedIn(u, h);
        UneventfulChain(s, u, v);
      }
    }

    lemma SameAddresses(s: State, t: State, g: Gateway)
      requires Drift(s, t, {}) && t.gw == Some(g)
      ensures s.gw.Some? && s.gw.value.uid == g.uid ==> s.gw.value.addresses == g.addresses
    {
    }

    lemma DriftThenStatus(s: State, t: State, u: State)
      requires Inv(s) && Drift(s, t, {}) && StatusPhase(t, u)
      ensures StatusPhase(s, u)
    {
      DriftIsStatusPhase(s, t);
      StatusPhaseChain(s, t, u);
    }

    lemma FirstRead(s: State, t: State, g: Gateway)
      requires s.gw == Some(g) && g.finalizer && Drift(s, t, {})
      ensures Knows(t, g) && t.gw.value.vanityFailed == g.vanityFailed
    {
    }

    lemma ServedUid(t: State, uid: nat, files: KeyFiles, before: Option<KeySecret>, since: nat)
      requires ServedByA(t, uid, files, before, since)
      ensures t.gw.Some? && t.gw.value.uid == uid
    {
    }

    lemma OlderBPublished(t: State, uid: nat, pol: Policy, settled: bool, master: string, since: nat, since': nat)
      requires BPublished(t, uid, pol, settled, master, since') && since <= since'
      ensures BPublished(t, uid, pol, settled, master, since) && t.gw.Some? && t.gw.value.uid == uid
    {
      hide ServedByB;
      OlderServedByB(t, uid, pol.replicas, since, since', CrossNs(pol));
    }

    /**
     * Any number of reconciles, completed or aborted. While the object stays and nobody edits the prefix, a
     * recorded harvest failure keeps every one of them from creating a Job or a key.
     */
    method Operate(rounds: nat)
      requires Valid()
      modifies this
      ensures old(log) <= log && faults >= old(faults)
      ensures Valid() && Safe(old(s), s)
      ensures (exists p :: RecordedNow(old(s), p)) && Undisturbed(old(s), s) ==> s.harvests == old(s).harvests
    {
      hide Inv, Safe, SameLine, Lineage;
      ghost var start := s;
      DriftRefl(s);
      DriftIsSafe(s, s);
      for n := 0 to rounds
        invariant old(log) <= log && faults >= old(faults)
        invariant Valid() && Inv(start) && Safe(start, s)
        invariant (exists p :: RecordedNow(start, p)) && Undisturbed(start, s) ==> Uneventful(start, s)
      {
        ghost var before := s;
        var found: Inputs := *;
        var r;
        ghost var at;
        r, at := Reconcile(found);
        SafeLine(start, before);
        SafeLine(before, s);
        RoundCarries(start, before, s);
        SafeChain(start, before, s);
      }
    }

    /**
     * Two reconciles in a row. When both complete in the same mode for the same object on unedited inputs, the
     * second leaves the objects, their contents and the published addresses as the first did.
     */
    method ReconcileTwice(found: Inputs, found': Inputs) returns (r: Outcome, r': Outcome, ghost first: State)
      requires Valid()
      modifies this
      ensures old(log) <= log && faults >= old(faults)
      ensures Valid() && Safe(old(s), first) && Safe(first, s)
      ensures
        (&& r.DoneB? && r'.DoneB? && r.settled && r'.settled && r'.policy == r.policy && found'.master == found.master
         && s.rev == old(s).rev && first.gw.Some? && OwnedNow(s, first.gw.value.uid))
        ==> SameInB(first, s)
      ensures
        (&& r.DoneA? && r'.DoneA? && s.rev == old(s).rev && first.gw.Some? && OwnedNow(s, first.gw.value.uid)
         && first.key == Some(KeySecret.KeySecret(first.gw.value.uid, r.files))
         && s.tally.policyEdits == first.tally.policyEdits && first.policy.None?)
        ==> r'.files == r.files && s.key == first.key && SameInA(first, s)
    {
      hide Safe, BPublished, ServedByA, SameInA, SameInB, StatusPhase, Uneventful, Drift, Merge, Explained;
      hide Legal, After;
      ghost var at, at';
      r, at := Reconcile(found);
      first := s;
      if r.DoneB? { ExplainedMaster(log, |old(log)|, r, at, found.managed, MasterText(found)); }
      ghost var between := |log|;
      r', at' := Reconcile(found');
      if r'.DoneB? { ExplainedMaster(log, between, r', at', found'.managed, MasterText(found')); }
      SafeLine(old(s), first);
      SafeLine(first, s);
      if r.DoneB? && r'.DoneB? && r.settled && r'.settled && r'.policy == r.policy && found'.master == found.master &&
         s.rev == old(s).rev && OwnedNow(s, first.gw.value.uid)
      {
        TwiceInB(first, s, r.policy, r.master, s.rev);
      }
      if r.DoneA? && r'.DoneA? && s.rev == old(s).rev && OwnedNow(s, first.gw.value.uid) &&
         first.key == Some(KeySecret.KeySecret(first.gw.value.uid, r.files)) &&
         s.tally.policyEdits == first.tally.policyEdits && first.policy.None?
      {
        TwiceInA(first, s, r.files, r'.files, old(s).key, s.rev);
      }
    }

    /** A published master is the one the reconcile found. */
    lemma ExplainedMaster(
      log: seq<Event>, since: nat, r: Outcome, at: Readings, managed: bool, master: Option<string>)
      requires Legal(log) && Explained(log, since, r, at, managed, master) && r.DoneB?
      ensures master == Some(r.master)
    {
      hide At, After, KeyExplained;
    }

    static predicate SameInB(s: State, t: State) {
      && s.plain - {OnionbalanceConfig} == t.plain - {OnionbalanceConfig}
      && s.replicas == t.replicas && s.secrets.Keys == t.secrets.Keys && s.roles == t.roles && s.bindings == t.bindings
      && s.gw.Some? && t.gw.Some? && s.gw.value.addresses == t.gw.value.addresses
    }

    static predicate SameInA(s: State, t: State) {
      && s.plain - VANITY_REFS == t.plain - VANITY_REFS
      && s.gw.Some? && t.gw.Some? && s.gw.value.addresses == t.gw.value.addresses
    }

    lemma TwiceInB(s: State, t: State, pol: Policy, master: string, rev: nat)
      requires Inv(s) && Inv(t) && s.gw.Some? && t.gw.Some? && s.gw.value.uid == t.gw.value.uid && s.rev == t.rev == rev
      requires BPublished(s, s.gw.value.uid, pol, true, master, rev)
        && BPublished(t, s.gw.value.uid, pol, true, master, rev)
      requires t.gw.value.addresses == Merge(s.gw.value.addresses, master)
      requires forall ns | Some(ns) != CrossNs(pol) ::
        && (ns in t.roles <==> CrossNs(pol).None? && ns in s.roles)
        && (ns in t.bindings <==> CrossNs(pol).None? && ns in s.bindings)
      ensures SameInB(s, t)
    {
      hide Merge, BackendsKeyed, KeysParse, NoneRobbed, ServedByB;
      ModeBFixpoint(s, t, s.gw.value.uid, pol.replicas, rev, netPolicyEnabled, CrossNs(pol));
      MergeFixed(s.gw.value.addresses, master);
      if CrossNs(pol).None? {
        assert t.roles.Keys == s.roles.Keys && t.bindings.Keys == s.bindings.Keys;
      }
    }

    lemma TwiceInA(s: State, t: State, files: KeyFiles, files': KeyFiles, before: Option<KeySecret>, rev: nat)
      requires Inv(s) && Inv(t) && s.gw.Some? && t.gw.Some? && s.gw.value.uid == t.gw.value.uid && s.rev == t.rev == rev
      requires ServedByA(s, s.gw.value.uid, files, before, rev) && ServedByA(t, s.gw.value.uid, files', s.key, rev)
      requires s.key == Some(KeySecret.KeySecret(s.gw.value.uid, files)) && SameLine(s, t)
      requires s.tally.policyEdits == t.tally.policyEdits && s.policy.None?
      ensures files' == files && t.key == s.key && SameInA(s, t)
    {
      hide NoModeB, Made, OnionOf, Parses, CrossOwned, BackendsKeyed, KeysParse, NoneRobbed, Lineage, PodsSpared;
      assert KeyKept(s, t);
      ModeAFixpoint(s, t, s.gw.value.uid, files, before, s.key, rev);
    }

    lemma SafeLine(s: State, t: State)
      requires Safe(s, t)
      ensures SameLine(s, t)
    {
    }

    lemma SafeChain(s: State, t: State, u: State)
      requires Inv(s) && Safe(s, t) && Safe(t, u)
      ensures Safe(s, u)
    {
      hide ByPolicy, RandomAllowed;
      SameLineChain(s, t, u);
      ByPolicyChain(s, t, u);
      RandomAllowedChain(s, t, u);
    }

    lemma RoundCarries(s: State, t: State, u: State)
      requires Inv(s) && SameLine(s, t) && SameLine(t, u)
      requires (exists p :: RecordedNow(s, p)) && Undisturbed(s, t) ==> Uneventful(s, t)
      requires (exists p :: RecordedNow(t, p)) && Undisturbed(t, u) ==> Uneventful(t, u)
      ensures SameLine(s, u)
      ensures (exists p :: RecordedNow(s, p)) && Undisturbed(s, u) ==> Uneventful(s, u)
    {
      if p :| RecordedNow(s, p) && Undisturbed(s, u) {
        assert Undisturbed(s, t);
        assert RecordedNow(t, p);
        UneventfulChain(s, t, u);
      }
    }
  }
}
