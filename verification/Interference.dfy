/**
 * What can happen to the cluster between two API calls of one reconcile. A reconcile works on a copy
 * of the Gateway and on facts it has read; these relations say which of them stay true.
 */
module Interference {
  import opened Wrappers
  import opened Names
  import opened Protocol

  /** A later version of the same Gateway object, apart from annotations and status. */
  predicate LaterVersion(g: Gateway, h: Gateway) {
    && h.uid == g.uid && g.rv <= h.rv && (g.rv == h.rv ==> g == h)
    && (g.finalizer ==> h.finalizer) && (g.deleting ==> h.deleting)
  }

  /** ... with the harvest annotation and the status as they were. */
  predicate Later(g: Gateway, h: Gateway) {
    LaterVersion(g, h) && h.vanityFailed == g.vanityFailed && h.addresses == g.addresses && h.programmed == g.programmed
  }

  /** The Gateway object is not swapped for another one while it is held. */
  predicate SameObject(s: State, t: State) {
    && s.nextUid <= t.nextUid
    && (Held(s) ==> t.gw.Some? && t.gw.value.uid == s.gw.value.uid)
    && (t.gw.Some? ==> OwnedNow(s, t.gw.value.uid) || s.nextUid <= t.gw.value.uid)
  }

  predicate GatewayDrift(s: State, t: State) {
    SameObject(s, t) && (s.gw.Some? && OwnedNow(t, s.gw.value.uid) ==> Later(s.gw.value, t.gw.value))
  }

  predicate CounterDrift(s: State, t: State) {
    && s.rev <= t.rev && s.prefixEdits <= t.prefixEdits && (s.prefixEdits == t.prefixEdits ==> t.prefix == s.prefix)
    && s.outputs <= t.outputs
    && PolicyDrift(s, t) && TouchDrift(s, t)
  }

  /** Edits of the policy are counted. */
  predicate PolicyDrift(s: State, t: State) {
    && s.tally.policyEdits <= t.tally.policyEdits
    && (s.tally.policyEdits == t.tally.policyEdits ==> t.policy == s.policy)
    && (s.tally.accepted ==> t.tally.accepted)
  }

  /** And so are user writes to the Gateway object. */
  predicate TouchDrift(s: State, t: State) {
    && s.tally.touches <= t.tally.touches
    && (s.tally.touches == t.tally.touches && s.gw.Some? && OwnedNow(t, s.gw.value.uid) ==>
          t.gw.value.await == s.gw.value.await)
  }

  /** The Gateway's own key Secret stays while the Gateway does. */
  predicate KeyKept(s: State, t: State) {
    s.gw.Some? && s.key.Some? && s.key.value.owner == s.gw.value.uid && OwnedNow(t, s.gw.value.uid) ==> t.key == s.key
  }

  /** Mode A's own objects may only vanish, and the key Secret only when another object owns it. */
  predicate ModeADrift(s: State, t: State) {
    && (t.key.Some? ==> t.key == s.key)
    && KeyKept(s, t)
    && (t.out.Some? ==> s.out.Some?)
    && (t.job.Some? ==> s.job.Some? && t.job.value.prefix == s.job.value.prefix)
    && t.harvests == s.harvests && t.tally.randoms == s.tally.randoms
  }

  /** No reading of the replica counts, and no live pod robbed. */
  predicate SameReadings(s: State, t: State) {
    t.tally.licensed == s.tally.licensed && t.tally.misread == s.tally.misread && t.tally.robbed == s.tally.robbed
  }

  predicate BackendDrift(s: State, t: State) {
    && t.replicas == s.replicas && t.secrets == s.secrets
    && (s.replicas.None? && s.pods == {} ==> t.pods == {})
    && (Lowest(s) ==> Lowest(t))
    && SameReadings(s, t)
  }

  predicate CrossDrift(s: State, t: State) {
    t.roles == s.roles && t.bindings == s.bindings
  }

  /** Outside `w`, rendered children do not appear or change, and the current Gateway's own stay. */
  predicate PlainDrift(s: State, t: State, w: set<Ref>) {
    && (forall r | r in t.plain && r !in w :: r in s.plain && t.plain[r] == s.plain[r])
    && (Held(s) ==> forall r | r in s.plain && r !in w && s.plain[r].uid == s.gw.value.uid :: r in t.plain)
  }

  /** Everything the environment may do, plus operator writes to the rendered children in `w`. */
  predicate Drift(s: State, t: State, w: set<Ref>) {
    && GatewayDrift(s, t) && CounterDrift(s, t) && ModeADrift(s, t)
    && BackendDrift(s, t) && CrossDrift(s, t) && PlainDrift(s, t, w)
  }

  /** Cross-namespace objects are as they were, and the key Secret is, unless it has vanished. */
  predicate Quiet(s: State, t: State) {
    CrossDrift(s, t) && (t.key.Some? ==> t.key == s.key)
  }

  lemma DriftIsQuiet(s: State, t: State, w: set<Ref>)
    requires Drift(s, t, w)
    ensures Quiet(s, t)
  {
  }

  lemma EnvDrifts(s: State, e: Event)
    requires Inv(s) && EnvGuard(s, e)
    ensures Drift(s, EnvApply(s, e), {})
  {
    hide Inv, EnvGuard, EnvApply, GatewayDrift, CounterDrift, ModeADrift, BackendDrift, CrossDrift, PlainDrift;
    UidsFreshOf(s);
    EnvGatewayDrifts(s, e);
    EnvCounterDrifts(s, e);
    EnvModeADrifts(s, e);
    EnvBackendDrifts(s, e);
    EnvPlainDrifts(s, e);
  }

  lemma UidsFreshOf(s: State)
    requires Inv(s)
    ensures UidsFresh(s)
  {
  }

  lemma EnvCounterDrifts(s: State, e: Event)
    requires UidsFresh(s) && EnvGuard(s, e)
    ensures CounterDrift(s, EnvApply(s, e))
  {
    hide TouchDrift;
    EnvTouchDrifts(s, e);
  }

  lemma EnvTouchDrifts(s: State, e: Event)
    requires UidsFresh(s) && EnvGuard(s, e)
    ensures TouchDrift(s, EnvApply(s, e))
  {
  }

  lemma EnvModeADrifts(s: State, e: Event)
    requires EnvGuard(s, e)
    ensures ModeADrift(s, EnvApply(s, e))
  {
    hide EnvApply;
    EnvHarvest(s, e);
    EnvKey(s, e);
  }

  lemma EnvHarvest(s: State, e: Event)
    requires EnvGuard(s, e)
    ensures var t := EnvApply(s, e);
      (t.out.Some? ==> s.out.Some?) && t.harvests == s.harvests && t.tally.randoms == s.tally.randoms
    ensures var t := EnvApply(s, e); t.job.Some? ==> s.job.Some? && t.job.value.prefix == s.job.value.prefix
  {
    hide EnvApply;
    EnvCounts(s, e);
    EnvJob(s, e);
  }

  lemma EnvCounts(s: State, e: Event)
    requires EnvGuard(s, e)
    ensures var t := EnvApply(s, e);
      (t.out.Some? ==> s.out.Some?) && t.harvests == s.harvests && t.tally.randoms == s.tally.randoms
  {
  }

  lemma EnvJob(s: State, e: Event)
    requires EnvGuard(s, e)
    ensures var t := EnvApply(s, e); t.job.Some? ==> s.job.Some? && t.job.value.prefix == s.job.value.prefix
  {
  }

  lemma EnvKey(s: State, e: Event)
    requires EnvGuard(s, e)
    ensures var t := EnvApply(s, e); t.key == s.key || (e.KeyCollected? && t.key == None && t.gw == s.gw)
  {
  }

  lemma EnvBackendDrifts(s: State, e: Event)
    requires EnvGuard(s, e)
    ensures BackendDrift(s, EnvApply(s, e)) && CrossDrift(s, EnvApply(s, e))
  {
    hide EnvApply;
    EnvPods(s, e);
    EnvReadings(s, e);
  }

  lemma EnvPods(s: State, e: Event)
    requires EnvGuard(s, e)
    ensures EnvApply(s, e).secrets == s.secrets && CrossDrift(s, EnvApply(s, e))
  {
    hide EnvApply;
    EnvKeepsKeys(s, e);
    EnvCross(s, e);
  }

  lemma EnvCross(s: State, e: Event)
    requires EnvGuard(s, e)
    ensures CrossDrift(s, EnvApply(s, e))
  {
  }

  lemma EnvPlainDrifts(s: State, e: Event)
    requires EnvGuard(s, e)
    ensures PlainDrift(s, EnvApply(s, e), {})
  {
  }

  lemma EnvGatewayDrifts(s: State, e: Event)
    requires UidsFresh(s) && EnvGuard(s, e)
    ensures GatewayDrift(s, EnvApply(s, e))
  {
    match e
    case UserCreates(_) =>
    case UserDeletes =>
    case UserTouches(_) =>
    case Reaped =>
    case _ => assert EnvApply(s, e).gw == s.gw && EnvApply(s, e).nextUid == s.nextUid;
  }

  lemma PutDrifts(s: State, r: Ref, b: Built)
    requires OperatorGuard(s, Put(r, b))
    ensures Apply(s, Put(r, b)) == s.(plain := s.plain[r := b])
    ensures Drift(s, Apply(s, Put(r, b)), {r})
  {
    hide Parses, Populated;
  }

  lemma GatewayDriftTransitive(s: State, t: State, u: State)
    requires UidsFresh(s) && GatewayDrift(s, t) && GatewayDrift(t, u)
    ensures GatewayDrift(s, u)
  {
  }

  /** A Gateway that is there at the end was there all along. */
  lemma SameObjectThroughout(s: State, t: State, u: State)
    requires UidsFresh(s) && SameObject(s, t) && SameObject(t, u)
    ensures s.gw.Some? && OwnedNow(u, s.gw.value.uid) ==> OwnedNow(t, s.gw.value.uid)
  {
  }

  lemma CounterDriftTransitive(s: State, t: State, u: State)
    requires UidsFresh(s) && SameObject(s, t) && SameObject(t, u) && CounterDrift(s, t) && CounterDrift(t, u)
    ensures CounterDrift(s, u)
  {
    SameObjectThroughout(s, t, u);
  }

  lemma KeyKeptTransitive(s: State, t: State, u: State)
    requires UidsFresh(s) && SameObject(s, t) && SameObject(t, u) && KeyKept(s, t) && KeyKept(t, u)
    ensures KeyKept(s, u)
  {
    SameObjectThroughout(s, t, u);
  }

  lemma ModeADriftTransitive(s: State, t: State, u: State)
    requires UidsFresh(s) && SameObject(s, t) && SameObject(t, u) && ModeADrift(s, t) && ModeADrift(t, u)
    ensures ModeADrift(s, u)
  {
    hide KeyKept;
    KeyKeptTransitive(s, t, u);
  }

  lemma PlainDriftTransitive(s: State, t: State, u: State, w: set<Ref>, w': set<Ref>)
    requires GatewayDrift(s, t) && PlainDrift(s, t, w) && PlainDrift(t, u, w')
    ensures PlainDrift(s, u, w + w')
  {
  }

  lemma DriftTransitive(s: State, t: State, u: State, w: set<Ref>, w': set<Ref>)
    requires UidsFresh(s) && Drift(s, t, w) && Drift(t, u, w')
    ensures Drift(s, u, w + w')
  {
    hide CounterDrift, ModeADrift, PlainDrift;
    GatewayDriftTransitive(s, t, u);
    CounterDriftTransitive(s, t, u);
    ModeADriftTransitive(s, t, u);
    PlainDriftTransitive(s, t, u, w, w');
  }

  lemma DriftChain(s: State, t: State, u: State, w: set<Ref>)
    requires UidsFresh(s) && Drift(s, t, w) && Drift(t, u, w)
    ensures Drift(s, u, w)
  {
    DriftTransitive(s, t, u, w, w);
    assert w + w == w;
  }

  lemma DriftWidens(s: State, t: State, w: set<Ref>, w': set<Ref>)
    requires Drift(s, t, w) && w <= w'
    ensures Drift(s, t, w')
  {
  }

  lemma DriftRefl(s: State)
    ensures Drift(s, s, {})
  {
  }

  // ---------------------------------------------------------------- the reconcile's copy of the Gateway

  /** `g` is a copy of the live Gateway, perhaps an older version, taken once the finalizer was on. */
  predicate Knows(s: State, g: Gateway) {
    && g.finalizer && s.gw.Some? && LaterVersion(g, s.gw.value)
    && s.gw.value.addresses == g.addresses && s.gw.value.programmed == g.programmed
  }

  /** The key Secret is there and belongs to this very Gateway. */
  predicate OwnKey(s: State, g: Gateway) {
    s.key.Some? && s.key.value.owner == g.uid
  }

  /**
   * The key Secret holds `files` and belongs to the Gateway; or a Secret with these files was there `before`
   * and belongs to an earlier Gateway of the name, so that it may be collected.
   */
  predicate KeyHeld(t: State, uid: nat, files: KeyFiles, before: Option<KeySecret>) {
    || t.key == Some(KeySecret.KeySecret(uid, files))
    || (before.Some? && before.value.owner != uid && before.value.files == files && (t.key.Some? ==> t.key == before))
  }

  lemma KeyHeldStable(s: State, t: State, g: Gateway, files: KeyFiles, before: Option<KeySecret>)
    requires Knows(s, g) && OwnedNow(t, g.uid) && ModeADrift(s, t) && KeyHeld(s, g.uid, files, before)
    ensures KeyHeld(t, g.uid, files, before)
  {
  }

  lemma KnowsNow(s: State, g: Gateway)
    requires Knows(s, g)
    ensures Knows(s, s.gw.value) && s.gw.value.uid == g.uid
  {
  }

  /** The API server accepts a write based on `g`: its resourceVersion is the current one. */
  predicate Current(s: State, g: Gateway) {
    s.gw.Some? && s.gw.value.uid == g.uid && s.gw.value.rv == g.rv
  }

  lemma KnowsHeld(s: State, g: Gateway)
    requires Knows(s, g)
    ensures Held(s) && s.gw.value.uid == g.uid
    ensures s.gw.value.addresses == g.addresses && s.gw.value.programmed == g.programmed
  {
  }

  lemma KnowsStable(s: State, t: State, g: Gateway)
    requires Knows(s, g) && GatewayDrift(s, t)
    ensures Knows(t, g)
  {
  }

  // ---------------------------------------------------------------- deletions

  /** Objects may vanish; nothing appears and nothing that stays is changed. */
  predicate Shrinks(s: State, t: State) {
    && GatewayDrift(s, t) && CounterDrift(s, t) && t.harvests == s.harvests && t.tally.randoms == s.tally.randoms
    && t.tally.misread == s.tally.misread && t.tally.robbed == s.tally.robbed
    && (t.key.Some? ==> t.key == s.key)
    && (t.out.Some? ==> s.out.Some?) && (t.job.Some? ==> s.job.Some?)
    && (t.replicas.Some? ==> t.replicas == s.replicas) && (s.replicas.None? && s.pods == {} ==> t.pods == {})
    && t.secrets.Keys <= s.secrets.Keys && t.roles.Keys <= s.roles.Keys && t.bindings.Keys <= s.bindings.Keys
    && t.plain.Keys <= s.plain.Keys
  }

  lemma ShrinksTransitive(s: State, t: State, u: State)
    requires UidsFresh(s) && Shrinks(s, t) && Shrinks(t, u)
    ensures Shrinks(s, u)
  {
    hide CounterDrift;
    GatewayDriftTransitive(s, t, u);
    CounterDriftTransitive(s, t, u);
  }

  /** A cleanup that spares the Gateway's own key. */
  predicate Cleans(s: State, t: State) {
    Shrinks(s, t) && KeyKept(s, t)
  }

  lemma CleansTransitive(s: State, t: State, u: State)
    requires UidsFresh(s) && Cleans(s, t) && Cleans(t, u)
    ensures Cleans(s, u)
  {
    ShrinksTransitive(s, t, u);
    KeyKeptTransitive(s, t, u);
  }

  lemma DeletionShrinks(s: State, m: State, r: Ref)
    requires Drift(s, m, {}) && (r.BackendSecret? ==> r.index !in m.pods)
    ensures Cleans(s, m) && Shrinks(s, Without(m, r)) && (!r.KeySecret? ==> KeyKept(s, Without(m, r)))
  {
    hide Without, PlainDrift;
    WithoutOnly(m, r);
    assert m.plain.Keys <= s.plain.Keys by { PlainGrowsNot(s, m); }
  }

  lemma PlainGrowsNot(s: State, m: State)
    requires PlainDrift(s, m, {})
    ensures m.plain.Keys <= s.plain.Keys
  {
  }

  lemma WithoutOnly(m: State, r: Ref)
    ensures var t := Without(m, r);
      && t.gw == m.gw && t.nextUid == m.nextUid && t.rev == m.rev && t.harvests == m.harvests
      && t.prefix == m.prefix && t.prefixEdits == m.prefixEdits && t.outputs == m.outputs
      && (t.key.Some? ==> t.key == m.key) && (t.out.Some? ==> t.out == m.out) && (t.job.Some? ==> t.job == m.job)
      && (t.replicas.Some? ==> t.replicas == m.replicas) && (t.pods == m.pods || t.pods == {})
      && t.secrets.Keys <= m.secrets.Keys && t.roles.Keys <= m.roles.Keys && t.bindings.Keys <= m.bindings.Keys
      && t.plain.Keys <= m.plain.Keys && t.policy == m.policy
      && (!r.KeySecret? ==> t.key == m.key)
      && t.tally == m.tally.(robbed := t.tally.robbed)
      && ((r.BackendSecret? ==> r.index !in m.pods) ==> t.tally == m.tally)
  {
  }

  lemma GoneStaysGone(s: State, t: State, r: Ref)
    requires Shrinks(s, t) && !Exists(s, r)
    ensures !Exists(t, r)
  {
  }

  /** Only cross-namespace objects are deleted, and none in the namespaces of `keep`. */
  predicate CrossShrinks(s: State, t: State, keep: set<string>) {
    && GatewayDrift(s, t) && CounterDrift(s, t) && ModeADrift(s, t) && BackendDrift(s, t) && PlainDrift(s, t, {})
    && t.roles.Keys <= s.roles.Keys && t.bindings.Keys <= s.bindings.Keys
    && s.roles.Keys * keep <= t.roles.Keys && s.bindings.Keys * keep <= t.bindings.Keys
  }

  lemma CrossShrinksTransitive(s: State, t: State, u: State, keep: set<string>)
    requires UidsFresh(s) && CrossShrinks(s, t, keep) && CrossShrinks(t, u, keep)
    ensures CrossShrinks(s, u, keep)
  {
    hide CounterDrift, ModeADrift, PlainDrift;
    GatewayDriftTransitive(s, t, u);
    CounterDriftTransitive(s, t, u);
    ModeADriftTransitive(s, t, u);
    PlainDriftTransitive(s, t, u, {}, {});
    var none: set<Ref> := {};
    assert none + none == none;
  }

  lemma CrossDeletionShrinks(s: State, m: State, r: Ref, keep: set<string>)
    requires Drift(s, m, {})
    requires (r.CrossRole? && r.ns !in keep) || (r.CrossBinding? && r.ns !in keep)
    ensures CrossShrinks(s, m, keep) && CrossShrinks(s, Without(m, r), keep)
  {
  }

  lemma DriftIsCrossShrink(s: State, m: State, keep: set<string>)
    requires Drift(s, m, {})
    ensures CrossShrinks(s, m, keep)
  {
  }

  lemma CrossShrinkIsShrink(s: State, t: State, keep: set<string>)
    requires CrossShrinks(s, t, keep)
    ensures Cleans(s, t)
  {
  }

  // ---------------------------------------------------------------- what a completed mode looks like

  const ROUTER_REFS: set<Ref> := {RouterAccount, RouterRole, RouterBinding}
  const MODE_A_REFS: set<Ref> := {Deployment, Service, TorrcConfig}
  const VANITY_REFS: set<Ref> := {VanityAccount, VanityRole, VanityBinding}
  const MODE_B_REFS: set<Ref> :=
    {Frontend, BackendService, FrontendTorrc, BackendTorrc, FrontendAccount, FrontendRole, FrontendBinding}

  /** No object that only Mode A uses. */
  predicate NoModeA(s: State) {
    s.key.None? && s.out.None? && s.job.None? && s.plain.Keys !! MODE_A_REFS && s.plain.Keys !! VANITY_REFS
  }

  /** No object that only Mode B uses, in any namespace. */
  predicate NoModeB(s: State) {
    && s.replicas.None? && s.pods == {} && s.secrets == map[] && s.roles == map[] && s.bindings == map[]
    && s.plain.Keys !! MODE_B_REFS && OnionbalanceConfig !in s.plain
  }

  /** Each child in `refs` is there, rendered for this Gateway and replica count from inputs no older than `since`. */
  predicate Made(s: State, refs: set<Ref>, uid: nat, since: nat, replicas: Option<nat>) {
    forall r | r in refs ::
      r in s.plain && s.plain[r].uid == uid && s.plain[r].replicas == replicas && since <= s.plain[r].rev <= s.rev
  }

  /** Everything but backends and cross-namespace objects drifts. */
  predicate Apart(s: State, t: State, w: set<Ref>) {
    GatewayDrift(s, t) && CounterDrift(s, t) && ModeADrift(s, t) && PlainDrift(s, t, w)
  }

  lemma ApartTransitive(s: State, t: State, u: State, w: set<Ref>, w': set<Ref>)
    requires UidsFresh(s) && Apart(s, t, w) && Apart(t, u, w')
    ensures Apart(s, u, w + w')
  {
    hide CounterDrift, ModeADrift, PlainDrift;
    GatewayDriftTransitive(s, t, u);
    CounterDriftTransitive(s, t, u);
    ModeADriftTransitive(s, t, u);
    PlainDriftTransitive(s, t, u, w, w');
  }

  lemma MadeStable(s: State, t: State, w: set<Ref>, refs: set<Ref>, g: Gateway, since: nat, replicas: Option<nat>)
    requires Knows(s, g) && Apart(s, t, w) && refs !! w && Made(s, refs, g.uid, since, replicas)
    ensures Made(t, refs, g.uid, since, replicas)
  {
  }

  lemma MadeUnion(s: State, a: set<Ref>, b: set<Ref>, uid: nat, since: nat, since': nat, replicas: Option<nat>)
    requires Made(s, a, uid, since, replicas) && Made(s, b, uid, since', replicas) && since <= since'
    ensures Made(s, a + b, uid, since, replicas)
  {
  }

  lemma NoModeAStable(s: State, t: State, w: set<Ref>)
    requires Apart(s, t, w) && NoModeA(s) && w !! MODE_A_REFS && w !! VANITY_REFS
    ensures NoModeA(t)
  {
  }

  lemma NoModeBStable(s: State, t: State, w: set<Ref>)
    requires Drift(s, t, w) && NoModeB(s) && w !! MODE_B_REFS && OnionbalanceConfig !in w
    ensures NoModeB(t)
  {
  }

  // ---------------------------------------------------------------- phases of Mode B

  /** Cross-namespace objects may change. */
  predicate CrossPhase(s: State, t: State) {
    Apart(s, t, {}) && BackendDrift(s, t)
  }

  /** Backend Secrets may be added; those there keep their bytes. */
  predicate SecretPhase(s: State, t: State) {
    && Apart(s, t, {}) && CrossDrift(s, t) && SameReadings(s, t) && t.replicas == s.replicas
    && forall i | i in s.secrets :: i in t.secrets && t.secrets[i] == s.secrets[i]
  }

  /** The StatefulSet's spec may change. */
  predicate ScalePhase(s: State, t: State) {
    && Apart(s, t, {}) && CrossDrift(s, t) && t.secrets == s.secrets
    && (s.replicas.Some? ==> t.replicas.Some?)
    && t.tally.misread == s.tally.misread && t.tally.robbed == s.tally.robbed
  }

  /** Backend Secrets from index `n` on may go. */
  predicate CollectPhase(s: State, t: State, n: nat) {
    && Apart(s, t, {}) && CrossDrift(s, t) && t.replicas == s.replicas
    && (Lowest(s) ==> Lowest(t))
    && t.secrets.Keys <= s.secrets.Keys
    && forall i | i in s.secrets && i < n :: i in t.secrets && t.secrets[i] == s.secrets[i]
  }

  lemma ApartChain(s: State, t: State, u: State)
    requires UidsFresh(s) && Apart(s, t, {}) && Apart(t, u, {})
    ensures Apart(s, u, {})
  {
    ApartTransitive(s, t, u, {}, {});
    var none: set<Ref> := {};
    assert none + none == none;
  }

  lemma DriftIsPhase(s: State, t: State, n: nat)
    requires Drift(s, t, {})
    ensures CrossPhase(s, t) && SecretPhase(s, t) && ScalePhase(s, t) && CollectPhase(s, t, n)
  {
  }

  lemma CrossPhaseChain(s: State, t: State, u: State)
    requires UidsFresh(s) && CrossPhase(s, t) && CrossPhase(t, u)
    ensures CrossPhase(s, u)
  {
    ApartChain(s, t, u);
  }

  lemma SecretPhaseChain(s: State, t: State, u: State)
    requires UidsFresh(s) && SecretPhase(s, t) && SecretPhase(t, u)
    ensures SecretPhase(s, u)
  {
    ApartChain(s, t, u);
  }

  lemma ScalePhaseChain(s: State, t: State, u: State)
    requires UidsFresh(s) && ScalePhase(s, t) && ScalePhase(t, u)
    ensures ScalePhase(s, u)
  {
    ApartChain(s, t, u);
  }

  lemma CollectPhaseChain(s: State, t: State, u: State, n: nat)
    requires UidsFresh(s) && CollectPhase(s, t, n) && CollectPhase(t, u, n)
    ensures CollectPhase(s, u, n)
  {
    ApartChain(s, t, u);
  }

  lemma CrossWrites(s: State, ns: string)
    requires Held(s)
    ensures Guard(s, PutRole(ns)) && Apply(s, PutRole(ns)) == s.(roles := s.roles[ns := s.gw.value.uid])
    ensures Guard(s, PutBinding(ns)) && Apply(s, PutBinding(ns)) == s.(bindings := s.bindings[ns := s.gw.value.uid])
    ensures CrossPhase(s, Apply(s, PutRole(ns))) && CrossPhase(s, Apply(s, PutBinding(ns)))
  {
    hide Parses, Populated;
  }

  lemma SecretWrites(s: State, i: nat, f: KeyFiles)
    requires Held(s) && Parses(f) && (i in s.secrets ==> s.secrets[i] == f)
    ensures Guard(s, WriteSecret(i, f)) && SecretPhase(s, Apply(s, WriteSecret(i, f)))
    ensures i in Apply(s, WriteSecret(i, f)).secrets
  {
    hide Parses, Populated;
  }

  lemma ScaleWrites(s: State, n: nat)
    requires Held(s) && forall i | 0 <= i < n :: i in s.secrets
    ensures Guard(s, SetReplicas(n)) && Apply(s, SetReplicas(n)).replicas == Some(n)
    ensures ScalePhase(s, Apply(s, SetReplicas(n)))
  {
    hide Parses, Populated;
  }

  lemma SecretDeletionCollects(s: State, m: State, i: nat, n: nat)
    requires Drift(s, m, {}) && n <= i
    ensures CollectPhase(s, m, n) && CollectPhase(s, Without(m, BackendSecret(i)), n)
  {
  }

  // ---------------------------------------------------------------- status writes

  /** The Gateway's status may be written; the rest drifts. */
  predicate StatusPhase(s: State, t: State) {
    && SameObject(s, t)
    && (s.gw.Some? && OwnedNow(t, s.gw.value.uid) ==>
          LaterVersion(s.gw.value, t.gw.value) && t.gw.value.vanityFailed == s.gw.value.vanityFailed)
    && CounterDrift(s, t) && ModeADrift(s, t) && BackendDrift(s, t) && CrossDrift(s, t) && PlainDrift(s, t, {})
  }

  lemma DriftIsStatusPhase(s: State, t: State)
    requires Drift(s, t, {})
    ensures StatusPhase(s, t)
  {
  }

  lemma StatusPhaseChain(s: State, t: State, u: State)
    requires UidsFresh(s) && StatusPhase(s, t) && StatusPhase(t, u)
    ensures StatusPhase(s, u)
  {
    hide CounterDrift, ModeADrift;
    SameObjectThroughout(s, t, u);
    CounterDriftTransitive(s, t, u);
    ModeADriftTransitive(s, t, u);
  }

  lemma StatusWrites(s: State, a: seq<string>, p: Programmed)
    requires s.gw.Some?
    ensures Guard(s, SetStatus(a, p)) && StatusPhase(s, Apply(s, SetStatus(a, p)))
    ensures Apply(s, SetStatus(a, p)) == Write(s, s.gw.value.(addresses := a, programmed := p))
  {
    hide Parses, Populated;
  }

  lemma NoteDrifts(s: State, last: Option<nat>)
    requires s.gw.Some?
    ensures Guard(s, NoteReplicas(last)) && Drift(s, Apply(s, NoteReplicas(last)), {})
  {
    hide Parses, Populated;
  }

  /** A Gateway fully provisioned in Mode B. */
  predicate ServedByB(s: State, uid: nat, n: nat, since: nat, netPolicy: bool, crossNs: Option<string>) {
    && OwnedNow(s, uid) && Held(s)
    && NoModeA(s)
    && Made(s, MODE_B_REFS + ROUTER_REFS, uid, since, Some(n))
    && (if netPolicy then Made(s, {NetPolicy}, uid, since, Some(n)) else NetPolicy !in s.plain)
    && s.replicas == Some(n) && (forall i | 0 <= i < n :: i in s.secrets)
    && (crossNs.Some? ==> s.roles == map[crossNs.value := uid] && s.bindings == map[crossNs.value := uid])
  }

  lemma ServedByBStable(s: State, t: State, uid: nat, n: nat, since: nat, netPolicy: bool, crossNs: Option<string>)
    requires ServedByB(s, uid, n, since, netPolicy, crossNs) && StatusPhase(s, t)
    ensures ServedByB(t, uid, n, since, netPolicy, crossNs)
  {
  }

  // ---------------------------------------------------------------- the key and its harvest

  /** The key, the harvest objects and the harvest annotation may change; the rest drifts. */
  predicate HarvestPhase(s: State, t: State) {
    && SameObject(s, t)
    && (s.gw.Some? && OwnedNow(t, s.gw.value.uid) ==>
          && LaterVersion(s.gw.value, t.gw.value)
          && t.gw.value.addresses == s.gw.value.addresses && t.gw.value.programmed == s.gw.value.programmed)
    && CounterDrift(s, t) && BackendDrift(s, t) && CrossDrift(s, t) && PlainDrift(s, t, VANITY_REFS) && KeyKept(s, t)
    && s.tally.randoms <= t.tally.randoms
  }

  lemma DriftIsHarvestPhase(s: State, t: State, w: set<Ref>)
    requires Drift(s, t, w) && w <= VANITY_REFS
    ensures HarvestPhase(s, t) && t.tally.randoms == s.tally.randoms
  {
  }

  lemma HarvestPhaseChain(s: State, t: State, u: State)
    requires UidsFresh(s) && HarvestPhase(s, t) && HarvestPhase(t, u)
    ensures HarvestPhase(s, u)
  {
    hide CounterDrift, KeyKept;
    SameObjectThroughout(s, t, u);
    CounterDriftTransitive(s, t, u);
    KeyKeptTransitive(s, t, u);
  }

  lemma HarvestPhaseKnows(s: State, t: State, g: Gateway)
    requires Knows(s, g) && HarvestPhase(s, t)
    ensures Knows(t, g)
  {
  }

  lemma HarvestPhaseKeepsNoModeB(s: State, t: State)
    requires NoModeB(s) && HarvestPhase(s, t)
    ensures NoModeB(t)
  {
  }

  predicate HarvestWrite(e: Event) {
    e.CreateKey? || e.CreateOutput? || e.CreateJob? || e.Annotate? || e == Delete(VanityJob) || e == Delete(VanityOut)
  }

  lemma HarvestWrites(s: State, e: Event)
    requires OperatorGuard(s, e) && HarvestWrite(e)
    ensures Guard(s, e) && HarvestPhase(s, Apply(s, e))
    ensures e.CreateKey? ==> Apply(s, e).key == Some(KeySecret.KeySecret(s.gw.value.uid, e.files))
    ensures !e.CreateKey? ==> Apply(s, e).key == s.key
    ensures Apply(s, e).outputs >= s.outputs
    ensures !e.CreateKey? || e.harvested ==> Apply(s, e).tally.randoms == s.tally.randoms
    ensures e.CreateKey? && !e.harvested ==> Apply(s, e).tally.randoms == s.tally.randoms + 1
    ensures e.Annotate? ==> Apply(s, e).gw == Some(s.gw.value.(vanityFailed := e.failed, rv := s.gw.value.rv + 1))
    ensures Apply(s, e).job ==
            if e.CreateJob? then Some(Job(e.prefix, false)) else if e == Delete(VanityJob) then None else s.job
    ensures e.CreateOutput? ==> Apply(s, e).out.Some?
  {
    hide Parses, Populated;
  }

  lemma HarvestDeletion(s: State, m: State, r: Ref)
    requires Drift(s, m, {}) && (r.VanityJob? || r.VanityOut?)
    ensures HarvestPhase(s, m) && HarvestPhase(s, Without(m, r))
    ensures m.key.Some? ==> m.key == s.key
    ensures Without(m, r).key == m.key && Without(m, r).outputs == m.outputs >= s.outputs
    ensures Without(m, r).tally.randoms == s.tally.randoms
  {
  }

  // ---------------------------------------------------------------- harvest history

  /** Gateway objects come and go with fresh UIDs; edits of the inputs are counted. */
  predicate Lineage(s: State, t: State) {
    && s.nextUid <= t.nextUid
    && (t.gw.Some? ==> OwnedNow(s, t.gw.value.uid) || s.nextUid <= t.gw.value.uid)
    && s.prefixEdits <= t.prefixEdits && (s.prefixEdits == t.prefixEdits ==> t.prefix == s.prefix)
    && s.rev <= t.rev && PolicyDrift(s, t) && TouchDrift(s, t) && s.tally.randoms <= t.tally.randoms
    && (s.gw.Some? && OwnedNow(t, s.gw.value.uid) && s.gw.value.deleting ==> t.gw.value.deleting)
  }

  /** No live pod was robbed unless agreeing replica counts were read while other pods than the lowest were alive. */
  predicate PodsSpared(s: State, t: State) {
    s.tally.misread <= t.tally.misread && (s.tally.misread == t.tally.misread ==> t.tally.robbed == s.tally.robbed)
  }

  /**
   * What every reconcile keeps, however it ends: lineage, live pods' keys, and, while the policy is not edited
   * and does not ask for Mode B, the Gateway's own key.
   */
  predicate SameLine(s: State, t: State) {
    && Lineage(s, t) && PodsSpared(s, t)
    && (s.tally.policyEdits == t.tally.policyEdits && !IsAccepted(s.policy) ==> KeyKept(s, t))
  }

  /** No Job and no key Secret was created, and the Gateway's harvest annotation is as it was. */
  predicate Uneventful(s: State, t: State) {
    && SameLine(s, t) && t.harvests == s.harvests && t.tally.randoms == s.tally.randoms
    && (s.gw.Some? && OwnedNow(t, s.gw.value.uid) ==> t.gw.value.vanityFailed == s.gw.value.vanityFailed)
  }

  /** A Gateway that is there at the end was there all along. */
  lemma LineageThroughout(s: State, t: State, u: State)
    requires UidsFresh(s) && Lineage(s, t) && Lineage(t, u)
    ensures s.gw.Some? && OwnedNow(u, s.gw.value.uid) ==> OwnedNow(t, s.gw.value.uid)
    ensures Lineage(s, u)
  {
  }

  lemma SameLineChain(s: State, t: State, u: State)
    requires UidsFresh(s) && SameLine(s, t) && SameLine(t, u)
    ensures SameLine(s, u)
  {
    LineageThroughout(s, t, u);
  }

  lemma HarvestSameLine(s: State, t: State)
    requires HarvestPhase(s, t)
    ensures SameLine(s, t) && KeyKept(s, t)
  {
  }

  lemma DropFinalizerUneventful(s: State)
    requires OperatorGuard(s, DropFinalizer)
    ensures Guard(s, DropFinalizer) && Uneventful(s, Apply(s, DropFinalizer))
    ensures NoneOfA(s, Apply(s, DropFinalizer)) && NoneOfB(s, Apply(s, DropFinalizer))
  {
    hide Parses, Populated;
  }

  lemma UneventfulChain(s: State, t: State, u: State)
    requires UidsFresh(s) && Uneventful(s, t) && Uneventful(t, u)
    ensures Uneventful(s, u)
  {
    hide SameLine;
    SameLineChain(s, t, u);
    assert Lineage(s, t) && Lineage(t, u) by { LineOf(s, t); LineOf(t, u); }
    LineageThroughout(s, t, u);
  }

  lemma LineOf(s: State, t: State)
    requires SameLine(s, t)
    ensures Lineage(s, t)
  {
  }

  lemma DriftUneventful(s: State, t: State, w: set<Ref>)
    requires Drift(s, t, w)
    ensures Uneventful(s, t)
  {
  }

  lemma StatusUneventful(s: State, t: State)
    requires StatusPhase(s, t)
    ensures Uneventful(s, t)
  {
  }

  lemma ShrinksUneventful(s: State, t: State)
    requires Shrinks(s, t) && (KeyKept(s, t) || IsAccepted(s.policy))
    ensures Uneventful(s, t)
  {
  }

  // ---------------------------------------------------------------- which mode's objects may appear

  /** No object that only Mode B uses has appeared. */
  predicate NoneOfB(s: State, t: State) {
    && (t.replicas.Some? ==> t.replicas == s.replicas) && t.secrets.Keys <= s.secrets.Keys
    && t.roles.Keys <= s.roles.Keys && t.bindings.Keys <= s.bindings.Keys
    && forall r | r in MODE_B_REFS && r in t.plain :: r in s.plain
  }

  /** No object that only Mode A uses has appeared. */
  predicate NoneOfA(s: State, t: State) {
    && (t.key.Some? ==> t.key == s.key) && (t.out.Some? ==> s.out.Some?) && (t.job.Some? ==> s.job.Some?)
    && t.harvests == s.harvests
    && (forall r | r in MODE_A_REFS && r in t.plain :: r in s.plain)
    && forall r | r in VANITY_REFS && r in t.plain :: r in s.plain
  }

  /** The StatefulSet stays. */
  predicate BackendsStay(s: State, t: State) {
    s.replicas.Some? ==> t.replicas.Some?
  }

  lemma DriftMakesNone(s: State, t: State, w: set<Ref>)
    requires Drift(s, t, w)
    ensures w !! MODE_B_REFS ==> NoneOfB(s, t)
    ensures w !! MODE_A_REFS && w !! VANITY_REFS ==> NoneOfA(s, t)
  {
  }

  lemma StatusMakesNone(s: State, t: State)
    requires StatusPhase(s, t)
    ensures NoneOfA(s, t) && NoneOfB(s, t)
  {
  }

  lemma ShrinksMakesNone(s: State, t: State)
    requires Shrinks(s, t)
    ensures NoneOfA(s, t) && NoneOfB(s, t)
  {
  }

  lemma HarvestMakesNoneOfB(s: State, t: State)
    requires HarvestPhase(s, t)
    ensures NoneOfB(s, t)
  {
  }

  /** The same Gateway object, not being deleted. */
  predicate KeptAlive(s: State, t: State) {
    s.gw.Some? && OwnedNow(t, s.gw.value.uid) && !t.gw.value.deleting
  }

  predicate IsRefused(p: Option<Policy>) {
    p.Some? && !p.value.accepted
  }

  /**
   * While the policy is not edited it decides what may appear, however reconciles end: under an accepted
   * policy nothing of Mode A, and the StatefulSet stays; without a policy nothing of Mode B; and under a policy
   * that is not accepted nothing is written but a status; the latter as long as the Gateway is not deleted.
   */
  predicate ByPolicy(s: State, t: State) {
    s.tally.policyEdits == t.tally.policyEdits ==>
      && (IsAccepted(s.policy) ==> NoneOfA(s, t) && (KeptAlive(s, t) ==> BackendsStay(s, t)))
      && (s.policy.None? ==> NoneOfB(s, t))
      && (IsRefused(s.policy) && KeptAlive(s, t) ==> StatusPhase(s, t))
  }

  lemma ByPolicyChain(s: State, t: State, u: State)
    requires UidsFresh(s) && Lineage(s, t) && Lineage(t, u) && ByPolicy(s, t) && ByPolicy(t, u)
    ensures ByPolicy(s, u)
  {
    hide StatusPhase, NoneOfA, NoneOfB;
    LineageThroughout(s, t, u);
    if NoneOfA(s, t) && NoneOfA(t, u) { NoneOfAChain(s, t, u); }
    if NoneOfB(s, t) && NoneOfB(t, u) { NoneOfBChain(s, t, u); }
    if StatusPhase(s, t) && StatusPhase(t, u) { StatusPhaseChain(s, t, u); }
  }

  lemma NoneOfAChain(s: State, t: State, u: State)
    requires NoneOfA(s, t) && NoneOfA(t, u)
    ensures NoneOfA(s, u)
  {
  }

  lemma NoneOfBChain(s: State, t: State, u: State)
    requires NoneOfB(s, t) && NoneOfB(t, u)
    ensures NoneOfB(s, u)
  {
  }

  /**
   * A random key is made only when the Gateway does not wait for a prefix and none is requested, and only
   * without a policy; each as long as nobody edited the input in question meanwhile.
   */
  predicate RandomAllowed(s: State, t: State) {
    s.tally.randoms < t.tally.randoms && s.gw.Some? && OwnedNow(t, s.gw.value.uid) ==>
      && (s.tally.touches == t.tally.touches ==> !s.gw.value.await)
      && (s.prefixEdits == t.prefixEdits ==> s.prefix == "")
      && (s.tally.policyEdits == t.tally.policyEdits ==> s.policy.None?)
  }

  lemma RandomAllowedChain(s: State, t: State, u: State)
    requires UidsFresh(s) && Lineage(s, t) && Lineage(t, u) && RandomAllowed(s, t) && RandomAllowed(t, u)
    ensures RandomAllowed(s, u)
  {
    LineageThroughout(s, t, u);
  }

  // ---------------------------------------------------------------- reconciling again changes nothing

  lemma RenderedRefs(r: Ref)
    requires Rendered(r)
    ensures r in MODE_A_REFS + VANITY_REFS + MODE_B_REFS + ROUTER_REFS + {NetPolicy, OnionbalanceConfig}
  {
  }

  lemma PlainOfModeB(s: State, uid: nat, n: nat, rev: nat, netPolicy: bool, crossNs: Option<string>, r: Ref)
    requires ServedByB(s, uid, n, rev, netPolicy, crossNs) && s.rev == rev && PlainRendered(s)
    ensures r in s.plain && r != OnionbalanceConfig <==>
      r in MODE_B_REFS || r in ROUTER_REFS || (netPolicy && r == NetPolicy)
    ensures r in s.plain && r != OnionbalanceConfig ==> s.plain[r] == Built(uid, rev, Some(n))
  {
    hide Rendered;
    if r in s.plain {
      RenderedRefs(r);
    }
    assert r in MODE_A_REFS || r in VANITY_REFS ==> r !in s.plain.Keys;
  }

  /**
   * Two completed, settled Mode B reconciles on the same inputs leave the same objects with the same
   * contents, whatever happened in between; the bytes of the key Secrets are WantedKeyIsStable's business.
   * The config map of an older release is never written. With the master Secret in the Gateway's own
   * namespace the reconcile leaves the cross-namespace objects alone, see Controller.EnsureModeB.
   */
  lemma ModeBFixpoint(s: State, t: State, uid: nat, n: nat, rev: nat, netPolicy: bool, crossNs: Option<string>)
    requires PlainRendered(s) && PlainRendered(t) && s.rev == t.rev == rev
    requires ServedByB(s, uid, n, rev, netPolicy, crossNs) && forall i | i in s.secrets :: i < n
    requires ServedByB(t, uid, n, rev, netPolicy, crossNs) && forall i | i in t.secrets :: i < n
    ensures s.plain - {OnionbalanceConfig} == t.plain - {OnionbalanceConfig}
    ensures s.replicas == t.replicas && s.secrets.Keys == t.secrets.Keys
    ensures crossNs.Some? ==> s.roles == t.roles && s.bindings == t.bindings
    ensures s.key == t.key && s.out == t.out && s.job == t.job
  {
    hide Made, PlainRendered;
    var a, b := s.plain - {OnionbalanceConfig}, t.plain - {OnionbalanceConfig};
    forall r
      ensures r in a <==> r in b
      ensures r in a ==> a[r] == b[r]
    {
      PlainOfModeB(s, uid, n, rev, netPolicy, crossNs, r);
      PlainOfModeB(t, uid, n, rev, netPolicy, crossNs, r);
    }
  }
}
