/**
 * One Gateway and everything the operator makes for it, as a transition system. A run is a log of
 * events: moves of the environment (users, the StatefulSet controller, the harvest Job, the API
 * server) and single API writes of the operator. `Guard` says when an event may happen; for operator
 * events the guard is the condition the order of calls in the reconciler has to establish.
 */
module Protocol {
  import opened Wrappers
  import opened Names
  import Base32
  import Keys

  // ---------------------------------------------------------------- state

  datatype KeyFiles = KeyFiles(secret: seq<Base32.Byte>, public: seq<Base32.Byte>)

  const EMPTY_FILES := KeyFiles([], [])

  predicate Parses(f: KeyFiles) {
    Keys.ParseFiles(f.secret, f.public).Ok?
  }

  function FilesOf(k: Keys.KeyPair): KeyFiles {
    KeyFiles(k.SecretKeyFile(), k.PublicKeyFile())
  }

  lemma FilesOfParse(k: Keys.KeyPair)
    requires k.Valid()
    ensures Keys.ParseFiles(FilesOf(k).secret, FilesOf(k).public) == Ok(k) && Parses(FilesOf(k))
  {
    Keys.ParseFilesExactly(FilesOf(k).secret, FilesOf(k).public, k);
  }

  /** Both files of the exact on-disk size. */
  predicate Populated(f: KeyFiles) {
    |f.secret| == Keys.SECRET_FILE_SIZE && |f.public| == Keys.PUBLIC_FILE_SIZE
  }

  datatype Programmed = Unset | NotProgrammed(reason: string) | Programmed

  datatype Gateway = Gateway(
    uid: nat, rv: nat, finalizer: bool, deleting: bool, await: bool,
    vanityFailed: Option<string>, lastReplicas: Option<nat>,
    addresses: seq<string>, programmed: Programmed)

  /** An OnionBalancePolicy as far as the reconciler reads it. */
  datatype Policy = Policy(accepted: bool, replicas: nat, masterNs: string)

  /** What a manifest was rendered from: the owner, a revision of the other inputs, the replica count. */
  datatype Built = Built(uid: nat, rev: nat, replicas: Option<nat>)

  datatype Job = Job(prefix: string, failed: bool)

  datatype KeySecret = KeySecret(owner: nat, files: KeyFiles)

  /** What has happened so far, kept for the sake of the results about whole runs. */
  datatype Tally = Tally(
    policyEdits: nat,                   // edits of the policy
    accepted: bool,                     // an accepted policy has been there
    touches: nat,                       // user writes to the Gateway object
    randoms: nat,                       // random keys created
    licensed: bool,                     // agreeing replica counts were read since the last write of the spec
    misread: nat,                       // such readings that found live pods other than the lowest ordinals
    robbed: nat)                        // backend Secrets deleted while a live pod had their ordinal

  const NO_TALLY := Tally(0, false, 0, 0, false, 0, 0)

  datatype State = State(
    gw: Option<Gateway>,
    plain: map<Ref, Built>,             // children whose content is only rendered
    key: Option<KeySecret>,             // <gw>-keys
    out: Option<KeyFiles>,              // <gw>-vanity-out
    job: Option<Job>,                   // the harvest Job
    replicas: Option<nat>,              // spec.replicas of the StatefulSet, if it exists
    pods: set<nat>,                     // ordinals of its live pods; status.replicas is their number
    leftover: set<nat>,                 // pods of a deleted StatefulSet that still run
    secrets: map<nat, KeyFiles>,        // backend key Secrets by index
    roles: map<string, nat>,            // cross-namespace Roles: namespace to owner-uid label
    bindings: map<string, nat>,         // and RoleBindings
    policy: Option<Policy>,
    prefix: string,                     // the vanityPrefix the API server holds; "" for none
    rev: nat,
    nextUid: nat,
    // history
    prefixEdits: nat,                   // edits of `prefix` so far
    harvests: nat,                      // Jobs and key Secrets created so far
    outputs: set<KeyFiles>,             // every content the output Secret has had
    tally: Tally)

  const INIT := State(None, map[], None, None, None, None, {}, {}, map[], map[], map[], None, "", 0, 0, 0, 0, {},
    NO_TALLY)

  predicate IsAccepted(p: Option<Policy>) {
    p.Some? && p.value.accepted
  }

  predicate Held(s: State) {
    s.gw.Some? && s.gw.value.finalizer
  }

  /** Children that carry no data of their own. */
  predicate Rendered(r: Ref) {
    !r.KeySecret? && !r.VanityOut? && !r.VanityJob? && !r.BackendSet? && !r.BackendSecret? && !r.CrossRole? &&
    !r.CrossBinding?
  }

  predicate SharedRouter(r: Ref) {
    r.RouterAccount? || r.RouterRole? || r.RouterBinding?
  }

  predicate Exists(s: State, r: Ref) {
    if r.KeySecret? then s.key.Some?
    else if r.VanityOut? then s.out.Some?
    else if r.VanityJob? then s.job.Some?
    else if r.BackendSet? then s.replicas.Some?
    else if r.BackendSecret? then r.index in s.secrets
    else if r.CrossRole? then r.ns in s.roles
    else if r.CrossBinding? then r.ns in s.bindings
    else r in s.plain
  }

  function Without(s: State, r: Ref): (t: State)
    ensures !Exists(t, r)
  {
    if r.KeySecret? then s.(key := None)
    else if r.VanityOut? then s.(out := None)
    else if r.VanityJob? then s.(job := None)
    else if r.BackendSet? then s.(replicas := None, pods := {}, leftover := s.leftover + s.pods)
    else if r.BackendSecret? then
      s.(secrets := s.secrets - {r.index},
         tally := if r.index in s.pods then s.tally.(robbed := s.tally.robbed + 1) else s.tally)
    else if r.CrossRole? then s.(roles := s.roles - {r.ns})
    else if r.CrossBinding? then s.(bindings := s.bindings - {r.ns})
    else s.(plain := s.plain - {r})
  }

  // ---------------------------------------------------------------- events

  datatype Event =
    // environment
    | UserCreates(await: bool)
    | UserDeletes
    | UserTouches(await: bool)            // a write to the wait annotation or to something not modelled
    | Reaped
    | PolicyEdited(policy: Option<Policy>)
    | PrefixEdited(prefix: string)
    | InputsEdited
    | PodStarted(ordinal: nat)            // pods start and stop in any order
    | PodStopped(ordinal: nat)
    | LeftoverStopped(ordinal: nat)
    | JobWrote(files: KeyFiles)
    | JobFailed
    | JobExpired
    | OutputLost
    | KeyCollected                        // owner-reference garbage collection
    | Collected(ref: Ref)
    // operator
    | AddFinalizer
    | DropFinalizer
    | Delete(ref: Ref)
    | Put(ref: Ref, built: Built)
    | CreateKey(files: KeyFiles, harvested: bool)
    | CreateOutput
    | CreateJob(prefix: string)
    | WriteSecret(index: nat, files: KeyFiles)
    | ReadSettled                         // the reading that licenses a collection
    | SetReplicas(n: nat)
    | PutRole(ns: string)
    | PutBinding(ns: string)
    | Annotate(failed: Option<string>)
    | NoteReplicas(last: Option<nat>)
    | SetStatus(addresses: seq<string>, programmed: Programmed)

  predicate OwnedNow(s: State, uid: nat) {
    s.gw.Some? && s.gw.value.uid == uid
  }

  predicate EnvGuard(s: State, e: Event) {
    match e
    case UserCreates(_) => s.gw.None?
    case UserDeletes => s.gw.Some?
    case UserTouches(_) => s.gw.Some?
    case Reaped => s.gw.Some? && s.gw.value.deleting && !s.gw.value.finalizer
    case PolicyEdited(_) => true
    case PrefixEdited(_) => true
    case InputsEdited => true
    case PodStarted(o) => s.replicas.Some? && o < s.replicas.value && o !in s.pods && o !in s.leftover
    case PodStopped(o) => o in s.pods
    case LeftoverStopped(o) => o in s.leftover
    case JobWrote(_) => s.out.Some?
    case JobFailed => s.job.Some?
    case JobExpired => true
    case OutputLost => true
    case KeyCollected => s.key.Some? && !OwnedNow(s, s.key.value.owner)
    case Collected(r) => r in s.plain && !OwnedNow(s, s.plain[r].uid)
    case _ => false
  }

  /** The live pods are among the lowest ordinals, those below the replica count. */
  predicate Lowest(s: State) {
    s.replicas.Some? ==> forall o | o in s.pods :: o < s.replicas.value
  }

  predicate SafeToDelete(s: State, r: Ref) {
    && !SharedRouter(r)
    // a backend Secret may go only when its ordinal is not wanted and the replica counts were seen to agree
    && (r.BackendSecret? && s.replicas.Some? ==> s.replicas.value <= r.index && s.tally.licensed)
    // the key only for Mode B
    && (r.KeySecret? ==> s.tally.accepted)
  }

  predicate OperatorGuard(s: State, e: Event) {
    match e
    case AddFinalizer => s.gw.Some? && !s.gw.value.deleting
    // the last thing before the object may go: nothing it alone protects is left
    case DropFinalizer =>
      Held(s) && s.gw.value.deleting && s.roles == map[] && s.bindings == map[] && s.replicas.None?
        && s.secrets == map[]
    case Delete(r) => SafeToDelete(s, r)
    case Put(r, b) => Held(s) && Rendered(r) && b.uid == s.gw.value.uid
    case CreateKey(f, harvested) =>
      Held(s) && s.key.None? && Parses(f) && (harvested ==> f in s.outputs && Populated(f))
    case CreateOutput => Held(s) && s.out.None?
    case CreateJob(_) => Held(s) && s.job.None?
    // the bytes of a key Secret that is there may only be written back
    case WriteSecret(i, f) => Held(s) && Parses(f) && (i in s.secrets ==> s.secrets[i] == f)
    case ReadSettled => s.replicas == Some(|s.pods|)
    // key Secrets before replicas
    case SetReplicas(n) => Held(s) && forall i | 0 <= i < n :: i in s.secrets
    case PutRole(_) => Held(s)
    case PutBinding(_) => Held(s)
    case Annotate(_) => s.gw.Some?
    case NoteReplicas(_) => s.gw.Some?
    case SetStatus(_, _) => s.gw.Some?
    case _ => false
  }

  predicate Guard(s: State, e: Event) {
    EnvGuard(s, e) || OperatorGuard(s, e)
  }

  /** Every write to the Gateway object gives it a new resourceVersion. */
  function Write(s: State, g: Gateway): State {
    s.(gw := Some(g.(rv := g.rv + 1)))
  }

  function Apply(s: State, e: Event): State
    requires Guard(s, e)
  {
    if EnvGuard(s, e) then EnvApply(s, e) else OperatorApply(s, e)
  }

  function EnvApply(s: State, e: Event): State
    requires EnvGuard(s, e)
  {
    match e
    case UserCreates(a) =>
      s.(gw := Some(Gateway(s.nextUid, 0, false, false, a, None, None, [], Unset)), nextUid := s.nextUid + 1)
    case UserDeletes =>
      if s.gw.value.finalizer then Write(s, s.gw.value.(deleting := true)) else s.(gw := None)
    case UserTouches(a) => Write(s, s.gw.value.(await := a)).(tally := s.tally.(touches := s.tally.touches + 1))
    case Reaped => s.(gw := None)
    case PolicyEdited(p) =>
      s.(policy := p,
         tally := s.tally.(policyEdits := s.tally.policyEdits + 1, accepted := s.tally.accepted || IsAccepted(p)))
    case PrefixEdited(p) => s.(prefix := p, prefixEdits := s.prefixEdits + 1)
    case InputsEdited => s.(rev := s.rev + 1)
    case PodStarted(o) => s.(pods := s.pods + {o})
    case PodStopped(o) => s.(pods := s.pods - {o})
    case LeftoverStopped(o) => s.(leftover := s.leftover - {o})
    case JobWrote(f) => s.(out := Some(f), outputs := s.outputs + {f})
    case JobFailed => s.(job := Some(s.job.value.(failed := true)))
    case JobExpired => s.(job := None)
    case OutputLost => s.(out := None)
    case KeyCollected => s.(key := None)
    case Collected(r) => s.(plain := s.plain - {r})
  }

  function OperatorApply(s: State, e: Event): State
    requires OperatorGuard(s, e)
  {
    match e
    case AddFinalizer => Write(s, s.gw.value.(finalizer := true))
    case DropFinalizer => Write(s, s.gw.value.(finalizer := false))
    case Delete(r) => Without(s, r)
    case Put(r, b) => s.(plain := s.plain[r := b])
    case CreateKey(f, harvested) =>
      s.(key := Some(KeySecret.KeySecret(s.gw.value.uid, f)), harvests := s.harvests + 1,
         tally := if harvested then s.tally else s.tally.(randoms := s.tally.randoms + 1))
    case CreateOutput => s.(out := Some(EMPTY_FILES), outputs := s.outputs + {EMPTY_FILES})
    case CreateJob(p) => s.(job := Some(Job(p, false)), harvests := s.harvests + 1)
    case WriteSecret(i, f) => s.(secrets := s.secrets[i := f])
    case ReadSettled =>
      s.(tally := s.tally.(licensed := true, misread := s.tally.misread + if Lowest(s) then 0 else 1))
    case SetReplicas(n) => s.(replicas := Some(n), tally := s.tally.(licensed := false))
    case PutRole(ns) => s.(roles := s.roles[ns := s.gw.value.uid])
    case PutBinding(ns) => s.(bindings := s.bindings[ns := s.gw.value.uid])
    case Annotate(f) => Write(s, s.gw.value.(vanityFailed := f))
    case NoteReplicas(n) => Write(s, s.gw.value.(lastReplicas := n))
    case SetStatus(a, p) => Write(s, s.gw.value.(addresses := a, programmed := p))
  }

  // ---------------------------------------------------------------- runs

  ghost predicate Legal(log: seq<Event>)
    decreases |log|, 0
  {
    log == [] || (Legal(log[..|log| - 1]) && Guard(After(log[..|log| - 1]), log[|log| - 1]))
  }

  ghost function After(log: seq<Event>): State
    requires Legal(log)
    decreases |log|, 1
  {
    if log == [] then INIT else Apply(After(log[..|log| - 1]), log[|log| - 1])
  }

  lemma Extend(log: seq<Event>, e: Event)
    requires Legal(log) && Guard(After(log), e)
    ensures Legal(log + [e]) && After(log + [e]) == Apply(After(log), e)
  {
    assert (log + [e])[..|log|] == log;
  }

  /** The state after the first `k` events. */
  ghost function At(log: seq<Event>, k: nat): State
    requires Legal(log) && k <= |log|
  {
    if k == |log| then After(log) else At(log[..|log| - 1], k)
  }

  lemma {:induction false} AtStep(log: seq<Event>, k: nat)
    requires Legal(log) && k < |log|
    ensures Guard(At(log, k), log[k]) && At(log, k + 1) == Apply(At(log, k), log[k])
  {
    hide Guard, Apply;
    if k + 1 < |log| {
      AtStep(log[..|log| - 1], k);
    }
  }

  lemma AtNow(log: seq<Event>)
    requires Legal(log)
    ensures At(log, |log|) == After(log)
  {
  }

  /** More events leave the earlier moments as they were. */
  lemma {:induction false} AtSame(log: seq<Event>, longer: seq<Event>, k: nat)
    requires Legal(log) && Legal(longer) && log <= longer && k <= |log|
    ensures At(longer, k) == At(log, k)
  {
    hide Guard, Apply;
    if |log| < |longer| {
      AtSame(log, longer[..|longer| - 1], k);
    } else {
      assert log == longer;
    }
  }

  // ---------------------------------------------------------------- invariants

  /** A cross-namespace object names the Gateway that exists now, and that Gateway carries the finalizer. */
  predicate CrossOwned(s: State) {
    && (forall ns | ns in s.roles :: Held(s) && s.roles[ns] == s.gw.value.uid)
    && (forall ns | ns in s.bindings :: Held(s) && s.bindings[ns] == s.gw.value.uid)
  }

  /** Every wanted backend pod has its key Secret, and there are pods only of a StatefulSet. */
  predicate BackendsKeyed(s: State) {
    && (s.replicas.Some? ==> Held(s) && forall i | 0 <= i < s.replicas.value :: i in s.secrets)
    && (s.replicas.None? ==> s.pods == {})
    && (s.secrets != map[] ==> Held(s))
  }

  predicate KeysParse(s: State) {
    && (s.key.Some? ==> Parses(s.key.value.files))
    && (forall i | i in s.secrets :: Parses(s.secrets[i]))
    && (s.out.Some? ==> s.out.value in s.outputs)
  }

  predicate UidsFresh(s: State) {
    s.gw.Some? ==> s.gw.value.uid < s.nextUid
  }

  predicate PlainRendered(s: State) {
    forall r | r in s.plain :: Rendered(r)
  }

  /** As long as no reading of agreeing counts found other pods than the lowest, no live pod was robbed. */
  predicate NoneRobbed(s: State) {
    && (s.tally.misread == 0 ==> s.tally.robbed == 0 && (s.tally.licensed ==> Lowest(s)))
    && (IsAccepted(s.policy) ==> s.tally.accepted)
  }

  predicate Inv(s: State) {
    CrossOwned(s) && BackendsKeyed(s) && KeysParse(s) && UidsFresh(s) && PlainRendered(s) && NoneRobbed(s)
  }

  lemma EnvKeepsBackends(s: State, e: Event)
    requires BackendsKeyed(s) && EnvGuard(s, e)
    ensures BackendsKeyed(EnvApply(s, e))
  {
    var t := EnvApply(s, e);
    assert t.secrets == s.secrets && t.replicas == s.replicas;
    assert Held(s) ==> Held(t);
  }

  lemma EnvKeepsInv(s: State, e: Event)
    requires Inv(s) && EnvGuard(s, e)
    ensures Inv(EnvApply(s, e))
  {
    hide Parses, Populated, BackendsKeyed, NoneRobbed;
    EnvKeepsBackends(s, e);
    EnvKeepsTally(s, e);
  }

  lemma EnvKeepsTally(s: State, e: Event)
    requires NoneRobbed(s) && EnvGuard(s, e)
    ensures NoneRobbed(EnvApply(s, e))
  {
    hide EnvApply;
    EnvReadings(s, e);
    EnvPolicy(s, e);
  }

  lemma EnvReadings(s: State, e: Event)
    requires EnvGuard(s, e)
    ensures var t := EnvApply(s, e);
      && t.tally.licensed == s.tally.licensed && t.tally.misread == s.tally.misread && t.tally.robbed == s.tally.robbed
      && t.replicas == s.replicas
      && forall o | o in t.pods :: o in s.pods || (s.replicas.Some? && o < s.replicas.value)
  {
  }

  lemma EnvPolicy(s: State, e: Event)
    requires EnvGuard(s, e)
    ensures var t := EnvApply(s, e);
      (t.policy == s.policy && t.tally.accepted == s.tally.accepted) ||
      (t.tally.accepted == (s.tally.accepted || IsAccepted(t.policy)))
  {
    hide Parses, Populated;
    if e.UserTouches? {
      TouchLeavesPolicy(s, e);
    } else if e.UserCreates? || e.UserDeletes? || e.Reaped? {
      GatewayMovesLeavePolicy(s, e);
    } else if !e.PolicyEdited? {
      OtherMovesLeavePolicy(s, e);
    }
  }

  lemma TouchLeavesPolicy(s: State, e: Event)
    requires EnvGuard(s, e) && e.UserTouches?
    ensures EnvApply(s, e).policy == s.policy && EnvApply(s, e).tally.accepted == s.tally.accepted
  {
  }

  lemma GatewayMovesLeavePolicy(s: State, e: Event)
    requires EnvGuard(s, e) && (e.UserCreates? || e.UserDeletes? || e.Reaped?)
    ensures EnvApply(s, e).policy == s.policy && EnvApply(s, e).tally == s.tally
  {
    hide Parses, Populated, IsAccepted;
  }

  lemma OtherMovesLeavePolicy(s: State, e: Event)
    requires EnvGuard(s, e) && !e.PolicyEdited?
    requires !e.UserCreates? && !e.UserDeletes? && !e.UserTouches? && !e.Reaped?
    ensures EnvApply(s, e).policy == s.policy && EnvApply(s, e).tally == s.tally
  {
    hide Parses, Populated, IsAccepted;
  }

  /** What most operator writes leave alone. */
  predicate SameOwnership(s: State, t: State) {
    && s.gw.Some? && t.gw.Some? && t.gw.value.uid == s.gw.value.uid && t.nextUid == s.nextUid
    && (s.gw.value.finalizer ==> t.gw.value.finalizer)
    && t.roles == s.roles && t.bindings == s.bindings
    && t.replicas == s.replicas && t.pods == s.pods && t.secrets == s.secrets
    && t.policy == s.policy && t.tally.accepted == s.tally.accepted && t.tally.licensed == s.tally.licensed
    && t.tally.misread == s.tally.misread && t.tally.robbed == s.tally.robbed
  }

  predicate Ordinary(e: Event) {
    && !e.DropFinalizer? && !e.Delete? && !e.WriteSecret? && !e.SetReplicas? && !e.PutRole? && !e.PutBinding?
    && !e.ReadSettled?
  }

  lemma OrdinaryWrites(s: State, e: Event)
    requires OperatorGuard(s, e) && Ordinary(e) && KeysParse(s) && PlainRendered(s)
    ensures SameOwnership(s, OperatorApply(s, e)) && KeysParse(OperatorApply(s, e))
      && PlainRendered(OperatorApply(s, e))
  {
    hide Parses, Populated;
  }

  lemma OrdinaryKeepsInv(s: State, t: State)
    requires Inv(s) && SameOwnership(s, t) && KeysParse(t) && PlainRendered(t)
    ensures Inv(t)
  {
    hide Parses, Populated;
  }

  lemma OtherWritesKeepInv(s: State, e: Event)
    requires Inv(s) && OperatorGuard(s, e) && !Ordinary(e) && !e.Delete?
    ensures Inv(OperatorApply(s, e))
  {
    hide Parses, Populated;
  }

  lemma DeleteKeepsInv(s: State, r: Ref)
    requires Inv(s) && SafeToDelete(s, r)
    ensures Inv(Without(s, r))
  {
    hide Parses, Populated;
  }

  lemma DeleteApplies(s: State, e: Event)
    requires e.Delete? && OperatorGuard(s, e)
    ensures SafeToDelete(s, e.ref) && OperatorApply(s, e) == Without(s, e.ref)
  {
    hide Without, Exists;
  }

  lemma StepKeepsInv(s: State, e: Event)
    requires Inv(s) && Guard(s, e)
    ensures Inv(Apply(s, e))
  {
    hide CrossOwned, BackendsKeyed, KeysParse, UidsFresh, NoneRobbed, EnvGuard, OperatorGuard, EnvApply, OperatorApply;
    if EnvGuard(s, e) {
      EnvKeepsInv(s, e);
    } else {
      if e.Delete? {
        DeleteApplies(s, e);
        DeleteKeepsInv(s, e.ref);
      } else if Ordinary(e) {
        OrdinaryWrites(s, e);
        OrdinaryKeepsInv(s, OperatorApply(s, e));
      } else {
        OtherWritesKeepInv(s, e);
      }
    }
  }

  lemma EmptyInv()
    ensures Inv(INIT)
  {
  }

  lemma {:induction false} RunsKeepInv(log: seq<Event>)
    requires Legal(log)
    ensures Inv(After(log))
  {
    hide CrossOwned, BackendsKeyed, KeysParse, Guard, Apply;
    if log == [] {
      EmptyInv();
    } else {
      RunsKeepInv(log[..|log| - 1]);
      StepKeepsInv(After(log[..|log| - 1]), log[|log| - 1]);
    }
  }

  // ---------------------------------------------------------------- what holds over every run

  lemma {:induction false} InvAt(log: seq<Event>, k: nat)
    requires Legal(log) && k <= |log|
    ensures Inv(At(log, k))
  {
    hide CrossOwned, BackendsKeyed, KeysParse, Guard, Apply;
    if k == |log| {
      RunsKeepInv(log);
    } else {
      InvAt(log[..|log| - 1], k);
    }
  }

  /** At every moment of every run each wanted index has its own key Secret, and it parses. */
  lemma EveryWantedIndexHasItsKey(log: seq<Event>, k: nat, ordinal: nat)
    requires Legal(log) && k <= |log| && Wanted(At(log, k), ordinal)
    ensures ordinal in At(log, k).secrets && Parses(At(log, k).secrets[ordinal])
  {
    hide Parses;
    InvAt(log, k);
  }

  predicate PodsKeyed(s: State) {
    forall o | o in s.pods :: o in s.secrets
  }

  /** The write takes away the Secret of a live pod of the StatefulSet. */
  predicate Robs(s: State, e: Event) {
    e.Delete? && e.ref.BackendSecret? && e.ref.index in s.pods
  }

  lemma EnvKeepsPods(s: State, e: Event)
    requires Inv(s) && PodsKeyed(s) && EnvGuard(s, e)
    ensures PodsKeyed(EnvApply(s, e)) && !Robs(s, e)
  {
    hide CrossOwned, KeysParse;
    assert EnvApply(s, e).secrets == s.secrets;
  }

  lemma DeletionAndPods(s: State, r: Ref)
    requires PodsKeyed(s)
    ensures PodsKeyed(Without(s, r)) <==> !(r.BackendSecret? && r.index in s.pods)
  {
  }

  lemma OtherWritesKeepPods(s: State, e: Event)
    requires PodsKeyed(s) && OperatorGuard(s, e) && !e.Delete?
    ensures PodsKeyed(OperatorApply(s, e))
  {
    hide Parses, Populated;
    assert OperatorApply(s, e).pods == s.pods;
  }

  lemma StepAndPods(s: State, e: Event)
    requires Inv(s) && PodsKeyed(s) && Guard(s, e)
    ensures PodsKeyed(Apply(s, e)) <==> !Robs(s, e)
  {
    hide Inv, EnvGuard, OperatorGuard, EnvApply, OperatorApply, PodsKeyed;
    if EnvGuard(s, e) {
      EnvKeepsPods(s, e);
    } else if e.Delete? {
      DeleteApplies(s, e);
      DeletionAndPods(s, e.ref);
    } else {
      OtherWritesKeepPods(s, e);
    }
  }

  /** Where a live pod has no key, an earlier deletion has robbed one. */
  lemma {:induction false} UnkeyedMeansRobbed(log: seq<Event>, k: nat) returns (j: nat)
    requires Legal(log) && k <= |log| && !PodsKeyed(At(log, k))
    ensures j < k && Robs(At(log, j), log[j])
  {
    hide Guard, Apply, Inv, Robs;
    j := 0;
    if k == 0 {
      AtZero(log);
    } else {
      InvAt(log, k - 1);
      AtStep(log, k - 1);
      if PodsKeyed(At(log, k - 1)) {
        StepAndPods(At(log, k - 1), log[k - 1]);
        j := k - 1;
      } else {
        j := UnkeyedMeansRobbed(log, k - 1);
      }
    }
  }

  lemma {:induction false} AtZero(log: seq<Event>)
    requires Legal(log)
    ensures At(log, 0) == INIT
  {
    if log != [] {
      AtZero(log[..|log| - 1]);
    }
  }

  lemma RobberyShows(log: seq<Event>, k: nat)
    requires Legal(log) && k < |log| && PodsKeyed(At(log, k)) && PodsKeyed(At(log, k + 1))
    ensures !Robs(At(log, k), log[k])
  {
    hide Guard, Apply, Inv, Robs, PodsKeyed;
    InvAt(log, k);
    AtStep(log, k);
    StepAndPods(At(log, k), log[k]);
  }

  /** All live pods have their keys throughout a run if and only if no deletion of the run robs one. */
  lemma PodsKeyedExactly(log: seq<Event>)
    requires Legal(log)
    ensures (forall k | 0 <= k <= |log| :: PodsKeyed(At(log, k)))
       <==> (forall k | 0 <= k < |log| :: !Robs(At(log, k), log[k]))
  {
    hide Guard, Apply, Inv, Robs, PodsKeyed;
    if forall k | 0 <= k <= |log| :: PodsKeyed(At(log, k)) {
      forall k | 0 <= k < |log|
        ensures !Robs(At(log, k), log[k])
      {
        RobberyShows(log, k);
      }
    } else {
      var k :| 0 <= k <= |log| && !PodsKeyed(At(log, k));
      var j := UnkeyedMeansRobbed(log, k);
      assert 0 <= j < |log| && Robs(At(log, j), log[j]);
    }
  }

  /** The reading of agreeing counts finds live pods that are not the lowest ordinals. */
  predicate Misreads(s: State, e: Event) {
    e.ReadSettled? && !Lowest(s)
  }

  lemma StepMisread(s: State, e: Event)
    requires Guard(s, e)
    ensures Apply(s, e).tally.misread == s.tally.misread + if Misreads(s, e) then 1 else 0
  {
    hide Parses, Populated, EnvApply, Without;
    if EnvGuard(s, e) {
      EnvReadings(s, e);
    } else if e.Delete? {
      DeletionTally(s, e.ref);
    }
  }

  lemma DeletionTally(s: State, r: Ref)
    ensures Without(s, r).tally.misread == s.tally.misread
  {
  }

  /** The tally is right: without such a reading it stays at zero. */
  lemma {:induction false} NoMisreading(log: seq<Event>, k: nat)
    requires Legal(log) && k <= |log|
    requires forall j | 0 <= j < k :: !Misreads(At(log, j), log[j])
    ensures At(log, k).tally.misread == 0
  {
    hide Guard, Apply, Misreads;
    if k == 0 {
      AtZero(log);
    } else {
      NoMisreading(log, k - 1);
      AtStep(log, k - 1);
      StepMisread(At(log, k - 1), log[k - 1]);
    }
  }

  lemma RobberyNeedsMisreading(s: State, e: Event)
    requires Inv(s) && Guard(s, e) && Robs(s, e)
    ensures s.tally.misread > 0
  {
    hide CrossOwned, KeysParse, EnvApply, OperatorApply;
    DeleteApplies(s, e);
  }

  /**
   * When every reading of agreeing replica counts finds the live pods at the lowest ordinals, each live pod
   * of the StatefulSet has its own key Secret at every moment, and it parses.
   */
  lemma EveryPodHasItsKey(log: seq<Event>, k: nat, ordinal: nat)
    requires Legal(log) && k <= |log| && ordinal in At(log, k).pods
    requires forall j | 0 <= j < k && log[j].ReadSettled? :: Lowest(At(log, j))
    ensures ordinal in At(log, k).secrets && Parses(At(log, k).secrets[ordinal])
  {
    hide Parses, Guard, Apply, Robs, Lowest;
    if !PodsKeyed(At(log, k)) {
      var j := UnkeyedMeansRobbed(log, k);
      assert forall i | 0 <= i < j :: !Misreads(At(log, i), log[i]);
      NoMisreading(log, j);
      InvAt(log, j);
      AtStep(log, j);
      RobberyNeedsMisreading(At(log, j), log[j]);
    }
    InvAt(log, k);
  }

  predicate Wanted(s: State, i: nat) {
    s.replicas.Some? && i < s.replicas.value
  }

  /** What no move of the environment takes away. */
  lemma EnvKeeps(s: State, e: Event)
    requires EnvGuard(s, e)
    ensures EnvApply(s, e).secrets == s.secrets
    ensures s.key.Some? && !e.KeyCollected? ==> EnvApply(s, e).key == s.key
    ensures forall r | r in s.plain && OwnedNow(s, s.plain[r].uid) :: r in EnvApply(s, e).plain
  {
    hide EnvApply;
    EnvKeepsPlain(s, e);
    EnvKeepsKeys(s, e);
  }

  lemma EnvKeepsPlain(s: State, e: Event)
    requires EnvGuard(s, e)
    ensures forall r | r in s.plain && OwnedNow(s, s.plain[r].uid) :: r in EnvApply(s, e).plain
  {
  }

  lemma EnvKeepsKeys(s: State, e: Event)
    requires EnvGuard(s, e)
    ensures EnvApply(s, e).secrets == s.secrets
    ensures s.key.Some? && !e.KeyCollected? ==> EnvApply(s, e).key == s.key
  {
  }

  /** A wanted backend Secret is not changed by any write of the operator. */
  lemma OperatorKeepsSecret(s: State, e: Event, i: nat)
    requires OperatorGuard(s, e) && Wanted(s, i) && i in s.secrets
    ensures i in OperatorApply(s, e).secrets && OperatorApply(s, e).secrets[i] == s.secrets[i]
  {
    hide Parses, Populated;
  }

  lemma DeletionKeepsKey(s: State, r: Ref)
    requires !r.KeySecret?
    ensures Without(s, r).key == s.key
  {
  }

  lemma OperatorKeepsKey(s: State, e: Event)
    requires OperatorGuard(s, e) && s.key.Some? && e != Delete(Ref.KeySecret)
    ensures OperatorApply(s, e).key == s.key
  {
    hide Parses, Populated;
    match e
    case CreateKey(_, _) =>
    case Delete(r) => DeletionKeepsKey(s, r);
    case _ =>
  }

  lemma OperatorKeepsRouter(s: State, e: Event, r: Ref)
    requires OperatorGuard(s, e) && SharedRouter(r)
    ensures e != Delete(r) && (r in s.plain ==> r in OperatorApply(s, e).plain)
  {
    hide Parses, Populated;
  }

  lemma StepKeepsWantedKey(s: State, e: Event, i: nat)
    requires Inv(s) && Guard(s, e) && Wanted(s, i)
    ensures i in s.secrets
    ensures i in Apply(s, e).secrets && Apply(s, e).secrets[i] == s.secrets[i]
  {
    hide EnvGuard, OperatorGuard, EnvApply, OperatorApply, CrossOwned, KeysParse;
    if EnvGuard(s, e) {
      EnvKeeps(s, e);
    } else {
      OperatorKeepsSecret(s, e, i);
    }
  }

  /** A backend Secret's key bytes never change while its index stays below the replica count. */
  lemma {:induction false} WantedKeyIsStable(log: seq<Event>, a: nat, b: nat, i: nat)
    requires Legal(log) && a <= b <= |log|
    requires forall k | a <= k <= b :: Wanted(At(log, k), i)
    ensures i in At(log, a).secrets && i in At(log, b).secrets
    ensures At(log, a).secrets[i] == At(log, b).secrets[i]
  {
    hide Parses, Guard, Apply, CrossOwned, KeysParse;
    InvAt(log, a);
    if a < b {
      WantedKeyIsStable(log, a, b - 1, i);
      InvAt(log, b - 1);
      AtStep(log, b - 1);
      StepKeepsWantedKey(At(log, b - 1), log[b - 1], i);
    }
  }

  /**
   * A cross-namespace Role or RoleBinding exists only while the Gateway it names exists and carries the
   * finalizer; so once a Gateway object is gone, by reaping or otherwise, nothing of the kind is left,
   * and no backend set or key Secret either. Pods of the deleted set may still be stopping.
   */
  lemma NothingOutlivesTheGateway(log: seq<Event>, k: nat, ns: string)
    requires Legal(log) && k <= |log|
    ensures var s := At(log, k);
            && (ns in s.roles ==> Held(s) && s.roles[ns] == s.gw.value.uid)
            && (ns in s.bindings ==> Held(s) && s.bindings[ns] == s.gw.value.uid)
            && (s.gw.None? ==>
              s.replicas.None? && s.pods == {} && s.secrets == map[] && s.roles == map[] && s.bindings == map[])
  {
    hide Parses;
    InvAt(log, k);
  }

  lemma StepKeepsOwnKey(s: State, e: Event)
    requires Guard(s, e) && s.key.Some? && OwnedNow(s, s.key.value.owner) && !s.tally.accepted
    ensures Apply(s, e).key == s.key
  {
    hide EnvApply, OperatorApply;
    if EnvGuard(s, e) {
      EnvKeeps(s, e);
    } else {
      OperatorKeepsKey(s, e);
    }
  }

  /**
   * A Gateway's own key Secret never changes and never goes while the Gateway exists, unless a policy asking
   * for Mode B has been accepted at some time.
   */
  lemma {:induction false} OwnKeyIsStable(log: seq<Event>, a: nat, b: nat)
    requires Legal(log) && a <= b <= |log| && At(log, a).key.Some?
    requires forall k | a <= k < b :: OwnedNow(At(log, k), At(log, a).key.value.owner) && !At(log, k).tally.accepted
    ensures At(log, b).key == At(log, a).key
  {
    hide Guard, Apply;
    if a < b {
      OwnKeyIsStable(log, a, b - 1);
      AtStep(log, b - 1);
      StepKeepsOwnKey(At(log, b - 1), log[b - 1]);
    }
  }

  lemma EnvDrains(s: State, e: Event)
    requires EnvGuard(s, e)
    ensures EnvApply(s, e).leftover <= s.leftover
  {
  }

  lemma DeletionDrains(s: State, r: Ref)
    requires !r.BackendSet?
    ensures Without(s, r).leftover == s.leftover
  {
  }

  lemma StepDrains(s: State, e: Event)
    requires Guard(s, e) && e != Delete(BackendSet)
    ensures Apply(s, e).leftover <= s.leftover
  {
    hide Parses, Populated, EnvApply, Without;
    if EnvGuard(s, e) {
      EnvDrains(s, e);
    } else if e.Delete? {
      DeleteApplies(s, e);
      DeletionDrains(s, e.ref);
    }
  }

  /** Pods that outlive their StatefulSet only stop; a deletion of the StatefulSet alone adds to them. */
  lemma {:induction false} LeftoversDrain(log: seq<Event>, a: nat, b: nat)
    requires Legal(log) && a <= b <= |log|
    requires forall k | a <= k < b :: log[k] != Delete(BackendSet)
    ensures At(log, b).leftover <= At(log, a).leftover
  {
    hide Guard, Apply;
    if a < b {
      LeftoversDrain(log, a, b - 1);
      AtStep(log, b - 1);
      StepDrains(At(log, b - 1), log[b - 1]);
    }
  }

  /** The key goes to owner garbage collection, or to the cleanup for Mode B. */
  predicate EndsKey(e: Event) {
    e.KeyCollected? || e == Delete(Ref.KeySecret)
  }

  lemma StepKeepsKey(s: State, e: Event)
    requires Guard(s, e) && !EndsKey(e) && s.key.Some?
    ensures Apply(s, e).key == s.key
  {
    hide EnvGuard, OperatorGuard, EnvApply, OperatorApply;
    if EnvGuard(s, e) {
      EnvKeeps(s, e);
    } else {
      OperatorKeepsKey(s, e);
    }
  }

  /** Once <gw>-keys exists its bytes never change; only the cleanup for Mode B or an outside deletion ends it. */
  lemma {:induction false} KeySecretIsStable(log: seq<Event>, a: nat, b: nat)
    requires Legal(log) && a <= b <= |log| && At(log, a).key.Some?
    requires forall k | a <= k < b :: !EndsKey(log[k])
    ensures At(log, b).key == At(log, a).key
  {
    hide Guard, Apply;
    if a < b {
      KeySecretIsStable(log, a, b - 1);
      AtStep(log, b - 1);
      StepKeepsKey(At(log, b - 1), log[b - 1]);
    }
  }

  /** No legal operator write deletes the router's ServiceAccount, Role or RoleBinding. */
  lemma RouterSurvives(log: seq<Event>, k: nat, r: Ref)
    requires Legal(log) && k < |log| && SharedRouter(r)
    ensures log[k] != Delete(r)
    ensures r in At(log, k).plain && OwnedNow(At(log, k), At(log, k).plain[r].uid) ==> r in At(log, k + 1).plain
  {
    hide Parses, Populated, After, Legal;
    AtStep(log, k);
    RouterStep(At(log, k), log[k], r);
  }

  lemma RouterStep(s: State, e: Event, r: Ref)
    requires Guard(s, e) && SharedRouter(r)
    ensures e != Delete(r)
    ensures r in s.plain && OwnedNow(s, s.plain[r].uid) ==> r in Apply(s, e).plain
  {
    hide OperatorGuard, EnvApply, OperatorApply;
    if EnvGuard(s, e) {
      EnvKeeps(s, e);
    } else {
      OperatorKeepsRouter(s, e, r);
    }
  }
}
