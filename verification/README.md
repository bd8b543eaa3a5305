# A verified model of the Tor Gateway operator

The operator turns a Kubernetes Gateway into a Tor onion service. One Tor pod serves it in Mode A; in Mode B a
StatefulSet of backend pods serves it behind an onionbalance frontend that publishes one master address. This project
models the parts of the operator whose correctness depends on order, interleaving, byte layout or precedence, and
proves what the code and its documentation promise of them.

| file | what it models |
|---|---|
| Text.dfy | ASCII case and blanks, affixes, text order, decimal numbers; Option and Result |
| Onion.dfy | unpadded base32 over real bit groups, and the onion address printer and parser |
| Keys.dfy | the two key files on disk, bit clamping, the hostname file |
| Names.dfy | the names of a Gateway's child objects, and how operator, RBAC and init container agree on them |
| Sorting.dfy | insertion sort in place, uniqueness of what it returns, element-wise collection |
| Backends.dfy | the onionbalance config: filtering Secrets, sorting addresses, rendering |
| Refresher.dfy | the debounce of the onionbalance refresher as a timed state machine |
| Protocol.dfy | one Gateway and everything made for it, as a transition system with inductive invariants |
| Interference.dfy | what may happen to the cluster between two API calls of one reconcile |
| Reconciler.dfy | the reconciler, method by method, each API call preceded by any number of environment moves |
| Status.dfy | the merge of published addresses in Mode B |
| Settled.dfy | what comparing two replica counts does and does not say about the live pods |
| Runs.dfy | two concrete runs that end where the documentation says they cannot |
| Router.dfy | the route matcher, its precedence, and the compilation of HTTPRoutes |
| AttachedRoutes.dfy | attached-route counters |
| Permissions.dfy | checking and repairing file modes of a HiddenServiceDir |
| Conditions.dfy | the merge of status conditions and the history its timestamps tell |

## How the reconciler is modelled

`Protocol` has one state for the whole cluster as far as one Gateway is concerned, and events: moves of users, of the
StatefulSet controller, of the harvest Job and of the API server, and single writes of the operator. Guards of
operator events say what the order of calls in the reconciler has to establish: key Secrets before replicas, the
finalizer before cross-namespace RBAC, cleanup before the finalizer goes, the key Secret deleted only once a policy has
been accepted, the bytes of a backend Secret never overwritten, and a backend Secret deleted only when its index is not
wanted and the replica counts were read and agreed. Pods start and stop in any order, and those of a deleted
StatefulSet go on running until they stop. Invariants are proved over every legal run.

`Reconciler.Controller` is the code: one method per function of the source, the same branches, the same order of
calls. Every API call goes through `Api`, which first lets the environment move any number of times and then may
fail; a failed write may still have taken effect. Each write is a `Do`, whose precondition is the guard of the event,
so a call made too early does not verify. Failed calls, rejected writes and unusable inputs are counted as faults, and
the moments of the run at which something was read are returned, so the contracts can say that what was read decides
and that only a fault explains an error. Hence every execution of the code, including one that aborts at
any call or meets a deletion half-way, is a legal run of `Protocol`, and the results about runs hold of it. A tally of
edits, readings and random keys in the state lets the contracts say what holds however a reconcile ends. A
reconcile works on a copy of the Gateway, refreshed by the writes that refresh it in the code; writes based on an
outdated copy are rejected, as the API server does.

SHA3-256 and SHA-512 are function parameters with fixed output length. Bytes are 8-bit vectors, text is ASCII.

## Where the code and its documentation differ

The model follows the code; the exact conditions are proved.

- `internal/tor/onion.go:94-96` says an accepted text prints back to itself. It does exactly when it is already
  trimmed and lower-case (`Onion.EchoExactly`, `Onion.EchoFails`).
- `internal/router/match.go:97-99` says a PathPrefix matches whole path segments. It does exactly when the value has
  no trailing slash or is "/" (`Router.PrefixIsElementWise`).
- `internal/controller/gateway_controller.go:1148-1153` treats equal replica counts as settled. With parallel pod
  management the live pods of a StatefulSet need not be the lowest ordinals. The collection leaves every pod alive at
  that reading its Secret exactly when they are (`Reconciler.Controller.GcBackendSecretsIfSettled`); a run in which a
  live pod loses its Secret is `Runs.CountsAloneDoNotSettle`. Over whole runs all live pods have their keys exactly
  when no collection takes a live pod's (`Protocol.PodsKeyedExactly`).
- `internal/controller/gateway_resources_ha.go:546-547` says the cross-namespace Role is collected when the namespace
  in the spec changes. After a completed Mode B reconcile a pair outside the wanted namespace is left exactly when the
  master Secret is now in the Gateway's own namespace and the pair was there before
  (`Reconciler.Controller.Reconcile`); a run that ends so is `Runs.OldPairStays`.
- A parentRef that spells out an empty group or kind is counted as attached and never served
  (`AttachedRoutes.ParentTestsDiffer`).
- Rebuilds of the config can overlap, even when they take no time (`Refresher.QuickRebuildsMayOverlap`), and the older
  one may write last. The bound on the time from a list to its write that still keeps every resting file current is
  exactly the debounce interval (`Refresher.IntervalIsTheBound`); at one full interval a file can stay out of date with
  every write successful (`Refresher.OverlapLosesAnUpdate`).

## Model

| member | source | states |
|---|---|---|
| Base32.DecodeEncode | internal/tor/onion.go:67-76 | regrouping bytes into 5-bit symbols and back, group by group, is the identity for any whole number of 5-byte groups |
| Base32.EncodeDecode | internal/tor/onion.go:97-126 | decoding symbols and encoding again is the identity for any whole number of 8-symbol groups |
| Base32.EncodeSpells | internal/tor/onion.go:67-76 | symbol k of an encoding, in the alphabet A-Z2-7, is bits 5k to 5k+4 of the bytes, most significant bit first |
| Onion.TextSpelled | internal/tor/onion.go:67-91 | which 62 characters are printed: character k of the first 56, in a-z2-7, is bits 5k to 5k+4 of the key, two bytes of the hash of ".onion checksum", key and 3, and the byte 3; the text always ends in "d.onion" |
| Text.TrimSpaceKeeps | internal/tor/onion.go:97-100 | trimming keeps exactly the part between the first and the last character that is no blank |
| Onion.CheckedBodies | internal/tor/onion.go:111-126 | length, version and checksum tests accept exactly the body an address is printed from |
| Onion.ParseOfString | internal/tor/onion.go:67-76 | printing then parsing returns the address, for every 32-byte key |
| Onion.StringOfParse | internal/tor/onion.go:97-126 | parsing then printing returns the accepted text, trimmed and in lower case |
| Onion.AcceptsExactly | internal/tor/onion.go:97-126 | a text parses to an address if and only if, trimmed and lower-cased, it is that address's canonical text |
| Onion.StringInjective | internal/tor/onion.go:67-76 | two keys never print alike |
| Onion.EchoExactly | internal/tor/onion.go:94-126 | an accepted text prints back to itself if and only if it is already trimmed and lower-case |
| Onion.EchoFails | internal/tor/onion.go:94-126 | a canonical text with a trailing line end is accepted and does not print back to itself |
| Onion.StringHasSuffix | internal/tor/onion.go:67-76 | every printed address ends in ".onion" |
| Keys.ExpandSeed | internal/tor/keys.go:177-186 | clearing and setting bits in place computes the clamped hash: five bits are forced, every other bit of the 64 bytes is the hash's, and the result always passes the clamping test |
| Keys.GenerateKeyPair | internal/tor/keys.go:72-84 | a fresh key is valid, and its scalar is the hash of the seed but for the five forced bits |
| Keys.OtherBitsDecide | internal/tor/keys.go:177-186 | forcing the five bits and keeping the others leaves one possible result |
| Keys.ClampFixedPoints | internal/tor/keys.go:177-196 | the bit test accepts exactly the fixed points of clamping, and clamping always lands there |
| Keys.ParseFilesExactly | internal/tor/keys.go:105-162 | the accepted pairs of files are exactly those a valid key renders to, so both round trips hold byte for byte |
| Keys.FilesSpelled | internal/tor/keys.go:105-120 | each file is Tor's 29-byte tag, three NULs and the key, 96 and 64 bytes in all |
| Keys.AcceptedSecretIsClampFixed | internal/tor/keys.go:123-136 | clamping the scalar of an accepted secret file gives the same file |
| Keys.MasterKeyExactly | internal/tor/master_key.go:29-72 | a master key Secret is accepted if and only if it holds the two files of a valid key whose public key is derived from its scalar; the second clamping makes no difference |
| Keys.HostnameNamesTheKey | internal/tor/keys.go:92-102 | the hostname file is the address and a line end, and parses to the key's address and to no other |
| Names.ChildNamesDistinct | internal/controller/names.go:97-126 | within one Gateway no two children share kind, namespace and name |
| Names.IndexInvertsName | internal/controller/gateway_controller.go:1194-1206 | the index read back from a backend Secret's name is the index it was named with |
| Names.IndexExactly | internal/controller/gateway_controller.go:1194-1206 | a name has index N if and only if it is "<gw>-backend-", a numeral that reads as N, and "-keys" |
| Text.DigitsSpellValue | internal/controller/gateway_controller.go:1194-1206 | the digits of a numeral are the decimal digits of its value, unit last |
| Names.RoleResourceNames | internal/controller/gateway_resources_ha.go:415-454 | the loop lists exactly the Secret names of the indices below the replica count, and the master Secret only when it is in the Gateway's own namespace |
| Names.RoleListsExactly | internal/controller/gateway_resources.go:421-432 | the Role's list has no name twice, and a name is on it if and only if garbage collection reads an index below the replica count from it and it is that index's canonical name |
| Names.OrdinalOfPod | cmd/tor-init/main.go:41-47 | what follows the last dash of a backend pod's name is its ordinal |
| Names.PodOrdinalExactly | cmd/tor-init/main.go:204-220 | the ordinal is found if and only if a non-empty text without a dash follows a dash, and it is that text |
| Names.NamesAgree | cmd/tor-init/main.go:204-220 | the Secret that pod N's init container asks for is the one the operator made for index N, and the Role allows it if and only if N is below the replica count |
| Sorting.SortInPlace | internal/onionbalance/refresher.go:271-278 | swapping neighbours in place leaves the array equal to the functional insertion sort of its old contents |
| Sorting.SortedIsAscendingPermutation | internal/onionbalance/refresher.go:271-278 | that sort returns an ascending permutation |
| Sorting.AscendingUnique | internal/onionbalance/refresher.go:271-278 | when the key tells elements apart there is only one ascending arrangement |
| Text.LessExactly | internal/onionbalance/refresher.go:271-278 | the text order: the first place where two texts differ decides, and a proper prefix comes first |
| Backends.StringNoSpace | internal/onionbalance/refresher.go:280-288 | the loop computes the text without its blanks |
| Backends.NoSpaceSpelled | internal/onionbalance/refresher.go:280-288 | at any place of a text a blank, line end, carriage return or tab is dropped and every other character kept |
| Backends.IsControlledBy | internal/onionbalance/refresher.go:247-256 | the search finds a controller reference with the given UID if there is one |
| Backends.ContributesExactly | internal/onionbalance/refresher.go:233-266 | an object contributes an address if and only if it is a Secret with the owner label, a controller reference of that UID, and a non-empty hostname that parses to the address once its blanks are gone |
| Backends.AddressFromObject | internal/onionbalance/refresher.go:233-266 | the early exits compute that contribution |
| Backends.BackendsFromSecrets | internal/onionbalance/refresher.go:231-269 | filtering then sorting in place gives the sorted addresses of the trusted Secrets |
| Backends.RebuildConfig | internal/onionbalance/refresher.go:190-197 | the filtering, sorting and rendering loops in a row produce the text the results below are about, errors included |
| Backends.RenderConfig | internal/onionbalance/config.go:30-50 | the text builder writes the config of the list it is given, the text the reader below reads, and an empty key path is an error |
| Backends.ConfigReads | internal/onionbalance/config.go:30-50 | read line by line, for any key path without a line end: banner, "services:", the key path, and for each backend in order its address and "backend-" with its number, then the master |
| Backends.EmptyConfigReads | internal/onionbalance/config.go:30-44 | without backends the lines are banner, "services:", the key path and "instances: []"; an empty key path is refused |
| Backends.RenderTells | internal/onionbalance/config.go:30-50 | two configs with one-line key paths are the same text if and only if key path and backends are the same and, unless there are no backends, the master too |
| Backends.RenderInjective | internal/onionbalance/config.go:30-50 | two address lists render to the same text if and only if they are the same list |
| Backends.TextTracksAddresses | internal/onionbalance/refresher.go:190-215 | sorted and rendered, two lists give the same text if and only if they hold the same addresses the same number of times |
| Backends.ConfigTracksAddresses | internal/onionbalance/refresher.go:190-269 | a rebuild changes the text if and only if the trusted addresses change |
| Backends.ConfigIgnoresListOrder | internal/onionbalance/refresher.go:190-269 | the text is the same for every permutation of the informer's list |
| Backends.UntrustedContributeNothing | internal/onionbalance/refresher.go:231-269 | objects without the owner label, the controller reference or a hostname that parses contribute nothing |
| Backends.BuiltSecretContributes | internal/controller/gateway_resources_ha.go:83-115 | the Secret the operator builds for a key contributes that key's address |
| Backends.ConfigListsOperatorKeys | internal/onionbalance/refresher.go:231-269 | however operator Secrets are mixed with untrusted objects and unreadable Secrets, the config lists exactly the operator's keys, sorted |
| Refresher.Debouncer.constructor | internal/onionbalance/refresher.go:95-120 | a requested interval of at least the minimum is kept, a shorter positive one becomes the minimum, any other the default; the timer and the pending flag start clear |
| Refresher.BurstArmsOnce | internal/onionbalance/refresher.go:163-186 | any burst of changes on a resting refresher arms one timer, due one interval after the first change, and the callback will re-arm it if and only if there was a second change |
| Refresher.BurstKeepsTimer | internal/onionbalance/refresher.go:163-171 | no burst moves or replaces a timer that is already out |
| Refresher.NoChangeIsLost | internal/onionbalance/refresher.go:126-186 | in every reachable state, if the store differs from the last snapshot listed, a handler, a timer, a callback before its list or the initial list is outstanding |
| Refresher.SerialRunsFollow | internal/onionbalance/refresher.go:173-215 | when no two rebuilds overlap, a successful last write leaves the last listed snapshot in the file |
| Refresher.RestingConfigIsCurrent | internal/onionbalance/refresher.go:126-215 | a serial run that has come to rest after a successful write leaves the present store in the file |
| Refresher.CallbacksAreSpaced | internal/onionbalance/refresher.go:163-186 | successive callbacks take the lock at least one interval apart |
| Refresher.BriskRefresherIsCurrent | internal/onionbalance/refresher.go:126-215 | when every rebuild, the initial one included, writes within less than one interval of its list, a refresher at rest after a successful last write has the present store in its file, overlaps allowed |
| Refresher.IntervalIsTheBound | internal/onionbalance/refresher.go:126-215 | a bound on the time from list to write keeps every resting file current if and only if it is at most the interval |
| Refresher.QuickRebuildsMayOverlap | internal/onionbalance/refresher.go:126-186 | a concrete run in which rebuilds that take no time overlap |
| Refresher.FewCallbacksRemain | internal/onionbalance/refresher.go:163-186 | after the last change the number of callbacks to come is bounded by the handlers, timer, pending flag and flagged callbacks there are, overlapping or not |
| Refresher.TwoCallbacksRemain | internal/onionbalance/refresher.go:163-186 | after the last change and its handlers at most two more callbacks happen while callbacks do not overlap, even with a flagged one at work |
| Refresher.RunsComeToRest | internal/onionbalance/refresher.go:126-186 | after the last change a measure falls with every step other than waiting |
| Refresher.NeverStuck | internal/onionbalance/refresher.go:126-186 | short of rest some step can be taken, at worst after waiting for the timer |
| Refresher.OverlapLosesAnUpdate | internal/onionbalance/refresher.go:126-215 | a concrete run for any two stores: an initial rebuild of exactly one interval overlaps a callback's and the file stays out of date at rest |
| RefresherOutput.RestingFileShowsTheStore | internal/onionbalance/refresher.go:126-269 | at rest after rebuilds of less than one interval the file is, byte for byte, what the present Secrets render to in any order |
| Protocol.RunsKeepInv | internal/controller/gateway_controller.go:89-171 | the inductive invariant holds after every legal run |
| Protocol.EveryWantedIndexHasItsKey | internal/controller/gateway_controller.go:683-734 | at every moment of every run each wanted index has its own key Secret, and it parses |
| Protocol.EveryPodHasItsKey | internal/controller/gateway_controller.go:1148-1189 | when every reading of agreeing replica counts finds the live pods at the lowest ordinals, each live pod of the StatefulSet has its own key Secret at every moment |
| Protocol.RobberyNeedsMisreading | internal/controller/gateway_controller.go:1154-1163 | a live pod's Secret is deleted only after agreeing counts were read while other pods than the lowest were alive |
| Protocol.PodsKeyedExactly | internal/controller/gateway_controller.go:1154-1189 | all live pods have their keys throughout a run if and only if no deletion of the run takes the Secret of a live pod |
| Protocol.WantedKeyIsStable | internal/controller/gateway_controller.go:859-888 | a backend Secret's bytes never change while its index stays below the replica count |
| Protocol.NothingOutlivesTheGateway | internal/controller/gateway_controller.go:109-141 | a cross-namespace Role or RoleBinding exists only while the Gateway it names exists with the finalizer; a Gateway that is gone leaves none, nor a StatefulSet or backend Secret, though pods may still be stopping |
| Protocol.LeftoversDrain | internal/controller/gateway_controller.go:1234-1247 | pods that outlive their StatefulSet only become fewer until another StatefulSet is deleted |
| Protocol.KeySecretIsStable | internal/controller/gateway_controller.go:392-457 | the key Secret's bytes never change; only its deletion or owner collection ends it |
| Protocol.OwnKeyIsStable | internal/controller/gateway_controller.go:392-457 | a Gateway's own key Secret neither changes nor goes while the Gateway exists, unless a policy for Mode B has been accepted at some time |
| Protocol.RouterSurvives | internal/controller/gateway_controller.go:1208-1296 | no operator write deletes the router's ServiceAccount, Role or RoleBinding, and the current Gateway's own survive every step |
| Protocol.FilesOfParse | internal/controller/gateway_resources.go:106-124 | the files stored for a valid key parse back to it |
| Interference.EnvDrifts | internal/controller/gateway_controller.go:89-171 | every move of the environment stays within the drift relation the reconciler is proved against |
| Interference.KnowsStable | internal/controller/gateway_controller.go:109-141 | once the finalizer is on, the object the reconcile read stays the live one, in a later version |
| Interference.ModeBFixpoint | internal/controller/gateway_controller.go:649-757 | two completed, settled Mode B reconciles on the same inputs leave the same objects with the same contents, wherever the master Secret is |
| Reconciler.Controller.ReconcileTwice | internal/controller/gateway_controller.go:143-171 | two reconciles in a row that complete in the same mode on unedited inputs and the same master Secret leave the same objects, contents and published addresses, and in Mode A the same key |
| Reconciler.Controller.Do | internal/controller/gateway_controller.go:89-171 | one write: allowed by its guard, appended to the run, invariant kept |
| Reconciler.Controller.Api | internal/controller/gateway_controller.go:89-171 | a call leaves the cluster drifted by the environment only, and may fail; a failure, and nothing else here, is counted as a fault |
| Reconciler.Controller.DeleteObject | internal/controller/gateway_controller.go:1208-1232 | a successful delete leaves the object absent and nothing else touched |
| Reconciler.Controller.CleanupModeA | internal/controller/gateway_controller.go:1208-1232 | only removes; on success no object that only Mode A uses exists |
| Reconciler.Controller.DeleteRoles | internal/controller/gateway_controller.go:1250-1272 | on success no cross-namespace Role is left outside the kept namespaces, and those in them stay |
| Reconciler.Controller.CleanupModeB | internal/controller/gateway_controller.go:1234-1296 | only removes; on success no object that only Mode B uses exists in any namespace |
| Reconciler.Controller.RemoveFinalizer | internal/controller/gateway_controller.go:120-131 | with up to five conflict retries; on success the Gateway no longer holds the finalizer |
| Reconciler.Controller.EnsureCrossNsRbac | internal/controller/gateway_controller.go:800-854 | on success exactly one Role and one RoleBinding exist across namespaces, in the master's namespace and labelled with this Gateway |
| Reconciler.Controller.EnsureBackendKeySecretForIndex | internal/controller/gateway_controller.go:859-888 | on success the index has a Secret: the one that was there with its bytes, since the second read chooses what is written, or a key generated from a seed |
| Reconciler.Controller.EnsureBackendSecrets | internal/controller/gateway_controller.go:683-687 | on success every index below the replica count has a Secret |
| Reconciler.Controller.EnsureStatefulSet | internal/controller/gateway_controller.go:959-970 | needs every wanted index keyed; on success the replica count is the wanted one and no Secret changed |
| Reconciler.Controller.GcBackendSecretsIfSettled | internal/controller/gateway_controller.go:1154-1189 | unless a call fails it settles if and only if the counts it read agree; deletes nothing before; then only Secrets from the replica count up, and all of them on success; the pods alive at that reading then all have theirs if and only if they were the lowest ordinals, and in that case no live pod is robbed and every later pod is keyed |
| Reconciler.Controller.EnsureNetworkPolicy | internal/controller/gateway_controller.go:595-635 | the policy is rendered when the feature is on and gone when it is off |
| Reconciler.Controller.EnsureRouterRbac | internal/controller/gateway_controller.go:507-569 | on success the router's three objects are rendered for this Gateway from inputs no older than the call |
| Reconciler.Controller.ProvisionBackends | internal/controller/gateway_controller.go:683-734 | key Secrets, children, StatefulSet, collection in this order; on success all are in place together, it has settled if and only if the counts read agreed, and then no Secret beyond the replica count is left and the pods alive at the reading are keyed if and only if they were the lowest; however it ends the StatefulSet stays and nothing of Mode A appears |
| Reconciler.Controller.UpdateStatusModeB | internal/controller/gateway_controller.go:1027-1139 | with up to five conflict retries; on success the published addresses are the merge of what there was with the master |
| Status.MergeAddresses | internal/controller/gateway_controller.go:1098-1112 | the loop puts the master in the place of the first onion address, or last when there is none, and drops later ones |
| Status.MergePublishesOne | internal/controller/gateway_controller.go:1098-1112 | after the merge the master is the only onion address and all others are there in order |
| Status.MergePlacesMaster | internal/controller/gateway_controller.go:1098-1112 | the master stands where the first onion address stood, or last when there was none, and what was before is untouched |
| Status.MergeAgain | internal/controller/gateway_controller.go:1098-1112 | merging the same master again changes nothing |
| Reconciler.Controller.EnsureModeB | internal/controller/gateway_controller.go:649-757 | short of a fault it waits if and only if the master Secret is missing, and otherwise completes with the address of its key; a master elsewhere needs a grant; when it completes the Gateway is fully provisioned in Mode B, with no Mode A object and the master as the only onion address; cross-namespace objects are exactly its own pair, or untouched when the master is local; however it ends the StatefulSet stays and nothing of Mode A appears |
| Reconciler.Controller.MasterTextNamesKey | internal/controller/gateway_controller.go:661-681 | the master address published is the one of the public key in the master Secret, whose two files belong together |
| Reconciler.Controller.PatchFailure | internal/controller/vanity.go:240-259 | the patch needs no version, touches no own key, and on success leaves the reconcile's copy equal to the live object |
| Reconciler.Controller.PromoteVanityKey | internal/controller/vanity.go:143-166 | when it succeeds the key Secret is there, owned by this Gateway, with exactly the bytes of a populated output Secret that parses |
| Reconciler.Controller.PromotionKeepsBytes | internal/controller/vanity.go:143-166 | parsing an output and rendering it again returns its very bytes |
| Reconciler.Controller.RunVanityHarvest | internal/controller/vanity.go:51-114 | after a recorded failure of the prefix it makes no call at all; otherwise the Job and the output Secret it read decide, and only a fault stands in: pending means no Job, one for another prefix, or one neither failed nor with a whole output; a failed Job without a whole output is given up and recorded; a whole output is promoted; a missing Job has been launched for the prefix after account, Role, binding and output Secret, a stale one is gone with its recorded failure |
| Reconciler.Controller.StartHarvest | internal/controller/vanity.go:62-86 | the Job is read or launched only after its ServiceAccount, Role, RoleBinding and output Secret were there |
| Reconciler.Controller.EnsureKeySecret | internal/controller/gateway_controller.go:392-457 | what it read decides, and only a fault stands in: a key Secret that is there is returned unchanged, else the cached or authoritative prefix is harvested unless its failure is recorded, else a key is awaited if the annotation says so, else a random one is made; the Gateway's own key stays whatever the result; a random key is made, even by a call that then fails, only without the wait annotation and a prefix; nothing is created while the recorded failure's prefix stays requested |
| Reconciler.Controller.OnionOfPublicKey | internal/controller/gateway_controller.go:1323-1404 | the published address parses, and to the 32 key bytes of the public key file |
| Reconciler.Controller.UpdateStatus | internal/controller/gateway_controller.go:1323-1404 | on success the published addresses are exactly the address derived from the key files |
| Reconciler.Controller.ModeAFixpoint | internal/controller/gateway_controller.go:173-245 | two completed Mode A reconciles on the same inputs and key leave the same children and publish the same address |
| Reconciler.Controller.ReconcileModeA | internal/controller/gateway_controller.go:173-245 | the key step's result, explained by what it read, decides: a pending harvest, a failed one and an awaited policy each give their own reason in the status, a key gives a Gateway served in Mode A with no Mode B object, that key in place and its address published; it fails only with a fault; however it ends the own key stays, nothing of Mode B appears, and random keys are made only as allowed |
| Reconciler.Controller.AddFinalizerTo | internal/controller/gateway_controller.go:137-141 | the write succeeds only on the version that was read, and then the finalizer holds the object |
| Reconciler.Controller.ReleaseGateway | internal/controller/gateway_controller.go:112-135 | cleanup before the finalizer goes |
| Reconciler.Controller.ReconcileHeld | internal/controller/gateway_controller.go:143-171 | the policy that was read decides: none means Mode A, an unaccepted one a refusal that writes a status and nothing else, an accepted one Mode B; and it decides what may appear, however it ends |
| Reconciler.Controller.Reconcile | internal/controller/gateway_controller.go:89-171 | every execution, completed or aborted, is a legal run that spares live pods' keys, the own key without an accepted policy, and the other mode's objects, and makes random keys only as allowed; short of a fault the class, Gateway, policy, key state, master Secret and counts it read decide the outcome; each outcome comes with what it guarantees, those that do nothing write nothing; after Mode B a cross-namespace pair elsewhere is left if and only if the master is local and the pair was there; a recorded harvest failure keeps it from creating a Job or a key |
| Reconciler.Controller.Operate | internal/controller/gateway_controller.go:89-171 | any number of reconciles, completed or aborted, keep all that one keeps; while the object stays and nobody edits the prefix, a recorded failure means no Job and no key is created |
| Settled.BelowMeansLowest | internal/controller/gateway_controller.go:1148-1163 | when as many pods live as are wanted, they are all below the replica count if and only if they are the lowest ordinals |
| Runs.CountsAloneDoNotSettle | internal/controller/gateway_controller.go:1148-1189 | a concrete run: scaling from three to two while pod 0 is gone, the counts agree, and live pod 2 loses its Secret |
| Runs.OldPairStays | internal/controller/gateway_controller.go:655-659 | a concrete run: Mode B fully provisioned for a local master with the pair of the former foreign namespace still there |
| Router.ScoresRankMatches | internal/router/match.go:89-95 | on the matches of one request integer scores order as the precedence does at any path length, and equal scores mean the same match |
| Router.MatchesExactly | internal/router/match.go:97-116 | an Exact match accepts its value alone; a prefix accepts its value, its value followed by a slash, and as "/" every rooted path |
| Router.Match | internal/router/match.go:62-84 | the nested loop returns the first backend of a rule with a match that no accepting match beats and that beats all earlier ones, and finds none only if no match of a rule with backends accepts the path |
| Router.WinnerIsChosen | internal/router/match.go:62-84 | the winning candidate is a match of a rule, by their indices, before all equally good ones |
| Router.WinnerIsUnique | internal/router/match.go:62-84 | there is at most one winner |
| Router.WinningMatchIgnoresRuleOrder | internal/router/match.go:62-84 | reordering rules can change the winner only among rules with the identical match |
| Router.ConcatenationOutcome | internal/router/match.go:62-84 | the outcome of two tables together is the better of the two winners, the left one on a tie, the only one if one side has none, and none if neither has |
| Router.PrefixIsElementWise | internal/router/match.go:97-116 | a prefix matches as a list of path elements on every path if and only if it has no trailing slash or is "/" |
| Router.ConvertMatches | internal/router/httproute.go:29-60 | every match is converted in order, Exact only from "Exact", a given value unchanged, otherwise the prefix "/"; no matches means prefix "/" |
| Router.ConvertBackends | internal/router/httproute.go:62-78 | every backendRef is converted in order: its name, its namespace if given and else the route's, its port if given and else zero |
| Router.RulesFromHTTPRoute | internal/router/httproute.go:18-27 | every rule of a route is converted in order |
| Router.DropCrossNsBackends | internal/router/aggregate.go:64-77 | keeps, in order, exactly the backends of the route's own namespace, and every rule |
| Router.KeptBackends | internal/router/aggregate.go:64-77 | dropping keeps a backend if and only if it is of the namespace |
| Router.RefsResolvedExactly | internal/router/aggregate.go:38-60 | references count as resolved if and only if the first ResolvedRefs condition among the parents that are the Gateway says "True" |
| Router.TargetsExactly | internal/router/aggregate.go:79-104 | a route is the Gateway's if and only if some parent reference has its name and namespace and, where given, its kind and group |
| Router.RuleCompiles | internal/router/aggregate.go:23-36 | a rule of such a route keeps its matches, and a backend if and only if one of its backendRefs asks for it and it is local or the references are resolved |
| Router.RulesForGateway | internal/router/aggregate.go:23-36 | the table is the concatenation of what each targeting route compiles to |
| Router.CompiledBackendsAuthorized | internal/router/aggregate.go:23-77 | a backend is in the table if and only if a backendRef of a route for the Gateway asks for its name, namespace and port, and it is local to the route or the first ResolvedRefs condition says "True" |
| Router.RouteRequest | internal/router/aggregate.go:23-104 | for any routes and any path the chosen backend is authorized on the route's own fields and is the first backend of the chosen rule; none is chosen only if nothing matches |
| Router.RouteListsCompose | internal/router/aggregate.go:23-36 | matching a concatenation of route lists gives the left-biased better of the two outcomes, with a match in both, either or neither |
| AttachedRoutes.ParentTestsDiffer | internal/controller/httproute_controller.go:272-293 | the controller's and the router's parentRef tests differ exactly on an explicitly empty group or kind |
| AttachedRoutes.AttachesExactly | internal/controller/httproute_controller.go:217-293 | a parentRef attaches if and only if it names the Gateway, its group and kind are absent, empty or the Gateway's, and its section is absent or the listener |
| AttachedRoutes.AttachedCountsPairs | internal/controller/httproute_controller.go:217-250 | the number counted is the size of the set of attaching (route, parentRef) pairs |
| AttachedRoutes.CountRoutes | internal/controller/httproute_controller.go:217-250 | the counting loops give each listener its number of attaching (route, parentRef) pairs |
| AttachedRoutes.UpdateAttachedRoutes | internal/controller/httproute_controller.go:217-268 | every counter is overwritten with that number, nothing else changes, and the flag says exactly whether anything did |
| AttachedRoutes.RebuildListeners | internal/controller/gateway_controller.go:1353-1403 | one entry per listener of the spec, carrying over the counter found under its name |
| AttachedRoutes.RewriteKeepsCounters | internal/controller/gateway_controller.go:1353-1403 | after such a rewrite a counter is right if and only if the listener had an entry or nothing attaches to it |
| Permissions.WalkDistinct | internal/tor/permissions.go:86-126 | no two entries of a directory walk have the same path |
| Permissions.WalkVisits | internal/tor/permissions.go:86-126 | a walk visits every entry that a chain of names leads to |
| Permissions.WalkOnlyVisits | internal/tor/permissions.go:86-126 | and visits nothing else |
| Permissions.ModesSpelled | internal/tor/permissions.go:65-126 | compliance in numbers: 0700 for the directory and authorized_clients, 0600 for the secret key, no bit beyond 0644 for other files |
| Permissions.RepairedEntry | internal/tor/permissions.go:152-185 | a repaired entry complies, is not changed by a second repair, changed its permission bits if and only if it did not comply, and a non-secret file gained no bit |
| Permissions.RepairedSpelled | internal/tor/permissions.go:152-185 | the repaired mode in numbers: 0700 and 0600 for what is private, exactly the bits within 0644 that it had for any other file, other directories as they were |
| Permissions.HiddenServiceDir.FixPermissions | internal/tor/permissions.go:152-185 | succeeds if and only if no mode it has to set is refused; repairs every entry, or exactly those visited before the failure |
| Permissions.HiddenServiceDir.CheckPermissions | internal/tor/permissions.go:65-135 | reports exactly the offending paths, each once, in ascending order, without changing anything |
| Permissions.ReportIsUnique | internal/tor/permissions.go:127-134 | two reports on the same entries are the same list, whatever the order of the walk |
| Permissions.FixThenCheck | internal/tor/permissions.go:65-185 | after a successful repair the check finds nothing, the secret key and private directories have no group or other bit, a second repair changes nothing, and no non-secret file gained a permission bit |
| Conditions.ConditionList.SetCondition | internal/controller/gatewayclass_controller.go:80-101 | the list becomes the merged one, and the flag is true if and only if it changed |
| Conditions.MergedKinds | internal/controller/gatewayclass_controller.go:80-101 | types keep their order and stay distinct; only an absent type is appended |
| Conditions.HistoryOfOneType | internal/controller/gatewayclass_controller.go:80-101 | on any list of distinct types and after any calls an entry is the last call about its type, with the transition time of the first call in the latest unbroken run of its status; an entry there at the start counts as the first call |
| Conditions.UnmentionedHasNoEntry | internal/controller/gatewayclass_controller.go:80-101 | a type neither on the list at the start nor set since has no entry |
| Conditions.OrderIsStable | internal/controller/gatewayclass_controller.go:80-101 | over any history from a list of distinct types they stay distinct and later calls only append new ones |

## Left out

- Protocol.EveryPodHasItsKey: status.replicas is read as the exact number of live pods of the StatefulSet; pods of a deleted StatefulSet are not promised a key, since the cleanup does not wait for them.
- Protocol.NothingOutlivesTheGateway: only the operator writes Secrets, cross-namespace RBAC and the StatefulSet spec, and nobody else removes the finalizer.
- Reconciler.Controller.Operate: users do not edit the harvest annotation, where clearing it asks for a new harvest, nor the last-replicas annotation, which only triggers an Event and another write.
- Interference.ModeBFixpoint: stated of contents, not of writes; the NetworkPolicy counts as one rendered object whose rules are a set, and the onionbalance config map of older releases, which is deleted but never written, is left aside.
- Reconciler.Controller.UpdateStatus: condition messages, generations and listener statuses of the same write are one arbitrary "other news" flag; counters are in `AttachedRoutes`.
- Reconciler.Controller.ReconcileModeA: a key Secret that was there before and belongs to an earlier Gateway of the same name may be collected after it was read; any other key is in place.
- Reconciler.Controller.Reconcile: whether the GatewayClass is ours, whether a ReferenceGrant admits the master's namespace and what the master Secret holds are inputs of one reconcile; a denied grant and a refused master key count as faults.
- Reconciler.Controller.GcBackendSecretsIfSettled: walks the indices instead of names; `Names.IndexInvertsName` justifies it.
- Refresher.BriskRefresherIsCurrent: nothing retries a failed write or a failed signal, so a resting file may be old after one.
- Reads are consistent, except that the read of the vanity prefix through the informer cache may miss a recent policy; other informer lag, the client libraries and HTTP serving are not modelled.
- The contents of manifests (pod specs, probes, security contexts, torrc, NetworkPolicy rules) are one revision number of their inputs.
- The proof-of-work annotation, Kubernetes Events, requeue timing, and the reading of policies and Secrets of other controllers.
- Several Gateways at once: names are suffixes and can coincide between Gateways.
- A promoted key matching a prefix that changed during the harvest: the output Secret is not cleared with the stale Job, so the code does not promise it.
- A counter of attached routes after a route is deleted: the route controller returns early, so the code does not promise it.
- The merge of a route's parent statuses: a merge by controller name whose comparison ignores section names, without a harder property behind it.
- Random bytes, key derivation and signatures: bytes from the entropy source are arbitrary, deriving a public key is an unknown function, and whether the two files of the operator's own keys form a pair is not checked by the code.
- Non-ASCII text in address parsing, and partial base32 groups, which never fill an address and are cut off in the decoder.
- Symbolic links, races with other writers and the effect of directory modes on the walk in permission trees.
- Overlap of SIGHUP, pid files and atomic renames with a rebuild.
