# Zero Trust Workload Identity Manager: a verified model of its reconcilers

The operator keeps a SPIRE installation in line with a handful of custom resources. It is a set of
reconcile loops over a versioned object store that it shares with other writers. This project models
the parts where that is hard to get right and proves what they guarantee.

* `ApiServer.dfy` – the API server: every call may be refused, may take effect while its reply is lost,
  may be answered from any past state of the store, and is preceded by any number of writes of others.
  On top of it the two retry helpers of the operator's client.
* `Status.dfy` – condition lists and the status manager that derives Ready from what one run recorded.
* `Operands.dfy` – the top-level controller: it reads the operand statuses back, classifies and counts
  them, and derives its own Ready and the Upgradeable condition.
* `SpireServerObjects.dfy` – the parts of a SpireServer reconciliation: how each object is brought about,
  what each part records, and what it may do to the store.
* `SpireServerRun.dfy` – the reconciliation itself, from its first read to its deferred status update,
  and two of them in a row.
* `Sync.dfy` – merge, compare and write for the Service and for the webhook configuration.
* `Pods.dfy` – the comparison of workloads, and the owner-reference filter.
* `SpireStatefulSet.dfy`, `Proxy.dfy` – the generated StatefulSet and proxy injection into a pod.
* `Validation.dfy` – lifetimes of certificates, and federation.
* `MapHash.dfy` – the text hashed for a map.
* `KeyedLists.dfy` – counting and lookup arguments shared by the rest.

## The main results

1. **A run, whatever the server does.** `SpireServerRun.Reconcile` is proved for every script of
   refusals, lost replies, stale reads and foreign writes, each decided call by call: every commit it makes
   is to one key of its own scope, removes nothing and, in create-only mode, only adds keys, apart from the
   SpireServer resource itself. The Ready condition it leaves tells exactly how the run ended: after an
   early stop it is True if and only if, in this run, the read of the top-level resource or of the
   controller-manager ConfigMap failed other than with not-found. Those are the two returns that record
   nothing. Both are reached: when such a read is refused and nothing else goes wrong, the run stops
   early and Ready True is in the store (`ReadyStoredThoughReadIsRefused`). When nothing goes wrong at all,
   the run reaches its end (`NothingWrongArrives`).
2. **What a finished run has done.** With fresh reads and no other writer, every object it is about was
   created if missing, replaced under a new version by the merged object if it needed to be and could be,
   and otherwise left alone, and no other object has changed; the specification it worked on is the one the
   store holds; the StatefulSet is the generated one, and the hashes on its stored template are those of
   the stored configuration texts, so that they change exactly when the texts do, white space at the ends
   apart (`SettledRolloutFollowsText`). It is reported healthy exactly when the stored replica counts and
   generation agree, and every condition before it is shown True. A second reconciliation (`ReconcileAgain`, `ReconcileTwice`), with an
   API server that only fills in defaults and leaves the SpireServer and the ConfigMaps as sent, works on
   the same specification and leaves the Service, the webhook configuration and the ConfigMaps untouched,
   version included. The StatefulSet it writes again (`StatefulSetNeverSettles`).
3. **The retry helpers** commit at most once, over exactly the object they last read, and try again only
   after a conflict.
4. **The status chain** from recorded conditions through Ready, its classification and the counters up
   to Ready and Upgradeable of the top-level resource, in both directions, and from the end of a
   SpireServer run through the status it stores up to that verdict (`ReconcileAndDecide`).
5. **The fast list comparisons** are bijection tests exactly under distinct names.
6. **The lifetime bounds** are adjoint, the advice repairs, and validation makes the translation of
   federated trust domains lossless. No advice asks for more than is needed (`Ttl.AdviceIsTight`).

## Where the code departs from what one would expect

* A CA lifetime of -5 to -1 nanoseconds is compatible with an identity lifetime of zero, because the
  division truncates (`Ttl.BoundsAreAdjoint` gives the exact exception).
* The error texts say that the CA lifetime "must be greater than" an identity lifetime; equality is
  accepted. The model follows the code.
* Below a CA lifetime of six nanoseconds the bound a warning names is zero, which the validator
  refuses (`Ttl.BoundsThemselvesRepair`).
* The controller-manager container declares ports without a protocol. The comparison indexes ports by
  number and protocol, so against an API server that fills protocols in, the StatefulSet is rewritten
  by every reconciliation that reaches its end (`SpireStatefulSet.GeneratedFacts`,
  `SpireServerRun.ReconcileRewrites`). A run keeps a stored StatefulSet exactly when it is in create-only
  mode or the comparison finds no difference (`WorkloadKeptExactly`); a pod matches its own form with
  protocols and probe schemes filled in exactly when it leaves none of them unset
  (`Comparison.FilledPodMatchesExactly`).
* The Ready message depends on the iteration order of a map exactly when two conditions of the
  deciding class carry different messages (`StatusManager.MessageDependsOnOrder`).
* `UpdateWithRetry` restamps the caller's object with the version it finds, so an edit made after the
  caller's own read is overwritten rather than reported (`RetryClient.RestampingNeverConflicts`).
* A comment says a missing OperatorCondition is skipped; the code returns an error, which its caller logs.
* A disabled managed route counts as a failure, so no run of such a SpireServer that reaches its end shows
  Ready True; a silent early stop still does.
* The owner-reference filter looks up new owners by UID in the old list. It is right for every old list
  with distinct UIDs exactly for new lists that repeat no pair of UID and name, or list one UID under two
  names (`Owners.DecidesExactly`). The Kubernetes API server drops references that are equal in every
  field, so an update event needs two references of one UID and name that differ in kind or API version
  to hide the removal of a third; nothing in the operator writes such a list.
* A Ready condition that is not True with reason Ready is counted as failed and never named, and one
  with the sentinel message does not block an upgrade; neither is ever written by the status manager
  (`Operands.UnnamedExactly`, `Operands.SentinelExactly`).
* An entry whose key contains `=` or whose value contains `;` is misread from the hashed text
  (`MapHash.ReadsBack`), and different data then hash alike (`MapHash.SeparatorsCollide`).

## Model

| member | source | states |
|---|---|---|
| RetryClient.UpdateWithRetry | pkg/client/client.go:150-169 | Under any writers and stale reads: at most one commit, last and at the key, over exactly the object the last round read; success means the store holds the caller's spec as admitted next to the status that was there; an error without a lost reply means every change came from others; at most five rounds, and every call but the last succeeded or met a conflict. |
| RetryClient.StatusUpdateWithRetry | pkg/client/client.go:171-189 | The same for the status subresource; success keeps whatever spec was stored at the moment of the commit, so no concurrent spec edit is lost. |
| RetryClient.WriteWithRetry | pkg/client/client.go:157-168 | The shared loop: one to five rounds of a read and a write; a round is repeated only after a conflict, so any other error is returned at once; a conflict is returned only when all five rounds met one, and a fresh undisturbed first round succeeds and is the only one. |
| RetryClient.RestampingNeverConflicts | pkg/client/client.go:158-167 | A fresh undisturbed round always succeeds, whatever others wrote since the caller built its object: a status write keeps their spec, a plain write overwrites it. |
| ApiServer.SameVersionSameObject | pkg/client/client.go:161-167 | In every reachable history two views that give a key one version agree on its object, which is what makes restamping with a stale version safe. |
| ApiServer.WritesRenew | pkg/client/client.go:144-148 | An undisturbed write that succeeds gives its object a version it did not have. |
| ApiServer.ServedErrors | pkg/client/client.go:144-148 | A served create fails iff the object exists, a served write with not-found iff it does not and with a conflict iff its version is not the current one. |
| ApiServer.OthersCompose | pkg/client/client.go:150-189 | Between any two calls other writers may make any sequence of writes and removals, one after the other. |
| Conditions.SetAllFacts | pkg/controller/status/status.go:134-143 | Applying recorded conditions shows each of them and leaves every condition of another type as and where it was. |
| Conditions.SetAllTimes | pkg/controller/status/status.go:134-143 | Each applied condition bears its old time if its status is the old one, and otherwise the present time. |
| Conditions.ChangedIffNotReflected | pkg/controller/status/status.go:127-153 | The list changes exactly when it did not already show the recorded conditions, and shows them afterwards. |
| StatusManager.DerivedFacts | pkg/controller/status/status.go:65-114 | In every iteration order Ready is Failed iff some recorded non-exempt False condition has a non-progressing reason, Progressing iff there are only progressing ones, else Ready; its message comes from the deciding class. |
| StatusManager.ReadyExactly | pkg/controller/status/status.go:65-114 | From the recorded conditions, Ready, Degraded and CreateOnlyMode apart: Ready True iff none of them is False, Progressing iff all False ones have one of the three not-ready reasons of workloads, Failed otherwise, quoting type and message of one that decides. |
| StatusManager.EveryCandidateReachable | pkg/controller/status/status.go:80-95 | Each message of the deciding class is shown under some iteration order. |
| StatusManager.MessageDependsOnOrder | pkg/controller/status/status.go:98-113 | The whole derived condition is independent of the order iff the deciding class carries one message only. |
| StatusManager.Manager.AddCondition | pkg/controller/status/status.go:54-61 | Records one condition under its type, replacing an earlier one of that type only. |
| StatusManager.Manager.SetReadyCondition | pkg/controller/status/status.go:65-114 | The loop computes the derived Ready for the order in which the map happened to be iterated and records nothing else. |
| StatusManager.Manager.ApplyStatus | pkg/controller/status/status.go:117-153 | Ready is derived only if not recorded; the list shows all recorded conditions, keeps the others, moves the time of a condition iff its status changes; a write is asked for iff the stored list did not show them already. |
| StatusManager.ApplyTwice | pkg/controller/status/status.go:129-152 | Applying the same conditions again, at any time, asks for no write and changes nothing. |
| Operands.ExtractKeyConditions | pkg/controller/zero-trust-workload-identity-manager/controller.go:495-530 | Keeps create-only when True, and for an operand that is not ready its Ready condition and every other False one, in order. |
| Operands.KeyConditionsExactly | pkg/controller/zero-trust-workload-identity-manager/controller.go:495-530 | A condition is kept iff it is create-only mode and True or, for an operand that is not ready, its Ready condition or any other one that is False. |
| Operands.SummaryFacts | pkg/controller/zero-trust-workload-identity-manager/controller.go:419-470 | What the summary says of a missing, unreadable, unreconciled or reconciled operand: ready iff its Ready condition is True, and otherwise that condition's message or the text for its situation. |
| Operands.ClassifyExactly | pkg/controller/zero-trust-workload-identity-manager/controller.go:69-110 | Known reasons decide and otherwise the words in the message; asking for the three whole messages first makes no difference. |
| Operands.ContainsExactly | pkg/controller/zero-trust-workload-identity-manager/controller.go:112-115 | The test finds a word iff some stretch of the text is that word up to the case of its letters. |
| Operands.NoSentinelCollision | pkg/controller/zero-trust-workload-identity-manager/controller.go:596-617 | No Ready message the operator produces equals the sentinel for a missing resource. |
| Operands.DerivedAsWritten | pkg/controller/status/status.go:97-114 | Every derived Ready condition, in every order, has the form that the classification relies on. |
| Operands.OperandRunWrites | pkg/controller/status/status.go:117-153 | What an operand run leaves in a status has that form, when Ready conditions set by hand have it. |
| Operands.ClassIsState | pkg/controller/zero-trust-workload-identity-manager/controller.go:69-110 | For operands missing, unreadable, unreconciled or as written, the class computed from the summary is the state read directly off the resource; ready iff that state is ready, sentinel message iff missing. |
| Operands.Conservation | pkg/controller/zero-trust-workload-identity-manager/controller.go:363-381 | On any list ready, pending and broken add up to its length, and the broken are those named as failed plus those that cannot be named. |
| Operands.NamesExactly | pkg/controller/zero-trust-workload-identity-manager/controller.go:283-320 | The names listed are those of the operands of the class, in their order. |
| Operands.AggregateState.ProcessOperandStatus | pkg/controller/zero-trust-workload-identity-manager/controller.go:363-381 | Each counter and flag moves exactly when the operand is pending, broken, not ready, or existing. |
| Operands.AggregateOperandStatus | pkg/controller/zero-trust-workload-identity-manager/controller.go:384-410 | Over a list of any length: nothing is lost or counted twice, all ready iff both counts are zero iff each operand is ready, a failure is counted iff one is broken, something exists iff one message is not the sentinel. |
| Operands.RecordReady | pkg/controller/zero-trust-workload-identity-manager/controller.go:267-327 | Ready and OperandsAvailable are both True iff all are ready, both Failed iff something failed, else both Progressing, and unless all are ready with one message, which names exactly that class. |
| Operands.SetCreateOnlyModeCondition | pkg/controller/zero-trust-workload-identity-manager/controller.go:217-233 | On in create-only mode; off is recorded once, while the stored condition is still True; nothing else moves. |
| Operands.SetInitialReconciliationStatus | pkg/controller/status/status.go:43-51 | The marker makes Ready False with its own message and leaves the other types alone. |
| Operands.Upgradeable | pkg/controller/zero-trust-workload-identity-manager/controller.go:577-638 | True iff not create-only and every operand is ready or carries the sentinel message; otherwise the message says which operands stand in the way. |
| Operands.Decide | pkg/controller/zero-trust-workload-identity-manager/controller.go:267-343 | The recorded Ready and Upgradeable follow from the operand statuses, OperandsAvailable says what Ready says, and Ready never repeats the marker's message. |
| Operands.Reconcile | pkg/controller/zero-trust-workload-identity-manager/controller.go:237-343 | The marker never survives: the final status write always fires and carries the new operands; if it succeeds the store holds that status; Ready, OperandsAvailable and Upgradeable follow from the operands, and create-only mode is shown when it is on. |
| Operands.VerdictFromReads | pkg/controller/zero-trust-workload-identity-manager/controller.go:237-343 | Ready iff every operand is ready, Failed iff one has failed, Progressing otherwise; upgradeable iff not create-only and every operand is ready or absent. |
| Operands.UnnamedExactly | pkg/controller/zero-trust-workload-identity-manager/controller.go:84-110 | Whatever wrote the status: an operand is counted as failed and never named iff its Ready condition is not True and has reason Ready. |
| Operands.SentinelExactly | pkg/controller/zero-trust-workload-identity-manager/controller.go:596-617 | Whatever wrote the status: the sentinel message stands for a missing resource unless a Ready condition that is not True carries it, and exactly such an operand passes for absent. |
| Operands.FailedAreNamedExactly | pkg/controller/zero-trust-workload-identity-manager/controller.go:307-320 | The names listed number the failed operands iff no Ready condition contradicts itself. |
| Operands.WrittenAreNamed | pkg/controller/zero-trust-workload-identity-manager/controller.go:307-320 | For conditions written by the status manager no failed operand goes unnamed. |
| Operands.HandWrittenConditionsMislead | pkg/controller/zero-trust-workload-identity-manager/controller.go:84-110 | One condition of each kind, at any kind and time: the first is counted and never named, the second does not block an upgrade. |
| KeyedLists.CoverIsPermutation | pkg/controller/utils/resource_comparison.go:337-356 | Pigeonhole: a list of the same length that covers a duplicate-free list is a permutation of it. |
| KeyedLists.LookupIsPairing | pkg/controller/utils/resource_comparison.go:659-706 | Equal length plus lookup by key is the existence of a key-preserving bijection with matching values. |
| KeyedLists.FilteredExactly | pkg/controller/zero-trust-workload-identity-manager/controller.go:517-527 | What a filter keeps are the elements at increasing positions, and those positions are all at which an element qualifies. |
| Comparison.StringSlicesEqual | pkg/controller/utils/resource_comparison.go:337-378 | The loop decides equal length plus membership. |
| Comparison.SlicesEqualIsPermutation | pkg/controller/utils/resource_comparison.go:337-378 | For a duplicate-free desired list it decides permutation. |
| Comparison.SlicesEqualExactlyForDistinct | pkg/controller/utils/resource_comparison.go:337-356 | It decides permutation against every existing list iff the desired list has no duplicate. |
| Comparison.ContainerSpecModified | pkg/controller/utils/resource_comparison.go:522-599 | False iff the stored container is the desired one in every field, ports and probe times apart, and the ports match by number and protocol. |
| Comparison.ContainersEqual | pkg/controller/utils/resource_comparison.go:662-686 | True iff the lists have one length and each desired name is found with matching fields. |
| Comparison.VolumesEqual | pkg/controller/utils/resource_comparison.go:412-519 | True iff the lists have one length and each desired volume is what is left of the stored one of its name when only the sources it sets are looked at. |
| Comparison.StatefulSetNeedsUpdate | pkg/controller/utils/resource_comparison.go:602-724 | False iff the stored StatefulSet is the desired one in every field but the annotations other than three, the storage classes, a DNS policy not asked for and replicas not counted on both sides, and containers, init containers and volumes match. |
| Comparison.ScalarsExactly | pkg/controller/utils/resource_comparison.go:602-724 | The scalar tests pass iff the stored StatefulSet is the desired one with exactly the fields put in that are not compared. |
| Comparison.ListsMatchIsBijection | pkg/controller/utils/resource_comparison.go:659-706 | For distinct desired names the lists match iff containers, init containers and volumes pair off one to one by name with matching fields; nothing extra escapes. |
| Comparison.PortsArePermuted | pkg/controller/utils/resource_comparison.go:545-560 | In a matched container the ports are a permutation, equal in every field. |
| Comparison.ListsMatchPermuted | pkg/controller/utils/resource_comparison.go:659-706 | With distinct names on both sides permuting any of the lists, on either side, leaves the answer unchanged. |
| Comparison.UnsetProtocolNeverMatches | pkg/controller/utils/resource_comparison.go:545-560 | A desired port without protocol never matches a pod whose protocols were filled in. |
| Comparison.FilledPodMatchesExactly | pkg/controller/utils/resource_comparison.go:545-580 | With distinct names and port keys a pod matches its own form with protocols and probe schemes filled in iff it leaves none of them unset. |
| Owners.OwnerReferencesChanged | pkg/controller/utils/utils.go:280-304 | The filter passes an update iff lengths differ or some new owner is not found by UID under its name. |
| Owners.UnchangedIsSamePairs | pkg/controller/utils/utils.go:280-304 | With distinct old UIDs and no repeated new pair an update is dropped iff both lists hold the same set of UID and name pairs. |
| Owners.DecidesExactly | pkg/controller/utils/utils.go:280-304 | The filter is right against every old list with distinct UIDs iff the new list repeats no pair or has one UID under two names. |
| Owners.RepetitionHidesRemoval | pkg/controller/utils/utils.go:291-303 | For every other new list there is an old one, with distinct UIDs, that is taken for it although an owner is gone. |
| Owners.AmbiguousIsNoticed | pkg/controller/utils/utils.go:296-301 | A new list with one UID under two names always passes, and rightly. |
| Metadata.LabelsMatch | pkg/controller/utils/resource_comparison.go:77-110 | True iff every wanted entry is there with its value; extra entries are tolerated. |
| ServiceSync.Desired | pkg/controller/spire-server/service.go:206-247 | The federation port and the serving-certificate annotation are there iff federation is configured; every other annotation is kept, a port is kept iff it is not the federation port of an unfederated Service, and the rest is the manifest's. |
| ServiceSync.Merge | pkg/controller/spire-server/service.go:84-104 | In-place edits and the normalising loop: cluster addresses, address families and their policy, traffic policy, session affinity and a health-check port that is set stay as stored; labels, annotations, type, selector and ports are the desired ones, protocols filled in. |
| ServiceSync.Reconcile | pkg/controller/spire-server/service.go:40-120 | Creates if missing, nothing in create-only mode, otherwise writes the merge, preserving the stored fields one by one, iff the stored Service does not show what is desired. |
| ServiceSync.ShowsExactly | pkg/controller/spire-server/service.go:105-112 | The comparison with the merged Service finds nothing to do iff the stored one has every wanted label and annotation and agrees in type, selector and every port. |
| ServiceSync.AdmittedIsUpToDate | pkg/controller/spire-server/service.go:84-120 | Whatever the API server assigns, adds or defaults in what a run sends, the result is up to date for the next run. |
| ServiceSync.TwoRuns | pkg/controller/spire-server/service.go:84-120 | One write suffices for any stored Service. |
| WebhookSync.MergePreserved | pkg/controller/spire-server/webhook.go:76-107 | The nested loops, in place on the desired array, for stored lists of any length: at each position every preserved field is the stored one if that is set and otherwise the desired one, and all else is as desired. |
| WebhookSync.MergeTouchesOnlyPreserved | pkg/controller/spire-server/webhook.go:76-107 | On arbitrary stored lists no field other than the preserved ones changes. |
| WebhookSync.ReproducedIffSameUpToPreserved | pkg/controller/spire-server/webhook.go:76-116 | The merge reproduces the stored list iff that is the desired list up to preserved fields that it covers. |
| WebhookSync.OneWriteSuffices | pkg/controller/spire-server/webhook.go:76-116 | Whatever was stored before, the list stored after a write is reproduced by the next merge. |
| WebhookSync.Reconcile | pkg/controller/spire-server/webhook.go:22-132 | Creates if missing, nothing in create-only mode, otherwise writes the desired configuration with the preserved fields of the stored one, iff the stored configuration does not show what is desired. |
| WebhookSync.ShowsExactly | pkg/controller/spire-server/webhook.go:108-116 | The comparison with the merged configuration finds nothing to do iff the stored one has every wanted label and annotation and its webhooks already are what the merge keeps and takes. |
| WebhookSync.AdmittedIsUpToDate | pkg/controller/spire-server/webhook.go:76-116 | What admission and a certificate injector make of either thing a run sends is up to date for the next run. |
| WebhookSync.TwoRuns | pkg/controller/spire-server/webhook.go:76-132 | The run after a run writes nothing. |
| Ttl.BoundsAreAdjoint | pkg/controller/spire-server/validation.go:36-54 | For identity lifetimes up to seven days: no wrap-around, and compatible iff the CA lifetime reaches the minimum, with the exact exception caused by truncation. |
| Ttl.NothingAboveTheCap | pkg/controller/spire-server/validation.go:36-41 | Above seven days no CA lifetime is long enough. |
| Ttl.Validate | pkg/controller/spire-server/validation.go:72-158 | Accepted iff all lifetimes are positive and within that of the CA, and a refusal gives a reason that holds; the warnings are those of the two checks in order, and every advised CA lifetime is a true product, not a wrapped one. |
| Ttl.AdviceRepairs | pkg/controller/spire-server/validation.go:112-150 | Following every warning in any way it allows gives a configuration accepted without warnings. |
| Ttl.AdviceIsTight | pkg/controller/spire-server/validation.go:112-150 | No advice asks for too much: any longer identity lifetime and any shorter CA lifetime than the ones named are still incompatible. |
| Ttl.BoundsThemselvesRepair | pkg/controller/spire-server/validation.go:112-150 | Setting the very bounds named repairs iff the CA lifetime is at least six nanoseconds. |
| Federation.EndpointProblem | pkg/controller/spire-server/validation.go:199-238 | No problem iff https_web has exactly one well-formed certificate source and the refresh hint is unset or in range. |
| Federation.TrustProblem | pkg/controller/spire-server/validation.go:280-302 | No problem iff the domain is set, the URL is https and an https_spiffe entry has a SPIFFE ID; a problem that is named is one the entry has. |
| Federation.ValidateEntries | pkg/controller/spire-server/validation.go:176-193 | Accepts iff all entries are well formed, foreign and of different domains; otherwise reports the first entry that spoils the list, by its index and for the right reason. |
| Federation.Validate | pkg/controller/spire-server/validation.go:161-196 | Accepts iff endpoint, size and entries are fine; a reported problem is a real one. |
| Federation.GenerateFederatesWith | pkg/controller/spire-server/configmap.go:332-358 | Absent iff the list is empty, else the map from each domain to its last entry. |
| Federation.TranslationLossless | pkg/controller/spire-server/configmap.go:327-360 | After validation one map entry per list element, none for the own domain, each decoding back to its URL, profile and SPIFFE ID. |
| Federation.TranslationSize | pkg/controller/spire-server/configmap.go:332-358 | Entries are lost iff two of them name one domain. |
| Federation.OrderIrrelevant | pkg/controller/spire-server/validation.go:161-196 | A reordered list is accepted alike and gives the same map. |
| Proxy.ExtendNoProxy | pkg/controller/utils/proxy.go:56-68 | The loop gives the comma-separated non-empty entries, the configured ones first. |
| Proxy.JoinedSplits | pkg/controller/utils/proxy.go:56-68 | Entries without commas are read back from the joined text, one by one. |
| Proxy.GetProxyEnvVars | pkg/controller/utils/proxy.go:39-78 | The set proxy variables in order, with NO_PROXY extended. |
| Proxy.ProxyValues | pkg/controller/utils/proxy.go:39-78 | Each name has the value of its own setting, and is there iff that is set; NO_PROXY has the configured entries and the added ones. |
| Proxy.InjectProxyEnvVars | pkg/controller/utils/proxy.go:138-156 | Appends exactly the variables whose names are missing. |
| Proxy.AddTrustedCaBundle | pkg/controller/utils/proxy.go:214-227 | Appends the mount iff a bundle is configured and no mount of that name is there. |
| Proxy.PodTemplate.AddProxyConfig | pkg/controller/utils/proxy.go:246-289 | The in-place edit of containers, init containers and volumes gives the proxied pod. |
| Proxy.InjectionFacts | pkg/controller/utils/proxy.go:138-156 | Old variables stay a prefix, names stay distinct, every set variable ends up defined, a second injection finds nothing missing. |
| Proxy.InjectionExactly | pkg/controller/utils/proxy.go:246-289 | The bundle's volume is appended iff one is configured and no volume of that name is there; nothing else of the pod changes but its containers, init containers included, and those each for itself. |
| Proxy.ContainerFacts | pkg/controller/utils/proxy.go:138-227 | Per container: environment and mounts kept as prefixes, names distinct, all variables defined when a proxy is enabled, and every new variable or mount is a proxy setting or the bundle. |
| Proxy.InjectionIdempotent | pkg/controller/utils/proxy.go:246-289 | Injecting into any pod twice is injecting once. |
| Proxy.InjectionKeepsMountsDeclared | pkg/controller/utils/proxy.go:246-289 | If every mount named a declared volume or claim, it still does. |
| Proxy.InjectionKeepsNamesDistinct | pkg/controller/utils/proxy.go:246-289 | Volume names stay distinct, container names stay as they were. |
| SpireStatefulSet.BaseFacts | pkg/controller/spire-server/statefulset.go:110-232 | Distinct names, every mount declared, the database secret among the volumes iff configured. |
| SpireStatefulSet.AddFederation | pkg/controller/spire-server/statefulset.go:262-297 | The in-place edits add exactly the federation port and, iff a serving certificate is configured, its mount and volume. |
| SpireStatefulSet.FederationKeepsWellFormed | pkg/controller/spire-server/statefulset.go:262-297 | On any well-formed pod that leaves names distinct and mounts declared, with the port in place. |
| SpireStatefulSet.BuildPod | pkg/controller/spire-server/statefulset.go:248-258 | Proxy settings first and federation parts after them give the pod. |
| SpireStatefulSet.PodFacts | pkg/controller/spire-server/statefulset.go:248-258 | For every configuration and environment the pod is well formed and defines every proxy variable in both containers. |
| SpireStatefulSet.GeneratedHashes | pkg/controller/spire-server/statefulset.go:158-163 | Both hashes are on the template. |
| SpireStatefulSet.GeneratedParts | pkg/controller/spire-server/statefulset.go:110-247 | One replica, both containers in order with their own images and the configured resources, the service account and the claim of the configured size and class. |
| SpireStatefulSet.GeneratedSupplied | pkg/controller/spire-server/statefulset.go:178-245 | Whatever proxy and federation add, the configuration volumes come from the two ConfigMaps that are hashed, and each container mounts its own. |
| SpireStatefulSet.GeneratedPorts | pkg/controller/spire-server/statefulset.go:165-225 | The server reads the file mounted from its ConfigMap; both containers have their ports, the server the federation port iff federation is configured, and every probe asks at a port its container has. |
| SpireStatefulSet.FederationSupplied | pkg/controller/spire-server/statefulset.go:262-297 | The serving certificate is mounted, from the secret the Service's annotation asks for, iff one is configured. |
| SpireStatefulSet.GeneratedFacts | pkg/controller/spire-server/statefulset.go:85-259 | For every configuration: well formed, and never up to date once protocols are filled in. |
| SpireStatefulSet.NeverUpToDate | pkg/controller/spire-server/statefulset.go:209-212 | The controller-manager ports alone make the comparison fail against any pod with filled-in protocols. |
| Texts.TrimIdempotent | pkg/controller/spire-server/configmap.go:432-442 | Trimming twice is trimming once, so hashing trimmed or untrimmed text is the same. |
| Texts.TrimSpaceExactly | pkg/controller/spire-server/configmap.go:438-442 | What trimming removes at either end is white space, and what it leaves is the contiguous rest, which neither begins nor ends with any. |
| MapHash.SortStrings | pkg/controller/utils/utils.go:157-165 | Sorted and a permutation. |
| MapHash.SortedKeysUnique | pkg/controller/utils/utils.go:157-165 | The sorted key sequence is determined by the map alone. |
| MapHash.HashedText | pkg/controller/utils/utils.go:157-178 | Whatever the iteration order, the text renders the sorted keys. |
| MapHash.HashedTwice | pkg/controller/utils/utils.go:157-178 | Two evaluations on one map hash one text. |
| MapHash.ReadsBack | pkg/controller/utils/utils.go:166-173 | The text parses back to the trimmed entries iff no trimmed key has an '=' and no trimmed value a ';'. |
| MapHash.InjectiveUpToTrimming | pkg/controller/utils/utils.go:157-178 | Under that restriction two maps hash one text iff their trimmed entries agree. |
| MapHash.SeparatorsCollide | pkg/controller/utils/utils.go:166-173 | Any two trimmed entries collide with the one entry whose value spells the second of them out. |
| SpireServerObjects.CreateOnlySafety | pkg/controller/spire-server/rbac.go:109-113 | Over any number of runs in create-only mode an object that was there is there after every commit, unchanged, unless it is the SpireServer resource. |
| SpireServerObjects.ScopeSafety | pkg/controller/spire-server/controller.go:75-193 | In either mode nothing outside the own, managed, ConfigMap, StatefulSet and route keys is created, changed or removed. |
| SpireServerObjects.KeysOnlyGrow | pkg/controller/spire-server/rbac.go:71-133 | In either mode no key disappears by the operator's doing. |
| SpireServerObjects.SyncObject | pkg/controller/spire-server/rbac.go:71-133 | Get, then create, or merge, compare and update: every commit is allowed; undisturbed, only its key changes and success means created, left alone or replaced under a new version as called for; if its calls are served it succeeds. |
| SpireServerObjects.ReconcileGroup | pkg/controller/spire-server/rbac.go:22-68 | Objects sharing a condition: success has the effect of every step, relative to the store before the group, and no other, and shows the condition True; failure shows it False. |
| SpireServerObjects.GroupsCompose | pkg/controller/spire-server/controller.go:145-163 | Effects of groups on different objects add up. |
| SpireServerObjects.ReconcileServerConfig | pkg/controller/spire-server/configmap.go:37-98 | Success needs trust domain and bundle name, returns the hash of the trimmed text the ConfigMap was brought to and shows its condition True; every failure shows it False; the second marshalling cannot fail. |
| SpireServerObjects.ReconcileManagerConfig | pkg/controller/spire-server/configmap.go:101-155 | The same with trust domain and cluster name, except that a failed read, and only that, returns an error and records nothing; if nothing else goes wrong it succeeds unless that read fails. |
| SpireServerObjects.HashFollowsText | pkg/controller/spire-server/configmap.go:438-442 | With a hash function that tells trimmed texts apart two annotations are equal iff their texts are, white space at the ends apart. |
| SpireServerObjects.ReconcileBundle | pkg/controller/spire-server/configmap.go:158-189 | Only ever creates; nothing that exists changes, even if the configured name is that of another ConfigMap. |
| SpireServerObjects.NeedsUpdate | pkg/controller/spire-server/controller.go:318-325 | False iff both hashes, the labels and everything the workload comparison looks at agree. |
| SpireServerObjects.WorkloadShowsExactly | pkg/controller/spire-server/controller.go:318-325 | That is so iff every wanted label is there with its value and the comparison, field by field, finds no difference; the separate tests of the hashes add nothing. |
| SpireServerObjects.CheckHealth | pkg/controller/status/status.go:156-177 | Undisturbed, Healthy iff the stored StatefulSet asks for n replicas, n are ready, n are updated and the observed generation is the present one; unreadable iff it is not there, if reads are served; the recorded condition is good, starting or failing accordingly. |
| SpireServerObjects.ReconcileWorkload | pkg/controller/spire-server/statefulset.go:33-78 | Success brings the StatefulSet to the one generated for the specification and both hashes, under a new version if it is replaced; each failure is recorded as failing. |
| SpireServerObjects.GeneratedWorkload | pkg/controller/spire-server/statefulset.go:85-259 | What is generated carries both hashes and the labels, is well formed, has the federation port iff federation is configured, and is never found in a stored StatefulSet whose protocols are filled in. |
| SpireServerObjects.ReconcileRoute | pkg/controller/spire-server/routes.go:92-171 | A managed route is created, left alone or replaced; a disabled one is shown False and counts as a failure; no federation records nothing. |
| SpireServerObjects.ValidateConfiguration | pkg/controller/spire-server/controller.go:251-289 | Succeeds iff fields, proxy settings, issuer and federation are fine, and otherwise shows the condition False with the reason of the check that failed. |
| SpireServerObjects.HandleTtlValidation | pkg/controller/spire-server/controller.go:328-363 | Succeeds iff the lifetimes are accepted, with a warning as the reason iff one of them is incompatible. |
| SpireServerRun.NeedsOwnerReferenceUpdate | pkg/controller/utils/utils.go:316-337 | True iff no owner has the expected UID, name and kind. |
| SpireServerRun.EnsureOwner | pkg/controller/spire-server/controller.go:113-130 | A write is made iff the owner is missing and may be set; what is in memory afterwards is what is stored; each failure sets Ready to Failed. |
| Owners.WithOwnerFacts | pkg/controller/spire-server/controller.go:114-114 | The first reference to the same kind and name is gone, the new one is there, all others are kept; without repeated ones no other to that object is left. |
| SpireServerRun.HandleCreateOnlyMode | pkg/controller/spire-server/controller.go:232-248 | The condition is True in the mode, False once after it, otherwise untouched. |
| SpireServerRun.ApplyStatus | pkg/controller/status/status.go:117-153 | The deferred update: a write iff the in-memory conditions did not show the recorded ones; success means the store holds them; undisturbed, only the status of the SpireServer resource changes. |
| SpireServerRun.ReconcileManaged | pkg/controller/spire-server/controller.go:145-163 | Service account, services, RBAC and webhook all had their effect, their conditions are shown True and nothing else changed, or a failing condition is recorded. |
| SpireServerRun.ReconcileConfigured | pkg/controller/spire-server/controller.go:165-190 | ConfigMaps, StatefulSet and route are brought about and no object of another kind changes; the ConfigMaps' conditions are shown True, and the workload is as healthy as reported; an early stop is recorded unless silent. |
| SpireServerRun.ReadyFollows | pkg/controller/spire-server/controller.go:92-98 | From what a run recorded the applied Ready condition tells how it ended, in every iteration order, has the form the top-level controller relies on, and is never the marker. |
| SpireServerRun.SettledAgrees | pkg/controller/spire-server/controller.go:165-185 | Whichever path each object took, the two hash annotations equal the hashes of the two stored configuration texts. |
| SpireServerRun.RolloutFollowsText | pkg/controller/spire-server/controller.go:165-185 | Between any two stores that runs left behind, each annotation on the pod template differs iff the stored text it belongs to does, white space at its ends apart. |
| SpireServerRun.SettledRolloutFollowsText | pkg/controller/spire-server/controller.go:165-185 | Of two settled runs, for any two specifications: the annotation changes iff what they render does. |
| SpireServerRun.EveryObject | pkg/controller/spire-server/controller.go:145-163 | A settled run has had its effect on every object of every group. |
| SpireServerRun.WorkloadKeptExactly | pkg/controller/spire-server/statefulset.go:52-63 | A settled run keeps a stored StatefulSet, version included, iff it is in create-only mode or the comparison finds no difference; otherwise it replaces it by the generated one. |
| SpireServerRun.WorkloadRewritten | pkg/controller/spire-server/statefulset.go:52-63 | Outside create-only mode every settled run gives a StatefulSet with filled-in protocols a new version. |
| SpireServerRun.SecondRunLeavesAlone | pkg/controller/spire-server/service.go:84-120 | After a settled run the next settled one leaves the object of every converging step as it is, version included. |
| SpireServerRun.ReconcileAgain | pkg/controller/spire-server/controller.go:75-193 | A reconciliation after one that reached its end works on the same specification and leaves the Service, the webhook configuration and both ConfigMaps as they are, version included. |
| SpireServerRun.ReconcileTwice | pkg/controller/spire-server/controller.go:75-193 | Two consecutive reconciliations supply each other with what that needs. |
| SpireServerRun.ReconcileRewrites | pkg/controller/spire-server/controller.go:318-325 | A reconciliation that reaches its end rewrites a StatefulSet with filled-in protocols and, if admission fills them in, leaves it for the next one to rewrite. |
| SpireServerRun.StatefulSetNeverSettles | pkg/controller/spire-server/controller.go:318-325 | After two consecutive reconciliations the version of the StatefulSet differs from the one between them. |
| SpireServerRun.ServiceConverges | pkg/controller/spire-server/service.go:84-120 | The Service step converges under every defaulting admission. |
| SpireServerRun.WebhookConverges | pkg/controller/spire-server/webhook.go:76-116 | The webhook step converges under every defaulting admission. |
| SpireServerRun.ServiceSettled | pkg/controller/spire-server/service.go:40-120 | Outside create-only mode, and with an API server that fills in defaults, a settled run leaves behind a Service that shows what is desired. |
| SpireServerRun.WebhookSettled | pkg/controller/spire-server/webhook.go:22-132 | The same of the webhook configuration. |
| SpireServerRun.RouteSettled | pkg/controller/spire-server/routes.go:92-171 | A managed route left behind by a settled run is the desired one or what admission made of it. |
| SpireServerRun.Run | pkg/controller/spire-server/controller.go:100-193 | Everything between the two status updates: allowed commits only, conditions that match the way it ended, an acceptable configuration and all conditions True at its end, and a settled store that holds the specification it worked on and a workload as healthy as reported. |
| SpireServerRun.Reconcile | pkg/controller/spire-server/controller.go:75-193 | The whole reconciliation: commits within its scope and create-only safety; after an early stop Ready True iff one of the two unrecorded reads failed; if nothing else goes wrong it arrives and its status is stored; the marker always replaced; at its end every group's and ConfigMap's condition True, the store settled for the stored specification with nothing else changed, the workload as healthy as Ready says, configuration and rollout in agreement. |
| SpireServerRun.ReadyStoredThoughReadIsRefused | pkg/controller/spire-server/controller.go:101-110 | A whole run in which one of the two unrecorded reads is refused and nothing else: it stops early, and Ready True is stored. |
| SpireServerRun.NothingWrongArrives | pkg/controller/spire-server/controller.go:75-193 | A whole run in which every call is served reaches its end, and the health and route it found are stored as Ready. |
| SpireServerRun.ReconcileAndDecide | pkg/controller/zero-trust-workload-identity-manager/controller.go:237-343 | After a run whose status was stored the top-level verdict on that status and the other operands follows from how the run ended. |
| SpireServerRun.StateIsTold | pkg/controller/zero-trust-workload-identity-manager/controller.go:419-470 | Read back, the status of a run is ready, progressing or failed as the run ended. |
| SpireServerRun.SetInitialReconciliationStatus | pkg/controller/status/status.go:43-51 | Ready is False before anything else happens, and only the SpireServer resource is touched. |

## Left out

- Comparison of Deployments, DaemonSets, CSI drivers, security context constraints and ClusterSPIFFEIDs: the same tests on other fields.
- The agent, CSI driver and OIDC controllers: they repeat the pattern of the SpireServer controller.
- The contents of the desired service account, RBAC objects and second Service: a run takes any list of steps on different objects, each with any merge and any comparison; only the SPIRE server Service and the webhook configuration are spelled out.
- Rendering of server.conf, the controller-manager YAML and the route, JSON, YAML and SHA-256: arbitrary functions; equality of routes is that of what they render to.
- Field validators of the Kubernetes libraries and the issuer URL check: arbitrary outcomes.
- Setting a controller reference: succeeds or fails arbitrarily per key; on the SpireServer a reference of the same kind and name is replaced (the API group is taken as part of the kind), on the other objects it is part of the desired object.
- Configuration and rollout agreement, and the effects of a finished run, are stated for fresh reads without other writers; create-only safety, the Ready condition and the retry helpers are not so restricted.
- The API server counts every update it accepts as a commit with a new version, also one that changes nothing; a new version therefore stands for an accepted write.
- Texts of most condition messages and of errors are abbreviated where no property depends on them.
- The port index text is modelled as the pair of number and protocol it is made of.
- Case folding in the operand classification covers ASCII letters only.
- The arrival of a run is stated for a SpireServer that already names its owner; setting the owner is covered by the rest of the contract.
- An API server that refuses a create with a false claim that the object exists is believed, as the code does for the bundle ConfigMap.
- Recreating the top-level resource, finding and writing the OperatorCondition object, watches, caches, events and logging.
