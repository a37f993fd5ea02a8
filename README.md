# nso-operator reconciliation core, modelled in Dafny

nso-operator is a Kubernetes operator with two custom resources:

- **NSO**: one Cisco NSO deployment. Its reconciler makes sure a headless Service and a StatefulSet exist for every NSO object. It creates at most one of them per pass, Service first, and asks to be requeued after each creation.
- **PackageBundle**: a set of NSO packages to download from a git URL. Its reconciler gives a new bundle the phase `Pending`. It then creates a PersistentVolumeClaim, then a downloader Job, and from then on polls the Job. Each time it copies the Job's state (`ContainerCreating`, `Downloading`, `Downloaded`, `FailedToDownload`, or `Pending` when unknown) into the bundle's status. It polls again every 30 seconds while the Job is still creating containers or downloading. It stops for good once the bundle is `Downloaded`.

Shared helpers cover the following:

- create an object when it is missing (`ensureObjectExists`);
- map a watched Secret or ConfigMap to the NSO objects that reference it;
- write a bundle's phase with retry on conflict;
- classify a Job's status into a phase and a message.

The model is split by source file:

| Dafny file | models |
|---|---|
| `kube.dfy` | Kubernetes values used by the core: keys, requests, object metadata with the controller owner reference, Service, StatefulSet, claim and Job specs, Job status, the reconcile result |
| `v1alpha1.dfy` | the NSO and PackageBundle custom resources and the bundle phases |
| `cluster.dfy` | the API server, seen through the controller's client. A store of objects, their listing order, and a script of faults, one per API call. Pure functions (`GetObject`, `CreateObject`, `WriteStatus`, `ListNsos`) and a `Client` class whose methods are proved equal to them |
| `resources.dfy` | the object builders of `resources.go` and the owner-reference scheme |
| `helpers.dfy` | `helpers.go`: ensure-exists, the watch mapper, the retrying phase update, the Job-status classifier |
| `nso_controller.dfy` | `nso_controller.go`: its own builders, its own ensure-exists, and `Reconcile` |
| `packagebundle_controller.dfy` | `packagebundle_controller.go`: `Reconcile` and the lemmas about whole passes |

Each imperative operation is a method on the client or on a reconciler class. Its `ensures` equates the returned values and the client's new state with a pure function of the old state. The lemmas about those functions carry the properties: what a pass creates, what it writes, what it leaves alone, and when it stops.

The model's encodings:

- **Faults**: `Pass` or `Fail(e)`, where `e` is `NotFound`, `AlreadyExists`, `Conflict` or `ServerError(message)`. They stand for whatever the API server answers. An empty fault script means every call goes through.
- **Owner references**: `controllerutil.SetControllerReference` succeeds exactly when the owner's kind is registered in the reconciler's scheme (`Resources.Scheme`). When it fails, a builder returns the empty object, as the source does.
- **Empty names**: the client refuses a Get whose name is empty before any request is sent ("resource name may not be empty"). The API server refuses to create an object without a name ("name or generateName is required"). These are the paths an empty object takes through the core.
- **Clock**: the time is a parameter `now` of a reconcile pass. `updatePackageBundlePhase` stamps it into `lastTransitionTime`.
- **Namespaces**: an empty namespace in a List selects every namespace, as controller-runtime's `client.ListOptions` does. A watched object without a namespace therefore triggers the referring NSOs of every namespace.
- **Retries**: `retry.RetryOnConflict(retry.DefaultRetry, …)` is modelled as at most `RetrySteps = 5` attempts, and only a `Conflict` error is retried.

Behaviour of the code worth noting:

- **Condition scan**: the Job's conditions are scanned in list order, and the first condition that decides wins. A `Failed=True` listed before a `Complete=True` gives `FailedToDownload` (`Helpers.FailureListedFirstWins`): a completed condition listed later does not override it.
- **Stale phase**: after the initial `Pending` write, the bundle's local copy keeps its old empty phase. The `Downloaded` test at `packagebundle_controller.go:80` reads that local copy, so the freshly written `Pending` is not seen.
- **Ensure errors swallowed**: the NSO reconciler drops the error of its ensure steps and returns `Requeue: false` with no error (`NsoController.NsoEnsureErrorsDropped`).
- **Two StatefulSet builders**: the NSO reconciler builds its StatefulSet with `statefulSetForNSO`, which has no volumes and no mounts. `newStatefulSet` in `resources.go` is not called by `Reconcile`, and it mounts the ConfigMap literally named `ncs-config` rather than the NSO's `nsoConfigRef` (`NsoController.StatefulSetBuildersDiffer`, `Resources.StatefulSetConfigVolume`).
- **Claim names can collide**: claim names `<bundle>-<target>` can collide between bundles (`Resources.ClaimNamesCanCollide`). Job names `download-<bundle>` cannot (`Resources.JobNamesDistinct`).
- **Failed downloads are polled**: only `Downloaded` stops the bundle reconciler. A bundle in `FailedToDownload` is reconciled again and its Job polled again.
- **Volumes outside the type**: `NSOSpec` in `api/v1alpha1/nso_types.go` declares no `VolumeMounts` or `Volumes` field, while `newStatefulSet` at `resources.go:103-123` reads both. The model's `NsoSpec` carries them so that builder can be modelled.

## Model

| member | source | states |
|---|---|---|
| Cluster.GetObject | internal/controller/helpers.go:23 | a Get never changes the objects; success returns the stored object; NotFound means the key is absent or the server said so; an empty name is refused with no request sent |
| Cluster.CreateObject | internal/controller/helpers.go:25-32 | a successful Create adds exactly the new object under a previously absent, non-empty key; a failed Create changes nothing; well-formedness is kept |
| Cluster.WriteStatus | internal/controller/helpers.go:109-113 | a status update changes only the status of the stored bundle and keeps the set of keys; a failed update changes nothing |
| Cluster.NsosInMembers | internal/controller/helpers.go:49-58 | an NSO is in the listing exactly when it is stored under a listed key of a namespace the option selects (that namespace, or every namespace when the option is empty) |
| Cluster.ListNsosExact | internal/controller/helpers.go:49-58 | on a well-formed store, the listing holds exactly the NSO objects stored in the selected namespace, or in any namespace when the namespace option is empty |
| Resources.ControllerRef | internal/controller/resources.go:50-54 | the controller reference is set exactly when the owner's kind is in the scheme, and it names the owner |
| Resources.NewService | internal/controller/resources.go:35-57 | the builder yields the empty Service exactly when the NSO kind is not in the scheme |
| Resources.ServiceIsHeadless | internal/controller/resources.go:37-49 | the Service is named by `serviceName`, lives in the NSO's namespace, is owned by the NSO, is ClusterIP with clusterIP None, and carries the NSO's labels, selector and ports |
| Resources.NewStatefulSet | internal/controller/resources.go:59-134 | the builder yields the empty StatefulSet exactly when the NSO kind is not in the scheme |
| Resources.ServiceSelectsStatefulSetPods | internal/controller/resources.go:68-77 | the StatefulSet's service name is the Service's name, and its selector and pod labels are the Service's selector |
| Resources.StatefulSetShape | internal/controller/resources.go:61-88 | the StatefulSet is named after the NSO, has its replicas, and has one container `ncs` with the NSO's image and ports 8080/http and 8888/https |
| Resources.StatefulSetEnvOrder | internal/controller/resources.go:89-102 | the env is ADMIN_USERNAME (literal), then ADMIN_PASSWORD (secret key `password`), then the user's entries unchanged |
| Resources.UserEnvAppendedNotMerged | internal/controller/resources.go:89-102 | user entries are appended, not merged: the name counts add up, and the first ADMIN_* entries are the operator's own |
| Resources.StatefulSetConfigVolume | internal/controller/resources.go:103-123 | the `ncs-config` mount at /etc/ncs/ncs.conf and the ConfigMap volume `ncs-config` with mode 0600 come before the user's mounts and volumes |
| Resources.NewPersistentVolumeClaim | internal/controller/resources.go:137-167 | the builder yields the empty claim exactly when the bundle kind is not in the scheme |
| Resources.ClaimShape | internal/controller/resources.go:139-159 | the claim is named `<bundle>-<target>`, is owned by the bundle, is ReadWriteOnce, and requests the declared size or 1Gi when none is declared |
| Resources.NewJob | internal/controller/resources.go:170-220 | the builder yields the empty Job exactly when the bundle kind is not in the scheme |
| Resources.JobShape | internal/controller/resources.go:172-200 | the Job is `download-<bundle>` with TTL 300 s and backoff limit 3, restart policy Never, and one alpine/git container that clones the source URL into /packages |
| Resources.JobMountsItsClaim | internal/controller/resources.go:172-208 | the Job's only volume is the bundle's claim, in the same namespace, and it is the volume the container mounts |
| Resources.JobNamesDistinct | internal/controller/resources.go:173 | bundles with different names get different Job names |
| Resources.ClaimNamesCanCollide | internal/controller/resources.go:139 | two different bundles can get the same claim name |
| Helpers.EnsureOutcome | internal/controller/helpers.go:19-40 | ensure-exists creates only when the object is absent and reports that as created with no error; otherwise the objects are unchanged; a Get error other than NotFound is returned unchanged with no creation; (false, no error) means the object was already stored; well-formedness is kept |
| Helpers.EnsureObjectExists | internal/controller/helpers.go:19-40 | the method's result and new client state are those of `EnsureOutcome` |
| Helpers.EnsureCreatesAbsent | internal/controller/helpers.go:23-32 | an absent object is created and reported as created |
| Helpers.EnsureCreateFails | internal/controller/helpers.go:25-31 | for an absent object whose Create fails, the Create's error is returned as it is and nothing is stored |
| Helpers.EnsureTwice | internal/controller/helpers.go:19-40 | ensuring twice creates once: the second call reports "exists" and changes nothing |
| Helpers.EnsureKeepsExisting | internal/controller/helpers.go:23-39 | an existing object is never replaced or reported as created; a failed Get is reported as an error |
| Helpers.EnsureFindsExisting | internal/controller/helpers.go:23-39 | with no faults, an existing object gives (false, no error) and no change |
| Helpers.EnsureRefusesEmptyName | internal/controller/helpers.go:23-36 | an object with an empty name (a failed builder) is never created, and the error is returned |
| Helpers.WatchOutcome | internal/controller/helpers.go:43-84 | the watch mapper never changes the stored objects |
| Helpers.WatchForResourceChange | internal/controller/helpers.go:43-84 | the loop returns `RequestsFor` of the listed NSOs, i.e. the result of `WatchOutcome` |
| Helpers.RequestsForMembers | internal/controller/helpers.go:60-83 | a request is returned exactly when some listed NSO references the object by kind and name |
| Helpers.RequestsForAppend | internal/controller/helpers.go:60-83 | the mapper works item by item: the requests for a + b are those for a followed by those for b |
| Helpers.OtherKindsTriggerNothing | internal/controller/helpers.go:66-67 | objects other than Secrets and ConfigMaps trigger no request |
| Helpers.WatchTriggersReferrers | internal/controller/helpers.go:43-84 | when the listing succeeds, the requests are exactly the stored NSOs that reference the object and sit in its namespace, or in any namespace when the object has none |
| Helpers.WatchListFailure | internal/controller/helpers.go:55-58 | a failed listing triggers no request |
| Helpers.PhaseAttempt | internal/controller/helpers.go:90-117 | one attempt changes at most the bundle's status, to the new phase, message, job name and time |
| Helpers.PhaseWrite | internal/controller/helpers.go:87-118 | the retried update changes at most the bundle's status; on success the stored phase is the new phase |
| Helpers.WritePhaseOnce | internal/controller/helpers.go:90-117 | the method's result and new client state are those of `PhaseAttempt` |
| Helpers.UpdatePackageBundlePhase | internal/controller/helpers.go:87-118 | the retry loop's result and new client state are those of `PhaseUpdate` (five attempts) |
| Helpers.SamePhaseWritesNothing | internal/controller/helpers.go:97-100 | when the stored phase already equals the new phase, nothing is written |
| Helpers.NewPhaseIsWritten | internal/controller/helpers.go:90-117 | with no faults, a new phase is written with message, job name and time, and nothing else changes |
| Helpers.MissingBundleFails | internal/controller/helpers.go:92-95 | a missing bundle makes the update fail with no write (NotFound when there are no faults) |
| Helpers.ConflictsExhaustAttempts | internal/controller/helpers.go:90-117 | after as many conflicts as attempts, the update gives up with Conflict and no write |
| Helpers.OtherErrorsNotRetried | internal/controller/helpers.go:90-117 | an error other than Conflict is returned at once, with no retry |
| Helpers.Verdict | internal/controller/helpers.go:134-151 | a condition yields a verdict exactly when it is a true Complete or Failed condition |
| Helpers.FirstDeciding | internal/controller/helpers.go:134-151 | the scan returns the first deciding condition, or none when no condition decides |
| Helpers.FirstDecidingIs | internal/controller/helpers.go:134-151 | the first deciding condition is the scan's answer |
| Helpers.ClassifyDownloaded | internal/controller/helpers.go:136-140 | Downloaded exactly when the first deciding condition is Complete, with the "completed" message |
| Helpers.ClassifyFailed | internal/controller/helpers.go:142-149 | FailedToDownload exactly when the first deciding condition is Failed; the message is the condition's, or the default when it is empty |
| Helpers.ClassifyDownloading | internal/controller/helpers.go:154-157 | Downloading exactly when no condition decides and some pod is active |
| Helpers.ClassifyContainerCreating | internal/controller/helpers.go:160-163 | ContainerCreating exactly when no condition decides and the active, succeeded and failed counts are all zero |
| Helpers.ClassifyUnknown | internal/controller/helpers.go:166 | Pending "Job status unknown" exactly when no condition decides, none is active, and some succeeded or failed |
| Helpers.ClassifyMessageNonEmpty | internal/controller/helpers.go:134-166 | every verdict carries a non-empty message |
| Helpers.FailureListedFirstWins | internal/controller/helpers.go:134-151 | a Failed condition listed before a Complete one decides the verdict |
| Helpers.JobStatusOutcome | internal/controller/helpers.go:121-167 | reading a Job's status never changes the stored objects |
| Helpers.GetJobStatus | internal/controller/helpers.go:121-167 | the method's result and new client state are those of `JobStatusOutcome` |
| Helpers.JobFetchFailures | internal/controller/helpers.go:124-131 | a missing Job gives Pending "Job not found" with no error; any other fetch error gives Pending "Failed to get Job status" and returns exactly that error |
| Helpers.FoundJobIsClassified | internal/controller/helpers.go:121-167 | a fetched Job is reported with the classifier's verdict and no error |
| NsoController.ServiceForNso | internal/controller/nso_controller.go:170-191 | the builder yields the empty Service exactly when the NSO kind is not in the scheme |
| NsoController.StatefulSetForNso | internal/controller/nso_controller.go:114-168 | the builder yields the empty StatefulSet exactly when the NSO kind is not in the scheme |
| NsoController.NsoReconciler.EnsureObjectExists | internal/controller/nso_controller.go:92-112 | the reconciler's own ensure-exists behaves as `Helpers.EnsureOutcome` |
| NsoController.NsoReconciler.Reconcile | internal/controller/nso_controller.go:59-89 | the pass's result and new client state are those of `NsoReconcileOutcome` |
| NsoController.NsoFetchFailure | internal/controller/nso_controller.go:63-72 | a missing NSO ends the pass quietly; any other fetch error is returned as is; nothing is written either way |
| NsoController.NsoEnsureErrorsDropped | internal/controller/nso_controller.go:76-86 | the only error a pass returns is the NSO fetch error; ensure errors are dropped |
| NsoController.NsoReconcileKeepsExisting | internal/controller/nso_controller.go:59-89 | a pass never removes or replaces a stored object |
| NsoController.EnsureChildrenKeeps | internal/controller/nso_controller.go:76-86 | the ensure steps never remove or replace a stored object, and keep well-formedness |
| NsoController.NsoReconcileWellFormed | internal/controller/nso_controller.go:59-89 | a pass keeps the store well formed |
| NsoController.NsoRequeueMeansCreated | internal/controller/nso_controller.go:76-88 | a pass asks for a requeue exactly when it created something, and never with a delay |
| NsoController.NsoCreatesOneChild | internal/controller/nso_controller.go:76-86 | a pass creates at most one object: either the NSO's Service or its StatefulSet |
| NsoController.ServiceBeforeStatefulSet | internal/controller/nso_controller.go:74-86 | the StatefulSet is created only in a pass that found the Service already present |
| NsoController.MissingOwnerKindCreatesNothing | internal/controller/nso_controller.go:76-80 | when the NSO kind is not in the scheme, the pass creates nothing and reports success |
| NsoController.EnsureChildrenStep | internal/controller/nso_controller.go:76-88 | with no faults: Service missing → create it and requeue; Service present and StatefulSet missing → create that and requeue; both present → done, no change |
| NsoController.PassOnStoredNso | internal/controller/nso_controller.go:63-88 | with no faults, a pass on a stored NSO is exactly its ensure steps |
| NsoController.NsoConverges | internal/controller/nso_controller.go:59-89 | with no faults, at most two passes create the missing children (existing ones kept), and the third pass is done and changes nothing |
| NsoController.ServiceBuildersAgree | internal/controller/nso_controller.go:170-191 | the reconciler's Service builder is the same as `newService` |
| NsoController.StatefulSetBuildersDiffer | internal/controller/nso_controller.go:114-168 | the reconciler's StatefulSet builder is `newStatefulSet` without volumes or mounts |
| PackageBundleController.ChildKeys | internal/controller/packagebundle_controller.go:85-100 | with the bundle kind registered, the claim and Job land under the bundle's child keys; without it, their names are empty |
| PackageBundleController.UpdatePhase | internal/controller/packagebundle_controller.go:73 | a phase write never adds or removes objects |
| PackageBundleController.PollOutcome | internal/controller/packagebundle_controller.go:115-133 | polling never adds or removes objects and never asks for an immediate requeue |
| PackageBundleController.InitialStatus | internal/controller/packagebundle_controller.go:72-77 | the initial status write never adds or removes objects |
| PackageBundleController.UpdatePhaseKeeps | internal/controller/packagebundle_controller.go:123 | a phase write changes only the bundle's status |
| PackageBundleController.PollKeeps | internal/controller/packagebundle_controller.go:115-133 | polling changes only the bundle's status |
| PackageBundleController.JobStageKeeps | internal/controller/packagebundle_controller.go:97-133 | the Job stage adds at most the Job and changes only the bundle's status besides; it requeues exactly when it created, with no delay |
| PackageBundleController.ProvisionKeeps | internal/controller/packagebundle_controller.go:84-133 | provisioning adds at most the claim and the Job; it requeues exactly when it created; the Job is created only when the claim was already there |
| PackageBundleController.FetchedKeeps | internal/controller/packagebundle_controller.go:71-133 | the same frame for a whole pass on a fetched bundle |
| PackageBundleController.PackageBundleReconciler.Reconcile | internal/controller/packagebundle_controller.go:56-134 | the pass's result and new client state are those of `BundleReconcileOutcome` |
| PackageBundleController.BundleReconcileFrame | internal/controller/packagebundle_controller.go:56-134 | a pass keeps the store well formed, changes only the bundle's status, and adds at most the bundle's claim and Job |
| PackageBundleController.RequeueMeansCreated | internal/controller/packagebundle_controller.go:93-95 | a pass asks for an immediate requeue exactly when it created an object |
| PackageBundleController.ClaimBeforeJob | internal/controller/packagebundle_controller.go:84-113 | the Job is created only in a pass that found the claim already present |
| PackageBundleController.PassAfterFetch | internal/controller/packagebundle_controller.go:59-69 | a fetched bundle continues with the rest of the pass; a failed fetch ends the pass with no delay |
| PackageBundleController.BundleFetchFailure | internal/controller/packagebundle_controller.go:60-69 | a missing bundle ends the pass quietly; any other fetch error is returned as is; nothing is written |
| PackageBundleController.DownloadedIsTerminal | internal/controller/packagebundle_controller.go:79-82 | a bundle already Downloaded ends the pass with nothing written |
| PackageBundleController.PassOnStoredBundle | internal/controller/packagebundle_controller.go:60-134 | with no faults, a pass on a stored bundle is the pass on that bundle |
| PackageBundleController.StoredBundleNames | internal/controller/resources.go:139-173 | a stored bundle has non-empty claim and Job names |
| PackageBundleController.FirstPassCreatesClaim | internal/controller/packagebundle_controller.go:71-95 | a new bundle's first pass sets Pending "PackageBundle created", creates the claim, and requeues |
| PackageBundleController.ClaimCreated | internal/controller/packagebundle_controller.go:84-95 | a missing claim is created and the pass requeues |
| PackageBundleController.ClaimPresent | internal/controller/packagebundle_controller.go:84-98 | with the claim present, the pass goes on to the Job stage |
| PackageBundleController.ClaimEnsureFails | internal/controller/packagebundle_controller.go:86-92 | a claim error records FailedToDownload "Failed to create PVC: <error>" and returns the error |
| PackageBundleController.JobEnsureFails | internal/controller/packagebundle_controller.go:100-106 | a Job error records FailedToDownload "Failed to create Job: <error>" with the Job's name and returns the error, whatever the write does |
| PackageBundleController.InitialWriteFails | internal/controller/packagebundle_controller.go:72-77 | a failed initial Pending write ends the pass with that error and no requeue, and creates nothing |
| PackageBundleController.InitialWriteFailureEndsPass | internal/controller/packagebundle_controller.go:59-77 | over a whole pass: when the initial write fails with an error other than Conflict, the error is returned and nothing is written |
| PackageBundleController.PollWriteFails | internal/controller/packagebundle_controller.go:116-126 | a failed phase write after a successful poll returns the error with no 30 s requeue, even for a running Job |
| PackageBundleController.QuietPhaseWrite | internal/controller/helpers.go:90-117 | with no faults, a phase write stores exactly the updated bundle |
| PackageBundleController.JobCreated | internal/controller/packagebundle_controller.go:97-113 | a missing Job is created, ContainerCreating "Job created, waiting for containers" is recorded, and the pass requeues |
| PackageBundleController.SecondPassCreatesJob | internal/controller/packagebundle_controller.go:79-113 | a bundle with its claim and no Job gets its Job and ContainerCreating, and requeues |
| PackageBundleController.QuietPoll | internal/controller/packagebundle_controller.go:115-133 | polling records the Job's verdict and requeues after 30 s exactly for ContainerCreating or Downloading |
| PackageBundleController.PollPassRecordsJobState | internal/controller/packagebundle_controller.go:79-133 | a pass over an existing Job records its verdict, with the job name and time, and nothing else |
| PackageBundleController.JobPresent | internal/controller/packagebundle_controller.go:97-116 | with the Job present, the pass polls it |
| PackageBundleController.PollFetchErrorWritesNothing | internal/controller/packagebundle_controller.go:116-120 | a Job fetch error is returned with a 30 s requeue and nothing written |
| PackageBundleController.ClaimCreateFailureRecorded | internal/controller/packagebundle_controller.go:84-92 | when the claim's creation fails, the pass records the failure message in the bundle and returns the error |
| PackageBundleController.ProvisionWithoutOwnerKind | internal/controller/packagebundle_controller.go:85-92 | without the bundle kind in the scheme, the empty claim is refused and the failure is recorded |
| PackageBundleController.MissingOwnerKindFailsBundle | internal/controller/packagebundle_controller.go:85-92 | the same over a whole pass: FailedToDownload is recorded and the error returned; nothing is created |
| PackageBundleController.NewJobKeepsWaiting | internal/controller/packagebundle_controller.go:115-131 | a freshly created Job keeps the bundle in ContainerCreating and polls in 30 s, with no change |
| PackageBundleController.TwoPassesProvision | internal/controller/packagebundle_controller.go:56-113 | two passes over a new bundle create its claim and Job and leave it ContainerCreating |
| PackageBundleController.NewBundleLifecycle | internal/controller/packagebundle_controller.go:56-134 | the third pass over a new bundle polls in 30 s and changes nothing |
| PackageBundleController.CompletedJobEndsPolling | internal/controller/packagebundle_controller.go:79-133 | a completed Job makes the bundle Downloaded, and every later pass is done with no change |

## Left out

- Logging: every log call is left out.
- Registering watches: `SetupWithManager` is left out for both reconcilers. The watch mapper itself is modelled.
- Manager wiring, the RBAC markers and the `Scheme` registration code are left out. The scheme is a set of registered kinds.
- Kubernetes object fields that the core does not set or read are left out. Object metadata is limited to name, namespace, labels and the controller owner reference.
- The API server's defaulting, validation beyond empty names, resource versions, and the cache behind the client are left out. A stale read is a fault in the script, not a cache.
- Cached reads: the reconcilers read through the manager's cache, where a Get with an empty name answers NotFound and the following Create is the call that fails. The model follows a direct client, which refuses the Get before sending it. Only the error value and the number of faults used differ.
- Listing order: `Cluster.ListNsos` returns NSOs in the store's `order`, standing for whatever order the server returns. No lemma depends on that order; the watch-mapper lemmas are about membership.
- Error wording: the `%v` text of an API error is abstracted by `Cluster.ErrorText`, and the Kubernetes wording is not reproduced.
- Storage size: `resource.MustParse` panics on a malformed storage size. The model keeps the size as a string and does not model the panic.
- Integer widths: replica and pod counts are `int32` in the source and unbounded integers here.
- Retries: the backoff delays of `retry.DefaultRetry` and its jitter are time-only and left out. Only its five attempts are kept.
- Time: `metav1.Now()` is the parameter `now`.
- NSO objects: the NSO reconciler never writes an NSO's status, so that status is not modelled.
- Helpers.EnsureKeepsExisting: when the fault script fails the Get with NotFound on an existing object, it states only that some error is returned. The error is then the Create's AlreadyExists, not the Get's.
- Helpers.WatchOutcome: it states only that the objects are unchanged. The requests are characterised by `Helpers.WatchTriggersReferrers` and `Helpers.WatchListFailure`.
- Helpers.JobStatusOutcome: it states only that the objects are unchanged. The report is characterised by `Helpers.JobFetchFailures` and `Helpers.FoundJobIsClassified`.
- PackageBundleController.UpdatePhase, PackageBundleController.PollOutcome and PackageBundleController.InitialStatus: they state only that the set of keys is kept. What they write and return is stated by lemmas: `QuietPhaseWrite`, `QuietPoll`, `PollFetchErrorWritesNothing`, `PollWriteFails`, `FirstPassCreatesClaim`, `InitialWriteFails` and `InitialWriteFailureEndsPass`.
