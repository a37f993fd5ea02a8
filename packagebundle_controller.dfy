/**
 * packagebundle_controller.go: the reconciler of PackageBundles. A pass
 * fetches the bundle, gives it the Pending phase when it has none, stops
 * for a Downloaded bundle, then ensures the claim and the download Job
 * (stopping after whichever it creates), and finally maps the Job's state
 * to the bundle's phase, polling every 30 seconds while the download runs.
 */
module PackageBundleController {
  import opened Wrappers
  import opened Kube
  import opened V1alpha1
  import opened Cluster
  import opened Resources
  import opened Helpers

  const InitialMessage := "PackageBundle created"
  const ClaimFailurePrefix := "Failed to create PVC: "
  const JobFailurePrefix := "Failed to create Job: "
  const JobCreatedMessage := "Job created, waiting for containers"

  /** The delay, in seconds, before the next poll of a running download. */
  const PollSeconds := 30

  /** The name under which a fetched bundle writes its own status. */
  function BundleRequest(pb: PackageBundle): Request
  {
    Request(pb.meta.namespace, pb.meta.name)
  }

  function ClaimKey(pb: PackageBundle): Key
  {
    Key(ClaimKind, pb.meta.namespace, ClaimName(pb))
  }

  function JobKey(pb: PackageBundle): Key
  {
    Key(JobKind, pb.meta.namespace, JobName(pb))
  }

  /** The children are stored under ClaimKey and JobKey, or have no name when the owner reference fails. */
  lemma ChildKeys(scheme: Scheme, pb: PackageBundle)
    ensures BundleKind in scheme.kinds ==>
      KeyOf(ClaimObject(NewPersistentVolumeClaim(scheme, pb))) == ClaimKey(pb) &&
      KeyOf(JobObject(NewJob(scheme, pb))) == JobKey(pb)
    ensures BundleKind !in scheme.kinds ==>
      KeyOf(ClaimObject(NewPersistentVolumeClaim(scheme, pb))).name == "" &&
      KeyOf(JobObject(NewJob(scheme, pb))).name == ""
  {
  }

  /** o' is o, or the same bundle with another status. */
  predicate SameBundleButStatus(o: Object, o': Object)
  {
    o == o' || (o.BundleObject? && o'.BundleObject? && o'.bundle == o.bundle.(status := o'.bundle.status))
  }

  /**
   * s' grows from s by keys of allowed only; every other stored object is
   * kept, and the object under bundleKey changes at most in its status.
   */
  ghost predicate Evolves(s: Store, s': Store, bundleKey: Key, allowed: set<Key>)
  {
    && s.objects.Keys <= s'.objects.Keys
    && s'.objects.Keys - s.objects.Keys <= allowed
    && (forall k :: k in s.objects && k != bundleKey ==> s'.objects[k] == s.objects[k])
    && (bundleKey in s.objects ==> SameBundleButStatus(s.objects[bundleKey], s'.objects[bundleKey]))
  }

  /** updatePackageBundlePhase on a fetched bundle. */
  function UpdatePhase(s: Store, pb: PackageBundle, newPhase: Phase, message: string, jobName: string, now: int)
    : (r: (Option<ApiError>, Store))
    ensures r.1.objects.Keys == s.objects.Keys
  {
    PhaseUpdate(s, BundleRequest(pb), newPhase, message, jobName, now)
  }

  /** The last stage: read the Job's state and record it as the bundle's phase. */
  function PollOutcome(s: Store, pb: PackageBundle, jobName: string, now: int): (r: (Reconciled, Store))
    ensures r.1.objects.Keys == s.objects.Keys
    ensures !r.0.result.requeue
  {
    var (report, s1) := JobStatusOutcome(s, jobName, pb.meta.namespace);
    if report.err.Some? then (Reconciled(CtrlResult(false, PollSeconds), report.err), s1)
    else
      var (err, s2) := UpdatePhase(s1, pb, report.phase, report.message, jobName, now);
      if err.Some? then (Reconciled(Done, err), s2)
      else if report.phase == ContainerCreating || report.phase == Downloading then
        (Reconciled(CtrlResult(false, PollSeconds), None), s2)
      else (Reconciled(Done, None), s2)
  }

  /** The Job stage: ensure the download Job, record its creation or failure, else poll it. */
  function JobStage(s: Store, scheme: Scheme, pb: PackageBundle, now: int): (r: (Reconciled, Store))
  {
    var job := NewJob(scheme, pb);
    var jobName := job.meta.name;
    var (ensured, s1) := EnsureOutcome(s, JobObject(job));
    if ensured.err.Some? then
      var (_, s2) := UpdatePhase(s1, pb, FailedToDownload, JobFailurePrefix + ErrorText(ensured.err.value), jobName, now);
      (Reconciled(Done, ensured.err), s2)
    else if ensured.created then
      var (_, s2) := UpdatePhase(s1, pb, ContainerCreating, JobCreatedMessage, jobName, now);
      (Reconciled(CtrlResult(true, 0), None), s2)
    else PollOutcome(s1, pb, jobName, now)
  }

  /** The provisioning stages: ensure the claim, stop after creating it, else go on to the Job. */
  function ProvisionOutcome(s: Store, scheme: Scheme, pb: PackageBundle, now: int): (r: (Reconciled, Store))
  {
    var claim := NewPersistentVolumeClaim(scheme, pb);
    var (ensured, s1) := EnsureOutcome(s, ClaimObject(claim));
    if ensured.err.Some? then
      var (_, s2) := UpdatePhase(s1, pb, FailedToDownload, ClaimFailurePrefix + ErrorText(ensured.err.value), "", now);
      (Reconciled(Done, ensured.err), s2)
    else if ensured.created then (Reconciled(CtrlResult(true, 0), None), s1)
    else JobStage(s1, scheme, pb, now)
  }

  /** Give a bundle without a phase the Pending phase; a bundle with one is left alone. */
  function InitialStatus(s: Store, pb: PackageBundle, now: int): (r: (Option<ApiError>, Store))
    ensures r.1.objects.Keys == s.objects.Keys
  {
    if pb.status.phase == None then UpdatePhase(s, pb, Pending, InitialMessage, "", now) else (None, s)
  }

  /**
   * A pass after the bundle pb was fetched. The Downloaded test reads the
   * fetched copy, not the status InitialStatus may just have written.
   */
  function FetchedOutcome(s: Store, scheme: Scheme, pb: PackageBundle, now: int): (r: (Reconciled, Store))
  {
    var (initErr, s1) := InitialStatus(s, pb, now);
    if initErr.Some? then (Reconciled(Done, initErr), s1)
    else if pb.status.phase == Some(Downloaded) then (Reconciled(Done, None), s1)
    else ProvisionOutcome(s1, scheme, pb, now)
  }

  /** One Reconcile pass for req at time now. */
  function BundleReconcileOutcome(s: Store, scheme: Scheme, req: Request, now: int): (r: (Reconciled, Store))
  {
    var (got, s1) := BundleAt(s, req);
    match got
    case Err(e) => (Reconciled(Done, if e == NotFound then None else Some(e)), s1)
    case Ok(pb) => FetchedOutcome(s1, scheme, pb, now)
  }

  // ---- Frame of each stage ----

  lemma EvolvesTrans(s1: Store, s2: Store, s3: Store, bundleKey: Key, a: set<Key>, b: set<Key>)
    requires Evolves(s1, s2, bundleKey, a) && Evolves(s2, s3, bundleKey, b)
    ensures Evolves(s1, s3, bundleKey, a + b)
  {
  }

  /** The facts a stage keeps: well-formedness, and growth within the allowed keys. */
  ghost predicate Keeps(s: Store, s': Store, pb: PackageBundle, allowed: set<Key>)
  {
    (WellFormed(s) ==> WellFormed(s')) && Evolves(s, s', BundleKey(BundleRequest(pb)), allowed)
  }

  lemma KeepsTrans(s1: Store, s2: Store, s3: Store, pb: PackageBundle, a: set<Key>, b: set<Key>)
    requires Keeps(s1, s2, pb, a) && Keeps(s2, s3, pb, b)
    ensures Keeps(s1, s3, pb, a + b)
  {
    EvolvesTrans(s1, s2, s3, BundleKey(BundleRequest(pb)), a, b);
  }

  lemma UpdatePhaseKeeps(s: Store, pb: PackageBundle, newPhase: Phase, message: string, jobName: string, now: int)
    ensures Keeps(s, UpdatePhase(s, pb, newPhase, message, jobName, now).1, pb, {})
  {
  }

  lemma PollKeeps(s: Store, pb: PackageBundle, jobName: string, now: int)
    ensures Keeps(s, PollOutcome(s, pb, jobName, now).1, pb, {})
  {
    var (report, s1) := JobStatusOutcome(s, jobName, pb.meta.namespace);
    if report.err.None? {
      UpdatePhaseKeeps(s1, pb, report.phase, report.message, jobName, now);
      KeepsTrans(s, s1, UpdatePhase(s1, pb, report.phase, report.message, jobName, now).1, pb, {}, {});
    }
  }

  /** The Job stage adds at most the Job, and asks for a requeue exactly when it did. */
  lemma JobStageKeeps(s: Store, scheme: Scheme, pb: PackageBundle, now: int)
    ensures Keeps(s, JobStage(s, scheme, pb, now).1, pb, {JobKey(pb)})
    ensures JobStage(s, scheme, pb, now).0.result.requeue <==> JobStage(s, scheme, pb, now).1.objects.Keys != s.objects.Keys
    ensures JobStage(s, scheme, pb, now).0.result.requeue ==> JobStage(s, scheme, pb, now).0.result.requeueAfter == 0
  {
    var job := NewJob(scheme, pb);
    var (ensured, s1) := EnsureOutcome(s, JobObject(job));
    assert ensured.created ==> KeyOf(JobObject(job)) == JobKey(pb);
    assert Keeps(s, s1, pb, {JobKey(pb)});
    if ensured.err.Some? {
      var m := JobFailurePrefix + ErrorText(ensured.err.value);
      UpdatePhaseKeeps(s1, pb, FailedToDownload, m, job.meta.name, now);
      KeepsTrans(s, s1, UpdatePhase(s1, pb, FailedToDownload, m, job.meta.name, now).1, pb, {JobKey(pb)}, {});
    } else if ensured.created {
      UpdatePhaseKeeps(s1, pb, ContainerCreating, JobCreatedMessage, job.meta.name, now);
      KeepsTrans(s, s1, UpdatePhase(s1, pb, ContainerCreating, JobCreatedMessage, job.meta.name, now).1, pb, {JobKey(pb)}, {});
    } else {
      PollKeeps(s1, pb, job.meta.name, now);
      KeepsTrans(s, s1, PollOutcome(s1, pb, job.meta.name, now).1, pb, {JobKey(pb)}, {});
    }
  }

  /**
   * The provisioning stages add at most the claim and the Job, the claim
   * before the Job, and ask for a requeue exactly when they added one.
   */
  lemma ProvisionKeeps(s: Store, scheme: Scheme, pb: PackageBundle, now: int)
    ensures Keeps(s, ProvisionOutcome(s, scheme, pb, now).1, pb, {ClaimKey(pb), JobKey(pb)})
    ensures ProvisionOutcome(s, scheme, pb, now).0.result.requeue <==>
      ProvisionOutcome(s, scheme, pb, now).1.objects.Keys != s.objects.Keys
    ensures ProvisionOutcome(s, scheme, pb, now).0.result.requeue ==>
      ProvisionOutcome(s, scheme, pb, now).0.result.requeueAfter == 0
    ensures JobKey(pb) in ProvisionOutcome(s, scheme, pb, now).1.objects && JobKey(pb) !in s.objects ==>
      ClaimKey(pb) in s.objects
  {
    var claim := ClaimObject(NewPersistentVolumeClaim(scheme, pb));
    var (ensured, s1) := EnsureOutcome(s, claim);
    assert ensured.created ==> KeyOf(claim) == ClaimKey(pb);
    assert Keeps(s, s1, pb, {ClaimKey(pb)});
    if ensured.err.Some? {
      var m := ClaimFailurePrefix + ErrorText(ensured.err.value);
      UpdatePhaseKeeps(s1, pb, FailedToDownload, m, "", now);
      KeepsTrans(s, s1, UpdatePhase(s1, pb, FailedToDownload, m, "", now).1, pb, {ClaimKey(pb)}, {});
    } else if !ensured.created {
      assert KeyOf(claim) == ClaimKey(pb);
      JobStageKeeps(s1, scheme, pb, now);
      KeepsTrans(s, s1, JobStage(s1, scheme, pb, now).1, pb, {ClaimKey(pb)}, {JobKey(pb)});
    }
  }

  lemma FetchedKeeps(s: Store, scheme: Scheme, pb: PackageBundle, now: int)
    ensures Keeps(s, FetchedOutcome(s, scheme, pb, now).1, pb, {ClaimKey(pb), JobKey(pb)})
    ensures FetchedOutcome(s, scheme, pb, now).0.result.requeue <==>
      FetchedOutcome(s, scheme, pb, now).1.objects.Keys != s.objects.Keys
    ensures FetchedOutcome(s, scheme, pb, now).0.result.requeue ==>
      FetchedOutcome(s, scheme, pb, now).0.result.requeueAfter == 0
    ensures JobKey(pb) in FetchedOutcome(s, scheme, pb, now).1.objects && JobKey(pb) !in s.objects ==>
      ClaimKey(pb) in s.objects
  {
    var (initErr, s1) := InitialStatus(s, pb, now);
    if pb.status.phase == None {
      UpdatePhaseKeeps(s, pb, Pending, InitialMessage, "", now);
    }
    assert Keeps(s, s1, pb, {});
    if initErr.None? && pb.status.phase != Some(Downloaded) {
      ProvisionKeeps(s1, scheme, pb, now);
      KeepsTrans(s, s1, ProvisionOutcome(s1, scheme, pb, now).1, pb, {}, {ClaimKey(pb), JobKey(pb)});
    }
  }

  /** The PackageBundleReconciler: a client and the scheme used for owner references. */
  class PackageBundleReconciler {
    const client: Client
    const scheme: Scheme

    constructor (client: Client, scheme: Scheme)
      ensures this.client == client && this.scheme == scheme
    {
      this.client := client;
      this.scheme := scheme;
    }

    /** Reconcile; now is the clock reading every status write of the pass records. */
    method Reconcile(req: Request, now: int) returns (result: CtrlResult, err: Option<ApiError>)
      requires client.Valid()
      modifies client
      ensures client.Valid()
      ensures (Reconciled(result, err), client.State()) == BundleReconcileOutcome(old(client.State()), scheme, req, now)
    {
      var got := client.GetBundle(req);
      if got.Err? {
        if got.error == NotFound {
          return Done, None;
        }
        return Done, Some(got.error);
      }
      var packageBundle := got.value;
      var pbReq := BundleRequest(packageBundle);
      ghost var fetched := client.State();
      if packageBundle.status.phase == None {
        var initErr := UpdatePackageBundlePhase(client, pbReq, Pending, InitialMessage, "", now);
        if initErr.Some? {
          return Done, initErr;
        }
      }
      if packageBundle.status.phase == Some(Downloaded) {
        return Done, None;
      }
      assert FetchedOutcome(fetched, scheme, packageBundle, now) == ProvisionOutcome(client.State(), scheme, packageBundle, now);

      var pvc := NewPersistentVolumeClaim(scheme, packageBundle);
      var requeue, ensureErr := EnsureObjectExists(client, ClaimObject(pvc));
      if ensureErr.Some? {
        var updateErr := UpdatePackageBundlePhase(
          client, pbReq, FailedToDownload, ClaimFailurePrefix + ErrorText(ensureErr.value), "", now);
        return Done, ensureErr;
      }
      if requeue {
        return CtrlResult(true, 0), None;
      }

      var job := NewJob(scheme, packageBundle);
      var jobName := job.meta.name;
      requeue, ensureErr := EnsureObjectExists(client, JobObject(job));
      if ensureErr.Some? {
        var updateErr := UpdatePackageBundlePhase(
          client, pbReq, FailedToDownload, JobFailurePrefix + ErrorText(ensureErr.value), jobName, now);
        return Done, ensureErr;
      }
      if requeue {
        var updateErr := UpdatePackageBundlePhase(client, pbReq, ContainerCreating, JobCreatedMessage, jobName, now);
        return CtrlResult(true, 0), None;
      }

      var phase, message, statusErr := GetJobStatus(client, jobName, packageBundle.meta.namespace);
      if statusErr.Some? {
        return CtrlResult(false, PollSeconds), statusErr;
      }
      var updateErr := UpdatePackageBundlePhase(client, pbReq, phase, message, jobName, now);
      if updateErr.Some? {
        return Done, updateErr;
      }
      if phase == ContainerCreating || phase == Downloading {
        return CtrlResult(false, PollSeconds), None;
      }
      return Done, None;
    }
  }

  // ---- Properties of a pass ----

  /** The keys a pass for req may add: the claim and the Job of the stored bundle. */
  ghost function Children(s: Store, req: Request): set<Key>
  {
    if BundleKey(req) in s.objects && s.objects[BundleKey(req)].BundleObject?
    then
      var pb := s.objects[BundleKey(req)].bundle;
      {ClaimKey(pb), JobKey(pb)}
    else {}
  }

  /**
   * A pass adds at most the bundle's claim and Job, keeps every other
   * object, and changes the bundle only in its status.
   */
  lemma BundleReconcileFrame(s: Store, scheme: Scheme, req: Request, now: int)
    requires WellFormed(s)
    ensures WellFormed(BundleReconcileOutcome(s, scheme, req, now).1)
    ensures Evolves(s, BundleReconcileOutcome(s, scheme, req, now).1, BundleKey(req), Children(s, req))
  {
    var (got, s1) := BundleAt(s, req);
    PassAfterFetch(s, scheme, req, now);
    if got.Ok? {
      var pb := got.value;
      assert KeyOf(s.objects[BundleKey(req)]) == BundleKey(req);
      assert Children(s, req) == {ClaimKey(pb), JobKey(pb)};
      FetchedKeeps(s1, scheme, pb, now);
      EvolvesFromFetch(s, s1, FetchedOutcome(s1, scheme, pb, now).1, BundleKey(req), Children(s, req));
    }
  }

  /** A pass asks for an immediate requeue exactly when it created a child, and then schedules no delayed one. */
  lemma RequeueMeansCreated(s: Store, scheme: Scheme, req: Request, now: int)
    ensures var (r, s') := BundleReconcileOutcome(s, scheme, req, now);
      && (r.result.requeue <==> s'.objects.Keys != s.objects.Keys)
      && (r.result.requeue ==> r.result.requeueAfter == 0)
  {
    PassAfterFetch(s, scheme, req, now);
    var (got, s1) := BundleAt(s, req);
    if got.Ok? {
      FetchedKeeps(s1, scheme, got.value, now);
    }
  }

  /** The claim comes first: a pass creates the Job only when the claim is already stored. */
  lemma ClaimBeforeJob(s: Store, scheme: Scheme, req: Request, now: int, pb: PackageBundle)
    requires BundleKey(req) in s.objects && s.objects[BundleKey(req)] == BundleObject(pb)
    ensures var s' := BundleReconcileOutcome(s, scheme, req, now).1;
      JobKey(pb) in s'.objects && JobKey(pb) !in s.objects ==> ClaimKey(pb) in s.objects
  {
    PassAfterFetch(s, scheme, req, now);
    var (got, s1) := BundleAt(s, req);
    if got.Ok? {
      FetchedKeeps(s1, scheme, got.value, now);
    }
  }

  /** The fetch only consumes an API answer: a pass is its fetch, then the stages after it. */
  lemma PassAfterFetch(s: Store, scheme: Scheme, req: Request, now: int)
    ensures var (got, s1) := BundleAt(s, req);
      && (got.Ok? ==> BundleReconcileOutcome(s, scheme, req, now) == FetchedOutcome(s1, scheme, got.value, now))
      && (got.Err? ==> BundleReconcileOutcome(s, scheme, req, now).1 == s1 &&
                       BundleReconcileOutcome(s, scheme, req, now).0.result == Done)
  {
  }

  lemma EvolvesFromFetch(s: Store, s1: Store, s2: Store, bundleKey: Key, allowed: set<Key>)
    requires s1.objects == s.objects
    requires Evolves(s1, s2, bundleKey, allowed)
    ensures Evolves(s, s2, bundleKey, allowed)
  {
  }

  /**
   * A deleted bundle ends the pass quietly; any other failed fetch is
   * returned. Either way nothing is written.
   */
  lemma BundleFetchFailure(s: Store, scheme: Scheme, req: Request, now: int)
    requires req.name != ""
    requires BundleKey(req) !in s.objects || TakeFault(s).0.Fail?
    ensures var (r, s') := BundleReconcileOutcome(s, scheme, req, now);
      && s'.objects == s.objects
      && r.result == Done
      && (r.err == None <==> (TakeFault(s).0 == Pass || TakeFault(s).0 == Fail(NotFound)))
      && (TakeFault(s).0.Fail? && TakeFault(s).0.error != NotFound ==> r.err == Some(TakeFault(s).0.error))
  {
  }

  /** Downloaded is terminal: whatever the API answers, a pass writes nothing and does not requeue. */
  lemma DownloadedIsTerminal(s: Store, scheme: Scheme, req: Request, now: int)
    requires req.name != ""
    requires BundleKey(req) in s.objects && s.objects[BundleKey(req)].BundleObject?
    requires s.objects[BundleKey(req)].bundle.status.phase == Some(Downloaded)
    ensures var (r, s') := BundleReconcileOutcome(s, scheme, req, now);
      && s'.objects == s.objects
      && r.result == Done
      && (TakeFault(s).0 == Pass ==> r.err == None)
  {
  }

  /** With nothing failing, a pass for a stored bundle is the stages after the fetch. */
  lemma PassOnStoredBundle(s: Store, scheme: Scheme, req: Request, now: int, pb: PackageBundle)
    requires s.faults == [] && req.name != ""
    requires BundleKey(req) in s.objects && s.objects[BundleKey(req)] == BundleObject(pb)
    ensures BundleReconcileOutcome(s, scheme, req, now) == FetchedOutcome(s, scheme, pb, now)
  {
    assert BundleAt(s, req) == (Ok(pb), s);
  }

  /**
   * The conditions of the pass lemmas below: nothing fails, and pb is
   * stored under the key req names, which is its own name.
   */
  ghost predicate StoredBundle(s: Store, req: Request, pb: PackageBundle)
  {
    && s.faults == [] && req.name != "" && BundleRequest(pb) == req
    && BundleKey(req) in s.objects && s.objects[BundleKey(req)] == BundleObject(pb)
  }

  lemma StoredBundleNames(s: Store, req: Request, pb: PackageBundle)
    requires StoredBundle(s, req, pb)
    ensures ClaimName(pb) != "" && JobName(pb) != ""
  {
    assert ClaimName(pb)[0] == pb.meta.name[0];
  }

  /**
   * First pass of a new bundle: it is given the Pending phase with message
   * "PackageBundle created" and, since the fetched copy still has no phase,
   * the pass goes on to create the claim and asks for a requeue.
   */
  lemma FirstPassCreatesClaim(s: Store, scheme: Scheme, req: Request, now: int, pb: PackageBundle)
    requires StoredBundle(s, req, pb) && BundleKind in scheme.kinds
    requires pb.status.phase == None && ClaimKey(pb) !in s.objects
    ensures BundleReconcileOutcome(s, scheme, req, now).0 == Reconciled(CtrlResult(true, 0), None)
    ensures BundleReconcileOutcome(s, scheme, req, now).1.faults == []
    ensures BundleReconcileOutcome(s, scheme, req, now).1.objects ==
      s.objects[BundleKey(req) := BundleObject(pb.(status := ChangedStatus(Pending, InitialMessage, "", now)))]
               [ClaimKey(pb) := ClaimObject(NewPersistentVolumeClaim(scheme, pb))]
  {
    StoredBundleNames(s, req, pb);
    PassOnStoredBundle(s, scheme, req, now, pb);
    NewPhaseIsWritten(s, req, Pending, InitialMessage, "", now);
    var s1 := InitialStatus(s, pb, now).1;
    assert FetchedOutcome(s, scheme, pb, now) == ProvisionOutcome(s1, scheme, pb, now);
    ClaimCreated(s1, scheme, pb, now);
  }

  /** With nothing failing and the claim absent, the provisioning stage creates it and stops. */
  lemma ClaimCreated(s: Store, scheme: Scheme, pb: PackageBundle, now: int)
    requires s.faults == [] && BundleKind in scheme.kinds && ClaimName(pb) != ""
    requires ClaimKey(pb) !in s.objects
    ensures ProvisionOutcome(s, scheme, pb, now) ==
      (Reconciled(CtrlResult(true, 0), None),
       CreateObject(s, ClaimObject(NewPersistentVolumeClaim(scheme, pb))).1)
    ensures ProvisionOutcome(s, scheme, pb, now).1.objects ==
      s.objects[ClaimKey(pb) := ClaimObject(NewPersistentVolumeClaim(scheme, pb))]
  {
    var claim := ClaimObject(NewPersistentVolumeClaim(scheme, pb));
    assert KeyOf(claim) == ClaimKey(pb);
    EnsureCreatesAbsent(s, claim);
  }

  /** With nothing failing and the claim stored, the provisioning stage goes on to the Job. */
  lemma ClaimPresent(s: Store, scheme: Scheme, pb: PackageBundle, now: int)
    requires s.faults == [] && BundleKind in scheme.kinds && ClaimName(pb) != ""
    requires ClaimKey(pb) in s.objects
    ensures ProvisionOutcome(s, scheme, pb, now) == JobStage(s, scheme, pb, now)
  {
    ChildKeys(scheme, pb);
    EnsureFindsExisting(s, ClaimObject(NewPersistentVolumeClaim(scheme, pb)));
  }

  /** A failed claim ensure is recorded as FailedToDownload with the error's text, and returned. */
  lemma ClaimEnsureFails(s: Store, scheme: Scheme, pb: PackageBundle, now: int, e: ApiError, s1: Store)
    requires EnsureOutcome(s, ClaimObject(NewPersistentVolumeClaim(scheme, pb))) == (Ensured(false, Some(e)), s1)
    ensures ProvisionOutcome(s, scheme, pb, now) ==
      (Reconciled(Done, Some(e)), UpdatePhase(s1, pb, FailedToDownload, ClaimFailurePrefix + ErrorText(e), "", now).1)
  {
  }

  /**
   * A failed Job ensure is recorded as FailedToDownload with the error's
   * text after "Failed to create Job: " and the Job's name, and the error is
   * returned whatever that write does.
   */
  lemma JobEnsureFails(s: Store, scheme: Scheme, pb: PackageBundle, now: int, e: ApiError, s1: Store)
    requires EnsureOutcome(s, JobObject(NewJob(scheme, pb))) == (Ensured(false, Some(e)), s1)
    ensures JobStage(s, scheme, pb, now) ==
      (Reconciled(Done, Some(e)),
       UpdatePhase(s1, pb, FailedToDownload, JobFailurePrefix + ErrorText(e),
                   if BundleKind in scheme.kinds then JobName(pb) else "", now).1)
  {
    ChildKeys(scheme, pb);
  }

  /**
   * A failed write of the initial Pending phase ends the pass: its error is
   * returned with no requeue, and nothing is created.
   */
  lemma InitialWriteFails(s: Store, scheme: Scheme, pb: PackageBundle, now: int)
    requires pb.status.phase == None
    requires UpdatePhase(s, pb, Pending, InitialMessage, "", now).0.Some?
    ensures FetchedOutcome(s, scheme, pb, now) ==
      (Reconciled(Done, UpdatePhase(s, pb, Pending, InitialMessage, "", now).0),
       UpdatePhase(s, pb, Pending, InitialMessage, "", now).1)
    ensures FetchedOutcome(s, scheme, pb, now).1.objects.Keys == s.objects.Keys
  {
  }

  /**
   * Over a whole pass: when the Get of the initial write fails with any
   * error but Conflict, that error is returned and nothing is written.
   */
  lemma InitialWriteFailureEndsPass(s: Store, scheme: Scheme, req: Request, now: int, pb: PackageBundle, e: ApiError)
    requires StoredBundle(s.(faults := []), req, pb) && pb.status.phase == None
    requires s.faults == [Pass, Fail(e)] && e != Conflict
    ensures BundleReconcileOutcome(s, scheme, req, now) == (Reconciled(Done, Some(e)), s.(faults := []))
  {
    var s1 := s.(faults := [Fail(e)]);
    assert BundleAt(s, req) == (Ok(pb), s1);
    PassAfterFetch(s, scheme, req, now);
    assert PhaseAttempt(s1, req, Pending, InitialMessage, "", now) == (Some(e), s.(faults := []));
    InitialWriteFails(s1, scheme, pb, now);
  }

  /**
   * A failed phase write after a successful poll ends the pass with its
   * error and no poll in 30 seconds, even for a Job still running.
   */
  lemma PollWriteFails(s: Store, pb: PackageBundle, jobName: string, now: int, job: Job, e: ApiError)
    requires jobName != "" && pb.meta.name != ""
    requires Key(JobKind, pb.meta.namespace, jobName) in s.objects
    requires s.objects[Key(JobKind, pb.meta.namespace, jobName)] == JobObject(job)
    requires s.faults == [Pass, Fail(e)] && e != Conflict
    ensures PollOutcome(s, pb, jobName, now) == (Reconciled(Done, Some(e)), s.(faults := []))
  {
    var s1 := s.(faults := [Fail(e)]);
    FoundJobIsClassified(s, jobName, pb.meta.namespace);
    assert JobStatusOutcome(s, jobName, pb.meta.namespace).1 == s1;
    var verdict := ClassifyJob(job.status);
    assert PhaseAttempt(s1, BundleRequest(pb), verdict.0, verdict.1, jobName, now) == (Some(e), s.(faults := []));
  }

  /** The status a bundle ends with after a phase write of newPhase that nothing disturbs. */
  function AfterWrite(b: PackageBundle, newPhase: Phase, message: string, jobName: string, now: int): PackageBundle
  {
    if b.status.phase == Some(newPhase) then b
    else b.(status := ChangedStatus(newPhase, message, jobName, now))
  }

  /** A phase write that nothing disturbs leaves the bundle as AfterWrite says. */
  lemma QuietPhaseWrite(s: Store, req: Request, b: PackageBundle, newPhase: Phase, message: string, jobName: string, now: int)
    requires s.faults == [] && req.name != ""
    requires BundleKey(req) in s.objects && s.objects[BundleKey(req)] == BundleObject(b)
    ensures PhaseUpdate(s, req, newPhase, message, jobName, now) ==
      (None, s.(objects := s.objects[BundleKey(req) := BundleObject(AfterWrite(b, newPhase, message, jobName, now))]))
  {
    if b.status.phase == Some(newPhase) {
      SamePhaseWritesNothing(s, req, newPhase, message, jobName, now, RetrySteps);
      assert s.objects[BundleKey(req) := BundleObject(b)] == s.objects;
    } else {
      NewPhaseIsWritten(s, req, newPhase, message, jobName, now);
    }
  }

  /**
   * With nothing failing and the Job absent, the Job stage creates it,
   * records ContainerCreating with the Job's name, and asks for a requeue.
   */
  lemma JobCreated(s: Store, scheme: Scheme, pb: PackageBundle, b: PackageBundle, now: int)
    requires s.faults == [] && BundleKind in scheme.kinds && JobName(pb) != "" && pb.meta.name != ""
    requires JobKey(pb) !in s.objects
    requires BundleKey(BundleRequest(pb)) in s.objects && s.objects[BundleKey(BundleRequest(pb))] == BundleObject(b)
    ensures JobStage(s, scheme, pb, now).0 == Reconciled(CtrlResult(true, 0), None)
    ensures JobStage(s, scheme, pb, now).1.objects ==
      s.objects[JobKey(pb) := JobObject(NewJob(scheme, pb))]
               [BundleKey(BundleRequest(pb)) := BundleObject(AfterWrite(b, ContainerCreating, JobCreatedMessage, JobName(pb), now))]
  {
    var job := JobObject(NewJob(scheme, pb));
    assert KeyOf(job) == JobKey(pb);
    EnsureCreatesAbsent(s, job);
    var s1 := EnsureOutcome(s, job).1;
    QuietPhaseWrite(s1, BundleRequest(pb), b, ContainerCreating, JobCreatedMessage, JobName(pb), now);
  }

  /**
   * Second pass: with the claim stored and the Job absent, the Job is
   * created, the bundle records ContainerCreating with the Job's name
   * (unless it already had that phase), and the pass asks for a requeue.
   */
  lemma SecondPassCreatesJob(s: Store, scheme: Scheme, req: Request, now: int, pb: PackageBundle)
    requires StoredBundle(s, req, pb) && BundleKind in scheme.kinds
    requires pb.status.phase.Some? && pb.status.phase != Some(Downloaded)
    requires ClaimKey(pb) in s.objects && JobKey(pb) !in s.objects
    ensures BundleReconcileOutcome(s, scheme, req, now).0 == Reconciled(CtrlResult(true, 0), None)
    ensures BundleReconcileOutcome(s, scheme, req, now).1.faults == []
    ensures BundleReconcileOutcome(s, scheme, req, now).1.objects ==
      s.objects[JobKey(pb) := JobObject(NewJob(scheme, pb))]
               [BundleKey(req) := BundleObject(AfterWrite(pb, ContainerCreating, JobCreatedMessage, JobName(pb), now))]
  {
    StoredBundleNames(s, req, pb);
    PassOnStoredBundle(s, scheme, req, now, pb);
    assert FetchedOutcome(s, scheme, pb, now) == ProvisionOutcome(s, scheme, pb, now);
    ClaimPresent(s, scheme, pb, now);
    JobCreated(s, scheme, pb, pb, now);
  }

  /** The delay a successful poll asks for: 30 seconds while the download is pending or running. */
  function PollDelay(phase: Phase): nat
  {
    if phase == ContainerCreating || phase == Downloading then PollSeconds else 0
  }

  /**
   * With nothing failing, polling a stored Job records the classifier's
   * phase and message on the bundle b stored now, and asks to be polled
   * again in 30 seconds exactly when that phase is ContainerCreating or
   * Downloading.
   */
  lemma QuietPoll(s: Store, pb: PackageBundle, b: PackageBundle, jobName: string, now: int, job: Job)
    requires s.faults == [] && jobName != "" && pb.meta.name != ""
    requires Key(JobKind, pb.meta.namespace, jobName) in s.objects
    requires s.objects[Key(JobKind, pb.meta.namespace, jobName)] == JobObject(job)
    requires BundleKey(BundleRequest(pb)) in s.objects && s.objects[BundleKey(BundleRequest(pb))] == BundleObject(b)
    ensures var verdict := ClassifyJob(job.status);
      PollOutcome(s, pb, jobName, now) ==
        (Reconciled(CtrlResult(false, PollDelay(verdict.0)), None),
         s.(objects := s.objects[BundleKey(BundleRequest(pb)) := BundleObject(AfterWrite(b, verdict.0, verdict.1, jobName, now))]))
  {
    var verdict := ClassifyJob(job.status);
    FoundJobIsClassified(s, jobName, pb.meta.namespace);
    QuietPhaseWrite(s, BundleRequest(pb), b, verdict.0, verdict.1, jobName, now);
  }

  /**
   * A later pass: with claim and Job stored, the bundle takes the phase and
   * message the Job's state gives (a FailedToDownload bundle is polled
   * too), and is polled again in 30 seconds while the download is pending
   * or running.
   */
  lemma PollPassRecordsJobState(s: Store, scheme: Scheme, req: Request, now: int, pb: PackageBundle, job: Job)
    requires StoredBundle(s, req, pb) && BundleKind in scheme.kinds
    requires pb.status.phase.Some? && pb.status.phase != Some(Downloaded)
    requires ClaimKey(pb) in s.objects && JobKey(pb) in s.objects && s.objects[JobKey(pb)] == JobObject(job)
    ensures var verdict := ClassifyJob(job.status);
      BundleReconcileOutcome(s, scheme, req, now) ==
        (Reconciled(CtrlResult(false, PollDelay(verdict.0)), None),
         s.(objects := s.objects[BundleKey(req) := BundleObject(AfterWrite(pb, verdict.0, verdict.1, JobName(pb), now))]))
  {
    StoredBundleNames(s, req, pb);
    PassOnStoredBundle(s, scheme, req, now, pb);
    assert FetchedOutcome(s, scheme, pb, now) == ProvisionOutcome(s, scheme, pb, now);
    ClaimPresent(s, scheme, pb, now);
    JobPresent(s, scheme, pb, now);
    QuietPoll(s, pb, pb, JobName(pb), now, job);
  }

  /** With nothing failing and the Job stored, the Job stage polls it. */
  lemma JobPresent(s: Store, scheme: Scheme, pb: PackageBundle, now: int)
    requires s.faults == [] && BundleKind in scheme.kinds && JobName(pb) != ""
    requires JobKey(pb) in s.objects
    ensures JobStage(s, scheme, pb, now) == PollOutcome(s, pb, JobName(pb), now)
  {
    ChildKeys(scheme, pb);
    JobShape(scheme, pb);
    EnsureFindsExisting(s, JobObject(NewJob(scheme, pb)));
  }

  /**
   * A failed Job fetch other than NotFound writes nothing: the error is
   * returned with a poll in 30 seconds.
   */
  lemma PollFetchErrorWritesNothing(s: Store, pb: PackageBundle, jobName: string, now: int, e: ApiError)
    requires jobName != "" && TakeFault(s).0 == Fail(e) && e != NotFound
    ensures PollOutcome(s, pb, jobName, now) == (Reconciled(CtrlResult(false, PollSeconds), Some(e)), TakeFault(s).1)
  {
  }

  /**
   * A failed claim creation is recorded: the bundle becomes FailedToDownload
   * with the error's text after "Failed to create PVC: ", and the error is
   * returned.
   */
  lemma ClaimCreateFailureRecorded(s: Store, scheme: Scheme, req: Request, now: int, pb: PackageBundle, m: string)
    requires StoredBundle(s.(faults := []), req, pb) && BundleKind in scheme.kinds
    requires s.faults == [Pass, Pass, Fail(ServerError(m))]
    requires pb.status.phase.Some? && pb.status.phase != Some(Downloaded) && pb.status.phase != Some(FailedToDownload)
    requires ClaimKey(pb) !in s.objects
    ensures BundleReconcileOutcome(s, scheme, req, now) ==
      (Reconciled(Done, Some(ServerError(m))),
       Store(s.objects[BundleKey(req) := BundleObject(pb.(status := ChangedStatus(FailedToDownload, ClaimFailurePrefix + m, "", now)))],
             s.order, []))
  {
    var quiet := s.(faults := []);
    StoredBundleNames(quiet, req, pb);
    var s1 := s.(faults := [Pass, Fail(ServerError(m))]);
    assert BundleAt(s, req) == (Ok(pb), s1);
    PassAfterFetch(s, scheme, req, now);
    assert FetchedOutcome(s1, scheme, pb, now) == ProvisionOutcome(s1, scheme, pb, now);
    var claim := ClaimObject(NewPersistentVolumeClaim(scheme, pb));
    ChildKeys(scheme, pb);
    assert EnsureOutcome(s1, claim) == (Ensured(false, Some(ServerError(m))), quiet);
    ClaimEnsureFails(s1, scheme, pb, now, ServerError(m), quiet);
    NewPhaseIsWritten(quiet, req, FailedToDownload, ClaimFailurePrefix + m, "", now);
  }

  /** Without the bundle kind in the scheme, the nameless claim's refusal is recorded and returned. */
  lemma ProvisionWithoutOwnerKind(s: Store, scheme: Scheme, pb: PackageBundle, now: int)
    requires BundleKind !in scheme.kinds
    ensures ProvisionOutcome(s, scheme, pb, now) ==
      (Reconciled(Done, Some(ServerError(EmptyNameMessage))),
       UpdatePhase(s, pb, FailedToDownload, ClaimFailurePrefix + EmptyNameMessage, "", now).1)
  {
    ChildKeys(scheme, pb);
    EnsureRefusesEmptyName(s, ClaimObject(NewPersistentVolumeClaim(scheme, pb)));
    ClaimEnsureFails(s, scheme, pb, now, ServerError(EmptyNameMessage), s);
  }

  /**
   * When the scheme cannot set the owner reference, the claim has no name,
   * its Get is refused, and the bundle becomes FailedToDownload with
   * "Failed to create PVC: " and that refusal as its message; the error is
   * returned and nothing is created.
   */
  lemma MissingOwnerKindFailsBundle(s: Store, scheme: Scheme, req: Request, now: int, pb: PackageBundle)
    requires StoredBundle(s, req, pb) && BundleKind !in scheme.kinds
    requires pb.status.phase.Some? && pb.status.phase != Some(Downloaded) && pb.status.phase != Some(FailedToDownload)
    ensures BundleReconcileOutcome(s, scheme, req, now) ==
      (Reconciled(Done, Some(ServerError(EmptyNameMessage))),
       s.(objects := s.objects[BundleKey(req) := BundleObject(pb.(status := ChangedStatus(
          FailedToDownload, ClaimFailurePrefix + EmptyNameMessage, "", now)))]))
  {
    PassOnStoredBundle(s, scheme, req, now, pb);
    assert FetchedOutcome(s, scheme, pb, now) == ProvisionOutcome(s, scheme, pb, now);
    ProvisionWithoutOwnerKind(s, scheme, pb, now);
    NewPhaseIsWritten(s, req, FailedToDownload, ClaimFailurePrefix + EmptyNameMessage, "", now);
  }

  /** A freshly created Job has no pods yet: a ContainerCreating bundle waits, writing nothing. */
  lemma NewJobKeepsWaiting(s: Store, scheme: Scheme, req: Request, now: int, pb: PackageBundle)
    requires StoredBundle(s, req, pb) && BundleKind in scheme.kinds
    requires pb.status.phase == Some(ContainerCreating)
    requires ClaimKey(pb) in s.objects && JobKey(pb) in s.objects
    requires s.objects[JobKey(pb)] == JobObject(NewJob(scheme, pb))
    ensures BundleReconcileOutcome(s, scheme, req, now) == (Reconciled(CtrlResult(false, PollSeconds), None), s)
  {
    var job := NewJob(scheme, pb);
    assert job.status == NoJobStatus;
    PollPassRecordsJobState(s, scheme, req, now, pb, job);
    assert ClassifyJob(job.status) == (ContainerCreating, CreatingMessage);
    assert s.objects[BundleKey(req) := BundleObject(pb)] == s.objects;
  }

  /**
   * The first two passes of a new bundle when nothing fails: the claim and
   * the Job are created as built, and the bundle ends ContainerCreating
   * with the Job's name and the second pass's time.
   */
  lemma TwoPassesProvision(s: Store, scheme: Scheme, req: Request, pb: PackageBundle, t1: int, t2: int)
    requires StoredBundle(s, req, pb) && BundleKind in scheme.kinds
    requires pb.status.phase == None && ClaimKey(pb) !in s.objects && JobKey(pb) !in s.objects
    ensures var s1 := BundleReconcileOutcome(s, scheme, req, t1).1;
      var s2 := BundleReconcileOutcome(s1, scheme, req, t2).1;
      var creating := pb.(status := ChangedStatus(ContainerCreating, JobCreatedMessage, JobName(pb), t2));
      && s2.faults == []
      && s2.objects == s.objects[BundleKey(req) := BundleObject(creating)]
                                [ClaimKey(pb) := ClaimObject(NewPersistentVolumeClaim(scheme, pb))]
                                [JobKey(pb) := JobObject(NewJob(scheme, pb))]
  {
    var pending := pb.(status := ChangedStatus(Pending, InitialMessage, "", t1));
    FirstPassCreatesClaim(s, scheme, req, t1, pb);
    var s1 := BundleReconcileOutcome(s, scheme, req, t1).1;
    assert StoredBundle(s1, req, pending);
    SecondPassCreatesJob(s1, scheme, req, t2, pending);
    assert NewJob(scheme, pending) == NewJob(scheme, pb);
    var creating := pb.(status := ChangedStatus(ContainerCreating, JobCreatedMessage, JobName(pb), t2));
    UpdatesCommute(s.objects, BundleKey(req), ClaimKey(pb), JobKey(pb), BundleObject(pending), BundleObject(creating),
      ClaimObject(NewPersistentVolumeClaim(scheme, pb)), JobObject(NewJob(scheme, pb)));
  }

  /** A later write to a key overrides an earlier one, past writes to other keys. */
  lemma UpdatesCommute<K, V>(m: map<K, V>, a: K, b: K, c: K, va: V, va': V, vb: V, vc: V)
    requires a != b && a != c
    ensures m[a := va][b := vb][c := vc][a := va'] == m[a := va'][b := vb][c := vc]
  {
  }

  /**
   * The life of a new bundle when nothing fails: the first pass sets
   * Pending and creates the claim, the second creates the Job and sets
   * ContainerCreating, and the third finds the Job without pods yet,
   * writes nothing, and asks to be polled again in 30 seconds.
   */
  lemma NewBundleLifecycle(s: Store, scheme: Scheme, req: Request, pb: PackageBundle, t1: int, t2: int, t3: int)
    requires StoredBundle(s, req, pb) && BundleKind in scheme.kinds
    requires pb.status.phase == None && ClaimKey(pb) !in s.objects && JobKey(pb) !in s.objects
    ensures var s1 := BundleReconcileOutcome(s, scheme, req, t1).1;
      var s2 := BundleReconcileOutcome(s1, scheme, req, t2).1;
      BundleReconcileOutcome(s2, scheme, req, t3) == (Reconciled(CtrlResult(false, PollSeconds), None), s2)
  {
    var creating := pb.(status := ChangedStatus(ContainerCreating, JobCreatedMessage, JobName(pb), t2));
    TwoPassesProvision(s, scheme, req, pb, t1, t2);
    var s1 := BundleReconcileOutcome(s, scheme, req, t1).1;
    var s2 := BundleReconcileOutcome(s1, scheme, req, t2).1;
    assert NewJob(scheme, creating) == NewJob(scheme, pb);
    NewJobKeepsWaiting(s2, scheme, req, t3, creating);
  }

  /**
   * A Job whose only condition is a true Complete makes the bundle
   * Downloaded with the completion message and ends the polling; from then
   * on every pass is a no-op.
   */
  lemma CompletedJobEndsPolling(s: Store, scheme: Scheme, req: Request, now: int, later: int, pb: PackageBundle, job: Job)
    requires StoredBundle(s, req, pb) && BundleKind in scheme.kinds
    requires pb.status.phase.Some? && pb.status.phase != Some(Downloaded)
    requires ClaimKey(pb) in s.objects && JobKey(pb) in s.objects && s.objects[JobKey(pb)] == JobObject(job)
    requires job.status.conditions == [JobCondition(Complete, ConditionTrue, "")]
    ensures var (r, s') := BundleReconcileOutcome(s, scheme, req, now);
      && r == Reconciled(Done, None)
      && s'.objects[BundleKey(req)] ==
           BundleObject(pb.(status := ChangedStatus(Downloaded, "Package download completed successfully", JobName(pb), now)))
      && BundleReconcileOutcome(s', scheme, req, later) == (Reconciled(Done, None), s')
  {
    PollPassRecordsJobState(s, scheme, req, now, pb, job);
    FirstDecidingIs(job.status.conditions, 0);
    var s' := BundleReconcileOutcome(s, scheme, req, now).1;
    var done := pb.(status := ChangedStatus(Downloaded, CompletedMessage, JobName(pb), now));
    assert StoredBundle(s', req, done);
    PassOnStoredBundle(s', scheme, req, later, done);
  }
}

