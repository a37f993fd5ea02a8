/**
 * helpers.go: the existence ensurer both reconcilers use for every child,
 * the mapper from Secret and ConfigMap changes to NSO reconcile requests,
 * the conflict-retried PackageBundle phase write, and the classifier from
 * a Job's observed state to a PackageBundle phase. Each store-touching
 * routine is a method on the Client, proved equal to a pure function of
 * the store; the properties are lemmas about those functions.
 */
module Helpers {
  import opened Wrappers
  import opened Kube
  import opened V1alpha1
  import opened Cluster

  // ---- ensureObjectExists ----

  /** The (bool, error) pair ensureObjectExists returns. */
  datatype Ensured = Ensured(created: bool, err: Option<ApiError>)

  /**
   * Create-if-absent: a Get on the object's key; on NotFound a Create. An
   * existing object is never compared, updated or patched.
   */
  function EnsureOutcome(s: Store, obj: Object): (r: (Ensured, Store))
    ensures WellFormed(s) ==> WellFormed(r.1)
    ensures r.0.created ==> r.0.err == None && KeyOf(obj) !in s.objects && r.1.objects == s.objects[KeyOf(obj) := obj]
    ensures r.0.created ==> KeyOf(obj).name != ""
    ensures !r.0.created ==> r.1.objects == s.objects
    ensures KeyOf(obj).name != "" && TakeFault(s).0.Fail? && TakeFault(s).0.error != NotFound ==>
      r.0 == Ensured(false, Some(TakeFault(s).0.error))
    ensures r.0 == Ensured(false, None) ==> KeyOf(obj) in s.objects
  {
    var (got, s1) := GetObject(s, KeyOf(obj));
    if got.Err? && got.error == NotFound then
      var (err, s2) := CreateObject(s1, obj);
      if err.Some? then (Ensured(false, err), s2) else (Ensured(true, None), s2)
    else if got.Err? then (Ensured(false, Some(got.error)), s1)
    else (Ensured(false, None), s1)
  }

  method EnsureObjectExists(c: Client, obj: Object) returns (created: bool, err: Option<ApiError>)
    requires c.Valid()
    modifies c
    ensures c.Valid()
    ensures (Ensured(created, err), c.State()) == EnsureOutcome(old(c.State()), obj)
  {
    var got := c.Get(KeyOf(obj));
    if got.Err? && got.error == NotFound {
      err := c.Create(obj);
      if err.Some? {
        return false, err;
      }
      return true, None;
    } else if got.Err? {
      return false, Some(got.error);
    }
    return false, None;
  }

  /** An absent object is created under its key and reported as created, with no error. */
  lemma EnsureCreatesAbsent(s: Store, obj: Object)
    requires KeyOf(obj).name != "" && KeyOf(obj) !in s.objects && s.faults == []
    ensures EnsureOutcome(s, obj).0 == Ensured(true, None)
    ensures EnsureOutcome(s, obj).1.objects == s.objects[KeyOf(obj) := obj]
  {
  }

  /**
   * An absent object whose Create fails: the Create's error is returned as
   * it is, nothing is reported as created and nothing is stored.
   */
  lemma EnsureCreateFails(s: Store, obj: Object, e: ApiError)
    requires KeyOf(obj).name != "" && KeyOf(obj) !in s.objects
    requires s.faults == [Pass, Fail(e)]
    ensures EnsureOutcome(s, obj) == (Ensured(false, Some(e)), s.(faults := []))
  {
    assert GetObject(s, KeyOf(obj)) == (Err(NotFound), s.(faults := [Fail(e)]));
  }

  /**
   * Ensuring twice: true then false, with no error the second time and no
   * second copy: the second call leaves the store as the first left it.
   */
  lemma EnsureTwice(s: Store, obj: Object)
    requires KeyOf(obj).name != "" && KeyOf(obj) !in s.objects && s.faults == []
    ensures var (first, s1) := EnsureOutcome(s, obj);
      var (second, s2) := EnsureOutcome(s1, obj);
      && first == Ensured(true, None)
      && second == Ensured(false, None)
      && s2.objects == s1.objects == s.objects[KeyOf(obj) := obj]
  {
  }

  /**
   * An object already stored is left as it is, whatever the API answers; the
   * call reports no creation, and an error exactly when the Get failed: the
   * Get's own error, or, when the Get wrongly said NotFound, the Create's.
   */
  lemma EnsureKeepsExisting(s: Store, obj: Object)
    requires KeyOf(obj).name != "" && KeyOf(obj) in s.objects
    ensures var (r, s1) := EnsureOutcome(s, obj);
      && !r.created
      && s1.objects == s.objects
      && (match TakeFault(s).0
          case Pass => r.err == None
          case Fail(e) => r.err.Some? && (e != NotFound ==> r.err == Some(e)))
  {
  }

  /** With nothing failing, an object already stored is found: no creation, no error, no change. */
  lemma EnsureFindsExisting(s: Store, obj: Object)
    requires s.faults == [] && KeyOf(obj).name != "" && KeyOf(obj) in s.objects
    ensures EnsureOutcome(s, obj) == (Ensured(false, None), s)
  {
  }

  /**
   * An object without a name is refused before any request: the error is
   * the client's refusal and the store is untouched.
   */
  lemma EnsureRefusesEmptyName(s: Store, obj: Object)
    requires KeyOf(obj).name == ""
    ensures EnsureOutcome(s, obj) == (Ensured(false, Some(ServerError(EmptyNameMessage))), s)
  {
  }

  // ---- watchForResourceChange ----

  /** The changed object of a watch event: the kind it reports, its namespace and name. */
  datatype WatchedObject = WatchedObject(kind: string, namespace: string, name: string)

  /** An NSO refers to a Secret by its password reference and to a ConfigMap by its config reference. */
  predicate References(nso: Nso, obj: WatchedObject)
  {
    || (obj.kind == "Secret" && nso.spec.adminCredentials.passwordSecretRef == obj.name)
    || (obj.kind == "ConfigMap" && nso.spec.nsoConfigRef == obj.name)
  }

  function RequestOf(nso: Nso): Request
  {
    Request(nso.meta.namespace, nso.meta.name)
  }

  /** One request per listed NSO that refers to obj, in list order. */
  function RequestsFor(items: seq<Nso>, obj: WatchedObject): seq<Request>
  {
    if items == [] then []
    else
      var last := items[|items| - 1];
      RequestsFor(items[..|items| - 1], obj) + (if References(last, obj) then [RequestOf(last)] else [])
  }

  /** List the NSOs of obj's namespace (of all, when it has none); a failed List gives no requests. */
  function WatchOutcome(s: Store, obj: WatchedObject): (r: (seq<Request>, Store))
    ensures r.1.objects == s.objects
  {
    var (listed, s1) := ListNsos(s, obj.namespace);
    match listed
    case Err(_) => ([], s1)
    case Ok(items) => (RequestsFor(items, obj), s1)
  }

  method WatchForResourceChange(c: Client, obj: WatchedObject) returns (requests: seq<Request>)
    requires c.Valid()
    modifies c
    ensures c.Valid()
    ensures (requests, c.State()) == WatchOutcome(old(c.State()), obj)
  {
    var listed := c.List(obj.namespace);
    if listed.Err? {
      return [];
    }
    var items := listed.value;
    requests := [];
    var i := 0;
    while i < |items|
      invariant 0 <= i <= |items|
      invariant requests == RequestsFor(items[..i], obj)
    {
      var nso := items[i];
      assert items[..i + 1][..i] == items[..i];
      if References(nso, obj) {
        requests := requests + [RequestOf(nso)];
      }
      i := i + 1;
    }
    assert items[..|items|] == items;
  }

  /** The requests are exactly those of the listed NSOs that refer to obj. */
  lemma {:induction false} RequestsForMembers(items: seq<Nso>, obj: WatchedObject, r: Request)
    ensures r in RequestsFor(items, obj) <==>
      exists i :: 0 <= i < |items| && References(items[i], obj) && RequestOf(items[i]) == r
  {
    if items != [] {
      var init := items[..|items| - 1];
      RequestsForMembers(init, obj, r);
      if r in RequestsFor(init, obj) {
        var i :| 0 <= i < |init| && References(init[i], obj) && RequestOf(init[i]) == r;
        assert items[i] == init[i];
      } else if r in RequestsFor(items, obj) {
        assert References(items[|items| - 1], obj) && RequestOf(items[|items| - 1]) == r;
      }
      if exists i :: 0 <= i < |items| && References(items[i], obj) && RequestOf(items[i]) == r {
        var i :| 0 <= i < |items| && References(items[i], obj) && RequestOf(items[i]) == r;
        if i < |init| {
          assert init[i] == items[i];
        }
      }
    }
  }

  /** List order is kept: the requests for a + b are those for a followed by those for b. */
  lemma {:induction false} RequestsForAppend(a: seq<Nso>, b: seq<Nso>, obj: WatchedObject)
    ensures RequestsFor(a + b, obj) == RequestsFor(a, obj) + RequestsFor(b, obj)
  {
    if b == [] {
      assert a + b == a;
    } else {
      var b' := b[..|b| - 1];
      assert (a + b)[..|a + b| - 1] == a + b';
      assert (a + b)[|a + b| - 1] == b[|b| - 1];
      RequestsForAppend(a, b', obj);
    }
  }

  /** A change to an object of any kind but Secret or ConfigMap triggers nothing. */
  lemma {:induction false} OtherKindsTriggerNothing(items: seq<Nso>, obj: WatchedObject)
    requires obj.kind != "Secret" && obj.kind != "ConfigMap"
    ensures RequestsFor(items, obj) == []
  {
    if items != [] {
      OtherKindsTriggerNothing(items[..|items| - 1], obj);
    }
  }

  /**
   * When the List goes through, the mapper asks to reconcile exactly the
   * stored NSOs that refer to the changed object by name and sit in its
   * namespace (in any namespace, when the object carries none).
   */
  lemma WatchTriggersReferrers(s: Store, obj: WatchedObject, r: Request)
    requires WellFormed(s) && TakeFault(s).0 == Pass
    ensures var key := Key(NsoKind, r.namespace, r.name);
      r in WatchOutcome(s, obj).0 <==>
        && (obj.namespace == "" || r.namespace == obj.namespace)
        && key in s.objects && s.objects[key].NsoObject?
        && References(s.objects[key].nso, obj)
  {
    var items := NsosIn(s.objects, s.order, obj.namespace);
    assert WatchOutcome(s, obj).0 == RequestsFor(items, obj);
    RequestsForMembers(items, obj, r);
    var key := Key(NsoKind, r.namespace, r.name);
    if r in RequestsFor(items, obj) {
      var i :| 0 <= i < |items| && References(items[i], obj) && RequestOf(items[i]) == r;
      ListNsosExact(s, obj.namespace, items[i]);
    }
    if InNamespace(obj.namespace, r.namespace) && key in s.objects && s.objects[key].NsoObject? && References(s.objects[key].nso, obj) {
      var n := s.objects[key].nso;
      assert KeyOf(s.objects[key]) == key;
      ListNsosExact(s, obj.namespace, n);
      var i :| 0 <= i < |items| && items[i] == n;
    }
  }

  /** A failed List yields no request. */
  lemma WatchListFailure(s: Store, obj: WatchedObject)
    requires TakeFault(s).0.Fail?
    ensures WatchOutcome(s, obj).0 == []
  {
  }

  // ---- updatePackageBundlePhase ----

  /** retry.DefaultRetry: the number of attempts RetryOnConflict makes. */
  const RetrySteps := 5

  /** The status a phase change writes: all four fields together, stamped with now. */
  function ChangedStatus(newPhase: Phase, message: string, jobName: string, now: int): PackageBundleStatus
  {
    PackageBundleStatus(Some(newPhase), message, jobName, Some(now))
  }

  /**
   * The store differs from s at most in the status of the bundle req names,
   * and only by taking status st.
   */
  ghost predicate OnlyStatusChanged(s: Store, s': Store, req: Request, st: PackageBundleStatus)
  {
    var key := BundleKey(req);
    && s'.order == s.order
    && s'.objects.Keys == s.objects.Keys
    && (forall k :: k in s.objects && k != key ==> s'.objects[k] == s.objects[k])
    && (key in s.objects ==>
          || s'.objects[key] == s.objects[key]
          || (s.objects[key].BundleObject? && s'.objects[key] == BundleObject(s.objects[key].bundle.(status := st))))
  }

  /** One run of the retried closure: fetch the latest bundle, return if its phase is already newPhase, else write. */
  function PhaseAttempt(s: Store, req: Request, newPhase: Phase, message: string, jobName: string, now: int)
    : (r: (Option<ApiError>, Store))
    ensures OnlyStatusChanged(s, r.1, req, ChangedStatus(newPhase, message, jobName, now))
    ensures WellFormed(s) ==> WellFormed(r.1)
  {
    var (got, s1) := BundleAt(s, req);
    match got
    case Err(e) => (Some(e), s1)
    case Ok(latest) =>
      if latest.status.phase == Some(newPhase) then (None, s1)
      else WriteStatus(s1, req, ChangedStatus(newPhase, message, jobName, now))
  }

  /**
   * RetryOnConflict with the given number of attempts left: a Conflict is
   * retried while attempts remain, any other outcome is final.
   */
  function PhaseWrite(s: Store, req: Request, newPhase: Phase, message: string, jobName: string, now: int, attempts: nat)
    : (r: (Option<ApiError>, Store))
    requires attempts > 0
    ensures OnlyStatusChanged(s, r.1, req, ChangedStatus(newPhase, message, jobName, now))
    ensures WellFormed(s) ==> WellFormed(r.1)
    ensures r.0 == None ==>
      BundleKey(req) in r.1.objects && r.1.objects[BundleKey(req)].BundleObject? &&
      r.1.objects[BundleKey(req)].bundle.status.phase == Some(newPhase)
    decreases attempts
  {
    var (err, s1) := PhaseAttempt(s, req, newPhase, message, jobName, now);
    if err == Some(Conflict) && attempts > 1 then PhaseWrite(s1, req, newPhase, message, jobName, now, attempts - 1)
    else (err, s1)
  }

  /** updatePackageBundlePhase: the phase write under retry.DefaultRetry. */
  function PhaseUpdate(s: Store, req: Request, newPhase: Phase, message: string, jobName: string, now: int)
    : (r: (Option<ApiError>, Store))
  {
    PhaseWrite(s, req, newPhase, message, jobName, now, RetrySteps)
  }

  /** The closure RetryOnConflict runs. */
  method WritePhaseOnce(c: Client, req: Request, newPhase: Phase, message: string, jobName: string, now: int)
    returns (err: Option<ApiError>)
    requires c.Valid()
    modifies c
    ensures c.Valid()
    ensures (err, c.State()) == PhaseAttempt(old(c.State()), req, newPhase, message, jobName, now)
  {
    var latest := c.GetBundle(req);
    if latest.Err? {
      return Some(latest.error);
    }
    if latest.value.status.phase == Some(newPhase) {
      return None;
    }
    err := c.UpdateStatus(req, ChangedStatus(newPhase, message, jobName, now));
  }

  method UpdatePackageBundlePhase(c: Client, req: Request, newPhase: Phase, message: string, jobName: string, now: int)
    returns (err: Option<ApiError>)
    requires c.Valid()
    modifies c
    ensures c.Valid()
    ensures (err, c.State()) == PhaseUpdate(old(c.State()), req, newPhase, message, jobName, now)
  {
    var attempt := 1;
    err := WritePhaseOnce(c, req, newPhase, message, jobName, now);
    while err == Some(Conflict) && attempt < RetrySteps
      invariant 1 <= attempt <= RetrySteps
      invariant c.Valid()
      invariant PhaseUpdate(old(c.State()), req, newPhase, message, jobName, now) ==
        if err == Some(Conflict) && attempt < RetrySteps
        then PhaseWrite(c.State(), req, newPhase, message, jobName, now, RetrySteps - attempt)
        else (err, c.State())
      decreases RetrySteps - attempt
    {
      err := WritePhaseOnce(c, req, newPhase, message, jobName, now);
      attempt := attempt + 1;
    }
  }

  /**
   * Writing the phase the bundle already has writes nothing, whatever the
   * API answers, and succeeds when nothing fails: message, Job name and
   * transition time stay as they were.
   */
  lemma {:induction false} SamePhaseWritesNothing(
    s: Store, req: Request, newPhase: Phase, message: string, jobName: string, now: int, attempts: nat)
    requires req.name != ""
    requires attempts > 0
    requires BundleKey(req) in s.objects && s.objects[BundleKey(req)].BundleObject?
    requires s.objects[BundleKey(req)].bundle.status.phase == Some(newPhase)
    ensures PhaseWrite(s, req, newPhase, message, jobName, now, attempts).1.objects == s.objects
    ensures s.faults == [] ==> PhaseWrite(s, req, newPhase, message, jobName, now, attempts).0 == None
    decreases attempts
  {
    var (err, s1) := PhaseAttempt(s, req, newPhase, message, jobName, now);
    assert s1.objects == s.objects;
    if err == Some(Conflict) && attempts > 1 {
      SamePhaseWritesNothing(s1, req, newPhase, message, jobName, now, attempts - 1);
    }
  }

  /**
   * A different phase, with nothing failing, is written in one attempt: the
   * bundle gets the new phase, message, Job name and transition time now,
   * and nothing else in the store changes.
   */
  lemma NewPhaseIsWritten(s: Store, req: Request, newPhase: Phase, message: string, jobName: string, now: int)
    requires req.name != ""
    requires s.faults == []
    requires BundleKey(req) in s.objects && s.objects[BundleKey(req)].BundleObject?
    requires s.objects[BundleKey(req)].bundle.status.phase != Some(newPhase)
    ensures var b := s.objects[BundleKey(req)].bundle;
      PhaseUpdate(s, req, newPhase, message, jobName, now) ==
        (None, s.(objects := s.objects[BundleKey(req) := BundleObject(b.(status := ChangedStatus(newPhase, message, jobName, now)))]))
  {
  }

  /** A bundle that is not stored cannot be written: the result is an error and the store is unchanged; NotFound when nothing else fails. */
  lemma {:induction false} MissingBundleFails(
    s: Store, req: Request, newPhase: Phase, message: string, jobName: string, now: int, attempts: nat)
    requires req.name != ""
    requires attempts > 0
    requires BundleKey(req) !in s.objects
    ensures PhaseWrite(s, req, newPhase, message, jobName, now, attempts).0.Some?
    ensures PhaseWrite(s, req, newPhase, message, jobName, now, attempts).1.objects == s.objects
    ensures s.faults == [] ==> PhaseWrite(s, req, newPhase, message, jobName, now, attempts).0 == Some(NotFound)
    decreases attempts
  {
    var (err, s1) := PhaseAttempt(s, req, newPhase, message, jobName, now);
    if err == Some(Conflict) && attempts > 1 {
      MissingBundleFails(s1, req, newPhase, message, jobName, now, attempts - 1);
    }
  }

  /**
   * Conflicts are retried exactly as often as attempts remain: when every
   * attempt meets a conflict, the write gives up with Conflict after
   * consuming one API answer per attempt.
   */
  lemma {:induction false} ConflictsExhaustAttempts(
    s: Store, req: Request, newPhase: Phase, message: string, jobName: string, now: int, attempts: nat)
    requires req.name != ""
    requires attempts > 0 && |s.faults| >= attempts
    requires forall i :: 0 <= i < attempts ==> s.faults[i] == Fail(Conflict)
    ensures PhaseWrite(s, req, newPhase, message, jobName, now, attempts) == (Some(Conflict), s.(faults := s.faults[attempts..]))
    decreases attempts
  {
    var (err, s1) := PhaseAttempt(s, req, newPhase, message, jobName, now);
    assert err == Some(Conflict) && s1 == s.(faults := s.faults[1..]);
    if attempts > 1 {
      ConflictsExhaustAttempts(s1, req, newPhase, message, jobName, now, attempts - 1);
      assert s.faults[1..][attempts - 1..] == s.faults[attempts..];
    }
  }

  /** An error other than a conflict is not retried: it is returned after the first attempt. */
  lemma OtherErrorsNotRetried(
    s: Store, req: Request, newPhase: Phase, message: string, jobName: string, now: int, attempts: nat)
    requires attempts > 0
    requires PhaseAttempt(s, req, newPhase, message, jobName, now).0.Some?
    requires PhaseAttempt(s, req, newPhase, message, jobName, now).0 != Some(Conflict)
    ensures PhaseWrite(s, req, newPhase, message, jobName, now, attempts) == PhaseAttempt(s, req, newPhase, message, jobName, now)
  {
  }

  // ---- getJobStatus ----

  /** A condition decides the phase when it is a true Complete or a true Failed condition. */
  predicate Decides(c: JobCondition)
  {
    c.status == ConditionTrue && (c.conditionType == Complete || c.conditionType == Failed)
  }

  const CompletedMessage := "Package download completed successfully"
  const FailedMessage := "Package download failed"

  /** The phase and message a deciding condition gives. */
  function Verdict(c: JobCondition): (r: Option<(Phase, string)>)
    ensures r.Some? <==> Decides(c)
  {
    match c.conditionType
    case Complete =>
      if c.status == ConditionTrue then Some((Downloaded, CompletedMessage)) else None
    case Failed =>
      if c.status == ConditionTrue then Some((FailedToDownload, if c.message != "" then c.message else FailedMessage))
      else None
    case OtherCondition(_) => None
  }

  /** i is the first deciding condition of cs. */
  ghost predicate IsFirstDeciding(cs: seq<JobCondition>, i: int)
  {
    0 <= i < |cs| && Decides(cs[i]) && forall j :: 0 <= j < i ==> !Decides(cs[j])
  }

  /** The index of the first deciding condition, in list order. */
  function FirstDeciding(cs: seq<JobCondition>): (r: Option<nat>)
    ensures r.Some? ==> IsFirstDeciding(cs, r.value)
    ensures r.None? ==> forall j :: 0 <= j < |cs| ==> !Decides(cs[j])
  {
    if cs == [] then None
    else if Decides(cs[0]) then Some(0)
    else match FirstDeciding(cs[1..])
      case None => None
      case Some(i) => Some(i + 1)
  }

  /** The first deciding condition is unique. */
  lemma {:induction false} FirstDecidingIs(cs: seq<JobCondition>, i: int)
    requires IsFirstDeciding(cs, i)
    ensures FirstDeciding(cs) == Some(i)
  {
    if i > 0 {
      assert !Decides(cs[0]);
      assert forall j :: 0 <= j < i - 1 ==> cs[1..][j] == cs[j + 1];
      FirstDecidingIs(cs[1..], i - 1);
    }
  }

  const InProgressMessage := "Package download in progress"
  const CreatingMessage := "Job is creating containers"
  const UnknownMessage := "Job status unknown"

  /** The phase and message a found Job's status gives. */
  function ClassifyJob(st: JobStatus): (Phase, string)
  {
    match FirstDeciding(st.conditions)
    case Some(i) => Verdict(st.conditions[i]).value
    case None =>
      if st.active > 0 then (Downloading, InProgressMessage)
      else if st.active == 0 && st.succeeded == 0 && st.failed == 0 then (ContainerCreating, CreatingMessage)
      else (Pending, UnknownMessage)
  }

  /** What getJobStatus returns: a phase, a message and an error. */
  datatype JobReport = JobReport(phase: Phase, message: string, err: Option<ApiError>)

  const JobNotFoundMessage := "Job not found"
  const JobFetchFailedMessage := "Failed to get Job status"

  /** getJobStatus: fetch the Job and classify it. */
  function JobStatusOutcome(s: Store, jobName: string, namespace: string): (r: (JobReport, Store))
    ensures r.1.objects == s.objects && r.1.order == s.order
  {
    var (got, s1) := JobAt(s, Request(namespace, jobName));
    match got
    case Err(e) =>
      if e == NotFound then (JobReport(Pending, JobNotFoundMessage, None), s1)
      else (JobReport(Pending, JobFetchFailedMessage, Some(e)), s1)
    case Ok(job) =>
      var (phase, message) := ClassifyJob(job.status);
      (JobReport(phase, message, None), s1)
  }

  method GetJobStatus(c: Client, jobName: string, namespace: string)
    returns (phase: Phase, message: string, err: Option<ApiError>)
    requires c.Valid()
    modifies c
    ensures c.Valid()
    ensures (JobReport(phase, message, err), c.State()) == JobStatusOutcome(old(c.State()), jobName, namespace)
  {
    var got := c.GetJob(Request(namespace, jobName));
    if got.Err? {
      if got.error == NotFound {
        return Pending, JobNotFoundMessage, None;
      }
      return Pending, JobFetchFailedMessage, Some(got.error);
    }
    var status := got.value.status;
    var conditions := status.conditions;
    var i := 0;
    while i < |conditions|
      invariant 0 <= i <= |conditions|
      invariant forall j :: 0 <= j < i ==> !Decides(conditions[j])
    {
      var condition := conditions[i];
      match condition.conditionType {
        case Complete =>
          if condition.status == ConditionTrue {
            FirstDecidingIs(conditions, i);
            return Downloaded, CompletedMessage, None;
          }
        case Failed =>
          if condition.status == ConditionTrue {
            message := FailedMessage;
            if condition.message != "" {
              message := condition.message;
            }
            FirstDecidingIs(conditions, i);
            return FailedToDownload, message, None;
          }
        case OtherCondition(_) =>
      }
      i := i + 1;
    }
    if status.active > 0 {
      return Downloading, InProgressMessage, None;
    }
    if status.active == 0 && status.succeeded == 0 && status.failed == 0 {
      return ContainerCreating, CreatingMessage, None;
    }
    return Pending, UnknownMessage, None;
  }

  /** No condition of the list decides. */
  ghost predicate NoneDecides(cs: seq<JobCondition>)
  {
    forall j :: 0 <= j < |cs| ==> !Decides(cs[j])
  }

  /** Downloaded exactly when the first deciding condition is a true Complete. */
  lemma ClassifyDownloaded(st: JobStatus)
    ensures ClassifyJob(st).0 == Downloaded <==>
      exists i :: IsFirstDeciding(st.conditions, i) && st.conditions[i].conditionType == Complete
    ensures ClassifyJob(st).0 == Downloaded ==> ClassifyJob(st).1 == "Package download completed successfully"
  {
    if exists i :: IsFirstDeciding(st.conditions, i) && st.conditions[i].conditionType == Complete {
      var i :| IsFirstDeciding(st.conditions, i) && st.conditions[i].conditionType == Complete;
      FirstDecidingIs(st.conditions, i);
    }
    if ClassifyJob(st).0 == Downloaded {
      var i := FirstDeciding(st.conditions).value;
      assert IsFirstDeciding(st.conditions, i);
    }
  }

  /**
   * FailedToDownload exactly when the first deciding condition is a true
   * Failed; the message is that condition's, or the default when it is empty.
   */
  lemma ClassifyFailed(st: JobStatus)
    ensures ClassifyJob(st).0 == FailedToDownload <==>
      exists i :: IsFirstDeciding(st.conditions, i) && st.conditions[i].conditionType == Failed
    ensures forall i :: IsFirstDeciding(st.conditions, i) && st.conditions[i].conditionType == Failed ==>
      ClassifyJob(st).1 ==
        if st.conditions[i].message != "" then st.conditions[i].message else "Package download failed"
  {
    forall i | IsFirstDeciding(st.conditions, i)
      ensures FirstDeciding(st.conditions) == Some(i)
    {
      FirstDecidingIs(st.conditions, i);
    }
    if ClassifyJob(st).0 == FailedToDownload {
      var i := FirstDeciding(st.conditions).value;
      assert IsFirstDeciding(st.conditions, i);
    }
  }

  /** Downloading exactly when no condition decides and a pod is active. */
  lemma ClassifyDownloading(st: JobStatus)
    ensures ClassifyJob(st) == (Downloading, "Package download in progress") <==>
      NoneDecides(st.conditions) && st.active > 0
    ensures ClassifyJob(st).0 == Downloading <==> NoneDecides(st.conditions) && st.active > 0
  {
    if !NoneDecides(st.conditions) {
      var j :| 0 <= j < |st.conditions| && Decides(st.conditions[j]);
      assert FirstDeciding(st.conditions).Some?;
    }
  }

  /** ContainerCreating exactly when no condition decides and all three pod counters are zero. */
  lemma ClassifyContainerCreating(st: JobStatus)
    ensures ClassifyJob(st) == (ContainerCreating, "Job is creating containers") <==>
      NoneDecides(st.conditions) && st.active == 0 && st.succeeded == 0 && st.failed == 0
    ensures ClassifyJob(st).0 == ContainerCreating <==>
      NoneDecides(st.conditions) && st.active == 0 && st.succeeded == 0 && st.failed == 0
  {
    if !NoneDecides(st.conditions) {
      var j :| 0 <= j < |st.conditions| && Decides(st.conditions[j]);
      assert FirstDeciding(st.conditions).Some?;
    }
  }

  /** Pending, "Job status unknown", exactly in the remaining case: nothing decides, no pod active, some pod finished. */
  lemma ClassifyUnknown(st: JobStatus)
    ensures ClassifyJob(st) == (Pending, "Job status unknown") <==>
      NoneDecides(st.conditions) && st.active == 0 && (st.succeeded > 0 || st.failed > 0)
    ensures ClassifyJob(st).0 == Pending <==>
      NoneDecides(st.conditions) && st.active == 0 && (st.succeeded > 0 || st.failed > 0)
  {
    if !NoneDecides(st.conditions) {
      var j :| 0 <= j < |st.conditions| && Decides(st.conditions[j]);
      assert FirstDeciding(st.conditions).Some?;
    }
  }

  /** Every classification carries a message. */
  lemma ClassifyMessageNonEmpty(st: JobStatus)
    ensures ClassifyJob(st).1 != ""
  {
    match FirstDeciding(st.conditions)
    case Some(i) =>
      assert |CompletedMessage| > 0 && |FailedMessage| > 0;
    case None =>
  }

  /**
   * The scan follows list order: a true Failed listed before a true
   * Complete makes the bundle FailedToDownload.
   */
  lemma FailureListedFirstWins(st: JobStatus)
    requires st.conditions == [JobCondition(Failed, ConditionTrue, "boom"), JobCondition(Complete, ConditionTrue, "")]
    ensures ClassifyJob(st) == (FailedToDownload, "boom")
  {
    FirstDecidingIs(st.conditions, 0);
  }

  /** A missing Job is Pending with no error; any other failed fetch is Pending with that error. */
  lemma JobFetchFailures(s: Store, jobName: string, namespace: string)
    requires jobName != ""
    requires Key(JobKind, namespace, jobName) !in s.objects || TakeFault(s).0.Fail?
    ensures var report := JobStatusOutcome(s, jobName, namespace).0;
      && report.phase == Pending
      && (report.err == None <==> (TakeFault(s).0 == Pass || TakeFault(s).0 == Fail(NotFound)))
      && report.message == (if report.err == None then "Job not found" else "Failed to get Job status")
      && (TakeFault(s).0.Fail? && TakeFault(s).0.error != NotFound ==> report.err == Some(TakeFault(s).0.error))
  {
  }

  /** A Job that is found never yields an error, and is classified by its status. */
  lemma FoundJobIsClassified(s: Store, jobName: string, namespace: string)
    requires jobName != ""
    requires Key(JobKind, namespace, jobName) in s.objects && s.objects[Key(JobKind, namespace, jobName)].JobObject?
    requires TakeFault(s).0 == Pass
    ensures var report := JobStatusOutcome(s, jobName, namespace).0;
      var verdict := ClassifyJob(s.objects[Key(JobKind, namespace, jobName)].job.status);
      report == JobReport(verdict.0, verdict.1, None)
  {
  }
}
