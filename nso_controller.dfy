/**
 * nso_controller.go: the reconciler of NSO instances. A pass fetches the
 * NSO, then ensures its headless Service and then its StatefulSet exist,
 * stopping after the first object it creates or fails to ensure. Existing
 * children are never updated, and ensure errors are not returned to the
 * runtime.
 */
module NsoController {
  import opened Wrappers
  import opened Kube
  import opened V1alpha1
  import opened Cluster
  import opened Resources
  import opened Helpers

  /** serviceForNSO: a copy of newService kept in the controller. */
  function ServiceForNso(scheme: Scheme, nso: Nso): (r: Service)
    ensures r == EmptyService <==> NsoKind !in scheme.kinds
  {
    match ControllerRef(scheme, NsoKind, nso.meta)
    case None => EmptyService
    case Some(ref) =>
      Service(
        ObjectMeta(nso.spec.serviceName, nso.meta.namespace, nso.spec.labelSelector, Some(ref)),
        ServiceSpec(ServiceTypeClusterIP, ClusterIPNone, nso.spec.labelSelector, nso.spec.ports))
  }

  /**
   * statefulSetForNSO: the StatefulSet the controller creates. Unlike
   * newStatefulSet it has no volumes and no volume mounts.
   */
  function StatefulSetForNso(scheme: Scheme, nso: Nso): (r: StatefulSet)
    ensures r == EmptyStatefulSet <==> NsoKind !in scheme.kinds
  {
    match ControllerRef(scheme, NsoKind, nso.meta)
    case None => EmptyStatefulSet
    case Some(ref) =>
      var container := Container(
        "ncs", nso.spec.image, [], [], [HttpPort, HttpsPort], AdminEnv(nso) + nso.spec.env, []);
      StatefulSet(
        ObjectMeta(nso.meta.name, nso.meta.namespace, map[], Some(ref)),
        StatefulSetSpec(
          nso.spec.serviceName,
          Some(nso.spec.replicas),
          Some(nso.spec.labelSelector),
          PodTemplate(nso.spec.labelSelector, "", [container], [])))
  }

  function ServiceKey(nso: Nso): Key
  {
    Key(ServiceKind, nso.meta.namespace, nso.spec.serviceName)
  }

  function StatefulSetKey(nso: Nso): Key
  {
    Key(StatefulSetKind, nso.meta.namespace, nso.meta.name)
  }

  function NsoKey(req: Request): Key
  {
    Key(NsoKind, req.namespace, req.name)
  }

  /** The result of a pass that stops at an ensure: requeue when it created, and the error dropped. */
  function StopAt(e: Ensured): Reconciled
  {
    Reconciled(CtrlResult(e.created, 0), None)
  }

  /** The children of an NSO, in the order a pass ensures them. */
  function ServiceChild(scheme: Scheme, nso: Nso): Object
  {
    ServiceObject(ServiceForNso(scheme, nso))
  }

  function StatefulSetChild(scheme: Scheme, nso: Nso): Object
  {
    StatefulSetObject(StatefulSetForNso(scheme, nso))
  }

  /** The part of a pass after the NSO was fetched: the Service, then the StatefulSet. */
  function EnsureChildren(s: Store, scheme: Scheme, nso: Nso): (r: (Reconciled, Store))
  {
    var (service, s1) := EnsureOutcome(s, ServiceChild(scheme, nso));
    if service.err.Some? || service.created then (StopAt(service), s1)
    else
      var (statefulSet, s2) := EnsureOutcome(s1, StatefulSetChild(scheme, nso));
      if statefulSet.err.Some? || statefulSet.created then (StopAt(statefulSet), s2)
      else (Reconciled(Done, None), s2)
  }

  /** One Reconcile pass for req. */
  function NsoReconcileOutcome(s: Store, scheme: Scheme, req: Request): (r: (Reconciled, Store))
  {
    var (got, s1) := NsoAt(s, req);
    match got
    case Err(e) =>
      if e == NotFound then (Reconciled(Done, None), s1) else (Reconciled(Done, Some(e)), s1)
    case Ok(nso) => EnsureChildren(s1, scheme, nso)
  }

  /** The NSOReconciler: a client and the scheme used for owner references. */
  class NsoReconciler {
    const client: Client
    const scheme: Scheme

    constructor (client: Client, scheme: Scheme)
      ensures this.client == client && this.scheme == scheme
    {
      this.client := client;
      this.scheme := scheme;
    }

    /** The controller's own copy of ensureObjectExists; it behaves as the shared helper. */
    method EnsureObjectExists(obj: Object) returns (created: bool, err: Option<ApiError>)
      requires client.Valid()
      modifies client
      ensures client.Valid()
      ensures (Ensured(created, err), client.State()) == EnsureOutcome(old(client.State()), obj)
    {
      var got := client.Get(KeyOf(obj));
      if got.Err? && got.error == NotFound {
        err := client.Create(obj);
        if err.Some? {
          return false, err;
        }
        return true, None;
      } else if got.Err? {
        return false, Some(got.error);
      }
      return false, None;
    }

    method Reconcile(req: Request) returns (result: CtrlResult, err: Option<ApiError>)
      requires client.Valid()
      modifies client
      ensures client.Valid()
      ensures (Reconciled(result, err), client.State()) == NsoReconcileOutcome(old(client.State()), scheme, req)
    {
      var got := client.GetNso(req);
      if got.Err? {
        if got.error == NotFound {
          return Done, None;
        }
        return Done, Some(got.error);
      }
      var nso := got.value;
      var requeue, ensureErr := EnsureObjectExists(ServiceChild(scheme, nso));
      if ensureErr.Some? || requeue {
        return CtrlResult(requeue, 0), None;
      }
      requeue, ensureErr := EnsureObjectExists(StatefulSetChild(scheme, nso));
      if ensureErr.Some? || requeue {
        return CtrlResult(requeue, 0), None;
      }
      return Done, None;
    }
  }

  // ---- Properties of a pass ----

  /**
   * A deleted NSO ends the pass quietly; any other failed fetch is returned.
   * Either way nothing is written.
   */
  lemma NsoFetchFailure(s: Store, scheme: Scheme, req: Request)
    requires req.name != ""
    requires NsoKey(req) !in s.objects || TakeFault(s).0.Fail?
    ensures var (r, s') := NsoReconcileOutcome(s, scheme, req);
      && s'.objects == s.objects
      && r.result == Done
      && (r.err == None <==> (TakeFault(s).0 == Pass || TakeFault(s).0 == Fail(NotFound)))
      && (TakeFault(s).0.Fail? && TakeFault(s).0.error != NotFound ==> r.err == Some(TakeFault(s).0.error))
  {
  }

  /**
   * Only the fetch error reaches the runtime: whenever a pass returns an
   * error, it is the error of the NSO Get, and the pass wrote nothing.
   */
  lemma NsoEnsureErrorsDropped(s: Store, scheme: Scheme, req: Request)
    ensures var (r, s') := NsoReconcileOutcome(s, scheme, req);
      r.err.Some? ==> NsoAt(s, req).0 == Err(r.err.value) && r.err.value != NotFound && s'.objects == s.objects
  {
  }

  /** Every object already stored keeps its value: existing children are never updated. */
  lemma NsoReconcileKeepsExisting(s: Store, scheme: Scheme, req: Request)
    ensures var s' := NsoReconcileOutcome(s, scheme, req).1;
      forall k :: k in s.objects ==> k in s'.objects && s'.objects[k] == s.objects[k]
  {
    var (got, s1) := NsoAt(s, req);
    if got.Ok? {
      EnsureChildrenKeeps(s1, scheme, got.value);
    }
  }

  lemma EnsureChildrenKeeps(s: Store, scheme: Scheme, nso: Nso)
    ensures var s' := EnsureChildren(s, scheme, nso).1;
      && (forall k :: k in s.objects ==> k in s'.objects && s'.objects[k] == s.objects[k])
      && (WellFormed(s) ==> WellFormed(s'))
  {
    var (service, s1) := EnsureOutcome(s, ServiceChild(scheme, nso));
    if !service.created && service.err.None? {
      var (statefulSet, s2) := EnsureOutcome(s1, StatefulSetChild(scheme, nso));
    }
  }

  /** A pass keeps a well-formed store well-formed. */
  lemma NsoReconcileWellFormed(s: Store, scheme: Scheme, req: Request)
    requires WellFormed(s)
    ensures WellFormed(NsoReconcileOutcome(s, scheme, req).1)
  {
    var (got, s1) := NsoAt(s, req);
    assert WellFormed(s1);
    if got.Ok? {
      assert NsoReconcileOutcome(s, scheme, req) == EnsureChildren(s1, scheme, got.value);
      EnsureChildrenKeeps(s1, scheme, got.value);
    } else {
      assert NsoReconcileOutcome(s, scheme, req).1 == s1;
    }
  }

  /** A pass asks to be requeued exactly when it created something, and never after a delay. */
  lemma NsoRequeueMeansCreated(s: Store, scheme: Scheme, req: Request)
    ensures var (r, s') := NsoReconcileOutcome(s, scheme, req);
      && (r.result.requeue <==> s'.objects != s.objects)
      && r.result.requeueAfter == 0
  {
  }

  /** A pass creates at most one object: the NSO's Service or its StatefulSet, as built. */
  lemma NsoCreatesOneChild(s: Store, scheme: Scheme, req: Request)
    ensures var s' := NsoReconcileOutcome(s, scheme, req).1;
      s'.objects != s.objects ==>
        NsoAt(s, req).0.Ok? &&
        var nso := NsoAt(s, req).0.value;
        || s'.objects == s.objects[ServiceKey(nso) := ServiceChild(scheme, nso)]
        || s'.objects == s.objects[StatefulSetKey(nso) := StatefulSetChild(scheme, nso)]
  {
    var (got, s1) := NsoAt(s, req);
    if got.Ok? {
      var nso := got.value;
      var (service, s2) := EnsureOutcome(s1, ServiceChild(scheme, nso));
      assert service.created ==> KeyOf(ServiceChild(scheme, nso)) == ServiceKey(nso);
      if !service.created && service.err.None? {
        var (statefulSet, s3) := EnsureOutcome(s2, StatefulSetChild(scheme, nso));
        assert statefulSet.created ==> KeyOf(StatefulSetChild(scheme, nso)) == StatefulSetKey(nso);
      }
    }
  }

  /**
   * The Service comes first: a pass creates the StatefulSet only when the
   * Service key is already taken.
   */
  lemma ServiceBeforeStatefulSet(s: Store, scheme: Scheme, req: Request)
    requires NsoAt(s, req).0.Ok?
    ensures var nso := NsoAt(s, req).0.value;
      var s' := NsoReconcileOutcome(s, scheme, req).1;
      StatefulSetKey(nso) !in s.objects && StatefulSetKey(nso) in s'.objects ==>
        KeyOf(ServiceObject(ServiceForNso(scheme, nso))) in s.objects
  {
  }

  /**
   * When the scheme cannot set the owner reference, the empty Service has
   * no name, its Get is refused, and the pass ends without creating
   * anything and without an error or a requeue.
   */
  lemma MissingOwnerKindCreatesNothing(s: Store, scheme: Scheme, req: Request)
    requires NsoKind !in scheme.kinds
    requires NsoAt(s, req).0.Ok?
    ensures NsoReconcileOutcome(s, scheme, req) == (Reconciled(Done, None), NsoAt(s, req).1)
  {
  }

  /** With nothing failing, a pass ensures the first missing child and stops, or finds both present. */
  lemma EnsureChildrenStep(s: Store, scheme: Scheme, nso: Nso)
    requires s.faults == []
    requires NsoKind in scheme.kinds
    requires nso.meta.name != "" && nso.spec.serviceName != ""
    ensures var (r, s') := EnsureChildren(s, scheme, nso);
      && s'.faults == []
      && (ServiceKey(nso) !in s.objects ==>
            r == Reconciled(CtrlResult(true, 0), None) &&
            s'.objects == s.objects[ServiceKey(nso) := ServiceChild(scheme, nso)])
      && (ServiceKey(nso) in s.objects && StatefulSetKey(nso) !in s.objects ==>
            r == Reconciled(CtrlResult(true, 0), None) &&
            s'.objects == s.objects[StatefulSetKey(nso) := StatefulSetChild(scheme, nso)])
      && (ServiceKey(nso) in s.objects && StatefulSetKey(nso) in s.objects ==>
            r == Reconciled(Done, None) && s' == s)
  {
    assert KeyOf(ServiceChild(scheme, nso)) == ServiceKey(nso);
    assert KeyOf(StatefulSetChild(scheme, nso)) == StatefulSetKey(nso);
  }

  /** With nothing failing, a pass for a stored NSO is the ensuring of its children. */
  lemma PassOnStoredNso(s: Store, scheme: Scheme, req: Request, nso: Nso)
    requires s.faults == [] && req.name != ""
    requires NsoKey(req) in s.objects && s.objects[NsoKey(req)] == NsoObject(nso)
    ensures NsoReconcileOutcome(s, scheme, req) == EnsureChildren(s, scheme, nso)
  {
    assert NsoAt(s, req) == (Ok(nso), s);
  }

  /**
   * Convergence: when nothing fails and the NSO is stored, three passes
   * reach the fixed point. The Service and the StatefulSet are then
   * stored (new ones as built, existing ones kept), and the third pass
   * returns the zero result and writes nothing.
   */
  lemma NsoConverges(s: Store, scheme: Scheme, req: Request)
    requires WellFormed(s) && s.faults == []
    requires NsoKind in scheme.kinds
    requires req.name != ""
    requires NsoKey(req) in s.objects && s.objects[NsoKey(req)].NsoObject?
    requires s.objects[NsoKey(req)].nso.spec.serviceName != ""
    ensures var nso := s.objects[NsoKey(req)].nso;
      var s1 := NsoReconcileOutcome(s, scheme, req).1;
      var s2 := NsoReconcileOutcome(s1, scheme, req).1;
      && NsoReconcileOutcome(s2, scheme, req) == (Reconciled(Done, None), s2)
      && ServiceKey(nso) in s2.objects && StatefulSetKey(nso) in s2.objects
      && s2.objects[ServiceKey(nso)] ==
           (if ServiceKey(nso) in s.objects then s.objects[ServiceKey(nso)] else ServiceChild(scheme, nso))
      && s2.objects[StatefulSetKey(nso)] ==
           (if StatefulSetKey(nso) in s.objects then s.objects[StatefulSetKey(nso)] else StatefulSetChild(scheme, nso))
  {
    var nso := s.objects[NsoKey(req)].nso;
    assert KeyOf(s.objects[NsoKey(req)]) == NsoKey(req);
    PassOnStoredNso(s, scheme, req, nso);
    EnsureChildrenStep(s, scheme, nso);
    var s1 := EnsureChildren(s, scheme, nso).1;
    assert s1.objects[NsoKey(req)] == s.objects[NsoKey(req)];
    PassOnStoredNso(s1, scheme, req, nso);
    EnsureChildrenStep(s1, scheme, nso);
    var s2 := EnsureChildren(s1, scheme, nso).1;
    assert s2.objects[NsoKey(req)] == s.objects[NsoKey(req)];
    PassOnStoredNso(s2, scheme, req, nso);
    EnsureChildrenStep(s2, scheme, nso);
  }

  /** The controller's Service is the one newService builds. */
  lemma ServiceBuildersAgree(scheme: Scheme, nso: Nso)
    ensures ServiceForNso(scheme, nso) == NewService(scheme, nso)
  {
  }

  /** newStatefulSet with its volumes and volume mounts removed. */
  function WithoutVolumes(sts: StatefulSet): StatefulSet
  {
    var t := sts.spec.template;
    sts.(spec := sts.spec.(template := t.(
      volumes := [],
      containers := seq(|t.containers|, i requires 0 <= i < |t.containers| => t.containers[i].(volumeMounts := [])))))
  }

  /**
   * The controller's StatefulSet is newStatefulSet without volumes and
   * mounts: it never mounts ncs.conf nor the user's volumes.
   */
  lemma StatefulSetBuildersDiffer(scheme: Scheme, nso: Nso)
    ensures StatefulSetForNso(scheme, nso) == WithoutVolumes(NewStatefulSet(scheme, nso))
    ensures NsoKind in scheme.kinds ==>
      StatefulSetForNso(scheme, nso).spec.template.volumes == [] &&
      NewStatefulSet(scheme, nso).spec.template.volumes == [NcsConfigVolume] + nso.spec.volumes
  {
  }
}
