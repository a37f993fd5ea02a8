/**
 * The parts of the Kubernetes object model that the controllers read or
 * build: object metadata, the reconcile key, and the child objects
 * (Service, StatefulSet, PersistentVolumeClaim, Job) with only the fields
 * the operator sets or inspects. Zero values of Go structs appear as the
 * empty string, the empty map, the empty sequence or None.
 */
module Kube {
  import opened Wrappers

  /** The object kinds the reconcilers get, create, update or list. */
  datatype Kind =
    | NsoKind | BundleKind | ServiceKind | StatefulSetKind
    | ClaimKind | JobKind | SecretKind | ConfigMapKind

  /** What a store lookup is keyed by: kind, namespace and name. */
  datatype Key = Key(kind: Kind, namespace: string, name: string)

  /** A reconcile request: the namespaced name of the object to reconcile. */
  datatype Request = Request(namespace: string, name: string)

  /** A controller owner reference: which parent object controls a child. */
  datatype OwnerRef = OwnerRef(kind: Kind, namespace: string, name: string)

  datatype ObjectMeta = ObjectMeta(
    name: string,
    namespace: string,
    labels: map<string, string>,
    controller: Option<OwnerRef>)

  const EmptyMeta := ObjectMeta("", "", map[], None)

  /** A service port, copied from the NSO spec unchanged. */
  datatype ServicePort = ServicePort(name: string, protocol: string, port: int, targetPort: int)

  datatype EnvSource =
    | Literal(value: string)
    | SecretKeyRef(secretName: string, key: string)
    | ConfigMapKeyRef(configMapName: string, key: string)

  datatype EnvVar = EnvVar(name: string, source: EnvSource)

  datatype VolumeMount = VolumeMount(name: string, mountPath: string, subPath: string)

  /** One ConfigMap key projected as a file; mode is the optional file mode. */
  datatype KeyToPath = KeyToPath(key: string, path: string, mode: Option<int>)

  datatype VolumeSource =
    | ConfigMapVolume(configMapName: string, items: seq<KeyToPath>)
    | ClaimVolume(claimName: string)
    | EmptyDirVolume

  datatype Volume = Volume(name: string, source: VolumeSource)

  datatype ContainerPort = ContainerPort(containerPort: int, name: string)

  datatype Container = Container(
    name: string,
    image: string,
    command: seq<string>,
    args: seq<string>,
    ports: seq<ContainerPort>,
    env: seq<EnvVar>,
    volumeMounts: seq<VolumeMount>)

  datatype PodTemplate = PodTemplate(
    labels: map<string, string>,
    restartPolicy: string,
    containers: seq<Container>,
    volumes: seq<Volume>)

  const EmptyTemplate := PodTemplate(map[], "", [], [])

  datatype ServiceSpec = ServiceSpec(
    serviceType: string,
    clusterIP: string,
    selector: map<string, string>,
    ports: seq<ServicePort>)

  datatype Service = Service(meta: ObjectMeta, spec: ServiceSpec)

  const EmptyService := Service(EmptyMeta, ServiceSpec("", "", map[], []))

  datatype StatefulSetSpec = StatefulSetSpec(
    serviceName: string,
    replicas: Option<int>,
    selector: Option<map<string, string>>,
    template: PodTemplate)

  datatype StatefulSet = StatefulSet(meta: ObjectMeta, spec: StatefulSetSpec)

  const EmptyStatefulSet := StatefulSet(EmptyMeta, StatefulSetSpec("", None, None, EmptyTemplate))

  datatype AccessMode = ReadWriteOnce | ReadOnlyMany | ReadWriteMany | ReadWriteOncePod

  /** storageRequest is the "storage" entry of the claim's resource requests. */
  datatype ClaimSpec = ClaimSpec(accessModes: seq<AccessMode>, storageRequest: Option<string>)

  datatype Claim = Claim(meta: ObjectMeta, spec: ClaimSpec)

  const EmptyClaim := Claim(EmptyMeta, ClaimSpec([], None))

  datatype ConditionType = Complete | Failed | OtherCondition(name: string)

  datatype ConditionStatus = ConditionTrue | ConditionFalse | ConditionUnknown

  datatype JobCondition = JobCondition(conditionType: ConditionType, status: ConditionStatus, message: string)

  /** The observed state of a Job: its conditions in list order and its pod counters. */
  datatype JobStatus = JobStatus(conditions: seq<JobCondition>, active: nat, succeeded: nat, failed: nat)

  const NoJobStatus := JobStatus([], 0, 0, 0)

  datatype JobSpec = JobSpec(
    ttlSecondsAfterFinished: Option<int>,
    backoffLimit: Option<int>,
    template: PodTemplate)

  datatype Job = Job(meta: ObjectMeta, spec: JobSpec, status: JobStatus)

  const EmptyJob := Job(EmptyMeta, JobSpec(None, None, EmptyTemplate), NoJobStatus)

  /**
   * ctrl.Result: requeue at once, or after requeueAfter seconds (0: not
   * scheduled).
   */
  datatype CtrlResult = CtrlResult(requeue: bool, requeueAfter: nat)

  /** The zero ctrl.Result: no requeue. */
  const Done := CtrlResult(false, 0)
}
