/**
 * The child-object builders of resources.go: the headless Service and the
 * StatefulSet of an NSO instance, and the PersistentVolumeClaim and
 * download Job of a PackageBundle. Each is a pure function of the parent
 * object and of the scheme used to set the controller owner reference;
 * when that reference cannot be set, a builder returns the empty object of
 * its kind.
 */
module Resources {
  import opened Wrappers
  import opened Kube
  import opened V1alpha1

  /**
   * The runtime scheme: the kinds whose Go types it registers. Setting a
   * controller reference needs the owner's kind to be registered.
   */
  datatype Scheme = Scheme(kinds: set<Kind>)

  /** The controller reference SetControllerReference puts on a child, or None when it fails. */
  function ControllerRef(scheme: Scheme, ownerKind: Kind, owner: ObjectMeta): (r: Option<OwnerRef>)
    ensures r.Some? <==> ownerKind in scheme.kinds
    ensures r.Some? ==> r.value.name == owner.name && r.value.namespace == owner.namespace
  {
    if ownerKind in scheme.kinds then Some(OwnerRef(ownerKind, owner.namespace, owner.name)) else None
  }

  /** File mode of the projected ncs.conf: octal 0600. */
  const NcsConfigFileMode := 384

  const ServiceTypeClusterIP := "ClusterIP"
  const ClusterIPNone := "None"
  const HttpPort := ContainerPort(8080, "http")
  const HttpsPort := ContainerPort(8888, "https")

  /** The two environment entries the operator puts ahead of the user's. */
  function AdminEnv(nso: Nso): seq<EnvVar>
  {
    [EnvVar("ADMIN_USERNAME", Literal(nso.spec.adminCredentials.username)),
     EnvVar("ADMIN_PASSWORD", SecretKeyRef(nso.spec.adminCredentials.passwordSecretRef, "password"))]
  }

  /** The mount of ncs.conf from the "ncs-config" volume. */
  const NcsConfigMount := VolumeMount("ncs-config", "/etc/ncs/ncs.conf", "ncs.conf")

  /** The "ncs-config" volume: always the ConfigMap named "ncs-config", whatever nsoConfigRef says. */
  const NcsConfigVolume := Volume("ncs-config",
    ConfigMapVolume("ncs-config", [KeyToPath("ncs.conf", "ncs.conf", Some(NcsConfigFileMode))]))

  /** newService: the headless Service governing the NSO pods. */
  function NewService(scheme: Scheme, nso: Nso): (r: Service)
    ensures r == EmptyService <==> NsoKind !in scheme.kinds
  {
    match ControllerRef(scheme, NsoKind, nso.meta)
    case None => EmptyService
    case Some(ref) =>
      Service(
        ObjectMeta(nso.spec.serviceName, nso.meta.namespace, nso.spec.labelSelector, Some(ref)),
        ServiceSpec(ServiceTypeClusterIP, ClusterIPNone, nso.spec.labelSelector, nso.spec.ports))
  }

  /** newStatefulSet: the NSO workload, with the ncs.conf volume and the user's volumes. */
  function NewStatefulSet(scheme: Scheme, nso: Nso): (r: StatefulSet)
    ensures r == EmptyStatefulSet <==> NsoKind !in scheme.kinds
  {
    match ControllerRef(scheme, NsoKind, nso.meta)
    case None => EmptyStatefulSet
    case Some(ref) =>
      var container := Container(
        "ncs", nso.spec.image, [], [], [HttpPort, HttpsPort],
        AdminEnv(nso) + nso.spec.env,
        [NcsConfigMount] + nso.spec.volumeMounts);
      StatefulSet(
        ObjectMeta(nso.meta.name, nso.meta.namespace, map[], Some(ref)),
        StatefulSetSpec(
          nso.spec.serviceName,
          Some(nso.spec.replicas),
          Some(nso.spec.labelSelector),
          PodTemplate(nso.spec.labelSelector, "", [container], [NcsConfigVolume] + nso.spec.volumes)))
  }

  /** The claim of a bundle is named after the bundle and its target NSO. */
  function ClaimName(pb: PackageBundle): string
  {
    pb.meta.name + "-" + pb.spec.targetName
  }

  /** The download Job of a bundle is named after the bundle alone. */
  function JobName(pb: PackageBundle): string
  {
    "download-" + pb.meta.name
  }

  const DefaultStorageSize := "1Gi"

  /** newPersistenVolumeClaim: the claim the packages are downloaded into. */
  function NewPersistentVolumeClaim(scheme: Scheme, pb: PackageBundle): (r: Claim)
    ensures r == EmptyClaim <==> BundleKind !in scheme.kinds
  {
    var size := if pb.spec.storageSize != "" then pb.spec.storageSize else DefaultStorageSize;
    match ControllerRef(scheme, BundleKind, pb.meta)
    case None => EmptyClaim
    case Some(ref) =>
      Claim(
        ObjectMeta(ClaimName(pb), pb.meta.namespace, map[], Some(ref)),
        ClaimSpec([ReadWriteOnce], Some(size)))
  }

  const PackageVolumeName := "package-storage"
  const JobTtlSeconds := 300
  const JobBackoffLimit := 3

  /** newJob: the Job that clones the bundle's source into the claim. */
  function NewJob(scheme: Scheme, pb: PackageBundle): (r: Job)
    ensures r == EmptyJob <==> BundleKind !in scheme.kinds
  {
    match ControllerRef(scheme, BundleKind, pb.meta)
    case None => EmptyJob
    case Some(ref) =>
      var container := Container(
        "downloader", "alpine/git", ["/bin/sh"],
        ["-c", "cd /packages && git clone " + pb.spec.source.url],
        [], [],
        [VolumeMount(PackageVolumeName, "/packages", "")]);
      Job(
        ObjectMeta(JobName(pb), pb.meta.namespace, map[], Some(ref)),
        JobSpec(Some(JobTtlSeconds), Some(JobBackoffLimit),
          PodTemplate(map[], "Never", [container], [Volume(PackageVolumeName, ClaimVolume(ClaimName(pb)))])),
        NoJobStatus)
  }

  // ---- Properties of the builders ----

  /** The Service is headless and selects exactly the NSO's label selector on the declared ports. */
  lemma ServiceIsHeadless(scheme: Scheme, nso: Nso)
    requires NsoKind in scheme.kinds
    ensures var svc := NewService(scheme, nso);
      && svc.meta.name == nso.spec.serviceName
      && svc.meta.namespace == nso.meta.namespace
      && svc.meta.controller == Some(OwnerRef(NsoKind, nso.meta.namespace, nso.meta.name))
      && svc.spec.serviceType == "ClusterIP" && svc.spec.clusterIP == "None"
      && svc.meta.labels == svc.spec.selector == nso.spec.labelSelector
      && svc.spec.ports == nso.spec.ports
  {
  }

  /**
   * The Service and the StatefulSet built from one NSO fit together: the
   * StatefulSet names the Service as its governing service, and the
   * Service selects exactly the pods the StatefulSet's template labels.
   */
  lemma ServiceSelectsStatefulSetPods(scheme: Scheme, nso: Nso)
    requires NsoKind in scheme.kinds
    ensures var svc, sts := NewService(scheme, nso), NewStatefulSet(scheme, nso);
      && sts.spec.serviceName == svc.meta.name
      && sts.meta.namespace == svc.meta.namespace
      && sts.spec.selector == Some(svc.spec.selector)
      && sts.spec.template.labels == svc.spec.selector
  {
  }

  /** The StatefulSet: named after the NSO, replicas copied, one "ncs" container on ports 8080 and 8888. */
  lemma StatefulSetShape(scheme: Scheme, nso: Nso)
    requires NsoKind in scheme.kinds
    ensures var sts := NewStatefulSet(scheme, nso);
      && sts.meta.name == nso.meta.name && sts.meta.namespace == nso.meta.namespace
      && sts.spec.replicas == Some(nso.spec.replicas)
      && |sts.spec.template.containers| == 1
      && sts.spec.template.containers[0].name == "ncs"
      && sts.spec.template.containers[0].image == nso.spec.image
      && sts.spec.template.containers[0].ports == [ContainerPort(8080, "http"), ContainerPort(8888, "https")]
  {
  }

  /** The container of a StatefulSet built from an NSO. */
  function NcsContainer(sts: StatefulSet): Container
    requires |sts.spec.template.containers| == 1
  {
    sts.spec.template.containers[0]
  }

  /**
   * The environment: the admin username as a literal, then the password
   * from key "password" of the referenced Secret, then the user's entries
   * in their order.
   */
  lemma StatefulSetEnvOrder(scheme: Scheme, nso: Nso)
    requires NsoKind in scheme.kinds
    ensures |NewStatefulSet(scheme, nso).spec.template.containers| == 1
    ensures var env := NcsContainer(NewStatefulSet(scheme, nso)).env;
      && |env| == 2 + |nso.spec.env|
      && env[0] == EnvVar("ADMIN_USERNAME", Literal(nso.spec.adminCredentials.username))
      && env[1] == EnvVar("ADMIN_PASSWORD", SecretKeyRef(nso.spec.adminCredentials.passwordSecretRef, "password"))
      && env[2..] == nso.spec.env
  {
  }

  /**
   * Mounts and volumes: ncs.conf mounted at /etc/ncs/ncs.conf from the
   * ConfigMap "ncs-config" (not nsoConfigRef) with mode 0600, ahead of the
   * user's mounts and volumes.
   */
  lemma StatefulSetConfigVolume(scheme: Scheme, nso: Nso)
    requires NsoKind in scheme.kinds
    ensures |NewStatefulSet(scheme, nso).spec.template.containers| == 1
    ensures var sts := NewStatefulSet(scheme, nso);
      && NcsContainer(sts).volumeMounts == [VolumeMount("ncs-config", "/etc/ncs/ncs.conf", "ncs.conf")] + nso.spec.volumeMounts
      && sts.spec.template.volumes ==
           [Volume("ncs-config", ConfigMapVolume("ncs-config", [KeyToPath("ncs.conf", "ncs.conf", Some(384))]))]
           + nso.spec.volumes
  {
  }

  /** How many entries of env are named name. */
  function CountNamed(env: seq<EnvVar>, name: string): nat
  {
    if env == [] then 0 else (if env[0].name == name then 1 else 0) + CountNamed(env[1..], name)
  }

  /** The first entry of env named name: the one a first-match reader sees. */
  function FirstNamed(env: seq<EnvVar>, name: string): Option<EnvSource>
  {
    if env == [] then None else if env[0].name == name then Some(env[0].source) else FirstNamed(env[1..], name)
  }

  lemma {:induction false} CountNamedAppend(a: seq<EnvVar>, b: seq<EnvVar>, name: string)
    ensures CountNamed(a + b, name) == CountNamed(a, name) + CountNamed(b, name)
  {
    if a == [] {
      assert a + b == b;
    } else {
      assert (a + b)[0] == a[0];
      assert (a + b)[1..] == a[1..] + b;
      CountNamedAppend(a[1..], b, name);
    }
  }

  /**
   * User entries are appended, not merged: an entry of the user's env named
   * ADMIN_USERNAME or ADMIN_PASSWORD stays in the list beside the operator's
   * own, and a first-match reader still sees the operator's values.
   */
  lemma UserEnvAppendedNotMerged(scheme: Scheme, nso: Nso, name: string)
    requires NsoKind in scheme.kinds
    ensures |NewStatefulSet(scheme, nso).spec.template.containers| == 1
    ensures var env := NcsContainer(NewStatefulSet(scheme, nso)).env;
      && CountNamed(env, name) == CountNamed(AdminEnv(nso), name) + CountNamed(nso.spec.env, name)
      && FirstNamed(env, "ADMIN_USERNAME") == Some(Literal(nso.spec.adminCredentials.username))
      && FirstNamed(env, "ADMIN_PASSWORD") == Some(SecretKeyRef(nso.spec.adminCredentials.passwordSecretRef, "password"))
  {
    CountNamedAppend(AdminEnv(nso), nso.spec.env, name);
    var env := AdminEnv(nso) + nso.spec.env;
    assert env[1..] == [env[1]] + nso.spec.env;
    assert env[0].name == "ADMIN_USERNAME";
    assert env[1].name == "ADMIN_PASSWORD";
    assert "ADMIN_USERNAME" != "ADMIN_PASSWORD" by { assert "ADMIN_USERNAME"[6] != "ADMIN_PASSWORD"[6]; }
  }

  /** The claim: named bundle-target, single ReadWriteOnce access mode, the declared size or 1Gi. */
  lemma ClaimShape(scheme: Scheme, pb: PackageBundle)
    requires BundleKind in scheme.kinds
    ensures var pvc := NewPersistentVolumeClaim(scheme, pb);
      && pvc.meta.name == pb.meta.name + "-" + pb.spec.targetName
      && pvc.meta.namespace == pb.meta.namespace
      && pvc.meta.controller == Some(OwnerRef(BundleKind, pb.meta.namespace, pb.meta.name))
      && pvc.spec.accessModes == [ReadWriteOnce]
      && pvc.spec.storageRequest == Some(if pb.spec.storageSize == "" then "1Gi" else pb.spec.storageSize)
  {
  }

  /**
   * The Job: named download-bundle, kept 300 seconds after it finishes,
   * retried at most 3 times, never restarted in place, one "downloader"
   * container that clones the source URL into /packages.
   */
  lemma JobShape(scheme: Scheme, pb: PackageBundle)
    requires BundleKind in scheme.kinds
    ensures var job := NewJob(scheme, pb);
      && job.meta.name == "download-" + pb.meta.name
      && job.meta.namespace == pb.meta.namespace
      && job.spec.ttlSecondsAfterFinished == Some(300)
      && job.spec.backoffLimit == Some(3)
      && job.spec.template.restartPolicy == "Never"
      && job.spec.template.containers == [Container(
           "downloader", "alpine/git", ["/bin/sh"],
           ["-c", "cd /packages && git clone " + pb.spec.source.url], [], [],
           [VolumeMount("package-storage", "/packages", "")])]
  {
  }

  /**
   * The Job mounts the claim built from the same bundle: its only volume is
   * backed by a claim of that name, in the same namespace, and is the
   * volume its container mounts.
   */
  lemma JobMountsItsClaim(scheme: Scheme, pb: PackageBundle)
    requires BundleKind in scheme.kinds
    ensures var job, pvc := NewJob(scheme, pb), NewPersistentVolumeClaim(scheme, pb);
      && job.meta.namespace == pvc.meta.namespace
      && |job.spec.template.volumes| == 1
      && job.spec.template.volumes[0].source == ClaimVolume(pvc.meta.name)
      && |job.spec.template.containers| == 1
      && |job.spec.template.containers[0].volumeMounts| == 1
      && job.spec.template.containers[0].volumeMounts[0].name == job.spec.template.volumes[0].name
  {
  }

  /** Job names do not collide: distinct bundles get distinct Jobs. */
  lemma JobNamesDistinct(a: PackageBundle, b: PackageBundle)
    requires a.meta.name != b.meta.name
    ensures JobName(a) != JobName(b)
  {
    var p := "download-";
    assert (p + a.meta.name)[|p|..] == a.meta.name;
    assert (p + b.meta.name)[|p|..] == b.meta.name;
  }

  /**
   * Claim names can collide: bundle "a" targeting "b-c" and bundle "a-b"
   * targeting "c" both get the claim "a-b-c".
   */
  lemma ClaimNamesCanCollide(a: PackageBundle, b: PackageBundle)
    requires a.meta.name == "a" && a.spec.targetName == "b-c"
    requires b.meta.name == "a-b" && b.spec.targetName == "c"
    ensures a.meta.name != b.meta.name
    ensures ClaimName(a) == ClaimName(b) == "a-b-c"
  {
  }
}
