/**
 * The two resources the operator declares: NSO (a Cisco NSO instance) and
 * PackageBundle (packages fetched into a volume for an NSO instance), with
 * the PackageBundle status the controllers write.
 */
module V1alpha1 {
  import opened Wrappers
  import opened Kube

  datatype Credentials = Credentials(username: string, passwordSecretRef: string)

  /**
   * NSO desired state. NSOSpec in api/v1alpha1/nso_types.go declares no
   * VolumeMounts or Volumes field, yet the StatefulSet builder at
   * resources.go:103-123 reads both; they are carried here so that builder
   * can be modelled.
   */
  datatype NsoSpec = NsoSpec(
    image: string,
    serviceName: string,
    replicas: int,
    labelSelector: map<string, string>,
    ports: seq<ServicePort>,
    nsoConfigRef: string,
    adminCredentials: Credentials,
    env: seq<EnvVar>,
    volumeMounts: seq<VolumeMount>,
    volumes: seq<Volume>)

  datatype Nso = Nso(meta: ObjectMeta, spec: NsoSpec)

  datatype OriginType = Scm | Url

  datatype AccessCredentials = AccessCredentials(sshKeySecretRef: string, httpAuthSecretRef: string)

  datatype PackageSource = PackageSource(url: string, branch: string, path: string)

  /** storageSize is the empty string when it is not set. */
  datatype PackageBundleSpec = PackageBundleSpec(
    targetName: string,
    storageSize: string,
    origin: OriginType,
    insecureTls: bool,
    credentials: AccessCredentials,
    source: PackageSource)

  /** The five phases of a PackageBundle; an unset phase is None in the status. */
  datatype Phase = Pending | ContainerCreating | Downloading | Downloaded | FailedToDownload

  /** lastTransitionTime is the time of the last phase change, None while never set. */
  datatype PackageBundleStatus = PackageBundleStatus(
    phase: Option<Phase>,
    message: string,
    jobName: string,
    lastTransitionTime: Option<int>)

  const NoStatus := PackageBundleStatus(None, "", "", None)

  datatype PackageBundle = PackageBundle(meta: ObjectMeta, spec: PackageBundleSpec, status: PackageBundleStatus)
}
