/** The parts of Kubernetes pods, jobs and cron jobs that the injector reads or writes. */
module Objects {
  import opened Wrappers
  import opened Affinity

  /** An environment variable; one that is filled from elsewhere has an empty value. */
  datatype EnvVar = EnvVar(name: string, value: string)

  datatype VolumeMount = VolumeMount(name: string, mountPath: string)

  /** A reference to a config-map whose entries become environment variables. */
  datatype EnvFrom = EnvFrom(configMapName: string, optional: bool)

  /** The command of a container: one of the two injected scripts, with the URLs they export, or anything else. */
  datatype Script =
    | OwnScript(text: string)
    | InjectorScript(isInjectableUrl: string, stateUrl: string, sbatchUrl: string, scancelUrl: string, nodeName: string)
    | PipelineScript(envUrl: string, scancelUrl: string)

  /** A lifecycle hook: the injected one records the container id of the sidecar with that index. */
  datatype Hook = OwnHook(text: string) | RecordSidecarId(index: nat)

  datatype Lifecycle = Lifecycle(postStart: Option<Hook>, preStop: Option<Hook>)

  /** Amounts are the rounded 64-bit values of resource quantities. */
  type Resources = map<string, int>

  datatype Container = Container(
    name: string, script: Script, env: seq<EnvVar>, envFrom: seq<EnvFrom>, limits: Resources, requests: Resources,
    mounts: seq<VolumeMount>, lifecycle: Option<Lifecycle>)

  datatype PodSpec = PodSpec(
    nodeName: string, initContainers: seq<Container>, containers: seq<Container>, volumes: seq<string>,
    affinity: Option<PodAffinity>, runtimeClassName: Option<string>, shareProcessNamespace: Option<bool>)

  datatype Kind = Pod | Job | CronJob | Other

  /** An object at one moment. A nil map of labels or annotations is the empty map. */
  datatype Manifest = Manifest(
    kind: Kind, name: string, generateName: string, generation: int,
    labels: map<string, string>, annotations: map<string, string>, spec: PodSpec)

  /** An object that admission changes in place. `spec` is the pod specification or the one of the job's
      template; other kinds have none. */
  class KubeObject {
    const kind: Kind
    const name: string
    const generateName: string
    const generation: int
    var labels: map<string, string>
    var annotations: map<string, string>
    var spec: PodSpec

    constructor (m: Manifest)
      ensures View() == m
    {
      kind, name, generateName, generation := m.kind, m.name, m.generateName, m.generation;
      labels, annotations, spec := m.labels, m.annotations, m.spec;
    }

    function View(): Manifest
      reads this
    {
      Manifest(kind, name, generateName, generation, labels, annotations, spec)
    }
  }
}
