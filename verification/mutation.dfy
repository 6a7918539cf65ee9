/** The admission mutation: the injected init-containers, volumes, references and labels, and the accounting of GPUs. */
module Mutation {
  import opened Wrappers
  import opened Text
  import opened Naming
  import opened Affinity
  import opened Objects
  import opened JobInformation
  import opened Url

  const STATUS := "k8s-slurm-injector/status"
  const NAMESPACE := "k8s-slurm-injector/namespace"
  const OBJECT_NAME := "k8s-slurm-injector/object-name"
  const GPU_LIMIT := "k8s-slurm-injector/gpu-limit"
  const GRES := "k8s-slurm-injector/gres"
  const JOBID := "k8s-slurm-injector/jobid"

  const SHARED := "k8s-slurm-injector-shared"
  const SHARED_MOUNT := VolumeMount(SHARED, "/k8s-slurm-injector")
  const SIDECAR := "istio-proxy"

  // ----- The mutation, in closed form ------------------------------------------------------------

  const INIT_RESOURCES: Resources := map["cpu" := 1, "memory" := 104857600]

  function InjectorContainer(info: JobInfo, base: string): Container {
    Container(
      "slurm-injector",
      InjectorScript(ConstructUrl(base, info, "isinjectable"), ConstructUrl(base, info, "state"),
                     ConstructUrl(base, info, "sbatch"), ConstructUrl(base, info, "scancel"), info.node),
      [EnvVar(ENV_NODE, "")], [], INIT_RESOURCES, INIT_RESOURCES, [SHARED_MOUNT], None)
  }

  function PipelineContainer(info: JobInfo, base: string): Container {
    Container(
      "slurm-pipeline",
      PipelineScript(ConstructUrl(base, info, "envtoconfigmap"), ConstructUrl(base, info, "scancel")),
      [], [], INIT_RESOURCES, INIT_RESOURCES, [SHARED_MOUNT], None)
  }

  /** A container gains the mount and the reference to the config-map, and loses its GPUs; the sidecar gets a hook. */
  function MutatedContainer(c: Container, i: nat, configMapName: string): Container {
    c.(mounts := c.mounts + [SHARED_MOUNT],
       envFrom := c.envFrom + [EnvFrom(configMapName, true)],
       limits := c.limits - {GPU},
       requests := c.requests - {GPU},
       lifecycle := if c.name == SIDECAR then Some(Lifecycle(Some(RecordSidecarId(i)), None)) else c.lifecycle)
  }

  function MutatedContainers(cs: seq<Container>, configMapName: string): (r: seq<Container>)
    ensures |r| == |cs|
  {
    seq(|cs|, i requires 0 <= i < |cs| => MutatedContainer(cs[i], i, configMapName))
  }

  function MutatedSpec(spec: PodSpec, info: JobInfo, base: string): PodSpec {
    var ngpus := Atoi(info.ngpus).GetOr(0);
    PodSpec(
      spec.nodeName,
      [InjectorContainer(info, base), PipelineContainer(info, base)] + spec.initContainers,
      MutatedContainers(spec.containers, ConfigMapName(info.objectName)),
      [SHARED] + spec.volumes,
      if ngpus > 0 then Some(Rewritten(spec.affinity, ngpus)) else spec.affinity,
      if ngpus > 0 && spec.runtimeClassName.None? then Some("nvidia") else spec.runtimeClassName,
      Some(true))
  }

  function WrittenAnnotations(info: JobInfo): map<string, string> {
    map[STATUS := "injected", NAMESPACE := info.namespace, OBJECT_NAME := info.objectName, MODE := info.mode,
        PARTITION := info.partition, NODE := info.node, NTASKS := info.ntasks, NCPUS := info.ncpus, NGPUS := info.ngpus,
        GPU_LIMIT := if info.gpuLimit then "true" else "false", GRES := info.gres, TIME := info.time, NAME := info.name,
        UUID := info.uuid]
  }

  function WrittenLabels(info: JobInfo): map<string, string> {
    map[STATUS := "injected", NAMESPACE := info.namespace, OBJECT_NAME := info.objectName, UUID := info.uuid]
  }

  function MutatedBy(m: Manifest, info: JobInfo, base: string): Manifest {
    m.(spec := MutatedSpec(m.spec, info, base),
       annotations := m.annotations + WrittenAnnotations(info),
       labels := m.labels + WrittenLabels(info))
  }

  /** The information that the mutation writes: the resolved one, with a new UUID. */
  function FreshInfo(m: Manifest, namespace: string, uuid: string): JobInfo
    requires Resolvable(m)
  {
    InfoOf(m, namespace).(uuid := uuid)
  }

  function Mutated(m: Manifest, namespace: string, uuid: string, base: string): Manifest
    requires Resolvable(m)
  {
    MutatedBy(m, FreshInfo(m, namespace, uuid), base)
  }

  predicate Mutable(m: Manifest) { m.kind != Other && Resolvable(m) }

  // ----- The code ----------------------------------------------------------------------------

  /** The loop over containers. */
  method MutateContainers(cs: seq<Container>, configMapName: string) returns (r: seq<Container>)
    ensures r == MutatedContainers(cs, configMapName)
  {
    r := cs;
    for i := 0 to |cs|
      invariant |r| == |cs|
      invariant forall j :: 0 <= j < i ==> r[j] == MutatedContainer(cs[j], j, configMapName)
      invariant forall j :: i <= j < |cs| ==> r[j] == cs[j]
    {
      if r[i].name == SIDECAR {
        r := r[i := r[i].(lifecycle := Some(Lifecycle(Some(RecordSidecarId(i)), None)))];
      }
      r := r[i := r[i].(mounts := r[i].mounts + [SHARED_MOUNT])];
      r := r[i := r[i].(envFrom := r[i].envFrom + [EnvFrom(configMapName, true)])];
      r := r[i := r[i].(limits := r[i].limits - {GPU})];
      r := r[i := r[i].(requests := r[i].requests - {GPU})];
    }
  }

  /** The pod specification is rewritten step by step. */
  method MutateSpec(spec0: PodSpec, info: JobInfo, base: string) returns (spec: PodSpec)
    ensures spec == MutatedSpec(spec0, info, base)
  {
    spec := spec0.(shareProcessNamespace := Some(true));
    spec := spec.(initContainers := [InjectorContainer(info, base), PipelineContainer(info, base)] + spec.initContainers);
    var containers := MutateContainers(spec.containers, ConfigMapName(info.objectName));
    spec := spec.(containers := containers);
    spec := spec.(volumes := [SHARED] + spec.volumes);
    var ngpus := Atoi(info.ngpus).GetOr(0);
    if ngpus > 0 {
      if spec.runtimeClassName.None? {
        spec := spec.(runtimeClassName := Some("nvidia"));
      }
      var affinity := RestrictToGpuNodes(spec.affinity, ngpus);
      spec := spec.(affinity := Some(affinity));
    }
  }

  /** The new specification, annotations and labels are set on the object. */
  method WriteMutation(obj: KubeObject, info: JobInfo, base: string)
    modifies obj
    ensures obj.View() == MutatedBy(old(obj.View()), info, base)
  {
    var spec := MutateSpec(obj.spec, info, base);
    obj.spec := spec;
    obj.annotations := obj.annotations + WrittenAnnotations(info);
    obj.labels := obj.labels + WrittenLabels(info);
  }

  /** `mutateObject`, with the UUID it draws and the address of the handlers as inputs. */
  method MutateObject(obj: KubeObject, namespace: string, uuid: string, base: string) returns (ok: bool)
    modifies obj
    ensures ok <==> Mutable(old(obj.View()))
    ensures obj.View() == if ok then Mutated(old(obj.View()), namespace, uuid, base) else old(obj.View())
  {
    if obj.kind == Other { return false; }
    var read := GetJobInformation(obj, namespace);
    if read.Err? { return false; }
    WriteMutation(obj, read.value.(uuid := uuid), base);
    ok := true;
  }

  // ----- Reading the mutated object again ----------------------------------------------------------

  lemma {:induction false} SameEnv(cs: seq<Container>, cs': seq<Container>)
    requires |cs| == |cs'| && forall i :: 0 <= i < |cs| ==> cs[i].env == cs'[i].env
    ensures AllEnv(cs) == AllEnv(cs')
  {
    if cs != [] {
      var n := |cs| - 1;
      SameEnv(cs[..n], cs'[..n]);
    }
  }

  lemma EnvIsKept(m: Manifest, info: JobInfo, base: string)
    ensures AllEnv(MutatedBy(m, info, base).spec.containers) == AllEnv(m.spec.containers)
  {
    SameEnv(m.spec.containers, MutatedBy(m, info, base).spec.containers);
  }

  /** The written annotations hide everything below. */
  lemma OverlayOfWritten(annotations: map<string, string>, info: JobInfo, s: Settings)
    ensures Overlay(annotations + WrittenAnnotations(info), s) ==
            Settings(NormalMode(info.mode), info.partition, info.node, ParseInt64(info.ntasks), ParseInt64(info.ncpus),
                     ParseInt64(info.ngpus), ParseInt64(info.time), info.name, info.uuid)
  {
  }

  lemma LabelsStayOk(labels: map<string, string>, info: JobInfo)
    ensures LayerOk(labels + WrittenLabels(info)) <==> LayerOk(labels)
  {
  }

  lemma {:induction false} LastEnvIsEntry(env: seq<EnvVar>, name: string)
    ensures LastEnv(env, name).Some? ==> EnvVar(name, LastEnv(env, name).value) in env
  {
    if env != [] && env[|env| - 1].name != name {
      LastEnvIsEntry(env[..|env| - 1], name);
    }
  }

  /** Resolved modes are known, or absent. */
  lemma ResolvedMode(m: Manifest)
    requires LayersOk(m)
    ensures Resolved(m).mode == "" || ValidMode(Resolved(m).mode)
  {
    LastEnvIsEntry(AllEnv(m.spec.containers), ENV_MODE);
  }

  /** The settings found in the written annotations. */
  function WrittenSettings(info: JobInfo): Settings {
    Settings(NormalMode(info.mode), info.partition, info.node, ParseInt64(info.ntasks), ParseInt64(info.ncpus),
             ParseInt64(info.ngpus), ParseInt64(info.time), info.name, info.uuid)
  }

  lemma ResolvedAgain(m: Manifest, info: JobInfo, base: string)
    ensures Resolved(MutatedBy(m, info, base)) ==
            EnvOverlay(AllEnv(m.spec.containers), Placed(WrittenSettings(info), m.spec.nodeName))
  {
    var m' := MutatedBy(m, info, base);
    EnvIsKept(m, info, base);
    OverlayOfWritten(m.annotations, info, Overlay(m'.labels, DEFAULTS));
  }

  /** Manual mode still finds a node. */
  lemma NodeIsFoundAgain(env: seq<EnvVar>, s: Settings, info: JobInfo, nodeName: string)
    requires HasNode(EnvOverlay(env, s))
    requires info.mode == EnvOverlay(env, s).mode && info.node == EnvOverlay(env, s).node
    ensures HasNode(EnvOverlay(env, Placed(WrittenSettings(info), nodeName)))
  {
  }

  lemma LayersStayOk(m: Manifest, info: JobInfo, base: string)
    requires LayersOk(m) && (info.mode == "" || ValidMode(info.mode))
    ensures LayersOk(MutatedBy(m, info, base))
  {
    EnvIsKept(m, info, base);
    LabelsStayOk(m.labels, info);
    assert (m.annotations + WrittenAnnotations(info))[MODE] == info.mode;
  }

  lemma NameIsKept(m: Manifest, info: JobInfo, base: string)
    ensures GetObjectName(MutatedBy(m, info, base)) == GetObjectName(m)
  {
  }

  lemma UuidIsFoundInMutated(m: Manifest, info: JobInfo, base: string)
    ensures Resolved(MutatedBy(m, info, base)).uuid == info.uuid
  {
    ResolvedAgain(m, info, base);
  }

  lemma NodeIsFoundInMutated(m: Manifest, info: JobInfo, base: string)
    requires HasNode(Resolved(m)) && info.mode == Resolved(m).mode && info.node == Resolved(m).node
    ensures HasNode(Resolved(MutatedBy(m, info, base)))
  {
    var env := AllEnv(m.spec.containers);
    var s := Placed(Overlay(m.annotations, Overlay(m.labels, DEFAULTS)), m.spec.nodeName);
    assert Resolved(m) == EnvOverlay(env, s);
    NodeIsFoundAgain(env, s, info, m.spec.nodeName);
    ResolvedAgain(m, info, base);
  }

  lemma ResolvableAgain(m: Manifest, info: JobInfo, base: string)
    requires Resolvable(m) && info.mode == Resolved(m).mode && info.node == Resolved(m).node
    ensures Resolvable(MutatedBy(m, info, base))
  {
    NameIsKept(m, info, base);
    ResolvedMode(m);
    LayersStayOk(m, info, base);
    NodeIsFoundInMutated(m, info, base);
  }

  lemma PrintedFields(m: Manifest, namespace: string)
    requires Resolvable(m)
    ensures var info, s := InfoOf(m, namespace), Resolved(m);
      info.uuid == s.uuid && info.mode == s.mode && info.node == s.node && info.namespace == namespace
      && info.objectName == KindPrefix(m.kind) + GetObjectName(m).value
  {
  }

  /** Reading a mutated object again never fails, and yields the same namespace and object name and the new UUID,
      whatever labels, annotations and environments were there before. */
  lemma ReadAgain(m: Manifest, namespace: string, uuid: string, base: string)
    requires Resolvable(m)
    ensures var m' := Mutated(m, namespace, uuid, base);
      Resolvable(m') && InfoOf(m', namespace).uuid == uuid
      && InfoOf(m', namespace).namespace == namespace
      && InfoOf(m', namespace).objectName == InfoOf(m, namespace).objectName
  {
    var info := FreshInfo(m, namespace, uuid);
    PrintedFields(m, namespace);
    ResolvableAgain(m, info, base);
    UuidIsFoundInMutated(m, info, base);
    NameIsKept(m, info, base);
    PrintedFields(MutatedBy(m, info, base), namespace);
  }

  lemma WrittenIdentity(m: Manifest, info: JobInfo, base: string)
    ensures var m' := MutatedBy(m, info, base);
      UUID in m'.labels && m'.labels[UUID] == info.uuid && UUID in m'.annotations && m'.annotations[UUID] == info.uuid
      && STATUS in m'.annotations && m'.annotations[STATUS] == "injected"
  {
  }

  lemma JobIdIsKept(m: Manifest, info: JobInfo, base: string)
    ensures var m' := MutatedBy(m, info, base);
      (JOBID in m'.annotations <==> JOBID in m.annotations)
      && (JOBID in m.annotations ==> m'.annotations[JOBID] == m.annotations[JOBID])
  {
    assert JOBID !in WrittenAnnotations(info);
  }

  /** Label and annotation carry the new UUID, and the annotation with the job id stays as it was. */
  lemma IdentityOnThePod(m: Manifest, namespace: string, uuid: string, base: string)
    requires Resolvable(m)
    ensures var m' := Mutated(m, namespace, uuid, base);
      UUID in m'.labels && m'.labels[UUID] == uuid && UUID in m'.annotations && m'.annotations[UUID] == uuid
      && (JOBID in m'.annotations <==> JOBID in m.annotations)
      && (JOBID in m.annotations ==> m'.annotations[JOBID] == m.annotations[JOBID])
  {
    WrittenIdentity(m, FreshInfo(m, namespace, uuid), base);
    JobIdIsKept(m, FreshInfo(m, namespace, uuid), base);
  }

  // ----- Accounting of GPUs ------------------------------------------------------------------------

  /** The total is the sum of what was declared and what containers were limited to, exactly when that fits 64 bits. */
  lemma TotalIsSum(m: Manifest)
    ensures NumGpus(m) == Resolved(m).ngpus + GpuLimits(m.spec.containers) <==>
            Fits(Resolved(m).ngpus + GpuLimits(m.spec.containers))
  {
  }

  lemma PrintedGpus(m: Manifest, namespace: string)
    requires Resolvable(m)
    ensures var info, n := InfoOf(m, namespace), NumGpus(m);
      Fits(n) && info.ngpus == PrintInt(n) && info.gres == if n > 0 then "gpu:" + PrintInt(n) else ""
  {
  }

  /** One number of GPUs is written in the annotation, requested from Slurm and demanded of nodes; request and demand
      appear exactly when it is positive. */
  lemma GpuAccounting(m: Manifest, namespace: string, uuid: string, base: string, node: Node)
    requires Resolvable(m)
    ensures var m', n := Mutated(m, namespace, uuid, base), NumGpus(m);
      NGPUS in m'.annotations && Atoi(m'.annotations[NGPUS]) == Some(n)
      && GRES in m'.annotations && m'.annotations[GRES] == (if n > 0 then "gpu:" + PrintInt(n) else "")
      && (n <= 0 ==> m'.spec.affinity == m.spec.affinity)
      && (n > 0 ==> (Admits(m'.spec.affinity, node) <==>
                       EnoughGpus(node, n) && (Admits(m.spec.affinity, node) || Widened(m.spec.affinity))))
  {
    var info, n := FreshInfo(m, namespace, uuid), NumGpus(m);
    PrintedGpus(m, namespace);
    ParsePrint(n);
    WrittenGpus(m, info, base);
    if n > 0 {
      RewrittenMeaning(m.spec.affinity, n, node);
    }
  }

  lemma WrittenGpuAnnotations(info: JobInfo)
    ensures var w := WrittenAnnotations(info);
      NGPUS in w && w[NGPUS] == info.ngpus && GRES in w && w[GRES] == info.gres
  {
  }

  lemma WrittenGpus(m: Manifest, info: JobInfo, base: string)
    ensures var m' := MutatedBy(m, info, base);
      NGPUS in m'.annotations && m'.annotations[NGPUS] == info.ngpus && GRES in m'.annotations
      && m'.annotations[GRES] == info.gres
  {
    WrittenGpuAnnotations(info);
  }

  /** Resources without their GPUs. */
  ghost predicate OnlyGpusRemoved(r: Resources, r': Resources) {
    GPU !in r' && (forall k :: k in r' <==> k in r && k != GPU) && forall k :: k in r' ==> r'[k] == r[k]
  }

  lemma GpusRemoved(r: Resources)
    ensures OnlyGpusRemoved(r, r - {GPU})
  {
  }

  /** No container keeps GPUs; every other resource, and number and order of the containers, are unchanged. */
  lemma NoContainerKeepsGpus(m: Manifest, namespace: string, uuid: string, base: string, i: nat)
    requires Resolvable(m) && i < |m.spec.containers|
    ensures var cs, cs' := m.spec.containers, Mutated(m, namespace, uuid, base).spec.containers;
      |cs'| == |cs| && cs'[i].name == cs[i].name && cs'[i].script == cs[i].script && cs'[i].env == cs[i].env
      && OnlyGpusRemoved(cs[i].limits, cs'[i].limits) && OnlyGpusRemoved(cs[i].requests, cs'[i].requests)
  {
    GpusRemoved(m.spec.containers[i].limits);
    GpusRemoved(m.spec.containers[i].requests);
  }
}
