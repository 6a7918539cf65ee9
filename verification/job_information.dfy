/** How the injector resolves the settings of a job from labels, annotations, the node name and container
    environments. */
module JobInformation {
  import opened Wrappers
  import opened Text
  import opened Objects

  const MODE := "k8s-slurm-injector/node-specification-mode"
  const PARTITION := "k8s-slurm-injector/partition"
  const NODE := "k8s-slurm-injector/node"
  const NTASKS := "k8s-slurm-injector/ntasks"
  const NCPUS := "k8s-slurm-injector/ncpus"
  const NGPUS := "k8s-slurm-injector/ngpus"
  const TIME := "k8s-slurm-injector/time"
  const NAME := "k8s-slurm-injector/name"
  const UUID := "k8s-slurm-injector/uuid"

  const ENV_MODE := "K8S_SLURM_INJECTOR_NODE_SPECIFICATION_MODE"
  const ENV_PARTITION := "K8S_SLURM_INJECTOR_PARTITION"
  const ENV_NODE := "K8S_SLURM_INJECTOR_NODE"
  const ENV_NTASKS := "K8S_SLURM_INJECTOR_NTASKS"
  const ENV_NCPUS := "K8S_SLURM_INJECTOR_NCPUS"
  const ENV_NGPUS := "K8S_SLURM_INJECTOR_NGPUS"
  const ENV_TIME := "K8S_SLURM_INJECTOR_TIME"
  const ENV_NAME := "K8S_SLURM_INJECTOR_NAME"

  const NODE_PLACEHOLDER := "::K8S_SLURM_INJECTOR_NODE::"
  const GPU := "nvidia.com/gpu"
  const CPU := "cpu"

  datatype JobInfo = JobInfo(
    uuid: string, namespace: string, objectName: string, mode: string, partition: string, node: string, ntasks: string,
    ncpus: string, ngpus: string, gpuLimit: bool, gres: string, time: string, name: string)

  /** The settings while they are being resolved. */
  datatype Settings = Settings(
    mode: string, partition: string, node: string, ntasks: int, ncpus: int, ngpus: int, time: int, name: string, uuid: string)

  const DEFAULTS := Settings("", "", "", 1, 0, 0, 0, "", "")

  // ----- Names -------------------------------------------------------------------------------

  /** The name of the object, or its generateName and generation. */
  function GetObjectName(m: Manifest): Option<string> {
    if m.name != "" then Some(m.name)
    else if m.generateName == "" then None
    else Some(m.generateName + PrintInt(m.generation))
  }

  function KindPrefix(kind: Kind): string {
    match kind
    case Pod => "pod-"
    case Job => "job-"
    case CronJob => "cronjob-"
    case Other => ""
  }

  // ----- Layers: the closed form -----------------------------------------------------------------

  predicate ValidMode(v: string) { v == "auto" || v == "manual" }

  /** A layer of labels or annotations must name a known mode, or an empty one. */
  predicate LayerOk(layer: map<string, string>) {
    MODE in layer ==> layer[MODE] == "" || ValidMode(layer[MODE])
  }

  function NormalMode(v: string): string { if v == "" then "auto" else v }

  function Lookup(layer: map<string, string>, key: string, lower: string): string {
    if key in layer then layer[key] else lower
  }

  function LookupInt(layer: map<string, string>, key: string, lower: int): int {
    if key in layer then ParseInt64(layer[key]) else lower
  }

  /** The settings of a layer over those below. */
  function Overlay(layer: map<string, string>, s: Settings): Settings {
    Settings(
      if MODE in layer then NormalMode(layer[MODE]) else s.mode,
      Lookup(layer, PARTITION, s.partition), Lookup(layer, NODE, s.node),
      LookupInt(layer, NTASKS, s.ntasks), LookupInt(layer, NCPUS, s.ncpus), LookupInt(layer, NGPUS, s.ngpus),
      LookupInt(layer, TIME, s.time), Lookup(layer, NAME, s.name), Lookup(layer, UUID, s.uuid))
  }

  /** The node name of the pod wins over both layers; every mode but `manual` forgets partition and node. */
  function Placed(s: Settings, nodeName: string): Settings {
    if s.mode != "manual" then s.(partition := "", node := NODE_PLACEHOLDER)
    else if nodeName != "" then s.(node := nodeName)
    else s
  }

  /** All environment variables, container by container. */
  function AllEnv(containers: seq<Container>): seq<EnvVar> {
    if containers == [] then [] else AllEnv(containers[..|containers| - 1]) + containers[|containers| - 1].env
  }

  /** The value of the last entry of that name. */
  function LastEnv(env: seq<EnvVar>, name: string): Option<string> {
    if env == [] then None
    else if env[|env| - 1].name == name then Some(env[|env| - 1].value)
    else LastEnv(env[..|env| - 1], name)
  }

  predicate EnvOk(env: seq<EnvVar>) {
    forall e :: e in env && e.name == ENV_MODE ==> ValidMode(e.value)
  }

  function EnvInt(env: seq<EnvVar>, name: string, lower: int): int {
    match LastEnv(env, name)
    case Some(v) => ParseInt64(v)
    case None => lower
  }

  function EnvOverlay(env: seq<EnvVar>, s: Settings): Settings {
    Settings(
      LastEnv(env, ENV_MODE).GetOr(s.mode), LastEnv(env, ENV_PARTITION).GetOr(s.partition),
      LastEnv(env, ENV_NODE).GetOr(s.node), EnvInt(env, ENV_NTASKS, s.ntasks), EnvInt(env, ENV_NCPUS, s.ncpus),
      EnvInt(env, ENV_NGPUS, s.ngpus), EnvInt(env, ENV_TIME, s.time), LastEnv(env, ENV_NAME).GetOr(s.name), s.uuid)
  }

  // ----- Resources ---------------------------------------------------------------------------

  function Amount(r: Resources, key: string): int { if key in r then r[key] else 0 }

  function CpuRequests(containers: seq<Container>): int {
    if containers == [] then 0
    else CpuRequests(containers[..|containers| - 1]) + Amount(containers[|containers| - 1].requests, CPU)
  }

  function GpuLimits(containers: seq<Container>): int {
    if containers == [] then 0
    else GpuLimits(containers[..|containers| - 1]) + Amount(containers[|containers| - 1].limits, GPU)
  }

  predicate AnyGpuLimit(containers: seq<Container>) { exists c :: c in containers && GPU in c.limits }

  // ----- The closed specification ----------------------------------------------------------------

  function Resolved(m: Manifest): Settings {
    EnvOverlay(AllEnv(m.spec.containers),
               Placed(Overlay(m.annotations, Overlay(m.labels, DEFAULTS)), m.spec.nodeName))
  }

  /** The number of GPUs: declared, plus the limits of all containers. */
  function TotalGpus(s: Settings, containers: seq<Container>): int { Wrap64(s.ngpus + GpuLimits(containers)) }

  function TotalCpus(s: Settings, containers: seq<Container>): int {
    var n := Wrap64(s.ncpus + CpuRequests(containers));
    if n == 0 then 1 else n
  }

  function NumGpus(m: Manifest): int { TotalGpus(Resolved(m), m.spec.containers) }

  predicate LayersOk(m: Manifest) {
    LayerOk(m.labels) && LayerOk(m.annotations) && EnvOk(AllEnv(m.spec.containers))
  }

  /** Manual mode needs a node. */
  predicate HasNode(s: Settings) { !(s.mode == "manual" && s.node == "") }

  predicate Resolvable(m: Manifest) { GetObjectName(m).Some? && LayersOk(m) && HasNode(Resolved(m)) }

  /** The printed form of resolved settings; numbers that are not positive, and an empty request of GPUs, are left
      out. */
  function Printed(s: Settings, namespace: string, objectName: string, containers: seq<Container>): JobInfo {
    var ngpus := TotalGpus(s, containers);
    JobInfo(
      s.uuid, namespace, objectName, s.mode, s.partition, s.node, if s.ntasks > 0 then PrintInt(s.ntasks) else "",
      PrintInt(TotalCpus(s, containers)), PrintInt(ngpus), AnyGpuLimit(containers),
      if ngpus > 0 then "gpu:" + PrintInt(ngpus) else "", if s.time > 0 then PrintInt(s.time) else "", s.name)
  }

  function InfoOf(m: Manifest, namespace: string): JobInfo
    requires Resolvable(m)
  {
    Printed(Resolved(m), namespace, KindPrefix(m.kind) + GetObjectName(m).value, m.spec.containers)
  }

  // ----- The code ----------------------------------------------------------------------------

  /** One turn of the loop over labels or annotations. */
  method ReadEntry(key: string, value: string, s0: Settings) returns (r: Result<Settings>)
    ensures r == if key == MODE && value != "" && !ValidMode(value) then Err else Ok(Overlay(map[key := value], s0))
  {
    var s := s0;
    if key == MODE {
      s := s.(mode := value);
      if value == "" {
        s := s.(mode := "auto");
      } else if value != "auto" && value != "manual" {
        return Err;
      }
    }
    if key == PARTITION { s := s.(partition := value); }
    if key == NODE { s := s.(node := value); }
    if key == NTASKS { s := s.(ntasks := ParseInt64(value)); }
    if key == NCPUS { s := s.(ncpus := ParseInt64(value)); }
    if key == NGPUS { s := s.(ngpus := ParseInt64(value)); }
    if key == TIME { s := s.(time := ParseInt64(value)); }
    if key == NAME { s := s.(name := value); }
    if key == UUID { s := s.(uuid := value); }
    r := Ok(s);
  }

  lemma OverlayEntry(seen: map<string, string>, key: string, value: string, s: Settings)
    ensures Overlay(seen[key := value], s) == Overlay(map[key := value], Overlay(seen, s))
  {
  }

  /** The loop over labels or annotations, in the arbitrary order of a Go map. */
  method ReadLayer(layer: map<string, string>, s0: Settings) returns (r: Result<Settings>)
    ensures r == if LayerOk(layer) then Ok(Overlay(layer, s0)) else Err
  {
    var s, rest := s0, layer.Keys;
    ghost var seen: map<string, string> := map[];
    while rest != {}
      invariant rest <= layer.Keys
      invariant seen == map k | k in layer && k !in rest :: layer[k]
      invariant LayerOk(seen) && s == Overlay(seen, s0)
    {
      var key :| key in rest;
      var entry := ReadEntry(key, layer[key], s);
      if entry.Err? { return Err; }
      OverlayEntry(seen, key, layer[key], s0);
      s := entry.value;
      rest := rest - {key};
      seen := seen[key := layer[key]];
    }
    assert seen == layer;
    r := Ok(s);
  }

  /** One turn of the loop over the environment of a container. */
  method ReadEnvVar(e: EnvVar, s0: Settings) returns (r: Result<Settings>)
    ensures r == if e.name == ENV_MODE && !ValidMode(e.value) then Err else Ok(EnvOverlay([e], s0))
  {
    var s := s0;
    if e.name == ENV_MODE {
      s := s.(mode := e.value);
      if e.value != "auto" && e.value != "manual" {
        return Err;
      }
    }
    if e.name == ENV_PARTITION { s := s.(partition := e.value); }
    if e.name == ENV_NODE { s := s.(node := e.value); }
    if e.name == ENV_NTASKS { s := s.(ntasks := ParseInt64(e.value)); }
    if e.name == ENV_NCPUS { s := s.(ncpus := ParseInt64(e.value)); }
    if e.name == ENV_NGPUS { s := s.(ngpus := ParseInt64(e.value)); }
    if e.name == ENV_TIME { s := s.(time := ParseInt64(e.value)); }
    if e.name == ENV_NAME { s := s.(name := e.value); }
    assert forall name :: LastEnv([e], name) == if e.name == name then Some(e.value) else None;
    r := Ok(s);
  }

  lemma LastEnvAppend(env: seq<EnvVar>, e: EnvVar, name: string)
    ensures LastEnv(env + [e], name) == if e.name == name then Some(e.value) else LastEnv(env, name)
    ensures LastEnv([e], name) == if e.name == name then Some(e.value) else None
  {
  }

  lemma EnvOverlayAppend(env: seq<EnvVar>, e: EnvVar, s: Settings)
    ensures EnvOverlay(env + [e], s) == EnvOverlay([e], EnvOverlay(env, s))
  {
    forall name
      ensures LastEnv(env + [e], name) == if e.name == name then Some(e.value) else LastEnv(env, name)
      ensures LastEnv([e], name) == if e.name == name then Some(e.value) else None
    {
      LastEnvAppend(env, e, name);
    }
  }

  lemma EnvOkAppend(env: seq<EnvVar>, env': seq<EnvVar>)
    ensures EnvOk(env + env') <==> EnvOk(env) && EnvOk(env')
  {
  }

  /** The loop over the environment of one container. */
  method ReadContainerEnv(env: seq<EnvVar>, ghost before: seq<EnvVar>, ghost s0: Settings, s1: Settings)
    returns (r: Result<Settings>)
    requires s1 == EnvOverlay(before, s0)
    ensures r == if EnvOk(env) then Ok(EnvOverlay(before + env, s0)) else Err
  {
    var s := s1;
    assert before + env[..0] == before;
    for j := 0 to |env|
      invariant EnvOk(env[..j]) && s == EnvOverlay(before + env[..j], s0)
    {
      assert env[..j + 1] == env[..j] + [env[j]];
      assert before + env[..j + 1] == before + env[..j] + [env[j]];
      EnvOkAppend(env[..j], [env[j]]);
      EnvOverlayAppend(before + env[..j], env[j], s0);
      var entry := ReadEnvVar(env[j], s);
      if entry.Err? {
        assert env[j] in env;
        return Err;
      }
      s := entry.value;
    }
    assert env[..|env|] == env;
    r := Ok(s);
  }

  lemma AllEnvStep(containers: seq<Container>, i: nat)
    requires i < |containers|
    ensures AllEnv(containers[..i + 1]) == AllEnv(containers[..i]) + containers[i].env
  {
    assert containers[..i + 1][..i] == containers[..i];
  }

  lemma {:induction false} AllEnvContains(containers: seq<Container>, i: nat)
    requires i < |containers|
    ensures EnvOk(AllEnv(containers)) ==> EnvOk(containers[i].env)
  {
    var n := |containers| - 1;
    EnvOkAppend(AllEnv(containers[..n]), containers[n].env);
    if i < n { AllEnvContains(containers[..n], i); }
  }

  method ReadEnv(containers: seq<Container>, s0: Settings) returns (r: Result<Settings>)
    ensures r == if EnvOk(AllEnv(containers)) then Ok(EnvOverlay(AllEnv(containers), s0)) else Err
  {
    var s := s0;
    for i := 0 to |containers|
      invariant EnvOk(AllEnv(containers[..i])) && s == EnvOverlay(AllEnv(containers[..i]), s0)
    {
      AllEnvStep(containers, i);
      EnvOkAppend(AllEnv(containers[..i]), containers[i].env);
      AllEnvContains(containers, i);
      var read := ReadContainerEnv(containers[i].env, AllEnv(containers[..i]), s0, s);
      if read.Err? { return Err; }
      s := read.value;
    }
    assert containers[..|containers|] == containers;
    r := Ok(s);
  }

  /** The loop over CPU requests, with a 64-bit sum. */
  method SumCpus(containers: seq<Container>, ncpus0: int) returns (ncpus: int)
    requires Fits(ncpus0)
    ensures ncpus == Wrap64(ncpus0 + CpuRequests(containers))
  {
    ncpus := ncpus0;
    for i := 0 to |containers|
      invariant ncpus == Wrap64(ncpus0 + CpuRequests(containers[..i]))
    {
      assert containers[..i + 1][..i] == containers[..i];
      WrapAdd(ncpus0 + CpuRequests(containers[..i]), Amount(containers[i].requests, CPU));
      ncpus := Wrap64(ncpus + Amount(containers[i].requests, CPU));
    }
    assert containers[..|containers|] == containers;
  }

  /** The loop over GPU limits, with a 64-bit sum. */
  method SumGpus(containers: seq<Container>, ngpus0: int) returns (ngpus: int, gpuLimit: bool)
    requires Fits(ngpus0)
    ensures ngpus == Wrap64(ngpus0 + GpuLimits(containers)) && gpuLimit == AnyGpuLimit(containers)
  {
    ngpus, gpuLimit := ngpus0, false;
    for i := 0 to |containers|
      invariant ngpus == Wrap64(ngpus0 + GpuLimits(containers[..i]))
      invariant gpuLimit <==> exists j :: 0 <= j < i && GPU in containers[j].limits
    {
      assert containers[..i + 1][..i] == containers[..i];
      if GPU in containers[i].limits {
        WrapAdd(ngpus0 + GpuLimits(containers[..i]), containers[i].limits[GPU]);
        ngpus := Wrap64(ngpus + containers[i].limits[GPU]);
        gpuLimit := true;
      }
    }
    assert containers[..|containers|] == containers;
  }

  /** Labels, then annotations, then the node name and the mode, then container environments. */
  method ResolveSettings(obj: KubeObject) returns (r: Result<Settings>)
    ensures r == if LayersOk(obj.View()) then Ok(Resolved(obj.View())) else Err
  {
    var read := ReadLayer(obj.labels, DEFAULTS);
    if read.Err? { return Err; }
    read := ReadLayer(obj.annotations, read.value);
    if read.Err? { return Err; }
    var s := read.value;
    if obj.spec.nodeName != "" {
      s := s.(node := obj.spec.nodeName);
    }
    if s.mode != "manual" {
      s := s.(partition := "", node := NODE_PLACEHOLDER);
    }
    r := ReadEnv(obj.spec.containers, s);
  }

  /** The sums over containers; a pod without CPU requests counts as one CPU. */
  method Totals(s: Settings, containers: seq<Container>) returns (ncpus: int, ngpus: int, gpuLimit: bool)
    requires SettingsFit(s)
    ensures ncpus == TotalCpus(s, containers) && ngpus == TotalGpus(s, containers) && gpuLimit == AnyGpuLimit(containers)
  {
    ncpus := SumCpus(containers, s.ncpus);
    if ncpus == 0 { ncpus := 1; }
    ngpus, gpuLimit := SumGpus(containers, s.ngpus);
  }

  /** The printed settings and the final check. */
  method Summarise(s: Settings, namespace: string, objectName: string, containers: seq<Container>) returns (r: Result<JobInfo>)
    requires SettingsFit(s)
    ensures r == if HasNode(s) then Ok(Printed(s, namespace, objectName, containers)) else Err
  {
    var ntasks, time, gres := "", "", "";
    if s.ntasks > 0 { ntasks := PrintInt(s.ntasks); }
    if s.time > 0 { time := PrintInt(s.time); }
    var ncpus, ngpus, gpuLimit := Totals(s, containers);
    if ngpus > 0 { gres := "gpu:" + PrintInt(ngpus); }
    if s.mode == "manual" && s.node == "" { return Err; }
    r := Ok(JobInfo(s.uuid, namespace, objectName, s.mode, s.partition, s.node, ntasks, PrintInt(ncpus), PrintInt(ngpus),
                    gpuLimit, gres, time, s.name));
  }

  /** The settings of an object, as `mutateObject`, `createConfigMap` and `isInjectable` read them. Whatever the order
      in which the maps are visited, success and result are those of the closed specification. */
  method GetJobInformation(obj: KubeObject, objectNamespace: string) returns (r: Result<JobInfo>)
    ensures r == if Resolvable(obj.View()) then Ok(InfoOf(obj.View(), objectNamespace)) else Err
  {
    var objectName := GetObjectName(obj.View());
    if objectName.None? { return Err; }
    var read := ResolveSettings(obj);
    if read.Err? { return Err; }
    ResolvedFits(obj.View());
    r := Summarise(read.value, objectNamespace, KindPrefix(obj.kind) + objectName.value, obj.spec.containers);
  }

  predicate Fits(x: int) { MIN_INT64 <= x <= MAX_INT64 }

  /** Declared numbers come from 64-bit parses. */
  predicate SettingsFit(s: Settings) { Fits(s.ncpus) && Fits(s.ngpus) }

  lemma OverlayFits(layer: map<string, string>, s: Settings)
    requires SettingsFit(s)
    ensures SettingsFit(Overlay(layer, s))
  {
  }

  lemma EnvOverlayFits(env: seq<EnvVar>, s: Settings)
    requires SettingsFit(s)
    ensures SettingsFit(EnvOverlay(env, s))
  {
  }

  lemma ResolvedFits(m: Manifest)
    ensures SettingsFit(Resolved(m))
  {
    OverlayFits(m.labels, DEFAULTS);
    OverlayFits(m.annotations, Overlay(m.labels, DEFAULTS));
    EnvOverlayFits(AllEnv(m.spec.containers), Placed(Overlay(m.annotations, Overlay(m.labels, DEFAULTS)), m.spec.nodeName));
  }
}
