/** Where every setting of a job comes from, in terms of the labels, annotations, node name and containers of an object,
    and without the functions by which module JobInformation computes it. */
module SettingSources {
  import opened Wrappers
  import opened Text
  import opened Objects
  import J = JobInformation

  /** The keys of labels and annotations. */
  lemma KeyNames()
    ensures J.MODE == "k8s-slurm-injector/node-specification-mode"
    ensures J.PARTITION == "k8s-slurm-injector/partition" && J.NODE == "k8s-slurm-injector/node"
    ensures J.NTASKS == "k8s-slurm-injector/ntasks" && J.NCPUS == "k8s-slurm-injector/ncpus"
    ensures J.NGPUS == "k8s-slurm-injector/ngpus" && J.TIME == "k8s-slurm-injector/time"
    ensures J.NAME == "k8s-slurm-injector/name" && J.UUID == "k8s-slurm-injector/uuid"
  {
  }

  /** The environment variables, and the names of other strings. */
  lemma VariableNames()
    ensures J.ENV_MODE == "K8S_SLURM_INJECTOR_NODE_SPECIFICATION_MODE"
    ensures J.ENV_PARTITION == "K8S_SLURM_INJECTOR_PARTITION" && J.ENV_NODE == "K8S_SLURM_INJECTOR_NODE"
    ensures J.ENV_NTASKS == "K8S_SLURM_INJECTOR_NTASKS" && J.ENV_NCPUS == "K8S_SLURM_INJECTOR_NCPUS"
    ensures J.ENV_NGPUS == "K8S_SLURM_INJECTOR_NGPUS" && J.ENV_TIME == "K8S_SLURM_INJECTOR_TIME"
    ensures J.ENV_NAME == "K8S_SLURM_INJECTOR_NAME"
    ensures J.NODE_PLACEHOLDER == "::K8S_SLURM_INJECTOR_NODE::" && J.GPU == "nvidia.com/gpu" && J.CPU == "cpu"
  {
  }

  // ----- The last entry of an environment variable -------------------------------------------------

  /** Entry `j` of container `i` sets the variable `name`. */
  predicate Sets(containers: seq<Container>, i: int, j: int, name: string) {
    0 <= i < |containers| && 0 <= j < |containers[i].env| && containers[i].env[j].name == name
  }

  /** The last entry for `name`, in the order of containers and of entries within one, has the value `v`. */
  ghost predicate EndsWith(containers: seq<Container>, name: string, v: string) {
    exists i, j ::
      && Sets(containers, i, j, name) && containers[i].env[j].value == v
      && forall i', j' :: Sets(containers, i', j', name) ==> i' < i || (i' == i && j' <= j)
  }

  ghost predicate Unset(containers: seq<Container>, name: string) {
    forall i, j :: !Sets(containers, i, j, name)
  }

  /** What the last entry says, if there is one. */
  ghost function FromEnv(containers: seq<Container>, name: string): Option<string> {
    if v :| EndsWith(containers, name, v) then Some(v) else None
  }

  lemma {:induction false} LastOfOne(env: seq<EnvVar>, name: string)
    ensures match J.LastEnv(env, name)
      case Some(v) => exists j :: 0 <= j < |env| && env[j].name == name && env[j].value == v &&
                                  forall j' :: j < j' < |env| ==> env[j'].name != name
      case None => forall j :: 0 <= j < |env| ==> env[j].name != name
  {
    if env != [] {
      var init := env[..|env| - 1];
      LastOfOne(init, name);
      if env[|env| - 1].name != name && J.LastEnv(init, name).Some? {
        var j :| 0 <= j < |init| && init[j].name == name && init[j].value == J.LastEnv(init, name).value &&
                 forall j' :: j < j' < |init| ==> init[j'].name != name;
        assert env[j] == init[j];
        assert forall j' :: j < j' < |init| ==> env[j'] == init[j'];
      }
    }
  }

  lemma {:induction false} LastOfBoth(env: seq<EnvVar>, env': seq<EnvVar>, name: string)
    ensures J.LastEnv(env + env', name) ==
            if J.LastEnv(env', name).Some? then J.LastEnv(env', name) else J.LastEnv(env, name)
  {
    if env' == [] {
      assert env + env' == env;
    } else {
      assert (env + env')[..|env + env'| - 1] == env + env'[..|env'| - 1];
      LastOfBoth(env, env'[..|env'| - 1], name);
    }
  }

  lemma InitSets(containers: seq<Container>, init: seq<Container>, name: string)
    requires containers != [] && init == containers[..|containers| - 1]
    ensures forall i, j :: Sets(init, i, j, name) <==> i < |init| && Sets(containers, i, j, name)
  {
  }

  lemma LastSets(containers: seq<Container>, name: string, v: string)
    requires containers != [] && J.LastEnv(containers[|containers| - 1].env, name) == Some(v)
    ensures EndsWith(containers, name, v)
  {
    var n := |containers| - 1;
    LastOfOne(containers[n].env, name);
    var j :| 0 <= j < |containers[n].env| && containers[n].env[j].name == name && containers[n].env[j].value == v &&
             forall j' :: j < j' < |containers[n].env| ==> containers[n].env[j'].name != name;
    assert Sets(containers, n, j, name);
  }

  lemma LastSetsNot(containers: seq<Container>, init: seq<Container>, name: string)
    requires containers != [] && init == containers[..|containers| - 1]
    requires J.LastEnv(containers[|containers| - 1].env, name) == None
    ensures Unset(init, name) ==> Unset(containers, name)
    ensures forall v :: EndsWith(init, name, v) ==> EndsWith(containers, name, v)
  {
    var n := |containers| - 1;
    LastOfOne(containers[n].env, name);
    InitSets(containers, init, name);
    forall v | EndsWith(init, name, v) ensures EndsWith(containers, name, v) {
      var i, j :| Sets(init, i, j, name) && init[i].env[j].value == v
                  && forall i', j' :: Sets(init, i', j', name) ==> i' < i || (i' == i && j' <= j);
      assert Sets(containers, i, j, name);
    }
  }

  lemma {:induction false} LastOfAll(containers: seq<Container>, name: string)
    ensures match J.LastEnv(J.AllEnv(containers), name)
      case Some(v) => EndsWith(containers, name, v)
      case None => Unset(containers, name)
  {
    if containers != [] {
      var n := |containers| - 1;
      LastOfAll(containers[..n], name);
      LastOfBoth(J.AllEnv(containers[..n]), containers[n].env, name);
      match J.LastEnv(containers[n].env, name)
      case Some(v) => LastSets(containers, name, v);
      case None => LastSetsNot(containers, containers[..n], name);
    }
  }

  lemma EndsWithOne(containers: seq<Container>, name: string, v: string, w: string)
    requires EndsWith(containers, name, v) && EndsWith(containers, name, w)
    ensures v == w
  {
  }

  lemma FromEnvIsLast(containers: seq<Container>, name: string)
    ensures J.LastEnv(J.AllEnv(containers), name) == FromEnv(containers, name)
  {
    LastOfAll(containers, name);
    if FromEnv(containers, name).Some? && J.LastEnv(J.AllEnv(containers), name).Some? {
      EndsWithOne(containers, name, FromEnv(containers, name).value, J.LastEnv(J.AllEnv(containers), name).value);
    }
  }

  // ----- The sources of a setting --------------------------------------------------------------------

  /** An annotation wins over a label of the same key. */
  function Declared(m: Manifest, key: string): Option<string> {
    if key in m.annotations then Some(m.annotations[key])
    else if key in m.labels then Some(m.labels[key])
    else None
  }

  /** Manual mode, before the environment is looked at. */
  predicate DeclaredManual(m: Manifest) { Declared(m, J.MODE) == Some("manual") }

  ghost function ModeOf(m: Manifest): string {
    match FromEnv(m.spec.containers, J.ENV_MODE)
    case Some(v) => v
    case None => if Declared(m, J.MODE) == Some("") then "auto"
                 else Declared(m, J.MODE).GetOr("")
  }

  ghost function NodeOf(m: Manifest): string {
    match FromEnv(m.spec.containers, J.ENV_NODE)
    case Some(v) => v
    case None => if !DeclaredManual(m) then J.NODE_PLACEHOLDER
                 else if m.spec.nodeName != "" then m.spec.nodeName
                 else Declared(m, J.NODE).GetOr("")
  }

  ghost function PartitionOf(m: Manifest): string {
    match FromEnv(m.spec.containers, J.ENV_PARTITION)
    case Some(v) => v
    case None => if DeclaredManual(m) then Declared(m, J.PARTITION).GetOr("") else ""
  }

  /** A text with an environment variable over a label or annotation, or nothing. */
  ghost function TextOf(m: Manifest, variable: string, key: string): Option<string> {
    match FromEnv(m.spec.containers, variable)
    case Some(v) => Some(v)
    case None => Declared(m, key)
  }

  /** A number with an environment variable over a label or annotation, or `default`. */
  ghost function NumberOf(m: Manifest, variable: string, key: string, default: int): int {
    match TextOf(m, variable, key)
    case Some(v) => ParseInt64(v)
    case None => default
  }

  function SumOf(ns: seq<int>): int { if ns == [] then 0 else ns[0] + SumOf(ns[1..]) }

  function AmountOf(r: Resources, key: string): int { if key in r then r[key] else 0 }

  /** One amount of every container. */
  function Amounts(containers: seq<Container>, amount: Container -> int): (ns: seq<int>)
    ensures |ns| == |containers| && forall i :: 0 <= i < |ns| ==> ns[i] == amount(containers[i])
  {
    seq(|containers|, i requires 0 <= i < |containers| => amount(containers[i]))
  }

  function LimitsOf(containers: seq<Container>): seq<int> { Amounts(containers, (c: Container) => AmountOf(c.limits, J.GPU)) }

  function RequestsOf(containers: seq<Container>): seq<int> { Amounts(containers, (c: Container) => AmountOf(c.requests, J.CPU)) }

  ghost function GpusOf(m: Manifest): int {
    Wrap64(NumberOf(m, J.ENV_NGPUS, J.NGPUS, 0) + SumOf(LimitsOf(m.spec.containers)))
  }

  ghost function CpusOf(m: Manifest): int {
    Wrap64(NumberOf(m, J.ENV_NCPUS, J.NCPUS, 0) + SumOf(RequestsOf(m.spec.containers)))
  }

  function NameOf(m: Manifest): string {
    (match m.kind case Pod => "pod-" case Job => "job-" case CronJob => "cronjob-" case Other => "") +
    if m.name != "" then m.name else m.generateName + PrintInt(m.generation)
  }

  // ----- What is resolved ------------------------------------------------------------------------------

  predicate KnownMode(v: string) { v == "auto" || v == "manual" }

  /** A label or annotation with the mode names a known mode or is empty. */
  predicate ModeOk(layer: map<string, string>) {
    J.MODE in layer ==> layer[J.MODE] == "" || KnownMode(layer[J.MODE])
  }

  /** Every environment entry with the mode names a known mode. */
  ghost predicate EnvModesOk(containers: seq<Container>) {
    forall i, j :: Sets(containers, i, j, J.ENV_MODE) ==>
      KnownMode(containers[i].env[j].value)
  }

  lemma EnvOkExactly(containers: seq<Container>)
    ensures J.EnvOk(J.AllEnv(containers)) <==> EnvModesOk(containers)
    decreases |containers|
  {
    if containers != [] {
      var n := |containers| - 1;
      var init := containers[..n];
      EnvOkExactly(init);
      J.EnvOkAppend(J.AllEnv(init), containers[n].env);
      assert forall i, j :: i < n ==> (Sets(containers, i, j, J.ENV_MODE) <==> Sets(init, i, j, J.ENV_MODE));
      if J.EnvOk(J.AllEnv(containers)) {
        forall i, j | Sets(containers, i, j, J.ENV_MODE) ensures KnownMode(containers[i].env[j].value) {
          if i < n { assert Sets(init, i, j, J.ENV_MODE); } else { assert containers[n].env[j] in containers[n].env; }
        }
      } else if J.EnvOk(J.AllEnv(init)) {
        var e :| e in containers[n].env && e.name == J.ENV_MODE && !J.ValidMode(e.value);
        var j :| 0 <= j < |containers[n].env| && containers[n].env[j] == e;
        assert Sets(containers, n, j, J.ENV_MODE);
      } else {
        var i, j :| Sets(init, i, j, J.ENV_MODE) && !KnownMode(init[i].env[j].value);
        assert Sets(containers, i, j, J.ENV_MODE);
      }
    }
  }

  // ----- One setting after the other -------------------------------------------------------------------

  lemma ModeSource(m: Manifest)
    ensures J.Resolved(m).mode == ModeOf(m)
  {
    FromEnvIsLast(m.spec.containers, J.ENV_MODE);
  }

  lemma NodeSource(m: Manifest)
    ensures J.Resolved(m).node == NodeOf(m)
  {
    FromEnvIsLast(m.spec.containers, J.ENV_NODE);
  }

  lemma PartitionSource(m: Manifest)
    ensures J.Resolved(m).partition == PartitionOf(m)
  {
    FromEnvIsLast(m.spec.containers, J.ENV_PARTITION);
  }

  /** One setting of type text through the three layers of the code, and the same for a number. */
  lemma LayeredText(m: Manifest, variable: string, key: string)
    ensures J.LastEnv(J.AllEnv(m.spec.containers), variable).GetOr(J.Lookup(m.annotations, key, J.Lookup(m.labels, key, ""))) ==
            TextOf(m, variable, key).GetOr("")
  {
    FromEnvIsLast(m.spec.containers, variable);
  }

  lemma LayeredNumber(m: Manifest, variable: string, key: string, default: int)
    ensures J.EnvInt(J.AllEnv(m.spec.containers), variable,
                     J.LookupInt(m.annotations, key, J.LookupInt(m.labels, key, default))) ==
            NumberOf(m, variable, key, default)
  {
    FromEnvIsLast(m.spec.containers, variable);
  }

  lemma NtasksSource(m: Manifest)
    ensures J.Resolved(m).ntasks == NumberOf(m, J.ENV_NTASKS, J.NTASKS, 1)
  {
    LayeredNumber(m, J.ENV_NTASKS, J.NTASKS, 1);
  }

  lemma NcpusSource(m: Manifest)
    ensures J.Resolved(m).ncpus == NumberOf(m, J.ENV_NCPUS, J.NCPUS, 0)
  {
    LayeredNumber(m, J.ENV_NCPUS, J.NCPUS, 0);
  }

  lemma NgpusSource(m: Manifest)
    ensures J.Resolved(m).ngpus == NumberOf(m, J.ENV_NGPUS, J.NGPUS, 0)
  {
    LayeredNumber(m, J.ENV_NGPUS, J.NGPUS, 0);
  }

  lemma TimeSource(m: Manifest)
    ensures J.Resolved(m).time == NumberOf(m, J.ENV_TIME, J.TIME, 0)
  {
    LayeredNumber(m, J.ENV_TIME, J.TIME, 0);
  }

  lemma NameSource(m: Manifest)
    ensures J.Resolved(m).name == TextOf(m, J.ENV_NAME, J.NAME).GetOr("")
  {
    var labels := J.Overlay(m.labels, J.DEFAULTS);
    var layers := J.Overlay(m.annotations, labels);
    OverlaidName(m.labels, J.DEFAULTS);
    OverlaidName(m.annotations, labels);
    EnvName(J.AllEnv(m.spec.containers), J.Placed(layers, m.spec.nodeName));
    LayeredText(m, J.ENV_NAME, J.NAME);
  }

  lemma OverlaidName(layer: map<string, string>, s: J.Settings)
    ensures J.Overlay(layer, s).name == J.Lookup(layer, J.NAME, s.name)
  {
  }

  lemma EnvName(env: seq<EnvVar>, s: J.Settings)
    ensures J.EnvOverlay(env, s).name == J.LastEnv(env, J.ENV_NAME).GetOr(s.name)
  {
  }

  lemma UuidSource(m: Manifest)
    ensures J.Resolved(m).uuid == Declared(m, J.UUID).GetOr("")
  {
  }

  lemma {:induction false} SumOfAppend(ns: seq<int>, n: int)
    ensures SumOf(ns + [n]) == SumOf(ns) + n
  {
    if ns != [] {
      assert (ns + [n])[1..] == ns[1..] + [n];
      SumOfAppend(ns[1..], n);
    }
  }

  lemma {:induction false} LimitsAreSum(containers: seq<Container>, limits: seq<int>)
    requires |limits| == |containers|
    requires forall i :: 0 <= i < |containers| ==> limits[i] == AmountOf(containers[i].limits, J.GPU)
    ensures J.GpuLimits(containers) == SumOf(limits)
  {
    if containers != [] {
      var n := |containers| - 1;
      LimitsAreSum(containers[..n], limits[..n]);
      SumOfAppend(limits[..n], limits[n]);
      assert limits[..n] + [limits[n]] == limits;
    }
  }

  lemma {:induction false} RequestsAreSum(containers: seq<Container>, requests: seq<int>)
    requires |requests| == |containers|
    requires forall i :: 0 <= i < |containers| ==> requests[i] == AmountOf(containers[i].requests, J.CPU)
    ensures J.CpuRequests(containers) == SumOf(requests)
  {
    if containers != [] {
      var n := |containers| - 1;
      RequestsAreSum(containers[..n], requests[..n]);
      SumOfAppend(requests[..n], requests[n]);
      assert requests[..n] + [requests[n]] == requests;
    }
  }

  lemma GpusSource(m: Manifest)
    ensures J.TotalGpus(J.Resolved(m), m.spec.containers) == GpusOf(m)
  {
    NgpusSource(m);
    LimitsAreSum(m.spec.containers, LimitsOf(m.spec.containers));
  }

  lemma CpusSource(m: Manifest)
    ensures Wrap64(J.Resolved(m).ncpus + J.CpuRequests(m.spec.containers)) == CpusOf(m)
  {
    NcpusSource(m);
    RequestsAreSum(m.spec.containers, RequestsOf(m.spec.containers));
  }

  /** When an object has settings at all. */
  lemma ResolvableExactly(m: Manifest)
    ensures J.Resolvable(m) <==>
      && (m.name != "" || m.generateName != "")
      && ModeOk(m.labels) && ModeOk(m.annotations) && EnvModesOk(m.spec.containers)
      && !(ModeOf(m) == "manual" && NodeOf(m) == "")
  {
    EnvOkExactly(m.spec.containers);
    ModeSource(m);
    NodeSource(m);
  }

  function Positive(n: int): string { if n > 0 then PrintInt(n) else "" }

  /** The settings as a job gets them: numbers printed, unless they say nothing, and one CPU at least. */
  function Rendered(namespace: string, objectName: string, mode: string, partition: string, node: string, ntasks: int,
                    ncpus: int, ngpus: int, gpuLimit: bool, time: int, name: string, uuid: string): J.JobInfo
  {
    J.JobInfo(uuid, namespace, objectName, mode, partition, node, Positive(ntasks),
              if ncpus == 0 then "1" else PrintInt(ncpus), PrintInt(ngpus), gpuLimit,
              if ngpus > 0 then "gpu:" + PrintInt(ngpus) else "", Positive(time), name)
  }

  lemma PrintedIsRendered(s: J.Settings, namespace: string, objectName: string, containers: seq<Container>)
    ensures J.Printed(s, namespace, objectName, containers) ==
            Rendered(namespace, objectName, s.mode, s.partition, s.node, s.ntasks,
                     Wrap64(s.ncpus + J.CpuRequests(containers)), J.TotalGpus(s, containers),
                     J.AnyGpuLimit(containers), s.time, s.name, s.uuid)
  {
    assert PrintInt(1) == "1";
  }

  lemma InfoIsRendered(m: Manifest, s: J.Settings, namespace: string)
    requires J.Resolvable(m) && s == J.Resolved(m)
    ensures J.InfoOf(m, namespace) ==
            Rendered(namespace, NameOf(m), s.mode, s.partition, s.node, s.ntasks,
                     Wrap64(s.ncpus + J.CpuRequests(m.spec.containers)), J.TotalGpus(s, m.spec.containers),
                     J.AnyGpuLimit(m.spec.containers), s.time, s.name, s.uuid)
  {
    PrintedIsRendered(s, namespace, NameOf(m), m.spec.containers);
  }

  /** The value of every setting, layer by layer. */
  lemma WhereSettingsComeFrom(m: Manifest, namespace: string)
    requires J.Resolvable(m)
    ensures J.InfoOf(m, namespace) ==
            Rendered(
              namespace, NameOf(m), ModeOf(m), PartitionOf(m), NodeOf(m), NumberOf(m, J.ENV_NTASKS, J.NTASKS, 1),
              CpusOf(m), GpusOf(m), exists c :: c in m.spec.containers && J.GPU in c.limits,
              NumberOf(m, J.ENV_TIME, J.TIME, 0), TextOf(m, J.ENV_NAME, J.NAME).GetOr(""), Declared(m, J.UUID).GetOr(""))
  {
    ModeSource(m);
    NodeSource(m);
    PartitionSource(m);
    NtasksSource(m);
    TimeSource(m);
    NameSource(m);
    UuidSource(m);
    GpusSource(m);
    CpusSource(m);
    InfoIsRendered(m, J.Resolved(m), namespace);
  }
}
