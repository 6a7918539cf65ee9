/** Admission: which objects are injected, the config-map that precedes them, and repeated admission. */
module Injector {
  import opened Wrappers
  import opened Naming
  import opened Cluster
  import opened Servers
  import opened Objects
  import opened JobInformation
  import opened Mutation
  import SettingSources

  const INJECTION := "k8s-slurm-injector/injection"
  const ENV_INJECTION := "K8S_SLURM_INJECTOR_INJECTION"

  // ----- Which objects are injected ----------------------------------------------------------------

  predicate Says(layer: map<string, string>, key: string, value: string) { key in layer && layer[key] == value }

  /** An experiment and a suggestion label mark resources of Katib. */
  predicate OfKatib(labels: map<string, string>) { "experiment" in labels && "suggestion" in labels }

  predicate EnvSays(containers: seq<Container>, value: string) {
    exists c :: c in containers && EnvVar(ENV_INJECTION, value) in c.env
  }

  predicate TargetMatches(targets: seq<string>, matches: (string, string) -> bool, namespace: string) {
    exists t :: t in targets && matches(t, namespace)
  }

  predicate InjectionDisabled(m: Manifest) {
    || Says(m.labels, INJECTION, "disabled")
    || OfKatib(m.labels)
    || Says(m.annotations, STATUS, "injected")
    || m.kind == Other
    || EnvSays(m.spec.containers, "disabled")
  }

  predicate InjectionRequested(m: Manifest, targets: seq<string>, matches: (string, string) -> bool, namespace: string) {
    || Says(m.labels, INJECTION, "enabled")
    || TargetMatches(targets, matches, namespace)
    || EnvSays(m.spec.containers, "enabled")
  }

  datatype LabelScan = LabelScan(enabled: bool, disabled: bool, katib: bool)

  /** The loop over labels, in the arbitrary order of a Go map, which ends early at `disabled`. */
  method ScanLabels(labels: map<string, string>) returns (scan: LabelScan)
    ensures scan.disabled <==> Says(labels, INJECTION, "disabled")
    ensures !scan.disabled ==>
      scan.enabled == Says(labels, INJECTION, "enabled") && scan.katib == OfKatib(labels)
  {
    var enabled, experiment, suggestion := false, false, false;
    var rest := labels.Keys;
    while rest != {}
      invariant rest <= labels.Keys
      invariant enabled <==> INJECTION !in rest && Says(labels, INJECTION, "enabled")
      invariant INJECTION !in rest ==> !Says(labels, INJECTION, "disabled")
      invariant experiment <==> "experiment" in labels && "experiment" !in rest
      invariant suggestion <==> "suggestion" in labels && "suggestion" !in rest
    {
      var key :| key in rest;
      if key == INJECTION && labels[key] == "enabled" { enabled := true; }
      if key == INJECTION && labels[key] == "disabled" { return LabelScan(false, true, false); }
      if key == "experiment" { experiment := true; }
      if key == "suggestion" { suggestion := true; }
      rest := rest - {key};
    }
    scan := LabelScan(enabled, false, experiment && suggestion);
  }

  /** The loops over containers and their environments, which end early at `disabled`. */
  method ScanEnv(containers: seq<Container>) returns (enabled: bool, disabled: bool)
    ensures disabled <==> EnvSays(containers, "disabled")
    ensures !disabled ==> enabled == EnvSays(containers, "enabled")
  {
    enabled, disabled := false, false;
    for i := 0 to |containers|
      invariant !EnvSays(containers[..i], "disabled") && enabled == EnvSays(containers[..i], "enabled")
    {
      assert containers[..i + 1] == containers[..i] + [containers[i]];
      var c := containers[i];
      for j := 0 to |c.env|
        invariant EnvVar(ENV_INJECTION, "disabled") !in c.env[..j]
        invariant enabled <==> EnvSays(containers[..i], "enabled") || EnvVar(ENV_INJECTION, "enabled") in c.env[..j]
      {
        var e := c.env[j];
        assert c.env[..j + 1] == c.env[..j] + [e];
        assert e == EnvVar(e.name, e.value);
        if e.name == ENV_INJECTION && e.value == "enabled" { enabled := true; }
        if e.name == ENV_INJECTION && e.value == "disabled" {
          assert c in containers && e in c.env;
          return false, true;
        }
      }
      assert c.env[..|c.env|] == c.env;
    }
    assert containers[..|containers|] == containers;
  }

  method MatchTargets(targets: seq<string>, matches: (string, string) -> bool, namespace: string) returns (found: bool)
    ensures found == TargetMatches(targets, matches, namespace)
  {
    found := false;
    for i := 0 to |targets|
      invariant found == TargetMatches(targets[..i], matches, namespace)
    {
      assert targets[..i + 1] == targets[..i] + [targets[i]];
      if matches(targets[i], namespace) { found := true; }
    }
    assert targets[..|targets|] == targets;
  }

  /** An object is injected if something requests it and nothing forbids it, in whatever order the labels are visited.
      An empty `namespace` is replaced by what a lookup finds. */
  method IsInjectionEnabled(obj: KubeObject, targets: seq<string>, matches: (string, string) -> bool, namespace: string,
                            lookup: Result<string>) returns (enabled: bool)
    ensures var n := if namespace != "" then namespace else if lookup.Ok? then lookup.value else "";
      enabled <==> !InjectionDisabled(obj.View()) && InjectionRequested(obj.View(), targets, matches, n)
  {
    var scan := ScanLabels(obj.labels);
    if scan.disabled { return false; }
    if scan.katib { return false; }
    if STATUS in obj.annotations && obj.annotations[STATUS] == "injected" { return false; }
    var n := namespace;
    if n == "" && lookup.Ok? { n := lookup.value; }
    var matched := MatchTargets(targets, matches, n);
    if obj.kind == Other { return false; }
    var on, off := ScanEnv(obj.spec.containers);
    enabled := !off && (scan.enabled || matched || on);
  }

  // ----- Whether Slurm can take the object -----------------------------------------------------------

  /** Auto mode is always injectable; manual mode needs a node and a partition of the cluster. */
  function Injectable(m: Manifest, namespace: string, nodes: seq<string>, partitions: seq<string>): Result<bool> {
    if !Resolvable(m) then Err
    else
      var info := InfoOf(m, namespace);
      if info.mode != "manual" then Ok(true)
      else if info.node !in nodes then Ok(false)
      else if info.partition !in partitions then Err
      else Ok(true)
  }

  method Contains(items: seq<string>, item: string) returns (found: bool)
    ensures found <==> item in items
  {
    found := false;
    for i := 0 to |items|
      invariant found <==> item in items[..i]
    {
      if items[i] == item { found := true; }
    }
  }

  method IsInjectable(obj: KubeObject, namespace: string, nodes: seq<string>, partitions: seq<string>) returns (r: Result<bool>)
    ensures r == Injectable(obj.View(), namespace, nodes, partitions)
  {
    var read := GetJobInformation(obj, namespace);
    if read.Err? { return Err; }
    if read.value.mode != "manual" { return Ok(true); }
    var found := Contains(nodes, read.value.node);
    if !found { return Ok(false); }
    found := Contains(partitions, read.value.partition);
    if !found { return Err; }
    r := Ok(true);
  }

  // ----- The config-map --------------------------------------------------------------------------------

  function KeyOf(m: Manifest, namespace: string): Key
    requires Resolvable(m)
  {
    ConfigMapKey(namespace, InfoOf(m, namespace).objectName)
  }

  /** The config-maps once the one of an object is written, if that succeeds. */
  function CmsWith(cms: ConfigMaps, refused: set<Request>, m: Manifest, namespace: string): Option<ConfigMaps> {
    if Resolvable(m) && WriteRequests(cms, KeyOf(m, namespace)) !! refused then
      Some(cms[KeyOf(m, namespace) := Written(InfoOf(m, namespace).uuid, TO_BE_SET)])
    else None
  }

  /** `createConfigMap`: the object is read again, and its config-map created or replaced. */
  method WriteConfigMap(servers: Servers, obj: KubeObject, namespace: string) returns (ok: bool)
    modifies servers`cms
    ensures ok <==> CmsWith(old(servers.cms), servers.refused, obj.View(), namespace).Some?
    ensures servers.cms == CmsWith(old(servers.cms), servers.refused, obj.View(), namespace).GetOr(old(servers.cms))
  {
    var read := GetJobInformation(obj, namespace);
    if read.Err? { return false; }
    var k := ConfigMapKey(namespace, read.value.objectName);
    var cm := ConfigMap(Some(read.value.uuid), Some(read.value.uuid), Some(TO_BE_SET));
    ok := CreateOrUpdate(servers, k, cm);
  }

  // ----- One admission -----------------------------------------------------------------------------------

  /** What an injector is configured with: `matches` decides whether a target namespace matches a namespace. */
  datatype Config = Config(targets: seq<string>, matches: (string, string) -> bool, base: string)

  /** What an admission depends on besides the object: the result of the namespace lookup, the UUID that is drawn, and
      the nodes and partitions known at that time. */
  datatype Call = Call(namespace: Result<string>, uuid: string, nodes: seq<string>, partitions: seq<string>)

  datatype Decision = Skip | Fail | Proceed

  datatype Outcome = Admitted | Skipped | Rejected

  function Decide(m: Manifest, call: Call, config: Config): Decision {
    if m.kind == Other || Says(m.labels, INJECTION, "disabled") then Skip
    else if call.namespace.Err? then Fail
    else if InjectionDisabled(m) || !InjectionRequested(m, config.targets, config.matches, call.namespace.value) then Skip
    else
      match Injectable(m, call.namespace.value, call.nodes, call.partitions)
      case Err => Fail
      case Ok(injectable) => if injectable then Proceed else Skip
  }

  /** Something requests the injection of the object, and nothing forbids it. */
  predicate Enabled(m: Manifest, namespace: string, config: Config) {
    !InjectionDisabled(m) && InjectionRequested(m, config.targets, config.matches, namespace)
  }

  /** The admission is an error: an object that may be injected has no namespace, an enabled one has no settings, or an
      enabled one in manual mode names a node that Slurm has and a partition that it has not. */
  ghost predicate MustFail(m: Manifest, call: Call, config: Config) {
    if call.namespace.Err? then m.kind != Other && !Says(m.labels, INJECTION, "disabled")
    else
      && Enabled(m, call.namespace.value, config)
      && (!Resolvable(m) || (SettingSources.ModeOf(m) == "manual" && SettingSources.NodeOf(m) in call.nodes
                             && SettingSources.PartitionOf(m) !in call.partitions))
  }

  /** The admission mutates: the object is enabled and has settings and, in manual mode, a node and a partition that
      Slurm has. */
  ghost predicate MustMutate(m: Manifest, call: Call, config: Config) {
    && call.namespace.Ok? && Enabled(m, call.namespace.value, config) && Resolvable(m)
    && (SettingSources.ModeOf(m) == "manual" ==>
          SettingSources.NodeOf(m) in call.nodes && SettingSources.PartitionOf(m) in call.partitions)
  }

  /** The decision, in each of its three cases; in all others the object is left alone. */
  lemma DecidesExactly(m: Manifest, call: Call, config: Config)
    ensures Decide(m, call, config) == Fail <==> MustFail(m, call, config)
    ensures Decide(m, call, config) == Proceed <==> MustMutate(m, call, config)
  {
    if Resolvable(m) && call.namespace.Ok? {
      SettingSources.WhereSettingsComeFrom(m, call.namespace.value);
    }
  }

  /** The key, the variable and the labels that decide about injection. */
  lemma InjectionNames()
    ensures INJECTION == "k8s-slurm-injector/injection" && ENV_INJECTION == "K8S_SLURM_INJECTOR_INJECTION"
    ensures STATUS == "k8s-slurm-injector/status"
  {
  }

  /** What forbids an injection: a label, the labels of Katib, an annotation, the kind, or a variable. */
  lemma ForbiddenExactly(m: Manifest)
    ensures InjectionDisabled(m) <==>
      || (INJECTION in m.labels && m.labels[INJECTION] == "disabled")
      || ("experiment" in m.labels && "suggestion" in m.labels)
      || (STATUS in m.annotations && m.annotations[STATUS] == "injected")
      || m.kind == Other
      || exists i, j :: SettingSources.Sets(m.spec.containers, i, j, ENV_INJECTION)
                        && m.spec.containers[i].env[j].value == "disabled"
  {
    EnvSaysExactly(m.spec.containers, "disabled");
  }

  /** What requests an injection: a label, a matching target namespace, or a variable. */
  lemma RequestedExactly(m: Manifest, targets: seq<string>, matches: (string, string) -> bool, namespace: string)
    ensures InjectionRequested(m, targets, matches, namespace) <==>
      || (INJECTION in m.labels && m.labels[INJECTION] == "enabled")
      || (exists i :: 0 <= i < |targets| && matches(targets[i], namespace))
      || exists i, j :: SettingSources.Sets(m.spec.containers, i, j, ENV_INJECTION)
                        && m.spec.containers[i].env[j].value == "enabled"
  {
    EnvSaysExactly(m.spec.containers, "enabled");
  }

  lemma EnvSaysExactly(containers: seq<Container>, value: string)
    ensures EnvSays(containers, value) <==>
            exists i, j :: SettingSources.Sets(containers, i, j, ENV_INJECTION) && containers[i].env[j].value == value
  {
    if i, j :| SettingSources.Sets(containers, i, j, ENV_INJECTION) && containers[i].env[j].value == value {
      assert containers[i] in containers && containers[i].env[j] == EnvVar(ENV_INJECTION, value);
    }
    if EnvSays(containers, value) {
      var c :| c in containers && EnvVar(ENV_INJECTION, value) in c.env;
      var i :| 0 <= i < |containers| && containers[i] == c;
      var j :| 0 <= j < |c.env| && c.env[j] == EnvVar(ENV_INJECTION, value);
      assert SettingSources.Sets(containers, i, j, ENV_INJECTION);
    }
  }

  lemma MutateOnlyMutable(m: Manifest, call: Call, config: Config)
    requires Decide(m, call, config) == Proceed
    ensures call.namespace.Ok? && Mutable(m)
  {
  }

  /** The object after an admission. */
  function AfterCall(m: Manifest, call: Call, config: Config): Manifest {
    if Decide(m, call, config) == Proceed then
      MutateOnlyMutable(m, call, config);
      Mutated(m, call.namespace.value, call.uuid, config.base)
    else m
  }

  /** The key of the config-map is the one of the protocol, before and after the mutation. */
  lemma KeyIsKept(m: Manifest, namespace: string, uuid: string, base: string)
    requires Resolvable(m)
    ensures var m' := Mutated(m, namespace, uuid, base);
      Resolvable(m') && KeyOf(m', namespace) == KeyOf(m, namespace) && InfoOf(m', namespace).uuid == uuid
  {
    ReadAgain(m, namespace, uuid, base);
  }

  /** The config-maps once the one of an object is written with a new UUID, if that succeeds. */
  function CmsWithNew(cms: ConfigMaps, refused: set<Request>, m: Manifest, namespace: string, uuid: string): Option<ConfigMaps>
    requires Resolvable(m)
  {
    if WriteRequests(cms, KeyOf(m, namespace)) !! refused then Some(cms[KeyOf(m, namespace) := Written(uuid, TO_BE_SET)])
    else None
  }

  /** The mutation of an object that the checks let pass. */
  method Mutate(obj: KubeObject, namespace: string, uuid: string, base: string)
    requires Mutable(obj.View())
    modifies obj
    ensures obj.View() == Mutated(old(obj.View()), namespace, uuid, base)
  {
    var _ := MutateObject(obj, namespace, uuid, base);
  }

  /** The config-map of an object that has kept its key and carries a new UUID. */
  method WriteNewConfigMap(servers: Servers, obj: KubeObject, namespace: string, ghost m: Manifest, ghost uuid: string)
    returns (ok: bool)
    requires Resolvable(m) && Resolvable(obj.View())
    requires KeyOf(obj.View(), namespace) == KeyOf(m, namespace) && InfoOf(obj.View(), namespace).uuid == uuid
    modifies servers`cms
    ensures ok <==> CmsWithNew(old(servers.cms), servers.refused, m, namespace, uuid).Some?
    ensures servers.cms == CmsWithNew(old(servers.cms), servers.refused, m, namespace, uuid).GetOr(old(servers.cms))
  {
    ok := WriteConfigMap(servers, obj, namespace);
  }

  class SidecarInjector {
    var nodes: seq<string>
    var partitions: seq<string>
    const config: Config

    constructor (nodes: seq<string>, partitions: seq<string>, config: Config)
      ensures this.nodes == nodes && this.partitions == partitions && this.config == config
    {
      this.nodes, this.partitions, this.config := nodes, partitions, config;
    }

    /** The checks that precede a mutation. */
    method Check(obj: KubeObject, namespace: Result<string>, ghost uuid: string) returns (decision: Decision)
      ensures decision == Decide(obj.View(), Call(namespace, uuid, nodes, partitions), config)
    {
      if obj.kind == Other { return Skip; }
      if INJECTION in obj.labels && obj.labels[INJECTION] == "disabled" { return Skip; }
      if namespace.Err? { return Fail; }
      var enabled := IsInjectionEnabled(obj, config.targets, config.matches, namespace.value, namespace);
      if !enabled { return Skip; }
      var injectable := IsInjectable(obj, namespace.value, nodes, partitions);
      if injectable.Err? { return Fail; }
      if !injectable.value { return Skip; }
      decision := Proceed;
    }

    /** The mutation, and then the config-map under the key that sbatch will use, with the UUID that is now on the
        object. */
    method MutateAndWrite(servers: Servers, obj: KubeObject, namespace: string, uuid: string) returns (ok: bool)
      requires Mutable(obj.View())
      modifies obj, servers`cms
      ensures obj.View() == Mutated(old(obj.View()), namespace, uuid, config.base)
      ensures ok <==> CmsWithNew(old(servers.cms), servers.refused, old(obj.View()), namespace, uuid).Some?
      ensures servers.cms ==
              CmsWithNew(old(servers.cms), servers.refused, old(obj.View()), namespace, uuid).GetOr(old(servers.cms))
    {
      ghost var m := obj.View();
      Mutate(obj, namespace, uuid, config.base);
      KeyIsKept(m, namespace, uuid, config.base);
      ok := WriteNewConfigMap(servers, obj, namespace, m, uuid);
    }

    /** `Inject`: the object is mutated if the admission decides so, and then its config-map is written. An error leaves
        the config-maps alone. */
    method Inject(servers: Servers, obj: KubeObject, namespace: Result<string>, uuid: string) returns (outcome: Outcome)
      modifies obj, servers`cms
      ensures var m, call := old(obj.View()), Call(namespace, uuid, nodes, partitions);
        && obj.View() == AfterCall(m, call, config)
        && (Decide(m, call, config) == Skip ==> outcome == Skipped && servers.cms == old(servers.cms))
        && (Decide(m, call, config) == Fail ==> outcome == Rejected && servers.cms == old(servers.cms))
        && (Decide(m, call, config) == Proceed ==>
              namespace.Ok? && Mutable(m)
              && var k := KeyOf(m, namespace.value);
              outcome == (if WriteRequests(old(servers.cms), k) !! servers.refused then Admitted else Rejected)
              && servers.cms ==
                 if outcome == Admitted then old(servers.cms)[k := Written(uuid, TO_BE_SET)] else old(servers.cms))
      ensures var m, call := old(obj.View()), Call(namespace, uuid, nodes, partitions);
        && (outcome == Skipped <==> !MustFail(m, call, config) && !MustMutate(m, call, config))
        && (outcome == Rejected <==>
              MustFail(m, call, config) ||
              (MustMutate(m, call, config)
               && !(WriteRequests(old(servers.cms), KeyOf(m, namespace.value)) !! servers.refused)))
    {
      ghost var m, call := obj.View(), Call(namespace, uuid, nodes, partitions);
      DecidesExactly(m, call, config);
      var decision := Check(obj, namespace, uuid);
      if decision == Skip { return Skipped; }
      if decision == Fail { return Rejected; }
      MutateOnlyMutable(m, call, config);
      var ok := MutateAndWrite(servers, obj, namespace.value, uuid);
      outcome := if ok then Admitted else Rejected;
    }
  }

  // ----- Repeated admission --------------------------------------------------------------------------------

  function Fold<S, C>(s: S, calls: seq<C>, step: (S, C) -> S): S {
    if calls == [] then s else Fold(step(s, calls[0]), calls[1..], step)
  }

  /** A step that only acts when its guard holds, and after which the guard holds for no call. */
  ghost predicate ActsOnce<S(!new), C(!new)>(acts: (S, C) -> bool, step: (S, C) -> S) {
    && (forall s, c :: !acts(s, c) ==> step(s, c) == s)
    && (forall s, c, c' :: acts(s, c) ==> !acts(step(s, c), c'))
  }

  lemma {:induction false} FoldUnchanged<S(!new), C(!new)>(s: S, calls: seq<C>, acts: (S, C) -> bool, step: (S, C) -> S)
    requires ActsOnce(acts, step) && forall c :: c in calls ==> !acts(s, c)
    ensures Fold(s, calls, step) == s
  {
    if calls != [] {
      FoldUnchanged(s, calls[1..], acts, step);
    }
  }

  lemma {:induction false} FoldActsOnce<S(!new), C(!new)>(s: S, calls: seq<C>, acts: (S, C) -> bool, step: (S, C) -> S,
                                                        first: nat)
    requires ActsOnce(acts, step) && first < |calls| && acts(s, calls[first])
    requires forall i :: 0 <= i < first ==> !acts(s, calls[i])
    ensures Fold(s, calls, step) == step(s, calls[first])
  {
    if first == 0 {
      FoldUnchanged(step(s, calls[0]), calls[1..], acts, step);
    } else {
      assert !acts(s, calls[0]);
      forall i | 0 <= i < first - 1 ensures !acts(s, calls[1..][i]) {
        assert calls[1..][i] == calls[i + 1];
      }
      FoldActsOnce(s, calls[1..], acts, step, first - 1);
    }
  }

  lemma MutatedIsDisabled(m: Manifest, namespace: string, uuid: string, base: string)
    requires Resolvable(m)
    ensures InjectionDisabled(Mutated(m, namespace, uuid, base))
  {
    WrittenIdentity(m, FreshInfo(m, namespace, uuid), base);
  }

  predicate Mutates(m: Manifest, call: Call, config: Config) { Decide(m, call, config) == Proceed }

  lemma MutatesOnce(m: Manifest, call: Call, call': Call, config: Config)
    requires Mutates(m, call, config)
    ensures !Mutates(AfterCall(m, call, config), call', config)
  {
    MutateOnlyMutable(m, call, config);
    MutatedIsDisabled(m, call.namespace.value, call.uuid, config.base);
  }

  lemma AdmissionActsOnce(config: Config)
    ensures ActsOnce((m, call) => Mutates(m, call, config), (m, call) => AfterCall(m, call, config))
  {
    forall m, call, call' | Mutates(m, call, config) ensures !Mutates(AfterCall(m, call, config), call', config) {
      MutatesOnce(m, call, call', config);
    }
  }

  function AfterCalls(m: Manifest, calls: seq<Call>, config: Config): Manifest {
    Fold(m, calls, (m, call) => AfterCall(m, call, config))
  }

  /** An admission mutates exactly the objects that are enabled and resolvable and, in manual mode, name a node and a
      partition that Slurm has. */
  lemma MutatesExactly(m: Manifest, call: Call, config: Config)
    ensures Mutates(m, call, config) <==>
      && call.namespace.Ok?
      && !InjectionDisabled(m)
      && InjectionRequested(m, config.targets, config.matches, call.namespace.value)
      && Resolvable(m)
      && (InfoOf(m, call.namespace.value).mode == "manual" ==>
            InfoOf(m, call.namespace.value).node in call.nodes && InfoOf(m, call.namespace.value).partition in call.partitions)
  {
  }

  /** However often an object is admitted, it is mutated by the first admission that decides so and by no other. */
  lemma OnlyTheFirstMutates(m: Manifest, calls: seq<Call>, config: Config, first: nat)
    requires first < |calls| && Mutates(m, calls[first], config)
    requires forall i :: 0 <= i < first ==> !Mutates(m, calls[i], config)
    ensures AfterCalls(m, calls, config) == AfterCall(m, calls[first], config)
  {
    AdmissionActsOnce(config);
    FoldActsOnce(m, calls, (m, call) => Mutates(m, call, config), (m, call) => AfterCall(m, call, config), first);
  }

  lemma NoneMutates(m: Manifest, calls: seq<Call>, config: Config)
    requires forall c :: c in calls ==> !Mutates(m, c, config)
    ensures AfterCalls(m, calls, config) == m
  {
    AdmissionActsOnce(config);
    FoldUnchanged(m, calls, (m, call) => Mutates(m, call, config), (m, call) => AfterCall(m, call, config));
  }

  /** What one mutation adds to a pod specification. */
  ghost predicate AddedOnce(spec: PodSpec, spec': PodSpec, configMapName: string) {
    && |spec'.initContainers| == |spec.initContainers| + 2 && spec'.initContainers[2..] == spec.initContainers
    && spec'.initContainers[0].script.InjectorScript? && spec'.initContainers[1].script.PipelineScript?
    && spec'.volumes == [SHARED] + spec.volumes
    && |spec'.containers| == |spec.containers|
    && forall i :: 0 <= i < |spec.containers| ==>
         && spec'.containers[i].mounts == spec.containers[i].mounts + [SHARED_MOUNT]
         && spec'.containers[i].envFrom == spec.containers[i].envFrom + [EnvFrom(configMapName, true)]
  }

  lemma MutationAddsOnce(spec: PodSpec, info: JobInfo, base: string)
    ensures AddedOnce(spec, MutatedSpec(spec, info, base), ConfigMapName(info.objectName))
  {
  }

  /** After any number of admissions an object is as it was, or it has gained two init-containers, one volume, and one
      mount and one reference to its config-map per container. */
  lemma RepeatedAdmission(m: Manifest, calls: seq<Call>, config: Config)
    ensures var m' := AfterCalls(m, calls, config);
      if exists c :: c in calls && Mutates(m, c, config)
      then Mutable(m) && AddedOnce(m.spec, m'.spec, ConfigMapName(KindPrefix(m.kind) + GetObjectName(m).value))
      else m' == m
  {
    if exists c :: c in calls && Mutates(m, c, config) {
      var first := FirstOf(calls, c => Mutates(m, c, config));
      var call := calls[first];
      OnlyTheFirstMutates(m, calls, config, first);
      MutateOnlyMutable(m, call, config);
      MutationAddsOnce(m.spec, FreshInfo(m, call.namespace.value, call.uuid), config.base);
    } else {
      NoneMutates(m, calls, config);
    }
  }

  lemma FirstOf<C>(calls: seq<C>, p: C -> bool) returns (first: nat)
    requires exists c :: c in calls && p(c)
    ensures first < |calls| && p(calls[first])
    ensures forall i :: 0 <= i < first ==> !p(calls[i])
  {
    var c :| c in calls && p(c);
    var last :| 0 <= last < |calls| && calls[last] == c;
    first := 0;
    while !p(calls[first])
      invariant first <= last && forall i :: 0 <= i < first ==> !p(calls[i])
      decreases last - first
    {
      first := first + 1;
    }
  }
}
