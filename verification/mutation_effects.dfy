/** What a mutation leaves on an object, piece by piece and in the names that Kubernetes sees. */
module MutationEffects {
  import opened Wrappers
  import opened Naming
  import opened Objects
  import opened JobInformation
  import SettingSources
  import Text
  import Mutation

  /** The keys that a mutation writes; those of the settings are named in module SettingSources. */
  lemma WrittenNames()
    ensures Mutation.STATUS == "k8s-slurm-injector/status" && Mutation.NAMESPACE == "k8s-slurm-injector/namespace"
    ensures Mutation.OBJECT_NAME == "k8s-slurm-injector/object-name"
    ensures Mutation.GPU_LIMIT == "k8s-slurm-injector/gpu-limit" && Mutation.GRES == "k8s-slurm-injector/gres"
    ensures Mutation.JOBID == "k8s-slurm-injector/jobid"
  {
  }

  // ----- Annotations and labels --------------------------------------------------------------------

  predicate Has(layer: map<string, string>, key: string, value: string) { key in layer && layer[key] == value }

  lemma PlacementWritten(info: JobInfo)
    ensures var w := Mutation.WrittenAnnotations(info);
      Has(w, Mutation.STATUS, "injected") && Has(w, Mutation.NAMESPACE, info.namespace)
      && Has(w, Mutation.OBJECT_NAME, info.objectName) && Has(w, MODE, info.mode) && Has(w, PARTITION, info.partition)
      && Has(w, NODE, info.node) && Has(w, UUID, info.uuid)
  {
  }

  lemma AmountsWritten(info: JobInfo)
    ensures var w := Mutation.WrittenAnnotations(info);
      Has(w, NTASKS, info.ntasks) && Has(w, NCPUS, info.ncpus) && Has(w, NGPUS, info.ngpus)
      && Has(w, Mutation.GPU_LIMIT, if info.gpuLimit then "true" else "false") && Has(w, Mutation.GRES, info.gres)
      && Has(w, TIME, info.time) && Has(w, NAME, info.name)
  {
  }

  lemma KeysWritten(info: JobInfo)
    ensures Mutation.WrittenAnnotations(info).Keys ==
            {Mutation.STATUS, Mutation.NAMESPACE, Mutation.OBJECT_NAME, MODE, PARTITION, NODE, NTASKS, NCPUS, NGPUS,
             Mutation.GPU_LIMIT, Mutation.GRES, TIME, NAME, UUID}
  {
  }

  lemma LabelsWritten(info: JobInfo)
    ensures var w := Mutation.WrittenLabels(info);
      w.Keys == {Mutation.STATUS, Mutation.NAMESPACE, Mutation.OBJECT_NAME, UUID}
      && Has(w, Mutation.STATUS, "injected") && Has(w, Mutation.NAMESPACE, info.namespace)
      && Has(w, Mutation.OBJECT_NAME, info.objectName) && Has(w, UUID, info.uuid)
  {
  }

  function Under(layer: map<string, string>, key: string): Option<string> {
    if key in layer then Some(layer[key]) else None
  }

  lemma WrittenOver(layer: map<string, string>, written: map<string, string>, key: string)
    ensures Under(layer + written, key) == Under(if key in written then written else layer, key)
  {
  }

  /** The identity and the placement that a mutated object carries, whatever it carried before. */
  lemma IdentityWritten(m: Manifest, info: JobInfo, base: string)
    ensures var a := Mutation.MutatedBy(m, info, base).annotations;
      Has(a, Mutation.STATUS, "injected") && Has(a, Mutation.NAMESPACE, info.namespace)
      && Has(a, Mutation.OBJECT_NAME, info.objectName) && Has(a, MODE, info.mode) && Has(a, PARTITION, info.partition)
      && Has(a, NODE, info.node) && Has(a, UUID, info.uuid)
  {
    PlacementWritten(info);
  }

  /** The annotations of a mutated object name where its job goes, by the sources of the settings. */
  lemma PlacementOnThePod(m: Manifest, namespace: string, uuid: string, base: string)
    requires Resolvable(m)
    ensures var a := Mutation.Mutated(m, namespace, uuid, base).annotations;
      Has(a, Mutation.NAMESPACE, namespace) && Has(a, Mutation.OBJECT_NAME, SettingSources.NameOf(m))
      && Has(a, MODE, SettingSources.ModeOf(m)) && Has(a, PARTITION, SettingSources.PartitionOf(m))
      && Has(a, NODE, SettingSources.NodeOf(m)) && Has(a, UUID, uuid) && Has(a, Mutation.STATUS, "injected")
  {
    SettingSources.WhereSettingsComeFrom(m, namespace);
    IdentityWritten(m, Mutation.FreshInfo(m, namespace, uuid), base);
  }

  /** Annotations under other keys are as before. */
  lemma OtherAnnotationsAreKept(annotations: map<string, string>, info: JobInfo, key: string)
    requires key !in {Mutation.STATUS, Mutation.NAMESPACE, Mutation.OBJECT_NAME, MODE, PARTITION, NODE, NTASKS, NCPUS, NGPUS,
                      Mutation.GPU_LIMIT, Mutation.GRES, TIME, NAME, UUID}
    ensures Under(annotations + Mutation.WrittenAnnotations(info), key) == Under(annotations, key)
  {
    KeysWritten(info);
    WrittenOver(annotations, Mutation.WrittenAnnotations(info), key);
  }

  /** Labels under other keys are as before. */
  lemma OtherLabelsAreKept(labels: map<string, string>, info: JobInfo, key: string)
    requires key !in {Mutation.STATUS, Mutation.NAMESPACE, Mutation.OBJECT_NAME, UUID}
    ensures Under(labels + Mutation.WrittenLabels(info), key) == Under(labels, key)
  {
    LabelsWritten(info);
    WrittenOver(labels, Mutation.WrittenLabels(info), key);
  }

  // ----- The pod specification -----------------------------------------------------------------------

  /** The pod shares its processes and has the shared volume. With GPUs it runs under the runtime class `nvidia`, unless
      it names one, and only on nodes that have them; without GPUs both are as before. Where it runs is not changed. */
  lemma PodAround(spec: PodSpec, info: JobInfo, base: string, n: int)
    requires Text.Atoi(info.ngpus) == Some(n)
    ensures var spec' := Mutation.MutatedSpec(spec, info, base);
      && spec'.nodeName == spec.nodeName && spec'.shareProcessNamespace == Some(true)
      && spec'.volumes == ["k8s-slurm-injector-shared"] + spec.volumes
      && spec'.runtimeClassName == (if n > 0 && spec.runtimeClassName == None then Some("nvidia") else spec.runtimeClassName)
      && (n <= 0 ==> spec'.affinity == spec.affinity)
  {
  }

  /** The injected init-containers share the volume; the first learns the node it runs on. */
  lemma InitContainersAround(spec: PodSpec, info: JobInfo, base: string)
    ensures var c := Mutation.MutatedSpec(spec, info, base).initContainers;
      && c[0].name == "slurm-injector" && c[1].name == "slurm-pipeline"
      && c[0].env == [EnvVar("K8S_SLURM_INJECTOR_NODE", "")] && c[1].env == []
      && c[0].mounts == [VolumeMount("k8s-slurm-injector-shared", "/k8s-slurm-injector")] && c[1].mounts == c[0].mounts
      && c[0].limits == c[0].requests == c[1].limits == c[1].requests == map["cpu" := 1, "memory" := 104857600]
  {
  }

  /** A container gains the mount and the reference to its config-map, and only the sidecar gets a hook: the one that
      records its id under its own index. */
  lemma ContainerAround(spec: PodSpec, info: JobInfo, base: string, i: nat)
    requires i < |spec.containers|
    ensures var c, c' := spec.containers[i], Mutation.MutatedSpec(spec, info, base).containers[i];
      && c'.mounts == c.mounts + [VolumeMount("k8s-slurm-injector-shared", "/k8s-slurm-injector")]
      && c'.envFrom == c.envFrom + [EnvFrom(ConfigMapName(info.objectName), true)]
      && (c.name != "istio-proxy" ==> c'.lifecycle == c.lifecycle)
      && (c.name == "istio-proxy" ==> c'.lifecycle == Some(Lifecycle(Some(RecordSidecarId(i)), None)))
  {
  }
}
