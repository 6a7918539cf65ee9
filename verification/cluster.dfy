/** The three stores that the injector, the handlers and the watcher share, and what one pass of the watcher decides
    from listings of them. Only resources that carry the injector's selector labels are represented. */
module Cluster {
  import opened Wrappers
  import Text

  type Uuid = string
  type JobId = string

  const TO_BE_SET: JobId := "to-be-set"

  lemma DecimalIsNotToBeSet(id: JobId)
    requires Text.IsDecimal(id)
    ensures id != TO_BE_SET
  {
    assert Text.IsDigit(id[0]) && !Text.IsDigit(TO_BE_SET[0]);
  }

  datatype Key = Key(namespace: string, name: string)

  datatype Phase = Pending | Running | Succeeded | Failed | Unknown

  /** A pod with the label `k8s-slurm-injector/uuid` and the annotations `uuid` and `jobid`, each possibly absent. */
  datatype Pod = Pod(uuidLabel: Option<Uuid>, uuid: Option<Uuid>, jobid: Option<JobId>, phase: Phase) {
    predicate Live() { phase != Succeeded && phase != Failed }
  }

  /** A config-map with the label `app=k8s-slurm-injector`. */
  datatype ConfigMap = ConfigMap(uuidLabel: Option<Uuid>, uuid: Option<Uuid>, jobid: Option<JobId>) {
    predicate ToBeSet() { jobid == Some(TO_BE_SET) }

    predicate Published() { jobid.Some? && jobid.value != TO_BE_SET }
  }

  type Pods = map<Key, Pod>
  type ConfigMaps = map<Key, ConfigMap>
  type Jobs = map<JobId, Uuid>

  /** A config-map as the injector and the handlers write it: label and annotation carry one UUID. */
  function Written(uuid: Uuid, jobid: JobId): ConfigMap {
    ConfigMap(Some(uuid), Some(uuid), Some(jobid))
  }

  // ----- What a pass decides -----------------------------------------------------------------

  predicate HasLivePod(pods: Pods, u: Uuid) {
    exists k :: k in pods && pods[k].Live() && pods[k].uuid == Some(u)
  }

  predicate HasConfigMap(cms: ConfigMaps, u: Uuid) {
    exists k :: k in cms && cms[k].uuid == Some(u)
  }

  predicate OnSlurm(jobs: Jobs, u: Uuid) {
    exists id :: id in jobs && jobs[id] == u
  }

  /** A live pod with a job id but without a config-map. */
  predicate IsOrphan(pods: Pods, cms: ConfigMaps, k: Key)
    requires k in pods
  {
    pods[k].Live() && pods[k].uuid.Some? && pods[k].jobid.Some? && !HasConfigMap(cms, pods[k].uuid.value)
  }

  /** A config-map with a published job id but without a live pod. */
  predicate IsStale(pods: Pods, cms: ConfigMaps, k: Key)
    requires k in cms
  {
    cms[k].uuid.Some? && cms[k].Published() && !HasLivePod(pods, cms[k].uuid.value)
  }

  /** A config-map that keeps its UUID known: its job id is to be set, or its pod is live. */
  predicate IsKeeper(pods: Pods, cms: ConfigMaps, k: Key)
    requires k in cms
  {
    cms[k].uuid.Some? && cms[k].jobid.Some? && (cms[k].ToBeSet() || HasLivePod(pods, cms[k].uuid.value))
  }

  predicate Kept(pods: Pods, cms: ConfigMaps, u: Uuid) {
    exists k :: k in cms && cms[k].uuid == Some(u) && IsKeeper(pods, cms, k)
  }

  function Orphans(pods: Pods, cms: ConfigMaps): set<Key> {
    set k | k in pods && IsOrphan(pods, cms, k)
  }

  function StaleConfigMaps(pods: Pods, cms: ConfigMaps): set<Key> {
    set k | k in cms && IsStale(pods, cms, k)
  }

  /** Jobs whose UUID is not kept. */
  function ToCancel(jobs: Jobs, pods: Pods, cms: ConfigMaps): set<JobId> {
    set id | id in jobs && !Kept(pods, cms, jobs[id])
  }

  /** A config-map whose job id is published and whose pod is live, but whose UUID Slurm no longer lists. */
  predicate IsJobless(jobs: Jobs, pods: Pods, cms: ConfigMaps, k: Key)
    requires k in cms
  {
    cms[k].uuid.Some? && cms[k].Published() && HasLivePod(pods, cms[k].uuid.value) && !OnSlurm(jobs, cms[k].uuid.value)
  }

  function ToPurge(jobs: Jobs, pods: Pods, cms: ConfigMaps): set<Uuid> {
    set k | k in cms && IsJobless(jobs, pods, cms, k) :: cms[k].uuid.value
  }

  // ----- Resources that the injector did not write -----------------------------------------------

  /** A live pod with a job id of its own and a config-map of its UUID. */
  predicate IsKnownPod(pods: Pods, cms: ConfigMaps, k: Key, u: Uuid)
    requires k in pods
  {
    pods[k].Live() && pods[k].uuid == Some(u) && pods[k].jobid.Some? && HasConfigMap(cms, u)
  }

  /** The UUIDs of the dictionary that a pass builds, for any pods and config-maps. */
  predicate Known(pods: Pods, cms: ConfigMaps, u: Uuid) {
    Kept(pods, cms, u) || exists k :: k in pods && IsKnownPod(pods, cms, k, u)
  }

  /** Config-maps as the injector and the handlers write them. */
  predicate AllWritten(cms: ConfigMaps) {
    forall k :: k in cms ==> cms[k].uuid.Some? && cms[k].jobid.Some? && cms[k].uuidLabel == cms[k].uuid
  }

  predicate DistinctUuids(cms: ConfigMaps) {
    forall k, k' :: k in cms && k' in cms && cms[k].uuid == cms[k'].uuid ==> k == k'
  }

  /** For config-maps of the injector, a UUID is known if and only if its config-map is to be set or its pod is live. */
  lemma KnownIsKept(pods: Pods, cms: ConfigMaps, u: Uuid)
    requires AllWritten(cms)
    ensures Known(pods, cms, u) <==> Kept(pods, cms, u)
    ensures Known(pods, cms, u) <==>
            exists k :: k in cms && cms[k].uuid == Some(u) && (cms[k].ToBeSet() || HasLivePod(pods, u))
  {
  }
}
