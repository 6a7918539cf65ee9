/** The invariant of the reconciliation protocol, and that every step keeps it under H1, H2 and H3. */
module ProtocolInvariant {
  import opened Wrappers
  import opened Text
  import opened Naming
  import opened Cluster
  import opened Protocol

  type Keys = map<Uuid, Key>

  /** `k` is the config-map key of UUID `u`. */
  predicate KeyOf(keys: Keys, u: Uuid, k: Key) { u in keys && keys[u] == k }

  /** A job of `u` was created at some earlier step. */
  predicate Created(launched: Jobs, u: Uuid) {
    exists id :: id in launched && launched[id] == u
  }

  /** The handlers find in the URL what the injector recorded. */
  predicate AdmissionOk(a: Admission, u: Uuid, k: Key) {
    a.uuid == u && AllOf(u, IsNameChar) && AllOf(a.namespace, IsNameChar) && KeyFor(a) == k
  }

  ghost predicate Admissions(admitted: map<Uuid, Admission>, keys: Keys) {
    admitted.Keys == keys.Keys && forall u {:trigger admitted[u]} :: u in admitted ==> AdmissionOk(admitted[u], u, keys[u])
  }

  ghost predicate Identities(keys: Keys) {
    forall u, v :: u in keys && v in keys && keys[u] == keys[v] ==> u == v
  }

  ghost predicate History(keys: Keys, stored: map<Uuid, Key>, requested: set<Uuid>) {
    && stored.Keys <= keys.Keys
    && requested <= stored.Keys
    && (forall u, v :: u in stored && v in stored && stored[u] == stored[v] ==> u == v)
  }

  ghost predicate JobHistory(requested: set<Uuid>, jobs: Jobs, launched: Jobs) {
    && (forall id :: id in jobs ==> id in launched && launched[id] == jobs[id])
    && (forall id :: id in launched ==> launched[id] in requested && IsDecimal(id))
    && (forall id, id' :: id in launched && id' in launched && launched[id] == launched[id'] ==> id == id')
  }

  /** Every config-map is the only one of its UUID, and its job id is to be set or that UUID's own. */
  predicate ConfigMapOk(keys: Keys, launched: Jobs, k: Key, cm: ConfigMap) {
    && cm.uuid.Some? && cm.jobid.Some? && cm.uuidLabel == cm.uuid
    && KeyOf(keys, cm.uuid.value, k)
    && (cm.Published() ==> cm.jobid.value in launched && launched[cm.jobid.value] == cm.uuid.value)
  }

  ghost predicate ConfigMapsOk(keys: Keys, launched: Jobs, cms: ConfigMaps) {
    forall k :: k in cms ==> ConfigMapOk(keys, launched, k, cms[k])
  }

  ghost predicate PodsOk(stored: map<Uuid, Key>, pods: Pods) {
    forall k :: k in pods ==>
      && pods[k].uuid.Some? && pods[k].uuidLabel == pods[k].uuid && pods[k].jobid == None
      && pods[k].uuid.value in stored && stored[pods[k].uuid.value] == k
  }

  /** What a request in progress may rely on. */
  predicate ThreadFits(keys: Keys, stored: map<Uuid, Key>, requested: set<Uuid>, launched: Jobs, cms: ConfigMaps, t: Thread) {
    var u := t.uuid;
    && KeyOf(keys, u, t.key)
    && (t.Injecting() ==> u !in stored)
    && (t.Sole() && !t.Injecting() ==> u in requested && forall id :: id in launched ==> launched[id] != u)
    && (t.StorePod? || t.SbatchRun? ==> t.key in cms)
    && (t.PublishGet? ==> t.id in launched && launched[t.id] == u)
    && (t.PublishPut? ==> t.id in launched && launched[t.id] == u
                          && t.copy.uuid == Some(u) && t.copy.uuidLabel == Some(u))
  }

  predicate ThreadOk(s: State, t: Thread) {
    ThreadFits(s.keys, s.stored, s.requested, s.launched, s.cms, t)
  }

  ghost predicate ThreadsFit(keys: Keys, stored: map<Uuid, Key>, requested: set<Uuid>, launched: Jobs, cms: ConfigMaps,
                             threads: map<nat, Thread>) {
    forall i :: i in threads ==> ThreadFits(keys, stored, requested, launched, cms, threads[i])
  }

  ghost predicate ThreadsOk(s: State) {
    ThreadsFit(s.keys, s.stored, s.requested, s.launched, s.cms, s.threads)
  }

  /** At most one request for a UUID may still write `to-be-set` or delete its config-map. */
  ghost predicate SoleWriters(threads: map<nat, Thread>) {
    forall i, j | i in threads && j in threads && threads[i].Sole() && threads[j].Sole() ::
      threads[i].uuid == threads[j].uuid ==> i == j
  }

  /** A live pod that has not requested its job, or has it, has its config-map. */
  predicate CoveredIn(keys: Keys, requested: set<Uuid>, jobs: Jobs, cms: ConfigMaps, u: Uuid) {
    u !in requested || OnSlurm(jobs, u) ==> u in keys && keys[u] in cms
  }

  predicate CoveredUuid(s: State, u: Uuid) {
    CoveredIn(s.keys, s.requested, s.jobs, s.cms, u)
  }

  ghost predicate AllCovered(keys: Keys, requested: set<Uuid>, jobs: Jobs, cms: ConfigMaps, pods: Pods) {
    forall k :: k in pods && pods[k].Live() && pods[k].uuid.Some? ==>
      CoveredIn(keys, requested, jobs, cms, pods[k].uuid.value)
  }

  ghost predicate Covered(s: State) {
    AllCovered(s.keys, s.requested, s.jobs, s.cms, s.pods)
  }

  // ----- What the watcher's local state means --------------------------------------------------

  /** Since Slurm was listed: a listed job was created; a live pod of a listed job has its config-map; and the job of a
      published config-map was listed, unless it has left. */
  ghost predicate WindowJobs(s: State, slurm: Jobs) {
    && (forall id :: id in slurm ==> id in s.launched && s.launched[id] == slurm[id])
    && (forall id :: id in slurm && HasLivePod(s.pods, slurm[id]) ==>
          slurm[id] in s.keys && s.keys[slurm[id]] in s.cms)
    && (forall k :: k in s.cms && s.cms[k].Published() ==> s.cms[k].jobid.value in slurm || s.cms[k].jobid.value !in s.jobs)
  }

  /** Since pods were listed: a pod that is live, of a listed job or of a published config-map, was listed as live. */
  ghost predicate WindowPods(s: State, slurm: Jobs, podList: Pods) {
    && (forall k :: k in podList ==> podList[k].jobid == None)
    && (forall id :: id in slurm && HasLivePod(s.pods, slurm[id]) ==> HasLivePod(podList, slurm[id]))
    && (forall k :: k in s.cms && s.cms[k].Published() && s.cms[k].uuid.Some? && HasLivePod(s.pods, s.cms[k].uuid.value) ==>
          HasLivePod(podList, s.cms[k].uuid.value))
  }

  predicate StaleOk(s: State, k: Key) {
    exists u :: u in s.keys && KeyOf(s.keys, u, k) && PodFinished(s, u) && Created(s.launched, u)
  }

  predicate CancelOk(s: State, id: JobId) {
    id in s.launched && PodFinished(s, s.launched[id])
  }

  ghost predicate PlanOk(s: State, p: Plan) {
    && p.orphans == {}
    && (forall k :: k in p.stale ==> StaleOk(s, k))
    && (forall id :: id in p.cancel ==> CancelOk(s, id))
    && (forall u :: u in p.purge ==> JobLeft(s, u))
  }

  ghost predicate WatcherOk(s: State) {
    match s.watcher
    case Idle => true
    case ListedJobs(slurm) => WindowJobs(s, slurm)
    case ListedPods(slurm, podList) => WindowJobs(s, slurm) && WindowPods(s, slurm, podList)
    case Acting(p) => PlanOk(s, p)
    case PurgingPods(p, u, keys) =>
      PlanOk(s, p) && JobLeft(s, u) && forall k :: k in keys ==> u in s.stored && s.stored[u] == k
    case PurgingConfigMaps(p, u, keys) =>
      PlanOk(s, p) && JobLeft(s, u) && forall k :: k in keys ==> KeyOf(s.keys, u, k)
  }

  ghost predicate Stores(s: State) {
    && Admissions(s.admitted, s.keys)
    && Identities(s.keys)
    && History(s.keys, s.stored, s.requested)
    && JobHistory(s.requested, s.jobs, s.launched)
    && ConfigMapsOk(s.keys, s.launched, s.cms)
    && PodsOk(s.stored, s.pods)
    && ThreadsOk(s)
    && SoleWriters(s.threads)
    && Covered(s)
  }

  ghost predicate Inv(s: State) {
    Stores(s) && WatcherOk(s)
  }

  lemma InitOk()
    ensures Inv(INITIAL)
  {
  }

  /** The handlers reach the config-map and the UUID of the admission through the filtered URL fields. */
  lemma ParsedAgrees(a: Admission)
    requires AllOf(a.uuid, IsNameChar) && AllOf(a.namespace, IsNameChar)
    ensures Parsed(a).uuid == a.uuid && KeyFor(Parsed(a)) == KeyFor(a)
  {
    FilterKeepsAllowed(a.uuid, IsNameChar);
    FilterKeepsAllowed(a.namespace, IsNameChar);
    ConfigMapNameOfFiltered(a.objectName);
  }
}
