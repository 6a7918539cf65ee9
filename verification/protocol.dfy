/** The reconciliation protocol between Kubernetes and Slurm, one step for each request to a store.
    Four kinds of actor interleave: admission requests, sbatch and environment requests, the environment (pods and jobs
    that end), and one watcher that acts on listings it took at earlier steps. */
module Protocol {
  import opened Wrappers
  import opened Text
  import opened Naming
  import opened Cluster

  /** What `mutateObject` writes on a pod and every request URL carries. */
  datatype Admission = Admission(namespace: string, objectName: string, uuid: Uuid)

  function KeyFor(a: Admission): Key { ConfigMapKey(a.namespace, a.objectName) }

  /** The admission as a handler reads it from a URL: every field goes through the character filter. */
  function Parsed(a: Admission): Admission {
    Admission(KeepName(a.namespace), KeepName(a.objectName), KeepName(a.uuid))
  }

  /** A request in progress, named after the store access it makes next; UUID and config-map key are computed when it
      starts. */
  datatype Thread =
    // createConfigMap: get, then create or update; then the API server stores the admitted pod
    | InjectGet(uuid: Uuid, key: Key)
    | InjectPut(uuid: Uuid, key: Key, found: bool)
    | StorePod(uuid: Uuid, key: Key)
    // sbatch handler: get, then create or update; then SBatch; then publish the job id or roll back
    | SbatchGet(uuid: Uuid, key: Key)
    | SbatchPut(uuid: Uuid, key: Key, found: bool)
    | SbatchRun(uuid: Uuid, key: Key)
    | Rollback(uuid: Uuid, key: Key)
    // publication of a job id, by the sbatch handler and by the environment handler
    | PublishGet(uuid: Uuid, key: Key, id: JobId)
    | PublishPut(uuid: Uuid, key: Key, id: JobId, copy: ConfigMap)
  {
    /** A request that may still write `to-be-set` or delete the config-map. */
    predicate Sole() { !PublishGet? && !PublishPut? }

    predicate Injecting() { InjectGet? || InjectPut? || StorePod? }
  }

  /** What a pass still has to do, in the order of the code. */
  datatype Plan = Plan(orphans: set<Key>, stale: set<Key>, cancel: set<JobId>, purge: set<Uuid>)

  datatype Watcher =
    | Idle
    | ListedJobs(slurm: Jobs)
    | ListedPods(slurm: Jobs, podList: Pods)
    | Acting(plan: Plan)
    | PurgingPods(plan: Plan, u: Uuid, podKeys: set<Key>)
    | PurgingConfigMaps(plan: Plan, u: Uuid, cmKeys: set<Key>)
  {
    /** The publication window: Slurm has been listed, the config-maps have not. */
    predicate InWindow() { ListedJobs? || ListedPods? }
  }

  /** The stores, the requests in progress, the watcher, and the history: every admission and its config-map key, the
      pod stored for a UUID, the UUIDs whose job was requested, and the owner of every job that was ever created. */
  datatype State = State(
    cms: ConfigMaps, pods: Pods, jobs: Jobs,
    threads: map<nat, Thread>, watcher: Watcher,
    admitted: map<Uuid, Admission>, keys: map<Uuid, Key>, stored: map<Uuid, Key>, requested: set<Uuid>, launched: Jobs)

  const INITIAL := State(map[], map[], map[], map[], Idle, map[], map[], map[], {}, map[])

  datatype Step =
    // requests
    | Admit(tid: nat, a: Admission)
    | RequestSbatch(tid: nat, u: Uuid)
    | RequestEnv(tid: nat, u: Uuid, id: JobId)
    | Call(tid: nat)
    | Store(tid: nat, pod: Key, jobid: Option<JobId>)
    | SbatchOk(tid: nat, id: JobId)
    | SbatchFail(tid: nat, created: Option<JobId>)
    | Abort(tid: nat)
    // environment
    | PodPhase(pod: Key, phase: Phase)
    | PodGone(pod: Key)
    | JobEnds(id: JobId)
    // watcher
    | ListJobs
    | ListPods
    | ListConfigMaps
    | ListFails
    | DeleteOrphan(pod: Key, graceful: bool)
    | DeleteStale(cm: Key)
    | Cancel(id: JobId)
    | PurgeListPods(u: Uuid)
    | PurgePod(pod: Key, graceful: bool)
    | PurgeListConfigMaps
    | PurgeConfigMap(cm: Key)
    | PurgeEnds
    | Skip(done: Plan)
    | EndPass

  predicate Smaller(p: Plan, q: Plan) {
    p.orphans <= q.orphans && p.stale <= q.stale && p.cancel <= q.cancel && p.purge <= q.purge
  }

  predicate Enabled(s: State, step: Step) {
    match step
    case Admit(tid, a) => tid !in s.threads
    case RequestSbatch(tid, u) => tid !in s.threads && u in s.stored && u in s.admitted
    case RequestEnv(tid, u, id) =>
      tid !in s.threads && u in s.stored && u in s.admitted && id in s.launched && s.launched[id] == u
    case Call(tid) => tid in s.threads && !s.threads[tid].StorePod? && !s.threads[tid].SbatchRun?
    case Store(tid, pod, _) => tid in s.threads && s.threads[tid].StorePod? && pod !in s.pods
    case SbatchOk(tid, id) => tid in s.threads && s.threads[tid].SbatchRun? && id !in s.launched
    case SbatchFail(tid, created) =>
      tid in s.threads && s.threads[tid].SbatchRun? && (created.Some? ==> created.value !in s.launched)
    case Abort(tid) => tid in s.threads
    case PodPhase(k, _) => k in s.pods && s.pods[k].Live()
    case PodGone(k) => k in s.pods
    case JobEnds(id) => id in s.jobs
    case ListJobs => s.watcher.Idle?
    case ListPods => s.watcher.ListedJobs?
    case ListConfigMaps => s.watcher.ListedPods?
    case ListFails => s.watcher.InWindow()
    case DeleteOrphan(k, _) => s.watcher.Acting? && k in s.watcher.plan.orphans
    case DeleteStale(k) => s.watcher.Acting? && s.watcher.plan.orphans == {} && k in s.watcher.plan.stale
    case Cancel(id) =>
      && s.watcher.Acting? && s.watcher.plan.orphans == {} && s.watcher.plan.stale == {} && id in s.watcher.plan.cancel
    case PurgeListPods(u) =>
      && s.watcher.Acting? && s.watcher.plan.orphans == {} && s.watcher.plan.stale == {} && s.watcher.plan.cancel == {}
      && u in s.watcher.plan.purge
    case PurgePod(k, _) => s.watcher.PurgingPods? && k in s.watcher.podKeys
    case PurgeListConfigMaps => s.watcher.PurgingPods? && s.watcher.podKeys == {}
    case PurgeConfigMap(k) => s.watcher.PurgingConfigMaps? && k in s.watcher.cmKeys
    case PurgeEnds => s.watcher.PurgingPods? || s.watcher.PurgingConfigMaps?
    case Skip(p) => s.watcher.Acting? && Smaller(p, s.watcher.plan)
    case EndPass => s.watcher.Acting? && s.watcher.plan == Plan({}, {}, {}, {})
  }

  /** The store request that a thread makes next, and its answer: `Create` of an existing and `Update` of a missing
      config-map are errors, on which the request ends. Nothing but config-maps and threads changes. */
  function CallThread(s: State, tid: nat): (t: State)
    requires Enabled(s, Call(tid))
    ensures t == s.(cms := t.cms, threads := t.threads)
  {
    var ended := s.threads - {tid};
    match s.threads[tid]
    case InjectGet(u, k) => s.(threads := s.threads[tid := InjectPut(u, k, k in s.cms)])
    case InjectPut(u, k, found) =>
      if found == (k in s.cms) then
        s.(cms := s.cms[k := Written(u, TO_BE_SET)], threads := s.threads[tid := StorePod(u, k)])
      else s.(threads := ended)
    case SbatchGet(u, k) => s.(threads := s.threads[tid := SbatchPut(u, k, k in s.cms)])
    case SbatchPut(u, k, found) =>
      if found == (k in s.cms) then
        s.(cms := s.cms[k := Written(u, TO_BE_SET)], threads := s.threads[tid := SbatchRun(u, k)])
      else s.(threads := ended)
    case Rollback(u, k) => s.(cms := s.cms - {k}, threads := ended)
    case PublishGet(u, k, id) =>
      if k in s.cms then s.(threads := s.threads[tid := PublishPut(u, k, id, s.cms[k])])
      else s.(threads := ended)
    case PublishPut(u, k, id, copy) =>
      if k in s.cms then s.(cms := s.cms[k := copy.(jobid := Some(id))], threads := ended)
      else s.(threads := ended)
  }

  /** A deleted pod is removed, or kept by the API server until it has terminated. */
  function DeletePod(pods: Pods, k: Key, graceful: bool): Pods {
    if graceful then pods else pods - {k}
  }

  function Apply(s: State, step: Step): State
    requires Enabled(s, step)
  {
    match step
    case Admit(tid, a) =>
      s.(threads := s.threads[tid := InjectGet(a.uuid, KeyFor(a))],
         admitted := s.admitted[a.uuid := a], keys := s.keys[a.uuid := KeyFor(a)])
    case RequestSbatch(tid, u) =>
      var a := Parsed(s.admitted[u]);
      s.(threads := s.threads[tid := SbatchGet(a.uuid, KeyFor(a))], requested := s.requested + {u})
    case RequestEnv(tid, u, id) =>
      var a := Parsed(s.admitted[u]);
      if KeepDigits(id) == "" || a.objectName == "" || a.namespace == "" then s
      else s.(threads := s.threads[tid := PublishGet(a.uuid, KeyFor(a), KeepDigits(id))])
    case Call(tid) => CallThread(s, tid)
    case Store(tid, k, jobid) =>
      var u := s.threads[tid].uuid;
      s.(pods := s.pods[k := Pod(Some(u), Some(u), jobid, Pending)], threads := s.threads - {tid},
         stored := s.stored[u := k])
    case SbatchOk(tid, id) =>
      var th := s.threads[tid];
      s.(jobs := s.jobs[id := th.uuid], launched := s.launched[id := th.uuid],
         threads := s.threads[tid := PublishGet(th.uuid, th.key, id)])
    case SbatchFail(tid, created) =>
      var th := s.threads[tid];
      var t := s.(threads := s.threads[tid := Rollback(th.uuid, th.key)]);
      if created.Some? then
        t.(jobs := s.jobs[created.value := th.uuid], launched := s.launched[created.value := th.uuid])
      else t
    case Abort(tid) => s.(threads := s.threads - {tid})
    case PodPhase(k, phase) => s.(pods := s.pods[k := s.pods[k].(phase := phase)])
    case PodGone(k) => s.(pods := s.pods - {k})
    case JobEnds(id) => s.(jobs := s.jobs - {id})
    case ListJobs => s.(watcher := ListedJobs(s.jobs))
    case ListPods => s.(watcher := ListedPods(s.watcher.slurm, s.pods))
    case ListConfigMaps =>
      var slurm, podList := s.watcher.slurm, s.watcher.podList;
      s.(watcher := Acting(Plan(Orphans(podList, s.cms), StaleConfigMaps(podList, s.cms),
                                ToCancel(slurm, podList, s.cms), ToPurge(slurm, podList, s.cms))))
    case ListFails => s.(watcher := Idle)
    case DeleteOrphan(k, graceful) =>
      var p := s.watcher.plan;
      s.(pods := DeletePod(s.pods, k, graceful), watcher := Acting(p.(orphans := p.orphans - {k})))
    case DeleteStale(k) =>
      var p := s.watcher.plan;
      s.(cms := s.cms - {k}, watcher := Acting(p.(stale := p.stale - {k})))
    case Cancel(id) =>
      var p := s.watcher.plan;
      s.(jobs := s.jobs - {id}, watcher := Acting(p.(cancel := p.cancel - {id})))
    case PurgeListPods(u) =>
      var p := s.watcher.plan;
      var found := set k | k in s.pods && s.pods[k].uuidLabel == Some(u);
      var rest := p.(purge := p.purge - {u});
      s.(watcher := if found == {} then Acting(rest) else PurgingPods(rest, u, found))
    case PurgePod(k, graceful) =>
      var w := s.watcher;
      s.(pods := DeletePod(s.pods, k, graceful), watcher := PurgingPods(w.plan, w.u, w.podKeys - {k}))
    case PurgeListConfigMaps =>
      var w := s.watcher;
      s.(watcher := PurgingConfigMaps(w.plan, w.u, set k | k in s.cms && s.cms[k].uuidLabel == Some(w.u)))
    case PurgeConfigMap(k) =>
      var w := s.watcher;
      s.(cms := s.cms - {k}, watcher := PurgingConfigMaps(w.plan, w.u, w.cmKeys - {k}))
    case PurgeEnds => s.(watcher := Acting(s.watcher.plan))
    case Skip(p) => s.(watcher := Acting(p))
    case EndPass => s.(watcher := Idle)
  }

  // ----- Hypotheses on the steps of a run ------------------------------------------------------

  /** A UUID is drawn once, is made of name characters and sits in a namespace made of name characters. */
  predicate FreshIdentity(s: State, step: Step) {
    step.Admit? ==>
      step.a.uuid !in s.admitted && AllOf(step.a.uuid, IsNameChar) && AllOf(step.a.namespace, IsNameChar)
  }

  /** No pod is stored under the name of an earlier pod. */
  predicate DistinctPods(s: State, step: Step) {
    step.Store? ==> forall u :: u in s.stored ==> s.stored[u] != step.pod
  }

  /** No two admissions share a config-map name. */
  predicate DistinctNames(s: State, step: Step) {
    step.Admit? ==> forall u :: u in s.keys ==> s.keys[u] != KeyFor(step.a)
  }

  /** A pod is stored with the annotations of `mutateObject` only, hence without a job id. */
  predicate OwnAnnotations(step: Step) {
    step.Store? ==> step.jobid == None
  }

  /** H1, identity. */
  predicate H1(s: State, step: Step) {
    FreshIdentity(s, step) && DistinctPods(s, step) && DistinctNames(s, step) && OwnAnnotations(step)
  }

  /** The job of a UUID is requested once. */
  predicate OneRequest(s: State, step: Step) {
    step.RequestSbatch? ==> step.u !in s.requested
  }

  /** Sbatch prints a decimal job id, and a failed sbatch leaves no job behind. */
  predicate HonestOutcome(step: Step) {
    match step
    case SbatchOk(_, id) => IsDecimal(id)
    case SbatchFail(_, created) => created == None
    case _ => true
  }

  /** H2, one submission. */
  predicate H2(s: State, step: Step) {
    OneRequest(s, step) && HonestOutcome(step)
  }

  /** H3, quiet publication window: between the Slurm listing and the config-map listing of a pass, no config-map goes
      from `to-be-set` to a job id that is missing from the Slurm listing. */
  predicate H3(s: State, step: Step)
    requires Enabled(s, step)
  {
    s.watcher.InWindow() ==>
      forall k :: k in s.cms && k in Apply(s, step).cms && s.cms[k].ToBeSet() ==>
        Apply(s, step).cms[k].ToBeSet() || ListedOnSlurm(s.watcher, Apply(s, step).cms[k])
  }

  /** The job id of a config-map is in the Slurm listing of the pass. */
  predicate ListedOnSlurm(w: Watcher, cm: ConfigMap)
    requires w.InWindow()
  {
    cm.jobid.Some? && cm.jobid.value in w.slurm
  }

  // ----- Runs --------------------------------------------------------------------------------

  ghost predicate IsRun(states: seq<State>, steps: seq<Step>) {
    && |states| == |steps| + 1
    && states[0] == INITIAL
    && forall i :: 0 <= i < |steps| ==> Enabled(states[i], steps[i]) && states[i + 1] == Apply(states[i], steps[i])
  }

  ghost predicate UnderH1(states: seq<State>, steps: seq<Step>)
    requires IsRun(states, steps)
  {
    forall i :: 0 <= i < |steps| ==> H1(states[i], steps[i])
  }

  ghost predicate UnderH2(states: seq<State>, steps: seq<Step>)
    requires IsRun(states, steps)
  {
    forall i :: 0 <= i < |steps| ==> H2(states[i], steps[i])
  }

  ghost predicate UnderH3(states: seq<State>, steps: seq<Step>)
    requires IsRun(states, steps)
  {
    forall i :: 0 <= i < |steps| ==> H3(states[i], steps[i])
  }

  // ----- Safety ------------------------------------------------------------------------------

  /** The job of `u` was created and Slurm no longer has it. */
  predicate JobLeft(s: State, u: Uuid) {
    (exists id :: id in s.launched && s.launched[id] == u) && !OnSlurm(s.jobs, u)
  }

  /** The pod of `u` was stored, and every pod of `u` that is still stored has finished. */
  predicate PodFinished(s: State, u: Uuid) {
    u in s.stored && !HasLivePod(s.pods, u)
  }

  /** What a destructive step of the watcher may do in a state. */
  predicate Harmless(s: State, step: Step) {
    match step
    case Cancel(id) => id in s.jobs ==> !HasLivePod(s.pods, s.jobs[id])
    case DeleteOrphan(k, _) => k in s.pods ==> s.pods[k].uuid.Some? && JobLeft(s, s.pods[k].uuid.value)
    case PurgePod(k, _) => k in s.pods ==> s.pods[k].uuid.Some? && JobLeft(s, s.pods[k].uuid.value)
    case DeleteStale(k) => k in s.cms ==> s.cms[k].uuid.Some? && PodFinished(s, s.cms[k].uuid.value)
    case PurgeConfigMap(k) => k in s.cms ==> s.cms[k].uuid.Some? && JobLeft(s, s.cms[k].uuid.value)
    case _ => true
  }
}
