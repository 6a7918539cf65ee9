/** Under H1, H2 and H3 every step keeps the invariant, and in every run each destructive step of the watcher is
    harmless. */
module ProtocolSafety {
  import opened Wrappers
  import opened Text
  import opened Cluster
  import opened Protocol
  import opened ProtocolInvariant
  import opened ProtocolFrames
  import opened ProtocolSteps

  /** The watcher's view survives a request that changes threads and config-maps only. */
  lemma RequestStays(s: State, t: State)
    requires Stores(s) && WatcherOk(s) && Stores(t) && t == s.(cms := t.cms, threads := t.threads)
    requires s.watcher.InWindow() ==> Quiet(s, t)
    ensures WatcherOk(t)
  {
    assert Evolves(s, t);
    WatcherStays(s, t);
  }

  // ----- Requests ----------------------------------------------------------------------------

  lemma AdmitEvolves(s: State, t: State, a: Admission)
    requires a.uuid !in s.keys && Stores(s)
    requires t == s.(threads := t.threads, admitted := t.admitted, keys := s.keys[a.uuid := KeyFor(a)])
    ensures Evolves(s, t) && Quiet(s, t)
  {
  }

  lemma Admits(s: State, t: State, tid: nat, a: Admission)
    requires Inv(s) && a.uuid !in s.keys && AllOf(a.uuid, IsNameChar) && AllOf(a.namespace, IsNameChar)
    requires forall u :: u in s.keys ==> s.keys[u] != KeyFor(a)
    requires t == s.(threads := s.threads[tid := InjectGet(a.uuid, KeyFor(a))],
                     admitted := s.admitted[a.uuid := a], keys := s.keys[a.uuid := KeyFor(a)])
    ensures Inv(t)
  {
    AdmitKeeps(s, t, tid, a);
    AdmitEvolves(s, t, a);
    WatcherStays(s, t);
  }

  lemma AdmitStep(s: State, step: Step)
    requires Inv(s) && step.Admit? && Enabled(s, step) && H1(s, step)
    ensures Inv(Apply(s, step))
  {
    Admits(s, Apply(s, step), step.tid, step.a);
  }

  lemma RequestSbatchStep(s: State, step: Step)
    requires Inv(s) && step.RequestSbatch? && Enabled(s, step) && H2(s, step)
    ensures Inv(Apply(s, step))
  {
    var RequestSbatch(tid, u) := step;
    var t := Apply(s, step);
    ParsedAgrees(s.admitted[u]);
    RequestSbatchKeeps(s, t, tid, u);
    WatcherStays(s, t);
  }

  lemma LaunchedIsDecimal(s: State, id: JobId)
    requires JobHistory(s.requested, s.jobs, s.launched) && id in s.launched
    ensures KeepDigits(id) == id
  {
    FilterKeepsAllowed(id, IsDigit);
  }

  lemma AdmittedIsParsed(s: State, u: Uuid)
    requires Admissions(s.admitted, s.keys) && u in s.admitted
    ensures u in s.keys && Parsed(s.admitted[u]).uuid == u && KeyFor(Parsed(s.admitted[u])) == s.keys[u]
  {
    ParsedAgrees(s.admitted[u]);
  }

  lemma EnvRequested(s: State, t: State, tid: nat, u: Uuid, id: JobId)
    requires Inv(s) && tid !in s.threads && u in s.stored && id in s.launched && s.launched[id] == u
    requires t == s.(threads := s.threads[tid := PublishGet(u, s.keys[u], id)])
    ensures Inv(t)
  {
    RequestEnvKeeps(s, t, tid, u, id);
    RequestStays(s, t);
  }

  lemma RequestEnvStep(s: State, step: Step)
    requires Inv(s) && step.RequestEnv? && Enabled(s, step)
    ensures Inv(Apply(s, step))
  {
    var RequestEnv(tid, u, id) := step;
    AdmittedIsParsed(s, u);
    LaunchedIsDecimal(s, id);
    var t := s.(threads := s.threads[tid := PublishGet(u, s.keys[u], id)]);
    EnvRequested(s, t, tid, u, id);
    assert Apply(s, step) == s || Apply(s, step) == t;
  }

  lemma StoreEvolves(s: State, t: State, k: Key, u: Uuid)
    requires k !in s.pods && u !in s.stored
    requires t == s.(pods := s.pods[k := Pod(Some(u), Some(u), None, Pending)], threads := t.threads,
                     stored := s.stored[u := k])
    ensures Evolves(s, t)
  {
  }

  lemma StoreStep(s: State, step: Step)
    requires Inv(s) && step.Store? && Enabled(s, step) && H1(s, step)
    ensures Inv(Apply(s, step))
  {
    var Store(tid, k, jobid) := step;
    var t := Apply(s, step);
    var u := s.threads[tid].uuid;
    assert ThreadOk(s, s.threads[tid]);
    StoreKeeps(s, t, tid, k, u);
    StoreEvolves(s, t, k, u);
    WatcherStays(s, t);
  }

  lemma SbatchOkEvolves(s: State, t: State, id: JobId, u: Uuid)
    requires id !in s.launched
    requires t == s.(jobs := s.jobs[id := u], launched := s.launched[id := u], threads := t.threads)
    ensures Evolves(s, t) && Quiet(s, t)
  {
  }

  lemma SbatchOkStep(s: State, step: Step)
    requires Inv(s) && step.SbatchOk? && Enabled(s, step) && H2(s, step)
    ensures Inv(Apply(s, step))
  {
    var SbatchOk(tid, id) := step;
    var t := Apply(s, step);
    SbatchOkKeeps(s, t, tid, id);
    SbatchOkEvolves(s, t, id, s.threads[tid].uuid);
    WatcherStays(s, t);
  }

  lemma SubmissionFails(s: State, t: State, tid: nat)
    requires Inv(s) && tid in s.threads && s.threads[tid].SbatchRun?
    requires t == s.(threads := s.threads[tid := Rollback(s.threads[tid].uuid, s.threads[tid].key)])
    ensures Inv(t)
  {
    SubmissionFacts(s, tid);
    ThreadGoesOn(s, t, tid, Rollback(s.threads[tid].uuid, s.threads[tid].key));
    RequestStays(s, t);
  }

  lemma SbatchFailStep(s: State, step: Step)
    requires Inv(s) && step.SbatchFail? && Enabled(s, step) && H2(s, step)
    ensures Inv(Apply(s, step))
  {
    SubmissionFails(s, Apply(s, step), step.tid);
  }

  lemma AbortStep(s: State, step: Step)
    requires Inv(s) && step.Abort? && Enabled(s, step)
    ensures Inv(Apply(s, step))
  {
    var Abort(tid) := step;
    var t := Apply(s, step);
    ThreadEndKeeps(s, tid);
    WatcherStays(s, t);
  }

  /** A request that goes on, or ends, without writing. */
  lemma CallGet(s: State, t: State, tid: nat, next: Thread)
    requires Inv(s) && tid in s.threads && t == s.(threads := s.threads[tid := next])
    requires next.uuid == s.threads[tid].uuid && (next.Sole() ==> s.threads[tid].Sole()) && ThreadOk(t, next)
    ensures Inv(t)
  {
    ThreadGoesOn(s, t, tid, next);
    RequestStays(s, t);
  }

  lemma CallEnds(s: State, tid: nat)
    requires Inv(s)
    ensures Inv(s.(threads := s.threads - {tid}))
  {
    ThreadEndKeeps(s, tid);
    RequestStays(s, s.(threads := s.threads - {tid}));
  }

  lemma PutQuiet(s: State, t: State, k: Key, cm: ConfigMap)
    requires t.cms == s.cms[k := cm]
    requires cm.Published() ==>
      (k in s.cms && s.cms[k].Published()) || (s.watcher.InWindow() && ListedOnSlurm(s.watcher, cm))
    ensures Quiet(s, t)
  {
  }

  /** `createConfigMap` and the sbatch handler write `to-be-set`. */
  lemma CallPut(s: State, t: State, tid: nat, u: Uuid, k: Key, next: Thread)
    requires Inv(s) && tid in s.threads && s.threads[tid].uuid == u && s.threads[tid].Sole() && KeyOf(s.keys, u, k)
    requires t == s.(cms := s.cms[k := Written(u, TO_BE_SET)], threads := s.threads[tid := next])
    requires next.uuid == u && ThreadOk(t, next)
    ensures Inv(t)
  {
    PutKeeps(s, t, tid, k, Written(u, TO_BE_SET), next);
    PutQuiet(s, t, k, Written(u, TO_BE_SET));
    RequestStays(s, t);
  }

  lemma RollbackQuiet(s: State, t: State, u: Uuid, k: Key)
    requires Identities(s.keys) && KeyOf(s.keys, u, k) && !Created(s.launched, u)
    requires t.cms == s.cms - {k}
    ensures Quiet(s, t)
  {
  }

  lemma CallRollback(s: State, t: State, tid: nat)
    requires Inv(s) && tid in s.threads && s.threads[tid].Rollback?
    requires t == s.(cms := s.cms - {s.threads[tid].key}, threads := s.threads - {tid})
    ensures Inv(t)
  {
    assert ThreadOk(s, s.threads[tid]);
    RollbackKeeps(s, tid);
    RollbackQuiet(s, t, s.threads[tid].uuid, s.threads[tid].key);
    RequestStays(s, t);
  }

  lemma PublishKeeps(s: State, t: State, tid: nat, k: Key, cm: ConfigMap)
    requires Stores(s) && tid in s.threads && k in s.cms && ConfigMapOk(s.keys, s.launched, k, cm)
    requires t == s.(cms := s.cms[k := cm], threads := s.threads - {tid})
    ensures Stores(t)
  {
    PutConfigMaps(s.keys, s.launched, s.cms, k, cm);
    LastPutThreads(s, t, tid);
    PutCovered(s.keys, s.requested, s.jobs, s.cms, s.pods, k, cm);
  }

  /** Publication: inside the window H3 leaves only config-maps that are published already and jobs that are listed. */
  lemma CallPublish(s: State, t: State, tid: nat, k: Key, cm: ConfigMap)
    requires Inv(s) && tid in s.threads && k in s.cms && ConfigMapOk(s.keys, s.launched, k, cm)
    requires s.watcher.InWindow() ==> s.cms[k].Published() || ListedOnSlurm(s.watcher, cm)
    requires t == s.(cms := s.cms[k := cm], threads := s.threads - {tid})
    ensures Inv(t)
  {
    PublishKeeps(s, t, tid, k, cm);
    if s.watcher.InWindow() { PutQuiet(s, t, k, cm); }
    RequestStays(s, t);
  }

  lemma FirstGetGoesOn(s: State, tid: nat, next: Thread)
    requires Inv(s) && tid in s.threads
    requires var th := s.threads[tid]; var found := th.key in s.cms;
      (th.InjectGet? && next == InjectPut(th.uuid, th.key, found)) || (th.SbatchGet? && next == SbatchPut(th.uuid, th.key, found))
    ensures Inv(s.(threads := s.threads[tid := next]))
  {
    assert ThreadOk(s, s.threads[tid]);
    CallGet(s, s.(threads := s.threads[tid := next]), tid, next);
  }

  lemma CallFirstGet(s: State, tid: nat)
    requires Inv(s) && Enabled(s, Call(tid)) && (s.threads[tid].InjectGet? || s.threads[tid].SbatchGet?)
    ensures Inv(CallThread(s, tid))
  {
    var th := s.threads[tid];
    var found := th.key in s.cms;
    if th.InjectGet? {
      FirstGetGoesOn(s, tid, InjectPut(th.uuid, th.key, found));
    } else {
      FirstGetGoesOn(s, tid, SbatchPut(th.uuid, th.key, found));
    }
  }

  lemma CallLast(s: State, tid: nat)
    requires Inv(s) && Enabled(s, Call(tid)) && s.threads[tid].Rollback?
    ensures Inv(CallThread(s, tid))
  {
    CallRollback(s, s.(cms := s.cms - {s.threads[tid].key}, threads := s.threads - {tid}), tid);
  }

  lemma PutGoesOn(s: State, tid: nat, next: Thread)
    requires Inv(s) && tid in s.threads && s.threads[tid].Sole()
    requires var th := s.threads[tid];
      (th.InjectPut? && next == StorePod(th.uuid, th.key)) || (th.SbatchPut? && next == SbatchRun(th.uuid, th.key))
    ensures var th := s.threads[tid];
      Inv(s.(cms := s.cms[th.key := Written(th.uuid, TO_BE_SET)], threads := s.threads[tid := next]))
  {
    var th := s.threads[tid];
    assert ThreadOk(s, th);
    CallPut(s, s.(cms := s.cms[th.key := Written(th.uuid, TO_BE_SET)], threads := s.threads[tid := next]), tid, th.uuid, th.key,
            next);
  }

  lemma CallFirstPut(s: State, tid: nat)
    requires Inv(s) && Enabled(s, Call(tid)) && (s.threads[tid].InjectPut? || s.threads[tid].SbatchPut?)
    ensures Inv(CallThread(s, tid))
  {
    var th := s.threads[tid];
    if th.found != (th.key in s.cms) {
      CallEnds(s, tid);
    } else if th.InjectPut? {
      PutGoesOn(s, tid, StorePod(th.uuid, th.key));
    } else {
      PutGoesOn(s, tid, SbatchRun(th.uuid, th.key));
    }
  }

  lemma GetGoesOn(s: State, tid: nat, next: Thread)
    requires Inv(s) && tid in s.threads && s.threads[tid].PublishGet? && s.threads[tid].key in s.cms
    requires var th := s.threads[tid]; next == PublishPut(th.uuid, th.key, th.id, s.cms[th.key])
    ensures Inv(s.(threads := s.threads[tid := next]))
  {
    var th := s.threads[tid];
    assert ThreadOk(s, th);
    assert ConfigMapOk(s.keys, s.launched, th.key, s.cms[th.key]);
    CallGet(s, s.(threads := s.threads[tid := next]), tid, next);
  }

  lemma CallPublishGet(s: State, tid: nat)
    requires Inv(s) && Enabled(s, Call(tid)) && s.threads[tid].PublishGet?
    ensures Inv(CallThread(s, tid))
  {
    var th := s.threads[tid];
    if th.key in s.cms {
      GetGoesOn(s, tid, PublishPut(th.uuid, th.key, th.id, s.cms[th.key]));
    } else {
      CallEnds(s, tid);
    }
  }

  lemma CallPublishPut(s: State, tid: nat)
    requires Inv(s) && Enabled(s, Call(tid)) && s.threads[tid].PublishPut?
    requires var k := s.threads[tid].key;
      s.watcher.InWindow() && k in s.cms && s.cms[k].ToBeSet() ==>
        CallThread(s, tid).cms[k].ToBeSet() || ListedOnSlurm(s.watcher, CallThread(s, tid).cms[k])
    ensures Inv(CallThread(s, tid))
  {
    var th, t := s.threads[tid], CallThread(s, tid);
    assert ThreadOk(s, th);
    if th.key in s.cms {
      assert ConfigMapOk(s.keys, s.launched, th.key, s.cms[th.key]);
      DecimalIsNotToBeSet(th.id);
      CallPublish(s, t, tid, th.key, th.copy.(jobid := Some(th.id)));
    } else {
      CallEnds(s, tid);
    }
  }

  /** A call that does not publish. */
  lemma CallOther(s: State, tid: nat)
    requires Inv(s) && Enabled(s, Call(tid)) && s.threads[tid].Sole()
    ensures Inv(CallThread(s, tid))
  {
    match s.threads[tid]
    case Rollback(_, _) => CallLast(s, tid);
    case InjectGet(_, _) => CallFirstGet(s, tid);
    case SbatchGet(_, _) => CallFirstGet(s, tid);
    case InjectPut(_, _, _) => CallFirstPut(s, tid);
    case SbatchPut(_, _, _) => CallFirstPut(s, tid);
  }

  lemma CallStep(s: State, step: Step)
    requires Inv(s) && step.Call? && Enabled(s, step) && H3(s, step)
    ensures Inv(Apply(s, step))
  {
    var th := s.threads[step.tid];
    if th.PublishGet? { CallPublishGet(s, step.tid); }
    else if th.PublishPut? { CallPublishPut(s, step.tid); }
    else { CallOther(s, step.tid); }
  }

  // ----- Environment -------------------------------------------------------------------------

  ghost predicate FewerPods(pods: Pods, pods': Pods) {
    forall k :: k in pods' ==> k in pods && pods'[k].uuid == pods[k].uuid && (pods'[k].Live() ==> pods[k].Live())
  }

  lemma LivePodsShrink(pods: Pods, pods': Pods)
    requires FewerPods(pods, pods')
    ensures forall u :: HasLivePod(pods', u) ==> HasLivePod(pods, u)
  {
  }

  /** Pods finish or vanish. */
  lemma PodsEnd(s: State, t: State, pods: Pods)
    requires Inv(s) && t == s.(pods := pods)
    requires forall k :: k in pods ==> k in s.pods && pods[k].(phase := s.pods[k].phase) == s.pods[k]
                                       && (pods[k].Live() ==> s.pods[k].Live())
    ensures Inv(t)
  {
    FewerPodsKeep(s, pods);
    LivePodsShrink(s.pods, pods);
    WatcherStays(s, t);
  }

  lemma PodPhaseStep(s: State, k: Key, phase: Phase)
    requires Inv(s) && Enabled(s, PodPhase(k, phase))
    ensures Inv(Apply(s, PodPhase(k, phase)))
  {
    var pods := s.pods[k := s.pods[k].(phase := phase)];
    PodsEnd(s, s.(pods := pods), pods);
  }

  lemma PodGoneStep(s: State, k: Key)
    requires Inv(s) && Enabled(s, PodGone(k))
    ensures Inv(Apply(s, PodGone(k)))
  {
    PodsEnd(s, s.(pods := s.pods - {k}), s.pods - {k});
  }

  lemma FewerJobsEvolve(s: State, t: State, id: JobId)
    requires t == s.(jobs := s.jobs - {id})
    ensures Evolves(s, t) && Quiet(s, t)
  {
  }

  lemma JobEndsStep(s: State, id: JobId)
    requires Inv(s) && Enabled(s, JobEnds(id))
    ensures Inv(Apply(s, JobEnds(id)))
  {
    var t := s.(jobs := s.jobs - {id});
    FewerJobsKeep(s, id);
    FewerJobsEvolve(s, t, id);
    WatcherStays(s, t);
  }

  // ----- Watcher -----------------------------------------------------------------------------

  lemma JobsListed(s: State)
    requires JobHistory(s.requested, s.jobs, s.launched) && Covered(s)
    ensures WindowJobs(s, s.jobs)
  {
    forall id | id in s.jobs && HasLivePod(s.pods, s.jobs[id])
      ensures s.jobs[id] in s.keys && s.keys[s.jobs[id]] in s.cms
    {
      var k :| k in s.pods && s.pods[k].Live() && s.pods[k].uuid == Some(s.jobs[id]);
      assert CoveredUuid(s, s.pods[k].uuid.value);
    }
  }

  lemma WindowIgnoresWatcher(s: State, w: Watcher, slurm: Jobs)
    requires WindowJobs(s, slurm)
    ensures WindowJobs(s.(watcher := w), slurm)
  {
  }

  lemma ListJobsStep(s: State)
    requires Inv(s) && Enabled(s, ListJobs)
    ensures Inv(Apply(s, ListJobs))
  {
    JobsListed(s);
    StoresIgnoreWatcher(s, ListedJobs(s.jobs));
    WindowIgnoresWatcher(s, ListedJobs(s.jobs), s.jobs);
  }

  lemma PodsListed(s: State, slurm: Jobs)
    requires Stores(s) && WindowJobs(s, slurm)
    ensures WindowPods(s, slurm, s.pods)
  {
  }

  lemma ListPodsStep(s: State, step: Step)
    requires Inv(s) && step.ListPods? && Enabled(s, step)
    ensures Inv(Apply(s, step))
  {
    PodsListed(s, s.watcher.slurm);
    StoresIgnoreWatcher(s, ListedPods(s.watcher.slurm, s.pods));
  }

  /** The config-maps found stale: the pod of a published config-map has finished. */
  lemma FoundStale(s: State, slurm: Jobs, podList: Pods, k: Key)
    requires Stores(s) && WindowPods(s, slurm, podList) && k in StaleConfigMaps(podList, s.cms)
    ensures StaleOk(s, k)
  {
  }

  /** The jobs found unknown: a live pod would have kept their UUID. */
  lemma FoundUnknown(s: State, slurm: Jobs, podList: Pods, id: JobId)
    requires Stores(s) && WindowJobs(s, slurm) && WindowPods(s, slurm, podList) && id in ToCancel(slurm, podList, s.cms)
    ensures CancelOk(s, id)
  {
  }

  /** The UUIDs found without a job: it was created before Slurm was listed, and has left. */
  lemma FoundJobless(s: State, slurm: Jobs, podList: Pods, u: Uuid)
    requires Stores(s) && WindowJobs(s, slurm) && u in ToPurge(slurm, podList, s.cms)
    ensures JobLeft(s, u)
  {
  }

  /** Exactly when the UUIDs found without a job are without one, whatever was published since Slurm was listed: if and
      only if no live pod's config-map names a job that Slurm runs but did not list. */
  lemma JoblessExactly(s: State, slurm: Jobs, podList: Pods)
    requires Stores(s)
    ensures (forall u :: u in ToPurge(slurm, podList, s.cms) ==> JobLeft(s, u)) <==>
            !(exists k :: k in s.cms && IsJobless(slurm, podList, s.cms, k) && s.cms[k].jobid.value in s.jobs)
  {
    forall k | k in s.cms && IsJobless(slurm, podList, s.cms, k)
      ensures s.cms[k].uuid.value in ToPurge(slurm, podList, s.cms)
      ensures JobLeft(s, s.cms[k].uuid.value) <==> s.cms[k].jobid.value !in s.jobs
    {
      OwnJobLeft(s, k);
    }
  }

  /** The job of a published config-map has left exactly if its job id is not on Slurm. */
  lemma OwnJobLeft(s: State, k: Key)
    requires Stores(s) && k in s.cms && s.cms[k].uuid.Some? && s.cms[k].Published()
    ensures JobLeft(s, s.cms[k].uuid.value) <==> s.cms[k].jobid.value !in s.jobs
  {
    assert ConfigMapOk(s.keys, s.launched, k, s.cms[k]);
  }

  lemma FoundPlan(s: State, slurm: Jobs, podList: Pods, p: Plan)
    requires Stores(s) && WindowJobs(s, slurm) && WindowPods(s, slurm, podList)
    requires p == Plan(Orphans(podList, s.cms), StaleConfigMaps(podList, s.cms), ToCancel(slurm, podList, s.cms),
                       ToPurge(slurm, podList, s.cms))
    ensures PlanOk(s, p)
  {
    forall k | k in p.stale ensures StaleOk(s, k) { FoundStale(s, slurm, podList, k); }
    forall id | id in p.cancel ensures CancelOk(s, id) { FoundUnknown(s, slurm, podList, id); }
    forall u | u in p.purge ensures JobLeft(s, u) { FoundJobless(s, slurm, podList, u); }
  }

  lemma PlanListed(s: State, p: Plan)
    requires Stores(s) && PlanOk(s, p)
    ensures Inv(s.(watcher := Acting(p)))
  {
    StoresIgnoreWatcher(s, Acting(p));
    PlanAfter(s, s.(watcher := Acting(p)), p, p);
  }

  lemma ListConfigMapsStep(s: State)
    requires Inv(s) && Enabled(s, ListConfigMaps)
    ensures Inv(Apply(s, ListConfigMaps))
  {
    var slurm, podList := s.watcher.slurm, s.watcher.podList;
    var p := Plan(Orphans(podList, s.cms), StaleConfigMaps(podList, s.cms), ToCancel(slurm, podList, s.cms),
                  ToPurge(slurm, podList, s.cms));
    FoundPlan(s, slurm, podList, p);
    PlanListed(s, p);
  }

  lemma StoresIgnoreWatcher(s: State, w: Watcher)
    requires Stores(s)
    ensures Stores(s.(watcher := w))
  {
  }

  /** A plan survives a step of the watcher that deletes pods, jobs or config-maps. */
  lemma PlanAfter(s: State, t: State, p: Plan, q: Plan)
    requires Stores(s) && Stores(t) && PlanOk(s, p) && Smaller(q, p)
    requires t == s.(cms := t.cms, pods := t.pods, jobs := t.jobs, watcher := t.watcher)
    requires FewerPods(s.pods, t.pods) && forall id :: id in t.jobs ==> id in s.jobs
    ensures PlanOk(t, q)
    ensures forall u :: JobLeft(s, u) ==> JobLeft(t, u)
  {
    LivePodsShrink(s.pods, t.pods);
    assert Evolves(s, t);
    PlanStays(s, t, p);
    forall u | JobLeft(s, u) ensures JobLeft(t, u) { JobLeftStays(s, t, u); }
  }

  lemma StaleDeletion(s: State, k: Key)
    requires Stores(s) && StaleOk(s, k)
    ensures Stores(s.(cms := s.cms - {k}))
  {
    var u :| u in s.keys && KeyOf(s.keys, u, k) && PodFinished(s, u) && Created(s.launched, u);
    ConfigMapDeletionKeeps(s, k, u);
  }

  lemma DeleteStaleStep(s: State, t: State, k: Key)
    requires Inv(s) && s.watcher.Acting? && k in s.watcher.plan.stale
    requires var p := s.watcher.plan; t == s.(cms := s.cms - {k}, watcher := Acting(p.(stale := p.stale - {k})))
    ensures Inv(t)
  {
    StaleDeletion(s, k);
    StoresIgnoreWatcher(s.(cms := s.cms - {k}), t.watcher);
    PlanAfter(s, t, s.watcher.plan, t.watcher.plan);
  }

  lemma CancelStep(s: State, t: State, id: JobId)
    requires Inv(s) && s.watcher.Acting? && id in s.watcher.plan.cancel
    requires var p := s.watcher.plan; t == s.(jobs := s.jobs - {id}, watcher := Acting(p.(cancel := p.cancel - {id})))
    ensures Inv(t)
  {
    FewerJobsKeep(s, id);
    StoresIgnoreWatcher(s.(jobs := s.jobs - {id}), t.watcher);
    PlanAfter(s, t, s.watcher.plan, t.watcher.plan);
  }

  lemma PodsOfUuid(stored: map<Uuid, Key>, pods: Pods, u: Uuid, found: set<Key>)
    requires PodsOk(stored, pods) && found == set k | k in pods && pods[k].uuidLabel == Some(u)
    ensures forall k :: k in found ==> u in stored && stored[u] == k
  {
  }

  lemma PurgeListPodsStep(s: State, t: State, u: Uuid, found: set<Key>)
    requires Stores(s) && s.watcher.Acting? && PlanOk(s, s.watcher.plan) && u in s.watcher.plan.purge
    requires forall k :: k in found ==> u in s.stored && s.stored[u] == k
    requires var p := s.watcher.plan; var rest := p.(purge := p.purge - {u});
      t == s.(watcher := if found == {} then Acting(rest) else PurgingPods(rest, u, found))
    ensures Inv(t)
  {
    assert JobLeft(s, u);
    StoresIgnoreWatcher(s, t.watcher);
    PlanAfter(s, t, s.watcher.plan, t.watcher.plan);
  }

  lemma PurgePodStep(s: State, t: State, k: Key, pods: Pods)
    requires Inv(s) && s.watcher.PurgingPods? && (pods == s.pods || pods == s.pods - {k})
    requires var w := s.watcher; t == s.(pods := pods, watcher := PurgingPods(w.plan, w.u, w.podKeys - {k}))
    ensures Inv(t)
  {
  }

  lemma PurgeListConfigMapsStep(s: State, t: State, found: set<Key>)
    requires Inv(s) && s.watcher.PurgingPods?
    requires forall k :: k in found ==> k in s.cms && s.cms[k].uuidLabel == Some(s.watcher.u)
    requires t == s.(watcher := PurgingConfigMaps(s.watcher.plan, s.watcher.u, found))
    ensures Inv(t)
  {
    forall k | k in found ensures KeyOf(s.keys, s.watcher.u, k) {
      assert ConfigMapOk(s.keys, s.launched, k, s.cms[k]);
    }
    StoresIgnoreWatcher(s, t.watcher);
    PlanAfter(s, t, s.watcher.plan, t.watcher.plan);
  }

  lemma PurgeConfigMapStep(s: State, t: State, k: Key)
    requires Inv(s) && s.watcher.PurgingConfigMaps? && k in s.watcher.cmKeys
    requires var w := s.watcher;
      t == s.(cms := s.cms - {k}, watcher := PurgingConfigMaps(w.plan, w.u, w.cmKeys - {k}))
    ensures Inv(t)
  {
    ConfigMapDeletionKeeps(s, k, s.watcher.u);
    StoresIgnoreWatcher(s.(cms := s.cms - {k}), t.watcher);
    PlanAfter(s, t, s.watcher.plan, t.watcher.plan);
  }

  /** Abandoning listings, a purge or a part of the plan. */
  lemma AbandonStep(s: State, t: State, w: Watcher)
    requires Inv(s) && t == s.(watcher := w)
    requires w.Idle? || (w.Acting? && !s.watcher.Idle? && !s.watcher.InWindow() && Smaller(w.plan, s.watcher.plan))
    ensures Inv(t)
  {
    StoresIgnoreWatcher(s, w);
    if w.Acting? { PlanAfter(s, t, s.watcher.plan, w.plan); }
  }

  lemma PlanHasNoOrphans(s: State, k: Key)
    requires WatcherOk(s) && s.watcher.Acting?
    ensures k !in s.watcher.plan.orphans
  {
  }

  // ----- Every step, every run ---------------------------------------------------------------

  lemma DeleteStaleKeeps(s: State, k: Key)
    requires Inv(s) && Enabled(s, DeleteStale(k))
    ensures Inv(Apply(s, DeleteStale(k)))
  {
    DeleteStaleStep(s, Apply(s, DeleteStale(k)), k);
  }

  lemma CancelKeeps(s: State, id: JobId)
    requires Inv(s) && Enabled(s, Cancel(id))
    ensures Inv(Apply(s, Cancel(id)))
  {
    CancelStep(s, Apply(s, Cancel(id)), id);
  }

  lemma PurgeListPodsKeeps(s: State, u: Uuid)
    requires Inv(s) && Enabled(s, PurgeListPods(u))
    ensures Inv(Apply(s, PurgeListPods(u)))
  {
    var found := set k | k in s.pods && s.pods[k].uuidLabel == Some(u);
    PodsOfUuid(s.stored, s.pods, u, found);
    PurgeListPodsStep(s, Apply(s, PurgeListPods(u)), u, found);
  }

  lemma PurgePodKeeps(s: State, k: Key, graceful: bool)
    requires Inv(s) && Enabled(s, PurgePod(k, graceful))
    ensures Inv(Apply(s, PurgePod(k, graceful)))
  {
    PurgePodStep(s, Apply(s, PurgePod(k, graceful)), k, DeletePod(s.pods, k, graceful));
  }

  lemma PurgeListConfigMapsKeeps(s: State)
    requires Inv(s) && Enabled(s, PurgeListConfigMaps)
    ensures Inv(Apply(s, PurgeListConfigMaps))
  {
    PurgeListConfigMapsStep(s, Apply(s, PurgeListConfigMaps), set k | k in s.cms && s.cms[k].uuidLabel == Some(s.watcher.u));
  }

  lemma PurgeConfigMapKeeps(s: State, k: Key)
    requires Inv(s) && Enabled(s, PurgeConfigMap(k))
    ensures Inv(Apply(s, PurgeConfigMap(k)))
  {
    PurgeConfigMapStep(s, Apply(s, PurgeConfigMap(k)), k);
  }

  lemma EndOfPassKeeps(s: State)
    requires Inv(s)
    ensures Enabled(s, ListFails) ==> Inv(Apply(s, ListFails))
    ensures Enabled(s, EndPass) ==> Inv(Apply(s, EndPass))
  {
    AbandonStep(s, s.(watcher := Idle), Idle);
  }

  lemma PurgeEndsKeeps(s: State)
    requires Inv(s) && (s.watcher.PurgingPods? || s.watcher.PurgingConfigMaps?)
    ensures Inv(s.(watcher := Acting(s.watcher.plan)))
  {
    AbandonStep(s, s.(watcher := Acting(s.watcher.plan)), Acting(s.watcher.plan));
  }

  lemma SkipKeeps(s: State, p: Plan)
    requires Inv(s) && Enabled(s, Skip(p))
    ensures Inv(Apply(s, Skip(p)))
  {
    AbandonStep(s, s.(watcher := Acting(p)), Acting(p));
  }

  lemma ActingStep(s: State, step: Step)
    requires Inv(s) && Enabled(s, step) && (step.DeleteOrphan? || step.DeleteStale? || step.Cancel?)
    ensures Inv(Apply(s, step))
  {
    match step
    case DeleteOrphan(k, _) => PlanHasNoOrphans(s, k);
    case DeleteStale(k) => DeleteStaleKeeps(s, k);
    case Cancel(id) => CancelKeeps(s, id);
  }

  lemma EndingStep(s: State, step: Step)
    requires Inv(s) && Enabled(s, step) && (step.ListFails? || step.Skip? || step.EndPass?)
    ensures Inv(Apply(s, step))
  {
    match step
    case ListFails => EndOfPassKeeps(s);
    case Skip(p) => SkipKeeps(s, p);
    case EndPass => EndOfPassKeeps(s);
  }

  lemma PurgeStep(s: State, step: Step)
    requires Inv(s) && Enabled(s, step)
    requires step.PurgeListPods? || step.PurgePod? || step.PurgeListConfigMaps? || step.PurgeConfigMap? || step.PurgeEnds?
    ensures Inv(Apply(s, step))
  {
    match step
    case PurgeListPods(u) => PurgeListPodsKeeps(s, u);
    case PurgePod(k, graceful) => PurgePodKeeps(s, k, graceful);
    case PurgeListConfigMaps => PurgeListConfigMapsKeeps(s);
    case PurgeConfigMap(k) => PurgeConfigMapKeeps(s, k);
    case PurgeEnds => PurgeEndsKeeps(s);
  }

  predicate IsRequestStep(step: Step) {
    step.Admit? || step.RequestSbatch? || step.RequestEnv? || step.Call? || step.Store? || step.SbatchOk? || step.SbatchFail?
    || step.Abort?
  }

  lemma RequestStep(s: State, step: Step)
    requires Inv(s) && Enabled(s, step) && H1(s, step) && H2(s, step) && H3(s, step) && IsRequestStep(step)
    ensures Inv(Apply(s, step))
  {
    if step.Admit? { AdmitStep(s, step); }
    else if step.RequestSbatch? { RequestSbatchStep(s, step); }
    else if step.RequestEnv? { RequestEnvStep(s, step); }
    else if step.Call? { CallStep(s, step); }
    else if step.Store? { StoreStep(s, step); }
    else if step.SbatchOk? { SbatchOkStep(s, step); }
    else if step.SbatchFail? { SbatchFailStep(s, step); }
    else { AbortStep(s, step); }
  }

  lemma EnvironmentStep(s: State, step: Step)
    requires Inv(s) && Enabled(s, step) && (step.PodPhase? || step.PodGone? || step.JobEnds?)
    ensures Inv(Apply(s, step))
  {
    match step
    case PodPhase(k, phase) => PodPhaseStep(s, k, phase);
    case PodGone(k) => PodGoneStep(s, k);
    case JobEnds(id) => JobEndsStep(s, id);
  }

  lemma ListingStep(s: State, step: Step)
    requires Inv(s) && Enabled(s, step) && (step.ListJobs? || step.ListPods? || step.ListConfigMaps?)
    ensures Inv(Apply(s, step))
  {
    match step
    case ListJobs => ListJobsStep(s);
    case ListPods => ListPodsStep(s, step);
    case ListConfigMaps => ListConfigMapsStep(s);
  }

  /** Injection, every step of the handlers including the failure path, the environment and every step of the watcher
      keep the invariant. */
  lemma StepKeepsInv(s: State, step: Step)
    requires Inv(s) && Enabled(s, step) && H1(s, step) && H2(s, step) && H3(s, step)
    ensures Inv(Apply(s, step))
  {
    if IsRequestStep(step) { RequestStep(s, step); }
    else if step.PodPhase? || step.PodGone? || step.JobEnds? { EnvironmentStep(s, step); }
    else if step.ListJobs? || step.ListPods? || step.ListConfigMaps? { ListingStep(s, step); }
    else if step.DeleteOrphan? || step.DeleteStale? || step.Cancel? { ActingStep(s, step); }
    else if step.ListFails? || step.Skip? || step.EndPass? { EndingStep(s, step); }
    else { PurgeStep(s, step); }
  }

  lemma {:induction false} RunKeepsInv(states: seq<State>, steps: seq<Step>, i: nat)
    requires IsRun(states, steps) && UnderH1(states, steps) && UnderH2(states, steps) && UnderH3(states, steps)
    requires i <= |steps|
    ensures Inv(states[i])
  {
    if i == 0 {
      InitOk();
    } else {
      RunKeepsInv(states, steps, i - 1);
      StepKeepsInv(states[i - 1], steps[i - 1]);
    }
  }

  lemma CancelIsHarmless(s: State, id: JobId)
    requires JobHistory(s.requested, s.jobs, s.launched) && CancelOk(s, id)
    ensures Harmless(s, Cancel(id))
  {
  }

  lemma DeleteStaleIsHarmless(s: State, k: Key)
    requires ConfigMapsOk(s.keys, s.launched, s.cms) && Identities(s.keys) && StaleOk(s, k)
    ensures Harmless(s, DeleteStale(k))
  {
  }

  lemma PurgePodIsHarmless(s: State, k: Key, graceful: bool, u: Uuid)
    requires PodsOk(s.stored, s.pods) && History(s.keys, s.stored, s.requested)
    requires JobLeft(s, u) && u in s.stored && s.stored[u] == k
    ensures Harmless(s, PurgePod(k, graceful))
  {
  }

  lemma PurgeConfigMapIsHarmless(s: State, k: Key, u: Uuid)
    requires ConfigMapsOk(s.keys, s.launched, s.cms) && Identities(s.keys) && JobLeft(s, u) && KeyOf(s.keys, u, k)
    ensures Harmless(s, PurgeConfigMap(k))
  {
  }

  /** What the watcher's plan promises. */
  lemma PlanFacts(s: State)
    requires WatcherOk(s) && s.watcher.Acting?
    ensures s.watcher.plan.orphans == {}
    ensures forall k :: k in s.watcher.plan.stale ==> StaleOk(s, k)
    ensures forall id :: id in s.watcher.plan.cancel ==> CancelOk(s, id)
  {
  }

  /** What a purge in progress promises. */
  lemma PurgeFacts(s: State)
    requires WatcherOk(s) && (s.watcher.PurgingPods? || s.watcher.PurgingConfigMaps?)
    ensures JobLeft(s, s.watcher.u)
    ensures s.watcher.PurgingPods? ==>
      forall k :: k in s.watcher.podKeys ==> s.watcher.u in s.stored && s.stored[s.watcher.u] == k
    ensures s.watcher.PurgingConfigMaps? ==> forall k :: k in s.watcher.cmKeys ==> KeyOf(s.keys, s.watcher.u, k)
  {
  }

  lemma CancelStepIsHarmless(s: State, id: JobId)
    requires Inv(s) && Enabled(s, Cancel(id))
    ensures Harmless(s, Cancel(id))
  {
    PlanFacts(s);
    CancelIsHarmless(s, id);
  }

  lemma DeleteStaleStepIsHarmless(s: State, k: Key)
    requires Inv(s) && Enabled(s, DeleteStale(k))
    ensures Harmless(s, DeleteStale(k))
  {
    PlanFacts(s);
    DeleteStaleIsHarmless(s, k);
  }

  lemma PurgePodStepIsHarmless(s: State, k: Key, graceful: bool)
    requires Inv(s) && Enabled(s, PurgePod(k, graceful))
    ensures Harmless(s, PurgePod(k, graceful))
  {
    PurgeFacts(s);
    PurgePodIsHarmless(s, k, graceful, s.watcher.u);
  }

  lemma PurgeConfigMapStepIsHarmless(s: State, k: Key)
    requires Inv(s) && Enabled(s, PurgeConfigMap(k))
    ensures Harmless(s, PurgeConfigMap(k))
  {
    PurgeFacts(s);
    PurgeConfigMapIsHarmless(s, k, s.watcher.u);
  }

  /** The steps of the watcher that destroy something. */
  predicate Destructive(step: Step) {
    step.Cancel? || step.DeleteOrphan? || step.DeleteStale? || step.PurgePod? || step.PurgeConfigMap?
  }

  lemma OthersAreHarmless(s: State, step: Step)
    requires !Destructive(step)
    ensures Harmless(s, step)
  {
  }

  lemma PlannedIsHarmless(s: State, step: Step)
    requires Inv(s) && Enabled(s, step) && (step.Cancel? || step.DeleteOrphan? || step.DeleteStale?)
    ensures Harmless(s, step)
  {
    match step
    case Cancel(id) => CancelStepIsHarmless(s, id);
    case DeleteOrphan(k, _) => PlanHasNoOrphans(s, k);
    case DeleteStale(k) => DeleteStaleStepIsHarmless(s, k);
  }

  lemma PurgeIsHarmless(s: State, step: Step)
    requires Inv(s) && Enabled(s, step) && (step.PurgePod? || step.PurgeConfigMap?)
    ensures Harmless(s, step)
  {
    match step
    case PurgePod(k, graceful) => PurgePodStepIsHarmless(s, k, graceful);
    case PurgeConfigMap(k) => PurgeConfigMapStepIsHarmless(s, k);
  }

  lemma InvMakesHarmless(s: State, step: Step)
    requires Inv(s) && Enabled(s, step)
    ensures Harmless(s, step)
  {
    if !Destructive(step) {
      OthersAreHarmless(s, step);
    } else if step.PurgePod? || step.PurgeConfigMap? {
      PurgeIsHarmless(s, step);
    } else {
      PlannedIsHarmless(s, step);
    }
  }

  /** In every interleaved run under H1, H2 and H3, whatever the watcher does from its stale listings is harmless: it
      cancels no job of a live pod, deletes a pod only after its job has left Slurm, and deletes a config-map only after
      its pod has finished or its job has left. */
  lemma RunsAreHarmless(states: seq<State>, steps: seq<Step>)
    requires IsRun(states, steps) && UnderH1(states, steps) && UnderH2(states, steps) && UnderH3(states, steps)
    ensures forall i :: 0 <= i < |steps| ==> Harmless(states[i], steps[i])
  {
    forall i | 0 <= i < |steps| ensures Harmless(states[i], steps[i]) {
      RunKeepsInv(states, steps, i);
      InvMakesHarmless(states[i], steps[i]);
    }
  }

  /** In every reachable state, the UUID of a job whose pod is live has exactly one config-map, whose job id is to be
      set or is that job's own. */
  lemma JobsOfLivePodsAreCovered(states: seq<State>, steps: seq<Step>, i: nat, id: JobId)
    requires IsRun(states, steps) && UnderH1(states, steps) && UnderH2(states, steps) && UnderH3(states, steps)
    requires i <= |steps| && id in states[i].jobs && HasLivePod(states[i].pods, states[i].jobs[id])
    ensures exists k ::
      && k in states[i].cms && states[i].cms[k].uuid == Some(states[i].jobs[id])
      && (states[i].cms[k].ToBeSet() || states[i].cms[k].jobid == Some(id))
      && forall k' :: k' in states[i].cms && states[i].cms[k'].uuid == Some(states[i].jobs[id]) ==> k' == k
  {
    RunKeepsInv(states, steps, i);
    var s := states[i];
    var u := s.jobs[id];
    var p :| p in s.pods && s.pods[p].Live() && s.pods[p].uuid == Some(u);
    assert CoveredUuid(s, u);
    var k := s.keys[u];
    assert ConfigMapOk(s.keys, s.launched, k, s.cms[k]);
    assert s.cms[k].uuid == Some(u);
    forall k' | k' in s.cms && s.cms[k'].uuid == Some(u) ensures k' == k {
      assert ConfigMapOk(s.keys, s.launched, k', s.cms[k']);
    }
  }

  /** In every reachable state, a live pod that has not asked for its job yet has its config-map, still to be set. */
  lemma PodsAwaitingTheirJobAreCovered(states: seq<State>, steps: seq<Step>, i: nat, p: Key)
    requires IsRun(states, steps) && UnderH1(states, steps) && UnderH2(states, steps) && UnderH3(states, steps)
    requires i <= |steps| && p in states[i].pods && states[i].pods[p].Live() && states[i].pods[p].uuid.Some?
    requires states[i].pods[p].uuid.value !in states[i].requested
    ensures exists k :: k in states[i].cms && states[i].cms[k] == Written(states[i].pods[p].uuid.value, TO_BE_SET)
  {
    RunKeepsInv(states, steps, i);
    var s := states[i];
    var u := s.pods[p].uuid.value;
    assert CoveredUuid(s, u);
    var k := s.keys[u];
    assert ConfigMapOk(s.keys, s.launched, k, s.cms[k]);
    assert s.cms[k] == Written(u, TO_BE_SET);
  }
}
