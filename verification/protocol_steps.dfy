/** Every step keeps the invariant of the stores. */
module ProtocolSteps {
  import opened Wrappers
  import opened Text
  import opened Cluster
  import opened Protocol
  import opened ProtocolInvariant

  /** A request keeps its invariant when the histories grow around it and nothing it owns changes. */
  lemma ThreadStays(s: State, t: State, th: Thread)
    requires ThreadOk(s, th)
    requires forall u :: u in s.keys ==> u in t.keys && t.keys[u] == s.keys[u]
    requires forall id :: id in s.launched ==> id in t.launched && t.launched[id] == s.launched[id]
    requires s.requested <= t.requested
    requires th.uuid in t.stored ==> th.uuid in s.stored
    requires th.Sole() ==> forall id :: id in t.launched && id !in s.launched ==> t.launched[id] != th.uuid
    requires th.StorePod? || th.SbatchRun? ==> th.key in s.cms ==> th.key in t.cms
    ensures ThreadOk(t, th)
  {
  }

  /** Live pods keep their config-maps when no pod is new, no request is forgotten, no job is new and no config-map
      goes. */
  lemma CoveredStays(s: State, t: State)
    requires Covered(s) && t.pods == s.pods
    requires s.requested <= t.requested && s.cms.Keys <= t.cms.Keys
    requires forall id :: id in t.jobs ==> id in s.jobs && s.jobs[id] == t.jobs[id]
    requires forall u :: u in s.keys ==> u in t.keys && t.keys[u] == s.keys[u]
    ensures Covered(t)
  {
  }

  lemma AdmitThreads(s: State, t: State, tid: nat, u: Uuid, k: Key)
    requires ThreadsOk(s) && SoleWriters(s.threads) && u !in s.keys && History(s.keys, s.stored, s.requested)
    requires t.threads == s.threads[tid := InjectGet(u, k)] && t.keys == s.keys[u := k]
    requires t.cms == s.cms && t.stored == s.stored && t.requested == s.requested && t.launched == s.launched
    ensures ThreadsOk(t) && SoleWriters(t.threads)
  {
  }

  lemma AdmitConfigMaps(keys: Keys, u: Uuid, k: Key, launched: Jobs, cms: ConfigMaps)
    requires ConfigMapsOk(keys, launched, cms) && u !in keys
    ensures ConfigMapsOk(keys[u := k], launched, cms)
  {
  }

  lemma AdmitKeeps(s: State, t: State, tid: nat, a: Admission)
    requires Stores(s) && a.uuid !in s.keys && AllOf(a.uuid, IsNameChar) && AllOf(a.namespace, IsNameChar)
    requires forall u :: u in s.keys ==> s.keys[u] != KeyFor(a)
    requires t == s.(threads := s.threads[tid := InjectGet(a.uuid, KeyFor(a))],
                     admitted := s.admitted[a.uuid := a], keys := s.keys[a.uuid := KeyFor(a)])
    ensures Stores(t)
  {
    AdmitThreads(s, t, tid, a.uuid, KeyFor(a));
    AdmitConfigMaps(s.keys, a.uuid, KeyFor(a), s.launched, s.cms);
    forall k | k in s.pods && s.pods[k].Live() && s.pods[k].uuid.Some?
      ensures CoveredUuid(t, s.pods[k].uuid.value)
    {
      assert CoveredUuid(s, s.pods[k].uuid.value);
    }
  }

  lemma RequestSbatchThreads(s: State, t: State, tid: nat, u: Uuid)
    requires ThreadsOk(s) && SoleWriters(s.threads) && History(s.keys, s.stored, s.requested)
    requires JobHistory(s.requested, s.jobs, s.launched) && u in s.stored && u !in s.requested
    requires t == s.(threads := s.threads[tid := SbatchGet(u, s.keys[u])], requested := s.requested + {u})
    ensures ThreadsOk(t) && SoleWriters(t.threads)
  {
  }

  lemma RequestSbatchKeeps(s: State, t: State, tid: nat, u: Uuid)
    requires Stores(s) && tid !in s.threads && u in s.stored && u !in s.requested
    requires t == s.(threads := s.threads[tid := SbatchGet(u, s.keys[u])], requested := s.requested + {u})
    ensures Stores(t)
  {
    RequestSbatchThreads(s, t, tid, u);
    CoveredStays(s, t);
  }

  /** A new request fits, and is not a sole writer. */
  lemma NewPublisher(keys: Keys, stored: map<Uuid, Key>, requested: set<Uuid>, launched: Jobs, cms: ConfigMaps,
                     threads: map<nat, Thread>, tid: nat, u: Uuid, id: JobId)
    requires ThreadsFit(keys, stored, requested, launched, cms, threads) && SoleWriters(threads)
    requires u in keys && id in launched && launched[id] == u
    ensures var threads' := threads[tid := PublishGet(u, keys[u], id)];
      ThreadsFit(keys, stored, requested, launched, cms, threads') && SoleWriters(threads')
  {
  }

  lemma RequestEnvKeeps(s: State, t: State, tid: nat, u: Uuid, id: JobId)
    requires Stores(s) && u in s.stored && id in s.launched && s.launched[id] == u
    requires t == s.(threads := s.threads[tid := PublishGet(u, s.keys[u], id)])
    ensures Stores(t)
  {
    NewPublisher(s.keys, s.stored, s.requested, s.launched, s.cms, s.threads, tid, u, id);
  }

  /** Threads stay correct when one of them ends and the pod of its UUID is stored. */
  lemma StoreThreads(s: State, t: State, tid: nat)
    requires ThreadsOk(s) && SoleWriters(s.threads) && tid in s.threads && s.threads[tid].StorePod?
    requires s.threads[tid].uuid !in s.requested
    requires t.threads == s.threads - {tid} && t.stored.Keys == s.stored.Keys + {s.threads[tid].uuid}
    requires t.cms == s.cms && t.keys == s.keys && t.requested == s.requested && t.launched == s.launched
    ensures ThreadsOk(t) && SoleWriters(t.threads)
  {
  }

  lemma StoreCovered(s: State, t: State, k: Key, u: Uuid)
    requires Covered(s) && u in s.keys && s.keys[u] in s.cms
    requires t.pods == s.pods[k := Pod(Some(u), Some(u), None, Pending)]
    requires t.cms == s.cms && t.keys == s.keys && t.requested == s.requested && t.jobs == s.jobs
    ensures Covered(t)
  {
  }

  lemma StorePods(stored: map<Uuid, Key>, pods: Pods, k: Key, u: Uuid)
    requires PodsOk(stored, pods) && u !in stored
    ensures PodsOk(stored[u := k], pods[k := Pod(Some(u), Some(u), None, Pending)])
  {
  }

  lemma StoreHistory(keys: Keys, stored: map<Uuid, Key>, requested: set<Uuid>, k: Key, u: Uuid)
    requires History(keys, stored, requested) && u in keys && forall v :: v in stored ==> stored[v] != k
    ensures History(keys, stored[u := k], requested)
  {
  }

  lemma StoreKeeps(s: State, t: State, tid: nat, k: Key, u: Uuid)
    requires Stores(s) && tid in s.threads && s.threads[tid].StorePod? && u == s.threads[tid].uuid
    requires forall v :: v in s.stored ==> s.stored[v] != k
    requires t == s.(pods := s.pods[k := Pod(Some(u), Some(u), None, Pending)], threads := s.threads - {tid},
                     stored := s.stored[u := k])
    ensures Stores(t)
  {
    assert ThreadOk(s, s.threads[tid]);
    StoreThreads(s, t, tid);
    StoreCovered(s, t, k, u);
    StorePods(s.stored, s.pods, k, u);
    StoreHistory(s.keys, s.stored, s.requested, k, u);
  }

  lemma SbatchOkThreads(s: State, t: State, tid: nat, id: JobId)
    requires ThreadsOk(s) && SoleWriters(s.threads) && tid in s.threads && s.threads[tid].SbatchRun? && id !in s.launched
    requires var th := s.threads[tid];
      t == s.(jobs := s.jobs[id := th.uuid], launched := s.launched[id := th.uuid],
              threads := s.threads[tid := PublishGet(th.uuid, th.key, id)])
    ensures ThreadsOk(t) && SoleWriters(t.threads)
  {
    forall i | i in t.threads ensures ThreadOk(t, t.threads[i]) {
      assert ThreadOk(s, s.threads[i]);
      if i != tid { ThreadStays(s, t, s.threads[i]); }
    }
  }

  lemma CreateJob(requested: set<Uuid>, jobs: Jobs, launched: Jobs, id: JobId, u: Uuid)
    requires JobHistory(requested, jobs, launched) && id !in launched && !Created(launched, u) && u in requested && IsDecimal(id)
    ensures JobHistory(requested, jobs[id := u], launched[id := u])
  {
  }

  lemma CreateJobConfigMaps(keys: Keys, launched: Jobs, cms: ConfigMaps, id: JobId, u: Uuid)
    requires ConfigMapsOk(keys, launched, cms) && id !in launched
    ensures ConfigMapsOk(keys, launched[id := u], cms)
  {
  }

  lemma SbatchOkCovered(s: State, t: State, id: JobId, u: Uuid)
    requires Covered(s) && u in s.keys && s.keys[u] in s.cms
    requires t.pods == s.pods && t.cms == s.cms && t.keys == s.keys && t.requested == s.requested
    requires id !in s.jobs && t.jobs == s.jobs[id := u]
    ensures Covered(t)
  {
  }

  /** What a request about to submit or to roll back relies on. */
  lemma SubmissionFacts(s: State, tid: nat)
    requires ThreadsOk(s) && tid in s.threads && (s.threads[tid].SbatchRun? || s.threads[tid].Rollback?)
    ensures var th := s.threads[tid];
      KeyOf(s.keys, th.uuid, th.key) && th.uuid in s.requested && !Created(s.launched, th.uuid)
      && (th.SbatchRun? ==> th.key in s.cms)
  {
    assert ThreadOk(s, s.threads[tid]);
  }

  lemma SbatchOkKeeps(s: State, t: State, tid: nat, id: JobId)
    requires Stores(s) && tid in s.threads && s.threads[tid].SbatchRun? && id !in s.launched && IsDecimal(id)
    requires var th := s.threads[tid];
      t == s.(jobs := s.jobs[id := th.uuid], launched := s.launched[id := th.uuid],
              threads := s.threads[tid := PublishGet(th.uuid, th.key, id)])
    ensures Stores(t)
  {
    var u := s.threads[tid].uuid;
    SubmissionFacts(s, tid);
    SbatchOkThreads(s, t, tid, id);
    CreateJob(s.requested, s.jobs, s.launched, id, u);
    CreateJobConfigMaps(s.keys, s.launched, s.cms, id, u);
    SbatchOkCovered(s, t, id, u);
  }

  lemma ThreadEndKeeps(s: State, tid: nat)
    requires Stores(s)
    ensures Stores(s.(threads := s.threads - {tid}))
  {
  }

  /** Pods that finish or vanish. */
  lemma FewerPodsKeep(s: State, pods: Pods)
    requires Stores(s)
    requires forall k :: k in pods ==> k in s.pods && pods[k].(phase := s.pods[k].phase) == s.pods[k]
                                       && (pods[k].Live() ==> s.pods[k].Live())
    ensures Stores(s.(pods := pods))
  {
  }

  lemma FewerJobsKeep(s: State, id: JobId)
    requires Stores(s)
    ensures Stores(s.(jobs := s.jobs - {id}))
  {
  }

  /** Deleting a config-map whose UUID has a created job, and either no live pod or no job left. */
  lemma DeletionThreads(s: State, k: Key, u: Uuid)
    requires ThreadsOk(s) && Identities(s.keys) && KeyOf(s.keys, u, k) && Created(s.launched, u) && u in s.stored
    ensures ThreadsOk(s.(cms := s.cms - {k}))
  {
  }

  /** Live pods stay covered when a config-map goes whose pod has finished or whose job is not on Slurm. */
  lemma DeletionCovered(keys: Keys, requested: set<Uuid>, jobs: Jobs, cms: ConfigMaps, pods: Pods, k: Key, u: Uuid)
    requires AllCovered(keys, requested, jobs, cms, pods) && Identities(keys) && KeyOf(keys, u, k) && u in requested
    requires !HasLivePod(pods, u) || !OnSlurm(jobs, u)
    ensures AllCovered(keys, requested, jobs, cms - {k}, pods)
  {
    forall j | j in pods && pods[j].Live() && pods[j].uuid.Some?
      ensures CoveredIn(keys, requested, jobs, cms - {k}, pods[j].uuid.value)
    {
      var v := pods[j].uuid.value;
      assert CoveredIn(keys, requested, jobs, cms, v);
      if v in keys && keys[v] == k { assert v == u; }
    }
  }

  lemma DeletionConfigMaps(keys: Keys, launched: Jobs, cms: ConfigMaps, k: Key)
    requires ConfigMapsOk(keys, launched, cms)
    ensures ConfigMapsOk(keys, launched, cms - {k})
  {
  }

  lemma CreatedIsStored(s: State, u: Uuid)
    requires History(s.keys, s.stored, s.requested) && JobHistory(s.requested, s.jobs, s.launched) && Created(s.launched, u)
    ensures u in s.requested && u in s.stored
  {
  }

  lemma ConfigMapDeletionKeeps(s: State, k: Key, u: Uuid)
    requires Stores(s) && KeyOf(s.keys, u, k) && Created(s.launched, u)
    requires !HasLivePod(s.pods, u) || !OnSlurm(s.jobs, u)
    ensures Stores(s.(cms := s.cms - {k}))
  {
    CreatedIsStored(s, u);
    DeletionThreads(s, k, u);
    DeletionConfigMaps(s.keys, s.launched, s.cms, k);
    DeletionCovered(s.keys, s.requested, s.jobs, s.cms, s.pods, k, u);
  }

  /** Rolling back a failed submission: the job was never created. */
  lemma RollbackThreads(s: State, t: State, tid: nat)
    requires ThreadsOk(s) && SoleWriters(s.threads) && Identities(s.keys)
    requires tid in s.threads && s.threads[tid].Rollback?
    requires t == s.(cms := s.cms - {s.threads[tid].key}, threads := s.threads - {tid})
    ensures ThreadsOk(t) && SoleWriters(t.threads)
  {
  }

  lemma NotOnSlurm(requested: set<Uuid>, jobs: Jobs, launched: Jobs, u: Uuid)
    requires JobHistory(requested, jobs, launched) && !Created(launched, u)
    ensures !OnSlurm(jobs, u)
  {
  }

  lemma RollbackKeeps(s: State, tid: nat)
    requires Stores(s) && tid in s.threads && s.threads[tid].Rollback?
    ensures Stores(s.(cms := s.cms - {s.threads[tid].key}, threads := s.threads - {tid}))
  {
    var k, u := s.threads[tid].key, s.threads[tid].uuid;
    SubmissionFacts(s, tid);
    NotOnSlurm(s.requested, s.jobs, s.launched, u);
    RollbackThreads(s, s.(cms := s.cms - {k}, threads := s.threads - {tid}), tid);
    DeletionConfigMaps(s.keys, s.launched, s.cms, k);
    DeletionCovered(s.keys, s.requested, s.jobs, s.cms, s.pods, k, u);
  }

  lemma PutConfigMaps(keys: Keys, launched: Jobs, cms: ConfigMaps, k: Key, cm: ConfigMap)
    requires ConfigMapsOk(keys, launched, cms) && ConfigMapOk(keys, launched, k, cm)
    ensures ConfigMapsOk(keys, launched, cms[k := cm])
  {
  }

  lemma PutCovered(keys: Keys, requested: set<Uuid>, jobs: Jobs, cms: ConfigMaps, pods: Pods, k: Key, cm: ConfigMap)
    requires AllCovered(keys, requested, jobs, cms, pods)
    ensures AllCovered(keys, requested, jobs, cms[k := cm], pods)
  {
    forall j | j in pods && pods[j].Live() && pods[j].uuid.Some?
      ensures CoveredIn(keys, requested, jobs, cms[k := cm], pods[j].uuid.value)
    {
      assert CoveredIn(keys, requested, jobs, cms, pods[j].uuid.value);
    }
  }

  /** A thread ends after it has written a config-map. */
  lemma LastPutThreads(s: State, t: State, tid: nat)
    requires ThreadsOk(s) && SoleWriters(s.threads) && t.threads == s.threads - {tid} && s.cms.Keys <= t.cms.Keys
    requires t.keys == s.keys && t.stored == s.stored && t.requested == s.requested && t.launched == s.launched
    ensures ThreadsOk(t) && SoleWriters(t.threads)
  {
    forall i | i in t.threads ensures ThreadOk(t, t.threads[i]) {
      ThreadStays(s, t, s.threads[i]);
    }
  }

  lemma PutThreads(s: State, t: State, tid: nat, next: Thread)
    requires ThreadsOk(s) && SoleWriters(s.threads) && tid in s.threads
    requires next.uuid == s.threads[tid].uuid && (next.Sole() ==> s.threads[tid].Sole())
    requires t.threads == s.threads[tid := next] && s.cms.Keys <= t.cms.Keys
    requires t.keys == s.keys && t.stored == s.stored && t.requested == s.requested && t.launched == s.launched
    requires ThreadOk(t, next)
    ensures ThreadsOk(t) && SoleWriters(t.threads)
  {
  }

  /** Writing a correct config-map, by a thread that goes on as `next`. */
  lemma PutKeeps(s: State, t: State, tid: nat, k: Key, cm: ConfigMap, next: Thread)
    requires Stores(s) && tid in s.threads && ConfigMapOk(s.keys, s.launched, k, cm)
    requires next.uuid == s.threads[tid].uuid && (next.Sole() ==> s.threads[tid].Sole())
    requires t == s.(cms := s.cms[k := cm], threads := s.threads[tid := next]) && ThreadOk(t, next)
    ensures Stores(t)
  {
    PutConfigMaps(s.keys, s.launched, s.cms, k, cm);
    PutThreads(s, t, tid, next);
    CoveredStays(s, t);
  }

  /** A thread goes on without changing a store. */
  lemma ThreadGoesOn(s: State, t: State, tid: nat, next: Thread)
    requires Stores(s) && tid in s.threads
    requires next.uuid == s.threads[tid].uuid && (next.Sole() ==> s.threads[tid].Sole())
    requires t == s.(threads := s.threads[tid := next]) && ThreadOk(t, next)
    ensures Stores(t)
  {
    PutThreads(s, t, tid, next);
    CoveredStays(s, t);
  }
}
