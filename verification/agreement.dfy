/** One pass of the watcher brings the resources of the injector into agreement with Slurm. */
module Agreement {
  import opened Wrappers
  import opened Cluster
  import opened Servers
  import opened WatcherPass

  /** Pods and config-maps as the injector leaves them: labels agree with annotations, UUIDs of config-maps are
      distinct. */
  predicate InjectorWritten(pods: Pods, cms: ConfigMaps) {
    && AllWritten(cms) && DistinctUuids(cms)
    && forall k :: k in pods ==> pods[k].uuid.Some? && pods[k].uuidLabel == pods[k].uuid && pods[k].jobid == None
  }

  /** Kubernetes and Slurm agree: every published config-map has a live pod and a job, and every job has a config-map
      that keeps it. */
  predicate Agree(s: Stores) {
    && (forall k :: k in s.cms && s.cms[k].Published() ==>
          s.cms[k].uuid.Some? && HasLivePod(s.pods, s.cms[k].uuid.value) && OnSlurm(s.jobs, s.cms[k].uuid.value))
    && (forall id :: id in s.jobs ==> Kept(s.pods, s.cms, s.jobs[id]))
  }

  /** A pass over stores that agree acts on nothing. */
  lemma AgreementIsStable(s: Stores)
    requires InjectorWritten(s.pods, s.cms) && Agree(s)
    ensures Orphans(s.pods, s.cms) == {} && StaleConfigMaps(s.pods, s.cms) == {}
    ensures ToCancel(s.jobs, s.pods, s.cms) == {} && ToPurge(s.jobs, s.pods, s.cms) == {}
    ensures PassOutcome(s) == s
  {
    assert ToPurge(s.jobs, s.pods, s.cms) == {};
    assert s.pods - {} == s.pods && s.cms - {} == s.cms && s.jobs - {} == s.jobs;
    PurgedNone(s.pods, s.cms);
  }

  lemma LivePodSurvives(s: Stores, u: Uuid)
    requires InjectorWritten(s.pods, s.cms) && HasLivePod(s.pods, u) && u !in ToPurge(s.jobs, s.pods, s.cms)
    ensures HasLivePod(PassOutcome(s).pods, u)
  {
    var p :| p in s.pods && s.pods[p].Live() && s.pods[p].uuid == Some(u);
    assert p !in Orphans(s.pods, s.cms);
    assert p in PassOutcome(s).pods;
  }

  lemma ConfigMapSurvives(s: Stores, k: Key)
    requires InjectorWritten(s.pods, s.cms) && k in s.cms && IsKeeper(s.pods, s.cms, k)
    requires s.cms[k].uuid.value !in ToPurge(s.jobs, s.pods, s.cms)
    ensures k in PassOutcome(s).cms && PassOutcome(s).cms[k] == s.cms[k]
  {
  }

  /** A config-map that a pass leaves published has a live pod and a job, and both stay. */
  lemma PublishedSurvivor(s: Stores, k: Key)
    requires InjectorWritten(s.pods, s.cms) && k in PassOutcome(s).cms && PassOutcome(s).cms[k].Published()
    ensures var u := s.cms[k].uuid.value;
      u !in ToPurge(s.jobs, s.pods, s.cms) && HasLivePod(PassOutcome(s).pods, u) && OnSlurm(PassOutcome(s).jobs, u)
  {
    var u := s.cms[k].uuid.value;
    assert s.cms[k] == PassOutcome(s).cms[k] && k !in StaleConfigMaps(s.pods, s.cms);
    assert HasLivePod(s.pods, u);
    var pods := s.pods - Orphans(s.pods, s.cms);
    var p :| p in s.pods && s.pods[p].Live() && s.pods[p].uuid == Some(u);
    assert p in PodsLabelled(pods, u);
    assert u !in ToPurge(s.jobs, s.pods, s.cms);
    LivePodSurvives(s, u);
    assert IsJobless(s.jobs, s.pods, s.cms, k) ==> u in ToPurge(s.jobs, s.pods, s.cms);
    var id :| id in s.jobs && s.jobs[id] == u;
    assert IsKeeper(s.pods, s.cms, k) && Kept(s.pods, s.cms, u);
    assert id in PassOutcome(s).jobs && PassOutcome(s).jobs[id] == u;
  }

  /** A job that a pass leaves is kept by a config-map that the pass leaves. */
  lemma JobSurvivor(s: Stores, id: JobId)
    requires InjectorWritten(s.pods, s.cms) && id in PassOutcome(s).jobs
    ensures PassOutcome(s).jobs[id] == s.jobs[id] && Kept(PassOutcome(s).pods, PassOutcome(s).cms, s.jobs[id])
  {
    var t, u := PassOutcome(s), s.jobs[id];
    assert Kept(s.pods, s.cms, u);
    var k :| k in s.cms && s.cms[k].uuid == Some(u) && IsKeeper(s.pods, s.cms, k);
    assert u !in ToPurge(s.jobs, s.pods, s.cms) by { assert OnSlurm(s.jobs, u); }
    ConfigMapSurvives(s, k);
    if HasLivePod(s.pods, u) { LivePodSurvives(s, u); }
    assert IsKeeper(t.pods, t.cms, k);
  }

  /** One pass over resources of the injector, with every request answered, brings Kubernetes and Slurm into agreement,
      and a second pass acts on nothing. */
  lemma OnePassReachesAgreement(s: Stores)
    requires InjectorWritten(s.pods, s.cms)
    ensures InjectorWritten(PassOutcome(s).pods, PassOutcome(s).cms) && Agree(PassOutcome(s))
    ensures PassOutcome(PassOutcome(s)) == PassOutcome(s)
  {
    var t := PassOutcome(s);
    forall k | k in t.cms && t.cms[k].Published()
      ensures t.cms[k].uuid.Some? && HasLivePod(t.pods, t.cms[k].uuid.value) && OnSlurm(t.jobs, t.cms[k].uuid.value)
    {
      PublishedSurvivor(s, k);
    }
    forall id | id in t.jobs ensures Kept(t.pods, t.cms, t.jobs[id]) {
      JobSurvivor(s, id);
    }
    AgreementIsStable(t);
  }

  // ----- What a pass keeps -------------------------------------------------------------------------

  /** Some pod with the UUID has neither succeeded nor failed. */
  predicate PodRuns(pods: Pods, u: Uuid) {
    exists k :: k in pods && pods[k].uuid == Some(u) && pods[k].phase !in {Succeeded, Failed}
  }

  /** Slurm has a job with the UUID. */
  predicate JobRuns(jobs: Jobs, u: Uuid) { exists id :: id in jobs && jobs[id] == u }

  predicate IsPending(cm: ConfigMap) { cm.jobid == Some("to-be-set") }

  lemma LiveIsRunning(pods: Pods, u: Uuid)
    ensures HasLivePod(pods, u) <==> PodRuns(pods, u)
  {
    forall k | k in pods ensures pods[k].Live() <==> pods[k].phase !in {Succeeded, Failed} {
    }
  }

  /** A UUID is known exactly if it has a config-map that is to be set, or one whose pod runs, with a job id on
      either. */
  lemma KnownExactly(pods: Pods, cms: ConfigMaps, u: Uuid)
    ensures Known(pods, cms, u) <==>
      exists c :: c in cms && cms[c].uuid == Some(u) &&
        (IsPending(cms[c]) || (PodRuns(pods, u) && (cms[c].jobid.Some? || RunsWithJobId(pods, u))))
  {
    LiveIsRunning(pods, u);
    if k :| k in pods && IsKnownPod(pods, cms, k, u) {
      assert pods[k].phase !in {Succeeded, Failed} && RunsWithJobId(pods, u);
    }
    if RunsWithJobId(pods, u) && HasConfigMap(cms, u) {
      var k :| k in pods && pods[k].uuid == Some(u) && pods[k].jobid.Some? && pods[k].phase !in {Succeeded, Failed};
      assert IsKnownPod(pods, cms, k, u);
    }
    forall c | c in cms && cms[c].uuid == Some(u) && cms[c].jobid.Some?
      ensures IsKeeper(pods, cms, c) <==> IsPending(cms[c]) || PodRuns(pods, u)
    {
    }
  }

  predicate RunsWithJobId(pods: Pods, u: Uuid) {
    exists k :: k in pods && pods[k].uuid == Some(u) && pods[k].jobid.Some? && pods[k].phase !in {Succeeded, Failed}
  }

  /** Some config-map of the UUID is published. */
  predicate IsPublished(cms: ConfigMaps, u: Uuid) { exists c :: c in cms && cms[c].uuid == Some(u) && !IsPending(cms[c]) }

  lemma PurgedExactly(s: Stores, u: Uuid)
    requires AllWritten(s.cms)
    ensures u in ToPurge(s.jobs, s.pods, s.cms) <==> PodRuns(s.pods, u) && !JobRuns(s.jobs, u) && IsPublished(s.cms, u)
  {
    LiveIsRunning(s.pods, u);
    if c :| c in s.cms && s.cms[c].uuid == Some(u) && !IsPending(s.cms[c]) {
      assert s.cms[c].Published();
      assert IsJobless(s.jobs, s.pods, s.cms, c) ==> u in ToPurge(s.jobs, s.pods, s.cms);
    }
  }

  /** After an answered pass over resources of the injector a config-map is left if and only if it is to be set, or a
      pod and a job of it run. */
  lemma ConfigMapStaysExactly(s: Stores, c: Key)
    requires InjectorWritten(s.pods, s.cms) && c in s.cms
    ensures var u := s.cms[c].uuid.value;
      c in PassOutcome(s).cms <==> IsPending(s.cms[c]) || (PodRuns(s.pods, u) && JobRuns(s.jobs, u))
  {
    var u := s.cms[c].uuid.value;
    LiveIsRunning(s.pods, u);
    PurgedExactly(s, u);
    NoOrphans(s);
    if u in ToPurge(s.jobs, s.pods, s.cms) {
      var k :| k in s.pods && s.pods[k].uuid == Some(u) && s.pods[k].phase !in {Succeeded, Failed};
      assert k in PodsLabelled(s.pods - {}, u);
    }
  }

  lemma NoOrphans(s: Stores)
    requires InjectorWritten(s.pods, s.cms)
    ensures Orphans(s.pods, s.cms) == {} && s.pods - {} == s.pods
  {
  }

  /** After an answered pass a pod, of the injector or not, is gone if and only if it runs with UUID and job id but
      without a config-map, or its label is the UUID of a published config-map for which a pod runs and no job. */
  lemma PodGoesExactly(s: Stores, k: Key)
    requires AllWritten(s.cms) && k in s.pods
    ensures k !in PassOutcome(s).pods <==>
      || (s.pods[k].uuid.Some? && s.pods[k].jobid.Some? && s.pods[k].phase !in {Succeeded, Failed} &&
          forall c :: c in s.cms ==> s.cms[c].uuid != s.pods[k].uuid)
      || (s.pods[k].uuidLabel.Some? && var u := s.pods[k].uuidLabel.value;
            PodRuns(s.pods, u) && !JobRuns(s.jobs, u) && IsPublished(s.cms, u))
  {
    if s.pods[k].uuidLabel.Some? { PurgedExactly(s, s.pods[k].uuidLabel.value); }
    assert k in Orphans(s.pods, s.cms) <==> IsOrphan(s.pods, s.cms, k);
    assert s.pods[k].Live() <==> s.pods[k].phase !in {Succeeded, Failed};
  }

  /** After an answered pass a job is left if and only if its UUID has a config-map that is to be set, or one and a pod
      that runs. */
  lemma JobStaysExactly(s: Stores, id: JobId)
    requires AllWritten(s.cms) && id in s.jobs
    ensures var u := s.jobs[id];
      id in PassOutcome(s).jobs <==>
        exists c :: c in s.cms && s.cms[c].uuid == Some(u) && (IsPending(s.cms[c]) || PodRuns(s.pods, u))
  {
    LiveIsRunning(s.pods, s.jobs[id]);
    KnownIsKept(s.pods, s.cms, s.jobs[id]);
  }

  // ----- Refused requests --------------------------------------------------------------------------

  /** A UUID to purge has no stale config-map. */
  lemma NothingStale(s: Stores, u: Uuid)
    requires InjectorWritten(s.pods, s.cms) && u in ToPurge(s.jobs, s.pods, s.cms)
    ensures forall k :: k in s.cms && s.cms[k].uuidLabel == Some(u) ==> k !in StaleConfigMaps(s.pods, s.cms)
  {
  }

  /** Purges keep whatever they are refused. */
  lemma {:induction false} RefusedStay(refused: set<Request>, pods: Pods, cms: ConfigMaps, us: set<Uuid>, v: Uuid,
                                       pods': Pods, cms': ConfigMaps)
    requires UuidsPurged(refused, pods, cms, us, pods', cms')
    ensures forall k :: k in pods && pods[k].uuidLabel == Some(v) && (DeletePod(k) in refused || ListPodsOf(v) in refused)
                        ==> k in pods'
    ensures forall k :: k in cms && cms[k].uuidLabel == Some(v) &&
                        (DeleteConfigMap(k) in refused || ListConfigMapsOf(v) in refused || ListPodsOf(v) in refused)
                        ==> k in cms'
    decreases us
  {
    if us != {} {
      var u, pods1, cms1 :|
        u in us && UuidsPurged(refused, pods, cms, us - {u}, pods1, cms1)
        && UuidPurged(refused, pods1, cms1, u, pods', cms');
      OthersAreKept(refused, pods, cms, us - {u}, pods1, cms1);
      RefusedStay(refused, pods, cms, us - {u}, v, pods1, cms1);
      UuidPurgedAtMost(refused, pods1, cms1, u, pods', cms');
    }
  }

  /** A pass in which any requests but the listings are refused. Of a UUID without a job, the pods go if their listing
      and deletions are answered, and the config-maps too if theirs are answered; a pod or config-map whose own deletion
      is refused stays, and so does everything of a UUID whose pods cannot be listed. */
  lemma RefusedPass(s: Stores, refused: set<Request>, t: Stores, u: Uuid)
    requires InjectorWritten(s.pods, s.cms) && ListingsAnswered(refused) && MayLeave(s, refused, t)
    requires u in ToPurge(s.jobs, s.pods, s.cms)
    ensures PodsAnswered(refused, s.pods, u) ==> !HasLabelledPod(t.pods, u)
    ensures PodsAnswered(refused, s.pods, u) && ConfigMapsAnswered(refused, s.cms, u) ==> !HasLabelledConfigMap(t.cms, u)
    ensures forall k :: k in s.pods && s.pods[k].uuidLabel == Some(u) && (DeletePod(k) in refused || ListPodsOf(u) in refused)
                        ==> k in t.pods
    ensures forall k :: k in s.cms && s.cms[k].uuidLabel == Some(u) &&
                        (DeleteConfigMap(k) in refused || ListConfigMapsOf(u) in refused || ListPodsOf(u) in refused)
                        ==> k in t.cms
  {
    var k :| k in s.cms && IsJobless(s.jobs, s.pods, s.cms, k) && s.cms[k].uuid.value == u;
    var p :| p in s.pods && s.pods[p].Live() && s.pods[p].uuid == Some(u);
    assert HasOtherPod(s.pods, s.cms, u);
    PassPurges(refused, s.pods, s.cms, ToPurge(s.jobs, s.pods, s.cms), u, t.pods, t.cms);
    NothingStale(s, u);
    RefusedStay(refused, s.pods - PodsDeletable(refused, Orphans(s.pods, s.cms)),
                s.cms - ConfigMapsDeletable(refused, StaleConfigMaps(s.pods, s.cms)), ToPurge(s.jobs, s.pods, s.cms), u,
                t.pods, t.cms);
  }
}
