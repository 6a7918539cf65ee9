/** How the steps of requests and of the environment change the stores, and why the watcher's stale listings survive
    them. */
module ProtocolFrames {
  import opened Cluster
  import opened Protocol
  import opened ProtocolInvariant

  /** What any step may do to a state: histories grow, a UUID whose pod was stored gets no new live pod, and a job that
      was created is not created again. */
  ghost predicate Evolves(s: State, t: State) {
    && (forall u :: u in s.keys ==> u in t.keys && t.keys[u] == s.keys[u])
    && (forall u :: u in s.stored ==> u in t.stored && t.stored[u] == s.stored[u])
    && (forall id :: id in s.launched ==> id in t.launched && t.launched[id] == s.launched[id])
    && (forall u :: u in s.stored && HasLivePod(t.pods, u) ==> HasLivePod(s.pods, u))
    && (forall id :: id in t.jobs && id in s.launched ==> id in s.jobs)
  }

  lemma FinishedStays(s: State, t: State, u: Uuid)
    requires Evolves(s, t) && PodFinished(s, u)
    ensures PodFinished(t, u)
  {
  }

  lemma JobLeftStays(s: State, t: State, u: Uuid)
    requires Evolves(s, t) && JobLeft(s, u)
    requires JobHistory(s.requested, s.jobs, s.launched) && JobHistory(t.requested, t.jobs, t.launched)
    ensures JobLeft(t, u)
  {
  }

  lemma StaleStays(s: State, t: State, k: Key)
    requires Evolves(s, t) && StaleOk(s, k)
    ensures StaleOk(t, k)
  {
  }

  lemma PlanStays(s: State, t: State, p: Plan)
    requires Evolves(s, t) && PlanOk(s, p)
    requires JobHistory(s.requested, s.jobs, s.launched) && JobHistory(t.requested, t.jobs, t.launched)
    ensures PlanOk(t, p)
  {
    forall k | k in p.stale ensures StaleOk(t, k) { StaleStays(s, t, k); }
    forall id | id in p.cancel ensures CancelOk(t, id) { FinishedStays(s, t, s.launched[id]); }
    forall u | u in p.purge ensures JobLeft(t, u) { JobLeftStays(s, t, u); }
  }

  /** What H3 leaves of the config-map changes: none is newly published, except with the id of a listed job, and none of
      a created job is deleted. */
  ghost predicate Quiet(s: State, t: State) {
    && (forall k :: k in t.cms && t.cms[k].Published() ==>
          (k in s.cms && s.cms[k].Published()) || (s.watcher.InWindow() && ListedOnSlurm(s.watcher, t.cms[k])))
    && (forall u :: u in s.keys && Created(s.launched, u) && s.keys[u] in s.cms ==>
          s.keys[u] in t.cms)
  }

  /** Two published contents of one config-map are equal in UUID and job id. */
  lemma PublishedAgree(s: State, t: State, k: Key)
    requires Evolves(s, t) && Identities(t.keys) && JobHistory(t.requested, t.jobs, t.launched)
    requires ConfigMapsOk(s.keys, s.launched, s.cms) && ConfigMapsOk(t.keys, t.launched, t.cms)
    requires k in s.cms && k in t.cms && s.cms[k].Published() && t.cms[k].Published()
    ensures s.cms[k].uuid == t.cms[k].uuid && s.cms[k].jobid == t.cms[k].jobid
    ensures s.cms[k].jobid.value in s.launched && s.launched[s.cms[k].jobid.value] == s.cms[k].uuid.value
  {
  }

  lemma WindowJobsStay(s: State, t: State, slurm: Jobs)
    requires Stores(s) && Stores(t) && Evolves(s, t) && Quiet(s, t) && WindowJobs(s, slurm)
    requires s.watcher.InWindow() && s.watcher.slurm == slurm
    ensures WindowJobs(t, slurm)
  {
    forall id | id in slurm && HasLivePod(t.pods, slurm[id])
      ensures slurm[id] in t.keys && t.keys[slurm[id]] in t.cms
    {
      var u := slurm[id];
      assert s.launched[id] == u && u in s.requested && u in s.stored && u in s.keys;
      assert HasLivePod(s.pods, u);
      assert Created(s.launched, u);
    }
    forall k | k in t.cms && t.cms[k].Published()
      ensures t.cms[k].jobid.value in slurm || t.cms[k].jobid.value !in t.jobs
    {
      if t.cms[k].jobid.value !in slurm { PublishedAgree(s, t, k); }
    }
  }

  /** A live pod of a published config-map was listed: with the config-map, or with the job that was just published. */
  lemma PublishedPodWasListed(s: State, t: State, slurm: Jobs, podList: Pods, k: Key)
    requires Stores(s) && Stores(t) && Evolves(s, t) && Quiet(s, t) && WindowJobs(s, slurm) && WindowPods(s, slurm, podList)
    requires s.watcher.InWindow() && s.watcher.slurm == slurm
    requires k in t.cms && t.cms[k].Published() && t.cms[k].uuid.Some? && HasLivePod(t.pods, t.cms[k].uuid.value)
    ensures HasLivePod(podList, t.cms[k].uuid.value)
  {
    var u, id := t.cms[k].uuid.value, t.cms[k].jobid.value;
    assert ConfigMapOk(t.keys, t.launched, k, t.cms[k]);
    if id in slurm {
      assert s.launched[id] == slurm[id] == t.launched[id] == u;
      assert u in s.requested && u in s.stored;
    } else {
      PublishedAgree(s, t, k);
      assert u in s.requested && u in s.stored;
    }
  }

  lemma WindowPodsStay(s: State, t: State, slurm: Jobs, podList: Pods)
    requires Stores(s) && Stores(t) && Evolves(s, t) && Quiet(s, t) && WindowJobs(s, slurm) && WindowPods(s, slurm, podList)
    requires s.watcher.InWindow() && s.watcher.slurm == slurm
    ensures WindowPods(t, slurm, podList)
  {
    forall k | k in t.cms && t.cms[k].Published() && t.cms[k].uuid.Some? && HasLivePod(t.pods, t.cms[k].uuid.value)
      ensures HasLivePod(podList, t.cms[k].uuid.value)
    {
      PublishedPodWasListed(s, t, slurm, podList, k);
    }
  }

  lemma WindowStays(s: State, t: State)
    requires Stores(s) && Stores(t) && WatcherOk(s) && Evolves(s, t) && t.watcher == s.watcher
    requires s.watcher.InWindow() && Quiet(s, t)
    ensures WatcherOk(t)
  {
    if s.watcher.ListedJobs? {
      WindowJobsStay(s, t, s.watcher.slurm);
    } else {
      WindowJobsStay(s, t, s.watcher.slurm);
      WindowPodsStay(s, t, s.watcher.slurm, s.watcher.podList);
    }
  }

  lemma ActingStays(s: State, t: State)
    requires WatcherOk(s) && Evolves(s, t) && t.watcher == s.watcher
    requires s.watcher.Acting? || s.watcher.PurgingPods? || s.watcher.PurgingConfigMaps?
    requires JobHistory(s.requested, s.jobs, s.launched) && JobHistory(t.requested, t.jobs, t.launched)
    ensures WatcherOk(t)
  {
    PlanStays(s, t, s.watcher.plan);
    if !s.watcher.Acting? {
      JobLeftStays(s, t, s.watcher.u);
    }
  }

  /** A step that leaves the watcher alone keeps what its local state means. */
  lemma WatcherStays(s: State, t: State)
    requires Stores(s) && WatcherOk(s) && Stores(t) && Evolves(s, t) && t.watcher == s.watcher
    requires s.watcher.InWindow() ==> Quiet(s, t)
    ensures WatcherOk(t)
  {
    if s.watcher.InWindow() {
      WindowStays(s, t);
    } else if !s.watcher.Idle? {
      ActingStays(s, t);
    }
  }
}
