/** What the environment does to a running pod and its job decides what the next pass of the watcher collects. */
module Collection {
  import opened Wrappers
  import opened Cluster
  import opened Protocol
  import opened ProtocolRuns
  import opened PassRuns
  import opened Agreement
  import Servers
  import WatcherPass

  /** The pod `k` of `u` is live, its job runs, and its config-map `c` is published. */
  ghost predicate Runs(s: State, k: Key, c: Key, u: Uuid) {
    && s.watcher == Idle && InjectorWritten(s.pods, s.cms)
    && k in s.pods && s.pods[k].Live() && s.pods[k].uuid == Some(u)
    && (forall j :: j in s.pods && s.pods[j].Live() && s.pods[j].uuid == Some(u) ==> j == k)
    && c in s.cms && s.cms[c].Published() && s.cms[c].uuid == Some(u)
    && OnSlurm(s.jobs, u)
  }

  /** An answered pass deletes the config-map and cancels the job exactly if no pod is live. */
  lemma PassCollects(s: WatcherPass.Stores, c: Key, u: Uuid)
    requires InjectorWritten(s.pods, s.cms) && OnSlurm(s.jobs, u)
    requires c in s.cms && s.cms[c].Published() && s.cms[c].uuid == Some(u)
    ensures var t := WatcherPass.PassOutcome(s);
      && (c in t.cms <==> HasLivePod(s.pods, u)) && (OnSlurm(t.jobs, u) <==> HasLivePod(s.pods, u))
      && (forall k :: k in s.pods && s.pods[k].uuid == Some(u) ==> k in t.pods && t.pods[k] == s.pods[k])
  {
    var t := WatcherPass.PassOutcome(s);
    assert u !in ToPurge(s.jobs, s.pods, s.cms);
    assert IsStale(s.pods, s.cms, c) <==> !HasLivePod(s.pods, u);
    if HasLivePod(s.pods, u) {
      assert IsKeeper(s.pods, s.cms, c) && Kept(s.pods, s.cms, u);
      var id :| id in s.jobs && s.jobs[id] == u;
      assert id in t.jobs && t.jobs[id] == u;
    }
  }

  /** A pod that changes its phase: an uninterrupted pass then deletes its config-map and cancels its job exactly if the
      phase is `Succeeded` or `Failed`, and keeps the pod in either case. */
  lemma PhaseDecides(s: State, k: Key, c: Key, u: Uuid, phase: Phase) returns (steps: seq<Step>, t: State)
    requires Runs(s, k, c, u)
    ensures Enabled(s, PodPhase(k, phase)) && Leads(Apply(s, PodPhase(k, phase)), steps, t, OfWatcher)
    ensures k in t.pods && t.pods[k] == s.pods[k].(phase := phase)
    ensures c !in t.cms <==> phase == Succeeded || phase == Failed
    ensures !OnSlurm(t.jobs, u) <==> phase == Succeeded || phase == Failed
  {
    var s1 := s.(pods := s.pods[k := s.pods[k].(phase := phase)]);
    assert Apply(s, PodPhase(k, phase)) == s1;
    assert HasLivePod(s1.pods, u) <==> s1.pods[k].Live();
    PassCollects(StoresOf(s1), c, u);
    steps := AnsweredPassFollowsTheProtocol(s1);
    t := WithStores(s1, WatcherPass.PassOutcome(StoresOf(s1)));
  }

  /** A pod that vanishes: an uninterrupted pass then deletes its config-map and cancels its job. */
  lemma VanishedPodIsCollected(s: State, k: Key, c: Key, u: Uuid) returns (steps: seq<Step>, t: State)
    requires Runs(s, k, c, u)
    ensures Enabled(s, PodGone(k)) && Leads(Apply(s, PodGone(k)), steps, t, OfWatcher)
    ensures k !in t.pods && c !in t.cms && !OnSlurm(t.jobs, u)
  {
    var s1 := s.(pods := s.pods - {k});
    assert Apply(s, PodGone(k)) == s1;
    PassCollects(StoresOf(s1), c, u);
    steps := AnsweredPassFollowsTheProtocol(s1);
    t := WithStores(s1, WatcherPass.PassOutcome(StoresOf(s1)));
  }

  lemma PassPurgesJobless(s: WatcherPass.Stores, k: Key, c: Key, u: Uuid)
    requires InjectorWritten(s.pods, s.cms) && !OnSlurm(s.jobs, u)
    requires c in s.cms && s.cms[c].Published() && s.cms[c].uuid == Some(u)
    requires k in s.pods && s.pods[k].Live() && s.pods[k].uuid == Some(u)
    ensures var t := WatcherPass.PassOutcome(s); k !in t.pods && c !in t.cms && !OnSlurm(t.jobs, u)
  {
    assert IsJobless(s.jobs, s.pods, s.cms, c);
    assert u in ToPurge(s.jobs, s.pods, s.cms);
    var pods := s.pods - Orphans(s.pods, s.cms);
    assert k in Servers.PodsLabelled(pods, u);
  }

  /** A job that ends: an uninterrupted pass then deletes the pod and its config-map, if no other job has the UUID, and
      otherwise leaves them. */
  lemma EndedJobIsCollected(s: State, k: Key, c: Key, u: Uuid, id: JobId) returns (steps: seq<Step>, t: State)
    requires Runs(s, k, c, u) && id in s.jobs && s.jobs[id] == u
    ensures Enabled(s, JobEnds(id)) && Leads(Apply(s, JobEnds(id)), steps, t, OfWatcher) && id !in t.jobs
    ensures k !in t.pods <==> forall j :: j in s.jobs && s.jobs[j] == u ==> j == id
    ensures c !in t.cms <==> forall j :: j in s.jobs && s.jobs[j] == u ==> j == id
  {
    var s1 := s.(jobs := s.jobs - {id});
    assert Apply(s, JobEnds(id)) == s1;
    if OnSlurm(s1.jobs, u) {
      PassCollects(StoresOf(s1), c, u);
    } else {
      PassPurgesJobless(StoresOf(s1), k, c, u);
      assert forall j :: j in s.jobs && s.jobs[j] == u ==> j in s1.jobs || j == id;
    }
    steps := AnsweredPassFollowsTheProtocol(s1);
    t := WithStores(s1, WatcherPass.PassOutcome(StoresOf(s1)));
  }

  /** The steps of a purge whose pods terminate later. */
  predicate OfGracefulPurge(step: Step) {
    || step.PurgeListPods? || (step.PurgePod? && step.graceful)
    || step.PurgeListConfigMaps? || step.PurgeConfigMap? || step.PurgeEnds?
  }

  lemma PodIsTerminating(s: State, k: Key, u: Uuid, p: Plan)
    requires s.watcher == Acting(Plan({}, {}, {}, {u})) && p == Plan({}, {}, {}, {})
    requires forall j :: j in s.pods && s.pods[j].uuidLabel == Some(u) <==> j == k
    ensures Leads(s, [PurgeListPods(u)] + [PurgePod(k, true)], s.(watcher := PurgingPods(p, u, {})), OfGracefulPurge)
  {
    var found := set j | j in s.pods && s.pods[j].uuidLabel == Some(u);
    assert found == {k};
    var s1 := s.(watcher := PurgingPods(p, u, {k}));
    assert {k} - {k} == {} && s1.(pods := s.pods) == s1;
    LeadsOne(s1, PurgePod(k, true), s.(watcher := PurgingPods(p, u, {})), OfGracefulPurge);
    Then(s, PurgeListPods(u), s1, [PurgePod(k, true)], s.(watcher := PurgingPods(p, u, {})), OfGracefulPurge);
  }

  lemma ConfigMapIsPurged(s: State, c: Key, u: Uuid, p: Plan)
    requires s.watcher == PurgingPods(p, u, {}) && c in s.cms
    requires forall j :: j in s.cms && s.cms[j].uuidLabel == Some(u) <==> j == c
    ensures Leads(s, [PurgeListConfigMaps] + ([PurgeConfigMap(c)] + [PurgeEnds]),
                  s.(cms := s.cms - {c}, watcher := Acting(p)), OfGracefulPurge)
  {
    var found := set j | j in s.cms && s.cms[j].uuidLabel == Some(u);
    assert found == {c};
    var s1 := s.(watcher := PurgingConfigMaps(p, u, {c}));
    var s2 := s.(cms := s.cms - {c}, watcher := PurgingConfigMaps(p, u, {}));
    var t := s.(cms := s.cms - {c}, watcher := Acting(p));
    LeadsOne(s2, PurgeEnds, t, OfGracefulPurge);
    Then(s1, PurgeConfigMap(c), s2, [PurgeEnds], t, OfGracefulPurge);
    Then(s, PurgeListConfigMaps, s1, [PurgeConfigMap(c)] + [PurgeEnds], t, OfGracefulPurge);
  }

  /** The API server keeps a deleted pod until it has terminated: a purge can delete the only config-map of a pod that
      is still stored, and changes nothing else. */
  lemma TerminatingPodOutlivesItsConfigMap(s: State, k: Key, c: Key, u: Uuid)
    requires s.watcher == Acting(Plan({}, {}, {}, {u}))
    requires forall j :: j in s.pods && s.pods[j].uuidLabel == Some(u) <==> j == k
    requires forall j :: j in s.cms && s.cms[j].uuidLabel == Some(u) <==> j == c
    ensures Leads(s, [PurgeListPods(u)] + [PurgePod(k, true)] + ([PurgeListConfigMaps] + ([PurgeConfigMap(c)] + [PurgeEnds])),
                  s.(cms := s.cms - {c}, watcher := Acting(Plan({}, {}, {}, {}))), OfGracefulPurge)
  {
    var p := Plan({}, {}, {}, {});
    var s1 := s.(watcher := PurgingPods(p, u, {}));
    PodIsTerminating(s, k, u, p);
    ConfigMapIsPurged(s1, c, u, p);
    LeadsOn(s, [PurgeListPods(u)] + [PurgePod(k, true)], s1, [PurgeListConfigMaps] + ([PurgeConfigMap(c)] + [PurgeEnds]),
            s.(cms := s.cms - {c}, watcher := Acting(p)), OfGracefulPurge);
  }
}
