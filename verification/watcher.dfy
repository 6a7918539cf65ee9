/** The watcher's pass as imperative code; the sets of module Cluster say what its nested loops decide. */
module WatcherPass {
  import opened Wrappers
  import opened Cluster
  import opened Servers

  // ----- The inner loops ---------------------------------------------------------------------

  method ConfigMapExists(items: seq<(Key, ConfigMap)>, ghost cms: ConfigMaps, u: Uuid) returns (found: bool)
    requires Lists(items, cms)
    ensures found <==> HasConfigMap(cms, u)
  {
    found := false;
    for i := 0 to |items|
      invariant found <==> exists j :: 0 <= j < i && items[j].1.uuid == Some(u)
    {
      if items[i].1.uuid == Some(u) { found := true; }
    }
  }

  method LivePodExists(items: seq<(Key, Pod)>, ghost pods: Pods, u: Uuid) returns (found: bool)
    requires Lists(items, pods)
    ensures found <==> HasLivePod(pods, u)
  {
    found := false;
    for i := 0 to |items|
      invariant found <==> exists j :: 0 <= j < i && items[j].1.Live() && items[j].1.uuid == Some(u)
    {
      if items[i].1.Live() && items[i].1.uuid == Some(u) { found := true; }
    }
  }

  datatype JobState = JobState(uuid: Uuid, jobId: JobId)

  method Listed(states: seq<JobState>, u: Uuid) returns (found: bool)
    ensures found <==> exists i :: 0 <= i < |states| && states[i].uuid == u
  {
    found := false;
    for i := 0 to |states|
      invariant found <==> exists j :: 0 <= j < i && states[j].uuid == u
    {
      if states[i].uuid == u { found := true; }
    }
  }

  // ----- The watcher -------------------------------------------------------------------------

  /** The states list the jobs of Slurm, each once. */
  ghost predicate MirrorsJobs(states: seq<JobState>, jobs: Jobs) {
    && (forall i :: 0 <= i < |states| ==> states[i].jobId in jobs && jobs[states[i].jobId] == states[i].uuid)
    && (forall i, j :: 0 <= i < j < |states| ==> states[i].jobId != states[j].jobId)
    && (forall id :: id in jobs ==> exists i :: 0 <= i < |states| && states[i].jobId == id)
  }

  /** What the job id recorded for a UUID is: the one of a config-map that keeps it, or else of a live pod. */
  ghost predicate RecordedFor(pods: Pods, cms: ConfigMaps, u: Uuid, id: JobId) {
    || (exists k :: k in cms && IsKeeper(pods, cms, k) && cms[k].uuid == Some(u) && cms[k].jobid == Some(id))
    || (!Kept(pods, cms, u) && exists k :: k in pods && IsKnownPod(pods, cms, k, u) && pods[k].jobid == Some(id))
  }

  /** The states list the known UUIDs of Kubernetes, each once. */
  ghost predicate MirrorsUuids(states: seq<JobState>, pods: Pods, cms: ConfigMaps) {
    && (forall i, j :: 0 <= i < j < |states| ==> states[i].uuid != states[j].uuid)
    && (forall u :: Known(pods, cms, u) <==> exists i :: 0 <= i < |states| && states[i].uuid == u)
    && (forall i :: 0 <= i < |states| ==> RecordedFor(pods, cms, states[i].uuid, states[i].jobId))
  }

  /** The requests that are not refused. */
  function PodsDeletable(refused: set<Request>, keys: set<Key>): set<Key> {
    set k | k in keys && DeletePod(k) !in refused
  }

  function ConfigMapsDeletable(refused: set<Request>, keys: set<Key>): set<Key> {
    set k | k in keys && DeleteConfigMap(k) !in refused
  }

  function JobsDeletable(refused: set<Request>, ids: set<JobId>): set<JobId> {
    set id | id in ids && SCancel(id) !in refused
  }

  /** The pods left when the orphans among `done` have been deleted. */
  ghost function PodsLeft(pods: Pods, cms: ConfigMaps, refused: set<Request>, done: set<Key>): Pods {
    pods - PodsDeletable(refused, Orphans(pods, cms) * done)
  }

  /** The config-maps left when the stale ones among `done` have been deleted. */
  ghost function ConfigMapsLeft(pods: Pods, cms: ConfigMaps, refused: set<Request>, done: set<Key>): ConfigMaps {
    cms - ConfigMapsDeletable(refused, StaleConfigMaps(pods, cms) * done)
  }

  lemma PodsLeftStep(pods: Pods, cms: ConfigMaps, refused: set<Request>, done: set<Key>, k: Key)
    requires k in pods && k !in done
    ensures k in PodsLeft(pods, cms, refused, done)
    ensures PodsLeft(pods, cms, refused, done + {k}) ==
            PodsLeft(pods, cms, refused, done) - (if IsOrphan(pods, cms, k) && DeletePod(k) !in refused then {k} else {})
  {
  }

  lemma PodsLeftAll(pods: Pods, cms: ConfigMaps, refused: set<Request>)
    ensures PodsLeft(pods, cms, refused, {}) == pods
    ensures PodsLeft(pods, cms, refused, pods.Keys) == pods - PodsDeletable(refused, Orphans(pods, cms))
  {
  }

  lemma ConfigMapsLeftStep(pods: Pods, cms: ConfigMaps, refused: set<Request>, done: set<Key>, k: Key)
    requires k in cms && k !in done
    ensures k in ConfigMapsLeft(pods, cms, refused, done)
    ensures ConfigMapsLeft(pods, cms, refused, done + {k}) ==
            ConfigMapsLeft(pods, cms, refused, done)
            - (if IsStale(pods, cms, k) && DeleteConfigMap(k) !in refused then {k} else {})
  {
  }

  lemma ConfigMapsLeftAll(pods: Pods, cms: ConfigMaps, refused: set<Request>)
    ensures ConfigMapsLeft(pods, cms, refused, {}) == cms
    ensures ConfigMapsLeft(pods, cms, refused, cms.Keys) == cms - ConfigMapsDeletable(refused, StaleConfigMaps(pods, cms))
  {
  }

  /** The dictionary after the pods `done`. */
  ghost predicate PodDict(pods: Pods, cms: ConfigMaps, done: set<Key>, dict: map<Uuid, JobId>)
    requires done <= pods.Keys
  {
    && (forall u :: u in dict <==> exists k :: k in done && IsKnownPod(pods, cms, k, u))
    && (forall u :: u in dict ==> exists k :: k in done && IsKnownPod(pods, cms, k, u) && pods[k].jobid == Some(dict[u]))
  }

  /** The dictionary after all pods, which left `dict0`, and the config-maps `done`. */
  ghost predicate ConfigMapDict(pods: Pods, cms: ConfigMaps, done: set<Key>, dict0: map<Uuid, JobId>, dict: map<Uuid, JobId>)
    requires done <= cms.Keys
  {
    && (forall u :: u in dict <==> u in dict0 || KeptBy(pods, cms, done, u))
    && (forall u :: u in dict ==>
          if KeptBy(pods, cms, done, u) then Keeps(pods, cms, done, u, dict[u]) else dict[u] == dict0[u])
  }

  /** The keys among the first entries of a listing. */
  ghost function KeysOf<V>(items: seq<(Key, V)>): set<Key> { set item | item in items :: item.0 }

  lemma KeysOfNext<V>(items: seq<(Key, V)>, m: map<Key, V>, i: nat)
    requires Lists(items, m) && i < |items|
    ensures KeysOf(items[..i + 1]) == KeysOf(items[..i]) + {items[i].0}
    ensures items[i].0 !in KeysOf(items[..i]) && KeysOf(items[..i]) <= m.Keys
  {
  }

  lemma AllKeys<V>(items: seq<(Key, V)>, m: map<Key, V>)
    requires Lists(items, m)
    ensures items[..|items|] == items && KeysOf(items) == m.Keys
  {
  }

  /** The dictionary after one more pod. */
  lemma PodRecorded(pods: Pods, cms: ConfigMaps, done: set<Key>, k: Key, dict0: map<Uuid, JobId>, dict: map<Uuid, JobId>)
    requires done <= pods.Keys && k in pods
    requires PodDict(pods, cms, done, dict0)
    requires dict == if pods[k].uuid.Some? && IsKnownPod(pods, cms, k, pods[k].uuid.value)
                     then dict0[pods[k].uuid.value := pods[k].jobid.value] else dict0
    ensures PodDict(pods, cms, done + {k}, dict)
  {
  }

  /** The dictionary after one more config-map. */
  lemma ConfigMapRecorded(pods: Pods, cms: ConfigMaps, done: set<Key>, k: Key,
                          before: map<Uuid, JobId>, dict0: map<Uuid, JobId>, dict: map<Uuid, JobId>)
    requires done <= cms.Keys && k in cms
    requires ConfigMapDict(pods, cms, done, dict0, before)
    requires dict == if IsKeeper(pods, cms, k) then before[cms[k].uuid.value := cms[k].jobid.value] else before
    ensures ConfigMapDict(pods, cms, done + {k}, dict0, dict)
  {
  }

  lemma StatesOfDict(pods: Pods, cms: ConfigMaps, dict0: map<Uuid, JobId>, dict: map<Uuid, JobId>,
                     items: seq<(Uuid, JobId)>, states: seq<JobState>)
    requires PodDict(pods, cms, pods.Keys, dict0) && ConfigMapDict(pods, cms, cms.Keys, dict0, dict)
    requires Lists(items, dict) && |states| == |items|
    requires forall i :: 0 <= i < |items| ==> states[i] == JobState(items[i].0, items[i].1)
    ensures MirrorsUuids(states, pods, cms)
  {
    forall u ensures Known(pods, cms, u) <==> u in dict {
      assert Kept(pods, cms, u) <==> KeptBy(pods, cms, cms.Keys, u);
    }
    forall u | u in dict ensures exists i :: 0 <= i < |states| && states[i].uuid == u {
      var i :| 0 <= i < |items| && items[i].0 == u;
      assert states[i].uuid == u;
    }
    forall i | 0 <= i < |states| ensures RecordedFor(pods, cms, states[i].uuid, states[i].jobId) {
      assert items[i].0 in dict && dict[items[i].0] == items[i].1;
      assert Kept(pods, cms, items[i].0) <==> KeptBy(pods, cms, cms.Keys, items[i].0);
    }
  }

  /** The jobs left when the unknown ones among `done` have been cancelled. */
  ghost function JobsLeft(jobs: Jobs, pods: Pods, cms: ConfigMaps, refused: set<Request>, done: set<JobId>): Jobs {
    map id | id in jobs && (Known(pods, cms, jobs[id]) || SCancel(id) in refused || id !in done) :: jobs[id]
  }

  ghost function IdsOf(states: seq<JobState>): set<JobId> { set state | state in states :: state.jobId }

  lemma IdsOfNext(states: seq<JobState>, jobs: Jobs, i: nat)
    requires MirrorsJobs(states, jobs) && i < |states|
    ensures IdsOf(states[..i + 1]) == IdsOf(states[..i]) + {states[i].jobId} && states[i].jobId !in IdsOf(states[..i])
  {
  }

  lemma AllIds(states: seq<JobState>, jobs: Jobs)
    requires MirrorsJobs(states, jobs)
    ensures states[..|states|] == states && IdsOf(states) == jobs.Keys
  {
  }

  lemma JobsLeftNone(jobs: Jobs, pods: Pods, cms: ConfigMaps, refused: set<Request>)
    ensures JobsLeft(jobs, pods, cms, refused, {}) == jobs
  {
  }

  lemma JobsLeftStep(jobs: Jobs, pods: Pods, cms: ConfigMaps, refused: set<Request>, done: set<JobId>, id: JobId)
    requires id in jobs && id !in done
    ensures id in JobsLeft(jobs, pods, cms, refused, done)
    ensures JobsLeft(jobs, pods, cms, refused, done + {id}) ==
            JobsLeft(jobs, pods, cms, refused, done) -
              (if Known(pods, cms, jobs[id]) || SCancel(id) in refused then {} else {id})
  {
  }

  /** A state that the last loop of a pass purges. */
  ghost predicate Due(jobs: Jobs, state: JobState) {
    !OnSlurm(jobs, state.uuid) && state.jobId != TO_BE_SET
  }

  /** A known UUID that Slurm does not list and whose recorded job id is published. */
  ghost predicate Jobless(jobs: Jobs, pods: Pods, cms: ConfigMaps, u: Uuid) {
    !OnSlurm(jobs, u) && exists id :: RecordedFor(pods, cms, u, id) && id != TO_BE_SET
  }

  ghost predicate PurgedAtMost(pods: Pods, pods': Pods, cms: ConfigMaps, cms': ConfigMaps, us: set<Uuid>) {
    && (forall k :: k in pods' ==> k in pods && pods'[k] == pods[k])
    && (forall k :: k in cms' ==> k in cms && cms'[k] == cms[k])
    && (forall k :: k in pods && k !in pods' ==> LabelIn(pods[k].uuidLabel, us))
    && (forall k :: k in cms && k !in cms' ==> LabelIn(cms[k].uuidLabel, us))
  }

  /** Purging one more UUID after others is purging all of them. */
  lemma PurgedMore(pods: Pods, cms: ConfigMaps, us: set<Uuid>, u: Uuid)
    ensures var (pods', cms') := Purged(pods, cms, us); Purged(pods', cms', {u}) == Purged(pods, cms, us + {u})
  {
    var (pods', cms') := Purged(pods, cms, us);
    assert PodsLabelled(pods', u) == if u in us then map[] else PodsLabelled(pods, u);
    assert Purged(pods', cms', {u}).0 == Purged(pods, cms, us + {u}).0;
    assert Purged(pods', cms', {u}).1 == Purged(pods, cms, us + {u}).1;
  }

  /** What purges of the UUIDs `done` have left so far. */
  ghost predicate PurgedSoFar(pods: Pods, cms: ConfigMaps, done: set<Uuid>, refused: set<Request>, pods': Pods,
                              cms': ConfigMaps)
  {
    && PurgedAtMost(pods, pods', cms, cms', done)
    && (refused == {} ==> (pods', cms') == Purged(pods, cms, done))
    && UuidsPurged(refused, pods, cms, done, pods', cms')
  }

  lemma PurgedNext(pods: Pods, cms: ConfigMaps, done: set<Uuid>, refused: set<Request>, u: Uuid, pods1: Pods,
                   cms1: ConfigMaps, pods': Pods, cms': ConfigMaps)
    requires PurgedSoFar(pods, cms, done, refused, pods1, cms1) && u !in done
    requires UuidPurged(refused, pods1, cms1, u, pods', cms') && (refused == {} ==> (pods', cms') == Purged(pods1, cms1, {u}))
    ensures PurgedSoFar(pods, cms, done + {u}, refused, pods', cms')
  {
    PurgedMore(pods, cms, done, u);
    UuidPurgedAtMost(refused, pods1, cms1, u, pods', cms');
    OneMorePurged(refused, pods, cms, done, u, pods1, cms1, pods', cms');
  }

  /** The UUIDs purged for the first `i` states. */
  ghost predicate DoneUpTo(jobs: Jobs, pods: Pods, cms: ConfigMaps, states: seq<JobState>, i: nat, done: set<Uuid>)
    requires i <= |states|
  {
    && (forall u :: u in done ==> Jobless(jobs, pods, cms, u))
    && (forall u :: u in done ==> exists j :: 0 <= j < i && states[j].uuid == u)
    && (forall j :: 0 <= j < i && Due(jobs, states[j]) ==> states[j].uuid in done)
  }

  lemma DoneNext(jobs: Jobs, pods: Pods, cms: ConfigMaps, states: seq<JobState>, i: nat, done: set<Uuid>)
    requires i < |states| && DoneUpTo(jobs, pods, cms, states, i, done) && MirrorsUuids(states, pods, cms)
    ensures !Due(jobs, states[i]) ==> DoneUpTo(jobs, pods, cms, states, i + 1, done)
    ensures Due(jobs, states[i]) ==> DoneUpTo(jobs, pods, cms, states, i + 1, done + {states[i].uuid})
    ensures states[i].uuid !in done
  {
    if Due(jobs, states[i]) {
      assert RecordedFor(pods, cms, states[i].uuid, states[i].jobId);
    }
  }

  /** `m` lacks some entries of `full`, all under `keys`. */
  ghost predicate LessBy<K, V>(m: map<K, V>, full: map<K, V>, keys: set<K>) {
    && (forall k :: k in m ==> k in full && m[k] == full[k])
    && (forall k :: k in full && k !in keys ==> k in m)
  }

  /** What deletions, one after the other in some order up to the first refused one, may leave. */
  ghost predicate DeletedInTurn<K, V>(m: map<K, V>, full: map<K, V>, keys: set<K>, deletable: set<K>) {
    LessBy(m, full, deletable) && (deletable == keys ==> m == full - keys)
  }

  /** What a purge of one UUID may leave: its pods go in turn, and after all of them its config-maps. */
  ghost predicate UuidPurged(refused: set<Request>, pods: Pods, cms: ConfigMaps, u: Uuid, pods': Pods, cms': ConfigMaps) {
    var podKeys, cmKeys := PodsLabelled(pods, u).Keys, ConfigMapsLabelled(cms, u).Keys;
    if ListPodsOf(u) in refused then pods' == pods && cms' == cms
    else
      && DeletedInTurn(pods', pods, podKeys, PodsDeletable(refused, podKeys))
      && if podKeys == {} || PodsDeletable(refused, podKeys) != podKeys || ListConfigMapsOf(u) in refused then cms' == cms
         else DeletedInTurn(cms', cms, cmKeys, ConfigMapsDeletable(refused, cmKeys))
  }

  /** Nothing of another UUID goes, and a config-map only after pods were found and all of them deleted. */
  lemma UuidPurgedAtMost(refused: set<Request>, pods: Pods, cms: ConfigMaps, u: Uuid, pods': Pods, cms': ConfigMaps)
    requires UuidPurged(refused, pods, cms, u, pods', cms')
    ensures LessBy(pods', pods, PodsLabelled(pods, u).Keys) && LessBy(cms', cms, ConfigMapsLabelled(cms, u).Keys)
    ensures cms' != cms ==> PodsLabelled(pods, u).Keys != {} && pods' == pods - PodsLabelled(pods, u).Keys
  {
  }

  /** What purges of some UUIDs, one after the other in some order, may leave. */
  ghost predicate UuidsPurged(refused: set<Request>, pods: Pods, cms: ConfigMaps, us: set<Uuid>, pods': Pods,
                              cms': ConfigMaps)
    decreases us
  {
    if us == {} then pods' == pods && cms' == cms
    else
      exists u, pods1, cms1 ::
        u in us && UuidsPurged(refused, pods, cms, us - {u}, pods1, cms1)
        && UuidPurged(refused, pods1, cms1, u, pods', cms')
  }

  lemma OneMorePurged(refused: set<Request>, pods: Pods, cms: ConfigMaps, us: set<Uuid>, u: Uuid, pods1: Pods,
                      cms1: ConfigMaps, pods': Pods, cms': ConfigMaps)
    requires UuidsPurged(refused, pods, cms, us, pods1, cms1)
    requires UuidPurged(refused, pods1, cms1, u, pods', cms') && u !in us
    ensures UuidsPurged(refused, pods, cms, us + {u}, pods', cms')
  {
    assert us + {u} - {u} == us;
  }

  /** The listing of the pods of a UUID and their deletions are answered. */
  ghost predicate PodsAnswered(refused: set<Request>, pods: Pods, u: Uuid) {
    ListPodsOf(u) !in refused && forall k :: k in pods && pods[k].uuidLabel == Some(u) ==> DeletePod(k) !in refused
  }

  /** The listing of the config-maps of a UUID and their deletions are answered. */
  ghost predicate ConfigMapsAnswered(refused: set<Request>, cms: ConfigMaps, u: Uuid) {
    ListConfigMapsOf(u) !in refused && forall k :: k in cms && cms[k].uuidLabel == Some(u) ==> DeleteConfigMap(k) !in refused
  }

  predicate HasLabelledPod(pods: Pods, u: Uuid) { exists k :: k in pods && pods[k].uuidLabel == Some(u) }

  predicate HasLabelledConfigMap(cms: ConfigMaps, u: Uuid) { exists k :: k in cms && cms[k].uuidLabel == Some(u) }

  lemma UuidPurgeIsComplete(refused: set<Request>, pods: Pods, cms: ConfigMaps, u: Uuid, pods': Pods, cms': ConfigMaps)
    requires UuidPurged(refused, pods, cms, u, pods', cms') && PodsAnswered(refused, pods, u)
    ensures !HasLabelledPod(pods', u)
    ensures ConfigMapsAnswered(refused, cms, u) && HasLabelledPod(pods, u) ==> !HasLabelledConfigMap(cms', u)
  {
    var podKeys, cmKeys := PodsLabelled(pods, u).Keys, ConfigMapsLabelled(cms, u).Keys;
    assert PodsDeletable(refused, podKeys) == podKeys;
    if ConfigMapsAnswered(refused, cms, u) && HasLabelledPod(pods, u) {
      assert ConfigMapsDeletable(refused, cmKeys) == cmKeys;
      var k :| k in pods && pods[k].uuidLabel == Some(u);
      assert k in podKeys;
    }
  }

  /** Purges keep what they do not delete, and everything of another UUID. */
  lemma {:induction false} OthersAreKept(refused: set<Request>, pods: Pods, cms: ConfigMaps, us: set<Uuid>, pods': Pods,
                                         cms': ConfigMaps)
    requires UuidsPurged(refused, pods, cms, us, pods', cms')
    ensures forall k :: k in pods' ==> k in pods && pods'[k] == pods[k]
    ensures forall k :: k in cms' ==> k in cms && cms'[k] == cms[k]
    ensures forall k :: k in pods && !LabelIn(pods[k].uuidLabel, us) ==> k in pods'
    ensures forall k :: k in cms && !LabelIn(cms[k].uuidLabel, us) ==> k in cms'
    decreases us
  {
    if us != {} {
      var u, pods1, cms1 :|
        u in us && UuidsPurged(refused, pods, cms, us - {u}, pods1, cms1)
        && UuidPurged(refused, pods1, cms1, u, pods', cms');
      OthersAreKept(refused, pods, cms, us - {u}, pods1, cms1);
      UuidPurgedAtMost(refused, pods1, cms1, u, pods', cms');
    }
  }

  /** Whatever else is refused: a UUID whose pods are listed and deleted loses them, and a UUID whose config-maps are
      listed and deleted too loses those. */
  lemma {:induction false} PurgesAreComplete(refused: set<Request>, pods: Pods, cms: ConfigMaps, us: set<Uuid>, v: Uuid,
                                             pods': Pods, cms': ConfigMaps)
    requires UuidsPurged(refused, pods, cms, us, pods', cms') && v in us && PodsAnswered(refused, pods, v)
    ensures !HasLabelledPod(pods', v)
    ensures ConfigMapsAnswered(refused, cms, v) && HasLabelledPod(pods, v) ==> !HasLabelledConfigMap(cms', v)
    decreases us
  {
    var u, pods1, cms1 :|
      u in us && UuidsPurged(refused, pods, cms, us - {u}, pods1, cms1)
      && UuidPurged(refused, pods1, cms1, u, pods', cms');
    OthersAreKept(refused, pods, cms, us - {u}, pods1, cms1);
    UuidPurgedAtMost(refused, pods1, cms1, u, pods', cms');
    if u == v {
      if HasLabelledPod(pods, v) {
        var k :| k in pods && pods[k].uuidLabel == Some(v);
        assert k in pods1;
      }
      UuidPurgeIsComplete(refused, pods1, cms1, v, pods', cms');
    } else {
      PurgesAreComplete(refused, pods, cms, us - {u}, v, pods1, cms1);
    }
  }

  /** A known UUID that Slurm does not list and whose recorded job id, whichever resource it is from, is published. */
  ghost predicate SurelyJobless(jobs: Jobs, pods: Pods, cms: ConfigMaps, u: Uuid) {
    Known(pods, cms, u) && !OnSlurm(jobs, u) && forall id :: RecordedFor(pods, cms, u, id) ==> id != TO_BE_SET
  }

  /** The UUIDs that a pass purges: surely jobless ones are among them, and all of them may be jobless. */
  ghost predicate AreJobless(jobs: Jobs, pods: Pods, cms: ConfigMaps, us: set<Uuid>) {
    && (forall u :: u in us ==> Jobless(jobs, pods, cms, u))
    && (forall u :: SurelyJobless(jobs, pods, cms, u) ==> u in us)
  }

  lemma DoneAreJobless(jobs: Jobs, pods: Pods, cms: ConfigMaps, states: seq<JobState>, done: set<Uuid>)
    requires MirrorsUuids(states, pods, cms) && DoneUpTo(jobs, pods, cms, states, |states|, done)
    ensures AreJobless(jobs, pods, cms, done)
  {
    forall u | SurelyJobless(jobs, pods, cms, u) ensures u in done {
      var i :| 0 <= i < |states| && states[i].uuid == u;
      assert RecordedFor(pods, cms, u, states[i].jobId);
      assert Due(jobs, states[i]);
    }
  }

  /** For config-maps of the injector with distinct UUIDs, nothing is uncertain: the jobless UUIDs are those to
      purge. */
  lemma JoblessArePurged(jobs: Jobs, pods: Pods, cms: ConfigMaps, u: Uuid)
    requires AllWritten(cms) && DistinctUuids(cms)
    ensures SurelyJobless(jobs, pods, cms, u) <==> u in ToPurge(jobs, pods, cms)
    ensures Jobless(jobs, pods, cms, u) <==> u in ToPurge(jobs, pods, cms)
  {
    KnownIsKept(pods, cms, u);
    if Kept(pods, cms, u) {
      var k :| k in cms && cms[k].uuid == Some(u) && IsKeeper(pods, cms, k);
      forall id ensures RecordedFor(pods, cms, u, id) <==> cms[k].jobid == Some(id) {
      }
      assert RecordedFor(pods, cms, u, cms[k].jobid.value);
      assert u in ToPurge(jobs, pods, cms) <==> IsJobless(jobs, pods, cms, k);
    }
  }

  lemma PurgedOne(pods: Pods, cms: ConfigMaps, u: Uuid)
    ensures Purged(pods, cms, {u}).0 == pods - PodsLabelled(pods, u).Keys
    ensures Purged(pods, cms, {u}).1 ==
            if PodsLabelled(pods, u) == map[] then cms else cms - ConfigMapsLabelled(cms, u).Keys
    ensures ConfigMapsLabelled(cms, u).Keys == {} ==> Purged(pods, cms, {u}).1 == cms
    ensures PodsLabelled(pods, u).Keys == {} ==> PodsLabelled(pods, u) == map[] && Purged(pods, cms, {u}).0 == pods
  {
  }

  lemma PurgedNone(pods: Pods, cms: ConfigMaps)
    ensures Purged(pods, cms, {}) == (pods, cms)
  {
    assert Purged(pods, cms, {}).0 == pods;
    assert Purged(pods, cms, {}).1 == cms;
  }

  /** The label of a pod or config-map is one of `us`. */
  predicate LabelIn(tag: Option<Uuid>, us: set<Uuid>) { tag.Some? && tag.value in us }

  /** The resources left when those of the UUIDs `us` are deleted; the config-maps of a UUID without a pod stay. */
  function Purged(pods: Pods, cms: ConfigMaps, us: set<Uuid>): (Pods, ConfigMaps) {
    (map k | k in pods && !LabelIn(pods[k].uuidLabel, us) :: pods[k],
     map k | k in cms && !(LabelIn(cms[k].uuidLabel, us) && PodsLabelled(pods, cms[k].uuidLabel.value) != map[]) :: cms[k])
  }

  /** One of the config-maps `done` keeps `u`. */
  ghost predicate KeptBy(pods: Pods, cms: ConfigMaps, done: set<Key>, u: Uuid)
    requires done <= cms.Keys
  {
    exists k :: k in done && IsKeeper(pods, cms, k) && cms[k].uuid == Some(u)
  }

  /** One of the config-maps `done` keeps `u` with job id `id`. */
  ghost predicate Keeps(pods: Pods, cms: ConfigMaps, done: set<Key>, u: Uuid, id: JobId)
    requires done <= cms.Keys
  {
    exists k :: k in done && IsKeeper(pods, cms, k) && cms[k].uuid == Some(u) && cms[k].jobid == Some(id)
  }

  class Watcher {
    const servers: Servers
    var onSlurm: seq<JobState>
    var onKubernetes: seq<JobState>

    constructor (servers: Servers)
      ensures this.servers == servers && onSlurm == [] && onKubernetes == []
    {
      this.servers, onSlurm, onKubernetes := servers, [], [];
    }

    method FetchJobStateOnSlurm() returns (ok: bool)
      modifies this`onSlurm
      ensures ok <==> ListJobs !in servers.refused
      ensures if ok then MirrorsJobs(onSlurm, servers.jobs) else onSlurm == old(onSlurm)
    {
      var uuids, ids;
      ok, uuids, ids := servers.ListUuidsAndJobIds();
      if !ok { return; }
      var states := [];
      for i := 0 to |uuids|
        invariant |states| == i
        invariant forall j :: 0 <= j < i ==> states[j] == JobState(uuids[j], ids[j])
      {
        states := states + [JobState(uuids[i], ids[i])];
      }
      onSlurm := states;
      forall id | id in servers.jobs ensures exists i :: 0 <= i < |states| && states[i].jobId == id {
        var i :| 0 <= i < |ids| && ids[i] == id;
        assert states[i].jobId == id;
      }
    }

    /** One turn of the loop over pods: a live pod with a job id is recorded when a config-map has its UUID, and deleted
        when none has. */
    method VisitPod(k: Key, pod: Pod, cmItems: seq<(Key, ConfigMap)>, ghost pods: Pods, ghost cms: ConfigMaps,
                    dict0: map<Uuid, JobId>)
      returns (dict: map<Uuid, JobId>)
      requires Lists(cmItems, cms) && k in pods && pods[k] == pod && k in servers.pods
      modifies servers`pods
      ensures servers.pods ==
        old(servers.pods) - (if IsOrphan(pods, cms, k) && DeletePod(k) !in servers.refused then {k} else {})
      ensures dict == if pod.uuid.Some? && IsKnownPod(pods, cms, k, pod.uuid.value)
                      then dict0[pod.uuid.value := pod.jobid.value] else dict0
    {
      dict := dict0;
      if pod.Live() && pod.uuid.Some? && pod.jobid.Some? {
        var configMapExists := ConfigMapExists(cmItems, cms, pod.uuid.value);
        if configMapExists {
          dict := dict[pod.uuid.value := pod.jobid.value];
        } else {
          var _ := servers.DeletePod(k);
        }
      }
    }

    method VisitPods(podItems: seq<(Key, Pod)>, cmItems: seq<(Key, ConfigMap)>, ghost pods: Pods, ghost cms: ConfigMaps)
      returns (dict: map<Uuid, JobId>)
      requires Lists(podItems, pods) && Lists(cmItems, cms) && servers.pods == pods
      modifies servers`pods
      ensures servers.pods == PodsLeft(pods, cms, servers.refused, pods.Keys)
      ensures PodDict(pods, cms, pods.Keys, dict)
    {
      dict := map[];
      PodsLeftAll(pods, cms, servers.refused);
      ghost var done: set<Key> := {};
      for i := 0 to |podItems|
        invariant done == KeysOf(podItems[..i]) && done <= pods.Keys
        invariant servers.pods == PodsLeft(pods, cms, servers.refused, done)
        invariant PodDict(pods, cms, done, dict)
      {
        var (k, pod) := podItems[i];
        KeysOfNext(podItems, pods, i);
        PodsLeftStep(pods, cms, servers.refused, done, k);
        ghost var dict0, done0 := dict, done;
        dict := VisitPod(k, pod, cmItems, pods, cms, dict);
        done := done + {k};
        PodRecorded(pods, cms, done0, k, dict0, dict);
      }
      AllKeys(podItems, pods);
    }

    /** One turn of the loop over config-maps: recorded when it keeps its UUID, deleted when it is stale. */
    method VisitConfigMap(k: Key, cm: ConfigMap, podItems: seq<(Key, Pod)>, ghost pods: Pods, ghost cms: ConfigMaps,
                          dict0: map<Uuid, JobId>)
      returns (dict: map<Uuid, JobId>)
      requires Lists(podItems, pods) && k in cms && cms[k] == cm && k in servers.cms
      modifies servers`cms
      ensures servers.cms ==
        old(servers.cms) - (if IsStale(pods, cms, k) && DeleteConfigMap(k) !in servers.refused then {k} else {})
      ensures dict == if IsKeeper(pods, cms, k) then dict0[cm.uuid.value := cm.jobid.value] else dict0
    {
      dict := dict0;
      if cm.jobid.Some? && cm.uuid.Some? {
        var u := cm.uuid.value;
        var podExists := LivePodExists(podItems, pods, u);
        if podExists {
          dict := dict[u := cm.jobid.value];
        } else if cm.jobid.value == TO_BE_SET {
          dict := dict[u := cm.jobid.value];
        } else {
          var _ := servers.DeleteConfigMap(k);
        }
      }
    }

    method VisitConfigMaps(podItems: seq<(Key, Pod)>, cmItems: seq<(Key, ConfigMap)>, ghost pods: Pods, ghost cms: ConfigMaps,
                           dict0: map<Uuid, JobId>)
      returns (dict: map<Uuid, JobId>)
      requires Lists(podItems, pods) && Lists(cmItems, cms) && servers.cms == cms
      modifies servers`cms
      ensures servers.cms == ConfigMapsLeft(pods, cms, servers.refused, cms.Keys)
      ensures ConfigMapDict(pods, cms, cms.Keys, dict0, dict)
    {
      dict := dict0;
      ConfigMapsLeftAll(pods, cms, servers.refused);
      ghost var done: set<Key> := {};
      for i := 0 to |cmItems|
        invariant done == KeysOf(cmItems[..i]) && done <= cms.Keys
        invariant servers.cms == ConfigMapsLeft(pods, cms, servers.refused, done)
        invariant ConfigMapDict(pods, cms, done, dict0, dict)
      {
        var (k, cm) := cmItems[i];
        KeysOfNext(cmItems, cms, i);
        ConfigMapsLeftStep(pods, cms, servers.refused, done, k);
        ghost var before, done0 := dict, done;
        dict := VisitConfigMap(k, cm, podItems, pods, cms, dict);
        done := done + {k};
        ConfigMapRecorded(pods, cms, done0, k, before, dict0, dict);
      }
      AllKeys(cmItems, cms);
    }

    /** Both listings, then the two loops, then the dictionary as a slice. */
    method FetchJobStateOnKubernetes() returns (ok: bool)
      modifies this`onKubernetes, servers`pods, servers`cms
      ensures ok <==> ListAllPods !in servers.refused && ListAllConfigMaps !in servers.refused
      ensures !ok ==>
        onKubernetes == old(onKubernetes) && servers.pods == old(servers.pods) && servers.cms == old(servers.cms)
      ensures ok ==>
        var pods, cms := old(servers.pods), old(servers.cms);
        && servers.pods == pods - PodsDeletable(servers.refused, Orphans(pods, cms))
        && servers.cms == cms - ConfigMapsDeletable(servers.refused, StaleConfigMaps(pods, cms))
        && MirrorsUuids(onKubernetes, pods, cms)
    {
      ghost var pods, cms := servers.pods, servers.cms;
      var podList := servers.ListPods(None);
      if podList.Err? { return false; }
      var cmList := servers.ListConfigMaps(None);
      if cmList.Err? { return false; }
      var dict0 := VisitPods(podList.value, cmList.value, pods, cms);
      var dict := VisitConfigMaps(podList.value, cmList.value, pods, cms, dict0);
      var items := Enumerate(dict);
      var states := [];
      for i := 0 to |items|
        invariant |states| == i
        invariant forall j :: 0 <= j < i ==> states[j] == JobState(items[j].0, items[j].1)
      {
        states := states + [JobState(items[i].0, items[i].1)];
      }
      onKubernetes := states;
      PodsLeftAll(pods, cms, servers.refused);
      ConfigMapsLeftAll(pods, cms, servers.refused);
      StatesOfDict(pods, cms, dict0, dict, items, states);
      ok := true;
    }

    /** Deletes the listed pods; the first refused request ends it. */
    method DeletePods(items: seq<(Key, Pod)>, ghost listed: Pods) returns (ok: bool)
      requires Lists(items, listed) && listed.Keys <= servers.pods.Keys
      modifies servers`pods
      ensures DeletedInTurn(servers.pods, old(servers.pods), listed.Keys, PodsDeletable(servers.refused, listed.Keys))
      ensures ok <==> forall k :: k in listed ==> DeletePod(k) !in servers.refused
    {
      ghost var pods := servers.pods;
      for i := 0 to |items|
        invariant servers.pods == pods - KeysOf(items[..i])
        invariant forall k :: k in KeysOf(items[..i]) ==> DeletePod(k) !in servers.refused
      {
        KeysOfNext(items, listed, i);
        ok := servers.DeletePod(items[i].0);
        if !ok { return; }
      }
      AllKeys(items, listed);
      ok := true;
    }

    method DeleteConfigMaps(items: seq<(Key, ConfigMap)>, ghost listed: ConfigMaps) returns (ok: bool)
      requires Lists(items, listed) && listed.Keys <= servers.cms.Keys
      modifies servers`cms
      ensures DeletedInTurn(servers.cms, old(servers.cms), listed.Keys, ConfigMapsDeletable(servers.refused, listed.Keys))
      ensures ok <==> forall k :: k in listed ==> DeleteConfigMap(k) !in servers.refused
    {
      ghost var cms := servers.cms;
      for i := 0 to |items|
        invariant servers.cms == cms - KeysOf(items[..i])
        invariant forall k :: k in KeysOf(items[..i]) ==> DeleteConfigMap(k) !in servers.refused
      {
        KeysOfNext(items, listed, i);
        ok := servers.DeleteConfigMap(items[i].0);
        if !ok { return; }
      }
      AllKeys(items, listed);
      ok := true;
    }

    /** Pods first, then config-maps. */
    method DeleteKubernetesResourcesOfUuid(u: Uuid) returns (ok: bool)
      modifies servers`pods, servers`cms
      ensures UuidPurged(servers.refused, old(servers.pods), old(servers.cms), u, servers.pods, servers.cms)
      ensures ok ==> servers.pods == old(servers.pods) - PodsLabelled(old(servers.pods), u).Keys
                     && servers.cms == old(servers.cms) - ConfigMapsLabelled(old(servers.cms), u).Keys
      ensures servers.refused == {} ==>
        (servers.pods, servers.cms) == Purged(old(servers.pods), old(servers.cms), {u})
    {
      ghost var pods, cms := servers.pods, servers.cms;
      PurgedOne(pods, cms, u);
      var podList := servers.ListPods(Some(u));
      if podList.Err? { return false; }
      AllKeys(podList.value, PodsLabelled(pods, u));
      if podList.value == [] { return false; }
      assert podList.value[0].0 in PodsLabelled(pods, u);
      ok := DeletePods(podList.value, PodsLabelled(pods, u));
      if !ok { return; }
      var cmList := servers.ListConfigMaps(Some(u));
      if cmList.Err? { return false; }
      AllKeys(cmList.value, ConfigMapsLabelled(cms, u));
      if cmList.value == [] { return false; }
      ok := DeleteConfigMaps(cmList.value, ConfigMapsLabelled(cms, u));
    }

    /** One turn of the loop over the jobs of Slurm. */
    method CancelIfUnknown(state: JobState, ghost pods: Pods, ghost cms: ConfigMaps)
      requires MirrorsUuids(onKubernetes, pods, cms) && state.jobId in servers.jobs
      modifies servers`jobs
      ensures servers.jobs == old(servers.jobs) -
        (if Known(pods, cms, state.uuid) || SCancel(state.jobId) in servers.refused then {} else {state.jobId})
    {
      var isExists := Listed(onKubernetes, state.uuid);
      if !isExists {
        var _ := servers.SCancel(state.jobId);
      }
    }

    /** Jobs that Slurm lists and Kubernetes does not know are cancelled. */
    method CancelUnknownJobs(ghost pods: Pods, ghost cms: ConfigMaps)
      requires MirrorsJobs(onSlurm, servers.jobs) && MirrorsUuids(onKubernetes, pods, cms)
      modifies servers`jobs
      ensures servers.jobs == JobsLeft(old(servers.jobs), pods, cms, servers.refused, old(servers.jobs).Keys)
    {
      ghost var jobs := servers.jobs;
      JobsLeftNone(jobs, pods, cms, servers.refused);
      for i := 0 to |onSlurm|
        invariant servers.jobs == JobsLeft(jobs, pods, cms, servers.refused, IdsOf(onSlurm[..i]))
      {
        IdsOfNext(onSlurm, jobs, i);
        JobsLeftStep(jobs, pods, cms, servers.refused, IdsOf(onSlurm[..i]), onSlurm[i].jobId);
        CancelIfUnknown(onSlurm[i], pods, cms);
      }
      AllIds(onSlurm, jobs);
    }

    /** The loop over the known UUIDs. */
    method PurgeDueUuids(ghost jobs: Jobs, ghost pods0: Pods, ghost cms0: ConfigMaps) returns (ghost done: set<Uuid>)
      requires MirrorsJobs(onSlurm, jobs) && MirrorsUuids(onKubernetes, pods0, cms0)
      modifies servers`pods, servers`cms
      ensures DoneUpTo(jobs, pods0, cms0, onKubernetes, |onKubernetes|, done)
      ensures PurgedSoFar(old(servers.pods), old(servers.cms), done, servers.refused, servers.pods, servers.cms)
    {
      ghost var pods, cms := servers.pods, servers.cms;
      done := {};
      PurgedNone(pods, cms);
      for i := 0 to |onKubernetes|
        invariant DoneUpTo(jobs, pods0, cms0, onKubernetes, i, done)
        invariant PurgedSoFar(pods, cms, done, servers.refused, servers.pods, servers.cms)
      {
        var state := onKubernetes[i];
        var isExists := Listed(onSlurm, state.uuid);
        assert isExists <==> OnSlurm(jobs, state.uuid);
        DoneNext(jobs, pods0, cms0, onKubernetes, i, done);
        if !isExists && state.jobId != TO_BE_SET {
          ghost var pods1, cms1 := servers.pods, servers.cms;
          var _ := DeleteKubernetesResourcesOfUuid(state.uuid);
          PurgedNext(pods, cms, done, servers.refused, state.uuid, pods1, cms1, servers.pods, servers.cms);
          done := done + {state.uuid};
        }
      }
    }

    /** Known UUIDs with a published job id that Slurm does not list are purged. */
    method PurgeJoblessUuids(ghost jobs: Jobs, ghost pods0: Pods, ghost cms0: ConfigMaps) returns (ghost us: set<Uuid>)
      requires MirrorsJobs(onSlurm, jobs) && MirrorsUuids(onKubernetes, pods0, cms0)
      modifies servers`pods, servers`cms
      ensures forall k :: k in servers.pods ==> k in old(servers.pods) && servers.pods[k] == old(servers.pods)[k]
      ensures forall k :: k in servers.cms ==> k in old(servers.cms) && servers.cms[k] == old(servers.cms)[k]
      ensures forall k :: k in old(servers.pods) && k !in servers.pods ==>
        old(servers.pods)[k].uuidLabel.Some? && Jobless(jobs, pods0, cms0, old(servers.pods)[k].uuidLabel.value)
      ensures forall k :: k in old(servers.cms) && k !in servers.cms ==>
        old(servers.cms)[k].uuidLabel.Some? && Jobless(jobs, pods0, cms0, old(servers.cms)[k].uuidLabel.value)
      ensures servers.refused == {} && AllWritten(cms0) && DistinctUuids(cms0) ==>
        (servers.pods, servers.cms) == Purged(old(servers.pods), old(servers.cms), ToPurge(jobs, pods0, cms0))
      ensures AreJobless(jobs, pods0, cms0, us)
      ensures UuidsPurged(servers.refused, old(servers.pods), old(servers.cms), us, servers.pods, servers.cms)
      ensures AllWritten(cms0) && DistinctUuids(cms0) ==> us == ToPurge(jobs, pods0, cms0)
    {
      us := PurgeDueUuids(jobs, pods0, cms0);
      DoneAreJobless(jobs, pods0, cms0, onKubernetes, us);
      if AllWritten(cms0) && DistinctUuids(cms0) {
        forall u ensures u in us <==> u in ToPurge(jobs, pods0, cms0) { JoblessArePurged(jobs, pods0, cms0, u); }
        assert us == ToPurge(jobs, pods0, cms0);
      }
    }

    /** One pass: list Slurm, list Kubernetes and clean its orphans and stale config-maps, cancel, purge. */
    method Routine()
      modifies this`onSlurm, this`onKubernetes, servers`pods, servers`cms, servers`jobs
      ensures !ListingsAnswered(servers.refused) ==>
        servers.pods == old(servers.pods) && servers.cms == old(servers.cms) && servers.jobs == old(servers.jobs)
      ensures ListingsAnswered(servers.refused) ==>
        servers.jobs == JobsLeft(old(servers.jobs), old(servers.pods), old(servers.cms), servers.refused, old(servers.jobs).Keys)
      ensures OnlyPlannedPodsGo(old(servers.jobs), old(servers.pods), old(servers.cms), servers.pods)
      ensures OnlyPlannedConfigMapsGo(old(servers.jobs), old(servers.pods), old(servers.cms), servers.cms)
      ensures servers.refused == {} && AllWritten(old(servers.cms)) && DistinctUuids(old(servers.cms)) ==>
        Stores(servers.pods, servers.cms, servers.jobs) ==
        PassOutcome(Stores(old(servers.pods), old(servers.cms), old(servers.jobs)))
      ensures AllWritten(old(servers.cms)) && DistinctUuids(old(servers.cms)) ==>
        MayLeave(Stores(old(servers.pods), old(servers.cms), old(servers.jobs)), servers.refused,
                 Stores(servers.pods, servers.cms, servers.jobs))
      ensures ListingsAnswered(servers.refused) ==>
        forall u :: SurelyJobless(old(servers.jobs), old(servers.pods), old(servers.cms), u) ==>
          PurgedAsAnswered(servers.refused, old(servers.pods), old(servers.cms), u, servers.pods, servers.cms)
    {
      ghost var pods, cms, jobs := servers.pods, servers.cms, servers.jobs;
      var ok := FetchJobStateOnSlurm();
      if !ok { return; }
      ok := FetchJobStateOnKubernetes();
      if !ok { return; }
      CancelUnknownJobs(pods, cms);
      ghost var us := PurgeJoblessUuids(jobs, pods, cms);
      if AllWritten(cms) && DistinctUuids(cms) {
        JobsLeftRefused(jobs, pods, cms, servers.refused);
        if servers.refused == {} { NothingRefused(pods, cms, jobs); }
      }
      forall u | SurelyJobless(jobs, pods, cms, u)
        ensures PurgedAsAnswered(servers.refused, pods, cms, u, servers.pods, servers.cms)
      {
        PassPurges(servers.refused, pods, cms, us, u, servers.pods, servers.cms);
      }
    }
  }

  datatype Stores = Stores(pods: Pods, cms: ConfigMaps, jobs: Jobs)

  predicate ListingsAnswered(refused: set<Request>) {
    ListJobs !in refused && ListAllPods !in refused && ListAllConfigMaps !in refused
  }

  ghost predicate OnlyPlannedPodsGo(jobs: Jobs, pods: Pods, cms: ConfigMaps, pods': Pods) {
    && (forall k :: k in pods' ==> k in pods && pods'[k] == pods[k])
    && (forall k :: k in pods && k !in pods' ==>
          IsOrphan(pods, cms, k) || (pods[k].uuidLabel.Some? && Jobless(jobs, pods, cms, pods[k].uuidLabel.value)))
  }

  ghost predicate OnlyPlannedConfigMapsGo(jobs: Jobs, pods: Pods, cms: ConfigMaps, cms': ConfigMaps) {
    && (forall k :: k in cms' ==> k in cms && cms'[k] == cms[k])
    && (forall k :: k in cms && k !in cms' ==>
          IsStale(pods, cms, k) || (cms[k].uuidLabel.Some? && Jobless(jobs, pods, cms, cms[k].uuidLabel.value)))
  }

  /** A pod of `u` that a pass does not delete as an orphan. */
  predicate HasOtherPod(pods: Pods, cms: ConfigMaps, u: Uuid) {
    exists k :: k in pods && pods[k].uuidLabel == Some(u) && !IsOrphan(pods, cms, k)
  }

  /** The pods of a UUID are gone if their requests are answered, and its config-maps too if theirs are answered. */
  ghost predicate PurgedAsAnswered(refused: set<Request>, pods: Pods, cms: ConfigMaps, u: Uuid, pods': Pods,
                                   cms': ConfigMaps)
  {
    PodsAnswered(refused, pods, u) ==>
      && !HasLabelledPod(pods', u)
      && (ConfigMapsAnswered(refused, cms, u) && HasOtherPod(pods, cms, u) ==> !HasLabelledConfigMap(cms', u))
  }

  lemma PassPurges(refused: set<Request>, pods: Pods, cms: ConfigMaps, us: set<Uuid>, u: Uuid, pods': Pods,
                   cms': ConfigMaps)
    requires u in us
    requires UuidsPurged(refused, pods - PodsDeletable(refused, Orphans(pods, cms)),
                         cms - ConfigMapsDeletable(refused, StaleConfigMaps(pods, cms)), us, pods', cms')
    ensures PurgedAsAnswered(refused, pods, cms, u, pods', cms')
  {
    if PodsAnswered(refused, pods, u) {
      var pods1 := pods - PodsDeletable(refused, Orphans(pods, cms));
      var cms1 := cms - ConfigMapsDeletable(refused, StaleConfigMaps(pods, cms));
      PurgesAreComplete(refused, pods1, cms1, us, u, pods', cms');
      if HasOtherPod(pods, cms, u) {
        var k :| k in pods && pods[k].uuidLabel == Some(u) && !IsOrphan(pods, cms, k);
        assert k in pods1;
      }
    }
  }

  /** What a pass over config-maps of the injector may leave when some requests are refused. */
  ghost predicate MayLeave(s: Stores, refused: set<Request>, t: Stores) {
    if !ListingsAnswered(refused) then t == s
    else
      && t.jobs == s.jobs - JobsDeletable(refused, ToCancel(s.jobs, s.pods, s.cms))
      && UuidsPurged(
           refused, s.pods - PodsDeletable(refused, Orphans(s.pods, s.cms)),
           s.cms - ConfigMapsDeletable(refused, StaleConfigMaps(s.pods, s.cms)),
           ToPurge(s.jobs, s.pods, s.cms), t.pods, t.cms)
  }

  lemma JobsLeftRefused(jobs: Jobs, pods: Pods, cms: ConfigMaps, refused: set<Request>)
    requires AllWritten(cms)
    ensures JobsLeft(jobs, pods, cms, refused, jobs.Keys) == jobs - JobsDeletable(refused, ToCancel(jobs, pods, cms))
  {
    forall id | id in jobs ensures Known(pods, cms, jobs[id]) <==> Kept(pods, cms, jobs[id]) {
      KnownIsKept(pods, cms, jobs[id]);
    }
  }

  /** The three stores after a pass in which every request is answered. */
  function PassOutcome(s: Stores): Stores {
    var (pods, cms) :=
      Purged(s.pods - Orphans(s.pods, s.cms), s.cms - StaleConfigMaps(s.pods, s.cms), ToPurge(s.jobs, s.pods, s.cms));
    Stores(pods, cms, s.jobs - ToCancel(s.jobs, s.pods, s.cms))
  }

  lemma NothingRefused(pods: Pods, cms: ConfigMaps, jobs: Jobs)
    requires AllWritten(cms)
    ensures PodsDeletable({}, Orphans(pods, cms)) == Orphans(pods, cms)
    ensures ConfigMapsDeletable({}, StaleConfigMaps(pods, cms)) == StaleConfigMaps(pods, cms)
    ensures JobsLeft(jobs, pods, cms, {}, jobs.Keys) == jobs - ToCancel(jobs, pods, cms)
  {
  }
}
