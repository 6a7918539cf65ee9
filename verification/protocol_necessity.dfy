/** The hypotheses are needed: without one of their clauses there is a run, under all others, in which the watcher harms
    a live pod or its job. */
module ProtocolNecessity {
  import opened Wrappers
  import opened Text
  import opened Cluster
  import opened Protocol
  import opened ProtocolInvariant

  /** Which clauses of the hypotheses are kept. */
  datatype Clauses = Clauses(identity: bool, pods: bool, names: bool, annotations: bool, requests: bool, outcomes: bool, window: bool)

  const ALL := Clauses(true, true, true, true, true, true, true)

  ghost predicate Holds(h: Clauses, s: State, step: Step)
    requires Enabled(s, step)
  {
    && (h.identity ==> FreshIdentity(s, step))
    && (h.pods ==> DistinctPods(s, step))
    && (h.names ==> DistinctNames(s, step))
    && (h.annotations ==> OwnAnnotations(step))
    && (h.requests ==> OneRequest(s, step))
    && (h.outcomes ==> HonestOutcome(step))
    && (h.window ==> H3(s, step))
  }

  ghost predicate Under(h: Clauses, states: seq<State>, steps: seq<Step>)
    requires IsRun(states, steps)
  {
    forall i :: 0 <= i < |steps| ==> Holds(h, states[i], steps[i])
  }

  /** All clauses together are the hypotheses of the safety theorems. */
  lemma UnderAll(states: seq<State>, steps: seq<Step>)
    requires IsRun(states, steps)
    ensures Under(ALL, states, steps) <==>
            UnderH1(states, steps) && UnderH2(states, steps) && UnderH3(states, steps)
  {
    if Under(ALL, states, steps) {
      forall i | 0 <= i < |steps| ensures H1(states[i], steps[i]) && H2(states[i], steps[i]) && H3(states[i], steps[i]) {
        assert Holds(ALL, states[i], steps[i]);
      }
    }
  }

  ghost predicate Follows(h: Clauses, s: State, step: Step, t: State) {
    Enabled(s, step) && t == Apply(s, step) && Holds(h, s, step)
  }

  /** A sequence of states, each linked to the next by a step. */
  ghost predicate Chain<S(!new), T(!new)>(states: seq<S>, steps: seq<T>, link: (S, T, S) -> bool) {
    && |states| == |steps| + 1
    && forall i :: 0 <= i < |steps| ==> link(states[i], steps[i], states[i + 1])
  }

  lemma ChainGrows<S(!new), T(!new)>(states: seq<S>, steps: seq<T>, link: (S, T, S) -> bool, step: T, t: S)
    requires Chain(states, steps, link) && link(states[|steps|], step, t)
    ensures Chain(states + [t], steps + [step], link)
  {
  }

  datatype Trace = Trace(states: seq<State>, steps: seq<Step>) {
    ghost predicate Reaches(h: Clauses, s: State) {
      Chain(states, steps, (a, step, b) => Follows(h, a, step, b)) && states[0] == INITIAL && states[|steps|] == s
    }
  }

  lemma Grow(r: Trace, h: Clauses, s: State, step: Step, t: State) returns (r': Trace)
    requires r.Reaches(h, s) && Follows(h, s, step, t)
    ensures r' == Trace(r.states + [t], r.steps + [step]) && r'.Reaches(h, t)
  {
    ChainGrows(r.states, r.steps, (a, step, b) => Follows(h, a, step, b), step, t);
    r' := Trace(r.states + [t], r.steps + [step]);
  }

  /** A trace whose last step harms is a run that the safety theorem must exclude. */
  lemma HarmfulRun(r: Trace, h: Clauses, s: State, step: Step, t: State)
    requires r.Reaches(h, s) && Follows(h, s, step, t) && !Harmless(s, step)
    ensures var states, steps := r.states + [t], r.steps + [step];
      && IsRun(states, steps) && Under(h, states, steps)
      && !Harmless(states[|steps| - 1], steps[|steps| - 1])
  {
    var r' := Grow(r, h, s, step, t);
    forall i | 0 <= i < |r'.steps|
      ensures Enabled(r'.states[i], r'.steps[i]) && r'.states[i + 1] == Apply(r'.states[i], r'.steps[i])
      ensures Holds(h, r'.states[i], r'.steps[i])
    {
      assert Follows(h, r'.states[i], r'.steps[i], r'.states[i + 1]);
    }
  }

  /** A harmful run under some clauses. */
  ghost predicate Harms(h: Clauses, states: seq<State>, steps: seq<Step>, step: Step) {
    && IsRun(states, steps) && Under(h, states, steps)
    && |steps| > 0 && steps[|steps| - 1] == step && !Harmless(states[|steps| - 1], step)
  }

  // ----- Single steps of traces ------------------------------------------------------------------

  lemma CallFollows(h: Clauses, s: State, tid: nat)
    requires Enabled(s, Call(tid)) && (h.window ==> !s.watcher.InWindow())
    ensures Follows(h, s, Call(tid), CallThread(s, tid))
  {
  }

  lemma GrowCall(r: Trace, h: Clauses, s: State, t: State) returns (r': Trace)
    requires r.Reaches(h, s) && Enabled(s, Call(0)) && CallThread(s, 0) == t && (h.window ==> !s.watcher.InWindow())
    ensures r'.Reaches(h, t)
  {
    CallFollows(h, s, 0);
    r' := Grow(r, h, s, Call(0), t);
  }

  lemma ListingFollows(h: Clauses, s: State, step: Step, w: Watcher)
    requires step.ListJobs? || step.ListPods? || step.ListConfigMaps? || step.PurgeListPods?
    requires Enabled(s, step) && Apply(s, step) == s.(watcher := w)
    ensures Follows(h, s, step, s.(watcher := w))
  {
  }

  lemma GrowListing(r: Trace, h: Clauses, s: State, step: Step, w: Watcher) returns (r': Trace)
    requires step.ListJobs? || step.ListPods? || step.ListConfigMaps? || step.PurgeListPods?
    requires r.Reaches(h, s) && Enabled(s, step) && Apply(s, step) == s.(watcher := w)
    ensures r'.Reaches(h, s.(watcher := w))
  {
    ListingFollows(h, s, step, w);
    r' := Grow(r, h, s, step, s.(watcher := w));
  }

  /** No request is in progress except one. */
  function Only(th: Thread): map<nat, Thread> { map[0 := th] }

  lemma AdmitFollows(h: Clauses, s: State, a: Admission)
    requires s.threads == map[] && Named(a) && a.uuid !in s.admitted
    requires h.names ==> forall u :: u in s.keys ==> s.keys[u] != KeyFor(a)
    ensures Follows(h, s, Admit(0, a),
                    s.(threads := Only(InjectGet(a.uuid, KeyFor(a))), admitted := s.admitted[a.uuid := a],
                       keys := s.keys[a.uuid := KeyFor(a)]))
  {
  }

  lemma StoreFollows(h: Clauses, s: State, u: Uuid, k: Key, p: Key, jobid: Option<JobId>)
    requires s.threads == Only(StorePod(u, k)) && p !in s.pods
    requires (h.annotations ==> jobid == None) && (h.pods ==> forall v :: v in s.stored ==> s.stored[v] != p)
    ensures Follows(h, s, Store(0, p, jobid),
                    s.(pods := s.pods[p := Pod(Some(u), Some(u), jobid, Pending)], threads := map[],
                       stored := s.stored[u := p]))
  {
    assert s.threads - {0} == map[];
  }

  lemma RequestFollows(h: Clauses, s: State, a: Admission)
    requires s.threads == map[] && s.watcher.Idle? && Named(a)
    requires a.uuid in s.stored && a.uuid in s.admitted && s.admitted[a.uuid] == a
    requires h.requests ==> a.uuid !in s.requested
    ensures Follows(h, s, RequestSbatch(0, a.uuid),
                    s.(threads := Only(SbatchGet(a.uuid, KeyFor(a))), requested := s.requested + {a.uuid}))
  {
    ParsedAgrees(a);
  }

  lemma AnswerFollows(h: Clauses, s: State, u: Uuid, k: Key, id: JobId)
    requires s.threads == Only(SbatchRun(u, k)) && id !in s.launched && IsDecimal(id)
    ensures Follows(h, s, SbatchOk(0, id),
                    s.(jobs := s.jobs[id := u], launched := s.launched[id := u], threads := Only(PublishGet(u, k, id))))
  {
  }

  lemma RefusalFollows(h: Clauses, s: State, u: Uuid, k: Key, created: Option<JobId>)
    requires s.threads == Only(SbatchRun(u, k)) && (h.outcomes ==> created == None)
    requires created.Some? ==> created.value !in s.launched
    ensures Follows(h, s, SbatchFail(0, created),
                    s.(jobs := if created.Some? then s.jobs[created.value := u] else s.jobs,
                       launched := if created.Some? then s.launched[created.value := u] else s.launched,
                       threads := Only(Rollback(u, k))))
  {
  }

  // ----- Pieces of traces ------------------------------------------------------------------------

  predicate Named(a: Admission) { AllOf(a.uuid, IsNameChar) && AllOf(a.namespace, IsNameChar) }

  lemma InjectGetCalls(s: State, u: Uuid, k: Key)
    requires s.threads == Only(InjectGet(u, k))
    ensures Enabled(s, Call(0)) && CallThread(s, 0) == s.(threads := Only(InjectPut(u, k, k in s.cms)))
  {
  }

  lemma InjectPutCalls(s: State, u: Uuid, k: Key)
    requires s.threads == Only(InjectPut(u, k, k in s.cms))
    ensures Enabled(s, Call(0))
    ensures CallThread(s, 0) == s.(cms := s.cms[k := Written(u, TO_BE_SET)], threads := Only(StorePod(u, k)))
  {
  }

  /** The two calls of an admission write `to-be-set`. */
  lemma GrowAdmission(r: Trace, h: Clauses, s: State, u: Uuid, k: Key) returns (r': Trace)
    requires r.Reaches(h, s) && s.threads == Only(InjectGet(u, k)) && !s.watcher.InWindow()
    ensures r'.Reaches(h, s.(cms := s.cms[k := Written(u, TO_BE_SET)], threads := Only(StorePod(u, k))))
  {
    var s1 := s.(threads := Only(InjectPut(u, k, k in s.cms)));
    InjectGetCalls(s, u, k);
    r' := GrowCall(r, h, s, s1);
    InjectPutCalls(s1, u, k);
    r' := GrowCall(r', h, s1, s1.(cms := s.cms[k := Written(u, TO_BE_SET)], threads := Only(StorePod(u, k))));
  }

  lemma GrowPut(r: Trace, h: Clauses, s: State, t: State, u: Uuid, k: Key) returns (r': Trace)
    requires r.Reaches(h, s) && s.threads == Only(SbatchPut(u, k, k in s.cms)) && s.watcher.Idle?
    requires t == s.(cms := s.cms[k := Written(u, TO_BE_SET)], threads := Only(SbatchRun(u, k)))
    ensures r'.Reaches(h, t)
  {
    r' := GrowCall(r, h, s, t);
  }

  /** The two calls of a submission write `to-be-set`. */
  lemma GrowSubmission(r: Trace, h: Clauses, s: State, u: Uuid, k: Key) returns (r': Trace)
    requires r.Reaches(h, s) && s.threads == Only(SbatchGet(u, k)) && s.watcher.Idle?
    ensures r'.Reaches(h, s.(cms := s.cms[k := Written(u, TO_BE_SET)], threads := Only(SbatchRun(u, k))))
  {
    var s1 := s.(threads := Only(SbatchPut(u, k, k in s.cms)));
    var t := s.(cms := s.cms[k := Written(u, TO_BE_SET)], threads := Only(SbatchRun(u, k)));
    r' := GrowCall(r, h, s, s1);
    r' := GrowPut(r', h, s1, t, u, k);
  }

  /** The two calls of a publication. */
  lemma GrowPublication(r: Trace, h: Clauses, s: State, u: Uuid, k: Key, id: JobId) returns (r': Trace)
    requires r.Reaches(h, s) && (h.window ==> !s.watcher.InWindow())
    requires s.threads == Only(PublishGet(u, k, id)) && k in s.cms && s.cms[k] == Written(u, TO_BE_SET)
    ensures r'.Reaches(h, s.(cms := s.cms[k := Written(u, id)], threads := map[]))
  {
    var s1 := s.(threads := Only(PublishPut(u, k, id, s.cms[k])));
    r' := GrowCall(r, h, s, s1);
    assert s1.threads - {0} == map[];
    r' := GrowCall(r', h, s1, s.(cms := s.cms[k := Written(u, id)], threads := map[]));
  }

  /** A refused submission is rolled back. */
  lemma GrowRefusal(r: Trace, h: Clauses, s: State, u: Uuid, k: Key, created: Option<JobId>) returns (r': Trace)
    requires r.Reaches(h, s) && s.watcher.Idle? && s.threads == Only(SbatchRun(u, k))
    requires (h.outcomes ==> created == None) && (created.Some? ==> created.value !in s.launched)
    ensures r'.Reaches(h, s.(cms := s.cms - {k},
                             jobs := if created.Some? then s.jobs[created.value := u] else s.jobs,
                             launched := if created.Some? then s.launched[created.value := u] else s.launched,
                             threads := map[]))
  {
    RefusalFollows(h, s, u, k, created);
    var s1 := s.(jobs := if created.Some? then s.jobs[created.value := u] else s.jobs,
                 launched := if created.Some? then s.launched[created.value := u] else s.launched,
                 threads := Only(Rollback(u, k)));
    r' := Grow(r, h, s, SbatchFail(0, created), s1);
    assert s1.threads - {0} == map[];
    r' := GrowCall(r', h, s1, s1.(cms := s.cms - {k}, threads := map[]));
  }

  // ----- A pod that has asked for its job ----------------------------------------------------------

  function LivePod(u: Uuid, jobid: Option<JobId>): Pod { Pod(Some(u), Some(u), jobid, Pending) }

  function Stored(a: Admission, p: Key, jobid: Option<JobId>): State {
    State(map[KeyFor(a) := Written(a.uuid, TO_BE_SET)], map[p := LivePod(a.uuid, jobid)], map[], map[], Idle,
          map[a.uuid := a], map[a.uuid := KeyFor(a)], map[a.uuid := p], {}, map[])
  }

  lemma ReachStored(a: Admission, p: Key, jobid: Option<JobId>, h: Clauses) returns (r: Trace)
    requires Named(a) && (h.annotations ==> jobid == None)
    ensures r.Reaches(h, Stored(a, p, jobid))
  {
    var u, k := a.uuid, KeyFor(a);
    var s1 := INITIAL.(threads := Only(InjectGet(u, k)), admitted := map[u := a], keys := map[u := k]);
    var s2 := s1.(cms := map[k := Written(u, TO_BE_SET)], threads := Only(StorePod(u, k)));
    r := Trace([INITIAL], []);
    AdmitFollows(h, INITIAL, a);
    r := Grow(r, h, INITIAL, Admit(0, a), s1);
    r := GrowAdmission(r, h, s1, u, k);
    StoreFollows(h, s2, u, k, p, jobid);
    r := Grow(r, h, s2, Store(0, p, jobid), Stored(a, p, jobid));
  }

  /** The sbatch request of the pod is about to submit. */
  function Submitting(a: Admission, p: Key, jobid: Option<JobId>): State {
    Stored(a, p, jobid).(threads := Only(SbatchRun(a.uuid, KeyFor(a))), requested := {a.uuid})
  }

  lemma ReachSubmitting(a: Admission, p: Key, jobid: Option<JobId>, h: Clauses) returns (r: Trace)
    requires Named(a) && (h.annotations ==> jobid == None)
    ensures r.Reaches(h, Submitting(a, p, jobid))
  {
    var u, k, s := a.uuid, KeyFor(a), Stored(a, p, jobid);
    r := ReachStored(a, p, jobid, h);
    RequestFollows(h, s, a);
    var s1 := s.(threads := Only(SbatchGet(u, k)), requested := s.requested + {u});
    r := Grow(r, h, s, RequestSbatch(0, u), s1);
    r := GrowSubmission(r, h, s1, u, k);
    assert s.cms[k := Written(u, TO_BE_SET)] == s.cms && s.requested + {u} == {u};
  }

  /** The job was created, and its id is on its way to the config-map. */
  function Launched(a: Admission, p: Key, id: JobId): State {
    Submitting(a, p, None).(
      threads := Only(PublishGet(a.uuid, KeyFor(a), id)), jobs := map[id := a.uuid], launched := map[id := a.uuid])
  }

  /** The sbatch request has published the job. */
  function Published(a: Admission, p: Key, id: JobId): State {
    Launched(a, p, id).(cms := map[KeyFor(a) := Written(a.uuid, id)], threads := map[])
  }

  lemma ReachPublished(a: Admission, p: Key, id: JobId, h: Clauses) returns (r: Trace)
    requires Named(a) && IsDecimal(id)
    ensures r.Reaches(h, Published(a, p, id))
  {
    var s := Submitting(a, p, None);
    r := ReachSubmitting(a, p, None, h);
    AnswerFollows(h, s, a.uuid, KeyFor(a), id);
    r := Grow(r, h, s, SbatchOk(0, id), Launched(a, p, id));
    r := GrowPublication(r, h, Launched(a, p, id), a.uuid, KeyFor(a), id);
  }

  // ----- A quiet pass that cancels a job -------------------------------------------------------------

  /** A job of a live pod, whose UUID no config-map has, and no config-map published. */
  ghost predicate JobForgotten(s: State, id: JobId) {
    && s.watcher.Idle? && s.jobs.Keys == {id} && HasLivePod(s.pods, s.jobs[id])
    && (forall k :: k in s.cms ==> s.cms[k].uuid != Some(s.jobs[id]) && !s.cms[k].Published())
    && (forall k :: k in s.pods ==> s.pods[k].jobid == None)
  }

  lemma ForgottenPlan(s: State, id: JobId)
    requires JobForgotten(s, id)
    ensures Orphans(s.pods, s.cms) == {} && StaleConfigMaps(s.pods, s.cms) == {} && ToPurge(s.jobs, s.pods, s.cms) == {}
    ensures ToCancel(s.jobs, s.pods, s.cms) == {id}
  {
  }

  /** The three listings of a quiet pass. */
  lemma GrowPass(r: Trace, h: Clauses, s: State, p: Plan) returns (r': Trace)
    requires r.Reaches(h, s) && s.watcher.Idle?
    requires p == Plan(Orphans(s.pods, s.cms), StaleConfigMaps(s.pods, s.cms), ToCancel(s.jobs, s.pods, s.cms),
                       ToPurge(s.jobs, s.pods, s.cms))
    ensures r'.Reaches(h, s.(watcher := Acting(p)))
  {
    var s1 := s.(watcher := ListedJobs(s.jobs));
    var s2 := s.(watcher := ListedPods(s.jobs, s.pods));
    r' := GrowListing(r, h, s, ListJobs, s1.watcher);
    r' := GrowListing(r', h, s1, ListPods, s2.watcher);
    r' := GrowListing(r', h, s2, ListConfigMaps, Acting(p));
  }

  lemma CancelFollows(h: Clauses, s: State, id: JobId)
    requires s.watcher == Acting(Plan({}, {}, {id}, {}))
    ensures Follows(h, s, Cancel(id), s.(jobs := s.jobs - {id}, watcher := Acting(Plan({}, {}, {}, {}))))
  {
    assert {id} - {id} == {};
  }

  /** A quiet pass cancels a forgotten job. */
  lemma CancelForgotten(r: Trace, h: Clauses, s: State, id: JobId) returns (states: seq<State>, steps: seq<Step>)
    requires r.Reaches(h, s) && JobForgotten(s, id)
    ensures Harms(h, states, steps, Cancel(id))
  {
    ForgottenPlan(s, id);
    var r' := GrowPass(r, h, s, Plan({}, {}, {id}, {}));
    var s1 := s.(watcher := Acting(Plan({}, {}, {id}, {})));
    var s2 := s1.(jobs := s.jobs - {id}, watcher := Acting(Plan({}, {}, {}, {})));
    CancelFollows(h, s1, id);
    HarmfulRun(r', h, s1, Cancel(id), s2);
    states, steps := r'.states + [s2], r'.steps + [Cancel(id)];
  }

  // ----- Without distinct pods -------------------------------------------------------------------------

  const WITHOUT_PODS := ALL.(pods := false)

  /** The job of a live pod has left. */
  function Finished(a: Admission, p: Key, id: JobId): State { Published(a, p, id).(jobs := map[]) }

  lemma JobEndsFollows(h: Clauses, s: State, u: Uuid, id: JobId)
    requires s.jobs == map[id := u] && !s.watcher.InWindow()
    ensures Follows(h, s, JobEnds(id), s.(jobs := map[]))
  {
    assert s.jobs - {id} == map[];
  }

  lemma ReachFinished(a: Admission, p: Key, id: JobId, h: Clauses) returns (r: Trace)
    requires Named(a) && IsDecimal(id)
    ensures r.Reaches(h, Finished(a, p, id))
  {
    r := ReachPublished(a, p, id, h);
    JobEndsFollows(h, Published(a, p, id), a.uuid, id);
    r := Grow(r, h, Published(a, p, id), JobEnds(id), Finished(a, p, id));
  }

  lemma FinishedPlan(a: Admission, p: Key, id: JobId)
    requires IsDecimal(id)
    ensures var s := Finished(a, p, id);
      && Orphans(s.pods, s.cms) == {} && StaleConfigMaps(s.pods, s.cms) == {}
      && ToCancel(s.jobs, s.pods, s.cms) == {} && ToPurge(s.jobs, s.pods, s.cms) == {a.uuid}
  {
    var s, k := Finished(a, p, id), KeyFor(a);
    DecimalIsNotToBeSet(id);
    assert p in s.pods && s.pods[p].Live() && s.pods[p].uuid == Some(a.uuid);
    assert IsJobless(s.jobs, s.pods, s.cms, k);
    assert s.cms[k].uuid.value in ToPurge(s.jobs, s.pods, s.cms);
  }

  /** The watcher is about to delete the pod of a job that has left. */
  function PurgingFinished(a: Admission, p: Key, id: JobId): State {
    Finished(a, p, id).(watcher := PurgingPods(Plan({}, {}, {}, {}), a.uuid, {p}))
  }

  lemma ReachPurgingFinished(a: Admission, p: Key, id: JobId, h: Clauses) returns (r: Trace)
    requires Named(a) && IsDecimal(id)
    ensures r.Reaches(h, PurgingFinished(a, p, id))
  {
    var s := Finished(a, p, id);
    r := ReachFinished(a, p, id, h);
    FinishedPlan(a, p, id);
    r := GrowPass(r, h, s, Plan({}, {}, {}, {a.uuid}));
    var s1 := s.(watcher := Acting(Plan({}, {}, {}, {a.uuid})));
    PurgeListingFollows(h, s1, a.uuid, p);
    r := Grow(r, h, s1, PurgeListPods(a.uuid), PurgingFinished(a, p, id));
  }

  lemma PodGoneFollows(h: Clauses, s: State, p: Key)
    requires p in s.pods && !s.watcher.InWindow()
    ensures Follows(h, s, PodGone(p), s.(pods := s.pods - {p}))
  {
  }

  /** The pod vanishes, and another one is stored under its name. */
  lemma ReachReplaced(a: Admission, b: Admission, p: Key, id: JobId) returns (r: Trace, s: State)
    requires Named(a) && Named(b) && IsDecimal(id) && a.uuid != b.uuid && KeyFor(a) != KeyFor(b)
    ensures r.Reaches(WITHOUT_PODS, s) && s.watcher == PurgingPods(Plan({}, {}, {}, {}), a.uuid, {p})
    ensures p in s.pods && s.pods[p] == LivePod(b.uuid, None) && !Created(s.launched, b.uuid)
  {
    var h, v, k, s0 := WITHOUT_PODS, b.uuid, KeyFor(b), PurgingFinished(a, p, id);
    r := ReachPurgingFinished(a, p, id, h);
    PodGoneFollows(h, s0, p);
    var s1 := s0.(pods := s0.pods - {p});
    r := Grow(r, h, s0, PodGone(p), s1);
    AdmitFollows(h, s1, b);
    var s2 := s1.(threads := Only(InjectGet(v, k)), admitted := s1.admitted[v := b], keys := s1.keys[v := k]);
    r := Grow(r, h, s1, Admit(0, b), s2);
    r := GrowAdmission(r, h, s2, v, k);
    var s3 := s2.(cms := s2.cms[k := Written(v, TO_BE_SET)], threads := Only(StorePod(v, k)));
    StoreFollows(h, s3, v, k, p, None);
    s := s3.(pods := s3.pods[p := LivePod(v, None)], threads := map[], stored := s3.stored[v := p]);
    r := Grow(r, h, s3, Store(0, p, None), s);
  }

  /** The watcher deletes pods by name: when the pod of a job that has left is replaced by another one of that name
      while it is being purged, the live pod of the other admission is deleted, whose job was never created. */
  lemma WithoutDistinctPods(a: Admission, b: Admission, p: Key, id: JobId) returns (states: seq<State>, steps: seq<Step>)
    requires Named(a) && Named(b) && IsDecimal(id) && a.uuid != b.uuid && KeyFor(a) != KeyFor(b)
    ensures Harms(WITHOUT_PODS, states, steps, PurgePod(p, false))
  {
    var r, s := ReachReplaced(a, b, p, id);
    PurgeFollows(WITHOUT_PODS, s, a.uuid, p);
    var t := s.(pods := s.pods - {p}, watcher := PurgingPods(Plan({}, {}, {}, {}), a.uuid, {p} - {p}));
    HarmfulRun(r, WITHOUT_PODS, s, PurgePod(p, false), t);
    states, steps := r.states + [t], r.steps + [PurgePod(p, false)];
  }

  // ----- Without distinct names ------------------------------------------------------------------------

  const WITHOUT_NAMES := ALL.(names := false)

  /** The job of `a` is published; then the config-map of the same name is rewritten for `b`. */
  lemma ReachOverwritten(a: Admission, b: Admission, p: Key, id: JobId) returns (r: Trace, s: State)
    requires Named(a) && Named(b) && IsDecimal(id) && a.uuid != b.uuid && KeyFor(a) == KeyFor(b)
    ensures r.Reaches(WITHOUT_NAMES, s) && JobForgotten(s, id)
  {
    var h, u, k, v := WITHOUT_NAMES, a.uuid, KeyFor(a), b.uuid;
    var s0 := Published(a, p, id);
    r := ReachPublished(a, p, id, h);
    AdmitFollows(h, s0, b);
    var s1 := s0.(threads := Only(InjectGet(v, k)), admitted := s0.admitted[v := b], keys := s0.keys[v := k]);
    r := Grow(r, h, s0, Admit(0, b), s1);
    r := GrowAdmission(r, h, s1, v, k);
    s := s1.(cms := s1.cms[k := Written(v, TO_BE_SET)], threads := Only(StorePod(v, k)));
    assert p in s.pods && s.pods[p].Live() && s.pods[p].uuid == Some(u);
  }

  /** Two admissions with one config-map name lead to a run in which the watcher cancels the job of the first pod while
      that pod is live. */
  lemma WithoutDistinctNames(a: Admission, b: Admission, p: Key, id: JobId) returns (states: seq<State>, steps: seq<Step>)
    requires Named(a) && Named(b) && IsDecimal(id) && a.uuid != b.uuid && KeyFor(a) == KeyFor(b)
    ensures Harms(WITHOUT_NAMES, states, steps, Cancel(id))
  {
    var r, s := ReachOverwritten(a, b, p, id);
    states, steps := CancelForgotten(r, WITHOUT_NAMES, s, id);
  }

  // ----- Without own annotations ---------------------------------------------------------------------------

  const WITHOUT_ANNOTATIONS := ALL.(annotations := false)

  lemma OrphanPlan(s: State, u: Uuid, p: Key, jobid: JobId)
    requires s.pods == map[p := LivePod(u, Some(jobid))] && s.cms == map[] && s.jobs == map[]
    ensures Orphans(s.pods, s.cms) == {p} && StaleConfigMaps(s.pods, s.cms) == {}
    ensures ToCancel(s.jobs, s.pods, s.cms) == {} && ToPurge(s.jobs, s.pods, s.cms) == {}
  {
  }

  lemma OrphanFollows(h: Clauses, s: State, p: Key)
    requires s.watcher == Acting(Plan({p}, {}, {}, {}))
    ensures Follows(h, s, DeleteOrphan(p, false), s.(pods := s.pods - {p}, watcher := Acting(Plan({}, {}, {}, {}))))
  {
    assert {p} - {p} == {};
  }

  /** A pod that was stored with a job id of its own is deleted although its job never left Slurm: when the submission
      fails, the roll-back deletes the config-map, and the watcher takes the live pod for an orphan. */
  lemma WithoutOwnAnnotations(a: Admission, p: Key, jobid: JobId) returns (states: seq<State>, steps: seq<Step>)
    requires Named(a)
    ensures Harms(WITHOUT_ANNOTATIONS, states, steps, DeleteOrphan(p, false))
  {
    var h, s0 := WITHOUT_ANNOTATIONS, Submitting(a, p, Some(jobid));
    var r := ReachSubmitting(a, p, Some(jobid), h);
    r := GrowRefusal(r, h, s0, a.uuid, KeyFor(a), None);
    var s1 := s0.(cms := s0.cms - {KeyFor(a)}, threads := map[]);
    assert s1.cms == map[];
    OrphanPlan(s1, a.uuid, p, jobid);
    r := GrowPass(r, h, s1, Plan({p}, {}, {}, {}));
    var s2 := s1.(watcher := Acting(Plan({p}, {}, {}, {})));
    var s3 := s2.(pods := s2.pods - {p}, watcher := Acting(Plan({}, {}, {}, {})));
    OrphanFollows(h, s2, p);
    HarmfulRun(r, h, s2, DeleteOrphan(p, false), s3);
    states, steps := r.states + [s3], r.steps + [DeleteOrphan(p, false)];
  }

  // ----- Without one request -------------------------------------------------------------------------------

  const WITHOUT_ONE_REQUEST := ALL.(requests := false)

  /** The job of a live pod is requested again, as a restarted init-container does; the second submission fails without
      leaving a job. */
  lemma ReachRequestedTwice(a: Admission, p: Key, id: JobId) returns (r: Trace, s: State)
    requires Named(a) && IsDecimal(id)
    ensures r.Reaches(WITHOUT_ONE_REQUEST, s) && JobForgotten(s, id)
  {
    var h, u, k, s0 := WITHOUT_ONE_REQUEST, a.uuid, KeyFor(a), Published(a, p, id);
    r := ReachPublished(a, p, id, h);
    RequestFollows(h, s0, a);
    var s1 := s0.(threads := Only(SbatchGet(u, k)), requested := s0.requested + {u});
    r := Grow(r, h, s0, RequestSbatch(0, u), s1);
    r := GrowSubmission(r, h, s1, u, k);
    var s2 := s1.(cms := s1.cms[k := Written(u, TO_BE_SET)], threads := Only(SbatchRun(u, k)));
    r := GrowRefusal(r, h, s2, u, k, None);
    s := s2.(cms := s2.cms - {k}, threads := map[]);
    assert s.cms == map[];
    assert p in s.pods && s.pods[p].Live() && s.pods[p].uuid == Some(u);
  }

  /** The roll-back of a second submission deletes the config-map of the first, and the watcher cancels the first job
      while its pod is live. */
  lemma WithoutOneRequest(a: Admission, p: Key, id: JobId) returns (states: seq<State>, steps: seq<Step>)
    requires Named(a) && IsDecimal(id)
    ensures Harms(WITHOUT_ONE_REQUEST, states, steps, Cancel(id))
  {
    var r, s := ReachRequestedTwice(a, p, id);
    states, steps := CancelForgotten(r, WITHOUT_ONE_REQUEST, s, id);
  }

  // ----- Without an honest outcome ---------------------------------------------------------------------------

  const WITHOUT_HONEST_OUTCOME := ALL.(outcomes := false)

  /** A submission that reports an error although its job was created is rolled back, and the watcher cancels the job
      while its pod is live. */
  lemma WithoutHonestOutcome(a: Admission, p: Key, id: JobId) returns (states: seq<State>, steps: seq<Step>)
    requires Named(a)
    ensures Harms(WITHOUT_HONEST_OUTCOME, states, steps, Cancel(id))
  {
    var h, u, k, s0 := WITHOUT_HONEST_OUTCOME, a.uuid, KeyFor(a), Submitting(a, p, None);
    var r := ReachSubmitting(a, p, None, h);
    r := GrowRefusal(r, h, s0, u, k, Some(id));
    var s := s0.(cms := s0.cms - {k}, jobs := s0.jobs[id := u], launched := s0.launched[id := u], threads := map[]);
    assert s.cms == map[];
    assert p in s.pods && s.pods[p].Live() && s.pods[p].uuid == Some(u);
    states, steps := CancelForgotten(r, h, s, id);
  }

  // ----- Without a quiet window ----------------------------------------------------------------------------

  const WITHOUT_H3 := ALL.(window := false)

  /** The job is submitted after Slurm was listed and published before the config-maps are listed. */
  function JustPublished(a: Admission, p: Key, id: JobId): State {
    Published(a, p, id).(watcher := ListedPods(map[], map[p := LivePod(a.uuid, None)]))
  }

  lemma ReachJustLaunched(a: Admission, p: Key, id: JobId) returns (r: Trace)
    requires Named(a) && IsDecimal(id)
    ensures r.Reaches(WITHOUT_H3, Launched(a, p, id).(watcher := ListedJobs(map[])))
  {
    var h, s := WITHOUT_H3, Submitting(a, p, None);
    r := ReachSubmitting(a, p, None, h);
    r := GrowListing(r, h, s, ListJobs, ListedJobs(map[]));
    AnswerFollows(h, s.(watcher := ListedJobs(map[])), a.uuid, KeyFor(a), id);
    r := Grow(r, h, s.(watcher := ListedJobs(map[])), SbatchOk(0, id), Launched(a, p, id).(watcher := ListedJobs(map[])));
  }

  /** The same, when the pods have been listed as well. */
  function JustListed(a: Admission, p: Key, id: JobId): State {
    Launched(a, p, id).(watcher := ListedPods(map[], map[p := LivePod(a.uuid, None)]))
  }

  lemma ReachJustListed(a: Admission, p: Key, id: JobId) returns (r: Trace)
    requires Named(a) && IsDecimal(id)
    ensures r.Reaches(WITHOUT_H3, JustListed(a, p, id))
  {
    var s := Launched(a, p, id).(watcher := ListedJobs(map[]));
    r := ReachJustLaunched(a, p, id);
    r := GrowListing(r, WITHOUT_H3, s, ListPods, JustListed(a, p, id).watcher);
  }

  lemma ReachJustPublished(a: Admission, p: Key, id: JobId) returns (r: Trace)
    requires Named(a) && IsDecimal(id)
    ensures r.Reaches(WITHOUT_H3, JustPublished(a, p, id))
  {
    var s, u, k := JustListed(a, p, id), a.uuid, KeyFor(a);
    r := ReachJustListed(a, p, id);
    r := GrowPublication(r, WITHOUT_H3, s, u, k, id);
    assert s.cms[k := Written(u, id)] == map[k := Written(u, id)];
  }

  lemma JustPublishedIsPurged(a: Admission, p: Key, id: JobId)
    requires id != TO_BE_SET
    ensures var s := JustPublished(a, p, id);
      && Orphans(s.watcher.podList, s.cms) == {} && StaleConfigMaps(s.watcher.podList, s.cms) == {}
      && ToCancel(s.watcher.slurm, s.watcher.podList, s.cms) == {}
      && ToPurge(s.watcher.slurm, s.watcher.podList, s.cms) == {a.uuid}
  {
    var s, k := JustPublished(a, p, id), KeyFor(a);
    var pods := s.watcher.podList;
    assert p in pods && pods[p].Live() && pods[p].uuid == Some(a.uuid);
    assert IsJobless(map[], pods, s.cms, k);
    assert s.cms[k].uuid.value in ToPurge(map[], pods, s.cms);
  }

  lemma PurgeListingFollows(h: Clauses, s: State, u: Uuid, p: Key)
    requires s.watcher == Acting(Plan({}, {}, {}, {u})) && s.pods == map[p := LivePod(u, None)]
    ensures Follows(h, s, PurgeListPods(u), s.(watcher := PurgingPods(Plan({}, {}, {}, {}), u, {p})))
  {
    assert (set k | k in s.pods && s.pods[k].uuidLabel == Some(u)) == {p};
    assert {u} - {u} == {};
  }

  lemma PurgeFollows(h: Clauses, s: State, u: Uuid, p: Key)
    requires s.watcher == PurgingPods(Plan({}, {}, {}, {}), u, {p})
    ensures Follows(h, s, PurgePod(p, false),
                    s.(pods := s.pods - {p}, watcher := PurgingPods(Plan({}, {}, {}, {}), u, {p} - {p})))
  {
  }

  /** The watcher is about to delete the live pod of a just-published job. */
  function PurgingPublished(a: Admission, p: Key, id: JobId): State {
    JustPublished(a, p, id).(watcher := PurgingPods(Plan({}, {}, {}, {}), a.uuid, {p}))
  }

  lemma ReachPurgingPublished(a: Admission, p: Key, id: JobId) returns (r: Trace)
    requires Named(a) && IsDecimal(id)
    ensures r.Reaches(WITHOUT_H3, PurgingPublished(a, p, id))
  {
    var h, u, s := WITHOUT_H3, a.uuid, JustPublished(a, p, id);
    r := ReachJustPublished(a, p, id);
    DecimalIsNotToBeSet(id);
    JustPublishedIsPurged(a, p, id);
    var s1 := s.(watcher := Acting(Plan({}, {}, {}, {u})));
    r := GrowListing(r, h, s, ListConfigMaps, s1.watcher);
    PurgeListingFollows(h, s1, u, p);
    r := Grow(r, h, s1, PurgeListPods(u), PurgingPublished(a, p, id));
  }

  /** The watcher takes a just-published job for a missing one and deletes its live pod, while Slurm runs the job. */
  lemma WithoutQuietWindow(a: Admission, p: Key, id: JobId) returns (states: seq<State>, steps: seq<Step>)
    requires Named(a) && IsDecimal(id)
    ensures Harms(WITHOUT_H3, states, steps, PurgePod(p, false)) && OnSlurm(states[|steps|].jobs, a.uuid)
  {
    var h, u, s := WITHOUT_H3, a.uuid, PurgingPublished(a, p, id);
    var r := ReachPurgingPublished(a, p, id);
    PurgeFollows(h, s, u, p);
    var t := s.(pods := s.pods - {p}, watcher := PurgingPods(Plan({}, {}, {}, {}), u, {p} - {p}));
    assert id in s.jobs && s.jobs[id] == u;
    HarmfulRun(r, h, s, PurgePod(p, false), t);
    states, steps := r.states + [t], r.steps + [PurgePod(p, false)];
  }
}
