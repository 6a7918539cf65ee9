/** An admission or a handler that no other actor interrupts takes steps of the protocol to the result of its code. */
module HandlerRuns {
  import opened Wrappers
  import opened Text
  import opened Cluster
  import opened Protocol
  import opened ProtocolRuns
  import Handlers
  import Injector
  import JobInformation
  import Mutation
  import Objects
  import Servers
  import Transport

  /** The steps of one request. */
  predicate OfRequest(tid: nat, step: Step) {
    match step
    case Admit(i, _) => i == tid
    case RequestSbatch(i, _) => i == tid
    case RequestEnv(i, _, _) => i == tid
    case Call(i) => i == tid
    case Store(i, _, _) => i == tid
    case SbatchOk(i, _) => i == tid
    case SbatchFail(i, _) => i == tid
    case Abort(i) => i == tid
    case _ => false
  }

  /** The same, as a function of the step. */
  function Own(tid: nat): Step -> bool { step => OfRequest(tid, step) }

  lemma AbortLeads(s: State, tid: nat)
    requires tid in s.threads
    ensures Leads(s, [Abort(tid)], s.(threads := s.threads - {tid}), Own(tid))
  {
    LeadsOne(s, Abort(tid), s.(threads := s.threads - {tid}), Own(tid));
  }

  // ----- Admission -------------------------------------------------------------------------------

  lemma AdmissionPuts(s: State, tid: nat, u: Uuid, k: Key)
    requires tid in s.threads && s.threads[tid] == InjectGet(u, k)
    ensures Leads(s, [Call(tid)] + [Call(tid)],
                  s.(cms := s.cms[k := Written(u, TO_BE_SET)], threads := s.threads[tid := StorePod(u, k)]), Own(tid))
  {
    var s1 := s.(threads := s.threads[tid := InjectPut(u, k, k in s.cms)]);
    var s2 := s1.(cms := s.cms[k := Written(u, TO_BE_SET)], threads := s1.threads[tid := StorePod(u, k)]);
    LeadsOne(s1, Call(tid), s2, Own(tid));
    Then(s, Call(tid), s1, [Call(tid)], s2, Own(tid));
    assert s1.threads[tid := StorePod(u, k)] == s.threads[tid := StorePod(u, k)];
  }

  /** The records of an admission that is in progress or was abandoned. */
  function Recorded(s: State, a: Admission): State {
    s.(admitted := s.admitted[a.uuid := a], keys := s.keys[a.uuid := KeyFor(a)])
  }

  /** An admission whose config-map is written, and whose pod the API server then stores. */
  lemma AdmissionStores(s: State, tid: nat, a: Admission, pod: Key, jobid: Option<JobId>)
    requires Enabled(s, Admit(tid, a)) && pod !in s.pods
    ensures Leads(s, [Admit(tid, a)] + ([Call(tid)] + [Call(tid)] + [Store(tid, pod, jobid)]),
                  Recorded(s, a).(cms := s.cms[KeyFor(a) := Written(a.uuid, TO_BE_SET)],
                                  pods := s.pods[pod := Pod(Some(a.uuid), Some(a.uuid), jobid, Pending)],
                                  stored := s.stored[a.uuid := pod]),
                  Own(tid))
  {
    var k := KeyFor(a);
    var s1 := Recorded(s, a).(threads := s.threads[tid := InjectGet(a.uuid, k)]);
    var s2 := s1.(cms := s.cms[k := Written(a.uuid, TO_BE_SET)], threads := s1.threads[tid := StorePod(a.uuid, k)]);
    var t := Recorded(s, a).(cms := s2.cms, pods := s.pods[pod := Pod(Some(a.uuid), Some(a.uuid), jobid, Pending)],
                             stored := s.stored[a.uuid := pod]);
    assert s2.threads - {tid} == s.threads;
    AdmissionPuts(s1, tid, a.uuid, k);
    LeadsOne(s2, Store(tid, pod, jobid), t, Own(tid));
    LeadsOn(s1, [Call(tid)] + [Call(tid)], s2, [Store(tid, pod, jobid)], t, Own(tid));
    Then(s, Admit(tid, a), s1, [Call(tid)] + [Call(tid)] + [Store(tid, pod, jobid)], t, Own(tid));
  }

  /** An admission whose first request is refused. */
  lemma AdmissionStopsAtGet(s: State, tid: nat, a: Admission)
    requires Enabled(s, Admit(tid, a))
    ensures Leads(s, [Admit(tid, a)] + [Abort(tid)], Recorded(s, a), Own(tid))
  {
    var s1 := Recorded(s, a).(threads := s.threads[tid := InjectGet(a.uuid, KeyFor(a))]);
    assert s1.threads - {tid} == s.threads;
    AbortLeads(s1, tid);
    Then(s, Admit(tid, a), s1, [Abort(tid)], Recorded(s, a), Own(tid));
  }

  /** An admission whose second request is refused. */
  lemma AdmissionStopsAtPut(s: State, tid: nat, a: Admission)
    requires Enabled(s, Admit(tid, a))
    ensures Leads(s, [Admit(tid, a)] + ([Call(tid)] + [Abort(tid)]), Recorded(s, a), Own(tid))
  {
    var k := KeyFor(a);
    var s1 := Recorded(s, a).(threads := s.threads[tid := InjectGet(a.uuid, k)]);
    var s2 := s1.(threads := s1.threads[tid := InjectPut(a.uuid, k, k in s.cms)]);
    assert s2.threads - {tid} == s.threads;
    AbortLeads(s2, tid);
    Then(s1, Call(tid), s2, [Abort(tid)], Recorded(s, a), Own(tid));
    Then(s, Admit(tid, a), s1, [Call(tid)] + [Abort(tid)], Recorded(s, a), Own(tid));
  }

  /** The steps of an admission of an object, by which requests are refused. */
  function AdmissionSteps(tid: nat, a: Admission, refused: set<Servers.Request>, written: bool, pod: Key,
                          jobid: Option<JobId>): seq<Step> {
    [Admit(tid, a)] +
    if written then [Call(tid)] + [Call(tid)] + [Store(tid, pod, jobid)]
    else if Servers.Request.GetConfigMap(KeyFor(a)) in refused then [Abort(tid)]
    else [Call(tid)] + [Abort(tid)]
  }

  /** The state after `Inject` has mutated an object and, if its config-map could be written, the API server has stored
      it. */
  function Injected(s: State, m: Objects.Manifest, namespace: string, uuid: string, base: string,
                    refused: set<Servers.Request>, pod: Key): State
    requires JobInformation.Resolvable(m)
  {
    var t := Recorded(s, Transport.AdmissionOfObject(m, namespace, uuid));
    match Injector.CmsWithNew(s.cms, refused, m, namespace, uuid)
    case None => t
    case Some(cms) =>
      t.(cms := cms,
         pods := s.pods[pod := Transport.PodOf(Mutation.Mutated(m, namespace, uuid, base), Pending)],
         stored := s.stored[uuid := pod])
  }

  /** The same, in terms of the admission. */
  function Admitted(s: State, a: Admission, written: bool, pod: Key, jobid: Option<JobId>): State {
    var t := Recorded(s, a);
    if written then
      t.(cms := s.cms[KeyFor(a) := Written(a.uuid, TO_BE_SET)],
         pods := s.pods[pod := Pod(Some(a.uuid), Some(a.uuid), jobid, Pending)], stored := s.stored[a.uuid := pod])
    else t
  }

  lemma AdmissionLeads(s: State, tid: nat, a: Admission, refused: set<Servers.Request>, written: bool, pod: Key,
                       jobid: Option<JobId>)
    requires Enabled(s, Admit(tid, a)) && pod !in s.pods
    ensures Leads(s, AdmissionSteps(tid, a, refused, written, pod, jobid), Admitted(s, a, written, pod, jobid), Own(tid))
  {
    if written {
      AdmissionStores(s, tid, a, pod, jobid);
    } else if Servers.Request.GetConfigMap(KeyFor(a)) in refused {
      AdmissionStopsAtGet(s, tid, a);
    } else {
      AdmissionStopsAtPut(s, tid, a);
    }
  }

  lemma InjectedIsAdmitted(s: State, m: Objects.Manifest, namespace: string, uuid: string, base: string,
                           refused: set<Servers.Request>, pod: Key)
    requires JobInformation.Resolvable(m)
    ensures Injected(s, m, namespace, uuid, base, refused, pod) ==
            Admitted(s, Transport.AdmissionOfObject(m, namespace, uuid),
                     Injector.CmsWithNew(s.cms, refused, m, namespace, uuid).Some?, pod, Transport.PodOf(m, Pending).jobid)
  {
    Transport.AdmissionKey(m, namespace, uuid);
    Transport.MutatedPod(m, namespace, uuid, base, Pending);
  }

  /** An admission of an object that nothing interrupts, whichever requests are refused, is a sequence of protocol steps
      that ends in the config-maps which `Inject` leaves and, if it succeeds, with the mutated object stored as a
      pod. */
  lemma AdmissionFollowsTheProtocol(s: State, tid: nat, m: Objects.Manifest, namespace: string, uuid: string, base: string,
                                    refused: set<Servers.Request>, pod: Key)
    requires JobInformation.Resolvable(m) && tid !in s.threads && pod !in s.pods
    ensures var written := Injector.CmsWithNew(s.cms, refused, m, namespace, uuid).Some?;
      Leads(s, AdmissionSteps(tid, Transport.AdmissionOfObject(m, namespace, uuid), refused, written, pod,
                              Transport.PodOf(m, Pending).jobid),
            Injected(s, m, namespace, uuid, base, refused, pod), Own(tid))
  {
    InjectedIsAdmitted(s, m, namespace, uuid, base, refused, pod);
    AdmissionLeads(s, tid, Transport.AdmissionOfObject(m, namespace, uuid), refused,
                   Injector.CmsWithNew(s.cms, refused, m, namespace, uuid).Some?, pod, Transport.PodOf(m, Pending).jobid);
  }

  // ----- Submission ------------------------------------------------------------------------------

  lemma SubmissionPuts(s: State, tid: nat, u: Uuid, k: Key)
    requires tid in s.threads && s.threads[tid] == SbatchGet(u, k)
    ensures Leads(s, [Call(tid)] + [Call(tid)],
                  s.(cms := s.cms[k := Written(u, TO_BE_SET)], threads := s.threads[tid := SbatchRun(u, k)]), Own(tid))
  {
    var s1 := s.(threads := s.threads[tid := SbatchPut(u, k, k in s.cms)]);
    var s2 := s1.(cms := s.cms[k := Written(u, TO_BE_SET)], threads := s1.threads[tid := SbatchRun(u, k)]);
    LeadsOne(s1, Call(tid), s2, Own(tid));
    Then(s, Call(tid), s1, [Call(tid)], s2, Own(tid));
    assert s1.threads[tid := SbatchRun(u, k)] == s.threads[tid := SbatchRun(u, k)];
  }

  /** Get, then update: the job id is published, and the request ends. */
  lemma PublishLeads(s: State, tid: nat, u: Uuid, k: Key, id: JobId)
    requires tid in s.threads && s.threads[tid] == PublishGet(u, k, id) && k in s.cms
    ensures Leads(s, [Call(tid)] + [Call(tid)],
                  s.(cms := s.cms[k := s.cms[k].(jobid := Some(id))], threads := s.threads - {tid}), Own(tid))
  {
    var s1 := s.(threads := s.threads[tid := PublishPut(u, k, id, s.cms[k])]);
    var s2 := s1.(cms := s.cms[k := s.cms[k].(jobid := Some(id))], threads := s1.threads - {tid});
    LeadsOne(s1, Call(tid), s2, Own(tid));
    Then(s, Call(tid), s1, [Call(tid)], s2, Own(tid));
    assert s1.threads - {tid} == s.threads - {tid};
  }

  /** The job id that a submission creates is new. */
  predicate IsNew(launched: Jobs, submission: Handlers.Submission) {
    match submission
    case Accepted(id) => id !in launched
    case Refused(created) => created.Some? ==> created.value !in launched
  }

  /** The config-maps when `to-be-set` was written: `ended` says whether publication or roll-back was answered. */
  function CmsLeft(cms: ConfigMaps, u: Uuid, k: Key, submission: Handlers.Submission, ended: bool): ConfigMaps {
    if ended then Handlers.CmsAfter(cms, u, k, submission) else cms[k := Written(u, TO_BE_SET)]
  }

  /** The state of a submission right after Slurm has answered. */
  function Answered(s: State, tid: nat, u: Uuid, k: Key, submission: Handlers.Submission): State {
    s.(jobs := Handlers.JobsAfter(s.jobs, u, submission), launched := Handlers.JobsAfter(s.launched, u, submission),
       threads := s.threads[tid := if submission.Accepted? then PublishGet(u, k, submission.id) else Rollback(u, k)])
  }

  function AnswerStep(tid: nat, submission: Handlers.Submission): Step {
    match submission
    case Accepted(id) => SbatchOk(tid, id)
    case Refused(created) => SbatchFail(tid, created)
  }

  lemma AnswerIsAnswered(s: State, tid: nat, u: Uuid, k: Key, submission: Handlers.Submission)
    requires tid in s.threads && s.threads[tid] == SbatchRun(u, k) && IsNew(s.launched, submission)
    ensures Enabled(s, AnswerStep(tid, submission))
    ensures Apply(s, AnswerStep(tid, submission)) == Answered(s, tid, u, k, submission)
  {
  }

  lemma AnsweredEnds(s: State, tid: nat, u: Uuid, k: Key, submission: Handlers.Submission) returns (steps: seq<Step>)
    requires tid in s.threads && k in s.cms && s.cms[k] == Written(u, TO_BE_SET)
    requires s.threads[tid] == if submission.Accepted? then PublishGet(u, k, submission.id) else Rollback(u, k)
    ensures Leads(s, steps, s.(cms := Handlers.CmsAfter(s.cms, u, k, submission), threads := s.threads - {tid}), Own(tid))
  {
    if submission.Accepted? {
      steps := [Call(tid)] + [Call(tid)];
      PublishLeads(s, tid, u, k, submission.id);
    } else {
      steps := [Call(tid)];
      LeadsOne(s, Call(tid), s.(cms := s.cms - {k}, threads := s.threads - {tid}), Own(tid));
    }
  }

  lemma PendingIsReplaced(cms: ConfigMaps, u: Uuid, k: Key, submission: Handlers.Submission)
    ensures Handlers.CmsAfter(cms[k := Written(u, TO_BE_SET)], u, k, submission) ==
            Handlers.CmsAfter(cms, u, k, submission)
  {
    assert cms[k := Written(u, TO_BE_SET)] - {k} == cms - {k};
  }

  lemma SubmissionEnds(s: State, tid: nat, u: Uuid, k: Key, submission: Handlers.Submission, ended: bool)
    returns (steps: seq<Step>)
    requires tid in s.threads && s.threads[tid] == SbatchRun(u, k) && IsNew(s.launched, submission)
    requires k in s.cms && s.cms[k] == Written(u, TO_BE_SET)
    ensures
      var t := Answered(s, tid, u, k, submission);
      Leads(s, steps, t.(cms := CmsLeft(s.cms, u, k, submission, ended), threads := s.threads - {tid}), Own(tid))
  {
    var s1 := Answered(s, tid, u, k, submission);
    var t := s1.(cms := CmsLeft(s.cms, u, k, submission, ended), threads := s.threads - {tid});
    assert s1.threads - {tid} == s.threads - {tid};
    assert s.cms[k := Written(u, TO_BE_SET)] == s.cms;
    if ended {
      steps := AnsweredEnds(s1, tid, u, k, submission);
    } else {
      AbortLeads(s1, tid);
      steps := [Abort(tid)];
    }
    AnswerIsAnswered(s, tid, u, k, submission);
    Then(s, AnswerStep(tid, submission), s1, steps, t, Own(tid));
    steps := [AnswerStep(tid, submission)] + steps;
  }

  lemma SameEnd(s: State, tid: nat, u: Uuid, k: Key, submission: Handlers.Submission, ended: bool)
    ensures
      var s1 := s.(cms := s.cms[k := Written(u, TO_BE_SET)], threads := s.threads[tid := SbatchRun(u, k)]);
      Answered(s1, tid, u, k, submission).(
        cms := CmsLeft(s1.cms, u, k, submission, ended), threads := s1.threads - {tid}) ==
      Answered(s, tid, u, k, submission).(
        cms := CmsLeft(s.cms, u, k, submission, ended), threads := s.threads - {tid})
  {
    PendingIsReplaced(s.cms, u, k, submission);
    assert s.threads[tid := SbatchRun(u, k)] - {tid} == s.threads - {tid};
  }

  lemma SubmissionContinues(s: State, tid: nat, u: Uuid, k: Key, submission: Handlers.Submission, ended: bool)
    returns (steps: seq<Step>)
    requires tid in s.threads && s.threads[tid] == SbatchGet(u, k) && IsNew(s.launched, submission)
    ensures
      var t := Answered(s, tid, u, k, submission);
      Leads(s, steps, t.(cms := CmsLeft(s.cms, u, k, submission, ended), threads := s.threads - {tid}), Own(tid))
  {
    SubmissionPuts(s, tid, u, k);
    var s1 := s.(cms := s.cms[k := Written(u, TO_BE_SET)], threads := s.threads[tid := SbatchRun(u, k)]);
    steps := SubmissionEnds(s1, tid, u, k, submission, ended);
    SameEnd(s, tid, u, k, submission, ended);
    var t := Answered(s, tid, u, k, submission).(
      cms := CmsLeft(s.cms, u, k, submission, ended), threads := s.threads - {tid});
    LeadsOn(s, [Call(tid)] + [Call(tid)], s1, steps, t, Own(tid));
    steps := [Call(tid)] + [Call(tid)] + steps;
  }

  /** The stores and histories after a submission: `written` says whether `to-be-set` was written, `ended` whether
      publication or roll-back was answered. */
  function Submitted(s: State, u: Uuid, a: Admission, submission: Handlers.Submission, written: bool, ended: bool): State {
    var t := s.(requested := s.requested + {u});
    if written then
      t.(cms := CmsLeft(s.cms, a.uuid, KeyFor(a), submission, ended),
         jobs := Handlers.JobsAfter(s.jobs, a.uuid, submission),
         launched := Handlers.JobsAfter(s.launched, a.uuid, submission))
    else t
  }

  /** A submission that nothing interrupts is a sequence of protocol steps that ends in the stores of `ServeSbatch`, in
      each of the cases of its contract. */
  lemma SbatchFollowsTheProtocol(s: State, tid: nat, u: Uuid, submission: Handlers.Submission, written: bool, ended: bool)
    returns (steps: seq<Step>)
    requires tid !in s.threads && u in s.stored && u in s.admitted && IsNew(s.launched, submission)
    ensures Leads(s, steps, Submitted(s, u, Parsed(s.admitted[u]), submission, written, ended), Own(tid))
  {
    var a := Parsed(s.admitted[u]);
    var k, t := KeyFor(a), Submitted(s, u, a, submission, written, ended);
    var s1 := s.(threads := s.threads[tid := SbatchGet(a.uuid, k)], requested := s.requested + {u});
    assert s1.threads - {tid} == s.threads;
    if written {
      steps := SubmissionContinues(s1, tid, a.uuid, k, submission, ended);
    } else {
      AbortLeads(s1, tid);
      steps := [Abort(tid)];
    }
    Then(s, RequestSbatch(tid, u), s1, steps, t, Own(tid));
    steps := [RequestSbatch(tid, u)] + steps;
  }

  // ----- Publication by the environment handler ----------------------------------------------------

  /** A publication that the get ends, because the config-map is missing or the update is refused. */
  lemma PublishStops(s: State, tid: nat, u: Uuid, k: Key, id: JobId)
    requires tid in s.threads && s.threads[tid] == PublishGet(u, k, id)
    ensures Leads(s, [Call(tid)] + (if k in s.cms then [Abort(tid)] else []), s.(threads := s.threads - {tid}), Own(tid))
  {
    var t := s.(threads := s.threads - {tid});
    if k in s.cms {
      var s1 := s.(threads := s.threads[tid := PublishPut(u, k, id, s.cms[k])]);
      assert s1.threads - {tid} == s.threads - {tid};
      AbortLeads(s1, tid);
      Then(s, Call(tid), s1, [Abort(tid)], t, Own(tid));
    } else {
      LeadsOne(s, Call(tid), t, Own(tid));
      assert [Call(tid)] + [] == [Call(tid)];
    }
  }

  /** The steps of an environment request after its parameters were read: Slurm answers or not, and some requests are
      refused. */
  function PublicationSteps(s: State, tid: nat, k: Key, refused: set<Servers.Request>, answered: bool): seq<Step> {
    if !answered || Servers.Request.GetConfigMap(k) in refused then [Abort(tid)]
    else if k !in s.cms then [Call(tid)] + []
    else if Servers.Request.UpdateConfigMap(k) in refused then [Call(tid)] + [Abort(tid)]
    else [Call(tid)] + [Call(tid)]
  }

  lemma PublicationLeads(s: State, tid: nat, u: Uuid, k: Key, id: JobId, refused: set<Servers.Request>, answered: bool)
    requires tid in s.threads && s.threads[tid] == PublishGet(u, k, id)
    ensures
      var published := answered && k in s.cms && Handlers.PublishRequests(k) !! refused;
      Leads(s, PublicationSteps(s, tid, k, refused, answered),
            s.(cms := if published then s.cms[k := s.cms[k].(jobid := Some(id))] else s.cms, threads := s.threads - {tid}),
            Own(tid))
  {
    if !answered || Servers.Request.GetConfigMap(k) in refused {
      AbortLeads(s, tid);
    } else if k !in s.cms || Servers.Request.UpdateConfigMap(k) in refused {
      PublishStops(s, tid, u, k, id);
    } else {
      PublishLeads(s, tid, u, k, id);
    }
  }

  /** Whether the environment handler has all its parameters. */
  predicate HasParameters(a: Admission, id: JobId) {
    KeepDigits(id) != "" && Parsed(a).objectName != "" && Parsed(a).namespace != ""
  }

  /** From any state, an environment request that nothing interrupts is a sequence of its own protocol steps, whichever
      requests are refused and whether or not Slurm answers. It ends in the config-maps of `ServeEnv`. */
  lemma EnvFollowsTheProtocol(s: State, tid: nat, u: Uuid, id: JobId, refused: set<Servers.Request>, answered: bool)
    requires tid !in s.threads && u in s.stored && u in s.admitted && id in s.launched && s.launched[id] == u
    ensures
      var a := s.admitted[u];
      Leads(s, [RequestEnv(tid, u, id)] +
               (if HasParameters(a, id) then PublicationSteps(s, tid, KeyFor(Parsed(a)), refused, answered) else []),
            s.(cms := Handlers.CmsAfterEnv(s.cms, refused, a.namespace, a.objectName, id, answered)), Own(tid))
  {
    var a := Parsed(s.admitted[u]);
    var t := s.(cms := Handlers.CmsAfterEnv(s.cms, refused, s.admitted[u].namespace, s.admitted[u].objectName, id, answered));
    if HasParameters(s.admitted[u], id) {
      var s1 := s.(threads := s.threads[tid := PublishGet(a.uuid, KeyFor(a), KeepDigits(id))]);
      assert s1.threads - {tid} == s.threads;
      PublicationLeads(s1, tid, a.uuid, KeyFor(a), KeepDigits(id), refused, answered);
      Then(s, RequestEnv(tid, u, id), s1, PublicationSteps(s, tid, KeyFor(a), refused, answered), t, Own(tid));
    } else {
      LeadsOne(s, RequestEnv(tid, u, id), s, Own(tid));
      assert [RequestEnv(tid, u, id)] + [] == [RequestEnv(tid, u, id)];
    }
  }
}
