/** The Slurm handlers that write config-maps, run alone, and their agreement with the steps of the protocol. */
module Handlers {
  import opened Wrappers
  import opened Text
  import opened Naming
  import opened Cluster
  import opened Servers
  import opened JobInformation
  import EnvExtraction

  /** What Slurm answers to a submission. A refused one may have created a job nonetheless. */
  datatype Submission = Accepted(id: JobId) | Refused(created: Option<JobId>)

  function JobsAfter(jobs: Jobs, u: Uuid, submission: Submission): Jobs {
    match submission
    case Accepted(id) => jobs[id := u]
    case Refused(created) => if created.Some? then jobs[created.value := u] else jobs
  }

  /** The submission itself. It takes time: afterwards the requests in `later` are refused. */
  method SBatch(servers: Servers, u: Uuid, submission: Submission, later: set<Request>) returns (out: Result<JobId>)
    modifies servers`jobs, servers`refused
    ensures servers.jobs == JobsAfter(old(servers.jobs), u, submission) && servers.refused == later
    ensures out == if submission.Accepted? then Ok(submission.id) else Err
  {
    servers.refused := later;
    match submission
    case Accepted(id) =>
      servers.jobs := servers.jobs[id := u];
      out := Ok(id);
    case Refused(created) =>
      if created.Some? { servers.jobs := servers.jobs[created.value := u]; }
      out := Err;
  }

  /** The requests that publish a job id. */
  function PublishRequests(k: Key): set<Request> { {Request.GetConfigMap(k), Request.UpdateConfigMap(k)} }

  /** The config-map is read and written back with the job id. */
  method Publish(servers: Servers, k: Key, id: JobId) returns (ok: bool)
    modifies servers`cms
    ensures ok <==> k in old(servers.cms) && PublishRequests(k) !! servers.refused
    ensures servers.cms ==
            if ok then old(servers.cms)[k := old(servers.cms)[k].(jobid := Some(id))] else old(servers.cms)
  {
    var got := servers.GetConfigMap(k);
    if got.Err? || got.value.None? { return false; }
    ok := servers.UpdateConfigMap(k, got.value.value.(jobid := Some(id)));
  }

  /** The requests that end a submission. */
  function EndRequests(k: Key, submission: Submission): set<Request> {
    if submission.Accepted? then PublishRequests(k) else {Request.DeleteConfigMap(k)}
  }

  function CmsAfter(cms: ConfigMaps, u: Uuid, k: Key, submission: Submission): ConfigMaps {
    if submission.Accepted? then cms[k := Written(u, submission.id)] else cms - {k}
  }

  /** The sbatch handler, on settings that it has parsed and prepared: `to-be-set` is written before the job is
      submitted; then the job id is published, or the config-map deleted if the submission failed. Refusals before and
      after the submission are independent: whatever is refused, no job is created without its config-map, and when the
      job id cannot be published the config-map stays `to-be-set` beside the running job. */
  method ServeSbatch(servers: Servers, info: JobInfo, submission: Submission, later: set<Request>)
    modifies servers`cms, servers`jobs, servers`refused
    ensures var k, cms := ConfigMapKey(info.namespace, info.objectName), old(servers.cms);
      if !(WriteRequests(cms, k) !! old(servers.refused)) then
        servers.cms == cms && servers.jobs == old(servers.jobs) && servers.refused == old(servers.refused)
      else
        && servers.refused == later
        && servers.jobs == JobsAfter(old(servers.jobs), info.uuid, submission)
        && servers.cms ==
           if EndRequests(k, submission) !! later then CmsAfter(cms, info.uuid, k, submission)
           else cms[k := Written(info.uuid, TO_BE_SET)]
  {
    var k := ConfigMapKey(info.namespace, info.objectName);
    var cm := ConfigMap(Some(info.uuid), Some(info.uuid), Some(TO_BE_SET));
    var ok := CreateOrUpdate(servers, k, cm);
    if !ok { return; }
    var out := SBatch(servers, info.uuid, submission, later);
    if out.Ok? {
      ok := Publish(servers, k, out.value);
    } else {
      ok := servers.DeleteConfigMap(k);
    }
  }

  /** An environment request that has all its parameters, is answered by Slurm and publishes. */
  predicate PublishesEnv(cms: ConfigMaps, refused: set<Request>, namespace: string, objectName: string, id: string,
                         answered: bool)
  {
    var k := ConfigMapKey(KeepName(namespace), KeepName(objectName));
    && KeepDigits(id) != "" && KeepName(objectName) != "" && KeepName(namespace) != "" && answered
    && k in cms && PublishRequests(k) !! refused
  }

  function CmsAfterEnv(cms: ConfigMaps, refused: set<Request>, namespace: string, objectName: string, id: string,
                       answered: bool): ConfigMaps
  {
    var k := ConfigMapKey(KeepName(namespace), KeepName(objectName));
    if PublishesEnv(cms, refused, namespace, objectName, id, answered) then
      cms[k := cms[k].(jobid := Some(KeepDigits(id)))]
    else cms
  }

  /** The environment handler, on the parameters of its URL and the output of `env` in the job: it publishes the job id
      and the extracted variables. */
  method ServeEnv(servers: Servers, namespace: string, objectName: string, id: string, out: Result<string>)
    returns (data: Option<map<string, string>>)
    modifies servers`cms
    ensures data.Some? <==> PublishesEnv(old(servers.cms), servers.refused, namespace, objectName, id, out.Ok?)
    ensures servers.cms == CmsAfterEnv(old(servers.cms), servers.refused, namespace, objectName, id, out.Ok?)
    ensures data.Some? ==> EnvExtraction.LastWriterWins(Split(out.value, "\n"), data.value)
  {
    var ns, name, jobid := KeepName(namespace), KeepName(objectName), KeepDigits(id);
    if jobid == "" { return None; }
    if name == "" { return None; }
    if ns == "" { return None; }
    if out.Err? { return None; }
    var env := EnvExtraction.Extract(out.value);
    var ok := Publish(servers, ConfigMapKey(ns, name), jobid);
    data := if ok then Some(env) else None;
  }
}
