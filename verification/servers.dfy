/** The Kubernetes API server and the Slurm controller as the watcher reaches them: stores behind requests that may be
    refused, and listings in an arbitrary order. */
module Servers {
  import opened Wrappers
  import opened Cluster

  /** A sequence that lists every entry of a map once, in some order. */
  ghost predicate Lists<K, V>(items: seq<(K, V)>, m: map<K, V>) {
    && (forall i :: 0 <= i < |items| ==> items[i].0 in m && m[items[i].0] == items[i].1)
    && (forall i, j :: 0 <= i < j < |items| ==> items[i].0 != items[j].0)
    && (forall k :: k in m ==> exists i :: 0 <= i < |items| && items[i].0 == k)
  }

  /** Two parallel slices that list every job once. */
  ghost predicate ListsJobs(uuids: seq<Uuid>, ids: seq<JobId>, jobs: Jobs)
    requires |uuids| == |ids|
  {
    && (forall i :: 0 <= i < |ids| ==> ids[i] in jobs && jobs[ids[i]] == uuids[i])
    && (forall i, j :: 0 <= i < j < |ids| ==> ids[i] != ids[j])
    && (forall id :: id in jobs ==> exists i :: 0 <= i < |ids| && ids[i] == id)
  }

  method Enumerate<K(==), V>(m: map<K, V>) returns (items: seq<(K, V)>)
    ensures Lists(items, m)
  {
    items := [];
    var rest := m.Keys;
    while rest != {}
      invariant rest <= m.Keys
      invariant forall i :: 0 <= i < |items| ==> items[i].0 in m && items[i].0 !in rest && m[items[i].0] == items[i].1
      invariant forall i, j :: 0 <= i < j < |items| ==> items[i].0 != items[j].0
      invariant forall k :: k in m ==> k in rest || exists i :: 0 <= i < |items| && items[i].0 == k
    {
      var k :| k in rest;
      ghost var before := items;
      items := items + [(k, m[k])];
      rest := rest - {k};
      assert items[|before|].0 == k;
      forall k' | k' in m && k' !in rest ensures exists i :: 0 <= i < |items| && items[i].0 == k' {
        if k' != k {
          var i :| 0 <= i < |before| && before[i].0 == k';
          assert items[i].0 == k';
        }
      }
    }
  }

  datatype Request =
    | ListAllPods
    | ListAllConfigMaps
    | ListJobs
    | ListPodsOf(u: Uuid)
    | ListConfigMapsOf(u: Uuid)
    | GetConfigMap(k: Key)
    | CreateConfigMap(k: Key)
    | UpdateConfigMap(k: Key)
    | DeletePod(k: Key)
    | DeleteConfigMap(k: Key)
    | SCancel(id: JobId)

  /** The Kubernetes API server and the Slurm controller. Requests in `refused` return an error and have no effect;
      which requests are refused may change while Slurm handles a submission. */
  class Servers {
    var pods: Pods
    var cms: ConfigMaps
    var jobs: Jobs
    var refused: set<Request>

    constructor (pods: Pods, cms: ConfigMaps, jobs: Jobs, refused: set<Request>)
      ensures this.pods == pods && this.cms == cms && this.jobs == jobs && this.refused == refused
    {
      this.pods, this.cms, this.jobs, this.refused := pods, cms, jobs, refused;
    }

    method ListPods(selector: Option<Uuid>) returns (r: Result<seq<(Key, Pod)>>)
      ensures r.Err? <==> PodsRequest(selector) in refused
      ensures r.Ok? ==> Lists(r.value, if selector.None? then pods else PodsLabelled(pods, selector.value))
    {
      if PodsRequest(selector) in refused {
        return Err;
      }
      var items := Enumerate(if selector.None? then pods else PodsLabelled(pods, selector.value));
      return Ok(items);
    }

    method ListConfigMaps(selector: Option<Uuid>) returns (r: Result<seq<(Key, ConfigMap)>>)
      ensures r.Err? <==> ConfigMapsRequest(selector) in refused
      ensures r.Ok? ==> Lists(r.value, if selector.None? then cms else ConfigMapsLabelled(cms, selector.value))
    {
      if ConfigMapsRequest(selector) in refused {
        return Err;
      }
      var items := Enumerate(if selector.None? then cms else ConfigMapsLabelled(cms, selector.value));
      return Ok(items);
    }

    /** The two parallel slices of `ListUUIDsAndJobIDs`. */
    method ListUuidsAndJobIds() returns (ok: bool, uuids: seq<Uuid>, ids: seq<JobId>)
      ensures ok <==> ListJobs !in refused
      ensures ok ==> |uuids| == |ids| && ListsJobs(uuids, ids, jobs)
    {
      uuids, ids := [], [];
      if ListJobs in refused {
        return false, [], [];
      }
      var items := Enumerate(jobs);
      for i := 0 to |items|
        invariant |uuids| == |ids| == i
        invariant forall j :: 0 <= j < i ==> ids[j] == items[j].0 && uuids[j] == items[j].1
      {
        uuids, ids := uuids + [items[i].1], ids + [items[i].0];
      }
      forall id | id in jobs ensures exists i :: 0 <= i < |ids| && ids[i] == id {
        var i :| 0 <= i < |items| && items[i].0 == id;
        assert ids[i] == id;
      }
      ok := true;
    }

    /** The config-map, or `None` for the answer that it was not found. */
    method GetConfigMap(k: Key) returns (r: Result<Option<ConfigMap>>)
      ensures r == if Request.GetConfigMap(k) in refused then Err else Ok(if k in cms then Some(cms[k]) else None)
    {
      if Request.GetConfigMap(k) in refused {
        return Err;
      }
      r := Ok(if k in cms then Some(cms[k]) else None);
    }

    method CreateConfigMap(k: Key, cm: ConfigMap) returns (ok: bool)
      modifies this`cms
      ensures ok <==> k !in old(cms) && Request.CreateConfigMap(k) !in refused
      ensures cms == if ok then old(cms)[k := cm] else old(cms)
    {
      ok := k !in cms && Request.CreateConfigMap(k) !in refused;
      if ok { cms := cms[k := cm]; }
    }

    method UpdateConfigMap(k: Key, cm: ConfigMap) returns (ok: bool)
      modifies this`cms
      ensures ok <==> k in old(cms) && Request.UpdateConfigMap(k) !in refused
      ensures cms == if ok then old(cms)[k := cm] else old(cms)
    {
      ok := k in cms && Request.UpdateConfigMap(k) !in refused;
      if ok { cms := cms[k := cm]; }
    }

    method DeletePod(k: Key) returns (ok: bool)
      modifies this`pods
      ensures ok <==> k in old(pods) && Request.DeletePod(k) !in refused
      ensures pods == if ok then old(pods) - {k} else old(pods)
    {
      ok := k in pods && Request.DeletePod(k) !in refused;
      if ok { pods := pods - {k}; }
    }

    method DeleteConfigMap(k: Key) returns (ok: bool)
      modifies this`cms
      ensures ok <==> k in old(cms) && Request.DeleteConfigMap(k) !in refused
      ensures cms == if ok then old(cms) - {k} else old(cms)
    {
      ok := k in cms && Request.DeleteConfigMap(k) !in refused;
      if ok { cms := cms - {k}; }
    }

    method SCancel(id: JobId) returns (ok: bool)
      modifies this`jobs
      ensures ok <==> id in old(jobs) && Request.SCancel(id) !in refused
      ensures jobs == if ok then old(jobs) - {id} else old(jobs)
    {
      ok := id in jobs && Request.SCancel(id) !in refused;
      if ok { jobs := jobs - {id}; }
    }
  }

  /** The requests that writing a config-map takes. */
  function WriteRequests(cms: ConfigMaps, k: Key): set<Request> {
    {Request.GetConfigMap(k), if k in cms then Request.UpdateConfigMap(k) else Request.CreateConfigMap(k)}
  }

  /** The way in which the injector and the sbatch handler write a config-map. */
  method CreateOrUpdate(servers: Servers, k: Key, cm: ConfigMap) returns (ok: bool)
    modifies servers`cms
    ensures ok <==> WriteRequests(old(servers.cms), k) !! servers.refused
    ensures servers.cms == if ok then old(servers.cms)[k := cm] else old(servers.cms)
  {
    var got := servers.GetConfigMap(k);
    if got.Err? { return false; }
    if got.value.None? {
      ok := servers.CreateConfigMap(k, cm);
    } else {
      ok := servers.UpdateConfigMap(k, cm);
    }
  }

  function PodsRequest(selector: Option<Uuid>): Request {
    if selector.None? then ListAllPods else ListPodsOf(selector.value)
  }

  function ConfigMapsRequest(selector: Option<Uuid>): Request {
    if selector.None? then ListAllConfigMaps else ListConfigMapsOf(selector.value)
  }

  function PodsLabelled(pods: Pods, u: Uuid): Pods {
    map k | k in pods && pods[k].uuidLabel == Some(u) :: pods[k]
  }

  function ConfigMapsLabelled(cms: ConfigMaps, u: Uuid): ConfigMaps {
    map k | k in cms && cms[k].uuidLabel == Some(u) :: cms[k]
  }
}
