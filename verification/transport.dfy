/** What ties admission, handlers and watcher together: the identity of a pod travels through URLs, config-map names and
    job names, and every component computes the same one. */
module Transport {
  import opened Wrappers
  import opened Text
  import opened Naming
  import Cluster
  import Objects
  import opened JobInformation
  import opened Url
  import UrlExactness
  import Mutation
  import JobNames
  import Injector
  import SettingSources
  import opened Protocol

  /** The identity that a URL carries. */
  function AdmissionOf(info: JobInfo): Admission { Admission(info.namespace, info.objectName, info.uuid) }

  /** The identity that an admission of an object records. */
  function AdmissionOfObject(m: Objects.Manifest, namespace: string, uuid: string): Admission
    requires Resolvable(m)
  {
    AdmissionOf(Mutation.FreshInfo(m, namespace, uuid))
  }

  lemma AdmissionKey(m: Objects.Manifest, namespace: string, uuid: string)
    requires Resolvable(m)
    ensures var a := AdmissionOfObject(m, namespace, uuid);
      KeyFor(a) == Injector.KeyOf(m, namespace) && a.uuid == uuid && a.namespace == namespace
  {
    Mutation.PrintedFields(m, namespace);
  }

  // ----- What the injected scripts call ------------------------------------------------------------

  /** The URL that the first script submits to, and the one by which it asks whether Slurm has the node. */
  function SbatchUrl(script: Objects.Script, node: string): string
    requires script.InjectorScript?
  {
    if script.nodeName == NODE_PLACEHOLDER then ReplaceFirst(script.sbatchUrl, NODE_PLACEHOLDER, node)
    else script.sbatchUrl
  }

  function IsInjectableUrl(script: Objects.Script, node: string): string
    requires script.InjectorScript?
  {
    if script.nodeName == NODE_PLACEHOLDER then ReplaceFirst(script.isInjectableUrl, NODE_PLACEHOLDER, node)
    else script.isInjectableUrl
  }

  /** The URL for a job, by which both scripts ask for state and environment and cancel. */
  function OfJob(url: string, id: string): string { url + "&jobid=" + id }

  /** The two injected scripts of an object. */
  predicate HasScripts(m: Objects.Manifest) {
    && |m.spec.initContainers| >= 2
    && m.spec.initContainers[0].script.InjectorScript? && m.spec.initContainers[1].script.PipelineScript?
  }

  function First(m: Objects.Manifest): Objects.Script
    requires HasScripts(m)
    ensures First(m).InjectorScript?
  {
    m.spec.initContainers[0].script
  }

  function Second(m: Objects.Manifest): Objects.Script
    requires HasScripts(m)
    ensures Second(m).PipelineScript?
  {
    m.spec.initContainers[1].script
  }

  function Read(url: string, info0: JobInfo): JobInfo { ReadEntries(ParseQuery(RawQuery(url)), info0) }

  /** The first value of a key in the query of a URL. */
  function Parameter(url: string, key: string): string { Get(ParseQuery(RawQuery(url)), key) }

  /** The URL addresses an action, and a handler reads from it the settings, each through its filter. */
  predicate Calls(url: string, target: string, info: JobInfo, info0: JobInfo) {
    target <= url && Read(url, info0) == Filtered(info, info0.gpuLimit)
  }

  predicate PlainBase(base: string) { '?' !in base && '#' !in base }

  lemma TargetComesFirst(base: string, info: JobInfo, action: string)
    ensures base + "/slurm/" + action + "?" <= ConstructUrl(base, info, action)
  {
    ConstructUrlIsJoin(base, info, action);
  }

  lemma ConstructedCalls(base: string, info: JobInfo, action: string, target: string, info0: JobInfo)
    requires PlainTarget(base, action) && PlainInfo(info) && target == base + "/slurm/" + action + "?"
    ensures Calls(ConstructUrl(base, info, action), target, info, info0)
  {
    TargetComesFirst(base, info, action);
    RoundTrip(base, info, action, info0);
  }

  /** The address of every action. */
  lemma Addresses(base: string)
    ensures base + "/slurm/" + "isinjectable" + "?" == base + "/slurm/isinjectable?"
    ensures base + "/slurm/" + "state" + "?" == base + "/slurm/state?"
    ensures base + "/slurm/" + "sbatch" + "?" == base + "/slurm/sbatch?"
    ensures base + "/slurm/" + "scancel" + "?" == base + "/slurm/scancel?"
    ensures base + "/slurm/" + "envtoconfigmap" + "?" == base + "/slurm/envtoconfigmap?"
  {
  }

  lemma ActionsArePlain(base: string)
    requires PlainBase(base)
    ensures PlainTarget(base, "isinjectable") && PlainTarget(base, "state") && PlainTarget(base, "sbatch")
    ensures PlainTarget(base, "scancel") && PlainTarget(base, "envtoconfigmap")
  {
  }

  /** The scripts that are prepended to the init-containers. */
  lemma ScriptsOfInfo(m: Objects.Manifest, info: JobInfo, base: string)
    ensures var m' := Mutation.MutatedBy(m, info, base);
      && HasScripts(m') && m'.spec.initContainers[2..] == m.spec.initContainers
      && First(m') == Objects.InjectorScript(
           isInjectableUrl := ConstructUrl(base, info, "isinjectable"), stateUrl := ConstructUrl(base, info, "state"),
           sbatchUrl := ConstructUrl(base, info, "sbatch"), scancelUrl := ConstructUrl(base, info, "scancel"),
           nodeName := info.node)
      && Second(m') == Objects.PipelineScript(
           envUrl := ConstructUrl(base, info, "envtoconfigmap"), scancelUrl := ConstructUrl(base, info, "scancel"))
  {
  }

  /** Each of the six URLs in the injected scripts addresses its own action, and a handler reads from it the settings of
      the object with the new UUID. */
  lemma ScriptsCallTheirActions(m: Objects.Manifest, namespace: string, uuid: string, base: string, info0: JobInfo)
    requires Resolvable(m) && PlainBase(base) && PlainInfo(Mutation.FreshInfo(m, namespace, uuid))
    ensures var m', info := Mutation.Mutated(m, namespace, uuid, base), Mutation.FreshInfo(m, namespace, uuid);
      && HasScripts(m')
      && Calls(First(m').isInjectableUrl, base + "/slurm/isinjectable?", info, info0)
      && Calls(First(m').stateUrl, base + "/slurm/state?", info, info0)
      && Calls(First(m').sbatchUrl, base + "/slurm/sbatch?", info, info0)
      && Calls(First(m').scancelUrl, base + "/slurm/scancel?", info, info0)
      && Calls(Second(m').envUrl, base + "/slurm/envtoconfigmap?", info, info0)
      && Calls(Second(m').scancelUrl, base + "/slurm/scancel?", info, info0)
      && First(m').nodeName == SettingSources.NodeOf(m)
  {
    var info := Mutation.FreshInfo(m, namespace, uuid);
    ScriptsOfInfo(m, info, base);
    Addresses(base);
    ActionsArePlain(base);
    ConstructedCalls(base, info, "isinjectable", base + "/slurm/isinjectable?", info0);
    ConstructedCalls(base, info, "state", base + "/slurm/state?", info0);
    ConstructedCalls(base, info, "sbatch", base + "/slurm/sbatch?", info0);
    ConstructedCalls(base, info, "scancel", base + "/slurm/scancel?", info0);
    ConstructedCalls(base, info, "envtoconfigmap", base + "/slurm/envtoconfigmap?", info0);
    SettingSources.WhereSettingsComeFrom(m, namespace);
  }

  // ----- What the handlers read --------------------------------------------------------------------

  /** The information with the node it is meant for. */
  function OnNode(info: JobInfo, node: string): JobInfo {
    if info.node == NODE_PLACEHOLDER then info.(node := node) else info
  }

  /** The query before the value of the node does not hold the placeholder. */
  predicate PlaceholderComesFirst(base: string, info: JobInfo, action: string) {
    IndexOf(Prefix(base, info, action, 4) + "node=", NODE_PLACEHOLDER) == None
  }

  predicate Transportable(base: string, info: JobInfo, node: string) {
    && PlainBase(base) && PlainInfo(info) && Plain(node)
    && PlaceholderComesFirst(base, info, "sbatch") && PlaceholderComesFirst(base, info, "isinjectable")
  }

  lemma SubstitutedReads(base: string, info: JobInfo, action: string, node: string, info0: JobInfo)
    requires PlainTarget(base, action) && PlainInfo(info) && Plain(node) && PlaceholderComesFirst(base, info, action)
    ensures var url := ConstructUrl(base, info, action);
      Read(if info.node == NODE_PLACEHOLDER then ReplaceFirst(url, NODE_PLACEHOLDER, node) else url, info0) ==
      Filtered(OnNode(info, node), info0.gpuLimit)
  {
    if info.node == NODE_PLACEHOLDER {
      AutoRoundTrip(base, info, action, node, info0);
    } else {
      RoundTrip(base, info, action, info0);
    }
  }

  /** From the URLs that the first script calls for its node, the handlers read the settings of the object, each through
      its filter, with that node in auto mode. */
  lemma FirstScriptReads(m: Objects.Manifest, namespace: string, uuid: string, base: string, node: string, info0: JobInfo)
    requires Resolvable(m) && Transportable(base, Mutation.FreshInfo(m, namespace, uuid), node)
    ensures var m', info := Mutation.Mutated(m, namespace, uuid, base), Mutation.FreshInfo(m, namespace, uuid);
      && HasScripts(m')
      && Read(SbatchUrl(First(m'), node), info0) == Filtered(OnNode(info, node), info0.gpuLimit)
      && Read(IsInjectableUrl(First(m'), node), info0) == Filtered(OnNode(info, node), info0.gpuLimit)
  {
    var info := Mutation.FreshInfo(m, namespace, uuid);
    ScriptsOfInfo(m, info, base);
    ActionsArePlain(base);
    SubstitutedReads(base, info, "sbatch", node, info0);
    SubstitutedReads(base, info, "isinjectable", node, info0);
  }

  /** The query of a URL for a job: the settings, then the job id. */
  lemma QueryOfJob(base: string, info: JobInfo, action: string, id: string)
    requires PlainTarget(base, action) && PlainInfo(info) && IsDecimal(id)
    ensures ParseQuery(RawQuery(OfJob(ConstructUrl(base, info, action), id))) ==
            Entries(SpacedInfo(info)) + [Entry("jobid", id)]
  {
    var e, joined := Entry("jobid", id), Join(Entries(info));
    DecimalIsPlain(id);
    ConstructUrlIsJoin(base, info, action);
    EntriesArePlain(info);
    JoinIsParsed(Entries(info));
    ReceivedEntries(info);
    LettersArePlain("jobid");
    PieceIsParsed(e);
    SpacedWithout(id);
    UrlExactness.QueryOfPiece(Piece(e));
    UrlExactness.QueryBoth(joined, Piece(e));
    QueryIsWhole(base, action, joined, id);
  }

  lemma DecimalIsPlain(id: string)
    requires IsDecimal(id)
    ensures Plain(id) && '+' !in id && AllOf("jobid", IsLetter)
  {
    forall i | 0 <= i < |id| ensures IsPlain(id[i]) && id[i] != '+' { assert IsDigit(id[i]); }
  }

  lemma QueryIsWhole(base: string, action: string, joined: string, id: string)
    requires PlainTarget(base, action) && '#' !in joined && '#' !in Piece(Entry("jobid", id))
    ensures RawQuery(OfJob(Target(base, action) + joined, id)) == joined + "&" + Piece(Entry("jobid", id))
  {
    var query := joined + "&" + Piece(Entry("jobid", id));
    assert '?' !in "/slurm/" && '#' !in "/slurm/";
    assert OfJob(Target(base, action) + joined, id) == (base + "/slurm/" + action) + "?" + query;
    RawQueryOf(base + "/slurm/" + action, query);
    IndexOfNone(query, "#");
  }

  lemma {:induction false} GetBoth(xs: seq<Entry>, ys: seq<Entry>, key: string)
    ensures (exists i :: 0 <= i < |xs| && xs[i].key == key) ==> Get(xs + ys, key) == Get(xs, key)
    ensures (forall i :: 0 <= i < |xs| ==> xs[i].key != key) ==> Get(xs + ys, key) == Get(ys, key)
  {
    if xs == [] {
      assert xs + ys == ys;
    } else {
      assert (xs + ys)[1..] == xs[1..] + ys;
      GetBoth(xs[1..], ys, key);
      forall i | 0 < i < |xs| ensures xs[1..][i - 1] == xs[i] {}
      if exists i :: 0 <= i < |xs| && xs[i].key == key {
        var i :| 0 <= i < |xs| && xs[i].key == key;
        if i > 0 { assert xs[1..][i - 1].key == key; }
      }
    }
  }

  lemma NoKeyIsJobId(i: nat)
    requires i < 12
    ensures KEYS[i] != "jobid"
  {
  }

  lemma GetSetting(info: JobInfo, last: seq<Entry>, i: nat)
    requires i < 12
    ensures Get(Entries(info) + last, KEYS[i]) == ValuesOf(info)[i]
  {
    assert Entries(info)[i].key == KEYS[i];
    GetBoth(Entries(info), last, KEYS[i]);
    GetEntry(info, i);
  }

  lemma GetJobId(info: JobInfo, id: string)
    ensures Get(Entries(info) + [Entry("jobid", id)], "jobid") == id
  {
    forall i | 0 <= i < 12 ensures Entries(info)[i].key != "jobid" { NoKeyIsJobId(i); }
    GetBoth(Entries(info), [Entry("jobid", id)], "jobid");
  }

  lemma JobQueryReads(q: seq<Entry>, info: JobInfo, id: string)
    requires q == Entries(SpacedInfo(info)) + [Entry("jobid", id)] && IsDecimal(id)
    ensures KeepDigits(Get(q, "jobid")) == id
    ensures KeepName(Get(q, "namespace")) == KeepName(info.namespace)
    ensures KeepName(Get(q, "objectname")) == KeepName(info.objectName)
  {
    GetJobId(SpacedInfo(info), id);
    GetSetting(SpacedInfo(info), [Entry("jobid", id)], 0);
    GetSetting(SpacedInfo(info), [Entry("jobid", id)], 1);
    FilterKeepsAllowed(id, IsDigit);
    FilterSpaced(info.namespace, IsNameChar);
    FilterSpaced(info.objectName, IsNameChar);
  }

  /** From a URL for a job a handler reads the job id, and the settings as without it. */
  lemma JobUrlReads(base: string, info: JobInfo, action: string, id: string, url: string)
    requires PlainTarget(base, action) && PlainInfo(info) && IsDecimal(id)
    requires url == OfJob(ConstructUrl(base, info, action), id)
    ensures KeepDigits(Parameter(url, "jobid")) == id
    ensures KeepName(Parameter(url, "namespace")) == KeepName(info.namespace)
    ensures KeepName(Parameter(url, "objectname")) == KeepName(info.objectName)
  {
    QueryOfJob(base, info, action, id);
    JobQueryReads(ParseQuery(RawQuery(url)), info, id);
  }

  /** From the URL that the second script calls for a job, the environment handler reads the identity, each part through
      its filter, and the job id; state and cancellation are for that job as well. */
  lemma SecondScriptReads(m: Objects.Manifest, namespace: string, uuid: string, base: string, id: string)
    requires Resolvable(m) && PlainBase(base) && PlainInfo(Mutation.FreshInfo(m, namespace, uuid)) && IsDecimal(id)
    ensures var m', a := Mutation.Mutated(m, namespace, uuid, base), AdmissionOfObject(m, namespace, uuid);
      && HasScripts(m')
      && KeepName(Parameter(OfJob(Second(m').envUrl, id), "namespace")) == Parsed(a).namespace
      && KeepName(Parameter(OfJob(Second(m').envUrl, id), "objectname")) == Parsed(a).objectName
      && KeepDigits(Parameter(OfJob(Second(m').envUrl, id), "jobid")) == id
      && KeepDigits(Parameter(OfJob(Second(m').scancelUrl, id), "jobid")) == id
      && KeepDigits(Parameter(OfJob(First(m').stateUrl, id), "jobid")) == id
      && KeepDigits(Parameter(OfJob(First(m').scancelUrl, id), "jobid")) == id
  {
    var info := Mutation.FreshInfo(m, namespace, uuid);
    var m' := Mutation.MutatedBy(m, info, base);
    ScriptsOfInfo(m, info, base);
    ActionsArePlain(base);
    JobUrlReads(base, info, "envtoconfigmap", id, OfJob(Second(m').envUrl, id));
    JobUrlReads(base, info, "scancel", id, OfJob(Second(m').scancelUrl, id));
    JobUrlReads(base, info, "state", id, OfJob(First(m').stateUrl, id));
  }

  /** Both handlers read from the injected scripts the identity that the protocol calls `Parsed`. */
  lemma HandlersReadTheAdmission(m: Objects.Manifest, namespace: string, uuid: string, base: string, node: string,
                                 id: string, info0: JobInfo)
    requires Resolvable(m) && Transportable(base, Mutation.FreshInfo(m, namespace, uuid), node) && IsDecimal(id)
    ensures var m', a := Mutation.Mutated(m, namespace, uuid, base), AdmissionOfObject(m, namespace, uuid);
      && HasScripts(m')
      && AdmissionOf(Read(SbatchUrl(First(m'), node), info0)) == Parsed(a)
      && KeepName(Parameter(OfJob(Second(m').envUrl, id), "namespace")) == Parsed(a).namespace
      && KeepName(Parameter(OfJob(Second(m').envUrl, id), "objectname")) == Parsed(a).objectName
  {
    FirstScriptReads(m, namespace, uuid, base, node, info0);
    SecondScriptReads(m, namespace, uuid, base, id);
  }

  /** The filter never changes the name of the config-map; it changes its key exactly when it changes the namespace. */
  lemma FilteredKey(a: Admission)
    ensures KeyFor(Parsed(a)).name == KeyFor(a).name
    ensures KeyFor(Parsed(a)) == KeyFor(a) <==> AllOf(a.namespace, IsNameChar)
  {
    ConfigMapNameOfFiltered(a.objectName);
    FilterFixpoint(a.namespace, IsNameChar);
  }

  /** The config-map that the environment handler reads and updates. */
  function EnvKey(url: string): Cluster.Key {
    ConfigMapKey(KeepName(Parameter(url, "namespace")), KeepName(Parameter(url, "objectname")))
  }

  /** Injector, sbatch handler and environment handler reach one config-map for every object that is mutated. */
  lemma OneConfigMap(m: Objects.Manifest, namespace: string, uuid: string, base: string, node: string, id: string,
                     info0: JobInfo)
    requires Resolvable(m) && AllOf(namespace, IsNameChar) && IsDecimal(id)
    requires Transportable(base, Mutation.FreshInfo(m, namespace, uuid), node)
    ensures var m' := Mutation.Mutated(m, namespace, uuid, base);
      && HasScripts(m')
      && KeyFor(AdmissionOf(Read(SbatchUrl(First(m'), node), info0))) == Injector.KeyOf(m, namespace)
      && EnvKey(OfJob(Second(m').envUrl, id)) == Injector.KeyOf(m, namespace)
  {
    AdmissionKey(m, namespace, uuid);
    HandlersReadTheAdmission(m, namespace, uuid, base, node, id, info0);
    FilteredKey(AdmissionOfObject(m, namespace, uuid));
  }

  // ----- Which objects can be transported --------------------------------------------------------------

  /** Only the free texts decide whether the settings of an object are plain. */
  lemma PlainSettings(m: Objects.Manifest, namespace: string, uuid: string)
    requires Resolvable(m) && JobNames.IsUuid(uuid)
    ensures var info := Mutation.FreshInfo(m, namespace, uuid);
      PlainInfo(info) <==> Plain(namespace) && Plain(info.objectName) && Plain(info.partition) && Plain(info.node)
                           && Plain(info.name)
  {
    var info := Mutation.FreshInfo(m, namespace, uuid);
    Mutation.PrintedFields(m, namespace);
    NumbersArePlain(m, namespace);
    PlainFields(info);
  }

  lemma PlainFields(info: JobInfo)
    ensures PlainInfo(info) <==>
            Plain(info.namespace) && Plain(info.objectName) && Plain(info.mode) && Plain(info.partition) && Plain(info.node)
            && Plain(info.ntasks) && Plain(info.ncpus) && Plain(info.ngpus) && Plain(info.gres) && Plain(info.time)
            && Plain(info.name) && Plain(info.uuid)
  {
  }

  /** The mode and all printed numbers are plain. */
  lemma NumbersArePlain(m: Objects.Manifest, namespace: string)
    requires Resolvable(m)
    ensures var info := InfoOf(m, namespace);
      Plain(info.mode) && Plain(info.ntasks) && Plain(info.ncpus) && Plain(info.ngpus) && Plain(info.gres) && Plain(info.time)
  {
    var s := Resolved(m);
    Mutation.ResolvedMode(m);
    Mutation.PrintedFields(m, namespace);
    KnownModeIsPlain(s.mode);
    PrintedArePlain(s, m.spec.containers, namespace, KindPrefix(m.kind) + GetObjectName(m).value);
  }

  lemma KnownModeIsPlain(mode: string)
    requires mode == "" || ValidMode(mode)
    ensures Plain(mode)
  {
  }

  lemma PrintedArePlain(s: Settings, containers: seq<Objects.Container>, namespace: string, objectName: string)
    ensures var info := Printed(s, namespace, objectName, containers);
      Plain(info.ntasks) && Plain(info.ncpus) && Plain(info.ngpus) && Plain(info.gres) && Plain(info.time)
  {
    PrintIsPlain(s.ntasks);
    PrintIsPlain(TotalCpus(s, containers));
    PrintIsPlain(TotalGpus(s, containers));
    PrintIsPlain(s.time);
    assert Plain("gpu:");
  }

  lemma PrintIsPlain(i: int)
    ensures Plain(PrintInt(i))
  {
    PrintNatDecimal(if i < 0 then -i else i);
  }

  // ----- The pod and the job ------------------------------------------------------------------------------

  function Find(layer: map<string, string>, key: string): Option<string> {
    if key in layer then Some(layer[key]) else None
  }

  /** What the watcher sees of an object. */
  function PodOf(m: Objects.Manifest, phase: Cluster.Phase): Cluster.Pod {
    Cluster.Pod(Find(m.labels, UUID), Find(m.annotations, UUID), Find(m.annotations, Mutation.JOBID), phase)
  }

  /** A mutated object becomes the pod that the protocol stores; it carries a job id exactly if it did before. */
  lemma MutatedPod(m: Objects.Manifest, namespace: string, uuid: string, base: string, phase: Cluster.Phase)
    requires Resolvable(m)
    ensures PodOf(Mutation.Mutated(m, namespace, uuid, base), phase) ==
            Cluster.Pod(Some(uuid), Some(uuid), PodOf(m, phase).jobid, phase)
  {
    Mutation.IdentityOnThePod(m, namespace, uuid, base);
  }

  /** A submission whose UUID arrives is listed under it. */
  lemma ListedUnder(info: JobInfo, id: string)
    requires JobNames.IsUuid(info.uuid) && IsDecimal(id)
    ensures var job := JobNames.Submission(info, id);
      && JobNames.NonePanics(Split(JobNames.Listing(JobNames.Submitted([job])), "\n"))
      && JobNames.ParseLines(Split(JobNames.Listing(JobNames.Submitted([job])), "\n")) == [JobNames.Job(info.uuid, id)]
  {
    JobNames.JobIdentityRoundTrip([JobNames.Submission(info, id)]);
  }

  lemma UuidArrives(info: JobInfo, node: string, gpuLimit: bool)
    requires JobNames.IsUuid(info.uuid)
    ensures Filtered(OnNode(info, node), gpuLimit).uuid == info.uuid
  {
    FilterKeepsAllowed(info.uuid, IsNameChar);
  }

  /** The job that the first script of a mutated object submits is listed under the UUID of the pod. */
  lemma JobOfThePod(m: Objects.Manifest, namespace: string, uuid: string, base: string, node: string, id: string,
                    info0: JobInfo)
    requires Resolvable(m) && Transportable(base, Mutation.FreshInfo(m, namespace, uuid), node)
    requires JobNames.IsUuid(uuid) && IsDecimal(id)
    ensures var m' := Mutation.Mutated(m, namespace, uuid, base);
      && HasScripts(m')
      && var job := JobNames.Submission(Read(SbatchUrl(First(m'), node), info0), id);
         && JobNames.NonePanics(Split(JobNames.Listing(JobNames.Submitted([job])), "\n"))
         && JobNames.ParseLines(Split(JobNames.Listing(JobNames.Submitted([job])), "\n")) == [JobNames.Job(uuid, id)]
  {
    FirstScriptReads(m, namespace, uuid, base, node, info0);
    UuidArrives(Mutation.FreshInfo(m, namespace, uuid), node, info0.gpuLimit);
    ListedUnder(Read(SbatchUrl(First(Mutation.Mutated(m, namespace, uuid, base)), node), info0), id);
  }
}
