# Verified model of the Slurm injector for Kubernetes

The injector is an admission webhook that puts two init-containers into a pod. They submit a Slurm job for the pod's node and
hold the pod back until that job runs. A watcher compares pods, config-maps and Slurm jobs every ten seconds and deletes or
cancels what has no counterpart. This project models the injector, its handlers and its watcher in Dafny 4.11 and proves what
keeps them consistent. `dafny verify dfyconfig.toml` checks all of it.

## Structure

| files | content |
|---|---|
| `protocol*.dfy` | the reconciliation protocol as interleaved steps, its invariant, safety and order over all runs, and harmful runs without single clauses of the hypotheses |
| `cluster.dfy`, `servers.dfy`, `watcher.dfy`, `agreement.dfy` | the stores, the requests that may be refused, the watcher's pass as imperative code, and the fixed point of a pass |
| `handlers.dfy`, `handler_runs.dfy`, `pass_runs.dfy`, `collection.dfy` | the handlers that write config-maps, the agreement of admission, handlers and passes with the protocol, and what a pass collects after pods or jobs have ended |
| `objects.dfy`, `job_information.dfy`, `settings.dfy`, `affinity.dfy`, `mutation.dfy`, `mutation_effects.dfy`, `injector.dfy` | admission: resolving settings, rewriting the pod, writing its config-map, admitting it repeatedly |
| `url.dfy`, `url_exactness.dfy`, `naming.dfy`, `job_names.dfy`, `transport.dfy`, `collisions.dfy` | the encodings by which an identity travels, their round trips, and when identities collide |
| `env_extraction.dfy`, `init_containers.dfy` | the environment of the job, and the scripts of the init-containers |
| `text.dfy`, `wrappers.dfy` | string operations of Go's libraries, optional values and results |

Code that changes something in place is a class or a method with loops, proved against functions and predicates on values; the
lemmas are about those. The results of Go map iteration are modelled by an arbitrary choice of the next key. A Go error is a
result without its text.

## The protocol

Every request to a store is one step of `Protocol.Apply`, and the listings of the watcher are local state that may be stale:

- `Admit`, `Call` on `InjectGet` and `InjectPut`, `Store`: an admission writes `to-be-set`, then the API server stores the pod
  (`internal/mutation/sidecar/sidecar.go:860-906`, `internal/mutation/sidecar/sidecar.go:952-964`).
- `RequestSbatch`, `Call` on `SbatchGet` and `SbatchPut`, `SbatchOk` or `SbatchFail`, `Call` on `PublishGet` and `PublishPut` or
  on `Rollback`: the sbatch handler (`internal/http/slurm/handler.go:153-237`). `RequestEnv` starts the publication by the
  environment handler, if it has its parameters (`internal/http/slurm/handler.go:281-368`).
- `PodPhase`, `PodGone`, `JobEnds`: pods finish or vanish, jobs end.
- `ListJobs`, `ListPods`, `ListConfigMaps`: the listings of a pass, in this order (`internal/watcher/watcher.go:350-357`,
  `internal/watcher/watcher.go:157-169`).
- `DeleteOrphan`, `DeleteStale`, `Cancel`, `PurgeListPods`, `PurgePod`, `PurgeListConfigMaps`, `PurgeConfigMap`: what a pass then
  does, in the order of the code (`internal/watcher/watcher.go:171-238`, `internal/watcher/watcher.go:362-393`). `Skip`,
  `PurgeEnds` and `ListFails` are requests that return an error.
- `Abort` ends a request anywhere.

Three hypotheses on the steps of a run are named in the model. **H1** (identity): UUIDs are fresh and, like namespaces, made of
characters that the filters keep (`FreshIdentity`); no pod is stored under the name of an earlier pod (`DistinctPods`); admissions
do not share a config-map name (`DistinctNames`); a pod is stored without a job id of its own (`OwnAnnotations`). **H2** (one
submission): a job is requested once per UUID (`OneRequest`); its id is a decimal and a failed submission leaves no job
(`HonestOutcome`). **H3** (quiet publication window): between the Slurm listing and the config-map listing of a pass, no config-map
goes from `to-be-set` to a job id that the Slurm listing lacks. A job that was submitted before the Slurm listing may be published
at any time.

The code does not guarantee them. For each of `DistinctPods`, `DistinctNames`, `OwnAnnotations`, `OneRequest`, `HonestOutcome` and
H3, `ProtocolNecessity` gives harmful runs under all other clauses. For `FreshIdentity` it gives none: UUIDs are random, and
namespaces of Kubernetes and hexadecimal UUIDs consist of characters that the filters keep. "Live" means that the phase of a pod is
neither `Succeeded` nor `Failed`.

## Where the code does less than it seems to promise

- The affinity rewriting widens a required node selector with a nil list of terms or with an empty term, which admit no node
  before. `Affinity.RewritingPromise` and `Affinity.RewritingFails` say exactly when, and on which nodes, that matters.
- A pod without a name gets the name `generateName` followed by its generation, so that pods of one owner share a config-map
  (`Collisions.NamelessShare`); dots are dropped from names (`Collisions.SharedConfigMap`). Both break `DistinctNames`, with the
  consequence in `Collisions.SharedConfigMapIsHarmful`.
- The second init-container exits with success when the environment is refused and the cancellation succeeds, so the main
  containers start beside a cancelled job exactly in that case (`InitContainers.WhyMainStarts`), for every job id
  (`InitContainers.MainAfterCancel`).
- Pods are deleted by name. A pod that is re-created under the name of a pod which is being purged, as in a StatefulSet, is deleted
  in its place (`ProtocolNecessity.WithoutDistinctPods`).
- A restarted init-container submits its job again (`InitContainers.SubmitsAgain`); if that submission fails, its roll-back deletes
  the config-map of the running job (`ProtocolNecessity.WithoutOneRequest`).
- A purge does not wait for the pods it deletes to terminate before it deletes their config-map
  (`Collection.TerminatingPodOutlivesItsConfigMap`).
- Values in a request URL are not escaped: exactly those without five reserved characters arrive as they were written
  (`UrlExactness.UrlCarriesExactly`). Escaped ones of Latin-1 would all arrive (`UrlExactness.EscapedPieceCarries`).

## Model

| member | source | states |
|---|---|---|
| ProtocolSafety.StepKeepsInv | internal/http/slurm/handler.go:137-238 | under H1 to H3 admission, every sbatch step with its failure path, publication, the environment and every step of the watcher keep the invariant |
| ProtocolSafety.RunsAreHarmless | internal/watcher/watcher.go:341-396 | in every interleaved run under H1 to H3 the watcher, acting on stale listings, cancels no job of a live pod, deletes a pod only after its job has left Slurm, and deletes a config-map only after its pod has finished or its job has left |
| ProtocolSafety.JoblessExactly | internal/watcher/watcher.go:379-393 | for any listings, the jobs of all UUIDs found without one have left if and only if no config-map of a live listed pod names a job that Slurm runs and whose UUID it did not list |
| ProtocolSafety.JobsOfLivePodsAreCovered | internal/http/slurm/handler.go:153-237 | in every reachable state a job of a live pod has exactly one config-map with its UUID, whose job id is to be set or its own |
| ProtocolSafety.PodsAwaitingTheirJobAreCovered | internal/mutation/sidecar/sidecar.go:952-962 | in every reachable state a live pod that has not requested its job has its config-map, still to be set |
| ProtocolMoments.PutAfterGet | internal/mutation/sidecar/sidecar.go:888-903 | whatever happens between get and put, a config-map that has appeared or vanished ends the request without effect, and otherwise `to-be-set` is written |
| ProtocolMoments.PublishAfterGet | internal/http/slurm/handler.go:212-225 | a publication writes the config-map it read, with the job id, over whatever is stored by then, and nothing if the config-map has vanished |
| ProtocolMoments.PlanOfThreeMoments | internal/watcher/watcher.go:350-357 | whatever happens in between, a pass plans from the jobs of the first moment, the pods of a second and the config-maps of a third |
| ProtocolMoments.PassOrder | internal/watcher/watcher.go:171-393 | in every interleaved run a pass deletes orphans first, then stale config-maps, then cancels jobs, and purges at the end |
| ProtocolMoments.PodsBeforeConfigMaps | internal/watcher/watcher.go:251-296 | in every interleaved run a purge deletes a config-map only after it listed pods of the UUID, found some, and requested the deletion of each |
| ProtocolNecessity.UnderAll | internal/watcher/watcher.go:341-396 | all clauses together are exactly the hypotheses of the safety theorems |
| ProtocolNecessity.WithoutDistinctPods | internal/watcher/watcher.go:256-273 | for any two admissions there is a run, under all other clauses, in which a pod that replaces a purged one under its name is deleted although its job was never created |
| ProtocolNecessity.WithoutDistinctNames | internal/config_map/config_map.go:115-119 | for any two admissions of one config-map name there is a run, under all other clauses, in which the job of a live pod is cancelled |
| ProtocolNecessity.WithoutOwnAnnotations | internal/watcher/watcher.go:177-198 | for any admission of a pod with a job id of its own there is a run, under all other clauses, in which the live pod is deleted although no job of it left Slurm |
| ProtocolNecessity.WithoutOneRequest | internal/http/slurm/handler.go:193-237 | for any admission there is a run, under all other clauses, in which a second submission that fails rolls the config-map back and the first job is cancelled beside its live pod |
| ProtocolNecessity.WithoutHonestOutcome | internal/http/slurm/handler.go:205-237 | for any admission there is a run, under all other clauses, in which a failed submission left a job that is cancelled beside its live pod |
| ProtocolNecessity.WithoutQuietWindow | internal/watcher/watcher.go:350-393 | for any admission there is a run, under all other clauses, in which a job submitted and published after the Slurm listing is taken for missing and its live pod deleted while Slurm runs the job |
| HandlerRuns.AdmissionFollowsTheProtocol | internal/mutation/sidecar/sidecar.go:952-964 | for any resolvable object and any refused requests, an admission that nothing interrupts is a sequence of steps of its own request which ends in the config-maps that `Inject` leaves and, if it succeeds, with the mutated object stored as a pod |
| HandlerRuns.SbatchFollowsTheProtocol | internal/http/slurm/handler.go:153-237 | a submission that nothing interrupts is a sequence of steps of its own request that ends in the stores of `ServeSbatch`, in each case of its contract |
| HandlerRuns.EnvFollowsTheProtocol | internal/http/slurm/handler.go:268-370 | from any state, for any refused requests and whether or not Slurm answers, an environment request that nothing interrupts is a sequence of its own steps, and ends in the config-maps of `ServeEnv`: published exactly if its parameters are there, Slurm answers, the config-map exists, and get and update are answered |
| PassRuns.PassFollowsTheProtocol | internal/watcher/watcher.go:341-393 | from any state, whatever the contract of `Routine` allows a pass to leave under any refused requests, a sequence of watcher steps that nothing interrupts leaves |
| PassRuns.AnsweredPassFollowsTheProtocol | internal/watcher/watcher.go:341-393 | from any state an answered pass is a sequence of watcher steps, from the first listing to the end of the pass, that ends in the outcome of the set specification |
| Collection.PhaseDecides | internal/watcher/watcher.go:202-238 | after the pod of a running job changed its phase, a pass deletes its config-map and cancels its job exactly if the phase is `Succeeded` or `Failed`, and keeps the pod |
| Collection.VanishedPodIsCollected | internal/watcher/watcher.go:202-238 | after the pod of a running job vanished, a pass deletes its config-map and cancels its job |
| Collection.EndedJobIsCollected | internal/watcher/watcher.go:379-393 | after a job ended, a pass deletes pod and config-map exactly if no other job has the UUID |
| Collection.TerminatingPodOutlivesItsConfigMap | internal/watcher/watcher.go:268-293 | while a deleted pod terminates, a purge can delete its config-map and leave everything else as it was |
| Handlers.SBatch | internal/slurm_handler/slurm_handler.go:186-203 | an accepted submission creates the job and returns its id; a refused one returns an error, whether or not it created a job; afterwards other requests may be refused than before |
| Handlers.Publish | internal/http/slurm/handler.go:212-225 | the job id of an existing config-map is set and nothing else changes; a missing config-map or a refused request changes nothing |
| Handlers.ServeSbatch | internal/http/slurm/handler.go:153-238 | config-maps and jobs after the handler, for every combination of requests refused before and after the submission: no job without a written config-map, publication or roll-back, and a config-map that stays to-be-set when either is refused |
| Handlers.ServeEnv | internal/http/slurm/handler.go:270-369 | the job id is published and the variables extracted exactly if all filtered parameters are present and every request is answered |
| Servers.CreateOrUpdate | internal/http/slurm/handler.go:175-203 | the config-map is written exactly if the get and the create or update that applies are answered |
| Servers.Servers.ListPods | internal/watcher/watcher.go:157-162 | lists every selected pod once, in some order, unless refused |
| Servers.Servers.ListConfigMaps | internal/config_map/config_map.go:39-45 | lists every selected config-map once, in some order, unless refused |
| Servers.Servers.GetConfigMap | internal/config_map/config_map.go:47-53 | an error if refused, otherwise the config-map or its absence |
| Servers.Servers.CreateConfigMap | internal/config_map/config_map.go:55-61 | adds a config-map that does not exist |
| Servers.Servers.UpdateConfigMap | internal/config_map/config_map.go:63-69 | replaces a config-map that exists |
| Servers.Servers.DeleteConfigMap | internal/config_map/config_map.go:71-77 | removes a config-map that exists |
| Servers.Servers.SCancel | internal/slurm_handler/slurm_handler.go:240-252 | removes a job that exists |
| WatcherPass.ConfigMapExists | internal/watcher/watcher.go:179-186 | the flag loop decides whether some config-map has the UUID |
| WatcherPass.LivePodExists | internal/watcher/watcher.go:206-217 | the flag loop decides whether some live pod has the UUID |
| WatcherPass.Watcher.FetchJobStateOnSlurm | internal/watcher/watcher.go:136-149 | the states mirror the jobs of Slurm, each once; an error leaves them as they were |
| WatcherPass.Watcher.VisitPod | internal/watcher/watcher.go:171-200 | one turn deletes exactly an orphan and records exactly a live pod with a job id and a config-map |
| WatcherPass.Watcher.VisitConfigMap | internal/watcher/watcher.go:202-238 | one turn deletes exactly a stale config-map and records exactly one that keeps its UUID |
| WatcherPass.Watcher.FetchJobStateOnKubernetes | internal/watcher/watcher.go:151-249 | for any order of the listings exactly orphans and stale config-maps go, and the states hold exactly the known UUIDs, each once, with the job id recorded for it |
| Cluster.KnownIsKept | internal/watcher/watcher.go:202-238 | for config-maps of the injector a UUID is known if and only if its config-map is to be set or has a live pod |
| WatcherPass.Watcher.DeletePods | internal/watcher/watcher.go:268-273 | without a refusal all listed pods go; otherwise some of them, and none whose deletion is refused |
| WatcherPass.Watcher.DeleteConfigMaps | internal/watcher/watcher.go:288-293 | without a refusal all listed config-maps go; otherwise some of them, and none whose deletion is refused |
| WatcherPass.PurgesAreComplete | internal/watcher/watcher.go:379-393 | after purges of some UUIDs in turn, whatever is refused elsewhere, a UUID has no pod left if its pods were listed and deleted, and no config-map left if those were too |
| WatcherPass.JoblessArePurged | internal/watcher/watcher.go:379-393 | for config-maps of the injector with distinct UUIDs the UUIDs that may be and those that must be purged are those of the set specification |
| WatcherPass.Watcher.DeleteKubernetesResourcesOfUuid | internal/watcher/watcher.go:251-296 | for any refused requests: the pods go in turn, whether or not config-maps can be listed, and the config-maps after all of them; nothing refused and nothing of another UUID goes |
| WatcherPass.Watcher.CancelUnknownJobs | internal/watcher/watcher.go:362-377 | exactly the jobs whose UUID is not known are cancelled, except refused ones |
| WatcherPass.Watcher.PurgeDueUuids | internal/watcher/watcher.go:379-393 | the loop purges exactly the UUIDs that are due, each once, and goes on after a refused purge |
| WatcherPass.Watcher.PurgeJoblessUuids | internal/watcher/watcher.go:379-393 | every UUID that is surely jobless is purged and only UUIDs that may be jobless are, one after the other, for any refused requests |
| WatcherPass.Watcher.Routine | internal/watcher/watcher.go:341-396 | a pass changes nothing without its listings and never deletes outside its plan; for any refused requests every jobless UUID whose pods can be listed and deleted loses them, and its config-maps too if those can; with all requests answered the outcome is that of the set specification |
| Agreement.AgreementIsStable | internal/watcher/watcher.go:341-393 | a pass over stores that agree acts on nothing |
| Agreement.OnePassReachesAgreement | internal/watcher/watcher.go:341-393 | one answered pass over resources of the injector makes every published config-map have a live pod and a job and every job a config-map, and a second pass changes nothing |
| Agreement.ConfigMapStaysExactly | internal/watcher/watcher.go:202-393 | after an answered pass over resources of the injector a config-map is left if and only if it is to be set, or a pod and a job of it run |
| Agreement.PodGoesExactly | internal/watcher/watcher.go:171-393 | after an answered pass a pod is gone if and only if it runs with a job id and no config-map, or its label is the UUID of a published config-map for which a pod runs and no job |
| Agreement.JobStaysExactly | internal/watcher/watcher.go:362-377 | after an answered pass a job is left if and only if its UUID has a config-map that is to be set, or one and a pod that runs |
| Agreement.KnownExactly | internal/watcher/watcher.go:171-246 | for any resources a UUID is known if and only if it has a config-map that is to be set, or one whose pod runs, with a job id on either |
| Agreement.RefusedPass | internal/watcher/watcher.go:251-296 | of a UUID without a job a pass leaves no pod if their listing and deletions are answered, and no config-map if those are answered too, whatever else is refused; a resource whose own deletion is refused stays |
| Collisions.SharedConfigMap | internal/mutation/sidecar/sidecar.go:245-260 | two resolvable objects share a config-map exactly if they share the namespace and the filtered name with the prefix of the kind |
| Collisions.NamelessShare | internal/mutation/sidecar/sidecar.go:251-257 | two objects of one kind without names share a config-map exactly if namespaces agree and filtered generateName and generation agree when written one after the other |
| Collisions.MovedDigit | internal/mutation/sidecar/sidecar.go:257-257 | a generation of several digits collides with the generateName that ends in all but its last digit |
| Collisions.SharedConfigMapIsHarmful | internal/config_map/config_map.go:115-119 | any two such objects, admitted with different UUIDs, lead to a run in which the job of the first is cancelled beside its live pod |
| JobInformation.ReadEntry | internal/mutation/sidecar/sidecar.go:350-383 | one label or annotation overlays its setting, an unknown mode is an error |
| JobInformation.ReadLayer | internal/mutation/sidecar/sidecar.go:344-423 | in whatever order a map is visited, success and result are those of overlaying the whole map |
| JobInformation.ReadEnvVar | internal/mutation/sidecar/sidecar.go:438-466 | one variable overrides its setting, an unknown mode is an error |
| JobInformation.ReadEnv | internal/mutation/sidecar/sidecar.go:436-468 | the last entry of the last container wins for every variable |
| JobInformation.SumCpus | internal/mutation/sidecar/sidecar.go:478-482 | the 64-bit sum over all containers, however partial sums wrap around |
| JobInformation.SumGpus | internal/mutation/sidecar/sidecar.go:487-493 | the 64-bit sum of the GPU limits, and whether there is any |
| JobInformation.ResolveSettings | internal/mutation/sidecar/sidecar.go:344-468 | succeeds exactly if all modes are known, with environment over mode reset over node name over annotations over labels; SettingSources says so for every setting |
| JobInformation.GetJobInformation | internal/mutation/sidecar/sidecar.go:314-505 | success and result of every execution are those of the closed specification, whose every field SettingSources traces to labels, annotations, node name and containers |
| SettingSources.FromEnvIsLast | internal/mutation/sidecar/sidecar.go:436-468 | the value that counts is that of the last entry of the last container that has one, by position |
| SettingSources.WhereSettingsComeFrom | internal/mutation/sidecar/sidecar.go:344-498 | every setting by its sources: last environment entry, then for node and partition the reset outside manual mode, then the node name for the node, then annotation, then label, then default; the numbers with the sums over containers |
| SettingSources.ResolvableExactly | internal/mutation/sidecar/sidecar.go:314-505 | an object has settings if and only if it has a name or generateName, labels, annotations and variables name known modes only, and manual mode has a node |
| Text.ParseInt64Exactly | internal/mutation/sidecar/sidecar.go:365-375 | what a declared number reads as, for every text: the nearest 64-bit integer to digits with an optional sign, zero for anything else, unless its leading digits exceed 64 bits |
| Affinity.DecimalsBelow | internal/mutation/sidecar/sidecar.go:736-739 | the decimals of all numbers below the bound |
| Affinity.RestrictToGpuNodes | internal/mutation/sidecar/sidecar.go:736-773 | of the affinity only the required selector changes, in all five cases |
| Affinity.RewrittenMeaning | internal/mutation/sidecar/sidecar.go:740-773 | for every affinity and node: the rewritten affinity admits the node if and only if it has enough GPUs and the original admitted it or was widened |
| Affinity.RestIsKept | internal/mutation/sidecar/sidecar.go:750-773 | preferences and affinities between pods are kept, and every term keeps its fields and its expressions, with one more at their end |
| Affinity.EnoughGpusOfDecimal | internal/mutation/sidecar/sidecar.go:736-749 | a node whose label is the decimal of n passes exactly if n is at least the number of GPUs |
| Affinity.RewritingPromise | internal/mutation/sidecar/sidecar.go:755-773 | the promise holds on every node if and only if no empty selector is widened or all nodes with enough GPUs were admitted before |
| Affinity.RewritingFails | internal/mutation/sidecar/sidecar.go:755-773 | the promise fails on a node exactly if the selector is widened and the node has enough GPUs but was not admitted |
| Affinity.EmptyTermIsWidened | internal/mutation/sidecar/sidecar.go:767-773 | an affinity with an empty term admits no node before and an unlabelled node after the rewriting |
| Mutation.MutateContainers | internal/mutation/sidecar/sidecar.go:666-713 | every container gains the mount and the reference and loses its GPUs, the sidecar gets its hook |
| Mutation.MutateSpec | internal/mutation/sidecar/sidecar.go:558-775 | the whole pod specification after the rewriting; what its scripts call is stated in Transport, the rest in MutationEffects |
| Mutation.WriteMutation | internal/mutation/sidecar/sidecar.go:777-819 | the whole object after the mutation, with fourteen annotations and four labels |
| Mutation.MutateObject | internal/mutation/sidecar/sidecar.go:527-822 | succeeds exactly on mutable objects, with the mutation in closed form, and otherwise changes nothing |
| Mutation.ReadAgain | internal/mutation/sidecar/sidecar.go:860-886 | reading a mutated object never fails and yields the same namespace and object name and the new UUID, whatever was on the object before |
| Mutation.IdentityOnThePod | internal/mutation/sidecar/sidecar.go:789-819 | label and annotation carry the new UUID, the annotation with the job id is untouched |
| Mutation.TotalIsSum | internal/mutation/sidecar/sidecar.go:487-497 | the number of GPUs is the declared one plus all limits exactly if that fits 64 bits |
| Mutation.GpuAccounting | internal/mutation/sidecar/sidecar.go:724-773 | annotation, gres and affinity agree on one number, and gres and affinity appear exactly if it is positive |
| Mutation.NoContainerKeepsGpus | internal/mutation/sidecar/sidecar.go:709-712 | no container keeps a GPU limit or request; other resources, number and order of containers stay |
| MutationEffects.PlacementOnThePod | internal/mutation/sidecar/sidecar.go:789-808 | the annotations of a mutated object carry namespace, object name, mode, partition and node by their sources, and the new UUID |
| MutationEffects.OtherAnnotationsAreKept | internal/mutation/sidecar/sidecar.go:789-808 | annotations under other than the fourteen written keys stay |
| MutationEffects.OtherLabelsAreKept | internal/mutation/sidecar/sidecar.go:810-819 | labels under other than the four written keys stay |
| MutationEffects.ContainerAround | internal/mutation/sidecar/sidecar.go:666-713 | a container gains one mount and one reference, and only the sidecar a hook, the one for its own index |
| Injector.ScanLabels | internal/mutation/sidecar/sidecar.go:109-135 | what the label loop finds does not depend on the order of the labels |
| Injector.ScanEnv | internal/mutation/sidecar/sidecar.go:179-189 | whether some container enables or disables the injection |
| Injector.MatchTargets | internal/mutation/sidecar/sidecar.go:161-165 | whether some target namespace matches |
| Injector.IsInjectionEnabled | internal/mutation/sidecar/sidecar.go:105-192 | injection is enabled if and only if something requests it and nothing forbids it |
| Injector.IsInjectable | internal/mutation/sidecar/sidecar.go:262-297 | auto mode is injectable; in manual mode an unknown node is not, and a known node with an unknown partition is an error |
| Injector.WriteConfigMap | internal/mutation/sidecar/sidecar.go:860-906 | the config-map of the object as it now reads is written, or nothing changes |
| Injector.SidecarInjector.Check | internal/mutation/sidecar/sidecar.go:911-950 | the decision that precedes a mutation, whose three cases DecidesExactly gives on object, namespace, nodes and partitions |
| Injector.SidecarInjector.MutateAndWrite | internal/mutation/sidecar/sidecar.go:952-962 | the object is mutated, and its config-map written under the key it had before, with the new UUID |
| Injector.SidecarInjector.Inject | internal/mutation/sidecar/sidecar.go:908-965 | object, config-maps and outcome of an admission in every case: rejected exactly if it must fail or must mutate and a config-map request is refused, skipped exactly if it must do neither |
| Injector.MutatesExactly | internal/mutation/sidecar/sidecar.go:908-956 | an admission mutates exactly the enabled, resolvable objects whose node and partition Slurm has |
| Injector.DecidesExactly | internal/mutation/sidecar/sidecar.go:908-950 | an admission fails exactly if an object that may be injected has no namespace, an enabled one no settings, or an enabled one in manual mode a known node and an unknown partition; it mutates exactly the enabled ones with settings and, in manual mode, known node and partition; it leaves all others alone |
| Injector.ForbiddenExactly | internal/mutation/sidecar/sidecar.go:105-192 | what forbids an injection, on labels, annotations, kind and variables |
| Injector.RequestedExactly | internal/mutation/sidecar/sidecar.go:105-192 | what requests an injection, on labels, target namespaces and variables |
| Injector.OnlyTheFirstMutates | internal/mutation/sidecar/sidecar.go:143-148 | over any sequence of admissions the first that mutates decides the object |
| Injector.RepeatedAdmission | internal/mutation/sidecar/sidecar.go:664-722 | after any sequence of admissions an object is unchanged or has gained exactly two init-containers, one volume, and one mount and one reference per container |
| Url.ParseQueryParams | internal/http/slurm/handler.go:41-58 | each field is the filtered first value of its key |
| Url.RoundTrip | internal/mutation/sidecar/sidecar.go:507-525 | parsing a constructed URL returns every field filtered, for values without ampersand, hash sign, percent sign and semicolon |
| Url.SubstitutedUrl | internal/mutation/sidecar/sidecar.go:588-592 | replacing the first placeholder yields the URL constructed with the node |
| Url.AutoRoundTrip | internal/mutation/sidecar/sidecar.go:588-592 | parsing a substituted URL returns the node and every other field filtered, for the same values |
| Url.FilteredUnchanged | internal/http/slurm/handler.go:42-55 | exactly the settings within the alphabets of the filters arrive unchanged |
| UrlExactness.UrlCarriesExactly | internal/mutation/sidecar/sidecar.go:507-525 | for all settings the query of the constructed URL parses into exactly the pairs written if and only if no value has one of the five reserved characters |
| UrlExactness.PieceCarries | internal/http/slurm/handler.go:44-55 | a piece of the query carries its value exactly if it has no percent sign, plus or semicolon |
| UrlExactness.EscapedPieceCarries | internal/http/slurm/handler.go:44-55 | escaped, every value of Latin-1 would arrive as written, in one piece |
| UrlExactness.AmpersandCuts | internal/mutation/sidecar/sidecar.go:509-520 | of any setting with an ampersand the handler reads what precedes it, if the settings before it are plain |
| UrlExactness.HashCuts | internal/mutation/sidecar/sidecar.go:509-520 | a hash sign ends the query, although the filter keeps it |
| Naming.ConfigMapNameOfFiltered | internal/config_map/config_map.go:115-119 | filtering an object name first does not change the config-map name |
| Naming.ConfigMapNameCollision | internal/config_map/config_map.go:115-119 | two objects share a config-map name exactly if the filter maps their names to one |
| JobNames.ConstructCommand | internal/slurm_handler/slurm_handler.go:146-184 | the job name starts with the UUID, and exactly the options with a value follow |
| JobNames.NameOfJob | internal/slurm_handler/slurm_handler.go:146-155 | behind the UUID comes the given name, or namespace and object name, or a fixed name if either is missing |
| JobNames.ReadLine | internal/slurm_handler/slurm_handler.go:284-295 | one line yields its trimmed UUID and job id, or nothing; a line without separator panics |
| JobNames.PanicsExactly | internal/slurm_handler/slurm_handler.go:284-290 | a line panics if and only if it is not empty and the separator does not occur in it |
| JobNames.ThirdPieceIsIgnored | internal/slurm_handler/slurm_handler.go:288-291 | what follows a second separator is ignored |
| JobNames.ListUuidsAndJobIds | internal/slurm_handler/slurm_handler.go:273-299 | two slices of one length with what the lines yield, in order; a panic exactly if some line panics |
| JobNames.ListingRoundTrip | internal/slurm_handler/slurm_handler.go:277-296 | of any jobs whose printed names are ASCII without colon and newline exactly those with 32 characters of name, neither the first nor the last a space, are returned |
| JobNames.JobIdentityRoundTrip | internal/slurm_handler/slurm_handler.go:273-299 | listing and parsing the jobs of the injector returns their UUIDs and ids, in order |
| Transport.ScriptsCallTheirActions | internal/mutation/sidecar/sidecar.go:556-560 | each of the six URLs in the scripts of a mutated object addresses its own action and carries the settings of the object, and the script has the resolved node |
| Transport.FirstScriptReads | internal/mutation/sidecar/sidecar.go:587-596 | from the URLs that the first script calls, with its node in auto mode, the handlers read the settings of the object, filtered |
| Transport.SecondScriptReads | internal/http/slurm/handler.go:268-276 | from the URLs that the scripts call for a job, the handlers read its id and the identity of the object, filtered |
| Transport.HandlersReadTheAdmission | internal/http/slurm/handler.go:44-55 | from the scripts of a mutated object both handlers read the identity that the protocol works with |
| Transport.FilteredKey | internal/config_map/config_map.go:115-119 | a filtered identity has the same config-map name, and the same key exactly if its namespace is within the alphabet |
| Transport.OneConfigMap | internal/http/slurm/handler.go:154-155 | injector, and sbatch and environment handlers called by the injected scripts, reach one config-map for every mutated object whose settings are plain and whose namespace is within the alphabet |
| Transport.PlainSettings | internal/mutation/sidecar/sidecar.go:507-525 | only namespace, object name, partition, node and name decide whether settings travel unharmed |
| Transport.MutatedPod | internal/mutation/sidecar/sidecar.go:789-819 | a mutated object is the pod that the protocol stores, with a job id exactly if it had one |
| Transport.JobOfThePod | internal/watcher/watcher.go:136-149 | the job that the first script of a mutated object submits is listed under the UUID of the pod |
| EnvExtraction.ReadLine | internal/http/slurm/handler.go:305-329 | a line is kept exactly if it has one equals sign and a wanted prefix, under its target key |
| EnvExtraction.Extract | internal/http/slurm/handler.go:302-330 | for every output the map is the one in which the last writer of a key wins |
| EnvExtraction.LastWriterIsUnique | internal/http/slurm/handler.go:302-330 | that specification determines the map |
| EnvExtraction.KeysOf | internal/http/slurm/handler.go:315-328 | every key has a wanted prefix or is NVIDIA_VISIBLE_DEVICES, and none is CUDA_VISIBLE_DEVICES |
| EnvExtraction.VisibleDevices | internal/http/slurm/handler.go:324-325 | NVIDIA_VISIBLE_DEVICES is there exactly if some line is `CUDA_VISIBLE_DEVICES=` and a value without equals sign, with the value of the last |
| EnvExtraction.OtherVariables | internal/http/slurm/handler.go:315-328 | any other variable that starts with `SLURM_` or `CUDA_` is there exactly if some line is well-formed for it, with the value of the last |
| InitContainers.MainStartsForAReason | internal/mutation/sidecar/sidecar.go:581-608 | in every run the main containers start only after the query failed and `none` was recorded, or a numeric job id was obtained and its job seen RUNNING |
| InitContainers.SecondFailsOnlyOnRefusals | internal/mutation/sidecar/sidecar.go:634-644 | if writes succeed, the second container fails only when environment and cancellation are refused |
| InitContainers.WhyFirstFails | internal/mutation/sidecar/sidecar.go:597-607 | the first container fails if and only if its job was cancelled or sbatch answered with what is not numeric, and in any other state of the job goes on polling |
| InitContainers.WhyFirstSucceeds | internal/mutation/sidecar/sidecar.go:594-607 | it succeeds if and only if the job is seen RUNNING or `none` was written |
| InitContainers.WhySecondFails | internal/mutation/sidecar/sidecar.go:637-644 | the second container fails if and only if the cancellation is refused or it reads no job id |
| InitContainers.WhySubmitted | internal/mutation/sidecar/sidecar.go:594-597 | a job is submitted only right after the node was found in Slurm, or after `none` could not be recorded |
| InitContainers.WhatIsRecorded | internal/mutation/sidecar/sidecar.go:594-597 | the shared file changes only by a write: `none` after a failed query, what sbatch answered, or what a failed write left |
| InitContainers.SubmitsAgain | internal/mutation/sidecar/sidecar.go:605-607 | for all job ids a run in which the first job is cancelled and the restarted container submits a second one |
| InitContainers.RetriesWithTheSameJob | internal/mutation/sidecar/sidecar.go:635-644 | for every job id a run in which the restarted second container gets the environment of the same job, and a lost sandbox begins with a new query |
| InitContainers.WhyMainStarts | internal/mutation/sidecar/sidecar.go:639-644 | in every run the main containers start by a successful cancellation if and only if the environment was refused one step before, and otherwise because the environment was answered or `none` was found |
| InitContainers.MainAfterCancel | internal/mutation/sidecar/sidecar.go:644-644 | for every decimal job id a run in which the main containers start right after that job was cancelled |

## Left out

- Url.RoundTrip: values with `&`, `#`, `%` or `;` are excluded, because what a handler then reads is not the filtered value;
  UrlExactness says exactly which settings arrive as written.
- Url.AutoRoundTrip: the node is inserted literally; slashes and backslashes, which sed would interpret, do not occur in node
  names.
- Injector.MatchTargets: regular expression matching is an uninterpreted predicate, false for a pattern that does not compile.
- Injector.WriteConfigMap: the annotations with namespace, object name and last applied command are not part of a config-map,
  because no component of the model reads them.
- JobNames.ReadLine: lengths are counted in characters and spaces are those of Latin-1, where Go counts bytes and trims the spaces of
  Unicode; the two agree on ASCII output.
- JobNames.ListUuidsAndJobIds: the same.
- JobNames.ListingRoundTrip: names with colons, newlines or characters outside ASCII among their first 32, which disturb the
  format or the width of the listing.
- Agreement.OnePassReachesAgreement: config-maps with equal UUIDs, pods with a job id of their own, refused requests and
  resources that change during the pass.
- Handlers.SBatch: the outcome of sbatch is an input; the command is JobNames.ConstructCommand, and the connection that runs it and
  the removal of newlines from its output are not modelled.
- Handlers.ServeSbatch: the partition selection and the checks of `prepareParams`, and HTTP status codes.
- Handlers.ServeEnv: the extracted variables are a result; they and the annotation with the previous configuration are not stored in
  the config-map.
- Servers.Servers.UpdateConfigMap: conflicts of resource versions, so that the protocol allows more interleavings than the API
  server does.
- Servers.Servers.SCancel: a cancelled job leaves the queue at once, and an empty job id is a job that does not exist.
- Mutation.MutateSpec: images, pull policies and the text of the injected commands, of which the URLs and the node are modelled.
- The lookup of a namespace through ReplicaSets: the namespace, or the failure to find it, is an input of an admission.
- The variables that name the host and port of the handlers: the base of the URLs is an input.
- Resource quantities are their rounded 64-bit values; fields that the injector does not read are not part of containers.
- A config-map has the label and the annotation that are written together as one job id.
- Quoting by the shell in the injected scripts, signals, and the sleeps between polls.
- Job and CronJob objects as actors of the protocol: the webhook is registered for pods only.
- Liveness: a config-map that is to be set and has no pod is never collected, and nothing is claimed about progress.
- TLS reload, patching of node labels, the pipelines around sinfo, SSH sessions, HTTP plumbing, logging, the dummy handlers, the
  state, scancel and env endpoints, and the Prometheus webhook.
