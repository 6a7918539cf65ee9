/** What an actor of the protocol relies on from an earlier moment, whatever other actors do in between. */
module ProtocolMoments {
  import opened Wrappers
  import opened Cluster
  import opened Protocol

  // ----- Requests ----------------------------------------------------------------------------------

  /** Between get and put of one request the state has become `t`: a config-map that has appeared or vanished makes
      create or update fail, and the request ends without any effect; otherwise the put takes place. */
  lemma PutAfterGet(s: State, tid: nat, t: State)
    requires tid in s.threads && (s.threads[tid].InjectGet? || s.threads[tid].SbatchGet?)
    requires tid in t.threads && t.threads[tid] == Apply(s, Call(tid)).threads[tid]
    ensures Enabled(t, Call(tid)) && Apply(s, Call(tid)).cms == s.cms
    ensures var k, u, t' := s.threads[tid].key, s.threads[tid].uuid, Apply(t, Call(tid));
      if (k in s.cms) == (k in t.cms) then t'.cms == t.cms[k := Written(u, TO_BE_SET)] && tid in t'.threads
      else t' == t.(threads := t.threads - {tid})
  {
  }

  /** The same for a publication: it writes the config-map that it read, with the job id, over whatever is stored by
      then, and fails if nothing is. */
  lemma PublishAfterGet(s: State, tid: nat, t: State)
    requires tid in s.threads && s.threads[tid].PublishGet? && s.threads[tid].key in s.cms
    requires tid in t.threads && t.threads[tid] == Apply(s, Call(tid)).threads[tid]
    ensures Enabled(t, Call(tid)) && Apply(s, Call(tid)).cms == s.cms
    ensures var k, id := s.threads[tid].key, s.threads[tid].id;
      Apply(t, Call(tid)) ==
      t.(cms := if k in t.cms then t.cms[k := s.cms[k].(jobid := Some(id))] else t.cms, threads := t.threads - {tid})
  {
  }

  // ----- The listings of a pass ----------------------------------------------------------------------

  /** A pass lists jobs, pods and config-maps at three moments, in this order, and plans from what it listed at each. */
  lemma PlanOfThreeMoments(s: State, t: State, u: State)
    requires s.watcher == Idle
    requires t.watcher == Apply(s, ListJobs).watcher
    requires u.watcher == Apply(t, ListPods).watcher
    ensures Apply(u, ListConfigMaps).watcher ==
            Acting(Plan(Orphans(t.pods, u.cms), StaleConfigMaps(t.pods, u.cms), ToCancel(s.jobs, t.pods, u.cms),
                        ToPurge(s.jobs, t.pods, u.cms)))
  {
  }

  // ----- The order of a pass -----------------------------------------------------------------------

  /** What is left to do of the plan of the pass. */
  function PlanOf(w: Watcher): Option<Plan> {
    match w
    case Acting(p) => Some(p)
    case PurgingPods(p, _, _) => Some(p)
    case PurgingConfigMaps(p, _, _) => Some(p)
    case _ => None
  }

  /** Purges come last. */
  predicate PurgesLast(w: Watcher) {
    w.PurgingPods? || w.PurgingConfigMaps? ==> w.plan.orphans == {} && w.plan.stale == {} && w.plan.cancel == {}
  }

  /** How a watcher goes on after one step: it makes a plan only by listing config-maps and otherwise shortens it,
      begins to purge when nothing else is left, and turns to config-maps when no pod is left. */
  ghost predicate GoesOn(pods: Pods, w: Watcher, step: Step, w': Watcher) {
    && (PlanOf(w').Some? && step != ListConfigMaps ==> PlanOf(w).Some? && Smaller(PlanOf(w').value, PlanOf(w).value))
    && (PurgesLast(w) ==> PurgesLast(w'))
    && (w'.PurgingPods? ==>
          || w' == w
          || (w.PurgingPods? && step.PurgePod? && w'.u == w.u && w'.podKeys == w.podKeys - {step.pod})
          || (step == PurgeListPods(w'.u) && w'.podKeys != {} &&
              w'.podKeys == set k | k in pods && pods[k].uuidLabel == Some(w'.u)))
    && (w'.PurgingConfigMaps? ==>
          (w.PurgingConfigMaps? && w'.u == w.u) || (w.PurgingPods? && w'.u == w.u && w.podKeys == {}))
  }

  lemma SamePlan(pods: Pods, w: Watcher, step: Step)
    requires step != ListConfigMaps
    ensures GoesOn(pods, w, step, w)
  {
  }

  predicate OfOthers(step: Step) {
    || step.Admit? || step.RequestSbatch? || step.RequestEnv? || step.Store? || step.SbatchOk? || step.SbatchFail?
    || step.Abort? || step.PodPhase? || step.PodGone? || step.JobEnds?
  }

  lemma OthersGoOn(s: State, step: Step)
    requires Enabled(s, step) && OfOthers(step)
    ensures Apply(s, step).watcher == s.watcher
  {
  }

  lemma ListingGoesOn(s: State, step: Step)
    requires Enabled(s, step) && (step.ListJobs? || step.ListPods? || step.ListConfigMaps? || step.ListFails? || step.EndPass?)
    ensures GoesOn(s.pods, s.watcher, step, Apply(s, step).watcher)
  {
  }

  lemma ActingGoesOn(s: State, step: Step)
    requires Enabled(s, step) && (step.DeleteOrphan? || step.DeleteStale? || step.Cancel? || step.Skip?)
    ensures GoesOn(s.pods, s.watcher, step, Apply(s, step).watcher)
  {
  }

  lemma PurgeGoesOn(s: State, step: Step)
    requires Enabled(s, step)
    requires step.PurgeListPods? || step.PurgePod? || step.PurgeListConfigMaps? || step.PurgeConfigMap? || step.PurgeEnds?
    ensures GoesOn(s.pods, s.watcher, step, Apply(s, step).watcher)
  {
  }

  lemma StepGoesOn(s: State, step: Step)
    requires Enabled(s, step)
    ensures GoesOn(s.pods, s.watcher, step, Apply(s, step).watcher)
  {
    if step.Call? || OfOthers(step) {
      SamePlan(s.pods, s.watcher, step);
      if step.Call? { assert Apply(s, step) == CallThread(s, step.tid); } else { OthersGoOn(s, step); }
    } else if step.ListJobs? || step.ListPods? || step.ListConfigMaps? || step.ListFails? || step.EndPass? {
      ListingGoesOn(s, step);
    } else if step.DeleteOrphan? || step.DeleteStale? || step.Cancel? || step.Skip? {
      ActingGoesOn(s, step);
    } else {
      PurgeGoesOn(s, step);
    }
  }

  lemma RunGoesOn(states: seq<State>, steps: seq<Step>, n: nat)
    requires IsRun(states, steps) && n < |steps|
    ensures GoesOn(states[n].pods, states[n].watcher, steps[n], states[n + 1].watcher)
  {
    StepGoesOn(states[n], steps[n]);
  }

  lemma {:induction false} PlanShrinksAlong(states: seq<State>, steps: seq<Step>, i: nat, j: nat)
    requires IsRun(states, steps) && i <= j <= |steps| && PlanOf(states[j].watcher).Some?
    requires forall m :: i <= m < j ==> steps[m] != ListConfigMaps
    ensures PlanOf(states[i].watcher).Some? && Smaller(PlanOf(states[j].watcher).value, PlanOf(states[i].watcher).value)
    decreases j
  {
    if i < j {
      RunGoesOn(states, steps, j - 1);
      PlanShrinksAlong(states, steps, i, j - 1);
    }
  }

  lemma {:induction false} PurgesAreLast(states: seq<State>, steps: seq<Step>, n: nat)
    requires IsRun(states, steps) && n <= |steps|
    ensures PurgesLast(states[n].watcher)
  {
    if n > 0 {
      PurgesAreLast(states, steps, n - 1);
      RunGoesOn(states, steps, n - 1);
    }
  }

  /** The place of a deletion or cancellation in a pass. */
  function Rank(step: Step): nat
    requires Acts(step)
  {
    if step.DeleteOrphan? then 0 else if step.DeleteStale? then 1 else if step.Cancel? then 2 else 3
  }

  predicate Acts(step: Step) {
    step.DeleteOrphan? || step.DeleteStale? || step.Cancel? || step.PurgeListPods? || step.PurgePod? || step.PurgeConfigMap?
  }

  /** What may still come after a deletion or cancellation. */
  lemma RankOfPlan(s: State, step: Step)
    requires Enabled(s, step) && Acts(step) && PurgesLast(s.watcher)
    ensures PlanOf(s.watcher).Some?
    ensures Rank(step) > 0 ==> PlanOf(s.watcher).value.orphans == {}
    ensures Rank(step) > 1 ==> PlanOf(s.watcher).value.stale == {}
    ensures Rank(step) > 2 ==> PlanOf(s.watcher).value.cancel == {}
    ensures step.DeleteOrphan? ==> PlanOf(s.watcher).value.orphans != {}
    ensures step.DeleteStale? ==> PlanOf(s.watcher).value.stale != {}
    ensures step.Cancel? ==> PlanOf(s.watcher).value.cancel != {}
  {
  }

  /** In every run, whatever other actors do in between, a pass deletes orphans first, then stale config-maps, then
      cancels jobs, and purges at the end. */
  lemma PassOrder(states: seq<State>, steps: seq<Step>, i: nat, j: nat)
    requires IsRun(states, steps) && i < j < |steps| && Acts(steps[i]) && Acts(steps[j])
    requires forall m :: i <= m < j ==> steps[m] != ListConfigMaps
    ensures Rank(steps[i]) <= Rank(steps[j])
  {
    PurgesAreLast(states, steps, i);
    PurgesAreLast(states, steps, j);
    RankOfPlan(states[i], steps[i]);
    RankOfPlan(states[j], steps[j]);
    PlanShrinksAlong(states, steps, i, j);
  }

  // ----- The order of a purge ------------------------------------------------------------------------

  /** Between the steps `i` and `n` the deletion of the pod was requested. */
  ghost predicate Requested(steps: seq<Step>, i: int, n: nat, k: Key)
    requires n <= |steps|
  {
    exists m :: 0 <= m && i < m < n && steps[m].PurgePod? && steps[m].pod == k
  }

  /** Before step `n` the pods of `u` were listed, there was one, and since then the deletion of each was requested,
      `rest` apart. */
  ghost predicate PodsRequested(states: seq<State>, steps: seq<Step>, n: nat, u: Uuid, rest: set<Key>)
    requires IsRun(states, steps) && n <= |steps|
  {
    exists i :: 0 <= i < n && steps[i] == PurgeListPods(u) && ListedSince(states, steps, i, n, u, rest)
  }

  ghost predicate ListedSince(states: seq<State>, steps: seq<Step>, i: nat, n: nat, u: Uuid, rest: set<Key>)
    requires IsRun(states, steps) && i < n <= |steps|
  {
    && (exists k :: k in states[i].pods && states[i].pods[k].uuidLabel == Some(u))
    && (forall k :: k in states[i].pods && states[i].pods[k].uuidLabel == Some(u) ==>
          k in rest || Requested(steps, i, n, k))
  }

  ghost predicate PurgeOk(states: seq<State>, steps: seq<Step>, n: nat)
    requires IsRun(states, steps) && n <= |steps|
  {
    match states[n].watcher
    case PurgingPods(_, u, rest) => PodsRequested(states, steps, n, u, rest)
    case PurgingConfigMaps(_, u, _) => PodsRequested(states, steps, n, u, {})
    case _ => true
  }

  lemma RequestsRemain(states: seq<State>, steps: seq<Step>, n: nat, u: Uuid, rest: set<Key>, rest': set<Key>)
    requires IsRun(states, steps) && n < |steps| && PodsRequested(states, steps, n, u, rest)
    requires forall k :: k in rest ==> k in rest' || (steps[n].PurgePod? && steps[n].pod == k)
    ensures PodsRequested(states, steps, n + 1, u, rest')
  {
    var i :| 0 <= i < n && steps[i] == PurgeListPods(u) && ListedSince(states, steps, i, n, u, rest);
    forall k | k in states[i].pods && states[i].pods[k].uuidLabel == Some(u)
      ensures k in rest' || Requested(steps, i, n + 1, k)
    {
      if k in rest && k !in rest' {
        assert steps[n].pod == k;
      } else if k !in rest {
        assert Requested(steps, i, n, k);
      }
    }
    assert ListedSince(states, steps, i, n + 1, u, rest');
  }

  lemma RequestsBegin(states: seq<State>, steps: seq<Step>, n: nat, u: Uuid, rest: set<Key>)
    requires IsRun(states, steps) && n < |steps| && steps[n] == PurgeListPods(u) && rest != {}
    requires rest == set k | k in states[n].pods && states[n].pods[k].uuidLabel == Some(u)
    ensures PodsRequested(states, steps, n + 1, u, rest)
  {
    var k :| k in rest;
    assert ListedSince(states, steps, n, n + 1, u, rest);
  }

  lemma PurgeStaysOk(states: seq<State>, steps: seq<Step>, n: nat)
    requires IsRun(states, steps) && n < |steps| && PurgeOk(states, steps, n)
    ensures PurgeOk(states, steps, n + 1)
  {
    var w, w', step := states[n].watcher, states[n + 1].watcher, steps[n];
    RunGoesOn(states, steps, n);
    if w'.PurgingPods? {
      if w == w' || (w.PurgingPods? && step.PurgePod?) {
        RequestsRemain(states, steps, n, w.u, w.podKeys, w'.podKeys);
      } else {
        RequestsBegin(states, steps, n, w'.u, w'.podKeys);
      }
    } else if w'.PurgingConfigMaps? {
      RequestsRemain(states, steps, n, w.u, {}, {});
    }
  }

  lemma {:induction false} PurgesAreOk(states: seq<State>, steps: seq<Step>, n: nat)
    requires IsRun(states, steps) && n <= |steps|
    ensures PurgeOk(states, steps, n)
  {
    if n > 0 {
      PurgesAreOk(states, steps, n - 1);
      PurgeStaysOk(states, steps, n - 1);
    }
  }

  /** In every run, whatever other actors do in between, a purge deletes a config-map only after it has listed the pods
      of the UUID, found some, and requested the deletion of every pod found. */
  lemma PodsBeforeConfigMaps(states: seq<State>, steps: seq<Step>, n: nat)
    requires IsRun(states, steps) && n < |steps| && steps[n].PurgeConfigMap?
    ensures PodsRequested(states, steps, n, states[n].watcher.u, {})
  {
    PurgesAreOk(states, steps, n);
  }
}
