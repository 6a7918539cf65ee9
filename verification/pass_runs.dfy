/** A pass of the watcher that no other actor interrupts takes steps of the protocol to the outcome of its code,
    whichever of its requests are refused. */
module PassRuns {
  import opened Wrappers
  import opened Cluster
  import Servers
  import WatcherPass
  import opened Protocol
  import opened ProtocolRuns

  /** The steps of a watcher whose deletions take effect at once. */
  predicate OfWatcher(step: Step) {
    match step
    case ListJobs => true
    case ListPods => true
    case ListConfigMaps => true
    case ListFails => true
    case DeleteOrphan(_, graceful) => !graceful
    case DeleteStale(_) => true
    case Cancel(_) => true
    case PurgeListPods(_) => true
    case PurgePod(_, graceful) => !graceful
    case PurgeListConfigMaps => true
    case PurgeConfigMap(_) => true
    case PurgeEnds => true
    case Skip(_) => true
    case EndPass => true
    case _ => false
  }

  lemma LessMore<K, V>(m: map<K, V>, k: K, keys: set<K>)
    requires k in keys
    ensures m - {k} - (keys - {k}) == m - keys
  {
  }

  lemma LessMoreSet<K>(all: set<K>, k: K, keys: set<K>)
    requires k in keys
    ensures all - {k} - (keys - {k}) == all - keys
  {
  }

  // ----- Deletions and cancellations of a plan ---------------------------------------------------------

  lemma DeleteOrphanLeads(s: State, k: Key)
    requires s.watcher.Acting? && k in s.watcher.plan.orphans
    ensures var p := s.watcher.plan;
      Leads(s, [DeleteOrphan(k, false)],
            s.(pods := s.pods - {k}, watcher := Acting(p.(orphans := p.orphans - {k}))), OfWatcher)
  {
    var p := s.watcher.plan;
    LeadsOne(s, DeleteOrphan(k, false), s.(pods := s.pods - {k}, watcher := Acting(p.(orphans := p.orphans - {k}))),
             OfWatcher);
  }

  lemma {:induction false} OrphansAreDeleted(s: State, keys: set<Key>) returns (steps: seq<Step>)
    requires s.watcher.Acting? && keys <= s.watcher.plan.orphans
    ensures var p := s.watcher.plan;
      Leads(s, steps, s.(pods := s.pods - keys, watcher := Acting(p.(orphans := p.orphans - keys))), OfWatcher)
    decreases keys
  {
    var p := s.watcher.plan;
    if keys == {} {
      steps := [];
      assert s.pods - {} == s.pods && p.orphans - {} == p.orphans;
    } else {
      var k :| k in keys;
      var t := s.(pods := s.pods - {k}, watcher := Acting(p.(orphans := p.orphans - {k})));
      steps := OrphansAreDeleted(t, keys - {k});
      LessMore(s.pods, k, keys);
      LessMoreSet(p.orphans, k, keys);
      DeleteOrphanLeads(s, k);
      LeadsOn(s, [DeleteOrphan(k, false)], t, steps,
              s.(pods := s.pods - keys, watcher := Acting(p.(orphans := p.orphans - keys))), OfWatcher);
      steps := [DeleteOrphan(k, false)] + steps;
    }
  }

  lemma DeleteStaleLeads(s: State, k: Key)
    requires s.watcher.Acting? && s.watcher.plan.orphans == {} && k in s.watcher.plan.stale
    ensures var p := s.watcher.plan;
      Leads(s, [DeleteStale(k)], s.(cms := s.cms - {k}, watcher := Acting(p.(stale := p.stale - {k}))), OfWatcher)
  {
    var p := s.watcher.plan;
    LeadsOne(s, DeleteStale(k), s.(cms := s.cms - {k}, watcher := Acting(p.(stale := p.stale - {k}))), OfWatcher);
  }

  lemma {:induction false} StaleAreDeleted(s: State, keys: set<Key>) returns (steps: seq<Step>)
    requires s.watcher.Acting? && s.watcher.plan.orphans == {} && keys <= s.watcher.plan.stale
    ensures var p := s.watcher.plan;
      Leads(s, steps, s.(cms := s.cms - keys, watcher := Acting(p.(stale := p.stale - keys))), OfWatcher)
    decreases keys
  {
    var p := s.watcher.plan;
    if keys == {} {
      steps := [];
      assert s.cms - {} == s.cms && p.stale - {} == p.stale;
    } else {
      var k :| k in keys;
      var t := s.(cms := s.cms - {k}, watcher := Acting(p.(stale := p.stale - {k})));
      steps := StaleAreDeleted(t, keys - {k});
      LessMore(s.cms, k, keys);
      LessMoreSet(p.stale, k, keys);
      DeleteStaleLeads(s, k);
      LeadsOn(s, [DeleteStale(k)], t, steps,
              s.(cms := s.cms - keys, watcher := Acting(p.(stale := p.stale - keys))), OfWatcher);
      steps := [DeleteStale(k)] + steps;
    }
  }

  lemma CancelLeads(s: State, id: JobId)
    requires s.watcher.Acting? && s.watcher.plan.orphans == {} && s.watcher.plan.stale == {} && id in s.watcher.plan.cancel
    ensures var p := s.watcher.plan;
      Leads(s, [Cancel(id)], s.(jobs := s.jobs - {id}, watcher := Acting(p.(cancel := p.cancel - {id}))), OfWatcher)
  {
    var p := s.watcher.plan;
    LeadsOne(s, Cancel(id), s.(jobs := s.jobs - {id}, watcher := Acting(p.(cancel := p.cancel - {id}))), OfWatcher);
  }

  lemma {:induction false} UnknownAreCancelled(s: State, ids: set<JobId>) returns (steps: seq<Step>)
    requires s.watcher.Acting? && s.watcher.plan.orphans == {} && s.watcher.plan.stale == {} && ids <= s.watcher.plan.cancel
    ensures var p := s.watcher.plan;
      Leads(s, steps, s.(jobs := s.jobs - ids, watcher := Acting(p.(cancel := p.cancel - ids))), OfWatcher)
    decreases ids
  {
    var p := s.watcher.plan;
    if ids == {} {
      steps := [];
      assert s.jobs - {} == s.jobs && p.cancel - {} == p.cancel;
    } else {
      var id :| id in ids;
      var t := s.(jobs := s.jobs - {id}, watcher := Acting(p.(cancel := p.cancel - {id})));
      steps := UnknownAreCancelled(t, ids - {id});
      LessMore(s.jobs, id, ids);
      LessMoreSet(p.cancel, id, ids);
      CancelLeads(s, id);
      LeadsOn(s, [Cancel(id)], t, steps,
              s.(jobs := s.jobs - ids, watcher := Acting(p.(cancel := p.cancel - ids))), OfWatcher);
      steps := [Cancel(id)] + steps;
    }
  }

  /** Refused requests of a plan are skipped. */
  lemma SkipLeads(s: State, p: Plan)
    requires s.watcher.Acting? && Smaller(p, s.watcher.plan)
    ensures Leads(s, [Skip(p)], s.(watcher := Acting(p)), OfWatcher)
  {
    LeadsOne(s, Skip(p), s.(watcher := Acting(p)), OfWatcher);
  }

  lemma OrphansAreDone(s: State, keys: set<Key>) returns (steps: seq<Step>)
    requires s.watcher.Acting? && keys <= s.watcher.plan.orphans
    ensures Leads(s, steps, s.(pods := s.pods - keys, watcher := Acting(s.watcher.plan.(orphans := {}))), OfWatcher)
  {
    var p := s.watcher.plan;
    steps := OrphansAreDeleted(s, keys);
    var s1 := s.(pods := s.pods - keys, watcher := Acting(p.(orphans := p.orphans - keys)));
    SkipLeads(s1, p.(orphans := {}));
    LeadsOn(s, steps, s1, [Skip(p.(orphans := {}))], s1.(watcher := Acting(p.(orphans := {}))), OfWatcher);
    steps := steps + [Skip(p.(orphans := {}))];
  }

  lemma StaleAreDone(s: State, keys: set<Key>) returns (steps: seq<Step>)
    requires s.watcher.Acting? && s.watcher.plan.orphans == {} && keys <= s.watcher.plan.stale
    ensures Leads(s, steps, s.(cms := s.cms - keys, watcher := Acting(s.watcher.plan.(stale := {}))), OfWatcher)
  {
    var p := s.watcher.plan;
    steps := StaleAreDeleted(s, keys);
    var s1 := s.(cms := s.cms - keys, watcher := Acting(p.(stale := p.stale - keys)));
    SkipLeads(s1, p.(stale := {}));
    LeadsOn(s, steps, s1, [Skip(p.(stale := {}))], s1.(watcher := Acting(p.(stale := {}))), OfWatcher);
    steps := steps + [Skip(p.(stale := {}))];
  }

  lemma UnknownAreDone(s: State, ids: set<JobId>) returns (steps: seq<Step>)
    requires s.watcher.Acting? && s.watcher.plan.orphans == {} && s.watcher.plan.stale == {} && ids <= s.watcher.plan.cancel
    ensures Leads(s, steps, s.(jobs := s.jobs - ids, watcher := Acting(s.watcher.plan.(cancel := {}))), OfWatcher)
  {
    var p := s.watcher.plan;
    steps := UnknownAreCancelled(s, ids);
    var s1 := s.(jobs := s.jobs - ids, watcher := Acting(p.(cancel := p.cancel - ids)));
    SkipLeads(s1, p.(cancel := {}));
    LeadsOn(s, steps, s1, [Skip(p.(cancel := {}))], s1.(watcher := Acting(p.(cancel := {}))), OfWatcher);
    steps := steps + [Skip(p.(cancel := {}))];
  }

  /** What may be deleted and cancelled of a plan, before its purges. */
  lemma PlanIsFollowed(s: State, orphans: set<Key>, stale: set<Key>, cancel: set<JobId>) returns (steps: seq<Step>)
    requires s.watcher.Acting? && Smaller(Plan(orphans, stale, cancel, {}), s.watcher.plan)
    ensures
      Leads(s, steps,
            s.(pods := s.pods - orphans, cms := s.cms - stale, jobs := s.jobs - cancel,
               watcher := Acting(Plan({}, {}, {}, s.watcher.plan.purge))),
            OfWatcher)
  {
    var p := s.watcher.plan;
    var s1 := s.(pods := s.pods - orphans, watcher := Acting(p.(orphans := {})));
    var s2 := s1.(cms := s.cms - stale, watcher := Acting(p.(orphans := {}, stale := {})));
    var s3 := s2.(jobs := s.jobs - cancel, watcher := Acting(Plan({}, {}, {}, p.purge)));
    steps := OrphansAreDone(s, orphans);
    var more := StaleAreDone(s1, stale);
    LeadsOn(s, steps, s1, more, s2, OfWatcher);
    steps := steps + more;
    more := UnknownAreDone(s2, cancel);
    LeadsOn(s, steps, s2, more, s3, OfWatcher);
    steps := steps + more;
  }

  // ----- Purges ------------------------------------------------------------------------------------------

  lemma PurgePodLeads(s: State, k: Key)
    requires s.watcher.PurgingPods? && k in s.watcher.podKeys
    ensures var w := s.watcher;
      Leads(s, [PurgePod(k, false)],
            s.(pods := s.pods - {k}, watcher := PurgingPods(w.plan, w.u, w.podKeys - {k})), OfWatcher)
  {
    var w := s.watcher;
    LeadsOne(s, PurgePod(k, false), s.(pods := s.pods - {k}, watcher := PurgingPods(w.plan, w.u, w.podKeys - {k})),
             OfWatcher);
  }

  lemma {:induction false} PodsArePurged(s: State, keys: set<Key>) returns (steps: seq<Step>)
    requires s.watcher.PurgingPods? && keys <= s.watcher.podKeys
    ensures var w := s.watcher;
      Leads(s, steps, s.(pods := s.pods - keys, watcher := PurgingPods(w.plan, w.u, w.podKeys - keys)), OfWatcher)
    decreases keys
  {
    var w := s.watcher;
    if keys == {} {
      steps := [];
      assert s.pods - {} == s.pods && w.podKeys - {} == w.podKeys;
    } else {
      var k :| k in keys;
      var t := s.(pods := s.pods - {k}, watcher := PurgingPods(w.plan, w.u, w.podKeys - {k}));
      steps := PodsArePurged(t, keys - {k});
      LessMore(s.pods, k, keys);
      LessMoreSet(w.podKeys, k, keys);
      PurgePodLeads(s, k);
      LeadsOn(s, [PurgePod(k, false)], t, steps,
              s.(pods := s.pods - keys, watcher := PurgingPods(w.plan, w.u, w.podKeys - keys)), OfWatcher);
      steps := [PurgePod(k, false)] + steps;
    }
  }

  lemma PurgeConfigMapLeads(s: State, k: Key)
    requires s.watcher.PurgingConfigMaps? && k in s.watcher.cmKeys
    ensures var w := s.watcher;
      Leads(s, [PurgeConfigMap(k)],
            s.(cms := s.cms - {k}, watcher := PurgingConfigMaps(w.plan, w.u, w.cmKeys - {k})), OfWatcher)
  {
    var w := s.watcher;
    LeadsOne(s, PurgeConfigMap(k), s.(cms := s.cms - {k}, watcher := PurgingConfigMaps(w.plan, w.u, w.cmKeys - {k})),
             OfWatcher);
  }

  /** The purge ends after the config-maps `keys`, with all of them or at a refusal. */
  lemma {:induction false} ConfigMapsArePurged(s: State, keys: set<Key>) returns (steps: seq<Step>)
    requires s.watcher.PurgingConfigMaps? && keys <= s.watcher.cmKeys
    ensures Leads(s, steps, s.(cms := s.cms - keys, watcher := Acting(s.watcher.plan)), OfWatcher)
    decreases keys
  {
    var w := s.watcher;
    var t := s.(cms := s.cms - keys, watcher := Acting(w.plan));
    if keys == {} {
      steps := [PurgeEnds];
      assert s.cms - {} == s.cms;
      LeadsOne(s, PurgeEnds, t, OfWatcher);
    } else {
      var k :| k in keys;
      var s1 := s.(cms := s.cms - {k}, watcher := PurgingConfigMaps(w.plan, w.u, w.cmKeys - {k}));
      steps := ConfigMapsArePurged(s1, keys - {k});
      LessMore(s.cms, k, keys);
      PurgeConfigMapLeads(s, k);
      LeadsOn(s, [PurgeConfigMap(k)], s1, steps, t, OfWatcher);
      steps := [PurgeConfigMap(k)] + steps;
    }
  }

  lemma PurgeListPodsLeads(s: State, u: Uuid)
    requires s.watcher.Acting? && s.watcher.plan.(purge := {}) == Plan({}, {}, {}, {}) && u in s.watcher.plan.purge
    ensures var found := Servers.PodsLabelled(s.pods, u).Keys;
      var rest := s.watcher.plan.(purge := s.watcher.plan.purge - {u});
      Leads(s, [PurgeListPods(u)],
            s.(watcher := if found == {} then Acting(rest) else PurgingPods(rest, u, found)), OfWatcher)
  {
    var found := Servers.PodsLabelled(s.pods, u).Keys;
    var rest := s.watcher.plan.(purge := s.watcher.plan.purge - {u});
    assert found == set k | k in s.pods && s.pods[k].uuidLabel == Some(u);
    LeadsOne(s, PurgeListPods(u), s.(watcher := if found == {} then Acting(rest) else PurgingPods(rest, u, found)),
             OfWatcher);
  }

  lemma PurgeListConfigMapsLeads(s: State)
    requires s.watcher.PurgingPods? && s.watcher.podKeys == {}
    ensures var w := s.watcher;
      Leads(s, [PurgeListConfigMaps],
            s.(watcher := PurgingConfigMaps(w.plan, w.u, Servers.ConfigMapsLabelled(s.cms, w.u).Keys)), OfWatcher)
  {
    var w := s.watcher;
    var found := Servers.ConfigMapsLabelled(s.cms, w.u).Keys;
    assert found == set k | k in s.cms && s.cms[k].uuidLabel == Some(w.u);
    LeadsOne(s, PurgeListConfigMaps, s.(watcher := PurgingConfigMaps(w.plan, w.u, found)), OfWatcher);
  }

  /** A purge that ends while it deletes pods. */
  lemma PurgeEndsAtPods(s: State, keys: set<Key>) returns (steps: seq<Step>)
    requires s.watcher.PurgingPods? && keys <= s.watcher.podKeys
    ensures Leads(s, steps, s.(pods := s.pods - keys, watcher := Acting(s.watcher.plan)), OfWatcher)
  {
    var w := s.watcher;
    steps := PodsArePurged(s, keys);
    var s1 := s.(pods := s.pods - keys, watcher := PurgingPods(w.plan, w.u, w.podKeys - keys));
    LeadsOne(s1, PurgeEnds, s1.(watcher := Acting(w.plan)), OfWatcher);
    LeadsOn(s, steps, s1, [PurgeEnds], s1.(watcher := Acting(w.plan)), OfWatcher);
    steps := steps + [PurgeEnds];
  }

  /** A purge that has deleted all pods and some config-maps. */
  lemma PurgeEndsAtConfigMaps(s: State, keys: set<Key>) returns (steps: seq<Step>)
    requires s.watcher.PurgingPods? && keys <= Servers.ConfigMapsLabelled(s.cms, s.watcher.u).Keys
    ensures var w := s.watcher;
      Leads(s, steps, s.(pods := s.pods - w.podKeys, cms := s.cms - keys, watcher := Acting(w.plan)), OfWatcher)
  {
    var w := s.watcher;
    var t := s.(pods := s.pods - w.podKeys, cms := s.cms - keys, watcher := Acting(w.plan));
    steps := PodsArePurged(s, w.podKeys);
    assert w.podKeys - w.podKeys == {};
    var s1 := s.(pods := s.pods - w.podKeys, watcher := PurgingPods(w.plan, w.u, {}));
    PurgeListConfigMapsLeads(s1);
    var s2 := s1.(watcher := PurgingConfigMaps(w.plan, w.u, Servers.ConfigMapsLabelled(s.cms, w.u).Keys));
    var more := ConfigMapsArePurged(s2, keys);
    LeadsOn(s1, [PurgeListConfigMaps], s2, more, t, OfWatcher);
    LeadsOn(s, steps, s1, [PurgeListConfigMaps] + more, t, OfWatcher);
    steps := steps + ([PurgeListConfigMaps] + more);
  }

  /** A map that lacks some entries. */
  lemma LessByIsMinus<K, V>(m: map<K, V>, full: map<K, V>, keys: set<K>)
    requires WatcherPass.LessBy(m, full, keys)
    ensures full.Keys - m.Keys <= keys && m == full - (full.Keys - m.Keys)
  {
  }

  /** Whatever a purge of one UUID may leave, a purge in the protocol leaves it. */
  lemma UuidIsPurged(s: State, refused: set<Servers.Request>, u: Uuid, pods: Pods, cms: ConfigMaps) returns (steps: seq<Step>)
    requires s.watcher.Acting? && s.watcher.plan.(purge := {}) == Plan({}, {}, {}, {}) && u in s.watcher.plan.purge
    requires WatcherPass.UuidPurged(refused, s.pods, s.cms, u, pods, cms)
    ensures var p := s.watcher.plan;
      Leads(s, steps, s.(pods := pods, cms := cms, watcher := Acting(p.(purge := p.purge - {u}))), OfWatcher)
  {
    var found := Servers.PodsLabelled(s.pods, u).Keys;
    var rest := s.watcher.plan.(purge := s.watcher.plan.purge - {u});
    var t := s.(pods := pods, cms := cms, watcher := Acting(rest));
    WatcherPass.UuidPurgedAtMost(refused, s.pods, s.cms, u, pods, cms);
    LessByIsMinus(pods, s.pods, found);
    LessByIsMinus(cms, s.cms, Servers.ConfigMapsLabelled(s.cms, u).Keys);
    PurgeListPodsLeads(s, u);
    if found == {} {
      assert s.pods.Keys - pods.Keys == {} && s.pods - {} == s.pods;
      steps := [PurgeListPods(u)];
    } else {
      var s1 := s.(watcher := PurgingPods(rest, u, found));
      if cms == s.cms {
        steps := PurgeEndsAtPods(s1, s.pods.Keys - pods.Keys);
      } else {
        steps := PurgeEndsAtConfigMaps(s1, s.cms.Keys - cms.Keys);
      }
      LeadsOn(s, [PurgeListPods(u)], s1, steps, t, OfWatcher);
      steps := [PurgeListPods(u)] + steps;
    }
  }

  lemma {:induction false} UuidsArePurged(s: State, refused: set<Servers.Request>, us: set<Uuid>, pods: Pods, cms: ConfigMaps)
    returns (steps: seq<Step>)
    requires s.watcher.Acting? && s.watcher.plan.(purge := {}) == Plan({}, {}, {}, {}) && us <= s.watcher.plan.purge
    requires WatcherPass.UuidsPurged(refused, s.pods, s.cms, us, pods, cms)
    ensures var p := s.watcher.plan;
      Leads(s, steps, s.(pods := pods, cms := cms, watcher := Acting(p.(purge := p.purge - us))), OfWatcher)
    decreases us
  {
    var p := s.watcher.plan;
    if us == {} {
      steps := [];
      assert p.purge - {} == p.purge;
    } else {
      var u, pods1, cms1 :|
        u in us && WatcherPass.UuidsPurged(refused, s.pods, s.cms, us - {u}, pods1, cms1)
        && WatcherPass.UuidPurged(refused, pods1, cms1, u, pods, cms);
      steps := UuidsArePurged(s, refused, us - {u}, pods1, cms1);
      var s1 := s.(pods := pods1, cms := cms1, watcher := Acting(p.(purge := p.purge - (us - {u}))));
      var more := UuidIsPurged(s1, refused, u, pods, cms);
      assert p.purge - (us - {u}) - {u} == p.purge - us;
      LeadsOn(s, steps, s1, more, s.(pods := pods, cms := cms, watcher := Acting(p.(purge := p.purge - us))), OfWatcher);
      steps := steps + more;
    }
  }

  // ----- Whole passes ------------------------------------------------------------------------------------

  /** The three listings of a quiet cluster. */
  lemma ListingsLead(s: State, p: Plan)
    requires s.watcher == Idle
    requires p == Plan(Orphans(s.pods, s.cms), StaleConfigMaps(s.pods, s.cms), ToCancel(s.jobs, s.pods, s.cms),
                       ToPurge(s.jobs, s.pods, s.cms))
    ensures Leads(s, [ListJobs] + ([ListPods] + [ListConfigMaps]), s.(watcher := Acting(p)), OfWatcher)
  {
    var s1, s2 := s.(watcher := ListedJobs(s.jobs)), s.(watcher := ListedPods(s.jobs, s.pods));
    var t := s.(watcher := Acting(p));
    LeadsOne(s2, ListConfigMaps, t, OfWatcher);
    Then(s1, ListPods, s2, [ListConfigMaps], t, OfWatcher);
    Then(s, ListJobs, s1, [ListPods] + [ListConfigMaps], t, OfWatcher);
  }

  /** The listings up to the first refused one. */
  lemma ListingsFail(s: State, refused: set<Servers.Request>) returns (steps: seq<Step>)
    requires s.watcher == Idle && !WatcherPass.ListingsAnswered(refused)
    ensures Leads(s, steps, s, OfWatcher)
  {
    var s1, s2 := s.(watcher := ListedJobs(s.jobs)), s.(watcher := ListedPods(s.jobs, s.pods));
    if Servers.Request.ListJobs in refused {
      steps := [];
    } else if Servers.Request.ListAllPods in refused {
      LeadsOne(s1, ListFails, s, OfWatcher);
      Then(s, ListJobs, s1, [ListFails], s, OfWatcher);
      steps := [ListJobs] + [ListFails];
    } else {
      LeadsOne(s2, ListFails, s, OfWatcher);
      Then(s1, ListPods, s2, [ListFails], s, OfWatcher);
      Then(s, ListJobs, s1, [ListPods] + [ListFails], s, OfWatcher);
      steps := [ListJobs] + ([ListPods] + [ListFails]);
    }
  }

  function StoresOf(s: State): WatcherPass.Stores { WatcherPass.Stores(s.pods, s.cms, s.jobs) }

  function WithStores(s: State, t: WatcherPass.Stores): State { s.(pods := t.pods, cms := t.cms, jobs := t.jobs) }

  lemma ActingLeads(s: State, p: Plan, refused: set<Servers.Request>, t: WatcherPass.Stores) returns (steps: seq<Step>)
    requires s.watcher == Acting(p) && WatcherPass.ListingsAnswered(refused)
    requires p == Plan(Orphans(s.pods, s.cms), StaleConfigMaps(s.pods, s.cms), ToCancel(s.jobs, s.pods, s.cms),
                       ToPurge(s.jobs, s.pods, s.cms))
    requires WatcherPass.MayLeave(StoresOf(s), refused, t)
    ensures Leads(s, steps, WithStores(s, t).(watcher := Idle), OfWatcher)
  {
    var orphans := WatcherPass.PodsDeletable(refused, p.orphans);
    var stale := WatcherPass.ConfigMapsDeletable(refused, p.stale);
    var cancel := WatcherPass.JobsDeletable(refused, p.cancel);
    var s1 := s.(pods := s.pods - orphans, cms := s.cms - stale, jobs := s.jobs - cancel,
                 watcher := Acting(Plan({}, {}, {}, p.purge)));
    var s2 := WithStores(s, t).(watcher := Acting(Plan({}, {}, {}, {})));
    steps := PlanIsFollowed(s, orphans, stale, cancel);
    var more := UuidsArePurged(s1, refused, p.purge, t.pods, t.cms);
    assert p.purge - p.purge == {};
    LeadsOn(s, steps, s1, more, s2, OfWatcher);
    steps := steps + more;
    LeadsOne(s2, EndPass, s2.(watcher := Idle), OfWatcher);
    LeadsOn(s, steps, s2, [EndPass], s2.(watcher := Idle), OfWatcher);
    steps := steps + [EndPass];
  }

  /** From any state, whatever `Routine` may leave when some requests are refused, a pass that nothing interrupts is a
      sequence of protocol steps from the first listing to the end of the pass that leaves it. */
  lemma PassFollowsTheProtocol(s: State, refused: set<Servers.Request>, t: WatcherPass.Stores) returns (steps: seq<Step>)
    requires s.watcher == Idle && WatcherPass.MayLeave(StoresOf(s), refused, t)
    ensures Leads(s, steps, WithStores(s, t), OfWatcher)
  {
    if WatcherPass.ListingsAnswered(refused) {
      var p := Plan(Orphans(s.pods, s.cms), StaleConfigMaps(s.pods, s.cms), ToCancel(s.jobs, s.pods, s.cms),
                    ToPurge(s.jobs, s.pods, s.cms));
      var s1 := s.(watcher := Acting(p));
      ListingsLead(s, p);
      steps := ActingLeads(s1, p, refused, t);
      LeadsOn(s, [ListJobs] + ([ListPods] + [ListConfigMaps]), s1, steps, WithStores(s, t), OfWatcher);
      steps := [ListJobs] + ([ListPods] + [ListConfigMaps]) + steps;
    } else {
      steps := ListingsFail(s, refused);
    }
  }

  /** A purge of one UUID in which every request is answered. */
  lemma AnsweredPurge(pods: Pods, cms: ConfigMaps, u: Uuid, pods': Pods, cms': ConfigMaps)
    requires (pods', cms') == WatcherPass.Purged(pods, cms, {u})
    ensures WatcherPass.UuidPurged({}, pods, cms, u, pods', cms')
  {
    WatcherPass.PurgedOne(pods, cms, u);
    var podKeys, cmKeys := Servers.PodsLabelled(pods, u).Keys, Servers.ConfigMapsLabelled(cms, u).Keys;
    assert WatcherPass.PodsDeletable({}, podKeys) == podKeys && WatcherPass.ConfigMapsDeletable({}, cmKeys) == cmKeys;
  }

  lemma {:induction false} PurgedInTurn(pods: Pods, cms: ConfigMaps, us: set<Uuid>)
    ensures var (pods', cms') := WatcherPass.Purged(pods, cms, us);
      WatcherPass.UuidsPurged({}, pods, cms, us, pods', cms')
    decreases us
  {
    if us == {} {
      WatcherPass.PurgedNone(pods, cms);
    } else {
      var u :| u in us;
      var (pods1, cms1) := WatcherPass.Purged(pods, cms, us - {u});
      var (pods', cms') := WatcherPass.Purged(pods1, cms1, {u});
      PurgedInTurn(pods, cms, us - {u});
      WatcherPass.PurgedMore(pods, cms, us - {u}, u);
      AnsweredPurge(pods1, cms1, u, pods', cms');
      assert us - {u} + {u} == us;
      WatcherPass.OneMorePurged({}, pods, cms, us - {u}, u, pods1, cms1, pods', cms');
    }
  }

  /** The outcome of a pass in which every request is answered is one that a pass may leave. */
  lemma AnsweredPass(s: WatcherPass.Stores)
    ensures WatcherPass.MayLeave(s, {}, WatcherPass.PassOutcome(s))
  {
    assert WatcherPass.PodsDeletable({}, Orphans(s.pods, s.cms)) == Orphans(s.pods, s.cms);
    assert WatcherPass.ConfigMapsDeletable({}, StaleConfigMaps(s.pods, s.cms)) == StaleConfigMaps(s.pods, s.cms);
    assert WatcherPass.JobsDeletable({}, ToCancel(s.jobs, s.pods, s.cms)) == ToCancel(s.jobs, s.pods, s.cms);
    PurgedInTurn(s.pods - Orphans(s.pods, s.cms), s.cms - StaleConfigMaps(s.pods, s.cms), ToPurge(s.jobs, s.pods, s.cms));
  }

  /** From any state, an answered pass that nothing interrupts is a sequence of protocol steps that ends in the outcome
      of the set specification. */
  lemma AnsweredPassFollowsTheProtocol(s: State) returns (steps: seq<Step>)
    requires s.watcher == Idle
    ensures Leads(s, steps, WithStores(s, WatcherPass.PassOutcome(StoresOf(s))), OfWatcher)
  {
    AnsweredPass(StoresOf(s));
    steps := PassFollowsTheProtocol(s, {}, WatcherPass.PassOutcome(StoresOf(s)));
  }
}
