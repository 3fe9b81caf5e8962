/**
 * The cluster intake: one notification of the discovery feed upserts or removes an
 * instance, resolves its event-hub resource group, primes the region's capability cache
 * and admits the cluster to the queue.
 */
module Intake {
  import opened Wrappers
  import opened AzureTypes
  import opened Capabilities
  import WorkQueue

  /** What the provider answers during one notification: whether a client could be built,
      the resource-group lookup, and the SKU listing of the region. */
  datatype IntakeOutcomes = IntakeOutcomes(
    clientOk: bool,
    resourceGroup: Result<string, ApiError>,
    skus: Result<seq<Sku>, ApiError>)

  datatype Notification = Notification(cluster: Cluster, outcomes: IntakeOutcomes)

  /** The fresh instance for a notification, carrying over what the stored one knew. */
  function Recover(instances: map<string, Entry<Instance>>, c: Cluster): (r: Instance)
    ensures r.cluster == c && r.retryAttempts == 0 && !r.retryBackoff
    ensures c.technicalID in instances && instances[c.technicalID].Typed? ==>
      r.lastEvent == instances[c.technicalID].value.lastEvent &&
      r.eventHubResourceGroupName == instances[c.technicalID].value.eventHubResourceGroupName
    ensures !(c.technicalID in instances && instances[c.technicalID].Typed?) ==>
      r.lastEvent == None && r.eventHubResourceGroupName == ""
  {
    var blank := Instance(c, "", None, 0, false);
    if c.technicalID in instances && instances[c.technicalID].Typed? then
      var i := instances[c.technicalID].value;
      blank.(lastEvent := i.lastEvent, eventHubResourceGroupName := i.eventHubResourceGroupName)
    else blank
  }

  /** Prime the capability cache of a region on first sighting, and only with a non-empty catalog. */
  function PrimeCaps(vmCaps: map<string, Entry<VMCapabilities>>, region: string,
                     skus: Result<seq<Sku>, ApiError>): (r: map<string, Entry<VMCapabilities>>)
    ensures region in vmCaps ==> r == vmCaps
    ensures region !in vmCaps ==>
      r == if skus.Ok? && |skus.value| > 0 then vmCaps[region := Typed(CapsOf(skus.value))] else vmCaps
  {
    if region in vmCaps then vmCaps
    else
      var vmcaps := if skus.Ok? then CapsOf(skus.value) else map[];
      assert skus.Ok? ==> (|vmcaps| > 0 <==> |skus.value| > 0) by {
        if skus.Ok? { CapsOfNonEmpty(skus.value); }
      }
      if |vmcaps| > 0 then vmCaps[region := Typed(vmcaps)] else vmCaps
  }

  /** The notification passes all checks and the cluster reaches the queue. */
  predicate Admitted(s: State, c: Cluster, o: IntakeOutcomes) {
    !c.deleted && o.clientOk &&
    (Recover(s.instances, c).eventHubResourceGroupName != "" || o.resourceGroup.Ok? || c.trial)
  }

  /** The event-hub resource group an admitted cluster ends up with. */
  function ResolvedGroup(s: State, c: Cluster, o: IntakeOutcomes): string {
    var known := Recover(s.instances, c).eventHubResourceGroupName;
    if known != "" then known else if o.resourceGroup.Ok? then o.resourceGroup.value else ""
  }

  function IntakeStep(s: State, c: Cluster, o: IntakeOutcomes): State {
    if c.deleted then s.(instances := s.instances - {c.technicalID})
    else
      var recovered := Recover(s.instances, c);
      if !o.clientOk then s.(instances := s.instances - {c.technicalID})
      else if recovered.eventHubResourceGroupName == "" && o.resourceGroup.Err? && !c.trial then
        s.(redeliveries := s.redeliveries + [c])
      else
        var inst :=
          if recovered.eventHubResourceGroupName == "" && o.resourceGroup.Ok?
          then recovered.(eventHubResourceGroupName := o.resourceGroup.value)
          else recovered;
        s.(instances := s.instances[c.technicalID := Typed(inst)],
           vmCaps := PrimeCaps(s.vmCaps, c.region, o.skus),
           queue := WorkQueue.Add(s.queue, c.technicalID))
  }

  /** The feed processed in arrival order. */
  function IntakeAll(s: State, feed: seq<Notification>): State
    decreases |feed|
  {
    if feed == [] then s
    else
      var n := feed[|feed| - 1];
      IntakeStep(IntakeAll(s, feed[..|feed| - 1]), n.cluster, n.outcomes)
  }

  // ---------------------------------------------------------------------------
  // Upsert and delete
  // ---------------------------------------------------------------------------

  /** A deletion removes the entry (nothing if there is none) and never touches the queue. */
  lemma DeletedNotification(s: State, c: Cluster, o: IntakeOutcomes)
    requires c.deleted
    ensures IntakeStep(s, c, o) == s.(instances := s.instances - {c.technicalID})
    ensures c.technicalID !in IntakeStep(s, c, o).instances
  {
  }

  /** A cluster for which no client can be built is removed and not admitted. */
  lemma ClientFailureDrops(s: State, c: Cluster, o: IntakeOutcomes)
    requires !c.deleted && !o.clientOk
    ensures IntakeStep(s, c, o) == s.(instances := s.instances - {c.technicalID})
  {
  }

  /** An admitted cluster is stored with the stored last event and resource group carried
      over, fresh retry counters, and admitted to the queue once. */
  lemma UpsertCarriesForward(s: State, c: Cluster, o: IntakeOutcomes)
    requires Admitted(s, c, o)
    ensures var id := c.technicalID;
      var prev := if id in s.instances && s.instances[id].Typed? then Some(s.instances[id].value) else None;
      var r := IntakeStep(s, c, o);
      && r.instances == s.instances[id := Typed(Instance(
           c, ResolvedGroup(s, c, o), if prev.Some? then prev.value.lastEvent else None, 0, false))]
      && (prev.Some? && prev.value.eventHubResourceGroupName != "" ==>
            ResolvedGroup(s, c, o) == prev.value.eventHubResourceGroupName)
      && r.queue == WorkQueue.Add(s.queue, id)
      && r.sent == s.sent && r.redeliveries == s.redeliveries
  {
  }

  /** A non-trial cluster whose resource group cannot be found yet changes nothing but is
      scheduled for re-delivery. */
  lemma LookupFailureRedelivers(s: State, c: Cluster, o: IntakeOutcomes)
    requires !c.deleted && o.clientOk && !c.trial && o.resourceGroup.Err?
    requires Recover(s.instances, c).eventHubResourceGroupName == ""
    ensures IntakeStep(s, c, o) == s.(redeliveries := s.redeliveries + [c])
  {
  }

  /** A trial cluster goes on without an event-hub resource group. */
  lemma TrialProceedsWithoutGroup(s: State, c: Cluster, o: IntakeOutcomes)
    requires !c.deleted && o.clientOk && c.trial && o.resourceGroup.Err?
    requires Recover(s.instances, c).eventHubResourceGroupName == ""
    ensures var r := IntakeStep(s, c, o);
      && c.technicalID in r.instances && r.instances[c.technicalID].Typed?
      && r.instances[c.technicalID].value.eventHubResourceGroupName == ""
      && r.queue == WorkQueue.Add(s.queue, c.technicalID)
  {
  }

  /** Only the notified cluster's entry can change. */
  lemma IntakeTouchesOwnEntryOnly(s: State, c: Cluster, o: IntakeOutcomes, k: string)
    requires k != c.technicalID
    ensures var r := IntakeStep(s, c, o);
      (k in r.instances <==> k in s.instances) && (k in s.instances ==> r.instances[k] == s.instances[k])
  {
  }

  // ---------------------------------------------------------------------------
  // The capability cache
  // ---------------------------------------------------------------------------

  /** The region is cached only by an admitted notification, only on first sighting and only
      with a non-empty listing; a cached region is never overwritten. */
  lemma CapsCachedOnceAndNonEmpty(s: State, c: Cluster, o: IntakeOutcomes)
    ensures var r := IntakeStep(s, c, o);
      r.vmCaps == if c.region !in s.vmCaps && Admitted(s, c, o) && o.skus.Ok? && |o.skus.value| > 0
                  then s.vmCaps[c.region := Typed(CapsOf(o.skus.value))]
                  else s.vmCaps
  {
  }

  /** The capability cache only grows: no region is overwritten or dropped, and every new
      region holds a non-empty catalog. */
  lemma CapsCacheAppendOnly(s: State, c: Cluster, o: IntakeOutcomes)
    ensures var r := IntakeStep(s, c, o);
      && (forall g :: g in s.vmCaps ==> g in r.vmCaps && r.vmCaps[g] == s.vmCaps[g])
      && (forall g :: g in r.vmCaps && g !in s.vmCaps ==> r.vmCaps[g].Typed? && |r.vmCaps[g].value| > 0)
  {
    CapsCachedOnceAndNonEmpty(s, c, o);
    if o.skus.Ok? {
      CapsOfNonEmpty(o.skus.value);
    }
  }

  /** A notification keeps the store keyed and the queue valid, and sends nothing. */
  lemma IntakePreservesInvariants(s: State, c: Cluster, o: IntakeOutcomes)
    ensures var r := IntakeStep(s, c, o);
      && (Keyed(s.instances) ==> Keyed(r.instances))
      && (WorkQueue.Valid(s.queue) ==> WorkQueue.Valid(r.queue))
      && r.sent == s.sent
  {
  }

  // ---------------------------------------------------------------------------
  // Redelivery tolerance
  // ---------------------------------------------------------------------------

  /** Delivering the same notification twice has the effect of delivering it once, unless
      it is one that waits for its resource group. */
  lemma IntakeIdempotent(s: State, c: Cluster, o: IntakeOutcomes)
    requires c.deleted || !o.clientOk || Admitted(s, c, o)
    ensures IntakeStep(IntakeStep(s, c, o), c, o) == IntakeStep(s, c, o)
  {
    if Admitted(s, c, o) {
      var r := IntakeStep(s, c, o);
      assert Admitted(r, c, o);
      if c.region !in s.vmCaps && o.skus.Ok? {
        CapsOfNonEmpty(o.skus.value);
      }
    }
  }

  /** A notification that is admitted whatever the store holds. */
  predicate AlwaysAdmits(n: Notification) {
    !n.cluster.deleted && n.outcomes.clientOk && (n.outcomes.resourceGroup.Ok? || n.cluster.trial)
  }

  /** After a feed, a cluster's entry is decided by the last notification about it: absent
      after a deletion or a notification for which no client could be built, present with
      that snapshot after an admission. */
  lemma {:induction false} LastNotificationDecides(s: State, feed: seq<Notification>, k: int)
    requires 0 <= k < |feed|
    requires forall j :: k < j < |feed| ==> feed[j].cluster.technicalID != feed[k].cluster.technicalID
    ensures var id := feed[k].cluster.technicalID;
      var r := IntakeAll(s, feed);
      && (feed[k].cluster.deleted ==> id !in r.instances)
      && (!feed[k].outcomes.clientOk ==> id !in r.instances)
      && (AlwaysAdmits(feed[k]) ==>
            id in r.instances && r.instances[id].Typed? && r.instances[id].value.cluster == feed[k].cluster)
  {
    var id := feed[k].cluster.technicalID;
    var init := feed[..|feed| - 1];
    var n := feed[|feed| - 1];
    if k == |feed| - 1 {
      assert IntakeAll(s, feed) == IntakeStep(IntakeAll(s, init), n.cluster, n.outcomes);
    } else {
      assert init[k] == feed[k];
      LastNotificationDecides(s, init, k);
      IntakeTouchesOwnEntryOnly(IntakeAll(s, init), n.cluster, n.outcomes, id);
    }
  }
}
