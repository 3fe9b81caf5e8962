/**
 * The Azure provider object: the two stores, the queue and the event sink it updates in
 * place, with the worker cycle and the intake step as methods. Each method is proved to
 * take the abstract state exactly as the corresponding step function does.
 */
module AzureProvider {
  import opened Wrappers
  import opened Strings
  import opened AzureTypes
  import opened Metrics
  import opened Capabilities
  import WorkQueue
  import Worker
  import Intake

  class Azure {
    const config: Config
    var instanceStorage: map<string, Entry<Instance>>
    var vmCapsStorage: map<string, Entry<VMCapabilities>>
    var queue: WorkQueue.Queue
    /** Everything written to the events channel, in order. */
    var events: seq<Event>
    /** Notifications scheduled to be delivered to the intake again after the poll interval. */
    var redeliveries: seq<Cluster>

    function Snapshot(): State
      reads this
    {
      State(instanceStorage, vmCapsStorage, queue, events, redeliveries)
    }

    ghost predicate Valid()
      reads this
    {
      Keyed(instanceStorage) && WorkQueue.Valid(queue)
    }

    /** A new provider: empty stores and an empty running queue. */
    constructor (config: Config)
      ensures Valid() && this.config == config && Snapshot() == Initial
    {
      this.config := config;
      instanceStorage := map[];
      vmCapsStorage := map[];
      queue := WorkQueue.Empty;
      events := [];
      redeliveries := [];
    }

    /** Serialise a payload and send it tagged with the cluster's subaccount; the payload
        becomes the instance's last event. A serialisation failure sends nothing. */
    method SendMetrics(instance: Instance, eventData: EventData, marshalOk: bool) returns (updated: Instance, ok: bool)
      modifies this`events
      ensures ok == marshalOk
      ensures ok ==> events == old(events) + [Event(instance.cluster.subAccountID, eventData)]
      ensures ok ==> updated == instance.(lastEvent := Some(eventData))
      ensures !ok ==> events == old(events) && updated == instance
    {
      if !marshalOk {
        return instance, false;
      }
      updated := instance.(lastEvent := Some(eventData));
      events := events + [Event(instance.cluster.subAccountID, eventData)];
      ok := true;
    }

    /** One pass of the worker loop: Get an id (the queue's choice is `pick`) or quit, then
        process it. `out` is what the provider answers, `marshalOk` whether serialisation works. */
    method WorkerCycle(pick: string, out: FetchOutcomes, marshalOk: bool) returns (quit: bool, calls: seq<SubFetch>)
      requires Valid()
      requires WorkQueue.Quit(queue) || pick in WorkQueue.Ready(queue)
      modifies this
      ensures Valid()
      ensures quit == WorkQueue.Quit(old(queue))
      ensures quit ==> Snapshot() == old(Snapshot()) && calls == []
      ensures !quit ==> (Worker.Cycle(Snapshot(), calls) ==
        Worker.WorkerStep(config, old(Snapshot()).(queue := WorkQueue.Get(old(queue), pick)), pick, out, marshalOk))
    {
      calls := [];
      quit := WorkQueue.Quit(queue);
      if quit {
        return;
      }
      queue := WorkQueue.Get(queue, pick);
      calls := ProcessItem(pick, out, marshalOk);
    }

    /** The body of the worker loop for an id the queue has handed out. */
    method ProcessItem(clusterid: string, out: FetchOutcomes, marshalOk: bool) returns (calls: seq<SubFetch>)
      requires Valid()
      modifies this
      ensures Valid()
      ensures Worker.Cycle(Snapshot(), calls) == Worker.WorkerStep(config, old(Snapshot()), clusterid, out, marshalOk)
    {
      Worker.WorkerPreservesInvariants(config, Snapshot(), clusterid, out, marshalOk);
      calls := [];
      if clusterid !in instanceStorage {
        queue := WorkQueue.Done(queue, clusterid);
        return;
      }
      var obj := instanceStorage[clusterid];
      if obj.Corrupted? {
        instanceStorage := instanceStorage - {clusterid};
        queue := WorkQueue.Done(queue, clusterid);
        return;
      }
      calls := ProcessInstance(clusterid, obj.value, out, marshalOk);
    }

    /** The worker loop body from the moment the stored instance is known. */
    method ProcessInstance(clusterid: string, stored: Instance, out: FetchOutcomes, marshalOk: bool)
      returns (calls: seq<SubFetch>)
      modifies this
      ensures Worker.Cycle(Snapshot(), calls) ==
        Worker.InstanceCycle(config, old(Snapshot()), clusterid, stored, out, marshalOk)
    {
      ghost var s0 := Snapshot();
      var vmcaps := RegionCapabilities(stored.cluster.region);
      var instance, fetch := PollInstance(stored, vmcaps, out);
      calls := fetch.calls;
      if fetch.result.Err? {
        instance := ApplyErrorPolicy(instance, fetch.result.error);
      }
      ghost var policyStore := instanceStorage;
      ghost var d := Worker.Deliver(instance, fetch, marshalOk);
      instance := DeliverEvent(instance, fetch, marshalOk);

      // save changes to the store, acknowledge, and re-queue unless shutting down
      instanceStorage := instanceStorage[instance.cluster.technicalID := Typed(instance)];
      queue := WorkQueue.Done(queue, clusterid);
      if !queue.shuttingDown {
        queue := WorkQueue.AddAfter(queue, clusterid);
      }
      assert Snapshot() == Worker.WriteBack(s0, clusterid, policyStore, d);
    }

    /** Skip the fetch once when self-throttling, clearing the flag; fetch otherwise. */
    method PollInstance(stored: Instance, vmcaps: VMCapabilities, out: FetchOutcomes)
      returns (instance: Instance, fetch: Fetch)
      ensures stored.retryBackoff ==>
        instance == stored.(retryBackoff := false) && fetch == Fetch(Err(SelfThrottleError), [])
      ensures !stored.retryBackoff ==> instance == stored && fetch == GetMetrics(stored, vmcaps, out)
    {
      instance := stored;
      if instance.retryBackoff {
        instance := instance.(retryBackoff := false);
        fetch := Fetch(Err(SelfThrottleError), []);
      } else {
        fetch := GetMetrics(instance, vmcaps, out);
      }
    }

    /** Send the fresh data, or after a failure the cached last event if there is one. */
    method DeliverEvent(instance: Instance, fetch: Fetch, marshalOk: bool) returns (updated: Instance)
      modifies this`events
      ensures updated == Worker.Deliver(instance, fetch, marshalOk).instance
      ensures events == old(events) + Worker.Deliver(instance, fetch, marshalOk).events
    {
      var eventData: Option<EventData> := if fetch.result.Ok? then Some(fetch.result.value) else None;
      if fetch.result.Err? && instance.lastEvent.Some? {
        eventData := instance.lastEvent;
      }
      updated := instance;
      if eventData.Some? {
        var sent;
        updated, sent := SendMetrics(instance, eventData.value, marshalOk);
      }
    }

    /** The capabilities cached for a region, or an empty catalog when there are none of the
        expected type. */
    method RegionCapabilities(region: string) returns (vmcaps: VMCapabilities)
      ensures region in vmCapsStorage && vmCapsStorage[region].Typed? ==> vmcaps == vmCapsStorage[region].value
      ensures !(region in vmCapsStorage && vmCapsStorage[region].Typed?) ==> vmcaps == map[]
    {
      vmcaps := map[];
      if region in vmCapsStorage && vmCapsStorage[region].Typed? {
        vmcaps := vmCapsStorage[region].value;
      }
    }

    /** The retry and back-off policy for a failed fetch. */
    method ApplyErrorPolicy(instance: Instance, err: ApiError) returns (updated: Instance)
      modifies this`instanceStorage
      ensures updated == Worker.Classify(config, instance, err)
      ensures instanceStorage == Worker.AfterNotFoundPolicy(config, old(instanceStorage), updated, err)
    {
      updated := instance;
      match err {
        case DetailedError(status, original) =>
          if status == StatusNotFound {
            if Contains(original, config.resourceGroupNotFoundCode) {
              updated := updated.(retryAttempts := updated.retryAttempts + 1);
              if updated.retryAttempts < config.maxRetryAttempts {
                instanceStorage := instanceStorage[updated.cluster.technicalID := Typed(updated)];
              } else {
                instanceStorage := instanceStorage - {updated.cluster.technicalID};
              }
            }
          } else if status == StatusTooManyRequests {
            updated := updated.(retryBackoff := true);
          }
        case OtherError(_) =>
      }
    }

    /** The intake's handling of one notification. `clientOk`, `resourceGroup` and `skus` are
        what building the client, the resource-group lookup and the SKU listing give. */
    method HandleCluster(cluster: Cluster, clientOk: bool, resourceGroup: Result<string, ApiError>,
                         skus: Result<seq<Sku>, ApiError>)
      requires Valid()
      modifies this
      ensures Valid()
      ensures Snapshot() == Intake.IntakeStep(old(Snapshot()), cluster, Intake.IntakeOutcomes(clientOk, resourceGroup, skus))
    {
      Intake.IntakePreservesInvariants(Snapshot(), cluster, Intake.IntakeOutcomes(clientOk, resourceGroup, skus));
      if cluster.deleted {
        instanceStorage := instanceStorage - {cluster.technicalID};
        return;
      }

      var instance := Instance(cluster, "", None, 0, false);
      if cluster.technicalID in instanceStorage && instanceStorage[cluster.technicalID].Typed? {
        var i := instanceStorage[cluster.technicalID].value;
        instance := instance.(lastEvent := i.lastEvent, eventHubResourceGroupName := i.eventHubResourceGroupName);
      }

      if !clientOk {
        instanceStorage := instanceStorage - {cluster.technicalID};
        return;
      }

      if instance.eventHubResourceGroupName == "" {
        match resourceGroup {
          case Err(_) =>
            if !cluster.trial {
              redeliveries := redeliveries + [cluster];
              return;
            }
          case Ok(name) =>
            instance := instance.(eventHubResourceGroupName := name);
        }
      }

      instanceStorage := instanceStorage[cluster.technicalID := Typed(instance)];

      PrimeRegion(cluster.region, skus);

      queue := WorkQueue.Add(queue, cluster.technicalID);
    }

    /** Initialise the capability cache of a region not seen before, if its listing is non-empty. */
    method PrimeRegion(region: string, skus: Result<seq<Sku>, ApiError>)
      modifies this`vmCapsStorage
      ensures vmCapsStorage == Intake.PrimeCaps(old(vmCapsStorage), region, skus)
    {
      if region !in vmCapsStorage {
        var vmcaps: VMCapabilities := map[];
        if skus.Ok? {
          vmcaps := CollectCapabilities(skus.value);
        }
        if |vmcaps| > 0 {
          vmCapsStorage := vmCapsStorage[region := Typed(vmcaps)];
        }
      }
    }

    /** Cancellation reaches the intake: it shuts the queue down and stops. */
    method Stop()
      requires Valid()
      modifies this`queue
      ensures Valid()
      ensures queue == WorkQueue.ShutDown(old(queue))
    {
      queue := WorkQueue.ShutDown(queue);
    }
  }
}
