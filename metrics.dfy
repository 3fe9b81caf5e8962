/** getMetrics: one fetch of a cluster's metrics from the provider, failing fast. */
module Metrics {
  import opened Wrappers
  import opened AzureTypes

  /** The provider calls a fetch makes, in the order it makes them. */
  datatype SubFetch = ComputeFetch(vmcaps: VMCapabilities) | NetworkFetch | EventHubFetch

  /** What the provider client answers to each of the three calls of a fetch. */
  datatype FetchOutcomes = FetchOutcomes(
    compute: Result<Compute, ApiError>,
    network: Result<Networking, ApiError>,
    eventHub: Result<EventHub, ApiError>)

  /** The result of a fetch and the calls it made. */
  datatype Fetch = Fetch(result: Result<EventData, ApiError>, calls: seq<SubFetch>)

  function GetMetrics(inst: Instance, vmcaps: VMCapabilities, out: FetchOutcomes): (f: Fetch)
    // fail fast: data only when every call that was made succeeded
    ensures f.result.Ok? <==>
      out.compute.Ok? && out.network.Ok? && (inst.eventHubResourceGroupName == "" || out.eventHub.Ok?)
    // and the error is that of the first call that failed
    ensures f.result.Err? ==> (f.result.error ==
      if out.compute.Err? then out.compute.error
      else if out.network.Err? then out.network.error
      else out.eventHub.error)
    ensures f.result.Ok? ==> (f.result.value.resourceGroups ==
      [inst.cluster.technicalID] +
      (if inst.eventHubResourceGroupName != "" then [inst.eventHubResourceGroupName] else []))
    ensures f.result.Ok? ==>
      f.result.value.compute == out.compute.value && f.result.value.networking == out.network.value
    ensures f.result.Ok? ==> (f.result.value.eventHub ==
      if inst.eventHubResourceGroupName == "" then ZeroEventHub else out.eventHub.value)
    // the compute call, with the given capabilities, comes first; each later call is made
    // once, in order, and only after every earlier one succeeded
    ensures f.calls == [ComputeFetch(vmcaps)]
      + (if out.compute.Ok? then [NetworkFetch] else [])
      + (if inst.eventHubResourceGroupName != "" && out.compute.Ok? && out.network.Ok? then [EventHubFetch] else [])
  {
    var computeCalls := [ComputeFetch(vmcaps)];
    match out.compute
    case Err(e) => Fetch(Err(e), computeCalls)
    case Ok(computeData) =>
      var networkCalls := computeCalls + [NetworkFetch];
      match out.network
      case Err(e) => Fetch(Err(e), networkCalls)
      case Ok(networkData) =>
        var eventData := EventData([inst.cluster.technicalID], computeData, networkData, ZeroEventHub);
        if |inst.eventHubResourceGroupName| > 0 then
          var eventHubCalls := networkCalls + [EventHubFetch];
          match out.eventHub
          case Err(e) => Fetch(Err(e), eventHubCalls)
          case Ok(eventhubData) =>
            Fetch(Ok(eventData.(resourceGroups := eventData.resourceGroups + [inst.eventHubResourceGroupName],
                                eventHub := eventhubData)),
                  eventHubCalls)
        else
          Fetch(Ok(eventData), networkCalls)
  }
}
