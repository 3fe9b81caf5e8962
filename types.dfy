/** The entities of the Azure metrics provider and the state its two loops share. */
module AzureTypes {
  import opened Wrappers
  import WorkQueue

  /** A cluster snapshot as delivered by the discovery feed. */
  datatype Cluster = Cluster(
    technicalID: string,
    accountID: string,
    subAccountID: string,
    region: string,
    trial: bool,
    deleted: bool)

  /** VM type, then capability name, to capability value: the catalog of one region. */
  type VMCapabilities = map<string, map<string, string>>

  /** One entry of the provider's VM resource-SKU listing. */
  datatype Capability = Capability(name: string, value: string)
  datatype Sku = Sku(name: string, capabilities: seq<Capability>)

  /** Compute and network metrics as the provider client produces them; their fields are
      defined outside the modelled file, so they are carried as named samples. */
  datatype Compute = Compute(samples: map<string, int>)
  datatype Networking = Networking(samples: map<string, int>)

  datatype EventHub = EventHub(
    numberNamespaces: int,
    incomingRequestsPT1M: int,
    maxIncomingBytesPT1M: int,
    maxOutgoingBytesPT1M: int,
    incomingRequestsPT5M: int,
    maxIncomingBytesPT5M: int,
    maxOutgoingBytesPT5M: int)

  /** The event-hub data of a cluster without an event-hub resource group (trial accounts). */
  const ZeroEventHub := EventHub(0, 0, 0, 0, 0, 0, 0)

  /** The telemetry payload of one cycle. */
  datatype EventData = EventData(
    resourceGroups: seq<string>,
    compute: Compute,
    networking: Networking,
    eventHub: EventHub)

  /** The provider's per-cluster bookkeeping; the client handle it also holds is not modelled. */
  datatype Instance = Instance(
    cluster: Cluster,
    eventHubResourceGroupName: string,
    lastEvent: Option<EventData>,
    retryAttempts: int,
    retryBackoff: bool)

  /** What goes to the event sink: the tenant and the payload that was serialised. */
  datatype Event = Event(datatenant: string, data: EventData)

  /** An error of a provider call: an HTTP error with its status code and the text of the
      original error, or an error of any other kind. */
  datatype ApiError =
    | DetailedError(statusCode: int, original: string)
    | OtherError(message: string)

  const StatusNotFound := 404
  const StatusTooManyRequests := 429

  /** The error a cycle reports when it skips its fetch to release pressure on the API. */
  const SelfThrottleError := OtherError("client-side self-throttling, skip fetching metrics")

  /** Constants the provider reads that are declared outside the modelled file. */
  datatype Config = Config(maxRetryAttempts: int, resourceGroupNotFoundCode: string)

  /** A value of the untyped in-memory store: of the expected type, or of some other type. */
  datatype Entry<T> = Typed(value: T) | Corrupted

  /** Everything the intake and the workers share: the two stores, the queue, the events
      sent so far and the notifications scheduled for re-delivery. */
  datatype State = State(
    instances: map<string, Entry<Instance>>,
    vmCaps: map<string, Entry<VMCapabilities>>,
    queue: WorkQueue.Queue,
    sent: seq<Event>,
    redeliveries: seq<Cluster>)

  /** A freshly built provider: empty stores, an empty running queue, nothing sent. */
  const Initial := State(map[], map[], WorkQueue.Empty, [], [])

  /** Every instance in the store is filed under its own cluster's technical id. */
  predicate Keyed(instances: map<string, Entry<Instance>>) {
    forall k :: k in instances && instances[k].Typed? ==> instances[k].value.cluster.technicalID == k
  }
}
