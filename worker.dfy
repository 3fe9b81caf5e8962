/**
 * One cycle of a worker: take a cluster id from the queue, fetch or self-throttle, apply
 * the retry and back-off policy, send an event, write the instance back and re-queue.
 */
module Worker {
  import opened Wrappers
  import opened Strings
  import opened AzureTypes
  import opened Metrics
  import WorkQueue

  /** The capabilities a cycle passes to the compute fetch: the region's cached catalog, or
      an empty one when none is cached or the cached value has another type. */
  function ResolveCaps(vmCaps: map<string, Entry<VMCapabilities>>, region: string): VMCapabilities {
    if region in vmCaps && vmCaps[region].Typed? then vmCaps[region].value else map[]
  }

  /** A 404 whose original error names the missing resource group. */
  predicate IsResourceGroupNotFound(cfg: Config, err: ApiError) {
    err.DetailedError? && err.statusCode == StatusNotFound &&
    Contains(err.original, cfg.resourceGroupNotFoundCode)
  }

  /** A 429: the provider is throttling this client. */
  predicate IsRateLimited(err: ApiError) {
    err.DetailedError? && err.statusCode == StatusTooManyRequests
  }

  datatype Polled = Polled(instance: Instance, fetch: Fetch)

  /** A pending self-throttle is consumed instead of fetching; otherwise fetch. */
  function Poll(inst: Instance, vmcaps: VMCapabilities, out: FetchOutcomes): Polled {
    if inst.retryBackoff then Polled(inst.(retryBackoff := false), Fetch(Err(SelfThrottleError), []))
    else Polled(inst, GetMetrics(inst, vmcaps, out))
  }

  /** What a failed fetch does to the retry bookkeeping of the instance. */
  function Classify(cfg: Config, inst: Instance, err: ApiError): (r: Instance)
    ensures r.cluster == inst.cluster && r.lastEvent == inst.lastEvent
    ensures r.eventHubResourceGroupName == inst.eventHubResourceGroupName
    ensures r.retryAttempts ==
      if IsResourceGroupNotFound(cfg, err) then inst.retryAttempts + 1 else inst.retryAttempts
    ensures r.retryBackoff == (IsRateLimited(err) || inst.retryBackoff)
  {
    match err
    case DetailedError(status, original) =>
      if status == StatusNotFound then
        if Contains(original, cfg.resourceGroupNotFoundCode) then inst.(retryAttempts := inst.retryAttempts + 1)
        else inst
      else if status == StatusTooManyRequests then inst.(retryBackoff := true)
      else inst
    case OtherError(_) => inst
  }

  /** The store right after the not-found policy: a below-threshold instance is put back,
      one at the threshold is deleted; any other cycle leaves the store alone. */
  function AfterNotFoundPolicy(cfg: Config, instances: map<string, Entry<Instance>>, classified: Instance,
                               err: ApiError): map<string, Entry<Instance>>
  {
    if !IsResourceGroupNotFound(cfg, err) then instances
    else if classified.retryAttempts < cfg.maxRetryAttempts then
      instances[classified.cluster.technicalID := Typed(classified)]
    else instances - {classified.cluster.technicalID}
  }

  datatype Sent = Sent(instance: Instance, events: seq<Event>)

  /** Serialise and send one payload; a serialisation failure sends nothing and keeps the
      instance as it was. */
  function Send(inst: Instance, eventData: EventData, marshalOk: bool): Sent {
    if !marshalOk then Sent(inst, [])
    else Sent(inst.(lastEvent := Some(eventData)), [Event(inst.cluster.subAccountID, eventData)])
  }

  /** Fresh data on success; on failure the instance's last event, if it has one. */
  function Deliver(inst: Instance, fetch: Fetch, marshalOk: bool): Sent {
    var eventData := if fetch.result.Ok? then Some(fetch.result.value) else inst.lastEvent;
    if eventData.Some? then Send(inst, eventData.value, marshalOk) else Sent(inst, [])
  }

  /** The state after a cycle, and the provider calls the cycle made. */
  datatype Cycle = Cycle(state: State, calls: seq<SubFetch>)

  /** The cycle for an id a Get has just handed out. */
  function WorkerStep(cfg: Config, s: State, id: string, out: FetchOutcomes, marshalOk: bool): Cycle {
    if id !in s.instances then
      Cycle(s.(queue := WorkQueue.Done(s.queue, id)), [])
    else match s.instances[id]
      case Corrupted =>
        Cycle(s.(instances := s.instances - {id}, queue := WorkQueue.Done(s.queue, id)), [])
      case Typed(inst) => InstanceCycle(cfg, s, id, inst, out, marshalOk)
  }

  /** The cycle for an id whose stored instance is `inst`. */
  function InstanceCycle(cfg: Config, s: State, id: string, inst: Instance, out: FetchOutcomes, marshalOk: bool): Cycle {
    var p := Poll(inst, ResolveCaps(s.vmCaps, inst.cluster.region), out);
    var classified := if p.fetch.result.Err? then Classify(cfg, p.instance, p.fetch.result.error) else p.instance;
    var policyStore :=
      if p.fetch.result.Err? then AfterNotFoundPolicy(cfg, s.instances, classified, p.fetch.result.error)
      else s.instances;
    var d := Deliver(classified, p.fetch, marshalOk);
    Cycle(WriteBack(s, id, policyStore, d), p.fetch.calls)
  }

  /** The write-back, acknowledgement and re-queue that end every cycle on a stored instance. */
  function WriteBack(s: State, id: string, policyStore: map<string, Entry<Instance>>, d: Sent): State {
    var done := WorkQueue.Done(s.queue, id);
    State(policyStore[d.instance.cluster.technicalID := Typed(d.instance)],
          s.vmCaps,
          if !done.shuttingDown then WorkQueue.AddAfter(done, id) else done,
          s.sent + d.events,
          s.redeliveries)
  }

  /** The fetch a cycle on `inst` makes when it does not self-throttle. */
  function FetchOf(s: State, inst: Instance, out: FetchOutcomes): Fetch {
    GetMetrics(inst, ResolveCaps(s.vmCaps, inst.cluster.region), out)
  }

  /** Whether the cycle on `inst` fails: it self-throttles, or its fetch fails. */
  predicate CycleFails(s: State, inst: Instance, out: FetchOutcomes) {
    inst.retryBackoff || FetchOf(s, inst, out).result.Err?
  }

  // ---------------------------------------------------------------------------
  // Acknowledgement and re-queue
  // ---------------------------------------------------------------------------

  /** An id whose instance is gone is acknowledged, not re-queued, and nothing else changes. */
  lemma MissingInstanceAcknowledged(cfg: Config, s: State, id: string, out: FetchOutcomes, marshalOk: bool)
    requires id !in s.instances
    ensures WorkerStep(cfg, s, id, out, marshalOk) == Cycle(s.(queue := WorkQueue.Done(s.queue, id)), [])
  {
  }

  /** An entry of another type is deleted and its id acknowledged, not re-queued. */
  lemma CorruptedEntryRemoved(cfg: Config, s: State, id: string, out: FetchOutcomes, marshalOk: bool)
    requires id in s.instances && s.instances[id].Corrupted?
    ensures WorkerStep(cfg, s, id, out, marshalOk) ==
      Cycle(s.(instances := s.instances - {id}, queue := WorkQueue.Done(s.queue, id)), [])
  {
  }

  /** Otherwise the instance is written back under its id, no other entry changes, and the id
      waits for the next poll exactly when the queue is not shutting down. */
  lemma WrittenBackAndRequeued(cfg: Config, s: State, id: string, out: FetchOutcomes, marshalOk: bool)
    requires Keyed(s.instances) && WorkQueue.Valid(s.queue)
    requires id in s.instances && s.instances[id].Typed?
    ensures var s' := WorkerStep(cfg, s, id, out, marshalOk).state;
      && id in s'.instances && s'.instances[id].Typed?
      && s'.instances[id].value.cluster == s.instances[id].value.cluster
      && s'.instances[id].value.eventHubResourceGroupName == s.instances[id].value.eventHubResourceGroupName
      && s'.instances - {id} == s.instances - {id}
      && s'.queue == (if s.queue.shuttingDown then WorkQueue.Done(s.queue, id)
                      else WorkQueue.AddAfter(WorkQueue.Done(s.queue, id), id))
      && (id in s'.queue.waiting <==> !s.queue.shuttingDown)
      && id !in s'.queue.processing
  {
  }

  // ---------------------------------------------------------------------------
  // Self-throttle and the retry counters
  // ---------------------------------------------------------------------------

  /** A pending self-throttle makes no provider call, is cleared, and leaves the retry count
      alone; the cycle goes on as a failure: the cached last event, if any, is sent again and
      kept. */
  lemma SelfThrottleSingleShot(cfg: Config, s: State, id: string, out: FetchOutcomes, marshalOk: bool)
    requires Keyed(s.instances)
    requires id in s.instances && s.instances[id].Typed? && s.instances[id].value.retryBackoff
    ensures var c := WorkerStep(cfg, s, id, out, marshalOk);
      && c.calls == []
      && id in c.state.instances && c.state.instances[id].Typed?
      && !c.state.instances[id].value.retryBackoff
      && c.state.instances[id].value.retryAttempts == s.instances[id].value.retryAttempts
      && c.state.instances[id].value.lastEvent == s.instances[id].value.lastEvent
      && c.state.sent == s.sent + (
           var inst := s.instances[id].value;
           if inst.lastEvent.Some? && marshalOk then [Event(inst.cluster.subAccountID, inst.lastEvent.value)] else [])
  {
  }

  /** The back-off flag is set after a cycle exactly when that cycle fetched and the fetch met
      a 429; no other error sets it, and a set flag never survives a cycle. */
  lemma BackoffOnlyAfterRateLimit(cfg: Config, s: State, id: string, out: FetchOutcomes, marshalOk: bool)
    requires Keyed(s.instances)
    requires id in s.instances && s.instances[id].Typed?
    ensures var inst := s.instances[id].value;
      var s' := WorkerStep(cfg, s, id, out, marshalOk).state;
      && id in s'.instances && s'.instances[id].Typed?
      && (s'.instances[id].value.retryBackoff <==>
          !inst.retryBackoff && FetchOf(s, inst, out).result.Err? && IsRateLimited(FetchOf(s, inst, out).result.error))
  {
  }

  /** The retry count rises by one exactly when the fetch met a resource-group-not-found 404;
      a 429, any other 404 and any other error leave it as it was. */
  lemma AttemptsCountResourceGroupNotFound(cfg: Config, s: State, id: string, out: FetchOutcomes, marshalOk: bool)
    requires Keyed(s.instances)
    requires id in s.instances && s.instances[id].Typed?
    ensures var inst := s.instances[id].value;
      var s' := WorkerStep(cfg, s, id, out, marshalOk).state;
      var notFound := !inst.retryBackoff && FetchOf(s, inst, out).result.Err? &&
                      IsResourceGroupNotFound(cfg, FetchOf(s, inst, out).result.error);
      && id in s'.instances && s'.instances[id].Typed?
      && s'.instances[id].value.retryAttempts == inst.retryAttempts + (if notFound then 1 else 0)
  {
  }

  /** No cycle lowers the retry count. */
  lemma AttemptsNeverDecrease(cfg: Config, s: State, id: string, out: FetchOutcomes, marshalOk: bool)
    requires Keyed(s.instances)
    requires id in s.instances && s.instances[id].Typed?
    ensures var s' := WorkerStep(cfg, s, id, out, marshalOk).state;
      id in s'.instances && s'.instances[id].Typed? &&
      s'.instances[id].value.retryAttempts >= s.instances[id].value.retryAttempts
  {
    AttemptsCountResourceGroupNotFound(cfg, s, id, out, marshalOk);
  }

  /** Reaching the maximum number of attempts takes the Delete branch, yet the unconditional
      write-back stores the instance again and the id is re-queued: the cluster is not removed. */
  lemma MaxAttemptsStillStored(cfg: Config, s: State, id: string, out: FetchOutcomes, marshalOk: bool)
    requires Keyed(s.instances) && WorkQueue.Valid(s.queue)
    requires id in s.instances && s.instances[id].Typed?
    requires var inst := s.instances[id].value;
      && !inst.retryBackoff && FetchOf(s, inst, out).result.Err?
      && IsResourceGroupNotFound(cfg, FetchOf(s, inst, out).result.error)
      && inst.retryAttempts + 1 >= cfg.maxRetryAttempts
    ensures var inst := s.instances[id].value;
      var classified := Classify(cfg, inst, FetchOf(s, inst, out).result.error);
      var s' := WorkerStep(cfg, s, id, out, marshalOk).state;
      && id !in AfterNotFoundPolicy(cfg, s.instances, classified, FetchOf(s, inst, out).result.error)
      && id in s'.instances && s'.instances[id].Typed?
      && s'.instances[id].value.retryAttempts == inst.retryAttempts + 1
      && (id in s'.queue.waiting <==> !s.queue.shuttingDown)
  {
  }

  // ---------------------------------------------------------------------------
  // What is sent
  // ---------------------------------------------------------------------------

  /** On a failed cycle the last event, if any, is sent once more and stays the last event;
      without one nothing is sent. */
  lemma FallbackOnFailure(cfg: Config, s: State, id: string, out: FetchOutcomes, marshalOk: bool)
    requires Keyed(s.instances)
    requires id in s.instances && s.instances[id].Typed?
    requires CycleFails(s, s.instances[id].value, out)
    ensures var inst := s.instances[id].value;
      var s' := WorkerStep(cfg, s, id, out, marshalOk).state;
      && s'.sent == s.sent + (if inst.lastEvent.Some? && marshalOk
                              then [Event(inst.cluster.subAccountID, inst.lastEvent.value)] else [])
      && id in s'.instances && s'.instances[id].Typed?
      && s'.instances[id].value.lastEvent == inst.lastEvent
  {
  }

  /** On a successful fetch the fresh data is sent and becomes the last event; if it cannot be
      serialised nothing is sent and the last event stays as it was. */
  lemma FreshOnSuccess(cfg: Config, s: State, id: string, out: FetchOutcomes, marshalOk: bool)
    requires Keyed(s.instances)
    requires id in s.instances && s.instances[id].Typed?
    requires !CycleFails(s, s.instances[id].value, out)
    ensures var inst := s.instances[id].value;
      var data := FetchOf(s, inst, out).result.value;
      var s' := WorkerStep(cfg, s, id, out, marshalOk).state;
      && s'.sent == s.sent + (if marshalOk then [Event(inst.cluster.subAccountID, data)] else [])
      && id in s'.instances && s'.instances[id].Typed?
      && s'.instances[id].value.lastEvent == (if marshalOk then Some(data) else inst.lastEvent)
      && s'.instances[id].value.retryAttempts == inst.retryAttempts
      && !s'.instances[id].value.retryBackoff
  {
  }

  /** A cycle sends at most one event, only for a stored instance, tagged with its
      cluster's subaccount. */
  lemma EventsTaggedWithSubAccount(cfg: Config, s: State, id: string, out: FetchOutcomes, marshalOk: bool)
    ensures var s' := WorkerStep(cfg, s, id, out, marshalOk).state;
      && s.sent <= s'.sent && |s'.sent| <= |s.sent| + 1
      && (|s'.sent| > |s.sent| ==>
            id in s.instances && s.instances[id].Typed? &&
            s'.sent[|s.sent|].datatenant == s.instances[id].value.cluster.subAccountID)
  {
  }

  /** The compute fetch receives the region's cached catalog, or an empty one when none is cached. */
  lemma ComputeFetchUsesCachedCaps(cfg: Config, s: State, id: string, out: FetchOutcomes, marshalOk: bool)
    requires id in s.instances && s.instances[id].Typed? && !s.instances[id].value.retryBackoff
    ensures var region := s.instances[id].value.cluster.region;
      var calls := WorkerStep(cfg, s, id, out, marshalOk).calls;
      && |calls| > 0
      && calls[0] == ComputeFetch(if region in s.vmCaps && s.vmCaps[region].Typed? then s.vmCaps[region].value
                                  else map[])
  {
  }

  /** A cycle keeps the store keyed and the queue valid, and touches neither the capability
      cache nor the pending re-deliveries. */
  lemma WorkerPreservesInvariants(cfg: Config, s: State, id: string, out: FetchOutcomes, marshalOk: bool)
    ensures var s' := WorkerStep(cfg, s, id, out, marshalOk).state;
      && (Keyed(s.instances) ==> Keyed(s'.instances))
      && (WorkQueue.Valid(s.queue) ==> WorkQueue.Valid(s'.queue))
      && s'.vmCaps == s.vmCaps && s'.redeliveries == s.redeliveries
  {
  }

  /** The poll interval of a re-queued id ends (the queue's timer fires) and a worker takes
      the id again with Get. */
  function NextPoll(s: State, id: string): (r: State)
    requires WorkQueue.Valid(s.queue) && id in s.queue.waiting && id !in s.queue.processing
    ensures r.instances == s.instances && r.vmCaps == s.vmCaps
    ensures WorkQueue.Valid(r.queue) && r.queue.shuttingDown == s.queue.shuttingDown
    ensures id in r.queue.processing && id !in r.queue.waiting && id !in r.queue.dirty
  {
    s.(queue := WorkQueue.Get(WorkQueue.Fire(s.queue, id), id))
  }

  /** A cycle on a stored instance, while the queue runs, leaves the id waiting and not owned,
      so the end of the poll interval hands it to a worker again. */
  lemma PolledAgainAfterInterval(cfg: Config, s: State, id: string, out: FetchOutcomes, marshalOk: bool)
    requires Keyed(s.instances) && WorkQueue.Valid(s.queue) && !s.queue.shuttingDown
    requires id in s.instances && s.instances[id].Typed?
    ensures var s' := WorkerStep(cfg, s, id, out, marshalOk).state;
      && Keyed(s'.instances) && WorkQueue.Valid(s'.queue) && !s'.queue.shuttingDown
      && id in s'.queue.waiting && id !in s'.queue.processing
      && id in s'.instances && s'.instances[id].Typed?
  {
    WrittenBackAndRequeued(cfg, s, id, out, marshalOk);
    WorkerPreservesInvariants(cfg, s, id, out, marshalOk);
  }

  /** A 429 on one cycle makes the next poll of the id call nothing, and the poll after that
      fetch again. */
  lemma RateLimitAlternates(cfg: Config, s0: State, id: string, out1: FetchOutcomes, out2: FetchOutcomes,
                            out3: FetchOutcomes, marshalOk: bool)
    requires Keyed(s0.instances) && WorkQueue.Valid(s0.queue) && !s0.queue.shuttingDown
    requires id in s0.instances && s0.instances[id].Typed?
    requires var inst := s0.instances[id].value;
      !inst.retryBackoff && FetchOf(s0, inst, out1).result.Err? && IsRateLimited(FetchOf(s0, inst, out1).result.error)
    ensures var s1 := WorkerStep(cfg, s0, id, out1, marshalOk).state;
      && WorkQueue.Valid(s1.queue) && id in s1.queue.waiting && id !in s1.queue.processing
      && var c2 := WorkerStep(cfg, NextPoll(s1, id), id, out2, marshalOk);
      && WorkQueue.Valid(c2.state.queue) && id in c2.state.queue.waiting && id !in c2.state.queue.processing
      && var c3 := WorkerStep(cfg, NextPoll(c2.state, id), id, out3, marshalOk);
      && c2.calls == [] && |c3.calls| > 0 && c3.calls[0].ComputeFetch?
  {
    var s1 := WorkerStep(cfg, s0, id, out1, marshalOk).state;
    BackoffOnlyAfterRateLimit(cfg, s0, id, out1, marshalOk);
    PolledAgainAfterInterval(cfg, s0, id, out1, marshalOk);
    var p1 := NextPoll(s1, id);
    SelfThrottleSingleShot(cfg, p1, id, out2, marshalOk);
    PolledAgainAfterInterval(cfg, p1, id, out2, marshalOk);
    var s2 := WorkerStep(cfg, p1, id, out2, marshalOk).state;
    ComputeFetchUsesCachedCaps(cfg, NextPoll(s2, id), id, out3, marshalOk);
  }
}
