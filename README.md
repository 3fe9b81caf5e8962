# Azure metrics provider of metris, modelled in Dafny

The Azure provider of metris (`components/metris/internal/provider/azure/azure.go`) collects
compute, network and event-hub usage for every managed cluster that the discovery feed
reports, and sends one telemetry event per cluster and poll to the event sink. Two loops share
its state: the **cluster intake** (`clusterHandler`), which upserts or removes instances,
resolves a cluster's event-hub resource group, primes the per-region VM-capability cache and
admits the cluster id to the work queue; and the **workers**, which take an id from the queue,
fetch its metrics (or skip the fetch once after a rate limit), apply the retry policy, send the
fresh or the cached event, write the instance back and re-queue the id after the poll interval.

The model keeps that structure:

- `AzureTypes` (types.dfy): clusters, instances, event data, events, provider errors, the
  untyped store entry (`Typed` or `Corrupted`) and the shared `State`.
- `WorkQueue` (queue.dfy): the delaying, de-duplicating queue as sets of ids (admitted,
  handed out, waiting for a delay) and a shutdown flag, with Add, AddAfter, Get, Done and
  ShutDown.
- `Metrics` (metrics.dfy): `getMetrics` as a pure function over the provider's answers,
  recording which provider calls it makes.
- `Capabilities` (capabilities.dfy): the nested loop that turns a SKU listing into a
  capability catalog, proved against a fold over the listing.
- `Worker` (worker.dfy) and `Intake` (intake.dfy): one worker cycle and one intake
  notification as step functions over `State`, with the lemmas that state the provider's rules.
- `AzureProvider` (provider.dfy): the class `Azure` whose fields are updated in place, as in
  the source; its `WorkerCycle` and `HandleCluster` methods are proved to change the state
  exactly as the step functions say, and to keep the store keyed and the queue valid.
- `Scenarios` (scenarios.dfy): end-to-end runs from a fresh provider: a new cluster admitted
  and then polled, and an unknown cluster deleted.

Provider calls whose code is not part of this model are inputs: whether a client can be
built, the resource-group lookup, the SKU listing, the three metric fetches (`FetchOutcomes`)
and whether serialisation succeeds. An event is represented by its tenant and the payload it
serialises.

Two behaviours of the code are easy to misread, and the model states them as the code has them:

- The comment at `azure.go:138` says a cluster is removed from storage once it reaches the
  maximum number of resource-group-not-found attempts, and the one at line 180 that the id is
  re-queued only if the cluster is still in storage. The code deletes the instance at line 147,
  but the unconditional write-back at line 176 stores it again and line 183 re-queues the id;
  `Worker.MaxAttemptsStillStored` proves this, and the count keeps rising on later cycles.
- A notification does not always decide the cluster's entry. When a non-trial cluster has no
  known resource group and the lookup fails (`azure.go:242-247`), the handler schedules a
  re-delivery and skips the notification, so the entry stored earlier stays untouched. For
  that reason `Intake.LastNotificationDecides` speaks only of deletions, of client failures
  and of notifications that are always admitted.

## Model

| member | source | states |
|---|---|---|
| Metrics.GetMetrics | components/metris/internal/provider/azure/azure.go:308-344 | data exactly when every call made succeeded; the error of the first failing call; resource groups are the technical id, plus the event-hub group only when its name is non-empty; event-hub data all zeros without a group; the calls are exactly compute (with the given capabilities), then network if compute succeeded, then event hub if the group is non-empty and both succeeded |
| Strings.Contains | components/metris/internal/provider/azure/azure.go:140 | the substring test of the not-found check; its meaning is stated by `Strings.ContainsIffOccurs` |
| Strings.ContainsIffOccurs | components/metris/internal/provider/azure/azure.go:140 | the substring test is true exactly when the code occurs at some offset of the original error text |
| Worker.ResolveCaps | components/metris/internal/provider/azure/azure.go:107-115 | the capability catalog a cycle passes to the compute fetch; `Worker.ComputeFetchUsesCachedCaps` and `AzureProvider.Azure.RegionCapabilities` state it |
| Worker.Poll | components/metris/internal/provider/azure/azure.go:122-128 | skip the fetch once with the self-throttling error, or fetch; `Worker.SelfThrottleSingleShot`, `Worker.BackoffOnlyAfterRateLimit` and `AzureProvider.Azure.PollInstance` state it |
| Worker.Classify | components/metris/internal/provider/azure/azure.go:130-158 | a resource-group-not-found 404 raises the retry count by one and nothing else does; a 429 sets the back-off flag and no other error does; cluster, last event and resource group unchanged |
| Worker.AfterNotFoundPolicy | components/metris/internal/provider/azure/azure.go:139-150 | the store after the not-found branch: Put below the maximum, Delete at it; `Worker.AttemptsCountResourceGroupNotFound`, `Worker.MaxAttemptsStillStored` and `AzureProvider.Azure.ApplyErrorPolicy` state it |
| Worker.Send | components/metris/internal/provider/azure/azure.go:347-369 | one event tagged with the subaccount when serialisation succeeds, the payload becoming the last event; `Worker.FreshOnSuccess`, `Worker.EventsTaggedWithSubAccount` and `AzureProvider.Azure.SendMetrics` state it |
| Worker.Deliver | components/metris/internal/provider/azure/azure.go:160-173 | send the fresh data, else the cached last event, else nothing; `Worker.FallbackOnFailure`, `Worker.FreshOnSuccess` and `AzureProvider.Azure.DeliverEvent` state it |
| Worker.WorkerStep | components/metris/internal/provider/azure/azure.go:88-186 | one worker cycle on a handed-out id as a step over the provider state, with the calls made; the `Worker` lemmas below and `AzureProvider.Azure.ProcessItem` state it |
| Worker.InstanceCycle | components/metris/internal/provider/azure/azure.go:105-186 | the cycle once a stored instance is found: caps lookup, poll, error policy, delivery, write-back; `AzureProvider.Azure.ProcessInstance` is proved equal to it |
| Worker.WriteBack | components/metris/internal/provider/azure/azure.go:175-186 | the unconditional Put, Done and AddAfter unless shutting down; `Worker.WrittenBackAndRequeued` and `Worker.MaxAttemptsStillStored` state it |
| Worker.NextPoll | components/metris/internal/provider/azure/azure.go:80 | the end of a re-queued id's poll interval followed by the Get that hands it to a worker: stores unchanged, the queue valid, the id owned and neither waiting nor admitted |
| Worker.MissingInstanceAcknowledged | components/metris/internal/provider/azure/azure.go:88-94 | an id with no stored instance is acknowledged, not re-queued, makes no call, and nothing else changes |
| Worker.CorruptedEntryRemoved | components/metris/internal/provider/azure/azure.go:96-103 | an entry of another type is deleted, the id acknowledged and not re-queued |
| Worker.WrittenBackAndRequeued | components/metris/internal/provider/azure/azure.go:175-186 | the instance is stored again under its id with the same cluster and resource group, no other entry changes, the id is acknowledged and waits for the next poll exactly when the queue is not shutting down |
| Worker.PolledAgainAfterInterval | components/metris/internal/provider/azure/azure.go:175-186 | while the queue runs, a cycle on a stored instance leaves it stored, the store keyed, the queue valid and the id waiting and not owned, so its next poll can start |
| Worker.SelfThrottleSingleShot | components/metris/internal/provider/azure/azure.go:122-173 | with the back-off flag set the cycle makes no provider call, clears the flag and leaves the retry count; as a failed cycle it sends the cached last event again when there is one and it serialises, nothing otherwise, and keeps the last event |
| Worker.BackoffOnlyAfterRateLimit | components/metris/internal/provider/azure/azure.go:122-157 | after a cycle the flag is set exactly when the cycle fetched and the fetch failed with 429 |
| Worker.AttemptsCountResourceGroupNotFound | components/metris/internal/provider/azure/azure.go:139-150 | the stored retry count rises by one exactly when the fetch failed with a resource-group-not-found 404, otherwise it is unchanged |
| Worker.AttemptsNeverDecrease | components/metris/internal/provider/azure/azure.go:139-150 | no cycle lowers the retry count |
| Worker.MaxAttemptsStillStored | components/metris/internal/provider/azure/azure.go:139-183 | at the maximum the Delete branch removes the instance, yet after the cycle the store holds it with the raised count and the id is re-queued unless the queue is shutting down |
| Worker.FallbackOnFailure | components/metris/internal/provider/azure/azure.go:160-173 | on a failed cycle exactly the previous last event is sent once (if there is one and it serialises), nothing otherwise, and the last event stays as it was |
| Worker.FreshOnSuccess | components/metris/internal/provider/azure/azure.go:348-369 | on success the fresh data is sent and becomes the last event; if serialisation fails nothing is sent and the last event is unchanged; retry count unchanged, flag clear |
| Worker.EventsTaggedWithSubAccount | components/metris/internal/provider/azure/azure.go:359-366 | a cycle appends at most one event, only for a stored instance, with the tenant equal to the cluster's subaccount |
| Worker.ComputeFetchUsesCachedCaps | components/metris/internal/provider/azure/azure.go:107-127 | the compute fetch receives the region's cached catalog, or an empty one when none of the right type is cached |
| Worker.WorkerPreservesInvariants | components/metris/internal/provider/azure/azure.go:88-186 | a cycle keeps every instance filed under its own id and the queue valid, and changes neither the capability cache nor the re-deliveries |
| Worker.RateLimitAlternates | components/metris/internal/provider/azure/azure.go:122-183 | after a 429 the id is re-queued; when its poll interval ends and a worker takes it, that cycle calls nothing, and the id is re-queued again; the poll after that fetches again, starting with compute |
| Intake.IntakeStep | components/metris/internal/provider/azure/azure.go:201-279 | one notification as a step over the provider state; the `Intake` lemmas below and `AzureProvider.Azure.HandleCluster` state it |
| Intake.Recover | components/metris/internal/provider/azure/azure.go:218-226 | the new instance holds the notified cluster with zero retries and no back-off, and carries over the stored last event and resource group, or none |
| Intake.PrimeCaps | components/metris/internal/provider/azure/azure.go:256-277 | a cached region is left alone; an absent one is cached with the listing's catalog only when the listing succeeded and is non-empty |
| Intake.DeletedNotification | components/metris/internal/provider/azure/azure.go:209-216 | a deletion removes the entry (nothing if absent) and changes nothing else, the queue included |
| Intake.ClientFailureDrops | components/metris/internal/provider/azure/azure.go:228-234 | when no client can be built the entry is removed and the cluster is not admitted |
| Intake.UpsertCarriesForward | components/metris/internal/provider/azure/azure.go:218-279 | an admitted cluster is stored with the old last event, the old resource group when it had one, zero retries, no back-off, and is added to the queue once |
| Intake.LookupFailureRedelivers | components/metris/internal/provider/azure/azure.go:238-248 | a non-trial cluster whose group lookup fails changes no store and no queue and is scheduled for re-delivery |
| Intake.TrialProceedsWithoutGroup | components/metris/internal/provider/azure/azure.go:238-254 | a trial cluster whose group lookup fails is stored with an empty group name and admitted |
| Intake.IntakeTouchesOwnEntryOnly | components/metris/internal/provider/azure/azure.go:201-279 | a notification changes no entry except that of its own cluster |
| Intake.CapsCachedOnceAndNonEmpty | components/metris/internal/provider/azure/azure.go:256-277 | the region is cached only by an admitted notification, only when absent, only with a non-empty listing |
| Intake.CapsCacheAppendOnly | components/metris/internal/provider/azure/azure.go:256-277 | no cached region is overwritten or dropped, and every new region holds a non-empty catalog |
| Intake.IntakePreservesInvariants | components/metris/internal/provider/azure/azure.go:201-279 | a notification keeps the store keyed and the queue valid and sends nothing |
| Intake.IntakeIdempotent | components/metris/internal/provider/azure/azure.go:201-279 | delivering a deletion, a client failure or an admitted notification twice has the effect of delivering it once |
| Intake.IntakeAll | components/metris/internal/provider/azure/azure.go:199-286 | the feed handled in arrival order; `Intake.LastNotificationDecides` states it |
| Intake.LastNotificationDecides | components/metris/internal/provider/azure/azure.go:199-286 | after a feed a cluster is absent if its last notification was a deletion or could not build a client, and stored with that snapshot if it was always admitted |
| Capabilities.CapabilityMap | components/metris/internal/provider/azure/azure.go:268-270 | the capabilities of one SKU as a map; `Capabilities.CapabilityMapKeys` and `Capabilities.CapabilityMapLastWins` state it |
| Capabilities.CapsOf | components/metris/internal/provider/azure/azure.go:266-271 | the catalog of a listing as a fold; `Capabilities.CapsOfKeys`, `Capabilities.CapsOfLastWins`, `Capabilities.CapsOfNonEmpty` and `Capabilities.CollectCapabilities` state it |
| Capabilities.CapabilityMapKeys | components/metris/internal/provider/azure/azure.go:268-270 | the capability names of a SKU are exactly the names in its list |
| Capabilities.CapsOfKeys | components/metris/internal/provider/azure/azure.go:266-271 | the VM types of the catalog are exactly the SKU names of the listing |
| Capabilities.CapabilityMapLastWins | components/metris/internal/provider/azure/azure.go:268-270 | a capability's value is the one its last occurrence gives |
| Capabilities.CapsOfLastWins | components/metris/internal/provider/azure/azure.go:266-271 | a VM type's capabilities are those of the last SKU with that name |
| Capabilities.CapsOfNonEmpty | components/metris/internal/provider/azure/azure.go:261-276 | the catalog is non-empty exactly when the listing is |
| Capabilities.CollectCapabilities | components/metris/internal/provider/azure/azure.go:261-272 | the nested loop over SKUs and capabilities builds exactly the catalog of the listing |
| WorkQueue.Add | components/metris/internal/provider/azure/azure.go:279 | admitting keeps the queue valid; unless the queue is shutting down, when nothing changes, the admitted ids become the old ones plus this id, it is ready unless a worker owns it, and the owners, the timers and the shutdown flag are unchanged |
| WorkQueue.AddAfter | components/metris/internal/provider/azure/azure.go:180-186 | re-queueing keeps the queue valid; the id waits exactly when the queue is not shutting down, and the other waiting, admitted and owned ids are unchanged |
| WorkQueue.Fire | components/metris/internal/provider/azure/azure.go:183 | when the poll interval of a waiting id ends it is admitted again and no longer waiting; the other admitted ids, the owners, the other timers and the shutdown flag are unchanged |
| WorkQueue.Get | components/metris/internal/provider/azure/azure.go:80 | a handed-out id stops being admitted and is owned by the worker, so it is no longer ready; every other ready id stays ready, and the other owners, the timers and the shutdown flag are unchanged |
| WorkQueue.Done | components/metris/internal/provider/azure/azure.go:178 | the id is no longer owned and becomes ready again exactly when it was re-admitted meanwhile; the other owners, the admitted ids, the timers and the shutdown flag are unchanged |
| WorkQueue.NoConcurrentOwner | components/metris/internal/provider/azure/azure.go:78-103 | an id handed to a worker is not handed out again, even if re-admitted, until acknowledged |
| WorkQueue.ShutDown | components/metris/internal/provider/azure/azure.go:280-284 | after shutdown the queue is valid, shutting down, has no timers, has the same admitted and ready ids, and in-flight ids stay owned so their cycles finish |
| WorkQueue.AddDeduplicates | components/metris/internal/provider/azure/azure.go:279 | admitting an id twice has the effect of admitting it once |
| WorkQueue.AddAfterDeduplicates | components/metris/internal/provider/azure/azure.go:183 | scheduling an id twice has the effect of scheduling it once |
| AzureProvider.Azure.constructor | components/metris/internal/provider/azure/azure.go:36-51 | a new provider has empty stores, an empty running queue and has sent nothing |
| AzureProvider.Azure.SendMetrics | components/metris/internal/provider/azure/azure.go:347-369 | a serialisable payload is sent once with the subaccount as tenant and becomes the last event; otherwise nothing changes |
| AzureProvider.Azure.ApplyErrorPolicy | components/metris/internal/provider/azure/azure.go:130-158 | the in-place updates of the failed-fetch policy leave the instance as Classify says and the store as the not-found branch says |
| AzureProvider.Azure.WorkerCycle | components/metris/internal/provider/azure/azure.go:78-187 | quits exactly when the queue is shut down and empty; otherwise changes the state exactly as one worker step on the handed-out id; keeps the store keyed and the queue valid |
| AzureProvider.Azure.ProcessItem | components/metris/internal/provider/azure/azure.go:88-186 | the in-place loop body on a handed-out id changes the state exactly as one worker step, and keeps the store keyed and the queue valid |
| AzureProvider.Azure.ProcessInstance | components/metris/internal/provider/azure/azure.go:105-186 | from a stored instance on, the in-place updates (fetch, policy, send, write-back, acknowledge, re-queue) give exactly the step function's state and calls |
| AzureProvider.Azure.PollInstance | components/metris/internal/provider/azure/azure.go:122-128 | with the back-off flag set the flag is cleared and the self-throttling error returned with no call; otherwise the instance is unchanged and the fetch is getMetrics' |
| AzureProvider.Azure.DeliverEvent | components/metris/internal/provider/azure/azure.go:160-173 | the instance and the events sent are those the delivery rule gives: fresh data on success, else the cached last event, else nothing |
| AzureProvider.Azure.RegionCapabilities | components/metris/internal/provider/azure/azure.go:107-115 | the catalog cached for the region when it is of the expected type, an empty one otherwise |
| AzureProvider.Azure.HandleCluster | components/metris/internal/provider/azure/azure.go:201-279 | changes the state exactly as one intake step; keeps the store keyed and the queue valid |
| AzureProvider.Azure.PrimeRegion | components/metris/internal/provider/azure/azure.go:256-277 | the nested SKU loop and the guarded Put leave the capability cache as the priming rule says |
| AzureProvider.Azure.Stop | components/metris/internal/provider/azure/azure.go:280-284 | cancellation shuts the queue down and leaves it valid |
| Scenarios.ScenarioNewClusterAdmitted | components/metris/internal/provider/azure/azure.go:201-279 | a new non-trial cluster whose group is found is stored with that group, zero retries and no cached event, its region's catalog is cached, and it is ready to be handed out |
| Scenarios.ScenarioNewClusterPolled | components/metris/internal/provider/azure/azure.go:78-187 | the first cycle on that cluster makes the compute, network and event-hub calls in that order, sends exactly one event tagged with its subaccount and listing the technical id and the group, and schedules the next poll |
| Scenarios.ScenarioUnknownClusterDeleted | components/metris/internal/provider/azure/azure.go:209-216 | deleting a never-seen cluster changes nothing |

## Left out

- Goroutines, the worker count, `sync.WaitGroup`, the `select` over channels: the model takes one worker cycle or one notification at a time, so races between the intake and a worker (the intake's new instance being overwritten by a worker's write-back) are not modelled.
- `time.AfterFunc` re-delivery: a re-delivery is recorded in `redeliveries`; the timer and the later send on the channel are not modelled.
- Internals of the k8s work queue: FIFO order (any ready id may be handed out), the delay value (always the poll interval) and the delay heap are not modelled.
- The Azure REST calls (`newClient`, `GetResourceGroup`, `GetVMResourceSkus`, `getComputeMetrics`, `getNetworkMetrics`, `getEventHubMetrics`): their code is not part of this model; their answers are inputs, and the client handle is not kept in `Instance`.
- The resource-group tag filter and the SKU location filter strings: the lookups they parameterise are inputs.
- `json.Marshal`: an input saying whether it succeeds; the event carries the payload rather than its bytes.
- Context timeouts, opencensus tracing and logging.
- The global `autorest.StatusCodesForRetry` assignment and the provider registration at start-up: global side effects with no behaviour to model.
- `maxRetryAttempts` and `responseErrCodeResourceGroupNotFound` are declared outside `azure.go`; they are the fields of `Config`.
- The fields of the compute and network metrics are declared outside `azure.go`; they are carried as named samples, and the event-hub counters as unbounded integers.
- Instances are values: the Go store holds references, so the intermediate `Put` on the below-threshold branch and the later write-back store the same object; the model writes the final value, which is the same end state when one step runs at a time.
- Nil-dereference panics (a resource group or SKU without a name, a SKU without capabilities, a detailed error without an original error) are not modelled.
- `components/kyma-environment-broker/internal/runtime/handler_test.go` and `components/kyma-environment-broker/internal/orchestration/kyma/manager_test.go`: tests of an HTTP pagination handler and of the upgrade-orchestration manager, whose code is not part of this model.
