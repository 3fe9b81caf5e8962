/** End-to-end runs from a freshly built provider: a new cluster admitted and then polled,
    and an unknown cluster deleted. */
module Scenarios {
  import opened Wrappers
  import opened AzureTypes
  import opened Metrics
  import opened Capabilities
  import WorkQueue
  import Worker
  import Intake

  const C1 := Cluster("c1", "account", "sub1", "eu1", false, false)

  /** The provider once cluster c1 has been taken in with resource group rg1. */
  function AfterIntake(skus: seq<Sku>): State {
    State(map["c1" := Typed(Instance(C1, "rg1", None, 0, false))],
          map["eu1" := Typed(CapsOf(skus))],
          WorkQueue.Queue({"c1"}, {}, {}, false),
          [], [])
  }

  /** A new non-trial cluster whose resource group is found is stored with that group, with
      zero retries and no cached event; its region's catalog is cached and it is admitted. */
  lemma ScenarioNewClusterAdmitted(skus: seq<Sku>)
    requires |skus| > 0
    ensures Intake.IntakeStep(Initial, C1, Intake.IntakeOutcomes(true, Ok("rg1"), Ok(skus))) == AfterIntake(skus)
    ensures "c1" in WorkQueue.Ready(AfterIntake(skus).queue)
  {
    CapsOfNonEmpty(skus);
  }

  /** Once handed out, a successful cycle on c1 sends exactly one event tagged with its
      subaccount, makes the three provider calls, and schedules the next poll. */
  lemma ScenarioNewClusterPolled(cfg: Config, skus: seq<Sku>, compute: Compute, network: Networking, hub: EventHub)
    ensures var s1 := AfterIntake(skus);
      var c := Worker.WorkerStep(cfg, s1.(queue := WorkQueue.Get(s1.queue, "c1")), "c1",
                                 FetchOutcomes(Ok(compute), Ok(network), Ok(hub)), true);
      && c.state.sent == [Event("sub1", EventData(["c1", "rg1"], compute, network, hub))]
      && c.calls == [ComputeFetch(CapsOf(skus)), NetworkFetch, EventHubFetch]
      && "c1" in c.state.queue.waiting
  {
    var inst := Instance(C1, "rg1", None, 0, false);
    var s1 := AfterIntake(skus);
    var s2 := s1.(queue := WorkQueue.Get(s1.queue, "c1"));
    var out := FetchOutcomes(Ok(compute), Ok(network), Ok(hub));
    var data := EventData(["c1", "rg1"], compute, network, hub);
    var f := GetMetrics(inst, CapsOf(skus), out);
    assert ["c1"] + ["rg1"] == ["c1", "rg1"];
    assert f == Fetch(Ok(data), [ComputeFetch(CapsOf(skus)), NetworkFetch, EventHubFetch]);
    assert Worker.Poll(inst, Worker.ResolveCaps(s2.vmCaps, inst.cluster.region), out) == Worker.Polled(inst, f);
    var d := Worker.Deliver(inst, f, true);
    assert d == Worker.Sent(inst.(lastEvent := Some(data)), [Event("sub1", data)]);
    assert Worker.WorkerStep(cfg, s2, "c1", out, true) == Worker.Cycle(Worker.WriteBack(s2, "c1", s2.instances, d), f.calls);
  }

  /** Deleting a cluster never seen changes nothing and admits nothing. */
  lemma ScenarioUnknownClusterDeleted(o: Intake.IntakeOutcomes)
    ensures Intake.IntakeStep(Initial, Cluster("c2", "", "", "", false, true), o) == Initial
  {
  }
}
