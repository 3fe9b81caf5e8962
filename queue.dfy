/**
 * The delaying, per-key de-duplicating work queue the provider drains, reduced to
 * the sets of identifiers it keeps. The delay of AddAfter is always the poll interval,
 * so it is not recorded; the timer that ends a delay is the operation Fire.
 */
module WorkQueue {
  /**
   * dirty: ids admitted and not yet handed to a worker;
   * processing: ids handed to a worker and not yet acknowledged with Done;
   * waiting: ids scheduled by AddAfter whose delay has not ended yet.
   */
  datatype Queue = Queue(dirty: set<string>, processing: set<string>, waiting: set<string>, shuttingDown: bool)

  const Empty := Queue({}, {}, {}, false)

  /** Shutting down cancels the delay timers, so no id waits once the queue is shutting down. */
  predicate Valid(q: Queue) {
    q.shuttingDown ==> q.waiting == {}
  }

  /** The ids a Get may hand out now: admitted, and not owned by a worker. */
  function Ready(q: Queue): set<string> {
    q.dirty - q.processing
  }

  /** Get reports quit only once the queue is shutting down and nothing is ready. */
  predicate Quit(q: Queue) {
    q.shuttingDown && Ready(q) == {}
  }

  /** Admit an id; duplicates collapse, and a queue that is shutting down ignores it. */
  function Add(q: Queue, x: string): (r: Queue)
    ensures Valid(q) ==> Valid(r)
    ensures q.shuttingDown ==> r == q
    ensures !q.shuttingDown ==> x in r.dirty && r.processing == q.processing
    // every other id keeps its state: nothing admitted is lost, no owner or timer changes
    ensures !q.shuttingDown ==>
      && r.dirty == q.dirty + {x}
      && Ready(r) == Ready(q) + ({x} - q.processing)
      && r.waiting == q.waiting && r.shuttingDown == q.shuttingDown
  {
    if q.shuttingDown then q else q.(dirty := q.dirty + {x})
  }

  /** Schedule an id to be admitted once the delay ends; ignored while shutting down. */
  function AddAfter(q: Queue, x: string): (r: Queue)
    ensures Valid(q) ==> Valid(r)
    ensures Valid(q) ==> (x in r.waiting <==> !q.shuttingDown)
    ensures r.dirty == q.dirty && r.processing == q.processing && r.shuttingDown == q.shuttingDown
    // the other waiting ids keep waiting
    ensures r.waiting == if q.shuttingDown then q.waiting else q.waiting + {x}
  {
    if q.shuttingDown then q else q.(waiting := q.waiting + {x})
  }

  /** The delay of a waiting id ends and it is admitted. */
  function Fire(q: Queue, x: string): (r: Queue)
    requires x in q.waiting
    ensures Valid(q) ==> Valid(r) && x in r.dirty && x !in r.waiting
    // only this timer ends; the other ids keep their state
    ensures r.waiting == q.waiting - {x}
    ensures Valid(q) ==>
      && r.dirty == q.dirty + {x}
      && Ready(r) == Ready(q) + ({x} - q.processing)
      && r.processing == q.processing && r.shuttingDown == q.shuttingDown
  {
    Add(q.(waiting := q.waiting - {x}), x)
  }

  /** Hand a ready id to a worker, which owns it until Done. */
  function Get(q: Queue, x: string): (r: Queue)
    requires x in Ready(q)
    ensures Valid(q) ==> Valid(r)
    ensures x in r.processing && x !in Ready(r)
    ensures Ready(r) == Ready(q) - {x}
    // the id stops being admitted; the other owners, the timers and the shutdown flag are unchanged
    ensures r.dirty == q.dirty - {x}
    ensures r.processing == q.processing + {x}
    ensures r.waiting == q.waiting && r.shuttingDown == q.shuttingDown
  {
    q.(dirty := q.dirty - {x}, processing := q.processing + {x})
  }

  /** Acknowledge an id; if it was admitted again meanwhile, it becomes ready. */
  function Done(q: Queue, x: string): (r: Queue)
    ensures Valid(q) ==> Valid(r)
    ensures x !in r.processing
    ensures x in Ready(r) <==> x in q.dirty
    ensures r.shuttingDown == q.shuttingDown && r.waiting == q.waiting
    // the other in-flight ids stay owned, and what is admitted stays admitted
    ensures r.processing == q.processing - {x} && r.dirty == q.dirty
  {
    q.(processing := q.processing - {x})
  }

  /** Stop the queue: timers are cancelled and Get returns quit once nothing is ready. */
  function ShutDown(q: Queue): (r: Queue)
    ensures Valid(r) && r.shuttingDown
    ensures Ready(r) == Ready(q)
    // in-flight ids stay owned, so their workers finish the cycle and acknowledge them
    ensures r.processing == q.processing && r.dirty == q.dirty
  {
    q.(shuttingDown := true, waiting := {})
  }

  /** Per-key serialisation: an id handed to a worker is not handed out again, even if
      admitted again meanwhile, until the worker acknowledges it. */
  lemma NoConcurrentOwner(q: Queue, x: string)
    requires x in Ready(q) && !q.shuttingDown
    ensures x !in Ready(Add(Get(q, x), x))
    ensures x in Ready(Done(Add(Get(q, x), x), x))
  {
  }

  /** Admitting an id twice is admitting it once. */
  lemma AddDeduplicates(q: Queue, x: string)
    ensures Add(Add(q, x), x) == Add(q, x)
  {
  }

  /** Scheduling an id twice leaves it waiting once, with a single timer. */
  lemma AddAfterDeduplicates(q: Queue, x: string)
    ensures AddAfter(AddAfter(q, x), x) == AddAfter(q, x)
  {
  }
}
