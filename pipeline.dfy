/**
 * One pool task end to end: the worker runs `Collector.run`, the task's
 * future completes normally or with the exception `run` threw, and the
 * completion hook classifies it into the counters of the metric type.
 */
module Pipeline {
  import opened Model
  import opened Collectors
  import opened ThreadPool

  /** The future of the pool task that ran `run`: it completes exceptionally exactly when `run` threw. */
  function FutureAfterRun(thrown: Option<Throwable>): FutureState
  {
    if thrown.Some? then CompletedExceptionally else Completed
  }

  /**
   * The counter a task lands in, stated per case: a tick whose permit was
   * taken returns normally from `run` and so counts as a success; a value or
   * an empty completion is a success, a timeout a timeout, an open circuit a
   * refusal, and any other error an error.
   */
  function ExpectedOutcome(acquired: bool, e: Emission): Outcome
  {
    if !acquired then Success
    else
      match e
      case Value(_) => Success
      case Raised(TimeoutException) => Timeout
      case Raised(CircuitBreakerOpenException) => NotPermitted
      case Raised(_) => Error
      case Empty => Success
  }

  /**
   * Feeding each result of the reactive chain through the flags and the
   * rethrown exception of `run` into the hook's classification yields the
   * matching counter; for the two flagged cases the future does not matter.
   */
  lemma ClassifiesEmission(e: Emission, f: FutureState)
    ensures Classify(SetsTimeout(e), SetsCircuitOpen(e), None,
                     FutureAfterRun(if e.Raised? then Some(e.cause) else None)) == ExpectedOutcome(true, e)
    ensures SetsTimeout(e) || SetsCircuitOpen(e) ==>
      Classify(SetsTimeout(e), SetsCircuitOpen(e), None, f) == ExpectedOutcome(true, e)
  {
  }

  /**
   * A pool task for collector `c` (fresh, so both flags clear) that takes
   * `serviceTime` nanoseconds while the chain delivers `e`.
   */
  method Execute(pool: ProviderThreadPool, c: Collector, e: Emission, serviceTime: nat)
    requires !c.isTimeout && !c.isCircuitBreakOpen
    modifies pool, pool.metricsMonitorService, c, c.semaphoreService, c.circuitBreakerService, c.metricsValueCache
    ensures var acquired := old(c.semaphoreService.Available(c.Metric())) > 0;
      && pool.metricsMonitorService.infos == old(pool.metricsMonitorService.infos)[c.Metric() :=
           Record(InfoOf(old(pool.metricsMonitorService.infos), c.Metric()), ExpectedOutcome(acquired, e), serviceTime)]
      && pool.finishedNumer == old(pool.finishedNumer) + 1
      && pool.totalServiceTime == old(pool.totalServiceTime) + serviceTime
      && c.circuitBreakerService.failures ==
           old(c.circuitBreakerService.failures) + (if acquired then BreakerReports(c.Metric(), c.bizTimeout, e) else [])
      && c.metricsValueCache.entries ==
           (if acquired && e.Value? then old(c.metricsValueCache.entries)[CacheKey(e.sample) := e.sample]
            else old(c.metricsValueCache.entries))
      && c.semaphoreService.Available(c.Metric()) ==
           old(c.semaphoreService.Available(c.Metric())) - (if acquired && e.Empty? then 1 else 0)
  {
    var thrown := c.Run(e);
    pool.AfterExecute(c, None, FutureAfterRun(thrown), serviceTime);
  }

  /**
   * Two ticks of one metric type whose first chain completes empty: the first
   * keeps the single permit, so the second is refused (nothing cached, nothing
   * reported to the breaker) whatever its chain would deliver, and both are
   * counted as successes.
   */
  method EmptyCompletionBlocksMetric(pool: ProviderThreadPool, first: Collector, second: Collector,
                                     e: Emission, firstTime: nat, secondTime: nat)
    requires first != second
    requires first.semaphoreService == second.semaphoreService && first.Metric() == second.Metric()
    requires first.semaphoreService.Available(first.Metric()) == 1
    requires !first.isTimeout && !first.isCircuitBreakOpen
    requires !second.isTimeout && !second.isCircuitBreakOpen
    modifies pool, pool.metricsMonitorService, first, second, first.semaphoreService
    modifies first.circuitBreakerService, first.metricsValueCache
    modifies second.circuitBreakerService, second.metricsValueCache
    ensures first.semaphoreService.Available(first.Metric()) == 0
    ensures second.metricsValueCache.entries == old(second.metricsValueCache.entries)
    ensures second.circuitBreakerService.failures == old(second.circuitBreakerService.failures)
    ensures var m := first.Metric();
      pool.metricsMonitorService.infos == old(pool.metricsMonitorService.infos)[m :=
        Record(Record(InfoOf(old(pool.metricsMonitorService.infos), m), Success, firstTime), Success, secondTime)]
  {
    Execute(pool, first, Empty, firstTime);
    Execute(pool, second, e, secondTime);
  }
}
