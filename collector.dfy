/**
 * One sampling attempt for one hit log: a non-blocking single permit per
 * metric type, a circuit breaker and a timeout around the provider call,
 * and two flags through which the worker pool later learns whether the
 * attempt timed out or was refused by an open breaker.
 *
 * The reactive chain is replaced by its observable result, an Emission:
 * the value the chain delivered, the error it raised (the timeout
 * operator raises TimeoutException, an open breaker raises
 * CircuitBreakerOpenException, anything else comes from the provider), or
 * completion without a value, which `Mono.fromSupplier` signals when the
 * provider returns null.
 */
module Collectors {
  import opened Model

  datatype Emission = Value(sample: SampleValue) | Raised(cause: Throwable) | Empty

  /**
   * Key under which a sample is cached: mo type, a dot, metric name and mo id.
   * There is no separator between the metric name and the mo id.
   */
  function CacheKey(s: SampleValue): string
  {
    s.mo.moType + "." + s.metrics.name + s.mo.id
  }

  /**
   * When mo types contain no dot, two samples share a cache key exactly when
   * they have the same mo type and the same concatenation of metric name and mo id.
   */
  lemma CacheKeyCharacterised(s: SampleValue, t: SampleValue)
    requires '.' !in s.mo.moType && '.' !in t.mo.moType
    ensures CacheKey(s) == CacheKey(t) <==>
      s.mo.moType == t.mo.moType && s.metrics.name + s.mo.id == t.metrics.name + t.mo.id
  {
    assert CacheKey(s) == s.mo.moType + "." + (s.metrics.name + s.mo.id);
    assert CacheKey(t) == t.mo.moType + "." + (t.metrics.name + t.mo.id);
    SplitAtFirstDot(s.mo.moType, s.metrics.name + s.mo.id, t.mo.moType, t.metrics.name + t.mo.id);
  }

  /**
   * Two samples of different metrics on different objects collide in the
   * cache: metric "cpu1" on mo "2" and metric "cpu" on mo "12".
   */
  lemma CacheKeyCollision(m: ProviderType)
    ensures
      var s := SampleValue(Mo("host", "2"), Metrics("cpu1", m), 0, 0);
      var t := SampleValue(Mo("host", "12"), Metrics("cpu", m), 0, 0);
      s.metrics != t.metrics && s.mo != t.mo && CacheKey(s) == CacheKey(t)
  {
  }

  /**
   * The duration reported to the breaker on a timeout or an open circuit:
   * `bizTimeout * 1000` computed in Java `int` arithmetic.
   */
  function FailureDuration(bizTimeout: int32): (d: int32)
    ensures 0 <= bizTimeout as int <= 2147483 ==> d as int == bizTimeout as int * 1000
    ensures (d as int - bizTimeout as int * 1000) % 0x1_0000_0000 == 0
  {
    WrapInt32(bizTimeout as int * 1000)
  }

  /** A `bizTimeout` above 2147483 seconds is reported to the breaker as a negative duration. */
  lemma FailureDurationOverflows()
    ensures FailureDuration(2147484) as int == -2147483296
  {
  }

  /** The error raised on a timeout (by the timeout operator or by the provider). */
  predicate SetsTimeout(e: Emission) { e.Raised? && e.cause == TimeoutException }

  /** The error raised when the breaker refuses the call. */
  predicate SetsCircuitOpen(e: Emission) { e.Raised? && e.cause == CircuitBreakerOpenException }

  /** No emission sets both flags: the two error handlers match disjoint exception classes. */
  lemma FlagHandlersDisjoint(e: Emission)
    ensures !(SetsTimeout(e) && SetsCircuitOpen(e))
    ensures SetsTimeout(e) || SetsCircuitOpen(e) ==> e.Raised?
  {
  }

  /** One explicit `onError` call on the breaker of a metric type. */
  datatype BreakerFailure = BreakerFailure(metrics: Metrics, duration: int32, cause: Throwable)

  /** The `onError` calls one attempt makes: one for a timeout, one for an open circuit, none otherwise. */
  function BreakerReports(m: Metrics, bizTimeout: int32, e: Emission): (r: seq<BreakerFailure>)
    ensures |r| <= 1
    ensures |r| == 1 <==> SetsTimeout(e) || SetsCircuitOpen(e)
    ensures forall f :: f in r ==> f == BreakerFailure(m, FailureDuration(bizTimeout), e.cause)
  {
    if SetsTimeout(e) || SetsCircuitOpen(e) then [BreakerFailure(m, FailureDuration(bizTimeout), e.cause)] else []
  }

  /** One single-permit semaphore per metric type, created on first use. */
  class SemaphoreService {
    var permits: map<Metrics, nat>

    constructor ()
      ensures permits == map[]
    {
      permits := map[];
    }

    /** Permits of the metric type's semaphore; a semaphore not yet created starts with one. */
    function Available(m: Metrics): nat
      reads this
    {
      if m in permits then permits[m] else 1
    }

    /** `Semaphore.tryAcquire()`: takes a permit if there is one, never blocks. */
    method TryAcquire(m: Metrics) returns (ok: bool)
      modifies this
      ensures ok <==> old(Available(m)) > 0
      ensures ok ==> permits == old(permits)[m := old(Available(m)) - 1]
      ensures !ok ==> unchanged(this)
    {
      var n := Available(m);
      if n > 0 {
        permits := permits[m := n - 1];
        ok := true;
      } else {
        ok := false;
      }
    }

    /** `Semaphore.release()`: returns one permit. */
    method Release(m: Metrics)
      modifies this
      ensures permits == old(permits)[m := old(Available(m)) + 1]
    {
      permits := permits[m := Available(m) + 1];
    }
  }

  /** The breakers, seen only through the failures the pipeline reports to them. */
  class CircuitBreakerService {
    var failures: seq<BreakerFailure>

    constructor ()
      ensures failures == []
    {
      failures := [];
    }

    method OnError(m: Metrics, duration: int32, cause: Throwable)
      modifies this
      ensures failures == old(failures) + [BreakerFailure(m, duration, cause)]
    {
      failures := failures + [BreakerFailure(m, duration, cause)];
    }
  }

  /** The cache that receives successful samples. */
  class MetricsValueCache {
    var entries: map<string, SampleValue>

    constructor ()
      ensures entries == map[]
    {
      entries := map[];
    }

    method Put(key: string, s: SampleValue)
      modifies this
      ensures entries == old(entries)[key := s]
    {
      entries := entries[key := s];
    }
  }

  class Collector {
    const metricsValueCache: MetricsValueCache
    const circuitBreakerService: CircuitBreakerService
    const semaphoreService: SemaphoreService
    const hitLog: HitLog
    const bizTimeout: int32
    var isTimeout: bool
    var isCircuitBreakOpen: bool

    constructor (metricsValueCache: MetricsValueCache, circuitBreakerService: CircuitBreakerService,
                 semaphoreService: SemaphoreService, hitLog: HitLog, bizTimeout: int32)
      ensures this.metricsValueCache == metricsValueCache
      ensures this.circuitBreakerService == circuitBreakerService
      ensures this.semaphoreService == semaphoreService
      ensures this.hitLog == hitLog && this.bizTimeout == bizTimeout
      ensures !isTimeout && !isCircuitBreakOpen
    {
      this.metricsValueCache := metricsValueCache;
      this.circuitBreakerService := circuitBreakerService;
      this.semaphoreService := semaphoreService;
      this.hitLog := hitLog;
      this.bizTimeout := bizTimeout;
      isTimeout := false;
      isCircuitBreakOpen := false;
    }

    /** The metric type whose permit and breaker this attempt uses. */
    function Metric(): Metrics
      reads this
    {
      hitLog.rule.metrics
    }

    /**
     * `run()`. When the metric type's permit is taken, nothing happens. Otherwise
     * the chain delivers `e`: a timeout or an open circuit is reported to the
     * breaker and sets its flag; a value is cached, an error is rethrown
     * (returned in `thrown`), and either gives the permit back. An empty
     * completion runs neither subscriber callback, so its permit stays taken.
     */
    method Run(e: Emission) returns (thrown: Option<Throwable>)
      modifies this, semaphoreService, circuitBreakerService, metricsValueCache
      ensures old(semaphoreService.Available(Metric())) == 0 ==>
        && thrown == None
        && unchanged(this, semaphoreService, circuitBreakerService, metricsValueCache)
      ensures old(semaphoreService.Available(Metric())) > 0 ==>
        // the permit taken is given back exactly once, except after an empty completion
        && semaphoreService.permits ==
             old(semaphoreService.permits)[Metric() :=
               old(semaphoreService.Available(Metric())) - (if e.Empty? then 1 else 0)]
        && isTimeout == (old(isTimeout) || SetsTimeout(e))
        && isCircuitBreakOpen == (old(isCircuitBreakOpen) || SetsCircuitOpen(e))
        && circuitBreakerService.failures ==
             old(circuitBreakerService.failures) + BreakerReports(Metric(), bizTimeout, e)
        && metricsValueCache.entries ==
             (if e.Value? then old(metricsValueCache.entries)[CacheKey(e.sample) := e.sample]
              else old(metricsValueCache.entries))
        && thrown == (if e.Raised? then Some(e.cause) else None)
      ensures !old(isTimeout) && !old(isCircuitBreakOpen) ==> !(isTimeout && isCircuitBreakOpen)
    {
      var m := hitLog.rule.metrics;
      var acquired := semaphoreService.TryAcquire(m);
      if acquired {
        match e
        case Value(sample) =>
          semaphoreService.Release(m);
          metricsValueCache.Put(CacheKey(sample), sample);
          thrown := None;
        case Raised(cause) =>
          if cause == TimeoutException {
            circuitBreakerService.OnError(m, FailureDuration(bizTimeout), cause);
            isTimeout := true;
          }
          if cause == CircuitBreakerOpenException {
            circuitBreakerService.OnError(m, FailureDuration(bizTimeout), cause);
            isCircuitBreakOpen := true;
          }
          semaphoreService.Release(m);
          thrown := Some(cause);
        case Empty =>
          thrown := None;
      } else {
        thrown := None;
      }
    }
  }
}
