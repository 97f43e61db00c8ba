/**
 * The worker pool's completion hook: after each task it accumulates the
 * elapsed time pool-wide, classifies the task into exactly one of four
 * outcomes and updates the counters of the task's metric type.
 *
 * The elapsed time (a difference of two `System.nanoTime` readings) is a
 * parameter; the completed task is seen through its Collector's flags, the
 * throwable the executor passes in and the state of the task's future.
 */
module ThreadPool {
  import opened Model
  import opened Collectors

  /** What `future.get()` does on the finished task: nothing to wait for, a result, or an exception. */
  datatype FutureState = NotDone | Completed | CompletedExceptionally

  datatype Outcome = Success | Timeout | NotPermitted | Error

  /** `MetricsMonitorInfo`: the counters of one metric type. */
  datatype MonitorInfo = MonitorInfo(
    success: nat, timeout: nat, notPermitted: nat, error: nat,
    serviceTime: nat, maxServiceTime: nat)

  const ZeroInfo := MonitorInfo(0, 0, 0, 0, 0, 0)

  /** Number of tasks classified into any outcome. */
  function Finished(info: MonitorInfo): nat
  {
    info.success + info.timeout + info.notPermitted + info.error
  }

  /** The counter an outcome increments. */
  function Count(info: MonitorInfo, o: Outcome): nat
  {
    match o
    case Success => info.success
    case Timeout => info.timeout
    case NotPermitted => info.notPermitted
    case Error => info.error
  }

  /** The monitor's get-or-create: a metric type seen for the first time starts at zero. */
  function InfoOf(monitor: map<Metrics, MonitorInfo>, m: Metrics): MonitorInfo
  {
    if m in monitor then monitor[m] else ZeroInfo
  }

  /**
   * The throwable the hook ends up with: a fresh TimeoutException when the
   * timeout flag is set, else a fresh CircuitBreakerOpenException when the
   * circuit-open flag is set, else the one passed in, else the one the
   * finished future raises (`Future.get` wraps it in an ExecutionException).
   */
  function EffectiveThrowable(isTimeout: bool, isOpen: bool, t: Option<Throwable>, f: FutureState): Option<Throwable>
  {
    if isTimeout then Some(TimeoutException)
    else if isOpen then Some(CircuitBreakerOpenException)
    else if t.None? && f == CompletedExceptionally then Some(OtherException("ExecutionException"))
    else t
  }

  /** Outcome of a task by the class of its throwable, none meaning success. */
  function OutcomeOf(t: Option<Throwable>): Outcome
  {
    match t
    case None => Success
    case Some(TimeoutException) => Timeout
    case Some(CircuitBreakerOpenException) => NotPermitted
    case Some(_) => Error
  }

  /**
   * The classification `afterExecute` makes, with its fixed precedence: the
   * timeout flag, then the circuit-open flag, then the class of the throwable
   * passed in, then the future; success only when there is nothing to report.
   */
  function Classify(isTimeout: bool, isOpen: bool, t: Option<Throwable>, f: FutureState): (o: Outcome)
    ensures isTimeout ==> o == Timeout
    ensures !isTimeout && isOpen ==> o == NotPermitted
    ensures o == Timeout <==> isTimeout || (!isOpen && t == Some(TimeoutException))
    ensures o == NotPermitted <==> !isTimeout && (isOpen || t == Some(CircuitBreakerOpenException))
    ensures o == Success <==> !isTimeout && !isOpen && t.None? && f != CompletedExceptionally
    ensures o == Error <==>
      && !isTimeout && !isOpen
      && (if t.Some? then t.value != TimeoutException && t.value != CircuitBreakerOpenException
          else f == CompletedExceptionally)
  {
    OutcomeOf(EffectiveThrowable(isTimeout, isOpen, t, f))
  }

  /** One more task with outcome `o`. */
  function Count1(info: MonitorInfo, o: Outcome): MonitorInfo
  {
    match o
    case Success => info.(success := info.success + 1)
    case Timeout => info.(timeout := info.timeout + 1)
    case NotPermitted => info.(notPermitted := info.notPermitted + 1)
    case Error => info.(error := info.error + 1)
  }

  /** The maximum after a task of `serviceTime`: raised to it when it is larger. */
  function MaxAfter(current: nat, serviceTime: nat): nat
  {
    if current < serviceTime then serviceTime else current
  }

  function MaxUpdated(info: MonitorInfo, serviceTime: nat): MonitorInfo
  {
    info.(maxServiceTime := MaxAfter(info.maxServiceTime, serviceTime))
  }

  /** The update of one metric type's counters for one finished task. */
  function Record(info: MonitorInfo, o: Outcome, serviceTime: nat): (r: MonitorInfo)
    ensures Count(r, o) == Count(info, o) + 1
    ensures forall p :: p != o ==> Count(r, p) == Count(info, p)
    ensures Finished(r) == Finished(info) + 1
    ensures r.serviceTime == info.serviceTime + serviceTime
    ensures r.maxServiceTime >= info.maxServiceTime && r.maxServiceTime >= serviceTime
    ensures r.maxServiceTime == info.maxServiceTime || r.maxServiceTime == serviceTime
  {
    MonitorInfo(
      info.success + (if o == Success then 1 else 0),
      info.timeout + (if o == Timeout then 1 else 0),
      info.notPermitted + (if o == NotPermitted then 1 else 0),
      info.error + (if o == Error then 1 else 0),
      info.serviceTime + serviceTime,
      MaxAfter(info.maxServiceTime, serviceTime))
  }

  /** One finished task as the hook sees it. */
  datatype Completion = Completion(outcome: Outcome, serviceTime: nat)

  /** Counters after a sequence of finished tasks of one metric type. */
  function RecordAll(info: MonitorInfo, cs: seq<Completion>): MonitorInfo
  {
    if cs == [] then info
    else
      var last := cs[|cs| - 1];
      Record(RecordAll(info, cs[..|cs| - 1]), last.outcome, last.serviceTime)
  }

  function TotalTime(cs: seq<Completion>): nat
  {
    if cs == [] then 0 else TotalTime(cs[..|cs| - 1]) + cs[|cs| - 1].serviceTime
  }

  function Occurrences(cs: seq<Completion>, o: Outcome): nat
  {
    if cs == [] then 0
    else Occurrences(cs[..|cs| - 1], o) + (if cs[|cs| - 1].outcome == o then 1 else 0)
  }

  /**
   * From zero, the counters of a metric type after any run of tasks: every
   * outcome counter is the number of tasks with that outcome, the finished
   * count is the number of tasks and the service time is their sum.
   */
  lemma {:induction false} RecordAllCounts(cs: seq<Completion>)
    ensures forall o :: Count(RecordAll(ZeroInfo, cs), o) == Occurrences(cs, o)
    ensures Finished(RecordAll(ZeroInfo, cs)) == |cs|
    ensures RecordAll(ZeroInfo, cs).serviceTime == TotalTime(cs)
  {
    if cs != [] {
      RecordAllCounts(cs[..|cs| - 1]);
    }
  }

  /**
   * From zero, the maximum service time of a metric type is the true maximum
   * of the tasks' service times, and zero when nothing ran.
   */
  lemma {:induction false} RecordAllMax(cs: seq<Completion>)
    ensures forall i :: 0 <= i < |cs| ==> cs[i].serviceTime <= RecordAll(ZeroInfo, cs).maxServiceTime
    ensures cs == [] ==> RecordAll(ZeroInfo, cs).maxServiceTime == 0
    ensures cs != [] ==> exists i :: 0 <= i < |cs| && RecordAll(ZeroInfo, cs).maxServiceTime == cs[i].serviceTime
  {
    if cs != [] {
      var init := cs[..|cs| - 1];
      var last := cs[|cs| - 1];
      RecordAllMax(init);
      var before := RecordAll(ZeroInfo, init);
      var after := RecordAll(ZeroInfo, cs);
      assert after == Record(before, last.outcome, last.serviceTime);
      forall i | 0 <= i < |cs|
        ensures cs[i].serviceTime <= after.maxServiceTime
      {
        if i < |cs| - 1 {
          assert cs[i] == init[i];
        }
      }
      if after.maxServiceTime != last.serviceTime {
        var j :| 0 <= j < |init| && before.maxServiceTime == init[j].serviceTime;
        assert cs[j] == init[j];
      }
    }
  }

  /** `TimeUnit.NANOSECONDS.toSeconds`: Java's division, truncating toward zero. */
  function FromNanoToSeconds(nanos: int): (s: int)
    ensures nanos >= 0 ==> s >= 0 && s * 1_000_000_000 <= nanos < (s + 1) * 1_000_000_000
    ensures nanos < 0 ==> s <= 0 && (s - 1) * 1_000_000_000 < nanos <= s * 1_000_000_000
  {
    if nanos >= 0 then nanos / 1_000_000_000 else -((-nanos) / 1_000_000_000)
  }

  /**
   * The monitoring sink: counters per metric type, created on first use.
   * Each method is one `getMetricsMonitorInfo(metrics)` access and one
   * update of one of its counters.
   */
  class MetricsMonitorService {
    var infos: map<Metrics, MonitorInfo>

    constructor ()
      ensures infos == map[]
    {
      infos := map[];
    }

    /** Adds one to the counter of outcome `o`. */
    method Increment(m: Metrics, o: Outcome)
      modifies this
      ensures infos == old(infos)[m := Count1(InfoOf(old(infos), m), o)]
    {
      infos := infos[m := Count1(InfoOf(infos, m), o)];
    }

    method AddServiceTime(m: Metrics, serviceTime: nat)
      modifies this
      ensures infos == old(infos)[m := InfoOf(old(infos), m).(serviceTime := InfoOf(old(infos), m).serviceTime + serviceTime)]
    {
      var info := InfoOf(infos, m);
      infos := infos[m := info.(serviceTime := info.serviceTime + serviceTime)];
    }

    /** Check-then-set of the maximum service time (sequentially; races are not modelled). */
    method UpdateMaxServiceTime(m: Metrics, serviceTime: nat)
      modifies this
      ensures infos == old(infos)[m := MaxUpdated(InfoOf(old(infos), m), serviceTime)]
    {
      var info := InfoOf(infos, m);
      if info.maxServiceTime < serviceTime {
        infos := infos[m := info.(maxServiceTime := serviceTime)];
      } else {
        infos := infos[m := info];
      }
    }
  }

  class ProviderThreadPool {
    var totalServiceTime: nat
    var maxServiceTime: nat
    var finishedNumer: nat
    const metricsMonitorService: MetricsMonitorService

    constructor (metricsMonitorService: MetricsMonitorService)
      ensures totalServiceTime == 0 && maxServiceTime == 0 && finishedNumer == 0
      ensures this.metricsMonitorService == metricsMonitorService
    {
      totalServiceTime, maxServiceTime, finishedNumer := 0, 0, 0;
      this.metricsMonitorService := metricsMonitorService;
    }

    /**
     * The per-metric part of `afterExecute`: the matching outcome counter,
     * then the service time, then the maximum service time.
     */
    method CountTask(m: Metrics, outcome: Outcome, serviceTime: nat)
      modifies metricsMonitorService
      ensures metricsMonitorService.infos ==
        old(metricsMonitorService.infos)[m := Record(InfoOf(old(metricsMonitorService.infos), m), outcome, serviceTime)]
    {
      metricsMonitorService.Increment(m, outcome);
      metricsMonitorService.AddServiceTime(m, serviceTime);
      metricsMonitorService.UpdateMaxServiceTime(m, serviceTime);
    }

    /**
     * `afterExecute(r, t)` for the task running collector `c`, after
     * `serviceTime` nanoseconds, with `f` the state of the task's future.
     * Only the counters of the collector's metric type change.
     */
    method AfterExecute(c: Collector, t: Option<Throwable>, f: FutureState, serviceTime: nat)
      modifies this, metricsMonitorService
      ensures totalServiceTime == old(totalServiceTime) + serviceTime
      ensures maxServiceTime == MaxAfter(old(maxServiceTime), serviceTime)
      ensures finishedNumer == old(finishedNumer) + 1
      ensures metricsMonitorService.infos == old(metricsMonitorService.infos)[c.Metric() :=
        Record(InfoOf(old(metricsMonitorService.infos), c.Metric()),
               Classify(c.isTimeout, c.isCircuitBreakOpen, t, f), serviceTime)]
    {
      totalServiceTime := totalServiceTime + serviceTime;
      if maxServiceTime < serviceTime {
        maxServiceTime := serviceTime;
      }
      finishedNumer := finishedNumer + 1;

      var thrown := t;
      if c.isTimeout {
        thrown := Some(TimeoutException);
      } else if c.isCircuitBreakOpen {
        thrown := Some(CircuitBreakerOpenException);
      } else if t.None? {
        if f == CompletedExceptionally {
          thrown := Some(OtherException("ExecutionException"));
        }
      }
      assert thrown == EffectiveThrowable(c.isTimeout, c.isCircuitBreakOpen, t, f);

      var outcome;
      if thrown.Some? {
        if thrown.value == TimeoutException {
          outcome := Timeout;
        } else if thrown.value == CircuitBreakerOpenException {
          outcome := NotPermitted;
        } else {
          outcome := Error;
        }
      } else {
        outcome := Success;
      }
      assert outcome == Classify(c.isTimeout, c.isCircuitBreakOpen, t, f);
      CountTask(c.hitLog.rule.metrics, outcome, serviceTime);
    }
  }
}
