# provider-thread scheduler core, modelled in Dafny

provider-thread samples metrics from managed objects (mo). A **hit log** says that a
**rule** applies to one mo. The rule names a metric, its transport (the provider type),
a sample interval and a rule type. The model covers three parts of the system:

- **The poller** (`HitLogPoller`). When the hit-log caches finish loading, it schedules
  one fixed-rate timer per RPC hit log. It keeps each timer's handle in `futureMap`
  under the key `ruleId + "." + moId`. On every tick of an RPC hit log with an OM rule,
  it starts a collection with a business timeout of `30*1000`.
- **The collector** (`Collector.run`). It takes the single permit of the metric type
  without blocking, then calls the provider inside a circuit breaker and a timeout.
  - A timeout or an open breaker is reported to the breaker and sets one of two flags.
  - A value is cached under `moType + "." + metricName + moId`.
  - Any other error is rethrown.
  - A value or an error gives the permit back. A chain that completes empty, which
    `Mono.fromSupplier` does when the provider returns null, runs neither subscriber
    callback. Its permit then stays taken, and every later tick of that metric type
    is refused.
- **The worker pool** (`ProviderThreadPool.afterExecute`). After each task it adds the
  elapsed time to the pool-wide totals. It then puts the task into exactly one of four
  outcomes: success, timeout, notPermitted or error. The order of precedence is the
  timeout flag, the circuit-open flag, the throwable passed in, and finally the task's
  future. Last, it updates the counters of the task's metric type.

Files:

- `model.dfy` (module `Model`): the shared entities, Java `int` wrap-around, and the
  dot-split lemma that both key formats rely on.
- `collector.dfy` (module `Collectors`): the semaphore, breaker and cache services as
  classes, `Collector` with its two flags, and `Run`.
- `provider_thread_pool.dfy` (module `ThreadPool`):
  - the classification `Classify`;
  - the per-metric update `Record`;
  - the monitoring sink `MetricsMonitorService`;
  - `ProviderThreadPool.AfterExecute`;
  - lemmas about whole runs of tasks.
- `hit_log_poller.dfy` (module `Poller`):
  - the registry as a value (`Register`, `RegisterAll`);
  - the `HitLogPoller` class, whose methods are proved against those functions;
  - lemmas about overwriting and about the order in which the caches are loaded.
- `pipeline.dfy` (module `Pipeline`): one task end to end, `Collector.run` followed by
  `afterExecute`. It is checked against an independent table of which counter each
  result should land in.

How some cases are counted:

- **Tick refused for lack of a permit.** `run` logs and returns normally, with no flag
  set. The task's future therefore completes normally, and `afterExecute` counts the
  tick as a **success** for its metric type, although no provider call was made.
  `Pipeline.Execute` and `Pipeline.ExpectedOutcome` state this.
- **TimeoutException passed in.** When `afterExecute` receives a TimeoutException as
  `t` while neither flag is set, the task counts as a timeout. Classification is by
  exception class, so the flags are not the only route to the timeout counter.
- **Exception from the future.** An exception that reaches `afterExecute` only through
  the future comes out of `Future.get` as an ExecutionException. It therefore counts as
  an error, whatever its cause.

## Model

| member | source | states |
|---|---|---|
| Model.WrapInt32 | src/main/java/com/beta/providerthread/concurrent/Collector.java:79-80 | the result is the Java `int` congruent to the input modulo 2^32, and it equals the input when the input is in range |
| Model.SplitAtFirstDot | src/main/java/com/beta/providerthread/poller/HitLogPoller.java:85 | when the prefixes contain no dot, `a + "." + b == c + "." + d` holds exactly when `a == c` and `b == d` |
| Collectors.CacheKeyCharacterised | src/main/java/com/beta/providerthread/concurrent/Collector.java:103-106 | two samples share a cache key exactly when they have the same mo type and the same metric name + mo id concatenation (mo types without dots) |
| Collectors.CacheKeyCollision | src/main/java/com/beta/providerthread/concurrent/Collector.java:105 | two samples of different metrics on different mos ("cpu1" on mo "2" and "cpu" on mo "12") get the same cache key, so one overwrites the other |
| Collectors.FailureDuration | src/main/java/com/beta/providerthread/concurrent/Collector.java:79-80 | the duration reported to the breaker is `bizTimeout * 1000` exactly for 0..2147483, and otherwise that product wrapped to 32 bits |
| Collectors.FailureDurationOverflows | src/main/java/com/beta/providerthread/concurrent/Collector.java:79-80 | a `bizTimeout` of 2147484 seconds is reported as -2147483296 |
| Collectors.FlagHandlersDisjoint | src/main/java/com/beta/providerthread/concurrent/Collector.java:76-88 | no result sets both flags, and only errors set a flag |
| Collectors.BreakerReports | src/main/java/com/beta/providerthread/concurrent/Collector.java:76-88 | one attempt makes exactly one `onError` call (metric type, wrapped duration, the exception) on a timeout or an open circuit, and none otherwise |
| Collectors.SemaphoreService.TryAcquire | src/main/java/com/beta/providerthread/concurrent/Collector.java:62-64 | succeeds exactly when a permit is available (one for a semaphore not yet created) and takes it, and otherwise changes nothing |
| Collectors.SemaphoreService.Release | src/main/java/com/beta/providerthread/concurrent/Collector.java:89-96 | returns one permit to the metric type's semaphore |
| Collectors.CircuitBreakerService.OnError | src/main/java/com/beta/providerthread/concurrent/Collector.java:76-88 | appends the failure to the breaker's record |
| Collectors.MetricsValueCache.Put | src/main/java/com/beta/providerthread/concurrent/Collector.java:106 | stores the sample under the key, replacing any earlier value |
| Collectors.Collector.constructor | src/main/java/com/beta/providerthread/concurrent/Collector.java:44-57 | stores the services, hit log and timeout, with both flags clear |
| Collectors.Collector.Run | src/main/java/com/beta/providerthread/concurrent/Collector.java:60-101 | with no permit nothing changes and nothing is thrown; otherwise the permit count ends as it began after a value or an error and stays one lower after an empty completion, no run sets both flags, each flag is set exactly when its exception class was raised, the breaker receives `BreakerReports`, a value is cached under `CacheKey`, and an error is rethrown |
| ThreadPool.Classify | src/main/java/com/beta/providerthread/concurrent/ProviderThreadPool.java:74-102 | timeout exactly when the timeout flag is set or, with no flag set, a TimeoutException was passed in; notPermitted exactly when the timeout flag is clear and the open flag is set or a CircuitBreakerOpenException was passed in; success exactly when no flag, no throwable and no failed future; error otherwise |
| ThreadPool.Record | src/main/java/com/beta/providerthread/concurrent/ProviderThreadPool.java:92-106 | the outcome's counter rises by one and the others stay, finished rises by one, service time adds the elapsed time, and the maximum is the larger of the old maximum and the elapsed time |
| ThreadPool.RecordAllCounts | src/main/java/com/beta/providerthread/concurrent/ProviderThreadPool.java:92-103 | from zero, after any run of tasks each outcome counter equals the number of tasks with that outcome, the finished total equals the number of tasks, and the service time is their sum |
| ThreadPool.RecordAllMax | src/main/java/com/beta/providerthread/concurrent/ProviderThreadPool.java:104-106 | from zero, the maximum service time is at least every task's time and equals one of them (zero when no task ran) |
| ThreadPool.FromNanoToSeconds | src/main/java/com/beta/providerthread/concurrent/ProviderThreadPool.java:119-121 | whole seconds, truncated toward zero: bounded by the nanoseconds from both sides for either sign |
| ThreadPool.MetricsMonitorService.Increment | src/main/java/com/beta/providerthread/concurrent/ProviderThreadPool.java:92-102 | adds one to the given outcome's counter of the metric type, creating its counters at zero on first use |
| ThreadPool.MetricsMonitorService.AddServiceTime | src/main/java/com/beta/providerthread/concurrent/ProviderThreadPool.java:103 | adds the elapsed time to the metric type's service time |
| ThreadPool.MetricsMonitorService.UpdateMaxServiceTime | src/main/java/com/beta/providerthread/concurrent/ProviderThreadPool.java:104-106 | raises the metric type's maximum to the elapsed time when that is larger |
| ThreadPool.ProviderThreadPool.constructor | src/main/java/com/beta/providerthread/concurrent/ProviderThreadPool.java:15-50 | all pool-wide totals start at zero, with the given sink |
| ThreadPool.ProviderThreadPool.CountTask | src/main/java/com/beta/providerthread/concurrent/ProviderThreadPool.java:91-106 | only the metric type's entry changes, and it becomes `Record` of its old value |
| ThreadPool.ProviderThreadPool.AfterExecute | src/main/java/com/beta/providerthread/concurrent/ProviderThreadPool.java:61-108 | the pool-wide total, maximum and finished count are updated, and only the collector's metric type changes in the sink, to `Record` with the `Classify` outcome |
| Poller.PollerKeyInjective | src/main/java/com/beta/providerthread/poller/HitLogPoller.java:85 | when rule ids contain no dot, the `futureMap` key identifies the (rule id, mo id) pair |
| Poller.Register | src/main/java/com/beta/providerthread/poller/HitLogPoller.java:79-87 | a non-RPC hit log changes nothing; a non-positive interval throws IllegalArgumentException; otherwise exactly one timer (delay 0, period = interval) is appended, its key maps to it, other keys keep their timers, and consistency is preserved |
| Poller.ReAddOrphansOldTimer | src/main/java/com/beta/providerthread/poller/HitLogPoller.java:83-86 | re-adding a present key leaves the map's size unchanged but adds a timer, and the old timer stays scheduled with no key referring to it |
| Poller.TimersOutnumberKeys | src/main/java/com/beta/providerthread/poller/HitLogPoller.java:83-86 | a consistent registry never holds more keys than scheduled timers |
| Poller.RegisterAll | src/main/java/com/beta/providerthread/poller/HitLogPoller.java:66-73 | a batch throws exactly when some RPC hit log in it has a non-positive interval, and the exception is IllegalArgumentException; earlier timers are kept, and consistency is preserved |
| Poller.RegisterAllAppend | src/main/java/com/beta/providerthread/poller/HitLogPoller.java:63-74 | registering `a + b` is registering `a`, then `b` unless `a` threw |
| Poller.LastRpc | src/main/java/com/beta/providerthread/poller/HitLogPoller.java:85-86 | a found hit log belongs to the batch, is RPC and has the key |
| Poller.LastRpcFound | src/main/java/com/beta/providerthread/poller/HitLogPoller.java:80-86 | every RPC hit log's key has a last RPC hit log in the batch |
| Poller.LastRpcAppend | src/main/java/com/beta/providerthread/poller/HitLogPoller.java:86 | the last RPC hit log of `a + b` comes from `b` whenever `b` has one for that key |
| Poller.RegisterAllFutureMap | src/main/java/com/beta/providerthread/poller/HitLogPoller.java:63-87 | after a batch that did not throw, each key of the batch maps to the timer of its last RPC hit log, and every other key keeps its entry |
| Poller.BatchRegistersEveryRpc | src/main/java/com/beta/providerthread/poller/HitLogPoller.java:66-73 | after a batch that did not throw, every RPC hit log of the batch has its key in the map |
| Poller.AlarmEntryWins | src/main/java/com/beta/providerthread/poller/HitLogPoller.java:63-74 | when an OM hit log and an alarm hit log share a key, the timer left in the map is an alarm one |
| Poller.TickRequest | src/main/java/com/beta/providerthread/poller/HitLogPoller.java:109-120 | a tick starts a collection exactly for an RPC hit log with an OM rule, with its mo and rule and a business timeout of 30000 |
| Poller.RegisteredTickFiltersOnRuleType | src/main/java/com/beta/providerthread/poller/HitLogPoller.java:112-113 | a tick of any registered timer starts a collection exactly when its rule is an OM rule |
| Poller.HitLogPoller.constructor | src/main/java/com/beta/providerthread/poller/HitLogPoller.java:50-61 | starts with an empty map and no timers |
| Poller.HitLogPoller.ScheduleAtFixedRate | src/main/java/com/beta/providerthread/poller/HitLogPoller.java:83-84 | a non-positive period throws IllegalArgumentException and schedules nothing; otherwise one timer is appended and its handle returned |
| Poller.HitLogPoller.AddHitLog | src/main/java/com/beta/providerthread/poller/HitLogPoller.java:79-87 | the new state is `Register` of the old one, or it is unchanged and the exception is returned; consistency is kept |
| Poller.HitLogPoller.AddAll | src/main/java/com/beta/providerthread/poller/HitLogPoller.java:66-69 | the state and the exception are `RegisterAll` of the old state |
| Poller.HitLogPoller.HandlerHitLogCache | src/main/java/com/beta/providerthread/poller/HitLogPoller.java:63-74 | the state and the exception are `RegisterAll` of the OM batch followed by the alarm batch |
| Poller.HitLogPoller.Tick | src/main/java/com/beta/providerthread/poller/HitLogPoller.java:109-120 | appends `TickRequest` of the timer's hit log when there is one, and changes nothing else |
| Pipeline.ClassifiesEmission | src/main/java/com/beta/providerthread/concurrent/ProviderThreadPool.java:74-102 | each result of a collection, passed through the flags and the rethrown exception, is classified as in `ExpectedOutcome` (whatever the future, for the flagged cases) |
| Pipeline.Execute | src/main/java/com/beta/providerthread/concurrent/Collector.java:60-101 | a task run end to end lands in the `ExpectedOutcome` counter, with a refused permit and an empty completion counted as successes; a breaker report is added and a value cached only when the permit was taken, and the permit count ends as it began except after an empty completion, which keeps it |
| Pipeline.EmptyCompletionBlocksMetric | src/main/java/com/beta/providerthread/concurrent/Collector.java:62-100 | after a chain that completes empty, the metric type's single permit stays taken, so the next tick of that type caches nothing and reports nothing to the breaker, and both ticks are counted as successes |

## Left out

- Thread-pool machinery is left out, because it is scheduling and not logic: queueing,
  priorities, the rejection controller, the thread factories, `beforeExecute` and
  `newTaskFor`/`ProviderTask`. Each task's collector is passed to `AfterExecute`
  directly. The task is taken to be a `Future`. Whether it is done, and how it
  completed, is the `FutureState` parameter.
- Elapsed time is a parameter. `System.nanoTime`, the `ThreadLocal` start time, clocks
  and the real timer schedule are not modelled. Elapsed times are assumed
  non-negative.
- Concurrency is not modelled. Counter updates are sequential, so the race between the
  check and the set of the maximum service time is absent. So is the scheduling of the
  reactive chain's callbacks on other threads. Two overlapping ticks cannot interleave,
  so a permit can be unavailable only because the semaphore's state says so.
- `getAvgServiceTime` is left out because it is floating-point division. Its helper
  `FromNanoToSeconds` is modelled.
- Counter widths are not modelled: `AtomicLong`/`AtomicInteger` overflow is left out.
  Counters and times are unbounded naturals.
- The reactive chain is replaced by its observable result, `Emission`. The model does
  not include:
  - the provider (`CacheMetricsProvider`, `MetricsProvider`);
  - the breaker's own state machine and its recording of successes;
  - the timer of the timeout operator.
- The breaker service is seen only through the explicit `onError` calls of `run`.
- `CollectorImpl` is not part of this model. A tick is modelled up to the collection
  request it starts (mo, rule, business timeout).
- Spring wiring, the event bus and its handling of an exception thrown by a subscriber,
  logging, and the unused `RestTemplate` are left out: they do not change the
  registry's state.
- `HitLog` is not part of this model. Its `getRuleId()` and `getMoId()` are taken to
  return the rule's id and the mo's id.
- `MetricsMonitorService` and `MetricsMonitorInfo` are not part of this model. A
  metric type seen for the first time is taken to start with all counters at zero.
- The caches' iteration order is unknown, so each cache is given as an arbitrary
  sequence of its hit logs. Properties that hold for every order
  (`RegisterAll`, `AlarmEntryWins`) cover it.
