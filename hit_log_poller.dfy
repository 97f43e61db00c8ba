/**
 * The task registry: one fixed-rate timer per (rule, managed object) pair,
 * its handle kept in `futureMap` under `ruleId + "." + moId`, and the tick
 * that hands each due hit log to the collection path.
 *
 * The scheduled executor is seen through the timers it holds: scheduling
 * appends a timer and its handle is its position. Nothing ever cancels a
 * timer, so the list only grows.
 */
module Poller {
  import opened Model

  /** The `futureMap` key of a hit log. */
  function PollerKey(h: HitLog): string
  {
    h.RuleId() + "." + h.MoId()
  }

  /** When rule ids contain no dot, the key identifies the (rule id, mo id) pair. */
  lemma PollerKeyInjective(g: HitLog, h: HitLog)
    requires '.' !in g.RuleId() && '.' !in h.RuleId()
    ensures PollerKey(g) == PollerKey(h) <==> g.RuleId() == h.RuleId() && g.MoId() == h.MoId()
  {
    SplitAtFirstDot(g.RuleId(), g.MoId(), h.RuleId(), h.MoId());
  }

  /** A timer of the scheduled executor: the hit log it runs, its initial delay and period in seconds. */
  datatype Timer = Timer(task: HitLog, initialDelay: int, period: int)

  /** The registry: `futureMap` (key to timer handle) and the executor's timers. */
  datatype Registry = Registry(futureMap: map<string, nat>, timers: seq<Timer>)

  /**
   * Every handle in the map names a timer of that key, and every timer is an
   * RPC hit log scheduled at once and then every sample interval.
   */
  ghost predicate Consistent(r: Registry)
  {
    && (forall k :: k in r.futureMap ==>
          r.futureMap[k] < |r.timers| && PollerKey(r.timers[r.futureMap[k]].task) == k)
    && (forall i :: 0 <= i < |r.timers| ==>
          var tm := r.timers[i];
          tm.task.IsRpc() && tm.initialDelay == 0 && tm.period == tm.task.rule.sampleInterval > 0)
  }

  /**
   * `addHitLog`: a non-RPC hit log changes nothing; otherwise a timer with
   * initial delay 0 and period = sample interval is scheduled (the executor
   * throws IllegalArgumentException for a period that is not positive) and
   * its handle is put under the hit log's key, replacing any earlier one.
   */
  function Register(r: Registry, h: HitLog): (res: Result<Registry>)
    ensures !h.IsRpc() ==> res == Ok(r)
    ensures h.IsRpc() && h.rule.sampleInterval <= 0 ==> res == Thrown(IllegalArgumentException)
    ensures h.IsRpc() && h.rule.sampleInterval > 0 ==>
      && res.Ok?
      && |res.value.timers| == |r.timers| + 1
      && res.value.timers[..|r.timers|] == r.timers
      && res.value.timers[|r.timers|] == Timer(h, 0, h.rule.sampleInterval)
      && res.value.futureMap.Keys == r.futureMap.Keys + {PollerKey(h)}
      && res.value.futureMap[PollerKey(h)] == |r.timers|
      && (forall k :: k in r.futureMap && k != PollerKey(h) ==> res.value.futureMap[k] == r.futureMap[k])
    ensures res.Ok? && Consistent(r) ==> Consistent(res.value)
  {
    if !h.IsRpc() then Ok(r)
    else if h.rule.sampleInterval <= 0 then Thrown(IllegalArgumentException)
    else
      var handle := |r.timers|;
      Ok(Registry(r.futureMap[PollerKey(h) := handle], r.timers + [Timer(h, 0, h.rule.sampleInterval)]))
  }

  /**
   * Adding a hit log whose key is already present overwrites the entry
   * without cancelling the old timer: the map keeps its size, one more timer
   * exists, and the old timer is still scheduled but no key refers to it.
   */
  lemma ReAddOrphansOldTimer(r: Registry, h: HitLog)
    requires Consistent(r)
    requires h.IsRpc() && h.rule.sampleInterval > 0 && PollerKey(h) in r.futureMap
    ensures var n := Register(r, h).value;
      var old_ := r.futureMap[PollerKey(h)];
      && |n.futureMap| == |r.futureMap|
      && |n.timers| == |r.timers| + 1
      && old_ < |n.timers| && n.timers[old_] == r.timers[old_]
      && old_ !in n.futureMap.Values
  {
  }

  /** The handles `0 .. n-1`. */
  function Below(n: nat): (s: set<nat>)
    ensures forall i: nat :: i in s <==> i < n
    ensures |s| == n
  {
    if n == 0 then {}
    else
      var prev := Below(n - 1);
      assert n - 1 !in prev;
      prev + {n - 1}
  }

  /** A map from keys to handles below `n` that sends distinct keys to distinct handles has at most `n` keys. */
  lemma {:induction false} InjectiveMapSize(m: map<string, nat>, handles: set<nat>)
    requires forall k :: k in m ==> m[k] in handles
    requires forall k, k' :: k in m && k' in m && k != k' ==> m[k] != m[k']
    ensures |m| <= |handles|
    decreases |m|
  {
    if m != map[] {
      var k :| k in m;
      var rest := m - {k};
      assert |rest.Keys| == |m.Keys| - 1;
      InjectiveMapSize(rest, handles - {m[k]});
    }
  }

  /** In a consistent registry there are at least as many timers as keys. */
  lemma TimersOutnumberKeys(r: Registry)
    requires Consistent(r)
    ensures |r.futureMap| <= |r.timers|
  {
    forall k, k' | k in r.futureMap && k' in r.futureMap && k != k'
      ensures r.futureMap[k] != r.futureMap[k']
    {
    }
    InjectiveMapSize(r.futureMap, Below(|r.timers|));
  }

  /** The outcome of registering a batch: the registry and the exception that stopped it, if any. */
  datatype Batch = Batch(reg: Registry, thrown: Option<Throwable>)

  /**
   * `forEach(addHitLog)` over a cache: registers each hit log in turn; the
   * first exception stops the iteration, leaving earlier registrations in place.
   */
  function RegisterAll(r: Registry, hs: seq<HitLog>): (b: Batch)
    ensures b.thrown.None? <==> forall i :: 0 <= i < |hs| && hs[i].IsRpc() ==> hs[i].rule.sampleInterval > 0
    ensures b.thrown.Some? ==> b.thrown == Some(IllegalArgumentException)
    ensures |r.timers| <= |b.reg.timers| && b.reg.timers[..|r.timers|] == r.timers
    ensures Consistent(r) ==> Consistent(b.reg)
    decreases |hs|
  {
    if hs == [] then Batch(r, None)
    else
      match Register(r, hs[0])
      case Thrown(e) => Batch(r, Some(e))
      case Ok(r') =>
        var b := RegisterAll(r', hs[1..]);
        assert forall i :: 1 <= i < |hs| ==> hs[i] == hs[1..][i - 1];
        assert b.reg.timers[..|r.timers|] == b.reg.timers[..|r'.timers|][..|r.timers|];
        b
  }

  /** Registering `a + b` is registering `a`, then `b` unless `a` threw. */
  lemma {:induction false} RegisterAllAppend(r: Registry, a: seq<HitLog>, b: seq<HitLog>)
    ensures RegisterAll(r, a + b) ==
      var first := RegisterAll(r, a);
      if first.thrown.Some? then first else RegisterAll(first.reg, b)
    decreases |a|
  {
    if a == [] {
      assert a + b == b;
    } else {
      assert (a + b)[0] == a[0] && (a + b)[1..] == a[1..] + b;
      match Register(r, a[0])
      case Thrown(e) =>
      case Ok(r') => RegisterAllAppend(r', a[1..], b);
    }
  }

  /** The last RPC hit log of `hs` with key `k`: the one whose timer a batch leaves in the map. */
  function LastRpc(hs: seq<HitLog>, k: string): (r: Option<HitLog>)
    ensures r.Some? ==> r.value in hs && r.value.IsRpc() && PollerKey(r.value) == k
    decreases |hs|
  {
    if hs == [] then None
    else
      var later := LastRpc(hs[1..], k);
      if later.Some? then later
      else if hs[0].IsRpc() && PollerKey(hs[0]) == k then Some(hs[0])
      else None
  }

  /** Every RPC hit log of a batch has a last one with its key. */
  lemma {:induction false} LastRpcFound(hs: seq<HitLog>, i: nat)
    requires i < |hs| && hs[i].IsRpc()
    ensures LastRpc(hs, PollerKey(hs[i])).Some?
    decreases |hs|
  {
    if i > 0 {
      assert hs[1..][i - 1] == hs[i];
      LastRpcFound(hs[1..], i - 1);
    }
  }

  /** The last of `a + b` comes from `b` whenever `b` has one. */
  lemma {:induction false} LastRpcAppend(a: seq<HitLog>, b: seq<HitLog>, k: string)
    ensures LastRpc(a + b, k) == if LastRpc(b, k).Some? then LastRpc(b, k) else LastRpc(a, k)
    decreases |a|
  {
    if a == [] {
      assert a + b == b;
    } else {
      assert (a + b)[0] == a[0] && (a + b)[1..] == a[1..] + b;
      LastRpcAppend(a[1..], b, k);
    }
  }

  /**
   * After a batch that did not throw, each key some RPC hit log of the batch
   * has maps to the timer of the last such hit log; every other key keeps
   * its entry.
   */
  lemma {:induction false} RegisterAllFutureMap(r: Registry, hs: seq<HitLog>)
    requires Consistent(r) && RegisterAll(r, hs).thrown.None?
    ensures var n := RegisterAll(r, hs).reg;
      forall k :: LastRpc(hs, k).Some? ==>
        k in n.futureMap && n.timers[n.futureMap[k]].task == LastRpc(hs, k).value
    ensures var n := RegisterAll(r, hs).reg;
      forall k :: LastRpc(hs, k).None? ==>
        (k in n.futureMap <==> k in r.futureMap) && (k in r.futureMap ==> n.futureMap[k] == r.futureMap[k])
    decreases |hs|
  {
    if hs != [] {
      var r' := Register(r, hs[0]).value;
      RegisterAllFutureMap(r', hs[1..]);
      var n := RegisterAll(r, hs).reg;
      assert n == RegisterAll(r', hs[1..]).reg;
      forall k | LastRpc(hs, k).Some?
        ensures k in n.futureMap && n.timers[n.futureMap[k]].task == LastRpc(hs, k).value
      {
        if LastRpc(hs[1..], k).None? {
          assert hs[0].IsRpc() && PollerKey(hs[0]) == k;
          assert r'.futureMap[k] == |r.timers| && r'.timers[|r.timers|].task == hs[0];
          assert n.timers[..|r'.timers|][|r.timers|] == r'.timers[|r.timers|];
        }
      }
    }
  }

  /** After a batch that did not throw, every RPC hit log of the batch has its key in the map. */
  lemma BatchRegistersEveryRpc(r: Registry, hs: seq<HitLog>)
    requires Consistent(r) && RegisterAll(r, hs).thrown.None?
    ensures forall i :: 0 <= i < |hs| && hs[i].IsRpc() ==> PollerKey(hs[i]) in RegisterAll(r, hs).reg.futureMap
  {
    RegisterAllFutureMap(r, hs);
    forall i | 0 <= i < |hs| && hs[i].IsRpc()
      ensures PollerKey(hs[i]) in RegisterAll(r, hs).reg.futureMap
    {
      LastRpcFound(hs, i);
    }
  }

  /**
   * `handlerHitLogCache` registers the OM cache before the alarm cache, so
   * where an OM hit log and an alarm hit log share a key, the alarm one's
   * timer is the one left in the map.
   */
  lemma AlarmEntryWins(r: Registry, om: seq<HitLog>, alarm: seq<HitLog>, j: nat)
    requires Consistent(r) && RegisterAll(r, om + alarm).thrown.None?
    requires j < |alarm| && alarm[j].IsRpc()
    ensures var n := RegisterAll(r, om + alarm).reg;
      PollerKey(alarm[j]) in n.futureMap && n.timers[n.futureMap[PollerKey(alarm[j])]].task in alarm
  {
    var k := PollerKey(alarm[j]);
    RegisterAllFutureMap(r, om + alarm);
    LastRpcFound(alarm, j);
    LastRpcAppend(om, alarm, k);
  }

  /** The collection a tick starts: the hit log's mo and rule, with a business timeout of 30 * 1000. */
  datatype CollectRequest = CollectRequest(mo: Mo, rule: Rule, bizTimeout: int32)

  const TickBizTimeout: int32 := 30 * 1000

  /** `HitLogTask.run`: only an RPC hit log of an OM rule starts a collection. */
  function TickRequest(h: HitLog): (r: Option<CollectRequest>)
    ensures r.Some? <==> h.IsRpc() && h.rule.ruleType == OM
    ensures r.Some? ==> r.value.mo == h.mo && r.value.rule == h.rule && r.value.bizTimeout as int == 30000
  {
    if h.IsRpc() && h.rule.ruleType == OM then Some(CollectRequest(h.mo, h.rule, TickBizTimeout)) else None
  }

  /** Every registered timer is RPC, so a tick of it collects exactly when its rule is an OM rule. */
  lemma RegisteredTickFiltersOnRuleType(r: Registry, i: nat)
    requires Consistent(r) && i < |r.timers|
    ensures TickRequest(r.timers[i].task).Some? <==> r.timers[i].task.rule.ruleType == OM
  {
  }

  class HitLogPoller {
    /** key: ruleId + "." + moId */
    var futureMap: map<string, nat>
    /** The timers of the scheduled executor, by handle. */
    var timers: seq<Timer>
    /** The collections started by ticks, in order. */
    var submitted: seq<CollectRequest>

    function State(): Registry
      reads this
    {
      Registry(futureMap, timers)
    }

    ghost predicate Valid()
      reads this
    {
      Consistent(State())
    }

    /** `init()`: an empty map on a fresh executor. */
    constructor ()
      ensures Valid() && futureMap == map[] && timers == [] && submitted == []
    {
      futureMap := map[];
      timers := [];
      submitted := [];
    }

    /** `scheduleAtFixedRate(task, initialDelay, period, SECONDS)`. */
    method ScheduleAtFixedRate(task: HitLog, initialDelay: int, period: int) returns (handle: Result<nat>)
      modifies this
      ensures period <= 0 ==> handle == Thrown(IllegalArgumentException) && unchanged(this)
      ensures period > 0 ==>
        && handle == Ok(old(|timers|))
        && timers == old(timers) + [Timer(task, initialDelay, period)]
        && futureMap == old(futureMap) && submitted == old(submitted)
    {
      if period <= 0 {
        return Thrown(IllegalArgumentException);
      }
      handle := Ok(|timers|);
      timers := timers + [Timer(task, initialDelay, period)];
    }

    /** `addHitLog(hitLog)`: the state becomes `Register` of the old one; an exception is returned. */
    method AddHitLog(h: HitLog) returns (thrown: Option<Throwable>)
      requires Valid()
      modifies this
      ensures Valid() && submitted == old(submitted)
      ensures Register(old(State()), h).Ok? ==> thrown == None && State() == Register(old(State()), h).value
      ensures Register(old(State()), h).Thrown? ==>
        thrown == Some(Register(old(State()), h).cause) && State() == old(State())
      ensures h.IsRpc() && thrown == None && PollerKey(h) in old(futureMap) ==>
        |futureMap| == |old(futureMap)| && |timers| == |old(timers)| + 1
    {
      if !h.IsRpc() {
        return None;
      }
      var future := ScheduleAtFixedRate(h, 0, h.rule.sampleInterval);
      if future.Thrown? {
        return Some(future.cause);
      }
      var key := h.RuleId() + "." + h.MoId();
      futureMap := futureMap[key := future.value];
      thrown := None;
      assert State() == Register(old(State()), h).value;
      assert futureMap.Keys == old(futureMap).Keys + {key};
    }

    /** One `forEach(addHitLog)` over a cache, in its iteration order. */
    method AddAll(hs: seq<HitLog>) returns (thrown: Option<Throwable>)
      requires Valid()
      modifies this
      ensures Valid() && submitted == old(submitted)
      ensures Batch(State(), thrown) == RegisterAll(old(State()), hs)
    {
      thrown := None;
      var i := 0;
      while i < |hs| && thrown.None?
        invariant 0 <= i <= |hs|
        invariant Valid() && submitted == old(submitted)
        invariant thrown.None? ==> RegisterAll(old(State()), hs) == RegisterAll(State(), hs[i..])
        invariant thrown.Some? ==> RegisterAll(old(State()), hs) == Batch(State(), thrown)
      {
        ghost var before := State();
        assert hs[i..][0] == hs[i] && hs[i..][1..] == hs[i + 1..];
        thrown := AddHitLog(hs[i]);
        if thrown.Some? {
          assert RegisterAll(before, hs[i..]) == Batch(before, thrown);
        }
        i := i + 1;
      }
      if thrown.None? {
        assert hs[i..] == [];
      }
    }

    /** `handlerHitLogCache`: the OM cache, then the alarm cache. */
    method HandlerHitLogCache(om: seq<HitLog>, alarm: seq<HitLog>) returns (thrown: Option<Throwable>)
      requires Valid()
      modifies this
      ensures Valid() && submitted == old(submitted)
      ensures Batch(State(), thrown) == RegisterAll(old(State()), om + alarm)
    {
      RegisterAllAppend(State(), om, alarm);
      thrown := AddAll(om);
      if thrown.None? {
        thrown := AddAll(alarm);
      }
    }

    /** A tick of the timer `handle`, whether or not a key still refers to it. */
    method Tick(handle: nat)
      requires handle < |timers|
      modifies this
      ensures futureMap == old(futureMap) && timers == old(timers)
      ensures var req := TickRequest(timers[handle].task);
        submitted == old(submitted) + (if req.Some? then [req.value] else [])
    {
      var hitLog := timers[handle].task;
      if hitLog.rule.metrics.providerType == RPC {
        if hitLog.rule.ruleType == OM {
          submitted := submitted + [CollectRequest(hitLog.mo, hitLog.rule, 30 * 1000)];
        }
      }
    }
  }
}
