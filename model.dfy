/**
 * The entities shared by the scheduler: rules, managed objects, hit logs,
 * samples, and the kinds of failure the pipeline distinguishes.
 */
module Model {

  datatype Option<T> = None | Some(value: T)

  /** A value, or the exception thrown instead of returning one. */
  datatype Result<T> = Ok(value: T) | Thrown(cause: Throwable)

  /** Java's 32-bit `int`. */
  newtype int32 = x: int | -0x8000_0000 <= x < 0x8000_0000

  /** Two's-complement wrap-around of a Java `int` expression evaluated on unbounded integers. */
  function WrapInt32(x: int): (r: int32)
    ensures (r as int - x) % 0x1_0000_0000 == 0
    ensures -0x8000_0000 <= x < 0x8000_0000 ==> r as int == x
  {
    var m := x % 0x1_0000_0000;
    if m < 0x8000_0000 then m as int32 else (m - 0x1_0000_0000) as int32
  }

  /** Where the dot and the prefix sit in `a + "." + b`. */
  lemma DotAfterPrefix(a: string, b: string)
    ensures (a + "." + b)[|a|] == '.'
    ensures forall i :: 0 <= i < |a| ==> (a + "." + b)[i] == a[i]
    ensures (a + "." + b)[..|a|] == a && (a + "." + b)[|a| + 1..] == b
  {
  }

  /** Splitting a `prefix + "." + rest` string at its first dot recovers both parts. */
  lemma {:induction false} SplitAtFirstDot(a: string, b: string, c: string, d: string)
    requires '.' !in a && '.' !in c
    ensures a + "." + b == c + "." + d <==> a == c && b == d
  {
    if a + "." + b == c + "." + d {
      DotAfterPrefix(a, b);
      DotAfterPrefix(c, d);
      if |a| < |c| {
        assert false;
      } else if |c| < |a| {
        assert false;
      }
    }
  }

  /** The transport a metric is sampled through; only RPC is scheduled. */
  datatype ProviderType = RPC | OtherProvider(name: string)

  /** The category of a rule; only OM rules are collected on a tick. */
  datatype RuleType = OM | OtherRule(name: string)

  datatype Metrics = Metrics(name: string, providerType: ProviderType)

  /** A rule: which metric to collect, and every how many seconds. */
  datatype Rule = Rule(id: string, metrics: Metrics, sampleInterval: int, ruleType: RuleType)

  /** A managed object: the target of a sample. */
  datatype Mo = Mo(moType: string, id: string)

  /** "This rule is active for this managed object." */
  datatype HitLog = HitLog(rule: Rule, mo: Mo)
  {
    function RuleId(): string { rule.id }
    function MoId(): string { mo.id }
    predicate IsRpc() { rule.metrics.providerType == RPC }
  }

  /** The result of one successful provider call. */
  datatype SampleValue = SampleValue(mo: Mo, metrics: Metrics, value: int, timestamp: int)

  /**
   * The exceptions the scheduler tells apart by their class. Every other
   * throwable, including the ExecutionException that `Future.get` raises,
   * is an OtherException.
   */
  datatype Throwable =
    | TimeoutException
    | CircuitBreakerOpenException
    | IllegalArgumentException
    | OtherException(className: string)
}
