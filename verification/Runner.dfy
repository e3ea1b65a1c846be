/** The runtime under measurement and the fail-fast benchmark loop. */
module Runner {
  import opened Domain
  import opened Metrics

  /** One adapter.run: a timed answer, or an exception and whether its text reads as out-of-memory. */
  datatype Reply =
    | Answer(totalDurationS: real, tokensPerSec: Option<real>)
    | Raised(message: string, readsAsOom: bool)

  /** Replies by call number: any adapter at all, including one whose behaviour drifts. */
  type Replies = (nat, string, string, Option<Config>) -> Reply

  type Prompts = p: seq<string> | p != [] witness ["hello"]

  class Adapter {
    const replies: Replies
    const reachable: nat -> bool
    var calls: nat
    var checks: nat

    constructor (replies: Replies, reachable: nat -> bool)
      ensures this.replies == replies && this.reachable == reachable
      ensures calls == 0 && checks == 0
    {
      this.replies, this.reachable := replies, reachable;
      calls, checks := 0, 0;
    }

    method IsAvailable() returns (up: bool)
      modifies this`checks
      ensures up == reachable(old(checks)) && checks == old(checks) + 1
    {
      up := reachable(checks);
      checks := checks + 1;
    }

    method Run(modelId: string, prompt: string, options: Option<Config>) returns (reply: Reply)
      modifies this`calls
      ensures reply == replies(old(calls), modelId, prompt, options) && calls == old(calls) + 1
    {
      reply := replies(calls, modelId, prompt, options);
      calls := calls + 1;
    }
  }

  /** One benchmark about to start: the adapter is at call number `at`. */
  datatype Trial = Trial(replies: Replies, at: nat, modelId: string, prompts: Prompts, options: Option<Config>) {

    function ReplyTo(i: nat): Reply
      requires i < |prompts|
    {
      replies(at + i, modelId, prompts[i], options)
    }

    predicate AllAnswered(k: nat)
      requires k <= |prompts|
    {
      forall i :: 0 <= i < k ==> ReplyTo(i).Answer?
    }

    /** The first prompt from `i` on whose call raises, or the number of prompts. */
    function FirstRaise(i: nat): (k: nat)
      requires i <= |prompts|
      ensures i <= k <= |prompts|
      ensures forall j :: i <= j < k ==> ReplyTo(j).Answer?
      ensures k < |prompts| ==> ReplyTo(k).Raised?
      decreases |prompts| - i
    {
      if i < |prompts| && ReplyTo(i).Answer? then FirstRaise(i + 1) else i
    }

    function Latencies(k: nat): (s: seq<real>)
      requires k <= |prompts| && AllAnswered(k)
      ensures |s| == k
      ensures forall i :: 0 <= i < k ==> s[i] == ReplyTo(i).totalDurationS
    {
      if k == 0 then [] else Latencies(k - 1) + [ReplyTo(k - 1).totalDurationS]
    }

    /** A throughput Python counts as true: present and not zero. */
    predicate Counts(i: nat)
      requires i < |prompts|
    {
      var reply := ReplyTo(i);
      reply.Answer? && reply.tokensPerSec.Some? && reply.tokensPerSec.value != 0.0
    }

    function Sample(i: nat): real
      requires i < |prompts| && Counts(i)
    {
      ReplyTo(i).tokensPerSec.value
    }

    function Samples(k: nat): seq<real>
      requires k <= |prompts|
    {
      if k == 0 then [] else Samples(k - 1) + if Counts(k - 1) then [Sample(k - 1)] else []
    }
  }

  function Sum(s: seq<real>): real {
    if s == [] then 0.0 else Sum(s[..|s| - 1]) + s[|s| - 1]
  }

  function Mean(s: seq<real>): Option<real> {
    if s == [] then None else Some(Sum(s) / |s| as real)
  }

  function OrEmpty(options: Option<Config>): Config {
    match options case None => map[] case Some(c) => c
  }

  /** What a benchmark reports, read off the first exception in its trial. */
  function Measurement(t: Trial): Benchmark {
    var k := t.FirstRaise(0);
    if k < |t.prompts| then
      Benchmark(OrEmpty(t.options), None, None, None,
        t.ReplyTo(k).readsAsOom, Some(t.ReplyTo(k).message), k, k + 1)
    else
      Benchmark(OrEmpty(t.options), Mean(t.Samples(k)),
        Some(Percentile(t.Latencies(k), 50.0)), Some(Percentile(t.Latencies(k), 95.0)),
        false, None, k, k)
  }

  method RunBenchmark(adapter: Adapter, modelId: string, prompts: Prompts, options: Option<Config>)
    returns (result: Benchmark)
    modifies adapter`calls
    ensures result == Measurement(Trial(adapter.replies, old(adapter.calls), modelId, prompts, options))
    ensures adapter.calls == old(adapter.calls) + result.samplesAttempted
  {
    ghost var t := Trial(adapter.replies, adapter.calls, modelId, prompts, options);
    var config := OrEmpty(options);
    var latencies: seq<real> := [];
    var samples: seq<real> := [];
    var attempted := 0;
    while attempted < |prompts|
      invariant attempted <= |prompts| && t.AllAnswered(attempted)
      invariant adapter.calls == t.at + attempted
      invariant latencies == t.Latencies(attempted) && samples == t.Samples(attempted)
    {
      var prompt := prompts[attempted];
      attempted := attempted + 1;
      var reply := adapter.Run(modelId, prompt, options);
      assert reply == t.ReplyTo(attempted - 1);
      match reply
      case Raised(message, readsAsOom) =>
        assert t.FirstRaise(0) == attempted - 1;
        return Benchmark(config, None, None, None, readsAsOom, Some(message), |latencies|, attempted);
      case Answer(duration, tps) =>
        latencies := latencies + [duration];
        if tps.Some? && tps.value != 0.0 {
          samples := samples + [tps.value];
        }
    }
    assert t.FirstRaise(0) == |prompts|;
    return Benchmark(config, Mean(samples),
      Some(Percentile(latencies, 50.0)), Some(Percentile(latencies, 95.0)), false, None, |latencies|, attempted);
  }

  /**
   * Success means no call raised. On failure exactly the call that raised is missing from the completed count, its
   * exception is what is reported, and nothing is called after it. Running out of memory is always a failure, so Viable
   * and Succeeded agree.
   */
  lemma {:induction false} MeasurementOutcome(t: Trial)
    ensures var b := Measurement(t);
      && (b.Succeeded() <==>
            forall i :: 0 <= i < |t.prompts| ==> t.replies(t.at + i, t.modelId, t.prompts[i], t.options).Answer?)
      && (b.Succeeded() ==> b.samplesAttempted == |t.prompts| && !b.oomOccurred)
      && (!b.Succeeded() ==>
            && b.samplesCompleted + 1 == b.samplesAttempted <= |t.prompts|
            && b.error.Some? && b.tokensPerSec.None? && b.p50LatencyS.None? && b.p95LatencyS.None?
            && (var k := b.samplesCompleted;
                && t.replies(t.at + k, t.modelId, t.prompts[k], t.options) == Raised(b.error.value, b.oomOccurred)
                && forall i :: 0 <= i < k ==> t.replies(t.at + i, t.modelId, t.prompts[i], t.options).Answer?))
      && (b.Viable() <==> b.Succeeded())
      && (t.options == Some(b.config) || (t.options.None? && b.config == map[]))
  {
    hide Percentile, Mean;
    var k := t.FirstRaise(0);
    forall i | 0 <= i < |t.prompts| ensures t.ReplyTo(i) == t.replies(t.at + i, t.modelId, t.prompts[i], t.options) {
    }
    if k < |t.prompts| {
      assert t.ReplyTo(k).Raised?;
    } else {
      assert forall i :: 0 <= i < |t.prompts| ==> t.ReplyTo(i).Answer?;
    }
  }

  /** The median never exceeds the 95th percentile; they are the measured latencies nearest to those two ranks. */
  lemma {:induction false} LatencyPercentiles(t: Trial)
    requires t.AllAnswered(|t.prompts|)
    ensures var b, latencies := Measurement(t), t.Latencies(|t.prompts|);
      && b.p50LatencyS.Some? && b.p95LatencyS.Some?
      && b.p50LatencyS.value <= b.p95LatencyS.value
      && AtRank(latencies, 50.0, b.p50LatencyS.value)
      && AtRank(latencies, 95.0, b.p95LatencyS.value)
  {
    hide Percentile, AtRank;
    assert t.FirstRaise(0) == |t.prompts|;
    var latencies := t.Latencies(|t.prompts|);
    PercentileMonotone(latencies, 50.0, 95.0);
    PercentileRank(latencies, 50.0);
    PercentileRank(latencies, 95.0);
  }

  lemma {:induction false} SampleIsFromReply(t: Trial, k: nat, j: nat) returns (i: nat)
    requires k <= |t.prompts| && j < |t.Samples(k)|
    ensures i < k && t.Counts(i) && t.Sample(i) == t.Samples(k)[j]
  {
    if j < |t.Samples(k - 1)| {
      i := SampleIsFromReply(t, k - 1, j);
    } else {
      i := k - 1;
    }
  }

  lemma {:induction false} ReplyIsSampled(t: Trial, k: nat, i: nat)
    requires i < k <= |t.prompts| && t.Counts(i)
    ensures t.Sample(i) in t.Samples(k)
  {
    if i < k - 1 {
      ReplyIsSampled(t, k - 1, i);
    }
  }

  lemma {:induction false} SumBounds(s: seq<real>, lo: real, hi: real)
    requires forall i :: 0 <= i < |s| ==> lo <= s[i] <= hi
    ensures lo * |s| as real <= Sum(s) <= hi * |s| as real
  {
    if s != [] {
      SumBounds(s[..|s| - 1], lo, hi);
    }
  }

  lemma MeanBounds(s: seq<real>, lo: real, hi: real)
    requires s != [] && forall i :: 0 <= i < |s| ==> lo <= s[i] <= hi
    ensures lo <= Mean(s).value <= hi
  {
    SumBounds(s, lo, hi);
    DivideBounds(Sum(s), |s| as real, lo, hi);
  }

  lemma SuccessThroughput(t: Trial)
    requires t.AllAnswered(|t.prompts|)
    ensures Measurement(t).tokensPerSec == Mean(t.Samples(|t.prompts|))
  {
    assert t.FirstRaise(0) == |t.prompts|;
  }

  /** The reported throughput is missing exactly when no reply carried a nonzero one. */
  lemma {:induction false} ThroughputMissing(t: Trial)
    requires t.AllAnswered(|t.prompts|)
    ensures Measurement(t).tokensPerSec.None? <==> forall i :: 0 <= i < |t.prompts| ==> !t.Counts(i)
  {
    SuccessThroughput(t);
    var n := |t.prompts|;
    if t.Samples(n) != [] {
      var i := SampleIsFromReply(t, n, 0);
    }
    forall i | 0 <= i < n && t.Counts(i) ensures t.Samples(n) != [] {
      ReplyIsSampled(t, n, i);
    }
  }

  /** The nonzero throughputs the first k replies carry, in total. */
  function TotalRate(t: Trial, k: nat): real
    requires k <= |t.prompts|
  {
    if k == 0 then 0.0
    else
      TotalRate(t, k - 1)
      + match t.replies(t.at + k - 1, t.modelId, t.prompts[k - 1], t.options)
        case Answer(_, Some(rate)) => rate
        case _ => 0.0
  }

  /** How many of the first k replies carry one. */
  function RatesGiven(t: Trial, k: nat): nat
    requires k <= |t.prompts|
  {
    if k == 0 then 0
    else
      RatesGiven(t, k - 1)
      + match t.replies(t.at + k - 1, t.modelId, t.prompts[k - 1], t.options)
        case Answer(_, Some(rate)) => if rate == 0.0 then 0 else 1
        case _ => 0
  }

  lemma {:induction false} SamplesTotal(t: Trial, k: nat)
    requires k <= |t.prompts|
    ensures Sum(t.Samples(k)) == TotalRate(t, k) && |t.Samples(k)| == RatesGiven(t, k)
  {
    if k != 0 {
      SamplesTotal(t, k - 1);
      assert t.Samples(k - 1) + [] == t.Samples(k - 1);
      assert t.Counts(k - 1) ==> t.Samples(k)[..|t.Samples(k)| - 1] == t.Samples(k - 1);
    }
  }

  lemma MeanTimesCount(s: seq<real>)
    requires s != []
    ensures Mean(s).value * |s| as real == Sum(s)
  {
    var n, total := |s| as real, Sum(s);
    assert total / n * n == total;
  }

  lemma SucceededAnswered(t: Trial)
    requires Measurement(t).Succeeded()
    ensures t.AllAnswered(|t.prompts|)
  {
    assert t.FirstRaise(0) == |t.prompts|;
  }

  /** The reported throughput is the average of the nonzero ones the replies carry, and missing when none does. */
  lemma {:induction false} ThroughputIsAverage(t: Trial)
    requires Measurement(t).Succeeded()
    ensures var n := |t.prompts|;
      match Measurement(t).tokensPerSec
      case None => RatesGiven(t, n) == 0
      case Some(mean) => 0 < RatesGiven(t, n) && mean * RatesGiven(t, n) as real == TotalRate(t, n)
  {
    hide Measurement, Sum, TotalRate, RatesGiven;
    SucceededAnswered(t);
    SuccessThroughput(t);
    SamplesTotal(t, |t.prompts|);
    var samples := t.Samples(|t.prompts|);
    if samples != [] {
      MeanTimesCount(samples);
    }
  }

  /** The reported throughput lies between any bounds on the counted samples. */
  lemma {:induction false} ThroughputBounds(t: Trial, lo: real, hi: real)
    requires t.AllAnswered(|t.prompts|)
    requires forall i :: 0 <= i < |t.prompts| && t.Counts(i) ==> lo <= t.Sample(i) <= hi
    ensures var mean := Measurement(t).tokensPerSec; mean.Some? ==> lo <= mean.value <= hi
  {
    hide Measurement, Sum;
    SuccessThroughput(t);
    var s := t.Samples(|t.prompts|);
    forall j | 0 <= j < |s| ensures lo <= s[j] <= hi {
      var i := SampleIsFromReply(t, |t.prompts|, j);
    }
    if s != [] {
      MeanBounds(s, lo, hi);
    }
  }

  lemma DivideBounds(x: real, n: real, lo: real, hi: real)
    requires 0.0 < n && lo * n <= x <= hi * n
    ensures lo <= x / n <= hi
  {
  }

  /** An adapter whose answers depend only on model, prompt and options measures a config the same every time. */
  lemma {:induction false} MeasurementRepeats(t: Trial, u: Trial)
    requires t.(at := 0) == u.(at := 0)
    requires forall i, j, p, o :: t.replies(i, t.modelId, p, o) == t.replies(j, t.modelId, p, o)
    ensures Measurement(t) == Measurement(u)
  {
    forall i | 0 <= i < |t.prompts| ensures t.ReplyTo(i) == u.ReplyTo(i) {
    }
    var k := t.FirstRaise(0);
    assert u.FirstRaise(0) == k;
    CollectedRepeat(t, u, k);
  }

  lemma {:induction false} CollectedRepeat(t: Trial, u: Trial, k: nat)
    requires |t.prompts| == |u.prompts| && k <= |t.prompts| && t.AllAnswered(k) && u.AllAnswered(k)
    requires forall i :: 0 <= i < k ==> t.ReplyTo(i) == u.ReplyTo(i)
    ensures t.Latencies(k) == u.Latencies(k) && t.Samples(k) == u.Samples(k)
  {
    if k != 0 {
      CollectedRepeat(t, u, k - 1);
    }
  }
}
