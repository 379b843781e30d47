/**
 * Benchmark metrics aggregation. The workers' request loops and the
 * one-second ticker are sequentialised: every worker starts, then the
 * responses are folded in one at a time, then the ticks run.
 */
module Benchmark {
  import Request

  datatype Metrics = Metrics(
    executedThreads: int,
    totalRequests: int,
    totalErrors: int,
    totalSuccess: int,
    totalBytesSent: int,
    totalBytesReceived: int,
    totalDuration: int,
    duration: int,
    requestsMinLatency: real,
    requestsMaxLatency: real,
    requestsPerSecond: int)

  datatype BenchmarkOptions = BenchmarkOptions(request: Request.RequestOptions, threadsAmount: int, duration: int)

  /** What one doRequest call contributes: the response's status code, body text and execution time. */
  datatype Sample = Sample(statusCode: int, result: string, executionTime: real)

  /** Every request is counted as exactly one success or one error. */
  predicate Balanced(m: Metrics) {
    m.totalRequests == m.totalSuccess + m.totalErrors
  }

  predicate IsSuccess(statusCode: int) {
    200 <= statusCode < 400
  }

  /** initialResultModel: every counter and latency at zero. */
  function InitialMetrics(): Metrics {
    Metrics(0, 0, 0, 0, 0, 0, 0, 0, 0.0, 0.0, 0)
  }

  /** The classification doRequest makes: 200 <= status < 400 is a success, anything else an error. */
  function Classify(m: Metrics, statusCode: int): (r: Metrics)
    ensures r.totalSuccess + r.totalErrors == m.totalSuccess + m.totalErrors + 1
    ensures IsSuccess(statusCode) ==> r == m.(totalSuccess := m.totalSuccess + 1)
    ensures !IsSuccess(statusCode) ==> r == m.(totalErrors := m.totalErrors + 1)
  {
    if 200 <= statusCode && statusCode < 400 then m.(totalSuccess := m.totalSuccess + 1)
    else m.(totalErrors := m.totalErrors + 1)
  }

  /**
   * Go's integer division, which truncates toward zero (Dafny's `/` is
   * Euclidean); a zero divisor panics, so it is excluded here and handled
   * by the callers that can meet it.
   */
  function GoDiv(a: int, b: int): (q: int)
    requires b != 0
    ensures a >= 0 && b > 0 ==> q == a / b
    ensures a >= 0 && b < 0 ==> q == -(a / -b)
    ensures q != 0 ==> a != 0 && (q > 0 <==> (a > 0) == (b > 0))
  {
    var x := if a < 0 then -a else a;
    var y := if b < 0 then -b else b;
    assert 0 <= x / y by { DivNonNegative(x, y); }
    assert x == 0 ==> x / y == 0;
    if (a < 0) == (b < 0) then x / y else -(x / y)
  }

  /** The quotient of a natural number by a positive one is a natural number. */
  lemma DivNonNegative(x: int, y: int)
    requires x >= 0 && y > 0
    ensures x / y >= 0
  {
  }

  /** The bytes one request sends: body, number of header keys, URL and method lengths. */
  function BytesSent(o: BenchmarkOptions): nat {
    |o.request.body| + |o.request.headers.Keys| + |o.request.url| + |o.request.httpMethod|
  }

  /** The update a worker makes under the lock after its request returned. */
  function Record(m: Metrics, o: BenchmarkOptions, s: Sample): (r: Metrics)
    requires o.duration != 0
  {
    var requests := m.totalRequests + 1;
    m.(totalRequests := requests,
       totalBytesReceived := m.totalBytesReceived + |s.result|,
       totalBytesSent := m.totalBytesSent + BytesSent(o),
       requestsPerSecond := GoDiv(requests, o.duration),
       requestsMinLatency :=
         if s.executionTime < m.requestsMinLatency || m.requestsMinLatency == 0.0 then s.executionTime
         else m.requestsMinLatency,
       requestsMaxLatency :=
         if s.executionTime > m.requestsMaxLatency then s.executionTime else m.requestsMaxLatency)
  }

  /** One worker iteration: doRequest's classification, then the locked update. */
  function Iteration(m: Metrics, o: BenchmarkOptions, s: Sample): (r: Metrics)
    requires o.duration != 0
    ensures r.totalRequests == m.totalRequests + 1
    ensures r.totalBytesReceived == m.totalBytesReceived + |s.result|
    ensures r.totalBytesSent == m.totalBytesSent + BytesSent(o)
    ensures r.requestsPerSecond == GoDiv(r.totalRequests, o.duration)
    ensures Balanced(m) ==> Balanced(r)
    ensures r.requestsMaxLatency >= m.requestsMaxLatency && r.requestsMaxLatency >= s.executionTime
    ensures m.requestsMinLatency == 0.0 ==> r.requestsMinLatency == s.executionTime
    ensures m.requestsMinLatency != 0.0 ==> r.requestsMinLatency <= m.requestsMinLatency
    ensures r.requestsMinLatency <= s.executionTime || r.requestsMinLatency == m.requestsMinLatency
  {
    Record(Classify(m, s.statusCode), o, s)
  }

  /** The metrics after the given responses, folded in order. */
  function Fold(m: Metrics, o: BenchmarkOptions, samples: seq<Sample>): Metrics
    requires o.duration != 0
    decreases |samples|
  {
    if samples == [] then m else Fold(Iteration(m, o, samples[0]), o, samples[1..])
  }

  function CountSuccesses(samples: seq<Sample>): nat {
    if samples == [] then 0 else (if IsSuccess(samples[0].statusCode) then 1 else 0) + CountSuccesses(samples[1..])
  }

  function TotalLength(samples: seq<Sample>): nat {
    if samples == [] then 0 else |samples[0].result| + TotalLength(samples[1..])
  }

  function MinLatency(samples: seq<Sample>): real
    requires samples != []
  {
    if |samples| == 1 then samples[0].executionTime
    else var rest := MinLatency(samples[1..]);
      if samples[0].executionTime < rest then samples[0].executionTime else rest
  }

  function MaxLatency(samples: seq<Sample>): real
    requires samples != []
  {
    if |samples| == 1 then samples[0].executionTime
    else var rest := MaxLatency(samples[1..]);
      if samples[0].executionTime > rest then samples[0].executionTime else rest
  }

  predicate AllPositive(samples: seq<Sample>) {
    forall k :: 0 <= k < |samples| ==> samples[k].executionTime > 0.0
  }

  /**
   * The counters after a run: one request per response, successes and
   * errors partition them, and the byte counters add up.
   */
  lemma {:induction false} FoldCounters(m: Metrics, o: BenchmarkOptions, samples: seq<Sample>)
    requires o.duration != 0 && Balanced(m)
    ensures var r := Fold(m, o, samples);
      && r.totalRequests == m.totalRequests + |samples|
      && r.totalSuccess == m.totalSuccess + CountSuccesses(samples)
      && r.totalErrors == m.totalErrors + |samples| - CountSuccesses(samples)
      && Balanced(r)
      && r.totalBytesReceived == m.totalBytesReceived + TotalLength(samples)
      && r.totalBytesSent == m.totalBytesSent + |samples| * BytesSent(o)
      && (samples != [] ==> r.requestsPerSecond == GoDiv(r.totalRequests, o.duration))
      && r.duration == m.duration && r.executedThreads == m.executedThreads
    decreases |samples|
  {
    if samples != [] {
      var m1 := Iteration(m, o, samples[0]);
      assert m1.totalSuccess == m.totalSuccess + (if IsSuccess(samples[0].statusCode) then 1 else 0);
      FoldCounters(m1, o, samples[1..]);
    }
  }

  /**
   * With positive latencies and a fresh record, the min and max latencies
   * after a run are the smallest and largest sample, so 0 < min <= max.
   */
  lemma {:induction false} FoldLatencies(m: Metrics, o: BenchmarkOptions, samples: seq<Sample>)
    requires o.duration != 0 && samples != [] && AllPositive(samples)
    requires m.requestsMinLatency == 0.0 && m.requestsMaxLatency == 0.0
    ensures Fold(m, o, samples).requestsMinLatency == MinLatency(samples)
    ensures Fold(m, o, samples).requestsMaxLatency == MaxLatency(samples)
    ensures 0.0 < Fold(m, o, samples).requestsMinLatency <= Fold(m, o, samples).requestsMaxLatency
  {
    var m1 := Iteration(m, o, samples[0]);
    assert m1.requestsMinLatency == samples[0].executionTime == m1.requestsMaxLatency;
    FoldLatenciesFrom(m1, o, samples[0], samples[1..]);
    assert [samples[0]] + samples[1..] == samples;
    LatencyBounds(samples);
  }

  /** Positive latencies have a positive minimum no larger than their maximum. */
  lemma {:induction false} LatencyBounds(samples: seq<Sample>)
    requires samples != [] && AllPositive(samples)
    ensures 0.0 < MinLatency(samples) <= MaxLatency(samples)
  {
    if |samples| > 1 {
      assert AllPositive(samples[1..]) by {
        forall k | 0 <= k < |samples[1..]| ensures samples[1..][k].executionTime > 0.0 {
          assert samples[1..][k] == samples[k + 1];
        }
      }
      LatencyBounds(samples[1..]);
    }
  }

  /** The inductive step: once a first sample is in, min and max track the running extremes. */
  lemma {:induction false} FoldLatenciesFrom(m: Metrics, o: BenchmarkOptions, first: Sample, rest: seq<Sample>)
    requires o.duration != 0 && AllPositive([first] + rest)
    requires m.requestsMinLatency > 0.0 && m.requestsMinLatency <= m.requestsMaxLatency
    ensures
      && Fold(m, o, rest).requestsMinLatency == (if rest == [] then m.requestsMinLatency else Min2(m.requestsMinLatency, MinLatency(rest)))
      && Fold(m, o, rest).requestsMaxLatency == (if rest == [] then m.requestsMaxLatency else Max2(m.requestsMaxLatency, MaxLatency(rest)))
    decreases |rest|
  {
    if rest != [] {
      var m1 := Iteration(m, o, rest[0]);
      assert rest[0] == ([first] + rest)[1];
      assert AllPositive([first] + rest[1..]) by {
        forall k | 0 <= k < |[first] + rest[1..]| ensures ([first] + rest[1..])[k].executionTime > 0.0 {
          if k > 0 { assert ([first] + rest[1..])[k] == ([first] + rest)[k + 1]; }
          else { assert ([first] + rest)[0] == first; }
        }
      }
      FoldLatenciesFrom(m1, o, first, rest[1..]);
    }
  }

  function Min2(a: real, b: real): real { if a < b then a else b }
  function Max2(a: real, b: real): real { if a > b then a else b }

  /** A holder for the published snapshot (`*metrics`). */
  class MetricsCell {
    var value: Metrics
    constructor ()
      ensures value == InitialMetrics()
    {
      value := InitialMetrics();
    }
  }

  /** The worker-shared record: BenchmarkResult without its mutex. */
  class BenchmarkResult {
    var metrics: Metrics

    /** initialResultModel */
    constructor ()
      ensures metrics == InitialMetrics()
    {
      metrics := InitialMetrics();
    }

    /** doRequest's counter update for a response with the given status code. */
    method DoRequest(statusCode: int)
      modifies this
      ensures metrics == Classify(old(metrics), statusCode)
    {
      if statusCode >= 200 && statusCode < 400 {
        metrics := metrics.(totalSuccess := metrics.totalSuccess + 1);
      } else {
        metrics := metrics.(totalErrors := metrics.totalErrors + 1);
      }
    }

    /**
     * One worker iteration, ending with the snapshot being published. With
     * a zero duration the division panics after the counters were updated
     * and before anything is published; `panicked` reports it.
     */
    method Iterate(o: BenchmarkOptions, s: Sample, published: MetricsCell) returns (panicked: bool)
      modifies this, published
      ensures panicked <==> o.duration == 0
      ensures !panicked ==> metrics == Iteration(old(metrics), o, s) && published.value == metrics
      ensures panicked ==>
        && metrics == Classify(old(metrics), s.statusCode).(totalRequests := old(metrics.totalRequests) + 1,
             totalBytesReceived := old(metrics.totalBytesReceived) + |s.result|,
             totalBytesSent := old(metrics.totalBytesSent) + BytesSent(o))
        && published.value == old(published.value)
    {
      DoRequest(s.statusCode);
      var requests := metrics.totalRequests + 1;
      metrics := metrics.(totalRequests := requests);
      metrics := metrics.(totalBytesReceived := metrics.totalBytesReceived + |s.result|);
      metrics := metrics.(totalBytesSent := metrics.totalBytesSent
                            + |o.request.body| + |o.request.headers.Keys| + |o.request.url| + |o.request.httpMethod|);
      if o.duration == 0 {
        return true;
      }
      metrics := metrics.(requestsPerSecond := GoDiv(metrics.totalRequests, o.duration));
      if s.executionTime < metrics.requestsMinLatency || metrics.requestsMinLatency == 0.0 {
        metrics := metrics.(requestsMinLatency := s.executionTime);
      }
      if s.executionTime > metrics.requestsMaxLatency {
        metrics := metrics.(requestsMaxLatency := s.executionTime);
      }
      published.value := metrics;
      panicked := false;
    }
  }

  /** How a run ends: normally, or with the integer-division panic of a zero duration. */
  datatype RunOutcome = Completed | DivisionByZero

  /**
   * The metrics a sequentialised run with a non-zero duration ends with:
   * the fold of the samples, with the seconds the ticker counted (none when
   * the duration is negative).
   */
  function RunResult(o: BenchmarkOptions, samples: seq<Sample>): Metrics
    requires o.duration != 0
  {
    var started := InitialMetrics().(totalDuration := o.duration,
                                     executedThreads := if o.threadsAmount > 0 then o.threadsAmount else 0);
    Fold(started, o, samples).(duration := if o.duration > 0 then o.duration else 0)
  }

  /**
   * RunBenchmark, sequentialised: each of the threadsAmount workers counts
   * itself once, the responses are folded in, then each of the `duration`
   * ticks adds one second and publishes the record. `samples` are the
   * requests the workers started before the ticker closed `done`. With a
   * zero (or negative) duration the ticker closes it at once; with zero,
   * a worker that already started a request panics at the division.
   */
  method RunBenchmark(o: BenchmarkOptions, samples: seq<Sample>, published: MetricsCell) returns (outcome: RunOutcome)
    modifies published
    ensures outcome == DivisionByZero <==> o.duration == 0 && samples != []
    ensures o.duration == 0 ==> published.value == old(published.value)
    ensures o.duration < 0 && samples == [] ==> published.value == old(published.value)
    ensures o.duration > 0 || (o.duration < 0 && samples != []) ==> published.value == RunResult(o, samples)
  {
    var model := new BenchmarkResult();
    model.metrics := model.metrics.(totalDuration := o.duration);
    var w := 0;
    while w < o.threadsAmount
      invariant 0 <= w && (o.threadsAmount >= 0 ==> w <= o.threadsAmount) && (o.threadsAmount < 0 ==> w == 0)
      invariant model.metrics == InitialMetrics().(totalDuration := o.duration, executedThreads := w)
      invariant published.value == old(published.value)
    {
      model.metrics := model.metrics.(executedThreads := model.metrics.executedThreads + 1);
      w := w + 1;
    }
    ghost var started := model.metrics;
    for i := 0 to |samples|
      invariant o.duration == 0 ==> i == 0
      invariant o.duration != 0 ==> Fold(started, o, samples) == Fold(model.metrics, o, samples[i..])
      invariant i == 0 ==> published.value == old(published.value)
      invariant i > 0 ==> published.value == model.metrics
    {
      assert samples[i..][0] == samples[i] && samples[i..][1..] == samples[i + 1..];
      var panicked := model.Iterate(o, samples[i], published);
      if panicked {
        return DivisionByZero;
      }
    }
    outcome := Completed;
    if o.duration == 0 {
      return;
    }
    assert samples[|samples|..] == [];
    FoldCounters(started, o, samples);
    var t := 0;
    ghost var folded := model.metrics;
    while t < o.duration
      invariant 0 <= t && (o.duration > 0 ==> t <= o.duration) && (o.duration < 0 ==> t == 0)
      invariant model.metrics == folded.(duration := t)
      invariant t > 0 || samples != [] ==> published.value == model.metrics
      invariant t == 0 && samples == [] ==> published.value == old(published.value)
    {
      model.metrics := model.metrics.(duration := model.metrics.duration + 1);
      published.value := model.metrics;
      t := t + 1;
    }
  }
}
