/** The exporter: the six metric descriptors, Describe, and the translation of
    the two analytics results into metrics sent on the scrape's channel, with
    the liveness policy of each family. */
module Exporter {
  import opened Prometheus
  import opened Fetcher

  const Namespace: string := "cloudflare_worker"

  /** The six package-level descriptor variables. In the library a metric
      refers to its descriptor by pointer; here by the variable's name. */
  datatype Descriptor =
    | RequestsUp | CpuTimeUp | CpuTimePercentile
    | RequestsReceived | RequestsErrors | SubRequestsErrors

  /** The name each descriptor is built with, before the namespace. */
  function MetricName(d: Descriptor): string {
    match d
    case RequestsUp => "requests_up"
    case CpuTimeUp => "cpu_time_up"
    case CpuTimePercentile => "cpu_time_percentile"
    case RequestsReceived => "requests_received_total"
    case RequestsErrors => "errors_total"
    case SubRequestsErrors => "subrequests_total"
  }

  function Help(d: Descriptor): string {
    match d
    case RequestsUp => "Was the last Cloudflare Workers analytics requests request was successful."
    case CpuTimeUp => "Was the last Cloudflare Workers analytics cpu time request was successful."
    case CpuTimePercentile => "Cloudflare Workers CPU Time per Percentile analytics requests request was successful."
    case RequestsReceived => "How many requests have been received (per worker script)."
    case RequestsErrors => "How many errors have been returned (per worker script)."
    case SubRequestsErrors => "How many subrequests have been initiated (per worker script)."
  }

  function VariableLabels(d: Descriptor): seq<string> {
    match d
    case RequestsUp | CpuTimeUp => []
    case CpuTimePercentile => ["worker", "status", "percentile"]
    case RequestsReceived | RequestsErrors | SubRequestsErrors => ["worker", "status"]
  }

  /** The fully-qualified name NewDesc gives d: BuildFQName(namespace, "", name). */
  function FullName(d: Descriptor): string {
    BuildFQName(Namespace, "", MetricName(d))
  }

  /** The descriptor value NewDesc builds for d. */
  function DescOf(d: Descriptor): Desc {
    Desc(FullName(d), Help(d), VariableLabels(d))
  }

  /** The order in which Describe sends the descriptors. */
  const DescribeOrder: seq<Descriptor> :=
    [RequestsUp, RequestsReceived, RequestsErrors, SubRequestsErrors, CpuTimeUp, CpuTimePercentile]

  /** Describe sends the six descriptors, request family first. A descriptor
      is sent as a pointer to its package-level variable, modelled by the
      variable's name; DescOf gives the value it points to. */
  method Describe(ch: Channel<Descriptor>)
    modifies ch
    ensures ch.sent == old(ch.sent) + DescribeOrder
  {
    ch.Send(RequestsUp);
    ch.Send(RequestsReceived);
    ch.Send(RequestsErrors);
    ch.Send(SubRequestsErrors);

    ch.Send(CpuTimeUp);
    ch.Send(CpuTimePercentile);
  }

  /** Describe announces every descriptor, each exactly once, the request
      family's four first, with 0, 2, 2, 2, 0 and 3 variable labels. */
  lemma DescribeOrderComplete()
    ensures |DescribeOrder| == 6
    ensures forall d: Descriptor :: d in DescribeOrder
    ensures forall i, j :: 0 <= i < j < 6 ==> DescribeOrder[i] != DescribeOrder[j]
    ensures forall i :: 0 <= i < 6 ==> (FamilyOf(DescribeOrder[i]) == Requests <==> i < 4)
    ensures forall i :: 0 <= i < 6 ==> |VariableLabels(DescribeOrder[i])| == [0, 2, 2, 2, 0, 3][i]
  {
    forall d: Descriptor ensures d in DescribeOrder {
      var k := match d
        case RequestsUp => 0 case RequestsReceived => 1 case RequestsErrors => 2
        case SubRequestsErrors => 3 case CpuTimeUp => 4 case CpuTimePercentile => 5;
      assert DescribeOrder[k] == d;
    }
  }

  /** Every descriptor is named under the namespace; the per-worker ones are
      labelled by worker and status, the percentiles also by percentile, and
      the two liveness gauges carry no label. */
  lemma DescriptorNames(d: Descriptor)
    ensures FullName(d) == Namespace + "_" + MetricName(d)
    ensures VariableLabels(d) == [] <==> d == RequestsUp || d == CpuTimeUp
    ensures FamilyOf(d) == Requests && d != RequestsUp ==> VariableLabels(d) == ["worker", "status"]
    ensures d == CpuTimePercentile ==> VariableLabels(d) == ["worker", "status", "percentile"]
  {
    var name := MetricName(d);
    assert name != "" by {
      match d
      case RequestsUp =>
      case CpuTimeUp =>
      case CpuTimePercentile =>
      case RequestsReceived =>
      case RequestsErrors =>
      case SubRequestsErrors =>
    }
  }

  /** The descriptor value Describe's pointer for d refers to carries d's
      fully-qualified name and its variable labels. */
  lemma DescriptorValue(d: Descriptor)
    ensures DescOf(d).fqName == Namespace + "_" + MetricName(d)
    ensures DescOf(d).variableLabels == VariableLabels(d)
  {
    DescriptorNames(d);
  }

  /** No two descriptors share a fully-qualified name. */
  lemma DescriptorNamesDistinct(d: Descriptor, e: Descriptor)
    requires d != e
    ensures FullName(d) != FullName(e)
  {
    DescriptorNames(d);
    DescriptorNames(e);
    var a, b := MetricName(d), MetricName(e);
    assert a != b;
    var prefix := Namespace + "_";
    assert (prefix + a)[|prefix|..] == a;
    assert (prefix + b)[|prefix|..] == b;
  }

  // ----- The translation -----

  /** A constant metric: one sample of a described metric. */
  datatype Metric = Metric(desc: Descriptor, valueType: ValueType, value: Value, labelValues: seq<string>)

  /** One label value for every variable label of the descriptor. */
  predicate WellFormed(m: Metric) {
    |m.labelValues| == |VariableLabels(m.desc)|
  }

  /** MustNewConstMetric: the metric of desc with the given value and label
      values. Its precondition is the condition under which it does not panic. */
  function MustNewConstMetric(desc: Descriptor, valueType: ValueType, value: Value, labelValues: seq<string>): (m: Metric)
    requires |labelValues| == |VariableLabels(desc)|
    ensures WellFormed(m)
  {
    Metric(desc, valueType, value, labelValues)
  }

  /** The two metric families; each has its own query and liveness gauge. */
  datatype Family = Requests | CpuTime

  function FamilyOf(d: Descriptor): Family {
    match d
    case CpuTimeUp | CpuTimePercentile => CpuTime
    case RequestsUp | RequestsReceived | RequestsErrors | SubRequestsErrors => Requests
  }

  /** The test at the head of both collect functions: an error, or no account. */
  predicate Unusable(fetched: FetchResult) {
    fetched.Err? || |fetched.data.viewer.accounts| < 1
  }

  /** The rows that get translated: those of the first account only. */
  function Rows(fetched: FetchResult): seq<Invocation>
    requires !Unusable(fetched)
  {
    fetched.data.viewer.accounts[0].workersInvocationsAdaptive
  }

  /** A liveness gauge. */
  function Up(desc: Descriptor, flag: int): Metric
    requires VariableLabels(desc) == []
  {
    MustNewConstMetric(desc, GaugeValue, IntValue(flag), [])
  }

  /** The three counters of one row, labelled (worker, status). */
  function WorkerRequestMetrics(w: Invocation): seq<Metric> {
    var labels := [w.dimensions.scriptName, w.dimensions.status];
    [MustNewConstMetric(RequestsReceived, CounterValue, IntValue(w.sum.requests), labels),
     MustNewConstMetric(RequestsErrors, CounterValue, IntValue(w.sum.errors), labels),
     MustNewConstMetric(SubRequestsErrors, CounterValue, IntValue(w.sum.subrequests), labels)]
  }

  /** The counters of all rows, row by row. */
  function RequestMetrics(rows: seq<Invocation>): (ms: seq<Metric>)
    ensures |ms| == 3 * |rows|
  {
    if rows == [] then []
    else RequestMetrics(rows[..|rows| - 1]) + WorkerRequestMetrics(rows[|rows| - 1])
  }

  /** One turn of collectRequests' loop: having sent the counters of the
      first i rows after start, sending those of row i gives the first i + 1. */
  lemma RequestMetricsExtend(start: seq<Metric>, before: seq<Metric>, after: seq<Metric>, rows: seq<Invocation>, i: int)
    requires 0 <= i < |rows|
    requires before == start + RequestMetrics(rows[..i])
    requires after == before + WorkerRequestMetrics(rows[i])
    ensures after == start + RequestMetrics(rows[..i + 1])
  {
    assert rows[..i + 1][..i] == rows[..i];
    assert after == start + (RequestMetrics(rows[..i]) + WorkerRequestMetrics(rows[i]));
  }

  lemma {:induction false} RequestMetricsDescriptors(rows: seq<Invocation>)
    ensures forall m :: m in RequestMetrics(rows) ==>
      (m.desc == RequestsReceived || m.desc == RequestsErrors || m.desc == SubRequestsErrors) && WellFormed(m)
  {
    if rows != [] {
      RequestMetricsDescriptors(rows[..|rows| - 1]);
    }
  }

  /** Everything collectRequests sends for one fetch outcome. */
  function RequestsFamilyMetrics(fetched: FetchResult): seq<Metric> {
    if Unusable(fetched) then [Up(RequestsUp, 0)]
    else [Up(RequestsUp, 1)] + RequestMetrics(Rows(fetched))
  }

  /** The quantile a percentile label stands for. */
  function QuantileAt(q: Quantiles, k: int): Float64
    requires 0 <= k < 6
  {
    [q.cpuTimeP25, q.cpuTimeP50, q.cpuTimeP75, q.cpuTimeP90, q.cpuTimeP99, q.cpuTimeP999][k]
  }

  const Percentiles: seq<string> := ["25", "50", "75", "90", "99", "999"]

  /** The six percentile gauges of one row, labelled (worker, status, percentile). */
  function WorkerCpuMetrics(w: Invocation): seq<Metric> {
    var name, status, q := w.dimensions.scriptName, w.dimensions.status, w.quantiles;
    [MustNewConstMetric(CpuTimePercentile, GaugeValue, FloatValue(q.cpuTimeP25), [name, status, "25"]),
     MustNewConstMetric(CpuTimePercentile, GaugeValue, FloatValue(q.cpuTimeP50), [name, status, "50"]),
     MustNewConstMetric(CpuTimePercentile, GaugeValue, FloatValue(q.cpuTimeP75), [name, status, "75"]),
     MustNewConstMetric(CpuTimePercentile, GaugeValue, FloatValue(q.cpuTimeP90), [name, status, "90"]),
     MustNewConstMetric(CpuTimePercentile, GaugeValue, FloatValue(q.cpuTimeP99), [name, status, "99"]),
     MustNewConstMetric(CpuTimePercentile, GaugeValue, FloatValue(q.cpuTimeP999), [name, status, "999"])]
  }

  /** The percentile gauges of all rows, row by row. */
  function CpuMetrics(rows: seq<Invocation>): (ms: seq<Metric>)
    ensures |ms| == 6 * |rows|
  {
    if rows == [] then []
    else CpuMetrics(rows[..|rows| - 1]) + WorkerCpuMetrics(rows[|rows| - 1])
  }

  lemma {:induction false} CpuMetricsDescriptors(rows: seq<Invocation>)
    ensures forall m :: m in CpuMetrics(rows) ==> m.desc == CpuTimePercentile && WellFormed(m)
  {
    if rows != [] {
      CpuMetricsDescriptors(rows[..|rows| - 1]);
    }
  }

  /** One turn of collectCpuTime's loop: having sent the gauges of the first
      i rows after start, sending those of row i gives the first i + 1. */
  lemma CpuMetricsExtend(start: seq<Metric>, before: seq<Metric>, after: seq<Metric>, rows: seq<Invocation>, i: int)
    requires 0 <= i < |rows|
    requires before == start + CpuMetrics(rows[..i])
    requires after == before + WorkerCpuMetrics(rows[i])
    ensures after == start + CpuMetrics(rows[..i + 1])
  {
    assert rows[..i + 1][..i] == rows[..i];
    assert after == start + (CpuMetrics(rows[..i]) + WorkerCpuMetrics(rows[i]));
  }

  /** Everything collectCpuTime sends for one fetch outcome. */
  function CpuTimeFamilyMetrics(fetched: FetchResult): seq<Metric> {
    if Unusable(fetched) then [Up(CpuTimeUp, 0)]
    else [Up(CpuTimeUp, 1)] + CpuMetrics(Rows(fetched))
  }

  // ----- The collect functions -----

  method CollectRequests(ch: Channel<Metric>, fetched: FetchResult)
    modifies ch
    ensures ch.sent == old(ch.sent) + RequestsFamilyMetrics(fetched)
  {
    if fetched.Err? || |fetched.data.viewer.accounts| < 1 {
      ch.Send(Up(RequestsUp, 0));
      return;
    }
    ch.Send(Up(RequestsUp, 1));
    ghost var start := ch.sent;

    var results := fetched.data.viewer.accounts[0].workersInvocationsAdaptive;
    var i := 0;
    while i < |results|
      invariant 0 <= i <= |results|
      invariant ch.sent == start + RequestMetrics(results[..i])
    {
      ghost var before := ch.sent;
      var worker := results[i];
      var workerName := worker.dimensions.scriptName;
      var status := worker.dimensions.status;

      var received := MustNewConstMetric(RequestsReceived, CounterValue, IntValue(worker.sum.requests), [workerName, status]);
      var errors := MustNewConstMetric(RequestsErrors, CounterValue, IntValue(worker.sum.errors), [workerName, status]);
      var subrequests := MustNewConstMetric(SubRequestsErrors, CounterValue, IntValue(worker.sum.subrequests), [workerName, status]);
      ch.Send(received);
      ch.Send(errors);
      ch.Send(subrequests);
      assert ch.sent == before + [received, errors, subrequests];

      RequestMetricsExtend(start, before, ch.sent, results, i);
      i := i + 1;
    }
    assert results[..i] == results;
    assert ch.sent == old(ch.sent) + ([Up(RequestsUp, 1)] + RequestMetrics(results));
  }

  /** The body of collectCpuTime's loop: the six percentile gauges of one row. */
  method SendCpuTimePercentiles(ch: Channel<Metric>, worker: Invocation)
    modifies ch
    ensures ch.sent == old(ch.sent) + WorkerCpuMetrics(worker)
  {
    var workerName := worker.dimensions.scriptName;
    var status := worker.dimensions.status;
    var q := worker.quantiles;

    ch.Send(MustNewConstMetric(CpuTimePercentile, GaugeValue, FloatValue(q.cpuTimeP25), [workerName, status, "25"]));
    ch.Send(MustNewConstMetric(CpuTimePercentile, GaugeValue, FloatValue(q.cpuTimeP50), [workerName, status, "50"]));
    ch.Send(MustNewConstMetric(CpuTimePercentile, GaugeValue, FloatValue(q.cpuTimeP75), [workerName, status, "75"]));
    ch.Send(MustNewConstMetric(CpuTimePercentile, GaugeValue, FloatValue(q.cpuTimeP90), [workerName, status, "90"]));
    ch.Send(MustNewConstMetric(CpuTimePercentile, GaugeValue, FloatValue(q.cpuTimeP99), [workerName, status, "99"]));
    ch.Send(MustNewConstMetric(CpuTimePercentile, GaugeValue, FloatValue(q.cpuTimeP999), [workerName, status, "999"]));
  }

  method CollectCpuTime(ch: Channel<Metric>, fetched: FetchResult)
    modifies ch
    ensures ch.sent == old(ch.sent) + CpuTimeFamilyMetrics(fetched)
  {
    if fetched.Err? || |fetched.data.viewer.accounts| < 1 {
      ch.Send(Up(CpuTimeUp, 0));
      return;
    }
    ch.Send(Up(CpuTimeUp, 1));
    ghost var start := ch.sent;

    var results := fetched.data.viewer.accounts[0].workersInvocationsAdaptive;
    var i := 0;
    while i < |results|
      invariant 0 <= i <= |results|
      invariant ch.sent == start + CpuMetrics(results[..i])
    {
      var worker := results[i];
      ghost var before := ch.sent;
      SendCpuTimePercentiles(ch, worker);
      CpuMetricsExtend(start, before, ch.sent, results, i);
      i := i + 1;
    }
    assert results[..i] == results;
    assert ch.sent == old(ch.sent) + ([Up(CpuTimeUp, 1)] + CpuMetrics(results));
  }

  /** Collect runs both families on the one channel. The two goroutines are
      modelled by their two sequential orders, chosen by requestsFirst; any
      finer interleaving is covered by the lemmas on IsInterleaving below. */
  method Collect(ch: Channel<Metric>, requests: FetchResult, cpuTime: FetchResult, requestsFirst: bool)
    modifies ch
    ensures ch.sent == old(ch.sent) +
      if requestsFirst then RequestsFamilyMetrics(requests) + CpuTimeFamilyMetrics(cpuTime)
      else CpuTimeFamilyMetrics(cpuTime) + RequestsFamilyMetrics(requests)
  {
    ghost var before := ch.sent;
    ghost var rs, cs := RequestsFamilyMetrics(requests), CpuTimeFamilyMetrics(cpuTime);
    if requestsFirst {
      CollectRequests(ch, requests);
      CollectCpuTime(ch, cpuTime);
      assert ch.sent == before + (rs + cs);
    } else {
      CollectCpuTime(ch, cpuTime);
      CollectRequests(ch, requests);
      assert ch.sent == before + (cs + rs);
    }
  }

  // ----- What each family sends -----

  /** An error or an empty account list gives exactly the liveness gauge at 0. */
  lemma RequestsOnFailure(fetched: FetchResult)
    requires fetched.Err? || fetched.data.viewer.accounts == []
    ensures RequestsFamilyMetrics(fetched) == [Metric(RequestsUp, GaugeValue, IntValue(0), [])]
  {
  }

  /** On success with N rows in the first account: 1 + 3N metrics, the first
      being the liveness gauge at 1 (so zero rows give just that gauge). */
  lemma RequestsOnSuccess(fetched: FetchResult)
    requires fetched.Ok? && |fetched.data.viewer.accounts| >= 1
    ensures var ms := RequestsFamilyMetrics(fetched);
      |ms| == 1 + 3 * |fetched.data.viewer.accounts[0].workersInvocationsAdaptive| &&
      ms[0] == Metric(RequestsUp, GaugeValue, IntValue(1), [])
  {
  }

  lemma {:induction false} RequestMetricsAt(rows: seq<Invocation>, i: int)
    requires 0 <= i < |rows|
    ensures RequestMetrics(rows)[3 * i..3 * i + 3] == WorkerRequestMetrics(rows[i])
    decreases |rows|
  {
    var n := |rows| - 1;
    var front := rows[..n];
    assert RequestMetrics(rows) == RequestMetrics(front) + WorkerRequestMetrics(rows[n]);
    if i < n {
      RequestMetricsAt(front, i);
      assert rows[i] == front[i];
    }
  }

  /** Row i of the first account gives the metrics at 1 + 3i, 2 + 3i and
      3 + 3i: requests received, errors and subrequests, in that order, each
      labelled with the row's script name and status. */
  lemma RequestsRow(fetched: FetchResult, i: int)
    requires fetched.Ok? && |fetched.data.viewer.accounts| >= 1
    requires 0 <= i < |fetched.data.viewer.accounts[0].workersInvocationsAdaptive|
    ensures var ms := RequestsFamilyMetrics(fetched);
      var w := fetched.data.viewer.accounts[0].workersInvocationsAdaptive[i];
      var labels := [w.dimensions.scriptName, w.dimensions.status];
      1 + 3 * i + 2 < |ms| &&
      ms[1 + 3 * i] == Metric(RequestsReceived, CounterValue, IntValue(w.sum.requests), labels) &&
      ms[2 + 3 * i] == Metric(RequestsErrors, CounterValue, IntValue(w.sum.errors), labels) &&
      ms[3 + 3 * i] == Metric(SubRequestsErrors, CounterValue, IntValue(w.sum.subrequests), labels)
  {
    var rows := Rows(fetched);
    RequestMetricsAt(rows, i);
    var ms := RequestsFamilyMetrics(fetched);
    assert ms[1 + 3 * i..4 + 3 * i] == RequestMetrics(rows)[3 * i..3 * i + 3];
  }

  /** An error or an empty account list gives exactly the liveness gauge at 0. */
  lemma CpuTimeOnFailure(fetched: FetchResult)
    requires fetched.Err? || fetched.data.viewer.accounts == []
    ensures CpuTimeFamilyMetrics(fetched) == [Metric(CpuTimeUp, GaugeValue, IntValue(0), [])]
  {
  }

  /** On success with N rows in the first account: 1 + 6N metrics, the first
      being the liveness gauge at 1. */
  lemma CpuTimeOnSuccess(fetched: FetchResult)
    requires fetched.Ok? && |fetched.data.viewer.accounts| >= 1
    ensures var ms := CpuTimeFamilyMetrics(fetched);
      |ms| == 1 + 6 * |fetched.data.viewer.accounts[0].workersInvocationsAdaptive| &&
      ms[0] == Metric(CpuTimeUp, GaugeValue, IntValue(1), [])
  {
  }

  lemma {:induction false} CpuMetricsAt(rows: seq<Invocation>, i: int)
    requires 0 <= i < |rows|
    ensures CpuMetrics(rows)[6 * i..6 * i + 6] == WorkerCpuMetrics(rows[i])
    decreases |rows|
  {
    var n := |rows| - 1;
    var front := rows[..n];
    assert CpuMetrics(rows) == CpuMetrics(front) + WorkerCpuMetrics(rows[n]);
    if i < n {
      CpuMetricsAt(front, i);
      assert rows[i] == front[i];
    }
  }

  lemma WorkerCpuMetricsAt(w: Invocation, k: int)
    requires 0 <= k < 6
    ensures WorkerCpuMetrics(w)[k] ==
      Metric(CpuTimePercentile, GaugeValue, FloatValue(QuantileAt(w.quantiles, k)),
             [w.dimensions.scriptName, w.dimensions.status, Percentiles[k]])
  {
    if k == 0 {
    } else if k == 1 {
    } else if k == 2 {
    } else if k == 3 {
    } else if k == 4 {
    } else {
    }
  }

  /** Row i of the first account gives the six metrics at 1 + 6i + k, k < 6:
      the percentile gauges for "25", "50", "75", "90", "99" and "999" in that
      order, carrying P25 ... P999 and labelled (script name, status, percentile). */
  lemma CpuTimeRow(fetched: FetchResult, i: int)
    requires fetched.Ok? && |fetched.data.viewer.accounts| >= 1
    requires 0 <= i < |fetched.data.viewer.accounts[0].workersInvocationsAdaptive|
    ensures var ms := CpuTimeFamilyMetrics(fetched);
      var w := fetched.data.viewer.accounts[0].workersInvocationsAdaptive[i];
      1 + 6 * i + 5 < |ms| &&
      forall k :: 0 <= k < 6 ==>
        (ms[1 + 6 * i + k] ==
         Metric(CpuTimePercentile, GaugeValue, FloatValue(QuantileAt(w.quantiles, k)),
                [w.dimensions.scriptName, w.dimensions.status, Percentiles[k]]))
  {
    var rows := Rows(fetched);
    CpuMetricsAt(rows, i);
    var ms := CpuTimeFamilyMetrics(fetched);
    assert ms[1 + 6 * i..7 + 6 * i] == CpuMetrics(rows)[6 * i..6 * i + 6];
    forall k | 0 <= k < 6
      ensures ms[1 + 6 * i + k] == WorkerCpuMetrics(rows[i])[k]
    {
      assert ms[1 + 6 * i + k] == ms[1 + 6 * i..7 + 6 * i][k];
    }
    forall k | 0 <= k < 6 {
      WorkerCpuMetricsAt(rows[i], k);
    }
  }

  /** An account with no rows is "up" with nothing else; no account at all is
      "down": the two outcomes differ only in the liveness value. */
  lemma NoRowsVersusNoAccounts(account: Account)
    requires account.workersInvocationsAdaptive == []
    ensures RequestsFamilyMetrics(Ok(ResponseStruct(Viewer([account])))) == [Up(RequestsUp, 1)]
    ensures RequestsFamilyMetrics(Ok(ResponseStruct(Viewer([])))) == [Up(RequestsUp, 0)]
    ensures CpuTimeFamilyMetrics(Ok(ResponseStruct(Viewer([account])))) == [Up(CpuTimeUp, 1)]
    ensures CpuTimeFamilyMetrics(Ok(ResponseStruct(Viewer([])))) == [Up(CpuTimeUp, 0)]
  {
  }

  /** One row for worker "api" with status "success", 100 requests, 2 errors
      and 5 subrequests: the liveness gauge at 1, then the three counters. */
  lemma RequestsOneRow()
    ensures var row := Invocation(Dimensions("api", "success"), Quantiles(0, 0, 0, 0, 0, 0), Sum(2, 100, 5));
      var labels := ["api", "success"];
      RequestsFamilyMetrics(Ok(ResponseStruct(Viewer([Account([row])])))) ==
        [Metric(RequestsUp, GaugeValue, IntValue(1), []),
         Metric(RequestsReceived, CounterValue, IntValue(100), labels),
         Metric(RequestsErrors, CounterValue, IntValue(2), labels),
         Metric(SubRequestsErrors, CounterValue, IntValue(5), labels)]
  {
    var row := Invocation(Dimensions("api", "success"), Quantiles(0, 0, 0, 0, 0, 0), Sum(2, 100, 5));
    assert [row][..0] == [];
  }

  /** Only the first account is translated: responses that agree on it give the
      same metrics whatever other accounts follow. */
  lemma OnlyFirstAccount(r1: ResponseStruct, r2: ResponseStruct)
    requires |r1.viewer.accounts| >= 1 && |r2.viewer.accounts| >= 1
    requires r1.viewer.accounts[0] == r2.viewer.accounts[0]
    ensures RequestsFamilyMetrics(Ok(r1)) == RequestsFamilyMetrics(Ok(r2))
    ensures CpuTimeFamilyMetrics(Ok(r1)) == CpuTimeFamilyMetrics(Ok(r2))
  {
  }

  // ----- Counting and the merged output -----

  /** How many metrics of ms carry descriptor d. */
  function Count(ms: seq<Metric>, d: Descriptor): nat {
    if ms == [] then 0 else (if ms[0].desc == d then 1 else 0) + Count(ms[1..], d)
  }

  /** The metrics of ms that belong to family f, in order. */
  function Only(ms: seq<Metric>, f: Family): seq<Metric> {
    if ms == [] then []
    else (if FamilyOf(ms[0].desc) == f then [ms[0]] else []) + Only(ms[1..], f)
  }

  lemma {:induction false} CountAbsent(ms: seq<Metric>, d: Descriptor)
    requires forall m :: m in ms ==> m.desc != d
    ensures Count(ms, d) == 0
  {
    if ms != [] {
      assert ms[0] in ms;
      CountAbsent(ms[1..], d);
    }
  }

  /** The request family sends exactly one requests_up gauge and no
      cpu_time_up gauge; all its metrics are described and well formed. */
  lemma RequestsFamilyLiveness(requests: FetchResult)
    ensures Count(RequestsFamilyMetrics(requests), RequestsUp) == 1
    ensures Count(RequestsFamilyMetrics(requests), CpuTimeUp) == 0
    ensures forall m :: m in RequestsFamilyMetrics(requests) ==>
      FamilyOf(m.desc) == Requests && WellFormed(m)
  {
    var ms := RequestsFamilyMetrics(requests);
    var rest := ms[1..];
    assert ms == [ms[0]] + rest;
    if !Unusable(requests) {
      RequestMetricsDescriptors(Rows(requests));
      assert rest == RequestMetrics(Rows(requests));
    }
    CountAbsent(rest, RequestsUp);
    CountAbsent(rest, CpuTimeUp);
  }

  /** The CPU-time family sends exactly one cpu_time_up gauge and no
      requests_up gauge; all its metrics are described and well formed. */
  lemma CpuTimeFamilyLiveness(cpuTime: FetchResult)
    ensures Count(CpuTimeFamilyMetrics(cpuTime), CpuTimeUp) == 1
    ensures Count(CpuTimeFamilyMetrics(cpuTime), RequestsUp) == 0
    ensures forall m :: m in CpuTimeFamilyMetrics(cpuTime) ==>
      FamilyOf(m.desc) == CpuTime && WellFormed(m)
  {
    var ms := CpuTimeFamilyMetrics(cpuTime);
    var rest := ms[1..];
    assert ms == [ms[0]] + rest;
    if !Unusable(cpuTime) {
      CpuMetricsDescriptors(Rows(cpuTime));
      assert rest == CpuMetrics(Rows(cpuTime));
    }
    CountAbsent(rest, RequestsUp);
    CountAbsent(rest, CpuTimeUp);
  }

  /** m is some interleaving of a and b that keeps the order within each: the
      merged stream of two goroutines sending on one channel. */
  ghost predicate IsInterleaving(a: seq<Metric>, b: seq<Metric>, m: seq<Metric>)
    decreases |m|
  {
    if m == [] then a == [] && b == []
    else (a != [] && a[0] == m[0] && IsInterleaving(a[1..], b, m[1..])) ||
         (b != [] && b[0] == m[0] && IsInterleaving(a, b[1..], m[1..]))
  }

  lemma {:induction false} InterleaveRight(b: seq<Metric>)
    ensures IsInterleaving([], b, b)
  {
    if b != [] {
      InterleaveRight(b[1..]);
    }
  }

  lemma {:induction false} InterleaveLeft(a: seq<Metric>)
    ensures IsInterleaving(a, [], a)
  {
    if a != [] {
      InterleaveLeft(a[1..]);
    }
  }

  /** Both sequential orders of Collect are interleavings. */
  lemma {:induction false} ConcatenationInterleaves(a: seq<Metric>, b: seq<Metric>)
    ensures IsInterleaving(a, b, a + b)
  {
    if a == [] {
      InterleaveRight(b);
      assert a + b == b;
    } else {
      ConcatenationInterleaves(a[1..], b);
      assert (a + b)[1..] == a[1..] + b;
    }
  }

  lemma {:induction false} SwappedConcatenationInterleaves(a: seq<Metric>, b: seq<Metric>)
    ensures IsInterleaving(a, b, b + a)
  {
    if b == [] {
      InterleaveLeft(a);
      assert b + a == a;
    } else {
      SwappedConcatenationInterleaves(a, b[1..]);
      assert (b + a)[1..] == b[1..] + a;
    }
  }

  lemma {:induction false} InterleavingCount(a: seq<Metric>, b: seq<Metric>, m: seq<Metric>, d: Descriptor)
    requires IsInterleaving(a, b, m)
    ensures Count(m, d) == Count(a, d) + Count(b, d)
    decreases |m|
  {
    if m != [] {
      if a != [] && a[0] == m[0] && IsInterleaving(a[1..], b, m[1..]) {
        InterleavingCount(a[1..], b, m[1..], d);
      } else {
        InterleavingCount(a, b[1..], m[1..], d);
      }
    }
  }

  /** Projecting an interleaving of one family's metrics with another's back
      onto either family gives that family's metrics, in their order. */
  lemma {:induction false} InterleavingOnly(a: seq<Metric>, b: seq<Metric>, m: seq<Metric>, f: Family, g: Family)
    requires IsInterleaving(a, b, m) && f != g
    requires forall x :: x in a ==> FamilyOf(x.desc) == f
    requires forall x :: x in b ==> FamilyOf(x.desc) == g
    ensures Only(m, f) == a && Only(m, g) == b
    decreases |m|
  {
    if m == [] {
    } else if a != [] && a[0] == m[0] && IsInterleaving(a[1..], b, m[1..]) {
      assert a[0] in a;
      forall x | x in a[1..] ensures FamilyOf(x.desc) == f {
        assert x in a;
      }
      InterleavingOnly(a[1..], b, m[1..], f, g);
      assert a == [a[0]] + a[1..];
    } else {
      assert b[0] in b;
      forall x | x in b[1..] ensures FamilyOf(x.desc) == g {
        assert x in b;
      }
      InterleavingOnly(a, b[1..], m[1..], f, g);
      assert b == [b[0]] + b[1..];
    }
  }

  lemma {:induction false} InterleavingMembers(a: seq<Metric>, b: seq<Metric>, m: seq<Metric>)
    requires IsInterleaving(a, b, m)
    ensures forall x :: x in m ==> x in a || x in b
    decreases |m|
  {
    if m != [] {
      assert m == [m[0]] + m[1..];
      if a != [] && a[0] == m[0] && IsInterleaving(a[1..], b, m[1..]) {
        InterleavingMembers(a[1..], b, m[1..]);
        assert a == [a[0]] + a[1..];
      } else {
        InterleavingMembers(a, b[1..], m[1..]);
        assert b == [b[0]] + b[1..];
      }
    }
  }

  /** Whatever order the two collect goroutines' sends reach the channel in,
      the scrape holds exactly one requests_up and one cpu_time_up gauge, each
      family's metrics appear complete and in their own order, so a failing
      family never hides the other's, and every metric is described and well
      formed. */
  lemma CollectedMetrics(requests: FetchResult, cpuTime: FetchResult, m: seq<Metric>)
    requires IsInterleaving(RequestsFamilyMetrics(requests), CpuTimeFamilyMetrics(cpuTime), m)
    ensures Count(m, RequestsUp) == 1 && Count(m, CpuTimeUp) == 1
    ensures Only(m, Requests) == RequestsFamilyMetrics(requests)
    ensures Only(m, CpuTime) == CpuTimeFamilyMetrics(cpuTime)
    ensures forall x :: x in m ==> WellFormed(x)
  {
    var a, b := RequestsFamilyMetrics(requests), CpuTimeFamilyMetrics(cpuTime);
    RequestsFamilyLiveness(requests);
    CpuTimeFamilyLiveness(cpuTime);
    InterleavingCount(a, b, m, RequestsUp);
    InterleavingCount(a, b, m, CpuTimeUp);
    InterleavingOnly(a, b, m, Requests, CpuTime);
    InterleavingMembers(a, b, m);
  }
}
