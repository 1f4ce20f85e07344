# Cloudflare Workers exporter — a verified model

A Prometheus exporter for Cloudflare Workers analytics. On every scrape it
runs two analytics queries, one per metric family:

- the **request family**: requests, errors and subrequests since the start of
  the week;
- the **CPU-time family**: CPU-time percentiles over the last minute.

It then translates each answer into metrics. Each family sends one liveness
gauge (`requests_up` or `cpu_time_up`). The gauge is 0 when the query failed
or returned no account. It is 1 otherwise, and then per-worker samples follow
for the rows of the first account.

The model has four modules:

- `Calendar` (calendar.dfy): the part of Go's `time` package that the window
  computation needs, on integer day numbers in UTC. It covers the first day
  of a year, the weekday, the year of a day, and `ISOWeek`.
- `Fetcher` (fetcher.dfy): the response shape, `WeekStart`, the two time
  windows and the three variables bound on every query. The network round
  trip is out; its outcome is a `FetchResult`, either the decoded response or
  an error.
- `Prometheus` (prometheus.dfy): descriptor values, value kinds,
  `BuildFQName`, and a `Channel` class. The channel holds the sequence of
  values sent on it.
- `Exporter` (exporter.dfy): the six descriptors, `Describe`, the two collect
  methods, `Collect`, and the functions and lemmas that say what a scrape
  produces.

The collect methods are proved against the functions `RequestsFamilyMetrics`
and `CpuTimeFamilyMetrics`. The lemmas state what those functions send:
counts, order, labels and values. They also cover any interleaving of the
two families on the shared channel.

## Model

| member | source | states |
|---|---|---|
| Prometheus.BuildFQName | internal/pkg/exporter.go:26 | an empty name gives ""; with a namespace and no subsystem the name is namespace + "_" + name |
| Prometheus.Channel.Send | internal/pkg/exporter.go:63 | a send appends exactly the value sent to the channel's history |
| Exporter.Describe | internal/pkg/exporter.go:62-70 | sends the six descriptors in the order requests_up, requests_received_total, errors_total, subrequests_total, cpu_time_up, cpu_time_percentile, and nothing else |
| Exporter.DescribeOrderComplete | internal/pkg/exporter.go:24-70 | Describe sends six descriptors, every descriptor once, the four request-family ones first, with 0, 2, 2, 2, 0 and 3 variable labels |
| Exporter.DescriptorNames | internal/pkg/exporter.go:21-59 | every fully-qualified name is "cloudflare_worker_" + name; only the two liveness gauges have no labels; the per-worker counters are labelled (worker, status), the percentile gauge (worker, status, percentile) |
| Exporter.DescriptorValue | internal/pkg/exporter.go:24-59 | the descriptor value behind each descriptor carries the name "cloudflare_worker_" + name and the descriptor's variable labels |
| Exporter.DescriptorNamesDistinct | internal/pkg/exporter.go:24-60 | no two descriptors share a fully-qualified name |
| Exporter.MustNewConstMetric | internal/pkg/exporter.go:104-114 | a constant metric gets one label value per variable label of its descriptor; the precondition is what keeps the call from panicking |
| Exporter.RequestMetrics | internal/pkg/exporter.go:100-115 | the request loop sends three metrics per row |
| Exporter.RequestMetricsExtend | internal/pkg/exporter.go:100-115 | one turn of the request loop extends the sent metrics by exactly the row's three counters |
| Exporter.RequestMetricsDescriptors | internal/pkg/exporter.go:104-114 | the loop sends only well-formed requests_received_total, errors_total and subrequests_total metrics |
| Exporter.CollectRequests | internal/pkg/exporter.go:84-116 | appends to the channel exactly the request family's metrics for the fetch outcome |
| Exporter.CpuMetrics | internal/pkg/exporter.go:134-161 | the CPU loop sends six metrics per row |
| Exporter.CpuMetricsExtend | internal/pkg/exporter.go:134-161 | one turn of the CPU loop extends the sent metrics by exactly the row's six percentile gauges |
| Exporter.CpuMetricsDescriptors | internal/pkg/exporter.go:138-160 | the loop sends only well-formed cpu_time_percentile gauges |
| Exporter.SendCpuTimePercentiles | internal/pkg/exporter.go:135-160 | one row's body sends its six percentile gauges in order |
| Exporter.CollectCpuTime | internal/pkg/exporter.go:118-162 | appends to the channel exactly the CPU-time family's metrics for the fetch outcome |
| Exporter.Collect | internal/pkg/exporter.go:72-82 | the channel receives the two families' metrics, one family after the other, in either order |
| Exporter.RequestsOnFailure | internal/pkg/exporter.go:88-94 | an error or no account gives exactly one metric: requests_up = 0 |
| Exporter.RequestsOnSuccess | internal/pkg/exporter.go:95-115 | with N rows in the first account, 1 + 3N metrics, the first being requests_up = 1 |
| Exporter.RequestMetricsAt | internal/pkg/exporter.go:100-115 | row i's counters sit at positions 3i to 3i + 2 of the loop's output |
| Exporter.RequestsRow | internal/pkg/exporter.go:100-114 | row i gives, at 1 + 3i, 2 + 3i and 3 + 3i, requests_received_total = Sum.Requests, errors_total = Sum.Errors and subrequests_total = Sum.Subrequests, each labelled (script name, status) |
| Exporter.RequestsOneRow | internal/pkg/exporter.go:95-114 | one row (api, success, 100 requests, 2 errors, 5 subrequests) gives requests_up = 1 and the counters 100, 2 and 5 |
| Exporter.CpuTimeOnFailure | internal/pkg/exporter.go:122-128 | an error or no account gives exactly one metric: cpu_time_up = 0 |
| Exporter.CpuTimeOnSuccess | internal/pkg/exporter.go:129-161 | with N rows in the first account, 1 + 6N metrics, the first being cpu_time_up = 1 |
| Exporter.CpuMetricsAt | internal/pkg/exporter.go:134-161 | row i's gauges sit at positions 6i to 6i + 5 of the loop's output |
| Exporter.WorkerCpuMetricsAt | internal/pkg/exporter.go:138-160 | the k-th gauge of a row carries the k-th quantile and the k-th percentile label |
| Exporter.CpuTimeRow | internal/pkg/exporter.go:134-160 | row i gives, at 1 + 6i + k, the cpu_time_percentile gauge labelled (script name, status, p) for p = 25, 50, 75, 90, 99, 999, carrying P25 ... P999 |
| Exporter.NoRowsVersusNoAccounts | internal/pkg/exporter.go:88-100 | an account with no rows gives only the liveness gauge at 1; no account at all gives it at 0 |
| Exporter.OnlyFirstAccount | internal/pkg/exporter.go:99 | two responses that agree on their first account give the same metrics for both families (the CPU family reads Accounts[0] at line 133) |
| Exporter.RequestsFamilyLiveness | internal/pkg/exporter.go:84-116 | whatever the outcome, the request family sends exactly one requests_up and no cpu_time_up, and all its metrics are of its family and well formed |
| Exporter.CpuTimeFamilyLiveness | internal/pkg/exporter.go:118-162 | whatever the outcome, the CPU family sends exactly one cpu_time_up and no requests_up, and all its metrics are of its family and well formed |
| Exporter.ConcatenationInterleaves | internal/pkg/exporter.go:72-82 | requests-then-CPU is one possible merge of the two goroutines' sends |
| Exporter.SwappedConcatenationInterleaves | internal/pkg/exporter.go:72-82 | CPU-then-requests is one possible merge too |
| Exporter.InterleavingCount | internal/pkg/exporter.go:72-82 | any merge has as many metrics of each descriptor as the two families together |
| Exporter.InterleavingOnly | internal/pkg/exporter.go:72-82 | projecting any merge onto one family gives back that family's metrics in their order |
| Exporter.InterleavingMembers | internal/pkg/exporter.go:72-82 | a merge holds nothing but the two families' metrics |
| Exporter.CollectedMetrics | internal/pkg/exporter.go:72-82 | in any merge there is exactly one requests_up and one cpu_time_up, each family appears complete and in order, and every metric is well formed |
| Fetcher.WeekStartIsSundayMidnight | internal/pkg/fetcher.go:75-81 | WeekStart is always midnight UTC of a Sunday |
| Fetcher.WeekStartWeekZero | internal/pkg/fetcher.go:76-77 | week 0 starts between 0 and 6 days before 1 January |
| Fetcher.WeekStartStep | internal/pkg/fetcher.go:78 | week w starts 7w days after week 0, so consecutive weeks are exactly 7 days apart |
| Fetcher.RequestCountRequest | internal/pkg/fetcher.go:84-109 | the request-count query binds exactly account, start and end: the account id, WeekStart of the ISO year and week of now, and now |
| Fetcher.IntendedRequestCountRequest | internal/pkg/fetcher.go:83-109 | the corrected query binds the same three variables, with a start at midnight of a Monday no later than now and less than a week before it (see Findings) |
| Fetcher.CpuTimeRequest | internal/pkg/fetcher.go:113-140 | the CPU-time query binds exactly account, start and end: the account id, now − 60 s, and now |
| Fetcher.CpuTimeWindowIsLastMinute | internal/pkg/fetcher.go:114-116 | the CPU-time window ends at now and is 60 seconds long |
| Calendar.IsoWeekContains | internal/pkg/fetcher.go:86 | the (year, week) that ISOWeek gives for a day names the ISO 8601 week holding that day, and the Thursday of that week lies in the named year |
| Fetcher.WeekStartAgainstIsoWeek | internal/pkg/fetcher.go:75-81 | WeekStart(y, w) is the Sunday ending ISO week w of y when 1 January is a Sunday to Thursday, and the Sunday before it otherwise |
| Fetcher.RequestCountWindowAsWritten | internal/pkg/fetcher.go:83-88 | the request-count window starts on the Sunday ending the current ISO week or on the Sunday before it, never on its Monday |
| Fetcher.RequestCountWindowStartsAfterNow | internal/pkg/fetcher.go:83-88 | on 2024-01-03 12:00 UTC the window starts on 2024-01-07 00:00 UTC, after now |
| Fetcher.IntendedRequestCountWindowContainsNow | internal/pkg/fetcher.go:83-88 | the corrected window starts at midnight of the Monday of the current ISO week, no later than now and less than a week before it |

## Left out

- The goroutines and the `WaitGroup` of `Collect` (exporter.go:72-82) are not modelled as threads. `Collect` runs the two families one after the other, in an order chosen by a parameter. Finer interleavings on the shared channel are covered by the lemmas on `IsInterleaving`.
- The network round trip is left out: the GraphQL client, the JSON decoding and `client.Run` (fetcher.go:61-73). The fetch outcome is a `FetchResult` parameter of the collect methods.
- The request headers set by `getRequest` (fetcher.go:52-59) are left out. They are library request objects.
- `NewExporter` and `NewFetcher` only store their arguments, so they are not modelled.
- The query texts, including `limit: 100`, are not modelled. They are the two values of `Template`, which records only which query is sent.
- `time.Now()` is left out: the clock reading is the parameter `now`, in whole seconds since the epoch.
- The local time zone is taken to be UTC. Go's `now.ISOWeek()` uses the local zone, so elsewhere the ISO week can differ near midnight.
- RFC 3339 formatting is left out: the `start` and `end` variables are the instants they denote. The local and UTC renderings of one instant denote the same instant.
- Fractional seconds are not modelled. RFC 3339 formatting drops them, and `now` is whole seconds here.
- Float conversion is not modelled. `float64(worker.Sum.Requests)` becomes the integer itself, and the quantiles are passed through as 64-bit patterns that are never inspected.
- The range of Go's `int` is not modelled: sums are unbounded integers.
- `log.Println` of the fetch error is left out. It is output only.
- The `Date`, `DateTime` and `DateTimeHour` dimension fields (fetcher.go:18-20) are never read, so they are not modelled.
- Exporter.SendCpuTimePercentiles: the body of `collectCpuTime`'s loop is a separate method so that its six sends are checked on their own. The sends and their order are unchanged.
- Exporter.Describe: a descriptor is sent as its package-level variable, named by the `Descriptor` datatype, not as a pointer. A `Metric` refers to its descriptor the same way. `DescOf` gives the descriptor value.
- `prometheus.MustNewConstMetric` is modelled only to the extent the exporter uses it: it panics exactly when the number of label values is wrong, and that case is a precondition here. Its validation of label values and names is not modelled.
- The help texts are the library's documentation strings: `Help` holds them verbatim, but no contract states them, since reasoning over long string literals is costly for the verifier.
- internal/pkg/flagsLoader.go is not part of this model: it reads flags and environment variables.
- cloudflare_worker_exporter.go is not part of this model: it loads the dotenv file and wires up the HTTP server.

## Findings

| source | as written | input that shows it | evidently intended | confidence | as-written member | corrected member |
|---|---|---|---|---|---|---|
| internal/pkg/fetcher.go:75-88 | `WeekStart(year, week)` counts weeks from the Sunday on or before 1 January. It is given an ISO 8601 year and week, so the request-count window starts on the Sunday that ends the current ISO week, or on the Sunday before it. | now = 1704283200 (Wednesday 2024-01-03 12:00 UTC): ISOWeek gives (2024, 1), and the window starts at 1704585600 (Sunday 2024-01-07), after now | the comment at fetcher.go:83 says "since the beginning of the week": start at midnight of the Monday of the current ISO week | high; not executed | Fetcher.RequestCountWindowStartsAfterNow | Fetcher.IntendedRequestCountWindowContainsNow |

`RequestCountWindow` and `RequestCountRequest` keep the window as written,
since that is what the exporter sends. `IntendedRequestCountWindow` and
`IntendedRequestCountRequest` are the corrected window and query.
