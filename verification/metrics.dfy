/**
 * Request metrics of `src/observability/metrics.js`: per-route and
 * per-status counters, the request and error totals and the summed
 * latency, kept as one immutable record that each request replaces.
 */
module Metrics {
  import opened Base

  datatype Metrics = Metrics(
    requestCounts: map<string, nat>,
    statusCounts: map<string, nat>,
    requestTotal: nat,
    requestErrors: nat,
    latencyTotalMs: real)

  /** The counters when the process starts. */
  const Initial: Metrics := Metrics(map[], map[], 0, 0, 0.0)

  const RunsPrefix: string := "/v1/agent-core/workflows/runs/"
  const RunsBucket: string := "/v1/agent-core/workflows/runs/:id"
  const WebhooksPrefix: string := "/v1/agent-core/webhooks/"
  const WebhooksBucket: string := "/v1/agent-core/webhooks/:id"

  /** `bucketPath`: run and webhook paths share one bucket per prefix; other paths are their own bucket. */
  function BucketPath(path: string): (b: string)
    ensures StartsWith(path, RunsPrefix) ==> b == RunsBucket
    ensures !StartsWith(path, RunsPrefix) && StartsWith(path, WebhooksPrefix) ==> b == WebhooksBucket
    ensures !StartsWith(path, RunsPrefix) && !StartsWith(path, WebhooksPrefix) ==> b == path
  {
    if StartsWith(path, RunsPrefix) then RunsBucket
    else if StartsWith(path, WebhooksPrefix) then WebhooksBucket
    else path
  }

  /** A bucket is its own bucket. */
  lemma BucketPathIdempotent(path: string)
    ensures BucketPath(BucketPath(path)) == BucketPath(path)
  {
    assert RunsBucket[..|RunsPrefix|] == RunsPrefix;
    assert WebhooksBucket[..|WebhooksPrefix|] == WebhooksPrefix;
  }

  /** Every run id falls into the same bucket. */
  lemma RunPathsShareBucket(a: string, b: string)
    ensures BucketPath(RunsPrefix + a) == BucketPath(RunsPrefix + b) == RunsBucket
  {
    assert (RunsPrefix + a)[..|RunsPrefix|] == RunsPrefix;
    assert (RunsPrefix + b)[..|RunsPrefix|] == RunsPrefix;
  }

  /** `increment`: one more for `key`, every other key as it was. */
  function Increment(counter: map<string, nat>, key: string): (r: map<string, nat>)
    ensures key in r && r[key] == (if key in counter then counter[key] else 0) + 1
    ensures r.Keys == counter.Keys + {key}
    ensures forall k :: k in counter && k != key ==> r[k] == counter[k]
  {
    counter[key := (if key in counter then counter[key] else 0) + 1]
  }

  /** The counter key of a request: upper-cased method, a space, the bucket. */
  function RouteKey(httpMethod: string, path: string): string {
    Upper(httpMethod) + " " + BucketPath(path)
  }

  /** `recordRequest`; a status code is counted under its decimal text. */
  function RecordRequest(m: Metrics, httpMethod: string, path: string, statusCode: nat, durationMs: real): (r: Metrics)
    ensures r.requestTotal == m.requestTotal + 1
    ensures r.requestErrors == m.requestErrors + (if statusCode >= 400 then 1 else 0)
    ensures r.latencyTotalMs == m.latencyTotalMs + (if durationMs > 0.0 then durationMs else 0.0)
    ensures r.requestCounts == Increment(m.requestCounts, RouteKey(httpMethod, path))
    ensures r.statusCounts == Increment(m.statusCounts, NatToString(statusCode))
  {
    Metrics(
      Increment(m.requestCounts, RouteKey(httpMethod, path)),
      Increment(m.statusCounts, NatToString(statusCode)),
      m.requestTotal + 1,
      m.requestErrors + (if statusCode >= 400 then 1 else 0),
      m.latencyTotalMs + (if durationMs > 0.0 then durationMs else 0.0))
  }

  /** What every reachable state satisfies: errors are some of the requests, latency is never negative. */
  predicate Valid(m: Metrics) {
    m.requestErrors <= m.requestTotal && m.latencyTotalMs >= 0.0 &&
    (m.requestTotal == 0 ==> m.latencyTotalMs == 0.0)
  }

  lemma InitialValid()
    ensures Valid(Initial)
  {
  }

  /** Recording a request keeps the counters consistent and never lowers the latency total. */
  lemma RecordKeepsValid(m: Metrics, httpMethod: string, path: string, statusCode: nat, durationMs: real)
    requires Valid(m)
    ensures Valid(RecordRequest(m, httpMethod, path, statusCode, durationMs))
    ensures RecordRequest(m, httpMethod, path, statusCode, durationMs).latencyTotalMs >= m.latencyTotalMs
  {
  }

  /** Distinct status codes are counted under distinct keys. */
  lemma StatusKeysDistinct(m: Metrics, a: nat, b: nat, httpMethod: string, path: string, durationMs: real)
    requires a != b
    ensures var r := RecordRequest(m, httpMethod, path, a, durationMs);
      NatToString(b) in m.statusCounts ==> r.statusCounts[NatToString(b)] == m.statusCounts[NatToString(b)]
  {
    if NatToString(a) == NatToString(b) {
      NatToStringInjective(a, b);
    }
  }

  /**
   * The mean latency in the snapshot, rounded to hundredths with halves
   * rounded up (`Number(mean.toFixed(2))` on a non-negative mean), and 0
   * before any request.
   */
  function AverageLatencyMs(m: Metrics): (avg: real)
    ensures m.requestTotal == 0 ==> avg == 0.0
    ensures Valid(m) ==> avg >= 0.0
    ensures ((100.0 * avg).Floor as real) == 100.0 * avg
    ensures m.requestTotal > 0 ==>
      var mean := m.latencyTotalMs / (m.requestTotal as real);
      mean - 0.005 < avg <= mean + 0.005
  {
    if m.requestTotal > 0 then
      var mean := m.latencyTotalMs / (m.requestTotal as real);
      ((100.0 * mean + 0.5).Floor as real) / 100.0
    else 0.0
  }
}
