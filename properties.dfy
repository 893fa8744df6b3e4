/**
  Configuration of the query metric client: the transport to use, the endpoint of
  the synchronous (REST) fallback, whether producer confirm acks are awaited, and
  the retry budget of the delivery loop.

  Both configuration records are mutable beans: every setter overwrites one field,
  and `SetRetry` replaces the nested `Retry` object by reference.  Each class offers
  a `Snapshot` of its fields as a value, so that "a setter changes only its own
  field" reads as `Snapshot() == old(Snapshot()).(field := value)`.
 */
module ClientConfig {

  /** Java `int`. */
  newtype int32 = x: int | -0x8000_0000 <= x < 0x8000_0000

  /** Java `long`. */
  newtype int64 = x: int | -0x8000_0000_0000_0000 <= x < 0x8000_0000_0000_0000

  /** How metric updates are submitted: through the message transport, or by a REST call. */
  datatype QueryMetricTransportType = MESSAGE | HTTP | HTTPS

  const DEFAULT_MAX_ATTEMPTS: int32 := 10
  /** Five minutes, in milliseconds. */
  const DEFAULT_FAIL_TIMEOUT_MILLIS: int64 := 5 * 60 * 1000
  /** Five seconds, in milliseconds. */
  const DEFAULT_BACKOFF_INTERVAL_MILLIS: int64 := 5 * 1000

  const DEFAULT_SCHEME := "https"
  const DEFAULT_HOST := "localhost"
  const DEFAULT_PORT: int32 := 8443
  const DEFAULT_UPDATE_METRIC_URL := "/querymetric/v1/updateMetric"
  const DEFAULT_UPDATE_METRICS_URL := "/querymetric/v1/updateMetrics"
  const DEFAULT_CONFIRM_ACK_TIMEOUT_MILLIS: int64 := 500

  /** The fields of a `Retry` as a value. */
  datatype RetryValue = RetryValue(maxAttempts: int32, failTimeoutMillis: int64, backoffIntervalMillis: int64)

  /** The retry budget of the delivery loop. */
  class Retry {
    var maxAttempts: int32
    var failTimeoutMillis: int64
    var backoffIntervalMillis: int64

    /** The `@PositiveOrZero` constraints, which bean validation checks when the record is bound. */
    predicate Validated()
      reads this
    {
      maxAttempts >= 0 && failTimeoutMillis >= 0 && backoffIntervalMillis >= 0
    }

    function Snapshot(): RetryValue
      reads this
    {
      RetryValue(maxAttempts, failTimeoutMillis, backoffIntervalMillis)
    }

    constructor ()
      ensures Snapshot() == RetryValue(10, 300_000, 5_000)
      ensures Validated()
    {
      maxAttempts := DEFAULT_MAX_ATTEMPTS;
      failTimeoutMillis := DEFAULT_FAIL_TIMEOUT_MILLIS;
      backoffIntervalMillis := DEFAULT_BACKOFF_INTERVAL_MILLIS;
    }

    function GetMaxAttempts(): int32 reads this { maxAttempts }
    function GetFailTimeoutMillis(): int64 reads this { failTimeoutMillis }
    function GetBackoffIntervalMillis(): int64 reads this { backoffIntervalMillis }

    method SetMaxAttempts(maxAttempts: int32)
      modifies this
      ensures GetMaxAttempts() == maxAttempts
      ensures Snapshot() == old(Snapshot()).(maxAttempts := maxAttempts)
      ensures old(Validated()) && maxAttempts >= 0 ==> Validated()
    {
      this.maxAttempts := maxAttempts;
    }

    method SetFailTimeoutMillis(failTimeoutMillis: int64)
      modifies this
      ensures GetFailTimeoutMillis() == failTimeoutMillis
      ensures Snapshot() == old(Snapshot()).(failTimeoutMillis := failTimeoutMillis)
      ensures old(Validated()) && failTimeoutMillis >= 0 ==> Validated()
    {
      this.failTimeoutMillis := failTimeoutMillis;
    }

    method SetBackoffIntervalMillis(backoffIntervalMillis: int64)
      modifies this
      ensures GetBackoffIntervalMillis() == backoffIntervalMillis
      ensures Snapshot() == old(Snapshot()).(backoffIntervalMillis := backoffIntervalMillis)
      ensures old(Validated()) && backoffIntervalMillis >= 0 ==> Validated()
    {
      this.backoffIntervalMillis := backoffIntervalMillis;
    }
  }

  /** The fields of a `QueryMetricClientProperties` as a value; `retry` is the reference it holds. */
  datatype PropertiesValue = PropertiesValue(
    enabled: bool,
    transport: QueryMetricTransportType,
    scheme: string,
    host: string,
    port: int32,
    updateMetricUrl: string,
    updateMetricsUrl: string,
    confirmAckEnabled: bool,
    confirmAckTimeoutMillis: int64,
    retry: Retry)

  /** The client's configuration, bound from `datawave.query.metric.client.*`. */
  class QueryMetricClientProperties {
    var enabled: bool
    var transport: QueryMetricTransportType
    var scheme: string
    var host: string
    var port: int32
    var updateMetricUrl: string
    var updateMetricsUrl: string
    var confirmAckEnabled: bool
    var confirmAckTimeoutMillis: int64
    var retry: Retry

    function Snapshot(): PropertiesValue
      reads this
    {
      PropertiesValue(enabled, transport, scheme, host, port, updateMetricUrl, updateMetricsUrl,
                      confirmAckEnabled, confirmAckTimeoutMillis, retry)
    }

    /** Field initialisers; `enabled` has no initialiser and takes Java's default `false`. */
    constructor ()
      ensures fresh(retry)
      ensures Snapshot() == PropertiesValue(false, MESSAGE, "https", "localhost", 8443,
                                            "/querymetric/v1/updateMetric", "/querymetric/v1/updateMetrics",
                                            true, 500, retry)
      ensures retry.Snapshot() == RetryValue(10, 300_000, 5_000)
    {
      enabled := false;
      transport := MESSAGE;
      scheme := DEFAULT_SCHEME;
      host := DEFAULT_HOST;
      port := DEFAULT_PORT;
      updateMetricUrl := DEFAULT_UPDATE_METRIC_URL;
      updateMetricsUrl := DEFAULT_UPDATE_METRICS_URL;
      confirmAckEnabled := true;
      confirmAckTimeoutMillis := DEFAULT_CONFIRM_ACK_TIMEOUT_MILLIS;
      retry := new Retry();
    }

    function IsEnabled(): bool reads this { enabled }
    function GetTransport(): QueryMetricTransportType reads this { transport }
    function GetScheme(): string reads this { scheme }
    function GetHost(): string reads this { host }
    function GetPort(): int32 reads this { port }
    function GetUpdateMetricUrl(): string reads this { updateMetricUrl }
    function GetUpdateMetricsUrl(): string reads this { updateMetricsUrl }
    function IsConfirmAckEnabled(): bool reads this { confirmAckEnabled }
    function GetConfirmAckTimeoutMillis(): int64 reads this { confirmAckTimeoutMillis }
    function GetRetry(): Retry reads this { retry }

    method SetEnabled(enabled: bool)
      modifies this
      ensures IsEnabled() == enabled
      ensures Snapshot() == old(Snapshot()).(enabled := enabled)
    {
      this.enabled := enabled;
    }

    method SetTransport(transport: QueryMetricTransportType)
      modifies this
      ensures GetTransport() == transport
      ensures Snapshot() == old(Snapshot()).(transport := transport)
    {
      this.transport := transport;
    }

    method SetScheme(scheme: string)
      modifies this
      ensures GetScheme() == scheme
      ensures Snapshot() == old(Snapshot()).(scheme := scheme)
    {
      this.scheme := scheme;
    }

    method SetHost(host: string)
      modifies this
      ensures GetHost() == host
      ensures Snapshot() == old(Snapshot()).(host := host)
    {
      this.host := host;
    }

    method SetPort(port: int32)
      modifies this
      ensures GetPort() == port
      ensures Snapshot() == old(Snapshot()).(port := port)
    {
      this.port := port;
    }

    method SetUpdateMetricUrl(updateMetricUrl: string)
      modifies this
      ensures GetUpdateMetricUrl() == updateMetricUrl
      ensures Snapshot() == old(Snapshot()).(updateMetricUrl := updateMetricUrl)
    {
      this.updateMetricUrl := updateMetricUrl;
    }

    method SetUpdateMetricsUrl(updateMetricsUrl: string)
      modifies this
      ensures GetUpdateMetricsUrl() == updateMetricsUrl
      ensures Snapshot() == old(Snapshot()).(updateMetricsUrl := updateMetricsUrl)
    {
      this.updateMetricsUrl := updateMetricsUrl;
    }

    method SetConfirmAckEnabled(confirmAckEnabled: bool)
      modifies this
      ensures IsConfirmAckEnabled() == confirmAckEnabled
      ensures Snapshot() == old(Snapshot()).(confirmAckEnabled := confirmAckEnabled)
    {
      this.confirmAckEnabled := confirmAckEnabled;
    }

    method SetConfirmAckTimeoutMillis(confirmAckTimeoutMillis: int64)
      modifies this
      ensures GetConfirmAckTimeoutMillis() == confirmAckTimeoutMillis
      ensures Snapshot() == old(Snapshot()).(confirmAckTimeoutMillis := confirmAckTimeoutMillis)
    {
      this.confirmAckTimeoutMillis := confirmAckTimeoutMillis;
    }

    /** Replaces the nested record by reference; the new one is shared with the caller. */
    method SetRetry(retry: Retry)
      modifies this
      ensures GetRetry() == retry
      ensures Snapshot() == old(Snapshot()).(retry := retry)
    {
      this.retry := retry;
    }
  }
}
