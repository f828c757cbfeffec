/** io.dropwizard.client.JerseyClientConfiguration: the Jersey client's thread
    pool, work queue and compression settings on top of the HTTP client
    settings. The Java class extends HttpClientConfiguration; here the HTTP
    settings are a record held by the Jersey record. */
module JerseyClient {
  import opened JavaLang
  import opened Constraints
  import opened HttpClient

  /** The @Max(16 * 1024) bound on the pool and queue sizes. */
  const MAX_POOL_SIZE: int := 16 * 1024

  class JerseyClientConfiguration {
    /** The inherited HTTP client settings. */
    const http: HttpClientConfiguration
    var minThreads: Int32
    var maxThreads: Int32
    var workQueueSize: Int32
    var gzipEnabled: bool
    var gzipEnabledForRequests: bool
    var chunkedEncodingEnabled: bool

    /** isThreadPoolSizedCorrectly: the pool may not have to grow below its
        minimum. */
    predicate IsThreadPoolSizedCorrectly()
      reads this`minThreads, this`maxThreads
    {
      minThreads <= maxThreads
    }

    /** isCompressionConfigurationValid: compressing requests needs gzip. */
    predicate IsCompressionConfigurationValid()
      reads this`gzipEnabled, this`gzipEnabledForRequests
    {
      !gzipEnabledForRequests || gzipEnabled
    }

    /** The pool and queue sizes within [1, 16384]. */
    predicate BoundsHold()
      reads this
    {
      && InRange(minThreads, 1, MAX_POOL_SIZE)
      && InRange(maxThreads, 1, MAX_POOL_SIZE)
      && InRange(workQueueSize, 1, MAX_POOL_SIZE)
    }

    /** The inherited constraints, the own bounds and both validation
        methods. */
    predicate Valid()
      reads this, http.Repr()
    {
      && http.Valid()
      && BoundsHold()
      && IsThreadPoolSizedCorrectly()
      && IsCompressionConfigurationValid()
    }

    /** A new configuration: the HTTP defaults, 1 to 128 threads, a queue of
        8, gzip for responses and requests and chunked encoding all on. It
        passes both validation methods. */
    constructor ()
      ensures fresh(http)
      ensures http.HasDefaults()
      ensures minThreads == 1 && maxThreads == 128 && workQueueSize == 8
      ensures gzipEnabled && gzipEnabledForRequests && chunkedEncodingEnabled
      ensures IsThreadPoolSizedCorrectly() && IsCompressionConfigurationValid()
      ensures Valid()
    {
      http := new HttpClientConfiguration();
      minThreads := 1;
      maxThreads := 128;
      workQueueSize := 8;
      gzipEnabled := true;
      gzipEnabledForRequests := true;
      chunkedEncodingEnabled := true;
    }

    method SetMinThreads(n: Int32)
      modifies this`minThreads
      ensures minThreads == n
      ensures unchanged(http)
      ensures IsThreadPoolSizedCorrectly() <==> n <= maxThreads
      ensures old(Valid()) ==> (Valid() <==> 1 <= n <= maxThreads)
      ensures IsCompressionConfigurationValid() == old(IsCompressionConfigurationValid())
    {
      minThreads := n;
    }

    method SetMaxThreads(n: Int32)
      modifies this`maxThreads
      ensures maxThreads == n
      ensures unchanged(http)
      ensures IsThreadPoolSizedCorrectly() <==> minThreads <= n
      ensures old(Valid()) ==> (Valid() <==> minThreads <= n <= MAX_POOL_SIZE)
      ensures IsCompressionConfigurationValid() == old(IsCompressionConfigurationValid())
    {
      maxThreads := n;
    }

    /** Turning gzip off while requests are still compressed breaks the
        compression check. */
    method SetGzipEnabled(enabled: bool)
      modifies this`gzipEnabled
      ensures gzipEnabled == enabled
      ensures unchanged(http)
      ensures !enabled && gzipEnabledForRequests ==> !IsCompressionConfigurationValid()
      ensures enabled ==> IsCompressionConfigurationValid()
      ensures IsThreadPoolSizedCorrectly() == old(IsThreadPoolSizedCorrectly())
    {
      gzipEnabled := enabled;
    }

    method SetGzipEnabledForRequests(enabled: bool)
      modifies this`gzipEnabledForRequests
      ensures gzipEnabledForRequests == enabled
      ensures unchanged(http)
      ensures !enabled ==> IsCompressionConfigurationValid()
      ensures enabled ==> (IsCompressionConfigurationValid() <==> gzipEnabled)
      ensures IsThreadPoolSizedCorrectly() == old(IsThreadPoolSizedCorrectly())
    {
      gzipEnabledForRequests := enabled;
    }

    method SetChunkedEncodingEnabled(enabled: bool)
      modifies this`chunkedEncodingEnabled
      ensures chunkedEncodingEnabled == enabled
      ensures unchanged(http)
      ensures Valid() == old(Valid())
    {
      chunkedEncodingEnabled := enabled;
    }

    method SetWorkQueueSize(n: Int32)
      modifies this`workQueueSize
      ensures workQueueSize == n
      ensures unchanged(http)
      ensures old(Valid()) ==> (Valid() <==> 1 <= n <= MAX_POOL_SIZE)
    {
      workQueueSize := n;
    }
  }
}
