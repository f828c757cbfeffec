/** io.dropwizard.client.HttpClientConfiguration: timeouts, connection pool
    sizes, retries and the optional proxy and TLS settings of an HTTP client. */
module HttpClient {
  import opened JavaLang
  import opened Durations
  import opened Constraints
  import opened Proxy
  import opened Tls

  const MAX_RETRIES: int := 1000

  class HttpClientConfiguration {
    var timeout: Nullable<Duration>
    var connectionTimeout: Nullable<Duration>
    var connectionRequestTimeout: Nullable<Duration>
    var timeToLive: Nullable<Duration>
    var cookiesEnabled: bool
    var normalizeUriEnabled: bool
    var maxConnections: Int32
    var maxConnectionsPerRoute: Int32
    var keepAlive: Nullable<Duration>
    var retries: Int32
    /** A java.util.Optional field, itself a reference that may be null. */
    var userAgent: Nullable<Optional<string>>
    var proxyConfiguration: ProxyConfiguration?
    var validateAfterInactivityPeriod: Nullable<Duration>
    var tlsConfiguration: TlsConfiguration?

    /** The objects validation looks into: this record, the proxy and its
        auth, and the TLS settings. */
    ghost function Repr(): set<object?>
      reads this, proxyConfiguration
    {
      {this, proxyConfiguration, tlsConfiguration}
      + (if proxyConfiguration != null then {proxyConfiguration.auth} else {})
    }

    /** All durations and the user agent non-null. */
    predicate DurationsAndUserAgentSet()
      reads this
    {
      && NotNull(timeout)
      && NotNull(connectionTimeout)
      && NotNull(connectionRequestTimeout)
      && NotNull(timeToLive)
      && NotNull(keepAlive)
      && NotNull(userAgent)
      && NotNull(validateAfterInactivityPeriod)
    }

    /** The pool sizes and the retry count within their @Min/@Max bounds. */
    predicate BoundsHold()
      reads this
    {
      && InRange(maxConnections, 1, INTEGER_MAX_VALUE)
      && InRange(maxConnectionsPerRoute, 1, INTEGER_MAX_VALUE)
      && InRange(retries, 0, MAX_RETRIES)
    }

    /** The optional nested settings, each valid when present (@Valid). */
    predicate NestedValid()
      reads Repr()
    {
      && (proxyConfiguration != null ==> proxyConfiguration.Valid())
      && (tlsConfiguration != null ==> tlsConfiguration.Valid())
    }

    predicate Valid()
      reads Repr()
    {
      DurationsAndUserAgentSet() && BoundsHold() && NestedValid()
    }

    /** Every field holds its Java initialiser: 500 ms timeouts, one hour
        time to live, no keep-alive, cookies off, URI normalisation on, 1024
        connections in all and per route, no retries, an empty user agent, no
        proxy, no TLS. */
    predicate HasDefaults()
      reads this
    {
      && timeout == NonNull(MillisecondsOf(500))
      && connectionTimeout == NonNull(MillisecondsOf(500))
      && connectionRequestTimeout == NonNull(MillisecondsOf(500))
      && timeToLive == NonNull(HoursOf(1))
      && keepAlive == NonNull(MillisecondsOf(0))
      && validateAfterInactivityPeriod == NonNull(MicrosecondsOf(0))
      && !cookiesEnabled && normalizeUriEnabled
      && maxConnections == 1024 && maxConnectionsPerRoute == 1024 && retries == 0
      && userAgent == NonNull(Empty)
      && proxyConfiguration == null && tlsConfiguration == null
    }

    /** A new configuration: 500 ms timeouts, one hour time to live, no
        keep-alive, cookies off, URI normalisation on, 1024 connections in all
        and per route, no retries, an empty user agent, no proxy, no TLS. */
    constructor ()
      ensures HasDefaults()
      ensures Valid()
    {
      timeout := NonNull(MillisecondsOf(500));
      connectionTimeout := NonNull(MillisecondsOf(500));
      connectionRequestTimeout := NonNull(MillisecondsOf(500));
      timeToLive := NonNull(HoursOf(1));
      cookiesEnabled := false;
      normalizeUriEnabled := true;
      maxConnections := 1024;
      maxConnectionsPerRoute := 1024;
      keepAlive := NonNull(MillisecondsOf(0));
      retries := 0;
      userAgent := NonNull(Empty);
      proxyConfiguration := null;
      validateAfterInactivityPeriod := NonNull(MicrosecondsOf(0));
      tlsConfiguration := null;
      new;
      DefaultsAreValid(this);
    }

    method SetKeepAlive(d: Nullable<Duration>)
      modifies this`keepAlive
      ensures keepAlive == d
      ensures old(Valid()) ==> (Valid() <==> NotNull(d))
    {
      keepAlive := d;
    }

    method SetMaxConnectionsPerRoute(n: Int32)
      modifies this`maxConnectionsPerRoute
      ensures maxConnectionsPerRoute == n
      ensures old(Valid()) ==> (Valid() <==> n >= 1)
    {
      maxConnectionsPerRoute := n;
    }

    method SetTimeout(d: Nullable<Duration>)
      modifies this`timeout
      ensures timeout == d
      ensures old(Valid()) ==> (Valid() <==> NotNull(d))
    {
      timeout := d;
    }

    method SetConnectionTimeout(d: Nullable<Duration>)
      modifies this`connectionTimeout
      ensures connectionTimeout == d
      ensures old(Valid()) ==> (Valid() <==> NotNull(d))
    {
      connectionTimeout := d;
    }

    method SetConnectionRequestTimeout(d: Nullable<Duration>)
      modifies this`connectionRequestTimeout
      ensures connectionRequestTimeout == d
      ensures old(Valid()) ==> (Valid() <==> NotNull(d))
    {
      connectionRequestTimeout := d;
    }

    method SetTimeToLive(d: Nullable<Duration>)
      modifies this`timeToLive
      ensures timeToLive == d
      ensures old(Valid()) ==> (Valid() <==> NotNull(d))
    {
      timeToLive := d;
    }

    method SetCookiesEnabled(enabled: bool)
      modifies this`cookiesEnabled
      ensures cookiesEnabled == enabled
      ensures Valid() == old(Valid())
    {
      cookiesEnabled := enabled;
    }

    method SetNormalizeUriEnabled(enabled: bool)
      modifies this`normalizeUriEnabled
      ensures normalizeUriEnabled == enabled
      ensures Valid() == old(Valid())
    {
      normalizeUriEnabled := enabled;
    }

    method SetMaxConnections(n: Int32)
      modifies this`maxConnections
      ensures maxConnections == n
      ensures old(Valid()) ==> (Valid() <==> n >= 1)
    {
      maxConnections := n;
    }

    method SetRetries(n: Int32)
      modifies this`retries
      ensures retries == n
      ensures old(Valid()) ==> (Valid() <==> 0 <= n <= MAX_RETRIES)
    {
      retries := n;
    }

    method SetUserAgent(agent: Nullable<Optional<string>>)
      modifies this`userAgent
      ensures userAgent == agent
      ensures old(Valid()) ==> (Valid() <==> NotNull(agent))
    {
      userAgent := agent;
    }

    /** Replaces the reference only; the proxy objects are not touched. */
    method SetProxyConfiguration(p: ProxyConfiguration?)
      modifies this`proxyConfiguration
      ensures proxyConfiguration == p
      ensures p != null ==> unchanged(p)
      ensures old(Valid()) ==> (Valid() <==> (p != null ==> p.Valid()))
    {
      proxyConfiguration := p;
    }

    method SetValidateAfterInactivityPeriod(d: Nullable<Duration>)
      modifies this`validateAfterInactivityPeriod
      ensures validateAfterInactivityPeriod == d
      ensures old(Valid()) ==> (Valid() <==> NotNull(d))
    {
      validateAfterInactivityPeriod := d;
    }

    /** Replaces the reference only; the TLS objects are not touched. */
    method SetTlsConfiguration(t: TlsConfiguration?)
      modifies this`tlsConfiguration
      ensures tlsConfiguration == t
      ensures t != null ==> unchanged(t)
      ensures old(Valid()) ==> (Valid() <==> (t != null ==> t.Valid()))
    {
      tlsConfiguration := t;
    }
  }

  /** Any configuration holding the defaults is valid, whichever object it
      is. */
  lemma DefaultsAreValid(c: HttpClientConfiguration)
    requires c.HasDefaults()
    ensures c.Valid()
  {
  }
}
