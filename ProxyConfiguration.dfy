/** io.dropwizard.client.proxy.ProxyConfiguration: the proxy server an HTTP
    client goes through. */
module Proxy {
  import opened JavaLang
  import opened JavaStrings
  import opened Constraints
  import opened ProxyAuth

  /** The port that means "use the scheme's default port". */
  const DEFAULT_PORT: int := -1

  const HTTP_SCHEMES: seq<string> := ["http", "https"]

  /** @PortRange(min = -1), lower bound only. */
  predicate ValidPort(port: Nullable<Int32>)
  {
    AtLeast(port, DEFAULT_PORT)
  }

  /** @OneOf(value = {"http", "https"}, ignoreCase = true). */
  predicate ValidScheme(scheme: Nullable<string>)
  {
    OneOf(scheme, HTTP_SCHEMES, true)
  }

  /** The scheme constraint accepts null and the strings whose lower-case
      form is "http" or "https" (so "HTTP" and "Https" as well), and nothing
      else. */
  lemma SchemeIsHttpOrHttpsIgnoringCase(scheme: Nullable<string>)
    ensures ValidScheme(scheme) <==>
      scheme.Null? || ToLowerAscii(scheme.value) == "http" || ToLowerAscii(scheme.value) == "https"
  {
    assert ToLowerAscii(HTTP_SCHEMES[0]) == "http";
    assert ToLowerAscii(HTTP_SCHEMES[1]) == "https";
    if scheme.NonNull? {
      EqualsIgnoreCaseLowerLiteral(HTTP_SCHEMES[0], scheme.value);
      EqualsIgnoreCaseLowerLiteral(HTTP_SCHEMES[1], scheme.value);
    }
  }

  /** The default scheme satisfies the scheme constraint. */
  lemma DefaultSchemeIsValid()
    ensures ValidScheme(NonNull("http"))
  {
    assert EqualsIgnoreCase(HTTP_SCHEMES[0], "http");
  }

  /** Upper-case and mixed-case spellings of the two schemes are accepted; other
      schemes and the empty string are not. */
  lemma SchemeExamples()
    ensures ValidScheme(NonNull("HTTPS")) && ValidScheme(NonNull("Http"))
    ensures !ValidScheme(NonNull("ftp")) && !ValidScheme(NonNull(""))
  {
    SchemeIsHttpOrHttpsIgnoringCase(NonNull("HTTPS"));
    SchemeIsHttpOrHttpsIgnoringCase(NonNull("Http"));
    SchemeIsHttpOrHttpsIgnoringCase(NonNull("ftp"));
    SchemeIsHttpOrHttpsIgnoringCase(NonNull(""));
    assert ToLowerAscii("HTTPS") == "https";
    assert ToLowerAscii("Http") == "http";
    assert |ToLowerAscii("ftp")| == 3 && ToLowerAscii("ftp")[0] == 'f';
  }

  class ProxyConfiguration {
    var host: Nullable<string>
    var port: Nullable<Int32>
    var scheme: Nullable<string>
    var auth: AuthConfiguration?
    var nonProxyHosts: Nullable<seq<string>>

    /** The field constraints: @NotEmpty host, the port range, the scheme
        choice, and a valid auth when there is one (@Valid). */
    predicate Valid()
      reads this, auth
    {
      && NotEmpty(host)
      && ValidPort(port)
      && ValidScheme(scheme)
      && (auth != null ==> auth.Valid())
    }

    /** No-argument constructor: empty host, so the result is not valid. */
    constructor ()
      ensures host == NonNull("") && port == NonNull(DEFAULT_PORT) && scheme == NonNull("http")
      ensures auth == null && nonProxyHosts == Null
      ensures !Valid()
    {
      host := NonNull("");
      port := NonNull(DEFAULT_PORT);
      scheme := NonNull("http");
      auth := null;
      nonProxyHosts := Null;
    }

    /** Sets only the host. Valid exactly when the host is non-empty. */
    constructor WithHost(host: Nullable<string>)
      ensures this.host == host && port == NonNull(DEFAULT_PORT) && scheme == NonNull("http")
      ensures auth == null && nonProxyHosts == Null
      ensures Valid() <==> NotEmpty(host)
    {
      this.host := host;
      port := NonNull(DEFAULT_PORT);
      scheme := NonNull("http");
      auth := null;
      nonProxyHosts := Null;
      DefaultSchemeIsValid();
    }

    /** Sets host and port; the scheme stays "http" and there is no auth. */
    constructor WithHostAndPort(host: Nullable<string>, port: Int32)
      ensures this.host == host && this.port == NonNull(port) && scheme == NonNull("http")
      ensures auth == null && nonProxyHosts == Null
      ensures Valid() <==> NotEmpty(host) && port >= DEFAULT_PORT
    {
      this.host := host;
      this.port := NonNull(port);
      scheme := NonNull("http");
      this.auth := null;
      nonProxyHosts := Null;
      DefaultSchemeIsValid();
    }

    /** Sets the four given fields; nonProxyHosts stays null. */
    constructor WithAll(host: Nullable<string>, port: Int32, scheme: Nullable<string>, auth: AuthConfiguration?)
      ensures this.host == host && this.port == NonNull(port) && this.scheme == scheme
      ensures this.auth == auth && nonProxyHosts == Null
      ensures auth != null ==> unchanged(auth)
      ensures Valid() <==>
        NotEmpty(host) && port >= DEFAULT_PORT && ValidScheme(scheme) && (auth != null ==> auth.Valid())
    {
      this.host := host;
      this.port := NonNull(port);
      this.scheme := scheme;
      this.auth := auth;
      nonProxyHosts := Null;
    }

    method SetHost(h: Nullable<string>)
      modifies this`host
      ensures host == h
      ensures old(Valid()) ==> (Valid() <==> NotEmpty(h))
    {
      host := h;
    }

    method SetPort(p: Nullable<Int32>)
      modifies this`port
      ensures port == p
      ensures old(Valid()) ==> (Valid() <==> ValidPort(p))
    {
      port := p;
    }

    method SetScheme(s: Nullable<string>)
      modifies this`scheme
      ensures scheme == s
      ensures old(Valid()) ==> (Valid() <==> ValidScheme(s))
    {
      scheme := s;
    }

    method SetNonProxyHosts(hosts: Nullable<seq<string>>)
      modifies this`nonProxyHosts
      ensures nonProxyHosts == hosts
      ensures Valid() == old(Valid())
    {
      nonProxyHosts := hosts;
    }

    /** Replaces the reference only; the auth objects are not touched. */
    method SetAuth(a: AuthConfiguration?)
      modifies this`auth
      ensures auth == a
      ensures a != null ==> unchanged(a)
      ensures old(Valid()) ==> (Valid() <==> (a != null ==> a.Valid()))
    {
      auth := a;
    }
  }
}
