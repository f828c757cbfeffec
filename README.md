# Dropwizard configuration records, modelled in Dafny

This project models seven configuration records of Dropwizard:

- the health-check `Schedule` and `HealthCheckConfiguration` of `dropwizard-health`;
- the HTTP client's `HttpClientConfiguration`, its Jersey extension `JerseyClientConfiguration`, the proxy settings `ProxyConfiguration` and `AuthConfiguration`, and the `TlsConfiguration` of `dropwizard-client`.

Each record is a mutable Java bean. Jackson fills it through its setters, and Hibernate Validator then checks it against its field annotations and its `@ValidationMethod` methods. Accordingly, each record is a Dafny `class`:

- Its fields are the bean's fields. A Java reference that may be null is `Nullable<T>`; a nested record is a nullable class reference.
- Its constructors set the Java field initialisers.
- Each setter is a `method` that modifies exactly its own field (`modifies this`field`). It states the new value. It also states how the record's validity changes: a valid record stays valid exactly when the new value meets that field's constraint.
- `Valid()` is the conjunction of the field annotations, as predicates from module `Constraints`. Where the record has validation methods, they are conjuncts too. Where a field is annotated `@Valid`, the nested record's own `Valid()` is a conjunct.
- The derived getter `Schedule.getInitialDelay` and the validation methods are functions. Their `reads` clauses give the fields they depend on.

The support modules model the following Java library behaviour:

- `JavaLang`: null, `java.util.Optional`, `int` and `long` ranges, two's-complement overflow, and `Objects.hash`.
- `JavaStrings`: `startsWith` and `equalsIgnoreCase`.
- `Durations`: Dropwizard's `Duration` as a value.
- `Constraints`: the bean-validation annotations.

Some members are plain definitions, stated by their bodies. The "## Model" rows name the lemmas and the setter and constructor contracts about them instead. These definitions are:
- `JavaLang.Optional.Filter`, `JavaLang.OfNullable`, `JavaLang.NullableHash`, `JavaStrings.StartsWith`, `JavaStrings.UpperAscii`, `JavaStrings.LowerAscii` and `JavaStrings.ToLowerAscii`, from the Java library;
- `Schedules.Schedule.Equals` (Schedule.java:110-119) and `Schedules.Schedule.HashCode` (Schedule.java:122-124);
- `JerseyClient.JerseyClientConfiguration.IsThreadPoolSizedCorrectly` (JerseyClientConfiguration.java:135-139) and `JerseyClient.JerseyClientConfiguration.IsCompressionConfigurationValid` (JerseyClientConfiguration.java:141-145);
- each record's `Valid()`, taken from its field annotations: Schedule.java:19-37, HealthCheckConfiguration.java:17-35, TlsConfiguration.java:28-69 together with its validation methods at 261-273, AuthConfiguration.java:85-106, ProxyConfiguration.java:64-78, HttpClientConfiguration.java:36-85, and JerseyClientConfiguration.java:33-49 together with its validation methods at 135-145;
- the constraint predicates `HealthChecks.ValidName` (HealthCheckConfiguration.java:17-20), `Proxy.ValidPort` (ProxyConfiguration.java:67-68), `Proxy.ValidScheme` (ProxyConfiguration.java:70-71), `ProxyAuth.ValidAuthScheme` (AuthConfiguration.java:91-93) and `ProxyAuth.ValidCredentialType` (AuthConfiguration.java:104-106);
- `HttpClient.HttpClientConfiguration.HasDefaults`, which holds the HTTP field initialisers (HttpClientConfiguration.java:36-85).

Module layout:

| file | module | Java class |
|---|---|---|
| JavaLang.dfy | `JavaLang` | `java.lang`, `java.util.Optional`, `java.util.Objects` |
| JavaStrings.dfy | `JavaStrings` | `java.lang.String` |
| Duration.dfy | `Durations` | `io.dropwizard.util.Duration` |
| Constraints.dfy | `Constraints` | `@NotNull`, `@NotEmpty`, `@Size`, `@Min`/`@Max`, `@PortRange`, `@OneOf`, `@Pattern` |
| Schedule.dfy | `Schedules` | `io.dropwizard.health.Schedule` |
| HealthCheckConfiguration.dfy | `HealthChecks` | `io.dropwizard.health.HealthCheckConfiguration` |
| TlsConfiguration.dfy | `Tls` | `io.dropwizard.client.ssl.TlsConfiguration` |
| AuthConfiguration.dfy | `ProxyAuth` | `io.dropwizard.client.proxy.AuthConfiguration` |
| ProxyConfiguration.dfy | `Proxy` | `io.dropwizard.client.proxy.ProxyConfiguration` |
| HttpClientConfiguration.dfy | `HttpClient` | `io.dropwizard.client.HttpClientConfiguration` |
| JerseyClientConfiguration.dfy | `JerseyClient` | `io.dropwizard.client.JerseyClientConfiguration` |

`Schedule.getInitialDelay` falls back to the check interval *at the time of the call*. It does not store a copy, and the model states this.

A Java field named `type` is called `checkType` in the model, because `type` is a Dafny keyword. A Java getter that only returns its field is a plain field read of the Dafny class.

## Model

| member | source | states |
|---|---|---|
| JavaLang.OfNullableFilterIsPresent | dropwizard-client/src/main/java/io/dropwizard/client/ssl/TlsConfiguration.java:265 | Optional.ofNullable(x).filter(p).isPresent() holds exactly when x is non-null and p accepts it |
| JavaLang.Wrap | dropwizard-health/src/main/java/io/dropwizard/health/Schedule.java:123 | Java int truncation is the identity on int values and changes its argument only by a multiple of 2^32 |
| JavaLang.WrapNext | dropwizard-health/src/main/java/io/dropwizard/health/Schedule.java:123 | int truncation is unchanged by adding 2^32 |
| JavaLang.WrapShift | dropwizard-health/src/main/java/io/dropwizard/health/Schedule.java:123 | int truncation is unchanged by adding any multiple of 2^32, positive or negative |
| JavaLang.WrapStep | dropwizard-health/src/main/java/io/dropwizard/health/Schedule.java:123 | one hash-combining step gives the same int whether the running hash was truncated before it or not |
| JavaLang.HashPolynomialSnoc | dropwizard-health/src/main/java/io/dropwizard/health/Schedule.java:123 | each further element multiplies the running hash by 31 and adds its own hash |
| JavaLang.HashPolynomialOfFive | dropwizard-health/src/main/java/io/dropwizard/health/Schedule.java:123 | the unbounded hash of five elements is 31^5 plus each element's hash times 31^(4-i) |
| JavaLang.ObjectsHashIsWrappedPolynomial | dropwizard-health/src/main/java/io/dropwizard/health/Schedule.java:123 | Objects.hash in overflowing int arithmetic equals the unbounded 31-polynomial truncated once to 32 bits |
| JavaStrings.StartsWithIffPrefixPlusRest | dropwizard-client/src/main/java/io/dropwizard/client/ssl/TlsConfiguration.java:264 | startsWith holds exactly when the string is the prefix followed by some rest |
| JavaStrings.CaseMappingsAbsorb | dropwizard-client/src/main/java/io/dropwizard/client/proxy/ProxyConfiguration.java:70 | lower-casing ignores a prior upper-casing, upper-casing a prior lower-casing, and lower-casing is idempotent on characters |
| JavaStrings.ToLowerAsciiIdempotent | dropwizard-client/src/main/java/io/dropwizard/client/proxy/AuthConfiguration.java:104 | lower-casing a string twice gives the same string as lower-casing it once |
| JavaStrings.CharEqualsIgnoreCaseIffLower | dropwizard-client/src/main/java/io/dropwizard/client/proxy/ProxyConfiguration.java:70 | two characters are equal ignoring case exactly when their lower-case forms are equal |
| JavaStrings.EqualsIgnoreCaseIffLowerEqual | dropwizard-client/src/main/java/io/dropwizard/client/proxy/ProxyConfiguration.java:70 | equalsIgnoreCase holds in both directions exactly when the lower-case forms of the two strings are equal |
| JavaStrings.EqualsIgnoreCaseIsEquivalence | dropwizard-client/src/main/java/io/dropwizard/client/proxy/ProxyConfiguration.java:70 | equalsIgnoreCase is reflexive, symmetric and transitive |
| JavaStrings.EqualsIgnoreCaseLowerLiteral | dropwizard-client/src/main/java/io/dropwizard/client/proxy/ProxyConfiguration.java:70 | a lower-case literal equals a string ignoring case exactly when the string's lower-case form is that literal; the proxy scheme proof uses it |
| Constraints.OneOfIgnoreCaseIsCaseInsensitivePattern | dropwizard-client/src/main/java/io/dropwizard/client/proxy/ProxyConfiguration.java:70 | under ASCII case folding, @OneOf with ignoreCase and a case-insensitive @Pattern over the same literals accept the same values, null included |
| Schedules.Schedule.constructor | dropwizard-health/src/main/java/io/dropwizard/health/Schedule.java:19-37 | a new schedule has no initial delay, a 5 s check interval, a 30 s downtime interval, 3 failure and 2 success attempts; it is valid, and its effective initial delay is 5 s |
| Schedules.Schedule.GetInitialDelay | dropwizard-health/src/main/java/io/dropwizard/health/Schedule.java:47-53 | the effective initial delay is the stored one when set and the current check interval otherwise; it is never null on a valid schedule |
| Schedules.Schedule.SetInitialDelay | dropwizard-health/src/main/java/io/dropwizard/health/Schedule.java:55-59 | only the initial delay changes; the effective delay becomes the new value, or the check interval for null; validity is unaffected (@Nullable) |
| Schedules.Schedule.SetCheckInterval | dropwizard-health/src/main/java/io/dropwizard/health/Schedule.java:67-71 | only the check interval changes; with no initial delay set, the effective initial delay follows it, otherwise it is unchanged; a valid schedule stays valid exactly for a non-null interval |
| Schedules.Schedule.SetDowntimeInterval | dropwizard-health/src/main/java/io/dropwizard/health/Schedule.java:79-83 | only the downtime interval changes; the effective initial delay does not; a valid schedule stays valid exactly for a non-null interval |
| Schedules.Schedule.SetFailureAttempts | dropwizard-health/src/main/java/io/dropwizard/health/Schedule.java:91-95 | only the failure count changes; a valid schedule stays valid exactly for a count of at least 0 |
| Schedules.Schedule.SetSuccessAttempts | dropwizard-health/src/main/java/io/dropwizard/health/Schedule.java:103-107 | only the success count changes; a valid schedule stays valid exactly for a count of at least 0 |
| Schedules.EqualsIffSameFields | dropwizard-health/src/main/java/io/dropwizard/health/Schedule.java:110-119 | equals holds exactly for a Schedule with the same five fields (the stored initial delay, not the effective one) |
| Schedules.NotEqualToNull | dropwizard-health/src/main/java/io/dropwizard/health/Schedule.java:112 | no schedule equals null |
| Schedules.EqualsIsEquivalence | dropwizard-health/src/main/java/io/dropwizard/health/Schedule.java:110-119 | equals is reflexive, symmetric and transitive |
| Schedules.EqualsImpliesSameHashCode | dropwizard-health/src/main/java/io/dropwizard/health/Schedule.java:110-124 | equal schedules have equal hash codes, for any hash of Duration |
| Schedules.HashCodeIsPolynomial | dropwizard-health/src/main/java/io/dropwizard/health/Schedule.java:122-124 | hashCode is 31^5 + 31^4·h(initialDelay) + 31^3·h(checkInterval) + 31^2·h(downtimeInterval) + 31·failureAttempts + successAttempts, truncated to 32 bits, with 0 as the hash of null |
| Schedules.RawInitialDelayDistinguishes | dropwizard-health/src/main/java/io/dropwizard/health/Schedule.java:47-53 | an unset initial delay and one set to the check interval give the same effective delay, yet the two schedules are not equal |
| HealthChecks.HealthCheckConfiguration.constructor | dropwizard-health/src/main/java/io/dropwizard/health/HealthCheckConfiguration.java:17-35 | a new definition has an empty name, type READY, is not critical, starts healthy and holds a fresh default schedule; the empty name alone makes it invalid |
| HealthChecks.HealthCheckConfiguration.SetName | dropwizard-health/src/main/java/io/dropwizard/health/HealthCheckConfiguration.java:51-55 | only the name changes; the definition is then valid exactly when the name is non-null with at least one character and the type and schedule constraints hold |
| HealthChecks.HealthCheckConfiguration.SetType | dropwizard-health/src/main/java/io/dropwizard/health/HealthCheckConfiguration.java:63-67 | only the type changes; a valid definition stays valid exactly for a non-null type |
| HealthChecks.HealthCheckConfiguration.SetCritical | dropwizard-health/src/main/java/io/dropwizard/health/HealthCheckConfiguration.java:75-79 | only the critical flag changes; validity does not |
| HealthChecks.HealthCheckConfiguration.SetInitialState | dropwizard-health/src/main/java/io/dropwizard/health/HealthCheckConfiguration.java:87-91 | only the initial state changes; validity does not |
| HealthChecks.HealthCheckConfiguration.SetSchedule | dropwizard-health/src/main/java/io/dropwizard/health/HealthCheckConfiguration.java:97-99 | only the reference changes and the schedule object is not touched; a valid definition stays valid exactly for a non-null, valid schedule |
| Tls.StorePasswordCheck | dropwizard-client/src/main/java/io/dropwizard/client/ssl/TlsConfiguration.java:262-273 | the password check passes with no path and with a Windows store type, throws NullPointerException for a set path and a null type, and otherwise passes exactly for a non-null, non-empty password |
| Tls.StorePasswordCheckIsMessageRule | dropwizard-client/src/main/java/io/dropwizard/client/ssl/TlsConfiguration.java:261-273 | with a non-null type, the check is the rule of its message: a set path on a non-Windows store needs a non-null, non-empty password |
| Tls.TlsConfiguration.IsValidKeyStorePassword | dropwizard-client/src/main/java/io/dropwizard/client/ssl/TlsConfiguration.java:262-266 | the key-store check reads only the key-store path, type and password, and passes whenever no path is set |
| Tls.TlsConfiguration.IsValidTrustStorePassword | dropwizard-client/src/main/java/io/dropwizard/client/ssl/TlsConfiguration.java:269-273 | the trust-store check reads only the trust-store path, type and password, and passes whenever no path is set |
| Tls.TlsConfiguration.constructor | dropwizard-client/src/main/java/io/dropwizard/client/ssl/TlsConfiguration.java:28-69 | a new configuration has TLSv1.2, JKS stores, no self-signed trust, host name verification on and everything else null; both checks pass and it is valid |
| Tls.TlsConfiguration.SetKeyStorePath | dropwizard-client/src/main/java/io/dropwizard/client/ssl/TlsConfiguration.java:94-98 | only the key-store path changes; the trust-store check is unaffected; a valid configuration stays valid exactly when the key-store check passes |
| Tls.TlsConfiguration.SetKeyStorePassword | dropwizard-client/src/main/java/io/dropwizard/client/ssl/TlsConfiguration.java:109-113 | only the key-store password changes; the trust-store check is unaffected; a valid configuration stays valid exactly when the key-store check passes |
| Tls.TlsConfiguration.SetKeyStoreType | dropwizard-client/src/main/java/io/dropwizard/client/ssl/TlsConfiguration.java:123-127 | only the key-store type changes; the trust-store check is unaffected; a valid configuration stays valid exactly when the key-store check passes and the type is non-empty |
| Tls.TlsConfiguration.SetTrustStoreType | dropwizard-client/src/main/java/io/dropwizard/client/ssl/TlsConfiguration.java:137-141 | only the trust-store type changes; the key-store check is unaffected; a valid configuration stays valid exactly when the trust-store check passes and the type is non-empty |
| Tls.TlsConfiguration.SetTrustStorePath | dropwizard-client/src/main/java/io/dropwizard/client/ssl/TlsConfiguration.java:152-156 | only the trust-store path changes; the key-store check is unaffected; a valid configuration stays valid exactly when the trust-store check passes |
| Tls.TlsConfiguration.SetTrustStorePassword | dropwizard-client/src/main/java/io/dropwizard/client/ssl/TlsConfiguration.java:167-171 | only the trust-store password changes; the key-store check is unaffected; a valid configuration stays valid exactly when the trust-store check passes |
| Tls.TlsConfiguration.SetProtocol | dropwizard-client/src/main/java/io/dropwizard/client/ssl/TlsConfiguration.java:195-199 | only the protocol changes; a valid configuration stays valid exactly for a non-empty protocol |
| Tls.TlsConfiguration.SetTrustSelfSignedCertificates | dropwizard-client/src/main/java/io/dropwizard/client/ssl/TlsConfiguration.java:72-76 | only the flag changes; validity does not |
| Tls.TlsConfiguration.SetVerifyHostname | dropwizard-client/src/main/java/io/dropwizard/client/ssl/TlsConfiguration.java:181-185 | only the flag changes; validity does not |
| Tls.TlsConfiguration.SetProvider | dropwizard-client/src/main/java/io/dropwizard/client/ssl/TlsConfiguration.java:210-214 | only the provider changes; validity does not |
| Tls.TlsConfiguration.SetSupportedCiphers | dropwizard-client/src/main/java/io/dropwizard/client/ssl/TlsConfiguration.java:225-229 | only the cipher list changes; validity does not |
| Tls.TlsConfiguration.SetSupportedProtocols | dropwizard-client/src/main/java/io/dropwizard/client/ssl/TlsConfiguration.java:240-244 | only the protocol list changes; validity does not |
| Tls.TlsConfiguration.SetCertAlias | dropwizard-client/src/main/java/io/dropwizard/client/ssl/TlsConfiguration.java:255-259 | only the certificate alias changes; validity does not |
| Tls.TlsConfiguration.SetKeyStoreProvider | dropwizard-client/src/main/java/io/dropwizard/client/ssl/TlsConfiguration.java:288-292 | only the key-store provider changes; validity does not |
| Tls.TlsConfiguration.SetTrustStoreProvider | dropwizard-client/src/main/java/io/dropwizard/client/ssl/TlsConfiguration.java:307-311 | only the trust-store provider changes; validity does not |
| Tls.WindowsStoreTypes | dropwizard-client/src/main/java/io/dropwizard/client/ssl/TlsConfiguration.java:264 | "Windows-MY" and "Windows-ROOT" carry the Windows prefix; "JKS" and "windows-my" do not, since the test is case-sensitive |
| Tls.WindowsKeyStoreNeedsNoPassword | dropwizard-client/src/main/java/io/dropwizard/client/ssl/TlsConfiguration.java:262-266 | a Windows- key store passes the key-store check with a null or empty password |
| Tls.KeyStoreNeedsPassword | dropwizard-client/src/main/java/io/dropwizard/client/ssl/TlsConfiguration.java:261-266 | with a path and a non-Windows type, the key-store check passes exactly for a non-null, non-empty password |
| Tls.TrustStoreNeedsPassword | dropwizard-client/src/main/java/io/dropwizard/client/ssl/TlsConfiguration.java:268-273 | with a path and a non-null type, the trust-store check passes exactly for a non-empty password on a non-Windows type, and always on a Windows one |
| ProxyAuth.AuthSchemeIsBasicOrNtlm | dropwizard-client/src/main/java/io/dropwizard/client/proxy/AuthConfiguration.java:91-93 | the auth-scheme pattern accepts null, "Basic" and "NTLM", and nothing else |
| ProxyAuth.AuthSchemeIsCaseSensitive | dropwizard-client/src/main/java/io/dropwizard/client/proxy/AuthConfiguration.java:91-93 | "basic" and "ntlm" do not match the auth-scheme pattern |
| ProxyAuth.LoweredCredentialTypes | dropwizard-client/src/main/java/io/dropwizard/client/proxy/AuthConfiguration.java:73-75 | the two credential-type names lower-case to "usernamepassword" and "nt" |
| ProxyAuth.CredentialTypeIgnoresCase | dropwizard-client/src/main/java/io/dropwizard/client/proxy/AuthConfiguration.java:104-106 | the credential-type pattern accepts null and the strings whose lower-case form is "usernamepassword" or "nt", and nothing else |
| ProxyAuth.CredentialTypeExamples | dropwizard-client/src/main/java/io/dropwizard/client/proxy/AuthConfiguration.java:104-106 | "nt" and "USERNAMEPASSWORD" are accepted and "Kerberos" is not |
| ProxyAuth.AuthConfiguration.constructor | dropwizard-client/src/main/java/io/dropwizard/client/proxy/AuthConfiguration.java:85-109 | the no-argument constructor leaves empty credentials and null optional fields, so the record is invalid |
| ProxyAuth.AuthConfiguration.WithCredentials | dropwizard-client/src/main/java/io/dropwizard/client/proxy/AuthConfiguration.java:111-114 | sets username and password and nothing else; valid exactly when both are non-empty |
| ProxyAuth.AuthConfiguration.WithAll | dropwizard-client/src/main/java/io/dropwizard/client/proxy/AuthConfiguration.java:116-124 | every argument lands in its same-named field |
| ProxyAuth.AuthConfiguration.SetUsername | dropwizard-client/src/main/java/io/dropwizard/client/proxy/AuthConfiguration.java:134-138 | only the username changes; a valid record stays valid exactly for a non-empty username |
| ProxyAuth.AuthConfiguration.SetPassword | dropwizard-client/src/main/java/io/dropwizard/client/proxy/AuthConfiguration.java:148-152 | only the password changes; a valid record stays valid exactly for a non-empty password |
| ProxyAuth.AuthConfiguration.SetAuthScheme | dropwizard-client/src/main/java/io/dropwizard/client/proxy/AuthConfiguration.java:163-167 | only the scheme changes; a valid record stays valid exactly when the scheme matches its pattern |
| ProxyAuth.AuthConfiguration.SetRealm | dropwizard-client/src/main/java/io/dropwizard/client/proxy/AuthConfiguration.java:178-182 | only the realm changes; validity does not |
| ProxyAuth.AuthConfiguration.SetHostname | dropwizard-client/src/main/java/io/dropwizard/client/proxy/AuthConfiguration.java:193-197 | only the host name changes; validity does not |
| ProxyAuth.AuthConfiguration.SetDomain | dropwizard-client/src/main/java/io/dropwizard/client/proxy/AuthConfiguration.java:208-212 | only the domain changes; validity does not |
| ProxyAuth.AuthConfiguration.SetCredentialType | dropwizard-client/src/main/java/io/dropwizard/client/proxy/AuthConfiguration.java:223-227 | only the credential type changes; a valid record stays valid exactly when it matches its pattern |
| Proxy.SchemeIsHttpOrHttpsIgnoringCase | dropwizard-client/src/main/java/io/dropwizard/client/proxy/ProxyConfiguration.java:70-71 | the scheme constraint accepts null and the strings whose lower-case form is "http" or "https", and nothing else |
| Proxy.DefaultSchemeIsValid | dropwizard-client/src/main/java/io/dropwizard/client/proxy/ProxyConfiguration.java:70-71 | the default scheme "http" meets the scheme constraint |
| Proxy.SchemeExamples | dropwizard-client/src/main/java/io/dropwizard/client/proxy/ProxyConfiguration.java:70-71 | "HTTPS" and "Http" are accepted, "ftp" and the empty string are not |
| Proxy.ProxyConfiguration.constructor | dropwizard-client/src/main/java/io/dropwizard/client/proxy/ProxyConfiguration.java:64-89 | the no-argument constructor leaves an empty host, port -1, scheme "http", no auth and no exclusions, so the record is invalid |
| Proxy.ProxyConfiguration.WithHost | dropwizard-client/src/main/java/io/dropwizard/client/proxy/ProxyConfiguration.java:91-93 | sets the host only; valid exactly when the host is non-empty |
| Proxy.ProxyConfiguration.WithHostAndPort | dropwizard-client/src/main/java/io/dropwizard/client/proxy/ProxyConfiguration.java:95-98 | sets host and port only; valid exactly when the host is non-empty and the port is at least -1 |
| Proxy.ProxyConfiguration.WithAll | dropwizard-client/src/main/java/io/dropwizard/client/proxy/ProxyConfiguration.java:100-104 | sets host, port, scheme and auth; valid exactly when each meets its constraint and the auth, if any, is valid |
| Proxy.ProxyConfiguration.SetHost | dropwizard-client/src/main/java/io/dropwizard/client/proxy/ProxyConfiguration.java:114-118 | only the host changes; a valid record stays valid exactly for a non-empty host |
| Proxy.ProxyConfiguration.SetPort | dropwizard-client/src/main/java/io/dropwizard/client/proxy/ProxyConfiguration.java:128-132 | only the port changes; a valid record stays valid exactly for null or a port of at least -1 |
| Proxy.ProxyConfiguration.SetScheme | dropwizard-client/src/main/java/io/dropwizard/client/proxy/ProxyConfiguration.java:142-146 | only the scheme changes; a valid record stays valid exactly when the scheme meets its constraint |
| Proxy.ProxyConfiguration.SetNonProxyHosts | dropwizard-client/src/main/java/io/dropwizard/client/proxy/ProxyConfiguration.java:157-161 | only the exclusion list changes; validity does not |
| Proxy.ProxyConfiguration.SetAuth | dropwizard-client/src/main/java/io/dropwizard/client/proxy/ProxyConfiguration.java:168-170 | only the reference changes and the auth object is not touched; a valid record stays valid exactly for no auth or a valid one |
| HttpClient.HttpClientConfiguration.constructor | dropwizard-client/src/main/java/io/dropwizard/client/HttpClientConfiguration.java:36-85 | a new configuration has 500 ms timeouts, a one-hour time to live, zero keep-alive and inactivity period, 1024 connections, no retries, an empty user agent and no proxy or TLS (`HasDefaults`); it is valid |
| HttpClient.DefaultsAreValid | dropwizard-client/src/main/java/io/dropwizard/client/HttpClientConfiguration.java:36-85 | any configuration holding all fourteen field initialisers satisfies every constraint |
| HttpClient.HttpClientConfiguration.SetKeepAlive | dropwizard-client/src/main/java/io/dropwizard/client/HttpClientConfiguration.java:88-92 | only the keep-alive changes; a valid configuration stays valid exactly for a non-null duration |
| HttpClient.HttpClientConfiguration.SetMaxConnectionsPerRoute | dropwizard-client/src/main/java/io/dropwizard/client/HttpClientConfiguration.java:102-106 | only the per-route limit changes; a valid configuration stays valid exactly for a limit of at least 1 |
| HttpClient.HttpClientConfiguration.SetTimeout | dropwizard-client/src/main/java/io/dropwizard/client/HttpClientConfiguration.java:137-141 | only the timeout changes; a valid configuration stays valid exactly for a non-null duration |
| HttpClient.HttpClientConfiguration.SetConnectionTimeout | dropwizard-client/src/main/java/io/dropwizard/client/HttpClientConfiguration.java:144-148 | only the connection timeout changes; a valid configuration stays valid exactly for a non-null duration |
| HttpClient.HttpClientConfiguration.SetConnectionRequestTimeout | dropwizard-client/src/main/java/io/dropwizard/client/HttpClientConfiguration.java:158-162 | only the request timeout changes; a valid configuration stays valid exactly for a non-null duration |
| HttpClient.HttpClientConfiguration.SetTimeToLive | dropwizard-client/src/main/java/io/dropwizard/client/HttpClientConfiguration.java:165-169 | only the time to live changes; a valid configuration stays valid exactly for a non-null duration |
| HttpClient.HttpClientConfiguration.SetCookiesEnabled | dropwizard-client/src/main/java/io/dropwizard/client/HttpClientConfiguration.java:172-176 | only the cookie flag changes; validity does not |
| HttpClient.HttpClientConfiguration.SetNormalizeUriEnabled | dropwizard-client/src/main/java/io/dropwizard/client/HttpClientConfiguration.java:196-200 | only the normalisation flag changes; validity does not |
| HttpClient.HttpClientConfiguration.SetMaxConnections | dropwizard-client/src/main/java/io/dropwizard/client/HttpClientConfiguration.java:210-214 | only the connection limit changes; a valid configuration stays valid exactly for a limit of at least 1 |
| HttpClient.HttpClientConfiguration.SetRetries | dropwizard-client/src/main/java/io/dropwizard/client/HttpClientConfiguration.java:224-228 | only the retry count changes; a valid configuration stays valid exactly for a count in [0, 1000] |
| HttpClient.HttpClientConfiguration.SetUserAgent | dropwizard-client/src/main/java/io/dropwizard/client/HttpClientConfiguration.java:238-242 | only the user agent changes; a valid configuration stays valid exactly for a non-null Optional, empty or not |
| HttpClient.HttpClientConfiguration.SetProxyConfiguration | dropwizard-client/src/main/java/io/dropwizard/client/HttpClientConfiguration.java:251-253 | only the reference changes and the proxy object is not touched; a valid configuration stays valid exactly for no proxy or a valid one |
| HttpClient.HttpClientConfiguration.SetValidateAfterInactivityPeriod | dropwizard-client/src/main/java/io/dropwizard/client/HttpClientConfiguration.java:263-267 | only the inactivity period changes; a valid configuration stays valid exactly for a non-null duration |
| HttpClient.HttpClientConfiguration.SetTlsConfiguration | dropwizard-client/src/main/java/io/dropwizard/client/HttpClientConfiguration.java:276-278 | only the reference changes and the TLS object is not touched; a valid configuration stays valid exactly for no TLS settings or valid ones |
| JerseyClient.JerseyClientConfiguration.constructor | dropwizard-client/src/main/java/io/dropwizard/client/JerseyClientConfiguration.java:33-49 | a new configuration holds a fresh HTTP record with all fourteen HTTP field initialisers (`HasDefaults`), 1 to 128 threads, a queue of 8 and gzip and chunked encoding on; both validation methods pass and it is valid |
| JerseyClient.JerseyClientConfiguration.SetMinThreads | dropwizard-client/src/main/java/io/dropwizard/client/JerseyClientConfiguration.java:59-63 | only the minimum changes and the HTTP settings are untouched; the pool check then holds exactly when the minimum is at most the maximum, and a valid configuration stays valid exactly for 1 <= n <= maxThreads |
| JerseyClient.JerseyClientConfiguration.SetMaxThreads | dropwizard-client/src/main/java/io/dropwizard/client/JerseyClientConfiguration.java:73-77 | only the maximum changes; the pool check then holds exactly when the minimum is at most it, and a valid configuration stays valid exactly for minThreads <= n <= 16384 |
| JerseyClient.JerseyClientConfiguration.SetGzipEnabled | dropwizard-client/src/main/java/io/dropwizard/client/JerseyClientConfiguration.java:87-91 | only the gzip flag changes; turning it off while requests are compressed fails the compression check, turning it on always passes it |
| JerseyClient.JerseyClientConfiguration.SetGzipEnabledForRequests | dropwizard-client/src/main/java/io/dropwizard/client/JerseyClientConfiguration.java:101-105 | only the request flag changes; off always passes the compression check, on passes it exactly when gzip is enabled |
| JerseyClient.JerseyClientConfiguration.SetChunkedEncodingEnabled | dropwizard-client/src/main/java/io/dropwizard/client/JerseyClientConfiguration.java:115-119 | only the chunked-encoding flag changes; validity does not |
| JerseyClient.JerseyClientConfiguration.SetWorkQueueSize | dropwizard-client/src/main/java/io/dropwizard/client/JerseyClientConfiguration.java:129-133 | only the queue size changes; a valid configuration stays valid exactly for a size in [1, 16384] |

## Left out

- Logging: most getters and setters log a `[CTEST]` line, and the setters add a stack trace built by `getStackTrace`. The schedule, auth, proxy and TLS accessors do not log. Logging has no effect on the records' state and is not modelled.
- The health-check scheduler, the per-check state machine and the aggregation of results: none of them is in these record classes.
- `Schedule.checkInterval` is only `@NotNull`: the code has no positive-duration constraint, so the model has none.
- `HealthCheckConfiguration.name` is `@NotNull @Size(min = 1)`, and nothing in the record makes names unique, so the model does not.
- `ServletHealthResponderFactory` registers the servlet that answers health-check requests. It is not modelled.
- Jackson binding and the validation engine: they are not part of this model. `Valid()` is what the engine would check, under the Jakarta Bean Validation convention that every constraint except `@NotNull` and `@NotEmpty` accepts null. A validation method that throws, such as the TLS password checks on a null store type, is treated as a failed validation.
- `@PortRange`: its source is not part of this model. Only its lower bound, `min = -1`, is modelled, as `@Min` on a nullable Integer. Its default upper bound is not modelled.
- `@OneOf`: its validator's source is not part of this model. It is modelled as membership by `equals`, or by `equalsIgnoreCase` when ignoreCase is set.
- `HealthCheckType`: its source is not part of this model. The model has its two constants, READY and ALIVE.
- `Duration`: its source is not part of this model. A Duration is the value (count, unit), and only the factory methods the records use are modelled. Its arithmetic, unit conversions and parsing are not modelled.
- Schedules.Schedule.HashCode: the hash of a Duration is a parameter. TimeUnit's enum hash is an identity hash, so no fixed value would be faithful. Equality of Durations is modelled as equality of (count, unit), which is Duration.equals.
- `java.io.File` is modelled by its path string. File identity and the file system are not modelled.
- The `List<String>` fields (`nonProxyHosts`, `supportedProtocols`, `supportedCiphers`) are held by value. Aliasing of a list that the caller mutates after calling the setter is not modelled.
- JavaStrings.EqualsIgnoreCase: case mapping covers the ASCII letters only. `String.equalsIgnoreCase` also folds non-ASCII letters, such as U+017F (long s) against 's'. This matters for the proxy scheme: Java's `@OneOf(ignoreCase = true)` accepts "httpſ", because U+017F upper-cases to 'S', whereas Proxy.SchemeIsHttpOrHttpsIgnoringCase shows the model rejects it. The `@Pattern` model is exact, because `CASE_INSENSITIVE` without `UNICODE_CASE` folds only ASCII.
- Constraints.OneOfIgnoreCaseIsCaseInsensitivePattern: the equivalence holds only under the model's ASCII case folding. In Java the two part on non-ASCII input. For "httpſ", `@OneOf(value = {"http", "https"}, ignoreCase = true)` accepts, by `equalsIgnoreCase`, while a `CASE_INSENSITIVE` `@Pattern` over the same words rejects.
- `@Pattern` is modelled only for the two patterns the records use, which are choices between literals. General regular expressions are not modelled.
- Subclass identity: Java's `instanceof Schedule` would also accept a subclass of Schedule. No such subclass exists in this model.
- `JerseyClientConfiguration extends HttpClientConfiguration`: the Java subclass inherits the HTTP fields. Here the Jersey record holds its own HTTP record in `http`, and every Jersey setter leaves that record unchanged. Calling the HTTP setters through the Jersey object is done by calling them on `http`.
- Getter/setter pairs that only read or write a field: the getters are field reads of the Dafny class.
