/** io.dropwizard.client.ssl.TlsConfiguration: key store, trust store and
    protocol settings of an HTTP client. */
module Tls {
  import opened JavaLang
  import opened JavaStrings
  import opened Constraints

  /** Store types with this prefix are Windows system stores, which need no
      password. */
  const WINDOWS_STORE_PREFIX: string := "Windows-"

  /** The expression shared by isValidKeyStorePassword and
      isValidTrustStorePassword, evaluated as Java does: a short-circuit `||`
      over "no path", "Windows store type" and "non-empty password". Calling
      startsWith on a null store type throws. */
  function StorePasswordCheck(path: Nullable<string>, storeType: Nullable<string>, password: Nullable<string>): (r: Outcome<bool>)
    ensures path.Null? ==> r == Returns(true)
    ensures path.NonNull? && storeType.Null? ==> r == Throws(NullPointerException)
    ensures path.NonNull? && storeType.NonNull? && StartsWith(storeType.value, WINDOWS_STORE_PREFIX) ==> r == Returns(true)
    ensures path.NonNull? && storeType.NonNull? && !StartsWith(storeType.value, WINDOWS_STORE_PREFIX) ==>
              r == Returns(password.NonNull? && password.value != "")
  {
    if path.Null? then Returns(true)
    else if storeType.Null? then Throws(NullPointerException)
    else if StartsWith(storeType.value, WINDOWS_STORE_PREFIX) then Returns(true)
    else Returns(OfNullable(password).Filter(s => |s| > 0).IsPresent())
  }

  /** The rule the validation message states: the password must be non-null
      and non-empty when the path is set, unless the store is a Windows one. */
  lemma StorePasswordCheckIsMessageRule(path: Nullable<string>, storeType: string, password: Nullable<string>)
    ensures StorePasswordCheck(path, NonNull(storeType), password) ==
      Returns(path.NonNull? && !StartsWith(storeType, WINDOWS_STORE_PREFIX) ==> NotEmpty(password))
  {
    OfNullableFilterIsPresent(password, s => |s| > 0);
  }

  /** The Windows system stores "Windows-MY" and "Windows-ROOT" carry the
      prefix; "JKS" does not, and the comparison is case-sensitive. */
  lemma WindowsStoreTypes()
    ensures StartsWith("Windows-MY", WINDOWS_STORE_PREFIX)
    ensures StartsWith("Windows-ROOT", WINDOWS_STORE_PREFIX)
    ensures !StartsWith("JKS", WINDOWS_STORE_PREFIX)
    ensures !StartsWith("windows-my", WINDOWS_STORE_PREFIX)
  {
    StartsWithIffPrefixPlusRest("Windows-MY", WINDOWS_STORE_PREFIX);
    assert "Windows-MY" == WINDOWS_STORE_PREFIX + "MY";
    StartsWithIffPrefixPlusRest("Windows-ROOT", WINDOWS_STORE_PREFIX);
    assert "Windows-ROOT" == WINDOWS_STORE_PREFIX + "ROOT";
    assert "windows-my"[0] != WINDOWS_STORE_PREFIX[0];
  }

  class TlsConfiguration {
    var protocol: Nullable<string>
    var provider: Nullable<string>
    /** A java.io.File, by its path. */
    var keyStorePath: Nullable<string>
    var keyStorePassword: Nullable<string>
    var keyStoreType: Nullable<string>
    var keyStoreProvider: Nullable<string>
    var trustStorePath: Nullable<string>
    var trustStorePassword: Nullable<string>
    var trustStoreType: Nullable<string>
    var trustStoreProvider: Nullable<string>
    var trustSelfSignedCertificates: bool
    var verifyHostname: bool
    var supportedProtocols: Nullable<seq<string>>
    var supportedCiphers: Nullable<seq<string>>
    var certAlias: Nullable<string>

    /** isValidKeyStorePassword. It reads the three key-store fields and no
        other. */
    function IsValidKeyStorePassword(): (r: Outcome<bool>)
      reads this`keyStorePath, this`keyStoreType, this`keyStorePassword
      ensures keyStorePath.Null? ==> r == Returns(true)
    {
      StorePasswordCheck(keyStorePath, keyStoreType, keyStorePassword)
    }

    /** isValidTrustStorePassword. It reads the three trust-store fields and
        no other. */
    function IsValidTrustStorePassword(): (r: Outcome<bool>)
      reads this`trustStorePath, this`trustStoreType, this`trustStorePassword
      ensures trustStorePath.Null? ==> r == Returns(true)
    {
      StorePasswordCheck(trustStorePath, trustStoreType, trustStorePassword)
    }

    /** The field constraints (@NotEmpty protocol and store types) and both
        validation methods returning true. */
    predicate Valid()
      reads this
    {
      && NotEmpty(protocol)
      && NotEmpty(keyStoreType)
      && NotEmpty(trustStoreType)
      && IsValidKeyStorePassword() == Returns(true)
      && IsValidTrustStorePassword() == Returns(true)
    }

    /** A new configuration: TLSv1.2, JKS stores, self-signed certificates
        not trusted, host names verified, everything else null. Both
        validators accept it. */
    constructor ()
      ensures protocol == NonNull("TLSv1.2")
      ensures keyStoreType == NonNull("JKS") && trustStoreType == NonNull("JKS")
      ensures !trustSelfSignedCertificates && verifyHostname
      ensures provider == Null && keyStoreProvider == Null && trustStoreProvider == Null
      ensures keyStorePath == Null && keyStorePassword == Null
      ensures trustStorePath == Null && trustStorePassword == Null
      ensures supportedProtocols == Null && supportedCiphers == Null && certAlias == Null
      ensures IsValidKeyStorePassword() == Returns(true) && IsValidTrustStorePassword() == Returns(true)
      ensures Valid()
    {
      protocol := NonNull("TLSv1.2");
      provider := Null;
      keyStorePath := Null;
      keyStorePassword := Null;
      keyStoreType := NonNull("JKS");
      keyStoreProvider := Null;
      trustStorePath := Null;
      trustStorePassword := Null;
      trustStoreType := NonNull("JKS");
      trustStoreProvider := Null;
      trustSelfSignedCertificates := false;
      verifyHostname := true;
      supportedProtocols := Null;
      supportedCiphers := Null;
      certAlias := Null;
    }

    method SetTrustSelfSignedCertificates(b: bool)
      modifies this`trustSelfSignedCertificates
      ensures trustSelfSignedCertificates == b
      ensures Valid() == old(Valid())
    {
      trustSelfSignedCertificates := b;
    }

    method SetKeyStorePath(p: Nullable<string>)
      modifies this`keyStorePath
      ensures keyStorePath == p
      ensures old(Valid()) ==> (Valid() <==> IsValidKeyStorePassword() == Returns(true))
      ensures p.Null? ==> IsValidKeyStorePassword() == Returns(true)
      ensures IsValidTrustStorePassword() == old(IsValidTrustStorePassword())
    {
      keyStorePath := p;
    }

    method SetKeyStorePassword(p: Nullable<string>)
      modifies this`keyStorePassword
      ensures keyStorePassword == p
      ensures old(Valid()) ==> (Valid() <==> IsValidKeyStorePassword() == Returns(true))
      ensures IsValidTrustStorePassword() == old(IsValidTrustStorePassword())
    {
      keyStorePassword := p;
    }

    method SetKeyStoreType(t: Nullable<string>)
      modifies this`keyStoreType
      ensures keyStoreType == t
      ensures old(Valid()) ==> (Valid() <==> NotEmpty(t) && IsValidKeyStorePassword() == Returns(true))
      ensures IsValidTrustStorePassword() == old(IsValidTrustStorePassword())
    {
      keyStoreType := t;
    }

    method SetTrustStoreType(t: Nullable<string>)
      modifies this`trustStoreType
      ensures trustStoreType == t
      ensures old(Valid()) ==> (Valid() <==> NotEmpty(t) && IsValidTrustStorePassword() == Returns(true))
      ensures IsValidKeyStorePassword() == old(IsValidKeyStorePassword())
    {
      trustStoreType := t;
    }

    method SetTrustStorePath(p: Nullable<string>)
      modifies this`trustStorePath
      ensures trustStorePath == p
      ensures old(Valid()) ==> (Valid() <==> IsValidTrustStorePassword() == Returns(true))
      ensures p.Null? ==> IsValidTrustStorePassword() == Returns(true)
      ensures IsValidKeyStorePassword() == old(IsValidKeyStorePassword())
    {
      trustStorePath := p;
    }

    method SetTrustStorePassword(p: Nullable<string>)
      modifies this`trustStorePassword
      ensures trustStorePassword == p
      ensures old(Valid()) ==> (Valid() <==> IsValidTrustStorePassword() == Returns(true))
      ensures IsValidKeyStorePassword() == old(IsValidKeyStorePassword())
    {
      trustStorePassword := p;
    }

    method SetVerifyHostname(b: bool)
      modifies this`verifyHostname
      ensures verifyHostname == b
      ensures Valid() == old(Valid())
    {
      verifyHostname := b;
    }

    method SetProtocol(p: Nullable<string>)
      modifies this`protocol
      ensures protocol == p
      ensures old(Valid()) ==> (Valid() <==> NotEmpty(p))
    {
      protocol := p;
    }

    method SetProvider(p: Nullable<string>)
      modifies this`provider
      ensures provider == p
      ensures Valid() == old(Valid())
    {
      provider := p;
    }

    method SetSupportedCiphers(c: Nullable<seq<string>>)
      modifies this`supportedCiphers
      ensures supportedCiphers == c
      ensures Valid() == old(Valid())
    {
      supportedCiphers := c;
    }

    method SetSupportedProtocols(p: Nullable<seq<string>>)
      modifies this`supportedProtocols
      ensures supportedProtocols == p
      ensures Valid() == old(Valid())
    {
      supportedProtocols := p;
    }

    method SetCertAlias(a: Nullable<string>)
      modifies this`certAlias
      ensures certAlias == a
      ensures Valid() == old(Valid())
    {
      certAlias := a;
    }

    method SetKeyStoreProvider(p: Nullable<string>)
      modifies this`keyStoreProvider
      ensures keyStoreProvider == p
      ensures Valid() == old(Valid())
    {
      keyStoreProvider := p;
    }

    method SetTrustStoreProvider(p: Nullable<string>)
      modifies this`trustStoreProvider
      ensures trustStoreProvider == p
      ensures Valid() == old(Valid())
    {
      trustStoreProvider := p;
    }
  }

  /** A Windows key store passes the key-store check with a null or an empty
      password. */
  lemma WindowsKeyStoreNeedsNoPassword(t: TlsConfiguration)
    requires t.keyStoreType.NonNull? && StartsWith(t.keyStoreType.value, WINDOWS_STORE_PREFIX)
    requires t.keyStorePassword == Null || t.keyStorePassword == NonNull("")
    ensures t.IsValidKeyStorePassword() == Returns(true)
  {
  }

  /** With a key-store path set and a store type that is not a Windows one, the
      key-store check holds exactly when the password is non-null and
      non-empty. */
  lemma KeyStoreNeedsPassword(t: TlsConfiguration)
    requires t.keyStorePath.NonNull? && t.keyStoreType.NonNull?
    requires !StartsWith(t.keyStoreType.value, WINDOWS_STORE_PREFIX)
    ensures t.IsValidKeyStorePassword() == Returns(NotEmpty(t.keyStorePassword))
  {
  }

  /** With a trust-store path set and a store type that is not a Windows one,
      the trust-store check holds exactly when the password is non-null and
      non-empty; a Windows trust store needs none. */
  lemma TrustStoreNeedsPassword(t: TlsConfiguration)
    requires t.trustStorePath.NonNull? && t.trustStoreType.NonNull?
    ensures !StartsWith(t.trustStoreType.value, WINDOWS_STORE_PREFIX) ==>
              t.IsValidTrustStorePassword() == Returns(NotEmpty(t.trustStorePassword))
    ensures StartsWith(t.trustStoreType.value, WINDOWS_STORE_PREFIX) ==>
              t.IsValidTrustStorePassword() == Returns(true)
  {
  }
}
