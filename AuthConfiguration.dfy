/** io.dropwizard.client.proxy.AuthConfiguration: the credentials an HTTP
    client presents to a proxy. */
module ProxyAuth {
  import opened JavaLang
  import opened JavaStrings
  import opened Constraints

  const BASIC_AUTH_SCHEME: string := "Basic"
  const NTLM_AUTH_SCHEME: string := "NTLM"
  const USERNAME_PASSWORD_CREDS: string := "UsernamePassword"
  const NT_CREDS: string := "NT"

  /** @Pattern(regexp = "Basic|NTLM"): null, or exactly one of the two
      scheme names, case-sensitively. */
  predicate ValidAuthScheme(s: Nullable<string>)
  {
    MatchesLiteralAlternatives(s, [BASIC_AUTH_SCHEME, NTLM_AUTH_SCHEME], false)
  }

  /** @Pattern(regexp = "UsernamePassword|NT", flags = CASE_INSENSITIVE). */
  predicate ValidCredentialType(s: Nullable<string>)
  {
    MatchesLiteralAlternatives(s, [USERNAME_PASSWORD_CREDS, NT_CREDS], true)
  }

  /** The scheme constraint accepts null, "Basic" and "NTLM", and nothing
      else. */
  lemma AuthSchemeIsBasicOrNtlm(s: Nullable<string>)
    ensures ValidAuthScheme(s) <==> s.Null? || s.value == "Basic" || s.value == "NTLM"
  {
    if s.NonNull? && (s.value == "Basic" || s.value == "NTLM") {
      var alternatives := [BASIC_AUTH_SCHEME, NTLM_AUTH_SCHEME];
      assert s.value == alternatives[0] || s.value == alternatives[1];
    }
  }

  /** The scheme comparison is case-sensitive: "basic" and "ntlm" are
      rejected. */
  lemma AuthSchemeIsCaseSensitive()
    ensures !ValidAuthScheme(NonNull("basic")) && !ValidAuthScheme(NonNull("ntlm"))
  {
    AuthSchemeIsBasicOrNtlm(NonNull("basic"));
    AuthSchemeIsBasicOrNtlm(NonNull("ntlm"));
  }

  /** The lower-case forms of the two credential types. */
  lemma LoweredCredentialTypes()
    ensures ToLowerAscii(USERNAME_PASSWORD_CREDS) == "usernamepassword"
    ensures ToLowerAscii(NT_CREDS) == "nt"
  {
    var lowered := ToLowerAscii(USERNAME_PASSWORD_CREDS);
    forall i | 0 <= i < |lowered| ensures lowered[i] == "usernamepassword"[i] {
    }
    var nt := ToLowerAscii(NT_CREDS);
    assert nt[0] == 'n' && nt[1] == 't';
  }

  /** The credential-type constraint accepts null and the strings whose
      lower-case form is "usernamepassword" or "nt". */
  lemma CredentialTypeIgnoresCase(s: Nullable<string>)
    ensures ValidCredentialType(s) <==>
      s.Null? || ToLowerAscii(s.value) == "usernamepassword" || ToLowerAscii(s.value) == "nt"
  {
    LoweredCredentialTypes();
    var alternatives := [USERNAME_PASSWORD_CREDS, NT_CREDS];
    assert ToLowerAscii(alternatives[0]) == "usernamepassword";
    assert ToLowerAscii(alternatives[1]) == "nt";
  }

  /** Any capitalisation of the two credential types is accepted; other
      names are not. */
  lemma CredentialTypeExamples()
    ensures ValidCredentialType(NonNull("nt")) && ValidCredentialType(NonNull("USERNAMEPASSWORD"))
    ensures !ValidCredentialType(NonNull("Kerberos"))
  {
    CredentialTypeIgnoresCase(NonNull("nt"));
    CredentialTypeIgnoresCase(NonNull("USERNAMEPASSWORD"));
    CredentialTypeIgnoresCase(NonNull("Kerberos"));
    var upper := ToLowerAscii("USERNAMEPASSWORD");
    forall i | 0 <= i < |upper| ensures upper[i] == "usernamepassword"[i] {
    }
    assert ToLowerAscii("nt") == "nt";
    assert |ToLowerAscii("Kerberos")| == 8;
  }

  class AuthConfiguration {
    var username: Nullable<string>
    var password: Nullable<string>
    var authScheme: Nullable<string>
    var realm: Nullable<string>
    var hostname: Nullable<string>
    var domain: Nullable<string>
    var credentialType: Nullable<string>

    /** The field constraints: @NotEmpty credentials and the two patterns. */
    predicate Valid()
      reads this
    {
      && NotEmpty(username)
      && NotEmpty(password)
      && ValidAuthScheme(authScheme)
      && ValidCredentialType(credentialType)
    }

    /** No-argument constructor: empty credentials, so the result is not
        valid. */
    constructor ()
      ensures username == NonNull("") && password == NonNull("")
      ensures authScheme == Null && realm == Null && hostname == Null
      ensures domain == Null && credentialType == Null
      ensures !Valid()
    {
      username := NonNull("");
      password := NonNull("");
      authScheme := Null;
      realm := Null;
      hostname := Null;
      domain := Null;
      credentialType := Null;
    }

    /** Username and password only; the optional fields stay null. Valid
        exactly when both are non-empty. */
    constructor WithCredentials(username: Nullable<string>, password: Nullable<string>)
      ensures this.username == username && this.password == password
      ensures authScheme == Null && realm == Null && hostname == Null
      ensures domain == Null && credentialType == Null
      ensures Valid() <==> NotEmpty(username) && NotEmpty(password)
    {
      this.username := username;
      this.password := password;
      authScheme := Null;
      realm := Null;
      hostname := Null;
      domain := Null;
      credentialType := Null;
    }

    /** Every argument in its same-named field. */
    constructor WithAll(username: Nullable<string>, password: Nullable<string>, authScheme: Nullable<string>,
                        realm: Nullable<string>, hostname: Nullable<string>, domain: Nullable<string>,
                        credentialType: Nullable<string>)
      ensures this.username == username && this.password == password
      ensures this.authScheme == authScheme && this.realm == realm && this.hostname == hostname
      ensures this.domain == domain && this.credentialType == credentialType
    {
      this.username := username;
      this.password := password;
      this.authScheme := authScheme;
      this.realm := realm;
      this.hostname := hostname;
      this.domain := domain;
      this.credentialType := credentialType;
    }

    method SetUsername(u: Nullable<string>)
      modifies this`username
      ensures username == u
      ensures old(Valid()) ==> (Valid() <==> NotEmpty(u))
    {
      username := u;
    }

    method SetPassword(p: Nullable<string>)
      modifies this`password
      ensures password == p
      ensures old(Valid()) ==> (Valid() <==> NotEmpty(p))
    {
      password := p;
    }

    method SetAuthScheme(s: Nullable<string>)
      modifies this`authScheme
      ensures authScheme == s
      ensures old(Valid()) ==> (Valid() <==> ValidAuthScheme(s))
    {
      authScheme := s;
    }

    method SetRealm(r: Nullable<string>)
      modifies this`realm
      ensures realm == r
      ensures Valid() == old(Valid())
    {
      realm := r;
    }

    method SetHostname(h: Nullable<string>)
      modifies this`hostname
      ensures hostname == h
      ensures Valid() == old(Valid())
    {
      hostname := h;
    }

    method SetDomain(d: Nullable<string>)
      modifies this`domain
      ensures domain == d
      ensures Valid() == old(Valid())
    {
      domain := d;
    }

    method SetCredentialType(t: Nullable<string>)
      modifies this`credentialType
      ensures credentialType == t
      ensures old(Valid()) ==> (Valid() <==> ValidCredentialType(t))
    {
      credentialType := t;
    }
  }
}
