// The certificate authority's configuration (authority/config/config.go): filling in
// defaults, validating, and the lists of audiences a token may be issued for.
module SmallstepConfig {
  import opened Wrappers
  import opened GoStrings
  import opened GoTime

  /** The audience every sign and revoke token has always been accepted for. */
  const LegacyAuthority: string := "step-certificate-authority"

  /** DefaultBackdate: one minute. */
  const DefaultBackdate: int := Minute

  /** The DNS names a configuration without any gets. */
  const DefaultDNSNames: seq<string> := ["localhost", "127.0.0.1", "::1"]

  const DefaultCommonName: string := "Step Online CA"

  /** A TLS version; the zero value means "not set". */
  type TLSVersion = real

  datatype TLSOptions = TLSOptions(
    cipherSuites: seq<string>,
    minVersion: TLSVersion,
    maxVersion: TLSVersion,
    renegotiation: bool)

  /** The subject template of an ASN.1 distinguished name. */
  datatype ASN1DN = ASN1DN(
    country: string, organization: string, organizationalUnit: string,
    locality: string, province: string, streetAddress: string,
    serialNumber: string, commonName: string)

  const EmptyDN: ASN1DN := ASN1DN("", "", "", "", "", "", "", "")

  datatype ProvisionerType = K8sSA | OtherType(name: string)

  datatype Provisioner = Provisioner(typ: ProvisionerType, name: string)

  datatype ConfigError =
    | AddressEmpty
    | DNSNamesEmpty
    | AuthorityNil
    | RootEmpty
    | CrtEmpty
    | KeyEmpty
    | InvalidAddress(address: string)
    | TLSMinAboveMax
    | KMSInvalid(reason: string)
    | RAInvalid(reason: string)
    | SSHInvalid(reason: string)
    | TemplatesInvalid(reason: string)
    | AuthorityUndefined
    | TooManyK8sSA
    | NegativeBackdate

  // ---------------------------------------------------------------------------
  // AuthConfig

  /** The authority's part of the configuration, as its fields stand. */
  datatype AuthView = AuthView(
    softCAS: bool,
    provisioners: Option<seq<Provisioner>>,
    template: Option<ASN1DN>,
    backdate: Option<int>)

  /** init: fill each missing field of the authority configuration. */
  function InitAuth(a: AuthView): (r: AuthView)
    ensures r.softCAS == a.softCAS
    ensures r.provisioners.Some? && r.template.Some? && r.backdate.Some?
    ensures a.provisioners.Some? ==> r.provisioners == a.provisioners
    ensures a.provisioners.None? ==> r.provisioners == Some([])
    ensures a.template.Some? ==> r.template == a.template
    ensures a.template.None? ==> r.template == Some(EmptyDN)
    ensures a.backdate.Some? ==> r.backdate == a.backdate
    ensures a.backdate.None? ==> r.backdate == Some(DefaultBackdate)
  {
    AuthView(
      a.softCAS,
      Some(a.provisioners.GetOr([])),
      Some(a.template.GetOr(EmptyDN)),
      Some(a.backdate.GetOr(DefaultBackdate)))
  }

  /** Initialising twice is initialising once. */
  lemma InitAuthIdempotent(a: AuthView)
    ensures InitAuth(InitAuth(a)) == InitAuth(a)
  {
  }

  /** The number of Kubernetes service-account provisioners in ps. */
  function CountK8sSA(ps: seq<Provisioner>): (n: nat)
    ensures n <= |ps|
  {
    if |ps| == 0 then 0
    else CountK8sSA(ps[..|ps| - 1]) + (if ps[|ps| - 1].typ == K8sSA then 1 else 0)
  }

  /** Two distinct positions hold Kubernetes service-account provisioners. */
  predicate HasTwoK8sSA(ps: seq<Provisioner>) {
    exists i, j | 0 <= i < j < |ps| :: ps[i].typ == K8sSA && ps[j].typ == K8sSA
  }

  /** Zero service-account provisioners means none at any position. */
  lemma {:induction false} CountK8sSAZero(ps: seq<Provisioner>)
    ensures CountK8sSA(ps) == 0 <==> (forall i | 0 <= i < |ps| :: ps[i].typ != K8sSA)
  {
    if |ps| > 0 {
      var init := ps[..|ps| - 1];
      CountK8sSAZero(init);
      assert forall i | 0 <= i < |init| :: init[i] == ps[i];
    }
  }

  /** More than one service-account provisioner counted exactly when two positions hold one. */
  lemma {:induction false} CountK8sSAAboveOne(ps: seq<Provisioner>)
    ensures CountK8sSA(ps) > 1 <==> HasTwoK8sSA(ps)
  {
    if |ps| > 0 {
      var init := ps[..|ps| - 1];
      var last := |ps| - 1;
      CountK8sSAAboveOne(init);
      CountK8sSAZero(init);
      assert forall i | 0 <= i < |init| :: init[i] == ps[i];
      if CountK8sSA(ps) > 1 {
        if CountK8sSA(init) > 1 {
          var i, j :| 0 <= i < j < |init| && init[i].typ == K8sSA && init[j].typ == K8sSA;
          assert ps[i].typ == K8sSA && ps[j].typ == K8sSA;
        } else {
          var i :| 0 <= i < |init| && init[i].typ == K8sSA;
          assert ps[i].typ == K8sSA && ps[last].typ == K8sSA;
        }
      }
      if HasTwoK8sSA(ps) {
        var i, j :| 0 <= i < j < |ps| && ps[i].typ == K8sSA && ps[j].typ == K8sSA;
        if j < last {
          assert init[i].typ == K8sSA && init[j].typ == K8sSA;
        } else {
          assert init[i].typ == K8sSA;
        }
      }
    }
  }

  /** The checks AuthConfig.Validate makes once its fields are filled. */
  function AuthCheck(a: AuthView): (r: Option<ConfigError>)
    requires a.provisioners.Some? && a.backdate.Some?
    ensures r == Some(TooManyK8sSA) <==> HasTwoK8sSA(a.provisioners.value)
    ensures (r == Some(NegativeBackdate))
              <==> (!HasTwoK8sSA(a.provisioners.value) && a.backdate.value < 0)
    ensures r.None? <==> (!HasTwoK8sSA(a.provisioners.value) && a.backdate.value >= 0)
  {
    CountK8sSAAboveOne(a.provisioners.value);
    if CountK8sSA(a.provisioners.value) > 1 then Some(TooManyK8sSA)
    else if a.backdate.value < 0 then Some(NegativeBackdate)
    else None
  }

  /** The outcome of AuthConfig.Validate on a possibly missing configuration. */
  function AuthValidation(a: Option<AuthView>): Option<ConfigError> {
    match a
    case None => Some(AuthorityUndefined)
    case Some(v) => AuthCheck(InitAuth(v))
  }

  /** A configuration with no provisioners and no backdate always validates. */
  lemma EmptyAuthValid(softCAS: bool, template: Option<ASN1DN>)
    ensures AuthValidation(Some(AuthView(softCAS, None, template, None))).None?
  {
  }

  /** The authority section of an AuthConfig{} literal: nil options, which stand
      for the software CAS, and nothing else set. */
  const FreshAuth := AuthView(true, None, None, None)

  class AuthConfig {
    /** Whether the registration-authority options select the built-in software CAS. */
    var softCAS: bool
    var provisioners: Option<seq<Provisioner>>
    var template: Option<ASN1DN>
    var backdate: Option<int>

    /** An AuthConfig{} literal: every optional field missing; its nil
        registration-authority options select the software CAS. */
    constructor ()
      ensures View() == FreshAuth
    {
      softCAS := true;
      provisioners := None;
      template := None;
      backdate := None;
    }

    function View(): AuthView
      reads this
    {
      AuthView(softCAS, provisioners, template, backdate)
    }

    /** init: nil provisioners, template and backdate get their defaults. */
    method Init()
      modifies this`provisioners, this`template, this`backdate
      ensures View() == InitAuth(old(View()))
    {
      if provisioners.None? {
        provisioners := Some([]);
      }
      if template.None? {
        template := Some(EmptyDN);
      }
      if backdate.None? {
        backdate := Some(DefaultBackdate);
      }
    }

    /** The number of service-account provisioners, counted as the source's loop does. */
    method CountK8sSAProvisioners() returns (n: nat)
      requires provisioners.Some?
      ensures n == CountK8sSA(provisioners.value)
    {
      var ps := provisioners.value;
      n := 0;
      for i := 0 to |ps|
        invariant n == CountK8sSA(ps[..i])
      {
        assert ps[..i + 1][..i] == ps[..i];
        if ps[i].typ == K8sSA {
          n := n + 1;
        }
      }
      assert ps[..|ps|] == ps;
    }
  }

  /** AuthConfig.Validate: a missing configuration is an error; otherwise it is
      initialised and checked. */
  method ValidateAuthConfig(c: AuthConfig?) returns (err: Option<ConfigError>)
    modifies c
    ensures c == null ==> err == Some(AuthorityUndefined)
    ensures c != null ==> c.View() == InitAuth(old(c.View()))
    ensures c != null ==> err == AuthValidation(Some(old(c.View())))
  {
    if c == null {
      return Some(AuthorityUndefined);
    }
    c.Init();
    var n := c.CountK8sSAProvisioners();
    if n > 1 {
      return Some(TooManyK8sSA);
    }
    if c.backdate.value < 0 {
      return Some(NegativeBackdate);
    }
    return None;
  }

  // ---------------------------------------------------------------------------
  // TLS defaults

  /** The TLS options with an empty cipher-suite list and unset versions taken
      from the defaults; renegotiation is left as it is. */
  function FillTLS(t: TLSOptions, d: TLSOptions): (r: TLSOptions)
    ensures r.renegotiation == t.renegotiation
    ensures r.cipherSuites == (if |t.cipherSuites| == 0 then d.cipherSuites else t.cipherSuites)
    ensures r.maxVersion == (if t.maxVersion == 0.0 then d.maxVersion else t.maxVersion)
    ensures r.minVersion == (if t.minVersion == 0.0 then d.minVersion else t.minVersion)
  {
    t.(cipherSuites := if |t.cipherSuites| == 0 then d.cipherSuites else t.cipherSuites,
       maxVersion := if t.maxVersion == 0.0 then d.maxVersion else t.maxVersion,
       minVersion := if t.minVersion == 0.0 then d.minVersion else t.minVersion)
  }

  /** Filling from complete defaults leaves nothing unset, and filling again changes nothing. */
  lemma FillTLSComplete(t: TLSOptions, d: TLSOptions)
    requires |d.cipherSuites| > 0 && d.minVersion != 0.0 && d.maxVersion != 0.0
    ensures |FillTLS(t, d).cipherSuites| > 0
    ensures FillTLS(t, d).minVersion != 0.0 && FillTLS(t, d).maxVersion != 0.0
    ensures FillTLS(FillTLS(t, d), d) == FillTLS(t, d)
  {
  }

  /** The TLS check of Validate: configured options whose filled minimum exceeds the
      filled maximum are refused; missing options take the defaults unchecked. */
  function TLSCheck(tls: Option<TLSOptions>, d: TLSOptions): Option<ConfigError> {
    if tls.Some? && FillTLS(tls.value, d).minVersion > FillTLS(tls.value, d).maxVersion
    then Some(TLSMinAboveMax)
    else None
  }

  /** The TLS options Validate leaves behind. */
  function ValidatedTLS(tls: Option<TLSOptions>, d: TLSOptions): (r: TLSOptions)
    ensures tls.None? ==> r == d
    ensures tls.Some? && TLSCheck(tls, d).None? ==>
              r == FillTLS(tls.value, d).(renegotiation := tls.value.renegotiation || d.renegotiation)
    ensures TLSCheck(tls, d).Some? ==> r == FillTLS(tls.value, d)
  {
    match tls
    case None => d
    case Some(t) =>
      if TLSCheck(tls, d).Some? then FillTLS(t, d)
      else FillTLS(t, d).(renegotiation := t.renegotiation || d.renegotiation)
  }

  /** Accepted TLS options have a minimum version no higher than the maximum when
      the defaults do. */
  lemma ValidatedTLSOrdered(tls: Option<TLSOptions>, d: TLSOptions)
    requires d.minVersion <= d.maxVersion
    requires TLSCheck(tls, d).None?
    ensures ValidatedTLS(tls, d).minVersion <= ValidatedTLS(tls, d).maxVersion
  {
  }

  // ---------------------------------------------------------------------------
  // Config

  /** Config's fields, as they stand. */
  datatype ConfigView = ConfigView(
    root: seq<string>,
    intermediateCert: string,
    intermediateKey: string,
    address: string,
    dnsNames: Option<seq<string>>,
    tls: Option<TLSOptions>,
    authority: Option<AuthView>,
    commonName: string)

  /** What Validate learns from code outside this file: net.SplitHostPort's verdict,
      the default TLS options, and the KMS, registration-authority, SSH and template
      validators' errors. */
  datatype Checks = Checks(
    splitHostPort: string -> bool,
    defaultTLS: TLSOptions,
    kmsError: Option<string>,
    raError: Option<string>,
    sshError: Option<string>,
    templatesError: Option<string>)

  /** multiString.HasEmpties: no value, or an empty one. */
  predicate HasEmpties(s: seq<string>) {
    |s| == 0 || exists i | 0 <= i < |s| :: s[i] == ""
  }

  /** Init: the configuration with its missing fields given defaults. */
  function InitConfig(v: ConfigView, defaultTLS: TLSOptions): (r: ConfigView)
    ensures r.dnsNames == Some(v.dnsNames.GetOr(DefaultDNSNames))
    ensures r.tls == Some(v.tls.GetOr(defaultTLS))
    ensures r.commonName == (if v.commonName == "" then DefaultCommonName else v.commonName)
    ensures r.authority.Some?
    ensures v.authority.Some? ==> r.authority == Some(InitAuth(v.authority.value))
    ensures v.authority.None? ==> r.authority == Some(InitAuth(FreshAuth))
    ensures r.root == v.root && r.address == v.address
    ensures r.intermediateCert == v.intermediateCert && r.intermediateKey == v.intermediateKey
  {
    v.(dnsNames := Some(v.dnsNames.GetOr(DefaultDNSNames)),
       tls := Some(v.tls.GetOr(defaultTLS)),
       authority := Some(InitAuth(v.authority.GetOr(FreshAuth))),
       commonName := if v.commonName == "" then DefaultCommonName else v.commonName)
  }

  /** Initialising twice is initialising once. */
  lemma InitConfigIdempotent(v: ConfigView, defaultTLS: TLSOptions)
    ensures InitConfig(InitConfig(v, defaultTLS), defaultTLS) == InitConfig(v, defaultTLS)
  {
    InitAuthIdempotent(v.authority.GetOr(FreshAuth));
  }

  /** The structural checks Validate makes before it looks at TLS, in order. */
  function StructureCheck(v: ConfigView, splitHostPort: string -> bool): Option<ConfigError> {
    if v.address == "" then Some(AddressEmpty)
    else if |v.dnsNames.GetOr([])| == 0 then Some(DNSNamesEmpty)
    else if v.authority.None? then Some(AuthorityNil)
    else if v.authority.value.softCAS && HasEmpties(v.root) then Some(RootEmpty)
    else if v.authority.value.softCAS && v.intermediateCert == "" then Some(CrtEmpty)
    else if v.authority.value.softCAS && v.intermediateKey == "" then Some(KeyEmpty)
    else if !splitHostPort(v.address) then Some(InvalidAddress(v.address))
    else None
  }

  /** The errors of the outside validators, in the order Validate consults them. */
  function CollaboratorCheck(ch: Checks): Option<ConfigError> {
    if ch.kmsError.Some? then Some(KMSInvalid(ch.kmsError.value))
    else if ch.raError.Some? then Some(RAInvalid(ch.raError.value))
    else if ch.sshError.Some? then Some(SSHInvalid(ch.sshError.value))
    else if ch.templatesError.Some? then Some(TemplatesInvalid(ch.templatesError.value))
    else None
  }

  /** Validate's verdict on a configuration. */
  function Validation(v: ConfigView, ch: Checks): Option<ConfigError> {
    if StructureCheck(v, ch.splitHostPort).Some? then StructureCheck(v, ch.splitHostPort)
    else if TLSCheck(v.tls, ch.defaultTLS).Some? then TLSCheck(v.tls, ch.defaultTLS)
    else if CollaboratorCheck(ch).Some? then CollaboratorCheck(ch)
    else AuthValidation(v.authority)
  }

  /** The configuration Validate leaves behind: TLS is filled once the structural
      checks pass, the authority initialised once everything else has. */
  function Validated(v: ConfigView, ch: Checks): ConfigView {
    if StructureCheck(v, ch.splitHostPort).Some? then v
    else if TLSCheck(v.tls, ch.defaultTLS).Some? || CollaboratorCheck(ch).Some?
    then v.(tls := Some(ValidatedTLS(v.tls, ch.defaultTLS)))
    else v.(tls := Some(ValidatedTLS(v.tls, ch.defaultTLS)),
            authority := Some(InitAuth(v.authority.value)))
  }

  /** An accepted configuration has an address that splits into host and port, some
      DNS names, an authority section whose backdate is not negative and at most one
      service-account provisioner, and, with the software CAS, all key material. */
  lemma ValidationAccepts(v: ConfigView, ch: Checks)
    requires Validation(v, ch).None?
    ensures v.address != "" && ch.splitHostPort(v.address)
    ensures |v.dnsNames.GetOr([])| > 0
    ensures v.authority.Some?
    ensures v.authority.value.softCAS ==>
              !HasEmpties(v.root) && v.intermediateCert != "" && v.intermediateKey != ""
    ensures ch.kmsError.None? && ch.raError.None? && ch.sshError.None? && ch.templatesError.None?
    ensures var a := Validated(v, ch).authority.value;
            a.backdate.Some? && a.backdate.value >= 0 && a.provisioners.Some?
            && !HasTwoK8sSA(a.provisioners.value)
    ensures var t := Validated(v, ch).tls.value;
            v.tls.Some? ==> t.minVersion <= t.maxVersion
  {
  }

  /** A configuration Init has prepared, with an address that splits, validates as far
      as its key material (demanded by the software CAS, which a missing authority
      section becomes), the outside validators and its authority section allow. */
  lemma InitThenValidate(v: ConfigView, ch: Checks)
    requires v.address != "" && ch.splitHostPort(v.address)
    requires v.dnsNames.None? || |v.dnsNames.value| > 0
    requires ch.defaultTLS.minVersion <= ch.defaultTLS.maxVersion
    requires v.tls.None?
    ensures var soft := v.authority.None? || v.authority.value.softCAS;
            Validation(InitConfig(v, ch.defaultTLS), ch)
              == (if soft && HasEmpties(v.root) then Some(RootEmpty)
                  else if soft && v.intermediateCert == "" then Some(CrtEmpty)
                  else if soft && v.intermediateKey == "" then Some(KeyEmpty)
                  else if CollaboratorCheck(ch).Some? then CollaboratorCheck(ch)
                  else AuthValidation(InitConfig(v, ch.defaultTLS).authority))
  {
  }

  /** With no authority section and no root, Init then Validate stops at the root. */
  lemma InitWithoutRootRefused(v: ConfigView, ch: Checks)
    requires v.address != "" && ch.splitHostPort(v.address)
    requires v.dnsNames.None? || |v.dnsNames.value| > 0
    requires ch.defaultTLS.minVersion <= ch.defaultTLS.maxVersion
    requires v.tls.None? && v.authority.None? && v.root == []
    ensures Validation(InitConfig(v, ch.defaultTLS), ch) == Some(RootEmpty)
  {
    InitThenValidate(v, ch);
  }

  class Config {
    var root: seq<string>
    var intermediateCert: string
    var intermediateKey: string
    var address: string
    var dnsNames: Option<seq<string>>
    var tls: Option<TLSOptions>
    var authorityConfig: AuthConfig?
    var commonName: string

    constructor (root: seq<string>, crt: string, key: string, address: string,
                 dnsNames: Option<seq<string>>, tls: Option<TLSOptions>,
                 authorityConfig: AuthConfig?, commonName: string)
      ensures this.root == root && intermediateCert == crt && intermediateKey == key
      ensures this.address == address && this.dnsNames == dnsNames && this.tls == tls
      ensures this.authorityConfig == authorityConfig && this.commonName == commonName
    {
      this.root := root;
      intermediateCert := crt;
      intermediateKey := key;
      this.address := address;
      this.dnsNames := dnsNames;
      this.tls := tls;
      this.authorityConfig := authorityConfig;
      this.commonName := commonName;
    }

    function View(): ConfigView
      reads this, authorityConfig
    {
      ConfigView(root, intermediateCert, intermediateKey, address, dnsNames, tls,
                 if authorityConfig == null then None else Some(authorityConfig.View()),
                 commonName)
    }

    /** Init: fill in the defaults, creating an authority section when there is none. */
    method Init(defaultTLS: TLSOptions)
      modifies this, authorityConfig
      ensures View() == InitConfig(old(View()), defaultTLS)
      ensures old(authorityConfig) != null ==> authorityConfig == old(authorityConfig)
      ensures old(authorityConfig) == null ==> fresh(authorityConfig)
    {
      if dnsNames.None? {
        dnsNames := Some(DefaultDNSNames);
      }
      if tls.None? {
        tls := Some(defaultTLS);
      }
      if authorityConfig == null {
        authorityConfig := new AuthConfig();
      }
      if commonName == "" {
        commonName := DefaultCommonName;
      }
      authorityConfig.Init();
    }

    /** Validate: check the configuration, filling TLS and the authority section
        on the way as far as the checks get. */
    method Validate(ch: Checks) returns (err: Option<ConfigError>)
      modifies this`tls, authorityConfig
      ensures authorityConfig == old(authorityConfig)
      ensures err == Validation(old(View()), ch)
      ensures View() == Validated(old(View()), ch)
    {
      var v := View();
      if address == "" {
        return Some(AddressEmpty);
      }
      if |dnsNames.GetOr([])| == 0 {
        return Some(DNSNamesEmpty);
      }
      if authorityConfig == null {
        return Some(AuthorityNil);
      }
      if authorityConfig.softCAS {
        if HasEmpties(root) {
          return Some(RootEmpty);
        }
        if intermediateCert == "" {
          return Some(CrtEmpty);
        }
        if intermediateKey == "" {
          return Some(KeyEmpty);
        }
      }
      if !ch.splitHostPort(address) {
        return Some(InvalidAddress(address));
      }
      assert StructureCheck(v, ch.splitHostPort).None?;
      var d := ch.defaultTLS;
      if tls.None? {
        tls := Some(d);
      } else {
        var t := FillTLS(tls.value, d);
        tls := Some(t);
        if t.minVersion > t.maxVersion {
          return Some(TLSMinAboveMax);
        }
        tls := Some(t.(renegotiation := t.renegotiation || d.renegotiation));
      }
      assert tls == Some(ValidatedTLS(v.tls, d));
      if ch.kmsError.Some? {
        return Some(KMSInvalid(ch.kmsError.value));
      }
      if ch.raError.Some? {
        return Some(RAInvalid(ch.raError.value));
      }
      if ch.sshError.Some? {
        return Some(SSHInvalid(ch.sshError.value));
      }
      if ch.templatesError.Some? {
        return Some(TemplatesInvalid(ch.templatesError.value));
      }
      err := ValidateAuthConfig(authorityConfig);
    }

    /** The configured DNS names; a missing list has none. */
    function Names(): seq<string>
      reads this
    {
      dnsNames.GetOr([])
    }

    /** GetAudiences: the audiences each kind of token is accepted for. */
    method GetAudiences(parseIP: string -> Option<IP>) returns (a: Audiences)
      ensures a == AudiencesFor(Hosts(Names(), parseIP))
    {
      var hs := Hosts(Names(), parseIP);
      a := Audiences([LegacyAuthority], [], [LegacyAuthority], [], [], [], []);
      for i := 0 to |hs|
        invariant a == AudiencesFor(hs[..i])
      {
        AudiencesForSnoc(hs, i);
        var h := hs[i];
        a := Audiences(
          a.sign + Urls(h, SignPaths),
          a.renew + Urls(h, RenewPaths),
          a.revoke + Urls(h, RevokePaths),
          a.sshSign + Urls(h, SSHSignPaths),
          a.sshRevoke + Urls(h, SSHRevokePaths),
          a.sshRenew + Urls(h, SSHRenewPaths),
          a.sshRekey + Urls(h, SSHRekeyPaths));
      }
      assert hs[..|hs|] == hs;
    }

    /** Audience: path on every configured host, followed by path itself. */
    method Audience(path: string, parseIP: string -> Option<IP>) returns (r: seq<string>)
      ensures |r| == |Names()| + 1
      ensures forall i | 0 <= i < |Names()| ::
                r[i] == "https://" + ToHostname(Names()[i], parseIP) + path
      ensures r[|Names()|] == path
    {
      var names := Names();
      var out := new string[|names| + 1];
      for i := 0 to |names|
        invariant forall k | 0 <= k < i :: out[k] == "https://" + ToHostname(names[k], parseIP) + path
      {
        out[i] := "https://" + ToHostname(names[i], parseIP) + path;
      }
      out[|names|] := path;
      r := out[..];
    }
  }

  // ---------------------------------------------------------------------------
  // Audiences

  /** What net.ParseIP says of a parsed address: whether it has a four-byte form. */
  datatype IP = IP(hasIPv4Form: bool)

  /** toHostname: IPv6 literals are bracketed so that a port or path can follow. */
  function ToHostname(name: string, parseIP: string -> Option<IP>): (h: string)
    ensures parseIP(name).Some? && !parseIP(name).value.hasIPv4Form ==> h == "[" + name + "]"
    ensures parseIP(name).None? || parseIP(name).value.hasIPv4Form ==> h == name
  {
    var ip := parseIP(name);
    if ip.Some? && !ip.value.hasIPv4Form then "[" + name + "]" else name
  }

  /** A host name is bracketed exactly when it is an IPv6-only address. */
  lemma ToHostnameBrackets(name: string, parseIP: string -> Option<IP>)
    requires name == [] || name[0] != '['
    ensures (|ToHostname(name, parseIP)| > 0 && ToHostname(name, parseIP)[0] == '[')
            <==> (parseIP(name).Some? && !parseIP(name).value.hasIPv4Form)
  {
  }

  datatype Audiences = Audiences(
    sign: seq<string>,
    renew: seq<string>,
    revoke: seq<string>,
    sshSign: seq<string>,
    sshRevoke: seq<string>,
    sshRenew: seq<string>,
    sshRekey: seq<string>)

  const SignPaths: seq<string> := ["/1.0/sign", "/sign", "/1.0/ssh/sign", "/ssh/sign"]
  const RenewPaths: seq<string> := ["/1.0/renew", "/renew"]
  const RevokePaths: seq<string> := ["/1.0/revoke", "/revoke"]
  const SSHSignPaths: seq<string> := ["/1.0/ssh/sign", "/ssh/sign", "/1.0/sign", "/sign"]
  const SSHRevokePaths: seq<string> := ["/1.0/ssh/revoke", "/ssh/revoke"]
  const SSHRenewPaths: seq<string> := ["/1.0/ssh/renew", "/ssh/renew"]
  const SSHRekeyPaths: seq<string> := ["/1.0/ssh/rekey", "/ssh/rekey"]

  /** The URLs of the given paths on host h. */
  function Urls(h: string, paths: seq<string>): (r: seq<string>)
    ensures |r| == |paths|
    ensures forall j | 0 <= j < |paths| :: r[j] == "https://" + h + paths[j]
  {
    seq(|paths|, j requires 0 <= j < |paths| => "https://" + h + paths[j])
  }

  /** The URLs of the paths on each host in turn. */
  function AllUrls(hs: seq<string>, paths: seq<string>): seq<string> {
    if |hs| == 0 then [] else AllUrls(hs[..|hs| - 1], paths) + Urls(hs[|hs| - 1], paths)
  }

  /** The configured names as host names. */
  function Hosts(names: seq<string>, parseIP: string -> Option<IP>): (hs: seq<string>)
    ensures |hs| == |names|
    ensures forall i | 0 <= i < |names| :: hs[i] == ToHostname(names[i], parseIP)
  {
    seq(|names|, i requires 0 <= i < |names| => ToHostname(names[i], parseIP))
  }

  /** The audiences of a configuration whose hosts are hs. */
  function AudiencesFor(hs: seq<string>): Audiences {
    Audiences(
      [LegacyAuthority] + AllUrls(hs, SignPaths),
      AllUrls(hs, RenewPaths),
      [LegacyAuthority] + AllUrls(hs, RevokePaths),
      AllUrls(hs, SSHSignPaths),
      AllUrls(hs, SSHRevokePaths),
      AllUrls(hs, SSHRenewPaths),
      AllUrls(hs, SSHRekeyPaths))
  }

  lemma AudiencesForSnoc(hs: seq<string>, i: nat)
    requires i < |hs|
    ensures var a := AudiencesFor(hs[..i]);
            var h := hs[i];
            AudiencesFor(hs[..i + 1]) == Audiences(
              a.sign + Urls(h, SignPaths),
              a.renew + Urls(h, RenewPaths),
              a.revoke + Urls(h, RevokePaths),
              a.sshSign + Urls(h, SSHSignPaths),
              a.sshRevoke + Urls(h, SSHRevokePaths),
              a.sshRenew + Urls(h, SSHRenewPaths),
              a.sshRekey + Urls(h, SSHRekeyPaths))
  {
    assert hs[..i + 1][..i] == hs[..i];
  }

  /** Host i's URL for path j sits at position i * |paths| + j. */
  lemma {:induction false} AllUrlsIndex(hs: seq<string>, paths: seq<string>, i: nat, j: nat)
    requires i < |hs| && j < |paths|
    ensures |AllUrls(hs, paths)| == |hs| * |paths|
    ensures i * |paths| + j < |AllUrls(hs, paths)|
    ensures AllUrls(hs, paths)[i * |paths| + j] == "https://" + hs[i] + paths[j]
  {
    var n := |hs| - 1;
    var init := hs[..n];
    AllUrlsLength(init, paths);
    assert |hs| * |paths| == n * |paths| + |paths|;
    if i < n {
      AllUrlsIndex(init, paths, i, j);
      assert init[i] == hs[i];
    } else {
      assert i * |paths| == n * |paths|;
    }
  }

  lemma {:induction false} AllUrlsLength(hs: seq<string>, paths: seq<string>)
    ensures |AllUrls(hs, paths)| == |hs| * |paths|
  {
    if |hs| > 0 {
      AllUrlsLength(hs[..|hs| - 1], paths);
      assert |hs| * |paths| == (|hs| - 1) * |paths| + |paths|;
    }
  }

  /** Per DNS name: four sign and SSH-sign audiences, two of each other kind; sign
      and revoke also keep the legacy audience first. */
  lemma AudienceCounts(hs: seq<string>)
    ensures var a := AudiencesFor(hs);
            |a.sign| == 1 + 4 * |hs| && |a.revoke| == 1 + 2 * |hs|
            && |a.renew| == 2 * |hs| && |a.sshSign| == 4 * |hs|
            && |a.sshRevoke| == 2 * |hs| && |a.sshRenew| == 2 * |hs| && |a.sshRekey| == 2 * |hs|
            && a.sign[0] == LegacyAuthority && a.revoke[0] == LegacyAuthority
  {
    AllUrlsLength(hs, SignPaths);
    AllUrlsLength(hs, RenewPaths);
    AllUrlsLength(hs, RevokePaths);
    AllUrlsLength(hs, SSHSignPaths);
    AllUrlsLength(hs, SSHRevokePaths);
    AllUrlsLength(hs, SSHRenewPaths);
    AllUrlsLength(hs, SSHRekeyPaths);
  }

  /** Every host's entries appear in the sign list: the versioned and plain X.509
      sign URLs and then the SSH ones. */
  lemma SignAudienceOfHost(hs: seq<string>, i: nat)
    requires i < |hs|
    ensures var s := AudiencesFor(hs).sign;
            1 + 4 * i + 3 < |s|
            && s[1 + 4 * i] == "https://" + hs[i] + "/1.0/sign"
            && s[1 + 4 * i + 1] == "https://" + hs[i] + "/sign"
            && s[1 + 4 * i + 2] == "https://" + hs[i] + "/1.0/ssh/sign"
            && s[1 + 4 * i + 3] == "https://" + hs[i] + "/ssh/sign"
  {
    AllUrlsIndex(hs, SignPaths, i, 0);
    AllUrlsIndex(hs, SignPaths, i, 1);
    AllUrlsIndex(hs, SignPaths, i, 2);
    AllUrlsIndex(hs, SignPaths, i, 3);
  }

  /** The renew list holds each host's versioned and plain renew URLs, hosts in order. */
  lemma AudienceMatchesRenew(hs: seq<string>, i: nat)
    requires i < |hs|
    ensures 2 * i + 1 < |AudiencesFor(hs).renew|
    ensures AudiencesFor(hs).renew[2 * i] == "https://" + hs[i] + "/1.0/renew"
    ensures AudiencesFor(hs).renew[2 * i + 1] == "https://" + hs[i] + "/renew"
  {
    AllUrlsIndex(hs, RenewPaths, i, 0);
    AllUrlsIndex(hs, RenewPaths, i, 1);
  }
}
