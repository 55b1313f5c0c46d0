// The X.509 sign options of smallstep's provisioners: the validators that accept
// or reject a certificate request, the modifiers that fix a certificate's
// validity window and common name, and the provisioner extension.
module SmallstepSignOptions {
  import opened Wrappers
  import opened GoStrings
  import opened GoTime

  /** DefaultCertValidity: a day. */
  const DefaultCertValidity: int := 24 * Hour

  // ------------------------------------------------------------- requests

  /** The public key in a request; an RSA key by its modulus size in bytes. */
  datatype PublicKey =
    | RsaKey(size: int)
    | EcdsaKey
    | Ed25519Key
    | OtherKey(typeName: string)

  /**
   * The parts of an x509.CertificateRequest the validators read; IP addresses
   * and URIs are held in their printed form, which is what the validators compare.
   */
  datatype CertificateRequest = CertificateRequest(
    commonName: string,
    dnsNames: seq<string>,
    ipAddresses: seq<string>,
    emailAddresses: seq<string>,
    uris: seq<string>,
    publicKey: PublicKey)

  datatype RequestError =
    | HasDNSNames
    | HasIPAddresses
    | HasURIs
    | NoEmailAddress
    | TooManyEmailAddresses
    | EmptyEmailAddress
    | WrongEmailAddress(gotEmail: string, wantEmail: string)
    | RsaKeyTooShort(bits: int, bytes: int)
    | UnknownKeyType(typeName: string)
    | WrongCommonName(gotName: string)
    | DNSNamesMismatch(got: seq<string>, want: seq<string>)
    | IPAddressesMismatch(got: seq<string>, want: seq<string>)
    | EmailAddressesMismatch(got: seq<string>, want: seq<string>)
    | URIsMismatch(got: seq<string>, want: seq<string>)

  /**
   * emailOnlyIdentity: the request names exactly one e-mail address, the
   * configured one, and no other kind of SAN.
   */
  function EmailOnlyIdentity(e: string, req: CertificateRequest): (r: Option<RequestError>)
    ensures r.None? <==> (req.dnsNames == [] && req.ipAddresses == [] && req.uris == []
      && req.emailAddresses == [e] && e != "")
    ensures req.dnsNames != [] ==> r == Some(HasDNSNames)
    ensures r == Some(NoEmailAddress) <==> (req.dnsNames == [] && req.ipAddresses == [] && req.uris == []
      && req.emailAddresses == [])
  {
    if |req.dnsNames| > 0 then Some(HasDNSNames)
    else if |req.ipAddresses| > 0 then Some(HasIPAddresses)
    else if |req.uris| > 0 then Some(HasURIs)
    else if |req.emailAddresses| == 0 then Some(NoEmailAddress)
    else if |req.emailAddresses| > 1 then Some(TooManyEmailAddresses)
    else if req.emailAddresses[0] == "" then Some(EmptyEmailAddress)
    else if req.emailAddresses[0] != e then Some(WrongEmailAddress(req.emailAddresses[0], e))
    else None
  }

  /** Go's integer division, which truncates toward zero. */
  function Quo(a: int, b: int): (q: int)
    requires b != 0
    ensures a >= 0 && b > 0 ==> q == a / b
    ensures a < 0 && b > 0 ==> q == -((-a) / b)
  {
    var n := (if a < 0 then -a else a) / (if b < 0 then -b else b);
    if (a < 0) == (b < 0) then n else -n
  }

  /** publicKeyMinimumLengthValidator: an RSA key of at least length/8 bytes, or an EC or Ed25519 key. */
  function MinimumLengthKeyValid(length: int, k: PublicKey): (r: Option<RequestError>)
    ensures r.None? <==> (k.RsaKey? && k.size >= Quo(length, 8)) || k.EcdsaKey? || k.Ed25519Key?
    ensures k.OtherKey? ==> r == Some(UnknownKeyType(k.typeName))
  {
    match k
    case RsaKey(size) => if size < Quo(length, 8) then Some(RsaKeyTooShort(length, Quo(length, 8))) else None
    case EcdsaKey => None
    case Ed25519Key => None
    case OtherKey(name) => Some(UnknownKeyType(name))
  }

  /** defaultPublicKeyValidator: an RSA key of at least 256 bytes, or an EC or Ed25519 key. */
  function DefaultPublicKeyValid(k: PublicKey): (r: Option<RequestError>)
    ensures r.None? <==> (k.RsaKey? && k.size >= 256) || k.EcdsaKey? || k.Ed25519Key?
  {
    match k
    case RsaKey(size) => if size < 256 then Some(RsaKeyTooShort(2048, 256)) else None
    case EcdsaKey => None
    case Ed25519Key => None
    case OtherKey(name) => Some(UnknownKeyType(name))
  }

  /** The default key validator is the minimum-length one at 2048 bits, errors included. */
  lemma DefaultIsMinimum2048(k: PublicKey)
    ensures DefaultPublicKeyValid(k) == MinimumLengthKeyValid(2048, k)
  {
  }

  /** commonNameValidator: an empty common name, or the configured one. */
  function CommonNameValid(v: string, req: CertificateRequest): (r: Option<RequestError>)
    ensures r.None? <==> req.commonName == "" || req.commonName == v
    ensures r.Some? ==> r.value == WrongCommonName(req.commonName)
  {
    if req.commonName == "" then None
    else if req.commonName != v then Some(WrongCommonName(req.commonName))
    else None
  }

  /** commonNameSliceValidator: an empty common name, or one of the configured names. */
  function CommonNameSliceValid(v: seq<string>, req: CertificateRequest): (r: Option<RequestError>)
    ensures r.None? <==> req.commonName == "" || req.commonName in v
  {
    if req.commonName == "" then None
    else if FirstMatch(v, req.commonName) then None
    else Some(WrongCommonName(req.commonName))
  }

  /** The validator's loop over the configured names, looking for cn. */
  function FirstMatch(v: seq<string>, cn: string): (found: bool)
    ensures found <==> cn in v
    decreases |v|
  {
    if v == [] then false else if v[0] == cn then true else FirstMatch(v[1..], cn)
  }

  /** The single-valued validator is the slice validator over one name. */
  lemma CommonNameOne(v: string, req: CertificateRequest)
    ensures CommonNameValid(v, req) == CommonNameSliceValid([v], req)
  {
  }

  // ------------------------------------------------------------- SANs

  /** The want/got map the SAN validators build: every listed value marked true. */
  function MarkAll(xs: seq<string>): (m: set<string>)
    ensures forall x :: x in m <==> x in xs
    decreases |xs|
  {
    if xs == [] then {} else MarkAll(xs[..|xs| - 1]) + {xs[|xs| - 1]}
  }

  /** What each SAN validator accepts: nothing requested, or the same set of values as configured. */
  predicate SameValues(configured: seq<string>, requested: seq<string>) {
    requested == [] || ((forall x | x in requested :: x in configured) && (forall x | x in configured :: x in requested))
  }

  /** The shared shape of dnsNamesValidator, ipAddressesValidator, emailAddressesValidator and urisValidator. */
  function SansValid(configured: seq<string>, requested: seq<string>, mismatch: RequestError): (r: Option<RequestError>)
    ensures r.None? <==> SameValues(configured, requested)
    ensures r.Some? ==> r.value == mismatch
  {
    if |requested| == 0 then None
    else if MarkAll(configured) != MarkAll(requested) then
      assert exists x :: (x in requested) != (x in configured);
      Some(mismatch)
    else None
  }

  function DNSNamesValid(v: seq<string>, req: CertificateRequest): Option<RequestError> {
    SansValid(v, req.dnsNames, DNSNamesMismatch(req.dnsNames, v))
  }

  function IPAddressesValid(v: seq<string>, req: CertificateRequest): Option<RequestError> {
    SansValid(v, req.ipAddresses, IPAddressesMismatch(req.ipAddresses, v))
  }

  function EmailAddressesValid(v: seq<string>, req: CertificateRequest): Option<RequestError> {
    SansValid(v, req.emailAddresses, EmailAddressesMismatch(req.emailAddresses, v))
  }

  function URIsValid(v: seq<string>, req: CertificateRequest): Option<RequestError> {
    SansValid(v, req.uris, URIsMismatch(req.uris, v))
  }

  /** The configured SANs split by kind; the splitting (x509util.SplitSANs) is an input. */
  datatype SplitSANs = SplitSANs(dnsNames: seq<string>, ips: seq<string>, emails: seq<string>, uris: seq<string>)

  /**
   * defaultSANsValidator: every kind of SAN matches its configured set; the
   * kinds are checked DNS names, e-mail addresses, IP addresses, URIs, and the
   * first mismatch is the error.
   */
  function DefaultSANsValid(split: SplitSANs, req: CertificateRequest): (r: Option<RequestError>)
    ensures r.None? <==> (SameValues(split.dnsNames, req.dnsNames) && SameValues(split.emails, req.emailAddresses)
      && SameValues(split.ips, req.ipAddresses) && SameValues(split.uris, req.uris))
    ensures !SameValues(split.dnsNames, req.dnsNames) ==> r == Some(DNSNamesMismatch(req.dnsNames, split.dnsNames))
    ensures SameValues(split.dnsNames, req.dnsNames) && !SameValues(split.emails, req.emailAddresses) ==>
      r == Some(EmailAddressesMismatch(req.emailAddresses, split.emails))
    ensures (SameValues(split.dnsNames, req.dnsNames) && SameValues(split.emails, req.emailAddresses)
      && !SameValues(split.ips, req.ipAddresses)) ==> r == Some(IPAddressesMismatch(req.ipAddresses, split.ips))
    ensures (SameValues(split.dnsNames, req.dnsNames) && SameValues(split.emails, req.emailAddresses)
      && SameValues(split.ips, req.ipAddresses) && !SameValues(split.uris, req.uris)) ==>
      r == Some(URIsMismatch(req.uris, split.uris))
  {
    var dns := DNSNamesValid(split.dnsNames, req);
    if dns.Some? then dns
    else
      var emails := EmailAddressesValid(split.emails, req);
      if emails.Some? then emails
      else
        var ips := IPAddressesValid(split.ips, req);
        if ips.Some? then ips
        else URIsValid(split.uris, req)
  }

  /** A request carrying exactly the configured SANs, in any order and with repeats, passes. */
  lemma {:induction false} DefaultSANsAcceptConfigured(split: SplitSANs, req: CertificateRequest)
    requires multiset(req.dnsNames) == multiset(split.dnsNames)
    requires multiset(req.emailAddresses) == multiset(split.emails)
    requires multiset(req.ipAddresses) == multiset(split.ips)
    requires multiset(req.uris) == multiset(split.uris)
    ensures DefaultSANsValid(split, req).None?
  {
    SameValuesOfPermutation(split.dnsNames, req.dnsNames);
    SameValuesOfPermutation(split.emails, req.emailAddresses);
    SameValuesOfPermutation(split.ips, req.ipAddresses);
    SameValuesOfPermutation(split.uris, req.uris);
  }

  lemma SameValuesOfPermutation(configured: seq<string>, requested: seq<string>)
    requires multiset(requested) == multiset(configured)
    ensures SameValues(configured, requested)
  {
    forall x
      ensures x in requested <==> x in configured
    {
      assert x in requested <==> x in multiset(requested);
      assert x in configured <==> x in multiset(configured);
    }
  }

  // ------------------------------------------------------------- validity

  /**
   * A TimeDuration: an absolute time, or (when that is the zero time) a
   * duration relative to a base; a zero duration means "not set".
   */
  datatype TimeDuration = TimeDuration(t: Time, d: int) {
    /** The instant this TimeDuration names relative to base; the zero time when unset. */
    function RelativeTime(base: Time): Time {
      if !IsZero(t) then t else if d == 0 then ZeroTime else base + d
    }
  }

  /** SignOptions: the requested window, the request's template data, and the CA's backdate. */
  datatype SignOptions = SignOptions(notAfter: TimeDuration, notBefore: TimeDuration, templateData: seq<byte>, backdate: int)

  /** The start a request asks for: its NotBefore relative to now, or now itself when unset. */
  function RequestedStart(so: SignOptions, now: Time): Time {
    var t := so.notBefore.RelativeTime(now);
    if IsZero(t) then now else t
  }

  /** The backdate applied to the start: the CA's backdate, but only when the request left NotBefore unset. */
  function AppliedBackdate(so: SignOptions, now: Time): int {
    if IsZero(so.notBefore.RelativeTime(now)) then so.backdate else 0
  }

  /** The (NotBefore, NotAfter) profileDefaultDuration(v) gives a certificate. */
  function DefaultWindow(v: int, so: SignOptions, now: Time): (Time, Time) {
    var start := RequestedStart(so, now);
    var end := so.notAfter.RelativeTime(start);
    (start - AppliedBackdate(so, now),
     if IsZero(end) then start + (if v != 0 then v else DefaultCertValidity) else end)
  }

  /** A requested NotBefore is kept as it is; an unset one becomes now minus the backdate. */
  lemma DefaultWindowStart(v: int, so: SignOptions, now: Time)
    ensures IsZero(so.notBefore.RelativeTime(now)) ==> DefaultWindow(v, so, now).0 == now - so.backdate
    ensures !IsZero(so.notBefore.RelativeTime(now)) ==> DefaultWindow(v, so, now).0 == so.notBefore.RelativeTime(now)
  {
  }

  /**
   * With no NotAfter requested the certificate lasts v (a day when v is 0),
   * counted from the start before backdating.
   */
  lemma DefaultWindowLength(v: int, so: SignOptions, now: Time)
    requires so.notAfter.t == ZeroTime && so.notAfter.d == 0
    ensures var w := DefaultWindow(v, so, now);
      w.1 - w.0 == (if v != 0 then v else DefaultCertValidity) + AppliedBackdate(so, now)
  {
  }

  /** A requested NotAfter is kept, a relative one counted from the unbackdated start. */
  lemma DefaultWindowEnd(v: int, so: SignOptions, now: Time)
    requires !IsZero(so.notAfter.RelativeTime(RequestedStart(so, now)))
    ensures DefaultWindow(v, so, now).1 == so.notAfter.RelativeTime(RequestedStart(so, now))
  {
  }

  /** profileLimitDuration: a default duration and the provisioning credential's own window. */
  datatype ProfileLimitDuration = ProfileLimitDuration(def: int, notBefore: Time, notAfter: Time)

  datatype ModifyError =
    | BeforeCredentialWindow(notBefore: Time, windowStart: Time)
    | AfterCredentialExpiry(notAfter: Time, expiry: Time)
    | NoDNSNamesForCommonName
    | ExtensionMarshalFailed(msg: string)

  /** The window profileLimitDuration gives a certificate, or why it refuses the request. */
  function LimitWindow(v: ProfileLimitDuration, so: SignOptions, now: Time): Result<(Time, Time), ModifyError> {
    var start := RequestedStart(so, now);
    if start < v.notBefore then Err(BeforeCredentialWindow(start, v.notBefore))
    else
      var end := so.notAfter.RelativeTime(start);
      if end > v.notAfter then Err(AfterCredentialExpiry(end, v.notAfter))
      else
        var end' := if IsZero(end) then (if start + v.def > v.notAfter then v.notAfter else start + v.def) else end;
        Ok((start - AppliedBackdate(so, now), end'))
  }

  /**
   * The limit refuses exactly a start before the credential's window or a
   * requested end after the credential expires; an accepted certificate
   * never outlives the credential and starts no earlier than its window
   * (before backdating).
   */
  lemma LimitWindowSound(v: ProfileLimitDuration, so: SignOptions, now: Time)
    ensures var start := RequestedStart(so, now);
      LimitWindow(v, so, now).Err? <==> (start < v.notBefore || so.notAfter.RelativeTime(start) > v.notAfter)
    ensures var r := LimitWindow(v, so, now);
      r.Ok? ==> r.value.1 <= v.notAfter && r.value.0 + AppliedBackdate(so, now) >= v.notBefore
  {
  }

  /** With no NotAfter requested, the end is the default duration from the start, capped at the credential's expiry. */
  lemma LimitWindowDefaultEnd(v: ProfileLimitDuration, so: SignOptions, now: Time)
    requires so.notAfter.t == ZeroTime && so.notAfter.d == 0
    requires LimitWindow(v, so, now).Ok?
    ensures var start := RequestedStart(so, now);
      LimitWindow(v, so, now).value.1 == if start + v.def <= v.notAfter then start + v.def else v.notAfter
  {
  }

  /** The limit gives the same start as the plain default profile. */
  lemma LimitWindowStart(v: ProfileLimitDuration, so: SignOptions, now: Time)
    requires LimitWindow(v, so, now).Ok?
    ensures LimitWindow(v, so, now).value.0 == DefaultWindow(v.def, so, now).0
  {
  }

  datatype ValidityError =
    | NotAfterInPast(notAfter: Time)
    | NotAfterBeforeNotBefore(notAfter: Time, notBefore: Time)
    | DurationTooShort(d: int, min: int)
    | DurationTooLong(d: int, max: int)

  /** validityValidator's bounds on a certificate's duration. */
  datatype ValidityValidator = ValidityValidator(min: int, max: int)

  /** The duration validityValidator measures: the whole-second window, saturated to a Duration. */
  function TruncatedDuration(notBefore: Time, notAfter: Time): int {
    Sub(TruncateSecond(notAfter), TruncateSecond(notBefore))
  }

  /**
   * validityValidator: on whole seconds, the certificate ends no earlier than
   * now and no earlier than it starts, and lasts between min and max plus the
   * backdate (a Duration sum, which wraps).
   */
  function ValidityValid(v: ValidityValidator, notBefore: Time, notAfter: Time, so: SignOptions, now: Time): (r: Option<ValidityError>)
    requires InInt64(v.max) && InInt64(so.backdate)
    ensures var na, nb := TruncateSecond(notAfter), TruncateSecond(notBefore);
      var d := TruncatedDuration(notBefore, notAfter);
      r.None? <==> (na >= TruncateSecond(now) && na >= nb && v.min <= d <= AddInt64(v.max, so.backdate))
    ensures TruncateSecond(notAfter) < TruncateSecond(now) ==> r == Some(NotAfterInPast(TruncateSecond(notAfter)))
  {
    var na, nb, n := TruncateSecond(notAfter), TruncateSecond(notBefore), TruncateSecond(now);
    var d := Sub(na, nb);
    if na < n then Some(NotAfterInPast(na))
    else if na < nb then Some(NotAfterBeforeNotBefore(na, nb))
    else if d < v.min then Some(DurationTooShort(d, v.min))
    else if d > AddInt64(v.max, so.backdate) then Some(DurationTooLong(d, AddInt64(v.max, so.backdate)))
    else None
  }

  /**
   * A certificate the default profile times with a whole-second duration
   * between min and max, for a request that sets neither end, passes the
   * validity validator.
   */
  lemma {:induction false} DefaultWindowIsValid(v: int, min: int, max: int, so: SignOptions, now: Time)
    requires so.notBefore.t == ZeroTime && so.notBefore.d == 0
    requires so.notAfter.t == ZeroTime && so.notAfter.d == 0
    requires 0 < v && min <= v <= max && v % Second == 0
    requires 0 <= so.backdate && so.backdate % Second == 0
    requires InInt64(max + so.backdate) && InInt64(v + so.backdate) && 0 <= max
    ensures var w := DefaultWindow(v, so, now);
      ValidityValid(ValidityValidator(min, max), w.0, w.1, so, now).None?
  {
    var w := DefaultWindow(v, so, now);
    assert w == (now - so.backdate, now + v);
    TruncateShift(now, -(so.backdate / Second));
    TruncateShift(now, v / Second);
    assert TruncateSecond(w.0) == TruncateSecond(now) - so.backdate;
    assert TruncateSecond(w.1) == TruncateSecond(now) + v;
    assert TruncatedDuration(w.0, w.1) == v + so.backdate;
  }

  // ------------------------------------------------------------- modifiers

  /** An extension of the certificate: its object identifier, criticality and DER value. */
  datatype Extension = Extension(id: seq<int>, critical: bool, value: seq<byte>)

  /** The fields of x509.Certificate the modifiers read or change. */
  class Certificate {
    var commonName: string
    var dnsNames: seq<string>
    var notBefore: Time
    var notAfter: Time
    var extraExtensions: seq<Extension>

    constructor (commonName: string, dnsNames: seq<string>, extraExtensions: seq<Extension>)
      ensures this.commonName == commonName && this.dnsNames == dnsNames
      ensures this.notBefore == ZeroTime && this.notAfter == ZeroTime
      ensures this.extraExtensions == extraExtensions
    {
      this.commonName := commonName;
      this.dnsNames := dnsNames;
      this.notBefore := ZeroTime;
      this.notAfter := ZeroTime;
      this.extraExtensions := extraExtensions;
    }
  }

  /** profileDefaultDuration.Modify: sets the validity window; it never fails. */
  method DefaultDurationModify(v: int, cert: Certificate, so: SignOptions, now: Time)
    modifies cert`notBefore, cert`notAfter
    ensures (cert.notBefore, cert.notAfter) == DefaultWindow(v, so, now)
  {
    var backdate := 0;
    var notBefore := so.notBefore.RelativeTime(now);
    if IsZero(notBefore) {
      notBefore := now;
      backdate := -1 * so.backdate;
    }
    var notAfter := so.notAfter.RelativeTime(notBefore);
    if IsZero(notAfter) {
      if v != 0 {
        notAfter := notBefore + v;
      } else {
        notAfter := notBefore + DefaultCertValidity;
      }
    }
    cert.notBefore := notBefore + backdate;
    cert.notAfter := notAfter;
  }

  /** profileLimitDuration.Modify: sets the limited window, or leaves the certificate alone and fails. */
  method LimitDurationModify(v: ProfileLimitDuration, cert: Certificate, so: SignOptions, now: Time) returns (err: Option<ModifyError>)
    modifies cert`notBefore, cert`notAfter
    ensures match LimitWindow(v, so, now)
      case Ok(w) => err.None? && (cert.notBefore, cert.notAfter) == w
      case Err(e) => err == Some(e) && cert.notBefore == old(cert.notBefore) && cert.notAfter == old(cert.notAfter)
  {
    var backdate := 0;
    var notBefore := so.notBefore.RelativeTime(now);
    if IsZero(notBefore) {
      notBefore := now;
      backdate := -1 * so.backdate;
    }
    if notBefore < v.notBefore {
      return Some(BeforeCredentialWindow(notBefore, v.notBefore));
    }
    var notAfter := so.notAfter.RelativeTime(notBefore);
    if notAfter > v.notAfter {
      return Some(AfterCredentialExpiry(notAfter, v.notAfter));
    }
    if IsZero(notAfter) {
      var t := notBefore + v.def;
      if t > v.notAfter {
        notAfter := v.notAfter;
      } else {
        notAfter := t;
      }
    }
    cert.notBefore := notBefore + backdate;
    cert.notAfter := notAfter;
    err := None;
  }

  /** The common name forceCNOption leaves: unchanged unless forcing an empty one, which takes the first DNS name. */
  function ForcedCommonName(force: bool, cn: string, dnsNames: seq<string>): Result<string, ModifyError> {
    if !force || cn != "" then Ok(cn)
    else if |dnsNames| > 0 then Ok(dnsNames[0])
    else Err(NoDNSNamesForCommonName)
  }

  /**
   * Forcing fails only for an empty common name with no DNS name to take; the
   * name it leaves is the old one or a DNS name of the certificate, and
   * forcing twice is forcing once.
   */
  lemma ForcedCommonNameSound(force: bool, cn: string, dnsNames: seq<string>)
    ensures ForcedCommonName(force, cn, dnsNames).Err? <==> (force && cn == "" && dnsNames == [])
    ensures var r := ForcedCommonName(force, cn, dnsNames);
      r.Ok? ==> (r.value == cn || r.value in dnsNames) && ForcedCommonName(force, r.value, dnsNames) == r
    ensures !force ==> ForcedCommonName(force, cn, dnsNames) == Ok(cn)
  {
  }

  /** forceCNOption.Modify. */
  method ForceCNModify(force: bool, cert: Certificate) returns (err: Option<ModifyError>)
    modifies cert`commonName
    ensures match ForcedCommonName(force, old(cert.commonName), cert.dnsNames)
      case Ok(cn) => err.None? && cert.commonName == cn
      case Err(e) => err == Some(e) && cert.commonName == old(cert.commonName)
  {
    if !force {
      return None;
    }
    if cert.commonName == "" {
      if |cert.dnsNames| > 0 {
        cert.commonName := cert.dnsNames[0];
      } else {
        return Some(NoDNSNamesForCommonName);
      }
    }
    return None;
  }

  /** The step provisioner OIDs: 1.3.6.1.4.1.37476.9000.64 and its first child. */
  const StepOIDRoot: seq<int> := [1, 3, 6, 1, 4, 1, 37476, 9000, 64]
  const StepOIDProvisioner: seq<int> := StepOIDRoot + [1]

  /** The provisioner extension's contents, before ASN.1 encoding. */
  datatype ProvisionerRecord = ProvisionerRecord(typ: int, name: seq<byte>, credentialID: seq<byte>, keyValuePairs: seq<string>)

  datatype ProvisionerExtensionOption = ProvisionerExtensionOption(typ: int, name: string, credentialID: string, keyValuePairs: seq<string>)

  /** The record an option encodes: its name and credential ID as UTF-8 bytes. */
  function RecordOf(o: ProvisionerExtensionOption): ProvisionerRecord {
    ProvisionerRecord(o.typ, Utf8(o.name), Utf8(o.credentialID), o.keyValuePairs)
  }

  /** createProvisionerExtension, with the ASN.1 encoder as an input. */
  function CreateProvisionerExtension(o: ProvisionerExtensionOption, marshal: ProvisionerRecord -> Result<seq<byte>, string>): (r: Result<Extension, ModifyError>)
    ensures r.Ok? ==> r.value.id == StepOIDProvisioner && !r.value.critical
  {
    match marshal(RecordOf(o))
    case Err(msg) => Err(ExtensionMarshalFailed(msg))
    case Ok(b) => Ok(Extension(StepOIDProvisioner, false, b))
  }

  /** provisionerExtensionOption.Modify: the extension goes before every extension the certificate had. */
  method ProvisionerExtensionModify(o: ProvisionerExtensionOption, cert: Certificate, marshal: ProvisionerRecord -> Result<seq<byte>, string>)
    returns (err: Option<ModifyError>)
    modifies cert`extraExtensions
    ensures match CreateProvisionerExtension(o, marshal)
      case Ok(ext) => err.None? && cert.extraExtensions == [ext] + old(cert.extraExtensions)
      case Err(e) => err == Some(e) && cert.extraExtensions == old(cert.extraExtensions)
  {
    var ext := CreateProvisionerExtension(o, marshal);
    match ext
    case Err(e) =>
      return Some(e);
    case Ok(x) =>
      cert.extraExtensions := [x] + cert.extraExtensions;
      return None;
  }

  /** The first extension with the given identifier, the one signing keeps. */
  function FirstExtension(exts: seq<Extension>, id: seq<int>): (r: Option<Extension>)
    ensures r.Some? ==> r.value in exts && r.value.id == id
    ensures r.None? <==> forall e | e in exts :: e.id != id
    decreases |exts|
  {
    if exts == [] then None else if exts[0].id == id then Some(exts[0]) else FirstExtension(exts[1..], id)
  }

  /**
   * Prepending makes the provisioner's own extension the one kept, whatever
   * provisioner extensions the request smuggled in; appending would have
   * kept the first smuggled one instead.
   */
  lemma {:induction false} PrependedExtensionWins(ext: Extension, exts: seq<Extension>)
    requires ext.id == StepOIDProvisioner
    ensures FirstExtension([ext] + exts, StepOIDProvisioner) == Some(ext)
    ensures FirstExtension(exts, StepOIDProvisioner).Some? ==>
      FirstExtension(exts + [ext], StepOIDProvisioner) == FirstExtension(exts, StepOIDProvisioner)
  {
    if FirstExtension(exts, StepOIDProvisioner).Some? {
      FirstExtensionAppend(exts, [ext], StepOIDProvisioner);
    }
  }

  lemma {:induction false} FirstExtensionAppend(a: seq<Extension>, b: seq<Extension>, id: seq<int>)
    requires FirstExtension(a, id).Some?
    ensures FirstExtension(a + b, id) == FirstExtension(a, id)
    decreases |a|
  {
    if a[0].id != id {
      assert (a + b)[1..] == a[1..] + b;
      FirstExtensionAppend(a[1..], b, id);
    }
  }
}
