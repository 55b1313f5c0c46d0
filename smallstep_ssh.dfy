// The SSH side of smallstep's certificate authority: the client configuration
// and bastion lookups, how SignSSH sorts the provisioner's sign options and in
// which order it runs them, the re-signing window of RenewSSH and RekeySSH, and
// the add-user certificate.
module SmallstepSSH {
  import opened Wrappers
  import opened GoStrings
  import opened GoTime

  /** The principal that runs the add-user command unless configured otherwise. */
  const SSHAddUserPrincipal: string := "provisioner"

  /** The add-user command unless configured otherwise; "<principal>" stands for the new user. */
  const SSHAddUserCommand: string := "sudo useradd -m " + "<principal>" + "; nc -q0 localhost 22"

  /** ssh.UserCert and ssh.HostCert. */
  const UserCert: int := 1
  const HostCert: int := 2

  const Uint64Modulus: int := 0x1_0000_0000_0000_0000

  /** The HTTP status an authority error carries. */
  datatype Status = BadRequest | Forbidden | NotFound | NotImplemented | InternalServer

  datatype SSHError =
    | SSHNotConfigured
    | SSHTemplatesNotConfigured
    | InvalidConfigType(typ: string)
    | TemplateLoadFailed(msg: string)
    | MissingRequiredData(msg: string)
    | TemplateOutputFailed(msg: string)
    | BastionLookupFailed(msg: string)
    | InvalidSignOptions(msg: string)
    | OptionRejected(msg: string)
    | InvalidOptionType(typeName: string)
    | CertificateTemplateFailed(msg: string)
    | CertificateFailed(msg: string)
    | ValidityFailed(msg: string)
    | ModifierRejected(msg: string)
    | SigningNotEnabled(certType: int)
    | UnexpectedCertType(certType: int, status: Status)
    | SigningFailed(msg: string)
    | ValidatorRejected(msg: string)
    | StoreFailed(msg: string)
    | NoValidityPeriod
    | Unauthorized(msg: string)
    | NotValidForAddUser(reason: AddUserRejection)
    | RandomFailed(msg: string)

  datatype AddUserRejection = NotUserCertificate | NoPrincipals | NotOnePrincipal

  /** The status each error is reported with. */
  function StatusOf(e: SSHError): Status {
    match e
    case SSHNotConfigured => NotFound
    case SSHTemplatesNotConfigured => NotFound
    case InvalidConfigType(_) => BadRequest
    case MissingRequiredData(_) => BadRequest
    case InvalidSignOptions(_) => BadRequest
    case CertificateTemplateFailed(_) => BadRequest
    case ValidityFailed(_) => BadRequest
    case NoValidityPeriod => BadRequest
    case OptionRejected(_) => Forbidden
    case ModifierRejected(_) => Forbidden
    case ValidatorRejected(_) => Forbidden
    case NotValidForAddUser(_) => Forbidden
    case SigningNotEnabled(_) => NotImplemented
    case UnexpectedCertType(_, s) => s
    case _ => InternalServer
  }

  // ------------------------------------------------------------- state

  /** A signing key, known by the public key it puts in certificates. */
  datatype Signer = Signer(publicKey: seq<byte>)

  datatype Bastion = Bastion(hostname: string, user: string, port: string, command: string, flags: string)

  /** The SSH section of the authority's configuration. */
  datatype SSHConfig = SSHConfig(bastion: Option<Bastion>, addUserPrincipal: string, addUserCommand: string)

  /** A client-configuration template, known by name; loading and rendering it are inputs. */
  datatype Template = Template(name: string)

  datatype Output = Output(name: string, content: string)

  /** A value of the template data: the request's user data, or a configured value. */
  datatype DataValue = UserData(m: map<string, string>) | Configured(v: string)

  datatype SSHTemplates = SSHTemplates(user: seq<Template>, host: seq<Template>)

  datatype Templates = Templates(ssh: Option<SSHTemplates>, data: map<string, DataValue>)

  /** The injected bastion lookup's answer for a user and host: a bastion and an error, each possibly absent. */
  type BastionLookup = (string, string) -> (Option<Bastion>, Option<string>)

  /** The parts of the Authority the SSH operations read. */
  datatype Authority = Authority(
    userSigner: Option<Signer>,
    hostSigner: Option<Signer>,
    templates: Option<Templates>,
    ssh: Option<SSHConfig>,
    backdate: int,
    bastionFunc: Option<BastionLookup>)

  /** An ssh.Certificate; keys and signatures are opaque bytes. */
  datatype SSHCertificate = SSHCertificate(
    nonce: seq<byte>,
    key: seq<byte>,
    serial: nat,
    certType: int,
    keyId: string,
    validPrincipals: seq<string>,
    validAfter: nat,
    validBefore: nat,
    criticalOptions: map<string, string>,
    extensions: map<string, string>,
    reserved: seq<byte>,
    signatureKey: seq<byte>,
    signature: seq<byte>)

  // ------------------------------------------------------------- GetSSHConfig

  /** The data the templates see: the configured data, with the request's data under "User" when it has any. */
  function MergedData(configured: map<string, DataValue>, data: map<string, string>): map<string, DataValue> {
    if |data| == 0 then configured else map["User" := UserData(data)] + configured
  }

  /**
   * With request data, the merged data has the configured keys plus "User";
   * every configured value is kept, a configured "User" included, and
   * otherwise "User" holds the request's data.
   */
  lemma MergedDataSound(configured: map<string, DataValue>, data: map<string, string>)
    ensures |data| == 0 ==> MergedData(configured, data) == configured
    ensures |data| > 0 ==> MergedData(configured, data).Keys == configured.Keys + {"User"}
    ensures forall k | k in configured :: k in MergedData(configured, data) && MergedData(configured, data)[k] == configured[k]
    ensures |data| > 0 && "User" !in configured ==> MergedData(configured, data)["User"] == UserData(data)
  {
  }

  /** How one template is turned into output: loading, the required-data check, and rendering are inputs. */
  datatype RenderOracles = RenderOracles(
    load: Template -> Option<string>,
    required: (Template, map<string, string>) -> Option<string>,
    output: (Template, map<string, DataValue>) -> Result<Output, string>)

  /** One pass of GetSSHConfig's loop: load, check the required data, render. */
  function RenderOne(o: RenderOracles, data: map<string, string>, merged: map<string, DataValue>): Template -> Result<Output, SSHError> {
    t =>
      if o.load(t).Some? then Err(TemplateLoadFailed(o.load(t).value))
      else if o.required(t, data).Some? then Err(MissingRequiredData(o.required(t, data).value))
      else match o.output(t, merged)
        case Err(msg) => Err(TemplateOutputFailed(msg))
        case Ok(out) => Ok(out)
  }

  /** The templates for a configuration type, or why there are none to render. */
  function ConfigTemplates(a: Authority, typ: string): (r: Result<seq<Template>, SSHError>)
    ensures r.Err? <==> ((a.userSigner.None? && a.hostSigner.None?) || a.templates.None? || (typ != "user" && typ != "host"))
    ensures (a.userSigner.None? && a.hostSigner.None?) ==> r == Err(SSHNotConfigured)
    ensures r.Ok? && a.templates.value.ssh.None? ==> r.value == []
  {
    if a.userSigner.None? && a.hostSigner.None? then Err(SSHNotConfigured)
    else if a.templates.None? then Err(SSHTemplatesNotConfigured)
    else if typ == "user" then Ok(if a.templates.value.ssh.Some? then a.templates.value.ssh.value.user else [])
    else if typ == "host" then Ok(if a.templates.value.ssh.Some? then a.templates.value.ssh.value.host else [])
    else Err(InvalidConfigType(typ))
  }

  /** GetSSHConfig's answer: every template of the type rendered in order, or the first failure. */
  function SSHConfigResult(a: Authority, typ: string, data: map<string, string>, o: RenderOracles): Result<seq<Output>, SSHError> {
    var ts :- ConfigTemplates(a, typ);
    MapResult(ts, RenderOne(o, data, MergedData(a.templates.value.data, data)))
  }

  /** GetSSHConfig. */
  method GetSSHConfig(a: Authority, typ: string, data: map<string, string>, o: RenderOracles) returns (r: Result<seq<Output>, SSHError>)
    ensures r == SSHConfigResult(a, typ, data, o)
  {
    var ts := ConfigTemplates(a, typ);
    if ts.Err? {
      return Err(ts.error);
    }
    var merged := MergedData(a.templates.value.data, data);
    var f := RenderOne(o, data, merged);
    var output: seq<Output> := [];
    for i := 0 to |ts.value|
      invariant MapResult(ts.value[..i], f) == Ok(output)
    {
      var t := ts.value[i];
      var out := f(t);
      if out.Err? {
        assert ts.value[..i + 1][..i] == ts.value[..i];
        MapResultPrefixErr(ts.value, f, i + 1);
        return Err(out.error);
      }
      MapResultSnoc(ts.value, f, i, output, out.value);
      output := output + [out.value];
    }
    assert ts.value[..|ts.value|] == ts.value;
    return Ok(output);
  }

  /** Every template renders, with the merged data, into the output at its own position. */
  lemma SSHConfigRendersEach(a: Authority, typ: string, data: map<string, string>, o: RenderOracles)
    requires SSHConfigResult(a, typ, data, o).Ok?
    ensures var ts := ConfigTemplates(a, typ).value;
      var outs := SSHConfigResult(a, typ, data, o).value;
      |outs| == |ts| && forall i | 0 <= i < |ts| ::
        o.load(ts[i]).None? && o.required(ts[i], data).None?
        && o.output(ts[i], MergedData(a.templates.value.data, data)) == Ok(outs[i])
  {
    var ts := ConfigTemplates(a, typ).value;
    var f := RenderOne(o, data, MergedData(a.templates.value.data, data));
    MapResultOk(ts, f);
    forall i | 0 <= i < |ts|
      ensures o.load(ts[i]).None? && o.required(ts[i], data).None?
        && o.output(ts[i], MergedData(a.templates.value.data, data)) == Ok(SSHConfigResult(a, typ, data, o).value[i])
    {
      assert f(ts[i]).Ok?;
    }
  }

  // ------------------------------------------------------------- GetSSHBastion

  /** GetSSHBastion: the bastion for a user and host, and the error, each possibly absent. */
  function GetSSHBastion(a: Authority, user: string, hostname: string): (Option<Bastion>, Option<SSHError>) {
    if a.bastionFunc.Some? then
      var (bs, err) := a.bastionFunc.value(user, hostname);
      (bs, if err.Some? then Some(BastionLookupFailed(err.value)) else None)
    else if a.ssh.Some? then
      var b := a.ssh.value.bastion;
      if b.Some? && b.value.hostname != "" && !EqualFold(hostname, b.value.hostname) then (b, None)
      else (None, None)
    else (None, Some(SSHNotConfigured))
  }

  /**
   * Without an injected lookup: an unconfigured SSH section is not found; a
   * configured bastion is returned for every host but itself (compared
   * ignoring case), and a bastion host gets none.
   */
  lemma GetSSHBastionSound(a: Authority, user: string, hostname: string)
    requires a.bastionFunc.None?
    ensures a.ssh.None? <==> GetSSHBastion(a, user, hostname).1.Some?
    ensures a.ssh.None? ==> GetSSHBastion(a, user, hostname) == (None, Some(SSHNotConfigured))
    ensures var r := GetSSHBastion(a, user, hostname).0;
      r.Some? <==> (a.ssh.Some? && a.ssh.value.bastion.Some? && a.ssh.value.bastion.value.hostname != ""
        && !EqualFold(hostname, a.ssh.value.bastion.value.hostname))
    ensures var r := GetSSHBastion(a, user, hostname).0;
      r.Some? ==> r == a.ssh.value.bastion && !EqualFold(hostname, r.value.hostname)
  {
  }

  /** An injected lookup decides alone. */
  lemma GetSSHBastionInjected(a: Authority, user: string, hostname: string)
    requires a.bastionFunc.Some?
    ensures GetSSHBastion(a, user, hostname).0 == a.bastionFunc.value(user, hostname).0
    ensures GetSSHBastion(a, user, hostname).1.Some? <==> a.bastionFunc.value(user, hostname).1.Some?
  {
  }

  // ------------------------------------------------------------- SignSSH

  /** SignSSHOptions: the requested type, key ID and principals, and the CA's backdate. */
  datatype SignSSHOptions = SignSSHOptions(certType: string, keyID: string, principals: seq<string>, backdate: int)

  /** An sshutil option that shapes the new certificate; opaque here. */
  datatype TemplateOption = TemplateOption(name: string)

  /**
   * A provisioner sign option by the interface it implements; the id names
   * the option to the oracles that run it.
   */
  datatype SignOption =
    | CertificateOptions(id: nat)
    | CertModifier(id: nat)
    | CertValidator(id: nat)
    | OptionsValidator(id: nat)
    | UnknownOption(typeName: string)

  /** The request SignSSH gives the certificate template. */
  datatype CertificateRequest = CertificateRequest(typ: string, keyID: string, principals: seq<string>, key: seq<byte>)

  /** sshutil.NewCertificate's failures: a template error is the requester's fault. */
  datatype NewCertificateError = TemplateError(msg: string) | OtherError(msg: string)

  /** Whether storing the certificate worked; a database without SSH storage is not an error. */
  datatype StoreOutcome = Stored | StoreNotImplemented | StoreError(msg: string)

  /** Everything SignSSH, RenewSSH and RekeySSH call that is not modelled: the provisioner's options and the signing. */
  datatype SignOracles = SignOracles(
    validate: SignSSHOptions -> Option<string>,
    options: (nat, SignSSHOptions) -> seq<TemplateOption>,
    optionsValid: (nat, SignSSHOptions) -> Option<string>,
    newCertificate: (CertificateRequest, seq<TemplateOption>) -> Result<SSHCertificate, NewCertificateError>,
    modifyValidity: (SSHCertificate, SignSSHOptions) -> Result<SSHCertificate, string>,
    applyModifier: (nat, SSHCertificate, SignSSHOptions) -> Result<SSHCertificate, string>,
    sign: (SSHCertificate, Signer) -> Result<SSHCertificate, string>,
    valid: (nat, SSHCertificate, SignSSHOptions) -> Option<string>,
    store: SSHCertificate -> StoreOutcome)

  /** The sign options sorted by kind, each list in the order given. */
  datatype Classified = Classified(certOptions: seq<TemplateOption>, mods: seq<nat>, validators: seq<nat>)

  /** One pass of SignSSH's option loop; an options validator runs at once. */
  function ClassifyStep(c: Classified, op: SignOption, opts: SignSSHOptions, o: SignOracles): Result<Classified, SSHError> {
    match op
    case CertificateOptions(id) => Ok(c.(certOptions := c.certOptions + o.options(id, opts)))
    case CertModifier(id) => Ok(c.(mods := c.mods + [id]))
    case CertValidator(id) => Ok(c.(validators := c.validators + [id]))
    case OptionsValidator(id) =>
      if o.optionsValid(id, opts).Some? then Err(OptionRejected(o.optionsValid(id, opts).value)) else Ok(c)
    case UnknownOption(name) => Err(InvalidOptionType(name))
  }

  /** SignSSH's option loop over the whole list. */
  function Classify(ops: seq<SignOption>, opts: SignSSHOptions, o: SignOracles): Result<Classified, SSHError>
    decreases |ops|
  {
    if ops == [] then Ok(Classified([], [], []))
    else
      var c :- Classify(ops[..|ops| - 1], opts, o);
      ClassifyStep(c, ops[|ops| - 1], opts, o)
  }

  /** The ids of the modifiers, in order. */
  function ModifierIds(ops: seq<SignOption>): seq<nat>
    decreases |ops|
  {
    if ops == [] then []
    else ModifierIds(ops[..|ops| - 1]) + (if ops[|ops| - 1].CertModifier? then [ops[|ops| - 1].id] else [])
  }

  /** The ids of the certificate validators, in order. */
  function ValidatorIds(ops: seq<SignOption>): seq<nat>
    decreases |ops|
  {
    if ops == [] then []
    else ValidatorIds(ops[..|ops| - 1]) + (if ops[|ops| - 1].CertValidator? then [ops[|ops| - 1].id] else [])
  }

  /** An option SignSSH accepts: of a known kind, and passing at once if it validates the options. */
  predicate Accepted(op: SignOption, opts: SignSSHOptions, o: SignOracles) {
    !op.UnknownOption? && (op.OptionsValidator? ==> o.optionsValid(op.id, opts).None?)
  }

  /**
   * Sorting succeeds exactly when every option is of a known kind and every
   * options validator passes; it then keeps every modifier and every
   * validator, in the order given.
   */
  lemma {:induction false} ClassifySound(ops: seq<SignOption>, opts: SignSSHOptions, o: SignOracles)
    ensures Classify(ops, opts, o).Ok? <==> forall i | 0 <= i < |ops| :: Accepted(ops[i], opts, o)
    ensures Classify(ops, opts, o).Ok? ==>
      Classify(ops, opts, o).value.mods == ModifierIds(ops) && Classify(ops, opts, o).value.validators == ValidatorIds(ops)
    decreases |ops|
  {
    if ops != [] {
      var init := ops[..|ops| - 1];
      ClassifySound(init, opts, o);
      assert forall i | 0 <= i < |init| :: init[i] == ops[i];
    }
  }

  /** A failing sort fails on the first option SignSSH does not accept. */
  lemma {:induction false} ClassifyFirstFailure(ops: seq<SignOption>, opts: SignSSHOptions, o: SignOracles, i: nat)
    requires i < |ops| && !Accepted(ops[i], opts, o)
    requires forall j | 0 <= j < i :: Accepted(ops[j], opts, o)
    ensures Classify(ops, opts, o) == ClassifyStep(Classified([], [], []), ops[i], opts, o)
    decreases |ops|
  {
    var init := ops[..|ops| - 1];
    if i < |ops| - 1 {
      assert init[i] == ops[i];
      assert forall j | 0 <= j < i :: init[j] == ops[j];
      ClassifyFirstFailure(init, opts, o, i);
    } else {
      assert forall j | 0 <= j < |init| :: init[j] == ops[j];
      ClassifySound(init, opts, o);
    }
  }

  /** SignSSH's option loop. */
  method ClassifySignOptions(ops: seq<SignOption>, opts: SignSSHOptions, o: SignOracles) returns (r: Result<Classified, SSHError>)
    ensures r == Classify(ops, opts, o)
  {
    var certOptions: seq<TemplateOption> := [];
    var mods: seq<nat> := [];
    var validators: seq<nat> := [];
    for i := 0 to |ops|
      invariant Classify(ops[..i], opts, o) == Ok(Classified(certOptions, mods, validators))
    {
      assert ops[..i + 1][..i] == ops[..i];
      match ops[i]
      case CertificateOptions(id) =>
        certOptions := certOptions + o.options(id, opts);
      case CertModifier(id) =>
        mods := mods + [id];
      case CertValidator(id) =>
        validators := validators + [id];
      case OptionsValidator(id) =>
        var err := o.optionsValid(id, opts);
        if err.Some? {
          ClassifyPrefixErr(ops, opts, o, i + 1);
          return Err(OptionRejected(err.value));
        }
      case UnknownOption(name) =>
        ClassifyPrefixErr(ops, opts, o, i + 1);
        return Err(InvalidOptionType(name));
    }
    assert ops[..|ops|] == ops;
    return Ok(Classified(certOptions, mods, validators));
  }

  lemma {:induction false} ClassifyPrefixErr(ops: seq<SignOption>, opts: SignSSHOptions, o: SignOracles, i: nat)
    requires i <= |ops| && Classify(ops[..i], opts, o).Err?
    ensures Classify(ops, opts, o) == Classify(ops[..i], opts, o)
    decreases |ops|
  {
    if i == |ops| {
      assert ops[..i] == ops;
    } else {
      var init := ops[..|ops| - 1];
      assert init[..i] == ops[..i];
      ClassifyPrefixErr(init, opts, o, i);
    }
  }

  /** The provisioner modifiers applied in turn, stopping at the first refusal. */
  function ApplyModifiers(mods: seq<nat>, cert: SSHCertificate, opts: SignSSHOptions, o: SignOracles): Result<SSHCertificate, SSHError>
    decreases |mods|
  {
    if mods == [] then Ok(cert)
    else
      var c :- ApplyModifiers(mods[..|mods| - 1], cert, opts, o);
      match o.applyModifier(mods[|mods| - 1], c, opts)
      case Err(msg) => Err(ModifierRejected(msg))
      case Ok(c') => Ok(c')
  }

  /** The first validator that refuses the signed certificate, if any. */
  function FirstRejection(validators: seq<nat>, cert: SSHCertificate, opts: SignSSHOptions, o: SignOracles): (r: Option<SSHError>)
    ensures r.None? <==> forall i | 0 <= i < |validators| :: o.valid(validators[i], cert, opts).None?
    decreases |validators|
  {
    if validators == [] then None
    else
      var init := validators[..|validators| - 1];
      assert forall i | 0 <= i < |init| :: init[i] == validators[i];
      var e := FirstRejection(init, cert, opts, o);
      if e.Some? then e
      else match o.valid(validators[|validators| - 1], cert, opts)
        case Some(msg) => Some(ValidatorRejected(msg))
        case None => None
  }

  /** SignSSH's modifier loop. */
  method RunModifiers(mods: seq<nat>, cert: SSHCertificate, opts: SignSSHOptions, o: SignOracles) returns (r: Result<SSHCertificate, SSHError>)
    ensures r == ApplyModifiers(mods, cert, opts, o)
  {
    var c := cert;
    for i := 0 to |mods|
      invariant ApplyModifiers(mods[..i], cert, opts, o) == Ok(c)
    {
      assert mods[..i + 1][..i] == mods[..i];
      var m := o.applyModifier(mods[i], c, opts);
      if m.Err? {
        ModifiersPrefixErr(mods, cert, opts, o, i + 1);
        return Err(ModifierRejected(m.error));
      }
      c := m.value;
    }
    assert mods[..|mods|] == mods;
    return Ok(c);
  }

  lemma {:induction false} ModifiersPrefixErr(mods: seq<nat>, cert: SSHCertificate, opts: SignSSHOptions, o: SignOracles, i: nat)
    requires i <= |mods| && ApplyModifiers(mods[..i], cert, opts, o).Err?
    ensures ApplyModifiers(mods, cert, opts, o) == ApplyModifiers(mods[..i], cert, opts, o)
    decreases |mods|
  {
    if i == |mods| {
      assert mods[..i] == mods;
    } else {
      var init := mods[..|mods| - 1];
      assert init[..i] == mods[..i];
      ModifiersPrefixErr(init, cert, opts, o, i);
    }
  }

  /** SignSSH's and RekeySSH's validator loop. */
  method RunValidators(validators: seq<nat>, cert: SSHCertificate, opts: SignSSHOptions, o: SignOracles) returns (r: Option<SSHError>)
    ensures r == FirstRejection(validators, cert, opts, o)
  {
    for i := 0 to |validators|
      invariant FirstRejection(validators[..i], cert, opts, o).None?
    {
      assert validators[..i + 1][..i] == validators[..i];
      var e := o.valid(validators[i], cert, opts);
      if e.Some? {
        RejectionPrefix(validators, cert, opts, o, i + 1);
        return Some(ValidatorRejected(e.value));
      }
    }
    assert validators[..|validators|] == validators;
    return None;
  }

  lemma {:induction false} RejectionPrefix(validators: seq<nat>, cert: SSHCertificate, opts: SignSSHOptions, o: SignOracles, i: nat)
    requires i <= |validators| && FirstRejection(validators[..i], cert, opts, o).Some?
    ensures FirstRejection(validators, cert, opts, o) == FirstRejection(validators[..i], cert, opts, o)
    decreases |validators|
  {
    if i == |validators| {
      assert validators[..i] == validators;
    } else {
      var init := validators[..|validators| - 1];
      assert init[..i] == validators[..i];
      RejectionPrefix(init, cert, opts, o, i);
    }
  }

  /**
   * The CA key that signs a certificate of the given type; an unknown type is
   * reported with the given status (RekeySSH's differs from the others').
   */
  function SignerFor(a: Authority, certType: int, unknown: Status): (r: Result<Signer, SSHError>)
    ensures certType == UserCert ==> (r.Ok? <==> a.userSigner.Some?) && (r.Ok? ==> r.value == a.userSigner.value)
    ensures certType == HostCert ==> (r.Ok? <==> a.hostSigner.Some?) && (r.Ok? ==> r.value == a.hostSigner.value)
    ensures r.Err? && (certType == UserCert || certType == HostCert) ==> r.error == SigningNotEnabled(certType)
    ensures certType != UserCert && certType != HostCert ==> r == Err(UnexpectedCertType(certType, unknown))
  {
    if certType == UserCert then
      if a.userSigner.None? then Err(SigningNotEnabled(UserCert)) else Ok(a.userSigner.value)
    else if certType == HostCert then
      if a.hostSigner.None? then Err(SigningNotEnabled(HostCert)) else Ok(a.hostSigner.value)
    else Err(UnexpectedCertType(certType, unknown))
  }

  /** Storing the certificate: a database that cannot store SSH certificates is no error. */
  function StoreResult(o: SignOracles, cert: SSHCertificate): Result<SSHCertificate, SSHError> {
    match o.store(cert)
    case StoreError(msg) => Err(StoreFailed(msg))
    case _ => Ok(cert)
  }

  /** The certificate SignSSH hands to the signer: from the template, with validity and modifiers applied. */
  function Prepared(a: Authority, key: seq<byte>, opts: SignSSHOptions, ops: seq<SignOption>, o: SignOracles): Result<(SSHCertificate, Classified), SSHError> {
    if o.validate(opts).Some? then Err(InvalidSignOptions(o.validate(opts).value))
    else
      var opts' := opts.(backdate := a.backdate);
      var c :- Classify(ops, opts', o);
      var cr := CertificateRequest(opts'.certType, opts'.keyID, opts'.principals, key);
      match o.newCertificate(cr, c.certOptions)
      case Err(TemplateError(msg)) => Err(CertificateTemplateFailed(msg))
      case Err(OtherError(msg)) => Err(CertificateFailed(msg))
      case Ok(tpl) =>
        match o.modifyValidity(tpl, opts')
        case Err(msg) => Err(ValidityFailed(msg))
        case Ok(tpl') =>
          var tpl'' :- ApplyModifiers(c.mods, tpl', opts', o);
          Ok((tpl'', c))
  }

  /** SignSSH's answer. */
  function SignSSHResult(a: Authority, key: seq<byte>, opts: SignSSHOptions, ops: seq<SignOption>, o: SignOracles): Result<SSHCertificate, SSHError> {
    var (tpl, c) :- Prepared(a, key, opts, ops, o);
    var signer :- SignerFor(a, tpl.certType, InternalServer);
    match o.sign(tpl, signer)
    case Err(msg) => Err(SigningFailed(msg))
    case Ok(cert) =>
      var rejection := FirstRejection(c.validators, cert, opts.(backdate := a.backdate), o);
      if rejection.Some? then Err(rejection.value) else StoreResult(o, cert)
  }

  /** SignSSH. */
  method SignSSH(a: Authority, key: seq<byte>, opts: SignSSHOptions, ops: seq<SignOption>, o: SignOracles)
    returns (r: Result<SSHCertificate, SSHError>)
    ensures r == SignSSHResult(a, key, opts, ops, o)
  {
    var err := o.validate(opts);
    if err.Some? {
      return Err(InvalidSignOptions(err.value));
    }
    var opts' := opts.(backdate := a.backdate);
    var c := ClassifySignOptions(ops, opts', o);
    if c.Err? {
      return Err(c.error);
    }
    var cr := CertificateRequest(opts'.certType, opts'.keyID, opts'.principals, key);
    var certificate := o.newCertificate(cr, c.value.certOptions);
    if certificate.Err? {
      match certificate.error
      case TemplateError(msg) =>
        return Err(CertificateTemplateFailed(msg));
      case OtherError(msg) =>
        return Err(CertificateFailed(msg));
    }
    var validity := o.modifyValidity(certificate.value, opts');
    if validity.Err? {
      return Err(ValidityFailed(validity.error));
    }
    var tpl := RunModifiers(c.value.mods, validity.value, opts', o);
    if tpl.Err? {
      return Err(tpl.error);
    }
    var signer := SignerFor(a, tpl.value.certType, InternalServer);
    if signer.Err? {
      return Err(signer.error);
    }
    var cert := o.sign(tpl.value, signer.value);
    if cert.Err? {
      return Err(SigningFailed(cert.error));
    }
    var rejection := RunValidators(c.value.validators, cert.value, opts', o);
    if rejection.Some? {
      return Err(rejection.value);
    }
    r := StoreResult(o, cert.value);
  }

  /**
   * An option SignSSH refuses ends the call before any certificate is built:
   * the answer does not depend on the template, the modifiers, the signer or
   * the validators.
   */
  lemma RefusedBeforeBuilding(a: Authority, key: seq<byte>, opts: SignSSHOptions, ops: seq<SignOption>, o: SignOracles, o': SignOracles)
    requires o'.validate == o.validate && o'.options == o.options && o'.optionsValid == o.optionsValid
    requires o.validate(opts).None? && Classify(ops, opts.(backdate := a.backdate), o).Err?
    ensures SignSSHResult(a, key, opts, ops, o) == SignSSHResult(a, key, opts, ops, o')
    ensures SignSSHResult(a, key, opts, ops, o) == Err(Classify(ops, opts.(backdate := a.backdate), o).error)
  {
    ClassifyOracles(ops, opts.(backdate := a.backdate), o, o');
  }

  lemma {:induction false} ClassifyOracles(ops: seq<SignOption>, opts: SignSSHOptions, o: SignOracles, o': SignOracles)
    requires o'.options == o.options && o'.optionsValid == o.optionsValid
    ensures Classify(ops, opts, o) == Classify(ops, opts, o')
    decreases |ops|
  {
    if ops != [] {
      ClassifyOracles(ops[..|ops| - 1], opts, o, o');
    }
  }

  /** A prepared certificate whose type has no CA key is refused as not implemented. */
  lemma MissingSignerNotImplemented(a: Authority, key: seq<byte>, opts: SignSSHOptions, ops: seq<SignOption>, o: SignOracles)
    requires Prepared(a, key, opts, ops, o).Ok?
    requires var t := Prepared(a, key, opts, ops, o).value.0.certType;
      (t == UserCert && a.userSigner.None?) || (t == HostCert && a.hostSigner.None?)
    ensures SignSSHResult(a, key, opts, ops, o).Err?
    ensures StatusOf(SignSSHResult(a, key, opts, ops, o).error) == NotImplemented
  {
  }

  /**
   * A certificate SignSSH returns was signed by the CA key for its type and
   * passed every validator the provisioner gave, with the CA's backdate in
   * the options.
   */
  lemma SignedCertificatePassedValidators(a: Authority, key: seq<byte>, opts: SignSSHOptions, ops: seq<SignOption>, o: SignOracles)
    requires SignSSHResult(a, key, opts, ops, o).Ok?
    ensures var tpl := Prepared(a, key, opts, ops, o).value.0;
      var signer := SignerFor(a, tpl.certType, InternalServer);
      signer.Ok? && o.sign(tpl, signer.value) == Ok(SignSSHResult(a, key, opts, ops, o).value)
    ensures var cert := SignSSHResult(a, key, opts, ops, o).value;
      forall i | 0 <= i < |ValidatorIds(ops)| :: o.valid(ValidatorIds(ops)[i], cert, opts.(backdate := a.backdate)).None?
  {
    ClassifySound(ops, opts.(backdate := a.backdate), o);
  }

  // ------------------------------------------------------------- RenewSSH / RekeySSH

  /** A uint64 read as an int64. */
  function Int64OfUint64(u: int): int
    requires 0 <= u < Uint64Modulus
  {
    if u > MaxInt64 then u - Uint64Modulus else u
  }

  /** An integer wrapped into the int64 range, as Duration arithmetic does. */
  function WrapInt64(x: int): (r: int)
    ensures InInt64(r)
    ensures InInt64(x) ==> r == x
  {
    Int64OfUint64(x % Uint64Modulus)
  }

  /** Time.Unix as a uint64: whole seconds since the epoch, wrapped. */
  function UnixUint64(t: Time): nat {
    (t / Second) % Uint64Modulus
  }

  /**
   * The (ValidAfter, ValidBefore) of a re-signed certificate: starting the
   * backdate before now and lasting as long as the oldCert one, with Go's uint64
   * and Duration arithmetic.
   */
  function ResignWindow(validAfter: nat, validBefore: nat, now: Time, backdate: int): (nat, nat) {
    var duration := WrapInt64(Int64OfUint64((validBefore - validAfter) % Uint64Modulus) * Second);
    var va := now - backdate;
    var vb := now + WrapInt64(duration - backdate);
    (UnixUint64(va), UnixUint64(vb))
  }

  /**
   * When nothing wraps, the new window starts at now minus the backdate (in
   * whole seconds) and has exactly the oldCert window's length.
   */
  lemma {:induction false} ResignWindowKeepsLength(validAfter: nat, validBefore: nat, now: Time, backdate: int)
    requires validAfter <= validBefore < Uint64Modulus
    requires (validBefore - validAfter) * Second <= MaxInt64
    requires 0 <= backdate <= MaxInt64
    requires now - backdate >= 0 && (now - backdate) / Second + (validBefore - validAfter) < Uint64Modulus
    ensures var w := ResignWindow(validAfter, validBefore, now, backdate);
      w.0 == (now - backdate) / Second && w.1 - w.0 == validBefore - validAfter
  {
    var k := validBefore - validAfter;
    var d := k * Second;
    assert Int64OfUint64(k % Uint64Modulus) == k;
    assert WrapInt64(d) == d;
    assert WrapInt64(d - backdate) == d - backdate;
    var va := now - backdate;
    assert now + (d - backdate) == va + k * Second;
    DivShift(va, k);
    assert va / Second >= 0;
  }

  /** The certificate RenewSSH and RekeySSH sign: the oldCert one's type, identity and permissions under a new window and key. */
  function ResignTemplate(oldCert: SSHCertificate, key: seq<byte>, now: Time, backdate: int): (c: SSHCertificate)
    ensures c.key == key && c.certType == oldCert.certType && c.keyId == oldCert.keyId && c.validPrincipals == oldCert.validPrincipals
    ensures c.criticalOptions == oldCert.criticalOptions && c.extensions == oldCert.extensions && c.reserved == oldCert.reserved
    ensures (c.validAfter, c.validBefore) == ResignWindow(oldCert.validAfter, oldCert.validBefore, now, backdate)
  {
    var w := ResignWindow(oldCert.validAfter, oldCert.validBefore, now, backdate);
    SSHCertificate([], key, 0, oldCert.certType, oldCert.keyId, oldCert.validPrincipals, w.0, w.1,
      oldCert.criticalOptions, oldCert.extensions, oldCert.reserved, [], [])
  }

  /** RenewSSH: the oldCert certificate re-signed over a fresh window; authorization is an input. */
  function RenewSSH(a: Authority, oldCert: SSHCertificate, authorized: Option<SSHError>, now: Time, o: SignOracles): (r: Result<SSHCertificate, SSHError>)
    ensures oldCert.validAfter == 0 || oldCert.validBefore == 0 ==> r == Err(NoValidityPeriod)
  {
    if oldCert.validAfter == 0 || oldCert.validBefore == 0 then Err(NoValidityPeriod)
    else if authorized.Some? then Err(authorized.value)
    else
      var tpl := ResignTemplate(oldCert, oldCert.key, now, a.backdate);
      var signer :- SignerFor(a, tpl.certType, InternalServer);
      match o.sign(tpl, signer)
      case Err(msg) => Err(SigningFailed(msg))
      case Ok(cert) => StoreResult(o, cert)
  }

  /** RekeySSH's option loop: every option must be a certificate validator. */
  function RekeyValidators(ops: seq<SignOption>): (r: Result<seq<nat>, SSHError>)
    ensures r.Ok? <==> forall i | 0 <= i < |ops| :: ops[i].CertValidator?
    ensures r.Ok? ==> r.value == ValidatorIds(ops)
    decreases |ops|
  {
    if ops == [] then Ok([])
    else
      var init := ops[..|ops| - 1];
      assert forall i | 0 <= i < |init| :: init[i] == ops[i];
      var vs :- RekeyValidators(init);
      var op := ops[|ops| - 1];
      if op.CertValidator? then Ok(vs + [op.id])
      else Err(InvalidOptionType(OptionTypeName(op)))
  }

  function OptionTypeName(op: SignOption): string {
    match op
    case CertificateOptions(_) => "SSHCertificateOptions"
    case CertModifier(_) => "SSHCertModifier"
    case CertValidator(_) => "SSHCertValidator"
    case OptionsValidator(_) => "SSHCertOptionsValidator"
    case UnknownOption(name) => name
  }

  /** RekeySSH's answer: checks the options first, then the oldCert window, then re-signs with the new key. */
  function RekeySSHResult(a: Authority, oldCert: SSHCertificate, pub: seq<byte>, ops: seq<SignOption>, authorized: Option<SSHError>,
                          now: Time, o: SignOracles): Result<SSHCertificate, SSHError> {
    var validators :- RekeyValidators(ops);
    if oldCert.validAfter == 0 || oldCert.validBefore == 0 then Err(NoValidityPeriod)
    else if authorized.Some? then Err(authorized.value)
    else
      var tpl := ResignTemplate(oldCert, pub, now, a.backdate);
      var signer :- SignerFor(a, tpl.certType, BadRequest);
      match o.sign(tpl, signer)
      case Err(msg) => Err(SigningFailed(msg))
      case Ok(cert) =>
        var rejection := FirstRejection(validators, cert, SignSSHOptions("", "", [], a.backdate), o);
        if rejection.Some? then Err(rejection.value) else StoreResult(o, cert)
  }

  /** RekeySSH. */
  method RekeySSH(a: Authority, oldCert: SSHCertificate, pub: seq<byte>, ops: seq<SignOption>, authorized: Option<SSHError>,
                  now: Time, o: SignOracles) returns (r: Result<SSHCertificate, SSHError>)
    ensures r == RekeySSHResult(a, oldCert, pub, ops, authorized, now, o)
  {
    var validators: seq<nat> := [];
    for i := 0 to |ops|
      invariant RekeyValidators(ops[..i]) == Ok(validators)
    {
      assert ops[..i + 1][..i] == ops[..i];
      if !ops[i].CertValidator? {
        RekeyPrefixErr(ops, i + 1);
        return Err(InvalidOptionType(OptionTypeName(ops[i])));
      }
      validators := validators + [ops[i].id];
    }
    assert ops[..|ops|] == ops;
    if oldCert.validAfter == 0 || oldCert.validBefore == 0 {
      return Err(NoValidityPeriod);
    }
    if authorized.Some? {
      return Err(authorized.value);
    }
    var tpl := ResignTemplate(oldCert, pub, now, a.backdate);
    var signer := SignerFor(a, tpl.certType, BadRequest);
    if signer.Err? {
      return Err(signer.error);
    }
    var cert := o.sign(tpl, signer.value);
    if cert.Err? {
      return Err(SigningFailed(cert.error));
    }
    var rejection := RunValidators(validators, cert.value, SignSSHOptions("", "", [], a.backdate), o);
    if rejection.Some? {
      return Err(rejection.value);
    }
    r := StoreResult(o, cert.value);
  }

  lemma {:induction false} RekeyPrefixErr(ops: seq<SignOption>, i: nat)
    requires i <= |ops| && RekeyValidators(ops[..i]).Err?
    ensures RekeyValidators(ops) == RekeyValidators(ops[..i])
    decreases |ops|
  {
    if i == |ops| {
      assert ops[..i] == ops;
    } else {
      var init := ops[..|ops| - 1];
      assert init[..i] == ops[..i];
      RekeyPrefixErr(init, i);
    }
  }

  /**
   * RekeySSH refuses an option that is not a validator before looking at the
   * certificate; renewing and rekeying refuse a certificate without a
   * validity period.
   */
  lemma RekeyOrder(a: Authority, oldCert: SSHCertificate, pub: seq<byte>, ops: seq<SignOption>, authorized: Option<SSHError>,
                   now: Time, o: SignOracles)
    ensures (exists i | 0 <= i < |ops| :: !ops[i].CertValidator?) ==>
      RekeySSHResult(a, oldCert, pub, ops, authorized, now, o).Err? &&
      RekeySSHResult(a, oldCert, pub, ops, authorized, now, o).error.InvalidOptionType?
    ensures (forall i | 0 <= i < |ops| :: ops[i].CertValidator?) && (oldCert.validAfter == 0 || oldCert.validBefore == 0) ==>
      RekeySSHResult(a, oldCert, pub, ops, authorized, now, o) == Err(NoValidityPeriod)
  {
    if exists i | 0 <= i < |ops| :: !ops[i].CertValidator? {
      var e := RekeyValidators(ops);
      assert e.Err?;
      RekeyErrorKind(ops);
    }
  }

  lemma {:induction false} RekeyErrorKind(ops: seq<SignOption>)
    requires RekeyValidators(ops).Err?
    ensures RekeyValidators(ops).error.InvalidOptionType?
    decreases |ops|
  {
    var init := ops[..|ops| - 1];
    if RekeyValidators(init).Err? {
      RekeyErrorKind(init);
    }
  }

  /** A rekeyed certificate carries the new key, keeps the oldCert identity, and passed every validator. */
  lemma RekeyedCertificate(a: Authority, oldCert: SSHCertificate, pub: seq<byte>, ops: seq<SignOption>, authorized: Option<SSHError>,
                           now: Time, o: SignOracles)
    requires RekeySSHResult(a, oldCert, pub, ops, authorized, now, o).Ok?
    ensures var tpl := ResignTemplate(oldCert, pub, now, a.backdate);
      var signer := SignerFor(a, tpl.certType, BadRequest);
      signer.Ok? && o.sign(tpl, signer.value) == Ok(RekeySSHResult(a, oldCert, pub, ops, authorized, now, o).value)
    ensures var cert := RekeySSHResult(a, oldCert, pub, ops, authorized, now, o).value;
      forall i | 0 <= i < |ops| :: o.valid(ops[i].id, cert, SignSSHOptions("", "", [], a.backdate)).None?
  {
    var vs := RekeyValidators(ops).value;
    var cert := RekeySSHResult(a, oldCert, pub, ops, authorized, now, o).value;
    forall i | 0 <= i < |ops|
      ensures o.valid(ops[i].id, cert, SignSSHOptions("", "", [], a.backdate)).None?
    {
      ValidatorIdsAll(ops, i);
    }
  }

  lemma {:induction false} ValidatorIdsAll(ops: seq<SignOption>, i: nat)
    requires i < |ops| && forall j | 0 <= j < |ops| :: ops[j].CertValidator?
    ensures |ValidatorIds(ops)| == |ops| && ValidatorIds(ops)[i] == ops[i].id
    decreases |ops|
  {
    var init := ops[..|ops| - 1];
    assert forall j | 0 <= j < |init| :: init[j] == ops[j];
    if i < |ops| - 1 {
      ValidatorIdsAll(init, i);
    } else if init != [] {
      ValidatorIdsAll(init, 0);
    }
  }

  // ------------------------------------------------------------- add-user certificates

  /** IsValidForAddUser: a user certificate with one principal, or two when the second looks like an e-mail address. */
  function IsValidForAddUser(cert: SSHCertificate): (r: Option<AddUserRejection>)
    ensures r.None? <==> (cert.certType == UserCert && (|cert.validPrincipals| == 1
      || (|cert.validPrincipals| == 2 && '@' in cert.validPrincipals[1] && cert.validPrincipals[1][0] != '@')))
    ensures cert.certType != UserCert ==> r == Some(NotUserCertificate)
  {
    CharIndex(if |cert.validPrincipals| == 2 then cert.validPrincipals[1] else "", '@');
    if cert.certType != UserCert then Some(NotUserCertificate)
    else if |cert.validPrincipals| == 0 then Some(NoPrincipals)
    else if |cert.validPrincipals| == 1 then None
    else if |cert.validPrincipals| == 2 then
      if Index(cert.validPrincipals[1], "@") > 0 then None else Some(NotOnePrincipal)
    else Some(NotOnePrincipal)
  }

  /** getAddUserPrincipal. */
  function AddUserPrincipal(ssh: SSHConfig): (p: string)
    ensures p != ""
    ensures ssh.addUserPrincipal != "" ==> p == ssh.addUserPrincipal
  {
    if ssh.addUserPrincipal == "" then SSHAddUserPrincipal else ssh.addUserPrincipal
  }

  /** getAddUserCommand: the configured or default command, with every "<principal>" replaced. */
  function AddUserCommand(ssh: SSHConfig, principal: string): string {
    ReplaceAll(if ssh.addUserCommand == "" then SSHAddUserCommand else ssh.addUserCommand, "<principal>", principal)
  }

  /** The default command creates the principal's account and hands the connection on to local SSH. */
  lemma DefaultAddUserCommand(ssh: SSHConfig, principal: string)
    requires ssh.addUserCommand == ""
    ensures AddUserCommand(ssh, principal) == "sudo useradd -m " + principal + "; nc -q0 localhost 22"
  {
    ReplaceAllOnce("sudo useradd -m ", "<principal>", "; nc -q0 localhost 22", principal);
  }

  /** The add-user certificate before signing. */
  function AddUserTemplate(ssh: SSHConfig, signer: Signer, key: seq<byte>, subject: SSHCertificate, nonce: string, serial: nat): SSHCertificate
    requires |subject.validPrincipals| > 0
  {
    var principal := subject.validPrincipals[0];
    var addUser := AddUserPrincipal(ssh);
    SSHCertificate(Utf8(nonce), key, serial, UserCert, principal + "-" + addUser, [addUser],
      subject.validAfter, subject.validBefore, map["force-command" := AddUserCommand(ssh, principal)],
      map[], [], signer.publicKey, [])
  }

  /**
   * SignSSHAddUser, with the random nonce and serial, the signature over the
   * certificate and the store as inputs. The user CA key is only ever loaded
   * from a configured SSH section, so a CA that has the key has the section.
   */
  function SignSSHAddUser(a: Authority, key: seq<byte>, subject: SSHCertificate, nonce: Result<string, string>,
                          serial: Result<nat, string>, sign: SSHCertificate -> Result<seq<byte>, string>,
                          store: SSHCertificate -> StoreOutcome): Result<SSHCertificate, SSHError>
    requires a.userSigner.Some? ==> a.ssh.Some?
  {
    if a.userSigner.None? then Err(SigningNotEnabled(UserCert))
    else if IsValidForAddUser(subject).Some? then Err(NotValidForAddUser(IsValidForAddUser(subject).value))
    else if nonce.Err? then Err(RandomFailed(nonce.error))
    else if serial.Err? then Err(RandomFailed(serial.error))
    else
      var tpl := AddUserTemplate(a.ssh.value, a.userSigner.value, key, subject, nonce.value, serial.value);
      match sign(tpl)
      case Err(msg) => Err(SigningFailed(msg))
      case Ok(sig) =>
        var cert := tpl.(signature := sig);
        match store(cert)
        case StoreError(msg) => Err(StoreFailed(msg))
        case _ => Ok(cert)
  }

  /**
   * An add-user certificate is a user certificate for the add-user principal
   * alone, named after the subject's first principal, valid exactly when the
   * subject is, and forced to run the add-user command for that principal.
   */
  lemma AddUserCertificateShape(a: Authority, key: seq<byte>, subject: SSHCertificate, nonce: Result<string, string>,
                                serial: Result<nat, string>, sign: SSHCertificate -> Result<seq<byte>, string>,
                                store: SSHCertificate -> StoreOutcome)
    requires a.userSigner.Some? ==> a.ssh.Some?
    requires SignSSHAddUser(a, key, subject, nonce, serial, sign, store).Ok?
    ensures var c := SignSSHAddUser(a, key, subject, nonce, serial, sign, store).value;
      var p := subject.validPrincipals[0];
      c.certType == UserCert && c.key == key
      && c.keyId == p + "-" + AddUserPrincipal(a.ssh.value)
      && c.validPrincipals == [AddUserPrincipal(a.ssh.value)]
      && c.validAfter == subject.validAfter && c.validBefore == subject.validBefore
      && c.criticalOptions == map["force-command" := AddUserCommand(a.ssh.value, p)]
      && c.signatureKey == a.userSigner.value.publicKey
  {
  }

  /** Without the user CA key the request is not implemented; with it, an unfit subject is forbidden. */
  lemma AddUserRefusals(a: Authority, key: seq<byte>, subject: SSHCertificate, nonce: Result<string, string>,
                        serial: Result<nat, string>, sign: SSHCertificate -> Result<seq<byte>, string>,
                        store: SSHCertificate -> StoreOutcome)
    requires a.userSigner.Some? ==> a.ssh.Some?
    ensures a.userSigner.None? ==> SignSSHAddUser(a, key, subject, nonce, serial, sign, store) == Err(SigningNotEnabled(UserCert))
    ensures a.userSigner.None? ==> StatusOf(SignSSHAddUser(a, key, subject, nonce, serial, sign, store).error) == NotImplemented
    ensures a.userSigner.Some? && IsValidForAddUser(subject).Some? ==>
      StatusOf(SignSSHAddUser(a, key, subject, nonce, serial, sign, store).error) == Forbidden
  {
  }
}
