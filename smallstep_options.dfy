// Provisioner certificate options (authority/provisioner/options.go): which X.509
// template a provisioner's certificates are rendered from, and with what data.
module SmallstepOptions {
  import opened Wrappers
  import opened GoStrings
  import opened StepTemplates

  /** A provisioner's X.509 options: an inline (JSON or base64) template, a template
      file, and the raw JSON of extra template data. */
  datatype X509Options = X509Options(template: string, templateFile: string, templateData: string)

  /** A provisioner's SSH options; their fields are not looked at here. */
  datatype SSHOptions = SSHOptions(fields: map<string, string>)

  datatype Options = Options(x509: Option<X509Options>, ssh: Option<SSHOptions>)

  /** GetX509Options: nothing on missing options. */
  function GetX509Options(o: Option<Options>): (r: Option<X509Options>)
    ensures r.Some? <==> (o.Some? && o.value.x509.Some?)
    ensures r.Some? ==> r == o.value.x509
  {
    if o.None? then None else o.value.x509
  }

  /** GetSSHOptions: nothing on missing options. */
  function GetSSHOptions(o: Option<Options>): (r: Option<SSHOptions>)
    ensures r.Some? <==> (o.Some? && o.value.ssh.Some?)
    ensures r.Some? ==> r == o.value.ssh
  {
    if o.None? then None else o.value.ssh
  }

  /** HasTemplate: options exist and name an inline template or a template file. */
  predicate HasTemplate(o: Option<X509Options>) {
    o.Some? && (o.value.template != "" || o.value.templateFile != "")
  }

  /** x509util.DefaultLeafTemplate. */
  const DefaultLeafTemplate: string :=
    "{\n\t\"subject\": {{ toJson .Subject }},\n\t\"sans\": {{ toJson .SANs }},\n"
    + "{{- if typeIs \"*rsa.PublicKey\" .Insecure.CR.PublicKey }}\n"
    + "\t\"keyUsage\": [\"keyEncipherment\", \"digitalSignature\"],\n"
    + "{{- else }}\n\t\"keyUsage\": [\"digitalSignature\"],\n{{- end }}\n"
    + "\t\"extKeyUsage\": [\"serverAuth\", \"clientAuth\"]\n}"

  /** Where the certificate template comes from; the template data map goes with it. */
  datatype X509Option =
    | WithTemplate(text: string)
    | WithTemplateFile(path: string)
    | WithTemplateBase64(encoded: string)

  /** The template source the returned options pick. */
  function TemplateSource(opts: Option<X509Options>, defaultTemplate: string): X509Option {
    if !HasTemplate(opts) then WithTemplate(defaultTemplate)
    else if opts.value.template == "" && opts.value.templateFile != "" then
      WithTemplateFile(opts.value.templateFile)
    else if HasPrefix(TrimSpace(opts.value.template), "{") then
      WithTemplate(TrimSpace(opts.value.template))
    else WithTemplateBase64(TrimSpace(opts.value.template))
  }

  /** The default template plays a part exactly when the options name no template:
      then it is the template used, and otherwise any default gives the same choice. */
  lemma HasTemplateDecidesDefault(opts: Option<X509Options>, d1: string, d2: string)
    requires d1 != d2
    ensures !HasTemplate(opts) <==> TemplateSource(opts, d1) != TemplateSource(opts, d2)
    ensures !HasTemplate(opts) ==> TemplateSource(opts, d1) == WithTemplate(d1)
  {
  }

  /** Without a custom template the default one is used; a template file only when
      there is no inline template; an inline template, trimmed, as JSON when it starts
      with '{' and as base64 otherwise. */
  lemma TemplateSourceSound(opts: Option<X509Options>, defaultTemplate: string)
    ensures !HasTemplate(opts) ==> TemplateSource(opts, defaultTemplate) == WithTemplate(defaultTemplate)
    ensures TemplateSource(opts, defaultTemplate).WithTemplateFile? <==>
              (opts.Some? && opts.value.template == "" && opts.value.templateFile != "")
    ensures TemplateSource(opts, defaultTemplate).WithTemplateFile? ==>
              TemplateSource(opts, defaultTemplate).path == opts.value.templateFile
    ensures (opts.Some? && opts.value.template != "") ==>
              TemplateSource(opts, defaultTemplate)
                == (if HasPrefix(TrimSpace(opts.value.template), "{")
                    then WithTemplate(TrimSpace(opts.value.template))
                    else WithTemplateBase64(TrimSpace(opts.value.template)))
  {
  }

  /** The user object a request's template data gives: none when the request has
      none, its object when it parses, and an empty object when it does not. */
  function UserObject(requestData: string, parseObject: string -> Option<map<string, Json>>): (r: Option<Value>)
    ensures r.None? <==> |requestData| == 0
    ensures r.Some? ==> r.value.JsonValue? && r.value.json.JsonObject?
    ensures (|requestData| > 0 && parseObject(requestData).None?) ==> r == Some(JsonValue(JsonObject(map[])))
    ensures (|requestData| > 0 && parseObject(requestData).Some?) ==>
              r == Some(JsonValue(JsonObject(parseObject(requestData).value)))
  {
    if |requestData| == 0 then None
    else match parseObject(requestData)
      case None => Some(JsonValue(JsonObject(map[])))
      case Some(m) => Some(JsonValue(JsonObject(m)))
  }

  /** The entries json.Unmarshal adds to template data for a decoded object: each
      member's decoded value, under its name. */
  function DecodedEntries(m: map<string, Json>): (r: map<string, Value>)
    ensures r.Keys == m.Keys
    ensures forall k | k in m :: r[k] == JsonValue(m[k])
  {
    map k | k in m :: JsonValue(m[k])
  }

  /** The template data after the provisioner's own data is decoded into it: entries
      of the JSON object are added over the existing ones; empty data and "null" add
      nothing; data that is not a JSON object is an error. */
  function ProvisionerData(data: map<string, Value>, opts: Option<X509Options>,
                           parseObject: string -> Option<map<string, Json>>): (r: Result<map<string, Value>, string>)
    ensures r.Err? <==> (opts.Some? && |opts.value.templateData| > 0 && opts.value.templateData != "null"
                         && parseObject(opts.value.templateData).None?)
    ensures r.Ok? ==> data.Keys <= r.value.Keys
    ensures r.Ok? ==> forall k | k in r.value && k !in data ::
              opts.Some? && parseObject(opts.value.templateData).Some?
              && k in parseObject(opts.value.templateData).value
    ensures !(opts.Some? && |opts.value.templateData| > 0 && opts.value.templateData != "null") ==>
              r == Ok(data)
    ensures r.Err? ==> r.error == "error unmarshaling template data"
    ensures (opts.Some? && |opts.value.templateData| > 0 && opts.value.templateData != "null"
             && parseObject(opts.value.templateData).Some?) ==>
              var m := parseObject(opts.value.templateData).value;
              && r.Ok?
              && r.value.Keys == data.Keys + m.Keys
              && (forall k | k in m :: r.value[k] == JsonValue(m[k]))
              && (forall k | k in data && k !in m :: r.value[k] == data[k])
  {
    if opts.Some? && |opts.value.templateData| > 0 && opts.value.templateData != "null" then
      match parseObject(opts.value.templateData)
      case None => Err("error unmarshaling template data")
      case Some(m) => Ok(data + DecodedEntries(m))
    else Ok(data)
  }

  /** An Insecure entry in the provisioner's data is a decoded object, not a
      template data map, so storing the user object afterwards replaces it with a
      map holding the user object alone. */
  lemma DecodedInsecureReplaced(data: map<string, Value>, opts: Option<X509Options>,
                                parseObject: string -> Option<map<string, Json>>, user: Value)
    requires opts.Some? && |opts.value.templateData| > 0 && opts.value.templateData != "null"
    requires parseObject(opts.value.templateData).Some?
    requires InsecureKey in parseObject(opts.value.templateData).value
    ensures ProvisionerData(data, opts, parseObject).Ok?
    ensures WithInsecure(ProvisionerData(data, opts, parseObject).value, UserKey, user)[InsecureKey]
              == DataValue(map[UserKey := user])
  {
    var m := parseObject(opts.value.templateData).value;
    assert ProvisionerData(data, opts, parseObject).value[InsecureKey] == JsonValue(m[InsecureKey]);
  }

  /** The certificate options CustomTemplateOptions returns: a closure over the
      provisioner's options, the shared template data and the default template. */
  class CertificateOptions {
    const opts: Option<X509Options>
    const data: TemplateData
    const defaultTemplate: string

    constructor (opts: Option<X509Options>, data: TemplateData, defaultTemplate: string)
      ensures this.opts == opts && this.data == data && this.defaultTemplate == defaultTemplate
    {
      this.opts := opts;
      this.data := data;
      this.defaultTemplate := defaultTemplate;
    }

    /** Options: the template to render for a request; with a custom template, the
        request's own template data is stored as the user object first. */
    method Options(requestData: string, parseObject: string -> Option<map<string, Json>>)
      returns (r: seq<X509Option>)
      modifies data
      ensures r == [TemplateSource(opts, defaultTemplate)]
      ensures (!HasTemplate(opts) || |requestData| == 0) ==> data.entries == old(data.entries)
      ensures (HasTemplate(opts) && |requestData| > 0) ==>
                data.entries == WithInsecure(old(data.entries), UserKey, UserObject(requestData, parseObject).value)
    {
      if !HasTemplate(opts) {
        return [WithTemplate(defaultTemplate)];
      }
      if |requestData| > 0 {
        var userObject := parseObject(requestData);
        if userObject.None? {
          data.SetUserData(JsonValue(JsonObject(map[])));
        } else {
          data.SetUserData(JsonValue(JsonObject(userObject.value)));
        }
      }
      var o := opts.value;
      if o.template == "" && o.templateFile != "" {
        return [WithTemplateFile(o.templateFile)];
      }
      var template := TrimSpace(o.template);
      if HasPrefix(template, "{") {
        return [WithTemplate(template)];
      }
      return [WithTemplateBase64(template)];
    }
  }

  /** CustomTemplateOptions: decode the provisioner's template data into the data
      map (a new one when none is given) and return the options closure. */
  method CustomTemplateOptions(o: Option<Options>, data: TemplateData?, defaultTemplate: string,
                               parseObject: string -> Option<map<string, Json>>)
    returns (r: Result<CertificateOptions, string>)
    modifies data
    ensures r.Ok? <==> ProvisionerData(old(if data == null then map[] else data.entries),
                                       GetX509Options(o), parseObject).Ok?
    ensures r.Ok? ==> r.value.opts == GetX509Options(o) && r.value.defaultTemplate == defaultTemplate
    ensures r.Ok? ==> r.value.data.entries
                        == ProvisionerData(old(if data == null then map[] else data.entries),
                                           GetX509Options(o), parseObject).value
    ensures r.Ok? && data != null ==> r.value.data == data
    ensures r.Ok? && data == null ==> fresh(r.value.data)
  {
    var opts := GetX509Options(o);
    var d: TemplateData;
    if data == null {
      d := new TemplateData();
    } else {
      d := data;
    }
    if opts.Some? {
      var raw := opts.value.templateData;
      if |raw| > 0 && raw != "null" {
        var parsed := parseObject(raw);
        if parsed.None? {
          return Err("error unmarshaling template data");
        }
        d.entries := d.entries + DecodedEntries(parsed.value);
      }
    }
    var c := new CertificateOptions(opts, d, defaultTemplate);
    r := Ok(c);
  }

  /** TemplateOptions: CustomTemplateOptions with the default leaf template. */
  method TemplateOptions(o: Option<Options>, data: TemplateData?,
                         parseObject: string -> Option<map<string, Json>>)
    returns (r: Result<CertificateOptions, string>)
    modifies data
    ensures r.Ok? <==> ProvisionerData(old(if data == null then map[] else data.entries),
                                       GetX509Options(o), parseObject).Ok?
    ensures r.Ok? ==> r.value.opts == GetX509Options(o) && r.value.defaultTemplate == DefaultLeafTemplate
    ensures r.Ok? ==> r.value.data.entries
                        == ProvisionerData(old(if data == null then map[] else data.entries),
                                           GetX509Options(o), parseObject).value
  {
    r := CustomTemplateOptions(o, data, DefaultLeafTemplate, parseObject);
  }
}
