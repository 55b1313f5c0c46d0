// The data handed to X.509 certificate templates (go.step.sm/crypto x509util,
// templates.go): a string-keyed map the setters update in place.
module StepTemplates {

  const SubjectKey: string := "Subject"
  const SANsKey: string := "SANs"
  const TokenKey: string := "Token"
  const InsecureKey: string := "Insecure"
  const UserKey: string := "User"
  const CertificateRequestKey: string := "CR"

  /** A certificate subject: its common name and the remaining name attributes,
      which the setters here carry along without looking at them. */
  datatype Subject = Subject(commonName: string, attributes: map<string, seq<string>>)

  /** The zero Subject. */
  const ZeroSubject: Subject := Subject("", map[])

  /** A subject alternative name as CreateSANs classifies it. */
  datatype SubjectAlternativeName = SubjectAlternativeName(kind: string, value: string)

  /** A JSON value as json.Unmarshal decodes it into an interface{}: an object
      becomes a map[string]interface{}, anything else is kept by its text. */
  datatype Json = JsonObject(fields: map<string, Json>) | JsonScalar(text: string)

  /** A value stored in template data: a subject, a list of SANs, a nested template
      data map (the Insecure section), or any other value, as decoded JSON. A
      decoded object is not a template data map, even with the same entries. */
  datatype Value =
    | SubjectValue(subject: Subject)
    | SANsValue(sans: seq<SubjectAlternativeName>)
    | DataValue(data: map<string, Value>)
    | JsonValue(json: Json)

  /** t[key] = v. */
  function WithEntry(t: map<string, Value>, key: string, v: Value): (r: map<string, Value>)
    ensures key in r && r[key] == v
    ensures forall k | k != key :: (k in r <==> k in t) && (k in t ==> r[k] == t[k])
  {
    t[key := v]
  }

  /** SetInsecure: key is set inside an existing Insecure map; anything else under
      Insecure, or nothing, is replaced by a map holding just key. */
  function WithInsecure(t: map<string, Value>, key: string, v: Value): (r: map<string, Value>)
    ensures InsecureKey in r && r[InsecureKey].DataValue?
    ensures forall k | k != InsecureKey :: (k in r <==> k in t) && (k in t ==> r[k] == t[k])
    ensures InsecureKey in t && t[InsecureKey].DataValue? ==>
              r[InsecureKey].data == t[InsecureKey].data[key := v]
    ensures !(InsecureKey in t && t[InsecureKey].DataValue?) ==>
              r[InsecureKey].data == map[key := v]
  {
    if InsecureKey in t && t[InsecureKey].DataValue?
    then t[InsecureKey := DataValue(t[InsecureKey].data[key := v])]
    else t[InsecureKey := DataValue(map[key := v])]
  }

  /** The subject stored under Subject, or the zero subject when there is none. */
  function SubjectOf(t: map<string, Value>): Subject {
    if SubjectKey in t && t[SubjectKey].SubjectValue? then t[SubjectKey].subject else ZeroSubject
  }

  /** SetCommonName: the stored subject (or the zero one) with its common name replaced. */
  function WithCommonName(t: map<string, Value>, cn: string): (r: map<string, Value>)
    ensures SubjectKey in r && r[SubjectKey].SubjectValue?
    ensures SubjectOf(r).commonName == cn
    ensures SubjectOf(r).attributes == SubjectOf(t).attributes
    ensures forall k | k != SubjectKey :: (k in r <==> k in t) && (k in t ==> r[k] == t[k])
  {
    var s := SubjectOf(t);
    t[SubjectKey := SubjectValue(s.(commonName := cn))]
  }

  /** CreateTemplateData's map: the subject with the common name, and the SANs. */
  function CreatedData(commonName: string, sans: seq<string>,
                       createSANs: seq<string> -> seq<SubjectAlternativeName>): (r: map<string, Value>)
    ensures r.Keys == {SubjectKey, SANsKey}
    ensures r[SubjectKey] == SubjectValue(Subject(commonName, map[]))
    ensures r[SANsKey] == SANsValue(createSANs(sans))
  {
    map[SubjectKey := SubjectValue(Subject(commonName, map[])),
        SANsKey := SANsValue(createSANs(sans))]
  }

  /** Two insecure entries under different keys are both kept. */
  lemma {:induction false} SetInsecureAccumulates(t: map<string, Value>, k1: string, v1: Value,
                                                  k2: string, v2: Value)
    requires k1 != k2
    ensures var r := WithInsecure(WithInsecure(t, k1, v1), k2, v2);
            r[InsecureKey].data[k1] == v1 && r[InsecureKey].data[k2] == v2
  {
    var t1 := WithInsecure(t, k1, v1);
    assert t1[InsecureKey].DataValue? && t1[InsecureKey].data[k1] == v1;
  }

  /** Setting a common name twice keeps only the second; the attributes survive. */
  lemma SetCommonNameLastWins(t: map<string, Value>, a: string, b: string)
    ensures WithCommonName(WithCommonName(t, a), b) == WithCommonName(t, b)
  {
    var t1 := WithCommonName(t, a);
    assert SubjectOf(t1) == SubjectOf(t).(commonName := a);
  }

  /** Setting the common name of created data keeps the SANs and changes nothing else. */
  lemma SetCommonNameOfCreated(commonName: string, sans: seq<string>,
                               createSANs: seq<string> -> seq<SubjectAlternativeName>, cn: string)
    ensures WithCommonName(CreatedData(commonName, sans, createSANs), cn)
              == CreatedData(cn, sans, createSANs)
  {
  }

  class TemplateData {
    var entries: map<string, Value>

    /** NewTemplateData: an empty map. */
    constructor ()
      ensures entries == map[]
    {
      entries := map[];
    }

    /** CreateTemplateData: a map holding the subject and the SANs. */
    constructor Create(commonName: string, sans: seq<string>,
                       createSANs: seq<string> -> seq<SubjectAlternativeName>)
      ensures entries == CreatedData(commonName, sans, createSANs)
    {
      entries := map[SubjectKey := SubjectValue(Subject(commonName, map[])),
                     SANsKey := SANsValue(createSANs(sans))];
    }

    method Set(key: string, v: Value)
      modifies this
      ensures entries == WithEntry(old(entries), key, v)
    {
      entries := entries[key := v];
    }

    method SetInsecure(key: string, v: Value)
      modifies this
      ensures entries == WithInsecure(old(entries), key, v)
    {
      if InsecureKey in entries && entries[InsecureKey].DataValue? {
        var m := entries[InsecureKey].data;
        entries := entries[InsecureKey := DataValue(m[key := v])];
      } else {
        entries := entries[InsecureKey := DataValue(map[key := v])];
      }
    }

    method SetSubject(v: Subject)
      modifies this
      ensures entries == WithEntry(old(entries), SubjectKey, SubjectValue(v))
    {
      Set(SubjectKey, SubjectValue(v));
    }

    method SetCommonName(cn: string)
      modifies this
      ensures entries == WithCommonName(old(entries), cn)
    {
      var s := SubjectOf(entries);
      entries := entries[SubjectKey := SubjectValue(s.(commonName := cn))];
    }

    method SetSANs(sans: seq<string>, createSANs: seq<string> -> seq<SubjectAlternativeName>)
      modifies this
      ensures entries == WithEntry(old(entries), SANsKey, SANsValue(createSANs(sans)))
    {
      Set(SANsKey, SANsValue(createSANs(sans)));
    }

    method SetToken(v: Value)
      modifies this
      ensures entries == WithEntry(old(entries), TokenKey, v)
    {
      Set(TokenKey, v);
    }

    /** SetUserData: the user's object under Insecure.User. */
    method SetUserData(v: Value)
      modifies this
      ensures entries == WithInsecure(old(entries), UserKey, v)
    {
      SetInsecure(UserKey, v);
    }

    /** SetCertificateRequest: the request's template form (computed by the caller)
        under Insecure.CR. */
    method SetCertificateRequest(cr: Value)
      modifies this
      ensures entries == WithInsecure(old(entries), CertificateRequestKey, cr)
    {
      SetInsecure(CertificateRequestKey, cr);
    }
  }
}
