// The revocation endpoint of the certificate authority's API (api/revoke.go):
// request validation and the choice between token and mutual-TLS authorisation.
module SmallstepRevoke {
  import opened Wrappers

  /** The CRLReason codes of section 5.3.1 of RFC 5280 that OCSP names:
      unspecified (0) up to aACompromise (10). */
  const ReasonUnspecified: int := 0
  const ReasonAACompromise: int := 10

  datatype RevokeRequest = RevokeRequest(
    serial: string,
    ott: string,
    reasonCode: int,
    reason: string,
    passive: bool)

  /** The API errors this endpoint produces, by HTTP status. */
  datatype APIError =
    | BadRequest(message: string)
    | NotImplemented(message: string)
    | Unauthorized(cause: string)
    | Forbidden(cause: string)

  /** Validate: the serial, then the reason code, then passivity, in that order. */
  function Validate(r: RevokeRequest): (e: Option<APIError>)
    ensures e.None? <==> (r.serial != "" && ReasonUnspecified <= r.reasonCode <= ReasonAACompromise && r.passive)
    ensures r.serial == "" ==> e == Some(BadRequest("missing serial"))
    ensures (r.serial != "" && !(ReasonUnspecified <= r.reasonCode <= ReasonAACompromise))
              ==> e == Some(BadRequest("reasonCode out of bounds"))
    ensures (r.serial != "" && ReasonUnspecified <= r.reasonCode <= ReasonAACompromise && !r.passive)
              ==> e == Some(NotImplemented("non-passive revocation not implemented"))
  {
    if r.serial == "" then Some(BadRequest("missing serial"))
    else if r.reasonCode < ReasonUnspecified || r.reasonCode > ReasonAACompromise
    then Some(BadRequest("reasonCode out of bounds"))
    else if !r.passive then Some(NotImplemented("non-passive revocation not implemented"))
    else None
  }

  /** A client certificate, by its serial number printed in decimal. */
  datatype PeerCertificate = PeerCertificate(serialNumber: string)

  datatype RevokeOptions = RevokeOptions(
    serial: string,
    reason: string,
    reasonCode: int,
    passiveOnly: bool,
    ott: string,
    crt: Option<PeerCertificate>,
    mtls: bool)

  /** The options the handler builds before it authorises the request. */
  function InitialOptions(body: RevokeRequest): RevokeOptions {
    RevokeOptions(body.serial, body.reason, body.reasonCode, body.passive, "", None, false)
  }

  /** The authorisation branch of Revoke: a request with a one-time token is
      authorised by the token; one without must come over mutual TLS with a client
      certificate whose serial is the one being revoked. peerCertificates is None
      when the connection is not TLS; authorize gives the token check's error. */
  function AuthorizeRevoke(body: RevokeRequest, peerCertificates: Option<seq<PeerCertificate>>,
                           authorize: string -> Option<string>): Result<RevokeOptions, APIError>
  {
    var opts := InitialOptions(body);
    if |body.ott| > 0 then
      match authorize(body.ott)
      case Some(cause) => Err(Unauthorized(cause))
      case None => Ok(opts.(ott := body.ott))
    else if peerCertificates.None? || |peerCertificates.value| == 0 then
      Err(BadRequest("missing ott or peer certificate"))
    else
      var crt := peerCertificates.value[0];
      if crt.serialNumber != opts.serial then
        Err(BadRequest("revoke: serial number in mtls certificate different than body"))
      else Ok(opts.(crt := Some(crt), mtls := true))
  }

  /** The handler: read the body, validate it, authorise it, then revoke.
      readBody is the JSON decoding of the request, revoke the authority's error. */
  function Revoke(readBody: Result<RevokeRequest, string>,
                  peerCertificates: Option<seq<PeerCertificate>>,
                  authorize: string -> Option<string>,
                  revoke: RevokeOptions -> Option<string>): Result<string, APIError>
  {
    match readBody
    case Err(cause) => Err(BadRequest("error reading request body"))
    case Ok(body) =>
      match Validate(body)
      case Some(e) => Err(e)
      case None =>
        match AuthorizeRevoke(body, peerCertificates, authorize)
        case Err(e) => Err(e)
        case Ok(opts) =>
          match revoke(opts)
          case Some(cause) => Err(Forbidden(cause))
          case None => Ok("ok")
  }

  /** A revocation is attempted only for a valid, passive request, and the options
      passed to the authority carry the body's serial and reason. It is either
      token-authorised, or made over mutual TLS by the certificate being revoked. */
  lemma AuthorizedRevocation(body: RevokeRequest, peerCertificates: Option<seq<PeerCertificate>>,
                             authorize: string -> Option<string>)
    requires AuthorizeRevoke(body, peerCertificates, authorize).Ok?
    ensures var o := AuthorizeRevoke(body, peerCertificates, authorize).value;
            o.serial == body.serial && o.reason == body.reason
            && o.reasonCode == body.reasonCode && o.passiveOnly == body.passive
            && (|body.ott| > 0 ==> o.ott == body.ott && !o.mtls && authorize(body.ott).None?)
            && (|body.ott| == 0 ==>
                 o.mtls && peerCertificates.Some? && |peerCertificates.value| > 0
                 && o.crt == Some(peerCertificates.value[0])
                 && peerCertificates.value[0].serialNumber == body.serial)
  {
  }

  /** Without a token, a connection without a client certificate, or one whose first
      certificate has another serial, is a bad request. */
  lemma MTLSRefusals(body: RevokeRequest, peerCertificates: Option<seq<PeerCertificate>>,
                     authorize: string -> Option<string>)
    requires |body.ott| == 0
    ensures (peerCertificates.None? || |peerCertificates.value| == 0) ==>
              AuthorizeRevoke(body, peerCertificates, authorize)
                == Err(BadRequest("missing ott or peer certificate"))
    ensures (peerCertificates.Some? && |peerCertificates.value| > 0
             && peerCertificates.value[0].serialNumber != body.serial) ==>
              AuthorizeRevoke(body, peerCertificates, authorize).Err?
  {
  }

  /** The handler succeeds exactly when the body decodes and validates, the request
      is authorised and the authority revokes. */
  lemma RevokeSucceeds(readBody: Result<RevokeRequest, string>,
                       peerCertificates: Option<seq<PeerCertificate>>,
                       authorize: string -> Option<string>,
                       revoke: RevokeOptions -> Option<string>)
    ensures Revoke(readBody, peerCertificates, authorize, revoke).Ok?
            <==> (readBody.Ok? && Validate(readBody.value).None?
                  && AuthorizeRevoke(readBody.value, peerCertificates, authorize).Ok?
                  && revoke(AuthorizeRevoke(readBody.value, peerCertificates, authorize).value).None?)
    ensures (readBody.Ok? && Validate(readBody.value).Some?) ==>
              Revoke(readBody, peerCertificates, authorize, revoke) == Err(Validate(readBody.value).value)
  {
  }
}
