/** The Identity Provider's helpers: receiving an AuthnRequest over any of
    the three bindings, building the Response, and sending it back over the
    binding the request asked for. */
module IdpUtil {
  import opened Outcomes
  import opened Saml
  import opened ArtifactCache

  /** What the IdP pages read from the application state and configuration:
      its own base URL ("~/" made absolute), the SP's certificate, its own
      certificate, and the SP's artifact resolution endpoint. */
  datatype IdpConfig = IdpConfig(
    baseUrl: string,
    spCert: Cert,
    idpCert: Cert,
    artifactServiceProviderUrl: string)

  /** The state an SSO exchange needs until its Response is sent; it is kept
      in the session across a local login. */
  datatype SsoAuthnState = SsoAuthnState(
    authnRequest: AuthnRequest,
    relayState: Option<string>,
    idpProtocolBinding: Binding,
    assertionConsumerServiceUrl: Option<string>)

  /** What an IdP page writes to the browser. */
  datatype IdpReply =
    | NoReply
    | LoginRedirect
    | PostForm(acsUrl: Option<string>, relayState: Option<string>, response: Response)
    | ArtifactForm(acsUrl: Option<string>, relayState: Option<string>, artifact: Artifact)

  /** The text of the AuthnFailed status message. */
  const NotAuthenticatedMessage: string := "The user is not authenticated at the identity provider"

  /** The arms of the binding switch of ProcessAuthnRequest: decode the
      request and find its relay state. */
  function ReceiveAuthnRequest(cfg: IdpConfig, tk: Toolkit, req: HttpRequest, b: Binding): (r: Result<Received<AuthnRequest>>)
    requires b != Other
    ensures b == Redirect ==> r == tk.decodeRedirectRequest(req.rawUrl, cfg.spCert)
    ensures b == Post ==> r == tk.decodePostRequest(req)
    // for Artifact the request is the one the SP's resolver returns for the
    // artifact in the query string, asked for with the IdP as issuer; the
    // relay state comes from the query string; each step's exception ends it
    ensures b == Artifact ==>
      var httpArtifact := tk.artifactFromQuery(req);
      && (httpArtifact.Fail? ==> r == Fail(httpArtifact.error))
      && (httpArtifact.Ok? ==>
            var message := tk.sendArtifactResolve(cfg.artifactServiceProviderUrl,
                             ArtifactResolve(cfg.baseUrl, tk.artifactText(httpArtifact.value.msg)));
            && (message.Fail? ==> r == Fail(message.error))
            && (message.Ok? ==>
                  && (tk.parseAuthnRequest(message.value).Fail? ==> r == Fail(tk.parseAuthnRequest(message.value).error))
                  && (tk.parseAuthnRequest(message.value).Ok? ==>
                        r == Ok(Received(tk.parseAuthnRequest(message.value).value, httpArtifact.value.relayState)))))
  {
    match b
    case Redirect =>
      tk.decodeRedirectRequest(req.rawUrl, cfg.spCert)
    case Post =>
      tk.decodePostRequest(req)
    case Artifact =>
      var httpArtifact :- tk.artifactFromQuery(req);
      var resolve := ArtifactResolve(cfg.baseUrl, tk.artifactText(httpArtifact.msg));
      var message :- tk.sendArtifactResolve(cfg.artifactServiceProviderUrl, resolve);
      var authnRequest :- tk.parseAuthnRequest(message);
      Ok(Received(authnRequest, httpArtifact.relayState))
  }

  /** ProcessAuthnRequest: an unknown binding gives no request and no
      exception; HTTP-Redirect returns before the embedded-signature check;
      for HTTP-POST and HTTP-Artifact a request that declares itself signed
      is accepted only if it validates against the SP's certificate, and an
      unsigned one is accepted unchecked. */
  function ProcessAuthnRequest(cfg: IdpConfig, tk: Toolkit, req: HttpRequest): (r: Result<Option<Received<AuthnRequest>>>)
    ensures var b := BindingOf(QueryValue(req, BindingVarName));
      && (r == Ok(None) <==> b == Other)
      && (b != Other && ReceiveAuthnRequest(cfg, tk, req, b).Fail? ==>
            r == Fail(ReceiveAuthnRequest(cfg, tk, req, b).error))
      && (b == Redirect && ReceiveAuthnRequest(cfg, tk, req, b).Ok? ==>
            r == Ok(Some(ReceiveAuthnRequest(cfg, tk, req, b).value)))
      && (b in {Post, Artifact} && ReceiveAuthnRequest(cfg, tk, req, b).Ok? ==>
            var m := ReceiveAuthnRequest(cfg, tk, req, b).value;
            && (r.Ok? <==> !tk.isSigned(m.msg) || tk.validateRequest(m.msg, cfg.spCert))
            && (r.Ok? ==> r == Ok(Some(m)))
            && (r.Fail? ==> r.error == RequestSignatureInvalid))
  {
    var b := BindingOf(QueryValue(req, BindingVarName));
    if b == Other then
      Ok(None)
    else
      var received :- ReceiveAuthnRequest(cfg, tk, req, b);
      if b == Redirect then
        Ok(Some(received))
      else if tk.isSigned(received.msg) && !tk.validateRequest(received.msg, cfg.spCert) then
        Fail(RequestSignatureInvalid)
      else
        Ok(Some(received))
  }

  /** BuildResponse: Success with exactly one assertion about the local user,
      carrying one AuthnStatement, when the user is authenticated; otherwise
      Responder/AuthnFailed with a message and no assertion. The issuer is
      the IdP's base URL either way. */
  function BuildResponse(issuerUrl: string, user: User): (r: Response)
    ensures r.issuer == issuerUrl
    ensures HasSuccessStatus(r) <==> user.isAuthenticated
    ensures HasSuccessStatus(r) ==>
      && r.status.secondary == None
      && |r.assertions| == 1
      && r.assertions[0].nameId == Some(user.name)
      && r.assertions[0].statements == [AuthnStatement]
    ensures !HasSuccessStatus(r) ==>
      && r.status == Status(Responder, Some(AuthnFailed), Some(NotAuthenticatedMessage))
      && r.assertions == []
  {
    if user.isAuthenticated then
      Response(issuerUrl, Status(Success, None, None), [Assertion(Some(user.name), [AuthnStatement])])
    else
      Response(issuerUrl, Status(Responder, Some(AuthnFailed), Some(NotAuthenticatedMessage)), [])
  }

  /** The XML of a Response signed with the IdP's key. */
  function SignedXml(cfg: IdpConfig, tk: Toolkit, response: Response): Xml
  {
    tk.responseXml(tk.sign(response, cfg.idpCert))
  }

  /** The artifact SendResponse creates from the random message handle. */
  function NewArtifact(cfg: IdpConfig, tk: Toolkit, handle: seq<bv8>): Artifact
  {
    Artifact0004(tk.sourceId(cfg.baseUrl), handle)
  }

  datatype Sent = Sent(cache: CacheMap, reply: IdpReply)

  /** The effect of SendResponse: the Response is signed before the binding
      is looked at; HTTP-POST posts it to the ACS URL; HTTP-Artifact caches
      its signed XML for one hour under the artifact's string form and
      posts the artifact; any other binding sends nothing. Nothing is ever
      removed from the cache, and the only thing added is the signed XML. */
  function SendEffect(cfg: IdpConfig, tk: Toolkit, response: Response, state: SsoAuthnState,
                      handle: seq<bv8>, cache: CacheMap): (s: Sent)
    ensures forall k :: k in cache ==> k in s.cache
    ensures forall k :: k in s.cache && (k !in cache || s.cache[k] != cache[k]) ==>
      && s.reply.ArtifactForm? && k == tk.artifactText(s.reply.artifact)
      && s.cache[k] == Entry(XmlValue(SignedXml(cfg, tk, response)), OneHour)
    ensures s.reply.PostForm? <==> state.idpProtocolBinding == Post
    ensures s.reply.ArtifactForm? <==> state.idpProtocolBinding == Artifact
    ensures s.reply == NoReply <==> state.idpProtocolBinding !in {Post, Artifact}
    ensures s.reply.PostForm? ==> s.cache == cache && s.reply.response == tk.sign(response, cfg.idpCert)
    ensures s.reply.ArtifactForm? ==>
      && s.reply.artifact.sourceId == tk.sourceId(cfg.baseUrl)
      && tk.artifactText(s.reply.artifact) in s.cache
      && s.cache[tk.artifactText(s.reply.artifact)] == Entry(XmlValue(SignedXml(cfg, tk, response)), OneHour)
    ensures s.reply.PostForm? || s.reply.ArtifactForm? ==>
      s.reply.acsUrl == state.assertionConsumerServiceUrl && s.reply.relayState == state.relayState
    ensures !s.reply.ArtifactForm? ==> s.cache == cache
  {
    var signed := tk.sign(response, cfg.idpCert);
    match state.idpProtocolBinding
    case Post =>
      Sent(cache, PostForm(state.assertionConsumerServiceUrl, state.relayState, signed))
    case Artifact =>
      var httpArtifact := NewArtifact(cfg, tk, handle);
      Sent(Apply(cache, InsertOp(tk.artifactText(httpArtifact), XmlValue(tk.responseXml(signed)), OneHour)),
           ArtifactForm(state.assertionConsumerServiceUrl, state.relayState, httpArtifact))
    case _ =>
      Sent(cache, NoReply)
  }

  /** SendResponse, on the shared cache. `handle` is the random value
      SamlArtifact.GetHandle() returns. */
  method SendResponse(cfg: IdpConfig, tk: Toolkit, response: Response, state: SsoAuthnState,
                      handle: seq<bv8>, cache: CacheProvider) returns (reply: IdpReply)
    modifies cache
    ensures Sent(cache.entries, reply) == SendEffect(cfg, tk, response, state, handle, old(cache.entries))
  {
    var signed := tk.sign(response, cfg.idpCert);
    match state.idpProtocolBinding {
      case Post =>
        reply := PostForm(state.assertionConsumerServiceUrl, state.relayState, signed);
      case Artifact =>
        var httpArtifact := NewArtifact(cfg, tk, handle);
        cache.Insert(tk.artifactText(httpArtifact), XmlValue(tk.responseXml(signed)), OneHour);
        reply := ArtifactForm(state.assertionConsumerServiceUrl, state.relayState, httpArtifact);
      case _ =>
        reply := NoReply;
    }
  }

  /** The HTTP-Redirect arm is left before the embedded-signature check:
      what IsSigned and Validate say about the request makes no difference. */
  lemma RedirectSkipsEmbeddedCheck(cfg: IdpConfig, tk: Toolkit, req: HttpRequest,
                                   isSigned: AuthnRequest -> bool, validate: (AuthnRequest, Cert) -> bool)
    requires BindingOf(QueryValue(req, BindingVarName)) == Redirect
    ensures ProcessAuthnRequest(cfg, tk.(isSigned := isSigned, validateRequest := validate), req)
         == ProcessAuthnRequest(cfg, tk, req)
  {
  }
}
