/** The SAML 2.0 vocabulary both providers work with, and the SAML toolkit
    they call. The toolkit is not modelled: each of its operations is a
    field of `Toolkit`, a function about which nothing is assumed, so every
    property proved here holds whatever the toolkit does. */
module Saml {
  import opened Outcomes

  /** Binding identifiers of sections 3.4.1, 3.5.1 and 3.6.1 of SAML 2.0 Bindings. */
  const HttpRedirectUri: string := "urn:oasis:names:tc:SAML:2.0:bindings:HTTP-Redirect"
  const HttpPostUri: string := "urn:oasis:names:tc:SAML:2.0:bindings:HTTP-POST"
  const HttpArtifactUri: string := "urn:oasis:names:tc:SAML:2.0:bindings:HTTP-Artifact"

  /** The query-string parameter that names the binding a message arrived by. */
  const BindingVarName: string := "binding"

  datatype Binding = Redirect | Post | Artifact | Other

  /** The binding a URI names; a missing or unknown URI names none of the three. */
  function BindingOf(uri: Option<string>): (b: Binding)
    ensures b == Redirect <==> uri == Some(HttpRedirectUri)
    ensures b == Post <==> uri == Some(HttpPostUri)
    ensures b == Artifact <==> uri == Some(HttpArtifactUri)
  {
    match uri
    case None => Other
    case Some(u) =>
      if u == HttpRedirectUri then Redirect
      else if u == HttpPostUri then Post
      else if u == HttpArtifactUri then Artifact
      else Other
  }

  /** A certificate loaded at start-up (its key pair for the own party). */
  datatype Cert = Cert(subject: string)

  /** A serialized SAML message. */
  datatype Xml = Xml(text: string)

  /** What the toolkit decoders read from an inbound HTTP request. */
  datatype HttpRequest = HttpRequest(rawUrl: string, query: map<string, string>, form: map<string, string>, body: string)

  function QueryValue(req: HttpRequest, name: string): Option<string>
  {
    if name in req.query then Some(req.query[name]) else None
  }

  /** The local identity of the browser's user at the page. */
  datatype User = User(isAuthenticated: bool, name: string)

  datatype NameIdPolicy = NameIdPolicy(allowCreate: bool)

  /** The parts of an AuthnRequest (section 3.4.1 of SAML 2.0 Core) the IdP reads. */
  datatype AuthnRequest = AuthnRequest(
    forceAuthn: bool,
    nameIdPolicy: Option<NameIdPolicy>,
    protocolBinding: Option<string>,
    assertionConsumerServiceUrl: Option<string>)

  /** Status codes of section 3.2.2.2 of SAML 2.0 Core used here. */
  datatype StatusCode = Success | Responder | AuthnFailed

  datatype Status = Status(primary: StatusCode, secondary: Option<StatusCode>, message: Option<string>)

  datatype Statement = AuthnStatement

  /** An assertion: its subject's name identifier (None when the subject or
      its NameID is absent) and its statements. */
  datatype Assertion = Assertion(nameId: Option<string>, statements: seq<Statement>)

  datatype Response = Response(issuer: string, status: Status, assertions: seq<Assertion>)

  /** The primary status code is Success (what the IdP writes; the SP asks
      the toolkit instead). */
  predicate HasSuccessStatus(r: Response)
  {
    r.status.primary == Success
  }

  /** A decoded message and the RelayState that travelled with it. */
  datatype Received<M> = Received(msg: M, relayState: Option<string>)

  /** A type 0x0004 artifact (section 3.6.4 of SAML 2.0 Bindings): a SourceID
      derived from the issuer and a random MessageHandle. */
  datatype Artifact = Artifact0004(sourceId: seq<bv8>, messageHandle: seq<bv8>)

  datatype ArtifactResolve = ArtifactResolve(issuer: string, artifact: string)

  datatype ArtifactResponse = ArtifactResponse(issuer: string, message: Xml)

  /** The toolkit operations the pages call, each as an uninterpreted function. */
  datatype Toolkit = Toolkit(
    // AuthnRequest.Create(rawUrl, key): HTTP-Redirect decoding, which checks the detached signature itself
    decodeRedirectRequest: (string, Cert) -> Result<Received<AuthnRequest>>,
    // AuthnRequest.CreateFromHttpPost(request)
    decodePostRequest: HttpRequest -> Result<Received<AuthnRequest>>,
    // Response.Create(request)
    decodePostResponse: HttpRequest -> Result<Received<Response>>,
    // Saml2ArtifactType0004.CreateFromHttpArtifactQueryString(request)
    artifactFromQuery: HttpRequest -> Result<Received<Artifact>>,
    // Saml2ArtifactType0004.CreateFromHttpArtifactHttpForm(request)
    artifactFromForm: HttpRequest -> Result<Received<Artifact>>,
    // ArtifactResponse.SendSamlMessageReceiveAftifactResponse(url, resolve).Message: a network call
    sendArtifactResolve: (string, ArtifactResolve) -> Result<Xml>,
    // new AuthnRequest(xml), new Response(xml)
    parseAuthnRequest: Xml -> Result<AuthnRequest>,
    parseResponse: Xml -> Result<Response>,
    // ArtifactResolve.Create(request)
    parseArtifactResolve: HttpRequest -> Result<ArtifactResolve>,
    // new Saml2ArtifactType0004(artifactValue)
    parseArtifact: string -> Result<Artifact>,
    // Saml2ArtifactType0004.ToString()
    artifactText: Artifact -> string,
    // SamlArtifact.GetSourceId(url)
    sourceId: string -> seq<bv8>,
    // AuthnRequest.IsSigned(), AuthnRequest.Validate(cert), Response.Validate(cert)
    isSigned: AuthnRequest -> bool,
    validateRequest: (AuthnRequest, Cert) -> bool,
    validateResponse: (Response, Cert) -> bool,
    // Response.Sign(cert) followed by Response.GetXml()
    sign: (Response, Cert) -> Response,
    responseXml: Response -> Xml,
    // HttpUtility.UrlEncode on a non-null string
    urlEncode: string -> string,
    // SamlBindingUri.UriToBinding(uri): may throw on a missing or unknown URI
    uriToBinding: Option<string> -> Result<Binding>,
    // Response.IsSuccess()
    isSuccess: Response -> bool)
}
