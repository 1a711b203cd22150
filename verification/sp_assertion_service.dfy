/** The SP's assertion consumer service. It receives the Response by
    HTTP-POST or HTTP-Artifact, validates its signature against the IdP's
    certificate whatever the binding, and then either signs the asserted
    user in and sends the browser to the resource saved under the relay
    state, or sends it to the login choice page with the status message. */
module SpAssertionService {
  import opened Outcomes
  import opened Saml
  import opened ArtifactCache

  /** What the SP pages read from the application state and configuration:
      the SP's base URL, the IdP's certificate, and the IdP's artifact
      resolution endpoint. */
  datatype SpConfig = SpConfig(baseUrl: string, idpCert: Cert, artifactIdProviderUrl: string)

  /** What the page writes to the browser: nothing, an authentication
      cookie for a user together with a redirect, or a redirect to the error
      page. */
  datatype SpReply = NoAction | SignIn(userName: string, resourceUrl: string) | ErrorRedirect(url: string)

  datatype AcsResult = AcsResult(cache: CacheMap, reply: SpReply, error: Option<Failure>)

  /** The query-string parameter that carries the error message. */
  const ErrorVarName: string := "error"
  const LoginChoicePage: string := "~/LoginChoice.aspx"

  /** The arms of the binding switch of ExtractResponse. */
  function ReceiveResponse(cfg: SpConfig, tk: Toolkit, req: HttpRequest, b: Binding): (r: Result<Received<Response>>)
    requires b in {Post, Artifact}
    ensures b == Post ==> r == tk.decodePostResponse(req)
    // for Artifact the Response is the one the IdP's resolver returns for the
    // artifact in the form, asked for with the SP as issuer; the relay state
    // comes from the form; each step's exception ends it
    ensures b == Artifact ==>
      var httpArtifact := tk.artifactFromForm(req);
      && (httpArtifact.Fail? ==> r == Fail(httpArtifact.error))
      && (httpArtifact.Ok? ==>
            var message := tk.sendArtifactResolve(cfg.artifactIdProviderUrl,
                             ArtifactResolve(cfg.baseUrl, tk.artifactText(httpArtifact.value.msg)));
            && (message.Fail? ==> r == Fail(message.error))
            && (message.Ok? ==>
                  && (tk.parseResponse(message.value).Fail? ==> r == Fail(tk.parseResponse(message.value).error))
                  && (tk.parseResponse(message.value).Ok? ==>
                        r == Ok(Received(tk.parseResponse(message.value).value, httpArtifact.value.relayState)))))
  {
    if b == Post then
      tk.decodePostResponse(req)
    else
      var httpArtifact :- tk.artifactFromForm(req);
      var resolve := ArtifactResolve(cfg.baseUrl, tk.artifactText(httpArtifact.msg));
      var message :- tk.sendArtifactResolve(cfg.artifactIdProviderUrl, resolve);
      var response :- tk.parseResponse(message);
      Ok(Received(response, httpArtifact.relayState))
  }

  /** What ExtractResponse produces. A binding other than HTTP-POST and
      HTTP-Artifact (HTTP-Redirect included) gives no response and no
      exception; every decoded response, whichever binding carried it, is
      returned only if it validates against the IdP's certificate, and
      otherwise the call fails. */
  function Extraction(cfg: SpConfig, tk: Toolkit, req: HttpRequest): (r: Result<Option<Received<Response>>>)
    ensures var b := BindingOf(QueryValue(req, BindingVarName));
      && (r == Ok(None) <==> b !in {Post, Artifact})
      && (b in {Post, Artifact} && ReceiveResponse(cfg, tk, req, b).Fail? ==>
            r == Fail(ReceiveResponse(cfg, tk, req, b).error))
      && (b in {Post, Artifact} && ReceiveResponse(cfg, tk, req, b).Ok? ==>
            var m := ReceiveResponse(cfg, tk, req, b).value;
            && (r.Ok? <==> tk.validateResponse(m.msg, cfg.idpCert))
            && (r.Ok? ==> r == Ok(Some(m)))
            && (r.Fail? ==> r.error == ResponseSignatureInvalid))
    ensures r.Ok? && r.value.Some? ==> tk.validateResponse(r.value.value.msg, cfg.idpCert)
  {
    var b := BindingOf(QueryValue(req, BindingVarName));
    if b !in {Post, Artifact} then
      Ok(None)
    else
      var received :- ReceiveResponse(cfg, tk, req, b);
      if !tk.validateResponse(received.msg, cfg.idpCert) then
        Fail(ResponseSignatureInvalid)
      else
        Ok(Some(received))
  }

  /** ExtractResponse, with the out parameters and the exception as a result. */
  method ExtractResponse(cfg: SpConfig, tk: Toolkit, req: HttpRequest) returns (r: Result<Option<Received<Response>>>)
    ensures r == Extraction(cfg, tk, req)
  {
    var bindingType := QueryValue(req, BindingVarName);
    var received: Received<Response>;
    match BindingOf(bindingType) {
      case Post =>
        var decoded := tk.decodePostResponse(req);
        if decoded.Fail? {
          return Fail(decoded.error);
        }
        received := decoded.value;
      case Artifact =>
        var httpArtifact := tk.artifactFromForm(req);
        if httpArtifact.Fail? {
          return Fail(httpArtifact.error);
        }
        var resolve := ArtifactResolve(cfg.baseUrl, tk.artifactText(httpArtifact.value.msg));
        var message := tk.sendArtifactResolve(cfg.artifactIdProviderUrl, resolve);
        if message.Fail? {
          return Fail(message.error);
        }
        var response := tk.parseResponse(message.value);
        if response.Fail? {
          return Fail(response.error);
        }
        received := Received(response.value, httpArtifact.value.relayState);
      case _ =>
        return Ok(None);
    }
    if !tk.validateResponse(received.msg, cfg.idpCert) {
      return Fail(ResponseSignatureInvalid);
    }
    r := Ok(Some(received));
  }

  /** The name identifier of the first assertion's subject. */
  function AssertedUser(response: Response): (r: Result<string>)
    ensures |response.assertions| == 0 <==> r == Fail(NoAssertion)
    ensures r.Ok? <==> |response.assertions| > 0 && response.assertions[0].nameId.Some?
    ensures r.Ok? ==> r.value == response.assertions[0].nameId.value
  {
    if |response.assertions| == 0 then Fail(NoAssertion)
    else match response.assertions[0].nameId
      case None => Fail(NoNameId)
      case Some(name) => Ok(name)
  }

  /** What SamlSuccessRedirect does. The asserted user is read before the
      cache is touched, so a Response without it fails with the relay state
      still cached. Otherwise the relay state is popped; the cookie is set
      and the browser redirected only when a resource URL came out, and then
      to exactly that URL, for exactly the asserted user. A missing relay
      state finds nothing. */
  function SuccessStep(response: Response, relayState: Option<string>, cache: CacheMap): (r: AcsResult)
    ensures AssertedUser(response).Fail? ==> r == AcsResult(cache, NoAction, Some(AssertedUser(response).error))
    ensures AssertedUser(response).Ok? ==>
      && r.cache == (if relayState.Some? then cache - {relayState.value} else cache)
      && (r.reply.SignIn? <==> relayState.Some? && relayState.value in cache && cache[relayState.value].value.UrlValue?)
      && (r.error.Some? <==> relayState.Some? && relayState.value in cache && cache[relayState.value].value.XmlValue?)
    ensures r.reply.SignIn? ==>
      && relayState.Some? && relayState.value in cache
      && cache[relayState.value].value == UrlValue(r.reply.resourceUrl)
      && AssertedUser(response) == Ok(r.reply.userName)
    ensures !r.reply.ErrorRedirect?
  {
    match AssertedUser(response)
    case Fail(e) => AcsResult(cache, NoAction, Some(e))
    case Ok(userName) =>
      match relayState
      case None => AcsResult(cache, NoAction, None)
      case Some(key) =>
        var rest := Apply(cache, RemoveOp(key));
        match Find(cache, key)
        case None => AcsResult(rest, NoAction, None)          // "Nothing in cache"
        case Some(UrlValue(resourceUrl)) => AcsResult(rest, SignIn(userName, resourceUrl), None)
        // the cast to string throws after the entry is gone
        case Some(XmlValue(_)) => AcsResult(rest, NoAction, Some(InvalidCast))
  }

  method SamlSuccessRedirect(response: Response, relayState: Option<string>, cache: CacheProvider)
    returns (reply: SpReply, error: Option<Failure>)
    modifies cache
    ensures AcsResult(cache.entries, reply, error) == SuccessStep(response, relayState, old(cache.entries))
  {
    if |response.assertions| == 0 {
      return NoAction, Some(NoAssertion);
    }
    var samlAssertion := response.assertions[0];
    if samlAssertion.nameId == None {
      return NoAction, Some(NoNameId);
    }
    var userName := samlAssertion.nameId.value;
    if relayState == None {
      return NoAction, None;
    }
    var resourceUrl := cache.Remove(relayState.value);
    if resourceUrl == None {
      return NoAction, None;
    }
    if resourceUrl.value.XmlValue? {
      return NoAction, Some(InvalidCast);
    }
    reply := SignIn(userName, resourceUrl.value.url);
    error := None;
  }

  /** The URL SamlErrorRedirect sends the browser to: the login choice page
      with the URL-encoded status message, or an empty value when the
      status has no message (UrlEncode(null) is null, formatted as ""). */
  function SamlErrorRedirect(tk: Toolkit, response: Response): (url: string)
    ensures var prefix := LoginChoicePage + "?" + ErrorVarName + "=";
      && |prefix| <= |url| && url[..|prefix|] == prefix
      && (response.status.message.None? ==> url == prefix)
      && (response.status.message.Some? ==> url[|prefix|..] == tk.urlEncode(response.status.message.value))
  {
    var errorMessage := match response.status.message
      case None => ""
      case Some(m) => tk.urlEncode(m);
    LoginChoicePage + "?" + ErrorVarName + "=" + errorMessage
  }

  /** One load of the page. Every exception is caught, and nothing is sent
      after one; a cookie is set only for a Response that validated and
      reports Success; a Response that does not report Success sends the
      browser to the error page and leaves the cache alone. */
  function AcsStep(cfg: SpConfig, tk: Toolkit, req: HttpRequest, cache: CacheMap): (r: AcsResult)
    ensures var p := Extraction(cfg, tk, req);
      && (p.Fail? ==> r == AcsResult(cache, NoAction, Some(p.error)))
      && (p == Ok(None) ==> r == AcsResult(cache, NoAction, None))
      && (p.Ok? && p.value.Some? && tk.isSuccess(p.value.value.msg) ==>
            r == SuccessStep(p.value.value.msg, p.value.value.relayState, cache))
      && (p.Ok? && p.value.Some? && !tk.isSuccess(p.value.value.msg) ==>
            r == AcsResult(cache, ErrorRedirect(SamlErrorRedirect(tk, p.value.value.msg)), None))
      && (r.reply.SignIn? ==>
            && p.Ok? && p.value.Some?
            && tk.validateResponse(p.value.value.msg, cfg.idpCert)
            && tk.isSuccess(p.value.value.msg))
    ensures r.error.Some? ==> r.reply == NoAction
  {
    match Extraction(cfg, tk, req)
    case Fail(e) => AcsResult(cache, NoAction, Some(e))
    case Ok(None) => AcsResult(cache, NoAction, None)
    case Ok(Some(received)) =>
      if tk.isSuccess(received.msg) then
        SuccessStep(received.msg, received.relayState, cache)
      else
        AcsResult(cache, ErrorRedirect(SamlErrorRedirect(tk, received.msg)), None)
  }

  /** OnLoad of AssertionService. */
  method OnLoad(cfg: SpConfig, tk: Toolkit, req: HttpRequest, cache: CacheProvider)
    returns (reply: SpReply, error: Option<Failure>)
    modifies cache
    ensures AcsResult(cache.entries, reply, error) == AcsStep(cfg, tk, req, old(cache.entries))
  {
    var samlResponse := ExtractResponse(cfg, tk, req);
    if samlResponse.Fail? {
      return NoAction, Some(samlResponse.error);
    }
    if samlResponse.value == None {
      return NoAction, None;
    }
    var received := samlResponse.value.value;
    if tk.isSuccess(received.msg) {
      reply, error := SamlSuccessRedirect(received.msg, received.relayState, cache);
    } else {
      reply, error := ErrorRedirect(SamlErrorRedirect(tk, received.msg)), None;
    }
  }

  /** The relay-state pop is destructive: after one sign-in, any later
      Response that comes back with the same relay state (a replay of the
      same one included) signs no one in, whatever cache calls come in
      between (`ops`: other loads of this page, the artifact responder, the
      page that starts SSO), as long as none of them inserts under that
      relay state again. */
  lemma RelayStateSignsInOnce(cfg: SpConfig, tk: Toolkit, req: HttpRequest, again: HttpRequest,
                              cache: CacheMap, ops: seq<CacheOp>, relay: string)
    requires AcsStep(cfg, tk, req, cache).reply.SignIn?
    requires Extraction(cfg, tk, req).value.value.relayState == Some(relay)
    requires Extraction(cfg, tk, again).Ok? && Extraction(cfg, tk, again).value.Some?
    requires Extraction(cfg, tk, again).value.value.relayState == Some(relay)
    requires Inserts(ops, relay) == 0
    ensures !AcsStep(cfg, tk, again, Replay(AcsStep(cfg, tk, req, cache).cache, ops)).reply.SignIn?
  {
    var after := AcsStep(cfg, tk, req, cache).cache;
    assert relay !in after;
    SingleUse(after, ops, relay);
  }
}
