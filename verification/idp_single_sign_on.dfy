/** The IdP's single sign-on page. A session that already holds SSO state
    (the browser is back from a local login) is answered at once; otherwise
    the AuthnRequest is received, a local login is required when the
    request forces authentication or when the user is not authenticated and
    the request allows creating an identifier (section 3.4.1 of SAML 2.0
    Core), and in that case the state is saved and the browser sent to the
    login page; otherwise the Response is built and sent. */
module IdpSingleSignOn {
  import opened Outcomes
  import opened Saml
  import opened ArtifactCache
  import opened IdpUtil

  /** The browser session's "sso" slot. */
  class Session {
    var sso: Option<SsoAuthnState>

    constructor ()
      ensures sso == None
    {
      sso := None;
    }
  }

  /** AllowCreate of the request's NameIDPolicy; false when it has none. */
  predicate AllowCreate(request: AuthnRequest)
  {
    request.nameIdPolicy.Some? && request.nameIdPolicy.value.allowCreate
  }

  predicate RequireLocalLogin(request: AuthnRequest, user: User)
  {
    request.forceAuthn || (!user.isAuthenticated && AllowCreate(request))
  }

  /** The state made from a received request: the request, its relay state,
      the binding the toolkit reads from its ProtocolBinding, and its ACS URL.
      Fails when the toolkit cannot read the ProtocolBinding. */
  function NewSsoState(tk: Toolkit, received: Received<AuthnRequest>): Result<SsoAuthnState>
  {
    var binding :- tk.uriToBinding(received.msg.protocolBinding);
    Ok(SsoAuthnState(received.msg, received.relayState, binding, received.msg.assertionConsumerServiceUrl))
  }

  datatype SsoResult = SsoResult(sso: Option<SsoAuthnState>, cache: CacheMap, reply: IdpReply, error: Option<Failure>)

  /** Build the Response for the current user and send it as `state` says. */
  function Respond(cfg: IdpConfig, tk: Toolkit, user: User, handle: seq<bv8>, state: SsoAuthnState,
                   sso: Option<SsoAuthnState>, cache: CacheMap): SsoResult
  {
    var s := SendEffect(cfg, tk, BuildResponse(cfg.baseUrl, user), state, handle, cache);
    SsoResult(sso, s.cache, s.reply, None)
  }

  /** One load of the page, given the session slot and the cache before it. */
  function SsoStep(cfg: IdpConfig, tk: Toolkit, req: HttpRequest, user: User, handle: seq<bv8>,
                   sso: Option<SsoAuthnState>, cache: CacheMap): (r: SsoResult)
    // saved state: the request is not looked at; the saved state is answered
    ensures sso.Some? ==> r == Respond(cfg, tk, user, handle, sso.value, sso, cache)
    ensures var p := ProcessAuthnRequest(cfg, tk, req);
      && (sso.None? && p.Fail? ==> r == SsoResult(None, cache, NoReply, Some(p.error)))
      && (sso.None? && p == Ok(None) ==> r == SsoResult(None, cache, NoReply, None))
      && (sso.None? && p.Ok? && p.value.Some? ==>
            var s := NewSsoState(tk, p.value.value);
            && (s.Fail? ==> r == SsoResult(None, cache, NoReply, Some(s.error)))
            && (s.Ok? ==>
                  if RequireLocalLogin(s.value.authnRequest, user)
                  then r == SsoResult(Some(s.value), cache, LoginRedirect, None)
                  else r == Respond(cfg, tk, user, handle, s.value, None, cache)))
    // the slot is written only on the detour, and never cleared
    ensures r.sso != sso ==> sso.None? && r.sso.Some? && r.reply == LoginRedirect
    // an exception sends nothing and changes nothing
    ensures r.error.Some? ==> r.reply == NoReply && r.cache == cache && r.sso == sso
    // the cache only ever gains the signed Response, under the artifact posted in this load
    ensures cache.Keys <= r.cache.Keys
    ensures forall k :: k in r.cache && (k !in cache || r.cache[k] != cache[k]) ==>
      && r.reply.ArtifactForm? && k == tk.artifactText(r.reply.artifact)
      && r.cache[k] == Entry(XmlValue(SignedXml(cfg, tk, BuildResponse(cfg.baseUrl, user))), OneHour)
    // a Response that leaves is the signed Response built for the current user
    ensures r.reply.PostForm? ==> r.reply.response == tk.sign(BuildResponse(cfg.baseUrl, user), cfg.idpCert)
  {
    match sso
    case Some(state) =>
      Respond(cfg, tk, user, handle, state, sso, cache)
    case None =>
      match ProcessAuthnRequest(cfg, tk, req)
      case Fail(e) => SsoResult(None, cache, NoReply, Some(e))
      case Ok(None) => SsoResult(None, cache, NoReply, None)
      case Ok(Some(received)) =>
        match NewSsoState(tk, received)
        case Fail(e) => SsoResult(None, cache, NoReply, Some(e))
        case Ok(state) =>
          if RequireLocalLogin(state.authnRequest, user) then
            SsoResult(Some(state), cache, LoginRedirect, None)
          else
            Respond(cfg, tk, user, handle, state, None, cache)
  }

  /** OnLoad of SingleSignOnService. `user` is the page's User.Identity and
      `handle` the random artifact handle SendResponse would draw. */
  method OnLoad(cfg: IdpConfig, tk: Toolkit, req: HttpRequest, user: User, handle: seq<bv8>,
                session: Session, cache: CacheProvider) returns (reply: IdpReply, error: Option<Failure>)
    modifies session, cache
    ensures SsoResult(session.sso, cache.entries, reply, error)
         == SsoStep(cfg, tk, req, user, handle, old(session.sso), old(cache.entries))
  {
    var ssoState := session.sso;
    if ssoState == None {
      var received := ProcessAuthnRequest(cfg, tk, req);
      if received.Fail? {
        // caught and traced
        return NoReply, Some(received.error);
      }
      if received.value == None {
        return NoReply, None;
      }
      var authnRequest := received.value.value.msg;
      var forceAuthn := authnRequest.forceAuthn;
      var allowCreate := false;
      if authnRequest.nameIdPolicy != None {
        allowCreate := authnRequest.nameIdPolicy.value.allowCreate;
      }
      var idpProtocolBinding := tk.uriToBinding(authnRequest.protocolBinding);
      if idpProtocolBinding.Fail? {
        // caught and traced; nothing is saved
        return NoReply, Some(idpProtocolBinding.error);
      }
      ssoState := Some(SsoAuthnState(authnRequest, received.value.value.relayState,
                                     idpProtocolBinding.value,
                                     authnRequest.assertionConsumerServiceUrl));
      var requireLocalLogin := false;
      if forceAuthn {
        requireLocalLogin := true;
      } else if !user.isAuthenticated && allowCreate {
        requireLocalLogin := true;
      }
      if requireLocalLogin {
        session.sso := ssoState;
        return LoginRedirect, None;
      }
    }
    var samlResponse := BuildResponse(cfg.baseUrl, user);
    reply := SendResponse(cfg, tk, samlResponse, ssoState.value, handle, cache);
    error := None;
  }

  /** ForceAuthn sends the browser to the local login whoever the user is. */
  lemma ForceAuthnAlwaysDetours(cfg: IdpConfig, tk: Toolkit, req: HttpRequest, user: User, handle: seq<bv8>,
                                cache: CacheMap, received: Received<AuthnRequest>, state: SsoAuthnState)
    requires ProcessAuthnRequest(cfg, tk, req) == Ok(Some(received))
    requires NewSsoState(tk, received) == Ok(state)
    requires received.msg.forceAuthn
    ensures SsoStep(cfg, tk, req, user, handle, None, cache)
         == SsoResult(Some(state), cache, LoginRedirect, None)
  {
  }

  /** Without ForceAuthn an authenticated user is answered at once with
      Success, and the state is not saved. */
  lemma AuthenticatedUserAnsweredAtOnce(cfg: IdpConfig, tk: Toolkit, req: HttpRequest, user: User,
                                        handle: seq<bv8>, cache: CacheMap, received: Received<AuthnRequest>,
                                        state: SsoAuthnState)
    requires ProcessAuthnRequest(cfg, tk, req) == Ok(Some(received))
    requires NewSsoState(tk, received) == Ok(state)
    requires !received.msg.forceAuthn && user.isAuthenticated
    ensures var r := SsoStep(cfg, tk, req, user, handle, None, cache);
      && r.sso == None
      && r == Respond(cfg, tk, user, handle, state, None, cache)
      && HasSuccessStatus(BuildResponse(cfg.baseUrl, user))
  {
  }

  /** Without ForceAuthn and AllowCreate an unauthenticated user is not sent
      to log in: an AuthnFailed Response goes back at once. */
  lemma NoAllowCreateAnswersAuthnFailed(cfg: IdpConfig, tk: Toolkit, req: HttpRequest, user: User,
                                        handle: seq<bv8>, cache: CacheMap, received: Received<AuthnRequest>,
                                        state: SsoAuthnState)
    requires ProcessAuthnRequest(cfg, tk, req) == Ok(Some(received))
    requires NewSsoState(tk, received) == Ok(state)
    requires !received.msg.forceAuthn && !AllowCreate(received.msg) && !user.isAuthenticated
    ensures var r := SsoStep(cfg, tk, req, user, handle, None, cache);
      && r.reply != LoginRedirect
      && r == Respond(cfg, tk, user, handle, state, None, cache)
      && BuildResponse(cfg.baseUrl, user).status.secondary == Some(AuthnFailed)
  {
  }

  /** The detour and the return: a request that needs a local login saves
      its state; the next load of the page in that session, after the user
      has logged in, answers that saved request with Success whatever the
      new HTTP request holds, and leaves the state in the session. */
  lemma DetourThenAnswer(cfg: IdpConfig, tk: Toolkit, req: HttpRequest, later: HttpRequest,
                         before: User, after: User, handle: seq<bv8>, cache: CacheMap,
                         received: Received<AuthnRequest>, state: SsoAuthnState)
    requires ProcessAuthnRequest(cfg, tk, req) == Ok(Some(received))
    requires NewSsoState(tk, received) == Ok(state)
    requires RequireLocalLogin(received.msg, before)
    requires after.isAuthenticated
    ensures var first := SsoStep(cfg, tk, req, before, handle, None, cache);
      var second := SsoStep(cfg, tk, later, after, handle, first.sso, first.cache);
      && first.reply == LoginRedirect
      && first.cache == cache
      && second == Respond(cfg, tk, after, handle, state, Some(state), cache)
      && HasSuccessStatus(BuildResponse(cfg.baseUrl, after))
  {
  }

  /** A ProtocolBinding the toolkit cannot read raises an exception before
      the state is saved: nothing is saved, sent or cached. */
  lemma UnreadableProtocolBindingSavesNothing(cfg: IdpConfig, tk: Toolkit, req: HttpRequest, user: User,
                                              handle: seq<bv8>, cache: CacheMap, received: Received<AuthnRequest>)
    requires ProcessAuthnRequest(cfg, tk, req) == Ok(Some(received))
    requires tk.uriToBinding(received.msg.protocolBinding).Fail?
    ensures SsoStep(cfg, tk, req, user, handle, None, cache)
         == SsoResult(None, cache, NoReply, Some(tk.uriToBinding(received.msg.protocolBinding).error))
  {
  }

  /** A saved state whose binding is neither HTTP-POST nor HTTP-Artifact is
      answered with nothing, on this load and, as the state is never
      cleared, on every later load in the session. */
  lemma SavedUnsupportedBindingNeverAnswers(cfg: IdpConfig, tk: Toolkit, req: HttpRequest, user: User,
                                            handle: seq<bv8>, cache: CacheMap, state: SsoAuthnState)
    requires state.idpProtocolBinding !in {Post, Artifact}
    ensures SsoStep(cfg, tk, req, user, handle, Some(state), cache) == SsoResult(Some(state), cache, NoReply, None)
  {
  }
}
