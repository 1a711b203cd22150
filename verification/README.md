# SAML 2.0 SP-initiated Web Browser SSO: a Dafny model

This project models the control flow of a SAML 2.0 Web Browser SSO
deployment: an Identity Provider (IdP) and a Service Provider (SP) built
on a commercial SAML toolkit. It covers the HTTP-Redirect, HTTP-POST and
HTTP-Artifact bindings (sections 3.4, 3.5 and 3.6 of SAML 2.0 Bindings).
The toolkit's XML, encoding and signature work is not modelled. Each
toolkit call the pages make is a field of the `Saml.Toolkit` record: a
function about which nothing is assumed beyond its type. This covers
`SamlBindingUri.UriToBinding` and `Response.IsSuccess()` too. Calls whose
exceptions the pages catch return a `Result`. The rest (signing,
serialization, the artifact's string form, signature checks, URL
encoding, `IsSuccess`) are total functions, so the model takes them
never to throw (see "Left out"). Every property below holds whatever
values the toolkit returns.

What is modelled:

- **Artifact cache** (`artifact_cache.dfy`). The shared
  `SamlSettings.CacheProvider` is the class `CacheProvider` over a
  `map<string, Entry>`. `Insert` stores a value under a key. `Remove`
  pops the value and returns it. The pure `Apply`/`Replay` give the same
  operations on values. `SingleUse` proves by induction that a key is
  handed out at most once per insertion.
- **Binding dispatch** (`saml.dfy`, `idp_util.dfy`,
  `sp_assertion_service.dfy`). `BindingOf` maps the `binding` query value
  to `Redirect | Post | Artifact | Other`. The IdP switch is
  `ProcessAuthnRequest`. The SP switch is `Extraction`/`ExtractResponse`.
  The outbound switch is `SendEffect`/`SendResponse`.
- **IdP SSO page** (`idp_single_sign_on.dfy`). The per-session `sso`
  slot is a class `Session`. `OnLoad` is the page, written imperatively.
  It is proved equal to the step function `SsoStep`, and the properties
  are proved about `SsoStep`. `idp_runs.dfy` lifts the page to any
  sequence of loads over many sessions and one cache.
- **Response construction** (`BuildResponse`). It returns Success with
  one assertion, or Responder/AuthnFailed with none (status codes of
  section 3.2.2.2 of SAML 2.0 Core).
- **SP assertion consumer** (`sp_assertion_service.dfy`). Signature
  validation fails closed, then the page takes the success or the error
  branch. The relay state is popped, and the cookie is set only when the
  pop returns a URL.
- **Artifact responders** (`artifact_responder.dfy`,
  `idp_artifact_resolve.dfy`, `sp_artifact_resolve.dfy`). Each pops the
  artifact's entry, then replies with the cached XML or sends nothing.

Effects on the browser are recorded values, not ASP.NET calls. The IdP
reply is `IdpReply`: `NoReply`, `LoginRedirect`, a POST form or an
artifact form. The SP reply is `SpReply`: `NoAction`, `SignIn(user, url)`
(the auth cookie plus the redirect) or `ErrorRedirect(url)`. A page's
caught exception is its `error` result. It comes with no reply, and with
whatever cache change happened before the throw.

Behaviour of the code a reader may not expect, which the model keeps:

- The IdP never clears the session's SSO state after sending. A later
  AuthnRequest in the same session is therefore never read: the first
  saved request is answered again (`SsoStep`, `SavedStateStays`).
- `Insert` overwrites an existing key. There is no duplicate-key check.
- The SP checks no `InResponseTo`.
- The SP's switch has no HTTP-Redirect arm. A Response announced as
  HTTP-Redirect falls to the default and is ignored.
- An unauthenticated user whose request has neither ForceAuthn nor
  AllowCreate is not sent to log in. An AuthnFailed Response goes back at
  once (`NoAllowCreateAnswersAuthnFailed`).
- A request that needs a local login and whose ProtocolBinding the
  toolkit reads as neither HTTP-POST nor HTTP-Artifact is saved all the
  same. From then on every load in that session sends nothing
  (`SavedUnsupportedBindingNeverAnswers`, `SavedStateStays`).

## Model

| member | source | states |
|---|---|---|
| `Saml.BindingOf` | IdentityProvider/Util.cs:26-63 | The three binding URIs map to Redirect, Post and Artifact in both directions; a missing or any other value maps to Other |
| `ArtifactCache.Apply` | IdentityProvider/Util.cs:135 | Insert stores under its key; Remove deletes its key; every other entry is unchanged |
| `ArtifactCache.CacheProvider.Insert` | IdentityProvider/Util.cs:135 | The cache after `Insert` is the old cache with the key bound to the value and its TTL |
| `ArtifactCache.CacheProvider.Remove` | IdentityProvider/SamlArtifactResolve.aspx.cs:24 | Returns the value under the key, or None, and deletes that key alone: a destructive read |
| `ArtifactCache.SingleUse` | IdentityProvider/SamlArtifactResolve.aspx.cs:24-26 | Over any sequence of cache calls, successful removals of a key plus its final presence are at most its insertions plus its initial presence |
| `ArtifactCache.InsertThenRemoveTwice` | ServiceProvider/AssertionService.aspx.cs:78-85 | A removal right after an insertion returns the inserted value; a second removal returns nothing |
| `IdpUtil.ReceiveAuthnRequest` | IdentityProvider/Util.cs:26-57 | Redirect decodes the raw URL with the SP's key. POST takes the request and relay state the toolkit decoded. Artifact reads the artifact from the query string and sends an ArtifactResolve for its string form, with the IdP as issuer, to the SP's resolver. The request is the parse of the message that comes back, and the relay state is the query string's. An exception at any of the three steps is the result |
| `IdpUtil.ProcessAuthnRequest` | IdentityProvider/Util.cs:21-78 | Unknown binding iff no request and no exception; decode failures propagate; Redirect returns without the embedded-signature check; for POST and Artifact the call succeeds iff the request is unsigned or validates against the SP certificate, and fails with RequestSignatureInvalid otherwise |
| `IdpUtil.RedirectSkipsEmbeddedCheck` | IdentityProvider/Util.cs:28-33 | For HTTP-Redirect the result does not depend on IsSigned or Validate |
| `IdpUtil.BuildResponse` | IdentityProvider/Util.cs:85-108 | The issuer is the base URL; Success iff authenticated, then exactly one assertion naming the user with one AuthnStatement; otherwise Responder/AuthnFailed with the message and no assertion |
| `IdpUtil.SendEffect` | IdentityProvider/Util.cs:115-146 | The POST form carries the signed Response. Artifact adds one cache entry: the signed XML with a one-hour TTL, under the posted artifact's string form, whose SourceID is the base URL's. Nothing is removed from the cache. Any other binding sends nothing and leaves the cache alone |
| `IdpUtil.SendResponse` | IdentityProvider/Util.cs:115-146 | The new cache and the reply are those of `SendEffect` |
| `IdpSingleSignOn.SsoStep` | IdentityProvider/SingleSignOnService.aspx.cs:15-88 | Saved state: the request is not read and the saved state is answered. No request: nothing sent. Exception: nothing sent and nothing changed. A ProtocolBinding the toolkit cannot read: nothing sent, nothing saved. Local login required exactly when `forceAuthn or (not authenticated and allowCreate)`: the state made from the request is saved and a login redirect sent. Otherwise the built Response is sent without saving. The slot is written only on the detour and never cleared. The cache only gains the signed Response, under the posted artifact |
| `IdpSingleSignOn.OnLoad` | IdentityProvider/SingleSignOnService.aspx.cs:11-89 | The session slot, cache and reply after the page are those of `SsoStep` |
| `IdpSingleSignOn.ForceAuthnAlwaysDetours` | IdentityProvider/SingleSignOnService.aspx.cs:51-75 | With ForceAuthn and a readable ProtocolBinding the state is saved and a login redirect sent, whoever the user is |
| `IdpSingleSignOn.AuthenticatedUserAnsweredAtOnce` | IdentityProvider/SingleSignOnService.aspx.cs:51-82 | Without ForceAuthn, and with a readable ProtocolBinding, an authenticated user gets a Success Response at once and nothing is saved |
| `IdpSingleSignOn.NoAllowCreateAnswersAuthnFailed` | IdentityProvider/SingleSignOnService.aspx.cs:37-63 | Without ForceAuthn or AllowCreate (a missing NameIDPolicy included) an unauthenticated user gets an AuthnFailed Response, not a login redirect, once the ProtocolBinding is read |
| `IdpSingleSignOn.UnreadableProtocolBindingSavesNothing` | IdentityProvider/SingleSignOnService.aspx.cs:44-48 | An exception from reading the ProtocolBinding is caught before the state is saved: nothing is saved, sent or cached |
| `IdpSingleSignOn.SavedUnsupportedBindingNeverAnswers` | IdentityProvider/SingleSignOnService.aspx.cs:19-82 | A saved state whose binding is neither HTTP-POST nor HTTP-Artifact is answered with nothing, the state is kept, and the cache is unchanged |
| `IdpSingleSignOn.DetourThenAnswer` | IdentityProvider/SingleSignOnService.aspx.cs:19-82 | After a detour (the ProtocolBinding read), the next load answers the saved request with Success for the logged-in user, whatever the new HTTP request holds, and keeps the state |
| `IdpRuns.RunKeepsOnlySigned` | IdentityProvider/Util.cs:118-135 | Over any run of IdP page loads, every cache value stays the XML of a Response signed with the IdP's certificate |
| `IdpRuns.ResolveAnswersOnlySigned` | IdentityProvider/SamlArtifactResolve.aspx.cs:24-31 | With only signed Responses cached, a resolution of a parsed artifact raises no exception, and whatever it sends is a signed Response |
| `IdpRuns.SavedStateStays` | IdentityProvider/SingleSignOnService.aspx.cs:19-21 | Over any run, a session's saved SSO state is never replaced nor removed |
| `IdpRuns.ArtifactsAnsweredOnce` | IdentityProvider/SamlArtifactResolve.aspx.cs:24-26 | Over any run, answered resolutions of an artifact plus its final presence are at most its issuances plus its initial presence |
| `ArtifactResponder.ResolveStep` | IdentityProvider/SamlArtifactResolve.aspx.cs:15-39 | An unparsable request fails with nothing sent or removed. Otherwise exactly the requested key is removed and all other entries are untouched. A response is sent iff the key held XML, and it carries that XML unchanged under the endpoint's issuer. A non-XML value raises an exception after the pop |
| `ArtifactResponder.Resolve` | ServiceProvider/SamlArtifactResolve.aspx.cs:14-40 | The cache and reply after the shared responder body are those of `ResolveStep` |
| `ArtifactResponder.SecondResolutionSendsNothing` | IdentityProvider/SamlArtifactResolve.aspx.cs:24-26 | Once a request for an artifact has been resolved, any request naming the same artifact, a replay included, sends nothing |
| `IdpArtifactResolve.OnLoad` | IdentityProvider/SamlArtifactResolve.aspx.cs:11-40 | The IdP responder is `ResolveStep` with the IdP base URL as issuer |
| `IdpArtifactResolve.SendThenResolve` | IdentityProvider/Util.cs:129-140 | Round trip: the first resolution of the artifact that `SendResponse` posted returns exactly the signed XML it cached; the second returns nothing |
| `SpArtifactResolve.OnLoad` | ServiceProvider/SamlArtifactResolve.aspx.cs:10-41 | The SP responder is `ResolveStep` with the SP base URL as issuer |
| `SpAssertionService.ReceiveResponse` | ServiceProvider/AssertionService.aspx.cs:25-48 | POST returns the decoded Response with its own relay state. Artifact reads the artifact from the form and sends an ArtifactResolve for its string form, with the SP as issuer, to the IdP's resolver. The Response is the parse of the message that comes back, and the relay state is the form's. An exception at any of the three steps is the result |
| `SpAssertionService.Extraction` | ServiceProvider/AssertionService.aspx.cs:19-64 | Any binding but POST and Artifact (Redirect included) iff no response and no exception. Every decoded response, whatever the binding, is returned iff it validates against the IdP certificate, and fails with ResponseSignatureInvalid otherwise |
| `SpAssertionService.ExtractResponse` | ServiceProvider/AssertionService.aspx.cs:19-64 | Returns exactly `Extraction` |
| `SpAssertionService.AssertedUser` | ServiceProvider/AssertionService.aspx.cs:72-75 | The first assertion's NameID; fails with NoAssertion on an empty list, and when the NameID is missing |
| `SpAssertionService.SuccessStep` | ServiceProvider/AssertionService.aspx.cs:69-92 | No asserted user: fails with the cache untouched. Otherwise the relay state is popped, and a cookie is set and a redirect issued iff the pop returned a URL. Then the cookie is for exactly the asserted NameID and the redirect goes to exactly that URL. Never an error redirect |
| `SpAssertionService.SamlSuccessRedirect` | ServiceProvider/AssertionService.aspx.cs:69-92 | The cache and reply are those of `SuccessStep` |
| `SpAssertionService.SamlErrorRedirect` | ServiceProvider/AssertionService.aspx.cs:97-109 | The URL is `~/LoginChoice.aspx?error=` followed by the URL-encoded status message, or by nothing when there is no message |
| `SpAssertionService.AcsStep` | ServiceProvider/AssertionService.aspx.cs:111-142 | Exception: nothing is done, and the cache is unchanged unless the pop already happened. No response: nothing. The toolkit's IsSuccess holds: `SuccessStep`. Otherwise an error redirect with the cache unchanged. A sign-in happens only for a response that validated and for which IsSuccess holds |
| `SpAssertionService.OnLoad` | ServiceProvider/AssertionService.aspx.cs:111-142 | The cache and reply after the page are those of `AcsStep` |
| `SpAssertionService.RelayStateSignsInOnce` | ServiceProvider/AssertionService.aspx.cs:78-85 | After one sign-in, any later response with the same relay state, a replay included, signs no one in. Any cache calls may come in between, provided none of them inserts under that relay state again |

## Left out

- The toolkit itself: XML parsing and serialization, deflate, base64 and URL encoding, signing and signature checking, and the artifact's string encoding. These are uninterpreted fields of `Saml.Toolkit`. So is the network call behind `SendSamlMessageReceiveAftifactResponse`.
- Exceptions from `Sign`, `GetXml`, `SendPostBindingForm`, `SendPostForm`, `Send` and the cache calls: the model treats these as never throwing.
- `SamlBindingUri.UriToBinding` and `Response.IsSuccess()` are uninterpreted toolkit fields. The model does not say which URIs `UriToBinding` accepts, or which status codes `IsSuccess` treats as success.
- Cache expiry and thread safety. The TTL is recorded with each entry and never acts. The cache is used one call at a time.
- A missing relay state at the SP is modelled as a lookup that finds nothing. The cache provider's behaviour on a null key is not known.
- `Trace.Write` logging. Only the exception that was logged is kept, as the page's `error`.
- ServiceProvider/Util.cs is not part of this model. Its `BindingVarName` and `ErrorVarName` are taken to be `binding` and `error`.
- The SP page that starts SSO is not part of this model. It caches the relay state and sends the AuthnRequest. `SingleUse` covers its cache insertions as arbitrary `Insert` calls.
- IdentityProvider/Global.asax.cs (certificate loading and the trust-all TLS callback), IdentityProvider/SingleLogoutService.aspx.cs and IdentityProvider/Default.aspx.cs are not part of this model.
- Sessions, cookies and redirects are ASP.NET state. They appear only as the session slot and the recorded replies.
