/** The IdP's artifact resolution endpoint, where the SP redeems the
    artifact that SendResponse posted for the Response cached under it. */
module IdpArtifactResolve {
  import opened Outcomes
  import opened Saml
  import opened ArtifactCache
  import opened ArtifactResponder
  import opened IdpUtil

  /** OnLoad of the IdP's SamlArtifactResolve: the issuer of the reply is the
      IdP's base URL. */
  method OnLoad(cfg: IdpConfig, tk: Toolkit, req: HttpRequest, cache: CacheProvider)
    returns (sent: Option<ArtifactResponse>, error: Option<Failure>)
    modifies cache
    ensures ResolveResult(cache.entries, sent, error) == ResolveStep(cfg.baseUrl, tk, req, old(cache.entries))
  {
    sent, error := Resolve(cfg.baseUrl, tk, req, cache);
  }

  /** Round trip: a Response sent by HTTP-Artifact is what the first
      resolution of the posted artifact returns, signed, with the IdP as
      issuer; a second resolution returns nothing. */
  lemma SendThenResolve(cfg: IdpConfig, tk: Toolkit, response: Response, state: SsoAuthnState,
                        handle: seq<bv8>, cache: CacheMap, req: HttpRequest, resolve: ArtifactResolve)
    requires state.idpProtocolBinding == Artifact
    requires tk.parseArtifactResolve(req) == Ok(resolve)
    requires tk.parseArtifact(resolve.artifact) == Ok(NewArtifact(cfg, tk, handle))
    ensures var s := SendEffect(cfg, tk, response, state, handle, cache);
      var first := ResolveStep(cfg.baseUrl, tk, req, s.cache);
      && s.reply == ArtifactForm(state.assertionConsumerServiceUrl, state.relayState, NewArtifact(cfg, tk, handle))
      && first.sent == Some(ArtifactResponse(cfg.baseUrl, SignedXml(cfg, tk, response)))
      && ResolveStep(cfg.baseUrl, tk, req, first.cache).sent == None
  {
  }
}
