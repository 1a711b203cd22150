/** The SP's artifact resolution endpoint, where the IdP redeems an
    artifact the SP posted in place of its AuthnRequest. */
module SpArtifactResolve {
  import opened Outcomes
  import opened Saml
  import opened ArtifactCache
  import opened ArtifactResponder

  /** OnLoad of the SP's SamlArtifactResolve: the issuer of the reply is the
      SP's base URL. */
  method OnLoad(spBaseUrl: string, tk: Toolkit, req: HttpRequest, cache: CacheProvider)
    returns (sent: Option<ArtifactResponse>, error: Option<Failure>)
    modifies cache
    ensures ResolveResult(cache.entries, sent, error) == ResolveStep(spBaseUrl, tk, req, old(cache.entries))
  {
    sent, error := Resolve(spBaseUrl, tk, req, cache);
  }
}
