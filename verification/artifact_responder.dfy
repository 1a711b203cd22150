/** What both artifact resolution endpoints do (section 3.5 of SAML 2.0
    Core): read the ArtifactResolve from the request body, pop the cache
    entry under the artifact's string form, and answer with an
    ArtifactResponse carrying the cached message, or send nothing at all. */
module ArtifactResponder {
  import opened Outcomes
  import opened Saml
  import opened ArtifactCache

  /** The cache key a resolve request names: the artifact value parsed as a
      type 0x0004 artifact and written back as a string. */
  function RequestedKey(tk: Toolkit, req: HttpRequest): Result<string>
  {
    var resolve :- tk.parseArtifactResolve(req);
    var httpArtifact :- tk.parseArtifact(resolve.artifact);
    Ok(tk.artifactText(httpArtifact))
  }

  datatype ResolveResult = ResolveResult(cache: CacheMap, sent: Option<ArtifactResponse>, error: Option<Failure>)

  /** One resolution. The cache loses exactly the requested key and nothing
      else; a response is sent exactly when that key held message XML, and
      it carries that XML unchanged under the endpoint's own issuer. */
  function ResolveStep(issuer: string, tk: Toolkit, req: HttpRequest, cache: CacheMap): (r: ResolveResult)
    ensures RequestedKey(tk, req).Fail? ==>
      r == ResolveResult(cache, None, Some(RequestedKey(tk, req).error))
    ensures RequestedKey(tk, req).Ok? ==>
      var k := RequestedKey(tk, req).value;
      && r.cache == cache - {k}
      && (r.sent.Some? <==> k in cache && cache[k].value.XmlValue?)
      && (r.sent.Some? ==> r.sent.value == ArtifactResponse(issuer, cache[k].value.xml))
      && (r.error.Some? <==> k in cache && cache[k].value.UrlValue?)
    ensures r.error.Some? ==> r.sent == None
  {
    match RequestedKey(tk, req)
    case Fail(e) => ResolveResult(cache, None, Some(e))
    case Ok(k) =>
      var rest := Apply(cache, RemoveOp(k));
      match Find(cache, k)
      case None => ResolveResult(rest, None, None)
      case Some(XmlValue(xml)) => ResolveResult(rest, Some(ArtifactResponse(issuer, xml)), None)
      // the cast to XmlElement throws after the entry is gone
      case Some(UrlValue(_)) => ResolveResult(rest, None, Some(InvalidCast))
  }

  /** Shared body of both OnLoad methods. */
  method Resolve(issuer: string, tk: Toolkit, req: HttpRequest, cache: CacheProvider)
    returns (sent: Option<ArtifactResponse>, error: Option<Failure>)
    modifies cache
    ensures ResolveResult(cache.entries, sent, error) == ResolveStep(issuer, tk, req, old(cache.entries))
  {
    var resolve := tk.parseArtifactResolve(req);
    if resolve.Fail? {
      return None, Some(resolve.error);
    }
    var httpArtifact := tk.parseArtifact(resolve.value.artifact);
    if httpArtifact.Fail? {
      return None, Some(httpArtifact.error);
    }
    var cached := cache.Remove(tk.artifactText(httpArtifact.value));
    if cached == None {
      return None, None;
    }
    if cached.value.UrlValue? {
      return None, Some(InvalidCast);
    }
    sent := Some(ArtifactResponse(issuer, cached.value.xml));
    error := None;
  }

  /** An artifact is single use: once a request for it has been resolved,
      any request naming the same artifact (the same request replayed
      included) sends nothing. */
  lemma SecondResolutionSendsNothing(issuer: string, tk: Toolkit, req: HttpRequest, again: HttpRequest, cache: CacheMap)
    requires RequestedKey(tk, again) == RequestedKey(tk, req)
    ensures ResolveStep(issuer, tk, again, ResolveStep(issuer, tk, req, cache).cache).sent == None
  {
  }
}
