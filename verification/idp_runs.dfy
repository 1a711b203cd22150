/** The IdP over any sequence of page loads: many browser sessions, each
    with its own "sso" slot, and the one shared artifact cache. */
module IdpRuns {
  import opened Outcomes
  import opened Saml
  import opened ArtifactCache
  import opened ArtifactResponder
  import opened IdpUtil
  import opened IdpSingleSignOn

  type SessionId = string

  datatype IdpWorld = IdpWorld(sessions: map<SessionId, SsoAuthnState>, cache: CacheMap)

  /** A load of the single sign-on page in a session, or of the artifact
      resolution endpoint. */
  datatype IdpEvent =
    | SsoLoad(session: SessionId, req: HttpRequest, user: User, handle: seq<bv8>)
    | ResolveLoad(req: HttpRequest)

  function Slot(w: IdpWorld, sid: SessionId): Option<SsoAuthnState>
  {
    if sid in w.sessions then Some(w.sessions[sid]) else None
  }

  function SsoOf(cfg: IdpConfig, tk: Toolkit, w: IdpWorld, e: IdpEvent): SsoResult
    requires e.SsoLoad?
  {
    SsoStep(cfg, tk, e.req, e.user, e.handle, Slot(w, e.session), w.cache)
  }

  function IdpStep(cfg: IdpConfig, tk: Toolkit, w: IdpWorld, e: IdpEvent): IdpWorld
  {
    match e
    case SsoLoad(sid, _, _, _) =>
      var r := SsoOf(cfg, tk, w, e);
      IdpWorld(if r.sso.Some? then w.sessions[sid := r.sso.value] else w.sessions, r.cache)
    case ResolveLoad(req) =>
      IdpWorld(w.sessions, ResolveStep(cfg.baseUrl, tk, req, w.cache).cache)
  }

  function IdpRun(cfg: IdpConfig, tk: Toolkit, w: IdpWorld, es: seq<IdpEvent>): IdpWorld
    decreases |es|
  {
    if es == [] then w else IdpRun(cfg, tk, IdpStep(cfg, tk, w, es[0]), es[1..])
  }

  /** A cache value is the XML of some Response signed with the IdP's key. */
  ghost predicate IsSignedResponseXml(cfg: IdpConfig, tk: Toolkit, v: CacheValue)
  {
    exists r: Response :: v == XmlValue(SignedXml(cfg, tk, r))
  }

  ghost predicate OnlySignedXml(cfg: IdpConfig, tk: Toolkit, cache: CacheMap)
  {
    forall k :: k in cache ==> IsSignedResponseXml(cfg, tk, cache[k].value)
  }

  lemma StepKeepsOnlySigned(cfg: IdpConfig, tk: Toolkit, w: IdpWorld, e: IdpEvent)
    requires OnlySignedXml(cfg, tk, w.cache)
    ensures OnlySignedXml(cfg, tk, IdpStep(cfg, tk, w, e).cache)
  {
    var c := IdpStep(cfg, tk, w, e).cache;
    if e.SsoLoad? {
      forall k | k in c
        ensures IsSignedResponseXml(cfg, tk, c[k].value)
      {
        if k !in w.cache || c[k] != w.cache[k] {
          assert c[k].value == XmlValue(SignedXml(cfg, tk, BuildResponse(cfg.baseUrl, e.user)));
        }
      }
    }
  }

  /** The artifact cache only ever holds signed Responses: over any run of
      page loads, from a cache that holds only signed Responses (the empty
      one at start-up included). */
  lemma {:induction false} RunKeepsOnlySigned(cfg: IdpConfig, tk: Toolkit, w: IdpWorld, es: seq<IdpEvent>)
    requires OnlySignedXml(cfg, tk, w.cache)
    ensures OnlySignedXml(cfg, tk, IdpRun(cfg, tk, w, es).cache)
    decreases |es|
  {
    if es != [] {
      StepKeepsOnlySigned(cfg, tk, w, es[0]);
      RunKeepsOnlySigned(cfg, tk, IdpStep(cfg, tk, w, es[0]), es[1..]);
    }
  }

  /** Hence the IdP's resolver raises no exception once the artifact is
      parsed (it never meets a value it cannot cast), and every
      ArtifactResponse it sends carries a signed Response. */
  lemma ResolveAnswersOnlySigned(cfg: IdpConfig, tk: Toolkit, req: HttpRequest, cache: CacheMap)
    requires OnlySignedXml(cfg, tk, cache)
    ensures var r := ResolveStep(cfg.baseUrl, tk, req, cache);
      && (RequestedKey(tk, req).Ok? ==> r.error == None)
      && (r.sent.Some? ==> IsSignedResponseXml(cfg, tk, XmlValue(r.sent.value.message)))
  {
    if RequestedKey(tk, req).Ok? {
      var k := RequestedKey(tk, req).value;
      if k in cache {
        assert IsSignedResponseXml(cfg, tk, cache[k].value);
        var signed :| cache[k].value == XmlValue(SignedXml(cfg, tk, signed));
        assert cache[k].value.XmlValue?;
      }
    }
  }

  /** A session's saved SSO state is never replaced nor cleared: every later
      load of the page in that session answers that first request. */
  lemma {:induction false} SavedStateStays(cfg: IdpConfig, tk: Toolkit, w: IdpWorld, es: seq<IdpEvent>, sid: SessionId)
    requires sid in w.sessions
    ensures sid in IdpRun(cfg, tk, w, es).sessions
    ensures IdpRun(cfg, tk, w, es).sessions[sid] == w.sessions[sid]
    decreases |es|
  {
    if es != [] {
      var w' := IdpStep(cfg, tk, w, es[0]);
      assert sid in w'.sessions && w'.sessions[sid] == w.sessions[sid] by {
        if es[0].SsoLoad? && es[0].session == sid {
          assert SsoOf(cfg, tk, w, es[0]).sso == Some(w.sessions[sid]);
        }
      }
      SavedStateStays(cfg, tk, w', es[1..], sid);
    }
  }

  /** The load posts an artifact whose string form is `k`. */
  predicate Issues(cfg: IdpConfig, tk: Toolkit, w: IdpWorld, e: IdpEvent, k: string)
  {
    e.SsoLoad? && SsoOf(cfg, tk, w, e).reply.ArtifactForm?
    && tk.artifactText(SsoOf(cfg, tk, w, e).reply.artifact) == k
  }

  /** The load resolves the artifact `k` and sends an ArtifactResponse. */
  predicate Answers(cfg: IdpConfig, tk: Toolkit, w: IdpWorld, e: IdpEvent, k: string)
  {
    e.ResolveLoad? && RequestedKey(tk, e.req) == Ok(k)
    && ResolveStep(cfg.baseUrl, tk, e.req, w.cache).sent.Some?
  }

  function Issued(cfg: IdpConfig, tk: Toolkit, w: IdpWorld, es: seq<IdpEvent>, k: string): nat
    decreases |es|
  {
    if es == [] then 0
    else (if Issues(cfg, tk, w, es[0], k) then 1 else 0) + Issued(cfg, tk, IdpStep(cfg, tk, w, es[0]), es[1..], k)
  }

  function Answered(cfg: IdpConfig, tk: Toolkit, w: IdpWorld, es: seq<IdpEvent>, k: string): nat
    decreases |es|
  {
    if es == [] then 0
    else (if Answers(cfg, tk, w, es[0], k) then 1 else 0) + Answered(cfg, tk, IdpStep(cfg, tk, w, es[0]), es[1..], k)
  }

  lemma StepSingleUse(cfg: IdpConfig, tk: Toolkit, w: IdpWorld, e: IdpEvent, k: string)
    ensures (if Answers(cfg, tk, w, e, k) then 1 else 0) + (if k in IdpStep(cfg, tk, w, e).cache then 1 else 0)
         <= (if Issues(cfg, tk, w, e, k) then 1 else 0) + (if k in w.cache then 1 else 0)
  {
    if e.SsoLoad? {
      var c := IdpStep(cfg, tk, w, e).cache;
      if k in c && k !in w.cache {
        assert Issues(cfg, tk, w, e, k);
      }
    }
  }

  /** Single use at the IdP: over any run of page loads, the resolutions of
      an artifact that send its Response, plus the entry still cached at the
      end, never outnumber the loads that issued that artifact plus the
      entry cached at the start. An artifact issued once is answered once. */
  lemma {:induction false} ArtifactsAnsweredOnce(cfg: IdpConfig, tk: Toolkit, w: IdpWorld, es: seq<IdpEvent>, k: string)
    ensures Answered(cfg, tk, w, es, k) + (if k in IdpRun(cfg, tk, w, es).cache then 1 else 0)
         <= Issued(cfg, tk, w, es, k) + (if k in w.cache then 1 else 0)
    decreases |es|
  {
    if es != [] {
      StepSingleUse(cfg, tk, w, es[0], k);
      ArtifactsAnsweredOnce(cfg, tk, IdpStep(cfg, tk, w, es[0]), es[1..], k);
    }
  }
}
