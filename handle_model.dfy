/** The authorize handle as a value: its configuration and its two caches,
    and one specification function per operation that says what the
    operation returns, which request (if any) it hands to the transport and
    what the caches hold afterwards. */
module HandleModel {
  import opened Outcomes
  import opened TtlCache
  import opened Dispatch

  /** The sweep interval used when caching is enabled and none is set. */
  const DefaultGCInterval := 300

  const VerifyRouter := "/oauth2/verify"
  const VerifyV2Router := "/oauth2/verify/v2"

  /** The response of the first verification endpoint. */
  datatype VerifyReply = VerifyReply(userID: string, clientID: string, expiresIn: int)

  /** The response of the second verification endpoint. */
  datatype TokenInfo = TokenInfo(
    userID: string, businessID: string, userCode: string, clientID: string,
    expiresIn: int, serviceCode: string, serviceAddr: string)

  /** The two value shapes the verification cache holds under a token. */
  datatype Verified = Pair(userID: string, clientID: string) | Info(info: TokenInfo)

  /** The handle's configuration and caches; a cache is `None` when it was
      never constructed. */
  datatype State = State(
    enabled: bool,
    gcInterval: int,
    service: string,
    routerCache: Option<TtlMap<Bytes>>,
    cache: Option<TtlMap<Verified>>)

  /** Both caches exist exactly when caching is enabled. */
  predicate Wf(s: State)
  {
    s.routerCache.Some? == s.enabled && s.cache.Some? == s.enabled
  }

  /** No router-cache entry is stored under the empty fingerprint. */
  predicate RouterKeysNonEmpty(s: State)
  {
    s.routerCache.Some? ==> "" !in s.routerCache.value
  }

  function NewState(enabled: bool, gcInterval: int, service: string): (s: State)
    ensures Wf(s) && RouterKeysNonEmpty(s)
    ensures s.enabled == enabled && s.service == service
    ensures enabled ==> s.routerCache == Some(map[]) && s.cache == Some(map[])
    ensures enabled && gcInterval == 0 ==> s.gcInterval == DefaultGCInterval
    ensures !enabled || gcInterval != 0 ==> s.gcInterval == gcInterval
  {
    if enabled then
      State(true, if gcInterval == 0 then DefaultGCInterval else gcInterval, service, Some(map[]), Some(map[]))
    else
      State(false, gcInterval, service, None, None)
  }

  /** getFromRouterCache */
  function RouterLookup(s: State, router: string, r: Reader, now: int): (b: Option<Bytes>)
    requires Wf(s)
    ensures b.Some? <==> s.enabled && r.expires(router) > 0 && r.hash != ""
                         && Live(s.routerCache.value, r.hash, now)
    ensures b.Some? ==> b.value == s.routerCache.value[r.hash].value
  {
    match CacheSlot(s.enabled, router, r)
    case None => None
    case Some(slot) => Get(s.routerCache.value, slot.key, now)
  }

  /** setRouterCache */
  function RouterStore<V>(s: State, router: string, r: Reader, decoded: Option<V>,
                          encode: V -> Result<Bytes, string>, now: int): (s': State)
    requires Wf(s)
    ensures Wf(s') && s' == s.(routerCache := s'.routerCache)
    ensures RouterKeysNonEmpty(s) ==> RouterKeysNonEmpty(s')
    ensures CacheSlot(s.enabled, router, r).None? ==> s' == s
    ensures CacheSlot(s.enabled, router, r).Some? ==>
              s'.routerCache == Some(Set(s.routerCache.value, r.hash, CacheBytes(decoded, encode),
                                         r.expires(router), now))
    ensures forall t :: CacheSlot(s.enabled, router, r).Some? && now <= t < now + r.expires(router) ==>
              RouterLookup(s', router, r, t) == Some(CacheBytes(decoded, encode))
  {
    match CacheSlot(s.enabled, router, r)
    case None => s
    case Some(slot) =>
      s.(routerCache := Some(Set(s.routerCache.value, slot.key, CacheBytes(decoded, encode), slot.ttl, now)))
  }

  /** The lookup tokenPost performs: only a RequestReader body consults the cache. */
  function PostLookup(s: State, router: string, body: Body, now: int): Option<Bytes>
    requires Wf(s)
  {
    if body.Payload? && body.reader.Some? then RouterLookup(s, router, body.reader.value, now) else None
  }

  /** The JSON that tokenPost attaches, when there is a body and it encodes. */
  function SentJson(body: Body): Option<Bytes>
  {
    if body.Payload? && body.json.Success? then Some(body.json.value) else None
  }

  /** tokenPost's mutator: take the token, attach it as a header, attach
      the body as JSON. */
  function PostMutator(token: Result<string, ErrorResult>, body: Body): Mutator
  {
    (req: Outbound) =>
      match token
      case Failure(e) => Failure(e)
      case Success(tok) =>
        var req := req.(headers := req.headers + [("AccessToken", tok)]);
        if body.NilBody? then Success(req)
        else match body.json
          case Failure(m) => Failure(ErrorResult(m, None))
          case Success(j) => Success(req.(json := Some(j)))
  }

  datatype PostStep<V> = PostStep(result: CallResult<V>, state: State, askedToken: bool, sent: Option<Outbound>)

  /** tokenPost: cache first, then token, then the network, then write-back. */
  function PostSpec<V>(s: State, router: string, body: Body, sink: Sink<V>,
                       encode: V -> Result<Bytes, string>, token: Result<string, ErrorResult>,
                       reply: Transport, now: int): (p: PostStep<V>)
    requires Wf(s)
    ensures Wf(p.state) && p.state == s.(routerCache := p.state.routerCache)
    ensures RouterKeysNonEmpty(s) ==> RouterKeysNonEmpty(p.state)
    // a hit answers from the cache without the token provider or the network
    ensures PostLookup(s, router, body, now).Some? ==>
              p == PostStep(FromCache(PostLookup(s, router, body, now).value, sink), s, false, None)
    ensures PostLookup(s, router, body, now).None? ==> p.askedToken
    // a token failure is returned verbatim and nothing is sent
    ensures PostLookup(s, router, body, now).None? && token.Failure? ==>
              p == PostStep(Failed(token.error), s, true, None)
    // a body that cannot be encoded aborts before the network
    ensures PostLookup(s, router, body, now).None? && token.Success? && body.Payload? && body.json.Failure? ==>
              p == PostStep(Failed(ErrorResult(body.json.error, None)), s, true, None)
    // what is sent is a POST carrying the provider's token and the body's JSON
    ensures p.sent.Some? <==> PostLookup(s, router, body, now).None? && token.Success?
                              && (body.Payload? ==> body.json.Success?)
    ensures p.sent.Some? ==>
              p.sent.value == Outbound(HttpPost, router, [("AccessToken", token.value)], [], SentJson(body))
              && p.result == Classify(reply, sink)
    // a failed call leaves the cache alone
    ensures p.result.Failed? ==> p.state == s
    // only an eligible RequestReader body that succeeded over the network is written back
    ensures p.sent.Some? && p.result.Done? && body.Payload? && body.reader.Some? ==>
              p.state == RouterStore(s, router, body.reader.value, p.result.decoded, encode, now)
    ensures p.state != s ==> p.sent.Some? && p.result.Done? && body.Payload? && body.reader.Some?
                             && CacheSlot(s.enabled, router, body.reader.value).Some?
  {
    var hit := PostLookup(s, router, body, now);
    if hit.Some? then PostStep(FromCache(hit.value, sink), s, false, None)
    else
      var d := RequestSpec(router, HttpPost, Some(PostMutator(token, body)), sink, reply);
      if d.result.Failed? then PostStep(d.result, s, true, d.sent)
      else if body.Payload? && body.reader.Some? then
        PostStep(d.result, RouterStore(s, router, body.reader.value, d.result.decoded, encode, now), true, d.sent)
      else PostStep(d.result, s, true, d.sent)
  }

  /** The verification result is cached only with a margin of one sweep
      interval before the remote token expires. */
  function VerifyStoreTtl(enabled: bool, gcInterval: int, expiresIn: int): (ttl: Option<int>)
    ensures ttl.Some? <==> enabled && gcInterval < expiresIn
    ensures ttl.Some? ==> ttl.value > 0 && ttl.value + gcInterval == expiresIn
  {
    if enabled && gcInterval < expiresIn then Some(expiresIn - gcInterval) else None
  }

  /** The verification cache's lookup: a disabled cache always misses. */
  function VerifyLookup(s: State, token: string, now: int): (v: Option<Verified>)
    requires Wf(s)
    ensures v.Some? <==> s.enabled && Live(s.cache.value, token, now)
    ensures v.Some? ==> v.value == s.cache.value[token].value
  {
    if s.enabled then Get(s.cache.value, token, now) else None
  }

  /** The write-back shared by both verification variants. */
  function VerifyStore(s: State, token: string, v: Verified, expiresIn: int, now: int): (s': State)
    requires Wf(s)
    ensures Wf(s') && s' == s.(cache := s'.cache)
    ensures VerifyStoreTtl(s.enabled, s.gcInterval, expiresIn).None? ==> s' == s
    ensures VerifyStoreTtl(s.enabled, s.gcInterval, expiresIn).Some? ==>
              s'.cache == Some(Set(s.cache.value, token, v, expiresIn - s.gcInterval, now))
              && s'.cache.value[token].expiresAt + s.gcInterval == now + expiresIn
  {
    match VerifyStoreTtl(s.enabled, s.gcInterval, expiresIn)
    case None => s
    case Some(ttl) => s.(cache := Some(Set(s.cache.value, token, v, ttl, now)))
  }

  /** The verification mutator: the token and the service identifier as
      query parameters. */
  function VerifyParams(token: string, service: string): Mutator
  {
    (req: Outbound) => Success(req.(params := req.params + [("access_token", token), ("service", service)]))
  }

  function VerifyOutbound(router: string, token: string, service: string): Outbound
  {
    Outbound(HttpGet, router, [], [("access_token", token), ("service", service)], None)
  }

  datatype VerifyStep<R> = VerifyStep(result: Result<R, ErrorResult>, state: State, sent: Option<Outbound>)

  predicate PairHit(s: State, token: string, now: int)
    requires Wf(s)
  {
    VerifyLookup(s, token, now).Some? && VerifyLookup(s, token, now).value.Pair?
  }

  predicate InfoHit(s: State, token: string, now: int)
    requires Wf(s)
  {
    VerifyLookup(s, token, now).Some? && VerifyLookup(s, token, now).value.Info?
  }

  /** VerifyToken: the user and client identifiers behind a token. */
  function VerifySpec(s: State, token: string, decode: Bytes -> Result<VerifyReply, string>,
                      reply: Transport, now: int): (v: VerifyStep<(string, string)>)
    requires Wf(s)
    ensures Wf(v.state) && v.state == s.(cache := v.state.cache)
    // a live entry of this variant's shape answers without the network
    ensures PairHit(s, token, now) ==>
              v == VerifyStep(Success((VerifyLookup(s, token, now).value.userID,
                                       VerifyLookup(s, token, now).value.clientID)), s, None)
    // anything else (no entry, an expired one, the other shape) asks the remote service
    ensures !PairHit(s, token, now) ==> v.sent == Some(VerifyOutbound(VerifyRouter, token, s.service))
    ensures !PairHit(s, token, now) && Classify(reply, Into(decode)).Failed? ==>
              v.result == Failure(Classify(reply, Into(decode)).err) && v.state == s
    ensures !PairHit(s, token, now) && Classify(reply, Into(decode)).Done? ==>
              var r := Classify(reply, Into(decode)).decoded.value;
              v.result == Success((r.userID, r.clientID))
              && v.state == VerifyStore(s, token, Pair(r.userID, r.clientID), r.expiresIn, now)
  {
    var hit := VerifyLookup(s, token, now);
    if hit.Some? && hit.value.Pair? then VerifyStep(Success((hit.value.userID, hit.value.clientID)), s, None)
    else
      assert Bare(VerifyRouter, HttpGet).params + [("access_token", token), ("service", s.service)]
          == [("access_token", token), ("service", s.service)];
      assert Prepared(VerifyRouter, HttpGet, Some(VerifyParams(token, s.service)))
          == Success(VerifyOutbound(VerifyRouter, token, s.service));
      var d := RequestSpec(VerifyRouter, HttpGet, Some(VerifyParams(token, s.service)), Into(decode), reply);
      match d.result
      case Failed(e) => VerifyStep(Failure(e), s, d.sent)
      case Done(r) =>
        // the response record starts at its zero value
        var data := if r.Some? then r.value else VerifyReply("", "", 0);
        VerifyStep(Success((data.userID, data.clientID)),
                   VerifyStore(s, token, Pair(data.userID, data.clientID), data.expiresIn, now), d.sent)
  }

  /** VerifyTokenV2: the extended record behind a token. */
  function VerifyV2Spec(s: State, token: string, decode: Bytes -> Result<TokenInfo, string>,
                        reply: Transport, now: int): (v: VerifyStep<TokenInfo>)
    requires Wf(s)
    ensures Wf(v.state) && v.state == s.(cache := v.state.cache)
    ensures InfoHit(s, token, now) ==>
              v == VerifyStep(Success(VerifyLookup(s, token, now).value.info), s, None)
    ensures !InfoHit(s, token, now) ==> v.sent == Some(VerifyOutbound(VerifyV2Router, token, s.service))
    ensures !InfoHit(s, token, now) && Classify(reply, Into(decode)).Failed? ==>
              v.result == Failure(Classify(reply, Into(decode)).err) && v.state == s
    ensures !InfoHit(s, token, now) && Classify(reply, Into(decode)).Done? ==>
              var r := Classify(reply, Into(decode)).decoded.value;
              v.result == Success(r) && v.state == VerifyStore(s, token, Info(r), r.expiresIn, now)
  {
    var hit := VerifyLookup(s, token, now);
    if hit.Some? && hit.value.Info? then VerifyStep(Success(hit.value.info), s, None)
    else
      assert Bare(VerifyV2Router, HttpGet).params + [("access_token", token), ("service", s.service)]
          == [("access_token", token), ("service", s.service)];
      assert Prepared(VerifyV2Router, HttpGet, Some(VerifyParams(token, s.service)))
          == Success(VerifyOutbound(VerifyV2Router, token, s.service));
      var d := RequestSpec(VerifyV2Router, HttpGet, Some(VerifyParams(token, s.service)), Into(decode), reply);
      match d.result
      case Failed(e) => VerifyStep(Failure(e), s, d.sent)
      case Done(r) =>
        var data := if r.Some? then r.value else TokenInfo("", "", "", "", 0, "", "");
        VerifyStep(Success(data), VerifyStore(s, token, Info(data), data.expiresIn, now), d.sent)
  }
}
