/** The authorize handle as the program holds it: an object whose two cache
    fields its methods update in place, over a configuration object that
    construction may change. Each method is proved against the matching
    specification function of HandleModel. */
module Handle {
  import opened Outcomes
  import opened TtlCache
  import opened Dispatch
  import opened HandleModel

  /** The part of the client configuration this layer reads. */
  class Config {
    var serviceIdentify: string
    var isEnabledCache: bool
    var cacheGCInterval: int
  }

  /** What the token provider's forced refresh returns. */
  datatype TokenRecord = TokenRecord(accessToken: string)

  class AuthorizeHandle {
    const cfg: Config
    var routerCache: Option<TtlMap<Bytes>>
    var cache: Option<TtlMap<Verified>>
    /** Every request handed to the transport, oldest first. */
    ghost var sent: seq<Outbound>
    /** How many times the token provider was asked for a token. */
    ghost var tokenGets: nat

    /** The handle's state as a value. */
    function Snapshot(): State
      reads this, cfg
    {
      State(cfg.isEnabledCache, cfg.cacheGCInterval, cfg.serviceIdentify, routerCache, cache)
    }

    ghost predicate Valid()
      reads this, cfg
    {
      Wf(Snapshot()) && RouterKeysNonEmpty(Snapshot())
    }

    /** NewAuthorizeHandle */
    constructor (cfg: Config)
      modifies cfg
      ensures this.cfg == cfg && Valid()
      ensures Snapshot() == NewState(old(cfg.isEnabledCache), old(cfg.cacheGCInterval), old(cfg.serviceIdentify))
      ensures sent == [] && tokenGets == 0
    {
      if cfg.isEnabledCache {
        if cfg.cacheGCInterval == 0 {
          cfg.cacheGCInterval := DefaultGCInterval;
        }
        routerCache := Some(map[]);
        cache := Some(map[]);
      } else {
        routerCache := None;
        cache := None;
      }
      this.cfg := cfg;
      sent := [];
      tokenGets := 0;
    }

    method GetFromRouterCache(router: string, r: Reader, now: int) returns (b: Bytes, ok: bool)
      requires Valid()
      ensures ok <==> RouterLookup(Snapshot(), router, r, now).Some?
      ensures ok ==> b == RouterLookup(Snapshot(), router, r, now).value
      ensures !ok ==> b == []
    {
      if !cfg.isEnabledCache {
        return [], false;
      }
      if r.expires(router) <= 0 {
        return [], false;
      }
      var key := r.hash;
      if key == "" {
        return [], false;
      }
      var v := Get(routerCache.value, key, now);
      if v.None? {
        return [], false;
      }
      return v.value, true;
    }

    method SetRouterCache<V>(router: string, r: Reader, decoded: Option<V>,
                             encode: V -> Result<Bytes, string>, now: int)
      requires Valid()
      modifies this`routerCache
      ensures Valid()
      ensures Snapshot() == RouterStore(old(Snapshot()), router, r, decoded, encode, now)
    {
      if !cfg.isEnabledCache {
        return;
      }
      var expires := r.expires(router);
      if expires <= 0 {
        return;
      }
      var key := r.hash;
      if key == "" {
        return;
      }
      var b := CacheBytes(decoded, encode);
      routerCache := Some(Set(routerCache.value, key, b, expires, now));
    }

    /** The generic call: mutate the bare request, hand it to the
        transport, classify the outcome. */
    method Request<V>(router: string, verb: Method, reqHandle: Option<Mutator>,
                      sink: Sink<V>, reply: Transport) returns (result: CallResult<V>)
      modifies this`sent
      ensures var d := RequestSpec(router, verb, reqHandle, sink, reply);
              result == d.result
              && sent == old(sent) + (if d.sent.Some? then [d.sent.value] else [])
    {
      var req := Bare(router, verb);
      if reqHandle.Some? {
        var prepared := reqHandle.value(req);
        if prepared.Failure? {
          return Failed(prepared.error);
        }
        req := prepared.value;
      }
      sent := sent + [req];
      match reply
      case Unreachable(m) =>
        result := Failed(ErrorResult(m, None));
      case Replied(code, body) =>
        if code == 200 {
          if sink.Discard? {
            return Done(None);
          }
          var decoded := sink.decode(body);
          if decoded.Failure? {
            return Failed(ErrorResult(decoded.error, None));
          }
          result := Done(Some(decoded.value));
        } else {
          result := Failed(ErrorResult(AsText(body), Some(code)));
        }
    }

    /** tokenPost: a token-authenticated POST through the router cache. */
    method TokenPost<V>(router: string, body: Body, sink: Sink<V>, encode: V -> Result<Bytes, string>,
                        token: Result<string, ErrorResult>, reply: Transport, now: int)
      returns (result: CallResult<V>)
      requires Valid()
      modifies this`routerCache, this`sent, this`tokenGets
      ensures Valid()
      ensures var p := PostSpec(old(Snapshot()), router, body, sink, encode, token, reply, now);
              result == p.result && Snapshot() == p.state
              && sent == old(sent) + (if p.sent.Some? then [p.sent.value] else [])
              && tokenGets == old(tokenGets) + (if p.askedToken then 1 else 0)
    {
      if body.Payload? && body.reader.Some? {
        var b, found := GetFromRouterCache(router, body.reader.value, now);
        if found {
          if |b| == 0 {
            return Done(None);
          }
          if sink.Discard? {
            return Done(None);
          }
          var decoded := sink.decode(b);
          if decoded.Failure? {
            return Failed(ErrorResult(decoded.error, None));
          }
          return Done(Some(decoded.value));
        }
      }
      // the mutator asks the token provider first thing
      tokenGets := tokenGets + 1;
      result := Request(router, HttpPost, Some(PostMutator(token, body)), sink, reply);
      if result.Failed? {
        return;
      }
      if body.Payload? && body.reader.Some? {
        SetRouterCache(router, body.reader.value, result.decoded, encode, now);
      }
    }

    method VerifyToken(token: string, decode: Bytes -> Result<VerifyReply, string>, reply: Transport, now: int)
      returns (userID: string, clientID: string, result: Option<ErrorResult>)
      requires Valid()
      modifies this`cache, this`sent
      ensures Valid()
      ensures var v := VerifySpec(old(Snapshot()), token, decode, reply, now);
              Snapshot() == v.state
              && sent == old(sent) + (if v.sent.Some? then [v.sent.value] else [])
              && (v.result.Success? ==> result.None? && (userID, clientID) == v.result.value)
              && (v.result.Failure? ==> result == Some(v.result.error) && userID == "" && clientID == "")
    {
      if cfg.isEnabledCache {
        var at := Get(cache.value, token, now);
        if at.Some? && at.value.Pair? {
          return at.value.userID, at.value.clientID, None;
        }
      }
      var r := Request(VerifyRouter, HttpGet, Some(VerifyParams(token, cfg.serviceIdentify)), Into(decode), reply);
      if r.Failed? {
        return "", "", Some(r.err);
      }
      var resData := r.decoded.value;
      userID, clientID := resData.userID, resData.clientID;
      if cfg.isEnabledCache && cfg.cacheGCInterval < resData.expiresIn {
        cache := Some(Set(cache.value, token, Pair(resData.userID, resData.clientID),
                          resData.expiresIn - cfg.cacheGCInterval, now));
      }
      result := None;
    }

    method VerifyTokenV2(token: string, decode: Bytes -> Result<TokenInfo, string>, reply: Transport, now: int)
      returns (info: Option<TokenInfo>, result: Option<ErrorResult>)
      requires Valid()
      modifies this`cache, this`sent
      ensures Valid()
      ensures var v := VerifyV2Spec(old(Snapshot()), token, decode, reply, now);
              Snapshot() == v.state
              && sent == old(sent) + (if v.sent.Some? then [v.sent.value] else [])
              && (v.result.Success? ==> info == Some(v.result.value) && result.None?)
              && (v.result.Failure? ==> info.None? && result == Some(v.result.error))
    {
      if cfg.isEnabledCache {
        var at := Get(cache.value, token, now);
        if at.Some? && at.value.Info? {
          return Some(at.value.info), None;
        }
      }
      var r := Request(VerifyV2Router, HttpGet, Some(VerifyParams(token, cfg.serviceIdentify)), Into(decode), reply);
      if r.Failed? {
        return None, Some(r.err);
      }
      var resData := r.decoded.value;
      if cfg.isEnabledCache && cfg.cacheGCInterval < resData.expiresIn {
        cache := Some(Set(cache.value, token, Info(resData), resData.expiresIn - cfg.cacheGCInterval, now));
      }
      return Some(resData), None;
    }

    /** ForceGetToken: the access token of a forced refresh, or its error verbatim. */
    method ForceGetToken(forced: Result<TokenRecord, ErrorResult>) returns (tokenString: string, result: Option<ErrorResult>)
      ensures forced.Failure? ==> tokenString == "" && result == Some(forced.error)
      ensures forced.Success? ==> tokenString == forced.value.accessToken && result.None?
    {
      if forced.Failure? {
        return "", Some(forced.error);
      }
      tokenString := forced.value.accessToken;
      result := None;
    }
  }
}
