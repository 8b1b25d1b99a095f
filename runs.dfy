/** Sequences of calls against one handle state: what repeated calls of the
    same operation do to the network and to the caches. */
module Runs {
  import opened Outcomes
  import opened TtlCache
  import opened Dispatch
  import opened HandleModel

  /** One tokenPost call's view of the outside world: what the token
      provider and the transport would answer, and the current time. */
  datatype PostCall = PostCall(token: Result<string, ErrorResult>, reply: Transport, now: int)

  datatype Trace<V> = Trace(state: State, results: seq<CallResult<V>>, sent: seq<Outbound>, tokenGets: nat)

  /** The same tokenPost operation (router, body, sink) issued once per call, in order. */
  function PostRun<V>(s: State, router: string, body: Body, sink: Sink<V>,
                      encode: V -> Result<Bytes, string>, calls: seq<PostCall>): (t: Trace<V>)
    requires Wf(s)
    ensures Wf(t.state) && |t.results| == |calls|
    ensures |t.sent| <= t.tokenGets <= |calls|
    ensures RouterKeysNonEmpty(s) ==> RouterKeysNonEmpty(t.state)
    decreases |calls|
  {
    if calls == [] then Trace(s, [], [], 0)
    else
      var c := calls[0];
      var p := PostSpec(s, router, body, sink, encode, c.token, c.reply, c.now);
      var rest := PostRun(p.state, router, body, sink, encode, calls[1..]);
      Trace(rest.state, [p.result] + rest.results,
            (if p.sent.Some? then [p.sent.value] else []) + rest.sent,
            (if p.askedToken then 1 else 0) + rest.tokenGets)
  }

  /** While a router-cache entry for the request is live, every call is
      answered from it: no token, no network, no change to the state. */
  lemma {:induction false} LiveEntryAnswersEveryCall<V>(s: State, router: string, json: Result<Bytes, string>,
                                                       r: Reader, sink: Sink<V>,
                                                       encode: V -> Result<Bytes, string>, calls: seq<PostCall>)
    requires Wf(s) && s.enabled && r.expires(router) > 0 && r.hash != ""
    requires r.hash in s.routerCache.value
    requires forall i :: 0 <= i < |calls| ==> calls[i].now < s.routerCache.value[r.hash].expiresAt
    ensures var t := PostRun(s, router, Payload(json, Some(r)), sink, encode, calls);
            t.state == s && t.sent == [] && t.tokenGets == 0
            && forall i :: 0 <= i < |calls| ==> t.results[i] == FromCache(s.routerCache.value[r.hash].value, sink)
    decreases |calls|
  {
    if calls != [] {
      LiveEntryAnswersEveryCall(s, router, json, r, sink, encode, calls[1..]);
      var t := PostRun(s, router, Payload(json, Some(r)), sink, encode, calls);
      var rest := PostRun(s, router, Payload(json, Some(r)), sink, encode, calls[1..]);
      assert t.results == [FromCache(s.routerCache.value[r.hash].value, sink)] + rest.results;
    }
  }

  /** A cache-eligible request that misses and succeeds over the network is
      not sent again while its TTL lasts: later calls are answered with what
      was cached, which for a lawful codec is the first call's result. */
  lemma RepeatWithinTtlSendsOnce<V(!new)>(s: State, router: string, json: Result<Bytes, string>, r: Reader,
                                         sink: Sink<V>, encode: V -> Result<Bytes, string>,
                                         first: PostCall, later: seq<PostCall>)
    requires Wf(s) && s.enabled && r.expires(router) > 0 && r.hash != ""
    requires RouterLookup(s, router, r, first.now).None?
    requires PostSpec(s, router, Payload(json, Some(r)), sink, encode, first.token, first.reply, first.now).result.Done?
    requires forall i :: 0 <= i < |later| ==> later[i].now < first.now + r.expires(router)
    ensures var t := PostRun(s, router, Payload(json, Some(r)), sink, encode, [first] + later);
            |t.sent| == 1 && t.tokenGets == 1
            && (forall i :: 1 <= i < |t.results| ==>
                  t.results[i] == FromCache(CacheBytes(t.results[0].decoded, encode), sink))
            && (sink.Discard? || Lawful(sink.decode, encode) ==>
                  forall i :: 0 <= i < |t.results| ==> t.results[i] == t.results[0])
  {
    var body := Payload(json, Some(r));
    var p := PostSpec(s, router, body, sink, encode, first.token, first.reply, first.now);
    assert p.sent.Some?;
    var s1 := p.state;
    assert s1 == RouterStore(s, router, r, p.result.decoded, encode, first.now);
    var b := CacheBytes(p.result.decoded, encode);
    assert s1.routerCache.value[r.hash] == Entry(b, first.now + r.expires(router));
    LiveEntryAnswersEveryCall(s1, router, json, r, sink, encode, later);
    var calls := [first] + later;
    assert calls[0] == first && calls[1..] == later;
    var t := PostRun(s, router, body, sink, encode, calls);
    var rest := PostRun(s1, router, body, sink, encode, later);
    assert t.results == [p.result] + rest.results;
    if sink.Discard? || Lawful(sink.decode, encode) {
      assert p.result.Done? && (sink.Discard? <==> p.result.decoded.None?);
      CachedResultRoundTrip(sink, p.result.decoded, encode);
    }
  }

  /** With caching disabled, a RequestReader body behaves exactly like a
      plain one over any run of calls, and the state never changes. */
  lemma {:induction false} DisabledCacheIgnoresReader<V>(s: State, router: string, json: Result<Bytes, string>,
                                                        r: Reader, sink: Sink<V>,
                                                        encode: V -> Result<Bytes, string>, calls: seq<PostCall>)
    requires Wf(s) && !s.enabled
    ensures PostRun(s, router, Payload(json, Some(r)), sink, encode, calls)
            == PostRun(s, router, Payload(json, None), sink, encode, calls)
    ensures PostRun(s, router, Payload(json, None), sink, encode, calls).state == s
    decreases |calls|
  {
    if calls != [] {
      var c := calls[0];
      var p := PostSpec(s, router, Payload(json, Some(r)), sink, encode, c.token, c.reply, c.now);
      var q := PostSpec(s, router, Payload(json, None), sink, encode, c.token, c.reply, c.now);
      assert PostMutator(c.token, Payload(json, Some(r))) == PostMutator(c.token, Payload(json, None));
      assert p == q;
      DisabledCacheIgnoresReader(s, router, json, r, sink, encode, calls[1..]);
    }
  }

  /** A verified pair is served from the cache, without the network, until
      one sweep interval before the remote token's own expiry. */
  lemma VerifiedPairServedUntilMargin(s: State, token: string, decode: Bytes -> Result<VerifyReply, string>,
                                      reply: Transport, now: int, decode2: Bytes -> Result<VerifyReply, string>,
                                      reply2: Transport, later: int)
    requires Wf(s) && !PairHit(s, token, now)
    requires Classify(reply, Into(decode)).Done?
    requires now <= later
    requires var r := Classify(reply, Into(decode)).decoded.value;
             s.enabled && s.gcInterval < r.expiresIn && later + s.gcInterval < now + r.expiresIn
    ensures var v := VerifySpec(s, token, decode, reply, now);
            var w := VerifySpec(v.state, token, decode2, reply2, later);
            w.sent.None? && w.result == v.result && w.state == v.state
  {
    var r := Classify(reply, Into(decode)).decoded.value;
    var v := VerifySpec(s, token, decode, reply, now);
    assert v.state.cache.value[token] == Entry(Pair(r.userID, r.clientID), now + r.expiresIn - s.gcInterval);
    assert PairHit(v.state, token, later);
  }

  /** The same margin for the extended record of the second variant. */
  lemma VerifiedInfoServedUntilMargin(s: State, token: string, decode: Bytes -> Result<TokenInfo, string>,
                                      reply: Transport, now: int, decode2: Bytes -> Result<TokenInfo, string>,
                                      reply2: Transport, later: int)
    requires Wf(s) && !InfoHit(s, token, now)
    requires Classify(reply, Into(decode)).Done?
    requires now <= later
    requires var r := Classify(reply, Into(decode)).decoded.value;
             s.enabled && s.gcInterval < r.expiresIn && later + s.gcInterval < now + r.expiresIn
    ensures var v := VerifyV2Spec(s, token, decode, reply, now);
            var w := VerifyV2Spec(v.state, token, decode2, reply2, later);
            w.sent.None? && w.result == v.result && w.state == v.state
  {
    var r := Classify(reply, Into(decode)).decoded.value;
    var v := VerifyV2Spec(s, token, decode, reply, now);
    assert v.state.cache.value[token] == Entry(Info(r), now + r.expiresIn - s.gcInterval);
    assert InfoHit(v.state, token, later);
  }

  /** The two verification variants share one cache but not its entries:
      right after the first variant looks a token up, the second still asks
      the remote service, whatever the first one cached. */
  lemma VariantsDoNotShareEntries(s: State, token: string, decode: Bytes -> Result<VerifyReply, string>,
                                  reply: Transport, decode2: Bytes -> Result<TokenInfo, string>,
                                  reply2: Transport, now: int)
    requires Wf(s) && VerifyLookup(s, token, now).None?
    ensures var v := VerifySpec(s, token, decode, reply, now);
            var w := VerifyV2Spec(v.state, token, decode2, reply2, now);
            v.sent.Some? && w.sent.Some?
  {
    var v := VerifySpec(s, token, decode, reply, now);
    if v.state.cache != s.cache {
      assert v.state.cache.value[token].value.Pair?;
    }
    assert !InfoHit(v.state, token, now);
  }
}
