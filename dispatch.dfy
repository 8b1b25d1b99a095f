/** The pure decisions of the dispatch layer: when a request body may use
    the router cache, how a transport outcome becomes a result or an error,
    and how cached bytes are written and read back. */
module Dispatch {
  import opened Outcomes

  /** The optional RequestReader capability of a request body: a
      fingerprint (`""` means "not cacheable") and a TTL in seconds per
      endpoint (`<= 0` means "do not cache for this endpoint"). */
  datatype Reader = Reader(hash: string, expires: string -> int)

  /** A request body: nil, or a payload whose JSON encoding may fail and
      which may implement the RequestReader capability. */
  datatype Body = NilBody | Payload(json: Result<Bytes, string>, reader: Option<Reader>)

  /** Where a successful response is decoded: nowhere (a nil sink) or
      through a decoder that may fail. */
  datatype Sink<V> = Discard | Into(decode: Bytes -> Result<V, string>)

  /** Success (with the decoded value when a decode happened) or an error. */
  datatype CallResult<V> = Done(decoded: Option<V>) | Failed(err: ErrorResult)

  /** The per-operation request mutator: it may fail before any network I/O. */
  type Mutator = Outbound -> Result<Outbound, ErrorResult>

  /** The cache key and TTL of an eligible request. */
  datatype Slot = Slot(key: string, ttl: int)

  /** Router-cache eligibility, shared by reading and writing. */
  function CacheSlot(enabled: bool, router: string, r: Reader): (s: Option<Slot>)
    ensures s.Some? <==> enabled && r.expires(router) > 0 && r.hash != ""
    ensures s.Some? ==> s.value.key == r.hash && s.value.ttl == r.expires(router) && s.value.ttl > 0
  {
    if !enabled then None
    else if r.expires(router) <= 0 then None
    else if r.hash == "" then None
    else Some(Slot(r.hash, r.expires(router)))
  }

  /** Decoding a payload into the caller's sink. */
  function Decode<V>(sink: Sink<V>, b: Bytes): (r: CallResult<V>)
    ensures sink.Discard? ==> r == Done(None)
    ensures r.Failed? ==> r.err.status.None? && sink.Into? && sink.decode(b).Failure?
                          && r.err.message == sink.decode(b).error
    ensures sink.Into? && r.Done? ==> r.decoded.Some? && sink.decode(b) == Success(r.decoded.value)
  {
    match sink
    case Discard => Done(None)
    case Into(decode) =>
      match decode(b)
      case Success(v) => Done(Some(v))
      case Failure(m) => Failed(ErrorResult(m, None))
  }

  /** The outcome classification of a request that reached the transport. */
  function Classify<V>(reply: Transport, sink: Sink<V>): (r: CallResult<V>)
    ensures reply.Unreachable? ==> r == Failed(ErrorResult(reply.message, None))
    ensures reply.Replied? && reply.status != 200 ==>
              r == Failed(ErrorResult(AsText(reply.body), Some(reply.status)))
    ensures (r.Failed? && r.err.status.Some?) <==> (reply.Replied? && reply.status != 200)
    ensures r.Done? ==> reply.Replied? && reply.status == 200
    ensures reply.Replied? && reply.status == 200 ==> r == Decode(sink, reply.body)
  {
    match reply
    case Unreachable(m) => Failed(ErrorResult(m, None))
    case Replied(code, body) =>
      if code == 200 then Decode(sink, body)
      else Failed(ErrorResult(AsText(body), Some(code)))
  }

  /** The request after the mutator, if there is one, has run. */
  function Prepared(router: string, verb: Method, reqHandle: Option<Mutator>): Result<Outbound, ErrorResult>
  {
    if reqHandle.None? then Success(Bare(router, verb)) else reqHandle.value(Bare(router, verb))
  }

  /** What one generic call produces, and the request it handed to the
      transport, if any. */
  datatype Dispatched<V> = Dispatched(result: CallResult<V>, sent: Option<Outbound>)

  function RequestSpec<V>(router: string, verb: Method, reqHandle: Option<Mutator>,
                          sink: Sink<V>, reply: Transport): (d: Dispatched<V>)
    ensures reqHandle.None? ==> d.sent == Some(Bare(router, verb))
    ensures Prepared(router, verb, reqHandle).Failure? ==>
              d == Dispatched(Failed(Prepared(router, verb, reqHandle).error), None)
    ensures d.sent.Some? <==> Prepared(router, verb, reqHandle).Success?
    ensures d.sent.Some? ==> d.sent.value == Prepared(router, verb, reqHandle).value
                             && d.result == Classify(reply, sink)
  {
    match Prepared(router, verb, reqHandle)
    case Failure(e) => Dispatched(Failed(e), None)
    case Success(req) => Dispatched(Classify(reply, sink), Some(req))
  }

  /** tokenPost's answer from bytes found in the router cache. */
  function FromCache<V>(b: Bytes, sink: Sink<V>): (r: CallResult<V>)
    ensures |b| == 0 || sink.Discard? ==> r == Done(None)
    ensures r.Failed? ==> r.err.status.None? && sink.Into? && |b| > 0 && sink.decode(b).Failure?
    ensures sink.Into? && |b| > 0 && sink.decode(b).Success? ==> r == Done(Some(sink.decode(b).value))
    ensures sink.Into? && |b| > 0 && sink.decode(b).Failure? ==> r == Failed(ErrorResult(sink.decode(b).error, None))
  {
    if |b| == 0 then Done(None) else Decode(sink, b)
  }

  /** What setRouterCache stores for a result: `null` for a nil result, the
      encoding otherwise, and empty bytes when encoding fails (the failure
      is swallowed). */
  function CacheBytes<V>(decoded: Option<V>, encode: V -> Result<Bytes, string>): (b: Bytes)
    ensures decoded.None? ==> b == NullJson
    ensures decoded.Some? && encode(decoded.value).Success? ==> b == encode(decoded.value).value
    ensures decoded.Some? && encode(decoded.value).Failure? ==> b == []
  {
    match decoded
    case None => NullJson
    case Some(v) => if encode(v).Success? then encode(v).value else []
  }

  /** The codec laws a JSON encoder/decoder pair satisfies for one result
      type: encoding succeeds with non-empty text that decodes back. */
  ghost predicate Lawful<V(!new)>(decode: Bytes -> Result<V, string>, encode: V -> Result<Bytes, string>)
  {
    forall v :: encode(v).Success? && |encode(v).value| > 0 && decode(encode(v).value) == Success(v)
  }

  /** Writing a result to the router cache and reading it back gives the
      same result for a lawful codec; an encode failure is read back as a
      success without payload. */
  lemma CachedResultRoundTrip<V(!new)>(sink: Sink<V>, decoded: Option<V>, encode: V -> Result<Bytes, string>)
    requires sink.Discard? ==> decoded.None?
    requires sink.Into? ==> decoded.Some?
    ensures sink.Into? && Lawful(sink.decode, encode) ==>
              FromCache(CacheBytes(decoded, encode), sink) == Done(decoded)
    ensures sink.Discard? ==> FromCache(CacheBytes(decoded, encode), sink) == Done(decoded)
    ensures sink.Into? && encode(decoded.value).Failure? ==>
              FromCache(CacheBytes(decoded, encode), sink) == Done(None)
  {
    if sink.Into? && Lawful(sink.decode, encode) {
      var v := decoded.value;
      assert encode(v).Success? && |encode(v).value| > 0;
    }
  }
}
