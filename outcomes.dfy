/** Value types shared by the dispatch layer: optional values, results,
    raw bytes, the error envelope and the shape of an outgoing HTTP request. */
module Outcomes {

  datatype Option<+T> = None | Some(value: T)

  datatype Result<+T, +E> = Success(value: T) | Failure(error: E)

  newtype byte = b: int | 0 <= b < 256

  type Bytes = seq<byte>

  /** The JSON text `null`: what encoding a nil result produces. */
  const NullJson: Bytes := [0x6e, 0x75, 0x6c, 0x6c]

  /** Reinterprets raw bytes as text, byte for byte, as Go's `string(buf)` does. */
  function AsText(b: Bytes): (s: string)
    ensures |s| == |b|
    ensures forall i :: 0 <= i < |b| ==> s[i] as int == b[i] as int
  {
    seq(|b|, i requires 0 <= i < |b| => b[i] as int as char)
  }

  /** The uniform error envelope. `status` is `None` when no HTTP status
      exists (transport, token, encode and decode failures) and `Some(code)`
      when the remote service answered with a non-200 status. */
  datatype ErrorResult = ErrorResult(message: string, status: Option<int>)

  datatype Method = HttpGet | HttpPost

  /** An outgoing request as handed to the transport: the endpoint is kept
      as its router path (the base URL is configuration). */
  datatype Outbound = Outbound(
    verb: Method,
    router: string,
    headers: seq<(string, string)>,
    params: seq<(string, string)>,
    json: Option<Bytes>)

  /** The bare request built before the per-operation mutator runs. */
  function Bare(router: string, verb: Method): Outbound
  {
    Outbound(verb, router, [], [], None)
  }

  /** What the transport gives back: a failure before any status was read
      (connection, timeout, reading the body) or a status with the raw body. */
  datatype Transport = Unreachable(message: string) | Replied(status: int, body: Bytes)
}
