# Cache-or-call dispatch of the authorize handle

This project models the dispatch and caching layer of the `asapi` client's
`AuthorizeHandle` (`asapi/authorize_handle.go`). The client talks to a remote
identity service. It has two caches, and both exist only when caching is
enabled:

- the **router cache** holds response bytes, keyed by a request body's
  fingerprint (`Hash()`), for as many seconds as the body's `Expires(router)`
  says;
- the **verification cache** holds token-verification results, keyed by the
  raw token string.

The model proves, for every call, when a cache is consulted, when the token
provider and the network are reached, how outcomes become errors, and which
key and TTL a write-back uses.

Modules:

- `Outcomes` (outcomes.dfy): the shared value types. These are the error
  envelope `ErrorResult` (`status` is `None` when no HTTP status exists), the
  outgoing request `Outbound` and the transport's answer `Transport`.
- `TtlCache` (ttl_cache.dfy): the expiring map behind both caches. Expiry is
  lazy: an entry is returned while `now < expiresAt`.
- `Dispatch` (dispatch.dfy): the pure decisions. These are router-cache
  eligibility, outcome classification, the generic call (`request`), and how
  cached bytes are written and read back.
- `HandleModel` (handle_model.dfy): the handle as a value `State`, with one
  specification function per operation. Each function gives the result, the
  request sent (if any) and the new state.
- `Handle` (handle.dfy): class `AuthorizeHandle` over a `Config` object. Its
  methods update the cache fields in place and are proved equal to the
  specification functions. The ghost fields `sent` (every request handed to
  the transport) and `tokenGets` (how often the token provider was asked)
  make "nothing was sent" a plain postcondition.
- `ServiceIdentify` (service_identify.dfy): how the per-endpoint wrappers
  choose the service identifier.
- `Runs` (runs.dfy): repeated calls. A cacheable request that succeeded is
  not sent again within its TTL. A disabled cache makes a RequestReader body
  behave like a plain one. Verification results are served until one sweep
  interval before the token's expiry.

Everything outside the layer is an explicit input of each call:

- what the token provider answers (a token or an `ErrorResult`);
- what the transport answers;
- the decoder and encoder of the result type;
- the outcome of encoding the request body as JSON;
- the current time in whole seconds.

The RequestReader capability is a `Reader` value: a fingerprint and a TTL
function of the router.

Three behaviours of the code are easy to miss:

- Empty cached bytes read as "success without payload". A JSON encoder never
  produces empty bytes, so in the code the only source of empty bytes is an
  encode failure on write-back (`b, _ := json.Marshal(v)` stores a nil
  slice). The model stores exactly that. `Dispatch.CachedResultRoundTrip` and
  `Runs.RepeatWithinTtlSendsOnce` show the result: after an encode failure,
  later calls within the TTL succeed without data and without a network
  call.
- Writing back the result of a call with a nil sink stores the JSON text
  `null`. A later hit then succeeds without decoding.
- The `ModifyPwd` rule takes the first variadic argument even when it is
  empty. The other override rules ignore an empty override.

## Model

| member | source | states |
|---|---|---|
| `TtlCache.Set` | asapi/authorize_handle.go:76 | an entry stored with TTL `ttl` is returned for exactly `ttl` seconds from `now` and then expires; every other key is unchanged |
| `Dispatch.CacheSlot` | asapi/authorize_handle.go:41-52 | a request is cache-eligible iff caching is enabled, `Expires(router) > 0` and `Hash() != ""`; the key is then the hash and the TTL is `Expires(router)` |
| `Dispatch.Decode` | asapi/authorize_handle.go:105-113 | a nil sink succeeds without decoding; otherwise the result is exactly what the decoder produced, and a decode failure is an error with no HTTP status carrying the decoder's message |
| `Dispatch.Classify` | asapi/authorize_handle.go:92-116 | transport/read failure gives an error with no status; non-200 gives an error whose message is the body text and whose status is the code; an error carries a status iff the remote answered non-200; success only on 200 |
| `Dispatch.RequestSpec` | asapi/authorize_handle.go:80-119 | a mutator failure returns that same error and nothing is sent; otherwise exactly the mutated request is sent and the result is the classification of the reply |
| `Dispatch.FromCache` | asapi/authorize_handle.go:124-139 | on a cache hit, empty bytes or a nil sink mean success without decoding; with a non-nil sink, non-empty bytes give the decoded value when they decode and otherwise an error carrying the decoder's message and no status; a failure is only ever such a decode failure |
| `Dispatch.CacheBytes` | asapi/authorize_handle.go:75-76 | the stored bytes are `null` for a nil result, the encoding otherwise, and empty when encoding fails (the failure is swallowed) |
| `Dispatch.CachedResultRoundTrip` | asapi/authorize_handle.go:124-139 | writing a result and reading it back gives the same result for a lawful codec or a nil sink; after an encode failure it reads back as success without payload |
| `HandleModel.NewState` | asapi/authorize_handle.go:14-30 | both caches exist (empty) iff caching is enabled; an enabled handle with sweep interval 0 gets 300, otherwise the interval is kept |
| `HandleModel.RouterLookup` | asapi/authorize_handle.go:41-61 | a lookup hits iff the request is eligible and a live entry exists under its hash, and then returns that entry's bytes; an ineligible request or a disabled cache always misses |
| `HandleModel.RouterStore` | asapi/authorize_handle.go:63-77 | an ineligible write changes nothing; an eligible one stores the cache bytes under exactly `Hash()` with TTL exactly `Expires(router)`, which a lookup then returns for that long; nothing but the router cache changes and no empty key is introduced |
| `HandleModel.PostSpec` | asapi/authorize_handle.go:122-167 | a hit answers from the cache without the token or the network; a miss always asks for the token; a token failure is returned verbatim with nothing sent; a body encode failure aborts before sending; what is sent is a POST with the provider's token and the body's JSON; a failure leaves the state unchanged; only an eligible RequestReader body that succeeded over the network is written back |
| `HandleModel.VerifyStoreTtl` | asapi/authorize_handle.go:378 | a verification result is cached iff caching is enabled and `CacheGCInterval < ExpiresIn`, with a positive TTL that plus the sweep interval equals `ExpiresIn` |
| `HandleModel.VerifyStore` | asapi/authorize_handle.go:421-423 | without a margin nothing changes; with one, the entry is stored under the token and expires exactly one sweep interval before the remote token does; nothing but the verification cache changes |
| `HandleModel.VerifyLookup` | asapi/authorize_handle.go:347-349 | the verification cache is consulted only when caching is enabled: a lookup hits iff caching is enabled and a live entry exists under the raw token, and then returns that entry's value |
| `HandleModel.VerifySpec` | asapi/authorize_handle.go:341-387 | a live entry of the pair shape answers without the network; anything else sends a GET to `/oauth2/verify` carrying the token and service identifier; an error is returned with the state unchanged; a success returns the decoded identifiers and stores them under the margin rule |
| `HandleModel.VerifyV2Spec` | asapi/authorize_handle.go:401-425 | the same policy for `/oauth2/verify/v2` with the extended record; an entry of the pair shape is a miss |
| `Handle.AuthorizeHandle.constructor` | asapi/authorize_handle.go:14-30 | the handle's state is `NewState` of the configuration as it was, and the configuration's sweep interval is defaulted in place |
| `Handle.AuthorizeHandle.GetFromRouterCache` | asapi/authorize_handle.go:41-61 | reports a hit and its bytes exactly as `RouterLookup` does, nil bytes on a miss |
| `Handle.AuthorizeHandle.SetRouterCache` | asapi/authorize_handle.go:63-77 | the new state is `RouterStore` of the old one |
| `Handle.AuthorizeHandle.Request` | asapi/authorize_handle.go:80-119 | returns `RequestSpec`'s result and appends to the sent log exactly the request it hands to the transport |
| `Handle.AuthorizeHandle.TokenPost` | asapi/authorize_handle.go:122-167 | result, new caches, sent log and token-provider count are those of `PostSpec` |
| `Handle.AuthorizeHandle.VerifyToken` | asapi/authorize_handle.go:341-387 | result, new caches and sent log are those of `VerifySpec`; on error both identifiers are empty |
| `Handle.AuthorizeHandle.VerifyTokenV2` | asapi/authorize_handle.go:401-425 | result, new caches and sent log are those of `VerifyV2Spec`; on error no record is returned |
| `Handle.AuthorizeHandle.ForceGetToken` | asapi/authorize_handle.go:331-338 | a forced-refresh error is returned verbatim with an empty token; otherwise the record's access token |
| `ServiceIdentify.Override` | asapi/authorize_handle.go:233-237 | a non-empty override replaces the configured identifier, an empty one does not |
| `ServiceIdentify.FirstOf` | asapi/authorize_handle.go:293-296 | a first variadic argument, even an empty one, replaces the configured identifier |
| `ServiceIdentify.OverrideVersusFirstOf` | asapi/authorize_handle.go:815-818 | the two override rules agree on one explicit identifier iff it is non-empty or the configured one is empty |
| `Runs.PostRun` | asapi/authorize_handle.go:122-167 | repeating one tokenPost keeps the state well formed and never stores an empty key; there is one result per call, and no more requests are sent than tokens asked for |
| `Runs.LiveEntryAnswersEveryCall` | asapi/authorize_handle.go:124-139 | while the request's entry is live, every call is answered from it with no token, no request sent and no state change |
| `Runs.RepeatWithinTtlSendsOnce` | asapi/authorize_handle.go:159-165 | after an eligible miss that succeeds, calls within `Expires(router)` seconds send nothing: one request and one token in total, later results equal the cached bytes read back, and for a lawful codec or nil sink they equal the first result |
| `Runs.DisabledCacheIgnoresReader` | asapi/authorize_handle.go:42-44 | with caching disabled, a RequestReader body gives the same results, requests and state as a plain body over any run, and the state never changes |
| `Runs.VerifiedPairServedUntilMargin` | asapi/authorize_handle.go:347-356 | after a verification that is cached, a repeat before `ExpiresIn − CacheGCInterval` seconds returns the same identifiers without a network call |
| `Runs.VerifiedInfoServedUntilMargin` | asapi/authorize_handle.go:402-409 | the same for the extended record of the second variant |
| `Runs.VariantsDoNotShareEntries` | asapi/authorize_handle.go:349-350 | with no live entry for a token, a first-variant verification followed by a second-variant one sends a request both times, because the shapes differ |

## Left out

- HTTP transport: building the request, URL resolution from the router, headers and query parameters on the wire, and reading the body. These are foreign I/O. A request is recorded as an `Outbound` value and the answer is a `Transport` value. A failure of `Response()` and a failure of `Bytes()` are one case, since both give an error with no status.
- JSON and base64: library code. Decoding and encoding are function parameters that may fail. The JSON encoding of a request body is an input carried in `Body`. Partial decoding into the result before a decode error is not modelled.
- The token provider (`NewTokenHandle`, `Get`, `ForceGet`) is not part of this model. Each call takes the provider's answer as an input. `GetToken` and `GetConfig` only forward and are not modelled.
- The expiring cache library: its background sweep, locking and concurrent access are not modelled. Lazy expiry against an explicit `now` gives the same observable answers for one caller. Concurrent calls with the same key (last write wins, no deduplication) are out of scope.
- Time: all times and TTLs are whole seconds. The conversion to `time.Duration` can overflow for TTLs beyond about 292 years; this is not modelled. The library compares nanoseconds at the expiry instant; the model treats an entry as expired from `expiresAt` on.
- `TtlCache.Set`: requires a positive TTL. The library's "never expires" meaning of zero and negative durations is not modelled, because every caller passes a positive TTL.
- `NewErrorResult` lives in another file and is not part of this model. Its "no status" value is `None`.
- `Handle.AuthorizeHandle.VerifyTokenV2`: returns the cached record by value. The source returns the same pointer it stores, so a caller that changes the record also changes the cache entry; that aliasing is not captured.
- The per-endpoint wrappers (`VerifyLogin`, `AddUser`, `EditUser`, `MergeUser`, `GetStaffParam`, `GetUpgradeToken`, `GetAccessTokenByPassword`, `UserRefreshToken`, …): they only assemble bodies or parameters and forward to `tokenPost` or `request`. Only their service-identifier rules are modelled. The concrete RequestReader bodies (`GetStaffParamRequest`, `GetUserCodeRequest`, `GetAntUIDByUniversityRequest`) are not part of this model; `Reader` stands for their `Hash` and `Expires`.
- Changes to the shared configuration object after construction by code outside the handle: `Valid()` reads the configuration, so such a change must re-establish it.
