/** The gateway's security post-filter. When request decryption is enabled it
    publishes a fresh key for every response: it draws a random token that
    names no stored key, announces the token (`offset`) and the public key
    (`pk`) as response headers, and stores the private key under the token for
    two hours, holding the token's lock around the write. Any failure replaces
    the response with a GATEWAY_S001 / 502 error body. */
module SecurityFilter {
  import opened Dto
  import opened KeyStore
  import opened Zuul
  import ExceptionHandling

  /** The two halves of a freshly generated asymmetric key pair. */
  datatype KeyPair = KeyPair(publicKey: string, privateKey: string)

  /** Which store calls throw during one publish: `lock` or `put`. */
  datatype StoreFaults = StoreFaults(lockFails: bool, putFails: bool)

  /** Lifetime of a published private key: two hours, in milliseconds. */
  const KeyTtlMillis: nat := 2 * 60 * 60 * 1000

  const OffsetHeader := "offset"
  const PublicKeyHeader := "pk"
  const ApplicationJson := "application/json"
  const GatewayS001Name := "GATEWAY_S001"

  /** The error envelope the filter sends when publishing fails: it reports
      the error code's name and message and the given status. */
  function GenerateErrorResponse(errorCode: ErrorCode, httpStatus: HttpStatus): (r: GenericResponse)
    ensures !r.success && r.data == None
    ensures r.error.Some?
    ensures r.error.value.errorCode == errorCode.name
    ensures r.error.value.errorMessage == errorCode.errorMsg
    ensures r.error.value.httpStatus == httpStatus
  {
    GenericResponse(false, None, Some(ErrorResponse(errorCode.name, errorCode.errorMsg, httpStatus)))
  }

  /** The filter's error body is exactly the body the global exception
      handler would send for a gateway exception carrying the same code,
      message and status. */
  lemma ErrorResponseAgreesWithHandler(errorCode: ErrorCode, httpStatus: HttpStatus)
    ensures GenerateErrorResponse(errorCode, httpStatus)
         == ExceptionHandling.HandleProductException(
              ExceptionHandling.GatewayException(errorCode.name, errorCode.errorMsg, httpStatus)).body
  {
  }

  // ---------------------------------------------------------------------------
  // Token minting

  /** Some candidate token names no stored key: the random draw terminates. */
  ghost predicate HasFresh(candidates: seq<string>, keys: set<string>)
  {
    exists i :: 0 <= i < |candidates| && candidates[i] !in keys
  }

  /** Index of the first candidate that names no stored key. */
  function FirstFresh(candidates: seq<string>, keys: set<string>): (i: nat)
    requires HasFresh(candidates, keys)
    ensures i < |candidates| && candidates[i] !in keys
    ensures forall j :: 0 <= j < i ==> candidates[j] in keys
    decreases |candidates|
  {
    if candidates[0] !in keys then 0
    else
      assert HasFresh(candidates[1..], keys) by {
        var k :| 0 <= k < |candidates| && candidates[k] !in keys;
        assert candidates[1..][k - 1] == candidates[k];
      }
      1 + FirstFresh(candidates[1..], keys)
  }

  /** The token the minting loop settles on. */
  function MintedToken(candidates: seq<string>, keys: set<string>): (token: string)
    requires HasFresh(candidates, keys)
    ensures token !in keys && token in candidates
  {
    candidates[FirstFresh(candidates, keys)]
  }

  // ---------------------------------------------------------------------------
  // Specification of one publish step

  /** The context after the failure path: the upstream response is
      suppressed, the body becomes the GATEWAY_S001 / 502 error and, when
      there is a servlet response, its content type becomes JSON. */
  function Failed(ctx: ContextState, gatewayS001: ErrorCode): (r: ContextState)
    ensures r.headers == ctx.headers && r.hasResponse == ctx.hasResponse
    ensures !r.sendZuulResponse
    ensures r.body.Some? && r.body.value.Json?
    ensures r.body.value.envelope.error.Some?
    ensures r.body.value.envelope.error.value.errorCode == gatewayS001.name
    ensures r.body.value.envelope.error.value.httpStatus == StatusBadGateway
    ensures r.hasResponse ==> r.contentType == Some(ApplicationJson)
    ensures !r.hasResponse ==> r.contentType == ctx.contentType
  {
    ctx.(sendZuulResponse := false,
         body := Some(Json(GenerateErrorResponse(gatewayS001, StatusBadGateway))),
         contentType := if ctx.hasResponse then Some(ApplicationJson) else ctx.contentType)
  }

  /** Store and context after one publish step, as the filter performs it:
      key pair, token, both headers, then lock, put and unlock. A missing key
      pair means its generation threw. */
  function Publish(store: StoreState, ctx: ContextState, keyPair: Option<KeyPair>,
                   candidates: seq<string>, now: int, faults: StoreFaults,
                   gatewayS001: ErrorCode): (r: (StoreState, ContextState))
    requires keyPair.Some? ==> HasFresh(candidates, store.entries.Keys)
    ensures store.entries.Keys <= r.0.entries.Keys
    ensures r.1.hasResponse == ctx.hasResponse
    ensures |r.1.headers| == |ctx.headers| + (if keyPair.Some? then 2 else 0)
  {
    match keyPair
    case None => (store, Failed(ctx, gatewayS001))
    case Some(pair) =>
      var token := MintedToken(candidates, store.entries.Keys);
      var announced := ctx.(headers := ctx.headers + [(OffsetHeader, token), (PublicKeyHeader, pair.publicKey)]);
      if faults.lockFails then
        (store, Failed(announced, gatewayS001))
      else if faults.putFails then
        (store.(locks := store.locks + multiset{token}), Failed(announced, gatewayS001))
      else
        (store.(entries := store.entries[token := Entry(pair.privateKey, now + KeyTtlMillis)]), announced)
  }

  // ---------------------------------------------------------------------------
  // Properties of a publish step

  /** A successful publish adds exactly one entry, under a token that was not
      in use, holding the private key until two hours from now; every other
      entry and every lock is as before; exactly the `offset` and `pk`
      headers are appended, and the response is otherwise untouched. */
  lemma PublishSuccess(store: StoreState, ctx: ContextState, pair: KeyPair,
                       candidates: seq<string>, now: int, faults: StoreFaults, gatewayS001: ErrorCode)
    requires HasFresh(candidates, store.entries.Keys)
    requires !faults.lockFails && !faults.putFails
    ensures var (store', ctx') := Publish(store, ctx, Some(pair), candidates, now, faults, gatewayS001);
            var token := MintedToken(candidates, store.entries.Keys);
            && token !in store.entries
            && store'.entries.Keys == store.entries.Keys + {token}
            && |store'.entries| == |store.entries| + 1
            && store'.entries[token] == Entry(pair.privateKey, now + KeyTtlMillis)
            && (forall k :: k in store.entries ==> store'.entries[k] == store.entries[k])
            && store'.locks == store.locks
            && ctx'.headers == ctx.headers + [(OffsetHeader, token), (PublicKeyHeader, pair.publicKey)]
            && ctx'.sendZuulResponse == ctx.sendZuulResponse
            && ctx'.body == ctx.body
            && ctx'.contentType == ctx.contentType
  {
    var token := MintedToken(candidates, store.entries.Keys);
    var entries' := store.entries[token := Entry(pair.privateKey, now + KeyTtlMillis)];
    assert entries'.Keys == store.entries.Keys + {token};
  }

  /** Whatever throws (key pair generation, lock or put), no key is stored,
      the upstream response is suppressed and the body is the GATEWAY_S001 /
      502 error; the content type becomes JSON only if there is a servlet
      response. */
  lemma PublishFailure(store: StoreState, ctx: ContextState, keyPair: Option<KeyPair>,
                       candidates: seq<string>, now: int, faults: StoreFaults, gatewayS001: ErrorCode)
    requires keyPair.Some? ==> HasFresh(candidates, store.entries.Keys)
    requires keyPair.None? || faults.lockFails || faults.putFails
    ensures var (store', ctx') := Publish(store, ctx, keyPair, candidates, now, faults, gatewayS001);
            && store'.entries == store.entries
            && ((keyPair.None? || faults.lockFails) ==> store'.locks == store.locks)
            && !ctx'.sendZuulResponse
            && ctx'.body == Some(Json(GenerateErrorResponse(gatewayS001, StatusBadGateway)))
            && ctx'.body.value.envelope.error.value.httpStatus.code == 502
            && ctx'.hasResponse == ctx.hasResponse
            && (ctx.hasResponse ==> ctx'.contentType == Some(ApplicationJson))
            && (!ctx.hasResponse ==> ctx'.contentType == ctx.contentType)
  {
  }

  /** The headers are written before the store: when lock or put throws, the
      response still announces the token and public key, yet no key is stored
      under the announced token. */
  lemma PublishAnnouncesBeforeStoring(store: StoreState, ctx: ContextState, pair: KeyPair,
                                      candidates: seq<string>, now: int, faults: StoreFaults,
                                      gatewayS001: ErrorCode)
    requires HasFresh(candidates, store.entries.Keys)
    requires faults.lockFails || faults.putFails
    ensures var (store', ctx') := Publish(store, ctx, Some(pair), candidates, now, faults, gatewayS001);
            var token := MintedToken(candidates, store.entries.Keys);
            && ctx'.headers == ctx.headers + [(OffsetHeader, token), (PublicKeyHeader, pair.publicKey)]
            && token !in store'.entries
  {
  }

  /** When put throws after the lock was taken, the unlock is skipped: the
      token stays locked (one more hold than before). */
  lemma PublishPutFailureKeepsLock(store: StoreState, ctx: ContextState, pair: KeyPair,
                                   candidates: seq<string>, now: int, faults: StoreFaults,
                                   gatewayS001: ErrorCode)
    requires HasFresh(candidates, store.entries.Keys)
    requires !faults.lockFails && faults.putFails
    ensures var (store', _) := Publish(store, ctx, Some(pair), candidates, now, faults, gatewayS001);
            var token := MintedToken(candidates, store.entries.Keys);
            && token in store'.locks
            && store'.locks[token] == store.locks[token] + 1
            && store'.locks != store.locks
  {
  }

  /** When key pair generation throws, neither the store nor the headers
      change. */
  lemma PublishKeyPairFailureTouchesNothing(store: StoreState, ctx: ContextState,
                                            candidates: seq<string>, now: int, faults: StoreFaults,
                                            gatewayS001: ErrorCode)
    ensures var (store', ctx') := Publish(store, ctx, None, candidates, now, faults, gatewayS001);
            store' == store && ctx'.headers == ctx.headers
  {
  }

  /** Whatever the outcome, no existing entry is overwritten or removed, and
      at most the minted token is added. */
  lemma PublishNeverOverwrites(store: StoreState, ctx: ContextState, keyPair: Option<KeyPair>,
                               candidates: seq<string>, now: int, faults: StoreFaults,
                               gatewayS001: ErrorCode)
    requires keyPair.Some? ==> HasFresh(candidates, store.entries.Keys)
    ensures var (store', _) := Publish(store, ctx, keyPair, candidates, now, faults, gatewayS001);
            && (forall k :: k in store.entries ==> k in store'.entries && store'.entries[k] == store.entries[k])
            && (forall k :: k in store'.entries && k !in store.entries ==>
                  keyPair.Some? && k == MintedToken(candidates, store.entries.Keys))
  {
  }

  // ---------------------------------------------------------------------------
  // Successive requests

  /** What one request brings to the filter: the key pair (or its failure),
      the random draws, the clock reading and the store faults. */
  datatype Request = Request(keyPair: Option<KeyPair>, candidates: seq<string>, now: int, faults: StoreFaults)

  predicate Succeeds(request: Request)
  {
    request.keyPair.Some? && !request.faults.lockFails && !request.faults.putFails
  }

  /** The store a publish step for `request` leaves behind. */
  function StoreAfterOne(store: StoreState, ctx: ContextState, request: Request, gatewayS001: ErrorCode): StoreState
    requires request.keyPair.Some? ==> HasFresh(request.candidates, store.entries.Keys)
  {
    Publish(store, ctx, request.keyPair, request.candidates, request.now, request.faults, gatewayS001).0
  }

  /** Every request in turn draws a fresh candidate from the store it meets. */
  ghost predicate Serviceable(store: StoreState, ctx: ContextState, requests: seq<Request>, gatewayS001: ErrorCode)
    decreases |requests|
  {
    requests == [] ||
    ((requests[0].keyPair.Some? ==> HasFresh(requests[0].candidates, store.entries.Keys)) &&
     Serviceable(StoreAfterOne(store, ctx, requests[0], gatewayS001), ctx, requests[1..], gatewayS001))
  }

  /** The store after the requests are served one after another, each from
      a context in state `ctx`. */
  function StoreAfter(store: StoreState, ctx: ContextState, requests: seq<Request>, gatewayS001: ErrorCode): StoreState
    requires Serviceable(store, ctx, requests, gatewayS001)
    decreases |requests|
  {
    if requests == [] then store
    else StoreAfter(StoreAfterOne(store, ctx, requests[0], gatewayS001), ctx, requests[1..], gatewayS001)
  }

  function CountSucceeding(requests: seq<Request>): nat
  {
    if requests == [] then 0
    else (if Succeeds(requests[0]) then 1 else 0) + CountSucceeding(requests[1..])
  }

  /** No entry expires while the requests are served: every request comes
      before the expiry of every entry already stored, and within the
      two-hour lifetime of the keys published by the requests before it. */
  ghost predicate WithinLifetime(store: StoreState, requests: seq<Request>)
  {
    && (forall i, k :: 0 <= i < |requests| && k in store.entries ==> requests[i].now < store.entries[k].expiresAt)
    && (forall i, j :: 0 <= i < j < |requests| ==> requests[j].now < requests[i].now + KeyTtlMillis)
  }

  /** Over a run of requests during which no entry expires, no stored key is
      ever overwritten or removed, and the store grows by exactly one entry per
      successful publish: no two successful publishes share a token. Every
      entry stays live to the end of the run. */
  lemma {:induction false} StoreAfterGrowsByOnePerSuccess(store: StoreState, ctx: ContextState,
                                                         requests: seq<Request>, gatewayS001: ErrorCode)
    requires Serviceable(store, ctx, requests, gatewayS001)
    requires WithinLifetime(store, requests)
    ensures var after := StoreAfter(store, ctx, requests, gatewayS001);
            && (forall k :: k in store.entries ==> k in after.entries && after.entries[k] == store.entries[k])
            && |after.entries| == |store.entries| + CountSucceeding(requests)
    decreases |requests|
  {
    if requests != [] {
      var r := requests[0];
      var next := StoreAfterOne(store, ctx, r, gatewayS001);
      PublishNeverOverwrites(store, ctx, r.keyPair, r.candidates, r.now, r.faults, gatewayS001);
      if Succeeds(r) {
        PublishSuccess(store, ctx, r.keyPair.value, r.candidates, r.now, r.faults, gatewayS001);
        var token := MintedToken(r.candidates, store.entries.Keys);
        assert next.entries[token].expiresAt == r.now + KeyTtlMillis;
      } else {
        PublishFailure(store, ctx, r.keyPair, r.candidates, r.now, r.faults, gatewayS001);
      }
      assert WithinLifetime(next, requests[1..]) by {
        forall i, k | 0 <= i < |requests[1..]| && k in next.entries
          ensures requests[1..][i].now < next.entries[k].expiresAt
        {
          assert requests[1..][i] == requests[i + 1];
        }
        forall i, j | 0 <= i < j < |requests[1..]|
          ensures requests[1..][j].now < requests[1..][i].now + KeyTtlMillis
        {
          assert requests[1..][i] == requests[i + 1] && requests[1..][j] == requests[j + 1];
        }
      }
      StoreAfterGrowsByOnePerSuccess(next, ctx, requests[1..], gatewayS001);
    }
  }

  // ---------------------------------------------------------------------------
  // The filter

  class SecurityPostFilter {
    const decryptRequest: bool
    const encryptResponse: bool
    const keyMap: KeyMap
    const gatewayS001: ErrorCode

    /** `gatewayS001Msg` is the message the error-code enumeration gives
        GATEWAY_S001. */
    constructor (decryptRequest: bool, encryptResponse: bool, keyMap: KeyMap, gatewayS001Msg: string)
      ensures this.decryptRequest == decryptRequest && this.encryptResponse == encryptResponse
      ensures this.keyMap == keyMap
      ensures gatewayS001 == ErrorCode(GatewayS001Name, gatewayS001Msg)
    {
      this.decryptRequest := decryptRequest;
      this.encryptResponse := encryptResponse;
      this.keyMap := keyMap;
      gatewayS001 := ErrorCode(GatewayS001Name, gatewayS001Msg);
    }

    /** The filter runs iff at least one of its two switches is on. */
    predicate ShouldFilter()
      ensures ShouldFilter() ==> decryptRequest || encryptResponse
      ensures !ShouldFilter() ==> !decryptRequest && !encryptResponse
    {
      decryptRequest || encryptResponse
    }

    /** Draws candidates in order until one names no stored key; `drawn` is
        the number of candidates rejected, each of which names a stored key. */
    method MintToken(candidates: seq<string>) returns (token: string, drawn: nat)
      requires HasFresh(candidates, keyMap.entries.Keys)
      ensures drawn < |candidates| && token == candidates[drawn]
      ensures token !in keyMap.entries
      ensures forall j :: 0 <= j < drawn ==> candidates[j] in keyMap.entries
      ensures drawn == FirstFresh(candidates, keyMap.entries.Keys)
    {
      ghost var first := FirstFresh(candidates, keyMap.entries.Keys);
      drawn := 0;
      token := candidates[0];
      var taken := keyMap.ContainsKey(token);
      while taken
        invariant drawn <= first
        invariant token == candidates[drawn]
        invariant taken <==> token in keyMap.entries
        decreases first - drawn
      {
        drawn := drawn + 1;
        token := candidates[drawn];
        taken := keyMap.ContainsKey(token);
      }
    }

    /** The catch block of a publish step: suppresses the upstream response
        and replaces the body with the GATEWAY_S001 / 502 error, marking it
        as JSON when there is a servlet response. */
    method RejectResponse(context: RequestContext)
      modifies context, context.response
      ensures context.State() == Failed(old(context.State()), gatewayS001)
    {
      context.SetSendZuulResponse(false);
      context.SetResponseBody(Json(GenerateErrorResponse(gatewayS001, StatusBadGateway)));
      var httpResponse := context.response;
      if httpResponse != null {
        httpResponse.SetContentType(ApplicationJson);
      }
    }

    /** One publish step; the outcome is the one `Publish` describes. */
    method SetPublicKey(context: RequestContext, keyPair: Option<KeyPair>, candidates: seq<string>,
                        now: int, faults: StoreFaults)
      requires keyPair.Some? ==> HasFresh(candidates, keyMap.entries.Keys)
      modifies keyMap, context, context.response
      ensures (keyMap.State(), context.State())
           == Publish(old(keyMap.State()), old(context.State()), keyPair, candidates, now, faults, gatewayS001)
    {
      ghost var store0, ctx0 := keyMap.State(), context.State();
      if keyPair.None? {
        RejectResponse(context);
        assert keyMap.State() == store0 && context.State() == Failed(ctx0, gatewayS001);
        return;
      }
      var pair := keyPair.value;
      var token, _ := MintToken(candidates);
      assert token == MintedToken(candidates, store0.entries.Keys);
      context.AddZuulResponseHeader(OffsetHeader, token);
      context.AddZuulResponseHeader(PublicKeyHeader, pair.publicKey);
      ghost var announced := ctx0.(headers := ctx0.headers + [(OffsetHeader, token), (PublicKeyHeader, pair.publicKey)]);
      assert context.State() == announced;
      var failed := keyMap.Lock(token, faults.lockFails);
      if failed {
        RejectResponse(context);
        assert keyMap.State() == store0 && context.State() == Failed(announced, gatewayS001);
        return;
      }
      failed := keyMap.Put(token, pair.privateKey, KeyTtlMillis, now, faults.putFails);
      if failed {
        RejectResponse(context);
        assert keyMap.State() == store0.(locks := store0.locks + multiset{token});
        assert context.State() == Failed(announced, gatewayS001);
        return;
      }
      keyMap.Unlock(token);
      assert keyMap.locks == store0.locks;
      assert keyMap.State() == store0.(entries := store0.entries[token := Entry(pair.privateKey, now + KeyTtlMillis)]);
    }

    /** The filter body: publishes a key only when request decryption is on;
        otherwise the store and the context are left as they were. */
    method Run(context: RequestContext, keyPair: Option<KeyPair>, candidates: seq<string>,
               now: int, faults: StoreFaults)
      requires decryptRequest && keyPair.Some? ==> HasFresh(candidates, keyMap.entries.Keys)
      modifies keyMap, context, context.response
      ensures decryptRequest ==>
                ((keyMap.State(), context.State())
                 == Publish(old(keyMap.State()), old(context.State()), keyPair, candidates, now, faults, gatewayS001))
      ensures !decryptRequest ==>
                (keyMap.State() == old(keyMap.State()) && context.State() == old(context.State()))
    {
      if decryptRequest {
        SetPublicKey(context, keyPair, candidates, now, faults);
      }
    }
  }
}
