# Sapient gateway: per-request key publishing, modelled in Dafny

This project models the security post-filter of the sapient e-commerce
gateway and the gateway's global exception handler.

When request decryption is switched on (`decrypt.request`), the post-filter
publishes a fresh key on every response. It works in this order:

1. It obtains an RSA key pair.
2. It draws random tokens until one names no entry of the shared
   (Hazelcast) key map.
3. It adds the token as response header `offset` and the public key as
   header `pk`.
4. It locks the token, stores the private key under it with a two-hour
   time-to-live, and unlocks it.

If any step throws, the catch block does three things. It stops the upstream
response from being sent. It replaces the body with the error envelope for
`GATEWAY_S001` with status 502 (Bad Gateway). If a servlet response exists,
it sets the content type to JSON. The exception handler maps a
`GatewayException` to an error envelope that carries the exception's own
code, message and status. It maps every other exception to the fixed
`SYSTEM_E500` error. Both handlers answer with HTTP 200.

Modules:

- `Dto` (`dto.dfy`): the HTTP status, the error-code entry, the error
  record, the generic response envelope and the response body.
- `ExceptionHandling` (`global_exception_handler.dfy`): the two handlers as
  pure functions, with their properties.
- `KeyStore` (`key_map.dfy`): class `KeyMap`, the shared key map. It holds a
  map from token to (value, absolute expiry) and a multiset of lock holds.
  Hazelcast locks are re-entrant, so a key can be held more than once.
- `Zuul` (`request_context.dfy`): class `RequestContext`. It holds the
  response headers, the `sendZuulResponse` flag, the body and a possibly
  null servlet response whose content type can be set.
- `SecurityFilter` (`security_post_filter.dfy`): class `SecurityPostFilter`
  and the minting loop. It also holds the pure specification `Publish` of
  one publish step, over snapshots of the store and the context, and the
  lemmas about `Publish`. `SetPublicKey` is proved to leave exactly the
  state that `Publish` gives, so the lemmas describe the method.

The model takes these inputs as parameters:

- The key pair: `Option<KeyPair>`, where `None` means that key generation
  threw.
- The random tokens: a sequence of candidates, drawn in order.
- The clock: `now`, in milliseconds.
- Whether `lock` or `put` throws: `StoreFaults`.

Three quirks of the code are worth knowing:

- The headers are added before the store write. When `lock` or `put`
  throws, the response therefore still carries the `offset` and `pk`
  headers, and no key is stored under the announced token
  (`PublishAnnouncesBeforeStoring`).
- When `put` throws, the `unlock` call is skipped, so the token stays locked
  (`PublishPutFailureKeepsLock`).
- The content type is set to JSON only when the servlet response is not
  null (`PublishFailure`).

## Model

| member | source | states |
|---|---|---|
| `SecurityFilter.SecurityPostFilter.ShouldFilter` | src/main/java/dev/atanu/ecom/gateway/config/SecurityPostFilter.java:57-60 | The filter runs iff `decryptRequest` or `encryptResponse` is set; with both off it does not run. |
| `SecurityFilter.SecurityPostFilter.Run` | src/main/java/dev/atanu/ecom/gateway/config/SecurityPostFilter.java:62-76 | With `decryptRequest` set, store and context end as one publish step (`Publish`) leaves them; otherwise the key map and the whole context are unchanged. |
| `SecurityFilter.SecurityPostFilter.SetPublicKey` | src/main/java/dev/atanu/ecom/gateway/config/SecurityPostFilter.java:94-116 | The new key map (entries and locks) and the new context (headers, send flag, body, content type) are exactly `Publish` of the old ones, for every combination of key-pair, lock and put failures. |
| `SecurityFilter.SecurityPostFilter.MintToken` | src/main/java/dev/atanu/ecom/gateway/config/SecurityPostFilter.java:98-101 | The returned token is the drawn candidate, names no key of the map at the final check, and every candidate rejected before it names a key; the number rejected is `FirstFresh`. |
| `SecurityFilter.SecurityPostFilter.RejectResponse` | src/main/java/dev/atanu/ecom/gateway/config/SecurityPostFilter.java:107-115 | The catch block: the send flag becomes false, the body becomes the GATEWAY_S001 / 502 envelope, and the content type becomes JSON only when a servlet response exists. |
| `SecurityFilter.FirstFresh` | src/main/java/dev/atanu/ecom/gateway/config/SecurityPostFilter.java:98-101 | The index the loop stops at: a candidate not in the key set, preceded only by candidates in it. |
| `SecurityFilter.MintedToken` | src/main/java/dev/atanu/ecom/gateway/config/SecurityPostFilter.java:98-101 | The minted token is one of the candidates and is not a key of the store. |
| `SecurityFilter.Publish` | src/main/java/dev/atanu/ecom/gateway/config/SecurityPostFilter.java:94-116 | Store and context after generating the key pair, minting the token, adding the `offset`/`pk` headers, then lock, put and unlock, or after the catch block at the first throw. No existing key is ever lost, the servlet response's presence is kept, and exactly two headers are appended when a key pair was obtained (none otherwise). |
| `SecurityFilter.Failed` | src/main/java/dev/atanu/ecom/gateway/config/SecurityPostFilter.java:107-114 | The catch block on context snapshots: the headers are kept, the response is not sent, the body is a JSON envelope whose error carries GATEWAY_S001 and 502, and the content type becomes JSON when a servlet response exists (unchanged otherwise). |
| `SecurityFilter.PublishSuccess` | src/main/java/dev/atanu/ecom/gateway/config/SecurityPostFilter.java:102-106 | On success the store gains exactly one entry, under a previously unused token, holding the private key with expiry now + 2 h. Other entries and all locks are unchanged. Exactly `("offset", token)` then `("pk", publicKey)` are appended, and the send flag, body and content type are untouched. |
| `SecurityFilter.PublishFailure` | src/main/java/dev/atanu/ecom/gateway/config/SecurityPostFilter.java:107-115 | If key generation, lock or put throws, no entry is added, the locks are unchanged unless put threw after the lock was taken, the response is not sent, the body is the GATEWAY_S001 envelope with status 502, and the content type becomes JSON iff a servlet response exists. |
| `SecurityFilter.PublishAnnouncesBeforeStoring` | src/main/java/dev/atanu/ecom/gateway/config/SecurityPostFilter.java:102-106 | When lock or put throws, the `offset`/`pk` headers are nevertheless present, and no key is stored under the announced token. |
| `SecurityFilter.PublishPutFailureKeepsLock` | src/main/java/dev/atanu/ecom/gateway/config/SecurityPostFilter.java:104-106 | When put throws after lock succeeded, the token stays locked with one more hold than before. |
| `SecurityFilter.PublishKeyPairFailureTouchesNothing` | src/main/java/dev/atanu/ecom/gateway/config/SecurityPostFilter.java:96-110 | When key-pair generation throws, the store (entries and locks) and the headers are unchanged. |
| `SecurityFilter.PublishNeverOverwrites` | src/main/java/dev/atanu/ecom/gateway/config/SecurityPostFilter.java:98-106 | Whatever the outcome, every existing entry survives with its value, and the only entry that can appear is the minted token's. |
| `SecurityFilter.StoreAfterGrowsByOnePerSuccess` | src/main/java/dev/atanu/ecom/gateway/config/SecurityPostFilter.java:98-106 | Over any sequence of requests served one after another during which no entry expires (each request comes before every stored entry's expiry and within two hours of every earlier request), no existing entry is overwritten or removed, and the store grows by exactly one entry per successful publish. That no two successful publishes in the run share a token is a consequence of this size equation. |
| `SecurityFilter.GenerateErrorResponse` | src/main/java/dev/atanu/ecom/gateway/config/SecurityPostFilter.java:139-144 | The envelope is unsuccessful, has no data, and its error carries the code's name, the code's message and the given status. |
| `SecurityFilter.ErrorResponseAgreesWithHandler` | src/main/java/dev/atanu/ecom/gateway/config/SecurityPostFilter.java:139-144 | The filter's error envelope equals the body the exception handler gives a gateway exception with the same code, message and status. |
| `KeyStore.KeyMap.ContainsKey` | src/main/java/dev/atanu/ecom/gateway/config/SecurityPostFilter.java:99 | True iff the map holds an entry for the key. |
| `KeyStore.KeyMap.Lock` | src/main/java/dev/atanu/ecom/gateway/config/SecurityPostFilter.java:104 | Either throws and changes nothing, or adds one hold on the key. |
| `KeyStore.KeyMap.Put` | src/main/java/dev/atanu/ecom/gateway/config/SecurityPostFilter.java:105 | Either throws and changes nothing, or maps the key to the value with expiry now + ttl. |
| `KeyStore.KeyMap.Unlock` | src/main/java/dev/atanu/ecom/gateway/config/SecurityPostFilter.java:106 | Removes one hold on a key the caller holds. |
| `Zuul.RequestContext.AddZuulResponseHeader` | src/main/java/dev/atanu/ecom/gateway/config/SecurityPostFilter.java:102-103 | Appends exactly one (name, value) header. |
| `Zuul.RequestContext.SetSendZuulResponse` | src/main/java/dev/atanu/ecom/gateway/config/SecurityPostFilter.java:109 | Sets the send flag to the given value. |
| `Zuul.RequestContext.SetResponseBody` | src/main/java/dev/atanu/ecom/gateway/config/SecurityPostFilter.java:110 | Replaces the response body with the given body. |
| `Zuul.ServletResponse.SetContentType` | src/main/java/dev/atanu/ecom/gateway/config/SecurityPostFilter.java:113 | Sets the servlet response's content type to the given media type. |
| `ExceptionHandling.HandleProductException` | src/main/java/dev/atanu/ecom/gateway/exception/GlobalExceptionHandler.java:34-40 | Status 200, `success = false`, `data = null`, and the error record turns back into the very exception handled (code, message, status). |
| `ExceptionHandling.HandleProductExceptionInjective` | src/main/java/dev/atanu/ecom/gateway/exception/GlobalExceptionHandler.java:37-39 | Two gateway exceptions with the same response are the same exception. |
| `ExceptionHandling.ProductStatusOnlyInError` | src/main/java/dev/atanu/ecom/gateway/exception/GlobalExceptionHandler.java:37-39 | Whatever status the exception carries appears only inside the error; the response status is always 200. |
| `ExceptionHandling.HandleException` | src/main/java/dev/atanu/ecom/gateway/exception/GlobalExceptionHandler.java:48-55 | Status 200, `success = false`, `data = null`, and the error is code `SYSTEM_E500`, message "Internal Server Error. Please try again later!" and status 500 (Internal Server Error). |
| `ExceptionHandling.HandleExceptionIgnoresException` | src/main/java/dev/atanu/ecom/gateway/exception/GlobalExceptionHandler.java:48-54 | The generic handler's response is the same for every exception: nothing of it reaches the client. |

## Left out

- `encryptResponse` (SecurityPostFilter.java:122-131) reads and logs the request body. It has no state the model can observe, and the `IOException` catch in `run` only logs.
- Key-pair generation (`RSASecurityUtil`) is foreign cryptographic code. It is an input: a pair of opaque strings, or `None` when it throws.
- `RandomStringGenerator.getRandomString` and the token length are not part of this model. The random draws are a supplied sequence of candidates.
- `SecurityFilter.SecurityPostFilter.MintToken`, `SetPublicKey` and `Run` require that some candidate names no stored key. The source keeps drawing until one does, so a finite candidate sequence must contain one.
- Concurrency and distribution are not modelled. The model is one sequential request, so it leaves out the blocking of `lock` by another holder and the race between `containsKey` and `put` across requests.
- Time-to-live eviction is not modelled. The model records each entry's absolute expiry (now + 7 200 000 ms) but runs no clock-driven eviction. Once an entry has expired, the real map no longer contains its token, so the token can be minted and stored again; `StoreAfterGrowsByOnePerSuccess` therefore covers only runs in which no entry expires.
- Key-pair generation, `lock` and `put` can throw in the model. Failures of `getMap`, `getRandomString`, `containsKey` and `unlock` are not modelled. An `unlock` failure (SecurityPostFilter.java:106) would leave the entry stored and the token locked while the response is rejected.
- JSON serialisation (`GatewayUtil.toJson`) is not part of this model. The body is the structured envelope, not its text.
- The error-code enumeration and `GenericResponse` are not part of this model. The GATEWAY_S001 message text is a constructor parameter of the filter. A default-constructed envelope is taken to have `success = false` and `data = null`.
- `filterType`, `filterOrder`, Spring injection, `@ExceptionHandler` dispatch and logging are framework wiring with no behaviour to prove.
