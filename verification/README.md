# nest-wechat core, modelled in Dafny

This project models the byte-, string- and state-level core of the
`nest-wechat` NestJS library, which wraps the WeChat Official Account,
Mini Program, Open Platform and WeChat Pay v3 APIs:

- **Message crypto** (`MessageCrypto`, `message_crypto.dfy`):
  - the `sha1` signature over sorted arguments;
  - the IV taken from the AES key;
  - the 32-byte-block padding encoder and decoder;
  - the envelope `encrypt` builds (16 random bytes, a big-endian 32-bit
    message length, the message, the app id);
  - the slicing and app-id check in `decrypt`;
  - the nonce generator.

  AES-256-CBC and base64 are function-valued parameters (`Primitives`).
  `DecryptEncrypt` proves the round trip under the assumption that these
  primitives are inverses.
- **String utilities** (`Utils`, `utils.dfy`): `createNonceStr`, with a
  length cap of 32 and the 62-character alphabet, and `parseRid`, which
  extracts the request id from an error message.
- **In-memory cache** (`MemoryCache`, `map_cache.dfy`): `MapCache` is a
  class over a `map` field that `set` and `remove` update in place.
- **Redis cache adapter** (`RedisAdapter`, `redis_cache.dfy`): `RedisCache`
  works over an abstract backing `Store`, a class holding values, TTLs and
  whether the server answers. The model covers:
  - the `nest-wechat:` namespace;
  - empty-key refusal;
  - the TTL default;
  - the rule that a missing or falsy value reads as `{}`.
- **Component ticket storage** (`Component`, `component.dfy`):
  - how `ComponentService` chooses and replaces its cache adapter;
  - the fixed ticket key;
  - the missing-ticket guard of `requestComponentToken`.
- **WeChat Pay v3 canonical strings** (`WePay`, `wepay.dfy`):
  - the message `generateSignature` signs;
  - the `Authorization` header;
  - the four request methods, each up to the HTTP call;
  - the mini-program payment parameters.

  RSA-SHA256 signing is the parameter `sign`. Bodies arrive already
  serialised by `JSON.stringify`.

Shared helpers:
- `Bytes` covers `Buffer.slice` index clamping, big-endian 32-bit integers and
  repeated bytes.
- `Text` covers newline-terminated lines, `split`, and decimal numerals.
- `StringOrder` covers the order `Array.prototype.sort` uses and an insertion
  sort.
- `JsValues` covers JavaScript values and truthiness.
- `Wrappers` holds `Option` and `Result`.

JavaScript exceptions become `Err`/`Failed` results. Randomness (`Math.random`,
`crypto.randomBytes`), the clock (`Date.now`) and the private key are inputs.

`decrypt` never checks the length field against the buffer. Every `slice`
clamps, so an over-long length gives a shorter message. It fails only when
the decipher rejects its input (`CipherFailure`) or when fewer than 20 bytes
remain after unpadding (`readUInt32BE` throws: `BufferOutOfBounds`).

## Model

| member | source | states |
|---|---|---|
| MessageCrypto.Sha1 | lib/utils/message-crypto.ts:10-12 | the signature is the digest of some sorted arrangement of the arguments, concatenated; Sha1OfSorted and Sha1OrderIndependent pin it down |
| MessageCrypto.Sha1OfSorted | lib/utils/message-crypto.ts:10-12 | `sha1` hashes the concatenation of its arguments in sorted order |
| MessageCrypto.Sha1OrderIndependent | lib/utils/message-crypto.ts:10-12 | `sha1` of two argument lists that are permutations of each other is the same |
| StringOrder.Sort | lib/utils/message-crypto.ts:11 | `args.sort()` returns a sorted permutation of its argument |
| StringOrder.SortedUnique | lib/utils/message-crypto.ts:11 | two sorted permutations of the same strings are equal, so the sorted order is determined by the multiset |
| StringOrder.SortPermutationInvariant | lib/utils/message-crypto.ts:11 | sorting two permutations of the same arguments gives the same list |
| MessageCrypto.GetAESKeyIV | lib/utils/message-crypto.ts:22-24 | the IV is the first 16 bytes of the key, or the whole key when it is shorter |
| MessageCrypto.AmountToPad | lib/utils/message-crypto.ts:32-34 | the pad amount is in [1,32] and brings the length to a multiple of 32 |
| MessageCrypto.PKCS7Encoder | lib/utils/message-crypto.ts:31-38 | the input is an unchanged prefix; `amountToPad - 1` bytes each equal to `amountToPad` are appended; output length + 1 is a multiple of 32; nothing is appended when the length is 31 mod 32 |
| MessageCrypto.PKCS7Decoder | lib/utils/message-crypto.ts:45-51 | the result is a prefix of the input; a last byte `k` in [1,32] drops exactly `k` bytes when `k` ≤ length and leaves `max(0, 2·len − k)` bytes otherwise (a negative slice end); any other last byte leaves the input unchanged; an empty input gives an empty result |
| MessageCrypto.DecoderStripsPadding | lib/utils/message-crypto.ts:45-51 | the decoder removes exactly `k` trailing copies of byte `k`, for 1 ≤ k ≤ 32 |
| MessageCrypto.CipherPadding | lib/utils/message-crypto.ts:86-87 | the cipher's own PKCS#7 padding fills to a multiple of 16 bytes |
| MessageCrypto.DecoderUndoesCipherPadding | lib/utils/message-crypto.ts:62 | the decoder removes exactly the padding the cipher adds in `encrypt` |
| MessageCrypto.EncoderNotInverted | lib/utils/message-crypto.ts:31-51 | unless the length is 31 mod 32, decoding the encoder's output does not give back its input |
| MessageCrypto.EncoderNotInvertedOnEmpty | lib/utils/message-crypto.ts:31-51 | encoding then decoding the empty buffer gives 30 bytes of value 32 |
| MessageCrypto.PKCS7Encoder32 | lib/utils/message-crypto.ts:31-38 | a padding encoder that appends the full `amountToPad` bytes: the input is a prefix, the length is a multiple of 32, and the decoder gives back the input |
| MessageCrypto.EnvelopeLayout | lib/utils/message-crypto.ts:80-85 | the envelope is 16 random bytes, a 4-byte big-endian length equal to the message length, the message, then the app id |
| MessageCrypto.ParseEnvelope | lib/utils/message-crypto.ts:63-70 | parsing fails exactly when fewer than 20 bytes remain; it reports an app-id mismatch exactly when a non-empty expected id differs from the bytes after the payload; otherwise it returns bytes 20 .. 20+L, clamped to the buffer |
| MessageCrypto.ParseEnvelopeRoundTrip | lib/utils/message-crypto.ts:62-85 | parsing a built envelope returns its message when the expected app id is empty or equal to the embedded one |
| MessageCrypto.ParseEnvelopeRejectsOtherAppId | lib/utils/message-crypto.ts:65-68 | a non-empty expected app id that differs from the embedded one gives no plaintext |
| MessageCrypto.Encrypt | lib/utils/message-crypto.ts:79-89 | a message of 2^32 bytes or more is refused; any other gives the base64 of the enciphered, padded envelope |
| MessageCrypto.Decrypt | lib/utils/message-crypto.ts:59-71 | fails with `CipherFailure` exactly when the decipher rejects the input, with `BufferOutOfBounds` exactly when fewer than 20 bytes remain after unpadding, never with a length error; whenever the decipher succeeds the result is exactly `ParseEnvelope` of the unpadded plaintext (so the app-id check and the payload slice are those stated there); a returned message is at least 20 bytes shorter than the deciphered buffer; DecryptEncrypt and DecryptOtherAppId give its round trip |
| MessageCrypto.DecryptEncrypt | lib/utils/message-crypto.ts:59-89 | with inverse cipher and base64, `decrypt(encrypt(msg))` returns `msg` for the same or an empty app id |
| MessageCrypto.DecryptOtherAppId | lib/utils/message-crypto.ts:59-89 | with inverse cipher and base64, `decrypt` with a different non-empty app id returns no plaintext |
| MessageCrypto.CreateNonceStr | lib/utils/message-crypto.ts:91-99 | the nonce has `min(length, 32)` characters (none for a length that is not positive), each the alphabet character the random pick selects, each alphanumeric |
| Bytes.ReadWriteUInt32BE | lib/utils/message-crypto.ts:64 | reading back the four big-endian bytes written gives the written length |
| Bytes.WriteUInt32BE | lib/utils/message-crypto.ts:82-83 | the four-byte buffer holds the big-endian length, which reads back as written |
| Bytes.SliceIndex | lib/utils/message-crypto.ts:50 | a negative index counts from the end and stops at 0; a non-negative one stops at the length; so the position lies in [0, len] |
| Utils.NonceLength | lib/utils/index.ts:12 | the length is capped at 32; a length in [0,32] is kept; a non-positive one gives no characters |
| Utils.CreateNonceStr | lib/utils/index.ts:11-19 | the nonce has `NonceLength(length)` characters (16 by default), each the alphabet character the random pick selects, each in `a-z`, `A-Z` or `0-9` |
| Utils.IndexOf | lib/utils/index.ts:27 | `indexOf` gives the first occurrence, or -1 exactly when there is none |
| Utils.ParseRid | lib/utils/index.ts:26-29 | the result is always a suffix of the message |
| Utils.ParseRidFound | lib/utils/index.ts:26-29 | with `rid:` first at `i`, the result is the message from `i + 5`, or empty past the end |
| Utils.ParseRidMissing | lib/utils/index.ts:26-29 | without `rid:`, the first four characters are dropped |
| Utils.ParseRidTrailing | lib/utils/index.ts:26-29 | a message ending in `rid: <rid>` with no earlier mark yields `<rid>` |
| MemoryCache.MapCache.constructor | lib/utils/cache.ts:6 | a new cache is empty |
| MemoryCache.MapCache.Get | lib/utils/cache.ts:8-12 | `get` returns the stored value, or `undefined` for a key not present |
| MemoryCache.MapCache.Set | lib/utils/cache.ts:14-16 | `set` stores or overwrites the key and leaves every other key unchanged |
| MemoryCache.MapCache.Remove | lib/utils/cache.ts:18-20 | `remove` returns true exactly when the key was present, afterwards the key is absent, and every other key is unchanged |
| MemoryCache.MapCache.Close | lib/utils/cache.ts:22-24 | `close` changes nothing |
| RedisAdapter.Store.Get | lib/utils/redis.cache.ts:25 | the backing store's read gives the stored value or `undefined` while the server answers, and fails otherwise |
| RedisAdapter.Store.Set | lib/utils/redis.cache.ts:44 | the backing store's write stores value and TTL under the key while the server answers, and fails leaving the store unchanged otherwise |
| RedisAdapter.Store.Del | lib/utils/redis.cache.ts:51 | the backing store's delete removes the key while the server answers, and changes nothing otherwise |
| RedisAdapter.Namespaced | lib/utils/redis.cache.ts:10 | the store key is `nest-wechat:` followed by the caller's key |
| RedisAdapter.NamespacedInjective | lib/utils/redis.cache.ts:10 | distinct caller keys map to distinct store keys |
| RedisAdapter.EffectiveTtl | lib/utils/redis.cache.ts:41-43 | a missing TTL becomes 0; a given one is passed on as is |
| RedisAdapter.ReadThrough | lib/utils/redis.cache.ts:23-32 | the value read is always truthy; a stored truthy value is returned; anything else, including a failed read, gives `{}` |
| RedisAdapter.ReadAfterWrite | lib/utils/redis.cache.ts:18-45 | after writing `v` under a key, reading it gives `v` when `v` is truthy and `{}` otherwise |
| RedisAdapter.RedisCache.constructor | lib/utils/redis.cache.ts:16 | the adapter wraps the given store |
| RedisAdapter.RedisCache.Get | lib/utils/redis.cache.ts:18-33 | an empty key fails with "empty key"; any other reads the namespaced key through the `{}` fallback |
| RedisAdapter.RedisCache.Set | lib/utils/redis.cache.ts:36-45 | an empty key fails without touching the store; any other stores the value and effective TTL under the namespaced key, or fails with the store unchanged when the store is down |
| RedisAdapter.RedisCache.Remove | lib/utils/redis.cache.ts:47-56 | returns false exactly for an empty key, which leaves the store untouched; any other deletes the namespaced key while the server answers, and otherwise changes nothing |
| Component.Read | lib/component.service.ts:73 | a read through `MapCache` gives the stored value or `undefined`; a read through `RedisCache` is the stored value when the server answers and that value is truthy, and otherwise `{}` |
| Component.ComponentService.constructor | lib/component.service.ts:14-29 | the adapter is `options.cacheAdapter` when given, otherwise a fresh empty `MapCache` |
| Component.ComponentService.SetCacheAdapter | lib/component.service.ts:16-20 | a missing adapter keeps the current one; a given adapter replaces it |
| Component.ComponentService.GetTicket | lib/component.service.ts:72-74 | the ticket is what the adapter reads under `key_component_ticket` |
| Component.ComponentService.SetTicket | lib/component.service.ts:76-78 | only the `key_component_ticket` entry changes (namespaced, TTL 0, for Redis); whether the Redis server answers is left as it was; a following read gives the ticket back, or `{}` for an empty ticket in Redis |
| Component.TicketRoundTrip | lib/component.service.ts:72-78 | `setTicket` followed by `getTicket` yields the ticket for the in-memory cache and for a Redis store that answers (`{}` for an empty ticket), and the old answer for one that does not |
| Component.ComponentService.RequestComponentToken | lib/component.service.ts:56-70 | fails with "component ticket not found" exactly when the cached ticket is falsy; otherwise the request carries the app id, secret and ticket |
| Component.RedisTicketNeverFalsy | lib/component.service.ts:57-60 | with a Redis adapter the ticket read is never falsy, so the guard cannot fire |
| Component.InMemoryMissingTicketFalsy | lib/component.service.ts:57-60 | with an in-memory adapter and no ticket stored, the guard fires |
| WePay.BodyLine | lib/wepay.service.ts:300-306 | the body line is empty for GET, `{}` for a POST without a body, and the serialised body otherwise |
| WePay.GenerateSignature | lib/wepay.service.ts:299-309 | the signature is `sign` over the lines method, URL, timestamp, nonce and body line, each ended by a newline |
| WePay.SignatureMessage | lib/wepay.service.ts:300-306 | the message is never empty and ends in a newline |
| WePay.SignatureMessageLines | lib/wepay.service.ts:300-306 | split at newlines, the message gives exactly method, URL, timestamp, nonce and body line, in that order, then an empty piece |
| WePay.GenerateHeader | lib/wepay.service.ts:284-288 | there is exactly one header, `Authorization`, and its value starts with the scheme and a blank |
| WePay.HeaderQuotedFields | lib/wepay.service.ts:284-288 | cut at its double quotes, the header value gives the scheme and the fields mchid, nonce_str, signature, timestamp and serial_no, each name then its value, in that order |
| WePay.BuildRequest | lib/wepay.service.ts:193-260 | the signature is computed over the relative path; the host is prepended only to the URL issued |
| WePay.GetPlatformCertificates | lib/wepay.service.ts:193-203 | issues a GET of `/v3/certificates` without a body, but signs the POST message without a body; the header carries the signature over that message |
| WePay.TransactionsJsapi | lib/wepay.service.ts:213-222 | posts the order to `/v3/pay/transactions/jsapi`, signed over the serialised order, with the header naming the order's mchid |
| WePay.GetTransactionsId | lib/wepay.service.ts:232-241 | issues a GET of `/v3/pay/transactions/id/<id>?mchid=<mchId>` without a body, but signs the POST message without a body; the header carries the signature over that message |
| WePay.GetTransactionsOutTradeNo | lib/wepay.service.ts:251-260 | issues a GET of `/v3/pay/transactions/out-trade-no/<no>?mchid=<mchId>` without a body, but signs the POST message without a body; the header carries the signature over that message |
| WePay.GetRequestsSignedAsPost | lib/wepay.service.ts:198 | for these GETs, the signed message's lines are `POST`, path, timestamp, nonce and `{}`, while the message for the request actually issued has `GET` and an empty body line, so the two differ |
| WePay.GetPlatformCertificatesSignedAsGet | lib/wepay.service.ts:193-203 | a GET without a body, signed for the request it issues: the lines are `GET`, the path, timestamp, nonce and an empty body line, and the header carries the signature over them |
| WePay.GetTransactionsIdSignedAsGet | lib/wepay.service.ts:232-241 | a GET without a body, signed over the message of the request it issues, with the header carrying that signature |
| WePay.GetTransactionsOutTradeNoSignedAsGet | lib/wepay.service.ts:251-260 | a GET without a body, signed over the message of the request it issues, with the header carrying that signature |
| WePay.PaymentMessageLines | lib/wepay.service.ts:273 | the payment message's lines are app id, timestamp, nonce and `prepay_id=<id>`, each ended by a newline |
| WePay.BuildMiniProgramPayment | lib/wepay.service.ts:270-282 | the result has `package` equal to `prepay_id=<id>`, `signType` equal to `RSA`, a `timeStamp` that is the very decimal string signed on the message's second line (and reads back as the timestamp), the signed nonce, and the signature over the payment message |

## Left out

- AES-256-CBC, SHA-1, RSA-SHA256 and base64 are function parameters. Their
  properties are not modelled: Node's key- and IV-length errors, block
  alignment errors with automatic padding off, and hex digests.
- `md5` and `getAESKey` are not modelled. They are single calls into the
  hash and the base64 decoder.
- UTF-8 conversion between strings and `Buffer`s is not modelled. Messages
  and app ids are byte sequences, and the app-id comparison in `decrypt`
  compares bytes rather than decoded strings.
- `Math.random`, `crypto.randomBytes` and `Date.now` are inputs. A length that
  is not an integer, a floating-point input to `createNonceStr`, is not
  modelled.
- `JSON.stringify` of bodies is an input string (`TransactionOrder.serialised`).
- HTTP calls (`axios`) and `startPushTicket` are not modelled. Each request
  method is modelled up to the request it would issue.
- `console.log` is not modelled, and neither is the `Promise` wrapping of the
  caches: `get` and `set` are synchronous.
- `RedisCache.close` is not modelled. It quits a client object the backing
  store may or may not expose.
- Component.ComponentService: only the two adapters the library ships,
  `MapCache` and `RedisCache`, are modelled. A user-supplied `ICache` is not,
  so the contracts of `GetTicket`, `SetTicket` and `RequestComponentToken`
  hold for those two adapters only.
- Utils.ParseRid: positions count characters (code points), while `indexOf`
  and `substring` count UTF-16 code units. The results differ when a
  character outside the basic multilingual plane precedes or follows `rid:`.
- RedisAdapter.Store: TTLs are recorded but entries never expire, so
  `ReadAfterWrite` and the read-back clause of `SetTicket` describe a read
  made before the TTL runs out.
- JsValues.Value: numbers are integers, so NaN (falsy) and fractions are not
  modelled.
- `StringOrder.Sort` orders by character code. JavaScript's default sort
  compares UTF-16 code units, and these agree for characters of the basic
  multilingual plane.
- Component.ComponentService.SetTicket: `setTicket` does not await the Redis
  write, and nothing handles its promise, so a failed write becomes an
  unhandled rejection (which by Node's default ends the process). The model
  does not capture that: it drops the failed result and leaves the store
  unchanged.
- `ComponentService.encryptMessage`/`decryptMessage` call
  `MessageCrypto.encryptMessage`/`decryptMessage`. These are not part of this
  model: no definition of them exists in the library's `MessageCrypto`.

## Findings

| source | as written | input that shows it | evidently intended | confidence | as-written member | corrected member |
|---|---|---|---|---|---|---|
| lib/utils/message-crypto.ts:35 | `PKCS7Encoder` appends `amountToPad - 1` bytes of value `amountToPad` | the empty buffer: 31 bytes of 32 are appended; decoding drops 32 bytes from a 31-byte buffer, which leaves the 30 bytes `slice(0, -1)` gives | append `amountToPad` bytes so that `PKCS7Decoder` undoes it | high, not executed | MessageCrypto.EncoderNotInverted | MessageCrypto.PKCS7Encoder32 |
| lib/wepay.service.ts:198 | `getPlatformCertificates`, `getTransactionsId` and `getTransactionsOutTradeNo` sign `POST` with body `{}` but issue a GET | any call: the signed message starts `POST\n` and its body line is `{}`, while the request issued is a GET with no body | sign with the method issued: `GET` and an empty body line | medium, not executed | WePay.GetRequestsSignedAsPost | WePay.GetPlatformCertificatesSignedAsGet |
