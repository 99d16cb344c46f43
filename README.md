# Sekai game-API client, modelled in Dafny

This project models the two clients the repository uses to talk to the game's API server, and proves what they promise.

The Go service (`packages/sekai-cron`) is modelled in three parts:

- **Payload cipher.** `crypt.go` pads with PKCS#7 (section 6.3 of RFC 5652) and encrypts with AES in CBC mode (section 6.2 of NIST SP 800-38A) under one fixed key and IV. It decrypts by dropping as many bytes as the last plaintext byte says.
- **Request pipeline.** `client.go` chooses the request body and builds the headers. It then dispatches on the response status and refreshes the session token and the cookie. It merges `updatedResources` into `Data`.
- **Version update and de-obfuscation.** `update` chooses an `appVersions` entry, and `Deobfuscate` recovers asset bundles by XOR.

The TypeScript extractor (`packages/sekai-extractor`) is modelled as well:

- **Request building.** `makeRequest` builds a request from the session record. It encrypts a truthy body with WebCrypto's AES-CBC.
- **Response handling.** `executeRequest` merges response cookies into the session's jar, then decodes the body as JSON, as nothing, or by decrypting and msgpack-decoding it.
- **API operations.** Five operations update the shared session cell: `refreshSignature`, `updateSystemInfo`, `newUser`, `auth` and `ruleAgreement`.

Files:

- `common.dfy` (`Common`): `Option`, `Result` and decimal rendering of integers.
- `go_crypt.dfy` (`GoCrypt`): the Go payload cipher.
- `go_client.dfy` (`GoClient`): the Go client, with the `SekaiClient` class.
- `ts_cookies.dfy` (`Cookies`): JavaScript's `split` on one separator, and the cookie jar.
- `ts_client.dfy` (`TsClient`): the TypeScript pipeline, with the `SekaiClientContext` class.

How the model is built:

- **Go panics.** Every `assert(err)` in Go, and every index, slice or type-assertion panic, becomes an `Err` result naming the failure. None of them is a precondition.
- **Libraries as parameters.** The libraries the clients call are fields of an `Env` (Go) or `Primitives` (TypeScript) value. These are msgpack, `json.Unmarshal`, `response.json`, `Schema.decodeUnknown`, `Cookies.fromSetCookie` and the HTTP transport.
- **AES.** The AES block cipher is an abstract keyed block permutation. The CBC chaining and the padding around it are written out. This lets the model compare the two clients' ciphers: they produce the same bytes, and Go's decryption accepts everything WebCrypto's does, with the same result, but not the other way round.
- **State.** Stateful code is a class. Each method's postcondition ties its result and the new state to a specification function of the old state: `RequestOutcome`, `ExecuteOutcome`, `UpdateSystemInfoOutcome` and the others. The lemmas state the properties of those functions.

Two behaviours are modelled exactly as the code has them:

- `newUser` does not refuse to run when a user is already present. It overwrites that user.
- TypeScript `refreshSignature` sends an empty body. Go sends the encryption of zero bytes for a body-less non-GET request.

## Model

| member | source | states |
|---|---|---|
| GoCrypt.NewCipher | packages/sekai-cron/crypt.go:17-23 | the cipher is built exactly for 16-, 24- or 32-byte keys; any other key length panics with the key size |
| GoCrypt.PaddingSize | packages/sekai-cron/crypt.go:26 | the padding size is between 1 and 16 and brings the length to a multiple of 16; it is a full block exactly when the length already is a multiple |
| GoCrypt.Pad | packages/sekai-cron/crypt.go:26-28 | padding keeps the plaintext as a prefix, appends `paddingSize` bytes each equal to `paddingSize`, and yields a whole number of blocks longer than the input |
| GoCrypt.Unpad | packages/sekai-cron/crypt.go:41-42 | unpadding fails exactly on an empty plaintext (index panic) or a last byte larger than the length (slice panic); otherwise it returns the prefix shortened by the last byte's value, padding bytes unchecked |
| GoCrypt.UnpadPad | packages/sekai-cron/crypt.go:25-44 | unpadding removes exactly what padding added |
| GoCrypt.CbcEncrypt | packages/sekai-cron/crypt.go:30-32 | CBC encryption of whole blocks keeps the length |
| GoCrypt.CbcDecrypt | packages/sekai-cron/crypt.go:37-39 | CBC decryption of whole blocks keeps the length |
| GoCrypt.CbcRoundTrip | packages/sekai-cron/crypt.go:30-39 | for an invertible block cipher, CBC decryption under the same key and IV inverts CBC encryption, block by block |
| GoCrypt.Encrypt | packages/sekai-cron/crypt.go:25-34 | `encrypt` succeeds exactly with a valid key and a 16-byte IV, reports a bad key as `KeySizeError`, and yields `len + paddingSize` bytes, a non-empty multiple of 16 |
| GoCrypt.Decrypt | packages/sekai-cron/crypt.go:36-44 | with a valid key and IV, an empty input panics on the index and a partial block panics in `CryptBlocks`; a result is never longer than the input |
| GoCrypt.DecryptSucceedsIff | packages/sekai-cron/crypt.go:36-44 | the conditions `decrypt` silently relies on, both directions: it succeeds iff key and IV are valid, the input is non-empty whole blocks and the last plaintext byte is at most the length; the result is the CBC plaintext shortened by that byte |
| GoCrypt.DecryptEncrypt | packages/sekai-cron/crypt.go:25-44 | round trip: `decrypt(encrypt(x)) == x` for every plaintext, given an invertible block cipher |
| GoCrypt.DecryptIgnoresPaddingBytes | packages/sekai-cron/crypt.go:41-42 | a concrete block whose plaintext ends in 7, 2 (not valid PKCS#7) still decrypts, to its first 14 bytes |
| GoClient.Message | packages/sekai-cron/client.go:27-51 | `HTTPError` reads `HTTP error <code>`; `TooManyRequests`, `ServerMaintenance` and `AuthError` put "too many requests: ", "maintenance: " and "auth error: " in front of that text |
| GoClient.MessagesDistinct | packages/sekai-cron/client.go:27-51 | for one status code, two HTTP errors have the same message exactly when they are the same error, so the message tells the type apart |
| GoClient.DeobfuscatedAt | packages/sekai-cron/client.go:56-59 | byte `i` is changed exactly when `i < 132` and `i mod 8` is 0, 4, 5, 6 or 7, and then it is XORed with 0xFF |
| GoClient.DeobfuscateInvolution | packages/sekai-cron/client.go:53-62 | de-obfuscating twice gives the original bytes back |
| GoClient.Deobfuscate | packages/sekai-cron/client.go:53-62 | returns a freshly allocated buffer holding the de-obfuscated bytes of the input |
| GoClient.RequestPayload | packages/sekai-cron/client.go:90-101 | a nil GET body sends nothing; a nil body with any other method sends `encrypt` of no bytes, and a map body sends `encrypt` of its msgpack encoding; it succeeds exactly when that marshal works and the key and IV are valid; a failing marshal is reported as such; a bad key fails with its key size unless the marshal failed first |
| GoClient.PayloadDecrypts | packages/sekai-cron/client.go:93-101 | what the server decrypts from the payload: no bytes for a nil non-GET body, the msgpack encoding of the body otherwise |
| GoClient.RequestHeader | packages/sekai-cron/client.go:107-138 | the constant headers go out with their fixed values; the version headers read `AppVersion`, with "" for a missing key; `x-kc`, `x-install-id` and `x-request-id` carry the client's values; the session token and the cookie are sent exactly when non-empty, with their values |
| GoClient.StatusError | packages/sekai-cron/client.go:149-174 | only 200 continues; `TooManyRequests` exactly for 429 or a 403 whose body contains "Request blocked."; `ServerMaintenance` exactly for 503; `HTTPError` exactly for everything else, 426 included |
| GoClient.Refreshed | packages/sekai-cron/client.go:176-182 | a stored value is replaced only by a non-empty received one, so a non-empty value is never lost |
| GoClient.UpdatedResources | packages/sekai-cron/client.go:199-204 | `updatedResources` fails with a type-assertion failure exactly when present and not a map; otherwise the result is that map, or the empty map when the key is absent |
| GoClient.ResponseRefreshesTokenAndCookie | packages/sekai-cron/client.go:149-182 | after a 200 the token and the cookie are refreshed from the response headers, whatever happens to the body afterwards; any other status fails with the dispatched error and changes nothing; `AppVersion` never changes |
| GoClient.NextRequestCarriesRefreshed | packages/sekai-cron/client.go:131-182 | after a 200, the next request carries a non-empty token or cookie just received, and never drops one it held |
| GoClient.ResponseMergesUpdatedResources | packages/sekai-cron/client.go:184-205 | after a successful non-JSON exchange each `updatedResources` key overwrites the same `Data` key and every other key is kept; a JSON response and every failure leave `Data` unchanged |
| GoClient.RequestStages | packages/sekai-cron/client.go:89-148 | a request whose payload cannot be built, or which gets no response, fails and changes nothing; otherwise its outcome is the response's |
| GoClient.EmptyBodyPanics | packages/sekai-cron/client.go:191-195 | a 200 with an empty non-JSON body panics in `decrypt`, before the length check |
| GoClient.Scan | packages/sekai-cron/client.go:282-304 | one scan over `appVersions` stops at the first accepted entry or at the first non-map entry; every entry before it is a map that is not accepted; `NotFound` means none is accepted |
| GoClient.SelectEntryIsFirst | packages/sekai-cron/client.go:282-304 | `update` copies the first available entry of the current app version, or, failing that, the first available entry of any version; with none available nothing is chosen; a non-map entry met first panics |
| GoClient.SelectEntryExample | packages/sekai-cron/client.go:282-304 | with current version 4.1.0 and entries (4.1.0 not available, 4.1.0 available, 4.2.0 available) the second entry is chosen |
| GoClient.SekaiClient.constructor | packages/sekai-cron/main.go:257-280 | a client starts with empty `AppVersion` and `Data`, no token and no cookie, and the given key material, install id and kc |
| GoClient.SekaiClient.MergeUpdatedResources | packages/sekai-cron/client.go:200-204 | the loop over `ur` leaves `Data` as the old map overridden by `ur`, in any key order |
| GoClient.SekaiClient.Request | packages/sekai-cron/client.go:89-206 | the result and the new token, cookie and `Data` are exactly those of `RequestOutcome` on the old state |
| GoClient.SekaiClient.RequestDeobfuscate | packages/sekai-cron/client.go:208-253 | sends an empty body with only the cookie, applies the same status dispatch, and returns a newly allocated buffer of the de-obfuscated body after a 200 |
| GoClient.SekaiClient.MergeVersion | packages/sekai-cron/client.go:277-279 | `AppVersion` becomes the old map overridden by the fetched versions |
| GoClient.SekaiClient.CopyEntry | packages/sekai-cron/client.go:284-298 | with only string values every key of the entry is copied over `AppVersion`; a non-string value panics part-way: no key `AppVersion` held is removed, no key outside the entry is added, and each key is as it was or holds a string from the entry |
| GoClient.SekaiClient.ApplySystemInfo | packages/sekai-cron/client.go:281-304 | `AppVersion` after the two loops is given by `SelectEntry`: a missing `appVersions` list or a non-map entry panics unchanged, no available entry leaves it unchanged, a chosen entry is copied |
| GoClient.SekaiClient.Update | packages/sekai-cron/client.go:273-305 | merge the versions, issue the system request from the merged state (token, cookie and `Data` as `Request` leaves them), then apply the chosen entry; a failed request leaves `AppVersion` as merged |
| Cookies.Split | packages/sekai-extractor/src/client.ts:124 | `split(";")` gives at least one part, and no part contains the separator |
| Cookies.JoinSplit | packages/sekai-extractor/src/client.ts:124 | splitting loses nothing: joining the parts with the separator gives the header back |
| Cookies.SplitNoSeparator | packages/sekai-extractor/src/client.ts:124 | a header without `;` is one part, itself |
| Cookies.LastNamed | packages/sekai-extractor/src/client.ts:121-126 | the last cookie of a name in a list: it has that name and no later cookie in the list does; there is none exactly when no cookie has the name |
| Cookies.MergeLastWins | packages/sekai-extractor/src/client.ts:121-126 | after a merge each name given in the list holds its last cookie, and every other name keeps exactly what the jar held, with nothing dropped |
| Cookies.MergeKeepsNames | packages/sekai-extractor/src/client.ts:121-126 | the jar is never pruned: every name survives a merge |
| Cookies.MergeTwice | packages/sekai-extractor/src/client.ts:116-126 | two merges in a row are one merge of the concatenated lists |
| Cookies.MergeExample | packages/sekai-extractor/src/client.ts:121-126 | merging `a=1`, then `a=2, b=1`, into an empty jar leaves `a=2, b=1` |
| TsClient.SubtleEncrypt | packages/sekai-extractor/src/client.ts:43-53 | WebCrypto AES-CBC encryption succeeds exactly with a valid key and a 16-byte IV, and produces the same bytes as the Go client's `encrypt` |
| TsClient.SubtleDecrypt | packages/sekai-extractor/src/client.ts:55-65 | WebCrypto AES-CBC decryption succeeds exactly with a valid key and IV, non-empty whole blocks and valid PKCS#7 padding; it drops 1 to 16 bytes and agrees with the Go client's `decrypt` wherever it succeeds |
| TsClient.PadIsValid | packages/sekai-extractor/src/client.ts:43-65 | the padding WebCrypto adds is valid PKCS#7 and stripping it gives the data back |
| TsClient.SubtleDecryptEncrypt | packages/sekai-extractor/src/client.ts:43-65 | round trip of WebCrypto AES-CBC under one key and IV |
| TsClient.SubtleDecryptChecksPadding | packages/sekai-extractor/src/client.ts:55-65 | the block that Go's `decrypt` accepts despite invalid padding is rejected by WebCrypto |
| TsClient.GoPayloadPassesPaddingCheck | packages/sekai-cron/client.go:93-101 | every payload the Go client builds passes WebCrypto's PKCS#7 check and decrypts there to the msgpack bytes of the body, or to no bytes for a nil body |
| TsClient.RequestHeaders | packages/sekai-extractor/src/client.ts:82-106 | the fixed headers go out with their values; `X-Kc`, the device, version and install-id headers equal the record's fields; `X-Session-Token` is sent exactly when the token is non-empty, never empty |
| TsClient.MakeRequest | packages/sekai-extractor/src/client.ts:67-108 | the request is built exactly when the body is falsy or it encodes and the key and IV are valid; a falsy body gives an empty request body; a truthy body is the WebCrypto encryption of its msgpack encoding; encoding failure is reported; method, URL and headers are those asked for |
| TsClient.RequestBodyDecrypts | packages/sekai-extractor/src/client.ts:76-81 | a request has a body exactly when the body is truthy, and a server with the same key recovers the original value from it whenever msgpack decodes that value's encoding back to it |
| TsClient.EmptyObjectIsSent | packages/sekai-extractor/src/client.ts:76-81 | an empty object is truthy: given an encoding for it and a valid key and IV, the request is built and its body is the encryption of that encoding |
| TsClient.DecodeBody | packages/sekai-extractor/src/client.ts:130-147 | a JSON content type is parsed without decryption; an empty non-JSON buffer is `undefined`; a non-empty one is decrypted then msgpack-decoded, giving the decoded value, `DecodeError` when msgpack fails, or `DecryptError` when decryption fails |
| TsClient.DecodeBodyWithoutDecrypt | packages/sekai-extractor/src/client.ts:130-147 | JSON and empty responses never use the cipher: any two keys, IVs and ciphers give the same result |
| TsClient.DecodeBodyRoundTrip | packages/sekai-extractor/src/client.ts:139-147 | a body the server encrypted from the msgpack encoding of `v` decodes to `v`, for any `v` whose encoding msgpack decodes back to `v` |
| TsClient.SetCookieParts | packages/sekai-extractor/src/client.ts:124 | no `set-cookie` header gives no parts; otherwise the parts hold no `;` and join back to the header, which makes them the header's `split(";")` |
| TsClient.CookiesMergedBeforeDecoding | packages/sekai-extractor/src/client.ts:116-126 | once a response arrives the jar holds, per name, the last cookie the response gave, parsed `set-cookie` cookies last, and every other cookie it had, whatever the body decoding does |
| TsClient.FirstMatch | packages/sekai-extractor/src/client.ts:225-238 | `runHead` of the filtered entries: the first entry that is available and of the client's app version, with no earlier one; `None` exactly when there is none |
| TsClient.ApplySystemInfo | packages/sekai-extractor/src/client.ts:225-251 | the first matching entry's app and asset versions replace the record's and nothing else changes; with no match the record is unchanged |
| TsClient.ApplySystemInfoKeepsAppVersion | packages/sekai-extractor/src/client.ts:228-249 | since a match has the client's own app version, only `assetVersion` can change, and only to that of an available entry for the current version |
| TsClient.ApplySystemInfoExample | packages/sekai-extractor/src/client.ts:225-251 | with the client on 4.1.0, a maintenance 4.1.0 entry and an available 4.2.0 entry are passed over and the first available 4.1.0 entry wins |
| TsClient.WithUser | packages/sekai-extractor/src/client.ts:284-290 | `user` becomes the registered id and credential, and every other field is copied |
| TsClient.ReadOnlyOperationsKeepRecord | packages/sekai-extractor/src/client.ts:182-362 | `refreshSignature`, `auth` and `ruleAgreement` never change the record; without a user `auth` and `ruleAgreement` fail before any request, leaving the jar too |
| TsClient.NewUserSetsUser | packages/sekai-extractor/src/client.ts:266-292 | a successful `newUser` stores exactly the decoded registration, overwriting any user, and changes nothing else; a failed one changes nothing |
| TsClient.UpdateSystemInfoChangesOnlyAssetVersion | packages/sekai-extractor/src/client.ts:212-254 | `updateSystemInfo` changes at most the asset version, and only on success, as `ApplySystemInfo` of the decoded body |
| TsClient.OperationsKeepCookieMerge | packages/sekai-extractor/src/client.ts:204-297 | the jar after `updateSystemInfo` and `newUser` is the one `executeRequest` left, even when schema decoding then fails |
| TsClient.SekaiClientContext.Make | packages/sekai-extractor/src/client.ts:29-37 | the context starts with the given record and an empty jar |
| TsClient.SekaiClientContext.ExecuteRequest | packages/sekai-extractor/src/client.ts:110-148 | merges the response cookies into the jar before decoding the body; result and jar are those of `ExecuteOutcome` |
| TsClient.SekaiClientContext.Call | packages/sekai-extractor/src/client.ts:156-178 | `makeRequest` on the current record then `executeRequest`; a request that cannot be built leaves the jar alone |
| TsClient.SekaiClientContext.RefreshSignature | packages/sekai-extractor/src/client.ts:182-201 | an empty-bodied POST to the signature URL; the record is kept and the jar is `ExecuteOutcome`'s |
| TsClient.SekaiClientContext.UpdateSystemInfo | packages/sekai-extractor/src/client.ts:204-259 | result, record and jar are those of `UpdateSystemInfoOutcome` on the old state |
| TsClient.SekaiClientContext.NewUser | packages/sekai-extractor/src/client.ts:260-297 | result, record and jar are those of `NewUserOutcome` on the old state |
| TsClient.SekaiClientContext.Auth | packages/sekai-extractor/src/client.ts:298-329 | fails with `NoSuchElement` without a user; otherwise PUTs the credential and returns the body undecoded; the record never changes |
| TsClient.SekaiClientContext.RuleAgreement | packages/sekai-extractor/src/client.ts:330-362 | fails with `NoSuchElement` without a user; otherwise POSTs the credential with `userId: 0` and returns the body undecoded; the record never changes |

## Left out

- The AES block cipher (`crypto/aes`, and `crypto.subtle` under AES-CBC) is an abstract keyed block permutation with an invertibility predicate. So is the `CryptoKey` import. Only CBC chaining and padding are written out.
- msgpack, `json.Unmarshal`, `response.json`, `Schema.decodeUnknown` and `Cookies.fromSetCookie` are function parameters. So is `msgpack.Unmarshal` decoding into the request's own body variable. Key order in encoded maps is not modelled, because maps here are unordered.
- The network is a transport parameter. This covers `http.Client.Do`, `io.ReadAll`, the Effect HTTP client with `withCookiesRef`, and `getVersion` (its result is the `version` argument of `Update`). `http.NewRequest` errors are not modelled.
- The random request ids (`uuid.NewString`, `crypto.randomUUID`) are parameters.
- GoClient.SekaiClient.Request: does not model `go client.update()` on 426 or the rate limiter's `WaitN` on 403 and 429, because both are concurrent side effects. Only the raised error is modelled.
- GoClient.SekaiClient.RequestDeobfuscate: does not model the rate limiter's `WaitN` or `go client.update()`, for the same reason.
- GoClient.RequestHeader: the header names are fixed by the datatype. Go's header-key canonicalisation is not modelled, and response headers are looked up by their canonical names.
- The Go `Data` map is never nil in the model. A nil map would make the merge panic, but the service always creates it.
- TsClient.SekaiClientContext: `SubscriptionRef` semantics are left out, namely the semaphore around `updateEffect` and the broadcast of changes. The operations run one at a time.
- TsClient.AuthUrl: renders the user id as a decimal integer. JavaScript's rendering of non-integral or very large numbers is not modelled, because numbers are integers here.
- The `serverDate` and `timezone` fields of `SystemInfo`, and the `updatedResources` of the TypeScript `NewUser`, are not modelled. The client never reads them.
- `console.log`, `log.Printf` and `debug.PrintStack` are output only and are left out.
- `packages/sekai-cron/main.go` (S3, Kafka, cron, hashing) and `packages/sekai-extractor/src/main.ts` (bootstrap, file output) are not part of this model.
- `executeRequest` splits the `set-cookie` header on `;`, so a cookie's attributes reach `Cookies.fromSetCookie` as separate strings. What that parser makes of them is the library's business and is not modelled.
