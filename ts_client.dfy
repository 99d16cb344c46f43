/**
 * The TypeScript session pipeline (packages/sekai-extractor/src/client.ts) over the session
 * record of packages/sekai-extractor/src/models.ts.
 *
 * `makeRequest` and the response decoding are functions; the shared session cell and its
 * cookie jar are a class whose methods replace the record or merge into the jar. Each `api`
 * operation is specified by an `...Outcome` function of the state before it, giving the result
 * and the state after it; the lemmas state what the operations promise about those functions.
 *
 * The libraries the client calls (msgpack, `response.json`, `Schema.decodeUnknown`,
 * `Cookies.fromSetCookie`, the HTTP client) are function-valued parameters. The AES block
 * cipher inside `crypto.subtle` is the abstract block permutation of `GoCrypt`; the AES-CBC
 * mode WebCrypto wraps around it (CBC chaining, PKCS#7 padding checked on decryption) is
 * written out, so it can be compared with the Go client's cipher.
 */
module TsClient {
  import opened Common
  import opened Cookies
  import GoCrypt
  import GoClient

  // ---------------------------------------------------------------- the session record

  /** `Device`. */
  datatype Device = Device(platform: string, deviceModel: string, operatingSystem: string,
                           userAgent: string, unityVersion: string)

  /** The `domains` record. */
  datatype Domains = Domains(api: string, assetBundle: string, assetBunddleInfo: string,
                             gameVersion: string, signature: string)

  /** `Versions`. */
  datatype Versions = Versions(appHash: string, appVersion: string, assetVersion: string, dataVersion: string)

  /** The registered user. */
  datatype User = User(userId: int, credential: string)

  /**
   * `BaseSekaiClientData`: the session record. The AES key is held as its raw bytes (the
   * `CryptoKey` it is imported into is opaque).
   */
  datatype ClientData = ClientData(device: Device, domains: Domains, versions: Versions,
                                   installId: string, kc: string, key: seq<bv8>, iv: seq<bv8>,
                                   user: Option<User>, sessionToken: string)

  // ---------------------------------------------------------------- JavaScript values

  /** The values that travel as bodies. Numbers are integral here. */
  datatype JsValue =
    | Undefined
    | Null
    | Bool(b: bool)
    | Num(n: int)
    | Str(s: string)
    | Arr(items: seq<JsValue>)
    | Obj(fields: map<string, JsValue>)

  /** JavaScript truthiness: every object and array is truthy, even an empty one. */
  predicate Truthy(v: JsValue)
  {
    match v
    case Undefined => false
    case Null => false
    case Bool(b) => b
    case Num(n) => n != 0
    case Str(s) => s != ""
    case Arr(_) => true
    case Obj(_) => true
  }

  // ---------------------------------------------------------------- AES-CBC as crypto.subtle does it

  /** The only error `crypto.subtle` raises here. */
  datatype CryptoError = OperationError

  /** A PKCS#7 padded block sequence: a last byte `p` in 1..16, and the last `p` bytes all equal to `p`. */
  predicate ValidPadding(plain: seq<bv8>)
  {
    && |plain| > 0
    && 1 <= plain[|plain| - 1] as int <= GoCrypt.BlockSize
    && plain[|plain| - 1] as int <= |plain|
    && forall i :: |plain| - plain[|plain| - 1] as int <= i < |plain| ==> plain[i] == plain[|plain| - 1]
  }

  /**
   * `crypto.subtle.encrypt` with AES-CBC: PKCS#7 padding, then CBC chaining. A bad key or IV
   * length is an `OperationError`. The bytes are exactly those the Go client's `encrypt`
   * produces for the same key and IV.
   */
  function SubtleEncrypt(aes: GoCrypt.Aes, key: seq<bv8>, iv: seq<bv8>, data: seq<bv8>): (r: Result<seq<bv8>, CryptoError>)
    ensures r.Ok? <==> GoCrypt.ValidKeyLength(|key|) && |iv| == GoCrypt.BlockSize
    ensures r.Ok? ==> GoCrypt.Encrypt(GoCrypt.Crypt(key, iv, []), aes, data) == Ok(r.value)
    ensures r.Ok? ==> |r.value| > 0 && |r.value| % GoCrypt.BlockSize == 0
  {
    if !GoCrypt.ValidKeyLength(|key|) || |iv| != GoCrypt.BlockSize then Err(OperationError)
    else Ok(GoCrypt.CbcEncrypt(aes, key, iv, GoCrypt.Pad(data)))
  }

  /**
   * `crypto.subtle.decrypt` with AES-CBC: CBC-decrypt a non-empty whole-block input, then
   * check and strip the PKCS#7 padding. Whatever it accepts the Go client's `decrypt` accepts
   * too, with the same result.
   */
  function SubtleDecrypt(aes: GoCrypt.Aes, key: seq<bv8>, iv: seq<bv8>, data: seq<bv8>): (r: Result<seq<bv8>, CryptoError>)
    ensures r.Ok? <==>
      && GoCrypt.ValidKeyLength(|key|) && |iv| == GoCrypt.BlockSize
      && |data| > 0 && |data| % GoCrypt.BlockSize == 0
      && ValidPadding(GoCrypt.CbcDecrypt(aes, key, iv, data))
    ensures r.Ok? ==> |data| - GoCrypt.BlockSize <= |r.value| < |data|
    ensures r.Ok? ==> GoCrypt.Decrypt(GoCrypt.Crypt(key, iv, []), aes, data) == Ok(r.value)
  {
    if !GoCrypt.ValidKeyLength(|key|) || |iv| != GoCrypt.BlockSize || |data| == 0 || |data| % GoCrypt.BlockSize != 0
    then Err(OperationError)
    else
      var plain := GoCrypt.CbcDecrypt(aes, key, iv, data);
      if ValidPadding(plain) then Ok(plain[..|plain| - plain[|plain| - 1] as int]) else Err(OperationError)
  }

  /** The padding byte, read back as a number, is the padding size. */
  lemma PadLastByte(x: seq<bv8>)
    ensures var padded := GoCrypt.Pad(x);
      padded[|padded| - 1] as int == GoCrypt.PaddingSize(|x|)
  {
    var p := GoCrypt.PaddingSize(|x|);
    assert GoCrypt.Pad(x)[|GoCrypt.Pad(x)| - 1] == p as bv8;
    assert (p as bv8) as int == p;
  }

  /** Padding always produces valid PKCS#7 padding, and stripping it gives the data back. */
  lemma PadIsValid(x: seq<bv8>)
    ensures ValidPadding(GoCrypt.Pad(x))
    ensures var padded := GoCrypt.Pad(x); padded[..|padded| - padded[|padded| - 1] as int] == x
  {
    var padded := GoCrypt.Pad(x);
    var p := GoCrypt.PaddingSize(|x|);
    PadLastByte(x);
    assert |padded| - p == |x|;
    forall i | |x| <= i < |padded|
      ensures padded[i] == padded[|padded| - 1]
    {
    }
  }

  /** The round trip of WebCrypto's AES-CBC: decrypting what it encrypted gives the data back. */
  lemma SubtleDecryptEncrypt(aes: GoCrypt.Aes, key: seq<bv8>, iv: seq<bv8>, data: seq<bv8>)
    requires GoCrypt.Invertible(aes)
    requires SubtleEncrypt(aes, key, iv, data).Ok?
    ensures SubtleDecrypt(aes, key, iv, SubtleEncrypt(aes, key, iv, data).value) == Ok(data)
  {
    GoCrypt.CbcRoundTrip(aes, key, iv, GoCrypt.Pad(data));
    PadIsValid(data);
  }

  /**
   * The two clients differ in what they accept: the block whose plaintext ends in 7, 2 (not
   * valid PKCS#7) decrypts in Go but is an `OperationError` for WebCrypto.
   */
  lemma SubtleDecryptChecksPadding()
    ensures
      var zeros := seq(16, _ => 0 as bv8);
      var block := seq(14, _ => 0 as bv8) + [7 as bv8, 2 as bv8];
      && GoCrypt.Decrypt(GoCrypt.Crypt(zeros, zeros, []), GoCrypt.IdentityAes(), block).Ok?
      && SubtleDecrypt(GoCrypt.IdentityAes(), zeros, zeros, block) == Err(OperationError)
  {
    var zeros: GoCrypt.Block := seq(16, _ => 0 as bv8);
    var block: GoCrypt.Block := seq(14, _ => 0 as bv8) + [7 as bv8, 2 as bv8];
    var aes := GoCrypt.IdentityAes();
    GoCrypt.DecryptIgnoresPaddingBytes();
    var plain := GoCrypt.CbcDecrypt(aes, zeros, zeros, block);
    assert block[..GoCrypt.BlockSize] == block;
    assert GoCrypt.CbcDecrypt(aes, zeros, block, block[GoCrypt.BlockSize..]) == [];
    assert plain == GoCrypt.XorBlock(block, zeros);
    assert plain[15] == 2 && plain[14] == 7;
    assert !ValidPadding(plain);
  }

  /**
   * The other direction holds for what the Go client sends: every request payload it builds
   * carries valid PKCS#7 padding, so a server decrypting as WebCrypto does recovers the
   * msgpack bytes of the body (no bytes for a nil body).
   */
  lemma GoPayloadPassesPaddingCheck(crypt: GoCrypt.Crypt, env: GoClient.Env, httpMethod: string, body: GoClient.MsgMap)
    requires GoCrypt.Invertible(env.aes)
    requires GoClient.RequestPayload(crypt, env, httpMethod, body).Ok?
    requires !(body.NilMap? && httpMethod == "GET")
    ensures var payload := GoClient.RequestPayload(crypt, env, httpMethod, body).value;
      SubtleDecrypt(env.aes, crypt.key, crypt.iv, payload) ==
        Ok(if body.MapOf? then env.marshal(body.entries).value else [])
  {
    var plain: seq<bv8> := if body.MapOf? then env.marshal(body.entries).value else [];
    assert GoCrypt.Encrypt(crypt, env.aes, plain) == GoCrypt.Encrypt(GoCrypt.Crypt(crypt.key, crypt.iv, []), env.aes, plain);
    assert SubtleEncrypt(env.aes, crypt.key, crypt.iv, plain).Ok?;
    SubtleDecryptEncrypt(env.aes, crypt.key, crypt.iv, plain);
  }

  // ---------------------------------------------------------------- the libraries

  /** The body `updateSystemInfo` decodes (`serverDate` and `timezone` are not modelled). */
  datatype AppVersion = AppVersion(systemProfile: string, appVersion: string, multiPlayVersion: string,
                                   assetVersion: string, appVersionStatus: string)
  datatype SystemInfo = SystemInfo(profile: string, maintenanceStatus: string, appVersions: seq<AppVersion>)

  /** The body `newUser` decodes: `userRegistration.userId` and `credential`. */
  datatype NewUser = NewUser(userId: int, credential: string)

  datatype HttpMethod = Get | Post | Put

  /** The headers every request carries with fixed values. */
  const ConstantHeaders: seq<(string, string)> := [
    ("User-Agent", "ProductName/211 CFNetwork/1568.100.1.2.1 Darwin/24.0.0"),
    ("Accept", OctetStream), ("Content-Type", OctetStream),
    ("X-Ai", ""), ("X-Ga", ""), ("X-Ma", ""), ("X-If", "")
  ]

  /**
   * The headers `makeRequest` sets: the fixed ones, then those whose values vary;
   * `X-Session-Token` is present only when `sessionToken` is `Some`.
   */
  datatype Headers = Headers(constant: seq<(string, string)>, kc: string, deviceModel: string, operatingSystem: string, platform: string,
                             unityVersion: string, appHash: string, appVersion: string, assetVersion: string,
                             dataVersion: string, installId: string, requestId: string, sessionToken: Option<string>)

  const OctetStream := "application/octet-stream"

  /** A request; `body` is `None` for `HttpBody.empty`. */
  datatype Request = Request(httpMethod: HttpMethod, url: string, headers: Headers, body: Option<seq<bv8>>)

  /**
   * What the HTTP client hands back: status, headers (lower-case names), the body bytes, and
   * the cookies `withCookiesRef` collects from the response.
   */
  datatype Response = Response(status: int, headers: map<string, string>, body: seq<bv8>, cookies: seq<Cookie>)

  /** The library calls, as functions; `None` is a thrown error or a failed effect. */
  datatype Primitives = Primitives(
    aes: GoCrypt.Aes,                                  // the AES block cipher inside crypto.subtle
    encode: JsValue -> Option<seq<bv8>>,               // msgpack Encoder.encode
    decode: seq<bv8> -> Option<JsValue>,               // msgpack Decoder.decode
    parseJson: seq<bv8> -> Option<JsValue>,            // response.json
    fromSetCookie: seq<string> -> seq<Cookie>,         // Cookies.fromSetCookie
    decodeSystemInfo: JsValue -> Option<SystemInfo>,   // Schema.decodeUnknown(SystemInfo)
    decodeNewUser: JsValue -> Option<NewUser>,         // Schema.decodeUnknown(NewUser)
    transport: (Request, Jar) -> Option<Response>)     // HttpClient.execute with the jar's cookies

  /**
   * msgpack decoding inverts encoding on the value `v`. This is asked of one value at a time:
   * msgpack writes `undefined` and `null` alike as nil, so no encoder meets it for every value.
   */
  predicate MsgpackRoundTrips(prims: Primitives, v: JsValue)
  {
    prims.encode(v).Some? ==> prims.decode(prims.encode(v).value) == Some(v)
  }

  /** Where a request fails. */
  datatype TsError =
    | EncodeError
    | EncryptError
    | TransportError
    | JsonError
    | DecryptError
    | DecodeError
    | SchemaError
    | NoSuchElement

  // ---------------------------------------------------------------- makeRequest

  /**
   * The headers of a request: `X-Kc`, the device and version headers and `X-Install-Id` copy
   * the record's fields; `X-Session-Token` is sent exactly when the token is non-empty.
   */
  function RequestHeaders(client: ClientData, requestId: string): (h: Headers)
    ensures h.constant == ConstantHeaders
    ensures h.kc == client.kc && h.installId == client.installId && h.requestId == requestId
    ensures h.deviceModel == client.device.deviceModel && h.operatingSystem == client.device.operatingSystem
    ensures h.platform == client.device.platform && h.unityVersion == client.device.unityVersion
    ensures h.appHash == client.versions.appHash && h.appVersion == client.versions.appVersion
    ensures h.assetVersion == client.versions.assetVersion && h.dataVersion == client.versions.dataVersion
    ensures h.sessionToken.Some? <==> client.sessionToken != ""
    ensures h.sessionToken.Some? ==> h.sessionToken.value == client.sessionToken
  {
    Headers(ConstantHeaders, client.kc, client.device.deviceModel, client.device.operatingSystem, client.device.platform,
            client.device.unityVersion, client.versions.appHash, client.versions.appVersion,
            client.versions.assetVersion, client.versions.dataVersion, client.installId, requestId,
            if client.sessionToken != "" then Some(client.sessionToken) else None)
  }

  /**
   * `makeRequest`: a truthy body is msgpack-encoded and encrypted; any other body (an
   * omitted one included) gives an empty request body.
   */
  function MakeRequest(client: ClientData, prims: Primitives, httpMethod: HttpMethod, url: string,
                       body: JsValue, requestId: string): (r: Result<Request, TsError>)
    ensures r.Ok? <==>
      !Truthy(body) ||
      (prims.encode(body).Some? && GoCrypt.ValidKeyLength(|client.key|) && |client.iv| == GoCrypt.BlockSize)
    ensures !Truthy(body) ==> r == Ok(Request(httpMethod, url, RequestHeaders(client, requestId), None))
    ensures Truthy(body) && r.Ok? ==>
      && r.value.body.Some?
      && prims.encode(body).Some?
      && SubtleEncrypt(prims.aes, client.key, client.iv, prims.encode(body).value) == Ok(r.value.body.value)
    ensures Truthy(body) && prims.encode(body).None? ==> r == Err(EncodeError)
    ensures r.Ok? ==> r.value.httpMethod == httpMethod && r.value.url == url && r.value.headers == RequestHeaders(client, requestId)
  {
    var headers := RequestHeaders(client, requestId);
    if !Truthy(body) then Ok(Request(httpMethod, url, headers, None))
    else
      match prims.encode(body)
      case None => Err(EncodeError)
      case Some(bytes) =>
        match SubtleEncrypt(prims.aes, client.key, client.iv, bytes)
        case Err(_) => Err(EncryptError)
        case Ok(ciphertext) => Ok(Request(httpMethod, url, headers, Some(ciphertext)))
  }

  /** What a server holding the same key recovers from a request body: the msgpack encoding of the body. */
  lemma RequestBodyDecrypts(client: ClientData, prims: Primitives, httpMethod: HttpMethod, url: string,
                            body: JsValue, requestId: string)
    requires GoCrypt.Invertible(prims.aes) && MsgpackRoundTrips(prims, body)
    requires MakeRequest(client, prims, httpMethod, url, body, requestId).Ok?
    ensures var req := MakeRequest(client, prims, httpMethod, url, body, requestId).value;
      && (req.body.Some? <==> Truthy(body))
      && (req.body.Some? ==>
            && SubtleDecrypt(prims.aes, client.key, client.iv, req.body.value).Ok?
            && prims.decode(SubtleDecrypt(prims.aes, client.key, client.iv, req.body.value).value) == Some(body))
  {
    if Truthy(body) {
      var bytes := prims.encode(body).value;
      SubtleDecryptEncrypt(prims.aes, client.key, client.iv, bytes);
      assert prims.decode(bytes) == Some(body);
    }
  }

  /**
   * An empty object is truthy, so it is encrypted and sent rather than dropped: with an
   * encoding for it and a valid key and IV, the request is built and carries the ciphertext.
   */
  lemma EmptyObjectIsSent(client: ClientData, prims: Primitives, httpMethod: HttpMethod, url: string, requestId: string)
    requires prims.encode(Obj(map[])).Some?
    requires GoCrypt.ValidKeyLength(|client.key|) && |client.iv| == GoCrypt.BlockSize
    ensures var r := MakeRequest(client, prims, httpMethod, url, Obj(map[]), requestId);
      && r.Ok? && r.value.body.Some?
      && Ok(r.value.body.value) == SubtleEncrypt(prims.aes, client.key, client.iv, prims.encode(Obj(map[])).value)
  {
    assert Truthy(Obj(map[]));
  }

  // ---------------------------------------------------------------- executeRequest

  const JsonUtf8 := "application/json; charset=utf-8"

  /** A response whose `content-type` is exactly JSON in UTF-8. */
  predicate IsJson(resp: Response)
  {
    "content-type" in resp.headers && resp.headers["content-type"] == JsonUtf8
  }

  /**
   * The body of a response: parsed as JSON for a JSON content type, `undefined` for an empty
   * buffer, and otherwise decrypted and msgpack-decoded.
   */
  function DecodeBody(client: ClientData, prims: Primitives, resp: Response): (r: Result<JsValue, TsError>)
    ensures IsJson(resp) ==> r == (if prims.parseJson(resp.body).Some? then Ok(prims.parseJson(resp.body).value) else Err(JsonError))
    ensures !IsJson(resp) && |resp.body| == 0 ==> r == Ok(Undefined)
    ensures !IsJson(resp) && |resp.body| > 0 && r.Ok? ==>
      && SubtleDecrypt(prims.aes, client.key, client.iv, resp.body).Ok?
      && prims.decode(SubtleDecrypt(prims.aes, client.key, client.iv, resp.body).value) == Some(r.value)
    ensures !IsJson(resp) && SubtleDecrypt(prims.aes, client.key, client.iv, resp.body).Err? && |resp.body| > 0 ==> r == Err(DecryptError)
    ensures !IsJson(resp) && |resp.body| > 0 && SubtleDecrypt(prims.aes, client.key, client.iv, resp.body).Ok? ==>
      var plain := SubtleDecrypt(prims.aes, client.key, client.iv, resp.body).value;
      r == (if prims.decode(plain).Some? then Ok(prims.decode(plain).value) else Err(DecodeError))
  {
    if IsJson(resp) then
      match prims.parseJson(resp.body)
      case None => Err(JsonError)
      case Some(v) => Ok(v)
    else if |resp.body| == 0 then Ok(Undefined)
    else
      match SubtleDecrypt(prims.aes, client.key, client.iv, resp.body)
      case Err(_) => Err(DecryptError)
      case Ok(plain) =>
        match prims.decode(plain)
        case None => Err(DecodeError)
        case Some(v) => Ok(v)
  }

  /**
   * A JSON response and an empty one are decoded without the cipher: two clients with any keys,
   * IVs and block ciphers get the same result.
   */
  lemma DecodeBodyWithoutDecrypt(c1: ClientData, c2: ClientData, p1: Primitives, p2: Primitives, resp: Response)
    requires p1.parseJson == p2.parseJson
    requires IsJson(resp) || |resp.body| == 0
    ensures DecodeBody(c1, p1, resp) == DecodeBody(c2, p2, resp)
  {
  }

  /** A body the server encrypted under the client's key from the msgpack encoding of `v` decodes to `v`. */
  lemma DecodeBodyRoundTrip(client: ClientData, prims: Primitives, resp: Response, v: JsValue)
    requires GoCrypt.Invertible(prims.aes) && MsgpackRoundTrips(prims, v)
    requires !IsJson(resp)
    requires prims.encode(v).Some?
    requires SubtleEncrypt(prims.aes, client.key, client.iv, prims.encode(v).value) == Ok(resp.body)
    ensures DecodeBody(client, prims, resp) == Ok(v)
  {
    var bytes := prims.encode(v).value;
    SubtleDecryptEncrypt(prims.aes, client.key, client.iv, bytes);
    assert prims.decode(bytes) == Some(v);
  }

  /** `response.headers["set-cookie"]?.split(";") ?? []`. */
  function SetCookieParts(headers: map<string, string>): (parts: seq<string>)
    ensures "set-cookie" !in headers ==> parts == []
    ensures "set-cookie" in headers ==> |parts| >= 1 && Join(parts, ';') == headers["set-cookie"]
    ensures forall i :: 0 <= i < |parts| ==> ';' !in parts[i]
  {
    if "set-cookie" in headers then
      JoinSplit(headers["set-cookie"], ';');
      Split(headers["set-cookie"], ';')
    else []
  }

  /** What `executeRequest` returns. */
  datatype Reply = Reply(headers: map<string, string>, body: JsValue)

  /**
   * `executeRequest` as a function of the jar before it: the result, and the jar after it. The
   * response's cookies are merged first (by `withCookiesRef`), then the cookies parsed from the
   * `set-cookie` header; both merges happen before the body is decoded.
   */
  function ExecuteOutcome(client: ClientData, jar: Jar, prims: Primitives, req: Request): (Result<Reply, TsError>, Jar)
  {
    match prims.transport(req, jar)
    case None => (Err(TransportError), jar)
    case Some(resp) =>
      var jar' := Merge(Merge(jar, resp.cookies), prims.fromSetCookie(SetCookieParts(resp.headers)));
      match DecodeBody(client, prims, resp)
      case Err(e) => (Err(e), jar')
      case Ok(body) => (Ok(Reply(resp.headers, body)), jar')
  }

  /**
   * The cookie merge persists whatever happens to the body: once a response has arrived, the
   * jar holds, for every name, the last cookie the response gave for it (parsed `set-cookie`
   * cookies winning over the others), and every other cookie it held before.
   */
  lemma CookiesMergedBeforeDecoding(client: ClientData, jar: Jar, prims: Primitives, req: Request, name: string)
    requires prims.transport(req, jar).Some?
    ensures
      var resp := prims.transport(req, jar).value;
      var given := resp.cookies + prims.fromSetCookie(SetCookieParts(resp.headers));
      var jar' := ExecuteOutcome(client, jar, prims, req).1;
      && jar.Keys <= jar'.Keys
      && (LastNamed(given, name).Some? ==> name in jar' && jar'[name] == LastNamed(given, name).value)
      && (LastNamed(given, name).None? && name in jar ==> name in jar' && jar'[name] == jar[name])
      && (LastNamed(given, name).None? && name !in jar ==> name !in jar')
  {
    var resp := prims.transport(req, jar).value;
    var parsed := prims.fromSetCookie(SetCookieParts(resp.headers));
    MergeTwice(jar, resp.cookies, parsed);
    MergeKeepsNames(jar, resp.cookies + parsed);
    MergeLastWins(jar, resp.cookies + parsed, name);
  }

  /** `makeRequest` followed by `executeRequest`; a request that cannot be built leaves the jar alone. */
  function CallOutcome(client: ClientData, jar: Jar, prims: Primitives, httpMethod: HttpMethod, url: string,
                       body: JsValue, requestId: string): (Result<Reply, TsError>, Jar)
  {
    match MakeRequest(client, prims, httpMethod, url, body, requestId)
    case Err(e) => (Err(e), jar)
    case Ok(req) => ExecuteOutcome(client, jar, prims, req)
  }

  // ---------------------------------------------------------------- URLs

  function SignatureUrl(client: ClientData): string
  {
    "https://" + client.domains.signature + "/api/signature"
  }

  function SystemUrl(client: ClientData): string
  {
    "https://" + client.domains.api + "/api/system"
  }

  function NewUserUrl(client: ClientData): string
  {
    "https://" + client.domains.api + "/api/user"
  }

  function AuthUrl(client: ClientData, user: User): string
  {
    "https://" + client.domains.api + "/api/user/" + IntToString(user.userId) + "/auth"
  }

  function RuleAgreementUrl(client: ClientData, user: User): string
  {
    "https://" + client.domains.api + "/api/user/" + IntToString(user.userId) + "/rule-agreement"
  }

  // ---------------------------------------------------------------- the state derivations

  /** The entries `updateSystemInfo` accepts: available, and for the client's own app version. */
  predicate Matches(av: AppVersion, appVersion: string)
  {
    av.appVersionStatus == "available" && av.appVersion == appVersion
  }

  /** `Stream.runHead` of the filtered `appVersions`, from position `from` on: the first accepted index. */
  function FirstMatch(avs: seq<AppVersion>, appVersion: string, from: nat): (r: Option<nat>)
    requires from <= |avs|
    ensures r.Some? ==> from <= r.value < |avs| && Matches(avs[r.value], appVersion)
    ensures r.Some? ==> forall j :: from <= j < r.value ==> !Matches(avs[j], appVersion)
    ensures r.None? <==> forall j :: from <= j < |avs| ==> !Matches(avs[j], appVersion)
    decreases |avs| - from
  {
    if from == |avs| then None
    else if Matches(avs[from], appVersion) then Some(from)
    else FirstMatch(avs, appVersion, from + 1)
  }

  /**
   * The record `updateSystemInfo` keeps: with an accepted entry, its `appVersion` and
   * `assetVersion` replace the record's; every other field, `appHash` and `dataVersion`
   * included, is kept; with no accepted entry the record is unchanged.
   */
  function ApplySystemInfo(client: ClientData, info: SystemInfo): (r: ClientData)
    ensures FirstMatch(info.appVersions, client.versions.appVersion, 0).None? ==> r == client
    ensures FirstMatch(info.appVersions, client.versions.appVersion, 0).Some? ==>
      var av := info.appVersions[FirstMatch(info.appVersions, client.versions.appVersion, 0).value];
      r == client.(versions := client.versions.(appVersion := av.appVersion, assetVersion := av.assetVersion))
  {
    match FirstMatch(info.appVersions, client.versions.appVersion, 0)
    case None => client
    case Some(i) =>
      var av := info.appVersions[i];
      client.(versions := client.versions.(appVersion := av.appVersion, assetVersion := av.assetVersion))
  }

  /**
   * Since the accepted entry has the client's own app version, `updateSystemInfo` never moves
   * to another app version: only `assetVersion` can change, and only to the asset version of an
   * available entry for the current app version.
   */
  lemma ApplySystemInfoKeepsAppVersion(client: ClientData, info: SystemInfo)
    ensures var r := ApplySystemInfo(client, info);
      && r.versions.appVersion == client.versions.appVersion
      && r == client.(versions := client.versions.(assetVersion := r.versions.assetVersion))
      && (r.versions.assetVersion != client.versions.assetVersion ==>
            exists i :: 0 <= i < |info.appVersions| && Matches(info.appVersions[i], client.versions.appVersion)
                        && info.appVersions[i].assetVersion == r.versions.assetVersion)
  {
    var first := FirstMatch(info.appVersions, client.versions.appVersion, 0);
    if first.Some? {
      assert Matches(info.appVersions[first.value], client.versions.appVersion);
    }
  }

  /**
   * With the client on 4.1.0, the first available 4.1.0 entry wins: the maintenance entry and
   * the later available one are passed over.
   */
  lemma ApplySystemInfoExample(client: ClientData)
    requires client.versions.appVersion == "4.1.0"
    ensures
      var info := SystemInfo("production", "maintenance_out", [
        AppVersion("production", "4.1.0", "1", "4.1.0.10", "maintenance"),
        AppVersion("production", "4.2.0", "1", "4.2.0.10", "available"),
        AppVersion("production", "4.1.0", "1", "4.1.0.20", "available"),
        AppVersion("production", "4.1.0", "1", "4.1.0.30", "available")]);
      ApplySystemInfo(client, info).versions.assetVersion == "4.1.0.20"
  {
    var avs := [
      AppVersion("production", "4.1.0", "1", "4.1.0.10", "maintenance"),
      AppVersion("production", "4.2.0", "1", "4.2.0.10", "available"),
      AppVersion("production", "4.1.0", "1", "4.1.0.20", "available"),
      AppVersion("production", "4.1.0", "1", "4.1.0.30", "available")];
    assert !Matches(avs[0], "4.1.0");
    assert !Matches(avs[1], "4.1.0");
    assert Matches(avs[2], "4.1.0");
    assert FirstMatch(avs, "4.1.0", 2) == Some(2);
    assert FirstMatch(avs, "4.1.0", 0) == Some(2);
  }

  /** The record after `newUser`: `user` holds the registered id and credential; nothing else changes. */
  function WithUser(client: ClientData, nu: NewUser): (r: ClientData)
    ensures r.user == Some(User(nu.userId, nu.credential))
    ensures r.(user := client.user) == client
  {
    client.(user := Some(User(nu.userId, nu.credential)))
  }

  /** The body `newUser` posts. */
  function NewUserBody(client: ClientData): JsValue
  {
    Obj(map["platform" := Str(client.device.platform), "deviceModel" := Str(client.device.deviceModel),
            "operatingSystem" := Str(client.device.operatingSystem)])
  }

  /** The body `auth` puts. */
  function AuthBody(user: User): JsValue
  {
    Obj(map["credential" := Str(user.credential)])
  }

  /** The body `ruleAgreement` posts. */
  function RuleAgreementBody(user: User): JsValue
  {
    Obj(map["credential" := Str(user.credential), "userId" := Num(0)])
  }

  // ---------------------------------------------------------------- the api operations

  /** `refreshSignature`: an empty-bodied POST; the record is returned unchanged. */
  function RefreshSignatureOutcome(client: ClientData, jar: Jar, prims: Primitives, requestId: string): (Result<(), TsError>, ClientData, Jar)
  {
    var (res, jar') := CallOutcome(client, jar, prims, Post, SignatureUrl(client), Undefined, requestId);
    match res
    case Err(e) => (Err(e), client, jar')
    case Ok(_) => (Ok(()), client, jar')
  }

  /** `updateSystemInfo`: GET the system information, decode it, and apply it to the record. */
  function UpdateSystemInfoOutcome(client: ClientData, jar: Jar, prims: Primitives, requestId: string): (Result<SystemInfo, TsError>, ClientData, Jar)
  {
    var (res, jar') := CallOutcome(client, jar, prims, Get, SystemUrl(client), Undefined, requestId);
    match res
    case Err(e) => (Err(e), client, jar')
    case Ok(reply) =>
      match prims.decodeSystemInfo(reply.body)
      case None => (Err(SchemaError), client, jar')
      case Some(info) => (Ok(info), ApplySystemInfo(client, info), jar')
  }

  /** `newUser`: POST the device description, decode the registration, and store the user. */
  function NewUserOutcome(client: ClientData, jar: Jar, prims: Primitives, requestId: string): (Result<NewUser, TsError>, ClientData, Jar)
  {
    var (res, jar') := CallOutcome(client, jar, prims, Post, NewUserUrl(client), NewUserBody(client), requestId);
    match res
    case Err(e) => (Err(e), client, jar')
    case Ok(reply) =>
      match prims.decodeNewUser(reply.body)
      case None => (Err(SchemaError), client, jar')
      case Some(nu) => (Ok(nu), WithUser(client, nu), jar')
  }

  /** `auth`: needs a user; PUT its credential and return the body undecoded. */
  function AuthOutcome(client: ClientData, jar: Jar, prims: Primitives, requestId: string): (Result<JsValue, TsError>, ClientData, Jar)
  {
    match client.user
    case None => (Err(NoSuchElement), client, jar)
    case Some(user) =>
      var (res, jar') := CallOutcome(client, jar, prims, Put, AuthUrl(client, user), AuthBody(user), requestId);
      match res
      case Err(e) => (Err(e), client, jar')
      case Ok(reply) => (Ok(reply.body), client, jar')
  }

  /** `ruleAgreement`: needs a user; POST its credential with `userId: 0` and return the body undecoded. */
  function RuleAgreementOutcome(client: ClientData, jar: Jar, prims: Primitives, requestId: string): (Result<JsValue, TsError>, ClientData, Jar)
  {
    match client.user
    case None => (Err(NoSuchElement), client, jar)
    case Some(user) =>
      var (res, jar') := CallOutcome(client, jar, prims, Post, RuleAgreementUrl(client, user), RuleAgreementBody(user), requestId);
      match res
      case Err(e) => (Err(e), client, jar')
      case Ok(reply) => (Ok(reply.body), client, jar')
  }

  /**
   * `refreshSignature`, `auth` and `ruleAgreement` never change the record, only the jar;
   * `auth` and `ruleAgreement` without a user fail with `NoSuchElement` before any request,
   * so the jar is untouched too.
   */
  lemma ReadOnlyOperationsKeepRecord(client: ClientData, jar: Jar, prims: Primitives, requestId: string)
    ensures RefreshSignatureOutcome(client, jar, prims, requestId).1 == client
    ensures AuthOutcome(client, jar, prims, requestId).1 == client
    ensures RuleAgreementOutcome(client, jar, prims, requestId).1 == client
    ensures client.user.None? ==> AuthOutcome(client, jar, prims, requestId) == (Err(NoSuchElement), client, jar)
    ensures client.user.None? ==> RuleAgreementOutcome(client, jar, prims, requestId) == (Err(NoSuchElement), client, jar)
  {
  }

  /**
   * `newUser` stores exactly the decoded registration and nothing else, overwriting a user
   * already present; when it fails the record is unchanged.
   */
  lemma NewUserSetsUser(client: ClientData, jar: Jar, prims: Primitives, requestId: string)
    ensures var (r, client', _) := NewUserOutcome(client, jar, prims, requestId);
      && (r.Ok? ==> client'.user == Some(User(r.value.userId, r.value.credential)) && client'.(user := client.user) == client)
      && (r.Err? ==> client' == client)
  {
  }

  /**
   * `updateSystemInfo` changes at most the asset version, and only on success: the app version
   * and every other field keep their values.
   */
  lemma UpdateSystemInfoChangesOnlyAssetVersion(client: ClientData, jar: Jar, prims: Primitives, requestId: string)
    ensures var (r, client', _) := UpdateSystemInfoOutcome(client, jar, prims, requestId);
      && client' == client.(versions := client.versions.(assetVersion := client'.versions.assetVersion))
      && (r.Err? ==> client' == client)
      && (r.Ok? ==> client' == ApplySystemInfo(client, r.value))
  {
    var (res, _) := CallOutcome(client, jar, prims, Get, SystemUrl(client), Undefined, requestId);
    if res.Ok? && prims.decodeSystemInfo(res.value.body).Some? {
      ApplySystemInfoKeepsAppVersion(client, prims.decodeSystemInfo(res.value.body).value);
    }
  }

  /** Every operation that sent a request leaves the jar as `executeRequest` left it, success or not. */
  lemma OperationsKeepCookieMerge(client: ClientData, jar: Jar, prims: Primitives, requestId: string)
    ensures UpdateSystemInfoOutcome(client, jar, prims, requestId).2 ==
      CallOutcome(client, jar, prims, Get, SystemUrl(client), Undefined, requestId).1
    ensures NewUserOutcome(client, jar, prims, requestId).2 ==
      CallOutcome(client, jar, prims, Post, NewUserUrl(client), NewUserBody(client), requestId).1
  {
  }

  // ---------------------------------------------------------------- the shared session cell

  /** `SekaiClientContext`: the session record and its cookie jar, both replaced in place. */
  class SekaiClientContext {
    var client: ClientData
    var cookies: Jar

    /** `SekaiClientContext.make`: the given record and an empty jar. */
    constructor Make(data: ClientData)
      ensures client == data && cookies == map[]
    {
      client := data;
      cookies := map[];
    }

    /** `executeRequest`: send, merge the cookies into the jar, then decode the body. */
    method ExecuteRequest(req: Request, prims: Primitives) returns (r: Result<Reply, TsError>)
      modifies this`cookies
      ensures (r, cookies) == ExecuteOutcome(client, old(cookies), prims, req)
    {
      var resp := prims.transport(req, cookies);
      if resp.None? {
        return Err(TransportError);
      }
      cookies := Merge(cookies, resp.value.cookies);
      cookies := Merge(cookies, prims.fromSetCookie(SetCookieParts(resp.value.headers)));
      MergeTwice(old(cookies), resp.value.cookies, prims.fromSetCookie(SetCookieParts(resp.value.headers)));
      var body := DecodeBody(client, prims, resp.value);
      if body.Err? {
        return Err(body.error);
      }
      r := Ok(Reply(resp.value.headers, body.value));
    }

    /** `makeRequest` on the current record, then `executeRequest`. */
    method Call(httpMethod: HttpMethod, url: string, body: JsValue, requestId: string, prims: Primitives)
      returns (r: Result<Reply, TsError>)
      modifies this`cookies
      ensures (r, cookies) == CallOutcome(client, old(cookies), prims, httpMethod, url, body, requestId)
    {
      var req := MakeRequest(client, prims, httpMethod, url, body, requestId);
      if req.Err? {
        return Err(req.error);
      }
      r := ExecuteRequest(req.value, prims);
    }

    /** `api.signature.refreshSignature`. */
    method RefreshSignature(requestId: string, prims: Primitives) returns (r: Result<(), TsError>)
      modifies this`cookies
      ensures (r, client, cookies) == RefreshSignatureOutcome(client, old(cookies), prims, requestId)
    {
      var res := Call(Post, SignatureUrl(client), Undefined, requestId, prims);
      if res.Err? {
        return Err(res.error);
      }
      r := Ok(());
    }

    /** `api.api.updateSystemInfo`. */
    method UpdateSystemInfo(requestId: string, prims: Primitives) returns (r: Result<SystemInfo, TsError>)
      modifies this`client, this`cookies
      ensures (r, client, cookies) == UpdateSystemInfoOutcome(old(client), old(cookies), prims, requestId)
    {
      var res := Call(Get, SystemUrl(client), Undefined, requestId, prims);
      if res.Err? {
        return Err(res.error);
      }
      var info := prims.decodeSystemInfo(res.value.body);
      if info.None? {
        return Err(SchemaError);
      }
      client := ApplySystemInfo(client, info.value);
      r := Ok(info.value);
    }

    /** `api.api.newUser`. */
    method NewUser(requestId: string, prims: Primitives) returns (r: Result<NewUser, TsError>)
      modifies this`client, this`cookies
      ensures (r, client, cookies) == NewUserOutcome(old(client), old(cookies), prims, requestId)
    {
      var res := Call(Post, NewUserUrl(client), NewUserBody(client), requestId, prims);
      if res.Err? {
        return Err(res.error);
      }
      var nu := prims.decodeNewUser(res.value.body);
      if nu.None? {
        return Err(SchemaError);
      }
      client := WithUser(client, nu.value);
      r := Ok(nu.value);
    }

    /** `api.api.auth`. */
    method Auth(requestId: string, prims: Primitives) returns (r: Result<JsValue, TsError>)
      modifies this`cookies
      ensures (r, client, cookies) == AuthOutcome(client, old(cookies), prims, requestId)
    {
      if client.user.None? {
        return Err(NoSuchElement);
      }
      var user := client.user.value;
      var res := Call(Put, AuthUrl(client, user), AuthBody(user), requestId, prims);
      if res.Err? {
        return Err(res.error);
      }
      r := Ok(res.value.body);
    }

    /** `api.api.ruleAgreement`. */
    method RuleAgreement(requestId: string, prims: Primitives) returns (r: Result<JsValue, TsError>)
      modifies this`cookies
      ensures (r, client, cookies) == RuleAgreementOutcome(client, old(cookies), prims, requestId)
    {
      if client.user.None? {
        return Err(NoSuchElement);
      }
      var user := client.user.value;
      var res := Call(Post, RuleAgreementUrl(client, user), RuleAgreementBody(user), requestId, prims);
      if res.Err? {
        return Err(res.error);
      }
      r := Ok(res.value.body);
    }
  }
}
