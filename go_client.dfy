/**
 * The transport client of the Go service (packages/sekai-cron/client.go): the byte
 * de-obfuscation of asset bundles, the request pipeline `SekaiClient.Request` (payload
 * choice, headers, status dispatch, session token / cookie refresh, the `updatedResources`
 * merge into `Data`) and the app-version update `SekaiClient.update`.
 *
 * Every `assert(err)` of the source is a panic; here it is an `Err` result naming the error.
 * The libraries the client calls (AES, msgpack, encoding/json) and the network are fields of
 * an `Env` value; the random request id is a parameter.
 */
module GoClient {
  import opened Common
  import GoCrypt

  // ---------------------------------------------------------------- values

  /** A decoded msgpack or JSON value as Go holds it in `any`. */
  datatype Value =
    | Nil
    | Bool(b: bool)
    | Int(i: int)
    | Str(s: string)
    | Bin(bytes: seq<bv8>)
    | List(items: seq<Value>)
    | Map(entries: map<string, Value>)

  /** Go's `m` (`map[string]any`), which may be nil. */
  datatype MsgMap = NilMap | MapOf(entries: map<string, Value>)

  /** `body[k]`: nil for a nil map or a missing key. */
  function Lookup(body: MsgMap, k: string): Value
  {
    if body.MapOf? then GetOr(body.entries, k, Nil) else Nil
  }

  // ---------------------------------------------------------------- errors

  /** The panics `Request` and `update` can raise. */
  datatype RequestError =
    | HTTPError(statusCode: int)
    | TooManyRequests(statusCode: int)
    | ServerMaintenance(statusCode: int)
    | AuthError(statusCode: int)       // declared next to the others; nothing raises it
    | CryptFailure(cause: GoCrypt.CryptPanic)
    | MarshalFailure                   // msgpack.Marshal of the request body failed
    | TransportFailure                 // client.Client.Do failed
    | UnmarshalFailure                 // msgpack.Unmarshal of the response failed
    | TypeAssertionFailure             // a `.(m)`, `.(l)` or `.(string)` assertion failed

  function HttpErrorMessage(statusCode: int): string
  {
    "HTTP error " + IntToString(statusCode)
  }

  /** The text each HTTP error type puts before the `HTTPError` message. */
  function MessagePrefix(e: RequestError): string
    requires e.HTTPError? || e.TooManyRequests? || e.ServerMaintenance? || e.AuthError?
  {
    match e
    case HTTPError(_) => ""
    case TooManyRequests(_) => "too many requests: "
    case ServerMaintenance(_) => "maintenance: "
    case AuthError(_) => "auth error: "
  }

  /** `Error()` of the four HTTP error types: each wraps the `HTTPError` text with its own prefix. */
  function Message(e: RequestError): (s: string)
    requires e.HTTPError? || e.TooManyRequests? || e.ServerMaintenance? || e.AuthError?
    ensures e.HTTPError? ==> s == HttpErrorMessage(e.statusCode)
    ensures e.TooManyRequests? ==> s == "too many requests: " + HttpErrorMessage(e.statusCode)
    ensures e.ServerMaintenance? ==> s == "maintenance: " + HttpErrorMessage(e.statusCode)
    ensures e.AuthError? ==> s == "auth error: " + HttpErrorMessage(e.statusCode)
  {
    MessagePrefix(e) + HttpErrorMessage(e.statusCode)
  }

  /**
   * The messages tell the error types apart: two errors with the same status code have the
   * same message only when they are of the same type.
   */
  lemma MessagesDistinct(e1: RequestError, e2: RequestError)
    requires e1.HTTPError? || e1.TooManyRequests? || e1.ServerMaintenance? || e1.AuthError?
    requires e2.HTTPError? || e2.TooManyRequests? || e2.ServerMaintenance? || e2.AuthError?
    requires e1.statusCode == e2.statusCode
    ensures Message(e1) == Message(e2) <==> e1 == e2
  {
    if Message(e1) == Message(e2) {
      // the four prefixes have four different lengths
      assert |MessagePrefix(e1)| == |MessagePrefix(e2)|;
    }
  }

  // ---------------------------------------------------------------- de-obfuscation

  const ObfuscatedPrefix: nat := 132

  function Min(a: nat, b: nat): nat
  {
    if a < b then a else b
  }

  /** Byte `i` of a buffer of length `n` is flipped by `Deobfuscate`. */
  predicate Flipped(i: nat, n: nat)
  {
    i < Min(ObfuscatedPrefix, n) && (i + 4) % 8 < 5
  }

  /** The de-obfuscated bytes: the flipped positions XORed with 0xFF, every other byte as it was. */
  function Deobfuscated(s: seq<bv8>): (r: seq<bv8>)
  {
    seq(|s|, i requires 0 <= i < |s| => if Flipped(i, |s|) then s[i] ^ 0xFF else s[i])
  }

  /** Byte `i` changes exactly when it is one of the first 132 and `i mod 8` is 0, 4, 5, 6 or 7. */
  lemma DeobfuscatedAt(s: seq<bv8>, i: nat)
    requires i < |s|
    ensures |Deobfuscated(s)| == |s|
    ensures Deobfuscated(s)[i] != s[i] <==> i < ObfuscatedPrefix && i % 8 in {0, 4, 5, 6, 7}
    ensures Deobfuscated(s)[i] != s[i] ==> Deobfuscated(s)[i] == s[i] ^ 0xFF
  {
    var x := s[i];
    assert x ^ 0xFF != x;
  }

  /** De-obfuscating twice gives the original bytes. */
  lemma DeobfuscateInvolution(s: seq<bv8>)
    ensures Deobfuscated(Deobfuscated(s)) == s
  {
    var once := Deobfuscated(s);
    forall i | 0 <= i < |s| ensures Deobfuscated(once)[i] == s[i] {
      assert (s[i] ^ 0xFF) ^ 0xFF == s[i];
    }
  }

  /** `Deobfuscate`: a new buffer holding the de-obfuscated bytes; the input is not written. */
  method Deobfuscate(obfuscated: array<bv8>) returns (ret: array<bv8>)
    ensures fresh(ret)
    ensures ret[..] == Deobfuscated(obfuscated[..])
  {
    ret := new bv8[obfuscated.Length](i requires 0 <= i < obfuscated.Length reads obfuscated => obfuscated[i]);
    var n := ret.Length;
    for i := 0 to Min(ObfuscatedPrefix, n)
      invariant forall j :: 0 <= j < i ==> ret[j] == Deobfuscated(obfuscated[..])[j]
      invariant forall j :: i <= j < n ==> ret[j] == obfuscated[j]
    {
      if (i + 4) % 8 < 5 {
        ret[i] := ret[i] ^ 0xFF;
      }
    }
  }

  // ---------------------------------------------------------------- the wire

  /** A request as handed to the transport. */
  datatype HttpRequest = HttpRequest(httpMethod: string, url: string, header: Headers, body: seq<bv8>)

  /** A response; its header map is keyed by canonical header names, as Go's `Header.Get` looks them up. */
  datatype HttpResponse = HttpResponse(statusCode: int, header: map<string, string>, body: seq<bv8>)

  /** `Header.Get`: the value, or "" when absent. */
  function HeaderGet(h: map<string, string>, name: string): string
  {
    GetOr(h, name, "")
  }

  /** The libraries and the network the client calls, none of which is modelled. */
  datatype Env = Env(
    aes: GoCrypt.Aes,
    marshal: map<string, Value> -> Option<seq<bv8>>,          // msgpack.Marshal
    unmarshalInto: (seq<bv8>, MsgMap) -> Option<MsgMap>,      // msgpack.Unmarshal(data, &body), into the request body variable
    jsonUnmarshal: seq<bv8> -> MsgMap,                         // json.Unmarshal; its error is ignored
    transport: HttpRequest -> Option<HttpResponse>)           // client.Client.Do and io.ReadAll

  const StatusOK := 200
  const StatusForbidden := 403
  const StatusUpgradeRequired := 426
  const StatusTooManyRequests := 429
  const StatusServiceUnavailable := 503

  const OctetStream := "application/octet-stream"
  const JsonContentType := "application/json; charset=utf-8"
  const UserAgent := "ProductName/211 CFNetwork/1568.100.1.2.1 Darwin/24.0.0"
  const SystemUrl := "https://production-game-api.sekai.colorfulpalette.org/api/system"

  function AsciiBytes(s: string): (b: seq<bv8>)
    requires forall i :: 0 <= i < |s| ==> s[i] as int < 256
  {
    seq(|s|, i requires 0 <= i < |s| => s[i] as int as bv8)
  }

  const RequestBlocked: seq<bv8> := AsciiBytes("Request blocked.")

  /** `bytes.Contains`. */
  predicate Contains(data: seq<bv8>, pattern: seq<bv8>)
  {
    exists i :: 0 <= i <= |data| - |pattern| && OccursAt(data, pattern, i)
  }

  predicate OccursAt(data: seq<bv8>, pattern: seq<bv8>, i: int)
  {
    0 <= i <= |data| - |pattern| && data[i..i + |pattern|] == pattern
  }

  // ---------------------------------------------------------------- building the request

  /**
   * The bytes sent: nothing for a nil GET body, the encryption of no bytes for a nil body
   * with any other method, and the encryption of the msgpack encoding otherwise.
   */
  function RequestPayload(crypt: GoCrypt.Crypt, env: Env, httpMethod: string, body: MsgMap): (r: Result<seq<bv8>, RequestError>)
    ensures body.NilMap? && httpMethod == "GET" ==> r == Ok([])
    ensures !(body.NilMap? && httpMethod == "GET") && r.Ok? ==> |r.value| > 0 && |r.value| % GoCrypt.BlockSize == 0
    ensures r.Ok? <==>
      (body.NilMap? && httpMethod == "GET") ||
      ((body.NilMap? || env.marshal(body.entries).Some?) &&
       GoCrypt.ValidKeyLength(|crypt.key|) && |crypt.iv| == GoCrypt.BlockSize)
    ensures r.Ok? && body.NilMap? && httpMethod != "GET" ==> Ok(r.value) == GoCrypt.Encrypt(crypt, env.aes, [])
    ensures r.Ok? && body.MapOf? ==>
      env.marshal(body.entries).Some? && Ok(r.value) == GoCrypt.Encrypt(crypt, env.aes, env.marshal(body.entries).value)
    ensures body.MapOf? && env.marshal(body.entries).None? ==> r == Err(MarshalFailure)
    ensures !(body.NilMap? && httpMethod == "GET") && !GoCrypt.ValidKeyLength(|crypt.key|) ==>
      r.Err? && (r.error == MarshalFailure || r.error == CryptFailure(GoCrypt.KeySizeError(|crypt.key|)))
  {
    match body
    case NilMap =>
      if httpMethod == "GET" then Ok([])
      else (
        match GoCrypt.Encrypt(crypt, env.aes, [])
        case Ok(data) => Ok(data)
        case Err(e) => Err(CryptFailure(e)))
    case MapOf(entries) =>
      match env.marshal(entries)
      case None => Err(MarshalFailure)
      case Some(data) =>
        match GoCrypt.Encrypt(crypt, env.aes, data)
        case Ok(ciphertext) => Ok(ciphertext)
        case Err(e) => Err(CryptFailure(e))
  }

  /** What the server can recover from the payload: the empty plaintext for a nil body, the msgpack bytes otherwise. */
  lemma PayloadDecrypts(crypt: GoCrypt.Crypt, env: Env, httpMethod: string, body: MsgMap)
    requires GoCrypt.Invertible(env.aes)
    requires RequestPayload(crypt, env, httpMethod, body).Ok?
    ensures body.NilMap? && httpMethod != "GET" ==>
      GoCrypt.Decrypt(crypt, env.aes, RequestPayload(crypt, env, httpMethod, body).value) == Ok([])
    ensures body.MapOf? ==>
      env.marshal(body.entries).Some? &&
      GoCrypt.Decrypt(crypt, env.aes, RequestPayload(crypt, env, httpMethod, body).value) == Ok(env.marshal(body.entries).value)
  {
    if body.NilMap? && httpMethod != "GET" {
      GoCrypt.DecryptEncrypt(crypt, env.aes, []);
    } else if body.MapOf? {
      GoCrypt.DecryptEncrypt(crypt, env.aes, env.marshal(body.entries).value);
    }
  }

  /** The headers every API request also carries, always with these values. */
  const ConstantHeaders: seq<(string, string)> := [
    ("accept", OctetStream), ("content-type", OctetStream),
    ("x-ai", ""), ("x-ga", ""), ("x-ma", ""), ("x-if", ""),
    ("x-devicemodel", "iPad12,1"), ("x-operatingsystem", "iPadOS 17.0"), ("x-platform", "iOS"),
    ("user-agent", UserAgent), ("x-unity-version", "2022.3.21f1")
  ]

  /**
   * The headers `Request` adds: the constant ones, then those whose values vary, in the order
   * it adds them (on the wire: x-kc, x-app-hash, x-app-version, x-asset-version,
   * x-data-version, x-install-id, x-request-id, then x-session-token and cookie when present).
   * `RequestDeobfuscate` sends only the cookie.
   */
  datatype Headers =
    | ApiHeaders(constant: seq<(string, string)>, kc: string, appHash: string, appVersion: string, assetVersion: string, dataVersion: string,
                 installId: string, requestId: string, sessionToken: Option<string>, cookie: Option<string>)
    | CookieOnly(cookie: Option<string>)

  /** A header that is sent only when its value is non-empty. */
  function IfNonEmpty(value: string): (r: Option<string>)
    ensures r.Some? <==> value != ""
    ensures r.Some? ==> r.value == value
  {
    if value != "" then Some(value) else None
  }

  /**
   * The headers of an API request: the version headers read the `AppVersion` map ("" for a
   * missing key); the session token and the cookie are sent only when non-empty.
   */
  function RequestHeader(appVersion: map<string, string>, kc: string, installId: string,
                         sessionToken: string, cookie: string, requestId: string): (h: Headers)
    ensures h.ApiHeaders? && h.constant == ConstantHeaders
    ensures h.kc == kc && h.installId == installId && h.requestId == requestId
    ensures h.appHash == GetOr(appVersion, "appHash", "") && h.appVersion == GetOr(appVersion, "appVersion", "")
    ensures h.assetVersion == GetOr(appVersion, "assetVersion", "") && h.dataVersion == GetOr(appVersion, "dataVersion", "")
    ensures h.sessionToken.Some? <==> sessionToken != ""
    ensures h.cookie.Some? <==> cookie != ""
    ensures h.sessionToken.Some? ==> h.sessionToken.value == sessionToken
    ensures h.cookie.Some? ==> h.cookie.value == cookie
  {
    ApiHeaders(ConstantHeaders, kc, GetOr(appVersion, "appHash", ""), GetOr(appVersion, "appVersion", ""),
               GetOr(appVersion, "assetVersion", ""), GetOr(appVersion, "dataVersion", ""),
               installId, requestId, IfNonEmpty(sessionToken), IfNonEmpty(cookie))
  }

  // ---------------------------------------------------------------- reading the response

  /**
   * The status dispatch: 200 goes on; 403 is `TooManyRequests` when the body contains
   * "Request blocked." and `HTTPError` otherwise; 503 is `ServerMaintenance`; 429 is
   * `TooManyRequests`; every other code, 426 included, is `HTTPError`.
   */
  function StatusError(statusCode: int, body: seq<bv8>): (r: Option<RequestError>)
    ensures r.None? <==> statusCode == StatusOK
    ensures r == Some(TooManyRequests(statusCode)) <==>
      statusCode == StatusTooManyRequests || (statusCode == StatusForbidden && Contains(body, RequestBlocked))
    ensures r == Some(ServerMaintenance(statusCode)) <==> statusCode == StatusServiceUnavailable
    ensures r == Some(HTTPError(statusCode)) <==>
      statusCode !in {StatusOK, StatusTooManyRequests, StatusServiceUnavailable} &&
      !(statusCode == StatusForbidden && Contains(body, RequestBlocked))
  {
    if statusCode == StatusOK then None
    else if statusCode == StatusForbidden then
      if Contains(body, RequestBlocked) then Some(TooManyRequests(statusCode)) else Some(HTTPError(statusCode))
    else if statusCode == StatusUpgradeRequired then Some(HTTPError(statusCode))
    else if statusCode == StatusServiceUnavailable then Some(ServerMaintenance(statusCode))
    else if statusCode == StatusTooManyRequests then Some(TooManyRequests(statusCode))
    else Some(HTTPError(statusCode))
  }

  /** A response header value replaces the stored one only when it is non-empty. */
  function Refreshed(stored: string, received: string): (r: string)
    ensures r == stored || r == received
    ensures r != "" <==> stored != "" || received != ""
    ensures received != "" ==> r == received
  {
    if received != "" then received else stored
  }

  /** `body["updatedResources"].(m)`: nothing to merge when absent; a panic when it is not a map. */
  function UpdatedResources(decoded: MsgMap): (r: Result<map<string, Value>, RequestError>)
    ensures r.Err? <==> decoded.MapOf? && "updatedResources" in decoded.entries && !decoded.entries["updatedResources"].Map?
    ensures r.Ok? ==> r.value == (if Lookup(decoded, "updatedResources").Map? then Lookup(decoded, "updatedResources").entries else map[])
    ensures r.Err? ==> r.error == TypeAssertionFailure
  {
    if decoded.MapOf? && "updatedResources" in decoded.entries then
      match decoded.entries["updatedResources"]
      case Map(ur) => Ok(ur)
      case _ => Err(TypeAssertionFailure)
    else Ok(map[])
  }

  // ---------------------------------------------------------------- the request as a state transition

  /** The fields `Request` and `update` read or write. */
  datatype Session = Session(appVersion: map<string, string>, sessionToken: string, cookie: string, data: map<string, Value>)

  /**
   * What `Request` makes of a response it received: the result, and the state after it. The
   * token and the cookie are refreshed as soon as a 200 has arrived, so they stay refreshed even
   * when decrypting or decoding the body fails afterwards; `Data` changes only on success.
   */
  function ResponseOutcome(s: Session, crypt: GoCrypt.Crypt, env: Env, body: MsgMap, resp: HttpResponse): (Result<MsgMap, RequestError>, Session)
  {
    match StatusError(resp.statusCode, resp.body)
    case Some(e) => (Err(e), s)
    case None =>
      var refreshed := s.(sessionToken := Refreshed(s.sessionToken, HeaderGet(resp.header, "X-Session-Token")),
                          cookie := Refreshed(s.cookie, HeaderGet(resp.header, "Set-Cookie")));
      if HeaderGet(resp.header, "Content-Type") == JsonContentType then (Ok(env.jsonUnmarshal(resp.body)), refreshed)
      else
        match GoCrypt.Decrypt(crypt, env.aes, resp.body)
        case Err(e) => (Err(CryptFailure(e)), refreshed)
        case Ok(plain) =>
          if |plain| == 0 then (Ok(NilMap), refreshed)
          else
            match env.unmarshalInto(plain, body)
            case None => (Err(UnmarshalFailure), refreshed)
            case Some(decoded) =>
              match UpdatedResources(decoded)
              case Err(e) => (Err(e), refreshed)
              case Ok(ur) => (Ok(decoded), refreshed.(data := refreshed.data + ur))
  }

  /** The request `Request` sends from a state, when its payload could be built. */
  function SentRequest(s: Session, crypt: GoCrypt.Crypt, installId: string, kc: string,
                       httpMethod: string, url: string, body: MsgMap, requestId: string, env: Env): HttpRequest
    requires RequestPayload(crypt, env, httpMethod, body).Ok?
  {
    HttpRequest(httpMethod, url, RequestHeader(s.appVersion, kc, installId, s.sessionToken, s.cookie, requestId),
                RequestPayload(crypt, env, httpMethod, body).value)
  }

  /** `Request` as a function of the state before it: the result, and the state after it. */
  function RequestOutcome(s: Session, crypt: GoCrypt.Crypt, installId: string, kc: string,
                          httpMethod: string, url: string, body: MsgMap, requestId: string, env: Env): (Result<MsgMap, RequestError>, Session)
  {
    match RequestPayload(crypt, env, httpMethod, body)
    case Err(e) => (Err(e), s)
    case Ok(_) =>
      match env.transport(SentRequest(s, crypt, installId, kc, httpMethod, url, body, requestId, env))
      case None => (Err(TransportFailure), s)
      case Some(resp) => ResponseOutcome(s, crypt, env, body, resp)
  }

  /**
   * What `Request` does to the session token and the cookie: once a 200 has arrived each is
   * overwritten by the response header when that is non-empty and kept otherwise, whatever
   * happens to the body afterwards; any other status fails and changes nothing.
   * `AppVersion` never changes.
   */
  lemma ResponseRefreshesTokenAndCookie(s: Session, crypt: GoCrypt.Crypt, env: Env, body: MsgMap, resp: HttpResponse)
    ensures
      var (r, s') := ResponseOutcome(s, crypt, env, body, resp);
      && s'.appVersion == s.appVersion
      && (resp.statusCode == StatusOK ==>
            && s'.sessionToken == Refreshed(s.sessionToken, HeaderGet(resp.header, "X-Session-Token"))
            && s'.cookie == Refreshed(s.cookie, HeaderGet(resp.header, "Set-Cookie")))
      && (resp.statusCode != StatusOK ==> r == Err(StatusError(resp.statusCode, resp.body).value) && s' == s)
  {
  }

  /**
   * The next request carries what a 200 handed out: a non-empty `X-Session-Token` or
   * `Set-Cookie` header goes out unchanged on the following call, and a token or cookie once
   * held is never dropped.
   */
  lemma NextRequestCarriesRefreshed(s: Session, crypt: GoCrypt.Crypt, env: Env, body: MsgMap, resp: HttpResponse,
                                    kc: string, installId: string, requestId: string)
    requires resp.statusCode == StatusOK
    ensures
      var s' := ResponseOutcome(s, crypt, env, body, resp).1;
      var h := RequestHeader(s'.appVersion, kc, installId, s'.sessionToken, s'.cookie, requestId);
      && (HeaderGet(resp.header, "X-Session-Token") != "" ==> h.sessionToken == Some(HeaderGet(resp.header, "X-Session-Token")))
      && (HeaderGet(resp.header, "Set-Cookie") != "" ==> h.cookie == Some(HeaderGet(resp.header, "Set-Cookie")))
      && (s.sessionToken != "" ==> h.sessionToken.Some?)
      && (s.cookie != "" ==> h.cookie.Some?)
  {
    ResponseRefreshesTokenAndCookie(s, crypt, env, body, resp);
  }

  /**
   * What `Request` does to `Data`: after a successful non-JSON exchange each key of
   * `updatedResources` overwrites the same key and every other key keeps its value; a JSON
   * response and every failure leave `Data` unchanged.
   */
  lemma ResponseMergesUpdatedResources(s: Session, crypt: GoCrypt.Crypt, env: Env, body: MsgMap, resp: HttpResponse)
    ensures
      var (r, s') := ResponseOutcome(s, crypt, env, body, resp);
      var json := HeaderGet(resp.header, "Content-Type") == JsonContentType;
      && (r.Err? || json ==> s'.data == s.data)
      && (r.Ok? && !json ==>
            && UpdatedResources(r.value).Ok?
            && var ur := UpdatedResources(r.value).value;
            && s'.data.Keys == s.data.Keys + ur.Keys
            && (forall k :: k in ur ==> s'.data[k] == ur[k])
            && (forall k :: k in s.data && k !in ur ==> s'.data[k] == s.data[k]))
  {
    if resp.statusCode == StatusOK && HeaderGet(resp.header, "Content-Type") != JsonContentType {
      var plain := GoCrypt.Decrypt(crypt, env.aes, resp.body);
      if plain.Ok? && |plain.value| == 0 {
        assert UpdatedResources(NilMap) == Ok(map[]);
      } else if plain.Ok? {
        var decoded := env.unmarshalInto(plain.value, body);
        if decoded.Some? && UpdatedResources(decoded.value).Ok? {
          var ur := UpdatedResources(decoded.value).value;
          var s' := ResponseOutcome(s, crypt, env, body, resp).1;
          assert s'.data == s.data + ur;
        }
      }
    }
  }

  /**
   * `Request` fails without touching the state when it cannot build its payload or gets no
   * response; otherwise its outcome is what it makes of the response.
   */
  lemma RequestStages(s: Session, crypt: GoCrypt.Crypt, installId: string, kc: string,
                      httpMethod: string, url: string, body: MsgMap, requestId: string, env: Env)
    ensures
      var (r, s') := RequestOutcome(s, crypt, installId, kc, httpMethod, url, body, requestId, env);
      var payload := RequestPayload(crypt, env, httpMethod, body);
      && (payload.Err? ==> r == Err(payload.error) && s' == s)
      && (payload.Ok? ==>
            var resp := env.transport(SentRequest(s, crypt, installId, kc, httpMethod, url, body, requestId, env));
            && (resp.None? ==> r == Err(TransportFailure) && s' == s)
            && (resp.Some? ==> (r, s') == ResponseOutcome(s, crypt, env, body, resp.value)))
  {
  }

  /** A 200 with an empty non-JSON body panics in `decrypt` (the length check comes after it); the token and cookie are already refreshed. */
  lemma EmptyBodyPanics(s: Session, crypt: GoCrypt.Crypt, env: Env, body: MsgMap, resp: HttpResponse)
    requires GoCrypt.ValidKeyLength(|crypt.key|) && |crypt.iv| == GoCrypt.BlockSize
    requires resp.statusCode == StatusOK && resp.body == [] && HeaderGet(resp.header, "Content-Type") != JsonContentType
    ensures ResponseOutcome(s, crypt, env, body, resp).0 == Err(CryptFailure(GoCrypt.IndexOutOfRange))
  {
  }

  // ---------------------------------------------------------------- choosing the app version

  /** Which `appVersions` entries a scan accepts. */
  datatype Criterion = SameVersion(current: string) | AnyVersion

  /** An entry with status "available", and, for `SameVersion`, the given app version. */
  predicate Accepts(crit: Criterion, av: map<string, Value>)
  {
    && GetOr(av, "appVersionStatus", Nil) == Str("available")
    && (crit.SameVersion? ==> GetOr(av, "appVersion", Nil) == Str(crit.current))
  }

  /** Where a scan stopped: at an accepted entry, at the end, or at an entry that is not a map (the `.(m)` panic). */
  datatype ScanResult = Found(index: nat) | NotFound | NotAMap(index: nat)

  /** One of `update`'s loops, from position `from` on. */
  function Scan(items: seq<Value>, crit: Criterion, from: nat): (r: ScanResult)
    requires from <= |items|
    ensures r.Found? ==> from <= r.index < |items| && items[r.index].Map? && Accepts(crit, items[r.index].entries)
    ensures r.NotAMap? ==> from <= r.index < |items| && !items[r.index].Map?
    ensures r.Found? || r.NotAMap? ==>
      forall j :: from <= j < r.index ==> items[j].Map? && !Accepts(crit, items[j].entries)
    ensures r.NotFound? ==> forall j :: from <= j < |items| ==> items[j].Map? && !Accepts(crit, items[j].entries)
    decreases |items| - from
  {
    if from == |items| then NotFound
    else if !items[from].Map? then NotAMap(from)
    else if Accepts(crit, items[from].entries) then Found(from)
    else Scan(items, crit, from + 1)
  }

  /** `update`'s choice: the first available entry of the current version, else the first available entry. */
  function SelectEntry(items: seq<Value>, current: string): ScanResult
  {
    match Scan(items, SameVersion(current), 0)
    case NotFound => Scan(items, AnyVersion, 0)
    case r => r
  }

  /**
   * The entry `update` copies is the first available one of the current version; when there
   * is none it is the first available one; when nothing is available nothing is chosen. A
   * non-map entry met before a choice is made panics.
   */
  lemma SelectEntryIsFirst(items: seq<Value>, current: string)
    ensures match SelectEntry(items, current)
      case Found(i) =>
        i < |items| && items[i].Map? && Accepts(AnyVersion, items[i].entries) &&
        ((Accepts(SameVersion(current), items[i].entries) &&
          forall j :: 0 <= j < i ==> items[j].Map? && !Accepts(SameVersion(current), items[j].entries)) ||
         ((forall j :: 0 <= j < |items| ==> items[j].Map? && !Accepts(SameVersion(current), items[j].entries)) &&
          forall j :: 0 <= j < i ==> !Accepts(AnyVersion, items[j].entries)))
      case NotFound =>
        forall j :: 0 <= j < |items| ==> items[j].Map? && !Accepts(AnyVersion, items[j].entries)
      case NotAMap(i) =>
        i < |items| && !items[i].Map? &&
        forall j :: 0 <= j < i ==> items[j].Map? && !Accepts(SameVersion(current), items[j].entries)
  {
    var first := Scan(items, SameVersion(current), 0);
    if first.NotFound? {
      var second := Scan(items, AnyVersion, 0);
      if second.NotFound? {
        forall j | 0 <= j < |items| ensures items[j].Map? && !Accepts(AnyVersion, items[j].entries) {
          assert items[j].Map? && !Accepts(SameVersion(current), items[j].entries);
        }
      }
    }
  }

  function Entry(version: string, status: string, asset: string): Value
  {
    Map(map["appVersion" := Str(version), "appVersionStatus" := Str(status), "assetVersion" := Str(asset)])
  }

  /** With entries 4.1.0 not available, 4.1.0 available, 4.2.0 available and current 4.1.0, the second entry is chosen. */
  lemma SelectEntryExample()
    ensures SelectEntry([Entry("4.1.0", "not_available", "a"), Entry("4.1.0", "available", "b"),
                         Entry("4.2.0", "available", "c")], "4.1.0") == Found(1)
  {
    var items := [Entry("4.1.0", "not_available", "a"), Entry("4.1.0", "available", "b"), Entry("4.2.0", "available", "c")];
    assert !Accepts(SameVersion("4.1.0"), items[0].entries);
    assert Accepts(SameVersion("4.1.0"), items[1].entries);
  }

  /** `body["appVersions"].(l)`. */
  function AppVersionsOf(body: MsgMap): Option<seq<Value>>
  {
    match Lookup(body, "appVersions")
    case List(items) => Some(items)
    case _ => None
  }

  predicate AllStrings(av: map<string, Value>)
  {
    forall k :: k in av ==> av[k].Str?
  }

  function Strings(av: map<string, Value>): (r: map<string, string>)
    requires AllStrings(av)
    ensures r.Keys == av.Keys
    ensures forall k :: k in av ==> av[k] == Str(r[k])
  {
    map k | k in av :: av[k].s
  }

  /**
   * `for k, v := range av { AppVersion[k] = v.(string) }`: with only string values, every key
   * is copied; otherwise the copy panics part-way (in map order), leaving each key either as it
   * was or holding a string copied from the entry.
   */
  ghost predicate CopiedEntry(before: map<string, string>, after: map<string, string>, av: map<string, Value>, r: Result<(), RequestError>)
  {
    && (r.Ok? <==> AllStrings(av))
    && (r.Ok? ==> after == before + Strings(av))
    && (r.Err? ==>
          r.error == TypeAssertionFailure && before.Keys <= after.Keys && after.Keys <= before.Keys + av.Keys &&
          forall k :: k in after ==> (k in before && after[k] == before[k]) || (k in av && av[k] == Str(after[k])))
  }

  /** `update` after its request: what happens to `AppVersion` for a system-info body. */
  ghost predicate SystemInfoApplied(before: map<string, string>, after: map<string, string>, body: MsgMap, r: Result<(), RequestError>)
  {
    match AppVersionsOf(body)
    case None => r == Err(TypeAssertionFailure) && after == before
    case Some(items) =>
      match SelectEntry(items, GetOr(before, "appVersion", ""))
      case NotAMap(_) => r == Err(TypeAssertionFailure) && after == before
      case NotFound => r == Ok(()) && after == before
      case Found(i) => CopiedEntry(before, after, items[i].entries, r)
  }

  // ---------------------------------------------------------------- the client object

  class SekaiClient {
    var appVersion: map<string, string>
    const crypt: GoCrypt.Crypt
    var userId: Value
    var credential: string
    var sessionToken: string
    var data: map<string, Value>
    const installId: string
    const kc: string
    var cookie: string

    function State(): Session
      reads this
    {
      Session(appVersion, sessionToken, cookie, data)
    }

    /** The client as the service builds it: empty version map and data, no token, no cookie. */
    constructor (crypt: GoCrypt.Crypt, installId: string, kc: string)
      ensures State() == Session(map[], "", "", map[])
      ensures this.crypt == crypt && this.installId == installId && this.kc == kc
      ensures userId == Nil && credential == ""
    {
      this.appVersion := map[];
      this.crypt := crypt;
      this.userId := Nil;
      this.credential := "";
      this.sessionToken := "";
      this.data := map[];
      this.installId := installId;
      this.kc := kc;
      this.cookie := "";
    }

    /** `for k, v := range ur { client.Data[k] = v }`, in whatever order the map yields its keys. */
    method MergeUpdatedResources(ur: map<string, Value>)
      modifies this`data
      ensures data == old(data) + ur
    {
      var pending := ur.Keys;
      while pending != {}
        invariant pending <= ur.Keys
        invariant data == old(data) + map k | k in ur.Keys - pending :: ur[k]
        decreases pending
      {
        var k :| k in pending;
        data := data[k := ur[k]];
        pending := pending - {k};
      }
    }

    /** `SekaiClient.Request`. */
    method Request(httpMethod: string, url: string, body: MsgMap, requestId: string, env: Env) returns (r: Result<MsgMap, RequestError>)
      modifies this`sessionToken, this`cookie, this`data
      ensures (r, State()) == RequestOutcome(old(State()), crypt, installId, kc, httpMethod, url, body, requestId, env)
    {
      var payload := RequestPayload(crypt, env, httpMethod, body);
      if payload.Err? {
        return Err(payload.error);
      }
      var resp := env.transport(SentRequest(State(), crypt, installId, kc, httpMethod, url, body, requestId, env));
      if resp.None? {
        return Err(TransportFailure);
      }
      var status := StatusError(resp.value.statusCode, resp.value.body);
      if status.Some? {
        return Err(status.value);
      }
      var header := resp.value.header;
      var st := HeaderGet(header, "X-Session-Token");
      if st != "" {
        sessionToken := st;
      }
      var sck := HeaderGet(header, "Set-Cookie");
      if sck != "" {
        cookie := sck;
      }
      if HeaderGet(header, "Content-Type") == JsonContentType {
        return Ok(env.jsonUnmarshal(resp.value.body));
      }
      var plain := GoCrypt.Decrypt(crypt, env.aes, resp.value.body);
      if plain.Err? {
        return Err(CryptFailure(plain.error));
      }
      if |plain.value| == 0 {
        return Ok(NilMap);
      }
      var decoded := env.unmarshalInto(plain.value, body);
      if decoded.None? {
        return Err(UnmarshalFailure);
      }
      var ur := UpdatedResources(decoded.value);
      if ur.Err? {
        return Err(ur.error);
      }
      MergeUpdatedResources(ur.value);
      r := Ok(decoded.value);
    }

    /** `SekaiClient.RequestDeobfuscate`: an empty-bodied request carrying only the cookie, the same status dispatch, then `Deobfuscate`. */
    method RequestDeobfuscate(httpMethod: string, url: string, env: Env) returns (r: Result<array<bv8>, RequestError>)
      ensures match env.transport(HttpRequest(httpMethod, url, CookieOnly(IfNonEmpty(cookie)), []))
        case None => r == Err(TransportFailure)
        case Some(resp) =>
          match StatusError(resp.statusCode, resp.body)
          case Some(e) => r == Err(e)
          case None => r.Ok? && fresh(r.value) && r.value[..] == Deobfuscated(resp.body)
    {
      var resp := env.transport(HttpRequest(httpMethod, url, CookieOnly(IfNonEmpty(cookie)), []));
      if resp.None? {
        return Err(TransportFailure);
      }
      var status := StatusError(resp.value.statusCode, resp.value.body);
      if status.Some? {
        return Err(status.value);
      }
      var buffer := new bv8[|resp.value.body|](i requires 0 <= i < |resp.value.body| => resp.value.body[i]);
      var ret := Deobfuscate(buffer);
      r := Ok(ret);
    }

    /** `for k, v := range version { client.AppVersion[k] = v }`. */
    method MergeVersion(version: map<string, string>)
      modifies this`appVersion
      ensures appVersion == old(appVersion) + version
    {
      var pending := version.Keys;
      while pending != {}
        invariant pending <= version.Keys
        invariant appVersion == old(appVersion) + map k | k in version.Keys - pending :: version[k]
        decreases pending
      {
        var k :| k in pending;
        appVersion := appVersion[k := version[k]];
        pending := pending - {k};
      }
    }

    /** Copies every key of a chosen entry into `AppVersion`, asserting each value is a string. */
    method CopyEntry(av: map<string, Value>) returns (r: Result<(), RequestError>)
      modifies this`appVersion
      ensures CopiedEntry(old(appVersion), appVersion, av, r)
    {
      var pending := av.Keys;
      while pending != {}
        invariant pending <= av.Keys
        invariant forall k :: k in av.Keys - pending ==> av[k].Str?
        invariant appVersion == old(appVersion) + map k | k in av.Keys - pending :: av[k].s
        decreases pending
      {
        var k :| k in pending;
        if !av[k].Str? {
          return Err(TypeAssertionFailure);
        }
        appVersion := appVersion[k := av[k].s];
        pending := pending - {k};
      }
      assert av.Keys - pending == av.Keys;
      r := Ok(());
    }

    /** The two loops of `update` over a system-info body. */
    method ApplySystemInfo(body: MsgMap) returns (r: Result<(), RequestError>)
      modifies this`appVersion
      ensures SystemInfoApplied(old(appVersion), appVersion, body, r)
    {
      var versions := AppVersionsOf(body);
      if versions.None? {
        return Err(TypeAssertionFailure);
      }
      var items := versions.value;
      var current := GetOr(appVersion, "appVersion", "");
      var i := 0;
      while i < |items|
        invariant 0 <= i <= |items|
        invariant Scan(items, SameVersion(current), i) == Scan(items, SameVersion(current), 0)
      {
        if !items[i].Map? {
          return Err(TypeAssertionFailure);
        }
        var av := items[i].entries;
        if Accepts(SameVersion(GetOr(appVersion, "appVersion", "")), av) {
          r := CopyEntry(av);
          return;
        }
        i := i + 1;
      }
      i := 0;
      while i < |items|
        invariant 0 <= i <= |items|
        invariant Scan(items, AnyVersion, i) == Scan(items, AnyVersion, 0)
        invariant forall j :: 0 <= j < |items| ==> items[j].Map?
      {
        var av := items[i].entries;
        if Accepts(AnyVersion, av) {
          r := CopyEntry(av);
          return;
        }
        i := i + 1;
      }
      r := Ok(());
    }

    /**
     * `SekaiClient.update`: merge the published version map into `AppVersion`, fetch the
     * system information, and copy the chosen `appVersions` entry.
     */
    method Update(version: map<string, string>, requestId: string, env: Env) returns (r: Result<(), RequestError>)
      modifies this`appVersion, this`sessionToken, this`cookie, this`data
      ensures
        var merged := old(appVersion) + version;
        var (res, s) := RequestOutcome(old(State()).(appVersion := merged), crypt, installId, kc, "GET", SystemUrl, NilMap, requestId, env);
        && sessionToken == s.sessionToken && cookie == s.cookie && data == s.data
        && (res.Err? ==> r == Err(res.error) && appVersion == merged)
        && (res.Ok? ==> SystemInfoApplied(merged, appVersion, res.value, r))
    {
      MergeVersion(version);
      var body := Request("GET", SystemUrl, NilMap, requestId, env);
      if body.Err? {
        return Err(body.error);
      }
      r := ApplySystemInfo(body.value);
    }
  }
}
