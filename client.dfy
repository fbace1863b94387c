/**
 * The request pipeline of src/lib/api/client.js: the credential store, the
 * query builder, the response-body decoder and the request executor
 * `apiRequest`, with the network and `localStorage` replaced by explicit
 * state.
 */
module Client {
  import opened Wrappers
  import opened Js

  const ApiBaseUrl := "https://pay.gbsw.hs.kr:8443"
  const TokenStorageKey := "somapay:token"

  const NoTokenMessage := "인증 토큰이 없습니다. 다시 로그인해주세요."
  const NetworkMessage := "네트워크 오류가 발생했습니다. 잠시 후 다시 시도해주세요."
  const DefaultMessage := "요청 처리 중 문제가 발생했습니다."
  const TokenExpired := "TOKEN_EXPIRED"

  // ---------------------------------------------------------------------------
  // Credential store

  /** A token counts as present when it is a non-empty string (JavaScript truthiness). */
  predicate Present(t: Option<string>) {
    t.Some? && t.value != ""
  }

  /**
   * The store as a value: the in-memory cache, whether the host offers
   * durable storage, and what the durable slot under `TokenStorageKey` holds.
   */
  datatype TokenState = TokenState(memory: Option<string>, hasStorage: bool, slot: Option<string>)

  /** `readTokenFromStorage()`: the slot, or nothing when there is no storage. */
  function Durable(s: TokenState): Option<string> {
    if s.hasStorage then s.slot else None
  }

  /** What `getStoredToken()` returns: the cache when it holds a token, else the durable value. */
  function Lookup(s: TokenState): (r: Option<string>)
    ensures r == s.memory || r == Durable(s)
    ensures Present(s.memory) ==> r == s.memory
    ensures !Present(s.memory) ==> r == Durable(s)
    ensures !s.hasStorage ==> (Present(r) ==> r == s.memory)
  {
    if Present(s.memory) then s.memory else Durable(s)
  }

  /** The store after `getStoredToken()`: an empty cache is refilled from the slot. */
  function AfterGet(s: TokenState): (r: TokenState)
    ensures r.hasStorage == s.hasStorage && r.slot == s.slot
    ensures Lookup(r) == Lookup(s)
    ensures Present(s.memory) ==> r == s
    ensures !Present(s.memory) ==> r.memory == Durable(s)
  {
    if Present(s.memory) then s else s.(memory := Durable(s))
  }

  /** The store after `setStoredToken(t)`. */
  function AfterSet(s: TokenState, t: Option<string>): (r: TokenState)
    ensures r.hasStorage == s.hasStorage
    ensures r.memory == (if Present(t) then t else None)
    ensures s.hasStorage ==> r.slot == r.memory
    ensures !s.hasStorage ==> r.slot == s.slot
    ensures Lookup(r) == (if Present(t) then t else Durable(r))
  {
    var kept := if Present(t) then t else None;
    s.(memory := kept, slot := if s.hasStorage then kept else s.slot)
  }

  /** The store after `clearStoredToken()`. */
  function AfterClear(s: TokenState): (r: TokenState)
    ensures r.memory == None && Lookup(r) == Durable(r)
    ensures s.hasStorage ==> r.slot == None && Lookup(r) == None
  {
    AfterSet(s, None)
  }

  /** The module-level token cache together with the durable slot it falls back to. */
  class TokenStore {
    var memory: Option<string>
    const hasStorage: bool
    var slot: Option<string>

    function State(): TokenState
      reads this
    {
      TokenState(memory, hasStorage, slot)
    }

    /** The store at module load: the cache is `null`, the slot holds whatever an earlier session left. */
    constructor (hasStorage: bool, saved: Option<string>)
      ensures memory == None && this.hasStorage == hasStorage
      ensures slot == (if hasStorage then saved else None)
    {
      this.memory := None;
      this.hasStorage := hasStorage;
      this.slot := if hasStorage then saved else None;
    }

    /** `readTokenFromStorage()`. */
    method ReadFromStorage() returns (t: Option<string>)
      ensures t == Durable(State())
      ensures !hasStorage ==> t == None
    {
      if !hasStorage {
        return None;
      }
      t := slot;
    }

    /** `getStoredToken()`. */
    method Get() returns (t: Option<string>)
      modifies this`memory
      ensures t == Lookup(old(State()))
      ensures State() == AfterGet(old(State()))
    {
      if Present(memory) {
        return memory;
      }
      var stored := ReadFromStorage();
      memory := stored;
      t := stored;
    }

    /** `setStoredToken(t)`. */
    method Set(t: Option<string>)
      modifies this`memory, this`slot
      ensures State() == AfterSet(old(State()), t)
    {
      memory := if Present(t) then t else None;
      if !hasStorage {
        return;
      }
      if Present(t) {
        slot := t;
      } else {
        slot := None;
      }
    }

    /** `clearStoredToken()`. */
    method Clear()
      modifies this`memory, this`slot
      ensures State() == AfterClear(old(State()))
    {
      Set(None);
    }
  }

  /** After setting a non-empty token, reading gives it back and it is in the slot. */
  lemma SetThenGet(s: TokenState, t: Option<string>)
    requires Present(t)
    ensures Lookup(AfterSet(s, t)) == t
    ensures AfterGet(AfterSet(s, t)) == AfterSet(s, t)
    ensures s.hasStorage ==> AfterSet(s, t).slot == t
  {
  }

  /** Setting an empty or absent token is clearing: the cache is emptied and the slot removed. */
  lemma SetEmptyIsClear(s: TokenState, t: Option<string>)
    requires !Present(t)
    ensures AfterSet(s, t) == AfterClear(s)
    ensures AfterClear(s).memory == None
    ensures s.hasStorage ==> AfterClear(s).slot == None
    ensures Lookup(AfterClear(s)) == None
  {
  }

  /** Clearing twice is clearing once. */
  lemma ClearIdempotent(s: TokenState)
    ensures AfterClear(AfterClear(s)) == AfterClear(s)
  {
  }

  /**
   * With an empty cache a read returns the slot (nothing without storage) and
   * caches it; the slot is never touched by a read, and a second read returns
   * the same value and leaves the store as the first one did.
   */
  lemma GetCachesSlot(s: TokenState)
    ensures !Present(s.memory) ==> Lookup(s) == Durable(s) && AfterGet(s).memory == Durable(s)
    ensures !s.hasStorage && !Present(s.memory) ==> Lookup(s) == None
    ensures AfterGet(s).slot == s.slot
    ensures Lookup(AfterGet(s)) == Lookup(s)
    ensures AfterGet(AfterGet(s)) == AfterGet(s)
  {
  }

  /**
   * A token survives a page reload (a fresh cache over the same slot) exactly
   * when durable storage exists.
   */
  lemma TokenSurvivesReload(s: TokenState, t: Option<string>)
    requires Present(t)
    ensures Lookup(AfterSet(s, t).(memory := None)) == (if s.hasStorage then t else None)
  {
  }

  // ---------------------------------------------------------------------------
  // URL builder

  /** An address: the fixed origin, the path resolved against it, and the query entries in order. */
  datatype Url = Url(origin: string, path: string, query: seq<(string, JsValue)>)

  /** The strict filter of `buildUrl`: not `undefined`, not `null`, not `''`. */
  predicate Kept(v: JsValue)
    ensures Kept(v) ==> !Nullish(v)
    ensures Truthy(v) ==> Kept(v)
  {
    v != Undefined && v != Null && v != Str("")
  }

  /** The filter keeps exactly the falsy values `0` and `false` besides the truthy ones. */
  lemma KeptVersusTruthy(v: JsValue)
    ensures Kept(v) <==> Truthy(v) || v == Num(0) || v == Bool(false)
  {
  }

  /** The entries of `params` that reach the query string, in their original order. */
  function KeptParams(entries: seq<(string, JsValue)>): (r: seq<(string, JsValue)>)
    ensures |r| <= |entries|
    ensures forall e :: e in r <==> e in entries && Kept(e.1)
  {
    if entries == [] then []
    else (if Kept(entries[0].1) then [entries[0]] else []) + KeptParams(entries[1..])
  }

  /** Filtering distributes over concatenation, so the query keeps the entries' relative order. */
  lemma {:induction false} KeptParamsAppend(a: seq<(string, JsValue)>, b: seq<(string, JsValue)>)
    ensures KeptParams(a + b) == KeptParams(a) + KeptParams(b)
  {
    if a == [] {
      assert a + b == b;
    } else {
      assert (a + b)[1..] == a[1..] + b;
      KeptParamsAppend(a[1..], b);
    }
  }

  /** When every value is kept the query is the parameter list unchanged. */
  lemma {:induction false} KeptParamsAllKept(entries: seq<(string, JsValue)>)
    requires forall i :: 0 <= i < |entries| ==> Kept(entries[i].1)
    ensures KeptParams(entries) == entries
  {
    if entries != [] {
      KeptParamsAllKept(entries[1..]);
    }
  }

  /** `{ page: 0 }` reaches the server as `page=0`. */
  lemma ZeroPageSurvives()
    ensures KeptParams([("page", Num(0))]) == [("page", Num(0))]
  {
    KeptParamsAllKept([("page", Num(0))]);
  }

  /** The query for an optional parameter list (`null`/`undefined` gives none). */
  function QueryOf(params: Option<seq<(string, JsValue)>>): seq<(string, JsValue)> {
    if params.Some? then KeptParams(params.value) else []
  }

  /**
   * `buildUrl(path, params)`: entries appended one by one to the query.
   * `params` is given as `Object.entries(params)`, in that order.
   */
  method BuildUrl(path: string, params: Option<seq<(string, JsValue)>>) returns (url: Url)
    ensures url.origin == ApiBaseUrl && url.path == path
    ensures params.None? ==> url.query == []
    ensures params.Some? ==> url.query == KeptParams(params.value)
    ensures params.Some? ==> forall e :: e in url.query <==> e in params.value && Kept(e.1)
  {
    var query: seq<(string, JsValue)> := [];
    if params.Some? {
      var entries := params.value;
      var i := 0;
      while i < |entries|
        invariant 0 <= i <= |entries|
        invariant query == KeptParams(entries[..i])
      {
        var e := entries[i];
        if Kept(e.1) {
          query := query + [e];
        }
        KeptParamsAppend(entries[..i], [e]);
        assert entries[..i + 1] == entries[..i] + [e];
        i := i + 1;
      }
      assert entries[..|entries|] == entries;
    }
    url := Url(ApiBaseUrl, path, query);
  }

  // ---------------------------------------------------------------------------
  // Response decoder

  /** `parseResponseBody`: the decoded body, given the text the response carried. */
  function ParseBody(text: string, parse: string -> Option<JsValue>): (r: JsValue)
    ensures text == "" ==> r == Null
    ensures text != "" && parse(text).Some? ==> r == parse(text).value
    ensures text != "" && parse(text).None? ==> r == Str(text)
  {
    if text == "" then Null
    else match parse(text)
      case Some(v) => v
      case None => Str(text)
  }

  /** A body the server serialised is decoded back to the value it serialised. */
  lemma ParseBodyRoundTrip(codec: JsonCodec, v: JsValue)
    requires RoundTrips(codec) && JsonValue(v)
    requires codec.stringify(v) != ""
    ensures ParseBody(codec.stringify(v), codec.parse) == v
  {
    assert JsonValue(v) ==> codec.parse(codec.stringify(v)) == Some(v);
  }

  // ---------------------------------------------------------------------------
  // Request executor

  /** An error as thrown by `apiRequest`; a missing `status`, `code` or `payload` reads as `undefined`. */
  datatype ApiError =
    | ApiError(message: JsValue, status: Option<int>, code: Option<string>, payload: JsValue)
      /** The exception `response.text()` throws when the body cannot be read, propagated unchanged. */
    | BodyReadFailure

  function NoTokenError(): ApiError {
    ApiError(Str(NoTokenMessage), None, None, Undefined)
  }

  function NetworkError(): ApiError {
    ApiError(Str(NetworkMessage), None, None, Undefined)
  }

  /** The first truthy candidate, or `default` when none is. */
  function FirstTruthy(candidates: seq<JsValue>, default: JsValue): JsValue {
    if candidates == [] then default
    else if Truthy(candidates[0]) then candidates[0]
    else FirstTruthy(candidates[1..], default)
  }

  /**
   * Where an error message may come from, in priority order: the body's
   * `message`, `error` and `details` fields, then the body itself if it is a string.
   */
  function MessageCandidates(parsed: JsValue): seq<JsValue> {
    (if Truthy(parsed) then [Get(parsed, "message"), Get(parsed, "error"), Get(parsed, "details")] else [])
    + (if parsed.Str? then [parsed] else [])
  }

  /** The message of a non-ok response with decoded body `parsed`. */
  function ErrorMessage(parsed: JsValue): (m: JsValue)
    ensures Truthy(m)
    ensures parsed.Str? && parsed.s != "" ==> m == parsed
    ensures !Truthy(parsed) ==> m == Str(DefaultMessage)
  {
    var fromFields := if Truthy(parsed) then Or(Or(Get(parsed, "message"), Get(parsed, "error")), Get(parsed, "details")) else parsed;
    var fromText := if parsed.Str? then parsed else Bool(false);
    Or(Or(fromFields, fromText), Str(DefaultMessage))
  }

  /** `FirstTruthy` over a list is `||` folded from the right. */
  lemma {:induction false} FirstTruthyCons(c: JsValue, rest: seq<JsValue>, default: JsValue)
    ensures FirstTruthy([c] + rest, default) == Or(c, FirstTruthy(rest, default))
  {
    assert ([c] + rest)[1..] == rest;
  }

  /** The message is the first truthy of the candidate sources in priority order, else the default text. */
  lemma ErrorMessagePriority(parsed: JsValue)
    ensures ErrorMessage(parsed) == FirstTruthy(MessageCandidates(parsed), Str(DefaultMessage))
  {
    var d := Str(DefaultMessage);
    var text := if parsed.Str? then [parsed] else [];
    if parsed.Str? {
      FirstTruthyCons(parsed, [], d);
    }
    if Truthy(parsed) {
      var msg, err, det := Get(parsed, "message"), Get(parsed, "error"), Get(parsed, "details");
      assert MessageCandidates(parsed) == [msg] + ([err] + ([det] + text));
      FirstTruthyCons(det, text, d);
      FirstTruthyCons(err, [det] + text, d);
      FirstTruthyCons(msg, [err] + ([det] + text), d);
    } else {
      assert MessageCandidates(parsed) == text;
    }
  }

  /** A plain-text error body that is not JSON becomes the error message verbatim. */
  lemma UnparsableBodyIsMessage(text: string, parse: string -> Option<JsValue>)
    requires text != "" && parse(text).None?
    ensures ErrorMessage(ParseBody(text, parse)) == Str(text)
  {
  }

  /** The options object of `apiRequest`; None stands for a property left out. */
  datatype RequestOptions = RequestOptions(
    verb: Option<string>,
    data: JsValue,
    params: Option<seq<(string, JsValue)>>,
    headers: map<string, string>,
    auth: Option<bool>,
    token: Option<string>)

  function MethodOf(o: RequestOptions): string {
    o.verb.GetOr("GET")
  }

  function AuthOf(o: RequestOptions): bool {
    o.auth.GetOr(true)
  }

  /** What a request puts on the wire. */
  datatype HttpRequest = HttpRequest(verb: string, url: Url, headers: map<string, string>, body: Option<string>)

  /**
   * What the transport comes back with: a thrown `fetch` (no response, or an
   * abort before the headers arrive), a response whose body reads as `text`,
   * or a response whose body fails to read (an abort or a lost connection
   * after the headers arrived).
   */
  datatype Outcome = NetFail | Response(status: int, text: string) | BodyFail(status: int)

  predicate IsOk(status: int) {
    200 <= status <= 299
  }

  /** An authenticated call answered 401: its token is rejected. */
  predicate Rejected(o: RequestOptions, reply: Outcome) {
    AuthOf(o) && reply.Response? && reply.status == 401
  }

  /** The token an authenticated request presents: the forced one if present, else the stored one. */
  function ResolvedToken(forced: Option<string>, s: TokenState): (r: Option<string>)
    ensures Present(forced) ==> r == forced
    ensures !Present(forced) ==> r == Lookup(s)
    ensures Present(r) <==> Present(forced) || Present(Lookup(s))
  {
    if Present(forced) then forced else Lookup(s)
  }

  /** An authenticated request for which no token resolves; it fails before any transport call. */
  predicate MissingToken(o: RequestOptions, s: TokenState) {
    AuthOf(o) && !Present(ResolvedToken(o.token, s))
  }

  /** The store once the token is resolved: only a read of the store refills its cache. */
  function AfterResolve(o: RequestOptions, s: TokenState): (r: TokenState)
    ensures r.hasStorage == s.hasStorage && r.slot == s.slot
    ensures Lookup(r) == Lookup(s)
    ensures !AuthOf(o) || Present(o.token) ==> r == s
  {
    if AuthOf(o) && !Present(o.token) then AfterGet(s) else s
  }

  /** `requestHeaders`: the caller's headers, then `Authorization`, then `Content-Type`. */
  function RequestHeaders(base: map<string, string>, authorization: Option<string>, data: JsValue): (h: map<string, string>)
    ensures authorization.Some? ==> "Authorization" in h && h["Authorization"] == authorization.value
    ensures data != Undefined ==> "Content-Type" in h && h["Content-Type"] == "application/json"
    ensures authorization.None? ==> ("Authorization" in h <==> "Authorization" in base)
    ensures data == Undefined ==> ("Content-Type" in h <==> "Content-Type" in base)
    ensures forall k :: k in base && k != "Authorization" && k != "Content-Type" ==> k in h && h[k] == base[k]
    ensures authorization.None? && "Authorization" in base ==> h["Authorization"] == base["Authorization"]
    ensures data == Undefined && "Content-Type" in base ==> h["Content-Type"] == base["Content-Type"]
    ensures forall k :: k in h ==> k in base || k == "Authorization" || k == "Content-Type"
  {
    var withAuth := if authorization.Some? then base["Authorization" := authorization.value] else base;
    if data != Undefined then withAuth["Content-Type" := "application/json"] else withAuth
  }

  /** The request `apiRequest` hands to `fetch` when its token check passes. */
  function Outgoing(path: string, o: RequestOptions, s: TokenState, codec: JsonCodec): (req: HttpRequest)
    ensures req.verb == MethodOf(o)
    ensures req.url == Url(ApiBaseUrl, path, QueryOf(o.params))
    ensures AuthOf(o) && !MissingToken(o, s) ==>
      "Authorization" in req.headers && req.headers["Authorization"] == ResolvedToken(o.token, s).value
    ensures !AuthOf(o) ==> ("Authorization" in req.headers <==> "Authorization" in o.headers)
    ensures req.body.Some? <==> o.data != Undefined
    ensures o.data != Undefined ==>
      req.body == Some(codec.stringify(o.data)) && "Content-Type" in req.headers && req.headers["Content-Type"] == "application/json"
  {
    var authorization := if AuthOf(o) then ResolvedToken(o.token, s) else None;
    HttpRequest(MethodOf(o), Url(ApiBaseUrl, path, QueryOf(o.params)),
                RequestHeaders(o.headers, authorization, o.data),
                if o.data != Undefined then Some(codec.stringify(o.data)) else None)
  }

  /** A `fetch` stand-in: it records every request and answers with `reply`. */
  class Transport {
    var reply: Outcome
    var sent: seq<HttpRequest>

    constructor (reply: Outcome)
      ensures this.reply == reply && sent == []
    {
      this.reply := reply;
      this.sent := [];
    }

    method Fetch(req: HttpRequest) returns (o: Outcome)
      modifies this`sent
      ensures sent == old(sent) + [req]
      ensures o == reply
    {
      sent := sent + [req];
      o := reply;
    }
  }

  /** `apiRequest(path, options)`. */
  method ApiRequest(store: TokenStore, net: Transport, codec: JsonCodec, path: string, o: RequestOptions)
    returns (r: Result<JsValue, ApiError>)
    modifies store`memory, store`slot, net`sent
    // no token for an authenticated call: the "no token" error, and fetch is never called
    ensures MissingToken(o, old(store.State())) ==> r == Err(NoTokenError()) && net.sent == old(net.sent)
    // otherwise exactly one request goes out, with the resolved token and the body
    ensures !MissingToken(o, old(store.State())) ==>
      net.sent == old(net.sent) + [Outgoing(path, o, old(store.State()), codec)]
    // a thrown fetch becomes the network error, without a status
    ensures !MissingToken(o, old(store.State())) && old(net.reply).NetFail? ==> r == Err(NetworkError())
    // 204: null, whatever the body, before the body is read
    ensures !MissingToken(o, old(store.State())) && !old(net.reply).NetFail? && old(net.reply).status == 204 ==>
      r == Ok(Null)
    // any other status whose body cannot be read: the raw exception, not the network error
    ensures !MissingToken(o, old(store.State())) && old(net.reply).BodyFail? && old(net.reply).status != 204 ==>
      r == Err(BodyReadFailure)
    // any other ok status: the decoded body
    ensures !MissingToken(o, old(store.State())) && old(net.reply).Response? ==>
      (old(net.reply).status != 204 && IsOk(old(net.reply).status) ==> r == Ok(ParseBody(old(net.reply).text, codec.parse)))
    // a failed status: an error carrying status, payload, message, and TOKEN_EXPIRED exactly on 401
    ensures !MissingToken(o, old(store.State())) && old(net.reply).Response? && !IsOk(old(net.reply).status) ==>
      var parsed := ParseBody(old(net.reply).text, codec.parse);
      && r.Err? && r.error.ApiError?
      && r.error.status == Some(old(net.reply).status)
      && r.error.payload == parsed
      && r.error.message == ErrorMessage(parsed)
      && (r.error.code == Some(TokenExpired) <==> old(net.reply).status == 401)
      && (old(net.reply).status != 401 ==> r.error.code == None)
    // the token is cleared exactly when an authenticated call is answered 401
    ensures store.State() ==
      if !MissingToken(o, old(store.State())) && Rejected(o, old(net.reply))
      then AfterClear(AfterResolve(o, old(store.State())))
      else AfterResolve(o, old(store.State()))
  {
    ghost var s0 := store.State();
    var url := BuildUrl(path, o.params);
    var requestHeaders := o.headers;
    var auth := AuthOf(o);

    if auth {
      var resolvedToken: Option<string>;
      if Present(o.token) {
        resolvedToken := o.token;
      } else {
        resolvedToken := store.Get();
      }
      if !Present(resolvedToken) {
        return Err(NoTokenError());
      }
      requestHeaders := requestHeaders["Authorization" := resolvedToken.value];
    }

    var body: Option<string> := None;
    if o.data != Undefined {
      requestHeaders := requestHeaders["Content-Type" := "application/json"];
      body := Some(codec.stringify(o.data));
    }

    var response := net.Fetch(HttpRequest(MethodOf(o), url, requestHeaders, body));
    if response.NetFail? {
      return Err(NetworkError());
    }

    if response.status == 204 {
      return Ok(Null);
    }

    if response.BodyFail? {
      return Err(BodyReadFailure);
    }

    var parsed := ParseBody(response.text, codec.parse);
    if !IsOk(response.status) {
      if response.status == 401 && auth {
        store.Clear();
      }
      var message := ErrorMessage(parsed);
      var code := if response.status == 401 then Some(TokenExpired) else None;
      return Err(ApiError(message, Some(response.status), code, parsed));
    }

    return Ok(parsed);
  }

  /**
   * A token rejected with 401 is never presented again: the next
   * authenticated call without a forced token fails before reaching the network.
   */
  lemma RejectedTokenNotReused(o: RequestOptions, s: TokenState)
    requires AuthOf(o) && !Present(o.token)
    ensures MissingToken(o, AfterClear(s))
  {
  }

  /** The forced token wins over the stored one and leaves the store unread. */
  lemma ForcedTokenPrecedence(o: RequestOptions, s: TokenState)
    requires AuthOf(o)
    ensures Present(o.token) ==> ResolvedToken(o.token, s) == o.token && AfterResolve(o, s) == s
    ensures !Present(o.token) ==> ResolvedToken(o.token, s) == Lookup(s) && AfterResolve(o, s) == AfterGet(s)
    ensures MissingToken(o, s) <==> !Present(o.token) && !Present(Lookup(s))
  {
  }
}
