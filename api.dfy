/** The client's access layer to the prediction service: the session token
    and its durable copy, the request each operation sends, and the rule that
    turns every response into exactly one outcome. */
module Api {
  import opened Js
  import opened Types

  /** The one durable storage key, holding the bearer token. */
  const TokenKey: string := "access_token"
  const SessionExpired: string := "Session expired"
  const LoginHash: string := "#/login"
  /** Non-JSON error bodies this long or longer are replaced by a generic message. */
  const MaxShownText: nat := 100

  // ---------------------------------------------------------------------------
  // Responses and their outcomes

  /** What `fetch` resolves to, as far as the client reads it: the status and
      its text, the `content-type` header (`None` when absent), the body as
      text and, where that text is JSON, its parsed value. */
  datatype Response = Response(
    status: nat,
    statusText: string,
    contentType: Option<string>,
    text: string,
    json: Option<Json>)

  /** The result of sending a request: the network failed (fetch rejects), or a response came back. */
  datatype Exchange = Unreachable | Received(response: Response)

  /** Errors raised by the JavaScript engine rather than by the client's own `throw`. */
  datatype EngineErrorKind =
    | JsonSyntax        // `response.json()` on a body that is not JSON
    | NullPropertyRead  // reading `.detail` or `.msg` of null
    | NetworkFailure    // `fetch` itself rejects

  /** What a failed call throws. */
  datatype Failure = Raised(message: string) | Engine(kind: EngineErrorKind)

  /** `err.message`. The engine's wording is not modelled: an engine error
      carries the name of its kind, which is never empty. */
  function MessageOf(f: Failure): (m: string)
    ensures f.Raised? ==> m == f.message
    ensures f.Engine? ==> m != ""
  {
    match f
    case Raised(m) => m
    case Engine(JsonSyntax) => "SyntaxError"
    case Engine(NullPropertyRead) => "TypeError"
    case Engine(NetworkFailure) => "TypeError: Failed to fetch"
  }

  /** The typed result a page receives from one call. */
  datatype Result<+T> = Ok(value: T) | Err(failure: Failure)

  /** What a call resolves with (the decoded body) or throws. */
  datatype Outcome = Returned(value: Json) | Thrown(failure: Failure)

  /** `response.ok`. */
  predicate IsOk(status: nat) { 200 <= status <= 299 }

  /** `contentType && contentType.indexOf("application/json") !== -1`. */
  function IsJsonType(contentType: Option<string>): (b: bool)
    ensures b <==> contentType.Some? && Contains(contentType.value, "application/json")
  {
    contentType.Some? && ScanFor(contentType.value, "application/json")
  }

  /** `e.msg` texts of a `detail` list, as `map(e => e.msg)` yields them and
      `join` writes them; `None` when an element is null (reading its `msg` throws). */
  function MsgTexts(items: seq<Json>): (r: Option<seq<string>>)
    ensures r.Some? <==> forall i :: 0 <= i < |items| ==> items[i] != JNull
    ensures r.Some? ==> |r.value| == |items|
    ensures r.Some? ==> forall i :: 0 <= i < |items| ==> r.value[i] == ElementText(Property(items[i], "msg"))
  {
    if |items| == 0 then Some([])
    else if items[0] == JNull then None
    else
      match MsgTexts(items[1..])
      case None => None
      case Some(rest) => Some([ElementText(Property(items[0], "msg"))] + rest)
  }

  /** The message of a not-ok JSON response whose body is `data`. */
  function DetailFailure(status: nat, statusText: string, data: Json): (f: Failure)
    ensures data == JNull ==> f == Engine(NullPropertyRead)
  {
    if data == JNull then Engine(NullPropertyRead)
    else
      var detail := Property(data, "detail");
      if detail.Some? && detail.value.JArr? then
        match MsgTexts(detail.value.items)
        case None => Engine(NullPropertyRead)
        case Some(texts) => Raised(Join(texts, ", "))
      else if Truthy(detail) then Raised(ToText(detail.value))
      else Raised("Error " + IntText(status) + ": " + statusText)
  }

  /** The message of a not-ok response that is not JSON. */
  function TextFailure(status: nat, text: string): (m: string)
    ensures |text| < MaxShownText ==> m == text
    ensures |text| >= MaxShownText ==> m == "Request failed with status " + IntText(status)
  {
    if |text| < MaxShownText then text else "Request failed with status " + IntText(status)
  }

  /** The outcome of a response, decided in a fixed order: 401 first,
      then JSON or not, then ok or not. */
  function Normalise(r: Response): (o: Outcome)
    ensures r.status == 401 ==> o == Thrown(Raised(SessionExpired))
    ensures o.Returned? <==> r.status != 401 && IsOk(r.status) && (IsJsonType(r.contentType) ==> r.json.Some?)
    ensures o.Returned? && IsJsonType(r.contentType) ==> o.value == r.json.value
    ensures o.Returned? && !IsJsonType(r.contentType) ==> o.value == JObj([])
    ensures r.status != 401 && IsJsonType(r.contentType) && r.json.None? ==> o == Thrown(Engine(JsonSyntax))
  {
    if r.status == 401 then Thrown(Raised(SessionExpired))
    else if IsJsonType(r.contentType) then
      match r.json
      case None => Thrown(Engine(JsonSyntax))
      case Some(data) =>
        if IsOk(r.status) then Returned(data)
        else Thrown(DetailFailure(r.status, r.statusText, data))
    else if !IsOk(r.status) then Thrown(Raised(TextFailure(r.status, r.text)))
    else Returned(JObj([]))
  }

  /** The outcome of a call: a network failure rejects, a response is normalised. */
  function Settle(reply: Exchange): (o: Outcome)
    ensures reply.Unreachable? ==> o == Thrown(Engine(NetworkFailure))
    ensures reply.Received? ==> o == Normalise(reply.response)
  {
    match reply
    case Unreachable => Thrown(Engine(NetworkFailure))
    case Received(r) => Normalise(r)
  }

  // ---------------------------------------------------------------------------
  // The error taxonomy the normaliser implements, stated on its own

  datatype ResponseKind =
    | SessionExpiredKind   // status 401
    | DecodedSuccess       // ok, JSON
    | DecodedFailure       // not ok, JSON
    | TextFailureKind      // not ok, not JSON
    | EmptySuccess         // ok, not JSON

  function KindOf(r: Response): ResponseKind
  {
    if r.status == 401 then SessionExpiredKind
    else match (IsJsonType(r.contentType), IsOk(r.status))
      case (true, true) => DecodedSuccess
      case (true, false) => DecodedFailure
      case (false, false) => TextFailureKind
      case (false, true) => EmptySuccess
  }

  /** Each kind of response has its outcome, whatever the other fields hold. */
  lemma NormaliseByKind(r: Response)
    ensures KindOf(r) == SessionExpiredKind ==> Normalise(r) == Thrown(Raised(SessionExpired))
    ensures KindOf(r) == DecodedSuccess ==>
      Normalise(r) == if r.json.Some? then Returned(r.json.value) else Thrown(Engine(JsonSyntax))
    ensures KindOf(r) == DecodedFailure ==>
      Normalise(r) == if r.json.Some? then Thrown(DetailFailure(r.status, r.statusText, r.json.value))
                      else Thrown(Engine(JsonSyntax))
    ensures KindOf(r) == TextFailureKind ==> Normalise(r) == Thrown(Raised(TextFailure(r.status, r.text)))
    ensures KindOf(r) == EmptySuccess ==> Normalise(r) == Returned(JObj([]))
  {
  }

  /** A `detail` list of validation errors gives their `msg` texts joined by ", ", in order. */
  lemma {:induction false} ValidationMessage(status: nat, statusText: string, data: Json, msgs: seq<string>)
    requires data.JObj? && Property(data, "detail").Some? && Property(data, "detail").value.JArr?
    requires var items := Property(data, "detail").value.items;
      |items| == |msgs| && forall i :: 0 <= i < |items| ==> items[i].JObj? && Property(items[i], "msg") == Some(JStr(msgs[i]))
    ensures DetailFailure(status, statusText, data) == Raised(Join(msgs, ", "))
  {
    var items := Property(data, "detail").value.items;
    var texts := MsgTexts(items);
    assert texts.Some?;
    assert texts.value == msgs;
  }

  /** The two-element example: `detail: [{msg:"a"},{msg:"b"}]` reads "a, b". */
  lemma ValidationExample(status: nat, statusText: string)
    ensures DetailFailure(status, statusText,
      JObj([("detail", JArr([JObj([("msg", JStr("a"))]), JObj([("msg", JStr("b"))])]))])) == Raised("a, b")
  {
    var data := JObj([("detail", JArr([JObj([("msg", JStr("a"))]), JObj([("msg", JStr("b"))])]))]);
    ValidationMessage(status, statusText, data, ["a", "b"]);
  }

  /** A non-empty string `detail` is the message as it stands. */
  lemma StringDetailMessage(status: nat, statusText: string, data: Json, detail: string)
    requires data.JObj? && Property(data, "detail") == Some(JStr(detail)) && detail != ""
    ensures DetailFailure(status, statusText, data) == Raised(detail)
  {
  }

  /** Without a usable `detail` the message is synthesised from the status. */
  lemma SynthesisedMessage(status: nat, statusText: string, data: Json)
    requires data.JObj? && !Truthy(Property(data, "detail"))
    ensures DetailFailure(status, statusText, data) == Raised("Error " + IntText(status) + ": " + statusText)
  {
  }

  // ---------------------------------------------------------------------------
  // Requests

  datatype Body = NoBody | JsonBody(value: Json) | FormBody(fields: seq<(string, string)>)

  /** One request as the transport sends it; paths are relative to the service's base URL. */
  datatype Request = Request(verb: string, path: string, headers: map<string, string>, body: Body)

  /** The body of the token request: the password grant. */
  function LoginForm(username: string, password: string): seq<(string, string)>
  {
    [("username", username), ("password", password), ("grant_type", "password")]
  }

  /** The token request: a form with exactly the password grant's three fields, and no credential. */
  function TokenRequest(username: string, password: string): (req: Request)
    ensures req.verb == "POST" && req.path == "/auth/token"
    ensures req.body.FormBody? && req.body.fields == [("username", username), ("password", password), ("grant_type", "password")]
    ensures req.headers == map["Content-Type" := "application/x-www-form-urlencoded"]
    ensures "Authorization" !in req.headers
  {
    Request("POST", "/auth/token", map["Content-Type" := "application/x-www-form-urlencoded"],
      FormBody(LoginForm(username, password)))
  }

  /** The registration request: JSON, and no credential whatever token is held. */
  function RegisterRequest(email: string, password: string, fullName: string): (req: Request)
    ensures req.verb == "POST" && req.path == "/auth/register"
    ensures req.body == JsonBody(JObj([("email", JStr(email)), ("password", JStr(password)), ("full_name", JStr(fullName))]))
    ensures Property(req.body.value, "email") == Some(JStr(email))
    ensures req.headers == map["Content-Type" := "application/json"]
    ensures "Authorization" !in req.headers
  {
    Request("POST", "/auth/register", map["Content-Type" := "application/json"],
      JsonBody(JObj([("email", JStr(email)), ("password", JStr(password)), ("full_name", JStr(fullName))])))
  }

  /** `JSON.stringify(defaults)`: absent values are left out. */
  function DefaultsJson(d: PersonalDefaults): (j: Json)
    ensures j.JObj? && forall i :: 0 <= i < |j.fields| ==> j.fields[i].0 == "age" || j.fields[i].0 == "high_blood_pressure"
    ensures Property(j, "age").Some? <==> d.age.Some?
    ensures d.age.Some? ==> Property(j, "age") == Some(JNum(d.age.value))
    ensures Property(j, "high_blood_pressure").Some? <==> d.highBloodPressure.Some?
    ensures d.highBloodPressure.Some? ==> Property(j, "high_blood_pressure") == Some(JNum(d.highBloodPressure.value))
  {
    assert "age"[0] != "high_blood_pressure"[0];
    var fields := (if d.age.Some? then [("age", JNum(d.age.value))] else [])
      + (if d.highBloodPressure.Some? then [("high_blood_pressure", JNum(d.highBloodPressure.value))] else []);
    assert d.highBloodPressure.Some? ==> fields[|fields| - 1].0 == "high_blood_pressure";
    JObj(fields)
  }

  /** `JSON.stringify(data)` for an object of numbers, in property order. */
  function EntriesJson(e: Entries): (j: Json)
    ensures j.JObj? && |j.fields| == |e|
    ensures forall i :: 0 <= i < |e| ==> j.fields[i] == (e[i].0, JNum(e[i].1))
  {
    if |e| == 0 then JObj([]) else JObj([(e[0].0, JNum(e[0].1))] + EntriesJson(e[1..]).fields)
  }

  /** The history page path, with the offset and the page size in decimal. */
  function HistoryPath(skip: nat, limit: nat): (p: string)
    ensures |p| == 22 + |NatText(skip)| + 7 + |NatText(limit)|
    ensures p[..22] == "/predict/history?skip="
  {
    "/predict/history?skip=" + NatText(skip) + "&limit=" + NatText(limit)
  }

  /** The path names its offset and page size unambiguously: two paths are
      equal only for the same `skip` and `limit`. */
  lemma HistoryPathReadsBack(skip: nat, limit: nat, skip': nat, limit': nat)
    requires HistoryPath(skip, limit) == HistoryPath(skip', limit')
    ensures skip == skip' && limit == limit'
  {
    QueryReadsBack("/predict/history?skip=", "&limit=", NatText(skip), NatText(limit), NatText(skip'), NatText(limit'));
    NatTextInjective(skip, skip');
    NatTextInjective(limit, limit');
  }

  /** `prefix + a + sep + b` with digit runs `a` and a separator that starts
      with a non-digit gives back both `a` and `b`. */
  lemma QueryReadsBack(prefix: string, sep: string, a: string, b: string, a': string, b': string)
    requires forall i :: 0 <= i < |a| ==> IsDigit(a[i])
    requires forall i :: 0 <= i < |a'| ==> IsDigit(a'[i])
    requires |sep| > 0 && !IsDigit(sep[0])
    requires prefix + a + sep + b == prefix + a' + sep + b'
    ensures a == a' && b == b'
  {
    var s := prefix + a + sep + b;
    assert s[|prefix|..] == a + [sep[0]] + (sep[1..] + b);
    assert s[|prefix|..] == a' + [sep[0]] + (sep[1..] + b');
    DigitsSplit(a, sep[1..] + b, a', sep[1..] + b', sep[0]);
    assert b == (sep[1..] + b)[|sep| - 1..];
    assert b' == (sep[1..] + b')[|sep| - 1..];
  }

  /** A run of digits ended by a non-digit splits a text in one way only. */
  lemma DigitsSplit(a: string, b: string, a': string, b': string, c: char)
    requires forall i :: 0 <= i < |a| ==> IsDigit(a[i])
    requires forall i :: 0 <= i < |a'| ==> IsDigit(a'[i])
    requires !IsDigit(c) && a + [c] + b == a' + [c] + b'
    ensures a == a' && b == b'
  {
    var s := a + [c] + b;
    assert s == a' + [c] + b';
    assert forall k :: 0 <= k < |a| ==> IsDigit(s[k]);
    assert forall k :: 0 <= k < |a'| ==> IsDigit(s[k]);
    assert !IsDigit(s[|a|]) && !IsDigit(s[|a'|]);
    assert |a| == |a'|;
    assert a == s[..|a|] == a';
    assert b == s[|a| + 1..] == b';
  }

  // ---------------------------------------------------------------------------
  // State

  /** The browser globals the client uses: durable storage, the location hash
      (the route, under a hash router) and the requests sent so far. */
  class Browser {
    var storage: map<string, string>
    var hash: string
    var requests: seq<Request>

    constructor (storage: map<string, string>, hash: string)
      ensures this.storage == storage && this.hash == hash && requests == []
    {
      this.storage := storage;
      this.hash := hash;
      requests := [];
    }

    /** `navigate(path)` under a hash router. */
    method Navigate(path: string)
      modifies this`hash
      ensures hash == "#" + path
    {
      hash := "#" + path;
    }
  }

  /** The session as the service object and the browser hold it together. */
  datatype Session = Session(token: Option<string>, storage: map<string, string>, hash: string)

  /** The stored token, read back as `localStorage.getItem` does. */
  function StoredToken(storage: map<string, string>): Option<string>
  {
    if TokenKey in storage then Some(storage[TokenKey]) else None
  }

  /** The memory token mirrors the stored one. */
  predicate Mirrored(s: Session) { s.token == StoredToken(s.storage) }

  /** `logout()`: the token leaves memory and storage together. */
  function LoggedOut(s: Session): (t: Session)
    ensures Mirrored(t) && t.token == None && t.hash == s.hash
    ensures forall k :: k != TokenKey ==> (k in t.storage <==> k in s.storage)
    ensures forall k :: k != TokenKey && k in s.storage ==> t.storage[k] == s.storage[k]
  {
    Session(None, s.storage - {TokenKey}, s.hash)
  }

  /** The session after a call's reply: a 401 logs out and goes to the login route. */
  function AfterReply(reply: Exchange, s: Session): (t: Session)
    ensures reply.Received? && reply.response.status == 401 ==> t.token == None && t.hash == LoginHash
    ensures !(reply.Received? && reply.response.status == 401) ==> t == s
    ensures Mirrored(s) ==> Mirrored(t)
  {
    if reply.Received? && reply.response.status == 401 then
      var t := LoggedOut(s);
      Session(t.token, t.storage, LoginHash)
    else s
  }

  /** A header map is the one `getHeaders` builds for `token`: JSON content
      type unless the body is a form, the bearer credential exactly when a
      non-empty token is held, and nothing else. Together these fix the map. */
  predicate BuiltHeaders(h: map<string, string>, token: Option<string>, isFormData: bool)
  {
    ("Content-Type" in h <==> !isFormData) &&
    ("Content-Type" in h ==> h["Content-Type"] == "application/json") &&
    ("Authorization" in h <==> token.Some? && token.value != "") &&
    ("Authorization" in h ==> h["Authorization"] == "Bearer " + token.value) &&
    h.Keys <= {"Content-Type", "Authorization"}
  }

  /** The header rule leaves no choice: one token and one body kind give one map. */
  lemma BuiltHeadersUnique(h: map<string, string>, h': map<string, string>, token: Option<string>, isFormData: bool)
    requires BuiltHeaders(h, token, isFormData) && BuiltHeaders(h', token, isFormData)
    ensures h == h'
  {
    assert h.Keys == h'.Keys;
  }

  /** The header map a request carries: JSON content type unless the body is a
      form, and the bearer credential only when one is held (a non-empty token). */
  method Headers(token: Option<string>, isFormData: bool) returns (h: map<string, string>)
    ensures BuiltHeaders(h, token, isFormData)
  {
    h := map[];
    if !isFormData {
      h := h["Content-Type" := "application/json"];
    }
    if token.Some? && token.value != "" {
      h := h["Authorization" := "Bearer " + token.value];
    }
  }

  /** The service object: the one bearer token, kept in step with durable storage. */
  class ApiService {
    const browser: Browser
    var token: Option<string>

    ghost function State(): Session
      reads this, browser
    {
      Session(token, browser.storage, browser.hash)
    }

    ghost predicate Valid()
      reads this, browser
    {
      Mirrored(State())
    }

    /** The token is read back from durable storage, so a reload keeps the session. */
    constructor (browser: Browser)
      ensures this.browser == browser && token == StoredToken(browser.storage) && Valid()
    {
      this.browser := browser;
      token := StoredToken(browser.storage);
    }

    /** `!!this.token`: the token is truthy, so neither absent nor empty. */
    predicate IsAuthenticated()
      reads this
      ensures IsAuthenticated() <==> token.Some? && Truthy(Some(JStr(token.value)))
    {
      token.Some? && token.value != ""
    }

    method SetToken(t: string)
      modifies this, browser`storage
      ensures State() == Session(Some(t), old(browser.storage)[TokenKey := t], old(browser.hash))
      ensures Valid()
      ensures IsAuthenticated() <==> t != ""
      ensures browser.requests == old(browser.requests)
    {
      token := Some(t);
      browser.storage := browser.storage[TokenKey := t];
    }

    method Logout()
      modifies this, browser`storage
      ensures State() == LoggedOut(old(State()))
      ensures Valid() && !IsAuthenticated()
      ensures browser.requests == old(browser.requests)
    {
      token := None;
      browser.storage := browser.storage - {TokenKey};
    }

    method GetHeaders(isFormData: bool) returns (h: map<string, string>)
      ensures "Authorization" in h <==> IsAuthenticated()
      ensures BuiltHeaders(h, token, isFormData)
    {
      h := Headers(token, isFormData);
    }

    /** Normalises one response; a 401 logs out and redirects before anything else is looked at. */
    method HandleResponse(r: Response) returns (o: Outcome)
      modifies this, browser`storage, browser`hash
      ensures o == Normalise(r)
      ensures State() == AfterReply(Received(r), old(State()))
      ensures old(Valid()) ==> Valid()
      ensures browser.requests == old(browser.requests)
    {
      if r.status == 401 {
        Logout();
        browser.hash := LoginHash;
      }
      o := Normalise(r);
    }

    /** Sends one request and settles its reply. */
    method Call(req: Request, reply: Exchange) returns (o: Outcome)
      modifies this, browser
      ensures o == Settle(reply)
      ensures State() == AfterReply(reply, old(State()))
      ensures old(Valid()) ==> Valid()
      ensures browser.requests == old(browser.requests) + [req]
    {
      browser.requests := browser.requests + [req];
      match reply
      case Unreachable =>
        o := Thrown(Engine(NetworkFailure));
      case Received(r) =>
        o := HandleResponse(r);
    }

    /** Registration sends JSON without the bearer credential. */
    method Register(email: string, password: string, fullName: string, reply: Exchange) returns (o: Outcome)
      modifies this, browser
      ensures o == Settle(reply)
      ensures State() == AfterReply(reply, old(State()))
      ensures old(Valid()) ==> Valid()
      ensures browser.requests == old(browser.requests) + [RegisterRequest(email, password, fullName)]
    {
      o := Call(RegisterRequest(email, password, fullName), reply);
    }

    /** Exchanges the user's credentials for a token. */
    method Login(username: string, password: string, reply: Exchange) returns (o: Outcome)
      modifies this, browser
      ensures o == Settle(reply)
      ensures State() == AfterReply(reply, old(State()))
      ensures old(Valid()) ==> Valid()
      ensures browser.requests == old(browser.requests) + [TokenRequest(username, password)]
    {
      o := Call(TokenRequest(username, password), reply);
    }

    /** The identity request carries the token held when it is sent. */
    method GetMe(reply: Exchange) returns (o: Outcome)
      modifies this, browser
      ensures o == Settle(reply)
      ensures State() == AfterReply(reply, old(State()))
      ensures old(Valid()) ==> Valid()
      ensures |browser.requests| == |old(browser.requests)| + 1 && browser.requests[..|old(browser.requests)|] == old(browser.requests)
      ensures var req := Last(browser.requests);
        req.verb == "GET" && req.path == "/users/me" && req.body == NoBody &&
        BuiltHeaders(req.headers, old(token), false) &&
        ("Authorization" in req.headers <==> old(IsAuthenticated())) &&
        ("Authorization" in req.headers ==> req.headers["Authorization"] == "Bearer " + old(token).value)
    {
      var h := GetHeaders(false);
      o := Call(Request("GET", "/users/me", h, NoBody), reply);
    }

    /** Saving the profile defaults; a 204 returns at once (`None`) and is never normalised. */
    method UpdateDefaults(defaults: PersonalDefaults, reply: Exchange) returns (o: Option<Outcome>)
      modifies this, browser
      ensures reply.Received? && reply.response.status == 204 ==> o == None && State() == old(State())
      ensures !(reply.Received? && reply.response.status == 204) ==>
        o == Some(Settle(reply)) && State() == AfterReply(reply, old(State()))
      ensures old(Valid()) ==> Valid()
      ensures |browser.requests| == |old(browser.requests)| + 1 && browser.requests[..|old(browser.requests)|] == old(browser.requests)
      ensures var req := Last(browser.requests);
        req.verb == "PUT" && req.path == "/users/me/defaults" && req.body == JsonBody(DefaultsJson(defaults)) &&
        BuiltHeaders(req.headers, old(token), false)
    {
      var h := GetHeaders(false);
      var req := Request("PUT", "/users/me/defaults", h, JsonBody(DefaultsJson(defaults)));
      browser.requests := browser.requests + [req];
      if reply.Received? && reply.response.status == 204 {
        o := None;
      } else if reply.Unreachable? {
        o := Some(Thrown(Engine(NetworkFailure)));
      } else {
        var out := HandleResponse(reply.response);
        o := Some(out);
      }
    }

    method Predict(model: ModelType, data: Entries, reply: Exchange) returns (o: Outcome)
      modifies this, browser
      ensures o == Settle(reply)
      ensures State() == AfterReply(reply, old(State()))
      ensures old(Valid()) ==> Valid()
      ensures |browser.requests| == |old(browser.requests)| + 1 && browser.requests[..|old(browser.requests)|] == old(browser.requests)
      ensures var req := Last(browser.requests);
        req.verb == "POST" && req.path == "/predict/" + model.Slug() && req.body == JsonBody(EntriesJson(data)) &&
        BuiltHeaders(req.headers, old(token), false)
    {
      var h := GetHeaders(false);
      o := Call(Request("POST", "/predict/" + model.Slug(), h, JsonBody(EntriesJson(data))), reply);
    }

    method GetHistory(skip: nat, limit: nat, reply: Exchange) returns (o: Outcome)
      modifies this, browser
      ensures o == Settle(reply)
      ensures State() == AfterReply(reply, old(State()))
      ensures old(Valid()) ==> Valid()
      ensures |browser.requests| == |old(browser.requests)| + 1 && browser.requests[..|old(browser.requests)|] == old(browser.requests)
      ensures var req := Last(browser.requests);
        req.verb == "GET" && req.path == HistoryPath(skip, limit) && req.body == NoBody &&
        BuiltHeaders(req.headers, old(token), false)
    {
      var h := GetHeaders(false);
      o := Call(Request("GET", HistoryPath(skip, limit), h, NoBody), reply);
    }

    method GetHistoryDetail(logId: string, reply: Exchange) returns (o: Outcome)
      modifies this, browser
      ensures o == Settle(reply)
      ensures State() == AfterReply(reply, old(State()))
      ensures old(Valid()) ==> Valid()
      ensures |browser.requests| == |old(browser.requests)| + 1 && browser.requests[..|old(browser.requests)|] == old(browser.requests)
      ensures var req := Last(browser.requests);
        req.verb == "GET" && req.path == "/predict/history/" + logId && req.body == NoBody &&
        BuiltHeaders(req.headers, old(token), false)
    {
      var h := GetHeaders(false);
      o := Call(Request("GET", "/predict/history/" + logId, h, NoBody), reply);
    }
  }

  function Last<T>(s: seq<T>): T
    requires |s| > 0
  {
    s[|s| - 1]
  }
}
