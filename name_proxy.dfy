/**
 * The `/api/name` route: an optional API-key gate in front of a proxy to the OpenAI chat
 * completions endpoint. The route reads two environment variables, asks the key service whether
 * the caller's token is valid, and forwards the request body with the model fixed; each of
 * those is an input here. An `Exchange` records what the route answered and what it did on the
 * way: the token it had checked, and the request it forwarded.
 */
module NameProxy {
  import opened Wrappers
  import opened JsValue
  import opened Text

  /** What the key service answered for a token. */
  datatype Verification = VerifyError | Valid | Invalid

  /**
   * What forwarding gave: the request or the response could not be completed (`fetch` rejected),
   * or the upstream answered with a status and a body that parsed as JSON (`Some`) or did not.
   */
  datatype Upstream = Unreachable | Responded(status: int, json: Option<Value>)

  /** A response body: plain text, `{message}`, or the upstream's JSON relayed as it is. */
  datatype Body = PlainText(text: string) | JsonMessage(message: string) | JsonRelay(relayed: Value)

  datatype Response = Response(status: int, body: Body)

  /** The request sent upstream: its JSON body and its `Authorization` header. */
  datatype Forwarded = Forwarded(body: map<string, Value>, authorization: string)

  datatype Exchange = Exchange(response: Response, verifiedToken: Option<string>, forwarded: Option<Forwarded>)

  /** How the gate ended: the request goes on, or a response is due. `written` says whether the
   * route writes it to `res`, the only way a pages route answers. */
  datatype Gate = Open | Refused(response: Response, written: bool, verifiedToken: Option<string>)

  const ForcedModel: string := "gpt-4-turbo"
  const BearerPrefix: string := "Bearer "

  /** Authentication runs only when `ENABLE_USER_MANAGEMENT` is exactly the string "true". */
  predicate AuthEnabled(flag: Option<string>)
  {
    flag == Some("true")
  }

  /** A header is present when it is neither missing nor the empty string (JavaScript truthiness). */
  predicate HeaderPresent(header: Option<string>)
  {
    header.Some? && header.value != ""
  }

  /** `header.replace("Bearer ", "")`: the first occurrence of "Bearer " is cut out, wherever it is. */
  function ExtractToken(header: string): (token: string)
    ensures FindFirst(header, BearerPrefix).None? <==> token == header
    ensures FindFirst(header, BearerPrefix).Some? ==> |token| == |header| - |BearerPrefix|
  {
    RemoveFirst(header, BearerPrefix)
  }

  /** The outgoing `Authorization` header: `OPENAI_API_KEY`, or "" when unset or empty, after "Bearer ". */
  function UpstreamAuthorization(apiKey: Option<string>): (authorization: string)
    ensures |authorization| >= |BearerPrefix| && authorization[..|BearerPrefix|] == BearerPrefix
  {
    BearerPrefix + apiKey.GetOr("")
  }

  /** `{...req.body, model}`: every key of the request body, with `model` set to the forced model. */
  function ForwardBody(body: map<string, Value>): (data: map<string, Value>)
    ensures data.Keys == body.Keys + {"model"}
    ensures data["model"] == JStr(ForcedModel)
    ensures forall k :: k in body && k != "model" ==> data[k] == body[k]
  {
    body["model" := JStr(ForcedModel)]
  }

  /**
   * The gate of lines 13-36. It lets a request through exactly when the flag is off or a header
   * carries a valid key. A refusal is a 401 or a 500; a missing header and a key-service error
   * return a `Response` object instead of writing `res`, and only the invalid key's 401
   * `{message: "Unauthorized"}` is written. A token is checked exactly when a header is present.
   */
  function Authenticate(flag: Option<string>, header: Option<string>, verify: Verification): (g: Gate)
    ensures g.Open? <==> !AuthEnabled(flag) || (HeaderPresent(header) && verify == Valid)
    ensures g.Refused? ==> g.response.status in {401, 500}
    ensures g.Refused? ==> (g.written <==> HeaderPresent(header) && verify == Invalid)
    ensures g.Refused? && g.written ==> g.response == Response(401, JsonMessage("Unauthorized"))
    ensures g.Refused? ==> (g.verifiedToken.Some? <==> HeaderPresent(header))
    ensures g.Refused? && g.verifiedToken.Some? ==> g.verifiedToken.value == ExtractToken(header.value)
  {
    if !AuthEnabled(flag) then Open
    else if !HeaderPresent(header) then Refused(Response(401, PlainText("No Authorization header")), false, None)
    else
      var token := ExtractToken(header.value);
      match verify
      case VerifyError => Refused(Response(500, PlainText("Internal Server Error")), false, Some(token))
      case Invalid => Refused(Response(401, JsonMessage("Unauthorized")), true, Some(token))
      case Valid => Open
  }

  /** The token checked with the key service on the way through an open gate, if any. */
  function CheckedToken(flag: Option<string>, header: Option<string>): Option<string>
  {
    if AuthEnabled(flag) && HeaderPresent(header) then Some(ExtractToken(header.value)) else None
  }

  /**
   * The response to a forwarded request (lines 53-62): the upstream's 401 becomes a local 401,
   * any other answer with a JSON body is relayed with status 200 and the JSON untouched, and
   * everything else is a 500.
   */
  function Relay(upstream: Upstream): (r: Response)
    ensures r.status == 200 <==> upstream.Responded? && upstream.status != 401 && upstream.json.Some?
    ensures r.status == 200 ==> r.body == JsonRelay(upstream.json.value)
    ensures r.status == 401 <==> upstream.Responded? && upstream.status == 401
    ensures r.status == 401 ==> r.body == JsonMessage("Invalid API key")
    ensures r.status == 500 ==> r.body == JsonMessage("Error")
    ensures r.status in {200, 401, 500}
  {
    match upstream
    case Unreachable => Response(500, JsonMessage("Error"))
    case Responded(status, json) =>
      if status == 401 then Response(401, JsonMessage("Invalid API key"))
      else if json.None? then Response(500, JsonMessage("Error"))
      else Response(200, JsonRelay(json.value))
  }

  /**
   * The route as intended: every refusal is sent to the client. `upstream` is what forwarding
   * would give; it is used only when the gate is open.
   */
  function Handle(flag: Option<string>, header: Option<string>, verify: Verification,
                  apiKey: Option<string>, body: map<string, Value>, upstream: Upstream): (ex: Exchange)
    ensures ex.forwarded.Some? <==> !AuthEnabled(flag) || (HeaderPresent(header) && verify == Valid)
    ensures ex.response.status in {200, 401, 500}
    ensures ex.response.status == 200 ==> ex.forwarded.Some?
    ensures ex.verifiedToken.Some? <==> AuthEnabled(flag) && HeaderPresent(header)
  {
    match Authenticate(flag, header, verify)
    case Refused(response, _, token) => Exchange(response, token, None)
    case Open =>
      Exchange(Relay(upstream), CheckedToken(flag, header),
               Some(Forwarded(ForwardBody(body), UpstreamAuthorization(apiKey))))
  }

  /**
   * The route as written: a refusal the route returns as a `Response` object instead of writing
   * `res` sends nothing at all (`None`). That happens exactly with the gate on and either no
   * header or a key-service error; everywhere else it sends what the intended route sends.
   */
  function HandleAsWritten(flag: Option<string>, header: Option<string>, verify: Verification,
                           apiKey: Option<string>, body: map<string, Value>, upstream: Upstream): (sent: Option<Response>)
    ensures sent.None? <==> AuthEnabled(flag) && (!HeaderPresent(header) || verify == VerifyError)
    ensures sent.Some? ==> sent.value == Handle(flag, header, verify, apiKey, body, upstream).response
  {
    match Authenticate(flag, header, verify)
    case Refused(response, written, _) => if written then Some(response) else None
    case Open => Some(Relay(upstream))
  }

  // ---------------------------------------------------------------------------------------------
  // Properties of the route

  /** With the flag anything but "true", the header and the key service play no part. */
  lemma NoGateUnlessEnabled(flag: Option<string>, header: Option<string>, verify: Verification,
                            apiKey: Option<string>, body: map<string, Value>, upstream: Upstream)
    requires !AuthEnabled(flag)
    ensures Handle(flag, header, verify, apiKey, body, upstream)
         == Exchange(Relay(upstream), None, Some(Forwarded(ForwardBody(body), UpstreamAuthorization(apiKey))))
  {
  }

  /** With the gate on and no header, the route answers 401 and neither checks a key nor forwards. */
  lemma MissingHeaderRefused(header: Option<string>, verify: Verification,
                             apiKey: Option<string>, body: map<string, Value>, upstream: Upstream)
    requires !HeaderPresent(header)
    ensures Handle(Some("true"), header, verify, apiKey, body, upstream)
         == Exchange(Response(401, PlainText("No Authorization header")), None, None)
  {
  }

  /**
   * With the gate on and a header, its token is checked; a key-service error gives 500 and an
   * invalid key 401 `{message: "Unauthorized"}`, and neither forwards.
   */
  lemma VerifyOutcomes(header: string, verify: Verification,
                       apiKey: Option<string>, body: map<string, Value>, upstream: Upstream)
    requires header != ""
    ensures var ex := Handle(Some("true"), Some(header), verify, apiKey, body, upstream);
      && ex.verifiedToken == Some(ExtractToken(header))
      && (verify == VerifyError ==> ex.response == Response(500, PlainText("Internal Server Error")) && ex.forwarded == None)
      && (verify == Invalid ==> ex.response == Response(401, JsonMessage("Unauthorized")) && ex.forwarded == None)
      && (verify == Valid ==> ex.response == Relay(upstream) && ex.forwarded.Some?)
  {
  }

  /**
   * Whatever is forwarded carries the request body with the forced model and the configured key,
   * and the response is then the upstream's relay.
   */
  lemma ForwardedRequest(flag: Option<string>, header: Option<string>, verify: Verification,
                         apiKey: Option<string>, body: map<string, Value>, upstream: Upstream)
    ensures var ex := Handle(flag, header, verify, apiKey, body, upstream);
      ex.forwarded.Some? ==>
        && ex.forwarded.value.body["model"] == JStr(ForcedModel)
        && ex.forwarded.value.authorization == BearerPrefix + apiKey.GetOr("")
        && ex.response == Relay(upstream)
  {
  }

  /** A header in the Bearer scheme yields exactly the credentials after "Bearer ". */
  lemma BearerHeaderToken(credentials: string)
    ensures ExtractToken(BearerPrefix + credentials) == credentials
  {
    RemoveFirstOfPrefixed(BearerPrefix + credentials, BearerPrefix);
  }

  /** The header the route sends upstream is one whose token is the configured key. */
  lemma UpstreamAuthorizationRoundTrip(apiKey: Option<string>)
    ensures ExtractToken(UpstreamAuthorization(apiKey)) == apiKey.GetOr("")
  {
    BearerHeaderToken(apiKey.GetOr(""));
  }

  /**
   * "Bearer " is cut out even from the middle of the header, the text around it kept: whatever
   * precedes it without a 'B' stays, so "Token Bearer abc" yields "Token abc".
   */
  lemma TokenFromInnerBearer(lead: string, tail: string)
    requires 'B' !in lead
    ensures ExtractToken(lead + BearerPrefix + tail) == lead + tail
  {
    var h := lead + BearerPrefix + tail;
    forall i | 0 <= i < |lead|
      ensures !OccursAt(h, BearerPrefix, i)
    {
      assert h[i] == lead[i] != 'B';
      assert h[i..i + |BearerPrefix|][0] == h[i];
    }
    assert OccursAt(h, BearerPrefix, |lead|) by {
      assert h[|lead|..|lead| + |BearerPrefix|] == BearerPrefix;
    }
    var found := FindFrom(h, BearerPrefix, 0);
    assert found.Some? && found.value <= |lead|;
    assert FindFirst(h, BearerPrefix) == Some(|lead|);
    assert h[..|lead|] + h[|lead| + |BearerPrefix|..] == lead + tail;
  }

  /** The forced model overrides any model the client asked for, and forcing it twice is forcing it once. */
  lemma ForwardBodyOverridesModel(body: map<string, Value>, model: Value)
    ensures ForwardBody(body["model" := model]) == ForwardBody(body)
    ensures ForwardBody(ForwardBody(body)) == ForwardBody(body)
  {
  }

  // ---------------------------------------------------------------------------------------------
  // The refusals that are never sent

  /**
   * As written, with the gate on, a request without a header and a request whose key check fails
   * get no response at all, where the intended route answers 401 and 500.
   */
  lemma UnsentRefusals(header: string, apiKey: Option<string>, body: map<string, Value>, upstream: Upstream)
    requires header != ""
    ensures HandleAsWritten(Some("true"), None, Valid, apiKey, body, upstream) == None
    ensures Handle(Some("true"), None, Valid, apiKey, body, upstream).response.status == 401
    ensures HandleAsWritten(Some("true"), Some(header), VerifyError, apiKey, body, upstream) == None
    ensures Handle(Some("true"), Some(header), VerifyError, apiKey, body, upstream).response.status == 500
  {
  }
}
