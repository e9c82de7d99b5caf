/** The connection test for a speech-to-text provider: build an OPTIONS
    request to the provider's endpoint with its headers and credentials, send
    it, and turn the response or the thrown error into a verdict with a
    message for the settings screen. */
module SttProbe {
  import opened Base

  /** How a provider expects its credentials. */
  datatype AuthType = Bearer | Basic | BasicApiKey | Query | Custom | OtherAuth

  /** A configured provider. An absent `authParam` is the empty string (both
      are falsy where the code tests it). */
  datatype Provider = Provider(
    baseUrl: string,
    endpoint: string,
    headers: map<string, string>,
    authType: AuthType,
    authParam: string)

  /** A request as `fetch` receives it; `verb` is its HTTP method. */
  datatype Request = Request(url: string, verb: string, headers: map<string, string>)

  /** What a call into the browser may throw: an `Error` with its message, or
      any other value. */
  datatype Thrown = ErrorValue(message: string) | OtherValue

  /** The settled `fetch`: a response with its status, or a thrown value. */
  datatype FetchOutcome = Response(status: nat) | Rejected(thrown: Thrown)

  /** The browser facilities the probe relies on: `btoa` (which throws on
      characters outside Latin-1, reported here as `Err` with the message of
      the thrown error) and the query-string serialisation of one
      `name=value` pair by `URLSearchParams`. */
  datatype Browser = Browser(btoa: string -> Result<string>, formEncode: (string, string) -> string)

  datatype Verdict = Verdict(success: bool, message: string)

  const UserAgent: string := "Pluely/0.1.3"

  const ReachableMessage: string := "Connection successful! Endpoint is reachable and configured correctly."
  const AuthFailedMessage: string := "Authentication failed. Please check your API key and authentication configuration."
  const NotFoundMessage: string := "Endpoint not found. Please check the base URL and endpoint path."
  const CorsMessage: string := "Endpoint is reachable, but CORS may prevent browser requests. This is normal and the provider should work in the app."
  const NetworkMessage: string := "Network error. Please check the URL and your internet connection."
  const UnknownMessage: string := "Unknown error occurred while testing the provider."

  /** `response.ok`: a status in the range 200 to 299 (WHATWG Fetch Standard, section 2.2.3). */
  predicate OkStatus(status: nat)
    ensures OkStatus(status) <==> status / 100 == 2
  {
    200 <= status <= 299
  }

  /** The report on any other status: it quotes the status number. */
  function OtherStatusMessage(status: nat): (m: string)
    ensures Contains(m, Decimal(status))
  {
    ContainsInfix("Server responded with status ", Decimal(status), ". Please check your configuration.");
    "Server responded with status " + Decimal(status) + ". Please check your configuration."
  }

  /** The verdict on a response: an ok status or 405 (the endpoint exists but
      does not answer OPTIONS) passes; 401 and 404 get their own advice;
      any other status is reported with its number. */
  function ClassifyStatus(status: nat): (v: Verdict)
    ensures v.success <==> OkStatus(status) || status == 405
    ensures v.success ==> v.message == ReachableMessage
    ensures status == 401 ==> v == Verdict(false, AuthFailedMessage)
    ensures status == 404 ==> v == Verdict(false, NotFoundMessage)
    ensures !v.success && status != 401 && status != 404 ==>
              v.message == OtherStatusMessage(status) && Contains(v.message, Decimal(status))
  {
    if OkStatus(status) || status == 405 then Verdict(true, ReachableMessage)
    else if status == 401 then Verdict(false, AuthFailedMessage)
    else if status == 404 then Verdict(false, NotFoundMessage)
    else Verdict(false, OtherStatusMessage(status))
  }

  /** Two failing statuses reported by number give different messages, so the
      message identifies the status. */
  lemma OtherStatusMessagesDistinct(s1: nat, s2: nat)
    requires OtherStatusMessage(s1) == OtherStatusMessage(s2)
    ensures s1 == s2
  {
    var prefix := "Server responded with status ";
    var suffix := ". Please check your configuration.";
    CancelAround(prefix, Decimal(s1), Decimal(s2), suffix);
    DecimalInjective(s1, s2);
  }

  /** The verdict on a thrown value. A message mentioning CORS means the
      endpoint answered, so it passes (and this test comes first); network
      failures get fixed advice; other errors are quoted. */
  function ClassifyThrown(t: Thrown): (v: Verdict)
    ensures v.success <==> t.ErrorValue? && Contains(t.message, "CORS")
    ensures v.success ==> v.message == CorsMessage
    ensures t.OtherValue? ==> v == Verdict(false, UnknownMessage)
    ensures t.ErrorValue? && !Contains(t.message, "CORS") ==>
              v.message == (if Contains(t.message, "NetworkError") || Contains(t.message, "Failed to fetch")
                            then NetworkMessage
                            else "Connection failed: " + t.message)
  {
    match t
    case OtherValue => Verdict(false, UnknownMessage)
    case ErrorValue(msg) =>
      if Contains(msg, "CORS") then Verdict(true, CorsMessage)
      else if Contains(msg, "NetworkError") || Contains(msg, "Failed to fetch") then Verdict(false, NetworkMessage)
      else Verdict(false, "Connection failed: " + msg)
  }

  /** A quoted error message is found again in the verdict. */
  lemma ConnectionFailedQuotesMessage(msg: string)
    requires !Contains(msg, "CORS") && !Contains(msg, "NetworkError") && !Contains(msg, "Failed to fetch")
    ensures Contains(ClassifyThrown(ErrorValue(msg)).message, msg)
  {
    ContainsInfix("Connection failed: ", msg, []);
    assert "Connection failed: " + msg + [] == "Connection failed: " + msg;
  }

  /** Whether the credentials travel in the query string. */
  predicate QueryAuth(p: Provider)
  {
    p.authType == Query && p.authParam != ""
  }

  /** The header the credentials go in, and its value; `Err` when `btoa`
      throws; `None` when the credentials do not travel in a header. */
  function AuthHeader(p: Provider, apiKey: string, env: Browser): (h: Result<Option<(string, string)>>)
    ensures p.authType == Bearer ==> h == Ok(Some(("Authorization", "Bearer " + apiKey)))
    ensures p.authType == Custom ==> h == Ok(if p.authParam != "" then Some((p.authParam, apiKey)) else None)
    ensures p.authType in {Query, OtherAuth} ==> h == Ok(None)
    ensures h.Err? ==> p.authType in {Basic, BasicApiKey}
  {
    match p.authType
    case Bearer => Ok(Some(("Authorization", "Bearer " + apiKey)))
    case Basic =>
      (match env.btoa(apiKey + ":")
       case Ok(enc) => Ok(Some(("Authorization", "Basic " + enc)))
       case Err(e) => Err(e))
    case BasicApiKey =>
      (match env.btoa("apikey:" + apiKey)
       case Ok(enc) => Ok(Some(("Authorization", "Basic " + enc)))
       case Err(e) => Err(e))
    case Query => Ok(None)
    case Custom => Ok(if p.authParam != "" then Some((p.authParam, apiKey)) else None)
    case OtherAuth => Ok(None)
  }

  /** Basic authentication sends `key:` (empty password) or `apikey:key`,
      base64-encoded as `btoa` gives it (section 2 of RFC 7617). */
  lemma BasicCredentials(p: Provider, apiKey: string, env: Browser)
    requires p.authType in {Basic, BasicApiKey}
    ensures var userPass := if p.authType == Basic then apiKey + ":" else "apikey:" + apiKey;
      AuthHeader(p, apiKey, env) ==
        match env.btoa(userPass)
        case Ok(enc) => Ok(Some(("Authorization", "Basic " + enc)))
        case Err(e) => Err(e)
  {
  }

  /** The request the probe sends: the endpoint URL (with the credentials in
      the query when the provider wants them there), method OPTIONS, and the
      headers: the user agent, then the provider's own headers over it, then
      the credentials over both. */
  function ProbeRequest(p: Provider, apiKey: string, env: Browser): (r: Result<Request>)
    ensures r.Err? <==> AuthHeader(p, apiKey, env).Err?
    ensures r.Ok? ==> r.value.verb == "OPTIONS"
    ensures r.Ok? ==>
              r.value.url == p.baseUrl + p.endpoint
                             + (if QueryAuth(p) then "?" + env.formEncode(p.authParam, apiKey) else "")
    ensures r.Ok? ==>
              r.value.headers.Keys == {"User-Agent"} + p.headers.Keys
                + (if AuthHeader(p, apiKey, env).value.Some? then {AuthHeader(p, apiKey, env).value.value.0} else {})
  {
    match AuthHeader(p, apiKey, env)
    case Err(e) => Err(e)
    case Ok(auth) =>
      var base := map["User-Agent" := UserAgent] + p.headers;
      var headers := if auth.Some? then base[auth.value.0 := auth.value.1] else base;
      var url := p.baseUrl + p.endpoint;
      Ok(Request(if QueryAuth(p) then url + "?" + env.formEncode(p.authParam, apiKey) else url, "OPTIONS", headers))
  }

  /** The credentials travel in the query string or in a header, never both:
      a query-authenticated provider gets no credentials header, and any
      other provider's URL is the bare endpoint. */
  lemma QueryAuthOnlyInUrl(p: Provider, apiKey: string, env: Browser)
    ensures QueryAuth(p) ==>
              ProbeRequest(p, apiKey, env).Ok?
              && ProbeRequest(p, apiKey, env).value.url == p.baseUrl + p.endpoint + "?" + env.formEncode(p.authParam, apiKey)
              && ProbeRequest(p, apiKey, env).value.headers.Keys == {"User-Agent"} + p.headers.Keys
    ensures !QueryAuth(p) && ProbeRequest(p, apiKey, env).Ok? ==>
              ProbeRequest(p, apiKey, env).value.url == p.baseUrl + p.endpoint
  {
  }

  /** The credentials header carries the credentials, whatever the provider's
      own headers say. */
  lemma AuthHeaderWins(p: Provider, apiKey: string, env: Browser)
    requires AuthHeader(p, apiKey, env).Ok? && AuthHeader(p, apiKey, env).value.Some?
    ensures var (name, value) := AuthHeader(p, apiKey, env).value.value;
      ProbeRequest(p, apiKey, env).Ok? && ProbeRequest(p, apiKey, env).value.headers[name] == value
  {
  }

  /** Every other header is the provider's if it sets one, and otherwise the
      default user agent. */
  lemma ProviderHeadersKept(p: Provider, apiKey: string, env: Browser, name: string)
    requires ProbeRequest(p, apiKey, env).Ok?
    requires AuthHeader(p, apiKey, env).value.Some? ==> name != AuthHeader(p, apiKey, env).value.value.0
    ensures name in p.headers ==> ProbeRequest(p, apiKey, env).value.headers[name] == p.headers[name]
    ensures name !in p.headers && name == "User-Agent" ==>
              ProbeRequest(p, apiKey, env).value.headers[name] == UserAgent
  {
  }

  /** The probe's verdict: a `btoa` failure is thrown before anything is sent;
      otherwise the request goes out and its outcome is classified. */
  function Probe(p: Provider, apiKey: string, env: Browser, fetch: Request -> FetchOutcome): (v: Verdict)
    ensures var r := ProbeRequest(p, apiKey, env);
      v.success <==>
        (r.Err? && Contains(r.error, "CORS"))
        || (r.Ok? && match fetch(r.value)
                     case Response(st) => OkStatus(st) || st == 405
                     case Rejected(t) => t.ErrorValue? && Contains(t.message, "CORS"))
    ensures ProbeRequest(p, apiKey, env).Err? ==>
              v == ClassifyThrown(ErrorValue(ProbeRequest(p, apiKey, env).error))
    ensures ProbeRequest(p, apiKey, env).Ok? ==>
              v == match fetch(ProbeRequest(p, apiKey, env).value)
                   case Response(status) => ClassifyStatus(status)
                   case Rejected(t) => ClassifyThrown(t)
  {
    match ProbeRequest(p, apiKey, env)
    case Err(e) => ClassifyThrown(ErrorValue(e))
    case Ok(req) =>
      match fetch(req)
      case Response(status) => ClassifyStatus(status)
      case Rejected(t) => ClassifyThrown(t)
  }

  /** `testSTTProvider`: fills the headers and the URL step by step, sends the
      request and classifies what comes back; every path returns a verdict. */
  method TestSttProvider(p: Provider, apiKey: string, env: Browser, fetch: Request -> FetchOutcome)
    returns (v: Verdict)
    ensures v == Probe(p, apiKey, env, fetch)
  {
    var url := p.baseUrl + p.endpoint;
    var headers := map["User-Agent" := UserAgent] + p.headers;
    match p.authType {
      case Bearer =>
        headers := headers["Authorization" := "Bearer " + apiKey];
      case Basic =>
        var encoded := env.btoa(apiKey + ":");
        if encoded.Err? {
          return ClassifyThrown(ErrorValue(encoded.error));
        }
        headers := headers["Authorization" := "Basic " + encoded.value];
      case BasicApiKey =>
        var encoded := env.btoa("apikey:" + apiKey);
        if encoded.Err? {
          return ClassifyThrown(ErrorValue(encoded.error));
        }
        headers := headers["Authorization" := "Basic " + encoded.value];
      case Query =>
      case Custom =>
        if p.authParam != "" {
          headers := headers[p.authParam := apiKey];
        }
      case OtherAuth =>
    }
    var testUrl := url;
    if p.authType == Query && p.authParam != "" {
      testUrl := testUrl + "?" + env.formEncode(p.authParam, apiKey);
    }
    var outcome := fetch(Request(testUrl, "OPTIONS", headers));
    match outcome {
      case Response(status) =>
        if OkStatus(status) || status == 405 {
          v := Verdict(true, ReachableMessage);
        } else if status == 401 {
          v := Verdict(false, AuthFailedMessage);
        } else if status == 404 {
          v := Verdict(false, NotFoundMessage);
        } else {
          v := Verdict(false, OtherStatusMessage(status));
        }
      case Rejected(t) =>
        v := ClassifyThrown(t);
    }
  }
}
