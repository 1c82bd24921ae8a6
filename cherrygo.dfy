/** The request/response core of the Cherry Servers API client: the client's
    configuration and its construction from option closures, the request
    executor (headers, total-count metadata, status classification, the
    DELETE/204 case and the three ways of handling a successful body), and
    the second, range-based response classifier. */
module Cherrygo {
  import opened Wrappers
  import opened GoLib

  const LibraryVersion := "2.0.0"
  const ApiURL := "https://api.cherryservers.com/v1/"
  const CherryAuthTokenVar := "CHERRY_AUTH_TOKEN"
  const UserAgent := "cherry-agent-go/" + LibraryVersion

  /** The error NewClient gives when no token is available. */
  const MissingTokenError := "You must export " + CherryAuthTokenVar

  /** The response header that carries the pagination total. */
  const TotalCountHeader := "X-Total-Count"

  type Bytes = seq<bv8>

  // ---------------------------------------------------------------------
  // Client configuration and construction

  /** The fields of a Client that requests read. The base URL is kept as the
      text it was parsed from; resolving a path against it is left symbolic. */
  datatype ClientConfig = ClientConfig(baseURL: string, userAgent: string, authToken: string, debug: bool)

  /** The defaults NewClientBase fixes: the public API root and the
      library's own user agent. */
  function BaseConfig(authToken: string, debug: bool): (c: ClientConfig)
    ensures c.baseURL == "https://api.cherryservers.com/v1/"
    ensures c.userAgent == "cherry-agent-go/2.0.0"
    ensures c.authToken == authToken && c.debug == debug
  {
    ClientConfig(ApiURL, UserAgent, authToken, debug)
  }

  /** A ClientOpt: a closure that may rewrite the client's fields and may
      fail. Its effect is given as the new field values and the error. */
  datatype ClientOpt = ClientOpt(run: ClientConfig -> (ClientConfig, Option<string>))

  /** SetUserAgent(ua): puts ua and a space in front of the current user
      agent; it never fails and touches no other field. */
  function SetUserAgent(ua: string): (o: ClientOpt)
    ensures forall c :: o.run(c).1 == None
    ensures forall c :: o.run(c).0.baseURL == c.baseURL && o.run(c).0.authToken == c.authToken && o.run(c).0.debug == c.debug
    ensures forall c :: o.run(c).0.userAgent == ua + " " + c.userAgent
  {
    ClientOpt((c: ClientConfig) => (c.(userAgent := ua + " " + c.userAgent), None))
  }

  /** Running the options in order; the first error aborts. */
  function ApplyOptions(c: ClientConfig, opts: seq<ClientOpt>): (r: Result<ClientConfig, string>)
    ensures (forall i, x :: 0 <= i < |opts| ==> opts[i].run(x).1.None?) ==> r.Success?
    ensures r.Failure? ==> exists i, x :: 0 <= i < |opts| && opts[i].run(x).1 == Some(r.error)
    decreases |opts|
  {
    if |opts| == 0 then Success(c)
    else
      var (c1, err) := opts[0].run(c);
      if err.Some? then Failure(err.value)
      else
        var r := ApplyOptions(c1, opts[1..]);
        assert r.Failure? ==> exists i, x :: 0 <= i < |opts| && opts[i].run(x).1 == Some(r.error) by {
          if r.Failure? {
            var i, x :| 0 <= i < |opts[1..]| && opts[1..][i].run(x).1 == Some(r.error);
            assert opts[i + 1] == opts[1..][i];
          }
        }
        r
  }

  class Client {
    var baseURL: string
    var userAgent: string
    var authToken: string
    var debug: bool

    function Config(): ClientConfig
      reads this
    {
      ClientConfig(baseURL, userAgent, authToken, debug)
    }

    /** NewClientBase (and NewClientWithAuthVar, which drops its nil error). */
    constructor Base(authToken: string, debug: bool)
      ensures Config() == BaseConfig(authToken, debug)
    {
      this.baseURL := ApiURL;
      this.userAgent := UserAgent;
      this.authToken := authToken;
      this.debug := debug;
    }

    /** Calls one option closure on this client. */
    method Apply(opt: ClientOpt) returns (err: Option<string>)
      modifies this
      ensures (Config(), err) == opt.run(old(Config()))
    {
      var (c, e) := opt.run(Config());
      baseURL, userAgent, authToken, debug := c.baseURL, c.userAgent, c.authToken, c.debug;
      err := e;
    }
  }

  /** NewClient: the token (read from CHERRY_AUTH_TOKEN in the library) and
      the debug flag are parameters. An empty token fails; otherwise the
      options run in order on a fresh base client and the first failing one
      makes the whole construction fail with its error and no client. */
  method NewClient(authToken: string, debug: bool, opts: seq<ClientOpt>) returns (c: Client?, err: Option<string>)
    ensures authToken == "" ==> c == null && err == Some(MissingTokenError)
    ensures authToken != "" ==>
      match ApplyOptions(BaseConfig(authToken, debug), opts)
      case Failure(e) => c == null && err == Some(e)
      case Success(config) => c != null && fresh(c) && c.Config() == config && err == None
  {
    if authToken == "" {
      return null, Some(MissingTokenError);
    }
    var client := new Client.Base(authToken, debug);
    var i := 0;
    while i < |opts|
      invariant 0 <= i <= |opts|
      invariant fresh(client)
      invariant ApplyOptions(BaseConfig(authToken, debug), opts) == ApplyOptions(client.Config(), opts[i..])
    {
      assert opts[i..][1..] == opts[i + 1..];
      var e := client.Apply(opts[i]);
      if e.Some? {
        return null, e;
      }
      i := i + 1;
    }
    return client, None;
  }

  /** Options compose: running a then b is running a, then b on its result. */
  lemma {:induction false} ApplyOptionsAppend(c: ClientConfig, a: seq<ClientOpt>, b: seq<ClientOpt>)
    ensures ApplyOptions(c, a + b) ==
      match ApplyOptions(c, a)
      case Failure(e) => Failure(e)
      case Success(c1) => ApplyOptions(c1, b)
    decreases |a|
  {
    if |a| == 0 {
      assert a + b == b;
    } else {
      assert (a + b)[0] == a[0] && (a + b)[1..] == a[1..] + b;
      var (c1, err) := a[0].run(c);
      if err.None? {
        ApplyOptionsAppend(c1, a[1..], b);
      }
    }
  }

  /** The first option that fails decides the outcome: its error, and no
      later option matters. */
  lemma FirstFailingOption(c: ClientConfig, opts: seq<ClientOpt>, k: nat)
    requires k < |opts| && ApplyOptions(c, opts[..k]).Success?
    requires opts[k].run(ApplyOptions(c, opts[..k]).value).1.Some?
    ensures ApplyOptions(c, opts) == Failure(opts[k].run(ApplyOptions(c, opts[..k]).value).1.value)
  {
    assert opts == opts[..k] + opts[k..];
    ApplyOptionsAppend(c, opts[..k], opts[k..]);
  }

  /** Options that all succeed leave the configuration the last one made. */
  lemma AllOptionsSucceed(c: ClientConfig, opts: seq<ClientOpt>, k: nat)
    requires k < |opts| && ApplyOptions(c, opts[..k]).Success?
    requires opts[k].run(ApplyOptions(c, opts[..k]).value).1.None?
    ensures ApplyOptions(c, opts[..k + 1]) == Success(opts[k].run(ApplyOptions(c, opts[..k]).value).0)
  {
    assert opts[..k + 1] == opts[..k] + [opts[k]];
    ApplyOptionsAppend(c, opts[..k], [opts[k]]);
  }

  function UserAgentOpts(uas: seq<string>): (opts: seq<ClientOpt>)
    ensures |opts| == |uas|
  {
    seq(|uas|, i requires 0 <= i < |uas| => SetUserAgent(uas[i]))
  }

  /** The user agent after putting uas[0], uas[1], ... in front of ua in turn. */
  function Prefixed(uas: seq<string>, ua: string): string
  {
    if |uas| == 0 then ua else Prefixed(uas[1..], uas[0] + " " + ua)
  }

  /** A run of SetUserAgent options changes nothing but the user agent, and
      each prepends to what the one before it produced. */
  lemma {:induction false} UserAgentOptions(c: ClientConfig, uas: seq<string>)
    ensures ApplyOptions(c, UserAgentOpts(uas)) == Success(c.(userAgent := Prefixed(uas, c.userAgent)))
    decreases |uas|
  {
    if |uas| > 0 {
      var c1 := c.(userAgent := uas[0] + " " + c.userAgent);
      assert UserAgentOpts(uas)[0].run(c) == (c1, None);
      assert UserAgentOpts(uas)[1..] == UserAgentOpts(uas[1..]);
      UserAgentOptions(c1, uas[1..]);
    }
  }

  /** The custom user agents come first, newest first, and the previous
      user agent is kept whole at the end. */
  lemma {:induction false} PrefixedShape(uas: seq<string>, ua: string)
    ensures |Prefixed(uas, ua)| >= |ua|
    ensures Prefixed(uas, ua)[|Prefixed(uas, ua)| - |ua|..] == ua
    ensures |uas| > 0 ==> var last := uas[|uas| - 1] + " ";
      |Prefixed(uas, ua)| >= |last| && Prefixed(uas, ua)[..|last|] == last
  {
    if |uas| > 0 {
      var ua1 := uas[0] + " " + ua;
      PrefixedShape(uas[1..], ua1);
      var r := Prefixed(uas, ua);
      assert r[|r| - |ua1|..][|ua1| - |ua|..] == r[|r| - |ua|..];
      if |uas| == 1 {
        assert r == ua1;
      } else {
        assert uas[1..][|uas[1..]| - 1] == uas[|uas| - 1];
      }
    }
  }

  /** The custom user agent of the library's test: "testing/1.0" in front of
      the default. */
  lemma CustomUserAgent(token: string, debug: bool)
    ensures ApplyOptions(BaseConfig(token, debug), [SetUserAgent("testing/1.0")])
      == Success(BaseConfig(token, debug).(userAgent := "testing/1.0 cherry-agent-go/2.0.0"))
  {
    UserAgentOptions(BaseConfig(token, debug), ["testing/1.0"]);
    assert UserAgentOpts(["testing/1.0"]) == [SetUserAgent("testing/1.0")];
    assert ["testing/1.0"][1..] == [];
    assert Prefixed(["testing/1.0"], UserAgent) == "testing/1.0" + " " + UserAgent;
    assert "testing/1.0" + " " + UserAgent == "testing/1.0 cherry-agent-go/2.0.0";
  }

  // ---------------------------------------------------------------------
  // Requests

  /** The methods the endpoint callers use. */
  datatype Method = GET | POST | PUT | PATCH | DELETE

  /** The body argument after JSON encoding: none, the encoder's bytes, or
      the encoder's error. */
  datatype Payload = NoPayload | Encoded(json: Bytes) | Unencodable(err: string)

  /** What the request buffer holds: empty unless a body was encoded. */
  function Buffered(p: Payload): Bytes
  {
    if p.Encoded? then p.json else []
  }

  /** The URL the base URL's ResolveReference makes of a path; kept symbolic. */
  datatype Url = Resolved(base: string, ref: string)

  datatype Request = Request(verb: Method, url: Url, header: Header, body: Bytes)

  /** The header set of every request: a bearer token in Authorization
      (section 2.1 of RFC 6750) and the client's user agent, nothing else. */
  function RequestHeader(c: ClientConfig): (h: Header)
    ensures h.Keys == {"Authorization", "User-Agent"}
    ensures h["Authorization"] == ["Bearer " + c.authToken]
    ensures h["User-Agent"] == [c.userAgent]
  {
    HeaderSet(HeaderAdd(map[], "Authorization", "Bearer " + c.authToken), "User-Agent", c.userAgent)
  }

  function BuildRequest(c: ClientConfig, verb: Method, path: string, buf: Bytes): (req: Request)
    ensures HeaderGet(req.header, "Authorization") == "Bearer " + c.authToken
    ensures HeaderGet(req.header, "User-Agent") == c.userAgent
    ensures req.verb == verb && req.url == Resolved(c.baseURL, path) && req.body == buf
  {
    Request(verb, Resolved(c.baseURL, path), RequestHeader(c), buf)
  }

  // ---------------------------------------------------------------------
  // Responses

  /** A response body: the bytes delivered, and the error that ended the
      stream early (None when it ended normally). */
  datatype Stream = Stream(bytes: Bytes, readErr: Option<string>)

  /** What the HTTP transport answers: a failure, or a status, headers
      (keyed by canonical name) and a body. */
  datatype Reply = TransportError(err: string) | Received(status: int, header: Header, body: Stream)

  /** The primary error-body shape, {"code": int, "message": string}. */
  datatype ApiError = ApiError(code: int, message: string)

  /** The executor's collaborators outside this library: the HTTP transport
      and encoding/json's unmarshalling of the error-body shape. */
  datatype Backend = Backend(transport: Request -> Reply, unmarshalApiError: Bytes -> Result<ApiError, string>)

  /** The destination argument: none, a raw writer, or a value to decode
      into. A decoder gives the value the destination holds afterwards
      (partly filled when decoding failed) and the decoding error. */
  datatype Target<T> = NoTarget | Writer | JsonInto(decode: Stream -> (T, Option<string>))

  /** One request as an endpoint caller hands it to the executor. */
  datatype Call<T> = Call(verb: Method, path: string, body: Payload, target: Target<T>)

  /** The response envelope: the transport's status and headers plus the
      total-count metadata. */
  datatype Response = Response(status: int, header: Header, total: int)

  /** What happened to the destination. */
  datatype Delivered<T> = Untouched | Copied(bytes: Bytes) | Decoded(value: T)

  /** The executor's result: the response (or nil) and the error, with the
      request handed to the transport and the destination's fate. */
  datatype Outcome<T> = Outcome(sent: Option<Request>, response: Option<Response>, err: Option<string>, delivered: Delivered<T>)

  /** populateTotal: the X-Total-Count header parsed by strconv.Atoi with the
      error ignored; zero when the header is absent or empty. */
  function PopulateTotal(h: Header): (total: int)
    ensures MinInt64 <= total <= MaxInt64
    ensures HeaderGet(h, TotalCountHeader) == "" ==> total == 0
  {
    var t := HeaderGet(h, TotalCountHeader);
    if t != "" then Atoi(t).value else 0
  }

  /** A numeral in the header gives its value, clamped to 64 bits. */
  lemma TotalOfNumeral(h: Header)
    requires IsDecimal(HeaderGet(h, TotalCountHeader))
    ensures PopulateTotal(h) == Clamp64(SignedValue(HeaderGet(h, TotalCountHeader)))
  {
    AtoiOfDecimal(HeaderGet(h, TotalCountHeader));
  }

  /** A short header value that is not a numeral gives zero. */
  lemma TotalOfShortNonNumeral(h: Header)
    requires |HeaderGet(h, TotalCountHeader)| < 19 && !IsDecimal(HeaderGet(h, TotalCountHeader))
    ensures PopulateTotal(h) == 0
  {
    AtoiOfShortNonDecimal(HeaderGet(h, TotalCountHeader));
  }

  /** A header holding the decimal rendering of a 64-bit count gives that count. */
  lemma TotalOfRendered(h: Header, n: int)
    requires MinInt64 <= n <= MaxInt64 && HeaderGet(h, TotalCountHeader) == Itoa(n)
    ensures PopulateTotal(h) == n
  {
    AtoiItoa(n);
  }

  /** The executor's classification: 299 and above is an error. */
  predicate IsErrorStatus(status: int)
    ensures 200 <= status <= 298 ==> !IsErrorStatus(status)
    ensures status >= 300 ==> IsErrorStatus(status)
  {
    status >= 299
  }

  const ApiErrorHead := "Error response from API: "

  /** The error text built from a decoded error body: the fixed head, the
      message as decoded, then the code in parentheses. */
  function ApiErrorText(e: ApiError): (s: string)
    ensures |s| > |ApiErrorHead| + |e.message| && s[..|ApiErrorHead|] == ApiErrorHead
    ensures s[|ApiErrorHead|..|ApiErrorHead| + |e.message|] == e.message
    ensures s[|ApiErrorHead| + |e.message|..] == " (error code: " + Itoa(e.code) + ")"
  {
    var s := ApiErrorHead + e.message + " (error code: " + Itoa(e.code) + ")";
    assert s == ApiErrorHead + (e.message + (" (error code: " + Itoa(e.code) + ")"));
    s
  }

  /** MakeRequest: encode the body, build and send the request, attach the
      total-count metadata, then classify: an error status yields the
      decoded error text; DELETE answered by 204 stops at once; otherwise
      the body is left unread, copied raw, or decoded into the destination. */
  function MakeRequest<T>(c: ClientConfig, call: Call<T>, be: Backend): (out: Outcome<T>)
    ensures out.sent.None? <==> call.body.Unencodable?
    ensures out.sent.Some? ==> out.sent.value == BuildRequest(c, call.verb, call.path, Buffered(call.body))
    ensures call.body.Unencodable? ==> out.response.None? && out.err == Some(call.body.err)
    ensures out.response.Some? || out.err.Some?
    ensures out.response.Some? ==>
      out.sent.Some? && be.transport(out.sent.value).Received? &&
      var reply := be.transport(out.sent.value);
      out.response.value == Response(reply.status, reply.header, PopulateTotal(reply.header))
    ensures out.err.None? ==> out.response.Some? && !IsErrorStatus(out.response.value.status)
    ensures !out.delivered.Untouched? ==>
      out.response.Some? && !IsErrorStatus(out.response.value.status) &&
      !(call.verb == DELETE && out.response.value.status == 204)
    ensures out.delivered.Copied? ==>
      call.target.Writer? && out.delivered.bytes == be.transport(out.sent.value).body.bytes
    ensures out.delivered.Decoded? ==>
      call.target.JsonInto? && (out.delivered.value, out.err) == call.target.decode(be.transport(out.sent.value).body)
  {
    if call.body.Unencodable? then Outcome(None, None, Some(call.body.err), Untouched)
    else
      var req := BuildRequest(c, call.verb, call.path, Buffered(call.body));
      match be.transport(req)
      case TransportError(e) => Outcome(Some(req), None, Some(e), Untouched)
      case Received(status, header, body) =>
        var resp := Response(status, header, PopulateTotal(header));
        if IsErrorStatus(status) then
          if body.readErr.Some? then Outcome(Some(req), None, body.readErr, Untouched)
          else
            match be.unmarshalApiError(body.bytes)
            case Failure(e) => Outcome(Some(req), None, Some(e), Untouched)
            case Success(apiErr) => Outcome(Some(req), Some(resp), Some(ApiErrorText(apiErr)), Untouched)
        else if call.verb == DELETE && status == 204 then
          Outcome(Some(req), Some(resp), None, Untouched)
        else
          match call.target
          case NoTarget => Outcome(Some(req), Some(resp), None, Untouched)
          case Writer => Outcome(Some(req), Some(resp), None, Copied(body.bytes))
          case JsonInto(decode) =>
            var (v, e) := decode(body);
            Outcome(Some(req), Some(resp), e, Decoded(v))
  }

  /** The reply the transport gives to the request MakeRequest builds. */
  function ReplyTo<T>(c: ClientConfig, call: Call<T>, be: Backend): Reply
  {
    be.transport(BuildRequest(c, call.verb, call.path, Buffered(call.body)))
  }

  /** The failures that come back without a response: the body does not
      encode, the transport fails, or an error body cannot be read or
      unmarshalled. */
  predicate EarlyFailure<T>(c: ClientConfig, call: Call<T>, be: Backend)
  {
    call.body.Unencodable? ||
    var reply := ReplyTo(c, call, be);
    reply.TransportError? ||
    (IsErrorStatus(reply.status) &&
     (reply.body.readErr.Some? || be.unmarshalApiError(reply.body.bytes).Failure?))
  }

  /** The response is nil exactly on an early failure, and the error that
      comes with it is the failing step's own error, passed on unchanged. */
  lemma NilResponseExactlyOnEarlyFailure<T>(c: ClientConfig, call: Call<T>, be: Backend)
    ensures MakeRequest(c, call, be).response.None? <==> EarlyFailure(c, call, be)
    ensures EarlyFailure(c, call, be) ==> MakeRequest(c, call, be).err.Some?
    ensures call.body.Unencodable? ==> MakeRequest(c, call, be).err == Some(call.body.err)
    ensures !call.body.Unencodable? && ReplyTo(c, call, be).TransportError? ==>
      MakeRequest(c, call, be).err == Some(ReplyTo(c, call, be).err)
    ensures (!call.body.Unencodable? && ReplyTo(c, call, be).Received? &&
             IsErrorStatus(ReplyTo(c, call, be).status) && ReplyTo(c, call, be).body.readErr.Some?) ==>
      MakeRequest(c, call, be).err == ReplyTo(c, call, be).body.readErr
    ensures (!call.body.Unencodable? && ReplyTo(c, call, be).Received? &&
             IsErrorStatus(ReplyTo(c, call, be).status) && ReplyTo(c, call, be).body.readErr.None? &&
             be.unmarshalApiError(ReplyTo(c, call, be).body.bytes).Failure?) ==>
      MakeRequest(c, call, be).err == Some(be.unmarshalApiError(ReplyTo(c, call, be).body.bytes).error)
  {
  }

  /** An error status with a readable body that unmarshals gives the
      response together with the formatted error, and leaves the
      destination alone. */
  lemma ErrorStatusKeepsResponse<T>(c: ClientConfig, call: Call<T>, be: Backend)
    requires !call.body.Unencodable?
    requires ReplyTo(c, call, be).Received? && IsErrorStatus(ReplyTo(c, call, be).status)
    requires ReplyTo(c, call, be).body.readErr.None?
    requires be.unmarshalApiError(ReplyTo(c, call, be).body.bytes).Success?
    ensures var out := MakeRequest(c, call, be);
      var reply := ReplyTo(c, call, be);
      out.response == Some(Response(reply.status, reply.header, PopulateTotal(reply.header))) &&
      out.err == Some(ApiErrorText(be.unmarshalApiError(reply.body.bytes).value)) &&
      out.delivered.Untouched?
  {
  }

  /** The code of the library's error-response test, rendered. */
  lemma ItoaFourHundred()
    ensures Itoa(400) == "400"
  {
    assert DigitChar(4) == '4' && DigitChar(0) == '0';
    assert Digits(4) == "4";
    assert Digits(40) == Digits(4) + "0" == "40";
    assert Digits(400) == Digits(40) + "0" == "400";
  }

  /** The library's error-response test: status 400 with code 400 and
      message "Bad Request" gives exactly this text. */
  lemma BadRequestText()
    ensures ApiErrorText(ApiError(400, "Bad Request")) == "Error response from API: Bad Request (error code: 400)"
  {
    ItoaFourHundred();
    var text := ApiErrorHead + "Bad Request" + " (error code: " + "400" + ")";
    assert ApiErrorText(ApiError(400, "Bad Request")) == text;
    assert text == "Error response from API: Bad Request (error code: 400)";
  }

  /** DELETE answered by 204 No Content (section 15.3.5 of RFC 9110) succeeds
      without reading the body, whatever destination was given. */
  lemma DeleteNoContent<T>(c: ClientConfig, call: Call<T>, be: Backend)
    requires call.verb == DELETE && !call.body.Unencodable?
    requires ReplyTo(c, call, be).Received? && ReplyTo(c, call, be).status == 204
    ensures var out := MakeRequest(c, call, be);
      out.response.Some? && out.response.value.status == 204 && out.err.None? && out.delivered.Untouched?
  {
  }

  /** A successful status (other than DELETE's 204) dispatches on the
      destination: none leaves the body unread, a writer receives the bytes
      verbatim, a decode target reports the decoder's value and error, and
      the response comes back in every case. */
  lemma SuccessDispatch<T>(c: ClientConfig, call: Call<T>, be: Backend)
    requires !call.body.Unencodable?
    requires ReplyTo(c, call, be).Received? && !IsErrorStatus(ReplyTo(c, call, be).status)
    requires !(call.verb == DELETE && ReplyTo(c, call, be).status == 204)
    ensures var out := MakeRequest(c, call, be);
      var reply := ReplyTo(c, call, be);
      out.response == Some(Response(reply.status, reply.header, PopulateTotal(reply.header))) &&
      match call.target
      case NoTarget => out.err.None? && out.delivered.Untouched?
      case Writer => out.err.None? && out.delivered == Copied(reply.body.bytes)
      case JsonInto(decode) => out.delivered == Decoded(decode(reply.body).0) && out.err == decode(reply.body).1
  {
  }

  // ---------------------------------------------------------------------
  // checkResponseForErrors

  /** The tolerant error shape: {"errors": [...]} or {"error": "..."}. */
  datatype ErrorResponse = ErrorResponse(status: int, errors: seq<string>, singleError: string)

  /** checkResponseForErrors: nil for a status from 200 to 299; otherwise an
      error response, filled from the body when the body reads without error
      and is not empty. Unmarshalling errors are ignored: unmarshal gives the
      fields it managed to fill. */
  function CheckResponseForErrors(status: int, body: Stream, unmarshal: Bytes -> (seq<string>, string)): (r: Option<ErrorResponse>)
    ensures r.None? <==> 200 <= status <= 299
    ensures r.Some? ==> r.value.status == status
    ensures r.Some? && (body.readErr.Some? || body.bytes == []) ==> r.value.errors == [] && r.value.singleError == ""
    ensures r.Some? && body.readErr.None? && body.bytes != [] ==>
      (r.value.errors, r.value.singleError) == unmarshal(body.bytes)
  {
    if 200 <= status <= 299 then None
    else if body.readErr.None? && |body.bytes| > 0 then
      var (errors, single) := unmarshal(body.bytes);
      Some(ErrorResponse(status, errors, single))
    else Some(ErrorResponse(status, [], ""))
  }

  /** The two classifiers disagree exactly on 299, which only the executor
      calls an error, and below 200, which only checkResponseForErrors does. */
  lemma ClassifiersDisagree(status: int, body: Stream, unmarshal: Bytes -> (seq<string>, string))
    ensures (IsErrorStatus(status) && CheckResponseForErrors(status, body, unmarshal).None?) <==> status == 299
    ensures (!IsErrorStatus(status) && CheckResponseForErrors(status, body, unmarshal).Some?) <==> status < 200
  {
  }
}
