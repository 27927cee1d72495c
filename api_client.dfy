/** The Barcelona API client: request URL and authentication headers, the status handling of
    a response, and the redaction of tokens in the debug dumps of requests and responses. */
module ApiClient {
  import opened Wrappers
  import opened ApiTypes
  import opened Effects

  /** The saved login the client is configured with. */
  datatype Login = Login(auth: string, token: string, endpoint: string)

  type Header = (string, string)

  const PathPrefix: string := "/v1"

  /** The URL of an API path: the login endpoint, the version prefix, then the path. */
  function RequestUrl(login: Login, path: string): (url: string)
    ensures |url| == |login.endpoint| + |PathPrefix| + |path|
    ensures url[..|login.endpoint|] == login.endpoint
    ensures url[|login.endpoint|..|login.endpoint| + |PathPrefix|] == PathPrefix
    ensures url[|login.endpoint| + |PathPrefix|..] == path
  {
    login.endpoint + PathPrefix + path
  }

  /** Distinct paths of one login are distinct URLs. */
  lemma RequestUrlInjective(login: Login, p: string, q: string)
    requires RequestUrl(login, p) == RequestUrl(login, q)
    ensures p == q
  {
    var n := |login.endpoint| + |PathPrefix|;
    assert p == RequestUrl(login, p)[n..];
  }

  /** The authentication header a login adds: the Barcelona token for GitHub logins that have one,
      the Vault token for Vault logins, and nothing for any other backend. */
  function AuthHeaders(login: Login): (h: seq<Header>)
    ensures |h| <= 1
    ensures login.auth == "github" ==> (h != [] <==> login.token != "")
    ensures login.auth == "github" && h != [] ==> h == [("X-Barcelona-Token", login.token)]
    ensures login.auth == "vault" ==> h == [("X-Vault-Token", login.token)]
    ensures login.auth != "github" && login.auth != "vault" ==> h == []
  {
    if login.auth == "github" then
      if |login.token| > 0 then [("X-Barcelona-Token", login.token)] else []
    else if login.auth == "vault" then [("X-Vault-Token", login.token)]
    else []
  }

  /** The headers every request carries. */
  const JsonHeaders: seq<Header> := [("Content-Type", "application/json"), ("Accept", "application/json")]

  /** What the server sent back: the status code, the result of reading the body, the result of
      decoding that body as an error document, and the text `httputil.DumpResponse` renders. */
  datatype HttpResponse = HttpResponse(status: int, body: Result<string>, asApiError: Result<ApiError>, dumpText: string)

  /** One round trip through the HTTP transport. */
  datatype Exchange = TransportFailed(error: string) | Answered(response: HttpResponse)

  /** The `([]byte, error)` pair rawRequest returns: a 2xx body, a body with the API error it
      carried, or an error with no body. */
  datatype ClientReply = Success(body: string) | Rejected(body: string, apiError: ApiError) | Failure(error: string)

  predicate IsSuccessStatus(status: int) {
    200 <= status <= 299
  }

  /** The status handling of rawRequest. */
  function StatusReply(x: Exchange): (r: ClientReply)
    ensures r.Success? <==> x.Answered? && x.response.body.Ok? && IsSuccessStatus(x.response.status)
    ensures r.Success? ==> r.body == x.response.body.value
    ensures r.Rejected? <==> x.Answered? && x.response.body.Ok? && !IsSuccessStatus(x.response.status) && x.response.asApiError.Ok?
    ensures r.Rejected? ==> r.body == x.response.body.value && r.apiError == x.response.asApiError.value
    ensures x.TransportFailed? ==> r == Failure(x.error)
    ensures x.Answered? && x.response.body.Err? ==> r == Failure(x.response.body.error)
    ensures r.Failure? && x.Answered? && x.response.body.Ok? ==> r.error == x.response.asApiError.error
  {
    match x
    case TransportFailed(e) => Failure(e)
    case Answered(resp) =>
      if resp.body.Err? then Failure(resp.body.error)
      else if IsSuccessStatus(resp.status) then Success(resp.body.value)
      else if resp.asApiError.Err? then Failure(resp.asApiError.error)
      else Rejected(resp.body.value, resp.asApiError.value)
  }

  /** The error text a caller gets from `err.Error()`, or None when `err` is nil. */
  function ReplyErrorText(r: ClientReply, debug: bool): (e: Option<string>)
    ensures e.None? <==> r.Success?
    ensures r.Rejected? ==> e == Some(ErrorText(r.apiError, debug))
    ensures r.Failure? ==> e == Some(r.error)
  {
    match r
    case Success(_) => None
    case Rejected(_, apiError) => Some(ErrorText(apiError, debug))
    case Failure(error) => Some(error)
  }

  /** A reply as a caller sees it after `json.Unmarshal` of the body with `decode`: only a 2xx
      body is decoded, every other reply is the request's error. */
  function AsReply<T>(r: ClientReply, debug: bool, decode: string -> Result<T>): (reply: Reply<T>)
    ensures reply.Failed? <==> !r.Success?
    ensures reply.Failed? ==> ReplyErrorText(r, debug) == Some(reply.error)
    ensures r.Success? && decode(r.body).Ok? ==> reply == Decoded(decode(r.body).value)
    ensures r.Success? && decode(r.body).Err? ==> reply == Undecodable(decode(r.body).error)
  {
    match r
    case Success(body) => (match decode(body) case Ok(v) => Decoded(v) case Err(e) => Undecodable(e))
    case Rejected(_, apiError) => Failed(ErrorText(apiError, debug))
    case Failure(error) => Failed(error)
  }

  const ParseFailureMessage: string := "Failed to parse error. Use `bcn -d` to see raw server response\n"

  /** What rawRequest prints: in debug mode the redacted dump of the request and, once there is a
      response, of the response; and a hint when an error status carries an undecodable body. */
  function RawRequestOutput(x: Exchange, requestDump: string, debug: bool): seq<string> {
    (if debug then [Dump(requestDump)] else [])
    + (if x.Answered? && debug then [Dump(x.response.dumpText)] else [])
    + (if x.Answered? && x.response.body.Ok? && !IsSuccessStatus(x.response.status) && x.response.asApiError.Err?
       then [ParseFailureMessage] else [])
  }

  /** Nothing is printed outside debug mode except the parse-failure hint, and the printed
      dumps pass through the redaction. */
  lemma RawRequestOutputQuiet(x: Exchange, requestDump: string)
    ensures forall t :: t in RawRequestOutput(x, requestDump, false) ==> t == ParseFailureMessage
    ensures var o := RawRequestOutput(x, requestDump, true); |o| > 0 && o[0] == Redact(requestDump) + "\n"
  {
  }

  /** An HTTP request under construction; rawRequest adds headers and query parameters in place. */
  class HttpRequest {
    const verb: string
    const url: string
    const body: Body
    var header: seq<Header>
    var query: seq<(string, string)>

    constructor (verb: string, url: string, body: Body)
      ensures this.verb == verb && this.url == url && this.body == body
      ensures header == [] && query == []
    {
      this.verb := verb;
      this.url := url;
      this.body := body;
      header := [];
      query := [];
    }

    method AddHeader(h: Header)
      modifies this`header
      ensures header == old(header) + [h]
    {
      header := header + [h];
    }
  }

  /** The API client bound to a login; `debug` is the `-d` flag. */
  class Client {
    const login: Login
    const debug: bool

    constructor (login: Login, debug: bool)
      ensures this.login == login && this.debug == debug
    {
      this.login := login;
      this.debug := debug;
    }

    /** rawRequest: adds the JSON headers (and, in debug mode, `debug=true`), prints the dumps and
        turns the exchange `x` into a reply. `requestDump` is the text `httputil.DumpRequestOut`
        renders for the finished request. */
    method RawRequest(req: HttpRequest, x: Exchange, requestDump: string, console: Console) returns (r: ClientReply)
      modifies req`header, req`query, console`out
      ensures req.header == old(req.header) + JsonHeaders
      ensures req.query == if debug then old(req.query) + [("debug", "true")] else old(req.query)
      ensures r == StatusReply(x)
      ensures console.out == old(console.out) + RawRequestOutput(x, requestDump, debug)
    {
      req.AddHeader(("Content-Type", "application/json"));
      req.AddHeader(("Accept", "application/json"));
      if debug {
        req.query := req.query + [("debug", "true")];
        console.Print(Dump(requestDump));
      }
      if x.TransportFailed? {
        r := Failure(x.error);
        return;
      }
      var resp := x.response;
      if debug {
        console.Print(Dump(resp.dumpText));
      }
      if resp.body.Err? {
        r := Failure(resp.body.error);
        return;
      }
      if !IsSuccessStatus(resp.status) {
        if resp.asApiError.Err? {
          console.Print(ParseFailureMessage);
          r := Failure(resp.asApiError.error);
          return;
        }
        r := Rejected(resp.body.value, resp.asApiError.value);
        return;
      }
      r := Success(resp.body.value);
    }

    /** The request `req` a call of Request(verb, path, body) builds and the reply it gets. */
    twostate predicate Sent(new req: HttpRequest, verb: string, path: string, body: Body, x: Exchange,
                            requestDump: string, r: ClientReply, console: Console)
      reads req, console
    {
      && req.verb == verb && req.url == RequestUrl(login, path) && req.body == body
      && req.header == AuthHeaders(login) + JsonHeaders
      && req.query == (if debug then [("debug", "true")] else [])
      && r == StatusReply(x)
      && console.out == old(console.out) + RawRequestOutput(x, requestDump, debug)
    }

    /** Request: a new request to the API URL of `path`, with the login's authentication header.
        `buildError` is the error `http.NewRequest` reports for this verb and URL (an unknown
        verb, a URL that does not parse), if any: the request is then neither built nor sent,
        nothing is printed, and that error is the reply. */
    method Request(verb: string, path: string, body: Body, buildError: Option<string>, x: Exchange,
                   requestDump: string, console: Console)
      returns (r: ClientReply, req: HttpRequest?)
      modifies console`out
      ensures buildError.Some? ==> req == null && r == Failure(buildError.value) && console.out == old(console.out)
      ensures buildError.None? ==> req != null && fresh(req) && Sent(req, verb, path, body, x, requestDump, r, console)
    {
      if buildError.Some? {
        return Failure(buildError.value), null;
      }
      var built := new HttpRequest(verb, RequestUrl(login, path), body);
      var auth := AuthHeaders(login);
      if |auth| == 1 {
        built.AddHeader(auth[0]);
      }
      r := RawRequest(built, x, requestDump, console);
      req := built;
    }

    method Get(path: string, body: Body, buildError: Option<string>, x: Exchange, requestDump: string, console: Console)
      returns (r: ClientReply, req: HttpRequest?)
      modifies console`out
      ensures buildError.Some? ==> req == null && r == Failure(buildError.value) && console.out == old(console.out)
      ensures buildError.None? ==> req != null && fresh(req) && Sent(req, "GET", path, body, x, requestDump, r, console)
    {
      r, req := Request("GET", path, body, buildError, x, requestDump, console);
    }

    method Post(path: string, body: Body, buildError: Option<string>, x: Exchange, requestDump: string, console: Console)
      returns (r: ClientReply, req: HttpRequest?)
      modifies console`out
      ensures buildError.Some? ==> req == null && r == Failure(buildError.value) && console.out == old(console.out)
      ensures buildError.None? ==> req != null && fresh(req) && Sent(req, "POST", path, body, x, requestDump, r, console)
    {
      r, req := Request("POST", path, body, buildError, x, requestDump, console);
    }

    method Patch(path: string, body: Body, buildError: Option<string>, x: Exchange, requestDump: string, console: Console)
      returns (r: ClientReply, req: HttpRequest?)
      modifies console`out
      ensures buildError.Some? ==> req == null && r == Failure(buildError.value) && console.out == old(console.out)
      ensures buildError.None? ==> req != null && fresh(req) && Sent(req, "PATCH", path, body, x, requestDump, r, console)
    {
      r, req := Request("PATCH", path, body, buildError, x, requestDump, console);
    }

    method Put(path: string, body: Body, buildError: Option<string>, x: Exchange, requestDump: string, console: Console)
      returns (r: ClientReply, req: HttpRequest?)
      modifies console`out
      ensures buildError.Some? ==> req == null && r == Failure(buildError.value) && console.out == old(console.out)
      ensures buildError.None? ==> req != null && fresh(req) && Sent(req, "PUT", path, body, x, requestDump, r, console)
    {
      r, req := Request("PUT", path, body, buildError, x, requestDump, console);
    }

    method Delete(path: string, body: Body, buildError: Option<string>, x: Exchange, requestDump: string, console: Console)
      returns (r: ClientReply, req: HttpRequest?)
      modifies console`out
      ensures buildError.Some? ==> req == null && r == Failure(buildError.value) && console.out == old(console.out)
      ensures buildError.None? ==> req != null && fresh(req) && Sent(req, "DELETE", path, body, x, requestDump, r, console)
    {
      r, req := Request("DELETE", path, body, buildError, x, requestDump, console);
    }
  }

  // ---- Redaction of dumps: the pattern `(Token): ([0-9A-Za-z]+)` replaced by `$1: [filtered]` ----

  /** The replacement: the literal group `Token` followed by the fixed text. */
  const Filtered: string := "Token: [filtered]"

  predicate IsAlnum(c: char) {
    '0' <= c <= '9' || 'A' <= c <= 'Z' || 'a' <= c <= 'z'
  }

  /** The pattern matches at position `i` of `s`: "Token: " followed by at least one letter or digit. */
  predicate MatchAt(s: string, i: nat) {
    && i + 8 <= |s|
    && s[i] == 'T' && s[i + 1] == 'o' && s[i + 2] == 'k' && s[i + 3] == 'e' && s[i + 4] == 'n'
    && s[i + 5] == ':' && s[i + 6] == ' ' && IsAlnum(s[i + 7])
  }

  /** The length of the run of letters and digits `s` starts with. */
  function AlnumRun(s: string): (k: nat)
    ensures k <= |s|
    ensures forall i :: 0 <= i < k ==> IsAlnum(s[i])
    ensures k < |s| ==> !IsAlnum(s[k])
  {
    if |s| == 0 || !IsAlnum(s[0]) then 0 else 1 + AlnumRun(s[1..])
  }

  /** Regexp.ReplaceAllString scans left to right: at a match it emits the replacement and goes on
      after the whole (greedy) letter-and-digit run; elsewhere it copies one character. */
  function Redact(s: string): string
    decreases |s|
  {
    if MatchAt(s, 0) then Filtered + Redact(s[7 + AlnumRun(s[7..])..])
    else if |s| == 0 then ""
    else [s[0]] + Redact(s[1..])
  }

  /** dump: what is printed for a dumped request or response. */
  function Dump(text: string): string {
    Redact(text) + "\n"
  }

  lemma MatchAtShift(s: string, k: nat, i: nat)
    requires k <= |s|
    ensures MatchAt(s[k..], i) <==> MatchAt(s, k + i)
  {
  }

  /** The position of the first match in `s`, or |s| when there is none. */
  function FirstMatch(s: string): (f: nat)
    ensures f <= |s|
    ensures forall i :: 0 <= i < f ==> !MatchAt(s, i)
    ensures f < |s| ==> MatchAt(s, f)
  {
    if |s| == 0 || MatchAt(s, 0) then 0
    else
      var f := 1 + FirstMatch(s[1..]);
      assert forall i :: 1 <= i < f ==> !MatchAt(s, i) by {
        forall i | 1 <= i < f ensures !MatchAt(s, i) { MatchAtShift(s, 1, i - 1); }
      }
      MatchAtShift(s, 1, f - 1);
      f
  }

  /** Where a match starts, the replacement is emitted and the scan resumes after the run. */
  lemma RedactMatch(s: string)
    requires MatchAt(s, 0)
    ensures Redact(s) == Filtered + Redact(s[7 + AlnumRun(s[7..])..])
  {
  }

  /** Where no match starts, one character is copied. */
  lemma RedactStep(s: string)
    requires |s| > 0 && !MatchAt(s, 0)
    ensures Redact(s) == [s[0]] + Redact(s[1..])
  {
  }

  /** Text before the first match is copied unchanged. */
  lemma {:induction false} RedactCopies(s: string, j: nat)
    requires j <= |s|
    requires forall i :: 0 <= i < j ==> !MatchAt(s, i)
    ensures Redact(s) == s[..j] + Redact(s[j..])
    decreases j
  {
    if j > 0 {
      RedactCopies(s, j - 1);
      MatchAtShift(s, j - 1, 0);
      RedactStep(s[j - 1..]);
      assert s[j - 1..][1..] == s[j..];
      assert s[..j] == s[..j - 1] + [s[j - 1]];
    }
  }

  /** Text without a match is printed unchanged. */
  lemma RedactUnchanged(s: string)
    requires forall i :: 0 <= i < |s| ==> !MatchAt(s, i)
    ensures Redact(s) == s
  {
    RedactCopies(s, |s|);
  }

  /** Redaction is complete: no token survives it, and the replacement text does not form a new one. */
  lemma {:induction false} RedactComplete(s: string)
    ensures forall i :: 0 <= i < |Redact(s)| ==> !MatchAt(Redact(s), i)
    decreases |s|
  {
    var out := Redact(s);
    if MatchAt(s, 0) {
      var rest := s[7 + AlnumRun(s[7..])..];
      RedactComplete(rest);
      var r := Redact(rest);
      assert out == Filtered + r;
      forall i | 0 <= i < |out| ensures !MatchAt(out, i) {
        if i >= |Filtered| {
          MatchAtShift(out, |Filtered|, i - |Filtered|);
          assert out[|Filtered|..] == r;
        } else if i + 8 <= |out| {
          assert out[i] == Filtered[i];
          if i <= 10 {
            assert out[i + 6] == Filtered[i + 6];
          }
          if i == 0 {
            assert out[7] == '[';
          }
        }
      }
    } else if |s| > 0 {
      var t := s[1..];
      RedactComplete(t);
      var r := Redact(t);
      assert out == [s[0]] + r;
      forall i | 1 <= i < |out| ensures !MatchAt(out, i) {
        MatchAtShift(out, 1, i - 1);
        assert out[1..] == r;
      }
      NoNewMatchAtFront(s);
    }
  }

  /** The case of RedactComplete where `s` has no match at its start: copying its first character
      in front of the redacted rest does not create one. */
  lemma NoNewMatchAtFront(s: string)
    requires |s| > 0 && !MatchAt(s, 0)
    ensures !MatchAt([s[0]] + Redact(s[1..]), 0)
  {
    var t := s[1..];
    var out := [s[0]] + Redact(t);
    var f := FirstMatch(t);
    RedactCopies(t, f);
    var tail := Redact(t[f..]);
    assert out == [s[0]] + t[..f] + tail;
    if f == |t| {
      assert tail == [];
      assert out == s;
    } else if f >= 7 {
      if |out| >= 8 {
        assert out[..8] == s[..8];
      }
    } else {
      MatchAtShift(t, f, 0);
      assert tail[0] == 'T';
      assert out[f + 1] == 'T';
      if f + 1 == 7 {
        assert out[..8] == s[..7] + ['T'];
      }
    }
  }

  /** A prefix with no letter 'T' is copied as is in front of the redacted rest. */
  lemma RedactFromPrefix(p: string, t: string)
    requires forall i :: 0 <= i < |p| ==> p[i] != 'T'
    ensures Redact(p + t) == p + Redact(t)
  {
    var s := p + t;
    RedactCopies(s, |p|);
    assert s[..|p|] == p && s[|p|..] == t;
  }

  /** A run made only of letters and digits is taken whole. */
  lemma {:induction false} AlnumRunAll(s: string)
    requires forall i :: 0 <= i < |s| ==> IsAlnum(s[i])
    ensures AlnumRun(s) == |s|
  {
    if |s| > 0 {
      AlnumRunAll(s[1..]);
    }
  }

  /** "Token: " and a value made of letters and digits redacts to the replacement text alone. */
  lemma RedactToken(value: string)
    requires |value| > 0 && forall i :: 0 <= i < |value| ==> IsAlnum(value[i])
    ensures Redact("Token: " + value) == Filtered
  {
    var t := "Token: " + value;
    assert t[7..] == value;
    AlnumRunAll(value);
    assert t[0] == 'T' && t[1] == 'o' && t[2] == 'k' && t[3] == 'e' && t[4] == 'n' && t[5] == ':' && t[6] == ' ';
    assert IsAlnum(t[7]);
    RedactMatch(t);
    assert t[7 + |value|..] == [];
  }

  /** The token dumps of api/client_test.go, for any header name and token value: a header
      `<name>Token: <value>` (`X-Barcelona-`, `X-Github-`, `X-Vault-`) is printed with the value filtered. */
  lemma DumpTokenHeader(name: string, value: string)
    requires forall i :: 0 <= i < |name| ==> name[i] != 'T'
    requires |value| > 0 && forall i :: 0 <= i < |value| ==> IsAlnum(value[i])
    ensures Dump(name + "Token: " + value) == name + "Token: [filtered]\n"
  {
    RedactToken(value);
    RedactFromPrefix(name, "Token: " + value);
    assert name + "Token: " + value == name + ("Token: " + value);
  }

  /** The last dump of api/client_test.go: a header that is not a token is kept. */
  lemma DumpNotToken()
    ensures Dump("String: abcdefg") == "String: abcdefg\n"
  {
    RedactFromPrefix("String: abcdefg", "");
    assert "String: abcdefg" + "" == "String: abcdefg";
  }
}
