/**
 * The wetsuit API client: it composes the target URL from the origin and a path,
 * attaches the bearer token, dispatches the request, classifies the status code,
 * and returns the raw response body or an error.
 */
module Wetsuit {
  import opened Wrappers
  import opened Http
  import Strings

  /** The separator the service's routing puts between the origin and every path. */
  const API_SEPARATOR := "/api"

  /** The header the bearer token travels in. */
  const AUTHORIZATION := "Authorization"

  /** Where a failed call stopped; Go carries each as a plain error value. */
  datatype Error =
    | EncodeError(msg: string)     // json.Marshal rejected the body
    | BuildError(msg: string)      // http.NewRequest rejected the URL
    | TransportError(msg: string)  // the round trip itself failed
    | HttpError(status: string)    // handleRequestError rejected the status
    | ReadError(msg: string)       // ioutil.ReadAll failed on the body
  {
    /**
     * The text err.Error() gives the caller: the rejection text with the status line,
     * or the failing call's own message passed through unchanged.
     */
    function Message(): (m: string)
      ensures HttpError? ==> m == "HTTP Error: " + status
      ensures !HttpError? ==> m == msg
    {
      if HttpError? then "HTTP Error: " + status else msg
    }
  }

  /** The `([]byte, error)` pair an operation returns; `None` bytes is Go's nil slice. */
  datatype Reply = Reply(bytes: Option<Bytes>, err: Option<Error>)

  // ----- URL composition -----

  /** getAPIURL: the origin and the path joined by "/api", with no separator added or removed. */
  function GetAPIURL(origin: string, path: string): (url: string)
    ensures url == origin + "/api" + path
    ensures |url| == |origin| + 4 + |path|
  {
    Strings.Join([origin, path], API_SEPARATOR)
  }

  /** The path a URL addresses under `origin`, if it lies under origin + "/api" at all. */
  function PathOf(origin: string, url: string): (p: Option<string>)
    ensures p.Some? ==> |p.value| == |url| - |origin| - 4
  {
    var prefix := origin + API_SEPARATOR;
    if prefix <= url then Some(url[|prefix|..]) else None
  }

  /** PathOf inverts GetAPIURL: a URL names a path exactly when GetAPIURL builds it from that path. */
  lemma PathOfInvertsGetAPIURL(origin: string, url: string, path: string)
    ensures PathOf(origin, url) == Some(path) <==> GetAPIURL(origin, path) == url
  {
  }

  /** Distinct paths always target distinct URLs under one origin. */
  lemma GetAPIURLInjective(origin: string, p1: string, p2: string)
    requires GetAPIURL(origin, p1) == GetAPIURL(origin, p2)
    ensures p1 == p2
  {
    PathOfInvertsGetAPIURL(origin, GetAPIURL(origin, p1), p1);
    PathOfInvertsGetAPIURL(origin, GetAPIURL(origin, p1), p2);
  }

  // ----- Bearer header -----

  /** The Authorization value: "Bearer" and the token joined by one space, even for an empty token. */
  function AuthorizationValue(token: string): (v: string)
    ensures v == "Bearer " + token
  {
    Strings.Join(["Bearer", token], " ")
  }

  /** The token an Authorization value carries, if it is a bearer credential at all. */
  function BearerToken(v: string): (t: Option<string>)
    ensures t.Some? ==> |t.value| == |v| - 7
  {
    if "Bearer " <= v then Some(v[7..]) else None
  }

  /** BearerToken inverts AuthorizationValue: the header hands the service back exactly the token. */
  lemma BearerTokenInvertsAuthorizationValue(v: string, token: string)
    ensures BearerToken(v) == Some(token) <==> AuthorizationValue(token) == v
  {
  }

  /** The header of every request newRequest builds: one Authorization key holding one value. */
  function AuthHeader(token: string): (h: Header)
    ensures h.Keys == {AUTHORIZATION}
    ensures h[AUTHORIZATION] == ["Bearer " + token]
  {
    HeaderAdd(map[], AUTHORIZATION, AuthorizationValue(token))
  }

  // ----- Status classification and reading -----

  /** handleRequestError: an error exactly when the status code exceeds 400, carrying the status line. */
  function HandleRequestError(resp: Response): (e: Option<Error>)
    ensures e.Some? <==> resp.statusCode > 400
    ensures e.Some? ==> e.value == HttpError(resp.status)
    ensures e.Some? ==> e.value.Message() == "HTTP Error: " + resp.status
  {
    if resp.statusCode > 400 then Some(HttpError(resp.status)) else None
  }

  /** The status line a rejection message carries, recovered from the message text. */
  function RejectedStatus(message: string): (s: Option<string>)
  {
    if "HTTP Error: " <= message then Some(message[12..]) else None
  }

  /** The rejection message hands the caller the status line verbatim. */
  lemma RejectedStatusOfMessage(resp: Response)
    requires resp.statusCode > 400
    ensures RejectedStatus(HandleRequestError(resp).value.Message()) == Some(resp.status)
  {
  }

  /** Status 400 and everything below it pass; 401 and everything above it are rejected. */
  lemma StatusBoundary(s: string, body: Result<Bytes>)
    ensures HandleRequestError(Response(200, s, body)).None?
    ensures HandleRequestError(Response(400, s, body)).None?
    ensures HandleRequestError(Response(401, s, body)).Some?
    ensures HandleRequestError(Response(500, s, body)) == Some(HttpError(s))
  {
  }

  /** read: the whole body unmodified, or nil bytes and the read error. */
  function Read(resp: Response): (r: Reply)
    ensures r.err.None? <==> resp.body.Ok?
    ensures resp.body.Ok? ==> r.bytes == Some(resp.body.value)
    ensures resp.body.Err? ==> r == Reply(None, Some(ReadError(resp.body.msg)))
  {
    match resp.body
    case Ok(b) => Reply(Some(b), None)
    case Err(m) => Reply(None, Some(ReadError(m)))
  }

  /** The steps after dispatch: a transport error, else handleRequestError, else read. */
  function AfterDispatch(o: Outcome): (r: Reply)
    ensures r.err.None? <==> o.Resp? && o.response.statusCode <= 400 && o.response.body.Ok?
    ensures r.err.None? ==> r.bytes == Some(o.response.body.value)
    ensures r.err.Some? ==> r.bytes.None?
    ensures o.TransportErr? ==> r.err == Some(TransportError(o.msg))
    ensures o.Resp? && o.response.statusCode <= 400 && o.response.body.Err? ==>
              r == Reply(None, Some(ReadError(o.response.body.msg)))
    ensures o.Resp? && o.response.statusCode > 400 ==> r.err == Some(HttpError(o.response.status))
  {
    match o
    case TransportErr(m) => Reply(None, Some(TransportError(m)))
    case Resp(resp) =>
      match HandleRequestError(resp)
      case Some(e) => Reply(None, Some(e))
      case None => Read(resp)
  }

  /** On a rejected status the body is never looked at: responses differing only in body reply alike. */
  lemma RejectionIgnoresBody(r1: Response, r2: Response)
    requires r1.statusCode == r2.statusCode > 400 && r1.status == r2.status
    ensures AfterDispatch(Resp(r1)) == AfterDispatch(Resp(r2)) == Reply(None, Some(HttpError(r1.status)))
  {
  }

  // ----- The pipelines -----

  /** The body an operation hands over: none (Get), or the outcome of json.Marshal (Post, Patch). */
  datatype Payload = NoBody | Json(marshaled: Result<Bytes>)

  /** A call's effect: the requests it dispatched, in order, and what it returned. */
  datatype Run = Run(sent: seq<Wire>, reply: Reply)

  /** The request an operation with method `verb` dispatches for `path` and body `body`. */
  function Outgoing(origin: string, token: string, verb: Method, path: string, body: Option<Bytes>): (w: Wire)
    ensures w.url == origin + "/api" + path
    ensures w.header.Keys == {AUTHORIZATION} && w.header[AUTHORIZATION] == ["Bearer " + token]
    ensures w.verb == verb && w.body == body
  {
    Wire(verb, GetAPIURL(origin, path), AuthHeader(token), body)
  }

  /**
   * Patch, Post and Get as one pipeline: encode, build, dispatch, classify, read,
   * returning at the first error; `history` is what the transport dispatched before.
   */
  function Call(net: Net, history: seq<Wire>, origin: string, token: string, verb: Method, path: string, payload: Payload): (run: Run)
    ensures |run.sent| <= 1
    ensures run.reply.err.None? <==> run.reply.bytes.Some?
    ensures payload.Json? && payload.marshaled.Err? ==>
              run == Run([], Reply(None, Some(EncodeError(payload.marshaled.msg))))
    ensures (payload.NoBody? || payload.marshaled.Ok?) ==>
              var body := if payload.NoBody? then None else Some(payload.marshaled.value);
              var w := Outgoing(origin, token, verb, path, body);
              if net.urlError(w.url).Some? then
                run == Run([], Reply(None, Some(BuildError(net.urlError(w.url).value))))
              else
                run == Run([w], AfterDispatch(net.server(history, w)))
  {
    match payload
    case Json(Err(m)) => Run([], Reply(None, Some(EncodeError(m))))
    case Json(Ok(jb)) => Exchange(net, history, origin, token, verb, path, Some(jb))
    case NoBody => Exchange(net, history, origin, token, verb, path, None)
  }

  /** From newRequest on: build the request, or stop with its error; otherwise dispatch it and finish. */
  function Exchange(net: Net, history: seq<Wire>, origin: string, token: string, verb: Method, path: string, body: Option<Bytes>): (run: Run)
  {
    var url := GetAPIURL(origin, path);
    match net.urlError(url)
    case Some(m) => Run([], Reply(None, Some(BuildError(m))))
    case None =>
      var w := Wire(verb, url, AuthHeader(token), body);
      Run([w], AfterDispatch(net.server(history, w)))
  }

  /** A call returns bytes only after dispatching one request whose answer was accepted and read. */
  lemma SuccessIsTheBodyRead(net: Net, history: seq<Wire>, origin: string, token: string, verb: Method, path: string, payload: Payload)
    requires Call(net, history, origin, token, verb, path, payload).reply.err.None?
    ensures var run := Call(net, history, origin, token, verb, path, payload);
            |run.sent| == 1
            && net.server(history, run.sent[0]).Resp?
            && net.server(history, run.sent[0]).response.statusCode <= 400
            && run.reply.bytes == Some(net.server(history, run.sent[0]).response.body.value)
  {
  }

  /** The client: its configuration never changes after NewClient; HTTPClient is its transport handle. */
  class Client {
    const ClientID: string
    const ClientSecret: string
    const AccessToken: string
    const Origin: string
    const HTTPClient: Transport

    /** NewClient: stores each argument in its field; the transport handle is supplied by the caller. */
    constructor NewClient(or: string, cid: string, cs: string, at: string, http: Transport)
      ensures Origin == or && ClientID == cid && ClientSecret == cs && AccessToken == at
      ensures HTTPClient == http
    {
      ClientID := cid;
      ClientSecret := cs;
      Origin := or;
      AccessToken := at;
      HTTPClient := http;
    }

    /** newRequest: the request for `path` with exactly one Authorization header, or the build error. */
    method NewRequest(verb: Method, path: string, body: Option<Bytes>) returns (req: Request?, err: Option<Error>)
      ensures var url := GetAPIURL(Origin, path);
              match HTTPClient.net.urlError(url)
              case Some(m) => req == null && err == Some(BuildError(m))
              case None =>
                err.None? && req != null && fresh(req)
                && req.ToWire() == Outgoing(Origin, AccessToken, verb, path, body)
    {
      var url := GetAPIURL(Origin, path);
      var e;
      req, e := HTTPClient.NewRequest(verb, url, body);
      if e.Some? {
        return null, Some(BuildError(e.value));
      }
      req.Add(AUTHORIZATION, AuthorizationValue(AccessToken));
      err := None;
    }

    /** The dispatch, classify and read steps shared by the three operations. */
    method Send(req: Request) returns (b: Option<Bytes>, err: Option<Error>)
      modifies HTTPClient
      ensures HTTPClient.sent == old(HTTPClient.sent) + [req.ToWire()]
      ensures Reply(b, err) == AfterDispatch(HTTPClient.net.server(old(HTTPClient.sent), req.ToWire()))
    {
      var o := HTTPClient.Do(req);
      if o.TransportErr? {
        return None, Some(TransportError(o.msg));
      }
      var e := HandleRequestError(o.response);
      if e.Some? {
        return None, e;
      }
      var r := Read(o.response);
      b, err := r.bytes, r.err;
    }

    /** Patch: PATCH with the marshaled body. */
    method Patch(path: string, marshaled: Result<Bytes>) returns (b: Option<Bytes>, err: Option<Error>)
      modifies HTTPClient
      ensures var run := Call(HTTPClient.net, old(HTTPClient.sent), Origin, AccessToken, PATCH, path, Json(marshaled));
              HTTPClient.sent == old(HTTPClient.sent) + run.sent && Reply(b, err) == run.reply
    {
      if marshaled.Err? {
        return None, Some(EncodeError(marshaled.msg));
      }
      var req;
      req, err := NewRequest(PATCH, path, Some(marshaled.value));
      if err.Some? {
        return None, err;
      }
      b, err := Send(req);
    }

    /** Post: POST with the marshaled body. */
    method Post(path: string, marshaled: Result<Bytes>) returns (b: Option<Bytes>, err: Option<Error>)
      modifies HTTPClient
      ensures var run := Call(HTTPClient.net, old(HTTPClient.sent), Origin, AccessToken, POST, path, Json(marshaled));
              HTTPClient.sent == old(HTTPClient.sent) + run.sent && Reply(b, err) == run.reply
    {
      if marshaled.Err? {
        return None, Some(EncodeError(marshaled.msg));
      }
      var req;
      req, err := NewRequest(POST, path, Some(marshaled.value));
      if err.Some? {
        return None, err;
      }
      b, err := Send(req);
    }

    /** Get: GET with no body. */
    method Get(path: string) returns (b: Option<Bytes>, err: Option<Error>)
      modifies HTTPClient
      ensures var run := Call(HTTPClient.net, old(HTTPClient.sent), Origin, AccessToken, GET, path, NoBody);
              HTTPClient.sent == old(HTTPClient.sent) + run.sent && Reply(b, err) == run.reply
    {
      var req;
      req, err := NewRequest(GET, path, None);
      if err.Some? {
        return None, err;
      }
      b, err := Send(req);
    }
  }
}
